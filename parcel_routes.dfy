/** The order handlers of routes/parcel.js as operations on the store. Each
    handler runs as one atomic step after the auth middleware has set
    `actor`; the early returns fire in the source's order, which decides the
    status when several checks fail. */
module ParcelRoutes {
  import opened Common
  import opened Joi
  import opened ParcelModel
  import opened LocationModel
  import opened UserModel
  import opened Database

  /** `user.isAdmin || order.isOrderOwner(user._id)`: the test of view,
      pick and cancel. */
  predicate AdminOrOwner(actor: Claims, o: Order)
  {
    actor.isAdmin || IsOrderOwner(o, actor.id)
  }

  /** The Joi schema of `PUT /:id/destination`. */
  const DestinationSchema: Schema := map[
    "receiverName" := Rule(JoiString(0, None, false), true),
    "receiverEmail" := Rule(JoiString(0, None, true), false),
    "receiverTel" := Rule(JoiString(10, Some(13), false), true),
    "destinationRegion" := Rule(JoiString(0, None, false), true),
    "destinationLat" := Rule(JoiNumber, false),
    "destinationLng" := Rule(JoiNumber, false)
  ]

  /** The destination schema is the creation schema without the parcel
      fields: both handlers apply the same rule to every destination key. */
  lemma DestinationSchemaOfCreation()
    ensures DestinationSchema == OrderSchema - {"parcelType", "parcelWeight"}
  {
  }

  /** `PUT /:id/destination`'s validation reports no error. */
  function DestinationValidation(isEmail: string -> bool, body: Body): (ok: bool)
    ensures ok ==> forall k :: k in body ==> k in DestinationSchema
    ensures ok ==> "receiverName" in body && body["receiverName"].JStr? && body["receiverName"].s != ""
    ensures ok ==> "receiverTel" in body && body["receiverTel"].JStr? && 10 <= Utf16Len(body["receiverTel"].s) <= 13
    ensures ok ==> "destinationRegion" in body && body["destinationRegion"].JStr? && body["destinationRegion"].s != ""
    ensures ok ==> "receiverEmail" in body ==> body["receiverEmail"].JStr? && body["receiverEmail"].s != ""
                                               && isEmail(body["receiverEmail"].s)
    ensures ok ==> "destinationLat" in body ==> body["destinationLat"].JNum? && SafeNumber(body["destinationLat"].n)
    ensures ok ==> "destinationLng" in body ==> body["destinationLng"].JNum? && SafeNumber(body["destinationLng"].n)
    ensures ok ==> "parcelType" !in body && "parcelWeight" !in body
  {
    if Accepts(isEmail, DestinationSchema, body) then
      AcceptedKey(isEmail, DestinationSchema, body, "receiverName");
      AcceptedKey(isEmail, DestinationSchema, body, "receiverTel");
      AcceptedKey(isEmail, DestinationSchema, body, "destinationRegion");
      AcceptedKey(isEmail, DestinationSchema, body, "receiverEmail");
      AcceptedKey(isEmail, DestinationSchema, body, "destinationLat");
      AcceptedKey(isEmail, DestinationSchema, body, "destinationLng");
      true
    else
      false
  }

  /** Every well-formed destination whose email (if any) passes the email
      check can be sent as a destination request; with `DestinationRoundTrip`
      the handler then stores exactly that destination. */
  lemma DestinationBodyAccepted(isEmail: string -> bool, d: Destination)
    requires d.recieverName != "" && d.region != "" && 10 <= Utf16Len(d.reciverTel) <= 13
    requires SafeCoords(d.coordinates)
    requires d.reciverEmail.Some? ==> d.reciverEmail.value != "" && isEmail(d.reciverEmail.value)
    ensures DestinationValidation(isEmail, DestinationBody(d))
  {
    var b0: Body := map[];
    AdmitKey(isEmail, DestinationSchema, b0, "receiverName", JStr(d.recieverName));
    var b1 := b0["receiverName" := JStr(d.recieverName)];
    AdmitKey(isEmail, DestinationSchema, b1, "receiverTel", JStr(d.reciverTel));
    var b2 := b1["receiverTel" := JStr(d.reciverTel)];
    AdmitKey(isEmail, DestinationSchema, b2, "destinationRegion", JStr(d.region));
    var base := b2["destinationRegion" := JStr(d.region)];
    DestinationSchemaOfCreation();
    OptionalFieldsFit(isEmail, DestinationSchema, d.reciverEmail, d.coordinates.lat, d.coordinates.lng);
    AdmissibleUnion(isEmail, DestinationSchema, base,
                    OptionalFields(d.reciverEmail, d.coordinates.lat, d.coordinates.lng));
  }

  /** The schema of `PUT /:id/status`: any non-empty string. */
  const StatusSchema: Schema := map["status" := Rule(JoiString(0, None, false), true)]

  function StatusValidation(body: Body): (ok: bool)
    ensures ok <==> body.Keys == {"status"} && body["status"].JStr? && body["status"].s != ""
  {
    Accepts(UnusedEmailCheck, StatusSchema, body)
  }

  /** The schema of `PUT /:id/presentLocation`. */
  const PresentLocationSchema: Schema := map[
    "presentRegion" := Rule(JoiString(0, None, false), true),
    "presentLat" := Rule(JoiNumber, false),
    "presentLng" := Rule(JoiNumber, false)
  ]

  function PresentLocationValidation(body: Body): (ok: bool)
    ensures ok ==> forall k :: k in body ==> k in {"presentRegion", "presentLat", "presentLng"}
    ensures ok ==> "presentRegion" in body && body["presentRegion"].JStr? && body["presentRegion"].s != ""
    ensures ok ==> "presentLat" in body ==> body["presentLat"].JNum? && SafeNumber(body["presentLat"].n)
    ensures ok ==> "presentLng" in body ==> body["presentLng"].JNum? && SafeNumber(body["presentLng"].n)
  {
    Accepts(UnusedEmailCheck, PresentLocationSchema, body)
  }

  /** A present region alone is a valid present-location request; safe
      coordinates may be added. */
  lemma PresentRegionAccepted(region: string, lat: Option<int>, lng: Option<int>)
    requires region != ""
    requires SafeCoords(Coords(lat, lng))
    ensures PresentLocationValidation(map["presentRegion" := JStr(region)])
    ensures var b := map["presentRegion" := JStr(region)]
              + (if lat.Some? then map["presentLat" := JNum(lat.value)] else map[])
              + (if lng.Some? then map["presentLng" := JNum(lng.value)] else map[]);
            PresentLocationValidation(b)
  {
  }

  /** `GET /` (routes/parcel.js:135): a non-admin gets 401. For an admin the
      handler hands the un-awaited query object itself to `res.json`; the
      query refers back to itself through its collection and connection, so
      serialising it throws, and the admin's request ends in `Crash`. */
  function ListActiveGate(actor: Claims): (s: Status)
    ensures s == Crash <==> actor.isAdmin
    ensures s == Unauthorized <==> !actor.isAdmin
  {
    if actor.isAdmin then Crash else Unauthorized
  }

  /** `GET /all`: every order, for an admin only. */
  function ListAll(db: Store, actor: Claims): (r: Reply<map<Id, Order>>)
    reads db
    ensures actor.isAdmin ==> r == Reply(OK, Some(db.orders))
    ensures !actor.isAdmin ==> r == Reply(Unauthorized, None)
  {
    if actor.isAdmin then Reply(OK, Some(db.orders)) else Reply(Unauthorized, None)
  }

  /** The object `GET /:id` answers with. */
  datatype OrderView = OrderView(
    id: Id,
    ownerId: Id,
    ownerName: string,
    ownerEmail: string,
    ownerTelephoneNumber: string,
    parcelType: string,
    parcelWeight: int,
    from: Option<Location>,
    to: Destination,
    presentLocation: PresentLocation,
    status: string)

  /** `populate("pickUp")`: the referenced Location, or null. */
  function PickUpOf(db: Store, o: Order): (l: Option<Location>)
    reads db
    ensures l.Some? ==> o.pickUp.Some? && o.pickUp.value in db.locations
                        && l.value == db.locations[o.pickUp.value]
    ensures o.pickUp.Some? && o.pickUp.value in db.locations ==> l.Some?
  {
    if o.pickUp.Some? && o.pickUp.value in db.locations then Some(db.locations[o.pickUp.value]) else None
  }

  /** `GET /:id`. A missing order is 404 before any role check; an order whose
      owner is no longer a user makes `order.owner._id` throw; otherwise an
      admin or the owner gets 200 with the order and its owner, anyone else
      401. */
  function ViewOrder(db: Store, actor: Claims, id: Id): (r: Reply<OrderView>)
    reads db
    ensures id !in db.orders ==> r == Reply(NotFound, None)
    ensures id in db.orders && db.orders[id].owner !in db.users ==> r == Reply(Crash, None)
    ensures id in db.orders && db.orders[id].owner in db.users ==>
              (r.status == OK <==> AdminOrOwner(actor, db.orders[id]))
              && (r.status != OK ==> r == Reply(Unauthorized, None))
    ensures r.status == OK ==>
              && id in db.orders && r.data.Some?
              && var o, v := db.orders[id], r.data.value;
                 && v.id == id && v.ownerId == o.owner
                 && o.owner in db.users
                 && v.ownerName == db.users[o.owner].name
                 && v.ownerEmail == db.users[o.owner].email
                 && v.ownerTelephoneNumber == db.users[o.owner].telephonNumber
                 && v.parcelType == o.parcelType && v.parcelWeight == o.parcelWeight
                 && v.from == PickUpOf(db, o)
                 && v.to == o.destination && v.presentLocation == o.presentLocation
                 && v.status == o.status
  {
    if id !in db.orders then Reply(NotFound, None)
    else
      var o := db.orders[id];
      if o.owner !in db.users then Reply(Crash, None)
      else
        var u := db.users[o.owner];
        if AdminOrOwner(actor, o) then
          Reply(OK, Some(OrderView(id, o.owner, u.name, u.email, u.telephonNumber,
                                   o.parcelType, o.parcelWeight, PickUpOf(db, o),
                                   o.destination, o.presentLocation, o.status)))
        else Reply(Unauthorized, None)
  }

  /** `POST /`: a valid request creates one order owned by the actor, with
      status "pending" and no pickup; an invalid one is 400 and adds
      nothing. An actor who is not a stored user makes `parselOwner._id`
      throw. */
  method CreateOrder(db: Store, isEmail: string -> bool, actor: Claims, body: Body)
    returns (status: Status, created: Option<Id>)
    requires db.Valid()
    modifies db`orders, db`nextId
    ensures db.Valid()
    ensures !OrderValidation(isEmail, body) ==>
              status == BadRequest && created == None && db.orders == old(db.orders)
    ensures OrderValidation(isEmail, body) && actor.id !in db.users ==>
              status == Crash && created == None && db.orders == old(db.orders)
    ensures OrderValidation(isEmail, body) && actor.id in db.users ==>
              && status == Created && created == Some(old(db.nextId))
              && created.value !in old(db.orders)
              && db.orders == old(db.orders)[created.value := NewOrder(actor.id, body)]
              && db.orders[created.value].owner == actor.id
              && db.orders[created.value].status == DefaultStatus
              && db.orders[created.value].pickUp == None
    ensures created.None? ==> db.nextId == old(db.nextId)
    ensures created.Some? ==> db.nextId == old(db.nextId) + 1
  {
    if !OrderValidation(isEmail, body) {
      return BadRequest, None;
    }
    if actor.id !in db.users {
      return Crash, None;
    }
    var id := db.nextId;
    NewOrderFromRequest(isEmail, actor.id, body);
    db.orders := db.orders[id := NewOrder(actor.id, body)];
    db.nextId := db.nextId + 1;
    return Created, Some(id);
  }

  /** `POST /:id/pick`: 404 for a missing order, then 401 unless admin or
      owner, then 400 for an invalid location; otherwise one step that adds a
      Location recorded by the actor and points the order's `pickUp` at it,
      replacing any earlier pickup. */
  method AssignPickup(db: Store, actor: Claims, id: Id, body: Body)
    returns (status: Status, created: Option<Id>)
    requires db.Valid()
    modifies db`orders, db`locations, db`nextId
    ensures db.Valid()
    ensures id !in old(db.orders) ==>
              status == NotFound && created == None
              && db.orders == old(db.orders) && db.locations == old(db.locations)
    ensures id in old(db.orders) && !AdminOrOwner(actor, old(db.orders)[id]) ==>
              status == Unauthorized && created == None
              && db.orders == old(db.orders) && db.locations == old(db.locations)
    ensures id in old(db.orders) && AdminOrOwner(actor, old(db.orders)[id]) && !LocationValidation(body) ==>
              status == BadRequest && created == None
              && db.orders == old(db.orders) && db.locations == old(db.locations)
    ensures id in old(db.orders) && AdminOrOwner(actor, old(db.orders)[id]) && LocationValidation(body) ==>
              && status == Created && created == Some(old(db.nextId))
              && created.value !in old(db.locations)
              && db.locations == old(db.locations)[created.value := NewLocation(actor.id, body)]
              && db.locations[created.value].userId == actor.id
              && db.orders == old(db.orders)[id := old(db.orders)[id].(pickUp := created)]
    ensures created.None? ==> db.nextId == old(db.nextId)
    ensures created.Some? ==> db.nextId == old(db.nextId) + 1
  {
    if id !in db.orders {
      return NotFound, None;
    }
    var order := db.orders[id];
    if !AdminOrOwner(actor, order) {
      return Unauthorized, None;
    }
    if !LocationValidation(body) {
      return BadRequest, None;
    }
    var lid := db.nextId;
    var moved := order.(pickUp := Some(lid));
    assert WellFormedOrder(moved) by {
      assert WellFormedOrder(order);
      assert moved.destination == order.destination;
    }
    // The Fawn transaction: save the Location and update the order, as one step.
    db.locations := db.locations[lid := NewLocation(actor.id, body)];
    db.orders := db.orders[id := moved];
    db.nextId := db.nextId + 1;
    return Created, Some(lid);
  }

  /** `PUT /:id/cancel`: 404, then 401 unless admin or owner, then 400 for a
      delivered order; otherwise the status becomes "canceled", also when it
      already is, and nothing else changes. */
  method Cancel(db: Store, actor: Claims, id: Id) returns (status: Status)
    requires db.Valid()
    modifies db`orders
    ensures db.Valid()
    ensures id !in old(db.orders) ==> status == NotFound && db.orders == old(db.orders)
    ensures id in old(db.orders) && !AdminOrOwner(actor, old(db.orders)[id]) ==>
              status == Unauthorized && db.orders == old(db.orders)
    ensures id in old(db.orders) && AdminOrOwner(actor, old(db.orders)[id])
            && old(db.orders)[id].status == Delivered ==>
              status == BadRequest && db.orders == old(db.orders)
    ensures id in old(db.orders) && AdminOrOwner(actor, old(db.orders)[id])
            && old(db.orders)[id].status != Delivered ==>
              status == Created
              && db.orders == old(db.orders)[id := old(db.orders)[id].(status := Canceled)]
  {
    if id !in db.orders {
      return NotFound;
    }
    var order := db.orders[id];
    if !AdminOrOwner(actor, order) {
      return Unauthorized;
    }
    if order.status == Delivered {
      return BadRequest;
    }
    ReplaceOrder(db.orders, db.locations, db.users, db.nextId, id, order.(status := Canceled));
    db.orders := db.orders[id := order.(status := Canceled)];
    return Created;
  }

  /** `PUT /:id/destination`. The order is not checked for null, so a missing
      one throws. Only the owner passes (an admin gets 401); a delivered order
      is 400 before the body is validated; otherwise the destination is
      replaced by the request's, renamed field by field. The status is not
      consulted beyond "delivered": a canceled order's destination changes. */
  method SetDestination(db: Store, isEmail: string -> bool, actor: Claims, id: Id, body: Body)
    returns (status: Status)
    requires db.Valid()
    modifies db`orders
    ensures db.Valid()
    ensures id !in old(db.orders) ==> status == Crash && db.orders == old(db.orders)
    ensures id in old(db.orders) && !IsOrderOwner(old(db.orders)[id], actor.id) ==>
              status == Unauthorized && db.orders == old(db.orders)
    ensures id in old(db.orders) && IsOrderOwner(old(db.orders)[id], actor.id)
            && old(db.orders)[id].status == Delivered ==>
              status == BadRequest && db.orders == old(db.orders)
    ensures id in old(db.orders) && IsOrderOwner(old(db.orders)[id], actor.id)
            && old(db.orders)[id].status != Delivered && !DestinationValidation(isEmail, body) ==>
              status == BadRequest && db.orders == old(db.orders)
    ensures id in old(db.orders) && IsOrderOwner(old(db.orders)[id], actor.id)
            && old(db.orders)[id].status != Delivered && DestinationValidation(isEmail, body) ==>
              && status == Created
              && db.orders == old(db.orders)[id := old(db.orders)[id].(destination := DestinationOf(body))]
              && db.orders[id].destination.recieverName == body["receiverName"].s
              && db.orders[id].destination.reciverEmail == OptStrAt(body, "receiverEmail")
              && db.orders[id].destination.reciverTel == body["receiverTel"].s
              && db.orders[id].destination.region == body["destinationRegion"].s
              && db.orders[id].destination.coordinates
                 == Coords(OptNumAt(body, "destinationLat"), OptNumAt(body, "destinationLng"))
  {
    if id !in db.orders {
      return Crash;
    }
    var order := db.orders[id];
    if !IsOrderOwner(order, actor.id) {
      return Unauthorized;
    }
    if order.status == Delivered {
      return BadRequest;
    }
    if !DestinationValidation(isEmail, body) {
      return BadRequest;
    }
    ReplaceOrder(db.orders, db.locations, db.users, db.nextId, id, order.(destination := DestinationOf(body)));
    db.orders := db.orders[id := order.(destination := DestinationOf(body))];
    return Created;
  }

  /** `PUT /:id/status`. A non-admin gets 401 before the order is loaded; an
      invalid body is 400 even when the order is missing; a missing order
      then throws. Otherwise the supplied string is stored whatever the
      current status (no enum or transition check) and one mail goes to the
      owner. */
  method SetStatus(db: Store, actor: Claims, id: Id, body: Body) returns (status: Status)
    requires db.Valid()
    modifies db`orders, db`outbox
    ensures db.Valid()
    ensures !actor.isAdmin ==>
              status == Unauthorized && db.orders == old(db.orders) && db.outbox == old(db.outbox)
    ensures actor.isAdmin && !StatusValidation(body) ==>
              status == BadRequest && db.orders == old(db.orders) && db.outbox == old(db.outbox)
    ensures actor.isAdmin && StatusValidation(body) && id !in old(db.orders) ==>
              status == Crash && db.orders == old(db.orders) && db.outbox == old(db.outbox)
    ensures actor.isAdmin && StatusValidation(body) && id in old(db.orders) ==>
              && status == Created
              && db.orders == old(db.orders)[id := old(db.orders)[id].(status := body["status"].s)]
              && var owner := db.users[old(db.orders)[id].owner];
                 db.outbox == old(db.outbox) + [Mail(
                   owner.email, actor.email,
                   "Status Update for parcel " + IdText(id),
                   owner.name + " your parcel status has been updated to " + body["status"].s)]
  {
    if !actor.isAdmin {
      return Unauthorized;
    }
    if !StatusValidation(body) {
      return BadRequest;
    }
    if id !in db.orders {
      return Crash;
    }
    var order := db.orders[id];
    var newStatus := body["status"].s;
    ReplaceOrder(db.orders, db.locations, db.users, db.nextId, id, order.(status := newStatus));
    db.orders := db.orders[id := order.(status := newStatus)];
    var owner := db.users[order.owner];
    db.outbox := db.outbox + [Mail(owner.email, actor.email,
                                   "Status Update for parcel " + IdText(id),
                                   owner.name + " your parcel status has been updated to " + newStatus)];
    return Created;
  }

  /** `PUT /:id/presentLocation`. Admin only (401 first), then 400 for an
      invalid body, then a missing order throws. Otherwise, whatever the
      status, the present location is replaced by the request's region and
      coordinates and one mail goes to the owner. */
  method SetPresentLocation(db: Store, actor: Claims, id: Id, body: Body) returns (status: Status)
    requires db.Valid()
    modifies db`orders, db`outbox
    ensures db.Valid()
    ensures !actor.isAdmin ==>
              status == Unauthorized && db.orders == old(db.orders) && db.outbox == old(db.outbox)
    ensures actor.isAdmin && !PresentLocationValidation(body) ==>
              status == BadRequest && db.orders == old(db.orders) && db.outbox == old(db.outbox)
    ensures actor.isAdmin && PresentLocationValidation(body) && id !in old(db.orders) ==>
              status == Crash && db.orders == old(db.orders) && db.outbox == old(db.outbox)
    ensures actor.isAdmin && PresentLocationValidation(body) && id in old(db.orders) ==>
              && status == Created
              && db.orders == old(db.orders)[id := old(db.orders)[id].(presentLocation := PresentLocation(
                   Some(body["presentRegion"].s),
                   Coords(OptNumAt(body, "presentLat"), OptNumAt(body, "presentLng"))))]
              && var owner := db.users[old(db.orders)[id].owner];
                 db.outbox == old(db.outbox) + [Mail(
                   owner.email, actor.email,
                   "Present Location Update for parcel " + IdText(id),
                   owner.name + " your parcel order is currently in the region " + body["presentRegion"].s)]
  {
    if !actor.isAdmin {
      return Unauthorized;
    }
    if !PresentLocationValidation(body) {
      return BadRequest;
    }
    if id !in db.orders {
      return Crash;
    }
    var order := db.orders[id];
    var region := body["presentRegion"].s;
    var present := PresentLocation(Some(region),
                                   Coords(OptNumAt(body, "presentLat"), OptNumAt(body, "presentLng")));
    ReplaceOrder(db.orders, db.locations, db.users, db.nextId, id, order.(presentLocation := present));
    db.orders := db.orders[id := order.(presentLocation := present)];
    var owner := db.users[order.owner];
    db.outbox := db.outbox + [Mail(owner.email, actor.email,
                                   "Present Location Update for parcel " + IdText(id),
                                   owner.name + " your parcel order is currently in the region " + region)];
    return Created;
  }
}
