/** The Order document (models/parcel.js): its shape, the schema defaults,
    the ownership test and the creation validator. Field names keep the
    schema's own spellings (`recieverName`, `reciverEmail`, `reciverTel`). */
module ParcelModel {
  import opened Common
  import opened Joi

  /** A `{lat, lng}` pair; either half may be unset. */
  datatype Coords = Coords(lat: Option<int>, lng: Option<int>)

  datatype Destination = Destination(
    recieverName: string,
    reciverEmail: Option<string>,
    reciverTel: string,
    region: string,
    coordinates: Coords)

  datatype PresentLocation = PresentLocation(region: Option<string>, coordinates: Coords)

  /** An order. `pickUp` is optional in the schema: it refers to a Location
      only once a pickup has been assigned. */
  datatype Order = Order(
    owner: Id,
    pickUp: Option<Id>,
    parcelType: string,
    parcelWeight: int,
    destination: Destination,
    presentLocation: PresentLocation,
    status: string)

  /** The schema default of `status`. */
  const DefaultStatus: string := "pending"

  const Delivered: string := "delivered"
  const Canceled: string := "canceled"

  /** Both coordinates, where set, are numbers `Joi.number()` accepts. */
  predicate SafeCoords(c: Coords)
  {
    && (c.lat.Some? ==> SafeNumber(c.lat.value))
    && (c.lng.Some? ==> SafeNumber(c.lng.value))
  }

  /** What every stored order satisfies: the schema's `required: true` string
      fields are non-empty (Mongoose refuses "" for a required string), and
      the destination keeps what the Joi validators that admit it demand (a
      receiverTel of 10 to 13 UTF-16 units, safe coordinates). */
  predicate WellFormedOrder(o: Order)
  {
    && o.parcelType != ""
    && o.status != ""
    && o.destination.recieverName != ""
    && 10 <= Utf16Len(o.destination.reciverTel) <= 13
    && o.destination.region != ""
    && SafeCoords(o.destination.coordinates)
  }

  /** `order.isOrderOwner(id)`. */
  predicate IsOrderOwner(o: Order, id: Id)
  {
    o.owner == id
  }

  /** The Joi schema of `validation` (order creation). */
  const OrderSchema: Schema := map[
    "parcelType" := Rule(JoiString(0, None, false), true),
    "parcelWeight" := Rule(JoiNumber, true),
    "receiverName" := Rule(JoiString(0, None, false), true),
    "receiverEmail" := Rule(JoiString(0, None, true), false),
    "receiverTel" := Rule(JoiString(10, Some(13), false), true),
    "destinationRegion" := Rule(JoiString(0, None, false), true),
    "destinationLat" := Rule(JoiNumber, false),
    "destinationLng" := Rule(JoiNumber, false)
  ]

  /** The keys a creation request may leave out. */
  const OptionalOrderKeys: set<string> := {"receiverEmail", "destinationLat", "destinationLng"}

  /** `validation(data)` reports no error. */
  function OrderValidation(isEmail: string -> bool, body: Body): (ok: bool)
    ensures ok ==> forall k :: k in body ==> k in OrderSchema
    ensures ok ==> "parcelType" in body && body["parcelType"].JStr? && body["parcelType"].s != ""
    ensures ok ==> "parcelWeight" in body && body["parcelWeight"].JNum? && SafeNumber(body["parcelWeight"].n)
    ensures ok ==> "receiverName" in body && body["receiverName"].JStr? && body["receiverName"].s != ""
    ensures ok ==> "receiverTel" in body && body["receiverTel"].JStr? && 10 <= Utf16Len(body["receiverTel"].s) <= 13
    ensures ok ==> "destinationRegion" in body && body["destinationRegion"].JStr? && body["destinationRegion"].s != ""
    ensures ok ==> "receiverEmail" in body ==> body["receiverEmail"].JStr? && body["receiverEmail"].s != ""
                                               && isEmail(body["receiverEmail"].s)
    ensures ok ==> "destinationLat" in body ==> body["destinationLat"].JNum? && SafeNumber(body["destinationLat"].n)
    ensures ok ==> "destinationLng" in body ==> body["destinationLng"].JNum? && SafeNumber(body["destinationLng"].n)
  {
    if Accepts(isEmail, OrderSchema, body) then
      AcceptedKey(isEmail, OrderSchema, body, "parcelType");
      AcceptedKey(isEmail, OrderSchema, body, "parcelWeight");
      AcceptedKey(isEmail, OrderSchema, body, "receiverName");
      AcceptedKey(isEmail, OrderSchema, body, "receiverTel");
      AcceptedKey(isEmail, OrderSchema, body, "destinationRegion");
      AcceptedKey(isEmail, OrderSchema, body, "receiverEmail");
      AcceptedKey(isEmail, OrderSchema, body, "destinationLat");
      AcceptedKey(isEmail, OrderSchema, body, "destinationLng");
      true
    else
      false
  }

  /** The optional keys are optional: a valid request stays valid without
      any of them. */
  lemma OptionalOrderFields(isEmail: string -> bool, body: Body)
    requires OrderValidation(isEmail, body)
    ensures OrderValidation(isEmail, body - OptionalOrderKeys)
  {
  }

  /** A request that carries exactly the five required fields, well typed,
      passes validation whatever the email checker says. */
  lemma MinimalOrderAccepted(isEmail: string -> bool, parcelType: string, weight: int,
                             name: string, tel: string, region: string)
    requires parcelType != "" && name != "" && region != "" && 10 <= Utf16Len(tel) <= 13
    requires SafeNumber(weight)
    ensures OrderValidation(isEmail, map[
      "parcelType" := JStr(parcelType), "parcelWeight" := JNum(weight),
      "receiverName" := JStr(name), "receiverTel" := JStr(tel),
      "destinationRegion" := JStr(region)])
  {
    var b0: Body := map[];
    AdmitKey(isEmail, OrderSchema, b0, "parcelType", JStr(parcelType));
    var b1 := b0["parcelType" := JStr(parcelType)];
    AdmitKey(isEmail, OrderSchema, b1, "parcelWeight", JNum(weight));
    var b2 := b1["parcelWeight" := JNum(weight)];
    AdmitKey(isEmail, OrderSchema, b2, "receiverName", JStr(name));
    var b3 := b2["receiverName" := JStr(name)];
    AdmitKey(isEmail, OrderSchema, b3, "receiverTel", JStr(tel));
    var b4 := b3["receiverTel" := JStr(tel)];
    AdmitKey(isEmail, OrderSchema, b4, "destinationRegion", JStr(region));
  }

  /** The optional part of a destination request: an email and coordinates,
      each under its request key only when given. */
  function OptionalFields(email: Option<string>, lat: Option<int>, lng: Option<int>): (b: Body)
    ensures b.Keys <= OptionalOrderKeys
  {
    (if email.Some? then map["receiverEmail" := JStr(email.value)] else map[])
    + (if lat.Some? then map["destinationLat" := JNum(lat.value)] else map[])
    + (if lng.Some? then map["destinationLng" := JNum(lng.value)] else map[])
  }

  /** A checked email and safe coordinates fit their rules in any schema
      that gives those keys the creation schema's rules. */
  lemma OptionalFieldsFit(isEmail: string -> bool, schema: Schema,
                          email: Option<string>, lat: Option<int>, lng: Option<int>)
    requires forall k :: k in OptionalOrderKeys ==> k in schema && schema[k] == OrderSchema[k]
    requires email.Some? ==> email.value != "" && isEmail(email.value)
    requires SafeCoords(Coords(lat, lng))
    ensures Admissible(isEmail, schema, OptionalFields(email, lat, lng))
  {
    var empty: Body := map[];
    var e := if email.Some? then map["receiverEmail" := JStr(email.value)] else map[];
    var la := if lat.Some? then map["destinationLat" := JNum(lat.value)] else map[];
    var ln := if lng.Some? then map["destinationLng" := JNum(lng.value)] else map[];
    if email.Some? {
      assert "receiverEmail" in OptionalOrderKeys;
      AdmitKey(isEmail, schema, empty, "receiverEmail", JStr(email.value));
    }
    if lat.Some? {
      assert "destinationLat" in OptionalOrderKeys;
      AdmitKey(isEmail, schema, empty, "destinationLat", JNum(lat.value));
    }
    if lng.Some? {
      assert "destinationLng" in OptionalOrderKeys;
      AdmitKey(isEmail, schema, empty, "destinationLng", JNum(lng.value));
    }
    AdmissibleUnion(isEmail, schema, e, la);
    AdmissibleUnion(isEmail, schema, e + la, ln);
  }

  /** The optional keys, when present and valid, are accepted too: a valid
      request grows by a checked email and safe coordinates and still
      passes. */
  lemma OptionalOrderKeysAccepted(isEmail: string -> bool, body: Body,
                                  email: Option<string>, lat: Option<int>, lng: Option<int>)
    requires OrderValidation(isEmail, body)
    requires email.Some? ==> email.value != "" && isEmail(email.value)
    requires SafeCoords(Coords(lat, lng))
    ensures OrderValidation(isEmail, body + OptionalFields(email, lat, lng))
  {
    OptionalFieldsFit(isEmail, OrderSchema, email, lat, lng);
    AdmissibleUnion(isEmail, OrderSchema, body, OptionalFields(email, lat, lng));
  }

  /** The destination a request describes, with the request's field names
      mapped to the schema's (receiverName to recieverName, receiverEmail to
      reciverEmail, receiverTel to reciverTel, destinationRegion to region,
      destinationLat/Lng to coordinates). */
  function DestinationOf(body: Body): Destination
  {
    Destination(
      StrAt(body, "receiverName"),
      OptStrAt(body, "receiverEmail"),
      StrAt(body, "receiverTel"),
      StrAt(body, "destinationRegion"),
      Coords(OptNumAt(body, "destinationLat"), OptNumAt(body, "destinationLng")))
  }

  /** The request that describes a destination: the inverse renaming. */
  function DestinationBody(d: Destination): Body
  {
    map["receiverName" := JStr(d.recieverName),
        "receiverTel" := JStr(d.reciverTel),
        "destinationRegion" := JStr(d.region)]
    + OptionalFields(d.reciverEmail, d.coordinates.lat, d.coordinates.lng)
  }

  /** Renaming loses nothing: every field of a destination survives the
      trip through a request. */
  lemma DestinationRoundTrip(d: Destination)
    ensures DestinationOf(DestinationBody(d)) == d
  {
  }

  /** The order `OrderModel.create` stores for a validated request, with the
      schema's defaults: status "pending", no pickup, no present location. */
  function NewOrder(owner: Id, body: Body): (o: Order)
    ensures o.owner == owner && o.status == DefaultStatus && o.pickUp == None
    ensures o.presentLocation == PresentLocation(None, Coords(None, None))
    ensures o.destination == DestinationOf(body)
  {
    Order(owner, None, StrAt(body, "parcelType"), NumAt(body, "parcelWeight"),
          DestinationOf(body), PresentLocation(None, Coords(None, None)), DefaultStatus)
  }

  /** A validated creation request yields an order the schema accepts, whose
      fields are the request's own. */
  lemma NewOrderFromRequest(isEmail: string -> bool, owner: Id, body: Body)
    requires OrderValidation(isEmail, body)
    ensures WellFormedOrder(NewOrder(owner, body))
    ensures NewOrder(owner, body).parcelType == body["parcelType"].s
    ensures NewOrder(owner, body).parcelWeight == body["parcelWeight"].n
    ensures NewOrder(owner, body).destination.recieverName == body["receiverName"].s
    ensures NewOrder(owner, body).destination.reciverTel == body["receiverTel"].s
    ensures NewOrder(owner, body).destination.region == body["destinationRegion"].s
  {
  }
}
