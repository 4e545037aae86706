/** The read-only handlers of routes/users.js. They are functions of the
    store, so none of them can change it. Path ids are compared with the
    token's id by strict equality. */
module UserRoutes {
  import opened Common
  import opened ParcelModel
  import opened UserModel
  import opened Database

  /** `req.params.id === req.user._id || req.user.isAdmin`. */
  predicate SelfOrAdmin(actor: Claims, id: Id)
  {
    id == actor.id || actor.isAdmin
  }

  /** `OrderModel.find({owner: id})`. */
  function OrdersOf(orders: map<Id, Order>, owner: Id): (r: map<Id, Order>)
    ensures forall k :: k in r <==> k in orders && orders[k].owner == owner
    ensures forall k :: k in r ==> r[k] == orders[k]
  {
    map k | k in orders && orders[k].owner == owner :: orders[k]
  }

  /** `GET /:id/parcels`: 401 unless self or admin, 400 for an unknown user,
      404 for a user without orders, else 200 with exactly that user's
      orders. */
  function UserParcels(db: Store, actor: Claims, id: Id): (r: Reply<map<Id, Order>>)
    reads db
    ensures !SelfOrAdmin(actor, id) ==> r == Reply(Unauthorized, None)
    ensures SelfOrAdmin(actor, id) && id !in db.users ==> r == Reply(BadRequest, None)
    ensures SelfOrAdmin(actor, id) && id in db.users ==>
              (r.status == NotFound <==> forall k :: k in db.orders ==> db.orders[k].owner != id)
    ensures SelfOrAdmin(actor, id) && id in db.users && (exists k :: k in db.orders && db.orders[k].owner == id) ==>
              r.status == OK
    ensures r.status == OK ==>
              && SelfOrAdmin(actor, id) && id in db.users && r.data.Some?
              && r.data.value != map[]
              && (forall k :: k in r.data.value <==> k in db.orders && db.orders[k].owner == id)
              && (forall k :: k in r.data.value ==> r.data.value[k] == db.orders[k])
    ensures r.status in {OK, BadRequest, Unauthorized, NotFound}
  {
    if !SelfOrAdmin(actor, id) then Reply(Unauthorized, None)
    else if id !in db.users then Reply(BadRequest, None)
    else
      var mine := OrdersOf(db.orders, id);
      if mine == map[] then
        Reply(NotFound, None)
      else
        assert exists k :: k in db.orders && db.orders[k].owner == id by {
          var k :| k in mine;
        }
        Reply(OK, Some(mine))
  }

  /** `GET /:id`: 401 unless self or admin, 400 for an unknown user, else 200
      with that user minus the password. */
  function GetUser(db: Store, actor: Claims, id: Id): (r: Reply<PublicUser>)
    reads db
    ensures !SelfOrAdmin(actor, id) ==> r == Reply(Unauthorized, None)
    ensures SelfOrAdmin(actor, id) && id !in db.users ==> r == Reply(BadRequest, None)
    ensures SelfOrAdmin(actor, id) && id in db.users ==>
              r.status == OK && r.data.Some?
              && r.data.value.name == db.users[id].name
              && r.data.value.email == db.users[id].email
              && r.data.value.telephonNumber == db.users[id].telephonNumber
              && r.data.value.isAdmin == db.users[id].isAdmin
  {
    if !SelfOrAdmin(actor, id) then Reply(Unauthorized, None)
    else if id !in db.users then Reply(BadRequest, None)
    else Reply(OK, Some(Public(db.users[id])))
  }

  /** `GET /`: admin only, 200 with exactly the users whose `isAdmin` is not
      true, without passwords. The query answers with an array, which is
      never falsy, so the handler's 400 branch cannot fire. */
  function ListUsers(db: Store, actor: Claims): (r: Reply<map<Id, PublicUser>>)
    reads db
    ensures !actor.isAdmin ==> r == Reply(Unauthorized, None)
    ensures actor.isAdmin ==> r.status == OK && r.data.Some?
    ensures r.data.Some? ==>
              && (forall k :: k in r.data.value <==> k in db.users && !db.users[k].isAdmin)
              && (forall k :: k in r.data.value ==> r.data.value[k] == Public(db.users[k]))
  {
    if actor.isAdmin then
      Reply(OK, Some(map k | k in db.users && !db.users[k].isAdmin :: Public(db.users[k])))
    else Reply(Unauthorized, None)
  }
}
