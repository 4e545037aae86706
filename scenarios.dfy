/** Clients of the handlers: request sequences whose outcomes follow from the
    handlers' contracts alone. */
module Scenarios {
  import opened Common
  import opened Joi
  import opened ParcelModel
  import opened Database
  import opened ParcelRoutes

  /** A user creates an order, an admin sets it "inprocess", the owner reads
      it back: the status is "inprocess" and one mail about that parcel went
      to the owner. */
  method CreateThenSetStatus(db: Store, isEmail: string -> bool, owner: Claims, admin: Claims, body: Body)
    returns (id: Id)
    requires db.Valid() && OrderValidation(isEmail, body)
    requires owner.id in db.users && admin.isAdmin
    modifies db`orders, db`nextId, db`outbox
    ensures db.Valid()
    ensures ViewOrder(db, owner, id).status == OK
    ensures ViewOrder(db, owner, id).data.value.status == "inprocess"
    ensures |db.outbox| == |old(db.outbox)| + 1
    ensures db.outbox[|db.outbox| - 1].to == db.users[owner.id].email
    ensures db.outbox[|db.outbox| - 1].subject == "Status Update for parcel " + IdText(id)
  {
    var s1, created := CreateOrder(db, isEmail, owner, body);
    id := created.value;
    var update := map["status" := JStr("inprocess")];
    assert StatusValidation(update) by {
      assert update.Keys == {"status"};
    }
    var s2 := SetStatus(db, admin, id, update);
    assert s2 == Created;
  }

  /** Cancel is not refused on a canceled order: the second call answers 201
      again and the order stays canceled. A canceled order's destination can
      still be changed by its owner. */
  method CancelTwiceThenMove(db: Store, isEmail: string -> bool, owner: Claims, id: Id, body: Body)
    returns (first: Status, second: Status, moved: Status)
    requires db.Valid() && id in db.orders && db.orders[id].owner == owner.id
    requires db.orders[id].status != Delivered
    requires DestinationValidation(isEmail, body)
    modifies db`orders
    ensures db.Valid()
    ensures first == Created && second == Created && moved == Created
    ensures id in db.orders && db.orders[id].status == Canceled
    ensures db.orders[id].destination == DestinationOf(body)
  {
    first := Cancel(db, owner, id);
    second := Cancel(db, owner, id);
    moved := SetDestination(db, isEmail, owner, id, body);
  }
}
