/** The three collections the handlers read and write, held in memory, with
    the mails the handlers hand to the mailer. */
module Database {
  import opened Common
  import opened ParcelModel
  import opened LocationModel
  import opened UserModel

  /** What holds of the collections between requests: identifiers come from
      the counter, every order's owner is a user (orders are created only for
      an existing user and users are never removed), a pickup reference names
      a stored Location, stored orders are well formed, stored locations have
      their required region, and the unique indexes hold. */
  ghost predicate Consistent(orders: map<Id, Order>, locations: map<Id, Location>,
                             users: map<Id, User>, nextId: Id)
  {
    && (forall k :: k in orders ==> k < nextId)
    && (forall k :: k in locations ==> k < nextId)
    && (forall k :: k in users ==> k < nextId)
    && (forall k :: k in orders ==> orders[k].owner in users)
    && (forall k :: k in orders && orders[k].pickUp.Some? ==> orders[k].pickUp.value in locations)
    && (forall k :: k in orders ==> WellFormedOrder(orders[k]))
    && (forall k :: k in locations ==> locations[k].region != "")
    && UniqueEmails(users)
    && UniqueNames(users)
  }

  /** Replacing a stored order by a well-formed one with the same owner and
      pickup keeps the store consistent. */
  lemma ReplaceOrder(orders: map<Id, Order>, locations: map<Id, Location>,
                     users: map<Id, User>, nextId: Id, id: Id, o: Order)
    requires Consistent(orders, locations, users, nextId) && id in orders
    requires o.owner == orders[id].owner && o.pickUp == orders[id].pickUp && WellFormedOrder(o)
    ensures Consistent(orders[id := o], locations, users, nextId)
  {
  }

  class Store {
    var orders: map<Id, Order>
    var locations: map<Id, Location>
    var users: map<Id, User>
    /** Every identifier handed out so far is below `nextId`. */
    var nextId: Id
    /** Every `mailSender(to, from, subject, message)` call, in order. */
    ghost var outbox: seq<Mail>

    /** The store's collections are `Consistent`. */
    ghost predicate Valid()
      reads this
    {
      Consistent(orders, locations, users, nextId)
    }

    constructor ()
      ensures Valid()
      ensures orders == map[] && locations == map[] && users == map[] && outbox == []
    {
      orders, locations, users := map[], map[], map[];
      nextId := 0;
      outbox := [];
    }
  }
}
