/**
 * The subscription controller: a relation of (subscriber, creator) pairs between existing users,
 * keyed by the pair, that never relates a user to itself.
 */
module Subscriptions {
  import opened Http

  type UserId = string

  /** A subscription row; the pair is the table's unique key. */
  datatype Subscription = Subscription(subscriberId: UserId, creatorId: UserId)

  /** The rows `getSubscriptions` selects for `u`: the creators `u` follows. */
  function SubscriptionsOf(subs: set<Subscription>, u: UserId): (r: set<Subscription>)
    ensures forall s :: s in r <==> s in subs && s.subscriberId == u
  {
    set s | s in subs && s.subscriberId == u
  }

  /** The rows `getSubscribers` selects for `u`: the users following `u`. */
  function SubscribersOf(subs: set<Subscription>, u: UserId): (r: set<Subscription>)
    ensures forall s :: s in r <==> s in subs && s.creatorId == u
  {
    set s | s in subs && s.creatorId == u
  }

  /** The two reads see the same row from its two ends. */
  lemma ReadsAreDual(subs: set<Subscription>, a: UserId, b: UserId)
    ensures Subscription(a, b) in SubscriptionsOf(subs, a) <==> Subscription(a, b) in SubscribersOf(subs, b)
    ensures (set s | s in SubscriptionsOf(subs, a) && s.creatorId == b) == (set s | s in SubscribersOf(subs, b) && s.subscriberId == a)
  {
  }

  /** No user follows itself, and every row relates existing users. */
  ghost predicate WellFormed(users: set<UserId>, subs: set<Subscription>)
  {
    forall s :: s in subs ==> s.subscriberId != s.creatorId && s.subscriberId in users && s.creatorId in users
  }

  /** Subscribing and then unsubscribing the same pair restores the relation of a user who did not follow the creator. */
  lemma SubscribeThenUnsubscribe(subs: set<Subscription>, a: UserId, b: UserId)
    requires Subscription(a, b) !in subs
    ensures (subs + {Subscription(a, b)}) - {Subscription(a, b)} == subs
    ensures SubscriptionsOf(subs + {Subscription(a, b)}, a) == SubscriptionsOf(subs, a) + {Subscription(a, b)}
    ensures SubscribersOf(subs + {Subscription(a, b)}, b) == SubscribersOf(subs, b) + {Subscription(a, b)}
  {
  }

  class SubscriptionTable {
    /** The ids of the users that exist. */
    var users: set<UserId>
    var subscriptions: set<Subscription>

    ghost predicate Valid()
      reads this
    {
      WellFormed(users, subscriptions)
    }

    constructor (users: set<UserId>)
      ensures Valid() && this.users == users && subscriptions == {}
    {
      this.users := users;
      subscriptions := {};
    }

    /**
     * `subscribeToUser`: following yourself answers a message at the default status; a missing
     * creator answers 404; otherwise the (caller, target) row is inserted. An existing row, or a
     * caller that is not a user any more, makes the insert throw, and the 500 message ends with the
     * database's error text `dbError`.
     */
    method SubscribeToUser(caller: UserId, target: UserId, dbError: string) returns (reply: Reply<Subscription>)
      requires Valid()
      modifies this`subscriptions
      ensures Valid()
      ensures target == caller ==> reply == Reply(200, Message("You cannot subscribe to yourself")) && subscriptions == old(subscriptions)
      ensures target != caller && target !in users ==>
        reply == Reply(404, Message("Creator not found")) && subscriptions == old(subscriptions)
      ensures target != caller && target in users && (caller !in users || Subscription(caller, target) in old(subscriptions)) ==>
        reply == Reply(500, Message(InternalError + dbError)) && subscriptions == old(subscriptions)
      ensures target != caller && target in users && caller in users && Subscription(caller, target) !in old(subscriptions) ==>
        reply == Reply(201, Data(Subscription(caller, target))) && subscriptions == old(subscriptions) + {Subscription(caller, target)}
    {
      if target == caller {
        return Reply(200, Message("You cannot subscribe to yourself"));
      }
      if target !in users {
        return Reply(404, Message("Creator not found"));
      }
      var row := Subscription(caller, target);
      if caller !in users || row in subscriptions {
        return Reply(500, Message(InternalError + dbError));
      }
      subscriptions := subscriptions + {row};
      reply := Reply(201, Data(row));
    }

    /** `unsubscribeFromUser`: deletes exactly the (caller, target) row; deleting a row that is not there throws. */
    method UnsubscribeFromUser(caller: UserId, target: UserId) returns (reply: Reply<()>)
      requires Valid()
      modifies this`subscriptions
      ensures Valid()
      ensures Subscription(caller, target) !in old(subscriptions) ==> reply == ServerError() && subscriptions == old(subscriptions)
      ensures Subscription(caller, target) in old(subscriptions) ==>
        reply == Reply(204, NoBody) && subscriptions == old(subscriptions) - {Subscription(caller, target)}
    {
      var row := Subscription(caller, target);
      if row !in subscriptions {
        return ServerError();
      }
      subscriptions := subscriptions - {row};
      reply := Reply(204, NoBody);
    }

    /** `getSubscriptions`: exactly the rows whose subscriber is the caller. */
    method GetSubscriptions(caller: UserId) returns (reply: Reply<set<Subscription>>)
      ensures reply.status == 200 && reply.body.Data?
      ensures forall s :: s in reply.body.value <==> s in subscriptions && s.subscriberId == caller
    {
      reply := Reply(200, Data(SubscriptionsOf(subscriptions, caller)));
    }

    /** `getSubscribers`: exactly the rows whose creator is the caller. */
    method GetSubscribers(caller: UserId) returns (reply: Reply<set<Subscription>>)
      ensures reply.status == 200 && reply.body.Data?
      ensures forall s :: s in reply.body.value <==> s in subscriptions && s.creatorId == caller
    {
      reply := Reply(200, Data(SubscribersOf(subscriptions, caller)));
    }
  }

  /** The guards in turn: yourself, a missing creator, a first and a repeated subscribe, and two unsubscribes. */
  method SubscribeGuards(dbError: string) returns (self: int, missing: int, first: int, again: int, leave: int, leaveAgain: int)
    ensures self == 200 && missing == 404 && first == 201 && again == 500
    ensures leave == 204 && leaveAgain == 500
  {
    var t := new SubscriptionTable({"ann", "bob"});
    var r := t.SubscribeToUser("ann", "ann", dbError);
    self := r.status;
    r := t.SubscribeToUser("ann", "zed", dbError);
    missing := r.status;
    r := t.SubscribeToUser("ann", "bob", dbError);
    first := r.status;
    r := t.SubscribeToUser("ann", "bob", dbError);
    again := r.status;
    var d := t.UnsubscribeFromUser("ann", "bob");
    leave := d.status;
    d := t.UnsubscribeFromUser("ann", "bob");
    leaveAgain := d.status;
  }
}
