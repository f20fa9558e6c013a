/**
 * Properties of the watch-session registry that relate several of its operations: join and leave
 * life cycles, the bus subscriptions they cause, the playback cache, and what the delivery callback
 * writes.
 */
module SessionProperties {
  import opened SessionRegistry

  /** Joining twice with the same connection is the same as joining once. */
  lemma AddUserIdempotent(r: Registry, w: SessionId, c: ConnId)
    ensures AddUser(AddUser(r, w, c), w, c) == AddUser(r, w, c)
  {
    var once := AddUser(r, w, c);
    var twice := AddUser(once, w, c);
    assert twice.sessions == once.sessions;
  }

  /** A session's entry is subscribed on the bus once when it is created, and never again while it exists. */
  lemma AddUserSubscribesOnFirstJoinOnly(r: Registry, w: SessionId, c: ConnId, d: ConnId)
    requires w !in r.sessions
    ensures AddUser(r, w, c).subscriptions == r.subscriptions + multiset{w}
    ensures AddUser(AddUser(r, w, c), w, d).subscriptions == r.subscriptions + multiset{w}
  {
  }

  /**
   * The first member joining and then leaving puts the member sets back as they were, drops any
   * cached state of the session, and leaves the subscription behind: nothing unsubscribes from the bus.
   */
  lemma {:induction false} JoinThenLeaveRestoresSessions(r: Registry, w: SessionId, c: ConnId)
    requires w !in r.sessions
    ensures var r' := Unsubscribe(AddUser(r, w, c), w, c);
      && r'.sessions == r.sessions
      && r'.playback == r.playback - {w}
      && r'.subscriptions == r.subscriptions + multiset{w}
      && r'.published == r.published
  {
    var joined := AddUser(r, w, c);
    assert joined.sessions[w] == {c};
    var left := Unsubscribe(joined, w, c);
    assert left.sessions == joined.sessions - {w};
    assert left.sessions == r.sessions;
  }

  /** Re-creating an emptied session subscribes its channel a second time. */
  lemma RejoinSubscribesAgain(r: Registry, w: SessionId, a: ConnId, b: ConnId)
    requires w !in r.sessions
    ensures AddUser(Unsubscribe(AddUser(r, w, a), w, a), w, b).subscriptions[w] == r.subscriptions[w] + 2
  {
    JoinThenLeaveRestoresSessions(r, w, a);
  }

  /** No registry operation ever removes a bus subscription. */
  lemma SubscriptionsNeverShrink(r: Registry, w: SessionId, c: ConnId, m: BusMessage)
    ensures r.subscriptions <= AddUser(r, w, c).subscriptions
    ensures r.subscriptions == Unsubscribe(r, w, c).subscriptions
    ensures r.subscriptions == Publish(r, w, m).subscriptions
  {
  }

  /** Reading back after a publish: the published event decides the cached state of that session. */
  lemma PublishThenRead(r: Registry, w: SessionId, m: BusMessage, v: SessionId)
    ensures PlaybackOf(Publish(r, w, m), w) ==
      if IsPlaybackEvent(m.eventType) then Playback(m.eventType != "pause", m.timestamp) else PlaybackOf(r, w)
    ensures v != w ==> PlaybackOf(Publish(r, w, m), v) == PlaybackOf(r, v)
  {
  }

  /** The playback cache has no entry for a session without members. */
  ghost predicate NoOrphanState(r: Registry)
  {
    forall w :: w in r.playback ==> w in r.sessions
  }

  /**
   * Joining and leaving keep "cached state only while a session has members"; publishing keeps it
   * exactly when the target session has an entry.
   */
  lemma NoOrphanStateKept(r: Registry, w: SessionId, c: ConnId, m: BusMessage)
    requires NoOrphanState(r)
    ensures NoOrphanState(AddUser(r, w, c))
    ensures NoOrphanState(Unsubscribe(r, w, c))
    ensures IsPlaybackEvent(m.eventType) ==> (NoOrphanState(Publish(r, w, m)) <==> w in r.sessions)
  {
  }

  /**
   * Publishing to a session without members caches state nobody shares, and the next member to join
   * is synchronised to that state instead of the default.
   */
  lemma PublishWithoutMembersLeavesStaleState(r: Registry, w: SessionId, m: BusMessage, c: ConnId)
    requires w !in r.sessions && IsPlaybackEvent(m.eventType)
    ensures var r' := Publish(r, w, m);
      && w in r'.playback && Members(r', w) == {}
      && PlaybackOf(AddUser(r', w, c), w) == Playback(m.eventType != "pause", m.timestamp)
  {
  }

  /** When the last member leaves, the cached state goes with it: the next member starts from the default. */
  lemma LastLeaveDiscardsState(r: Registry, w: SessionId, c: ConnId, d: ConnId)
    requires w in r.sessions && r.sessions[w] == {c}
    ensures PlaybackOf(AddUser(Unsubscribe(r, w, c), w, d), w) == DefaultPlayback
  {
  }

  /**
   * What the delivery callback writes adds up: one message per member other than the sender, so
   * nothing to the sender and nothing twice.
   */
  lemma {:induction false} SendsOnceEachCount(sends: seq<Send>, targets: set<ConnId>, ev: Relayed)
    requires SendsOnceEach(sends, targets, ev)
    ensures |sends| == |targets|
  {
    if sends == [] {
      assert targets == {};
    } else {
      var last := sends[|sends| - 1];
      var rest := sends[..|sends| - 1];
      assert last in sends;
      var others := targets - {last.to};
      forall s | s in rest ensures s.to in others && s.event == ev {
        var i :| 0 <= i < |rest| && rest[i] == s;
        assert sends[i] == s;
        assert sends[i].to != sends[|sends| - 1].to;
      }
      forall c | c in others ensures Send(c, ev) in rest {
        assert Send(c, ev) in sends;
        var i :| 0 <= i < |sends| && sends[i] == Send(c, ev);
        assert i != |sends| - 1;
        assert rest[i] == Send(c, ev);
      }
      assert SendsOnceEach(rest, others, ev);
      SendsOnceEachCount(rest, others, ev);
    }
  }

  /** The number of messages one delivery writes is the number of members other than the sender. */
  lemma DeliveryCount(r: Registry, w: SessionId, m: BusMessage, sends: seq<Send>)
    requires SendsOnceEach(sends, Recipients(r, w, m.senderId), Relayed(m.eventType, m.timestamp))
    ensures |sends| == |Members(r, w) - {m.senderId}|
    ensures forall s :: s in sends ==> s.to != m.senderId
    ensures w !in r.sessions ==> sends == []
  {
    SendsOnceEachCount(sends, Recipients(r, w, m.senderId), Relayed(m.eventType, m.timestamp));
  }

  /**
   * A join never takes the connection out of the other sessions it is in, so one connection can be
   * a member of several sessions at once.
   */
  lemma JoinKeepsOtherMemberships(r: Registry, w: SessionId, v: SessionId, c: ConnId)
    requires v != w && c in Members(r, v)
    ensures c in Members(AddUser(r, w, c), v) && c in Members(AddUser(r, w, c), w)
  {
  }
}
