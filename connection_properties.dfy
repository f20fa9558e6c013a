/**
 * Properties of a connection's handlers together with the registry: who can change membership,
 * who can reach the bus, and what a relayed event does and does not reach.
 */
module ConnectionProperties {
  import opened Common
  import opened SessionRegistry
  import opened SessionProperties
  import opened Connection

  /**
   * A join that is not admitted closes the socket, changes no member set and grants no role: the
   * stored role either stays as it was or is cleared by the failed membership check.
   */
  lemma FailedJoinRegistersNothing(c: Conn, r: Registry, dir: Directory, w: SessionId, token: Token, v: SessionId)
    requires !Admitted(dir, w, token)
    ensures var res := Join(c, r, dir, w, token);
      && res.0.closed && Members(res.1, v) == Members(r, v) && res.1.subscriptions == r.subscriptions
      && (res.0.role == c.role || res.0.role == None)
  {
  }

  /** Whether `msg` is a `join_session` that the directory admits. */
  ghost predicate IsAdmittedJoin(dir: Directory, msg: Inbound)
  {
    msg.Tagged? && msg.tag == "join_session" && Admitted(dir, msg.payload.watchSessionId, msg.payload.token)
  }

  /** The `message` listener applied to each message of `msgs` in turn. */
  function DispatchAll(c: Conn, r: Registry, dir: Directory, msgs: seq<Inbound>): (Conn, Registry)
    decreases |msgs|
  {
    if msgs == [] then (c, r)
    else
      var (c1, r1) := Dispatch(c, r, dir, msgs[0]);
      DispatchAll(c1, r1, dir, msgs[1..])
  }

  /**
   * A connection without a role that is never admitted to a session never publishes: every message
   * other than an admitted join leaves its role absent, so no `play`, `pause` or `seek` of it reaches
   * the bus, whatever else the messages do to the member sets.
   */
  lemma {:induction false} NeverAdmittedNeverPublishes(c: Conn, r: Registry, dir: Directory, msgs: seq<Inbound>)
    requires c.role == None
    requires forall i :: 0 <= i < |msgs| ==> !IsAdmittedJoin(dir, msgs[i])
    ensures DispatchAll(c, r, dir, msgs).0.role == None
    ensures DispatchAll(c, r, dir, msgs).1.published == r.published
    decreases |msgs|
  {
    if msgs != [] {
      var msg := msgs[0];
      var (c1, r1) := Dispatch(c, r, dir, msg);
      assert !IsAdmittedJoin(dir, msg);
      if msg.Tagged? && msg.tag == "join_session" {
        FailedJoinRegistersNothing(c, r, dir, msg.payload.watchSessionId, msg.payload.token, msg.payload.watchSessionId);
      }
      assert c1.role == None && r1.published == r.published;
      NeverAdmittedNeverPublishes(c1, r1, dir, msgs[1..]);
    }
  }

  /**
   * An admitted join registers the connection and syncs it to the last state recorded for the
   * session, or to `pause` at 0 when none is cached.
   */
  lemma AdmittedJoinSyncsOnce(c: Conn, r: Registry, dir: Directory, w: SessionId, token: Token)
    requires Admitted(dir, w, token)
    ensures var res := Join(c, r, dir, w, token);
      && c.id in Members(res.1, w)
      && |res.0.sent| == |c.sent| + 1
      && res.0.sent[|c.sent|] == (if w in r.playback then SyncOf(r.playback[w]) else Sync("pause", 0))
  {
  }

  /** A `play`, `pause` or `seek` from a connection whose role is not `ADMIN` reaches nobody. */
  lemma NonAdminControlIsSilent(c: Conn, r: Registry, dir: Directory, tag: string, p: Payload)
    requires IsControlTag(tag) && c.role != Some(ADMIN)
    ensures Dispatch(c, r, dir, Tagged(tag, p)) == (c, r)
  {
  }

  /**
   * An `ADMIN` event is published with the connection's id as sender, so its delivery writes it to
   * each other member of the session exactly once and never back to the sender.
   */
  lemma {:induction false} AdminEventReachesEveryOtherMember(c: Conn, r: Registry, w: SessionId, eventType: string, timestamp: int, sends: seq<Send>)
    requires c.role == Some(ADMIN)
    requires var r' := Control(c, r, w, eventType, timestamp);
      var m := r'.published[|r'.published| - 1].message;
      SendsOnceEach(sends, Recipients(r', w, m.senderId), Relayed(m.eventType, m.timestamp))
    ensures var r' := Control(c, r, w, eventType, timestamp);
      && r'.published == r.published + [Publication(w, BusMessage(eventType, timestamp, c.id))]
      && |sends| == |Members(r, w) - {c.id}|
      && (forall d :: d in Members(r, w) && d != c.id ==> Send(d, Relayed(eventType, timestamp)) in sends)
      && (forall s :: s in sends ==> s.to != c.id)
  {
    var r' := Control(c, r, w, eventType, timestamp);
    var m := BusMessage(eventType, timestamp, c.id);
    assert r'.published[|r'.published| - 1].message == m;
    assert Members(r', w) == Members(r, w);
    DeliveryCount(r', w, m, sends);
  }

  /** A leave whose token names another user than the stored one changes nothing. */
  lemma ForgedLeaveChangesNothing(c: Conn, r: Registry, dir: Directory, w: SessionId, token: Token)
    requires token in dir.tokens && dir.tokens[token] != c.dbUserId
    ensures Leave(c, r, dir, w, token) == (c, r)
  {
  }

  /** Leaving keeps the cached role: an `ADMIN` that has left still publishes. */
  lemma AdminAfterLeaveStillPublishes(c: Conn, r: Registry, dir: Directory, w: SessionId, token: Token, timestamp: int)
    requires c.role == Some(ADMIN)
    ensures var (c', r') := Leave(c, r, dir, w, token);
      Control(c', r', w, "play", timestamp).published == r'.published + [Publication(w, BusMessage("play", timestamp, c.id))]
  {
  }

  /**
   * Closing unsubscribes from the session keyed by the stored user id, so a connection that joined
   * any other session stays a member of it after its socket has closed.
   */
  lemma CloseDoesNotLeaveJoinedSession(c: Conn, r: Registry, w: SessionId)
    requires c.id in Members(r, w)
    requires c.dbUserId != Some(w)
    ensures c.id in Members(Close(c, r), w)
  {
  }

  /** Removing a connection twice is the same as removing it once, so a repeated close does nothing more. */
  lemma {:induction false} UnsubscribeIdempotent(r: Registry, w: SessionId, c: ConnId)
    requires Inv(r)
    ensures Unsubscribe(Unsubscribe(r, w, c), w, c) == Unsubscribe(r, w, c)
  {
    var once := Unsubscribe(r, w, c);
    if w in once.sessions {
      assert once.sessions[w] == r.sessions[w] - {c};
      assert once.sessions[w] - {c} == once.sessions[w];
      assert once.sessions[w := once.sessions[w] - {c}] == once.sessions;
    }
  }

  lemma CloseTwiceIsCloseOnce(c: Conn, r: Registry)
    requires Inv(r)
    ensures Close(c, Close(c, r)) == Close(c, r)
  {
    if Truthy(c.dbUserId) {
      UnsubscribeIdempotent(r, c.dbUserId.value, c.id);
    }
  }
}
