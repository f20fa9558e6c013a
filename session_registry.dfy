/**
 * The watch-session registry of the WebSocket server: for every session id the set of connected
 * connections and the cached playback state, plus the publish/subscribe bus the registry talks to.
 *
 * The registry's state is first given as a value (`Registry`) with one function per operation; the
 * class `WatchSessionManager` then holds the same state in mutable fields, and each of its methods
 * is proved to move that state exactly as the corresponding function says.
 */
module SessionRegistry {

  type SessionId = string
  /** The transient id a connection gets when it is accepted (`User.getUserId()`). */
  type ConnId = string

  /** The cached `{ isPlaying, timestamp }` of a session. */
  datatype Playback = Playback(isPlaying: bool, timestamp: int)

  /** What `getPlaybackState` answers for a session with no cached state. */
  const DefaultPlayback: Playback := Playback(false, 0)

  /** The message a connection publishes on a session's bus channel. */
  datatype BusMessage = BusMessage(eventType: string, timestamp: int, senderId: ConnId)

  /** One publish call on the bus: the channel (a session id) and the message. */
  datatype Publication = Publication(channel: SessionId, message: BusMessage)

  /** The event the delivery callback relays to a member: the type is copied, the timestamp travels as `payload`. */
  datatype Relayed = Relayed(eventType: string, payload: int)

  /** One `user.send(...)` issued by the delivery callback. */
  datatype Send = Send(to: ConnId, event: Relayed)

  /**
   * The whole registry: the member sets, the playback cache, every subscribe call made on the bus
   * (one multiset entry per call, so a channel subscribed twice occurs twice), and every message
   * published on the bus, in order.
   */
  datatype Registry = Registry(
    sessions: map<SessionId, set<ConnId>>,
    playback: map<SessionId, Playback>,
    subscriptions: multiset<SessionId>,
    published: seq<Publication>)

  const EmptyRegistry: Registry := Registry(map[], map[], multiset{}, [])

  /**
   * What the registry keeps true: a session entry is never an empty set, and every session that has
   * an entry has been subscribed on the bus.
   */
  ghost predicate Inv(r: Registry)
  {
    forall w :: w in r.sessions ==> r.sessions[w] != {} && w in r.subscriptions
  }

  /** The members of a session; a session without an entry has none. */
  function Members(r: Registry, w: SessionId): set<ConnId>
  {
    if w in r.sessions then r.sessions[w] else {}
  }

  /** The event types that update the playback cache when published. */
  predicate IsPlaybackEvent(t: string)
  {
    t == "play" || t == "pause" || t == "seek"
  }

  /** `addUserToWatchSession`: lazily create the entry (subscribing once), then add the connection. */
  function AddUser(r: Registry, w: SessionId, c: ConnId): (r': Registry)
    ensures r'.sessions.Keys == r.sessions.Keys + {w}
    ensures Members(r', w) == Members(r, w) + {c}
    ensures forall v :: v != w && v in r.sessions ==> r'.sessions[v] == r.sessions[v]
    ensures r'.subscriptions[w] == r.subscriptions[w] + (if w in r.sessions then 0 else 1)
    ensures forall v :: v != w ==> r'.subscriptions[v] == r.subscriptions[v]
    ensures r'.playback == r.playback && r'.published == r.published
  {
    if w in r.sessions then
      r.(sessions := r.sessions[w := r.sessions[w] + {c}])
    else
      r.(sessions := r.sessions[w := {c}], subscriptions := r.subscriptions + multiset{w})
  }

  /**
   * `unsubscribeFromSession`: remove the connection; when the set becomes empty, drop both the entry
   * and the cached playback state. A session without an entry is left alone.
   */
  function Unsubscribe(r: Registry, w: SessionId, c: ConnId): (r': Registry)
    ensures w !in r.sessions ==> r' == r
    ensures Members(r', w) == Members(r, w) - {c}
    ensures w in r.sessions && r.sessions[w] <= {c} ==> w !in r'.sessions && w !in r'.playback
    ensures w in r.sessions && !(r.sessions[w] <= {c}) ==> w in r'.sessions && r'.playback == r.playback
    ensures forall v :: v != w ==> (v in r'.sessions <==> v in r.sessions)
    ensures forall v :: v != w && v in r.sessions ==> r'.sessions[v] == r.sessions[v]
    ensures forall v :: v != w ==> (v in r'.playback <==> v in r.playback)
    ensures forall v :: v != w && v in r.playback ==> r'.playback[v] == r.playback[v]
    ensures r'.subscriptions == r.subscriptions && r'.published == r.published
  {
    if w !in r.sessions then r
    else
      var rest := r.sessions[w] - {c};
      if rest == {} then r.(sessions := r.sessions - {w}, playback := r.playback - {w})
      else r.(sessions := r.sessions[w := rest])
  }

  /**
   * `publishMessage`: put the message on the bus; a `play`, `pause` or `seek` also overwrites the
   * cached state, whether or not the session has members.
   */
  function Publish(r: Registry, w: SessionId, m: BusMessage): (r': Registry)
    ensures r'.published == r.published + [Publication(w, m)]
    ensures m.eventType == "play" || m.eventType == "seek" ==> r'.playback == r.playback[w := Playback(true, m.timestamp)]
    ensures m.eventType == "pause" ==> r'.playback == r.playback[w := Playback(false, m.timestamp)]
    ensures !IsPlaybackEvent(m.eventType) ==> r'.playback == r.playback
    ensures r'.sessions == r.sessions && r'.subscriptions == r.subscriptions
  {
    var playback := if IsPlaybackEvent(m.eventType)
                    then r.playback[w := Playback(m.eventType != "pause", m.timestamp)]
                    else r.playback;
    r.(playback := playback, published := r.published + [Publication(w, m)])
  }

  /** Joining keeps the registry invariant: the entry it touches is non-empty and subscribed. */
  lemma AddUserKeepsInv(r: Registry, w: SessionId, c: ConnId)
    requires Inv(r)
    ensures Inv(AddUser(r, w, c))
  {
    var r' := AddUser(r, w, c);
    forall v | v in r'.sessions ensures r'.sessions[v] != {} && v in r'.subscriptions {
      if v == w {
        assert c in Members(r', w);
      } else {
        assert r'.subscriptions[v] == r.subscriptions[v];
      }
    }
  }

  /** Leaving keeps the registry invariant: an entry that would become empty is dropped. */
  lemma UnsubscribeKeepsInv(r: Registry, w: SessionId, c: ConnId)
    requires Inv(r)
    ensures Inv(Unsubscribe(r, w, c))
  {
  }

  /** Publishing keeps the registry invariant. */
  lemma PublishKeepsInv(r: Registry, w: SessionId, m: BusMessage)
    requires Inv(r)
    ensures Inv(Publish(r, w, m))
  {
  }

  /** `getPlaybackState`: the cached state, or the default when there is none. */
  function PlaybackOf(r: Registry, w: SessionId): Playback
  {
    if w in r.playback then r.playback[w] else DefaultPlayback
  }

  /** The connections the delivery callback writes to: the current members other than the sender. */
  function Recipients(r: Registry, w: SessionId, sender: ConnId): set<ConnId>
  {
    Members(r, w) - {sender}
  }

  /** `sends` writes `ev` to every connection of `targets` exactly once and to nobody else. */
  ghost predicate SendsOnceEach(sends: seq<Send>, targets: set<ConnId>, ev: Relayed)
  {
    && (forall s :: s in sends ==> s.to in targets && s.event == ev)
    && (forall c :: c in targets ==> Send(c, ev) in sends)
    && (forall i, j :: 0 <= i < j < |sends| ==> sends[i].to != sends[j].to)
  }

  /** Writing `ev` to one connection not yet written to extends "once each" by that connection. */
  lemma SendsOnceEachExtend(sends: seq<Send>, targets: set<ConnId>, ev: Relayed, c: ConnId)
    requires SendsOnceEach(sends, targets, ev) && c !in targets
    ensures SendsOnceEach(sends + [Send(c, ev)], targets + {c}, ev)
  {
    var sends' := sends + [Send(c, ev)];
    forall i | 0 <= i < |sends| ensures sends[i].to != c {
      assert sends[i] in sends;
    }
    forall i, j | 0 <= i < j < |sends'| ensures sends'[i].to != sends'[j].to {
      assert sends'[i] == sends[i];
    }
    forall d | d in targets + {c} ensures Send(d, ev) in sends' {
      if d != c {
        assert Send(d, ev) in sends;
      } else {
        assert sends'[|sends|] == Send(c, ev);
      }
    }
  }

  /** A fan-out that writes to each target once writes each target's message exactly once. */
  lemma {:induction false} SendsOnceEachMultiplicity(sends: seq<Send>, targets: set<ConnId>, ev: Relayed, x: ConnId)
    requires SendsOnceEach(sends, targets, ev)
    ensures multiset(sends)[Send(x, ev)] == if x in targets then 1 else 0
  {
    if x !in targets {
      assert Send(x, ev) !in sends;
    } else {
      var i :| 0 <= i < |sends| && sends[i] == Send(x, ev);
      assert sends == sends[..i] + [sends[i]] + sends[i+1..];
      forall j | 0 <= j < |sends| && j != i ensures sends[j] != Send(x, ev) {
        if j < i { assert sends[j].to != sends[i].to; } else { assert sends[i].to != sends[j].to; }
      }
      var head, tail := sends[..i], sends[i+1..];
      assert Send(x, ev) !in head by {
        forall j | 0 <= j < |head| ensures head[j] != Send(x, ev) { assert head[j] == sends[j]; }
      }
      assert Send(x, ev) !in tail by {
        forall j | 0 <= j < |tail| ensures tail[j] != Send(x, ev) { assert tail[j] == sends[i + 1 + j]; }
      }
      assert multiset(sends) == multiset(head) + multiset{Send(x, ev)} + multiset(tail);
    }
  }

  /** The `for` loop of the delivery callback: write `ev` to each of `members` whose id is not `sender`. */
  method SendToOthers(members: set<ConnId>, sender: ConnId, ev: Relayed) returns (sends: seq<Send>)
    ensures SendsOnceEach(sends, members - {sender}, ev)
  {
    sends := [];
    var todo := members;
    ghost var sentTo: set<ConnId> := {};
    while todo != {}
      invariant todo <= members
      invariant sentTo == (members - todo) - {sender}
      invariant SendsOnceEach(sends, sentTo, ev)
      decreases |todo|
    {
      var user :| user in todo;
      if user != sender {
        SendsOnceEachExtend(sends, sentTo, ev, user);
        sends := sends + [Send(user, ev)];
        sentTo := sentTo + {user};
      }
      todo := todo - {user};
    }
  }

  /** The registry of one server process (the source keeps it as a process-wide singleton). */
  class WatchSessionManager {
    var sessions: map<SessionId, set<ConnId>>
    var playbackState: map<SessionId, Playback>
    /** The subscriber client's channels, one entry per `subscribe` call. */
    var subscriptions: multiset<SessionId>
    /** What the publisher client has published, in order. */
    var published: seq<Publication>

    ghost function State(): Registry
      reads this
    {
      Registry(sessions, playbackState, subscriptions, published)
    }

    ghost predicate Valid()
      reads this
    {
      Inv(State())
    }

    constructor ()
      ensures Valid() && State() == EmptyRegistry
    {
      sessions := map[];
      playbackState := map[];
      subscriptions := multiset{};
      published := [];
    }

    method AddUserToWatchSession(w: SessionId, c: ConnId)
      requires Valid()
      modifies this
      ensures Valid()
      ensures State() == AddUser(old(State()), w, c)
    {
      AddUserKeepsInv(State(), w, c);
      var members: set<ConnId>;
      if w in sessions {
        members := sessions[w];
      } else {
        members := {};
        SubscribeToRedis(w);
      }
      sessions := sessions[w := members + {c}];
    }

    /** Subscribe the session's channel; the bus then calls `OnBusMessage(w, _)` for each message on it. */
    method SubscribeToRedis(w: SessionId)
      modifies this`subscriptions
      ensures subscriptions == old(subscriptions) + multiset{w}
    {
      subscriptions := subscriptions + multiset{w};
    }

    /**
     * The delivery callback registered for channel `w`: relay the message to every member of `w`
     * except the one whose connection id is the sender's, once each; nothing if `w` has no entry.
     */
    method OnBusMessage(w: SessionId, m: BusMessage) returns (sends: seq<Send>)
      ensures SendsOnceEach(sends, Recipients(State(), w, m.senderId), Relayed(m.eventType, m.timestamp))
    {
      var ev := Relayed(m.eventType, m.timestamp);
      if w in sessions {
        sends := SendToOthers(sessions[w], m.senderId, ev);
      } else {
        sends := [];
      }
    }

    /**
     * What the bus does with one message on channel `w`: every `SubscribeToRedis(w)` call registered a
     * delivery callback of its own, and each of them runs, so the fan-out happens once per subscribe
     * call and every other member receives the event that many times.
     */
    method DeliverToListeners(w: SessionId, m: BusMessage) returns (sends: seq<Send>)
      ensures forall s :: s in sends ==> s.event == Relayed(m.eventType, m.timestamp)
      ensures forall x ::
                multiset(sends)[Send(x, Relayed(m.eventType, m.timestamp))] ==
                (if x in Recipients(State(), w, m.senderId) then subscriptions[w] else 0)
    {
      var ev := Relayed(m.eventType, m.timestamp);
      var targets := Recipients(State(), w, m.senderId);
      sends := [];
      var runs := 0;
      while runs < subscriptions[w]
        invariant runs <= subscriptions[w]
        invariant forall s :: s in sends ==> s.event == ev
        invariant forall x :: multiset(sends)[Send(x, ev)] == if x in targets then runs else 0
      {
        var more := OnBusMessage(w, m);
        forall x ensures multiset(sends + more)[Send(x, ev)] == if x in targets then runs + 1 else 0 {
          SendsOnceEachMultiplicity(more, targets, ev, x);
          assert multiset(sends + more) == multiset(sends) + multiset(more);
        }
        sends := sends + more;
        runs := runs + 1;
      }
    }

    method UnsubscribeFromSession(w: SessionId, c: ConnId)
      requires Valid()
      modifies this
      ensures Valid()
      ensures State() == Unsubscribe(old(State()), w, c)
    {
      UnsubscribeKeepsInv(State(), w, c);
      if w in sessions {
        var rest := sessions[w] - {c};
        if |rest| == 0 {
          sessions := sessions - {w};
          playbackState := playbackState - {w};
        } else {
          sessions := sessions[w := rest];
        }
      }
    }

    method PublishMessage(w: SessionId, m: BusMessage)
      requires Valid()
      modifies this
      ensures Valid()
      ensures State() == Publish(old(State()), w, m)
    {
      PublishKeepsInv(State(), w, m);
      published := published + [Publication(w, m)];
      if m.eventType == "play" || m.eventType == "pause" || m.eventType == "seek" {
        playbackState := playbackState[w := Playback(!(m.eventType == "pause"), m.timestamp)];
      }
    }

    method GetPlaybackState(w: SessionId) returns (p: Playback)
      ensures w in playbackState ==> p == playbackState[w]
      ensures w !in playbackState ==> p == Playback(false, 0)
    {
      if w in playbackState {
        p := playbackState[w];
      } else {
        p := Playback(false, 0);
      }
    }
  }
}
