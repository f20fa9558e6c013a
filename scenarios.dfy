/**
 * Clients of the watch-session classes: whole runs of several connections against one registry,
 * proved from the classes' contracts alone. The first two are a relay-and-late-join run and an
 * emptied-session run; the others pin down behaviours of the code a reader might not expect.
 */
module Scenarios {
  import opened Common
  import opened SessionRegistry
  import opened SessionProperties
  import opened Connection

  /** Three users of group `g1`, which owns session `s1`: `ua` is an `ADMIN`, `ub` and `uc` are members. */
  function RoomDirectory(): Directory
  {
    Directory(
      map["ta" := Some("ua"), "tb" := Some("ub"), "tc" := Some("uc")],
      map["s1" := "g1"],
      map[("ua", "g1") := ADMIN, ("ub", "g1") := MEMBER, ("uc", "g1") := MEMBER])
  }

  function JoinMsg(w: SessionId, token: Token): Inbound
  {
    Tagged("join_session", Payload(w, token, 0))
  }

  function LeaveMsg(w: SessionId, token: Token): Inbound
  {
    Tagged("leave_session", Payload(w, token, 0))
  }

  function ControlMsg(tag: string, w: SessionId, timestamp: int): Inbound
  {
    Tagged(tag, Payload(w, "", timestamp))
  }

  /** Which joins the room directory admits. */
  lemma RoomAdmissions()
    ensures Admitted(RoomDirectory(), "s1", "ta")
    ensures Admitted(RoomDirectory(), "s1", "tb")
    ensures Admitted(RoomDirectory(), "s1", "tc")
    ensures RoomDirectory().roles[("ua", "g1")] == ADMIN
    ensures RoomDirectory().roles[("ub", "g1")] == MEMBER
    ensures RoomDirectory().tokens["ta"] == Some("ua")
  {
  }

  /** Joining the one session of a registry that holds only that session. */
  lemma JoinOnlySession(r: Registry, w: SessionId, members: set<ConnId>, c: ConnId)
    requires r.sessions == map[w := members]
    ensures AddUser(r, w, c).sessions == map[w := members + {c}]
  {
    assert w in r.sessions;
  }

  /** A fresh registry in which connection `a`, holding token `ta`, has joined `s1` as `ADMIN`. */
  method AdminInRoom() returns (m: WatchSessionManager, a: User)
    ensures fresh(m) && fresh(a) && m.Valid() && a.manager == m
    ensures a.Snapshot() == Conn("a", Some("ua"), Some("g1"), Some(ADMIN), false, [Sync("pause", 0)])
    ensures m.State() == Registry(map["s1" := {"a"}], map[], multiset{"s1"}, [])
  {
    var dir := RoomDirectory();
    RoomAdmissions();
    m := new WatchSessionManager();
    a := new User("a", m);
    a.HandleJoinSession(dir, "s1", "ta");
  }

  /** On top of `AdminInRoom`, connection `b`, holding token `tb`, has joined `s1` as `MEMBER`. */
  method AdminAndMemberInRoom() returns (m: WatchSessionManager, a: User, b: User)
    ensures fresh(m) && fresh(a) && fresh(b) && m.Valid() && a.manager == m && b.manager == m
    ensures a.Snapshot() == Conn("a", Some("ua"), Some("g1"), Some(ADMIN), false, [Sync("pause", 0)])
    ensures b.Snapshot() == Conn("b", Some("ub"), Some("g1"), Some(MEMBER), false, [Sync("pause", 0)])
    ensures m.State() == Registry(map["s1" := {"a", "b"}], map[], multiset{"s1"}, [])
  {
    m, a := AdminInRoom();
    b := new User("b", m);
    ghost var before := m.State();
    JoinOnlySession(before, "s1", {"a"}, "b");
    RoomAdmissions();
    b.HandleJoinSession(RoomDirectory(), "s1", "tb");
    assert m.State() == AddUser(before, "s1", "b");
    assert {"a"} + {"b"} == {"a", "b"};
  }

  /**
   * Connection `a` (ADMIN) and `b` (MEMBER) join `s1`; `a` pauses at 120; `b` receives exactly that
   * pause and `a` nothing; a late-joining `c` is synchronised to pause at 120.
   */
  method PauseIsRelayedAndCached() returns (relayed: seq<Send>, lateSync: seq<Sync>)
    ensures relayed == [Send("b", Relayed("pause", 120))]
    ensures lateSync == [Sync("pause", 120)]
  {
    var m, a, b := AdminAndMemberInRoom();
    a.HandlePause("s1", 120);
    assert m.State() == Registry(map["s1" := {"a", "b"}], map["s1" := Playback(false, 120)],
                                 multiset{"s1"}, [Publication("s1", BusMessage("pause", 120, "a"))]);
    relayed := m.OnBusMessage("s1", BusMessage("pause", 120, "a"));
    assert Recipients(m.State(), "s1", "a") == {"b"};
    SendsOnceEachCount(relayed, {"b"}, Relayed("pause", 120));
    assert relayed[0] in relayed;
    var c := new User("c", m);
    RoomAdmissions();
    c.HandleJoinSession(RoomDirectory(), "s1", "tc");
    assert c.sent == [SyncOf(Playback(false, 120))];
    lateSync := c.sent;
  }

  /**
   * When the last member leaves, the registry forgets the session's state: a member joining
   * afterwards is synchronised to pause at 0, not to the earlier play at 30.
   */
  method EmptiedSessionStartsAfresh() returns (sync: seq<Sync>, inRegistry: bool)
    ensures sync == [Sync("pause", 0)]
    ensures inRegistry
  {
    var m, a := AdminInRoom();
    a.HandlePlay("s1", 30);
    assert m.playbackState == map["s1" := Playback(true, 30)];
    RoomAdmissions();
    a.HandleLeaveSession(RoomDirectory(), "s1", "ta");
    assert "s1" !in m.sessions && "s1" !in m.playbackState;
    var b := new User("b", m);
    b.HandleJoinSession(RoomDirectory(), "s1", "tb");
    sync := b.sent;
    inRegistry := "s1" in m.sessions && "b" in m.sessions["s1"];
  }

  /**
   * Through the `message` listener: after a `MEMBER` joins, its `play` is dropped and an unknown tag
   * is ignored, so nothing is published and the session holds only that connection.
   */
  method MemberMessagesAreDropped() returns (published: nat, registered: set<ConnId>)
    ensures published == 0
    ensures registered == {"b"}
  {
    var dir := RoomDirectory();
    RoomAdmissions();
    var m := new WatchSessionManager();
    var b := new User("b", m);
    b.OnMessage(dir, JoinMsg("s1", "tb"));
    assert b.role == Some(MEMBER) && m.sessions == map["s1" := {"b"}] && m.published == [];
    b.OnMessage(dir, ControlMsg("play", "s1", 10));
    b.OnMessage(dir, Tagged("kick", Payload("s1", "tb", 0)));
    published := |m.published|;
    registered := m.sessions["s1"];
  }

  /**
   * Through the `message` listener: a join with an unknown token, or with the verified token of a
   * user outside the session's group, closes the socket without registering it; the outsider's user
   * id stays stored even so.
   */
  method RejectedJoinsAreClosed()
    returns (badTokenClosed: bool, outsiderClosed: bool, outsiderUser: Option<UserId>, sessions: map<SessionId, set<ConnId>>)
    ensures badTokenClosed && outsiderClosed
    ensures outsiderUser == Some("uz")
    ensures sessions == map[]
  {
    var dir := RoomDirectory().(tokens := RoomDirectory().tokens["tz" := Some("uz")]);
    assert !Admitted(dir, "s1", "forged") && !Admitted(dir, "s1", "tz");
    var m := new WatchSessionManager();
    var x := new User("x", m);
    var z := new User("z", m);
    x.OnMessage(dir, JoinMsg("s1", "forged"));
    z.OnMessage(dir, JoinMsg("s1", "tz"));
    badTokenClosed := x.closed;
    outsiderClosed := z.closed;
    outsiderUser := z.dbUserId;
    sessions := m.sessions;
  }

  /**
   * A leave carrying another member's token does not evict the connection.
   */
  method ForgedLeaveIsIgnored() returns (members: set<ConnId>)
    ensures members == {"a", "b"}
  {
    var m, a, b := AdminAndMemberInRoom();
    RoomAdmissions();
    b.OnMessage(RoomDirectory(), LeaveMsg("s1", "ta"));
    members := m.sessions["s1"];
  }

  /**
   * An `ADMIN` that has left keeps its role and may still publish to the session; the state it writes
   * outlives the session's members, and the next member to join is synchronised to it.
   */
  method LeftAdminLeavesStaleState() returns (sync: seq<Sync>, orphaned: bool)
    ensures orphaned
    ensures sync == [Sync("play", 50)]
  {
    var m, a := AdminInRoom();
    RoomAdmissions();
    a.HandleLeaveSession(RoomDirectory(), "s1", "ta");
    assert m.sessions == map[] && a.role == Some(ADMIN);
    a.HandlePlay("s1", 50);
    orphaned := "s1" !in m.sessions && "s1" in m.playbackState;
    assert m.playbackState["s1"] == Playback(true, 50);
    var b := new User("b", m);
    b.HandleJoinSession(RoomDirectory(), "s1", "tb");
    sync := b.sent;
  }

  /**
   * Closing the socket unsubscribes from the session keyed by the user id, so the closed connection
   * is still a member of the session it joined.
   */
  method CloseKeepsMembership() returns (members: set<ConnId>)
    ensures members == {"a"}
  {
    var m, a := AdminInRoom();
    a.OnClose();
    members := m.sessions["s1"];
  }

  /** Emptying a session and joining it again subscribes its channel on the bus a second time. */
  method RejoinSubscribesTwice() returns (subscribeCalls: nat)
    ensures subscribeCalls == 2
  {
    var m, a := AdminInRoom();
    RoomAdmissions();
    a.HandleLeaveSession(RoomDirectory(), "s1", "ta");
    assert m.sessions == map[] && m.subscriptions == multiset{"s1"};
    var b := new User("b", m);
    b.HandleJoinSession(RoomDirectory(), "s1", "tb");
    subscribeCalls := m.subscriptions["s1"];
  }

  /** `a` empties `s1` and joins it again; the channel is now subscribed twice. */
  method AdminRejoined() returns (m: WatchSessionManager, a: User)
    ensures fresh(m) && fresh(a) && m.Valid() && a.manager == m && a.id == "a" && a.role == Some(ADMIN)
    ensures m.State() == Registry(map["s1" := {"a"}], map[], multiset{"s1", "s1"}, [])
  {
    m, a := AdminInRoom();
    RoomAdmissions();
    a.HandleLeaveSession(RoomDirectory(), "s1", "ta");
    assert m.State() == Registry(map[], map[], multiset{"s1"}, []);
    a.HandleJoinSession(RoomDirectory(), "s1", "ta");
  }

  /** On top of `AdminRejoined`, `b` joins `s1`. */
  method RejoinedRoom() returns (m: WatchSessionManager, a: User)
    ensures fresh(m) && fresh(a) && m.Valid() && a.manager == m && a.id == "a" && a.role == Some(ADMIN)
    ensures m.State() == Registry(map["s1" := {"a", "b"}], map[], multiset{"s1", "s1"}, [])
  {
    m, a := AdminRejoined();
    var b := new User("b", m);
    ghost var before := m.State();
    JoinOnlySession(before, "s1", {"a"}, "b");
    RoomAdmissions();
    b.HandleJoinSession(RoomDirectory(), "s1", "tb");
    assert m.State() == AddUser(before, "s1", "b");
    assert {"a"} + {"b"} == {"a", "b"};
  }

  /**
   * After `a` empties `s1` and joins it again, the channel has two delivery callbacks, so a pause
   * of `a` reaches the other member `b` twice and `a` not at all.
   */
  method RejoinedSessionRelaysTwice() returns (toB: nat, toA: nat)
    ensures toB == 2 && toA == 0
  {
    var m, a := RejoinedRoom();
    a.HandlePause("s1", 120);
    assert m.sessions == map["s1" := {"a", "b"}] && m.subscriptions["s1"] == 2;
    var sends := m.DeliverToListeners("s1", BusMessage("pause", 120, "a"));
    assert Recipients(m.State(), "s1", "a") == {"b"};
    toB := multiset(sends)[Send("b", Relayed("pause", 120))];
    toA := multiset(sends)[Send("a", Relayed("pause", 120))];
  }
}
