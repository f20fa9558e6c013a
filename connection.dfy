/**
 * One WebSocket connection of the watch-session server: its identity and authorisation state, the
 * dispatch of the tagged messages it receives, and what each handler does to the registry.
 *
 * As for the registry, the connection's state is first a value (`Conn`) with one function per
 * handler; the class `User` holds it in mutable fields and each method is proved to follow the
 * function. The token verifier and the two database lookups are the partial maps of a `Directory`.
 */
module Connection {
  import opened Common
  import opened SessionRegistry

  type Token = string
  type UserId = string
  type GroupId = string

  /**
   * The collaborators a connection consults: the tokens that verify, each with the `userId` claim it
   * carries (absent when the token has none); the group of each watch session; and the role of each
   * (user, group) membership row.
   */
  datatype Directory = Directory(
    tokens: map<Token, Option<UserId>>,
    sessionGroup: map<SessionId, GroupId>,
    roles: map<(UserId, GroupId), string>)

  /** The state-sync message a connection sends to itself on joining: `{ type, timestamp }`. */
  datatype Sync = Sync(eventType: string, timestamp: int)

  /**
   * A connection: its transient id, the user id taken from the last verified join token, the group
   * and role found by the last membership check, whether the server has closed the socket, and the
   * messages the connection's own handlers have written to its socket.
   */
  datatype Conn = Conn(
    id: ConnId,
    dbUserId: Option<UserId>,
    groupId: Option<GroupId>,
    role: Option<string>,
    closed: bool,
    sent: seq<Sync>)

  /** The fields of an inbound message that the handlers read. */
  datatype Payload = Payload(watchSessionId: SessionId, token: Token, timestamp: int)

  /** An inbound socket message: text that does not parse, or a `type` tag with its payload. */
  datatype Inbound = Unparsable | Tagged(tag: string, payload: Payload)

  /** The membership row of `u` in group `g`, if there is one. */
  function RoleIn(dir: Directory, u: UserId, g: GroupId): Option<string>
  {
    if (u, g) in dir.roles then Some(dir.roles[(u, g)]) else None
  }

  /** The sync message for a cached playback state: `play` exactly when it is playing. */
  function SyncOf(p: Playback): (m: Sync)
    ensures m.eventType == "play" <==> p.isPlaying
    ensures m.eventType == "play" || m.eventType == "pause"
    ensures m.timestamp == p.timestamp
  {
    Sync(if p.isPlaying then "play" else "pause", p.timestamp)
  }

  /**
   * A join that the source admits: the token verifies, its `userId` claim is a non-empty id, the
   * session exists, and that user has a membership row in the session's group.
   */
  ghost predicate Admitted(dir: Directory, w: SessionId, token: Token)
  {
    && token in dir.tokens
    && Truthy(dir.tokens[token])
    && w in dir.sessionGroup
    && (dir.tokens[token].value, dir.sessionGroup[w]) in dir.roles
  }

  /**
   * `verifyGroupMember`: no session means `false` and nothing stored; otherwise the session's group
   * and the user's role there (absent for a non-member) are stored, and the answer is whether a
   * membership row exists.
   */
  function Verify(c: Conn, dir: Directory, w: SessionId, u: UserId): (res: (Conn, bool))
    ensures w !in dir.sessionGroup ==> res == (c, false)
    ensures w in dir.sessionGroup ==>
      && res.0 == c.(groupId := Some(dir.sessionGroup[w]), role := RoleIn(dir, u, dir.sessionGroup[w]))
      && (res.1 <==> (u, dir.sessionGroup[w]) in dir.roles)
  {
    if w !in dir.sessionGroup then (c, false)
    else
      var g := dir.sessionGroup[w];
      (c.(groupId := Some(g), role := RoleIn(dir, u, g)), (u, g) in dir.roles)
  }

  /**
   * `handleJoinSession`: fail closed. A token that does not verify, a token without a user id, a
   * missing session or a non-member closes the socket and leaves the registry alone; an admitted
   * join registers the connection and sends it exactly one sync message. The verified token's user
   * id is stored before the membership check and stays stored when the check fails.
   */
  function Join(c: Conn, r: Registry, dir: Directory, w: SessionId, token: Token): (res: (Conn, Registry))
    ensures res.0.id == c.id
    ensures res.0.dbUserId == if token in dir.tokens then dir.tokens[token] else c.dbUserId
    ensures Admitted(dir, w, token) ==>
      && res.1 == AddUser(r, w, c.id)
      && res.0.sent == c.sent + [SyncOf(PlaybackOf(r, w))]
      && res.0.closed == c.closed
      && res.0.groupId == Some(dir.sessionGroup[w])
      && res.0.role == Some(dir.roles[(dir.tokens[token].value, dir.sessionGroup[w])])
    ensures !Admitted(dir, w, token) ==> res.1 == r && res.0.closed && res.0.sent == c.sent
  {
    if token !in dir.tokens then (c.(closed := true), r)
    else
      var c1 := c.(dbUserId := dir.tokens[token]);
      if !Truthy(c1.dbUserId) then (c1.(closed := true), r)
      else
        var (c2, ok) := Verify(c1, dir, w, c1.dbUserId.value);
        if !ok then (c2.(closed := true), r)
        else
          var r1 := AddUser(r, w, c.id);
          (c2.(sent := c2.sent + [SyncOf(PlaybackOf(r1, w))]), r1)
  }

  /**
   * `handleLeaveSession`: the connection leaves `w` only when the token verifies and its user id
   * claim equals the stored one; the connection's own fields, its role included, never change.
   */
  function Leave(c: Conn, r: Registry, dir: Directory, w: SessionId, token: Token): (res: (Conn, Registry))
    ensures res.0 == c
    ensures token !in dir.tokens || dir.tokens[token] != c.dbUserId ==> res.1 == r
    ensures token in dir.tokens && dir.tokens[token] == c.dbUserId ==> res.1 == Unsubscribe(r, w, c.id)
  {
    if token in dir.tokens && dir.tokens[token] == c.dbUserId then (c, Unsubscribe(r, w, c.id)) else (c, r)
  }

  /**
   * `handlePlay`, `handlePause`, `handleSeek`: only a connection whose stored role is exactly
   * `ADMIN` publishes, with its transient id as sender; whether it ever joined `w` is not checked.
   */
  function Control(c: Conn, r: Registry, w: SessionId, eventType: string, timestamp: int): (r': Registry)
    ensures c.role == Some(ADMIN) ==> r' == Publish(r, w, BusMessage(eventType, timestamp, c.id))
    ensures c.role != Some(ADMIN) ==> r' == r
  {
    if c.role == Some(ADMIN) then Publish(r, w, BusMessage(eventType, timestamp, c.id)) else r
  }

  /**
   * The `close` listener: when a user id is stored, unsubscribe from the session whose key is that
   * user id (not the session that was joined); otherwise nothing.
   */
  function Close(c: Conn, r: Registry): (r': Registry)
    ensures Truthy(c.dbUserId) ==> r' == Unsubscribe(r, c.dbUserId.value, c.id)
    ensures !Truthy(c.dbUserId) ==> r' == r
  {
    if Truthy(c.dbUserId) then Unsubscribe(r, c.dbUserId.value, c.id) else r
  }

  /** The tags the `message` listener dispatches. */
  predicate IsControlTag(tag: string)
  {
    tag == "play" || tag == "pause" || tag == "seek"
  }

  predicate IsKnownTag(tag: string)
  {
    tag == "join_session" || tag == "leave_session" || IsControlTag(tag)
  }

  /**
   * The `message` listener: a message that does not parse, or whose tag is not one of the five,
   * changes nothing; membership changes only through `join_session` and `leave_session`, and the
   * bus sees a message only from a `play`, `pause` or `seek` of a connection whose role is `ADMIN`.
   */
  function Dispatch(c: Conn, r: Registry, dir: Directory, msg: Inbound): (res: (Conn, Registry))
    ensures msg.Unparsable? || !IsKnownTag(msg.tag) ==> res == (c, r)
    ensures msg.Tagged? && msg.tag == "join_session" ==>
      res == Join(c, r, dir, msg.payload.watchSessionId, msg.payload.token)
    ensures msg.Tagged? && msg.tag == "leave_session" ==>
      res == Leave(c, r, dir, msg.payload.watchSessionId, msg.payload.token)
    ensures msg.Tagged? && IsControlTag(msg.tag) ==>
      res == (c, Control(c, r, msg.payload.watchSessionId, msg.tag, msg.payload.timestamp))
    ensures res.1.sessions != r.sessions ==> msg.Tagged? && (msg.tag == "join_session" || msg.tag == "leave_session")
    ensures res.1.published != r.published ==> msg.Tagged? && IsControlTag(msg.tag) && c.role == Some(ADMIN)
  {
    match msg
    case Unparsable => (c, r)
    case Tagged(tag, p) =>
      if tag == "join_session" then Join(c, r, dir, p.watchSessionId, p.token)
      else if tag == "leave_session" then Leave(c, r, dir, p.watchSessionId, p.token)
      else if tag == "play" then (c, Control(c, r, p.watchSessionId, "play", p.timestamp))
      else if tag == "pause" then (c, Control(c, r, p.watchSessionId, "pause", p.timestamp))
      else if tag == "seek" then (c, Control(c, r, p.watchSessionId, "seek", p.timestamp))
      else (c, r)
  }

  /** A connection object, given the registry it registers with (the source's singleton, passed in). */
  class User {
    const id: ConnId
    const manager: WatchSessionManager
    var dbUserId: Option<UserId>
    var groupId: Option<GroupId>
    var role: Option<string>
    var closed: bool
    var sent: seq<Sync>

    ghost function Snapshot(): Conn
      reads this
    {
      Conn(id, dbUserId, groupId, role, closed, sent)
    }

    constructor (id: ConnId, manager: WatchSessionManager)
      ensures Snapshot() == Conn(id, None, None, None, false, [])
      ensures this.manager == manager
    {
      this.id := id;
      this.manager := manager;
      dbUserId, groupId, role := None, None, None;
      closed := false;
      sent := [];
    }

    /** `ws.send` on this connection's socket. */
    method Send(m: Sync)
      modifies this`sent
      ensures sent == old(sent) + [m]
    {
      sent := sent + [m];
    }

    method VerifyGroupMember(dir: Directory, w: SessionId, u: UserId) returns (ok: bool)
      modifies this`groupId, this`role
      ensures (Snapshot(), ok) == Verify(old(Snapshot()), dir, w, u)
    {
      if w !in dir.sessionGroup {
        return false;
      }
      var g := dir.sessionGroup[w];
      groupId := Some(g);
      role := if (u, g) in dir.roles then Some(dir.roles[(u, g)]) else None;
      ok := (u, g) in dir.roles;
    }

    method HandleJoinSession(dir: Directory, w: SessionId, token: Token)
      requires manager.Valid()
      modifies this, manager
      ensures manager.Valid()
      ensures (Snapshot(), manager.State()) == Join(old(Snapshot()), old(manager.State()), dir, w, token)
    {
      if token !in dir.tokens {
        closed := true;
        return;
      }
      dbUserId := dir.tokens[token];
      if !Truthy(dbUserId) {
        closed := true;
        return;
      }
      var ok := VerifyGroupMember(dir, w, dbUserId.value);
      if !ok {
        closed := true;
        return;
      }
      manager.AddUserToWatchSession(w, id);
      var p := manager.GetPlaybackState(w);
      Send(Sync(if p.isPlaying then "play" else "pause", p.timestamp));
    }

    method HandleLeaveSession(dir: Directory, w: SessionId, token: Token)
      requires manager.Valid()
      modifies manager
      ensures manager.Valid()
      ensures (Snapshot(), manager.State()) == Leave(Snapshot(), old(manager.State()), dir, w, token)
    {
      if token in dir.tokens && dir.tokens[token] == dbUserId {
        manager.UnsubscribeFromSession(w, id);
      }
    }

    method HandlePlay(w: SessionId, timestamp: int)
      requires manager.Valid()
      modifies manager
      ensures manager.Valid()
      ensures manager.State() == Control(Snapshot(), old(manager.State()), w, "play", timestamp)
    {
      if role != Some(ADMIN) {
        return;
      }
      BroadcastToSession(w, "play", timestamp);
    }

    method HandlePause(w: SessionId, timestamp: int)
      requires manager.Valid()
      modifies manager
      ensures manager.Valid()
      ensures manager.State() == Control(Snapshot(), old(manager.State()), w, "pause", timestamp)
    {
      if role != Some(ADMIN) {
        return;
      }
      BroadcastToSession(w, "pause", timestamp);
    }

    method HandleSeek(w: SessionId, timestamp: int)
      requires manager.Valid()
      modifies manager
      ensures manager.Valid()
      ensures manager.State() == Control(Snapshot(), old(manager.State()), w, "seek", timestamp)
    {
      if role != Some(ADMIN) {
        return;
      }
      BroadcastToSession(w, "seek", timestamp);
    }

    /** Publish an event for `w` whose sender is this connection's transient id, not its user id. */
    method BroadcastToSession(w: SessionId, eventType: string, timestamp: int)
      requires manager.Valid()
      modifies manager
      ensures manager.Valid()
      ensures manager.State() == Publish(old(manager.State()), w, BusMessage(eventType, timestamp, id))
    {
      manager.PublishMessage(w, BusMessage(eventType, timestamp, id));
    }

    /** The `message` listener. */
    method OnMessage(dir: Directory, msg: Inbound)
      requires manager.Valid()
      modifies this, manager
      ensures manager.Valid()
      ensures (Snapshot(), manager.State()) == Dispatch(old(Snapshot()), old(manager.State()), dir, msg)
    {
      match msg
      case Unparsable =>
      case Tagged(tag, p) =>
        if tag == "join_session" {
          HandleJoinSession(dir, p.watchSessionId, p.token);
        } else if tag == "leave_session" {
          HandleLeaveSession(dir, p.watchSessionId, p.token);
        } else if tag == "play" {
          HandlePlay(p.watchSessionId, p.timestamp);
        } else if tag == "pause" {
          HandlePause(p.watchSessionId, p.timestamp);
        } else if tag == "seek" {
          HandleSeek(p.watchSessionId, p.timestamp);
        }
    }

    /** The `close` listener. */
    method OnClose()
      requires manager.Valid()
      modifies manager
      ensures manager.Valid()
      ensures manager.State() == Close(Snapshot(), old(manager.State()))
    {
      if dbUserId.Some? && dbUserId.value != "" {
        manager.UnsubscribeFromSession(dbUserId.value, id);
      }
    }
  }
}
