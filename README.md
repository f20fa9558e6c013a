# Watch-session synchroniser and group controllers, in Dafny

This project models two parts of a video platform's backend in Dafny and proves properties of both.

**The WebSocket watch-session server.**
- Connections join a group's watch session. An `ADMIN` of that group publishes `play`, `pause` and `seek` events.
- A registry relays those events through a publish/subscribe bus to every other connection in the session.
- The registry also caches the last playback state, so that a late joiner starts in sync.

**The HTTP controllers that keep the persistent relations:**
- groups and their role-carrying membership rows;
- likes, with a per-video `likeCount`;
- playlists, with ordered entries;
- subscriptions between users.

Modules:

- `Common`, `Http` (`common.dfy`): an `Option`, the role strings `OWNER`/`ADMIN`/`MEMBER`, and JavaScript truthiness of an id.
  - An HTTP reply is a status plus a body.
  - The body is a JSON value, `{ message }`, `{ error }` or no body.
  - A thrown database call becomes the 500 reply of the handler's `catch`.
- `SessionRegistry` (`session_registry.dfy`): the `WatchSessionManager`.
  - The registry is first a value `Registry` with one function per operation. The value holds:
    - the member sets of the sessions;
    - the playback cache;
    - the bus subscriptions, one entry per subscribe call;
    - the log of published messages.
  - The class `WatchSessionManager` holds the same state in fields. Each of its methods ensures `State() == F(old(State()))` for its function `F`.
  - The bus delivery callback is the read-only method `OnBusMessage`. It loops over a member set and returns the sends it issues.
- `SessionProperties` (`session_properties.dfy`): lemmas relating registry operations.
- `Connection` (`connection.dfy`): one connection (`User`).
  - It is first a value `Conn` with a function for each handler.
  - The class `User` holds it in fields. The class has the `message` and `close` listeners and each handler, each proved to follow its function.
  - The token verifier and the two database lookups are the partial maps of a `Directory`.
- `ConnectionProperties` (`connection_properties.dfy`): lemmas over joins, leaves, control events and closes.
- `Scenarios` (`scenarios.dfy`): whole runs of several `User` objects against one `WatchSessionManager`, proved from the class contracts.
- `Groups`, `Likes`, `Playlists`, `Subscriptions`: one class per controller.
  - The tables are fields (maps and sets).
  - Each handler is a method whose postconditions give the reply and the new tables for every branch of its permission decision.
  - The invariants the tables keep are stated as `Valid()` and as separate predicates.

## Behaviour of the source that the model keeps

These behaviours of the code are kept as written; each is stated and proved:

- Only a role of exactly `ADMIN` may publish `play`, `pause` or `seek`; `OWNER` may not.
  - See `ConnectionProperties.NonAdminControlIsSilent`.
- The `close` listener unsubscribes from the session whose key is the stored user id, not from the session that was joined.
  - So a closed connection stays a member of its session.
  - See `ConnectionProperties.CloseDoesNotLeaveJoinedSession` and `Scenarios.CloseKeepsMembership`.
- Leaving does not clear the cached role, so an `ADMIN` who has left can still publish to the session.
  - The state it writes is cached for a session with no members, and the next joiner is synchronised to it.
  - See `SessionProperties.PublishWithoutMembersLeavesStaleState` and `Scenarios.LeftAdminLeavesStaleState`.
- A failed membership check closes the socket but keeps the verified user id.
  - See `Connection.Join` (its `dbUserId` postcondition) and `Scenarios.RejectedJoinsAreClosed`.
- A `MEMBER`'s `play` and a message with an unknown tag are dropped.
  - See `Scenarios.MemberMessagesAreDropped`.
- A join never removes the connection from the other sessions it is in, so one connection can be a member of several sessions at once; with the `close` behaviour above, it then stays in all of them.
  - See `SessionProperties.JoinKeepsOtherMemberships`.
- Emptying a session and re-creating it subscribes its bus channel again; nothing ever unsubscribes from the bus.
  - See `SessionProperties.RejoinSubscribesAgain` and `Scenarios.RejoinSubscribesTwice`.
  - Each subscribe call registers a delivery callback of its own, so after a re-creation every other member receives each event once per subscribe call.
  - See `SessionRegistry.WatchSessionManager.DeliverToListeners` and `Scenarios.RejoinedSessionRelaysTwice`.
- `updateMemberRole` does not check the requested role, so it can create a second `OWNER`, which can then be neither removed nor re-roled.
  - See `Groups.SecondOwnerScenario`.
- `getPlaylist` does not return after its 404 and goes on to write the (null) playlist.
  - See `Playlists.PlaylistTable.GetPlaylist`.
- Playlist positions are never renumbered, so an add after a removal can reuse a position that another entry still holds.
  - See `Playlists.AppendCollision`, `Playlists.RemoveThenAddCollides` and `Playlists.RemoveThenAddRepeatsPosition`.

## Model

| member | source | states |
|---|---|---|
| SessionRegistry.AddUser | apps/ws-server/src/WatchSessionManager.ts:27-35 | Adding a connection creates the session's entry when missing, adds the connection, and subscribes the channel once, only when the entry is new; the cache and other sessions are untouched |
| SessionRegistry.Unsubscribe | apps/ws-server/src/WatchSessionManager.ts:58-69 | Removes the connection from the session; a session that becomes empty loses both its entry and its cached state; an absent session is a no-op; other sessions are untouched |
| SessionRegistry.Publish | apps/ws-server/src/WatchSessionManager.ts:71-76 | Every message is appended to the bus log; `play`/`seek` cache playing at the timestamp, `pause` caches paused, any other type leaves the cache alone |
| SessionRegistry.SendToOthers | apps/ws-server/src/WatchSessionManager.ts:48-54 | The loop over a member set writes the event to every member other than the sender, once each, and to nobody else |
| SessionRegistry.AddUserKeepsInv | apps/ws-server/src/WatchSessionManager.ts:27-35 | Adding a connection keeps every session entry non-empty and subscribed on the bus |
| SessionRegistry.UnsubscribeKeepsInv | apps/ws-server/src/WatchSessionManager.ts:58-69 | Removing a connection keeps the invariant, because an emptied entry is deleted |
| SessionRegistry.PublishKeepsInv | apps/ws-server/src/WatchSessionManager.ts:71-76 | Publishing keeps the invariant, because it touches only the cache and the bus log |
| SessionRegistry.WatchSessionManager.AddUserToWatchSession | apps/ws-server/src/WatchSessionManager.ts:27-35 | Moves the registry as `AddUser` says and keeps its invariant (no empty entry, every entry subscribed) |
| SessionRegistry.WatchSessionManager.SubscribeToRedis | apps/ws-server/src/WatchSessionManager.ts:37-38 | Records one more subscribe call for the channel |
| SessionRegistry.WatchSessionManager.OnBusMessage | apps/ws-server/src/WatchSessionManager.ts:38-55 | One run of the delivery callback sends `{type, payload: timestamp}` exactly once to each member of the channel's session except the sender |
| SessionRegistry.SendsOnceEachMultiplicity | apps/ws-server/src/WatchSessionManager.ts:48-54 | One run writes each recipient's message exactly once and nobody else's |
| SessionRegistry.WatchSessionManager.DeliverToListeners | apps/ws-server/src/WatchSessionManager.ts:37-55 | One bus message runs every callback registered by a subscribe call for the channel, so each member other than the sender receives the event as many times as the channel was subscribed, and nobody else receives it |
| SessionRegistry.WatchSessionManager.UnsubscribeFromSession | apps/ws-server/src/WatchSessionManager.ts:58-69 | Moves the registry as `Unsubscribe` says and keeps the invariant |
| SessionRegistry.WatchSessionManager.PublishMessage | apps/ws-server/src/WatchSessionManager.ts:71-76 | Moves the registry as `Publish` says and keeps the invariant |
| SessionRegistry.WatchSessionManager.GetPlaybackState | apps/ws-server/src/WatchSessionManager.ts:78-80 | The cached state of the session, or paused at 0 when none is cached |
| SessionProperties.AddUserIdempotent | apps/ws-server/src/WatchSessionManager.ts:27-35 | Joining twice with the same connection is joining once |
| SessionProperties.AddUserSubscribesOnFirstJoinOnly | apps/ws-server/src/WatchSessionManager.ts:28-31 | Only the join that creates a session's entry subscribes its channel |
| SessionProperties.JoinThenLeaveRestoresSessions | apps/ws-server/src/WatchSessionManager.ts:27-69 | A first join followed by its leave restores the member sets, drops the session's cached state and leaves the subscription in place |
| SessionProperties.RejoinSubscribesAgain | apps/ws-server/src/WatchSessionManager.ts:28-66 | Re-creating an emptied session subscribes the channel a second time |
| SessionProperties.JoinKeepsOtherMemberships | apps/ws-server/src/WatchSessionManager.ts:27-35 | A join keeps the connection in every other session it is in, so it can belong to several sessions at once |
| SessionProperties.SubscriptionsNeverShrink | apps/ws-server/src/WatchSessionManager.ts:37-76 | No registry operation removes a bus subscription |
| SessionProperties.PublishThenRead | apps/ws-server/src/WatchSessionManager.ts:71-80 | After a publish, the read-back state of that session is the one the event type decides; other sessions read as before |
| SessionProperties.NoOrphanStateKept | apps/ws-server/src/WatchSessionManager.ts:27-76 | Join and leave keep "cached state only for sessions with members"; a playback publish keeps it exactly when the session has members |
| SessionProperties.PublishWithoutMembersLeavesStaleState | apps/ws-server/src/WatchSessionManager.ts:71-80 | A publish to a session with no members caches state, and the next joiner reads it |
| SessionProperties.LastLeaveDiscardsState | apps/ws-server/src/WatchSessionManager.ts:63-80 | After the last member leaves, the next joiner reads the default state |
| SessionProperties.SendsOnceEachCount | apps/ws-server/src/WatchSessionManager.ts:48-54 | The number of sends of a delivery equals the number of its recipients |
| SessionProperties.DeliveryCount | apps/ws-server/src/WatchSessionManager.ts:40-54 | One delivery writes as many messages as there are other members, none to the sender, and none for a session without an entry |
| Connection.SyncOf | apps/ws-server/src/User.ts:102-106 | The join sync is `play` exactly when the cached state is playing, with its timestamp |
| Connection.Verify | apps/ws-server/src/User.ts:25-49 | No session answers false and stores nothing; otherwise the session's group and the user's role there are stored, and the answer is whether a membership row exists |
| Connection.Join | apps/ws-server/src/User.ts:87-114 | Fails closed: an unverifiable token, an empty user id, a missing session or a non-member closes the socket and changes no registry state; an admitted join registers the connection, stores group and role, and sends exactly one sync; the verified user id is stored either way |
| Connection.Leave | apps/ws-server/src/User.ts:116-129 | Unsubscribes only when the token verifies to the stored user id; the connection's fields never change |
| Connection.Control | apps/ws-server/src/User.ts:131-169 | Publishes exactly when the role is `ADMIN`, with the connection id as sender |
| Connection.Close | apps/ws-server/src/User.ts:79-84 | With a stored user id, unsubscribes from the session keyed by that id; otherwise nothing |
| Connection.Dispatch | apps/ws-server/src/User.ts:52-77 | Unparsable or unknown messages change nothing; only join and leave change membership; only an `ADMIN`'s control tag reaches the bus |
| Connection.User.VerifyGroupMember | apps/ws-server/src/User.ts:25-49 | Updates the connection's fields and answers as `Verify` says |
| Connection.User.HandleJoinSession | apps/ws-server/src/User.ts:87-114 | Moves connection and registry as `Join` says, keeping the registry invariant |
| Connection.User.HandleLeaveSession | apps/ws-server/src/User.ts:116-129 | Moves the registry as `Leave` says |
| Connection.User.HandlePlay | apps/ws-server/src/User.ts:131-140 | Publishes `play` as `Control` says |
| Connection.User.HandlePause | apps/ws-server/src/User.ts:142-151 | Publishes `pause` as `Control` says |
| Connection.User.HandleSeek | apps/ws-server/src/User.ts:152-161 | Publishes `seek` as `Control` says |
| Connection.User.BroadcastToSession | apps/ws-server/src/User.ts:163-169 | Publishes the event with the connection's transient id as sender |
| Connection.User.OnMessage | apps/ws-server/src/User.ts:52-77 | The `message` listener moves connection and registry as `Dispatch` says |
| Connection.User.OnClose | apps/ws-server/src/User.ts:79-84 | The `close` listener moves the registry as `Close` says |
| ConnectionProperties.FailedJoinRegistersNothing | apps/ws-server/src/User.ts:92-98 | A join that is not admitted closes the socket, changes no member set and no subscription, and grants no role: the role stays or is cleared |
| ConnectionProperties.NeverAdmittedNeverPublishes | apps/ws-server/src/User.ts:52-169 | A connection without a role that receives any run of messages with no admitted join keeps no role and publishes nothing |
| ConnectionProperties.AdmittedJoinSyncsOnce | apps/ws-server/src/User.ts:100-106 | An admitted join makes the connection a member and appends one sync: the cached state, or paused at 0 |
| ConnectionProperties.NonAdminControlIsSilent | apps/ws-server/src/User.ts:131-161 | A control tag from any role other than `ADMIN` (`OWNER` included) changes nothing |
| ConnectionProperties.AdminEventReachesEveryOtherMember | apps/ws-server/src/User.ts:163-169 | An `ADMIN` event is published with the connection id as sender, and one run of its delivery callback reaches every other member once and never the sender |
| ConnectionProperties.ForgedLeaveChangesNothing | apps/ws-server/src/User.ts:121-125 | A leave whose token names another user changes nothing |
| ConnectionProperties.AdminAfterLeaveStillPublishes | apps/ws-server/src/User.ts:116-140 | Leaving keeps the role, so a left `ADMIN`'s `play` is still published |
| ConnectionProperties.CloseDoesNotLeaveJoinedSession | apps/ws-server/src/User.ts:79-84 | A closed connection stays a member of any session whose id is not its user id |
| ConnectionProperties.UnsubscribeIdempotent | apps/ws-server/src/WatchSessionManager.ts:58-69 | Removing a connection twice is removing it once |
| ConnectionProperties.CloseTwiceIsCloseOnce | apps/ws-server/src/User.ts:79-84 | A repeated close does nothing more |
| Scenarios.PauseIsRelayedAndCached | apps/ws-server/src/User.ts:87-169 | Two members join and the `ADMIN` pauses at 120; the other member alone receives that pause, and a late joiner is synchronised to it |
| Scenarios.EmptiedSessionStartsAfresh | apps/ws-server/src/WatchSessionManager.ts:58-69 | After the last member leaves, a new joiner gets paused at 0, not the earlier play |
| Scenarios.MemberMessagesAreDropped | apps/ws-server/src/User.ts:52-114 | A `MEMBER`'s play and an unknown tag publish nothing, and the session holds only the member |
| Scenarios.RejectedJoinsAreClosed | apps/ws-server/src/User.ts:52-114 | A bad token and a user outside the group both close the socket and register nothing; the outsider's user id stays stored |
| Scenarios.ForgedLeaveIsIgnored | apps/ws-server/src/User.ts:116-129 | A leave carrying another member's token keeps both members |
| Scenarios.LeftAdminLeavesStaleState | apps/ws-server/src/User.ts:116-140 | A left `ADMIN`'s play is cached for an empty session and synchronised to the next joiner |
| Scenarios.CloseKeepsMembership | apps/ws-server/src/User.ts:79-84 | After close, the connection is still in its session |
| Scenarios.RejoinSubscribesTwice | apps/ws-server/src/WatchSessionManager.ts:28-31 | Emptying and rejoining a session subscribes its channel twice |
| Scenarios.RejoinedSessionRelaysTwice | apps/ws-server/src/WatchSessionManager.ts:28-55 | After the session is emptied and re-created, the admin's pause reaches the other member twice and the admin never |
| Groups.GroupTable.CreateGroup | apps/http-server/src/controllers/groupController.ts:4-43 | The new group is the caller's, with exactly one row, the caller's `OWNER` row; a clashing id is a 500; owner rows are kept |
| Groups.GroupTable.GetGroup | apps/http-server/src/controllers/groupController.ts:46-93 | 404 exactly when the group is missing or the caller has no row, with the two messages; otherwise the group and its rows |
| Groups.GroupTable.UpdateGroup | apps/http-server/src/controllers/groupController.ts:95-141 | 404 for a missing group; 403 unless the caller's row is `OWNER` or `ADMIN`; otherwise only name and description change |
| Groups.GroupTable.DeleteGroup | apps/http-server/src/controllers/groupController.ts:143-194 | 404 for a missing group; 403 unless the caller is `OWNER`; otherwise the group and all its rows go together, 204 |
| Groups.GroupTable.AddMember | apps/http-server/src/controllers/groupController.ts:197-255 | 404, then 403 unless `OWNER`/`ADMIN`, then 500 for an existing row; otherwise one new row, always `MEMBER`; owner rows are kept |
| Groups.GroupTable.RemoveMember | apps/http-server/src/controllers/groupController.ts:258-318 | In order: 404 for a missing group or target row; 403 unless `OWNER`/`ADMIN` or removing oneself; 403 for an `OWNER` target; otherwise exactly the target's row goes; owner rows are kept |
| Groups.GroupTable.UpdateMemberRole | apps/http-server/src/controllers/groupController.ts:321-391 | 404 for a missing group or target; 403 (`{ error }`) unless `OWNER`/`ADMIN`, and for an `OWNER` target; otherwise the target takes the requested role unchecked; existing owner rows are kept |
| Groups.GroupTable.GetGroupMembers | apps/http-server/src/controllers/groupController.ts:394-439 | 404 for a missing group, 403 for a caller without a row, otherwise the rows |
| Groups.SecondOwnerScenario | apps/http-server/src/controllers/groupController.ts:296-374 | An `OWNER` can promote a member to `OWNER`, after which that owner cannot be removed |
| Groups.OutsiderReads | apps/http-server/src/controllers/groupController.ts:77-431 | A caller without a row gets 404 from `getGroup` and 403 from `getGroupMembers` |
| Likes.LikersOf | apps/http-server/src/controllers/likeControlller.ts:9-16 | The users who like a video are exactly those with a like row for it |
| Likes.LikersAfterInsert | apps/http-server/src/controllers/likeControlller.ts:25-30 | A new like adds exactly one liker to its video and none to any other |
| Likes.LikersAfterDelete | apps/http-server/src/controllers/likeControlller.ts:56-63 | Deleting a like removes exactly one liker from its video and none from any other |
| Likes.CountedAfterLike | apps/http-server/src/controllers/likeControlller.ts:25-41 | If `likeCount` counts every video's likes before a like, it still does after the row insert and the increment |
| Likes.CountedAfterUnlike | apps/http-server/src/controllers/likeControlller.ts:56-74 | The same for an unlike: the row delete and the decrement |
| Likes.CountsAreNatural | apps/http-server/src/controllers/likeControlller.ts:65-74 | While counted, no `likeCount` is negative |
| Likes.LikeTable.LikeVideo | apps/http-server/src/controllers/likeControlller.ts:4-49 | 400 for an existing like; 500 for a missing video; otherwise one row and +1, keeping the count invariant |
| Likes.LikeTable.UnlikeVideo | apps/http-server/src/controllers/likeControlller.ts:51-82 | 500 when there is no such like; otherwise the row goes and the count drops by 1, keeping the invariant |
| Likes.LikeTable.GetLikeStatus | apps/http-server/src/controllers/likeControlller.ts:84-106 | `isLiked` exactly when the caller likes the video |
| Likes.LikeTwiceThenUnlike | apps/http-server/src/controllers/likeControlller.ts:18-72 | Like, like again, unlike: 201, 400, 204, and the count goes 1 then 0 |
| Playlists.HasVideo | apps/http-server/src/controllers/playlistController.ts:128-134 | Whether some entry of the playlist is of the video |
| Playlists.Without | apps/http-server/src/controllers/playlistController.ts:149-159 | Removing a video keeps every other entry with its position and removes exactly one entry when it is present |
| Playlists.InsertByOrder | apps/http-server/src/controllers/playlistController.ts:37-39 | Inserting into a list sorted by position keeps it sorted and adds exactly that entry |
| Playlists.SortByOrder | apps/http-server/src/controllers/playlistController.ts:33-40 | The read is sorted ascending by position and is a permutation of the entries |
| Playlists.Appended | apps/http-server/src/controllers/playlistController.ts:128-133 | An added entry's position is the number of entries before the add |
| Playlists.SortedReadIsIdentity | apps/http-server/src/controllers/playlistController.ts:37-39 | Entries that are already in position order read back unchanged |
| Playlists.DenseReadIsInsertionOrder | apps/http-server/src/controllers/playlistController.ts:37-132 | With no removal, positions are distinct and the read is the insertion order |
| Playlists.AppendCollision | apps/http-server/src/controllers/playlistController.ts:132-159 | An add keeps positions distinct exactly when no entry holds the current count |
| Playlists.RemoveThenAddCollides | apps/http-server/src/controllers/playlistController.ts:132-159 | Removing the first of two entries and adding one gives two entries at position 1 |
| Playlists.PlaylistTable.CreatePlaylist | apps/http-server/src/controllers/playlistController.ts:4-23 | The new playlist is owned by the caller and empty; a clashing id is a 500 |
| Playlists.PlaylistTable.GetPlaylist | apps/http-server/src/controllers/playlistController.ts:25-56 | Any caller reads any playlist, entries sorted and a permutation of the stored ones; for a missing one, a 404 message followed by a write of null |
| Playlists.PlaylistTable.UpdatePlaylist | apps/http-server/src/controllers/playlistController.ts:58-82 | Changes name and description only of a playlist with that id owned by the caller; anything else is a 500 and changes nothing |
| Playlists.PlaylistTable.DeletePlaylist | apps/http-server/src/controllers/playlistController.ts:84-102 | Deletes only a playlist the caller owns, with its entries; otherwise a 500, nothing deleted |
| Playlists.PlaylistTable.AddVideoToPlaylist | apps/http-server/src/controllers/playlistController.ts:104-142 | 404 unless the caller owns the playlist; 500 for a missing or repeated video; otherwise one entry at position equal to the previous count |
| Playlists.PlaylistTable.RemoveVideoFromPlaylist | apps/http-server/src/controllers/playlistController.ts:144-166 | Deletes exactly that entry of a caller-owned playlist, others keep their positions; otherwise a 500 |
| Playlists.RemoveThenAddRepeatsPosition | apps/http-server/src/controllers/playlistController.ts:128-159 | Through the handlers: after a removal, a new entry gets position 1, which another entry still holds |
| Playlists.OthersReadButCannotWrite | apps/http-server/src/controllers/playlistController.ts:27-126 | Another user reads the playlist (200) but gets 404 adding to it and 500 deleting it |
| Subscriptions.SubscriptionsOf | apps/http-server/src/controllers/subscriptionController.ts:66-69 | Exactly the rows whose subscriber is the user |
| Subscriptions.SubscribersOf | apps/http-server/src/controllers/subscriptionController.ts:93-96 | Exactly the rows whose creator is the user |
| Subscriptions.ReadsAreDual | apps/http-server/src/controllers/subscriptionController.ts:66-96 | A row is among `a`'s subscriptions exactly when it is among `b`'s subscribers |
| Subscriptions.SubscribeThenUnsubscribe | apps/http-server/src/controllers/subscriptionController.ts:28-54 | Subscribing then unsubscribing a new pair restores the relation; in between, each read gains exactly that row |
| Subscriptions.SubscriptionTable.SubscribeToUser | apps/http-server/src/controllers/subscriptionController.ts:4-41 | Subscribing to yourself gives a message at 200 and creates nothing; a missing creator is 404; a repeated pair is a 500; otherwise exactly the (caller, target) row is added; no self row ever exists |
| Subscriptions.SubscriptionTable.UnsubscribeFromUser | apps/http-server/src/controllers/subscriptionController.ts:42-62 | Deletes exactly the (caller, target) row, or is a 500 when it is absent |
| Subscriptions.SubscriptionTable.GetSubscriptions | apps/http-server/src/controllers/subscriptionController.ts:63-88 | Exactly the stored rows whose subscriber is the caller |
| Subscriptions.SubscriptionTable.GetSubscribers | apps/http-server/src/controllers/subscriptionController.ts:89-115 | Exactly the stored rows whose creator is the caller |
| Subscriptions.SubscribeGuards | apps/http-server/src/controllers/subscriptionController.ts:9-56 | Self 200, missing creator 404, first 201, repeat 500, unsubscribe 204, again 500 |

## Left out

- The Redis transport, JSON encoding and parsing, and the `ws` socket objects are not modelled.
  - A publish is an entry in the bus log.
  - A delivery is a call of `OnBusMessage` with the published message.
  - An unparsable socket message is the `Unparsable` constructor.
  - A payload without the fields a handler reads is not modelled.
- `jwt.verify` and the Prisma lookups of sessions and membership rows are modelled as the partial maps of a `Directory`, given as a parameter.
  - The secret, token expiry and async lookups are not modelled.
- The `metadata.timestamp` (`new Date()`) that the delivery callback adds is omitted, because it is a clock read.
- All `console.log` output is omitted.
- Every handler is modelled as completing before the next starts.
  - The interleavings of the async handlers (awaits between the membership check and the registration) are not modelled.
  - Nor are concurrent admins racing for the cache.
- Timestamps are modelled as integers; JavaScript numbers may be fractional.
- The order in which a `Set` is iterated, and the order in which the bus runs a channel's callbacks, are not modelled: one callback run's sends are specified as a set of recipients, each sent to once, and a whole delivery by how many times each recipient is sent to.
- Connections are identified by their transient id. Two `User` objects sharing an id are not modelled.
- The singleton `getInstance` is a `WatchSessionManager` passed to each `User`.
- The accept loop of the server (`index.ts`) is not part of this model.
- The HTTP controllers' `include`/`select` of related user and video columns (username, profile image, the video row) is not modelled; replies carry the model's own rows.
  - A group's rows come back as a map from user id to role.
  - Subscriptions come back as a set of rows.
- Ids the database generates (group and playlist ids) are parameters.
  - An id already in use makes the insert fail with a 500.
- Foreign keys are modelled as follows:
  - a like needs an existing video;
  - a playlist entry needs an existing video;
  - a subscription needs an existing subscriber.
  - The target of `addMember` and the owner of a new group or playlist are assumed to exist, because the model has no user table there.
- `deletePlaylist` is assumed to delete the playlist's entries with it (a cascading foreign key); the schema is not part of this model.
- Subscriptions.SubscriptionTable.SubscribeToUser: the 500 message appends the database's error text. That text is a parameter `dbError`, not derived from the failure.
- Playlists.PlaylistTable.GetPlaylist: for a missing playlist, the two writes are listed as attempts. What the framework does with the second write, after the reply has been sent, is not modelled.
- Playlists.SortByOrder: the database's order among entries with equal positions is unspecified. The model sorts with a particular stable insertion sort, and its contract states only sortedness and permutation.
- Groups.GroupTable.DeleteGroup: the group's watch sessions are not modelled, so the delete is assumed to succeed for every `OWNER` call; if the database refuses to delete a group that watch sessions still refer to, the source answers 500 and deletes nothing.
- Groups.GroupTable.GetGroup: the 500 path (its message differs from the other handlers') is not reachable in the model, because it does not model a failing read.
- Roles and request bodies are not validated against the database's enum or types. The model, like the code, accepts any role string in `updateMemberRole`.
