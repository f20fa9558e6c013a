/**
 * The playlist controller: playlists owned by users, and their entries, each a video with an `order`
 * position. A new entry's position is the number of entries the playlist has, and nothing renumbers
 * the entries, so positions are dense only until the first removal.
 *
 * The entries of a playlist are kept in the order they were inserted; `getPlaylist` reads them
 * sorted by position. A playlist's entries go with it when it is deleted.
 */
module Playlists {
  import opened Common
  import opened Http

  type UserId = string
  type PlaylistId = string
  type VideoId = string

  datatype Playlist = Playlist(name: string, description: string, userId: UserId)

  /** An entry row; (playlist, video) is the table's unique key. */
  datatype Entry = Entry(videoId: VideoId, order: nat)

  /** An entry as `addVideoToPlaylist` returns it. */
  datatype EntryRow = EntryRow(playlistId: PlaylistId, videoId: VideoId, order: nat)

  /** A playlist as `getPlaylist` returns it, with its entries. */
  datatype PlaylistView = PlaylistView(id: PlaylistId, playlist: Playlist, videos: seq<Entry>)

  /** Ascending by position (`orderBy: { order: 'asc' }`). */
  ghost predicate SortedByOrder(s: seq<Entry>)
  {
    forall i, j :: 0 <= i < j < |s| ==> s[i].order <= s[j].order
  }

  /** No video appears twice in a playlist. */
  ghost predicate UniqueVideos(s: seq<Entry>)
  {
    forall i, j :: 0 <= i < j < |s| ==> s[i].videoId != s[j].videoId
  }

  /** Every position is the index at which the entry was inserted: 0, 1, 2, ... */
  ghost predicate Dense(s: seq<Entry>)
  {
    forall i :: 0 <= i < |s| ==> s[i].order == i
  }

  /** No two entries share a position. */
  ghost predicate DistinctOrders(s: seq<Entry>)
  {
    forall i, j :: 0 <= i < j < |s| ==> s[i].order != s[j].order
  }

  function HasVideo(s: seq<Entry>, v: VideoId): (b: bool)
    ensures b <==> exists i :: 0 <= i < |s| && s[i].videoId == v
  {
    if s == [] then false else s[0].videoId == v || HasVideo(s[1..], v)
  }

  /** The tail of a playlist without repeated videos has none either and does not hold its head's video. */
  lemma UniqueTail(s: seq<Entry>)
    requires s != [] && UniqueVideos(s)
    ensures UniqueVideos(s[1..]) && !HasVideo(s[1..], s[0].videoId)
  {
    forall i | 0 <= i < |s[1..]| ensures s[1..][i].videoId != s[0].videoId {
      assert s[1..][i] == s[i + 1];
    }
  }

  /** An entry whose video is not in a playlist without repeats may go in front of it. */
  lemma ConsUnique(x: Entry, t: seq<Entry>)
    requires UniqueVideos(t)
    requires forall e :: e in t ==> e.videoId != x.videoId
    ensures UniqueVideos([x] + t)
  {
    var r := [x] + t;
    forall i, j | 0 <= i < j < |r| ensures r[i].videoId != r[j].videoId {
      assert r[j] == t[j - 1];
      if i > 0 {
        assert r[i] == t[i - 1];
      }
    }
  }

  /** The entries of `s` other than video `v`'s, in the same order and with the same positions. */
  function Without(s: seq<Entry>, v: VideoId): (r: seq<Entry>)
    ensures forall e :: e in r <==> e in s && e.videoId != v
    ensures UniqueVideos(s) ==> UniqueVideos(r)
    ensures !HasVideo(s, v) ==> r == s
    ensures UniqueVideos(s) && HasVideo(s, v) ==> |r| == |s| - 1
  {
    if s == [] then []
    else
      var rest := Without(s[1..], v);
      assert s == [s[0]] + s[1..];
      if s[0].videoId == v then
        assert UniqueVideos(s) ==> rest == s[1..] && UniqueVideos(rest) by {
          if UniqueVideos(s) {
            UniqueTail(s);
          }
        }
        rest
      else
        assert UniqueVideos(s) ==> UniqueVideos([s[0]] + rest) by {
          if UniqueVideos(s) {
            UniqueTail(s);
            forall e | e in rest ensures e.videoId != s[0].videoId {
              var k :| 0 <= k < |s[1..]| && s[1..][k] == e;
            }
            ConsUnique(s[0], rest);
          }
        }
        [s[0]] + rest
  }

  /** An entry no later than every entry of a sorted sequence may go in front of it. */
  lemma ConsSorted(x: Entry, t: seq<Entry>)
    requires SortedByOrder(t)
    requires forall y :: y in t ==> x.order <= y.order
    ensures SortedByOrder([x] + t)
  {
    var r := [x] + t;
    forall i, j | 0 <= i < j < |r| ensures r[i].order <= r[j].order {
      assert r[j] == t[j - 1];
      if i > 0 {
        assert r[i] == t[i - 1];
      }
    }
  }

  /** The first entry of a sorted sequence is no later than any of its entries. */
  lemma HeadIsFirst(s: seq<Entry>)
    requires SortedByOrder(s) && s != []
    ensures forall y :: y in s ==> s[0].order <= y.order
  {
    forall y | y in s ensures s[0].order <= y.order {
      var k :| 0 <= k < |s| && s[k] == y;
    }
  }

  /** The head of a sorted sequence stays in front of the sorted insertion of a later entry into its tail. */
  lemma InsertBehindHead(e: Entry, s: seq<Entry>, rest: seq<Entry>)
    requires SortedByOrder(s) && s != [] && s[0].order < e.order
    requires SortedByOrder(rest) && multiset(rest) == multiset(s[1..]) + multiset{e}
    ensures SortedByOrder([s[0]] + rest)
    ensures multiset([s[0]] + rest) == multiset(s) + multiset{e}
  {
    assert s == [s[0]] + s[1..];
    HeadIsFirst(s);
    forall y | y in rest ensures s[0].order <= y.order {
      assert y in multiset(rest);
      if y != e {
        assert y in multiset(s[1..]);
        assert y in s;
      }
    }
    ConsSorted(s[0], rest);
  }

  /** Insert `e` into a sorted sequence before the first entry whose position is not smaller. */
  function InsertByOrder(e: Entry, s: seq<Entry>): (r: seq<Entry>)
    requires SortedByOrder(s)
    ensures SortedByOrder(r)
    ensures multiset(r) == multiset(s) + multiset{e}
  {
    if s == [] then [e]
    else if e.order <= s[0].order then
      HeadIsFirst(s);
      ConsSorted(e, s);
      [e] + s
    else
      var rest := InsertByOrder(e, s[1..]);
      InsertBehindHead(e, s, rest);
      [s[0]] + rest
  }

  /** The entries sorted ascending by position (insertion sort; see `SortedReadIsIdentity` for ties). */
  function SortByOrder(s: seq<Entry>): (r: seq<Entry>)
    ensures SortedByOrder(r)
    ensures multiset(r) == multiset(s)
  {
    if s == [] then []
    else
      assert s == [s[0]] + s[1..];
      InsertByOrder(s[0], SortByOrder(s[1..]))
  }

  /** The row an add appends: the video at the position equal to the current number of entries. */
  function Appended(s: seq<Entry>, v: VideoId): (r: seq<Entry>)
    ensures |r| == |s| + 1 && r[..|s|] == s && r[|s|] == Entry(v, |s|)
  {
    s + [Entry(v, |s|)]
  }

  /** While no entry has been removed, adding keeps the positions dense. */
  lemma AppendKeepsDense(s: seq<Entry>, v: VideoId)
    requires Dense(s)
    ensures Dense(Appended(s, v))
  {
  }

  /** Reading an already sorted sequence returns it unchanged, ties included. */
  lemma {:induction false} SortedReadIsIdentity(s: seq<Entry>)
    requires SortedByOrder(s)
    ensures SortByOrder(s) == s
  {
    if s != [] {
      SortedReadIsIdentity(s[1..]);
      assert s == [s[0]] + s[1..];
    }
  }

  /** Dense positions are distinct, and the sorted read of a dense playlist is its insertion order. */
  lemma DenseReadIsInsertionOrder(s: seq<Entry>)
    requires Dense(s)
    ensures DistinctOrders(s)
    ensures SortByOrder(s) == s
  {
    SortedReadIsIdentity(s);
  }

  /** A new entry's position collides with an existing one exactly when some entry already holds the current count. */
  lemma AppendCollision(s: seq<Entry>, v: VideoId)
    requires DistinctOrders(s)
    ensures DistinctOrders(Appended(s, v)) <==> forall i :: 0 <= i < |s| ==> s[i].order != |s|
  {
    var r := Appended(s, v);
    if forall i :: 0 <= i < |s| ==> s[i].order != |s| {
      forall i, j | 0 <= i < j < |r| ensures r[i].order != r[j].order {
        if j == |s| {
          assert r[i] == s[i];
        } else {
          assert r[i] == s[i] && r[j] == s[j];
        }
      }
    } else {
      var i :| 0 <= i < |s| && s[i].order == |s|;
      assert r[i].order == r[|s|].order;
    }
  }

  /** After removing the first of two entries, the next add takes the position the second still holds. */
  lemma RemoveThenAddCollides()
    ensures var s := Appended(Without([Entry("a", 0), Entry("b", 1)], "a"), "c");
      s == [Entry("b", 1), Entry("c", 1)] && !DistinctOrders(s)
  {
    var s0 := [Entry("a", 0), Entry("b", 1)];
    assert Without(s0, "a") == [Entry("b", 1)] by {
      assert Without(s0[1..], "a") == [Entry("b", 1)] by {
        assert s0[1..][1..] == [];
      }
    }
    var s := Appended(Without(s0, "a"), "c");
    assert s[0].order == s[1].order;
  }

  class PlaylistTable {
    var playlists: map<PlaylistId, Playlist>
    var entries: map<PlaylistId, seq<Entry>>
    /** The ids of the videos that exist, which entry rows refer to. */
    var videos: set<VideoId>

    ghost predicate Valid()
      reads this
    {
      && entries.Keys == playlists.Keys
      && forall p :: p in entries ==> UniqueVideos(entries[p])
    }

    constructor (videos: set<VideoId>)
      ensures Valid() && playlists == map[] && entries == map[] && this.videos == videos
    {
      playlists := map[];
      entries := map[];
      this.videos := videos;
    }

    /** `createPlaylist`: the new playlist belongs to the caller and has no entries. */
    method CreatePlaylist(caller: UserId, name: string, description: string, newId: PlaylistId) returns (reply: Reply<(PlaylistId, Playlist)>)
      requires Valid()
      modifies this`playlists, this`entries
      ensures Valid()
      ensures newId in old(playlists) ==> reply == ServerError() && playlists == old(playlists) && entries == old(entries)
      ensures newId !in old(playlists) ==>
        && playlists == old(playlists)[newId := Playlist(name, description, caller)]
        && entries == old(entries)[newId := []]
        && reply == Reply(201, Data((newId, Playlist(name, description, caller))))
    {
      if newId in playlists {
        return ServerError();
      }
      playlists := playlists[newId := Playlist(name, description, caller)];
      entries := entries[newId := []];
      reply := Reply(201, Data((newId, playlists[newId])));
    }

    /**
     * `getPlaylist`: anyone may read any playlist, its entries sorted by position. For a missing
     * playlist the handler writes the 404 message and then goes on to write the (null) playlist as
     * well; `attempts` lists the writes in the order the handler makes them.
     */
    method GetPlaylist(p: PlaylistId) returns (attempts: seq<Reply<Option<PlaylistView>>>)
      requires Valid()
      ensures p !in playlists ==> attempts == [Reply(404, Message("Playlist not found")), Reply(404, Data(None))]
      ensures p in playlists ==>
        && |attempts| == 1 && attempts[0].status == 200
        && attempts[0].body.Data? && attempts[0].body.value.Some?
        && var view := attempts[0].body.value.value;
        && view.id == p && view.playlist == playlists[p]
        && SortedByOrder(view.videos) && multiset(view.videos) == multiset(entries[p])
    {
      if p !in playlists {
        attempts := [Reply(404, Message("Playlist not found"))];
        attempts := attempts + [Reply(404, Data(None))];
      } else {
        var view := PlaylistView(p, playlists[p], SortByOrder(entries[p]));
        attempts := [Reply(200, Data(Some(view)))];
      }
    }

    /** `updatePlaylist`: the update matches only a playlist with that id owned by the caller; no match throws. */
    method UpdatePlaylist(caller: UserId, p: PlaylistId, name: string, description: string) returns (reply: Reply<(PlaylistId, Playlist)>)
      requires Valid()
      modifies this`playlists
      ensures Valid()
      ensures !(p in old(playlists) && old(playlists)[p].userId == caller) ==>
        reply == ServerError() && playlists == old(playlists)
      ensures p in old(playlists) && old(playlists)[p].userId == caller ==>
        && playlists == old(playlists)[p := Playlist(name, description, caller)]
        && reply == Reply(200, Data((p, playlists[p])))
    {
      if p !in playlists || playlists[p].userId != caller {
        return ServerError();
      }
      playlists := playlists[p := playlists[p].(name := name, description := description)];
      reply := Reply(200, Data((p, playlists[p])));
    }

    /** `deletePlaylist`: deletes only a playlist with that id owned by the caller; no match throws. */
    method DeletePlaylist(caller: UserId, p: PlaylistId) returns (reply: Reply<()>)
      requires Valid()
      modifies this`playlists, this`entries
      ensures Valid()
      ensures !(p in old(playlists) && old(playlists)[p].userId == caller) ==>
        reply == ServerError() && playlists == old(playlists) && entries == old(entries)
      ensures p in old(playlists) && old(playlists)[p].userId == caller ==>
        reply == Reply(204, NoBody) && playlists == old(playlists) - {p} && entries == old(entries) - {p}
    {
      if p !in playlists || playlists[p].userId != caller {
        return ServerError();
      }
      playlists := playlists - {p};
      entries := entries - {p};
      reply := Reply(204, NoBody);
    }

    /**
     * `addVideoToPlaylist`: 404 unless the caller owns the playlist; a missing video or one already
     * in the playlist makes the insert throw; otherwise the entry is appended at position
     * `|entries[p]|`.
     */
    method AddVideoToPlaylist(caller: UserId, p: PlaylistId, v: VideoId) returns (reply: Reply<EntryRow>)
      requires Valid()
      modifies this`entries
      ensures Valid()
      ensures !(p in playlists && playlists[p].userId == caller) ==>
        reply == Reply(404, Message("Playlist not found")) && entries == old(entries)
      ensures p in playlists && playlists[p].userId == caller && (v !in videos || HasVideo(old(entries)[p], v)) ==>
        reply == ServerError() && entries == old(entries)
      ensures p in playlists && playlists[p].userId == caller && v in videos && !HasVideo(old(entries)[p], v) ==>
        && entries == old(entries)[p := old(entries)[p] + [Entry(v, |old(entries)[p]|)]]
        && reply == Reply(201, Data(EntryRow(p, v, |old(entries)[p]|)))
    {
      if p !in playlists || playlists[p].userId != caller {
        return Reply(404, Message("Playlist not found"));
      }
      if v !in videos || HasVideo(entries[p], v) {
        return ServerError();
      }
      var order := |entries[p]|;
      entries := entries[p := Appended(entries[p], v)];
      reply := Reply(201, Data(EntryRow(p, v, order)));
    }

    /**
     * `removeVideoFromPlaylist`: deletes the (playlist, video) entry only when the caller owns the
     * playlist; no match throws. The other entries keep their positions.
     */
    method RemoveVideoFromPlaylist(caller: UserId, p: PlaylistId, v: VideoId) returns (reply: Reply<()>)
      requires Valid()
      modifies this`entries
      ensures Valid()
      ensures !(p in playlists && playlists[p].userId == caller && HasVideo(old(entries)[p], v)) ==>
        reply == ServerError() && entries == old(entries)
      ensures p in playlists && playlists[p].userId == caller && HasVideo(old(entries)[p], v) ==>
        && reply == Reply(204, NoBody)
        && entries.Keys == old(entries).Keys
        && (forall q :: q in entries && q != p ==> entries[q] == old(entries)[q])
        && (forall e :: e in entries[p] <==> e in old(entries)[p] && e.videoId != v)
        && |entries[p]| == |old(entries)[p]| - 1
    {
      if p !in playlists || playlists[p].userId != caller || !HasVideo(entries[p], v) {
        return ServerError();
      }
      entries := entries[p := Without(entries[p], v)];
      reply := Reply(204, NoBody);
    }
  }

  /** A fresh table where `ann` owns playlist `p1`, which holds video `a` at position 0. */
  method OneEntryPlaylist() returns (t: PlaylistTable)
    ensures fresh(t) && t.Valid()
    ensures t.videos == {"a", "b", "c"}
    ensures t.playlists.Keys == {"p1"} && t.playlists["p1"].userId == "ann"
    ensures t.entries == map["p1" := [Entry("a", 0)]]
  {
    t := new PlaylistTable({"a", "b", "c"});
    var _ := t.CreatePlaylist("ann", "mix", "", "p1");
    assert t.entries == map["p1" := []];
    var _ := t.AddVideoToPlaylist("ann", "p1", "a");
    assert [] + [Entry("a", 0)] == [Entry("a", 0)];
  }

  /** A fresh table whose playlist `p1`, owned by `ann`, holds `a` at 0 and `b` at 1. */
  method TwoEntryPlaylist() returns (t: PlaylistTable)
    ensures fresh(t) && t.Valid()
    ensures t.videos == {"a", "b", "c"}
    ensures "p1" in t.playlists && t.playlists["p1"].userId == "ann"
    ensures t.entries["p1"] == [Entry("a", 0), Entry("b", 1)]
  {
    t := OneEntryPlaylist();
    assert !HasVideo(t.entries["p1"], "b");
    var _ := t.AddVideoToPlaylist("ann", "p1", "b");
  }

  /**
   * Through the handlers: removing the first of two entries and adding a third gives the new entry
   * the position the second entry still holds.
   */
  method RemoveThenAddRepeatsPosition() returns (added: int, order: int, heldByB: bool)
    ensures added == 201
    ensures order == 1 && heldByB
  {
    var t := TwoEntryPlaylist();
    var _ := t.RemoveVideoFromPlaylist("ann", "p1", "a");
    assert Entry("b", 1) in t.entries["p1"] && |t.entries["p1"]| == 1;
    assert !HasVideo(t.entries["p1"], "c");
    var r := t.AddVideoToPlaylist("ann", "p1", "c");
    added := r.status;
    order := r.body.value.order;
    heldByB := Entry("b", 1) in t.entries["p1"];
  }

  /** Another user can read `ann`'s playlist but cannot add to it or delete it. */
  method OthersReadButCannotWrite() returns (read: int, add: int, delete: int)
    ensures read == 200 && add == 404 && delete == 500
  {
    var t := TwoEntryPlaylist();
    var g := t.GetPlaylist("p1");
    read := g[0].status;
    var r := t.AddVideoToPlaylist("bob", "p1", "c");
    add := r.status;
    var d := t.DeletePlaylist("bob", "p1");
    delete := d.status;
  }
}
