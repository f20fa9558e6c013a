/**
 * The like controller: at most one like row per (user, video), and a `likeCount` column on each
 * video that the handlers keep equal to the number of like rows of that video.
 *
 * The video table is the map `likeCount`; its keys are the videos that exist. A like row refers to
 * an existing video (a foreign key), so creating a like of a missing video throws.
 */
module Likes {
  import opened Http

  type UserId = string
  type VideoId = string

  /** A like row; the pair is the table's unique key. */
  datatype Like = Like(userId: UserId, videoId: VideoId)

  /** The users who like `v`. */
  function LikersOf(likes: set<Like>, v: VideoId): (users: set<UserId>)
    ensures forall u :: u in users <==> Like(u, v) in likes
  {
    set l | l in likes && l.videoId == v :: l.userId
  }

  /** Inserting a new like of `v` adds exactly its user to the likers of `v` and nobody to another video's. */
  lemma {:induction false} LikersAfterInsert(likes: set<Like>, u: UserId, v: VideoId, w: VideoId)
    requires Like(u, v) !in likes
    ensures w == v ==> |LikersOf(likes + {Like(u, v)}, w)| == |LikersOf(likes, w)| + 1
    ensures w != v ==> LikersOf(likes + {Like(u, v)}, w) == LikersOf(likes, w)
  {
    if w == v {
      assert LikersOf(likes + {Like(u, v)}, w) == LikersOf(likes, w) + {u};
      assert u !in LikersOf(likes, w);
    }
  }

  /** Deleting an existing like of `v` removes exactly its user from the likers of `v`. */
  lemma {:induction false} LikersAfterDelete(likes: set<Like>, u: UserId, v: VideoId, w: VideoId)
    requires Like(u, v) in likes
    ensures w == v ==> |LikersOf(likes - {Like(u, v)}, w)| == |LikersOf(likes, w)| - 1
    ensures w != v ==> LikersOf(likes - {Like(u, v)}, w) == LikersOf(likes, w)
  {
    if w == v {
      assert LikersOf(likes - {Like(u, v)}, w) == LikersOf(likes, w) - {u};
      assert u in LikersOf(likes, w);
    }
  }

  /** `likeCount` counts the likes of every video, and every like is of an existing video. */
  ghost predicate Counted(likes: set<Like>, likeCount: map<VideoId, int>)
  {
    && (forall l :: l in likes ==> l.videoId in likeCount)
    && (forall v :: v in likeCount ==> likeCount[v] == |LikersOf(likes, v)|)
  }

  /** Counting survives a like of an existing video not yet liked by that user, with that video's count incremented. */
  lemma CountedAfterLike(likes: set<Like>, likeCount: map<VideoId, int>, u: UserId, v: VideoId)
    requires Counted(likes, likeCount) && v in likeCount && Like(u, v) !in likes
    ensures Counted(likes + {Like(u, v)}, likeCount[v := likeCount[v] + 1])
  {
    forall w | w in likeCount {
      LikersAfterInsert(likes, u, v, w);
    }
  }

  /** Counting survives removing an existing like, with that video's count decremented. */
  lemma CountedAfterUnlike(likes: set<Like>, likeCount: map<VideoId, int>, u: UserId, v: VideoId)
    requires Counted(likes, likeCount) && Like(u, v) in likes
    ensures v in likeCount
    ensures Counted(likes - {Like(u, v)}, likeCount[v := likeCount[v] - 1])
  {
    forall w | w in likeCount {
      LikersAfterDelete(likes, u, v, w);
    }
  }

  /** A counted table never holds a negative count. */
  lemma CountsAreNatural(likes: set<Like>, likeCount: map<VideoId, int>, v: VideoId)
    requires Counted(likes, likeCount) && v in likeCount
    ensures likeCount[v] >= 0
  {
  }

  class LikeTable {
    var likes: set<Like>
    var likeCount: map<VideoId, int>

    ghost predicate Valid()
      reads this
    {
      Counted(likes, likeCount)
    }

    /** A table of the given videos, none of them liked. */
    constructor (videos: set<VideoId>)
      ensures Valid() && likes == {} && likeCount.Keys == videos
      ensures forall v :: v in likeCount ==> likeCount[v] == 0
    {
      likes := {};
      likeCount := map v | v in videos :: 0;
      new;
      forall v | v in likeCount ensures likeCount[v] == |LikersOf(likes, v)| {
        assert LikersOf(likes, v) == {};
      }
    }

    /**
     * `likeVideo`: an existing like answers 400; a like of a missing video throws on the foreign
     * key; otherwise the row is created and the video's count incremented.
     */
    method LikeVideo(u: UserId, v: VideoId) returns (reply: Reply<Like>)
      requires Valid()
      modifies this
      ensures Valid()
      ensures Like(u, v) in old(likes) ==>
        reply == Reply(400, Message("You have already liked this video")) && unchanged(this)
      ensures Like(u, v) !in old(likes) && v !in old(likeCount) ==> reply == ServerError() && unchanged(this)
      ensures Like(u, v) !in old(likes) && v in old(likeCount) ==>
        && reply == Reply(201, Data(Like(u, v)))
        && likes == old(likes) + {Like(u, v)}
        && likeCount == old(likeCount)[v := old(likeCount)[v] + 1]
    {
      if Like(u, v) in likes {
        return Reply(400, Message("You have already liked this video"));
      }
      if v !in likeCount {
        return ServerError();
      }
      CountedAfterLike(likes, likeCount, u, v);
      likes := likes + {Like(u, v)};
      likeCount := likeCount[v := likeCount[v] + 1];
      reply := Reply(201, Data(Like(u, v)));
    }

    /** `unlikeVideo`: deleting a like that is not there throws; otherwise the row goes and the count drops. */
    method UnlikeVideo(u: UserId, v: VideoId) returns (reply: Reply<()>)
      requires Valid()
      modifies this
      ensures Valid()
      ensures Like(u, v) !in old(likes) ==> reply == ServerError() && unchanged(this)
      ensures Like(u, v) in old(likes) ==>
        && v in old(likeCount)
        && reply == Reply(204, NoBody)
        && likes == old(likes) - {Like(u, v)}
        && likeCount == old(likeCount)[v := old(likeCount)[v] - 1]
    {
      if Like(u, v) !in likes {
        return ServerError();
      }
      CountedAfterUnlike(likes, likeCount, u, v);
      likes := likes - {Like(u, v)};
      likeCount := likeCount[v := likeCount[v] - 1];
      reply := Reply(204, NoBody);
    }

    /** `getLikeStatus`: whether the caller's like row exists. */
    method GetLikeStatus(u: UserId, v: VideoId) returns (isLiked: bool)
      ensures isLiked <==> u in LikersOf(likes, v)
    {
      isLiked := Like(u, v) in likes;
    }
  }

  /** Liking, liking again and unliking: the second like is refused and the count ends where it began. */
  method LikeTwiceThenUnlike() returns (first: int, second: int, third: int, countAfterLike: int, countAtEnd: int)
    ensures first == 201 && second == 400 && third == 204
    ensures countAfterLike == 1 && countAtEnd == 0
  {
    var t := new LikeTable({"v1"});
    var r := t.LikeVideo("ann", "v1");
    first := r.status;
    countAfterLike := t.likeCount["v1"];
    r := t.LikeVideo("ann", "v1");
    second := r.status;
    var d := t.UnlikeVideo("ann", "v1");
    third := d.status;
    countAtEnd := t.likeCount["v1"];
  }
}
