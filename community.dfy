/**
 * The community page (`pages/community`): chat groups with a user-info
 * cache for message senders, and a feed of posts with likes and comments.
 */
module Community {
  import opened Wrappers
  import opened Text
  import Files
  import Seqs

  const DefaultAvatar := "/images/models/default-avatar.png"
  const PostsEndpoint := "/api/community/posts/with-user-info"

  const MinuteMs := 60000
  const HourMs := 3600000
  const DayMs := 86400000

  // ---------------------------------------------------------------------
  // File URLs
  // ---------------------------------------------------------------------

  /** `getAvatarUrl` */
  function AvatarUrl(avatarName: Option<string>): string {
    Files.Resolve(avatarName, DefaultAvatar)
  }

  /** `buildFileUrl` */
  function FileUrl(filename: Option<string>): string {
    Files.Resolve(filename, "")
  }

  /**
   * The two resolvers differ only in their fallback: a missing name is the
   * default avatar for one and `''` for the other, and any other name is
   * kept when it starts with `http` and prefixed with the download path
   * otherwise.
   */
  lemma UrlResolvers(name: Option<string>)
    ensures !Truthy(name) ==> AvatarUrl(name) == DefaultAvatar && FileUrl(name) == ""
    ensures Truthy(name) ==> AvatarUrl(name) == FileUrl(name)
    ensures Truthy(name) && StartsWith(name.value, "http") ==> FileUrl(name) == name.value
    ensures Truthy(name) && !StartsWith(name.value, "http") ==> FileUrl(name) == Files.DownloadPrefix + name.value
  {
  }

  /** What `JSON.parse` makes of a `mediaUrls` text. */
  datatype Parsed = Invalid | Array(items: seq<Option<string>>) | NotArray

  /** `parseMediaUrls`, `json` standing for `JSON.parse`. */
  function MediaList(mediaUrls: Option<string>, json: string -> Parsed): seq<string> {
    if !Truthy(mediaUrls) then []
    else match json(mediaUrls.value)
      case Array(items) => seq(|items|, i requires 0 <= i < |items| => FileUrl(items[i]))
      case Invalid => [FileUrl(mediaUrls)]
      case NotArray => []
  }

  /**
   * No media text gives no media; a JSON array gives one URL per element,
   * in order; text that is not JSON is itself the one file; other JSON
   * gives nothing. Every URL is a full `http` URL or `''` for an empty
   * element.
   */
  lemma MediaListSpec(mediaUrls: Option<string>, json: string -> Parsed)
    ensures var r := MediaList(mediaUrls, json);
            && (!Truthy(mediaUrls) ==> r == [])
            && (Truthy(mediaUrls) && json(mediaUrls.value).Array? ==>
                  var items := json(mediaUrls.value).items;
                  |r| == |items| && forall i :: 0 <= i < |items| ==> r[i] == FileUrl(items[i]))
            && (Truthy(mediaUrls) && json(mediaUrls.value).Invalid? ==> r == [FileUrl(mediaUrls)])
            && (Truthy(mediaUrls) && json(mediaUrls.value).NotArray? ==> r == [])
            && forall i :: 0 <= i < |r| ==> r[i] == "" || StartsWith(r[i], "http")
  {
    var r := MediaList(mediaUrls, json);
    forall i | 0 <= i < |r|
      ensures r[i] == "" || StartsWith(r[i], "http")
    {
      var item := if json(mediaUrls.value).Array? then json(mediaUrls.value).items[i] else mediaUrls;
      assert r[i] == FileUrl(item);
      if Truthy(item) {
        Files.ResolveIdempotent(item, "");
      }
    }
  }

  // ---------------------------------------------------------------------
  // formatPostTime
  // ---------------------------------------------------------------------

  /** A valid `Date`: its time in milliseconds and its month and day of month. */
  datatype Moment = Moment(epochMs: int, monthIndex: int, day: int)

  /**
   * `formatPostTime`: `when` is `new Date(str)` (`None` for an invalid
   * date, whose every comparison with NaN is false), `now` the current
   * time in milliseconds.
   */
  function PostTime(str: Option<string>, when: Option<Moment>, now: int): string {
    if !Truthy(str) then ""
    else if when.None? then "NaN月NaN日"
    else
      var diff := now - when.value.epochMs;
      if diff < MinuteMs then "刚刚"
      else if diff < HourMs then NatToString(diff / MinuteMs) + "分钟前"
      else if diff < DayMs then NatToString(diff / HourMs) + "小时前"
      else IntToString(when.value.monthIndex + 1) + "月" + IntToString(when.value.day) + "日"
  }

  /**
   * The buckets: under a minute (the future included) 刚刚; under an hour
   * the whole minutes, 1 to 59; under a day the whole hours, 1 to 23; older
   * posts by month and day.
   */
  lemma PostTimeBuckets(str: string, when: Moment, now: int)
    requires str != ""
    ensures var r := PostTime(Some(str), Some(when), now);
            var diff := now - when.epochMs;
            && (diff < MinuteMs ==> r == "刚刚")
            && (MinuteMs <= diff < HourMs ==>
                  exists m: nat :: 1 <= m <= 59 && m * MinuteMs <= diff < (m + 1) * MinuteMs && r == NatToString(m) + "分钟前")
            && (HourMs <= diff < DayMs ==>
                  exists h: nat :: 1 <= h <= 23 && h * HourMs <= diff < (h + 1) * HourMs && r == NatToString(h) + "小时前")
            && (diff >= DayMs ==> r == IntToString(when.monthIndex + 1) + "月" + IntToString(when.day) + "日")
  {
    var diff := now - when.epochMs;
    if MinuteMs <= diff < HourMs {
      var m := diff / MinuteMs;
      assert 1 <= m <= 59 && m * MinuteMs <= diff < (m + 1) * MinuteMs;
      assert PostTime(Some(str), Some(when), now) == NatToString(m) + "分钟前";
    } else if HourMs <= diff < DayMs {
      var h := diff / HourMs;
      assert 1 <= h <= 23 && h * HourMs <= diff < (h + 1) * HourMs;
      assert PostTime(Some(str), Some(when), now) == NatToString(h) + "小时前";
    }
  }

  // ---------------------------------------------------------------------
  // Groups: startPrivateChat
  // ---------------------------------------------------------------------

  datatype Group = Group(id: int, groupName: Option<string>)

  predicate DistinctIds(groups: seq<Group>) {
    forall i, j :: 0 <= i < j < |groups| ==> groups[i].id != groups[j].id
  }

  predicate HasGroup(groups: seq<Group>, id: int) {
    exists i :: 0 <= i < |groups| && groups[i].id == id
  }

  /** The group list after `startPrivateChat` got group `g` back. */
  function WithGroup(groups: seq<Group>, g: Group): seq<Group> {
    if HasGroup(groups, g.id) then groups else groups + [g]
  }

  /**
   * The returned group is appended only when no group has its id: the list
   * keeps its groups in order, then holds that id, and stays free of
   * duplicate ids.
   */
  lemma WithGroupSpec(groups: seq<Group>, g: Group)
    ensures var r := WithGroup(groups, g);
            && groups <= r
            && HasGroup(r, g.id)
            && |r| == (if HasGroup(groups, g.id) then |groups| else |groups| + 1)
            && (DistinctIds(groups) ==> DistinctIds(r))
  {
    var r := WithGroup(groups, g);
    if !HasGroup(groups, g.id) {
      assert r[|groups|] == g;
    }
  }

  // ---------------------------------------------------------------------
  // The user-info cache: fetchUsersInfo
  // ---------------------------------------------------------------------

  datatype UserInfo = UserInfo(id: Option<int>, username: Option<string>, avatar: Option<string>, realName: Option<string>)

  /**
   * The reply to `/api/user/<id>`: a thrown request, or the reply object
   * with its `success` flag, its `user` and `data` members and the reply
   * itself read as a user (`self`).
   */
  datatype UserReply = Unreachable | Replied(success: bool, user: Option<UserInfo>, data: Option<UserInfo>, self: UserInfo)

  /** The user a reply yields, trying its three shapes in turn. */
  function Found(reply: UserReply): Option<UserInfo> {
    match reply
    case Unreachable => None
    case Replied(success, user, data, self) =>
      if success && user.Some? then user
      else if self.id.Some? && self.id.value != 0 then Some(self)
      else if data.Some? then data
      else None
  }

  /** `userIds.filter(id => !cache[id])` */
  function Uncached(ids: seq<int>, cache: map<int, UserInfo>): (r: seq<int>)
    ensures forall x :: x in r <==> x in ids && x !in cache
  {
    if ids == [] then []
    else (if ids[0] in cache then [] else [ids[0]]) + Uncached(ids[1..], cache)
  }

  /** The cache after the replies for `ids` were stored one by one. */
  function Gathered(cache: map<int, UserInfo>, ids: seq<int>, reply: int -> UserReply): map<int, UserInfo>
    decreases |ids|
  {
    if ids == [] then cache
    else
      var n := |ids| - 1;
      var before := Gathered(cache, ids[..n], reply);
      match Found(reply(ids[n]))
      case Some(u) => before[ids[n] := u]
      case None => before
  }

  /**
   * Storing replies only adds entries: ids already cached keep their
   * entries, and a new key is one of the requested ids whose reply
   * yielded a user.
   */
  lemma {:induction false} GatheredOnlyAdds(cache: map<int, UserInfo>, ids: seq<int>, reply: int -> UserReply)
    requires forall x :: x in ids ==> x !in cache
    ensures var r := Gathered(cache, ids, reply);
            && (forall k :: k in cache ==> k in r && r[k] == cache[k])
            && (forall k :: k in r && k !in cache ==> k in ids && Found(reply(k)).Some?)
    decreases |ids|
  {
    if ids != [] {
      var n := |ids| - 1;
      assert forall x :: x in ids[..n] ==> x in ids;
      GatheredOnlyAdds(cache, ids[..n], reply);
    }
  }

  /** Every requested id whose reply yields a user ends up cached with it. */
  lemma {:induction false} GatheredStores(cache: map<int, UserInfo>, ids: seq<int>, reply: int -> UserReply, k: int)
    requires k in ids && Found(reply(k)).Some?
    ensures var r := Gathered(cache, ids, reply);
            k in r && r[k] == Found(reply(k)).value
    decreases |ids|
  {
    var n := |ids| - 1;
    if ids[n] != k {
      assert k in ids[..n] by {
        var i :| 0 <= i < |ids| && ids[i] == k;
        assert i < n;
        assert ids[..n][i] == k;
      }
      GatheredStores(cache, ids[..n], reply, k);
    }
  }

  lemma GatheredStep(cache: map<int, UserInfo>, ids: seq<int>, reply: int -> UserReply, i: nat)
    requires i < |ids|
    ensures Gathered(cache, ids[..i + 1], reply) ==
              match Found(reply(ids[i]))
              case Some(u) => Gathered(cache, ids[..i], reply)[ids[i] := u]
              case None => Gathered(cache, ids[..i], reply)
  {
    assert ids[..i + 1][..i] == ids[..i];
  }

  // ---------------------------------------------------------------------
  // Posts: toggleLike, submitComment, loadPosts
  // ---------------------------------------------------------------------

  datatype Comment = Comment(id: int, content: string)

  datatype Post = Post(
    id: int,
    visibility: Option<int>,
    avatar: Option<string>,
    mediaUrls: Option<string>,
    createdTime: Option<string>,
    liked: bool,
    likeCount: Option<int>,
    commentCount: Option<int>,
    comments: Option<seq<Comment>>,
    newComment: Option<string>,
    showComments: bool,
    avatarUrl: string,
    mediaList: seq<string>,
    formattedTime: string)

  /** The like state after the server answered `isLiked`. */
  function AfterLike(p: Post, isLiked: bool): Post {
    p.(liked := isLiked, likeCount := Some(p.likeCount.GetOr(0) + if isLiked then 1 else -1))
  }

  /** The reply to a like: thrown, or `success` with `isLiked`. */
  datatype LikeReply = LikeFailed | LikeAnswer(success: bool, isLiked: bool)

  /** The posts after `toggleLike(index)`; an index with no post makes the handler throw, changing nothing. */
  function Liked(posts: seq<Post>, index: int, reply: LikeReply): (r: seq<Post>) {
    if reply.LikeAnswer? && reply.success && 0 <= index < |posts| then posts[index := AfterLike(posts[index], reply.isLiked)]
    else posts
  }

  /**
   * A successful like sets the post's `liked` and moves its count by one
   * up or down, a missing count read as 0; no other post changes.
   */
  lemma LikedSpec(posts: seq<Post>, index: int, reply: LikeReply)
    ensures var r := Liked(posts, index, reply);
            && |r| == |posts|
            && (forall i :: 0 <= i < |posts| && i != index ==> r[i] == posts[i])
            && (reply.LikeAnswer? && reply.success && 0 <= index < |posts| ==>
                  && r[index].liked == reply.isLiked
                  && r[index].likeCount.Some?
                  && r[index].likeCount.value == posts[index].likeCount.GetOr(0) + (if reply.isLiked then 1 else -1)
                  && r[index] == posts[index].(liked := r[index].liked, likeCount := r[index].likeCount))
            && (!(reply.LikeAnswer? && reply.success) ==> r == posts)
  {
  }

  /** Liking and then unliking brings the count back (a missing count as 0). */
  lemma LikeUnlike(p: Post)
    ensures AfterLike(AfterLike(p, true), false).likeCount == Some(p.likeCount.GetOr(0))
    ensures AfterLike(AfterLike(p, true), false).liked == false
  {
  }

  /** The reply to a comment: thrown, or `success` with the stored comment. */
  datatype CommentReply = CommentFailed | CommentAnswer(success: bool, comment: Comment)

  /** The post after its comment was stored. */
  function AfterComment(p: Post, c: Comment): Post {
    p.(comments := Some(p.comments.GetOr([]) + [c]),
       commentCount := Some(p.commentCount.GetOr(0) + 1),
       newComment := Some(""))
  }

  /** A comment is sent only when its text is not blank. */
  predicate CommentReady(p: Post) {
    Truthy(p.newComment) && !Blank(p.newComment.value)
  }

  /** What `submitComment` did. */
  datatype CommentOutcome = NoPost | AskedForText | SentToLogin | Sent

  /**
   * A stored comment becomes the post's last comment, its count goes up by
   * one and the input is cleared; everything else about the post stays.
   */
  lemma AfterCommentSpec(p: Post, c: Comment)
    ensures var q := AfterComment(p, c);
            && q.comments.Some? && |q.comments.value| == |p.comments.GetOr([])| + 1
            && q.comments.value[|q.comments.value| - 1] == c
            && q.comments.value[..|q.comments.value| - 1] == p.comments.GetOr([])
            && q.commentCount == Some(p.commentCount.GetOr(0) + 1)
            && q.newComment == Some("")
            && q == p.(comments := q.comments, commentCount := q.commentCount, newComment := q.newComment)
  {
  }

  /** `post => post.visibility === 0` */
  predicate IsPublic(p: Post) {
    p.visibility == Some(0)
  }

  /** `(b.likeCount || 0) - (a.likeCount || 0)` as an ascending key. */
  function MostLiked(p: Post): int {
    -p.likeCount.GetOr(0)
  }

  /** The platform services a post list needs: `JSON.parse`, `new Date(str)` and the clock. */
  datatype Runtime = Runtime(json: string -> Parsed, date: string -> Option<Moment>, now: int)

  /** The decorations `loadPosts` adds to a post from the server. */
  function Decorated(p: Post, rt: Runtime): Post {
    var when := if p.createdTime.Some? then rt.date(p.createdTime.value) else None;
    p.(showComments := false, newComment := Some(""), comments := Some([]),
       avatarUrl := AvatarUrl(p.avatar),
       mediaList := MediaList(p.mediaUrls, rt.json),
       formattedTime := PostTime(p.createdTime, when, rt.now))
  }

  function DecoratedAll(posts: seq<Post>, rt: Runtime): (r: seq<Post>)
    ensures |r| == |posts| && forall i :: 0 <= i < |posts| ==> r[i] == Decorated(posts[i], rt)
  {
    seq(|posts|, i requires 0 <= i < |posts| => Decorated(posts[i], rt))
  }

  /** The feed `loadPosts` shows for the reply's posts. */
  function Feed(posts: seq<Post>, currentTab: string, feedFilter: string, rt: Runtime): seq<Post> {
    var all := DecoratedAll(posts, rt);
    var shown := if currentTab == "feed" then Seqs.Filter(all, IsPublic) else all;
    if feedFilter == "popular" then Seqs.SortBy(shown, MostLiked) else shown
  }

  /**
   * The feed tab shows exactly the public posts (other tabs all of them),
   * each decorated; the popular filter orders them by like count, most
   * first, a missing count read as 0, without losing or adding any.
   */
  lemma FeedSpec(posts: seq<Post>, currentTab: string, feedFilter: string, rt: Runtime)
    ensures var r := Feed(posts, currentTab, feedFilter, rt);
            var all := DecoratedAll(posts, rt);
            var shown := if currentTab == "feed" then Seqs.Filter(all, IsPublic) else all;
            && (forall p :: p in shown <==> p in all && (currentTab == "feed" ==> IsPublic(p)))
            && (feedFilter != "popular" ==> r == shown)
            && (feedFilter == "popular" ==>
                  multiset(r) == multiset(shown)
                  && forall i, j :: 0 <= i < j < |r| ==> r[i].likeCount.GetOr(0) >= r[j].likeCount.GetOr(0))
  {
    var all := DecoratedAll(posts, rt);
    var shown := if currentTab == "feed" then Seqs.Filter(all, IsPublic) else all;
    var r := Feed(posts, currentTab, feedFilter, rt);
    if currentTab == "feed" {
      forall p | p in shown
        ensures IsPublic(p)
      {
        var i :| 0 <= i < |shown| && shown[i] == p;
      }
    }
    if feedFilter == "popular" {
      forall i, j | 0 <= i < j < |r|
        ensures r[i].likeCount.GetOr(0) >= r[j].likeCount.GetOr(0)
      {
        assert MostLiked(r[i]) <= MostLiked(r[j]);
      }
    }
  }

  /** The reply to the post list: thrown, or `success` with `data` (`null` as `None`). */
  datatype PostsReply = PostsFailed | PostsAnswer(success: bool, data: Option<seq<Post>>)

  /** The request URL of `loadPosts`. */
  function PostsUrl(userId: Option<int>): string {
    if KnownUser(userId) then PostsEndpoint + "?userId=" + IntToString(userId.value) else PostsEndpoint
  }

  /** A user id is truthy when present and not 0. */
  predicate KnownUser(userId: Option<int>) {
    userId.Some? && userId.value != 0
  }

  // ---------------------------------------------------------------------
  // The page
  // ---------------------------------------------------------------------

  datatype CommunityData = CommunityData(
    currentTab: string,
    chatTab: string,
    feedFilter: string,
    userId: Option<int>,
    groups: seq<Group>,
    activeGroup: Option<Group>,
    posts: seq<Post>,
    loading: bool,
    hasMore: bool,
    userInfoCache: map<int, UserInfo>)

  class CommunityPage {
    var data: CommunityData

    constructor ()
      ensures data == CommunityData("chat", "groups", "all", None, [], None, [], false, true, map[])
    {
      data := CommunityData("chat", "groups", "all", None, [], None, [], false, true, map[]);
    }

    /**
     * `startPrivateChat`: a successful reply with group `g` adds it unless
     * a group with its id is listed, opens it and shows the groups tab.
     */
    method StartPrivateChat(reply: Option<Group>)
      modifies this
      ensures reply.None? ==> data == old(data)
      ensures reply.Some? ==>
                data == old(data).(groups := WithGroup(old(data.groups), reply.value), activeGroup := reply, chatTab := "groups")
    {
      if reply.None? {
        return;
      }
      var g := reply.value;
      var groups := data.groups;
      var known := HasGroup(groups, g.id);
      if !known {
        groups := groups + [g];
      }
      data := data.(groups := groups, activeGroup := reply, chatTab := "groups");
    }

    /**
     * `fetchUsersInfo`: requests, in order, the ids that have no cache
     * entry (`reply(id)` being the server's answer) and stores what the
     * replies yield.
     */
    method FetchUsersInfo(userIds: seq<int>, reply: int -> UserReply) returns (requested: seq<int>)
      modifies this
      ensures requested == Uncached(userIds, old(data.userInfoCache))
      ensures data == old(data).(userInfoCache := Gathered(old(data.userInfoCache), requested, reply))
    {
      requested := Uncached(userIds, data.userInfoCache);
      if |requested| == 0 {
        assert requested == [];
        return;
      }
      var cache := data.userInfoCache;
      ghost var start := cache;
      for i := 0 to |requested|
        invariant cache == Gathered(start, requested[..i], reply)
        invariant data == old(data)
      {
        GatheredStep(start, requested, reply, i);
        var userId := requested[i];
        var found := Found(reply(userId));
        if found.Some? {
          cache := cache[userId := found.value];
        }
      }
      assert requested[..|requested|] == requested;
      data := data.(userInfoCache := cache);
    }

    /** `toggleLike`: without a user the page goes to the login page. */
    method ToggleLike(index: int, reply: LikeReply) returns (toLogin: bool)
      modifies this
      ensures !KnownUser(old(data.userId)) ==> toLogin && data == old(data)
      ensures KnownUser(old(data.userId)) ==> !toLogin && data == old(data).(posts := Liked(old(data.posts), index, reply))
    {
      if !KnownUser(data.userId) {
        return true;
      }
      toLogin := false;
      if reply.LikeAnswer? && reply.success && 0 <= index < |data.posts| {
        var posts := data.posts;
        posts := posts[index := AfterLike(posts[index], reply.isLiked)];
        data := data.(posts := posts);
      }
    }

    /**
     * `submitComment` on the post at `index`: a blank comment is refused,
     * without a user the page goes to the login page, otherwise it is sent
     * and, when stored, added to the post.
     */
    method SubmitComment(index: int, reply: CommentReply) returns (outcome: CommentOutcome)
      modifies this
      ensures outcome != Sent ==> data == old(data)
      ensures !(0 <= index < |old(data.posts)|) ==> outcome == NoPost
      ensures 0 <= index < |old(data.posts)| ==>
                && (!CommentReady(old(data.posts[index])) ==> outcome == AskedForText)
                && (CommentReady(old(data.posts[index])) && !KnownUser(old(data.userId)) ==> outcome == SentToLogin)
                && (CommentReady(old(data.posts[index])) && KnownUser(old(data.userId)) ==> outcome == Sent)
      ensures outcome == Sent ==>
                data == old(data).(posts :=
                  if reply.CommentAnswer? && reply.success
                  then old(data.posts)[index := AfterComment(old(data.posts[index]), reply.comment)]
                  else old(data.posts))
    {
      if !(0 <= index < |data.posts|) {
        return NoPost;
      }
      var post := data.posts[index];
      if !CommentReady(post) {
        return AskedForText;
      }
      if !KnownUser(data.userId) {
        return SentToLogin;
      }
      outcome := Sent;
      if reply.CommentAnswer? && reply.success {
        var posts := data.posts;
        posts := posts[index := AfterComment(posts[index], reply.comment)];
        data := data.(posts := posts);
      }
    }

    /**
     * The synchronous half of `loadPosts`: ignored while loading, or when
     * not resetting and nothing more is to come; otherwise marks the page
     * loading and returns the URL it requests.
     */
    method BeginLoadPosts(reset: bool) returns (url: Option<string>)
      modifies this
      ensures old(data.loading) || (!reset && !old(data.hasMore)) ==> url == None && data == old(data)
      ensures !(old(data.loading) || (!reset && !old(data.hasMore))) ==>
                url == Some(PostsUrl(old(data.userId))) && data == old(data).(loading := true)
    {
      if data.loading || (!reset && !data.hasMore) {
        return None;
      }
      data := data.(loading := true);
      url := Some(PostsUrl(data.userId));
    }

    /**
     * The half after the reply: the decorated, filtered and sorted posts of
     * a successful reply (none otherwise) are shown; a thrown request only
     * ends loading.
     */
    method EndLoadPosts(reply: PostsReply, rt: Runtime)
      modifies this
      ensures reply.PostsFailed? ==> data == old(data).(loading := false)
      ensures reply.PostsAnswer? ==>
                var posts := if reply.success && reply.data.Some? then reply.data.value else [];
                data == old(data).(posts := Feed(posts, old(data.currentTab), old(data.feedFilter), rt),
                                   hasMore := false, loading := false)
    {
      if reply.PostsFailed? {
        data := data.(loading := false);
        return;
      }
      var posts := if reply.success && reply.data.Some? then reply.data.value else [];
      var feed := Feed(posts, data.currentTab, data.feedFilter, rt);
      data := data.(posts := feed, hasMore := false, loading := false);
    }
  }
}
