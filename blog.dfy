/** The blog: post records, the two blog handlers, and the filter that decides
    which posts a caller is shown. */
module Blog {
  import opened Text
  import opened Identity
  import opened BlobLog

  /** A stored post record, as it is appended to the log. */
  datatype Post = Post(userId: string, email: string, title: string, post: string)

  /** The request body of both blog routes. */
  datatype BlogPostBody = BlogPostBody(title: string, post: string)

  /** The name of the object that holds the log of every post. */
  const PostsKey := "posts"

  const InvalidJwt := "JWT token is not valid"

  /** `user.get("error", "")` is truthy: an "error" entry with a non-empty value. */
  predicate HasError(user: Claims)
    ensures HasError(user) ==> user != map[]
  {
    "error" in user && user["error"] != ""
  }

  /** `get_user_info_from_jwt` once the token has been exchanged and verified: an empty
      claim set becomes an error body, any other claim set is the caller. */
  function UserInfo(verified: Claims): (user: Claims)
    ensures verified == map[] ==> HasError(user) && user["error"] == InvalidJwt
    ensures verified != map[] ==> user == verified
  {
    if verified == map[] then map["error" := InvalidJwt] else verified
  }

  /** A blog handler stops with an error body exactly when the token gave no claims or
      the claims themselves carry a non-empty "error" entry. */
  lemma RefusedWhen(verified: Claims)
    ensures HasError(UserInfo(verified)) <==> verified == map[] || HasError(verified)
  {
  }

  // ---------------------------------------------------------------------------
  // Post construction

  datatype PostBuild = Built(record: Post) | MissingKey(key: string)

  /** The record `blog_send_post` builds: id and email from the verified claims (a
      `KeyError` if either is missing, "user_id" looked up first), title and text
      from the body. */
  function MakePost(user: Claims, body: BlogPostBody): (r: PostBuild)
    ensures r.Built? <==> "user_id" in user && "email" in user
    ensures r.Built? ==> r.record.userId == user["user_id"] && r.record.email == user["email"]
    ensures r.Built? ==> r.record.title == body.title && r.record.post == body.post
    ensures r.MissingKey? ==> r.key == if "user_id" !in user then "user_id" else "email"
  {
    match Get(user, "user_id")
    case KeyError(k) => MissingKey(k)
    case Found(id) =>
      match Get(user, "email")
      case KeyError(k) => MissingKey(k)
      case Found(email) => Built(Post(id, email, body.title, body.post))
  }

  // ---------------------------------------------------------------------------
  // The owner filter

  /** `[post for post in log if post['user_id'] in caller_id]`: keeps, in order, every
      post whose user_id is a SUBSTRING of the caller's user_id. */
  function OwnerFilter(log: seq<Post>, callerId: string): (r: seq<Post>)
    ensures |r| <= |log|
    ensures forall p :: p in r ==> p in log && IsSubstring(p.userId, callerId)
    decreases |log|
  {
    if log == [] then []
    else (if Contains(log[0].userId, callerId) then [log[0]] else []) + OwnerFilter(log[1..], callerId)
  }

  /** `a` is `b` with some elements dropped and the rest kept in order. */
  ghost predicate IsSubsequence<T>(a: seq<T>, b: seq<T>)
    decreases |b|
  {
    a == [] || (b != [] && ((a[0] == b[0] && IsSubsequence(a[1..], b[1..])) || IsSubsequence(a, b[1..])))
  }

  /** A subsequence of `b` is a subsequence of `b` with one more element in front. */
  lemma SkipHead<T>(a: seq<T>, x: T, b: seq<T>)
    requires IsSubsequence(a, b)
    ensures IsSubsequence(a, [x] + b)
  {
    assert ([x] + b)[1..] == b;
  }

  /** The filter drops posts but never reorders or duplicates them. */
  lemma {:induction false} FilterIsSubsequence(log: seq<Post>, callerId: string)
    ensures IsSubsequence(OwnerFilter(log, callerId), log)
    decreases |log|
  {
    if log != [] {
      FilterIsSubsequence(log[1..], callerId);
      var rest := OwnerFilter(log[1..], callerId);
      if Contains(log[0].userId, callerId) {
        assert OwnerFilter(log, callerId) == [log[0]] + rest;
        assert ([log[0]] + rest)[1..] == rest;
      } else {
        assert OwnerFilter(log, callerId) == rest;
      }
    }
  }

  /** Every post whose user_id occurs in the caller's user_id is returned. */
  lemma {:induction false} FilterComplete(log: seq<Post>, callerId: string, p: Post)
    requires p in log && Contains(p.userId, callerId)
    ensures p in OwnerFilter(log, callerId)
    decreases |log|
  {
    if log[0] != p {
      assert p in log[1..];
      FilterComplete(log[1..], callerId, p);
    }
  }

  /** Membership in the result, both directions. */
  lemma FilterMembership(log: seq<Post>, callerId: string, p: Post)
    ensures p in OwnerFilter(log, callerId) <==> p in log && IsSubstring(p.userId, callerId)
  {
    if p in log && IsSubstring(p.userId, callerId) {
      FilterComplete(log, callerId, p);
    }
  }

  /** A caller always sees the posts whose user_id is exactly theirs. */
  lemma OwnPostsIncluded(log: seq<Post>, callerId: string, p: Post)
    requires p in log && p.userId == callerId
    ensures p in OwnerFilter(log, callerId)
  {
    ContainsSelf(callerId);
    FilterComplete(log, callerId, p);
  }

  /** A post with an empty user_id is shown to every caller. */
  lemma EmptyIdSeenByAll(log: seq<Post>, callerId: string, p: Post)
    requires p in log && p.userId == ""
    ensures p in OwnerFilter(log, callerId)
  {
    FilterComplete(log, callerId, p);
  }

  /** The filter does not establish ownership: the caller "abc" is shown a post by "ab". */
  lemma FilterShowsOthersPosts()
    ensures var p := Post("ab", "ab@example.com", "t", "x");
            OwnerFilter([p], "abc") == [p] && p.userId != "abc"
  {
    var p := Post("ab", "ab@example.com", "t", "x");
    assert OccursAt("ab", "abc", 0);
    assert OwnerFilter([p][1..], "abc") == [];
  }

  /** A caller whose id contains another caller's id sees everything that caller sees. */
  lemma FilterMonotone(log: seq<Post>, shorter: string, longer: string, p: Post)
    requires Contains(shorter, longer)
    requires p in OwnerFilter(log, shorter)
    ensures p in OwnerFilter(log, longer)
  {
    ContainsTransitive(p.userId, shorter, longer);
    FilterComplete(log, longer, p);
  }

  /** Filtering a log that was extended is filtering each part. */
  lemma {:induction false} FilterAppend(a: seq<Post>, b: seq<Post>, callerId: string)
    ensures OwnerFilter(a + b, callerId) == OwnerFilter(a, callerId) + OwnerFilter(b, callerId)
    decreases |a|
  {
    if a != [] {
      assert (a + b)[1..] == a[1..] + b;
      FilterAppend(a[1..], b, callerId);
    } else {
      assert a + b == b;
    }
  }

  // ---------------------------------------------------------------------------
  // Exact ownership, for comparison

  /** The posts whose user_id equals the caller's: what an ownership test by equality keeps. */
  function ExactOwnerFilter(log: seq<Post>, callerId: string): (r: seq<Post>)
    ensures forall p :: p in r ==> p in log && p.userId == callerId
    decreases |log|
  {
    if log == [] then []
    else (if log[0].userId == callerId then [log[0]] else []) + ExactOwnerFilter(log[1..], callerId)
  }

  /** The source's filter returns everything exact ownership would, in the same order. */
  lemma {:induction false} ExactWithinOwnerFilter(log: seq<Post>, callerId: string)
    ensures IsSubsequence(ExactOwnerFilter(log, callerId), OwnerFilter(log, callerId))
    decreases |log|
  {
    if log != [] {
      ExactWithinOwnerFilter(log[1..], callerId);
      var exact, owned := ExactOwnerFilter(log[1..], callerId), OwnerFilter(log[1..], callerId);
      if log[0].userId == callerId {
        ContainsSelf(callerId);
        assert ([log[0]] + exact)[1..] == exact;
        assert ([log[0]] + owned)[1..] == owned;
      } else if Contains(log[0].userId, callerId) {
        assert ExactOwnerFilter(log, callerId) == exact;
        assert OwnerFilter(log, callerId) == [log[0]] + owned;
        SkipHead(exact, log[0], owned);
      } else {
        assert ExactOwnerFilter(log, callerId) == exact;
        assert OwnerFilter(log, callerId) == owned;
      }
    }
  }

  /** The two filters agree when no stored user_id is a proper substring of the caller's. */
  lemma {:induction false} FiltersAgree(log: seq<Post>, callerId: string)
    requires forall p :: p in log && Contains(p.userId, callerId) ==> p.userId == callerId
    ensures OwnerFilter(log, callerId) == ExactOwnerFilter(log, callerId)
    decreases |log|
  {
    if log != [] {
      assert log[0] in log;
      ContainsSelf(callerId);
      assert forall p :: p in log[1..] ==> p in log;
      FiltersAgree(log[1..], callerId);
    }
  }

  // ---------------------------------------------------------------------------
  // The handlers

  /** What a blog handler returns. */
  datatype Reply =
    | Posted(post: Post)          // `blog_send_post`: the record it appended
    | Listed(posts: seq<Post>)    // `blog_get_user_posts`: the caller's posts
    | Refused(user: Claims)       // the caller's error body, returned as is
    | Failed(key: string)         // a `KeyError` on a missing claim

  /** `blog_send_post` after the token has been verified into `verified`: builds the
      record, appends it to the log and echoes it. */
  method SendPost(bucket: Bucket<Post>, verified: Claims, body: BlogPostBody) returns (reply: Reply)
    modifies bucket
    ensures HasError(UserInfo(verified)) ==>
      reply == Refused(UserInfo(verified)) && bucket.objects == old(bucket.objects)
    ensures !HasError(UserInfo(verified)) && MakePost(verified, body).MissingKey? ==>
      reply == Failed(MakePost(verified, body).key) && bucket.objects == old(bucket.objects)
    ensures !HasError(UserInfo(verified)) && MakePost(verified, body).Built? ==>
      reply == Posted(MakePost(verified, body).record) &&
      bucket.objects == Appended(old(bucket.objects), PostsKey, reply.post)
  {
    var user := UserInfo(verified);
    if HasError(user) {
      return Refused(user);
    }
    match MakePost(user, body)
    case MissingKey(k) =>
      reply := Failed(k);
    case Built(post) =>
      bucket.ReadAppendBlob(post, PostsKey);
      reply := Posted(post);
  }

  /** `blog_get_user_posts` after the token has been verified into `verified`. The
      comprehension looks the caller's user_id up once per stored post, so an empty
      log is returned even when the claim is missing. */
  method GetUserPosts(bucket: Bucket<Post>, verified: Claims) returns (reply: Reply)
    ensures HasError(UserInfo(verified)) ==> reply == Refused(UserInfo(verified))
    ensures !HasError(UserInfo(verified)) && "user_id" in verified ==>
      reply.Listed? && reply.posts == OwnerFilter(Stored(bucket.objects, PostsKey), verified["user_id"])
    ensures !HasError(UserInfo(verified)) && "user_id" !in verified ==>
      reply == if Stored(bucket.objects, PostsKey) == [] then Listed([]) else Failed("user_id")
  {
    var user := UserInfo(verified);
    if HasError(user) {
      return Refused(user);
    }
    var content, _ := bucket.ReadBlob(PostsKey);
    match Get(user, "user_id")
    case KeyError(k) =>
      reply := if content == [] then Listed([]) else Failed(k);
    case Found(callerId) =>
      reply := Listed(OwnerFilter(content, callerId));
  }

  /** After a caller sends a post, listing with the same claims shows what it showed
      before followed by the new post: an author always sees their own post, last. */
  lemma SentPostIsListed(objects: map<string, seq<Post>>, user: Claims, body: BlogPostBody)
    requires MakePost(user, body).Built?
    ensures var p := MakePost(user, body).record;
            OwnerFilter(Stored(Appended(objects, PostsKey, p), PostsKey), user["user_id"])
            == OwnerFilter(Stored(objects, PostsKey), user["user_id"]) + [p]
  {
    var p := MakePost(user, body).record;
    var id := user["user_id"];
    FilterAppend(Stored(objects, PostsKey), [p], id);
    ContainsSelf(id);
    assert OwnerFilter([p][1..], id) == [];
  }
}
