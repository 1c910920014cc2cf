/**
 * The in-memory post store of api.js (class `BSSPlusAPI`): an ordered list of posts,
 * mirrored after every mutation into a persisted snapshot (the browser storage key
 * `bssplus_posts`).  The clock (`Date.now()`, today's date) and `parseInt` of the
 * requested id are inputs.
 */
module Api {
  import opened Options
  import opened Text
  import opened Seqs

  /** A stored post.  `createPost` copies the caller's fields without checking them, so
      title, category, content and tags may be missing. */
  datatype Post = Post(
    id: int,
    title: Option<string>,
    category: Option<string>,
    content: Option<string>,
    author: string,
    createdDate: string,
    modifiedDate: string,
    tags: Option<seq<string>>,
    status: string)

  /** The fields a caller sends to `createPost` or `updatePost`; an absent field is `None`. */
  datatype PostData = PostData(
    id: Option<int>,
    title: Option<string>,
    category: Option<string>,
    content: Option<string>,
    author: Option<string>,
    createdDate: Option<string>,
    modifiedDate: Option<string>,
    tags: Option<seq<string>>,
    status: Option<string>)

  /** The `{success, data | error, count?, message?}` envelope every operation returns
      (the `timestamp` field is left to the caller's clock). */
  datatype Envelope =
    | Single(post: Post, message: Option<string>)
    | Listing(posts: seq<Post>, count: nat, query: Option<string>, category: Option<string>)
    | Failure(error: string)
  {
    predicate Success() { !Failure? }
  }

  const NotFound := "Post not found"

  /** The two posts shown when nothing has been persisted yet. */
  const WelcomePost := Post(1, Some("Welcome to BSSPlus Platform"), Some("announcements"),
    Some("Welcome to our new content management platform! This system allows you to create, manage, and organize all your business content efficiently."),
    "System Administrator", "2024-10-15", "2024-10-15",
    Some(["welcome", "platform", "introduction"]), "published")

  const StrategyPost := Post(2, Some("Digital Transformation Strategy Guidelines"), Some("guidelines"),
    Some("Comprehensive guide to implementing digital transformation in your organization."),
    "Digital Strategy Team", "2024-10-10", "2024-10-12",
    Some(["digital transformation", "strategy", "guidelines"]), "published")

  function SamplePosts(): (r: seq<Post>)
    ensures |r| == 2 && r[0].id == 1 && r[1].id == 2
  {
    [WelcomePost, StrategyPost]
  }

  /** `p.id === parseInt(id)`; a `parseInt` result of NaN (`None`) equals nothing. */
  predicate HasId(key: Option<int>, p: Post) {
    key == Some(p.id)
  }

  /** `this.posts.findIndex(p => p.id === parseInt(id))`. */
  function IndexOf(posts: seq<Post>, key: Option<int>): (r: Option<nat>)
    ensures r.Some? ==> r.value < |posts| && HasId(key, posts[r.value])
    ensures r.Some? ==> forall j :: 0 <= j < r.value ==> !HasId(key, posts[j])
    ensures r.None? <==> forall j :: 0 <= j < |posts| ==> !HasId(key, posts[j])
  {
    FirstWhere(posts, (p: Post) => HasId(key, p))
  }

  /** The post `createPost(data)` builds: the generated id unless `data` carries one (the spread
      follows it), the caller's fields, `author` defaulting to 'API User' when missing or empty,
      both dates today, and status 'published' whatever `data` says. */
  function NewPost(data: PostData, now: int, today: string): (p: Post)
    ensures p.id == data.id.GetOr(now)
    ensures p.title == data.title && p.category == data.category
    ensures p.content == data.content && p.tags == data.tags
    ensures p.author == (if data.author.Some? && data.author.value != "" then data.author.value else "API User")
    ensures p.createdDate == today && p.modifiedDate == today && p.status == "published"
  {
    Post(data.id.GetOr(now), data.title, data.category, data.content,
         if data.author.Some? && data.author.value != "" then data.author.value else "API User",
         today, today, data.tags, "published")
  }

  /** `{...old, ...data, modifiedDate: today}`: present fields overwrite, absent ones keep their
      value, and the modification date is always today. */
  function Merge(prior: Post, data: PostData, today: string): (p: Post)
    ensures p.id == data.id.GetOr(prior.id)
    ensures p.title == (if data.title.Some? then data.title else prior.title)
    ensures p.category == (if data.category.Some? then data.category else prior.category)
    ensures p.content == (if data.content.Some? then data.content else prior.content)
    ensures p.tags == (if data.tags.Some? then data.tags else prior.tags)
    ensures p.author == data.author.GetOr(prior.author)
    ensures p.createdDate == data.createdDate.GetOr(prior.createdDate)
    ensures p.status == data.status.GetOr(prior.status)
    ensures p.modifiedDate == today
  {
    Post(data.id.GetOr(prior.id),
         if data.title.Some? then data.title else prior.title,
         if data.category.Some? then data.category else prior.category,
         if data.content.Some? then data.content else prior.content,
         data.author.GetOr(prior.author),
         data.createdDate.GetOr(prior.createdDate),
         today,
         if data.tags.Some? then data.tags else prior.tags,
         data.status.GetOr(prior.status))
  }

  // ---------------------------------------------------------------- search

  /** Whether some tag includes `q`; tags are strings. */
  function AnyTagIncludes(tags: seq<string>, q: string): (b: bool)
    ensures b <==> exists k :: 0 <= k < |tags| && IsSubstring(q, ToLower(tags[k]))
  {
    if tags == [] then false
    else if Includes(ToLower(tags[0]), q) then true
    else
      assert forall k :: 1 <= k < |tags| ==> tags[k] == tags[1..][k - 1];
      AnyTagIncludes(tags[1..], q)
  }

  /** The search predicate evaluated left to right as `||` does: `None` when it reaches a missing
      title, content or tag list (where JavaScript throws). */
  function Matches(p: Post, query: string): (r: Option<bool>)
    ensures p.title.None? ==> r.None?
    ensures r.None? ==> p.title.None? || p.content.None? || p.tags.None?
    ensures p.title.Some? && p.content.Some? && p.tags.Some? ==> r.Some?
  {
    var q := ToLower(query);
    match p.title
    case None => None
    case Some(t) =>
      if Includes(ToLower(t), q) then Some(true)
      else match p.content
        case None => None
        case Some(c) =>
          if Includes(ToLower(c), q) then Some(true)
          else match p.tags
            case None => None
            case Some(ts) => Some(AnyTagIncludes(ts, q))
  }

  /** The search criterion: the lowercased query occurs in the lowercased title, the
      lowercased content or some lowercased tag. */
  ghost predicate Mentions(p: Post, query: string) {
    var q := ToLower(query);
    || (p.title.Some? && IsSubstring(q, ToLower(p.title.value)))
    || (p.content.Some? && IsSubstring(q, ToLower(p.content.value)))
    || (p.tags.Some? && exists k :: 0 <= k < |p.tags.value| && IsSubstring(q, ToLower(p.tags.value[k])))
  }

  ghost function Mentioning(query: string): Post -> bool {
    (p: Post) => Mentions(p, query)
  }

  /** Where the evaluation does not throw, it decides `Mentions`. */
  lemma MatchesMeaning(p: Post, query: string)
    requires Matches(p, query).Some?
    ensures Matches(p, query) == Some(Mentions(p, query))
  {
  }

  /** `searchPosts(query)`: `None` when the filter throws; otherwise the matching posts. */
  function Search(posts: seq<Post>, query: string): (r: Option<seq<Post>>)
    ensures r.Some? <==> forall i :: 0 <= i < |posts| ==> Matches(posts[i], query).Some?
    ensures r.Some? ==> IsSubsequence(r.value, posts)
    ensures r.Some? ==> forall p :: p in r.value <==> p in posts && Mentions(p, query)
    ensures r.Some? ==> |r.value| == CountWhere(posts, Mentioning(query))
  {
    if forall i :: 0 <= i < |posts| ==> Matches(posts[i], query).Some? then
      var hit := (p: Post) => Matches(p, query) == Some(true);
      var r := Filter(posts, hit);
      FilterMembers(posts, hit);
      forall p | p in posts ensures hit(p) == Mentions(p, query) {
        MatchesMeaning(p, query);
      }
      CountSame(posts, hit, Mentioning(query));
      Some(r)
    else None
  }

  lemma {:induction false} CountSame<T>(s: seq<T>, p: T -> bool, q: T -> bool)
    requires forall x :: x in s ==> p(x) == q(x)
    ensures CountWhere(s, p) == CountWhere(s, q)
  {
    if s != [] {
      CountSame(s[1..], p, q);
    }
  }

  /** An empty query keeps every post whose title is present (`"".includes` is always true). */
  lemma SearchEmptyQuery(posts: seq<Post>)
    requires forall i :: 0 <= i < |posts| ==> posts[i].title.Some?
    ensures Search(posts, "") == Some(posts)
  {
    forall i | 0 <= i < |posts| ensures Matches(posts[i], "") == Some(true) {
      EmptyIsEverywhere(ToLower(posts[i].title.value));
    }
    FilterAll(posts, (p: Post) => Matches(p, "") == Some(true));
  }

  function OfCategory(category: string): Post -> bool {
    (p: Post) => p.category == Some(category)
  }

  /** `getPostsByCategory(category)`: the posts whose category is exactly `category`, in order. */
  function InCategory(posts: seq<Post>, category: string): (r: seq<Post>)
    ensures IsSubsequence(r, posts)
    ensures forall p :: p in r <==> p in posts && p.category == Some(category)
    ensures |r| == CountWhere(posts, OfCategory(category))
  {
    FilterMembers(posts, OfCategory(category));
    Filter(posts, OfCategory(category))
  }

  /** What `deletePost` keeps: every post whose id differs. */
  function WithoutId(posts: seq<Post>, key: Option<int>): (r: seq<Post>)
    ensures IsSubsequence(r, posts)
    ensures forall p :: p in r <==> p in posts && !HasId(key, p)
    ensures |r| == CountWhere(posts, (p: Post) => !HasId(key, p))
  {
    FilterMembers(posts, (p: Post) => !HasId(key, p));
    Filter(posts, (p: Post) => !HasId(key, p))
  }

  // ---------------------------------------------------------------- the store

  class BSSPlusApi {
    /** `this.posts`, newest first. */
    var posts: seq<Post>
    /** The persisted copy; `None` until something has been written. */
    var snapshot: Option<seq<Post>>

    /** `new BSSPlusAPI()` with `stored` the persisted copy found at start. */
    constructor (stored: Option<seq<Post>>)
      ensures snapshot == stored
      ensures posts == (if stored.Some? then stored.value else SamplePosts())
    {
      snapshot := stored;
      posts := [];
      new;
      LoadData();
    }

    /** `loadData`: the persisted copy when there is one, otherwise the sample posts. */
    method LoadData()
      modifies this`posts
      ensures posts == (if snapshot.Some? then snapshot.value else SamplePosts())
    {
      if snapshot.Some? {
        posts := snapshot.value;
      } else {
        LoadSampleData();
      }
    }

    /** `loadSampleData`: replaces the list with the two sample posts (ids 1 and 2). */
    method LoadSampleData()
      modifies this`posts
      ensures posts == SamplePosts()
    {
      posts := SamplePosts();
    }

    /** `getAllPosts`: the whole list with its length. */
    function GetAllPosts(): (r: Envelope)
      reads this
      ensures r.Listing? && r.posts == posts && r.count == |posts|
    {
      Listing(posts, |posts|, None, None)
    }

    /** `getPost(id)`: the first post with the id, or 'Post not found'. */
    function GetPost(key: Option<int>): (r: Envelope)
      reads this
      ensures r.Single? <==> exists i :: 0 <= i < |posts| && HasId(key, posts[i])
      ensures r.Single? ==> exists i :: 0 <= i < |posts| && r.post == posts[i] && HasId(key, posts[i])
                                        && forall j :: 0 <= j < i ==> !HasId(key, posts[j])
      ensures !r.Single? ==> r == Failure(NotFound)
    {
      match IndexOf(posts, key)
      case Some(i) => Single(posts[i], None)
      case None => Failure(NotFound)
    }

    /** `searchPosts(query)`; `None` when a post lacking a title, content or tags makes it throw. */
    function SearchPosts(query: string): (r: Option<Envelope>)
      reads this
      ensures r.Some? <==> forall i :: 0 <= i < |posts| ==> Matches(posts[i], query).Some?
      ensures r.Some? ==> r.value.Listing? && r.value.count == |r.value.posts| && r.value.query == Some(query)
      ensures r.Some? ==> IsSubsequence(r.value.posts, posts)
      ensures r.Some? ==> forall p :: p in r.value.posts <==> p in posts && Mentions(p, query)
      ensures r.Some? ==> |r.value.posts| == CountWhere(posts, Mentioning(query))
    {
      match Search(posts, query)
      case Some(found) => Some(Listing(found, |found|, Some(query), None))
      case None => None
    }

    /** `getPostsByCategory(category)`. */
    function GetPostsByCategory(category: string): (r: Envelope)
      reads this
      ensures r.Listing? && r.count == |r.posts| && r.category == Some(category)
      ensures IsSubsequence(r.posts, posts)
      ensures forall p :: p in r.posts <==> p in posts && p.category == Some(category)
      ensures |r.posts| == CountWhere(posts, OfCategory(category))
    {
      var found := InCategory(posts, category);
      Listing(found, |found|, None, Some(category))
    }

    /** `createPost(data)`: puts the new post in front and persists the list. */
    method CreatePost(data: PostData, now: int, today: string) returns (r: Envelope)
      modifies this
      ensures posts == [NewPost(data, now, today)] + old(posts)
      ensures snapshot == Some(posts)
      ensures r == Single(posts[0], Some("Post created successfully"))
    {
      var p := NewPost(data, now, today);
      posts := [p] + posts;
      snapshot := Some(posts);
      r := Single(p, Some("Post created successfully"));
    }

    /** `updatePost(id, data)`: merges `data` into the first post with the id and persists,
        or reports 'Post not found' and changes nothing. */
    method UpdatePost(key: Option<int>, data: PostData, today: string) returns (r: Envelope)
      modifies this
      ensures match IndexOf(old(posts), key)
        case Some(i) =>
          && posts == old(posts)[i := Merge(old(posts)[i], data, today)]
          && snapshot == Some(posts)
          && r == Single(posts[i], Some("Post updated successfully"))
        case None =>
          posts == old(posts) && snapshot == old(snapshot) && r == Failure(NotFound)
    {
      match IndexOf(posts, key)
      case Some(i) =>
        posts := posts[i := Merge(posts[i], data, today)];
        snapshot := Some(posts);
        r := Single(posts[i], Some("Post updated successfully"));
      case None =>
        r := Failure(NotFound);
    }

    /** `deletePost(id)`: returns the first post with the id, drops every post with that id and
        persists, or reports 'Post not found' and changes nothing. */
    method DeletePost(key: Option<int>) returns (r: Envelope)
      modifies this
      ensures match IndexOf(old(posts), key)
        case Some(i) =>
          && posts == WithoutId(old(posts), key)
          && snapshot == Some(posts)
          && r == Single(old(posts)[i], Some("Post deleted successfully"))
        case None =>
          posts == old(posts) && snapshot == old(snapshot) && r == Failure(NotFound)
    {
      match IndexOf(posts, key)
      case Some(i) =>
        var deleted := posts[i];
        posts := WithoutId(posts, key);
        snapshot := Some(posts);
        r := Single(deleted, Some("Post deleted successfully"));
      case None =>
        r := Failure(NotFound);
    }
  }

  // ---------------------------------------------------------------- properties of the operations

  /** After `createPost` the list is one longer, the new post is first and every earlier post has
      moved up one place unchanged; looking up the new post's id finds it. */
  lemma CreateShifts(posts: seq<Post>, data: PostData, now: int, today: string)
    ensures var after := [NewPost(data, now, today)] + posts;
      && |after| == |posts| + 1
      && (forall i :: 0 <= i < |posts| ==> after[i + 1] == posts[i])
      && IndexOf(after, Some(after[0].id)) == Some(0)
  {
  }

  /** An update on a hit changes only the matched post; the length is kept. */
  lemma {:induction false} UpdateTouchesOne(posts: seq<Post>, key: Option<int>, data: PostData, today: string)
    requires IndexOf(posts, key).Some?
    ensures var i := IndexOf(posts, key).value;
      var after := posts[i := Merge(posts[i], data, today)];
      && |after| == |posts|
      && (forall j :: 0 <= j < |posts| && j != i ==> after[j] == posts[j])
      && after[i].modifiedDate == today
  {
  }

  /** After a delete on a hit no post with the id remains, and a second delete misses. */
  lemma {:induction false} DeleteRemovesAll(posts: seq<Post>, key: Option<int>)
    ensures IndexOf(WithoutId(posts, key), key).None?
  {
    var after := WithoutId(posts, key);
    forall j | 0 <= j < |after| ensures !HasId(key, after[j]) {
      assert after[j] in after;
    }
  }

  /** Deleting keeps the posts with other ids in their relative order and drops at least one post on a hit. */
  lemma {:induction false} DeleteShrinks(posts: seq<Post>, key: Option<int>)
    requires IndexOf(posts, key).Some?
    ensures |WithoutId(posts, key)| < |posts|
  {
    CountBelow(posts, (p: Post) => !HasId(key, p), IndexOf(posts, key).value);
  }

  lemma {:induction false} CountBelow<T>(s: seq<T>, p: T -> bool, k: nat)
    requires k < |s| && !p(s[k])
    ensures CountWhere(s, p) < |s|
  {
    if k > 0 {
      CountBelow(s[1..], p, k - 1);
    } else {
      CountAtMost(s[1..], p);
    }
  }

  lemma {:induction false} CountAtMost<T>(s: seq<T>, p: T -> bool)
    ensures CountWhere(s, p) <= |s|
  {
    if s != [] {
      CountAtMost(s[1..], p);
    }
  }

  /** The store methods chained: a created post can be found, updated in place when its id is
      kept, and after a delete it is gone and a second delete fails. */
  method Scenario(stored: Option<seq<Post>>, title: string, now: int, today: string)
  {
    var api := new BSSPlusApi(stored);
    var created := api.CreatePost(PostData(None, Some(title), None, Some("B"), None, None, None, None, None), now, today);
    var found := api.GetPost(Some(now));
    assert found == Single(api.posts[0], None) && found.post.status == "published";
    var updated := api.UpdatePost(Some(now), PostData(None, None, Some("updates"), None, None, None, None, None, None), today);
    assert updated.Single? && updated.post.category == Some("updates") && updated.post.id == now;
    ghost var before := api.posts;
    var deleted := api.DeletePost(Some(now));
    assert deleted.Single?;
    DeleteRemovesAll(before, Some(now));
    var again := api.DeletePost(Some(now));
    assert again == Failure(NotFound);
  }
}
