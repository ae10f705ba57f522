/** The patent listing page: image URL normalisation, normalisation of the
    post lists the API returns, the like toggle, the category tags and the
    search filter. HTTP requests are outside the model; their responses are
    inputs. */
module Patents {
  import opened Js

  const AllCategories := "전체 카테고리"

  /** `categoryNameMap`: category code to its Korean label. */
  const CategoryNames: map<string, string> := map[
    "PRODUCT" := "물건발명",
    "METHOD" := "방법발명",
    "USE" := "용도발명",
    "DESIGN" := "디자인권",
    "TRADEMARK" := "상표권",
    "COPYRIGHT" := "저작권",
    "ETC" := "기타"]

  /** A post; `isLiked == None` is null or undefined. */
  datatype Post = Post(
    id: int,
    title: string,
    category: string,
    favoriteCnt: int,
    isLiked: Option<bool>,
    imageUrl: Option<string>)

  /** Response data of a post-list request: absent, an array of posts, an
      object whose `data` field holds the payload, or any other value. */
  datatype Body = Missing | Items(posts: seq<Post>) | Envelope(data: Body) | Scalar(truthy: bool)

  datatype FetchOutcome = Fetched(popular: Body, recent: Body) | FetchFailed

  /** The tag state: the highlighted tag and the category the filter uses. */
  datatype CategoryFilter = CategoryFilter(activeTag: Option<string>, selectedCategory: string)

  const Cleared := CategoryFilter(None, AllCategories)

  predicate IsAbsolute(url: string)
  {
    StartsWith(url, "http://") || StartsWith(url, "https://")
  }

  /** `getFullImageUrl`: no URL for an absent or empty one, an absolute URL
      unchanged, a relative one prefixed with the API base URL. */
  function GetFullImageUrl(url: Option<string>, baseUrl: string): (r: Option<string>)
    ensures r.None? <==> url.None? || url.value == ""
    ensures r.Some? && IsAbsolute(url.value) ==> r == url
    ensures r.Some? && !IsAbsolute(url.value) ==> r == Some(baseUrl + url.value)
  {
    if url.None? || url.value == "" then None
    else if IsAbsolute(url.value) then url
    else Some(baseUrl + url.value)
  }

  /** With an absolute base URL every image URL comes out absolute, so
      normalising a second time changes nothing. */
  lemma FullImageUrlIdempotent(url: Option<string>, baseUrl: string)
    requires IsAbsolute(baseUrl)
    ensures var r := GetFullImageUrl(url, baseUrl);
      (r.Some? ==> IsAbsolute(r.value)) && GetFullImageUrl(r, baseUrl) == r
  {
    var r := GetFullImageUrl(url, baseUrl);
    if r.Some? && !IsAbsolute(url.value) {
      var u := url.value;
      if StartsWith(baseUrl, "http://") {
        assert (baseUrl + u)[..|"http://"|] == baseUrl[..|"http://"|];
      } else {
        assert (baseUrl + u)[..|"https://"|] == baseUrl[..|"https://"|];
      }
    }
  }

  function BodyTruthy(b: Body): bool
  {
    match b
    case Missing => false
    case Items(_) => true
    case Envelope(_) => true
    case Scalar(t) => t
  }

  /** `data?.data || data || []`: the nested payload when it is truthy,
      else the payload itself when truthy, else an empty array. */
  function Unwrap(b: Body): (r: Body)
    ensures b.Envelope? && BodyTruthy(b.data) ==> r == b.data
    ensures !(b.Envelope? && BodyTruthy(b.data)) && BodyTruthy(b) ==> r == b
    ensures !BodyTruthy(b) ==> r == Items([])
    ensures BodyTruthy(r)
  {
    var inner := if b.Envelope? then b.data else Missing;
    if BodyTruthy(inner) then inner
    else if BodyTruthy(b) then b
    else Items([])
  }

  /** One post as the page keeps it: image URL normalised, `isLiked ?? false`. */
  function NormalizePost(p: Post, baseUrl: string): (q: Post)
    ensures q.id == p.id && q.title == p.title && q.category == p.category && q.favoriteCnt == p.favoriteCnt
    ensures q.isLiked.Some?
    ensures p.isLiked.Some? ==> q.isLiked == p.isLiked
    ensures p.isLiked.None? ==> q.isLiked == Some(false)
    ensures q.imageUrl == GetFullImageUrl(p.imageUrl, baseUrl)
  {
    p.(imageUrl := GetFullImageUrl(p.imageUrl, baseUrl), isLiked := Some(p.isLiked.GetOr(false)))
  }

  /** The list built from a response: empty unless the payload is an array,
      otherwise every post normalised, in order. */
  function NormalizePosts(raw: Body, baseUrl: string): (r: seq<Post>)
    ensures !Unwrap(raw).Items? ==> r == []
    ensures Unwrap(raw).Items? ==>
      |r| == |Unwrap(raw).posts|
      && forall i :: 0 <= i < |r| ==> r[i] == NormalizePost(Unwrap(raw).posts[i], baseUrl)
  {
    var data := Unwrap(raw);
    if data.Items? then seq(|data.posts|, i requires 0 <= i < |data.posts| => NormalizePost(data.posts[i], baseUrl))
    else []
  }

  /** A payload nested one level under `data`, or given directly, yields the
      same list; a payload with no array yields an empty list. */
  lemma NormalizeEnvelope(ps: seq<Post>, baseUrl: string)
    ensures NormalizePosts(Envelope(Items(ps)), baseUrl) == NormalizePosts(Items(ps), baseUrl)
    ensures |NormalizePosts(Items(ps), baseUrl)| == |ps|
    ensures NormalizePosts(Envelope(Scalar(true)), baseUrl) == []
    ensures NormalizePosts(Missing, baseUrl) == []
  {
  }

  /** `slice(0, n)` */
  function Take(s: seq<Post>, n: nat): (r: seq<Post>)
    ensures |r| <= n && |r| <= |s|
    ensures r <= s
    ensures |s| <= n ==> r == s
    ensures |s| > n ==> |r| == n
  {
    if |s| <= n then s else s[..n]
  }

  /** `handleCategoryClick`: clicking the active tag clears the filter,
      clicking another tag makes it both the active tag and the category. */
  function ClickTag(f: CategoryFilter, c: string): (g: CategoryFilter)
    ensures f.activeTag == Some(c) ==> g == Cleared
    ensures f.activeTag != Some(c) ==> g.activeTag == Some(c) && g.selectedCategory == c
  {
    if f.activeTag == Some(c) then Cleared else CategoryFilter(Some(c), c)
  }

  /** Clicking a tag twice, from any state where it is not active, ends in
      the cleared state; after any click the tag and the category agree. */
  lemma ClickTagTwice(f: CategoryFilter, c: string)
    requires f.activeTag != Some(c)
    ensures ClickTag(ClickTag(f, c), c) == Cleared
    ensures var g := ClickTag(f, c);
      g.activeTag.Some? ==> g.selectedCategory == g.activeTag.value
  {
  }

  /** The post after a successful like request: the flag flipped and the
      counter moved with it. */
  function Toggle(p: Post): Post
  {
    var liked := p.isLiked == Some(true);
    p.(isLiked := Some(!liked), favoriteCnt := if liked then p.favoriteCnt - 1 else p.favoriteCnt + 1)
  }

  /** The `map` update of `toggleLike`: only posts with id `postId` change. */
  function ToggleLiked(ps: seq<Post>, postId: int): (r: seq<Post>)
    ensures |r| == |ps|
    ensures forall i :: 0 <= i < |ps| && ps[i].id != postId ==> r[i] == ps[i]
    ensures forall i :: 0 <= i < |ps| && ps[i].id == postId ==>
      && r[i].id == ps[i].id && r[i].title == ps[i].title && r[i].category == ps[i].category
      && r[i].imageUrl == ps[i].imageUrl
      && r[i].isLiked == Some(ps[i].isLiked != Some(true))
      && r[i].favoriteCnt == (if ps[i].isLiked == Some(true) then ps[i].favoriteCnt - 1 else ps[i].favoriteCnt + 1)
  {
    seq(|ps|, i requires 0 <= i < |ps| => if ps[i].id == postId then Toggle(ps[i]) else ps[i])
  }

  /** On normalised posts two successful toggles cancel out. */
  lemma ToggleLikedTwice(ps: seq<Post>, postId: int)
    requires forall i :: 0 <= i < |ps| ==> ps[i].isLiked.Some?
    ensures ToggleLiked(ToggleLiked(ps, postId), postId) == ps
  {
    var once := ToggleLiked(ps, postId);
    var r := ToggleLiked(once, postId);
    forall i | 0 <= i < |ps|
      ensures r[i] == ps[i]
    {
      if ps[i].id == postId {
        var p := ps[i];
        assert once[i] == Toggle(p);
        assert r[i] == Toggle(Toggle(p));
        if p.isLiked == Some(true) {
          assert Toggle(Toggle(p)) == p;
        } else {
          assert p.isLiked.Some? && !p.isLiked.value;
          assert Toggle(Toggle(p)) == p;
        }
      }
    }
  }

  datatype LikeRequest = DeleteLike | PostLike

  /** The request `toggleLike` sends: DELETE when the first post with that id
      in the recent list is liked, POST otherwise. */
  function LikeRequestFor(posts: seq<Post>, postId: int): (m: LikeRequest)
    ensures m == DeleteLike <==>
      exists i :: 0 <= i < |posts| && posts[i].id == postId && posts[i].isLiked == Some(true)
                  && forall j :: 0 <= j < i ==> posts[j].id != postId
  {
    var k := FindIndex(posts, (p: Post) => p.id == postId);
    if k.Some? && posts[k.value].isLiked == Some(true) then DeleteLike else PostLike
  }

  /** The search and category predicate of `filteredPosts`; `lower` is
      `toLowerCase`. */
  predicate Matches(p: Post, keyword: string, selected: string, lower: string -> string)
    ensures Matches(p, keyword, selected, lower) ==> Includes(lower(p.title), lower(keyword))
    ensures selected == AllCategories ==>
      (Matches(p, keyword, selected, lower) <==> Includes(lower(p.title), lower(keyword)))
    ensures lower(keyword) == "" && selected != AllCategories ==>
      (Matches(p, keyword, selected, lower) <==> p.category in CategoryNames && CategoryNames[p.category] == selected)
  {
    IncludesEmpty(lower(p.title));
    Includes(lower(p.title), lower(keyword))
    && (selected == AllCategories || (p.category in CategoryNames && CategoryNames[p.category] == selected))
  }

  /** `filteredPosts` */
  function FilteredPosts(posts: seq<Post>, keyword: string, selected: string, lower: string -> string): (r: seq<Post>)
    ensures |r| <= |posts|
    ensures forall i :: 0 <= i < |r| ==> Matches(r[i], keyword, selected, lower)
    decreases |posts|
  {
    if posts == [] then []
    else
      var rest := FilteredPosts(posts[1..], keyword, selected, lower);
      if Matches(posts[0], keyword, selected, lower) then [posts[0]] + rest else rest
  }

  /** `a` is `b` with some elements left out, order kept. */
  predicate IsSublist(a: seq<Post>, b: seq<Post>)
    decreases |b|
  {
    if a == [] then true
    else if b == [] then false
    else (a[0] == b[0] && IsSublist(a[1..], b[1..])) || IsSublist(a, b[1..])
  }

  /** The filter keeps the order of the posts and every matching post,
      each as many times as it occurs. */
  lemma {:induction false} FilteredIsOrderedSublist(posts: seq<Post>, keyword: string, selected: string, lower: string -> string)
    ensures IsSublist(FilteredPosts(posts, keyword, selected, lower), posts)
    ensures forall i :: 0 <= i < |posts| && Matches(posts[i], keyword, selected, lower) ==>
      posts[i] in FilteredPosts(posts, keyword, selected, lower)
    ensures forall q ::
      multiset(FilteredPosts(posts, keyword, selected, lower))[q] ==
        (if Matches(q, keyword, selected, lower) then multiset(posts)[q] else 0)
    decreases |posts|
  {
    if posts != [] {
      FilteredIsOrderedSublist(posts[1..], keyword, selected, lower);
      var rest := FilteredPosts(posts[1..], keyword, selected, lower);
      assert posts == [posts[0]] + posts[1..];
      assert multiset(posts) == multiset([posts[0]]) + multiset(posts[1..]);
      if !Matches(posts[0], keyword, selected, lower) && rest != [] {
        assert IsSublist(rest, posts);
      }
      forall i | 0 <= i < |posts| && Matches(posts[i], keyword, selected, lower)
        ensures posts[i] in FilteredPosts(posts, keyword, selected, lower)
      {
        if i > 0 {
          assert posts[i] == posts[1..][i - 1];
        }
      }
    }
  }

  /** An empty keyword under "all categories" keeps every post. */
  lemma {:induction false} FilterKeepsAll(posts: seq<Post>, lower: string -> string)
    requires lower("") == ""
    ensures FilteredPosts(posts, "", AllCategories, lower) == posts
    decreases |posts|
  {
    if posts != [] {
      IncludesEmpty(lower(posts[0].title));
      FilterKeepsAll(posts[1..], lower);
      assert [posts[0]] + posts[1..] == posts;
    }
  }

  /** The state of the listing page. */
  class PatentsPage {
    var posts: seq<Post>
    var popularPosts: seq<Post>
    var loading: bool
    var searchTerm: string
    var searchKeyword: string
    var selectedCategory: string
    var activeTag: Option<string>

    constructor ()
      ensures posts == [] && popularPosts == [] && loading
      ensures searchTerm == "" && searchKeyword == ""
      ensures CategoryFilter(activeTag, selectedCategory) == Cleared
    {
      posts := [];
      popularPosts := [];
      loading := true;
      searchTerm := "";
      searchKeyword := "";
      selectedCategory := AllCategories;
      activeTag := None;
    }

    /** `fetchData` up to its `await`. */
    method StartFetch()
      modifies this`loading
      ensures loading
    {
      loading := true;
    }

    /** `fetchData` after both requests settled: the popular list keeps at
        most ten posts; a failure empties both lists; loading always ends. */
    method FinishFetch(outcome: FetchOutcome, baseUrl: string)
      modifies this`posts, this`popularPosts, this`loading
      ensures !loading
      ensures outcome.FetchFailed? ==> posts == [] && popularPosts == []
      ensures outcome.Fetched? ==>
        && popularPosts == Take(NormalizePosts(outcome.popular, baseUrl), 10)
        && posts == NormalizePosts(outcome.recent, baseUrl)
      ensures |popularPosts| <= 10
    {
      match outcome {
        case FetchFailed =>
          popularPosts := [];
          posts := [];
        case Fetched(popular, recent) =>
          var popularData := NormalizePosts(popular, baseUrl);
          popularPosts := Take(popularData, 10);
          posts := NormalizePosts(recent, baseUrl);
      }
      loading := false;
    }

    /** `handleCategoryClick` */
    method HandleCategoryClick(category: string)
      modifies this`activeTag, this`selectedCategory
      ensures CategoryFilter(activeTag, selectedCategory)
              == ClickTag(old(CategoryFilter(activeTag, selectedCategory)), category)
    {
      if activeTag == Some(category) {
        activeTag := None;
        selectedCategory := AllCategories;
      } else {
        activeTag := Some(category);
        selectedCategory := category;
      }
    }

    /** The category dropdown's change handler: it sets the category and
        leaves the highlighted tag as it is. */
    method SelectCategory(category: string)
      modifies this`selectedCategory
      ensures selectedCategory == category
    {
      selectedCategory := category;
    }

    /** The search input's change handler: it records the typed term; the
        filter keyword stays until the search is submitted. */
    method TypeSearchTerm(term: string)
      modifies this`searchTerm
      ensures searchTerm == term
    {
      searchTerm := term;
    }

    /** `handleSearch`: the typed term becomes the filter keyword. */
    method HandleSearch()
      modifies this`searchKeyword
      ensures searchKeyword == searchTerm
    {
      searchKeyword := searchTerm;
    }

    /** The end of `toggleLike`: on status 200 or 201 both lists get the
        toggle, otherwise neither changes. */
    method ApplyLikeResponse(postId: int, status: int)
      modifies this`posts, this`popularPosts
      ensures status == 200 || status == 201 ==>
        posts == ToggleLiked(old(posts), postId) && popularPosts == ToggleLiked(old(popularPosts), postId)
      ensures status != 200 && status != 201 ==>
        posts == old(posts) && popularPosts == old(popularPosts)
    {
      if status == 200 || status == 201 {
        posts := ToggleLiked(posts, postId);
        popularPosts := ToggleLiked(popularPosts, postId);
      }
    }
  }
}
