/** `InMemoryBlogRepository` (src/repositories/InMemoryBlogRepository.ts).
    Its read operations are `find`/`filter`/`slice` expressions over the
    stored arrays, modelled as functions of the stored sequences; the class
    holds the three arrays and the operations that change them: the
    view-count increment and the two rankings that sort the posts in place. */
module Repository {
  import opened Sequences
  import opened Text
  import opened BlogTypes

  // ---------------------------------------------------------------- lookups

  /** `getPostById`: the first post with that id, or null. */
  function PostById(posts: seq<Post>, id: string): (r: Option<Post>)
    ensures r.None? <==> forall p :: p in posts ==> p.id != id
    ensures r.Some? ==> exists i :: 0 <= i < |posts| && posts[i] == r.value && r.value.id == id &&
                                    forall j :: 0 <= j < i ==> posts[j].id != id
  {
    Find(posts, (p: Post) => p.id == id)
  }

  /** `getPostBySlug`: the first post whose (optional) slug equals `slug`, or null. */
  function PostBySlug(posts: seq<Post>, slug: string): (r: Option<Post>)
    ensures r.None? <==> forall p :: p in posts ==> p.slug != Some(slug)
    ensures r.Some? ==> exists i :: 0 <= i < |posts| && posts[i] == r.value && r.value.slug == Some(slug) &&
                                    forall j :: 0 <= j < i ==> posts[j].slug != Some(slug)
  {
    Find(posts, (p: Post) => p.slug == Some(slug))
  }

  /** `getCategoryById`: the first category with that id, or null. */
  function CategoryById(categories: seq<Category>, id: string): (r: Option<Category>)
    ensures r.None? <==> forall c :: c in categories ==> c.id != id
    ensures r.Some? ==> exists i :: 0 <= i < |categories| && categories[i] == r.value && r.value.id == id &&
                                    forall j :: 0 <= j < i ==> categories[j].id != id
  {
    Find(categories, (c: Category) => c.id == id)
  }

  /** `getCategoryBySlug`: the first category with that slug, or null. */
  function CategoryBySlug(categories: seq<Category>, slug: string): (r: Option<Category>)
    ensures r.None? <==> forall c :: c in categories ==> c.slug != slug
    ensures r.Some? ==> exists i :: 0 <= i < |categories| && categories[i] == r.value && r.value.slug == slug &&
                                    forall j :: 0 <= j < i ==> categories[j].slug != slug
  {
    Find(categories, (c: Category) => c.slug == slug)
  }

  /** `getAuthorById`: the first author with that id, or null. */
  function AuthorById(authors: seq<Author>, id: string): (r: Option<Author>)
    ensures r.None? <==> forall a :: a in authors ==> a.id != id
    ensures r.Some? ==> exists i :: 0 <= i < |authors| && authors[i] == r.value && r.value.id == id &&
                                    forall j :: 0 <= j < i ==> authors[j].id != id
  {
    Find(authors, (a: Author) => a.id == id)
  }

  // ---------------------------------------------------------------- subsets

  /** `getPostsByCategory`: the posts filed under `categoryId`, in store order. */
  function PostsByCategory(posts: seq<Post>, categoryId: string): (r: seq<Post>)
    ensures forall p :: p in r <==> p in posts && p.category == categoryId
  {
    Filter(posts, (p: Post) => p.category == categoryId)
  }

  /** `getPostsByAuthor`: the posts whose author field is `authorId`, in store order. */
  function PostsByAuthor(posts: seq<Post>, authorId: string): (r: seq<Post>)
    ensures forall p :: p in r <==> p in posts && p.author == authorId
  {
    Filter(posts, (p: Post) => p.author == authorId)
  }

  /** `getFeaturedPosts`: the featured posts, in store order. */
  function FeaturedPosts(posts: seq<Post>): (r: seq<Post>)
    ensures forall p :: p in r <==> p in posts && p.featured
  {
    Filter(posts, (p: Post) => p.featured)
  }

  /** The selections keep store order: selecting from two halves of the store
      and joining the results is selecting from the whole. */
  lemma PostsByCategoryKeepsOrder(front: seq<Post>, back: seq<Post>, categoryId: string)
    ensures PostsByCategory(front + back, categoryId) == PostsByCategory(front, categoryId) + PostsByCategory(back, categoryId)
  {
    FilterAppend(front, back, (p: Post) => p.category == categoryId);
  }

  // ---------------------------------------------------------------- search

  /** The repository's search test: the lower-cased query occurs in the
      lower-cased title, excerpt, content or one of the tags. */
  predicate MatchesQuery(p: Post, query: string)
  {
    || ContainsIgnoringCase(p.title, query)
    || ContainsIgnoringCase(p.excerpt, query)
    || ContainsIgnoringCase(p.content, query)
    || exists t :: t in p.tags && ContainsIgnoringCase(t, query)
  }

  /** `searchPosts`: the posts matching the query, in store order. */
  function SearchPosts(posts: seq<Post>, query: string): (r: seq<Post>)
    ensures forall p :: p in r <==> p in posts && MatchesQuery(p, query)
  {
    Filter(posts, (p: Post) => MatchesQuery(p, query))
  }

  /** The repository does not special-case the empty query: it matches every post. */
  lemma SearchEmptyQueryReturnsAll(posts: seq<Post>)
    ensures SearchPosts(posts, "") == posts
  {
    forall p | p in posts ensures MatchesQuery(p, "") {
      ContainsEmpty(Lower(p.title));
    }
    FilterKeepsAll(posts, (p: Post) => MatchesQuery(p, ""));
  }

  /** The search is case-insensitive in its query. */
  lemma SearchIgnoresQueryCase(posts: seq<Post>, query: string)
    ensures SearchPosts(posts, Lower(query)) == SearchPosts(posts, query)
  {
    LowerIdempotent(query);
    FilterCongruent(posts, (p: Post) => MatchesQuery(p, Lower(query)), (p: Post) => MatchesQuery(p, query));
  }

  // ---------------------------------------------------------------- related

  /** The related-post rule: another id, and the same category or a shared tag. */
  predicate IsRelated(p: Post, current: Post, id: string)
  {
    p.id != id && (p.category == current.category || exists t :: t in p.tags && t in current.tags)
  }

  /** `getRelatedPosts`: [] for an unknown id, otherwise the first `limit`
      posts in store order that satisfy the related-post rule. */
  function RelatedPosts(posts: seq<Post>, id: string, limit: int): (r: seq<Post>)
    ensures PostById(posts, id).None? ==> r == []
    ensures forall p :: p in r ==> p in posts && p.id != id
    ensures forall p :: p in r ==> IsRelated(p, PostById(posts, id).value, id)
    ensures 0 <= limit ==> |r| <= limit
    ensures PostById(posts, id).Some? && 0 <= limit ==>
      var candidates := Filter(posts, (p: Post) => IsRelated(p, PostById(posts, id).value, id));
      r == candidates[..Min(limit, |candidates|)]
  {
    match PostById(posts, id)
    case None => []
    case Some(current) =>
      var candidates := Filter(posts, (p: Post) => IsRelated(p, current, id));
      var r := Take(candidates, limit);
      assert forall p :: p in r ==> p in candidates;
      r
  }

  // ---------------------------------------------------------------- views

  /** A post with its view count raised by one (`(viewCount || 0) + 1`). */
  function Viewed(p: Post): (q: Post)
    ensures Views(q) == Views(p) + 1
    ensures q.(viewCount := p.viewCount) == p
  {
    p.(viewCount := Some(Views(p) + 1))
  }

  /** The store after `incrementViewCount(id)`: the first post with that id
      has its count raised by exactly one and nothing else changes; an
      unknown id changes nothing. */
  function WithIncrement(posts: seq<Post>, id: string): (r: seq<Post>)
    ensures |r| == |posts|
    ensures PostById(posts, id).None? ==> r == posts
    ensures PostById(posts, id).Some? ==>
      exists i :: 0 <= i < |posts| && posts[i].id == id && (forall j :: 0 <= j < i ==> posts[j].id != id) &&
        r[i] == Viewed(posts[i]) && forall j :: 0 <= j < |posts| && j != i ==> r[j] == posts[j]
  {
    match FindIndex(posts, (p: Post) => p.id == id)
    case None => posts
    case Some(i) => posts[i := Viewed(posts[i])]
  }

  /** After the increment, looking the post up again finds the counted copy. */
  lemma PostByIdAfterIncrement(posts: seq<Post>, id: string)
    requires PostById(posts, id).Some?
    ensures PostById(WithIncrement(posts, id), id) == Some(Viewed(PostById(posts, id).value))
  {
    var r := WithIncrement(posts, id);
    var i :| 0 <= i < |posts| && posts[i].id == id && (forall j :: 0 <= j < i ==> posts[j].id != id) &&
        r[i] == Viewed(posts[i]) && forall j :: 0 <= j < |posts| && j != i ==> r[j] == posts[j];
    var k :| 0 <= k < |posts| && posts[k] == PostById(posts, id).value && posts[k].id == id &&
        forall j :: 0 <= j < k ==> posts[j].id != id;
    assert k == i;
    assert forall j :: 0 <= j < i ==> r[j].id != id;
  }

  /** The sum of all view counts in the store. */
  function TotalViews(posts: seq<Post>): (r: int)
  {
    if posts == [] then 0 else Views(posts[0]) + TotalViews(posts[1..])
  }

  lemma {:induction false} TotalViewsUpdate(posts: seq<Post>, i: nat, q: Post)
    requires i < |posts|
    ensures TotalViews(posts[i := q]) == TotalViews(posts) - Views(posts[i]) + Views(q)
  {
    if i > 0 {
      assert posts[i := q][1..] == posts[1..][i - 1 := q];
      TotalViewsUpdate(posts[1..], i - 1, q);
    } else {
      assert posts[i := q][1..] == posts[1..];
    }
  }

  /** Exactly one view is counted for a known id, none for an unknown one. */
  lemma IncrementCountsOneView(posts: seq<Post>, id: string)
    ensures TotalViews(WithIncrement(posts, id)) ==
            TotalViews(posts) + (if PostById(posts, id).Some? then 1 else 0)
  {
    match FindIndex(posts, (p: Post) => p.id == id)
    case None =>
    case Some(i) =>
      TotalViewsUpdate(posts, i, Viewed(posts[i]));
  }

  // ---------------------------------------------------------------- rankings

  /** `getPopularPosts` comparator: `(b.viewCount || 0) - (a.viewCount || 0)`. */
  function ByViewsDesc(a: Post, b: Post): (r: int)
  {
    Views(b) - Views(a)
  }

  /** `getRecentPosts` comparator: `date(b) - date(a)`. */
  function ByDateDesc(a: Post, b: Post): (r: int)
  {
    b.date - a.date
  }

  lemma ByViewsDescConsistent()
    ensures Consistent(ByViewsDesc)
  {
  }

  lemma ByDateDescConsistent()
    ensures Consistent(ByDateDesc)
  {
  }

  /** What `getPopularPosts(limit)` returns from a store in order `posts`:
      `min(limit, n)` of its posts, most viewed first. */
  lemma PopularPostsRanked(posts: seq<Post>, limit: int)
    requires 0 <= limit
    ensures var ranked := SortBy(posts, ByViewsDesc);
      && multiset(ranked) == multiset(posts)
      && |Take(ranked, limit)| == Min(limit, |posts|)
      && forall i, j :: 0 <= i < j < |Take(ranked, limit)| ==>
           Views(Take(ranked, limit)[i]) >= Views(Take(ranked, limit)[j])
  {
    SortBySorted(posts, ByViewsDesc);
  }

  /** What `getRecentPosts(limit)` returns from a store in order `posts`:
      `min(limit, n)` of its posts, newest first. */
  lemma RecentPostsRanked(posts: seq<Post>, limit: int)
    requires 0 <= limit
    ensures var ranked := SortBy(posts, ByDateDesc);
      && multiset(ranked) == multiset(posts)
      && |Take(ranked, limit)| == Min(limit, |posts|)
      && forall i, j :: 0 <= i < j < |Take(ranked, limit)| ==>
           Take(ranked, limit)[i].date >= Take(ranked, limit)[j].date
  {
    SortBySorted(posts, ByDateDesc);
  }

  // ---------------------------------------------------------------- the store

  class InMemoryBlogRepository {
    var posts: seq<Post>
    var categories: seq<Category>
    var authors: seq<Author>

    constructor (posts: seq<Post>, categories: seq<Category>, authors: seq<Author>)
      ensures this.posts == posts && this.categories == categories && this.authors == authors
    {
      this.posts := posts;
      this.categories := categories;
      this.authors := authors;
    }

    /** `incrementViewCount`: raises the stored count of the first post with
        that id; categories and authors are untouched. */
    method IncrementViewCount(id: string)
      modifies this
      ensures posts == WithIncrement(old(posts), id)
      ensures categories == old(categories) && authors == old(authors)
    {
      var found := FindIndex(posts, (p: Post) => p.id == id);
      if found.Some? {
        var i := found.value;
        posts := posts[i := Viewed(posts[i])];
      }
    }

    /** `getPopularPosts`: sorts the stored posts in place, most viewed first,
        and returns the first `limit` of them. */
    method GetPopularPosts(limit: int) returns (r: seq<Post>)
      modifies this
      ensures posts == SortBy(old(posts), ByViewsDesc)
      ensures r == Take(posts, limit)
      ensures categories == old(categories) && authors == old(authors)
    {
      posts := SortBy(posts, ByViewsDesc);
      r := Take(posts, limit);
    }

    /** `getRecentPosts`: sorts the stored posts in place, newest first, and
        returns the first `limit` of them. */
    method GetRecentPosts(limit: int) returns (r: seq<Post>)
      modifies this
      ensures posts == SortBy(old(posts), ByDateDesc)
      ensures r == Take(posts, limit)
      ensures categories == old(categories) && authors == old(authors)
    {
      posts := SortBy(posts, ByDateDesc);
      r := Take(posts, limit);
    }
  }
}
