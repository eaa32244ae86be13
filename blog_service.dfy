/** `BlogService` (src/services/BlogService.ts): filtering, sorting and
    paging of the post listing, the composite reads (a post with its related
    posts, a category or author with its posts, the home page bundle) and
    search with highlighting. The listing logic is pure and modelled as
    functions; the class holds the repository and runs the reads that change
    it (the view-count increment and the in-place rankings). */
module Service {
  import opened Sequences
  import opened Text
  import opened BlogTypes
  import opened Repository
  import opened Highlight

  /** How long the listing says its result may be cached: five minutes. */
  const ResponseTtl := 5 * 60 * 1000

  // ---------------------------------------------------------------- filters

  /** A string criterion counts only when it is truthy: present and non-empty. */
  predicate Given(criterion: Option<string>)
  {
    criterion.Some? && criterion.value != ""
  }

  /** The listing's search test: the query occurs, ignoring case, in the
      title, the excerpt or a tag (not in the content). */
  predicate MatchesSearch(p: Post, query: string)
  {
    || ContainsIgnoringCase(p.title, query)
    || ContainsIgnoringCase(p.excerpt, query)
    || exists t :: t in p.tags && ContainsIgnoringCase(t, query)
  }

  /** The test `applyFilters` applies to one post. */
  predicate PassesFilters(f: Filters, p: Post)
  {
    && (Given(f.category) ==> p.category == f.category.value)
    && (Given(f.author) ==> p.author == f.author.value)
    && (f.featured.Some? ==> p.featured == f.featured.value)
    && (f.tags.Some? ==> exists t :: t in f.tags.value && t in p.tags)
    && (Given(f.search) ==> MatchesSearch(p, f.search.value))
    && (f.dateRange.Some? ==> f.dateRange.value.start <= p.date <= f.dateRange.value.end)
  }

  /** `applyFilters`: the posts that pass every given criterion, in input order. */
  function ApplyFilters(posts: seq<Post>, f: Filters): (r: seq<Post>)
    ensures forall p :: p in r <==> p in posts && PassesFilters(f, p)
    ensures f.tags == Some([]) ==> r == []
  {
    var r := Filter(posts, (p: Post) => PassesFilters(f, p));
    assert f.tags == Some([]) ==> r == [] by {
      if f.tags == Some([]) {
        FilterKeepsNone(posts, (p: Post) => PassesFilters(f, p));
      }
    }
    r
  }

  /** One criterion of `BlogFilters`. */
  datatype Criterion = CategoryCriterion | AuthorCriterion | FeaturedCriterion
                     | TagsCriterion | SearchCriterion | DateCriterion

  /** The filters that keep criterion `c` of `f` and nothing else. */
  function Only(f: Filters, c: Criterion): (r: Filters)
  {
    match c
    case CategoryCriterion => NoFilters.(category := f.category)
    case AuthorCriterion => NoFilters.(author := f.author)
    case FeaturedCriterion => NoFilters.(featured := f.featured)
    case TagsCriterion => NoFilters.(tags := f.tags)
    case SearchCriterion => NoFilters.(search := f.search)
    case DateCriterion => NoFilters.(dateRange := f.dateRange)
  }

  /** A post passes the filters exactly when it passes each criterion alone. */
  lemma PassesEachCriterion(f: Filters, p: Post)
    ensures PassesFilters(f, p) <==> forall c: Criterion :: PassesFilters(Only(f, c), p)
  {
    if forall c: Criterion :: PassesFilters(Only(f, c), p) {
      assert PassesFilters(Only(f, CategoryCriterion), p);
      assert PassesFilters(Only(f, AuthorCriterion), p);
      assert PassesFilters(Only(f, FeaturedCriterion), p);
      assert PassesFilters(Only(f, TagsCriterion), p);
      assert PassesFilters(Only(f, SearchCriterion), p);
      assert PassesFilters(Only(f, DateCriterion), p);
    }
  }

  /** The criteria combine with AND: a post is listed exactly when each
      criterion, applied on its own, would list it. */
  lemma FiltersAreConjunctive(posts: seq<Post>, f: Filters, p: Post)
    ensures p in ApplyFilters(posts, f) <==>
      forall c: Criterion :: p in ApplyFilters(posts, Only(f, c))
  {
    PassesEachCriterion(f, p);
    if p !in posts {
      assert p !in ApplyFilters(posts, Only(f, CategoryCriterion));
    }
  }

  /** Two filters that pass the same posts list the same posts. */
  lemma ApplyFiltersCongruent(posts: seq<Post>, f: Filters, g: Filters)
    requires forall p :: PassesFilters(f, p) == PassesFilters(g, p)
    ensures ApplyFilters(posts, f) == ApplyFilters(posts, g)
  {
    FilterCongruent(posts, (p: Post) => PassesFilters(f, p), (p: Post) => PassesFilters(g, p));
  }

  /** Filtering by `f` and then by `g` is filtering once by `both`. */
  lemma ApplyFiltersTwice(posts: seq<Post>, f: Filters, g: Filters, both: Filters)
    requires forall p :: PassesFilters(both, p) == (PassesFilters(f, p) && PassesFilters(g, p))
    ensures ApplyFilters(ApplyFilters(posts, f), g) == ApplyFilters(posts, both)
  {
    FilterFilter(posts, (p: Post) => PassesFilters(f, p), (p: Post) => PassesFilters(g, p),
      (p: Post) => PassesFilters(both, p));
  }

  /** `g` with criterion `c` taken from `f`. */
  function With(g: Filters, f: Filters, c: Criterion): (r: Filters)
  {
    match c
    case CategoryCriterion => g.(category := f.category)
    case AuthorCriterion => g.(author := f.author)
    case FeaturedCriterion => g.(featured := f.featured)
    case TagsCriterion => g.(tags := f.tags)
    case SearchCriterion => g.(search := f.search)
    case DateCriterion => g.(dateRange := f.dateRange)
  }

  /** Filtering by `g` and then by criterion `c` of `f` is filtering once by
      `g` with that criterion added, when `g` does not already have it. */
  lemma ApplyFiltersAdd(posts: seq<Post>, g: Filters, f: Filters, c: Criterion)
    requires Only(g, c) == NoFilters
    ensures ApplyFilters(ApplyFilters(posts, g), Only(f, c)) == ApplyFilters(posts, With(g, f, c))
  {
    forall p: Post
      ensures PassesFilters(With(g, f, c), p) == (PassesFilters(g, p) && PassesFilters(Only(f, c), p))
    {
    }
    ApplyFiltersTwice(posts, g, Only(f, c), With(g, f, c));
  }

  /** Applying the criteria one after another, in the source's order, gives
      the same list, in the same order, as applying them all at once. */
  lemma FiltersApplyInSequence(posts: seq<Post>, f: Filters)
    ensures ApplyFilters(posts, f) ==
      ApplyFilters(ApplyFilters(ApplyFilters(ApplyFilters(ApplyFilters(ApplyFilters(posts,
        Only(f, CategoryCriterion)), Only(f, AuthorCriterion)), Only(f, FeaturedCriterion)),
        Only(f, TagsCriterion)), Only(f, SearchCriterion)), Only(f, DateCriterion))
  {
    var f1 := Only(f, CategoryCriterion);
    var f2 := With(f1, f, AuthorCriterion);
    var f3 := With(f2, f, FeaturedCriterion);
    var f4 := With(f3, f, TagsCriterion);
    var f5 := With(f4, f, SearchCriterion);
    ApplyFiltersAdd(posts, f1, f, AuthorCriterion);
    ApplyFiltersAdd(posts, f2, f, FeaturedCriterion);
    ApplyFiltersAdd(posts, f3, f, TagsCriterion);
    ApplyFiltersAdd(posts, f4, f, SearchCriterion);
    ApplyFiltersAdd(posts, f5, f, DateCriterion);
    assert With(f5, f, DateCriterion) == f;
  }

  /** Empty filters list every post. */
  lemma NoFiltersKeepAll(posts: seq<Post>)
    ensures ApplyFilters(posts, NoFilters) == posts
  {
    FilterKeepsAll(posts, (p: Post) => PassesFilters(NoFilters, p));
  }

  /** An empty category, author or search string is not a criterion: each
      one, whatever the others are, filters nothing out. */
  lemma EmptyStringsAreAbsent(posts: seq<Post>, f: Filters)
    ensures f.category == Some("") ==> ApplyFilters(posts, f) == ApplyFilters(posts, f.(category := None))
    ensures f.author == Some("") ==> ApplyFilters(posts, f) == ApplyFilters(posts, f.(author := None))
    ensures f.search == Some("") ==> ApplyFilters(posts, f) == ApplyFilters(posts, f.(search := None))
  {
    if f.category == Some("") {
      ApplyFiltersCongruent(posts, f, f.(category := None));
    }
    if f.author == Some("") {
      ApplyFiltersCongruent(posts, f, f.(author := None));
    }
    if f.search == Some("") {
      ApplyFiltersCongruent(posts, f, f.(search := None));
    }
  }

  /** The listing's search does not look at the content. */
  lemma SearchIgnoresContent(f: Filters, p: Post, content: string)
    ensures PassesFilters(f, p) == PassesFilters(f, p.(content := content))
  {
  }

  /** Both ends of the date range are included. */
  lemma DateRangeInclusive(p: Post, f: Filters)
    requires f == NoFilters.(dateRange := Some(DateRange(p.date, p.date)))
    ensures PassesFilters(f, p)
  {
  }

  // ---------------------------------------------------------------- sorting

  /** The ascending comparison `applySorting` switches on. */
  function KeyCompare(key: SortKey, a: Post, b: Post): (r: int)
  {
    match key
    case ByDate => a.date - b.date
    case ByTitle => LocaleCompare(a.title, b.title)
    case ByReadTime => a.readTime - b.readTime
    case ByViewCount => Views(a) - Views(b)
    case Unrecognised => 0
  }

  /** The comparator `applySorting` hands to `sort`: by date unless told
      otherwise, and descending unless the order is 'asc'. */
  function Comparator(sortBy: Option<SortKey>, sortOrder: Option<SortOrder>): (r: (Post, Post) -> int)
  {
    var key := if sortBy.Some? then sortBy.value else ByDate;
    var ascending := sortOrder == Some(Asc);
    (a: Post, b: Post) => if ascending then KeyCompare(key, a, b) else -KeyCompare(key, a, b)
  }

  /** `applySorting`. */
  function ApplySorting(posts: seq<Post>, sortBy: Option<SortKey>, sortOrder: Option<SortOrder>): (r: seq<Post>)
  {
    SortBy(posts, Comparator(sortBy, sortOrder))
  }

  lemma KeyCompareProperties(key: SortKey, a: Post, b: Post, c: Post)
    ensures KeyCompare(key, a, b) == -KeyCompare(key, b, a)
    ensures KeyCompare(key, a, b) <= 0 && KeyCompare(key, b, c) <= 0 ==> KeyCompare(key, a, c) <= 0
    ensures KeyCompare(key, a, b) >= 0 && KeyCompare(key, b, c) >= 0 ==> KeyCompare(key, a, c) >= 0
  {
    if key == ByTitle {
      LocaleCompareAntisymmetric(a.title, b.title);
      LocaleCompareAntisymmetric(b.title, c.title);
      LocaleCompareAntisymmetric(a.title, c.title);
      if KeyCompare(key, a, b) <= 0 && KeyCompare(key, b, c) <= 0 {
        LocaleCompareTransitive(a.title, b.title, c.title);
      }
      if KeyCompare(key, a, b) >= 0 && KeyCompare(key, b, c) >= 0 {
        LocaleCompareTransitive(c.title, b.title, a.title);
      }
    }
  }

  /** Every comparator the listing can use is a consistent one. */
  lemma ComparatorConsistent(sortBy: Option<SortKey>, sortOrder: Option<SortOrder>)
    ensures Consistent(Comparator(sortBy, sortOrder))
  {
    var key := if sortBy.Some? then sortBy.value else ByDate;
    forall a: Post, b: Post ensures KeyCompare(key, a, b) == -KeyCompare(key, b, a) {
      KeyCompareProperties(key, a, b, a);
    }
    forall a: Post, b: Post, c: Post
      ensures KeyCompare(key, a, b) <= 0 && KeyCompare(key, b, c) <= 0 ==> KeyCompare(key, a, c) <= 0
      ensures KeyCompare(key, a, b) >= 0 && KeyCompare(key, b, c) >= 0 ==> KeyCompare(key, a, c) >= 0
    {
      KeyCompareProperties(key, a, b, c);
    }
  }

  /** The sorted listing is a permutation of the filtered posts, in order. */
  lemma SortingOrdersAPermutation(posts: seq<Post>, sortBy: Option<SortKey>, sortOrder: Option<SortOrder>)
    ensures multiset(ApplySorting(posts, sortBy, sortOrder)) == multiset(posts)
    ensures SortedBy(ApplySorting(posts, sortBy, sortOrder), Comparator(sortBy, sortOrder))
  {
    ComparatorConsistent(sortBy, sortOrder);
    SortBySorted(posts, Comparator(sortBy, sortOrder));
  }

  /** Without options the listing is newest first. */
  lemma DefaultSortIsNewestFirst(posts: seq<Post>)
    ensures ApplySorting(posts, None, None) == ApplySorting(posts, Some(ByDate), Some(Desc))
    ensures var r := ApplySorting(posts, None, None);
      forall i, j :: 0 <= i < j < |r| ==> r[i].date >= r[j].date
  {
    SortingOrdersAPermutation(posts, None, None);
    var r := ApplySorting(posts, None, None);
    forall i, j | 0 <= i < j < |r| ensures r[i].date >= r[j].date {
      assert Comparator(None, None)(r[i], r[j]) <= 0;
    }
  }

  /** Descending is the ascending comparison negated. */
  lemma DescendingNegatesAscending(key: SortKey, a: Post, b: Post)
    ensures Comparator(Some(key), Some(Desc))(a, b) == -Comparator(Some(key), Some(Asc))(a, b)
    ensures Comparator(Some(key), None)(a, b) == Comparator(Some(key), Some(Desc))(a, b)
  {
  }

  /** An unrecognised sort key compares every pair as equal, and the stable
      sort then keeps the input order. */
  lemma UnrecognisedKeyKeepsOrder(posts: seq<Post>, sortOrder: Option<SortOrder>)
    ensures ApplySorting(posts, Some(Unrecognised), sortOrder) == posts
  {
    SortByOfSorted(posts, Comparator(Some(Unrecognised), sortOrder));
  }

  // ---------------------------------------------------------------- paging

  /** `Math.ceil(total / limit)`. */
  function TotalPages(total: nat, limit: int): (n: nat)
    requires limit >= 1
    ensures total == 0 ==> n == 0
    ensures total > 0 ==> (n - 1) * limit < total <= n * limit
  {
    var n := (total + limit - 1) / limit;
    assert n * limit <= total + limit - 1 < (n + 1) * limit;
    n
  }

  /** `posts.slice(startIndex, endIndex)` for page `page`. */
  function Paginate(sorted: seq<Post>, page: int, limit: int): (r: seq<Post>)
  {
    var startIndex := (page - 1) * limit;
    Slice(sorted, startIndex, startIndex + limit)
  }

  /** Where page `page` starts: never before the first post, and the next
      page starts `limit` further on. */
  lemma PageStart(page: int, limit: int)
    requires page >= 1 && limit >= 1
    ensures (page - 1) * limit >= 0
    ensures page * limit == (page - 1) * limit + limit
  {
  }

  /** `slice(start, start + len)` from a non-negative start. */
  lemma SliceFrom(s: seq<Post>, start: int, len: int)
    requires start >= 0 && len >= 1
    ensures Slice(s, start, start + len) == s[Min(start, |s|)..Min(start + len, |s|)]
    ensures |Slice(s, start, start + len)| <= len
    ensures start >= |s| ==> Slice(s, start, start + len) == []
  {
  }

  /** A page is the slice [(page-1)*limit, page*limit) of the sorted list, cut
      at its end: at most `limit` posts, and empty past the end. */
  lemma PageIsSlice(sorted: seq<Post>, page: int, limit: int)
    requires page >= 1 && limit >= 1
    ensures var start := (page - 1) * limit;
      && Paginate(sorted, page, limit) == sorted[Min(start, |sorted|)..Min(start + limit, |sorted|)]
      && |Paginate(sorted, page, limit)| <= limit
      && (start >= |sorted| ==> Paginate(sorted, page, limit) == [])
  {
    PageStart(page, limit);
    SliceFrom(sorted, (page - 1) * limit, limit);
  }

  /** A page holds only posts of the list it was cut from. */
  lemma PageHoldsListedPosts(sorted: seq<Post>, page: int, limit: int)
    ensures forall p :: p in Paginate(sorted, page, limit) ==> p in sorted
  {
    forall p | p in Paginate(sorted, page, limit) ensures p in sorted {
      var lo, hi := RelativeIndex((page - 1) * limit, |sorted|), RelativeIndex((page - 1) * limit + limit, |sorted|);
      var k :| 0 <= k < |sorted[lo..hi]| && sorted[lo..hi][k] == p;
      assert sorted[lo + k] == p;
    }
  }

  /** Pages 1..count written one after another. */
  function Pages(sorted: seq<Post>, limit: int, count: nat): (r: seq<Post>)
  {
    if count == 0 then [] else Pages(sorted, limit, count - 1) + Paginate(sorted, count, limit)
  }

  lemma PrefixThenSlice(s: seq<Post>, a: int, b: int)
    requires 0 <= a <= b <= |s|
    ensures s[..a] + s[a..b] == s[..b]
  {
  }

  lemma {:induction false} PagesArePrefix(sorted: seq<Post>, limit: int, count: nat)
    requires limit >= 1
    ensures Pages(sorted, limit, count) == sorted[..Min(count * limit, |sorted|)]
  {
    if count > 0 {
      var start, end := (count - 1) * limit, count * limit;
      PageStart(count, limit);
      PagesArePrefix(sorted, limit, count - 1);
      PageIsSlice(sorted, count, limit);
      PrefixThenSlice(sorted, Min(start, |sorted|), Min(end, |sorted|));
    }
  }

  /** Pages 1..totalPages together hold every post of the list exactly once,
      in order. */
  lemma PagesCoverList(sorted: seq<Post>, limit: int)
    requires limit >= 1
    ensures Pages(sorted, limit, TotalPages(|sorted|, limit)) == sorted
  {
    PagesArePrefix(sorted, limit, TotalPages(|sorted|, limit));
  }

  /** What `getPostsWithPagination` cuts from an ordered list: only posts of
      the list, in order, and for a page from 1 on the slice
      [(page-1)*limit, page*limit) of at most `limit` posts. */
  lemma PageOfSorted(sorted: seq<Post>, page: int, limit: int, cmp: (Post, Post) -> int)
    requires limit >= 1 && SortedBy(sorted, cmp)
    ensures forall p :: p in Paginate(sorted, page, limit) ==> p in sorted
    ensures SortedBy(Paginate(sorted, page, limit), cmp)
    ensures var start := (page - 1) * limit;
      page >= 1 ==>
        && |Paginate(sorted, page, limit)| <= limit
        && Paginate(sorted, page, limit) == sorted[Min(start, |sorted|)..Min(start + limit, |sorted|)]
  {
    var start := (page - 1) * limit;
    PageHoldsListedPosts(sorted, page, limit);
    SliceSorted(sorted, start, start + limit, cmp);
    if page >= 1 {
      PageIsSlice(sorted, page, limit);
    }
  }

  /** The listing's page holds only stored posts that pass the filters. */
  lemma PageHoldsFilteredPosts(posts: seq<Post>, filters: Filters, pagination: Pagination)
    ensures var sorted := ApplySorting(ApplyFilters(posts, filters), pagination.sortBy, pagination.sortOrder);
      forall p :: p in Paginate(sorted, pagination.page, pagination.limit) ==> p in posts && PassesFilters(filters, p)
  {
    var filtered := ApplyFilters(posts, filters);
    var sorted := ApplySorting(filtered, pagination.sortBy, pagination.sortOrder);
    SortingOrdersAPermutation(filtered, pagination.sortBy, pagination.sortOrder);
    PageHoldsListedPosts(sorted, pagination.page, pagination.limit);
    forall p | p in Paginate(sorted, pagination.page, pagination.limit)
      ensures p in posts && PassesFilters(filters, p)
    {
      assert p in multiset(sorted);
    }
  }

  /** `getPostsWithPagination` at time `now`. */
  function PostsPage(posts: seq<Post>, filters: Filters, pagination: Pagination, now: int): (r: BlogResponse)
    requires pagination.limit >= 1
    ensures r.pagination.total == |ApplyFilters(posts, filters)|
    ensures r.pagination.totalPages == TotalPages(r.pagination.total, pagination.limit)
    ensures r.pagination.page == pagination.page && r.pagination.limit == pagination.limit
    ensures forall p :: p in r.data ==> p in posts && PassesFilters(filters, p)
    ensures pagination.page >= 1 ==> |r.data| <= pagination.limit
    ensures r.data == Paginate(ApplySorting(ApplyFilters(posts, filters), pagination.sortBy, pagination.sortOrder),
      pagination.page, pagination.limit)
    ensures SortedBy(r.data, Comparator(pagination.sortBy, pagination.sortOrder))
    ensures r.meta == Meta(now, now + ResponseTtl)
  {
    var filtered := ApplyFilters(posts, filters);
    var sorted := ApplySorting(filtered, pagination.sortBy, pagination.sortOrder);
    var data := Paginate(sorted, pagination.page, pagination.limit);
    SortingOrdersAPermutation(filtered, pagination.sortBy, pagination.sortOrder);
    PageOfSorted(sorted, pagination.page, pagination.limit, Comparator(pagination.sortBy, pagination.sortOrder));
    PageHoldsFilteredPosts(posts, filters, pagination);
    BlogResponse(
      data,
      PageInfo(pagination.page, pagination.limit, |sorted|, TotalPages(|sorted|, pagination.limit)),
      Meta(now, now + ResponseTtl))
  }

  /** The listing's page p (from 1 on) is the slice [(p-1)*limit, p*limit) of
      the filtered posts once sorted by the requested comparator. */
  lemma ListingPageIsSlice(posts: seq<Post>, filters: Filters, pagination: Pagination, now: int)
    requires pagination.limit >= 1 && pagination.page >= 1
    ensures var sorted := ApplySorting(ApplyFilters(posts, filters), pagination.sortBy, pagination.sortOrder);
      var start := (pagination.page - 1) * pagination.limit;
      && start >= 0
      && PostsPage(posts, filters, pagination, now).data == sorted[Min(start, |sorted|)..Min(start + pagination.limit, |sorted|)]
  {
    var sorted := ApplySorting(ApplyFilters(posts, filters), pagination.sortBy, pagination.sortOrder);
    PageStart(pagination.page, pagination.limit);
    PageIsSlice(sorted, pagination.page, pagination.limit);
  }

  // ---------------------------------------------------------------- composite reads

  /** What `getPostWithRelated(id)` returns from a store holding `posts`:
      null for an unknown id; otherwise the post as it is after its view is
      counted, with at most three related posts chosen before the count. */
  function PostWithRelatedView(posts: seq<Post>, id: string): (r: Option<PostWithRelated>)
    ensures r.None? <==> PostById(posts, id).None?
    ensures r.Some? ==> r.value.post == Viewed(PostById(posts, id).value)
    ensures r.Some? ==> r.value.post.id == id && Views(r.value.post) == Views(PostById(posts, id).value) + 1
    ensures r.Some? ==> r.value.relatedPosts == RelatedPosts(posts, id, 3) && |r.value.relatedPosts| <= 3
  {
    match PostById(posts, id)
    case None => None
    case Some(p) => Some(PostWithRelated(Viewed(p), RelatedPosts(posts, id, 3)))
  }

  /** `getCategoryWithPosts`: null for an unknown category; otherwise the
      first category with that id and exactly the posts filed under it. */
  function CategoryView(categories: seq<Category>, posts: seq<Post>, id: string): (r: Option<CategoryWithPosts>)
    ensures r.None? <==> forall c :: c in categories ==> c.id != id
    ensures r.Some? ==> r.value.category == CategoryById(categories, id).value && r.value.category.id == id
    ensures r.Some? ==> forall p :: p in r.value.posts <==> p in posts && p.category == id
  {
    match CategoryById(categories, id)
    case None => None
    case Some(c) => Some(CategoryWithPosts(c, PostsByCategory(posts, id)))
  }

  /** `getAuthorWithPosts`: null for an unknown author; otherwise the first
      author with that id and exactly the posts that name it. */
  function AuthorView(authors: seq<Author>, posts: seq<Post>, id: string): (r: Option<AuthorWithPosts>)
    ensures r.None? <==> forall a :: a in authors ==> a.id != id
    ensures r.Some? ==> r.value.author == AuthorById(authors, id).value && r.value.author.id == id
    ensures r.Some? ==> forall p :: p in r.value.posts <==> p in posts && p.author == id
  {
    match AuthorById(authors, id)
    case None => None
    case Some(a) => Some(AuthorWithPosts(a, PostsByAuthor(posts, id)))
  }

  /** A search hit with its title and excerpt highlighted. */
  function Highlighted(p: Post, query: string): (q: Post)
    ensures q.(title := p.title, excerpt := p.excerpt) == p
  {
    p.(title := HighlightText(p.title, query), excerpt := HighlightText(p.excerpt, query))
  }

  /** `searchPostsWithHighlight`: the repository's hits, in order, each with
      its title and excerpt highlighted and every other field as stored. */
  function SearchWithHighlight(posts: seq<Post>, query: string): (r: seq<Post>)
    ensures |r| == |SearchPosts(posts, query)|
    ensures forall i :: 0 <= i < |r| ==>
      var hit := SearchPosts(posts, query)[i];
      && r[i].(title := hit.title, excerpt := hit.excerpt) == hit
      && r[i].title == HighlightText(hit.title, query)
      && r[i].excerpt == HighlightText(hit.excerpt, query)
  {
    var hits := SearchPosts(posts, query);
    seq(|hits|, i requires 0 <= i < |hits| => Highlighted(hits[i], query))
  }

  /** The number of results of a highlighted search that ends in the
      repository's own search: for the empty query, every post. */
  lemma EmptySearchHighlightsEveryPost(posts: seq<Post>)
    ensures |SearchWithHighlight(posts, "")| == |posts|
  {
    SearchEmptyQueryReturnsAll(posts);
  }

  /** The home page bundle gathered from a store in order `posts`: the
      featured posts in store order, then the five newest (which sorts the
      store by date), then the five most viewed (which sorts it again). */
  function HomePageView(posts: seq<Post>, categories: seq<Category>): (r: HomePageData)
    ensures r.featuredPosts == FeaturedPosts(posts)
    ensures forall p :: p in r.featuredPosts <==> p in posts && p.featured
    ensures r.recentPosts == Take(SortBy(posts, ByDateDesc), 5)
    ensures r.popularPosts == Take(StoreAfterHomePage(posts), 5)
    ensures multiset(r.recentPosts) <= multiset(posts) && multiset(r.popularPosts) <= multiset(posts)
    ensures |r.recentPosts| == Min(5, |posts|) && |r.popularPosts| == Min(5, |posts|)
    ensures forall i, j :: 0 <= i < j < |r.recentPosts| ==> r.recentPosts[i].date >= r.recentPosts[j].date
    ensures forall i, j :: 0 <= i < j < |r.popularPosts| ==>
      Views(r.popularPosts[i]) > Views(r.popularPosts[j]) ||
      (Views(r.popularPosts[i]) == Views(r.popularPosts[j]) && r.popularPosts[i].date >= r.popularPosts[j].date)
    ensures r.categories == categories
  {
    var byDate := SortBy(posts, ByDateDesc);
    var byViews := SortBy(byDate, ByViewsDesc);
    RecentPostsRanked(posts, 5);
    ByDateDescConsistent();
    ByViewsDescConsistent();
    SortBySorted(posts, ByDateDesc);
    SortByKeepsTiesInOrder(byDate, ByViewsDesc, ByDateDesc);
    TakeIsSubMultiset(byDate, 5);
    TakeIsSubMultiset(byViews, 5);
    HomePageData(FeaturedPosts(posts), Take(byDate, 5), Take(byViews, 5), categories)
  }

  /** The store order the home page bundle leaves behind. */
  function StoreAfterHomePage(posts: seq<Post>): (r: seq<Post>)
  {
    SortBy(SortBy(posts, ByDateDesc), ByViewsDesc)
  }

  /** After the home page is gathered, the whole store is ordered by view
      count, ties newest first, whatever its order was before. */
  lemma HomePageReordersStore(posts: seq<Post>)
    ensures multiset(StoreAfterHomePage(posts)) == multiset(posts)
    ensures SortedThenBy(StoreAfterHomePage(posts), ByViewsDesc, ByDateDesc)
  {
    ByDateDescConsistent();
    ByViewsDescConsistent();
    SortBySorted(posts, ByDateDesc);
    SortByKeepsTiesInOrder(SortBy(posts, ByDateDesc), ByViewsDesc, ByDateDesc);
  }

  // ---------------------------------------------------------------- the service

  class BlogService {
    const repository: InMemoryBlogRepository

    constructor (repository: InMemoryBlogRepository)
      ensures this.repository == repository
    {
      this.repository := repository;
    }

    /** `getPostsWithPagination`; reads the store without reordering it
        (`getAllPosts` hands out a copy). */
    method GetPostsWithPagination(filters: Filters, pagination: Pagination, now: int) returns (r: BlogResponse)
      requires pagination.limit >= 1
      ensures r == PostsPage(repository.posts, filters, pagination, now)
    {
      var posts := repository.posts;
      posts := ApplyFilters(posts, filters);
      posts := ApplySorting(posts, pagination.sortBy, pagination.sortOrder);
      var total := |posts|;
      var totalPages := TotalPages(total, pagination.limit);
      var startIndex := (pagination.page - 1) * pagination.limit;
      var endIndex := startIndex + pagination.limit;
      var paginatedPosts := Slice(posts, startIndex, endIndex);
      assert paginatedPosts == Paginate(posts, pagination.page, pagination.limit);
      r := BlogResponse(
        paginatedPosts,
        PageInfo(pagination.page, pagination.limit, total, totalPages),
        Meta(now, now + ResponseTtl));
    }

    /** `getPostWithRelated`: null and no change for an unknown id; otherwise
        the related posts are chosen, the view is counted in the store, and
        the post is copied as it is after the count. */
    method GetPostWithRelated(id: string) returns (r: Option<PostWithRelated>)
      modifies repository
      ensures r == PostWithRelatedView(old(repository.posts), id)
      ensures repository.posts == WithIncrement(old(repository.posts), id)
      ensures repository.categories == old(repository.categories)
      ensures repository.authors == old(repository.authors)
    {
      var post := PostById(repository.posts, id);
      if post.None? {
        return None;
      }
      var relatedPosts := RelatedPosts(repository.posts, id, 3);
      repository.IncrementViewCount(id);
      PostByIdAfterIncrement(old(repository.posts), id);
      var counted := PostById(repository.posts, id).value;
      r := Some(PostWithRelated(counted, relatedPosts));
    }

    /** `getCategoryWithPosts`. */
    method GetCategoryWithPosts(categoryId: string) returns (r: Option<CategoryWithPosts>)
      ensures r == CategoryView(repository.categories, repository.posts, categoryId)
    {
      var category := CategoryById(repository.categories, categoryId);
      if category.None? {
        return None;
      }
      var posts := PostsByCategory(repository.posts, categoryId);
      r := Some(CategoryWithPosts(category.value, posts));
    }

    /** `getAuthorWithPosts`. */
    method GetAuthorWithPosts(authorId: string) returns (r: Option<AuthorWithPosts>)
      ensures r == AuthorView(repository.authors, repository.posts, authorId)
    {
      var author := AuthorById(repository.authors, authorId);
      if author.None? {
        return None;
      }
      var posts := PostsByAuthor(repository.posts, authorId);
      r := Some(AuthorWithPosts(author.value, posts));
    }

    /** `searchPostsWithHighlight`. */
    method SearchPostsWithHighlight(query: string) returns (r: seq<Post>)
      ensures r == SearchWithHighlight(repository.posts, query)
    {
      var posts := SearchPosts(repository.posts, query);
      r := [];
      for i := 0 to |posts|
        invariant r == seq(i, k requires 0 <= k < i => Highlighted(posts[k], query))
      {
        r := r + [Highlighted(posts[i], query)];
      }
    }

    /** `getHomePageData`: the four reads run in array order, so the featured
        posts are taken before the two rankings reorder the store. */
    method GetHomePageData() returns (r: HomePageData)
      modifies repository
      ensures r == HomePageView(old(repository.posts), old(repository.categories))
      ensures repository.posts == StoreAfterHomePage(old(repository.posts))
      ensures repository.categories == old(repository.categories)
      ensures repository.authors == old(repository.authors)
    {
      var featuredPosts := FeaturedPosts(repository.posts);
      var recentPosts := repository.GetRecentPosts(5);
      var popularPosts := repository.GetPopularPosts(5);
      var categories := repository.categories;
      r := HomePageData(featuredPosts, recentPosts, popularPosts, categories);
    }

    /** `getAllCategories`: a copy of the stored categories. */
    method GetAllCategories() returns (r: seq<Category>)
      ensures r == repository.categories
    {
      r := repository.categories;
    }

    /** `getAllAuthors`: a copy of the stored authors. */
    method GetAllAuthors() returns (r: seq<Author>)
      ensures r == repository.authors
    {
      r := repository.authors;
    }
  }
}
