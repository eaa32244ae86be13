/** The read-through cache of src/services/CachedBlogService.ts: `BlogCache`,
    a map from string keys to entries that expire a fixed time after they are
    written, and `CachedBlogService`, which answers the service's reads from
    that map when it can and otherwise asks the service and remembers the
    answer. `Date.now()` is the parameter `now`. */
module Cache {
  import opened Sequences
  import opened BlogTypes
  import opened Repository
  import opened Service

  /** Five minutes, in milliseconds. */
  const DefaultTtl := 5 * 60 * 1000

  /** The values the service stores, one variant per cached read. */
  datatype CachedValue =
    | Listing(response: BlogResponse)
    | PostDetail(detail: PostWithRelated)
    | CategoryDetail(categoryDetail: CategoryWithPosts)
    | AuthorDetail(authorDetail: AuthorWithPosts)
    | HomePage(home: HomePageData)

  /** `CacheEntry<T>`: the value, when it was written and when it expires. */
  datatype CacheEntry = CacheEntry(data: CachedValue, timestamp: int, expiry: int)

  // ---------------------------------------------------------------- reading and writing

  /** What `get(key)` answers at time `now`: the stored value until its expiry
      time, inclusive, and nothing for a missing or expired key. */
  function Lookup(entries: map<string, CacheEntry>, key: string, now: int): (r: Option<CachedValue>)
    ensures r.Some? <==> key in entries && now <= entries[key].expiry
    ensures r.Some? ==> r.value == entries[key].data
  {
    if key in entries && now <= entries[key].expiry then Some(entries[key].data) else None
  }

  /** The map `get(key)` leaves behind: an expired entry for `key` is dropped,
      and nothing else changes. */
  function AfterGet(entries: map<string, CacheEntry>, key: string, now: int): (r: map<string, CacheEntry>)
    ensures forall k :: k in r ==> k in entries && r[k] == entries[k]
    ensures forall k :: k in entries && k != key ==> k in r
    ensures Lookup(entries, key, now).Some? ==> r == entries
    ensures Lookup(entries, key, now).None? ==> key !in r
  {
    if key in entries && now > entries[key].expiry then entries - {key} else entries
  }

  /** The map `set(key, data, ttl)` leaves behind at time `now`. */
  function Stored(entries: map<string, CacheEntry>, key: string, data: CachedValue, ttl: int, now: int): (r: map<string, CacheEntry>)
  {
    entries[key := CacheEntry(data, now, now + ttl)]
  }

  /** An entry written at `written` is served, unchanged, exactly until
      `written + ttl`, and writing one key does not affect what any other key
      answers. */
  lemma LookupAfterSet(entries: map<string, CacheEntry>, key: string, data: CachedValue, ttl: int, written: int, now: int, other: string)
    requires other != key
    ensures Lookup(Stored(entries, key, data, ttl, written), key, now) == if now <= written + ttl then Some(data) else None
    ensures Lookup(Stored(entries, key, data, ttl, written), other, now) == Lookup(entries, other, now)
  {
  }

  /** With the default lifetime an entry is still served 300000 ms after it
      was written, and no longer one millisecond later. */
  lemma DefaultLifetime(entries: map<string, CacheEntry>, key: string, data: CachedValue, written: int)
    ensures Lookup(Stored(entries, key, data, DefaultTtl, written), key, written + 300000) == Some(data)
    ensures Lookup(Stored(entries, key, data, DefaultTtl, written), key, written + 300001) == None
  {
  }

  /** Freshness only runs out: a key that answers at some time answered at
      every earlier time, and one that misses misses at every later time. */
  lemma FreshnessOnlyRunsOut(entries: map<string, CacheEntry>, key: string, earlier: int, later: int)
    requires earlier <= later
    ensures Lookup(entries, key, later).Some? ==> Lookup(entries, key, earlier) == Lookup(entries, key, later)
    ensures Lookup(entries, key, earlier).None? ==> Lookup(entries, key, later).None?
  {
  }

  /** Dropping an expired entry on read is invisible: from then on every key
      answers as it would have without the drop. */
  lemma LazyExpiryIsInvisible(entries: map<string, CacheEntry>, key: string, now: int, later: int, k: string)
    requires now <= later
    ensures Lookup(AfterGet(entries, key, now), k, later) == Lookup(entries, k, later)
  {
    if k == key && key in entries && now > entries[key].expiry {
      assert later > entries[key].expiry;
    }
  }

  // ---------------------------------------------------------------- keys

  /** A string as `JSON.stringify` writes one that needs no escaping. */
  function Quoted(s: string): (r: string)
  {
    "\"" + s + "\""
  }

  function DigitChar(d: nat): (r: char)
    requires d < 10
  {
    "0123456789"[d]
  }

  /** The decimal numeral of `n`. */
  function Decimal(n: nat): (r: string)
  {
    if n < 10 then [DigitChar(n)] else Decimal(n / 10) + [DigitChar(n % 10)]
  }

  function IntJson(i: int): (r: string)
  {
    if i < 0 then "-" + Decimal(-i) else Decimal(i)
  }

  function BoolJson(b: bool): (r: string)
  {
    if b then "true" else "false"
  }

  function StringsJson(s: seq<string>): (r: string)
  {
    if s == [] then ""
    else if |s| == 1 then Quoted(s[0])
    else Quoted(s[0]) + "," + StringsJson(s[1..])
  }

  /** The members of a JSON object, separated by commas. */
  function Members(fields: seq<string>): (r: string)
  {
    if fields == [] then ""
    else if |fields| == 1 then fields[0]
    else fields[0] + "," + Members(fields[1..])
  }

  /** `"name":value` when the property is set; an absent one is omitted, as
      `JSON.stringify` omits `undefined` properties. */
  function Field(name: string, value: Option<string>): (r: seq<string>)
  {
    if value.Some? then [Quoted(name) + ":" + value.value] else []
  }

  function MapOption<A, B>(o: Option<A>, f: A -> B): (r: Option<B>)
  {
    if o.Some? then Some(f(o.value)) else None
  }

  function FiltersJson(f: Filters): (r: string)
  {
    "{" + Members(
      Field("category", MapOption(f.category, Quoted))
      + Field("author", MapOption(f.author, Quoted))
      + Field("tags", MapOption(f.tags, (t: seq<string>) => "[" + StringsJson(t) + "]"))
      + Field("featured", MapOption(f.featured, BoolJson))
      + Field("search", MapOption(f.search, Quoted))
      + Field("dateRange", MapOption(f.dateRange,
          (d: DateRange) => "{\"start\":" + IntJson(d.start) + ",\"end\":" + IntJson(d.end) + "}"))
    ) + "}"
  }

  function SortKeyJson(key: SortKey): (r: string)
  {
    match key
    case ByDate => Quoted("date")
    case ByTitle => Quoted("title")
    case ByReadTime => Quoted("readTime")
    case ByViewCount => Quoted("viewCount")
    case Unrecognised => Quoted("other")
  }

  function SortOrderJson(order: SortOrder): (r: string)
  {
    match order
    case Asc => Quoted("asc")
    case Desc => Quoted("desc")
  }

  function PaginationJson(p: Pagination): (r: string)
  {
    "{" + Members(
      [Quoted("page") + ":" + IntJson(p.page), Quoted("limit") + ":" + IntJson(p.limit)]
      + Field("sortBy", MapOption(p.sortBy, SortKeyJson))
      + Field("sortOrder", MapOption(p.sortOrder, SortOrderJson))
    ) + "}"
  }

  /** `getPostsKey(filters, pagination)`. */
  function PostsKey(filters: Filters, pagination: Pagination): (r: string)
  {
    "posts:" + "{\"filters\":" + FiltersJson(filters) + ",\"pagination\":" + PaginationJson(pagination) + "}"
  }

  /** `getPostKey(id)`. */
  function PostKey(id: string): (r: string)
  {
    "post:" + id
  }

  /** `getCategoryKey(id)`. */
  function CategoryKey(id: string): (r: string)
  {
    "category:" + id
  }

  /** `getAuthorKey(id)`. */
  function AuthorKey(id: string): (r: string)
  {
    "author:" + id
  }

  /** `getHomePageKey()`. */
  const HomePageKey := "homepage"

  /** Which read a key belongs to, told from its prefix. */
  datatype Kind = ListingKind | PostKind | CategoryKind | AuthorKind | HomeKind | OtherKind

  function KindOfKey(key: string): (r: Kind)
  {
    if |key| >= 6 && key[..6] == "posts:" then ListingKind
    else if |key| >= 5 && key[..5] == "post:" then PostKind
    else if |key| >= 9 && key[..9] == "category:" then CategoryKind
    else if |key| >= 7 && key[..7] == "author:" then AuthorKind
    else if key == HomePageKey then HomeKind
    else OtherKind
  }

  function KindOfValue(v: CachedValue): (r: Kind)
  {
    match v
    case Listing(_) => ListingKind
    case PostDetail(_) => PostKind
    case CategoryDetail(_) => CategoryKind
    case AuthorDetail(_) => AuthorKind
    case HomePage(_) => HomeKind
  }

  /** Each builder's keys carry that builder's prefix. */
  lemma KeyKinds(filters: Filters, pagination: Pagination, id: string)
    ensures KindOfKey(PostsKey(filters, pagination)) == ListingKind
    ensures KindOfKey(PostKey(id)) == PostKind
    ensures KindOfKey(CategoryKey(id)) == CategoryKind
    ensures KindOfKey(AuthorKey(id)) == AuthorKind
    ensures KindOfKey(HomePageKey) == HomeKind
  {
    ListingKeyKind(filters, pagination);
    PostKeyKind(id);
    PrefixedKeyKind("category:", id);
    PrefixedKeyKind("author:", id);
    HomeKeyKind();
  }

  lemma HomeKeyKind()
    ensures KindOfKey(HomePageKey) == HomeKind
  {
    var k := HomePageKey;
    assert |k| == 8 && k[0] == 'h' && k[..6][0] == 'h' && k[..5][0] == 'h' && k[..7][0] == 'h';
  }

  lemma ListingKeyKind(filters: Filters, pagination: Pagination)
    ensures KindOfKey(PostsKey(filters, pagination)) == ListingKind
  {
    assert PostsKey(filters, pagination)[..6] == "posts:";
  }

  lemma PostKeyKind(id: string)
    ensures KindOfKey(PostKey(id)) == PostKind
  {
    var k := PostKey(id);
    assert k[..5] == "post:";
    assert k[4] == ':';
  }

  lemma PrefixedKeyKind(prefix: string, id: string)
    requires prefix == "category:" || prefix == "author:"
    ensures prefix == "category:" ==> KindOfKey(CategoryKey(id)) == CategoryKind
    ensures prefix == "author:" ==> KindOfKey(AuthorKey(id)) == AuthorKind
  {
    var k := prefix + id;
    assert k[..|prefix|] == prefix;
    assert k[0] == prefix[0];
    assert k[0] != 'p';
  }

  /** Keys built for different reads never collide. */
  lemma KeysNeverCollide(filters: Filters, pagination: Pagination, a: string, b: string)
    ensures PostsKey(filters, pagination) != PostKey(a)
    ensures PostsKey(filters, pagination) != CategoryKey(a)
    ensures PostsKey(filters, pagination) != AuthorKey(a)
    ensures PostsKey(filters, pagination) != HomePageKey
    ensures PostKey(a) != CategoryKey(b) && PostKey(a) != AuthorKey(b) && PostKey(a) != HomePageKey
    ensures CategoryKey(a) != AuthorKey(b) && CategoryKey(a) != HomePageKey
    ensures AuthorKey(a) != HomePageKey
  {
    KeyKinds(filters, pagination, a);
    KeyKinds(filters, pagination, b);
  }

  /** Keys built from different ids differ. */
  lemma IdKeysAreDistinct(a: string, b: string)
    requires a != b
    ensures PostKey(a) != PostKey(b)
    ensures CategoryKey(a) != CategoryKey(b)
    ensures AuthorKey(a) != AuthorKey(b)
  {
    assert PostKey(a)[5..] == a && PostKey(b)[5..] == b;
    assert CategoryKey(a)[9..] == a && CategoryKey(b)[9..] == b;
    assert AuthorKey(a)[7..] == a && AuthorKey(b)[7..] == b;
  }

  // ---------------------------------------------------------------- the cache

  /** `BlogCache`. */
  class BlogCache {
    var entries: map<string, CacheEntry>

    constructor ()
      ensures entries == map[]
    {
      entries := map[];
    }

    /** `set(key, data, ttl)`: replaces any entry for `key`. */
    method Set(key: string, data: CachedValue, now: int, ttl: int := DefaultTtl)
      modifies this
      ensures entries == Stored(old(entries), key, data, ttl, now)
    {
      entries := entries[key := CacheEntry(data, now, now + ttl)];
    }

    /** `get(key)`: null for a missing key; a stale entry is deleted and
        answers null. */
    method Get(key: string, now: int) returns (r: Option<CachedValue>)
      modifies this
      ensures r == Lookup(old(entries), key, now)
      ensures entries == AfterGet(old(entries), key, now)
    {
      if key !in entries {
        return None;
      }
      var entry := entries[key];
      if now > entry.expiry {
        entries := entries - {key};
        return None;
      }
      r := Some(entry.data);
    }

    /** `delete(key)`. */
    method Delete(key: string)
      modifies this
      ensures entries == old(entries) - {key}
    {
      entries := entries - {key};
    }

    /** `clear()`. */
    method Clear()
      modifies this
      ensures entries == map[]
    {
      entries := map[];
    }
  }

  /** A map in which every key holds the kind of value its prefix names. */
  ghost predicate WellKeyed(entries: map<string, CacheEntry>)
  {
    forall k :: k in entries ==> KindOfKey(k) == KindOfValue(entries[k].data)
  }

  /** Storing a value under a key of its own kind keeps the map well keyed. */
  lemma StoredKeepsWellKeyed(entries: map<string, CacheEntry>, key: string, data: CachedValue, ttl: int, now: int)
    requires WellKeyed(entries) && KindOfKey(key) == KindOfValue(data)
    ensures WellKeyed(Stored(entries, key, data, ttl, now))
  {
  }

  /** Writing a key after reading it is writing it over the map as it was
      before the read. */
  lemma StoredAfterGet(entries: map<string, CacheEntry>, key: string, data: CachedValue, ttl: int, now: int)
    ensures Stored(AfterGet(entries, key, now), key, data, ttl, now) == Stored(entries, key, data, ttl, now)
  {
  }

  /** A read keeps the map well keyed, and what it finds has its key's kind. */
  lemma GetKeepsWellKeyed(entries: map<string, CacheEntry>, key: string, now: int)
    requires WellKeyed(entries)
    ensures WellKeyed(AfterGet(entries, key, now))
    ensures Lookup(entries, key, now).Some? ==> KindOfValue(Lookup(entries, key, now).value) == KindOfKey(key)
  {
  }

  /** `CachedBlogService`: the service's reads in front of a private cache.
      The source subclasses `BlogService`; here the service it extends is the
      field `service`. */
  class CachedBlogService {
    const service: BlogService
    const cache: BlogCache

    ghost predicate Valid()
      reads cache
    {
      WellKeyed(cache.entries)
    }

    constructor (service: BlogService)
      ensures this.service == service
      ensures fresh(cache) && cache.entries == map[]
      ensures Valid()
    {
      this.service := service;
      cache := new BlogCache();
    }

    /** The cached `getPostsWithPagination`: a fresh entry is returned without
        asking the service; otherwise the page is computed and stored for the
        default lifetime. */
    method GetPostsWithPagination(filters: Filters, pagination: Pagination, now: int) returns (r: BlogResponse)
      requires Valid() && pagination.limit >= 1
      modifies cache
      ensures Valid()
      ensures var key := PostsKey(filters, pagination);
        match Lookup(old(cache.entries), key, now)
        case Some(v) => v == Listing(r) && cache.entries == old(cache.entries)
        case None =>
          && r == PostsPage(service.repository.posts, filters, pagination, now)
          && cache.entries == Stored(old(cache.entries), key, Listing(r), DefaultTtl, now)
    {
      var key := PostsKey(filters, pagination);
      ListingKeyKind(filters, pagination);
      GetKeepsWellKeyed(cache.entries, key, now);
      var cached := cache.Get(key, now);
      if cached.Some? {
        return cached.value.response;
      }
      r := service.GetPostsWithPagination(filters, pagination, now);
      StoredKeepsWellKeyed(cache.entries, key, Listing(r), DefaultTtl, now);
      StoredAfterGet(old(cache.entries), key, Listing(r), DefaultTtl, now);
      cache.Set(key, Listing(r), now);
    }

    /** The cached `getPostWithRelated`. A hit returns the stored copy and
        leaves the store alone, so the view is not counted again; a miss runs
        the service, which counts the view, and stores a non-null answer. A
        null answer is never stored. */
    method GetPostWithRelated(id: string, now: int) returns (r: Option<PostWithRelated>)
      requires Valid()
      modifies cache, service.repository
      ensures Valid()
      ensures var key := PostKey(id);
        match Lookup(old(cache.entries), key, now)
        case Some(v) =>
          && r.Some? && v == PostDetail(r.value)
          && cache.entries == old(cache.entries)
          && service.repository.posts == old(service.repository.posts)
        case None =>
          && r == PostWithRelatedView(old(service.repository.posts), id)
          && service.repository.posts == WithIncrement(old(service.repository.posts), id)
          && cache.entries == if r.Some? then Stored(old(cache.entries), key, PostDetail(r.value), DefaultTtl, now)
                              else AfterGet(old(cache.entries), key, now)
      ensures r.None? ==> PostKey(id) !in cache.entries
      ensures service.repository.categories == old(service.repository.categories)
      ensures service.repository.authors == old(service.repository.authors)
    {
      var key := PostKey(id);
      PostKeyKind(id);
      GetKeepsWellKeyed(cache.entries, key, now);
      var cached := cache.Get(key, now);
      if cached.Some? {
        return Some(cached.value.detail);
      }
      r := service.GetPostWithRelated(id);
      if r.Some? {
        StoredKeepsWellKeyed(cache.entries, key, PostDetail(r.value), DefaultTtl, now);
        StoredAfterGet(old(cache.entries), key, PostDetail(r.value), DefaultTtl, now);
        cache.Set(key, PostDetail(r.value), now);
      }
    }

    /** The cached `getCategoryWithPosts`; a null answer is never stored. */
    method GetCategoryWithPosts(categoryId: string, now: int) returns (r: Option<CategoryWithPosts>)
      requires Valid()
      modifies cache
      ensures Valid()
      ensures var key := CategoryKey(categoryId);
        match Lookup(old(cache.entries), key, now)
        case Some(v) => r.Some? && v == CategoryDetail(r.value) && cache.entries == old(cache.entries)
        case None =>
          && r == CategoryView(service.repository.categories, service.repository.posts, categoryId)
          && cache.entries == if r.Some? then Stored(old(cache.entries), key, CategoryDetail(r.value), DefaultTtl, now)
                              else AfterGet(old(cache.entries), key, now)
      ensures r.None? ==> CategoryKey(categoryId) !in cache.entries
    {
      var key := CategoryKey(categoryId);
      PrefixedKeyKind("category:", categoryId);
      GetKeepsWellKeyed(cache.entries, key, now);
      var cached := cache.Get(key, now);
      if cached.Some? {
        return Some(cached.value.categoryDetail);
      }
      r := service.GetCategoryWithPosts(categoryId);
      if r.Some? {
        StoredKeepsWellKeyed(cache.entries, key, CategoryDetail(r.value), DefaultTtl, now);
        StoredAfterGet(old(cache.entries), key, CategoryDetail(r.value), DefaultTtl, now);
        cache.Set(key, CategoryDetail(r.value), now);
      }
    }

    /** The cached `getAuthorWithPosts`; a null answer is never stored. */
    method GetAuthorWithPosts(authorId: string, now: int) returns (r: Option<AuthorWithPosts>)
      requires Valid()
      modifies cache
      ensures Valid()
      ensures var key := AuthorKey(authorId);
        match Lookup(old(cache.entries), key, now)
        case Some(v) => r.Some? && v == AuthorDetail(r.value) && cache.entries == old(cache.entries)
        case None =>
          && r == AuthorView(service.repository.authors, service.repository.posts, authorId)
          && cache.entries == if r.Some? then Stored(old(cache.entries), key, AuthorDetail(r.value), DefaultTtl, now)
                              else AfterGet(old(cache.entries), key, now)
      ensures r.None? ==> AuthorKey(authorId) !in cache.entries
    {
      var key := AuthorKey(authorId);
      PrefixedKeyKind("author:", authorId);
      GetKeepsWellKeyed(cache.entries, key, now);
      var cached := cache.Get(key, now);
      if cached.Some? {
        return Some(cached.value.authorDetail);
      }
      r := service.GetAuthorWithPosts(authorId);
      if r.Some? {
        StoredKeepsWellKeyed(cache.entries, key, AuthorDetail(r.value), DefaultTtl, now);
        StoredAfterGet(old(cache.entries), key, AuthorDetail(r.value), DefaultTtl, now);
        cache.Set(key, AuthorDetail(r.value), now);
      }
    }

    /** The cached `getHomePageData`: a hit leaves the store's order alone; a
        miss gathers the bundle, which reorders the store, and stores it. */
    method GetHomePageData(now: int) returns (r: HomePageData)
      requires Valid()
      modifies cache, service.repository
      ensures Valid()
      ensures match Lookup(old(cache.entries), HomePageKey, now)
        case Some(v) =>
          && v == HomePage(r)
          && cache.entries == old(cache.entries)
          && service.repository.posts == old(service.repository.posts)
        case None =>
          && r == HomePageView(old(service.repository.posts), old(service.repository.categories))
          && service.repository.posts == StoreAfterHomePage(old(service.repository.posts))
          && cache.entries == Stored(old(cache.entries), HomePageKey, HomePage(r), DefaultTtl, now)
      ensures service.repository.categories == old(service.repository.categories)
      ensures service.repository.authors == old(service.repository.authors)
    {
      HomeKeyKind();
      GetKeepsWellKeyed(cache.entries, HomePageKey, now);
      var cached := cache.Get(HomePageKey, now);
      if cached.Some? {
        return cached.value.home;
      }
      r := service.GetHomePageData();
      StoredKeepsWellKeyed(cache.entries, HomePageKey, HomePage(r), DefaultTtl, now);
      StoredAfterGet(old(cache.entries), HomePageKey, HomePage(r), DefaultTtl, now);
      cache.Set(HomePageKey, HomePage(r), now);
    }

    /** Search goes straight to the service: the cache is neither read nor
        written (the method may not modify it). */
    method SearchPostsWithHighlight(query: string) returns (r: seq<Post>)
      ensures r == SearchWithHighlight(service.repository.posts, query)
    {
      r := service.SearchPostsWithHighlight(query);
    }

    /** `clearPostCache(id)`: forgets that post's detail and the home page. */
    method ClearPostCache(postId: string)
      requires Valid()
      modifies cache
      ensures Valid()
      ensures cache.entries == old(cache.entries) - {PostKey(postId), HomePageKey}
    {
      cache.Delete(PostKey(postId));
      cache.Delete(HomePageKey);
    }

    /** `clearCategoryCache(id)`. */
    method ClearCategoryCache(categoryId: string)
      requires Valid()
      modifies cache
      ensures Valid()
      ensures cache.entries == old(cache.entries) - {CategoryKey(categoryId)}
    {
      cache.Delete(CategoryKey(categoryId));
    }

    /** `clearAuthorCache(id)`. */
    method ClearAuthorCache(authorId: string)
      requires Valid()
      modifies cache
      ensures Valid()
      ensures cache.entries == old(cache.entries) - {AuthorKey(authorId)}
    {
      cache.Delete(AuthorKey(authorId));
    }

    /** `clearAllCache()`. */
    method ClearAllCache()
      modifies cache
      ensures Valid()
      ensures cache.entries == map[]
    {
      cache.Clear();
    }
  }

  /** Clearing a post's cache leaves every listing, category and author entry
      as it was. */
  lemma ClearPostKeepsOtherReads(entries: map<string, CacheEntry>, postId: string, key: string, now: int)
    requires KindOfKey(key) == ListingKind || KindOfKey(key) == CategoryKind || KindOfKey(key) == AuthorKind
    ensures var after := entries - {PostKey(postId), HomePageKey};
      && Lookup(after, key, now) == Lookup(entries, key, now)
      && Lookup(after, PostKey(postId), now).None?
      && Lookup(after, HomePageKey, now).None?
  {
    var removed := {PostKey(postId), HomePageKey};
    PostKeyKind(postId);
    HomeKeyKind();
    LookupAfterRemove(entries, removed, key, now);
    LookupAfterRemove(entries, removed, PostKey(postId), now);
    LookupAfterRemove(entries, removed, HomePageKey, now);
  }

  /** After removing keys, those keys answer nothing and every other key
      answers as before. */
  lemma LookupAfterRemove(entries: map<string, CacheEntry>, removed: set<string>, key: string, now: int)
    ensures key in removed ==> Lookup(entries - removed, key, now).None?
    ensures key !in removed ==> Lookup(entries - removed, key, now) == Lookup(entries, key, now)
  {
  }
}
