# Blog content layer, modelled in Dafny

This project models the content-access core of the `my-blog` application:

- the query service `BlogService`: filtering, sorting and paging of the post listing; a post with its related posts; a category or author with its posts; the home-page bundle; and search with `<mark>` highlighting;
- the in-memory repository `InMemoryBlogRepository`: lookups by id or slug, subsets, substring search, the related-post rule, the view-count increment and the two rankings that sort the stored array in place;
- the read-through cache `BlogCache` / `CachedBlogService`: entries that expire a fixed time after they are written, string keys built per operation, and explicit eviction;
- the server's in-memory store `MemStorage`: two id-keyed maps with auto-increment counters, seeded with fifteen posts, and three date-sorted queries.

Files and modules:

| file | module | contents |
|---|---|---|
| `text.dfy` | `Text` | `toLowerCase` (ASCII), `includes`, `localeCompare` (code-unit order) |
| `sequences.dfy` | `Sequences` | `find`, `filter` and `slice` with their JavaScript semantics, and a stable sort with a comparator |
| `blog_types.dfy` | `BlogTypes` | posts, categories, authors, filters, pagination options and response shapes |
| `repository.dfy` | `Repository` | the repository's reads as functions of the stored arrays, and the class that owns the arrays |
| `highlight.dfy` | `Highlight` | `highlightText` as a left-to-right, case-insensitive scan for literal queries |
| `blog_service.dfy` | `Service` | the listing pipeline, the composite reads and the class `BlogService` |
| `cache.dfy` | `Cache` | lookup and expiry, key builders, the classes `BlogCache` and `CachedBlogService` |
| `storage.dfy` | `Storage` | the class `MemStorage`, its seed and its queries |

Pure reads are functions. The objects whose fields the source changes are classes whose methods are proved against those functions:

- `InMemoryBlogRepository` has the `posts`, `categories` and `authors` arrays as `seq` fields.
- `BlogCache` has the `Map` as a `map` field.
- `MemStorage` has two `map` fields and two counters.

`Date.now()` is the parameter `now`. Dates are integer timestamps.

Two behaviours of the code worth knowing:

- **Cache freshness.** The code treats an entry as stale only when `now > expiry`. So an entry read at exactly its expiry time is still served (`Cache.Lookup`, `Cache.DefaultLifetime`).
- **Empty search query.** `searchPostsWithHighlight("")` does not return an empty list. The repository's search matches every post for the empty query, and the highlighter then inserts an empty mark at every position (`Repository.SearchEmptyQueryReturnsAll`, `Service.EmptySearchHighlightsEveryPost`). The empty-query guard lives in a React hook, which is not part of this model.

## Model

| member | source | states |
|---|---|---|
| Text.Lower | src/repositories/InMemoryBlogRepository.ts:46 | lower-casing keeps the length and maps every character on its own (ASCII letters to lower case) |
| Text.LowerIdempotent | src/repositories/InMemoryBlogRepository.ts:46-51 | lower-casing an already lower-cased string changes nothing |
| Text.ContainsEmpty | src/repositories/InMemoryBlogRepository.ts:48 | every string includes the empty string |
| Text.ContainsIgnoringCaseOfLower | src/repositories/InMemoryBlogRepository.ts:46-51 | a case-insensitive match does not depend on the case of the query |
| Text.LocaleCompare | src/services/BlogService.ts:148 | the title comparison is negative, zero or positive, and zero exactly for equal strings |
| Text.LocaleCompareAntisymmetric | src/services/BlogService.ts:148 | swapping the two titles negates the comparison |
| Text.LocaleCompareTransitive | src/services/BlogService.ts:148 | "sorts no later than" on titles is transitive |
| Sequences.FindIndex | src/repositories/InMemoryBlogRepository.ts:91 | the index found is the first whose element passes; none exactly when no element passes |
| Sequences.Find | src/repositories/InMemoryBlogRepository.ts:26 | the element found passes the test and no earlier element does; none exactly when no element passes |
| Sequences.Filter | src/repositories/InMemoryBlogRepository.ts:34 | an element is kept if and only if it is in the input and passes the test |
| Sequences.FilterAppend | src/repositories/InMemoryBlogRepository.ts:33-43 | filtering distributes over concatenation, so it keeps input order |
| Sequences.FilterFilter | src/services/BlogService.ts:114-131 | filtering by one test and then another equals filtering once by their conjunction |
| Sequences.FilterCongruent | src/services/BlogService.ts:114-131 | tests that agree on every element give the same result |
| Sequences.FilterKeepsAll | src/repositories/InMemoryBlogRepository.ts:47-52 | when every element passes, filtering returns the input unchanged |
| Sequences.FilterKeepsNone | src/services/BlogService.ts:118 | when no element passes, filtering returns the empty sequence |
| Sequences.RelativeIndex | src/services/BlogService.ts:25 | a `slice` argument, negative ones counted from the end, lands in [0, length] |
| Sequences.Slice | src/services/BlogService.ts:25 | `slice(start, end)` is the run of max(to - from, 0) elements starting at index `from`, where both arguments are turned into indexes with negative ones counted from the end; for 0 <= start <= end <= length it is s[start..end], and for 0 <= end <= start it is empty |
| Sequences.SortedBySlice | src/services/BlogService.ts:25 | a run of consecutive elements of an ordered list is in order |
| Sequences.SliceSorted | src/services/BlogService.ts:25 | a slice of an ordered list is in order |
| Sequences.Take | src/repositories/InMemoryBlogRepository.ts:65 | `slice(0, n)` is the first min(n, length) elements |
| Sequences.TakeIsSubMultiset | src/services/BlogService.ts:100-101 | a prefix holds no element more often than the list does |
| Sequences.Insert | src/repositories/InMemoryBlogRepository.ts:99 | inserting adds exactly that element |
| Sequences.SortBy | src/repositories/InMemoryBlogRepository.ts:98-100 | the sort returns a permutation of its input |
| Sequences.SortBySorted | src/repositories/InMemoryBlogRepository.ts:98-100 | with a consistent comparator the output is in order |
| Sequences.SortByKeepsTiesInOrder | src/services/BlogService.ts:140-161 | the sort is stable: input already ordered by a second comparator keeps that order among ties |
| Sequences.SortByOfSorted | src/services/BlogService.ts:156-157 | sorting input that is already in order changes nothing |
| Repository.PostById | src/repositories/InMemoryBlogRepository.ts:25-27 | the first post with the id, or null exactly when no post has it |
| Repository.PostBySlug | src/repositories/InMemoryBlogRepository.ts:29-31 | the first post with the slug, or null exactly when no post has it |
| Repository.CategoryById | src/repositories/InMemoryBlogRepository.ts:74-76 | the first category with the id, or null exactly when none has it |
| Repository.CategoryBySlug | src/repositories/InMemoryBlogRepository.ts:78-80 | the first category with the slug, or null exactly when none has it |
| Repository.AuthorById | src/repositories/InMemoryBlogRepository.ts:86-88 | the first author with the id, or null exactly when none has it |
| Repository.PostsByCategory | src/repositories/InMemoryBlogRepository.ts:33-35 | exactly the posts filed under the category |
| Repository.PostsByAuthor | src/repositories/InMemoryBlogRepository.ts:37-39 | exactly the posts by the author |
| Repository.FeaturedPosts | src/repositories/InMemoryBlogRepository.ts:41-43 | exactly the featured posts |
| Repository.PostsByCategoryKeepsOrder | src/repositories/InMemoryBlogRepository.ts:33-35 | the selection is a subsequence in store order |
| Repository.SearchPosts | src/repositories/InMemoryBlogRepository.ts:45-53 | a post is found if and only if the query occurs, ignoring case, in its title, excerpt, content or a tag |
| Repository.SearchEmptyQueryReturnsAll | src/repositories/InMemoryBlogRepository.ts:45-53 | the empty query finds every post, in store order |
| Repository.SearchIgnoresQueryCase | src/repositories/InMemoryBlogRepository.ts:46 | lower-casing the query does not change the result |
| Repository.RelatedPosts | src/repositories/InMemoryBlogRepository.ts:55-68 | [] for an unknown id; otherwise at most `limit` posts, never the post itself, each sharing its category or a tag, and exactly the first such posts in store order |
| Repository.Viewed | src/repositories/InMemoryBlogRepository.ts:93 | the count goes from (count or 0) to one more, and nothing else changes |
| Repository.WithIncrement | src/repositories/InMemoryBlogRepository.ts:90-95 | the first post with the id is counted once and every other post is unchanged; an unknown id changes nothing |
| Repository.PostByIdAfterIncrement | src/repositories/InMemoryBlogRepository.ts:90-95 | looking the post up after the increment finds the counted copy |
| Repository.TotalViewsUpdate | src/repositories/InMemoryBlogRepository.ts:93 | replacing one post changes the store's view total by that post's difference |
| Repository.IncrementCountsOneView | src/repositories/InMemoryBlogRepository.ts:90-95 | the store's view total grows by exactly one for a known id and not at all for an unknown one |
| Repository.ByViewsDescConsistent | src/repositories/InMemoryBlogRepository.ts:99 | the popularity comparator is antisymmetric and transitive |
| Repository.ByDateDescConsistent | src/repositories/InMemoryBlogRepository.ts:105 | the recency comparator is antisymmetric and transitive |
| Repository.PopularPostsRanked | src/repositories/InMemoryBlogRepository.ts:97-101 | min(limit, n) posts, most viewed first, drawn from a permutation of the store |
| Repository.RecentPostsRanked | src/repositories/InMemoryBlogRepository.ts:103-107 | min(limit, n) posts, newest first, drawn from a permutation of the store |
| Repository.InMemoryBlogRepository.constructor | src/repositories/InMemoryBlogRepository.ts:10-19 | the store holds the given posts, categories and authors |
| Repository.InMemoryBlogRepository.IncrementViewCount | src/repositories/InMemoryBlogRepository.ts:90-95 | the stored posts become the incremented store; categories and authors are untouched |
| Repository.InMemoryBlogRepository.GetPopularPosts | src/repositories/InMemoryBlogRepository.ts:97-101 | the stored array is left sorted by views, and the result is its first `limit` posts |
| Repository.InMemoryBlogRepository.GetRecentPosts | src/repositories/InMemoryBlogRepository.ts:103-107 | the stored array is left sorted by date, and the result is its first `limit` posts |
| Highlight.PiecesSpellText | src/services/BlogService.ts:164-167 | highlighting only inserts marks: removing them gives back the text |
| Highlight.MarkedPiecesMatchQuery | src/services/BlogService.ts:164-167 | every marked piece equals the query up to case |
| Highlight.NoOccurrenceNoChange | src/services/BlogService.ts:164-167 | a text without an occurrence of a non-empty query comes back unchanged |
| Highlight.UnmarkedAppend | src/services/BlogService.ts:166 | unmarking distributes over concatenation of pieces |
| Highlight.EmptyMarksSpellText | src/services/BlogService.ts:165-166 | the empty query's marks leave the text intact |
| Highlight.EmptyMarksAreEmpty | src/services/BlogService.ts:165-166 | the empty query marks only empty strings |
| Highlight.PlainPiecesStartNoMatch | src/services/BlogService.ts:164-167 | for a non-empty query, no character left unmarked starts an occurrence of the query in the text that remains from it, so occurrences are marked leftmost first and none is skipped |
| Highlight.OccurrenceIsMarked | src/services/BlogService.ts:164-167 | a text that contains a non-empty query, ignoring case, gets at least one mark |
| Highlight.OccurrenceInTail | src/services/BlogService.ts:166 | an occurrence that does not start the text lies in the rest of it |
| Service.ApplyFilters | src/services/BlogService.ts:113-133 | a post is listed if and only if it passes every given criterion; a given but empty tag list lists nothing |
| Service.PassesEachCriterion | src/services/BlogService.ts:114-131 | a post passes the filters exactly when it passes each criterion on its own |
| Service.FiltersAreConjunctive | src/services/BlogService.ts:114-131 | a post is listed exactly when each criterion, applied on its own, would list it |
| Service.ApplyFiltersCongruent | src/services/BlogService.ts:114-131 | filters that pass the same posts list the same posts |
| Service.ApplyFiltersTwice | src/services/BlogService.ts:114-131 | filtering twice is filtering once by the combined filters |
| Service.ApplyFiltersAdd | src/services/BlogService.ts:114-131 | filtering by some criteria and then by one more is filtering once by all of them |
| Service.FiltersApplyInSequence | src/services/BlogService.ts:114-131 | applying the six criteria one after another, in the source's order, gives the same list in the same order |
| Service.NoFiltersKeepAll | src/services/BlogService.ts:9 | the default empty filters list every post |
| Service.EmptyStringsAreAbsent | src/services/BlogService.ts:115-119 | an empty category, author or search string is skipped on its own: the listing is the same as without that criterion, whatever the others are |
| Service.SearchIgnoresContent | src/services/BlogService.ts:119-126 | the listing's search does not look at the content |
| Service.DateRangeInclusive | src/services/BlogService.ts:127-130 | both ends of the date range are included |
| Service.KeyCompareProperties | src/services/BlogService.ts:143-158 | every sort key's comparison is antisymmetric and transitive |
| Service.ComparatorConsistent | src/services/BlogService.ts:135-161 | every comparator the listing can use is consistent |
| Service.SortingOrdersAPermutation | src/services/BlogService.ts:135-161 | the sorted listing is a permutation of the filtered posts, in order |
| Service.DefaultSortIsNewestFirst | src/services/BlogService.ts:137-138 | with no options the listing is sorted by date, descending |
| Service.DescendingNegatesAscending | src/services/BlogService.ts:160 | descending is the negated ascending comparison, and an absent order means descending |
| Service.UnrecognisedKeyKeepsOrder | src/services/BlogService.ts:156-157 | an unrecognised key compares as 0 and keeps the input order |
| Service.TotalPages | src/services/BlogService.ts:22 | ceil(total / limit): zero pages for no posts, otherwise the least n with total <= n * limit |
| Service.PageIsSlice | src/services/BlogService.ts:23-25 | page p is the slice [(p-1)*limit, p*limit) of the sorted list, at most `limit` long, and empty past the end |
| Service.PageHoldsListedPosts | src/services/BlogService.ts:25 | a page holds only posts of the sorted list |
| Service.PagesArePrefix | src/services/BlogService.ts:23-25 | pages 1..k together are the first k*limit posts |
| Service.PagesCoverList | src/services/BlogService.ts:21-25 | pages 1..totalPages together are the whole sorted list, each post once, in order |
| Service.PageOfSorted | src/services/BlogService.ts:21-25 | a page cut from an ordered list holds only posts of the list, is in order, and for page p >= 1 is the slice [(p-1)*limit, p*limit) of at most `limit` posts |
| Service.PageHoldsFilteredPosts | src/services/BlogService.ts:15-25 | the listing's page holds only stored posts that pass the filters |
| Service.PostsPage | src/services/BlogService.ts:8-40 | total counts the posts passing the filters and totalPages is ceil(total/limit); the page is the requested page of the filtered posts sorted by the requested comparator, holds only such posts, is in that order and has at most `limit` posts; the cache expiry is five minutes after now |
| Service.ListingPageIsSlice | src/services/BlogService.ts:18-25 | page p >= 1 of the listing is the slice [(p-1)*limit, p*limit) of the filtered posts after sorting |
| Service.PostWithRelatedView | src/services/BlogService.ts:42-55 | null exactly for an unknown id; otherwise the post with one more view and at most three related posts |
| Service.CategoryView | src/services/BlogService.ts:57-67 | null exactly for an unknown category; otherwise the first such category and exactly its posts |
| Service.AuthorView | src/services/BlogService.ts:69-79 | null exactly for an unknown author; otherwise the first such author and exactly that author's posts |
| Service.Highlighted | src/services/BlogService.ts:85-89 | a hit differs from the stored post only in its title and excerpt |
| Service.SearchWithHighlight | src/services/BlogService.ts:81-90 | one result per repository hit, in order, with title and excerpt highlighted and every other field as stored |
| Service.EmptySearchHighlightsEveryPost | src/services/BlogService.ts:81-90 | the empty query returns one result per stored post |
| Service.HomePageView | src/services/BlogService.ts:92-111 | the featured posts are the repository's featured selection, in store order; the recent posts are the first five of the store sorted newest first; the popular posts are the first five of the store as the two in-place sorts leave it (most viewed first, ties newest first); both lists are drawn from the store, have min(5, n) posts and are in those orders; the categories are all stored categories |
| Service.HomePageReordersStore | src/repositories/InMemoryBlogRepository.ts:97-107 | after the home page the store is a permutation ordered by views, ties newest first |
| Service.BlogService.constructor | src/services/BlogService.ts:6 | the service wraps the given repository |
| Service.BlogService.GetPostsWithPagination | src/services/BlogService.ts:8-40 | the response is the listing page of the stored posts, and the store is not changed |
| Service.BlogService.GetPostWithRelated | src/services/BlogService.ts:42-55 | returns the view of the store before the call, and leaves the store with that post counted once |
| Service.BlogService.GetCategoryWithPosts | src/services/BlogService.ts:57-67 | returns the category view and changes nothing |
| Service.BlogService.GetAuthorWithPosts | src/services/BlogService.ts:69-79 | returns the author view and changes nothing |
| Service.BlogService.SearchPostsWithHighlight | src/services/BlogService.ts:81-90 | returns the highlighted hits and changes nothing |
| Service.BlogService.GetHomePageData | src/services/BlogService.ts:92-111 | returns the bundle gathered from the store as it was, and leaves the store reordered by views, ties newest first |
| Service.BlogService.GetAllCategories | src/services/BlogService.ts:170-172 | returns the stored categories |
| Service.BlogService.GetAllAuthors | src/services/BlogService.ts:174-176 | returns the stored authors |
| Cache.Lookup | src/services/CachedBlogService.ts:25-35 | a read answers the stored value exactly while the key is present and now <= expiry |
| Cache.AfterGet | src/services/CachedBlogService.ts:29-32 | a read drops the key's entry only when it has expired, and nothing else |
| Cache.LookupAfterSet | src/services/CachedBlogService.ts:17-23 | an entry written at time t is served until t + ttl, and writing one key leaves the others as they were |
| Cache.DefaultLifetime | src/services/CachedBlogService.ts:15-23 | with the default ttl an entry is served 300000 ms after writing and not one millisecond later |
| Cache.FreshnessOnlyRunsOut | src/services/CachedBlogService.ts:29 | a hit at some time was a hit at every earlier time; a miss stays a miss |
| Cache.LazyExpiryIsInvisible | src/services/CachedBlogService.ts:29-32 | dropping an expired entry on read never changes what any key answers later |
| Cache.KeyKinds | src/services/CachedBlogService.ts:46-64 | every key carries its builder's prefix |
| Cache.KeysNeverCollide | src/services/CachedBlogService.ts:46-64 | keys built for different operations never collide |
| Cache.IdKeysAreDistinct | src/services/CachedBlogService.ts:50-60 | different ids give different post, category and author keys |
| Cache.StoredKeepsWellKeyed | src/services/CachedBlogService.ts:80 | storing under a key of the value's kind keeps every key holding its kind of value |
| Cache.StoredAfterGet | src/services/CachedBlogService.ts:73-80 | a store after a read is a store over the map as it was before the read |
| Cache.GetKeepsWellKeyed | src/services/CachedBlogService.ts:25-35 | a read keeps the map well keyed, and a hit has its key's kind |
| Cache.LookupAfterRemove | src/services/CachedBlogService.ts:37-39 | after a delete the removed keys answer nothing and every other key answers as before |
| Cache.ClearPostKeepsOtherReads | src/services/CachedBlogService.ts:158-161 | clearing a post leaves every listing, category and author key answering as before, and the post and home-page keys answer nothing |
| Cache.BlogCache.constructor | src/services/CachedBlogService.ts:14 | the cache starts empty |
| Cache.BlogCache.Set | src/services/CachedBlogService.ts:17-23 | the key's entry is replaced by one expiring ttl after now |
| Cache.BlogCache.Get | src/services/CachedBlogService.ts:25-35 | answers the lookup and leaves the map a read leaves |
| Cache.BlogCache.Delete | src/services/CachedBlogService.ts:37-39 | removes exactly that key |
| Cache.BlogCache.Clear | src/services/CachedBlogService.ts:41-43 | empties the map |
| Cache.CachedBlogService.constructor | src/services/CachedBlogService.ts:68-69 | wraps the service with a fresh, empty cache |
| Cache.CachedBlogService.GetPostsWithPagination | src/services/CachedBlogService.ts:71-82 | a hit returns the cached page and changes nothing; a miss returns the service's page and stores it for five minutes |
| Cache.CachedBlogService.GetPostWithRelated | src/services/CachedBlogService.ts:84-97 | a hit returns the cached copy without counting a view; a miss counts the view and stores a non-null answer; a null answer leaves the key absent |
| Cache.CachedBlogService.GetCategoryWithPosts | src/services/CachedBlogService.ts:99-112 | hit returns the cached copy; a miss stores a non-null answer; a null answer leaves the key absent |
| Cache.CachedBlogService.GetAuthorWithPosts | src/services/CachedBlogService.ts:114-127 | hit returns the cached copy; a miss stores a non-null answer; a null answer leaves the key absent |
| Cache.CachedBlogService.GetHomePageData | src/services/CachedBlogService.ts:129-150 | a hit leaves the store's order alone; a miss gathers the bundle, reorders the store and stores the bundle |
| Cache.CachedBlogService.SearchPostsWithHighlight | src/services/CachedBlogService.ts:152-155 | search neither reads nor writes the cache |
| Cache.CachedBlogService.ClearPostCache | src/services/CachedBlogService.ts:158-161 | removes exactly the post's key and the home-page key |
| Cache.CachedBlogService.ClearCategoryCache | src/services/CachedBlogService.ts:163-165 | removes exactly the category's key |
| Cache.CachedBlogService.ClearAuthorCache | src/services/CachedBlogService.ts:167-169 | removes exactly the author's key |
| Cache.CachedBlogService.ClearAllCache | src/services/CachedBlogService.ts:171-173 | empties the cache |
| Storage.InIdOrder | server/storage.ts:928 | the values listed in id order are values of the map |
| Storage.InIdOrderIndexes | server/storage.ts:928 | for ids 1..n-1, the listing has n-1 values and value i is the record with id i+1 |
| Storage.InIdOrderHasEveryValue | server/storage.ts:928 | the listing holds exactly the map's values |
| Storage.NewestFirstConsistent | server/storage.ts:929 | the store's date comparator is antisymmetric and transitive |
| Storage.StoredInCreationOrder | server/storage.ts:928 | before sorting, posts are listed in creation order |
| Storage.FirstUserNamedIsFirst | server/storage.ts:914-918 | no user exactly when none has the name; otherwise the user of that name created first |
| Storage.SortedSelection | server/storage.ts:937-953 | a sorted selection holds exactly the selected stored posts, newest first, ties in creation order |
| Storage.FilterKeepsOrder | server/storage.ts:938-939 | filtering keeps creation order |
| Storage.AllPostsNewestFirst | server/storage.ts:927-931 | every stored post once, newest first, ties in creation order |
| Storage.PostsInCategoryNewestFirst | server/storage.ts:937-941 | exactly the posts whose category equals the argument ignoring case, newest first |
| Storage.CategoryIgnoresCase | server/storage.ts:939 | the case of the category asked for does not matter |
| Storage.SearchStoredNewestFirst | server/storage.ts:943-953 | exactly the posts whose title, excerpt, content or author contains the query ignoring case, newest first |
| Storage.SearchFindsAuthor | server/storage.ts:950 | the author's name is searched |
| Storage.SeedPosts | server/storage.ts:29-902 | the seed has fifteen posts |
| Storage.MemStorage.constructor | server/storage.ts:20-26 | starts with no users and the fifteen seed posts under ids 1..15; the next post id is 16 |
| Storage.MemStorage.InitializeBlogPosts | server/storage.ts:904-907 | creating the posts in order gives them ids 1, 2, ... in listed order |
| Storage.MemStorage.GetUser | server/storage.ts:910-912 | the user under that id, or nothing exactly when there is none |
| Storage.MemStorage.GetUserByUsername | server/storage.ts:914-918 | the first user in insertion order with that name |
| Storage.MemStorage.CreateUser | server/storage.ts:920-925 | the user gets the counter as id, above every id in use, and the counter moves on by one |
| Storage.MemStorage.GetAllBlogPosts | server/storage.ts:927-931 | every stored post, newest first, and nothing changes |
| Storage.MemStorage.GetBlogPost | server/storage.ts:933-935 | the post under that id, or nothing exactly when there is none |
| Storage.MemStorage.GetBlogPostsByCategory | server/storage.ts:937-941 | the category's posts, newest first, and nothing changes |
| Storage.MemStorage.SearchBlogPosts | server/storage.ts:943-953 | the matching posts, newest first, and nothing changes |
| Storage.MemStorage.CreateBlogPost | server/storage.ts:955-960 | the post gets the counter as id, above every id in use, and can be read back under it; the counter moves on by one |

## Definitions

These functions model source code directly. Their meaning is stated by the members named with each, not by contracts of their own.

- `Service.PassesFilters` (src/services/BlogService.ts:114-131): the test `applyFilters` applies to one post. Stated by `Service.ApplyFilters`, `Service.PassesEachCriterion`, `Service.EmptyStringsAreAbsent`, `Service.SearchIgnoresContent` and `Service.DateRangeInclusive`.
- `Service.KeyCompare`, `Service.Comparator` and `Service.ApplySorting` (src/services/BlogService.ts:135-162): the comparison per sort key, the comparator with its default key and order, and the sort. Stated by `Service.KeyCompareProperties`, `Service.ComparatorConsistent`, `Service.SortingOrdersAPermutation`, `Service.DefaultSortIsNewestFirst`, `Service.DescendingNegatesAscending` and `Service.UnrecognisedKeyKeepsOrder`.
- `Service.Paginate` (src/services/BlogService.ts:23-25): one page cut with `slice`. Stated by `Service.PageIsSlice`, `Service.PageOfSorted`, `Service.PagesArePrefix` and `Service.PagesCoverList`.
- `Service.StoreAfterHomePage` (src/repositories/InMemoryBlogRepository.ts:97-107): the store's order after the two in-place sorts of the home page. Stated by `Service.HomePageReordersStore`.
- `Highlight.Pieces`, `Highlight.Render` and `Highlight.HighlightText` (src/services/BlogService.ts:164-167): the scan, the `<mark>$1</mark>` rendering and `highlightText`. Stated by `Highlight.PiecesSpellText`, `Highlight.MarkedPiecesMatchQuery`, `Highlight.PlainPiecesStartNoMatch`, `Highlight.OccurrenceIsMarked` and `Highlight.NoOccurrenceNoChange`.
- `Repository.MatchesQuery` (src/repositories/InMemoryBlogRepository.ts:47-52): the repository's search test. Stated by `Repository.SearchPosts`.
- `Repository.ByViewsDesc` (src/repositories/InMemoryBlogRepository.ts:99) and `Repository.ByDateDesc` (src/repositories/InMemoryBlogRepository.ts:105): the two ranking comparators. Stated by `Repository.ByViewsDescConsistent`, `Repository.ByDateDescConsistent`, `Repository.PopularPostsRanked` and `Repository.RecentPostsRanked`.
- `Cache.Stored` (src/services/CachedBlogService.ts:17-23): the map after `set`. Stated by `Cache.LookupAfterSet`, `Cache.DefaultLifetime` and `Cache.StoredAfterGet`.
- `Cache.PostsKey`, `Cache.PostKey`, `Cache.CategoryKey`, `Cache.AuthorKey` and `Cache.HomePageKey` (src/services/CachedBlogService.ts:46-64): the cache keys. Stated by `Cache.KeyKinds`, `Cache.KeysNeverCollide` and `Cache.IdKeysAreDistinct`.
- `Storage.FirstUserNamed` (server/storage.ts:914-918): the username lookup. Stated by `Storage.FirstUserNamedIsFirst`.
- `Storage.AllPosts`, `Storage.PostsInCategory` and `Storage.SearchStored` (server/storage.ts:927-953): the three date-sorted queries. Stated by `Storage.AllPostsNewestFirst`, `Storage.PostsInCategoryNewestFirst`, `Storage.CategoryIgnoresCase`, `Storage.SearchStoredNewestFirst` and `Storage.SearchFindsAuthor`.

## Left out

- Object identity and aliasing are not modelled; values stand in for objects. In the source:
  - a cached response holds references to the stored post objects, so a later view-count increment also shows in a cached listing or related-post list;
  - `getAllPosts`, `getAllCategories` and `getAllAuthors` hand out shallow copies.
  Here every result is a value taken at the time of the call.
- `toLowerCase` folds ASCII letters only, and `localeCompare` is code-unit order. Unicode case mapping and locale collation are not modelled.
- `highlightText` builds a regular expression from the query without escaping it. The model reads the query literally. Queries containing regular-expression syntax are not modelled.
- Dates are integer timestamps. Parsing date strings with `new Date(...)`, and invalid dates (NaN), are not modelled.
  - The server seed's dates ("Dec 15, 2024" and so on) are written as yyyymmdd numbers, which order the same way.
  - Each seed post's content is cut to its first paragraph.
- `Date.now()` and `new Date()` become the parameter `now`. The two clock reads in `set` (timestamp and expiry) are taken as the same instant.
- Promises and `await` are modelled as sequential calls. `Promise.all` in `getHomePageData` starts its four reads in array order, and none of them awaits.
- The text of the listing cache key (`JSON.stringify` of filters and pagination) is approximated:
  - properties follow a fixed order rather than the caller's;
  - strings are not escaped;
  - every unrecognised sort key is written as "other".
  That listing keys never equal one another for different arguments is not proved; only the prefixes and the id keys are.
- Service.PostsPage: requires a limit of at least 1. The source divides by the limit, and other limits give an infinite, NaN or negative page count.
- Service.BlogService.GetPostsWithPagination: requires a limit of at least 1, as Service.PostsPage does.
- Cache.CachedBlogService.GetPostsWithPagination: requires a limit of at least 1, as Service.PostsPage does.
- Default arguments are passed explicitly. These are the listing's `{}` and `{ page: 1, limit: 10 }` (the constants `NoFilters` and `DefaultPagination`), and the repository's default limits of 5 and 10.
- `CachedBlogService` extends `BlogService` in the source. Here it holds the service it extends in the field `service`.
- `BaseBlogRepository` (the abstract repository interface) and the shared schema of the server records are not part of this model. `User` carries a username and a password, and the store reads only the username.
