/** The entities of the blog content layer (`src/types/blog.ts`). Dates are
    the millisecond timestamps that `new Date(...).getTime()` yields. */
module BlogTypes {
  import opened Sequences

  datatype Post = Post(
    id: string,
    title: string,
    excerpt: string,
    content: string,
    author: string,
    date: int,
    category: string,
    tags: seq<string>,
    readTime: int,
    featured: bool,
    imageUrl: Option<string>,
    slug: Option<string>,
    viewCount: Option<int>,
    likes: Option<int>)

  datatype Category = Category(
    id: string,
    name: string,
    slug: string,
    description: string,
    postCount: Option<int>,
    color: Option<string>)

  datatype SocialLinks = SocialLinks(twitter: Option<string>, linkedin: Option<string>, github: Option<string>)

  datatype Author = Author(
    id: string,
    name: string,
    bio: string,
    avatar: string,
    socialLinks: SocialLinks,
    postCount: Option<int>,
    joinDate: Option<int>)

  /** `viewCount || 0`: a post without a count has been viewed zero times. */
  function Views(p: Post): (r: int)
  {
    match p.viewCount
    case Some(v) => v
    case None => 0
  }

  datatype DateRange = DateRange(start: int, end: int)

  /** `BlogFilters`: every criterion is optional. */
  datatype Filters = Filters(
    category: Option<string>,
    author: Option<string>,
    tags: Option<seq<string>>,
    featured: Option<bool>,
    search: Option<string>,
    dateRange: Option<DateRange>)

  /** The `{}` that `getPostsWithPagination` defaults its filters to. */
  const NoFilters := Filters(None, None, None, None, None, None)

  /** `sortBy`; `Unrecognised` stands for any other value a caller passes. */
  datatype SortKey = ByDate | ByTitle | ByReadTime | ByViewCount | Unrecognised

  /** `sortOrder`; any value other than 'asc' sorts descending. */
  datatype SortOrder = Asc | Desc

  datatype Pagination = Pagination(page: int, limit: int, sortBy: Option<SortKey>, sortOrder: Option<SortOrder>)

  /** The `{ page: 1, limit: 10 }` that `getPostsWithPagination` defaults to. */
  const DefaultPagination := Pagination(1, 10, None, None)

  datatype PageInfo = PageInfo(page: int, limit: int, total: nat, totalPages: int)

  datatype Meta = Meta(lastUpdated: int, cacheExpiry: int)

  /** `BlogResponse<BlogPost[]>` as the listing returns it. */
  datatype BlogResponse = BlogResponse(data: seq<Post>, pagination: PageInfo, meta: Meta)

  /** `BlogPost & { relatedPosts: BlogPost[] }`. */
  datatype PostWithRelated = PostWithRelated(post: Post, relatedPosts: seq<Post>)

  /** `Category & { posts: BlogPost[] }`. */
  datatype CategoryWithPosts = CategoryWithPosts(category: Category, posts: seq<Post>)

  /** `Author & { posts: BlogPost[] }`. */
  datatype AuthorWithPosts = AuthorWithPosts(author: Author, posts: seq<Post>)

  datatype HomePageData = HomePageData(
    featuredPosts: seq<Post>,
    recentPosts: seq<Post>,
    popularPosts: seq<Post>,
    categories: seq<Category>)
}
