/** The server's in-memory store (`MemStorage`, server/storage.ts): users and
    blog posts in two maps keyed by numeric id, each with a counter that
    hands out the next id. Maps iterate in insertion order; ids are handed out
    in increasing order and nothing is ever removed, so insertion order is id
    order. Post dates are the timestamps `new Date(date)` yields, written here
    as yyyymmdd numbers, which order the same way. */
module Storage {
  import opened Sequences
  import opened Text

  /** The record shapes come from the shared schema, which is not part of
      this model; the store itself only reads `username`. */
  datatype InsertUser = InsertUser(username: string, password: string)

  datatype User = User(id: int, username: string, password: string)

  datatype InsertBlogPost = InsertBlogPost(
    title: string,
    category: string,
    author: string,
    date: int,
    readTime: string,
    excerpt: string,
    content: string)

  datatype BlogPost = BlogPost(
    id: int,
    title: string,
    category: string,
    author: string,
    date: int,
    readTime: string,
    excerpt: string,
    content: string)

  /** `{ ...insertUser, id }`. */
  function NewUser(u: InsertUser, id: int): (r: User)
  {
    User(id, u.username, u.password)
  }

  /** `{ ...insertPost, id }`. */
  function NewPost(p: InsertBlogPost, id: int): (r: BlogPost)
  {
    BlogPost(id, p.title, p.category, p.author, p.date, p.readTime, p.excerpt, p.content)
  }

  // ---------------------------------------------------------------- the maps

  /** The ids below `next` are exactly the keys, and each record carries its key. */
  ghost predicate UsersNumbered(users: map<int, User>, next: int)
  {
    && next >= 1
    && (forall k :: k in users <==> 1 <= k < next)
    && (forall k :: k in users ==> users[k].id == k)
  }

  ghost predicate PostsNumbered(posts: map<int, BlogPost>, next: int)
  {
    && next >= 1
    && (forall k :: k in posts <==> 1 <= k < next)
    && (forall k :: k in posts ==> posts[k].id == k)
  }

  /** `Array.from(map.values())` for a map whose keys were inserted in
      increasing order, all below `next`. */
  function InIdOrder<V(==,!new)>(m: map<int, V>, next: int): (r: seq<V>)
    ensures forall v :: v in r ==> v in m.Values
    decreases next
  {
    if next <= 1 then []
    else InIdOrder(m, next - 1) + (if next - 1 in m then [m[next - 1]] else [])
  }

  lemma {:induction false} InIdOrderIndexes<V(!new)>(m: map<int, V>, next: int)
    requires next >= 1
    requires forall k :: k in m <==> 1 <= k < next
    ensures |InIdOrder(m, next)| == next - 1
    ensures forall i :: 0 <= i < next - 1 ==> InIdOrder(m, next)[i] == m[i + 1]
    decreases next
  {
    if next > 1 {
      var smaller := map k | k in m && k < next - 1 :: m[k];
      InIdOrderIndexes(smaller, next - 1);
      InIdOrderIgnoresLaterKeys(m, smaller, next - 1);
    }
  }

  lemma {:induction false} InIdOrderIgnoresLaterKeys<V(!new)>(m: map<int, V>, smaller: map<int, V>, next: int)
    requires forall k :: k < next ==> (k in m <==> k in smaller)
    requires forall k :: k in smaller && k < next ==> m[k] == smaller[k]
    ensures InIdOrder(m, next) == InIdOrder(smaller, next)
    decreases next
  {
    if next > 1 {
      InIdOrderIgnoresLaterKeys(m, smaller, next - 1);
    }
  }

  /** Every stored value appears in the listing. */
  lemma InIdOrderHasEveryValue<V(!new)>(m: map<int, V>, next: int)
    requires next >= 1
    requires forall k :: k in m <==> 1 <= k < next
    ensures forall v :: v in InIdOrder(m, next) <==> v in m.Values
  {
    InIdOrderIndexes(m, next);
    forall v | v in m.Values ensures v in InIdOrder(m, next) {
      var k :| k in m && m[k] == v;
      assert InIdOrder(m, next)[k - 1] == v;
    }
  }

  // ---------------------------------------------------------------- queries

  /** The comparator the store sorts by: `new Date(b.date) - new Date(a.date)`. */
  function NewestFirst(a: BlogPost, b: BlogPost): (r: int)
  {
    b.date - a.date
  }

  /** Creation order, which the stable sort keeps among posts of one date. */
  function CreatedFirst(a: BlogPost, b: BlogPost): (r: int)
  {
    a.id - b.id
  }

  lemma NewestFirstConsistent()
    ensures Consistent(NewestFirst)
  {
  }

  /** The store's listing before sorting is in creation order. */
  lemma StoredInCreationOrder(posts: map<int, BlogPost>, next: int)
    requires PostsNumbered(posts, next)
    ensures SortedBy(InIdOrder(posts, next), CreatedFirst)
  {
    InIdOrderIndexes(posts, next);
  }

  /** `getUserByUsername`: the first user, in insertion order, with that name. */
  function FirstUserNamed(users: map<int, User>, next: int, username: string): (r: Option<User>)
  {
    Find(InIdOrder(users, next), (u: User) => u.username == username)
  }

  /** `getUserByUsername` answers nothing exactly when no user has the name,
      and otherwise the user of that name created first. */
  lemma FirstUserNamedIsFirst(users: map<int, User>, next: int, username: string)
    requires UsersNumbered(users, next)
    ensures FirstUserNamed(users, next, username).None? <==>
      forall k :: k in users ==> users[k].username != username
    ensures FirstUserNamed(users, next, username).Some? ==>
      var u := FirstUserNamed(users, next, username).value;
      && u.id in users && users[u.id] == u && u.username == username
      && forall k :: k in users && users[k].username == username ==> u.id <= k
  {
    var listed := InIdOrder(users, next);
    InIdOrderIndexes(users, next);
    InIdOrderHasEveryValue(users, next);
    var r := FirstUserNamed(users, next, username);
    if r.None? {
      forall k | k in users ensures users[k].username != username {
        assert listed[k - 1] == users[k];
      }
    } else {
      var i :| 0 <= i < |listed| && listed[i] == r.value
        && forall j :: 0 <= j < i ==> listed[j].username != username;
      assert listed[i] == users[i + 1];
      forall k | k in users && users[k].username == username ensures r.value.id <= k {
        assert listed[k - 1] == users[k];
      }
    }
  }

  /** `getAllBlogPosts`. */
  function AllPosts(posts: map<int, BlogPost>, next: int): (r: seq<BlogPost>)
  {
    SortBy(InIdOrder(posts, next), NewestFirst)
  }

  /** A listing of `kept` that holds the right posts, newest first, posts of
      one date in creation order. */
  ghost predicate ListsNewestFirst(r: seq<BlogPost>, posts: map<int, BlogPost>, kept: BlogPost -> bool)
  {
    && (forall p :: p in r <==> p in posts.Values && kept(p))
    && SortedThenBy(r, NewestFirst, CreatedFirst)
  }

  /** Sorting a creation-ordered selection of the store lists it newest first. */
  lemma SortedSelection(posts: map<int, BlogPost>, next: int, kept: BlogPost -> bool)
    requires PostsNumbered(posts, next)
    ensures ListsNewestFirst(SortBy(Filter(InIdOrder(posts, next), kept), NewestFirst), posts, kept)
    ensures multiset(SortBy(Filter(InIdOrder(posts, next), kept), NewestFirst)) == multiset(Filter(InIdOrder(posts, next), kept))
  {
    var listed := InIdOrder(posts, next);
    var selected := Filter(listed, kept);
    var r := SortBy(selected, NewestFirst);
    InIdOrderHasEveryValue(posts, next);
    StoredInCreationOrder(posts, next);
    FilterKeepsOrder(listed, kept);
    NewestFirstConsistent();
    SortByKeepsTiesInOrder(selected, NewestFirst, CreatedFirst);
    forall p ensures p in r <==> p in selected {
      assert p in r <==> p in multiset(r);
    }
  }

  /** Filtering a creation-ordered listing keeps it in creation order. */
  lemma {:induction false} FilterKeepsOrder(s: seq<BlogPost>, kept: BlogPost -> bool)
    requires SortedBy(s, CreatedFirst)
    ensures SortedBy(Filter(s, kept), CreatedFirst)
  {
    if s != [] {
      assert SortedBy(s[1..], CreatedFirst);
      FilterKeepsOrder(s[1..], kept);
      var rest := Filter(s[1..], kept);
      if kept(s[0]) {
        forall j | 0 <= j < |rest| ensures CreatedFirst(s[0], rest[j]) <= 0 {
          assert rest[j] in s[1..];
        }
      }
    }
  }

  /** `getAllBlogPosts` lists every stored post once, newest first, posts of
      one date in creation order. */
  lemma AllPostsNewestFirst(posts: map<int, BlogPost>, next: int)
    requires PostsNumbered(posts, next)
    ensures ListsNewestFirst(AllPosts(posts, next), posts, (p: BlogPost) => true)
    ensures |AllPosts(posts, next)| == next - 1
  {
    var listed := InIdOrder(posts, next);
    FilterKeepsAll(listed, (p: BlogPost) => true);
    SortedSelection(posts, next, (p: BlogPost) => true);
    InIdOrderIndexes(posts, next);
  }

  /** `post.category.toLowerCase() === category.toLowerCase()`. */
  predicate InCategory(p: BlogPost, category: string)
  {
    Lower(p.category) == Lower(category)
  }

  /** `getBlogPostsByCategory`. */
  function PostsInCategory(posts: map<int, BlogPost>, next: int, category: string): (r: seq<BlogPost>)
  {
    SortBy(Filter(InIdOrder(posts, next), (p: BlogPost) => InCategory(p, category)), NewestFirst)
  }

  /** `getBlogPostsByCategory` lists exactly the posts filed under the
      category, compared without case, newest first. */
  lemma PostsInCategoryNewestFirst(posts: map<int, BlogPost>, next: int, category: string)
    requires PostsNumbered(posts, next)
    ensures ListsNewestFirst(PostsInCategory(posts, next, category), posts, (p: BlogPost) => InCategory(p, category))
  {
    SortedSelection(posts, next, (p: BlogPost) => InCategory(p, category));
  }

  /** The case of the category asked for does not matter. */
  lemma CategoryIgnoresCase(posts: map<int, BlogPost>, next: int, category: string)
    ensures PostsInCategory(posts, next, Lower(category)) == PostsInCategory(posts, next, category)
  {
    LowerIdempotent(category);
    FilterCongruent(InIdOrder(posts, next), (p: BlogPost) => InCategory(p, Lower(category)),
      (p: BlogPost) => InCategory(p, category));
  }

  /** The search test: the lowercased query occurs in the lowercased title,
      excerpt, content or author. */
  predicate MatchesTerm(p: BlogPost, query: string)
  {
    var searchTerm := Lower(query);
    || Contains(Lower(p.title), searchTerm)
    || Contains(Lower(p.excerpt), searchTerm)
    || Contains(Lower(p.content), searchTerm)
    || Contains(Lower(p.author), searchTerm)
  }

  /** `searchBlogPosts`. */
  function SearchStored(posts: map<int, BlogPost>, next: int, query: string): (r: seq<BlogPost>)
  {
    SortBy(Filter(InIdOrder(posts, next), (p: BlogPost) => MatchesTerm(p, query)), NewestFirst)
  }

  /** `searchBlogPosts` lists exactly the posts that match, newest first. */
  lemma SearchStoredNewestFirst(posts: map<int, BlogPost>, next: int, query: string)
    requires PostsNumbered(posts, next)
    ensures ListsNewestFirst(SearchStored(posts, next, query), posts, (p: BlogPost) => MatchesTerm(p, query))
  {
    SortedSelection(posts, next, (p: BlogPost) => MatchesTerm(p, query));
  }

  /** The author's name is searched: every post matches its own author. */
  lemma SearchFindsAuthor(p: BlogPost)
    ensures MatchesTerm(p, p.author)
  {
    assert OccursAt(Lower(p.author), Lower(p.author), 0);
  }

  // ---------------------------------------------------------------- the seed

  /** Seed post `i` of the fifteen the constructor creates, in order (each
      content is cut to its first paragraph). */
  function SeedPost(i: nat): (r: InsertBlogPost)
    requires i < 15
  {
    match i
    case 0 => InsertBlogPost(
      "Understanding Angular Signals: A Comprehensive Guide",
      "Angular", "Sarah Chen", 20241215, "8 min read",
      "Explore the new reactive programming paradigm in Angular with Signals. Learn how to implement fine-grained reactivity and improve your application's performance with this revolutionary feature.",
      "Angular Signals represent a fundamental shift in how we handle reactivity in Angular applications. This guide explores the concepts, implementation, and best practices for using signals effectively.")
    case 1 => InsertBlogPost(
      "Advanced Angular Routing Techniques",
      "Angular", "Mike Rodriguez", 20241212, "12 min read",
      "Master complex routing scenarios with lazy loading, guards, resolvers, and nested routes. Discover best practices for large-scale Angular applications and improve your navigation architecture.",
      "Angular's routing system is one of its most powerful features, enabling developers to create sophisticated single-page applications with complex navigation patterns.")
    case 2 => InsertBlogPost(
      "RxJS Operators Every Angular Developer Should Know",
      "Angular", "Elena Popov", 20241210, "15 min read",
      "Deep dive into essential RxJS operators like map, switchMap, combineLatest, and merge. Learn when and how to use each operator effectively in your Angular applications.",
      "RxJS is the backbone of Angular's reactive programming model. Understanding key operators is crucial for building efficient Angular applications.")
    case 3 => InsertBlogPost(
      "Testing Angular Components with Jest and Testing Library",
      "Angular", "David Kim", 20241208, "10 min read",
      "Learn modern testing strategies for Angular applications. Set up Jest, write effective unit tests, and use Angular Testing Library for better component testing practices.",
      "Testing is crucial for maintaining high-quality Angular applications. Modern testing approaches focus on user behavior rather than implementation details.")
    case 4 => InsertBlogPost(
      "Angular Standalone Components: The Future of Angular",
      "Angular", "Anna Thompson", 20241205, "9 min read",
      "Discover how standalone components simplify Angular development. Learn migration strategies, best practices, and how to build modern Angular apps without NgModules.",
      "Standalone components represent a significant evolution in Angular architecture, simplifying application structure and reducing boilerplate code.")
    case 5 => InsertBlogPost(
      "State Management in Angular: NgRx vs. Akita vs. NGXS",
      "Angular", "Carlos Silva", 20241203, "14 min read",
      "Compare popular Angular state management solutions. Understand the trade-offs, performance implications, and choose the right tool for your project size and complexity.",
      "Choosing the right state management solution is crucial for Angular applications. Let's compare the most popular options.")
    case 6 => InsertBlogPost(
      "Angular Performance Optimization Techniques",
      "Angular", "Lisa Zhang", 20241130, "11 min read",
      "Master performance optimization in Angular applications. Learn about OnPush change detection, lazy loading, tree shaking, and modern bundling strategies for faster apps.",
      "Performance is crucial for user experience. Angular provides many tools and techniques for optimization.")
    case 7 => InsertBlogPost(
      "Angular Forms: Reactive vs Template-Driven Deep Dive",
      "Angular", "Robert Johnson", 20241128, "13 min read",
      "Master both Angular form approaches. Learn when to use reactive forms vs template-driven forms, custom validators, and advanced form patterns for complex UIs.",
      "Angular offers two powerful approaches to form handling, each with distinct advantages and use cases.")
    case 8 => InsertBlogPost(
      "Building Micro Frontends with Angular Elements",
      "Angular", "Jennifer Wu", 20241125, "16 min read",
      "Learn how to create reusable Angular components as custom elements. Build micro frontends, share components across frameworks, and integrate with legacy systems.",
      "Angular Elements enables you to package Angular components as custom elements that can be used in any web application.")
    case 9 => InsertBlogPost(
      "Angular Animation API: Creating Smooth UI Transitions",
      "Angular", "Marcus Brown", 20241122, "7 min read",
      "Master Angular's powerful animation system. Create smooth transitions, complex keyframe animations, and improve user experience with thoughtful motion design.",
      "Angular's animation API provides powerful tools for creating engaging user interfaces with smooth transitions and animations.")
    case 10 => InsertBlogPost(
      "React Server Components: The Future of React Architecture",
      "React", "Alex Turner", 20241214, "12 min read",
      "Explore the revolutionary React Server Components. Learn how they improve performance, reduce bundle sizes, and enable new patterns for modern web applications.",
      "React Server Components represent a paradigm shift in how we build React applications, enabling server-side rendering with client-side interactivity.")
    case 11 => InsertBlogPost(
      "Advanced React Hooks: useCallback, useMemo, and Custom Hooks",
      "React", "Maya Patel", 20241211, "10 min read",
      "Master performance optimization hooks and learn to build powerful custom hooks. Understand when and how to use memoization effectively in React applications.",
      "Advanced React hooks enable performance optimization and code reusability. Learn when and how to use them effectively.")
    case 12 => InsertBlogPost(
      "State Management in React: Redux Toolkit vs. Zustand vs. Jotai",
      "React", "James Wilson", 20241207, "14 min read",
      "Compare modern React state management solutions. Learn the pros and cons of each approach and choose the right tool for your application's complexity and scale.",
      "Choosing the right state management solution depends on your application's complexity and team preferences.")
    case 13 => InsertBlogPost(
      "Testing React Applications with React Testing Library",
      "React", "Sofia Martinez", 20241204, "9 min read",
      "Learn modern testing practices for React apps. Write maintainable tests that focus on user behavior rather than implementation details using React Testing Library.",
      "React Testing Library encourages better testing practices by focusing on how users interact with your components.")
    case _ => InsertBlogPost(
      "React Performance Optimization: Profiling and Best Practices",
      "React", "Tom Anderson", 20241201, "11 min read",
      "Master React performance optimization techniques. Use React DevTools profiler, implement code splitting, and optimize rendering for large-scale applications.",
      "React performance optimization requires understanding when and why components re-render, and how to prevent unnecessary work.")
  }

  /** The fifteen posts the constructor creates, in order. */
  function SeedPosts(): (r: seq<InsertBlogPost>)
    ensures |r| == 15
  {
    seq(15, i requires 0 <= i < 15 => SeedPost(i))
  }

  // ---------------------------------------------------------------- the store

  class MemStorage {
    var users: map<int, User>
    var blogPosts: map<int, BlogPost>
    var currentUserId: int
    var currentPostId: int

    ghost predicate Valid()
      reads this
    {
      UsersNumbered(users, currentUserId) && PostsNumbered(blogPosts, currentPostId)
    }

    /** Starts empty with both counters at 1 and creates the seed posts. */
    constructor ()
      ensures Valid()
      ensures users == map[] && currentUserId == 1
      ensures currentPostId == |SeedPosts()| + 1
      ensures forall k :: 1 <= k <= |SeedPosts()| ==> blogPosts[k] == NewPost(SeedPosts()[k - 1], k)
    {
      users := map[];
      blogPosts := map[];
      currentUserId := 1;
      currentPostId := 1;
      new;
      InitializeBlogPosts(SeedPosts());
    }

    /** `initializeBlogPosts`: creates the posts one after another on an
        empty store, so they get ids 1, 2, ... in their listed order. */
    method InitializeBlogPosts(posts: seq<InsertBlogPost>)
      requires Valid() && blogPosts == map[] && currentPostId == 1
      modifies this
      ensures Valid()
      ensures users == old(users) && currentUserId == old(currentUserId)
      ensures currentPostId == |posts| + 1
      ensures forall k :: 1 <= k <= |posts| ==> blogPosts[k] == NewPost(posts[k - 1], k)
    {
      for i := 0 to |posts|
        invariant Valid()
        invariant users == old(users) && currentUserId == old(currentUserId)
        invariant currentPostId == i + 1
        invariant forall k :: 1 <= k <= i ==> blogPosts[k] == NewPost(posts[k - 1], k)
      {
        var created := CreateBlogPost(posts[i]);
      }
    }

    /** `getUser(id)`. */
    method GetUser(id: int) returns (r: Option<User>)
      ensures r.Some? <==> id in users
      ensures r.Some? ==> r.value == users[id]
    {
      if id in users {
        r := Some(users[id]);
      } else {
        r := None;
      }
    }

    /** `getUserByUsername(username)`. */
    method GetUserByUsername(username: string) returns (r: Option<User>)
      ensures r == FirstUserNamed(users, currentUserId, username)
    {
      r := Find(InIdOrder(users, currentUserId), (u: User) => u.username == username);
    }

    /** `createUser`: the user gets the current counter as id, which is above
        every id in use; the counter moves on by one. */
    method CreateUser(insertUser: InsertUser) returns (user: User)
      requires Valid()
      modifies this
      ensures Valid()
      ensures user == NewUser(insertUser, old(currentUserId))
      ensures forall k :: k in old(users) ==> k < user.id
      ensures users == old(users)[user.id := user]
      ensures currentUserId == old(currentUserId) + 1
      ensures blogPosts == old(blogPosts) && currentPostId == old(currentPostId)
    {
      var id := currentUserId;
      currentUserId := currentUserId + 1;
      user := NewUser(insertUser, id);
      users := users[id := user];
    }

    /** `getAllBlogPosts()`. */
    method GetAllBlogPosts() returns (r: seq<BlogPost>)
      ensures r == AllPosts(blogPosts, currentPostId)
    {
      r := SortBy(InIdOrder(blogPosts, currentPostId), NewestFirst);
    }

    /** `getBlogPost(id)`. */
    method GetBlogPost(id: int) returns (r: Option<BlogPost>)
      ensures r.Some? <==> id in blogPosts
      ensures r.Some? ==> r.value == blogPosts[id]
    {
      if id in blogPosts {
        r := Some(blogPosts[id]);
      } else {
        r := None;
      }
    }

    /** `getBlogPostsByCategory(category)`. */
    method GetBlogPostsByCategory(category: string) returns (r: seq<BlogPost>)
      ensures r == PostsInCategory(blogPosts, currentPostId, category)
    {
      var listed := InIdOrder(blogPosts, currentPostId);
      r := SortBy(Filter(listed, (p: BlogPost) => InCategory(p, category)), NewestFirst);
    }

    /** `searchBlogPosts(query)`. */
    method SearchBlogPosts(query: string) returns (r: seq<BlogPost>)
      ensures r == SearchStored(blogPosts, currentPostId, query)
    {
      var listed := InIdOrder(blogPosts, currentPostId);
      r := SortBy(Filter(listed, (p: BlogPost) => MatchesTerm(p, query)), NewestFirst);
    }

    /** `createBlogPost`: the post gets the current counter as id, which is
        above every id in use; the counter moves on by one. */
    method CreateBlogPost(insertPost: InsertBlogPost) returns (post: BlogPost)
      requires Valid()
      modifies this
      ensures Valid()
      ensures post == NewPost(insertPost, old(currentPostId))
      ensures forall k :: k in old(blogPosts) ==> k < post.id
      ensures blogPosts == old(blogPosts)[post.id := post]
      ensures currentPostId == old(currentPostId) + 1
      ensures users == old(users) && currentUserId == old(currentUserId)
    {
      var id := currentPostId;
      currentPostId := currentPostId + 1;
      post := NewPost(insertPost, id);
      blogPosts := blogPosts[id := post];
    }
  }
}
