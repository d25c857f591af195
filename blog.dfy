/** The derived views of the blog page (`src/routes/Blog.tsx`): the category
    list, the category-and-search filter, the featured post and the grid of
    regular posts, as functions of the selected category and the search query. */
module Blog {
  import opened Wrappers
  import opened Lists
  import opened Text

  /** The fields of a post that the page's logic reads. */
  datatype Post = Post(id: int, title: string, excerpt: string, category: string,
                       tags: seq<string>, featured: bool)

  /** The page's filter state: `selectedCategory` (null is `None`) and `searchQuery`. */
  datatype Filters = Filters(category: Option<string>, query: string)

  /** The six posts the page lists, given the excerpt of each post by id. */
  function BlogPosts(excerpt: int -> string): (r: seq<Post>)
    ensures |r| == 6 && forall i :: 0 <= i < 6 ==> r[i].id == i + 1 && r[i].excerpt == excerpt(i + 1)
  {
    [ Post(1, "The Future of Learning Management Systems in South Africa", excerpt(1),
           "Industry Insights", ["LMS", "South Africa", "EdTech", "Future Trends"], true),
      Post(2, "Building Effective Online Learning Programs: A Complete Guide", excerpt(2),
           "Best Practices", ["Online Learning", "Instructional Design", "Best Practices"], false),
      Post(3, "Why South African Businesses Are Switching to Modern LMS Platforms", excerpt(3),
           "Case Studies", ["Business", "Migration", "Case Studies", "ROI"], false),
      Post(4, "Mobile Learning: The Key to Reaching Remote Workforces", excerpt(4),
           "Technology", ["Mobile Learning", "Remote Work", "UX Design"], false),
      Post(5, "Measuring Learning ROI: Metrics That Matter for South African Organizations", excerpt(5),
           "Analytics", ["Analytics", "ROI", "Metrics", "Business Value"], false),
      Post(6, "Creating Inclusive Learning Experiences for Diverse Teams", excerpt(6),
           "Diversity & Inclusion", ["Inclusion", "Diversity", "Learning Design", "Accessibility"], false) ]
  }

  /** The excerpt of each post, by id. */
  function Excerpt(id: int): string {
    match id
    case 1 => "Exploring how LMS technology is evolving to meet the unique needs of South African educational institutions and businesses."
    case 2 => "Step-by-step guide to creating engaging online learning experiences that drive real results for your organization."
    case 3 => "Case studies and insights into the migration from legacy learning systems to modern, cloud-based LMS solutions."
    case 4 => "How mobile-first learning design is revolutionizing training delivery for distributed teams across South Africa."
    case 5 => "A practical framework for measuring the return on investment of your learning and development programs."
    case 6 => "Best practices for designing learning programs that work for South Africa's diverse workforce and student population."
    case _ => ""
  }

  /** `blogPosts`: the posts with their excerpts. */
  function PagePosts(): seq<Post> {
    BlogPosts(Excerpt)
  }

  /** `posts.map(post => post.category)`. */
  function CategoryOf(posts: seq<Post>): (r: seq<string>)
    ensures |r| == |posts| && forall i :: 0 <= i < |posts| ==> r[i] == posts[i].category
  {
    seq(|posts|, i requires 0 <= i < |posts| => posts[i].category)
  }

  /** `['All', ...new Set(categories)]`: the filter buttons. */
  function Categories(posts: seq<Post>): (r: seq<string>)
    ensures |r| >= 1 && r[0] == "All"
    ensures forall c :: c in r[1..] <==> exists p :: p in posts && p.category == c
    ensures NoDuplicates(r[1..])
  {
    var cs := CategoryOf(posts);
    assert forall c :: c in cs <==> exists p :: p in posts && p.category == c by {
      forall c ensures c in cs <==> exists p :: p in posts && p.category == c {
        if c in cs {
          var i :| 0 <= i < |cs| && cs[i] == c;
          assert posts[i] in posts;
        }
        if exists p :: p in posts && p.category == c {
          var p :| p in posts && p.category == c;
          var i :| 0 <= i < |posts| && posts[i] == p;
          assert cs[i] == c;
        }
      }
    }
    assert (["All"] + Dedup(cs))[1..] == Dedup(cs);
    ["All"] + Dedup(cs)
  }

  /** After 'All', the buttons follow the first appearance of each category. */
  lemma CategoriesInFirstAppearanceOrder(posts: seq<Post>)
    ensures var r := Categories(posts)[1..]; var cs := CategoryOf(posts);
      forall i, j :: 0 <= i < j < |r| ==> IndexOf(cs, r[i]) < IndexOf(cs, r[j])
  {
    var cs := CategoryOf(posts);
    DedupFirstOccurrenceOrder(cs);
    assert Categories(posts)[1..] == Dedup(cs);
  }

  /** The buttons are pairwise distinct exactly when no post is filed under 'All'. */
  lemma CategoryButtonsDistinct(posts: seq<Post>)
    ensures NoDuplicates(Categories(posts)) <==> forall p :: p in posts ==> p.category != "All"
  {
    var r := Categories(posts);
    if forall p :: p in posts ==> p.category != "All" {
      forall i, j | 0 <= i < j < |r| ensures r[i] != r[j] {
        if i == 0 {
          assert r[j] == r[1..][j - 1];
          assert r[j] in r[1..];
        } else {
          assert r[i] == r[1..][i - 1] && r[j] == r[1..][j - 1];
        }
      }
    } else {
      var p :| p in posts && p.category == "All";
      assert "All" in r[1..];
      var j :| 0 <= j < |r[1..]| && r[1..][j] == "All";
      assert r[0] == r[j + 1];
    }
  }

  /** The categories of the page's posts, in post order, whatever their excerpts. */
  lemma BlogPostCategories(excerpt: int -> string)
    ensures CategoryOf(BlogPosts(excerpt)) ==
      ["Industry Insights", "Best Practices", "Case Studies", "Technology",
       "Analytics", "Diversity & Inclusion"]
  {
  }

  /** The page's categories, in order: 'All' and the six categories of its posts. */
  lemma BlogCategories(excerpt: int -> string)
    ensures Categories(BlogPosts(excerpt)) ==
      ["All", "Industry Insights", "Best Practices", "Case Studies", "Technology",
       "Analytics", "Diversity & Inclusion"]
  {
    var cs := ["Industry Insights", "Best Practices", "Case Studies", "Technology",
               "Analytics", "Diversity & Inclusion"];
    BlogPostCategories(excerpt);
    assert NoDuplicates(cs);
    DedupOfDistinct(cs);
  }

  /** The blog page shows the buttons 'All' and its six categories. */
  lemma PageCategories()
    ensures Categories(PagePosts()) ==
      ["All", "Industry Insights", "Best Practices", "Case Studies", "Technology",
       "Analytics", "Diversity & Inclusion"]
  {
    BlogCategories(Excerpt);
  }

  /** The category test of the filter. */
  predicate MatchesCategory(selected: Option<string>, p: Post) {
    selected.None? || selected.value == "All" || p.category == selected.value
  }

  /** The search test: an empty query matches; otherwise the lower-cased query must
      occur in the lower-cased title, excerpt or one of the tags. */
  predicate MatchesSearch(query: string, p: Post) {
    query == "" ||
    Contains(ToLower(p.title), ToLower(query)) ||
    Contains(ToLower(p.excerpt), ToLower(query)) ||
    exists tag :: tag in p.tags && Contains(ToLower(tag), ToLower(query))
  }

  /** With no category or 'All' every post passes the category test; with any
      other category exactly the posts of that category pass. */
  lemma CategoryTestMeaning(selected: Option<string>, p: Post)
    ensures selected.None? || selected == Some("All") ==> MatchesCategory(selected, p)
    ensures selected.Some? && selected.value != "All" ==>
      (MatchesCategory(selected, p) <==> p.category == selected.value)
  {
  }

  /** A post whose title, excerpt or one of whose tags contains the query as
      typed is found, whatever the case of either. */
  lemma SearchFindsVerbatim(query: string, p: Post)
    ensures Contains(p.title, query) ==> MatchesSearch(query, p)
    ensures Contains(p.excerpt, query) ==> MatchesSearch(query, p)
    ensures (exists tag :: tag in p.tags && Contains(tag, query)) ==> MatchesSearch(query, p)
  {
    ContainsLower(p.title, query);
    ContainsLower(p.excerpt, query);
    if tag :| tag in p.tags && Contains(tag, query) {
      ContainsLower(tag, query);
    }
  }

  /** A non-empty query that occurs (ignoring case) in none of the title, the
      excerpt and the tags rejects the post. */
  lemma SearchRejectsMisses(query: string, p: Post)
    requires query != ""
    requires !Contains(ToLower(p.title), ToLower(query))
    requires !Contains(ToLower(p.excerpt), ToLower(query))
    requires forall tag :: tag in p.tags ==> !Contains(ToLower(tag), ToLower(query))
    ensures !MatchesSearch(query, p)
  {
  }

  /** The search ignores the case of the query. */
  lemma SearchIgnoresQueryCase(query: string, p: Post)
    ensures MatchesSearch(ToLower(query), p) == MatchesSearch(query, p)
  {
    ToLowerIdempotent(query);
  }

  function PostFilter(selected: Option<string>, query: string): Post -> bool {
    (p: Post) => MatchesCategory(selected, p) && MatchesSearch(query, p)
  }

  /** `filteredPosts`: the posts passing both tests, in their original order. */
  function FilteredPosts(posts: seq<Post>, f: Filters): (r: seq<Post>)
    ensures IsSubsequence(r, posts)
    ensures forall p :: p in r <==> p in posts && MatchesCategory(f.category, p) && MatchesSearch(f.query, p)
  {
    Filter(posts, PostFilter(f.category, f.query))
  }

  /** With no category (or 'All') and an empty query, every post is listed. */
  lemma NoFilterListsAll(posts: seq<Post>, f: Filters)
    requires f.category.None? || f.category == Some("All")
    requires f.query == ""
    ensures FilteredPosts(posts, f) == posts
  {
    FilterKeepsAll(posts, PostFilter(f.category, f.query));
  }

  function IsFeatured(): Post -> bool {
    (p: Post) => p.featured
  }

  /** `blogPosts.find(post => post.featured)`: the first featured post. */
  function FeaturedPost(posts: seq<Post>): (r: Option<Post>)
    ensures r.None? <==> forall p :: p in posts ==> !p.featured
    ensures r.Some? ==> exists i :: 0 <= i < |posts| && posts[i] == r.value && posts[i].featured &&
                                  forall j :: 0 <= j < i ==> !posts[j].featured
  {
    Find(posts, IsFeatured())
  }

  /** The page's featured post is post 1, and post 1 is the only featured post. */
  lemma BlogFeaturedPost(excerpt: int -> string)
    ensures FeaturedPost(BlogPosts(excerpt)) == Some(BlogPosts(excerpt)[0])
    ensures forall i :: 1 <= i < 6 ==> !BlogPosts(excerpt)[i].featured
  {
    var ps := BlogPosts(excerpt);
    assert IsFeatured()(ps[0]);
  }

  function NotFeatured(): Post -> bool {
    (p: Post) => !p.featured
  }

  function RegularFilter(f: Filters): Post -> bool {
    (p: Post) => !p.featured || f.category.Some? || f.query != ""
  }

  /** `regularPosts`: the grid. Featured posts are dropped only while no category is
      selected and the query is empty; otherwise the grid is `filteredPosts`. */
  function RegularPosts(filtered: seq<Post>, f: Filters): (r: seq<Post>)
    ensures IsSubsequence(r, filtered)
    ensures f.category.None? && f.query == "" ==>
      forall p :: p in r <==> p in filtered && !p.featured
    ensures f.category.None? && f.query == "" ==> r == Filter(filtered, NotFeatured())
    ensures f.category.Some? || f.query != "" ==> r == filtered
  {
    if f.category.Some? || f.query != "" then
      FilterKeepsAll(filtered, RegularFilter(f));
      Filter(filtered, RegularFilter(f))
    else
      FilterCongruent(filtered, RegularFilter(f), NotFeatured());
      Filter(filtered, RegularFilter(f))
  }

  /** The featured section is shown iff a featured post exists, no category is
      selected and the query is empty. */
  predicate ShowFeatured(posts: seq<Post>, f: Filters) {
    FeaturedPost(posts).Some? && f.category.None? && f.query == ""
  }

  /** A post is never shown twice: while the featured section is visible its post is
      not in the grid; while it is hidden the grid holds every filtered post. */
  lemma FeaturedShownOnce(posts: seq<Post>, f: Filters)
    ensures ShowFeatured(posts, f) ==>
      FeaturedPost(posts).value !in RegularPosts(FilteredPosts(posts, f), f)
    ensures !ShowFeatured(posts, f) && (f.category.Some? || f.query != "") ==>
      RegularPosts(FilteredPosts(posts, f), f) == FilteredPosts(posts, f)
  {
  }

  /** The state on arrival: no category, empty query. */
  function InitialFilters(): Filters {
    Filters(None, "")
  }

  /** A category button: choosing 'All' stores null. */
  function SelectCategory(f: Filters, c: string): (r: Filters)
    ensures r.query == f.query
    ensures r.category.None? <==> c == "All"
    ensures c != "All" ==> r.category == Some(c)
  {
    f.(category := if c == "All" then None else Some(c))
  }

  /** The search box. */
  function SetQuery(f: Filters, q: string): (r: Filters)
    ensures r.category == f.category && r.query == q
  {
    f.(query := q)
  }

  /** "Clear Filters": back to the initial state. */
  function ClearFilters(f: Filters): (r: Filters)
    ensures r == InitialFilters()
  {
    Filters(None, "")
  }

  /** After "Clear Filters" every post is listed and the featured section shows iff
      a featured post exists. */
  lemma ClearFiltersShowsEverything(posts: seq<Post>, f: Filters)
    ensures FilteredPosts(posts, ClearFilters(f)) == posts
    ensures ShowFeatured(posts, ClearFilters(f)) <==> exists p :: p in posts && p.featured
  {
    NoFilterListsAll(posts, ClearFilters(f));
  }

  /** The highlighted button: the selected category, or 'All' when none is. */
  predicate IsActive(f: Filters, c: string) {
    f.category == Some(c) || (f.category.None? && c == "All")
  }

  /** Clicking a button highlights that button, and only buttons with its label. */
  lemma ClickedButtonIsActive(f: Filters, c: string, d: string)
    ensures IsActive(SelectCategory(f, c), d) <==> d == c
  {
  }
}
