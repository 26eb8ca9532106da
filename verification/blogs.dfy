/**
 * The blog listing page: a search box and a row of category buttons narrow
 * the fixed list of posts. A post is shown when the search term occurs,
 * ignoring case, in its title or its excerpt, and its category is the
 * selected one or the selection is "All".
 */
module Blogs {
  import opened JsString

  /** A blog post, reduced to the fields the filter reads. */
  datatype Post = Post(title: string, excerpt: string, category: string)

  /** The category button that disables the category test. */
  const AllCategories: string := "All"

  /** The page's own state: what is typed in the search box and which category button is selected. */
  datatype BlogPage = BlogPage(searchTerm: string, selectedCategory: string)

  /** The page opens with an empty search and the "All" button selected. */
  function InitialPage(): (p: BlogPage)
    ensures p.searchTerm == "" && p.selectedCategory == AllCategories
  {
    BlogPage("", AllCategories)
  }

  /** Typing in the search box replaces the search term and keeps the category. */
  function SetSearchTerm(page: BlogPage, term: string): (p: BlogPage)
    ensures p.searchTerm == term && p.selectedCategory == page.selectedCategory
  {
    page.(searchTerm := term)
  }

  /** A category button replaces the selected category and keeps the search term. */
  function SelectCategory(page: BlogPage, category: string): (p: BlogPage)
    ensures p.selectedCategory == category && p.searchTerm == page.searchTerm
  {
    page.(selectedCategory := category)
  }

  /** The search test: the lower-cased term occurs somewhere in the lower-cased title or excerpt. */
  function MatchesSearch(post: Post, searchTerm: string): (r: bool)
    ensures r ==> exists i :: OccursAt(Lower(post.title), Lower(searchTerm), i)
                          || OccursAt(Lower(post.excerpt), Lower(searchTerm), i)
    ensures (exists i :: OccursAt(Lower(post.title), Lower(searchTerm), i)
                      || OccursAt(Lower(post.excerpt), Lower(searchTerm), i)) ==> r
  {
    Includes(Lower(post.title), Lower(searchTerm)) || Includes(Lower(post.excerpt), Lower(searchTerm))
  }

  /** The category test: "All" lets every post through, any other selection only its own posts. */
  predicate MatchesCategory(post: Post, selectedCategory: string)
  {
    selectedCategory == AllCategories || post.category == selectedCategory
  }

  /** The predicate passed to `posts.filter`. */
  predicate Keep(post: Post, searchTerm: string, selectedCategory: string)
  {
    MatchesSearch(post, searchTerm) && MatchesCategory(post, selectedCategory)
  }

  /** `posts.filter(...)`: the posts the grid shows, in their original order. */
  function FilteredPosts(posts: seq<Post>, searchTerm: string, selectedCategory: string): (r: seq<Post>)
    ensures |r| <= |posts|
    ensures forall i :: 0 <= i < |r| ==> Keep(r[i], searchTerm, selectedCategory)
  {
    if posts == [] then []
    else
      var rest := FilteredPosts(posts[1..], searchTerm, selectedCategory);
      if Keep(posts[0], searchTerm, selectedCategory) then [posts[0]] + rest else rest
  }

  /** The posts the page currently shows. */
  function Visible(page: BlogPage, posts: seq<Post>): seq<Post>
  {
    FilteredPosts(posts, page.searchTerm, page.selectedCategory)
  }

  /** The "No articles found" message is rendered when the filtered list has no element. */
  predicate ShowsNoArticlesMessage(posts: seq<Post>, searchTerm: string, selectedCategory: string)
  {
    |FilteredPosts(posts, searchTerm, selectedCategory)| == 0
  }

  /** `r` is `s` with some elements removed and the others kept in their order. */
  ghost predicate IsSubsequence<T>(r: seq<T>, s: seq<T>)
    decreases |s|
  {
    if r == [] then true
    else if s == [] then false
    else (r[0] == s[0] && IsSubsequence(r[1..], s[1..])) || IsSubsequence(r, s[1..])
  }

  /** The filter adds nothing and does not reorder: its result is a subsequence of the posts. */
  lemma {:induction false} FilteredIsSubsequence(posts: seq<Post>, searchTerm: string, selectedCategory: string)
    ensures IsSubsequence(FilteredPosts(posts, searchTerm, selectedCategory), posts)
  {
    if posts != [] {
      var rest := FilteredPosts(posts[1..], searchTerm, selectedCategory);
      FilteredIsSubsequence(posts[1..], searchTerm, selectedCategory);
      if Keep(posts[0], searchTerm, selectedCategory) {
        assert ([posts[0]] + rest)[1..] == rest;
      } else if rest != [] {
        assert IsSubsequence(rest, posts[1..]);
      }
    }
  }

  /**
   * The filter neither drops nor duplicates a kept post: each post occurs in
   * the result as often as in the input when it is kept, and never otherwise.
   */
  lemma {:induction false} FilteredCounts(posts: seq<Post>, searchTerm: string, selectedCategory: string, p: Post)
    ensures multiset(FilteredPosts(posts, searchTerm, selectedCategory))[p]
         == if Keep(p, searchTerm, selectedCategory) then multiset(posts)[p] else 0
  {
    if posts != [] {
      FilteredCounts(posts[1..], searchTerm, selectedCategory, p);
      assert posts == [posts[0]] + posts[1..];
    }
  }

  /** A post is shown exactly when it is one of the posts and the filter keeps it. */
  lemma {:induction false} FilteredMembership(posts: seq<Post>, searchTerm: string, selectedCategory: string, p: Post)
    ensures p in FilteredPosts(posts, searchTerm, selectedCategory)
        <==> p in posts && Keep(p, searchTerm, selectedCategory)
  {
    FilteredCounts(posts, searchTerm, selectedCategory, p);
    assert p in posts <==> multiset(posts)[p] > 0;
    assert p in FilteredPosts(posts, searchTerm, selectedCategory)
       <==> multiset(FilteredPosts(posts, searchTerm, selectedCategory))[p] > 0;
  }

  /** With "All" selected the category test never hides a post: every search match is shown. */
  lemma AllCategoriesHidesNoSearchMatch(posts: seq<Post>, searchTerm: string)
    ensures forall p :: p in posts && MatchesSearch(p, searchTerm)
                    ==> p in FilteredPosts(posts, searchTerm, AllCategories)
  {
  }

  /** With any other category selected, exactly the search matches of that category are shown. */
  lemma SelectedCategoryIsExact(posts: seq<Post>, searchTerm: string, selectedCategory: string)
    requires selectedCategory != AllCategories
    ensures forall p :: p in FilteredPosts(posts, searchTerm, selectedCategory)
                    ==> p.category == selectedCategory
    ensures forall p :: p in posts && p.category == selectedCategory && MatchesSearch(p, searchTerm)
                    ==> p in FilteredPosts(posts, searchTerm, selectedCategory)
  {
  }

  /** An empty search with "All" selected shows every post, in order. */
  lemma {:induction false} EmptySearchShowsAll(posts: seq<Post>)
    ensures FilteredPosts(posts, "", AllCategories) == posts
  {
    if posts != [] {
      EmptySearchShowsAll(posts[1..]);
      IncludesEmpty(Lower(posts[0].title));
      assert Lower("") == "";
      assert Keep(posts[0], "", AllCategories);
      assert posts == [posts[0]] + posts[1..];
    }
  }

  /** So the page, as it first renders, lists every post. */
  lemma InitialPageShowsAll(posts: seq<Post>)
    ensures Visible(InitialPage(), posts) == posts
  {
    EmptySearchShowsAll(posts);
  }

  /** The search ignores case: two terms that lower-case alike give the same result. */
  lemma {:induction false} SearchIgnoresCase(posts: seq<Post>, term1: string, term2: string, selectedCategory: string)
    requires Lower(term1) == Lower(term2)
    ensures FilteredPosts(posts, term1, selectedCategory) == FilteredPosts(posts, term2, selectedCategory)
  {
    if posts != [] {
      SearchIgnoresCase(posts[1..], term1, term2, selectedCategory);
      assert Keep(posts[0], term1, selectedCategory) == Keep(posts[0], term2, selectedCategory);
    }
  }

  /** In particular a term and its lower-cased form find the same posts. */
  lemma SearchOfLoweredTerm(posts: seq<Post>, term: string, selectedCategory: string)
    ensures FilteredPosts(posts, Lower(term), selectedCategory) == FilteredPosts(posts, term, selectedCategory)
  {
    LowerIdempotent(term);
    SearchIgnoresCase(posts, Lower(term), term, selectedCategory);
  }

  /** The "No articles found" message appears exactly when no post passes the filter. */
  lemma NoArticlesMessageIff(posts: seq<Post>, searchTerm: string, selectedCategory: string)
    ensures ShowsNoArticlesMessage(posts, searchTerm, selectedCategory)
        <==> forall p :: p in posts ==> !Keep(p, searchTerm, selectedCategory)
  {
    var r := FilteredPosts(posts, searchTerm, selectedCategory);
    if r != [] {
      FilteredMembership(posts, searchTerm, selectedCategory, r[0]);
    } else {
      forall p | p in posts ensures !Keep(p, searchTerm, selectedCategory) {
        FilteredMembership(posts, searchTerm, selectedCategory, p);
      }
    }
  }

  /** Choosing a specific category only narrows what "All" shows for the same search. */
  lemma {:induction false} CategoryNarrowsAll(page: BlogPage, posts: seq<Post>, category: string)
    ensures IsSubsequence(Visible(SelectCategory(page, category), posts),
                          Visible(SelectCategory(page, AllCategories), posts))
  {
    if posts != [] {
      CategoryNarrowsAll(page, posts[1..], category);
      var narrow := Visible(SelectCategory(page, category), posts[1..]);
      var wide := Visible(SelectCategory(page, AllCategories), posts[1..]);
      if Keep(posts[0], page.searchTerm, category) {
        assert ([posts[0]] + narrow)[1..] == narrow;
        assert ([posts[0]] + wide)[1..] == wide;
      } else if MatchesSearch(posts[0], page.searchTerm) {
        SubsequenceOfCons(narrow, wide, posts[0]);
      }
    }
  }

  /** A subsequence of `s` is a subsequence of `s` with one more element in front. */
  lemma SubsequenceOfCons<T>(r: seq<T>, s: seq<T>, x: T)
    requires IsSubsequence(r, s)
    ensures IsSubsequence(r, [x] + s)
  {
  }
}
