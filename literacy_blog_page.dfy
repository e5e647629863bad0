/**
 * The literacy blog page (`/literacy/blog`): a search over title and excerpt
 * with a category selector (wildcard "All"), and the "no posts" panel.
 */
module LiteracyBlogPage {

  import opened Catalogue

  datatype Post = Post(id: int, title: string, excerpt: string, category: string)

  predicate PostMatches(searchQuery: string, selectedCategory: string, p: Post) {
    AnyFieldMatches([p.title, p.excerpt], searchQuery) && Selects(selectedCategory, "All", p.category)
  }

  /** `filteredPosts`. */
  function FilteredPosts(posts: seq<Post>, searchQuery: string, selectedCategory: string): (r: seq<Post>)
    ensures forall p :: p in r <==> p in posts && PostMatches(searchQuery, selectedCategory, p)
    ensures forall p :: multiset(r)[p] == if PostMatches(searchQuery, selectedCategory, p) then multiset(posts)[p] else 0
    ensures IsSubsequence(r, posts)
  {
    FilterIsSubsequence(p => PostMatches(searchQuery, selectedCategory, p), posts);
    Filter(p => PostMatches(searchQuery, selectedCategory, p), posts)
  }

  /** The "no posts" panel appears exactly when no post passes both tests. */
  lemma NoResultsIff(posts: seq<Post>, searchQuery: string, selectedCategory: string)
    ensures FilteredPosts(posts, searchQuery, selectedCategory) == [] <==>
      forall i :: 0 <= i < |posts| ==> !PostMatches(searchQuery, selectedCategory, posts[i])
  {
    FilterEmptyIff(p => PostMatches(searchQuery, selectedCategory, p), posts);
  }

  /** The empty search under "All" lists every post, so the panel never shows for a non-empty blog. */
  lemma DefaultListsEverything(posts: seq<Post>)
    ensures FilteredPosts(posts, "", "All") == posts
  {
    forall i | 0 <= i < |posts| ensures PostMatches("", "All", posts[i]) {
      EmptyQueryMatches([posts[i].title, posts[i].excerpt]);
    }
    FilterKeepsAll(p => PostMatches("", "All", p), posts);
  }
}
