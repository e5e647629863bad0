/**
 * The numeracy articles page (`/numeracy/articles`): a search over title and
 * excerpt with a category selector (wildcard "All"), and the "no articles"
 * panel.
 */
module NumeracyArticlesPage {

  import opened Catalogue

  datatype Article = Article(id: int, title: string, excerpt: string, author: string, category: string)

  predicate ArticleMatches(searchQuery: string, selectedCategory: string, a: Article) {
    AnyFieldMatches([a.title, a.excerpt], searchQuery) && Selects(selectedCategory, "All", a.category)
  }

  /** `filteredArticles`. */
  function FilteredArticles(articles: seq<Article>, searchQuery: string, selectedCategory: string): (r: seq<Article>)
    ensures forall a :: a in r <==> a in articles && ArticleMatches(searchQuery, selectedCategory, a)
    ensures forall a :: multiset(r)[a] == if ArticleMatches(searchQuery, selectedCategory, a) then multiset(articles)[a] else 0
    ensures IsSubsequence(r, articles)
  {
    FilterIsSubsequence(a => ArticleMatches(searchQuery, selectedCategory, a), articles);
    Filter(a => ArticleMatches(searchQuery, selectedCategory, a), articles)
  }

  /** The "no articles" panel appears exactly when no article passes both tests. */
  lemma NoResultsIff(articles: seq<Article>, searchQuery: string, selectedCategory: string)
    ensures FilteredArticles(articles, searchQuery, selectedCategory) == [] <==>
      forall i :: 0 <= i < |articles| ==> !ArticleMatches(searchQuery, selectedCategory, articles[i])
  {
    FilterEmptyIff(a => ArticleMatches(searchQuery, selectedCategory, a), articles);
  }

  /** An article's own title, searched under its category, always finds it. */
  lemma TitleSearchFindsArticle(articles: seq<Article>, a: Article)
    requires a in articles
    ensures a in FilteredArticles(articles, a.title, a.category)
  {
    FieldMatchesItself(a.title);
  }

  /** The author is not searched: two articles differing only in author match alike. */
  lemma AuthorNotSearched(searchQuery: string, selectedCategory: string, a: Article, author: string)
    ensures ArticleMatches(searchQuery, selectedCategory, a) == ArticleMatches(searchQuery, selectedCategory, a.(author := author))
  {
  }

  /** The empty query under "All" lists every article. */
  lemma DefaultListsEverything(articles: seq<Article>)
    ensures FilteredArticles(articles, "", "All") == articles
  {
    forall i | 0 <= i < |articles| ensures ArticleMatches("", "All", articles[i]) {
      EmptyQueryMatches([articles[i].title, articles[i].excerpt]);
    }
    FilterKeepsAll(a => ArticleMatches("", "All", a), articles);
  }
}
