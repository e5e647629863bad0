/**
 * The numeracy books page (`/numeracy/books`): a search over title,
 * description and list of topics, combined with a level selector (wildcard
 * "All"), and the "no books" panel.
 */
module NumeracyBooksPage {

  import opened Catalogue

  datatype Book = Book(id: int, title: string, description: string, topics: seq<string>, level: string)

  /** `matchesSearch && matchesLevel`, the search ending in `topics.some(...)`. */
  predicate BookMatches(searchQuery: string, selectedLevel: string, b: Book) {
    (AnyFieldMatches([b.title, b.description], searchQuery) || AnyFieldMatches(b.topics, searchQuery))
    && Selects(selectedLevel, "All", b.level)
  }

  /** `filteredBooks`. */
  function FilteredBooks(books: seq<Book>, searchQuery: string, selectedLevel: string): (r: seq<Book>)
    ensures forall b :: b in r <==> b in books && BookMatches(searchQuery, selectedLevel, b)
    ensures forall b :: multiset(r)[b] == if BookMatches(searchQuery, selectedLevel, b) then multiset(books)[b] else 0
    ensures IsSubsequence(r, books)
  {
    FilterIsSubsequence(b => BookMatches(searchQuery, selectedLevel, b), books);
    Filter(b => BookMatches(searchQuery, selectedLevel, b), books)
  }

  /** A book is found by any one of its topics, at its own level and under "All". */
  lemma TopicFindsBook(books: seq<Book>, b: Book, k: nat)
    requires b in books && k < |b.topics|
    ensures b in FilteredBooks(books, b.topics[k], b.level)
    ensures b in FilteredBooks(books, b.topics[k], "All")
  {
    FieldMatchesItself(b.topics[k]);
    AnyFieldMatchesIff(b.topics, b.topics[k]);
  }

  /** The "no books" panel appears exactly when no book passes both tests. */
  lemma NoResultsIff(books: seq<Book>, searchQuery: string, selectedLevel: string)
    ensures FilteredBooks(books, searchQuery, selectedLevel) == [] <==>
      forall i :: 0 <= i < |books| ==> !BookMatches(searchQuery, selectedLevel, books[i])
  {
    FilterEmptyIff(b => BookMatches(searchQuery, selectedLevel, b), books);
  }
}
