/**
 * The numeracy gallery page (`/numeracy/gallery`): a search over title and
 * description with two selectors, category and difficulty (both with the
 * wildcard "All"), the "Showing <n> of <m> items" line and the "no items"
 * panel.
 */
module NumeracyGalleryPage {

  import opened Catalogue

  datatype Item = Item(id: int, title: string, description: string, category: string, difficulty: string)

  predicate ItemMatches(searchQuery: string, selectedCategory: string, selectedDifficulty: string, g: Item) {
    AnyFieldMatches([g.title, g.description], searchQuery)
    && Selects(selectedCategory, "All", g.category)
    && Selects(selectedDifficulty, "All", g.difficulty)
  }

  /** `filteredItems`. */
  function FilteredItems(items: seq<Item>, searchQuery: string, selectedCategory: string, selectedDifficulty: string)
    : (r: seq<Item>)
    ensures forall g :: g in r <==> g in items && ItemMatches(searchQuery, selectedCategory, selectedDifficulty, g)
    ensures forall g :: multiset(r)[g] == if ItemMatches(searchQuery, selectedCategory, selectedDifficulty, g) then multiset(items)[g] else 0
    ensures IsSubsequence(r, items)
  {
    FilterIsSubsequence(g => ItemMatches(searchQuery, selectedCategory, selectedDifficulty, g), items);
    Filter(g => ItemMatches(searchQuery, selectedCategory, selectedDifficulty, g), items)
  }

  /** "Showing <n> of <m> items": the shown count never exceeds the total. */
  function ShowingLine(items: seq<Item>, searchQuery: string, selectedCategory: string, selectedDifficulty: string)
    : (counts: (nat, nat))
    ensures counts.0 == |FilteredItems(items, searchQuery, selectedCategory, selectedDifficulty)|
    ensures counts.1 == |items|
    ensures counts.0 <= counts.1
    ensures counts.0 == 0 <==>
      forall i :: 0 <= i < |items| ==> !ItemMatches(searchQuery, selectedCategory, selectedDifficulty, items[i])
  {
    var shown := FilteredItems(items, searchQuery, selectedCategory, selectedDifficulty);
    FilterEmptyIff(g => ItemMatches(searchQuery, selectedCategory, selectedDifficulty, g), items);
    (|shown|, |items|)
  }

  /** Narrowing one selector from "All" to a value never shows more items. */
  lemma NarrowingNeverAdds(items: seq<Item>, searchQuery: string, category: string, selectedDifficulty: string)
    ensures forall g :: g in FilteredItems(items, searchQuery, category, selectedDifficulty) ==>
      g in FilteredItems(items, searchQuery, "All", selectedDifficulty)
  {
  }

  /** "All"/"All" with the empty query lists every item. */
  lemma DefaultListsEverything(items: seq<Item>)
    ensures FilteredItems(items, "", "All", "All") == items
  {
    forall i | 0 <= i < |items| ensures ItemMatches("", "All", "All", items[i]) {
      EmptyQueryMatches([items[i].title, items[i].description]);
    }
    FilterKeepsAll(g => ItemMatches("", "All", "All", g), items);
  }
}
