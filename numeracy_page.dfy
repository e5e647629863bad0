/**
 * The numeracy landing page (`/numeracy`): a search over the gallery
 * preview's titles and descriptions, with the "<n> items found" count.
 */
module NumeracyPage {

  import opened Text
  import opened Catalogue

  datatype GalleryItem = GalleryItem(id: int, title: string, description: string, category: string, difficulty: string)

  predicate ItemMatches(searchTerm: string, g: GalleryItem) {
    AnyFieldMatches([g.title, g.description], searchTerm)
  }

  /** `filteredGalleryItems`; its length is the count under the heading. */
  function FilteredGalleryItems(items: seq<GalleryItem>, searchTerm: string): (r: seq<GalleryItem>)
    ensures forall g :: g in r <==> g in items && ItemMatches(searchTerm, g)
    ensures forall g :: multiset(r)[g] == if ItemMatches(searchTerm, g) then multiset(items)[g] else 0
    ensures IsSubsequence(r, items)
    ensures |r| <= |items|
  {
    FilterIsSubsequence(g => ItemMatches(searchTerm, g), items);
    Filter(g => ItemMatches(searchTerm, g), items)
  }

  /** The search ignores case on both sides: an upper-case query finds what its lower-case form finds. */
  lemma SearchIgnoresCase(items: seq<GalleryItem>, searchTerm: string)
    ensures FilteredGalleryItems(items, Lower(searchTerm)) == FilteredGalleryItems(items, searchTerm)
  {
    forall i | 0 <= i < |items|
      ensures ItemMatches(Lower(searchTerm), items[i]) == ItemMatches(searchTerm, items[i])
    {
      SearchIgnoresQueryCase([items[i].title, items[i].description], searchTerm);
    }
    FilterCongruent(g => ItemMatches(Lower(searchTerm), g), g => ItemMatches(searchTerm, g), items);
  }

  /** Category and difficulty are shown on the cards but never searched. */
  lemma CategoryAndDifficultyNotSearched(searchTerm: string, g: GalleryItem, category: string, difficulty: string)
    ensures ItemMatches(searchTerm, g) == ItemMatches(searchTerm, g.(category := category, difficulty := difficulty))
  {
  }

  /** The empty search lists every item. */
  lemma EmptySearchListsEverything(items: seq<GalleryItem>)
    ensures FilteredGalleryItems(items, "") == items
  {
    forall i | 0 <= i < |items| ensures ItemMatches("", items[i]) {
      EmptyQueryMatches([items[i].title, items[i].description]);
    }
    FilterKeepsAll(g => ItemMatches("", g), items);
  }
}
