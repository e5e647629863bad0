/**
 * The events page (`/events`): the category and search filter over the
 * event list, and the featured-events section.
 */
module EventsPage {

  import opened Catalogue

  datatype Event = Event(id: int, title: string, description: string, category: string, featured: bool)

  predicate EventMatches(selectedCategory: string, searchTerm: string, e: Event) {
    Selects(selectedCategory, "all", e.category) && AnyFieldMatches([e.title, e.description], searchTerm)
  }

  /** `filteredEvents`. */
  function FilteredEvents(events: seq<Event>, selectedCategory: string, searchTerm: string): (r: seq<Event>)
    ensures forall e :: e in r <==> e in events && EventMatches(selectedCategory, searchTerm, e)
    ensures forall e :: multiset(r)[e] == if EventMatches(selectedCategory, searchTerm, e) then multiset(events)[e] else 0
    ensures IsSubsequence(r, events)
  {
    FilterIsSubsequence(e => EventMatches(selectedCategory, searchTerm, e), events);
    Filter(e => EventMatches(selectedCategory, searchTerm, e), events)
  }

  predicate IsFeatured(e: Event) {
    e.featured
  }

  /** `featuredEvents`: every featured event, whatever the search. */
  function FeaturedEvents(events: seq<Event>): (r: seq<Event>)
    ensures forall e :: e in r <==> e in events && e.featured
    ensures forall e :: multiset(r)[e] == if e.featured then multiset(events)[e] else 0
    ensures IsSubsequence(r, events)
  {
    FilterIsSubsequence(IsFeatured, events);
    Filter(IsFeatured, events)
  }

  /** The featured section is rendered only under the "all" category. */
  function FeaturedSection(events: seq<Event>, selectedCategory: string): (shown: seq<Event>)
    ensures selectedCategory != "all" ==> shown == []
    ensures selectedCategory == "all" ==> shown == FeaturedEvents(events)
  {
    if selectedCategory == "all" then FeaturedEvents(events) else []
  }

  /** With the "all" category and an empty search every event is listed, and every featured one also appears in the list. */
  lemma DefaultListsEverything(events: seq<Event>)
    ensures FilteredEvents(events, "all", "") == events
    ensures forall e :: e in FeaturedSection(events, "all") ==> e in FilteredEvents(events, "all", "")
  {
    forall i | 0 <= i < |events| ensures EventMatches("all", "", events[i]) {
      EmptyQueryMatches([events[i].title, events[i].description]);
    }
    FilterKeepsAll(e => EventMatches("all", "", e), events);
  }
}
