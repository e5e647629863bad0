/**
 * The reading resources page (`/literacy/reading`): a level selector in
 * which "All" shows everything, and in which a resource whose own level is
 * "All" is shown under every level.
 */
module LiteracyReadingPage {

  import opened Catalogue

  datatype Resource = Resource(id: int, title: string, level: string, resourceType: string)

  predicate ShownAtLevel(selectedLevel: string, r: Resource) {
    r.level == selectedLevel || r.level == "All"
  }

  /** `filteredResources`: the whole list under "All", otherwise the matching and all-level resources. */
  function FilteredResources(resources: seq<Resource>, selectedLevel: string): (r: seq<Resource>)
    ensures selectedLevel == "All" ==> r == resources
    ensures forall x :: x in r <==> x in resources && (selectedLevel == "All" || ShownAtLevel(selectedLevel, x))
    ensures forall x :: multiset(r)[x] == if selectedLevel == "All" || ShownAtLevel(selectedLevel, x) then multiset(resources)[x] else 0
    ensures IsSubsequence(r, resources)
  {
    if selectedLevel == "All" then
      FilterIsSubsequence(x => true, resources);
      FilterKeepsAll(x => true, resources);
      resources
    else
      FilterIsSubsequence(x => ShownAtLevel(selectedLevel, x), resources);
      Filter(x => ShownAtLevel(selectedLevel, x), resources)
  }

  /** A resource for all levels is listed whatever level is selected. */
  lemma AllLevelResourceAlwaysShown(resources: seq<Resource>, x: Resource, selectedLevel: string)
    requires x in resources && x.level == "All"
    ensures x in FilteredResources(resources, selectedLevel)
  {
  }

  /** The "no resources" panel appears exactly when no resource has the selected level or level "All". */
  lemma NoResultsIff(resources: seq<Resource>, selectedLevel: string)
    ensures FilteredResources(resources, selectedLevel) == [] <==>
      resources == [] || (selectedLevel != "All" && forall i :: 0 <= i < |resources| ==> !ShownAtLevel(selectedLevel, resources[i]))
  {
    if selectedLevel != "All" {
      FilterEmptyIff(x => ShownAtLevel(selectedLevel, x), resources);
    }
  }
}
