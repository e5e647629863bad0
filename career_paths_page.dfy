/**
 * The career paths page (`/career/paths`): a search over title and
 * description combined with a sector selector whose wildcard is "All".
 */
module CareerPathsPage {

  import opened Catalogue

  datatype CareerPath = CareerPath(id: int, title: string, description: string, sector: string)

  predicate PathMatches(searchQuery: string, selectedSector: string, p: CareerPath) {
    AnyFieldMatches([p.title, p.description], searchQuery) && Selects(selectedSector, "All", p.sector)
  }

  /** `filteredPaths`. */
  function FilteredPaths(paths: seq<CareerPath>, searchQuery: string, selectedSector: string): (r: seq<CareerPath>)
    ensures forall p :: p in r <==> p in paths && PathMatches(searchQuery, selectedSector, p)
    ensures forall p :: multiset(r)[p] == if PathMatches(searchQuery, selectedSector, p) then multiset(paths)[p] else 0
    ensures IsSubsequence(r, paths)
  {
    FilterIsSubsequence(p => PathMatches(searchQuery, selectedSector, p), paths);
    Filter(p => PathMatches(searchQuery, selectedSector, p), paths)
  }

  /** A specific sector shows only that sector's paths, and each of its paths that the search finds. */
  lemma SectorSelection(paths: seq<CareerPath>, searchQuery: string, sector: string)
    requires sector != "All"
    ensures forall i :: 0 <= i < |FilteredPaths(paths, searchQuery, sector)| ==>
      FilteredPaths(paths, searchQuery, sector)[i].sector == sector
    ensures forall p :: p in paths && p.sector == sector && AnyFieldMatches([p.title, p.description], searchQuery) ==>
      p in FilteredPaths(paths, searchQuery, sector)
  {
    var r := FilteredPaths(paths, searchQuery, sector);
    forall i | 0 <= i < |r| ensures r[i].sector == sector {
      assert r[i] in r;
    }
  }

  /** The empty search under "All" lists every path. */
  lemma DefaultListsEverything(paths: seq<CareerPath>)
    ensures FilteredPaths(paths, "", "All") == paths
  {
    forall i | 0 <= i < |paths| ensures PathMatches("", "All", paths[i]) {
      EmptyQueryMatches([paths[i].title, paths[i].description]);
    }
    FilterKeepsAll(p => PathMatches("", "All", p), paths);
  }
}
