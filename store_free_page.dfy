/**
 * The free-downloads page (`/store/free`): a search over the free resources
 * and the "Total Downloads" figure summed over the whole list.
 */
module StoreFreePage {

  import opened Catalogue

  datatype Resource = Resource(id: int, title: string, description: string, downloads: nat)

  predicate ResourceMatches(searchTerm: string, r: Resource) {
    AnyFieldMatches([r.title, r.description], searchTerm)
  }

  /** `filteredResources`. */
  function FilteredResources(resources: seq<Resource>, searchTerm: string): (r: seq<Resource>)
    ensures forall x :: x in r <==> x in resources && ResourceMatches(searchTerm, x)
    ensures forall x :: multiset(r)[x] == if ResourceMatches(searchTerm, x) then multiset(resources)[x] else 0
    ensures IsSubsequence(r, resources)
  {
    FilterIsSubsequence(x => ResourceMatches(searchTerm, x), resources);
    Filter(x => ResourceMatches(searchTerm, x), resources)
  }

  /** `resources.reduce((sum, r) => sum + r.downloads, 0)`. */
  function TotalDownloads(resources: seq<Resource>): (r: nat)
    ensures forall i :: 0 <= i < |resources| ==> resources[i].downloads <= r
    ensures resources == [] ==> r == 0
    ensures |resources| == 1 ==> r == resources[0].downloads
  {
    if resources == [] then 0 else resources[0].downloads + TotalDownloads(resources[1..])
  }

  /** Summing a list made of two parts is summing each part. */
  lemma {:induction false} TotalDownloadsAppend(a: seq<Resource>, b: seq<Resource>)
    ensures TotalDownloads(a + b) == TotalDownloads(a) + TotalDownloads(b)
  {
    if a != [] {
      TotalDownloadsAppend(a[1..], b);
      assert (a + b)[1..] == a[1..] + b;
    } else {
      assert a + b == b;
    }
  }

  /** Every resource's count is part of the total. */
  lemma {:induction false} TotalCoversEach(resources: seq<Resource>, i: nat)
    requires i < |resources|
    ensures resources[i].downloads <= TotalDownloads(resources)
  {
    if i > 0 {
      TotalCoversEach(resources[1..], i - 1);
    }
  }

  /** The downloads of any search's results never exceed the figure shown for the whole list. */
  lemma {:induction false} FilteredDownloadsWithinTotal(p: Resource -> bool, resources: seq<Resource>)
    ensures TotalDownloads(Filter(p, resources)) <= TotalDownloads(resources)
  {
    if resources != [] {
      FilteredDownloadsWithinTotal(p, resources[1..]);
      if p(resources[0]) {
        assert Filter(p, resources)[1..] == Filter(p, resources[1..]);
      }
    }
  }

  /** The empty search lists every resource. */
  lemma EmptySearchListsEverything(resources: seq<Resource>)
    ensures FilteredResources(resources, "") == resources
  {
    forall i | 0 <= i < |resources| ensures ResourceMatches("", resources[i]) {
      EmptyQueryMatches([resources[i].title, resources[i].description]);
    }
    FilterKeepsAll(x => ResourceMatches("", x), resources);
  }

  /** What the page shows: the search results, the "<n>+ Free Resources" count and the "Total Downloads" figure. */
  datatype FreeView = FreeView(shown: seq<Resource>, resourceCount: nat, totalDownloads: nat)

  /** The two headline figures are computed over the whole list, whatever the search; the results' own downloads stay within the total. */
  function PageView(resources: seq<Resource>, searchTerm: string): (v: FreeView)
    ensures v.shown == FilteredResources(resources, searchTerm)
    ensures v.resourceCount == |resources| && v.totalDownloads == TotalDownloads(resources)
    ensures TotalDownloads(v.shown) <= v.totalDownloads
    ensures |v.shown| <= v.resourceCount
  {
    FilteredDownloadsWithinTotal(x => ResourceMatches(searchTerm, x), resources);
    FreeView(FilteredResources(resources, searchTerm), |resources|, TotalDownloads(resources))
  }
}
