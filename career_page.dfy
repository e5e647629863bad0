/**
 * The career page (`/career`): one search box filtering both the career
 * paths (title, description) and the success stories (name, role, story),
 * with the "<n> paths found" and "<n> stories found" counts.
 */
module CareerPage {

  import opened Catalogue

  datatype CareerPath = CareerPath(id: int, title: string, description: string)
  datatype Story = Story(id: int, name: string, role: string, story: string)

  predicate PathMatches(searchTerm: string, p: CareerPath) {
    AnyFieldMatches([p.title, p.description], searchTerm)
  }

  predicate StoryMatches(searchTerm: string, s: Story) {
    AnyFieldMatches([s.name, s.role, s.story], searchTerm)
  }

  /** `filteredCareerPaths`. */
  function FilteredCareerPaths(paths: seq<CareerPath>, searchTerm: string): (r: seq<CareerPath>)
    ensures forall p :: p in r <==> p in paths && PathMatches(searchTerm, p)
    ensures forall p :: multiset(r)[p] == if PathMatches(searchTerm, p) then multiset(paths)[p] else 0
    ensures IsSubsequence(r, paths)
  {
    FilterIsSubsequence(p => PathMatches(searchTerm, p), paths);
    Filter(p => PathMatches(searchTerm, p), paths)
  }

  /** `filteredSuccessStories`. */
  function FilteredSuccessStories(stories: seq<Story>, searchTerm: string): (r: seq<Story>)
    ensures forall s :: s in r <==> s in stories && StoryMatches(searchTerm, s)
    ensures forall s :: multiset(r)[s] == if StoryMatches(searchTerm, s) then multiset(stories)[s] else 0
    ensures IsSubsequence(r, stories)
  {
    FilterIsSubsequence(s => StoryMatches(searchTerm, s), stories);
    Filter(s => StoryMatches(searchTerm, s), stories)
  }

  /** The two counts shown under the headings never exceed the lists they count. */
  lemma CountsWithinLists(paths: seq<CareerPath>, stories: seq<Story>, searchTerm: string)
    ensures |FilteredCareerPaths(paths, searchTerm)| <= |paths|
    ensures |FilteredSuccessStories(stories, searchTerm)| <= |stories|
  {
  }

  /** A story is found by its role alone, even when neither its name nor its text mention the query. */
  lemma RoleSearchFindsStory(stories: seq<Story>, s: Story)
    requires s in stories
    ensures s in FilteredSuccessStories(stories, s.role)
  {
    FieldMatchesItself(s.role);
    AnyFieldMatchesIff([s.name, s.role, s.story], s.role);
    assert [s.name, s.role, s.story][1] == s.role;
  }

  /** The empty search lists every path and every story. */
  lemma EmptySearchListsEverything(paths: seq<CareerPath>, stories: seq<Story>)
    ensures FilteredCareerPaths(paths, "") == paths
    ensures FilteredSuccessStories(stories, "") == stories
  {
    forall i | 0 <= i < |paths| ensures PathMatches("", paths[i]) {
      EmptyQueryMatches([paths[i].title, paths[i].description]);
    }
    FilterKeepsAll(p => PathMatches("", p), paths);
    forall i | 0 <= i < |stories| ensures StoryMatches("", stories[i]) {
      EmptyQueryMatches([stories[i].name, stories[i].role, stories[i].story]);
    }
    FilterKeepsAll(s => StoryMatches("", s), stories);
  }
}
