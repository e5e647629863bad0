/**
 * The success stories page (`/career/stories`): a search over name, role and
 * story, and a selector labelled "role" that compares against the story's
 * category (wildcard "All").
 */
module CareerStoriesPage {

  import opened Catalogue

  datatype Story = Story(id: int, name: string, role: string, company: string, story: string, achievement: string,
                         category: string)

  predicate StoryMatches(searchQuery: string, selectedRole: string, s: Story) {
    AnyFieldMatches([s.name, s.role, s.story], searchQuery) && Selects(selectedRole, "All", s.category)
  }

  /** `filteredStories`. */
  function FilteredStories(stories: seq<Story>, searchQuery: string, selectedRole: string): (r: seq<Story>)
    ensures forall s :: s in r <==> s in stories && StoryMatches(searchQuery, selectedRole, s)
    ensures forall s :: multiset(r)[s] == if StoryMatches(searchQuery, selectedRole, s) then multiset(stories)[s] else 0
    ensures IsSubsequence(r, stories)
  {
    FilterIsSubsequence(s => StoryMatches(searchQuery, selectedRole, s), stories);
    Filter(s => StoryMatches(searchQuery, selectedRole, s), stories)
  }

  /**
   * The selection is matched against the category, never the role: a story
   * whose role equals the selected value but whose category differs is hidden.
   */
  lemma SelectionComparesCategory(stories: seq<Story>, searchQuery: string, s: Story)
    requires s.role != "All" && s.category != s.role
    ensures s !in FilteredStories(stories, searchQuery, s.role)
  {
  }

  /** The empty search under "All" lists every story. */
  lemma DefaultListsEverything(stories: seq<Story>)
    ensures FilteredStories(stories, "", "All") == stories
  {
    forall i | 0 <= i < |stories| ensures StoryMatches("", "All", stories[i]) {
      EmptyQueryMatches([stories[i].name, stories[i].role, stories[i].story]);
    }
    FilterKeepsAll(s => StoryMatches("", "All", s), stories);
  }

  /** Company and achievement are not searched. */
  lemma CompanyAndAchievementNotSearched(searchQuery: string, selectedRole: string, s: Story, company: string, achievement: string)
    ensures StoryMatches(searchQuery, selectedRole, s)
         == StoryMatches(searchQuery, selectedRole, s.(company := company, achievement := achievement))
  {
  }
}
