/**
 * The skills development page (`/career/skills`): a search over a course's
 * title, description and list of skills, combined with a category selector
 * whose wildcard is "All", and the "no courses" panel.
 */
module CareerSkillsPage {

  import opened Catalogue

  datatype Course = Course(id: int, title: string, description: string, skills: seq<string>, category: string)

  /** `matchesSearch && matchesCategory`, the search ending in `skills.some(...)`. */
  predicate CourseMatches(searchQuery: string, selectedCategory: string, c: Course) {
    (AnyFieldMatches([c.title, c.description], searchQuery) || AnyFieldMatches(c.skills, searchQuery))
    && Selects(selectedCategory, "All", c.category)
  }

  /** `filteredCourses`. */
  function FilteredCourses(courses: seq<Course>, searchQuery: string, selectedCategory: string): (r: seq<Course>)
    ensures forall c :: c in r <==> c in courses && CourseMatches(searchQuery, selectedCategory, c)
    ensures forall c :: multiset(r)[c] == if CourseMatches(searchQuery, selectedCategory, c) then multiset(courses)[c] else 0
    ensures IsSubsequence(r, courses)
  {
    FilterIsSubsequence(c => CourseMatches(searchQuery, selectedCategory, c), courses);
    Filter(c => CourseMatches(searchQuery, selectedCategory, c), courses)
  }

  /** A course whose skill list names the query is found, whatever its title and description say. */
  lemma SkillFindsCourse(courses: seq<Course>, c: Course, k: nat, selectedCategory: string)
    requires c in courses && k < |c.skills| && Selects(selectedCategory, "All", c.category)
    ensures c in FilteredCourses(courses, c.skills[k], selectedCategory)
  {
    FieldMatchesItself(c.skills[k]);
    AnyFieldMatchesIff(c.skills, c.skills[k]);
  }

  /** The "no courses" panel appears exactly when no course passes both tests. */
  lemma NoResultsIff(courses: seq<Course>, searchQuery: string, selectedCategory: string)
    ensures FilteredCourses(courses, searchQuery, selectedCategory) == [] <==>
      forall i :: 0 <= i < |courses| ==> !CourseMatches(searchQuery, selectedCategory, courses[i])
  {
    FilterEmptyIff(c => CourseMatches(searchQuery, selectedCategory, c), courses);
  }
}
