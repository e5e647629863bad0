/**
 * The writing tools page (`/literacy/writing`): a category selector in which
 * "All" shows everything, the per-tool "<n> item(s)" label, and the
 * "no tools" panel.
 */
module LiteracyWritingPage {

  import opened Text
  import opened Catalogue

  datatype Tool = Tool(id: int, title: string, category: string, items: nat)

  predicate InCategory(selectedCategory: string, t: Tool) {
    t.category == selectedCategory
  }

  /** `filteredTools`. */
  function FilteredTools(tools: seq<Tool>, selectedCategory: string): (r: seq<Tool>)
    ensures selectedCategory == "All" ==> r == tools
    ensures selectedCategory != "All" ==> forall t :: t in r <==> t in tools && t.category == selectedCategory
    ensures selectedCategory != "All" ==>
      forall t :: multiset(r)[t] == if t.category == selectedCategory then multiset(tools)[t] else 0
    ensures IsSubsequence(r, tools)
  {
    if selectedCategory == "All" then
      FilterIsSubsequence(t => true, tools);
      FilterKeepsAll(t => true, tools);
      tools
    else
      FilterIsSubsequence(t => InCategory(selectedCategory, t), tools);
      Filter(t => InCategory(selectedCategory, t), tools)
  }

  /** `{tool.items} {tool.items === 1 ? 'item' : 'items'}`. */
  function ItemsLabel(items: nat): (shown: string)
    ensures shown == Decimal(items) + " item" || shown == Decimal(items) + " items"
    ensures shown[|shown| - 1] == 's' <==> items != 1
  {
    Decimal(items) + " " + (if items == 1 then "item" else "items")
  }

  /** The "no tools" panel appears exactly when the list is empty or the category selects no tool. */
  lemma NoResultsIff(tools: seq<Tool>, selectedCategory: string)
    ensures FilteredTools(tools, selectedCategory) == [] <==>
      tools == [] || (selectedCategory != "All" && forall i :: 0 <= i < |tools| ==> tools[i].category != selectedCategory)
  {
    if selectedCategory != "All" {
      FilterEmptyIff(t => InCategory(selectedCategory, t), tools);
    }
  }
}
