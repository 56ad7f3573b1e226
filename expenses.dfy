/** The expense list: which expenses the search, category and date filters
    keep, and the colour of each category badge. */
module Expenses {
  import opened Wrappers
  import opened JsStrings
  import opened Seqs
  import opened BookingTypes
  import opened Ui

  /** The search box: empty matches everything; otherwise a case-insensitive
      substring of the description, the vendor (when there is one) or the
      property. */
  predicate SearchMatches(e: Expense, query: string) {
    var q := ToLower(query);
    query == ""
    || Contains(ToLower(e.description), q)
    || (e.vendor != "" && Contains(ToLower(e.vendor), q))
    || Contains(ToLower(e.property), q)
  }

  /** The category drop-down: "all", or the category compared without case. */
  predicate CategoryMatches(e: Expense, categoryFilter: string) {
    categoryFilter == "all" || ToLower(e.category) == ToLower(categoryFilter)
  }

  /** The date drop-down keeps nothing unless it is "all". */
  predicate DateMatches(dateFilter: string) {
    dateFilter == "all"
  }

  predicate Matches(e: Expense, query: string, categoryFilter: string, dateFilter: string) {
    SearchMatches(e, query) && CategoryMatches(e, categoryFilter) && DateMatches(dateFilter)
  }

  /** `filteredExpenses`: undefined while the expenses are not loaded. */
  function FilteredExpenses(expenses: Option<seq<Expense>>, query: string, categoryFilter: string,
                            dateFilter: string): (r: Option<seq<Expense>>)
    ensures r.Some? <==> expenses.Some?
    ensures r.Some? ==> |r.value| <= |expenses.value|
    ensures r.Some? ==> forall x :: x in r.value ==> x in expenses.value && Matches(x, query, categoryFilter, dateFilter)
  {
    match expenses
    case None => None
    case Some(s) => Some(Filter(s, e => Matches(e, query, categoryFilter, dateFilter)))
  }

  /** The filter keeps the list's order and keeps every expense that matches. */
  lemma FilteredExpensesExact(s: seq<Expense>, query: string, categoryFilter: string, dateFilter: string, i: nat)
    requires i < |s|
    ensures IsSubsequence(FilteredExpenses(Some(s), query, categoryFilter, dateFilter).value, s)
    ensures s[i] in FilteredExpenses(Some(s), query, categoryFilter, dateFilter).value
            <==> Matches(s[i], query, categoryFilter, dateFilter)
  {
    var p := (e: Expense) => Matches(e, query, categoryFilter, dateFilter);
    FilterIsSubsequence(s, p);
    if p(s[i]) {
      FilterKeeps(s, p, i);
    }
  }

  /** With the default filters every expense is listed. */
  lemma FilteredExpensesDefaults(s: seq<Expense>)
    ensures FilteredExpenses(Some(s), "", "all", "all") == Some(s)
  {
    FilterAll(s, (e: Expense) => Matches(e, "", "all", "all"));
  }

  /** Any date choice other than "all" empties the list. */
  lemma FilteredExpensesDateChoice(s: seq<Expense>, query: string, categoryFilter: string, dateFilter: string)
    requires dateFilter != "all"
    ensures FilteredExpenses(Some(s), query, categoryFilter, dateFilter) == Some([])
  {
    FilterNone(s, (e: Expense) => Matches(e, query, categoryFilter, dateFilter));
  }

  /** The category test ignores the case of the chosen value, and a stored
      category matches the drop-down's lower-case value for it. */
  lemma CategoryIgnoresCase(e: Expense, categoryFilter: string)
    requires categoryFilter != "all"
    ensures CategoryMatches(e, ToUpper(categoryFilter)) == CategoryMatches(e, categoryFilter)
    ensures CategoryMatches(e, ToLower(e.category))
  {
    LowerOfUpper(categoryFilter);
    LowerIdempotent(e.category);
  }

  lemma LowerIdempotent(s: string)
    ensures ToLower(ToLower(s)) == ToLower(s)
  {
    assert forall i :: 0 <= i < |s| ==> ToLower(ToLower(s))[i] == ToLower(s)[i];
  }

  /** The search ignores the case of the query. */
  lemma SearchIgnoresQueryCase(e: Expense, query: string)
    ensures SearchMatches(e, ToUpper(query)) == SearchMatches(e, query)
  {
    LowerOfUpper(query);
  }

  /** An expense without a vendor is found by its description or property
      only, and one whose vendor contains the query is always found. */
  lemma SearchVendor(e: Expense, query: string)
    ensures e.vendor == "" ==>
      (SearchMatches(e, query)
       <==> query == "" || Contains(ToLower(e.description), ToLower(query)) || Contains(ToLower(e.property), ToLower(query)))
    ensures Contains(ToLower(e.vendor), ToLower(query)) ==> SearchMatches(e, query)
  {
  }

  /** `getCategoryBadge`: four categories have their own colour; any other
      (including the lower-case drop-down values) falls back to gray. */
  function CategoryBadge(category: string): (c: BadgeColour)
    ensures c != Gray <==> category in {"Maintenance", "Utilities", "Personnel", "Supplies"}
  {
    match category
    case "Maintenance" => Blue
    case "Utilities" => Yellow
    case "Personnel" => Purple
    case "Supplies" => Green
    case _ => Gray
  }

  /** The badge is case-sensitive where the filter is not: "maintenance"
      passes the Maintenance filter but is shown in the default colour, and
      the edit form's "Marketing" and "Other" are always gray. */
  lemma CategoryBadgeCaseSensitive(e: Expense)
    requires e.category == "maintenance"
    ensures CategoryMatches(e, "Maintenance") && CategoryBadge(e.category) == Gray
    ensures CategoryBadge("Maintenance") == Blue
    ensures CategoryBadge("Marketing") == Gray && CategoryBadge("Other") == Gray
  {
    assert ToLower("Maintenance") == ToLower("maintenance");
  }
}
