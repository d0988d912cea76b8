/** The expense list page: the search and category filter, and the list of
    categories offered in its category selector. */
module ExpensesPage {
  import opened Seqs
  import opened Text
  import opened ExpenseContext

  /** The description or the category contains the search term, ignoring case.
      An empty term matches every expense, and so does a term equal to the
      description or the category up to case. */
  predicate MatchesSearch(e: Expense, term: string)
    ensures term == "" ==> MatchesSearch(e, term)
    ensures ToLower(e.description) == ToLower(term) ==> MatchesSearch(e, term)
    ensures ToLower(e.category) == ToLower(term) ==> MatchesSearch(e, term)
  {
    assert term == "" ==> ToLower(term) == "";
    ContainsEmpty(ToLower(e.description));
    ContainsSelf(ToLower(e.description));
    ContainsSelf(ToLower(e.category));
    Contains(ToLower(e.description), ToLower(term)) || Contains(ToLower(e.category), ToLower(term))
  }

  /** No category is selected, or the expense has exactly the selected one:
      the empty selection and an expense's own category always match, and a
      non-empty selection matches only its own category. */
  predicate MatchesCategory(e: Expense, selected: string)
    ensures selected == "" ==> MatchesCategory(e, selected)
    ensures selected == e.category ==> MatchesCategory(e, selected)
    ensures selected != "" && MatchesCategory(e, selected) ==> e.category == selected
  {
    selected == "" || e.category == selected
  }

  /** `filteredExpenses`: the expenses matching both the search term and the
      selected category, in list order. */
  function FilteredExpenses(es: seq<Expense>, term: string, selected: string): (r: seq<Expense>)
    ensures IsSubsequence(r, es)
    ensures forall x :: x in r <==> x in es && MatchesSearch(x, term) && MatchesCategory(x, selected)
    ensures selected != "" ==> forall i :: 0 <= i < |r| ==> r[i].category == selected
    ensures term == "" && selected == "" ==> r == es
    ensures forall x :: multiset(r)[x] == (if MatchesSearch(x, term) && MatchesCategory(x, selected) then multiset(es)[x] else 0)
  {
    Filter(es, (x: Expense) => MatchesSearch(x, term) && MatchesCategory(x, selected))
  }

  /** `expenses.map(x => x.category)`. */
  function CategoriesOf(es: seq<Expense>): (r: seq<string>)
    ensures |r| == |es|
    ensures forall i :: 0 <= i < |es| ==> r[i] == es[i].category
  {
    seq(|es|, i requires 0 <= i < |es| => es[i].category)
  }

  /** `[...new Set(expenses.map(x => x.category))]`: the categories in use,
      each once, in the order in which they first occur. */
  function PageCategories(es: seq<Expense>): (r: seq<string>)
    ensures forall c :: c in r <==> exists i :: 0 <= i < |es| && es[i].category == c
    ensures forall c :: c in r <==> c in CategoriesOf(es)
    ensures NoDuplicates(r)
    ensures forall i, j :: 0 <= i < j < |r| ==> FirstIndex(CategoriesOf(es), r[i]) < FirstIndex(CategoriesOf(es), r[j])
  {
    var cs := CategoriesOf(es);
    assert forall c :: c in cs <==> exists i :: 0 <= i < |es| && es[i].category == c by {
      forall c ensures c in cs <==> exists i :: 0 <= i < |es| && es[i].category == c {
        if c in cs {
          var i :| 0 <= i < |cs| && cs[i] == c;
          assert es[i].category == c;
        }
      }
    }
    Distinct(cs)
  }
}
