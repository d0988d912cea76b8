/** The dashboard's derived values: the usage percentage, the progress bar's
    width and colour, the allowance input fallback and the recent-expenses
    list. */
module Dashboard {
  import opened Wrappers
  import opened Seqs
  import opened ExpenseContext

  /** `totalExpenses / annualAllowance * 100` when there is an allowance, else 0. */
  function Usage(total: Cents, allowance: Cents): (u: real)
    ensures allowance <= 0 ==> u == 0.0
    ensures allowance > 0 ==> u * (allowance as real) == (total as real) * 100.0
  {
    if allowance > 0 then (total as real / allowance as real) * 100.0 else 0.0
  }

  /** With a positive allowance, usage passes 100% exactly when the remaining
      allowance is negative. */
  lemma OverspentIffUsageAbove100(s: AppState)
    requires s.annualAllowance > 0
    ensures Usage(Total(s.expenses), s.annualAllowance) > 100.0 <==> Remaining(s) < 0
  {
    var u, a, t := Usage(Total(s.expenses), s.annualAllowance), s.annualAllowance as real, Total(s.expenses) as real;
    assert Remaining(s) < 0 <==> t > a;
    PercentAbove100(u, a, t);
  }

  lemma PercentAbove100(u: real, a: real, t: real)
    requires a > 0.0 && u * a == t * 100.0
    ensures u > 100.0 <==> t > a
  {
    if u > 100.0 {
      assert (u - 100.0) * a > 0.0;
      assert t * 100.0 > a * 100.0;
    } else {
      assert (100.0 - u) * a >= 0.0;
      assert t * 100.0 <= a * 100.0;
    }
  }

  /** The progress bar's width, `Math.min(usage, 100)`. */
  function BarWidth(u: real): (w: real)
    ensures w <= 100.0 && w <= u
    ensures w == u || w == 100.0
  {
    if u < 100.0 then u else 100.0
  }

  datatype BarColour = Red | Yellow | Green

  /** The progress bar's colour band. */
  function UsageColour(u: real): (c: BarColour)
    ensures c == Red <==> u > 90.0
    ensures c == Yellow <==> 75.0 < u <= 90.0
    ensures c == Green <==> u <= 75.0
  {
    if u > 90.0 then Red else if u > 75.0 then Yellow else Green
  }

  /** An overspent allowance shows a full red bar. */
  lemma OverspentShowsFullRedBar(s: AppState)
    requires s.annualAllowance > 0 && Remaining(s) < 0
    ensures UsageColour(Usage(Total(s.expenses), s.annualAllowance)) == Red
    ensures BarWidth(Usage(Total(s.expenses), s.annualAllowance)) == 100.0
  {
    OverspentIffUsageAbove100(s);
  }

  /** `parseFloat(allowanceInput) || 0`: input that does not parse becomes 0. */
  function AllowanceFromInput(parsed: Option<Cents>): (a: Cents)
    ensures parsed.None? ==> a == 0
    ensures parsed.Some? ==> a == parsed.value
  {
    parsed.GetOr(0)
  }

  /** `handleAllowanceSubmit`: stores the parsed allowance, or 0. */
  method SubmitAllowance(store: ExpenseProvider, parsed: Option<Cents>)
    requires store.Valid()
    modifies store
    ensures store.Valid()
    ensures store.state == old(store.state).(annualAllowance := AllowanceFromInput(parsed))
  {
    store.SetAnnualAllowance(AllowanceFromInput(parsed));
  }

  /** `expenses.slice(-3).reverse()`: the last three expenses, newest first. */
  function RecentExpenses(es: seq<Expense>): (r: seq<Expense>)
    ensures |r| == if |es| < 3 then |es| else 3
    ensures forall k :: 0 <= k < |r| ==> r[k] == es[|es| - 1 - k]
  {
    var tail := es[if |es| < 3 then 0 else |es| - 3..];
    var r := Reverse(tail);
    assert forall k :: 0 <= k < |r| ==> r[k] == tail[|tail| - 1 - k];
    r
  }

  /** The expense just added heads the recent list. */
  lemma NewestFirstAfterAdd(s: AppState, e: Expense, now: int)
    ensures RecentExpenses(Reduce(s, AddExpense(e, now)).expenses) != []
    ensures RecentExpenses(Reduce(s, AddExpense(e, now)).expenses)[0] == e.(id := Some(now))
  {
  }
}
