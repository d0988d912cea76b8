/** The expense state container: the application state, the reducer that
    applies one tagged action to it, the derived totals, the start-up load
    from storage, and the provider object that holds the state and mirrors it
    to storage after every change. */
module ExpenseContext {
  import opened Wrappers
  import opened Seqs

  /** Money, in whole cents. */
  type Cents = int

  datatype Attachment = Attachment(name: string, url: string, mimeType: string, size: nat)

  /** An expense record. `id` is `None` where the JavaScript object has no id
      (a draft built by the add form). */
  datatype Expense = Expense(
    id: Option<int>,
    description: string,
    amount: Cents,
    category: string,
    date: string,
    notes: string,
    attachments: seq<Attachment>)

  datatype AppState = AppState(annualAllowance: Cents, expenses: seq<Expense>, categories: seq<string>)

  /** The reducer's actions, one variant per `action.type`. `now` in
      `AddExpense` is the clock reading (`Date.now()`) taken when the reducer
      handles the action; `Unrecognised` is any other type tag. */
  datatype Action =
    | SetAnnualAllowance(amount: Cents)
    | AddExpense(expense: Expense, now: int)
    | UpdateExpense(expense: Expense)
    | DeleteExpense(id: Option<int>)
    | AddCategory(category: string)
    | LoadState(state: AppState)
    | Unrecognised(tag: string)

  /** The ten categories every fresh state starts with. */
  const DefaultCategories: seq<string> := [
    "Mortgage/Rent", "Property Tax", "Utilities", "Home Insurance",
    "Maintenance & Repairs", "Furnishings", "Appliances", "Lawn Care",
    "Home Security", "Other"]

  /** `initialState`: no allowance, no expenses, the default categories. */
  const InitialState: AppState := AppState(0, [], DefaultCategories)

  lemma DefaultCategoriesDistinct()
    ensures |DefaultCategories| == 10 && NoDuplicates(DefaultCategories)
  {
  }

  /** `expenses.map(x => x.id === e.id ? e : x)`. */
  function ReplaceById(es: seq<Expense>, e: Expense): (r: seq<Expense>)
    ensures |r| == |es|
    ensures forall i :: 0 <= i < |es| && es[i].id == e.id ==> r[i] == e
    ensures forall i :: 0 <= i < |es| && es[i].id != e.id ==> r[i] == es[i]
    ensures forall i :: 0 <= i < |es| ==> r[i].id == es[i].id
    ensures (forall i :: 0 <= i < |es| ==> es[i].id != e.id) ==> r == es
  {
    seq(|es|, i requires 0 <= i < |es| => if es[i].id == e.id then e else es[i])
  }

  /** `expenses.filter(x => x.id !== id)`. */
  function RemoveById(es: seq<Expense>, id: Option<int>): (r: seq<Expense>)
    ensures forall i :: 0 <= i < |r| ==> r[i].id != id
    ensures forall x :: x in r <==> x in es && x.id != id
    ensures IsSubsequence(r, es)
    ensures r == es <==> forall i :: 0 <= i < |es| ==> es[i].id != id
    ensures forall x :: multiset(r)[x] == if x.id != id then multiset(es)[x] else 0
  {
    Filter(es, (x: Expense) => x.id != id)
  }

  /** The entries that carry `id`. */
  function WithId(es: seq<Expense>, id: Option<int>): seq<Expense>
  {
    Filter(es, (x: Expense) => x.id == id)
  }

  /** `expenseReducer`: the state after one action. */
  function Reduce(s: AppState, a: Action): (r: AppState)
    ensures a.SetAnnualAllowance? ==>
      r.annualAllowance == a.amount && r.expenses == s.expenses && r.categories == s.categories
    ensures a.AddExpense? ==>
      && r.annualAllowance == s.annualAllowance && r.categories == s.categories
      && |r.expenses| == |s.expenses| + 1
      && r.expenses[..|s.expenses|] == s.expenses
      && r.expenses[|s.expenses|] == a.expense.(id := Some(a.now))
    ensures a.UpdateExpense? ==>
      r.annualAllowance == s.annualAllowance && r.categories == s.categories
      && r.expenses == ReplaceById(s.expenses, a.expense)
    ensures a.DeleteExpense? ==>
      r.annualAllowance == s.annualAllowance && r.categories == s.categories
      && r.expenses == RemoveById(s.expenses, a.id)
    ensures a.AddCategory? ==>
      r.annualAllowance == s.annualAllowance && r.expenses == s.expenses
      && |r.categories| == |s.categories| + 1
      && r.categories[..|s.categories|] == s.categories
      && r.categories[|s.categories|] == a.category
    ensures a.LoadState? ==> r == a.state
    ensures a.Unrecognised? ==> r == s
  {
    match a
    case SetAnnualAllowance(amount) => s.(annualAllowance := amount)
    case AddExpense(e, now) => s.(expenses := s.expenses + [e.(id := Some(now))])
    case UpdateExpense(e) => s.(expenses := ReplaceById(s.expenses, e))
    case DeleteExpense(id) => s.(expenses := RemoveById(s.expenses, id))
    case AddCategory(c) => s.(categories := s.categories + [c])
    case LoadState(p) => p
    case Unrecognised(_) => s
  }

  /** Adding the same category twice keeps both copies. */
  lemma AddCategoryTwiceKeepsDuplicates(s: AppState, c: string)
    ensures Reduce(Reduce(s, AddCategory(c)), AddCategory(c)).categories == s.categories + [c, c]
  {
  }

  /** Deleting the id just generated for an added expense restores the list,
      provided no older expense carries that id. */
  lemma {:induction false} DeleteUndoesAdd(s: AppState, e: Expense, now: int)
    requires forall i :: 0 <= i < |s.expenses| ==> s.expenses[i].id != Some(now)
    ensures RemoveById(Reduce(s, AddExpense(e, now)).expenses, Some(now)) == s.expenses
  {
    var p := (x: Expense) => x.id != Some(now);
    FilterAppend(s.expenses, [e.(id := Some(now))], p);
  }

  /** Updating an entry and then deleting its id is the same as deleting it. */
  lemma {:induction false} DeleteAfterUpdate(es: seq<Expense>, e: Expense)
    ensures RemoveById(ReplaceById(es, e), e.id) == RemoveById(es, e.id)
  {
    if es != [] {
      var u := ReplaceById(es, e);
      assert u[1..] == ReplaceById(es[1..], e);
      DeleteAfterUpdate(es[1..], e);
    }
  }

  /** `expenses.reduce((t, x) => t + x.amount, 0)`, a left fold. */
  function Total(es: seq<Expense>): (t: Cents)
    ensures (forall i :: 0 <= i < |es| ==> es[i].amount >= 0) ==> t >= 0
  {
    if es == [] then 0 else Total(es[..|es| - 1]) + es[|es| - 1].amount
  }

  /** `getRemainingAllowance`: the allowance minus the total, not clamped. */
  function Remaining(s: AppState): (r: Cents)
    ensures r < 0 <==> Total(s.expenses) > s.annualAllowance
    ensures r + Total(s.expenses) == s.annualAllowance
  {
    s.annualAllowance - Total(s.expenses)
  }

  lemma {:induction false} TotalAppend(a: seq<Expense>, b: seq<Expense>)
    ensures Total(a + b) == Total(a) + Total(b)
  {
    if b == [] {
      assert a + b == a;
    } else {
      assert (a + b)[..|a + b| - 1] == a + b[..|b| - 1];
      TotalAppend(a, b[..|b| - 1]);
    }
  }

  lemma TotalCons(x: Expense, rest: seq<Expense>)
    ensures Total([x] + rest) == x.amount + Total(rest)
  {
    TotalAppend([x], rest);
    assert Total([x]) == Total([]) + x.amount;
  }

  lemma TotalHead(es: seq<Expense>)
    requires es != []
    ensures Total(es) == es[0].amount + Total(es[1..])
  {
    assert es == [es[0]] + es[1..];
    TotalCons(es[0], es[1..]);
  }

  /** The total does not depend on the order of the expenses. */
  lemma {:induction false} TotalPermutation(a: seq<Expense>, b: seq<Expense>)
    requires multiset(a) == multiset(b)
    ensures Total(a) == Total(b)
    decreases |a|
  {
    if a == [] {
      assert |b| == |multiset(b)| == 0;
    } else {
      assert a[0] in multiset(b);
      var i :| 0 <= i < |b| && b[i] == a[0];
      var p, q := b[..i], b[i + 1..];
      assert b == p + [a[0]] + q;
      MultisetRemoveFirst(a, p, a[0], q);
      TotalPermutation(a[1..], p + q);
      assert a == [a[0]] + a[1..];
      TotalCons(a[0], a[1..]);
      TotalSplit(p, a[0], q);
    }
  }

  lemma MultisetRemoveFirst<T>(a: seq<T>, p: seq<T>, x: T, q: seq<T>)
    requires a != [] && a[0] == x
    requires multiset(a) == multiset(p + [x] + q)
    ensures multiset(a[1..]) == multiset(p + q)
  {
    assert a == [x] + a[1..];
    assert multiset(a) == multiset{x} + multiset(a[1..]);
    assert multiset(p + [x] + q) == multiset(p) + multiset{x} + multiset(q);
    assert multiset(p + q) == multiset(p) + multiset(q);
    assert multiset(a[1..]) == multiset(a) - multiset{x};
  }

  /** Taking out one entry lowers the total by its amount. */
  lemma TotalSplit(p: seq<Expense>, x: Expense, q: seq<Expense>)
    ensures Total(p + [x] + q) == Total(p + q) + x.amount
  {
    assert p + [x] + q == p + ([x] + q);
    TotalAppend(p, [x] + q);
    TotalCons(x, q);
    TotalAppend(p, q);
  }

  /** Adding an expense raises the total by its amount. */
  lemma TotalAfterAdd(s: AppState, e: Expense, now: int)
    ensures Total(Reduce(s, AddExpense(e, now)).expenses) == Total(s.expenses) + e.amount
  {
    TotalAppend(s.expenses, [e.(id := Some(now))]);
    assert Total([e.(id := Some(now))]) == e.amount by { assert [e.(id := Some(now))][..0] == []; }
  }

  /** Allowance $12,000, one $1,000 rent payment: total $1,000, $11,000 left. */
  lemma RentScenario(now: int)
    ensures
      var rent := Expense(None, "Rent", 100_000, "Mortgage/Rent", "2024-01-01", "", []);
      var s := Reduce(Reduce(InitialState, SetAnnualAllowance(1_200_000)), AddExpense(rent, now));
      Total(s.expenses) == 100_000 && Remaining(s) == 1_100_000
  {
    var rent := Expense(None, "Rent", 100_000, "Mortgage/Rent", "2024-01-01", "", []);
    TotalAfterAdd(Reduce(InitialState, SetAnnualAllowance(1_200_000)), rent, now);
  }

  /** Deleting an id lowers the total by the amounts of the entries with that id. */
  lemma {:induction false} TotalAfterDelete(es: seq<Expense>, id: Option<int>)
    ensures Total(RemoveById(es, id)) == Total(es) - Total(WithId(es, id))
  {
    if es != [] {
      var rest := es[1..];
      TotalAfterDelete(rest, id);
      TotalRemoveByIdCons(es, id);
      TotalWithIdCons(es, id);
      TotalHead(es);
    }
  }

  lemma TotalRemoveByIdCons(es: seq<Expense>, id: Option<int>)
    requires es != []
    ensures Total(RemoveById(es, id)) == (if es[0].id == id then 0 else es[0].amount) + Total(RemoveById(es[1..], id))
  {
    assert es == [es[0]] + es[1..];
    if es[0].id != id {
      assert RemoveById(es, id) == [es[0]] + RemoveById(es[1..], id);
      TotalCons(es[0], RemoveById(es[1..], id));
    }
  }

  lemma ReplaceByIdCons(es: seq<Expense>, e: Expense)
    requires es != []
    ensures ReplaceById(es, e) == [if es[0].id == e.id then e else es[0]] + ReplaceById(es[1..], e)
  {
  }

  lemma WithIdCons(es: seq<Expense>, id: Option<int>)
    requires es != []
    ensures WithId(es, id) == if es[0].id == id then [es[0]] + WithId(es[1..], id) else WithId(es[1..], id)
  {
  }

  lemma TotalReplaceByIdCons(es: seq<Expense>, e: Expense)
    requires es != []
    ensures Total(ReplaceById(es, e)) ==
      (if es[0].id == e.id then e.amount else es[0].amount) + Total(ReplaceById(es[1..], e))
  {
    ReplaceByIdCons(es, e);
    TotalCons(if es[0].id == e.id then e else es[0], ReplaceById(es[1..], e));
  }

  lemma TotalWithIdCons(es: seq<Expense>, id: Option<int>)
    requires es != []
    ensures Total(WithId(es, id)) == (if es[0].id == id then es[0].amount else 0) + Total(WithId(es[1..], id))
    ensures |WithId(es, id)| == (if es[0].id == id then 1 else 0) + |WithId(es[1..], id)|
  {
    WithIdCons(es, id);
    if es[0].id == id {
      TotalCons(es[0], WithId(es[1..], id));
    }
  }

  /** The integer core of the inductive step of `TotalAfterUpdate`: primed
      values are those of the tail, unprimed ones those of the whole list. */
  lemma UpdateStep(hit: bool, h: int, a: int, te: int, tw: int, cw: nat, tu: int,
                    te': int, tw': int, cw': nat, tu': int)
    requires te == h + te'
    requires tw == (if hit then h else 0) + tw'
    requires cw == (if hit then 1 else 0) + cw'
    requires tu == (if hit then a else h) + tu'
    requires tu' == te' - tw' + cw' * a
    ensures tu == te - tw + cw * a
  {
    if hit { MulSucc(cw', a); }
  }

  /** Updating an id replaces the amounts of the entries with that id by the
      new amount. */
  lemma {:induction false} TotalAfterUpdate(es: seq<Expense>, e: Expense)
    ensures Total(ReplaceById(es, e)) == Total(es) - Total(WithId(es, e.id)) + |WithId(es, e.id)| * e.amount
  {
    if es != [] {
      var rest := es[1..];
      TotalAfterUpdate(rest, e);
      TotalReplaceByIdCons(es, e);
      TotalWithIdCons(es, e.id);
      TotalHead(es);
      UpdateStep(es[0].id == e.id, es[0].amount, e.amount,
        Total(es), Total(WithId(es, e.id)), |WithId(es, e.id)|, Total(ReplaceById(es, e)),
        Total(rest), Total(WithId(rest, e.id)), |WithId(rest, e.id)|, Total(ReplaceById(rest, e)));
    }
  }

  lemma MulSucc(n: nat, a: int)
    ensures (n + 1) * a == n * a + a
  {
  }

  /** What parsing the stored text yields: each top-level field may be absent. */
  datatype PartialState = PartialState(
    annualAllowance: Option<Cents>,
    expenses: Option<seq<Expense>>,
    categories: Option<seq<string>>)

  /** The stored item: absent (or empty), text that does not parse, or parsed data. */
  datatype StoredBlob = Missing | Malformed | Parsed(data: PartialState)

  /** `{ ...base, ...p }`: every field `p` has overrides the one of `base`. */
  function MergeOver(base: AppState, p: PartialState): (r: AppState)
    ensures r.annualAllowance == (if p.annualAllowance.Some? then p.annualAllowance.value else base.annualAllowance)
    ensures r.expenses == (if p.expenses.Some? then p.expenses.value else base.expenses)
    ensures r.categories == (if p.categories.Some? then p.categories.value else base.categories)
  {
    AppState(
      p.annualAllowance.GetOr(base.annualAllowance),
      p.expenses.GetOr(base.expenses),
      p.categories.GetOr(base.categories))
  }

  /** What the save writes, as the next load will parse it: every field present. */
  function Serialized(s: AppState): (r: PartialState)
    ensures r.annualAllowance.Some? && r.expenses.Some? && r.categories.Some?
    ensures forall base :: MergeOver(base, r) == s
  {
    PartialState(Some(s.annualAllowance), Some(s.expenses), Some(s.categories))
  }

  /** The state after start-up: the stored data merged over `initialState`,
      or `initialState` itself when nothing usable is stored. */
  function Restored(blob: StoredBlob): (r: AppState)
    ensures !blob.Parsed? ==> r.annualAllowance == 0 && r.expenses == [] && r.categories == DefaultCategories
    ensures blob.Parsed? ==>
      && r.annualAllowance == blob.data.annualAllowance.GetOr(0)
      && r.expenses == blob.data.expenses.GetOr([])
      && r.categories == blob.data.categories.GetOr(DefaultCategories)
  {
    match blob
    case Parsed(p) => Reduce(InitialState, LoadState(MergeOver(InitialState, p)))
    case _ => InitialState
  }

  /** Reloading what was saved gives back the saved state. */
  lemma RestoreSaved(s: AppState)
    ensures Restored(Parsed(Serialized(s))) == s
  {
  }

  /** `ExpenseProvider`: holds the reducer state and the storage item it is
      mirrored to. */
  class ExpenseProvider {
    var state: AppState
    var storage: StoredBlob

    /** The save effect has written the current state. */
    ghost predicate Valid()
      reads this
    {
      storage == Parsed(Serialized(state))
    }

    /** Mount: start from `initialState`, load the stored item if it parses,
        and save. */
    constructor (saved: StoredBlob)
      ensures Valid()
      ensures state == Restored(saved)
    {
      var current := InitialState;
      storage := Parsed(Serialized(current));
      if saved.Parsed? {
        current := Reduce(current, LoadState(MergeOver(InitialState, saved.data)));
        storage := Parsed(Serialized(current));
      }
      state := current;
    }

    /** `dispatch`, followed by the save effect. */
    method Dispatch(a: Action)
      requires Valid()
      modifies this
      ensures Valid()
      ensures state == Reduce(old(state), a)
    {
      state := Reduce(state, a);
      storage := Parsed(Serialized(state));
    }

    method SetAnnualAllowance(amount: Cents)
      requires Valid()
      modifies this
      ensures Valid()
      ensures state == old(state).(annualAllowance := amount)
    {
      Dispatch(Action.SetAnnualAllowance(amount));
    }

    method AddExpense(e: Expense, now: int)
      requires Valid()
      modifies this
      ensures Valid()
      ensures state == old(state).(expenses := old(state.expenses) + [e.(id := Some(now))])
    {
      Dispatch(Action.AddExpense(e, now));
    }

    method UpdateExpense(e: Expense)
      requires Valid()
      modifies this
      ensures Valid()
      ensures state == old(state).(expenses := ReplaceById(old(state.expenses), e))
    {
      Dispatch(Action.UpdateExpense(e));
    }

    method DeleteExpense(id: Option<int>)
      requires Valid()
      modifies this
      ensures Valid()
      ensures state == old(state).(expenses := RemoveById(old(state.expenses), id))
    {
      Dispatch(Action.DeleteExpense(id));
    }

    method AddCategory(category: string)
      requires Valid()
      modifies this
      ensures Valid()
      ensures state == old(state).(categories := old(state.categories) + [category])
    {
      Dispatch(Action.AddCategory(category));
    }

    method GetTotalExpenses() returns (total: Cents)
      ensures total == Total(state.expenses)
    {
      total := Total(state.expenses);
    }

    method GetRemainingAllowance() returns (remaining: Cents)
      ensures remaining == state.annualAllowance - Total(state.expenses)
      ensures remaining < 0 <==> Total(state.expenses) > state.annualAllowance
    {
      var total := GetTotalExpenses();
      remaining := state.annualAllowance - total;
    }
  }

  /** A later session: a fresh provider mounted on what `p` saved holds the
      same state. */
  method Reload(p: ExpenseProvider) returns (q: ExpenseProvider)
    requires p.Valid()
    ensures fresh(q) && q.Valid()
    ensures q.state == p.state
  {
    RestoreSaved(p.state);
    q := new ExpenseProvider(p.storage);
  }
}
