/** The add/edit expense form: its initial field values, the submit branch,
    the attachment list and the inline "new category" box. */
module ExpenseFormComponent {
  import opened Wrappers
  import opened Seqs
  import opened Text
  import opened ExpenseContext

  /** `formData`. `amount` is `None` while the amount field is blank. */
  datatype FormData = FormData(
    description: string,
    amount: Option<Cents>,
    category: string,
    date: string,
    notes: string,
    attachments: seq<Attachment>)

  /** The fields when the form opens: those of the edited expense, where
      JavaScript's `||` replaces a falsy value (an empty string, an amount of
      0) by the default; `today` stands for the current date. */
  function InitialFormData(expense: Option<Expense>, today: string): (f: FormData)
    ensures expense.None? ==> f == FormData("", None, "", today, "", [])
    ensures expense.Some? ==>
      && f.description == expense.value.description
      && f.amount == (if expense.value.amount == 0 then None else Some(expense.value.amount))
      && f.category == expense.value.category
      && f.date == (if expense.value.date == "" then today else expense.value.date)
      && f.notes == expense.value.notes
      && f.attachments == expense.value.attachments
  {
    match expense
    case None => FormData("", None, "", today, "", [])
    case Some(e) =>
      FormData(
        e.description,
        if e.amount == 0 then None else Some(e.amount),
        e.category,
        if e.date == "" then today else e.date,
        e.notes,
        e.attachments)
  }

  /** The action `handleSubmit` dispatches: an update carrying the edited
      expense's id when editing, an add otherwise. */
  function SubmitAction(expense: Option<Expense>, f: FormData, now: int): (a: Action)
    requires f.amount.Some?
    ensures expense.Some? <==> a.UpdateExpense?
    ensures expense.None? <==> a.AddExpense?
    ensures expense.Some? ==> a.expense.id == expense.value.id
    ensures expense.None? ==> a.expense.id == None && a.now == now
    ensures a.expense.description == f.description && a.expense.amount == f.amount.value
    ensures a.expense.category == f.category && a.expense.date == f.date
    ensures a.expense.notes == f.notes && a.expense.attachments == f.attachments
  {
    var id := if expense.Some? then expense.value.id else None;
    var data := Expense(id, f.description, f.amount.value, f.category, f.date, f.notes, f.attachments);
    if expense.Some? then UpdateExpense(data) else AddExpense(data, now)
  }

  /** Opening an expense for editing and submitting the form untouched updates
      the expense to itself, when its amount is not 0 and its date not empty. */
  lemma EditRoundTrip(e: Expense, today: string, now: int)
    requires e.amount != 0 && e.date != ""
    ensures InitialFormData(Some(e), today).amount.Some?
    ensures SubmitAction(Some(e), InitialFormData(Some(e), today), now) == UpdateExpense(e)
  {
  }

  /** An expense with amount 0 opens with a blank amount, so the form has no
      submit action until an amount is typed; an empty date opens as today. */
  lemma EditFallbacks(e: Expense, today: string)
    ensures e.amount == 0 <==> InitialFormData(Some(e), today).amount.None?
    ensures e.date == "" ==> InitialFormData(Some(e), today).date == today
  {
  }

  /** The guard and the name of `handleAddCategory`: nothing for blank input,
      the trimmed name otherwise. */
  function CategoryToAdd(input: string): (r: Option<string>)
    ensures r.None? <==> IsBlank(input)
    ensures r.Some? ==> r.value == Trim(input) && r.value != []
    ensures r.Some? ==> !IsWhitespace(r.value[0]) && !IsWhitespace(r.value[|r.value| - 1])
  {
    var name := Trim(input);
    if name != [] then Some(name) else None
  }

  class ExpenseForm {
    /** The expense being edited, if any (the `expense` prop). */
    const expense: Option<Expense>
    const store: ExpenseProvider
    var formData: FormData
    var newCategory: string
    var showNewCategory: bool

    constructor (expense: Option<Expense>, store: ExpenseProvider, today: string)
      ensures this.expense == expense && this.store == store
      ensures formData == InitialFormData(expense, today)
      ensures newCategory == "" && !showNewCategory
    {
      this.expense := expense;
      this.store := store;
      formData := InitialFormData(expense, today);
      newCategory := "";
      showNewCategory := false;
    }

    /** `handleSubmit`; the browser submits only with an amount entered. */
    method HandleSubmit(now: int)
      requires store.Valid() && formData.amount.Some?
      modifies store
      ensures store.Valid()
      ensures store.state == Reduce(old(store.state), SubmitAction(expense, formData, now))
      ensures expense.Some? ==> store.state.expenses == ReplaceById(old(store.state.expenses), SubmitAction(expense, formData, now).expense)
      ensures expense.None? ==> store.state.expenses == old(store.state.expenses) + [SubmitAction(expense, formData, now).expense.(id := Some(now))]
    {
      var action := SubmitAction(expense, formData, now);
      if expense.Some? {
        store.UpdateExpense(action.expense);
      } else {
        store.AddExpense(action.expense, now);
      }
    }

    /** `handleFileUpload`: the new attachments go after the existing ones. */
    method HandleFileUpload(newAttachments: seq<Attachment>)
      modifies this
      ensures formData == old(formData).(attachments := formData.attachments)
      ensures |formData.attachments| == |old(formData.attachments)| + |newAttachments|
      ensures formData.attachments[..|old(formData.attachments)|] == old(formData.attachments)
      ensures formData.attachments[|old(formData.attachments)|..] == newAttachments
      ensures newCategory == old(newCategory) && showNewCategory == old(showNewCategory)
    {
      var attachments := formData.attachments + newAttachments;
      formData := formData.(attachments := attachments);
    }

    /** `removeAttachment`. */
    method RemoveAttachment(index: int)
      modifies this
      ensures formData == old(formData).(attachments := RemoveAt(old(formData.attachments), index))
      ensures newCategory == old(newCategory) && showNewCategory == old(showNewCategory)
    {
      formData := formData.(attachments := RemoveAt(formData.attachments, index));
    }

    /** `handleAddCategory`: blank input changes nothing; otherwise the trimmed
        name is added to the store and selected, and the input box is cleared
        and hidden. */
    method HandleAddCategory()
      requires store.Valid()
      modifies this, store
      ensures store.Valid()
      ensures IsBlank(old(newCategory)) ==>
        && store.state == old(store.state) && formData == old(formData)
        && newCategory == old(newCategory) && showNewCategory == old(showNewCategory)
      ensures !IsBlank(old(newCategory)) ==>
        && store.state == old(store.state).(categories := old(store.state.categories) + [Trim(old(newCategory))])
        && formData == old(formData).(category := Trim(old(newCategory)))
        && newCategory == "" && !showNewCategory
    {
      var name := CategoryToAdd(newCategory);
      if name.Some? {
        store.AddCategory(name.value);
        formData := formData.(category := name.value);
        newCategory := "";
        showNewCategory := false;
      }
    }

    /** The text of the new-category input. */
    method SetNewCategory(text: string)
      modifies this
      ensures newCategory == text && formData == old(formData) && showNewCategory == old(showNewCategory)
    {
      newCategory := text;
    }

    /** The "New" button shows the input box. */
    method OpenNewCategory()
      modifies this
      ensures showNewCategory && formData == old(formData) && newCategory == old(newCategory)
    {
      showNewCategory := true;
    }

    /** The "Cancel" button hides the input box and clears its text. */
    method CancelNewCategory()
      modifies this
      ensures !showNewCategory && newCategory == "" && formData == old(formData)
    {
      showNewCategory := false;
      newCategory := "";
    }

    /** The fields' `onChange` handlers, taken together; `amount` is the
        number in the amount field, `None` while it is blank. */
    method EditFields(description: string, amount: Option<Cents>, category: string, date: string, notes: string)
      modifies this
      ensures formData == FormData(description, amount, category, date, notes, old(formData.attachments))
      ensures newCategory == old(newCategory) && showNewCategory == old(showNewCategory)
    {
      formData := formData.(description := description, amount := amount, category := category, date := date, notes := notes);
    }
  }
}
