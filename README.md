# Housing allowance tracker — verified model of the expense state and page logic

This project models, in Dafny, the logic of a single-page application that
tracks a minister's annual housing allowance: the annual allowance, the list of
expenses recorded against it, and the growing list of categories. The state
lives in a reducer-driven container that is mirrored to browser storage after
every change. Around it sit a few small derivations:

- the expense page's search/category filter and its category selector;
- the dashboard's usage percentage, progress bar and "recent expenses" list;
- the expense form's initial values, submit branch, attachment list and
  inline "new category" box;
- the FAQ page's set of expanded items.

Modules, one per source file, plus three helper modules:

- `Wrappers` (`wrappers.dfy`): `Option`. It stands for JavaScript `undefined`,
  an absent field, or input that does not parse.
- `Seqs` (`seqs.dfy`): `filter`, `reverse`, `[...new Set(s)]` and
  remove-at-index, each with its characterising properties. It also gives the
  subsequence, no-duplicates and first-occurrence notions.
- `Text` (`text.dfy`): `trim`, `toLowerCase` and `includes`.
- `ExpenseContext` (`expense_context.dfy`): `src/context/ExpenseContext.jsx`.
  The reducer is the pure function `Reduce`. The totals and the start-up load
  are functions too. The provider is the class `ExpenseProvider`, whose
  `state` field is replaced on each dispatch. Its `storage` field holds what
  the save effect last wrote, and `Valid()` says that this is always the
  current state.
- `ExpensesPage` (`expenses_page.dfy`): `src/pages/Expenses.jsx`.
- `Dashboard` (`dashboard.dfy`): `src/pages/Dashboard.jsx`.
- `ExpenseFormComponent` (`expense_form.dfy`): `src/components/ExpenseForm.jsx`.
  It has pure helpers plus the class `ExpenseForm`, whose fields are the
  component's held state (`formData`, `newCategory`, `showNewCategory`).
- `Faq` (`faq.dfy`): `src/pages/FAQ.jsx`, a class `FaqPage` holding `openItems`.

Modelling choices:

- Money is `int` cents (`Cents`). The usage percentage is a `real`.
- `Expense.id` is `Option<int>`: the add form sends `id: expense?.id`, which is
  `undefined` when adding. JavaScript `===` on ids is then equality of options.
- The reducer reads the clock (`Date.now()`) for a new id. The model carries
  that reading in the action as `AddExpense(expense, now)`.
- "Today's date" for the form is the parameter `today`.
- The stored item is `StoredBlob`: `Missing` (absent or empty), `Malformed`
  (the parse throws) or `Parsed(PartialState)`. In a `PartialState` each
  top-level field may be absent. A parsed number, boolean or `null` spreads
  no fields; a parsed string or array spreads only index keys, which are extra
  stored fields (see "## Left out"). Either way it is a `PartialState` with
  every field absent.
- What the save writes and the next start-up reads back is `Serialized(state)`,
  with all three fields present.

Behaviour of the code that the model keeps even where it may be unintended:

- `ADD_CATEGORY` appends verbatim, so the category list can hold duplicates.
  It is not a de-duplicated set.
- The reducer does not check that an expense's category is a known category.
  It also does not check that an amount is non-negative.
- A malformed stored item is not only discarded at start-up. The save effect
  that runs on mount then overwrites it with the default state.

## Model

| member | source | states |
|---|---|---|
| `ExpenseContext.DefaultCategoriesDistinct` | src/context/ExpenseContext.jsx:5-20 | the seeded category list has ten entries, all different |
| `ExpenseContext.Reduce` | src/context/ExpenseContext.jsx:22-59 | SET_ANNUAL_ALLOWANCE changes only the allowance; ADD_EXPENSE grows the list by one, keeps the old prefix and puts the payload last with the clock id replacing any id it had; UPDATE/DELETE change only the expenses (as `ReplaceById`/`RemoveById`); ADD_CATEGORY appends the name at the end and changes nothing else; LOAD_STATE returns its payload; any other action returns the state unchanged |
| `ExpenseContext.ReplaceById` | src/context/ExpenseContext.jsx:33-39 | same length; entries with the payload's id become the payload, the others are unchanged, every position keeps its id; an unknown id leaves the list identical |
| `ExpenseContext.RemoveById` | src/context/ExpenseContext.jsx:41-45 | no entry with the id remains; every entry with another id keeps all of its copies (multiset count unchanged) and entries with the id have count 0; the result is an order-preserving subsequence; the list is unchanged iff the id is absent |
| `ExpenseContext.AddCategoryTwiceKeepsDuplicates` | src/context/ExpenseContext.jsx:47-51 | adding the same name twice leaves it in the list twice |
| `ExpenseContext.DeleteUndoesAdd` | src/context/ExpenseContext.jsx:27-45 | deleting the id just generated for an added expense restores the old list, when that id was not in use |
| `ExpenseContext.DeleteAfterUpdate` | src/context/ExpenseContext.jsx:33-45 | updating an id and then deleting it equals deleting it |
| `ExpenseContext.Total` | src/context/ExpenseContext.jsx:102-104 | `reduce` of the amounts from 0, a left fold; with no negative amount the total is not negative |
| `ExpenseContext.TotalAppend` | src/context/ExpenseContext.jsx:102-104 | the total of a concatenation is the sum of the parts' totals |
| `ExpenseContext.TotalCons` | src/context/ExpenseContext.jsx:102-104 | the left fold also splits at the front: total of `[x] + rest` is `x.amount` plus the total of `rest` |
| `ExpenseContext.TotalPermutation` | src/context/ExpenseContext.jsx:102-104 | the total is independent of the order of the expenses (equal multisets give equal totals) |
| `ExpenseContext.TotalAfterAdd` | src/context/ExpenseContext.jsx:27-31 | after ADD_EXPENSE the total has grown by exactly the added amount |
| `ExpenseContext.TotalAfterDelete` | src/context/ExpenseContext.jsx:41-45 | after DELETE_EXPENSE the total has fallen by the amounts of the entries that carried the id |
| `ExpenseContext.TotalAfterUpdate` | src/context/ExpenseContext.jsx:33-39 | after UPDATE_EXPENSE the amounts of all entries with the id are replaced by the new amount in the total |
| `ExpenseContext.RentScenario` | src/context/ExpenseContext.jsx:102-108 | allowance $12,000 plus one $1,000 rent expense gives total $1,000 and $11,000 remaining |
| `ExpenseContext.Remaining` | src/context/ExpenseContext.jsx:106-108 | remaining plus total is the allowance, with no clamping: it is negative iff the total exceeds the allowance |
| `ExpenseContext.MergeOver` | src/context/ExpenseContext.jsx:70 | each field present in the parsed data overrides the default; absent fields keep the default |
| `ExpenseContext.Serialized` | src/context/ExpenseContext.jsx:78-80 | what the save writes has all three fields, so merging it over any base gives back exactly the saved state |
| `ExpenseContext.Restored` | src/context/ExpenseContext.jsx:65-75 | with no stored item or a malformed one, the state is allowance 0, no expenses, the ten seeded categories; with parsed data, each field is the stored one or its default |
| `ExpenseContext.RestoreSaved` | src/context/ExpenseContext.jsx:65-80 | reloading what the save effect wrote gives back the saved state |
| `ExpenseContext.ExpenseProvider.constructor` | src/context/ExpenseContext.jsx:61-80 | on mount the state is the restored state and storage holds it |
| `ExpenseContext.ExpenseProvider.Dispatch` | src/context/ExpenseContext.jsx:62 | the new state is the reducer applied to the old state; storage mirrors it |
| `ExpenseContext.ExpenseProvider.SetAnnualAllowance` | src/context/ExpenseContext.jsx:82-84 | only the allowance changes; storage mirrors the new state |
| `ExpenseContext.ExpenseProvider.AddExpense` | src/context/ExpenseContext.jsx:86-88 | the expense with the clock id is appended; the rest of the state is unchanged |
| `ExpenseContext.ExpenseProvider.UpdateExpense` | src/context/ExpenseContext.jsx:90-92 | the expenses become `ReplaceById` of the old ones; the rest is unchanged |
| `ExpenseContext.ExpenseProvider.DeleteExpense` | src/context/ExpenseContext.jsx:94-96 | the expenses become `RemoveById` of the old ones; the rest is unchanged |
| `ExpenseContext.ExpenseProvider.AddCategory` | src/context/ExpenseContext.jsx:98-100 | the name is appended to the categories; the rest is unchanged |
| `ExpenseContext.Reload` | src/context/ExpenseContext.jsx:65-80 | a provider mounted on the storage another provider saved holds the same state |
| `ExpenseContext.ExpenseProvider.GetTotalExpenses` | src/context/ExpenseContext.jsx:102-104 | returns the fold of the amounts of the held expenses |
| `ExpenseContext.ExpenseProvider.GetRemainingAllowance` | src/context/ExpenseContext.jsx:106-108 | returns allowance minus total, negative iff overspent |
| `Seqs.Filter` | src/context/ExpenseContext.jsx:44 | `filter`: each element that satisfies the predicate keeps its number of copies and every other element has none; order-preserving subsequence; nothing dropped iff all satisfy it |
| `Seqs.FilterAppend` | src/context/ExpenseContext.jsx:30-44 | filtering a concatenation filters each part |
| `Seqs.Reverse` | src/pages/Dashboard.jsx:33 | `reverse`: same length, position k holds the element k from the end |
| `Seqs.RemoveAt` | src/components/ExpenseForm.jsx:62 | an in-range index drops exactly that entry, keeping the others in order, and the length falls by one; an out-of-range index changes nothing |
| `Seqs.FirstIndex` | src/pages/Expenses.jsx:25 | the first position at which an element occurs |
| `Seqs.FirstIndexOfPrefix` | src/pages/Expenses.jsx:25 | an element occurring in a prefix has its first occurrence there |
| `Seqs.Distinct` | src/pages/Expenses.jsx:25 | `[...new Set(s)]`: the same elements as `s`, no duplicates, in first-occurrence order |
| `Text.IsWhitespace` | src/components/ExpenseForm.jsx:67 | the characters `trim` removes: the ECMAScript WhiteSpace and LineTerminator code points (tab, line feed, vertical tab, form feed, carriage return, space, no-break space, U+1680, U+2000 to U+200A, U+2028, U+2029, U+202F, U+205F, U+3000, U+FEFF) |
| `Text.WhitespaceClasses` | src/components/ExpenseForm.jsx:67 | among ASCII, exactly space and tab through carriage return are whitespace; no letter or digit is |
| `Text.LeadingWhitespace` | src/components/ExpenseForm.jsx:67 | the length of the whitespace run at the start |
| `Text.TrailingWhitespace` | src/components/ExpenseForm.jsx:67 | the length of the whitespace run at the end |
| `Text.Trim` | src/components/ExpenseForm.jsx:67 | `trim`: a contiguous slice with only whitespace cut off either side, no whitespace at either end, empty iff the input is blank |
| `Text.LowerChar` | src/pages/Expenses.jsx:19-20 | ASCII capitals map to the small letter 32 code points above; other characters are unchanged |
| `Text.ToLower` | src/pages/Expenses.jsx:19-20 | `toLowerCase`, character by character |
| `Text.ContainsSelf` | src/pages/Expenses.jsx:19-20 | every string includes itself |
| `Text.Contains` | src/pages/Expenses.jsx:19-20 | `includes`: true iff the term occurs at some position |
| `Text.ContainsEmpty` | src/pages/Expenses.jsx:19-20 | every string includes the empty term |
| `ExpensesPage.MatchesSearch` | src/pages/Expenses.jsx:19-20 | an empty term matches every expense, and so does a term equal to the description or to the category up to case |
| `ExpensesPage.MatchesCategory` | src/pages/Expenses.jsx:21 | no selection matches every expense, an expense's own category matches it, and a non-empty selection matches only that category |
| `ExpensesPage.FilteredExpenses` | src/pages/Expenses.jsx:18-23 | order-preserving subsequence of the expenses; an expense is kept, with all its copies, iff it matches the search (description or category, ignoring case) and the category condition; with a selected category every result has that category; no term and no category give the full list |
| `ExpensesPage.CategoriesOf` | src/pages/Expenses.jsx:25 | the category of each expense, position by position |
| `ExpensesPage.PageCategories` | src/pages/Expenses.jsx:25 | contains exactly the categories used by some expense, each once, in first-occurrence order |
| `Dashboard.Usage` | src/pages/Dashboard.jsx:25 | 0 when the allowance is not positive; otherwise usage × allowance = total × 100 |
| `Dashboard.OverspentIffUsageAbove100` | src/pages/Dashboard.jsx:23-25 | with a positive allowance, usage exceeds 100% iff the remaining allowance is negative |
| `Dashboard.BarWidth` | src/pages/Dashboard.jsx:168 | the width is at most 100 and at most the usage, and equals one of them |
| `Dashboard.UsageColour` | src/pages/Dashboard.jsx:164-167 | red iff usage > 90, yellow iff 75 < usage ≤ 90, green iff usage ≤ 75 |
| `Dashboard.OverspentShowsFullRedBar` | src/pages/Dashboard.jsx:164-168 | an overspent positive allowance shows a red bar at full width |
| `Dashboard.AllowanceFromInput` | src/pages/Dashboard.jsx:29 | unparseable input becomes 0; a parsed number is kept |
| `Dashboard.SubmitAllowance` | src/pages/Dashboard.jsx:27-31 | the store's allowance becomes the parsed input or 0; nothing else changes |
| `Dashboard.RecentExpenses` | src/pages/Dashboard.jsx:33 | length min(3, n); position k holds the k-th newest expense |
| `Dashboard.NewestFirstAfterAdd` | src/pages/Dashboard.jsx:33 | after adding, the recent list is non-empty and starts with the added expense |
| `ExpenseFormComponent.InitialFormData` | src/components/ExpenseForm.jsx:13-20 | a new form has empty text, blank amount, no attachments and today's date; an edit form copies the expense, with a 0 amount shown blank and an empty date replaced by today |
| `ExpenseFormComponent.SubmitAction` | src/components/ExpenseForm.jsx:25-39 | update carrying the edited expense's id when editing, add with the clock reading otherwise; the payload holds the form's fields and amount |
| `ExpenseFormComponent.EditRoundTrip` | src/components/ExpenseForm.jsx:13-39 | an expense with a non-zero amount and a date, opened for editing and submitted untouched, is updated to itself |
| `ExpenseFormComponent.EditFallbacks` | src/components/ExpenseForm.jsx:13-20 | the amount opens blank exactly when the expense's amount is 0, so there is no submit action until one is typed; an empty date opens as today |
| `ExpenseFormComponent.CategoryToAdd` | src/components/ExpenseForm.jsx:66-68 | nothing iff the input is blank; otherwise the trimmed, non-empty name |
| `ExpenseFormComponent.ExpenseForm.constructor` | src/components/ExpenseForm.jsx:13-23 | the form starts with the initial form data, an empty new-category text and the box hidden |
| `ExpenseFormComponent.ExpenseForm.HandleSubmit` | src/components/ExpenseForm.jsx:25-42 | the store applies the submit action: replace by id when editing, append with the clock id otherwise |
| `ExpenseFormComponent.ExpenseForm.HandleFileUpload` | src/components/ExpenseForm.jsx:44-57 | the new attachments follow the old ones in order; length is old + new; the old prefix and all other state are unchanged |
| `ExpenseFormComponent.ExpenseForm.RemoveAttachment` | src/components/ExpenseForm.jsx:59-64 | the attachments become `RemoveAt` of the old ones; everything else is unchanged |
| `ExpenseFormComponent.ExpenseForm.HandleAddCategory` | src/components/ExpenseForm.jsx:66-73 | blank input changes neither the store nor the form; otherwise the trimmed name is appended to the store's categories and becomes the form's category, and the box is cleared and hidden |
| `ExpenseFormComponent.ExpenseForm.SetNewCategory` | src/components/ExpenseForm.jsx:154 | sets the new-category text only |
| `ExpenseFormComponent.ExpenseForm.OpenNewCategory` | src/components/ExpenseForm.jsx:191 | shows the new-category box only |
| `ExpenseFormComponent.ExpenseForm.CancelNewCategory` | src/components/ExpenseForm.jsx:167-170 | hides the box and clears its text; the form data is unchanged |
| `ExpenseFormComponent.ExpenseForm.EditFields` | src/components/ExpenseForm.jsx:107-208 | sets the text fields and the amount; the attachments and the new-category box are unchanged |
| `Faq.Toggled` | src/pages/FAQ.jsx:11-19 | flips membership of the given index and keeps that of every other index |
| `Faq.ToggleTwice` | src/pages/FAQ.jsx:11-19 | toggling the same index twice restores the set |
| `Faq.FaqPage.constructor` | src/pages/FAQ.jsx:9 | only item 0 is open at first |
| `Faq.FaqPage.ToggleItem` | src/pages/FAQ.jsx:11-19 | the stored set becomes the toggled copy of the previous set |

## Left out

- Rendering (JSX, Tailwind classes, framer-motion, `AnimatePresence`): presentation only.
- `localStorage.getItem`/`setItem`, `JSON.parse`/`JSON.stringify`: foreign I/O. The stored item is the abstract `StoredBlob`, and a save is "storage holds `Serialized(state)`". A failing write (storage quota) is not modelled, nor is the `console.error` logged for a malformed stored item (ExpenseContext.jsx:72).
- Fields that the stored JSON sets to `null`, extra stored fields, and stored expenses with missing fields are not modelled: `PartialState` has only the three known fields, and an `Expense` always has every field.
- On mount, the save effect first writes the default state and then, after the load re-render, the loaded state. The constructor performs both writes in order; its contract states only the final one.
- `Date.now()`, `new Date().toISOString()`: clock reads, taken as the parameters `now` and `today`.
- `URL.createObjectURL` and the `File` objects: the caller passes the finished `Attachment` records to `HandleFileUpload`. An attachment's `url` is an opaque string; it is saved and restored as text, and whether the object URL still resolves after a reload is not modelled.
- `parseFloat`, `toLocaleString`, `toFixed`, date-fns `format`: foreign library calls. Parsed numbers arrive as `Option<Cents>`. Formatting is not modelled.
- IEEE floating point: amounts are integer cents, usage is an exact `real`.
- `ExpenseFormComponent.ExpenseForm.HandleSubmit`: requires an amount, because the amount input is `required` (ExpenseForm.jsx:121) and the browser does not submit without one. A `NaN` amount is therefore not modelled.
- `Text.LowerChar`: maps only the ASCII capitals; every other character is kept, where JavaScript lower-cases non-ASCII capitals too.
- `Text.ToLower`: lower-cases ASCII letters only, character by character. JavaScript's full and context-sensitive Unicode case mapping (such as the final-sigma rule) is not modelled, so for non-ASCII text `ExpensesPage.MatchesSearch` and `ExpensesPage.FilteredExpenses` can differ from the page's filter in either direction.
- The `onSubmit`/`onClose` callbacks of the form (ExpenseForm.jsx:41, 89) and the Expenses page's form-visibility handlers: view state of the parent page.
- `window.confirm` before a delete (Expenses.jsx:33): a browser dialog. `ExpenseProvider.DeleteExpense` is the confirmed path.
- The dashboard's `showAllowanceForm`/`allowanceInput` state: view state, apart from the fallback in `AllowanceFromInput`.
- `src/App.jsx` (loading timer, routes) and `src/components/Navigation.jsx` (active-route highlight): routing glue.
- The FAQ question and answer text: static content.
- The `useExpense` missing-provider error: a React framework check.
