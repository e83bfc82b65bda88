# Monthly budget tracker — a verified model of its core

The tracker keeps one active budget period at a time: a month label, an
optional goal and a start date. Expenses are logged against it. Closing
the period turns it into a record in an append-only history, holding the
period, its expenses and their total. The history can be browsed, a record
viewed read-only, and a record deleted after a two-step confirmation. For
the period on screen, a summary or a detailed report can be exported.

This project models, in Dafny:

- the application state and its handlers (`App.tsx`), as the class
  `App.BudgetApp`, one method per handler;
- the rules that decide which of the three local-storage keys exist for a
  given state, and what a fresh start reads back (`Storage`);
- the report rules inside `generatePdf`/`downloadPdf` (`Report`):
  - summary line placement and page breaks;
  - the one-page-per-expense rule of the detailed report and its refusal
    of an empty period;
  - the file names;
  - the save / open-in-new-window / alert fallback;
- the add-expense form, its acceptance rule and the gating of the add
  button (`ExpenseEntry`);
- the new-period form: reset on opening, default month label, acceptance
  rule (`Setup`);
- the history list: deletion by id, newest-first display order, the
  record the confirmation names, and the confirm/cancel state machine
  (`History`);
- the totals folds (`Totals`);
- the few JavaScript string rules all of these rely on: `trim`, global
  `/` replacement, first-letter upper-casing, decimal numbers (`Text`);
- the record shapes of `types.ts` (`Types`).

Modelling choices:

- Amounts are whole cents (`int`). `parseFloat` is not modelled: the
  amount it produces is passed to the form's submit as `parsedAmount`.
- Ids (`Date.now()`) are fresh values passed in by the caller. Nothing in
  the code, and nothing in the model, makes them unique.
- The clock's month name, year and today's date are parameters of the
  setup form's open effect.
- Optional strings follow JavaScript truthiness: `receipt || undefined`,
  `if (exp.receipt)` and `if (budget.goal)` treat `""` like absence.
- Storage is a value with three optional keys. The three sync effects run
  after each handler, in their declaration order. React runs only the
  effects whose dependencies changed; `Storage.OnlyChangedEffectsSuffice`
  proves that, on storage in sync with the previous state, this leaves the
  same storage as running all three. The model counts a dependency as
  changed when its value differs, while React compares references, so
  React may run an effect more; that extra run is a no-op on storage in
  sync (`Storage.PersistDecidesKeys`), so the storage is the same.
- The drawing library is a `Report.Library` value. It says whether the
  library is loaded, which images it accepts, and whether saving and
  opening succeed. A summary report is the list of texts the library is
  asked to draw, each with its page and position. A detailed report is the
  period label and one page per expense, each with its number,
  description, amount and photo slot.
- The `stopPropagation` calls are followed: a click on a record's delete
  button (`components/TripHistory.tsx:18-21`) only records the pending id
  and never reaches the row's select handler (`:73`), and clicks inside a
  dialog do not close it, so only its own buttons are events of the model.
- Any amount whose input text is non-empty is accepted, whatever its sign.
- `goal` is a mandatory string; `""` means "no goal".
- The add button is gated only by `readOnly`
  (`components/ExpenseTracker.tsx:205`). The add form also needs an add
  handler (`:225`).
- `handleAddExpense` itself does not check for an active period.
  `App.BudgetApp.SubmitExpense` shows that the form can only be open on
  the active period's tracker.

## Model

| member | source | states |
|---|---|---|
| Types.BudgetPeriod | types.ts:2-6 | a budget period: month label, goal text (empty for none) and start date |
| Types.Expense | types.ts:8-13 | an expense: id, description, amount in cents and an optional receipt image |
| Types.ExpenseDraft | components/ExpenseTracker.tsx:10 | an expense without its id, as the add form hands it over |
| Types.BudgetRecord | types.ts:15-20 | a closed period: id, the period, its expenses and their stored total |
| Types.Truthy | components/ExpenseTracker.tsx:36 | an optional string is truthy exactly when present and non-empty |
| Types.HasGoal | App.tsx:49 | `if (budget.goal)`: the goal is truthy |
| Types.HasReceipt | App.tsx:99 | `if (exp.receipt)`: the receipt is truthy |
| Types.WithId | App.tsx:264-268 | a draft completed with an id differs from it only by that id, and is the only expense that does |
| Totals.SumAmounts | components/ExpenseTracker.tsx:125 | the month total: the sum of the amounts, added up in list order |
| Totals.GrandTotal | components/TripHistory.tsx:16 | the grand total: the sum of the records' stored totals |
| Totals.SumAmountsAppend | components/ExpenseTracker.tsx:125 | appending one expense raises the month total by exactly its amount; one expense totals to its amount |
| Totals.SumAmountsConcat | components/ExpenseTracker.tsx:125 | the month total of a concatenation is the sum of the parts' totals |
| Totals.SumAmountsPrepend | components/ExpenseTracker.tsx:125 | an expense in front of a list adds its amount |
| Totals.GrandTotalConcat | components/TripHistory.tsx:16 | the grand total of a concatenation of histories is the sum of the parts' grand totals |
| Totals.GrandTotalAppend | components/TripHistory.tsx:16 | appending a record raises the grand total by exactly its stored total |
| Totals.GrandTotalUsesStoredTotals | components/TripHistory.tsx:16 | histories whose records carry the same stored totals, position by position, have the same grand total, whatever their expense lists hold |
| Text.LeadingEnd | components/ExpenseTracker.tsx:32 | the first position from `i` on that is not whitespace: everything skipped is whitespace, and what it stops at is not |
| Text.TrailingStart | components/ExpenseTracker.tsx:32 | walking down from `j`, everything skipped is whitespace and the character before the stop is not |
| Text.Trim | components/ExpenseTracker.tsx:32-35 | the result is one slice of the input; everything cut off before and after it is whitespace; it neither starts nor ends with whitespace; it is empty exactly when the input is all whitespace |
| Text.TrimIdempotent | components/TripSetup.tsx:34 | trimming twice is trimming once |
| Text.ReplaceSlashes | App.tsx:74 | same length; each '/' becomes '-', every other character is kept in place |
| Text.ReplaceSlashesRemovesAll | App.tsx:74 | no '/' is left; a text without '/' is unchanged; replacing twice is replacing once |
| Text.ReplaceSlashesConcat | App.tsx:130 | the replacement splits over a concatenation |
| Text.IsJsWhitespace | components/ExpenseTracker.tsx:32 | the characters `trim` removes: ECMAScript's WhiteSpace and LineTerminator code points |
| Text.UpperCase | components/TripSetup.tsx:22 | 'a'..'z' and the Latin-1 letters 'à'..'þ' (except '÷') move 32 code points down to their capitals; 'ß' becomes "SS", 'ÿ' 'Ÿ' and 'µ' 'Μ'; every other character is kept; a '/' arises only from '/', and no whitespace from a non-whitespace character |
| Text.Capitalize | components/TripSetup.tsx:22 | `charAt(0).toUpperCase() + slice(1)`: empty exactly for an empty name; otherwise the first character's upper case followed by the rest of the name unchanged; holds a '/' exactly when the name does |
| Text.DigitChar | components/TripSetup.tsx:22 | the digit d is written as the character d places after '0' |
| Text.DecimalValue | components/TripSetup.tsx:21-22 | the number a string of digits denotes, read most significant digit first |
| Text.ReadsAsDecimal | components/TripSetup.tsx:21-22 | a text is the decimal writing of a number: digits only, with that value |
| Text.NatToDecimal | components/TripSetup.tsx:21-22 | a year is written with one or more digits, with a leading '0' only for zero |
| Text.NatToDecimalRoundTrip | components/TripSetup.tsx:21-22 | reading the decimal text back gives the number again |
| Text.IntToDecimal | components/TripSetup.tsx:21-22 | `${year}`: the text holds no '/' and starts with '-' exactly for a negative number; the digits (after the '-') read back as the number's absolute value and start with '0' only for zero |
| Storage.SyncBudget | App.tsx:223-234 | with an active period its key holds it; without one both `currentBudget` and `currentExpenses` are removed; the history key is untouched |
| Storage.SyncExpenses | App.tsx:236-245 | the list is written only while a period is active; otherwise the key is left as it was |
| Storage.SyncHistory | App.tsx:247-253 | the history key is always written; the other two are untouched |
| Storage.InSync | App.tsx:223-253 | the keys a state should leave: `currentBudget` holds the period, `currentExpenses` the list only while a period is active, `budgetHistory` always the history |
| Storage.Persist | App.tsx:223-253 | the three effects in their declaration order |
| Storage.PersistDecidesKeys | App.tsx:223-253 | after the effects, the keys present are decided by the state alone: no period means neither period key is present; once in sync each effect changes nothing |
| Storage.SyncChanged | App.tsx:223-253 | one render's effects, each run only when one of its dependencies changed |
| Storage.OnlyChangedEffectsSuffice | App.tsx:223-253 | on storage in sync with the previous state, running only the effects whose dependencies changed leaves exactly the storage that running all three would |
| Storage.LoadBudget | App.tsx:182-190 | the period read at start-up is the stored `currentBudget`, absent when the key is |
| Storage.LoadExpenses | App.tsx:192-202 | with no stored period the list is empty; with a stored period it is the stored list, or empty when `currentExpenses` is absent |
| Storage.LoadHistory | App.tsx:204-214 | the history read at start-up is the stored one, empty when the key is absent |
| Storage.SetupOpensAtStart | App.tsx:300-308 | the start-up test: no stored period and no non-empty stored history |
| Storage.LoadAfterPersist | App.tsx:182-253 | a fresh start reads back the period, the history, and the expenses while a period is active |
| Storage.StartupOpensSetup | App.tsx:300-308 | at start-up the setup form opens exactly when no period was stored and the stored history was empty |
| History.RemoveId | App.tsx:290 | no kept record carries the id, and nothing is gained |
| History.RemoveIdMembers | App.tsx:290 | a record is kept exactly when it was present and does not carry the id |
| History.RemoveIdConcat | App.tsx:290 | deletion works piece by piece, so the relative order of the kept records is the original one |
| History.RemoveIdAbsent | App.tsx:290 | deleting an id that no record carries changes nothing |
| History.RemoveIdUnique | App.tsx:290 | when exactly one record carries the id, deletion removes exactly that record and keeps the others in order |
| History.GrandTotalAfterDelete | App.tsx:289-294 | deleting the one record with an id lowers the grand total by its stored total |
| History.FindIndex | components/TripHistory.tsx:35 | the position found is the first record whose id equals the pending id; none when nothing is pending or no record matches |
| History.FindById | components/TripHistory.tsx:35 | the record found is in the list, carries the pending id and has no earlier record with that id (the first match, as `find` returns); none exactly when no record carries it |
| History.DisplayOrder | components/TripHistory.tsx:70 | the display order is the exact reverse of the stored order |
| History.DisplayOrderInverse | components/TripHistory.tsx:70 | reversing twice gives the stored order back; a newly closed record is shown first, followed by the earlier display |
| History.HistoryBrowser.constructor | components/TripHistory.tsx:14 | no deletion is pending at first |
| History.HistoryBrowser.ConfirmationShown | components/TripHistory.tsx:104 | the confirmation dialog is drawn exactly while an id is pending |
| History.HistoryBrowser.RecordToDelete | components/TripHistory.tsx:35 | the record the confirmation names is shown only while it is pending, is one of the listed records, carries the pending id and is the first that does; none exactly when no listed record carries it |
| History.HistoryBrowser.DeleteClick | components/TripHistory.tsx:18-21 | clicking delete only records the pending id |
| History.HistoryBrowser.ConfirmDelete | components/TripHistory.tsx:23-28 | the delete call is made with the pending id, once, and only if one is pending; afterwards none is pending |
| History.HistoryBrowser.CancelDelete | components/TripHistory.tsx:30-32 | cancelling clears the pending id and asks for no deletion |
| Report.LinePage | App.tsx:59-67 | the page of the k-th line: the first for lines 0..25, then one more every 36 lines |
| Report.LineY | App.tsx:59-67 | every expense line is drawn at 20 <= y <= 270 |
| Report.PlacementStep | App.tsx:59-67 | each run of the loop body: a cursor past 270 opens a new page at y = 20; otherwise the line sits 7 below the previous one on the same page |
| Report.PageCapacity | App.tsx:59-67 | the first page holds 26 lines and every later page 36; pages fill in order, and within a page each line is 7 below the previous one |
| Report.LineAt | App.tsx:66 | the numbered line of the k-th expense: number k+1, its description and amount, at x = 20 on the closed-form page and y |
| Report.ExpenseLines | App.tsx:60-67 | one line per expense |
| Report.ExpenseLinesWellPlaced | App.tsx:59-67 | line k carries number k+1 and the expense's own description and amount; it sits at x = 20 inside the printable band, on a page no later than the last line's; the first line is at y = 95 on the first page; each later line is 7 below the previous one on its page, or at y = 20 on the next page when the previous one's y + 7 passes 270 |
| Report.SummaryHeader | App.tsx:43-54 | the fixed part of the first page: title, month, the goal only when it is truthy, start date, total |
| Report.IsSummaryOf | App.tsx:41-72 | what the summary of a period is: the header with the period's total, then either the "no expenses" line on one page or the heading and the expense lines, with page count = last line's page + 1 |
| Report.LayoutSummary | App.tsx:41-72 | the document built by the cursor loop is the summary of the period |
| Report.PageFor | App.tsx:89-127 | the k-th detailed page: number k+1, the expense's description and amount, and its photo slot |
| Report.IsDetailedOf | App.tsx:83-127 | what the detailed report of a period is: titled with the month, exactly one page per expense, in list order, each the page of that expense |
| Report.LayoutDetailed | App.tsx:76-129 | no document exactly for an empty period; otherwise the detailed report of the period |
| Report.PhotoSlotFollowsReceipt | App.tsx:99-127 | the "no photo" line appears exactly when the receipt is absent or empty; an image shown is the expense's own receipt |
| Report.FilePrefix | App.tsx:74 | the file-name prefixes of both report kinds hold no '/' |
| Report.FileName | App.tsx:74 | the name is the kind's prefix, the month with every '/' turned into '-', then ".pdf"; it holds no '/' |
| Report.Download | App.tsx:20-32 | saving is always tried first; opening in a new window is tried exactly when saving fails, as the second step; the alert appears exactly when both fail, and then last; no step is repeated |
| Report.Generate | App.tsx:34-137 | a library that is not loaded fails the generation; the empty detailed report produces no document; otherwise the summary or the detailed report of the given period and expenses, with its file name and the export steps |
| ExpenseEntry.NormalizeReceipt | components/ExpenseTracker.tsx:36 | a receipt is delivered exactly when one was captured and is non-empty, and then unchanged |
| ExpenseEntry.AddExpenseForm.constructor | components/ExpenseTracker.tsx:20-23 | the form starts empty, with no receipt and the camera closed |
| ExpenseEntry.AddExpenseForm.EditAmount | components/ExpenseTracker.tsx:60 | typing changes the amount text only |
| ExpenseEntry.AddExpenseForm.EditDescription | components/ExpenseTracker.tsx:76 | typing changes the description only |
| ExpenseEntry.AddExpenseForm.OpenCamera | components/ExpenseTracker.tsx:87 | the camera view opens; the typed fields and receipt are kept |
| ExpenseEntry.AddExpenseForm.CloseCamera | components/ExpenseTracker.tsx:44 | the camera view closes without a receipt change |
| ExpenseEntry.AddExpenseForm.Capture | components/ExpenseTracker.tsx:25-28 | the captured image becomes the receipt and the camera view closes |
| ExpenseEntry.AddExpenseForm.Submit | components/ExpenseTracker.tsx:30-41 | accepted exactly when the amount text is non-empty and the description is not all whitespace; the draft carries the trimmed description, the parsed amount and the receipt only if one was captured |
| ExpenseEntry.AddButtonShown | components/ExpenseTracker.tsx:205 | the '+' button is drawn exactly when the screen is not read-only |
| ExpenseEntry.AddFormShown | components/ExpenseTracker.tsx:225 | the add form is drawn exactly while adding, on a screen that is not read-only and has an add handler |
| ExpenseEntry.TrackerScreen.constructor | components/ExpenseTracker.tsx:122 | the add form starts closed |
| ExpenseEntry.TrackerScreen.PressAdd | components/ExpenseTracker.tsx:205-214 | pressing '+' opens the form, which is drawn exactly when an add handler was given |
| ExpenseEntry.TrackerScreen.CloseForm | components/ExpenseTracker.tsx:225-232 | after an accepted submission or a cancel the form is closed |
| ExpenseEntry.ReadOnlyNeverAdds | components/ExpenseTracker.tsx:205-225 | a read-only screen shows neither the add button nor the add form |
| Setup.DefaultMonthLabel | components/TripSetup.tsx:22 | the proposed label expression; its meaning is stated by DefaultLabelSeparator and DefaultLabelCapital |
| Setup.DefaultLabelSeparator | components/TripSetup.tsx:19-22 | the proposed label is the capitalised month name, one '/' added after it, then the year: the part after that '/' holds no '/' and reads back as the year, with a leading '0' only for zero (a '-' and its absolute value, without leading zero, for a negative year) |
| Setup.DefaultLabelCapital | components/TripSetup.tsx:22 | for a month name starting with 'a'..'z', the label starts with its capital, followed by the rest of the name and then the '/' |
| Setup.DefaultLabelAccepted | components/TripSetup.tsx:22 | the proposed label is never all whitespace, so it passes the month test |
| Setup.DefaultLabelFileName | components/TripSetup.tsx:22 | for a month name without '/', the month part of the report file name (after '/' is replaced by '-') reads "<Month>-<year>" |
| Setup.SetupForm.constructor | components/TripSetup.tsx:12-14 | month and goal start empty, the date is today |
| Setup.SetupForm.OnOpenChanged | components/TripSetup.tsx:16-26 | opening proposes the default label, clears the goal and resets the date to today; closing changes nothing |
| Setup.SetupForm.EditMonth | components/TripSetup.tsx:56 | typing changes the month only |
| Setup.SetupForm.EditGoal | components/TripSetup.tsx:70 | typing changes the goal only |
| Setup.SetupForm.EditDate | components/TripSetup.tsx:83 | typing changes the date only |
| Setup.SetupForm.Submit | components/TripSetup.tsx:28-37 | a period starts exactly when the form is open, the trimmed month is non-empty and the date is non-empty; it carries the month untrimmed and the goal as typed |
| App.SelectActiveData | App.tsx:310-312 | the data on screen: the active period and its expenses, else the viewed record's, else none |
| App.IsHistoryView | App.tsx:343 | history view: a record is viewed and no period is active |
| App.MainScreen | App.tsx:347-369 | the active period's tracker; else the viewed record's read-only tracker with a back button and no add handler; else the history list |
| App.ScreenAgreesWithActiveData | App.tsx:310-369 | the report data exists exactly when a tracker is on screen and is the data it shows; the tracker is read-only exactly in history view; the add form can be open only while a period is active |
| App.CloseOfferedOnlyForActive | App.tsx:158-168 | the close-month button is offered only for the active period |
| App.BudgetApp.ReportModalShown | App.tsx:336 | the report dialog is drawn while its flag is set and there is data on screen |
| App.BudgetApp.constructor | App.tsx:182-219 | the state is read from storage and written back; the setup form opens exactly when no period is active and the history is empty |
| App.BudgetApp.StartBudget | App.tsx:257-262 | the period becomes active with no expenses, setup closes, no record is viewed; the history is kept |
| App.BudgetApp.AddExpense | App.tsx:264-270 | exactly one expense with the draft's fields and the fresh id is appended; earlier ones are unchanged and in order; the total grows by its amount |
| App.BudgetApp.EndBudget | App.tsx:272-287 | with no active period nothing changes; otherwise exactly one record (period, expenses, their sum) is appended, the earlier history is kept, the period and expenses are cleared everywhere and the report dialog closes |
| App.BudgetApp.DeleteRecord | App.tsx:289-294 | the history becomes the records without the id; the viewed record is dropped only if it carries the id |
| App.BudgetApp.SelectHistoryRecord | App.tsx:296-298 | only the viewed record changes |
| App.BudgetApp.GoBack | App.tsx:360 | the back button clears only the viewed record |
| App.BudgetApp.SetSetupOpen | App.tsx:333 | only the setup flag changes |
| App.BudgetApp.SetReportModalOpen | App.tsx:340 | only the report-dialog flag changes |
| App.BudgetApp.GeneratePdf | App.tsx:34-137 | the busy flag is set first and cleared on every path; the exported document is the summary or the detailed report of the data the dialog shows, named after its month; no other state changes |
| App.BudgetApp.SubmitSetup | components/TripSetup.tsx:32-37 | the setup form's submit starts the period only when the form accepts it, and otherwise changes nothing; the history, the report dialog and the busy flag are kept either way |
| App.BudgetApp.SubmitExpense | components/ExpenseTracker.tsx:30-41 | an accepted draft is appended and the form closes; a rejected one ends in the missing-fields outcome and changes nothing; this is possible only while a period is active; the dialogs, the viewed record and the busy flag are kept either way |
| App.BudgetApp.ConfirmDeleteInHistory | components/TripHistory.tsx:23-28 | confirming deletes the pending id exactly once and closes the confirmation; with nothing pending nothing changes; the active period, the dialogs, the viewed record (none) and the busy flag are kept |

## Left out

- Drawing calls, font sizes, colours and alignment of the PDF library are not modelled. A summary report is the list of texts with their page and position; a detailed report lists its pages' contents, not their positions.
- Receipt image scaling and centring (App.tsx:104-117) are left out: floating-point aspect-ratio arithmetic over sizes the library supplies. Only "image, or the error line when the library refuses it" is kept.
- Currency formatting (`toFixed(2)`, the ',' decimal mark), the `pt-BR` date format and locale month names are not modelled. Amounts stay in cents and dates as stored; the month name is a parameter.
- Text.UpperCase: covers Basic Latin and Latin-1 only; other characters are left unchanged, because full Unicode case mapping is library behaviour.
- `parseFloat` and its `NaN` result are left out; the parsed amount is a parameter.
- `JSON.stringify`/`JSON.parse` are not modelled: storage holds the values themselves, so the serialisation round trip is taken as identity.
- Storage exceptions, the `try`/`catch` logging around them, and corrupt stored data are left out.
- `Date.now()`, the clock and `new Date()` are parameters.
- The `setTimeout` delay, the Camera component, and all JSX, CSS and rendering are left out.
- The full-size receipt viewer (`viewingImage`) is display-only and left out.
- App.BudgetApp.GeneratePdf: the generation runs as one step. React events arriving while the `await` is pending are not modelled.
- Report.Generate: a library that is loaded is taken not to throw while drawing. Any throw in the source reaches the same alert as a library that is not loaded.
