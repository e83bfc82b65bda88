/** The application state of the tracker (App.tsx:180-372): the active
    period and its expenses, the append-only history of closed periods, the
    record being viewed, the dialog flags, and the storage kept in step with
    them. One method per handler, plus the three places where a component's
    callback reaches a handler. */
module App {
  import opened Types
  import opened Totals
  import opened Storage
  import History
  import Report
  import ExpenseEntry
  import Setup
  import Text

  /** The period and expenses the report dialog and the tracker screen see. */
  datatype ActiveData = ActiveData(budget: BudgetPeriod, expenses: seq<Expense>)

  /** `activeData`: the active period if there is one, else the viewed
      record, else nothing. */
  function SelectActiveData(current: Option<BudgetPeriod>, expenses: seq<Expense>, viewing: Option<BudgetRecord>): Option<ActiveData>
  {
    if current.Some? then Some(ActiveData(current.value, expenses))
    else if viewing.Some? then Some(ActiveData(viewing.value.budget, viewing.value.expenses))
    else None
  }

  /** `isHistoryView`: a record is viewed and no period is active. */
  predicate IsHistoryView(current: Option<BudgetPeriod>, viewing: Option<BudgetRecord>)
  {
    viewing.Some? && current.None?
  }

  /** The main screen and the properties it is drawn with. */
  datatype Screen =
    | Tracker(data: ActiveData, readOnly: bool, hasAddHandler: bool, hasBack: bool)
    | HistoryList(trips: seq<BudgetRecord>)

  /** The main screen: the tracker of the active period; else the read-only
      tracker of the viewed record, with a back button and no add handler;
      else the history list. */
  function MainScreen(current: Option<BudgetPeriod>, expenses: seq<Expense>, viewing: Option<BudgetRecord>, history: seq<BudgetRecord>): Screen
  {
    if current.Some? then Tracker(ActiveData(current.value, expenses), false, true, false)
    else if viewing.Some? then Tracker(ActiveData(viewing.value.budget, viewing.value.expenses), true, false, true)
    else HistoryList(history)
  }

  /** The three selections agree. There is data to report exactly when a
      tracker is on screen, and it is the data that tracker shows; the
      tracker is read-only exactly in history view; and an expense can be
      added only while a period is active. */
  lemma ScreenAgreesWithActiveData(current: Option<BudgetPeriod>, expenses: seq<Expense>, viewing: Option<BudgetRecord>,
                                   history: seq<BudgetRecord>, isAdding: bool)
    ensures var screen, data := MainScreen(current, expenses, viewing, history), SelectActiveData(current, expenses, viewing);
            && (screen.HistoryList? <==> data.None?)
            && (screen.HistoryList? ==> screen.trips == history)
            && (screen.Tracker? ==> screen.data == data.value)
            && (screen.Tracker? && screen.readOnly <==> IsHistoryView(current, viewing))
            && (screen.Tracker? && ExpenseEntry.AddFormShown(isAdding, screen.readOnly, screen.hasAddHandler) ==> current.Some?)
  {
  }

  /** The close button of the report dialog is offered only outside history
      view, which means only for the active period: a viewed record cannot
      be closed again. */
  lemma CloseOfferedOnlyForActive(current: Option<BudgetPeriod>, expenses: seq<Expense>, viewing: Option<BudgetRecord>)
    requires SelectActiveData(current, expenses, viewing).Some? && !IsHistoryView(current, viewing)
    ensures current.Some?
    ensures SelectActiveData(current, expenses, viewing) == Some(ActiveData(current.value, expenses))
  {
  }

  class BudgetApp {
    var currentBudget: Option<BudgetPeriod>
    var expenses: seq<Expense>
    var budgetHistory: seq<BudgetRecord>
    var isSetupOpen: bool
    var isReportModalOpen: bool
    var isGenerating: bool
    var viewingHistoryItem: Option<BudgetRecord>
    /** Local storage. */
    var store: Store
    /** Every value the busy flag has been set to, in order. */
    ghost var generatingTrace: seq<bool>

    /** Storage holds what the state says it should, and no report is being
      generated between two events. */
    ghost predicate Valid()
      reads this
    {
      InSync(store, currentBudget, expenses, budgetHistory) && !isGenerating
    }

    function ActiveData(): Option<ActiveData>
      reads this
    {
      SelectActiveData(currentBudget, expenses, viewingHistoryItem)
    }

    function Screen(): Screen
      reads this
    {
      MainScreen(currentBudget, expenses, viewingHistoryItem, budgetHistory)
    }

    /** The report dialog is drawn while it is open and there is data. */
    predicate ReportModalShown()
      reads this
    {
      isReportModalOpen && ActiveData().Some?
    }

    /** Start-up: read the state from `initial`, let the storage effects
      write it back, then open the setup form only when there is neither an
      active period nor a non-empty history. */
    constructor (initial: Store)
      ensures Valid()
      ensures currentBudget == LoadBudget(initial) && budgetHistory == LoadHistory(initial)
      ensures expenses == LoadExpenses(initial)
      ensures isSetupOpen <==> currentBudget.None? && budgetHistory == []
      ensures !isReportModalOpen && viewingHistoryItem.None? && generatingTrace == []
    {
      currentBudget := LoadBudget(initial);
      expenses := LoadExpenses(initial);
      budgetHistory := LoadHistory(initial);
      isSetupOpen, isReportModalOpen, isGenerating := false, false, false;
      viewingHistoryItem := None;
      generatingTrace := [];
      new;
      PersistDecidesKeys(initial, currentBudget, expenses, budgetHistory);
      StartupOpensSetup(initial);
      store := Persist(initial, currentBudget, expenses, budgetHistory);
      if SetupOpensAtStart(store) {
        isSetupOpen := true;
      }
    }

    /** `handleStartBudget`: the period becomes active with no expenses, the
      setup form closes and no record is viewed any more. */
    method StartBudget(budget: BudgetPeriod)
      requires Valid()
      modifies this
      ensures Valid()
      ensures currentBudget == Some(budget) && expenses == []
      ensures !isSetupOpen && viewingHistoryItem.None?
      ensures budgetHistory == old(budgetHistory)
      ensures isReportModalOpen == old(isReportModalOpen) && generatingTrace == old(generatingTrace)
    {
      currentBudget := Some(budget);
      expenses := [];
      isSetupOpen := false;
      viewingHistoryItem := None;
      PersistDecidesKeys(store, currentBudget, expenses, budgetHistory);
      store := Persist(store, currentBudget, expenses, budgetHistory);
    }

    /** `handleAddExpense`: exactly one expense, the draft with the fresh
      `id`, is appended; the earlier ones stay as and where they were, and
      the month total grows by its amount. The handler itself does not look
      at whether a period is active; storage holds the list only if one is. */
    method AddExpense(draft: ExpenseDraft, id: int)
      requires Valid()
      modifies this
      ensures Valid()
      ensures expenses == old(expenses) + [WithId(draft, id)]
      ensures SumAmounts(expenses) == SumAmounts(old(expenses)) + draft.amount
      ensures currentBudget == old(currentBudget) && budgetHistory == old(budgetHistory)
      ensures viewingHistoryItem == old(viewingHistoryItem)
      ensures isSetupOpen == old(isSetupOpen) && isReportModalOpen == old(isReportModalOpen)
      ensures generatingTrace == old(generatingTrace)
    {
      expenses := expenses + [WithId(draft, id)];
      PersistDecidesKeys(store, currentBudget, expenses, budgetHistory);
      store := Persist(store, currentBudget, expenses, budgetHistory);
      SumAmountsAppend(old(expenses), WithId(draft, id));
    }

    /** `handleEndBudget`. With no active period nothing changes. Otherwise
      exactly one record is appended, holding the period, its expenses and
      their sum under the fresh `id`; the earlier history is kept; the
      active period and its expenses are cleared, from storage too, and the
      report dialog closes. */
    method EndBudget(id: int)
      requires Valid()
      modifies this
      ensures Valid()
      ensures old(currentBudget).None? ==> unchanged(this)
      ensures old(currentBudget).Some? ==>
                && budgetHistory == old(budgetHistory) + [BudgetRecord(id, old(currentBudget).value, old(expenses), SumAmounts(old(expenses)))]
                && currentBudget.None? && expenses == [] && !isReportModalOpen
                && store.currentBudget.None? && store.currentExpenses.None?
                && isSetupOpen == old(isSetupOpen) && viewingHistoryItem == old(viewingHistoryItem)
                && generatingTrace == old(generatingTrace)
      ensures old(currentBudget).Some? ==>
                GrandTotal(budgetHistory) == GrandTotal(old(budgetHistory)) + SumAmounts(old(expenses))
    {
      if currentBudget.Some? {
        var total := SumAmounts(expenses);
        var newRecord := BudgetRecord(id, currentBudget.value, expenses, total);
        var before := budgetHistory;
        GrandTotalAppend(before, newRecord);
        budgetHistory := before + [newRecord];
        assert GrandTotal(budgetHistory) == GrandTotal(before) + total;
        currentBudget := None;
        expenses := [];
        isReportModalOpen := false;
        PersistDecidesKeys(store, currentBudget, expenses, budgetHistory);
        store := Persist(store, currentBudget, expenses, budgetHistory);
      }
    }

    /** `handleDeleteRecord`: the history keeps exactly the records whose id
      is not `id`, in their order; the viewed record is dropped only if it
      carries that id. */
    method DeleteRecord(id: int)
      requires Valid()
      modifies this
      ensures Valid()
      ensures budgetHistory == History.RemoveId(old(budgetHistory), id)
      ensures viewingHistoryItem ==
                if old(viewingHistoryItem).Some? && old(viewingHistoryItem).value.id == id then None
                else old(viewingHistoryItem)
      ensures currentBudget == old(currentBudget) && expenses == old(expenses)
      ensures isSetupOpen == old(isSetupOpen) && isReportModalOpen == old(isReportModalOpen)
      ensures generatingTrace == old(generatingTrace)
    {
      budgetHistory := History.RemoveId(budgetHistory, id);
      if viewingHistoryItem.Some? && viewingHistoryItem.value.id == id {
        viewingHistoryItem := None;
      }
      PersistDecidesKeys(store, currentBudget, expenses, budgetHistory);
      store := Persist(store, currentBudget, expenses, budgetHistory);
    }

    /** `handleSelectHistoryRecord`: only the viewed record changes. */
    method SelectHistoryRecord(record: BudgetRecord)
      requires Valid()
      modifies this
      ensures Valid()
      ensures viewingHistoryItem == Some(record)
      ensures currentBudget == old(currentBudget) && expenses == old(expenses) && budgetHistory == old(budgetHistory)
      ensures isSetupOpen == old(isSetupOpen) && isReportModalOpen == old(isReportModalOpen)
      ensures store == old(store) && generatingTrace == old(generatingTrace)
    {
      viewingHistoryItem := Some(record);
    }

    /** The read-only tracker's back button: only the viewed record is
      cleared, so viewing a record and going back leaves the history as it
      was. */
    method GoBack()
      requires Valid()
      modifies this
      ensures Valid()
      ensures viewingHistoryItem.None?
      ensures currentBudget == old(currentBudget) && expenses == old(expenses) && budgetHistory == old(budgetHistory)
      ensures isSetupOpen == old(isSetupOpen) && isReportModalOpen == old(isReportModalOpen)
      ensures store == old(store) && generatingTrace == old(generatingTrace)
    {
      viewingHistoryItem := None;
    }

    /** The setup form is opened by the history list's "new month" button
      and closed by its own close button. */
    method SetSetupOpen(open: bool)
      requires Valid()
      modifies this
      ensures Valid()
      ensures isSetupOpen == open
      ensures currentBudget == old(currentBudget) && expenses == old(expenses) && budgetHistory == old(budgetHistory)
      ensures viewingHistoryItem == old(viewingHistoryItem) && isReportModalOpen == old(isReportModalOpen)
      ensures store == old(store) && generatingTrace == old(generatingTrace)
    {
      isSetupOpen := open;
    }

    /** The report dialog is opened from either tracker screen and closed by
      its back button. */
    method SetReportModalOpen(open: bool)
      requires Valid()
      modifies this
      ensures Valid()
      ensures isReportModalOpen == open
      ensures currentBudget == old(currentBudget) && expenses == old(expenses) && budgetHistory == old(budgetHistory)
      ensures viewingHistoryItem == old(viewingHistoryItem) && isSetupOpen == old(isSetupOpen)
      ensures store == old(store) && generatingTrace == old(generatingTrace)
    {
      isReportModalOpen := open;
    }

    /** `generatePdf`, pressed in the report dialog. The busy flag is set
      first and cleared on every path (twice on the empty detailed report,
      which clears it itself before the final clearing). The report is made
      from the data the dialog shows; nothing else in the state changes. */
    method GeneratePdf(kind: Report.ReportKind, lib: Report.Library) returns (outcome: Report.PdfOutcome)
      requires Valid() && ReportModalShown()
      modifies this
      ensures Valid()
      ensures outcome.GenerationFailed? <==> !lib.loaded
      ensures outcome.NothingToReport? <==> lib.loaded && kind == Report.Detailed && old(ActiveData()).value.expenses == []
      ensures outcome.Exported? ==> outcome.fileName == Report.FileName(kind, old(ActiveData()).value.budget.month)
      ensures outcome.Exported? ==> outcome.steps == Report.Download(lib.saveOk, lib.openOk)
      ensures outcome.Exported? && kind == Report.Summary ==>
                Report.IsSummaryOf(outcome.document, old(ActiveData()).value.budget, old(ActiveData()).value.expenses)
      ensures outcome.Exported? && kind == Report.Detailed ==>
                Report.IsDetailedOf(outcome.document, old(ActiveData()).value.budget, old(ActiveData()).value.expenses, lib.imageLoads)
      ensures generatingTrace == old(generatingTrace) + (if outcome.NothingToReport? then [true, false, false] else [true, false])
      ensures currentBudget == old(currentBudget) && expenses == old(expenses) && budgetHistory == old(budgetHistory)
      ensures viewingHistoryItem == old(viewingHistoryItem) && isSetupOpen == old(isSetupOpen)
      ensures isReportModalOpen == old(isReportModalOpen) && store == old(store)
    {
      var data := ActiveData().value;
      isGenerating := true;
      generatingTrace := generatingTrace + [true];
      outcome := Report.Generate(kind, data.budget, data.expenses, lib);
      if outcome.NothingToReport? {
        isGenerating := false;
        generatingTrace := generatingTrace + [false];
      }
      isGenerating := false;
      generatingTrace := generatingTrace + [false];
    }

    /** The setup form's submit reaches `handleStartBudget` only when the
      form accepts its fields. */
    method SubmitSetup(form: Setup.SetupForm)
      requires Valid()
      modifies this
      ensures Valid()
      ensures old(isSetupOpen) && Text.Trim(form.month) != [] && form.date != [] ==>
                && currentBudget == Some(BudgetPeriod(form.month, form.goal, form.date))
                && expenses == [] && !isSetupOpen && viewingHistoryItem.None?
      ensures !(old(isSetupOpen) && Text.Trim(form.month) != [] && form.date != []) ==> unchanged(this)
      ensures budgetHistory == old(budgetHistory)
      ensures isReportModalOpen == old(isReportModalOpen) && generatingTrace == old(generatingTrace)
    {
      var started := form.Submit(isSetupOpen);
      if started.Some? {
        StartBudget(started.value);
      }
    }

    /** The add form's submit, on the tracker screen drawn by this state:
      an accepted draft reaches `handleAddExpense` and the form closes;
      a rejected one ends in the missing-fields alert and changes nothing.
      The form can be open only on the active period's tracker, so an
      expense is added only while a period is active. */
    method SubmitExpense(screen: ExpenseEntry.TrackerScreen, form: ExpenseEntry.AddExpenseForm, parsedAmount: int, id: int)
      returns (outcome: ExpenseEntry.SubmitOutcome)
      requires Valid() && Screen().Tracker?
      requires screen.readOnly == Screen().readOnly && screen.hasAddHandler == Screen().hasAddHandler
      requires screen.FormShown() && !form.showCamera
      modifies this, screen
      ensures Valid()
      ensures old(currentBudget).Some?
      ensures outcome.MissingFields? <==> !(form.amount != "" && Text.Trim(form.description) != "")
      ensures outcome.Added? ==>
                && expenses == old(expenses) + [Expense(id, Text.Trim(form.description), parsedAmount, ExpenseEntry.NormalizeReceipt(form.receipt))]
                && !screen.isAdding
      ensures outcome.MissingFields? ==> unchanged(this) && unchanged(screen)
      ensures currentBudget == old(currentBudget) && budgetHistory == old(budgetHistory)
      ensures viewingHistoryItem == old(viewingHistoryItem) && isSetupOpen == old(isSetupOpen)
      ensures isReportModalOpen == old(isReportModalOpen) && generatingTrace == old(generatingTrace)
    {
      outcome := form.Submit(parsedAmount);
      if outcome.Added? {
        AddExpense(outcome.draft, id);
        screen.CloseForm();
      }
    }

    /** The history list's confirm button, on the history list drawn by this
      state: the pending id, if any, is deleted exactly once and the
      confirmation closes. */
    method ConfirmDeleteInHistory(browser: History.HistoryBrowser)
      requires Valid() && Screen().HistoryList?
      modifies this, browser
      ensures Valid()
      ensures browser.deleteConfirmationId.None?
      ensures old(browser.deleteConfirmationId).Some? ==>
                budgetHistory == History.RemoveId(old(budgetHistory), old(browser.deleteConfirmationId).value)
      ensures old(browser.deleteConfirmationId).None? ==> unchanged(this)
      ensures currentBudget == old(currentBudget) && expenses == old(expenses)
      ensures viewingHistoryItem.None? && viewingHistoryItem == old(viewingHistoryItem)
      ensures isSetupOpen == old(isSetupOpen) && isReportModalOpen == old(isReportModalOpen)
      ensures generatingTrace == old(generatingTrace)
    {
      var deleteCall := browser.ConfirmDelete();
      if deleteCall.Some? {
        DeleteRecord(deleteCall.value);
      }
    }
  }

  /** A month from start to close: March 2025 with two expenses adding up
      to R$ 200,50 is closed into one record with that total; a detailed
      report of an empty month is refused. */
  method MonthScenario()
  {
    var app := new BudgetApp(Store(None, None, None));
    assert app.isSetupOpen;
    app.StartBudget(BudgetPeriod("Março/2025", "", "2025-03-01"));
    app.SetReportModalOpen(true);
    var lib := Report.Library(true, _ => true, true, true);
    var refused := app.GeneratePdf(Report.Detailed, lib);
    assert refused.NothingToReport? && !app.isGenerating;
    app.AddExpense(ExpenseDraft("Mercado", 12050, None), 1);
    app.AddExpense(ExpenseDraft("Luz", 8000, None), 2);
    SumAmountsAppend([], WithId(ExpenseDraft("Mercado", 12050, None), 1));
    assert SumAmounts(app.expenses) == 20050;
    app.EndBudget(3);
    assert app.currentBudget.None? && app.expenses == [] && !app.isReportModalOpen;
    assert |app.budgetHistory| == 1 && app.budgetHistory[0].total == 20050 && |app.budgetHistory[0].expenses| == 2;
  }
}
