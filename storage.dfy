/** The persistence rules of the tracker (App.tsx:182-253, 300-308): which
    of the three keys `currentBudget`, `currentExpenses` and `budgetHistory`
    are present for a given state, what a fresh start reads back from them,
    and when the setup form opens at start-up. Values are kept as they are;
    serialising them is not part of this model. */
module Storage {
  import opened Types

  /** The three keys of local storage: None is an absent key. */
  datatype Store = Store(
    currentBudget: Option<BudgetPeriod>,
    currentExpenses: Option<seq<Expense>>,
    budgetHistory: Option<seq<BudgetRecord>>)

  /** The effect on `currentBudget`: write it when a period is active,
      otherwise remove it together with `currentExpenses`. */
  function SyncBudget(st: Store, budget: Option<BudgetPeriod>): (r: Store)
    ensures r.currentBudget == budget && r.budgetHistory == st.budgetHistory
    ensures r.currentExpenses == if budget.Some? then st.currentExpenses else None
  {
    if budget.Some? then st.(currentBudget := budget)
    else st.(currentBudget := None, currentExpenses := None)
  }

  /** The effect on `currentExpenses`: write the list only while a period is
      active; with none active the key is left alone. */
  function SyncExpenses(st: Store, budget: Option<BudgetPeriod>, expenses: seq<Expense>): (r: Store)
    ensures r.currentBudget == st.currentBudget && r.budgetHistory == st.budgetHistory
    ensures r.currentExpenses == if budget.Some? then Some(expenses) else st.currentExpenses
  {
    if budget.Some? then st.(currentExpenses := Some(expenses)) else st
  }

  /** The effect on `budgetHistory`: always written. */
  function SyncHistory(st: Store, history: seq<BudgetRecord>): (r: Store)
    ensures r.currentBudget == st.currentBudget && r.currentExpenses == st.currentExpenses
    ensures r.budgetHistory == Some(history)
  {
    st.(budgetHistory := Some(history))
  }

  /** The three effects in the order they are declared. */
  function Persist(st: Store, budget: Option<BudgetPeriod>, expenses: seq<Expense>, history: seq<BudgetRecord>): Store
  {
    SyncHistory(SyncExpenses(SyncBudget(st, budget), budget, expenses), history)
  }

  /** The storage a state should leave behind. */
  ghost predicate InSync(st: Store, budget: Option<BudgetPeriod>, expenses: seq<Expense>, history: seq<BudgetRecord>)
  {
    && st.currentBudget == budget
    && st.currentExpenses == (if budget.Some? then Some(expenses) else None)
    && st.budgetHistory == Some(history)
  }

  /** After the effects have run, the keys present are decided by the state
      alone: with no active period neither `currentBudget` nor
      `currentExpenses` is present, and `budgetHistory` always is. Once in
      sync, each effect on its own changes nothing. */
  lemma PersistDecidesKeys(st: Store, budget: Option<BudgetPeriod>, expenses: seq<Expense>, history: seq<BudgetRecord>)
    ensures InSync(Persist(st, budget, expenses, history), budget, expenses, history)
    ensures InSync(st, budget, expenses, history) ==>
              (SyncBudget(st, budget) == st &&
               SyncExpenses(st, budget, expenses) == st &&
               SyncHistory(st, history) == st)
  {
  }

  /** One render's effects as React runs them: in declaration order, each
      only when one of its dependencies differs from the previous render's
      (`[currentBudget]`, `[expenses, currentBudget]`, `[budgetHistory]`). */
  function SyncChanged(
    st: Store,
    oldBudget: Option<BudgetPeriod>, oldExpenses: seq<Expense>, oldHistory: seq<BudgetRecord>,
    budget: Option<BudgetPeriod>, expenses: seq<Expense>, history: seq<BudgetRecord>): Store
  {
    var afterBudget := if budget != oldBudget then SyncBudget(st, budget) else st;
    var afterExpenses :=
      if budget != oldBudget || expenses != oldExpenses then SyncExpenses(afterBudget, budget, expenses)
      else afterBudget;
    if history != oldHistory then SyncHistory(afterExpenses, history) else afterExpenses
  }

  /** Skipping the effects whose dependencies did not change is harmless: on
      storage in sync with the previous render's state, the effects that do
      run leave exactly the storage that running all three would. */
  lemma {:induction false} OnlyChangedEffectsSuffice(
    st: Store,
    oldBudget: Option<BudgetPeriod>, oldExpenses: seq<Expense>, oldHistory: seq<BudgetRecord>,
    budget: Option<BudgetPeriod>, expenses: seq<Expense>, history: seq<BudgetRecord>)
    requires InSync(st, oldBudget, oldExpenses, oldHistory)
    ensures SyncChanged(st, oldBudget, oldExpenses, oldHistory, budget, expenses, history) == Persist(st, budget, expenses, history)
  {
  }

  /** The period read at start-up. */
  function LoadBudget(st: Store): Option<BudgetPeriod>
  {
    st.currentBudget
  }

  /** The expenses read at start-up: read only while `currentBudget` is
      present, an absent `currentExpenses` reads as the empty list. */
  function LoadExpenses(st: Store): (r: seq<Expense>)
    ensures st.currentBudget.None? ==> r == []
    ensures st.currentBudget.Some? && st.currentExpenses.Some? ==> r == st.currentExpenses.value
    ensures st.currentBudget.Some? && st.currentExpenses.None? ==> r == []
  {
    if st.currentBudget.Some? && st.currentExpenses.Some? then st.currentExpenses.value else []
  }

  /** The history read at start-up, empty when the key is absent. */
  function LoadHistory(st: Store): seq<BudgetRecord>
  {
    if st.budgetHistory.Some? then st.budgetHistory.value else []
  }

  /** The start-up check: open the setup form when storage holds neither an
      active period nor a non-empty history. */
  predicate SetupOpensAtStart(st: Store)
  {
    var hasActive := st.currentBudget.Some?;
    var hasHistory := st.budgetHistory.Some? && |st.budgetHistory.value| > 0;
    !hasActive && !hasHistory
  }

  /** What the effects write, a fresh start reads back: the period, the
      history, and the expenses while a period is active. */
  lemma {:induction false} LoadAfterPersist(st: Store, budget: Option<BudgetPeriod>, expenses: seq<Expense>, history: seq<BudgetRecord>)
    ensures var st' := Persist(st, budget, expenses, history);
            && LoadBudget(st') == budget
            && LoadHistory(st') == history
            && LoadExpenses(st') == (if budget.Some? then expenses else [])
  {
    PersistDecidesKeys(st, budget, expenses, history);
  }

  /** At start-up the state is read from storage, the effects write it back,
      and only then the start-up check reads storage: the setup form opens
      exactly when no period was active and the history read was empty. */
  lemma {:induction false} StartupOpensSetup(initial: Store)
    ensures var st := Persist(initial, LoadBudget(initial), LoadExpenses(initial), LoadHistory(initial));
            SetupOpensAtStart(st) <==> LoadBudget(initial).None? && LoadHistory(initial) == []
  {
    LoadAfterPersist(initial, LoadBudget(initial), LoadExpenses(initial), LoadHistory(initial));
  }
}
