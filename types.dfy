/** The three record shapes of the tracker (types.ts) and the JavaScript
    truthiness rules that the rest of the code applies to their optional parts. */
module Types {

  datatype Option<T> = None | Some(value: T)

  /** One tracking period. `goal` is a mandatory string; the empty string is
      how "no goal" is written, and every reader treats it as absent. */
  datatype BudgetPeriod = BudgetPeriod(month: string, goal: string, startDate: string)

  /** One logged cost. Amounts are whole cents (no floating point); the receipt
      is an optional encoded image. Nothing makes ids unique. */
  datatype Expense = Expense(id: int, description: string, amount: int, receipt: Option<string>)

  /** An expense before it has an id: what the entry form hands to the tracker. */
  datatype ExpenseDraft = ExpenseDraft(description: string, amount: int, receipt: Option<string>)

  /** A closed period: one period snapshot, its expenses in insertion order
      and the total stored at closing time. */
  datatype BudgetRecord = BudgetRecord(id: int, budget: BudgetPeriod, expenses: seq<Expense>, total: int)

  /** JavaScript truthiness of an optional string: present and not "". */
  predicate Truthy(s: Option<string>)
  {
    s.Some? && s.value != ""
  }

  /** `if (budget.goal)`: a goal is shown only when it is non-empty. */
  predicate HasGoal(p: BudgetPeriod)
  {
    p.goal != ""
  }

  /** `if (exp.receipt)`: the only test ever made of a receipt. */
  predicate HasReceipt(e: Expense)
  {
    Truthy(e.receipt)
  }

  /** The expense without its id. */
  function DraftOf(e: Expense): ExpenseDraft
  {
    ExpenseDraft(e.description, e.amount, e.receipt)
  }

  /** `{ ...expense, id }`: a draft completed with a fresh id; exactly the
      inverse of dropping the id again. */
  function WithId(d: ExpenseDraft, id: int): (e: Expense)
    ensures DraftOf(e) == d && e.id == id
    ensures forall e': Expense :: DraftOf(e') == d && e'.id == id ==> e' == e
  {
    Expense(id, d.description, d.amount, d.receipt)
  }
}
