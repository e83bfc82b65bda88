/** Expense entry (components/ExpenseTracker.tsx): the add-expense form with
    its acceptance rule and normalisation, receipt capture, and the tracker
    screen's gating of the add button and form. */
module ExpenseEntry {
  import opened Types
  import opened Text

  /** What submitting the form does: hand a draft to the add handler, or
      show the "fill in amount and description" alert and hand nothing. */
  datatype SubmitOutcome = Added(draft: ExpenseDraft) | MissingFields

  /** `receipt || undefined`: an empty capture counts as no receipt. */
  function NormalizeReceipt(captured: Option<string>): (receipt: Option<string>)
    ensures receipt.Some? <==> Truthy(captured)
    ensures receipt.Some? ==> receipt == captured
  {
    if Truthy(captured) then captured else None
  }

  /** The add-expense form's state cells. */
  class AddExpenseForm {
    var amount: string
    var description: string
    var receipt: Option<string>
    var showCamera: bool

    constructor ()
      ensures amount == "" && description == "" && receipt.None? && !showCamera
    {
      amount, description, receipt, showCamera := "", "", None, false;
    }

    /** Typing in the amount field. */
    method EditAmount(text: string)
      modifies this
      ensures amount == text
      ensures description == old(description) && receipt == old(receipt) && showCamera == old(showCamera)
    {
      amount := text;
    }

    /** Typing in the description field. */
    method EditDescription(text: string)
      modifies this
      ensures description == text
      ensures amount == old(amount) && receipt == old(receipt) && showCamera == old(showCamera)
    {
      description := text;
    }

    /** The photo button: the camera view replaces the form. */
    method OpenCamera()
      modifies this
      ensures showCamera
      ensures amount == old(amount) && description == old(description) && receipt == old(receipt)
    {
      showCamera := true;
    }

    /** Closing the camera without a photo. */
    method CloseCamera()
      modifies this
      ensures !showCamera
      ensures amount == old(amount) && description == old(description) && receipt == old(receipt)
    {
      showCamera := false;
    }

    /** `handleCapture`: the captured image becomes the receipt and the
      camera view closes; the typed fields are kept. */
    method Capture(imageDataUrl: string)
      modifies this
      ensures receipt == Some(imageDataUrl) && !showCamera
      ensures amount == old(amount) && description == old(description)
    {
      receipt := Some(imageDataUrl);
      showCamera := false;
    }

    /** `handleSubmit`. The form is on screen only while the camera is not.
      `parsedAmount` is what `parseFloat` makes of the amount text. The
      submission is accepted exactly when the amount text is non-empty and
      the description is not all whitespace; then the draft carries the
      trimmed description, the parsed amount whatever its sign, and the
      receipt only when one was captured. The form's fields do not change. */
    method Submit(parsedAmount: int) returns (outcome: SubmitOutcome)
      requires !showCamera
      ensures outcome.Added? <==> amount != "" && Trim(description) != ""
      ensures outcome.Added? ==> outcome.draft.description == Trim(description)
      ensures outcome.Added? ==> outcome.draft.amount == parsedAmount
      ensures outcome.Added? ==> outcome.draft.receipt == NormalizeReceipt(receipt)
      ensures outcome.Added? ==>
                var d := outcome.draft.description;
                d != [] && !IsJsWhitespace(d[0]) && !IsJsWhitespace(d[|d| - 1])
      ensures outcome.Added? && outcome.draft.receipt.Some? ==> outcome.draft.receipt.value != ""
    {
      var trimmed := Trim(description);
      if amount != "" && trimmed != "" {
        outcome := Added(ExpenseDraft(trimmed, parsedAmount, NormalizeReceipt(receipt)));
      } else {
        outcome := MissingFields;
      }
    }
  }

  /** The '+' button is drawn whenever the screen is not read-only. */
  predicate AddButtonShown(readOnly: bool)
  {
    !readOnly
  }

  /** The form is drawn while adding, on a screen that is not read-only and
      was given an add handler. */
  predicate AddFormShown(isAdding: bool, readOnly: bool, hasAddHandler: bool)
  {
    isAdding && !readOnly && hasAddHandler
  }

  /** The tracker screen's own state: whether the add form is open. The
      screen's read-only flag and whether it was given an add handler are
      fixed by whoever draws it. */
  class TrackerScreen {
    const readOnly: bool
    const hasAddHandler: bool
    var isAdding: bool

    constructor (readOnly: bool, hasAddHandler: bool)
      ensures this.readOnly == readOnly && this.hasAddHandler == hasAddHandler && !isAdding
    {
      this.readOnly, this.hasAddHandler, isAdding := readOnly, hasAddHandler, false;
    }

    predicate FormShown()
      reads this
    {
      AddFormShown(isAdding, readOnly, hasAddHandler)
    }

    /** Pressing '+', which exists only on a screen that is not read-only. */
    method PressAdd()
      requires AddButtonShown(readOnly)
      modifies this
      ensures isAdding && (FormShown() <==> hasAddHandler)
    {
      isAdding := true;
    }

    /** Cancelling the form, or finishing an accepted submission after the
      draft was handed on: the form closes. */
    method CloseForm()
      modifies this
      ensures !isAdding && !FormShown()
    {
      isAdding := false;
    }
  }

  /** A read-only screen can never show the add form, whatever its state. */
  lemma ReadOnlyNeverAdds(isAdding: bool, hasAddHandler: bool)
    ensures !AddButtonShown(true) && !AddFormShown(isAdding, true, hasAddHandler)
  {
  }
}
