/** The report rules inside `generatePdf` and `downloadPdf` (App.tsx:20-138):
    what the summary report draws and where, the page-per-expense rule of
    the detailed report, the file names, and the export fallback. Drawing
    itself belongs to an external library; a report here is the list of what
    it is asked to draw. */
module Report {
  import opened Types
  import opened Totals
  import opened Text

  datatype ReportKind = Summary | Detailed

  /** A text the summary report places on a page. Currency and date
      formatting are not modelled: amounts stay in cents, the date as stored. */
  datatype SummaryText =
    | Title
    | MonthLine(month: string)
    | GoalLine(goal: string)
    | StartDateLine(startDate: string)
    | TotalLine(total: int)
    | ListHeading
    | ExpenseLine(number: nat, description: string, amount: int)
    | NoExpensesLine

  /** A text, the page it lands on (0 is the first) and its position. */
  datatype Placed = Placed(text: SummaryText, page: nat, x: int, y: int)

  /** What the receipt slot of a detailed page holds: the image, the
      load-error line, or the "no photo" line. */
  datatype PhotoSlot = Image(data: string) | ImageError | NoPhoto

  datatype DetailedPage = DetailedPage(number: nat, description: string, amount: int, photo: PhotoSlot)

  datatype Document =
    | SummaryDocument(items: seq<Placed>, pageCount: nat)
    | DetailedDocument(period: string, pages: seq<DetailedPage>)

  /** The steps `downloadPdf` takes. */
  datatype ExportStep = Save | OpenInNewWindow | ErrorAlert

  /** What one press of a report button ends in. */
  datatype PdfOutcome =
    | GenerationFailed                   // the library threw; an error alert is shown
    | NothingToReport                    // detailed report of an empty period; an alert, no document
    | Exported(document: Document, fileName: string, steps: seq<ExportStep>)

  /** The page of the k-th expense line (0-based) of the summary: 26 lines
      fit on the first page, 36 on each later one. */
  function LinePage(k: nat): nat
  {
    if k < 26 then 0 else 1 + (k - 26) / 36
  }

  /** The vertical position of the k-th expense line: 95 + 7k on the first
      page, 20 + 7j for the j-th line of a later page; always inside the
      printable band. */
  function LineY(k: nat): (y: int)
    ensures 20 <= y <= 270
  {
    if k < 26 then 95 + 7 * k else 20 + 7 * ((k - 26) % 36)
  }

  /** One run of the `forEach` body from the closed form: the cursor left
      after line k - 1 either fits line k on the same page, 7 lower, or is
      past 270 and line k opens a new page at the top. */
  lemma PlacementStep(k: nat)
    requires k > 0
    ensures LineY(k - 1) + 7 > 270 ==> LinePage(k) == LinePage(k - 1) + 1 && LineY(k) == 20
    ensures LineY(k - 1) + 7 <= 270 ==> LinePage(k) == LinePage(k - 1) && LineY(k) == LineY(k - 1) + 7
  {
    if k > 26 {
      var j := k - 27;
      var q, r := j / 36, j % 36;
      assert j == 36 * q + r && 0 <= r < 36;
      if r == 35 {
        assert k - 26 == 36 * (q + 1);
      } else {
        assert k - 26 == 36 * q + (r + 1);
      }
    }
  }

  /** Pages fill in order: the first page holds lines 0..25 and page p >= 1
      holds lines 26 + 36(p - 1) up to 26 + 36p - 1; within a page each line
      is 7 below the one before. */
  lemma PageCapacity(k: nat)
    ensures LinePage(k) == 0 <==> k < 26
    ensures LinePage(k) >= 1 ==> 26 + 36 * (LinePage(k) - 1) <= k < 26 + 36 * LinePage(k)
    ensures LinePage(k) <= LinePage(k + 1) <= LinePage(k) + 1
    ensures LinePage(k + 1) == LinePage(k) ==> LineY(k + 1) == LineY(k) + 7
  {
    PlacementStep(k + 1);
    if k >= 26 {
      var q, r := (k - 26) / 36, (k - 26) % 36;
      assert k - 26 == 36 * q + r && 0 <= r < 36;
    }
  }

  /** The numbered line of the k-th expense: "k+1. description: amount". */
  function LineAt(es: seq<Expense>, k: nat): Placed
    requires k < |es|
  {
    Placed(ExpenseLine(k + 1, es[k].description, es[k].amount), LinePage(k), 20, LineY(k))
  }

  /** The expense lines of the summary, one per expense, in list order. */
  function ExpenseLines(es: seq<Expense>): (lines: seq<Placed>)
    ensures |lines| == |es|
  {
    seq(|es|, k requires 0 <= k < |es| => LineAt(es, k))
  }

  /** Every expense line carries its 1-based position, the expense's own
      description and amount, sits at x = 20 inside the printable band, and
      lands on a page no later than the last line's. The first line is at 95
      on the first page; each later one is 7 below the one before on the
      same page, or, when that would pass 270, at 20 on the next page. */
  lemma ExpenseLinesWellPlaced(es: seq<Expense>, k: nat)
    requires k < |es|
    ensures var line := ExpenseLines(es)[k];
            && line.text == ExpenseLine(k + 1, es[k].description, es[k].amount)
            && line.x == 20 && 20 <= line.y <= 270
            && line.page <= LinePage(|es| - 1)
    ensures k == 0 ==> ExpenseLines(es)[k].page == 0 && ExpenseLines(es)[k].y == 95
    ensures k > 0 ==>
              var line, previous := ExpenseLines(es)[k], ExpenseLines(es)[k - 1];
              if previous.y + 7 > 270 then line.page == previous.page + 1 && line.y == 20
              else line.page == previous.page && line.y == previous.y + 7
  {
    if k > 0 {
      PlacementStep(k);
    }
    var i := k;
    while i < |es| - 1
      invariant k <= i <= |es| - 1
      invariant LinePage(k) <= LinePage(i)
    {
      PageCapacity(i);
      i := i + 1;
    }
  }

  /** The fixed part of the summary's first page: title, month, the goal only
      when there is one, start date and total. */
  function SummaryHeader(budget: BudgetPeriod, total: int): seq<Placed>
  {
    [Placed(Title, 0, 105, 20), Placed(MonthLine(budget.month), 0, 15, 40)]
    + (if HasGoal(budget) then [Placed(GoalLine(budget.goal), 0, 15, 48)] else [])
    + [Placed(StartDateLine(budget.startDate), 0, 15, 56), Placed(TotalLine(total), 0, 15, 70)]
  }

  /** `doc` is the summary report of the period: the header with the
      period's total, then either the one "no expenses" line on a single page
      or the list heading and the expense lines, with as many pages as the
      last line needs. */
  predicate IsSummaryOf(doc: Document, budget: BudgetPeriod, expenses: seq<Expense>)
  {
    && doc.SummaryDocument?
    && (expenses == [] ==>
          doc.items == SummaryHeader(budget, 0) + [Placed(NoExpensesLine, 0, 15, 85)] && doc.pageCount == 1)
    && (expenses != [] ==>
          && doc.items == SummaryHeader(budget, SumAmounts(expenses)) + [Placed(ListHeading, 0, 15, 85)] + ExpenseLines(expenses)
          && doc.pageCount == LinePage(|expenses| - 1) + 1)
  }

  /** The summary report. The header, then either the one "no expenses" line
      or the list heading and one numbered line per expense, placed by the
      cursor loop: start at 95, move 7 down per line, and when the cursor
      has passed 270 open a new page and restart at 20. */
  method LayoutSummary(budget: BudgetPeriod, expenses: seq<Expense>) returns (doc: Document)
    ensures IsSummaryOf(doc, budget, expenses)
  {
    var header := SummaryHeader(budget, SumAmounts(expenses));
    if expenses == [] {
      doc := SummaryDocument(header + [Placed(NoExpensesLine, 0, 15, 85)], 1);
      return;
    }
    var lines: seq<Placed> := [];
    var yPos := 95;
    var page := 0;
    var i := 0;
    while i < |expenses|
      invariant 0 <= i <= |expenses|
      invariant |lines| == i
      invariant forall k :: 0 <= k < i ==> lines[k] == LineAt(expenses, k)
      invariant i == 0 ==> page == 0 && yPos == 95
      invariant i > 0 ==> page == LinePage(i - 1) && yPos == LineY(i - 1) + 7
    {
      if i > 0 {
        PlacementStep(i);
      }
      if yPos > 270 {
        page := page + 1;
        yPos := 20;
      }
      lines := lines + [Placed(ExpenseLine(i + 1, expenses[i].description, expenses[i].amount), page, 20, yPos)];
      yPos := yPos + 7;
      i := i + 1;
    }
    assert lines == ExpenseLines(expenses);
    doc := SummaryDocument(header + [Placed(ListHeading, 0, 15, 85)] + lines, page + 1);
  }

  /** The detailed page of the k-th expense. The receipt test is truthiness;
      `imageLoads` says whether the library accepts an image (the error line
      replaces it otherwise). */
  function PageFor(e: Expense, k: nat, imageLoads: string -> bool): DetailedPage
  {
    var photo :=
      if HasReceipt(e) then (if imageLoads(e.receipt.value) then Image(e.receipt.value) else ImageError)
      else NoPhoto;
    DetailedPage(k + 1, e.description, e.amount, photo)
  }

  /** `doc` is the detailed report of the period: titled with the month, one
      page per expense, in list order, each the page of that expense. */
  predicate IsDetailedOf(doc: Document, budget: BudgetPeriod, expenses: seq<Expense>, imageLoads: string -> bool)
  {
    && doc.DetailedDocument?
    && doc.period == budget.month
    && |doc.pages| == |expenses|
    && forall k :: 0 <= k < |expenses| ==> doc.pages[k] == PageFor(expenses[k], k, imageLoads)
  }

  /** The detailed report: none for an empty period, otherwise exactly one
      page per expense, in list order, each with its own photo slot. */
  method LayoutDetailed(budget: BudgetPeriod, expenses: seq<Expense>, imageLoads: string -> bool)
    returns (doc: Option<Document>)
    ensures doc.None? <==> expenses == []
    ensures doc.Some? ==> IsDetailedOf(doc.value, budget, expenses, imageLoads)
  {
    if |expenses| == 0 {
      return None;
    }
    var pages: seq<DetailedPage> := [];
    for i := 0 to |expenses|
      invariant |pages| == i
      invariant forall k :: 0 <= k < i ==> pages[k] == PageFor(expenses[k], k, imageLoads)
    {
      pages := pages + [PageFor(expenses[i], i, imageLoads)];
    }
    doc := Some(DetailedDocument(budget.month, pages));
  }

  /** Photo slots follow the receipt: a truthy receipt gives the image or the
      error line, an absent or empty one the "no photo" line. */
  lemma PhotoSlotFollowsReceipt(e: Expense, k: nat, imageLoads: string -> bool)
    ensures PageFor(e, k, imageLoads).photo.NoPhoto? <==> !HasReceipt(e)
    ensures PageFor(e, k, imageLoads).photo.Image? ==> PageFor(e, k, imageLoads).photo.data == e.receipt.value
  {
  }

  /** The file name's prefix, by report kind; neither holds a '/'. */
  function FilePrefix(kind: ReportKind): (prefix: string)
    ensures '/' !in prefix
  {
    match kind
    case Summary => "resumo_"
    case Detailed => "relatorio_detalhado_"
  }

  /** The file name: the kind's prefix, the month with every '/' turned into
      '-', then ".pdf"; it never holds a '/'. */
  function FileName(kind: ReportKind, month: string): (name: string)
    ensures |name| == |FilePrefix(kind)| + |month| + 4
    ensures name[..|FilePrefix(kind)|] == FilePrefix(kind) && name[|name| - 4..] == ".pdf"
    ensures forall i :: 0 <= i < |month| ==>
              name[|FilePrefix(kind)| + i] == (if month[i] == '/' then '-' else month[i])
    ensures '/' !in name
  {
    var p, m, ext := FilePrefix(kind), ReplaceSlashes(month), ".pdf";
    assert '/' !in ext;
    FileNameParts(p, m, ext);
    ReplaceSlashesRemovesAll(month);
    p + m + ext
  }

  /** Where the three parts of a file name sit in it. */
  lemma FileNameParts(p: string, m: string, ext: string)
    ensures var name := p + m + ext;
            && |name| == |p| + |m| + |ext|
            && name[..|p|] == p && name[|p| + |m|..] == ext
            && (forall i :: 0 <= i < |m| ==> name[|p| + i] == m[i])
            && ('/' in name <==> '/' in p || '/' in m || '/' in ext)
  {
    var name := p + m + ext;
    assert name == p + (m + ext);
    assert (m + ext)[|m|..] == ext;
  }

  /** `downloadPdf`: save; only if saving throws, open in a new window; only
      if that throws too, show the error alert. */
  function Download(saveOk: bool, openOk: bool): (steps: seq<ExportStep>)
    ensures 1 <= |steps| <= 3 && steps[0] == Save
    ensures |steps| > 1 ==> steps[1] == OpenInNewWindow
    ensures ErrorAlert in steps ==> steps == [Save, OpenInNewWindow, ErrorAlert]
    ensures OpenInNewWindow in steps <==> !saveOk
    ensures ErrorAlert in steps <==> !saveOk && !openOk
    ensures forall i, j :: 0 <= i < j < |steps| ==> steps[i] != steps[j]
  {
    if saveOk then [Save]
    else if openOk then [Save, OpenInNewWindow]
    else [Save, OpenInNewWindow, ErrorAlert]
  }

  /** The library as seen by one generation: whether it is loaded, whether it
      takes each image, and whether saving and opening succeed. */
  datatype Library = Library(loaded: bool, imageLoads: string -> bool, saveOk: bool, openOk: bool)

  /** The body of `generatePdf` between setting and clearing the busy flag. */
  method Generate(kind: ReportKind, budget: BudgetPeriod, expenses: seq<Expense>, lib: Library)
    returns (outcome: PdfOutcome)
    ensures outcome.GenerationFailed? <==> !lib.loaded
    ensures outcome.NothingToReport? <==> lib.loaded && kind == Detailed && expenses == []
    ensures outcome.Exported? ==> outcome.fileName == FileName(kind, budget.month)
    ensures outcome.Exported? ==> outcome.steps == Download(lib.saveOk, lib.openOk)
    ensures outcome.Exported? && kind == Summary ==> IsSummaryOf(outcome.document, budget, expenses)
    ensures outcome.Exported? && kind == Detailed ==> IsDetailedOf(outcome.document, budget, expenses, lib.imageLoads)
  {
    if !lib.loaded {
      return GenerationFailed;
    }
    match kind
    case Summary =>
      var doc := LayoutSummary(budget, expenses);
      outcome := Exported(doc, FileName(Summary, budget.month), Download(lib.saveOk, lib.openOk));
    case Detailed =>
      var doc := LayoutDetailed(budget, expenses, lib.imageLoads);
      if doc.None? {
        return NothingToReport;
      }
      outcome := Exported(doc.value, FileName(Detailed, budget.month), Download(lib.saveOk, lib.openOk));
  }
}
