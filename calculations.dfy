/**
  * The service-quote document built from a list of priced calculations:
  * a header, then for each calculation a label and a seven-row table placed
  * by a vertical cursor with a page break rule, then a summary of the total
  * time and amount. The pdf object is modelled by the log of calls made on it.
  */
module Calculations {
  import opened Text
  import opened Types

  /** The two kinds of table: one calculation's details, or the summary of all of them. */
  datatype Table = ServiceTable(service: ServiceCalculation) | SummaryTable(totalTime: real, totalAmount: real)

  /** The texts the document writes: its title, the date line, a calculation's label, the summary heading. */
  datatype Caption = Title | DateLine(today: string) | ServiceLabel(serviceType: ServiceType) | SummaryHeading

  /** The characters of each caption. */
  function TextOf(t: Caption): string {
    match t
    case Title => "Service Quote"
    case DateLine(today) => "Date: " + today
    case ServiceLabel(st) => ReplaceUnderscores(ServiceTypeValue(st))
    case SummaryHeading => "Summary"
  }

  /** A call on the document: text at (x, y), a table starting at y, or a new page. */
  datatype DocCall =
    | PutText(text: Caption, x: real, y: real)
    | PutTable(startY: real, table: Table)
    | NewPage

  const StartCursor: real := 40.0
  const PageBreakAt: real := 250.0
  const TopOfPage: real := 20.0

  /** The seven rows of a calculation's table. `money` stands for `toFixed(2)`, `count` for `toString`. */
  function TableRows(c: ServiceCalculation, money: real -> string, count: real -> string): seq<seq<string>> {
    [ ["Units", count(c.numberOfUnits)],
      ["Total Time", money(c.totalTimeHours) + " hours"],
      ["Calendar Time", money(c.calendarSlotHours) + " hours"],
      ["Subtotal", "$" + money(c.subtotal)],
      ["Discount", "-$" + money(c.discount)],
      ["Tax (13%)", "$" + money(c.tax)],
      ["Total Cost", "$" + money(c.totalCost)] ]
  }

  /** The head and body rows a table is drawn with. */
  function TableHead(t: Table): seq<seq<string>> {
    if t.ServiceTable? then [["Item", "Value"]] else []
  }

  function TableBody(t: Table, money: real -> string, count: real -> string): seq<seq<string>> {
    match t
    case ServiceTable(c) => TableRows(c, money, count)
    case SummaryTable(time, amount) => [["Total Time", money(time) + " hours"], ["Total Amount", "$" + money(amount)]]
  }

  /** Every table has seven item/value rows, in a fixed order of items. */
  lemma TableRowsLayout(c: ServiceCalculation, money: real -> string, count: real -> string)
    ensures var rows := TableRows(c, money, count);
      && |rows| == 7
      && (forall i :: 0 <= i < 7 ==> |rows[i]| == 2)
      && [rows[0][0], rows[1][0], rows[2][0], rows[3][0], rows[4][0], rows[5][0], rows[6][0]]
         == ["Units", "Total Time", "Calendar Time", "Subtotal", "Discount", "Tax (13%)", "Total Cost"]
      && rows[6][1] == "$" + money(c.totalCost) && rows[4][1] == "-$" + money(c.discount)
  {
  }

  /** Whether a page follows calculation i of n, given the finalY its table ended at. */
  predicate BreaksAfter(finalYs: seq<real>, n: nat, i: nat)
    requires i < |finalYs|
  {
    finalYs[i] + 20.0 > PageBreakAt && i < n - 1
  }

  /** The cursor when calculation i starts (or, for i = n, when the summary starts). */
  function CursorBefore(finalYs: seq<real>, n: nat, i: nat): real
    requires i <= n && n <= |finalYs|
  {
    if i == 0 then StartCursor
    else if BreaksAfter(finalYs, n, i - 1) then TopOfPage
    else finalYs[i - 1] + 20.0
  }

  /** The calls for calculation i: its label, its table one line below, and a new page when the rule fires. */
  function Block(calcs: seq<ServiceCalculation>, finalYs: seq<real>, i: nat): seq<DocCall>
    requires |finalYs| == |calcs| && i < |calcs|
  {
    var y := CursorBefore(finalYs, |calcs|, i);
    [PutText(ServiceLabel(calcs[i].serviceType), 20.0, y), PutTable(y + 10.0, ServiceTable(calcs[i]))]
    + (if BreaksAfter(finalYs, |calcs|, i) then [NewPage] else [])
  }

  /** The calls for the first k calculations. */
  function Blocks(calcs: seq<ServiceCalculation>, finalYs: seq<real>, k: nat): seq<DocCall>
    requires |finalYs| == |calcs| && k <= |calcs|
  {
    if k == 0 then [] else Blocks(calcs, finalYs, k - 1) + Block(calcs, finalYs, k - 1)
  }

  /** One more calculation: its block follows the earlier ones and the cursor moves past its table. */
  lemma BlockStep(calcs: seq<ServiceCalculation>, finalYs: seq<real>, k: nat)
    requires |finalYs| == |calcs| && k < |calcs|
    ensures Blocks(calcs, finalYs, k + 1) == Blocks(calcs, finalYs, k) + Block(calcs, finalYs, k)
    ensures CursorBefore(finalYs, |calcs|, k + 1)
            == if finalYs[k] + 20.0 > PageBreakAt && k < |calcs| - 1 then TopOfPage else finalYs[k] + 20.0
    ensures Block(calcs, finalYs, k)
            == [PutText(ServiceLabel(calcs[k].serviceType), 20.0, CursorBefore(finalYs, |calcs|, k)),
                PutTable(CursorBefore(finalYs, |calcs|, k) + 10.0, ServiceTable(calcs[k]))]
               + (if finalYs[k] + 20.0 > PageBreakAt && k < |calcs| - 1 then [NewPage] else [])
  {
  }

  /** `xs.reduce((sum, x) => sum + x, acc)` */
  function FoldSum(xs: seq<real>, acc: real): real {
    if xs == [] then acc else FoldSum(xs[1..], acc + xs[0])
  }

  /** The plain sum, from the right. */
  function Sum(xs: seq<real>): real {
    if xs == [] then 0.0 else xs[0] + Sum(xs[1..])
  }

  lemma {:induction false} FoldSumIsSum(xs: seq<real>, acc: real)
    ensures FoldSum(xs, acc) == acc + Sum(xs)
  {
    if xs != [] {
      FoldSumIsSum(xs[1..], acc + xs[0]);
    }
  }

  lemma {:induction false} SumAppend(a: seq<real>, b: seq<real>)
    ensures Sum(a + b) == Sum(a) + Sum(b)
  {
    if a == [] {
      assert a + b == b;
    } else {
      assert (a + b)[1..] == a[1..] + b;
      SumAppend(a[1..], b);
    }
  }

  function TotalCosts(calcs: seq<ServiceCalculation>): (r: seq<real>)
    ensures |r| == |calcs| && forall i :: 0 <= i < |calcs| ==> r[i] == calcs[i].totalCost
  {
    seq(|calcs|, i requires 0 <= i < |calcs| => calcs[i].totalCost)
  }

  function TotalHours(calcs: seq<ServiceCalculation>): (r: seq<real>)
    ensures |r| == |calcs| && forall i :: 0 <= i < |calcs| ==> r[i] == calcs[i].totalTimeHours
  {
    seq(|calcs|, i requires 0 <= i < |calcs| => calcs[i].totalTimeHours)
  }

  /**
    * The summary figures are the sums of totalCost and totalTimeHours over
    * all calculations, and adding a calculation adds exactly its own.
    */
  lemma SummarySums(calcs: seq<ServiceCalculation>, c: ServiceCalculation)
    ensures FoldSum(TotalCosts(calcs), 0.0) == Sum(TotalCosts(calcs))
    ensures FoldSum(TotalHours(calcs), 0.0) == Sum(TotalHours(calcs))
    ensures FoldSum(TotalCosts(calcs + [c]), 0.0) == FoldSum(TotalCosts(calcs), 0.0) + c.totalCost
    ensures FoldSum(TotalHours(calcs + [c]), 0.0) == FoldSum(TotalHours(calcs), 0.0) + c.totalTimeHours
  {
    FoldSumIsSum(TotalCosts(calcs), 0.0);
    FoldSumIsSum(TotalHours(calcs), 0.0);
    FoldSumIsSum(TotalCosts(calcs + [c]), 0.0);
    FoldSumIsSum(TotalHours(calcs + [c]), 0.0);
    assert TotalCosts(calcs + [c]) == TotalCosts(calcs) + [c.totalCost];
    assert TotalHours(calcs + [c]) == TotalHours(calcs) + [c.totalTimeHours];
    SumAppend(TotalCosts(calcs), [c.totalCost]);
    SumAppend(TotalHours(calcs), [c.totalTimeHours]);
  }

  function Header(today: string): seq<DocCall> {
    [PutText(Title, 105.0, 20.0), PutText(DateLine(today), 20.0, 30.0)]
  }

  function Summary(y: real, totalTime: real, totalAmount: real): seq<DocCall> {
    [PutText(SummaryHeading, 20.0, y), PutTable(y + 10.0, SummaryTable(totalTime, totalAmount))]
  }

  /**
    * Lays out the document. `finalYs[i]` is where the table of calculation i
    * ends, as the table plug-in reports it; `today` is the date text.
    */
  method GeneratePdf(calcs: seq<ServiceCalculation>, finalYs: seq<real>, today: string) returns (log: seq<DocCall>)
    requires |finalYs| == |calcs|
    ensures log == Header(today) + Blocks(calcs, finalYs, |calcs|)
                   + Summary(CursorBefore(finalYs, |calcs|, |calcs|),
                             FoldSum(TotalHours(calcs), 0.0), FoldSum(TotalCosts(calcs), 0.0))
  {
    log := Header(today);
    var yPos := StartCursor;
    for index := 0 to |calcs|
      invariant log == Header(today) + Blocks(calcs, finalYs, index)
      invariant yPos == CursorBefore(finalYs, |calcs|, index)
    {
      ghost var before := log;
      BlockStep(calcs, finalYs, index);
      var c := calcs[index];
      ghost var pair := [PutText(ServiceLabel(c.serviceType), 20.0, yPos), PutTable(yPos + 10.0, ServiceTable(c))];
      log := log + [PutText(ServiceLabel(c.serviceType), 20.0, yPos)];
      log := log + [PutTable(yPos + 10.0, ServiceTable(c))];
      assert log == before + pair;
      yPos := finalYs[index] + 20.0;
      if yPos > PageBreakAt && index < |calcs| - 1 {
        log := log + [NewPage];
        yPos := TopOfPage;
        assert log == before + (pair + [NewPage]);
      } else {
        assert pair == pair + [];
      }

    }
    var totalAmount := FoldSum(TotalCosts(calcs), 0.0);
    var totalTime := FoldSum(TotalHours(calcs), 0.0);
    log := log + Summary(yPos, totalTime, totalAmount);
  }

  /** The number of pages added. */
  function PageCount(log: seq<DocCall>): nat {
    if log == [] then 0 else PageCount(log[..|log| - 1]) + (if log[|log| - 1].NewPage? then 1 else 0)
  }

  lemma {:induction false} PagesAppend(a: seq<DocCall>, b: seq<DocCall>)
    ensures PageCount(a + b) == PageCount(a) + PageCount(b)
  {
    if b == [] {
      assert a + b == a;
    } else {
      assert (a + b)[..|a + b| - 1] == a + b[..|b| - 1];
      PagesAppend(a, b[..|b| - 1]);
    }
  }

  lemma BlocksPages(calcs: seq<ServiceCalculation>, finalYs: seq<real>, k: nat)
    requires |finalYs| == |calcs| && 0 < k <= |calcs|
    ensures PageCount(Blocks(calcs, finalYs, k))
            == PageCount(Blocks(calcs, finalYs, k - 1)) + PageCount(Block(calcs, finalYs, k - 1))
  {
    PagesAppend(Blocks(calcs, finalYs, k - 1), Block(calcs, finalYs, k - 1));
  }

  lemma BlockPages(calcs: seq<ServiceCalculation>, finalYs: seq<real>, i: nat)
    requires |finalYs| == |calcs| && i < |calcs|
    ensures PageCount(Block(calcs, finalYs, i)) == if BreaksAfter(finalYs, |calcs|, i) then 1 else 0
  {
    var block := Block(calcs, finalYs, i);
    var pair := block[..2];
    assert !pair[0].NewPage? && !pair[1].NewPage?;
    assert pair[..1][..0] == [];
    assert PageCount(pair[..1]) == 0;
    assert pair[..|pair| - 1] == pair[..1];
    assert PageCount(pair) == 0;
    if BreaksAfter(finalYs, |calcs|, i) {
      assert block[..|block| - 1] == pair;
    } else {
      assert block == pair;
    }
  }

  /**
    * Pages are added only between calculations: each block adds at most one
    * page and the last one none, so n calculations add at most n - 1 pages.
    */
  lemma {:induction false} PageBreakRule(calcs: seq<ServiceCalculation>, finalYs: seq<real>, k: nat)
    requires |finalYs| == |calcs| && k <= |calcs|
    ensures PageCount(Blocks(calcs, finalYs, k)) <= k
    ensures k == |calcs| && k > 0 ==> PageCount(Blocks(calcs, finalYs, k)) < k
  {
    if k > 0 {
      PageBreakRule(calcs, finalYs, k - 1);
      BlockPages(calcs, finalYs, k - 1);
      BlocksPages(calcs, finalYs, k);
    }
  }

  /** The summary follows the last table directly, 20 below its end (or at 40 when there is none). */
  lemma SummaryCursor(calcs: seq<ServiceCalculation>, finalYs: seq<real>)
    requires |finalYs| == |calcs|
    ensures |calcs| > 0 ==> CursorBefore(finalYs, |calcs|, |calcs|) == finalYs[|calcs| - 1] + 20.0
    ensures |calcs| == 0 ==> CursorBefore(finalYs, 0, 0) == StartCursor
  {
  }
}
