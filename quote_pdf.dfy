/**
  * Export of a saved quote to an A4 PDF: the quote is laid out as a text
  * document, rendered to one tall image, and the image is sliced into pages
  * by drawing it again one page height higher on each new page.
  */
module QuotePdf {
  import opened Wrappers
  import opened Text
  import opened Types

  // ---------------------------------------------------------------------
  // The document text
  // ---------------------------------------------------------------------

  datatype ServiceRow = ServiceRow(serviceType: string, units: string, total: string)

  /** The texts the template fills in, in reading order. */
  datatype QuoteDocument = QuoteDocument(
    quoteId: string,
    dateIssued: string,
    billToName: string,
    billToPhone: string,
    billToEmail: string,
    billToAddress: string,
    fromName: string,
    fromPhone: string,
    fromEmail: string,
    rows: seq<ServiceRow>,
    subtotal: string,
    discount: string,
    tax: string,
    total: string)

  /**
    * The template filled from a quote. `money` stands for `toFixed(2)`,
    * `number` for the default rendering of a number and `localDate` for
    * `new Date(s).toLocaleDateString()`.
    */
  function DocumentOf(q: Quote, money: real -> string, number: real -> string, localDate: string -> string)
    : (d: QuoteDocument)
    ensures d.quoteId == q.invoice && d.dateIssued == localDate(q.createdAt)
    ensures d.billToName == q.clientInfo.firstName + " " + q.clientInfo.lastName
    ensures d.billToEmail == q.clientInfo.email.GetOr("")
    ensures |d.rows| == |q.services|
    ensures forall j :: 0 <= j < |q.services| ==>
      && d.rows[j].serviceType == ReplaceUnderscores(q.services[j].serviceType)
      && d.rows[j].units == number(q.services[j].units)
      && d.rows[j].total == "$" + money(q.services[j].total)
    ensures d.subtotal == "$" + money(q.subtotal) && d.discount == "-$" + money(q.discountFlat)
    ensures d.tax == "$" + money(q.taxValue) && d.total == "$" + money(q.total)
  {
    QuoteDocument(
      q.invoice, localDate(q.createdAt),
      q.clientInfo.firstName + " " + q.clientInfo.lastName,
      q.clientInfo.phoneNumber, q.clientInfo.email.GetOr(""), q.clientInfo.address,
      q.user.name, q.user.phoneNumber, q.user.email,
      seq(|q.services|, j requires 0 <= j < |q.services| =>
        ServiceRow(ReplaceUnderscores(q.services[j].serviceType), number(q.services[j].units),
                   "$" + money(q.services[j].total))),
      "$" + money(q.subtotal), "-$" + money(q.discountFlat),
      "$" + money(q.taxValue), "$" + money(q.total))
  }

  /**
    * Each service appears once, in order, with no underscore left in its
    * type and every other character of the type kept; a quote without an
    * e-mail shows an empty one.
    */
  lemma DocumentRowsFollowServices(q: Quote, money: real -> string, number: real -> string, localDate: string -> string)
    ensures var d := DocumentOf(q, money, number, localDate);
      && (forall j :: 0 <= j < |d.rows| ==>
            && '_' !in d.rows[j].serviceType
            && |d.rows[j].serviceType| == |q.services[j].serviceType|
            && forall k :: 0 <= k < |q.services[j].serviceType| && q.services[j].serviceType[k] != '_' ==>
                 d.rows[j].serviceType[k] == q.services[j].serviceType[k])
      && (q.clientInfo.email.None? ==> d.billToEmail == "")
  {
  }

  // ---------------------------------------------------------------------
  // Page slicing
  // ---------------------------------------------------------------------

  const ImgWidth: real := 210.0
  const PageHeight: real := 297.0

  /** The image height in millimetres when the canvas is scaled to the A4 width. */
  function ImageHeight(canvasHeight: real, canvasWidth: real): (h: real)
    requires canvasWidth > 0.0
    ensures h * canvasWidth == canvasHeight * ImgWidth
    ensures canvasHeight > 0.0 ==> h > 0.0
  {
    canvasHeight * ImgWidth / canvasWidth
  }

  /** A call on the pdf object: an image at (x, y) of the given size, or a new page. */
  datatype PdfCall = AddImage(x: real, y: real, width: real, height: real) | AddPage

  /** A measure that falls by at least one with every page height removed. */
  function Steps(heightLeft: real): nat {
    if heightLeft > 0.0 then heightLeft.Floor as nat + 1 else 0
  }

  /** The calls the slicing loop makes from a state with `heightLeft` still to place at `position`. */
  function Slices(heightLeft: real, position: real, imgHeight: real): seq<PdfCall>
    decreases Steps(heightLeft)
  {
    if heightLeft <= 0.0 then []
    else
      [AddImage(0.0, position, ImgWidth, imgHeight)]
      + (if heightLeft - PageHeight > 0.0
         then [AddPage] + Slices(heightLeft - PageHeight, position - PageHeight, imgHeight)
         else [])
  }

  /** The number of pages an image of height h fills. */
  function Pages(h: real): nat
    decreases Steps(h)
  {
    if h <= 0.0 then 0 else 1 + Pages(h - PageHeight)
  }

  /** The page count is the ceiling of h / 297. */
  lemma {:induction false} PagesIsCeiling(h: real)
    ensures h <= 0.0 ==> Pages(h) == 0
    ensures h > 0.0 ==> Pages(h) >= 1 && PageHeight * (Pages(h) - 1) as real < h <= PageHeight * Pages(h) as real
    decreases Steps(h)
  {
    if h > 0.0 {
      PagesIsCeiling(h - PageHeight);
    }
  }

  /**
    * The calls alternate: the k-th image is drawn 297·k higher than the
    * first, and exactly one new page separates consecutive images.
    */
  lemma {:induction false} SlicesShape(heightLeft: real, position: real, imgHeight: real)
    requires heightLeft > 0.0
    ensures var s := Slices(heightLeft, position, imgHeight);
      && |s| == 2 * Pages(heightLeft) - 1
      && forall i :: 0 <= i < |s| ==>
           s[i] == if i % 2 == 0 then AddImage(0.0, position - PageHeight * (i / 2) as real, ImgWidth, imgHeight)
                   else AddPage
    decreases Steps(heightLeft)
  {
    var s := Slices(heightLeft, position, imgHeight);
    var left := heightLeft - PageHeight;
    if left > 0.0 {
      SlicesShape(left, position - PageHeight, imgHeight);
      var rest := Slices(left, position - PageHeight, imgHeight);
      assert s == [AddImage(0.0, position, ImgWidth, imgHeight), AddPage] + rest;
      forall i | 2 <= i < |s|
        ensures s[i] == if i % 2 == 0 then AddImage(0.0, position - PageHeight * (i / 2) as real, ImgWidth, imgHeight)
                        else AddPage
      {
        assert s[i] == rest[i - 2];
        assert (i - 2) / 2 == i / 2 - 1 && (i - 2) % 2 == i % 2;
      }
    }
  }

  /**
    * The slicing loop, recording the calls it makes on the pdf object.
    * The log is exactly the alternation `Slices` describes.
    */
  method Paginate(imgHeight: real) returns (log: seq<PdfCall>)
    ensures log == Slices(imgHeight, 0.0, imgHeight)
  {
    log := [];
    var heightLeft := imgHeight;
    var position := 0.0;
    while heightLeft > 0.0
      invariant log + Slices(heightLeft, position, imgHeight) == Slices(imgHeight, 0.0, imgHeight)
      decreases Steps(heightLeft)
    {
      log := log + [AddImage(0.0, position, ImgWidth, imgHeight)];
      heightLeft := heightLeft - PageHeight;
      if heightLeft > 0.0 {
        log := log + [AddPage];
        position := position - PageHeight;
      }
    }
  }

  function ImageCount(log: seq<PdfCall>): nat {
    if log == [] then 0 else ImageCount(log[..|log| - 1]) + (if log[|log| - 1].AddImage? then 1 else 0)
  }

  lemma {:induction false} ImageCountOfAlternation(s: seq<PdfCall>)
    requires forall i :: 0 <= i < |s| ==> (s[i].AddImage? <==> i % 2 == 0)
    ensures ImageCount(s) == (|s| + 1) / 2
  {
    if s != [] {
      ImageCountOfAlternation(s[..|s| - 1]);
    }
  }

  /**
    * An image of positive height is placed ⌈h/297⌉ times, at 0, -297,
    * -594, …, with one new page between consecutive images; an image of
    * height 0 or less adds nothing.
    */
  lemma PaginationLayout(h: real)
    ensures h <= 0.0 ==> Slices(h, 0.0, h) == []
    ensures h > 0.0 ==>
      var s := Slices(h, 0.0, h);
      && ImageCount(s) == Pages(h)
      && PageHeight * (Pages(h) - 1) as real < h <= PageHeight * Pages(h) as real
      && |s| == 2 * Pages(h) - 1
      && (forall k :: 0 <= k < Pages(h) ==> s[2 * k] == AddImage(0.0, -PageHeight * k as real, ImgWidth, h))
      && (forall k :: 0 <= k < Pages(h) - 1 ==> s[2 * k + 1] == AddPage)
  {
    if h > 0.0 {
      PagesIsCeiling(h);
      SlicesShape(h, 0.0, h);
      var s := Slices(h, 0.0, h);
      ImageCountOfAlternation(s);
      forall k | 0 <= k < Pages(h) ensures s[2 * k] == AddImage(0.0, -PageHeight * k as real, ImgWidth, h) {
        assert (2 * k) / 2 == k && (2 * k) % 2 == 0;
      }
      forall k | 0 <= k < Pages(h) - 1 ensures s[2 * k + 1] == AddPage {
        assert (2 * k + 1) % 2 == 1;
      }
    }
  }

  // ---------------------------------------------------------------------
  // File name and outcome
  // ---------------------------------------------------------------------

  /** `iso.split("T")[0]`: everything before the first 'T'. */
  function DatePart(iso: string): (r: string)
    ensures 'T' !in r
    ensures |r| <= |iso| && r == iso[..|r|]
    ensures |r| < |iso| ==> iso[|r|] == 'T'
  {
    if iso == [] || iso[0] == 'T' then []
    else [iso[0]] + DatePart(iso[1..])
  }

  /** For an ISO time stamp the date part is its first ten characters. */
  lemma DatePartOfTimestamp(iso: string)
    requires |iso| > 10 && iso[10] == 'T' && 'T' !in iso[..10]
    ensures DatePart(iso) == iso[..10]
  {
  }

  function FileName(quoteId: string, nowIso: string): string {
    "quote-" + quoteId + "-" + DatePart(nowIso) + ".pdf"
  }

  /** The file name starts with the quote id and carries no 'T' of the time stamp after it. */
  lemma FileNameShape(quoteId: string, nowIso: string)
    requires |nowIso| > 10 && nowIso[10] == 'T' && 'T' !in nowIso[..10]
    ensures FileName(quoteId, nowIso) == "quote-" + quoteId + "-" + nowIso[..10] + ".pdf"
    ensures |FileName(quoteId, nowIso)| == |quoteId| + 21
  {
    DatePartOfTimestamp(nowIso);
  }

  const FailureNotice: string := "Failed to generate PDF"

  datatype Export = Saved(fileName: string, calls: seq<PdfCall>) | Failed(notice: string)

  /**
    * The whole export, with the rendered canvas as input (None when the
    * rendering fails). On success the pages are sliced and the file saved,
    * and only then is the temporary container removed; any failure ends in
    * the one notice.
    */
  method GenerateQuotePdf(q: Quote, canvas: Option<(real, real)>, nowIso: string)
    returns (result: Export, containerRemoved: bool)
    requires canvas.Some? ==> canvas.value.1 > 0.0
    ensures canvas.None? ==> result == Failed(FailureNotice) && !containerRemoved
    ensures canvas.Some? ==>
      && result == Saved(FileName(q.id, nowIso),
                         Slices(ImageHeight(canvas.value.0, canvas.value.1), 0.0,
                                ImageHeight(canvas.value.0, canvas.value.1)))
      && containerRemoved
  {
    if canvas.None? {
      return Failed(FailureNotice), false;
    }
    var imgHeight := ImageHeight(canvas.value.0, canvas.value.1);
    var calls := Paginate(imgHeight);
    containerRemoved := true;
    result := Saved(FileName(q.id, nowIso), calls);
  }
}
