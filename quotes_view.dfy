/**
  * The read-only invoice page for one quote: it loads the quote by the id
  * in the route, falls back to the quote cached by the list when the server
  * returns nothing, and prices each service from a fixed table.
  */
module QuotesView {
  import opened Wrappers
  import opened Types

  /** `prices[serviceType] || 0` over the two-entry price table. */
  function ServicePrice(serviceType: string): (p: real)
    ensures serviceType == "EXTERIOR_WINDOW_CLEANING" ==> p == 35.99
    ensures serviceType == "EXTERIOR_GUTTER_CLEANING" ==> p == 45.99
    ensures serviceType != "EXTERIOR_WINDOW_CLEANING" && serviceType != "EXTERIOR_GUTTER_CLEANING" ==> p == 0.0
  {
    if serviceType == "EXTERIOR_WINDOW_CLEANING" then 35.99
    else if serviceType == "EXTERIOR_GUTTER_CLEANING" then 45.99
    else 0.0
  }

  /** The shown row total: price times units. */
  function RowTotal(s: QuoteService): real {
    ServicePrice(s.serviceType) * s.units
  }

  /** Of the nine service types exactly two have a price; every other row totals 0 whatever its units. */
  lemma OnlyTwoServicesPriced(t: ServiceType, s: QuoteService)
    ensures ServicePrice(ServiceTypeValue(t)) > 0.0 <==> t == EXTERIOR_WINDOW_CLEANING || t == EXTERIOR_GUTTER_CLEANING
    ensures ServicePrice(s.serviceType) == 0.0 ==> RowTotal(s) == 0.0
    ensures RowTotal(s.(units := 2.0 * s.units)) == 2.0 * RowTotal(s)
  {
    var v := ServiceTypeValue(t);
    match t
    case EXTERIOR_WINDOW_CLEANING =>
    case EXTERIOR_GUTTER_CLEANING =>
    case INTERIOR_WINDOW_CLEANING => assert v[0] == 'I';
    case INTERIOR_GUTTER_CLEANING => assert v[0] == 'I';
    case WOOD_POWERWASHING => assert v[0] == 'W';
    case CONCRETE_POWERWASHING => assert v[0] == 'C';
    case SIDING_POWERWASHING => assert v[0] == 'S';
    case ROOF_MOSS_REMOVAL => assert v[0] == 'R';
    case HOUSE_SOFTWASHING => assert v[0] == 'H';
  }

  /** `id.substring(0, 8) + '...'` */
  function ShortId(id: string): (r: string)
    ensures |id| >= 8 ==> |r| == 11 && r[..8] == id[..8]
    ensures |id| < 8 ==> r == id + "..."
    ensures r[|r| - 3..] == "..."
  {
    (if |id| >= 8 then id[..8] else id) + "..."
  }

  /** What `getQuote` answers: the response body (whose `data` list may be empty), or an error message. */
  datatype QuoteBody = QuoteBody(data: seq<Quote>)
  datatype Response = Received(body: QuoteBody) | Failed(message: string)

  /** What the page renders: the response body itself, or the quote cached by the list. */
  datatype Invoice = Body(body: QuoteBody) | Cached(quote: Quote)

  /** The page's four outcomes. */
  datatype Screen = Loading | ErrorText(text: string) | Shown(invoice: Invoice)

  const MissingIdMessage: string := "Quote ID is required"

  class InvoicePage {
    var invoiceData: Option<Invoice>
    var isLoading: bool
    var error: Option<string>

    constructor ()
      ensures invoiceData == None && isLoading && error == None
    {
      invoiceData := None;
      isLoading := true;
      error := None;
    }

    /**
      * The spinner while loading, then the error or 'Invoice not found', else
      * the invoice. An empty error message is falsy, so it does not hide an
      * invoice that is present.
      */
    function Screen(): (s: Screen)
      reads this
      ensures isLoading <==> s == Loading
      ensures s.Shown? <==> !isLoading && (error.None? || error.value == "") && invoiceData.Some?
      ensures s.Shown? ==> s.invoice == invoiceData.value
      ensures s.ErrorText? && error.Some? && error.value != "" ==> s.text == error.value
      ensures s.ErrorText? && (error.None? || error.value == "") ==> s.text == "Invoice not found"
    {
      if isLoading then Loading
      else if error.Some? && error.value != "" then ErrorText(error.value)
      else if invoiceData.None? then ErrorText("Invoice not found")
      else Shown(invoiceData.value)
    }

    /**
      * Without a route id the fetch fails with 'Quote ID is required' and
      * nothing is requested. Otherwise the quote is requested: a failure
      * records its message, an empty `data` list shows the cached quote (or
      * nothing), and any other body is shown. Loading ends on every path.
      */
    method FetchQuote(id: Option<string>, response: Response, cached: Option<Quote>)
      returns (requested: Option<string>)
      modifies this
      ensures !isLoading
      ensures id.None? || id.value == "" ==>
        requested == None && error == Some(MissingIdMessage) && invoiceData == old(invoiceData)
      ensures id.Some? && id.value != "" ==> requested == id
      ensures id.Some? && id.value != "" && response.Failed? ==>
        error == Some(response.message) && invoiceData == old(invoiceData)
      ensures id.Some? && id.value != "" && response.Received? ==>
        && error == None
        && invoiceData == (if |response.body.data| == 0 then
                             (if cached.Some? then Some(Cached(cached.value)) else None)
                           else Some(Body(response.body)))
    {
      isLoading := true;
      error := None;
      if id.None? || id.value == "" {
        error := Some(MissingIdMessage);
        requested := None;
      } else {
        requested := id;
        match response
        case Failed(message) =>
          error := Some(message);
        case Received(body) =>
          if |body.data| == 0 {
            invoiceData := if cached.Some? then Some(Cached(cached.value)) else None;
          } else {
            invoiceData := Some(Body(body));
          }
      }
      isLoading := false;
    }
  }

  /** A missing route id ends on the error text, whatever the server or the cache would have given. */
  lemma MissingIdShowsError(p: InvoicePage)
    requires !p.isLoading && p.error == Some(MissingIdMessage)
    ensures p.Screen() == ErrorText("Quote ID is required")
  {
  }

  /**
    * An empty failure message is falsy: a quote loaded earlier stays on
    * screen, while with no quote the page says 'Invoice not found'.
    */
  lemma EmptyErrorKeepsInvoice(p: InvoicePage)
    requires !p.isLoading && p.error == Some("")
    ensures p.invoiceData.Some? ==> p.Screen() == Shown(p.invoiceData.value)
    ensures p.invoiceData.None? ==> p.Screen() == ErrorText("Invoice not found")
  {
  }
}
