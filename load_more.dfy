/**
  * The "load more" footer under a paged list: a spinner while a page is
  * loading, otherwise a button when more pages remain, otherwise one of two
  * end-of-list messages depending on whether anything was loaded.
  */
module LoadMore {

  datatype Footer = Spinner | LoadMoreButton | NoMoreQuotes | NoQuotesFound

  /** The text the footer shows (the spinner shows it beside its icon). */
  function FooterText(f: Footer): string {
    match f
    case Spinner => "Loading..."
    case LoadMoreButton => "Load More"
    case NoMoreQuotes => "No more quotes to load"
    case NoQuotesFound => "No quotes found"
  }

  /**
    * The footer for the given state. Loading wins over everything; then a
    * remaining page; then whether any item is shown.
    */
  function FooterFor(isLoading: bool, hasMore: bool, itemsCount: int): (f: Footer)
    ensures f == Spinner <==> isLoading
    ensures f == LoadMoreButton <==> !isLoading && hasMore
    ensures f == NoMoreQuotes <==> !isLoading && !hasMore && itemsCount > 0
    ensures f == NoQuotesFound <==> !isLoading && !hasMore && itemsCount <= 0
  {
    if isLoading then Spinner
    else if hasMore then LoadMoreButton
    else if itemsCount > 0 then NoMoreQuotes
    else NoQuotesFound
  }

  /**
    * The button, the only footer that can request a page, appears exactly
    * when a request would be accepted by the list's guard (not loading and
    * more remaining), and the four footers show four different texts.
    */
  lemma ButtonMatchesLoadGuard(isLoading: bool, hasMore: bool, itemsCount: int)
    ensures FooterFor(isLoading, hasMore, itemsCount) == LoadMoreButton <==> !isLoading && hasMore
    ensures forall f: Footer, g: Footer :: FooterText(f) == FooterText(g) ==> f == g
  {
    forall f: Footer, g: Footer | FooterText(f) == FooterText(g) ensures f == g {
      assert FooterText(f)[0] == FooterText(g)[0];
      if f.NoMoreQuotes? || g.NoMoreQuotes? {
        assert FooterText(f)[3] == FooterText(g)[3];
      }
    }
  }
}
