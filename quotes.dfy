/**
  * The saved-quotes list: pages of quotes fetched four at a time with an
  * optional user filter and search term, merged into the loaded list, plus
  * the local effects of changing a quote's status and deleting a quote.
  */
module Quotes {
  import opened Wrappers
  import opened Types
  import Lists

  const ItemsPerPage: int := 4

  function QuoteId(q: Quote): string {
    q.id
  }

  /** The request parameters: page and limit always, the user filter and the search term only when set. */
  function ParamsFor(pageNum: int, limit: int, selectedUser: string, searchTerm: string): (p: Params)
    ensures p.page == pageNum && p.limit == limit
    ensures p.userId.Some? <==> selectedUser != ""
    ensures p.userId.Some? ==> p.userId.value == selectedUser
    ensures p.search.Some? <==> searchTerm != ""
    ensures p.search.Some? ==> p.search.value == searchTerm
  {
    Params(pageNum, limit,
           if searchTerm != "" then Some(searchTerm) else None,
           if selectedUser != "" then Some(selectedUser) else None)
  }

  /** Every quote with the id gets the new status; the others are kept as they are. */
  function WithStatus(quotes: seq<Quote>, quoteId: string, status: string): (r: seq<Quote>)
    ensures |r| == |quotes|
    ensures forall j :: 0 <= j < |quotes| && quotes[j].id == quoteId ==> r[j] == quotes[j].(status := Some(status))
    ensures forall j :: 0 <= j < |quotes| && quotes[j].id != quoteId ==> r[j] == quotes[j]
  {
    Lists.MapWhereId(quotes, quoteId, QuoteId, (q: Quote) => q.(status := Some(status)))
  }

  /** A status change keeps the list's ids in place and touches no other field of any quote. */
  lemma StatusUpdateKeepsList(quotes: seq<Quote>, quoteId: string, status: string)
    ensures var r := WithStatus(quotes, quoteId, status);
      && (forall j :: 0 <= j < |r| ==> r[j].id == quotes[j].id)
      && (forall j :: 0 <= j < |r| ==> r[j].(status := quotes[j].status) == quotes[j])
      && Lists.IdSet(r, QuoteId) == Lists.IdSet(quotes, QuoteId)
  {
    var r := WithStatus(quotes, quoteId, status);
    assert forall j :: 0 <= j < |r| ==> QuoteId(r[j]) == QuoteId(quotes[j]);
    forall id | id in Lists.IdSet(r, QuoteId) ensures id in Lists.IdSet(quotes, QuoteId) {
      var j :| 0 <= j < |r| && QuoteId(r[j]) == id;
    }
    forall id | id in Lists.IdSet(quotes, QuoteId) ensures id in Lists.IdSet(r, QuoteId) {
      var j :| 0 <= j < |quotes| && QuoteId(quotes[j]) == id;
    }
  }

  datatype DeleteDialog = DeleteDialog(isOpen: bool, quoteId: Option<string>)

  const ClosedDialog: DeleteDialog := DeleteDialog(false, None)

  class QuoteList {
    var quotes: seq<Quote>
    var isLoading: bool
    var hasMore: bool
    var page: int
    var searchTerm: string
    var selectedUser: string
    var deleteDialog: DeleteDialog
    var isDeleting: bool

    constructor ()
      ensures quotes == [] && !isLoading && !hasMore && page == 1
      ensures searchTerm == "" && selectedUser == ""
      ensures deleteDialog == ClosedDialog && !isDeleting
    {
      quotes := [];
      isLoading := false;
      hasMore := false;
      page := 1;
      searchTerm := "";
      selectedUser := "";
      deleteDialog := ClosedDialog;
      isDeleting := false;
    }

    /** The request half of `getQuotes`: there is no guard, a fetch starts even while another runs. */
    method StartGetQuotes(pageNum: int, limit: int) returns (params: Params)
      modifies this`isLoading
      ensures params == ParamsFor(pageNum, limit, selectedUser, searchTerm)
      ensures isLoading
    {
      params := ParamsFor(pageNum, limit, selectedUser, searchTerm);
      isLoading := true;
    }

    /**
      * The response half of `getQuotes` (None for a failed request): on
      * success page 1 replaces the list, a later page is merged in, `hasMore`
      * records whether the page came back full and the page number is
      * recorded. A failure changes nothing but the loading flag.
      */
    method FinishGetQuotes(pageNum: int, limit: int, response: Option<seq<Quote>>)
      modifies this`quotes, this`hasMore, this`page, this`isLoading
      ensures !isLoading
      ensures response.Some? ==>
        && quotes == Lists.MergePage(old(quotes), response.value, pageNum, QuoteId)
        && (hasMore <==> |response.value| == limit)
        && page == pageNum
      ensures response.None? ==> quotes == old(quotes) && hasMore == old(hasMore) && page == old(page)
    {
      if response.Some? {
        var newQuotes := response.value;
        if pageNum == 1 {
          quotes := newQuotes;
        } else {
          var existingIds := Lists.IdSet(quotes, QuoteId);
          quotes := quotes + Lists.Fresh(newQuotes, existingIds, QuoteId);
        }
        hasMore := |newQuotes| == limit;
        page := pageNum;
      }
      isLoading := false;
    }

    /** Requests the next page only when no fetch is running and the last page was full. */
    method LoadMore() returns (request: Option<Params>)
      modifies this`isLoading
      ensures request.Some? <==> !old(isLoading) && hasMore
      ensures request.Some? ==> request.value == ParamsFor(page + 1, ItemsPerPage, selectedUser, searchTerm)
      ensures isLoading == (old(isLoading) || hasMore)
    {
      if !isLoading && hasMore {
        var params := StartGetQuotes(page + 1, ItemsPerPage);
        request := Some(params);
      } else {
        request := None;
      }
    }

    /** The list changes only after the status request succeeds. */
    method HandleStatusUpdate(quoteId: string, status: string, requestOk: bool)
      modifies this`quotes
      ensures requestOk ==> quotes == WithStatus(old(quotes), quoteId, status)
      ensures !requestOk ==> quotes == old(quotes)
    {
      if requestOk {
        quotes := WithStatus(quotes, quoteId, status);
      }
    }

    method HandleDeleteDialog(quoteId: string)
      modifies this`deleteDialog
      ensures deleteDialog == DeleteDialog(true, Some(quoteId))
    {
      deleteDialog := DeleteDialog(true, Some(quoteId));
    }

    /**
      * Confirming with no quote chosen (null or the empty id) does nothing.
      * Otherwise the delete request is sent; on success every quote with
      * that id is dropped, and on both paths the dialog is closed.
      */
    method HandleDeleteConfirm(requestOk: bool) returns (deleted: Option<string>)
      modifies this`quotes, this`isDeleting, this`deleteDialog
      ensures deleted == (if old(deleteDialog).quoteId.Some? && old(deleteDialog).quoteId.value != ""
                          then old(deleteDialog).quoteId else None)
      ensures deleted.None? ==> quotes == old(quotes) && deleteDialog == old(deleteDialog) && isDeleting == old(isDeleting)
      ensures deleted.Some? ==>
        && quotes == (if requestOk then Lists.RemoveId(old(quotes), deleted.value, QuoteId) else old(quotes))
        && deleteDialog == ClosedDialog && !isDeleting
    {
      if deleteDialog.quoteId.None? || deleteDialog.quoteId.value == "" {
        deleted := None;
        return;
      }
      var id := deleteDialog.quoteId.value;
      deleted := Some(id);
      isDeleting := true;
      if requestOk {
        quotes := Lists.RemoveId(quotes, id, QuoteId);
      }
      isDeleting := false;
      deleteDialog := ClosedDialog;
    }
  }
}
