/**
  * The quote-settings list: pages of settings records fetched four at a
  * time, guarded against overlapping fetches, and reloaded from page 1 after
  * a record is created or updated through the settings dialog.
  */
module QuoteSettings {
  import opened Wrappers
  import opened Types
  import Lists

  const ItemsPerPage: int := 4

  function RecordId(r: SettingsRecord): string {
    r.id
  }

  class SettingsList {
    var quotes: seq<SettingsRecord>
    var isLoading: bool
    var hasMore: bool
    var page: int
    var editingQuote: Option<SettingsRecord>
    var isSettingsDialogOpen: bool

    constructor ()
      ensures quotes == [] && !isLoading && !hasMore && page == 1
      ensures editingQuote == None && !isSettingsDialogOpen
    {
      quotes := [];
      isLoading := false;
      hasMore := false;
      page := 1;
      editingQuote := None;
      isSettingsDialogOpen := false;
    }

    /**
      * The request half of `getQuotes`: while a fetch is running it returns
      * at once and changes nothing; otherwise it raises the loading flag
      * and sends page and limit.
      */
    method StartGetQuotes(pageNum: int, limit: int) returns (params: Option<Params>)
      modifies this`isLoading
      ensures params.Some? <==> !old(isLoading)
      ensures params.Some? ==> params.value == Params(pageNum, limit, None, None)
      ensures isLoading
    {
      if isLoading {
        params := None;
        return;
      }
      params := Some(Params(pageNum, limit, None, None));
      isLoading := true;
    }

    /**
      * The response half of a started fetch (None for a failure): page 1
      * replaces the list, a later page adds the records whose id is not
      * loaded; `hasMore` and the page number change only on success, and
      * the loading flag is cleared either way.
      */
    method FinishGetQuotes(pageNum: int, limit: int, response: Option<seq<SettingsRecord>>)
      requires isLoading
      modifies this`quotes, this`hasMore, this`page, this`isLoading
      ensures !isLoading
      ensures response.Some? ==>
        && quotes == Lists.MergePage(old(quotes), response.value, pageNum, RecordId)
        && (hasMore <==> |response.value| == limit)
        && page == pageNum
      ensures response.None? ==> quotes == old(quotes) && hasMore == old(hasMore) && page == old(page)
    {
      if response.Some? {
        var newQuotes := response.value;
        if pageNum == 1 {
          quotes := newQuotes;
        } else {
          quotes := quotes + Lists.Fresh(newQuotes, Lists.IdSet(quotes, RecordId), RecordId);
        }
        hasMore := |newQuotes| == limit;
        page := pageNum;
      }
      isLoading := false;
    }

    /** Asks for the next page only when not loading and the last page was full. */
    method LoadMore() returns (params: Option<Params>)
      modifies this`isLoading
      ensures params.Some? <==> !old(isLoading) && hasMore
      ensures params.Some? ==> params.value == Params(page + 1, ItemsPerPage, None, None)
      ensures isLoading == (old(isLoading) || hasMore)
    {
      if !isLoading && hasMore {
        params := StartGetQuotes(page + 1, ItemsPerPage);
      } else {
        params := None;
      }
    }

    method HandleEditClick(record: SettingsRecord)
      modifies this`editingQuote, this`isSettingsDialogOpen
      ensures editingQuote == Some(record) && isSettingsDialogOpen
    {
      editingQuote := Some(record);
      isSettingsDialogOpen := true;
    }

    method HandleDialogClose()
      modifies this`editingQuote, this`isSettingsDialogOpen
      ensures editingQuote == None && !isSettingsDialogOpen
    {
      isSettingsDialogOpen := false;
      editingQuote := None;
    }

    /**
      * A successful create asks for page 1 again (unless a fetch is
      * running); a failed create is passed on to the dialog unchanged.
      */
    method HandleCreateQuote(createOk: bool) returns (outcome: Outcome, reload: Option<Params>)
      modifies this`isLoading
      ensures createOk <==> outcome.Pass?
      ensures !createOk ==> reload == None && isLoading == old(isLoading)
      ensures createOk ==>
        && (reload.Some? <==> !old(isLoading))
        && (reload.Some? ==> reload.value == Params(1, ItemsPerPage, None, None))
        && isLoading
    {
      if !createOk {
        outcome := Fail("Failed to create quote settings");
        reload := None;
        return;
      }
      outcome := Pass;
      reload := StartGetQuotes(1, ItemsPerPage);
    }

    /** Like a create, but with no record being edited it does nothing at all. */
    method HandleUpdateQuote(updateOk: bool) returns (outcome: Outcome, sentFor: Option<string>, reload: Option<Params>)
      modifies this`isLoading
      ensures old(editingQuote).None? ==> outcome.Pass? && sentFor == None && reload == None && isLoading == old(isLoading)
      ensures old(editingQuote).Some? ==>
        && sentFor == Some(editingQuote.value.id)
        && (updateOk <==> outcome.Pass?)
        && (!updateOk ==> reload == None && isLoading == old(isLoading))
        && (updateOk ==> (reload.Some? <==> !old(isLoading))
                          && (reload.Some? ==> reload.value == Params(1, ItemsPerPage, None, None))
                          && isLoading)
    {
      if editingQuote.None? {
        outcome, sentFor, reload := Pass, None, None;
        return;
      }
      sentFor := Some(editingQuote.value.id);
      if !updateOk {
        outcome := Fail("Failed to update quote settings");
        reload := None;
        return;
      }
      outcome := Pass;
      reload := StartGetQuotes(1, ItemsPerPage);
    }
  }
}
