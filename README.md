# Service quote calculator — a verified model of its front-end logic

The application is a React front end for a window-cleaning and powerwashing
business. A remote API prices the services. The front end handles the rest,
and that is what this project models:

- **Draft-quote builder.** Client details, an ordered list of priced service
  lines (add, replace while editing, delete), a flat or percentage discount,
  13 % tax, batch validation of the form, and the payload that creates or
  updates a quote.
- **Paged quote lists.** The quote list and the quote-settings list. Page 1
  replaces the list. A later page appends only items whose id is new.
  `hasMore` says whether the page came back full. Status and delete updates
  are applied by id.
- **Quote-settings dialog.** Form defaults and the payload, which depends on
  the service type.
- **Local user list.** Edit-replace, append and delete.
- **Invoice page.** The hard-coded price table, the fallback to the cached
  quote, and the shortened invoice id.
- **Two PDF exports.** The A4 slicing of the rendered quote image, and the
  per-service table document with its cursor and page-break rule and its
  summary sums.
- **String helpers.** Capitalising, date rendering, phone validation and
  phone formatting.
- **Small view logic.** The "load more" footer, the greetings and role-based
  menus of the two mobile navigation screens, and the session store kept in
  browser storage.

Each source file becomes one module. Local UI state whose fields are updated
by handlers is modelled as a `class` with `modifies` frames: `QuoteDraft`,
`QuoteList`, `SettingsList`, `Dialog`, `UsersView`, `InvoicePage` and `Store`.
Loops become methods with invariants proved against specification functions:
the address-component fold, the A4 slicing loop and the per-service layout
loop. The sequence of validation checks is a method whose pushed messages are
proved equal to a specification function. Pure computations become functions with lemmas.

The boundaries of the model:

- Remote calls are parameters: the answer, or whether the call succeeded.
- Money is an exact `real`.
- Number and date formatting are formatter parameters.
- The PDF objects are logs of the calls made on them.
- Browser storage is a `map<string, string>`.

Shared modules:

- `Wrappers`: `Option` and `Outcome`.
- `Text`: characters, trimming, digits, decimal rendering, case mapping.
- `Lists`: the id-keyed merge, filter and map operations the views share.
- `Types`: the enumerations and records of `src/types/index.ts`.

## Model

| member | source | states |
|---|---|---|
| Types.ParseServiceType | src/types/index.ts:1-11 | reading a service-type string gives a variant only when that variant's value is the string |
| Types.ServiceTypeIsClosed | src/types/index.ts:1-11 | exactly nine service types; each value reads back as its own variant and no two share a value |
| Types.ParseQuoteStatus | src/types/index.ts:13-17 | reading a status string gives a variant only when that variant's value is the string |
| Types.DropdownOutsideStatusEnum | src/views/Quotes.tsx:335-338 | every status round-trips; of the four dropdown values only the first, QUOTE_NOT_SENT, is outside the status enumeration |
| Types.ParseDiscountType | src/types/index.ts:26 | the discount type is FLAT or PERCENTAGE exactly for those two strings and absent otherwise |
| Text.Trim | src/components/ServiceForm.tsx:211 | the result is the input's middle between a blank prefix and a blank suffix, and neither starts nor ends with whitespace; (TrimEmptyIffBlank) it is empty exactly when the input is blank |
| Text.TrimEmptyIffBlank | src/components/ServiceForm.tsx:410 | `!s.trim()` holds exactly when s consists only of whitespace |
| Text.Digits | src/utils/string.ts:40 | removing the non-digits keeps only digits, and (DigitsAppend) distributes over concatenation |
| Text.ReplaceUnderscores | src/utils/calculations.ts:21 | every `_` becomes a space, every other character is kept, the length is unchanged |
| Text.Label | src/components/AddQuoteSettingsDialog.tsx:88-91 | underscores become spaces, every character after the first is lower-cased, and the first is lower-cased then upper-cased |
| Lists.RemoveAt | src/components/ServiceForm.tsx:434-437 | deleting index i removes exactly element i and keeps the others in order; an out-of-range index leaves the list unchanged |
| Lists.MergeLaterPage | src/views/Quotes.tsx:141-148 | a later page keeps the previous list as a prefix and appends the returned items whose id was not already listed, in page order (the tail is Fresh of the page, pinned down by FreshSingle and FreshAppend); the id set becomes the union |
| Lists.FreshSingle | src/views/Quotes.tsx:143-146 | a one-item page contributes that item exactly when its id is not already listed, and nothing otherwise |
| Lists.FreshAppend | src/views/Quotes.tsx:143-146 | filtering two pieces of a page separately and joining them gives the filter of the whole page, so kept items keep their order and multiplicity |
| Lists.DuplicatesWithinPageKept | src/views/Quotes.tsx:143-147 | two items with the same id in one returned page are both kept, on page 1 and on later pages |
| Lists.MergeSamePageTwice | src/views/QueteSettings.tsx:72-81 | merging the same page a second time changes nothing |
| Lists.RemoveIdSpec | src/views/Quotes.tsx:197-199 | filtering by id keeps exactly the items with another id, distributes over concatenation, and keeps the list when no id matches |
| ServiceForm.RequestFor | src/components/ServiceForm.tsx:335-349 | the pricing request carries the five measurements with blanks sent as 0 exactly for WOOD_POWERWASHING, and otherwise the service type and units |
| ServiceForm.RowRecordsRequest | src/components/ServiceForm.tsx:356-377 | the new line records the same service type and quantities that were sent for pricing, and the returned total cost as its subtotal |
| ServiceForm.EditThenResubmitSameRequest | src/components/ServiceForm.tsx:314-331 | loading a line back into the editor and pricing it again sends the same request as the one that produced the line |
| ServiceForm.WithRow | src/components/ServiceForm.tsx:379-385 | with an in-range editing index, exactly that element is replaced and the length is kept; otherwise the line is appended and earlier lines are unchanged |
| ServiceForm.TotalsOf | src/components/ServiceForm.tsx:439-443 | subtotal is the sum of the lines; discount is the value (null as 0) for FLAT and subtotal·value/100 for PERCENTAGE; tax is 13 % of subtotal − discount; total is subtotal − discount + tax |
| ServiceForm.SubtotalSumsLines | src/components/ServiceForm.tsx:439 | a missing line subtotal counts as 0: no lines, or only missing subtotals, give 0; non-negative lines give a non-negative subtotal |
| ServiceForm.SubtotalAppend | src/components/ServiceForm.tsx:439 | the subtotal of two lists joined is the sum of their subtotals |
| ServiceForm.SubtotalSplit | src/components/ServiceForm.tsx:439 | the subtotal splits around any one line |
| ServiceForm.SubtotalAfterUpsert | src/components/ServiceForm.tsx:379-385 | replacing line i changes the subtotal by the new line minus the old; appending adds the new line |
| ServiceForm.SubtotalAfterDelete | src/components/ServiceForm.tsx:434-437 | deleting line i lowers the subtotal by that line; an out-of-range index leaves it unchanged |
| ServiceForm.PercentageDiscountBounds | src/components/ServiceForm.tsx:440-441 | a percentage of 0 or null discounts nothing, 100 discounts the whole subtotal, and any value in 0..100 discounts between 0 and the subtotal |
| ServiceForm.TotalIsTaxedNet | src/components/ServiceForm.tsx:440-443 | the total is the net amount times 1.13; with no lines and a null discount all four figures are 0 |
| ServiceForm.TotalsExamples | src/components/ServiceForm.tsx:439-443 | a 100 line with a flat 10 gives 100/10/11.7/101.7, and a 200 line at 50 % gives 200/100/13/113 |
| ServiceForm.RuleIndex | src/components/ServiceForm.tsx:410-426 | every validation rule has its own position in the fixed order in which the messages are pushed |
| ServiceForm.FlaggedSpec | src/components/ServiceForm.tsx:410-426 | the rules collected are exactly the violated ones among those checked so far, in rule order |
| ServiceForm.ErrorsOfSpec | src/components/ServiceForm.tsx:410-426 | there is one message per collected rule, in the same order |
| ServiceForm.ValidationIsBatch | src/components/ServiceForm.tsx:406-432 | validation is not fail-fast: it reports one message per violated rule, in rule order, and reports none exactly when no rule is violated |
| ServiceForm.ThreeBrokenRulesThreeErrors | src/components/ServiceForm.tsx:410-426 | a blank first name, a blank address, a blank email and no lines give exactly three messages, in order; the blank email is not reported |
| ServiceForm.ServicePayloadOf | src/components/ServiceForm.tsx:544-556 | each service payload copies type, id and units, sends missing pricing fields as 0, persons as 2, and the line subtotal (missing as 0) as total cost |
| ServiceForm.ClientPayloadOf | src/components/ServiceForm.tsx:561-578 | the client payload drops the email exactly when it is blank after trimming, keeps it as typed otherwise, and copies the other ten fields unchanged |
| ServiceForm.PayloadOf | src/components/ServiceForm.tsx:539-578 | one service payload per line in order; subtotal, tax and total are the draft's totals; the discount is sent as the computed amount with the raw value as percentage |
| ServiceForm.SumTotalCostOfLines | src/components/ServiceForm.tsx:544-556 | the services' total costs add up to the draft subtotal |
| ServiceForm.PayloadIsConsistent | src/components/ServiceForm.tsx:539-560 | in every payload the subtotal is the sum of the services' costs, and the tax and total follow from subtotal and flat discount |
| ServiceForm.ReloadedDiscount | src/components/ServiceForm.tsx:132-135 | reloading a quote selects PERCENTAGE exactly when the stored percentage is positive, with that percentage as the value; otherwise FLAT with the stored flat amount |
| ServiceForm.SaveThenReloadDiscount | src/components/ServiceForm.tsx:132-135 | a positive percentage discount survives saving and reloading; a flat discount with no value reloads as a flat 0 |
| ServiceForm.FlatDiscountReloadsAsPercentage | src/components/ServiceForm.tsx:557-560 | a saved positive FLAT discount reloads as a PERCENTAGE discount of the same number, so the discount type does not survive a save and reload |
| ServiceForm.UnitsChange | src/components/ServiceForm.tsx:830-839 | the units input accepts the empty string (as blank) or a positive number, and otherwise keeps its value; a positive-or-blank value stays so |
| ServiceForm.MeasureChange | src/components/ServiceForm.tsx:856-866 | a measurement input accepts the empty string or a non-negative number, and otherwise keeps its value |
| ServiceForm.DiscountValueChange | src/components/ServiceForm.tsx:1107-1113 | the discount input accepts the empty string (as null) or a non-negative number, and otherwise keeps its value |
| ServiceForm.PhoneChange | src/components/ServiceForm.tsx:726-731 | typed phone text is taken exactly when it holds at most ten digits; so the field never holds more than ten digits |
| ServiceForm.PartOf | src/components/ServiceForm.tsx:196-209 | a component fills the first part, in the order street number, route, locality, province, postal code, whose type it carries; unused when it has none of the five types |
| ServiceForm.LastValue | src/components/ServiceForm.tsx:196-209 | a part no component supplies stays the empty string |
| ServiceForm.LastValueIsLastMatch | src/components/ServiceForm.tsx:196-209 | the last component that fills a part decides its value, whatever earlier components gave |
| ServiceForm.ExtractPlace | src/components/ServiceForm.tsx:189-211 | the fold over the components yields, for each part, the value of the last component of that part; the address is the trimmed street number and route |
| ServiceForm.QuoteDraft.constructor | src/components/ServiceForm.tsx:47-92 | the draft starts empty: blank editor, no lines, FLAT with no value, nothing loading or open |
| ServiceForm.QuoteDraft.Totals | src/components/ServiceForm.tsx:439-443 | the displayed totals are the totals of the current lines and discount; a flat discount is never negative |
| ServiceForm.QuoteDraft.SelectServiceType | src/components/ServiceForm.tsx:804-807 | choosing a service type changes only the editor's type |
| ServiceForm.QuoteDraft.ChangeUnits | src/components/ServiceForm.tsx:830-839 | the editor's units follow the units guard, and nothing else changes |
| ServiceForm.QuoteDraft.ChangeMeasure | src/components/ServiceForm.tsx:856-866 | the chosen measurement follows the measurement guard, and nothing else changes |
| ServiceForm.QuoteDraft.SelectDiscountType | src/components/ServiceForm.tsx:1078-1095 | the discount type becomes the chosen one |
| ServiceForm.QuoteDraft.ChangeDiscountValue | src/components/ServiceForm.tsx:1107-1113 | the discount value follows the discount guard |
| ServiceForm.QuoteDraft.ChangePhone | src/components/ServiceForm.tsx:726-731 | only the phone number changes, following the ten-digit guard |
| ServiceForm.QuoteDraft.HandlePlaceChanged | src/components/ServiceForm.tsx:189-218 | address, city, province and postal code become the extracted values; every other client field is kept |
| ServiceForm.QuoteDraft.HandleEditService | src/components/ServiceForm.tsx:314-331 | the editor is loaded from line i, and editing is on with index i |
| ServiceForm.QuoteDraft.HandleCalculationSubmit | src/components/ServiceForm.tsx:333-403 | the request follows the editor; on success the line is upserted, the editor reset and editing cleared; on failure lines, editor and editing state are untouched; loading is cleared either way |
| ServiceForm.QuoteDraft.HandleDeleteService | src/components/ServiceForm.tsx:434-437 | the lines become the old lines without index i |
| ServiceForm.QuoteDraft.ValidateForm | src/components/ServiceForm.tsx:406-432 | the pushed messages are the batch validation errors, and the form is valid exactly when there are none |
| ServiceForm.QuoteDraft.SubmitQuoteData | src/components/ServiceForm.tsx:528-598 | an invalid form sends nothing and leaves the submitted flag set; a valid one sends the payload, as an update exactly when the form was opened for a quote id; success opens the success dialog |
| ServiceForm.QuoteDraft.HandleDialogClose | src/components/ServiceForm.tsx:445-483 | closing the success dialog clears client details, lines, discount and editor |
| ServiceForm.EditingIndexIsStaleAfterDelete | src/components/ServiceForm.tsx:434-437 | deleting a line does not adjust the editing index, so a later edit replaces a different line than the one loaded |
| Quotes.ParamsFor | src/views/Quotes.tsx:121-131 | the params carry page and limit, userId exactly when a user is selected, and search exactly when the term is non-empty |
| Quotes.WithStatus | src/views/Quotes.tsx:106-110 | only quotes with the matching id get the new status; the others are unchanged |
| Quotes.StatusUpdateKeepsList | src/views/Quotes.tsx:106-110 | a status update keeps every quote's id and position and changes nothing but status |
| Quotes.QuoteList.constructor | src/views/Quotes.tsx:62-83 | the list starts empty on page 1, not loading, with no filter and the delete dialog closed |
| Quotes.QuoteList.StartGetQuotes | src/views/Quotes.tsx:119-133 | a fetch sends the params built from the filters and sets the loading flag |
| Quotes.QuoteList.FinishGetQuotes | src/views/Quotes.tsx:134-157 | on success the page is merged, hasMore is whether the page was full and the page number is set; on failure list, hasMore and page are kept; loading is cleared |
| Quotes.QuoteList.LoadMore | src/views/Quotes.tsx:161-165 | page+1 with four items is requested exactly when not loading and more remain |
| Quotes.QuoteList.HandleStatusUpdate | src/views/Quotes.tsx:98-117 | the status changes locally only after the request succeeds |
| Quotes.QuoteList.HandleDeleteDialog | src/views/Quotes.tsx:184-186 | the dialog opens for the given id |
| Quotes.QuoteList.HandleDeleteConfirm | src/views/Quotes.tsx:189-209 | with no id nothing happens; otherwise every quote with that id is removed when the request succeeds, and the dialog is reset either way |
| QuoteSettings.SettingsList.constructor | src/views/QueteSettings.tsx:14-23 | the list starts empty on page 1 with no record being edited and the dialog closed |
| QuoteSettings.SettingsList.StartGetQuotes | src/views/QueteSettings.tsx:63-68 | while a fetch is running a new one is refused; otherwise it is sent with page and limit only |
| QuoteSettings.SettingsList.FinishGetQuotes | src/views/QueteSettings.tsx:69-91 | on success the page is merged and hasMore and page are set; on failure they are kept; loading is cleared on both paths |
| QuoteSettings.SettingsList.LoadMore | src/views/QueteSettings.tsx:93-95 | the next page is requested exactly when not loading and more remain |
| QuoteSettings.SettingsList.HandleEditClick | src/views/QueteSettings.tsx:53-56 | the record becomes the one being edited and the dialog opens |
| QuoteSettings.SettingsList.HandleDialogClose | src/views/QueteSettings.tsx:48-51 | the dialog closes and no record is being edited |
| QuoteSettings.SettingsList.HandleCreateQuote | src/views/QueteSettings.tsx:25-34 | a failed create is passed back as a failure and reloads nothing; a successful one reloads page 1 |
| QuoteSettings.SettingsList.HandleUpdateQuote | src/views/QueteSettings.tsx:36-46 | with no record being edited nothing is sent; otherwise the update is sent for its id, a failure is passed back, and success reloads page 1 (unless a fetch is running) and leaves the list loading |
| SettingsDialog.OrElse | src/components/AddQuoteSettingsDialog.tsx:40-49 | a parsed number or its default: NaN and 0 give the default d, any other number is kept |
| SettingsDialog.FieldOr | src/components/AddQuoteSettingsDialog.tsx:14-22 | a stored field or its default: absent and 0 give the default d, any other value is kept |
| SettingsDialog.InitialForm | src/components/AddQuoteSettingsDialog.tsx:13-23 | with no record the form is EXTERIOR_WINDOW_CLEANING, 90, 3, 70 and five zeros; with a record, its service type (or window cleaning when missing) and each of the eight numbers, a missing or zero one replaced by its default (90, 3, 70, else 0) |
| SettingsDialog.FalsyRecordOpensAsNew | src/components/AddQuoteSettingsDialog.tsx:13-23 | a record without a service type whose numbers are all missing or zero opens exactly as a new dialog |
| SettingsDialog.PayloadOf | src/components/AddQuoteSettingsDialog.tsx:36-51 | the payload carries the service type, and the five powerwashing minutes exactly for WOOD_POWERWASHING, otherwise setup, per-unit and hourly fields |
| SettingsDialog.PayloadSendsFalsyAsZero | src/components/AddQuoteSettingsDialog.tsx:40-49 | every field that is NaN (or 0) is sent as 0 and every other number as itself |
| SettingsDialog.SaveUnchangedRecord | src/components/AddQuoteSettingsDialog.tsx:13-23 | saving a record without changes sends its values, except that zero setup, per-unit or hourly fields come back as 90, 3 or 70 |
| SettingsDialog.DefaultPayload | src/components/AddQuoteSettingsDialog.tsx:13-51 | saving the untouched create form sends window cleaning with 90, 3 and 70 |
| SettingsDialog.ServiceTypeLabels | src/components/AddQuoteSettingsDialog.tsx:88-91 | WOOD_POWERWASHING is shown as "Wood powerwashing", and every label has the value's length and a space |
| SettingsDialog.Dialog.constructor | src/components/AddQuoteSettingsDialog.tsx:13-24 | the dialog starts with the initial form and not submitting |
| SettingsDialog.Dialog.SelectServiceType | src/components/AddQuoteSettingsDialog.tsx:85-91 | choosing a type changes only the form's type |
| SettingsDialog.Dialog.ChangeField | src/components/AddQuoteSettingsDialog.tsx:36-50 | editing a field replaces only that field of the form with the parsed number |
| SettingsDialog.Dialog.HandleSubmit | src/components/AddQuoteSettingsDialog.tsx:31-60 | the payload built from the form is submitted; the dialog asks to close exactly when saving succeeded; submitting is cleared either way |
| Users.Merged | src/views/Users.tsx:52 | the edited user keeps its id and takes name, email, phone, password and metadata from the form |
| Users.Created | src/views/Users.tsx:55 | a new user has the given id and the form's fields |
| Users.FormOf | src/views/Users.tsx:66-72 | editing copies name, email, phone and metadata and clears the password |
| Users.Replaced | src/views/Users.tsx:51-53 | only users whose id matches the edited user are replaced by the merged user; the length is kept |
| Users.EditKeepsIds | src/views/Users.tsx:51-53 | an edit keeps every position's id, and so the set of ids |
| Users.EditUnchangedKeepsUser | src/views/Users.tsx:63-74 | submitting an edit without changes gives back the user with an empty password |
| Users.UsersView.constructor | src/views/Users.tsx:14-28 | the view starts with no users, the empty form, not editing and the dialog closed |
| Users.UsersView.HandleSubmit | src/views/Users.tsx:48-61 | editing replaces the matching user; otherwise a user with the new id is appended; then the form resets, editing stops and the dialog closes |
| Users.UsersView.HandleEdit | src/views/Users.tsx:63-74 | editing starts for the user with the form filled from it and the dialog open |
| Users.UsersView.HandleDelete | src/views/Users.tsx:76-78 | every user with the id is removed, in order |
| QuotesView.ServicePrice | src/views/QuotesView.tsx:54-61 | 35.99 for exterior window cleaning, 45.99 for exterior gutter cleaning, 0 for anything else |
| QuotesView.OnlyTwoServicesPriced | src/views/QuotesView.tsx:183-185 | exactly two service types have a price; an unpriced row totals 0; the row total is price times units |
| QuotesView.ShortId | src/views/QuotesView.tsx:133 | the invoice id is shown as its first eight characters followed by "..." |
| QuotesView.InvoicePage.constructor | src/views/QuotesView.tsx:65-67 | the page starts loading, with no data and no error |
| QuotesView.InvoicePage.Screen | src/views/QuotesView.tsx:97-111 | the page shows loading while loading; it shows the stored invoice exactly when not loading, the error is absent or empty, and data is present; otherwise a non-empty error's text, else "Invoice not found" |
| QuotesView.InvoicePage.FetchQuote | src/views/QuotesView.tsx:70-95 | a missing id gives "Quote ID is required" and no request; an empty response falls back to the cached quote or none; a failure shows its message; loading ends either way |
| QuotesView.EmptyErrorKeepsInvoice | src/views/QuotesView.tsx:105-108 | an empty error message does not hide a loaded invoice; without data the page says "Invoice not found" |
| QuotesView.MissingIdShowsError | src/views/QuotesView.tsx:105-108 | after a missing id the page shows "Quote ID is required" |
| QuotePdf.DocumentOf | src/components/QuotePDF.tsx:22-118 | the document shows invoice number, issue date, client name, the email or "", one row per service with underscores as spaces, and the money figures with "$" and "-$" |
| QuotePdf.DocumentRowsFollowServices | src/components/QuotePDF.tsx:73-86 | each row's service name keeps every non-underscore character in place and contains no underscore; a missing email shows as "" |
| QuotePdf.ImageHeight | src/components/QuotePDF.tsx:133-135 | the image height scales the canvas height to the 210 mm width |
| QuotePdf.PagesIsCeiling | src/components/QuotePDF.tsx:140-158 | the number of slices is the ceiling of height / 297, and 0 for a non-positive height |
| QuotePdf.SlicesShape | src/components/QuotePDF.tsx:143-158 | slices alternate image, page, image, with the k-th image at position −297·k |
| QuotePdf.Paginate | src/components/QuotePDF.tsx:140-158 | the loop's call log is the slice sequence for the image height |
| QuotePdf.ImageCountOfAlternation | src/components/QuotePDF.tsx:143-158 | an alternating log of length n holds (n+1)/2 images |
| QuotePdf.PaginationLayout | src/components/QuotePDF.tsx:140-158 | a non-positive height adds nothing; otherwise ⌈h/297⌉ images at 0, −297, …, with exactly one page added between consecutive images |
| QuotePdf.DatePart | src/components/QuotePDF.tsx:164-166 | the date part is the prefix of the timestamp before the first "T" |
| QuotePdf.DatePartOfTimestamp | src/components/QuotePDF.tsx:164-166 | for an ISO timestamp the date part is its first ten characters |
| QuotePdf.FileNameShape | src/components/QuotePDF.tsx:164-167 | the file name is "quote-", the id, "-", the YYYY-MM-DD date and ".pdf" |
| QuotePdf.GenerateQuotePdf | src/components/QuotePDF.tsx:11-172 | a failed render gives the single failure notice and leaves the container in place; otherwise the sliced PDF is saved under the file name and the container is removed |
| Calculations.TableRowsLayout | src/utils/calculations.ts:24-32 | each table has seven two-cell rows labelled Units, Total Time, Calendar Time, Subtotal, Discount, Tax (13%), Total Cost, with "$" and "-$" money cells |
| Calculations.BlockStep | src/utils/calculations.ts:18-51 | each calculation adds its caption at the cursor, its table at cursor+10 and, when the next cursor passes 250 and it is not the last, a new page; the next cursor is finalY+20, or 20 after a break |
| Calculations.TotalCosts | src/utils/calculations.ts:54 | the summed column holds each calculation's total cost, in order |
| Calculations.TotalHours | src/utils/calculations.ts:55 | the summed column holds each calculation's total time in hours, in order |
| Calculations.FoldSumIsSum | src/utils/calculations.ts:54-55 | the reduce from an accumulator adds the column's sum to it |
| Calculations.SumAppend | src/utils/calculations.ts:54-55 | the sum of two columns joined is the sum of their sums |
| Calculations.SummarySums | src/utils/calculations.ts:54-55 | Total Amount and Total Time are the sums of total cost and total hours, and each grows by the added calculation's value |
| Calculations.GeneratePdf | src/utils/calculations.ts:5-75 | the document is the header, the per-calculation blocks at the computed cursors, then the summary at the final cursor with the two sums |
| Calculations.PagesAppend | src/utils/calculations.ts:47-50 | page breaks of two logs joined add up |
| Calculations.BlockPages | src/utils/calculations.ts:44-50 | a block adds one page exactly when the cursor passes 250 and it is not the last calculation |
| Calculations.PageBreakRule | src/utils/calculations.ts:47-50 | the blocks add at most one page per calculation, and strictly fewer pages than calculations, since the last one never breaks |
| Calculations.SummaryCursor | src/utils/calculations.ts:16-50 | the summary sits at the last table's finalY+20, or at 40 with no calculations |
| StringUtils.CapitalizeFirstLetter | src/utils/string.ts:1-4 | an absent or empty string gives ""; otherwise the first character is upper-cased and the rest kept |
| StringUtils.CapitalizeIdempotent | src/utils/string.ts:1-4 | capitalising twice is capitalising once |
| StringUtils.ParseMonth | src/utils/string.ts:7-20 | a month name reads back only as the index whose table entry it is |
| StringUtils.MonthNamesParse | src/utils/string.ts:7-22 | each of the twelve names reads back as its index, and no name contains a comma |
| StringUtils.IntStringRoundTrip | src/utils/string.ts:23-25 | the rendered year reads back as the same integer |
| StringUtils.FormatDateRoundTrip | src/utils/string.ts:6-26 | "day Month, year" determines the day, month and year it was rendered from |
| StringUtils.FormattedPhoneDigits | src/utils/string.ts:44-57 | the formatted number holds the country digit 1 and then the first ten typed digits, or nothing for no digits |
| StringUtils.FormatThenValidate | src/utils/string.ts:38-57 | a formatted number validates exactly when nine digits were typed, so a valid ten-digit number no longer validates once formatted |
| LoadMore.FooterFor | src/components/LoadMore.tsx:18-53 | spinner exactly while loading; button exactly when not loading and more remain; "No more quotes to load" when items exist; otherwise "No quotes found" |
| LoadMore.ButtonMatchesLoadGuard | src/components/LoadMore.tsx:42-48 | the button appears exactly when a load would be accepted, and the four footers show different texts |
| Navigation.LinksGreeting | src/views/mobile-links.tsx:17-23 | morning for 5–11, afternoon for 12–16, evening for 17–20, night otherwise |
| Navigation.MenuGreeting | src/components/mobileMenu.tsx:17-22 | morning below 12, afternoon for 12–17, evening from 18; never night |
| Navigation.GreetingsAgree | src/components/mobileMenu.tsx:17-22 | over a day the two screens greet alike exactly for hours 5–16 and 18–20 |
| Navigation.MenuItems | src/views/mobile-links.tsx:25-29 | Calculator then Quotes, and Users third exactly for an administrator |
| Navigation.MenuOfSignedOut | src/components/mobileMenu.tsx:24-28 | signed out, the menu is Calculator and Quotes; no two items share a title |
| AuthStore.ParseRole | src/store/authStore.ts:6 | a role string reads back only as the role that writes it |
| AuthStore.RoleRoundTrip | src/store/authStore.ts:6 | every role reads back as itself |
| AuthStore.FieldRoundTrip | src/store/authStore.ts:24 | a serialised field reads back with whatever follows it untouched |
| AuthStore.EncodeRoundTrip | src/store/authStore.ts:19-24 | the serialised user reads back as the same user |
| AuthStore.Initial | src/store/authStore.ts:19-21 | the user is the parsed stored user or none; the token is the stored token or none; authenticated exactly when the stored token is non-empty |
| AuthStore.SignedOutStorage | src/store/authStore.ts:28-29 | sign-out removes the token and user entries and keeps every other entry |
| AuthStore.ReloadAfterSignIn | src/store/authStore.ts:19-26 | a store created after sign-in has the same user and token, and is authenticated again exactly when the token was non-empty |
| AuthStore.SignOutIdempotent | src/store/authStore.ts:27-31 | signing out twice leaves storage as once, and a store created afterwards is signed out |
| AuthStore.Store.constructor | src/store/authStore.ts:18-21 | the store starts from what storage holds |
| AuthStore.Store.SetAuth | src/store/authStore.ts:22-26 | token and serialised user are written, and the state becomes that user and token, authenticated |
| AuthStore.Store.Logout | src/store/authStore.ts:27-31 | both entries are removed, the state is signed out, and the browser goes to /login |

## Left out

- The HTTP client, its interceptors and timeouts, and the 401 redirect are left out. Each remote call is a parameter of the handler: its answer, or whether it succeeded.
- The Google Maps script, the autocomplete wiring and the manual address input are left out. Only the fold over the address components is modelled.
- html2canvas, jsPDF, autotable, the DOM, font sizes, styles and `pdf.save` are foreign libraries. What is modelled is the arithmetic and the log of calls. The canvas size and each table's `finalY` are inputs.
- Money is an exact real. `toFixed`, `toLocaleString`, `toLocaleDateString` and `toString` are formatter parameters with no rounding modelled, so IEEE rounding of the 13 % tax is not captured.
- `Date`, `Date.now()` ids, timers (the success dialog's auto-close and debounce) and `formatDateData` depend on the clock or the locale. The current hour, date and new ids are parameters. `formatDateData` is not modelled.
- Toasts, console logging, routing, `navigate`, the dropdown open/close toggles and the touched-field highlighting are presentation only.
- Users.FormOf: does not model `user.metaData || {}` for a user without metadata, because metadata is always present in this model.
- The generic client-field setters (`handleInputChange` and the per-field `onChange` handlers) are plain field assignments and are not modelled separately. `getUnitLabel` and `formatServiceType` only produce labels.
- In the loaded-quote fetch, only the discount selection is modelled (ReloadedDiscount). The per-line `|| 0` / `|| 1` copying of a loaded quote into lines is not modelled.
- ServiceForm.WithRow: an editing index at or past the list length appends the line. In JavaScript, an index beyond the length would instead leave holes.
- Text.ToUpper: only ASCII letters change case. JavaScript's `toUpperCase` and `toLowerCase` map every Unicode letter.
- AuthStore.Store.constructor: requires that a stored user entry parses. `JSON.parse` on malformed storage throws, and that is not modelled. JSON is modelled by a length-prefixed encoding that reads back exactly.
- QuotesView.InvoicePage.FetchQuote: the cached `selectedQuote` entry is taken as already parsed. A malformed entry, which would throw, is not modelled.
- QuotePdf.ImageHeight: requires a canvas width above zero. html2canvas never renders a zero-width canvas for the container.
- Navigation.LinksGreeting: the hour is any integer. `getHours` only returns 0 to 23, and GreetingsAgree assumes that range.
- The service-type select resets nothing when the type changes. The code keeps the other editor fields, and the model follows the code.
