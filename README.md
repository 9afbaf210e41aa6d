# Travel agency front end: the logic behind the forms

This project models, in Dafny, the parts of the travel-agency web front end that compute
something rather than draw it:

- **The income/expense invoice editor** (`Invoice`). It holds a header form and an ordered
  list of detail lines (quantity, unit price, tax label, description), all as typed text.
  It derives three tax buckets from the lines (exempt revenue, the 5% bucket and the 10%
  bucket) plus a grand total. Lines can be edited field by field, appended and removed,
  and the form is posted as an invoice payload. `Invoice.Editor` is a class whose methods
  keep the shown totals equal to the totals of the current lines.
- **The older editor** (`LegacyInvoice`). It has five-field lines and the same bucket rule,
  except that an "IVA 10%" line adds a tenth of its subtotal rather than the subtotal
  over 1.1.
- **The spreadsheet package import** (`ExcelImport`). Each row becomes a package record
  with defaults for blank or missing cells. The batch is validated and is posted only when
  no package is invalid.
- **The public catalogue** (`Catalogue`). It offers a search that lower-cases the query
  and matches it against the lower-cased name and description and against the price
  text as it is (so a price text with capitals never matches on the price), pages of
  six, and deletion by id. `Catalogue.Home` is the page
  component, whose filtering effect resets the page.
- **The invoice table** (`InvoiceTable`). It has a page number and a rows-per-page
  setting, the slice they select, and the `'N/A'` fallbacks of its cells.
- **The session** (`Session`). A token and its expiry live in the browser store, and an
  authenticated flag is set by login, logout and the check made when the provider mounts.

`JsText` holds the JavaScript built-ins this logic relies on, stated over Dafny strings
and exact reals: `trim`, `split`/`join` on one character, ASCII `toLowerCase`,
`includes`, `parseInt` for radixes up to ten, `parseFloat`, `Number`, `String` of an
integer, and `Array.prototype.slice`. A JavaScript `NaN` is `None`.

Amounts are exact reals and times are integers of milliseconds. The clock, the store
responses and user confirmations are parameters.

Where the documented design of the totals differs from the code, the model follows the
code:

- the grand total is exempt + tax5 + tax10, not the sum of the line subtotals;
- a 5% line adds subtotal × 0.05, and a 10% line adds subtotal / 1.1 (newer editor) or
  subtotal × 0.1 (older editor), rather than a VAT share extracted as `/1.05*0.05` or
  `/1.10*0.10`;
- nothing is rounded;
- every label other than the two IVA labels is posted as `exento` (not `exenta`);
- a new line is all empty text, and typed quantities and prices are stored as text.

## Model

| member | source | states |
|---|---|---|
| Invoice.CalculateTotals | src/AdminPage/RegisterIncomeExpense/index.tsx:54-79 | the single loop over the lines yields exactly the bucket totals of the whole list (loop invariant: the accumulators equal the fold over the visited prefix), with total = exempt + tax5 + tax10 |
| Invoice.TotalsOfEmpty | src/AdminPage/RegisterIncomeExpense/index.tsx:54-58 | no lines give exempt = tax5 = tax10 = total = 0 |
| Invoice.SingleLine | src/AdminPage/RegisterIncomeExpense/index.tsx:60-70 | one line: "Exento" puts its whole subtotal in exempt, "IVA 5%" 5% of it in tax5, "IVA 10%" subtotal/1.1 in tax10, any other label (including "") nothing; total is what the bucket got |
| Invoice.UnparsedAddsNothing | src/AdminPage/RegisterIncomeExpense/index.tsx:60-62 | a line whose quantity or unit price does not parse adds nothing: appending it leaves the totals unchanged (it is 0, never NaN) |
| Invoice.TotalIsNotSumOfSubtotals | src/AdminPage/RegisterIncomeExpense/index.tsx:62-77 | the total is the sum of the buckets, not of the subtotals: a 1 x 110 "IVA 10%" line has subtotal 110 and total 100 |
| Invoice.SumBucketsAppend | src/AdminPage/RegisterIncomeExpense/index.tsx:59-71 | accumulating over a + b is accumulating over a and adding what b accumulates |
| Invoice.TotalsAdditive | src/AdminPage/RegisterIncomeExpense/index.tsx:54-78 | the totals of two lists laid end to end are the field-wise sums of their totals |
| Invoice.TotalsOf | src/AdminPage/RegisterIncomeExpense/index.tsx:54-78 | the grand total shown is exempt + tax5 + tax10, the sum of the buckets |
| Invoice.TotalsNonNegative | src/AdminPage/RegisterIncomeExpense/index.tsx:54-78 | while no line's subtotal is negative, no bucket and no total is negative |
| Invoice.WithoutIndex | src/AdminPage/RegisterIncomeExpense/index.tsx:118 | the filter by index drops exactly line i (in range) keeping the others in order; an out-of-range index leaves the list unchanged |
| Invoice.RemovedTotals | src/AdminPage/RegisterIncomeExpense/index.tsx:117-121 | after removing line i, the old totals equal the new totals plus the totals of line i alone |
| Invoice.AppendBlank | src/AdminPage/RegisterIncomeExpense/index.tsx:104-114 | appending a blank line leaves the totals unchanged |
| Invoice.Without | src/AdminPage/RegisterIncomeExpense/index.tsx:118 | removing an index in range leaves one line fewer, an index out of range leaves the count as it was, and no line appears that was not there |
| Invoice.TaxCode | src/AdminPage/RegisterIncomeExpense/index.tsx:189-194 | "IVA 10%" maps to "iva10", "IVA 5%" to "iva5", and exactly the other labels to "exento" |
| Invoice.PayloadDetails | src/AdminPage/RegisterIncomeExpense/index.tsx:185-195 | one posted line per form line, same order, each the quantity via parseInt(_, 10), the unit price via parseFloat, the description, and the tax code |
| Invoice.UnlabelledPostedExempt | src/AdminPage/RegisterIncomeExpense/index.tsx:64-70 | a line with no tax label is posted as "exento" yet adds nothing to the shown totals |
| Invoice.Editor.constructor | src/AdminPage/RegisterIncomeExpense/index.tsx:22-47 | empty header, one blank line, zero totals, and the totals match the lines |
| Invoice.Editor.ChangeDetail | src/AdminPage/RegisterIncomeExpense/index.tsx:82-94 | only the named field of line i changes, the header is untouched, and the totals are recomputed from the new lines |
| Invoice.Editor.ChangeHeader | src/AdminPage/RegisterIncomeExpense/index.tsx:95-100 | only the named header field changes; lines and totals stay |
| Invoice.Editor.AddTransactionDetail | src/AdminPage/RegisterIncomeExpense/index.tsx:104-114 | one blank line is appended, the old lines are kept as a prefix, totals and header are unchanged and still match the lines |
| Invoice.Editor.RemoveTransactionDetail | src/AdminPage/RegisterIncomeExpense/index.tsx:117-121 | the lines become the filtered list, the totals are recomputed from it, and the header is unchanged |
| Invoice.Editor.BuildPayload | src/AdminPage/RegisterIncomeExpense/index.tsx:173-197 | the posted header is the form header; the posted details are the form lines mapped one to one in order |
| Invoice.Editor.Submit | src/AdminPage/RegisterIncomeExpense/index.tsx:170-236 | the payload of the form is posted; if accepted, the form is reset to the empty header, one blank line and zero totals, otherwise nothing changes |
| LegacyInvoice.LegacyCalculateTotals | src/AdminPage/RegisterIncomeExpense.tsx:80-105 | the older loop yields exactly the fold of the older bucket rule over the lines, with total = exempt + tax5 + tax10 |
| LegacyInvoice.LegacyTotalsOf | src/AdminPage/RegisterIncomeExpense.tsx:80-105 | the grand total shown by the older editor is exempt + tax5 + tax10 |
| LegacyInvoice.LegacyTotalsOfEmpty | src/AdminPage/RegisterIncomeExpense.tsx:80-84 | no lines give all-zero totals |
| LegacyInvoice.LegacySingleLine | src/AdminPage/RegisterIncomeExpense.tsx:86-96 | one line: "Exento" whole subtotal, "IVA 5%" 5%, "IVA 10%" a tenth of the subtotal, any other label nothing |
| LegacyInvoice.LegacyUnparsedAddsNothing | src/AdminPage/RegisterIncomeExpense.tsx:86-88 | an unparseable quantity or price makes the line add nothing |
| LegacyInvoice.LegacyAppendBlank | src/AdminPage/RegisterIncomeExpense.tsx:128-139 | a blank five-field line adds nothing to the totals |
| LegacyInvoice.TenPercentRulesDiffer | src/AdminPage/RegisterIncomeExpense.tsx:94-95 | the same 1 x 110 "IVA 10%" line counts 11 in the older editor and 100 in the newer one |
| LegacyInvoice.LegacyEditor.constructor | src/AdminPage/RegisterIncomeExpense.tsx:52-78 | empty header, one blank five-field line, zero totals matching the lines |
| LegacyInvoice.LegacyEditor.ChangeDetail | src/AdminPage/RegisterIncomeExpense.tsx:107-119 | only the named field of line i changes, the header is untouched, the totals are recomputed |
| LegacyInvoice.LegacyEditor.ChangeHeader | src/AdminPage/RegisterIncomeExpense.tsx:121-125 | only the named header field changes; lines and totals stay |
| LegacyInvoice.LegacyEditor.AddTransactionDetail | src/AdminPage/RegisterIncomeExpense.tsx:128-139 | one blank line appended, old lines kept, totals and header unchanged and still matching |
| ExcelImport.TrimmedOr | src/AdminPage/UploadExcel.tsx:154-159 | the trimmed cell when it is present and not blank after trimming, the default otherwise; a non-empty default means the field is never empty, and a value taken from the cell has no white space at either end |
| ExcelImport.Services | src/AdminPage/UploadExcel.tsx:162-164 | as many services as commas plus one, each the trimmed piece of the split |
| ExcelImport.ServicesOf | src/AdminPage/UploadExcel.tsx:162-165 | a present (string) cell gives its trimmed pieces, a missing one ['No especificado']; either way at least one service, none holding a comma or edge white space |
| ExcelImport.ImageOf | src/AdminPage/UploadExcel.tsx:166 | the image address is the cell when it is present and not empty, the placeholder address otherwise; it is the placeholder exactly when the cell is missing, empty or the placeholder itself |
| ExcelImport.CleanRows | src/AdminPage/UploadExcel.tsx:177 | one package per row, in row order, each the cleaned row |
| ExcelImport.CleanRow | src/AdminPage/UploadExcel.tsx:153-167 | whatever the row, the cleaned package has a city, a country and an image address that are not empty, and at least one service, none holding a comma or edge white space |
| ExcelImport.Invalid | src/AdminPage/UploadExcel.tsx:180-187 | a package made of the default name and description, with a city, a country and a service, passes the check |
| ExcelImport.CleanedInvalidIff | src/AdminPage/UploadExcel.tsx:153-167 | a cleaned package is invalid exactly when a non-blank name shorter than 3 or a non-blank description shorter than 10 was given; the defaults, city, country and service list never trip the check |
| ExcelImport.InvalidPackages | src/AdminPage/UploadExcel.tsx:180-187 | the result holds only invalid packages of the batch, and every invalid package of the batch |
| ExcelImport.Submit | src/AdminPage/UploadExcel.tsx:169-193 | the import stops exactly when the token is missing or empty; with a token the batch is posted exactly when no row's package is invalid, and a post sends every cleaned row; a rejection happens only when some row's package is invalid |
| ExcelImport.OneBadRowRejectsBatch | src/AdminPage/UploadExcel.tsx:189-193 | with a token, one invalid package rejects the whole batch |
| ExcelImport.ServicesShape | src/AdminPage/UploadExcel.tsx:162-164 | no service holds a comma or starts or ends with white space |
| ExcelImport.PriceMayBeNaN | src/AdminPage/UploadExcel.tsx:156 | a price cell "abc" becomes NaN and the package still passes validation |
| ExcelImport.WholePriceRoundTrip | src/AdminPage/UploadExcel.tsx:157 | a price cell holding the digits of n is posted as n |
| Catalogue.Search | src/pages/home/index.tsx:152-159 | a package is kept iff the lower-cased query occurs in its lower-cased name, lower-cased description or price text |
| Catalogue.SearchKeepsCopies | src/pages/home/index.tsx:152-159 | each matching package occurs in the filtered list as often as in the packages and any other not at all, so the length behind `totalPages` is the number of matching entries |
| Catalogue.Matches | src/pages/home/index.tsx:152-158 | a package matches exactly when the lower-cased query occurs at some position of the lower-cased name, of the lower-cased description or of the price text; the empty query matches every package, and a package matches its own name |
| Catalogue.SearchKeepsOrder | src/pages/home/index.tsx:152-160 | the filtered list is an order-preserving subsequence of the packages |
| Catalogue.EmptyQueryKeepsAll | src/pages/home/index.tsx:152-159 | the empty query keeps every package, in order |
| Catalogue.SearchIgnoresQueryCase | src/pages/home/index.tsx:153 | searching for the lower-cased query gives the same list as the query itself |
| Catalogue.TotalPages | src/pages/home/index.tsx:182 | the fewest pages of six that hold every filtered package (ceil of length / 6) |
| Catalogue.PageOf | src/pages/home/index.tsx:183-188 | a page never holds more than six packages |
| Catalogue.PageContents | src/pages/home/index.tsx:183-188 | page p holds the packages from position 6(p-1) up to 6p, as far as the list reaches |
| Catalogue.PagesPrefix | src/pages/home/index.tsx:182-188 | pages 1..k laid end to end are the first 6k filtered packages |
| Catalogue.PagesCoverAll | src/pages/home/index.tsx:182-188 | pages 1..totalPages laid end to end give back the filtered list |
| Catalogue.WithoutId | src/pages/home/index.tsx:217-219 | exactly the packages whose id is k go; every other package stays |
| Catalogue.WithoutIdKeepsCopies | src/pages/home/index.tsx:217-219 | every package with another id keeps all its copies, and none with the id remains |
| Catalogue.WithoutIdKeepsOrder | src/pages/home/index.tsx:217-219 | the survivors keep their order |
| Catalogue.WithoutAbsentId | src/pages/home/index.tsx:217-219 | deleting an id no package carries changes nothing |
| Catalogue.Home.constructor | src/pages/home/index.tsx:104-112 | no packages, empty query, page 1, filtered list consistent |
| Catalogue.Home.FilterEffect | src/pages/home/index.tsx:151-162 | the filtered list becomes the search of the packages by the query and the page goes back to 1; packages and query are kept |
| Catalogue.Home.LoadPackages | src/pages/home/index.tsx:136-138 | the packages become the loaded ones and the effect filters them with the current query and returns to page 1 |
| Catalogue.Home.SetSearchQuery | src/pages/home/index.tsx:151-162 | a new query filters again and resets the page to 1; the same query keeps the page |
| Catalogue.Home.ChangePage | src/pages/home/index.tsx:190-192 | only the current page changes |
| Catalogue.Home.Delete | src/pages/home/index.tsx:194-219 | when confirmed and sent, the packages lose exactly that id, the list is filtered again and the page is 1; otherwise nothing changes |
| Catalogue.Home.CurrentPackages | src/pages/home/index.tsx:183-188 | at most six packages, all from the filtered list |
| Catalogue.Home.PageCount | src/pages/home/index.tsx:182 | the fewest pages of six that hold the filtered list, and those pages laid end to end give it back |
| InvoiceTable.OfferedOptionsMisread | src/AdminPage/RegisterIncomeExpense/InvoiceTable.tsx:65 | read in base four, the options give "10"→4, "100"→16, "25"→2 and "5", "50"→NaN |
| InvoiceTable.OptionReadInBaseFour | src/AdminPage/RegisterIncomeExpense/InvoiceTable.tsx:65 | parseInt(_, 4) of a string starting with a digit reads its leading base-four digits, NaN when there are none |
| InvoiceTable.RowsPerPageAsWritten | src/AdminPage/RegisterIncomeExpense/InvoiceTable.tsx:65 | read in base four, any option starting with a digit from 4 to 9 (5 and 50 among the offered ones) is NaN |
| InvoiceTable.RowsPerPageIntended | src/AdminPage/RegisterIncomeExpense/InvoiceTable.tsx:65 | read in base ten, the decimal text of any n gives back n |
| InvoiceTable.IntendedRowsPerPage | src/AdminPage/RegisterIncomeExpense/InvoiceTable.tsx:135 | read in base ten, every offered option gives back its own number |
| InvoiceTable.PageSliceContents | src/AdminPage/RegisterIncomeExpense/InvoiceTable.tsx:69-72 | the page holds the invoices from page·rpp on, at most rpp of them; a NaN setting shows none |
| InvoiceTable.PageSlice | src/AdminPage/RegisterIncomeExpense/InvoiceTable.tsx:69-72 | the page holds only invoices of the list, none under a NaN setting, and at most rows-per-page of them |
| InvoiceTable.TextCell | src/AdminPage/RegisterIncomeExpense/InvoiceTable.tsx:97-110 | a non-empty field is shown as is, an empty one as N/A |
| InvoiceTable.TotalCellOf | src/AdminPage/RegisterIncomeExpense/InvoiceTable.tsx:111-113 | the amount is shown iff it is present and not zero, N/A otherwise |
| InvoiceTable.RowsOf | src/AdminPage/RegisterIncomeExpense/InvoiceTable.tsx:95-123 | one row per invoice, in order |
| InvoiceTable.CellsNeverBlank | src/AdminPage/RegisterIncomeExpense/InvoiceTable.tsx:97-110 | no text cell is ever blank |
| InvoiceTable.Table.constructor | src/AdminPage/RegisterIncomeExpense/InvoiceTable.tsx:52-53 | page 0, ten rows per page |
| InvoiceTable.Table.ChangePage | src/AdminPage/RegisterIncomeExpense/InvoiceTable.tsx:55-60 | the page becomes the requested one; the setting stays |
| InvoiceTable.Table.ChangeRowsPerPage | src/AdminPage/RegisterIncomeExpense/InvoiceTable.tsx:62-67 | the setting becomes the option read in base four, and the page goes back to 0 |
| InvoiceTable.Table.RenderedRowsAsWritten | src/AdminPage/RegisterIncomeExpense/InvoiceTable.tsx:95 | the body renders one row for every invoice |
| InvoiceTable.Table.PaginatedInvoices | src/AdminPage/RegisterIncomeExpense/InvoiceTable.tsx:69-72 | the component's page: only invoices of the list, none under a NaN setting, at most the setting's number |
| InvoiceTable.Table.RenderedRowsIntended | src/AdminPage/RegisterIncomeExpense/InvoiceTable.tsx:69-95 | rendering the page instead of the whole list: one row per paged invoice, at most rows-per-page of them, row k being the row of invoice page·rows-per-page + k |
| InvoiceTable.AllInvoicesRendered | src/AdminPage/RegisterIncomeExpense/InvoiceTable.tsx:69-95 | with eleven invoices and the initial setting, eleven rows are rendered while the page holds ten |
| InvoiceTable.IntendedRowsBounded | src/AdminPage/RegisterIncomeExpense/InvoiceTable.tsx:69-72 | rendering the page's invoices shows at most rpp rows, each the row of invoice page·rpp + k |
| Session.CheckOnMount | src/context/AuthContext.tsx:23-35 | the flag is left alone exactly when there is no token, and then nothing changes; it goes down exactly when a token is present and its expiry is present, numeric and before now, and then the token goes and the expiry stays; otherwise it goes up and the store is kept |
| Session.LoginStore | src/context/AuthContext.tsx:37-42 | the token is stored and the expiry reads back as now + 86 400 000 |
| Session.Expired | src/context/AuthContext.tsx:27 | a NaN expiry is never passed, and one written as the digits of n is passed exactly at the times after n |
| Session.ValidForADay | src/context/AuthContext.tsx:27-42 | a check at any time up to a day after login authenticates and keeps the store |
| Session.ExpiresAfterADay | src/context/AuthContext.tsx:26-30 | a check later than a day after login removes the token, keeps the expiry, lowers the flag |
| Session.ExpiryInstantIsValid | src/context/AuthContext.tsx:27 | the comparison is strict: a check at exactly the expiry time authenticates |
| Session.LogoutThenCheck | src/context/AuthContext.tsx:21-25 | after logout the check finds no token and changes nothing |
| Session.CheckIdempotent | src/context/AuthContext.tsx:23-35 | checking twice leaves the store as checking once |
| Session.AuthProvider.constructor | src/context/AuthContext.tsx:21 | the provider starts unauthenticated over the persisted store |
| Session.AuthProvider.Mount | src/context/AuthContext.tsx:23-35 | the store and flag become what the mount check prescribes; no token leaves the flag as it was |
| Session.AuthProvider.Login | src/context/AuthContext.tsx:37-42 | the store becomes the login store and the flag is up |
| Session.AuthProvider.Logout | src/context/AuthContext.tsx:44-48 | both keys removed and the flag down; repeating it changes nothing |
| JsText.TrimFacts | src/AdminPage/UploadExcel.tsx:154-163 | trim is empty exactly for all-white-space strings, removes only white space at the ends, keeps a string without edge white space, and is idempotent |
| JsText.JoinSplit | src/AdminPage/UploadExcel.tsx:163 | joining the pieces of a split with the separator gives back the string |
| JsText.SplitJoin | src/AdminPage/UploadExcel.tsx:163 | splitting a join of separator-free pieces gives back the pieces |
| JsText.IncludesIff | src/pages/home/index.tsx:155-157 | includes holds exactly when the needle occurs at some position |
| JsText.NatToStringRoundTrip | src/context/AuthContext.tsx:40 | the decimal text of n reads back as n through Number, parseFloat and parseInt(_, 10) |

## Left out

- All network calls (fetching, posting and deleting invoices and packages, the login
  request) and their error handling. A request outcome is a parameter where the state
  depends on it (`Invoice.Editor.Submit`'s `accepted`, `Catalogue.Home.Delete`'s
  `requestThrew`, `Catalogue.Home.LoadPackages`'s data).
- IEEE-754 doubles: amounts are exact reals, so `subtotal / 1.1` is exact and the display
  rounding (`toFixed(2)`) is not modelled.
- The model's `parseFloat`/`Number` accept only plain decimal literals: no exponent,
  `Infinity`, hexadecimal, octal or binary forms. `toLowerCase` folds only ASCII letters. `trim` knows the ASCII white
  space, the no-break space and the byte-order mark.
- String lengths count Unicode scalar values rather than UTF-16 code units. The two
  differ only outside the Basic Multilingual Plane.
- `convertExcelDate` and the two dates of a cleaned package: they depend on `Date`, the
  local time zone and `toISOString`.
- Reading the workbook (FileReader, XLSX) and the concurrent posts of the import.
  `ExcelImport.Submit` stops at the decision to post.
- A spreadsheet cell is always text, as the sheet reader is configured to hand it over.
  So a present `included_services` cell is a string, and a missing column is the only
  non-string case.
- Catalogue.PriceText: a price is a whole number or text; the decimal rendering of
  non-integer numbers by `toString` is not modelled.
- The catalogue's other package fields (country, city, dates, services) travel along
  unread and are not part of the record.
- Invoice.Editor.ChangeDetail, LegacyInvoice.LegacyEditor.ChangeDetail: an index past
  the end, which in JavaScript would grow the array with a hole, is excluded by
  `requires index < |transactionDetails|`; the form only passes indices of existing lines.
- A field name outside the form's inputs, which JavaScript would add as a new key:
  field names are enumerations.
- The older editor's submit handler only logs the form, so it has no model.
- The invoice table's delete button calls the parent's delete request with
  `invoice.invoice.headers.id`. The component's own invoice type declares the id at the top
  level (`invoice.id`) and no `id` inside the headers, so as typed the argument is
  `undefined` unless the store's records happen to carry one there. Which records the
  store sends is not part of this model, and the request itself is network I/O.
- LegacyInvoice.LegacyEditor.ChangeHeader: the older form wires its `type` select as
  `onChange={(e) => handleChange}`, which never calls the handler, so that field cannot
  change there; the method models `handleChange` itself, as the other header fields call it.
- The clock and the browser store: `now` is a parameter, and the store is a value of
  two optional entries.

## Findings

| source | as written | input that shows it | evidently intended | confidence | as-written member | corrected member |
|---|---|---|---|---|---|---|
| src/AdminPage/RegisterIncomeExpense/InvoiceTable.tsx:65 | `parseInt(event.target.value, 4)` reads the chosen option in base four | choosing 10 rows gives 4; 100 gives 16; 25 gives 2; 5 and 50 give NaN and an empty page | `parseInt(value, 10)`, so the setting equals the option chosen | high, not executed | InvoiceTable.OfferedOptionsMisread | InvoiceTable.IntendedRowsPerPage |
| src/AdminPage/RegisterIncomeExpense/InvoiceTable.tsx:95 | the table body maps over `invoices`, so `paginatedInvoices` is computed but never shown | eleven invoices with the initial ten rows per page render eleven rows | map over `paginatedInvoices`, so a page shows at most rows-per-page rows | medium, not executed | InvoiceTable.AllInvoicesRendered | InvoiceTable.Table.RenderedRowsIntended |

`InvoiceTable.Table.ChangeRowsPerPage` and `InvoiceTable.Table.RenderedRowsAsWritten`
keep the behaviour as written. `InvoiceTable.RowsPerPageIntended` and
`InvoiceTable.Table.RenderedRowsIntended` are the corrected definitions.
