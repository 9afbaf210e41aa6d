/** The table of registered invoices under the editor: a page number and a rows-per-page
    setting, the slice of invoices they select, and the text shown in each cell. */
module InvoiceTable {
  import opened JsText

  /** An invoice as listed by the store: its id and the header fields the table shows.
      `total` is `None` where the store sent no number. */
  datatype InvoiceRecord = InvoiceRecord(id: int, documentNumber: string, customer: string,
                                         ruc: string, transactionType: string,
                                         condition: string, date: string,
                                         total: Option<real>)

  /** The rows-per-page options the pagination control offers. */
  const RowsPerPageOptions: seq<nat> := [5, 10, 25, 50, 100]

  // ---------------------------------------------------------------------------
  // Rows per page
  // ---------------------------------------------------------------------------

  /** `parseInt(value, 4)`, as the change handler reads the chosen option: a value that
      starts with a digit from 4 to 9 has no base-four digit to read and is NaN. */
  function RowsPerPageAsWritten(value: string): (r: Option<int>)
    ensures value != [] && '4' <= value[0] <= '9' ==> r == None
  {
    assert value != [] && '4' <= value[0] <= '9' ==>
             SkipSpaces(value, 0) == 0 && SkipSign(value, 0) == 0
             && SkipDigits(value, 0, 4) == 0;
    ParseInt(value, 4)
  }

  /** The chosen option read in base ten, as the control's options are written: the
      decimal text of any `n` gives back `n`. */
  function RowsPerPageIntended(value: string): (r: Option<int>)
    ensures forall n: nat :: value == NatToString(n) ==> r == Some(n)
  {
    NatTextReadsBack(value);
    ParseInt(value, 10)
  }

  /** Read in base four, the offered options become 4, 16 and 2 rows, or NaN for the
      two options that start with a 5. */
  lemma OfferedOptionsMisread()
    ensures RowsPerPageAsWritten("10") == Some(4)
    ensures RowsPerPageAsWritten("100") == Some(16)
    ensures RowsPerPageAsWritten("25") == Some(2)
    ensures RowsPerPageAsWritten("5") == None
    ensures RowsPerPageAsWritten("50") == None
  {
    OptionReadInBaseFour("10", 2, 4);
    OptionReadInBaseFour("100", 3, 16);
    OptionReadInBaseFour("25", 1, 2);
    OptionReadInBaseFour("5", 0, 0);
    OptionReadInBaseFour("50", 0, 0);
  }

  /** A string starting with a digit is read up to its first character that is not a
      base-four digit; no such digit at all is NaN. */
  lemma OptionReadInBaseFour(s: string, digits: nat, value: nat)
    requires s != [] && '0' <= s[0] <= '9'
    requires digits <= |s| && SkipDigits(s, 0, 4) == digits
    requires ValueOf(s, 0, digits, 4) == value
    ensures RowsPerPageAsWritten(s) == if digits == 0 then None else Some(value)
  {
    assert SkipSpaces(s, 0) == 0 && SkipSign(s, 0) == 0;
  }

  /** Read in base ten, every offered option gives back its own number of rows. */
  lemma IntendedRowsPerPage(k: nat)
    requires k < |RowsPerPageOptions|
    ensures RowsPerPageIntended(NatToString(RowsPerPageOptions[k])) == Some(RowsPerPageOptions[k])
  {
    NatToStringRoundTrip(RowsPerPageOptions[k]);
  }

  // ---------------------------------------------------------------------------
  // The page of invoices
  // ---------------------------------------------------------------------------

  /** `invoices.slice(page * rowsPerPage, page * rowsPerPage + rowsPerPage)`; a NaN
      setting makes both bounds NaN, which `slice` reads as 0. */
  function PageSlice(invoices: seq<InvoiceRecord>, page: int, rowsPerPage: Option<int>)
    : (r: seq<InvoiceRecord>)
    ensures rowsPerPage.None? ==> r == []
    ensures forall x :: x in r ==> x in invoices
    ensures rowsPerPage.Some? && rowsPerPage.value >= 0 ==> |r| <= rowsPerPage.value
  {
    match rowsPerPage
    case None => Slice(invoices, 0, 0)
    case Some(rpp) => Slice(invoices, page * rpp, page * rpp + rpp)
  }

  /** With a page and a setting that are not negative, the page holds the invoices from
      position `page * rowsPerPage` on, at most `rowsPerPage` of them; a NaN setting
      shows none. */
  lemma PageSliceContents(invoices: seq<InvoiceRecord>, page: nat, rowsPerPage: Option<int>)
    requires rowsPerPage.Some? ==> rowsPerPage.value >= 0
    ensures rowsPerPage.None? ==> PageSlice(invoices, page, rowsPerPage) == []
    ensures rowsPerPage.Some? ==>
      var r, from := PageSlice(invoices, page, rowsPerPage), page * rowsPerPage.value;
      |r| <= rowsPerPage.value
      && |r| == (if from < |invoices| then Min(rowsPerPage.value, |invoices| - from) else 0)
      && forall k :: 0 <= k < |r| ==> r[k] == invoices[from + k]
  {
    if rowsPerPage.Some? {
      SliceNonNegative(invoices, page * rowsPerPage.value,
                       page * rowsPerPage.value + rowsPerPage.value);
    }
  }

  // ---------------------------------------------------------------------------
  // Cells
  // ---------------------------------------------------------------------------

  const NotAvailable := "N/A"

  /** `field || 'N/A'` for a text field. */
  function TextCell(field: string): (r: string)
    ensures r == NotAvailable <==> field == "" || field == NotAvailable
    ensures field != "" ==> r == field
  {
    if field == "" then NotAvailable else field
  }

  /** What the total cell shows after "Gs.": the amount, or N/A for a missing amount
      and for zero, which is falsy. */
  datatype TotalCell = Amount(value: real) | TotalNotAvailable

  function TotalCellOf(total: Option<real>): (r: TotalCell)
    ensures r.Amount? <==> total.Some? && total.value != 0.0
    ensures r.Amount? ==> r.value == total.value
  {
    match total
    case Some(v) => if v != 0.0 then Amount(v) else TotalNotAvailable
    case None => TotalNotAvailable
  }

  datatype Row = Row(documentNumber: string, customer: string, ruc: string,
                     transactionType: string, condition: string, date: string,
                     total: TotalCell)

  function RowOf(inv: InvoiceRecord): Row {
    Row(TextCell(inv.documentNumber), TextCell(inv.customer), TextCell(inv.ruc),
        TextCell(inv.transactionType), TextCell(inv.condition), TextCell(inv.date),
        TotalCellOf(inv.total))
  }

  /** One row per invoice given, in order. */
  function RowsOf(invoices: seq<InvoiceRecord>): (r: seq<Row>)
    ensures |r| == |invoices|
    ensures forall k :: 0 <= k < |r| ==> r[k] == RowOf(invoices[k])
  {
    if invoices == [] then [] else [RowOf(invoices[0])] + RowsOf(invoices[1..])
  }

  /** No cell is ever blank: every text cell shows its field or N/A. */
  lemma CellsNeverBlank(inv: InvoiceRecord)
    ensures var row := RowOf(inv);
      row.documentNumber != "" && row.customer != "" && row.ruc != ""
      && row.transactionType != "" && row.condition != "" && row.date != ""
  {
  }

  // ---------------------------------------------------------------------------
  // The table component
  // ---------------------------------------------------------------------------

  class Table {
    var page: int
    var rowsPerPage: Option<int>

    /** Page 0, ten rows per page. */
    constructor ()
      ensures page == 0 && rowsPerPage == Some(10)
    {
      page, rowsPerPage := 0, Some(10);
    }

    /** handleChangePage: the requested page, the same setting. */
    method ChangePage(newPage: int)
      modifies this
      ensures page == newPage && rowsPerPage == old(rowsPerPage)
    {
      page := newPage;
    }

    /** handleChangeRowsPerPage: the option read in base four, and back to page 0. */
    method ChangeRowsPerPage(value: string)
      modifies this
      ensures rowsPerPage == RowsPerPageAsWritten(value) && page == 0
    {
      rowsPerPage := ParseInt(value, 4);
      page := 0;
    }

    /** paginatedInvoices: invoices of the list only, none under a NaN setting, and at
        most as many as the setting. */
    function PaginatedInvoices(invoices: seq<InvoiceRecord>): (r: seq<InvoiceRecord>)
      reads this
      ensures rowsPerPage.None? ==> r == []
      ensures forall x :: x in r ==> x in invoices
      ensures rowsPerPage.Some? && rowsPerPage.value >= 0 ==> |r| <= rowsPerPage.value
    {
      PageSlice(invoices, page, rowsPerPage)
    }

    /** The rows the table body renders: one for every invoice, not only the page's. */
    function RenderedRowsAsWritten(invoices: seq<InvoiceRecord>): (r: seq<Row>)
      reads this
      ensures |r| == |invoices|
    {
      RowsOf(invoices)
    }

    /** The rows the pagination control describes: those of the current page, at most
        the setting's number, each the row of the invoice at its place on that page. */
    function RenderedRowsIntended(invoices: seq<InvoiceRecord>): (r: seq<Row>)
      reads this
      ensures |r| == |PaginatedInvoices(invoices)|
      ensures page >= 0 && rowsPerPage.Some? && rowsPerPage.value >= 0 ==>
        ShowsPage(r, invoices, page, rowsPerPage.value)
    {
      var p, setting := page, rowsPerPage;
      if p >= 0 && setting.Some? && setting.value >= 0 then
        IntendedRowsBounded(invoices, p, setting.value);
        RowsOf(PageSlice(invoices, p, setting))
      else RowsOf(PaginatedInvoices(invoices))
    }
  }

  /** As written, a fresh table with eleven invoices renders all eleven rows although its
      page holds ten. */
  lemma AllInvoicesRendered(invoices: seq<InvoiceRecord>)
    requires |invoices| == 11
    ensures |RowsOf(invoices)| == 11
    ensures |PageSlice(invoices, 0, Some(10))| == 10
  {
    PageSliceContents(invoices, 0, Some(10));
  }

  /** `rows` are the rows of page `page` of `invoices` at `rowsPerPage` rows a page: at
      most that many, each the row of the invoice at its place on the page. */
  predicate ShowsPage(rows: seq<Row>, invoices: seq<InvoiceRecord>, page: nat, rowsPerPage: nat) {
    var from := page * rowsPerPage;
    |rows| <= rowsPerPage && (rows == [] || from + |rows| <= |invoices|)
    && forall k :: 0 <= k < |rows| ==> rows[k] == RowOf(invoices[from + k])
  }

  /** Rendering the page's rows shows at most the setting's number of rows, and exactly
      the rows of the invoices on that page. */
  lemma IntendedRowsBounded(invoices: seq<InvoiceRecord>, page: nat, rowsPerPage: nat)
    ensures ShowsPage(RowsOf(PageSlice(invoices, page, Some(rowsPerPage))), invoices, page, rowsPerPage)
  {
    var from := page * rowsPerPage;
    PageSliceContents(invoices, page, Some(rowsPerPage));
    var ps := PageSlice(invoices, page, Some(rowsPerPage));
    assert ps == [] || from + |ps| <= |invoices|;
    var r := RowsOf(ps);
    assert forall k :: 0 <= k < |r| ==> r[k] == RowOf(ps[k]) && ps[k] == invoices[from + k];
  }
}
