/** The older income/expense editor: five-field detail lines, a header named after the
    client, and totals whose 10% bucket takes a tenth of the subtotal instead of the
    subtotal over 1.1. The per-line bucket rule is shared with the newer editor. */
module LegacyInvoice {
  import opened JsText
  import opened Invoice

  // ---------------------------------------------------------------------------
  // Form state
  // ---------------------------------------------------------------------------

  /** One detail line: every field is the text the user typed or picked. */
  datatype LegacyDetail = LegacyDetail(transactionType: string, quantity: string,
                                       unitPrice: string, taxType: string,
                                       description: string)
  {
    function With(field: LegacyDetailField, value: string): LegacyDetail {
      match field
      case LineTransactionType => this.(transactionType := value)
      case LineQuantity => this.(quantity := value)
      case LineUnitPrice => this.(unitPrice := value)
      case LineTaxType => this.(taxType := value)
      case LineDescription => this.(description := value)
    }
  }

  /** The input names of a line: transaction_type, quantity, unit_price, tax_type,
      description. */
  datatype LegacyDetailField = LineTransactionType | LineQuantity | LineUnitPrice
                             | LineTaxType | LineDescription

  predicate IsBlankLine(d: LegacyDetail) {
    d.transactionType == "" && d.quantity == "" && d.unitPrice == "" && d.taxType == ""
    && d.description == ""
  }

  /** The line the editor adds: all five fields empty. */
  method NewBlankLine() returns (d: LegacyDetail)
    ensures IsBlankLine(d)
  {
    d := LegacyDetail("", "", "", "", "");
  }

  datatype LegacyHeader = LegacyHeader(client: string, ruc: string, email: string,
                                       condition: string, kind: string,
                                       documentType: string, documentNumber: string,
                                       date: string)
  {
    function With(field: LegacyHeaderField, value: string): LegacyHeader {
      match field
      case Client => this.(client := value)
      case HeaderRuc => this.(ruc := value)
      case HeaderEmail => this.(email := value)
      case HeaderCondition => this.(condition := value)
      case Kind => this.(kind := value)
      case HeaderDocumentType => this.(documentType := value)
      case HeaderDocumentNumber => this.(documentNumber := value)
      case HeaderDate => this.(date := value)
    }
  }

  /** The input names of the header: client, ruc, email, condition, type, documentType,
      documentNumber, date. */
  datatype LegacyHeaderField = Client | HeaderRuc | HeaderEmail | HeaderCondition | Kind
                             | HeaderDocumentType | HeaderDocumentNumber | HeaderDate

  predicate IsEmptyHeader(h: LegacyHeader) {
    h.client == "" && h.ruc == "" && h.email == "" && h.condition == "" && h.kind == ""
    && h.documentType == "" && h.documentNumber == "" && h.date == ""
  }

  // ---------------------------------------------------------------------------
  // Totals
  // ---------------------------------------------------------------------------

  /** What one line adds: the shared bucket rule with the "IVA 10%" line taking a
      tenth of its subtotal. The transaction type and description play no part. */
  function LegacyContribution(d: LegacyDetail): Buckets {
    LineBuckets(d.quantity, d.unitPrice, d.taxType, TimesOneTenth)
  }

  /** The accumulators after visiting the lines in order. */
  function LegacySumBuckets(ds: seq<LegacyDetail>): Buckets {
    if |ds| == 0 then NoBuckets
    else
      var acc, line := LegacySumBuckets(ds[..|ds| - 1]), LegacyContribution(ds[|ds| - 1]);
      Buckets(acc.exempt + line.exempt, acc.tax5 + line.tax5, acc.tax10 + line.tax10)
  }

  /** The totals the older editor shows: the grand total is the sum of the buckets. */
  function LegacyTotalsOf(ds: seq<LegacyDetail>): (t: Totals)
    ensures t.total == t.exempt + t.tax5 + t.tax10
  {
    var b := LegacySumBuckets(ds);
    Totals(b.exempt, b.tax5, b.tax10, b.exempt + b.tax5 + b.tax10)
  }

  /** calculateTotals of the older editor: the same single pass, with a tenth of the
      subtotal going to the 10% bucket. */
  method LegacyCalculateTotals(details: seq<LegacyDetail>) returns (t: Totals)
    ensures t == LegacyTotalsOf(details)
  {
    var exempt, tax5, tax10 := 0.0, 0.0, 0.0;
    var i := 0;
    while i < |details|
      invariant 0 <= i <= |details|
      invariant Buckets(exempt, tax5, tax10) == LegacySumBuckets(details[..i])
    {
      var d := details[i];
      var subtotal := ParseFloatOrZero(d.quantity) * ParseFloatOrZero(d.unitPrice);
      if d.taxType == "Exento" {
        exempt := exempt + subtotal;
      } else if d.taxType == "IVA 5%" {
        tax5 := tax5 + subtotal * 0.05;
      } else if d.taxType == "IVA 10%" {
        tax10 := tax10 + subtotal * 0.1;
      }
      assert details[..i + 1][..i] == details[..i];
      i := i + 1;
    }
    assert details[..i] == details;
    t := Totals(exempt, tax5, tax10, exempt + tax5 + tax10);
  }

  lemma LegacyTotalsOfEmpty()
    ensures LegacyTotalsOf([]) == ZeroTotals
  {
  }

  lemma LegacySumBucketsSingle(d: LegacyDetail)
    ensures LegacySumBuckets([d]) == LegacyContribution(d)
  {
    assert [d][..0] == [];
  }

  /** One line on its own: an exempt line counts its whole subtotal, a 5% line five
      percent of it, a 10% line a tenth of it, any other label nothing; the grand total
      is what the bucket received. */
  lemma LegacySingleLine(d: LegacyDetail)
    ensures var t, sub := LegacyTotalsOf([d]), Subtotal(d.quantity, d.unitPrice);
      && (d.taxType == "Exento" ==> t == Totals(sub, 0.0, 0.0, sub))
      && (d.taxType == "IVA 5%" ==> t == Totals(0.0, sub * 0.05, 0.0, sub * 0.05))
      && (d.taxType == "IVA 10%" ==> t == Totals(0.0, 0.0, sub * 0.1, sub * 0.1))
      && (d.taxType != "Exento" && d.taxType != "IVA 5%" && d.taxType != "IVA 10%" ==> t == ZeroTotals)
  {
    LegacySumBucketsSingle(d);
  }

  /** A quantity or unit price that does not parse counts as zero: the line adds
      nothing. */
  lemma {:induction false} LegacyUnparsedAddsNothing(ds: seq<LegacyDetail>, d: LegacyDetail)
    requires ParseFloat(d.quantity) == None || ParseFloat(d.unitPrice) == None
    ensures LegacyTotalsOf(ds + [d]) == LegacyTotalsOf(ds)
  {
    assert Subtotal(d.quantity, d.unitPrice) == 0.0;
    assert LegacyContribution(d) == NoBuckets;
    assert (ds + [d])[..|ds|] == ds;
  }

  /** A blank line adds nothing to the totals. */
  lemma {:induction false} LegacyAppendBlank(ds: seq<LegacyDetail>, d: LegacyDetail)
    requires IsBlankLine(d)
    ensures LegacyTotalsOf(ds + [d]) == LegacyTotalsOf(ds)
  {
    assert LegacyContribution(d) == NoBuckets;
    assert (ds + [d])[..|ds|] == ds;
  }

  /** The same "IVA 10%" line of 1 x 110 counts 11 here and 100 in the newer editor. */
  lemma TenPercentRulesDiffer()
    ensures var old_line := LegacyDetail("", "1", "110", "IVA 10%", "");
            var new_line := Detail("1", "110", "IVA 10%", "");
      LegacyTotalsOf([old_line]).tax10 == 11.0 && TotalsOf([new_line]).tax10 == 100.0
  {
    var old_line := LegacyDetail("", "1", "110", "IVA 10%", "");
    ParseSmall("1", 1);
    ParseSmall("110", 110);
    LegacySingleLine(old_line);
    TotalIsNotSumOfSubtotals();
  }

  /** The lines and totals of a fresh form: one blank line, zero totals. */
  method FreshLegacyLines() returns (details: seq<LegacyDetail>, t: Totals)
    ensures |details| == 1 && IsBlankLine(details[0])
    ensures t == ZeroTotals && t == LegacyTotalsOf(details)
  {
    var blank := NewBlankLine();
    LegacySumBucketsSingle(blank);
    assert LegacyContribution(blank) == NoBuckets;
    details, t := [blank], ZeroTotals;
  }

  method NewEmptyHeader() returns (h: LegacyHeader)
    ensures IsEmptyHeader(h)
  {
    h := LegacyHeader("", "", "", "", "", "", "", "");
  }

  // ---------------------------------------------------------------------------
  // The editor component
  // ---------------------------------------------------------------------------

  class LegacyEditor {
    var formData: LegacyHeader
    var transactionDetails: seq<LegacyDetail>
    var totals: Totals

    /** The totals shown are those of the current lines. */
    ghost predicate Valid()
      reads this
    {
      totals == LegacyTotalsOf(transactionDetails)
    }

    /** An empty header, one blank line, zero totals. */
    constructor ()
      ensures Valid()
      ensures IsEmptyHeader(formData) && totals == ZeroTotals
      ensures |transactionDetails| == 1 && IsBlankLine(transactionDetails[0])
    {
      var header := NewEmptyHeader();
      var details, t := FreshLegacyLines();
      formData, transactionDetails, totals := header, details, t;
    }

    /** handleChange with an index: replaces one field of one line and recomputes the
        totals from the updated lines; the header is untouched. */
    method ChangeDetail(index: nat, field: LegacyDetailField, value: string)
      requires index < |transactionDetails|
      modifies this
      ensures Valid()
      ensures transactionDetails
           == old(transactionDetails)[index := old(transactionDetails)[index].With(field, value)]
      ensures formData == old(formData)
    {
      var header := formData;
      var updated := transactionDetails[index := transactionDetails[index].With(field, value)];
      transactionDetails := updated;
      totals := LegacyCalculateTotals(updated);
      assert formData == header;
    }

    /** handleChange without an index: replaces one header field; lines and totals are
        untouched. */
    method ChangeHeader(field: LegacyHeaderField, value: string)
      requires Valid()
      modifies this
      ensures Valid()
      ensures formData == old(formData).With(field, value)
      ensures transactionDetails == old(transactionDetails) && totals == old(totals)
    {
      formData := formData.With(field, value);
    }

    /** addTransactionDetail: appends one blank five-field line; the totals are not
        recomputed and stay right because a blank line adds nothing. */
    method AddTransactionDetail()
      requires Valid()
      modifies this
      ensures Valid()
      ensures |transactionDetails| == |old(transactionDetails)| + 1
      ensures transactionDetails[..|old(transactionDetails)|] == old(transactionDetails)
      ensures IsBlankLine(transactionDetails[|old(transactionDetails)|])
      ensures totals == old(totals) && formData == old(formData)
    {
      var header, t := formData, totals;
      var blank := NewBlankLine();
      LegacyAppendBlank(transactionDetails, blank);
      var old_details := transactionDetails;
      transactionDetails := transactionDetails + [blank];
      assert transactionDetails[..|old_details|] == old_details;
      assert formData == header && totals == t;
    }
  }
}
