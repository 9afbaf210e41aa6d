/** The income/expense invoice editor: a header form, an ordered list of detail lines
    typed in as text, and the tax totals derived from the lines. */
module Invoice {
  import opened JsText

  // ---------------------------------------------------------------------------
  // Form state
  // ---------------------------------------------------------------------------

  /** One detail line as the form holds it: every field is the text the user typed or
      picked. The tax label is one of "Exento", "IVA 5%", "IVA 10%", or "" before a pick. */
  datatype Detail = Detail(quantity: string, unitPrice: string, taxType: string, description: string)
  {
    /** The line with one named field replaced. */
    function With(field: DetailField, value: string): Detail {
      match field
      case Quantity => this.(quantity := value)
      case UnitPrice => this.(unitPrice := value)
      case TaxType => this.(taxType := value)
      case Description => this.(description := value)
    }
  }

  /** The input names of a detail line: quantity, unit_price, tax_type, description. */
  datatype DetailField = Quantity | UnitPrice | TaxType | Description

  const BlankDetail := Detail("", "", "", "")

  /** Every field of the line is empty, as in a freshly added line. */
  predicate IsBlank(d: Detail) {
    d.quantity == "" && d.unitPrice == "" && d.taxType == "" && d.description == ""
  }

  /** The line the editor adds, produced field by field. */
  method NewBlankDetail() returns (d: Detail)
    ensures IsBlank(d)
  {
    d := BlankDetail;
  }

  datatype Header = Header(customer: string, ruc: string, email: string, condition: string,
                           transactionType: string, documentType: string,
                           documentNumber: string, date: string)
  {
    function With(field: HeaderField, value: string): Header {
      match field
      case Customer => this.(customer := value)
      case Ruc => this.(ruc := value)
      case Email => this.(email := value)
      case Condition => this.(condition := value)
      case TransactionType => this.(transactionType := value)
      case DocumentType => this.(documentType := value)
      case DocumentNumber => this.(documentNumber := value)
      case Date => this.(date := value)
    }
  }

  /** The input names of the header: customer, ruc, email, condition, transaction_type,
      document_type, document_number, date. */
  datatype HeaderField = Customer | Ruc | Email | Condition | TransactionType
                       | DocumentType | DocumentNumber | Date

  const EmptyHeader := Header("", "", "", "", "", "", "", "")

  // ---------------------------------------------------------------------------
  // Totals
  // ---------------------------------------------------------------------------

  /** The three accumulators: exempt revenue, the 5% bucket and the 10% bucket. */
  datatype Buckets = Buckets(exempt: real, tax5: real, tax10: real)
  {
    function Plus(other: Buckets): Buckets {
      Buckets(exempt + other.exempt, tax5 + other.tax5, tax10 + other.tax10)
    }
  }

  const NoBuckets := Buckets(0.0, 0.0, 0.0)

  datatype Totals = Totals(exempt: real, tax5: real, tax10: real, total: real)
  {
    function Plus(other: Totals): Totals {
      Totals(exempt + other.exempt, tax5 + other.tax5, tax10 + other.tax10, total + other.total)
    }
  }

  const ZeroTotals := Totals(0.0, 0.0, 0.0, 0.0)

  /** What an "IVA 10%" line adds to its bucket: this editor divides the subtotal by 1.1,
      the older editor multiplies it by 0.1. */
  datatype TenPercentRule = DivideByOnePointOne | TimesOneTenth

  /** `quantity * unitPrice`, each read with `parseFloat(...) || 0`. */
  function Subtotal(quantity: string, unitPrice: string): real {
    ParseFloatOrZero(quantity) * ParseFloatOrZero(unitPrice)
  }

  /** What one line adds to the accumulators, by its tax label. */
  function LineBuckets(quantity: string, unitPrice: string, taxType: string,
                       rule: TenPercentRule): Buckets
  {
    var subtotal := Subtotal(quantity, unitPrice);
    if taxType == "Exento" then Buckets(subtotal, 0.0, 0.0)
    else if taxType == "IVA 5%" then Buckets(0.0, subtotal * 0.05, 0.0)
    else if taxType == "IVA 10%" then
      Buckets(0.0, 0.0, if rule == DivideByOnePointOne then subtotal / 1.1 else subtotal * 0.1)
    else NoBuckets
  }

  function Contribution(d: Detail): Buckets {
    LineBuckets(d.quantity, d.unitPrice, d.taxType, DivideByOnePointOne)
  }

  /** The accumulators after visiting the lines in order. */
  function SumBuckets(ds: seq<Detail>): Buckets {
    if |ds| == 0 then NoBuckets
    else
      var acc, line := SumBuckets(ds[..|ds| - 1]), Contribution(ds[|ds| - 1]);
      Buckets(acc.exempt + line.exempt, acc.tax5 + line.tax5, acc.tax10 + line.tax10)
  }

  /** The totals the editor shows for a list of lines: the grand total is the sum of the
      three buckets, not of the line subtotals. */
  function TotalsOf(ds: seq<Detail>): (t: Totals)
    ensures t.total == t.exempt + t.tax5 + t.tax10
  {
    var b := SumBuckets(ds);
    Totals(b.exempt, b.tax5, b.tax10, b.exempt + b.tax5 + b.tax10)
  }


  /** calculateTotals: one pass over the lines, accumulating into the three buckets, and
      the grand total as the sum of the buckets. */
  method CalculateTotals(details: seq<Detail>) returns (t: Totals)
    ensures t == TotalsOf(details)
  {
    var exempt, tax5, tax10 := 0.0, 0.0, 0.0;
    var i := 0;
    while i < |details|
      invariant 0 <= i <= |details|
      invariant Buckets(exempt, tax5, tax10) == SumBuckets(details[..i])
    {
      var d := details[i];
      var subtotal := ParseFloatOrZero(d.quantity) * ParseFloatOrZero(d.unitPrice);
      if d.taxType == "Exento" {
        exempt := exempt + subtotal;
      } else if d.taxType == "IVA 5%" {
        tax5 := tax5 + subtotal * 0.05;
      } else if d.taxType == "IVA 10%" {
        tax10 := tax10 + subtotal / 1.1;
      }
      assert details[..i + 1][..i] == details[..i];
      i := i + 1;
    }
    assert details[..i] == details;
    t := Totals(exempt, tax5, tax10, exempt + tax5 + tax10);
  }

  /** No lines, no totals. */
  lemma TotalsOfEmpty()
    ensures TotalsOf([]) == ZeroTotals
  {
  }

  /** Accumulating over two lists one after the other is adding their sums. */
  lemma {:induction false} SumBucketsAppend(a: seq<Detail>, b: seq<Detail>)
    ensures SumBuckets(a + b) == SumBuckets(a).Plus(SumBuckets(b))
    decreases |b|
  {
    if |b| == 0 {
      assert a + b == a;
    } else {
      var b' := b[..|b| - 1];
      SumBucketsAppend(a, b');
      assert (a + b)[..|a + b| - 1] == a + b';
      assert (a + b)[|a + b| - 1] == b[|b| - 1];
    }
  }

  /** The totals of two lists placed one after the other are the sums of their totals. */
  lemma {:induction false} TotalsAdditive(a: seq<Detail>, b: seq<Detail>)
    ensures TotalsOf(a + b) == TotalsOf(a).Plus(TotalsOf(b))
  {
    SumBucketsAppend(a, b);
    TotalsOfFields(a);
    TotalsOfFields(b);
    TotalsOfFields(a + b);
    var s, t, u := TotalsOf(a), TotalsOf(b), TotalsOf(a + b);
    assert u.exempt == s.exempt + t.exempt && u.tax5 == s.tax5 + t.tax5;
    assert u.tax10 == s.tax10 + t.tax10 && u.total == s.total + t.total;
    PlusByFields(s, t, u);
  }

  /** No total is negative while no line's subtotal is. */
  lemma {:induction false} TotalsNonNegative(ds: seq<Detail>)
    requires forall k :: 0 <= k < |ds| ==> Subtotal(ds[k].quantity, ds[k].unitPrice) >= 0.0
    ensures var t := TotalsOf(ds);
      t.exempt >= 0.0 && t.tax5 >= 0.0 && t.tax10 >= 0.0 && t.total >= 0.0
  {
    if |ds| > 0 {
      var init := ds[..|ds| - 1];
      assert forall k :: 0 <= k < |init| ==> init[k] == ds[k];
      TotalsNonNegative(init);
      var b, c := SumBuckets(init), Contribution(ds[|ds| - 1]);
      assert c.exempt >= 0.0 && c.tax5 >= 0.0 && c.tax10 >= 0.0;
      assert SumBuckets(ds) == Buckets(b.exempt + c.exempt, b.tax5 + c.tax5, b.tax10 + c.tax10);
    }
  }

  lemma PlusByFields(s: Totals, t: Totals, u: Totals)
    requires u.exempt == s.exempt + t.exempt && u.tax5 == s.tax5 + t.tax5
    requires u.tax10 == s.tax10 + t.tax10 && u.total == s.total + t.total
    ensures u == s.Plus(t)
  {
  }

  /** The shown totals are the accumulators and their sum. */
  lemma TotalsOfFields(ds: seq<Detail>)
    ensures var t, b := TotalsOf(ds), SumBuckets(ds);
      t.exempt == b.exempt && t.tax5 == b.tax5 && t.tax10 == b.tax10
      && t.total == b.exempt + b.tax5 + b.tax10
  {
  }

  lemma SumBucketsSingle(d: Detail)
    ensures SumBuckets([d]) == Contribution(d)
  {
    assert [d][..0] == [];
    assert NoBuckets.Plus(Contribution(d)) == Contribution(d);
  }

  /** One line on its own: an exempt line counts its whole subtotal, a 5% line five
      percent of it, a 10% line the subtotal over 1.1, any other label nothing; in each
      case the grand total is what the bucket received. */
  lemma SingleLine(d: Detail)
    ensures var t, sub := TotalsOf([d]), Subtotal(d.quantity, d.unitPrice);
      && (d.taxType == "Exento" ==> t == Totals(sub, 0.0, 0.0, sub))
      && (d.taxType == "IVA 5%" ==> t == Totals(0.0, sub * 0.05, 0.0, sub * 0.05))
      && (d.taxType == "IVA 10%" ==> t == Totals(0.0, 0.0, sub / 1.1, sub / 1.1))
      && (d.taxType != "Exento" && d.taxType != "IVA 5%" && d.taxType != "IVA 10%" ==> t == ZeroTotals)
  {
    SumBucketsSingle(d);
  }

  /** A quantity or unit price that does not parse counts as zero, so a line holding
      one adds nothing to the totals and they stay numbers. */
  lemma {:induction false} UnparsedAddsNothing(ds: seq<Detail>, d: Detail)
    requires ParseFloat(d.quantity) == None || ParseFloat(d.unitPrice) == None
    ensures TotalsOf(ds + [d]) == TotalsOf(ds)
  {
    assert Subtotal(d.quantity, d.unitPrice) == 0.0;
    assert Contribution(d) == NoBuckets;
    assert (ds + [d])[..|ds|] == ds;
    assert SumBuckets(ds + [d]) == SumBuckets(ds).Plus(NoBuckets);
  }

  /** The grand total is the sum of the buckets, not the sum of the subtotals: one
      "IVA 10%" line of 1 x 110 totals 100. */
  lemma TotalIsNotSumOfSubtotals()
    ensures var d := Detail("1", "110", "IVA 10%", "");
      Subtotal(d.quantity, d.unitPrice) == 110.0 && TotalsOf([d]).total == 100.0
  {
    var d := Detail("1", "110", "IVA 10%", "");
    ParseSmall("1", 1);
    ParseSmall("110", 110);
    assert Subtotal(d.quantity, d.unitPrice) == 110.0;
    SingleLine(d);
  }

  lemma ParseSmall(s: string, n: nat)
    requires s == NatToString(n)
    ensures ParseFloatOrZero(s) == n as real
  {
    NatToStringRoundTrip(n);
  }

  // ---------------------------------------------------------------------------
  // List operations
  // ---------------------------------------------------------------------------

  /** `details.filter((_, i) => i !== index)` */
  function Without(ds: seq<Detail>, index: int): (r: seq<Detail>)
    ensures |r| == if 0 <= index < |ds| then |ds| - 1 else |ds|
    ensures forall x :: x in r ==> x in ds
  {
    if ds == [] then []
    else (if index == 0 then [] else [ds[0]]) + Without(ds[1..], index - 1)
  }

  /** Removing an index in range drops exactly that line and keeps the others in order;
      an index out of range changes nothing. */
  lemma {:induction false} WithoutIndex(ds: seq<Detail>, index: int)
    ensures 0 <= index < |ds| ==> Without(ds, index) == ds[..index] + ds[index + 1..]
    ensures !(0 <= index < |ds|) ==> Without(ds, index) == ds
  {
    if ds != [] {
      WithoutIndex(ds[1..], index - 1);
      if index == 0 {
        assert ds[1..] == ds[..0] + ds[1..];
      } else if 0 < index < |ds| {
        assert ds[1..][..index - 1] + ds[1..][index..] == ds[1..index] + ds[index + 1..];
        assert [ds[0]] + ds[1..index] == ds[..index];
      } else {
        assert [ds[0]] + ds[1..] == ds;
      }
    }
  }

  /** After a removal the totals are those of the list without the removed line's
      contribution. */
  lemma {:induction false} RemovedTotals(ds: seq<Detail>, index: int)
    requires 0 <= index < |ds|
    ensures TotalsOf(ds) == TotalsOf(Without(ds, index)).Plus(TotalsOf([ds[index]]))
  {
    WithoutIndex(ds, index);
    var pre, mid, post := ds[..index], [ds[index]], ds[index + 1..];
    assert ds == (pre + mid) + post;
    assert Without(ds, index) == pre + post;
    TotalsAdditive(pre + mid, post);
    TotalsAdditive(pre, mid);
    TotalsAdditive(pre, post);
    var p, m, q := TotalsOf(pre), TotalsOf(mid), TotalsOf(post);
    var all, kept := TotalsOf(ds), TotalsOf(pre + post);
    assert all.exempt == kept.exempt + m.exempt;
    assert all.tax5 == kept.tax5 + m.tax5;
    assert all.tax10 == kept.tax10 + m.tax10;
    assert all.total == kept.total + m.total;
  }

  /** A blank line adds nothing to the totals. */
  lemma {:induction false} AppendBlank(ds: seq<Detail>, d: Detail)
    requires IsBlank(d)
    ensures TotalsOf(ds + [d]) == TotalsOf(ds)
  {
    assert Contribution(d) == NoBuckets;
    assert (ds + [d])[..|ds|] == ds;
    assert SumBuckets(ds + [d]) == SumBuckets(ds).Plus(NoBuckets);
  }

  lemma OneBlankLine(d: Detail)
    requires IsBlank(d)
    ensures TotalsOf([d]) == ZeroTotals
  {
    SumBucketsSingle(d);
    assert Contribution(d) == NoBuckets;
  }

  /** The lines and totals of a fresh form: one blank line, zero totals. */
  method FreshLines() returns (details: seq<Detail>, t: Totals)
    ensures |details| == 1 && IsBlank(details[0])
    ensures t == ZeroTotals && t == TotalsOf(details)
  {
    var blank := NewBlankDetail();
    OneBlankLine(blank);
    details, t := [blank], ZeroTotals;
  }

  // ---------------------------------------------------------------------------
  // The payload posted to the invoice store
  // ---------------------------------------------------------------------------

  /** A detail line as posted: quantity through `parseInt(_, 10)`, unit price through
      `parseFloat` (both `None` for NaN), and the tax label turned into its code. */
  datatype PayloadDetail = PayloadDetail(quantity: Option<int>, unitPrice: Option<real>,
                                         description: string, taxType: string)

  datatype Payload = Payload(headers: Header, details: seq<PayloadDetail>)

  /** "IVA 10%" is posted as "iva10", "IVA 5%" as "iva5", and every other label,
      the empty one included, as "exento". */
  function TaxCode(tax: string): (code: string)
    ensures code == "iva10" <==> tax == "IVA 10%"
    ensures code == "iva5" <==> tax == "IVA 5%"
    ensures code == "exento" <==> tax != "IVA 10%" && tax != "IVA 5%"
  {
    if tax == "IVA 10%" then "iva10" else if tax == "IVA 5%" then "iva5" else "exento"
  }

  function ToPayloadDetail(d: Detail): PayloadDetail {
    PayloadDetail(ParseInt(d.quantity, 10), ParseFloat(d.unitPrice), d.description, TaxCode(d.taxType))
  }

  /** The posted lines: one per form line, in the same order. */
  function PayloadDetails(ds: seq<Detail>): (r: seq<PayloadDetail>)
    ensures |r| == |ds|
    ensures forall i :: 0 <= i < |ds| ==> r[i] == ToPayloadDetail(ds[i])
  {
    if ds == [] then [] else [ToPayloadDetail(ds[0])] + PayloadDetails(ds[1..])
  }

  /** A line whose label was never picked is posted as exempt although it adds nothing
      to the shown totals. */
  lemma UnlabelledPostedExempt(d: Detail)
    requires d.taxType == ""
    ensures ToPayloadDetail(d).taxType == "exento"
    ensures TotalsOf([d]) == ZeroTotals
  {
    SingleLine(d);
  }

  // ---------------------------------------------------------------------------
  // The editor component
  // ---------------------------------------------------------------------------

  class Editor {
    var formData: Header
    var transactionDetails: seq<Detail>
    var totals: Totals

    /** The totals shown are never stale: they are always those of the current lines. */
    ghost predicate Valid()
      reads this
    {
      totals == TotalsOf(transactionDetails)
    }

    /** An empty header, one blank line, zero totals. */
    constructor ()
      ensures Valid()
      ensures formData == EmptyHeader && totals == ZeroTotals
      ensures |transactionDetails| == 1 && IsBlank(transactionDetails[0])
    {
      var details, t := FreshLines();
      formData, transactionDetails, totals := EmptyHeader, details, t;
    }

    /** handleChange with an index: replaces one field of one line and recomputes the
        totals from the updated lines; the header is untouched. */
    method ChangeDetail(index: nat, field: DetailField, value: string)
      requires index < |transactionDetails|
      modifies this
      ensures Valid()
      ensures transactionDetails
           == old(transactionDetails)[index := old(transactionDetails)[index].With(field, value)]
      ensures formData == old(formData)
    {
      var updated := transactionDetails[index := transactionDetails[index].With(field, value)];
      transactionDetails := updated;
      totals := CalculateTotals(updated);
    }

    /** handleChange without an index: replaces one header field; lines and totals are
        untouched. */
    method ChangeHeader(field: HeaderField, value: string)
      requires Valid()
      modifies this
      ensures Valid()
      ensures formData == old(formData).With(field, value)
      ensures transactionDetails == old(transactionDetails) && totals == old(totals)
    {
      formData := formData.With(field, value);
    }

    /** addTransactionDetail: appends one blank line; the totals are not recomputed and
        stay right because a blank line adds nothing. */
    method AddTransactionDetail()
      requires Valid()
      modifies this
      ensures Valid()
      ensures |transactionDetails| == |old(transactionDetails)| + 1
      ensures transactionDetails[..|old(transactionDetails)|] == old(transactionDetails)
      ensures IsBlank(transactionDetails[|old(transactionDetails)|])
      ensures totals == old(totals) && formData == old(formData)
    {
      var header, t := formData, totals;
      var blank := NewBlankDetail();
      AppendBlank(transactionDetails, blank);
      var old_details := transactionDetails;
      transactionDetails := transactionDetails + [blank];
      assert transactionDetails[..|old_details|] == old_details;
      assert formData == header && totals == t;
    }

    /** removeTransactionDetail: filters out the line at `index` and recomputes. */
    method RemoveTransactionDetail(index: int)
      modifies this
      ensures Valid()
      ensures transactionDetails == Without(old(transactionDetails), index)
      ensures formData == old(formData)
    {
      var header := formData;
      var updated := Without(transactionDetails, index);
      transactionDetails := updated;
      totals := CalculateTotals(updated);
      assert formData == header;
    }

    /** The body of the POST request built from the current form. */
    function BuildPayload(): (p: Payload)
      reads this
      ensures p.headers == formData
      ensures |p.details| == |transactionDetails|
      ensures forall i :: 0 <= i < |transactionDetails| ==>
                p.details[i] == ToPayloadDetail(transactionDetails[i])
    {
      Payload(formData, PayloadDetails(transactionDetails))
    }

    /** handleSubmit: posts the payload; when the store accepts it, the form goes back to
        an empty header, one blank line and zero totals; otherwise nothing changes. */
    method Submit(accepted: bool) returns (posted: Payload)
      requires Valid()
      modifies this
      ensures Valid()
      ensures posted == old(BuildPayload())
      ensures accepted ==> formData == EmptyHeader && totals == ZeroTotals
                           && |transactionDetails| == 1 && IsBlank(transactionDetails[0])
      ensures !accepted ==> formData == old(formData)
                            && transactionDetails == old(transactionDetails) && totals == old(totals)
    {
      posted := BuildPayload();
      if accepted {
        var details, t := FreshLines();
        formData, transactionDetails, totals := EmptyHeader, details, t;
      }
    }
  }
}
