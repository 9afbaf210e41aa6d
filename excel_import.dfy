/** The package bulk import: every spreadsheet row is shaped into a package record with
    defaults for the missing or blank cells, the batch is checked, and it is posted only
    when no package in it is invalid. */
module ExcelImport {
  import opened JsText

  /** A spreadsheet row as the sheet reader hands it over: every cell of a known column is
      text (an empty cell is ""), and a column the sheet lacks has no key at all. */
  type Row = map<string, string>

  /** A package as posted. Prices are `None` where `Number(cell)` is NaN. */
  datatype Package = Package(name: string, description: string,
                             costPrice: Option<real>, sellPrice: Option<real>,
                             city: string, country: string,
                             includedServices: seq<string>, imageUrl: string)

  const DefaultName := "Sin nombre"
  const DefaultDescription := "Descripción no disponible"
  const DefaultCity := "Desconocida"
  const DefaultCountry := "Desconocido"
  const DefaultServices := ["No especificado"]
  const DefaultImage := "https://placehold.co/200"

  /** `row[key]?.trim() || fallback`: the trimmed cell, or the fallback when the column is
      missing or the cell is blank. */
  function TrimmedOr(row: Row, key: string, fallback: string): (r: string)
    ensures key in row && Trim(row[key]) != "" ==> r == Trim(row[key])
    ensures key !in row || Trim(row[key]) == "" ==> r == fallback
    ensures fallback != "" ==> r != ""
    ensures r != fallback ==> r != "" && !IsSpace(r[0]) && !IsSpace(r[|r| - 1])
  {
    if key in row && Trim(row[key]) != "" then Trim(row[key]) else fallback
  }

  /** `row[key] ? Number(row[key]) : 0`: a present non-empty cell is converted as
      `Number` does (NaN included), anything else is 0. */
  function PriceOf(row: Row, key: string): (r: Option<real>)
    ensures key !in row || row[key] == "" ==> r == Some(0.0)
    ensures key in row && row[key] != "" ==> r == ToNumber(row[key])
  {
    if key in row && row[key] != "" then ToNumber(row[key]) else Some(0.0)
  }

  /** `cell.split(',').map(s => s.trim())` */
  function Services(cell: string): (r: seq<string>)
    ensures |r| == Count(cell, ',') + 1
    ensures forall k :: 0 <= k < |r| ==> r[k] == Trim(Split(cell, ',')[k])
  {
    TrimAll(Split(cell, ','))
  }

  function TrimAll(pieces: seq<string>): (r: seq<string>)
    ensures |r| == |pieces|
    ensures forall k :: 0 <= k < |r| ==> r[k] == Trim(pieces[k])
  {
    if pieces == [] then [] else [Trim(pieces[0])] + TrimAll(pieces[1..])
  }

  /** A text cell gives its comma-separated pieces, trimmed; a missing column gives the
      placeholder list. */
  function ServicesOf(row: Row): (r: seq<string>)
    ensures "included_services" in row ==> r == Services(row["included_services"])
    ensures "included_services" !in row ==> r == DefaultServices
    ensures |r| >= 1 && forall k :: 0 <= k < |r| ==> Tidy(r[k], ',')
  {
    if "included_services" in row then
      (ServicesShape(row["included_services"]); Services(row["included_services"]))
    else DefaultServices
  }

  /** `image_url || default` */
  function ImageOf(row: Row): (r: string)
    ensures r != ""
    ensures r == DefaultImage || ("image_url" in row && r == row["image_url"])
    ensures r == DefaultImage <==>
      "image_url" !in row || row["image_url"] == "" || row["image_url"] == DefaultImage
  {
    if "image_url" in row && row["image_url"] != "" then row["image_url"] else DefaultImage
  }

  /** cleanRowData, without the two dates. Whatever the row, the defaults leave no blank
      city, country or image, and at least one tidy service. */
  function CleanRow(row: Row): (p: Package)
    ensures p.city != "" && p.country != "" && p.imageUrl != ""
    ensures |p.includedServices| >= 1
    ensures forall k :: 0 <= k < |p.includedServices| ==> Tidy(p.includedServices[k], ',')
  {
    Package(TrimmedOr(row, "name", DefaultName),
            TrimmedOr(row, "description", DefaultDescription),
            PriceOf(row, "cost_price"),
            PriceOf(row, "sell_price"),
            TrimmedOr(row, "city", DefaultCity),
            TrimmedOr(row, "country", DefaultCountry),
            ServicesOf(row),
            ImageOf(row))
  }

  /** `data.map(cleanRowData)`: one package per row, in row order. */
  function CleanRows(rows: seq<Row>): (r: seq<Package>)
    ensures |r| == |rows|
    ensures forall i :: 0 <= i < |rows| ==> r[i] == CleanRow(rows[i])
  {
    if rows == [] then [] else [CleanRow(rows[0])] + CleanRows(rows[1..])
  }

  /** The validation rule applied before posting. A package made only of the defaults
      passes it. */
  predicate Invalid(p: Package)
    ensures (p.name == DefaultName && p.description == DefaultDescription
             && p.city != "" && p.country != "" && p.includedServices != []) ==> !Invalid(p)
  {
    assert |DefaultName| == 10 && |DefaultDescription| == 25;
    |p.name| < 3 || |p.description| < 10 || p.city == "" || p.country == ""
    || |p.includedServices| == 0
  }

  /** A cleaned package always has a city, a country and at least one service, so it is
      invalid exactly when a name shorter than three characters or a description shorter
      than ten was typed in. The defaults themselves are long enough. */
  lemma CleanedInvalidIff(row: Row)
    ensures Invalid(CleanRow(row)) <==>
      ("name" in row && 0 < |Trim(row["name"])| < 3)
      || ("description" in row && 0 < |Trim(row["description"])| < 10)
  {
    var p := CleanRow(row);
    assert |DefaultName| == 10 && |DefaultDescription| == 25;
    assert p.city != "" && p.country != "";
    assert |p.includedServices| >= 1;
  }

  /** `formattedData.filter(...)`: the invalid packages, in order. */
  function InvalidPackages(ps: seq<Package>): (r: seq<Package>)
    ensures forall k :: 0 <= k < |r| ==> Invalid(r[k]) && r[k] in ps
    ensures forall i :: 0 <= i < |ps| && Invalid(ps[i]) ==> ps[i] in r
    ensures |r| <= |ps|
  {
    if ps == [] then []
    else (if Invalid(ps[0]) then [ps[0]] else []) + InvalidPackages(ps[1..])
  }

  datatype Outcome =
    | NoToken                          // no stored token: nothing is read or posted
    | Rejected(invalid: seq<Package>)  // some package is invalid: nothing is posted
    | Posted(packages: seq<Package>)   // every package is posted

  /** handleSubmit up to the posts: `token` is what the store holds ("" or missing
      both stop the import). */
  function Submit(token: Option<string>, rows: seq<Row>): (o: Outcome)
    ensures token == None || token == Some("") <==> o == NoToken
    ensures o.Posted? <==> (token.Some? && token.value != ""
                            && forall i :: 0 <= i < |rows| ==> !Invalid(CleanRow(rows[i])))
    ensures o.Posted? ==> o.packages == CleanRows(rows)
                          && forall k :: 0 <= k < |o.packages| ==> !Invalid(o.packages[k])
    ensures o.Rejected? ==> |o.invalid| > 0
                            && exists i :: 0 <= i < |rows| && Invalid(CleanRow(rows[i]))
  {
    if token == None || token == Some("") then NoToken
    else
      var formatted := CleanRows(rows);
      var invalid := InvalidPackages(formatted);
      if |invalid| > 0 then
        assert Invalid(invalid[0]) && invalid[0] in formatted;
        Rejected(invalid)
      else
        assert token.Some? && token.value != "";
        assert forall i :: 0 <= i < |rows| ==> !Invalid(CleanRow(rows[i]));
        Posted(formatted)
  }

  /** One bad row stops the whole batch: with a token, a batch holding a row whose
      package is invalid is rejected and nothing is posted. */
  lemma OneBadRowRejectsBatch(token: string, rows: seq<Row>, i: nat)
    requires token != "" && i < |rows| && Invalid(CleanRow(rows[i]))
    ensures Submit(Some(token), rows).Rejected?
  {
    var formatted := CleanRows(rows);
    assert formatted[i] == CleanRow(rows[i]);
    assert formatted[i] in InvalidPackages(formatted);
  }

  /** A piece as it ends up in the service list: no separator inside, and no white
      space at either end. */
  predicate Tidy(s: string, c: char) {
    c !in s && (s == [] || (!IsSpace(s[0]) && !IsSpace(s[|s| - 1])))
  }

  /** The service count of a text cell is its number of commas plus one, and every
      service is tidy. */
  lemma ServicesShape(cell: string)
    ensures |Services(cell)| == Count(cell, ',') + 1
    ensures forall k :: 0 <= k < |Services(cell)| ==> Tidy(Services(cell)[k], ',')
  {
    var pieces, r := Split(cell, ','), Services(cell);
    forall k | 0 <= k < |r|
      ensures Tidy(r[k], ',')
    {
      TrimmedPiece(pieces[k], ',');
    }
  }

  lemma TrimmedPiece(s: string, c: char)
    requires c !in s
    ensures Tidy(Trim(s), c)
  {
    var r := Trim(s);
    assert forall k :: 0 <= k < |r| ==> r[k] == s[TrimFrom(s) + k];
  }

  /** `Number("abc")` is NaN. */
  lemma TextIsNaN()
    ensures ToNumber("abc") == None
  {
    assert !IsSpace('a') && !IsSpace('c');
    assert SkipSpaces("abc", 0) == 0;
    assert SkipSign("abc", 0) == 0;
    assert SkipDigits("abc", 0, 10) == 0;
  }

  /** `Number` is not guarded: a price cell holding text yields NaN, and the package
      still passes validation when its name and description are long enough. */
  lemma PriceMayBeNaN(row: Row)
    requires "cost_price" in row && row["cost_price"] == "abc"
    requires "name" in row && |Trim(row["name"])| >= 3
    requires "description" in row && |Trim(row["description"])| >= 10
    ensures CleanRow(row).costPrice == None && !Invalid(CleanRow(row))
  {
    TextIsNaN();
    CleanedInvalidIff(row);
  }

  /** A price cell written as a whole number is posted as that number. */
  lemma WholePriceRoundTrip(row: Row, n: nat)
    requires "sell_price" in row && row["sell_price"] == NatToString(n)
    ensures CleanRow(row).sellPrice == Some(n as real)
  {
    NatToStringRoundTrip(n);
  }
}
