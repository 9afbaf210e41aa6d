/** The few JavaScript string and number built-ins the application's logic leans on,
    stated over Dafny strings, integers and exact reals.

    A JavaScript `NaN` is modelled as `None`: every parser here returns an `Option`. */
module JsText {

  datatype Option<T> = None | Some(value: T)

  function Min(a: int, b: int): int { if a < b then a else b }
  function Max(a: int, b: int): int { if a < b then b else a }

  // ---------------------------------------------------------------------------
  // String.prototype.trim
  // ---------------------------------------------------------------------------

  /** The white-space characters that `trim` removes and this model knows:
      the ASCII ones, the no-break space and the byte-order mark. */
  predicate IsSpace(c: char) {
    c == ' ' || c == '\t' || c == '\n' || c == '\r' || c == '\U{B}' || c == '\U{C}'
    || c == '\U{A0}' || c == '\U{FEFF}'
  }


  /** Where the trimmed string starts: the first character that is not white space. */
  function TrimFrom(s: string): (i: nat)
    ensures i <= |s|
  {
    SkipSpaces(s, 0)
  }

  /** Where the trimmed string ends: just after the last character that is not white
      space, and never before it starts. */
  function TrimTo(s: string): (j: nat)
    ensures TrimFrom(s) <= j <= |s|
  {
    Max(TrimFrom(s), SkipSpacesBack(s, |s|))
  }

  /** `s.trim()`: the part of `s` between its leading and its trailing white space. */
  function Trim(s: string): (r: string)
    ensures r == s[TrimFrom(s)..TrimTo(s)]
    ensures r == [] || (!IsSpace(r[0]) && !IsSpace(r[|r| - 1]))
  {
    s[TrimFrom(s)..TrimTo(s)]
  }

  /** `trim` yields the empty string exactly when every character is white space,
      removes only white space, leaves a string without white space at its ends
      unchanged, and is idempotent. */
  lemma TrimFacts(s: string)
    ensures Trim(s) == [] <==> forall k :: 0 <= k < |s| ==> IsSpace(s[k])
    ensures forall k :: 0 <= k < TrimFrom(s) ==> IsSpace(s[k])
    ensures forall k :: TrimTo(s) <= k < |s| ==> IsSpace(s[k])
    ensures s != [] && !IsSpace(s[0]) && !IsSpace(s[|s| - 1]) ==> Trim(s) == s
    ensures Trim(Trim(s)) == Trim(s)
  {
    var i, j := TrimFrom(s), SkipSpacesBack(s, |s|);
    if i < |s| {
      assert !IsSpace(s[i]);
      assert i < j;
    }
    var r := Trim(s);
    if r != [] {
      assert SkipSpaces(r, 0) == 0;
      assert SkipSpacesBack(r, |r|) == |r|;
      assert r[0..|r|] == r;
    }
  }

  // ---------------------------------------------------------------------------
  // String.prototype.split with a one-character separator, and its inverse join
  // ---------------------------------------------------------------------------

  function Count(s: string, c: char): nat {
    if s == [] then 0 else (if s[0] == c then 1 else 0) + Count(s[1..], c)
  }

  /** `s.split(c)`: the pieces between the separators, one more than there are
      separators, none of them containing the separator. */
  function Split(s: string, c: char): (r: seq<string>)
    ensures |r| == Count(s, c) + 1
    ensures forall k :: 0 <= k < |r| ==> c !in r[k]
  {
    if s == [] then [""]
    else
      var rest := Split(s[1..], c);
      if s[0] == c then [""] + rest else [[s[0]] + rest[0]] + rest[1..]
  }

  /** `pieces.join(c)` */
  function Join(pieces: seq<string>, c: char): string
    requires |pieces| >= 1
  {
    if |pieces| == 1 then pieces[0] else pieces[0] + [c] + Join(pieces[1..], c)
  }

  /** Joining the pieces of a split with the same separator gives back the string. */
  lemma {:induction false} JoinSplit(s: string, c: char)
    ensures Join(Split(s, c), c) == s
  {
    if s != [] {
      JoinSplit(s[1..], c);
      if s[0] == c {
        SplitAtSeparator(s, c);
      } else {
        SplitAtOther(s, c);
      }
      assert [s[0]] + s[1..] == s;
    }
  }

  lemma SplitAtSeparator(s: string, c: char)
    requires s != [] && s[0] == c
    ensures Join(Split(s, c), c) == [c] + Join(Split(s[1..], c), c)
  {
    var rest := Split(s[1..], c);
    assert Split(s, c) == [""] + rest;
    assert ([""] + rest)[1..] == rest;
  }

  lemma SplitAtOther(s: string, c: char)
    requires s != [] && s[0] != c
    ensures Join(Split(s, c), c) == [s[0]] + Join(Split(s[1..], c), c)
  {
    var rest := Split(s[1..], c);
    var ps := [[s[0]] + rest[0]] + rest[1..];
    assert Split(s, c) == ps;
    if |rest| > 1 {
      assert ps[1..] == rest[1..];
    }
  }

  /** Splitting a join of separator-free pieces gives back the pieces. */
  lemma {:induction false} SplitJoin(pieces: seq<string>, c: char)
    requires |pieces| >= 1
    requires forall k :: 0 <= k < |pieces| ==> c !in pieces[k]
    ensures Split(Join(pieces, c), c) == pieces
  {
    if |pieces| == 1 {
      SplitNoSeparator(pieces[0], c);
    } else {
      SplitJoin(pieces[1..], c);
      SplitAppend(pieces[0], Join(pieces[1..], c), c);
      assert Join(pieces, c) == pieces[0] + ([c] + Join(pieces[1..], c));
      assert [pieces[0]] + pieces[1..] == pieces;
    }
  }

  lemma {:induction false} SplitNoSeparator(s: string, c: char)
    requires c !in s
    ensures Split(s, c) == [s]
  {
    if s != [] {
      SplitNoSeparator(s[1..], c);
      assert [s[0]] + s[1..] == s;
    }
  }

  /** A separator-free piece followed by a separator splits off as the first piece. */
  lemma {:induction false} SplitAppend(p: string, t: string, c: char)
    requires c !in p
    ensures Split(p + ([c] + t), c) == [p] + Split(t, c)
  {
    if p == [] {
      assert p + ([c] + t) == [c] + t;
      assert ([c] + t)[1..] == t;
    } else {
      var s := p + ([c] + t);
      assert s[1..] == p[1..] + ([c] + t);
      SplitAppend(p[1..], t, c);
      assert [p[0]] + p[1..] == p;
    }
  }

  // ---------------------------------------------------------------------------
  // String.prototype.toLowerCase and includes
  // ---------------------------------------------------------------------------

  /** Lower-cases the ASCII letters and leaves every other character alone. */
  function LowerChar(c: char): char {
    if 'A' <= c <= 'Z' then (c as int + 32) as char else c
  }

  function ToLower(s: string): (r: string)
    ensures |r| == |s|
  {
    seq(|s|, i requires 0 <= i < |s| => LowerChar(s[i]))
  }

  /** Lower-casing twice is lower-casing once. */
  lemma ToLowerIdempotent(s: string)
    ensures ToLower(ToLower(s)) == ToLower(s)
  {
  }

  predicate OccursAt(h: string, n: string, i: nat) {
    i + |n| <= |h| && h[i..i + |n|] == n
  }

  /** `h.includes(n)`, by trying each start position in turn. */
  predicate Includes(h: string, n: string) {
    (|n| <= |h| && h[..|n|] == n) || (h != [] && Includes(h[1..], n))
  }

  /** The search agrees with the definition: `n` occurs in `h` at some position. */
  lemma {:induction false} IncludesIff(h: string, n: string)
    ensures Includes(h, n) <==> exists i: nat :: OccursAt(h, n, i)
  {
    if Includes(h, n) {
      if |n| <= |h| && h[..|n|] == n {
        assert OccursAt(h, n, 0);
      } else {
        IncludesIff(h[1..], n);
        var i: nat :| OccursAt(h[1..], n, i);
        assert h[1..][i..i + |n|] == h[i + 1..i + 1 + |n|];
        assert OccursAt(h, n, i + 1);
      }
    } else if i: nat :| OccursAt(h, n, i) {
      if i == 0 {
        assert false;
      } else {
        assert h[1..][i - 1..i - 1 + |n|] == h[i..i + |n|];
        assert OccursAt(h[1..], n, i - 1);
        IncludesIff(h[1..], n);
        assert false;
      }
    }
  }

  /** Every string includes the empty string. */
  lemma IncludesEmpty(h: string)
    ensures Includes(h, "")
  {
    assert h[..0] == "";
  }

  // ---------------------------------------------------------------------------
  // Digits: parseInt, parseFloat, Number and String for integers
  // ---------------------------------------------------------------------------

  predicate IsDigit(c: char, radix: nat) {
    '0' <= c && (c as int) < ('0' as int) + radix
  }

  predicate AllDigits(s: string, radix: nat) {
    forall i :: 0 <= i < |s| ==> IsDigit(s[i], radix)
  }

  function DigitChar(d: nat): (c: char)
    requires d < 10
    ensures IsDigit(c, 10) && c as int - '0' as int == d
  {
    ('0' as int + d) as char
  }

  /** The decimal digits of `n`, without leading zeros: `String(n)` for a natural number. */
  function NatToString(n: nat): (r: string)
    ensures |r| >= 1 && AllDigits(r, 10)
    ensures |r| > 1 ==> r[0] != '0'
  {
    if n < 10 then [DigitChar(n)] else NatToString(n / 10) + [DigitChar(n % 10)]
  }

  /** `String(n)` for an integer. */
  function IntToString(n: int): string {
    if n < 0 then "-" + NatToString(-n) else NatToString(n)
  }

  // The scanners below walk a string by position rather than by slicing it.

  /** The first position at or after `i` that does not hold white space. */
  function SkipSpaces(s: string, i: nat): (j: nat)
    requires i <= |s|
    ensures i <= j <= |s|
    ensures forall k :: i <= k < j ==> IsSpace(s[k])
    ensures j < |s| ==> !IsSpace(s[j])
    decreases |s| - i
  {
    if i < |s| && IsSpace(s[i]) then SkipSpaces(s, i + 1) else i
  }

  /** The position just after the last character before `j` that is not white space. */
  function SkipSpacesBack(s: string, j: nat): (i: nat)
    requires j <= |s|
    ensures i <= j
    ensures forall k :: i <= k < j ==> IsSpace(s[k])
    ensures 0 < i ==> !IsSpace(s[i - 1])
  {
    if 0 < j && IsSpace(s[j - 1]) then SkipSpacesBack(s, j - 1) else j
  }

  /** The first position at or after `i` that does not hold a digit of the radix. */
  function SkipDigits(s: string, i: nat, radix: nat): (j: nat)
    requires i <= |s|
    ensures i <= j <= |s|
    ensures forall k :: i <= k < j ==> IsDigit(s[k], radix)
    ensures j < |s| ==> !IsDigit(s[j], radix)
    decreases |s| - i
  {
    if i < |s| && IsDigit(s[i], radix) then SkipDigits(s, i + 1, radix) else i
  }

  /** Past an optional '+' or '-' at `i`. */
  function SkipSign(s: string, i: nat): (k: nat)
    requires i <= |s|
    ensures i <= k <= |s| && k <= i + 1
  {
    if i < |s| && (s[i] == '-' || s[i] == '+') then i + 1 else i
  }

  /** The value of the digits `s[i..j]`, most significant digit first. */
  function ValueOf(s: string, i: nat, j: nat, radix: nat): nat
    requires i <= j <= |s|
    requires forall k :: i <= k < j ==> IsDigit(s[k], radix)
    decreases j
  {
    if j == i then 0
    else
      assert IsDigit(s[j - 1], radix);
      ValueOf(s, i, j - 1, radix) * radix + (s[j - 1] as int - '0' as int)
  }

  /** The value of the digits `s[i..j]` read as the digits after a decimal point. */
  function Fraction(s: string, i: nat, j: nat): real
    requires i <= j <= |s|
    requires forall k :: i <= k < j ==> IsDigit(s[k], 10)
    decreases j - i
  {
    if i == j then 0.0 else ((s[i] as int - '0' as int) as real + Fraction(s, i + 1, j)) / 10.0
  }

  /** `parseInt(s, radix)` for a radix of at most ten: leading white space and one sign
      are skipped, then the longest run of digits of the radix is read; no digit is NaN. */
  function ParseInt(s: string, radix: nat): Option<int>
    requires 2 <= radix <= 10
  {
    var i := SkipSpaces(s, 0);
    var k := SkipSign(s, i);
    var j := SkipDigits(s, k, radix);
    var v: int := ValueOf(s, k, j, radix);
    if j == k then None
    else if i < k && s[i] == '-' then Some(-v)
    else Some(v)
  }

  /** A number read from a string, and the position just after it. */
  datatype Scanned = Scanned(value: real, end: nat)

  /** The longest run from `i` of the form [sign] digits [. digits] with at least one
      digit (the decimal literals without an exponent part). */
  function ScanDecimal(s: string, i: nat): (r: Option<Scanned>)
    requires i <= |s|
    ensures r.Some? ==> i < r.value.end <= |s|
  {
    var k := SkipSign(s, i);
    var w := SkipDigits(s, k, 10);
    var dot := w < |s| && s[w] == '.';
    var f := if dot then SkipDigits(s, w + 1, 10) else w;
    if w == k && f <= w + 1 then None
    else
      var magnitude := ValueOf(s, k, w, 10) as real + (if dot then Fraction(s, w + 1, f) else 0.0);
      Some(Scanned(if i < k && s[i] == '-' then -magnitude else magnitude, f))
  }

  /** `parseFloat(s)`: skip leading white space, read the longest decimal prefix. */
  function ParseFloat(s: string): Option<real> {
    match ScanDecimal(s, SkipSpaces(s, 0))
    case None => None
    case Some(sc) => Some(sc.value)
  }

  /** `parseFloat(s) || 0`: NaN (and zero) become zero. */
  function ParseFloatOrZero(s: string): (r: real)
    ensures ParseFloat(s) == None ==> r == 0.0
    ensures ParseFloat(s).Some? ==> r == ParseFloat(s).value
  {
    match ParseFloat(s)
    case None => 0.0
    case Some(x) => x
  }

  /** `Number(s)` (also unary `+s`): blank is zero, otherwise everything between the
      leading and the trailing white space must be one decimal literal. */
  function ToNumber(s: string): Option<real> {
    var i, j := SkipSpaces(s, 0), SkipSpacesBack(s, |s|);
    if i == |s| then Some(0.0)
    else match ScanDecimal(s, i)
      case Some(sc) => if sc.end == j then Some(sc.value) else None
      case None => None
  }

  /** Over a run of digits the digit scanner stops only at the end of the string. */
  lemma {:induction false} SkipDigitsAll(s: string, i: nat, radix: nat)
    requires i <= |s|
    requires forall k :: i <= k < |s| ==> IsDigit(s[k], radix)
    ensures SkipDigits(s, i, radix) == |s|
    decreases |s| - i
  {
    if i < |s| {
      SkipDigitsAll(s, i + 1, radix);
    }
  }

  /** The value of a run of digits depends on those digits only. */
  lemma {:induction false} ValueOfSame(s: string, t: string, i: nat, j: nat, radix: nat)
    requires i <= j <= |s| && j <= |t|
    requires forall k :: i <= k < j ==> IsDigit(s[k], radix) && s[k] == t[k]
    ensures ValueOf(s, i, j, radix) == ValueOf(t, i, j, radix)
    decreases j
  {
    if i < j {
      ValueOfSame(s, t, i, j - 1, radix);
    }
  }

  /** Reading back the digits of `n` gives `n`. */
  lemma {:induction false} NatToStringValue(n: nat)
    ensures ValueOf(NatToString(n), 0, |NatToString(n)|, 10) == n
  {
    var r := NatToString(n);
    if n >= 10 {
      var p := NatToString(n / 10);
      NatToStringValue(n / 10);
      assert r == p + [DigitChar(n % 10)];
      ValueOfSame(p, r, 0, |p|, 10);
    }
  }

  /** The round trip below, for every `n` whose decimal text is `s`. */
  lemma NatTextReadsBack(s: string)
    ensures forall n: nat :: s == NatToString(n) ==>
      ToNumber(s) == Some(n as real) && ParseInt(s, 10) == Some(n)
  {
    forall n: nat | s == NatToString(n)
      ensures ToNumber(s) == Some(n as real) && ParseInt(s, 10) == Some(n)
    {
      NatToStringRoundTrip(n);
    }
  }

  /** `Number(String(n))`, `parseFloat(String(n))` and `parseInt(String(n), 10)` all give
      back `n`. */
  lemma NatToStringRoundTrip(n: nat)
    ensures ToNumber(NatToString(n)) == Some(n as real)
    ensures ParseFloat(NatToString(n)) == Some(n as real)
    ensures ParseInt(NatToString(n), 10) == Some(n)
  {
    var s := NatToString(n);
    NatToStringValue(n);
    assert !IsSpace(s[0]) && !IsSpace(s[|s| - 1]);
    assert SkipSpaces(s, 0) == 0 && SkipSpacesBack(s, |s|) == |s|;
    assert SkipSign(s, 0) == 0;
    SkipDigitsAll(s, 0, 10);
    SkipDigitsAll(s, 0, 10);
    assert ScanDecimal(s, 0) == Some(Scanned(n as real, |s|));
  }

  // ---------------------------------------------------------------------------
  // Array.prototype.slice
  // ---------------------------------------------------------------------------

  /** Where a `slice` bound lands: a negative bound counts from the end, and the
      result is clamped to the array. */
  function SliceBound(len: nat, b: int): (r: nat)
    ensures r <= len
  {
    if b < 0 then Max(len + b, 0) else Min(b, len)
  }

  /** `s.slice(start, end)` on integer bounds. */
  function Slice<T>(s: seq<T>, start: int, end: int): seq<T> {
    var from, to := SliceBound(|s|, start), SliceBound(|s|, end);
    if from < to then s[from..to] else []
  }

  /** With non-negative bounds, `slice` keeps the elements from `start` up to but not
      including `end`, as far as the array reaches. */
  lemma SliceNonNegative<T>(s: seq<T>, start: nat, end: nat)
    ensures |Slice(s, start, end)| == if Min(end, |s|) > start then Min(end, |s|) - start else 0
    ensures forall k :: 0 <= k < |Slice(s, start, end)| ==> Slice(s, start, end)[k] == s[start + k]
  {
  }
}
