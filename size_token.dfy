/** The size token `"<width>x<height>"` that index.ts sends to the image API,
    with a decoder that reads it back. */
module SizeToken {
  import opened Wrappers
  import opened DimensionResolver

  predicate IsDigit(c: char) {
    '0' <= c <= '9'
  }

  predicate AllDigits(s: string) {
    forall i :: 0 <= i < |s| ==> IsDigit(s[i])
  }

  function DigitChar(d: nat): (c: char)
    requires d < 10
    ensures IsDigit(c) && DigitValue(c) == d
  {
    (d + '0' as int) as char
  }

  function DigitValue(c: char): nat
    requires IsDigit(c)
  {
    c as int - '0' as int
  }

  /** A non-negative integer in decimal, as a JavaScript template literal writes
      an integral number below 10^21: at least one digit, no leading zero. */
  function Decimal(n: nat): (s: string)
    ensures Canonical(s)
    ensures s[0] == '0' ==> n == 0
  {
    if n < 10 then [DigitChar(n)] else Decimal(n / 10) + [DigitChar(n % 10)]
  }

  /** A decimal numeral as JavaScript writes one: digits only, at least one,
      and no leading zero unless the numeral is "0" itself. */
  predicate Canonical(s: string) {
    |s| >= 1 && AllDigits(s) && (s[0] == '0' ==> |s| == 1)
  }

  /** The number a string of decimal digits denotes. */
  function DecimalValue(s: string): nat
    requires AllDigits(s)
  {
    if s == [] then 0 else 10 * DecimalValue(s[..|s| - 1]) + DigitValue(s[|s| - 1])
  }

  /** Reading a number's decimal form gives the number back. */
  lemma {:induction false} DecimalRoundTrip(n: nat)
    ensures DecimalValue(Decimal(n)) == n
  {
    var s := Decimal(n);
    if n >= 10 {
      DecimalRoundTrip(n / 10);
      assert s[..|s| - 1] == Decimal(n / 10);
    }
  }

  /** A numeral with a non-zero leading digit denotes a positive number. */
  lemma {:induction false} LeadingDigitPositive(s: string)
    requires |s| >= 1 && AllDigits(s) && s[0] != '0'
    ensures DecimalValue(s) >= 1
  {
    if |s| > 1 {
      LeadingDigitPositive(s[..|s| - 1]);
    }
  }

  /** Every canonical numeral is the decimal form of the number it denotes. */
  lemma {:induction false} DecimalOfValue(s: string)
    requires Canonical(s)
    ensures Decimal(DecimalValue(s)) == s
  {
    if |s| > 1 {
      var p := s[..|s| - 1];
      LeadingDigitPositive(p);
      DecimalOfValue(p);
      assert p + [s[|s| - 1]] == s;
    } else {
      assert [s[0]] == s;
    }
  }

  /** Models the template literal `${dimensions.width}x${dimensions.height}`. */
  function Format(d: Dimensions): (s: string)
    ensures Parse(s) == Some(d)
  {
    var w, h := Decimal(d.width), Decimal(d.height);
    var s := w + "x" + h;
    FirstIndexIs(s, 'x', |w|);
    assert s[..|w|] == w && s[|w| + 1..] == h;
    DecimalRoundTrip(d.width);
    DecimalRoundTrip(d.height);
    s
  }

  /** The position of the first c in s, or |s| when there is none. */
  function IndexOf(s: string, c: char): (i: nat)
    ensures i <= |s|
    ensures i < |s| ==> s[i] == c
    ensures forall j :: 0 <= j < i ==> s[j] != c
  {
    if s == [] then 0 else if s[0] == c then 0 else 1 + IndexOf(s[1..], c)
  }

  lemma FirstIndexIs(s: string, c: char, k: nat)
    requires k < |s| && s[k] == c
    requires forall j :: 0 <= j < k ==> s[j] != c
    ensures IndexOf(s, c) == k
  {
  }

  /** Reads a size token back: two canonical numerals around the first 'x'. */
  function Parse(s: string): Option<Dimensions> {
    var i := IndexOf(s, 'x');
    if i == |s| then None
    else
      var w, h := s[..i], s[i + 1..];
      if Canonical(w) && Canonical(h) then
        Some(Dimensions(DecimalValue(w), DecimalValue(h)))
      else None
  }

  /** Different pixel pairs never share a size token. */
  lemma FormatInjective(a: Dimensions, b: Dimensions)
    requires Format(a) == Format(b)
    ensures a == b
  {
  }

  /** The only string that reads back as a pixel pair is that pair's token. */
  lemma ParseOnlyFormat(s: string, d: Dimensions)
    requires Parse(s) == Some(d)
    ensures s == Format(d)
  {
    var i := IndexOf(s, 'x');
    var w, h := s[..i], s[i + 1..];
    assert s == w + "x" + h;
    DecimalOfValue(w);
    DecimalOfValue(h);
  }
}
