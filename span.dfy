/** The generic `(Token, Left, Right)` span of Parser/Span.cs. */
module Spans {
  import opened Wrappers
  import opened CharExtensions

  /** A token tag over the raw source offsets `[left, right)`. */
  datatype Span<T> = Span(token: T, left: int, right: int)

  /** `Span.Of`: the span with exactly the given tag and bounds. */
  function Of<T>(token: T, left: int, right: int): (s: Span<T>)
    ensures s.token == token && s.left == left && s.right == right
  {
    Span(token, left, right)
  }

  /** `From`: `source.Substring(Left, Right - Left)`. `Substring` throws unless the span lies inside the
      source with `Left <= Right`, which is `None` here; otherwise the raw code units, with no
      percent-decoding. */
  function From<T>(span: Span<T>, source: seq<Unit>): (r: Option<seq<Unit>>)
    ensures r.Some? <==> 0 <= span.left <= span.right <= |source|
    ensures r.Some? ==> |r.value| == span.right - span.left
    ensures r.Some? ==> forall i | 0 <= i < |r.value| :: r.value[i] == source[span.left + i]
  {
    if 0 <= span.left <= span.right <= |source| then Some(source[span.left..span.right]) else None
  }

  /** A zero-width span inside the source gives the empty string. */
  lemma FromZeroWidth<T>(span: Span<T>, source: seq<Unit>)
    requires 0 <= span.left == span.right <= |source|
    ensures From(span, source) == Some([])
  {
  }

  /** Adjacent spans give adjacent substrings. */
  lemma FromAdjacent<T>(a: Span<T>, b: Span<T>, source: seq<Unit>)
    requires 0 <= a.left <= a.right == b.left <= b.right <= |source|
    ensures From(Span(a.token, a.left, b.right), source) == Some(From(a, source).value + From(b, source).value)
  {
    assert source[a.left..b.right] == source[a.left..a.right] + source[b.left..b.right];
  }

  // ----- ToString -----

  function DigitUnit(d: nat): (c: Unit)
    requires d < 10
    ensures IsNumber(c)
  {
    ('0' as int + d) as Unit
  }

  /** Base-10 digits of a natural number, most significant first, as `int.ToString` writes them. */
  function Digits(n: nat): (r: seq<Unit>)
    ensures |r| > 0 && forall i | 0 <= i < |r| :: IsNumber(r[i])
    ensures |r| > 1 ==> r[0] != '0' as Unit
  {
    if n < 10 then [DigitUnit(n)] else Digits(n / 10) + [DigitUnit(n % 10)]
  }

  /** `int.ToString` with '-' as the negative sign: a '-' before the digits of a negative number. */
  function Decimal(i: int): (r: seq<Unit>)
    ensures |r| > 0 && (r[0] == '-' as Unit <==> i < 0)
    ensures forall j | (if r[0] == '-' as Unit then 1 else 0) <= j < |r| :: IsNumber(r[j])
  {
    if i < 0 then ['-' as Unit] + Digits(-i) else Digits(i)
  }

  /** The value of a run of digits, read back. */
  function DigitsValue(s: seq<Unit>): (v: int)
    requires forall i | 0 <= i < |s| :: IsNumber(s[i])
    ensures v >= 0
  {
    if s == [] then 0
    else
      assert IsNumber(s[|s| - 1]);
      10 * DigitsValue(s[..|s| - 1]) + (s[|s| - 1] as int - '0' as int)
  }

  /** The number a decimal rendering stands for. */
  function DecimalValue(s: seq<Unit>): int
    requires |s| > 0
    requires forall i | (if s[0] == '-' as Unit then 1 else 0) <= i < |s| :: IsNumber(s[i])
  {
    if s[0] == '-' as Unit then -DigitsValue(s[1..]) else DigitsValue(s)
  }

  lemma {:induction false} DigitsRoundTrip(n: nat)
    ensures DigitsValue(Digits(n)) == n
  {
    if n >= 10 {
      DigitsRoundTrip(n / 10);
      var d := Digits(n / 10) + [DigitUnit(n % 10)];
      assert d[..|d| - 1] == Digits(n / 10);
    }
  }

  /** Reading a rendered number back gives the number: the bounds in `ToString` are unambiguous. */
  lemma DecimalRoundTrip(i: int)
    ensures DecimalValue(Decimal(i)) == i
  {
    if i < 0 {
      DigitsRoundTrip(-i);
      assert Decimal(i)[1..] == Digits(-i);
    } else {
      DigitsRoundTrip(i);
    }
  }

  /** `ToString`: `"(Left, Right) Token"`, with the tag rendered by `name`. */
  function ToString<T>(span: Span<T>, name: T -> seq<Unit>): seq<Unit> {
    Units("(") + Decimal(span.left) + Units(", ") + Decimal(span.right) + Units(") ") + name(span.token)
  }

  /** A rendered number holds neither of the separators ',' and ')'. */
  lemma DecimalHasNoSeparators(i: int)
    ensures forall j | 0 <= j < |Decimal(i)| :: Decimal(i)[j] != ',' as Unit && Decimal(i)[j] != ')' as Unit
  {
    if i < 0 {
      assert forall j | 1 <= j < |Decimal(i)| :: Decimal(i)[j] == Digits(-i)[j - 1];
    }
  }

  /** The left bound can be read back from the rendering: it is the number between the '(' and the
      first ',', which a space follows. */
  lemma ToStringReadsLeft<T>(span: Span<T>, name: T -> seq<Unit>)
    ensures var r, k1, k2 := ToString(span, name), |Decimal(span.left)|, |Decimal(span.right)|;
      |r| == 5 + k1 + k2 + |name(span.token)| && r[0] == '(' as Unit &&
      r[1..1 + k1] == Decimal(span.left) && DecimalValue(r[1..1 + k1]) == span.left &&
      r[1 + k1] == ',' as Unit && r[2 + k1] == ' ' as Unit && (forall j | 1 <= j < 1 + k1 :: r[j] != ',' as Unit)
  {
    SixParts(Units("("), Decimal(span.left), Units(", "), Decimal(span.right), Units(") "), name(span.token));
    DecimalHasNoSeparators(span.left);
    DecimalRoundTrip(span.left);
  }

  /** The right bound can be read back too: after the ", " it is the number up to the first ')', and the
      token's name follows the space after that. */
  lemma ToStringReadsRight<T>(span: Span<T>, name: T -> seq<Unit>)
    ensures var r, k1, k2 := ToString(span, name), |Decimal(span.left)|, |Decimal(span.right)|;
      |r| == 5 + k1 + k2 + |name(span.token)| &&
      r[3 + k1..3 + k1 + k2] == Decimal(span.right) && DecimalValue(r[3 + k1..3 + k1 + k2]) == span.right &&
      r[3 + k1 + k2] == ')' as Unit && r[4 + k1 + k2] == ' ' as Unit &&
      (forall j | 3 + k1 <= j < 3 + k1 + k2 :: r[j] != ')' as Unit) &&
      r[5 + k1 + k2..] == name(span.token)
  {
    SixParts(Units("("), Decimal(span.left), Units(", "), Decimal(span.right), Units(") "), name(span.token));
    DecimalHasNoSeparators(span.right);
    DecimalRoundTrip(span.right);
  }

  /** Where the six parts of a rendering lie, given the widths of the three separators. */
  lemma {:induction false} SixParts(p0: seq<Unit>, d1: seq<Unit>, p1: seq<Unit>, d2: seq<Unit>, p2: seq<Unit>, n: seq<Unit>)
    requires |p0| == 1 && |p1| == 2 && |p2| == 2
    ensures var r, k1, k2 := p0 + d1 + p1 + d2 + p2 + n, |d1|, |d2|;
      |r| == 5 + k1 + k2 + |n| && r[0] == p0[0] && r[1..1 + k1] == d1 && r[1 + k1] == p1[0] && r[2 + k1] == p1[1] &&
      r[3 + k1..3 + k1 + k2] == d2 && r[3 + k1 + k2] == p2[0] && r[4 + k1 + k2] == p2[1] && r[5 + k1 + k2..] == n
    ensures var r, k1 := p0 + d1 + p1 + d2 + p2 + n, |d1|;
      (forall j | 1 <= j < 1 + k1 :: r[j] == d1[j - 1]) && (forall j | 3 + k1 <= j < 3 + k1 + |d2| :: r[j] == d2[j - 3 - k1])
  {
    var r, k1, k2 := p0 + d1 + p1 + d2 + p2 + n, |d1|, |d2|;
    assert r == p0 + (d1 + (p1 + (d2 + (p2 + n))));
    assert r[1..1 + k1] == d1;
    assert r[3 + k1..3 + k1 + k2] == d2;
    assert r[5 + k1 + k2..] == n;
  }
}
