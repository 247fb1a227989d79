/** The character classes and the hex-nibble decoder of `CharExtensions` (Parser/Lexer.cs). */
module CharExtensions {

  /** A UTF-16 code unit: the value of a C# `char`. */
  newtype Unit = x: int | 0 <= x < 0x1_0000

  const NUL: Unit := 0
  const PERCENT: Unit := '%' as Unit
  const DOLLAR: Unit := '$' as Unit

  /** The code units of a Dafny string whose characters all fit in one UTF-16 code unit. */
  function Units(s: string): (u: seq<Unit>)
    requires forall i | 0 <= i < |s| :: s[i] as int < 0x1_0000
    ensures |u| == |s|
    ensures forall i | 0 <= i < |s| :: u[i] as int == s[i] as int
  {
    seq(|s|, i requires 0 <= i < |s| => s[i] as Unit)
  }

  /** Conversion to code units distributes over concatenation, so a long literal may be read piece by piece. */
  lemma {:induction false} UnitsAppend(a: string, b: string)
    requires forall i | 0 <= i < |a| :: a[i] as int < 0x1_0000
    requires forall i | 0 <= i < |b| :: b[i] as int < 0x1_0000
    ensures forall i | 0 <= i < |a + b| :: (a + b)[i] as int < 0x1_0000
    ensures Units(a + b) == Units(a) + Units(b)
  {
    assert forall i | 0 <= i < |a + b| :: (a + b)[i] == if i < |a| then a[i] else b[i - |a|];
  }

  /** A digit is in no other class, and is neither '%', '$' nor NUL. */
  predicate IsNumber(c: Unit)
    ensures IsNumber(c) ==> !IsQuoteMark(c) && !IsWhitespace(c) && c != PERCENT && c != DOLLAR && c != NUL
  {
    '0' as Unit <= c <= '9' as Unit
  }

  /** A quote is neither a space, '%', '$' nor NUL. */
  predicate IsQuoteMark(c: Unit)
    ensures IsQuoteMark(c) ==> !IsWhitespace(c) && c != PERCENT && c != DOLLAR && c != NUL
  {
    c == '\'' as Unit || c == '"' as Unit
  }

  /** The range 'A'..'z' of the source, which also takes in the six code units between 'Z' and 'a'.
      Every digit is a word character; no word character is a quote, a space, '%', '$' or NUL. */
  predicate IsWordChar(c: Unit)
    ensures IsNumber(c) ==> IsWordChar(c)
    ensures IsWordChar(c) ==> !IsQuoteMark(c) && !IsWhitespace(c) && c != PERCENT && c != DOLLAR && c != NUL
  {
    ('A' as Unit <= c <= 'z' as Unit) || IsNumber(c)
  }

  /** A space is neither '%', '$' nor NUL. */
  predicate IsWhitespace(c: Unit)
    ensures IsWhitespace(c) ==> c != PERCENT && c != DOLLAR && c != NUL
  {
    c == ' ' as Unit
  }

  /** The nibble decoder as the source writes it: letters count from 'A' or 'a', so 'A' and 'a' give 0,
      and no hex digit gives 10 or more. Any code unit gives a value well inside an `int`. */
  function DecodeAsHex(c: Unit): (v: int)
    ensures -('0' as int) <= v <= 0xFFFF - 'a' as int
    ensures IsHexDigit(c) ==> 0 <= v < 10
  {
    if c <= '9' as Unit then c as int - '0' as int
    else if c <= 'F' as Unit then c as int - 'A' as int
    else c as int - 'a' as int
  }

  /** `(char)((DecodeAsHex(n1) << 4) + DecodeAsHex(n2))`: the shift cannot overflow an `int` for any two
      code units, and the cast to `char` keeps the low 16 bits. On two hex digits the cast never wraps,
      and the result is at most 0x99. */
  function DecodePair(n1: Unit, n2: Unit): (u: Unit)
    ensures IsHexDigit(n1) && IsHexDigit(n2) ==> u as int == 16 * DecodeAsHex(n1) + DecodeAsHex(n2) <= 0x99
  {
    ((DecodeAsHex(n1) * 16 + DecodeAsHex(n2)) % 0x1_0000) as Unit
  }

  // ----- reference definitions from section 2.1 of RFC 3986 -----

  /** HEXDIG of RFC 3986: a digit or a letter A-F in either case. */
  predicate IsHexDigit(c: Unit) {
    IsNumber(c) || ('A' as Unit <= c <= 'F' as Unit) || ('a' as Unit <= c <= 'f' as Unit)
  }

  /** The value of a HEXDIG as RFC 3986 reads it. */
  function HexValue(c: Unit): (v: int)
    requires IsHexDigit(c)
    ensures 0 <= v < 16
  {
    if IsNumber(c) then c as int - '0' as int
    else if c <= 'F' as Unit then c as int - 'A' as int + 10
    else c as int - 'a' as int + 10
  }

  /** The upper-case hex digit that RFC 3986 recommends for a nibble. */
  function HexDigit(v: int): (c: Unit)
    requires 0 <= v < 16
    ensures IsHexDigit(c) && HexValue(c) == v
  {
    if v < 10 then ('0' as int + v) as Unit else ('A' as int + v - 10) as Unit
  }

  // ----- what the source's decoder does, against the reference -----

  /** On a digit the source's nibble decoder agrees with RFC 3986. */
  lemma DecodeAsHexOnDigits(c: Unit)
    requires IsNumber(c)
    ensures IsHexDigit(c) && DecodeAsHex(c) == HexValue(c)
  {
  }

  /** On a hex letter, of either case, the source's nibble decoder is 10 short of RFC 3986. */
  lemma DecodeAsHexOnLetters(c: Unit)
    requires IsHexDigit(c) && !IsNumber(c)
    ensures DecodeAsHex(c) == HexValue(c) - 10
  {
  }

  /** A digit pair decodes to the octet that RFC 3986 percent-encodes with it. */
  lemma DecodePairOnDigits(n1: Unit, n2: Unit)
    requires IsNumber(n1) && IsNumber(n2)
    ensures DecodePair(n1, n2) as int == 16 * HexValue(n1) + HexValue(n2)
  {
  }

  /** Percent-encoding an octet the way RFC 3986 recommends and decoding it with the source's decoder
      gives the octet back exactly when neither of its nibbles is 10 or more. */
  lemma {:induction false} PercentRoundTrip(b: int)
    requires 0 <= b < 256
    ensures DecodePair(HexDigit(b / 16), HexDigit(b % 16)) as int == b <==> (b / 16 < 10 && b % 16 < 10)
  {
    var hi, lo := b / 16, b % 16;
    var sum := DecodeAsHex(HexDigit(hi)) * 16 + DecodeAsHex(HexDigit(lo));
    assert DecodeAsHex(HexDigit(hi)) == if hi < 10 then hi else hi - 10;
    assert DecodeAsHex(HexDigit(lo)) == if lo < 10 then lo else lo - 10;
    assert b == hi * 16 + lo;
    assert 0 <= sum < 256;
    assert DecodePair(HexDigit(hi), HexDigit(lo)) as int == sum;
    assert sum == b - (if hi < 10 then 0 else 160) - (if lo < 10 then 0 else 10);
  }

  /** `%2A`, the RFC 3986 encoding of '*', decodes to a space, and `%41` ('A') decodes to 'A'. */
  lemma PercentDecodingExamples()
    ensures DecodePair('2' as Unit, 'A' as Unit) == ' ' as Unit
    ensures DecodePair('4' as Unit, '1' as Unit) == 'A' as Unit
    ensures DecodePair('2' as Unit, '7' as Unit) == '\'' as Unit
  {
  }

  // ----- the character classes -----

  /** The word class is ASCII letters, digits and the six code units `[ \ ] ^ _ `` between 'Z' and 'a'. */
  lemma WordCharsAsWritten(c: Unit)
    ensures IsWordChar(c) <==>
      IsNumber(c) || ('A' as Unit <= c <= 'Z' as Unit) || ('a' as Unit <= c <= 'z' as Unit) ||
      c == '[' as Unit || c == '\\' as Unit || c == ']' as Unit || c == '^' as Unit ||
      c == '_' as Unit || c == '`' as Unit
  {
  }

  /** NUL, which the lexer sees past the end of its input, belongs to no class. */
  lemma NulInNoClass()
    ensures !IsNumber(NUL) && !IsQuoteMark(NUL) && !IsWordChar(NUL) && !IsWhitespace(NUL)
  {
  }
}
