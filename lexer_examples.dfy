/** The token streams the lexer's tests in Parser.Tests/LexerTests.cs expect, and the edge cases of the
    rules as written, worked out on the functional lexer (which `Lex` computes). */
module LexerExamples {
  import opened Wrappers
  import opened CharExtensions
  import opened Lexer
  import Spans
  import LexerProperties

  // ----- Dogs/Chihuahuas('Boris') -----

  lemma {:induction false} PathPieces()
    ensures "Dogs/Chihuahuas('Boris')" == "Dogs/Chi" + "huahuas(" + "'Boris')"
  {
  }

  lemma {:induction false} PathSource(s: seq<Unit>)
    requires s == Units("Dogs/Chihuahuas('Boris')")
    ensures s == Units("Dogs/Chi") + Units("huahuas(") + Units("'Boris')")
  {
    PathPieces();
    UnitsAppend("Dogs/Chi", "huahuas(");
    UnitsAppend("Dogs/Chi" + "huahuas(", "'Boris')");
  }

  lemma {:induction false} PathLooksFrom0(s: seq<Unit>)
    requires s == Units("Dogs/Chi") + Units("huahuas(") + Units("'Boris')")
    ensures LookAt(s, 0) == Got('D' as Unit, 1) && LookAt(s, 1) == Got('o' as Unit, 2)
    ensures LookAt(s, 2) == Got('g' as Unit, 3) && LookAt(s, 3) == Got('s' as Unit, 4)
    ensures LookAt(s, 4) == Got('/' as Unit, 5) && LookAt(s, 5) == Got('C' as Unit, 6)
  {
  }

  lemma {:induction false} PathLooksFrom6(s: seq<Unit>)
    requires s == Units("Dogs/Chi") + Units("huahuas(") + Units("'Boris')")
    ensures LookAt(s, 6) == Got('h' as Unit, 7) && LookAt(s, 7) == Got('i' as Unit, 8)
  {
  }

  lemma {:induction false} PathLooksFrom8(s: seq<Unit>)
    requires s == Units("Dogs/Chi") + Units("huahuas(") + Units("'Boris')")
    ensures LookAt(s, 8) == Got('h' as Unit, 9) && LookAt(s, 9) == Got('u' as Unit, 10)
    ensures LookAt(s, 10) == Got('a' as Unit, 11) && LookAt(s, 11) == Got('h' as Unit, 12)
    ensures LookAt(s, 12) == Got('u' as Unit, 13) && LookAt(s, 13) == Got('a' as Unit, 14)
  {
  }

  lemma {:induction false} PathLooksFrom14(s: seq<Unit>)
    requires s == Units("Dogs/Chi") + Units("huahuas(") + Units("'Boris')")
    ensures LookAt(s, 14) == Got('s' as Unit, 15) && LookAt(s, 15) == Got('(' as Unit, 16)
  {
  }

  lemma {:induction false} PathLooksFrom16(s: seq<Unit>)
    requires s == Units("Dogs/Chi") + Units("huahuas(") + Units("'Boris')")
    ensures LookAt(s, 16) == Got('\'' as Unit, 17) && LookAt(s, 17) == Got('B' as Unit, 18)
    ensures LookAt(s, 18) == Got('o' as Unit, 19) && LookAt(s, 19) == Got('r' as Unit, 20)
    ensures LookAt(s, 20) == Got('i' as Unit, 21) && LookAt(s, 21) == Got('s' as Unit, 22)
  {
  }

  lemma {:induction false} PathLooksFrom22(s: seq<Unit>)
    requires s == Units("Dogs/Chi") + Units("huahuas(") + Units("'Boris')")
    ensures LookAt(s, 22) == Got('\'' as Unit, 23) && LookAt(s, 23) == Got(')' as Unit, 24)
    ensures LookAt(s, 24) == Got(NUL, 25)
  {
  }

  lemma {:induction false} PathFirstWord(s: seq<Unit>)
    requires LookAt(s, 0) == Got('D' as Unit, 1) && LookAt(s, 1) == Got('o' as Unit, 2)
    requires LookAt(s, 2) == Got('g' as Unit, 3) && LookAt(s, 3) == Got('s' as Unit, 4)
    requires LookAt(s, 4) == Got('/' as Unit, 5)
    ensures Rules(s, 0) == Lexed(Spans.Span(Word, 0, 4))
  {
    assert RunEnd(s, 4, WordChars) == Ok(4);
    assert RunEnd(s, 3, WordChars) == Ok(4);
    assert RunEnd(s, 2, WordChars) == Ok(4);
    assert RunEnd(s, 1, WordChars) == Ok(4);
    LexerProperties.RulesDispatch(s, 0);
  }

  lemma {:induction false} PathSlash(s: seq<Unit>)
    requires LookAt(s, 4) == Got('/' as Unit, 5) && LookAt(s, 5) == Got('C' as Unit, 6)
    ensures Rules(s, 4) == Lexed(Spans.Span(Slash, 4, 5))
  {
    LexerProperties.RulesDispatch(s, 4);
  }

  lemma {:induction false} PathSecondWord(s: seq<Unit>)
    requires LookAt(s, 5) == Got('C' as Unit, 6) && LookAt(s, 6) == Got('h' as Unit, 7)
    requires LookAt(s, 7) == Got('i' as Unit, 8) && LookAt(s, 8) == Got('h' as Unit, 9)
    requires LookAt(s, 9) == Got('u' as Unit, 10) && LookAt(s, 10) == Got('a' as Unit, 11)
    requires LookAt(s, 11) == Got('h' as Unit, 12) && LookAt(s, 12) == Got('u' as Unit, 13)
    requires LookAt(s, 13) == Got('a' as Unit, 14) && LookAt(s, 14) == Got('s' as Unit, 15)
    requires LookAt(s, 15) == Got('(' as Unit, 16)
    ensures Rules(s, 5) == Lexed(Spans.Span(Word, 5, 15))
  {
    assert RunEnd(s, 15, WordChars) == Ok(15);
    assert RunEnd(s, 14, WordChars) == Ok(15);
    assert RunEnd(s, 13, WordChars) == Ok(15);
    assert RunEnd(s, 12, WordChars) == Ok(15);
    assert RunEnd(s, 11, WordChars) == Ok(15);
    assert RunEnd(s, 10, WordChars) == Ok(15);
    assert RunEnd(s, 9, WordChars) == Ok(15);
    assert RunEnd(s, 8, WordChars) == Ok(15);
    assert RunEnd(s, 7, WordChars) == Ok(15);
    assert RunEnd(s, 6, WordChars) == Ok(15);
    LexerProperties.RulesDispatch(s, 5);
  }

  lemma {:induction false} PathOpen(s: seq<Unit>)
    requires LookAt(s, 15) == Got('(' as Unit, 16) && LookAt(s, 16) == Got('\'' as Unit, 17)
    ensures Rules(s, 15) == Lexed(Spans.Span(Open, 15, 16))
  {
    LexerProperties.RulesDispatch(s, 15);
  }

  lemma {:induction false} PathString(s: seq<Unit>)
    requires LookAt(s, 16) == Got('\'' as Unit, 17) && LookAt(s, 17) == Got('B' as Unit, 18)
    requires LookAt(s, 18) == Got('o' as Unit, 19) && LookAt(s, 19) == Got('r' as Unit, 20)
    requires LookAt(s, 20) == Got('i' as Unit, 21) && LookAt(s, 21) == Got('s' as Unit, 22)
    requires LookAt(s, 22) == Got('\'' as Unit, 23) && LookAt(s, 23) == Got(')' as Unit, 24)
    ensures Rules(s, 16) == Lexed(Spans.Span(String, 16, 23))
  {
    assert StringEnd(s, 16, 22) == Ok(23);
    assert StringEnd(s, 16, 21) == Ok(23);
    assert StringEnd(s, 16, 20) == Ok(23);
    assert StringEnd(s, 16, 19) == Ok(23);
    assert StringEnd(s, 16, 18) == Ok(23);
    assert StringEnd(s, 16, 17) == Ok(23);
    LexerProperties.RulesDispatch(s, 16);
  }

  lemma {:induction false} PathClose(s: seq<Unit>)
    requires LookAt(s, 23) == Got(')' as Unit, 24) && LookAt(s, 24) == Got(NUL, 25)
    ensures Rules(s, 23) == Lexed(Spans.Span(Close, 23, 24))
  {
    LexerProperties.RulesDispatch(s, 23);
  }

  /** How the loop of `Lex` assembles the stream, and the `Start` span in front of it. */
  lemma {:induction false} PathStream()
    ensures [Spans.Span(Word, 0, 4)] + ([Spans.Span(Slash, 4, 5)] + ([Spans.Span(Word, 5, 15)] + (
      [Spans.Span(Open, 15, 16)] + ([Spans.Span(String, 16, 23)] + (
      [Spans.Span(Close, 23, 24)] + [Spans.Span(End, 24, 24)]))))) == [
      Spans.Span(Word, 0, 4), Spans.Span(Slash, 4, 5), Spans.Span(Word, 5, 15),
      Spans.Span(Open, 15, 16), Spans.Span(String, 16, 23), Spans.Span(Close, 23, 24),
      Spans.Span(End, 24, 24)]
    ensures [Spans.Span(Start, 0, 0)] + [
      Spans.Span(Word, 0, 4), Spans.Span(Slash, 4, 5), Spans.Span(Word, 5, 15),
      Spans.Span(Open, 15, 16), Spans.Span(String, 16, 23), Spans.Span(Close, 23, 24),
      Spans.Span(End, 24, 24)] == [
      Spans.Span(Start, 0, 0), Spans.Span(Word, 0, 4), Spans.Span(Slash, 4, 5),
      Spans.Span(Word, 5, 15), Spans.Span(Open, 15, 16), Spans.Span(String, 16, 23),
      Spans.Span(Close, 23, 24), Spans.Span(End, 24, 24)]
  {
  }

  lemma {:induction false} PathSpans(s: seq<Unit>)
    requires |s| == 24
    requires OnChar(s, 0) && Rules(s, 0) == Lexed(Spans.Span(Word, 0, 4))
    requires OnChar(s, 4) && Rules(s, 4) == Lexed(Spans.Span(Slash, 4, 5))
    requires OnChar(s, 5) && Rules(s, 5) == Lexed(Spans.Span(Word, 5, 15))
    requires OnChar(s, 15) && Rules(s, 15) == Lexed(Spans.Span(Open, 15, 16))
    requires OnChar(s, 16) && Rules(s, 16) == Lexed(Spans.Span(String, 16, 23))
    requires OnChar(s, 23) && Rules(s, 23) == Lexed(Spans.Span(Close, 23, 24))
    ensures LexFrom(s, 0) == Ok([
      Spans.Span(Word, 0, 4), Spans.Span(Slash, 4, 5), Spans.Span(Word, 5, 15),
      Spans.Span(Open, 15, 16), Spans.Span(String, 16, 23), Spans.Span(Close, 23, 24),
      Spans.Span(End, 24, 24)])
  {
    PathStream();
    var rest := [Spans.Span(End, 24, 24)];
    assert LexFrom(s, 24) == Ok(rest);
    LexerProperties.LexFromStep(s, 23, Spans.Span(Close, 23, 24), rest);
    rest := [Spans.Span(Close, 23, 24)] + rest;
    LexerProperties.LexFromStep(s, 16, Spans.Span(String, 16, 23), rest);
    rest := [Spans.Span(String, 16, 23)] + rest;
    LexerProperties.LexFromStep(s, 15, Spans.Span(Open, 15, 16), rest);
    rest := [Spans.Span(Open, 15, 16)] + rest;
    LexerProperties.LexFromStep(s, 5, Spans.Span(Word, 5, 15), rest);
    rest := [Spans.Span(Word, 5, 15)] + rest;
    LexerProperties.LexFromStep(s, 4, Spans.Span(Slash, 4, 5), rest);
    rest := [Spans.Span(Slash, 4, 5)] + rest;
    LexerProperties.LexFromStep(s, 0, Spans.Span(Word, 0, 4), rest);
    rest := [Spans.Span(Word, 0, 4)] + rest;
  }

  /** A resource path: words, a slash, and a key in parentheses. */
  lemma {:induction false} ResourcePath(s: seq<Unit>)
    requires s == Units("Dogs/Chihuahuas('Boris')")
    ensures Lexing(s) == Ok([
      Spans.Span(Start, 0, 0), Spans.Span(Word, 0, 4), Spans.Span(Slash, 4, 5),
      Spans.Span(Word, 5, 15), Spans.Span(Open, 15, 16), Spans.Span(String, 16, 23),
      Spans.Span(Close, 23, 24), Spans.Span(End, 24, 24)])
  {
    PathSource(s);
    PathLooksFrom0(s);
    PathLooksFrom6(s);
    PathLooksFrom8(s);
    PathLooksFrom14(s);
    PathLooksFrom16(s);
    PathLooksFrom22(s);
    PathFirstWord(s);
    PathSlash(s);
    PathSecondWord(s);
    PathOpen(s);
    PathString(s);
    PathClose(s);
    PathSpans(s);
    PathStream();
  }

  // ----- $filter=name eq 'Boris' -----

  lemma {:induction false} OptionPieces()
    ensures "$filter=name eq 'Boris'" == "$filter=" + "name eq " + "'Boris'"
  {
  }

  lemma {:induction false} OptionSource(s: seq<Unit>)
    requires s == Units("$filter=name eq 'Boris'")
    ensures s == Units("$filter=") + Units("name eq ") + Units("'Boris'")
  {
    OptionPieces();
    UnitsAppend("$filter=", "name eq ");
    UnitsAppend("$filter=" + "name eq ", "'Boris'");
  }

  lemma {:induction false} OptionLooksFrom0(s: seq<Unit>)
    requires s == Units("$filter=") + Units("name eq ") + Units("'Boris'")
    ensures LookAt(s, 0) == Got('$' as Unit, 1) && LookAt(s, 1) == Got('f' as Unit, 2)
    ensures LookAt(s, 2) == Got('i' as Unit, 3) && LookAt(s, 3) == Got('l' as Unit, 4)
    ensures LookAt(s, 4) == Got('t' as Unit, 5) && LookAt(s, 5) == Got('e' as Unit, 6)
  {
  }

  lemma {:induction false} OptionLooksFrom6(s: seq<Unit>)
    requires s == Units("$filter=") + Units("name eq ") + Units("'Boris'")
    ensures LookAt(s, 6) == Got('r' as Unit, 7) && LookAt(s, 7) == Got('=' as Unit, 8)
  {
  }

  lemma {:induction false} OptionLooksFrom8(s: seq<Unit>)
    requires s == Units("$filter=") + Units("name eq ") + Units("'Boris'")
    ensures LookAt(s, 8) == Got('n' as Unit, 9) && LookAt(s, 9) == Got('a' as Unit, 10)
    ensures LookAt(s, 10) == Got('m' as Unit, 11) && LookAt(s, 11) == Got('e' as Unit, 12)
    ensures LookAt(s, 12) == Got(' ' as Unit, 13) && LookAt(s, 13) == Got('e' as Unit, 14)
  {
  }

  lemma {:induction false} OptionLooksFrom14(s: seq<Unit>)
    requires s == Units("$filter=") + Units("name eq ") + Units("'Boris'")
    ensures LookAt(s, 14) == Got('q' as Unit, 15) && LookAt(s, 15) == Got(' ' as Unit, 16)
  {
  }

  lemma {:induction false} OptionLooksFrom16(s: seq<Unit>)
    requires s == Units("$filter=") + Units("name eq ") + Units("'Boris'")
    ensures LookAt(s, 16) == Got('\'' as Unit, 17) && LookAt(s, 17) == Got('B' as Unit, 18)
    ensures LookAt(s, 18) == Got('o' as Unit, 19) && LookAt(s, 19) == Got('r' as Unit, 20)
    ensures LookAt(s, 20) == Got('i' as Unit, 21) && LookAt(s, 21) == Got('s' as Unit, 22)
  {
  }

  lemma {:induction false} OptionLooksFrom22(s: seq<Unit>)
    requires s == Units("$filter=") + Units("name eq ") + Units("'Boris'")
    ensures LookAt(s, 22) == Got('\'' as Unit, 23) && LookAt(s, 23) == Got(NUL, 24)
  {
  }

  lemma {:induction false} OptionHeading(s: seq<Unit>)
    requires LookAt(s, 0) == Got('$' as Unit, 1) && LookAt(s, 1) == Got('f' as Unit, 2)
    requires LookAt(s, 2) == Got('i' as Unit, 3) && LookAt(s, 3) == Got('l' as Unit, 4)
    requires LookAt(s, 4) == Got('t' as Unit, 5) && LookAt(s, 5) == Got('e' as Unit, 6)
    requires LookAt(s, 6) == Got('r' as Unit, 7) && LookAt(s, 7) == Got('=' as Unit, 8)
    ensures Rules(s, 0) == Lexed(Spans.Span(ReservedWord, 0, 7))
  {
    assert RunEnd(s, 7, WordChars) == Ok(7);
    assert RunEnd(s, 6, WordChars) == Ok(7);
    assert RunEnd(s, 5, WordChars) == Ok(7);
    assert RunEnd(s, 4, WordChars) == Ok(7);
    assert RunEnd(s, 3, WordChars) == Ok(7);
    assert RunEnd(s, 2, WordChars) == Ok(7);
    LexerProperties.RulesDispatch(s, 0);
  }

  lemma {:induction false} OptionEquals(s: seq<Unit>)
    requires LookAt(s, 7) == Got('=' as Unit, 8) && LookAt(s, 8) == Got('n' as Unit, 9)
    ensures Rules(s, 7) == Lexed(Spans.Span(Equals, 7, 8))
  {
    LexerProperties.RulesDispatch(s, 7);
  }

  lemma {:induction false} OptionFirstWord(s: seq<Unit>)
    requires LookAt(s, 8) == Got('n' as Unit, 9) && LookAt(s, 9) == Got('a' as Unit, 10)
    requires LookAt(s, 10) == Got('m' as Unit, 11) && LookAt(s, 11) == Got('e' as Unit, 12)
    requires LookAt(s, 12) == Got(' ' as Unit, 13)
    ensures Rules(s, 8) == Lexed(Spans.Span(Word, 8, 12))
  {
    assert RunEnd(s, 12, WordChars) == Ok(12);
    assert RunEnd(s, 11, WordChars) == Ok(12);
    assert RunEnd(s, 10, WordChars) == Ok(12);
    assert RunEnd(s, 9, WordChars) == Ok(12);
    LexerProperties.RulesDispatch(s, 8);
  }

  lemma {:induction false} OptionFirstSpace(s: seq<Unit>)
    requires LookAt(s, 12) == Got(' ' as Unit, 13) && LookAt(s, 13) == Got('e' as Unit, 14)
    ensures Rules(s, 12) == Lexed(Spans.Span(Space, 12, 13))
  {
    assert RunEnd(s, 13, Spaces) == Ok(13);
    LexerProperties.RulesDispatch(s, 12);
  }

  lemma {:induction false} OptionOperator(s: seq<Unit>)
    requires LookAt(s, 13) == Got('e' as Unit, 14) && LookAt(s, 14) == Got('q' as Unit, 15)
    requires LookAt(s, 15) == Got(' ' as Unit, 16)
    ensures Rules(s, 13) == Lexed(Spans.Span(Word, 13, 15))
  {
    assert RunEnd(s, 15, WordChars) == Ok(15);
    assert RunEnd(s, 14, WordChars) == Ok(15);
    LexerProperties.RulesDispatch(s, 13);
  }

  lemma {:induction false} OptionSecondSpace(s: seq<Unit>)
    requires LookAt(s, 15) == Got(' ' as Unit, 16) && LookAt(s, 16) == Got('\'' as Unit, 17)
    ensures Rules(s, 15) == Lexed(Spans.Span(Space, 15, 16))
  {
    assert RunEnd(s, 16, Spaces) == Ok(16);
    LexerProperties.RulesDispatch(s, 15);
  }

  lemma {:induction false} OptionString(s: seq<Unit>)
    requires LookAt(s, 16) == Got('\'' as Unit, 17) && LookAt(s, 17) == Got('B' as Unit, 18)
    requires LookAt(s, 18) == Got('o' as Unit, 19) && LookAt(s, 19) == Got('r' as Unit, 20)
    requires LookAt(s, 20) == Got('i' as Unit, 21) && LookAt(s, 21) == Got('s' as Unit, 22)
    requires LookAt(s, 22) == Got('\'' as Unit, 23) && LookAt(s, 23) == Got(NUL, 24)
    ensures Rules(s, 16) == Lexed(Spans.Span(String, 16, 23))
  {
    assert StringEnd(s, 16, 22) == Ok(23);
    assert StringEnd(s, 16, 21) == Ok(23);
    assert StringEnd(s, 16, 20) == Ok(23);
    assert StringEnd(s, 16, 19) == Ok(23);
    assert StringEnd(s, 16, 18) == Ok(23);
    assert StringEnd(s, 16, 17) == Ok(23);
    LexerProperties.RulesDispatch(s, 16);
  }

  /** How the loop of `Lex` assembles the stream, and the `Start` span in front of it. */
  lemma {:induction false} OptionStream()
    ensures [Spans.Span(ReservedWord, 0, 7)] + ([Spans.Span(Equals, 7, 8)] + (
      [Spans.Span(Word, 8, 12)] + ([Spans.Span(Space, 12, 13)] + ([Spans.Span(Word, 13, 15)] + (
      [Spans.Span(Space, 15, 16)] + ([Spans.Span(String, 16, 23)] + [Spans.Span(End, 23, 23)])))))) == [
      Spans.Span(ReservedWord, 0, 7), Spans.Span(Equals, 7, 8), Spans.Span(Word, 8, 12),
      Spans.Span(Space, 12, 13), Spans.Span(Word, 13, 15), Spans.Span(Space, 15, 16),
      Spans.Span(String, 16, 23), Spans.Span(End, 23, 23)]
    ensures [Spans.Span(Start, 0, 0)] + [
      Spans.Span(ReservedWord, 0, 7), Spans.Span(Equals, 7, 8), Spans.Span(Word, 8, 12),
      Spans.Span(Space, 12, 13), Spans.Span(Word, 13, 15), Spans.Span(Space, 15, 16),
      Spans.Span(String, 16, 23), Spans.Span(End, 23, 23)] == [
      Spans.Span(Start, 0, 0), Spans.Span(ReservedWord, 0, 7), Spans.Span(Equals, 7, 8),
      Spans.Span(Word, 8, 12), Spans.Span(Space, 12, 13), Spans.Span(Word, 13, 15),
      Spans.Span(Space, 15, 16), Spans.Span(String, 16, 23), Spans.Span(End, 23, 23)]
  {
  }

  lemma {:induction false} OptionSpans(s: seq<Unit>)
    requires |s| == 23
    requires OnChar(s, 0) && Rules(s, 0) == Lexed(Spans.Span(ReservedWord, 0, 7))
    requires OnChar(s, 7) && Rules(s, 7) == Lexed(Spans.Span(Equals, 7, 8))
    requires OnChar(s, 8) && Rules(s, 8) == Lexed(Spans.Span(Word, 8, 12))
    requires OnChar(s, 12) && Rules(s, 12) == Lexed(Spans.Span(Space, 12, 13))
    requires OnChar(s, 13) && Rules(s, 13) == Lexed(Spans.Span(Word, 13, 15))
    requires OnChar(s, 15) && Rules(s, 15) == Lexed(Spans.Span(Space, 15, 16))
    requires OnChar(s, 16) && Rules(s, 16) == Lexed(Spans.Span(String, 16, 23))
    ensures LexFrom(s, 0) == Ok([
      Spans.Span(ReservedWord, 0, 7), Spans.Span(Equals, 7, 8), Spans.Span(Word, 8, 12),
      Spans.Span(Space, 12, 13), Spans.Span(Word, 13, 15), Spans.Span(Space, 15, 16),
      Spans.Span(String, 16, 23), Spans.Span(End, 23, 23)])
  {
    OptionStream();
    var rest := [Spans.Span(End, 23, 23)];
    assert LexFrom(s, 23) == Ok(rest);
    LexerProperties.LexFromStep(s, 16, Spans.Span(String, 16, 23), rest);
    rest := [Spans.Span(String, 16, 23)] + rest;
    LexerProperties.LexFromStep(s, 15, Spans.Span(Space, 15, 16), rest);
    rest := [Spans.Span(Space, 15, 16)] + rest;
    LexerProperties.LexFromStep(s, 13, Spans.Span(Word, 13, 15), rest);
    rest := [Spans.Span(Word, 13, 15)] + rest;
    LexerProperties.LexFromStep(s, 12, Spans.Span(Space, 12, 13), rest);
    rest := [Spans.Span(Space, 12, 13)] + rest;
    LexerProperties.LexFromStep(s, 8, Spans.Span(Word, 8, 12), rest);
    rest := [Spans.Span(Word, 8, 12)] + rest;
    LexerProperties.LexFromStep(s, 7, Spans.Span(Equals, 7, 8), rest);
    rest := [Spans.Span(Equals, 7, 8)] + rest;
    LexerProperties.LexFromStep(s, 0, Spans.Span(ReservedWord, 0, 7), rest);
    rest := [Spans.Span(ReservedWord, 0, 7)] + rest;
  }

  /** A query option: a reserved word, '=', and a comparison with a string. */
  lemma {:induction false} FilterOption(s: seq<Unit>)
    requires s == Units("$filter=name eq 'Boris'")
    ensures Lexing(s) == Ok([
      Spans.Span(Start, 0, 0), Spans.Span(ReservedWord, 0, 7), Spans.Span(Equals, 7, 8),
      Spans.Span(Word, 8, 12), Spans.Span(Space, 12, 13), Spans.Span(Word, 13, 15),
      Spans.Span(Space, 15, 16), Spans.Span(String, 16, 23), Spans.Span(End, 23, 23)])
  {
    OptionSource(s);
    OptionLooksFrom0(s);
    OptionLooksFrom6(s);
    OptionLooksFrom8(s);
    OptionLooksFrom14(s);
    OptionLooksFrom16(s);
    OptionLooksFrom22(s);
    OptionHeading(s);
    OptionEquals(s);
    OptionFirstWord(s);
    OptionFirstSpace(s);
    OptionOperator(s);
    OptionSecondSpace(s);
    OptionString(s);
    OptionSpans(s);
    OptionStream();
  }

  // ----- $top=2&$orderby=Name&$filter=(Score gt 1000) -----

  lemma {:induction false} QueryPieces()
    ensures "$top=2&$orderby=Name&$filter=(Score gt 1000)" == "$top=2&$" + "orderby=" + "Name&$fi" + "lter=(Sc" + "ore gt 1" + "000)"
  {
  }

  lemma {:induction false} QuerySource(s: seq<Unit>)
    requires s == Units("$top=2&$orderby=Name&$filter=(Score gt 1000)")
    ensures s == Units("$top=2&$") + Units("orderby=") + Units("Name&$fi") + Units("lter=(Sc") + Units("ore gt 1") + Units("000)")
  {
    QueryPieces();
    UnitsAppend("$top=2&$", "orderby=");
    UnitsAppend("$top=2&$" + "orderby=", "Name&$fi");
    UnitsAppend("$top=2&$" + "orderby=" + "Name&$fi", "lter=(Sc");
    UnitsAppend("$top=2&$" + "orderby=" + "Name&$fi" + "lter=(Sc", "ore gt 1");
    UnitsAppend("$top=2&$" + "orderby=" + "Name&$fi" + "lter=(Sc" + "ore gt 1", "000)");
  }

  lemma {:induction false} QueryLooksFrom0(s: seq<Unit>)
    requires s == Units("$top=2&$") + Units("orderby=") + Units("Name&$fi") + Units("lter=(Sc") + Units("ore gt 1") + Units("000)")
    ensures LookAt(s, 0) == Got('$' as Unit, 1) && LookAt(s, 1) == Got('t' as Unit, 2)
    ensures LookAt(s, 2) == Got('o' as Unit, 3) && LookAt(s, 3) == Got('p' as Unit, 4)
    ensures LookAt(s, 4) == Got('=' as Unit, 5) && LookAt(s, 5) == Got('2' as Unit, 6)
  {
  }

  lemma {:induction false} QueryLooksFrom6(s: seq<Unit>)
    requires s == Units("$top=2&$") + Units("orderby=") + Units("Name&$fi") + Units("lter=(Sc") + Units("ore gt 1") + Units("000)")
    ensures LookAt(s, 6) == Got('&' as Unit, 7) && LookAt(s, 7) == Got('$' as Unit, 8)
  {
  }

  lemma {:induction false} QueryLooksFrom8(s: seq<Unit>)
    requires s == Units("$top=2&$") + Units("orderby=") + Units("Name&$fi") + Units("lter=(Sc") + Units("ore gt 1") + Units("000)")
    ensures LookAt(s, 8) == Got('o' as Unit, 9) && LookAt(s, 9) == Got('r' as Unit, 10)
    ensures LookAt(s, 10) == Got('d' as Unit, 11) && LookAt(s, 11) == Got('e' as Unit, 12)
    ensures LookAt(s, 12) == Got('r' as Unit, 13) && LookAt(s, 13) == Got('b' as Unit, 14)
  {
  }

  lemma {:induction false} QueryLooksFrom14(s: seq<Unit>)
    requires s == Units("$top=2&$") + Units("orderby=") + Units("Name&$fi") + Units("lter=(Sc") + Units("ore gt 1") + Units("000)")
    ensures LookAt(s, 14) == Got('y' as Unit, 15) && LookAt(s, 15) == Got('=' as Unit, 16)
  {
  }

  lemma {:induction false} QueryLooksFrom16(s: seq<Unit>)
    requires s == Units("$top=2&$") + Units("orderby=") + Units("Name&$fi") + Units("lter=(Sc") + Units("ore gt 1") + Units("000)")
    ensures LookAt(s, 16) == Got('N' as Unit, 17) && LookAt(s, 17) == Got('a' as Unit, 18)
    ensures LookAt(s, 18) == Got('m' as Unit, 19) && LookAt(s, 19) == Got('e' as Unit, 20)
    ensures LookAt(s, 20) == Got('&' as Unit, 21) && LookAt(s, 21) == Got('$' as Unit, 22)
  {
  }

  lemma {:induction false} QueryLooksFrom22(s: seq<Unit>)
    requires s == Units("$top=2&$") + Units("orderby=") + Units("Name&$fi") + Units("lter=(Sc") + Units("ore gt 1") + Units("000)")
    ensures LookAt(s, 22) == Got('f' as Unit, 23) && LookAt(s, 23) == Got('i' as Unit, 24)
  {
  }

  lemma {:induction false} QueryLooksFrom24(s: seq<Unit>)
    requires s == Units("$top=2&$") + Units("orderby=") + Units("Name&$fi") + Units("lter=(Sc") + Units("ore gt 1") + Units("000)")
    ensures LookAt(s, 24) == Got('l' as Unit, 25) && LookAt(s, 25) == Got('t' as Unit, 26)
    ensures LookAt(s, 26) == Got('e' as Unit, 27) && LookAt(s, 27) == Got('r' as Unit, 28)
    ensures LookAt(s, 28) == Got('=' as Unit, 29) && LookAt(s, 29) == Got('(' as Unit, 30)
  {
  }

  lemma {:induction false} QueryLooksFrom30(s: seq<Unit>)
    requires s == Units("$top=2&$") + Units("orderby=") + Units("Name&$fi") + Units("lter=(Sc") + Units("ore gt 1") + Units("000)")
    ensures LookAt(s, 30) == Got('S' as Unit, 31) && LookAt(s, 31) == Got('c' as Unit, 32)
  {
  }

  lemma {:induction false} QueryLooksFrom32(s: seq<Unit>)
    requires s == Units("$top=2&$") + Units("orderby=") + Units("Name&$fi") + Units("lter=(Sc") + Units("ore gt 1") + Units("000)")
    ensures LookAt(s, 32) == Got('o' as Unit, 33) && LookAt(s, 33) == Got('r' as Unit, 34)
    ensures LookAt(s, 34) == Got('e' as Unit, 35) && LookAt(s, 35) == Got(' ' as Unit, 36)
    ensures LookAt(s, 36) == Got('g' as Unit, 37) && LookAt(s, 37) == Got('t' as Unit, 38)
  {
  }

  lemma {:induction false} QueryLooksFrom38(s: seq<Unit>)
    requires s == Units("$top=2&$") + Units("orderby=") + Units("Name&$fi") + Units("lter=(Sc") + Units("ore gt 1") + Units("000)")
    ensures LookAt(s, 38) == Got(' ' as Unit, 39) && LookAt(s, 39) == Got('1' as Unit, 40)
  {
  }

  lemma {:induction false} QueryLooksFrom40(s: seq<Unit>)
    requires s == Units("$top=2&$") + Units("orderby=") + Units("Name&$fi") + Units("lter=(Sc") + Units("ore gt 1") + Units("000)")
    ensures LookAt(s, 40) == Got('0' as Unit, 41) && LookAt(s, 41) == Got('0' as Unit, 42)
    ensures LookAt(s, 42) == Got('0' as Unit, 43) && LookAt(s, 43) == Got(')' as Unit, 44)
    ensures LookAt(s, 44) == Got(NUL, 45)
  {
  }

  lemma {:induction false} QueryTopHeading(s: seq<Unit>)
    requires LookAt(s, 0) == Got('$' as Unit, 1) && LookAt(s, 1) == Got('t' as Unit, 2)
    requires LookAt(s, 2) == Got('o' as Unit, 3) && LookAt(s, 3) == Got('p' as Unit, 4)
    requires LookAt(s, 4) == Got('=' as Unit, 5)
    ensures Rules(s, 0) == Lexed(Spans.Span(ReservedWord, 0, 4))
  {
    assert RunEnd(s, 4, WordChars) == Ok(4);
    assert RunEnd(s, 3, WordChars) == Ok(4);
    assert RunEnd(s, 2, WordChars) == Ok(4);
    LexerProperties.RulesDispatch(s, 0);
  }

  lemma {:induction false} QueryTopEquals(s: seq<Unit>)
    requires LookAt(s, 4) == Got('=' as Unit, 5) && LookAt(s, 5) == Got('2' as Unit, 6)
    ensures Rules(s, 4) == Lexed(Spans.Span(Equals, 4, 5))
  {
    LexerProperties.RulesDispatch(s, 4);
  }

  lemma {:induction false} QueryTwo(s: seq<Unit>)
    requires LookAt(s, 5) == Got('2' as Unit, 6) && LookAt(s, 6) == Got('&' as Unit, 7)
    ensures Rules(s, 5) == Lexed(Spans.Span(Number, 5, 6))
  {
    assert RunEnd(s, 6, Digits) == Ok(6);
    LexerProperties.RulesDispatch(s, 5);
  }

  lemma {:induction false} QueryFirstAmpersand(s: seq<Unit>)
    requires LookAt(s, 6) == Got('&' as Unit, 7) && LookAt(s, 7) == Got('$' as Unit, 8)
    ensures Rules(s, 6) == Lexed(Spans.Span(Ampersand, 6, 7))
  {
    LexerProperties.RulesDispatch(s, 6);
  }

  lemma {:induction false} QueryOrderbyHeading(s: seq<Unit>)
    requires LookAt(s, 7) == Got('$' as Unit, 8) && LookAt(s, 8) == Got('o' as Unit, 9)
    requires LookAt(s, 9) == Got('r' as Unit, 10) && LookAt(s, 10) == Got('d' as Unit, 11)
    requires LookAt(s, 11) == Got('e' as Unit, 12) && LookAt(s, 12) == Got('r' as Unit, 13)
    requires LookAt(s, 13) == Got('b' as Unit, 14) && LookAt(s, 14) == Got('y' as Unit, 15)
    requires LookAt(s, 15) == Got('=' as Unit, 16)
    ensures Rules(s, 7) == Lexed(Spans.Span(ReservedWord, 7, 15))
  {
    assert RunEnd(s, 15, WordChars) == Ok(15);
    assert RunEnd(s, 14, WordChars) == Ok(15);
    assert RunEnd(s, 13, WordChars) == Ok(15);
    assert RunEnd(s, 12, WordChars) == Ok(15);
    assert RunEnd(s, 11, WordChars) == Ok(15);
    assert RunEnd(s, 10, WordChars) == Ok(15);
    assert RunEnd(s, 9, WordChars) == Ok(15);
    LexerProperties.RulesDispatch(s, 7);
  }

  lemma {:induction false} QueryOrderbyEquals(s: seq<Unit>)
    requires LookAt(s, 15) == Got('=' as Unit, 16) && LookAt(s, 16) == Got('N' as Unit, 17)
    ensures Rules(s, 15) == Lexed(Spans.Span(Equals, 15, 16))
  {
    LexerProperties.RulesDispatch(s, 15);
  }

  lemma {:induction false} QueryName(s: seq<Unit>)
    requires LookAt(s, 16) == Got('N' as Unit, 17) && LookAt(s, 17) == Got('a' as Unit, 18)
    requires LookAt(s, 18) == Got('m' as Unit, 19) && LookAt(s, 19) == Got('e' as Unit, 20)
    requires LookAt(s, 20) == Got('&' as Unit, 21)
    ensures Rules(s, 16) == Lexed(Spans.Span(Word, 16, 20))
  {
    assert RunEnd(s, 20, WordChars) == Ok(20);
    assert RunEnd(s, 19, WordChars) == Ok(20);
    assert RunEnd(s, 18, WordChars) == Ok(20);
    assert RunEnd(s, 17, WordChars) == Ok(20);
    LexerProperties.RulesDispatch(s, 16);
  }

  lemma {:induction false} QuerySecondAmpersand(s: seq<Unit>)
    requires LookAt(s, 20) == Got('&' as Unit, 21) && LookAt(s, 21) == Got('$' as Unit, 22)
    ensures Rules(s, 20) == Lexed(Spans.Span(Ampersand, 20, 21))
  {
    LexerProperties.RulesDispatch(s, 20);
  }

  lemma {:induction false} QueryFilterHeading(s: seq<Unit>)
    requires LookAt(s, 21) == Got('$' as Unit, 22) && LookAt(s, 22) == Got('f' as Unit, 23)
    requires LookAt(s, 23) == Got('i' as Unit, 24) && LookAt(s, 24) == Got('l' as Unit, 25)
    requires LookAt(s, 25) == Got('t' as Unit, 26) && LookAt(s, 26) == Got('e' as Unit, 27)
    requires LookAt(s, 27) == Got('r' as Unit, 28) && LookAt(s, 28) == Got('=' as Unit, 29)
    ensures Rules(s, 21) == Lexed(Spans.Span(ReservedWord, 21, 28))
  {
    assert RunEnd(s, 28, WordChars) == Ok(28);
    assert RunEnd(s, 27, WordChars) == Ok(28);
    assert RunEnd(s, 26, WordChars) == Ok(28);
    assert RunEnd(s, 25, WordChars) == Ok(28);
    assert RunEnd(s, 24, WordChars) == Ok(28);
    assert RunEnd(s, 23, WordChars) == Ok(28);
    LexerProperties.RulesDispatch(s, 21);
  }

  lemma {:induction false} QueryFilterEquals(s: seq<Unit>)
    requires LookAt(s, 28) == Got('=' as Unit, 29) && LookAt(s, 29) == Got('(' as Unit, 30)
    ensures Rules(s, 28) == Lexed(Spans.Span(Equals, 28, 29))
  {
    LexerProperties.RulesDispatch(s, 28);
  }

  lemma {:induction false} QueryOpen(s: seq<Unit>)
    requires LookAt(s, 29) == Got('(' as Unit, 30) && LookAt(s, 30) == Got('S' as Unit, 31)
    ensures Rules(s, 29) == Lexed(Spans.Span(Open, 29, 30))
  {
    LexerProperties.RulesDispatch(s, 29);
  }

  lemma {:induction false} QueryScore(s: seq<Unit>)
    requires LookAt(s, 30) == Got('S' as Unit, 31) && LookAt(s, 31) == Got('c' as Unit, 32)
    requires LookAt(s, 32) == Got('o' as Unit, 33) && LookAt(s, 33) == Got('r' as Unit, 34)
    requires LookAt(s, 34) == Got('e' as Unit, 35) && LookAt(s, 35) == Got(' ' as Unit, 36)
    ensures Rules(s, 30) == Lexed(Spans.Span(Word, 30, 35))
  {
    assert RunEnd(s, 35, WordChars) == Ok(35);
    assert RunEnd(s, 34, WordChars) == Ok(35);
    assert RunEnd(s, 33, WordChars) == Ok(35);
    assert RunEnd(s, 32, WordChars) == Ok(35);
    assert RunEnd(s, 31, WordChars) == Ok(35);
    LexerProperties.RulesDispatch(s, 30);
  }

  lemma {:induction false} QueryFirstSpace(s: seq<Unit>)
    requires LookAt(s, 35) == Got(' ' as Unit, 36) && LookAt(s, 36) == Got('g' as Unit, 37)
    ensures Rules(s, 35) == Lexed(Spans.Span(Space, 35, 36))
  {
    assert RunEnd(s, 36, Spaces) == Ok(36);
    LexerProperties.RulesDispatch(s, 35);
  }

  lemma {:induction false} QueryOperator(s: seq<Unit>)
    requires LookAt(s, 36) == Got('g' as Unit, 37) && LookAt(s, 37) == Got('t' as Unit, 38)
    requires LookAt(s, 38) == Got(' ' as Unit, 39)
    ensures Rules(s, 36) == Lexed(Spans.Span(Word, 36, 38))
  {
    assert RunEnd(s, 38, WordChars) == Ok(38);
    assert RunEnd(s, 37, WordChars) == Ok(38);
    LexerProperties.RulesDispatch(s, 36);
  }

  lemma {:induction false} QuerySecondSpace(s: seq<Unit>)
    requires LookAt(s, 38) == Got(' ' as Unit, 39) && LookAt(s, 39) == Got('1' as Unit, 40)
    ensures Rules(s, 38) == Lexed(Spans.Span(Space, 38, 39))
  {
    assert RunEnd(s, 39, Spaces) == Ok(39);
    LexerProperties.RulesDispatch(s, 38);
  }

  lemma {:induction false} QueryThousand(s: seq<Unit>)
    requires LookAt(s, 39) == Got('1' as Unit, 40) && LookAt(s, 40) == Got('0' as Unit, 41)
    requires LookAt(s, 41) == Got('0' as Unit, 42) && LookAt(s, 42) == Got('0' as Unit, 43)
    requires LookAt(s, 43) == Got(')' as Unit, 44)
    ensures Rules(s, 39) == Lexed(Spans.Span(Number, 39, 43))
  {
    assert RunEnd(s, 43, Digits) == Ok(43);
    assert RunEnd(s, 42, Digits) == Ok(43);
    assert RunEnd(s, 41, Digits) == Ok(43);
    assert RunEnd(s, 40, Digits) == Ok(43);
    LexerProperties.RulesDispatch(s, 39);
  }

  lemma {:induction false} QueryClose(s: seq<Unit>)
    requires LookAt(s, 43) == Got(')' as Unit, 44) && LookAt(s, 44) == Got(NUL, 45)
    ensures Rules(s, 43) == Lexed(Spans.Span(Close, 43, 44))
  {
    LexerProperties.RulesDispatch(s, 43);
  }

  /** How the loop of `Lex` assembles the stream, and the `Start` span in front of it. */
  lemma {:induction false} QueryStream()
    ensures [Spans.Span(ReservedWord, 0, 4)] + ([Spans.Span(Equals, 4, 5)] + (
      [Spans.Span(Number, 5, 6)] + ([Spans.Span(Ampersand, 6, 7)] + (
      [Spans.Span(ReservedWord, 7, 15)] + ([Spans.Span(Equals, 15, 16)] + (
      [Spans.Span(Word, 16, 20)] + ([Spans.Span(Ampersand, 20, 21)] + (
      [Spans.Span(ReservedWord, 21, 28)] + ([Spans.Span(Equals, 28, 29)] + (
      [Spans.Span(Open, 29, 30)] + ([Spans.Span(Word, 30, 35)] + ([Spans.Span(Space, 35, 36)] + (
      [Spans.Span(Word, 36, 38)] + ([Spans.Span(Space, 38, 39)] + ([Spans.Span(Number, 39, 43)] + (
      [Spans.Span(Close, 43, 44)] + [Spans.Span(End, 44, 44)])))))))))))))))) == [
      Spans.Span(ReservedWord, 0, 4), Spans.Span(Equals, 4, 5), Spans.Span(Number, 5, 6),
      Spans.Span(Ampersand, 6, 7), Spans.Span(ReservedWord, 7, 15), Spans.Span(Equals, 15, 16),
      Spans.Span(Word, 16, 20), Spans.Span(Ampersand, 20, 21), Spans.Span(ReservedWord, 21, 28),
      Spans.Span(Equals, 28, 29), Spans.Span(Open, 29, 30), Spans.Span(Word, 30, 35),
      Spans.Span(Space, 35, 36), Spans.Span(Word, 36, 38), Spans.Span(Space, 38, 39),
      Spans.Span(Number, 39, 43), Spans.Span(Close, 43, 44), Spans.Span(End, 44, 44)]
    ensures [Spans.Span(Start, 0, 0)] + [
      Spans.Span(ReservedWord, 0, 4), Spans.Span(Equals, 4, 5), Spans.Span(Number, 5, 6),
      Spans.Span(Ampersand, 6, 7), Spans.Span(ReservedWord, 7, 15), Spans.Span(Equals, 15, 16),
      Spans.Span(Word, 16, 20), Spans.Span(Ampersand, 20, 21), Spans.Span(ReservedWord, 21, 28),
      Spans.Span(Equals, 28, 29), Spans.Span(Open, 29, 30), Spans.Span(Word, 30, 35),
      Spans.Span(Space, 35, 36), Spans.Span(Word, 36, 38), Spans.Span(Space, 38, 39),
      Spans.Span(Number, 39, 43), Spans.Span(Close, 43, 44), Spans.Span(End, 44, 44)] == [
      Spans.Span(Start, 0, 0), Spans.Span(ReservedWord, 0, 4), Spans.Span(Equals, 4, 5),
      Spans.Span(Number, 5, 6), Spans.Span(Ampersand, 6, 7), Spans.Span(ReservedWord, 7, 15),
      Spans.Span(Equals, 15, 16), Spans.Span(Word, 16, 20), Spans.Span(Ampersand, 20, 21),
      Spans.Span(ReservedWord, 21, 28), Spans.Span(Equals, 28, 29), Spans.Span(Open, 29, 30),
      Spans.Span(Word, 30, 35), Spans.Span(Space, 35, 36), Spans.Span(Word, 36, 38),
      Spans.Span(Space, 38, 39), Spans.Span(Number, 39, 43), Spans.Span(Close, 43, 44),
      Spans.Span(End, 44, 44)]
  {
  }

  lemma {:induction false} QuerySpans(s: seq<Unit>)
    requires |s| == 44
    requires OnChar(s, 0) && Rules(s, 0) == Lexed(Spans.Span(ReservedWord, 0, 4))
    requires OnChar(s, 4) && Rules(s, 4) == Lexed(Spans.Span(Equals, 4, 5))
    requires OnChar(s, 5) && Rules(s, 5) == Lexed(Spans.Span(Number, 5, 6))
    requires OnChar(s, 6) && Rules(s, 6) == Lexed(Spans.Span(Ampersand, 6, 7))
    requires OnChar(s, 7) && Rules(s, 7) == Lexed(Spans.Span(ReservedWord, 7, 15))
    requires OnChar(s, 15) && Rules(s, 15) == Lexed(Spans.Span(Equals, 15, 16))
    requires OnChar(s, 16) && Rules(s, 16) == Lexed(Spans.Span(Word, 16, 20))
    requires OnChar(s, 20) && Rules(s, 20) == Lexed(Spans.Span(Ampersand, 20, 21))
    requires OnChar(s, 21) && Rules(s, 21) == Lexed(Spans.Span(ReservedWord, 21, 28))
    requires OnChar(s, 28) && Rules(s, 28) == Lexed(Spans.Span(Equals, 28, 29))
    requires OnChar(s, 29) && Rules(s, 29) == Lexed(Spans.Span(Open, 29, 30))
    requires OnChar(s, 30) && Rules(s, 30) == Lexed(Spans.Span(Word, 30, 35))
    requires OnChar(s, 35) && Rules(s, 35) == Lexed(Spans.Span(Space, 35, 36))
    requires OnChar(s, 36) && Rules(s, 36) == Lexed(Spans.Span(Word, 36, 38))
    requires OnChar(s, 38) && Rules(s, 38) == Lexed(Spans.Span(Space, 38, 39))
    requires OnChar(s, 39) && Rules(s, 39) == Lexed(Spans.Span(Number, 39, 43))
    requires OnChar(s, 43) && Rules(s, 43) == Lexed(Spans.Span(Close, 43, 44))
    ensures LexFrom(s, 0) == Ok([
      Spans.Span(ReservedWord, 0, 4), Spans.Span(Equals, 4, 5), Spans.Span(Number, 5, 6),
      Spans.Span(Ampersand, 6, 7), Spans.Span(ReservedWord, 7, 15), Spans.Span(Equals, 15, 16),
      Spans.Span(Word, 16, 20), Spans.Span(Ampersand, 20, 21), Spans.Span(ReservedWord, 21, 28),
      Spans.Span(Equals, 28, 29), Spans.Span(Open, 29, 30), Spans.Span(Word, 30, 35),
      Spans.Span(Space, 35, 36), Spans.Span(Word, 36, 38), Spans.Span(Space, 38, 39),
      Spans.Span(Number, 39, 43), Spans.Span(Close, 43, 44), Spans.Span(End, 44, 44)])
  {
    QueryStream();
    var rest := [Spans.Span(End, 44, 44)];
    assert LexFrom(s, 44) == Ok(rest);
    LexerProperties.LexFromStep(s, 43, Spans.Span(Close, 43, 44), rest);
    rest := [Spans.Span(Close, 43, 44)] + rest;
    LexerProperties.LexFromStep(s, 39, Spans.Span(Number, 39, 43), rest);
    rest := [Spans.Span(Number, 39, 43)] + rest;
    LexerProperties.LexFromStep(s, 38, Spans.Span(Space, 38, 39), rest);
    rest := [Spans.Span(Space, 38, 39)] + rest;
    LexerProperties.LexFromStep(s, 36, Spans.Span(Word, 36, 38), rest);
    rest := [Spans.Span(Word, 36, 38)] + rest;
    LexerProperties.LexFromStep(s, 35, Spans.Span(Space, 35, 36), rest);
    rest := [Spans.Span(Space, 35, 36)] + rest;
    LexerProperties.LexFromStep(s, 30, Spans.Span(Word, 30, 35), rest);
    rest := [Spans.Span(Word, 30, 35)] + rest;
    LexerProperties.LexFromStep(s, 29, Spans.Span(Open, 29, 30), rest);
    rest := [Spans.Span(Open, 29, 30)] + rest;
    LexerProperties.LexFromStep(s, 28, Spans.Span(Equals, 28, 29), rest);
    rest := [Spans.Span(Equals, 28, 29)] + rest;
    LexerProperties.LexFromStep(s, 21, Spans.Span(ReservedWord, 21, 28), rest);
    rest := [Spans.Span(ReservedWord, 21, 28)] + rest;
    LexerProperties.LexFromStep(s, 20, Spans.Span(Ampersand, 20, 21), rest);
    rest := [Spans.Span(Ampersand, 20, 21)] + rest;
    LexerProperties.LexFromStep(s, 16, Spans.Span(Word, 16, 20), rest);
    rest := [Spans.Span(Word, 16, 20)] + rest;
    LexerProperties.LexFromStep(s, 15, Spans.Span(Equals, 15, 16), rest);
    rest := [Spans.Span(Equals, 15, 16)] + rest;
    LexerProperties.LexFromStep(s, 7, Spans.Span(ReservedWord, 7, 15), rest);
    rest := [Spans.Span(ReservedWord, 7, 15)] + rest;
    LexerProperties.LexFromStep(s, 6, Spans.Span(Ampersand, 6, 7), rest);
    rest := [Spans.Span(Ampersand, 6, 7)] + rest;
    LexerProperties.LexFromStep(s, 5, Spans.Span(Number, 5, 6), rest);
    rest := [Spans.Span(Number, 5, 6)] + rest;
    LexerProperties.LexFromStep(s, 4, Spans.Span(Equals, 4, 5), rest);
    rest := [Spans.Span(Equals, 4, 5)] + rest;
    LexerProperties.LexFromStep(s, 0, Spans.Span(ReservedWord, 0, 4), rest);
    rest := [Spans.Span(ReservedWord, 0, 4)] + rest;
  }

  /** Three query options joined by '&', with a number and a parenthesised comparison. */
  lemma {:induction false} QueryOptions(s: seq<Unit>)
    requires s == Units("$top=2&$orderby=Name&$filter=(Score gt 1000)")
    ensures Lexing(s) == Ok([
      Spans.Span(Start, 0, 0), Spans.Span(ReservedWord, 0, 4), Spans.Span(Equals, 4, 5),
      Spans.Span(Number, 5, 6), Spans.Span(Ampersand, 6, 7), Spans.Span(ReservedWord, 7, 15),
      Spans.Span(Equals, 15, 16), Spans.Span(Word, 16, 20), Spans.Span(Ampersand, 20, 21),
      Spans.Span(ReservedWord, 21, 28), Spans.Span(Equals, 28, 29), Spans.Span(Open, 29, 30),
      Spans.Span(Word, 30, 35), Spans.Span(Space, 35, 36), Spans.Span(Word, 36, 38),
      Spans.Span(Space, 38, 39), Spans.Span(Number, 39, 43), Spans.Span(Close, 43, 44),
      Spans.Span(End, 44, 44)])
  {
    QuerySource(s);
    QueryLooksFrom0(s);
    QueryLooksFrom6(s);
    QueryLooksFrom8(s);
    QueryLooksFrom14(s);
    QueryLooksFrom16(s);
    QueryLooksFrom22(s);
    QueryLooksFrom24(s);
    QueryLooksFrom30(s);
    QueryLooksFrom32(s);
    QueryLooksFrom38(s);
    QueryLooksFrom40(s);
    QueryTopHeading(s);
    QueryTopEquals(s);
    QueryTwo(s);
    QueryFirstAmpersand(s);
    QueryOrderbyHeading(s);
    QueryOrderbyEquals(s);
    QueryName(s);
    QuerySecondAmpersand(s);
    QueryFilterHeading(s);
    QueryFilterEquals(s);
    QueryOpen(s);
    QueryScore(s);
    QueryFirstSpace(s);
    QueryOperator(s);
    QuerySecondSpace(s);
    QueryThousand(s);
    QueryClose(s);
    QuerySpans(s);
    QueryStream();
  }

  // ----- $filter=Surname eq 'O''Brien' -----

  lemma {:induction false} FilterPieces()
    ensures "$filter=Surname eq 'O''Brien'" == "$filter=" + "Surname " + "eq 'O''B" + "rien'"
  {
  }

  lemma {:induction false} FilterSource(s: seq<Unit>)
    requires s == Units("$filter=Surname eq 'O''Brien'")
    ensures s == Units("$filter=") + Units("Surname ") + Units("eq 'O''B") + Units("rien'")
  {
    FilterPieces();
    UnitsAppend("$filter=", "Surname ");
    UnitsAppend("$filter=" + "Surname ", "eq 'O''B");
    UnitsAppend("$filter=" + "Surname " + "eq 'O''B", "rien'");
  }

  lemma {:induction false} FilterLooksFrom0(s: seq<Unit>)
    requires s == Units("$filter=") + Units("Surname ") + Units("eq 'O''B") + Units("rien'")
    ensures LookAt(s, 0) == Got('$' as Unit, 1) && LookAt(s, 1) == Got('f' as Unit, 2)
    ensures LookAt(s, 2) == Got('i' as Unit, 3) && LookAt(s, 3) == Got('l' as Unit, 4)
    ensures LookAt(s, 4) == Got('t' as Unit, 5) && LookAt(s, 5) == Got('e' as Unit, 6)
  {
  }

  lemma {:induction false} FilterLooksFrom6(s: seq<Unit>)
    requires s == Units("$filter=") + Units("Surname ") + Units("eq 'O''B") + Units("rien'")
    ensures LookAt(s, 6) == Got('r' as Unit, 7) && LookAt(s, 7) == Got('=' as Unit, 8)
  {
  }

  lemma {:induction false} FilterLooksFrom8(s: seq<Unit>)
    requires s == Units("$filter=") + Units("Surname ") + Units("eq 'O''B") + Units("rien'")
    ensures LookAt(s, 8) == Got('S' as Unit, 9) && LookAt(s, 9) == Got('u' as Unit, 10)
    ensures LookAt(s, 10) == Got('r' as Unit, 11) && LookAt(s, 11) == Got('n' as Unit, 12)
    ensures LookAt(s, 12) == Got('a' as Unit, 13) && LookAt(s, 13) == Got('m' as Unit, 14)
  {
  }

  lemma {:induction false} FilterLooksFrom14(s: seq<Unit>)
    requires s == Units("$filter=") + Units("Surname ") + Units("eq 'O''B") + Units("rien'")
    ensures LookAt(s, 14) == Got('e' as Unit, 15) && LookAt(s, 15) == Got(' ' as Unit, 16)
  {
  }

  lemma {:induction false} FilterLooksFrom16(s: seq<Unit>)
    requires s == Units("$filter=") + Units("Surname ") + Units("eq 'O''B") + Units("rien'")
    ensures LookAt(s, 16) == Got('e' as Unit, 17) && LookAt(s, 17) == Got('q' as Unit, 18)
    ensures LookAt(s, 18) == Got(' ' as Unit, 19) && LookAt(s, 19) == Got('\'' as Unit, 20)
    ensures LookAt(s, 20) == Got('O' as Unit, 21) && LookAt(s, 21) == Got('\'' as Unit, 22)
  {
  }

  lemma {:induction false} FilterLooksFrom22(s: seq<Unit>)
    requires s == Units("$filter=") + Units("Surname ") + Units("eq 'O''B") + Units("rien'")
    ensures LookAt(s, 22) == Got('\'' as Unit, 23) && LookAt(s, 23) == Got('B' as Unit, 24)
  {
  }

  lemma {:induction false} FilterLooksFrom24(s: seq<Unit>)
    requires s == Units("$filter=") + Units("Surname ") + Units("eq 'O''B") + Units("rien'")
    ensures LookAt(s, 24) == Got('r' as Unit, 25) && LookAt(s, 25) == Got('i' as Unit, 26)
    ensures LookAt(s, 26) == Got('e' as Unit, 27) && LookAt(s, 27) == Got('n' as Unit, 28)
    ensures LookAt(s, 28) == Got('\'' as Unit, 29) && LookAt(s, 29) == Got(NUL, 30)
  {
  }

  lemma {:induction false} FilterHeading(s: seq<Unit>)
    requires LookAt(s, 0) == Got('$' as Unit, 1) && LookAt(s, 1) == Got('f' as Unit, 2)
    requires LookAt(s, 2) == Got('i' as Unit, 3) && LookAt(s, 3) == Got('l' as Unit, 4)
    requires LookAt(s, 4) == Got('t' as Unit, 5) && LookAt(s, 5) == Got('e' as Unit, 6)
    requires LookAt(s, 6) == Got('r' as Unit, 7) && LookAt(s, 7) == Got('=' as Unit, 8)
    ensures Rules(s, 0) == Lexed(Spans.Span(ReservedWord, 0, 7))
  {
    assert RunEnd(s, 7, WordChars) == Ok(7);
    assert RunEnd(s, 6, WordChars) == Ok(7);
    assert RunEnd(s, 5, WordChars) == Ok(7);
    assert RunEnd(s, 4, WordChars) == Ok(7);
    assert RunEnd(s, 3, WordChars) == Ok(7);
    assert RunEnd(s, 2, WordChars) == Ok(7);
    LexerProperties.RulesDispatch(s, 0);
  }

  lemma {:induction false} FilterEquals(s: seq<Unit>)
    requires LookAt(s, 7) == Got('=' as Unit, 8) && LookAt(s, 8) == Got('S' as Unit, 9)
    ensures Rules(s, 7) == Lexed(Spans.Span(Equals, 7, 8))
  {
    LexerProperties.RulesDispatch(s, 7);
  }

  lemma {:induction false} FilterFirstWord(s: seq<Unit>)
    requires LookAt(s, 8) == Got('S' as Unit, 9) && LookAt(s, 9) == Got('u' as Unit, 10)
    requires LookAt(s, 10) == Got('r' as Unit, 11) && LookAt(s, 11) == Got('n' as Unit, 12)
    requires LookAt(s, 12) == Got('a' as Unit, 13) && LookAt(s, 13) == Got('m' as Unit, 14)
    requires LookAt(s, 14) == Got('e' as Unit, 15) && LookAt(s, 15) == Got(' ' as Unit, 16)
    ensures Rules(s, 8) == Lexed(Spans.Span(Word, 8, 15))
  {
    assert RunEnd(s, 15, WordChars) == Ok(15);
    assert RunEnd(s, 14, WordChars) == Ok(15);
    assert RunEnd(s, 13, WordChars) == Ok(15);
    assert RunEnd(s, 12, WordChars) == Ok(15);
    assert RunEnd(s, 11, WordChars) == Ok(15);
    assert RunEnd(s, 10, WordChars) == Ok(15);
    assert RunEnd(s, 9, WordChars) == Ok(15);
    LexerProperties.RulesDispatch(s, 8);
  }

  lemma {:induction false} FilterFirstSpace(s: seq<Unit>)
    requires LookAt(s, 15) == Got(' ' as Unit, 16) && LookAt(s, 16) == Got('e' as Unit, 17)
    ensures Rules(s, 15) == Lexed(Spans.Span(Space, 15, 16))
  {
    assert RunEnd(s, 16, Spaces) == Ok(16);
    LexerProperties.RulesDispatch(s, 15);
  }

  lemma {:induction false} FilterOperator(s: seq<Unit>)
    requires LookAt(s, 16) == Got('e' as Unit, 17) && LookAt(s, 17) == Got('q' as Unit, 18)
    requires LookAt(s, 18) == Got(' ' as Unit, 19)
    ensures Rules(s, 16) == Lexed(Spans.Span(Word, 16, 18))
  {
    assert RunEnd(s, 18, WordChars) == Ok(18);
    assert RunEnd(s, 17, WordChars) == Ok(18);
    LexerProperties.RulesDispatch(s, 16);
  }

  lemma {:induction false} FilterSecondSpace(s: seq<Unit>)
    requires LookAt(s, 18) == Got(' ' as Unit, 19) && LookAt(s, 19) == Got('\'' as Unit, 20)
    ensures Rules(s, 18) == Lexed(Spans.Span(Space, 18, 19))
  {
    assert RunEnd(s, 19, Spaces) == Ok(19);
    LexerProperties.RulesDispatch(s, 18);
  }

  lemma {:induction false} FilterString(s: seq<Unit>)
    requires LookAt(s, 19) == Got('\'' as Unit, 20) && LookAt(s, 20) == Got('O' as Unit, 21)
    requires LookAt(s, 21) == Got('\'' as Unit, 22) && LookAt(s, 22) == Got('\'' as Unit, 23)
    requires LookAt(s, 23) == Got('B' as Unit, 24) && LookAt(s, 24) == Got('r' as Unit, 25)
    requires LookAt(s, 25) == Got('i' as Unit, 26) && LookAt(s, 26) == Got('e' as Unit, 27)
    requires LookAt(s, 27) == Got('n' as Unit, 28) && LookAt(s, 28) == Got('\'' as Unit, 29)
    requires LookAt(s, 29) == Got(NUL, 30)
    ensures Rules(s, 19) == Lexed(Spans.Span(String, 19, 29))
  {
    assert StringEnd(s, 19, 28) == Ok(29);
    assert StringEnd(s, 19, 27) == Ok(29);
    assert StringEnd(s, 19, 26) == Ok(29);
    assert StringEnd(s, 19, 25) == Ok(29);
    assert StringEnd(s, 19, 24) == Ok(29);
    assert StringEnd(s, 19, 23) == Ok(29);
    assert StringEnd(s, 19, 21) == Ok(29);
    assert StringEnd(s, 19, 20) == Ok(29);
    LexerProperties.RulesDispatch(s, 19);
  }

  /** How the loop of `Lex` assembles the stream, and the `Start` span in front of it. */
  lemma {:induction false} FilterStream()
    ensures [Spans.Span(ReservedWord, 0, 7)] + ([Spans.Span(Equals, 7, 8)] + (
      [Spans.Span(Word, 8, 15)] + ([Spans.Span(Space, 15, 16)] + ([Spans.Span(Word, 16, 18)] + (
      [Spans.Span(Space, 18, 19)] + ([Spans.Span(String, 19, 29)] + [Spans.Span(End, 29, 29)])))))) == [
      Spans.Span(ReservedWord, 0, 7), Spans.Span(Equals, 7, 8), Spans.Span(Word, 8, 15),
      Spans.Span(Space, 15, 16), Spans.Span(Word, 16, 18), Spans.Span(Space, 18, 19),
      Spans.Span(String, 19, 29), Spans.Span(End, 29, 29)]
    ensures [Spans.Span(Start, 0, 0)] + [
      Spans.Span(ReservedWord, 0, 7), Spans.Span(Equals, 7, 8), Spans.Span(Word, 8, 15),
      Spans.Span(Space, 15, 16), Spans.Span(Word, 16, 18), Spans.Span(Space, 18, 19),
      Spans.Span(String, 19, 29), Spans.Span(End, 29, 29)] == [
      Spans.Span(Start, 0, 0), Spans.Span(ReservedWord, 0, 7), Spans.Span(Equals, 7, 8),
      Spans.Span(Word, 8, 15), Spans.Span(Space, 15, 16), Spans.Span(Word, 16, 18),
      Spans.Span(Space, 18, 19), Spans.Span(String, 19, 29), Spans.Span(End, 29, 29)]
  {
  }

  lemma {:induction false} FilterSpans(s: seq<Unit>)
    requires |s| == 29
    requires OnChar(s, 0) && Rules(s, 0) == Lexed(Spans.Span(ReservedWord, 0, 7))
    requires OnChar(s, 7) && Rules(s, 7) == Lexed(Spans.Span(Equals, 7, 8))
    requires OnChar(s, 8) && Rules(s, 8) == Lexed(Spans.Span(Word, 8, 15))
    requires OnChar(s, 15) && Rules(s, 15) == Lexed(Spans.Span(Space, 15, 16))
    requires OnChar(s, 16) && Rules(s, 16) == Lexed(Spans.Span(Word, 16, 18))
    requires OnChar(s, 18) && Rules(s, 18) == Lexed(Spans.Span(Space, 18, 19))
    requires OnChar(s, 19) && Rules(s, 19) == Lexed(Spans.Span(String, 19, 29))
    ensures LexFrom(s, 0) == Ok([
      Spans.Span(ReservedWord, 0, 7), Spans.Span(Equals, 7, 8), Spans.Span(Word, 8, 15),
      Spans.Span(Space, 15, 16), Spans.Span(Word, 16, 18), Spans.Span(Space, 18, 19),
      Spans.Span(String, 19, 29), Spans.Span(End, 29, 29)])
  {
    FilterStream();
    var rest := [Spans.Span(End, 29, 29)];
    assert LexFrom(s, 29) == Ok(rest);
    LexerProperties.LexFromStep(s, 19, Spans.Span(String, 19, 29), rest);
    rest := [Spans.Span(String, 19, 29)] + rest;
    LexerProperties.LexFromStep(s, 18, Spans.Span(Space, 18, 19), rest);
    rest := [Spans.Span(Space, 18, 19)] + rest;
    LexerProperties.LexFromStep(s, 16, Spans.Span(Word, 16, 18), rest);
    rest := [Spans.Span(Word, 16, 18)] + rest;
    LexerProperties.LexFromStep(s, 15, Spans.Span(Space, 15, 16), rest);
    rest := [Spans.Span(Space, 15, 16)] + rest;
    LexerProperties.LexFromStep(s, 8, Spans.Span(Word, 8, 15), rest);
    rest := [Spans.Span(Word, 8, 15)] + rest;
    LexerProperties.LexFromStep(s, 7, Spans.Span(Equals, 7, 8), rest);
    rest := [Spans.Span(Equals, 7, 8)] + rest;
    LexerProperties.LexFromStep(s, 0, Spans.Span(ReservedWord, 0, 7), rest);
    rest := [Spans.Span(ReservedWord, 0, 7)] + rest;
  }

  /** A reserved word, a comparison and a string with a doubled quote inside it. */
  lemma {:induction false} FilterWithDoubledQuote(s: seq<Unit>)
    requires s == Units("$filter=Surname eq 'O''Brien'")
    ensures Lexing(s) == Ok([
      Spans.Span(Start, 0, 0), Spans.Span(ReservedWord, 0, 7), Spans.Span(Equals, 7, 8),
      Spans.Span(Word, 8, 15), Spans.Span(Space, 15, 16), Spans.Span(Word, 16, 18),
      Spans.Span(Space, 18, 19), Spans.Span(String, 19, 29), Spans.Span(End, 29, 29)])
  {
    FilterSource(s);
    FilterLooksFrom0(s);
    FilterLooksFrom6(s);
    FilterLooksFrom8(s);
    FilterLooksFrom14(s);
    FilterLooksFrom16(s);
    FilterLooksFrom22(s);
    FilterLooksFrom24(s);
    FilterHeading(s);
    FilterEquals(s);
    FilterFirstWord(s);
    FilterFirstSpace(s);
    FilterOperator(s);
    FilterSecondSpace(s);
    FilterString(s);
    FilterSpans(s);
    FilterStream();
  }

  // ----- (%27Hello%27) -----

  lemma {:induction false} HelloPieces()
    ensures "(%27Hello%27)" == "(%27Hell" + "o%27)"
  {
  }

  lemma {:induction false} HelloSource(s: seq<Unit>)
    requires s == Units("(%27Hello%27)")
    ensures s == Units("(%27Hell") + Units("o%27)")
  {
    HelloPieces();
    UnitsAppend("(%27Hell", "o%27)");
  }

  lemma {:induction false} HelloLooksFrom0(s: seq<Unit>)
    requires s == Units("(%27Hell") + Units("o%27)")
    ensures LookAt(s, 0) == Got('(' as Unit, 1) && LookAt(s, 1) == Got('\'' as Unit, 4)
    ensures LookAt(s, 4) == Got('H' as Unit, 5) && LookAt(s, 5) == Got('e' as Unit, 6)
    ensures LookAt(s, 6) == Got('l' as Unit, 7) && LookAt(s, 7) == Got('l' as Unit, 8)
  {
    assert DecodePair('2' as Unit, '7' as Unit) == '\'' as Unit;
  }

  lemma {:induction false} HelloLooksFrom8(s: seq<Unit>)
    requires s == Units("(%27Hell") + Units("o%27)")
    ensures LookAt(s, 8) == Got('o' as Unit, 9) && LookAt(s, 9) == Got('\'' as Unit, 12)
    ensures LookAt(s, 12) == Got(')' as Unit, 13) && LookAt(s, 13) == Got(NUL, 14)
  {
    assert DecodePair('2' as Unit, '7' as Unit) == '\'' as Unit;
  }

  lemma {:induction false} HelloOpen(s: seq<Unit>)
    requires LookAt(s, 0) == Got('(' as Unit, 1) && LookAt(s, 1) == Got('\'' as Unit, 4)
    ensures Rules(s, 0) == Lexed(Spans.Span(Open, 0, 1))
  {
    LexerProperties.RulesDispatch(s, 0);
  }

  lemma {:induction false} HelloString(s: seq<Unit>)
    requires LookAt(s, 1) == Got('\'' as Unit, 4) && LookAt(s, 4) == Got('H' as Unit, 5)
    requires LookAt(s, 5) == Got('e' as Unit, 6) && LookAt(s, 6) == Got('l' as Unit, 7)
    requires LookAt(s, 7) == Got('l' as Unit, 8) && LookAt(s, 8) == Got('o' as Unit, 9)
    requires LookAt(s, 9) == Got('\'' as Unit, 12) && LookAt(s, 12) == Got(')' as Unit, 13)
    ensures Rules(s, 1) == Lexed(Spans.Span(String, 1, 12))
  {
    assert StringEnd(s, 1, 9) == Ok(12);
    assert StringEnd(s, 1, 8) == Ok(12);
    assert StringEnd(s, 1, 7) == Ok(12);
    assert StringEnd(s, 1, 6) == Ok(12);
    assert StringEnd(s, 1, 5) == Ok(12);
    assert StringEnd(s, 1, 4) == Ok(12);
    LexerProperties.RulesDispatch(s, 1);
  }

  lemma {:induction false} HelloClose(s: seq<Unit>)
    requires LookAt(s, 12) == Got(')' as Unit, 13) && LookAt(s, 13) == Got(NUL, 14)
    ensures Rules(s, 12) == Lexed(Spans.Span(Close, 12, 13))
  {
    LexerProperties.RulesDispatch(s, 12);
  }

  /** How the loop of `Lex` assembles the stream, and the `Start` span in front of it. */
  lemma {:induction false} HelloStream()
    ensures [Spans.Span(Open, 0, 1)] + ([Spans.Span(String, 1, 12)] + (
      [Spans.Span(Close, 12, 13)] + [Spans.Span(End, 13, 13)])) == [
      Spans.Span(Open, 0, 1), Spans.Span(String, 1, 12), Spans.Span(Close, 12, 13),
      Spans.Span(End, 13, 13)]
    ensures [Spans.Span(Start, 0, 0)] + [
      Spans.Span(Open, 0, 1), Spans.Span(String, 1, 12), Spans.Span(Close, 12, 13),
      Spans.Span(End, 13, 13)] == [
      Spans.Span(Start, 0, 0), Spans.Span(Open, 0, 1), Spans.Span(String, 1, 12),
      Spans.Span(Close, 12, 13), Spans.Span(End, 13, 13)]
  {
  }

  lemma {:induction false} HelloSpans(s: seq<Unit>)
    requires |s| == 13
    requires OnChar(s, 0) && Rules(s, 0) == Lexed(Spans.Span(Open, 0, 1))
    requires OnChar(s, 1) && Rules(s, 1) == Lexed(Spans.Span(String, 1, 12))
    requires OnChar(s, 12) && Rules(s, 12) == Lexed(Spans.Span(Close, 12, 13))
    ensures LexFrom(s, 0) == Ok([
      Spans.Span(Open, 0, 1), Spans.Span(String, 1, 12), Spans.Span(Close, 12, 13),
      Spans.Span(End, 13, 13)])
  {
    HelloStream();
    var rest := [Spans.Span(End, 13, 13)];
    assert LexFrom(s, 13) == Ok(rest);
    LexerProperties.LexFromStep(s, 12, Spans.Span(Close, 12, 13), rest);
    rest := [Spans.Span(Close, 12, 13)] + rest;
    LexerProperties.LexFromStep(s, 1, Spans.Span(String, 1, 12), rest);
    rest := [Spans.Span(String, 1, 12)] + rest;
    LexerProperties.LexFromStep(s, 0, Spans.Span(Open, 0, 1), rest);
    rest := [Spans.Span(Open, 0, 1)] + rest;
  }

  lemma {:induction false} HelloTextFrom6(s: seq<Unit>)
    requires |s| == 13
    requires LookAt(s, 6) == Got('l' as Unit, 7) && LookAt(s, 7) == Got('l' as Unit, 8)
    requires LookAt(s, 8) == Got('o' as Unit, 9) && LookAt(s, 9) == Got('\'' as Unit, 12)
    ensures Reader.ReadAll(s, 6, 6) == Ok([
      Reader.Logical('l' as Unit, 6, 7), Reader.Logical('l' as Unit, 7, 8),
      Reader.Logical('o' as Unit, 8, 9), Reader.Logical('\'' as Unit, 9, 12)])
  {
    var cs: seq<Reader.Logical> := [];
    assert Reader.ReadAll(s, 12, 0) == Ok(cs);
    LexerProperties.LookAtInWindow(s, 9, 12);
    cs := [Reader.Logical('\'' as Unit, 9, 12)] + cs;
    assert Reader.ReadAll(s, 9, 3) == Ok(cs);
    LexerProperties.LookAtInWindow(s, 8, 12);
    cs := [Reader.Logical('o' as Unit, 8, 9)] + cs;
    assert Reader.ReadAll(s, 8, 4) == Ok(cs);
    LexerProperties.LookAtInWindow(s, 7, 12);
    cs := [Reader.Logical('l' as Unit, 7, 8)] + cs;
    assert Reader.ReadAll(s, 7, 5) == Ok(cs);
    LexerProperties.LookAtInWindow(s, 6, 12);
    cs := [Reader.Logical('l' as Unit, 6, 7)] + cs;
    assert Reader.ReadAll(s, 6, 6) == Ok(cs);
    assert cs == [
        Reader.Logical('l' as Unit, 6, 7), Reader.Logical('l' as Unit, 7, 8),
        Reader.Logical('o' as Unit, 8, 9), Reader.Logical('\'' as Unit, 9, 12)];
  }

  /** The string's raw extent `[1, 12)` decodes to seven logical characters, the quotes three raw
      characters wide. */
  lemma {:induction false} HelloText(s: seq<Unit>)
    requires |s| == 13
    requires LookAt(s, 1) == Got('\'' as Unit, 4) && LookAt(s, 4) == Got('H' as Unit, 5)
    requires LookAt(s, 5) == Got('e' as Unit, 6) && LookAt(s, 6) == Got('l' as Unit, 7)
    requires LookAt(s, 7) == Got('l' as Unit, 8) && LookAt(s, 8) == Got('o' as Unit, 9)
    requires LookAt(s, 9) == Got('\'' as Unit, 12)
    ensures LexerProperties.Text(s, Spans.Span(String, 1, 12)) == Ok([
      Reader.Logical('\'' as Unit, 1, 4), Reader.Logical('H' as Unit, 4, 5),
      Reader.Logical('e' as Unit, 5, 6), Reader.Logical('l' as Unit, 6, 7),
      Reader.Logical('l' as Unit, 7, 8), Reader.Logical('o' as Unit, 8, 9),
      Reader.Logical('\'' as Unit, 9, 12)])
  {
    HelloTextFrom6(s);
    var cs: seq<Reader.Logical> := [
        Reader.Logical('l' as Unit, 6, 7), Reader.Logical('l' as Unit, 7, 8),
        Reader.Logical('o' as Unit, 8, 9), Reader.Logical('\'' as Unit, 9, 12)];
    LexerProperties.LookAtInWindow(s, 5, 12);
    cs := [Reader.Logical('e' as Unit, 5, 6)] + cs;
    assert Reader.ReadAll(s, 5, 7) == Ok(cs);
    LexerProperties.LookAtInWindow(s, 4, 12);
    cs := [Reader.Logical('H' as Unit, 4, 5)] + cs;
    assert Reader.ReadAll(s, 4, 8) == Ok(cs);
    LexerProperties.LookAtInWindow(s, 1, 12);
    cs := [Reader.Logical('\'' as Unit, 1, 4)] + cs;
    assert Reader.ReadAll(s, 1, 11) == Ok(cs);
    assert cs == [
        Reader.Logical('\'' as Unit, 1, 4), Reader.Logical('H' as Unit, 4, 5),
        Reader.Logical('e' as Unit, 5, 6), Reader.Logical('l' as Unit, 6, 7),
        Reader.Logical('l' as Unit, 7, 8), Reader.Logical('o' as Unit, 8, 9),
        Reader.Logical('\'' as Unit, 9, 12)];
  }

  lemma {:induction false} HelloChars()
    ensures Reader.Chars([
      Reader.Logical('\'' as Unit, 1, 4), Reader.Logical('H' as Unit, 4, 5),
      Reader.Logical('e' as Unit, 5, 6), Reader.Logical('l' as Unit, 6, 7),
      Reader.Logical('l' as Unit, 7, 8), Reader.Logical('o' as Unit, 8, 9),
      Reader.Logical('\'' as Unit, 9, 12)]) == Units("'Hello'")
  {
  }

  /** Percent-encoded quotes open and close a string; the span covers their raw extent. */
  lemma {:induction false} PercentEncodedQuotes(s: seq<Unit>)
    requires s == Units("(%27Hello%27)")
    ensures Lexing(s) == Ok([
      Spans.Span(Start, 0, 0), Spans.Span(Open, 0, 1), Spans.Span(String, 1, 12),
      Spans.Span(Close, 12, 13), Spans.Span(End, 13, 13)])
    ensures LexerProperties.Text(s, Spans.Span(String, 1, 12)).Ok?
    ensures Reader.Chars(LexerProperties.Text(s, Spans.Span(String, 1, 12)).value) == Units("'Hello'")
  {
    HelloSource(s);
    HelloLooksFrom0(s);
    HelloLooksFrom8(s);
    HelloOpen(s);
    HelloString(s);
    HelloClose(s);
    HelloSpans(s);
    HelloStream();
    HelloText(s);
    HelloChars();
  }

  // ----- $filter=%28Surname eq %27O%27%27Brien%27%29 -----

  lemma {:induction false} EncodedPieces()
    ensures "$filter=%28Surname eq %27O%27%27Brien%27%29" == "$filter=" + "%28Surna" + "me eq %2" + "7O%27%27" + "Brien%27" + "%29"
  {
  }

  lemma {:induction false} EncodedSource(s: seq<Unit>)
    requires s == Units("$filter=%28Surname eq %27O%27%27Brien%27%29")
    ensures s == Units("$filter=") + Units("%28Surna") + Units("me eq %2") + Units("7O%27%27") + Units("Brien%27") + Units("%29")
  {
    EncodedPieces();
    UnitsAppend("$filter=", "%28Surna");
    UnitsAppend("$filter=" + "%28Surna", "me eq %2");
    UnitsAppend("$filter=" + "%28Surna" + "me eq %2", "7O%27%27");
    UnitsAppend("$filter=" + "%28Surna" + "me eq %2" + "7O%27%27", "Brien%27");
    UnitsAppend("$filter=" + "%28Surna" + "me eq %2" + "7O%27%27" + "Brien%27", "%29");
  }

  lemma {:induction false} EncodedLooksFrom0(s: seq<Unit>)
    requires s == Units("$filter=") + Units("%28Surna") + Units("me eq %2") + Units("7O%27%27") + Units("Brien%27") + Units("%29")
    ensures LookAt(s, 0) == Got('$' as Unit, 1) && LookAt(s, 1) == Got('f' as Unit, 2)
    ensures LookAt(s, 2) == Got('i' as Unit, 3) && LookAt(s, 3) == Got('l' as Unit, 4)
    ensures LookAt(s, 4) == Got('t' as Unit, 5) && LookAt(s, 5) == Got('e' as Unit, 6)
  {
  }

  lemma {:induction false} EncodedLooksFrom6(s: seq<Unit>)
    requires s == Units("$filter=") + Units("%28Surna") + Units("me eq %2") + Units("7O%27%27") + Units("Brien%27") + Units("%29")
    ensures LookAt(s, 6) == Got('r' as Unit, 7) && LookAt(s, 7) == Got('=' as Unit, 8)
  {
  }

  lemma {:induction false} EncodedLooksFrom8(s: seq<Unit>)
    requires s == Units("$filter=") + Units("%28Surna") + Units("me eq %2") + Units("7O%27%27") + Units("Brien%27") + Units("%29")
    ensures LookAt(s, 8) == Got('(' as Unit, 11) && LookAt(s, 11) == Got('S' as Unit, 12)
    ensures LookAt(s, 12) == Got('u' as Unit, 13) && LookAt(s, 13) == Got('r' as Unit, 14)
    ensures LookAt(s, 14) == Got('n' as Unit, 15) && LookAt(s, 15) == Got('a' as Unit, 16)
  {
    assert DecodePair('2' as Unit, '8' as Unit) == '(' as Unit;
  }

  lemma {:induction false} EncodedLooksFrom16(s: seq<Unit>)
    requires s == Units("$filter=") + Units("%28Surna") + Units("me eq %2") + Units("7O%27%27") + Units("Brien%27") + Units("%29")
    ensures LookAt(s, 16) == Got('m' as Unit, 17) && LookAt(s, 17) == Got('e' as Unit, 18)
    ensures LookAt(s, 18) == Got(' ' as Unit, 19) && LookAt(s, 19) == Got('e' as Unit, 20)
    ensures LookAt(s, 20) == Got('q' as Unit, 21) && LookAt(s, 21) == Got(' ' as Unit, 22)
  {
  }

  lemma {:induction false} EncodedLooksFrom22(s: seq<Unit>)
    requires s == Units("$filter=") + Units("%28Surna") + Units("me eq %2") + Units("7O%27%27") + Units("Brien%27") + Units("%29")
    ensures LookAt(s, 22) == Got('\'' as Unit, 25)
  {
    assert DecodePair('2' as Unit, '7' as Unit) == '\'' as Unit;
  }

  lemma {:induction false} EncodedLooksFrom25(s: seq<Unit>)
    requires s == Units("$filter=") + Units("%28Surna") + Units("me eq %2") + Units("7O%27%27") + Units("Brien%27") + Units("%29")
    ensures LookAt(s, 25) == Got('O' as Unit, 26) && LookAt(s, 26) == Got('\'' as Unit, 29)
    ensures LookAt(s, 29) == Got('\'' as Unit, 32)
  {
    assert DecodePair('2' as Unit, '7' as Unit) == '\'' as Unit;
  }

  lemma {:induction false} EncodedLooksFrom32(s: seq<Unit>)
    requires s == Units("$filter=") + Units("%28Surna") + Units("me eq %2") + Units("7O%27%27") + Units("Brien%27") + Units("%29")
    ensures LookAt(s, 32) == Got('B' as Unit, 33) && LookAt(s, 33) == Got('r' as Unit, 34)
    ensures LookAt(s, 34) == Got('i' as Unit, 35) && LookAt(s, 35) == Got('e' as Unit, 36)
    ensures LookAt(s, 36) == Got('n' as Unit, 37) && LookAt(s, 37) == Got('\'' as Unit, 40)
  {
    assert DecodePair('2' as Unit, '7' as Unit) == '\'' as Unit;
  }

  lemma {:induction false} EncodedLooksFrom40(s: seq<Unit>)
    requires s == Units("$filter=") + Units("%28Surna") + Units("me eq %2") + Units("7O%27%27") + Units("Brien%27") + Units("%29")
    ensures LookAt(s, 40) == Got(')' as Unit, 43) && LookAt(s, 43) == Got(NUL, 44)
  {
    assert DecodePair('2' as Unit, '9' as Unit) == ')' as Unit;
  }

  lemma {:induction false} EncodedHeading(s: seq<Unit>)
    requires LookAt(s, 0) == Got('$' as Unit, 1) && LookAt(s, 1) == Got('f' as Unit, 2)
    requires LookAt(s, 2) == Got('i' as Unit, 3) && LookAt(s, 3) == Got('l' as Unit, 4)
    requires LookAt(s, 4) == Got('t' as Unit, 5) && LookAt(s, 5) == Got('e' as Unit, 6)
    requires LookAt(s, 6) == Got('r' as Unit, 7) && LookAt(s, 7) == Got('=' as Unit, 8)
    ensures Rules(s, 0) == Lexed(Spans.Span(ReservedWord, 0, 7))
  {
    assert RunEnd(s, 7, WordChars) == Ok(7);
    assert RunEnd(s, 6, WordChars) == Ok(7);
    assert RunEnd(s, 5, WordChars) == Ok(7);
    assert RunEnd(s, 4, WordChars) == Ok(7);
    assert RunEnd(s, 3, WordChars) == Ok(7);
    assert RunEnd(s, 2, WordChars) == Ok(7);
    LexerProperties.RulesDispatch(s, 0);
  }

  lemma {:induction false} EncodedEquals(s: seq<Unit>)
    requires LookAt(s, 7) == Got('=' as Unit, 8) && LookAt(s, 8) == Got('(' as Unit, 11)
    ensures Rules(s, 7) == Lexed(Spans.Span(Equals, 7, 8))
  {
    LexerProperties.RulesDispatch(s, 7);
  }

  lemma {:induction false} EncodedOpen(s: seq<Unit>)
    requires LookAt(s, 8) == Got('(' as Unit, 11) && LookAt(s, 11) == Got('S' as Unit, 12)
    ensures Rules(s, 8) == Lexed(Spans.Span(Open, 8, 11))
  {
    LexerProperties.RulesDispatch(s, 8);
  }

  lemma {:induction false} EncodedFirstWord(s: seq<Unit>)
    requires LookAt(s, 11) == Got('S' as Unit, 12) && LookAt(s, 12) == Got('u' as Unit, 13)
    requires LookAt(s, 13) == Got('r' as Unit, 14) && LookAt(s, 14) == Got('n' as Unit, 15)
    requires LookAt(s, 15) == Got('a' as Unit, 16) && LookAt(s, 16) == Got('m' as Unit, 17)
    requires LookAt(s, 17) == Got('e' as Unit, 18) && LookAt(s, 18) == Got(' ' as Unit, 19)
    ensures Rules(s, 11) == Lexed(Spans.Span(Word, 11, 18))
  {
    assert RunEnd(s, 18, WordChars) == Ok(18);
    assert RunEnd(s, 17, WordChars) == Ok(18);
    assert RunEnd(s, 16, WordChars) == Ok(18);
    assert RunEnd(s, 15, WordChars) == Ok(18);
    assert RunEnd(s, 14, WordChars) == Ok(18);
    assert RunEnd(s, 13, WordChars) == Ok(18);
    assert RunEnd(s, 12, WordChars) == Ok(18);
    LexerProperties.RulesDispatch(s, 11);
  }

  lemma {:induction false} EncodedFirstSpace(s: seq<Unit>)
    requires LookAt(s, 18) == Got(' ' as Unit, 19) && LookAt(s, 19) == Got('e' as Unit, 20)
    ensures Rules(s, 18) == Lexed(Spans.Span(Space, 18, 19))
  {
    assert RunEnd(s, 19, Spaces) == Ok(19);
    LexerProperties.RulesDispatch(s, 18);
  }

  lemma {:induction false} EncodedOperator(s: seq<Unit>)
    requires LookAt(s, 19) == Got('e' as Unit, 20) && LookAt(s, 20) == Got('q' as Unit, 21)
    requires LookAt(s, 21) == Got(' ' as Unit, 22)
    ensures Rules(s, 19) == Lexed(Spans.Span(Word, 19, 21))
  {
    assert RunEnd(s, 21, WordChars) == Ok(21);
    assert RunEnd(s, 20, WordChars) == Ok(21);
    LexerProperties.RulesDispatch(s, 19);
  }

  lemma {:induction false} EncodedSecondSpace(s: seq<Unit>)
    requires LookAt(s, 21) == Got(' ' as Unit, 22) && LookAt(s, 22) == Got('\'' as Unit, 25)
    ensures Rules(s, 21) == Lexed(Spans.Span(Space, 21, 22))
  {
    assert RunEnd(s, 22, Spaces) == Ok(22);
    LexerProperties.RulesDispatch(s, 21);
  }

  lemma {:induction false} EncodedString(s: seq<Unit>)
    requires LookAt(s, 22) == Got('\'' as Unit, 25) && LookAt(s, 25) == Got('O' as Unit, 26)
    requires LookAt(s, 26) == Got('\'' as Unit, 29) && LookAt(s, 29) == Got('\'' as Unit, 32)
    requires LookAt(s, 32) == Got('B' as Unit, 33) && LookAt(s, 33) == Got('r' as Unit, 34)
    requires LookAt(s, 34) == Got('i' as Unit, 35) && LookAt(s, 35) == Got('e' as Unit, 36)
    requires LookAt(s, 36) == Got('n' as Unit, 37) && LookAt(s, 37) == Got('\'' as Unit, 40)
    requires LookAt(s, 40) == Got(')' as Unit, 43)
    ensures Rules(s, 22) == Lexed(Spans.Span(String, 22, 40))
  {
    assert StringEnd(s, 22, 37) == Ok(40);
    assert StringEnd(s, 22, 36) == Ok(40);
    assert StringEnd(s, 22, 35) == Ok(40);
    assert StringEnd(s, 22, 34) == Ok(40);
    assert StringEnd(s, 22, 33) == Ok(40);
    assert StringEnd(s, 22, 32) == Ok(40);
    assert StringEnd(s, 22, 26) == Ok(40);
    assert StringEnd(s, 22, 25) == Ok(40);
    LexerProperties.RulesDispatch(s, 22);
  }

  lemma {:induction false} EncodedClose(s: seq<Unit>)
    requires LookAt(s, 40) == Got(')' as Unit, 43) && LookAt(s, 43) == Got(NUL, 44)
    ensures Rules(s, 40) == Lexed(Spans.Span(Close, 40, 43))
  {
    LexerProperties.RulesDispatch(s, 40);
  }

  /** How the loop of `Lex` assembles the stream, and the `Start` span in front of it. */
  lemma {:induction false} EncodedStream()
    ensures [Spans.Span(ReservedWord, 0, 7)] + ([Spans.Span(Equals, 7, 8)] + (
      [Spans.Span(Open, 8, 11)] + ([Spans.Span(Word, 11, 18)] + ([Spans.Span(Space, 18, 19)] + (
      [Spans.Span(Word, 19, 21)] + ([Spans.Span(Space, 21, 22)] + ([Spans.Span(String, 22, 40)] + (
      [Spans.Span(Close, 40, 43)] + [Spans.Span(End, 43, 43)])))))))) == [
      Spans.Span(ReservedWord, 0, 7), Spans.Span(Equals, 7, 8), Spans.Span(Open, 8, 11),
      Spans.Span(Word, 11, 18), Spans.Span(Space, 18, 19), Spans.Span(Word, 19, 21),
      Spans.Span(Space, 21, 22), Spans.Span(String, 22, 40), Spans.Span(Close, 40, 43),
      Spans.Span(End, 43, 43)]
    ensures [Spans.Span(Start, 0, 0)] + [
      Spans.Span(ReservedWord, 0, 7), Spans.Span(Equals, 7, 8), Spans.Span(Open, 8, 11),
      Spans.Span(Word, 11, 18), Spans.Span(Space, 18, 19), Spans.Span(Word, 19, 21),
      Spans.Span(Space, 21, 22), Spans.Span(String, 22, 40), Spans.Span(Close, 40, 43),
      Spans.Span(End, 43, 43)] == [
      Spans.Span(Start, 0, 0), Spans.Span(ReservedWord, 0, 7), Spans.Span(Equals, 7, 8),
      Spans.Span(Open, 8, 11), Spans.Span(Word, 11, 18), Spans.Span(Space, 18, 19),
      Spans.Span(Word, 19, 21), Spans.Span(Space, 21, 22), Spans.Span(String, 22, 40),
      Spans.Span(Close, 40, 43), Spans.Span(End, 43, 43)]
  {
  }

  lemma {:induction false} EncodedSpans(s: seq<Unit>)
    requires |s| == 43
    requires OnChar(s, 0) && Rules(s, 0) == Lexed(Spans.Span(ReservedWord, 0, 7))
    requires OnChar(s, 7) && Rules(s, 7) == Lexed(Spans.Span(Equals, 7, 8))
    requires OnChar(s, 8) && Rules(s, 8) == Lexed(Spans.Span(Open, 8, 11))
    requires OnChar(s, 11) && Rules(s, 11) == Lexed(Spans.Span(Word, 11, 18))
    requires OnChar(s, 18) && Rules(s, 18) == Lexed(Spans.Span(Space, 18, 19))
    requires OnChar(s, 19) && Rules(s, 19) == Lexed(Spans.Span(Word, 19, 21))
    requires OnChar(s, 21) && Rules(s, 21) == Lexed(Spans.Span(Space, 21, 22))
    requires OnChar(s, 22) && Rules(s, 22) == Lexed(Spans.Span(String, 22, 40))
    requires OnChar(s, 40) && Rules(s, 40) == Lexed(Spans.Span(Close, 40, 43))
    ensures LexFrom(s, 0) == Ok([
      Spans.Span(ReservedWord, 0, 7), Spans.Span(Equals, 7, 8), Spans.Span(Open, 8, 11),
      Spans.Span(Word, 11, 18), Spans.Span(Space, 18, 19), Spans.Span(Word, 19, 21),
      Spans.Span(Space, 21, 22), Spans.Span(String, 22, 40), Spans.Span(Close, 40, 43),
      Spans.Span(End, 43, 43)])
  {
    EncodedStream();
    var rest := [Spans.Span(End, 43, 43)];
    assert LexFrom(s, 43) == Ok(rest);
    LexerProperties.LexFromStep(s, 40, Spans.Span(Close, 40, 43), rest);
    rest := [Spans.Span(Close, 40, 43)] + rest;
    LexerProperties.LexFromStep(s, 22, Spans.Span(String, 22, 40), rest);
    rest := [Spans.Span(String, 22, 40)] + rest;
    LexerProperties.LexFromStep(s, 21, Spans.Span(Space, 21, 22), rest);
    rest := [Spans.Span(Space, 21, 22)] + rest;
    LexerProperties.LexFromStep(s, 19, Spans.Span(Word, 19, 21), rest);
    rest := [Spans.Span(Word, 19, 21)] + rest;
    LexerProperties.LexFromStep(s, 18, Spans.Span(Space, 18, 19), rest);
    rest := [Spans.Span(Space, 18, 19)] + rest;
    LexerProperties.LexFromStep(s, 11, Spans.Span(Word, 11, 18), rest);
    rest := [Spans.Span(Word, 11, 18)] + rest;
    LexerProperties.LexFromStep(s, 8, Spans.Span(Open, 8, 11), rest);
    rest := [Spans.Span(Open, 8, 11)] + rest;
    LexerProperties.LexFromStep(s, 7, Spans.Span(Equals, 7, 8), rest);
    rest := [Spans.Span(Equals, 7, 8)] + rest;
    LexerProperties.LexFromStep(s, 0, Spans.Span(ReservedWord, 0, 7), rest);
    rest := [Spans.Span(ReservedWord, 0, 7)] + rest;
  }

  /** Percent-encoded parentheses and quotes, a doubled one among them: each token spans the raw characters it was decoded from. */
  lemma {:induction false} PercentEncodedFilter(s: seq<Unit>)
    requires s == Units("$filter=%28Surname eq %27O%27%27Brien%27%29")
    ensures Lexing(s) == Ok([
      Spans.Span(Start, 0, 0), Spans.Span(ReservedWord, 0, 7), Spans.Span(Equals, 7, 8),
      Spans.Span(Open, 8, 11), Spans.Span(Word, 11, 18), Spans.Span(Space, 18, 19),
      Spans.Span(Word, 19, 21), Spans.Span(Space, 21, 22), Spans.Span(String, 22, 40),
      Spans.Span(Close, 40, 43), Spans.Span(End, 43, 43)])
  {
    EncodedSource(s);
    EncodedLooksFrom0(s);
    EncodedLooksFrom6(s);
    EncodedLooksFrom8(s);
    EncodedLooksFrom16(s);
    EncodedLooksFrom22(s);
    EncodedLooksFrom25(s);
    EncodedLooksFrom32(s);
    EncodedLooksFrom40(s);
    EncodedHeading(s);
    EncodedEquals(s);
    EncodedOpen(s);
    EncodedFirstWord(s);
    EncodedFirstSpace(s);
    EncodedOperator(s);
    EncodedSecondSpace(s);
    EncodedString(s);
    EncodedClose(s);
    EncodedSpans(s);
    EncodedStream();
  }

  // ----- %27Blah%27 -----

  lemma {:induction false} BlahPieces()
    ensures "%27Blah%27" == "%27Blah%" + "27"
  {
  }

  lemma {:induction false} BlahSource(s: seq<Unit>)
    requires s == Units("%27Blah%27")
    ensures s == Units("%27Blah%") + Units("27")
  {
    BlahPieces();
    UnitsAppend("%27Blah%", "27");
  }

  lemma {:induction false} BlahLooksFrom0(s: seq<Unit>)
    requires s == Units("%27Blah%") + Units("27")
    ensures LookAt(s, 0) == Got('\'' as Unit, 3) && LookAt(s, 3) == Got('B' as Unit, 4)
    ensures LookAt(s, 4) == Got('l' as Unit, 5) && LookAt(s, 5) == Got('a' as Unit, 6)
    ensures LookAt(s, 6) == Got('h' as Unit, 7) && LookAt(s, 7) == Got('\'' as Unit, 10)
  {
    assert DecodePair('2' as Unit, '7' as Unit) == '\'' as Unit;
  }

  lemma {:induction false} BlahLooksFrom10(s: seq<Unit>)
    requires s == Units("%27Blah%") + Units("27")
    ensures LookAt(s, 10) == Got(NUL, 11)
  {
  }

  lemma {:induction false} BlahString(s: seq<Unit>)
    requires LookAt(s, 0) == Got('\'' as Unit, 3) && LookAt(s, 3) == Got('B' as Unit, 4)
    requires LookAt(s, 4) == Got('l' as Unit, 5) && LookAt(s, 5) == Got('a' as Unit, 6)
    requires LookAt(s, 6) == Got('h' as Unit, 7) && LookAt(s, 7) == Got('\'' as Unit, 10)
    requires LookAt(s, 10) == Got(NUL, 11)
    ensures Rules(s, 0) == Lexed(Spans.Span(String, 0, 10))
  {
    assert StringEnd(s, 0, 7) == Ok(10);
    assert StringEnd(s, 0, 6) == Ok(10);
    assert StringEnd(s, 0, 5) == Ok(10);
    assert StringEnd(s, 0, 4) == Ok(10);
    assert StringEnd(s, 0, 3) == Ok(10);
    LexerProperties.RulesDispatch(s, 0);
  }

  /** How the loop of `Lex` assembles the stream, and the `Start` span in front of it. */
  lemma {:induction false} BlahStream()
    ensures [Spans.Span(String, 0, 10)] + [Spans.Span(End, 10, 10)] == [
      Spans.Span(String, 0, 10), Spans.Span(End, 10, 10)]
    ensures [Spans.Span(Start, 0, 0)] + [
      Spans.Span(String, 0, 10), Spans.Span(End, 10, 10)] == [
      Spans.Span(Start, 0, 0), Spans.Span(String, 0, 10), Spans.Span(End, 10, 10)]
  {
  }

  lemma {:induction false} BlahSpans(s: seq<Unit>)
    requires |s| == 10
    requires OnChar(s, 0) && Rules(s, 0) == Lexed(Spans.Span(String, 0, 10))
    ensures LexFrom(s, 0) == Ok([
      Spans.Span(String, 0, 10), Spans.Span(End, 10, 10)])
  {
    BlahStream();
    var rest := [Spans.Span(End, 10, 10)];
    assert LexFrom(s, 10) == Ok(rest);
    LexerProperties.LexFromStep(s, 0, Spans.Span(String, 0, 10), rest);
    rest := [Spans.Span(String, 0, 10)] + rest;
  }

  /** A string that is percent-encoded from its first raw character to its last. */
  lemma {:induction false} StringWithPercents(s: seq<Unit>)
    requires s == Units("%27Blah%27")
    ensures Lexing(s) == Ok([
      Spans.Span(Start, 0, 0), Spans.Span(String, 0, 10), Spans.Span(End, 10, 10)])
  {
    BlahSource(s);
    BlahLooksFrom0(s);
    BlahLooksFrom10(s);
    BlahString(s);
    BlahSpans(s);
    BlahStream();
  }

  // ----- edge cases of the rules as written -----

  /** A lone '$': `LexHeading` swallows the NUL past the end, so the reserved word and `End` lie one
      offset beyond the source. */
  lemma {:induction false} DollarAtEnd(s: seq<Unit>)
    requires s == Units("$")
    ensures Lexing(s) == Ok([Spans.Span(Start, 0, 0), Spans.Span(ReservedWord, 0, 2), Spans.Span(End, 2, 2)])
  {
    assert LookAt(s, 0) == Got(DOLLAR, 1);
    assert LookAt(s, 1) == Got(NUL, 2);
    assert LookAt(s, 2) == Got(NUL, 3);
    LexerProperties.RulesDispatch(s, 0);
    var word, end := Spans.Span(ReservedWord, 0, 2), Spans.Span(End, 2, 2);
    assert Rules(s, 0) == Lexed(word);
    assert LexFrom(s, 0) == Ok([word] + [end]);
    assert [Spans.Span(Start, 0, 0)] + ([word] + [end]) == [Spans.Span(Start, 0, 0), word, end];
  }

  /** `LexHeading` takes the character after '$' whatever it is: the '=' that ends a run elsewhere
      is part of the reserved word, and so is the word after it. */
  lemma {:induction false} DollarSkipsEquals(s: seq<Unit>)
    requires s == Units("$=x")
    ensures Lexing(s) == Ok([Spans.Span(Start, 0, 0), Spans.Span(ReservedWord, 0, 3), Spans.Span(End, 3, 3)])
  {
    assert LookAt(s, 0) == Got(DOLLAR, 1);
    assert LookAt(s, 1) == Got('=' as Unit, 2);
    assert LookAt(s, 2) == Got('x' as Unit, 3);
    assert LookAt(s, 3) == Got(NUL, 4);
    NulInNoClass();
    assert RunEnd(s, 2, WordChars) == Ok(3);
    LexerProperties.RulesDispatch(s, 0);
    LexerProperties.LoneToken(s, ReservedWord);
  }

  /** A '%' with only one raw character after it stops the lexer where the '%' is. */
  lemma {:induction false} CutPercent(s: seq<Unit>)
    requires s == Units("a%2")
    ensures Lexing(s) == Err(PastEndOfString(1))
  {
    assert LookAt(s, 0) == Got('a' as Unit, 1);
    assert LookAt(s, 1) == PercentCut;
    LexerProperties.RulesDispatch(s, 0);
    assert Rules(s, 0) == Failed(PastEndOfString(1));
  }

  /** A character no rule takes. */
  lemma {:induction false} NoRuleForColon(s: seq<Unit>)
    requires s == Units("a:")
    ensures Lexing(s) == Err(NoRuleMatches(1))
  {
    assert LookAt(s, 0) == Got('a' as Unit, 1);
    assert LookAt(s, 1) == Got(':' as Unit, 2);
    LexerProperties.RulesDispatch(s, 0);
    assert Rules(s, 0) == Lexed(Spans.Span(Word, 0, 1));
    assert LexerProperties.KindOf(':' as Unit) == Token.None;
    LexerProperties.RulesKind(s, 1);
    assert LexFrom(s, 1) == Err(NoRuleMatches(1));
  }

  /** A string that is never closed: `LexString` would read NULs forever. */
  lemma {:induction false} UnclosedString(s: seq<Unit>)
    requires s == Units("'ab")
    ensures Lexing(s) == Err(Unterminated(0))
  {
    assert LookAt(s, 0) == Got('\'' as Unit, 1);
    assert LookAt(s, 3) == Got(NUL, 4);
    assert StringEnd(s, 0, 3) == Err(Unterminated(0));
    assert StringEnd(s, 0, 2) == Err(Unterminated(0));
    assert StringEnd(s, 0, 1) == Err(Unterminated(0));
    LexerProperties.RulesDispatch(s, 0);
  }
}
