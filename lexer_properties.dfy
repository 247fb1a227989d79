/** What the token stream of Parser/Lexer.cs is: its sentinels and tiling, the kind each first
    character selects, what each token's decoded text holds, and what each error points at. */
module LexerProperties {
  import opened Wrappers
  import opened CharExtensions
  import opened Lexer
  import Reader
  import Spans

  // ----- shape of the stream -----

  /** The spans lie end to end from `from` to `to`, none of them empty. */
  ghost predicate Tiled(spans: seq<TokenSpan>, from: int, to: int) {
    (spans == [] ==> from == to) &&
    (spans != [] ==> spans[0].left == from && spans[|spans| - 1].right == to) &&
    (forall i | 0 <= i < |spans| :: spans[i].left < spans[i].right) &&
    (forall i | 0 <= i < |spans| - 1 :: spans[i].right == spans[i + 1].left)
  }

  /** Every span is what the rules give at its left offset. */
  ghost predicate ByRules(source: seq<Unit>, spans: seq<TokenSpan>) {
    forall i | 0 <= i < |spans| ::
      spans[i].left >= 0 && OnChar(source, spans[i].left) && Rules(source, spans[i].left) == Lexed(spans[i])
  }

  /** The loop ends with `End(m, m)`, where `m` is the end of the source or, after a reserved word
      that ran past it, one beyond. */
  lemma {:induction false} LexFromEnd(source: seq<Unit>, a: nat)
    requires OnChar(source, a) && LexFrom(source, a).Ok?
    ensures var spans := LexFrom(source, a).value;
      |spans| >= 1 &&
      var m := spans[|spans| - 1].left;
      spans[|spans| - 1] == Spans.Span(End, m, m) &&
      (a >= |source| ==> m == a) &&
      (a < |source| ==> |source| <= m <= |source| + 1) &&
      (a < |source| && m > |source| ==> |spans| >= 2 && spans[|spans| - 2].token == ReservedWord)
    decreases |source| - a
  {
    if a < |source| {
      var s := Rules(source, a).span;
      LexFromEnd(source, s.right);
      var rest := LexFrom(source, s.right).value;
      assert LexFrom(source, a).value == [s] + rest;
      LastOfCons(s, rest);
    }
  }

  /** Putting a span in front keeps the last span and, from two spans on, the one before it. */
  lemma {:induction false} LastOfCons(s: TokenSpan, rest: seq<TokenSpan>)
    requires |rest| >= 1
    ensures var spans := [s] + rest;
      |spans| == |rest| + 1 && spans[|spans| - 1] == rest[|rest| - 1] &&
      spans[|spans| - 2] == (if |rest| >= 2 then rest[|rest| - 2] else s)
  {
  }

  /** The tokens before `End` tile `[a, m)` and are each what the rules give at their left offset. */
  lemma {:induction false} LexFromTiled(source: seq<Unit>, a: nat)
    requires OnChar(source, a) && LexFrom(source, a).Ok?
    ensures var spans := LexFrom(source, a).value;
      |spans| >= 1 &&
      Tiled(spans[..|spans| - 1], a, spans[|spans| - 1].left) && ByRules(source, spans[..|spans| - 1])
    decreases |source| - a
  {
    if a < |source| {
      var s := Rules(source, a).span;
      LexFromTiled(source, s.right);
      var rest := LexFrom(source, s.right).value;
      var spans := LexFrom(source, a).value;
      assert spans == [s] + rest;
      assert spans[..|spans| - 1] == [s] + rest[..|rest| - 1];
      TiledCons(s, rest[..|rest| - 1], rest[|rest| - 1].left);
      ByRulesCons(source, s, rest[..|rest| - 1]);
    }
  }

  lemma {:induction false} TiledCons(s: TokenSpan, body: seq<TokenSpan>, to: int)
    requires s.left < s.right && Tiled(body, s.right, to)
    ensures Tiled([s] + body, s.left, to)
  {
    var spans := [s] + body;
    assert forall i | 1 <= i < |spans| :: spans[i] == body[i - 1];
  }

  lemma {:induction false} ByRulesCons(source: seq<Unit>, s: TokenSpan, body: seq<TokenSpan>)
    requires s.left >= 0 && OnChar(source, s.left) && Rules(source, s.left) == Lexed(s) && ByRules(source, body)
    ensures ByRules(source, [s] + body)
  {
    var spans := [s] + body;
    forall i | 0 <= i < |spans|
      ensures spans[i].left >= 0 && OnChar(source, spans[i].left) && Rules(source, spans[i].left) == Lexed(spans[i])
    {
      if i > 0 {
        assert spans[i] == body[i - 1];
      }
    }
  }

  /** Conversely, spans that the rules give one after another from `a` to the end of the source, or
      one beyond it, are what the loop yields before `End`. */
  lemma {:induction false} LexFromByRules(source: seq<Unit>, a: nat, body: seq<TokenSpan>, m: nat)
    requires m >= |source| && Tiled(body, a, m) && ByRules(source, body)
    ensures OnChar(source, a) && LexFrom(source, a) == Ok(body + [Spans.Span(End, m, m)])
    decreases |body|
  {
    if body != [] {
      var s, rest := body[0], body[1..];
      assert Rules(source, a) == Lexed(s);
      assert Tiled(rest, s.right, m) by {
        assert forall i | 0 <= i < |rest| :: rest[i] == body[i + 1];
      }
      assert ByRules(source, rest) by {
        assert forall i | 0 <= i < |rest| :: rest[i] == body[i + 1];
      }
      LexFromByRules(source, s.right, rest, m);
      assert body + [Spans.Span(End, m, m)] == [s] + (rest + [Spans.Span(End, m, m)]);
    } else {
      assert body + [Spans.Span(End, m, m)] == [Spans.Span(End, a, a)];
    }
  }

  /** One turn of the loop of `Lex`. */
  lemma {:induction false} LexFromStep(source: seq<Unit>, a: nat, s: TokenSpan, rest: seq<TokenSpan>)
    requires a < |source| && OnChar(source, a) && Rules(source, a) == Lexed(s)
    requires LexFrom(source, s.right) == Ok(rest)
    ensures LexFrom(source, a) == Ok([s] + rest)
  {
  }

  /** The stream starts with `Start(0, 0)` and ends with `End(m, m)`; the tokens in between tile
      `[0, m)` in increasing order. `m` is the length of the source, except when the source ends in a
      '$' that starts a reserved word: that token then runs one offset past the end, and so does `End`. */
  lemma {:induction false} LexingShape(source: seq<Unit>)
    requires Lexing(source).Ok?
    ensures var spans := Lexing(source).value;
      |spans| >= 2 && spans[0] == Spans.Span(Start, 0, 0) &&
      var m := spans[|spans| - 1].left;
      spans[|spans| - 1] == Spans.Span(End, m, m) &&
      Tiled(spans[1..|spans| - 1], 0, m) && ByRules(source, spans[1..|spans| - 1]) &&
      (m == |source| || (m == |source| + 1 && spans[|spans| - 2].token == ReservedWord))
  {
    LexFromEnd(source, 0);
    LexFromTiled(source, 0);
    var rest := LexFrom(source, 0).value;
    assert Lexing(source).value == [Spans.Span(Start, 0, 0)] + rest;
    StartInFront(source, rest);
  }

  /** Putting `Start(0, 0)` in front of the loop's spans keeps the tokens between the sentinels. */
  lemma {:induction false} StartInFront(source: seq<Unit>, rest: seq<TokenSpan>)
    requires |rest| >= 1
    ensures var spans := [Spans.Span(Start, 0, 0)] + rest;
      |spans| >= 2 && spans[0] == Spans.Span(Start, 0, 0) && spans[|spans| - 1] == rest[|rest| - 1] &&
      spans[|spans| - 2] == (if |rest| >= 2 then rest[|rest| - 2] else Spans.Span(Start, 0, 0)) &&
      spans[1..|spans| - 1] == rest[..|rest| - 1]
  {
    var spans := [Spans.Span(Start, 0, 0)] + rest;
    assert spans[1..|spans| - 1] == rest[..|rest| - 1];
  }

  // ----- the kind the first character selects -----

  /** The rules in their order, as a table from the first logical character to the token kind;
      `None` where no rule applies. A digit is a `Number`, although it is also a word character. */
  function KindOf(c: Unit): Token {
    if IsWhitespace(c) then Space
    else if CharToken(c) != Token.None then CharToken(c)
    else if IsNumber(c) then Number
    else if IsQuoteMark(c) then String
    else if IsWordChar(c) then Word
    else if c == DOLLAR then ReservedWord
    else Token.None
  }

  /** A rule applies exactly when the current character has a kind, and its token has that kind. */
  lemma {:induction false} RulesKind(source: seq<Unit>, a: nat)
    requires OnChar(source, a)
    ensures Rules(source, a).NoMatch? <==> KindOf(LookAt(source, a).ch) == Token.None
    ensures Rules(source, a).Lexed? ==> Rules(source, a).span.token == KindOf(LookAt(source, a).ch)
  {
  }

  /** The first character picks the one rule that decides. */
  lemma {:induction false} RulesDispatch(source: seq<Unit>, a: nat)
    requires OnChar(source, a)
    ensures var k := KindOf(LookAt(source, a).ch);
      (k == Space ==> Rules(source, a) == RunRule(source, a, Spaces, Space)) &&
      (k == Number ==> Rules(source, a) == RunRule(source, a, Digits, Number)) &&
      (k == Word ==> Rules(source, a) == RunRule(source, a, WordChars, Word)) &&
      (k == String ==> Rules(source, a) == StringRule(source, a)) &&
      (k == ReservedWord ==> Rules(source, a) == HeadingRule(source, a)) &&
      (CharToken(LookAt(source, a).ch) != Token.None ==> Rules(source, a) == CharsRule(source, a))
  {
  }

  // ----- what each token's decoded text holds -----

  /** A span's decoded text: the character reader run over its raw extent. */
  function Text(source: seq<Unit>, s: TokenSpan): Result<seq<Reader.Logical>, Reader.ReadError> {
    Reader.ReadAll(source, s.left, s.right - s.left)
  }

  /** The rest of a string literal after its opening quote: characters that are not quotes and doubled
      quotes, then the closing quote. */
  ghost predicate QuotedTail(cs: seq<Unit>)
    decreases |cs|
  {
    |cs| > 0 &&
    if !IsQuoteMark(cs[0]) then QuotedTail(cs[1..])
    else |cs| == 1 || (IsQuoteMark(cs[1]) && QuotedTail(cs[2..]))
  }

  /** A run: characters of the class only, and none after it. */
  ghost predicate IsRun(source: seq<Unit>, s: TokenSpan, k: Class) {
    var text := Text(source, s);
    text.Ok? && text.value != [] &&
    (forall i | 0 <= i < |text.value| :: InClass(k, text.value[i].ch)) &&
    s.right >= 0 && OnChar(source, s.right) && !InClass(k, LookAt(source, s.right).ch)
  }

  /** A string literal: an opening quote, then what `QuotedTail` allows, and no quote after it. */
  ghost predicate IsStringLiteral(source: seq<Unit>, s: TokenSpan) {
    var text := Text(source, s);
    text.Ok? && text.value != [] && IsQuoteMark(text.value[0].ch) &&
    QuotedTail(Reader.Chars(text.value)[1..]) &&
    s.right >= 0 && OnChar(source, s.right) && !IsQuoteMark(LookAt(source, s.right).ch)
  }

  /** A reserved word: '$', any one character, then word characters up to one that is not. When the
      '$' is the last logical character of the source, the span ends one past the source's end. */
  ghost predicate IsReservedWord(source: seq<Unit>, s: TokenSpan) {
    ReservedWordWithin(source, s) || ReservedWordPastEnd(source, s)
  }

  ghost predicate ReservedWordWithin(source: seq<Unit>, s: TokenSpan) {
    var text := Text(source, s);
    0 <= s.right <= |source| && text.Ok? && |text.value| >= 2 && text.value[0].ch == DOLLAR &&
    (forall i | 2 <= i < |text.value| :: IsWordChar(text.value[i].ch)) &&
    OnChar(source, s.right) && !IsWordChar(LookAt(source, s.right).ch)
  }

  ghost predicate ReservedWordPastEnd(source: seq<Unit>, s: TokenSpan) {
    s.right == |source| + 1 && s.left >= 0 && LookAt(source, s.left) == Got(DOLLAR, |source|)
  }

  /** A single-character token: one logical character, whose kind the switch of `LexChars` gives. */
  ghost predicate IsSingleChar(source: seq<Unit>, s: TokenSpan) {
    var text := Text(source, s);
    text.Ok? && |text.value| == 1 && CharToken(text.value[0].ch) == s.token
  }

  /** What a token of each kind is, in terms of the logical characters the reader decodes from it. */
  ghost predicate Denotes(source: seq<Unit>, s: TokenSpan) {
    match s.token
    case Space => IsRun(source, s, Spaces)
    case Number => IsRun(source, s, Digits)
    case Word => IsRun(source, s, WordChars)
    case String => IsStringLiteral(source, s)
    case ReservedWord => IsReservedWord(source, s)
    case _ => IsSingleChar(source, s)
  }

  /** Where `Shift` and a reader window that covers the character agree. */
  lemma {:induction false} LookAtInWindow(source: seq<Unit>, p: nat, e: int)
    requires p < |source| && LookAt(source, p).Got? && LookAt(source, p).next <= e
    ensures Reader.ReadAll(source, p, e - p) ==
      Prepend([Reader.Logical(LookAt(source, p).ch, p, LookAt(source, p).next)],
              Reader.ReadAll(source, LookAt(source, p).next, e - LookAt(source, p).next))
  {
    var w := LookAt(source, p).next - p;
    assert Reader.ReadAt(source, p, e - p) == Reader.Decoded(LookAt(source, p).ch, w);
  }

  lemma {:induction false} CharsCons(c: Reader.Logical, cs: seq<Reader.Logical>)
    ensures Reader.Chars([c] + cs) == [c.ch] + Reader.Chars(cs)
  {
    assert Reader.Chars([c] + cs) == [c.ch] + Reader.Chars(cs) by {
      assert forall i | 0 <= i < |cs| + 1 :: Reader.Chars([c] + cs)[i] == ([c.ch] + Reader.Chars(cs))[i];
    }
  }

  /** A run's raw extent decodes to characters of its class only. */
  lemma {:induction false} RunEndText(source: seq<Unit>, q: nat, k: Class)
    requires RunEnd(source, q, k).Ok?
    ensures var e := RunEnd(source, q, k).value;
      Reader.ReadAll(source, q, e - q).Ok? &&
      var cs := Reader.ReadAll(source, q, e - q).value;
      forall i | 0 <= i < |cs| :: InClass(k, cs[i].ch)
    decreases |source| - q
  {
    var e := RunEnd(source, q, k).value;
    var l := LookAt(source, q);
    if InClass(k, l.ch) {
      RunEndText(source, l.next, k);
      LookAtInWindow(source, q, e);
    } else {
      assert Reader.ReadAll(source, q, e - q) == Ok([]);
    }
  }

  lemma {:induction false} RunRuleDenotes(source: seq<Unit>, a: nat, k: Class, kind: Token)
    requires OnChar(source, a) && RunRule(source, a, k, kind).Lexed?
    ensures IsRun(source, RunRule(source, a, k, kind).span, k)
  {
    var l := LookAt(source, a);
    var e := RunEnd(source, l.next, k).value;
    RunEndText(source, l.next, k);
    LookAtInWindow(source, a, e);
  }

  lemma {:induction false} CharsRuleDenotes(source: seq<Unit>, a: nat)
    requires OnChar(source, a) && CharsRule(source, a).Lexed?
    ensures IsSingleChar(source, CharsRule(source, a).span)
  {
    var l := LookAt(source, a);
    LookAtInWindow(source, a, l.next);
  }

  lemma {:induction false} QuotedTailPlain(c: Unit, cs: seq<Unit>)
    requires !IsQuoteMark(c) && QuotedTail(cs)
    ensures QuotedTail([c] + cs)
  {
    assert ([c] + cs)[1..] == cs;
  }

  lemma {:induction false} QuotedTailDoubled(c1: Unit, c2: Unit, cs: seq<Unit>)
    requires IsQuoteMark(c1) && IsQuoteMark(c2) && QuotedTail(cs)
    ensures QuotedTail([c1, c2] + cs)
  {
    assert ([c1, c2] + cs)[2..] == cs;
  }

  /** The raw extent `[q, e)` decodes to what `QuotedTail` allows. */
  ghost predicate QuotedText(source: seq<Unit>, q: int, e: int) {
    Reader.ReadAll(source, q, e - q).Ok? && QuotedTail(Reader.Chars(Reader.ReadAll(source, q, e - q).value))
  }

  lemma {:induction false} QuotedTextPlain(source: seq<Unit>, q: nat, c: Unit, n: nat, e: int)
    requires q < |source| && LookAt(source, q) == Got(c, n) && !IsQuoteMark(c) && n <= e
    requires QuotedText(source, n, e)
    ensures QuotedText(source, q, e)
  {
    LookAtInWindow(source, q, e);
    var tail := Reader.ReadAll(source, n, e - n).value;
    CharsCons(Reader.Logical(c, q, n), tail);
    QuotedTailPlain(c, Reader.Chars(tail));
  }

  lemma {:induction false} QuotedTextDoubled(source: seq<Unit>, q: nat, c1: Unit, n1: nat, c2: Unit, n2: nat, e: int)
    requires LookAt(source, q) == Got(c1, n1) && q < n1 < |source| && LookAt(source, n1) == Got(c2, n2)
    requires IsQuoteMark(c1) && IsQuoteMark(c2) && n2 <= e && QuotedText(source, n2, e)
    ensures QuotedText(source, q, e)
  {
    LookAtTwiceInWindow(source, q, n1, c1, c2, n2, e);
    var tail := Reader.ReadAll(source, n2, e - n2).value;
    var cl1, cl2 := Reader.Logical(c1, q, n1), Reader.Logical(c2, n1, n2);
    CharsCons(cl2, tail);
    CharsCons(cl1, [cl2] + tail);
    assert [cl1, cl2] + tail == [cl1] + ([cl2] + tail);
    QuotedTailDoubled(c1, c2, Reader.Chars(tail));
    assert [c1, c2] + Reader.Chars(tail) == [c1] + ([c2] + Reader.Chars(tail));
  }

  lemma {:induction false} QuotedTextClose(source: seq<Unit>, q: nat, c: Unit, n: nat)
    requires q < |source| && LookAt(source, q) == Got(c, n) && IsQuoteMark(c)
    ensures QuotedText(source, q, n)
  {
    LookAtInWindow(source, q, n);
    assert Reader.ReadAll(source, q, n - q).value == [Reader.Logical(c, q, n)];
  }

  /** The loop of `LexString` stops after a quote that no quote follows, and what it passed over is
      ordinary characters and doubled quotes. */
  lemma {:induction false} StringEndText(source: seq<Unit>, open: nat, q: nat)
    requires StringEnd(source, open, q).Ok?
    ensures QuotedText(source, q, StringEnd(source, open, q).value)
    ensures !IsQuoteMark(LookAt(source, StringEnd(source, open, q).value).ch)
    decreases |source| - q
  {
    var e := StringEnd(source, open, q).value;
    var l1 := LookAt(source, q);
    if IsQuoteMark(l1.ch) {
      var l2 := LookAt(source, l1.next);
      if IsQuoteMark(l2.ch) {
        StringEndText(source, open, l2.next);
        QuotedTextDoubled(source, q, l1.ch, l1.next, l2.ch, l2.next, e);
      } else {
        QuotedTextClose(source, q, l1.ch, l1.next);
      }
    } else {
      StringEndText(source, open, l1.next);
      QuotedTextPlain(source, q, l1.ch, l1.next, e);
    }
  }
  /** A window whose read ends at once is empty. */
  lemma {:induction false} ReadAllEmpty(source: seq<Unit>, p: int, e: int)
    requires p <= e && Reader.ReadAll(source, p, e - p) == Ok([])
    ensures p == e
  {
  }

  /** A non-empty window that reads without error starts with the character `Shift` reads there. */
  lemma {:induction false} ReadAllFirst(source: seq<Unit>, q: nat, e: int)
    requires q < e && Reader.ReadAll(source, q, e - q).Ok?
    ensures q < |source| && LookAt(source, q).Got? && LookAt(source, q).next <= e
    ensures var n := LookAt(source, q).next;
      Reader.ReadAll(source, n, e - n).Ok? &&
      Reader.ReadAll(source, q, e - q).value ==
        [Reader.Logical(LookAt(source, q).ch, q, n)] + Reader.ReadAll(source, n, e - n).value
  {
    assert Reader.ReadAt(source, q, e - q).Decoded?;
  }

  /** Conversely to `StringEndText`: quoted text that closes at `e`, with no quote after it, is where
      the string loop stops. */
  lemma {:induction false} ClosedStringEnds(source: seq<Unit>, open: nat, q: nat, e: nat)
    requires q < e <= |source| && QuotedText(source, q, e)
    requires OnChar(source, e) && !IsQuoteMark(LookAt(source, e).ch)
    ensures StringEnd(source, open, q) == Ok(e)
    decreases e - q
  {
    ReadAllFirst(source, q, e);
    var c1, n1 := LookAt(source, q).ch, LookAt(source, q).next;
    var tail := Reader.ReadAll(source, n1, e - n1).value;
    CharsCons(Reader.Logical(c1, q, n1), tail);
    var ts := Reader.Chars(tail);
    assert Reader.Chars(Reader.ReadAll(source, q, e - q).value) == [c1] + ts;
    assert ([c1] + ts)[1..] == ts;
    if !IsQuoteMark(c1) {
      assert QuotedTail(ts);
      ClosedStringEnds(source, open, n1, e);
    } else if |ts| == 0 {
      ReadAllEmpty(source, n1, e);
    } else {
      assert IsQuoteMark(ts[0]) && QuotedTail(ts[1..]);
      ReadAllFirst(source, n1, e);
      var c2, n2 := LookAt(source, n1).ch, LookAt(source, n1).next;
      var tail2 := Reader.ReadAll(source, n2, e - n2).value;
      CharsCons(Reader.Logical(c2, n1, n2), tail2);
      assert ts == [c2] + Reader.Chars(tail2);
      assert ts[1..] == Reader.Chars(tail2);
      ClosedStringEnds(source, open, n2, e);
    }
  }


  lemma {:induction false} StringRuleDenotes(source: seq<Unit>, a: nat)
    requires OnChar(source, a) && StringRule(source, a).Lexed?
    ensures IsStringLiteral(source, StringRule(source, a).span)
  {
    var l := LookAt(source, a);
    var e := StringEnd(source, a, l.next).value;
    StringEndText(source, a, l.next);
    LookAtInWindow(source, a, e);
    var tail := Reader.ReadAll(source, l.next, e - l.next).value;
    CharsCons(Reader.Logical(l.ch, a, l.next), tail);
  }

  /** Two logical characters, then what the reader decodes from the raw offset after them. */
  lemma {:induction false} LookAtTwiceInWindow(source: seq<Unit>, a: nat, n1: nat, c0: Unit, c1: Unit, n2: nat, e: int)
    requires LookAt(source, a) == Got(c0, n1) && a < n1 < |source|
    requires LookAt(source, n1) == Got(c1, n2) && n2 <= e && Reader.ReadAll(source, n2, e - n2).Ok?
    ensures Reader.ReadAll(source, a, e - a) ==
      Ok([Reader.Logical(c0, a, n1), Reader.Logical(c1, n1, n2)] + Reader.ReadAll(source, n2, e - n2).value)
  {
    LookAtInWindow(source, n1, e);
    LookAtInWindow(source, a, e);
    var tail := Reader.ReadAll(source, n2, e - n2).value;
    assert [Reader.Logical(c0, a, n1)] + ([Reader.Logical(c1, n1, n2)] + tail) ==
      [Reader.Logical(c0, a, n1), Reader.Logical(c1, n1, n2)] + tail;
  }

  lemma {:induction false} WordsAfterTwo(c0: Reader.Logical, c1: Reader.Logical, tail: seq<Reader.Logical>)
    requires forall i | 0 <= i < |tail| :: InClass(WordChars, tail[i].ch)
    ensures forall i | 2 <= i < |tail| + 2 :: IsWordChar(([c0, c1] + tail)[i].ch)
  {
    assert forall i | 2 <= i < |tail| + 2 :: ([c0, c1] + tail)[i] == tail[i - 2];
  }

  /** A reserved word whose '$' is not the last logical character: '$', the character after it, and
      the run of word characters that `RunEnd` passed over. */
  lemma {:induction false} HeadingWithin(source: seq<Unit>, a: nat, n1: nat, c: Unit, n2: nat, e: nat, tail: seq<Reader.Logical>)
    requires LookAt(source, a) == Got(DOLLAR, n1) && n1 < |source| && LookAt(source, n1) == Got(c, n2)
    requires n2 <= e <= |source| && OnChar(source, e) && !IsWordChar(LookAt(source, e).ch)
    requires Reader.ReadAll(source, n2, e - n2) == Ok(tail)
    requires forall i | 0 <= i < |tail| :: InClass(WordChars, tail[i].ch)
    ensures ReservedWordWithin(source, Spans.Span(ReservedWord, a, e))
  {
    LookAtTwiceInWindow(source, a, n1, DOLLAR, c, n2, e);
    WordsAfterTwo(Reader.Logical(DOLLAR, a, n1), Reader.Logical(c, n1, n2), tail);
  }

  /** A '$' as the last logical character: the character after it is the NUL past the end. */
  lemma {:induction false} HeadingAtEnd(source: seq<Unit>, a: nat, n1: nat)
    requires LookAt(source, a) == Got(DOLLAR, n1) && n1 >= |source|
    ensures HeadingRule(source, a) == Lexed(Spans.Span(ReservedWord, a, |source| + 1))
    ensures ReservedWordPastEnd(source, Spans.Span(ReservedWord, a, |source| + 1))
  {
    assert n1 == |source|;
    assert LookAt(source, n1) == Got(NUL, |source| + 1);
    assert LookAt(source, |source| + 1) == Got(NUL, |source| + 2);
  }

  lemma {:induction false} HeadingRuleDenotes(source: seq<Unit>, a: nat)
    requires OnChar(source, a) && HeadingRule(source, a).Lexed?
    ensures IsReservedWord(source, HeadingRule(source, a).span)
  {
    var l := LookAt(source, a);
    if l.next < |source| {
      var skipped := LookAt(source, l.next);
      RunEndText(source, skipped.next, WordChars);
      var e := RunEnd(source, skipped.next, WordChars).value;
      HeadingWithin(source, a, l.next, skipped.ch, skipped.next, e,
                    Reader.ReadAll(source, skipped.next, e - skipped.next).value);
    } else {
      HeadingAtEnd(source, a, l.next);
    }
  }

  /** Every token the rules give is a token of its kind. */
  lemma {:induction false} RulesDenote(source: seq<Unit>, a: nat)
    requires OnChar(source, a) && Rules(source, a).Lexed?
    ensures Denotes(source, Rules(source, a).span)
  {
    if RunRule(source, a, Spaces, Space).Lexed? {
      RunRuleDenotes(source, a, Spaces, Space);
    } else if CharsRule(source, a).Lexed? {
      CharsRuleDenotes(source, a);
    } else if RunRule(source, a, Digits, Number).Lexed? {
      RunRuleDenotes(source, a, Digits, Number);
    } else if StringRule(source, a).Lexed? {
      StringRuleDenotes(source, a);
    } else if RunRule(source, a, WordChars, Word).Lexed? {
      RunRuleDenotes(source, a, WordChars, Word);
    } else {
      HeadingRuleDenotes(source, a);
    }
  }

  /** Every token between the sentinels is a token of the kind its first logical character selects,
      and its decoded text is what that kind stands for. */
  lemma {:induction false} LexingTokens(source: seq<Unit>)
    requires Lexing(source).Ok?
    ensures var spans := Lexing(source).value;
      forall i | 0 < i < |spans| - 1 ::
        spans[i].left >= 0 && spans[i].right >= 0 && OnChar(source, spans[i].left) &&
        spans[i].token == KindOf(LookAt(source, spans[i].left).ch) && Denotes(source, spans[i])
  {
    LexingShape(source);
    var spans := Lexing(source).value;
    forall i | 0 < i < |spans| - 1
      ensures spans[i].left >= 0 && spans[i].right >= 0 && OnChar(source, spans[i].left)
      ensures spans[i].token == KindOf(LookAt(source, spans[i].left).ch) && Denotes(source, spans[i])
    {
      assert spans[i] == spans[1..|spans| - 1][i - 1];
      RulesKind(source, spans[i].left);
      RulesDenote(source, spans[i].left);
    }
  }

  // ----- a token lexed on its own -----

  /** Inside `[l, r)`, a character that ends by `r` reads the same from the slice `source[l..r]`. */
  lemma {:induction false} LookAtSlice(source: seq<Unit>, l: nat, r: nat, p: nat)
    requires l <= p < r <= |source| && LookAt(source, p).Got? && LookAt(source, p).next <= r
    ensures LookAt(source[l..r], p - l) == Got(LookAt(source, p).ch, LookAt(source, p).next - l)
  {
    var t := source[l..r];
    assert t[p - l] == source[p];
    if source[p] == PERCENT {
      assert t[p - l + 1] == source[p + 1] && t[p - l + 2] == source[p + 2];
    }
  }

  /** One turn of a run: a character of the class moves on, any other ends the run where it stands. */
  lemma {:induction false} RunEndStep(source: seq<Unit>, q: nat, k: Class, c: Unit, n: nat)
    requires LookAt(source, q) == Got(c, n) && InClass(k, c)
    ensures RunEnd(source, q, k) == RunEnd(source, n, k)
  {
  }

  lemma {:induction false} RunEndStop(source: seq<Unit>, q: nat, k: Class, c: Unit, n: nat)
    requires LookAt(source, q) == Got(c, n) && !InClass(k, c)
    ensures RunEnd(source, q, k) == Ok(q)
  {
  }

  /** A run that stops at `r` stops at the end of `source[l..r]` too: the NUL read there is in no class. */
  lemma {:induction false} RunEndSlice(source: seq<Unit>, l: nat, r: nat, q: nat, k: Class)
    requires l <= q <= r <= |source| && RunEnd(source, q, k) == Ok(r)
    ensures RunEnd(source[l..r], q - l, k) == Ok(r - l)
    decreases r - q, 1
  {
    if q < r {
      RunStepSlice(source, l, r, q, k);
    } else {
      NulInNoClass();
      RunEndStop(source[l..r], q - l, k, NUL, q - l + 1);
    }
  }

  lemma {:induction false} RunStepSlice(source: seq<Unit>, l: nat, r: nat, q: nat, k: Class)
    requires l <= q < r <= |source| && RunEnd(source, q, k) == Ok(r)
    ensures RunEnd(source[l..r], q - l, k) == Ok(r - l)
    decreases r - q, 0
  {
    var c, n := LookAt(source, q).ch, LookAt(source, q).next;
    assert InClass(k, c);
    RunEndStep(source, q, k, c, n);
    LookAtSlice(source, l, r, q);
    RunEndSlice(source, l, r, n, k);
    RunEndStep(source[l..r], q - l, k, c, n - l);
  }


  /** One turn of the string loop: a plain character inside the source, a doubled quote, or the
      closing quote. */
  lemma {:induction false} StringEndPlain(source: seq<Unit>, open: nat, q: nat, c: Unit, n: nat)
    requires q < |source| && LookAt(source, q) == Got(c, n) && !IsQuoteMark(c)
    ensures StringEnd(source, open, q) == StringEnd(source, open, n)
  {
  }

  lemma {:induction false} StringEndDoubled(source: seq<Unit>, open: nat, q: nat, c1: Unit, n1: nat, c2: Unit, n2: nat)
    requires LookAt(source, q) == Got(c1, n1) && IsQuoteMark(c1) && LookAt(source, n1) == Got(c2, n2) && IsQuoteMark(c2)
    ensures StringEnd(source, open, q) == StringEnd(source, open, n2)
  {
  }

  lemma {:induction false} StringEndClose(source: seq<Unit>, open: nat, q: nat, c1: Unit, n1: nat, c2: Unit, n2: nat)
    requires LookAt(source, q) == Got(c1, n1) && IsQuoteMark(c1) && LookAt(source, n1) == Got(c2, n2) && !IsQuoteMark(c2)
    ensures StringEnd(source, open, q) == Ok(n1)
  {
  }

  /** A string that closes at `r` closes at the end of `source[l..r]` too: the NUL read there is no quote. */
  lemma {:induction false} StringEndSlice(source: seq<Unit>, l: nat, r: nat, open: nat, open': nat, q: nat)
    requires l <= q < r <= |source| && StringEnd(source, open, q) == Ok(r)
    ensures StringEnd(source[l..r], open', q - l) == Ok(r - l)
    decreases r - q, 1
  {
    var c1, q1 := LookAt(source, q).ch, LookAt(source, q).next;
    if !IsQuoteMark(c1) {
      PlainSlice(source, l, r, open, open', q);
    } else if q1 < r {
      DoubledSlice(source, l, r, open, open', q);
    } else {
      CloseSlice(source, l, r, open, open', q);
    }
  }

  lemma {:induction false} PlainSlice(source: seq<Unit>, l: nat, r: nat, open: nat, open': nat, q: nat)
    requires l <= q < r <= |source| && StringEnd(source, open, q) == Ok(r)
    requires LookAt(source, q).Got? && !IsQuoteMark(LookAt(source, q).ch)
    ensures StringEnd(source[l..r], open', q - l) == Ok(r - l)
    decreases r - q, 0
  {
    var c1, q1 := LookAt(source, q).ch, LookAt(source, q).next;
    StringEndPlain(source, open, q, c1, q1);
    LookAtSlice(source, l, r, q);
    StringEndSlice(source, l, r, open, open', q1);
    StringEndPlain(source[l..r], open', q - l, c1, q1 - l);
  }

  lemma {:induction false} DoubledSlice(source: seq<Unit>, l: nat, r: nat, open: nat, open': nat, q: nat)
    requires l <= q < r <= |source| && StringEnd(source, open, q) == Ok(r)
    requires LookAt(source, q).Got? && IsQuoteMark(LookAt(source, q).ch) && LookAt(source, q).next < r
    ensures StringEnd(source[l..r], open', q - l) == Ok(r - l)
    decreases r - q, 0
  {
    var c1, q1 := LookAt(source, q).ch, LookAt(source, q).next;
    assert LookAt(source, q1).Got?;
    var c2, q2 := LookAt(source, q1).ch, LookAt(source, q1).next;
    assert IsQuoteMark(c2);
    StringEndDoubled(source, open, q, c1, q1, c2, q2);
    LookAtSlice(source, l, r, q);
    LookAtSlice(source, l, r, q1);
    StringEndSlice(source, l, r, open, open', q2);
    StringEndDoubled(source[l..r], open', q - l, c1, q1 - l, c2, q2 - l);
  }

  lemma {:induction false} CloseSlice(source: seq<Unit>, l: nat, r: nat, open: nat, open': nat, q: nat)
    requires l <= q < r <= |source| && StringEnd(source, open, q) == Ok(r)
    requires LookAt(source, q).Got? && IsQuoteMark(LookAt(source, q).ch) && r <= LookAt(source, q).next
    ensures StringEnd(source[l..r], open', q - l) == Ok(r - l)
  {
    NulInNoClass();
    var c1, q1 := LookAt(source, q).ch, LookAt(source, q).next;
    assert q1 == r;
    LookAtSlice(source, l, r, q);
    StringEndClose(source[l..r], open', q - l, c1, q1 - l, NUL, q1 - l + 1);
  }



  /** Each rule that gives `[l, r)` gives `[0, r - l)` on the slice `source[l..r]`. */
  lemma {:induction false} RunRuleSlice(source: seq<Unit>, l: nat, r: nat, k: Class, kind: Token)
    requires OnChar(source, l) && r <= |source| && RunRule(source, l, k, kind) == Lexed(Spans.Span(kind, l, r))
    ensures OnChar(source[l..r], 0) && RunRule(source[l..r], 0, k, kind) == Lexed(Spans.Span(kind, 0, r - l))
  {
    var next := LookAt(source, l).next;
    assert RunEnd(source, next, k) == Ok(r);
    LookAtSlice(source, l, r, l);
    RunEndSlice(source, l, r, next, k);
  }

  lemma {:induction false} CharsRuleSlice(source: seq<Unit>, l: nat, r: nat, kind: Token)
    requires OnChar(source, l) && r <= |source| && CharsRule(source, l) == Lexed(Spans.Span(kind, l, r))
    ensures OnChar(source[l..r], 0) && CharsRule(source[l..r], 0) == Lexed(Spans.Span(kind, 0, r - l))
  {
    LookAtSlice(source, l, r, l);
    assert LookAt(source[l..r], r - l).Got?;
  }

  lemma {:induction false} StringRuleSlice(source: seq<Unit>, l: nat, r: nat)
    requires OnChar(source, l) && r <= |source| && StringRule(source, l) == Lexed(Spans.Span(String, l, r))
    ensures OnChar(source[l..r], 0) && StringRule(source[l..r], 0) == Lexed(Spans.Span(String, 0, r - l))
  {
    var next := LookAt(source, l).next;
    assert StringEnd(source, l, next) == Ok(r);
    LookAtSlice(source, l, r, l);
    StringEndSlice(source, l, r, l, 0, next);
  }

  lemma {:induction false} HeadingRuleSlice(source: seq<Unit>, l: nat, r: nat)
    requires OnChar(source, l) && r <= |source| && HeadingRule(source, l) == Lexed(Spans.Span(ReservedWord, l, r))
    ensures OnChar(source[l..r], 0) && HeadingRule(source[l..r], 0) == Lexed(Spans.Span(ReservedWord, 0, r - l))
  {
    var next := LookAt(source, l).next;
    var after := LookAt(source, next).next;
    assert RunEnd(source, after, WordChars) == Ok(r);
    LookAtSlice(source, l, r, l);
    LookAtSlice(source, l, r, next);
    RunEndSlice(source, l, r, after, WordChars);
  }

  /** The rules give the same token, shifted to offset 0, on the slice that token covers. */
  lemma {:induction false} RulesSlice(source: seq<Unit>, l: nat)
    requires OnChar(source, l) && Rules(source, l).Lexed? && Rules(source, l).span.right <= |source|
    ensures var s := Rules(source, l).span;
      OnChar(source[l..s.right], 0) &&
      Rules(source[l..s.right], 0) == Lexed(Spans.Span(s.token, 0, s.right - l))
  {
    var s := Rules(source, l).span;
    var r := s.right;
    var c := LookAt(source, l).ch;
    RulesDispatch(source, l);
    RulesKind(source, l);
    var k := KindOf(c);
    if CharToken(c) != Token.None {
      CharsRuleSlice(source, l, r, s.token);
    } else if k == Space {
      RunRuleSlice(source, l, r, Spaces, Space);
    } else if k == Number {
      RunRuleSlice(source, l, r, Digits, Number);
    } else if k == Word {
      RunRuleSlice(source, l, r, WordChars, Word);
    } else if k == String {
      StringRuleSlice(source, l, r);
    } else {
      HeadingRuleSlice(source, l, r);
    }
    LookAtSlice(source, l, r, l);
    RulesDispatch(source[l..r], 0);
  }

  /** A token between the sentinels is not empty and is what the rules give at its left offset. */
  lemma {:induction false} InnerByRules(source: seq<Unit>, i: nat)
    requires Lexing(source).Ok? && 0 < i < |Lexing(source).value| - 1
    ensures var s := Lexing(source).value[i];
      0 <= s.left < s.right && OnChar(source, s.left) && Rules(source, s.left) == Lexed(s)
  {
    LexingShape(source);
    var spans := Lexing(source).value;
    assert spans[1..|spans| - 1][i - 1] == spans[i];
  }

  /** A source the rules cover with one token from offset 0 lexes to that token between the sentinels. */
  lemma {:induction false} LoneToken(t: seq<Unit>, kind: Token)
    requires 0 < |t| && OnChar(t, 0) && Rules(t, 0) == Lexed(Spans.Span(kind, 0, |t|))
    ensures Lexing(t) == Ok([Spans.Span(Start, 0, 0), Spans.Span(kind, 0, |t|), Spans.Span(End, |t|, |t|)])
  {
    var w := |t|;
    assert LexFrom(t, w) == Ok([Spans.Span(End, w, w)]);
    var body := [Spans.Span(kind, 0, w), Spans.Span(End, w, w)];
    LexFromStep(t, 0, Spans.Span(kind, 0, w), [Spans.Span(End, w, w)]);
    assert [Spans.Span(kind, 0, w)] + [Spans.Span(End, w, w)] == body;
    assert [Spans.Span(Start, 0, 0)] + body ==
      [Spans.Span(Start, 0, 0), Spans.Span(kind, 0, w), Spans.Span(End, w, w)];
  }

  /** Lexing the raw extent of any token between the sentinels on its own gives exactly that token:
      the rules look no further than the token's end, and the NUL past the end of the slice stops them
      as the following character did. Only a reserved word run past the end of the source lacks such
      an extent. */
  lemma {:induction false} TokenRelexes(source: seq<Unit>, i: nat)
    requires Lexing(source).Ok?
    requires 0 < i < |Lexing(source).value| - 1 && Lexing(source).value[i].right <= |source|
    ensures var s := Lexing(source).value[i]; var w := s.right - s.left;
      0 <= s.left < s.right && Lexing(source[s.left..s.right]) ==
        Ok([Spans.Span(Start, 0, 0), Spans.Span(s.token, 0, w), Spans.Span(End, w, w)])
  {
    var s := Lexing(source).value[i];
    InnerByRules(source, i);
    RulesSlice(source, s.left);
    LoneToken(source[s.left..s.right], s.token);
  }

  // ----- what each error points at -----

  /** The raw offset an error names holds what caused it: a '%' with fewer than two raw characters
      after it, a character no rule accepts, or the quote of a string that is never closed: no end
      inside the source, with no quote after it, closes the quoted text that follows the quote. */
  ghost predicate Witnessed(source: seq<Unit>, e: LexError) {
    match e
    case PastEndOfString(at) =>
      0 <= at < |source| && source[at] == PERCENT && |source| < at + 3
    case NoRuleMatches(at) =>
      0 <= at < |source| && OnChar(source, at) && KindOf(LookAt(source, at).ch) == Token.None
    case Unterminated(at) =>
      0 <= at < |source| && OnChar(source, at) && IsQuoteMark(LookAt(source, at).ch) &&
      forall e: nat | LookAt(source, at).next < e <= |source| && OnChar(source, e) &&
        !IsQuoteMark(LookAt(source, e).ch) :: !QuotedText(source, LookAt(source, at).next, e)
  }

  lemma {:induction false} RulesErrors(source: seq<Unit>, a: nat)
    requires OnChar(source, a) && a < |source| && Rules(source, a).Failed?
    ensures Witnessed(source, Rules(source, a).error)
  {
    if RunRule(source, a, Spaces, Space).Failed? {
    } else if CharsRule(source, a).Failed? {
    } else if RunRule(source, a, Digits, Number).Failed? {
    } else if StringRule(source, a).Failed? {
      var next := LookAt(source, a).next;
      forall e: nat | next < e <= |source| && OnChar(source, e) && !IsQuoteMark(LookAt(source, e).ch)
        ensures !QuotedText(source, next, e)
      {
        if QuotedText(source, next, e) {
          ClosedStringEnds(source, a, next, e);
        }
      }
    } else if RunRule(source, a, WordChars, Word).Failed? {
    } else {
      assert HeadingRule(source, a).Failed?;
    }
  }

  lemma {:induction false} LexFromErrors(source: seq<Unit>, a: nat)
    requires OnChar(source, a) && LexFrom(source, a).Err?
    ensures Witnessed(source, LexFrom(source, a).error)
    decreases |source| - a
  {
    match Rules(source, a)
    case NoMatch => RulesKind(source, a);
    case Failed(_) => RulesErrors(source, a);
    case Lexed(s) => LexFromErrors(source, s.right);
  }

  /** When `Lex` throws, the offset it names holds the cause. */
  lemma {:induction false} LexingErrors(source: seq<Unit>)
    requires Lexing(source).Err?
    ensures Witnessed(source, Lexing(source).error)
  {
    if LookAt(source, 0).Got? {
      LexFromErrors(source, 0);
    }
  }

  /** Without a '%' in the source, `Shift` never throws. */
  lemma {:induction false} LexingWithoutPercent(source: seq<Unit>)
    requires forall i | 0 <= i < |source| :: source[i] != PERCENT
    ensures !(Lexing(source).Err? && Lexing(source).error.PastEndOfString?)
  {
    if Lexing(source).Err? {
      LexingErrors(source);
    }
  }
}
