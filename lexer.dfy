/** The lexer of Parser/Lexer.cs: the `Token` kinds, the cursor `Context` that percent-decodes the source
    as it shifts, the six lexing rules and `Lex`.

    The first half states the lexer as functions over raw offsets: `a` is always the raw offset of the
    character the lexer stands on, which is also where the token being built starts. The second half is
    the imperative `Context` and the rule methods, each proved to compute its function. */
module Lexer {
  import opened Wrappers
  import opened CharExtensions
  import Reader
  import Spans

  datatype Token =
    | None | Start | End | Space | Number | Word | ReservedWord | Alias | String
    | Open | Close | Slash | Comma | Minus | QuestionMark | Hash | Dot | Equals | Ampersand

  type TokenSpan = Spans.Span<Token>

  /** Why `Lex` gives no token stream: the "Parsed past end of string!" exception of `Shift`, the failed
      cast when no rule accepts the character at `at`, or a string opened at `at` that is never closed,
      on which the source loops forever. */
  datatype LexError = PastEndOfString(at: int) | NoRuleMatches(at: int) | Unterminated(at: int)

  // ----- the decoding step -----

  /** What `Shift` finds at raw offset `p`: a logical character and the raw offset after it, or a '%'
      with fewer than two raw characters after it. */
  datatype Look = Got(ch: Unit, next: nat) | PercentCut

  /** What `Shift` reads at raw offset `p`: past the end a NUL that moves on by one, a '%' followed by
      two raw characters as their decoded pair, and any other raw character as itself. */
  function LookAt(source: seq<Unit>, p: nat): (l: Look)
    ensures l.Got? ==> l.next > p
  {
    if p >= |source| then Got(NUL, p + 1)
    else if source[p] != PERCENT then Got(source[p], p + 1)
    else if p + 3 <= |source| then Got(DecodePair(source[p + 1], source[p + 2]), p + 3)
    else PercentCut
  }

  /** `Shift` reads like `CharReader.MoveNext` with the rest of the source as its window. */
  lemma LookAtReads(source: seq<Unit>, p: nat)
    requires p < |source|
    ensures match Reader.ReadAt(source, p, |source| - p)
      case Decoded(c, w) => LookAt(source, p) == Got(c, p + w)
      case Failed(e, _) => LookAt(source, p) == PercentCut && e == Reader.ReadPastEnd
      case Exhausted => false
  {
  }

  /** The lexer can stand on raw offset `p`. */
  predicate OnChar(source: seq<Unit>, p: nat) {
    LookAt(source, p).Got?
  }

  // ----- the rules -----

  /** The character classes of the three runs: spaces, numbers and words. */
  datatype Class = Spaces | Digits | WordChars

  predicate InClass(k: Class, c: Unit) {
    match k
    case Spaces => IsWhitespace(c)
    case Digits => IsNumber(c)
    case WordChars => IsWordChar(c)
  }

  /** The switch of `LexChars`; `None` where it returns null. Its ten characters are in none of the
      classes the other rules test, and it gives only kinds of single characters. */
  function CharToken(c: Unit): (t: Token)
    ensures t != Token.None ==>
      !IsWhitespace(c) && !IsNumber(c) && !IsQuoteMark(c) && !IsWordChar(c) && c != DOLLAR && c != NUL
    ensures t !in {Start, End, Space, Number, Word, ReservedWord, Alias, String}
  {
    if c == '/' as Unit then Slash
    else if c == ',' as Unit then Comma
    else if c == '.' as Unit then Dot
    else if c == '=' as Unit then Equals
    else if c == '(' as Unit then Open
    else if c == ')' as Unit then Close
    else if c == '&' as Unit then Ampersand
    else if c == '?' as Unit then QuestionMark
    else if c == '#' as Unit then Hash
    else if c == '-' as Unit then Minus
    else Token.None
  }

  /** What a rule does: not apply (null), give a span, or throw. */
  datatype Lexeme = NoMatch | Lexed(span: TokenSpan) | Failed(error: LexError)

  /** `while(x.Shift().IsX()) { }` with the next `Shift` reading raw offset `q`: the offset of the first
      character outside the class, where the lexer then stands. */
  function RunEnd(source: seq<Unit>, q: nat, k: Class): (r: Result<nat, LexError>)
    ensures r.Ok? ==> q <= r.value && OnChar(source, r.value) && !InClass(k, LookAt(source, r.value).ch)
    ensures r.Ok? ==> r.value == q || r.value <= |source|
    ensures r.Err? ==>
      r.error.PastEndOfString? && q <= r.error.at < |source| && LookAt(source, r.error.at).PercentCut?
    decreases |source| - q
  {
    match LookAt(source, q)
    case PercentCut => Err(PastEndOfString(q))
    case Got(c, next) => if InClass(k, c) then RunEnd(source, next, k) else Ok(q)
  }

  /** `LexSpace`, `LexNumeric` and `LexWord`: a run of the class, if the current character starts one. */
  function RunRule(source: seq<Unit>, a: nat, k: Class, kind: Token): (r: Lexeme)
    requires OnChar(source, a)
    ensures r.NoMatch? <==> !InClass(k, LookAt(source, a).ch)
    ensures r.Lexed? ==> r.span.token == kind && r.span.left == a < r.span.right && OnChar(source, r.span.right)
    ensures r.Failed? ==> r.error.PastEndOfString?
  {
    var here := LookAt(source, a);
    if !InClass(k, here.ch) then NoMatch
    else match RunEnd(source, here.next, k)
      case Ok(e) => Lexed(Spans.Span(kind, a, e))
      case Err(err) => Failed(err)
  }

  /** `LexChars`: one logical character of the switch. */
  function CharsRule(source: seq<Unit>, a: nat): (r: Lexeme)
    requires OnChar(source, a)
    ensures r.NoMatch? <==> CharToken(LookAt(source, a).ch) == Token.None
    ensures r.Lexed? ==> r.span == Spans.Span(CharToken(LookAt(source, a).ch), a, LookAt(source, a).next)
    ensures r.Failed? ==> r.error == PastEndOfString(LookAt(source, a).next)
  {
    var here := LookAt(source, a);
    var kind := CharToken(here.ch);
    if kind == Token.None then NoMatch
    else match LookAt(source, here.next)
      case PercentCut => Failed(PastEndOfString(here.next))
      case Got(_, _) => Lexed(Spans.Span(kind, a, here.next))
  }

  /** The loop of `LexString` with the next `Shift` reading raw offset `q`: a quote ends the string
      unless another quote follows it; past the end every `Shift` yields NUL, so the loop never ends. */
  function StringEnd(source: seq<Unit>, open: nat, q: nat): (r: Result<nat, LexError>)
    ensures r.Ok? ==> q < r.value <= |source| && OnChar(source, r.value)
    ensures r.Err? ==>
      r.error == Unterminated(open) ||
      (r.error.PastEndOfString? && q <= r.error.at < |source| && LookAt(source, r.error.at).PercentCut?)
    decreases |source| - q
  {
    match LookAt(source, q)
    case PercentCut => Err(PastEndOfString(q))
    case Got(c1, q1) =>
      if IsQuoteMark(c1) then
        match LookAt(source, q1)
        case PercentCut => Err(PastEndOfString(q1))
        case Got(c2, q2) => if !IsQuoteMark(c2) then Ok(q1) else StringEnd(source, open, q2)
      else if q >= |source| then Err(Unterminated(open))
      else StringEnd(source, open, q1)
  }

  /** `LexString`: from a quote to the first quote not followed by another. */
  function StringRule(source: seq<Unit>, a: nat): (r: Lexeme)
    requires OnChar(source, a)
    ensures r.NoMatch? <==> !IsQuoteMark(LookAt(source, a).ch)
    ensures r.Lexed? ==> r.span.token == String && r.span.left == a < r.span.right <= |source|
    ensures r.Failed? ==> r.error == Unterminated(a) || r.error.PastEndOfString?
  {
    var here := LookAt(source, a);
    if !IsQuoteMark(here.ch) then NoMatch
    else match StringEnd(source, a, here.next)
      case Ok(e) => Lexed(Spans.Span(String, a, e))
      case Err(err) => Failed(err)
  }

  /** `LexHeading`: a '$', then one more character whatever it is, then a run of word characters. */
  function HeadingRule(source: seq<Unit>, a: nat): (r: Lexeme)
    requires OnChar(source, a)
    ensures r.NoMatch? <==> LookAt(source, a).ch != DOLLAR
    ensures r.Lexed? ==> r.span.token == ReservedWord && r.span.left == a && a + 2 <= r.span.right
    ensures r.Failed? ==> r.error.PastEndOfString?
  {
    var here := LookAt(source, a);
    if here.ch != DOLLAR then NoMatch
    else match LookAt(source, here.next)
      case PercentCut => Failed(PastEndOfString(here.next))
      case Got(_, after) =>
        match RunEnd(source, after, WordChars)
        case Ok(e) => Lexed(Spans.Span(ReservedWord, a, e))
        case Err(err) => Failed(err)
  }

  /** The rules in the order `Lex` tries them; the first that applies decides. */
  function Rules(source: seq<Unit>, a: nat): (r: Lexeme)
    requires OnChar(source, a)
    ensures r.Lexed? ==> a < |source| && r.span.left == a < r.span.right <= |source| + 1
    ensures r.Lexed? ==> OnChar(source, r.span.right)
    ensures r.Lexed? && r.span.right > |source| ==> r.span.token == ReservedWord
  {
    var space := RunRule(source, a, Spaces, Space);
    if !space.NoMatch? then space else
    var chars := CharsRule(source, a);
    if !chars.NoMatch? then chars else
    var number := RunRule(source, a, Digits, Number);
    if !number.NoMatch? then number else
    var str := StringRule(source, a);
    if !str.NoMatch? then str else
    var word := RunRule(source, a, WordChars, Word);
    if !word.NoMatch? then word else
    HeadingRule(source, a)
  }

  /** The loop of `Lex` from raw offset `a`, then the `End` span. */
  function LexFrom(source: seq<Unit>, a: nat): Result<seq<TokenSpan>, LexError>
    requires OnChar(source, a)
    decreases |source| - a
  {
    if a >= |source| then Ok([Spans.Span(End, a, a)])
    else match Rules(source, a)
      case NoMatch => Err(NoRuleMatches(a))
      case Failed(e) => Err(e)
      case Lexed(s) => Prepend([s], LexFrom(source, s.right))
  }

  /** `Lex(source)`: the whole token stream, or the error that stops it. */
  function Lexing(source: seq<Unit>): Result<seq<TokenSpan>, LexError> {
    match LookAt(source, 0)
    case PercentCut => Err(PastEndOfString(0))
    case Got(_, _) => Prepend([Spans.Span(Start, 0, 0)], LexFrom(source, 0))
  }

  // ----- the imperative lexer -----

  /** The raw characters not yet read once `Shift` is to read from raw offset `next`. */
  function Remaining(length: nat, next: nat): nat {
    if next <= length then length - next else 0
  }

  class Context {
    const Source: seq<Unit>
    const SourceLength: int
    var RemainingCount: int
    var Start: int
    var Last: int
    var Next: int
    var Char: Unit

    /** The next `Shift` reads raw offset `Next`, and `RemainingCount` counts the raw characters from there. */
    ghost predicate Poised()
      reads this
    {
      SourceLength == |Source| && 0 <= Start && 0 <= Next && RemainingCount == Remaining(|Source|, Next)
    }

    /** The lexer stands on the logical character `Char` read from `[Last, Next)`. */
    ghost predicate Standing()
      reads this
    {
      Poised() && 0 <= Last && LookAt(Source, Last) == Got(Char, Next)
    }

    constructor (source: seq<Unit>)
      ensures Source == source && SourceLength == |source| && RemainingCount == |source|
      ensures Start == 0 && Last == 0 && Next == 0
      ensures Char == if |source| == 0 then NUL else source[0]
      ensures Poised()
    {
      Source := source;
      SourceLength := |source|;
      RemainingCount := |source|;
      Start, Next, Last := 0, 0, 0;
      Char := if |source| == 0 then NUL else source[0];
    }

    /** Moves onto the next logical character, decoding a `%XX` triple into one. */
    method Shift() returns (r: Result<Unit, LexError>)
      requires Poised()
      modifies this
      ensures Start == old(Start) && Last == old(Next)
      ensures match LookAt(Source, old(Next))
        case Got(c, next) => r == Ok(c) && Char == c && Next == next && Standing()
        case PercentCut =>
          r == Err(PastEndOfString(old(Next))) && Char == PERCENT && Next == old(Next) + 1 &&
          RemainingCount == old(RemainingCount) - 3
    {
      Last := Next;
      if RemainingCount > 0 {
        RemainingCount := RemainingCount - 1;
        // The source's check for a negative count here cannot fire: the count was positive.
        Char := Source[Next];
        Next := Next + 1;
        if Char == PERCENT {
          RemainingCount := RemainingCount - 2;
          if RemainingCount < 0 {
            return Err(PastEndOfString(Last));
          }
          var nibble1 := Source[Next];
          Next := Next + 1;
          var nibble2 := Source[Next];
          Next := Next + 1;
          Char := DecodePair(nibble1, nibble2);
        }
        return Ok(Char);
      } else {
        Next := Next + 1;
        Char := NUL;
        return Ok(Char);
      }
    }

    /** Nothing is left to read and the last token ended at or beyond the end of the source. */
    predicate AtEnd()
      reads this
      ensures Standing() && Start == Last ==> (AtEnd() <==> Last >= |Source|)
    {
      RemainingCount == 0 && Start >= SourceLength
    }

    /** The span from `left`, or from `Start` when it is absent, to where the lexer stands; the next
        token starts there. */
    method Emit(kind: Token, left: Option<int>) returns (s: TokenSpan)
      modifies this`Start
      ensures s == Spans.Of(kind, if left.Some? then left.value else old(Start), Last)
      ensures Start == Last
    {
      s := Spans.Of(kind, if left.Some? then left.value else Start, Last);
      Start := Last;
    }

    method ShiftAndEmit(kind: Token) returns (r: Result<TokenSpan, LexError>)
      requires Poised()
      modifies this
      ensures Last == old(Next)
      ensures match LookAt(Source, old(Next))
        case Got(_, _) => r == Ok(Spans.Span(kind, old(Start), old(Next))) && Standing() && Start == Last
        case PercentCut =>
          r == Err(PastEndOfString(old(Next))) && Start == old(Start) && Char == PERCENT &&
          Next == old(Next) + 1 && RemainingCount == old(RemainingCount) - 3
    {
      var c := Shift();
      if c.Err? {
        return Err(c.error);
      }
      var s := Emit(kind, Option.None);
      return Ok(s);
    }
  }

  /** `while(x.Shift().IsX()) { }`. */
  method ShiftWhile(x: Context, k: Class) returns (r: Result<nat, LexError>)
    requires x.Poised()
    modifies x
    ensures r == RunEnd(x.Source, old(x.Next), k)
    ensures x.Start == old(x.Start)
    ensures r.Ok? ==> x.Standing() && x.Last == r.value
  {
    while true
      invariant x.Poised() && x.Start == old(x.Start)
      invariant RunEnd(x.Source, x.Next, k) == RunEnd(x.Source, old(x.Next), k)
      decreases |x.Source| - x.Next
    {
      var c := x.Shift();
      if c.Err? {
        return Err(c.error);
      }
      if !InClass(k, c.value) {
        return Ok(x.Last);
      }
    }
  }

  /** The run rules share one shape: check the current character, shift while in the class, emit. */
  method LexRun(x: Context, k: Class, kind: Token) returns (r: Lexeme)
    requires x.Standing() && x.Start == x.Last
    modifies x
    ensures r == RunRule(x.Source, old(x.Last), k, kind)
    ensures r.NoMatch? ==> unchanged(x)
    ensures r.Lexed? ==> x.Standing() && x.Start == x.Last == r.span.right
  {
    if !InClass(k, x.Char) {
      return NoMatch;
    }
    var e := ShiftWhile(x, k);
    if e.Err? {
      return Failed(e.error);
    }
    var s := x.Emit(kind, Option.None);
    return Lexed(s);
  }

  method LexSpace(x: Context) returns (r: Lexeme)
    requires x.Standing() && x.Start == x.Last
    modifies x
    ensures r == RunRule(x.Source, old(x.Last), Spaces, Space)
    ensures r.NoMatch? ==> unchanged(x)
    ensures r.Lexed? ==> x.Standing() && x.Start == x.Last == r.span.right
  {
    r := LexRun(x, Spaces, Space);
  }

  method LexNumeric(x: Context) returns (r: Lexeme)
    requires x.Standing() && x.Start == x.Last
    modifies x
    ensures r == RunRule(x.Source, old(x.Last), Digits, Number)
    ensures r.NoMatch? ==> unchanged(x)
    ensures r.Lexed? ==> x.Standing() && x.Start == x.Last == r.span.right
  {
    r := LexRun(x, Digits, Number);
  }

  method LexWord(x: Context) returns (r: Lexeme)
    requires x.Standing() && x.Start == x.Last
    modifies x
    ensures r == RunRule(x.Source, old(x.Last), WordChars, Word)
    ensures r.NoMatch? ==> unchanged(x)
    ensures r.Lexed? ==> x.Standing() && x.Start == x.Last == r.span.right
  {
    r := LexRun(x, WordChars, Word);
  }

  method LexChars(x: Context) returns (r: Lexeme)
    requires x.Standing() && x.Start == x.Last
    modifies x
    ensures r == CharsRule(x.Source, old(x.Last))
    ensures r.NoMatch? ==> unchanged(x)
    ensures r.Lexed? ==> x.Standing() && x.Start == x.Last == r.span.right
  {
    var kind := CharToken(x.Char);
    if kind == Token.None {
      return NoMatch;
    }
    var s := x.ShiftAndEmit(kind);
    match s
    case Ok(span) => return Lexed(span);
    case Err(e) => return Failed(e);
  }

  method LexString(x: Context) returns (r: Lexeme)
    requires x.Standing() && x.Start == x.Last
    modifies x
    ensures r == StringRule(x.Source, old(x.Last))
    ensures r.NoMatch? ==> unchanged(x)
    ensures r.Lexed? ==> x.Standing() && x.Start == x.Last == r.span.right
  {
    if !IsQuoteMark(x.Char) {
      return NoMatch;
    }
    var start := x.Start;
    while true
      invariant x.Poised() && x.Start == start
      invariant StringEnd(x.Source, start, x.Next) == StringEnd(x.Source, start, old(x.Next))
      decreases |x.Source| - x.Next
    {
      var c1 := x.Shift();
      if c1.Err? {
        return Failed(c1.error);
      }
      if IsQuoteMark(c1.value) {
        var c2 := x.Shift();
        if c2.Err? {
          return Failed(c2.error);
        }
        if !IsQuoteMark(c2.value) {
          break;
        }
      } else if x.Last >= |x.Source| {
        // Past the end `Shift` yields NUL for ever: the source never leaves this loop.
        return Failed(Unterminated(start));
      }
    }
    var s := x.Emit(String, Some(start));
    return Lexed(s);
  }

  method LexHeading(x: Context) returns (r: Lexeme)
    requires x.Standing() && x.Start == x.Last
    modifies x
    ensures r == HeadingRule(x.Source, old(x.Last))
    ensures r.NoMatch? ==> unchanged(x)
    ensures r.Lexed? ==> x.Standing() && x.Start == x.Last == r.span.right
  {
    if x.Char != DOLLAR {
      return NoMatch;
    }
    var skipped := x.Shift();
    if skipped.Err? {
      return Failed(skipped.error);
    }
    var e := ShiftWhile(x, WordChars);
    if e.Err? {
      return Failed(e.error);
    }
    var s := x.Emit(ReservedWord, Option.None);
    return Lexed(s);
  }

  /** `LexSpace(x) ?? LexChars(x) ?? LexNumeric(x) ?? LexString(x) ?? LexWord(x) ?? LexHeading(x)`. */
  method LexToken(x: Context) returns (t: Lexeme)
    requires x.Standing() && x.Start == x.Last
    modifies x
    ensures t == Rules(x.Source, old(x.Last))
    ensures t.NoMatch? ==> unchanged(x)
    ensures t.Lexed? ==> x.Standing() && x.Start == x.Last == t.span.right
  {
    t := LexSpace(x);
    if t.NoMatch? {
      t := LexChars(x);
    }
    if t.NoMatch? {
      t := LexNumeric(x);
    }
    if t.NoMatch? {
      t := LexString(x);
    }
    if t.NoMatch? {
      t := LexWord(x);
    }
    if t.NoMatch? {
      t := LexHeading(x);
    }
  }

  /** `Lex(source)`, run to the end: `Start`, the tokens the rules give, `End`. */
  method Lex(source: seq<Unit>) returns (r: Result<seq<TokenSpan>, LexError>)
    ensures r == Lexing(source)
  {
    var x := new Context(source);
    var first := x.Shift();
    if first.Err? {
      return Err(first.error);
    }
    var start := x.Emit(Start, Option.None);
    var spans := [start];
    while !x.AtEnd()
      invariant x.Standing() && x.Start == x.Last && x.Source == source
      invariant Lexing(source) == Prepend(spans, LexFrom(source, x.Last))
      decreases |source| - x.Last
    {
      var t := LexToken(x);
      match t
      case NoMatch => return Err(NoRuleMatches(x.Last));
      case Failed(e) => return Err(e);
      case Lexed(s) =>
        PrependAppend(spans, s, LexFrom(source, s.right));
        spans := spans + [s];
    }
    var end := x.Emit(End, Option.None);
    return Ok(spans + [end]);
  }
}
