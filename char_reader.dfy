/** The percent-decoding cursor `CharReader` of Parser/CharReader.cs. */
module Reader {
  import opened Wrappers
  import opened CharExtensions

  /** The two exceptions `MoveNext` can throw: its own "Read past end of string!" and the
      `IndexOutOfRangeException` of indexing `Source` outside its bounds. */
  datatype ReadError = ReadPastEnd | IndexOutOfRange

  /** What one `MoveNext` finds at raw offset `p` with `remaining` raw characters left in the window:
      a logical character and the raw width it takes, the end of the window, or an exception together
      with the value `ReadLength` has reached when it is thrown. */
  datatype ReadStep = Decoded(ch: Unit, width: nat) | Exhausted | Failed(error: ReadError, length: nat)

  function ReadAt(source: seq<Unit>, p: int, remaining: int): (s: ReadStep)
    ensures s.Exhausted? <==> remaining <= 0
    ensures s.Decoded? ==> 0 <= p < |source| && s.width <= remaining
    ensures s.Decoded? ==> s.width == (if source[p] == PERCENT then 3 else 1)
    ensures s.Decoded? && source[p] != PERCENT ==> s.ch == source[p]
    ensures s.Decoded? && source[p] == PERCENT ==> p + 2 < |source| && s.ch == DecodePair(source[p + 1], source[p + 2])
    ensures s == Failed(ReadPastEnd, 1) <==> remaining > 0 && 0 <= p < |source| && source[p] == PERCENT && remaining < 3
  {
    if remaining <= 0 then Exhausted
    else if !(0 <= p < |source|) then Failed(IndexOutOfRange, 1)
    else if source[p] != PERCENT then Decoded(source[p], 1)
    else if remaining - 3 < 0 then Failed(ReadPastEnd, 1)
    else if p + 1 >= |source| then Failed(IndexOutOfRange, 2)
    else if p + 2 >= |source| then Failed(IndexOutOfRange, 3)
    else Decoded(DecodePair(source[p + 1], source[p + 2]), 3)
  }

  /** A logical character with the raw extent `[left, right)` it was read from. */
  datatype Logical = Logical(ch: Unit, left: int, right: int)

  /** Everything successive `MoveNext` calls deliver from raw offset `p` with `remaining` raw characters
      left, up to the call that returns false, or the exception that stops them. */
  function ReadAll(source: seq<Unit>, p: int, remaining: int): Result<seq<Logical>, ReadError>
    decreases remaining
  {
    match ReadAt(source, p, remaining)
    case Exhausted => Ok([])
    case Failed(e, _) => Err(e)
    case Decoded(c, w) => Prepend([Logical(c, p, p + w)], ReadAll(source, p + w, remaining - w))
  }

  /** The characters of a sequence of logical characters, without their extents. */
  function Chars(cs: seq<Logical>): (r: seq<Unit>)
    ensures |r| == |cs|
  {
    seq(|cs|, i requires 0 <= i < |cs| => cs[i].ch)
  }

  /** The extents of a sequence of logical characters lie end to end from `from` to `to`, each one
      raw character wide or, for a percent-encoding, three. */
  ghost predicate Tiles(cs: seq<Logical>, from: int, to: int) {
    (cs == [] ==> from == to) &&
    (cs != [] ==> cs[0].left == from && cs[|cs| - 1].right == to) &&
    (forall i | 0 <= i < |cs| :: cs[i].right - cs[i].left in {1, 3}) &&
    (forall i | 0 <= i < |cs| - 1 :: cs[i].right == cs[i + 1].left)
  }

  /** Successive reads tile the window `[p, p + remaining)` with no gap and no overlap. */
  lemma {:induction false} ReadAllTiles(source: seq<Unit>, p: int, remaining: int)
    requires remaining >= 0 && ReadAll(source, p, remaining).Ok?
    ensures Tiles(ReadAll(source, p, remaining).value, p, p + remaining)
    decreases remaining
  {
    match ReadAt(source, p, remaining)
    case Exhausted =>
    case Decoded(c, w) =>
      ReadAllTiles(source, p + w, remaining - w);
      var rest := ReadAll(source, p + w, remaining - w).value;
      assert ReadAll(source, p, remaining).value == [Logical(c, p, p + w)] + rest;
  }

  /** Each logical character is decoded from its own raw extent: the raw code unit, or the pair of
      nibbles after a '%'. */
  lemma {:induction false} ReadAllDecodes(source: seq<Unit>, p: int, remaining: int, i: nat)
    requires ReadAll(source, p, remaining).Ok? && i < |ReadAll(source, p, remaining).value|
    ensures var c := ReadAll(source, p, remaining).value[i];
      0 <= c.left < |source| &&
      (source[c.left] != PERCENT ==> c.ch == source[c.left] && c.right == c.left + 1) &&
      (source[c.left] == PERCENT ==> c.left + 2 < |source| && c.ch == DecodePair(source[c.left + 1], source[c.left + 2]) && c.right == c.left + 3)
    decreases remaining
  {
    match ReadAt(source, p, remaining)
    case Decoded(ch, w) =>
      var rest := ReadAll(source, p + w, remaining - w);
      if i > 0 {
        ReadAllDecodes(source, p + w, remaining - w, i - 1);
        assert ReadAll(source, p, remaining).value[i] == rest.value[i - 1];
      }
  }

  /** Where no '%' occurs in a window inside the source, decoding is the identity on its code units. */
  lemma {:induction false} ReadAllPlain(source: seq<Unit>, p: int, remaining: int)
    requires 0 <= p && 0 <= remaining && p + remaining <= |source|
    requires PERCENT !in source[p..p + remaining]
    ensures ReadAll(source, p, remaining).Ok?
    ensures Chars(ReadAll(source, p, remaining).value) == source[p..p + remaining]
    decreases remaining
  {
    if remaining > 0 {
      assert source[p] == source[p..p + remaining][0];
      assert source[p + 1..p + remaining] == source[p..p + remaining][1..];
      ReadAllPlain(source, p + 1, remaining - 1);
      var rest := ReadAll(source, p + 1, remaining - 1).value;
      assert ReadAll(source, p, remaining).value == [Logical(source[p], p, p + 1)] + rest;
      assert Chars([Logical(source[p], p, p + 1)] + rest) == [source[p]] + Chars(rest) by {
        assert ([Logical(source[p], p, p + 1)] + rest)[1..] == rest;
      }
    }
  }

  /** Inside the source a read can only fail on a '%' too close to the end of the window; then the
      window has fewer logical characters than raw ones exactly when it holds a '%'. */
  lemma {:induction false} ReadAllInsideSource(source: seq<Unit>, p: int, remaining: int)
    requires 0 <= p && 0 <= remaining && p + remaining <= |source|
    ensures ReadAll(source, p, remaining) != Err(IndexOutOfRange)
    ensures ReadAll(source, p, remaining).Ok? ==>
      |ReadAll(source, p, remaining).value| <= remaining &&
      (|ReadAll(source, p, remaining).value| == remaining <==> PERCENT !in source[p..p + remaining])
    decreases remaining
  {
    match ReadAt(source, p, remaining)
    case Exhausted =>
    case Failed(e, _) =>
    case Decoded(c, w) =>
      ReadAllInsideSource(source, p + w, remaining - w);
      assert source[p] == source[p..p + remaining][0];
      if ReadAll(source, p, remaining).Ok? {
        var rest := ReadAll(source, p + w, remaining - w).value;
        assert |ReadAll(source, p, remaining).value| == 1 + |rest|;
        if w == 1 {
          assert source[p..p + remaining] == [source[p]] + source[p + 1..p + remaining];
        } else {
          assert PERCENT in source[p..p + remaining];
        }
      }
  }

  /** With the default `length` the window is `Source.Length` long whatever `startIndex` is, so from
      any `startIndex > 0` the reads run off the end of a source without '%'. */
  lemma {:induction false} DefaultWindowOverrun(source: seq<Unit>, p: int, remaining: int)
    requires 0 <= p <= |source| < p + remaining
    requires PERCENT !in source[p..]
    ensures ReadAll(source, p, remaining) == Err(IndexOutOfRange)
    decreases |source| - p
  {
    if p < |source| {
      assert source[p] == source[p..][0];
      assert source[p + 1..] == source[p..][1..];
      DefaultWindowOverrun(source, p + 1, remaining - 1);
    }
  }

  /** What `MoveNext` returns: true, false, or an exception. */
  datatype Move = Advanced | Finished | Threw(error: ReadError)

  class CharReader {
    const Source: seq<Unit>
    var Current: Unit
    var ReadStart: int
    var ReadLength: int
    var RemainingCount: int
    var AtEnd: bool

    /** A negative `length`, the default, stands for `Source.Length`. */
    constructor (source: seq<Unit>, startIndex: int := 0, length: int := -1)
      ensures Source == source
      ensures RemainingCount == (if length < 0 then |source| else length)
      ensures ReadStart == startIndex && ReadLength == 0
      ensures Current == NUL && !AtEnd
    {
      Source := source;
      RemainingCount := if length < 0 then |source| else length;
      ReadStart := startIndex;
      ReadLength := 0;
      Current := NUL;
      AtEnd := false;
    }

    /** Reads the next logical character, which starts where the last one ended. */
    method MoveNext() returns (r: Move)
      modifies this
      ensures ReadStart == old(ReadStart + ReadLength)
      ensures match ReadAt(Source, ReadStart, old(RemainingCount))
        case Exhausted =>
          r == Finished && ReadLength == 0 && Current == NUL && AtEnd && RemainingCount == old(RemainingCount)
        case Decoded(c, w) =>
          r == Advanced && Current == c && ReadLength == w &&
          RemainingCount == old(RemainingCount) - w && AtEnd == old(AtEnd)
        case Failed(e, k) =>
          r == Threw(e) && ReadLength == k && AtEnd == old(AtEnd) &&
          if e == IndexOutOfRange && k == 1
          then RemainingCount == old(RemainingCount) - 1 && Current == old(Current)
          else RemainingCount == old(RemainingCount) - 3 && Current == PERCENT
      ensures !r.Threw? ==> ReadStart + ReadLength + RemainingCount == old(ReadStart + ReadLength + RemainingCount)
      ensures r.Advanced? ==>
        ReadAll(Source, old(ReadStart + ReadLength), old(RemainingCount)) ==
        Prepend([Logical(Current, ReadStart, ReadStart + ReadLength)], ReadAll(Source, ReadStart + ReadLength, RemainingCount))
    {
      ReadStart := ReadStart + ReadLength;
      ReadLength := 0;
      if RemainingCount > 0 {
        RemainingCount := RemainingCount - 1;
        // The source's "Read past end of string!" check here cannot fire: RemainingCount was positive.
        var at := ReadStart + ReadLength;
        ReadLength := ReadLength + 1;
        if !(0 <= at < |Source|) {
          return Threw(IndexOutOfRange);
        }
        Current := Source[at];
        if Current == PERCENT {
          RemainingCount := RemainingCount - 2;
          if RemainingCount < 0 {
            return Threw(ReadPastEnd);
          }
          at := ReadStart + ReadLength;
          ReadLength := ReadLength + 1;
          if at >= |Source| {
            return Threw(IndexOutOfRange);
          }
          var nibble1 := Source[at];
          at := ReadStart + ReadLength;
          ReadLength := ReadLength + 1;
          if at >= |Source| {
            return Threw(IndexOutOfRange);
          }
          var nibble2 := Source[at];
          Current := DecodePair(nibble1, nibble2);
        }
        return Advanced;
      } else {
        Current := NUL;
        AtEnd := true;
        return Finished;
      }
    }

    /** Rewinds to raw offset 0 of the source, keeping the count of raw characters left. */
    method Reset()
      modifies this
      ensures ReadStart == 0 && ReadLength == 0 && Current == NUL
      ensures RemainingCount == old(RemainingCount) && AtEnd == old(AtEnd)
    {
      ReadLength := 0;
      ReadStart := 0;
      Current := NUL;
    }
  }
}
