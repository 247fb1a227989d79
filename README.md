# The lexing layer of jasonholloway/parser, in Dafny

The parser's live front end turns an OData-style URL fragment such as
`$filter=%28Surname eq %27O%27%27Brien%27%29` into a stream of token spans. A span is a token kind
with the raw offsets `[Left, Right)` it was read from. Three pieces do this work, and this project
models all three.

- **`CharReader`** (module `Reader`, `char_reader.dfy`) is a cursor over a raw window of a string.
  Each `MoveNext` yields one logical character. A `%XX` triple, the percent-encoding of
  section 2.1 of RFC 3986, is folded into one decoded character. The cursor records the raw extent
  `[ReadStart, ReadStart + ReadLength)` of each character.
- **`Lexer`** (`lexer.dfy`) has two halves.
  - The character classes and `DecodeAsHex` live in module `CharExtensions`
    (`char_extensions.dfy`).
  - The cursor `Context` repeats the same decoding over the raw offsets `Start`, `Last` and `Next`.
  - Six rules are tried in order: space, single character, number, string, word, and `$` reserved
    word. `Lex` brackets what they give with `Start` and `End` sentinels.
- **`Span<T>`** (module `Spans`, `span.dfy`) is the `(Token, Left, Right)` triple with `Of`, `From`
  and `ToString`. `TokenSpan` is that triple over the lexer's `Token` enumeration.

Characters are UTF-16 code units (`Unit`, 0 to 0xFFFF), because that is what a C# `char` holds. A
decoded `%XX` can land anywhere in that range, and the `(char)` cast keeps the low 16 bits.

How the lexer is stated:
- The rules are stated first as functions over raw offsets: `LookAt`, `RunEnd`, `StringEnd`, the
  rule functions, `Rules`, `LexFrom` and `Lexing`.
- The imperative `Context` class and the rule methods are then proved to compute those functions.
- `Lex` is proved to return exactly `Lexing(source)`.

What `lexer_properties.dfy` proves about `Lexing`:
- the stream's shape: the sentinels, and tokens that tile the source by the rules;
- the token kind that the first character selects;
- what each kind of token's decoded text is: a run of one class, one switch character, a quoted
  string with doubled quotes, or a `$` heading;
- that every error names an offset holding its cause.

`lexer_examples.dfy` works out the exact span streams that the tests in
`Parser.Tests/LexerTests.cs` expect, plus the edge cases of the rules as written.

The model follows the code as written, including these behaviours:
- `DecodeAsHex` counts hex letters from `'A'` or `'a'`, so `%2A` decodes to a space rather than `'*'`
  (`DecodeAsHexOnLetters`, `PercentRoundTrip`, `PercentDecodingExamples`). Digit pairs, the only ones
  the tests use, decode as RFC 3986 says (`DecodePairOnDigits`).
- `IsWordChar` takes the range `'A'..'z'`. That range also holds the six code units ``[ \ ] ^ _ ` ``
  (`WordCharsAsWritten`).
- `LexHeading` skips the character after `'$'` without testing it.
  - So `$=x` is the one token `ReservedWord(0, 3)`. The `=`, which elsewhere is an `Equals` token,
    is inside the reserved word (`DollarSkipsEquals`).
  - A `'$'` that is the last logical character swallows the NUL past the end. A final `%24` counts
    as such a `'$'`. The reserved word, and then `End`, lie one offset beyond the source
    (`DollarAtEnd`, `HeadingAtEnd`).
  - `Lex` therefore ends in `End(n, n)`, where `n` is the source length, except in this one case,
    where it ends in `End(n + 1, n + 1)` (`LexingShape`).
- `CharReader`'s default `length` is `Source.Length`, whatever `startIndex` is. From a positive
  `startIndex` the window therefore overruns the source (`DefaultWindowOverrun`).

## Model

| member | source | states |
|---|---|---|
| CharExtensions.IsNumber | Parser/Lexer.cs:37-38 | a digit is not a quote, a space, `%`, `$` or NUL |
| CharExtensions.IsQuoteMark | Parser/Lexer.cs:40-41 | a quote is not a space, `%`, `$` or NUL |
| CharExtensions.IsWordChar | Parser/Lexer.cs:43-44 | every digit is a word character; a word character is not a quote, a space, `%`, `$` or NUL |
| CharExtensions.IsWhitespace | Parser/Lexer.cs:46-47 | a space is not `%`, `$` or NUL |
| CharExtensions.DecodeAsHex | Parser/Lexer.cs:51-55 | the nibble lies between `-'0'` and `0xFFFF - 'a'`, and every hex digit of either case gives 0 to 9 |
| CharExtensions.DecodePair | Parser/CharReader.cs:48-50 | two hex digits decode to 16 times the first nibble plus the second, at most 0x99, so the cast to `char` does not wrap |
| CharExtensions.DecodeAsHexOnDigits | Parser/Lexer.cs:51-52 | on a decimal digit the nibble decoder gives the RFC 3986 value |
| CharExtensions.DecodeAsHexOnLetters | Parser/Lexer.cs:51-55 | on a hex letter of either case the decoder gives 10 less than RFC 3986 |
| CharExtensions.DecodePairOnDigits | Parser/Lexer.cs:51-55 | a pair of digit nibbles decodes to 16 times the first plus the second, the RFC 3986 octet |
| CharExtensions.PercentRoundTrip | Parser/Lexer.cs:51-55 | a byte percent-encoded in upper case decodes back to itself exactly when both of its nibbles are below 10 |
| CharExtensions.PercentDecodingExamples | Parser/CharReader.cs:50 | `%2A` decodes to a space, `%41` to `A` and `%27` to a quote |
| CharExtensions.WordCharsAsWritten | Parser/Lexer.cs:43-44 | a word character is exactly a digit, an ASCII letter or one of the six code units between `Z` and `a` |
| CharExtensions.NulInNoClass | Parser/Lexer.cs:37-47 | the NUL read past the end is in none of the four classes |
| Spans.Of | Parser/Span.cs:10-11 | the span carries exactly the given token, left and right |
| Spans.From | Parser/Span.cs:35-36 | defined exactly when `0 <= Left <= Right <= length`; then it returns `Right - Left` raw, undecoded code units starting at `Left` |
| Spans.FromZeroWidth | Parser/Span.cs:35-36 | a zero-width span inside the source gives the empty string |
| Spans.FromAdjacent | Parser/Span.cs:35-36 | the text of two adjacent spans is the text of their union |
| Spans.Decimal | Parser/Span.cs:26-27 | an integer renders as a non-empty string with a leading `-` exactly when it is negative, and digits after that |
| Spans.ToString | Parser/Span.cs:26-27 | renders `"(Left, Right) Token"`; `ToStringReadsLeft` and `ToStringReadsRight` read both offsets and the token's name back from it |
| Spans.DecimalRoundTrip | Parser/Span.cs:26-27 | reading a rendered integer back gives the integer |
| Spans.ToStringReadsLeft | Parser/Span.cs:26-27 | `"(Left, Right) Token"` starts with `(`, and `Left` reads back as the number before the first `,`, which a space follows |
| Spans.ToStringReadsRight | Parser/Span.cs:26-27 | after the `", "`, `Right` reads back as the number before the first `)`, and the token's name follows the space after it |
| Reader.ReadAt | Parser/CharReader.cs:38-51 | one read: the window ends when no raw character is left; a plain character is 1 raw unit, a `%` 3 and decodes its two nibbles; a `%` with fewer than 3 units left throws "Read past end of string!" |
| Reader.ReadAll | Parser/CharReader.cs:34-60 | what successive `MoveNext` calls deliver; `ReadAllTiles`, `ReadAllDecodes`, `ReadAllPlain` and `ReadAllInsideSource` state its properties |
| Reader.ReadAllTiles | Parser/CharReader.cs:35-36 | successive reads tile the window with no gap or overlap, each 1 or 3 raw units wide |
| Reader.ReadAllDecodes | Parser/CharReader.cs:42-50 | each logical character is its raw unit, or the decoded pair after its `%` |
| Reader.ReadAllPlain | Parser/CharReader.cs:38-53 | a window without `%` reads as its own code units |
| Reader.ReadAllInsideSource | Parser/CharReader.cs:38-51 | a window inside the source never indexes out of range, and it has as many logical characters as raw ones exactly when it has no `%` |
| Reader.DefaultWindowOverrun | Parser/CharReader.cs:24-26 | a window longer than the rest of a `%`-free source ends in an index-out-of-range exception |
| Reader.CharReader.constructor | Parser/CharReader.cs:24-31 | with the defaults `startIndex = 0` and `length = -1`: `RemainingCount` is the length, or `Source.Length` when the length is negative; `ReadStart = startIndex`, `ReadLength = 0`, `Current = NUL`, `AtEnd` false |
| Reader.CharReader.MoveNext | Parser/CharReader.cs:34-60 | starts where the last character ended; each outcome of `ReadAt` is returned with the exact new fields; `ReadStart + ReadLength + RemainingCount` is kept when nothing throws; a true result is the head of `ReadAll` |
| Reader.CharReader.Reset | Parser/CharReader.cs:62-65 | `ReadStart`, `ReadLength` and `Current` are zeroed; `RemainingCount` and `AtEnd` are kept |
| Lexer.LookAt | Parser/Lexer.cs:100-125 | what a `Shift` from a raw offset reads; on success the next offset lies beyond it |
| Lexer.LookAtReads | Parser/Lexer.cs:104-117 | inside the source, `Shift` decodes like `CharReader.MoveNext` with the rest of the source as its window |
| Lexer.RunEnd | Parser/Lexer.cs:174-224 | a run stops on a character outside its class, within the source or just past it; or it fails on a cut `%` in the source |
| Lexer.StringEnd | Parser/Lexer.cs:184-195 | a string ends inside the source, where the lexer can stand, or fails as unterminated or on a cut `%` |
| Lexer.CharToken | Parser/Lexer.cs:229-241 | the ten switch characters are in no class that another rule tests, nor `$` or NUL, and they give only single-character kinds |
| Lexer.RunRule | Parser/Lexer.cs:174-224 | applies exactly when the current character is in the class; the token has the rule's kind, starts where the lexer stands, is not empty and ends where the lexer can stand; it throws only on a cut `%` |
| Lexer.CharsRule | Parser/Lexer.cs:227-242 | applies exactly when the switch has a case for the character; the token is that one logical character; a throw names the offset after it |
| Lexer.StringRule | Parser/Lexer.cs:184-195 | applies exactly on a quote; the token is not empty and ends inside the source; it fails as unterminated at its opening quote, or on a cut `%` |
| Lexer.HeadingRule | Parser/Lexer.cs:197-206 | applies exactly on `$`; the reserved word starts there and is at least two offsets wide; it throws only on a cut `%` |
| Lexer.Rules | Parser/Lexer.cs:161-167 | a token starts on a character of the source and is not empty; only a reserved word can end past the end of the source |
| Lexer.LexFrom | Parser/Lexer.cs:161-170 | the loop of `Lex` from an offset, then `End`; `LexFromEnd`, `LexFromTiled` and `LexFromByRules` state its shape in both directions |
| Lexer.Lexing | Parser/Lexer.cs:155-171 | the stream `Lex` yields; `LexingShape`, `LexingTokens`, `TokenRelexes` and `LexingErrors` state its properties |
| Lexer.Context.constructor | Parser/Lexer.cs:89-97 | the cursor starts at raw offset 0 with the whole source remaining, `Char` the first unit or NUL |
| Lexer.Context.Shift | Parser/Lexer.cs:100-125 | `Last` becomes the old `Next`; the character `LookAt` gives and the offset after it; or the "Parsed past end of string!" error on a cut `%` |
| Lexer.Context.AtEnd | Parser/Lexer.cs:128-129 | standing at a token boundary, the lexer is at the end exactly when it stands at or past the end of the source |
| Lexer.Context.Emit | Parser/Lexer.cs:132-137 | the span from `left`, or else from `Start`, to `Last`; `Start` becomes `Last` |
| Lexer.Context.ShiftAndEmit | Parser/Lexer.cs:139-142 | a one-character span from `Start` to the offset after the character, or the `Shift` error with the state `Shift` leaves at its throw |
| Lexer.ShiftWhile | Parser/Lexer.cs:178 | the loop gives `RunEnd`, and the lexer stands where the run stopped |
| Lexer.LexRun | Parser/Lexer.cs:174-224 | a run rule gives `RunRule` and changes nothing when it does not apply |
| Lexer.LexSpace | Parser/Lexer.cs:217-224 | gives the space `RunRule`; unchanged state on no match |
| Lexer.LexNumeric | Parser/Lexer.cs:174-181 | gives the digit `RunRule`; unchanged state on no match |
| Lexer.LexWord | Parser/Lexer.cs:208-215 | gives the word `RunRule`; unchanged state on no match |
| Lexer.LexChars | Parser/Lexer.cs:227-242 | gives `CharsRule`, the switch on one logical character; unchanged state on no match |
| Lexer.LexString | Parser/Lexer.cs:184-195 | gives `StringRule`, stopping at the first quote that no quote follows |
| Lexer.LexHeading | Parser/Lexer.cs:197-206 | gives `HeadingRule`: `$`, one character it does not look at, then a word run |
| Lexer.LexToken | Parser/Lexer.cs:162-167 | the six rules in their order give `Rules` |
| Lexer.Lex | Parser/Lexer.cs:150-171 | the whole stream is `Lexing(source)`: `Start`, the tokens the rules give, `End`, or the error that stops the lexer |
| LexerProperties.LexFromEnd | Parser/Lexer.cs:161-170 | the loop ends with `End(m, m)`, `m` the source length or, after a reserved word, one more |
| LexerProperties.LexFromTiled | Parser/Lexer.cs:161-168 | the tokens before `End` tile the rest of the source and are each what the rules give there |
| LexerProperties.LexFromByRules | Parser/Lexer.cs:161-170 | conversely, spans the rules give end to end up to the end are exactly what the loop yields |
| LexerProperties.LexFromStep | Parser/Lexer.cs:161-168 | one turn of the loop puts the rule's span in front of the rest |
| LexerProperties.LexingShape | Parser/Lexer.cs:155-171 | the stream is `Start(0, 0)`, non-empty tokens tiling `[0, m)` by the rules, then `End(m, m)`, where `m` is the length, or the length plus one after a trailing `$` |
| LexerProperties.RulesKind | Parser/Lexer.cs:161-167 | a rule applies exactly when the first character has a kind, and the token has that kind |
| LexerProperties.RulesDispatch | Parser/Lexer.cs:161-167 | the first character's kind picks the one rule that decides |
| LexerProperties.LookAtInWindow | Parser/Lexer.cs:104-117 | a reader window over the character decodes it from the same raw extent as `Shift` |
| LexerProperties.RunEndText | Parser/Lexer.cs:178 | the raw extent a run passes over decodes to characters of its class only |
| LexerProperties.RunRuleDenotes | Parser/Lexer.cs:174-224 | a space, number or word token decodes to a non-empty run of its class, and the character after it is outside the class |
| LexerProperties.CharsRuleDenotes | Parser/Lexer.cs:227-242 | a switch token decodes to one logical character whose kind the switch gives |
| LexerProperties.StringEndText | Parser/Lexer.cs:190-192 | what the string loop passes over is plain characters and doubled quotes, then the closing quote; no quote follows it |
| LexerProperties.ClosedStringEnds | Parser/Lexer.cs:190-192 | conversely, quoted text that closes inside the source with no quote after it is exactly where the string loop stops |
| LexerProperties.StringRuleDenotes | Parser/Lexer.cs:184-195 | a string token decodes to a quote, the quoted text and a closing quote not followed by another |
| LexerProperties.HeadingWithin | Parser/Lexer.cs:197-206 | inside the source a reserved word is `$`, the skipped character and a word run |
| LexerProperties.HeadingAtEnd | Parser/Lexer.cs:197-206 | a final `$` gives a reserved word one offset past the end of the source |
| LexerProperties.HeadingRuleDenotes | Parser/Lexer.cs:197-206 | every reserved word is one of those two shapes |
| LexerProperties.RulesDenote | Parser/Lexer.cs:161-167 | every token the rules give decodes to what its kind stands for |
| LexerProperties.LexingTokens | Parser/Lexer.cs:155-171 | every token between the sentinels has the kind of its first character and decodes to what that kind stands for |
| LexerProperties.LookAtSlice | Parser/Lexer.cs:100-125 | a character that ends inside `[l, r)` reads the same from the slice `source[l..r]`, shifted by `l` |
| LexerProperties.RunEndSlice | Parser/Lexer.cs:178 | a run that stops at `r` stops at the end of the slice that ends at `r` |
| LexerProperties.StringEndSlice | Parser/Lexer.cs:190-192 | a string that closes at `r` closes at the end of the slice that ends at `r` |
| LexerProperties.RulesSlice | Parser/Lexer.cs:161-167 | the rules give the same token, shifted to offset 0, on the slice that the token covers |
| LexerProperties.TokenRelexes | Parser/Lexer.cs:155-224 | lexing the raw extent of any token between the sentinels on its own gives `Start`, that token and `End`, unless it is a reserved word that runs past the end |
| LexerProperties.RulesErrors | Parser/Lexer.cs:161-167 | a rule that throws names a cut `%`, or the quote of a string that no end inside the source closes |
| LexerProperties.LexFromErrors | Parser/Lexer.cs:161-168 | an error of the loop names an offset that holds its cause: a cut `%`, a character no rule takes, or a quote that nothing closes |
| LexerProperties.LexingErrors | Parser/Lexer.cs:106-112 | when `Lex` throws, the offset it names holds the cause: a cut `%`, a character no rule takes, or a quote followed by no quoted text that closes inside the source |
| LexerProperties.LexingWithoutPercent | Parser/Lexer.cs:110-112 | a source without `%` never makes `Shift` throw |
| LexerExamples.ResourcePath | Parser.Tests/LexerTests.cs:15-29 | `Dogs/Chihuahuas('Boris')` lexes to the eight spans the test expects |
| LexerExamples.FilterOption | Parser.Tests/LexerTests.cs:36-51 | `$filter=name eq 'Boris'` lexes to the nine spans the test expects |
| LexerExamples.QueryOptions | Parser.Tests/LexerTests.cs:55-83 | `$top=2&$orderby=Name&$filter=(Score gt 1000)` lexes to the nineteen spans the test expects |
| LexerExamples.FilterWithDoubledQuote | Parser.Tests/LexerTests.cs:87-103 | `'O''Brien'` is one `String(19, 29)` in the stream the test expects |
| LexerExamples.PercentEncodedQuotes | Parser.Tests/LexerTests.cs:108-120 | `(%27Hello%27)` gives `Open(0, 1)`, `String(1, 12)`, `Close(12, 13)`, and the string's raw extent decodes to `'Hello'` |
| LexerExamples.PercentEncodedFilter | Parser.Tests/LexerTests.cs:126-144 | percent-encoded parentheses and quotes span their raw triples, as the test expects |
| LexerExamples.StringWithPercents | Parser.Tests/LexerTests.cs:148-156 | `%27Blah%27` is one `String(0, 10)` |
| LexerExamples.DollarAtEnd | Parser/Lexer.cs:197-206 | a lone `$` gives `ReservedWord(0, 2)` and `End(2, 2)` |
| LexerExamples.DollarSkipsEquals | Parser/Lexer.cs:197-206 | `$=x` is the one token `ReservedWord(0, 3)` |
| LexerExamples.CutPercent | Parser/Lexer.cs:110-112 | `a%2` throws at the `%` |
| LexerExamples.NoRuleForColon | Parser/Lexer.cs:162-167 | a `:` matches no rule, so the cast fails at its offset |
| LexerExamples.UnclosedString | Parser/Lexer.cs:190-192 | `'ab` is reported as an unterminated string opened at 0 |

## Left out

- Laziness of `Lex`: the source yields spans one at a time, so a caller sees the spans before an
  exception. The model returns either the whole stream or the error, without that prefix.
- `LexString` on a string that is never closed loops forever in the source, because `Shift` past
  the end keeps returning NUL. The model stops with `Unterminated` instead of diverging.
- `Dispose` and the non-generic `IEnumerator.Current` of `CharReader` do nothing the model can
  observe.
- Spans.ToString renders the token through a `name` parameter: the C# enum names are not modelled
  as strings.
- Spans.Decimal writes '-' as the negative sign. The interpolated string of Parser/Span.cs:26-27
  formats under the current culture, whose negative sign can differ; that dependence is not modelled.
- Integer overflow of the C# `int` offsets and counts is not modelled. Offsets are bounded by the
  length of a string, and decoding two nibbles cannot overflow (`DecodePair`).
- Parser/Parser.cs is not part of this model. It is an older lexer whose names clash with the live
  one, and its `Parse` is a stub.
- Parser/Nodes.cs, Parser/Stages.cs and Parser/DataProvider.cs are not part of this model. They hold
  declarations and scaffolding that nothing in the lexing layer uses.
- Parser.Tests/ParserTests.cs and Parser.Tests/UnitTest1.cs are not part of this model. They call
  APIs that the shown code does not define.
- The tests at Parser.Tests/LexerTests.cs:163-242 are not modelled. They expect `Guid`, `Date`,
  `Decimal` and `Hyphen` tokens, which the `Token` enumeration does not have.
