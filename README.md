# html5parser tokenizer, modelled in Dafny

This project models the markup tokenizer of html5parser (`src/tokenize.ts`).
The tokenizer is a single-pass state machine with fifteen states. A driver
loop reads the input one character at a time and hands it to the `parse*`
handler of the current state. Each handler either moves to another state or
calls `emitToken`. `emitToken` cuts the pending section `[sectionStart, end)`
out of the input and appends it as a token: tag names are lower-cased, empty
Literal and Whitespace sections are dropped, and the raw-text flags
`inScript`/`inStyle` are kept up to date. After the last character, a
finalisation switch flushes whatever section is still pending. While the input
lasts, inside `script` and `style` only the matching close tag is recognised,
and the name is compared without regard to case; a `</…` still pending when
the input ends is flushed as a CloseTag whatever it holds
(src/tokenize.ts:245-247). The tokenizer throws in one place only: in
`parseOpeningDoctype`, when a `<!doctype` runs straight into a character other
than whitespace (src/tokenize.ts:564-571).

The model has two layers:

- **Module `Machine`** describes the machine as pure functions on a
  `Scanner` value (state, section start, index, tokens, raw-text flags):
  - `Emit` is `emitToken` with its default arguments written out;
  - there is one function per handler;
  - `Dispatch` is the `switch` of the driver loop;
  - `Loop` runs the driver loop, `Finish` is the finalisation switch, and
    `Tokenize` is the whole call.
  - `Tokenize` returns `Err(Unexpected(index, state))` where the source throws.
- **Module `Lexer`** has the class `Tokenizer`, whose fields are the source's
  module-level variables (`state`, `buffer`, `bufSize`, `sectionStart`,
  `index`, `tokens`, `char` as `current`, `inScript`, `inStyle`, `offset`).
  Its methods update those fields in place, as the source does, and each one
  is proved to compute the matching `Machine` function on the object's
  `Snapshot()`. `Run` is the `while (index < bufSize)` loop, whose invariant
  ties the remaining run to `Machine.Loop`.

What is proved about the machine lives in the remaining modules:

- **`Invariants`** defines the loop invariant `Inv`. Every emitted token is a
  section of the input; its value is the section's text, lower-cased exactly
  for tag names; its value has its kind's shape (a quoted value starts and ends
  with its quote, `=` is `"="`, whitespace is whitespace, and so on). Tokens
  are in input order, and no OpenTag follows an open `script`/`style` before
  its CloseTag. The pending section also has a shape specific to each state.
- **`Preservation`** proves that every handler keeps `Inv`, branch by branch.
- **`Steps`** states single-step contracts: the emission discipline of
  `emitToken`, the raw-text close-tag matching, quoted values, `=`, tag names
  and the doctype check.
- **`Properties`** proves the whole-run results. Every token is sound and in
  order, and no tag is opened inside raw text. `tokenize` fails only at a
  `<!doctype` (any case) followed by a non-space, read in the OpeningDoctype
  state (`TokenizeErr`); such a doctype does not always make it fail (inside
  `script`, a quoted value or a `<?…` comment it is text), but an input that
  starts with one always fails (`DoctypeFails`). Text without `<` is a single
  Literal.
- **`Coverage`** proves that the tokens cover the input: every character that
  falls before the first token or between two tokens is one of `<`, `/` and
  `>`, and every character after the last token is one of those or
  whitespace. The whitespace case is the one pending after attributes when the
  input ends, which the finalisation drops (src/tokenize.ts:224-225).
- **`Scenarios`** proves the exact token list (or error) the machine gives for a few small inputs.

Characters are Dafny `char`s indexed by position. Lower- and upper-casing is
ASCII only (module `Chars`).

Behaviours of the code a reader may not expect:

- `<div a='b'>` gives the name as an AttrValueNq `a` and the value as an
  AttrValueSq `'b'`, with its quotes included (src/tokenize.ts:481-503,
  523-528).
- `<!-- c -->` gives OpenTag `!--`, Literal ` c ` and OpenTagEnd `--`
  (src/tokenize.ts:583-624).
- Text inside `script` that contains `<` comes out as several Literal tokens;
  they are not merged (src/tokenize.ts:376-384, 392-400, 628-631).
- An unterminated quoted value is flushed as a Literal at the end of the input
  (src/tokenize.ts:209-219).
- A `</` inside `style` or `script` cut off by the end of the input is flushed
  as a CloseTag, even though it names no element (src/tokenize.ts:245-247).

## Model

| member | source | states |
|---|---|---|
| Chars.MakeCodePoints | src/tokenize.ts:59-75 | the lower and upper tables have the word's length and are the word lower-cased and upper-cased; the lower table holds no upper-case letter |
| Chars.LowerIsLowerCase | src/tokenize.ts:296-298 | lower-casing gives a lower-case string of the same length and is idempotent |
| Chars.MatchIgnoringCase | src/tokenize.ts:577 | a character equals the lower or the upper form of another exactly when both lower-case to the same character |
| Chars.TableMatch | src/tokenize.ts:633-634 | a character matches position `k` of a code-point table (lower or upper) exactly when `k` is in range and it equals the word's character there, ignoring case |
| Machine.Substring | src/tokenize.ts:287 | JavaScript `substring` on ordered in-range bounds is the slice, and it is never longer than the string |
| Lexer.Tokenizer.constructor | src/tokenize.ts:111-124 | `init`: state Literal, all counters zero, no tokens, both flags clear, for the given buffer |
| Lexer.Tokenizer.IsWhiteSpace | src/tokenize.ts:100-109 | true exactly for space, `\n`, `\t`, `\r` and `\f` |
| Lexer.Tokenizer.EmitToken | src/tokenize.ts:272-367 | the new fields are `Machine.Emit` of the old ones |
| Lexer.Tokenizer.ParseLiteral | src/tokenize.ts:376-384 | the new fields are `Machine.ParseLiteral` of the old ones and the current character |
| Lexer.Tokenizer.ParseBeforeOpenTag | src/tokenize.ts:386-444 | the new fields are `Machine.ParseBeforeOpenTag` of the old ones |
| Lexer.Tokenizer.ParseOpeningTag | src/tokenize.ts:446-479 | the new fields are `Machine.ParseOpeningTag` of the old ones |
| Lexer.Tokenizer.ParseAfterOpenTag | src/tokenize.ts:481-503 | the new fields are `Machine.ParseAfterOpenTag` of the old ones |
| Lexer.Tokenizer.ParseInValueNq | src/tokenize.ts:505-521 | the new fields are `Machine.ParseInValueNq` of the old ones |
| Lexer.Tokenizer.ParseInValueSq | src/tokenize.ts:523-528 | the new fields are `Machine.ParseInValueSq` of the old ones |
| Lexer.Tokenizer.ParseInValueDq | src/tokenize.ts:530-535 | the new fields are `Machine.ParseInValueDq` of the old ones |
| Lexer.Tokenizer.ParseClosingOpenTag | src/tokenize.ts:537-546 | the new fields are `Machine.ParseClosingOpenTag` of the old ones |
| Lexer.Tokenizer.ParseOpeningSpecial | src/tokenize.ts:548-561 | the new fields are `Machine.ParseOpeningSpecial` of the old ones |
| Lexer.Tokenizer.ParseOpeningDoctype | src/tokenize.ts:563-581 | on success the new fields are the `Ok` of `Machine.ParseOpeningDoctype`; on failure nothing changes and the function's error names the current index and state |
| Lexer.Tokenizer.ParseOpeningNormalComment | src/tokenize.ts:583-590 | the new fields are `Machine.ParseOpeningNormalComment` of the old ones |
| Lexer.Tokenizer.ParseNormalComment | src/tokenize.ts:592-597 | the new fields are `Machine.ParseNormalComment` of the old ones |
| Lexer.Tokenizer.ParseShortComment | src/tokenize.ts:599-605 | the new fields are `Machine.ParseShortComment` of the old ones |
| Lexer.Tokenizer.ParseClosingNormalComment | src/tokenize.ts:607-624 | the new fields are `Machine.ParseClosingNormalComment` of the old ones |
| Lexer.Tokenizer.ParseRawClosingTag | src/tokenize.ts:628-657 | one raw-text branch of `parseClosingTag` for a given name table, equal to `Machine.ParseRawClosingTag` |
| Lexer.Tokenizer.ParseClosingTag | src/tokenize.ts:626-662 | the new fields are `Machine.ParseClosingTag` of the old ones |
| Lexer.Tokenizer.Step | src/tokenize.ts:143-202 | one pass of the `switch`: on success the new fields are `Machine.Dispatch`'s result; on failure nothing changes and the error names the current index and state |
| Lexer.Tokenizer.Finish | src/tokenize.ts:209-250 | the new fields are `Machine.Finish` of the old ones |
| Lexer.Tokenizer.Run | src/tokenize.ts:134-252 | the driver loop and finalisation return exactly `Machine.Tokenize` of the buffer: the tokens, or the error thrown |
| Lexer.Tokenize | src/tokenize.ts:133-253 | a fresh tokenizer returns `Machine.Tokenize(input)` |
| Invariants.EmitKeeps | src/tokenize.ts:283-335 | an emission whose section has its kind's shape keeps the token facts: soundness, order and no tag inside raw text |
| Preservation.LiteralStep | src/tokenize.ts:376-384 | `parseLiteral` keeps the loop invariant |
| Preservation.BeforeOpenTagStep | src/tokenize.ts:386-444 | `parseBeforeOpenTag` keeps the loop invariant, in and out of raw text |
| Preservation.OpeningTagStep | src/tokenize.ts:446-479 | `parseOpeningTag` keeps the loop invariant |
| Preservation.AfterOpenTagStep | src/tokenize.ts:481-503 | `parseAfterOpenTag` keeps the loop invariant |
| Preservation.InValueNqStep | src/tokenize.ts:505-521 | `parseInValueNq` keeps the loop invariant |
| Preservation.InValueSqStep | src/tokenize.ts:523-528 | `parseInValueSq` keeps the loop invariant |
| Preservation.InValueDqStep | src/tokenize.ts:530-535 | `parseInValueDq` keeps the loop invariant |
| Preservation.ClosingOpenTagStep | src/tokenize.ts:537-546 | `parseClosingOpenTag` keeps the loop invariant, including its fall-through into `parseAfterOpenTag` |
| Preservation.OpeningSpecialStep | src/tokenize.ts:548-561 | `parseOpeningSpecial` keeps the loop invariant |
| Preservation.OpeningDoctypeStep | src/tokenize.ts:563-581 | `parseOpeningDoctype` keeps the loop invariant whenever it does not throw |
| Preservation.OpeningNormalCommentStep | src/tokenize.ts:583-590 | `parseOpeningNormalComment` keeps the loop invariant |
| Preservation.NormalCommentStep | src/tokenize.ts:592-597 | `parseNormalComment` keeps the loop invariant |
| Preservation.ShortCommentStep | src/tokenize.ts:599-605 | `parseShortComment` keeps the loop invariant |
| Preservation.ClosingNormalCommentStep | src/tokenize.ts:607-624 | `parseClosingNormalComment` keeps the loop invariant |
| Preservation.RawClosingTagStep | src/tokenize.ts:628-657 | the raw-text branches of `parseClosingTag` keep the loop invariant, including the two-character rewind |
| Preservation.ClosingTagStep | src/tokenize.ts:626-662 | `parseClosingTag` keeps the loop invariant |
| Preservation.DispatchStep | src/tokenize.ts:143-203 | every successful pass of the `switch` followed by `index++` keeps the loop invariant |
| Steps.EmitToken | src/tokenize.ts:272-367 | the token appended is `[sectionStart, end)` of the input, lower-cased exactly for OpenTag and CloseTag; empty Literal and Whitespace are dropped and every other kind is kept; after OpenTagEnd/CloseTag the section restarts at `end + 1` in Literal, otherwise at `end` in `newState`; OpenTag `script`/`style` sets its flag, CloseTag clears both, nothing else touches them |
| Steps.RawBeforeOpenTag | src/tokenize.ts:392-400 | inside raw text, the character read after `<` emits nothing and leads to ClosingTag exactly on `/`, otherwise back to Literal (the `<` itself flushed the pending Literal in `parseLiteral`) |
| Steps.RawLtGivesBack | src/tokenize.ts:629-631 | inside raw text, a `<` after `</…` emits the `</…` read so far as a Literal and goes to BeforeOpenTag |
| Steps.RawCloseTagNeedsName | src/tokenize.ts:628-657 | inside raw text, on a character other than `<` (see `RawLtGivesBack`), a token is emitted only on `>` after the whole element name, ignoring case, and that token is the lower-cased CloseTag |
| Steps.RawCloseTagOnName | src/tokenize.ts:637-638 | `>` after the whole name emits the CloseTag, clears both flags and returns to Literal |
| Steps.RawMismatchRewinds | src/tokenize.ts:632-641 | a character other than `<` that either does not continue the name or, after the whole name, is neither whitespace nor `>` moves the section start back by exactly 2, resumes Literal and emits nothing |
| Steps.QuotedValueEnds | src/tokenize.ts:523-535 | the closing quote emits one token spanning both quotes, with the section's text as value, and moves to AfterOpenTag past the quote |
| Steps.EqualsToken | src/tokenize.ts:489-492 | `=` between attributes ends with an AttrValueEq token `"="` spanning one character, and the state stays AfterOpenTag |
| Steps.EqualsAfterName | src/tokenize.ts:513-516 | `=` after an unquoted name emits the name as AttrValueNq and then `"="` as a one-character AttrValueEq |
| Steps.TagNameEnds | src/tokenize.ts:460-463 | whitespace after a tag name emits it, lower-cased, as an OpenTag and moves to AfterOpenTag |
| Steps.DoctypeStep | src/tokenize.ts:564-571 | `parseOpeningDoctype` fails exactly when the whole `!doctype` has been read and the character is not whitespace |
| Steps.DoctypeThenSpace | src/tokenize.ts:566-568 | whitespace after the whole `!doctype` emits OpenTag `!doctype` and moves to AfterOpenTag |
| Properties.DispatchIndex | src/tokenize.ts:143-202 | no handler moves `index` |
| Properties.LoopKeeps | src/tokenize.ts:134-204 | a loop run that does not fail reads the whole input and keeps the invariant |
| Properties.DispatchErr | src/tokenize.ts:564-571 | a failing step is `Unexpected` at the current index in OpeningDoctype, nine characters after a `<!doctype` followed by a non-space |
| Properties.LoopErr | src/tokenize.ts:134-204 | a failing loop run stopped in OpeningDoctype after a `<!doctype` followed by a non-space |
| Properties.FinishKeeps | src/tokenize.ts:209-250 | the end-of-input flush emits only sound tokens in order |
| Properties.FinishDoctype | src/tokenize.ts:229-236 | the flush of an OpeningDoctype section, whole or cut short, keeps the token facts |
| Properties.FinishOpeningNormalComment | src/tokenize.ts:237-244 | the flush of an OpeningNormalComment section keeps the token facts |
| Properties.TokenizeSound | src/tokenize.ts:133-253 | every returned token is a section of the input, with the section's text as value (lower-cased for tag names) and its kind's shape; tokens are in input order; no OpenTag comes after `script`/`style` before a CloseTag |
| Properties.TokenizeErr | src/tokenize.ts:664-668 | `tokenize` fails only in OpeningDoctype, nine characters after a `<!doctype` (any case) followed by a non-space |
| Properties.DoctypeFails | src/tokenize.ts:563-571 | an input that starts with `<!doctype` (any case) followed by a non-space makes `tokenize` fail |
| Properties.LoopLiteral | src/tokenize.ts:376-384 | without `<`, the loop stays in Literal and emits nothing |
| Properties.LiteralOnly | src/tokenize.ts:209-219 | an input without `<` yields exactly one Literal spanning it, or nothing when it is empty |
| Coverage.EmitCovered | src/tokenize.ts:272-367 | an emission leaves no gap of its own: its token starts at the section start, and the next section starts at its end, or one past it only over the `>` that ends an OpenTagEnd or CloseTag |
| Coverage.DispatchCovered | src/tokenize.ts:143-202 | every pass of the `switch` keeps the input covered up to the new section start |
| Coverage.LoopCovered | src/tokenize.ts:134-204 | a loop run that does not fail leaves only markup characters outside its tokens, up to the pending section |
| Coverage.FinishCovered | src/tokenize.ts:209-250 | after the end-of-input flush, only markup characters, or the whitespace pending after attributes, lie behind the last token |
| Coverage.TokenizeCovers | src/tokenize.ts:133-253 | every input character that `tokenize` leaves out of its tokens is `<`, `/` or `>`, or whitespace after the last token |
| Scenarios.UpperTagTokens | src/tokenize.ts:446-479 | `<DIV>` gives OpenTag `div` and an empty OpenTagEnd |
| Scenarios.SelfClosingTokens | src/tokenize.ts:537-546 | `<div/>` gives OpenTag `div` and OpenTagEnd `/` |
| Scenarios.QuotedAttrTokens | src/tokenize.ts:481-528 | `<div a='b'>` gives OpenTag, Whitespace, AttrValueNq `a`, AttrValueEq `=`, AttrValueSq `'b'` and an empty OpenTagEnd |
| Scenarios.ScriptBodyTokens | src/tokenize.ts:626-657 | `<script>var x='<div>';</script>` keeps the body as text, as two Literals, then emits CloseTag `script` |
| Scenarios.CommentTokens | src/tokenize.ts:583-624 | `<!-- c -->` gives OpenTag `!--`, Literal ` c ` and OpenTagEnd `--` |
| Scenarios.DoctypeHtmlTokens | src/tokenize.ts:563-581 | `<!DOCTYPE html>` gives OpenTag `!doctype`, Whitespace, AttrValueNq `html` and an empty OpenTagEnd |
| Scenarios.ShortCommentTokens | src/tokenize.ts:434-438 | `<?xml?>` gives an empty OpenTag, Literal `?xml?` and an empty OpenTagEnd |
| Scenarios.DoubleLtTokens | src/tokenize.ts:427-429 | `a<<b` gives Literal `a`, Literal `<`, and OpenTag `b` flushed at the end |
| Scenarios.StyleCutTokens | src/tokenize.ts:245-247 | `<style></` gives OpenTag `style`, an empty OpenTagEnd and an empty CloseTag flushed at the end, although no `style` close tag was read |
| Scenarios.DoctypeBracketFails | src/tokenize.ts:564-571 | `<!doctype>` fails at index 9 in OpeningDoctype |
| Scenarios.DoctypeRunOnFails | src/tokenize.ts:564-571 | `<!doctypex` fails at index 9 in OpeningDoctype |

## Left out

- The message of the `SyntaxError` thrown by `unexpected()` (src/tokenize.ts:664-668) is not modelled. The model records only the index and state in `Unexpected`.
- The `default: unexpected()` branch of the driver `switch` is not modelled. The state type is a closed datatype, so an exhaustive `match` replaces that branch.
- JavaScript's Unicode `toLowerCase`/`toUpperCase` is replaced by ASCII-only casing.
- The code-point tables are not built with `split('').map(charCodeAt)`. `MakeCodePoints` builds them with the same ASCII casing.
- UTF-16 code units are not modelled. The input is a sequence of `char`, indexed by position.
- The module-level globals and the reset by `init('')` after returning are not modelled. Each call works on a fresh `Tokenizer` object.
- The exported `IToken` interface calls the kind `type`. The model calls it `kind`.
