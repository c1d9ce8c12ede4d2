/**
 * The tokenizer as a state machine over values: the scanner's mutable context
 * is a `Scanner` value, each `parse*` handler a function from the context and
 * the current character to the next context, and a run the fold of those
 * handlers over the input followed by the end-of-input flush.  The class in
 * module Lexer is proved to compute exactly these functions.
 */
module Machine {
  import opened Chars

  /** The fifteen states of the machine, in the order of the source enum. */
  datatype State =
    | Literal
    | BeforeOpenTag
    | OpeningTag
    | AfterOpenTag
    | InValueNq
    | InValueSq
    | InValueDq
    | ClosingOpenTag
    | OpeningSpecial
    | OpeningDoctype
    | OpeningNormalComment
    | InNormalComment
    | InShortComment
    | ClosingNormalComment
    | ClosingTag

  datatype TokenKind =
    | Literal
    | OpenTag       // tag name, leading '<' trimmed
    | OpenTagEnd    // the tag's end, '>' trimmed
    | CloseTag      // tag name, '</' and '>' trimmed
    | Whitespace    // the gap between attributes
    | AttrValueEq
    | AttrValueNq
    | AttrValueSq
    | AttrValueDq

  /** A token: the span `[start, end)` of the input, its text and its kind. */
  datatype Token = Token(start: int, end: int, value: string, kind: TokenKind)

  /** The one failure: `unexpected()`, raised at an offset in a state. */
  datatype Error = Unexpected(index: int, state: State)

  datatype Result<T> = Ok(value: T) | Err(error: Error)

  /**
   * The scanner's context: the module globals `state`, `sectionStart`,
   * `index`, `tokens`, `inScript` and `inStyle`.
   */
  datatype Scanner = Scanner(
    state: State,
    sectionStart: int,
    index: nat,
    tokens: seq<Token>,
    inScript: bool,
    inStyle: bool)

  /** The context `init` sets up. */
  function Init(): Scanner {
    Scanner(State.Literal, 0, 0, [], false, false)
  }

  /** `String.prototype.substring`: both ends clamped to the string, swapped when reversed. */
  function Substring(s: string, from: int, to: int): (r: string)
    ensures 0 <= from <= to <= |s| ==> r == s[from..to]
    ensures |r| <= |s|
  {
    var a := if from < 0 then 0 else if from > |s| then |s| else from;
    var b := if to < 0 then 0 else if to > |s| then |s| else to;
    if a <= b then s[a..b] else s[b..a]
  }

  /** Tag names are lower-cased; every other kind keeps its text. */
  function NormalizeValue(kind: TokenKind, text: string): string {
    if kind == TokenKind.OpenTag || kind == TokenKind.CloseTag then Lower(text) else text
  }

  /** Literal and Whitespace tokens are dropped when their span is empty. */
  predicate Suppressed(kind: TokenKind, start: int, end: int) {
    (kind == TokenKind.Literal || kind == TokenKind.Whitespace) && end == start
  }

  /**
   * `emitToken(kind, newState, end)`: the one place where tokens are made.
   * Takes the section `[sectionStart, end)`, lower-cases tag names, sets or
   * clears the raw-text flags, appends the token unless it is an empty Literal
   * or Whitespace, and moves the section start and the state on.
   */
  function Emit(buf: string, s: Scanner, kind: TokenKind, newState: State, end: int): Scanner {
    var value := NormalizeValue(kind, Substring(buf, s.sectionStart, end));
    var inScript :=
      if kind == TokenKind.CloseTag then false
      else if kind == TokenKind.OpenTag && value == "script" then true
      else s.inScript;
    var inStyle :=
      if kind == TokenKind.CloseTag then false
      else if kind == TokenKind.OpenTag && value == "style" then true
      else s.inStyle;
    var tokens :=
      if Suppressed(kind, s.sectionStart, end) then s.tokens
      else s.tokens + [Token(s.sectionStart, end, value, kind)];
    if kind == TokenKind.OpenTagEnd || kind == TokenKind.CloseTag then
      Scanner(State.Literal, end + 1, s.index, tokens, inScript, inStyle)
    else
      Scanner(newState, end, s.index, tokens, inScript, inStyle)
  }

  /** `emitToken(kind)` with both defaults: stay in the current state, end at `index`. */
  function EmitHere(buf: string, s: Scanner, kind: TokenKind): Scanner {
    Emit(buf, s, kind, s.state, s.index)
  }

  function ParseLiteral(buf: string, s: Scanner, c: char): Scanner {
    if c == '<' then Emit(buf, s, TokenKind.Literal, State.BeforeOpenTag, s.index) else s
  }

  function ParseBeforeOpenTag(buf: string, s: Scanner, c: char): Scanner {
    if s.inScript || s.inStyle then
      if c == '/' then s.(state := State.ClosingTag, sectionStart := s.index + 1)
      else s.(state := State.Literal)
    else if IsAsciiLetter(c) then s.(state := State.OpeningTag, sectionStart := s.index)
    else if c == '/' then s.(state := State.ClosingTag, sectionStart := s.index + 1)
    else if c == '<' then EmitHere(buf, s, TokenKind.Literal)
    else if c == '!' then s.(state := State.OpeningSpecial, sectionStart := s.index)
    else if c == '?' then Emit(buf, s.(sectionStart := s.index), TokenKind.OpenTag, State.InShortComment, s.index)
    else s.(state := State.Literal)
  }

  function ParseOpeningTag(buf: string, s: Scanner, c: char): Scanner {
    if IsWhiteSpace(c) then Emit(buf, s, TokenKind.OpenTag, State.AfterOpenTag, s.index)
    else if c == '>' then EmitHere(buf, EmitHere(buf, s, TokenKind.OpenTag), TokenKind.OpenTagEnd)
    else if c == '/' then Emit(buf, s, TokenKind.OpenTag, State.ClosingOpenTag, s.index)
    else s
  }

  function ParseAfterOpenTag(buf: string, s: Scanner, c: char): Scanner {
    if c == '>' then EmitHere(buf, EmitHere(buf, s, TokenKind.Whitespace), TokenKind.OpenTagEnd)
    else if c == '/' then Emit(buf, s, TokenKind.Whitespace, State.ClosingOpenTag, s.index)
    else if c == '=' then
      var s1 := EmitHere(buf, s, TokenKind.Whitespace);
      Emit(buf, s1, TokenKind.AttrValueEq, s1.state, s.index + 1)
    else if c == '\'' then Emit(buf, s, TokenKind.Whitespace, State.InValueSq, s.index)
    else if c == '"' then Emit(buf, s, TokenKind.Whitespace, State.InValueDq, s.index)
    else if !IsWhiteSpace(c) then Emit(buf, s, TokenKind.Whitespace, State.InValueNq, s.index)
    else s
  }

  function ParseInValueNq(buf: string, s: Scanner, c: char): Scanner {
    if c == '>' then EmitHere(buf, EmitHere(buf, s, TokenKind.AttrValueNq), TokenKind.OpenTagEnd)
    else if c == '/' then Emit(buf, s, TokenKind.AttrValueNq, State.ClosingOpenTag, s.index)
    else if c == '=' then
      Emit(buf, EmitHere(buf, s, TokenKind.AttrValueNq), TokenKind.AttrValueEq, State.AfterOpenTag, s.index + 1)
    else if IsWhiteSpace(c) then Emit(buf, s, TokenKind.AttrValueNq, State.AfterOpenTag, s.index)
    else s
  }

  function ParseInValueSq(buf: string, s: Scanner, c: char): Scanner {
    if c == '\'' then Emit(buf, s, TokenKind.AttrValueSq, State.AfterOpenTag, s.index + 1) else s
  }

  function ParseInValueDq(buf: string, s: Scanner, c: char): Scanner {
    if c == '"' then Emit(buf, s, TokenKind.AttrValueDq, State.AfterOpenTag, s.index + 1) else s
  }

  function ParseClosingOpenTag(buf: string, s: Scanner, c: char): Scanner {
    if c == '>' then EmitHere(buf, s, TokenKind.OpenTagEnd)
    else ParseAfterOpenTag(buf, Emit(buf, s, TokenKind.AttrValueNq, State.AfterOpenTag, s.index), c)
  }

  function ParseOpeningSpecial(buf: string, s: Scanner, c: char): Scanner {
    if c == '-' then s.(state := State.OpeningNormalComment)
    else if c == 'd' || c == 'D' then s.(state := State.OpeningDoctype)
    else Emit(buf, s, TokenKind.OpenTag, State.InShortComment, s.index)
  }

  /** The only handler that can fail: a full `!doctype` not followed by whitespace. */
  function ParseOpeningDoctype(buf: string, s: Scanner, c: char): Result<Scanner> {
    var offset := s.index - s.sectionStart;
    if offset == Doctype.length then
      if IsWhiteSpace(c) then Ok(Emit(buf, s, TokenKind.OpenTag, State.AfterOpenTag, s.index))
      else Err(Unexpected(s.index, s.state))
    else if c == '>' then
      var s1 := Emit(buf, s, TokenKind.OpenTag, s.state, s.sectionStart + 1);
      Ok(EmitHere(buf, EmitHere(buf, s1, TokenKind.Literal), TokenKind.OpenTagEnd))
    else if !CodeAt(Doctype.lower, offset, c) && !CodeAt(Doctype.upper, offset, c) then
      Ok(Emit(buf, s, TokenKind.OpenTag, State.InShortComment, s.sectionStart + 1))
    else Ok(s)
  }

  function ParseOpeningNormalComment(buf: string, s: Scanner, c: char): Scanner {
    if c == '-' then Emit(buf, s, TokenKind.OpenTag, State.InNormalComment, s.index + 1)
    else Emit(buf, s, TokenKind.OpenTag, State.InShortComment, s.sectionStart + 1)
  }

  function ParseNormalComment(buf: string, s: Scanner, c: char): Scanner {
    if c == '-' then Emit(buf, s, TokenKind.Literal, State.ClosingNormalComment, s.index) else s
  }

  function ParseShortComment(buf: string, s: Scanner, c: char): Scanner {
    if c == '>' then EmitHere(buf, EmitHere(buf, s, TokenKind.Literal), TokenKind.OpenTagEnd) else s
  }

  function ParseClosingNormalComment(buf: string, s: Scanner, c: char): Scanner {
    var offset := s.index - s.sectionStart;
    if offset == 2 then
      if c == '>' then EmitHere(buf, s, TokenKind.OpenTagEnd)
      else if c == '-' then Emit(buf, s, TokenKind.Literal, s.state, s.sectionStart + 1)
      else s.(state := State.InNormalComment)
    else if c != '-' then s.(state := State.InNormalComment)
    else s
  }

  /**
   * The raw-text branch of `parseClosingTag`, for the keyword `name` (`style`
   * or `script`): match the name ignoring case, allow trailing whitespace,
   * and on anything else give back `</` to the literal text.
   */
  function ParseRawClosingTag(buf: string, s: Scanner, c: char, name: CodePoints): Scanner {
    var offset := s.index - s.sectionStart;
    if c == '<' then
      Emit(buf, s.(sectionStart := s.sectionStart - 2), TokenKind.Literal, State.BeforeOpenTag, s.index)
    else if offset < name.length then
      if !CodeAt(name.lower, offset, c) && !CodeAt(name.upper, offset, c) then
        s.(sectionStart := s.sectionStart - 2, state := State.Literal)
      else s
    else if c == '>' then EmitHere(buf, s, TokenKind.CloseTag)
    else if !IsWhiteSpace(c) then s.(sectionStart := s.sectionStart - 2, state := State.Literal)
    else s
  }

  function ParseClosingTag(buf: string, s: Scanner, c: char): Scanner {
    if s.inStyle then ParseRawClosingTag(buf, s, c, Style)
    else if s.inScript then ParseRawClosingTag(buf, s, c, Script)
    else if c == '>' then EmitHere(buf, s, TokenKind.CloseTag)
    else s
  }

  /** The driver's `switch (state)` for one character. */
  function Dispatch(buf: string, s: Scanner, c: char): Result<Scanner> {
    match s.state
    case Literal => Ok(ParseLiteral(buf, s, c))
    case BeforeOpenTag => Ok(ParseBeforeOpenTag(buf, s, c))
    case OpeningTag => Ok(ParseOpeningTag(buf, s, c))
    case AfterOpenTag => Ok(ParseAfterOpenTag(buf, s, c))
    case InValueNq => Ok(ParseInValueNq(buf, s, c))
    case InValueSq => Ok(ParseInValueSq(buf, s, c))
    case InValueDq => Ok(ParseInValueDq(buf, s, c))
    case ClosingOpenTag => Ok(ParseClosingOpenTag(buf, s, c))
    case OpeningSpecial => Ok(ParseOpeningSpecial(buf, s, c))
    case OpeningDoctype => ParseOpeningDoctype(buf, s, c)
    case OpeningNormalComment => Ok(ParseOpeningNormalComment(buf, s, c))
    case InNormalComment => Ok(ParseNormalComment(buf, s, c))
    case InShortComment => Ok(ParseShortComment(buf, s, c))
    case ClosingNormalComment => Ok(ParseClosingNormalComment(buf, s, c))
    case ClosingTag => Ok(ParseClosingTag(buf, s, c))
  }

  /** `while (index < bufSize) { char = buffer[index]; switch …; index++ }` from context `s`. */
  function Loop(buf: string, s: Scanner): Result<Scanner>
    decreases |buf| - s.index
  {
    if s.index >= |buf| then Ok(s)
    else
      match Dispatch(buf, s, buf[s.index])
      case Err(e) => Err(e)
      case Ok(s1) => Loop(buf, s1.(index := s.index + 1))
  }

  /** The end-of-input `switch (state)` that flushes the pending section. */
  function Finish(buf: string, s: Scanner): Scanner {
    match s.state
    case Literal | BeforeOpenTag | InValueNq | InValueSq | InValueDq | ClosingOpenTag
      | InNormalComment | InShortComment | ClosingNormalComment =>
      EmitHere(buf, s, TokenKind.Literal)
    case OpeningTag => EmitHere(buf, s, TokenKind.OpenTag)
    case AfterOpenTag => s
    case OpeningSpecial => Emit(buf, s, TokenKind.OpenTag, State.InShortComment, s.index)
    case OpeningDoctype =>
      if s.index - s.sectionStart == Doctype.length then EmitHere(buf, s, TokenKind.OpenTag)
      else EmitHere(buf, Emit(buf, s, TokenKind.OpenTag, s.state, s.sectionStart + 1), TokenKind.Literal)
    case OpeningNormalComment =>
      if s.index - s.sectionStart == 2 then EmitHere(buf, s, TokenKind.OpenTag)
      else EmitHere(buf, Emit(buf, s, TokenKind.OpenTag, s.state, s.sectionStart + 1), TokenKind.Literal)
    case ClosingTag => EmitHere(buf, s, TokenKind.CloseTag)
  }

  /** `tokenize(input)`: the token list, or the error `unexpected()` raises. */
  function Tokenize(buf: string): Result<seq<Token>> {
    match Loop(buf, Init())
    case Err(e) => Err(e)
    case Ok(s) => Ok(Finish(buf, s).tokens)
  }
}
