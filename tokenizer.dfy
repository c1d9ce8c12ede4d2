/**
 * The tokenizer as the source writes it: the module globals are the fields of
 * a `Tokenizer` object, each `parse*` handler a method that updates them for
 * the current character, and `tokenize` the loop that feeds the characters in
 * one by one and then flushes the pending section.  Every method is proved to
 * compute the corresponding function of module Machine on the object's
 * `Snapshot()`, so everything proved about those functions holds of it.
 */
module Lexer {
  import opened Chars
  import opened Machine
  import Properties

  class Tokenizer {
    // the globals set up by `init(input)`
    var state: State
    const buffer: string
    const bufSize: nat
    var sectionStart: int
    var index: nat
    var tokens: seq<Token>
    /** The global `char`: the character at `index`, set by the driver. */
    var current: char
    var inScript: bool
    var inStyle: bool
    /**
     * The global `offset`.  Like `current` it is scratch: it is written
     * before it is read at every character (`current` by the driver,
     * `offset` by the handler that uses it), so neither carries anything
     * from one character to the next and `Snapshot()` leaves both out.
     */
    var offset: int

    /** The part of the globals the handlers read and write. */
    function Snapshot(): Scanner
      reads this
    {
      Scanner(state, sectionStart, index, tokens, inScript, inStyle)
    }

    /** `init(input)`. */
    constructor (input: string)
      ensures buffer == input && bufSize == |input|
      ensures Snapshot() == Machine.Init() && offset == 0
    {
      state := State.Literal;
      buffer := input;
      bufSize := |input|;
      sectionStart := 0;
      index := 0;
      tokens := [];
      inScript := false;
      inStyle := false;
      offset := 0;
    }

    /** `isWhiteSpace()`, which tests for the tab twice. */
    function IsWhiteSpace(): (r: bool)
      reads this
      ensures r <==> Chars.IsWhiteSpace(current)
    {
      current == ' ' || current == '\n' || current == '\t' || current == '\t' ||
      current == '\r' || current == '\U{000C}'
    }

    /** `emitToken(kind, newState, end)`, with the defaults `state` and `index` written out by the callers. */
    method EmitToken(kind: TokenKind, newState: State, end: int)
      modifies this
      ensures Snapshot() == Machine.Emit(buffer, old(Snapshot()), kind, newState, end)
      ensures current == old(current)
    {
      var value := Substring(buffer, sectionStart, end);
      if kind == TokenKind.OpenTag || kind == TokenKind.CloseTag {
        value := Lower(value);
      }
      if kind == TokenKind.OpenTag {
        if value == "script" {
          inScript := true;
        } else if value == "style" {
          inStyle := true;
        }
      }
      if kind == TokenKind.CloseTag {
        inScript, inStyle := false, false;
      }
      if !((kind == TokenKind.Literal || kind == TokenKind.Whitespace) && end == sectionStart) {
        tokens := tokens + [Token(sectionStart, end, value, kind)];
      }
      if kind == TokenKind.OpenTagEnd || kind == TokenKind.CloseTag {
        sectionStart := end + 1;
        state := State.Literal;
      } else {
        sectionStart := end;
        state := newState;
      }
    }

    method ParseLiteral()
      modifies this
      ensures Snapshot() == Machine.ParseLiteral(buffer, old(Snapshot()), old(current))
    {
      if current == '<' {
        EmitToken(TokenKind.Literal, State.BeforeOpenTag, index);
      }
    }

    method ParseBeforeOpenTag()
      modifies this
      ensures Snapshot() == Machine.ParseBeforeOpenTag(buffer, old(Snapshot()), old(current))
    {
      if inScript || inStyle {
        if current == '/' {
          state := State.ClosingTag;
          sectionStart := index + 1;
        } else {
          state := State.Literal;
        }
        return;
      }
      if ('a' <= current <= 'z') || ('A' <= current <= 'Z') {
        state := State.OpeningTag;
        sectionStart := index;
      } else if current == '/' {
        state := State.ClosingTag;
        sectionStart := index + 1;
      } else if current == '<' {
        EmitToken(TokenKind.Literal, state, index);
      } else if current == '!' {
        state := State.OpeningSpecial;
        sectionStart := index;
      } else if current == '?' {
        sectionStart := index;
        EmitToken(TokenKind.OpenTag, State.InShortComment, index);
      } else {
        state := State.Literal;
      }
    }

    method ParseOpeningTag()
      modifies this
      ensures Snapshot() == Machine.ParseOpeningTag(buffer, old(Snapshot()), old(current))
    {
      if IsWhiteSpace() {
        EmitToken(TokenKind.OpenTag, State.AfterOpenTag, index);
      } else if current == '>' {
        EmitToken(TokenKind.OpenTag, state, index);
        EmitToken(TokenKind.OpenTagEnd, state, index);
      } else if current == '/' {
        EmitToken(TokenKind.OpenTag, State.ClosingOpenTag, index);
      }
    }

    method ParseAfterOpenTag()
      modifies this
      ensures Snapshot() == Machine.ParseAfterOpenTag(buffer, old(Snapshot()), old(current))
      ensures current == old(current)
    {
      if current == '>' {
        EmitToken(TokenKind.Whitespace, state, index);
        EmitToken(TokenKind.OpenTagEnd, state, index);
      } else if current == '/' {
        EmitToken(TokenKind.Whitespace, State.ClosingOpenTag, index);
      } else if current == '=' {
        EmitToken(TokenKind.Whitespace, state, index);
        EmitToken(TokenKind.AttrValueEq, state, index + 1);
      } else if current == '\'' {
        EmitToken(TokenKind.Whitespace, State.InValueSq, index);
      } else if current == '"' {
        EmitToken(TokenKind.Whitespace, State.InValueDq, index);
      } else if !IsWhiteSpace() {
        EmitToken(TokenKind.Whitespace, State.InValueNq, index);
      }
    }

    method ParseInValueNq()
      modifies this
      ensures Snapshot() == Machine.ParseInValueNq(buffer, old(Snapshot()), old(current))
    {
      if current == '>' {
        EmitToken(TokenKind.AttrValueNq, state, index);
        EmitToken(TokenKind.OpenTagEnd, state, index);
      } else if current == '/' {
        EmitToken(TokenKind.AttrValueNq, State.ClosingOpenTag, index);
      } else if current == '=' {
        EmitToken(TokenKind.AttrValueNq, state, index);
        EmitToken(TokenKind.AttrValueEq, State.AfterOpenTag, index + 1);
      } else if IsWhiteSpace() {
        EmitToken(TokenKind.AttrValueNq, State.AfterOpenTag, index);
      }
    }

    method ParseInValueSq()
      modifies this
      ensures Snapshot() == Machine.ParseInValueSq(buffer, old(Snapshot()), old(current))
    {
      if current == '\'' {
        EmitToken(TokenKind.AttrValueSq, State.AfterOpenTag, index + 1);
      }
    }

    method ParseInValueDq()
      modifies this
      ensures Snapshot() == Machine.ParseInValueDq(buffer, old(Snapshot()), old(current))
    {
      if current == '"' {
        EmitToken(TokenKind.AttrValueDq, State.AfterOpenTag, index + 1);
      }
    }

    method ParseClosingOpenTag()
      modifies this
      ensures Snapshot() == Machine.ParseClosingOpenTag(buffer, old(Snapshot()), old(current))
    {
      if current == '>' {
        EmitToken(TokenKind.OpenTagEnd, state, index);
      } else {
        EmitToken(TokenKind.AttrValueNq, State.AfterOpenTag, index);
        ParseAfterOpenTag();
      }
    }

    method ParseOpeningSpecial()
      modifies this
      ensures Snapshot() == Machine.ParseOpeningSpecial(buffer, old(Snapshot()), old(current))
    {
      if current == '-' {
        state := State.OpeningNormalComment;
      } else if current == 'd' || current == 'D' {
        state := State.OpeningDoctype;
      } else {
        EmitToken(TokenKind.OpenTag, State.InShortComment, index);
      }
    }

    /** `parseOpeningDoctype()`; `ok` is false where the source calls `unexpected()`, and then nothing else has changed. */
    method ParseOpeningDoctype() returns (ok: bool)
      modifies this
      ensures ok ==> Machine.ParseOpeningDoctype(buffer, old(Snapshot()), old(current)) == Ok(Snapshot())
      ensures !ok ==> Snapshot() == old(Snapshot())
      ensures !ok ==> Machine.ParseOpeningDoctype(buffer, old(Snapshot()), old(current)) == Err(Unexpected(index, state))
    {
      ok := true;
      offset := index - sectionStart;
      if offset == Doctype.length {
        if IsWhiteSpace() {
          EmitToken(TokenKind.OpenTag, State.AfterOpenTag, index);
        } else {
          ok := false;
        }
      } else if current == '>' {
        EmitToken(TokenKind.OpenTag, state, sectionStart + 1);
        EmitToken(TokenKind.Literal, state, index);
        EmitToken(TokenKind.OpenTagEnd, state, index);
      } else if !CodeAt(Doctype.lower, offset, current) && !CodeAt(Doctype.upper, offset, current) {
        EmitToken(TokenKind.OpenTag, State.InShortComment, sectionStart + 1);
      }
    }

    method ParseOpeningNormalComment()
      modifies this
      ensures Snapshot() == Machine.ParseOpeningNormalComment(buffer, old(Snapshot()), old(current))
    {
      if current == '-' {
        EmitToken(TokenKind.OpenTag, State.InNormalComment, index + 1);
      } else {
        EmitToken(TokenKind.OpenTag, State.InShortComment, sectionStart + 1);
      }
    }

    method ParseNormalComment()
      modifies this
      ensures Snapshot() == Machine.ParseNormalComment(buffer, old(Snapshot()), old(current))
    {
      if current == '-' {
        EmitToken(TokenKind.Literal, State.ClosingNormalComment, index);
      }
    }

    method ParseShortComment()
      modifies this
      ensures Snapshot() == Machine.ParseShortComment(buffer, old(Snapshot()), old(current))
    {
      if current == '>' {
        EmitToken(TokenKind.Literal, state, index);
        EmitToken(TokenKind.OpenTagEnd, state, index);
      }
    }

    method ParseClosingNormalComment()
      modifies this
      ensures Snapshot() == Machine.ParseClosingNormalComment(buffer, old(Snapshot()), old(current))
    {
      offset := index - sectionStart;
      if offset == 2 {
        if current == '>' {
          EmitToken(TokenKind.OpenTagEnd, state, index);
        } else if current == '-' {
          EmitToken(TokenKind.Literal, state, sectionStart + 1);
        } else {
          state := State.InNormalComment;
        }
      } else if current != '-' {
        state := State.InNormalComment;
      }
    }

    /** The `inStyle` and `inScript` arms of `parseClosingTag()`, which differ only in the name compared against. */
    method ParseRawClosingTag(name: CodePoints)
      modifies this
      ensures Snapshot() == Machine.ParseRawClosingTag(buffer, old(Snapshot()), old(current), name)
    {
      offset := index - sectionStart;
      if current == '<' {
        sectionStart := sectionStart - 2;
        EmitToken(TokenKind.Literal, State.BeforeOpenTag, index);
      } else if offset < name.length {
        if !CodeAt(name.lower, offset, current) && !CodeAt(name.upper, offset, current) {
          sectionStart := sectionStart - 2;
          state := State.Literal;
        }
      } else if current == '>' {
        EmitToken(TokenKind.CloseTag, state, index);
      } else if !IsWhiteSpace() {
        sectionStart := sectionStart - 2;
        state := State.Literal;
      }
    }

    method ParseClosingTag()
      modifies this
      ensures Snapshot() == Machine.ParseClosingTag(buffer, old(Snapshot()), old(current))
    {
      if inStyle {
        ParseRawClosingTag(Style);
      } else if inScript {
        ParseRawClosingTag(Script);
      } else if current == '>' {
        EmitToken(TokenKind.CloseTag, state, index);
      }
    }

    /** The body of the driver's `switch (state)` for the character in `current`. */
    method Step() returns (ok: bool)
      modifies this
      ensures ok ==> Dispatch(buffer, old(Snapshot()), old(current)) == Ok(Snapshot())
      ensures !ok ==> Snapshot() == old(Snapshot())
      ensures !ok ==> Dispatch(buffer, old(Snapshot()), old(current)) == Err(Unexpected(index, state))
    {
      ok := true;
      match state
      case Literal => ParseLiteral();
      case BeforeOpenTag => ParseBeforeOpenTag();
      case OpeningTag => ParseOpeningTag();
      case AfterOpenTag => ParseAfterOpenTag();
      case InValueNq => ParseInValueNq();
      case InValueSq => ParseInValueSq();
      case InValueDq => ParseInValueDq();
      case ClosingOpenTag => ParseClosingOpenTag();
      case OpeningSpecial => ParseOpeningSpecial();
      case OpeningDoctype => ok := ParseOpeningDoctype();
      case OpeningNormalComment => ParseOpeningNormalComment();
      case InNormalComment => ParseNormalComment();
      case InShortComment => ParseShortComment();
      case ClosingNormalComment => ParseClosingNormalComment();
      case ClosingTag => ParseClosingTag();
    }

    /** The end-of-input `switch (state)`. */
    method Finish()
      modifies this
      ensures Snapshot() == Machine.Finish(buffer, old(Snapshot()))
    {
      match state
      case Literal | BeforeOpenTag | InValueNq | InValueSq | InValueDq | ClosingOpenTag
        | InNormalComment | InShortComment | ClosingNormalComment =>
        EmitToken(TokenKind.Literal, state, index);
      case OpeningTag =>
        EmitToken(TokenKind.OpenTag, state, index);
      case AfterOpenTag =>
      case OpeningSpecial =>
        EmitToken(TokenKind.OpenTag, State.InShortComment, index);
      case OpeningDoctype =>
        if index - sectionStart == Doctype.length {
          EmitToken(TokenKind.OpenTag, state, index);
        } else {
          EmitToken(TokenKind.OpenTag, state, sectionStart + 1);
          EmitToken(TokenKind.Literal, state, index);
        }
      case OpeningNormalComment =>
        if index - sectionStart == 2 {
          EmitToken(TokenKind.OpenTag, state, index);
        } else {
          EmitToken(TokenKind.OpenTag, state, sectionStart + 1);
          EmitToken(TokenKind.Literal, state, index);
        }
      case ClosingTag =>
        EmitToken(TokenKind.CloseTag, state, index);
    }

    /** The driver loop and the flush of `tokenize`, from the state `init` leaves. */
    method Run() returns (r: Result<seq<Token>>)
      requires Snapshot() == Machine.Init() && bufSize == |buffer|
      modifies this
      ensures r == Machine.Tokenize(buffer)
    {
      while index < bufSize
        invariant bufSize == |buffer| && index <= bufSize
        invariant Loop(buffer, Snapshot()) == Loop(buffer, Machine.Init())
        decreases bufSize - index
      {
        ghost var before := Snapshot();
        current := buffer[index];
        var ok := Step();
        if !ok {
          return Err(Unexpected(index, state));
        }
        Properties.DispatchIndex(buffer, before, buffer[before.index]);
        index := index + 1;
      }
      Finish();
      r := Ok(tokens);
    }
  }

  /** `tokenize(input)`: the tokens of `input`, or the error `unexpected()` throws. */
  method Tokenize(input: string) returns (r: Result<seq<Token>>)
    ensures r == Machine.Tokenize(input)
  {
    var t := new Tokenizer(input);
    r := t.Run();
  }
}
