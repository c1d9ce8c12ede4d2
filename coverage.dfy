/**
 * Nothing of the input is lost.  Between consecutive tokens, and before the
 * first, lie only the markup characters `<`, `/` and `>` the machine consumes;
 * after the last token lie markup characters and, when the input ends inside a
 * tag's attribute list, the whitespace pending there.  So every input
 * character outside the tokens is `<`, `/` or `>`, or whitespace after the
 * last token; the tokens themselves may still hold such characters (a
 * Literal inside script, say), and tag names are lower-cased.
 */
module Coverage {
  import opened Chars
  import opened Machine
  import opened Invariants
  import opened Preservation
  import opened Properties

  /** The characters the machine consumes without putting them in any token. */
  predicate Markup(c: char) {
    c == '<' || c == '/' || c == '>'
  }

  /** Every character of `buf` in `[lo, hi)` is a markup character. */
  ghost predicate MarkupOnly(buf: string, lo: int, hi: int) {
    forall k :: lo <= k < hi && 0 <= k < |buf| ==> Markup(buf[k])
  }

  /** Where the last token ends, or 0 before the first token. */
  function LastEnd(ts: seq<Token>): int {
    if ts == [] then 0 else ts[|ts| - 1].end
  }

  /** Each token starts after only markup since the end of the one before it. */
  ghost predicate Joined(buf: string, ts: seq<Token>)
    decreases |ts|
  {
    ts == [] ||
    (Joined(buf, ts[..|ts| - 1]) && MarkupOnly(buf, LastEnd(ts[..|ts| - 1]), ts[|ts| - 1].start))
  }

  /** The scanner's tokens are joined, and only markup lies between the last one and the pending section. */
  ghost predicate CoveredAt(buf: string, s: Scanner) {
    Joined(buf, s.tokens) && MarkupOnly(buf, LastEnd(s.tokens), s.sectionStart)
  }

  /** The gaps of a token list, gap by gap: before the first token and between neighbours, only markup. */
  ghost predicate Gaps(buf: string, ts: seq<Token>) {
    (|ts| > 0 ==> MarkupOnly(buf, 0, ts[0].start)) &&
    forall i :: 0 < i < |ts| ==> MarkupOnly(buf, ts[i - 1].end, ts[i].start)
  }

  /** After the last token: markup characters and whitespace only. */
  ghost predicate Tail(buf: string, ts: seq<Token>) {
    forall k :: 0 <= k < |buf| && LastEnd(ts) <= k ==> Markup(buf[k]) || IsWhiteSpace(buf[k])
  }

  lemma {:induction false} JoinedGaps(buf: string, ts: seq<Token>)
    requires Joined(buf, ts)
    ensures Gaps(buf, ts)
    decreases |ts|
  {
    if ts != [] {
      var n := |ts| - 1;
      JoinedGaps(buf, ts[..n]);
      forall i | 0 < i < |ts| ensures MarkupOnly(buf, ts[i - 1].end, ts[i].start) {
        if i < n { assert ts[i] == ts[..n][i] && ts[i - 1] == ts[..n][i - 1]; }
        else { assert ts[i - 1] == ts[..n][n - 1]; }
      }
      if n > 0 { assert ts[0] == ts[..n][0]; }
    }
  }

  /**
   * An emission leaves no gap of its own: its token starts at the section
   * start, and the next section starts at its end, or one past it when that
   * character is the `>` that ends a tag.
   */
  lemma EmitCovered(buf: string, s: Scanner, kind: TokenKind, newState: State, end: int)
    requires CoveredAt(buf, s)
    requires (kind == TokenKind.OpenTagEnd || kind == TokenKind.CloseTag) && 0 <= end < |buf| ==> buf[end] == '>'
    ensures CoveredAt(buf, Emit(buf, s, kind, newState, end))
  {
    var r := Emit(buf, s, kind, newState, end);
    if !Suppressed(kind, s.sectionStart, end) {
      assert r.tokens[..|r.tokens| - 1] == s.tokens;
    }
  }

  /** What a step needs besides the covering facts: the character in range and, before a tag, the `<` the section holds. */
  ghost predicate Ready(buf: string, s: Scanner) {
    0 <= s.sectionStart <= s.index < |buf| && CoveredAt(buf, s) &&
    (s.state == State.BeforeOpenTag ==> s.sectionStart + 1 == s.index && buf[s.sectionStart] == '<')
  }

  lemma LiteralCovered(buf: string, s: Scanner)
    requires Ready(buf, s)
    ensures CoveredAt(buf, ParseLiteral(buf, s, buf[s.index]))
  {
    EmitCovered(buf, s, TokenKind.Literal, State.BeforeOpenTag, s.index);
  }

  lemma BeforeOpenTagCovered(buf: string, s: Scanner)
    requires Ready(buf, s) && s.state == State.BeforeOpenTag
    ensures CoveredAt(buf, ParseBeforeOpenTag(buf, s, buf[s.index]))
  {
    var c := buf[s.index];
    if !(s.inScript || s.inStyle) && c == '<' {
      EmitCovered(buf, s, TokenKind.Literal, s.state, s.index);
    } else if !(s.inScript || s.inStyle) && !IsAsciiLetter(c) && c == '?' {
      EmitCovered(buf, s.(sectionStart := s.index), TokenKind.OpenTag, State.InShortComment, s.index);
    }
  }

  lemma OpeningTagCovered(buf: string, s: Scanner)
    requires Ready(buf, s)
    ensures CoveredAt(buf, ParseOpeningTag(buf, s, buf[s.index]))
  {
    var c := buf[s.index];
    if IsWhiteSpace(c) {
      EmitCovered(buf, s, TokenKind.OpenTag, State.AfterOpenTag, s.index);
    } else if c == '>' {
      EmitCovered(buf, s, TokenKind.OpenTag, s.state, s.index);
      var s1 := EmitHere(buf, s, TokenKind.OpenTag);
      EmitCovered(buf, s1, TokenKind.OpenTagEnd, s1.state, s1.index);
    } else if c == '/' {
      EmitCovered(buf, s, TokenKind.OpenTag, State.ClosingOpenTag, s.index);
    }
  }

  lemma AfterOpenTagCovered(buf: string, s: Scanner)
    requires Ready(buf, s)
    ensures CoveredAt(buf, ParseAfterOpenTag(buf, s, buf[s.index]))
  {
    var c := buf[s.index];
    var s1 := EmitHere(buf, s, TokenKind.Whitespace);
    EmitCovered(buf, s, TokenKind.Whitespace, s.state, s.index);
    if c == '>' {
      EmitCovered(buf, s1, TokenKind.OpenTagEnd, s1.state, s1.index);
    } else if c == '/' {
      EmitCovered(buf, s, TokenKind.Whitespace, State.ClosingOpenTag, s.index);
    } else if c == '=' {
      EmitCovered(buf, s1, TokenKind.AttrValueEq, s1.state, s.index + 1);
    } else if c == '\'' {
      EmitCovered(buf, s, TokenKind.Whitespace, State.InValueSq, s.index);
    } else if c == '"' {
      EmitCovered(buf, s, TokenKind.Whitespace, State.InValueDq, s.index);
    } else if !IsWhiteSpace(c) {
      EmitCovered(buf, s, TokenKind.Whitespace, State.InValueNq, s.index);
    }
  }

  lemma InValueNqCovered(buf: string, s: Scanner)
    requires Ready(buf, s)
    ensures CoveredAt(buf, ParseInValueNq(buf, s, buf[s.index]))
  {
    var c := buf[s.index];
    var s1 := EmitHere(buf, s, TokenKind.AttrValueNq);
    EmitCovered(buf, s, TokenKind.AttrValueNq, s.state, s.index);
    if c == '>' {
      EmitCovered(buf, s1, TokenKind.OpenTagEnd, s1.state, s1.index);
    } else if c == '/' {
      EmitCovered(buf, s, TokenKind.AttrValueNq, State.ClosingOpenTag, s.index);
    } else if c == '=' {
      EmitCovered(buf, s1, TokenKind.AttrValueEq, State.AfterOpenTag, s.index + 1);
    } else if IsWhiteSpace(c) {
      EmitCovered(buf, s, TokenKind.AttrValueNq, State.AfterOpenTag, s.index);
    }
  }

  lemma QuotedCovered(buf: string, s: Scanner)
    requires Ready(buf, s)
    ensures CoveredAt(buf, ParseInValueSq(buf, s, buf[s.index]))
    ensures CoveredAt(buf, ParseInValueDq(buf, s, buf[s.index]))
  {
    EmitCovered(buf, s, TokenKind.AttrValueSq, State.AfterOpenTag, s.index + 1);
    EmitCovered(buf, s, TokenKind.AttrValueDq, State.AfterOpenTag, s.index + 1);
  }

  lemma ClosingOpenTagCovered(buf: string, s: Scanner)
    requires Ready(buf, s)
    ensures CoveredAt(buf, ParseClosingOpenTag(buf, s, buf[s.index]))
  {
    var c := buf[s.index];
    if c == '>' {
      EmitCovered(buf, s, TokenKind.OpenTagEnd, s.state, s.index);
    } else {
      EmitCovered(buf, s, TokenKind.AttrValueNq, State.AfterOpenTag, s.index);
      var s1 := Emit(buf, s, TokenKind.AttrValueNq, State.AfterOpenTag, s.index);
      AfterOpenTagCovered(buf, s1);
    }
  }

  lemma OpeningSpecialCovered(buf: string, s: Scanner)
    requires Ready(buf, s)
    ensures CoveredAt(buf, ParseOpeningSpecial(buf, s, buf[s.index]))
  {
    EmitCovered(buf, s, TokenKind.OpenTag, State.InShortComment, s.index);
  }

  lemma OpeningNormalCommentCovered(buf: string, s: Scanner)
    requires Ready(buf, s)
    ensures CoveredAt(buf, ParseOpeningNormalComment(buf, s, buf[s.index]))
  {
    if buf[s.index] == '-' {
      EmitCovered(buf, s, TokenKind.OpenTag, State.InNormalComment, s.index + 1);
    } else {
      EmitCovered(buf, s, TokenKind.OpenTag, State.InShortComment, s.sectionStart + 1);
    }
  }

  lemma NormalCommentCovered(buf: string, s: Scanner)
    requires Ready(buf, s)
    ensures CoveredAt(buf, ParseNormalComment(buf, s, buf[s.index]))
  {
    EmitCovered(buf, s, TokenKind.Literal, State.ClosingNormalComment, s.index);
  }

  lemma ShortCommentCovered(buf: string, s: Scanner)
    requires Ready(buf, s)
    ensures CoveredAt(buf, ParseShortComment(buf, s, buf[s.index]))
  {
    if buf[s.index] == '>' {
      EmitCovered(buf, s, TokenKind.Literal, s.state, s.index);
      var s1 := EmitHere(buf, s, TokenKind.Literal);
      EmitCovered(buf, s1, TokenKind.OpenTagEnd, s1.state, s1.index);
    }
  }

  lemma ClosingNormalCommentCovered(buf: string, s: Scanner)
    requires Ready(buf, s)
    ensures CoveredAt(buf, ParseClosingNormalComment(buf, s, buf[s.index]))
  {
    var c := buf[s.index];
    if s.index - s.sectionStart == 2 {
      if c == '>' {
        EmitCovered(buf, s, TokenKind.OpenTagEnd, s.state, s.index);
      } else if c == '-' {
        EmitCovered(buf, s, TokenKind.Literal, s.state, s.sectionStart + 1);
      }
    }
  }

  /** `<!DOCT>`: the `!` as an OpenTag, the rest as a Literal, and the `>` ending the tag. */
  lemma DoctypeGtCovered(buf: string, s: Scanner)
    requires Ready(buf, s) && buf[s.index] == '>'
    ensures CoveredAt(buf, EmitHere(buf, EmitHere(buf, Emit(buf, s, TokenKind.OpenTag, s.state, s.sectionStart + 1), TokenKind.Literal), TokenKind.OpenTagEnd))
  {
    var s1 := Emit(buf, s, TokenKind.OpenTag, s.state, s.sectionStart + 1);
    EmitCovered(buf, s, TokenKind.OpenTag, s.state, s.sectionStart + 1);
    EmitCovered(buf, s1, TokenKind.Literal, s1.state, s1.index);
    var s2 := EmitHere(buf, s1, TokenKind.Literal);
    EmitCovered(buf, s2, TokenKind.OpenTagEnd, s2.state, s2.index);
  }

  lemma OpeningDoctypeCovered(buf: string, s: Scanner)
    requires Ready(buf, s)
    ensures ParseOpeningDoctype(buf, s, buf[s.index]).Ok? ==>
      CoveredAt(buf, ParseOpeningDoctype(buf, s, buf[s.index]).value)
  {
    var c, offset := buf[s.index], s.index - s.sectionStart;
    if offset == Doctype.length {
      if IsWhiteSpace(c) {
        EmitCovered(buf, s, TokenKind.OpenTag, State.AfterOpenTag, s.index);
        assert ParseOpeningDoctype(buf, s, c) == Ok(Emit(buf, s, TokenKind.OpenTag, State.AfterOpenTag, s.index));
      }
    } else if c == '>' {
      DoctypeGtCovered(buf, s);
      assert ParseOpeningDoctype(buf, s, c) ==
        Ok(EmitHere(buf, EmitHere(buf, Emit(buf, s, TokenKind.OpenTag, s.state, s.sectionStart + 1), TokenKind.Literal), TokenKind.OpenTagEnd));
    } else if !CodeAt(Doctype.lower, offset, c) && !CodeAt(Doctype.upper, offset, c) {
      EmitCovered(buf, s, TokenKind.OpenTag, State.InShortComment, s.sectionStart + 1);
      assert ParseOpeningDoctype(buf, s, c) == Ok(Emit(buf, s, TokenKind.OpenTag, State.InShortComment, s.sectionStart + 1));
    } else {
      assert ParseOpeningDoctype(buf, s, c) == Ok(s);
    }
  }

  lemma ClosingTagCovered(buf: string, s: Scanner)
    requires Ready(buf, s)
    ensures CoveredAt(buf, ParseClosingTag(buf, s, buf[s.index]))
  {
    var c := buf[s.index];
    if c == '>' {
      EmitCovered(buf, s, TokenKind.CloseTag, s.state, s.index);
    } else if c == '<' {
      var back := s.(sectionStart := s.sectionStart - 2);
      EmitCovered(buf, back, TokenKind.Literal, State.BeforeOpenTag, s.index);
    }
  }

  /** One pass of the driver's `switch` keeps the covering facts. */
  lemma DispatchCovered(buf: string, s: Scanner)
    requires Ready(buf, s)
    ensures Dispatch(buf, s, buf[s.index]).Ok? ==> CoveredAt(buf, Dispatch(buf, s, buf[s.index]).value)
  {
    match s.state
    case Literal => LiteralCovered(buf, s);
    case BeforeOpenTag => BeforeOpenTagCovered(buf, s);
    case OpeningTag => OpeningTagCovered(buf, s);
    case AfterOpenTag => AfterOpenTagCovered(buf, s);
    case InValueNq => InValueNqCovered(buf, s);
    case InValueSq => QuotedCovered(buf, s);
    case InValueDq => QuotedCovered(buf, s);
    case ClosingOpenTag => ClosingOpenTagCovered(buf, s);
    case OpeningSpecial => OpeningSpecialCovered(buf, s);
    case OpeningDoctype => OpeningDoctypeCovered(buf, s);
    case OpeningNormalComment => OpeningNormalCommentCovered(buf, s);
    case InNormalComment => NormalCommentCovered(buf, s);
    case InShortComment => ShortCommentCovered(buf, s);
    case ClosingNormalComment => ClosingNormalCommentCovered(buf, s);
    case ClosingTag => ClosingTagCovered(buf, s);
  }

  /** A loop run that does not fail keeps the covering facts. */
  lemma {:induction false} LoopCovered(buf: string, s: Scanner)
    requires Inv(buf, s) && CoveredAt(buf, s)
    ensures Loop(buf, s).Ok? ==> CoveredAt(buf, Loop(buf, s).value)
    decreases |buf| - s.index
  {
    if s.index < |buf| {
      DispatchStep(buf, s);
      DispatchIndex(buf, s, buf[s.index]);
      DispatchCovered(buf, s);
      match Dispatch(buf, s, buf[s.index])
      case Err(_) =>
      case Ok(s1) =>
        assert Advance(s1) == s1.(index := s.index + 1);
        LoopCovered(buf, s1.(index := s.index + 1));
    }
  }

  /** Once the section start has passed the end of the input, everything after the last token is markup. */
  lemma FlushedCovered(buf: string, r: Scanner)
    requires CoveredAt(buf, r) && r.sectionStart >= |buf|
    ensures Joined(buf, r.tokens) && Tail(buf, r.tokens)
  {
  }

  /** The end-of-input flush of a section cut short after `<!d…` or `<!-`: an OpenTag `!` and the rest as a Literal. */
  lemma SplitFlushCovered(buf: string, s: Scanner)
    requires CoveredAt(buf, s) && s.index == |buf|
    ensures var r := EmitHere(buf, Emit(buf, s, TokenKind.OpenTag, s.state, s.sectionStart + 1), TokenKind.Literal);
      Joined(buf, r.tokens) && Tail(buf, r.tokens)
  {
    var s1 := Emit(buf, s, TokenKind.OpenTag, s.state, s.sectionStart + 1);
    EmitCovered(buf, s, TokenKind.OpenTag, s.state, s.sectionStart + 1);
    EmitCovered(buf, s1, TokenKind.Literal, s1.state, s1.index);
    FlushedCovered(buf, EmitHere(buf, s1, TokenKind.Literal));
  }

  /** The end-of-input flush of the pending section as one token of kind `kind`. */
  lemma OneFlushCovered(buf: string, s: Scanner, kind: TokenKind, newState: State)
    requires CoveredAt(buf, s) && s.index == |buf|
    ensures Joined(buf, Emit(buf, s, kind, newState, s.index).tokens) && Tail(buf, Emit(buf, s, kind, newState, s.index).tokens)
  {
    EmitCovered(buf, s, kind, newState, s.index);
    FlushedCovered(buf, Emit(buf, s, kind, newState, s.index));
  }

  /** At end of input after attributes nothing is flushed: the pending whitespace stays behind the last token. */
  lemma FinishAfterOpenTagCovered(buf: string, s: Scanner)
    requires CoveredAt(buf, s) && s.index == |buf| && s.state == State.AfterOpenTag
    requires 0 <= s.sectionStart <= s.index && forall k :: s.sectionStart <= k < s.index ==> IsWhiteSpace(buf[k])
    ensures Joined(buf, Finish(buf, s).tokens) && Tail(buf, Finish(buf, s).tokens)
  {
    assert Finish(buf, s) == s;
  }

  /** The end-of-input flush of a section cut short after `<!` or `<!-`. */
  lemma FinishSpecialCovered(buf: string, s: Scanner)
    requires CoveredAt(buf, s) && s.index == |buf|
    requires s.state == State.OpeningDoctype || s.state == State.OpeningNormalComment
    ensures Joined(buf, Finish(buf, s).tokens) && Tail(buf, Finish(buf, s).tokens)
  {
    var whole := if s.state == State.OpeningDoctype then Doctype.length else 2;
    if s.index - s.sectionStart == whole {
      OneFlushCovered(buf, s, TokenKind.OpenTag, s.state);
      FinishWhole(buf, s);
    } else {
      SplitFlushCovered(buf, s);
      FinishSplit(buf, s);
    }
  }

  /** `finish` on a complete `<!doctype` or `<!--` opener flushes it as one OpenTag. */
  lemma FinishWhole(buf: string, s: Scanner)
    requires s.state == State.OpeningDoctype || s.state == State.OpeningNormalComment
    requires s.index - s.sectionStart == if s.state == State.OpeningDoctype then Doctype.length else 2
    ensures Finish(buf, s) == EmitHere(buf, s, TokenKind.OpenTag)
  {
  }

  /** `finish` on a cut-short opener splits it into `!` and a Literal. */
  lemma FinishSplit(buf: string, s: Scanner)
    requires s.state == State.OpeningDoctype || s.state == State.OpeningNormalComment
    requires s.index - s.sectionStart != if s.state == State.OpeningDoctype then Doctype.length else 2
    ensures Finish(buf, s) == EmitHere(buf, Emit(buf, s, TokenKind.OpenTag, s.state, s.sectionStart + 1), TokenKind.Literal)
  {
    if s.state == State.OpeningDoctype {
      assert s.index - s.sectionStart != Doctype.length;
    } else {
      assert s.index - s.sectionStart != 2;
    }
  }

  /** The end-of-input flush of any other section as one token. */
  lemma FinishOneCovered(buf: string, s: Scanner)
    requires CoveredAt(buf, s) && s.index == |buf|
    requires s.state !in {State.AfterOpenTag, State.OpeningDoctype, State.OpeningNormalComment}
    ensures Joined(buf, Finish(buf, s).tokens) && Tail(buf, Finish(buf, s).tokens)
  {
    var next := if s.state == State.OpeningSpecial then State.InShortComment else s.state;
    OneFlushCovered(buf, s, FlushKind(s.state), next);
    FinishOne(buf, s);
  }

  /** The kind of the one token `finish` flushes from a section in `state`. */
  function FlushKind(state: State): TokenKind {
    if state == State.OpeningTag || state == State.OpeningSpecial then TokenKind.OpenTag
    else if state == State.ClosingTag then TokenKind.CloseTag
    else TokenKind.Literal
  }

  /** `finish` on any other section flushes it as one token of its kind. */
  lemma FinishOne(buf: string, s: Scanner)
    requires s.state !in {State.AfterOpenTag, State.OpeningDoctype, State.OpeningNormalComment}
    ensures Finish(buf, s) == Emit(buf, s, FlushKind(s.state),
      if s.state == State.OpeningSpecial then State.InShortComment else s.state, s.index)
  {
  }

  /** The end-of-input flush leaves only markup, or the whitespace pending after attributes, behind the last token. */
  lemma FinishCovered(buf: string, s: Scanner)
    requires CoveredAt(buf, s) && s.index == |buf|
    requires s.state == State.AfterOpenTag ==>
      0 <= s.sectionStart <= s.index && forall k :: s.sectionStart <= k < s.index ==> IsWhiteSpace(buf[k])
    ensures Joined(buf, Finish(buf, s).tokens) && Tail(buf, Finish(buf, s).tokens)
  {
    if s.state == State.AfterOpenTag {
      FinishAfterOpenTagCovered(buf, s);
    } else if s.state == State.OpeningDoctype || s.state == State.OpeningNormalComment {
      FinishSpecialCovered(buf, s);
    } else {
      FinishOneCovered(buf, s);
    }
  }

  /**
   * Every character `tokenize` leaves out of its tokens is a markup character
   * `<`, `/` or `>` consumed before or between tokens, or, after the last
   * token, a markup character or pending whitespace.
   */
  lemma TokenizeCovers(buf: string)
    ensures Tokenize(buf).Ok? ==> Gaps(buf, Tokenize(buf).value) && Tail(buf, Tokenize(buf).value)
  {
    assert Inv(buf, Init());
    assert CoveredAt(buf, Init());
    LoopCovered(buf, Init());
    LoopKeeps(buf, Init());
    if Loop(buf, Init()).Ok? {
      var s := Loop(buf, Init()).value;
      FinishCovered(buf, s);
      JoinedGaps(buf, Finish(buf, s).tokens);
    }
  }
}
