/**
 * Every handler, run on a context satisfying the loop invariant `Inv` and on
 * the character at `index`, yields a context satisfying `Inv` once `index`
 * has been advanced.  Each handler's lemma follows the handler's branches; each
 * branch has a lemma of its own that hands an emission to `EmitOpenInv`,
 * `EmitEndInv` or `EmitMoveInv` and a move that emits nothing to `MoveInv`.
 *
 * A few goals are written `Inv(..) == true`: the comparison keeps the verifier
 * from splitting `Inv` into its conjuncts, which it otherwise checks one by one
 * at a much higher cost.
 */
module Preservation {
  import opened Chars
  import opened Machine
  import opened Invariants

  /**
   * The context of a step in state `st`: `Inv` spelt out for that state, with
   * a character left to read.
   */
  ghost predicate At(buf: string, s: Scanner, st: State) {
    s.state == st && 0 <= s.sectionStart <= s.index < |buf| &&
    ScannerTokensInv(buf, s) &&
    ((s.inScript || s.inStyle) ==> RawState(st)) &&
    SectionShape(buf, st, s.sectionStart, s.index) &&
    (st == State.ClosingTag ==> ClosingTagShape(buf, s))
  }

  /** A pending run of whitespace is a Whitespace token's text unless it is empty. */
  lemma WhitespaceSection(buf: string, ss: int, i: int)
    requires 0 <= ss <= i <= |buf|
    requires forall k :: ss <= k < i ==> IsWhiteSpace(buf[k])
    ensures ss < i ==> Shape(TokenKind.Whitespace, buf[ss..i])
  {
    assert forall k :: 0 <= k < i - ss ==> buf[ss..i][k] == buf[ss + k];
  }

  /** A pending unquoted value is an AttrValueNq token's text. */
  lemma NqSection(buf: string, ss: int, i: int)
    requires 0 <= ss < i <= |buf|
    requires forall k :: ss <= k < i ==> NqChar(buf[k])
    ensures Shape(TokenKind.AttrValueNq, buf[ss..i])
  {
    assert forall k :: 0 <= k < i - ss ==> buf[ss..i][k] == buf[ss + k];
  }

  /** A quoted value closed at `i` is an AttrValueSq or AttrValueDq token's text. */
  lemma QuotedSection(buf: string, ss: int, i: int, q: char)
    requires 0 <= ss < i < |buf| && buf[ss] == q && buf[i] == q
    requires forall k :: ss < k < i ==> buf[k] != q
    ensures Quoted(buf[ss..i + 1], q)
  {
    var v := buf[ss..i + 1];
    assert forall k :: 0 < k < |v| - 1 ==> v[k] == buf[ss + k];
  }

  /** An OpenTag starting with `!` names no raw-text element. */
  lemma BangIsNotRaw(buf: string, ss: int, end: int)
    requires 0 <= ss < end <= |buf| && buf[ss] == '!'
    ensures Lower(buf[ss..end]) != "script" && Lower(buf[ss..end]) != "style"
  {
    assert Lower(buf[ss..end])[0] == '!';
  }

  /** The OpenTag `!` that a broken `<!doctype` or `<!-` emits. */
  lemma BangToken(buf: string, s: Scanner, newState: State)
    requires ScannerTokensInv(buf, s) && !s.inScript && !s.inStyle
    requires 0 <= s.sectionStart < s.index <= |buf| && buf[s.sectionStart] == '!'
    ensures ScannerTokensInv(buf, Emit(buf, s, TokenKind.OpenTag, newState, s.sectionStart + 1))
    ensures Emit(buf, s, TokenKind.OpenTag, newState, s.sectionStart + 1).state == newState
    ensures Emit(buf, s, TokenKind.OpenTag, newState, s.sectionStart + 1).sectionStart == s.sectionStart + 1
    ensures Emit(buf, s, TokenKind.OpenTag, newState, s.sectionStart + 1).index == s.index
    ensures !Emit(buf, s, TokenKind.OpenTag, newState, s.sectionStart + 1).inScript
    ensures !Emit(buf, s, TokenKind.OpenTag, newState, s.sectionStart + 1).inStyle
  {
    BangIsNotRaw(buf, s.sectionStart, s.sectionStart + 1);
    EmitKeeps(buf, s, TokenKind.OpenTag, newState, s.sectionStart + 1);
    EmitFields(buf, s, TokenKind.OpenTag, newState, s.sectionStart + 1);
  }

  /** An OpenTag starting with `!`, emitted outside raw text, keeps the invariant. */
  lemma BangOpenInv(buf: string, s: Scanner, newState: State, end: int)
    requires ScannerTokensInv(buf, s)
    requires !s.inScript && !s.inStyle
    requires 0 <= s.sectionStart < end <= s.index + 1 && s.index < |buf|
    requires buf[s.sectionStart] == '!'
    requires newState != State.ClosingTag
    requires SectionShape(buf, newState, end, s.index + 1)
    ensures Inv(buf, Advance(Emit(buf, s, TokenKind.OpenTag, newState, end)))
  {
    BangIsNotRaw(buf, s.sectionStart, end);
    EmitOpenInv(buf, s, newState, end);
  }

  /** `<!d` or `<!D` starts a match of `!doctype`. */
  lemma DoctypeStart(buf: string, ss: int)
    requires 0 <= ss && ss + 1 < |buf| && buf[ss] == '!' && (buf[ss + 1] == 'd' || buf[ss + 1] == 'D')
    ensures NamePrefix(buf, ss, ss + 2, "!doctype")
  {
    assert "!doctype"[0] == '!' && "!doctype"[1] == 'd';
  }

  // Literal

  lemma LiteralOnLt(buf: string, s: Scanner)
    requires At(buf, s, State.Literal) == true && buf[s.index] == '<'
    ensures Inv(buf, Advance(Emit(buf, s, TokenKind.Literal, State.BeforeOpenTag, s.index)))
  {
    EmitMoveInv(buf, s, TokenKind.Literal, State.BeforeOpenTag, s.index);
  }

  lemma LiteralOnOther(buf: string, s: Scanner)
    requires At(buf, s, State.Literal) == true && buf[s.index] != '<'
    ensures Inv(buf, Advance(s))
  {
    MoveInv(buf, s, s.state, s.sectionStart);
  }

  // BeforeOpenTag

  lemma BeforeOpenTagOnSlash(buf: string, s: Scanner)
    requires At(buf, s, State.BeforeOpenTag) == true && buf[s.index] == '/'
    ensures Inv(buf, Advance(s.(state := State.ClosingTag, sectionStart := s.index + 1))) == true
  {
    var i := s.index;
    assert NamePrefix(buf, i + 1, i + 1, "style") && NamePrefix(buf, i + 1, i + 1, "script");
    assert ClosingTagShape(buf, Advance(s.(state := State.ClosingTag, sectionStart := i + 1)));
    MoveInv(buf, s, State.ClosingTag, i + 1);
  }

  lemma BeforeOpenTagInRaw(buf: string, s: Scanner)
    requires At(buf, s, State.BeforeOpenTag) == true && (s.inScript || s.inStyle) && buf[s.index] != '/'
    ensures Inv(buf, Advance(s.(state := State.Literal, sectionStart := s.sectionStart)))
  {
    MoveInv(buf, s, State.Literal, s.sectionStart);
  }

  lemma BeforeOpenTagOnLetter(buf: string, s: Scanner)
    requires At(buf, s, State.BeforeOpenTag) == true && !s.inScript && !s.inStyle && IsAsciiLetter(buf[s.index])
    ensures Inv(buf, Advance(s.(state := State.OpeningTag, sectionStart := s.index)))
  {
    MoveInv(buf, s, State.OpeningTag, s.index);
  }

  lemma BeforeOpenTagOnLt(buf: string, s: Scanner)
    requires At(buf, s, State.BeforeOpenTag) == true && !s.inScript && !s.inStyle && buf[s.index] == '<'
    ensures Inv(buf, Advance(EmitHere(buf, s, TokenKind.Literal)))
  {
    EmitMoveInv(buf, s, TokenKind.Literal, s.state, s.index);
  }

  lemma BeforeOpenTagOnBang(buf: string, s: Scanner)
    requires At(buf, s, State.BeforeOpenTag) == true && !s.inScript && !s.inStyle && buf[s.index] == '!'
    ensures Inv(buf, Advance(s.(state := State.OpeningSpecial, sectionStart := s.index)))
  {
    MoveInv(buf, s, State.OpeningSpecial, s.index);
  }

  lemma BeforeOpenTagOnQuestion(buf: string, s: Scanner)
    requires At(buf, s, State.BeforeOpenTag) == true && !s.inScript && !s.inStyle && buf[s.index] == '?'
    ensures Inv(buf, Advance(Emit(buf, s.(sectionStart := s.index), TokenKind.OpenTag, State.InShortComment, s.index)))
  {
    var s1 := s.(sectionStart := s.index);
    assert ScannerTokensInv(buf, s1);
    assert Lower(buf[s.index..s.index]) == "";
    EmitOpenInv(buf, s1, State.InShortComment, s.index);
  }

  lemma BeforeOpenTagOnOther(buf: string, s: Scanner)
    requires At(buf, s, State.BeforeOpenTag) == true && !s.inScript && !s.inStyle
    requires !IsAsciiLetter(buf[s.index]) && buf[s.index] != '/' && buf[s.index] != '<' && buf[s.index] != '!' && buf[s.index] != '?'
    ensures Inv(buf, Advance(s.(state := State.Literal, sectionStart := s.sectionStart)))
  {
    MoveInv(buf, s, State.Literal, s.sectionStart);
  }

  // OpeningTag

  lemma OpeningTagOnWs(buf: string, s: Scanner)
    requires At(buf, s, State.OpeningTag) == true && IsWhiteSpace(buf[s.index])
    ensures Inv(buf, Advance(Emit(buf, s, TokenKind.OpenTag, State.AfterOpenTag, s.index)))
  {
    EmitOpenInv(buf, s, State.AfterOpenTag, s.index);
  }

  lemma OpeningTagOnGt(buf: string, s: Scanner)
    requires At(buf, s, State.OpeningTag) == true && buf[s.index] == '>'
    ensures Inv(buf, Advance(EmitHere(buf, EmitHere(buf, s, TokenKind.OpenTag), TokenKind.OpenTagEnd)))
  {
    EmitKeeps(buf, s, TokenKind.OpenTag, s.state, s.index);
    EmitFields(buf, s, TokenKind.OpenTag, s.state, s.index);
    var s1 := EmitHere(buf, s, TokenKind.OpenTag);
    EmitEndInv(buf, s1, TokenKind.OpenTagEnd, s1.state, s1.index);
  }

  lemma OpeningTagOnSlash(buf: string, s: Scanner)
    requires At(buf, s, State.OpeningTag) == true && buf[s.index] == '/'
    ensures Inv(buf, Advance(Emit(buf, s, TokenKind.OpenTag, State.ClosingOpenTag, s.index)))
  {
    EmitOpenInv(buf, s, State.ClosingOpenTag, s.index);
  }

  lemma OpeningTagOnOther(buf: string, s: Scanner)
    requires At(buf, s, State.OpeningTag) == true && !IsWhiteSpace(buf[s.index]) && buf[s.index] != '>' && buf[s.index] != '/'
    ensures Inv(buf, Advance(s))
  {
    MoveInv(buf, s, s.state, s.sectionStart);
  }

  // AfterOpenTag

  lemma AfterOpenTagOnGt(buf: string, s: Scanner)
    requires At(buf, s, State.AfterOpenTag) == true && buf[s.index] == '>'
    ensures Inv(buf, Advance(EmitHere(buf, EmitHere(buf, s, TokenKind.Whitespace), TokenKind.OpenTagEnd)))
  {
    WhitespaceSection(buf, s.sectionStart, s.index);
    EmitKeeps(buf, s, TokenKind.Whitespace, s.state, s.index);
    EmitFields(buf, s, TokenKind.Whitespace, s.state, s.index);
    var s1 := EmitHere(buf, s, TokenKind.Whitespace);
    EmitEndInv(buf, s1, TokenKind.OpenTagEnd, s1.state, s1.index);
  }

  lemma AfterOpenTagOnSlash(buf: string, s: Scanner)
    requires At(buf, s, State.AfterOpenTag) == true && buf[s.index] == '/'
    ensures Inv(buf, Advance(Emit(buf, s, TokenKind.Whitespace, State.ClosingOpenTag, s.index)))
  {
    WhitespaceSection(buf, s.sectionStart, s.index);
    EmitMoveInv(buf, s, TokenKind.Whitespace, State.ClosingOpenTag, s.index);
  }

  lemma AfterOpenTagOnSq(buf: string, s: Scanner)
    requires At(buf, s, State.AfterOpenTag) == true && buf[s.index] == '\''
    ensures Inv(buf, Advance(Emit(buf, s, TokenKind.Whitespace, State.InValueSq, s.index)))
  {
    WhitespaceSection(buf, s.sectionStart, s.index);
    EmitMoveInv(buf, s, TokenKind.Whitespace, State.InValueSq, s.index);
  }

  lemma AfterOpenTagOnDq(buf: string, s: Scanner)
    requires At(buf, s, State.AfterOpenTag) == true && buf[s.index] == '"'
    ensures Inv(buf, Advance(Emit(buf, s, TokenKind.Whitespace, State.InValueDq, s.index)))
  {
    WhitespaceSection(buf, s.sectionStart, s.index);
    EmitMoveInv(buf, s, TokenKind.Whitespace, State.InValueDq, s.index);
  }

  /** An `=` read with nothing pending: the one-character AttrValueEq token, then AfterOpenTag. */
  lemma EqualsInv(buf: string, s: Scanner, i: int)
    requires 0 <= i < |buf| && buf[i] == '='
    requires ScannerTokensInv(buf, s)
    requires s.sectionStart == i
    requires s.index == i
    ensures Inv(buf, Advance(Emit(buf, s, TokenKind.AttrValueEq, State.AfterOpenTag, i + 1)))
  {
    assert buf[i..i + 1] == "=";
    EmitMoveInv(buf, s, TokenKind.AttrValueEq, State.AfterOpenTag, i + 1);
  }

  /** Flushing the pending Whitespace or AttrValueNq section at `index` keeps the token facts. */
  lemma FlushPending(buf: string, s: Scanner, kind: TokenKind)
    requires ScannerTokensInv(buf, s) && 0 <= s.sectionStart <= s.index < |buf|
    requires kind == TokenKind.AttrValueNq || kind == TokenKind.Whitespace
    requires !Suppressed(kind, s.sectionStart, s.index) ==> Shape(kind, buf[s.sectionStart..s.index])
    ensures ScannerTokensInv(buf, Emit(buf, s, kind, s.state, s.index))
    ensures Emit(buf, s, kind, s.state, s.index).sectionStart == s.index
    ensures Emit(buf, s, kind, s.state, s.index).index == s.index
  {
    EmitKeeps(buf, s, kind, s.state, s.index);
    EmitFields(buf, s, kind, s.state, s.index);
  }

  lemma FlushedThenEquals(buf: string, s: Scanner, kind: TokenKind)
    requires 0 <= s.index < |buf| && buf[s.index] == '='
    requires ScannerTokensInv(buf, Emit(buf, s, kind, s.state, s.index))
    requires Emit(buf, s, kind, s.state, s.index).sectionStart == s.index
    requires Emit(buf, s, kind, s.state, s.index).index == s.index
    ensures Inv(buf, Advance(Emit(buf, Emit(buf, s, kind, s.state, s.index), TokenKind.AttrValueEq, State.AfterOpenTag, s.index + 1)))
  {
    EqualsInv(buf, Emit(buf, s, kind, s.state, s.index), s.index);
  }

  /** A pending Whitespace or AttrValueNq section flushed at `index`, and then an `=`. */
  lemma ThenEquals(buf: string, s: Scanner, kind: TokenKind)
    requires ScannerTokensInv(buf, s) && 0 <= s.sectionStart <= s.index < |buf| && buf[s.index] == '='
    requires kind == TokenKind.AttrValueNq || kind == TokenKind.Whitespace
    requires !Suppressed(kind, s.sectionStart, s.index) ==> Shape(kind, buf[s.sectionStart..s.index])
    ensures Inv(buf, Advance(Emit(buf, Emit(buf, s, kind, s.state, s.index), TokenKind.AttrValueEq, State.AfterOpenTag, s.index + 1)))
  {
    FlushPending(buf, s, kind);
    FlushedThenEquals(buf, s, kind);
  }

  lemma AfterOpenTagOnEq(buf: string, s: Scanner)
    requires At(buf, s, State.AfterOpenTag) == true && buf[s.index] == '='
    ensures Inv(buf, Advance(Emit(buf, EmitHere(buf, s, TokenKind.Whitespace), TokenKind.AttrValueEq, EmitHere(buf, s, TokenKind.Whitespace).state, s.index + 1)))
  {
    WhitespaceSection(buf, s.sectionStart, s.index);
    ThenEquals(buf, s, TokenKind.Whitespace);
    assert EmitHere(buf, s, TokenKind.Whitespace).state == State.AfterOpenTag;
  }

  lemma AfterOpenTagOnName(buf: string, s: Scanner)
    requires At(buf, s, State.AfterOpenTag) == true && NqChar(buf[s.index]) && buf[s.index] != '\'' && buf[s.index] != '"'
    ensures Inv(buf, Advance(Emit(buf, s, TokenKind.Whitespace, State.InValueNq, s.index)))
  {
    WhitespaceSection(buf, s.sectionStart, s.index);
    EmitMoveInv(buf, s, TokenKind.Whitespace, State.InValueNq, s.index);
  }

  lemma AfterOpenTagOnWs(buf: string, s: Scanner)
    requires At(buf, s, State.AfterOpenTag) == true && IsWhiteSpace(buf[s.index])
    ensures Inv(buf, Advance(s))
  {
    MoveInv(buf, s, s.state, s.sectionStart);
  }

  // InValueNq

  lemma InValueNqOnGt(buf: string, s: Scanner)
    requires At(buf, s, State.InValueNq) == true && buf[s.index] == '>'
    ensures Inv(buf, Advance(EmitHere(buf, EmitHere(buf, s, TokenKind.AttrValueNq), TokenKind.OpenTagEnd)))
  {
    NqSection(buf, s.sectionStart, s.index);
    EmitKeeps(buf, s, TokenKind.AttrValueNq, s.state, s.index);
    EmitFields(buf, s, TokenKind.AttrValueNq, s.state, s.index);
    var s1 := EmitHere(buf, s, TokenKind.AttrValueNq);
    EmitEndInv(buf, s1, TokenKind.OpenTagEnd, s1.state, s1.index);
  }

  lemma InValueNqOnSlash(buf: string, s: Scanner)
    requires At(buf, s, State.InValueNq) == true && buf[s.index] == '/'
    ensures Inv(buf, Advance(Emit(buf, s, TokenKind.AttrValueNq, State.ClosingOpenTag, s.index)))
  {
    NqSection(buf, s.sectionStart, s.index);
    EmitMoveInv(buf, s, TokenKind.AttrValueNq, State.ClosingOpenTag, s.index);
  }

  lemma InValueNqOnEq(buf: string, s: Scanner)
    requires At(buf, s, State.InValueNq) == true && buf[s.index] == '='
    ensures Inv(buf, Advance(Emit(buf, EmitHere(buf, s, TokenKind.AttrValueNq), TokenKind.AttrValueEq, State.AfterOpenTag, s.index + 1)))
  {
    NqSection(buf, s.sectionStart, s.index);
    ThenEquals(buf, s, TokenKind.AttrValueNq);
  }

  lemma InValueNqOnWs(buf: string, s: Scanner)
    requires At(buf, s, State.InValueNq) == true && IsWhiteSpace(buf[s.index])
    ensures Inv(buf, Advance(Emit(buf, s, TokenKind.AttrValueNq, State.AfterOpenTag, s.index)))
  {
    NqSection(buf, s.sectionStart, s.index);
    EmitMoveInv(buf, s, TokenKind.AttrValueNq, State.AfterOpenTag, s.index);
  }

  lemma InValueNqOnOther(buf: string, s: Scanner)
    requires At(buf, s, State.InValueNq) == true && NqChar(buf[s.index])
    ensures Inv(buf, Advance(s))
  {
    MoveInv(buf, s, s.state, s.sectionStart);
  }

  /** The closing quote of a quoted value, on the section's facts alone. */
  lemma QuoteEndInv(buf: string, s: Scanner, q: char, kind: TokenKind)
    requires ScannerTokensInv(buf, s)
    requires 0 <= s.sectionStart < s.index < |buf| && buf[s.sectionStart] == q && buf[s.index] == q
    requires forall k :: s.sectionStart < k < s.index ==> buf[k] != q
    requires (q == '\'' && kind == TokenKind.AttrValueSq) || (q == '"' && kind == TokenKind.AttrValueDq)
    ensures Inv(buf, Advance(Emit(buf, s, kind, State.AfterOpenTag, s.index + 1))) == true
  {
    QuotedShape(buf, s.sectionStart, s.index, q, kind);
    EmitMoveInv(buf, s, kind, State.AfterOpenTag, s.index + 1);
  }

  /** A section from quote to matching quote has the shape of its quoted-value kind. */
  lemma QuotedShape(buf: string, ss: int, i: int, q: char, kind: TokenKind)
    requires 0 <= ss < i < |buf| && buf[ss] == q && buf[i] == q
    requires forall k :: ss < k < i ==> buf[k] != q
    requires (q == '\'' && kind == TokenKind.AttrValueSq) || (q == '"' && kind == TokenKind.AttrValueDq)
    ensures Shape(kind, buf[ss..i + 1])
  {
    QuotedSection(buf, ss, i, q);
  }

  // InValueSq

  lemma InValueSqOnQuote(buf: string, s: Scanner)
    requires At(buf, s, State.InValueSq) == true && buf[s.index] == '\''
    ensures Inv(buf, Advance(Emit(buf, s, TokenKind.AttrValueSq, State.AfterOpenTag, s.index + 1)))
  {
    assert SectionShape(buf, State.InValueSq, s.sectionStart, s.index);
    QuoteEndInv(buf, s, '\'', TokenKind.AttrValueSq);
  }

  lemma InValueSqOnOther(buf: string, s: Scanner)
    requires At(buf, s, State.InValueSq) == true && buf[s.index] != '\''
    ensures Inv(buf, Advance(s))
  {
    MoveInv(buf, s, s.state, s.sectionStart);
  }

  // InValueDq

  lemma InValueDqOnQuote(buf: string, s: Scanner)
    requires At(buf, s, State.InValueDq) == true && buf[s.index] == '"'
    ensures Inv(buf, Advance(Emit(buf, s, TokenKind.AttrValueDq, State.AfterOpenTag, s.index + 1)))
  {
    assert SectionShape(buf, State.InValueDq, s.sectionStart, s.index);
    QuoteEndInv(buf, s, '"', TokenKind.AttrValueDq);
  }

  lemma InValueDqOnOther(buf: string, s: Scanner)
    requires At(buf, s, State.InValueDq) == true && buf[s.index] != '"'
    ensures Inv(buf, Advance(s))
  {
    MoveInv(buf, s, s.state, s.sectionStart);
  }

  // ClosingOpenTag

  lemma ClosingOpenTagOnGt(buf: string, s: Scanner)
    requires At(buf, s, State.ClosingOpenTag) == true && buf[s.index] == '>'
    ensures Inv(buf, Advance(EmitHere(buf, s, TokenKind.OpenTagEnd)))
  {
    assert buf[s.sectionStart..s.index] == "/";
    EmitEndInv(buf, s, TokenKind.OpenTagEnd, s.state, s.index);
  }

  lemma ClosingOpenTagOnOther(buf: string, s: Scanner)
    requires At(buf, s, State.ClosingOpenTag) == true && buf[s.index] != '>'
    ensures Inv(buf, Advance(ParseAfterOpenTag(buf, Emit(buf, s, TokenKind.AttrValueNq, State.AfterOpenTag, s.index), buf[Emit(buf, s, TokenKind.AttrValueNq, State.AfterOpenTag, s.index).index])))
  {
    assert buf[s.sectionStart..s.index] == "/";
    EmitKeeps(buf, s, TokenKind.AttrValueNq, State.AfterOpenTag, s.index);
    EmitFields(buf, s, TokenKind.AttrValueNq, State.AfterOpenTag, s.index);
    var s1 := Emit(buf, s, TokenKind.AttrValueNq, State.AfterOpenTag, s.index);
    assert At(buf, s1, State.AfterOpenTag);
    AfterOpenTagStep(buf, s1);
  }

  // OpeningSpecial

  lemma OpeningSpecialOnDash(buf: string, s: Scanner)
    requires At(buf, s, State.OpeningSpecial) == true && buf[s.index] == '-'
    ensures Inv(buf, Advance(s.(state := State.OpeningNormalComment, sectionStart := s.sectionStart)))
  {
    MoveInv(buf, s, State.OpeningNormalComment, s.sectionStart);
  }

  lemma OpeningSpecialOnD(buf: string, s: Scanner)
    requires At(buf, s, State.OpeningSpecial) == true && (buf[s.index] == 'd' || buf[s.index] == 'D')
    ensures Inv(buf, Advance(s.(state := State.OpeningDoctype, sectionStart := s.sectionStart))) == true
  {
    DoctypeStart(buf, s.sectionStart);
    MoveInv(buf, s, State.OpeningDoctype, s.sectionStart);
  }

  lemma OpeningSpecialOnOther(buf: string, s: Scanner)
    requires At(buf, s, State.OpeningSpecial) == true && buf[s.index] != '-' && buf[s.index] != 'd' && buf[s.index] != 'D'
    ensures Inv(buf, Advance(Emit(buf, s, TokenKind.OpenTag, State.InShortComment, s.index)))
  {
    BangOpenInv(buf, s, State.InShortComment, s.index);
  }

  // OpeningDoctype

  lemma OpeningDoctypeOnWs(buf: string, s: Scanner)
    requires At(buf, s, State.OpeningDoctype) == true && s.index - s.sectionStart == Doctype.length && IsWhiteSpace(buf[s.index])
    ensures Inv(buf, Advance(Emit(buf, s, TokenKind.OpenTag, State.AfterOpenTag, s.index)))
  {
    BangOpenInv(buf, s, State.AfterOpenTag, s.index);
  }

  /** The `!` OpenTag and the Literal after it, emitted by a `<!doc…` cut short. */
  lemma BangLiteral(buf: string, s: Scanner)
    requires ScannerTokensInv(buf, s) && !s.inScript && !s.inStyle
    requires 0 <= s.sectionStart && s.sectionStart + 2 <= s.index <= |buf| && buf[s.sectionStart] == '!'
    ensures ScannerTokensInv(buf, EmitHere(buf, Emit(buf, s, TokenKind.OpenTag, s.state, s.sectionStart + 1), TokenKind.Literal))
    ensures EmitHere(buf, Emit(buf, s, TokenKind.OpenTag, s.state, s.sectionStart + 1), TokenKind.Literal).sectionStart == s.index
    ensures EmitHere(buf, Emit(buf, s, TokenKind.OpenTag, s.state, s.sectionStart + 1), TokenKind.Literal).index == s.index
  {
    BangToken(buf, s, s.state);
    var s1 := Emit(buf, s, TokenKind.OpenTag, s.state, s.sectionStart + 1);
    EmitKeeps(buf, s1, TokenKind.Literal, s1.state, s1.index);
    EmitFields(buf, s1, TokenKind.Literal, s1.state, s1.index);
  }

  lemma OpeningDoctypeOnGt(buf: string, s: Scanner)
    requires At(buf, s, State.OpeningDoctype) == true && s.index - s.sectionStart != Doctype.length && buf[s.index] == '>'
    ensures Inv(buf, Advance(EmitHere(buf, EmitHere(buf, Emit(buf, s, TokenKind.OpenTag, s.state, s.sectionStart + 1), TokenKind.Literal), TokenKind.OpenTagEnd)))
  {
    BangLiteral(buf, s);
    var s2 := EmitHere(buf, Emit(buf, s, TokenKind.OpenTag, s.state, s.sectionStart + 1), TokenKind.Literal);
    EmitEndInv(buf, s2, TokenKind.OpenTagEnd, s2.state, s2.index);
  }

  lemma OpeningDoctypeOnMismatch(buf: string, s: Scanner)
    requires At(buf, s, State.OpeningDoctype) == true && s.index - s.sectionStart != Doctype.length && buf[s.index] != '>'
    requires !CodeAt(Doctype.lower, s.index - s.sectionStart, buf[s.index])
    requires !CodeAt(Doctype.upper, s.index - s.sectionStart, buf[s.index])
    ensures Inv(buf, Advance(Emit(buf, s, TokenKind.OpenTag, State.InShortComment, s.sectionStart + 1)))
  {
    BangOpenInv(buf, s, State.InShortComment, s.sectionStart + 1);
  }

  lemma OpeningDoctypeOnMatch(buf: string, s: Scanner)
    requires At(buf, s, State.OpeningDoctype) == true && s.index - s.sectionStart != Doctype.length && buf[s.index] != '>'
    requires CodeAt(Doctype.lower, s.index - s.sectionStart, buf[s.index]) || CodeAt(Doctype.upper, s.index - s.sectionStart, buf[s.index])
    ensures Inv(buf, Advance(s))
  {
    var ss, i := s.sectionStart, s.index;
    assert SectionShape(buf, State.OpeningDoctype, ss, i);
    TableMatch("!doctype", i - ss, buf[i]);
    NamePrefixExtend(buf, ss, i, "!doctype");
    assert SectionShape(buf, State.OpeningDoctype, ss, i + 1);
    MoveInv(buf, s, s.state, ss);
  }

  // OpeningNormalComment

  lemma OpeningNormalCommentOnDash(buf: string, s: Scanner)
    requires At(buf, s, State.OpeningNormalComment) == true && buf[s.index] == '-'
    ensures Inv(buf, Advance(Emit(buf, s, TokenKind.OpenTag, State.InNormalComment, s.index + 1)))
  {
    BangOpenInv(buf, s, State.InNormalComment, s.index + 1);
  }

  lemma OpeningNormalCommentOnOther(buf: string, s: Scanner)
    requires At(buf, s, State.OpeningNormalComment) == true && buf[s.index] != '-'
    ensures Inv(buf, Advance(Emit(buf, s, TokenKind.OpenTag, State.InShortComment, s.sectionStart + 1)))
  {
    BangOpenInv(buf, s, State.InShortComment, s.sectionStart + 1);
  }

  // InNormalComment

  lemma NormalCommentOnDash(buf: string, s: Scanner)
    requires At(buf, s, State.InNormalComment) == true && buf[s.index] == '-'
    ensures Inv(buf, Advance(Emit(buf, s, TokenKind.Literal, State.ClosingNormalComment, s.index)))
  {
    EmitMoveInv(buf, s, TokenKind.Literal, State.ClosingNormalComment, s.index);
  }

  lemma NormalCommentOnOther(buf: string, s: Scanner)
    requires At(buf, s, State.InNormalComment) == true && buf[s.index] != '-'
    ensures Inv(buf, Advance(s))
  {
    MoveInv(buf, s, s.state, s.sectionStart);
  }

  // InShortComment

  lemma ShortCommentOnGt(buf: string, s: Scanner)
    requires At(buf, s, State.InShortComment) == true && buf[s.index] == '>'
    ensures Inv(buf, Advance(EmitHere(buf, EmitHere(buf, s, TokenKind.Literal), TokenKind.OpenTagEnd)))
  {
    EmitKeeps(buf, s, TokenKind.Literal, s.state, s.index);
    EmitFields(buf, s, TokenKind.Literal, s.state, s.index);
    var s1 := EmitHere(buf, s, TokenKind.Literal);
    EmitEndInv(buf, s1, TokenKind.OpenTagEnd, s1.state, s1.index);
  }

  lemma ShortCommentOnOther(buf: string, s: Scanner)
    requires At(buf, s, State.InShortComment) == true && buf[s.index] != '>'
    ensures Inv(buf, Advance(s))
  {
    MoveInv(buf, s, s.state, s.sectionStart);
  }

  // ClosingNormalComment

  lemma ClosingNormalCommentOnGt(buf: string, s: Scanner)
    requires At(buf, s, State.ClosingNormalComment) == true && s.index - s.sectionStart == 2 && buf[s.index] == '>'
    ensures Inv(buf, Advance(EmitHere(buf, s, TokenKind.OpenTagEnd)))
  {
    assert buf[s.sectionStart..s.index] == "--";
    EmitEndInv(buf, s, TokenKind.OpenTagEnd, s.state, s.index);
  }

  lemma ClosingNormalCommentOnDash(buf: string, s: Scanner)
    requires At(buf, s, State.ClosingNormalComment) == true && s.index - s.sectionStart == 2 && buf[s.index] == '-'
    ensures Inv(buf, Advance(Emit(buf, s, TokenKind.Literal, s.state, s.sectionStart + 1)))
  {
    EmitMoveInv(buf, s, TokenKind.Literal, s.state, s.sectionStart + 1);
  }

  lemma ClosingNormalCommentOnOther(buf: string, s: Scanner)
    requires At(buf, s, State.ClosingNormalComment) == true && buf[s.index] != '-' && (s.index - s.sectionStart != 2 || buf[s.index] != '>')
    ensures Inv(buf, Advance(s.(state := State.InNormalComment, sectionStart := s.sectionStart)))
  {
    MoveInv(buf, s, State.InNormalComment, s.sectionStart);
  }

  lemma ClosingNormalCommentOnSecondDash(buf: string, s: Scanner)
    requires At(buf, s, State.ClosingNormalComment) == true && s.index - s.sectionStart != 2 && buf[s.index] == '-'
    ensures Inv(buf, Advance(s))
  {
    MoveInv(buf, s, s.state, s.sectionStart);
  }

  // ClosingTag

  /** The raw-text element open in `s`, named `word`. */
  ghost predicate RawFor(s: Scanner, word: string) {
    (word == "style" && s.inStyle) || (word == "script" && s.inScript && !s.inStyle)
  }

  lemma RawClosingTagOnLt(buf: string, s: Scanner, word: string)
    requires At(buf, s, State.ClosingTag) == true && RawFor(s, word) && buf[s.index] == '<'
    ensures Inv(buf, Advance(Emit(buf, s.(sectionStart := s.sectionStart - 2), TokenKind.Literal, State.BeforeOpenTag, s.index)))
  {
    var s1 := s.(sectionStart := s.sectionStart - 2);
    assert ScannerTokensInv(buf, s1);
    EmitMoveInv(buf, s1, TokenKind.Literal, State.BeforeOpenTag, s.index);
  }

  /** A character that keeps the candidate closing tag going: the next letter of the name, or whitespace after it. */
  lemma RawClosingTagOnKeep(buf: string, s: Scanner, word: string)
    requires At(buf, s, State.ClosingTag) == true && RawFor(s, word) && buf[s.index] != '<'
    requires if s.index - s.sectionStart < |word| then ToLower(buf[s.index]) == ToLower(word[s.index - s.sectionStart])
      else IsWhiteSpace(buf[s.index])
    ensures Inv(buf, Advance(s))
  {
    var ss, i := s.sectionStart, s.index;
    NamePrefixExtend(buf, ss, i, word);
    assert ClosingTagShape(buf, Advance(s.(state := s.state, sectionStart := ss)));
    MoveInv(buf, s, s.state, ss);
  }

  /** A character that breaks the candidate closing tag: `</` goes back to the text. */
  lemma RawClosingTagOnBreak(buf: string, s: Scanner, word: string)
    requires At(buf, s, State.ClosingTag) == true && RawFor(s, word) && buf[s.index] != '<' && buf[s.index] != '>'
    requires if s.index - s.sectionStart < |word| then ToLower(buf[s.index]) != ToLower(word[s.index - s.sectionStart])
      else !IsWhiteSpace(buf[s.index])
    ensures Inv(buf, Advance(s.(state := State.Literal, sectionStart := s.sectionStart - 2)))
  {
    RewindInv(buf, s);
  }

  /** Giving the `</…` back to the text keeps the invariant, whatever the character. */
  lemma RewindInv(buf: string, s: Scanner)
    requires At(buf, s, State.ClosingTag) == true
    ensures Inv(buf, Advance(s.(state := State.Literal, sectionStart := s.sectionStart - 2)))
  {
    var ss, i := s.sectionStart, s.index;
    assert SectionShape(buf, State.ClosingTag, ss, i) && ClosingTagShape(buf, s);
    assert |s.tokens| > 0 ==> s.tokens[|s.tokens| - 1].end <= ss - 2;
    assert SectionShape(buf, State.Literal, ss - 2, i + 1);
    MoveInv(buf, s, State.Literal, ss - 2);
  }

  /** A `>` inside the name, where it does not match. */
  lemma RawClosingTagOnEarlyGt(buf: string, s: Scanner, word: string)
    requires At(buf, s, State.ClosingTag) == true && RawFor(s, word) && buf[s.index] == '>'
    requires s.index - s.sectionStart < |word|
    ensures Inv(buf, Advance(s.(state := State.Literal, sectionStart := s.sectionStart - 2)))
  {
    RewindInv(buf, s);
  }

  lemma RawClosingTagOnGt(buf: string, s: Scanner, word: string)
    requires At(buf, s, State.ClosingTag) == true && RawFor(s, word) && buf[s.index] == '>'
    requires s.index - s.sectionStart >= |word|
    ensures Inv(buf, Advance(EmitHere(buf, s, TokenKind.CloseTag)))
  {
    EmitEndInv(buf, s, TokenKind.CloseTag, s.state, s.index);
  }

  lemma RawClosingTagStep(buf: string, s: Scanner, word: string)
    requires At(buf, s, State.ClosingTag) == true && RawFor(s, word)
    ensures Inv(buf, Advance(ParseRawClosingTag(buf, s, buf[s.index], MakeCodePoints(word)))) == true
  {
    var c, offset := buf[s.index], s.index - s.sectionStart;
    RawBranches(buf, s, c, word);
    if c == '<' {
      RawClosingTagOnLt(buf, s, word);
    } else if offset >= |word| && c == '>' {
      RawClosingTagOnGt(buf, s, word);
    } else if c == '>' {
      RawClosingTagOnEarlyGt(buf, s, word);
    } else if if offset < |word| then ToLower(c) == ToLower(word[offset]) else IsWhiteSpace(c) {
      RawClosingTagOnKeep(buf, s, word);
    } else {
      RawClosingTagOnBreak(buf, s, word);
    }
  }

  /** The result of the raw-text branch of `parseClosingTag`, branch by branch, with nothing assumed of the context. */
  lemma RawBranches(buf: string, s: Scanner, c: char, word: string)
    requires word == "style" || word == "script"
    requires s.sectionStart <= s.index
    ensures var offset := s.index - s.sectionStart;
      var r := ParseRawClosingTag(buf, s, c, MakeCodePoints(word));
      var rewind := s.(state := State.Literal, sectionStart := s.sectionStart - 2);
      (c == '<' ==> r == Emit(buf, s.(sectionStart := s.sectionStart - 2), TokenKind.Literal, State.BeforeOpenTag, s.index)) &&
      (c == '>' && offset >= |word| ==> r == EmitHere(buf, s, TokenKind.CloseTag)) &&
      (c == '>' && offset < |word| ==> r == rewind) &&
      (c != '<' && c != '>' && offset < |word| ==>
        r == if ToLower(c) == ToLower(word[offset]) then s else rewind) &&
      (c != '<' && c != '>' && offset >= |word| ==>
        r == if IsWhiteSpace(c) then s else rewind)
  {
    var offset := s.index - s.sectionStart;
    TableMatch(word, offset, c);
    if c == '>' && offset < |word| {
      assert ToLower(c) != ToLower(word[offset]);
    }
  }

  lemma ClosingTagOnGt(buf: string, s: Scanner)
    requires At(buf, s, State.ClosingTag) == true && !s.inScript && !s.inStyle && buf[s.index] == '>'
    ensures Inv(buf, Advance(EmitHere(buf, s, TokenKind.CloseTag)))
  {
    EmitEndInv(buf, s, TokenKind.CloseTag, s.state, s.index);
  }

  lemma ClosingTagOnOther(buf: string, s: Scanner)
    requires At(buf, s, State.ClosingTag) == true && !s.inScript && !s.inStyle && buf[s.index] != '>'
    ensures Inv(buf, Advance(s))
  {
    MoveInv(buf, s, s.state, s.sectionStart);
  }

  lemma LiteralStep(buf: string, s: Scanner)
    requires At(buf, s, State.Literal) == true
    ensures Inv(buf, Advance(ParseLiteral(buf, s, buf[s.index])))
  {
    var c := buf[s.index];
    if c == '<' {
      LiteralOnLt(buf, s);
      assert ParseLiteral(buf, s, buf[s.index]) == Emit(buf, s, TokenKind.Literal, State.BeforeOpenTag, s.index);
    } else {
      LiteralOnOther(buf, s);
      assert ParseLiteral(buf, s, buf[s.index]) == s;
    }
  }

  lemma BeforeOpenTagStep(buf: string, s: Scanner)
    requires At(buf, s, State.BeforeOpenTag) == true
    ensures Inv(buf, Advance(ParseBeforeOpenTag(buf, s, buf[s.index])))
  {
    var c := buf[s.index];
    if c == '/' {
      BeforeOpenTagOnSlash(buf, s);
      assert ParseBeforeOpenTag(buf, s, buf[s.index]) == s.(state := State.ClosingTag, sectionStart := s.index + 1);
    } else if s.inScript || s.inStyle {
      BeforeOpenTagInRaw(buf, s);
      assert ParseBeforeOpenTag(buf, s, buf[s.index]) == s.(state := State.Literal, sectionStart := s.sectionStart);
    } else if IsAsciiLetter(c) {
      BeforeOpenTagOnLetter(buf, s);
      assert ParseBeforeOpenTag(buf, s, buf[s.index]) == s.(state := State.OpeningTag, sectionStart := s.index);
    } else if c == '<' {
      BeforeOpenTagOnLt(buf, s);
      assert ParseBeforeOpenTag(buf, s, buf[s.index]) == EmitHere(buf, s, TokenKind.Literal);
    } else if c == '!' {
      BeforeOpenTagOnBang(buf, s);
      assert ParseBeforeOpenTag(buf, s, buf[s.index]) == s.(state := State.OpeningSpecial, sectionStart := s.index);
    } else if c == '?' {
      BeforeOpenTagOnQuestion(buf, s);
      assert ParseBeforeOpenTag(buf, s, buf[s.index]) == Emit(buf, s.(sectionStart := s.index), TokenKind.OpenTag, State.InShortComment, s.index);
    } else {
      BeforeOpenTagOnOther(buf, s);
      assert ParseBeforeOpenTag(buf, s, buf[s.index]) == s.(state := State.Literal, sectionStart := s.sectionStart);
    }
  }

  lemma OpeningTagStep(buf: string, s: Scanner)
    requires At(buf, s, State.OpeningTag) == true
    ensures Inv(buf, Advance(ParseOpeningTag(buf, s, buf[s.index])))
  {
    var c := buf[s.index];
    if IsWhiteSpace(c) {
      OpeningTagOnWs(buf, s);
      assert ParseOpeningTag(buf, s, buf[s.index]) == Emit(buf, s, TokenKind.OpenTag, State.AfterOpenTag, s.index);
    } else if c == '>' {
      OpeningTagOnGt(buf, s);
      assert ParseOpeningTag(buf, s, buf[s.index]) == EmitHere(buf, EmitHere(buf, s, TokenKind.OpenTag), TokenKind.OpenTagEnd);
    } else if c == '/' {
      OpeningTagOnSlash(buf, s);
      assert ParseOpeningTag(buf, s, buf[s.index]) == Emit(buf, s, TokenKind.OpenTag, State.ClosingOpenTag, s.index);
    } else {
      OpeningTagOnOther(buf, s);
      assert ParseOpeningTag(buf, s, buf[s.index]) == s;
    }
  }

  lemma AfterOpenTagStep(buf: string, s: Scanner)
    requires At(buf, s, State.AfterOpenTag) == true
    ensures Inv(buf, Advance(ParseAfterOpenTag(buf, s, buf[s.index]))) == true
  {
    var c := buf[s.index];
    if c == '>' {
      AfterOpenTagOnGt(buf, s);
      assert ParseAfterOpenTag(buf, s, buf[s.index]) == EmitHere(buf, EmitHere(buf, s, TokenKind.Whitespace), TokenKind.OpenTagEnd);
    } else if c == '/' {
      AfterOpenTagOnSlash(buf, s);
      assert ParseAfterOpenTag(buf, s, buf[s.index]) == Emit(buf, s, TokenKind.Whitespace, State.ClosingOpenTag, s.index);
    } else if c == '=' {
      AfterOpenTagOnEq(buf, s);
      assert ParseAfterOpenTag(buf, s, buf[s.index]) == Emit(buf, EmitHere(buf, s, TokenKind.Whitespace), TokenKind.AttrValueEq, EmitHere(buf, s, TokenKind.Whitespace).state, s.index + 1);
    } else if c == '\'' {
      AfterOpenTagOnSq(buf, s);
      assert ParseAfterOpenTag(buf, s, buf[s.index]) == Emit(buf, s, TokenKind.Whitespace, State.InValueSq, s.index);
    } else if c == '"' {
      AfterOpenTagOnDq(buf, s);
      assert ParseAfterOpenTag(buf, s, buf[s.index]) == Emit(buf, s, TokenKind.Whitespace, State.InValueDq, s.index);
    } else if !IsWhiteSpace(c) {
      AfterOpenTagOnName(buf, s);
      assert ParseAfterOpenTag(buf, s, buf[s.index]) == Emit(buf, s, TokenKind.Whitespace, State.InValueNq, s.index);
    } else {
      AfterOpenTagOnWs(buf, s);
      assert ParseAfterOpenTag(buf, s, buf[s.index]) == s;
    }
  }

  lemma InValueNqStep(buf: string, s: Scanner)
    requires At(buf, s, State.InValueNq) == true
    ensures Inv(buf, Advance(ParseInValueNq(buf, s, buf[s.index])))
  {
    var c := buf[s.index];
    if c == '>' {
      InValueNqOnGt(buf, s);
      assert ParseInValueNq(buf, s, buf[s.index]) == EmitHere(buf, EmitHere(buf, s, TokenKind.AttrValueNq), TokenKind.OpenTagEnd);
    } else if c == '/' {
      InValueNqOnSlash(buf, s);
      assert ParseInValueNq(buf, s, buf[s.index]) == Emit(buf, s, TokenKind.AttrValueNq, State.ClosingOpenTag, s.index);
    } else if c == '=' {
      InValueNqOnEq(buf, s);
      assert ParseInValueNq(buf, s, buf[s.index]) == Emit(buf, EmitHere(buf, s, TokenKind.AttrValueNq), TokenKind.AttrValueEq, State.AfterOpenTag, s.index + 1);
    } else if IsWhiteSpace(c) {
      InValueNqOnWs(buf, s);
      assert ParseInValueNq(buf, s, buf[s.index]) == Emit(buf, s, TokenKind.AttrValueNq, State.AfterOpenTag, s.index);
    } else {
      InValueNqOnOther(buf, s);
      assert ParseInValueNq(buf, s, buf[s.index]) == s;
    }
  }

  lemma InValueSqStep(buf: string, s: Scanner)
    requires At(buf, s, State.InValueSq) == true
    ensures Inv(buf, Advance(ParseInValueSq(buf, s, buf[s.index]))) == true
  {
    var c := buf[s.index];
    if c == '\'' {
      InValueSqOnQuote(buf, s);
      assert ParseInValueSq(buf, s, buf[s.index]) == Emit(buf, s, TokenKind.AttrValueSq, State.AfterOpenTag, s.index + 1);
    } else {
      InValueSqOnOther(buf, s);
      assert ParseInValueSq(buf, s, buf[s.index]) == s;
    }
  }

  lemma InValueDqStep(buf: string, s: Scanner)
    requires At(buf, s, State.InValueDq) == true
    ensures Inv(buf, Advance(ParseInValueDq(buf, s, buf[s.index]))) == true
  {
    var c := buf[s.index];
    if c == '"' {
      InValueDqOnQuote(buf, s);
      assert ParseInValueDq(buf, s, buf[s.index]) == Emit(buf, s, TokenKind.AttrValueDq, State.AfterOpenTag, s.index + 1);
    } else {
      InValueDqOnOther(buf, s);
      assert ParseInValueDq(buf, s, buf[s.index]) == s;
    }
  }

  lemma ClosingOpenTagStep(buf: string, s: Scanner)
    requires At(buf, s, State.ClosingOpenTag) == true
    ensures Inv(buf, Advance(ParseClosingOpenTag(buf, s, buf[s.index])))
  {
    var c := buf[s.index];
    if c == '>' {
      ClosingOpenTagOnGt(buf, s);
      assert ParseClosingOpenTag(buf, s, buf[s.index]) == EmitHere(buf, s, TokenKind.OpenTagEnd);
    } else {
      ClosingOpenTagOnOther(buf, s);
      assert ParseClosingOpenTag(buf, s, buf[s.index]) == ParseAfterOpenTag(buf, Emit(buf, s, TokenKind.AttrValueNq, State.AfterOpenTag, s.index), buf[Emit(buf, s, TokenKind.AttrValueNq, State.AfterOpenTag, s.index).index]);
    }
  }

  lemma OpeningSpecialStep(buf: string, s: Scanner)
    requires At(buf, s, State.OpeningSpecial) == true
    ensures Inv(buf, Advance(ParseOpeningSpecial(buf, s, buf[s.index])))
  {
    var c := buf[s.index];
    if c == '-' {
      OpeningSpecialOnDash(buf, s);
      assert ParseOpeningSpecial(buf, s, buf[s.index]) == s.(state := State.OpeningNormalComment, sectionStart := s.sectionStart);
    } else if c == 'd' || c == 'D' {
      OpeningSpecialOnD(buf, s);
      assert ParseOpeningSpecial(buf, s, buf[s.index]) == s.(state := State.OpeningDoctype, sectionStart := s.sectionStart);
    } else {
      OpeningSpecialOnOther(buf, s);
      assert ParseOpeningSpecial(buf, s, buf[s.index]) == Emit(buf, s, TokenKind.OpenTag, State.InShortComment, s.index);
    }
  }

  lemma OpeningNormalCommentStep(buf: string, s: Scanner)
    requires At(buf, s, State.OpeningNormalComment) == true
    ensures Inv(buf, Advance(ParseOpeningNormalComment(buf, s, buf[s.index])))
  {
    var c := buf[s.index];
    if c == '-' {
      OpeningNormalCommentOnDash(buf, s);
      assert ParseOpeningNormalComment(buf, s, buf[s.index]) == Emit(buf, s, TokenKind.OpenTag, State.InNormalComment, s.index + 1);
    } else {
      OpeningNormalCommentOnOther(buf, s);
      assert ParseOpeningNormalComment(buf, s, buf[s.index]) == Emit(buf, s, TokenKind.OpenTag, State.InShortComment, s.sectionStart + 1);
    }
  }

  lemma NormalCommentStep(buf: string, s: Scanner)
    requires At(buf, s, State.InNormalComment) == true
    ensures Inv(buf, Advance(ParseNormalComment(buf, s, buf[s.index])))
  {
    var c := buf[s.index];
    if c == '-' {
      NormalCommentOnDash(buf, s);
      assert ParseNormalComment(buf, s, buf[s.index]) == Emit(buf, s, TokenKind.Literal, State.ClosingNormalComment, s.index);
    } else {
      NormalCommentOnOther(buf, s);
      assert ParseNormalComment(buf, s, buf[s.index]) == s;
    }
  }

  lemma ShortCommentStep(buf: string, s: Scanner)
    requires At(buf, s, State.InShortComment) == true
    ensures Inv(buf, Advance(ParseShortComment(buf, s, buf[s.index])))
  {
    var c := buf[s.index];
    if c == '>' {
      ShortCommentOnGt(buf, s);
      assert ParseShortComment(buf, s, buf[s.index]) == EmitHere(buf, EmitHere(buf, s, TokenKind.Literal), TokenKind.OpenTagEnd);
    } else {
      ShortCommentOnOther(buf, s);
      assert ParseShortComment(buf, s, buf[s.index]) == s;
    }
  }

  lemma ClosingNormalCommentStep(buf: string, s: Scanner)
    requires At(buf, s, State.ClosingNormalComment) == true
    ensures Inv(buf, Advance(ParseClosingNormalComment(buf, s, buf[s.index])))
  {
    var c := buf[s.index];
    if s.index - s.sectionStart == 2 && c == '>' {
      ClosingNormalCommentOnGt(buf, s);
      assert ParseClosingNormalComment(buf, s, buf[s.index]) == EmitHere(buf, s, TokenKind.OpenTagEnd);
    } else if s.index - s.sectionStart == 2 && c == '-' {
      ClosingNormalCommentOnDash(buf, s);
      assert ParseClosingNormalComment(buf, s, buf[s.index]) == Emit(buf, s, TokenKind.Literal, s.state, s.sectionStart + 1);
    } else if c == '-' {
      ClosingNormalCommentOnSecondDash(buf, s);
      assert ParseClosingNormalComment(buf, s, buf[s.index]) == s;
    } else {
      ClosingNormalCommentOnOther(buf, s);
      assert ParseClosingNormalComment(buf, s, buf[s.index]) == s.(state := State.InNormalComment, sectionStart := s.sectionStart);
    }
  }

  lemma OpeningDoctypeStep(buf: string, s: Scanner)
    requires At(buf, s, State.OpeningDoctype) == true
    ensures ParseOpeningDoctype(buf, s, buf[s.index]).Ok? ==>
      Inv(buf, Advance(ParseOpeningDoctype(buf, s, buf[s.index]).value)) == true
  {
    var c, offset := buf[s.index], s.index - s.sectionStart;
    DoctypeBranches(buf, s, c);
    if offset == Doctype.length {
      if IsWhiteSpace(c) {
        OpeningDoctypeOnWs(buf, s);
      }
    } else if c == '>' {
      OpeningDoctypeOnGt(buf, s);
    } else if !CodeAt(Doctype.lower, offset, c) && !CodeAt(Doctype.upper, offset, c) {
      OpeningDoctypeOnMismatch(buf, s);
    } else {
      OpeningDoctypeOnMatch(buf, s);
    }
  }

  /** The result of `parseOpeningDoctype` branch by branch, with nothing assumed of the context. */
  lemma DoctypeBranches(buf: string, s: Scanner, c: char)
    ensures var offset := s.index - s.sectionStart;
      var r := ParseOpeningDoctype(buf, s, c);
      (offset == Doctype.length && IsWhiteSpace(c) ==> r == Ok(Emit(buf, s, TokenKind.OpenTag, State.AfterOpenTag, s.index))) &&
      (offset == Doctype.length && !IsWhiteSpace(c) ==> r.Err?) &&
      (offset != Doctype.length && c == '>' ==>
        r == Ok(EmitHere(buf, EmitHere(buf, Emit(buf, s, TokenKind.OpenTag, s.state, s.sectionStart + 1), TokenKind.Literal), TokenKind.OpenTagEnd))) &&
      (offset != Doctype.length && c != '>' && !CodeAt(Doctype.lower, offset, c) && !CodeAt(Doctype.upper, offset, c) ==>
        r == Ok(Emit(buf, s, TokenKind.OpenTag, State.InShortComment, s.sectionStart + 1))) &&
      (offset != Doctype.length && c != '>' && (CodeAt(Doctype.lower, offset, c) || CodeAt(Doctype.upper, offset, c)) ==>
        r == Ok(s))
  {
  }

  lemma ClosingTagStep(buf: string, s: Scanner)
    requires At(buf, s, State.ClosingTag) == true
    ensures Inv(buf, Advance(ParseClosingTag(buf, s, buf[s.index])))
  {
    if s.inStyle {
      RawClosingTagStep(buf, s, "style");
      assert ParseClosingTag(buf, s, buf[s.index]) == ParseRawClosingTag(buf, s, buf[s.index], MakeCodePoints("style"));
    } else if s.inScript {
      RawClosingTagStep(buf, s, "script");
      assert ParseClosingTag(buf, s, buf[s.index]) == ParseRawClosingTag(buf, s, buf[s.index], MakeCodePoints("script"));
    } else if buf[s.index] == '>' {
      ClosingTagOnGt(buf, s);
      assert ParseClosingTag(buf, s, buf[s.index]) == EmitHere(buf, s, TokenKind.CloseTag);
    } else {
      ClosingTagOnOther(buf, s);
      assert ParseClosingTag(buf, s, buf[s.index]) == s;
    }
  }

  /** One iteration of the driver loop keeps the invariant. */
  lemma DispatchStep(buf: string, s: Scanner)
    requires Inv(buf, s) && s.index < |buf|
    ensures Dispatch(buf, s, buf[s.index]).Ok? ==> Inv(buf, Advance(Dispatch(buf, s, buf[s.index]).value))
  {
    match s.state
    case Literal => LiteralStep(buf, s);
    case BeforeOpenTag => BeforeOpenTagStep(buf, s);
    case OpeningTag => OpeningTagStep(buf, s);
    case AfterOpenTag => AfterOpenTagStep(buf, s);
    case InValueNq => InValueNqStep(buf, s);
    case InValueSq => InValueSqStep(buf, s);
    case InValueDq => InValueDqStep(buf, s);
    case ClosingOpenTag => ClosingOpenTagStep(buf, s);
    case OpeningSpecial => OpeningSpecialStep(buf, s);
    case OpeningDoctype => OpeningDoctypeStep(buf, s);
    case OpeningNormalComment => OpeningNormalCommentStep(buf, s);
    case InNormalComment => NormalCommentStep(buf, s);
    case InShortComment => ShortCommentStep(buf, s);
    case ClosingNormalComment => ClosingNormalCommentStep(buf, s);
    case ClosingTag => ClosingTagStep(buf, s);
  }
}
