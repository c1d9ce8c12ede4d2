/**
 * What holds of the scanner's context at the head of every iteration of the
 * driver loop, and the proof that every handler keeps it.
 */
module Invariants {
  import opened Chars
  import opened Machine

  /** A character that can stand in an unquoted attribute value. */
  predicate NqChar(c: char) {
    !IsWhiteSpace(c) && c != '>' && c != '/' && c != '='
  }

  ghost predicate AllWhiteSpace(v: string) {
    forall i :: 0 <= i < |v| ==> IsWhiteSpace(v[i])
  }

  /** `v` opens and closes with the quote `q` and has no `q` in between. */
  ghost predicate Quoted(v: string, q: char) {
    |v| >= 2 && v[0] == q && v[|v| - 1] == q && forall i :: 0 < i < |v| - 1 ==> v[i] != q
  }

  /** An unquoted value: the lone `/` of `<a/b>`, or a non-empty run of `NqChar`s. */
  ghost predicate Unquoted(v: string) {
    v == "/" || (|v| > 0 && forall i :: 0 <= i < |v| ==> NqChar(v[i]))
  }

  /** What the value of a token of each kind looks like. */
  ghost predicate Shape(kind: TokenKind, v: string) {
    match kind
    case Literal => |v| > 0
    case OpenTag => IsLowerCase(v)
    case OpenTagEnd => v == "" || v == "/" || v == "--"
    case CloseTag => IsLowerCase(v)
    case Whitespace => |v| > 0 && AllWhiteSpace(v)
    case AttrValueEq => v == "="
    case AttrValueNq => Unquoted(v)
    case AttrValueSq => Quoted(v, '\'')
    case AttrValueDq => Quoted(v, '"')
  }

  /**
   * `t` is a token of `buf`: its span lies inside `buf`, its value is the
   * span's text (lower-cased for tag names) and has its kind's shape.
   */
  ghost predicate TokenOf(buf: string, t: Token) {
    0 <= t.start <= t.end <= |buf| &&
    t.value == NormalizeValue(t.kind, buf[t.start..t.end]) &&
    Shape(t.kind, t.value)
  }

  ghost predicate TokensOf(buf: string, ts: seq<Token>) {
    forall i :: 0 <= i < |ts| ==> TokenOf(buf, ts[i])
  }

  /** Tokens come in input order and do not overlap. */
  ghost predicate InOrder(ts: seq<Token>) {
    forall i :: 0 < i < |ts| ==> ts[i - 1].end <= ts[i].start
  }

  /** The element `name` is open at the end of `ts`: its OpenTag came after the last CloseTag. */
  function OpenRawTag(ts: seq<Token>, name: string): bool
    decreases |ts|
  {
    if ts == [] then false
    else
      var t := ts[|ts| - 1];
      if t.kind == TokenKind.CloseTag then false
      else (t.kind == TokenKind.OpenTag && t.value == name) || OpenRawTag(ts[..|ts| - 1], name)
  }

  ghost predicate IsRawOpen(t: Token) {
    t.kind == TokenKind.OpenTag && (t.value == "script" || t.value == "style")
  }

  /** After an OpenTag `script` or `style`, no OpenTag comes before a CloseTag. */
  ghost predicate NoTagInRawText(ts: seq<Token>) {
    forall i, j :: 0 <= i < j < |ts| && IsRawOpen(ts[i]) && ts[j].kind == TokenKind.OpenTag ==>
      exists k :: i < k < j && ts[k].kind == TokenKind.CloseTag
  }

  /**
   * The facts each emission establishes, token by token: every token is a
   * token of `buf`, starts at or after the end of the one before it, and an
   * OpenTag is never emitted while `script` or `style` is open.
   */
  ghost predicate Emitted(buf: string, ts: seq<Token>)
    decreases |ts|
  {
    ts == [] ||
    var front, t := ts[..|ts| - 1], ts[|ts| - 1];
    Emitted(buf, front) && TokenOf(buf, t) &&
    (|front| > 0 ==> front[|front| - 1].end <= t.start) &&
    (t.kind == TokenKind.OpenTag ==> !OpenRawTag(front, "script") && !OpenRawTag(front, "style"))
  }

  /** The facts about the emitted tokens, the section start and the raw-text flags. */
  ghost predicate TokensInv(buf: string, ts: seq<Token>, sectionStart: int, inScript: bool, inStyle: bool) {
    Emitted(buf, ts) &&
    (|ts| > 0 ==> ts[|ts| - 1].end <= sectionStart) &&
    inScript == OpenRawTag(ts, "script") &&
    inStyle == OpenRawTag(ts, "style") &&
    !(inScript && inStyle)
  }

  ghost predicate ScannerTokensInv(buf: string, s: Scanner) {
    TokensInv(buf, s.tokens, s.sectionStart, s.inScript, s.inStyle)
  }

  /** The states the machine can be in inside `script` or `style`. */
  predicate RawState(st: State) {
    st == State.Literal || st == State.BeforeOpenTag || st == State.ClosingTag ||
    st == State.AfterOpenTag || st == State.InValueNq || st == State.InValueSq ||
    st == State.InValueDq || st == State.ClosingOpenTag
  }

  /**
   * In raw text, the section after `</` matches `name` ignoring case and, past
   * the name, holds only whitespace.
   */
  ghost predicate NamePrefix(buf: string, from: int, to: int, name: string)
    requires 0 <= from <= to <= |buf|
  {
    forall k :: from <= k < to ==>
      if k - from < |name| then ToLower(buf[k]) == ToLower(name[k - from]) else IsWhiteSpace(buf[k])
  }

  lemma NamePrefixExtend(buf: string, from: int, to: int, name: string)
    requires 0 <= from <= to < |buf| && NamePrefix(buf, from, to, name)
    requires if to - from < |name| then ToLower(buf[to]) == ToLower(name[to - from]) else IsWhiteSpace(buf[to])
    ensures NamePrefix(buf, from, to + 1, name)
  {
  }

  /** The pending section `[ss, i)`, state by state. */
  ghost predicate SectionShape(buf: string, st: State, ss: int, i: int)
    requires 0 <= ss <= i <= |buf|
  {
    match st
    case Literal => true
    case BeforeOpenTag => ss + 1 == i && buf[ss] == '<'
    case OpeningTag => true
    case AfterOpenTag => forall k :: ss <= k < i ==> IsWhiteSpace(buf[k])
    case InValueNq => ss < i && forall k :: ss <= k < i ==> NqChar(buf[k])
    case InValueSq => ss < i && buf[ss] == '\'' && forall k :: ss < k < i ==> buf[k] != '\''
    case InValueDq => ss < i && buf[ss] == '"' && forall k :: ss < k < i ==> buf[k] != '"'
    case ClosingOpenTag => ss + 1 == i && buf[ss] == '/'
    case OpeningSpecial => 1 <= ss && ss + 1 == i && buf[ss - 1] == '<' && buf[ss] == '!'
    case OpeningDoctype =>
      1 <= ss && buf[ss - 1] == '<' && ss + 2 <= i <= ss + 8 && buf[ss] == '!' && NamePrefix(buf, ss, i, "!doctype")
    case OpeningNormalComment => ss + 2 == i && buf[ss] == '!' && buf[ss + 1] == '-'
    case InNormalComment => true
    case InShortComment => true
    case ClosingNormalComment => ss + 1 <= i <= ss + 2 && forall k :: ss <= k < i ==> buf[k] == '-'
    case ClosingTag => 2 <= ss && buf[ss - 2] == '<' && buf[ss - 1] == '/'
  }

  /**
   * In ClosingTag, the `</` lies after the last token, and inside raw text the
   * section spells the open element's name.
   */
  ghost predicate ClosingTagShape(buf: string, s: Scanner)
    requires 0 <= s.sectionStart <= s.index <= |buf|
  {
    (|s.tokens| > 0 ==> s.tokens[|s.tokens| - 1].end + 2 <= s.sectionStart) &&
    (s.inStyle ==> NamePrefix(buf, s.sectionStart, s.index, "style")) &&
    (s.inScript ==> NamePrefix(buf, s.sectionStart, s.index, "script"))
  }

  /** The loop invariant of the driver. */
  ghost predicate Inv(buf: string, s: Scanner) {
    0 <= s.sectionStart <= s.index <= |buf| &&
    TokensInv(buf, s.tokens, s.sectionStart, s.inScript, s.inStyle) &&
    ((s.inScript || s.inStyle) ==> RawState(s.state)) &&
    SectionShape(buf, s.state, s.sectionStart, s.index) &&
    (s.state == State.ClosingTag ==> ClosingTagShape(buf, s))
  }

  /** The context the next iteration starts from. */
  function Advance(s: Scanner): Scanner {
    s.(index := s.index + 1)
  }

  lemma {:induction false} ClosedAfter(ts: seq<Token>, name: string, i: int)
    requires 0 <= i < |ts| && ts[i].kind == TokenKind.OpenTag && ts[i].value == name
    requires !OpenRawTag(ts, name)
    ensures exists k :: i < k < |ts| && ts[k].kind == TokenKind.CloseTag
    decreases |ts|
  {
    var n := |ts| - 1;
    if ts[n].kind == TokenKind.CloseTag {
      assert i < n;
    } else {
      assert i < n;
      ClosedAfter(ts[..n], name, i);
      var k :| i < k < n && ts[..n][k].kind == TokenKind.CloseTag;
      assert ts[k] == ts[..n][k];
    }
  }

  lemma AppendOpenRawTag(ts: seq<Token>, t: Token, name: string)
    ensures OpenRawTag(ts + [t], name) ==
      (t.kind != TokenKind.CloseTag && ((t.kind == TokenKind.OpenTag && t.value == name) || OpenRawTag(ts, name)))
  {
    assert (ts + [t])[..|ts|] == ts;
  }

  lemma AppendEmitted(buf: string, ts: seq<Token>, t: Token)
    requires Emitted(buf, ts) && TokenOf(buf, t)
    requires |ts| > 0 ==> ts[|ts| - 1].end <= t.start
    requires t.kind == TokenKind.OpenTag ==> !OpenRawTag(ts, "script") && !OpenRawTag(ts, "style")
    ensures Emitted(buf, ts + [t])
  {
    assert (ts + [t])[..|ts|] == ts;
  }

  lemma {:induction false} EmittedTokensOf(buf: string, ts: seq<Token>)
    requires Emitted(buf, ts)
    ensures TokensOf(buf, ts)
    decreases |ts|
  {
    if ts != [] {
      var n := |ts| - 1;
      EmittedTokensOf(buf, ts[..n]);
      forall i | 0 <= i < |ts| ensures TokenOf(buf, ts[i]) {
        if i < n { assert ts[i] == ts[..n][i]; }
      }
    }
  }

  lemma {:induction false} EmittedInOrder(buf: string, ts: seq<Token>)
    requires Emitted(buf, ts)
    ensures InOrder(ts)
    decreases |ts|
  {
    if ts != [] {
      var n := |ts| - 1;
      EmittedInOrder(buf, ts[..n]);
      forall i | 0 < i < |ts| ensures ts[i - 1].end <= ts[i].start {
        if i < n { assert ts[i] == ts[..n][i] && ts[i - 1] == ts[..n][i - 1]; }
      }
    }
  }

  lemma {:induction false} EmittedNoTagInRawText(buf: string, ts: seq<Token>)
    requires Emitted(buf, ts)
    ensures NoTagInRawText(ts)
    decreases |ts|
  {
    if ts != [] {
      var n := |ts| - 1;
      var front := ts[..n];
      EmittedNoTagInRawText(buf, front);
      forall i, j | 0 <= i < j < |ts| && IsRawOpen(ts[i]) && ts[j].kind == TokenKind.OpenTag
        ensures exists k :: i < k < j && ts[k].kind == TokenKind.CloseTag
      {
        assert ts[i] == front[i];
        if j == n {
          ClosedAfter(front, front[i].value, i);
          var k :| i < k < n && front[k].kind == TokenKind.CloseTag;
          assert ts[k] == front[k];
        } else {
          assert ts[j] == front[j];
          var k :| i < k < j && front[k].kind == TokenKind.CloseTag;
          assert ts[k] == front[k];
        }
      }
    }
  }

  /** A section of `buf` of the right shape makes a token of `buf`. */
  lemma SectionToken(buf: string, start: int, end: int, kind: TokenKind)
    requires 0 <= start <= end <= |buf|
    requires kind != TokenKind.OpenTag && kind != TokenKind.CloseTag ==> Shape(kind, buf[start..end])
    ensures TokenOf(buf, Token(start, end, NormalizeValue(kind, buf[start..end]), kind))
  {
    LowerIsLowerCase(buf[start..end]);
  }

  /** Emitting a token of the right shape keeps the token facts. */
  lemma EmitKeeps(buf: string, s: Scanner, kind: TokenKind, newState: State, end: int)
    requires ScannerTokensInv(buf, s)
    requires 0 <= s.sectionStart <= end <= |buf|
    requires kind != TokenKind.OpenTag && kind != TokenKind.CloseTag && !Suppressed(kind, s.sectionStart, end) ==>
      Shape(kind, buf[s.sectionStart..end])
    requires kind == TokenKind.OpenTag ==> !s.inScript && !s.inStyle
    ensures ScannerTokensInv(buf, Emit(buf, s, kind, newState, end))
  {
    EmitParts(buf, s, kind, newState, end);
    if !Suppressed(kind, s.sectionStart, end) {
      AppendKeeps(buf, s, kind, end);
    }
  }

  /** The token list with the section appended keeps the token facts. */
  lemma AppendKeeps(buf: string, s: Scanner, kind: TokenKind, end: int)
    requires ScannerTokensInv(buf, s)
    requires 0 <= s.sectionStart <= end <= |buf|
    requires kind != TokenKind.OpenTag && kind != TokenKind.CloseTag ==> Shape(kind, buf[s.sectionStart..end])
    requires kind == TokenKind.OpenTag ==> !s.inScript && !s.inStyle
    ensures var t := Token(s.sectionStart, end, NormalizeValue(kind, buf[s.sectionStart..end]), kind);
      Emitted(buf, s.tokens + [t]) &&
      OpenRawTag(s.tokens + [t], "script") ==
        (kind != TokenKind.CloseTag && ((kind == TokenKind.OpenTag && t.value == "script") || s.inScript)) &&
      OpenRawTag(s.tokens + [t], "style") ==
        (kind != TokenKind.CloseTag && ((kind == TokenKind.OpenTag && t.value == "style") || s.inStyle))
  {
    var t := Token(s.sectionStart, end, NormalizeValue(kind, buf[s.sectionStart..end]), kind);
    SectionToken(buf, s.sectionStart, end, kind);
    AppendEmitted(buf, s.tokens, t);
    AppendOpenRawTag(s.tokens, t, "script");
    AppendOpenRawTag(s.tokens, t, "style");
  }

  /** The tokens, raw-text flags and section start `emitToken` leaves, field by field. */
  lemma EmitParts(buf: string, s: Scanner, kind: TokenKind, newState: State, end: int)
    requires 0 <= s.sectionStart <= end <= |buf|
    ensures var r := Emit(buf, s, kind, newState, end);
      var t := Token(s.sectionStart, end, NormalizeValue(kind, buf[s.sectionStart..end]), kind);
      r.tokens == (if Suppressed(kind, s.sectionStart, end) then s.tokens else s.tokens + [t]) &&
      r.inScript == (if kind == TokenKind.CloseTag then false
        else if kind == TokenKind.OpenTag && t.value == "script" then true else s.inScript) &&
      r.inStyle == (if kind == TokenKind.CloseTag then false
        else if kind == TokenKind.OpenTag && t.value == "style" then true else s.inStyle) &&
      r.sectionStart == (if kind == TokenKind.OpenTagEnd || kind == TokenKind.CloseTag then end + 1 else end)
  {
    var value := NormalizeValue(kind, buf[s.sectionStart..end]);
    assert Substring(buf, s.sectionStart, end) == buf[s.sectionStart..end];
    assert NormalizeValue(kind, Substring(buf, s.sectionStart, end)) == value;
  }


  lemma EmitFields(buf: string, s: Scanner, kind: TokenKind, newState: State, end: int)
    ensures Emit(buf, s, kind, newState, end).index == s.index
    ensures Emit(buf, s, kind, newState, end).state ==
      if kind == TokenKind.OpenTagEnd || kind == TokenKind.CloseTag then State.Literal else newState
    ensures Emit(buf, s, kind, newState, end).sectionStart ==
      if kind == TokenKind.OpenTagEnd || kind == TokenKind.CloseTag then end + 1 else end
    ensures kind != TokenKind.OpenTag && kind != TokenKind.CloseTag ==>
      Emit(buf, s, kind, newState, end).inScript == s.inScript &&
      Emit(buf, s, kind, newState, end).inStyle == s.inStyle
  {
  }

  /** The shape of a scanner the next iteration can start from. */
  lemma NextInv(buf: string, r: Scanner)
    requires ScannerTokensInv(buf, r)
    requires 0 <= r.sectionStart <= r.index + 1 <= |buf|
    requires (r.inScript || r.inStyle) ==> RawState(r.state)
    requires SectionShape(buf, r.state, r.sectionStart, r.index + 1) == true
    requires r.state == State.ClosingTag ==> ClosingTagShape(buf, Advance(r))
    ensures Inv(buf, Advance(r))
  {
  }

  /** Emitting `OpenTagEnd` or `CloseTag` at or before `index` keeps the invariant. */
  lemma EmitEndInv(buf: string, s: Scanner, kind: TokenKind, newState: State, end: int)
    requires ScannerTokensInv(buf, s)
    requires kind == TokenKind.OpenTagEnd || kind == TokenKind.CloseTag
    requires 0 <= s.sectionStart <= end <= s.index < |buf|
    requires kind == TokenKind.OpenTagEnd && !Suppressed(kind, s.sectionStart, end) ==>
      Shape(kind, buf[s.sectionStart..end])
    ensures Inv(buf, Advance(Emit(buf, s, kind, newState, end)))
  {
    EmitKeeps(buf, s, kind, newState, end);
    EmitFields(buf, s, kind, newState, end);
    NextInv(buf, Emit(buf, s, kind, newState, end));
  }

  /** The section shape carried over to a scanner with that state, section start and index. */
  lemma ShapeAt(buf: string, st: State, ss: int, i: int, r: Scanner)
    requires 0 <= ss <= i <= |buf|
    requires r.state == st && r.sectionStart == ss && r.index + 1 == i && SectionShape(buf, st, ss, i)
    ensures SectionShape(buf, r.state, r.sectionStart, r.index + 1) == true
  {
  }

  /** Emitting an `OpenTag` whose new state's section shape holds at `index + 1` keeps the invariant. */
  lemma EmitOpenInv(buf: string, s: Scanner, newState: State, end: int)
    requires ScannerTokensInv(buf, s) && !s.inScript && !s.inStyle
    requires 0 <= s.sectionStart <= end <= s.index + 1 && s.index < |buf|
    requires newState != State.ClosingTag && SectionShape(buf, newState, end, s.index + 1)
    requires (Lower(buf[s.sectionStart..end]) == "script" || Lower(buf[s.sectionStart..end]) == "style") ==> RawState(newState)
    ensures Inv(buf, Advance(Emit(buf, s, TokenKind.OpenTag, newState, end))) == true
  {
    EmitKeeps(buf, s, TokenKind.OpenTag, newState, end);
    EmitFields(buf, s, TokenKind.OpenTag, newState, end);
    EmitParts(buf, s, TokenKind.OpenTag, newState, end);
    var r := Emit(buf, s, TokenKind.OpenTag, newState, end);
    assert r.state == newState && r.sectionStart == end && r.index == s.index;
    assert r.inScript ==> Lower(buf[s.sectionStart..end]) == "script";
    assert r.inStyle ==> Lower(buf[s.sectionStart..end]) == "style";
    ShapeAt(buf, newState, end, s.index + 1, r);
    NextInv(buf, r);
  }

  /**
   * Emitting any other token whose new state's section shape holds at
   * `index + 1` keeps the invariant.
   */
  lemma EmitMoveInv(buf: string, s: Scanner, kind: TokenKind, newState: State, end: int)
    requires ScannerTokensInv(buf, s) == true
    requires kind != TokenKind.OpenTag && kind != TokenKind.OpenTagEnd && kind != TokenKind.CloseTag
    requires 0 <= s.sectionStart <= end <= s.index + 1 && s.index < |buf|
    requires (!Suppressed(kind, s.sectionStart, end) ==> Shape(kind, buf[s.sectionStart..end])) == true
    requires newState != State.ClosingTag && SectionShape(buf, newState, end, s.index + 1) == true
    requires (s.inScript || s.inStyle) ==> RawState(newState)
    ensures Inv(buf, Advance(Emit(buf, s, kind, newState, end))) == true
  {
    var r := Emit(buf, s, kind, newState, end);
    EmitKeeps(buf, s, kind, newState, end);
    EmitFields(buf, s, kind, newState, end);
    assert r.state == newState && r.sectionStart == end && r.index == s.index;
    assert r.inScript == s.inScript && r.inStyle == s.inStyle;
    NextInv(buf, r);
  }

  /** A move to state `st` with section start `ss`, emitting nothing, keeps the invariant. */
  lemma MoveInv(buf: string, s: Scanner, st: State, ss: int)
    requires ScannerTokensInv(buf, s)
    requires 0 <= ss <= s.index + 1 <= |buf|
    requires |s.tokens| > 0 ==> s.tokens[|s.tokens| - 1].end <= ss
    requires SectionShape(buf, st, ss, s.index + 1)
    requires (s.inScript || s.inStyle) ==> RawState(st)
    requires st == State.ClosingTag ==> ClosingTagShape(buf, Advance(s.(state := st, sectionStart := ss)))
    ensures Inv(buf, Advance(s.(state := st, sectionStart := ss)))
  {
  }
}
