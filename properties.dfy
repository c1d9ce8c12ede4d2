/**
 * What a whole run promises: the tokens are sections of the input in order,
 * tag names are lower-cased, nothing is opened inside `script` or `style`,
 * the only failure is a `<!doctype` run straight into a non-space, and text
 * without `<` is one Literal.
 */
module Properties {
  import opened Chars
  import opened Machine
  import opened Invariants
  import opened Preservation

  // ---------------------------------------------------------------------
  // The driver loop
  // ---------------------------------------------------------------------

  /** No handler moves `index`: only the driver advances it. */
  lemma DispatchIndex(buf: string, s: Scanner, c: char)
    ensures Dispatch(buf, s, c).Ok? ==> Dispatch(buf, s, c).value.index == s.index
  {
    match s.state
    case Literal =>
    case BeforeOpenTag =>
    case OpeningTag =>
    case AfterOpenTag =>
    case InValueNq =>
    case InValueSq =>
    case InValueDq =>
    case ClosingOpenTag =>
    case OpeningSpecial =>
    case OpeningDoctype =>
    case OpeningNormalComment =>
    case InNormalComment =>
    case InShortComment =>
    case ClosingNormalComment =>
    case ClosingTag =>
  }

  /** A run of the loop that does not fail consumes the whole input and keeps the invariant. */
  lemma {:induction false} LoopKeeps(buf: string, s: Scanner)
    requires Inv(buf, s)
    ensures Loop(buf, s).Ok? ==> Inv(buf, Loop(buf, s).value) && Loop(buf, s).value.index == |buf|
    decreases |buf| - s.index
  {
    if s.index < |buf| {
      DispatchStep(buf, s);
      DispatchIndex(buf, s, buf[s.index]);
      match Dispatch(buf, s, buf[s.index])
      case Err(_) =>
      case Ok(s1) =>
        assert Advance(s1) == s1.(index := s.index + 1);
        LoopKeeps(buf, s1.(index := s.index + 1));
    }
  }

  /** `buf[p..]` starts with `<!doctype`, in any mix of case. */
  ghost predicate DoctypeAt(buf: string, p: int) {
    0 <= p && p + 9 <= |buf| && buf[p] == '<' && Lower(buf[p + 1..p + 9]) == Lower("!doctype")
  }

  /** A `<!doctype` at `p` followed by a character that is not whitespace. */
  ghost predicate BadDoctypeAt(buf: string, p: int) {
    DoctypeAt(buf, p) && p + 9 < |buf| && !IsWhiteSpace(buf[p + 9])
  }

  /** The one handler failure, seen from the invariant: the section spells `!doctype` and the next character is not whitespace. */
  lemma DispatchErr(buf: string, s: Scanner)
    requires Inv(buf, s) && s.index < |buf|
    requires Dispatch(buf, s, buf[s.index]).Err?
    ensures Dispatch(buf, s, buf[s.index]).error == Unexpected(s.index, State.OpeningDoctype)
    ensures BadDoctypeAt(buf, s.index - 9)
  {
    var ss, i := s.sectionStart, s.index;
    assert s.state == State.OpeningDoctype;
    assert i - ss == 8;
    var v := buf[ss..i];
    assert forall k :: 0 <= k < 8 ==> Lower(v)[k] == Lower("!doctype")[k];
    assert buf[i - 8..i] == v;
  }

  /** A loop run that fails stopped at a `<!doctype` followed by a non-space, in state OpeningDoctype. */
  lemma {:induction false} LoopErr(buf: string, s: Scanner)
    requires Inv(buf, s)
    requires Loop(buf, s).Err?
    ensures Loop(buf, s).error.state == State.OpeningDoctype
    ensures BadDoctypeAt(buf, Loop(buf, s).error.index - 9)
    decreases |buf| - s.index
  {
    assert s.index < |buf|;
    match Dispatch(buf, s, buf[s.index])
    case Err(_) =>
      DispatchErr(buf, s);
    case Ok(s1) =>
      DispatchStep(buf, s);
      DispatchIndex(buf, s, buf[s.index]);
      var next := s1.(index := s.index + 1);
      assert Advance(s1) == next;
      assert Loop(buf, s) == Loop(buf, next);
      LoopErr(buf, next);
  }

  // ---------------------------------------------------------------------
  // Finalisation
  // ---------------------------------------------------------------------

  /** The flush of an OpeningDoctype section keeps the token facts. */
  lemma FinishDoctype(buf: string, s: Scanner)
    requires Inv(buf, s) && s.index == |buf| && s.state == State.OpeningDoctype
    ensures Emitted(buf, Finish(buf, s).tokens)
  {
    if s.index - s.sectionStart == Doctype.length {
      EmitKeeps(buf, s, TokenKind.OpenTag, s.state, s.index);
    } else {
      BangLiteral(buf, s);
    }
  }

  /** The flush of an OpeningNormalComment section keeps the token facts. */
  lemma FinishOpeningNormalComment(buf: string, s: Scanner)
    requires Inv(buf, s) && s.index == |buf| && s.state == State.OpeningNormalComment
    ensures Emitted(buf, Finish(buf, s).tokens)
  {
    EmitKeeps(buf, s, TokenKind.OpenTag, s.state, s.index);
    assert Finish(buf, s) == EmitHere(buf, s, TokenKind.OpenTag);
  }

  /** Flushing the pending section as a token of kind `kind` keeps the token facts. */
  lemma FlushKeeps(buf: string, s: Scanner, kind: TokenKind)
    requires Inv(buf, s) && s.index == |buf|
    requires kind == TokenKind.Literal || kind == TokenKind.CloseTag || (kind == TokenKind.OpenTag && !s.inScript && !s.inStyle)
    ensures Emitted(buf, EmitHere(buf, s, kind).tokens)
  {
    EmitKeeps(buf, s, kind, s.state, s.index);
  }

  /** The end-of-input flush emits only well-formed tokens. */
  lemma FinishKeeps(buf: string, s: Scanner)
    requires Inv(buf, s) && s.index == |buf|
    ensures Emitted(buf, Finish(buf, s).tokens)
  {
    match s.state
    case Literal | BeforeOpenTag | InValueNq | InValueSq | InValueDq | ClosingOpenTag
      | InNormalComment | InShortComment | ClosingNormalComment =>
      FlushKeeps(buf, s, TokenKind.Literal);
      assert Finish(buf, s) == EmitHere(buf, s, TokenKind.Literal);
    case OpeningTag =>
      FlushKeeps(buf, s, TokenKind.OpenTag);
      assert Finish(buf, s) == EmitHere(buf, s, TokenKind.OpenTag);
    case AfterOpenTag =>
    case OpeningSpecial =>
      EmitKeeps(buf, s, TokenKind.OpenTag, State.InShortComment, s.index);
      assert Finish(buf, s) == Emit(buf, s, TokenKind.OpenTag, State.InShortComment, s.index);
    case OpeningDoctype => FinishDoctype(buf, s);
    case OpeningNormalComment => FinishOpeningNormalComment(buf, s);
    case ClosingTag =>
      FlushKeeps(buf, s, TokenKind.CloseTag);
      assert Finish(buf, s) == EmitHere(buf, s, TokenKind.CloseTag);
  }

  // ---------------------------------------------------------------------
  // Whole runs
  // ---------------------------------------------------------------------

  /**
   * Every token `tokenize` returns is a section of the input whose value is
   * the section's text, lower-cased exactly for tag names, and has its kind's
   * shape; tokens come in input order; and after an OpenTag `script` or
   * `style` no OpenTag is emitted before a CloseTag.
   */
  lemma TokenizeSound(buf: string)
    ensures Tokenize(buf).Ok? ==>
      TokensOf(buf, Tokenize(buf).value) &&
      InOrder(Tokenize(buf).value) &&
      NoTagInRawText(Tokenize(buf).value)
  {
    assert Inv(buf, Init());
    LoopKeeps(buf, Init());
    if Loop(buf, Init()).Ok? {
      var s := Loop(buf, Init()).value;
      FinishKeeps(buf, s);
      var ts := Finish(buf, s).tokens;
      EmittedTokensOf(buf, ts);
      EmittedInOrder(buf, ts);
      EmittedNoTagInRawText(buf, ts);
    }
  }

  /**
   * `tokenize` fails only by `unexpected()` in state OpeningDoctype, nine
   * characters after a `<!doctype` (any case) that is followed by a non-space.
   */
  lemma TokenizeErr(buf: string)
    ensures Tokenize(buf).Err? ==>
      Tokenize(buf).error.state == State.OpeningDoctype &&
      BadDoctypeAt(buf, Tokenize(buf).error.index - 9)
  {
    assert Inv(buf, Init());
    if Loop(buf, Init()).Err? {
      LoopErr(buf, Init());
    }
  }

  /** The loop from OpeningDoctype at offset `k`, over the rest of a `<!doctype` that runs into a non-space, fails. */
  lemma {:induction false} DoctypeRunFails(buf: string, k: nat)
    requires BadDoctypeAt(buf, 0) && 3 <= k <= 9
    ensures Loop(buf, Scanner(State.OpeningDoctype, 1, k, [], false, false)).Err?
    decreases 9 - k
  {
    var s := Scanner(State.OpeningDoctype, 1, k, [], false, false);
    if k < 9 {
      assert Lower(buf[1..9])[k - 1] == Lower("!doctype")[k - 1];
      TableMatch("!doctype", k - 1, buf[k]);
      assert ParseOpeningDoctype(buf, s, buf[k]) == Ok(s);
      DoctypeRunFails(buf, k + 1);
    }
  }

  /** An input that starts with `<!doctype` (any case) followed by a non-space makes `tokenize` fail. */
  lemma DoctypeFails(buf: string)
    requires BadDoctypeAt(buf, 0)
    ensures Tokenize(buf).Err?
  {
    assert Lower(buf[1..9])[0] == '!' && Lower(buf[1..9])[1] == 'd';
    var s0 := Init();
    var s1 := Scanner(State.BeforeOpenTag, 0, 1, [], false, false);
    var s2 := Scanner(State.OpeningSpecial, 1, 2, [], false, false);
    var s3 := Scanner(State.OpeningDoctype, 1, 3, [], false, false);
    assert Dispatch(buf, s0, buf[0]) == Ok(s1.(index := 0));
    assert Dispatch(buf, s1, buf[1]) == Ok(s2.(index := 1));
    assert Dispatch(buf, s2, buf[2]) == Ok(s3.(index := 2));
    DoctypeRunFails(buf, 3);
    assert Loop(buf, s2).Err?;
    assert Loop(buf, s1).Err?;
  }

  /** Without a `<` the machine never leaves Literal and emits nothing until the end. */
  lemma {:induction false} LoopLiteral(buf: string, i: nat)
    requires i <= |buf| && forall k :: 0 <= k < |buf| ==> buf[k] != '<'
    ensures Loop(buf, Scanner(State.Literal, 0, i, [], false, false)) ==
      Ok(Scanner(State.Literal, 0, |buf|, [], false, false))
    decreases |buf| - i
  {
    if i < |buf| {
      LoopLiteral(buf, i + 1);
    }
  }

  /** Text without `<` is one Literal token spanning the input, or no token when the input is empty. */
  lemma LiteralOnly(buf: string)
    requires forall k :: 0 <= k < |buf| ==> buf[k] != '<'
    ensures Tokenize(buf) == Ok(if buf == [] then [] else [Token(0, |buf|, buf, TokenKind.Literal)])
  {
    LoopLiteral(buf, 0);
    var s := Scanner(State.Literal, 0, |buf|, [], false, false);
    assert buf[0..|buf|] == buf;
    assert Substring(buf, 0, |buf|) == buf;
    assert Init() == Scanner(State.Literal, 0, 0, [], false, false);
    assert Loop(buf, Init()) == Ok(s);
    assert Finish(buf, s) == EmitHere(buf, s, TokenKind.Literal);
    assert Finish(buf, s).tokens == if buf == [] then [] else [Token(0, |buf|, buf, TokenKind.Literal)];
  }
}
