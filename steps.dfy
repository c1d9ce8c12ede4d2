/**
 * What single steps promise: the emission discipline of `emitToken`, and the
 * handlers for raw text, quoted values, `=`, whitespace after a tag name and
 * `<!doctype`, each on a context satisfying the loop invariant.
 */
module Steps {
  import opened Chars
  import opened Machine
  import opened Invariants
  import opened Preservation

  /**
   * `emitToken(kind, newState, end)` appends the section `[sectionStart, end)`
   * as a token, its text lower-cased exactly for tag names, unless it is an
   * empty Literal or Whitespace; after OpenTagEnd and CloseTag the next
   * section starts past the `>` in state Literal, otherwise at `end` in
   * `newState`; an OpenTag `script` or `style` sets its flag, a CloseTag
   * clears both, and nothing else touches them.
   */
  lemma EmitToken(buf: string, s: Scanner, kind: TokenKind, newState: State, end: int)
    requires 0 <= s.sectionStart <= end <= |buf|
    ensures Emit(buf, s, kind, newState, end).index == s.index
    ensures Emit(buf, s, kind, newState, end).tokens ==
      if (kind == TokenKind.Literal || kind == TokenKind.Whitespace) && end == s.sectionStart then s.tokens
      else s.tokens + [Token(s.sectionStart, end,
        if kind == TokenKind.OpenTag || kind == TokenKind.CloseTag then Lower(buf[s.sectionStart..end])
        else buf[s.sectionStart..end], kind)]
    ensures kind == TokenKind.OpenTagEnd || kind == TokenKind.CloseTag ==>
      Emit(buf, s, kind, newState, end).state == State.Literal &&
      Emit(buf, s, kind, newState, end).sectionStart == end + 1
    ensures kind != TokenKind.OpenTagEnd && kind != TokenKind.CloseTag ==>
      Emit(buf, s, kind, newState, end).state == newState &&
      Emit(buf, s, kind, newState, end).sectionStart == end
    ensures kind == TokenKind.OpenTag ==>
      (Emit(buf, s, kind, newState, end).inScript <==> s.inScript || Lower(buf[s.sectionStart..end]) == "script") &&
      (Emit(buf, s, kind, newState, end).inStyle <==> s.inStyle || Lower(buf[s.sectionStart..end]) == "style")
    ensures kind == TokenKind.CloseTag ==>
      !Emit(buf, s, kind, newState, end).inScript && !Emit(buf, s, kind, newState, end).inStyle
    ensures kind != TokenKind.OpenTag && kind != TokenKind.CloseTag ==>
      Emit(buf, s, kind, newState, end).inScript == s.inScript &&
      Emit(buf, s, kind, newState, end).inStyle == s.inStyle
  {
    assert Substring(buf, s.sectionStart, end) == buf[s.sectionStart..end];
  }

  /** Inside `script` or `style`, the character read after `<` leads only to ClosingTag (on `/`) or back to Literal, and emits nothing. */
  lemma RawBeforeOpenTag(buf: string, s: Scanner, c: char)
    requires s.inScript || s.inStyle
    ensures ParseBeforeOpenTag(buf, s, c).tokens == s.tokens
    ensures ParseBeforeOpenTag(buf, s, c).state == State.ClosingTag || ParseBeforeOpenTag(buf, s, c).state == State.Literal
    ensures ParseBeforeOpenTag(buf, s, c).state == State.ClosingTag <==> c == '/'
  {
  }

  /** Inside raw text named `word`, a `<` after `</…` emits the `</…` read so far as a Literal. */
  lemma RawLtGivesBack(buf: string, s: Scanner, word: string)
    requires At(buf, s, State.ClosingTag) && RawFor(s, word)
    ensures ParseClosingTag(buf, s, '<').state == State.BeforeOpenTag
    ensures ParseClosingTag(buf, s, '<').sectionStart == s.index
    ensures ParseClosingTag(buf, s, '<').tokens ==
      s.tokens + [Token(s.sectionStart - 2, s.index, buf[s.sectionStart - 2..s.index], TokenKind.Literal)]
  {
    assert SectionShape(buf, State.ClosingTag, s.sectionStart, s.index);
    RawLtEmits(buf, s);
  }

  /** The emission behind `RawLtGivesBack`, on the bounds alone. */
  lemma RawLtEmits(buf: string, s: Scanner)
    requires s.inScript || s.inStyle
    requires 2 <= s.sectionStart <= s.index <= |buf|
    ensures ParseClosingTag(buf, s, '<') == Scanner(State.BeforeOpenTag, s.index, s.index,
      s.tokens + [Token(s.sectionStart - 2, s.index, buf[s.sectionStart - 2..s.index], TokenKind.Literal)],
      s.inScript, s.inStyle)
  {
    assert Substring(buf, s.sectionStart - 2, s.index) == buf[s.sectionStart - 2..s.index];
  }

  /**
   * Inside raw text named `word`, a `</` section emits a token on a
   * character other than `<` (which gives the `</…` back as a Literal, see
   * `RawLtGivesBack`) only on `>` once the whole name has been read; the
   * token is then a CloseTag whose text starts with the name, ignoring case.
   */
  lemma RawCloseTagNeedsName(buf: string, s: Scanner, c: char, word: string)
    requires At(buf, s, State.ClosingTag) && RawFor(s, word) && c != '<'
    ensures var r := ParseClosingTag(buf, s, c);
      |r.tokens| > |s.tokens| ==>
        c == '>' && s.index - s.sectionStart >= |word| &&
        Lower(buf[s.sectionStart..s.sectionStart + |word|]) == Lower(word) &&
        r.tokens == s.tokens + [Token(s.sectionStart, s.index, Lower(buf[s.sectionStart..s.index]), TokenKind.CloseTag)]
  {
    var ss, i := s.sectionStart, s.index;
    assert ParseClosingTag(buf, s, c) == ParseRawClosingTag(buf, s, c, MakeCodePoints(word));
    if c == '>' && i - ss >= |word| {
      var v := buf[ss..ss + |word|];
      assert forall k :: 0 <= k < |word| ==> Lower(v)[k] == Lower(word)[k];
      assert Substring(buf, ss, i) == buf[ss..i];
    } else {
      TableMatch(word, i - ss, c);
    }
  }

  /** Inside raw text named `word`, `>` after the whole name ends the element with a CloseTag. */
  lemma RawCloseTagOnName(buf: string, s: Scanner, word: string)
    requires At(buf, s, State.ClosingTag) && RawFor(s, word) && s.index - s.sectionStart >= |word|
    ensures ParseClosingTag(buf, s, '>').tokens ==
      s.tokens + [Token(s.sectionStart, s.index, Lower(buf[s.sectionStart..s.index]), TokenKind.CloseTag)]
    ensures !ParseClosingTag(buf, s, '>').inScript && !ParseClosingTag(buf, s, '>').inStyle
    ensures ParseClosingTag(buf, s, '>').state == State.Literal
  {
    assert ParseClosingTag(buf, s, '>') == ParseRawClosingTag(buf, s, '>', MakeCodePoints(word));
    assert Substring(buf, s.sectionStart, s.index) == buf[s.sectionStart..s.index];
  }

  /**
   * Inside raw text named `word`, a character other than `<` (for which see
   * `RawLtGivesBack`) that does not continue the name, or after the whole
   * name one that is neither whitespace nor `>`, gives the `</` back to the text: the section start moves back two
   * characters, the state is Literal, and nothing is emitted.
   */
  lemma RawMismatchRewinds(buf: string, s: Scanner, c: char, word: string)
    requires At(buf, s, State.ClosingTag) && RawFor(s, word) && c != '<'
    requires if s.index - s.sectionStart < |word| then ToLower(c) != ToLower(word[s.index - s.sectionStart])
      else !IsWhiteSpace(c) && c != '>'
    ensures ParseClosingTag(buf, s, c) == s.(sectionStart := s.sectionStart - 2, state := State.Literal)
  {
    assert ParseClosingTag(buf, s, c) == ParseRawClosingTag(buf, s, c, MakeCodePoints(word));
    if s.index - s.sectionStart < |word| {
      TableMatch(word, s.index - s.sectionStart, c);
    }
  }

  /** A closing quote ends a quoted value: the token spans both quotes, and attributes resume. */
  lemma QuotedValueEnds(buf: string, s: Scanner, q: char)
    requires (q == '\'' && At(buf, s, State.InValueSq)) || (q == '"' && At(buf, s, State.InValueDq))
    requires buf[s.index] == q
    ensures var r := if q == '\'' then ParseInValueSq(buf, s, q) else ParseInValueDq(buf, s, q);
      r.state == State.AfterOpenTag && r.sectionStart == s.index + 1 &&
      |r.tokens| == |s.tokens| + 1 && r.tokens[..|s.tokens|] == s.tokens &&
      var t := r.tokens[|s.tokens|];
      t.start == s.sectionStart && t.end == s.index + 1 &&
      t.kind == (if q == '\'' then TokenKind.AttrValueSq else TokenKind.AttrValueDq) &&
      t.value == buf[s.sectionStart..s.index + 1] && Quoted(t.value, q)
  {
    var ss, i := s.sectionStart, s.index;
    assert SectionShape(buf, s.state, ss, i);
    QuotedSection(buf, ss, i, q);
    QuoteEmits(buf, s, q);
  }

  /** The emission behind `QuotedValueEnds`, on the bounds alone. */
  lemma QuoteEmits(buf: string, s: Scanner, q: char)
    requires 0 <= s.sectionStart <= s.index < |buf|
    ensures var r := if q == '\'' then ParseInValueSq(buf, s, q) else ParseInValueDq(buf, s, q);
      q == '\'' || q == '"' ==>
      r == Scanner(State.AfterOpenTag, s.index + 1, s.index,
        s.tokens + [Token(s.sectionStart, s.index + 1, buf[s.sectionStart..s.index + 1],
          if q == '\'' then TokenKind.AttrValueSq else TokenKind.AttrValueDq)],
        s.inScript, s.inStyle)
  {
    assert Substring(buf, s.sectionStart, s.index + 1) == buf[s.sectionStart..s.index + 1];
  }

  /** `=` in the attribute list is a one-character AttrValueEq token, and the gap before it is flushed first. */
  lemma EqualsToken(buf: string, s: Scanner)
    requires At(buf, s, State.AfterOpenTag) && buf[s.index] == '='
    ensures var r := ParseAfterOpenTag(buf, s, '=');
      |r.tokens| > 0 &&
      r.tokens[|r.tokens| - 1] == Token(s.index, s.index + 1, "=", TokenKind.AttrValueEq) &&
      r.state == State.AfterOpenTag && r.sectionStart == s.index + 1
  {
    var i := s.index;
    var s1 := EmitHere(buf, s, TokenKind.Whitespace);
    assert Substring(buf, i, i + 1) == buf[i..i + 1] == "=";
  }

  /** `=` right after an unquoted name emits the name as an AttrValueNq and then the `=` as a one-character AttrValueEq. */
  lemma EqualsAfterName(buf: string, s: Scanner)
    requires At(buf, s, State.InValueNq) && buf[s.index] == '='
    ensures var r := ParseInValueNq(buf, s, '=');
      r.tokens == s.tokens + [Token(s.sectionStart, s.index, buf[s.sectionStart..s.index], TokenKind.AttrValueNq),
                              Token(s.index, s.index + 1, "=", TokenKind.AttrValueEq)] &&
      r.state == State.AfterOpenTag && r.sectionStart == s.index + 1
  {
    var ss, i := s.sectionStart, s.index;
    assert Substring(buf, ss, i) == buf[ss..i];
    assert Substring(buf, i, i + 1) == buf[i..i + 1] == "=";
  }

  /** Whitespace after a tag name emits the name, lower-cased, as an OpenTag and moves to AfterOpenTag. */
  lemma TagNameEnds(buf: string, s: Scanner)
    requires At(buf, s, State.OpeningTag) && IsWhiteSpace(buf[s.index])
    ensures var r := ParseOpeningTag(buf, s, buf[s.index]);
      r.tokens == s.tokens + [Token(s.sectionStart, s.index, Lower(buf[s.sectionStart..s.index]), TokenKind.OpenTag)] &&
      IsLowerCase(r.tokens[|s.tokens|].value) &&
      r.state == State.AfterOpenTag && r.sectionStart == s.index
  {
    assert Substring(buf, s.sectionStart, s.index) == buf[s.sectionStart..s.index];
    LowerIsLowerCase(buf[s.sectionStart..s.index]);
  }

  /** OpeningDoctype fails exactly when the whole `!doctype` has been read and the character is not whitespace. */
  lemma DoctypeStep(buf: string, s: Scanner, c: char)
    requires At(buf, s, State.OpeningDoctype)
    ensures ParseOpeningDoctype(buf, s, c).Err? <==> s.index - s.sectionStart == 8 && !IsWhiteSpace(c)
  {
  }

  /** Whitespace after the whole `!doctype` emits it, lower-cased, as an OpenTag and moves to AfterOpenTag. */
  lemma DoctypeThenSpace(buf: string, s: Scanner, c: char)
    requires At(buf, s, State.OpeningDoctype) && s.index - s.sectionStart == 8 && IsWhiteSpace(c)
    ensures ParseOpeningDoctype(buf, s, c) ==
      Ok(s.(state := State.AfterOpenTag, sectionStart := s.index,
            tokens := s.tokens + [Token(s.sectionStart, s.index, "!doctype", TokenKind.OpenTag)]))
  {
    var ss, i := s.sectionStart, s.index;
    var v := buf[ss..i];
    assert forall k :: 0 <= k < 8 ==> Lower(v)[k] == ToLower("!doctype"[k]);
    assert Lower(v) == "!doctype";
    assert Substring(buf, ss, i) == v;
  }
}
