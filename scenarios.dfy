/**
 * Worked runs of the machine on small inputs, each proved to produce exactly
 * the listed tokens (or the listed error).  Each run is split into parts that
 * advance the loop a few characters at a time; `…Text` collects the facts
 * about the input's characters and sections that the parts use.
 */
module Scenarios {
  import opened Chars
  import opened Machine

  const UpperTag := "<DIV>"

  lemma UpperTagText()
    ensures UpperTag[0] == '<' && UpperTag[1] == 'D' && UpperTag[2] == 'I' && UpperTag[3] == 'V' && UpperTag[4] == '>'
    ensures |UpperTag| == 5
    ensures UpperTag[1..4] == "DIV"
    ensures Lower("DIV") == "div"
  {
    assert UpperTag[0] == '<' && UpperTag[1] == 'D' && UpperTag[2] == 'I' && UpperTag[3] == 'V' && UpperTag[4] == '>';
    assert UpperTag[1..4] == [UpperTag[1], UpperTag[2], UpperTag[3]];
  }

  lemma UpperTagPart1()
    ensures Loop(UpperTag, Init()) == Loop(UpperTag, Scanner(State.OpeningTag, 1, 4, [], false, false))
  {
    UpperTagText();
    assert Emit(UpperTag, Scanner(State.Literal, 0, 0, [], false, false), TokenKind.Literal, State.BeforeOpenTag, 0) == Scanner(State.BeforeOpenTag, 0, 0, [], false, false);
    assert Dispatch(UpperTag, Scanner(State.Literal, 0, 0, [], false, false), UpperTag[0]) == Ok(Scanner(State.BeforeOpenTag, 0, 0, [], false, false));
    assert Loop(UpperTag, Scanner(State.Literal, 0, 0, [], false, false)) == Loop(UpperTag, Scanner(State.BeforeOpenTag, 0, 1, [], false, false));
    assert Dispatch(UpperTag, Scanner(State.BeforeOpenTag, 0, 1, [], false, false), UpperTag[1]) == Ok(Scanner(State.OpeningTag, 1, 1, [], false, false));
    assert Loop(UpperTag, Scanner(State.BeforeOpenTag, 0, 1, [], false, false)) == Loop(UpperTag, Scanner(State.OpeningTag, 1, 2, [], false, false));
    assert Dispatch(UpperTag, Scanner(State.OpeningTag, 1, 2, [], false, false), UpperTag[2]) == Ok(Scanner(State.OpeningTag, 1, 2, [], false, false));
    assert Loop(UpperTag, Scanner(State.OpeningTag, 1, 2, [], false, false)) == Loop(UpperTag, Scanner(State.OpeningTag, 1, 3, [], false, false));
    assert Dispatch(UpperTag, Scanner(State.OpeningTag, 1, 3, [], false, false), UpperTag[3]) == Ok(Scanner(State.OpeningTag, 1, 3, [], false, false));
    assert Loop(UpperTag, Scanner(State.OpeningTag, 1, 3, [], false, false)) == Loop(UpperTag, Scanner(State.OpeningTag, 1, 4, [], false, false));
  }

  lemma UpperTagPart2()
    ensures Loop(UpperTag, Scanner(State.OpeningTag, 1, 4, [], false, false)) == Loop(UpperTag, Scanner(State.Literal, 5, 5, [Token(1, 4, "div", TokenKind.OpenTag), Token(4, 4, "", TokenKind.OpenTagEnd)], false, false))
  {
    UpperTagText();
    assert Emit(UpperTag, Scanner(State.OpeningTag, 1, 4, [], false, false), TokenKind.OpenTag, State.OpeningTag, 4) == Scanner(State.OpeningTag, 4, 4, [Token(1, 4, "div", TokenKind.OpenTag)], false, false);
    assert Emit(UpperTag, Scanner(State.OpeningTag, 4, 4, [Token(1, 4, "div", TokenKind.OpenTag)], false, false), TokenKind.OpenTagEnd, State.OpeningTag, 4) == Scanner(State.Literal, 5, 4, [Token(1, 4, "div", TokenKind.OpenTag), Token(4, 4, "", TokenKind.OpenTagEnd)], false, false);
    assert Dispatch(UpperTag, Scanner(State.OpeningTag, 1, 4, [], false, false), UpperTag[4]) == Ok(Scanner(State.Literal, 5, 4, [Token(1, 4, "div", TokenKind.OpenTag), Token(4, 4, "", TokenKind.OpenTagEnd)], false, false));
    assert Loop(UpperTag, Scanner(State.OpeningTag, 1, 4, [], false, false)) == Loop(UpperTag, Scanner(State.Literal, 5, 5, [Token(1, 4, "div", TokenKind.OpenTag), Token(4, 4, "", TokenKind.OpenTagEnd)], false, false));
  }

  /** A tag name is lower-cased, and a bare `>` ends the tag with an empty OpenTagEnd. */
  lemma UpperTagTokens()
    ensures Tokenize(UpperTag) == Ok([Token(1, 4, "div", TokenKind.OpenTag), Token(4, 4, "", TokenKind.OpenTagEnd)])
  {
    UpperTagText();
    UpperTagPart1();
    UpperTagPart2();
    assert Loop(UpperTag, Scanner(State.Literal, 5, 5, [Token(1, 4, "div", TokenKind.OpenTag), Token(4, 4, "", TokenKind.OpenTagEnd)], false, false)) == Ok(Scanner(State.Literal, 5, 5, [Token(1, 4, "div", TokenKind.OpenTag), Token(4, 4, "", TokenKind.OpenTagEnd)], false, false));
    assert Emit(UpperTag, Scanner(State.Literal, 5, 5, [Token(1, 4, "div", TokenKind.OpenTag), Token(4, 4, "", TokenKind.OpenTagEnd)], false, false), TokenKind.Literal, State.Literal, 5) == Scanner(State.Literal, 5, 5, [Token(1, 4, "div", TokenKind.OpenTag), Token(4, 4, "", TokenKind.OpenTagEnd)], false, false);
    assert Finish(UpperTag, Scanner(State.Literal, 5, 5, [Token(1, 4, "div", TokenKind.OpenTag), Token(4, 4, "", TokenKind.OpenTagEnd)], false, false)).tokens == [Token(1, 4, "div", TokenKind.OpenTag), Token(4, 4, "", TokenKind.OpenTagEnd)];
  }

  const SelfClosing := "<div/>"

  lemma SelfClosingText()
    ensures SelfClosing[0] == '<' && SelfClosing[1] == 'd' && SelfClosing[2] == 'i' && SelfClosing[3] == 'v' && SelfClosing[4] == '/' && SelfClosing[5] == '>'
    ensures |SelfClosing| == 6
    ensures SelfClosing[1..4] == "div"
    ensures SelfClosing[4..5] == "/"
    ensures Lower("div") == "div"
  {
    assert SelfClosing[0] == '<' && SelfClosing[1] == 'd' && SelfClosing[2] == 'i' && SelfClosing[3] == 'v' && SelfClosing[4] == '/' && SelfClosing[5] == '>';
    assert SelfClosing[1..4] == [SelfClosing[1], SelfClosing[2], SelfClosing[3]];
    assert SelfClosing[4..5] == [SelfClosing[4]];
  }

  lemma SelfClosingPart1()
    ensures Loop(SelfClosing, Init()) == Loop(SelfClosing, Scanner(State.OpeningTag, 1, 4, [], false, false))
  {
    SelfClosingText();
    assert Emit(SelfClosing, Scanner(State.Literal, 0, 0, [], false, false), TokenKind.Literal, State.BeforeOpenTag, 0) == Scanner(State.BeforeOpenTag, 0, 0, [], false, false);
    assert Dispatch(SelfClosing, Scanner(State.Literal, 0, 0, [], false, false), SelfClosing[0]) == Ok(Scanner(State.BeforeOpenTag, 0, 0, [], false, false));
    assert Loop(SelfClosing, Scanner(State.Literal, 0, 0, [], false, false)) == Loop(SelfClosing, Scanner(State.BeforeOpenTag, 0, 1, [], false, false));
    assert Dispatch(SelfClosing, Scanner(State.BeforeOpenTag, 0, 1, [], false, false), SelfClosing[1]) == Ok(Scanner(State.OpeningTag, 1, 1, [], false, false));
    assert Loop(SelfClosing, Scanner(State.BeforeOpenTag, 0, 1, [], false, false)) == Loop(SelfClosing, Scanner(State.OpeningTag, 1, 2, [], false, false));
    assert Dispatch(SelfClosing, Scanner(State.OpeningTag, 1, 2, [], false, false), SelfClosing[2]) == Ok(Scanner(State.OpeningTag, 1, 2, [], false, false));
    assert Loop(SelfClosing, Scanner(State.OpeningTag, 1, 2, [], false, false)) == Loop(SelfClosing, Scanner(State.OpeningTag, 1, 3, [], false, false));
    assert Dispatch(SelfClosing, Scanner(State.OpeningTag, 1, 3, [], false, false), SelfClosing[3]) == Ok(Scanner(State.OpeningTag, 1, 3, [], false, false));
    assert Loop(SelfClosing, Scanner(State.OpeningTag, 1, 3, [], false, false)) == Loop(SelfClosing, Scanner(State.OpeningTag, 1, 4, [], false, false));
  }

  lemma SelfClosingPart2()
    ensures Loop(SelfClosing, Scanner(State.OpeningTag, 1, 4, [], false, false)) == Loop(SelfClosing, Scanner(State.Literal, 6, 6, [Token(1, 4, "div", TokenKind.OpenTag), Token(4, 5, "/", TokenKind.OpenTagEnd)], false, false))
  {
    SelfClosingText();
    assert Emit(SelfClosing, Scanner(State.OpeningTag, 1, 4, [], false, false), TokenKind.OpenTag, State.ClosingOpenTag, 4) == Scanner(State.ClosingOpenTag, 4, 4, [Token(1, 4, "div", TokenKind.OpenTag)], false, false);
    assert Dispatch(SelfClosing, Scanner(State.OpeningTag, 1, 4, [], false, false), SelfClosing[4]) == Ok(Scanner(State.ClosingOpenTag, 4, 4, [Token(1, 4, "div", TokenKind.OpenTag)], false, false));
    assert Loop(SelfClosing, Scanner(State.OpeningTag, 1, 4, [], false, false)) == Loop(SelfClosing, Scanner(State.ClosingOpenTag, 4, 5, [Token(1, 4, "div", TokenKind.OpenTag)], false, false));
    assert Emit(SelfClosing, Scanner(State.ClosingOpenTag, 4, 5, [Token(1, 4, "div", TokenKind.OpenTag)], false, false), TokenKind.OpenTagEnd, State.ClosingOpenTag, 5) == Scanner(State.Literal, 6, 5, [Token(1, 4, "div", TokenKind.OpenTag), Token(4, 5, "/", TokenKind.OpenTagEnd)], false, false);
    assert Dispatch(SelfClosing, Scanner(State.ClosingOpenTag, 4, 5, [Token(1, 4, "div", TokenKind.OpenTag)], false, false), SelfClosing[5]) == Ok(Scanner(State.Literal, 6, 5, [Token(1, 4, "div", TokenKind.OpenTag), Token(4, 5, "/", TokenKind.OpenTagEnd)], false, false));
    assert [Token(1, 4, "div", TokenKind.OpenTag)] + [Token(4, 5, "/", TokenKind.OpenTagEnd)] == [Token(1, 4, "div", TokenKind.OpenTag), Token(4, 5, "/", TokenKind.OpenTagEnd)];
    assert Loop(SelfClosing, Scanner(State.ClosingOpenTag, 4, 5, [Token(1, 4, "div", TokenKind.OpenTag)], false, false)) == Loop(SelfClosing, Scanner(State.Literal, 6, 6, [Token(1, 4, "div", TokenKind.OpenTag), Token(4, 5, "/", TokenKind.OpenTagEnd)], false, false));
  }

  /** A self-closing tag: the OpenTagEnd carries the `/`. */
  lemma SelfClosingTokens()
    ensures Tokenize(SelfClosing) == Ok([Token(1, 4, "div", TokenKind.OpenTag), Token(4, 5, "/", TokenKind.OpenTagEnd)])
  {
    SelfClosingText();
    SelfClosingPart1();
    SelfClosingPart2();
    assert Loop(SelfClosing, Scanner(State.Literal, 6, 6, [Token(1, 4, "div", TokenKind.OpenTag), Token(4, 5, "/", TokenKind.OpenTagEnd)], false, false)) == Ok(Scanner(State.Literal, 6, 6, [Token(1, 4, "div", TokenKind.OpenTag), Token(4, 5, "/", TokenKind.OpenTagEnd)], false, false));
    assert Emit(SelfClosing, Scanner(State.Literal, 6, 6, [Token(1, 4, "div", TokenKind.OpenTag), Token(4, 5, "/", TokenKind.OpenTagEnd)], false, false), TokenKind.Literal, State.Literal, 6) == Scanner(State.Literal, 6, 6, [Token(1, 4, "div", TokenKind.OpenTag), Token(4, 5, "/", TokenKind.OpenTagEnd)], false, false);
    assert Finish(SelfClosing, Scanner(State.Literal, 6, 6, [Token(1, 4, "div", TokenKind.OpenTag), Token(4, 5, "/", TokenKind.OpenTagEnd)], false, false)).tokens == [Token(1, 4, "div", TokenKind.OpenTag), Token(4, 5, "/", TokenKind.OpenTagEnd)];
  }

  const QuotedAttr := "<div a='b'>"

  lemma QuotedAttrText()
    ensures QuotedAttr[0] == '<' && QuotedAttr[1] == 'd' && QuotedAttr[2] == 'i' && QuotedAttr[3] == 'v' && QuotedAttr[4] == ' ' && QuotedAttr[5] == 'a' && QuotedAttr[6] == '=' && QuotedAttr[7] == '\''
    ensures QuotedAttr[8] == 'b' && QuotedAttr[9] == '\'' && QuotedAttr[10] == '>'
    ensures |QuotedAttr| == 11
    ensures QuotedAttr[1..4] == "div"
    ensures QuotedAttr[4..5] == " "
    ensures QuotedAttr[5..6] == "a"
    ensures QuotedAttr[6..7] == "="
    ensures QuotedAttr[7..10] == "'b'"
    ensures Lower("div") == "div"
  {
    assert QuotedAttr[0] == '<' && QuotedAttr[1] == 'd' && QuotedAttr[2] == 'i' && QuotedAttr[3] == 'v' && QuotedAttr[4] == ' ' && QuotedAttr[5] == 'a' && QuotedAttr[6] == '=' && QuotedAttr[7] == '\'';
    assert QuotedAttr[8] == 'b' && QuotedAttr[9] == '\'' && QuotedAttr[10] == '>';
    assert QuotedAttr[1..4] == [QuotedAttr[1], QuotedAttr[2], QuotedAttr[3]];
    assert QuotedAttr[4..5] == [QuotedAttr[4]];
    assert QuotedAttr[5..6] == [QuotedAttr[5]];
    assert QuotedAttr[6..7] == [QuotedAttr[6]];
    assert QuotedAttr[7..10] == [QuotedAttr[7], QuotedAttr[8], QuotedAttr[9]];
  }

  lemma QuotedAttrPart1()
    ensures Loop(QuotedAttr, Init()) == Loop(QuotedAttr, Scanner(State.OpeningTag, 1, 4, [], false, false))
  {
    QuotedAttrText();
    assert Emit(QuotedAttr, Scanner(State.Literal, 0, 0, [], false, false), TokenKind.Literal, State.BeforeOpenTag, 0) == Scanner(State.BeforeOpenTag, 0, 0, [], false, false);
    assert Dispatch(QuotedAttr, Scanner(State.Literal, 0, 0, [], false, false), QuotedAttr[0]) == Ok(Scanner(State.BeforeOpenTag, 0, 0, [], false, false));
    assert Loop(QuotedAttr, Scanner(State.Literal, 0, 0, [], false, false)) == Loop(QuotedAttr, Scanner(State.BeforeOpenTag, 0, 1, [], false, false));
    assert Dispatch(QuotedAttr, Scanner(State.BeforeOpenTag, 0, 1, [], false, false), QuotedAttr[1]) == Ok(Scanner(State.OpeningTag, 1, 1, [], false, false));
    assert Loop(QuotedAttr, Scanner(State.BeforeOpenTag, 0, 1, [], false, false)) == Loop(QuotedAttr, Scanner(State.OpeningTag, 1, 2, [], false, false));
    assert Dispatch(QuotedAttr, Scanner(State.OpeningTag, 1, 2, [], false, false), QuotedAttr[2]) == Ok(Scanner(State.OpeningTag, 1, 2, [], false, false));
    assert Loop(QuotedAttr, Scanner(State.OpeningTag, 1, 2, [], false, false)) == Loop(QuotedAttr, Scanner(State.OpeningTag, 1, 3, [], false, false));
    assert Dispatch(QuotedAttr, Scanner(State.OpeningTag, 1, 3, [], false, false), QuotedAttr[3]) == Ok(Scanner(State.OpeningTag, 1, 3, [], false, false));
    assert Loop(QuotedAttr, Scanner(State.OpeningTag, 1, 3, [], false, false)) == Loop(QuotedAttr, Scanner(State.OpeningTag, 1, 4, [], false, false));
  }

  lemma QuotedAttrPart2()
    ensures Loop(QuotedAttr, Scanner(State.OpeningTag, 1, 4, [], false, false)) == Loop(QuotedAttr, Scanner(State.InValueNq, 5, 6, [Token(1, 4, "div", TokenKind.OpenTag), Token(4, 5, " ", TokenKind.Whitespace)], false, false))
  {
    QuotedAttrText();
    assert Emit(QuotedAttr, Scanner(State.OpeningTag, 1, 4, [], false, false), TokenKind.OpenTag, State.AfterOpenTag, 4) == Scanner(State.AfterOpenTag, 4, 4, [Token(1, 4, "div", TokenKind.OpenTag)], false, false);
    assert Dispatch(QuotedAttr, Scanner(State.OpeningTag, 1, 4, [], false, false), QuotedAttr[4]) == Ok(Scanner(State.AfterOpenTag, 4, 4, [Token(1, 4, "div", TokenKind.OpenTag)], false, false));
    assert Loop(QuotedAttr, Scanner(State.OpeningTag, 1, 4, [], false, false)) == Loop(QuotedAttr, Scanner(State.AfterOpenTag, 4, 5, [Token(1, 4, "div", TokenKind.OpenTag)], false, false));
    assert Emit(QuotedAttr, Scanner(State.AfterOpenTag, 4, 5, [Token(1, 4, "div", TokenKind.OpenTag)], false, false), TokenKind.Whitespace, State.InValueNq, 5) == Scanner(State.InValueNq, 5, 5, [Token(1, 4, "div", TokenKind.OpenTag), Token(4, 5, " ", TokenKind.Whitespace)], false, false);
    assert Dispatch(QuotedAttr, Scanner(State.AfterOpenTag, 4, 5, [Token(1, 4, "div", TokenKind.OpenTag)], false, false), QuotedAttr[5]) == Ok(Scanner(State.InValueNq, 5, 5, [Token(1, 4, "div", TokenKind.OpenTag), Token(4, 5, " ", TokenKind.Whitespace)], false, false));
    assert [Token(1, 4, "div", TokenKind.OpenTag)] + [Token(4, 5, " ", TokenKind.Whitespace)] == [Token(1, 4, "div", TokenKind.OpenTag), Token(4, 5, " ", TokenKind.Whitespace)];
    assert Loop(QuotedAttr, Scanner(State.AfterOpenTag, 4, 5, [Token(1, 4, "div", TokenKind.OpenTag)], false, false)) == Loop(QuotedAttr, Scanner(State.InValueNq, 5, 6, [Token(1, 4, "div", TokenKind.OpenTag), Token(4, 5, " ", TokenKind.Whitespace)], false, false));
  }

  lemma QuotedAttrPart3()
    ensures Loop(QuotedAttr, Scanner(State.InValueNq, 5, 6, [Token(1, 4, "div", TokenKind.OpenTag), Token(4, 5, " ", TokenKind.Whitespace)], false, false)) == Loop(QuotedAttr, Scanner(State.AfterOpenTag, 7, 7, [Token(1, 4, "div", TokenKind.OpenTag), Token(4, 5, " ", TokenKind.Whitespace), Token(5, 6, "a", TokenKind.AttrValueNq), Token(6, 7, "=", TokenKind.AttrValueEq)], false, false))
  {
    QuotedAttrText();
    assert Emit(QuotedAttr, Scanner(State.InValueNq, 5, 6, [Token(1, 4, "div", TokenKind.OpenTag), Token(4, 5, " ", TokenKind.Whitespace)], false, false), TokenKind.AttrValueNq, State.InValueNq, 6) == Scanner(State.InValueNq, 6, 6, [Token(1, 4, "div", TokenKind.OpenTag), Token(4, 5, " ", TokenKind.Whitespace), Token(5, 6, "a", TokenKind.AttrValueNq)], false, false);
    assert Emit(QuotedAttr, Scanner(State.InValueNq, 6, 6, [Token(1, 4, "div", TokenKind.OpenTag), Token(4, 5, " ", TokenKind.Whitespace), Token(5, 6, "a", TokenKind.AttrValueNq)], false, false), TokenKind.AttrValueEq, State.AfterOpenTag, 7) == Scanner(State.AfterOpenTag, 7, 6, [Token(1, 4, "div", TokenKind.OpenTag), Token(4, 5, " ", TokenKind.Whitespace), Token(5, 6, "a", TokenKind.AttrValueNq), Token(6, 7, "=", TokenKind.AttrValueEq)], false, false);
    assert Dispatch(QuotedAttr, Scanner(State.InValueNq, 5, 6, [Token(1, 4, "div", TokenKind.OpenTag), Token(4, 5, " ", TokenKind.Whitespace)], false, false), QuotedAttr[6]) == Ok(Scanner(State.AfterOpenTag, 7, 6, [Token(1, 4, "div", TokenKind.OpenTag), Token(4, 5, " ", TokenKind.Whitespace), Token(5, 6, "a", TokenKind.AttrValueNq), Token(6, 7, "=", TokenKind.AttrValueEq)], false, false));
    assert [Token(1, 4, "div", TokenKind.OpenTag), Token(4, 5, " ", TokenKind.Whitespace)] + [Token(5, 6, "a", TokenKind.AttrValueNq), Token(6, 7, "=", TokenKind.AttrValueEq)] == [Token(1, 4, "div", TokenKind.OpenTag), Token(4, 5, " ", TokenKind.Whitespace), Token(5, 6, "a", TokenKind.AttrValueNq), Token(6, 7, "=", TokenKind.AttrValueEq)];
    assert Loop(QuotedAttr, Scanner(State.InValueNq, 5, 6, [Token(1, 4, "div", TokenKind.OpenTag), Token(4, 5, " ", TokenKind.Whitespace)], false, false)) == Loop(QuotedAttr, Scanner(State.AfterOpenTag, 7, 7, [Token(1, 4, "div", TokenKind.OpenTag), Token(4, 5, " ", TokenKind.Whitespace), Token(5, 6, "a", TokenKind.AttrValueNq), Token(6, 7, "=", TokenKind.AttrValueEq)], false, false));
  }

  lemma QuotedAttrPart4()
    ensures Loop(QuotedAttr, Scanner(State.AfterOpenTag, 7, 7, [Token(1, 4, "div", TokenKind.OpenTag), Token(4, 5, " ", TokenKind.Whitespace), Token(5, 6, "a", TokenKind.AttrValueNq), Token(6, 7, "=", TokenKind.AttrValueEq)], false, false)) == Loop(QuotedAttr, Scanner(State.InValueSq, 7, 9, [Token(1, 4, "div", TokenKind.OpenTag), Token(4, 5, " ", TokenKind.Whitespace), Token(5, 6, "a", TokenKind.AttrValueNq), Token(6, 7, "=", TokenKind.AttrValueEq)], false, false))
  {
    QuotedAttrText();
    assert Emit(QuotedAttr, Scanner(State.AfterOpenTag, 7, 7, [Token(1, 4, "div", TokenKind.OpenTag), Token(4, 5, " ", TokenKind.Whitespace), Token(5, 6, "a", TokenKind.AttrValueNq), Token(6, 7, "=", TokenKind.AttrValueEq)], false, false), TokenKind.Whitespace, State.InValueSq, 7) == Scanner(State.InValueSq, 7, 7, [Token(1, 4, "div", TokenKind.OpenTag), Token(4, 5, " ", TokenKind.Whitespace), Token(5, 6, "a", TokenKind.AttrValueNq), Token(6, 7, "=", TokenKind.AttrValueEq)], false, false);
    assert Dispatch(QuotedAttr, Scanner(State.AfterOpenTag, 7, 7, [Token(1, 4, "div", TokenKind.OpenTag), Token(4, 5, " ", TokenKind.Whitespace), Token(5, 6, "a", TokenKind.AttrValueNq), Token(6, 7, "=", TokenKind.AttrValueEq)], false, false), QuotedAttr[7]) == Ok(Scanner(State.InValueSq, 7, 7, [Token(1, 4, "div", TokenKind.OpenTag), Token(4, 5, " ", TokenKind.Whitespace), Token(5, 6, "a", TokenKind.AttrValueNq), Token(6, 7, "=", TokenKind.AttrValueEq)], false, false));
    assert Loop(QuotedAttr, Scanner(State.AfterOpenTag, 7, 7, [Token(1, 4, "div", TokenKind.OpenTag), Token(4, 5, " ", TokenKind.Whitespace), Token(5, 6, "a", TokenKind.AttrValueNq), Token(6, 7, "=", TokenKind.AttrValueEq)], false, false)) == Loop(QuotedAttr, Scanner(State.InValueSq, 7, 8, [Token(1, 4, "div", TokenKind.OpenTag), Token(4, 5, " ", TokenKind.Whitespace), Token(5, 6, "a", TokenKind.AttrValueNq), Token(6, 7, "=", TokenKind.AttrValueEq)], false, false));
    assert Dispatch(QuotedAttr, Scanner(State.InValueSq, 7, 8, [Token(1, 4, "div", TokenKind.OpenTag), Token(4, 5, " ", TokenKind.Whitespace), Token(5, 6, "a", TokenKind.AttrValueNq), Token(6, 7, "=", TokenKind.AttrValueEq)], false, false), QuotedAttr[8]) == Ok(Scanner(State.InValueSq, 7, 8, [Token(1, 4, "div", TokenKind.OpenTag), Token(4, 5, " ", TokenKind.Whitespace), Token(5, 6, "a", TokenKind.AttrValueNq), Token(6, 7, "=", TokenKind.AttrValueEq)], false, false));
    assert Loop(QuotedAttr, Scanner(State.InValueSq, 7, 8, [Token(1, 4, "div", TokenKind.OpenTag), Token(4, 5, " ", TokenKind.Whitespace), Token(5, 6, "a", TokenKind.AttrValueNq), Token(6, 7, "=", TokenKind.AttrValueEq)], false, false)) == Loop(QuotedAttr, Scanner(State.InValueSq, 7, 9, [Token(1, 4, "div", TokenKind.OpenTag), Token(4, 5, " ", TokenKind.Whitespace), Token(5, 6, "a", TokenKind.AttrValueNq), Token(6, 7, "=", TokenKind.AttrValueEq)], false, false));
  }

  lemma QuotedAttrPart5()
    ensures Loop(QuotedAttr, Scanner(State.InValueSq, 7, 9, [Token(1, 4, "div", TokenKind.OpenTag), Token(4, 5, " ", TokenKind.Whitespace), Token(5, 6, "a", TokenKind.AttrValueNq), Token(6, 7, "=", TokenKind.AttrValueEq)], false, false)) == Loop(QuotedAttr, Scanner(State.AfterOpenTag, 10, 10, [Token(1, 4, "div", TokenKind.OpenTag), Token(4, 5, " ", TokenKind.Whitespace), Token(5, 6, "a", TokenKind.AttrValueNq), Token(6, 7, "=", TokenKind.AttrValueEq), Token(7, 10, "'b'", TokenKind.AttrValueSq)], false, false))
  {
    QuotedAttrText();
    assert Emit(QuotedAttr, Scanner(State.InValueSq, 7, 9, [Token(1, 4, "div", TokenKind.OpenTag), Token(4, 5, " ", TokenKind.Whitespace), Token(5, 6, "a", TokenKind.AttrValueNq), Token(6, 7, "=", TokenKind.AttrValueEq)], false, false), TokenKind.AttrValueSq, State.AfterOpenTag, 10) == Scanner(State.AfterOpenTag, 10, 9, [Token(1, 4, "div", TokenKind.OpenTag), Token(4, 5, " ", TokenKind.Whitespace), Token(5, 6, "a", TokenKind.AttrValueNq), Token(6, 7, "=", TokenKind.AttrValueEq), Token(7, 10, "'b'", TokenKind.AttrValueSq)], false, false);
    assert Dispatch(QuotedAttr, Scanner(State.InValueSq, 7, 9, [Token(1, 4, "div", TokenKind.OpenTag), Token(4, 5, " ", TokenKind.Whitespace), Token(5, 6, "a", TokenKind.AttrValueNq), Token(6, 7, "=", TokenKind.AttrValueEq)], false, false), QuotedAttr[9]) == Ok(Scanner(State.AfterOpenTag, 10, 9, [Token(1, 4, "div", TokenKind.OpenTag), Token(4, 5, " ", TokenKind.Whitespace), Token(5, 6, "a", TokenKind.AttrValueNq), Token(6, 7, "=", TokenKind.AttrValueEq), Token(7, 10, "'b'", TokenKind.AttrValueSq)], false, false));
    assert [Token(1, 4, "div", TokenKind.OpenTag), Token(4, 5, " ", TokenKind.Whitespace), Token(5, 6, "a", TokenKind.AttrValueNq), Token(6, 7, "=", TokenKind.AttrValueEq)] + [Token(7, 10, "'b'", TokenKind.AttrValueSq)] == [Token(1, 4, "div", TokenKind.OpenTag), Token(4, 5, " ", TokenKind.Whitespace), Token(5, 6, "a", TokenKind.AttrValueNq), Token(6, 7, "=", TokenKind.AttrValueEq), Token(7, 10, "'b'", TokenKind.AttrValueSq)];
    assert Loop(QuotedAttr, Scanner(State.InValueSq, 7, 9, [Token(1, 4, "div", TokenKind.OpenTag), Token(4, 5, " ", TokenKind.Whitespace), Token(5, 6, "a", TokenKind.AttrValueNq), Token(6, 7, "=", TokenKind.AttrValueEq)], false, false)) == Loop(QuotedAttr, Scanner(State.AfterOpenTag, 10, 10, [Token(1, 4, "div", TokenKind.OpenTag), Token(4, 5, " ", TokenKind.Whitespace), Token(5, 6, "a", TokenKind.AttrValueNq), Token(6, 7, "=", TokenKind.AttrValueEq), Token(7, 10, "'b'", TokenKind.AttrValueSq)], false, false));
  }

  lemma QuotedAttrPart6()
    ensures Loop(QuotedAttr, Scanner(State.AfterOpenTag, 10, 10, [Token(1, 4, "div", TokenKind.OpenTag), Token(4, 5, " ", TokenKind.Whitespace), Token(5, 6, "a", TokenKind.AttrValueNq), Token(6, 7, "=", TokenKind.AttrValueEq), Token(7, 10, "'b'", TokenKind.AttrValueSq)], false, false)) == Loop(QuotedAttr, Scanner(State.Literal, 11, 11, [Token(1, 4, "div", TokenKind.OpenTag), Token(4, 5, " ", TokenKind.Whitespace), Token(5, 6, "a", TokenKind.AttrValueNq), Token(6, 7, "=", TokenKind.AttrValueEq), Token(7, 10, "'b'", TokenKind.AttrValueSq), Token(10, 10, "", TokenKind.OpenTagEnd)], false, false))
  {
    QuotedAttrText();
    assert Emit(QuotedAttr, Scanner(State.AfterOpenTag, 10, 10, [Token(1, 4, "div", TokenKind.OpenTag), Token(4, 5, " ", TokenKind.Whitespace), Token(5, 6, "a", TokenKind.AttrValueNq), Token(6, 7, "=", TokenKind.AttrValueEq), Token(7, 10, "'b'", TokenKind.AttrValueSq)], false, false), TokenKind.Whitespace, State.AfterOpenTag, 10) == Scanner(State.AfterOpenTag, 10, 10, [Token(1, 4, "div", TokenKind.OpenTag), Token(4, 5, " ", TokenKind.Whitespace), Token(5, 6, "a", TokenKind.AttrValueNq), Token(6, 7, "=", TokenKind.AttrValueEq), Token(7, 10, "'b'", TokenKind.AttrValueSq)], false, false);
    assert Emit(QuotedAttr, Scanner(State.AfterOpenTag, 10, 10, [Token(1, 4, "div", TokenKind.OpenTag), Token(4, 5, " ", TokenKind.Whitespace), Token(5, 6, "a", TokenKind.AttrValueNq), Token(6, 7, "=", TokenKind.AttrValueEq), Token(7, 10, "'b'", TokenKind.AttrValueSq)], false, false), TokenKind.OpenTagEnd, State.AfterOpenTag, 10) == Scanner(State.Literal, 11, 10, [Token(1, 4, "div", TokenKind.OpenTag), Token(4, 5, " ", TokenKind.Whitespace), Token(5, 6, "a", TokenKind.AttrValueNq), Token(6, 7, "=", TokenKind.AttrValueEq), Token(7, 10, "'b'", TokenKind.AttrValueSq), Token(10, 10, "", TokenKind.OpenTagEnd)], false, false);
    assert Dispatch(QuotedAttr, Scanner(State.AfterOpenTag, 10, 10, [Token(1, 4, "div", TokenKind.OpenTag), Token(4, 5, " ", TokenKind.Whitespace), Token(5, 6, "a", TokenKind.AttrValueNq), Token(6, 7, "=", TokenKind.AttrValueEq), Token(7, 10, "'b'", TokenKind.AttrValueSq)], false, false), QuotedAttr[10]) == Ok(Scanner(State.Literal, 11, 10, [Token(1, 4, "div", TokenKind.OpenTag), Token(4, 5, " ", TokenKind.Whitespace), Token(5, 6, "a", TokenKind.AttrValueNq), Token(6, 7, "=", TokenKind.AttrValueEq), Token(7, 10, "'b'", TokenKind.AttrValueSq), Token(10, 10, "", TokenKind.OpenTagEnd)], false, false));
    assert [Token(1, 4, "div", TokenKind.OpenTag), Token(4, 5, " ", TokenKind.Whitespace), Token(5, 6, "a", TokenKind.AttrValueNq), Token(6, 7, "=", TokenKind.AttrValueEq), Token(7, 10, "'b'", TokenKind.AttrValueSq)] + [Token(10, 10, "", TokenKind.OpenTagEnd)] == [Token(1, 4, "div", TokenKind.OpenTag), Token(4, 5, " ", TokenKind.Whitespace), Token(5, 6, "a", TokenKind.AttrValueNq), Token(6, 7, "=", TokenKind.AttrValueEq), Token(7, 10, "'b'", TokenKind.AttrValueSq), Token(10, 10, "", TokenKind.OpenTagEnd)];
    assert Loop(QuotedAttr, Scanner(State.AfterOpenTag, 10, 10, [Token(1, 4, "div", TokenKind.OpenTag), Token(4, 5, " ", TokenKind.Whitespace), Token(5, 6, "a", TokenKind.AttrValueNq), Token(6, 7, "=", TokenKind.AttrValueEq), Token(7, 10, "'b'", TokenKind.AttrValueSq)], false, false)) == Loop(QuotedAttr, Scanner(State.Literal, 11, 11, [Token(1, 4, "div", TokenKind.OpenTag), Token(4, 5, " ", TokenKind.Whitespace), Token(5, 6, "a", TokenKind.AttrValueNq), Token(6, 7, "=", TokenKind.AttrValueEq), Token(7, 10, "'b'", TokenKind.AttrValueSq), Token(10, 10, "", TokenKind.OpenTagEnd)], false, false));
  }

  lemma QuotedAttrStage1()
    ensures Loop(QuotedAttr, Init()) == Loop(QuotedAttr, Scanner(State.AfterOpenTag, 10, 10, [Token(1, 4, "div", TokenKind.OpenTag), Token(4, 5, " ", TokenKind.Whitespace), Token(5, 6, "a", TokenKind.AttrValueNq), Token(6, 7, "=", TokenKind.AttrValueEq), Token(7, 10, "'b'", TokenKind.AttrValueSq)], false, false))
  {
    QuotedAttrPart1();
    QuotedAttrPart2();
    QuotedAttrPart3();
    QuotedAttrPart4();
    QuotedAttrPart5();
  }

  lemma QuotedAttrStage2()
    ensures Loop(QuotedAttr, Scanner(State.AfterOpenTag, 10, 10, [Token(1, 4, "div", TokenKind.OpenTag), Token(4, 5, " ", TokenKind.Whitespace), Token(5, 6, "a", TokenKind.AttrValueNq), Token(6, 7, "=", TokenKind.AttrValueEq), Token(7, 10, "'b'", TokenKind.AttrValueSq)], false, false)) == Loop(QuotedAttr, Scanner(State.Literal, 11, 11, [Token(1, 4, "div", TokenKind.OpenTag), Token(4, 5, " ", TokenKind.Whitespace), Token(5, 6, "a", TokenKind.AttrValueNq), Token(6, 7, "=", TokenKind.AttrValueEq), Token(7, 10, "'b'", TokenKind.AttrValueSq), Token(10, 10, "", TokenKind.OpenTagEnd)], false, false))
  {
    QuotedAttrPart6();
  }

  /** An attribute: the name is an AttrValueNq, the `=` its own token, and the quoted value keeps its quotes. */
  lemma QuotedAttrTokens()
    ensures Tokenize(QuotedAttr) == Ok([Token(1, 4, "div", TokenKind.OpenTag), Token(4, 5, " ", TokenKind.Whitespace), Token(5, 6, "a", TokenKind.AttrValueNq), Token(6, 7, "=", TokenKind.AttrValueEq), Token(7, 10, "'b'", TokenKind.AttrValueSq), Token(10, 10, "", TokenKind.OpenTagEnd)])
  {
    QuotedAttrText();
    QuotedAttrStage1();
    QuotedAttrStage2();
    assert Loop(QuotedAttr, Scanner(State.Literal, 11, 11, [Token(1, 4, "div", TokenKind.OpenTag), Token(4, 5, " ", TokenKind.Whitespace), Token(5, 6, "a", TokenKind.AttrValueNq), Token(6, 7, "=", TokenKind.AttrValueEq), Token(7, 10, "'b'", TokenKind.AttrValueSq), Token(10, 10, "", TokenKind.OpenTagEnd)], false, false)) == Ok(Scanner(State.Literal, 11, 11, [Token(1, 4, "div", TokenKind.OpenTag), Token(4, 5, " ", TokenKind.Whitespace), Token(5, 6, "a", TokenKind.AttrValueNq), Token(6, 7, "=", TokenKind.AttrValueEq), Token(7, 10, "'b'", TokenKind.AttrValueSq), Token(10, 10, "", TokenKind.OpenTagEnd)], false, false));
    assert Emit(QuotedAttr, Scanner(State.Literal, 11, 11, [Token(1, 4, "div", TokenKind.OpenTag), Token(4, 5, " ", TokenKind.Whitespace), Token(5, 6, "a", TokenKind.AttrValueNq), Token(6, 7, "=", TokenKind.AttrValueEq), Token(7, 10, "'b'", TokenKind.AttrValueSq), Token(10, 10, "", TokenKind.OpenTagEnd)], false, false), TokenKind.Literal, State.Literal, 11) == Scanner(State.Literal, 11, 11, [Token(1, 4, "div", TokenKind.OpenTag), Token(4, 5, " ", TokenKind.Whitespace), Token(5, 6, "a", TokenKind.AttrValueNq), Token(6, 7, "=", TokenKind.AttrValueEq), Token(7, 10, "'b'", TokenKind.AttrValueSq), Token(10, 10, "", TokenKind.OpenTagEnd)], false, false);
    assert Finish(QuotedAttr, Scanner(State.Literal, 11, 11, [Token(1, 4, "div", TokenKind.OpenTag), Token(4, 5, " ", TokenKind.Whitespace), Token(5, 6, "a", TokenKind.AttrValueNq), Token(6, 7, "=", TokenKind.AttrValueEq), Token(7, 10, "'b'", TokenKind.AttrValueSq), Token(10, 10, "", TokenKind.OpenTagEnd)], false, false)).tokens == [Token(1, 4, "div", TokenKind.OpenTag), Token(4, 5, " ", TokenKind.Whitespace), Token(5, 6, "a", TokenKind.AttrValueNq), Token(6, 7, "=", TokenKind.AttrValueEq), Token(7, 10, "'b'", TokenKind.AttrValueSq), Token(10, 10, "", TokenKind.OpenTagEnd)];
  }

  const ScriptBody := "<script>var x='<div>';</script>"

  lemma ScriptBodyChars0()
    ensures ScriptBody[0] == '<' && ScriptBody[1] == 's' && ScriptBody[2] == 'c' && ScriptBody[3] == 'r'
  {
  }

  lemma ScriptBodyChars1()
    ensures ScriptBody[4] == 'i' && ScriptBody[5] == 'p' && ScriptBody[6] == 't' && ScriptBody[7] == '>'
  {
  }

  lemma ScriptBodyChars2()
    ensures ScriptBody[8] == 'v' && ScriptBody[9] == 'a' && ScriptBody[10] == 'r' && ScriptBody[11] == ' '
  {
  }

  lemma ScriptBodyChars3()
    ensures ScriptBody[12] == 'x' && ScriptBody[13] == '=' && ScriptBody[14] == '\'' && ScriptBody[15] == '<'
  {
  }

  lemma ScriptBodyChars4()
    ensures ScriptBody[16] == 'd' && ScriptBody[17] == 'i' && ScriptBody[18] == 'v' && ScriptBody[19] == '>'
  {
  }

  lemma ScriptBodyChars5()
    ensures ScriptBody[20] == '\'' && ScriptBody[21] == ';' && ScriptBody[22] == '<' && ScriptBody[23] == '/'
  {
  }

  lemma ScriptBodyChars6()
    ensures ScriptBody[24] == 's' && ScriptBody[25] == 'c' && ScriptBody[26] == 'r' && ScriptBody[27] == 'i'
  {
  }

  lemma ScriptBodyChars7()
    ensures ScriptBody[28] == 'p' && ScriptBody[29] == 't' && ScriptBody[30] == '>'
  {
  }

  lemma ScriptBodyText()
    ensures ScriptBody[0] == '<' && ScriptBody[1] == 's' && ScriptBody[2] == 'c' && ScriptBody[3] == 'r'
    ensures ScriptBody[4] == 'i' && ScriptBody[5] == 'p' && ScriptBody[6] == 't' && ScriptBody[7] == '>'
    ensures ScriptBody[8] == 'v' && ScriptBody[9] == 'a' && ScriptBody[10] == 'r' && ScriptBody[11] == ' '
    ensures ScriptBody[12] == 'x' && ScriptBody[13] == '=' && ScriptBody[14] == '\'' && ScriptBody[15] == '<'
    ensures ScriptBody[16] == 'd' && ScriptBody[17] == 'i' && ScriptBody[18] == 'v' && ScriptBody[19] == '>'
    ensures ScriptBody[20] == '\'' && ScriptBody[21] == ';' && ScriptBody[22] == '<' && ScriptBody[23] == '/'
    ensures ScriptBody[24] == 's' && ScriptBody[25] == 'c' && ScriptBody[26] == 'r' && ScriptBody[27] == 'i'
    ensures ScriptBody[28] == 'p' && ScriptBody[29] == 't' && ScriptBody[30] == '>'
    ensures |ScriptBody| == 31
    ensures ScriptBody[1..7] == "script"
    ensures ScriptBody[8..15] == "var x='"
    ensures ScriptBody[15..22] == "<div>';"
    ensures ScriptBody[24..30] == "script"
    ensures Lower("script") == "script"
  {
    ScriptBodyChars0();
    ScriptBodyChars1();
    ScriptBodyChars2();
    ScriptBodyChars3();
    ScriptBodyChars4();
    ScriptBodyChars5();
    ScriptBodyChars6();
    ScriptBodyChars7();
    assert ScriptBody[1..7] == [ScriptBody[1], ScriptBody[2], ScriptBody[3], ScriptBody[4], ScriptBody[5], ScriptBody[6]];
    assert ScriptBody[8..15] == [ScriptBody[8], ScriptBody[9], ScriptBody[10], ScriptBody[11], ScriptBody[12], ScriptBody[13], ScriptBody[14]];
    assert ScriptBody[15..22] == [ScriptBody[15], ScriptBody[16], ScriptBody[17], ScriptBody[18], ScriptBody[19], ScriptBody[20], ScriptBody[21]];
    assert ScriptBody[24..30] == [ScriptBody[24], ScriptBody[25], ScriptBody[26], ScriptBody[27], ScriptBody[28], ScriptBody[29]];
  }

  lemma ScriptBodyPart1()
    ensures Loop(ScriptBody, Init()) == Loop(ScriptBody, Scanner(State.OpeningTag, 1, 4, [], false, false))
  {
    ScriptBodyText();
    assert Emit(ScriptBody, Scanner(State.Literal, 0, 0, [], false, false), TokenKind.Literal, State.BeforeOpenTag, 0) == Scanner(State.BeforeOpenTag, 0, 0, [], false, false);
    assert Dispatch(ScriptBody, Scanner(State.Literal, 0, 0, [], false, false), ScriptBody[0]) == Ok(Scanner(State.BeforeOpenTag, 0, 0, [], false, false));
    assert Loop(ScriptBody, Scanner(State.Literal, 0, 0, [], false, false)) == Loop(ScriptBody, Scanner(State.BeforeOpenTag, 0, 1, [], false, false));
    assert Dispatch(ScriptBody, Scanner(State.BeforeOpenTag, 0, 1, [], false, false), ScriptBody[1]) == Ok(Scanner(State.OpeningTag, 1, 1, [], false, false));
    assert Loop(ScriptBody, Scanner(State.BeforeOpenTag, 0, 1, [], false, false)) == Loop(ScriptBody, Scanner(State.OpeningTag, 1, 2, [], false, false));
    assert Dispatch(ScriptBody, Scanner(State.OpeningTag, 1, 2, [], false, false), ScriptBody[2]) == Ok(Scanner(State.OpeningTag, 1, 2, [], false, false));
    assert Loop(ScriptBody, Scanner(State.OpeningTag, 1, 2, [], false, false)) == Loop(ScriptBody, Scanner(State.OpeningTag, 1, 3, [], false, false));
    assert Dispatch(ScriptBody, Scanner(State.OpeningTag, 1, 3, [], false, false), ScriptBody[3]) == Ok(Scanner(State.OpeningTag, 1, 3, [], false, false));
    assert Loop(ScriptBody, Scanner(State.OpeningTag, 1, 3, [], false, false)) == Loop(ScriptBody, Scanner(State.OpeningTag, 1, 4, [], false, false));
  }

  lemma ScriptBodyPart2()
    ensures Loop(ScriptBody, Scanner(State.OpeningTag, 1, 4, [], false, false)) == Loop(ScriptBody, Scanner(State.OpeningTag, 1, 7, [], false, false))
  {
    ScriptBodyText();
    assert Dispatch(ScriptBody, Scanner(State.OpeningTag, 1, 4, [], false, false), ScriptBody[4]) == Ok(Scanner(State.OpeningTag, 1, 4, [], false, false));
    assert Loop(ScriptBody, Scanner(State.OpeningTag, 1, 4, [], false, false)) == Loop(ScriptBody, Scanner(State.OpeningTag, 1, 5, [], false, false));
    assert Dispatch(ScriptBody, Scanner(State.OpeningTag, 1, 5, [], false, false), ScriptBody[5]) == Ok(Scanner(State.OpeningTag, 1, 5, [], false, false));
    assert Loop(ScriptBody, Scanner(State.OpeningTag, 1, 5, [], false, false)) == Loop(ScriptBody, Scanner(State.OpeningTag, 1, 6, [], false, false));
    assert Dispatch(ScriptBody, Scanner(State.OpeningTag, 1, 6, [], false, false), ScriptBody[6]) == Ok(Scanner(State.OpeningTag, 1, 6, [], false, false));
    assert Loop(ScriptBody, Scanner(State.OpeningTag, 1, 6, [], false, false)) == Loop(ScriptBody, Scanner(State.OpeningTag, 1, 7, [], false, false));
  }

  lemma ScriptBodyPart3()
    ensures Loop(ScriptBody, Scanner(State.OpeningTag, 1, 7, [], false, false)) == Loop(ScriptBody, Scanner(State.Literal, 8, 9, [Token(1, 7, "script", TokenKind.OpenTag), Token(7, 7, "", TokenKind.OpenTagEnd)], true, false))
  {
    ScriptBodyText();
    assert Emit(ScriptBody, Scanner(State.OpeningTag, 1, 7, [], false, false), TokenKind.OpenTag, State.OpeningTag, 7) == Scanner(State.OpeningTag, 7, 7, [Token(1, 7, "script", TokenKind.OpenTag)], true, false);
    assert Emit(ScriptBody, Scanner(State.OpeningTag, 7, 7, [Token(1, 7, "script", TokenKind.OpenTag)], true, false), TokenKind.OpenTagEnd, State.OpeningTag, 7) == Scanner(State.Literal, 8, 7, [Token(1, 7, "script", TokenKind.OpenTag), Token(7, 7, "", TokenKind.OpenTagEnd)], true, false);
    assert Dispatch(ScriptBody, Scanner(State.OpeningTag, 1, 7, [], false, false), ScriptBody[7]) == Ok(Scanner(State.Literal, 8, 7, [Token(1, 7, "script", TokenKind.OpenTag), Token(7, 7, "", TokenKind.OpenTagEnd)], true, false));
    assert Loop(ScriptBody, Scanner(State.OpeningTag, 1, 7, [], false, false)) == Loop(ScriptBody, Scanner(State.Literal, 8, 8, [Token(1, 7, "script", TokenKind.OpenTag), Token(7, 7, "", TokenKind.OpenTagEnd)], true, false));
    assert Dispatch(ScriptBody, Scanner(State.Literal, 8, 8, [Token(1, 7, "script", TokenKind.OpenTag), Token(7, 7, "", TokenKind.OpenTagEnd)], true, false), ScriptBody[8]) == Ok(Scanner(State.Literal, 8, 8, [Token(1, 7, "script", TokenKind.OpenTag), Token(7, 7, "", TokenKind.OpenTagEnd)], true, false));
    assert Loop(ScriptBody, Scanner(State.Literal, 8, 8, [Token(1, 7, "script", TokenKind.OpenTag), Token(7, 7, "", TokenKind.OpenTagEnd)], true, false)) == Loop(ScriptBody, Scanner(State.Literal, 8, 9, [Token(1, 7, "script", TokenKind.OpenTag), Token(7, 7, "", TokenKind.OpenTagEnd)], true, false));
  }

  lemma ScriptBodyPart4()
    ensures Loop(ScriptBody, Scanner(State.Literal, 8, 9, [Token(1, 7, "script", TokenKind.OpenTag), Token(7, 7, "", TokenKind.OpenTagEnd)], true, false)) == Loop(ScriptBody, Scanner(State.Literal, 8, 15, [Token(1, 7, "script", TokenKind.OpenTag), Token(7, 7, "", TokenKind.OpenTagEnd)], true, false))
  {
    ScriptBodyText();
    assert Dispatch(ScriptBody, Scanner(State.Literal, 8, 9, [Token(1, 7, "script", TokenKind.OpenTag), Token(7, 7, "", TokenKind.OpenTagEnd)], true, false), ScriptBody[9]) == Ok(Scanner(State.Literal, 8, 9, [Token(1, 7, "script", TokenKind.OpenTag), Token(7, 7, "", TokenKind.OpenTagEnd)], true, false));
    assert Loop(ScriptBody, Scanner(State.Literal, 8, 9, [Token(1, 7, "script", TokenKind.OpenTag), Token(7, 7, "", TokenKind.OpenTagEnd)], true, false)) == Loop(ScriptBody, Scanner(State.Literal, 8, 10, [Token(1, 7, "script", TokenKind.OpenTag), Token(7, 7, "", TokenKind.OpenTagEnd)], true, false));
    assert Dispatch(ScriptBody, Scanner(State.Literal, 8, 10, [Token(1, 7, "script", TokenKind.OpenTag), Token(7, 7, "", TokenKind.OpenTagEnd)], true, false), ScriptBody[10]) == Ok(Scanner(State.Literal, 8, 10, [Token(1, 7, "script", TokenKind.OpenTag), Token(7, 7, "", TokenKind.OpenTagEnd)], true, false));
    assert Loop(ScriptBody, Scanner(State.Literal, 8, 10, [Token(1, 7, "script", TokenKind.OpenTag), Token(7, 7, "", TokenKind.OpenTagEnd)], true, false)) == Loop(ScriptBody, Scanner(State.Literal, 8, 11, [Token(1, 7, "script", TokenKind.OpenTag), Token(7, 7, "", TokenKind.OpenTagEnd)], true, false));
    assert Dispatch(ScriptBody, Scanner(State.Literal, 8, 11, [Token(1, 7, "script", TokenKind.OpenTag), Token(7, 7, "", TokenKind.OpenTagEnd)], true, false), ScriptBody[11]) == Ok(Scanner(State.Literal, 8, 11, [Token(1, 7, "script", TokenKind.OpenTag), Token(7, 7, "", TokenKind.OpenTagEnd)], true, false));
    assert Loop(ScriptBody, Scanner(State.Literal, 8, 11, [Token(1, 7, "script", TokenKind.OpenTag), Token(7, 7, "", TokenKind.OpenTagEnd)], true, false)) == Loop(ScriptBody, Scanner(State.Literal, 8, 12, [Token(1, 7, "script", TokenKind.OpenTag), Token(7, 7, "", TokenKind.OpenTagEnd)], true, false));
    assert Dispatch(ScriptBody, Scanner(State.Literal, 8, 12, [Token(1, 7, "script", TokenKind.OpenTag), Token(7, 7, "", TokenKind.OpenTagEnd)], true, false), ScriptBody[12]) == Ok(Scanner(State.Literal, 8, 12, [Token(1, 7, "script", TokenKind.OpenTag), Token(7, 7, "", TokenKind.OpenTagEnd)], true, false));
    assert Loop(ScriptBody, Scanner(State.Literal, 8, 12, [Token(1, 7, "script", TokenKind.OpenTag), Token(7, 7, "", TokenKind.OpenTagEnd)], true, false)) == Loop(ScriptBody, Scanner(State.Literal, 8, 13, [Token(1, 7, "script", TokenKind.OpenTag), Token(7, 7, "", TokenKind.OpenTagEnd)], true, false));
    assert Dispatch(ScriptBody, Scanner(State.Literal, 8, 13, [Token(1, 7, "script", TokenKind.OpenTag), Token(7, 7, "", TokenKind.OpenTagEnd)], true, false), ScriptBody[13]) == Ok(Scanner(State.Literal, 8, 13, [Token(1, 7, "script", TokenKind.OpenTag), Token(7, 7, "", TokenKind.OpenTagEnd)], true, false));
    assert Loop(ScriptBody, Scanner(State.Literal, 8, 13, [Token(1, 7, "script", TokenKind.OpenTag), Token(7, 7, "", TokenKind.OpenTagEnd)], true, false)) == Loop(ScriptBody, Scanner(State.Literal, 8, 14, [Token(1, 7, "script", TokenKind.OpenTag), Token(7, 7, "", TokenKind.OpenTagEnd)], true, false));
    assert Dispatch(ScriptBody, Scanner(State.Literal, 8, 14, [Token(1, 7, "script", TokenKind.OpenTag), Token(7, 7, "", TokenKind.OpenTagEnd)], true, false), ScriptBody[14]) == Ok(Scanner(State.Literal, 8, 14, [Token(1, 7, "script", TokenKind.OpenTag), Token(7, 7, "", TokenKind.OpenTagEnd)], true, false));
    assert Loop(ScriptBody, Scanner(State.Literal, 8, 14, [Token(1, 7, "script", TokenKind.OpenTag), Token(7, 7, "", TokenKind.OpenTagEnd)], true, false)) == Loop(ScriptBody, Scanner(State.Literal, 8, 15, [Token(1, 7, "script", TokenKind.OpenTag), Token(7, 7, "", TokenKind.OpenTagEnd)], true, false));
  }

  lemma ScriptBodyPart5()
    ensures Loop(ScriptBody, Scanner(State.Literal, 8, 15, [Token(1, 7, "script", TokenKind.OpenTag), Token(7, 7, "", TokenKind.OpenTagEnd)], true, false)) == Loop(ScriptBody, Scanner(State.Literal, 15, 19, [Token(1, 7, "script", TokenKind.OpenTag), Token(7, 7, "", TokenKind.OpenTagEnd), Token(8, 15, "var x='", TokenKind.Literal)], true, false))
  {
    ScriptBodyText();
    assert Emit(ScriptBody, Scanner(State.Literal, 8, 15, [Token(1, 7, "script", TokenKind.OpenTag), Token(7, 7, "", TokenKind.OpenTagEnd)], true, false), TokenKind.Literal, State.BeforeOpenTag, 15) == Scanner(State.BeforeOpenTag, 15, 15, [Token(1, 7, "script", TokenKind.OpenTag), Token(7, 7, "", TokenKind.OpenTagEnd), Token(8, 15, "var x='", TokenKind.Literal)], true, false);
    assert Dispatch(ScriptBody, Scanner(State.Literal, 8, 15, [Token(1, 7, "script", TokenKind.OpenTag), Token(7, 7, "", TokenKind.OpenTagEnd)], true, false), ScriptBody[15]) == Ok(Scanner(State.BeforeOpenTag, 15, 15, [Token(1, 7, "script", TokenKind.OpenTag), Token(7, 7, "", TokenKind.OpenTagEnd), Token(8, 15, "var x='", TokenKind.Literal)], true, false));
    assert [Token(1, 7, "script", TokenKind.OpenTag), Token(7, 7, "", TokenKind.OpenTagEnd)] + [Token(8, 15, "var x='", TokenKind.Literal)] == [Token(1, 7, "script", TokenKind.OpenTag), Token(7, 7, "", TokenKind.OpenTagEnd), Token(8, 15, "var x='", TokenKind.Literal)];
    assert Loop(ScriptBody, Scanner(State.Literal, 8, 15, [Token(1, 7, "script", TokenKind.OpenTag), Token(7, 7, "", TokenKind.OpenTagEnd)], true, false)) == Loop(ScriptBody, Scanner(State.BeforeOpenTag, 15, 16, [Token(1, 7, "script", TokenKind.OpenTag), Token(7, 7, "", TokenKind.OpenTagEnd), Token(8, 15, "var x='", TokenKind.Literal)], true, false));
    assert Dispatch(ScriptBody, Scanner(State.BeforeOpenTag, 15, 16, [Token(1, 7, "script", TokenKind.OpenTag), Token(7, 7, "", TokenKind.OpenTagEnd), Token(8, 15, "var x='", TokenKind.Literal)], true, false), ScriptBody[16]) == Ok(Scanner(State.Literal, 15, 16, [Token(1, 7, "script", TokenKind.OpenTag), Token(7, 7, "", TokenKind.OpenTagEnd), Token(8, 15, "var x='", TokenKind.Literal)], true, false));
    assert Loop(ScriptBody, Scanner(State.BeforeOpenTag, 15, 16, [Token(1, 7, "script", TokenKind.OpenTag), Token(7, 7, "", TokenKind.OpenTagEnd), Token(8, 15, "var x='", TokenKind.Literal)], true, false)) == Loop(ScriptBody, Scanner(State.Literal, 15, 17, [Token(1, 7, "script", TokenKind.OpenTag), Token(7, 7, "", TokenKind.OpenTagEnd), Token(8, 15, "var x='", TokenKind.Literal)], true, false));
    assert Dispatch(ScriptBody, Scanner(State.Literal, 15, 17, [Token(1, 7, "script", TokenKind.OpenTag), Token(7, 7, "", TokenKind.OpenTagEnd), Token(8, 15, "var x='", TokenKind.Literal)], true, false), ScriptBody[17]) == Ok(Scanner(State.Literal, 15, 17, [Token(1, 7, "script", TokenKind.OpenTag), Token(7, 7, "", TokenKind.OpenTagEnd), Token(8, 15, "var x='", TokenKind.Literal)], true, false));
    assert Loop(ScriptBody, Scanner(State.Literal, 15, 17, [Token(1, 7, "script", TokenKind.OpenTag), Token(7, 7, "", TokenKind.OpenTagEnd), Token(8, 15, "var x='", TokenKind.Literal)], true, false)) == Loop(ScriptBody, Scanner(State.Literal, 15, 18, [Token(1, 7, "script", TokenKind.OpenTag), Token(7, 7, "", TokenKind.OpenTagEnd), Token(8, 15, "var x='", TokenKind.Literal)], true, false));
    assert Dispatch(ScriptBody, Scanner(State.Literal, 15, 18, [Token(1, 7, "script", TokenKind.OpenTag), Token(7, 7, "", TokenKind.OpenTagEnd), Token(8, 15, "var x='", TokenKind.Literal)], true, false), ScriptBody[18]) == Ok(Scanner(State.Literal, 15, 18, [Token(1, 7, "script", TokenKind.OpenTag), Token(7, 7, "", TokenKind.OpenTagEnd), Token(8, 15, "var x='", TokenKind.Literal)], true, false));
    assert Loop(ScriptBody, Scanner(State.Literal, 15, 18, [Token(1, 7, "script", TokenKind.OpenTag), Token(7, 7, "", TokenKind.OpenTagEnd), Token(8, 15, "var x='", TokenKind.Literal)], true, false)) == Loop(ScriptBody, Scanner(State.Literal, 15, 19, [Token(1, 7, "script", TokenKind.OpenTag), Token(7, 7, "", TokenKind.OpenTagEnd), Token(8, 15, "var x='", TokenKind.Literal)], true, false));
  }

  lemma ScriptBodyPart6()
    ensures Loop(ScriptBody, Scanner(State.Literal, 15, 19, [Token(1, 7, "script", TokenKind.OpenTag), Token(7, 7, "", TokenKind.OpenTagEnd), Token(8, 15, "var x='", TokenKind.Literal)], true, false)) == Loop(ScriptBody, Scanner(State.BeforeOpenTag, 22, 23, [Token(1, 7, "script", TokenKind.OpenTag), Token(7, 7, "", TokenKind.OpenTagEnd), Token(8, 15, "var x='", TokenKind.Literal), Token(15, 22, "<div>';", TokenKind.Literal)], true, false))
  {
    ScriptBodyText();
    assert Dispatch(ScriptBody, Scanner(State.Literal, 15, 19, [Token(1, 7, "script", TokenKind.OpenTag), Token(7, 7, "", TokenKind.OpenTagEnd), Token(8, 15, "var x='", TokenKind.Literal)], true, false), ScriptBody[19]) == Ok(Scanner(State.Literal, 15, 19, [Token(1, 7, "script", TokenKind.OpenTag), Token(7, 7, "", TokenKind.OpenTagEnd), Token(8, 15, "var x='", TokenKind.Literal)], true, false));
    assert Loop(ScriptBody, Scanner(State.Literal, 15, 19, [Token(1, 7, "script", TokenKind.OpenTag), Token(7, 7, "", TokenKind.OpenTagEnd), Token(8, 15, "var x='", TokenKind.Literal)], true, false)) == Loop(ScriptBody, Scanner(State.Literal, 15, 20, [Token(1, 7, "script", TokenKind.OpenTag), Token(7, 7, "", TokenKind.OpenTagEnd), Token(8, 15, "var x='", TokenKind.Literal)], true, false));
    assert Dispatch(ScriptBody, Scanner(State.Literal, 15, 20, [Token(1, 7, "script", TokenKind.OpenTag), Token(7, 7, "", TokenKind.OpenTagEnd), Token(8, 15, "var x='", TokenKind.Literal)], true, false), ScriptBody[20]) == Ok(Scanner(State.Literal, 15, 20, [Token(1, 7, "script", TokenKind.OpenTag), Token(7, 7, "", TokenKind.OpenTagEnd), Token(8, 15, "var x='", TokenKind.Literal)], true, false));
    assert Loop(ScriptBody, Scanner(State.Literal, 15, 20, [Token(1, 7, "script", TokenKind.OpenTag), Token(7, 7, "", TokenKind.OpenTagEnd), Token(8, 15, "var x='", TokenKind.Literal)], true, false)) == Loop(ScriptBody, Scanner(State.Literal, 15, 21, [Token(1, 7, "script", TokenKind.OpenTag), Token(7, 7, "", TokenKind.OpenTagEnd), Token(8, 15, "var x='", TokenKind.Literal)], true, false));
    assert Dispatch(ScriptBody, Scanner(State.Literal, 15, 21, [Token(1, 7, "script", TokenKind.OpenTag), Token(7, 7, "", TokenKind.OpenTagEnd), Token(8, 15, "var x='", TokenKind.Literal)], true, false), ScriptBody[21]) == Ok(Scanner(State.Literal, 15, 21, [Token(1, 7, "script", TokenKind.OpenTag), Token(7, 7, "", TokenKind.OpenTagEnd), Token(8, 15, "var x='", TokenKind.Literal)], true, false));
    assert Loop(ScriptBody, Scanner(State.Literal, 15, 21, [Token(1, 7, "script", TokenKind.OpenTag), Token(7, 7, "", TokenKind.OpenTagEnd), Token(8, 15, "var x='", TokenKind.Literal)], true, false)) == Loop(ScriptBody, Scanner(State.Literal, 15, 22, [Token(1, 7, "script", TokenKind.OpenTag), Token(7, 7, "", TokenKind.OpenTagEnd), Token(8, 15, "var x='", TokenKind.Literal)], true, false));
    assert Emit(ScriptBody, Scanner(State.Literal, 15, 22, [Token(1, 7, "script", TokenKind.OpenTag), Token(7, 7, "", TokenKind.OpenTagEnd), Token(8, 15, "var x='", TokenKind.Literal)], true, false), TokenKind.Literal, State.BeforeOpenTag, 22) == Scanner(State.BeforeOpenTag, 22, 22, [Token(1, 7, "script", TokenKind.OpenTag), Token(7, 7, "", TokenKind.OpenTagEnd), Token(8, 15, "var x='", TokenKind.Literal), Token(15, 22, "<div>';", TokenKind.Literal)], true, false);
    assert Dispatch(ScriptBody, Scanner(State.Literal, 15, 22, [Token(1, 7, "script", TokenKind.OpenTag), Token(7, 7, "", TokenKind.OpenTagEnd), Token(8, 15, "var x='", TokenKind.Literal)], true, false), ScriptBody[22]) == Ok(Scanner(State.BeforeOpenTag, 22, 22, [Token(1, 7, "script", TokenKind.OpenTag), Token(7, 7, "", TokenKind.OpenTagEnd), Token(8, 15, "var x='", TokenKind.Literal), Token(15, 22, "<div>';", TokenKind.Literal)], true, false));
    assert [Token(1, 7, "script", TokenKind.OpenTag), Token(7, 7, "", TokenKind.OpenTagEnd), Token(8, 15, "var x='", TokenKind.Literal)] + [Token(15, 22, "<div>';", TokenKind.Literal)] == [Token(1, 7, "script", TokenKind.OpenTag), Token(7, 7, "", TokenKind.OpenTagEnd), Token(8, 15, "var x='", TokenKind.Literal), Token(15, 22, "<div>';", TokenKind.Literal)];
    assert Loop(ScriptBody, Scanner(State.Literal, 15, 22, [Token(1, 7, "script", TokenKind.OpenTag), Token(7, 7, "", TokenKind.OpenTagEnd), Token(8, 15, "var x='", TokenKind.Literal)], true, false)) == Loop(ScriptBody, Scanner(State.BeforeOpenTag, 22, 23, [Token(1, 7, "script", TokenKind.OpenTag), Token(7, 7, "", TokenKind.OpenTagEnd), Token(8, 15, "var x='", TokenKind.Literal), Token(15, 22, "<div>';", TokenKind.Literal)], true, false));
  }

  lemma ScriptBodyPart7()
    ensures Loop(ScriptBody, Scanner(State.BeforeOpenTag, 22, 23, [Token(1, 7, "script", TokenKind.OpenTag), Token(7, 7, "", TokenKind.OpenTagEnd), Token(8, 15, "var x='", TokenKind.Literal), Token(15, 22, "<div>';", TokenKind.Literal)], true, false)) == Loop(ScriptBody, Scanner(State.ClosingTag, 24, 25, [Token(1, 7, "script", TokenKind.OpenTag), Token(7, 7, "", TokenKind.OpenTagEnd), Token(8, 15, "var x='", TokenKind.Literal), Token(15, 22, "<div>';", TokenKind.Literal)], true, false))
  {
    ScriptBodyText();
    assert Dispatch(ScriptBody, Scanner(State.BeforeOpenTag, 22, 23, [Token(1, 7, "script", TokenKind.OpenTag), Token(7, 7, "", TokenKind.OpenTagEnd), Token(8, 15, "var x='", TokenKind.Literal), Token(15, 22, "<div>';", TokenKind.Literal)], true, false), ScriptBody[23]) == Ok(Scanner(State.ClosingTag, 24, 23, [Token(1, 7, "script", TokenKind.OpenTag), Token(7, 7, "", TokenKind.OpenTagEnd), Token(8, 15, "var x='", TokenKind.Literal), Token(15, 22, "<div>';", TokenKind.Literal)], true, false));
    assert Loop(ScriptBody, Scanner(State.BeforeOpenTag, 22, 23, [Token(1, 7, "script", TokenKind.OpenTag), Token(7, 7, "", TokenKind.OpenTagEnd), Token(8, 15, "var x='", TokenKind.Literal), Token(15, 22, "<div>';", TokenKind.Literal)], true, false)) == Loop(ScriptBody, Scanner(State.ClosingTag, 24, 24, [Token(1, 7, "script", TokenKind.OpenTag), Token(7, 7, "", TokenKind.OpenTagEnd), Token(8, 15, "var x='", TokenKind.Literal), Token(15, 22, "<div>';", TokenKind.Literal)], true, false));
    assert Dispatch(ScriptBody, Scanner(State.ClosingTag, 24, 24, [Token(1, 7, "script", TokenKind.OpenTag), Token(7, 7, "", TokenKind.OpenTagEnd), Token(8, 15, "var x='", TokenKind.Literal), Token(15, 22, "<div>';", TokenKind.Literal)], true, false), ScriptBody[24]) == Ok(Scanner(State.ClosingTag, 24, 24, [Token(1, 7, "script", TokenKind.OpenTag), Token(7, 7, "", TokenKind.OpenTagEnd), Token(8, 15, "var x='", TokenKind.Literal), Token(15, 22, "<div>';", TokenKind.Literal)], true, false));
    assert Loop(ScriptBody, Scanner(State.ClosingTag, 24, 24, [Token(1, 7, "script", TokenKind.OpenTag), Token(7, 7, "", TokenKind.OpenTagEnd), Token(8, 15, "var x='", TokenKind.Literal), Token(15, 22, "<div>';", TokenKind.Literal)], true, false)) == Loop(ScriptBody, Scanner(State.ClosingTag, 24, 25, [Token(1, 7, "script", TokenKind.OpenTag), Token(7, 7, "", TokenKind.OpenTagEnd), Token(8, 15, "var x='", TokenKind.Literal), Token(15, 22, "<div>';", TokenKind.Literal)], true, false));
  }

  lemma ScriptBodyPart8()
    ensures Loop(ScriptBody, Scanner(State.ClosingTag, 24, 25, [Token(1, 7, "script", TokenKind.OpenTag), Token(7, 7, "", TokenKind.OpenTagEnd), Token(8, 15, "var x='", TokenKind.Literal), Token(15, 22, "<div>';", TokenKind.Literal)], true, false)) == Loop(ScriptBody, Scanner(State.ClosingTag, 24, 26, [Token(1, 7, "script", TokenKind.OpenTag), Token(7, 7, "", TokenKind.OpenTagEnd), Token(8, 15, "var x='", TokenKind.Literal), Token(15, 22, "<div>';", TokenKind.Literal)], true, false))
  {
    ScriptBodyText();
    assert Dispatch(ScriptBody, Scanner(State.ClosingTag, 24, 25, [Token(1, 7, "script", TokenKind.OpenTag), Token(7, 7, "", TokenKind.OpenTagEnd), Token(8, 15, "var x='", TokenKind.Literal), Token(15, 22, "<div>';", TokenKind.Literal)], true, false), ScriptBody[25]) == Ok(Scanner(State.ClosingTag, 24, 25, [Token(1, 7, "script", TokenKind.OpenTag), Token(7, 7, "", TokenKind.OpenTagEnd), Token(8, 15, "var x='", TokenKind.Literal), Token(15, 22, "<div>';", TokenKind.Literal)], true, false));
    assert Loop(ScriptBody, Scanner(State.ClosingTag, 24, 25, [Token(1, 7, "script", TokenKind.OpenTag), Token(7, 7, "", TokenKind.OpenTagEnd), Token(8, 15, "var x='", TokenKind.Literal), Token(15, 22, "<div>';", TokenKind.Literal)], true, false)) == Loop(ScriptBody, Scanner(State.ClosingTag, 24, 26, [Token(1, 7, "script", TokenKind.OpenTag), Token(7, 7, "", TokenKind.OpenTagEnd), Token(8, 15, "var x='", TokenKind.Literal), Token(15, 22, "<div>';", TokenKind.Literal)], true, false));
  }

  lemma ScriptBodyPart9()
    ensures Loop(ScriptBody, Scanner(State.ClosingTag, 24, 26, [Token(1, 7, "script", TokenKind.OpenTag), Token(7, 7, "", TokenKind.OpenTagEnd), Token(8, 15, "var x='", TokenKind.Literal), Token(15, 22, "<div>';", TokenKind.Literal)], true, false)) == Loop(ScriptBody, Scanner(State.ClosingTag, 24, 27, [Token(1, 7, "script", TokenKind.OpenTag), Token(7, 7, "", TokenKind.OpenTagEnd), Token(8, 15, "var x='", TokenKind.Literal), Token(15, 22, "<div>';", TokenKind.Literal)], true, false))
  {
    ScriptBodyText();
    assert Dispatch(ScriptBody, Scanner(State.ClosingTag, 24, 26, [Token(1, 7, "script", TokenKind.OpenTag), Token(7, 7, "", TokenKind.OpenTagEnd), Token(8, 15, "var x='", TokenKind.Literal), Token(15, 22, "<div>';", TokenKind.Literal)], true, false), ScriptBody[26]) == Ok(Scanner(State.ClosingTag, 24, 26, [Token(1, 7, "script", TokenKind.OpenTag), Token(7, 7, "", TokenKind.OpenTagEnd), Token(8, 15, "var x='", TokenKind.Literal), Token(15, 22, "<div>';", TokenKind.Literal)], true, false));
    assert Loop(ScriptBody, Scanner(State.ClosingTag, 24, 26, [Token(1, 7, "script", TokenKind.OpenTag), Token(7, 7, "", TokenKind.OpenTagEnd), Token(8, 15, "var x='", TokenKind.Literal), Token(15, 22, "<div>';", TokenKind.Literal)], true, false)) == Loop(ScriptBody, Scanner(State.ClosingTag, 24, 27, [Token(1, 7, "script", TokenKind.OpenTag), Token(7, 7, "", TokenKind.OpenTagEnd), Token(8, 15, "var x='", TokenKind.Literal), Token(15, 22, "<div>';", TokenKind.Literal)], true, false));
  }

  lemma ScriptBodyPart10()
    ensures Loop(ScriptBody, Scanner(State.ClosingTag, 24, 27, [Token(1, 7, "script", TokenKind.OpenTag), Token(7, 7, "", TokenKind.OpenTagEnd), Token(8, 15, "var x='", TokenKind.Literal), Token(15, 22, "<div>';", TokenKind.Literal)], true, false)) == Loop(ScriptBody, Scanner(State.ClosingTag, 24, 28, [Token(1, 7, "script", TokenKind.OpenTag), Token(7, 7, "", TokenKind.OpenTagEnd), Token(8, 15, "var x='", TokenKind.Literal), Token(15, 22, "<div>';", TokenKind.Literal)], true, false))
  {
    ScriptBodyText();
    assert Dispatch(ScriptBody, Scanner(State.ClosingTag, 24, 27, [Token(1, 7, "script", TokenKind.OpenTag), Token(7, 7, "", TokenKind.OpenTagEnd), Token(8, 15, "var x='", TokenKind.Literal), Token(15, 22, "<div>';", TokenKind.Literal)], true, false), ScriptBody[27]) == Ok(Scanner(State.ClosingTag, 24, 27, [Token(1, 7, "script", TokenKind.OpenTag), Token(7, 7, "", TokenKind.OpenTagEnd), Token(8, 15, "var x='", TokenKind.Literal), Token(15, 22, "<div>';", TokenKind.Literal)], true, false));
    assert Loop(ScriptBody, Scanner(State.ClosingTag, 24, 27, [Token(1, 7, "script", TokenKind.OpenTag), Token(7, 7, "", TokenKind.OpenTagEnd), Token(8, 15, "var x='", TokenKind.Literal), Token(15, 22, "<div>';", TokenKind.Literal)], true, false)) == Loop(ScriptBody, Scanner(State.ClosingTag, 24, 28, [Token(1, 7, "script", TokenKind.OpenTag), Token(7, 7, "", TokenKind.OpenTagEnd), Token(8, 15, "var x='", TokenKind.Literal), Token(15, 22, "<div>';", TokenKind.Literal)], true, false));
  }

  lemma ScriptBodyPart11()
    ensures Loop(ScriptBody, Scanner(State.ClosingTag, 24, 28, [Token(1, 7, "script", TokenKind.OpenTag), Token(7, 7, "", TokenKind.OpenTagEnd), Token(8, 15, "var x='", TokenKind.Literal), Token(15, 22, "<div>';", TokenKind.Literal)], true, false)) == Loop(ScriptBody, Scanner(State.ClosingTag, 24, 29, [Token(1, 7, "script", TokenKind.OpenTag), Token(7, 7, "", TokenKind.OpenTagEnd), Token(8, 15, "var x='", TokenKind.Literal), Token(15, 22, "<div>';", TokenKind.Literal)], true, false))
  {
    ScriptBodyText();
    assert Dispatch(ScriptBody, Scanner(State.ClosingTag, 24, 28, [Token(1, 7, "script", TokenKind.OpenTag), Token(7, 7, "", TokenKind.OpenTagEnd), Token(8, 15, "var x='", TokenKind.Literal), Token(15, 22, "<div>';", TokenKind.Literal)], true, false), ScriptBody[28]) == Ok(Scanner(State.ClosingTag, 24, 28, [Token(1, 7, "script", TokenKind.OpenTag), Token(7, 7, "", TokenKind.OpenTagEnd), Token(8, 15, "var x='", TokenKind.Literal), Token(15, 22, "<div>';", TokenKind.Literal)], true, false));
    assert Loop(ScriptBody, Scanner(State.ClosingTag, 24, 28, [Token(1, 7, "script", TokenKind.OpenTag), Token(7, 7, "", TokenKind.OpenTagEnd), Token(8, 15, "var x='", TokenKind.Literal), Token(15, 22, "<div>';", TokenKind.Literal)], true, false)) == Loop(ScriptBody, Scanner(State.ClosingTag, 24, 29, [Token(1, 7, "script", TokenKind.OpenTag), Token(7, 7, "", TokenKind.OpenTagEnd), Token(8, 15, "var x='", TokenKind.Literal), Token(15, 22, "<div>';", TokenKind.Literal)], true, false));
  }

  lemma ScriptBodyPart12()
    ensures Loop(ScriptBody, Scanner(State.ClosingTag, 24, 29, [Token(1, 7, "script", TokenKind.OpenTag), Token(7, 7, "", TokenKind.OpenTagEnd), Token(8, 15, "var x='", TokenKind.Literal), Token(15, 22, "<div>';", TokenKind.Literal)], true, false)) == Loop(ScriptBody, Scanner(State.ClosingTag, 24, 30, [Token(1, 7, "script", TokenKind.OpenTag), Token(7, 7, "", TokenKind.OpenTagEnd), Token(8, 15, "var x='", TokenKind.Literal), Token(15, 22, "<div>';", TokenKind.Literal)], true, false))
  {
    ScriptBodyText();
    assert Dispatch(ScriptBody, Scanner(State.ClosingTag, 24, 29, [Token(1, 7, "script", TokenKind.OpenTag), Token(7, 7, "", TokenKind.OpenTagEnd), Token(8, 15, "var x='", TokenKind.Literal), Token(15, 22, "<div>';", TokenKind.Literal)], true, false), ScriptBody[29]) == Ok(Scanner(State.ClosingTag, 24, 29, [Token(1, 7, "script", TokenKind.OpenTag), Token(7, 7, "", TokenKind.OpenTagEnd), Token(8, 15, "var x='", TokenKind.Literal), Token(15, 22, "<div>';", TokenKind.Literal)], true, false));
    assert Loop(ScriptBody, Scanner(State.ClosingTag, 24, 29, [Token(1, 7, "script", TokenKind.OpenTag), Token(7, 7, "", TokenKind.OpenTagEnd), Token(8, 15, "var x='", TokenKind.Literal), Token(15, 22, "<div>';", TokenKind.Literal)], true, false)) == Loop(ScriptBody, Scanner(State.ClosingTag, 24, 30, [Token(1, 7, "script", TokenKind.OpenTag), Token(7, 7, "", TokenKind.OpenTagEnd), Token(8, 15, "var x='", TokenKind.Literal), Token(15, 22, "<div>';", TokenKind.Literal)], true, false));
  }

  lemma ScriptBodyPart13()
    ensures Loop(ScriptBody, Scanner(State.ClosingTag, 24, 30, [Token(1, 7, "script", TokenKind.OpenTag), Token(7, 7, "", TokenKind.OpenTagEnd), Token(8, 15, "var x='", TokenKind.Literal), Token(15, 22, "<div>';", TokenKind.Literal)], true, false)) == Loop(ScriptBody, Scanner(State.Literal, 31, 31, [Token(1, 7, "script", TokenKind.OpenTag), Token(7, 7, "", TokenKind.OpenTagEnd), Token(8, 15, "var x='", TokenKind.Literal), Token(15, 22, "<div>';", TokenKind.Literal), Token(24, 30, "script", TokenKind.CloseTag)], false, false))
  {
    ScriptBodyText();
    assert Emit(ScriptBody, Scanner(State.ClosingTag, 24, 30, [Token(1, 7, "script", TokenKind.OpenTag), Token(7, 7, "", TokenKind.OpenTagEnd), Token(8, 15, "var x='", TokenKind.Literal), Token(15, 22, "<div>';", TokenKind.Literal)], true, false), TokenKind.CloseTag, State.ClosingTag, 30) == Scanner(State.Literal, 31, 30, [Token(1, 7, "script", TokenKind.OpenTag), Token(7, 7, "", TokenKind.OpenTagEnd), Token(8, 15, "var x='", TokenKind.Literal), Token(15, 22, "<div>';", TokenKind.Literal), Token(24, 30, "script", TokenKind.CloseTag)], false, false);
    assert Dispatch(ScriptBody, Scanner(State.ClosingTag, 24, 30, [Token(1, 7, "script", TokenKind.OpenTag), Token(7, 7, "", TokenKind.OpenTagEnd), Token(8, 15, "var x='", TokenKind.Literal), Token(15, 22, "<div>';", TokenKind.Literal)], true, false), ScriptBody[30]) == Ok(Scanner(State.Literal, 31, 30, [Token(1, 7, "script", TokenKind.OpenTag), Token(7, 7, "", TokenKind.OpenTagEnd), Token(8, 15, "var x='", TokenKind.Literal), Token(15, 22, "<div>';", TokenKind.Literal), Token(24, 30, "script", TokenKind.CloseTag)], false, false));
    assert [Token(1, 7, "script", TokenKind.OpenTag), Token(7, 7, "", TokenKind.OpenTagEnd), Token(8, 15, "var x='", TokenKind.Literal), Token(15, 22, "<div>';", TokenKind.Literal)] + [Token(24, 30, "script", TokenKind.CloseTag)] == [Token(1, 7, "script", TokenKind.OpenTag), Token(7, 7, "", TokenKind.OpenTagEnd), Token(8, 15, "var x='", TokenKind.Literal), Token(15, 22, "<div>';", TokenKind.Literal), Token(24, 30, "script", TokenKind.CloseTag)];
    assert Loop(ScriptBody, Scanner(State.ClosingTag, 24, 30, [Token(1, 7, "script", TokenKind.OpenTag), Token(7, 7, "", TokenKind.OpenTagEnd), Token(8, 15, "var x='", TokenKind.Literal), Token(15, 22, "<div>';", TokenKind.Literal)], true, false)) == Loop(ScriptBody, Scanner(State.Literal, 31, 31, [Token(1, 7, "script", TokenKind.OpenTag), Token(7, 7, "", TokenKind.OpenTagEnd), Token(8, 15, "var x='", TokenKind.Literal), Token(15, 22, "<div>';", TokenKind.Literal), Token(24, 30, "script", TokenKind.CloseTag)], false, false));
  }

  lemma ScriptBodyStage1()
    ensures Loop(ScriptBody, Init()) == Loop(ScriptBody, Scanner(State.Literal, 15, 19, [Token(1, 7, "script", TokenKind.OpenTag), Token(7, 7, "", TokenKind.OpenTagEnd), Token(8, 15, "var x='", TokenKind.Literal)], true, false))
  {
    ScriptBodyPart1();
    ScriptBodyPart2();
    ScriptBodyPart3();
    ScriptBodyPart4();
    ScriptBodyPart5();
  }

  lemma ScriptBodyStage2()
    ensures Loop(ScriptBody, Scanner(State.Literal, 15, 19, [Token(1, 7, "script", TokenKind.OpenTag), Token(7, 7, "", TokenKind.OpenTagEnd), Token(8, 15, "var x='", TokenKind.Literal)], true, false)) == Loop(ScriptBody, Scanner(State.ClosingTag, 24, 28, [Token(1, 7, "script", TokenKind.OpenTag), Token(7, 7, "", TokenKind.OpenTagEnd), Token(8, 15, "var x='", TokenKind.Literal), Token(15, 22, "<div>';", TokenKind.Literal)], true, false))
  {
    ScriptBodyPart6();
    ScriptBodyPart7();
    ScriptBodyPart8();
    ScriptBodyPart9();
    ScriptBodyPart10();
  }

  lemma ScriptBodyStage3()
    ensures Loop(ScriptBody, Scanner(State.ClosingTag, 24, 28, [Token(1, 7, "script", TokenKind.OpenTag), Token(7, 7, "", TokenKind.OpenTagEnd), Token(8, 15, "var x='", TokenKind.Literal), Token(15, 22, "<div>';", TokenKind.Literal)], true, false)) == Loop(ScriptBody, Scanner(State.Literal, 31, 31, [Token(1, 7, "script", TokenKind.OpenTag), Token(7, 7, "", TokenKind.OpenTagEnd), Token(8, 15, "var x='", TokenKind.Literal), Token(15, 22, "<div>';", TokenKind.Literal), Token(24, 30, "script", TokenKind.CloseTag)], false, false))
  {
    ScriptBodyPart11();
    ScriptBodyPart12();
    ScriptBodyPart13();
  }

  /** Markup inside `script` stays text: the body comes out as two Literals split at the inner `<`, then the CloseTag. */
  lemma ScriptBodyTokens()
    ensures Tokenize(ScriptBody) == Ok([Token(1, 7, "script", TokenKind.OpenTag), Token(7, 7, "", TokenKind.OpenTagEnd), Token(8, 15, "var x='", TokenKind.Literal), Token(15, 22, "<div>';", TokenKind.Literal), Token(24, 30, "script", TokenKind.CloseTag)])
  {
    ScriptBodyText();
    ScriptBodyStage1();
    ScriptBodyStage2();
    ScriptBodyStage3();
    assert Loop(ScriptBody, Scanner(State.Literal, 31, 31, [Token(1, 7, "script", TokenKind.OpenTag), Token(7, 7, "", TokenKind.OpenTagEnd), Token(8, 15, "var x='", TokenKind.Literal), Token(15, 22, "<div>';", TokenKind.Literal), Token(24, 30, "script", TokenKind.CloseTag)], false, false)) == Ok(Scanner(State.Literal, 31, 31, [Token(1, 7, "script", TokenKind.OpenTag), Token(7, 7, "", TokenKind.OpenTagEnd), Token(8, 15, "var x='", TokenKind.Literal), Token(15, 22, "<div>';", TokenKind.Literal), Token(24, 30, "script", TokenKind.CloseTag)], false, false));
    assert Emit(ScriptBody, Scanner(State.Literal, 31, 31, [Token(1, 7, "script", TokenKind.OpenTag), Token(7, 7, "", TokenKind.OpenTagEnd), Token(8, 15, "var x='", TokenKind.Literal), Token(15, 22, "<div>';", TokenKind.Literal), Token(24, 30, "script", TokenKind.CloseTag)], false, false), TokenKind.Literal, State.Literal, 31) == Scanner(State.Literal, 31, 31, [Token(1, 7, "script", TokenKind.OpenTag), Token(7, 7, "", TokenKind.OpenTagEnd), Token(8, 15, "var x='", TokenKind.Literal), Token(15, 22, "<div>';", TokenKind.Literal), Token(24, 30, "script", TokenKind.CloseTag)], false, false);
    assert Finish(ScriptBody, Scanner(State.Literal, 31, 31, [Token(1, 7, "script", TokenKind.OpenTag), Token(7, 7, "", TokenKind.OpenTagEnd), Token(8, 15, "var x='", TokenKind.Literal), Token(15, 22, "<div>';", TokenKind.Literal), Token(24, 30, "script", TokenKind.CloseTag)], false, false)).tokens == [Token(1, 7, "script", TokenKind.OpenTag), Token(7, 7, "", TokenKind.OpenTagEnd), Token(8, 15, "var x='", TokenKind.Literal), Token(15, 22, "<div>';", TokenKind.Literal), Token(24, 30, "script", TokenKind.CloseTag)];
  }

  const Comment := "<!-- c -->"

  lemma CommentText()
    ensures Comment[0] == '<' && Comment[1] == '!' && Comment[2] == '-' && Comment[3] == '-' && Comment[4] == ' ' && Comment[5] == 'c' && Comment[6] == ' ' && Comment[7] == '-'
    ensures Comment[8] == '-' && Comment[9] == '>'
    ensures |Comment| == 10
    ensures Comment[1..4] == "!--"
    ensures Comment[4..7] == " c "
    ensures Comment[7..9] == "--"
    ensures Lower("!--") == "!--"
  {
    assert Comment[0] == '<' && Comment[1] == '!' && Comment[2] == '-' && Comment[3] == '-' && Comment[4] == ' ' && Comment[5] == 'c' && Comment[6] == ' ' && Comment[7] == '-';
    assert Comment[8] == '-' && Comment[9] == '>';
    assert Comment[1..4] == [Comment[1], Comment[2], Comment[3]];
    assert Comment[4..7] == [Comment[4], Comment[5], Comment[6]];
    assert Comment[7..9] == [Comment[7], Comment[8]];
  }

  lemma CommentPart1()
    ensures Loop(Comment, Init()) == Loop(Comment, Scanner(State.OpeningNormalComment, 1, 3, [], false, false))
  {
    CommentText();
    assert Emit(Comment, Scanner(State.Literal, 0, 0, [], false, false), TokenKind.Literal, State.BeforeOpenTag, 0) == Scanner(State.BeforeOpenTag, 0, 0, [], false, false);
    assert Dispatch(Comment, Scanner(State.Literal, 0, 0, [], false, false), Comment[0]) == Ok(Scanner(State.BeforeOpenTag, 0, 0, [], false, false));
    assert Loop(Comment, Scanner(State.Literal, 0, 0, [], false, false)) == Loop(Comment, Scanner(State.BeforeOpenTag, 0, 1, [], false, false));
    assert Dispatch(Comment, Scanner(State.BeforeOpenTag, 0, 1, [], false, false), Comment[1]) == Ok(Scanner(State.OpeningSpecial, 1, 1, [], false, false));
    assert Loop(Comment, Scanner(State.BeforeOpenTag, 0, 1, [], false, false)) == Loop(Comment, Scanner(State.OpeningSpecial, 1, 2, [], false, false));
    assert Dispatch(Comment, Scanner(State.OpeningSpecial, 1, 2, [], false, false), Comment[2]) == Ok(Scanner(State.OpeningNormalComment, 1, 2, [], false, false));
    assert Loop(Comment, Scanner(State.OpeningSpecial, 1, 2, [], false, false)) == Loop(Comment, Scanner(State.OpeningNormalComment, 1, 3, [], false, false));
  }

  lemma CommentPart2()
    ensures Loop(Comment, Scanner(State.OpeningNormalComment, 1, 3, [], false, false)) == Loop(Comment, Scanner(State.InNormalComment, 4, 7, [Token(1, 4, "!--", TokenKind.OpenTag)], false, false))
  {
    CommentOpened();
    CommentBody();
  }

  lemma CommentOpened()
    ensures Loop(Comment, Scanner(State.OpeningNormalComment, 1, 3, [], false, false)) == Loop(Comment, Scanner(State.InNormalComment, 4, 4, [Token(1, 4, "!--", TokenKind.OpenTag)], false, false))
  {
    CommentText();
    assert Emit(Comment, Scanner(State.OpeningNormalComment, 1, 3, [], false, false), TokenKind.OpenTag, State.InNormalComment, 4) == Scanner(State.InNormalComment, 4, 3, [Token(1, 4, "!--", TokenKind.OpenTag)], false, false);
    assert Dispatch(Comment, Scanner(State.OpeningNormalComment, 1, 3, [], false, false), Comment[3]) == Ok(Scanner(State.InNormalComment, 4, 3, [Token(1, 4, "!--", TokenKind.OpenTag)], false, false));
    assert Loop(Comment, Scanner(State.OpeningNormalComment, 1, 3, [], false, false)) == Loop(Comment, Scanner(State.InNormalComment, 4, 4, [Token(1, 4, "!--", TokenKind.OpenTag)], false, false));
  }

  lemma CommentBody()
    ensures Loop(Comment, Scanner(State.InNormalComment, 4, 4, [Token(1, 4, "!--", TokenKind.OpenTag)], false, false)) == Loop(Comment, Scanner(State.InNormalComment, 4, 7, [Token(1, 4, "!--", TokenKind.OpenTag)], false, false))
  {
    CommentText();
    assert Dispatch(Comment, Scanner(State.InNormalComment, 4, 4, [Token(1, 4, "!--", TokenKind.OpenTag)], false, false), Comment[4]) == Ok(Scanner(State.InNormalComment, 4, 4, [Token(1, 4, "!--", TokenKind.OpenTag)], false, false));
    assert Loop(Comment, Scanner(State.InNormalComment, 4, 4, [Token(1, 4, "!--", TokenKind.OpenTag)], false, false)) == Loop(Comment, Scanner(State.InNormalComment, 4, 5, [Token(1, 4, "!--", TokenKind.OpenTag)], false, false));
    assert Dispatch(Comment, Scanner(State.InNormalComment, 4, 5, [Token(1, 4, "!--", TokenKind.OpenTag)], false, false), Comment[5]) == Ok(Scanner(State.InNormalComment, 4, 5, [Token(1, 4, "!--", TokenKind.OpenTag)], false, false));
    assert Loop(Comment, Scanner(State.InNormalComment, 4, 5, [Token(1, 4, "!--", TokenKind.OpenTag)], false, false)) == Loop(Comment, Scanner(State.InNormalComment, 4, 6, [Token(1, 4, "!--", TokenKind.OpenTag)], false, false));
    assert Dispatch(Comment, Scanner(State.InNormalComment, 4, 6, [Token(1, 4, "!--", TokenKind.OpenTag)], false, false), Comment[6]) == Ok(Scanner(State.InNormalComment, 4, 6, [Token(1, 4, "!--", TokenKind.OpenTag)], false, false));
    assert Loop(Comment, Scanner(State.InNormalComment, 4, 6, [Token(1, 4, "!--", TokenKind.OpenTag)], false, false)) == Loop(Comment, Scanner(State.InNormalComment, 4, 7, [Token(1, 4, "!--", TokenKind.OpenTag)], false, false));
  }

  lemma CommentPart3()
    ensures Loop(Comment, Scanner(State.InNormalComment, 4, 7, [Token(1, 4, "!--", TokenKind.OpenTag)], false, false)) == Loop(Comment, Scanner(State.ClosingNormalComment, 7, 9, [Token(1, 4, "!--", TokenKind.OpenTag), Token(4, 7, " c ", TokenKind.Literal)], false, false))
  {
    CommentText();
    assert Emit(Comment, Scanner(State.InNormalComment, 4, 7, [Token(1, 4, "!--", TokenKind.OpenTag)], false, false), TokenKind.Literal, State.ClosingNormalComment, 7) == Scanner(State.ClosingNormalComment, 7, 7, [Token(1, 4, "!--", TokenKind.OpenTag), Token(4, 7, " c ", TokenKind.Literal)], false, false);
    assert Dispatch(Comment, Scanner(State.InNormalComment, 4, 7, [Token(1, 4, "!--", TokenKind.OpenTag)], false, false), Comment[7]) == Ok(Scanner(State.ClosingNormalComment, 7, 7, [Token(1, 4, "!--", TokenKind.OpenTag), Token(4, 7, " c ", TokenKind.Literal)], false, false));
    assert [Token(1, 4, "!--", TokenKind.OpenTag)] + [Token(4, 7, " c ", TokenKind.Literal)] == [Token(1, 4, "!--", TokenKind.OpenTag), Token(4, 7, " c ", TokenKind.Literal)];
    assert Loop(Comment, Scanner(State.InNormalComment, 4, 7, [Token(1, 4, "!--", TokenKind.OpenTag)], false, false)) == Loop(Comment, Scanner(State.ClosingNormalComment, 7, 8, [Token(1, 4, "!--", TokenKind.OpenTag), Token(4, 7, " c ", TokenKind.Literal)], false, false));
    assert Dispatch(Comment, Scanner(State.ClosingNormalComment, 7, 8, [Token(1, 4, "!--", TokenKind.OpenTag), Token(4, 7, " c ", TokenKind.Literal)], false, false), Comment[8]) == Ok(Scanner(State.ClosingNormalComment, 7, 8, [Token(1, 4, "!--", TokenKind.OpenTag), Token(4, 7, " c ", TokenKind.Literal)], false, false));
    assert Loop(Comment, Scanner(State.ClosingNormalComment, 7, 8, [Token(1, 4, "!--", TokenKind.OpenTag), Token(4, 7, " c ", TokenKind.Literal)], false, false)) == Loop(Comment, Scanner(State.ClosingNormalComment, 7, 9, [Token(1, 4, "!--", TokenKind.OpenTag), Token(4, 7, " c ", TokenKind.Literal)], false, false));
  }

  lemma CommentPart4()
    ensures Loop(Comment, Scanner(State.ClosingNormalComment, 7, 9, [Token(1, 4, "!--", TokenKind.OpenTag), Token(4, 7, " c ", TokenKind.Literal)], false, false)) == Loop(Comment, Scanner(State.Literal, 10, 10, [Token(1, 4, "!--", TokenKind.OpenTag), Token(4, 7, " c ", TokenKind.Literal), Token(7, 9, "--", TokenKind.OpenTagEnd)], false, false))
  {
    CommentText();
    assert Emit(Comment, Scanner(State.ClosingNormalComment, 7, 9, [Token(1, 4, "!--", TokenKind.OpenTag), Token(4, 7, " c ", TokenKind.Literal)], false, false), TokenKind.OpenTagEnd, State.ClosingNormalComment, 9) == Scanner(State.Literal, 10, 9, [Token(1, 4, "!--", TokenKind.OpenTag), Token(4, 7, " c ", TokenKind.Literal), Token(7, 9, "--", TokenKind.OpenTagEnd)], false, false);
    assert Dispatch(Comment, Scanner(State.ClosingNormalComment, 7, 9, [Token(1, 4, "!--", TokenKind.OpenTag), Token(4, 7, " c ", TokenKind.Literal)], false, false), Comment[9]) == Ok(Scanner(State.Literal, 10, 9, [Token(1, 4, "!--", TokenKind.OpenTag), Token(4, 7, " c ", TokenKind.Literal), Token(7, 9, "--", TokenKind.OpenTagEnd)], false, false));
    assert [Token(1, 4, "!--", TokenKind.OpenTag), Token(4, 7, " c ", TokenKind.Literal)] + [Token(7, 9, "--", TokenKind.OpenTagEnd)] == [Token(1, 4, "!--", TokenKind.OpenTag), Token(4, 7, " c ", TokenKind.Literal), Token(7, 9, "--", TokenKind.OpenTagEnd)];
    assert Loop(Comment, Scanner(State.ClosingNormalComment, 7, 9, [Token(1, 4, "!--", TokenKind.OpenTag), Token(4, 7, " c ", TokenKind.Literal)], false, false)) == Loop(Comment, Scanner(State.Literal, 10, 10, [Token(1, 4, "!--", TokenKind.OpenTag), Token(4, 7, " c ", TokenKind.Literal), Token(7, 9, "--", TokenKind.OpenTagEnd)], false, false));
  }

  /** A normal comment: OpenTag `!--`, the body as a Literal, and OpenTagEnd `--`. */
  lemma CommentTokens()
    ensures Tokenize(Comment) == Ok([Token(1, 4, "!--", TokenKind.OpenTag), Token(4, 7, " c ", TokenKind.Literal), Token(7, 9, "--", TokenKind.OpenTagEnd)])
  {
    CommentText();
    CommentPart1();
    CommentPart2();
    CommentPart3();
    CommentPart4();
    assert Loop(Comment, Scanner(State.Literal, 10, 10, [Token(1, 4, "!--", TokenKind.OpenTag), Token(4, 7, " c ", TokenKind.Literal), Token(7, 9, "--", TokenKind.OpenTagEnd)], false, false)) == Ok(Scanner(State.Literal, 10, 10, [Token(1, 4, "!--", TokenKind.OpenTag), Token(4, 7, " c ", TokenKind.Literal), Token(7, 9, "--", TokenKind.OpenTagEnd)], false, false));
    assert Emit(Comment, Scanner(State.Literal, 10, 10, [Token(1, 4, "!--", TokenKind.OpenTag), Token(4, 7, " c ", TokenKind.Literal), Token(7, 9, "--", TokenKind.OpenTagEnd)], false, false), TokenKind.Literal, State.Literal, 10) == Scanner(State.Literal, 10, 10, [Token(1, 4, "!--", TokenKind.OpenTag), Token(4, 7, " c ", TokenKind.Literal), Token(7, 9, "--", TokenKind.OpenTagEnd)], false, false);
    assert Finish(Comment, Scanner(State.Literal, 10, 10, [Token(1, 4, "!--", TokenKind.OpenTag), Token(4, 7, " c ", TokenKind.Literal), Token(7, 9, "--", TokenKind.OpenTagEnd)], false, false)).tokens == [Token(1, 4, "!--", TokenKind.OpenTag), Token(4, 7, " c ", TokenKind.Literal), Token(7, 9, "--", TokenKind.OpenTagEnd)];
  }

  const DoctypeHtml := "<!DOCTYPE html>"

  lemma DoctypeHtmlText()
    ensures DoctypeHtml[0] == '<' && DoctypeHtml[1] == '!' && DoctypeHtml[2] == 'D' && DoctypeHtml[3] == 'O' && DoctypeHtml[4] == 'C' && DoctypeHtml[5] == 'T' && DoctypeHtml[6] == 'Y' && DoctypeHtml[7] == 'P'
    ensures DoctypeHtml[8] == 'E' && DoctypeHtml[9] == ' ' && DoctypeHtml[10] == 'h' && DoctypeHtml[11] == 't' && DoctypeHtml[12] == 'm' && DoctypeHtml[13] == 'l' && DoctypeHtml[14] == '>'
    ensures |DoctypeHtml| == 15
    ensures DoctypeHtml[1..9] == "!DOCTYPE"
    ensures DoctypeHtml[9..10] == " "
    ensures DoctypeHtml[10..14] == "html"
    ensures Lower("!DOCTYPE") == "!doctype"
  {
    assert DoctypeHtml[0] == '<' && DoctypeHtml[1] == '!' && DoctypeHtml[2] == 'D' && DoctypeHtml[3] == 'O' && DoctypeHtml[4] == 'C' && DoctypeHtml[5] == 'T' && DoctypeHtml[6] == 'Y' && DoctypeHtml[7] == 'P';
    assert DoctypeHtml[8] == 'E' && DoctypeHtml[9] == ' ' && DoctypeHtml[10] == 'h' && DoctypeHtml[11] == 't' && DoctypeHtml[12] == 'm' && DoctypeHtml[13] == 'l' && DoctypeHtml[14] == '>';
    assert DoctypeHtml[1..9] == [DoctypeHtml[1], DoctypeHtml[2], DoctypeHtml[3], DoctypeHtml[4], DoctypeHtml[5], DoctypeHtml[6], DoctypeHtml[7], DoctypeHtml[8]];
    assert DoctypeHtml[9..10] == [DoctypeHtml[9]];
    assert DoctypeHtml[10..14] == [DoctypeHtml[10], DoctypeHtml[11], DoctypeHtml[12], DoctypeHtml[13]];
  }

  lemma DoctypeHtmlPart1()
    ensures Loop(DoctypeHtml, Init()) == Loop(DoctypeHtml, Scanner(State.OpeningDoctype, 1, 4, [], false, false))
  {
    DoctypeHtmlText();
    assert Emit(DoctypeHtml, Scanner(State.Literal, 0, 0, [], false, false), TokenKind.Literal, State.BeforeOpenTag, 0) == Scanner(State.BeforeOpenTag, 0, 0, [], false, false);
    assert Dispatch(DoctypeHtml, Scanner(State.Literal, 0, 0, [], false, false), DoctypeHtml[0]) == Ok(Scanner(State.BeforeOpenTag, 0, 0, [], false, false));
    assert Loop(DoctypeHtml, Scanner(State.Literal, 0, 0, [], false, false)) == Loop(DoctypeHtml, Scanner(State.BeforeOpenTag, 0, 1, [], false, false));
    assert Dispatch(DoctypeHtml, Scanner(State.BeforeOpenTag, 0, 1, [], false, false), DoctypeHtml[1]) == Ok(Scanner(State.OpeningSpecial, 1, 1, [], false, false));
    assert Loop(DoctypeHtml, Scanner(State.BeforeOpenTag, 0, 1, [], false, false)) == Loop(DoctypeHtml, Scanner(State.OpeningSpecial, 1, 2, [], false, false));
    assert Dispatch(DoctypeHtml, Scanner(State.OpeningSpecial, 1, 2, [], false, false), DoctypeHtml[2]) == Ok(Scanner(State.OpeningDoctype, 1, 2, [], false, false));
    assert Loop(DoctypeHtml, Scanner(State.OpeningSpecial, 1, 2, [], false, false)) == Loop(DoctypeHtml, Scanner(State.OpeningDoctype, 1, 3, [], false, false));
    assert Dispatch(DoctypeHtml, Scanner(State.OpeningDoctype, 1, 3, [], false, false), DoctypeHtml[3]) == Ok(Scanner(State.OpeningDoctype, 1, 3, [], false, false));
    assert Loop(DoctypeHtml, Scanner(State.OpeningDoctype, 1, 3, [], false, false)) == Loop(DoctypeHtml, Scanner(State.OpeningDoctype, 1, 4, [], false, false));
  }

  lemma DoctypeHtmlPart2()
    ensures Loop(DoctypeHtml, Scanner(State.OpeningDoctype, 1, 4, [], false, false)) == Loop(DoctypeHtml, Scanner(State.OpeningDoctype, 1, 9, [], false, false))
  {
    DoctypeHtmlText();
    assert Dispatch(DoctypeHtml, Scanner(State.OpeningDoctype, 1, 4, [], false, false), DoctypeHtml[4]) == Ok(Scanner(State.OpeningDoctype, 1, 4, [], false, false));
    assert Loop(DoctypeHtml, Scanner(State.OpeningDoctype, 1, 4, [], false, false)) == Loop(DoctypeHtml, Scanner(State.OpeningDoctype, 1, 5, [], false, false));
    assert Dispatch(DoctypeHtml, Scanner(State.OpeningDoctype, 1, 5, [], false, false), DoctypeHtml[5]) == Ok(Scanner(State.OpeningDoctype, 1, 5, [], false, false));
    assert Loop(DoctypeHtml, Scanner(State.OpeningDoctype, 1, 5, [], false, false)) == Loop(DoctypeHtml, Scanner(State.OpeningDoctype, 1, 6, [], false, false));
    assert Dispatch(DoctypeHtml, Scanner(State.OpeningDoctype, 1, 6, [], false, false), DoctypeHtml[6]) == Ok(Scanner(State.OpeningDoctype, 1, 6, [], false, false));
    assert Loop(DoctypeHtml, Scanner(State.OpeningDoctype, 1, 6, [], false, false)) == Loop(DoctypeHtml, Scanner(State.OpeningDoctype, 1, 7, [], false, false));
    assert Dispatch(DoctypeHtml, Scanner(State.OpeningDoctype, 1, 7, [], false, false), DoctypeHtml[7]) == Ok(Scanner(State.OpeningDoctype, 1, 7, [], false, false));
    assert Loop(DoctypeHtml, Scanner(State.OpeningDoctype, 1, 7, [], false, false)) == Loop(DoctypeHtml, Scanner(State.OpeningDoctype, 1, 8, [], false, false));
    assert Dispatch(DoctypeHtml, Scanner(State.OpeningDoctype, 1, 8, [], false, false), DoctypeHtml[8]) == Ok(Scanner(State.OpeningDoctype, 1, 8, [], false, false));
    assert Loop(DoctypeHtml, Scanner(State.OpeningDoctype, 1, 8, [], false, false)) == Loop(DoctypeHtml, Scanner(State.OpeningDoctype, 1, 9, [], false, false));
  }

  lemma DoctypeHtmlPart3()
    ensures Loop(DoctypeHtml, Scanner(State.OpeningDoctype, 1, 9, [], false, false)) == Loop(DoctypeHtml, Scanner(State.InValueNq, 10, 11, [Token(1, 9, "!doctype", TokenKind.OpenTag), Token(9, 10, " ", TokenKind.Whitespace)], false, false))
  {
    DoctypeHtmlText();
    assert Emit(DoctypeHtml, Scanner(State.OpeningDoctype, 1, 9, [], false, false), TokenKind.OpenTag, State.AfterOpenTag, 9) == Scanner(State.AfterOpenTag, 9, 9, [Token(1, 9, "!doctype", TokenKind.OpenTag)], false, false);
    assert Dispatch(DoctypeHtml, Scanner(State.OpeningDoctype, 1, 9, [], false, false), DoctypeHtml[9]) == Ok(Scanner(State.AfterOpenTag, 9, 9, [Token(1, 9, "!doctype", TokenKind.OpenTag)], false, false));
    assert Loop(DoctypeHtml, Scanner(State.OpeningDoctype, 1, 9, [], false, false)) == Loop(DoctypeHtml, Scanner(State.AfterOpenTag, 9, 10, [Token(1, 9, "!doctype", TokenKind.OpenTag)], false, false));
    assert Emit(DoctypeHtml, Scanner(State.AfterOpenTag, 9, 10, [Token(1, 9, "!doctype", TokenKind.OpenTag)], false, false), TokenKind.Whitespace, State.InValueNq, 10) == Scanner(State.InValueNq, 10, 10, [Token(1, 9, "!doctype", TokenKind.OpenTag), Token(9, 10, " ", TokenKind.Whitespace)], false, false);
    assert Dispatch(DoctypeHtml, Scanner(State.AfterOpenTag, 9, 10, [Token(1, 9, "!doctype", TokenKind.OpenTag)], false, false), DoctypeHtml[10]) == Ok(Scanner(State.InValueNq, 10, 10, [Token(1, 9, "!doctype", TokenKind.OpenTag), Token(9, 10, " ", TokenKind.Whitespace)], false, false));
    assert [Token(1, 9, "!doctype", TokenKind.OpenTag)] + [Token(9, 10, " ", TokenKind.Whitespace)] == [Token(1, 9, "!doctype", TokenKind.OpenTag), Token(9, 10, " ", TokenKind.Whitespace)];
    assert Loop(DoctypeHtml, Scanner(State.AfterOpenTag, 9, 10, [Token(1, 9, "!doctype", TokenKind.OpenTag)], false, false)) == Loop(DoctypeHtml, Scanner(State.InValueNq, 10, 11, [Token(1, 9, "!doctype", TokenKind.OpenTag), Token(9, 10, " ", TokenKind.Whitespace)], false, false));
  }

  lemma DoctypeHtmlPart4()
    ensures Loop(DoctypeHtml, Scanner(State.InValueNq, 10, 11, [Token(1, 9, "!doctype", TokenKind.OpenTag), Token(9, 10, " ", TokenKind.Whitespace)], false, false)) == Loop(DoctypeHtml, Scanner(State.InValueNq, 10, 14, [Token(1, 9, "!doctype", TokenKind.OpenTag), Token(9, 10, " ", TokenKind.Whitespace)], false, false))
  {
    DoctypeHtmlText();
    assert Dispatch(DoctypeHtml, Scanner(State.InValueNq, 10, 11, [Token(1, 9, "!doctype", TokenKind.OpenTag), Token(9, 10, " ", TokenKind.Whitespace)], false, false), DoctypeHtml[11]) == Ok(Scanner(State.InValueNq, 10, 11, [Token(1, 9, "!doctype", TokenKind.OpenTag), Token(9, 10, " ", TokenKind.Whitespace)], false, false));
    assert Loop(DoctypeHtml, Scanner(State.InValueNq, 10, 11, [Token(1, 9, "!doctype", TokenKind.OpenTag), Token(9, 10, " ", TokenKind.Whitespace)], false, false)) == Loop(DoctypeHtml, Scanner(State.InValueNq, 10, 12, [Token(1, 9, "!doctype", TokenKind.OpenTag), Token(9, 10, " ", TokenKind.Whitespace)], false, false));
    assert Dispatch(DoctypeHtml, Scanner(State.InValueNq, 10, 12, [Token(1, 9, "!doctype", TokenKind.OpenTag), Token(9, 10, " ", TokenKind.Whitespace)], false, false), DoctypeHtml[12]) == Ok(Scanner(State.InValueNq, 10, 12, [Token(1, 9, "!doctype", TokenKind.OpenTag), Token(9, 10, " ", TokenKind.Whitespace)], false, false));
    assert Loop(DoctypeHtml, Scanner(State.InValueNq, 10, 12, [Token(1, 9, "!doctype", TokenKind.OpenTag), Token(9, 10, " ", TokenKind.Whitespace)], false, false)) == Loop(DoctypeHtml, Scanner(State.InValueNq, 10, 13, [Token(1, 9, "!doctype", TokenKind.OpenTag), Token(9, 10, " ", TokenKind.Whitespace)], false, false));
    assert Dispatch(DoctypeHtml, Scanner(State.InValueNq, 10, 13, [Token(1, 9, "!doctype", TokenKind.OpenTag), Token(9, 10, " ", TokenKind.Whitespace)], false, false), DoctypeHtml[13]) == Ok(Scanner(State.InValueNq, 10, 13, [Token(1, 9, "!doctype", TokenKind.OpenTag), Token(9, 10, " ", TokenKind.Whitespace)], false, false));
    assert Loop(DoctypeHtml, Scanner(State.InValueNq, 10, 13, [Token(1, 9, "!doctype", TokenKind.OpenTag), Token(9, 10, " ", TokenKind.Whitespace)], false, false)) == Loop(DoctypeHtml, Scanner(State.InValueNq, 10, 14, [Token(1, 9, "!doctype", TokenKind.OpenTag), Token(9, 10, " ", TokenKind.Whitespace)], false, false));
  }

  lemma DoctypeHtmlPart5()
    ensures Loop(DoctypeHtml, Scanner(State.InValueNq, 10, 14, [Token(1, 9, "!doctype", TokenKind.OpenTag), Token(9, 10, " ", TokenKind.Whitespace)], false, false)) == Loop(DoctypeHtml, Scanner(State.Literal, 15, 15, [Token(1, 9, "!doctype", TokenKind.OpenTag), Token(9, 10, " ", TokenKind.Whitespace), Token(10, 14, "html", TokenKind.AttrValueNq), Token(14, 14, "", TokenKind.OpenTagEnd)], false, false))
  {
    DoctypeHtmlText();
    assert Emit(DoctypeHtml, Scanner(State.InValueNq, 10, 14, [Token(1, 9, "!doctype", TokenKind.OpenTag), Token(9, 10, " ", TokenKind.Whitespace)], false, false), TokenKind.AttrValueNq, State.InValueNq, 14) == Scanner(State.InValueNq, 14, 14, [Token(1, 9, "!doctype", TokenKind.OpenTag), Token(9, 10, " ", TokenKind.Whitespace), Token(10, 14, "html", TokenKind.AttrValueNq)], false, false);
    assert Emit(DoctypeHtml, Scanner(State.InValueNq, 14, 14, [Token(1, 9, "!doctype", TokenKind.OpenTag), Token(9, 10, " ", TokenKind.Whitespace), Token(10, 14, "html", TokenKind.AttrValueNq)], false, false), TokenKind.OpenTagEnd, State.InValueNq, 14) == Scanner(State.Literal, 15, 14, [Token(1, 9, "!doctype", TokenKind.OpenTag), Token(9, 10, " ", TokenKind.Whitespace), Token(10, 14, "html", TokenKind.AttrValueNq), Token(14, 14, "", TokenKind.OpenTagEnd)], false, false);
    assert Dispatch(DoctypeHtml, Scanner(State.InValueNq, 10, 14, [Token(1, 9, "!doctype", TokenKind.OpenTag), Token(9, 10, " ", TokenKind.Whitespace)], false, false), DoctypeHtml[14]) == Ok(Scanner(State.Literal, 15, 14, [Token(1, 9, "!doctype", TokenKind.OpenTag), Token(9, 10, " ", TokenKind.Whitespace), Token(10, 14, "html", TokenKind.AttrValueNq), Token(14, 14, "", TokenKind.OpenTagEnd)], false, false));
    assert [Token(1, 9, "!doctype", TokenKind.OpenTag), Token(9, 10, " ", TokenKind.Whitespace)] + [Token(10, 14, "html", TokenKind.AttrValueNq), Token(14, 14, "", TokenKind.OpenTagEnd)] == [Token(1, 9, "!doctype", TokenKind.OpenTag), Token(9, 10, " ", TokenKind.Whitespace), Token(10, 14, "html", TokenKind.AttrValueNq), Token(14, 14, "", TokenKind.OpenTagEnd)];
    assert Loop(DoctypeHtml, Scanner(State.InValueNq, 10, 14, [Token(1, 9, "!doctype", TokenKind.OpenTag), Token(9, 10, " ", TokenKind.Whitespace)], false, false)) == Loop(DoctypeHtml, Scanner(State.Literal, 15, 15, [Token(1, 9, "!doctype", TokenKind.OpenTag), Token(9, 10, " ", TokenKind.Whitespace), Token(10, 14, "html", TokenKind.AttrValueNq), Token(14, 14, "", TokenKind.OpenTagEnd)], false, false));
  }

  /** A doctype followed by whitespace is an OpenTag with the lower-cased name `!doctype` and ordinary attributes. */
  lemma DoctypeHtmlTokens()
    ensures Tokenize(DoctypeHtml) == Ok([Token(1, 9, "!doctype", TokenKind.OpenTag), Token(9, 10, " ", TokenKind.Whitespace), Token(10, 14, "html", TokenKind.AttrValueNq), Token(14, 14, "", TokenKind.OpenTagEnd)])
  {
    DoctypeHtmlText();
    DoctypeHtmlPart1();
    DoctypeHtmlPart2();
    DoctypeHtmlPart3();
    DoctypeHtmlPart4();
    DoctypeHtmlPart5();
    assert Loop(DoctypeHtml, Scanner(State.Literal, 15, 15, [Token(1, 9, "!doctype", TokenKind.OpenTag), Token(9, 10, " ", TokenKind.Whitespace), Token(10, 14, "html", TokenKind.AttrValueNq), Token(14, 14, "", TokenKind.OpenTagEnd)], false, false)) == Ok(Scanner(State.Literal, 15, 15, [Token(1, 9, "!doctype", TokenKind.OpenTag), Token(9, 10, " ", TokenKind.Whitespace), Token(10, 14, "html", TokenKind.AttrValueNq), Token(14, 14, "", TokenKind.OpenTagEnd)], false, false));
    assert Emit(DoctypeHtml, Scanner(State.Literal, 15, 15, [Token(1, 9, "!doctype", TokenKind.OpenTag), Token(9, 10, " ", TokenKind.Whitespace), Token(10, 14, "html", TokenKind.AttrValueNq), Token(14, 14, "", TokenKind.OpenTagEnd)], false, false), TokenKind.Literal, State.Literal, 15) == Scanner(State.Literal, 15, 15, [Token(1, 9, "!doctype", TokenKind.OpenTag), Token(9, 10, " ", TokenKind.Whitespace), Token(10, 14, "html", TokenKind.AttrValueNq), Token(14, 14, "", TokenKind.OpenTagEnd)], false, false);
    assert Finish(DoctypeHtml, Scanner(State.Literal, 15, 15, [Token(1, 9, "!doctype", TokenKind.OpenTag), Token(9, 10, " ", TokenKind.Whitespace), Token(10, 14, "html", TokenKind.AttrValueNq), Token(14, 14, "", TokenKind.OpenTagEnd)], false, false)).tokens == [Token(1, 9, "!doctype", TokenKind.OpenTag), Token(9, 10, " ", TokenKind.Whitespace), Token(10, 14, "html", TokenKind.AttrValueNq), Token(14, 14, "", TokenKind.OpenTagEnd)];
  }

  const ShortComment := "<?xml?>"

  lemma ShortCommentText()
    ensures ShortComment[0] == '<' && ShortComment[1] == '?' && ShortComment[2] == 'x' && ShortComment[3] == 'm' && ShortComment[4] == 'l' && ShortComment[5] == '?' && ShortComment[6] == '>'
    ensures |ShortComment| == 7
    ensures ShortComment[1..6] == "?xml?"
    ensures Lower("") == ""
  {
    assert ShortComment[0] == '<' && ShortComment[1] == '?' && ShortComment[2] == 'x' && ShortComment[3] == 'm' && ShortComment[4] == 'l' && ShortComment[5] == '?' && ShortComment[6] == '>';
    assert ShortComment[1..6] == [ShortComment[1], ShortComment[2], ShortComment[3], ShortComment[4], ShortComment[5]];
  }

  lemma ShortCommentPart1()
    ensures Loop(ShortComment, Init()) == Loop(ShortComment, Scanner(State.InShortComment, 1, 2, [Token(1, 1, "", TokenKind.OpenTag)], false, false))
  {
    ShortCommentText();
    assert Emit(ShortComment, Scanner(State.Literal, 0, 0, [], false, false), TokenKind.Literal, State.BeforeOpenTag, 0) == Scanner(State.BeforeOpenTag, 0, 0, [], false, false);
    assert Dispatch(ShortComment, Scanner(State.Literal, 0, 0, [], false, false), ShortComment[0]) == Ok(Scanner(State.BeforeOpenTag, 0, 0, [], false, false));
    assert Loop(ShortComment, Scanner(State.Literal, 0, 0, [], false, false)) == Loop(ShortComment, Scanner(State.BeforeOpenTag, 0, 1, [], false, false));
    assert Emit(ShortComment, Scanner(State.BeforeOpenTag, 1, 1, [], false, false), TokenKind.OpenTag, State.InShortComment, 1) == Scanner(State.InShortComment, 1, 1, [Token(1, 1, "", TokenKind.OpenTag)], false, false);
    assert Dispatch(ShortComment, Scanner(State.BeforeOpenTag, 0, 1, [], false, false), ShortComment[1]) == Ok(Scanner(State.InShortComment, 1, 1, [Token(1, 1, "", TokenKind.OpenTag)], false, false));
    assert Loop(ShortComment, Scanner(State.BeforeOpenTag, 0, 1, [], false, false)) == Loop(ShortComment, Scanner(State.InShortComment, 1, 2, [Token(1, 1, "", TokenKind.OpenTag)], false, false));
  }

  lemma ShortCommentPart2()
    ensures Loop(ShortComment, Scanner(State.InShortComment, 1, 2, [Token(1, 1, "", TokenKind.OpenTag)], false, false)) == Loop(ShortComment, Scanner(State.InShortComment, 1, 6, [Token(1, 1, "", TokenKind.OpenTag)], false, false))
  {
    ShortCommentText();
    assert Dispatch(ShortComment, Scanner(State.InShortComment, 1, 2, [Token(1, 1, "", TokenKind.OpenTag)], false, false), ShortComment[2]) == Ok(Scanner(State.InShortComment, 1, 2, [Token(1, 1, "", TokenKind.OpenTag)], false, false));
    assert Loop(ShortComment, Scanner(State.InShortComment, 1, 2, [Token(1, 1, "", TokenKind.OpenTag)], false, false)) == Loop(ShortComment, Scanner(State.InShortComment, 1, 3, [Token(1, 1, "", TokenKind.OpenTag)], false, false));
    assert Dispatch(ShortComment, Scanner(State.InShortComment, 1, 3, [Token(1, 1, "", TokenKind.OpenTag)], false, false), ShortComment[3]) == Ok(Scanner(State.InShortComment, 1, 3, [Token(1, 1, "", TokenKind.OpenTag)], false, false));
    assert Loop(ShortComment, Scanner(State.InShortComment, 1, 3, [Token(1, 1, "", TokenKind.OpenTag)], false, false)) == Loop(ShortComment, Scanner(State.InShortComment, 1, 4, [Token(1, 1, "", TokenKind.OpenTag)], false, false));
    assert Dispatch(ShortComment, Scanner(State.InShortComment, 1, 4, [Token(1, 1, "", TokenKind.OpenTag)], false, false), ShortComment[4]) == Ok(Scanner(State.InShortComment, 1, 4, [Token(1, 1, "", TokenKind.OpenTag)], false, false));
    assert Loop(ShortComment, Scanner(State.InShortComment, 1, 4, [Token(1, 1, "", TokenKind.OpenTag)], false, false)) == Loop(ShortComment, Scanner(State.InShortComment, 1, 5, [Token(1, 1, "", TokenKind.OpenTag)], false, false));
    assert Dispatch(ShortComment, Scanner(State.InShortComment, 1, 5, [Token(1, 1, "", TokenKind.OpenTag)], false, false), ShortComment[5]) == Ok(Scanner(State.InShortComment, 1, 5, [Token(1, 1, "", TokenKind.OpenTag)], false, false));
    assert Loop(ShortComment, Scanner(State.InShortComment, 1, 5, [Token(1, 1, "", TokenKind.OpenTag)], false, false)) == Loop(ShortComment, Scanner(State.InShortComment, 1, 6, [Token(1, 1, "", TokenKind.OpenTag)], false, false));
  }

  lemma ShortCommentPart3()
    ensures Loop(ShortComment, Scanner(State.InShortComment, 1, 6, [Token(1, 1, "", TokenKind.OpenTag)], false, false)) == Loop(ShortComment, Scanner(State.Literal, 7, 7, [Token(1, 1, "", TokenKind.OpenTag), Token(1, 6, "?xml?", TokenKind.Literal), Token(6, 6, "", TokenKind.OpenTagEnd)], false, false))
  {
    ShortCommentText();
    assert Emit(ShortComment, Scanner(State.InShortComment, 1, 6, [Token(1, 1, "", TokenKind.OpenTag)], false, false), TokenKind.Literal, State.InShortComment, 6) == Scanner(State.InShortComment, 6, 6, [Token(1, 1, "", TokenKind.OpenTag), Token(1, 6, "?xml?", TokenKind.Literal)], false, false);
    assert Emit(ShortComment, Scanner(State.InShortComment, 6, 6, [Token(1, 1, "", TokenKind.OpenTag), Token(1, 6, "?xml?", TokenKind.Literal)], false, false), TokenKind.OpenTagEnd, State.InShortComment, 6) == Scanner(State.Literal, 7, 6, [Token(1, 1, "", TokenKind.OpenTag), Token(1, 6, "?xml?", TokenKind.Literal), Token(6, 6, "", TokenKind.OpenTagEnd)], false, false);
    assert Dispatch(ShortComment, Scanner(State.InShortComment, 1, 6, [Token(1, 1, "", TokenKind.OpenTag)], false, false), ShortComment[6]) == Ok(Scanner(State.Literal, 7, 6, [Token(1, 1, "", TokenKind.OpenTag), Token(1, 6, "?xml?", TokenKind.Literal), Token(6, 6, "", TokenKind.OpenTagEnd)], false, false));
    assert [Token(1, 1, "", TokenKind.OpenTag)] + [Token(1, 6, "?xml?", TokenKind.Literal), Token(6, 6, "", TokenKind.OpenTagEnd)] == [Token(1, 1, "", TokenKind.OpenTag), Token(1, 6, "?xml?", TokenKind.Literal), Token(6, 6, "", TokenKind.OpenTagEnd)];
    assert Loop(ShortComment, Scanner(State.InShortComment, 1, 6, [Token(1, 1, "", TokenKind.OpenTag)], false, false)) == Loop(ShortComment, Scanner(State.Literal, 7, 7, [Token(1, 1, "", TokenKind.OpenTag), Token(1, 6, "?xml?", TokenKind.Literal), Token(6, 6, "", TokenKind.OpenTagEnd)], false, false));
  }

  /** `<?` opens a short comment: an empty OpenTag, the rest up to `>` as a Literal, and an empty OpenTagEnd. */
  lemma ShortCommentTokens()
    ensures Tokenize(ShortComment) == Ok([Token(1, 1, "", TokenKind.OpenTag), Token(1, 6, "?xml?", TokenKind.Literal), Token(6, 6, "", TokenKind.OpenTagEnd)])
  {
    ShortCommentText();
    ShortCommentPart1();
    ShortCommentPart2();
    ShortCommentPart3();
    assert Loop(ShortComment, Scanner(State.Literal, 7, 7, [Token(1, 1, "", TokenKind.OpenTag), Token(1, 6, "?xml?", TokenKind.Literal), Token(6, 6, "", TokenKind.OpenTagEnd)], false, false)) == Ok(Scanner(State.Literal, 7, 7, [Token(1, 1, "", TokenKind.OpenTag), Token(1, 6, "?xml?", TokenKind.Literal), Token(6, 6, "", TokenKind.OpenTagEnd)], false, false));
    assert Emit(ShortComment, Scanner(State.Literal, 7, 7, [Token(1, 1, "", TokenKind.OpenTag), Token(1, 6, "?xml?", TokenKind.Literal), Token(6, 6, "", TokenKind.OpenTagEnd)], false, false), TokenKind.Literal, State.Literal, 7) == Scanner(State.Literal, 7, 7, [Token(1, 1, "", TokenKind.OpenTag), Token(1, 6, "?xml?", TokenKind.Literal), Token(6, 6, "", TokenKind.OpenTagEnd)], false, false);
    assert Finish(ShortComment, Scanner(State.Literal, 7, 7, [Token(1, 1, "", TokenKind.OpenTag), Token(1, 6, "?xml?", TokenKind.Literal), Token(6, 6, "", TokenKind.OpenTagEnd)], false, false)).tokens == [Token(1, 1, "", TokenKind.OpenTag), Token(1, 6, "?xml?", TokenKind.Literal), Token(6, 6, "", TokenKind.OpenTagEnd)];
  }

  const DoubleLt := "a<<b"

  lemma DoubleLtText()
    ensures DoubleLt[0] == 'a' && DoubleLt[1] == '<' && DoubleLt[2] == '<' && DoubleLt[3] == 'b'
    ensures |DoubleLt| == 4
    ensures DoubleLt[0..1] == "a"
    ensures DoubleLt[1..2] == "<"
    ensures DoubleLt[3..4] == "b"
    ensures Lower("b") == "b"
  {
    assert DoubleLt[0] == 'a' && DoubleLt[1] == '<' && DoubleLt[2] == '<' && DoubleLt[3] == 'b';
    assert DoubleLt[0..1] == [DoubleLt[0]];
    assert DoubleLt[1..2] == [DoubleLt[1]];
    assert DoubleLt[3..4] == [DoubleLt[3]];
  }

  lemma DoubleLtPart1()
    ensures Loop(DoubleLt, Init()) == Loop(DoubleLt, Scanner(State.BeforeOpenTag, 1, 2, [Token(0, 1, "a", TokenKind.Literal)], false, false))
  {
    DoubleLtText();
    assert Dispatch(DoubleLt, Scanner(State.Literal, 0, 0, [], false, false), DoubleLt[0]) == Ok(Scanner(State.Literal, 0, 0, [], false, false));
    assert Loop(DoubleLt, Scanner(State.Literal, 0, 0, [], false, false)) == Loop(DoubleLt, Scanner(State.Literal, 0, 1, [], false, false));
    assert Emit(DoubleLt, Scanner(State.Literal, 0, 1, [], false, false), TokenKind.Literal, State.BeforeOpenTag, 1) == Scanner(State.BeforeOpenTag, 1, 1, [Token(0, 1, "a", TokenKind.Literal)], false, false);
    assert Dispatch(DoubleLt, Scanner(State.Literal, 0, 1, [], false, false), DoubleLt[1]) == Ok(Scanner(State.BeforeOpenTag, 1, 1, [Token(0, 1, "a", TokenKind.Literal)], false, false));
    assert Loop(DoubleLt, Scanner(State.Literal, 0, 1, [], false, false)) == Loop(DoubleLt, Scanner(State.BeforeOpenTag, 1, 2, [Token(0, 1, "a", TokenKind.Literal)], false, false));
  }

  lemma DoubleLtPart2()
    ensures Loop(DoubleLt, Scanner(State.BeforeOpenTag, 1, 2, [Token(0, 1, "a", TokenKind.Literal)], false, false)) == Loop(DoubleLt, Scanner(State.OpeningTag, 3, 4, [Token(0, 1, "a", TokenKind.Literal), Token(1, 2, "<", TokenKind.Literal)], false, false))
  {
    DoubleLtText();
    assert Emit(DoubleLt, Scanner(State.BeforeOpenTag, 1, 2, [Token(0, 1, "a", TokenKind.Literal)], false, false), TokenKind.Literal, State.BeforeOpenTag, 2) == Scanner(State.BeforeOpenTag, 2, 2, [Token(0, 1, "a", TokenKind.Literal), Token(1, 2, "<", TokenKind.Literal)], false, false);
    assert Dispatch(DoubleLt, Scanner(State.BeforeOpenTag, 1, 2, [Token(0, 1, "a", TokenKind.Literal)], false, false), DoubleLt[2]) == Ok(Scanner(State.BeforeOpenTag, 2, 2, [Token(0, 1, "a", TokenKind.Literal), Token(1, 2, "<", TokenKind.Literal)], false, false));
    assert [Token(0, 1, "a", TokenKind.Literal)] + [Token(1, 2, "<", TokenKind.Literal)] == [Token(0, 1, "a", TokenKind.Literal), Token(1, 2, "<", TokenKind.Literal)];
    assert Loop(DoubleLt, Scanner(State.BeforeOpenTag, 1, 2, [Token(0, 1, "a", TokenKind.Literal)], false, false)) == Loop(DoubleLt, Scanner(State.BeforeOpenTag, 2, 3, [Token(0, 1, "a", TokenKind.Literal), Token(1, 2, "<", TokenKind.Literal)], false, false));
    assert Dispatch(DoubleLt, Scanner(State.BeforeOpenTag, 2, 3, [Token(0, 1, "a", TokenKind.Literal), Token(1, 2, "<", TokenKind.Literal)], false, false), DoubleLt[3]) == Ok(Scanner(State.OpeningTag, 3, 3, [Token(0, 1, "a", TokenKind.Literal), Token(1, 2, "<", TokenKind.Literal)], false, false));
    assert Loop(DoubleLt, Scanner(State.BeforeOpenTag, 2, 3, [Token(0, 1, "a", TokenKind.Literal), Token(1, 2, "<", TokenKind.Literal)], false, false)) == Loop(DoubleLt, Scanner(State.OpeningTag, 3, 4, [Token(0, 1, "a", TokenKind.Literal), Token(1, 2, "<", TokenKind.Literal)], false, false));
  }

  /** A `<` that does not start a tag is text, and a tag name cut off by the end of input is still flushed as an OpenTag. */
  lemma DoubleLtTokens()
    ensures Tokenize(DoubleLt) == Ok([Token(0, 1, "a", TokenKind.Literal), Token(1, 2, "<", TokenKind.Literal), Token(3, 4, "b", TokenKind.OpenTag)])
  {
    DoubleLtText();
    DoubleLtPart1();
    DoubleLtPart2();
    assert Loop(DoubleLt, Scanner(State.OpeningTag, 3, 4, [Token(0, 1, "a", TokenKind.Literal), Token(1, 2, "<", TokenKind.Literal)], false, false)) == Ok(Scanner(State.OpeningTag, 3, 4, [Token(0, 1, "a", TokenKind.Literal), Token(1, 2, "<", TokenKind.Literal)], false, false));
    assert Emit(DoubleLt, Scanner(State.OpeningTag, 3, 4, [Token(0, 1, "a", TokenKind.Literal), Token(1, 2, "<", TokenKind.Literal)], false, false), TokenKind.OpenTag, State.OpeningTag, 4) == Scanner(State.OpeningTag, 4, 4, [Token(0, 1, "a", TokenKind.Literal), Token(1, 2, "<", TokenKind.Literal), Token(3, 4, "b", TokenKind.OpenTag)], false, false);
    assert [Token(0, 1, "a", TokenKind.Literal), Token(1, 2, "<", TokenKind.Literal)] + [Token(3, 4, "b", TokenKind.OpenTag)] == [Token(0, 1, "a", TokenKind.Literal), Token(1, 2, "<", TokenKind.Literal), Token(3, 4, "b", TokenKind.OpenTag)];
    assert Finish(DoubleLt, Scanner(State.OpeningTag, 3, 4, [Token(0, 1, "a", TokenKind.Literal), Token(1, 2, "<", TokenKind.Literal)], false, false)).tokens == [Token(0, 1, "a", TokenKind.Literal), Token(1, 2, "<", TokenKind.Literal), Token(3, 4, "b", TokenKind.OpenTag)];
  }

  const DoctypeBracket := "<!doctype>"

  lemma DoctypeBracketText()
    ensures DoctypeBracket[0] == '<' && DoctypeBracket[1] == '!' && DoctypeBracket[2] == 'd' && DoctypeBracket[3] == 'o' && DoctypeBracket[4] == 'c' && DoctypeBracket[5] == 't' && DoctypeBracket[6] == 'y' && DoctypeBracket[7] == 'p'
    ensures DoctypeBracket[8] == 'e' && DoctypeBracket[9] == '>'
    ensures |DoctypeBracket| == 10
  {
    assert DoctypeBracket[0] == '<' && DoctypeBracket[1] == '!' && DoctypeBracket[2] == 'd' && DoctypeBracket[3] == 'o' && DoctypeBracket[4] == 'c' && DoctypeBracket[5] == 't' && DoctypeBracket[6] == 'y' && DoctypeBracket[7] == 'p';
    assert DoctypeBracket[8] == 'e' && DoctypeBracket[9] == '>';
  }

  lemma DoctypeBracketPart1()
    ensures Loop(DoctypeBracket, Init()) == Loop(DoctypeBracket, Scanner(State.OpeningDoctype, 1, 4, [], false, false))
  {
    DoctypeBracketText();
    assert Emit(DoctypeBracket, Scanner(State.Literal, 0, 0, [], false, false), TokenKind.Literal, State.BeforeOpenTag, 0) == Scanner(State.BeforeOpenTag, 0, 0, [], false, false);
    assert Dispatch(DoctypeBracket, Scanner(State.Literal, 0, 0, [], false, false), DoctypeBracket[0]) == Ok(Scanner(State.BeforeOpenTag, 0, 0, [], false, false));
    assert Loop(DoctypeBracket, Scanner(State.Literal, 0, 0, [], false, false)) == Loop(DoctypeBracket, Scanner(State.BeforeOpenTag, 0, 1, [], false, false));
    assert Dispatch(DoctypeBracket, Scanner(State.BeforeOpenTag, 0, 1, [], false, false), DoctypeBracket[1]) == Ok(Scanner(State.OpeningSpecial, 1, 1, [], false, false));
    assert Loop(DoctypeBracket, Scanner(State.BeforeOpenTag, 0, 1, [], false, false)) == Loop(DoctypeBracket, Scanner(State.OpeningSpecial, 1, 2, [], false, false));
    assert Dispatch(DoctypeBracket, Scanner(State.OpeningSpecial, 1, 2, [], false, false), DoctypeBracket[2]) == Ok(Scanner(State.OpeningDoctype, 1, 2, [], false, false));
    assert Loop(DoctypeBracket, Scanner(State.OpeningSpecial, 1, 2, [], false, false)) == Loop(DoctypeBracket, Scanner(State.OpeningDoctype, 1, 3, [], false, false));
    assert Dispatch(DoctypeBracket, Scanner(State.OpeningDoctype, 1, 3, [], false, false), DoctypeBracket[3]) == Ok(Scanner(State.OpeningDoctype, 1, 3, [], false, false));
    assert Loop(DoctypeBracket, Scanner(State.OpeningDoctype, 1, 3, [], false, false)) == Loop(DoctypeBracket, Scanner(State.OpeningDoctype, 1, 4, [], false, false));
  }

  lemma DoctypeBracketPart2()
    ensures Loop(DoctypeBracket, Scanner(State.OpeningDoctype, 1, 4, [], false, false)) == Loop(DoctypeBracket, Scanner(State.OpeningDoctype, 1, 9, [], false, false))
  {
    DoctypeBracketText();
    assert Dispatch(DoctypeBracket, Scanner(State.OpeningDoctype, 1, 4, [], false, false), DoctypeBracket[4]) == Ok(Scanner(State.OpeningDoctype, 1, 4, [], false, false));
    assert Loop(DoctypeBracket, Scanner(State.OpeningDoctype, 1, 4, [], false, false)) == Loop(DoctypeBracket, Scanner(State.OpeningDoctype, 1, 5, [], false, false));
    assert Dispatch(DoctypeBracket, Scanner(State.OpeningDoctype, 1, 5, [], false, false), DoctypeBracket[5]) == Ok(Scanner(State.OpeningDoctype, 1, 5, [], false, false));
    assert Loop(DoctypeBracket, Scanner(State.OpeningDoctype, 1, 5, [], false, false)) == Loop(DoctypeBracket, Scanner(State.OpeningDoctype, 1, 6, [], false, false));
    assert Dispatch(DoctypeBracket, Scanner(State.OpeningDoctype, 1, 6, [], false, false), DoctypeBracket[6]) == Ok(Scanner(State.OpeningDoctype, 1, 6, [], false, false));
    assert Loop(DoctypeBracket, Scanner(State.OpeningDoctype, 1, 6, [], false, false)) == Loop(DoctypeBracket, Scanner(State.OpeningDoctype, 1, 7, [], false, false));
    assert Dispatch(DoctypeBracket, Scanner(State.OpeningDoctype, 1, 7, [], false, false), DoctypeBracket[7]) == Ok(Scanner(State.OpeningDoctype, 1, 7, [], false, false));
    assert Loop(DoctypeBracket, Scanner(State.OpeningDoctype, 1, 7, [], false, false)) == Loop(DoctypeBracket, Scanner(State.OpeningDoctype, 1, 8, [], false, false));
    assert Dispatch(DoctypeBracket, Scanner(State.OpeningDoctype, 1, 8, [], false, false), DoctypeBracket[8]) == Ok(Scanner(State.OpeningDoctype, 1, 8, [], false, false));
    assert Loop(DoctypeBracket, Scanner(State.OpeningDoctype, 1, 8, [], false, false)) == Loop(DoctypeBracket, Scanner(State.OpeningDoctype, 1, 9, [], false, false));
  }

  /** `<!doctype>` fails in OpeningDoctype when it meets the `>` nine characters in. */
  lemma DoctypeBracketFails()
    ensures Tokenize(DoctypeBracket) == Err(Unexpected(9, State.OpeningDoctype))
  {
    DoctypeBracketText();
    DoctypeBracketPart1();
    DoctypeBracketPart2();
    assert Dispatch(DoctypeBracket, Scanner(State.OpeningDoctype, 1, 9, [], false, false), DoctypeBracket[9]) == Err(Unexpected(9, State.OpeningDoctype));
    assert Loop(DoctypeBracket, Scanner(State.OpeningDoctype, 1, 9, [], false, false)) == Err(Unexpected(9, State.OpeningDoctype));
  }

  const DoctypeRunOn := "<!doctypex"

  lemma DoctypeRunOnText()
    ensures DoctypeRunOn[0] == '<' && DoctypeRunOn[1] == '!' && DoctypeRunOn[2] == 'd' && DoctypeRunOn[3] == 'o' && DoctypeRunOn[4] == 'c' && DoctypeRunOn[5] == 't' && DoctypeRunOn[6] == 'y' && DoctypeRunOn[7] == 'p'
    ensures DoctypeRunOn[8] == 'e' && DoctypeRunOn[9] == 'x'
    ensures |DoctypeRunOn| == 10
  {
    assert DoctypeRunOn[0] == '<' && DoctypeRunOn[1] == '!' && DoctypeRunOn[2] == 'd' && DoctypeRunOn[3] == 'o' && DoctypeRunOn[4] == 'c' && DoctypeRunOn[5] == 't' && DoctypeRunOn[6] == 'y' && DoctypeRunOn[7] == 'p';
    assert DoctypeRunOn[8] == 'e' && DoctypeRunOn[9] == 'x';
  }

  lemma DoctypeRunOnPart1()
    ensures Loop(DoctypeRunOn, Init()) == Loop(DoctypeRunOn, Scanner(State.OpeningDoctype, 1, 4, [], false, false))
  {
    DoctypeRunOnText();
    assert Emit(DoctypeRunOn, Scanner(State.Literal, 0, 0, [], false, false), TokenKind.Literal, State.BeforeOpenTag, 0) == Scanner(State.BeforeOpenTag, 0, 0, [], false, false);
    assert Dispatch(DoctypeRunOn, Scanner(State.Literal, 0, 0, [], false, false), DoctypeRunOn[0]) == Ok(Scanner(State.BeforeOpenTag, 0, 0, [], false, false));
    assert Loop(DoctypeRunOn, Scanner(State.Literal, 0, 0, [], false, false)) == Loop(DoctypeRunOn, Scanner(State.BeforeOpenTag, 0, 1, [], false, false));
    assert Dispatch(DoctypeRunOn, Scanner(State.BeforeOpenTag, 0, 1, [], false, false), DoctypeRunOn[1]) == Ok(Scanner(State.OpeningSpecial, 1, 1, [], false, false));
    assert Loop(DoctypeRunOn, Scanner(State.BeforeOpenTag, 0, 1, [], false, false)) == Loop(DoctypeRunOn, Scanner(State.OpeningSpecial, 1, 2, [], false, false));
    assert Dispatch(DoctypeRunOn, Scanner(State.OpeningSpecial, 1, 2, [], false, false), DoctypeRunOn[2]) == Ok(Scanner(State.OpeningDoctype, 1, 2, [], false, false));
    assert Loop(DoctypeRunOn, Scanner(State.OpeningSpecial, 1, 2, [], false, false)) == Loop(DoctypeRunOn, Scanner(State.OpeningDoctype, 1, 3, [], false, false));
    assert Dispatch(DoctypeRunOn, Scanner(State.OpeningDoctype, 1, 3, [], false, false), DoctypeRunOn[3]) == Ok(Scanner(State.OpeningDoctype, 1, 3, [], false, false));
    assert Loop(DoctypeRunOn, Scanner(State.OpeningDoctype, 1, 3, [], false, false)) == Loop(DoctypeRunOn, Scanner(State.OpeningDoctype, 1, 4, [], false, false));
  }

  lemma DoctypeRunOnPart2()
    ensures Loop(DoctypeRunOn, Scanner(State.OpeningDoctype, 1, 4, [], false, false)) == Loop(DoctypeRunOn, Scanner(State.OpeningDoctype, 1, 9, [], false, false))
  {
    DoctypeRunOnText();
    assert Dispatch(DoctypeRunOn, Scanner(State.OpeningDoctype, 1, 4, [], false, false), DoctypeRunOn[4]) == Ok(Scanner(State.OpeningDoctype, 1, 4, [], false, false));
    assert Loop(DoctypeRunOn, Scanner(State.OpeningDoctype, 1, 4, [], false, false)) == Loop(DoctypeRunOn, Scanner(State.OpeningDoctype, 1, 5, [], false, false));
    assert Dispatch(DoctypeRunOn, Scanner(State.OpeningDoctype, 1, 5, [], false, false), DoctypeRunOn[5]) == Ok(Scanner(State.OpeningDoctype, 1, 5, [], false, false));
    assert Loop(DoctypeRunOn, Scanner(State.OpeningDoctype, 1, 5, [], false, false)) == Loop(DoctypeRunOn, Scanner(State.OpeningDoctype, 1, 6, [], false, false));
    assert Dispatch(DoctypeRunOn, Scanner(State.OpeningDoctype, 1, 6, [], false, false), DoctypeRunOn[6]) == Ok(Scanner(State.OpeningDoctype, 1, 6, [], false, false));
    assert Loop(DoctypeRunOn, Scanner(State.OpeningDoctype, 1, 6, [], false, false)) == Loop(DoctypeRunOn, Scanner(State.OpeningDoctype, 1, 7, [], false, false));
    assert Dispatch(DoctypeRunOn, Scanner(State.OpeningDoctype, 1, 7, [], false, false), DoctypeRunOn[7]) == Ok(Scanner(State.OpeningDoctype, 1, 7, [], false, false));
    assert Loop(DoctypeRunOn, Scanner(State.OpeningDoctype, 1, 7, [], false, false)) == Loop(DoctypeRunOn, Scanner(State.OpeningDoctype, 1, 8, [], false, false));
    assert Dispatch(DoctypeRunOn, Scanner(State.OpeningDoctype, 1, 8, [], false, false), DoctypeRunOn[8]) == Ok(Scanner(State.OpeningDoctype, 1, 8, [], false, false));
    assert Loop(DoctypeRunOn, Scanner(State.OpeningDoctype, 1, 8, [], false, false)) == Loop(DoctypeRunOn, Scanner(State.OpeningDoctype, 1, 9, [], false, false));
  }

  /** `<!doctypex` fails in OpeningDoctype at the `x`. */
  lemma DoctypeRunOnFails()
    ensures Tokenize(DoctypeRunOn) == Err(Unexpected(9, State.OpeningDoctype))
  {
    DoctypeRunOnText();
    DoctypeRunOnPart1();
    DoctypeRunOnPart2();
    assert Dispatch(DoctypeRunOn, Scanner(State.OpeningDoctype, 1, 9, [], false, false), DoctypeRunOn[9]) == Err(Unexpected(9, State.OpeningDoctype));
    assert Loop(DoctypeRunOn, Scanner(State.OpeningDoctype, 1, 9, [], false, false)) == Err(Unexpected(9, State.OpeningDoctype));
  }

  const StyleCut := "<style></"

  lemma StyleCutText()
    ensures StyleCut[0] == '<' && StyleCut[1] == 's' && StyleCut[2] == 't' && StyleCut[3] == 'y' && StyleCut[4] == 'l'
    ensures StyleCut[5] == 'e' && StyleCut[6] == '>' && StyleCut[7] == '<' && StyleCut[8] == '/'
    ensures |StyleCut| == 9
    ensures StyleCut[1..6] == "style"
    ensures Lower("style") == "style"
  {
    assert StyleCut[0] == '<' && StyleCut[1] == 's' && StyleCut[2] == 't' && StyleCut[3] == 'y' && StyleCut[4] == 'l';
    assert StyleCut[5] == 'e' && StyleCut[6] == '>' && StyleCut[7] == '<' && StyleCut[8] == '/';
    assert StyleCut[1..6] == [StyleCut[1], StyleCut[2], StyleCut[3], StyleCut[4], StyleCut[5]];
  }

  lemma StyleCutPart1()
    ensures Loop(StyleCut, Init()) == Loop(StyleCut, Scanner(State.OpeningTag, 1, 6, [], false, false))
  {
    StyleCutText();
    assert Emit(StyleCut, Scanner(State.Literal, 0, 0, [], false, false), TokenKind.Literal, State.BeforeOpenTag, 0) == Scanner(State.BeforeOpenTag, 0, 0, [], false, false);
    assert Dispatch(StyleCut, Scanner(State.Literal, 0, 0, [], false, false), StyleCut[0]) == Ok(Scanner(State.BeforeOpenTag, 0, 0, [], false, false));
    assert Loop(StyleCut, Scanner(State.Literal, 0, 0, [], false, false)) == Loop(StyleCut, Scanner(State.BeforeOpenTag, 0, 1, [], false, false));
    assert Dispatch(StyleCut, Scanner(State.BeforeOpenTag, 0, 1, [], false, false), StyleCut[1]) == Ok(Scanner(State.OpeningTag, 1, 1, [], false, false));
    assert Loop(StyleCut, Scanner(State.BeforeOpenTag, 0, 1, [], false, false)) == Loop(StyleCut, Scanner(State.OpeningTag, 1, 2, [], false, false));
    assert Dispatch(StyleCut, Scanner(State.OpeningTag, 1, 2, [], false, false), StyleCut[2]) == Ok(Scanner(State.OpeningTag, 1, 2, [], false, false));
    assert Loop(StyleCut, Scanner(State.OpeningTag, 1, 2, [], false, false)) == Loop(StyleCut, Scanner(State.OpeningTag, 1, 3, [], false, false));
    assert Dispatch(StyleCut, Scanner(State.OpeningTag, 1, 3, [], false, false), StyleCut[3]) == Ok(Scanner(State.OpeningTag, 1, 3, [], false, false));
    assert Loop(StyleCut, Scanner(State.OpeningTag, 1, 3, [], false, false)) == Loop(StyleCut, Scanner(State.OpeningTag, 1, 4, [], false, false));
    assert Dispatch(StyleCut, Scanner(State.OpeningTag, 1, 4, [], false, false), StyleCut[4]) == Ok(Scanner(State.OpeningTag, 1, 4, [], false, false));
    assert Loop(StyleCut, Scanner(State.OpeningTag, 1, 4, [], false, false)) == Loop(StyleCut, Scanner(State.OpeningTag, 1, 5, [], false, false));
    assert Dispatch(StyleCut, Scanner(State.OpeningTag, 1, 5, [], false, false), StyleCut[5]) == Ok(Scanner(State.OpeningTag, 1, 5, [], false, false));
    assert Loop(StyleCut, Scanner(State.OpeningTag, 1, 5, [], false, false)) == Loop(StyleCut, Scanner(State.OpeningTag, 1, 6, [], false, false));
  }

  lemma StyleCutPart2()
    ensures Loop(StyleCut, Scanner(State.OpeningTag, 1, 6, [], false, false)) == Loop(StyleCut, Scanner(State.ClosingTag, 9, 9, [Token(1, 6, "style", TokenKind.OpenTag), Token(6, 6, "", TokenKind.OpenTagEnd)], false, true))
  {
    StyleCutText();
    assert Emit(StyleCut, Scanner(State.OpeningTag, 1, 6, [], false, false), TokenKind.OpenTag, State.OpeningTag, 6) == Scanner(State.OpeningTag, 6, 6, [Token(1, 6, "style", TokenKind.OpenTag)], false, true);
    assert Emit(StyleCut, Scanner(State.OpeningTag, 6, 6, [Token(1, 6, "style", TokenKind.OpenTag)], false, true), TokenKind.OpenTagEnd, State.OpeningTag, 6) == Scanner(State.Literal, 7, 6, [Token(1, 6, "style", TokenKind.OpenTag), Token(6, 6, "", TokenKind.OpenTagEnd)], false, true);
    assert Dispatch(StyleCut, Scanner(State.OpeningTag, 1, 6, [], false, false), StyleCut[6]) == Ok(Scanner(State.Literal, 7, 6, [Token(1, 6, "style", TokenKind.OpenTag), Token(6, 6, "", TokenKind.OpenTagEnd)], false, true));
    assert Loop(StyleCut, Scanner(State.OpeningTag, 1, 6, [], false, false)) == Loop(StyleCut, Scanner(State.Literal, 7, 7, [Token(1, 6, "style", TokenKind.OpenTag), Token(6, 6, "", TokenKind.OpenTagEnd)], false, true));
    assert Emit(StyleCut, Scanner(State.Literal, 7, 7, [Token(1, 6, "style", TokenKind.OpenTag), Token(6, 6, "", TokenKind.OpenTagEnd)], false, true), TokenKind.Literal, State.BeforeOpenTag, 7) == Scanner(State.BeforeOpenTag, 7, 7, [Token(1, 6, "style", TokenKind.OpenTag), Token(6, 6, "", TokenKind.OpenTagEnd)], false, true);
    assert Dispatch(StyleCut, Scanner(State.Literal, 7, 7, [Token(1, 6, "style", TokenKind.OpenTag), Token(6, 6, "", TokenKind.OpenTagEnd)], false, true), StyleCut[7]) == Ok(Scanner(State.BeforeOpenTag, 7, 7, [Token(1, 6, "style", TokenKind.OpenTag), Token(6, 6, "", TokenKind.OpenTagEnd)], false, true));
    assert Loop(StyleCut, Scanner(State.Literal, 7, 7, [Token(1, 6, "style", TokenKind.OpenTag), Token(6, 6, "", TokenKind.OpenTagEnd)], false, true)) == Loop(StyleCut, Scanner(State.BeforeOpenTag, 7, 8, [Token(1, 6, "style", TokenKind.OpenTag), Token(6, 6, "", TokenKind.OpenTagEnd)], false, true));
    assert Dispatch(StyleCut, Scanner(State.BeforeOpenTag, 7, 8, [Token(1, 6, "style", TokenKind.OpenTag), Token(6, 6, "", TokenKind.OpenTagEnd)], false, true), StyleCut[8]) == Ok(Scanner(State.ClosingTag, 9, 8, [Token(1, 6, "style", TokenKind.OpenTag), Token(6, 6, "", TokenKind.OpenTagEnd)], false, true));
    assert Loop(StyleCut, Scanner(State.BeforeOpenTag, 7, 8, [Token(1, 6, "style", TokenKind.OpenTag), Token(6, 6, "", TokenKind.OpenTagEnd)], false, true)) == Loop(StyleCut, Scanner(State.ClosingTag, 9, 9, [Token(1, 6, "style", TokenKind.OpenTag), Token(6, 6, "", TokenKind.OpenTagEnd)], false, true));
  }

  /**
   * A `</` cut off by the end of input inside `style`: the pending section is
   * flushed as an empty CloseTag, whatever raw-text element is open.
   */
  lemma StyleCutTokens()
    ensures Tokenize(StyleCut) == Ok([Token(1, 6, "style", TokenKind.OpenTag), Token(6, 6, "", TokenKind.OpenTagEnd), Token(9, 9, "", TokenKind.CloseTag)])
  {
    StyleCutPart1();
    StyleCutPart2();
    StyleCutFinish();
  }

  lemma StyleCutFinish()
    ensures Loop(StyleCut, Scanner(State.ClosingTag, 9, 9, [Token(1, 6, "style", TokenKind.OpenTag), Token(6, 6, "", TokenKind.OpenTagEnd)], false, true)) == Ok(Scanner(State.ClosingTag, 9, 9, [Token(1, 6, "style", TokenKind.OpenTag), Token(6, 6, "", TokenKind.OpenTagEnd)], false, true))
    ensures Finish(StyleCut, Scanner(State.ClosingTag, 9, 9, [Token(1, 6, "style", TokenKind.OpenTag), Token(6, 6, "", TokenKind.OpenTagEnd)], false, true)).tokens == [Token(1, 6, "style", TokenKind.OpenTag), Token(6, 6, "", TokenKind.OpenTagEnd), Token(9, 9, "", TokenKind.CloseTag)]
  {
    StyleCutText();
    assert Substring(StyleCut, 9, 9) == "" && Lower("") == "";
    assert [Token(1, 6, "style", TokenKind.OpenTag), Token(6, 6, "", TokenKind.OpenTagEnd)] + [Token(9, 9, "", TokenKind.CloseTag)] == [Token(1, 6, "style", TokenKind.OpenTag), Token(6, 6, "", TokenKind.OpenTagEnd), Token(9, 9, "", TokenKind.CloseTag)];
    assert Emit(StyleCut, Scanner(State.ClosingTag, 9, 9, [Token(1, 6, "style", TokenKind.OpenTag), Token(6, 6, "", TokenKind.OpenTagEnd)], false, true), TokenKind.CloseTag, State.ClosingTag, 9) == Scanner(State.Literal, 10, 9, [Token(1, 6, "style", TokenKind.OpenTag), Token(6, 6, "", TokenKind.OpenTagEnd), Token(9, 9, "", TokenKind.CloseTag)], false, false);
  }
}
