/// Worked lines: what parse leaves behind on a few concrete inputs, one
/// significant unit at a time.
module Traces {
  import opened Lexer
  import opened Parser
  import opened Acceptance

  // ---------------------------------------------------------------------
  // Units at a position, by the bytes found there.
  // ---------------------------------------------------------------------

  /** A word w at i, followed by a byte that cannot extend it. */
  lemma WordAt(codes: CodeTable, data: seq<byte>, i: nat, w: seq<byte>)
    requires i + |w| <= |data| && data[i..i + |w|] == w
    requires w != [] && IsLetter(w[0]) && forall j :: 0 <= j < |w| ==> IsLetterOrDigit(w[j])
    requires i + |w| == |data| || !IsLetterOrDigit(data[i + |w|])
    ensures Scanner(codes, data, i) == Unit(|w|, CheckID(codes, Chars(w)), Chars(w))
  {
    assert data[i] == w[0];
    WordRunOf(data, i, |w|);
  }

  /** A number w at i, followed by a byte that is not a digit. */
  lemma NumberAt(codes: CodeTable, data: seq<byte>, i: nat, w: seq<byte>)
    requires i + |w| <= |data| && data[i..i + |w|] == w
    requires w != [] && forall j :: 0 <= j < |w| ==> IsDigit(w[j])
    requires i + |w| == |data| || !IsDigit(data[i + |w|])
    ensures Scanner(codes, data, i) == Unit(|w|, NumCode, Chars(w))
  {
    assert data[i] == w[0];
    assert !IsLetter(data[i]);
    DigitRunOf(data, i, |w|);
  }

  /** A one-byte operator at i. */
  lemma SingleAt(codes: CodeTable, data: seq<byte>, i: nat)
    requires i < |data| && IsSymbol(data[i])
    requires !IsPairLead(data[i]) || i + 1 == |data| || !IsSymbol(data[i + 1])
    ensures Scanner(codes, data, i) == Unit(1, CheckOperator(codes, [data[i] as char]), [data[i] as char])
  {
    ScanOperator(codes, data, i);
  }

  /** A two-byte operator at i. */
  lemma PairAt(codes: CodeTable, data: seq<byte>, i: nat)
    requires i + 1 < |data| && IsPairLead(data[i]) && IsSymbol(data[i + 1])
    ensures var v := [data[i] as char, data[i + 1] as char];
      Scanner(codes, data, i) == Unit(2, CheckOperator(codes, v), v)
  {
    ScanOperator(codes, data, i);
    assert data[i..i + 2] == [data[i], data[i + 1]];
  }

  /** The cursor steps over one whitespace byte. */
  lemma SpaceBefore(data: seq<byte>, i: nat, u: Unit, next: nat)
    requires i < |data| && IsSpace(data[i]) && NextSignificant(CodeMap, data, i + 1) == (u, next)
    ensures NextSignificant(CodeMap, data, i) == (u, next)
  {
  }

  // ---------------------------------------------------------------------
  // The words of the examples.
  // ---------------------------------------------------------------------

  const BeginBytes: seq<byte> := [98, 101, 103, 105, 110]
  const EndBytes: seq<byte> := [101, 110, 100]

  lemma BeginWord()
    ensures Chars(BeginBytes) == "begin" && CheckID(CodeMap, "begin") == BeginCode
  {
    assert Chars(BeginBytes) == "begin" by {
      var c := Chars(BeginBytes);
      assert c[0] == 'b' && c[1] == 'e' && c[2] == 'g' && c[3] == 'i' && c[4] == 'n';
    }
  }

  lemma EndWord()
    ensures Chars(EndBytes) == "end" && CheckID(CodeMap, "end") == EndCode
  {
    assert Chars(EndBytes) == "end" by {
      var c := Chars(EndBytes);
      assert c[0] == 'e' && c[1] == 'n' && c[2] == 'd';
    }
  }

  lemma LetterWord(b: byte)
    requires 'a' as int <= b <= 'z' as int
    ensures Chars([b]) == [b as char] && CheckID(CodeMap, [b as char]) == IdCode
  {
    assert Chars([b])[0] == b as char;
  }

  lemma DigitWord(b: byte)
    requires IsDigit(b)
    ensures Chars([b]) == [b as char]
  {
    assert Chars([b])[0] == b as char;
  }

  // ---------------------------------------------------------------------
  // What the cursor returns at a position, for the units of the examples.
  // ---------------------------------------------------------------------

  lemma BeginAt(data: seq<byte>, i: nat)
    requires i + 5 <= |data| && data[i..i + 5] == BeginBytes
    requires i + 5 == |data| || !IsLetterOrDigit(data[i + 5])
    ensures NextSignificant(CodeMap, data, i) == (Unit(5, BeginCode, "begin"), i + 5)
  {
    WordAt(CodeMap, data, i, BeginBytes);
    BeginWord();
  }

  lemma EndAt(data: seq<byte>, i: nat)
    requires i + 3 <= |data| && data[i..i + 3] == EndBytes
    requires i + 3 == |data| || !IsLetterOrDigit(data[i + 3])
    ensures NextSignificant(CodeMap, data, i) == (Unit(3, EndCode, "end"), i + 3)
  {
    WordAt(CodeMap, data, i, EndBytes);
    EndWord();
  }

  /** A one-letter identifier. */
  lemma LetterAt(data: seq<byte>, i: nat)
    requires i < |data| && 'a' as int <= data[i] <= 'z' as int
    requires i + 1 == |data| || !IsLetterOrDigit(data[i + 1])
    ensures NextSignificant(CodeMap, data, i) == (Unit(1, IdCode, [data[i] as char]), i + 1)
  {
    assert data[i..i + 1] == [data[i]];
    WordAt(CodeMap, data, i, [data[i]]);
    LetterWord(data[i]);
  }

  /** A one-digit number. */
  lemma DigitAt(data: seq<byte>, i: nat)
    requires i < |data| && IsDigit(data[i])
    requires i + 1 == |data| || !IsDigit(data[i + 1])
    ensures NextSignificant(CodeMap, data, i) == (Unit(1, NumCode, [data[i] as char]), i + 1)
  {
    assert data[i..i + 1] == [data[i]];
    NumberAt(CodeMap, data, i, [data[i]]);
    DigitWord(data[i]);
  }

  /** An operator byte that never pairs with the next one. */
  lemma SymbolAt(data: seq<byte>, i: nat)
    requires i < |data| && IsSymbol(data[i]) && !IsPairLead(data[i])
    ensures NextSignificant(CodeMap, data, i) == (Unit(1, CodeMap[[data[i] as char]], [data[i] as char]), i + 1)
  {
    SingleAt(CodeMap, data, i);
    SingleOperatorsCoded(data[i]);
  }

  lemma AssignAt(data: seq<byte>, i: nat)
    requires i + 1 < |data| && data[i] == ':' as int && data[i + 1] == '=' as int
    ensures NextSignificant(CodeMap, data, i) == (Unit(2, AssignCode, ":="), i + 2)
  {
    PairAt(CodeMap, data, i);
  }

  // ---------------------------------------------------------------------
  // "begin x:=1 end": no end marker.
  // ---------------------------------------------------------------------

  /** b e g i n _ x : = 1 _ e n d */
  const NoMarkerLine: seq<byte> := [98, 101, 103, 105, 110, 32, 120, 58, 61, 49, 32, 101, 110, 100]

  lemma NoMarkerUnit0()
    ensures NextSignificant(CodeMap, NoMarkerLine, 0) == (Unit(5, BeginCode, "begin"), 5)
  {
    assert NoMarkerLine[0..5] == BeginBytes;
    BeginAt(NoMarkerLine, 0);
  }

  lemma NoMarkerUnit5()
    ensures NextSignificant(CodeMap, NoMarkerLine, 5) == (Unit(1, IdCode, "x"), 7)
  {
    LetterAt(NoMarkerLine, 6);
    SpaceBefore(NoMarkerLine, 5, Unit(1, IdCode, "x"), 7);
  }

  lemma NoMarkerUnit7()
    ensures NextSignificant(CodeMap, NoMarkerLine, 7) == (Unit(2, AssignCode, ":="), 9)
  {
    AssignAt(NoMarkerLine, 7);
  }

  lemma NoMarkerUnit9()
    ensures NextSignificant(CodeMap, NoMarkerLine, 9) == (Unit(1, NumCode, "1"), 10)
  {
    DigitAt(NoMarkerLine, 9);
  }

  lemma NoMarkerUnit10()
    ensures NextSignificant(CodeMap, NoMarkerLine, 10) == (Unit(3, EndCode, "end"), 14)
  {
    assert NoMarkerLine[11..14] == EndBytes;
    EndAt(NoMarkerLine, 11);
    SpaceBefore(NoMarkerLine, 10, Unit(3, EndCode, "end"), 14);
  }

  lemma NoMarkerUnits()
    ensures NextSignificant(CodeMap, NoMarkerLine, 0) == (Unit(5, BeginCode, "begin"), 5)
    ensures NextSignificant(CodeMap, NoMarkerLine, 5) == (Unit(1, IdCode, "x"), 7)
    ensures NextSignificant(CodeMap, NoMarkerLine, 7) == (Unit(2, AssignCode, ":="), 9)
    ensures NextSignificant(CodeMap, NoMarkerLine, 9) == (Unit(1, NumCode, "1"), 10)
    ensures NextSignificant(CodeMap, NoMarkerLine, 10) == (Unit(3, EndCode, "end"), 14)
  {
    NoMarkerUnit0();
    NoMarkerUnit5();
    NoMarkerUnit7();
    NoMarkerUnit9();
    NoMarkerUnit10();
  }

  lemma TraceNoMarker()
    ensures ParseLine(NoMarkerLine) == State(14, Zero, false, NoEndMarker)
  {
    NoMarkerUnits();
  }

  // ---------------------------------------------------------------------
  // "begin x:=1 end $": accepted.
  // ---------------------------------------------------------------------

  /** b e g i n _ x : = 1 _ e n d _ $: the line above with " $" added. */
  const ValidLine: seq<byte> := [98, 101, 103, 105, 110, 32, 120, 58, 61, 49, 32, 101, 110, 100, 32, 36]

  /** The units before "end" are those of the shorter line. */
  lemma ValidHead()
    ensures NextSignificant(CodeMap, ValidLine, 0) == (Unit(5, BeginCode, "begin"), 5)
    ensures NextSignificant(CodeMap, ValidLine, 5) == (Unit(1, IdCode, "x"), 7)
    ensures NextSignificant(CodeMap, ValidLine, 7) == (Unit(2, AssignCode, ":="), 9)
    ensures NextSignificant(CodeMap, ValidLine, 9) == (Unit(1, NumCode, "1"), 10)
  {
    NoMarkerUnits();
    assert ValidLine == NoMarkerLine + [32, 36];
    EndMarkerKey();
    NextSignificantExtend(CodeMap, NoMarkerLine, [32, 36], 0);
    NextSignificantExtend(CodeMap, NoMarkerLine, [32, 36], 5);
    NextSignificantExtend(CodeMap, NoMarkerLine, [32, 36], 7);
    NextSignificantExtend(CodeMap, NoMarkerLine, [32, 36], 9);
  }

  lemma ValidUnit10()
    ensures NextSignificant(CodeMap, ValidLine, 10) == (Unit(3, EndCode, "end"), 14)
  {
    assert ValidLine[11..14] == EndBytes;
    EndAt(ValidLine, 11);
    SpaceBefore(ValidLine, 10, Unit(3, EndCode, "end"), 14);
  }

  lemma ValidUnit14()
    ensures NextSignificant(CodeMap, ValidLine, 14) == (Unit(1, EndMarkerCode, "$"), 16)
  {
    SymbolAt(ValidLine, 15);
    SpaceBefore(ValidLine, 14, Unit(1, EndMarkerCode, "$"), 16);
  }

  /** The line is accepted, and parse stops on the end marker. */
  lemma TraceValid()
    ensures ParseLine(ValidLine) == State(16, Unit(1, EndMarkerCode, "$"), true, "")
  {
    var d := ValidLine;
    ValidHead();
    ValidUnit10();
    ValidUnit14();
    var x := State(7, Unit(1, IdCode, "x"), true, "");
    var one := State(10, Unit(1, NumCode, "1"), true, "");
    var end := State(14, Unit(3, EndCode, "end"), true, "");
    assert AfterFactor(CodeMap, d, one) == end;
    assert AfterTerm(CodeMap, d, one) == end;
    assert AfterExpression(CodeMap, d, one) == end;
    assert AfterStatement(CodeMap, d, x) == end;
    assert AfterMulti(CodeMap, d, x) == end;
  }

  /** Whatever follows the end marker, the line is still accepted. */
  lemma TraceValidWithTail(rest: seq<byte>)
    ensures ParseLine(ValidLine + rest).isValid
  {
    TraceValid();
    ParseIgnoresTail(ValidLine, rest);
  }

  // ---------------------------------------------------------------------
  // "x:=1 end $": no begin.
  // ---------------------------------------------------------------------

  /** x : = 1 _ e n d _ $ */
  const NoBeginLine: seq<byte> := [120, 58, 61, 49, 32, 101, 110, 100, 32, 36]

  lemma TraceNoBegin()
    ensures ParseLine(NoBeginLine) == State(1, Unit(1, IdCode, "x"), false, NoBegin)
  {
    LetterAt(NoBeginLine, 0);
    ParseNoBegin(CodeMap, NoBeginLine);
  }

  // ---------------------------------------------------------------------
  // "begin x=1 end $": "=" where ":=" belongs. The statement fails, and
  // since "=" is not "end" the last tag written is "no end".
  // ---------------------------------------------------------------------

  /** b e g i n _ x = 1 _ e n d _ $ */
  const NoAssignLine: seq<byte> := [98, 101, 103, 105, 110, 32, 120, 61, 49, 32, 101, 110, 100, 32, 36]

  lemma NoAssignUnit0()
    ensures NextSignificant(CodeMap, NoAssignLine, 0) == (Unit(5, BeginCode, "begin"), 5)
  {
    assert NoAssignLine[0..5] == BeginBytes;
    BeginAt(NoAssignLine, 0);
  }

  lemma NoAssignUnit5()
    ensures NextSignificant(CodeMap, NoAssignLine, 5) == (Unit(1, IdCode, "x"), 7)
  {
    LetterAt(NoAssignLine, 6);
    SpaceBefore(NoAssignLine, 5, Unit(1, IdCode, "x"), 7);
  }

  lemma NoAssignUnit7()
    ensures NextSignificant(CodeMap, NoAssignLine, 7) == (Unit(1, 31, "="), 8)
  {
    SymbolAt(NoAssignLine, 7);
  }

  lemma TraceNoAssign()
    ensures ParseLine(NoAssignLine) == State(8, Unit(1, 31, "="), false, NoEnd)
  {
    NoAssignUnit0();
    NoAssignUnit5();
    NoAssignUnit7();
  }

  // ---------------------------------------------------------------------
  // "begin x:=(1+2 end $": a missing ")". Parsing goes on after the
  // failure; "end" and "$" are still found, so "no )" is the tag left.
  // ---------------------------------------------------------------------

  /** b e g i n _ x : = ( 1 + 2 _ e n d _ $ */
  const NoParenLine: seq<byte> := [98, 101, 103, 105, 110, 32, 120, 58, 61, 40, 49, 43, 50, 32, 101, 110, 100, 32, 36]

  lemma NoParenUnit0()
    ensures NextSignificant(CodeMap, NoParenLine, 0) == (Unit(5, BeginCode, "begin"), 5)
  {
    assert NoParenLine[0..5] == BeginBytes;
    BeginAt(NoParenLine, 0);
  }

  lemma NoParenUnit5()
    ensures NextSignificant(CodeMap, NoParenLine, 5) == (Unit(1, IdCode, "x"), 7)
  {
    LetterAt(NoParenLine, 6);
    SpaceBefore(NoParenLine, 5, Unit(1, IdCode, "x"), 7);
  }

  lemma NoParenUnit7()
    ensures NextSignificant(CodeMap, NoParenLine, 7) == (Unit(2, AssignCode, ":="), 9)
  {
    AssignAt(NoParenLine, 7);
  }

  lemma NoParenUnit9()
    ensures NextSignificant(CodeMap, NoParenLine, 9) == (Unit(1, LParenCode, "("), 10)
  {
    SymbolAt(NoParenLine, 9);
  }

  lemma NoParenUnit10()
    ensures NextSignificant(CodeMap, NoParenLine, 10) == (Unit(1, NumCode, "1"), 11)
  {
    DigitAt(NoParenLine, 10);
  }

  lemma NoParenUnit11()
    ensures NextSignificant(CodeMap, NoParenLine, 11) == (Unit(1, PlusCode, "+"), 12)
  {
    SymbolAt(NoParenLine, 11);
  }

  lemma NoParenUnit12()
    ensures NextSignificant(CodeMap, NoParenLine, 12) == (Unit(1, NumCode, "2"), 13)
  {
    DigitAt(NoParenLine, 12);
  }

  lemma NoParenUnit13()
    ensures NextSignificant(CodeMap, NoParenLine, 13) == (Unit(3, EndCode, "end"), 17)
  {
    assert NoParenLine[14..17] == EndBytes;
    EndAt(NoParenLine, 14);
    SpaceBefore(NoParenLine, 13, Unit(3, EndCode, "end"), 17);
  }

  lemma NoParenUnit17()
    ensures NextSignificant(CodeMap, NoParenLine, 17) == (Unit(1, EndMarkerCode, "$"), 19)
  {
    SymbolAt(NoParenLine, 18);
    SpaceBefore(NoParenLine, 17, Unit(1, EndMarkerCode, "$"), 19);
  }

  lemma NoParenHead()
    ensures NextSignificant(CodeMap, NoParenLine, 0) == (Unit(5, BeginCode, "begin"), 5)
    ensures NextSignificant(CodeMap, NoParenLine, 5) == (Unit(1, IdCode, "x"), 7)
    ensures NextSignificant(CodeMap, NoParenLine, 7) == (Unit(2, AssignCode, ":="), 9)
    ensures NextSignificant(CodeMap, NoParenLine, 9) == (Unit(1, LParenCode, "("), 10)
  {
    NoParenUnit0();
    NoParenUnit5();
    NoParenUnit7();
    NoParenUnit9();
  }

  lemma NoParenTail()
    ensures NextSignificant(CodeMap, NoParenLine, 10) == (Unit(1, NumCode, "1"), 11)
    ensures NextSignificant(CodeMap, NoParenLine, 11) == (Unit(1, PlusCode, "+"), 12)
    ensures NextSignificant(CodeMap, NoParenLine, 12) == (Unit(1, NumCode, "2"), 13)
    ensures NextSignificant(CodeMap, NoParenLine, 13) == (Unit(3, EndCode, "end"), 17)
    ensures NextSignificant(CodeMap, NoParenLine, 17) == (Unit(1, EndMarkerCode, "$"), 19)
  {
    NoParenUnit10();
    NoParenUnit11();
    NoParenUnit12();
    NoParenUnit13();
    NoParenUnit17();
  }

  /** Inside the parentheses: "1+2" is read up to "end". */
  lemma NoParenInner()
    ensures AfterExpression(CodeMap, NoParenLine, State(11, Unit(1, NumCode, "1"), true, ""))
         == State(17, Unit(3, EndCode, "end"), true, "")
  {
    var d := NoParenLine;
    NoParenTail();
    var plus := State(12, Unit(1, PlusCode, "+"), true, "");
    var two := State(13, Unit(1, NumCode, "2"), true, "");
    var end := State(17, Unit(3, EndCode, "end"), true, "");
    assert AfterTerm(CodeMap, d, State(11, Unit(1, NumCode, "1"), true, "")) == plus;
    assert AfterTerm(CodeMap, d, two) == end;
    assert AfterExprLoop(CodeMap, d, end) == end;
    assert AfterExprLoop(CodeMap, d, plus) == end;
  }

  lemma TraceNoParen()
    ensures ParseLine(NoParenLine) == State(19, Unit(1, EndMarkerCode, "$"), false, NoRParen)
  {
    var d := NoParenLine;
    NoParenHead();
    NoParenTail();
    NoParenInner();
    var x := State(7, Unit(1, IdCode, "x"), true, "");
    var open := State(10, Unit(1, LParenCode, "("), true, "");
    var failed := State(17, Unit(3, EndCode, "end"), false, NoRParen);
    assert AfterFactor(CodeMap, d, open) == failed;
    assert AfterExpression(CodeMap, d, open) == failed;
    assert AfterStatement(CodeMap, d, x) == failed;
    assert AfterMulti(CodeMap, d, x) == failed;
  }

  // ---------------------------------------------------------------------
  // "begin x:=1+2;y:=x*3 end $": two statements, accepted.
  // ---------------------------------------------------------------------

  /** b e g i n _ x : = 1 + 2 ; y : = x * 3 _ e n d _ $ */
  const TwoLine: seq<byte> :=
    [98, 101, 103, 105, 110, 32, 120, 58, 61, 49, 43, 50, 59, 121, 58, 61, 120, 42, 51, 32, 101, 110, 100, 32, 36]

  lemma TwoUnit0()
    ensures NextSignificant(CodeMap, TwoLine, 0) == (Unit(5, BeginCode, "begin"), 5)
  {
    assert TwoLine[0..5] == BeginBytes;
    BeginAt(TwoLine, 0);
  }

  lemma TwoUnit5()
    ensures NextSignificant(CodeMap, TwoLine, 5) == (Unit(1, IdCode, "x"), 7)
  {
    LetterAt(TwoLine, 6);
    SpaceBefore(TwoLine, 5, Unit(1, IdCode, "x"), 7);
  }

  lemma TwoUnit7()
    ensures NextSignificant(CodeMap, TwoLine, 7) == (Unit(2, AssignCode, ":="), 9)
  {
    AssignAt(TwoLine, 7);
  }

  lemma TwoUnit9()
    ensures NextSignificant(CodeMap, TwoLine, 9) == (Unit(1, NumCode, "1"), 10)
  {
    DigitAt(TwoLine, 9);
  }

  lemma TwoUnit10()
    ensures NextSignificant(CodeMap, TwoLine, 10) == (Unit(1, PlusCode, "+"), 11)
  {
    SymbolAt(TwoLine, 10);
  }

  lemma TwoUnit11()
    ensures NextSignificant(CodeMap, TwoLine, 11) == (Unit(1, NumCode, "2"), 12)
  {
    DigitAt(TwoLine, 11);
  }

  lemma TwoUnit12()
    ensures NextSignificant(CodeMap, TwoLine, 12) == (Unit(1, SemicolonCode, ";"), 13)
  {
    SymbolAt(TwoLine, 12);
  }

  lemma TwoUnit13()
    ensures NextSignificant(CodeMap, TwoLine, 13) == (Unit(1, IdCode, "y"), 14)
  {
    LetterAt(TwoLine, 13);
  }

  lemma TwoUnit14()
    ensures NextSignificant(CodeMap, TwoLine, 14) == (Unit(2, AssignCode, ":="), 16)
  {
    AssignAt(TwoLine, 14);
  }

  lemma TwoUnit16()
    ensures NextSignificant(CodeMap, TwoLine, 16) == (Unit(1, IdCode, "x"), 17)
  {
    LetterAt(TwoLine, 16);
  }

  lemma TwoUnit17()
    ensures NextSignificant(CodeMap, TwoLine, 17) == (Unit(1, TimesCode, "*"), 18)
  {
    SymbolAt(TwoLine, 17);
  }

  lemma TwoUnit18()
    ensures NextSignificant(CodeMap, TwoLine, 18) == (Unit(1, NumCode, "3"), 19)
  {
    DigitAt(TwoLine, 18);
  }

  lemma TwoUnit19()
    ensures NextSignificant(CodeMap, TwoLine, 19) == (Unit(3, EndCode, "end"), 23)
  {
    assert TwoLine[20..23] == EndBytes;
    EndAt(TwoLine, 20);
    SpaceBefore(TwoLine, 19, Unit(3, EndCode, "end"), 23);
  }

  lemma TwoUnit23()
    ensures NextSignificant(CodeMap, TwoLine, 23) == (Unit(1, EndMarkerCode, "$"), 25)
  {
    SymbolAt(TwoLine, 24);
    SpaceBefore(TwoLine, 23, Unit(1, EndMarkerCode, "$"), 25);
  }

  lemma TwoFirstUnits()
    ensures NextSignificant(CodeMap, TwoLine, 0) == (Unit(5, BeginCode, "begin"), 5)
    ensures NextSignificant(CodeMap, TwoLine, 5) == (Unit(1, IdCode, "x"), 7)
    ensures NextSignificant(CodeMap, TwoLine, 7) == (Unit(2, AssignCode, ":="), 9)
    ensures NextSignificant(CodeMap, TwoLine, 9) == (Unit(1, NumCode, "1"), 10)
    ensures NextSignificant(CodeMap, TwoLine, 10) == (Unit(1, PlusCode, "+"), 11)
    ensures NextSignificant(CodeMap, TwoLine, 11) == (Unit(1, NumCode, "2"), 12)
    ensures NextSignificant(CodeMap, TwoLine, 12) == (Unit(1, SemicolonCode, ";"), 13)
  {
    TwoUnit0();
    TwoUnit5();
    TwoUnit7();
    TwoUnit9();
    TwoUnit10();
    TwoUnit11();
    TwoUnit12();
  }

  lemma TwoSecondUnits()
    ensures NextSignificant(CodeMap, TwoLine, 13) == (Unit(1, IdCode, "y"), 14)
    ensures NextSignificant(CodeMap, TwoLine, 14) == (Unit(2, AssignCode, ":="), 16)
    ensures NextSignificant(CodeMap, TwoLine, 16) == (Unit(1, IdCode, "x"), 17)
    ensures NextSignificant(CodeMap, TwoLine, 17) == (Unit(1, TimesCode, "*"), 18)
    ensures NextSignificant(CodeMap, TwoLine, 18) == (Unit(1, NumCode, "3"), 19)
    ensures NextSignificant(CodeMap, TwoLine, 19) == (Unit(3, EndCode, "end"), 23)
    ensures NextSignificant(CodeMap, TwoLine, 23) == (Unit(1, EndMarkerCode, "$"), 25)
  {
    TwoUnit13();
    TwoUnit14();
    TwoUnit16();
    TwoUnit17();
    TwoUnit18();
    TwoUnit19();
    TwoUnit23();
  }

  /** "x:=1+2" stops on the ";". */
  lemma TwoFirstStatement()
    ensures AfterStatement(CodeMap, TwoLine, State(7, Unit(1, IdCode, "x"), true, ""))
         == State(13, Unit(1, SemicolonCode, ";"), true, "")
  {
    var d := TwoLine;
    TwoFirstUnits();
    var one := State(10, Unit(1, NumCode, "1"), true, "");
    var plus := State(11, Unit(1, PlusCode, "+"), true, "");
    var two := State(12, Unit(1, NumCode, "2"), true, "");
    var semi := State(13, Unit(1, SemicolonCode, ";"), true, "");
    assert AfterTerm(CodeMap, d, one) == plus;
    assert AfterTerm(CodeMap, d, two) == semi;
    assert AfterExprLoop(CodeMap, d, semi) == semi;
    assert AfterExprLoop(CodeMap, d, plus) == semi;
    assert AfterExpression(CodeMap, d, one) == semi;
  }

  /** "y:=x*3" stops on "end". */
  lemma TwoSecondStatement()
    ensures AfterStatement(CodeMap, TwoLine, State(14, Unit(1, IdCode, "y"), true, ""))
         == State(23, Unit(3, EndCode, "end"), true, "")
  {
    var d := TwoLine;
    TwoSecondUnits();
    var x := State(17, Unit(1, IdCode, "x"), true, "");
    var times := State(18, Unit(1, TimesCode, "*"), true, "");
    var end := State(23, Unit(3, EndCode, "end"), true, "");
    assert AfterFactor(CodeMap, d, x) == times;
    assert AfterTermLoop(CodeMap, d, end) == end;
    assert AfterTermLoop(CodeMap, d, times) == end;
    assert AfterTerm(CodeMap, d, x) == end;
    assert AfterExpression(CodeMap, d, x) == end;
  }

  lemma TraceTwoStatements()
    ensures ParseLine(TwoLine) == State(25, Unit(1, EndMarkerCode, "$"), true, "")
  {
    var d := TwoLine;
    TwoFirstUnits();
    TwoSecondUnits();
    TwoFirstStatement();
    TwoSecondStatement();
    var x := State(7, Unit(1, IdCode, "x"), true, "");
    var semi := State(13, Unit(1, SemicolonCode, ";"), true, "");
    var end := State(23, Unit(3, EndCode, "end"), true, "");
    assert AfterMultiLoop(CodeMap, d, end) == end;
    assert AfterMultiLoop(CodeMap, d, semi) == end;
    assert AfterMulti(CodeMap, d, x) == end;
  }
}
