/// The scanner of the toy language: byte classifiers, the code table, the
/// one-token scanner with its maximal-munch rules, the whitespace-skipping
/// cursor shared with the parser, the whole-line scan loop and the rendering
/// of a token.
module Lexer {

  /** One byte of the input line. */
  type byte = x: int | 0 <= x < 256

  // ---------------------------------------------------------------------
  // Byte classifiers. The source asks Go's unicode package about
  // rune(byte), i.e. about the Latin-1 code point with the byte's value;
  // these are those answers written out.
  // ---------------------------------------------------------------------

  predicate IsLetter(b: byte) {
    || 'A' as int <= b <= 'Z' as int
    || 'a' as int <= b <= 'z' as int
    || b == 0xAA || b == 0xB5 || b == 0xBA
    || 0xC0 <= b <= 0xD6
    || 0xD8 <= b <= 0xF6
    || 0xF8 <= b <= 0xFF
  }

  predicate IsDigit(b: byte) {
    '0' as int <= b <= '9' as int
  }

  predicate IsSpace(b: byte) {
    0x09 <= b <= 0x0D || b == 0x20 || b == 0x85 || b == 0xA0
  }

  predicate IsLetterOrDigit(b: byte) {
    IsLetter(b) || IsDigit(b)
  }

  /** The operator bytes. */
  const Symbols: string := "+-*/:=<>;()$"

  predicate IsSymbol(b: byte) {
    || b == '+' as int || b == '-' as int || b == '*' as int || b == '/' as int
    || b == ':' as int || b == '=' as int || b == '<' as int || b == '>' as int
    || b == ';' as int || b == '(' as int || b == ')' as int || b == '$' as int
  }

  lemma SymbolsAreOperatorBytes(b: byte)
    ensures IsSymbol(b) <==> b as char in Symbols
  {
  }

  /** The operator bytes that may take a second operator byte. */
  predicate IsPairLead(b: byte) {
    b == ':' as int || b == '<' as int || b == '>' as int
  }

  /** Every byte falls in at most one class, so the order of the scanner's
      tests only matters through the "otherwise" case. */
  lemma ClassesDisjoint(b: byte)
    ensures !(IsLetter(b) && IsDigit(b))
    ensures !(IsLetterOrDigit(b) && (IsSymbol(b) || IsSpace(b)))
    ensures !(IsSymbol(b) && IsSpace(b))
  {
  }

  // ---------------------------------------------------------------------
  // The code table.
  // ---------------------------------------------------------------------

  const EndMarkerCode := -1
  const BeginCode := 0
  const EndCode := 1
  const IdCode := 2
  const NumCode := 3
  const SpaceCode := 4
  const PlusCode := 20
  const MinusCode := 21
  const TimesCode := 22
  const DivideCode := 23
  const AssignCode := 25
  const SemicolonCode := 32
  const LParenCode := 33
  const RParenCode := 34
  const ErrCode := 99

  /** A table from lexemes to codes. */
  type CodeTable = map<string, int>

  /** The source's codeMap: keywords, operators, and the pseudo-keys ID,
      NUM, SPACE and ERR, which are ordinary keys of the table. The scanner
      and the parser take the table as a parameter; everything the model
      states about the program itself is stated for this table. */
  const CodeMap: CodeTable := map[
    "$" := EndMarkerCode, "begin" := BeginCode, "end" := EndCode,
    "ID" := IdCode, "NUM" := NumCode, "SPACE" := SpaceCode,
    "if" := 10, "then" := 11, "while" := 12, "do" := 13,
    "+" := PlusCode, "-" := MinusCode, "*" := TimesCode, "/" := DivideCode,
    ":" := 24, ":=" := AssignCode, "<" := 26, "<>" := 27, "<=" := 28,
    ">" := 29, ">=" := 30, "=" := 31,
    ";" := SemicolonCode, "(" := LParenCode, ")" := RParenCode, "ERR" := ErrCode
  ]

  /** checkID: a word's code is its table entry, or the identifier code. */
  function CheckID(codes: CodeTable, s: string): (r: int) {
    if s in codes then codes[s] else IdCode
  }

  /** checkOperator: an operator's code is its table entry, or the error code. */
  function CheckOperator(codes: CodeTable, s: string): (r: int) {
    if s in codes then codes[s] else ErrCode
  }

  // ---------------------------------------------------------------------
  // Tokens.
  // ---------------------------------------------------------------------

  /** A scanned unit: bytes consumed, its code, and its text. */
  datatype Unit = Unit(length: nat, typenum: int, value: string)

  /** Go's zero Unit, returned at or past the end of the input. Its code 0
      is also the code of "begin". */
  const Zero := Unit(0, 0, "")

  /** Each byte as the character with that code point. */
  function Chars(bs: seq<byte>): (s: string)
    ensures |s| == |bs|
    ensures forall i :: 0 <= i < |bs| ==> s[i] == bs[i] as char
  {
    seq(|bs|, i requires 0 <= i < |bs| => bs[i] as char)
  }

  /** getWord as a function: the length and the text of the longest run of
      letters and digits at i. */
  function WordRun(data: seq<byte>, i: nat): (r: (nat, string))
    requires i <= |data|
    ensures i + r.0 <= |data|
    decreases |data| - i
  {
    if i < |data| && IsLetterOrDigit(data[i]) then
      var rest := WordRun(data, i + 1);
      (1 + rest.0, [data[i] as char] + rest.1)
    else (0, "")
  }

  /** getNUM as a function: the length and the text of the longest run of
      digits at i. */
  function DigitRun(data: seq<byte>, i: nat): (r: (nat, string))
    requires i <= |data|
    ensures i + r.0 <= |data|
    decreases |data| - i
  {
    if i < |data| && IsDigit(data[i]) then
      var rest := DigitRun(data, i + 1);
      (1 + rest.0, [data[i] as char] + rest.1)
    else (0, "")
  }

  /** Maximal munch for words: the run holds only letters and digits, the
      byte after it is neither, and its text is the bytes it covers. */
  lemma {:induction false} WordRunMaximal(data: seq<byte>, i: nat)
    requires i <= |data|
    ensures var (n, v) := WordRun(data, i);
      && (forall j :: i <= j < i + n ==> IsLetterOrDigit(data[j]))
      && (i + n < |data| ==> !IsLetterOrDigit(data[i + n]))
      && v == Chars(data[i..i + n])
    decreases |data| - i
  {
    if i < |data| && IsLetterOrDigit(data[i]) {
      WordRunMaximal(data, i + 1);
      var (n, v) := WordRun(data, i + 1);
      assert data[i..i + 1 + n] == [data[i]] + data[i + 1..i + 1 + n];
    }
  }

  /** Maximal munch for numbers. */
  lemma {:induction false} DigitRunMaximal(data: seq<byte>, i: nat)
    requires i <= |data|
    ensures var (n, v) := DigitRun(data, i);
      && (forall j :: i <= j < i + n ==> IsDigit(data[j]))
      && (i + n < |data| ==> !IsDigit(data[i + n]))
      && v == Chars(data[i..i + n])
    decreases |data| - i
  {
    if i < |data| && IsDigit(data[i]) {
      DigitRunMaximal(data, i + 1);
      var (n, v) := DigitRun(data, i + 1);
      assert data[i..i + 1 + n] == [data[i]] + data[i + 1..i + 1 + n];
    }
  }

  /** Conversely, a stretch of letters and digits that nothing can extend
      is exactly the run found there. */
  lemma {:induction false} WordRunOf(data: seq<byte>, i: nat, m: nat)
    requires i + m <= |data|
    requires forall j :: i <= j < i + m ==> IsLetterOrDigit(data[j])
    requires i + m == |data| || !IsLetterOrDigit(data[i + m])
    ensures WordRun(data, i) == (m, Chars(data[i..i + m]))
    decreases m
  {
    if m > 0 {
      WordRunOf(data, i + 1, m - 1);
      var whole, tail := data[i..i + m], data[i + 1..i + m];
      assert Chars(whole) == [data[i] as char] + Chars(tail) by {
        assert forall k :: 1 <= k < m ==> whole[k] == tail[k - 1];
      }
    }
  }

  /** The same for a stretch of digits. */
  lemma {:induction false} DigitRunOf(data: seq<byte>, i: nat, m: nat)
    requires i + m <= |data|
    requires forall j :: i <= j < i + m ==> IsDigit(data[j])
    requires i + m == |data| || !IsDigit(data[i + m])
    ensures DigitRun(data, i) == (m, Chars(data[i..i + m]))
    decreases m
  {
    if m > 0 {
      DigitRunOf(data, i + 1, m - 1);
      var whole, tail := data[i..i + m], data[i + 1..i + m];
      assert Chars(whole) == [data[i] as char] + Chars(tail) by {
        assert forall k :: 1 <= k < m ==> whole[k] == tail[k - 1];
      }
    }
  }

  /** getWord: the loop that grows a word byte by byte. */
  method GetWord(data: seq<byte>, index: nat) returns (length: nat, value: string)
    requires index <= |data|
    ensures (length, value) == WordRun(data, index)
  {
    length, value := 0, "";
    assert value + WordRun(data, index).1 == WordRun(data, index).1;
    while index + length < |data| && IsLetterOrDigit(data[index + length])
      invariant index + length <= |data|
      invariant WordRun(data, index).0 == length + WordRun(data, index + length).0
      invariant WordRun(data, index).1 == value + WordRun(data, index + length).1
      decreases |data| - (index + length)
    {
      var c := data[index + length] as char;
      assert WordRun(data, index + length).1 == [c] + WordRun(data, index + length + 1).1;
      assert value + ([c] + WordRun(data, index + length + 1).1)
          == (value + [c]) + WordRun(data, index + length + 1).1;
      value := value + [c];
      length := length + 1;
    }
    assert value + "" == value;
  }

  /** getNUM: the loop that grows a number byte by byte. */
  method GetNum(data: seq<byte>, index: nat) returns (length: nat, value: string)
    requires index <= |data|
    ensures (length, value) == DigitRun(data, index)
  {
    length, value := 0, "";
    assert value + DigitRun(data, index).1 == DigitRun(data, index).1;
    while index + length < |data| && IsDigit(data[index + length])
      invariant index + length <= |data|
      invariant DigitRun(data, index).0 == length + DigitRun(data, index + length).0
      invariant DigitRun(data, index).1 == value + DigitRun(data, index + length).1
      decreases |data| - (index + length)
    {
      var c := data[index + length] as char;
      assert DigitRun(data, index + length).1 == [c] + DigitRun(data, index + length + 1).1;
      assert value + ([c] + DigitRun(data, index + length + 1).1)
          == (value + [c]) + DigitRun(data, index + length + 1).1;
      value := value + [c];
      length := length + 1;
    }
    assert value + "" == value;
  }

  /** getOperator: one operator byte, or two when the first is ':', '<' or
      '>' and the next byte is any operator byte. A byte that is not an
      operator matches no case and gives (0, ""). */
  function GetOperator(data: seq<byte>, index: nat): (r: (nat, string))
    requires index < |data|
    ensures index + r.0 <= |data|
    ensures IsSymbol(data[index]) <==> 1 <= r.0
  {
    var c := data[index] as char;
    if IsPairLead(data[index]) then
      if index + 1 < |data| && IsSymbol(data[index + 1]) then (2, [c, data[index + 1] as char])
      else (1, [c])
    else if IsSymbol(data[index]) then (1, [c])
    else (0, "")
  }

  /** What getOperator consumes: two bytes exactly when a pair lead is
      followed by an operator byte, only operator bytes, and its text is the
      bytes it consumed. */
  lemma GetOperatorSpec(data: seq<byte>, index: nat)
    requires index < |data|
    ensures var (n, v) := GetOperator(data, index);
      && (n == 2 <==> IsPairLead(data[index]) && index + 1 < |data| && IsSymbol(data[index + 1]))
      && (n <= 2)
      && (forall j :: index <= j < index + n ==> IsSymbol(data[j]))
      && v == Chars(data[index..index + n])
  {
  }

  /** scanner: the unit that starts at index, with lexemes coded through
      the table codes. */
  function Scanner(codes: CodeTable, data: seq<byte>, index: nat): (u: Unit)
    ensures index >= |data| ==> u == Zero
    ensures index < |data| ==> 1 <= u.length && index + u.length <= |data|
    ensures index < |data| && IsSpace(data[index]) ==> u == Unit(1, SpaceCode, "")
  {
    if index >= |data| then Zero
    else if IsLetter(data[index]) then
      var (n, v) := WordRun(data, index);
      Unit(n, CheckID(codes, v), v)
    else if IsDigit(data[index]) then
      var (n, v) := DigitRun(data, index);
      Unit(n, NumCode, v)
    else if IsSymbol(data[index]) then
      var (n, v) := GetOperator(data, index);
      Unit(n, CheckOperator(codes, v), v)
    else if IsSpace(data[index]) then
      Unit(1, SpaceCode, "")
    else
      Unit(1, ErrCode, [data[index] as char])
  }

  // ---------------------------------------------------------------------
  // What the scanner does, category by category.
  // ---------------------------------------------------------------------

  /** Below the end, a unit that does not start with whitespace carries
      exactly the bytes it consumed as its text, and none of them is
      whitespace. */
  lemma ScannerText(codes: CodeTable, data: seq<byte>, index: nat)
    requires index < |data| && !IsSpace(data[index])
    ensures var u := Scanner(codes, data, index);
      && u.value == Chars(data[index..index + u.length])
      && forall j :: index <= j < index + u.length ==> !IsSpace(data[j])
  {
    WordRunMaximal(data, index);
    DigitRunMaximal(data, index);
    GetOperatorSpec(data, index);
  }

  /** At or past the end the scanner yields the zero unit, whose code is the
      code of "begin". */
  lemma ScanPastEnd(data: seq<byte>, index: nat)
    requires index >= |data|
    ensures Scanner(CodeMap, data, index).length == 0
    ensures Scanner(CodeMap, data, index).typenum == CodeMap["begin"]
    ensures Scanner(CodeMap, data, index).value == ""
  {
  }

  /** A letter starts the longest letter-or-digit run; its code is the table
      entry of the word if it has one and the identifier code otherwise. */
  lemma ScanWord(codes: CodeTable, data: seq<byte>, index: nat)
    requires index < |data| && IsLetter(data[index])
    ensures var u := Scanner(codes, data, index);
      && (forall j :: index <= j < index + u.length ==> IsLetterOrDigit(data[j]))
      && (index + u.length < |data| ==> !IsLetterOrDigit(data[index + u.length]))
      && u.value == Chars(data[index..index + u.length])
      && u.typenum == (if u.value in codes then codes[u.value] else IdCode)
  {
    WordRunMaximal(data, index);
  }

  /** A digit starts the longest digit run, with the number code. */
  lemma ScanNumber(codes: CodeTable, data: seq<byte>, index: nat)
    requires index < |data| && IsDigit(data[index])
    ensures var u := Scanner(codes, data, index);
      && (forall j :: index <= j < index + u.length ==> IsDigit(data[j]))
      && (index + u.length < |data| ==> !IsDigit(data[index + u.length]))
      && u.value == Chars(data[index..index + u.length])
      && u.typenum == NumCode
  {
    DigitRunMaximal(data, index);
  }

  /** Operators: a two-byte unit exactly when ':', '<' or '>' is followed by
      an operator byte, and a one-byte unit otherwise; the code is the
      table entry of the lexeme, or the error code when the table lacks it. */
  lemma ScanOperator(codes: CodeTable, data: seq<byte>, index: nat)
    requires index < |data| && IsSymbol(data[index])
    ensures var u := Scanner(codes, data, index);
      && u.length == (if IsPairLead(data[index]) && index + 1 < |data| && IsSymbol(data[index + 1]) then 2 else 1)
      && u.value == Chars(data[index..index + u.length])
      && u.typenum == (if u.value in codes then codes[u.value] else ErrCode)
  {
    GetOperatorSpec(data, index);
  }

  /** With the program's table, every one-byte operator has an entry of its
      own, so a one-byte operator unit is never an error unit. */
  lemma SingleOperatorsCoded(b: byte)
    requires IsSymbol(b)
    ensures [b as char] in CodeMap && CodeMap[[b as char]] != ErrCode
  {
  }

  /** Keywords take their table codes: "begin" is the begin keyword. */
  lemma ScanBegin()
    ensures Scanner(CodeMap, [98, 101, 103, 105, 110], 0) == Unit(5, BeginCode, "begin")
  {
    BeginRun([98, 101, 103, 105, 110]);
  }

  lemma BeginRun(d: seq<byte>)
    requires d == [98, 101, 103, 105, 110]
    ensures WordRun(d, 0).0 == 5 && WordRun(d, 0).1 == "begin"
    ensures CheckID(CodeMap, "begin") == BeginCode
  {
    assert WordRun(d, 4).1 == "n";
    assert WordRun(d, 3).1 == "in";
    assert WordRun(d, 2).1 == "gin";
    assert WordRun(d, 1).1 == "egin";
  }

  /** A word that is not a key is an identifier, digits included: "ab12+"
      starts with the identifier "ab12". */
  lemma ScanIdent()
    ensures Scanner(CodeMap, [97, 98, 49, 50, 43], 0) == Unit(4, IdCode, "ab12")
  {
    var d: seq<byte> := [97, 98, 49, 50, 43];
    IdentRun(d);
  }

  lemma IdentRun(d: seq<byte>)
    requires d == [97, 98, 49, 50, 43]
    ensures WordRun(d, 0).0 == 4 && WordRun(d, 0).1 == "ab12"
    ensures CheckID(CodeMap, "ab12") == IdCode
  {
    assert WordRun(d, 4).1 == "";
    assert WordRun(d, 3).1 == "2";
    assert WordRun(d, 2).1 == "12";
    assert WordRun(d, 1).1 == "b12";
  }

  /** A number stops at the first non-digit: "12ab" is the number 12
      followed by the identifier ab. */
  lemma ScanNum()
    ensures Scanner(CodeMap, [49, 50, 97, 98], 0) == Unit(2, NumCode, "12")
    ensures Scanner(CodeMap, [49, 50, 97, 98], 2) == Unit(2, IdCode, "ab")
  {
    NumThenWordHead([49, 50, 97, 98]);
    NumThenWordTail([49, 50, 97, 98]);
  }

  lemma NumThenWordHead(d: seq<byte>)
    requires d == [49, 50, 97, 98]
    ensures Scanner(CodeMap, d, 0) == Unit(2, NumCode, "12")
  {
    HeadNumRun(d);
  }

  lemma NumThenWordTail(d: seq<byte>)
    requires d == [49, 50, 97, 98]
    ensures Scanner(CodeMap, d, 2) == Unit(2, IdCode, "ab")
  {
    TailIdentRun(d);
  }

  lemma HeadNumRun(d: seq<byte>)
    requires d == [49, 50, 97, 98]
    ensures DigitRun(d, 0).0 == 2 && DigitRun(d, 0).1 == "12"
  {
    assert DigitRun(d, 2).1 == "";
    assert DigitRun(d, 1).1 == "2";
  }

  lemma TailIdentRun(d: seq<byte>)
    requires d == [49, 50, 97, 98]
    ensures WordRun(d, 2).0 == 2 && WordRun(d, 2).1 == "ab"
    ensures CheckID(CodeMap, "ab") == IdCode
  {
    assert WordRun(d, 4).1 == "";
    assert WordRun(d, 3).1 == "b";
  }

  /** The pseudo-keys are words like any other: "NUM" is coded as a
      number ... */
  lemma ScanNumKey()
    ensures Scanner(CodeMap, [78, 85, 77], 0) == Unit(3, NumCode, "NUM")
  {
    NumKeyRun([78, 85, 77]);
  }

  lemma NumKeyRun(d: seq<byte>)
    requires d == [78, 85, 77]
    ensures WordRun(d, 0).0 == 3 && WordRun(d, 0).1 == "NUM"
    ensures CheckID(CodeMap, "NUM") == NumCode
  {
    assert WordRun(d, 2).1 == "M";
    assert WordRun(d, 1).1 == "UM";
  }

  /** ... and "SPACE" as whitespace. */
  lemma ScanSpaceKey()
    ensures Scanner(CodeMap, [83, 80, 65, 67, 69], 0) == Unit(5, SpaceCode, "SPACE")
  {
    SpaceKeyRun([83, 80, 65, 67, 69]);
  }

  lemma SpaceKeyRun(d: seq<byte>)
    requires d == [83, 80, 65, 67, 69]
    ensures WordRun(d, 0).0 == 5 && WordRun(d, 0).1 == "SPACE"
    ensures CheckID(CodeMap, "SPACE") == SpaceCode
  {
    assert WordRun(d, 4).1 == "E";
    assert WordRun(d, 3).1 == "CE";
    assert WordRun(d, 2).1 == "ACE";
    assert WordRun(d, 1).1 == "PACE";
  }

  /** Why the strip round trips exclude the word SPACE: on the line
      "SPACE" the cursor skips the whole word, and scan emits only the
      zero unit, whose text is empty. */
  lemma SpaceWordDropped()
    ensures NextSignificant(CodeMap, [83, 80, 65, 67, 69], 0) == (Zero, 5)
    ensures ScanUnits(CodeMap, [83, 80, 65, 67, 69], 0) == [Zero]
    ensures Values([Zero]) == "" != Strip([83, 80, 65, 67, 69])
  {
    var d: seq<byte> := [83, 80, 65, 67, 69];
    ScanSpaceKey();
    assert Scanner(CodeMap, d, 5) == Zero;
    assert NextSignificant(CodeMap, d, 5) == (Zero, 5);
    assert ScanUnits(CodeMap, d, 5) == [];
    assert Strip(d)[0] == 'S';
  }

  /** The two-byte operators the table codes. */
  lemma ScanPairs()
    ensures Scanner(CodeMap, [':' as int, '=' as int], 0) == Unit(2, AssignCode, ":=")
    ensures Scanner(CodeMap, ['<' as int, '>' as int], 0) == Unit(2, 27, "<>")
    ensures Scanner(CodeMap, ['<' as int, '=' as int], 0) == Unit(2, 28, "<=")
    ensures Scanner(CodeMap, ['>' as int, '=' as int], 0) == Unit(2, 30, ">=")
  {
  }

  /** Pairs the table lacks are two-byte error units. */
  lemma ScanOtherPairs()
    ensures Scanner(CodeMap, [':' as int, '+' as int], 0) == Unit(2, ErrCode, ":+")
    ensures Scanner(CodeMap, ['<' as int, '(' as int], 0) == Unit(2, ErrCode, "<(")
    ensures Scanner(CodeMap, ['>' as int, '>' as int], 0) == Unit(2, ErrCode, ">>")
  {
  }

  /** A pair lead before a byte that is not an operator is a one-byte
      operator, and so is the end marker. */
  lemma ScanSingles()
    ensures Scanner(CodeMap, ['<' as int, 'a' as int], 0) == Unit(1, 26, "<")
    ensures Scanner(CodeMap, ['$' as int], 0) == Unit(1, EndMarkerCode, "$")
  {
  }

  /** A whitespace byte is a one-byte unit with the whitespace code and no
      text; any other byte no class claims is a one-byte error unit. */
  lemma ScanSpaceOrOther(codes: CodeTable, data: seq<byte>, index: nat)
    requires index < |data| && !IsLetterOrDigit(data[index]) && !IsSymbol(data[index])
    ensures IsSpace(data[index]) ==> Scanner(codes, data, index) == Unit(1, SpaceCode, "")
    ensures !IsSpace(data[index]) ==> Scanner(codes, data, index) == Unit(1, ErrCode, [data[index] as char])
  {
  }

  // ---------------------------------------------------------------------
  // The cursor that skips whitespace (the inner loop of scan and the
  // parser's nextUnitButNotSpace).
  // ---------------------------------------------------------------------

  /** The first unit at or after index whose code is not the whitespace
      code, with the offset just past it. */
  function NextSignificant(codes: CodeTable, data: seq<byte>, index: nat): (r: (Unit, nat))
    requires index <= |data|
    ensures index <= r.1 <= |data|
    ensures index < |data| ==> index < r.1
    ensures r.0.typenum != SpaceCode
    ensures r.0.length <= r.1 - index
    ensures r.0.length == 0 <==> r.0 == Zero
    ensures r.0 == Zero ==> r.1 == |data|
    decreases |data| - index
  {
    var u := Scanner(codes, data, index);
    if u.typenum == SpaceCode then NextSignificant(codes, data, index + u.length)
    else (u, index + u.length)
  }

  /** One turn of the cursor: scan one unit, and go on only past whitespace. */
  lemma NextSignificantStep(codes: CodeTable, data: seq<byte>, index: nat)
    requires index <= |data|
    ensures var u := Scanner(codes, data, index);
      NextSignificant(codes, data, index) ==
        if u.typenum == SpaceCode then NextSignificant(codes, data, index + u.length) else (u, index + u.length)
  {
  }

  /** On input made only of whitespace the cursor runs to the end and
      yields the zero unit. */
  lemma {:induction false} NextSignificantBlank(codes: CodeTable, data: seq<byte>, index: nat)
    requires index <= |data|
    requires forall j :: index <= j < |data| ==> IsSpace(data[j])
    ensures NextSignificant(codes, data, index) == (Zero, |data|)
    decreases |data| - index
  {
    if index < |data| {
      NextSignificantBlank(codes, data, index + 1);
    }
  }

  /** A significant unit never ends on a whitespace byte. */
  lemma {:induction false} NextSignificantLastByte(codes: CodeTable, data: seq<byte>, index: nat)
    requires index <= |data|
    ensures var (u, next) := NextSignificant(codes, data, index);
      u.length > 0 ==> !IsSpace(data[next - 1])
    decreases |data| - index
  {
    var u := Scanner(codes, data, index);
    if u.typenum == SpaceCode {
      NextSignificantLastByte(codes, data, index + u.length);
    } else if index < |data| {
      ScannerText(codes, data, index);
    }
  }

  // ---------------------------------------------------------------------
  // The scan loop.
  // ---------------------------------------------------------------------

  /** The units scan emits from index on: one significant unit per turn of
      its outer loop, which stops once the offset reaches the end. */
  function ScanUnits(codes: CodeTable, data: seq<byte>, index: nat): (us: seq<Unit>)
    requires index <= |data|
    ensures forall k :: 0 <= k < |us| ==> us[k].typenum != SpaceCode
    ensures index < |data| <==> us != []
    decreases |data| - index
  {
    if index >= |data| then []
    else
      var (u, next) := NextSignificant(codes, data, index);
      [u] + ScanUnits(codes, data, next)
  }

  /** The whitespace-skipping loop, written out twice in the source (the
      inner loop of scan and nextUnitButNotSpace): scan a unit, and scan
      again while its code is the whitespace code. */
  method NextUnit(codes: CodeTable, data: seq<byte>, index: nat) returns (unit: Unit, next: nat)
    requires index <= |data|
    ensures (unit, next) == NextSignificant(codes, data, index)
  {
    unit := Scanner(codes, data, index);
    next := index + unit.length;
    while unit.typenum == SpaceCode
      invariant index <= next <= |data|
      invariant unit.typenum == SpaceCode ==> NextSignificant(codes, data, next) == NextSignificant(codes, data, index)
      invariant unit.typenum != SpaceCode ==> NextSignificant(codes, data, index) == (unit, next)
      decreases |data| - next + (if unit.typenum == SpaceCode then 1 else 0)
    {
      NextSignificantStep(codes, data, next);
      unit := Scanner(codes, data, next);
      next := next + unit.length;
    }
  }

  /** scan, returning the units it prints instead of printing them. */
  method Scan(codes: CodeTable, data: seq<byte>) returns (units: seq<Unit>)
    ensures units == ScanUnits(codes, data, 0)
  {
    units := [];
    var index := 0;
    while index < |data|
      invariant index <= |data|
      invariant ScanUnits(codes, data, 0) == units + ScanUnits(codes, data, index)
      decreases |data| - index
    {
      var unit;
      ghost var start := index;
      unit, index := NextUnit(codes, data, index);
      assert ScanUnits(codes, data, start) == [unit] + ScanUnits(codes, data, index);
      units := units + [unit];
    }
  }

  /** Input made only of whitespace, at least one byte of it, makes scan
      emit exactly one unit, the zero unit. */
  lemma ScanBlank(codes: CodeTable, data: seq<byte>)
    requires data != [] && forall j :: 0 <= j < |data| ==> IsSpace(data[j])
    ensures ScanUnits(codes, data, 0) == [Zero]
  {
    NextSignificantBlank(codes, data, 0);
  }

  /** Input whose last byte is whitespace makes scan's last unit the zero unit. */
  lemma {:induction false} ScanTrailingZero(codes: CodeTable, data: seq<byte>, index: nat)
    requires index < |data| && IsSpace(data[|data| - 1])
    ensures var us := ScanUnits(codes, data, index); us != [] && us[|us| - 1] == Zero
    decreases |data| - index
  {
    var (u, next) := NextSignificant(codes, data, index);
    NextSignificantLastByte(codes, data, index);
    if next < |data| {
      ScanTrailingZero(codes, data, next);
    }
  }

  // ---------------------------------------------------------------------
  // The text round trip: the emitted values put back together are the
  // input without its whitespace.
  // ---------------------------------------------------------------------

  /** A byte's contribution to the stripped text. */
  function Kept(b: byte): (r: string) {
    if IsSpace(b) then "" else [b as char]
  }

  /** The input's bytes, whitespace removed, as characters. */
  function Strip(bs: seq<byte>): (r: string) {
    if bs == [] then "" else Kept(bs[0]) + Strip(bs[1..])
  }

  /** The concatenated texts of a sequence of units. */
  function Values(us: seq<Unit>): (r: string) {
    if us == [] then "" else us[0].value + Values(us[1..])
  }

  /** No unit of the input, scanned back to back from index, is the word
      SPACE. */
  predicate NoSpaceWord(codes: CodeTable, data: seq<byte>, index: nat)
    requires index <= |data|
    decreases |data| - index
  {
    index < |data| ==>
      var u := Scanner(codes, data, index);
      u.value != "SPACE" && NoSpaceWord(codes, data, index + u.length)
  }

  /** The table gives the whitespace code to the key SPACE and to no other. */
  predicate SpaceKeyOnly(codes: CodeTable) {
    forall s :: s in codes && codes[s] == SpaceCode ==> s == "SPACE"
  }

  /** In the source's table only the pseudo-key SPACE has the whitespace code. */
  lemma CodeMapSpaceKeyOnly()
    ensures SpaceKeyOnly(CodeMap)
  {
  }

  lemma {:induction false} StripAppend(a: seq<byte>, b: seq<byte>)
    ensures Strip(a + b) == Strip(a) + Strip(b)
  {
    if a != [] {
      StripAppend(a[1..], b);
      assert (a + b)[1..] == a[1..] + b;
      calc {
        Strip(a + b);
        Kept(a[0]) + Strip(a[1..] + b);
        Kept(a[0]) + (Strip(a[1..]) + Strip(b));
        (Kept(a[0]) + Strip(a[1..])) + Strip(b);
      }
    } else {
      assert a + b == b;
    }
  }

  lemma {:induction false} StripNoSpace(bs: seq<byte>)
    requires forall j :: 0 <= j < |bs| ==> !IsSpace(bs[j])
    ensures Strip(bs) == Chars(bs)
  {
    if bs != [] {
      StripNoSpace(bs[1..]);
      assert Chars(bs) == [bs[0] as char] + Chars(bs[1..]);
    }
  }

  /** One scanner step: the unit's text is exactly the stripped bytes it
      consumed, and a unit with the whitespace code has no text, unless it
      is the word SPACE. */
  lemma ScannerStrip(codes: CodeTable, data: seq<byte>, index: nat)
    requires index < |data| && SpaceKeyOnly(codes)
    requires Scanner(codes, data, index).value != "SPACE"
    ensures var u := Scanner(codes, data, index);
      && Strip(data[index..index + u.length]) == u.value
      && (u.typenum == SpaceCode ==> u.value == "")
  {
    var u := Scanner(codes, data, index);
    if IsSpace(data[index]) {
      assert data[index..index + 1] == [data[index]];
    } else {
      ScannerText(codes, data, index);
      StripNoSpace(data[index..index + u.length]);
    }
  }

  /** With such a table, a unit coded as whitespace either starts on a
      whitespace byte or is the word SPACE. */
  lemma ScannerSpaceCode(codes: CodeTable, data: seq<byte>, index: nat)
    requires index < |data| && SpaceKeyOnly(codes)
    requires Scanner(codes, data, index).typenum == SpaceCode
    ensures IsSpace(data[index]) || Scanner(codes, data, index).value == "SPACE"
  {
  }

  /** The cursor: the text of the unit it yields is the stripped bytes it
      passed over, whitespace units included, provided no unit from index
      on is the word SPACE (see SpaceWordDropped). */
  lemma {:induction false} NextSignificantStrip(codes: CodeTable, data: seq<byte>, index: nat)
    requires index <= |data| && SpaceKeyOnly(codes) && NoSpaceWord(codes, data, index)
    ensures var (u, next) := NextSignificant(codes, data, index);
      Strip(data[index..next]) == u.value && NoSpaceWord(codes, data, next)
    decreases |data| - index
  {
    if index < |data| {
      var u := Scanner(codes, data, index);
      var mid := index + u.length;
      NoSpaceWordStep(codes, data, index);
      ScannerStrip(codes, data, index);
      NextSignificantStep(codes, data, index);
      if u.typenum == SpaceCode {
        NextSignificantStrip(codes, data, mid);
        StripSplit(data, index, mid, NextSignificant(codes, data, mid).1);
      }
    }
  }

  /** One unit of the NoSpaceWord condition. */
  lemma NoSpaceWordStep(codes: CodeTable, data: seq<byte>, index: nat)
    requires index < |data| && NoSpaceWord(codes, data, index)
    ensures var u := Scanner(codes, data, index);
      u.value != "SPACE" && NoSpaceWord(codes, data, index + u.length)
  {
  }

  /** Stripping a slice is stripping its two halves. */
  lemma StripSplit(bs: seq<byte>, i: nat, j: nat, k: nat)
    requires i <= j <= k <= |bs|
    ensures Strip(bs[i..k]) == Strip(bs[i..j]) + Strip(bs[j..k])
  {
    assert bs[i..k] == bs[i..j] + bs[j..k];
    StripAppend(bs[i..j], bs[j..k]);
  }

  /** The values scan emits from index on, put together, are the rest of
      the input with its whitespace removed, provided no unit from index
      on is the word SPACE. */
  lemma {:induction false} ScanUnitsStrip(codes: CodeTable, data: seq<byte>, index: nat)
    requires index <= |data| && SpaceKeyOnly(codes) && NoSpaceWord(codes, data, index)
    ensures Values(ScanUnits(codes, data, index)) == Strip(data[index..])
    decreases |data| - index
  {
    if index < |data| {
      var (u, next) := NextSignificant(codes, data, index);
      NextSignificantStrip(codes, data, index);
      ScanUnitsStrip(codes, data, next);
      assert data[index..] == data[index..next] + data[next..];
      StripAppend(data[index..next], data[next..]);
    }
  }

  /** Round trip of scan: provided no word is SPACE, the concatenated texts
      of the emitted units are the input with its whitespace removed. */
  lemma ScanValuesStrip(data: seq<byte>)
    requires NoSpaceWord(CodeMap, data, 0)
    ensures Values(ScanUnits(CodeMap, data, 0)) == Strip(data)
  {
    CodeMapSpaceKeyOnly();
    ScanUnitsStrip(CodeMap, data, 0);
    assert data[0..] == data;
  }

  // ---------------------------------------------------------------------
  // What the scanner looks at: bytes appended to the input change no unit
  // that ends before the last byte, and no end marker.
  // ---------------------------------------------------------------------

  lemma {:induction false} WordRunExtend(data: seq<byte>, rest: seq<byte>, i: nat)
    requires i <= |data| && i + WordRun(data, i).0 < |data|
    ensures WordRun(data + rest, i) == WordRun(data, i)
    decreases |data| - i
  {
    assert (data + rest)[i] == data[i];
    if IsLetterOrDigit(data[i]) {
      WordRunExtend(data, rest, i + 1);
    }
  }

  lemma {:induction false} DigitRunExtend(data: seq<byte>, rest: seq<byte>, i: nat)
    requires i <= |data| && i + DigitRun(data, i).0 < |data|
    ensures DigitRun(data + rest, i) == DigitRun(data, i)
    decreases |data| - i
  {
    assert (data + rest)[i] == data[i];
    if IsDigit(data[i]) {
      DigitRunExtend(data, rest, i + 1);
    }
  }

  /** Only the key "$" has the end-marker code. */
  predicate MarkerIsDollar(codes: CodeTable) {
    forall s :: s in codes && codes[s] == EndMarkerCode ==> s == "$"
  }

  lemma EndMarkerKey()
    ensures MarkerIsDollar(CodeMap)
  {
  }

  lemma ScannerEndMarker(codes: CodeTable, data: seq<byte>, index: nat)
    requires MarkerIsDollar(codes)
    requires Scanner(codes, data, index).typenum == EndMarkerCode
    ensures index < |data| && data[index] == '$' as int
    ensures Scanner(codes, data, index).length == 1
  {
    var u := Scanner(codes, data, index);
    if IsLetter(data[index]) || IsSymbol(data[index]) {
      ScannerText(codes, data, index);
      assert u.value[0] == data[index] as char;
    }
  }

  /** A unit that ends before the last byte, or that starts with '$', is
      the same whatever bytes follow the input. */
  lemma ScannerExtend(codes: CodeTable, data: seq<byte>, rest: seq<byte>, index: nat)
    requires index < |data|
    requires index + Scanner(codes, data, index).length < |data| || data[index] == '$' as int
    ensures Scanner(codes, data + rest, index) == Scanner(codes, data, index)
  {
    assert (data + rest)[index] == data[index];
    var b := data[index];
    if IsLetter(b) {
      WordRunExtend(data, rest, index);
    } else if IsDigit(b) {
      DigitRunExtend(data, rest, index);
    } else if IsPairLead(b) && index + 1 < |data| {
      assert (data + rest)[index + 1] == data[index + 1];
    }
  }

  /** The cursor, likewise: a significant unit that ends before the last
      byte, or is the end marker, is found whatever bytes follow. */
  lemma {:induction false} NextSignificantExtend(codes: CodeTable, data: seq<byte>, rest: seq<byte>, index: nat)
    requires MarkerIsDollar(codes)
    requires index < |data|
    requires var (u, next) := NextSignificant(codes, data, index);
      next < |data| || u.typenum == EndMarkerCode
    ensures NextSignificant(codes, data + rest, index) == NextSignificant(codes, data, index)
    decreases |data| - index
  {
    var u := Scanner(codes, data, index);
    var mid := index + u.length;
    NextSignificantStep(codes, data, index);
    NextSignificantStep(codes, data + rest, index);
    if mid < |data| {
      ScannerExtend(codes, data, rest, index);
      if u.typenum == SpaceCode {
        NextSignificantExtend(codes, data, rest, mid);
      }
    } else if u.typenum != SpaceCode {
      ScannerEndMarker(codes, data, index);
      ScannerExtend(codes, data, rest, index);
    }
  }

  // ---------------------------------------------------------------------
  // Unit.String and a reader for what it writes.
  // ---------------------------------------------------------------------

  function DigitChar(d: nat): (r: char)
    requires d < 10
  {
    ('0' as int + d) as char
  }

  /** Decimal text of a natural number, as strconv.Itoa writes it. */
  function NatText(n: nat): (s: string)
    ensures |s| >= 1
    ensures forall i :: 0 <= i < |s| ==> '0' <= s[i] <= '9'
  {
    if n < 10 then [DigitChar(n)] else NatText(n / 10) + [DigitChar(n % 10)]
  }

  /** strconv.Itoa. */
  function IntText(n: int): (s: string) {
    if n < 0 then "-" + NatText(-n) else NatText(n)
  }

  /** How Unit.String shows the text: quoted for the identifier code. */
  function Shown(u: Unit): (r: string) {
    if u.typenum == IdCode then "'" + u.value + "'" else u.value
  }

  /** Unit.String: "(code, text)". */
  function UnitString(u: Unit): (r: string) {
    "(" + IntText(u.typenum) + ", " + Shown(u) + ")"
  }

  function NatValue(s: string): (r: nat)
    requires forall i :: 0 <= i < |s| ==> '0' <= s[i] <= '9'
  {
    if s == [] then 0 else NatValue(s[..|s| - 1]) * 10 + (s[|s| - 1] as int - '0' as int)
  }

  /** Whether s is an optional minus sign followed by decimal digits. */
  predicate IsIntText(s: string) {
    |s| > 0 && forall i :: (if s[0] == '-' then 1 else 0) <= i < |s| ==> '0' <= s[i] <= '9'
  }

  function IntValue(s: string): (r: int)
    requires IsIntText(s)
  {
    if s[0] == '-' then 0 - NatValue(s[1..]) else NatValue(s)
  }

  /** Position of the first c in s, or |s|. */
  function IndexOf(s: string, c: char): (i: nat)
    ensures i <= |s|
    ensures i < |s| ==> s[i] == c
    ensures forall j :: 0 <= j < i ==> s[j] != c
  {
    if s == [] then 0 else if s[0] == c then 0 else 1 + IndexOf(s[1..], c)
  }

  datatype Option<T> = None | Some(value: T)

  /** Reads back the code and the text from what UnitString wrote. */
  function ReadUnitString(s: string): (r: Option<(int, string)>) {
    var comma := IndexOf(s, ',');
    if 1 < comma && comma + 2 < |s| && s[0] == '(' && s[|s| - 1] == ')' && s[comma + 1] == ' '
       && IsIntText(s[1..comma])
    then
      var code := IntValue(s[1..comma]);
      var body := s[comma + 2..|s| - 1];
      if code != IdCode then Some((code, body))
      else if |body| >= 2 && body[0] == '\'' && body[|body| - 1] == '\'' then Some((code, body[1..|body| - 1]))
      else None
    else None
  }

  lemma {:induction false} NatTextRoundTrip(n: nat)
    ensures NatValue(NatText(n)) == n
  {
    if n >= 10 {
      NatTextRoundTrip(n / 10);
      var s := NatText(n);
      assert s[..|s| - 1] == NatText(n / 10);
    }
  }

  /** Itoa's text reads back as the number, and holds no comma. */
  lemma IntTextRoundTrip(n: int)
    ensures IsIntText(IntText(n)) && IntValue(IntText(n)) == n
    ensures forall i :: 0 <= i < |IntText(n)| ==> IntText(n)[i] != ','
  {
    if n < 0 {
      NatTextRoundTrip(-n);
      assert IntText(n)[1..] == NatText(-n);
    } else {
      NatTextRoundTrip(n);
    }
  }

  /** The pieces of "(" + num + ", " + body + ")" when num has no comma. */
  lemma FramedParts(num: string, body: string)
    requires forall i :: 0 <= i < |num| ==> num[i] != ','
    ensures var s := "(" + num + ", " + body + ")";
      && IndexOf(s, ',') == 1 + |num|
      && s[0] == '(' && s[|s| - 1] == ')' && s[|num| + 2] == ' '
      && s[1..1 + |num|] == num
      && s[|num| + 3..|s| - 1] == body
  {
    var s := "(" + num + ", " + body + ")";
    assert s[1 + |num|] == ',';
    forall j | 0 <= j < 1 + |num|
      ensures s[j] != ','
    {
      if j > 0 { assert s[j] == num[j - 1]; }
    }
  }

  /** Unit.String loses only the length: its code and text read back. */
  lemma UnitStringRoundTrip(u: Unit)
    ensures ReadUnitString(UnitString(u)) == Some((u.typenum, u.value))
  {
    var num := IntText(u.typenum);
    IntTextRoundTrip(u.typenum);
    FramedParts(num, Shown(u));
    var body := Shown(u);
    if u.typenum == IdCode {
      assert body[1..|body| - 1] == u.value;
    }
  }
}
