/// The recursive-descent recogniser RDP: the state it keeps, what each of
/// its methods does to that state (as functions), and the class whose
/// methods update the state in place and are proved to do exactly that.
module Parser {
  import opened Lexer

  // ---------------------------------------------------------------------
  // The parser state and what every rule keeps.
  // ---------------------------------------------------------------------

  /** The fields of RDP other than data: the offset just past the current
      unit, the current unit, the validity flag and the last error message. */
  datatype State = State(index: nat, unit: Unit, isValid: bool, tag: string)

  /** RDP{data: data}: Go's zero values for every other field. */
  const Initial := State(0, Zero, false, "")

  const NoBegin := "no begin"
  const NoEnd := "no end"
  const NoEndMarker := "no $"
  const StatementError := "statement error"
  const AssignmentError := "assignment error"
  const NoRParen := "no )"
  const ExpressionError := "expression error"

  /** The messages the grammar rules below parse write. */
  predicate IsRuleTag(t: string) {
    t == StatementError || t == AssignmentError || t == NoRParen || t == ExpressionError
  }

  /** Every message the parser writes. */
  predicate IsTag(t: string) {
    IsRuleTag(t) || t == NoBegin || t == NoEnd || t == NoEndMarker
  }

  /** The offset stays within the input, and a unit that consumed nothing is
      the zero unit. */
  predicate Inv(data: seq<byte>, s: State) {
    s.index <= |data| && (s.unit.length == 0 ==> s.unit == Zero)
  }

  /** The bytes from the start of the current unit to the end of the input:
      the termination measure of the mutually recursive rules. */
  function Measure(data: seq<byte>, s: State): (r: int) {
    |data| - s.index + s.unit.length
  }

  /** What every rule guarantees about the state r it leaves, starting
      from s: the invariant holds, the offset and the start of the current
      unit never move back, the flag only ever goes from true to false, the
      message changes only together with a failure, to one of the rule
      messages, and a rule that fails leaves such a message behind. */
  predicate Follows(data: seq<byte>, s: State, r: State) {
    && Inv(data, r)
    && s.index <= r.index
    && Measure(data, r) <= Measure(data, s)
    && (r.isValid ==> s.isValid && r.tag == s.tag)
    && (r.tag == s.tag || (!r.isValid && IsRuleTag(r.tag)))
    && (s.isValid && !r.isValid ==> IsRuleTag(r.tag))
  }

  /** A rule failing: the flag drops and the message is written; the
      offset and the current unit stay as they are. */
  function Fail(s: State, tag: string): (r: State) {
    s.(isValid := false, tag := tag)
  }

  // ---------------------------------------------------------------------
  // The methods of RDP, as functions of the state.
  // ---------------------------------------------------------------------

  /** nextUnitButNotSpace: the next unit that is not whitespace. */
  function AfterNext(codes: CodeTable, data: seq<byte>, s: State): (r: State)
    requires s.index <= |data|
    ensures Inv(data, r)
    ensures r.unit.typenum != SpaceCode
    ensures s.index <= r.index && (s.index < |data| ==> s.index < r.index)
    ensures Measure(data, r) <= Measure(data, s) - s.unit.length
    ensures r.isValid == s.isValid && r.tag == s.tag
  {
    var (u, next) := NextSignificant(codes, data, s.index);
    s.(index := next, unit := u)
  }

  /** factor: an identifier or a number is consumed; "(" starts an
      expression that must be closed by ")"; anything else fails. */
  function AfterFactor(codes: CodeTable, data: seq<byte>, s: State): (r: State)
    requires Inv(data, s)
    ensures Follows(data, s, r)
    decreases Measure(data, s), 1
  {
    var c := s.unit.typenum;
    if c == IdCode || c == NumCode then AfterNext(codes, data, s)
    else if c == LParenCode then
      var e := AfterExpression(codes, data, AfterNext(codes, data, s));
      if e.unit.typenum != RParenCode then Fail(e, NoRParen)
      else AfterNext(codes, data, e)
    else Fail(s, ExpressionError)
  }

  /** The loop of term: while units remain and the current one is "*" or
      "/", step past it and parse another factor. */
  function AfterTermLoop(codes: CodeTable, data: seq<byte>, s: State): (r: State)
    requires Inv(data, s)
    ensures Follows(data, s, r)
    ensures r.index < |data| ==> r.unit.typenum != TimesCode && r.unit.typenum != DivideCode
    decreases Measure(data, s), 2
  {
    if s.index < |data| && (s.unit.typenum == TimesCode || s.unit.typenum == DivideCode) then
      AfterTermLoop(codes, data, AfterFactor(codes, data, AfterNext(codes, data, s)))
    else s
  }

  /** term: a factor, then the loop over "*" and "/". */
  function AfterTerm(codes: CodeTable, data: seq<byte>, s: State): (r: State)
    requires Inv(data, s)
    ensures Follows(data, s, r)
    decreases Measure(data, s), 3
  {
    AfterTermLoop(codes, data, AfterFactor(codes, data, s))
  }

  /** The loop of expression: while units remain and the current one is
      "+" or "-", step past it and parse another term. */
  function AfterExprLoop(codes: CodeTable, data: seq<byte>, s: State): (r: State)
    requires Inv(data, s)
    ensures Follows(data, s, r)
    ensures r.index < |data| ==> r.unit.typenum != PlusCode && r.unit.typenum != MinusCode
    decreases Measure(data, s), 4
  {
    if s.index < |data| && (s.unit.typenum == PlusCode || s.unit.typenum == MinusCode) then
      AfterExprLoop(codes, data, AfterTerm(codes, data, AfterNext(codes, data, s)))
    else s
  }

  /** expression: a term, then the loop over "+" and "-". */
  function AfterExpression(codes: CodeTable, data: seq<byte>, s: State): (r: State)
    requires Inv(data, s)
    ensures Follows(data, s, r)
    decreases Measure(data, s), 5
  {
    AfterExprLoop(codes, data, AfterTerm(codes, data, s))
  }

  /** statement: an identifier, then ":=", then an expression. */
  function AfterStatement(codes: CodeTable, data: seq<byte>, s: State): (r: State)
    requires Inv(data, s)
    ensures Follows(data, s, r)
  {
    if s.unit.typenum != IdCode then Fail(s, StatementError)
    else
      var a := AfterNext(codes, data, s);
      if a.unit.typenum != AssignCode then Fail(a, AssignmentError)
      else AfterExpression(codes, data, AfterNext(codes, data, a))
  }

  /** The loop of multiStatements: while the current unit is ";", step past
      it and parse another statement. */
  function AfterMultiLoop(codes: CodeTable, data: seq<byte>, s: State): (r: State)
    requires Inv(data, s)
    ensures Follows(data, s, r)
    ensures r.unit.typenum != SemicolonCode
    decreases Measure(data, s)
  {
    if s.unit.typenum == SemicolonCode then
      AfterMultiLoop(codes, data, AfterStatement(codes, data, AfterNext(codes, data, s)))
    else s
  }

  /** multiStatements: a statement, then the loop over ";". */
  function AfterMulti(codes: CodeTable, data: seq<byte>, s: State): (r: State)
    requires Inv(data, s)
    ensures Follows(data, s, r)
    ensures r.unit.typenum != SemicolonCode
  {
    AfterMultiLoop(codes, data, AfterStatement(codes, data, s))
  }

  /** parse: set the flag, then demand "begin", the statements, "end" and
      "$", giving up at the first of these checks that fails. */
  function AfterParse(codes: CodeTable, data: seq<byte>, s: State): (r: State)
    requires Inv(data, s)
    ensures Inv(data, r)
    ensures r.isValid ==> r.tag == s.tag
    ensures !r.isValid ==> IsTag(r.tag)
  {
    var b := AfterNext(codes, data, s.(isValid := true));
    if b.unit.typenum != BeginCode then Fail(b, NoBegin)
    else AfterBegin(codes, data, AfterNext(codes, data, b))
  }

  /** The rest of parse once "begin" is consumed: the statements, then "end"
      and "$". */
  function AfterBegin(codes: CodeTable, data: seq<byte>, s: State): (r: State)
    requires Inv(data, s)
    ensures Inv(data, r)
    ensures r.isValid ==> s.isValid && r.tag == s.tag
    ensures r.tag == s.tag || (!r.isValid && IsTag(r.tag))
    ensures s.isValid && !r.isValid ==> IsTag(r.tag)
  {
    var m := AfterMulti(codes, data, s);
    if m.unit.typenum != EndCode then Fail(m, NoEnd)
    else
      var e := AfterNext(codes, data, m);
      if e.unit.typenum != EndMarkerCode then Fail(e, NoEndMarker)
      else e
  }

  /** What the program does with one line: RDP{data: data}.parse(). */
  function ParseLine(data: seq<byte>): (r: State) {
    AfterParse(CodeMap, data, Initial)
  }

  // ---------------------------------------------------------------------
  // Properties of parse.
  // ---------------------------------------------------------------------

  /** A first significant unit other than "begin" fails parse at once: the
      state is the one right after that unit, the flag is down and the
      message is "no begin". */
  lemma ParseNoBegin(codes: CodeTable, data: seq<byte>)
    ensures var (u, next) := NextSignificant(codes, data, 0);
      u.typenum != BeginCode ==> AfterParse(codes, data, Initial) == State(next, u, false, NoBegin)
  {
  }

  /** Empty or whitespace-only input: past the end the scanner returns the
      zero unit, whose code is the code of "begin", so the begin check
      passes; the statement check then fails on the zero unit, nothing
      else fails, and parse ends on "no end" at the end of the input. */
  lemma ParseBlank(codes: CodeTable, data: seq<byte>)
    requires forall j :: 0 <= j < |data| ==> IsSpace(data[j])
    ensures AfterParse(codes, data, Initial) == State(|data|, Zero, false, NoEnd)
  {
    NextSignificantBlank(codes, data, 0);
    var b := AfterNext(codes, data, Initial.(isValid := true));
    assert b == State(|data|, Zero, true, "");
    var c := AfterNext(codes, data, b);
    assert c == b;
    assert AfterStatement(codes, data, c) == Fail(c, StatementError);
  }

  // ---------------------------------------------------------------------
  // The recogniser as a class whose methods update its fields.
  // ---------------------------------------------------------------------

  class RDP {
    /** The code table the scanner consults (the source's codeMap). */
    const codes: CodeTable
    const data: seq<byte>
    var index: nat
    var unit: Unit
    var isValid: bool
    var tag: string

    function Snapshot(): (r: State)
      reads this
    {
      State(index, unit, isValid, tag)
    }

    predicate Valid()
      reads this
    {
      Inv(data, Snapshot())
    }

    /** RDP{data: data}. */
    constructor (data: seq<byte>)
      ensures this.data == data && codes == CodeMap
      ensures Snapshot() == Initial && Valid()
    {
      this.codes := CodeMap;
      this.data := data;
      index := 0;
      unit := Zero;
      isValid := false;
      tag := "";
    }

    /** nextUnitButNotSpace: the whitespace-skipping loop is the one scan
        runs, Lexer.NextUnit, here moving the fields. */
    method NextUnitButNotSpace()
      modifies this
      requires index <= |data|
      ensures Snapshot() == AfterNext(codes, data, old(Snapshot()))
    {
      unit, index := NextUnit(codes, data, index);
    }

    method Parse()
      modifies this
      requires Valid()
      ensures Snapshot() == AfterParse(codes, data, old(Snapshot()))
    {
      isValid := true;
      NextUnitButNotSpace();
      if unit.typenum != BeginCode {
        tag := NoBegin;
        isValid := false;
        return;
      }
      NextUnitButNotSpace();
      MultiStatements();
      if unit.typenum != EndCode {
        tag := NoEnd;
        isValid := false;
        return;
      }
      NextUnitButNotSpace();
      if unit.typenum != EndMarkerCode {
        tag := NoEndMarker;
        isValid := false;
        return;
      }
    }

    method MultiStatements()
      modifies this
      requires Valid()
      ensures Valid()
      ensures Snapshot() == AfterMulti(codes, data, old(Snapshot()))
    {
      Statement();
      while unit.typenum == SemicolonCode
        invariant Valid()
        invariant AfterMulti(codes, data, old(Snapshot())) == AfterMultiLoop(codes, data, Snapshot())
        decreases Measure(data, Snapshot())
      {
        NextUnitButNotSpace();
        Statement();
      }
    }

    method Statement()
      modifies this
      requires Valid()
      ensures Valid()
      ensures Snapshot() == AfterStatement(codes, data, old(Snapshot()))
    {
      if unit.typenum != IdCode {
        tag := StatementError;
        isValid := false;
        return;
      }
      NextUnitButNotSpace();
      if unit.typenum != AssignCode {
        tag := AssignmentError;
        isValid := false;
        return;
      }
      NextUnitButNotSpace();
      Expression();
    }

    method Expression()
      modifies this
      requires Valid()
      ensures Valid()
      ensures Snapshot() == AfterExpression(codes, data, old(Snapshot()))
      decreases Measure(data, Snapshot()), 5
    {
      Term();
      while index < |data| && (unit.typenum == PlusCode || unit.typenum == MinusCode)
        invariant Valid()
        invariant Measure(data, Snapshot()) <= old(Measure(data, Snapshot()))
        invariant AfterExpression(codes, data, old(Snapshot())) == AfterExprLoop(codes, data, Snapshot())
        decreases Measure(data, Snapshot())
      {
        NextUnitButNotSpace();
        Term();
      }
    }

    method Term()
      modifies this
      requires Valid()
      ensures Valid()
      ensures Snapshot() == AfterTerm(codes, data, old(Snapshot()))
      decreases Measure(data, Snapshot()), 3
    {
      Factor();
      while index < |data| && (unit.typenum == TimesCode || unit.typenum == DivideCode)
        invariant Valid()
        invariant Measure(data, Snapshot()) <= old(Measure(data, Snapshot()))
        invariant AfterTerm(codes, data, old(Snapshot())) == AfterTermLoop(codes, data, Snapshot())
        decreases Measure(data, Snapshot())
      {
        NextUnitButNotSpace();
        Factor();
      }
    }

    method Factor()
      modifies this
      requires Valid()
      ensures Valid()
      ensures Snapshot() == AfterFactor(codes, data, old(Snapshot()))
      decreases Measure(data, Snapshot()), 1
    {
      var c := unit.typenum;
      if c == IdCode || c == NumCode {
        NextUnitButNotSpace();
      } else if c == LParenCode {
        NextUnitButNotSpace();
        Expression();
        if unit.typenum != RParenCode {
          tag := NoRParen;
          isValid := false;
          return;
        }
        NextUnitButNotSpace();
      } else {
        tag := ExpressionError;
        isValid := false;
      }
    }
  }
}
