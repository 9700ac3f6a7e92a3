/// What the recogniser accepts: parse ends with the flag set exactly when
/// the codes of the significant units scan emits start with the yield of a
/// program of the grammar. The proof runs the byte-level rules of RDP side
/// by side with the reference recogniser over codes.
module Acceptance {
  import opened Lexer
  import opened Parser
  import opened Grammar

  /** The codes of the units scan emits from index on. The grammar works on
      codes alone, so the stream is kept as its own recursion, in step with
      the cursor; ScanCodesOfUnits ties it to ScanUnits. */
  function ScanCodes(codes: CodeTable, data: seq<byte>, index: nat): (cs: seq<int>)
    requires index <= |data|
    ensures index < |data| <==> cs != []
    decreases |data| - index
  {
    if index >= |data| then []
    else
      var (u, next) := NextSignificant(codes, data, index);
      [u.typenum] + ScanCodes(codes, data, next)
  }

  /** The code stream is the codes of the units scan emits, in order. */
  lemma {:induction false} ScanCodesOfUnits(codes: CodeTable, data: seq<byte>, index: nat)
    requires index <= |data|
    ensures var us := ScanUnits(codes, data, index);
      |ScanCodes(codes, data, index)| == |us| &&
      forall i :: 0 <= i < |us| ==> ScanCodes(codes, data, index)[i] == us[i].typenum
    decreases |data| - index
  {
    if index < |data| {
      var (u, next) := NextSignificant(codes, data, index);
      ScanCodesOfUnits(codes, data, next);
    }
  }

  /** One significant unit of the code stream. */
  lemma ScanCodesStep(codes: CodeTable, data: seq<byte>, index: nat)
    requires index < |data|
    ensures var (u, next) := NextSignificant(codes, data, index);
      ScanCodes(codes, data, index) == [u.typenum] + ScanCodes(codes, data, next)
  {
  }

  /** ScanCodes reached through a few extra calls. The rule-by-rule proofs
      below only pass positions along; stating their invariant with this
      form keeps the solver from unfolding the scanner in each of them. */
  function Ahead(codes: CodeTable, data: seq<byte>, index: nat, hops: nat): (r: seq<int>)
    requires index <= |data|
    decreases hops
  {
    if hops == 0 then ScanCodes(codes, data, index) else Ahead(codes, data, index, hops - 1)
  }

  /** The extra calls change nothing: Ahead is the code stream itself. */
  lemma {:induction false} AheadIsScanCodes(codes: CodeTable, data: seq<byte>, index: nat, hops: nat)
    requires index <= |data|
    ensures Ahead(codes, data, index, hops) == ScanCodes(codes, data, index)
    decreases hops
  {
    if hops > 0 {
      AheadIsScanCodes(codes, data, index, hops - 1);
    }
  }

  /** The parser state s sits at position k of the code stream ts: its
      current unit has the code at k, and the units still to be scanned
      have the codes after k. Past the last code the parser is at the end
      of the input. */
  predicate Synced(codes: CodeTable, data: seq<byte>, s: State, ts: seq<int>, k: nat) {
    && Inv(data, s)
    && k <= |ts|
    && s.unit.typenum == Code(ts, k)
    && (k < |ts| ==> Ahead(codes, data, s.index, 3) == ts[k + 1..])
    && (k == |ts| ==> s.index == |data|)
  }

  /** The state an expression or a term loop leaves when an operator is the
      last unit of the input: the loop stops because no bytes remain,
      without failing. Every caller then fails on that operator. */
  predicate Stuck(data: seq<byte>, s: State) {
    s.isValid && s.index == |data| && !EndsExpr(s.unit.typenum)
  }

  /** A rule's result r agrees with the recogniser's answer o: a
      derivation means r is still valid and sits right after it; no
      derivation means r failed or is stuck. */
  predicate Agrees<T>(codes: CodeTable, data: seq<byte>, ts: seq<int>, o: Option<(T, nat)>, r: State) {
    if o.Some? then r.isValid && o.value.1 <= |ts| && Synced(codes, data, r, ts, o.value.1)
    else !r.isValid || Stuck(data, r)
  }

  /** The cursor moves the parser from position k to position k + 1. */
  lemma NextSynced(codes: CodeTable, data: seq<byte>, s: State, ts: seq<int>, k: nat)
    requires Synced(codes, data, s, ts, k) && k < |ts|
    ensures Synced(codes, data, AfterNext(codes, data, s), ts, k + 1)
  {
    var r := AfterNext(codes, data, s);
    AheadIsScanCodes(codes, data, s.index, 3);
    AheadIsScanCodes(codes, data, r.index, 3);
    if s.index < |data| {
      ScanCodesStep(codes, data, s.index);
      var (u, next) := NextSignificant(codes, data, s.index);
      assert ts[k + 1..] == [u.typenum] + ScanCodes(codes, data, next);
      assert ts[k + 1] == u.typenum;
      assert ts[k + 2..] == ts[k + 1..][1..];
    }
  }

  /** Units remain to be scanned exactly when the stream goes on past k. */
  lemma SyncedRemaining(codes: CodeTable, data: seq<byte>, s: State, ts: seq<int>, k: nat)
    requires Synced(codes, data, s, ts, k)
    ensures s.index < |data| <==> k + 1 < |ts|
  {
    AheadIsScanCodes(codes, data, s.index, 3);
  }

  /** At the end of the code stream the cursor stays there. */
  lemma NextAtEnd(codes: CodeTable, data: seq<byte>, s: State, ts: seq<int>)
    requires Synced(codes, data, s, ts, |ts|)
    ensures Synced(codes, data, AfterNext(codes, data, s), ts, |ts|)
  {
  }

  /** The first turn of the cursor puts the parser at position 0 of the
      whole code stream. */
  lemma StartSynced(codes: CodeTable, data: seq<byte>, s: State)
    requires s.index == 0
    ensures Synced(codes, data, AfterNext(codes, data, s), ScanCodes(codes, data, 0), 0)
  {
    var r := AfterNext(codes, data, s);
    AheadIsScanCodes(codes, data, r.index, 3);
    if 0 < |data| {
      ScanCodesStep(codes, data, 0);
    }
  }

  // ---------------------------------------------------------------------
  // Rule by rule.
  // ---------------------------------------------------------------------

  lemma {:induction false} FactorAgrees(codes: CodeTable, data: seq<byte>, s: State, ts: seq<int>, k: nat)
    requires s.isValid && Synced(codes, data, s, ts, k)
    ensures Agrees(codes, data, ts, RecFactor(ts, k), AfterFactor(codes, data, s))
    decreases |ts| - k, 1
  {
    var c := s.unit.typenum;
    if c == IdCode || c == NumCode {
      NextSynced(codes, data, s, ts, k);
    } else if c == LParenCode {
      ParenAgrees(codes, data, s, ts, k);
    }
  }

  /** A parenthesised expression. */
  lemma {:induction false} ParenAgrees(codes: CodeTable, data: seq<byte>, s: State, ts: seq<int>, k: nat)
    requires s.isValid && Synced(codes, data, s, ts, k) && s.unit.typenum == LParenCode
    ensures Agrees(codes, data, ts, RecFactor(ts, k), AfterFactor(codes, data, s))
    decreases |ts| - k, 0
  {
    NextSynced(codes, data, s, ts, k);
    var a := AfterNext(codes, data, s);
    ExprAgrees(codes, data, a, ts, k + 1);
    CloseAgrees(codes, data, AfterExpression(codes, data, a), ts, RecExpr(ts, k + 1));
  }

  /** The closing parenthesis after the inner expression. */
  lemma CloseAgrees(codes: CodeTable, data: seq<byte>, e: State, ts: seq<int>, o: Option<(Expr, nat)>)
    requires Inv(data, e) && Agrees(codes, data, ts, o, e)
    ensures var r := if e.unit.typenum != RParenCode then Fail(e, NoRParen) else AfterNext(codes, data, e);
      var f := if o.Some? && Code(ts, o.value.1) == RParenCode then Some((Paren(o.value.0), o.value.1 + 1)) else None;
      Agrees(codes, data, ts, f, r)
  {
    if o.Some? && Code(ts, o.value.1) == RParenCode {
      NextSynced(codes, data, e, ts, o.value.1);
    }
  }

  lemma {:induction false} MulTailAgrees(codes: CodeTable, data: seq<byte>, s: State, ts: seq<int>, k: nat)
    requires s.isValid && Synced(codes, data, s, ts, k)
    ensures Agrees(codes, data, ts, RecMulTail(ts, k), AfterTermLoop(codes, data, s))
    decreases |ts| - k, 2
  {
    var c := s.unit.typenum;
    SyncedRemaining(codes, data, s, ts, k);
    if (c == TimesCode || c == DivideCode) && s.index < |data| {
      NextSynced(codes, data, s, ts, k);
      var a := AfterNext(codes, data, s);
      FactorAgrees(codes, data, a, ts, k + 1);
      var o := RecFactor(ts, k + 1);
      if o.Some? {
        MulTailAgrees(codes, data, AfterFactor(codes, data, a), ts, o.value.1);
      }
      MulTailStep(codes, data, s, ts, k);
    } else {
      MulTailStop(codes, data, s, ts, k);
    }
  }

  /** One turn of term's loop: agreement on the factor after the operator
      and on the rest of the loop gives agreement on the whole tail. */
  lemma MulTailStep(codes: CodeTable, data: seq<byte>, s: State, ts: seq<int>, k: nat)
    requires s.isValid && Synced(codes, data, s, ts, k) && s.index < |data| && k + 1 < |ts|
    requires s.unit.typenum == TimesCode || s.unit.typenum == DivideCode
    requires var f := AfterFactor(codes, data, AfterNext(codes, data, s));
      var o := RecFactor(ts, k + 1);
      && Agrees(codes, data, ts, o, f)
      && (o.Some? ==> Agrees(codes, data, ts, RecMulTail(ts, o.value.1), AfterTermLoop(codes, data, f)))
    ensures Agrees(codes, data, ts, RecMulTail(ts, k), AfterTermLoop(codes, data, s))
  {
  }

  /** Leaving term's loop: on a unit other than "*" and "/", or at the end
      of the data. */
  lemma MulTailStop(codes: CodeTable, data: seq<byte>, s: State, ts: seq<int>, k: nat)
    requires s.isValid && Synced(codes, data, s, ts, k)
    requires s.index < |data| <==> k + 1 < |ts|
    requires !((s.unit.typenum == TimesCode || s.unit.typenum == DivideCode) && s.index < |data|)
    ensures Agrees(codes, data, ts, RecMulTail(ts, k), AfterTermLoop(codes, data, s))
  {
  }

  lemma TermAgrees(codes: CodeTable, data: seq<byte>, s: State, ts: seq<int>, k: nat)
    requires s.isValid && Synced(codes, data, s, ts, k)
    ensures Agrees(codes, data, ts, RecTerm(ts, k), AfterTerm(codes, data, s))
    decreases |ts| - k, 3
  {
    FactorAgrees(codes, data, s, ts, k);
    var o := RecFactor(ts, k);
    if o.Some? {
      MulTailAgrees(codes, data, AfterFactor(codes, data, s), ts, o.value.1);
    }
  }

  lemma {:induction false} AddTailAgrees(codes: CodeTable, data: seq<byte>, s: State, ts: seq<int>, k: nat)
    requires s.isValid && Synced(codes, data, s, ts, k)
    ensures Agrees(codes, data, ts, RecAddTail(ts, k), AfterExprLoop(codes, data, s))
    decreases |ts| - k, 4
  {
    var c := s.unit.typenum;
    SyncedRemaining(codes, data, s, ts, k);
    if (c == PlusCode || c == MinusCode) && s.index < |data| {
      NextSynced(codes, data, s, ts, k);
      var a := AfterNext(codes, data, s);
      TermAgrees(codes, data, a, ts, k + 1);
      var o := RecTerm(ts, k + 1);
      if o.Some? {
        AddTailAgrees(codes, data, AfterTerm(codes, data, a), ts, o.value.1);
      }
      AddTailStep(codes, data, s, ts, k);
    } else {
      AddTailStop(codes, data, s, ts, k);
    }
  }

  /** One turn of expression's loop: agreement on the term after the
      operator and on the rest of the loop gives agreement on the whole tail. */
  lemma AddTailStep(codes: CodeTable, data: seq<byte>, s: State, ts: seq<int>, k: nat)
    requires s.isValid && Synced(codes, data, s, ts, k) && s.index < |data| && k + 1 < |ts|
    requires s.unit.typenum == PlusCode || s.unit.typenum == MinusCode
    requires var t := AfterTerm(codes, data, AfterNext(codes, data, s));
      var o := RecTerm(ts, k + 1);
      && Agrees(codes, data, ts, o, t)
      && (o.Some? ==> Agrees(codes, data, ts, RecAddTail(ts, o.value.1), AfterExprLoop(codes, data, t)))
    ensures Agrees(codes, data, ts, RecAddTail(ts, k), AfterExprLoop(codes, data, s))
  {
  }

  /** Leaving expression's loop: on a unit other than "+" and "-", or at
      the end of the data. */
  lemma AddTailStop(codes: CodeTable, data: seq<byte>, s: State, ts: seq<int>, k: nat)
    requires s.isValid && Synced(codes, data, s, ts, k)
    requires s.index < |data| <==> k + 1 < |ts|
    requires !((s.unit.typenum == PlusCode || s.unit.typenum == MinusCode) && s.index < |data|)
    ensures Agrees(codes, data, ts, RecAddTail(ts, k), AfterExprLoop(codes, data, s))
  {
  }

  lemma ExprAgrees(codes: CodeTable, data: seq<byte>, s: State, ts: seq<int>, k: nat)
    requires s.isValid && Synced(codes, data, s, ts, k)
    ensures Agrees(codes, data, ts, RecExpr(ts, k), AfterExpression(codes, data, s))
    decreases |ts| - k, 5
  {
    TermAgrees(codes, data, s, ts, k);
    var o := RecTerm(ts, k);
    if o.Some? {
      AddTailAgrees(codes, data, AfterTerm(codes, data, s), ts, o.value.1);
    }
  }

  lemma StmtAgrees(codes: CodeTable, data: seq<byte>, s: State, ts: seq<int>, k: nat)
    requires s.isValid && Synced(codes, data, s, ts, k)
    ensures Agrees(codes, data, ts, RecStmt(ts, k), AfterStatement(codes, data, s))
  {
    if s.unit.typenum == IdCode {
      NextSynced(codes, data, s, ts, k);
      var a := AfterNext(codes, data, s);
      if a.unit.typenum == AssignCode {
        NextSynced(codes, data, a, ts, k + 1);
        var b := AfterNext(codes, data, a);
        AssignAgrees(codes, data, b, ts, k);
        assert AfterStatement(codes, data, s) == AfterExpression(codes, data, b);
      }
    }
  }

  /** The expression of an assignment, once the identifier and ":=" at k
      and k + 1 are behind the parser. */
  lemma AssignAgrees(codes: CodeTable, data: seq<byte>, b: State, ts: seq<int>, k: nat)
    requires b.isValid && Synced(codes, data, b, ts, k + 2)
    requires Code(ts, k) == IdCode && Code(ts, k + 1) == AssignCode
    ensures Agrees(codes, data, ts, RecStmt(ts, k), AfterExpression(codes, data, b))
  {
    ExprAgrees(codes, data, b, ts, k + 2);
    var o := RecExpr(ts, k + 2);
    assert RecStmt(ts, k) == if o.Some? then Some((Assign(o.value.0), o.value.1)) else None;
  }

  lemma {:induction false} StmtTailAgrees(codes: CodeTable, data: seq<byte>, s: State, ts: seq<int>, k: nat)
    requires s.isValid && Synced(codes, data, s, ts, k)
    ensures Agrees(codes, data, ts, RecStmtTail(ts, k), AfterMultiLoop(codes, data, s))
    decreases |ts| - k, 1
  {
    if s.unit.typenum == SemicolonCode {
      SemicolonAgrees(codes, data, s, ts, k);
    }
  }

  /** One turn of the loop of multiStatements. */
  lemma {:induction false} SemicolonAgrees(codes: CodeTable, data: seq<byte>, s: State, ts: seq<int>, k: nat)
    requires s.isValid && Synced(codes, data, s, ts, k) && s.unit.typenum == SemicolonCode
    ensures Agrees(codes, data, ts, RecStmtTail(ts, k), AfterMultiLoop(codes, data, s))
    decreases |ts| - k, 0
  {
    NextSynced(codes, data, s, ts, k);
    var a := AfterNext(codes, data, s);
    StmtAgrees(codes, data, a, ts, k + 1);
    var o := RecStmt(ts, k + 1);
    if o.Some? {
      StmtTailAgrees(codes, data, AfterStatement(codes, data, a), ts, o.value.1);
    }
    SemicolonStep(codes, data, s, ts, k);
  }

  /** Agreement on the statement after ";" and on the rest of the loop
      gives agreement on the whole tail. */
  lemma SemicolonStep(codes: CodeTable, data: seq<byte>, s: State, ts: seq<int>, k: nat)
    requires s.isValid && Synced(codes, data, s, ts, k) && s.unit.typenum == SemicolonCode && k < |ts|
    requires var st := AfterStatement(codes, data, AfterNext(codes, data, s));
      var o := RecStmt(ts, k + 1);
      && Agrees(codes, data, ts, o, st)
      && (o.Some? ==> Agrees(codes, data, ts, RecStmtTail(ts, o.value.1), AfterMultiLoop(codes, data, st)))
    ensures Agrees(codes, data, ts, RecStmtTail(ts, k), AfterMultiLoop(codes, data, s))
  {
  }

  lemma StmtsAgrees(codes: CodeTable, data: seq<byte>, s: State, ts: seq<int>, k: nat)
    requires s.isValid && Synced(codes, data, s, ts, k)
    ensures Agrees(codes, data, ts, RecStmts(ts, k), AfterMulti(codes, data, s))
  {
    StmtAgrees(codes, data, s, ts, k);
    var o := RecStmt(ts, k);
    if o.Some? {
      StmtTailAgrees(codes, data, AfterStatement(codes, data, s), ts, o.value.1);
    }
  }

  /** The part of parse after "begin": the statements, then "end" and "$". */
  lemma BeginAgrees(codes: CodeTable, data: seq<byte>, s: State, ts: seq<int>, k: nat)
    requires s.isValid && Synced(codes, data, s, ts, k)
    ensures var o := RecStmts(ts, k);
      AfterBegin(codes, data, s).isValid <==>
        o.Some? && Code(ts, o.value.1) == EndCode && Code(ts, o.value.1 + 1) == EndMarkerCode
  {
    StmtsAgrees(codes, data, s, ts, k);
    var m := AfterMulti(codes, data, s);
    var o := RecStmts(ts, k);
    if o.Some? && m.unit.typenum == EndCode {
      NextSynced(codes, data, m, ts, o.value.1);
    }
  }

  /** parse sets the flag exactly when the recogniser finds a program at
      the start of the code stream. */
  lemma ParseAgrees(codes: CodeTable, data: seq<byte>)
    ensures AfterParse(codes, data, Initial).isValid <==> RecProgram(ScanCodes(codes, data, 0)).Some?
  {
    var ts := ScanCodes(codes, data, 0);
    var b := AfterNext(codes, data, Initial.(isValid := true));
    StartSynced(codes, data, Initial.(isValid := true));
    if b.unit.typenum == BeginCode {
      if |ts| == 0 {
        NextAtEnd(codes, data, b, ts);
        BeginAgrees(codes, data, AfterNext(codes, data, b), ts, 0);
      } else {
        NextSynced(codes, data, b, ts, 0);
        BeginAgrees(codes, data, AfterNext(codes, data, b), ts, 1);
      }
    }
  }

  /** The acceptance theorem: a line is valid exactly when the codes of its
      significant units start with the yield of a program of the grammar. */
  lemma ParseAccepts(data: seq<byte>)
    ensures ParseLine(data).isValid <==> exists p :: YieldProgram(p) <= ScanCodes(CodeMap, data, 0)
  {
    ParseAgrees(CodeMap, data);
    Recognises(ScanCodes(CodeMap, data, 0));
  }

  /** Appending bytes keeps every code up to an end marker of the stream. */
  lemma {:induction false} ScanCodesExtend(codes: CodeTable, data: seq<byte>, rest: seq<byte>, index: nat, m: nat)
    requires MarkerIsDollar(codes)
    requires index <= |data|
    requires m < |ScanCodes(codes, data, index)| && ScanCodes(codes, data, index)[m] == EndMarkerCode
    ensures var ts, longer := ScanCodes(codes, data, index), ScanCodes(codes, data + rest, index);
      m < |longer| && longer[..m + 1] == ts[..m + 1]
    decreases m
  {
    var (u, next) := NextSignificant(codes, data, index);
    ScanCodesStep(codes, data, index);
    ScanCodesStep(codes, data + rest, index);
    NextSignificantExtend(codes, data, rest, index);
    if m > 0 {
      ScanCodesExtend(codes, data, rest, next, m - 1);
      var ts, longer := ScanCodes(codes, data, index), ScanCodes(codes, data + rest, index);
      assert ts[..m + 1] == [u.typenum] + ScanCodes(codes, data, next)[..m];
      assert longer[..m + 1] == [u.typenum] + ScanCodes(codes, data + rest, next)[..m];
    }
  }

  /** A prefix of the stream that ends with the end marker stays a prefix
      when bytes are appended. */
  lemma TailKeepsPrefix(codes: CodeTable, data: seq<byte>, rest: seq<byte>, y: seq<int>)
    requires MarkerIsDollar(codes)
    requires y != [] && y[|y| - 1] == EndMarkerCode
    requires y <= ScanCodes(codes, data, 0)
    ensures y <= ScanCodes(codes, data + rest, 0)
  {
    ScanCodesExtend(codes, data, rest, 0, |y| - 1);
    assert y == ScanCodes(codes, data, 0)[..|y|];
  }

  /** Nothing after the end marker is examined: a valid line stays valid
      whatever bytes are appended to it. */
  lemma ParseIgnoresTail(data: seq<byte>, rest: seq<byte>)
    ensures ParseLine(data).isValid ==> ParseLine(data + rest).isValid
  {
    if ParseLine(data).isValid {
      ParseAccepts(data);
      var p :| YieldProgram(p) <= ScanCodes(CodeMap, data, 0);
      var y := YieldProgram(p);
      assert y[|y| - 1] == EndMarkerCode;
      EndMarkerKey();
      TailKeepsPrefix(CodeMap, data, rest, y);
      ParseAccepts(data + rest);
    }
  }
}
