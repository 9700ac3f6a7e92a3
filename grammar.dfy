/// The grammar the recogniser accepts, over token codes:
///   program    = "begin" statements "end" "$"
///   statements = statement { ";" statement }
///   statement  = ID ":=" expression
///   expression = term { ("+" | "-") term }
///   term       = factor { ("*" | "/") factor }
///   factor     = ID | NUM | "(" expression ")"
/// Derivation trees, the codes they yield, and a reference recogniser that
/// finds the derivation when there is one.
module Grammar {
  import opened Lexer

  // ---------------------------------------------------------------------
  // Derivation trees and their yields.
  // ---------------------------------------------------------------------

  datatype AddOp = Plus | Minus
  datatype MulOp = Times | Divide

  datatype Factor = IdFactor | NumFactor | Paren(e: Expr)
  datatype Term = Term(head: Factor, tail: MulTail)
  datatype MulTail = MulEnd | MulMore(op: MulOp, f: Factor, rest: MulTail)
  datatype Expr = Expr(head: Term, tail: AddTail)
  datatype AddTail = AddEnd | AddMore(op: AddOp, t: Term, rest: AddTail)
  datatype Stmt = Assign(e: Expr)
  datatype Stmts = Stmts(head: Stmt, tail: StmtTail)
  datatype StmtTail = StmtEnd | StmtMore(s: Stmt, rest: StmtTail)
  datatype Program = Program(body: Stmts)

  function AddCode(op: AddOp): (r: int) {
    match op
    case Plus => PlusCode
    case Minus => MinusCode
  }

  function MulCode(op: MulOp): (r: int) {
    match op
    case Times => TimesCode
    case Divide => DivideCode
  }

  function YieldFactor(f: Factor): (r: seq<int>) {
    match f
    case IdFactor => [IdCode]
    case NumFactor => [NumCode]
    case Paren(e) => [LParenCode] + YieldExpr(e) + [RParenCode]
  }

  function YieldTerm(t: Term): (r: seq<int>) {
    YieldFactor(t.head) + YieldMulTail(t.tail)
  }

  function YieldMulTail(m: MulTail): (r: seq<int>) {
    match m
    case MulEnd => []
    case MulMore(op, f, rest) => [MulCode(op)] + YieldFactor(f) + YieldMulTail(rest)
  }

  function YieldExpr(e: Expr): (r: seq<int>) {
    YieldTerm(e.head) + YieldAddTail(e.tail)
  }

  function YieldAddTail(a: AddTail): (r: seq<int>) {
    match a
    case AddEnd => []
    case AddMore(op, t, rest) => [AddCode(op)] + YieldTerm(t) + YieldAddTail(rest)
  }

  function YieldStmt(s: Stmt): (r: seq<int>) {
    [IdCode, AssignCode] + YieldExpr(s.e)
  }

  function YieldStmts(s: Stmts): (r: seq<int>) {
    YieldStmt(s.head) + YieldStmtTail(s.tail)
  }

  function YieldStmtTail(t: StmtTail): (r: seq<int>) {
    match t
    case StmtEnd => []
    case StmtMore(s, rest) => [SemicolonCode] + YieldStmt(s) + YieldStmtTail(rest)
  }

  function YieldProgram(p: Program): (r: seq<int>) {
    [BeginCode] + YieldStmts(p.body) + [EndCode, EndMarkerCode]
  }

  // ---------------------------------------------------------------------
  // Positions in a code sequence.
  // ---------------------------------------------------------------------

  /** The code at position k; past the end, the code of the zero unit the
      scanner returns there. */
  function Code(ts: seq<int>, k: nat): (r: int) {
    if k < |ts| then ts[k] else Zero.typenum
  }

  /** The codes a occur in ts starting at position k. */
  predicate At(ts: seq<int>, k: nat, a: seq<int>)
    decreases |a|
  {
    if a == [] then k <= |ts|
    else k < |ts| && ts[k] == a[0] && At(ts, k + 1, a[1..])
  }

  lemma {:induction false} AtSlice(ts: seq<int>, k: nat, a: seq<int>)
    ensures At(ts, k, a) <==> k + |a| <= |ts| && ts[k..k + |a|] == a
    decreases |a|
  {
    if a != [] {
      AtSlice(ts, k + 1, a[1..]);
      if k + |a| <= |ts| {
        assert ts[k..k + |a|] == [ts[k]] + ts[k + 1..k + 1 + |a[1..]|];
        assert a == [a[0]] + a[1..];
      }
    }
  }

  lemma {:induction false} AtAppend(ts: seq<int>, k: nat, a: seq<int>, b: seq<int>)
    ensures At(ts, k, a + b) <==> At(ts, k, a) && At(ts, k + |a|, b)
    decreases |a|
  {
    if a == [] {
      assert a + b == b;
      if At(ts, k, b) {
        AtSlice(ts, k, b);
      }
    } else {
      assert (a + b)[0] == a[0] && (a + b)[1..] == a[1..] + b;
      AtAppend(ts, k + 1, a[1..], b);
    }
  }

  lemma AtHead(ts: seq<int>, k: nat, a: seq<int>)
    requires At(ts, k, a) && a != []
    ensures Code(ts, k) == a[0]
  {
  }

  // ---------------------------------------------------------------------
  // The reference recogniser: the longest derivation at position k, with
  // the position after it.
  // ---------------------------------------------------------------------

  function RecFactor(ts: seq<int>, k: nat): (r: Option<(Factor, nat)>)
    requires k <= |ts|
    ensures r.Some? ==> r.value.1 <= |ts| && r.value.1 == k + |YieldFactor(r.value.0)| && At(ts, k, YieldFactor(r.value.0))
    decreases |ts| - k, 1
  {
    var c := Code(ts, k);
    if c == IdCode then Some((IdFactor, k + 1))
    else if c == NumCode then Some((NumFactor, k + 1))
    else if c == LParenCode then
      match RecExpr(ts, k + 1)
      case None => None
      case Some((e, n)) =>
        if Code(ts, n) == RParenCode then
          AtAppend(ts, k, [LParenCode] + YieldExpr(e), [RParenCode]);
          AtAppend(ts, k, [LParenCode], YieldExpr(e));
          Some((Paren(e), n + 1))
        else None
    else None
  }

  function RecMulTail(ts: seq<int>, k: nat): (r: Option<(MulTail, nat)>)
    requires k <= |ts|
    ensures r.Some? ==> r.value.1 <= |ts| && r.value.1 == k + |YieldMulTail(r.value.0)| && At(ts, k, YieldMulTail(r.value.0))
    ensures r.Some? ==> Code(ts, r.value.1) != TimesCode && Code(ts, r.value.1) != DivideCode
    decreases |ts| - k, 2
  {
    var c := Code(ts, k);
    if c == TimesCode || c == DivideCode then
      var op := if c == TimesCode then Times else Divide;
      match RecFactor(ts, k + 1)
      case None => None
      case Some((f, n)) =>
        match RecMulTail(ts, n)
        case None => None
        case Some((rest, m)) =>
          AtAppend(ts, k, [MulCode(op)] + YieldFactor(f), YieldMulTail(rest));
          AtAppend(ts, k, [MulCode(op)], YieldFactor(f));
          Some((MulMore(op, f, rest), m))
    else Some((MulEnd, k))
  }

  function RecTerm(ts: seq<int>, k: nat): (r: Option<(Term, nat)>)
    requires k <= |ts|
    ensures r.Some? ==> r.value.1 <= |ts| && r.value.1 == k + |YieldTerm(r.value.0)| && At(ts, k, YieldTerm(r.value.0))
    ensures r.Some? ==> Code(ts, r.value.1) != TimesCode && Code(ts, r.value.1) != DivideCode
    decreases |ts| - k, 3
  {
    match RecFactor(ts, k)
    case None => None
    case Some((f, n)) =>
      match RecMulTail(ts, n)
      case None => None
      case Some((tail, m)) =>
        AtAppend(ts, k, YieldFactor(f), YieldMulTail(tail));
        Some((Term(f, tail), m))
  }

  function RecAddTail(ts: seq<int>, k: nat): (r: Option<(AddTail, nat)>)
    requires k <= |ts|
    ensures r.Some? ==> r.value.1 <= |ts| && r.value.1 == k + |YieldAddTail(r.value.0)| && At(ts, k, YieldAddTail(r.value.0))
    ensures r.Some? ==> Code(ts, r.value.1) != PlusCode && Code(ts, r.value.1) != MinusCode
    decreases |ts| - k, 4
  {
    var c := Code(ts, k);
    if c == PlusCode || c == MinusCode then
      var op := if c == PlusCode then Plus else Minus;
      match RecTerm(ts, k + 1)
      case None => None
      case Some((t, n)) =>
        match RecAddTail(ts, n)
        case None => None
        case Some((rest, m)) =>
          AtAppend(ts, k, [AddCode(op)] + YieldTerm(t), YieldAddTail(rest));
          AtAppend(ts, k, [AddCode(op)], YieldTerm(t));
          Some((AddMore(op, t, rest), m))
    else Some((AddEnd, k))
  }

  function RecExpr(ts: seq<int>, k: nat): (r: Option<(Expr, nat)>)
    requires k <= |ts|
    ensures r.Some? ==> r.value.1 <= |ts| && r.value.1 == k + |YieldExpr(r.value.0)| && At(ts, k, YieldExpr(r.value.0))
    ensures r.Some? ==> Code(ts, r.value.1) != PlusCode && Code(ts, r.value.1) != MinusCode
    decreases |ts| - k, 5
  {
    match RecTerm(ts, k)
    case None => None
    case Some((t, n)) =>
      match RecAddTail(ts, n)
      case None => None
      case Some((tail, m)) =>
        AtAppend(ts, k, YieldTerm(t), YieldAddTail(tail));
        Some((Expr(t, tail), m))
  }

  function RecStmt(ts: seq<int>, k: nat): (r: Option<(Stmt, nat)>)
    requires k <= |ts|
    ensures r.Some? ==> r.value.1 <= |ts| && r.value.1 == k + |YieldStmt(r.value.0)| && At(ts, k, YieldStmt(r.value.0))
  {
    if Code(ts, k) == IdCode && Code(ts, k + 1) == AssignCode then
      match RecExpr(ts, k + 2)
      case None => None
      case Some((e, n)) =>
        AtAppend(ts, k, [IdCode, AssignCode], YieldExpr(e));
        Some((Assign(e), n))
    else None
  }

  function RecStmtTail(ts: seq<int>, k: nat): (r: Option<(StmtTail, nat)>)
    requires k <= |ts|
    ensures r.Some? ==> r.value.1 <= |ts| && r.value.1 == k + |YieldStmtTail(r.value.0)| && At(ts, k, YieldStmtTail(r.value.0))
    ensures r.Some? ==> Code(ts, r.value.1) != SemicolonCode
    decreases |ts| - k
  {
    if Code(ts, k) == SemicolonCode then
      match RecStmt(ts, k + 1)
      case None => None
      case Some((s, n)) =>
        match RecStmtTail(ts, n)
        case None => None
        case Some((rest, m)) =>
          AtAppend(ts, k, [SemicolonCode] + YieldStmt(s), YieldStmtTail(rest));
          AtAppend(ts, k, [SemicolonCode], YieldStmt(s));
          Some((StmtMore(s, rest), m))
    else Some((StmtEnd, k))
  }

  function RecStmts(ts: seq<int>, k: nat): (r: Option<(Stmts, nat)>)
    requires k <= |ts|
    ensures r.Some? ==> r.value.1 <= |ts| && r.value.1 == k + |YieldStmts(r.value.0)| && At(ts, k, YieldStmts(r.value.0))
  {
    match RecStmt(ts, k)
    case None => None
    case Some((s, n)) =>
      match RecStmtTail(ts, n)
      case None => None
      case Some((tail, m)) =>
        AtAppend(ts, k, YieldStmt(s), YieldStmtTail(tail));
        Some((Stmts(s, tail), m))
  }

  /** The program a code sequence starts with, if any. */
  function RecProgram(ts: seq<int>): (r: Option<Program>)
    ensures r.Some? ==> YieldProgram(r.value) <= ts
  {
    if 0 < |ts| && ts[0] == BeginCode then
      match RecStmts(ts, 1)
      case None => None
      case Some((body, n)) =>
        if Code(ts, n) == EndCode && Code(ts, n + 1) == EndMarkerCode then
          AtAppend(ts, 0, [BeginCode] + YieldStmts(body), [EndCode, EndMarkerCode]);
          AtAppend(ts, 0, [BeginCode], YieldStmts(body));
          assert At(ts, n + 1, [EndMarkerCode]) by { assert At(ts, n + 2, []); }
          assert At(ts, n, [EndCode, EndMarkerCode]);
          AtSlice(ts, 0, YieldProgram(Program(body)));
          Some(Program(body))
        else None
    else None
  }

  // ---------------------------------------------------------------------
  // Completeness: a derivation whose yield sits at k is the one found,
  // provided the code after it cannot extend it.
  // ---------------------------------------------------------------------

  /** A code that ends an expression: no operator can continue it. */
  predicate EndsExpr(c: int) {
    c != PlusCode && c != MinusCode && c != TimesCode && c != DivideCode
  }

  /** A code that ends a statement list. */
  predicate EndsStmts(c: int) {
    EndsExpr(c) && c != SemicolonCode
  }

  lemma {:induction false} FactorComplete(f: Factor, ts: seq<int>, k: nat)
    requires At(ts, k, YieldFactor(f))
    ensures RecFactor(ts, k) == Some((f, k + |YieldFactor(f)|))
    decreases f, 0
  {
    match f
    case IdFactor => AtHead(ts, k, YieldFactor(f));
    case NumFactor => AtHead(ts, k, YieldFactor(f));
    case Paren(e) =>
      var ye := YieldExpr(e);
      AtAppend(ts, k, [LParenCode] + ye, [RParenCode]);
      AtAppend(ts, k, [LParenCode], ye);
      AtHead(ts, k, [LParenCode]);
      AtHead(ts, k + 1 + |ye|, [RParenCode]);
      ExprComplete(e, ts, k + 1);
  }

  lemma {:induction false} MulTailComplete(m: MulTail, ts: seq<int>, k: nat)
    requires At(ts, k, YieldMulTail(m))
    requires Code(ts, k + |YieldMulTail(m)|) != TimesCode && Code(ts, k + |YieldMulTail(m)|) != DivideCode
    ensures RecMulTail(ts, k) == Some((m, k + |YieldMulTail(m)|))
    decreases m, 0
  {
    match m
    case MulEnd =>
    case MulMore(op, f, rest) =>
      var yf := YieldFactor(f);
      AtAppend(ts, k, [MulCode(op)] + yf, YieldMulTail(rest));
      AtAppend(ts, k, [MulCode(op)], yf);
      AtHead(ts, k, [MulCode(op)]);
      FactorComplete(f, ts, k + 1);
      MulTailComplete(rest, ts, k + 1 + |yf|);
      assert k + 1 + |yf| + |YieldMulTail(rest)| == k + |YieldMulTail(m)|;
      assert (if Code(ts, k) == TimesCode then Times else Divide) == op;
  }

  lemma {:induction false} TermComplete(t: Term, ts: seq<int>, k: nat)
    requires At(ts, k, YieldTerm(t))
    requires Code(ts, k + |YieldTerm(t)|) != TimesCode && Code(ts, k + |YieldTerm(t)|) != DivideCode
    ensures RecTerm(ts, k) == Some((t, k + |YieldTerm(t)|))
    decreases t, 0
  {
    var n := k + |YieldFactor(t.head)|;
    AtAppend(ts, k, YieldFactor(t.head), YieldMulTail(t.tail));
    FactorComplete(t.head, ts, k);
    MulTailComplete(t.tail, ts, n);
    assert n + |YieldMulTail(t.tail)| == k + |YieldTerm(t)|;
  }

  /** The code right after a term inside an additive tail: the next
      operator, or what follows the whole tail. */
  lemma AfterTermInAddTail(a: AddTail, ts: seq<int>, k: nat)
    requires At(ts, k, YieldAddTail(a))
    requires EndsExpr(Code(ts, k + |YieldAddTail(a)|))
    ensures Code(ts, k) != TimesCode && Code(ts, k) != DivideCode
  {
    if a.AddMore? {
      AtAppend(ts, k, [AddCode(a.op)] + YieldTerm(a.t), YieldAddTail(a.rest));
      AtAppend(ts, k, [AddCode(a.op)], YieldTerm(a.t));
      AtHead(ts, k, [AddCode(a.op)]);
    }
  }

  lemma {:induction false} AddTailComplete(a: AddTail, ts: seq<int>, k: nat)
    requires At(ts, k, YieldAddTail(a))
    requires EndsExpr(Code(ts, k + |YieldAddTail(a)|))
    ensures RecAddTail(ts, k) == Some((a, k + |YieldAddTail(a)|))
    decreases a, 0
  {
    match a
    case AddEnd =>
    case AddMore(op, t, rest) =>
      var yt := YieldTerm(t);
      AtAppend(ts, k, [AddCode(op)] + yt, YieldAddTail(rest));
      AtAppend(ts, k, [AddCode(op)], yt);
      AtHead(ts, k, [AddCode(op)]);
      AfterTermInAddTail(rest, ts, k + 1 + |yt|);
      TermComplete(t, ts, k + 1);
      AddTailComplete(rest, ts, k + 1 + |yt|);
      assert k + 1 + |yt| + |YieldAddTail(rest)| == k + |YieldAddTail(a)|;
      assert (if Code(ts, k) == PlusCode then Plus else Minus) == op;
  }

  lemma {:induction false} ExprComplete(e: Expr, ts: seq<int>, k: nat)
    requires At(ts, k, YieldExpr(e))
    requires EndsExpr(Code(ts, k + |YieldExpr(e)|))
    ensures RecExpr(ts, k) == Some((e, k + |YieldExpr(e)|))
    decreases e, 0
  {
    var yt := YieldTerm(e.head);
    AtAppend(ts, k, yt, YieldAddTail(e.tail));
    AfterTermInAddTail(e.tail, ts, k + |yt|);
    TermComplete(e.head, ts, k);
    AddTailComplete(e.tail, ts, k + |yt|);
  }

  lemma StmtComplete(s: Stmt, ts: seq<int>, k: nat)
    requires At(ts, k, YieldStmt(s))
    requires EndsExpr(Code(ts, k + |YieldStmt(s)|))
    ensures RecStmt(ts, k) == Some((s, k + |YieldStmt(s)|))
  {
    AtAppend(ts, k, [IdCode, AssignCode], YieldExpr(s.e));
    ExprComplete(s.e, ts, k + 2);
  }

  /** The code right after a statement inside a statement tail. */
  lemma AfterStmtInTail(t: StmtTail, ts: seq<int>, k: nat)
    requires At(ts, k, YieldStmtTail(t))
    requires EndsStmts(Code(ts, k + |YieldStmtTail(t)|))
    ensures EndsExpr(Code(ts, k))
  {
    if t.StmtMore? {
      AtAppend(ts, k, [SemicolonCode] + YieldStmt(t.s), YieldStmtTail(t.rest));
      AtAppend(ts, k, [SemicolonCode], YieldStmt(t.s));
      AtHead(ts, k, [SemicolonCode]);
    }
  }

  lemma {:induction false} StmtTailComplete(t: StmtTail, ts: seq<int>, k: nat)
    requires At(ts, k, YieldStmtTail(t))
    requires EndsStmts(Code(ts, k + |YieldStmtTail(t)|))
    ensures RecStmtTail(ts, k) == Some((t, k + |YieldStmtTail(t)|))
    decreases t
  {
    match t
    case StmtEnd =>
    case StmtMore(s, rest) =>
      var ys := YieldStmt(s);
      AtAppend(ts, k, [SemicolonCode] + ys, YieldStmtTail(rest));
      AtAppend(ts, k, [SemicolonCode], ys);
      AtHead(ts, k, [SemicolonCode]);
      AfterStmtInTail(rest, ts, k + 1 + |ys|);
      StmtComplete(s, ts, k + 1);
      StmtTailComplete(rest, ts, k + 1 + |ys|);
  }

  lemma StmtsComplete(s: Stmts, ts: seq<int>, k: nat)
    requires At(ts, k, YieldStmts(s))
    requires EndsStmts(Code(ts, k + |YieldStmts(s)|))
    ensures RecStmts(ts, k) == Some((s, k + |YieldStmts(s)|))
  {
    var ys := YieldStmt(s.head);
    AtAppend(ts, k, ys, YieldStmtTail(s.tail));
    AfterStmtInTail(s.tail, ts, k + |ys|);
    StmtComplete(s.head, ts, k);
    StmtTailComplete(s.tail, ts, k + |ys|);
  }

  lemma ProgramComplete(p: Program, ts: seq<int>)
    requires YieldProgram(p) <= ts
    ensures RecProgram(ts) == Some(p)
  {
    var yb := YieldStmts(p.body);
    AtSlice(ts, 0, YieldProgram(p));
    AtAppend(ts, 0, [BeginCode] + yb, [EndCode, EndMarkerCode]);
    AtAppend(ts, 0, [BeginCode], yb);
    AtHead(ts, 0, [BeginCode]);
    StmtsComplete(p.body, ts, 1);
  }

  /** The recogniser accepts exactly the code sequences that start with the
      yield of a program; the program it finds is the only such one. */
  lemma Recognises(ts: seq<int>)
    ensures RecProgram(ts).Some? <==> exists p :: YieldProgram(p) <= ts
    ensures forall p :: YieldProgram(p) <= ts ==> RecProgram(ts) == Some(p)
  {
    forall p | YieldProgram(p) <= ts
      ensures RecProgram(ts) == Some(p)
    {
      ProgramComplete(p, ts);
    }
  }
}
