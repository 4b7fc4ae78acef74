/** Name resolution agrees: the flat registry, searched backward and never shrunk inside a
    function, finds for every name in scope what lexical scoping finds, as long as no
    declaration hides a name still in scope. */

module Names {
  import opened Int64
  import opened Options
  import opened Syntax
  import opened Values
  import opened Semantics
  import opened Ir
  import opened Emit
  import opened EmitStmt
  import opened Typing
  import opened Checking
  import opened SimExpr

  /** The registry grew by names outside `c`. */
  predicate NewVars(vars: seq<Var>, vars1: seq<Var>, c: Ctx) {
    vars <= vars1 && forall i :: |vars| <= i < |vars1| ==> vars1[i].x !in c
  }

  lemma {:induction false} LookupLater(vars: seq<Var>, vars1: seq<Var>, x: Name)
    requires vars <= vars1 && forall i :: |vars| <= i < |vars1| ==> vars1[i].x != x
    ensures Lookup(vars1, x) == Lookup(vars, x)
    decreases |vars1|
  {
    if |vars| == |vars1| {
      assert vars == vars1;
    } else {
      LookupLater(vars, vars1[..|vars1| - 1], x);
    }
  }

  lemma KnownLater(vars: seq<Var>, vars1: seq<Var>, c: Ctx)
    requires NewVars(vars, vars1, c) && Known(vars, c)
    ensures Known(vars1, c)
  {
    forall x | x in c ensures Lookup(vars1, x) == Lookup(vars, x) {
      LookupLater(vars, vars1, x);
    }
  }

  lemma NewVarsTrans(a: seq<Var>, b: seq<Var>, d: seq<Var>, c: Ctx, c1: Ctx)
    requires NewVars(a, b, c) && NewVars(b, d, c1) && c.Keys <= c1.Keys
    ensures NewVars(a, d, c)
  {
  }

  /** What emitting a checked statement does to the registry: new entries are outside the
      scope it started in, and if control can fall out of it every name then in scope is
      found with its type.  No identifier is reported undefined. */
  predicate Resolved(g: Gen, g1: Gen, c: Ctx, c1: Ctx)
    requires g1.cur < |g1.blocks|
  {
    && NewVars(g.vars, g1.vars, c)
    && g1.failed == g.failed
    && (!Terminated(g1) ==> Known(g1.vars, c1))
  }

  /** Either nothing is emitted here any more or the names in scope are known. */
  predicate Live(g: Gen, c: Ctx)
    requires g.cur < |g.blocks|
  {
    Terminated(g) || Known(g.vars, c)
  }

  lemma ResolvedTrans(g: Gen, g1: Gen, g2: Gen, c: Ctx, c1: Ctx, c2: Ctx)
    requires g1.cur < |g1.blocks| && g2.cur < |g2.blocks|
    requires Resolved(g, g1, c, c1) && Resolved(g1, g2, c1, c2) && c.Keys <= c1.Keys
    ensures Resolved(g, g2, c, c2)
  {
  }

  lemma ResolvedExpr(g: Gen, e: Expr, c: Ctx)
    requires g.cur < |g.blocks| && Known(g.vars, c) && Type(e, c).Some?
    ensures Resolved(g, GenExpr(g, e).g, c, c)
  {
    hide GenExpr, Type;
    GenTyped(g, e, c);
  }

  /** Blocks that have ended: only branches of `break` and `continue` are added. */
  lemma {:induction false} SeqTerminated(g: Gen, ss: seq<Stmt>)
    requires g.cur < |g.blocks| && Terminated(g)
    ensures var r := GenSeq(g, ss); Terminated(r) && r.vars == g.vars && r.failed == g.failed && r.cur == g.cur
    decreases |ss|
  {
    hide Extends, Local;
    if ss != [] {
      StmtTerminated(g, ss[0]);
      SeqTerminated(GenStmt(g, ss[0]), ss[1..]);
    }
  }

  lemma StmtTerminated(g: Gen, s: Stmt)
    requires g.cur < |g.blocks| && Terminated(g)
    ensures var r := GenStmt(g, s); Terminated(r) && r.vars == g.vars && r.failed == g.failed && r.cur == g.cur
  {
    hide Extends, Local;
  }

  lemma {:induction false} SeqNames(g: Gen, ss: seq<Stmt>, c: Ctx, ret: Option<Ty>)
    requires g.cur < |g.blocks| && Live(g, c) && CheckSeq(ss, c, ret).Some?
    ensures Resolved(g, GenSeq(g, ss), c, CheckSeq(ss, c, ret).value)
    decreases ss, 0
  {
    hide Extends, Local, Known, NewVars;
    if ss == [] {
      NewVarsSame(g.vars, c);
    } else if Terminated(g) {
      SeqTerminated(g, ss);
      NewVarsSame(g.vars, c);
    } else {
      var c1 := CheckStmt(ss[0], c, ret).value;
      CheckGrows1(ss[0], c, ret);
      StmtNames(ss[0], g, c, ret);
      var g1 := GenStmt(g, ss[0]);
      SeqNames(g1, ss[1..], c1, ret);
      ResolvedTrans(g, g1, GenSeq(g1, ss[1..]), c, c1, CheckSeq(ss, c, ret).value);
    }
  }

  lemma NewVarsSame(vars: seq<Var>, c: Ctx)
    ensures NewVars(vars, vars, c)
  {
  }

  lemma {:induction false} StmtNames(s: Stmt, g: Gen, c: Ctx, ret: Option<Ty>)
    requires g.cur < |g.blocks| && !Terminated(g) && Known(g.vars, c) && CheckStmt(s, c, ret).Some?
    ensures Resolved(g, GenStmt(g, s), c, CheckStmt(s, c, ret).value)
    decreases s, 2
  {
    hide Extends, Local, Grew, Known, NewVars, Type, GenIf, GenSwitch, GenMatch, GenWhile, GenDoWhile, GenFor, GenCFor, GenVarDecl, CheckSeq, CheckArms, CheckIter, GenSeq;
    NewVarsSame(g.vars, c);
    match s
    case ExprStmt(e) => ResolvedExpr(g, e, c);
    case VarDecl(ty, x, init) => VarDeclNames(s, g, c, ret);
    case Return(value) => if value.Some? { GenTyped(g, value.value, c); }
    case Break =>
    case Continue =>
    case Unsafe(body) => SeqNames(g, body, c, ret);
    case If(_, _, _) => IfNames(s, g, c, ret);
    case Switch(_, _) => SwitchNames(s, g, c, ret);
    case Match(_, _) => MatchNames(s, g, c, ret);
    case While(_, _) => WhileNames(s, g, c, ret);
    case DoWhile(_, _) => DoWhileNames(s, g, c, ret);
    case For(_, _, _) => ForNames(s, g, c, ret);
    case CFor(_, _, _, _) => CForNames(s, g, c, ret);
  }

  lemma DeclareNames(g: Gen, x: Name, ty: Ty, c: Ctx)
    requires g.cur < |g.blocks| && Known(g.vars, c) && x !in c
    ensures var g1 := GenAlloca(g, x, ty);
      && NewVars(g.vars, g1.vars, c) && Known(g1.vars, c[x := ty]) && g1.failed == g.failed
      && Lookup(g1.vars, x) == Some(Var(x, Reg(g.next), ty))
  {
    hide Extends, Local, Grew;
    var g1 := GenAlloca(g, x, ty);
    assert g1.vars[..|g1.vars| - 1] == g.vars;
  }

  lemma VarDeclNames(s: Stmt, g: Gen, c: Ctx, ret: Option<Ty>)
    requires g.cur < |g.blocks| && !Terminated(g) && Known(g.vars, c) && CheckStmt(s, c, ret).Some? && s.VarDecl?
    ensures Resolved(g, GenVarDecl(g, s.ty, s.x, s.init), c, CheckStmt(s, c, ret).value)
  {
    hide Extends, Local, Grew, Known, NewVars, Type;
    DeclareNames(g, s.x, s.ty, c);
    var g1 := GenAlloca(g, s.x, s.ty);
    if s.init.Some? {
      KnownLater(g.vars, g1.vars, c);
      GenTyped(g1, s.init.value, c);
    }
  }

  lemma {:induction false} ArmNames(g: Gen, body: seq<Stmt>, m: nat, c: Ctx, ret: Option<Ty>)
    requires g.cur < |g.blocks| && Known(g.vars, c) && Checked(body, c, ret)
    ensures var r := GenArm(g, body, m); NewVars(g.vars, r.vars, c) && Known(r.vars, c) && r.failed == g.failed
    decreases body, 1
  {
    hide Extends, Local, Grew, Known, NewVars;
    SeqNames(g, body, c, ret);
    KnownLater(g.vars, GenSeq(g, body).vars, c);
  }

  lemma {:induction false} BodyNames(g: Gen, body: seq<Stmt>, brk: nat, cont: nat, c: Ctx, ret: Option<Ty>)
    requires g.cur < |g.blocks| && Known(g.vars, c) && Checked(body, c, ret)
    ensures var r := GenBody(g, body, brk, cont); NewVars(g.vars, r.vars, c) && Known(r.vars, c) && r.failed == g.failed
    decreases body, 1
  {
    hide Extends, Local, Grew, Known, NewVars;
    var g0 := WithTargets(g, Some(brk), Some(cont));
    SeqNames(g0, body, c, ret);
    KnownLater(g.vars, GenSeq(g0, body).vars, c);
  }

  lemma IfNames(s: Stmt, g: Gen, c: Ctx, ret: Option<Ty>)
    requires g.cur < |g.blocks| && Known(g.vars, c) && CheckStmt(s, c, ret).Some? && s.If?
    ensures Resolved(g, GenIf(g, s), c, c)
    decreases s, 1
  {
    hide Extends, Local, Known, NewVars, Type, GenArm, GenSeq, CheckSeq, Terminated, GenExpr;
    GenTyped(g, s.cond, c);
    var a := GenExpr(g, s.cond);
    var g1 := OpenIf(a, s.els.Else?);
    ArmNames(g1, s.thn, |a.g.blocks| + 1, c, ret);
    var g2 := GenArm(g1, s.thn, |a.g.blocks| + 1);
    if s.els.Else? {
      var g3 := PositionAt(g2, |a.g.blocks| + 2);
      ArmNames(g3, s.els.body, |a.g.blocks| + 1, c, ret);
      NewVarsTrans(g.vars, g2.vars, GenArm(g3, s.els.body, |a.g.blocks| + 1).vars, c, c);
    }
  }

  lemma {:induction false} ArmsNames(arms: seq<Arm>, g: Gen, from: nat, first: nat, merge: nat, patterns: bool, c: Ctx, ret: Option<Ty>)
    requires g.cur < |g.blocks| && from <= |arms| && first + |arms| <= |g.blocks|
    requires Known(g.vars, c) && CheckArms(arms, patterns, c, ret)
    ensures var r := GenArms(g, arms, from, first, merge);
      NewVars(g.vars, r.vars, c) && Known(r.vars, c) && r.failed == g.failed
    decreases arms, |arms| - from
  {
    hide Extends, Local, Known, NewVars;
    if from == |arms| {
      NewVarsSame(g.vars, c);
    } else {
      var g1 := PositionAt(g, first + from);
      ArmNames(g1, arms[from].body, merge, c, ret);
      var g2 := GenArm(g1, arms[from].body, merge);
      ArmsNames(arms, g2, from + 1, first, merge, patterns, c, ret);
      NewVarsTrans(g.vars, g2.vars, GenArms(g2, arms, from + 1, first, merge).vars, c, c);
    }
  }

  lemma SwitchNames(s: Stmt, g: Gen, c: Ctx, ret: Option<Ty>)
    requires g.cur < |g.blocks| && Known(g.vars, c) && CheckStmt(s, c, ret).Some? && s.Switch?
    ensures Resolved(g, GenSwitch(g, s), c, c)
    decreases s, 1
  {
    hide Extends, Local, Known, NewVars, Type, LastDefault, SwitchTable;
    GenTyped(g, s.e, c);
    var a := GenExpr(g, s.e);
    var merge := |a.g.blocks|;
    var g1 := OpenArms(a, |s.arms|);
    var g2 := Put(g1, Instr.Switch(a.val, DefaultBlock(LastDefault(s.arms), merge + 1, merge), SwitchTable(s.arms, merge + 1)));
    ArmsNames(s.arms, g2, 0, merge + 1, merge, false, c, ret);
  }

  lemma PatternNames(g: Gen, p: Pattern, v: Operand, c: Ctx)
    requires g.cur < |g.blocks| && Known(g.vars, c) && CheckPattern(p, c)
    ensures GenPattern(g, p, v).g.failed == g.failed
  {
    hide Extends, Local, Known, Type;
    match p
    case PIn(_, lo, hi) => GenTyped(g, lo, c); GenTyped(GenExpr(g, lo).g, hi, c);
    case PCmp(_, _, r) => GenTyped(g, r, c);
    case PVal(e) => GenTyped(g, e, c);
  }

  lemma {:induction false} ChecksNames(g: Gen, arms: seq<Arm>, from: nat, v: Operand, first: nat, c: Ctx, ret: Option<Ty>)
    requires g.cur < |g.blocks| && Known(g.vars, c) && CheckArms(arms, true, c, ret)
    ensures GenChecks(g, arms, from, v, first).failed == g.failed
    decreases |arms| - from
  {
    hide Extends, Local, Known;
    if from < |arms| {
      if arms[from].tag.Test? {
        PatternNames(g, arms[from].tag.p, v, c);
        ChecksNames(NextCheck(GenPattern(g, arms[from].tag.p, v), first + from), arms, from + 1, v, first, c, ret);
      } else {
        ChecksNames(g, arms, from + 1, v, first, c, ret);
      }
    }
  }

  lemma MatchNames(s: Stmt, g: Gen, c: Ctx, ret: Option<Ty>)
    requires g.cur < |g.blocks| && Known(g.vars, c) && CheckStmt(s, c, ret).Some? && s.Match?
    ensures Resolved(g, GenMatch(g, s), c, c)
    decreases s, 1
  {
    hide Extends, Local, Known, NewVars, Type, LastDefault;
    GenTyped(g, s.e, c);
    var a := GenExpr(g, s.e);
    var merge := |a.g.blocks|;
    var g1 := OpenArms(a, |s.arms|);
    ChecksNames(g1, s.arms, 0, a.val, merge + 1, c, ret);
    var g2 := GenChecks(g1, s.arms, 0, a.val, merge + 1);
    var g3 := Put(g2, Br(DefaultBlock(LastDefault(s.arms), merge + 1, merge)));
    ArmsNames(s.arms, g3, 0, merge + 1, merge, true, c, ret);
  }

  lemma WhileNames(s: Stmt, g: Gen, c: Ctx, ret: Option<Ty>)
    requires g.cur < |g.blocks| && Known(g.vars, c) && CheckStmt(s, c, ret).Some? && s.While?
    ensures Resolved(g, GenWhile(g, s), c, c)
    decreases s, 1
  {
    hide Extends, Local, Known, NewVars, Type;
    var cond, body, end := |g.blocks|, |g.blocks| + 1, |g.blocks| + 2;
    var g1 := Seal(OpenLoop(g, 3), Br(cond), cond);
    GenTyped(g1, s.cond, c);
    var a := GenExpr(g1, s.cond);
    var g2 := Seal(a.g, CondBr(a.val, body, end), body);
    BodyNames(g2, s.body, end, cond, c, ret);
  }

  lemma DoWhileNames(s: Stmt, g: Gen, c: Ctx, ret: Option<Ty>)
    requires g.cur < |g.blocks| && Known(g.vars, c) && CheckStmt(s, c, ret).Some? && s.DoWhile?
    ensures Resolved(g, GenDoWhile(g, s), c, c)
    decreases s, 1
  {
    hide Extends, Local, Known, NewVars, Type;
    var body, cond, end := |g.blocks|, |g.blocks| + 1, |g.blocks| + 2;
    var g1 := Seal(OpenLoop(g, 3), Br(body), body);
    BodyNames(g1, s.body, end, cond, c, ret);
    GenTyped(PositionAt(GenBody(g1, s.body, end, cond), cond), s.cond, c);
  }

  /** After the range is evaluated the loop variable, and nothing else, is new. */
  lemma ForInitNames(g: Gen, x: Name, iter: Iter, c: Ctx)
    requires g.cur < |g.blocks| && Known(g.vars, c) && CheckIter(iter, c) && x !in c
    ensures var g1 := ForInit(g, x, iter).0;
      && NewVars(g.vars, g1.vars, c) && Known(g1.vars, c[x := TInt]) && g1.failed == g.failed
      && Lookup(g1.vars, x) == Some(Var(x, Reg(g1.next - 1), TInt))
  {
    hide Extends, Local, Known, NewVars, Type;
    if iter.Range? { GenTyped(g, iter.lo, c); }
    var lo := GenLo(g, iter);
    GenTyped(lo.g, iter.hi, c);
    var hi := GenExpr(lo.g, iter.hi);
    DeclareNames(hi.g, x, TInt, c);
  }

  lemma ForNames(s: Stmt, g: Gen, c: Ctx, ret: Option<Ty>)
    requires g.cur < |g.blocks| && Known(g.vars, c) && CheckStmt(s, c, ret).Some? && s.For?
    ensures Resolved(g, GenFor(g, s), c, c)
    decreases s, 1
  {
    hide Extends, Local, Known, NewVars, Type, ForInit, ForTest, ForStep, GenBody, Terminated, CheckIter, CheckSeq;
    var cond, body, incr, end := |g.blocks|, |g.blocks| + 1, |g.blocks| + 2, |g.blocks| + 3;
    var c1 := c[s.x := TInt];
    ForInitNames(OpenLoop(g, 4), s.x, s.iter, c);
    var (g1, hi) := ForInit(OpenLoop(g, 4), s.x, s.iter);
    var g2 := Seal(g1, Br(cond), cond);
    var t := ForTest(g2, Reg(g1.next - 1), hi);
    ForTestNames(g2, Reg(g1.next - 1), hi);
    var g3 := Seal(t.g, CondBr(t.val, body, end), body);
    BodyNames(g3, s.body, end, incr, c1, ret);
    var g4 := GenBody(g3, s.body, end, incr);
    ForStepNames(PositionAt(g4, incr), Reg(g1.next - 1), cond);
    NewVarsTrans(g.vars, g1.vars, g4.vars, c, c1);
    KnownLater(g.vars, g4.vars, c);
  }

  lemma ForTestNames(g: Gen, slot: Operand, hi: Operand)
    requires g.cur < |g.blocks|
    ensures ForTest(g, slot, hi).g.failed == g.failed
  {
  }

  lemma ForStepNames(g: Gen, slot: Operand, cond: nat)
    requires g.cur < |g.blocks|
    ensures ForStep(g, slot, cond).failed == g.failed && ForStep(g, slot, cond).vars == g.vars
  {
  }

  lemma CForNames(s: Stmt, g: Gen, c: Ctx, ret: Option<Ty>)
    requires g.cur < |g.blocks| && !Terminated(g) && Known(g.vars, c) && CheckStmt(s, c, ret).Some? && s.CFor?
    ensures Resolved(g, GenCFor(g, s), c, c)
    decreases s, 1
  {
    hide Extends, Local, Known, NewVars, Type, CondHead, UpdateTail, GenBody, GenStmt, Terminated, CheckSeq;
    var cond, body, update, end := |g.blocks|, |g.blocks| + 1, |g.blocks| + 2, |g.blocks| + 3;
    var g0 := OpenLoop(g, 4);
    OpenLoopSame(g, 4);
    CForInitNames(s, g0, c, ret);
    var g1 := if s.finit.None? then g0 else GenStmt(g0, s.finit.value);
    var c1 := if s.finit.None? then c else CheckStmt(s.finit.value, c, ret).value;
    var g2 := Seal(g1, Br(cond), cond);
    CondHeadNames(g2, s.fcond, body, end, c1);
    var g3 := CondHead(g2, s.fcond, body, end);
    BodyNames(g3, s.body, end, update, c1, ret);
    var g4 := GenBody(g3, s.body, end, update);
    UpdateTailNames(PositionAt(g4, update), s.update, cond, c1);
    NewVarsTrans(g.vars, g1.vars, g4.vars, c, c1);
    KnownLater(g.vars, g4.vars, c);
  }

  lemma OpenLoopSame(g: Gen, n: nat)
    requires g.cur < |g.blocks|
    ensures Terminated(OpenLoop(g, n)) == Terminated(g)
    ensures OpenLoop(g, n).failed == g.failed
  {
  }

  lemma CondHeadNames(g: Gen, e: Option<Expr>, body: nat, end: nat, c: Ctx)
    requires g.cur < |g.blocks| && body < |g.blocks| && Known(g.vars, c)
    requires e.Some? ==> Type(e.value, c).Some?
    ensures CondHead(g, e, body, end).failed == g.failed
  {
    hide Extends, Local, Known, Type;
    if e.Some? { GenTyped(g, e.value, c); }
  }

  lemma UpdateTailNames(g: Gen, u: Option<Expr>, cond: nat, c: Ctx)
    requires g.cur < |g.blocks| && Known(g.vars, c)
    requires u.Some? ==> Type(u.value, c).Some?
    ensures UpdateTail(g, u, cond).failed == g.failed && UpdateTail(g, u, cond).vars == g.vars
  {
    hide Extends, Local, Known, Type;
    if u.Some? { GenTyped(g, u.value, c); }
  }

  /** A declaration or an expression, which never ends its block. */
  lemma CForInitNames(s: Stmt, g: Gen, c: Ctx, ret: Option<Ty>)
    requires g.cur < |g.blocks| && !Terminated(g) && Known(g.vars, c) && CheckStmt(s, c, ret).Some? && s.CFor?
    ensures var g1 := if s.finit.None? then g else GenStmt(g, s.finit.value);
      var c1 := if s.finit.None? then c else CheckStmt(s.finit.value, c, ret).value;
      && !Terminated(g1) && NewVars(g.vars, g1.vars, c) && Known(g1.vars, c1) && g1.failed == g.failed
      && c.Keys <= c1.Keys
    decreases s, 0
  {
    hide Extends, Local, Grew, Known, NewVars, Type;
    NewVarsSame(g.vars, c);
    if s.finit.Some? {
      StmtNames(s.finit.value, g, c, ret);
      CheckGrows1(s.finit.value, c, ret);
      InitOpen(g, s.finit.value);
    }
  }

  lemma InitOpen(g: Gen, s: Stmt)
    requires g.cur < |g.blocks| && !Terminated(g) && (s.VarDecl? || s.ExprStmt?)
    ensures !Terminated(GenStmt(g, s))
  {
    hide Extends, Local, GenExpr;
    if s.ExprStmt? {
      ExprOpen(g, s.e);
    }
  }

  lemma PutOpen(g: Gen, i: Instr)
    requires g.cur < |g.blocks| && !IsTerminator(i)
    ensures !Terminated(Put(g, i))
  {
  }

  lemma ResultOpen(g: Gen, i: Instr, ty: Ty)
    requires g.cur < |g.blocks| && !IsTerminator(i)
    ensures !Terminated(Result(g, i, ty).g)
  {
  }

  lemma BranchesOpen(g: Gen, e: Expr)
    requires g.cur < |g.blocks| && (e.And? || e.Or? || e.Ternary?)
    ensures !Terminated(GenExpr(g, e).g)
  {
    hide Extends, Local, Put, Append, PositionAt, Terminated, Result;
    if e.Ternary? {
      var a := GenExpr(g, e.cond);
      var b := GenExpr(OpenTernary(a), e.thn);
      var d := GenExpr(MiddleTernary(a, b), e.els);
      var m := MergeTernary(a, b, d);
      ResultOpen(m, Phi(m.next, b.val, b.g.cur, d.val, d.g.cur), b.ty);
    } else {
      var a := GenExpr(g, e.left);
      var b := GenExpr(OpenShort(a, e.And?), e.right);
      var m := MergeShort(a, b, e.And?);
      ResultOpen(m, Phi(m.next, Const(BoolV(!e.And?)), a.g.cur, b.val, b.g.cur), TBool);
    }
  }

  /** No expression ends the block it is computed in. */
  lemma ExprOpen(g: Gen, e: Expr)
    requires g.cur < |g.blocks| && !Terminated(g)
    ensures !Terminated(GenExpr(g, e).g)
  {
    if e.And? || e.Or? || e.Ternary? {
      BranchesOpen(g, e);
    } else {
      hide Extends, Local, Lookup, Below, Put, Result, Terminated, GenShort, GenTernary;
      FailOpen(g);
      match e
      case Ident(x) =>
        if Lookup(g.vars, x).Some? {
          var v := Lookup(g.vars, x).value;
          ResultOpen(g, Load(g.next, v.ty, v.ptr), v.ty);
        }
      case Binary(op, l, r) =>
        var a := GenExpr(g, l);
        var b := GenExpr(a.g, r);
        ResultOpen(b.g, Bin(b.g.next, OpCode(op), a.val, b.val), OpType(OpCode(op)));
      case Neg(e1) =>
        var a := GenExpr(g, e1);
        ResultOpen(a.g, Bin(a.g.next, OSub, Const(IntV(0)), a.val), TInt);
      case BitNot(e1) =>
        var a := GenExpr(g, e1);
        ResultOpen(a.g, XorOnes(a.g.next, a.val), TInt);
      case IncDec(inc, prefix, x) =>
        if Lookup(g.vars, x).Some? { IncDecOpen(g, Lookup(g.vars, x).value, inc, prefix); }
      case Assign(x, aop, value) =>
        if Lookup(g.vars, x).Some? { AssignOpen(GenExpr(g, value), Lookup(g.vars, x).value, aop); }
      case _ =>
    }
  }

  lemma FailOpen(g: Gen)
    requires g.cur < |g.blocks|
    ensures Terminated(Fail(g).g) == Terminated(g)
  {
  }

  lemma IncDecOpen(g: Gen, v: Var, inc: bool, prefix: bool)
    requires g.cur < |g.blocks|
    ensures !Terminated(GenIncDec(g, v, inc, prefix).g)
  {
    hide Extends, Local, Put, Terminated;
    var before := Result(g, Load(g.next, v.ty, v.ptr), v.ty);
    var after := Result(before.g, Bin(before.g.next, if inc then OAdd else OSub, before.val, Const(IntV(1))), v.ty);
    PutOpen(after.g, Store(after.val, v.ptr));
  }

  lemma AssignOpen(a: Code, v: Var, aop: AssignOp)
    requires a.g.cur < |a.g.blocks| && Below(a.val, a.g.next)
    ensures !Terminated(GenAssign(a, v, aop).g)
  {
    hide Extends, Local, Put, Terminated;
    if aop == Set {
      PutOpen(a.g, Store(a.val, v.ptr));
    } else {
      var loaded := Result(a.g, Load(a.g.next, a.ty, v.ptr), a.ty);
      var res := Result(loaded.g, Bin(loaded.g.next, AssignCode(aop), loaded.val, a.val), a.ty);
      PutOpen(res.g, Store(res.val, v.ptr));
    }
  }
}
