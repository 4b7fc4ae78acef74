/** The code of a statement does what the statement means: control reaches the end of the
    emitted code, the loop targets or a return exactly as the outcome says, with the memory
    the semantics leaves; a failing statement traps, and one that runs out of fuel is still
    running after as many steps. */

module SimStmt {
  import opened Int64
  import opened Options
  import opened Syntax
  import opened Values
  import opened Semantics
  import opened Ir
  import opened Emit
  import opened EmitStmt
  import opened Typing
  import opened Checking
  import opened SimExpr
  import opened Names

  /** Control is at the head of a block. */
  predicate AtHead(k: Conf, m: Mem) {
    k.Run? && k.idx == 0 && k.mem == m
  }

  /** Where a statement that can fall out through block `m` has taken the machine after `n`
      steps. */
  predicate Landed(g: Gen, m: nat, regs: Regs, r: SResult, fuel: nat, k: Conf, n: nat) {
    match r
    case STimeout => k.Run? && n >= fuel
    case SWrong => k.Trap?
    case SOk(Returned(v), _, mem) => k == Done(v, mem)
    case SOk(o, _, mem) =>
      && AtHead(k, mem) && Agree(g.next, regs, k.regs)
      && (o.Normal? ==> k.blk == m)
      && (o.Broke? ==> g.brk == Some(k.blk))
      && (o.Continued? ==> g.cont == Some(k.blk))
  }

  /** The same when normal completion is the insert point of `g1`. */
  predicate StmtDone(g: Gen, g1: Gen, regs: Regs, r: SResult, fuel: nat, k: Conf, n: nat) {
    if r.SOk? && r.o.Normal? then
      && At(k, g1) && !Terminated(g1) && k.mem == r.mem
      && Agree(g.next, regs, k.regs)
      && Bound(g1.vars, g1.next, r.env, k.regs)
    else
      Landed(g, 0, regs, r, fuel, k, n)
  }

  /** `loop` says whether there are targets for `break` and `continue`. */
  predicate Looping(g: Gen, loop: bool) {
    g.brk.Some? == loop && g.cont.Some? == loop
  }

  lemma AgreeTrans(n: nat, n1: nat, a: Regs, b: Regs, d: Regs)
    requires Agree(n, a, b) && Agree(n1, b, d) && n <= n1
    ensures Agree(n, a, d)
  {
  }

  /** A run from a later state of the same statement, seen from its start. */
  lemma LandedFrom(f: Cfg, g: Gen, g1: Gen, m: nat, k: Conf, n: nat, r: SResult, fuel: nat, n1: nat)
    requires k.Run? && StepN(f, k, n).Run?
    requires g.next <= g1.next && g1.brk == g.brk && g1.cont == g.cont
    requires Agree(g.next, k.regs, StepN(f, k, n).regs)
    requires Landed(g1, m, StepN(f, k, n).regs, r, fuel, StepN(f, StepN(f, k, n), n1), n1)
    ensures Landed(g, m, k.regs, r, fuel + n, StepN(f, k, n + n1), n + n1)
    ensures Landed(g, m, k.regs, r, fuel, StepN(f, k, n + n1), n + n1)
  {
    StepsAdd(f, k, n, n1);
  }

  /** Entering a scope of which `g1` is the code. */
  lemma Enter(g: Gen, g1: Gen, c: Ctx, env: Env, k: Conf)
    requires Here(g, c, env, k) && NewVars(g.vars, g1.vars, c) && g.next <= g1.next
    ensures Here(g1, c, env, k)
  {
    KnownLater(g.vars, g1.vars, c);
    forall x | x in env ensures Lookup(g1.vars, x) == Lookup(g.vars, x) {
      LookupLater(g.vars, g1.vars, x);
    }
  }

  /** From the block where all paths meet to the end of the statement. */
  lemma Settle(g: Gen, g1: Gen, m: nat, c: Ctx, env: Env, regs: Regs, mem0: Mem, r: SResult, fuel: nat, k: Conf, n: nat)
    requires Landed(g, m, regs, r, fuel, k, n)
    requires r.SOk? ==> r.env == env
    requires c.Keys == env.Keys && Bound(g.vars, g.next, env, regs)
    requires NewVars(g.vars, g1.vars, c) && g.next <= g1.next
    requires g1.cur == m && m < |g1.blocks| && g1.blocks[m] == []
    ensures StmtDone(g, g1, regs, r, fuel, k, n)
  {
    if r.SOk? && r.o.Normal? {
      BoundLater(g.vars, g.next, g1.next, env, regs, k.regs);
      forall x | x in env ensures Lookup(g1.vars, x) == Lookup(g.vars, x) {
        LookupLater(g.vars, g1.vars, x);
      }
    }
  }

  lemma Untouched(g: Gen, g1: Gen, b: nat)
    requires Local(g, g1) && b < |g.blocks| && b != g.cur
    ensures b < |g1.blocks| && g1.blocks[b] == g.blocks[b] && g1.cur != b
  {
  }

  lemma SimTest(f: Cfg, g: Gen, e: Expr, blocks: nat, thn: nat, els: nat, c: Ctx, env: Env, k: Conf) returns (n: nat)
    requires Ready(g, c, env, k)
    requires Type(e, c) == Some(TBool)
    requires Extends(Put(Append(GenExpr(g, e).g, blocks), CondBr(GenExpr(g, e).val, thn, els)).blocks, f)
    ensures TestDone(g, e, thn, els, c, env, k, StepN(f, k, n))
    ensures Eval(e, env, k.mem).EOk? ==> n >= 1
  {
    hide Extends, Local, Bound, Known, Typed, Grown, MemTyped, BinVal, Exec, Step, OpVal, Eval, GenExpr, Type;
    var a := GenExpr(g, e);
    ExtendsTrans(a.g.blocks, Put(Append(a.g, blocks), CondBr(a.val, thn, els)).blocks, f);
    n := SimExpr.SimExpr(f, g, e, c, env, k);
    TestJump(f, g, e, blocks, thn, els, c, env, k, n);
    if Eval(e, env, k.mem).EOk? { n := n + 1; }
  }

  lemma {:induction false} SimSeq(f: Cfg, g: Gen, ss: seq<Stmt>, c: Ctx, ret: Option<Ty>, env: Env, k: Conf, loop: bool, fuel: nat) returns (n: nat)
    requires Ready(g, c, env, k) && !Terminated(g) && Looping(g, loop)
    requires CheckSeq(ss, c, ret).Some?
    requires Extends(GenSeq(g, ss).blocks, f)
    ensures StmtDone(g, GenSeq(g, ss), k.regs, ExecSeq(ss, env, k.mem, loop, fuel), fuel, StepN(f, k, n), n)
    decreases fuel, ss, 0
  {
    hide Extends, Local, Bound, Known, Typed, GenStmt, ExecStmt, CheckStmt, RunTyped, Grown, MemTyped;
    if ss == [] {
      n := 0;
      DoneHere(g, c, env, k, fuel);
    } else {
      var s, g1 := ss[0], GenStmt(g, ss[0]);
      var c1 := CheckStmt(s, c, ret).value;
      ExtendsTrans(g1.blocks, GenSeq(g, ss).blocks, f);
      n := SimStmt(f, g, s, c, ret, env, k, loop, fuel);
      var r := ExecStmt(s, env, k.mem, loop, fuel);
      if r.SOk? && r.o.Normal? {
        var k1 := StepN(f, k, n);
        NextReady(s, g, c, ret, env, k, k1, loop, fuel);
        var n1 := SimSeq(f, g1, ss[1..], c1, ret, r.env, k1, loop, fuel);
        DoneFrom(f, g, g1, GenSeq(g, ss), k, n, ExecSeq(ss[1..], r.env, r.mem, loop, fuel), fuel, n1);
        n := n + n1;
      }
    }
  }

  lemma DoneHere(g: Gen, c: Ctx, env: Env, k: Conf, fuel: nat)
    requires Ready(g, c, env, k) && !Terminated(g)
    ensures StmtDone(g, g, k.regs, SOk(Normal, env, k.mem), fuel, k, 0)
  {
  }

  lemma DoneFrom(f: Cfg, g: Gen, g1: Gen, g2: Gen, k: Conf, n: nat, r: SResult, fuel: nat, n1: nat)
    requires k.Run? && StepN(f, k, n).Run?
    requires g.next <= g1.next && g1.brk == g.brk && g1.cont == g.cont
    requires Agree(g.next, k.regs, StepN(f, k, n).regs)
    requires StmtDone(g1, g2, StepN(f, k, n).regs, r, fuel, StepN(f, StepN(f, k, n), n1), n1)
    ensures StmtDone(g, g2, k.regs, r, fuel, StepN(f, k, n + n1), n + n1)
  {
    StepsAdd(f, k, n, n1);
  }

  /** After a statement completed normally the next one can start. */
  lemma NextReady(s: Stmt, g: Gen, c: Ctx, ret: Option<Ty>, env: Env, k: Conf, k1: Conf, loop: bool, fuel: nat)
    requires Ready(g, c, env, k) && !Terminated(g)
    requires CheckStmt(s, c, ret).Some?
    requires var r := ExecStmt(s, env, k.mem, loop, fuel);
      && r.SOk? && r.o.Normal?
      && At(k1, GenStmt(g, s)) && !Terminated(GenStmt(g, s)) && k1.mem == r.mem
      && Bound(GenStmt(g, s).vars, GenStmt(g, s).next, r.env, k1.regs)
    ensures var r := ExecStmt(s, env, k.mem, loop, fuel);
      Ready(GenStmt(g, s), CheckStmt(s, c, ret).value, r.env, k1)
  {
    hide Extends, Local, Grew, Bound, Typed, GenStmt, ExecStmt, CheckStmt, Known, NewVars;
    StmtNames(s, g, c, ret);
    ExecStmtTyped(s, c, ret, env, k.mem, loop, fuel);
  }

  lemma {:induction false} SimArm(f: Cfg, g: Gen, body: seq<Stmt>, m: nat, c: Ctx, ret: Option<Ty>, env: Env, k: Conf, loop: bool, fuel: nat) returns (n: nat)
    requires Ready(g, c, env, k) && !Terminated(g) && Looping(g, loop)
    requires Checked(body, c, ret)
    requires Extends(GenArm(g, body, m).blocks, f)
    ensures Landed(g, m, k.regs, ExecSeq(body, env, k.mem, loop, fuel), fuel, StepN(f, k, n), n)
    decreases fuel, body, 1
  {
    hide Extends, Local, Bound, Known, Typed, GenSeq, ExecSeq, CheckSeq;
    var g1 := GenSeq(g, body);
    ExtendsTrans(g1.blocks, GenArm(g, body, m).blocks, f);
    n := SimSeq(f, g, body, c, ret, env, k, loop, fuel);
    var r := ExecSeq(body, env, k.mem, loop, fuel);
    if r.SOk? && r.o.Normal? {
      BrStep(f, g1, m, StepN(f, k, n));
      StepAfter(f, k, n);
      n := n + 1;
    }
  }

  lemma {:induction false} SimStmt(f: Cfg, g: Gen, s: Stmt, c: Ctx, ret: Option<Ty>, env: Env, k: Conf, loop: bool, fuel: nat) returns (n: nat)
    requires Ready(g, c, env, k) && !Terminated(g) && Looping(g, loop)
    requires CheckStmt(s, c, ret).Some?
    requires Extends(GenStmt(g, s).blocks, f)
    ensures StmtDone(g, GenStmt(g, s), k.regs, ExecStmt(s, env, k.mem, loop, fuel), fuel, StepN(f, k, n), n)
    decreases fuel, s, 2
  {
    hide *;
    match s
    case ExprStmt(_) => n := SimExprStmt(f, g, s, c, ret, env, k, loop, fuel);
    case VarDecl(_, _, _) => n := SimVarDecl(f, g, s, c, ret, env, k, loop, fuel);
    case Return(_) => n := SimReturn(f, g, s, c, ret, env, k, loop, fuel);
    case Break => n := SimJump(f, g, s, c, ret, env, k, loop, fuel);
    case Continue => n := SimJump(f, g, s, c, ret, env, k, loop, fuel);
    case Unsafe(_) => n := SimUnsafe(f, g, s, c, ret, env, k, loop, fuel);
    case If(_, _, _) => n := SimIf(f, g, s, c, ret, env, k, loop, fuel);
    case Switch(_, _) => n := SimSwitch(f, g, s, c, ret, env, k, loop, fuel);
    case Match(_, _) => n := SimMatch(f, g, s, c, ret, env, k, loop, fuel);
    case While(_, _) => n := SimWhile(f, g, s, c, ret, env, k, loop, fuel);
    case DoWhile(_, _) => n := SimDoWhile(f, g, s, c, ret, env, k, loop, fuel);
    case For(_, _, _) => n := SimFor(f, g, s, c, ret, env, k, loop, fuel);
    case CFor(_, _, _, _) => n := SimCFor(f, g, s, c, ret, env, k, loop, fuel);
  }

  lemma SimExprStmt(f: Cfg, g: Gen, s: Stmt, c: Ctx, ret: Option<Ty>, env: Env, k: Conf, loop: bool, fuel: nat) returns (n: nat)
    requires Ready(g, c, env, k) && !Terminated(g) && s.ExprStmt?
    requires CheckStmt(s, c, ret).Some?
    requires Extends(GenStmt(g, s).blocks, f)
    ensures StmtDone(g, GenStmt(g, s), k.regs, ExecStmt(s, env, k.mem, loop, fuel), fuel, StepN(f, k, n), n)
  {
    hide Extends, Local, Bound, Known, Typed, GenExpr, Eval, Type, Terminated;
    var a := GenExpr(g, s.e);
    n := SimExpr.SimExpr(f, g, s.e, c, env, k);
    ExprOpen(g, s.e);
    if Eval(s.e, env, k.mem).EOk? {
      BoundLater(g.vars, g.next, a.g.next, env, k.regs, StepN(f, k, n).regs);
    }
  }

  lemma SimUnsafe(f: Cfg, g: Gen, s: Stmt, c: Ctx, ret: Option<Ty>, env: Env, k: Conf, loop: bool, fuel: nat) returns (n: nat)
    requires Ready(g, c, env, k) && !Terminated(g) && Looping(g, loop) && s.Unsafe?
    requires CheckStmt(s, c, ret).Some?
    requires Extends(GenStmt(g, s).blocks, f)
    ensures StmtDone(g, GenStmt(g, s), k.regs, ExecStmt(s, env, k.mem, loop, fuel), fuel, StepN(f, k, n), n)
    decreases fuel, s, 1
  {
    hide Extends, Local, Bound, Known, Typed, GenSeq, ExecSeq, CheckSeq;
    n := SimSeq(f, g, s.body, c, ret, env, k, loop, fuel);
  }

  lemma SimJump(f: Cfg, g: Gen, s: Stmt, c: Ctx, ret: Option<Ty>, env: Env, k: Conf, loop: bool, fuel: nat) returns (n: nat)
    requires Ready(g, c, env, k) && !Terminated(g) && Looping(g, loop) && (s.Break? || s.Continue?)
    requires Extends(GenStmt(g, s).blocks, f)
    ensures StmtDone(g, GenStmt(g, s), k.regs, ExecStmt(s, env, k.mem, loop, fuel), fuel, StepN(f, k, n), n)
  {
    hide Extends, Local, Bound, Known, Typed;
    n := 0;
    if loop {
      BrStep(f, g, if s.Break? then g.brk.value else g.cont.value, k);
      StepAfter(f, k, 0);
      n := 1;
    }
  }

  lemma SimReturn(f: Cfg, g: Gen, s: Stmt, c: Ctx, ret: Option<Ty>, env: Env, k: Conf, loop: bool, fuel: nat) returns (n: nat)
    requires Ready(g, c, env, k) && !Terminated(g) && s.Return?
    requires CheckStmt(s, c, ret).Some?
    requires Extends(GenStmt(g, s).blocks, f)
    ensures StmtDone(g, GenStmt(g, s), k.regs, ExecStmt(s, env, k.mem, loop, fuel), fuel, StepN(f, k, n), n)
  {
    hide Extends, Local, Bound, Known, Typed, GenExpr, Eval, Type;
    if s.value.None? {
      StepAt(f, g, RetVoid, k);
      StepAfter(f, k, 0);
      n := 1;
    } else {
      var a := GenExpr(g, s.value.value);
      ExtendsTrans(a.g.blocks, GenReturn(g, s.value).blocks, f);
      n := SimExpr.SimExpr(f, g, s.value.value, c, env, k);
      if Eval(s.value.value, env, k.mem).EOk? {
        StepAt(f, a.g, Ret(a.val), StepN(f, k, n));
        StepAfter(f, k, n);
        n := n + 1;
      }
    }
  }

  /** A declaration's slot: a fresh location, known under the new name. */
  lemma SimAlloca(f: Cfg, g: Gen, x: Name, ty: Ty, c: Ctx, env: Env, k: Conf)
    requires Ready(g, c, env, k) && x !in c
    requires Extends(GenAlloca(g, x, ty).blocks, f)
    ensures var g1, k1 := GenAlloca(g, x, ty), Step(f, k);
      && At(k1, g1) && k1.mem == k.mem + [Cell(ty, None)]
      && Agree(g.next, k.regs, k1.regs)
      && OperandVal(Reg(g.next), k1.regs) == Some(PtrV(|k.mem|))
      && Here(g1, c, env, k1)
      && Bound(g1.vars, g1.next, env[x := |k.mem|], k1.regs)
      && NewVars(g.vars, g1.vars, c)
  {
    hide Extends, Local, Typed;
    var g1 := GenAlloca(g, x, ty);
    StepAt(f, g, Alloca(g.next, ty), k);
    DeclareNames(g, x, ty, c);
    KnownLater(g.vars, g1.vars, c);
    var k1 := Step(f, k);
    TypedMore(c, env, k.mem, k1.mem) by { CellAdded(k.mem, Cell(ty, None)); }
    assert env.Keys == c.Keys by { TypedKeys(c, env, k.mem); }
    forall y | y in env ensures Lookup(g1.vars, y) == Lookup(g.vars, y) {
      LookupLater(g.vars, g1.vars, y);
    }
  }

  lemma CellAdded(m: Mem, cell: Cell)
    requires cell.val.None?
    ensures Grown(m, m + [cell]) && (m + [cell])[..|m|] == m
  {
  }

  lemma TypedKeys(c: Ctx, env: Env, m: Mem)
    requires Typed(c, env, m)
    ensures env.Keys == c.Keys && MemTyped(m)
  {
  }

  /** The conversion of an initialiser whose static type is that of its value. */
  lemma SimConvert(f: Cfg, a: Code, ty: Ty, v: Val, k: Conf) returns (n: nat)
    requires At(k, a.g) && Below(a.val, a.g.next) && OperandVal(a.val, k.regs) == Some(v) && HasType(v, a.ty)
    requires Extends(GenConvert(a, ty).g.blocks, f)
    ensures ExprDone(a.g.next, GenConvert(a, ty), k.regs, EOk(Convert(ty, v), k.mem), StepN(f, k, n))
  {
    hide Extends, Local;
    n := 0;
    if a.ty != ty {
      StepAt(f, a.g, if ty == TBool then Trunc(a.g.next, a.val) else SExt(a.g.next, a.val), k);
      StepAfter(f, k, 0);
      n := 1;
    }
  }

  lemma SimVarDecl(f: Cfg, g: Gen, s: Stmt, c: Ctx, ret: Option<Ty>, env: Env, k: Conf, loop: bool, fuel: nat) returns (n: nat)
    requires Ready(g, c, env, k) && !Terminated(g) && s.VarDecl?
    requires CheckStmt(s, c, ret).Some?
    requires Extends(GenStmt(g, s).blocks, f)
    ensures StmtDone(g, GenStmt(g, s), k.regs, ExecStmt(s, env, k.mem, loop, fuel), fuel, StepN(f, k, n), n)
  {
    hide Extends, Local, Bound, Known, Typed, MemTyped, GenExpr, Eval, Type, GenConvert, Exec, Step, Convert, Grown;
    var g1 := GenAlloca(g, s.x, s.ty);
    InitOpen(g, s);
    if s.init.Some? {
      var e := s.init.value;
      var a := GenExpr(g1, e);
      var v := GenConvert(a, s.ty);
      var g2 := Put(v.g, Store(v.val, Reg(g.next)));
      ExtendsTrans(v.g.blocks, g2.blocks, f);
      ExtendsTrans(a.g.blocks, v.g.blocks, f);
      ExtendsTrans(g1.blocks, a.g.blocks, f);
      SimAlloca(f, g, s.x, s.ty, c, env, k);
      StepAfter(f, k, 0);
      var k1 := StepN(f, k, 1);
      var n1 := SimExpr.SimExpr(f, g1, e, c, env, k1);
      StepsAdd(f, k, 1, n1);
      n := 1 + n1;
      EvalTyped(e, c, env, k1.mem);
      GenTyped(g1, e, c);
      var r := Eval(e, env, k1.mem);
      if r.EOk? {
        var k2 := StepN(f, k, n);
        var n2 := SimConvert(f, a, s.ty, r.v, k2);
        StepsAdd(f, k, n, n2);
        n := n + n2;
        VarDeclStore(f, g, s, a, v, c, env, k, k1, k2, StepN(f, k, n), r);
        StepAfter(f, k, n);
        n := n + 1;
      }
    } else {
      SimAlloca(f, g, s.x, s.ty, c, env, k);
      StepAfter(f, k, 0);
      n := 1;
    }
  }

  /** The last step of a declaration with initialiser: the store into the new slot. */
  lemma VarDeclStore(f: Cfg, g: Gen, s: Stmt, a: Code, v: Code, c: Ctx, env: Env, k: Conf, k1: Conf, k2: Conf, k3: Conf, r: EResult)
    requires s.VarDecl? && k.Run? && k1.Run? && k2.Run? && r.EOk?
    requires a.g.cur < |a.g.blocks| && Below(a.val, a.g.next) && v == GenConvert(a, s.ty)
    requires g.cur < |g.blocks| && Grew(GenAlloca(g, s.x, s.ty), a.g) && Same(GenAlloca(g, s.x, s.ty), a.g)
    requires k1.mem == k.mem + [Cell(s.ty, None)] && k2.mem == r.mem && Kept(k1.mem, r.mem) && HasType(r.v, a.ty)
    requires Agree(g.next, k.regs, k1.regs) && Agree(g.next + 1, k1.regs, k2.regs)
    requires OperandVal(Reg(g.next), k1.regs) == Some(PtrV(|k.mem|))
    requires Bound(a.g.vars, g.next + 1, env[s.x := |k.mem|], k1.regs)
    requires ExprDone(a.g.next, v, k2.regs, EOk(Convert(s.ty, r.v), r.mem), k3)
    requires Extends(Put(v.g, Store(v.val, Reg(g.next))).blocks, f)
    ensures var k4, g1 := Step(f, k3), Put(v.g, Store(v.val, Reg(g.next)));
      && At(k4, g1) && Agree(g.next, k.regs, k4.regs)
      && |k.mem| < |r.mem| && k4.mem == Write(r.mem, |k.mem|, Convert(s.ty, r.v))
      && Bound(g1.vars, g1.next, env[s.x := |k.mem|], k4.regs)
  {
    hide Extends, Local, Bound, Exec, Step, GenConvert;
    AgreeTrans(g.next + 1, a.g.next, k1.regs, k2.regs, k3.regs);
    StoreStep(f, v.g, v.val, Reg(g.next), |k.mem|, k3);
    BoundLater(a.g.vars, g.next + 1, v.g.next, env[s.x := |k.mem|], k1.regs, k3.regs);
  }

  lemma {:induction false} SimIf(f: Cfg, g: Gen, s: Stmt, c: Ctx, ret: Option<Ty>, env: Env, k: Conf, loop: bool, fuel: nat) returns (n: nat)
    requires Ready(g, c, env, k) && !Terminated(g) && Looping(g, loop) && s.If?
    requires CheckStmt(s, c, ret).Some?
    requires Extends(GenStmt(g, s).blocks, f)
    ensures StmtDone(g, GenStmt(g, s), k.regs, ExecStmt(s, env, k.mem, loop, fuel), fuel, StepN(f, k, n), n)
    decreases fuel, s, 1
  {
    hide Extends, Local, Bound, Known, Typed, NewVars, GenExpr, Eval, Type, Agree, GenArm, ExecSeq, CheckSeq, Terminated, GenStmt, ExecStmt, CheckStmt, Put, Append, GenIf, OpenIf, StepN;
    UnfoldIf(g, s, c, ret, env, k.mem, loop, fuel);
    UnfoldIf(g, s, c, ret, env, k.mem, loop, fuel);
    IfShape(g, s);
    var a := GenExpr(g, s.cond);
    var thn := |a.g.blocks|;
    var g1 := OpenIf(a, s.els.Else?);
    var g2 := GenArm(g1, s.thn, thn + 1);
    ExtendsTrans(g2.blocks, GenIf(g, s).blocks, f);
    ExtendsTrans(g1.blocks, g2.blocks, f);
    n := SimTest(f, g, s.cond, if s.els.Else? then 3 else 2, thn, if s.els.Else? then thn + 2 else thn + 1, c, env, k);
    var k1 := StepN(f, k, n);
    var r0 := Eval(s.cond, env, k.mem);
    var r := ExecStmt(s, env, k.mem, loop, fuel);
    if r0.EOk? {
      if r0.v.b {
        HereMore(g, g1, c, env, k1);
        EmptyOpen(g1);
        var n1 := SimArm(f, g1, s.thn, thn + 1, c, ret, env, k1, loop, fuel);
        LandedFrom(f, g, g1, thn + 1, k, n, ExecSeq(s.thn, env, k1.mem, loop, fuel), fuel, n1);
        n := n + n1;
      } else if s.els.Else? {
        var g3 := PositionAt(g2, thn + 2);
        HereMore(g, g1, c, env, k1);
        ArmNames(g1, s.thn, thn + 1, c, ret);
        Enter(g1, g3, c, env, k1);
        ExtendsTrans(GenArm(g3, s.els.body, thn + 1).blocks, GenIf(g, s).blocks, f);
        EmptyOpen(g3);
        var n1 := SimArm(f, g3, s.els.body, thn + 1, c, ret, env, k1, loop, fuel);
        LandedFrom(f, g, g3, thn + 1, k, n, ExecSeq(s.els.body, env, k1.mem, loop, fuel), fuel, n1);
        n := n + n1;
      }
    }
    IfNames(s, g, c, ret);
    TypedKeys(c, env, k.mem);
    Settle(g, GenIf(g, s), thn + 1, c, env, k.regs, k.mem, r, fuel, StepN(f, k, n), n);
  }

  lemma UnfoldIfCheck(s: Stmt, c: Ctx, ret: Option<Ty>)
    requires s.If? && CheckStmt(s, c, ret).Some?
    ensures CheckStmt(s, c, ret) == Some(c)
    ensures Type(s.cond, c) == Some(TBool) && Checked(s.thn, c, ret) && (s.els.Else? ==> Checked(s.els.body, c, ret))
  {
    hide Type, CheckSeq, CheckArms, CheckIter;
  }

  lemma UnfoldIf(g: Gen, s: Stmt, c: Ctx, ret: Option<Ty>, env: Env, m: Mem, loop: bool, fuel: nat)
    requires s.If? && g.cur < |g.blocks| && !Terminated(g) && CheckStmt(s, c, ret).Some?
    ensures GenStmt(g, s) == GenIf(g, s)
    ensures CheckStmt(s, c, ret) == Some(c)
    ensures Type(s.cond, c) == Some(TBool) && Checked(s.thn, c, ret) && (s.els.Else? ==> Checked(s.els.body, c, ret))
    ensures ExecStmt(s, env, m, loop, fuel) ==
      match Eval(s.cond, env, m)
      case EOk(BoolV(b), m1) =>
        if b then Leave(ExecSeq(s.thn, env, m1, loop, fuel), env)
        else if s.els.Else? then Leave(ExecSeq(s.els.body, env, m1, loop, fuel), env)
        else SOk(Normal, env, m1)
      case _ => SWrong
  {
    hide Extends, Local, Terminated, GenIf, Eval, ExecSeq, Type, CheckSeq;
    UnfoldIfCheck(s, c, ret);
  }

  lemma EmptyOpen(g: Gen)
    requires g.cur < |g.blocks| && g.blocks[g.cur] == []
    ensures !Terminated(g)
  {
  }

  /** Where the branches go is empty when control arrives. */
  lemma IfShape(g: Gen, s: Stmt)
    requires s.If? && g.cur < |g.blocks|
    ensures var a := GenExpr(g, s.cond);
      var thn, g1 := |a.g.blocks|, OpenIf(a, s.els.Else?);
      var g2, g3 := GenArm(g1, s.thn, thn + 1), GenIf(g, s);
      && Extends(g1.blocks, g2.blocks) && Extends(g2.blocks, g3.blocks)
      && g1.vars == g.vars && g1.brk == g.brk && g1.cont == g.cont
      && g1.blocks == Put(Append(a.g, if s.els.Else? then 3 else 2), CondBr(a.val, thn, if s.els.Else? then thn + 2 else thn + 1)).blocks
      && g1.blocks[thn] == [] && thn + 1 < |g3.blocks| && g3.cur == thn + 1 && g3.blocks[thn + 1] == []
      && g3.next >= g.next
      && (s.els.Else? ==> thn + 2 < |g2.blocks| && g2.blocks[thn + 2] == [] && Extends(GenArm(PositionAt(g2, thn + 2), s.els.body, thn + 1).blocks, g3.blocks))
  {
    hide Extends, Local, GenExpr, GenArm;
    var a := GenExpr(g, s.cond);
    var thn, g1 := |a.g.blocks|, OpenIf(a, s.els.Else?);
    var g2 := GenArm(g1, s.thn, thn + 1);
    Untouched(g1, g2, thn + 1);
    if s.els.Else? {
      var g3 := PositionAt(g2, thn + 2);
      Untouched(g1, g2, thn + 2);
      Untouched(g3, GenArm(g3, s.els.body, thn + 1), thn + 1);
      ExtendsSame(GenIf(g, s).blocks);
    } else {
      ExtendsSame(g2.blocks);
    }
  }

  lemma ExtendsSame(a: Cfg)
    ensures Extends(a, a)
  {
  }

  lemma {:induction false} TableTarget(arms: seq<Arm>, n: i64, from: nat, first: nat, default: nat)
    requires from <= |arms|
    ensures SwitchTo(SwitchTable(arms[from..], first + from), n, default) ==
      match FindValue(arms, n, from)
      case Some(i) => first + i
      case None => default
    decreases |arms| - from
  {
    if from < |arms| {
      TableTarget(arms, n, from + 1, first, default);
      var rest := arms[from..];
      assert rest[1..] == arms[from + 1..];
      if rest[0].tag.Value? {
        assert SwitchTable(rest, first + from)[1..] == SwitchTable(arms[from + 1..], first + from + 1);
      }
    }
  }

  /** The `switch` instruction goes where the semantics does. */
  lemma SwitchStep(f: Cfg, g: Gen, v: Operand, arms: seq<Arm>, merge: nat, k: Conf)
    requires At(k, g) && OperandVal(v, k.regs).Some? && OperandVal(v, k.regs).value.IntV?
    requires var default := DefaultBlock(LastDefault(arms), merge + 1, merge);
      Extends(Put(g, Instr.Switch(v, default, SwitchTable(arms, merge + 1))).blocks, f)
    ensures var t := SwitchTarget(arms, OperandVal(v, k.regs).value.n);
      Step(f, k) == Jump(k, if t.Some? then merge + 1 + t.value else merge)
  {
    var default := DefaultBlock(LastDefault(arms), merge + 1, merge);
    var n := OperandVal(v, k.regs).value.n;
    StepAt(f, g, Instr.Switch(v, default, SwitchTable(arms, merge + 1)), k);
    TableTarget(arms, n, 0, merge + 1, default);
    assert arms[0..] == arms;
  }

  lemma LandedWeaken(g: Gen, g1: Gen, m: nat, regs: Regs, r: SResult, fuel: nat, k: Conf, n: nat)
    requires Landed(g1, m, regs, r, fuel, k, n)
    requires g.next <= g1.next && g1.brk == g.brk && g1.cont == g.cont
    ensures Landed(g, m, regs, r, fuel, k, n)
  {
  }

  predicate EmptyBlocks(g: Gen, lo: nat, hi: nat) {
    hi <= |g.blocks| && forall b :: lo <= b < hi ==> g.blocks[b] == []
  }

  lemma EmptyLater(g: Gen, g1: Gen, lo: nat, hi: nat)
    requires EmptyBlocks(g, lo, hi) && Local(g, g1) && !(lo <= g.cur < hi)
    ensures EmptyBlocks(g1, lo, hi)
  {
  }

  /** From the head of case `t`'s block to the block where the cases meet. */
  lemma {:induction false} SimArms(f: Cfg, g: Gen, arms: seq<Arm>, from: nat, first: nat, merge: nat, t: nat, patterns: bool, c: Ctx, ret: Option<Ty>, env: Env, k: Conf, loop: bool, fuel: nat) returns (n: nat)
    requires g.cur < |g.blocks| && from <= t < |arms| && first + |arms| <= |g.blocks|
    requires Here(g, c, env, k) && k.blk == first + t && k.idx == 0 && Looping(g, loop)
    requires CheckArms(arms, patterns, c, ret)
    requires EmptyBlocks(g, first + from, first + |arms|)
    requires Extends(GenArms(g, arms, from, first, merge).blocks, f)
    ensures Landed(g, merge, k.regs, ExecSeq(arms[t].body, env, k.mem, loop, fuel), fuel, StepN(f, k, n), n)
    decreases fuel, arms, |arms| - from
  {
    hide Extends, Local, Bound, Known, Typed, NewVars, Agree, GenArm, ExecSeq, CheckSeq, Terminated;
    var g1 := PositionAt(g, first + from);
    var g2 := GenArm(g1, arms[from].body, merge);
    ExtendsTrans(g2.blocks, GenArms(g2, arms, from + 1, first, merge).blocks, f);
    if from == t {
      EmptyOpen(g1);
      n := SimArm(f, g1, arms[t].body, merge, c, ret, env, k, loop, fuel);
      LandedWeaken(g, g1, merge, k.regs, ExecSeq(arms[t].body, env, k.mem, loop, fuel), fuel, StepN(f, k, n), n);
    } else {
      ArmNames(g1, arms[from].body, merge, c, ret);
      Enter(g, g2, c, env, k);
      EmptyLater(g1, g2, first + from + 1, first + |arms|);
      n := SimArms(f, g2, arms, from + 1, first, merge, t, patterns, c, ret, env, k, loop, fuel);
      LandedWeaken(g, g2, merge, k.regs, ExecSeq(arms[t].body, env, k.mem, loop, fuel), fuel, StepN(f, k, n), n);
    }
  }

  lemma UnfoldSwitch(g: Gen, s: Stmt, c: Ctx, ret: Option<Ty>, env: Env, m: Mem, loop: bool, fuel: nat)
    requires s.Switch? && g.cur < |g.blocks| && !Terminated(g) && CheckStmt(s, c, ret).Some?
    ensures GenStmt(g, s) == GenSwitch(g, s)
    ensures CheckStmt(s, c, ret) == Some(c)
    ensures Type(s.e, c) == Some(TInt) && CheckArms(s.arms, false, c, ret)
    ensures ExecStmt(s, env, m, loop, fuel) ==
      match Eval(s.e, env, m)
      case EOk(IntV(n), m1) =>
        (match SwitchTarget(s.arms, n)
         case None => SOk(Normal, env, m1)
         case Some(i) => Leave(ExecSeq(s.arms[i].body, env, m1, loop, fuel), env))
      case _ => SWrong
  {
    hide Extends, Local, Terminated, GenSwitch, Eval, ExecSeq, Type, CheckSeq, SwitchTarget;
  }

  lemma SwitchShape(g: Gen, s: Stmt)
    requires s.Switch? && g.cur < |g.blocks|
    ensures var a := GenExpr(g, s.e);
      var merge, g1 := |a.g.blocks|, OpenArms(a, |s.arms|);
      var default := DefaultBlock(LastDefault(s.arms), merge + 1, merge);
      var g2 := Put(g1, Instr.Switch(a.val, default, SwitchTable(s.arms, merge + 1)));
      var g3 := GenArms(g2, s.arms, 0, merge + 1, merge);
      && Extends(a.g.blocks, g2.blocks) && Extends(g2.blocks, g3.blocks)
      && g1.blocks[g1.cur] == a.g.blocks[a.g.cur] && g1.cur == a.g.cur
      && GenSwitch(g, s) == PositionAt(g3, merge)
      && EmptyBlocks(g2, merge + 1, merge + 1 + |s.arms|)
      && g3.blocks[merge] == [] && g3.next >= a.g.next
      && Same(a.g, g2) && g2.next == a.g.next
  {
    hide Extends, GenExpr, GenArms;
    var a := GenExpr(g, s.e);
    var merge, g1 := |a.g.blocks|, OpenArms(a, |s.arms|);
    var default := DefaultBlock(LastDefault(s.arms), merge + 1, merge);
    var g2 := Put(g1, Instr.Switch(a.val, default, SwitchTable(s.arms, merge + 1)));
    ExtendsTrans(a.g.blocks, g1.blocks, g2.blocks);
  }

  lemma {:induction false} SimSwitch(f: Cfg, g: Gen, s: Stmt, c: Ctx, ret: Option<Ty>, env: Env, k: Conf, loop: bool, fuel: nat) returns (n: nat)
    requires Ready(g, c, env, k) && !Terminated(g) && Looping(g, loop) && s.Switch?
    requires CheckStmt(s, c, ret).Some?
    requires Extends(GenStmt(g, s).blocks, f)
    ensures StmtDone(g, GenStmt(g, s), k.regs, ExecStmt(s, env, k.mem, loop, fuel), fuel, StepN(f, k, n), n)
    decreases fuel, s, 1
  {
    hide Extends, Local, Bound, Known, Typed, NewVars, GenExpr, Eval, Type, Agree, GenArms, ExecSeq, CheckSeq, CheckArms, Terminated, SwitchTarget, LastDefault, SwitchTable, EmptyBlocks, GenStmt, ExecStmt, CheckStmt, GenSwitch, StepN;
    UnfoldSwitch(g, s, c, ret, env, k.mem, loop, fuel);
    SwitchShape(g, s);
    var a := GenExpr(g, s.e);
    var merge, g1 := |a.g.blocks|, OpenArms(a, |s.arms|);
    var default := DefaultBlock(LastDefault(s.arms), merge + 1, merge);
    var g2 := Put(g1, Instr.Switch(a.val, default, SwitchTable(s.arms, merge + 1)));
    var g3 := GenArms(g2, s.arms, 0, merge + 1, merge);
    ExtendsTrans(g2.blocks, g3.blocks, f);
    ExtendsTrans(a.g.blocks, g2.blocks, f);
    n := SimExpr.SimExpr(f, g, s.e, c, env, k);
    EvalTyped(s.e, c, env, k.mem);
    var r0 := Eval(s.e, env, k.mem);
    var r := ExecStmt(s, env, k.mem, loop, fuel);
    if r0.EOk? {
      HereAfter(g, c, env, k, StepN(f, k, n));
      SwitchStep(f, g1, a.val, s.arms, merge, StepN(f, k, n));
      StepAfter(f, k, n);
      n := n + 1;
      var k2 := StepN(f, k, n);
      var t := SwitchTarget(s.arms, r0.v.n);
      if t.Some? {
        HereMore(g, g2, c, env, k2);
        var n1 := SimArms(f, g2, s.arms, 0, merge + 1, merge, t.value, false, c, ret, env, k2, loop, fuel);
        LandedFrom(f, g, g2, merge, k, n, ExecSeq(s.arms[t.value].body, env, k2.mem, loop, fuel), fuel, n1);
        n := n + n1;
      }
    }
    SwitchNames(s, g, c, ret);
    TypedKeys(c, env, k.mem);
    Settle(g, GenSwitch(g, s), merge, c, env, k.regs, k.mem, r, fuel, StepN(f, k, n), n);
  }

  lemma HereAfter(g: Gen, c: Ctx, env: Env, k: Conf, k1: Conf)
    requires Here(g, c, env, k) && k1.Run? && Agree(g.next, k.regs, k1.regs) && Kept(k.mem, k1.mem)
    ensures Here(g, c, env, k1)
  {
    HereLater(g, c, env, k, k1);
  }

  /** The operand of a later test is still what it was. */
  lemma OperandLater(o: Operand, n: nat, regs: Regs, regs1: Regs)
    requires Below(o, n) && Agree(n, regs, regs1) && OperandVal(o, regs).Some?
    ensures OperandVal(o, regs1) == OperandVal(o, regs)
  {
  }

  /** One pattern's test gives what `Matches` says. */
  lemma SimPattern(f: Cfg, g: Gen, p: Pattern, v: Operand, w: Val, c: Ctx, env: Env, k: Conf) returns (n: nat)
    requires Ready(g, c, env, k) && CheckPattern(p, c)
    requires Below(v, g.next) && OperandVal(v, k.regs) == Some(w) && w.IntV?
    requires Extends(GenPattern(g, p, v).g.blocks, f)
    ensures ExprDone(g.next, GenPattern(g, p, v), k.regs, Matches(p, w, env, k.mem), StepN(f, k, n))
  {
    hide Extends, Local, Bound, Known, Typed, GenExpr, Eval, Type, Exec, Step;
    if p.PIn? {
      n := SimRangePattern(f, g, p, v, w, c, env, k);
    } else {
      var e := if p.PCmp? then p.right else p.e;
      var op := if p.PCmp? then OpCode(p.op) else OICmp(EQ);
      var a := GenExpr(g, e);
      ExtendsTrans(a.g.blocks, GenPattern(g, p, v).g.blocks, f);
      n := SimExpr.SimExpr(f, g, e, c, env, k);
      EvalTyped(e, c, env, k.mem);
      var r := Eval(e, env, k.mem);
      if r.EOk? {
        OperandLater(v, g.next, k.regs, StepN(f, k, n).regs);
        OpCodeCorrect(if p.PCmp? then p.op else Eq, w, r.v, TInt, TInt);
        BinStep(f, a.g, op, v, a.val, TBool, StepN(f, k, n));
        StepAfter(f, k, n);
        AgreeTrans(g.next, a.g.next, k.regs, StepN(f, k, n).regs, StepN(f, k, n + 1).regs) by {
          assert OpVal(op, w, r.v).Some?;
        }
        n := n + 1;
      }
    }
  }

  lemma SimRangePattern(f: Cfg, g: Gen, p: Pattern, v: Operand, w: Val, c: Ctx, env: Env, k: Conf) returns (n: nat)
    requires Ready(g, c, env, k) && CheckPattern(p, c) && p.PIn?
    requires Below(v, g.next) && OperandVal(v, k.regs) == Some(w) && w.IntV?
    requires Extends(GenPattern(g, p, v).g.blocks, f)
    ensures ExprDone(g.next, GenPattern(g, p, v), k.regs, Matches(p, w, env, k.mem), StepN(f, k, n))
  {
    hide Extends, Local, Bound, Known, Typed, GenExpr, Eval, Type, Exec, Step, Agree;
    var a := GenExpr(g, p.lo);
    var b := GenExpr(a.g, p.hi);
    var g3 := GenPattern(g, p, v).g;
    ExtendsTrans(b.g.blocks, g3.blocks, f);
    ExtendsTrans(a.g.blocks, b.g.blocks, f);
    n := SimExpr.SimExpr(f, g, p.lo, c, env, k);
    EvalTyped(p.lo, c, env, k.mem);
    var r1 := Eval(p.lo, env, k.mem);
    if r1.EOk? {
      var k1 := StepN(f, k, n);
      HereAfter(g, c, env, k, k1);
      HereMore(g, a.g, c, env, k1);
      var n1 := SimExpr.SimExpr(f, a.g, p.hi, c, env, k1);
      StepsAdd(f, k, n, n1);
      n := n + n1;
      EvalTyped(p.hi, c, env, k1.mem);
      var r2 := Eval(p.hi, env, k1.mem);
      if r2.EOk? {
        var k2 := StepN(f, k, n);
        AgreeTrans(g.next, a.g.next, k.regs, k1.regs, k2.regs);
        OperandLater(v, g.next, k.regs, k2.regs);
        OperandLater(a.val, a.g.next, k1.regs, k2.regs);
        InRange(f, g, b.g, a.val, b.val, v, w, r1.v, r2.v, k2);
        StepsAdd(f, k, n, 3);
        AgreeTrans(g.next, b.g.next, k.regs, k2.regs, StepN(f, k, n + 3).regs);
        n := n + 3;
      }
    }
  }

  lemma InRange(f: Cfg, g0: Gen, g: Gen, lo: Operand, hi: Operand, v: Operand, w: Val, a: Val, b: Val, k: Conf)
    requires At(k, g) && w.IntV? && a.IntV? && b.IntV?
    requires Below(v, g.next) && Below(lo, g.next) && Below(hi, g.next)
    requires OperandVal(v, k.regs) == Some(w) && OperandVal(lo, k.regs) == Some(a) && OperandVal(hi, k.regs) == Some(b)
    requires Extends(RangeTests(g, lo, hi, v).g.blocks, f)
    ensures ExprDone(g.next, RangeTests(g, lo, hi, v), k.regs, EOk(BoolV(w.n >= a.n && w.n < b.n), k.mem), StepN(f, k, 3))
  {
    hide Extends, Local, Step;
    var ge := Result(g, Bin(g.next, OICmp(SGE), v, lo), TBool);
    var lt := Result(ge.g, Bin(ge.g.next, OICmp(SLT), v, hi), TBool);
    var c := Result(lt.g, AndI1(lt.g.next, ge.val, lt.val), TBool);
    ExtendsTrans(lt.g.blocks, c.g.blocks, f);
    ExtendsTrans(ge.g.blocks, lt.g.blocks, f);
    StepAt(f, g, Bin(g.next, OICmp(SGE), v, lo), k);
    StepAfter(f, k, 0);
    StepAt(f, ge.g, Bin(ge.g.next, OICmp(SLT), v, hi), StepN(f, k, 1));
    StepAfter(f, k, 1);
    StepAt(f, lt.g, AndI1(lt.g.next, ge.val, lt.val), StepN(f, k, 2));
    StepAfter(f, k, 2);
  }

  /** Where the chain of tests has taken the machine. */
  predicate Picked(g: Gen, g1: Gen, first: nat, regs: Regs, r: PResult, k: Conf) {
    match r
    case PWrong => k.Trap?
    case PHit(i, m) => AtHead(k, m) && k.blk == first + i && Agree(g.next, regs, k.regs)
    case PNone(m) => At(k, g1) && k.mem == m && Agree(g.next, regs, k.regs)
  }

  lemma PickedFrom(f: Cfg, g: Gen, g1: Gen, g2: Gen, first: nat, k: Conf, n: nat, r: PResult, n1: nat)
    requires k.Run? && StepN(f, k, n).Run? && g.next <= g1.next
    requires Agree(g.next, k.regs, StepN(f, k, n).regs)
    requires Picked(g1, g2, first, StepN(f, k, n).regs, r, StepN(f, StepN(f, k, n), n1))
    ensures Picked(g, g2, first, k.regs, r, StepN(f, k, n + n1))
  {
    StepsAdd(f, k, n, n1);
  }

  lemma StepZero(f: Cfg, k: Conf)
    ensures StepN(f, k, 0) == k
  {
  }

  lemma {:induction false} SimChecks(f: Cfg, g: Gen, arms: seq<Arm>, from: nat, v: Operand, w: Val, first: nat, c: Ctx, ret: Option<Ty>, env: Env, k: Conf) returns (n: nat)
    requires Ready(g, c, env, k) && CheckArms(arms, true, c, ret)
    requires Below(v, g.next) && OperandVal(v, k.regs) == Some(w) && w.IntV?
    requires Extends(GenChecks(g, arms, from, v, first).blocks, f)
    ensures Picked(g, GenChecks(g, arms, from, v, first), first, k.regs, Pick(arms, from, w, env, k.mem), StepN(f, k, n))
    decreases |arms| - from
  {
    hide Extends, Local, Bound, Known, Typed, GenPattern, Matches, Agree, CheckSeq, CheckPattern, StepN;
    if from >= |arms| {
      n := 0;
      StepZero(f, k);
      AgreeSame(g.next, k.regs);
    } else if !arms[from].tag.Test? {
      n := SimChecks(f, g, arms, from + 1, v, w, first, c, ret, env, k);
    } else {
      var p := arms[from].tag.p;
      var t := GenPattern(g, p, v);
      var g1 := NextCheck(t, first + from);
      ExtendsTrans(g1.blocks, GenChecks(g1, arms, from + 1, v, first).blocks, f);
      ExtendsTrans(t.g.blocks, g1.blocks, f);
      n := SimPattern(f, g, p, v, w, c, env, k);
      MatchesTyped(p, w, c, env, k.mem);
      MatchesBool(p, w, c, env, k.mem);
      var r := Matches(p, w, env, k.mem);
      if r.EOk? {
        var k1 := StepN(f, k, n);
        HereAfter(g, c, env, k, k1);
        CondStep(f, Append(t.g, 1), t.val, first + from, |t.g.blocks|, k1);
        StepAfter(f, k, n);
        n := n + 1;
        if !r.v.b {
          var k2 := StepN(f, k, n);
          OperandLater(v, g.next, k.regs, k2.regs);
          HereMore(g, g1, c, env, k2);
          var n1 := SimChecks(f, g1, arms, from + 1, v, w, first, c, ret, env, k2);
          PickedFrom(f, g, g1, GenChecks(g1, arms, from + 1, v, first), first, k, n, Pick(arms, from + 1, w, env, k2.mem), n1);
          n := n + n1;
        }
      }
    }
  }

  lemma AgreeSame(n: nat, regs: Regs)
    ensures Agree(n, regs, regs)
  {
  }

  lemma MatchesBool(p: Pattern, w: Val, c: Ctx, env: Env, m: Mem)
    requires Typed(c, env, m) && CheckPattern(p, c)
    ensures var r := Matches(p, w, env, m); r.EOk? ==> r.v.BoolV?
  {
    hide Typed, Eval, Type;
  }

  /** The case a `match` ends up in, with the memory its tests leave. */
  function MatchTarget(s: Stmt, env: Env, m: Mem): (r: PResult)
    requires s.Match?
    ensures r.PHit? ==> r.i < |s.arms|
  {
    match Eval(s.e, env, m)
    case EWrong => PWrong
    case EOk(v, m1) =>
      match Pick(s.arms, 0, v, env, m1)
      case PNone(m2) =>
        (match LastDefault(s.arms)
         case None => PNone(m2)
         case Some(i) => PHit(i, m2))
      case r => r
  }

  lemma UnfoldMatch(g: Gen, s: Stmt, c: Ctx, ret: Option<Ty>, env: Env, m: Mem, loop: bool, fuel: nat)
    requires s.Match? && g.cur < |g.blocks| && !Terminated(g) && CheckStmt(s, c, ret).Some?
    ensures GenStmt(g, s) == GenMatch(g, s)
    ensures CheckStmt(s, c, ret) == Some(c)
    ensures Type(s.e, c) == Some(TInt) && CheckArms(s.arms, true, c, ret)
    ensures ExecStmt(s, env, m, loop, fuel) ==
      match MatchTarget(s, env, m)
      case PWrong => SWrong
      case PHit(i, m1) => Leave(ExecSeq(s.arms[i].body, env, m1, loop, fuel), env)
      case PNone(m1) => SOk(Normal, env, m1)
  {
    hide Extends, Local, Terminated, GenMatch, Eval, ExecSeq, Type, CheckSeq, Pick, LastDefault;
  }

  lemma MatchShape(g: Gen, s: Stmt)
    requires s.Match? && g.cur < |g.blocks|
    ensures var a := GenExpr(g, s.e);
      var merge, g1 := |a.g.blocks|, OpenArms(a, |s.arms|);
      var g2 := GenChecks(g1, s.arms, 0, a.val, merge + 1);
      var g3 := Put(g2, Br(DefaultBlock(LastDefault(s.arms), merge + 1, merge)));
      var g4 := GenArms(g3, s.arms, 0, merge + 1, merge);
      && Extends(a.g.blocks, g1.blocks) && Extends(g1.blocks, g2.blocks) && Extends(g2.blocks, g3.blocks) && Extends(g3.blocks, g4.blocks)
      && g1.blocks[g1.cur] == a.g.blocks[a.g.cur] && g1.cur == a.g.cur && Same(a.g, g1) && g1.next == a.g.next
      && GenMatch(g, s) == PositionAt(g4, merge)
      && EmptyBlocks(g3, merge + 1, merge + 1 + |s.arms|)
      && g4.blocks[merge] == [] && Same(g1, g3) && g3.next == g2.next && g1.next <= g2.next <= g4.next
  {
    hide Extends, GenExpr, GenArms, GenChecks, LastDefault;
    var a := GenExpr(g, s.e);
    var merge, g1 := |a.g.blocks|, OpenArms(a, |s.arms|);
    var g2 := GenChecks(g1, s.arms, 0, a.val, merge + 1);
    var g3 := Put(g2, Br(DefaultBlock(LastDefault(s.arms), merge + 1, merge)));
    assert EmptyBlocks(g1, merge, merge + 1 + |s.arms|);
    EmptyLater(g1, g2, merge, merge + 1 + |s.arms|);
    EmptyLater(g2, g3, merge, merge + 1 + |s.arms|);
  }

  /** From the start of a `match` to the head of the block it selects. */
  lemma SimMatchHead(f: Cfg, g: Gen, s: Stmt, c: Ctx, ret: Option<Ty>, env: Env, k: Conf) returns (n: nat)
    requires Ready(g, c, env, k) && s.Match?
    requires Type(s.e, c) == Some(TInt) && CheckArms(s.arms, true, c, ret)
    requires Extends(GenMatch(g, s).blocks, f)
    ensures var merge, t, k1 := |GenExpr(g, s.e).g.blocks|, MatchTarget(s, env, k.mem), StepN(f, k, n);
      if t.PWrong? then k1.Trap? else
        && AtHead(k1, t.mem) && k1.blk == (if t.PHit? then merge + 1 + t.i else merge)
        && Agree(g.next, k.regs, k1.regs) && Here(g, c, env, k1)
  {
    hide Extends, Local, Bound, Known, Typed, NewVars, GenExpr, Eval, Type, Agree, GenArms, GenChecks, CheckArms, Terminated, Pick, LastDefault, EmptyBlocks, GenMatch, NextCheck, Landed, StepN, Emits, StmtDone, Put;
    MatchShape(g, s);
    var a := GenExpr(g, s.e);
    var merge, g1 := |a.g.blocks|, OpenArms(a, |s.arms|);
    var g2 := GenChecks(g1, s.arms, 0, a.val, merge + 1);
    var default := DefaultBlock(LastDefault(s.arms), merge + 1, merge);
    var g3 := Put(g2, Br(default));
    ExtendsTrans(g3.blocks, GenMatch(g, s).blocks, f);
    ExtendsTrans(g2.blocks, g3.blocks, f);
    ExtendsTrans(g1.blocks, g2.blocks, f);
    ExtendsTrans(a.g.blocks, g1.blocks, f);
    n := SimExpr.SimExpr(f, g, s.e, c, env, k);
    EvalTyped(s.e, c, env, k.mem);
    var r0 := Eval(s.e, env, k.mem);
    if r0.EOk? {
      var k1 := StepN(f, k, n);
      HereAfter(g, c, env, k, k1);
      HereMore(g, g1, c, env, k1);
      var n1 := SimChecks(f, g1, s.arms, 0, a.val, r0.v, merge + 1, c, ret, env, k1);
      PickedFrom(f, g, g1, g2, merge + 1, k, n, Pick(s.arms, 0, r0.v, env, k1.mem), n1);
      n := n + n1;
      PickTyped(s.arms, 0, r0.v, c, ret, env, k1.mem);
      var p := Pick(s.arms, 0, r0.v, env, k1.mem);
      if !p.PWrong? {
        KeptTrans(k.mem, k1.mem, p.mem);
        if p.PNone? {
          BrStep(f, g2, default, StepN(f, k, n));
          StepAfter(f, k, n);
          n := n + 1;
        }
        HereAfter(g, c, env, k, StepN(f, k, n));
      }
    }
  }

  lemma {:induction false} SimMatch(f: Cfg, g: Gen, s: Stmt, c: Ctx, ret: Option<Ty>, env: Env, k: Conf, loop: bool, fuel: nat) returns (n: nat)
    requires Ready(g, c, env, k) && !Terminated(g) && Looping(g, loop) && s.Match?
    requires CheckStmt(s, c, ret).Some?
    requires Extends(GenStmt(g, s).blocks, f)
    ensures StmtDone(g, GenStmt(g, s), k.regs, ExecStmt(s, env, k.mem, loop, fuel), fuel, StepN(f, k, n), n)
    decreases fuel, s, 1
  {
    hide Extends, Local, Bound, Known, Typed, NewVars, GenExpr, Eval, Type, Agree, GenArms, GenChecks, ExecSeq, CheckSeq, CheckArms, Terminated, LastDefault, EmptyBlocks, GenStmt, ExecStmt, CheckStmt, GenMatch, MatchTarget, Pick;
    UnfoldMatch(g, s, c, ret, env, k.mem, loop, fuel);
    MatchShape(g, s);
    var a := GenExpr(g, s.e);
    var merge, g1 := |a.g.blocks|, OpenArms(a, |s.arms|);
    var g2 := GenChecks(g1, s.arms, 0, a.val, merge + 1);
    var g3 := Put(g2, Br(DefaultBlock(LastDefault(s.arms), merge + 1, merge)));
    n := SimMatchHead(f, g, s, c, ret, env, k);
    var k1 := StepN(f, k, n);
    var t := MatchTarget(s, env, k.mem);
    if t.PHit? {
      HereMore(g, g3, c, env, k1);
      var n1 := SimArms(f, g3, s.arms, 0, merge + 1, merge, t.i, true, c, ret, env, k1, loop, fuel);
      LandedFrom(f, g, g3, merge, k, n, ExecSeq(s.arms[t.i].body, env, k1.mem, loop, fuel), fuel, n1);
      n := n + n1;
    }
    MatchNames(s, g, c, ret);
    TypedKeys(c, env, k.mem);
    Settle(g, GenMatch(g, s), merge, c, env, k.regs, k.mem, ExecStmt(s, env, k.mem, loop, fuel), fuel, StepN(f, k, n), n);
  }

  /** Where a loop's body has taken the machine: on to `cont`, out to `brk`, or away. */
  predicate BodyDone(g: Gen, brk: nat, cont: nat, regs: Regs, r: SResult, fuel: nat, k: Conf, n: nat) {
    match r
    case STimeout => k.Run? && n >= fuel
    case SWrong => k.Trap?
    case SOk(Returned(v), _, mem) => k == Done(v, mem)
    case SOk(o, _, mem) =>
      AtHead(k, mem) && Agree(g.next, regs, k.regs) && k.blk == (if o.Broke? then brk else cont)
  }

  lemma BodyBlocks(g: Gen, body: seq<Stmt>, brk: nat, cont: nat)
    requires g.cur < |g.blocks|
    ensures GenBody(g, body, brk, cont).blocks == GenArm(WithTargets(g, Some(brk), Some(cont)), body, cont).blocks
  {
    hide Extends, Local, GenSeq;
  }

  lemma {:induction false} SimBody(f: Cfg, g: Gen, body: seq<Stmt>, brk: nat, cont: nat, c: Ctx, ret: Option<Ty>, env: Env, k: Conf, fuel: nat) returns (n: nat)
    requires Ready(g, c, env, k) && !Terminated(g)
    requires Checked(body, c, ret)
    requires Extends(GenBody(g, body, brk, cont).blocks, f)
    ensures var r, k1 := ExecSeq(body, env, k.mem, true, fuel), StepN(f, k, n);
      && BodyDone(g, brk, cont, k.regs, r, fuel, k1, n)
      && (r.SOk? && !r.o.Returned? ==> Here(g, c, env, k1))
    decreases fuel, body, 2
  {
    hide Extends, Local, Bound, Known, Typed, GenArm, GenBody, ExecSeq, CheckSeq, RunTyped, MemTyped, Grown;
    var g1 := WithTargets(g, Some(brk), Some(cont));
    BodyBlocks(g, body, brk, cont);
    n := SimArm(f, g1, body, cont, c, ret, env, k, true, fuel);
    BodyTyped(body, c, ret, env, k.mem, fuel);
    var r := ExecSeq(body, env, k.mem, true, fuel);
    if r.SOk? && !r.o.Returned? {
      TypedKeys(c, env, r.mem);
      HereLater(g, c, env, k, StepN(f, k, n));
    }
  }

  lemma UnfoldWhile(g: Gen, s: Stmt, c: Ctx, ret: Option<Ty>, env: Env, m: Mem, loop: bool, fuel: nat)
    requires s.While? && g.cur < |g.blocks| && !Terminated(g) && CheckStmt(s, c, ret).Some?
    ensures GenStmt(g, s) == GenWhile(g, s)
    ensures CheckStmt(s, c, ret) == Some(c)
    ensures Type(s.cond, c) == Some(TBool) && Checked(s.body, c, ret)
    ensures ExecStmt(s, env, m, loop, fuel) == ExecWhile(s.cond, s.body, env, m, fuel)
  {
    hide Extends, Local, Terminated, GenWhile, ExecWhile, Type, CheckSeq;
  }

  lemma WhileShape(g: Gen, s: Stmt)
    requires s.While? && g.cur < |g.blocks|
    ensures var cond, body, end := |g.blocks|, |g.blocks| + 1, |g.blocks| + 2;
      var g0 := OpenLoop(g, 3);
      var g1 := Seal(g0, Br(cond), cond);
      var a := GenExpr(g1, s.cond);
      var g2 := Seal(a.g, CondBr(a.val, body, end), body);
      var g3 := GenBody(g2, s.body, end, cond);
      && GenWhile(g, s) == PositionAt(g3, end)
      && Extends(g1.blocks, a.g.blocks) && Extends(a.g.blocks, g2.blocks) && Extends(g2.blocks, g3.blocks)
      && g1.blocks[cond] == [] && g2.blocks[body] == [] && g3.blocks[end] == []
  {
    hide Extends, GenExpr, GenBody;
  }

  lemma WhileOrder(g: Gen, s: Stmt)
    requires s.While? && g.cur < |g.blocks|
    ensures var cond, body, end := |g.blocks|, |g.blocks| + 1, |g.blocks| + 2;
      var g0 := OpenLoop(g, 3);
      var g1 := Seal(g0, Br(cond), cond);
      var a := GenExpr(g1, s.cond);
      var g2 := Seal(a.g, CondBr(a.val, body, end), body);
      var g3 := GenBody(g2, s.body, end, cond);
      && g2.blocks == Put(Append(a.g, 0), CondBr(a.val, body, end)).blocks
      && g1.blocks == Put(g0, Br(cond)).blocks && g0.blocks[g.cur] == g.blocks[g.cur] && g0.cur == g.cur
      && Same(g, g1) && Same(g, g2) && g1.next == g.next && g2.next == a.g.next && g1.next <= g2.next <= g3.next
  {
    hide Extends, Local, GenExpr, GenBody, Append, Put, OpenLoop, Seal;
    var cond, body, end := |g.blocks|, |g.blocks| + 1, |g.blocks| + 2;
    LoopEntry(g, 3, cond);
    var g1 := Seal(OpenLoop(g, 3), Br(cond), cond);
    var a := GenExpr(g1, s.cond);
    SealAppend(a.g, CondBr(a.val, body, end), body);
  }

  /** The loop from the head of its condition block, once for each unit of fuel. */
  lemma {:induction false} WhileRun(f: Cfg, g: Gen, s: Stmt, c: Ctx, ret: Option<Ty>, env: Env, k: Conf, fuel: nat) returns (n: nat)
    requires s.While? && g.cur < |g.blocks|
    requires Here(g, c, env, k) && k.blk == |g.blocks| && k.idx == 0
    requires Type(s.cond, c) == Some(TBool) && Checked(s.body, c, ret)
    requires Extends(GenWhile(g, s).blocks, f)
    ensures Landed(g, |g.blocks| + 2, k.regs, ExecWhile(s.cond, s.body, env, k.mem, fuel), fuel, StepN(f, k, n), n)
    decreases fuel, s.body, 3
  {
    hide Extends, Local, Bound, Known, Typed, GenExpr, Eval, Type, Agree, GenBody, GenWhile, ExecSeq, CheckSeq, Terminated;
    n := 0;
    if fuel > 0 {
      WhileShape(g, s);
      WhileOrder(g, s);
      var cond, body, end := |g.blocks|, |g.blocks| + 1, |g.blocks| + 2;
      var g1 := Seal(OpenLoop(g, 3), Br(cond), cond);
      var a := GenExpr(g1, s.cond);
      var g2 := Seal(a.g, CondBr(a.val, body, end), body);
      ExtendsTrans(g2.blocks, GenWhile(g, s).blocks, f);
      HereMore(g, g1, c, env, k);
      n := SimTest(f, g1, s.cond, 0, body, end, c, env, k);
      var k1 := StepN(f, k, n);
      var r := Eval(s.cond, env, k.mem);
      if r.EOk? && r.v.b {
        HereMore(g1, g2, c, env, k1);
        EmptyOpen(g2);
        var n1 := SimBody(f, g2, s.body, end, cond, c, ret, env, k1, fuel - 1);
        n := WhileNext(f, g, g1, g2, s, c, ret, env, k, n, n1, fuel);
      }
    }
  }

  /** After the body: around again, or out. */
  lemma {:induction false} WhileNext(f: Cfg, g: Gen, g1: Gen, g2: Gen, s: Stmt, c: Ctx, ret: Option<Ty>, env: Env, k: Conf, n0: nat, n1: nat, fuel: nat) returns (n: nat)
    requires s.While? && g.cur < |g.blocks| && fuel > 0 && n0 >= 1
    requires Here(g, c, env, k)
    requires Type(s.cond, c) == Some(TBool) && Checked(s.body, c, ret)
    requires Extends(GenWhile(g, s).blocks, f)
    requires g1.next == g.next <= g2.next && g1.vars == g.vars == g2.vars
    requires var r, k1 := Eval(s.cond, env, k.mem), StepN(f, k, n0);
      && r.EOk? && r.v == BoolV(true) && k1.Run? && k1.mem == r.mem && Agree(g.next, k.regs, k1.regs)
      && var b, k2 := ExecSeq(s.body, env, k1.mem, true, fuel - 1), StepN(f, k1, n1);
         (BodyDone(g2, |g.blocks| + 2, |g.blocks|, k1.regs, b, fuel - 1, k2, n1)
          && (b.SOk? && !b.o.Returned? ==> Here(g2, c, env, k2)))
    ensures Landed(g, |g.blocks| + 2, k.regs, ExecWhile(s.cond, s.body, env, k.mem, fuel), fuel, StepN(f, k, n), n)
    decreases fuel, s.body, 0
  {
    hide Extends, Local, Bound, Known, Typed, GenExpr, Eval, Type, GenBody, GenWhile, ExecSeq, CheckSeq;
    StepsAdd(f, k, n0, n1);
    n := n0 + n1;
    var b := ExecSeq(s.body, env, StepN(f, k, n0).mem, true, fuel - 1);
    if b.SOk? && (b.o.Normal? || b.o.Continued?) {
      var k2 := StepN(f, k, n);
      HereBack(g, g2, c, env, k, k2);
      var n2 := WhileRun(f, g, s, c, ret, env, k2, fuel - 1);
      LandedFrom(f, g, g, |g.blocks| + 2, k, n, ExecWhile(s.cond, s.body, env, k2.mem, fuel - 1), fuel - 1, n2);
      n := n + n2;
    }
  }

  /** Registers below `g.next` are untouched, so the scope of `g` still fits. */
  lemma HereBack(g: Gen, g1: Gen, c: Ctx, env: Env, k: Conf, k1: Conf)
    requires Here(g, c, env, k) && k1.Run? && Agree(g.next, k.regs, k1.regs) && Here(g1, c, env, k1)
    ensures Here(g, c, env, k1)
  {
    BoundLater(g.vars, g.next, g.next, env, k.regs, k1.regs);
  }

  lemma {:induction false} SimWhile(f: Cfg, g: Gen, s: Stmt, c: Ctx, ret: Option<Ty>, env: Env, k: Conf, loop: bool, fuel: nat) returns (n: nat)
    requires Ready(g, c, env, k) && !Terminated(g) && Looping(g, loop) && s.While?
    requires CheckStmt(s, c, ret).Some?
    requires Extends(GenStmt(g, s).blocks, f)
    ensures StmtDone(g, GenStmt(g, s), k.regs, ExecStmt(s, env, k.mem, loop, fuel), fuel, StepN(f, k, n), n)
    decreases fuel, s, 1
  {
    hide Extends, Local, Bound, Known, Typed, NewVars, GenExpr, Type, GenBody, ExecWhile, CheckSeq, GenStmt, ExecStmt, CheckStmt, GenWhile;
    UnfoldWhile(g, s, c, ret, env, k.mem, loop, fuel);
    WhileShape(g, s);
    WhileOrder(g, s);
    var cond, end := |g.blocks|, |g.blocks| + 2;
    var g0 := OpenLoop(g, 3);
    var g1 := Seal(g0, Br(cond), cond);
    var a := GenExpr(g1, s.cond);
    var g2 := Seal(a.g, CondBr(a.val, |g.blocks| + 1, end), |g.blocks| + 1);
    ExtendsTrans(g2.blocks, GenWhile(g, s).blocks, f);
    ExtendsTrans(a.g.blocks, g2.blocks, f);
    ExtendsTrans(g1.blocks, a.g.blocks, f);
    BrStep(f, g0, cond, k);
    StepAfter(f, k, 0);
    var k1 := StepN(f, k, 1);
    var n1 := WhileRun(f, g, s, c, ret, env, k1, fuel);
    LandedFrom(f, g, g, end, k, 1, ExecWhile(s.cond, s.body, env, k1.mem, fuel), fuel, n1);
    n := 1 + n1;
    WhileNames(s, g, c, ret);
    TypedKeys(c, env, k.mem);
    WhileEnv(s, env, k.mem, fuel);
    Settle(g, GenWhile(g, s), end, c, env, k.regs, k.mem, ExecWhile(s.cond, s.body, env, k.mem, fuel), fuel, StepN(f, k, n), n);
  }

  /** A loop gives back the environment it was given. */
  lemma {:induction false} WhileEnv(s: Stmt, env: Env, m: Mem, fuel: nat)
    requires s.While?
    ensures var r := ExecWhile(s.cond, s.body, env, m, fuel); r.SOk? ==> r.env == env
    decreases fuel
  {
    hide Eval, ExecSeq;
    if fuel > 0 {
      var a := Eval(s.cond, env, m);
      if a.EOk? {
        var b := ExecSeq(s.body, env, a.mem, true, fuel - 1);
        if b.SOk? { WhileEnv(s, env, b.mem, fuel - 1); }
      }
    }
  }

  lemma UnfoldDoWhile(g: Gen, s: Stmt, c: Ctx, ret: Option<Ty>, env: Env, m: Mem, loop: bool, fuel: nat)
    requires s.DoWhile? && g.cur < |g.blocks| && !Terminated(g) && CheckStmt(s, c, ret).Some?
    ensures GenStmt(g, s) == GenDoWhile(g, s)
    ensures CheckStmt(s, c, ret) == Some(c)
    ensures Type(s.cond, c) == Some(TBool) && Checked(s.body, c, ret)
    ensures ExecStmt(s, env, m, loop, fuel) == ExecDoWhile(s.body, s.cond, env, m, fuel)
  {
    hide Extends, Local, Terminated, GenDoWhile, ExecDoWhile, Type, CheckSeq;
  }

  lemma DoWhileShape(g: Gen, s: Stmt)
    requires s.DoWhile? && g.cur < |g.blocks|
    ensures var body, cond, end := |g.blocks|, |g.blocks| + 1, |g.blocks| + 2;
      var g0 := OpenLoop(g, 3);
      var g1 := Seal(g0, Br(body), body);
      var g2 := GenBody(g1, s.body, end, cond);
      var g3 := PositionAt(g2, cond);
      var a := GenExpr(g3, s.cond);
      && GenDoWhile(g, s) == Seal(a.g, CondBr(a.val, body, end), end)
      && Extends(g1.blocks, g2.blocks) && Extends(g2.blocks, a.g.blocks) && Extends(a.g.blocks, GenDoWhile(g, s).blocks)
  {
    hide Extends, GenExpr, GenBody;
  }

  lemma DoWhileBlocks(g: Gen, s: Stmt)
    requires s.DoWhile? && g.cur < |g.blocks|
    ensures var body, cond, end := |g.blocks|, |g.blocks| + 1, |g.blocks| + 2;
      var g0 := OpenLoop(g, 3);
      var g1 := Seal(g0, Br(body), body);
      var g2 := GenBody(g1, s.body, end, cond);
      var g3 := PositionAt(g2, cond);
      var a := GenExpr(g3, s.cond);
      && g1.blocks[body] == [] && g3.blocks[cond] == [] && GenDoWhile(g, s).blocks[end] == []
  {
    hide Extends, GenExpr, GenBody;
  }

  lemma SealAppend(g: Gen, i: Instr, b: nat)
    requires g.cur < |g.blocks| && b < |g.blocks|
    ensures Seal(g, i, b).blocks == Put(Append(g, 0), i).blocks && Seal(g, i, b).next == g.next
  {
    assert Append(g, 0).blocks == g.blocks;
  }

  lemma LoopEntry(g: Gen, n: nat, b: nat)
    requires g.cur < |g.blocks| && b < |g.blocks| + n
    ensures var g0 := OpenLoop(g, n);
      var g1 := Seal(g0, Br(b), b);
      && g1.blocks == Put(g0, Br(b)).blocks && g0.blocks[g.cur] == g.blocks[g.cur] && g0.cur == g.cur
      && Same(g, g1) && g1.next == g.next
  {
    hide Extends, Local;
  }

  /** The body of a `do` loop, emitted. */
  function DoBody(g: Gen, s: Stmt): (g2: Gen)
    requires s.DoWhile? && g.cur < |g.blocks|
    ensures |g.blocks| + 3 <= |g2.blocks| && g.next <= g2.next
  {
    hide Extends, Local, GenBody;
    GenBody(Seal(OpenLoop(g, 3), Br(|g.blocks|), |g.blocks|), s.body, |g.blocks| + 2, |g.blocks| + 1)
  }

  /** Then its test. */
  function DoTest(g: Gen, s: Stmt): (a: Code)
    requires s.DoWhile? && g.cur < |g.blocks|
    ensures |g.blocks| + 3 <= |a.g.blocks| && a.g.cur < |a.g.blocks| && DoBody(g, s).next <= a.g.next
  {
    hide Extends, Local, DoBody, GenExpr;
    GenExpr(PositionAt(DoBody(g, s), |g.blocks| + 1), s.cond)
  }

  lemma DoWhileIs(g: Gen, s: Stmt)
    requires s.DoWhile? && g.cur < |g.blocks|
    ensures GenDoWhile(g, s) == Seal(DoTest(g, s).g, CondBr(DoTest(g, s).val, |g.blocks|, |g.blocks| + 2), |g.blocks| + 2)
  {
    hide Extends, Local, GenExpr, GenBody, Append, Put, OpenLoop, Seal;
  }

  lemma DoWhileOrder(g: Gen, s: Stmt)
    requires s.DoWhile? && g.cur < |g.blocks|
    ensures var body, end := |g.blocks|, |g.blocks| + 2;
      var g0 := OpenLoop(g, 3);
      var g1 := Seal(g0, Br(body), body);
      var g2, a := DoBody(g, s), DoTest(g, s);
      && GenDoWhile(g, s).blocks == Put(Append(a.g, 0), CondBr(a.val, body, end)).blocks
      && g1.blocks == Put(g0, Br(body)).blocks && g0.blocks[g.cur] == g.blocks[g.cur] && g0.cur == g.cur
      && Same(g, g1) && g1.next == g.next <= g2.next && g2.next <= GenDoWhile(g, s).next
  {
    DoWhileIs(g, s);
    hide Extends, Local, GenExpr, GenBody, Append, Put, OpenLoop, Seal, GenDoWhile, Grew, Same, DoBody, DoTest;
    LoopEntry(g, 3, |g.blocks|);
    var a := DoTest(g, s);
    SealAppend(a.g, CondBr(a.val, |g.blocks|, |g.blocks| + 2), |g.blocks| + 2);
  }

  /** The loop from the head of its body; the jump that brought control there already stands
      for one unit of fuel. */
  lemma {:induction false} DoRun(f: Cfg, g: Gen, s: Stmt, c: Ctx, ret: Option<Ty>, env: Env, k: Conf, fuel: nat) returns (n: nat)
    requires s.DoWhile? && g.cur < |g.blocks|
    requires Here(g, c, env, k) && k.blk == |g.blocks| && k.idx == 0
    requires Type(s.cond, c) == Some(TBool) && Checked(s.body, c, ret)
    requires Extends(GenDoWhile(g, s).blocks, f)
    ensures Landed(g, |g.blocks| + 2, k.regs, ExecDoWhile(s.body, s.cond, env, k.mem, fuel), if fuel == 0 then 0 else fuel - 1, StepN(f, k, n), n)
    decreases fuel, s.body, 3
  {
    hide Extends, Local, Bound, Known, Typed, GenExpr, Type, Agree, GenBody, GenDoWhile, ExecSeq, CheckSeq, Terminated;
    n := 0;
    if fuel > 0 {
      DoWhileShape(g, s);
      DoWhileBlocks(g, s);
      DoWhileOrder(g, s);
      var body, cond, end := |g.blocks|, |g.blocks| + 1, |g.blocks| + 2;
      var g1 := Seal(OpenLoop(g, 3), Br(body), body);
      var g2 := GenBody(g1, s.body, end, cond);
      var a := GenExpr(PositionAt(g2, cond), s.cond);
      ExtendsTrans(a.g.blocks, GenDoWhile(g, s).blocks, f);
      ExtendsTrans(g2.blocks, a.g.blocks, f);
      HereMore(g, g1, c, env, k);
      EmptyOpen(g1);
      n := SimBody(f, g1, s.body, end, cond, c, ret, env, k, fuel - 1);
      var b := ExecSeq(s.body, env, k.mem, true, fuel - 1);
      if b.SOk? && (b.o.Normal? || b.o.Continued?) {
        n := DoNext(f, g, s, c, ret, env, k, n, fuel);
      }
    }
  }

  lemma {:induction false} DoNext(f: Cfg, g: Gen, s: Stmt, c: Ctx, ret: Option<Ty>, env: Env, k: Conf, n0: nat, fuel: nat) returns (n: nat)
    requires s.DoWhile? && g.cur < |g.blocks| && fuel > 0
    requires Here(g, c, env, k)
    requires Type(s.cond, c) == Some(TBool) && Checked(s.body, c, ret)
    requires Extends(GenDoWhile(g, s).blocks, f)
    requires var b, k1 := ExecSeq(s.body, env, k.mem, true, fuel - 1), StepN(f, k, n0);
      && b.SOk? && (b.o.Normal? || b.o.Continued?)
      && AtHead(k1, b.mem) && k1.blk == |g.blocks| + 1 && Agree(g.next, k.regs, k1.regs)
      && Here(Seal(OpenLoop(g, 3), Br(|g.blocks|), |g.blocks|), c, env, k1)
    ensures Landed(g, |g.blocks| + 2, k.regs, ExecDoWhile(s.body, s.cond, env, k.mem, fuel), fuel - 1, StepN(f, k, n), n)
    decreases fuel, s.body, 0
  {
    hide Extends, Local, Bound, Known, Typed, NewVars, GenExpr, Type, Agree, GenBody, GenDoWhile, ExecSeq, CheckSeq, Eval;
    DoWhileShape(g, s);
    DoWhileBlocks(g, s);
    DoWhileOrder(g, s);
    var body, cond, end := |g.blocks|, |g.blocks| + 1, |g.blocks| + 2;
    var g1 := Seal(OpenLoop(g, 3), Br(body), body);
    var g2 := GenBody(g1, s.body, end, cond);
    var g3 := PositionAt(g2, cond);
    var k1 := StepN(f, k, n0);
    BodyNames(g1, s.body, end, cond, c, ret);
    Enter(g1, g3, c, env, k1);
    n := SimTest(f, g3, s.cond, 0, body, end, c, env, k1);
    StepsAdd(f, k, n0, n);
    var r := Eval(s.cond, env, k1.mem);
    if r.EOk? {
      var k2 := StepN(f, k, n0 + n);
      AgreeTrans(g.next, g3.next, k.regs, k1.regs, k2.regs);
      HereBack(g, g3, c, env, k, k2);
      if r.v.b {
        var n2 := DoRun(f, g, s, c, ret, env, k2, fuel - 1);
        LandedFrom(f, g, g, end, k, n0 + n, ExecDoWhile(s.body, s.cond, env, k2.mem, fuel - 1), if fuel == 1 then 0 else fuel - 2, n2);
        n := n0 + n + n2;
      } else {
        n := n0 + n;
      }
    } else {
      n := n0 + n;
    }
  }

  lemma {:induction false} SimDoWhile(f: Cfg, g: Gen, s: Stmt, c: Ctx, ret: Option<Ty>, env: Env, k: Conf, loop: bool, fuel: nat) returns (n: nat)
    requires Ready(g, c, env, k) && !Terminated(g) && Looping(g, loop) && s.DoWhile?
    requires CheckStmt(s, c, ret).Some?
    requires Extends(GenStmt(g, s).blocks, f)
    ensures StmtDone(g, GenStmt(g, s), k.regs, ExecStmt(s, env, k.mem, loop, fuel), fuel, StepN(f, k, n), n)
    decreases fuel, s, 1
  {
    hide Extends, Local, Bound, Known, Typed, NewVars, GenExpr, Type, GenBody, ExecDoWhile, CheckSeq, GenStmt, ExecStmt, CheckStmt, GenDoWhile;
    UnfoldDoWhile(g, s, c, ret, env, k.mem, loop, fuel);
    DoWhileShape(g, s);
    DoWhileBlocks(g, s);
    DoWhileOrder(g, s);
    var body, cond, end := |g.blocks|, |g.blocks| + 1, |g.blocks| + 2;
    var g0 := OpenLoop(g, 3);
    var g1 := Seal(g0, Br(body), body);
    var g2 := GenBody(g1, s.body, end, cond);
    var a := GenExpr(PositionAt(g2, cond), s.cond);
    ExtendsTrans(a.g.blocks, GenDoWhile(g, s).blocks, f);
    ExtendsTrans(g2.blocks, a.g.blocks, f);
    ExtendsTrans(g1.blocks, g2.blocks, f);
    BrStep(f, g0, body, k);
    StepAfter(f, k, 0);
    var k1 := StepN(f, k, 1);
    var n1 := DoRun(f, g, s, c, ret, env, k1, fuel);
    LandedFrom(f, g, g, end, k, 1, ExecDoWhile(s.body, s.cond, env, k1.mem, fuel), if fuel == 0 then 0 else fuel - 1, n1);
    n := 1 + n1;
    DoWhileNames(s, g, c, ret);
    TypedKeys(c, env, k.mem);
    DoWhileEnv(s, env, k.mem, fuel);
    Settle(g, GenDoWhile(g, s), end, c, env, k.regs, k.mem, ExecDoWhile(s.body, s.cond, env, k.mem, fuel), fuel, StepN(f, k, n), n);
  }

  lemma {:induction false} DoWhileEnv(s: Stmt, env: Env, m: Mem, fuel: nat)
    requires s.DoWhile?
    ensures var r := ExecDoWhile(s.body, s.cond, env, m, fuel); r.SOk? ==> r.env == env
    decreases fuel
  {
    hide Eval, ExecSeq;
    if fuel > 0 {
      var b := ExecSeq(s.body, env, m, true, fuel - 1);
      if b.SOk? {
        var a := Eval(s.cond, env, b.mem);
        if a.EOk? { DoWhileEnv(s, env, a.mem, fuel - 1); }
      }
    }
  }

  /** What a range loop starts its iterations with. */
  datatype Start = NoStart | Start(a: nat, hi: Val, env: Env, mem: Mem)

  function RangeLo(iter: Iter, env: Env, m: Mem): EResult {
    if iter.Range? then Eval(iter.lo, env, m) else EOk(IntV(0), m)
  }

  function ForStart(x: Name, iter: Iter, env: Env, m: Mem): Start {
    match RangeLo(iter, env, m)
    case EWrong => NoStart
    case EOk(lo, m1) =>
      match Eval(iter.hi, env, m1)
      case EWrong => NoStart
      case EOk(hi, m2) =>
        var (env1, m3) := Declare(env, m2, x, TInt, Some(lo));
        Start(|m2|, hi, env1, m3)
  }

  lemma SimLo(f: Cfg, g: Gen, iter: Iter, c: Ctx, env: Env, k: Conf) returns (n: nat)
    requires Ready(g, c, env, k) && CheckIter(iter, c)
    requires Extends(GenLo(g, iter).g.blocks, f)
    ensures var r, k1 := RangeLo(iter, env, k.mem), StepN(f, k, n);
      && ExprDone(g.next, GenLo(g, iter), k.regs, r, k1)
      && (r.EOk? ==> r.v.IntV? && Kept(k.mem, r.mem) && Ready(GenLo(g, iter).g, c, env, k1))
  {
    hide Extends, Local, Bound, Known, Typed, GenExpr, Eval, Type, Agree, Kept;
    if iter.Range? {
      n := SimExpr.SimExpr(f, g, iter.lo, c, env, k);
      EvalTyped(iter.lo, c, env, k.mem);
      if Eval(iter.lo, env, k.mem).EOk? {
        HereAfter(g, c, env, k, StepN(f, k, n));
        HereMore(g, GenLo(g, iter).g, c, env, StepN(f, k, n));
      }
    } else {
      n := 0;
      AgreeSame(g.next, k.regs);
      TypedParts(c, env, k.mem);
    }
  }

  /** The loop variable's slot, after the bounds have been computed. */
  lemma SimForSlot(f: Cfg, g: Gen, x: Name, lo: Operand, v: Val, c: Ctx, env: Env, k: Conf)
    requires Ready(g, c, env, k) && x !in c
    requires Below(lo, g.next) && OperandVal(lo, k.regs) == Some(v) && v.IntV?
    requires Extends(Put(GenAlloca(g, x, TInt), Store(lo, Reg(g.next))).blocks, f)
    ensures var g1, k1 := Put(GenAlloca(g, x, TInt), Store(lo, Reg(g.next))), StepN(f, k, 2);
      var (env1, m1) := Declare(env, k.mem, x, TInt, Some(v));
      && At(k1, g1) && k1.mem == m1 && Agree(g.next, k.regs, k1.regs)
      && Here(g1, c[x := TInt], env1, k1)
  {
    hide Extends, Local, Bound, Known, Typed, Grown, MemTyped, Exec, Step;
    var g1 := GenAlloca(g, x, TInt);
    var g2 := Put(g1, Store(lo, Reg(g.next)));
    ExtendsTrans(g1.blocks, g2.blocks, f);
    SimAlloca(f, g, x, TInt, c, env, k);
    StepAfter(f, k, 0);
    var k1 := StepN(f, k, 1);
    OperandLater(lo, g.next, k.regs, k1.regs);
    StoreStep(f, g1, lo, Reg(g.next), |k.mem|, k1);
    StepAfter(f, k, 1);
    DeclareNames(g, x, TInt, c);
    DeclareTyped(c, env, k.mem, x, TInt, Some(v));
  }

  lemma SimForInit(f: Cfg, g: Gen, x: Name, iter: Iter, c: Ctx, env: Env, k: Conf) returns (n: nat)
    requires Ready(g, c, env, k) && CheckIter(iter, c) && x !in c
    requires Extends(ForInit(g, x, iter).0.blocks, f)
    ensures var t, k1 := ForStart(x, iter, env, k.mem), StepN(f, k, n);
      var (g1, hi) := ForInit(g, x, iter);
      if t.NoStart? then k1.Trap? else
        && At(k1, g1) && k1.mem == t.mem && Agree(g.next, k.regs, k1.regs)
        && Here(g1, c[x := TInt], t.env, k1) && t.env[x] == t.a
        && OperandVal(hi, k1.regs) == Some(t.hi) && t.hi.IntV?
  {
    hide Extends, Local, Bound, Known, Typed, GenExpr, Eval, Type, Agree, Kept, RangeLo, GenLo, GenAlloca, StepN;
    var lo := GenLo(g, iter);
    var hi := GenExpr(lo.g, iter.hi);
    var g1 := GenAlloca(hi.g, x, TInt);
    var g2 := Put(g1, Store(lo.val, Reg(hi.g.next)));
    ExtendsTrans(g1.blocks, g2.blocks, f);
    ExtendsTrans(hi.g.blocks, g1.blocks, f);
    ExtendsTrans(lo.g.blocks, hi.g.blocks, f);
    n := SimLo(f, g, iter, c, env, k);
    var r1 := RangeLo(iter, env, k.mem);
    if r1.EOk? {
      var k1 := StepN(f, k, n);
      var n1 := SimExpr.SimExpr(f, lo.g, iter.hi, c, env, k1);
      StepsAdd(f, k, n, n1);
      n := n + n1;
      EvalTyped(iter.hi, c, env, k1.mem);
      var r2 := Eval(iter.hi, env, k1.mem);
      if r2.EOk? {
        var k2 := StepN(f, k, n);
        HereAfter(lo.g, c, env, k1, k2);
        HereMore(lo.g, hi.g, c, env, k2);
        OperandLater(lo.val, lo.g.next, k1.regs, k2.regs);
        AgreeTrans(g.next, lo.g.next, k.regs, k1.regs, k2.regs);
        SimForSlot(f, hi.g, x, lo.val, r1.v, c, env, k2);
        StepsAdd(f, k, n, 2);
        n := n + 2;
        var k3 := StepN(f, k, n);
        OperandLater(hi.val, hi.g.next, k2.regs, k3.regs);
        AgreeTrans(g.next, hi.g.next, k.regs, k2.regs, k3.regs);
      }
    }
  }

  /** Where the loop variable lives. */
  lemma LoopVar(g: Gen, x: Name, slot: Operand, c: Ctx, env: Env, k: Conf)
    requires Here(g, c, env, k) && x in c && Lookup(g.vars, x) == Some(Var(x, slot, TInt))
    ensures x in env && OperandVal(slot, k.regs) == Some(PtrV(env[x])) && Below(slot, g.next)
    ensures env[x] < |k.mem| && k.mem[env[x]].ty == TInt
    ensures k.mem[env[x]].val.Some? ==> k.mem[env[x]].val.value.IntV?
  {
  }

  lemma SimForTest(f: Cfg, g: Gen, slot: Operand, hi: Operand, a: nat, w: Val, body: nat, end: nat, k: Conf) returns (n: nat)
    requires At(k, g) && OperandVal(slot, k.regs) == Some(PtrV(a)) && OperandVal(hi, k.regs) == Some(w) && w.IntV?
    requires a < |k.mem| && k.mem[a].ty == TInt && (k.mem[a].val.Some? ==> k.mem[a].val.value.IntV?)
    requires Below(hi, g.next)
    requires Extends(Put(ForTest(g, slot, hi).g, CondBr(ForTest(g, slot, hi).val, body, end)).blocks, f)
    ensures var k1 := StepN(f, k, n);
      match Read(k.mem, a)
      case None => k1.Trap?
      case Some(v) => n >= 1 && AtHead(k1, k.mem) && k1.blk == (if v.n < w.n then body else end) && Agree(g.next, k.regs, k1.regs)
  {
    hide Extends, Local, Exec, Step;
    var cur := Result(g, Load(g.next, TInt, slot), TInt);
    var c := Result(cur.g, Bin(cur.g.next, OICmp(SLT), cur.val, hi), TBool);
    var g3 := Put(c.g, CondBr(c.val, body, end));
    ExtendsTrans(c.g.blocks, g3.blocks, f);
    ExtendsTrans(cur.g.blocks, c.g.blocks, f);
    LoadStep(f, g, TInt, slot, a, k);
    StepAfter(f, k, 0);
    n := 1;
    if Read(k.mem, a).Some? {
      BinStep(f, cur.g, OICmp(SLT), cur.val, hi, TBool, StepN(f, k, 1));
      StepAfter(f, k, 1);
      CondStep(f, c.g, c.val, body, end, StepN(f, k, 2));
      StepAfter(f, k, 2);
      n := 3;
    }
  }

  lemma SimForStep(f: Cfg, g: Gen, slot: Operand, cond: nat, a: nat, k: Conf) returns (n: nat)
    requires At(k, g) && OperandVal(slot, k.regs) == Some(PtrV(a)) && Below(slot, g.next)
    requires a < |k.mem| && k.mem[a].ty == TInt && (k.mem[a].val.Some? ==> k.mem[a].val.value.IntV?)
    requires Extends(ForStep(g, slot, cond).blocks, f)
    ensures var k1 := StepN(f, k, n);
      match Increment(k.mem, a)
      case EWrong => k1.Trap?
      case EOk(_, m1) => AtHead(k1, m1) && k1.blk == cond && Agree(g.next, k.regs, k1.regs)
  {
    hide Extends, Local, Exec, Step;
    var cur := Result(g, Load(g.next, TInt, slot), TInt);
    var next := Result(cur.g, Bin(cur.g.next, OAdd, cur.val, Const(IntV(1))), TInt);
    var g1 := Put(next.g, Store(next.val, slot));
    var g2 := Put(g1, Br(cond));
    ExtendsTrans(g1.blocks, g2.blocks, f);
    ExtendsTrans(next.g.blocks, g1.blocks, f);
    ExtendsTrans(cur.g.blocks, next.g.blocks, f);
    LoadStep(f, g, TInt, slot, a, k);
    StepAfter(f, k, 0);
    n := 1;
    if Read(k.mem, a).Some? {
      BinStep(f, cur.g, OAdd, cur.val, Const(IntV(1)), TInt, StepN(f, k, 1));
      StepAfter(f, k, 1);
      StoreStep(f, next.g, next.val, slot, a, StepN(f, k, 2));
      StepAfter(f, k, 2);
      BrStep(f, g1, cond, StepN(f, k, 3));
      StepAfter(f, k, 3);
      n := 4;
    }
  }

  lemma UnfoldFor(g: Gen, s: Stmt, c: Ctx, ret: Option<Ty>, env: Env, m: Mem, loop: bool, fuel: nat)
    requires s.For? && g.cur < |g.blocks| && !Terminated(g) && CheckStmt(s, c, ret).Some?
    ensures GenStmt(g, s) == GenFor(g, s)
    ensures CheckStmt(s, c, ret) == Some(c)
    ensures s.x !in c && CheckIter(s.iter, c) && Checked(s.body, c[s.x := TInt], ret)
    ensures ExecStmt(s, env, m, loop, fuel) ==
      match ForStart(s.x, s.iter, env, m)
      case NoStart => SWrong
      case Start(a, hi, env1, m1) => Leave(ExecFor(a, hi, s.body, env1, m1, fuel), env)
  {
    hide Extends, Local, Terminated, GenFor, ExecFor, Type, CheckSeq, Eval, CheckIter;
  }

  /** The pieces of a range loop's code: up to the loop variable's slot, the test, the start
      of the body. */
  function ForHead(g: Gen, s: Stmt): (r: (Gen, Operand))
    requires s.For? && g.cur < |g.blocks|
    ensures Emits(OpenLoop(g, 4), r.0) && Below(r.1, r.0.next) && r.0.next > 0
    ensures |r.0.blocks| >= |g.blocks| + 4 && r.0.cur < |r.0.blocks|
  {
    ForInit(OpenLoop(g, 4), s.x, s.iter)
  }

  function ForTestCode(g: Gen, s: Stmt): (t: Code)
    requires s.For? && g.cur < |g.blocks|
    ensures t.g.cur < |t.g.blocks| && |t.g.blocks| >= |g.blocks| + 4
  {
    var (g1, hi) := ForHead(g, s);
    ForTest(Seal(g1, Br(|g.blocks|), |g.blocks|), Reg(g1.next - 1), hi)
  }

  function ForOpen(g: Gen, s: Stmt): (r: Gen)
    requires s.For? && g.cur < |g.blocks|
    ensures r.cur == |g.blocks| + 1 && |r.blocks| >= |g.blocks| + 4
  {
    var t := ForTestCode(g, s);
    Seal(t.g, CondBr(t.val, |g.blocks| + 1, |g.blocks| + 3), |g.blocks| + 1)
  }

  function ForFoot(g: Gen, s: Stmt): (r: Gen)
    requires s.For? && g.cur < |g.blocks|
    ensures r.cur == |g.blocks| + 2 && |r.blocks| >= |g.blocks| + 4
  {
    PositionAt(GenBody(ForOpen(g, s), s.body, |g.blocks| + 3, |g.blocks| + 2), |g.blocks| + 2)
  }

  lemma ForShape(g: Gen, s: Stmt)
    requires s.For? && g.cur < |g.blocks|
    ensures var cond, body, end := |g.blocks|, |g.blocks| + 1, |g.blocks| + 3;
      var g0, g1, t, g3 := OpenLoop(g, 4), ForHead(g, s).0, ForTestCode(g, s), ForOpen(g, s);
      var g2 := Seal(g1, Br(cond), cond);
      && Extends(g0.blocks, g1.blocks) && Extends(g1.blocks, g2.blocks) && Extends(g2.blocks, t.g.blocks)
      && Extends(t.g.blocks, g3.blocks)
      && g2.blocks[cond] == [] && g3.blocks[body] == []
      && g2.blocks == Put(g1, Br(cond)).blocks && g3.blocks == Put(t.g, CondBr(t.val, body, end)).blocks
      && g0.blocks[g.cur] == g.blocks[g.cur] && g0.cur == g.cur && Same(g, g0) && g0.next == g.next <= g1.next
      && Same(g1, g2) && Same(g1, g3) && g2.next == g1.next <= g3.next == t.g.next
      && g1.brk == g.brk && g1.cont == g.cont
  {
    hide Extends, ForInit, ForTest;
    ForEmpty(g, s);
  }

  /** Blocks a range loop made and has not entered yet are empty. */
  lemma ForEmpty(g: Gen, s: Stmt)
    requires s.For? && g.cur < |g.blocks|
    ensures ForHead(g, s).0.cur != |g.blocks| && EmptyBlocks(ForHead(g, s).0, |g.blocks|, |g.blocks| + 4)
    ensures EmptyBlocks(ForOpen(g, s), |g.blocks| + 1, |g.blocks| + 4)
  {
    hide Extends, ForInit, ForTest;
    var g0, g1 := OpenLoop(g, 4), ForHead(g, s).0;
    EmptyLater(g0, g1, |g.blocks|, |g.blocks| + 4);
    var g2 := Seal(g1, Br(|g.blocks|), |g.blocks|);
    EmptyLater(g2, ForTestCode(g, s).g, |g.blocks| + 1, |g.blocks| + 4);
  }

  lemma ForShape2(g: Gen, s: Stmt)
    requires s.For? && g.cur < |g.blocks|
    ensures var cond, incr, end := |g.blocks|, |g.blocks| + 2, |g.blocks| + 3;
      var g1, g3, g5 := ForHead(g, s).0, ForOpen(g, s), ForFoot(g, s);
      var g6 := ForStep(g5, Reg(g1.next - 1), cond);
      && end < |g6.blocks| && GenFor(g, s) == PositionAt(g6, end)
      && Extends(GenBody(g3, s.body, end, incr).blocks, g6.blocks) && Extends(g3.blocks, GenBody(g3, s.body, end, incr).blocks)
      && g5.blocks[incr] == [] && g6.blocks[end] == []
      && g3.next <= g5.next <= g6.next
  {
    hide Extends, ForInit, ForTest, ForStep, GenBody, EmptyBlocks;
    var cond, incr, end := |g.blocks|, |g.blocks| + 2, |g.blocks| + 3;
    var g1, g3, g5 := ForHead(g, s).0, ForOpen(g, s), ForFoot(g, s);
    var g4 := GenBody(g3, s.body, end, incr);
    ForEmpty(g, s);
    EmptyLater(g3, g4, incr, end + 1) by { EmptyPart(g3, g3, cond + 1, incr, end + 1); }
    EmptyPart(g4, g5, incr, end, end + 1);
    EmptyLater(g5, ForStep(g5, Reg(g1.next - 1), cond), end, end + 1);
    EmptyAt(g4, incr, end + 1, incr);
    EmptyAt(ForStep(g5, Reg(g1.next - 1), cond), end, end + 1, end);
  }

  lemma EmptyPart(g: Gen, g1: Gen, lo: nat, lo1: nat, hi: nat)
    requires EmptyBlocks(g, lo, hi) && lo <= lo1 && g1.blocks == g.blocks
    ensures EmptyBlocks(g1, lo1, hi)
  {
  }

  lemma EmptyAt(g: Gen, lo: nat, hi: nat, b: nat)
    requires EmptyBlocks(g, lo, hi) && lo <= b < hi
    ensures g.blocks[b] == []
  {
  }

  /** The loop from the head of its condition block. */
  lemma {:induction false} ForRun(f: Cfg, g: Gen, s: Stmt, w: Val, c: Ctx, ret: Option<Ty>, env: Env, k: Conf, fuel: nat) returns (n: nat)
    requires s.For? && g.cur < |g.blocks| && Known(g.vars, c)
    requires CheckIter(s.iter, c) && s.x !in c && Checked(s.body, c[s.x := TInt], ret)
    requires Extends(GenFor(g, s).blocks, f)
    requires var (g1, hi) := ForHead(g, s);
      && Here(g1, c[s.x := TInt], env, k) && k.blk == |g.blocks| && k.idx == 0
      && OperandVal(hi, k.regs) == Some(w) && w.IntV?
    ensures s.x in env
    ensures Landed(ForHead(g, s).0, |g.blocks| + 3, k.regs, ExecFor(env[s.x], w, s.body, env, k.mem, fuel), fuel, StepN(f, k, n), n)
    decreases fuel, s.body, 3
  {
    hide Extends, Local, Bound, Known, Typed, GenExpr, Agree, GenBody, GenFor, ExecSeq, CheckSeq, Terminated, ForHead, ForTestCode, ForOpen, ForFoot, ForTest, ForStep, CheckIter, Increment, NewVars, Grew, Emits, Scoped, Kept;
    var cond, body, incr, end := |g.blocks|, |g.blocks| + 1, |g.blocks| + 2, |g.blocks| + 3;
    var g0 := OpenLoop(g, 4);
    var (g1, hi) := ForHead(g, s);
    var slot, c1 := Reg(g1.next - 1), c[s.x := TInt];
    ForShape(g, s);
    ForShape2(g, s);
    ForUnfold(g, s);
    ForHeadNames(g, s, c);
    LoopVar(g1, s.x, slot, c1, env, k);
    n := 0;
    if fuel > 0 {
      var g2 := Seal(g1, Br(cond), cond);
      var t, g3 := ForTestCode(g, s), ForOpen(g, s);
      var g4 := GenBody(g3, s.body, end, incr);
      var g6 := ForStep(ForFoot(g, s), slot, cond);
      ExtendsTrans(g4.blocks, g6.blocks, f);
      ExtendsTrans(g3.blocks, g4.blocks, f);
      n := SimForTest(f, g2, slot, hi, env[s.x], w, body, end, k);
      var k1 := StepN(f, k, n);
      var v := Read(k.mem, env[s.x]);
      if v.Some? {
        HereSame(g1, c1, env, k, k1);
        if v.value.n < w.n {
          HereMore(g1, g3, c1, env, k1);
          EmptyOpen(g3);
          var n1 := SimBody(f, g3, s.body, end, incr, c1, ret, env, k1, fuel - 1);
          n := ForNext(f, g, s, w, c, ret, env, k, n, n1, fuel);
        }
      }
    }
  }

  lemma ForUnfold(g: Gen, s: Stmt)
    requires s.For? && g.cur < |g.blocks|
    ensures ForHead(g, s) == ForInit(OpenLoop(g, 4), s.x, s.iter)
    ensures var (g1, hi) := ForHead(g, s);
      ForTestCode(g, s) == ForTest(Seal(g1, Br(|g.blocks|), |g.blocks|), Reg(g1.next - 1), hi)
  {
    hide ForInit, ForTest;
  }

  lemma ForHeadNames(g: Gen, s: Stmt, c: Ctx)
    requires s.For? && g.cur < |g.blocks| && Known(g.vars, c) && CheckIter(s.iter, c) && s.x !in c
    ensures var g1 := ForHead(g, s).0;
      && NewVars(g.vars, g1.vars, c) && Known(g1.vars, c[s.x := TInt])
      && Lookup(g1.vars, s.x) == Some(Var(s.x, Reg(g1.next - 1), TInt))
  {
    hide Known, NewVars, Extends, Local, ForInit, CheckIter;
    ForInitNames(OpenLoop(g, 4), s.x, s.iter, c);
  }

  lemma HereSame(g: Gen, c: Ctx, env: Env, k: Conf, k1: Conf)
    requires Here(g, c, env, k) && k1.Run? && k1.mem == k.mem && Agree(g.next, k.regs, k1.regs)
    ensures Here(g, c, env, k1)
  {
    BoundLater(g.vars, g.next, g.next, env, k.regs, k1.regs);
  }

  lemma HereKept(g: Gen, next: nat, c: Ctx, env: Env, k: Conf, k1: Conf)
    requires Here(g, c, env, k) && k1.Run? && g.next <= next && Agree(next, k.regs, k1.regs) && Kept(k.mem, k1.mem)
    ensures Here(g, c, env, k1)
  {
    HereLater(g, c, env, k, k1);
  }

  /** The test of a range loop came out true and changed nothing. */
  predicate Turns(k: Conf, k1: Conf, a: nat, w: Val, next: nat)
    requires k.Run? && w.IntV?
  {
    && k1.Run? && k1.mem == k.mem && Agree(next, k.regs, k1.regs)
    && Read(k.mem, a).Some? && Read(k.mem, a).value.IntV? && Read(k.mem, a).value.n < w.n
  }

  /** After the body: the increment and around again, or out. */
  lemma {:induction false} ForNext(f: Cfg, g: Gen, s: Stmt, w: Val, c: Ctx, ret: Option<Ty>, env: Env, k: Conf, n0: nat, n1: nat, fuel: nat) returns (n: nat)
    requires s.For? && g.cur < |g.blocks| && fuel > 0 && n0 >= 1 && Known(g.vars, c)
    requires CheckIter(s.iter, c) && s.x !in c && Checked(s.body, c[s.x := TInt], ret)
    requires Extends(GenFor(g, s).blocks, f)
    requires k.Run? && s.x in env && w.IntV? && Turns(k, StepN(f, k, n0), env[s.x], w, ForHead(g, s).0.next)
    requires Here(ForHead(g, s).0, c[s.x := TInt], env, k) && OperandVal(ForHead(g, s).1, k.regs) == Some(w)
    requires var b := ExecSeq(s.body, env, k.mem, true, fuel - 1);
      && BodyDone(ForOpen(g, s), |g.blocks| + 3, |g.blocks| + 2, StepN(f, k, n0).regs, b, fuel - 1, StepN(f, StepN(f, k, n0), n1), n1)
      && (b.SOk? && !b.o.Returned? ==> Here(ForOpen(g, s), c[s.x := TInt], env, StepN(f, StepN(f, k, n0), n1)))
    ensures Landed(ForHead(g, s).0, |g.blocks| + 3, k.regs, ExecFor(env[s.x], w, s.body, env, k.mem, fuel), fuel, StepN(f, k, n), n)
    decreases fuel, s.body, 0
  {
    hide Extends, Local, Bound, Known, Typed, GenExpr, Agree, GenBody, GenFor, ExecSeq, CheckSeq, Terminated, ForHead, ForTestCode, ForOpen, ForFoot, ForTest, ForStep, CheckIter, Increment, NewVars, Grew, Emits, Scoped, Kept, Same;
    var cond, body, incr, end := |g.blocks|, |g.blocks| + 1, |g.blocks| + 2, |g.blocks| + 3;
    var (g1, hi) := ForHead(g, s);
    var slot, c1 := Reg(g1.next - 1), c[s.x := TInt];
    var g3 := ForOpen(g, s);
    ForShape(g, s);
    ForShape2(g, s);
    ForUnfold(g, s);
    StepsAdd(f, k, n0, n1);
    n := n0 + n1;
    var b := ExecSeq(s.body, env, k.mem, true, fuel - 1);
    if b.SOk? && !b.o.Returned? {
      var k2 := StepN(f, k, n);
      AgreeTrans(g1.next, g3.next, k.regs, StepN(f, k, n0).regs, k2.regs);
      HereBack(g1, g3, c1, env, k, k2);
      if !b.o.Broke? {
        ForHeadNames(g, s, c);
        LoopVar(g1, s.x, slot, c1, env, k2);
        var g5 := ForFoot(g, s);
        var n2 := SimForStep(f, g5, slot, cond, env[s.x], k2);
        StepsAdd(f, k, n, n2);
        n := n + n2;
        var i := Increment(k2.mem, env[s.x]);
        if i.EOk? {
          var k3 := StepN(f, k, n);
          AgreeTrans(g1.next, g5.next, k.regs, k2.regs, k3.regs);
          IncrementTyped(c1, env, k2.mem, env[s.x]);
          HereKept(g1, g5.next, c1, env, k2, k3);
          OperandLater(hi, g1.next, k.regs, k3.regs);
          var n3 := ForRun(f, g, s, w, c, ret, env, k3, fuel - 1);
          LandedFrom(f, g1, g1, end, k, n, ExecFor(env[s.x], w, s.body, env, k3.mem, fuel - 1), fuel - 1, n3);
          n := n + n3;
        }
      }
    }
  }

  lemma {:induction false} SimFor(f: Cfg, g: Gen, s: Stmt, c: Ctx, ret: Option<Ty>, env: Env, k: Conf, loop: bool, fuel: nat) returns (n: nat)
    requires Ready(g, c, env, k) && !Terminated(g) && Looping(g, loop) && s.For?
    requires CheckStmt(s, c, ret).Some?
    requires Extends(GenStmt(g, s).blocks, f)
    ensures StmtDone(g, GenStmt(g, s), k.regs, ExecStmt(s, env, k.mem, loop, fuel), fuel, StepN(f, k, n), n)
    decreases fuel, s, 1
  {
    hide Extends, Local, Bound, Known, Typed, NewVars, GenExpr, Type, GenBody, ExecFor, CheckSeq, GenStmt, ExecStmt, CheckStmt, GenFor, ForHead, ForTestCode, ForOpen, ForFoot, ForTest, ForStep, ForStart, CheckIter, Agree, Grew, Kept;
    UnfoldFor(g, s, c, ret, env, k.mem, loop, fuel);
    ForShape(g, s);
    ForShape2(g, s);
    ForUnfold(g, s);
    var cond, body, incr, end := |g.blocks|, |g.blocks| + 1, |g.blocks| + 2, |g.blocks| + 3;
    var g0 := OpenLoop(g, 4);
    var (g1, hi) := ForHead(g, s);
    var slot := Reg(g1.next - 1);
    var g2 := Seal(g1, Br(cond), cond);
    var t, g3 := ForTestCode(g, s), ForOpen(g, s);
    var g4 := GenBody(g3, s.body, end, incr);
    var g6 := ForStep(ForFoot(g, s), slot, cond);
    ExtendsTrans(g4.blocks, g6.blocks, f);
    ExtendsTrans(g3.blocks, g4.blocks, f);
    ExtendsTrans(t.g.blocks, g3.blocks, f);
    ExtendsTrans(g2.blocks, t.g.blocks, f);
    ExtendsTrans(g1.blocks, g2.blocks, f);
    HereMore(g, g0, c, env, k);
    n := SimForInit(f, g0, s.x, s.iter, c, env, k);
    var st := ForStart(s.x, s.iter, env, k.mem);
    if st.Start? {
      BrStep(f, g1, cond, StepN(f, k, n));
      StepAfter(f, k, n);
      n := n + 1;
      var k1 := StepN(f, k, n);
      HereSame(g1, c[s.x := TInt], st.env, StepN(f, k, n - 1), k1) by { AgreeSame(g1.next, k1.regs); }
      var n1 := ForRun(f, g, s, st.hi, c, ret, st.env, k1, fuel);
      LandedFrom(f, g, g1, end, k, n, ExecFor(st.a, st.hi, s.body, st.env, k1.mem, fuel), fuel, n1);
      n := n + n1;
    }
    ForNames(s, g, c, ret);
    TypedKeys(c, env, k.mem);
    var r := ExecStmt(s, env, k.mem, loop, fuel);
    LeaveLanded(g, end, k.regs, if st.Start? then ExecFor(st.a, st.hi, s.body, st.env, st.mem, fuel) else SWrong, env, fuel, StepN(f, k, n), n);
    Settle(g, GenFor(g, s), end, c, env, k.regs, k.mem, r, fuel, StepN(f, k, n), n);
  }

  lemma LeaveLanded(g: Gen, m: nat, regs: Regs, r: SResult, env: Env, fuel: nat, k: Conf, n: nat)
    requires Landed(g, m, regs, r, fuel, k, n)
    ensures Landed(g, m, regs, Leave(r, env), fuel, k, n)
  {
  }

  /** The pieces of a C-style loop's code: after the initialiser, the start of the body, its
      foot. */
  function CForHead(g: Gen, s: Stmt): (r: Gen)
    requires s.CFor? && g.cur < |g.blocks|
    ensures Emits(OpenLoop(g, 4), r) && |r.blocks| >= |g.blocks| + 4 && r.cur < |r.blocks|
  {
    Nothing(OpenLoop(g, 4));
    if s.finit.None? then OpenLoop(g, 4) else GenStmt(OpenLoop(g, 4), s.finit.value)
  }

  function CForTest(g: Gen, s: Stmt): (r: Gen)
    requires s.CFor? && g.cur < |g.blocks|
    ensures r.cur == |g.blocks| && |r.blocks| >= |g.blocks| + 4
  {
    Seal(CForHead(g, s), Br(|g.blocks|), |g.blocks|)
  }

  function CForOpen(g: Gen, s: Stmt): (r: Gen)
    requires s.CFor? && g.cur < |g.blocks|
    ensures r.cur == |g.blocks| + 1 && |r.blocks| >= |g.blocks| + 4
  {
    CondHead(CForTest(g, s), s.fcond, |g.blocks| + 1, |g.blocks| + 3)
  }

  function CForFoot(g: Gen, s: Stmt): (r: Gen)
    requires s.CFor? && g.cur < |g.blocks|
    ensures r.cur == |g.blocks| + 2 && |r.blocks| >= |g.blocks| + 4
  {
    PositionAt(GenBody(CForOpen(g, s), s.body, |g.blocks| + 3, |g.blocks| + 2), |g.blocks| + 2)
  }

  lemma CondHeadEmpty(g: Gen, e: Option<Expr>, body: nat, end: nat, lo: nat, hi: nat)
    requires g.cur < |g.blocks| && body < |g.blocks| && EmptyBlocks(g, lo, hi) && !(lo <= g.cur < hi)
    ensures EmptyBlocks(CondHead(g, e, body, end), lo, hi)
  {
    hide Extends;
    if e.Some? {
      EmptyLater(g, GenExpr(g, e.value).g, lo, hi);
    }
  }

  lemma CForEmpty(g: Gen, s: Stmt)
    requires s.CFor? && g.cur < |g.blocks|
    ensures CForHead(g, s).cur != |g.blocks| && EmptyBlocks(CForTest(g, s), |g.blocks|, |g.blocks| + 4)
    ensures EmptyBlocks(CForOpen(g, s), |g.blocks| + 1, |g.blocks| + 4)
  {
    hide Extends, GenStmt, CondHead;
    var g0, g1, g2 := OpenLoop(g, 4), CForHead(g, s), CForTest(g, s);
    EmptyLater(g0, g1, |g.blocks|, |g.blocks| + 4);
    CondHeadEmpty(g2, s.fcond, |g.blocks| + 1, |g.blocks| + 3, |g.blocks| + 1, |g.blocks| + 4);
  }

  lemma CForShape(g: Gen, s: Stmt)
    requires s.CFor? && g.cur < |g.blocks|
    ensures var cond := |g.blocks|;
      var g0, g1, g2, g3 := OpenLoop(g, 4), CForHead(g, s), CForTest(g, s), CForOpen(g, s);
      && Extends(g1.blocks, g2.blocks) && Extends(g2.blocks, g3.blocks)
      && g2.blocks[cond] == [] && g3.blocks[cond + 1] == []
      && g2.blocks == Put(g1, Br(cond)).blocks
      && g0.blocks[g.cur] == g.blocks[g.cur] && g0.cur == g.cur && Same(g, g0) && g0.next == g.next <= g1.next
      && Same(g1, g2) && Same(g1, g3) && g2.next == g1.next <= g3.next
      && g1.brk == g.brk && g1.cont == g.cont
  {
    hide Extends, GenStmt, CondHead;
    CForEmpty(g, s);
  }

  lemma CForShape2(g: Gen, s: Stmt)
    requires s.CFor? && g.cur < |g.blocks|
    ensures var cond, update, end := |g.blocks|, |g.blocks| + 2, |g.blocks| + 3;
      var g3, g5 := CForOpen(g, s), CForFoot(g, s);
      var g6 := UpdateTail(g5, s.update, cond);
      && end < |g6.blocks| && GenCFor(g, s) == PositionAt(g6, end)
      && Extends(GenBody(g3, s.body, end, update).blocks, g6.blocks) && Extends(g3.blocks, GenBody(g3, s.body, end, update).blocks)
      && g5.blocks[update] == [] && g6.blocks[end] == []
      && g3.next <= g5.next <= g6.next
  {
    hide Extends, CondHead, UpdateTail, GenBody, GenStmt, EmptyBlocks;
    var cond, update, end := |g.blocks|, |g.blocks| + 2, |g.blocks| + 3;
    var g3, g5 := CForOpen(g, s), CForFoot(g, s);
    var g4 := GenBody(g3, s.body, end, update);
    var g6 := UpdateTail(g5, s.update, cond);
    CForEmpty(g, s);
    EmptyLater(g3, g4, update, end + 1) by { EmptyPart(g3, g3, cond + 1, update, end + 1); }
    EmptyPart(g4, g5, update, end, end + 1);
    EmptyLater(g5, g6, end, end + 1);
    EmptyAt(g4, update, end + 1, update);
    EmptyAt(g6, end, end + 1, end);
  }

  /** The missing condition of `for (;;)` is true. */
  function CondOf(e: Option<Expr>, env: Env, m: Mem): EResult {
    if e.Some? then Eval(e.value, env, m) else EOk(BoolV(true), m)
  }

  function UpdateOf(u: Option<Expr>, env: Env, m: Mem): EResult {
    if u.Some? then Eval(u.value, env, m) else EOk(IntV(0), m)
  }

  lemma SimCondHead(f: Cfg, g: Gen, e: Option<Expr>, body: nat, end: nat, c: Ctx, env: Env, k: Conf) returns (n: nat)
    requires Ready(g, c, env, k) && body < |g.blocks|
    requires e.Some? ==> Type(e.value, c) == Some(TBool)
    requires Extends(CondHead(g, e, body, end).blocks, f)
    ensures var k1 := StepN(f, k, n);
      match CondOf(e, env, k.mem)
      case EWrong => k1.Trap?
      case EOk(v, m1) =>
        && v.BoolV? && n >= 1 && AtHead(k1, m1) && k1.blk == (if v.b then body else end)
        && Agree(g.next, k.regs, k1.regs) && Here(g, c, env, k1)
  {
    hide Extends, Local, Bound, Known, Typed, GenExpr, Eval, Type, Agree;
    if e.None? {
      BrStep(f, g, body, k);
      StepAfter(f, k, 0);
      n := 1;
      AgreeSame(g.next, k.regs);
      HereSame(g, c, env, k, StepN(f, k, 1));
    } else {
      var a := GenExpr(g, e.value);
      assert Append(a.g, 0).blocks == a.g.blocks;
      n := SimTest(f, g, e.value, 0, body, end, c, env, k);
    }
  }

  lemma SimUpdate(f: Cfg, g: Gen, u: Option<Expr>, cond: nat, c: Ctx, env: Env, k: Conf) returns (n: nat)
    requires Ready(g, c, env, k)
    requires u.Some? ==> Type(u.value, c).Some?
    requires Extends(UpdateTail(g, u, cond).blocks, f)
    ensures var k1 := StepN(f, k, n);
      match UpdateOf(u, env, k.mem)
      case EWrong => k1.Trap?
      case EOk(_, m1) =>
        AtHead(k1, m1) && k1.blk == cond && Agree(g.next, k.regs, k1.regs) && Here(g, c, env, k1)
  {
    hide Extends, Local, Bound, Known, Typed, GenExpr, Eval, Type, Agree, Kept;
    if u.None? {
      BrStep(f, g, cond, k);
      StepAfter(f, k, 0);
      n := 1;
      AgreeSame(g.next, k.regs);
      HereSame(g, c, env, k, StepN(f, k, 1));
    } else {
      var a := GenExpr(g, u.value);
      ExtendsTrans(a.g.blocks, UpdateTail(g, u, cond).blocks, f);
      n := SimExpr.SimExpr(f, g, u.value, c, env, k);
      EvalTyped(u.value, c, env, k.mem);
      if Eval(u.value, env, k.mem).EOk? {
        BrStep(f, a.g, cond, StepN(f, k, n));
        StepAfter(f, k, n);
        n := n + 1;
        HereAfter(g, c, env, k, StepN(f, k, n));
      }
    }
  }

  /** The static rules for the parts after the initialiser. */
  predicate CheckLoop(s: Stmt, c: Ctx, ret: Option<Ty>)
    requires s.CFor?
  {
    && (s.fcond.Some? ==> Type(s.fcond.value, c) == Some(TBool))
    && (s.update.Some? ==> Type(s.update.value, c).Some?)
    && Checked(s.body, c, ret)
  }

  function InitCtx(s: Stmt, c: Ctx, ret: Option<Ty>): Ctx
    requires s.CFor? && CheckStmt(s, c, ret).Some?
  {
    if s.finit.None? then c else CheckStmt(s.finit.value, c, ret).value
  }

  /** The loop from the head of its condition block. */
  lemma {:induction false} CForRun(f: Cfg, g: Gen, s: Stmt, c: Ctx, ret: Option<Ty>, env: Env, k: Conf, fuel: nat) returns (n: nat)
    requires s.CFor? && g.cur < |g.blocks| && CheckLoop(s, c, ret)
    requires Extends(GenCFor(g, s).blocks, f)
    requires Here(CForHead(g, s), c, env, k) && k.blk == |g.blocks| && k.idx == 0
    ensures Landed(CForHead(g, s), |g.blocks| + 3, k.regs, ExecCFor(s.fcond, s.update, s.body, env, k.mem, fuel), fuel, StepN(f, k, n), n)
    decreases fuel, s.body, 3
  {
    hide Extends, Local, Bound, Known, Typed, GenExpr, Agree, GenBody, GenCFor, ExecSeq, CheckSeq, Terminated, CForHead, CForTest, CForOpen, CForFoot, UpdateTail, NewVars, Grew, Emits, Scoped, Kept, Type, Eval;
    n := 0;
    if fuel > 0 {
      var body, update, end := |g.blocks| + 1, |g.blocks| + 2, |g.blocks| + 3;
      var g1, g2, g3 := CForHead(g, s), CForTest(g, s), CForOpen(g, s);
      CForShape(g, s);
      CForShape2(g, s);
      var g4 := GenBody(g3, s.body, end, update);
      ExtendsTrans(g4.blocks, UpdateTail(CForFoot(g, s), s.update, |g.blocks|).blocks, f);
      ExtendsTrans(g3.blocks, g4.blocks, f);
      HereMore(g1, g2, c, env, k);
      CForIsHead(g, s);
      n := SimCondHead(f, g2, s.fcond, body, end, c, env, k);
      var k1 := StepN(f, k, n);
      var r := CondOf(s.fcond, env, k.mem);
      if r.EOk? && r.v.b {
        HereMore(g2, g3, c, env, k1);
        EmptyOpen(g3);
        var n1 := SimBody(f, g3, s.body, end, update, c, ret, env, k1, fuel - 1);
        n := CForNext(f, g, s, c, ret, env, k, n, n1, fuel);
      }
    }
  }

  lemma CForIsHead(g: Gen, s: Stmt)
    requires s.CFor? && g.cur < |g.blocks|
    ensures CForOpen(g, s) == CondHead(CForTest(g, s), s.fcond, |g.blocks| + 1, |g.blocks| + 3)
  {
    hide CondHead, CForTest;
  }

  /** After the body: the update and around again, or out. */
  lemma {:induction false} CForNext(f: Cfg, g: Gen, s: Stmt, c: Ctx, ret: Option<Ty>, env: Env, k: Conf, n0: nat, n1: nat, fuel: nat) returns (n: nat)
    requires s.CFor? && g.cur < |g.blocks| && CheckLoop(s, c, ret) && fuel > 0 && n0 >= 1
    requires Extends(GenCFor(g, s).blocks, f)
    requires Here(CForHead(g, s), c, env, k)
    requires CondOf(s.fcond, env, k.mem).EOk? && CondOf(s.fcond, env, k.mem).v == BoolV(true)
    requires AtHead(StepN(f, k, n0), CondOf(s.fcond, env, k.mem).mem) && Agree(CForHead(g, s).next, k.regs, StepN(f, k, n0).regs)
    requires var b := ExecSeq(s.body, env, StepN(f, k, n0).mem, true, fuel - 1);
      && BodyDone(CForOpen(g, s), |g.blocks| + 3, |g.blocks| + 2, StepN(f, k, n0).regs, b, fuel - 1, StepN(f, StepN(f, k, n0), n1), n1)
      && (b.SOk? && !b.o.Returned? ==> Here(CForOpen(g, s), c, env, StepN(f, StepN(f, k, n0), n1)))
    ensures Landed(CForHead(g, s), |g.blocks| + 3, k.regs, ExecCFor(s.fcond, s.update, s.body, env, k.mem, fuel), fuel, StepN(f, k, n), n)
    decreases fuel, s.body, 0
  {
    hide Extends, Local, Bound, Known, Typed, GenExpr, Agree, GenBody, GenCFor, ExecSeq, CheckSeq, Terminated, CForHead, CForTest, CForOpen, CForFoot, UpdateTail, NewVars, Grew, Emits, Scoped, Kept, Type, Eval, StepN;
    var cond, body, update, end := |g.blocks|, |g.blocks| + 1, |g.blocks| + 2, |g.blocks| + 3;
    var g1, g3, g5 := CForHead(g, s), CForOpen(g, s), CForFoot(g, s);
    CForShape(g, s);
    CForShape2(g, s);
    StepsAdd(f, k, n0, n1);
    n := n0 + n1;
    var b := ExecSeq(s.body, env, StepN(f, k, n0).mem, true, fuel - 1);
    if b.SOk? && !b.o.Returned? {
      var k2 := StepN(f, k, n);
      AgreeTrans(g1.next, g3.next, k.regs, StepN(f, k, n0).regs, k2.regs);
      if !b.o.Broke? {
        CForFootNames(g, s, c, ret, env, k2);
        var n2 := SimUpdate(f, g5, s.update, cond, c, env, k2);
        StepsAdd(f, k, n, n2);
        n := n + n2;
        var u := UpdateOf(s.update, env, k2.mem);
        if u.EOk? {
          var k3 := StepN(f, k, n);
          AgreeTrans(g1.next, g5.next, k.regs, k2.regs, k3.regs);
          HereBack(g1, g5, c, env, k, k3);
          var n3 := CForRun(f, g, s, c, ret, env, k3, fuel - 1);
          LandedFrom(f, g1, g1, end, k, n, ExecCFor(s.fcond, s.update, s.body, env, k3.mem, fuel - 1), fuel - 1, n3);
          n := n + n3;
        }
      }
    }
  }

  /** The update is compiled in the scope of the loop. */
  lemma CForFootNames(g: Gen, s: Stmt, c: Ctx, ret: Option<Ty>, env: Env, k: Conf)
    requires s.CFor? && g.cur < |g.blocks| && CheckLoop(s, c, ret)
    requires Here(CForOpen(g, s), c, env, k)
    ensures Here(CForFoot(g, s), c, env, k)
  {
    hide Extends, Local, Bound, Known, Typed, GenBody, CForOpen, NewVars, Type, CheckSeq;
    var g3 := CForOpen(g, s);
    BodyNames(g3, s.body, |g.blocks| + 3, |g.blocks| + 2, c, ret);
    Enter(g3, CForFoot(g, s), c, env, k);
  }

  lemma UnfoldCFor(g: Gen, s: Stmt, c: Ctx, ret: Option<Ty>, env: Env, m: Mem, loop: bool, fuel: nat)
    requires s.CFor? && g.cur < |g.blocks| && !Terminated(g) && CheckStmt(s, c, ret).Some?
    ensures GenStmt(g, s) == GenCFor(g, s)
    ensures CheckStmt(s, c, ret) == Some(c)
    ensures CheckLoop(s, InitCtx(s, c, ret), ret)
    ensures s.finit.Some? ==> CheckStmt(s.finit.value, c, ret).Some? && (s.finit.value.VarDecl? || s.finit.value.ExprStmt?)
    ensures ExecStmt(s, env, m, loop, fuel) ==
      match CForStart(s, env, m, loop, fuel)
      case SOk(Normal, env1, m1) => Leave(ExecCFor(s.fcond, s.update, s.body, env1, m1, fuel), env)
      case r => Leave(r, env)
  {
    hide Extends, Local, Terminated, GenCFor, ExecCFor, Type, CheckSeq, Eval;
  }

  function CForStart(s: Stmt, env: Env, m: Mem, loop: bool, fuel: nat): SResult
    requires s.CFor?
  {
    if s.finit.None? then SOk(Normal, env, m) else ExecStmt(s.finit.value, env, m, loop, fuel)
  }

  lemma InitResult(s: Stmt, env: Env, m: Mem, loop: bool, fuel: nat)
    requires s.VarDecl? || s.ExprStmt?
    ensures var r := ExecStmt(s, env, m, loop, fuel); r.SWrong? || (r.SOk? && r.o.Normal?)
  {
  }

  lemma {:induction false} SimCForInit(f: Cfg, g: Gen, s: Stmt, c: Ctx, ret: Option<Ty>, env: Env, k: Conf, loop: bool, fuel: nat) returns (n: nat)
    requires Ready(g, c, env, k) && !Terminated(g) && Looping(g, loop) && s.CFor?
    requires CheckStmt(s, c, ret).Some?
    requires Extends(CForHead(g, s).blocks, f)
    ensures var r, k1, g1 := CForStart(s, env, k.mem, loop, fuel), StepN(f, k, n), CForHead(g, s);
      if !(r.SOk? && r.o.Normal?) then r.SWrong? && k1.Trap? else
        && At(k1, g1) && k1.mem == r.mem && Agree(g.next, k.regs, k1.regs)
        && Here(g1, InitCtx(s, c, ret), r.env, k1)
    decreases fuel, s, 0
  {
    hide Extends, Local, Bound, Known, Typed, NewVars, GenStmt, ExecStmt, CheckStmt, Agree, Emits, Scoped, Type, OpenLoop;
    UnfoldCFor(g, s, c, ret, env, k.mem, loop, fuel);
    var g0 := OpenLoop(g, 4);
    CForShape(g, s);
    OpenLoopSame(g, 4);
    HereMore(g, g0, c, env, k);
    if s.finit.None? {
      n := 0;
      AgreeSame(g.next, k.regs);
    } else {
      var i := s.finit.value;
      n := SimStmt(f, g0, i, c, ret, env, k, loop, fuel);
      InitResult(i, env, k.mem, loop, fuel);
      if ExecStmt(i, env, k.mem, loop, fuel).SOk? {
        NextReady(i, g0, c, ret, env, k, StepN(f, k, n), loop, fuel);
      }
    }
  }

  lemma {:induction false} SimCFor(f: Cfg, g: Gen, s: Stmt, c: Ctx, ret: Option<Ty>, env: Env, k: Conf, loop: bool, fuel: nat) returns (n: nat)
    requires Ready(g, c, env, k) && !Terminated(g) && Looping(g, loop) && s.CFor?
    requires CheckStmt(s, c, ret).Some?
    requires Extends(GenStmt(g, s).blocks, f)
    ensures StmtDone(g, GenStmt(g, s), k.regs, ExecStmt(s, env, k.mem, loop, fuel), fuel, StepN(f, k, n), n)
    decreases fuel, s, 1
  {
    hide Extends, Local, Bound, Known, Typed, NewVars, GenExpr, Type, GenBody, ExecCFor, CheckSeq, GenStmt, ExecStmt, CheckStmt, GenCFor, CForHead, CForTest, CForOpen, CForFoot, UpdateTail, Agree, Grew, Kept, CForStart, InitCtx, CheckLoop;
    UnfoldCFor(g, s, c, ret, env, k.mem, loop, fuel);
    CForShape(g, s);
    CForShape2(g, s);
    var cond, update, end := |g.blocks|, |g.blocks| + 2, |g.blocks| + 3;
    var g1, g2, g3 := CForHead(g, s), CForTest(g, s), CForOpen(g, s);
    var g4 := GenBody(g3, s.body, end, update);
    ExtendsTrans(g4.blocks, UpdateTail(CForFoot(g, s), s.update, cond).blocks, f);
    ExtendsTrans(g3.blocks, g4.blocks, f);
    ExtendsTrans(g2.blocks, g3.blocks, f);
    ExtendsTrans(g1.blocks, g2.blocks, f);
    n := SimCForInit(f, g, s, c, ret, env, k, loop, fuel);
    var st := CForStart(s, env, k.mem, loop, fuel);
    var r := ExecStmt(s, env, k.mem, loop, fuel);
    if st.SOk? {
      BrStep(f, g1, cond, StepN(f, k, n));
      StepAfter(f, k, n);
      n := n + 1;
      var c1, k1 := InitCtx(s, c, ret), StepN(f, k, n);
      HereSame(g1, c1, st.env, StepN(f, k, n - 1), k1) by { AgreeSame(g1.next, k1.regs); }
      var n1 := CForRun(f, g, s, c1, ret, st.env, k1, fuel);
      LandedFrom(f, g, g1, end, k, n, ExecCFor(s.fcond, s.update, s.body, st.env, k1.mem, fuel), fuel, n1);
      n := n + n1;
      LeaveLanded(g, end, k.regs, ExecCFor(s.fcond, s.update, s.body, st.env, st.mem, fuel), env, fuel, StepN(f, k, n), n);
    }
    CForNames(s, g, c, ret);
    TypedKeys(c, env, k.mem);
    Settle(g, GenCFor(g, s), end, c, env, k.regs, k.mem, r, fuel, StepN(f, k, n), n);
  }
}
