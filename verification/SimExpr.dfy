/** The code of an expression computes its value: run inside any finished function that
    contains it, it reaches the end of its own last block with the value in its result
    operand and with exactly the memory evaluation leaves. */

module SimExpr {
  import opened Int64
  import opened Options
  import opened Syntax
  import opened Values
  import opened Semantics
  import opened Ir
  import opened Emit
  import opened Typing

  /** The registry knows every variable in scope with its type. */
  predicate Known(vars: seq<Var>, c: Ctx) {
    forall x :: x in c ==> Lookup(vars, x).Some? && Lookup(vars, x).value.ty == c[x]
  }

  /** ... and its pointer is the location the environment gives. */
  predicate Bound(vars: seq<Var>, next: nat, env: Env, regs: Regs) {
    forall x :: x in env ==>
      && Lookup(vars, x).Some?
      && Below(Lookup(vars, x).value.ptr, next)
      && OperandVal(Lookup(vars, x).value.ptr, regs) == Some(PtrV(env[x]))
  }

  predicate Agree(n: nat, regs: Regs, regs1: Regs) {
    forall r: nat :: r < n && r in regs ==> r in regs1 && regs1[r] == regs[r]
  }

  /** The machine is at the builder's insert point. */
  predicate At(k: Conf, g: Gen) {
    k.Run? && g.cur < |g.blocks| && k.blk == g.cur && k.idx == |g.blocks[g.cur]|
  }

  predicate ExprDone(next: nat, code: Code, regs: Regs, r: EResult, k: Conf) {
    match r
    case EWrong => k.Trap?
    case EOk(v, m) =>
      && At(k, code.g)
      && k.mem == m
      && OperandVal(code.val, k.regs) == Some(v)
      && Agree(next, regs, k.regs)
  }

  lemma BoundLater(vars: seq<Var>, n: nat, n1: nat, env: Env, regs: Regs, regs1: Regs)
    requires Bound(vars, n, env, regs) && Agree(n, regs, regs1) && n <= n1
    ensures Bound(vars, n1, env, regs1)
  {
  }

  lemma ExtendsTrans(a: Cfg, b: Cfg, c: Cfg)
    requires Extends(a, b) && Extends(b, c)
    ensures Extends(a, c)
  {
  }

  lemma StepAt(f: Cfg, g: Gen, i: Instr, k: Conf)
    requires At(k, g) && Extends(Put(g, i).blocks, f)
    ensures Step(f, k) == Exec(i, k)
  {
    assert Put(g, i).blocks[g.cur] <= f[g.cur];
  }

  /** Two runs in a row, the second of one step. */
  lemma StepAfter(f: Cfg, k: Conf, n: nat)
    ensures StepN(f, k, n + 1) == Step(f, StepN(f, k, n))
  {
    StepsAdd(f, k, n, 1);
    assert StepN(f, StepN(f, k, n), 1) == StepN(f, Step(f, StepN(f, k, n)), 0);
  }

  lemma {:induction false} GenTyped(g: Gen, e: Expr, c: Ctx)
    requires g.cur < |g.blocks|
    requires Known(g.vars, c) && Type(e, c).Some?
    ensures GenExpr(g, e).ty == Type(e, c).value
    ensures GenExpr(g, e).g.failed == g.failed
    decreases e
  {
    hide Extends, Local, Lookup, Below;
    match e
    case IntLit(_) =>
    case Ident(_) =>
    case Binary(op, l, r) =>
      GenTyped(g, l, c);
      GenTyped(GenExpr(g, l).g, r, c);
    case And(l, r) =>
      GenTyped(g, l, c);
      GenTyped(OpenShort(GenExpr(g, l), true), r, c);
    case Or(l, r) =>
      GenTyped(g, l, c);
      GenTyped(OpenShort(GenExpr(g, l), false), r, c);
    case Ternary(b, t, f) =>
      GenTyped(g, b, c);
      var a := GenExpr(g, b);
      GenTyped(OpenTernary(a), t, c);
      GenTyped(MiddleTernary(a, GenExpr(OpenTernary(a), t)), f, c);
    case Neg(e1) => GenTyped(g, e1, c);
    case BitNot(e1) => GenTyped(g, e1, c);
    case IncDec(_, _, _) =>
    case Assign(_, _, value) => GenTyped(g, value, c);
  }

  lemma OpCodeCorrect(op: BinOp, v: Val, w: Val, t: Ty, u: Ty)
    requires HasType(v, t) && HasType(w, u) && BinType(op, t, u).Some?
    ensures OpVal(OpCode(op), v, w) == BinVal(op, v, w)
  {
    hide Wrap, Quot, Rem;
  }

  lemma LoadStep(f: Cfg, g: Gen, ty: Ty, ptr: Operand, a: nat, k: Conf)
    requires At(k, g) && OperandVal(ptr, k.regs) == Some(PtrV(a)) && a < |k.mem| && k.mem[a].ty == ty
    requires Extends(Result(g, Load(g.next, ty, ptr), ty).g.blocks, f)
    ensures var r := Read(k.mem, a);
      ExprDone(g.next, Result(g, Load(g.next, ty, ptr), ty), k.regs,
               if r.Some? then EOk(r.value, k.mem) else EWrong, Step(f, k))
  {
    StepAt(f, g, Load(g.next, ty, ptr), k);
  }

  lemma StoreStep(f: Cfg, g: Gen, val: Operand, ptr: Operand, a: nat, k: Conf)
    requires At(k, g) && OperandVal(ptr, k.regs) == Some(PtrV(a)) && a < |k.mem|
    requires OperandVal(val, k.regs).Some? && HasType(OperandVal(val, k.regs).value, k.mem[a].ty)
    requires Extends(Put(g, Store(val, ptr)).blocks, f)
    ensures var k1 := Step(f, k);
      && At(k1, Put(g, Store(val, ptr)))
      && k1.regs == k.regs
      && k1.mem == Write(k.mem, a, OperandVal(val, k.regs).value)
  {
    StepAt(f, g, Store(val, ptr), k);
  }

  lemma BrStep(f: Cfg, g: Gen, t: nat, k: Conf)
    requires At(k, g) && Extends(Put(g, Br(t)).blocks, f)
    ensures Step(f, k) == Jump(k, t)
  {
    StepAt(f, g, Br(t), k);
  }

  lemma CondStep(f: Cfg, g: Gen, o: Operand, thn: nat, els: nat, k: Conf)
    requires At(k, g) && Extends(Put(g, CondBr(o, thn, els)).blocks, f)
    requires OperandVal(o, k.regs).Some? && OperandVal(o, k.regs).value.BoolV?
    ensures Step(f, k) == Jump(k, if OperandVal(o, k.regs).value.b then thn else els)
  {
    StepAt(f, g, CondBr(o, thn, els), k);
  }

  lemma PhiStep(f: Cfg, g: Gen, v0: Operand, from0: nat, v1: Operand, from1: nat, ty: Ty, k: Conf)
    requires At(k, g) && (k.prev == from0 || k.prev == from1)
    requires OperandVal(if k.prev == from0 then v0 else v1, k.regs).Some?
    requires Extends(Result(g, Phi(g.next, v0, from0, v1, from1), ty).g.blocks, f)
    ensures ExprDone(g.next, Result(g, Phi(g.next, v0, from0, v1, from1), ty), k.regs,
      EOk(OperandVal(if k.prev == from0 then v0 else v1, k.regs).value, k.mem), Step(f, k))
  {
    StepAt(f, g, Phi(g.next, v0, from0, v1, from1), k);
  }

  /** The code of one operator instruction on operands already computed. */
  lemma BinStep(f: Cfg, g: Gen, op: Op, a: Operand, b: Operand, ty: Ty, k: Conf)
    requires At(k, g)
    requires OperandVal(a, k.regs).Some? && OperandVal(b, k.regs).Some?
    requires Extends(Result(g, Bin(g.next, op, a, b), ty).g.blocks, f)
    ensures var r := OpVal(op, OperandVal(a, k.regs).value, OperandVal(b, k.regs).value);
      ExprDone(g.next, Result(g, Bin(g.next, op, a, b), ty), k.regs,
               if r.Some? then EOk(r.value, k.mem) else EWrong, Step(f, k))
  {
    StepAt(f, g, Bin(g.next, op, a, b), k);
  }

  /** The machine's registers and memory fit the scope of `g`. */
  predicate Here(g: Gen, c: Ctx, env: Env, k: Conf) {
    k.Run? && Known(g.vars, c) && Bound(g.vars, g.next, env, k.regs) && Typed(c, env, k.mem)
  }

  /** ... and it is at the insert point: what a simulation starts from. */
  predicate Ready(g: Gen, c: Ctx, env: Env, k: Conf) {
    At(k, g) && Here(g, c, env, k)
  }

  lemma ReadyVar(g: Gen, c: Ctx, env: Env, k: Conf, x: Name)
    requires Ready(g, c, env, k) && x in c
    ensures x in env && env[x] < |k.mem| && k.mem[env[x]].ty == c[x]
    ensures Lookup(g.vars, x).Some? && Lookup(g.vars, x).value.ty == c[x]
    ensures OperandVal(Lookup(g.vars, x).value.ptr, k.regs) == Some(PtrV(env[x]))
    ensures k.mem[env[x]].val.Some? ==> HasType(k.mem[env[x]].val.value, c[x])
  {
  }

  lemma HereLater(g: Gen, c: Ctx, env: Env, k: Conf, k1: Conf)
    requires Here(g, c, env, k) && k1.Run?
    requires Agree(g.next, k.regs, k1.regs) && Grown(k.mem, k1.mem) && MemTyped(k1.mem)
    ensures Here(g, c, env, k1)
  {
    BoundLater(g.vars, g.next, g.next, env, k.regs, k1.regs);
    TypedLater(c, env, k.mem, k1.mem);
  }

  /** The same scope with more registers in use. */
  lemma HereMore(g: Gen, g1: Gen, c: Ctx, env: Env, k: Conf)
    requires Here(g, c, env, k) && g1.vars == g.vars && g.next <= g1.next
    ensures Here(g1, c, env, k)
  {
  }

  /** The code of an expression computes its value, its effects and its failure. */
  lemma {:induction false} SimExpr(f: Cfg, g: Gen, e: Expr, c: Ctx, env: Env, k: Conf) returns (n: nat)
    requires Ready(g, c, env, k)
    requires Type(e, c).Some?
    requires Extends(GenExpr(g, e).g.blocks, f)
    ensures ExprDone(g.next, GenExpr(g, e), k.regs, Eval(e, env, k.mem), StepN(f, k, n))
    decreases e, 3
  {
    hide *;
    match e
    case IntLit(_) => n := SimAtom(f, g, e, c, env, k);
    case Ident(_) => n := SimAtom(f, g, e, c, env, k);
    case Binary(_, _, _) => n := SimBinary(f, g, e, c, env, k);
    case And(_, _) => n := SimShort(f, g, e, c, env, k);
    case Or(_, _) => n := SimShort(f, g, e, c, env, k);
    case Ternary(_, _, _) => n := SimTernary(f, g, e, c, env, k);
    case Neg(_) => n := SimUnary(f, g, e, c, env, k);
    case BitNot(_) => n := SimUnary(f, g, e, c, env, k);
    case IncDec(_, _, _) => n := SimIncDec(f, g, e, c, env, k);
    case Assign(_, _, _) => n := SimAssign(f, g, e, c, env, k);
  }

  lemma SimAtom(f: Cfg, g: Gen, e: Expr, c: Ctx, env: Env, k: Conf) returns (n: nat)
    requires e.IntLit? || e.Ident?
    requires Ready(g, c, env, k)
    requires Type(e, c).Some?
    requires Extends(GenExpr(g, e).g.blocks, f)
    ensures ExprDone(g.next, GenExpr(g, e), k.regs, Eval(e, env, k.mem), StepN(f, k, n))
  {
    hide Extends, Local, Bound, Known, Typed, Grown, MemTyped, Exec, Step;
    n := 0;
    if e.Ident? {
      ReadyVar(g, c, env, k, e.x);
      var v := Lookup(g.vars, e.x).value;
      LoadStep(f, g, v.ty, v.ptr, env[e.x], k);
      StepAfter(f, k, 0);
      n := 1;
    }
  }

  /** One operand, then what follows it. */
  lemma {:induction false} SimPart(f: Cfg, g: Gen, whole: Expr, e: Expr, c: Ctx, env: Env, k: Conf, after: Cfg) returns (n: nat)
    requires e < whole
    requires Ready(g, c, env, k)
    requires Type(e, c).Some?
    requires Extends(GenExpr(g, e).g.blocks, after) && Extends(after, f)
    ensures var r, k1 := Eval(e, env, k.mem), StepN(f, k, n);
      && ExprDone(g.next, GenExpr(g, e), k.regs, r, k1)
      && (r.EOk? ==>
        && HasType(r.v, Type(e, c).value)
        && Kept(k.mem, r.mem)
        && Ready(GenExpr(g, e).g, c, env, k1))
    decreases whole, 0
  {
    var a := GenExpr(g, e);
    ExtendsTrans(a.g.blocks, after, f);
    n := SimExpr(f, g, e, c, env, k);
    EvalTyped(e, c, env, k.mem);
    if Eval(e, env, k.mem).EOk? {
      HereLater(g, c, env, k, StepN(f, k, n));
      HereMore(g, a.g, c, env, StepN(f, k, n));
    }
  }

  lemma {:induction false} SimBinary(f: Cfg, g: Gen, e: Expr, c: Ctx, env: Env, k: Conf) returns (n: nat)
    requires e.Binary?
    requires Ready(g, c, env, k)
    requires Type(e, c).Some?
    requires Extends(GenExpr(g, e).g.blocks, f)
    ensures ExprDone(g.next, GenExpr(g, e), k.regs, Eval(e, env, k.mem), StepN(f, k, n))
    decreases e, 1
  {
    hide Extends, Local, Bound, Known, Typed, Grown, MemTyped, BinVal, Exec, Step, OpVal;
    var a := GenExpr(g, e.left);
    var b := GenExpr(a.g, e.right);
    var d := GenBinary(a, b, OpCode(e.op));
    ExtendsTrans(b.g.blocks, d.g.blocks, f);
    n := SimPart(f, g, e, e.left, c, env, k, b.g.blocks);
    var k1 := StepN(f, k, n);
    var r1 := Eval(e.left, env, k.mem);
    if r1.EOk? {
      var n1 := SimPart(f, a.g, e, e.right, c, env, k1, d.g.blocks);
      StepsAdd(f, k, n, n1);
      n := n + n1;
      var k2 := StepN(f, k, n);
      var r2 := Eval(e.right, env, k1.mem);
      if r2.EOk? {
        OpCodeCorrect(e.op, r1.v, r2.v, Type(e.left, c).value, Type(e.right, c).value);
        BinStep(f, b.g, OpCode(e.op), a.val, b.val, OpType(OpCode(e.op)), k2);
        StepAfter(f, k, n);
        n := n + 1;
      }
    }
  }

  lemma UnfoldShort(g: Gen, e: Expr, c: Ctx, env: Env, m: Mem)
    requires e.And? || e.Or?
    requires g.cur < |g.blocks|
    ensures GenExpr(g, e) == GenShort(g, e)
    ensures Type(e, c).Some? ==> Type(e.left, c) == Some(TBool) == Type(e.right, c)
    ensures Eval(e, env, m) ==
      match Eval(e.left, env, m)
      case EOk(BoolV(b), m1) => if b == e.And? then Eval(e.right, env, m1) else EOk(BoolV(b), m1)
      case _ => EWrong
  {
  }

  lemma UnfoldTernary(g: Gen, e: Expr, c: Ctx, env: Env, m: Mem)
    requires e.Ternary?
    requires g.cur < |g.blocks|
    ensures GenExpr(g, e) == GenTernary(g, e)
    ensures Type(e, c).Some? ==> Type(e.cond, c) == Some(TBool) && Type(e.thn, c) == Type(e.els, c) == Type(e, c)
    ensures Eval(e, env, m) ==
      match Eval(e.cond, env, m)
      case EOk(BoolV(b), m1) => Eval(if b then e.thn else e.els, env, m1)
      case _ => EWrong
  {
  }

  /** The operand has been computed and control has left for block `m`. */
  predicate Arrived(next: nat, b: Code, m: nat, regs: Regs, r: EResult, k: Conf) {
    match r
    case EWrong => k.Trap?
    case EOk(v, mem) =>
      && k.Run? && k.blk == m && k.idx == 0 && k.prev == b.g.cur && k.mem == mem
      && OperandVal(b.val, k.regs) == Some(v)
      && Agree(next, regs, k.regs)
  }

  lemma {:induction false} SimArm(f: Cfg, g: Gen, whole: Expr, e: Expr, m: nat, c: Ctx, env: Env, k: Conf) returns (n: nat)
    requires e < whole
    requires Ready(g, c, env, k)
    requires Type(e, c).Some?
    requires Extends(Put(GenExpr(g, e).g, Br(m)).blocks, f)
    ensures Arrived(g.next, GenExpr(g, e), m, k.regs, Eval(e, env, k.mem), StepN(f, k, n))
    decreases whole, 1
  {
    hide Extends, Local, Bound, Known, Typed, Grown, MemTyped, BinVal, Exec, Step, OpVal, Kept;
    var b := GenExpr(g, e);
    n := SimPart(f, g, whole, e, c, env, k, Put(b.g, Br(m)).blocks);
    if Eval(e, env, k.mem).EOk? {
      BrStep(f, b.g, m, StepN(f, k, n));
      StepAfter(f, k, n);
      n := n + 1;
    }
  }

  /** The condition has been computed and control has gone to the block it selects. */
  predicate TestDone(g: Gen, e: Expr, thn: nat, els: nat, c: Ctx, env: Env, k: Conf, k1: Conf)
    requires k.Run? && g.cur < |g.blocks|
  {
    match Eval(e, env, k.mem)
    case EWrong => k1.Trap?
    case EOk(v, m) =>
      && v.BoolV? && k1.Run? && k1.blk == (if v.b then thn else els) && k1.idx == 0
      && k1.prev == GenExpr(g, e).g.cur && k1.mem == m
      && Agree(g.next, k.regs, k1.regs)
      && Here(g, c, env, k1)
  }

  lemma TestJump(f: Cfg, g: Gen, e: Expr, blocks: nat, thn: nat, els: nat, c: Ctx, env: Env, k: Conf, n: nat)
    requires Ready(g, c, env, k)
    requires Type(e, c) == Some(TBool)
    requires ExprDone(g.next, GenExpr(g, e), k.regs, Eval(e, env, k.mem), StepN(f, k, n))
    requires Extends(Put(Append(GenExpr(g, e).g, blocks), CondBr(GenExpr(g, e).val, thn, els)).blocks, f)
    ensures TestDone(g, e, thn, els, c, env, k, StepN(f, k, if Eval(e, env, k.mem).EOk? then n + 1 else n))
  {
    hide Extends, Local, Bound, Known, Typed, Grown, MemTyped, BinVal, Exec, Step, OpVal, Eval, GenExpr, Type;
    var a := GenExpr(g, e);
    EvalTyped(e, c, env, k.mem);
    if Eval(e, env, k.mem).EOk? {
      CondStep(f, Append(a.g, blocks), a.val, thn, els, StepN(f, k, n));
      StepAfter(f, k, n);
      HereLater(g, c, env, k, StepN(f, k, n + 1));
    }
  }

  lemma {:induction false} SimCond(f: Cfg, g: Gen, whole: Expr, e: Expr, blocks: nat, thn: nat, els: nat, c: Ctx, env: Env, k: Conf) returns (n: nat)
    requires e < whole
    requires Ready(g, c, env, k)
    requires Type(e, c) == Some(TBool)
    requires Extends(Put(Append(GenExpr(g, e).g, blocks), CondBr(GenExpr(g, e).val, thn, els)).blocks, f)
    ensures TestDone(g, e, thn, els, c, env, k, StepN(f, k, n))
    decreases whole, 1
  {
    hide Extends, Local, Bound, Known, Typed, Grown, MemTyped, BinVal, Exec, Step, OpVal, Eval, GenExpr, Type;
    var a := GenExpr(g, e);
    n := SimPart(f, g, whole, e, c, env, k, Put(Append(a.g, blocks), CondBr(a.val, thn, els)).blocks);
    TestJump(f, g, e, blocks, thn, els, c, env, k, n);
    if Eval(e, env, k.mem).EOk? { n := n + 1; }
  }

  lemma {:induction false} SimShort(f: Cfg, g: Gen, e: Expr, c: Ctx, env: Env, k: Conf) returns (n: nat)
    requires e.And? || e.Or?
    requires Ready(g, c, env, k)
    requires Type(e, c).Some?
    requires Extends(GenExpr(g, e).g.blocks, f)
    ensures ExprDone(g.next, GenExpr(g, e), k.regs, Eval(e, env, k.mem), StepN(f, k, n))
    decreases e, 2
  {
    hide Extends, Local, Bound, Known, Typed, Grown, MemTyped, BinVal, Exec, Step, OpVal, Kept, Eval, Type, GenExpr;
    UnfoldShort(g, e, c, env, k.mem);
    var a := GenExpr(g, e.left);
    var g1 := OpenShort(a, e.And?);
    var b := GenExpr(g1, e.right);
    var g2 := MergeShort(a, b, e.And?);
    var d := CloseShort(a, b, e.And?);
    var rhs, merge := |a.g.blocks|, |a.g.blocks| + 1;
    ExtendsTrans(g2.blocks, d.g.blocks, f);
    ExtendsTrans(b.g.blocks, g2.blocks, f);
    ExtendsTrans(g1.blocks, b.g.blocks, f);
    n := SimCond(f, g, e, e.left, 2, if e.And? then rhs else merge, if e.And? then merge else rhs, c, env, k);
    var k1 := StepN(f, k, n);
    if Eval(e.left, env, k.mem).EOk? {
      if k1.blk == rhs {
        HereMore(g, g1, c, env, k1);
        var n1 := SimArm(f, g1, e, e.right, merge, c, env, k1);
        StepsAdd(f, k, n, n1);
        n := n + n1;
      }
      var k2 := StepN(f, k, n);
      if k2.Run? {
        PhiStep(f, g2, Const(BoolV(!e.And?)), a.g.cur, b.val, b.g.cur, TBool, k2);
        StepAfter(f, k, n);
        n := n + 1;
      }
    }
  }

  lemma {:induction false} SimTernary(f: Cfg, g: Gen, e: Expr, c: Ctx, env: Env, k: Conf) returns (n: nat)
    requires e.Ternary?
    requires Ready(g, c, env, k)
    requires Type(e, c).Some?
    requires Extends(GenExpr(g, e).g.blocks, f)
    ensures ExprDone(g.next, GenExpr(g, e), k.regs, Eval(e, env, k.mem), StepN(f, k, n))
    decreases e, 2
  {
    hide Extends, Local, Bound, Known, Typed, Grown, MemTyped, BinVal, Exec, Step, OpVal, Kept, Eval, Type, GenExpr;
    UnfoldTernary(g, e, c, env, k.mem);
    var a := GenExpr(g, e.cond);
    var g1 := OpenTernary(a);
    var b := GenExpr(g1, e.thn);
    var g2 := MiddleTernary(a, b);
    var d := GenExpr(g2, e.els);
    var g3 := MergeTernary(a, b, d);
    var w := CloseTernary(a, b, d);
    var thn, merge := |a.g.blocks|, |a.g.blocks| + 2;
    ExtendsTrans(g3.blocks, w.g.blocks, f);
    ExtendsTrans(d.g.blocks, g3.blocks, f);
    ExtendsTrans(g2.blocks, d.g.blocks, f);
    ExtendsTrans(b.g.blocks, g2.blocks, f);
    ExtendsTrans(g1.blocks, b.g.blocks, f);
    n := SimCond(f, g, e, e.cond, 3, thn, thn + 1, c, env, k);
    var k1 := StepN(f, k, n);
    if Eval(e.cond, env, k.mem).EOk? {
      var n1: nat;
      if k1.blk == thn {
        HereMore(g, g1, c, env, k1);
        n1 := SimArm(f, g1, e, e.thn, merge, c, env, k1);
      } else {
        HereMore(g, g2, c, env, k1);
        n1 := SimArm(f, g2, e, e.els, merge, c, env, k1);
      }
      StepsAdd(f, k, n, n1);
      n := n + n1;
      var k2 := StepN(f, k, n);
      if k2.Run? {
        PhiStep(f, g3, b.val, b.g.cur, d.val, d.g.cur, b.ty, k2);
        StepAfter(f, k, n);
        n := n + 1;
      }
    }
  }

  lemma {:induction false} SimUnary(f: Cfg, g: Gen, e: Expr, c: Ctx, env: Env, k: Conf) returns (n: nat)
    requires e.Neg? || e.BitNot?
    requires Ready(g, c, env, k)
    requires Type(e, c).Some?
    requires Extends(GenExpr(g, e).g.blocks, f)
    ensures ExprDone(g.next, GenExpr(g, e), k.regs, Eval(e, env, k.mem), StepN(f, k, n))
    decreases e, 2
  {
    hide Extends, Local, Bound, Known, Typed, Grown, MemTyped, Exec, Step, Eval, Type, GenExpr;
    UnfoldUnary(g, e, c, env, k.mem);
    var a := GenExpr(g, e.e);
    n := SimPart(f, g, e, e.e, c, env, k, GenExpr(g, e).g.blocks);
    if Eval(e.e, env, k.mem).EOk? {
      var k1 := StepN(f, k, n);
      if e.Neg? {
        BinStep(f, a.g, OSub, Const(IntV(0)), a.val, TInt, k1);
      } else {
        XorStep(f, a.g, a.val, k1);
      }
      StepAfter(f, k, n);
      n := n + 1;
    }
  }

  lemma UnfoldUnary(g: Gen, e: Expr, c: Ctx, env: Env, m: Mem)
    requires e.Neg? || e.BitNot?
    requires g.cur < |g.blocks|
    ensures var a := GenExpr(g, e.e);
      GenExpr(g, e) == Result(a.g, if e.Neg? then Bin(a.g.next, OSub, Const(IntV(0)), a.val) else XorOnes(a.g.next, a.val), TInt)
    ensures Type(e, c).Some? ==> Type(e.e, c) == Some(TInt)
    ensures Eval(e, env, m) ==
      match Eval(e.e, env, m)
      case EOk(IntV(n), m1) => EOk(IntV(if e.Neg? then Wrap(0 - n) else -1 - n), m1)
      case _ => EWrong
  {
    hide Wrap, Extends, Local, Grew;
  }

  lemma XorStep(f: Cfg, g: Gen, a: Operand, k: Conf)
    requires At(k, g)
    requires OperandVal(a, k.regs).Some? && OperandVal(a, k.regs).value.IntV?
    requires Extends(Result(g, XorOnes(g.next, a), TInt).g.blocks, f)
    ensures ExprDone(g.next, Result(g, XorOnes(g.next, a), TInt), k.regs,
      EOk(IntV(-1 - OperandVal(a, k.regs).value.n), k.mem), Step(f, k))
  {
    StepAt(f, g, XorOnes(g.next, a), k);
  }

  lemma SimIncDec(f: Cfg, g: Gen, e: Expr, c: Ctx, env: Env, k: Conf) returns (n: nat)
    requires e.IncDec?
    requires Ready(g, c, env, k)
    requires Type(e, c).Some?
    requires Extends(GenExpr(g, e).g.blocks, f)
    ensures ExprDone(g.next, GenExpr(g, e), k.regs, Eval(e, env, k.mem), StepN(f, k, n))
  {
    hide Extends, Local, Bound, Known, Typed, Grown, MemTyped, BinVal, Exec, Step;
    ReadyVar(g, c, env, k, e.x);
    var v := Lookup(g.vars, e.x).value;
    var before := Result(g, Load(g.next, v.ty, v.ptr), v.ty);
    var g1 := before.g;
    var op := if e.inc then OAdd else OSub;
    var after := Result(g1, Bin(g1.next, op, before.val, Const(IntV(1))), v.ty);
    var g2 := Put(after.g, Store(after.val, v.ptr));
    ExtendsTrans(after.g.blocks, g2.blocks, f);
    ExtendsTrans(g1.blocks, after.g.blocks, f);
    LoadStep(f, g, v.ty, v.ptr, env[e.x], k);
    StepAfter(f, k, 0);
    n := 1;
    if Read(k.mem, env[e.x]).Some? {
      var k1 := StepN(f, k, 1);
      BinStep(f, g1, op, before.val, Const(IntV(1)), v.ty, k1);
      StepAfter(f, k, 1);
      var k2 := StepN(f, k, 2);
      assert OperandVal(v.ptr, k2.regs) == Some(PtrV(env[e.x])) by { PtrLater(g, c, env, k, k2, e.x); }
      StoreStep(f, after.g, after.val, v.ptr, env[e.x], k2);
      StepAfter(f, k, 2);
      n := 3;
    }
  }

  lemma PtrBelow(g: Gen, c: Ctx, env: Env, k: Conf, x: Name)
    requires Ready(g, c, env, k) && x in c
    ensures Lookup(g.vars, x).Some? && Below(Lookup(g.vars, x).value.ptr, g.next)
  {
  }

  lemma PtrLater(g: Gen, c: Ctx, env: Env, k: Conf, k1: Conf, x: Name)
    requires Ready(g, c, env, k) && x in c && k1.Run? && Agree(g.next, k.regs, k1.regs)
    ensures x in env && Lookup(g.vars, x).Some?
    ensures OperandVal(Lookup(g.vars, x).value.ptr, k1.regs) == Some(PtrV(env[x]))
  {
  }

  lemma {:induction false} SimAssign(f: Cfg, g: Gen, e: Expr, c: Ctx, env: Env, k: Conf) returns (n: nat)
    requires e.Assign?
    requires Ready(g, c, env, k)
    requires Type(e, c).Some?
    requires Extends(GenExpr(g, e).g.blocks, f)
    ensures ExprDone(g.next, GenExpr(g, e), k.regs, Eval(e, env, k.mem), StepN(f, k, n))
    decreases e, 1
  {
    hide Extends, Local, Bound, Known, Typed, Grown, MemTyped, BinVal, Exec, Step;
    var a := GenExpr(g, e.value);
    GenTyped(g, e.value, c);
    ReadyVar(g, c, env, k, e.x);
    var v := Lookup(g.vars, e.x).value;
    n := SimPart(f, g, e, e.value, c, env, k, GenExpr(g, e).g.blocks);
    var r := Eval(e.value, env, k.mem);
    if r.EOk? {
      var k1 := StepN(f, k, n);
      ReadyVar(a.g, c, env, k1, e.x);
      if e.aop == AssignOp.Set {
        StoreStep(f, a.g, a.val, v.ptr, env[e.x], k1);
        StepAfter(f, k, n);
        n := n + 1;
      } else {
        PtrBelow(g, c, env, k, e.x);
        var n1 := SimCompound(f, a, v, e.aop, env[e.x], r.v, k1);
        StepsAdd(f, k, n, n1);
        n := n + n1;
      }
    }
  }

  /** Load, operate, store: the tail of a compound assignment. */
  lemma SimCompound(f: Cfg, a: Code, v: Var, aop: AssignOp, loc: nat, w: Val, k: Conf) returns (n: nat)
    requires aop != AssignOp.Set
    requires At(k, a.g) && Below(a.val, a.g.next) && Below(v.ptr, a.g.next)
    requires loc < |k.mem| && k.mem[loc].ty == a.ty == TInt && w.IntV?
    requires k.mem[loc].val.Some? ==> k.mem[loc].val.value.IntV?
    requires OperandVal(a.val, k.regs) == Some(w) && OperandVal(v.ptr, k.regs) == Some(PtrV(loc))
    requires Extends(GenAssign(a, v, aop).g.blocks, f)
    ensures ExprDone(a.g.next, GenAssign(a, v, aop), k.regs,
      match Read(k.mem, loc)
      case None => EWrong
      case Some(before) =>
        match BinVal(CompoundOp(aop), before, w)
        case None => EWrong
        case Some(u) => AssignTo(k.mem, loc, u, u), StepN(f, k, n))
  {
    hide Extends, Local, BinVal, Exec, Step;
    var loaded := Result(a.g, Load(a.g.next, a.ty, v.ptr), a.ty);
    var g1 := loaded.g;
    var res := Result(g1, Bin(g1.next, AssignCode(aop), loaded.val, a.val), a.ty);
    var g2 := Put(res.g, Store(res.val, v.ptr));
    ExtendsTrans(res.g.blocks, g2.blocks, f);
    ExtendsTrans(g1.blocks, res.g.blocks, f);
    LoadStep(f, a.g, a.ty, v.ptr, loc, k);
    StepAfter(f, k, 0);
    n := 1;
    if Read(k.mem, loc).Some? {
      var before := Read(k.mem, loc).value;
      var k1 := StepN(f, k, 1);
      OpCodeCorrect(CompoundOp(aop), before, w, TInt, TInt);
      BinStep(f, g1, AssignCode(aop), loaded.val, a.val, a.ty, k1);
      StepAfter(f, k, 1);
      n := 2;
      if BinVal(CompoundOp(aop), before, w).Some? {
        BinTyped(CompoundOp(aop), before, w, TInt, TInt);
        StoreStep(f, res.g, res.val, v.ptr, loc, StepN(f, k, 2));
        StepAfter(f, k, 2);
        n := 3;
      }
    }
  }
}
