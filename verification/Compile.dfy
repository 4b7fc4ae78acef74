/** Whole functions: the emitted code returns, traps and runs forever exactly when the meaning
    of the function does. */

module Compile {
  import opened Int64
  import opened Options
  import opened Syntax
  import opened Values
  import opened Semantics
  import opened Ir
  import opened Emit
  import opened EmitStmt
  import opened Typing
  import opened Checking
  import opened SimExpr
  import opened Names
  import opened SimStmt

  /** The registry resolves every global to its own address. */
  predicate Globals(vars: seq<Var>, c: Ctx, env: Env) {
    && c.Keys == env.Keys
    && forall x :: x in c ==> Lookup(vars, x) == Some(Var(x, Const(PtrV(env[x])), c[x]))
  }

  predicate ArgsFit(args: seq<Val>, params: seq<Param>) {
    |args| == |params| && forall i :: 0 <= i < |params| ==> HasType(args[i], params[i].ty)
  }

  /** Where a call starts: at the entry block with the arguments in the first registers. */
  function Start(args: seq<Val>, m: Mem): Conf {
    Run(0, 0, 0, map i | 0 <= i < |args| :: args[i], m)
  }

  /** A parameter's slot.  Its name may hide a global. */
  lemma SimParam(f: Cfg, g: Gen, p: Param, from: nat, v: Val, c: Ctx, env: Env, k: Conf)
    requires Ready(g, c, env, k)
    requires from < g.next && OperandVal(Reg(from), k.regs) == Some(v) && HasType(v, p.ty)
    requires Extends(Put(GenAlloca(g, p.x, p.ty), Store(Reg(from), Reg(g.next))).blocks, f)
    ensures var g2, k2 := Put(GenAlloca(g, p.x, p.ty), Store(Reg(from), Reg(g.next))), StepN(f, k, 2);
      var (env1, m1) := Declare(env, k.mem, p.x, p.ty, Some(v));
      && At(k2, g2) && k2.mem == m1 && Agree(g.next, k.regs, k2.regs)
      && Here(g2, c[p.x := p.ty], env1, k2)
  {
    hide Extends, Local, Typed;
    var g1 := GenAlloca(g, p.x, p.ty);
    var g2 := Put(g1, Store(Reg(from), Reg(g.next)));
    ExtendsTrans(g1.blocks, g2.blocks, f);
    StepAt(f, g, Alloca(g.next, p.ty), k);
    StepAfter(f, k, 0);
    var k1 := StepN(f, k, 1);
    StoreStep(f, g1, Reg(from), Reg(g.next), |k.mem|, k1);
    StepAfter(f, k, 1);
    DeclareTyped(c, env, k.mem, p.x, p.ty, Some(v));
    assert g2.vars[..|g2.vars| - 1] == g.vars;
  }

  lemma {:induction false} SimParams(f: Cfg, g: Gen, params: seq<Param>, from: nat, args: seq<Val>, c: Ctx, env: Env, k: Conf) returns (n: nat)
    requires Ready(g, c, env, k) && from <= |params| <= g.next && ArgsFit(args, params)
    requires forall i :: 0 <= i < |args| ==> OperandVal(Reg(i), k.regs) == Some(args[i])
    requires Extends(GenParams(g, params, from).blocks, f)
    ensures var g1, k1 := GenParams(g, params, from), StepN(f, k, n);
      var (env1, m1) := Bind(params[from..], args[from..], env, k.mem);
      && At(k1, g1) && k1.mem == m1 && Here(g1, WithParams(c, params[from..]), env1, k1)
      && g1.brk == g.brk && g1.cont == g.cont
    decreases |params| - from
  {
    hide Extends, Local, Bound, Known, Typed, GenAlloca;
    n := 0;
    if from < |params| {
      var p := params[from];
      var g1 := GenAlloca(g, p.x, p.ty);
      var g2 := Put(g1, Store(Reg(from), Reg(g.next)));
      ExtendsTrans(g2.blocks, GenParams(g2, params, from + 1).blocks, f);
      SimParam(f, g, p, from, args[from], c, env, k);
      var k2 := StepN(f, k, 2);
      var (env1, m1) := Declare(env, k.mem, p.x, p.ty, Some(args[from]));
      n := SimParams(f, g2, params, from + 1, args, c[p.x := p.ty], env1, k2);
      StepsAdd(f, k, 2, n);
      n := 2 + n;
      assert params[from..][1..] == params[from + 1..] && args[from..][1..] == args[from + 1..];
    }
  }

  /** No parameter ends the entry block. */
  lemma {:induction false} ParamsOpen(g: Gen, params: seq<Param>, from: nat)
    requires g.cur < |g.blocks| && !Terminated(g)
    ensures !Terminated(GenParams(g, params, from))
    decreases |params| - from
  {
    hide Extends, Local, Grew;
    if from < |params| {
      var g1 := GenAlloca(g, params[from].x, params[from].ty);
      ParamsOpen(Put(g1, Store(Reg(from), Reg(g.next))), params, from + 1);
    }
  }

  /** Where a call of `f` has taken the machine after `n` steps. */
  predicate CallDone(r: FResult, fuel: nat, k: Conf, n: nat) {
    match r
    case FTimeout => k.Run? && n >= fuel
    case FWrong => k.Trap?
    case FRet(v, m) => k == Done(v, m)
  }

  lemma StartReady(f: Func, vars: seq<Var>, c: Ctx, env: Env, args: seq<Val>, m: Mem)
    requires Globals(vars, c, env) && Typed(c, env, m) && ArgsFit(args, f.params)
    ensures Ready(Entry(f, vars), c, env, Start(args, m)) && !Terminated(Entry(f, vars))
  {
  }

  /** What the code of a function does for as much fuel as one likes. */
  lemma SimCall(f: Func, vars: seq<Var>, c: Ctx, env: Env, args: seq<Val>, m: Mem, fuel: nat) returns (n: nat)
    requires CheckFunc(f, c) && Globals(vars, c, env) && Typed(c, env, m) && ArgsFit(args, f.params)
    ensures CallDone(Call(f, args, env, m, fuel), fuel, StepN(GenFunc(f, vars).blocks, Start(args, m), n), n)
  {
    hide Extends, Local, Bound, Known, Typed, Globals, GenParams, GenSeq, ExecSeq, CheckSeq, Agree, Terminated, StepN;
    var code := GenFunc(f, vars).blocks;
    var g := Entry(f, vars);
    var g1 := GenParams(g, f.params, 0);
    var g2 := GenSeq(g1, f.body);
    var k := Start(args, m);
    StartReady(f, vars, c, env, args, m);
    CodeParts(f, vars);
    n := SimParams(code, g, f.params, 0, args, c, env, k);
    assert f.params[0..] == f.params && args[0..] == args;
    ParamsOpen(g, f.params, 0);
    var (env1, m1) := Bind(f.params, args, env, m);
    var k1 := StepN(code, k, n);
    var n1 := SimSeq(code, g1, f.body, WithParams(c, f.params), f.ret, env1, k1, false, fuel);
    StepsAdd(code, k, n, n1);
    n := n + n1;
    var r := ExecSeq(f.body, env1, m1, false, fuel);
    if r.SOk? && r.o.Normal? {
      StepAt(code, g2, if f.ret.None? then RetVoid else Ret(Const(Zero(f.ret.value))), StepN(code, k, n));
      StepAfter(code, k, n);
      n := n + 1;
    }
  }

  lemma CodeParts(f: Func, vars: seq<Var>)
    ensures var g1 := GenParams(Entry(f, vars), f.params, 0);
      var g2, code := GenSeq(g1, f.body), GenFunc(f, vars).blocks;
      && Extends(g1.blocks, code) && Extends(g2.blocks, code)
      && (!Terminated(g2) ==> code == Put(g2, if f.ret.None? then RetVoid else Ret(Const(Zero(f.ret.value)))).blocks)
  {
    hide GenParams, GenSeq;
    var g1 := GenParams(Entry(f, vars), f.params, 0);
    var g2 := GenSeq(g1, f.body);
    ExtendsTrans(g1.blocks, g2.blocks, GenFunc(f, vars).blocks);
  }

  /** Two runs of the same code that have both stopped have stopped in the same place. */
  lemma SameEnd(code: Cfg, k: Conf, n: nat, n1: nat)
    requires !StepN(code, k, n).Run?
    ensures n1 >= n ==> StepN(code, k, n1) == StepN(code, k, n)
    ensures !StepN(code, k, n1).Run? ==> StepN(code, k, n1) == StepN(code, k, n)
  {
    if n1 >= n {
      StepsAdd(code, k, n, n1 - n);
      StepsFinal(code, StepN(code, k, n), n1 - n);
    } else if !StepN(code, k, n1).Run? {
      StepsAdd(code, k, n1, n - n1);
      StepsFinal(code, StepN(code, k, n1), n - n1);
    }
  }

  /** With more fuel than steps, a run that stopped has an outcome and it is the stop's. */
  lemma StopsAs(f: Func, vars: seq<Var>, c: Ctx, env: Env, args: seq<Val>, m: Mem, n: nat)
    requires CheckFunc(f, c) && Globals(vars, c, env) && Typed(c, env, m) && ArgsFit(args, f.params)
    requires !StepN(GenFunc(f, vars).blocks, Start(args, m), n).Run?
    ensures CallDone(Call(f, args, env, m, n + 1), n + 1, StepN(GenFunc(f, vars).blocks, Start(args, m), n), n)
  {
    hide Call, GenFunc, CheckFunc, Globals, Typed, Start, Step;
    var n1 := SimCall(f, vars, c, env, args, m, n + 1);
    SameEnd(GenFunc(f, vars).blocks, Start(args, m), n, n1);
  }

  /** With enough fuel the call has result `r`. */
  ghost predicate Yields(f: Func, args: seq<Val>, env: Env, m: Mem, r: FResult)
    requires |args| == |f.params|
  {
    exists fuel: nat :: Call(f, args, env, m, fuel) == r
  }

  ghost predicate Reaches(code: Cfg, k: Conf, k1: Conf) {
    exists n: nat :: StepN(code, k, n) == k1
  }

  /** Code generation preserves meaning: a call of a checked function returns a value and
      leaves a memory if and only if its code does. */
  lemma ReturnsIff(f: Func, vars: seq<Var>, c: Ctx, env: Env, args: seq<Val>, m: Mem, v: Option<Val>, m1: Mem)
    requires CheckFunc(f, c) && Globals(vars, c, env) && Typed(c, env, m) && ArgsFit(args, f.params)
    ensures Yields(f, args, env, m, FRet(v, m1)) <==> Reaches(GenFunc(f, vars).blocks, Start(args, m), Done(v, m1))
  {
    hide Call, GenFunc, CheckFunc, Globals, Typed, Start;
    var code, k := GenFunc(f, vars).blocks, Start(args, m);
    if Yields(f, args, env, m, FRet(v, m1)) {
      var fuel: nat :| Call(f, args, env, m, fuel) == FRet(v, m1);
      var n := SimCall(f, vars, c, env, args, m, fuel);
    }
    if Reaches(code, k, Done(v, m1)) {
      var n: nat :| StepN(code, k, n) == Done(v, m1);
      StopsAs(f, vars, c, env, args, m, n);
    }
  }

  /** It fails, by reading an unset variable or dividing, if and only if its code does. */
  lemma FailsIff(f: Func, vars: seq<Var>, c: Ctx, env: Env, args: seq<Val>, m: Mem)
    requires CheckFunc(f, c) && Globals(vars, c, env) && Typed(c, env, m) && ArgsFit(args, f.params)
    ensures Yields(f, args, env, m, FWrong) <==> Reaches(GenFunc(f, vars).blocks, Start(args, m), Trap)
  {
    hide Call, GenFunc, CheckFunc, Globals, Typed, Start;
    var code, k := GenFunc(f, vars).blocks, Start(args, m);
    if Yields(f, args, env, m, FWrong) {
      var fuel: nat :| Call(f, args, env, m, fuel) == FWrong;
      var n := SimCall(f, vars, c, env, args, m, fuel);
    }
    if Reaches(code, k, Trap) {
      var n: nat :| StepN(code, k, n) == Trap;
      StopsAs(f, vars, c, env, args, m, n);
    }
  }

  /** It runs forever if and only if its code does. */
  lemma DivergesIff(f: Func, vars: seq<Var>, c: Ctx, env: Env, args: seq<Val>, m: Mem)
    requires CheckFunc(f, c) && Globals(vars, c, env) && Typed(c, env, m) && ArgsFit(args, f.params)
    ensures (forall fuel: nat :: Call(f, args, env, m, fuel) == FTimeout) <==>
            (forall n: nat :: StepN(GenFunc(f, vars).blocks, Start(args, m), n).Run?)
  {
    hide Call, GenFunc, CheckFunc, Globals, Typed, Start;
    var code, k := GenFunc(f, vars).blocks, Start(args, m);
    if n: nat :| !StepN(code, k, n).Run? {
      StopsAs(f, vars, c, env, args, m, n);
      assert Call(f, args, env, m, n + 1) != FTimeout;
    } else if fuel: nat :| Call(f, args, env, m, fuel) != FTimeout {
      var n := SimCall(f, vars, c, env, args, m, fuel);
    }
  }
}
