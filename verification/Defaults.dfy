/** What happens where nothing is chosen and nothing returned: the case of a `switch` or `match`
    without a hit and the end of a function, said without the functions that the meaning and the
    emitters share. */

module Defaults {
  import opened Int64
  import opened Options
  import opened Syntax
  import opened Values
  import opened Semantics
  import opened Ir
  import opened EmitStmt
  import opened Typing
  import opened Checking
  import opened Compile

  predicate HasValue(arms: seq<Arm>, n: i64) {
    exists i :: 0 <= i < |arms| && arms[i].tag == Value(n)
  }

  /** The last default, wherever it stands. */
  predicate Fallback(arms: seq<Arm>, i: nat) {
    i < |arms| && arms[i].tag == Default && forall j :: i < j < |arms| ==> arms[j].tag != Default
  }

  /** The first case with the value, else the fallback. */
  predicate Chosen(arms: seq<Arm>, n: i64, i: nat) {
    i < |arms| &&
    if HasValue(arms, n) then arms[i].tag == Value(n) && forall j :: 0 <= j < i ==> arms[j].tag != Value(n)
    else Fallback(arms, i)
  }

  lemma {:induction false} FindValueFirst(arms: seq<Arm>, n: i64, from: nat)
    requires forall j :: 0 <= j < from && j < |arms| ==> arms[j].tag != Value(n)
    ensures match FindValue(arms, n, from)
      case None => !HasValue(arms, n)
      case Some(i) => arms[i].tag == Value(n) && forall j :: 0 <= j < i ==> arms[j].tag != Value(n)
    decreases |arms| - from
  {
    if from < |arms| && arms[from].tag != Value(n) {
      FindValueFirst(arms, n, from + 1);
    }
  }

  lemma {:induction false} LastDefaultIff(arms: seq<Arm>, i: nat)
    ensures LastDefault(arms) == Some(i) <==> Fallback(arms, i)
    decreases |arms|
  {
    if arms != [] && arms[|arms| - 1].tag != Default {
      LastDefaultIff(arms[..|arms| - 1], i);
    }
  }

  lemma ChosenIff(arms: seq<Arm>, n: i64, i: nat)
    ensures SwitchTarget(arms, n) == Some(i) <==> Chosen(arms, n, i)
  {
    FindValueFirst(arms, n, 0);
    LastDefaultIff(arms, i);
  }

  /** A `switch` runs the body of the case chosen and no other; without one it does nothing. */
  lemma SwitchRuns(e: Expr, arms: seq<Arm>, env: Env, m: Mem, n: i64, m1: Mem, loop: bool, fuel: nat)
    requires Eval(e, env, m) == EOk(IntV(n), m1)
    ensures forall i: nat :: Chosen(arms, n, i) ==>
      ExecStmt(Stmt.Switch(e, arms), env, m, loop, fuel) == Leave(ExecSeq(arms[i].body, env, m1, loop, fuel), env)
    ensures (forall i: nat :: !Chosen(arms, n, i)) ==> ExecStmt(Stmt.Switch(e, arms), env, m, loop, fuel) == SOk(Normal, env, m1)
  {
    forall i: nat ensures SwitchTarget(arms, n) == Some(i) <==> Chosen(arms, n, i) { ChosenIff(arms, n, i); }
  }

  /** A `match` without a hit runs the fallback with the effects of its tests. */
  lemma MatchFallsBack(e: Expr, arms: seq<Arm>, env: Env, m: Mem, v: Val, m1: Mem, m2: Mem, loop: bool, fuel: nat)
    requires Eval(e, env, m) == EOk(v, m1) && Pick(arms, 0, v, env, m1) == PNone(m2)
    ensures forall i: nat :: Fallback(arms, i) ==>
      ExecStmt(Match(e, arms), env, m, loop, fuel) == Leave(ExecSeq(arms[i].body, env, m2, loop, fuel), env)
    ensures (forall i: nat :: !Fallback(arms, i)) ==> ExecStmt(Match(e, arms), env, m, loop, fuel) == SOk(Normal, env, m2)
  {
    forall i: nat ensures LastDefault(arms) == Some(i) <==> Fallback(arms, i) { LastDefaultIff(arms, i); }
  }

  /** Compiled code of a body that runs to its end returns 0, `false` or nothing. */
  lemma EndReturns(f: Func, vars: seq<Emit.Var>, c: Ctx, genv: Env, args: seq<Val>, m: Mem, env: Env, m0: Mem, fuel: nat, env1: Env, m1: Mem)
    requires CheckFunc(f, c) && Globals(vars, c, genv) && Typed(c, genv, m) && ArgsFit(args, f.params)
    requires Bind(f.params, args, genv, m) == (env, m0) && ExecSeq(f.body, env, m0, false, fuel) == SOk(Normal, env1, m1)
    ensures var v := match f.ret case None => None case Some(TInt) => Some(IntV(0)) case Some(TBool) => Some(BoolV(false));
      Reaches(GenFunc(f, vars).blocks, Start(args, m), Done(v, m1))
  {
    var v := match f.ret case None => None case Some(TInt) => Some(IntV(0)) case Some(TBool) => Some(BoolV(false));
    hide ExecSeq, Bind, GenFunc, CheckFunc, Globals, Typed, Start;
    assert Call(f, args, genv, m, fuel) == FRet(v, m1);
    ReturnsIff(f, vars, c, genv, args, m, v, m1);
  }
}
