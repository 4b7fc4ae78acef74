/** Whole programs: one registry serves all functions, and what it keeps between them decides
    which globals a later function can reach. */

module Program {
  import opened Int64
  import opened Options
  import opened Syntax
  import opened Values
  import opened Semantics
  import opened Ir
  import opened Emit
  import opened EmitStmt
  import opened Typing
  import opened Checking
  import opened Compile

  datatype Decl = Global(x: Name, ty: Ty) | Function(f: Func)

  /** The registry after the declarations (src/codegen/decl.c:250-299).  Global `k` is at
      address `k`. */
  function Registry(ds: seq<Decl>): seq<Var> {
    if ds == [] then []
    else
      var before, d := ds[..|ds| - 1], ds[|ds| - 1];
      match d
      case Global(x, ty) => Registry(before) + [Var(x, Const(PtrV(Count(before))), ty)]
      case Function(f) => VarsAfter(f, Registry(before))
  }

  function Count(ds: seq<Decl>): nat {
    if ds == [] then 0
    else Count(ds[..|ds| - 1]) + if ds[|ds| - 1].Global? then 1 else 0
  }

  /** What the names of globals mean after the declarations: functions declare none. */
  function Env(ds: seq<Decl>): Semantics.Env {
    if ds == [] then map[]
    else
      var before, d := ds[..|ds| - 1], ds[|ds| - 1];
      if d.Global? then Env(before)[d.x := Count(before)] else Env(before)
  }

  function Types(ds: seq<Decl>): Ctx {
    if ds == [] then map[]
    else
      var before, d := ds[..|ds| - 1], ds[|ds| - 1];
      if d.Global? then Types(before)[d.x := d.ty] else Types(before)
  }

  predicate HasParam(f: Func, x: Name) {
    exists i :: 0 <= i < |f.params| && f.params[i].x == x
  }

  /** A function has a parameter called `x` and no global of that name is declared after it. */
  predicate Captured(ds: seq<Decl>, x: Name) {
    exists i :: 0 <= i < |ds| && CapturedAt(ds, x, i)
  }

  predicate CapturedAt(ds: seq<Decl>, x: Name, i: nat)
    requires i < |ds|
  {
    ds[i].Function? && HasParam(ds[i].f, x) && forall j :: i < j < |ds| && ds[j].Global? ==> ds[j].x != x
  }

  lemma {:induction false} ParamVars(g: Gen, params: seq<Param>, from: nat)
    requires g.cur < |g.blocks| && from <= |params|
    ensures var vars := GenParams(g, params, from).vars;
      && |vars| == |g.vars| + |params| - from && g.vars <= vars
      && forall i :: |g.vars| <= i < |vars| ==>
         vars[i].x == params[i - |g.vars| + from].x && vars[i].ptr.Reg?
    decreases |params| - from
  {
    hide Extends, Local, Grew;
    if from < |params| {
      var g1 := GenAlloca(g, params[from].x, params[from].ty);
      ParamVars(Put(g1, Store(Reg(from), Reg(g.next))), params, from + 1);
    }
  }

  /** The backward search finds the last entry of that name. */
  lemma {:induction false} LookupLast(vars: seq<Var>, x: Name, i: nat)
    requires i < |vars| && vars[i].x == x && forall j :: i < j < |vars| ==> vars[j].x != x
    ensures Lookup(vars, x) == Some(vars[i])
    decreases |vars|
  {
    if i < |vars| - 1 {
      LookupLast(vars[..|vars| - 1], x, i);
    }
  }

  /** A function's parameters hide what the registry had under their names. */
  lemma {:induction false} ParamsHide(f: Func, vars: seq<Var>, x: Name)
    ensures HasParam(f, x) ==> Lookup(VarsAfter(f, vars), x).Some? && Lookup(VarsAfter(f, vars), x).value.ptr.Reg?
    ensures !HasParam(f, x) ==> Lookup(VarsAfter(f, vars), x) == Lookup(vars, x)
  {
    hide GenParams;
    ParamVars(Entry(f, vars), f.params, 0);
    var after := VarsAfter(f, vars);
    if HasParam(f, x) {
      var i := LastParam(f.params, x);
      LookupLast(after, x, |vars| + i);
    } else {
      Names.LookupLater(vars, after, x);
    }
  }

  lemma {:induction false} LastParam(params: seq<Param>, x: Name) returns (i: nat)
    requires exists j :: 0 <= j < |params| && params[j].x == x
    ensures i < |params| && params[i].x == x && forall j :: i < j < |params| ==> params[j].x != x
    decreases |params|
  {
    i := |params| - 1;
    if params[i].x != x {
      var init := params[..i];
      var j :| 0 <= j < |params| && params[j].x == x;
      assert init[j] == params[j];
      i := LastParam(init, x);
    }
  }

  /** Whether a name is captured after one more declaration. */
  lemma CapturedStep(ds: seq<Decl>, x: Name)
    requires ds != []
    ensures var before, d := ds[..|ds| - 1], ds[|ds| - 1];
      Captured(ds, x) <==>
        (if d.Global? then Captured(before, x) && d.x != x else HasParam(d.f, x) || Captured(before, x))
  {
    var n := |ds| - 1;
    var before, d := ds[..n], ds[n];
    forall i | 0 <= i < n
      ensures CapturedAt(ds, x, i) <==> CapturedAt(before, x, i) && (d.Global? ==> d.x != x)
    {
      assert ds[i] == before[i];
      if CapturedAt(before, x, i) && (d.Global? ==> d.x != x) {
        forall j | i < j < |ds| && ds[j].Global? ensures ds[j].x != x {
          if j < n { assert before[j] == ds[j]; }
        }
      }
      if CapturedAt(ds, x, i) {
        assert ds[n] == d;
        forall j | i < j < n && before[j].Global? ensures before[j].x != x {
          assert before[j] == ds[j];
        }
      }
    }
    assert CapturedAt(ds, x, n) <==> d.Function? && HasParam(d.f, x);
  }

  /** A global resolves to its own slot exactly when no parameter has captured its name:
      parameters are never removed from the registry. */
  lemma {:induction false} ResolvesIff(ds: seq<Decl>, x: Name)
    requires x in Types(ds)
    ensures x in Env(ds)
    ensures Lookup(Registry(ds), x) == Some(Var(x, Const(PtrV(Env(ds)[x])), Types(ds)[x])) <==> !Captured(ds, x)
    decreases |ds|
  {
    hide VarsAfter, Captured, HasParam;
    var before, d := ds[..|ds| - 1], ds[|ds| - 1];
    CapturedStep(ds, x);
    if d.Global? {
      var vars := Registry(ds);
      assert vars[..|vars| - 1] == Registry(before);
      if d.x != x {
        ResolvesIff(before, x);
      }
    } else {
      ResolvesIff(before, x);
      ParamsHide(d.f, Registry(before), x);
    }
  }

  lemma {:induction false} SameNames(ds: seq<Decl>)
    ensures Types(ds).Keys == Env(ds).Keys
    decreases |ds|
  {
    if ds != [] {
      SameNames(ds[..|ds| - 1]);
    }
  }

  /** So all globals are as the function expects exactly when none is captured. */
  lemma GlobalsIff(ds: seq<Decl>)
    ensures Globals(Registry(ds), Types(ds), Env(ds)) <==> forall x :: x in Types(ds) ==> !Captured(ds, x)
  {
    hide Captured, Registry, Types, Env;
    SameNames(ds);
    forall x | x in Types(ds)
      ensures x in Env(ds)
      ensures Lookup(Registry(ds), x) == Some(Var(x, Const(PtrV(Env(ds)[x])), Types(ds)[x])) <==> !Captured(ds, x)
    {
      ResolvesIff(ds, x);
    }
  }

  /** A function of a program, compiled after the declarations before it, computes what it
      means whenever no global is captured. */
  lemma ProgramCorrect(ds: seq<Decl>, f: Func, args: seq<Val>, m: Mem, v: Option<Val>, m1: Mem)
    requires CheckFunc(f, Types(ds)) && forall x :: x in Types(ds) ==> !Captured(ds, x)
    requires Typed(Types(ds), Env(ds), m) && ArgsFit(args, f.params)
    ensures var code, k := GenFunc(f, Registry(ds)).blocks, Start(args, m);
      && (Yields(f, args, Env(ds), m, FRet(v, m1)) <==> Reaches(code, k, Done(v, m1)))
      && (Yields(f, args, Env(ds), m, FWrong) <==> Reaches(code, k, Trap))
      && ((forall fuel: nat :: Call(f, args, Env(ds), m, fuel) == FTimeout) <==> forall n: nat :: StepN(code, k, n).Run?)
  {
    hide Captured, Registry, Types, Env, GenFunc, Call, CheckFunc, Typed, Start, StepN, Yields, Reaches, Globals;
    GlobalsIff(ds);
    ReturnsIff(f, Registry(ds), Types(ds), Env(ds), args, m, v, m1);
    FailsIff(f, Registry(ds), Types(ds), Env(ds), args, m);
    DivergesIff(f, Registry(ds), Types(ds), Env(ds), args, m);
  }
}
