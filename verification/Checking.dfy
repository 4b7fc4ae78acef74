/** The static rules for statements and what a run of a checked statement keeps. */

module Checking {
  import opened Int64
  import opened Options
  import opened Syntax
  import opened Values
  import opened Semantics
  import opened Typing

  predicate CheckPattern(p: Pattern, c: Ctx) {
    match p
    case PIn(_, lo, hi) => Type(lo, c) == Some(TInt) && Type(hi, c) == Some(TInt)
    case PCmp(op, _, r) => Comparison(op) && Type(r, c) == Some(TInt)
    case PVal(e) => Type(e, c) == Some(TInt)
  }

  predicate CheckIter(iter: Iter, c: Ctx) {
    (iter.Range? ==> Type(iter.lo, c) == Some(TInt)) && Type(iter.hi, c) == Some(TInt)
  }

  /** The context after the statements, or none if they break a rule.  `ret` is the return
      type of the function. */
  function CheckSeq(ss: seq<Stmt>, c: Ctx, ret: Option<Ty>): Option<Ctx>
    decreases ss, 0
  {
    if ss == [] then Some(c)
    else
      match CheckStmt(ss[0], c, ret)
      case None => None
      case Some(c1) => CheckSeq(ss[1..], c1, ret)
  }

  predicate Checked(ss: seq<Stmt>, c: Ctx, ret: Option<Ty>)
    decreases ss, 1
  {
    CheckSeq(ss, c, ret).Some?
  }

  /** A declaration may not hide a name in scope. */
  function CheckStmt(s: Stmt, c: Ctx, ret: Option<Ty>): Option<Ctx>
    decreases s, 1
  {
    match s
    case ExprStmt(e) => if Type(e, c).Some? then Some(c) else None
    case VarDecl(ty, x, init) =>
      if x !in c && (init.Some? ==> Type(init.value, c).Some?) then Some(c[x := ty]) else None
    case Return(None) => if ret.None? then Some(c) else None
    case Return(Some(e)) => if ret.Some? && Type(e, c) == ret then Some(c) else None
    case Break => Some(c)
    case Continue => Some(c)
    case Unsafe(body) => CheckSeq(body, c, ret)
    case If(e, thn, els) =>
      if Type(e, c) == Some(TBool) && Checked(thn, c, ret) && (els.Else? ==> Checked(els.body, c, ret))
      then Some(c) else None
    case Switch(e, arms) =>
      if Type(e, c) == Some(TInt) && CheckArms(arms, false, c, ret) then Some(c) else None
    case Match(e, arms) =>
      if Type(e, c) == Some(TInt) && CheckArms(arms, true, c, ret) then Some(c) else None
    case While(e, body) =>
      if Type(e, c) == Some(TBool) && Checked(body, c, ret) then Some(c) else None
    case DoWhile(body, e) =>
      if Type(e, c) == Some(TBool) && Checked(body, c, ret) then Some(c) else None
    case For(x, iter, body) =>
      if x !in c && CheckIter(iter, c) && Checked(body, c[x := TInt], ret) then Some(c) else None
    case CFor(init, e, u, body) =>
      var c1 := if init.None? then Some(c)
                else if init.value.VarDecl? || init.value.ExprStmt? then CheckStmt(init.value, c, ret)
                else None;
      if && c1.Some?
         && (e.Some? ==> Type(e.value, c1.value) == Some(TBool))
         && (u.Some? ==> Type(u.value, c1.value).Some?)
         && Checked(body, c1.value, ret)
      then Some(c) else None
  }

  predicate CheckArms(arms: seq<Arm>, patterns: bool, c: Ctx, ret: Option<Ty>)
    decreases arms, 0
  {
    forall i :: 0 <= i < |arms| ==>
      && (arms[i].tag.Value? ==> !patterns)
      && (arms[i].tag.Test? ==> patterns && CheckPattern(arms[i].tag.p, c))
      && Checked(arms[i].body, c, ret)
  }

  /** A checked function, with the types of the globals it may use. */
  predicate CheckFunc(f: Func, globals: Ctx) {
    Checked(f.body, WithParams(globals, f.params), f.ret)
  }

  function WithParams(c: Ctx, params: seq<Param>): Ctx
    decreases |params|
  {
    if params == [] then c else WithParams(c[params[0].x := params[0].ty], params[1..])
  }

  /** The context only grows. */
  lemma {:induction false} CheckGrows(ss: seq<Stmt>, c: Ctx, ret: Option<Ty>)
    requires CheckSeq(ss, c, ret).Some?
    ensures var c1 := CheckSeq(ss, c, ret).value; forall x :: x in c ==> x in c1 && c1[x] == c[x]
    decreases ss, 0
  {
    if ss != [] {
      CheckGrows1(ss[0], c, ret);
      CheckGrows(ss[1..], CheckStmt(ss[0], c, ret).value, ret);
    }
  }

  lemma {:induction false} CheckGrows1(s: Stmt, c: Ctx, ret: Option<Ty>)
    requires CheckStmt(s, c, ret).Some?
    ensures var c1 := CheckStmt(s, c, ret).value; forall x :: x in c ==> x in c1 && c1[x] == c[x]
    decreases s, 1
  {
    if s.Unsafe? {
      CheckGrows(s.body, c, ret);
    }
  }

  /** What a run of a checked statement leaves: typed memory, a returned value of the
      return type, and after normal completion a typed scope. */
  predicate RunTyped(r: SResult, c1: Ctx, ret: Option<Ty>, m: Mem) {
    match r
    case SOk(o, env1, m1) =>
      && MemTyped(m1) && Grown(m, m1)
      && (o.Normal? ==> Typed(c1, env1, m1))
      && (o.Returned? ==> o.v.Some? == ret.Some? && (ret.Some? ==> HasType(o.v.value, ret.value)))
    case _ => true
  }

  lemma RunTypedLater(r: SResult, c1: Ctx, ret: Option<Ty>, m: Mem, m1: Mem)
    requires Grown(m, m1) && RunTyped(r, c1, ret, m1)
    ensures RunTyped(r, c1, ret, m)
  {
  }

  /** A scope that ends: back to the context it started from. */
  lemma RunTypedLeave(r: SResult, c: Ctx, c1: Ctx, env: Env, ret: Option<Ty>, m: Mem, m1: Mem)
    requires Typed(c, env, m) && Grown(m, m1) && RunTyped(r, c1, ret, m1)
    ensures RunTyped(Leave(r, env), c, ret, m)
  {
    if r.SOk? {
      TypedLater(c, env, m, r.mem);
    }
  }

  lemma DeclareTyped(c: Ctx, env: Env, m: Mem, x: Name, ty: Ty, v: Option<Val>)
    requires Typed(c, env, m) && (v.Some? ==> HasType(v.value, ty))
    ensures var (env1, m1) := Declare(env, m, x, ty, v);
      Typed(c[x := ty], env1, m1) && Grown(m, m1)
  {
  }

  lemma {:induction false} ExecSeqTyped(ss: seq<Stmt>, c: Ctx, ret: Option<Ty>, env: Env, m: Mem, loop: bool, fuel: nat)
    requires Typed(c, env, m) && CheckSeq(ss, c, ret).Some?
    ensures RunTyped(ExecSeq(ss, env, m, loop, fuel), CheckSeq(ss, c, ret).value, ret, m)
    decreases fuel, ss, 0
  {
    hide Typed, MemTyped, Grown, RunTyped;
    if ss == [] {
      RunTypedHere(Normal, c, ret, env, m);
    } else {
      var c1 := CheckStmt(ss[0], c, ret).value;
      ExecStmtTyped(ss[0], c, ret, env, m, loop, fuel);
      var r := ExecStmt(ss[0], env, m, loop, fuel);
      RunTypedParts(r, c1, ret, m);
      if r.SOk? && r.o.Normal? {
        ExecSeqTyped(ss[1..], c1, ret, r.env, r.mem, loop, fuel);
        RunTypedLater(ExecSeq(ss[1..], r.env, r.mem, loop, fuel), CheckSeq(ss, c, ret).value, ret, m, r.mem);
      } else {
        RunTypedOther(r, c1, CheckSeq(ss, c, ret).value, ret, m);
      }
    }
  }

  lemma RunTypedHere(o: Outcome, c: Ctx, ret: Option<Ty>, env: Env, m: Mem)
    requires Typed(c, env, m) && !o.Returned?
    ensures RunTyped(SOk(o, env, m), c, ret, m)
  {
  }

  lemma NoRun(c: Ctx, ret: Option<Ty>, m: Mem)
    ensures RunTyped(SWrong, c, ret, m) && RunTyped(STimeout, c, ret, m)
  {
  }

  lemma RunTypedParts(r: SResult, c: Ctx, ret: Option<Ty>, m: Mem)
    requires RunTyped(r, c, ret, m)
    ensures r.SOk? ==> MemTyped(r.mem) && Grown(m, r.mem)
    ensures r.SOk? && r.o.Normal? ==> Typed(c, r.env, r.mem)
  {
  }

  lemma RunTypedOther(r: SResult, c: Ctx, c1: Ctx, ret: Option<Ty>, m: Mem)
    requires RunTyped(r, c, ret, m) && !(r.SOk? && r.o.Normal?)
    ensures RunTyped(r, c1, ret, m)
  {
  }

  lemma {:induction false} ExecStmtTyped(s: Stmt, c: Ctx, ret: Option<Ty>, env: Env, m: Mem, loop: bool, fuel: nat)
    requires Typed(c, env, m) && CheckStmt(s, c, ret).Some?
    ensures RunTyped(ExecStmt(s, env, m, loop, fuel), CheckStmt(s, c, ret).value, ret, m)
    decreases fuel, s, 1
  {
    hide Typed, MemTyped, Grown, RunTyped, Eval, Type;
    NoRun(c, ret, m);
    match s
    case ExprStmt(e) =>
      EvalTyped(e, c, env, m);
      if Eval(e, env, m).EOk? { AfterEval(Normal, c, ret, env, m, Eval(e, env, m).mem); }
    case VarDecl(_, _, _) => VarDeclTyped(s, c, ret, env, m, loop, fuel);
    case Return(value) =>
      RunTypedHere(Normal, c, ret, env, m);
      RunTypedParts(SOk(Normal, env, m), c, ret, m);
      if value.Some? {
        EvalTyped(value.value, c, env, m);
        if Eval(value.value, env, m).EOk? { AfterEval(Normal, c, ret, env, m, Eval(value.value, env, m).mem); }
      }
      ReturnTyped(s, c, ret, env, m, loop, fuel);
    case Break => RunTypedHere(Broke, c, ret, env, m); RunTypedHere(Normal, c, ret, env, m);
    case Continue => RunTypedHere(Continued, c, ret, env, m); RunTypedHere(Normal, c, ret, env, m);
    case Unsafe(body) => ExecSeqTyped(body, c, ret, env, m, loop, fuel);
    case If(_, _, _) => IfTyped(s, c, ret, env, m, loop, fuel);
    case Switch(_, _) => SwitchTyped(s, c, ret, env, m, loop, fuel);
    case Match(_, _) => MatchTyped(s, c, ret, env, m, loop, fuel);
    case While(e, body) => WhileTyped(e, body, c, ret, env, m, fuel);
    case DoWhile(body, e) => DoWhileTyped(body, e, c, ret, env, m, fuel);
    case For(_, _, _) => ForTyped(s, c, ret, env, m, loop, fuel);
    case CFor(_, _, _, _) => CForTyped(s, c, ret, env, m, loop, fuel);
  }

  lemma AfterEval(o: Outcome, c: Ctx, ret: Option<Ty>, env: Env, m: Mem, m1: Mem)
    requires Typed(c, env, m) && Kept(m, m1) && !o.Returned?
    ensures Typed(c, env, m1) && Grown(m, m1) && RunTyped(SOk(o, env, m1), c, ret, m)
  {
    TypedLater(c, env, m, m1);
  }

  lemma ReturnTyped(s: Stmt, c: Ctx, ret: Option<Ty>, env: Env, m: Mem, loop: bool, fuel: nat)
    requires Typed(c, env, m) && CheckStmt(s, c, ret).Some? && s.Return?
    ensures RunTyped(ExecStmt(s, env, m, loop, fuel), c, ret, m)
  {
    if s.value.Some? {
      EvalTyped(s.value.value, c, env, m);
    }
  }

  lemma VarDeclTyped(s: Stmt, c: Ctx, ret: Option<Ty>, env: Env, m: Mem, loop: bool, fuel: nat)
    requires Typed(c, env, m) && CheckStmt(s, c, ret).Some? && s.VarDecl?
    ensures RunTyped(ExecStmt(s, env, m, loop, fuel), CheckStmt(s, c, ret).value, ret, m)
  {
    hide Typed, MemTyped, RunTyped, Eval, Type;
    NoRun(c[s.x := s.ty], ret, m);
    var c1 := c[s.x := s.ty];
    var (env1, m1) := Declare(env, m, s.x, s.ty, None);
    DeclareTyped(c, env, m, s.x, s.ty, None);
    if s.init.None? {
      RunTypedHere(Normal, c1, ret, env1, m1);
      RunTypedLater(SOk(Normal, env1, m1), c1, ret, m, m1);
    } else {
      var e := s.init.value;
      TypedMore(c, env, m, m1);
      EvalTyped(e, c, env, m1);
      var r := Eval(e, env, m1);
      if r.EOk? {
        AfterEval(Normal, c1, ret, env1, m1, r.mem);
        AssignTyped(r.mem, |m|, Convert(s.ty, r.v), r.v);
        var m3 := AssignTo(r.mem, |m|, Convert(s.ty, r.v), r.v).mem;
        AfterEval(Normal, c1, ret, env1, r.mem, m3);
        RunTypedLater(SOk(Normal, env1, m3), c1, ret, m, r.mem);
      }
    }
  }

  lemma TypedMore(c: Ctx, env: Env, m: Mem, m1: Mem)
    requires Typed(c, env, m) && Grown(m, m1)
    requires forall i :: |m| <= i < |m1| ==> m1[i].val.None?
    requires m1[..|m|] == m
    ensures Typed(c, env, m1)
  {
    forall i | 0 <= i < |m| ensures m1[i] == m[i] { assert m1[..|m|][i] == m[i]; }
  }

  lemma IfTyped(s: Stmt, c: Ctx, ret: Option<Ty>, env: Env, m: Mem, loop: bool, fuel: nat)
    requires Typed(c, env, m) && CheckStmt(s, c, ret).Some? && s.If?
    ensures RunTyped(ExecStmt(s, env, m, loop, fuel), c, ret, m)
    decreases fuel, s, 0
  {
    hide Typed, MemTyped, Grown, RunTyped, Eval, Type;
    NoRun(c, ret, m);
    EvalTyped(s.cond, c, env, m);
    var r := Eval(s.cond, env, m);
    if r.EOk? {
      AfterEval(Normal, c, ret, env, m, r.mem);
      if r.v == BoolV(true) {
        ScopeTyped(s.thn, c, ret, env, m, r.mem, loop, fuel);
      } else if s.els.Else? {
        ScopeTyped(s.els.body, c, ret, env, m, r.mem, loop, fuel);
      }
    }
  }

  /** A body run in its own scope from `m1`, seen from the statement's start. */
  lemma {:induction false} ScopeTyped(ss: seq<Stmt>, c: Ctx, ret: Option<Ty>, env: Env, m: Mem, m1: Mem, loop: bool, fuel: nat)
    requires Typed(c, env, m) && Typed(c, env, m1) && Grown(m, m1) && Checked(ss, c, ret)
    ensures RunTyped(Leave(ExecSeq(ss, env, m1, loop, fuel), env), c, ret, m)
    decreases fuel, ss, 1
  {
    ExecSeqTyped(ss, c, ret, env, m1, loop, fuel);
    RunTypedLeave(ExecSeq(ss, env, m1, loop, fuel), c, CheckSeq(ss, c, ret).value, env, ret, m, m1);
  }

  lemma SwitchTyped(s: Stmt, c: Ctx, ret: Option<Ty>, env: Env, m: Mem, loop: bool, fuel: nat)
    requires Typed(c, env, m) && CheckStmt(s, c, ret).Some? && s.Switch?
    ensures RunTyped(ExecStmt(s, env, m, loop, fuel), c, ret, m)
    decreases fuel, s, 0
  {
    hide Typed, MemTyped, Grown, RunTyped, Eval, Type, SwitchTarget;
    NoRun(c, ret, m);
    EvalTyped(s.e, c, env, m);
    var r := Eval(s.e, env, m);
    if r.EOk? {
      AfterEval(Normal, c, ret, env, m, r.mem);
      var t := SwitchTarget(s.arms, r.v.n);
      if t.Some? {
        ScopeTyped(s.arms[t.value].body, c, ret, env, m, r.mem, loop, fuel);
      }
    }
  }

  lemma {:induction false} MatchesTyped(p: Pattern, v: Val, c: Ctx, env: Env, m: Mem)
    requires Typed(c, env, m) && CheckPattern(p, c)
    ensures var r := Matches(p, v, env, m); r.EOk? ==> Kept(m, r.mem)
  {
    hide Typed, Eval, Type;
    match p
    case PIn(_, lo, hi) =>
      EvalTyped(lo, c, env, m);
      var a := Eval(lo, env, m);
      if a.EOk? {
        AfterEval(Normal, c, None, env, m, a.mem);
        EvalTyped(hi, c, env, a.mem);
      }
    case PCmp(_, _, r) => EvalTyped(r, c, env, m);
    case PVal(e) => EvalTyped(e, c, env, m);
  }

  lemma {:induction false} PickTyped(arms: seq<Arm>, from: nat, v: Val, c: Ctx, ret: Option<Ty>, env: Env, m: Mem)
    requires Typed(c, env, m) && CheckArms(arms, true, c, ret)
    ensures var r := Pick(arms, from, v, env, m);
      !r.PWrong? ==> Kept(m, r.mem)
    decreases |arms| - from
  {
    hide Typed, Matches;
    if from < |arms| {
      if arms[from].tag.Test? {
        MatchesTyped(arms[from].tag.p, v, c, env, m);
        var r := Matches(arms[from].tag.p, v, env, m);
        if r.EOk? {
          AfterEval(Normal, c, ret, env, m, r.mem);
          PickTyped(arms, from + 1, v, c, ret, env, r.mem);
        }
      } else {
        PickTyped(arms, from + 1, v, c, ret, env, m);
      }
    } else {
      TypedParts(c, env, m);
    }
  }

  lemma TypedParts(c: Ctx, env: Env, m: Mem)
    requires Typed(c, env, m)
    ensures Kept(m, m)
  {
  }

  lemma MatchTyped(s: Stmt, c: Ctx, ret: Option<Ty>, env: Env, m: Mem, loop: bool, fuel: nat)
    requires Typed(c, env, m) && CheckStmt(s, c, ret).Some? && s.Match?
    ensures RunTyped(ExecStmt(s, env, m, loop, fuel), c, ret, m)
    decreases fuel, s, 0
  {
    hide Typed, MemTyped, RunTyped, Eval, Type, Pick, Kept, Grown;
    NoRun(c, ret, m);
    EvalTyped(s.e, c, env, m);
    var r := Eval(s.e, env, m);
    if r.EOk? {
      AfterEval(Normal, c, ret, env, m, r.mem);
      PickTyped(s.arms, 0, r.v, c, ret, env, r.mem);
      var p := Pick(s.arms, 0, r.v, env, r.mem);
      if !p.PWrong? {
        KeptTrans(m, r.mem, p.mem);
        AfterEval(Normal, c, ret, env, m, p.mem);
        var t := if p.PHit? then Some(p.i) else LastDefault(s.arms);
        if t.Some? {
          ScopeTyped(s.arms[t.value].body, c, ret, env, m, p.mem, loop, fuel);
        }
      }
    }
  }

  lemma KeptTrans(m: Mem, m1: Mem, m2: Mem)
    requires Kept(m, m1) && Kept(m1, m2)
    ensures Kept(m, m2)
  {
  }

  /** One iteration: the body's result seen from the loop, and where the next one starts. */
  lemma {:induction false} BodyTyped(body: seq<Stmt>, c: Ctx, ret: Option<Ty>, env: Env, m: Mem, fuel: nat)
    requires Typed(c, env, m) && Checked(body, c, ret)
    ensures var r := ExecSeq(body, env, m, true, fuel);
      && RunTyped(Leave(r, env), c, ret, m)
      && (r.SOk? ==> Grown(m, r.mem) && Typed(c, env, r.mem) && RunTyped(SOk(Normal, env, r.mem), c, ret, m))
      && (r.SOk? && r.o.Returned? ==> RunTyped(SOk(r.o, env, r.mem), c, ret, m))
    decreases fuel, body, 1
  {
    ExecSeqTyped(body, c, ret, env, m, true, fuel);
    var r := ExecSeq(body, env, m, true, fuel);
    GrownSame(m);
    RunTypedLeave(r, c, CheckSeq(body, c, ret).value, env, ret, m, m);
    if r.SOk? {
      TypedLater(c, env, m, r.mem);
    }
  }

  lemma GrownSame(m: Mem)
    ensures Grown(m, m)
  {
  }

  lemma {:induction false} WhileTyped(e: Expr, body: seq<Stmt>, c: Ctx, ret: Option<Ty>, env: Env, m: Mem, fuel: nat)
    requires Typed(c, env, m) && Type(e, c) == Some(TBool) && Checked(body, c, ret)
    ensures RunTyped(ExecWhile(e, body, env, m, fuel), c, ret, m)
    decreases fuel, body, 2
  {
    hide Typed, MemTyped, Grown, RunTyped, Eval, Type;
    NoRun(c, ret, m);
    if fuel > 0 {
      EvalTyped(e, c, env, m);
      var a := Eval(e, env, m);
      if a.EOk? {
        AfterEval(Normal, c, ret, env, m, a.mem);
        BodyTyped(body, c, ret, env, a.mem, fuel - 1);
        var r := ExecSeq(body, env, a.mem, true, fuel - 1);
        if r.SOk? {
          RunTypedLater(SOk(Normal, env, r.mem), c, ret, m, a.mem);
          WhileTyped(e, body, c, ret, env, r.mem, fuel - 1);
          LoopTyped(ExecWhile(e, body, env, r.mem, fuel - 1), r, c, ret, env, m, a.mem);
        } else {
          RunTypedLater(r, c, ret, m, a.mem);
        }
      }
    }
  }

  /** `next` is the rest of the loop after a body that ended in `r`. */
  lemma LoopTyped(next: SResult, r: SResult, c: Ctx, ret: Option<Ty>, env: Env, m: Mem, m1: Mem)
    requires Grown(m, m1) && r.SOk? && Grown(m1, r.mem)
    requires RunTyped(next, c, ret, r.mem)
    requires r.o.Returned? ==> RunTyped(SOk(r.o, env, r.mem), c, ret, m1)
    ensures RunTyped(next, c, ret, m)
    ensures r.o.Returned? ==> RunTyped(SOk(r.o, env, r.mem), c, ret, m)
  {
  }

  lemma {:induction false} DoWhileTyped(body: seq<Stmt>, e: Expr, c: Ctx, ret: Option<Ty>, env: Env, m: Mem, fuel: nat)
    requires Typed(c, env, m) && Type(e, c) == Some(TBool) && Checked(body, c, ret)
    ensures RunTyped(ExecDoWhile(body, e, env, m, fuel), c, ret, m)
    decreases fuel, body, 2
  {
    hide Typed, MemTyped, Grown, RunTyped, Eval, Type;
    NoRun(c, ret, m);
    if fuel > 0 {
      BodyTyped(body, c, ret, env, m, fuel - 1);
      var r := ExecSeq(body, env, m, true, fuel - 1);
      if r.SOk? {
        EvalTyped(e, c, env, r.mem);
        var a := Eval(e, env, r.mem);
        if a.EOk? {
          AfterEval(Normal, c, ret, env, r.mem, a.mem);
          RunTypedLater(SOk(Normal, env, a.mem), c, ret, m, r.mem);
          DoWhileTyped(body, e, c, ret, env, a.mem, fuel - 1);
          RunTypedLater(ExecDoWhile(body, e, env, a.mem, fuel - 1), c, ret, r.mem, a.mem);
          RunTypedLater(ExecDoWhile(body, e, env, a.mem, fuel - 1), c, ret, m, r.mem);
        }
      }
    }
  }

  lemma IncrementTyped(c: Ctx, env: Env, m: Mem, a: nat)
    requires Typed(c, env, m) && a < |m| && m[a].ty == TInt
    ensures var r := Increment(m, a); r.EOk? ==> Kept(m, r.mem)
  {
    if Read(m, a).Some? {
      var v := Read(m, a).value;
      BinTyped(Add, v, IntV(1), TInt, TInt);
      if BinVal(Add, v, IntV(1)).Some? {
        AssignTyped(m, a, BinVal(Add, v, IntV(1)).value, BinVal(Add, v, IntV(1)).value);
      }
    }
  }

  lemma {:induction false} RangeTyped(a: nat, hi: Val, body: seq<Stmt>, c: Ctx, ret: Option<Ty>, env: Env, m: Mem, fuel: nat)
    requires Typed(c, env, m) && Checked(body, c, ret) && a < |m| && m[a].ty == TInt
    ensures RunTyped(ExecFor(a, hi, body, env, m, fuel), c, ret, m)
    decreases fuel, body, 2
  {
    hide Typed, MemTyped, RunTyped, BinVal, Increment;
    NoRun(c, ret, m);
    RunTypedHere(Normal, c, ret, env, m);
    if fuel > 0 {
      BodyTyped(body, c, ret, env, m, fuel - 1);
      var r := ExecSeq(body, env, m, true, fuel - 1);
      if r.SOk? {
        IncrementTyped(c, env, r.mem, a);
        var i := Increment(r.mem, a);
        if i.EOk? {
          AfterEval(Normal, c, ret, env, r.mem, i.mem);
          RangeTyped(a, hi, body, c, ret, env, i.mem, fuel - 1);
          RunTypedLater(ExecFor(a, hi, body, env, i.mem, fuel - 1), c, ret, r.mem, i.mem);
          RunTypedLater(ExecFor(a, hi, body, env, i.mem, fuel - 1), c, ret, m, r.mem);
        }
      }
    }
  }

  lemma ForTyped(s: Stmt, c: Ctx, ret: Option<Ty>, env: Env, m: Mem, loop: bool, fuel: nat)
    requires Typed(c, env, m) && CheckStmt(s, c, ret).Some? && s.For?
    ensures RunTyped(ExecStmt(s, env, m, loop, fuel), c, ret, m)
    decreases fuel, s, 0
  {
    hide Typed, MemTyped, RunTyped, Eval, Type, Kept, Grown;
    NoRun(c, ret, m);
    TypedParts(c, env, m);
    if s.iter.Range? { EvalTyped(s.iter.lo, c, env, m); }
    var lo := if s.iter.Range? then Eval(s.iter.lo, env, m) else EOk(IntV(0), m);
    if lo.EOk? {
      AfterEval(Normal, c, ret, env, m, lo.mem);
      EvalTyped(s.iter.hi, c, env, lo.mem);
      var hi := Eval(s.iter.hi, env, lo.mem);
      if hi.EOk? {
        KeptTrans(m, lo.mem, hi.mem);
        AfterEval(Normal, c, ret, env, m, hi.mem);
        var (env1, m3) := Declare(env, hi.mem, s.x, TInt, Some(lo.v));
        DeclareTyped(c, env, hi.mem, s.x, TInt, Some(lo.v));
        RangeTyped(|hi.mem|, hi.v, s.body, c[s.x := TInt], ret, env1, m3, fuel);
        var r := ExecFor(|hi.mem|, hi.v, s.body, env1, m3, fuel);
        RunTypedLater(r, c[s.x := TInt], ret, hi.mem, m3);
        RunTypedLeave(r, c, c[s.x := TInt], env, ret, m, hi.mem);
      }
    }
  }

  lemma {:induction false} CLoopTyped(e: Option<Expr>, u: Option<Expr>, body: seq<Stmt>, c: Ctx, ret: Option<Ty>, env: Env, m: Mem, fuel: nat)
    requires Typed(c, env, m) && Checked(body, c, ret)
    requires e.Some? ==> Type(e.value, c) == Some(TBool)
    requires u.Some? ==> Type(u.value, c).Some?
    ensures RunTyped(ExecCFor(e, u, body, env, m, fuel), c, ret, m)
    decreases fuel, body, 2
  {
    hide Typed, MemTyped, Grown, RunTyped, Eval, Type, Kept;
    NoRun(c, ret, m);
    TypedParts(c, env, m);
    if fuel > 0 {
      if e.Some? { EvalTyped(e.value, c, env, m); }
      var a := if e.Some? then Eval(e.value, env, m) else EOk(BoolV(true), m);
      if a.EOk? {
        AfterEval(Normal, c, ret, env, m, a.mem);
        BodyTyped(body, c, ret, env, a.mem, fuel - 1);
        var r := ExecSeq(body, env, a.mem, true, fuel - 1);
        if r.SOk? {
          RunTypedLater(SOk(Normal, env, r.mem), c, ret, m, a.mem);
          if r.o.Returned? { RunTypedLater(SOk(r.o, env, r.mem), c, ret, m, a.mem); }
          TypedParts(c, env, r.mem);
          if u.Some? { EvalTyped(u.value, c, env, r.mem); }
          var b := if u.Some? then Eval(u.value, env, r.mem) else EOk(IntV(0), r.mem);
          if b.EOk? {
            AfterEval(Normal, c, ret, env, r.mem, b.mem);
            CLoopTyped(e, u, body, c, ret, env, b.mem, fuel - 1);
            var next := ExecCFor(e, u, body, env, b.mem, fuel - 1);
            RunTypedLater(next, c, ret, r.mem, b.mem);
            RunTypedLater(next, c, ret, a.mem, r.mem);
            RunTypedLater(next, c, ret, m, a.mem);
          }
        } else {
          RunTypedLater(r, c, ret, m, a.mem);
        }
      }
    }
  }

  lemma CForTyped(s: Stmt, c: Ctx, ret: Option<Ty>, env: Env, m: Mem, loop: bool, fuel: nat)
    requires Typed(c, env, m) && CheckStmt(s, c, ret).Some? && s.CFor?
    ensures RunTyped(ExecStmt(s, env, m, loop, fuel), c, ret, m)
    decreases fuel, s, 0
  {
    hide Typed, MemTyped, RunTyped, Eval, Type, Grown;
    if s.finit.None? {
      GrownSame(m);
      CLoopTyped(s.fcond, s.update, s.body, c, ret, env, m, fuel);
      RunTypedLeave(ExecCFor(s.fcond, s.update, s.body, env, m, fuel), c, c, env, ret, m, m);
    } else {
      var c1 := CheckStmt(s.finit.value, c, ret).value;
      ExecStmtTyped(s.finit.value, c, ret, env, m, loop, fuel);
      var r := ExecStmt(s.finit.value, env, m, loop, fuel);
      RunTypedParts(r, c1, ret, m);
      if r.SOk? && r.o.Normal? {
        CLoopTyped(s.fcond, s.update, s.body, c1, ret, r.env, r.mem, fuel);
        RunTypedLeave(ExecCFor(s.fcond, s.update, s.body, r.env, r.mem, fuel), c, c1, env, ret, m, r.mem);
      } else {
        GrownSame(m);
        RunTypedLeave(r, c, c1, env, ret, m, m);
      }
    }
  }
}
