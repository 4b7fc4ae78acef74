/** The flat list of `Scopes` is the code generator's: for every function of the scalar fragment the
    emitters register exactly the names its live declarations put there, and fail exactly at a live
    name that is not on it. */

module Resolution {
  import opened Options
  import opened Syntax
  import opened Ir
  import opened Emit
  import opened EmitStmt
  import Names
  import Agreement
  import Compile
  import O = Outline
  import Scopes
  import Semantics
  import SimStmt
  import WellFormed

  // ---- Syntax as an outline.

  function ExprOf(e: Expr): O.Expr {
    match e
    case IntLit(_) => O.Const
    case Ident(x) => O.Var(x)
    case Binary(_, l, r) => O.Op(ExprOf(l), ExprOf(r))
    case And(l, r) => O.Choice(ExprOf(l), ExprOf(r), O.Const)
    case Or(l, r) => O.Choice(ExprOf(l), O.Const, ExprOf(r))
    case Ternary(c, a, b) => O.Choice(ExprOf(c), ExprOf(a), ExprOf(b))
    case Neg(a) => ExprOf(a)
    case BitNot(a) => ExprOf(a)
    case IncDec(_, _, x) => O.IncDec(x)
    case Assign(x, _, a) => O.Assign(x, ExprOf(a))
  }

  function OptOf(e: Option<Expr>): Option<O.Expr> { if e.None? then None else Some(ExprOf(e.value)) }

  /** No code is generated for the left operand. */
  function PatternOf(p: Pattern): O.Expr {
    match p
    case PIn(left, lo, hi) => O.Op(O.Unseen(ExprOf(left)), O.Op(ExprOf(lo), ExprOf(hi)))
    case PCmp(_, left, r) => O.Op(O.Unseen(ExprOf(left)), ExprOf(r))
    case PVal(e) => ExprOf(e)
  }

  function IterOf(i: Iter): O.Expr { match i case Range(lo, hi) => O.Op(ExprOf(lo), ExprOf(hi)) case Count(hi) => ExprOf(hi) }

  /** The cases of a `switch` are integers. */
  function TestOf(t: Tag, chain: bool): Option<O.Expr> {
    if t.Default? then None else Some(if t.Test? && chain then PatternOf(t.p) else O.Const)
  }

  function SeqOf(ss: seq<Stmt>): seq<O.Stmt>
    decreases ss, 0
  {
    if ss == [] then [] else [StmtOf(ss[0])] + SeqOf(ss[1..])
  }

  function ArmsOf(arms: seq<Arm>, chain: bool): seq<O.Arm>
    decreases arms, 0
  {
    if arms == [] then [] else [O.Arm(TestOf(arms[0].tag, chain), SeqOf(arms[0].body))] + ArmsOf(arms[1..], chain)
  }

  function StmtOf(s: Stmt): O.Stmt
    decreases s, 1
  {
    match s
    case ExprStmt(e) => O.Do(ExprOf(e))
    case VarDecl(_, x, init) => O.Decl(x, O.PLAIN, OptOf(init))
    case Return(value) => O.Return(OptOf(value))
    case Break => O.Break
    case Continue => O.Continue
    case Unsafe(body) => O.Unsafe(SeqOf(body))
    case If(c, thn, els) => O.If(ExprOf(c), SeqOf(thn), if els.NoElse? then [] else SeqOf(els.body))
    case Switch(e, arms) => O.Cases(false, ExprOf(e), ArmsOf(arms, false))
    case Match(e, arms) => O.Cases(true, ExprOf(e), ArmsOf(arms, true))
    case While(c, body) => O.While(ExprOf(c), SeqOf(body))
    case DoWhile(body, c) => O.DoWhile(SeqOf(body), ExprOf(c))
    case For(x, iter, body) => O.For(x, IterOf(iter), SeqOf(body))
    case CFor(first, c, u, body) => O.CFor(if first.None? then None else Some(StmtOf(first.value)), OptOf(c), OptOf(u), SeqOf(body))
  }

  function ParamNames(params: seq<Param>): seq<Name> { if params == [] then [] else [params[0].x] + ParamNames(params[1..]) }

  function FuncOf(f: Func): O.Func { O.Func(ParamNames(f.params), SeqOf(f.body)) }

  // ---- Names on the flat list.

  function VarNames(vars: seq<Var>): seq<Name> { seq(|vars|, i requires 0 <= i < |vars| => vars[i].x) }

  function LiveNames(trace: seq<Scopes.Event>): seq<Name> {
    if trace == [] then []
    else (if trace[0].Declare? && trace[0].live then [trace[0].x] else []) + LiveNames(trace[1..])
  }

  /** Some live use is of a name not on the list there. */
  predicate Lost(trace: seq<Scopes.Event>, names: seq<Name>) {
    if trace == [] then false
    else
      match trace[0]
      case Declare(x, _, live) => Lost(trace[1..], if live then names + [x] else names)
      case Use(x, _, live) => (live && x !in names) || Lost(trace[1..], names)
      case _ => Lost(trace[1..], names)
  }

  /** The flat list of `Scopes` has these names, and a live name is lost where none is found on it. */
  lemma {:induction false} FlatNames(trace: seq<Scopes.Event>, st: Scopes.State)
    ensures Agreement.NamesOf(Scopes.Run(trace, st).flat) == Agreement.NamesOf(st.flat) + LiveNames(trace)
    decreases |trace|
  {
    if trace != [] {
      var st1 := Scopes.Step(trace[0], st);
      FlatNames(trace[1..], st1);
      assert Agreement.NamesOf(st1.flat) == Agreement.NamesOf(st.flat) + if trace[0].Declare? && trace[0].live then [trace[0].x] else [];
    }
  }

  lemma {:induction false} InNames(es: seq<Scopes.Entry>, x: Name)
    ensures Scopes.FindIn(es, x).Some? <==> x in Agreement.NamesOf(es)
  {
    Scopes.FindInIs(es, x);
    var names := Agreement.NamesOf(es);
    if Scopes.FindIn(es, x).Some? {
      var a :| 0 <= a < |es| && es[a] == Scopes.FindIn(es, x).value;
      assert names[a] == x;
    }
  }

  lemma {:induction false} LiveCat(a: seq<Scopes.Event>, b: seq<Scopes.Event>)
    ensures LiveNames(a + b) == LiveNames(a) + LiveNames(b)
    decreases |a|
  {
    if a == [] {
      assert a + b == b;
    } else {
      assert (a + b)[1..] == a[1..] + b && (a + b)[0] == a[0];
      LiveCat(a[1..], b);
    }
  }

  lemma {:induction false} LostCat(a: seq<Scopes.Event>, b: seq<Scopes.Event>, names: seq<Name>)
    ensures Lost(a + b, names) <==> Lost(a, names) || Lost(b, names + LiveNames(a))
    ensures LiveNames(a + b) == LiveNames(a) + LiveNames(b)
    decreases |a|
  {
    LiveCat(a, b);
    if a == [] {
      assert a + b == b && names + [] == names;
    } else {
      assert (a + b)[1..] == a[1..] + b && (a + b)[0] == a[0];
      var more := if a[0].Declare? && a[0].live then names + [a[0].x] else names;
      assert more + LiveNames(a[1..]) == names + LiveNames(a);
      hide LiveNames;
      LostCat(a[1..], b, more);
    }
  }

  /** The emitter has gone the way of the trace. */
  predicate Walks(g: Gen, g1: Gen, trace: seq<Scopes.Event>) {
    && VarNames(g1.vars) == VarNames(g.vars) + LiveNames(trace)
    && (g1.failed <==> g.failed || Lost(trace, VarNames(g.vars)))
  }

  lemma {:induction false} WalksCat(g: Gen, g1: Gen, g2: Gen, a: seq<Scopes.Event>, b: seq<Scopes.Event>)
    requires Walks(g, g1, a) && Walks(g1, g2, b)
    ensures Walks(g, g2, a + b)
  {
    LostCat(a, b, VarNames(g.vars));
    assert VarNames(g.vars) + LiveNames(a) + LiveNames(b) == VarNames(g.vars) + (LiveNames(a) + LiveNames(b));
  }

  lemma {:induction false} WalksNone(g: Gen, g1: Gen)
    requires g1.vars == g.vars && g1.failed == g.failed
    ensures Walks(g, g1, [])
  {
    assert VarNames(g.vars) + [] == VarNames(g.vars);
  }

  /** Only the registry and the failure count. */
  lemma {:induction false} WalksSame(g: Gen, g1: Gen, h: Gen, h1: Gen, trace: seq<Scopes.Event>)
    requires Walks(g, g1, trace) && h.vars == g.vars && h.failed == g.failed && h1.vars == g1.vars && h1.failed == g1.failed
    ensures Walks(h, h1, trace)
  {
  }

  /** A block's scope is nothing to the emitter. */
  lemma {:induction false} WalksScoped(g: Gen, g1: Gen, trace: seq<Scopes.Event>)
    requires Walks(g, g1, trace)
    ensures Walks(g, g1, [Scopes.Open] + trace + [Scopes.Close])
  {
    hide Walks;
    WalksMark(g, Scopes.Open);
    WalksMark(g1, Scopes.Close);
    WalksCat(g, g, g1, [Scopes.Open], trace);
    WalksCat(g, g1, g1, [Scopes.Open] + trace, [Scopes.Close]);
  }

  lemma {:induction false} WalksMark(g: Gen, e: Scopes.Event)
    requires e.Open? || e.Close? || e.Bind?
    ensures Walks(g, g, [e])
  {
    assert [e][1..] == [] && VarNames(g.vars) + [] == VarNames(g.vars);
  }

  lemma {:induction false} LookupIff(vars: seq<Var>, x: Name)
    ensures Lookup(vars, x).Some? <==> x in VarNames(vars)
    decreases |vars|
  {
    var names := VarNames(vars);
    if vars != [] {
      var n := |vars| - 1;
      assert names == VarNames(vars[..n]) + [vars[n].x];
      if vars[n].x != x { LookupIff(vars[..n], x); }
    }
  }

  lemma {:induction false} UsesLost(e: O.Expr, c: Scopes.Ctx, names: seq<Name>)
    ensures LiveNames(Scopes.Uses(e, c)) == []
    decreases e
  {
    match e
    case Op(l, r) => UsesLost(l, c, names); UsesLost(r, c, names); LostCat(Scopes.Uses(l, c), Scopes.Uses(r, c), names);
    case Choice(d, a, b) =>
      UsesLost(d, c, names); UsesLost(a, c, names); UsesLost(b, c, names);
      LostCat(Scopes.Uses(d, c), Scopes.Uses(a, c), names);
      LostCat(Scopes.Uses(d, c) + Scopes.Uses(a, c), Scopes.Uses(b, c), names);
    case Assign(x, a) =>
      UsesLost(a, c, names);
      OneUse(x, Scopes.Write(false, c.depth), c.live, names);
      LostCat([Scopes.Use(x, Scopes.Write(false, c.depth), c.live)], Scopes.Uses(a, c), names);
    case Unseen(a) => UsesLost(a, c.(live := false), names);
    case Var(x) => OneUse(x, Scopes.Read, c.live, names);
    case IncDec(x) => OneUse(x, Scopes.Write(true, c.depth), c.live, names);
    case _ =>
  }

  lemma {:induction false} OneUse(x: Name, access: Scopes.Access, live: bool, names: seq<Name>)
    ensures LiveNames([Scopes.Use(x, access, live)]) == []
    ensures Lost([Scopes.Use(x, access, live)], names) <==> live && x !in names
  {
    var u := [Scopes.Use(x, access, live)];
    assert u[1..] == [];
  }

  /** Nothing that is not compiled is lost or registered. */
  lemma {:induction false} QuietLost(trace: seq<Scopes.Event>, names: seq<Name>)
    requires Agreement.Quiet(trace)
    ensures !Lost(trace, names) && LiveNames(trace) == []
    decreases |trace|
  {
    if trace != [] {
      QuietLost(trace[1..], names);
    }
  }

  // ---- Expressions.

  lemma {:induction false} ExprWalks(g: Gen, e: Expr, c: Scopes.Ctx)
    requires g.cur < |g.blocks| && c.live
    ensures Walks(g, GenExpr(g, e).g, Scopes.Uses(ExprOf(e), c))
    decreases e
  {
    var names := VarNames(g.vars);
    UsesLost(ExprOf(e), c, names);
    assert names + [] == names;
    hide Extends, Local, Grew, Below, Lookup, LiveNames, VarNames;
    match e
    case IntLit(_) =>
    case Ident(x) => IdentWalks(g, e, x, Scopes.Read, c);
    case Binary(op, l, r) =>
      var a := GenExpr(g, l);
      ExprWalks(g, l, c);
      ExprWalks(a.g, r, c);
      WalksCat(g, a.g, GenExpr(a.g, r).g, Scopes.Uses(ExprOf(l), c), Scopes.Uses(ExprOf(r), c));
    case And(l, r) => ShortWalks(g, e, c);
    case Or(l, r) => ShortWalks(g, e, c);
    case Ternary(d, a, b) => TernaryWalks(g, e, c);
    case Neg(a) => ExprWalks(g, a, c);
    case BitNot(a) => ExprWalks(g, a, c);
    case IncDec(_, _, x) => IdentWalks(g, e, x, Scopes.Write(true, c.depth), c);
    case Assign(x, _, a) =>
      ExprWalks(g, a, c);
      AssignWalks(g, e, c);
  }

  /** A name alone. */
  lemma {:induction false} IdentWalks(g: Gen, e: Expr, x: Name, access: Scopes.Access, c: Scopes.Ctx)
    requires g.cur < |g.blocks| && c.live && (e == Ident(x) || (e.IncDec? && e.x == x))
    ensures Walks(g, GenExpr(g, e).g, [Scopes.Use(x, access, true)])
  {
    var names := VarNames(g.vars);
    LookupIff(g.vars, x);
    OneUse(x, access, true, names);
    assert names + [] == names;
    hide Extends, Local, Below, Lookup, VarNames, Lost, LiveNames;
  }

  /** Nothing of the value is compiled if the target is not found. */
  lemma {:induction false} AssignSame(g: Gen, e: Expr)
    requires g.cur < |g.blocks| && e.Assign?
    ensures GenExpr(g, e).g.failed == if Lookup(g.vars, e.x).None? then true else GenExpr(g, e.value).g.failed
  {
    hide Extends, Local, Below, Lookup;
  }

  lemma {:induction false} AssignWalks(g: Gen, e: Expr, c: Scopes.Ctx)
    requires g.cur < |g.blocks| && c.live && e.Assign? && Walks(g, GenExpr(g, e.value).g, Scopes.Uses(ExprOf(e.value), c))
    ensures Walks(g, GenExpr(g, e).g, Scopes.Uses(ExprOf(e), c))
  {
    var names, w := VarNames(g.vars), [Scopes.Use(e.x, Scopes.Write(false, c.depth), true)];
    var uses := Scopes.Uses(ExprOf(e.value), c);
    assert Scopes.Uses(ExprOf(e), c) == w + uses;
    AssignSame(g, e);
    hide GenExpr, Scopes.Uses, ExprOf;
    LookupIff(g.vars, e.x);
    OneUse(e.x, Scopes.Write(false, c.depth), true, names);
    LostCat(w, uses, names);
    UsesLost(ExprOf(e.value), c, names);
    assert names + [] == names;
    hide Lookup, VarNames, Lost, LiveNames;
  }

  lemma {:induction false} ShortWalks(g: Gen, e: Expr, c: Scopes.Ctx)
    requires g.cur < |g.blocks| && c.live && (e.And? || e.Or?)
    ensures Walks(g, GenExpr(g, e).g, Scopes.Uses(ExprOf(e), c))
    decreases e, 0
  {
    hide Extends, Local, Below, Walks, Scopes.Uses, ExprOf;
    var a := GenExpr(g, e.left);
    var g1 := OpenShort(a, e.And?);
    var b := GenExpr(g1, e.right);
    var l, r := Scopes.Uses(ExprOf(e.left), c), Scopes.Uses(ExprOf(e.right), c);
    ShortUses(e, c);
    ExprWalks(g, e.left, c);
    ExprWalks(g1, e.right, c);
    assert GenExpr(g, e) == GenShort(g, e) == CloseShort(a, b, e.And?);
    WalksSame(g1, b.g, a.g, GenExpr(g, e).g, r);
    WalksCat(g, a.g, GenExpr(g, e).g, l, r);
  }

  lemma {:induction false} ShortUses(e: Expr, c: Scopes.Ctx)
    requires e.And? || e.Or?
    ensures Scopes.Uses(ExprOf(e), c) == Scopes.Uses(ExprOf(e.left), c) + Scopes.Uses(ExprOf(e.right), c)
  {
    var l, r := Scopes.Uses(ExprOf(e.left), c), Scopes.Uses(ExprOf(e.right), c);
    assert l + [] + r == l + r && l + r + [] == l + r;
    assert Scopes.Uses(O.Const, c) == [];
  }

  lemma {:induction false} TernaryWalks(g: Gen, e: Expr, c: Scopes.Ctx)
    requires g.cur < |g.blocks| && c.live && e.Ternary?
    ensures Walks(g, GenExpr(g, e).g, Scopes.Uses(ExprOf(e), c))
    decreases e, 0
  {
    hide Extends, Local, Below, Walks, Scopes.Uses, ExprOf;
    var a := GenExpr(g, e.cond);
    var b := GenExpr(OpenTernary(a), e.thn);
    var d := GenExpr(MiddleTernary(a, b), e.els);
    var u0, u1, u2 := Scopes.Uses(ExprOf(e.cond), c), Scopes.Uses(ExprOf(e.thn), c), Scopes.Uses(ExprOf(e.els), c);
    assert Scopes.Uses(ExprOf(e), c) == u0 + u1 + u2 by { TernaryUses(e, c); }
    ExprWalks(g, e.cond, c);
    ExprWalks(OpenTernary(a), e.thn, c);
    ExprWalks(MiddleTernary(a, b), e.els, c);
    WalksSame(OpenTernary(a), b.g, a.g, b.g, u1);
    assert GenExpr(g, e) == GenTernary(g, e) == CloseTernary(a, b, d);
    WalksSame(MiddleTernary(a, b), d.g, b.g, GenExpr(g, e).g, u2);
    WalksCat(g, a.g, b.g, u0, u1);
    WalksCat(g, b.g, GenExpr(g, e).g, u0 + u1, u2);
  }

  lemma {:induction false} TernaryUses(e: Expr, c: Scopes.Ctx)
    requires e.Ternary?
    ensures Scopes.Uses(ExprOf(e), c) == Scopes.Uses(ExprOf(e.cond), c) + Scopes.Uses(ExprOf(e.thn), c) + Scopes.Uses(ExprOf(e.els), c)
  {
  }

  lemma {:induction false} OptWalks(g: Gen, e: Option<Expr>, c: Scopes.Ctx)
    requires g.cur < |g.blocks| && c.live
    ensures Walks(g, if e.None? then g else GenExpr(g, e.value).g, Scopes.OptUses(OptOf(e), c))
  {
    hide GenExpr, Walks;
    if e.None? { WalksNone(g, g); } else { ExprWalks(g, e.value, c); }
  }

  // ---- Statements.

  /** Where the emitter is: in an open block if `c` is live, with the targets of a loop if in one. */
  predicate Placed(g: Gen, c: Scopes.Ctx)
    requires g.cur < |g.blocks|
  {
    c.live == !Terminated(g) && WellFormed.InLoop(g, c.loop)
  }

  lemma {:induction false} SeqFallsSame(ss: seq<Stmt>, loop: bool)
    ensures O.SeqFalls(SeqOf(ss), loop) <==> WellFormed.SeqFalls(ss, loop)
    decreases ss, 0
  {
    if ss != [] {
      FallsSame(ss[0], loop);
      SeqFallsSame(ss[1..], loop);
    }
  }

  lemma {:induction false} FallsSame(s: Stmt, loop: bool)
    ensures O.Falls(StmtOf(s), loop) <==> WellFormed.Falls(s, loop)
    decreases s, 1
  {
    if s.Unsafe? { SeqFallsSame(s.body, loop); }
  }

  lemma {:induction false} SeqWalks(g: Gen, ss: seq<Stmt>, c: Scopes.Ctx)
    requires g.cur < |g.blocks| && Placed(g, c)
    ensures Walks(g, GenSeq(g, ss), Scopes.SeqTrace(SeqOf(ss), c))
    decreases ss, 0
  {
    hide Extends, Local, GenStmt, Walks, Terminated, StmtOf, Scopes.StmtTrace, O.Falls, WellFormed.Falls;
    if ss == [] {
      WalksNone(g, g);
    } else {
      var s, rest := StmtOf(ss[0]), SeqOf(ss[1..]);
      var c1 := Scopes.Behind(s, c);
      StmtWalks(g, ss[0], c);
      WellFormed.StmtEnds(g, ss[0], c.loop);
      FallsSame(ss[0], c.loop);
      SeqWalks(GenStmt(g, ss[0]), ss[1..], c1);
      WalksCat(g, GenStmt(g, ss[0]), GenSeq(g, ss), Scopes.StmtTrace(s, c), Scopes.SeqTrace(rest, c1));
      assert SeqOf(ss)[1..] == rest;
    }
  }

  lemma {:induction false} StmtWalks(g: Gen, s: Stmt, c: Scopes.Ctx)
    requires g.cur < |g.blocks| && Placed(g, c)
    ensures Walks(g, GenStmt(g, s), Scopes.StmtTrace(StmtOf(s), c))
    decreases s, 2
  {
    if Terminated(g) {
      Names.StmtTerminated(g, s);
      Agreement.StmtQuiet(StmtOf(s), c);
      QuietLost(Scopes.StmtTrace(StmtOf(s), c), VarNames(g.vars));
      assert VarNames(g.vars) + [] == VarNames(g.vars);
    } else {
      LiveWalks(g, s, c);
    }
  }

  lemma {:induction false} LiveWalks(g: Gen, s: Stmt, c: Scopes.Ctx)
    requires g.cur < |g.blocks| && Placed(g, c) && c.live
    ensures Walks(g, GenStmt(g, s), Scopes.StmtTrace(StmtOf(s), c))
    decreases s, 1
  {
    hide Extends, Local, Grew, Walks, GenExpr, GenSeq, GenIf, GenSwitch, GenMatch, GenWhile, GenDoWhile, GenFor, GenCFor, GenVarDecl, Scopes.SeqTrace, Scopes.Uses, Scopes.ArmsTrace, Scopes.TestsTrace, ExprOf, SeqOf;
    match s
    case ExprStmt(e) => ExprWalks(g, e, c);
    case VarDecl(ty, x, init) => VarDeclWalks(g, ty, x, init, c);
    case Return(value) => OptWalks(g, value, c);
      WalksSame(g, if value.None? then g else GenExpr(g, value.value).g, g, GenStmt(g, s), Scopes.OptUses(OptOf(value), c));
    case Break => WalksNone(g, GenStmt(g, s));
    case Continue => WalksNone(g, GenStmt(g, s));
    case Unsafe(body) => SeqWalks(g, body, c);
    case If(_, _, _) => IfWalks(g, s, c);
    case Switch(_, _) => SwitchWalks(g, s, c);
    case Match(_, _) => MatchWalks(g, s, c);
    case While(_, _) => WhileWalks(g, s, c);
    case DoWhile(_, _) => DoWhileWalks(g, s, c);
    case For(_, _, _) => ForWalks(g, s, c);
    case CFor(_, _, _, _) => CForWalks(g, s, c);
  }

  /** A new entry at the end. */
  lemma {:induction false} AllocaWalks(g: Gen, x: Name, ty: Ty, a: O.Attr)
    requires g.cur < |g.blocks|
    ensures Walks(g, GenAlloca(g, x, ty), [Scopes.Declare(x, a, true)])
  {
    var d := [Scopes.Declare(x, a, true)];
    assert d[1..] == [] && LiveNames(d) == [x];
    assert VarNames(GenAlloca(g, x, ty).vars) == VarNames(g.vars) + [x];
  }

  lemma {:induction false} VarDeclWalks(g: Gen, ty: Ty, x: Name, init: Option<Expr>, c: Scopes.Ctx)
    requires g.cur < |g.blocks| && c.live
    ensures Walks(g, GenVarDecl(g, ty, x, init), Scopes.Declaring(x, O.PLAIN, OptOf(init), c))
  {
    hide Extends, Local, GenExpr, GenAlloca, Walks;
    var g1 := GenAlloca(g, x, ty);
    var g2 := if init.None? then g1 else GenExpr(g1, init.value).g;
    var decl, uses := [Scopes.Declare(x, O.PLAIN, true)], Scopes.OptUses(OptOf(init), c);
    AllocaWalks(g, x, ty, O.PLAIN);
    OptWalks(g1, init, c);
    WalksCat(g, g1, g2, decl, uses);
    WalksMark(g2, Scopes.Bind);
    WalksCat(g, g2, g2, decl + uses, [Scopes.Bind]);
    WalksSame(g, g2, g, GenVarDecl(g, ty, x, init), decl + uses + [Scopes.Bind]);
  }

  /** An arm, or a loop's body, from an empty block. */
  lemma {:induction false} ArmWalks(g: Gen, body: seq<Stmt>, m: nat, c: Scopes.Ctx)
    requires g.cur < |g.blocks| && g.blocks[g.cur] == [] && WellFormed.InLoop(g, c.loop) && c.live
    ensures Walks(g, GenArm(g, body, m), Scopes.SeqTrace(SeqOf(body), c))
    ensures Walks(g, GenArm(g, body, m), Scopes.Scoped(SeqOf(body), c))
    decreases body, 1
  {
    hide Extends, Local, GenSeq, Walks, Scopes.SeqTrace, SeqOf;
    SimStmt.EmptyOpen(g);
    SeqWalks(g, body, c);
    WalksSame(g, GenSeq(g, body), g, GenArm(g, body, m), Scopes.SeqTrace(SeqOf(body), c));
    WalksScoped(g, GenArm(g, body, m), Scopes.SeqTrace(SeqOf(body), c));
  }

  lemma {:induction false} BodyWalks(g: Gen, body: seq<Stmt>, brk: nat, cont: nat, c: Scopes.Ctx)
    requires g.cur < |g.blocks| && g.blocks[g.cur] == [] && c.live
    ensures Walks(g, GenBody(g, body, brk, cont), Scopes.SeqTrace(SeqOf(body), Scopes.InLoop(c)))
    ensures Walks(g, GenBody(g, body, brk, cont), Scopes.Scoped(SeqOf(body), Scopes.InLoop(c)))
    decreases body, 2
  {
    hide Extends, Local, GenSeq, Walks, Scopes.SeqTrace, SeqOf;
    var g0, c1 := WithTargets(g, Some(brk), Some(cont)), Scopes.InLoop(c);
    ArmWalks(g0, body, cont, c1);
    WalksSame(g0, GenArm(g0, body, cont), g, GenBody(g, body, brk, cont), Scopes.SeqTrace(SeqOf(body), c1));
    WalksScoped(g, GenBody(g, body, brk, cont), Scopes.SeqTrace(SeqOf(body), c1));
  }

  lemma {:induction false} IfWalks(g: Gen, s: Stmt, c: Scopes.Ctx)
    requires g.cur < |g.blocks| && Placed(g, c) && c.live && s.If?
    ensures Walks(g, GenIf(g, s), Scopes.StmtTrace(StmtOf(s), c))
    decreases s, 0
  {
    hide Extends, Local, GenExpr, GenArm, Walks, Scopes.SeqTrace, Scopes.Uses, ExprOf, SeqOf, Terminated, Scopes.Scoped;
    var a := GenExpr(g, s.cond);
    var thn, g1 := |a.g.blocks|, OpenIf(a, s.els.Else?);
    var uses, t := Scopes.Uses(ExprOf(s.cond), c), Scopes.Scoped(SeqOf(s.thn), c);
    ExprWalks(g, s.cond, c);
    ArmWalks(g1, s.thn, thn + 1, c);
    var g2 := GenArm(g1, s.thn, thn + 1);
    WalksSame(g1, g2, a.g, g2, t);
    WalksCat(g, a.g, g2, uses, t);
    var e := Scopes.Scoped(StmtOf(s).els, c);
    if s.els.NoElse? {
      NoneScoped(c);
      WalksNone(g2, GenIf(g, s));
      WalksScoped(g2, GenIf(g, s), []);
    } else {
      SimStmt.IfShape(g, s);
      IfElse(g, s);
      var g3 := PositionAt(g2, thn + 2);
      ArmWalks(g3, s.els.body, thn + 1, c);
      WalksSame(g3, GenArm(g3, s.els.body, thn + 1), g2, GenIf(g, s), e);
    }
    WalksCat(g, g2, GenIf(g, s), uses + t, e);
  }

  lemma {:induction false} NoneScoped(c: Scopes.Ctx)
    ensures Scopes.Scoped([], c) == [Scopes.Open] + [] + [Scopes.Close]
  {
  }

  /** The block of the other arm is still empty when its turn comes. */
  lemma {:induction false} IfElse(g: Gen, s: Stmt)
    requires g.cur < |g.blocks| && s.If? && s.els.Else?
    ensures var a := GenExpr(g, s.cond);
      var g2 := GenArm(OpenIf(a, true), s.thn, |a.g.blocks| + 1);
      |a.g.blocks| + 2 < |g2.blocks| && g2.blocks[|a.g.blocks| + 2] == []
  {
    hide Extends, GenExpr, GenArm;
  }

  lemma {:induction false} ArmsWalk(g: Gen, arms: seq<Arm>, from: nat, first: nat, merge: nat, chain: bool, c: Scopes.Ctx)
    requires g.cur < |g.blocks| && from <= |arms| && first + |arms| <= |g.blocks|
    requires SimStmt.EmptyBlocks(g, first + from, first + |arms|) && WellFormed.InLoop(g, c.loop) && c.live
    ensures Walks(g, GenArms(g, arms, from, first, merge), Scopes.ArmsTrace(ArmsOf(arms[from..], chain), c))
    decreases arms, |arms| - from
  {
    hide Extends, Local, GenArm, Walks, Scopes.Scoped, SeqOf;
    if from == |arms| {
      WalksNone(g, g);
    } else {
      var g1 := PositionAt(g, first + from);
      var g2 := GenArm(g1, arms[from].body, merge);
      var r := GenArms(g, arms, from, first, merge);
      var one, rest := Scopes.Scoped(SeqOf(arms[from].body), c), ArmsOf(arms[from + 1..], chain);
      ArmWalks(g1, arms[from].body, merge, c);
      SimStmt.EmptyLater(g1, g2, first + from + 1, first + |arms|);
      ArmsWalk(g2, arms, from + 1, first, merge, chain, c);
      WalksSame(g1, g2, g, g2, one);
      WalksCat(g, g2, r, one, Scopes.ArmsTrace(rest, c));
      assert arms[from..][1..] == arms[from + 1..] && ArmsOf(arms[from..], chain)[1..] == rest;
    }
  }

  lemma {:induction false} ValuesNone(arms: seq<Arm>, c: Scopes.Ctx)
    ensures Scopes.TestsTrace(ArmsOf(arms, false), c) == []
    decreases |arms|
  {
    hide SeqOf;
    if arms != [] {
      ValuesNone(arms[1..], c);
    }
  }

  lemma {:induction false} SwitchWalks(g: Gen, s: Stmt, c: Scopes.Ctx)
    requires g.cur < |g.blocks| && Placed(g, c) && c.live && s.Switch?
    ensures Walks(g, GenSwitch(g, s), Scopes.StmtTrace(StmtOf(s), c))
    decreases s, 0
  {
    hide Extends, Local, GenExpr, GenArms, Walks, Scopes.Uses, ExprOf, Terminated, SwitchTable, Scopes.ArmsTrace, ArmsOf, Scopes.TestsTrace;
    SimStmt.SwitchShape(g, s);
    var a := GenExpr(g, s.e);
    var merge := |a.g.blocks|;
    var g2 := Put(OpenArms(a, |s.arms|), Instr.Switch(a.val, DefaultBlock(Semantics.LastDefault(s.arms), merge + 1, merge), SwitchTable(s.arms, merge + 1)));
    var g3 := GenArms(g2, s.arms, 0, merge + 1, merge);
    var uses, arms := Scopes.Uses(ExprOf(s.e), c), Scopes.ArmsTrace(ArmsOf(s.arms, false), c);
    ExprWalks(g, s.e, c);
    assert s.arms[0..] == s.arms;
    ArmsWalk(g2, s.arms, 0, merge + 1, merge, false, c);
    ValuesNone(s.arms, c);
    WalksSame(g2, g3, a.g, GenSwitch(g, s), arms);
    WalksCat(g, a.g, GenSwitch(g, s), uses, arms);
    assert uses + [] + arms == uses + arms;
  }

  lemma {:induction false} PatternWalks(g: Gen, p: Pattern, v: Operand, c: Scopes.Ctx)
    requires g.cur < |g.blocks| && c.live
    ensures Walks(g, GenPattern(g, p, v).g, Scopes.Uses(PatternOf(p), c))
  {
    hide Extends, Local, GenExpr, Walks, ExprOf;
    match p
    case PIn(left, lo, hi) =>
      var a := GenExpr(g, lo);
      var b := GenExpr(a.g, hi);
      var l, h := Scopes.Uses(ExprOf(lo), c), Scopes.Uses(ExprOf(hi), c);
      UnseenWalks(g, left, c);
      ExprWalks(g, lo, c);
      ExprWalks(a.g, hi, c);
      WalksCat(g, a.g, b.g, l, h);
      WalksCat(g, g, b.g, Scopes.Uses(O.Unseen(ExprOf(left)), c), l + h);
      WalksSame(g, b.g, g, GenPattern(g, p, v).g, Scopes.Uses(O.Unseen(ExprOf(left)), c) + (l + h));
    case PCmp(op, left, r) =>
      var a := GenExpr(g, r);
      UnseenWalks(g, left, c);
      ExprWalks(g, r, c);
      WalksCat(g, g, a.g, Scopes.Uses(O.Unseen(ExprOf(left)), c), Scopes.Uses(ExprOf(r), c));
      WalksSame(g, a.g, g, GenPattern(g, p, v).g, Scopes.Uses(PatternOf(p), c));
    case PVal(e) =>
      ExprWalks(g, e, c);
      WalksSame(g, GenExpr(g, e).g, g, GenPattern(g, p, v).g, Scopes.Uses(ExprOf(e), c));
  }

  lemma {:induction false} UnseenWalks(g: Gen, e: Expr, c: Scopes.Ctx)
    ensures Walks(g, g, Scopes.Uses(O.Unseen(ExprOf(e)), c))
  {
    var uses := Scopes.Uses(ExprOf(e), c.(live := false));
    Agreement.UnseenQuiet(ExprOf(e), c.(live := false));
    QuietLost(uses, VarNames(g.vars));
    assert VarNames(g.vars) + [] == VarNames(g.vars);
  }

  lemma {:induction false} ConstUses(c: Scopes.Ctx)
    ensures Scopes.Uses(O.Const, c) == []
  {
  }

  lemma {:induction false} ChecksWalk(g: Gen, arms: seq<Arm>, from: nat, v: Operand, first: nat, c: Scopes.Ctx)
    requires g.cur < |g.blocks| && from <= |arms| && c.live
    ensures Walks(g, GenChecks(g, arms, from, v, first), Scopes.TestsTrace(ArmsOf(arms[from..], true), c))
    decreases |arms| - from
  {
    hide Extends, Local, GenPattern, Walks, PatternOf, Scopes.Uses, SeqOf;
    if from == |arms| {
      WalksNone(g, g);
    } else {
      var t, rest := TestOf(arms[from].tag, true), ArmsOf(arms[from + 1..], true);
      assert arms[from..][1..] == arms[from + 1..] && ArmsOf(arms[from..], true)[1..] == rest;
      if arms[from].tag.Test? {
        var p := GenPattern(g, arms[from].tag.p, v);
        var g1 := NextCheck(p, first + from);
        PatternWalks(g, arms[from].tag.p, v, c);
        ChecksWalk(g1, arms, from + 1, v, first, c);
        WalksSame(g, p.g, g, g1, Scopes.OptUses(t, c));
        WalksCat(g, g1, GenChecks(g1, arms, from + 1, v, first), Scopes.OptUses(t, c), Scopes.TestsTrace(rest, c));
      } else {
        ChecksWalk(g, arms, from + 1, v, first, c);
        ConstUses(c);
        assert Scopes.OptUses(t, c) == [] && [] + Scopes.TestsTrace(rest, c) == Scopes.TestsTrace(rest, c);
      }
    }
  }

  lemma {:induction false} MatchWalks(g: Gen, s: Stmt, c: Scopes.Ctx)
    requires g.cur < |g.blocks| && Placed(g, c) && c.live && s.Match?
    ensures Walks(g, GenMatch(g, s), Scopes.StmtTrace(StmtOf(s), c))
    decreases s, 0
  {
    hide Extends, Local, GenExpr, GenArms, GenChecks, Walks, Scopes.Uses, ExprOf, Terminated, Scopes.ArmsTrace, ArmsOf, Scopes.TestsTrace;
    SimStmt.MatchShape(g, s);
    var a := GenExpr(g, s.e);
    var merge := |a.g.blocks|;
    var g1 := OpenArms(a, |s.arms|);
    var g2 := GenChecks(g1, s.arms, 0, a.val, merge + 1);
    var g3 := Put(g2, Br(DefaultBlock(Semantics.LastDefault(s.arms), merge + 1, merge)));
    var g4 := GenArms(g3, s.arms, 0, merge + 1, merge);
    var uses, tests, arms := Scopes.Uses(ExprOf(s.e), c), Scopes.TestsTrace(ArmsOf(s.arms, true), c), Scopes.ArmsTrace(ArmsOf(s.arms, true), c);
    ExprWalks(g, s.e, c);
    assert s.arms[0..] == s.arms;
    ChecksWalk(g1, s.arms, 0, a.val, merge + 1, c);
    ArmsWalk(g3, s.arms, 0, merge + 1, merge, true, c);
    WalksSame(g1, g2, a.g, g3, tests);
    WalksCat(g, a.g, g3, uses, tests);
    WalksSame(g3, g4, g3, GenMatch(g, s), arms);
    WalksCat(g, g3, GenMatch(g, s), uses + tests, arms);
  }

  lemma {:induction false} WhileWalks(g: Gen, s: Stmt, c: Scopes.Ctx)
    requires g.cur < |g.blocks| && c.live && s.While?
    ensures Walks(g, GenWhile(g, s), Scopes.StmtTrace(StmtOf(s), c))
    decreases s, 0
  {
    hide Extends, Local, GenExpr, GenBody, Walks, Scopes.Uses, ExprOf, SeqOf, Scopes.Scoped;
    SimStmt.WhileShape(g, s);
    SimStmt.WhileOrder(g, s);
    var cond, body, end := |g.blocks|, |g.blocks| + 1, |g.blocks| + 2;
    var g1 := Seal(OpenLoop(g, 3), Br(cond), cond);
    var a := GenExpr(g1, s.cond);
    var g2 := Seal(a.g, CondBr(a.val, body, end), body);
    var uses, inner := Scopes.Uses(ExprOf(s.cond), c), Scopes.Scoped(SeqOf(s.body), Scopes.InLoop(c));
    ExprWalks(g1, s.cond, c);
    BodyWalks(g2, s.body, end, cond, c);
    WalksSame(g1, a.g, g, g2, uses);
    WalksSame(g2, GenBody(g2, s.body, end, cond), g2, GenWhile(g, s), inner);
    WalksCat(g, g2, GenWhile(g, s), uses, inner);
  }

  lemma {:induction false} DoWhileWalks(g: Gen, s: Stmt, c: Scopes.Ctx)
    requires g.cur < |g.blocks| && c.live && s.DoWhile?
    ensures Walks(g, GenDoWhile(g, s), Scopes.StmtTrace(StmtOf(s), c))
    decreases s, 0
  {
    hide Extends, Local, GenExpr, GenBody, Walks, Scopes.Uses, ExprOf, SeqOf, Scopes.Scoped;
    SimStmt.DoWhileShape(g, s);
    SimStmt.DoWhileBlocks(g, s);
    SimStmt.DoWhileOrder(g, s);
    var body, cond, end := |g.blocks|, |g.blocks| + 1, |g.blocks| + 2;
    var g1 := Seal(OpenLoop(g, 3), Br(body), body);
    var g2 := GenBody(g1, s.body, end, cond);
    var g3 := PositionAt(g2, cond);
    var uses, inner := Scopes.Uses(ExprOf(s.cond), c), Scopes.Scoped(SeqOf(s.body), Scopes.InLoop(c));
    BodyWalks(g1, s.body, end, cond, c);
    ExprWalks(g3, s.cond, c);
    WalksSame(g1, g2, g, g3, inner);
    WalksSame(g3, GenExpr(g3, s.cond).g, g3, GenDoWhile(g, s), uses);
    WalksCat(g, g3, GenDoWhile(g, s), inner, uses);
  }

  lemma {:induction false} IterWalks(g: Gen, x: Name, iter: Iter, c: Scopes.Ctx)
    requires g.cur < |g.blocks| && c.live
    ensures Walks(g, ForInit(g, x, iter).0, Scopes.Uses(IterOf(iter), c) + [Scopes.Open] + Scopes.Declaring(x, O.PLAIN, None, c))
  {
    hide Extends, Local, GenExpr, Walks, ExprOf, GenAlloca, Scopes.Uses;
    var lo := GenLo(g, iter);
    var hi := GenExpr(lo.g, iter.hi);
    var l, h := if iter.Range? then Scopes.Uses(ExprOf(iter.lo), c) else [], Scopes.Uses(ExprOf(iter.hi), c);
    if iter.Range? { ExprWalks(g, iter.lo, c); } else { WalksNone(g, lo.g); }
    ExprWalks(lo.g, iter.hi, c);
    WalksCat(g, lo.g, hi.g, l, h);
    assert Scopes.Uses(IterOf(iter), c) == l + h by { IterUses(iter, c); }
    WalksMark(hi.g, Scopes.Open);
    WalksCat(g, hi.g, hi.g, l + h, [Scopes.Open]);
    var decl := Scopes.Declaring(x, O.PLAIN, None, c);
    VarDeclWalks(hi.g, TInt, x, None, c);
    WalksSame(hi.g, GenVarDecl(hi.g, TInt, x, None), hi.g, ForInit(g, x, iter).0, decl);
    WalksCat(g, hi.g, ForInit(g, x, iter).0, l + h + [Scopes.Open], decl);
  }

  lemma {:induction false} IterUses(iter: Iter, c: Scopes.Ctx)
    ensures Scopes.Uses(IterOf(iter), c) == (if iter.Range? then Scopes.Uses(ExprOf(iter.lo), c) else []) + Scopes.Uses(ExprOf(iter.hi), c)
  {
  }

  lemma {:induction false} ForWalks(g: Gen, s: Stmt, c: Scopes.Ctx)
    requires g.cur < |g.blocks| && c.live && s.For?
    ensures Walks(g, GenFor(g, s), Scopes.StmtTrace(StmtOf(s), c))
    decreases s, 0
  {
    hide Extends, Local, GenExpr, GenBody, GenFor, Walks, Scopes.Uses, IterOf, SeqOf, ForInit, Scopes.SeqTrace, Scopes.Declaring;
    SimStmt.ForShape(g, s);
    SimStmt.ForShape2(g, s);
    var cond, incr, end := |g.blocks|, |g.blocks| + 2, |g.blocks| + 3;
    var g0, g1, g3, g5 := OpenLoop(g, 4), SimStmt.ForHead(g, s).0, SimStmt.ForOpen(g, s), SimStmt.ForFoot(g, s);
    var head := Scopes.Uses(IterOf(s.iter), c) + [Scopes.Open] + Scopes.Declaring(s.x, O.PLAIN, None, c);
    var body := Scopes.SeqTrace(SeqOf(s.body), Scopes.InLoop(c));
    IterWalks(g0, s.x, s.iter, c);
    ForSame(g, s);
    hide SimStmt.ForHead, SimStmt.ForOpen, SimStmt.ForFoot, ForStep, Scopes.StmtTrace;
    WalksSame(g0, g1, g, g3, head);
    BodyWalks(g3, s.body, end, incr, c);
    WalksSame(g3, GenBody(g3, s.body, end, incr), g3, GenFor(g, s), body);
    WalksCat(g, g3, GenFor(g, s), head, body);
    WalksMark(GenFor(g, s), Scopes.Close);
    WalksCat(g, GenFor(g, s), GenFor(g, s), head + body, [Scopes.Close]);
    ForTrace(s, c);
  }

  lemma {:induction false} ForTrace(s: Stmt, c: Scopes.Ctx)
    requires s.For?
    ensures Scopes.StmtTrace(StmtOf(s), c) ==
      Scopes.Uses(IterOf(s.iter), c) + [Scopes.Open] + Scopes.Declaring(s.x, O.PLAIN, None, c) + Scopes.SeqTrace(SeqOf(s.body), Scopes.InLoop(c)) + [Scopes.Close]
  {
    hide Scopes.SeqTrace, Scopes.Uses, Scopes.Declaring, SeqOf;
  }

  /** The loop's own test and step register nothing. */
  lemma {:induction false} ForSame(g: Gen, s: Stmt)
    requires s.For? && g.cur < |g.blocks|
    ensures var g1, g3, body := SimStmt.ForHead(g, s).0, SimStmt.ForOpen(g, s), GenBody(SimStmt.ForOpen(g, s), s.body, |g.blocks| + 3, |g.blocks| + 2);
      && g3.vars == g1.vars && g3.failed == g1.failed && OpenLoop(g, 4).vars == g.vars && OpenLoop(g, 4).failed == g.failed
      && SimStmt.ForHead(g, s) == ForInit(OpenLoop(g, 4), s.x, s.iter) && g3.cur < |g3.blocks| && g3.blocks[g3.cur] == []
      && GenFor(g, s).vars == body.vars && GenFor(g, s).failed == body.failed
  {
    hide Extends, Local, GenExpr, GenBody, GenFor, ForInit;
    SimStmt.ForShape(g, s);
    SimStmt.ForShape2(g, s);
    var g1 := SimStmt.ForHead(g, s).0;
    Names.ForTestNames(Seal(g1, Br(|g.blocks|), |g.blocks|), Reg(g1.next - 1), SimStmt.ForHead(g, s).1);
    Names.ForStepNames(SimStmt.ForFoot(g, s), Reg(g1.next - 1), |g.blocks|);
  }

  lemma {:induction false} CForWalks(g: Gen, s: Stmt, c: Scopes.Ctx)
    requires g.cur < |g.blocks| && Placed(g, c) && c.live && s.CFor?
    ensures Walks(g, GenCFor(g, s), Scopes.StmtTrace(StmtOf(s), c))
    decreases s, 0
  {
    hide Extends, Local, GenExpr, GenBody, GenCFor, GenStmt, Walks, StmtOf, SeqOf, OptOf, Scopes.SeqTrace, Scopes.OptUses, Scopes.StmtTrace, Terminated, CondHead, UpdateTail;
    SimStmt.CForShape(g, s);
    SimStmt.CForShape2(g, s);
    Names.OpenLoopSame(g, 4);
    var cond, update, end := |g.blocks|, |g.blocks| + 2, |g.blocks| + 3;
    var g0, g1, g2, g3, g5 := OpenLoop(g, 4), SimStmt.CForHead(g, s), SimStmt.CForTest(g, s), SimStmt.CForOpen(g, s), SimStmt.CForFoot(g, s);
    var first := if s.finit.None? then [] else Scopes.StmtTrace(StmtOf(s.finit.value), c);
    var e, body, u := Scopes.OptUses(OptOf(s.fcond), c), Scopes.SeqTrace(SeqOf(s.body), Scopes.InLoop(c)), Scopes.OptUses(OptOf(s.update), c);
    if s.finit.None? { WalksNone(g0, g1); } else { StmtWalks(g0, s.finit.value, c); }
    WalksSame(g0, g1, g, g2, first);
    CondHeadWalks(g2, s.fcond, cond + 1, end, c);
    WalksCat(g, g2, g3, first, e);
    BodyWalks(g3, s.body, end, update, c);
    WalksSame(g3, GenBody(g3, s.body, end, update), g3, g5, body);
    WalksCat(g, g3, g5, first + e, body);
    UpdateTailWalks(g5, s.update, cond, c);
    WalksSame(g5, UpdateTail(g5, s.update, cond), g5, GenCFor(g, s), u);
    WalksCat(g, g5, GenCFor(g, s), first + e + body, u);
    WalksScoped(g, GenCFor(g, s), first + e + body + u);
    CForShape(s, c);
    assert [Scopes.Open] + first + e + body + u + [Scopes.Close] == [Scopes.Open] + (first + e + body + u) + [Scopes.Close];
  }

  lemma {:induction false} CForShape(s: Stmt, c: Scopes.Ctx)
    requires s.CFor?
    ensures Scopes.StmtTrace(StmtOf(s), c) ==
      [Scopes.Open] + (if s.finit.None? then [] else Scopes.StmtTrace(StmtOf(s.finit.value), c)) + Scopes.OptUses(OptOf(s.fcond), c)
      + Scopes.SeqTrace(SeqOf(s.body), Scopes.InLoop(c)) + Scopes.OptUses(OptOf(s.update), c) + [Scopes.Close]
  {
    hide Scopes.SeqTrace, Scopes.OptUses, SeqOf, OptOf;
  }

  lemma {:induction false} CondHeadWalks(g: Gen, e: Option<Expr>, body: nat, end: nat, c: Scopes.Ctx)
    requires g.cur < |g.blocks| && body < |g.blocks| && c.live
    ensures Walks(g, CondHead(g, e, body, end), Scopes.OptUses(OptOf(e), c))
  {
    hide Extends, Local, GenExpr, Walks;
    OptWalks(g, e, c);
    WalksSame(g, if e.None? then g else GenExpr(g, e.value).g, g, CondHead(g, e, body, end), Scopes.OptUses(OptOf(e), c));
  }

  lemma {:induction false} UpdateTailWalks(g: Gen, u: Option<Expr>, cond: nat, c: Scopes.Ctx)
    requires g.cur < |g.blocks| && c.live
    ensures Walks(g, UpdateTail(g, u, cond), Scopes.OptUses(OptOf(u), c))
  {
    hide Extends, Local, GenExpr, Walks;
    OptWalks(g, u, c);
    WalksSame(g, if u.None? then g else GenExpr(g, u.value).g, g, UpdateTail(g, u, cond), Scopes.OptUses(OptOf(u), c));
  }

  // ---- Functions.

  lemma {:induction false} ParamsWalk(g: Gen, params: seq<Param>, from: nat)
    requires g.cur < |g.blocks| && from <= |params|
    ensures Walks(g, GenParams(g, params, from), Scopes.ParamsTrace(ParamNames(params[from..])))
    decreases |params| - from
  {
    hide Extends, Local, Walks, GenAlloca, Scopes.Declaring;
    if from == |params| {
      WalksNone(g, g);
    } else {
      var x, ty := params[from].x, params[from].ty;
      var g2 := Put(GenAlloca(g, x, ty), Store(Reg(from), Reg(g.next)));
      var decl := Scopes.Declaring(x, O.PLAIN, None, Scopes.START);
      VarDeclWalks(g, ty, x, None, Scopes.START);
      WalksSame(g, GenVarDecl(g, ty, x, None), g, g2, decl);
      ParamsWalk(g2, params, from + 1);
      assert params[from..][1..] == params[from + 1..];
      assert ParamNames(params[from..])[1..] == ParamNames(params[from + 1..]);
      WalksCat(g, g2, GenParams(g2, params, from + 1), decl, Scopes.ParamsTrace(ParamNames(params[from + 1..])));
    }
  }

  /** For any function and registry: the names registered are those the function declares live, in
      order, and code generation fails if and only if a live name is used that is not among those
      registered so far. */
  lemma {:induction false} FailsIff(f: Func, vars: seq<Var>)
    ensures var trace := Scopes.FuncTrace(FuncOf(f));
      && VarNames(GenFunc(f, vars).vars) == VarNames(vars) + LiveNames(trace)
      && (GenFunc(f, vars).failed <==> Lost(trace, VarNames(vars)))
  {
    hide Extends, Local, GenSeq, GenParams, Scopes.SeqTrace, Scopes.ParamsTrace, SeqOf;
    var g, c := Entry(f, vars), Scopes.START;
    var g1 := GenParams(g, f.params, 0);
    var g2 := GenSeq(g1, f.body);
    var params, body := Scopes.ParamsTrace(ParamNames(f.params)), Scopes.SeqTrace(SeqOf(f.body), c);
    Compile.ParamsOpen(g, f.params, 0);
    assert f.params[0..] == f.params;
    ParamsWalk(g, f.params, 0);
    SeqWalks(g1, f.body, c);
    WalksCat(g, g1, g2, params, body);
    WalksScoped(g, g2, params + body);
    assert Scopes.FuncTrace(FuncOf(f)) == [Scopes.Open] + (params + body) + [Scopes.Close];
    assert GenFunc(f, vars).vars == g2.vars && GenFunc(f, vars).failed == g2.failed;
  }

  /** Every use the checker meets is of a name it finds. */
  predicate AllResolved(trace: seq<Scopes.Event>, st: Scopes.State) {
    trace == [] || ((trace[0].Use? ==> Scopes.Find(st.scopes, trace[0].x).Some?) && AllResolved(trace[1..], Scopes.Step(trace[0], st)))
  }

  lemma {:induction false} AgreedFound(trace: seq<Scopes.Event>, st: Scopes.State)
    requires AllResolved(trace, st) && Scopes.AllAgree(trace, st)
    ensures !Lost(trace, Agreement.NamesOf(st.flat))
    decreases |trace|
  {
    hide Scopes.Find, Scopes.FindIn;
    if trace != [] {
      var st1 := Scopes.Step(trace[0], st);
      AgreedFound(trace[1..], st1);
      if trace[0].Use? { InNames(st.flat, trace[0].x); }
      if trace[0].Declare? && trace[0].live { assert Agreement.NamesOf(st1.flat) == Agreement.NamesOf(st.flat) + [trace[0].x]; }
    }
  }

  /** A function whose names the checker resolves compiles without an undefined name where the two
      ways agree, starting from lists of the same names. */
  lemma {:induction false} AgreedCompiles(f: Func, vars: seq<Var>, st: Scopes.State)
    requires Agreement.NamesOf(st.flat) == VarNames(vars)
    requires AllResolved(Scopes.FuncTrace(FuncOf(f)), st) && Scopes.AllAgree(Scopes.FuncTrace(FuncOf(f)), st)
    ensures !GenFunc(f, vars).failed
  {
    FailsIff(f, vars);
    AgreedFound(Scopes.FuncTrace(FuncOf(f)), st);
  }

  /** The flat list after a function is the registry its compilation has built. */
  lemma {:induction false} FlatIsRegistry(f: Func, vars: seq<Var>, st: Scopes.State)
    requires Agreement.NamesOf(st.flat) == VarNames(vars)
    ensures Agreement.NamesOf(Scopes.Run(Scopes.FuncTrace(FuncOf(f)), st).flat) == VarNames(GenFunc(f, vars).vars)
  {
    FailsIff(f, vars);
    FlatNames(Scopes.FuncTrace(FuncOf(f)), st);
  }

  // ---- Two functions with statements that are not compiled.

  /** One use between events that are none. */
  lemma {:induction false} OneLiveUse(pre: seq<Scopes.Event>, w: Scopes.Event, post: seq<Scopes.Event>, st: Scopes.State)
    requires w.Use? && w.live && (forall e :: e in pre + post ==> !e.Use?)
    ensures var st1 := Scopes.Run(pre, st);
      && (AllResolved(pre + [w] + post, st) <==> Scopes.Find(st1.scopes, w.x).Some?)
      && (Scopes.AllAgree(pre + [w] + post, st) <==> (Scopes.Find(st1.scopes, w.x).Some? ==> Scopes.Find(st1.scopes, w.x) == Scopes.FindIn(st1.flat, w.x)))
    decreases |pre| + |post|
  {
    var all := pre + [w] + post;
    if pre != [] {
      assert all[0] == pre[0] && all[1..] == pre[1..] + [w] + post && pre[0] in pre + post;
      forall e | e in pre[1..] + post ensures e in pre + post { }
      OneLiveUse(pre[1..], w, post, Scopes.Step(pre[0], st));
    } else {
      assert all[0] == w && all[1..] == post;
      forall e | e in post ensures e in pre + post { }
      NoUse(post, st);
    }
  }

  lemma {:induction false} NoUse(trace: seq<Scopes.Event>, st: Scopes.State)
    requires forall e :: e in trace ==> !e.Use?
    ensures AllResolved(trace, st) && Scopes.AllAgree(trace, st)
    decreases |trace|
  {
    if trace != [] {
      assert trace[0] in trace;
      NoUse(trace[1..], Scopes.Step(trace[0], st));
    }
  }

  /** The loop as an outline. */
  function DeadLoop(y: Name): O.Stmt { O.CFor(None, None, Some(O.IncDec(y)), [O.Return(None), O.Decl(y, O.PLAIN, None)]) }

  function DeadFunc(y: Name): Func {
    Func("f", None, [], [CFor(None, None, Some(IncDec(true, false, y)), [Return(None), VarDecl(TInt, y, None)])])
  }

  lemma {:induction false} DeadOutline(y: Name)
    ensures FuncOf(DeadFunc(y)) == O.Func([], [DeadLoop(y)])
  {
    var body := [Return(None), VarDecl(TInt, y, None)];
    assert body[1..] == [VarDecl(TInt, y, None)] && body[1..][1..] == [];
    assert SeqOf(body[1..]) == [O.Decl(y, O.PLAIN, None)] + SeqOf([]);
    assert SeqOf(body) == [O.Return(None)] + [O.Decl(y, O.PLAIN, None)];
    var f := DeadFunc(y);
    assert f.body[1..] == [];
    assert StmtOf(f.body[0]) == DeadLoop(y) && ParamNames(f.params) == [];
    assert SeqOf(f.body) == [StmtOf(f.body[0])] + SeqOf([]);
  }

  lemma {:induction false} DeadLoopTrace(y: Name)
    ensures Scopes.FuncTrace(O.Func([], [DeadLoop(y)])) ==
      [Scopes.Open, Scopes.Open, Scopes.Declare(y, O.PLAIN, false), Scopes.Bind] + [Scopes.Use(y, Scopes.Write(true, 0), true)] + [Scopes.Close, Scopes.Close]
    ensures !Agreement.SeqUpdates([DeadLoop(y)], false)
  {
    var inner, loop, c := [O.Return(None), O.Decl(y, O.PLAIN, None)], DeadLoop(y), Scopes.InLoop(Scopes.START);
    var dead, w := c.(live := false), Scopes.Use(y, Scopes.Write(true, 0), true);
    var decl := [Scopes.Declare(y, O.PLAIN, false), Scopes.Bind];
    assert inner[1..] == [O.Decl(y, O.PLAIN, None)] && inner[1..][1..] == [] && [loop][1..] == [];
    assert Scopes.StmtTrace(inner[1], dead) == decl;
    assert Scopes.SeqTrace(inner[1..], dead) == decl + Scopes.SeqTrace([], dead) == decl;
    assert Scopes.SeqTrace(inner, c) == [] + decl == decl by { assert Scopes.StmtTrace(inner[0], c) == [] && Scopes.Behind(inner[0], c) == dead; }
    assert Scopes.Uses(O.IncDec(y), Scopes.START) == [w];
    assert Agreement.SeqDead(inner, true, true) == {} + Agreement.SeqDead(inner[1..], false, true);
    assert Agreement.SeqDead(inner[1..], false, true) == {y} + Agreement.SeqDead([], false, true);
    hide Scopes.SeqTrace, Scopes.Uses, Agreement.SeqDead;
    assert Scopes.StmtTrace(loop, Scopes.START) == [Scopes.Open] + [] + [] + decl + [w] + [Scopes.Close];
    assert !Agreement.Updates(loop, false) by { assert y in Agreement.OptSeen(loop.update) && y in Agreement.SeqDead(inner, true, true); }
    LoopOnly(loop);
  }

  lemma {:induction false} LoopOnly(s: O.Stmt)
    ensures Scopes.FuncTrace(O.Func([], [s])) == [Scopes.Open] + [] + (Scopes.StmtTrace(s, Scopes.START) + []) + [Scopes.Close]
  {
    hide Scopes.StmtTrace, O.Falls;
    assert [s][1..] == [] && Scopes.ParamsTrace([]) == [];
    assert Scopes.SeqTrace([s], Scopes.START) == Scopes.StmtTrace(s, Scopes.START) + Scopes.SeqTrace([], Scopes.Behind(s, Scopes.START));
  }

  lemma {:induction false} DeadUpdateState(y: Name)
    ensures var st := Scopes.Run([Scopes.Open, Scopes.Open, Scopes.Declare(y, O.PLAIN, false), Scopes.Bind], Scopes.State([[]], [], 0, None));
      Scopes.Find(st.scopes, y).Some? && st.flat == []
  {
    var none: seq<Scopes.Entry> := [];
    var st, rest := Scopes.State([none], [], 0, None), [Scopes.Open, Scopes.Declare(y, O.PLAIN, false), Scopes.Bind];
    var st1 := Scopes.Step(Scopes.Open, st);
    assert [Scopes.Open] + rest == [Scopes.Open, Scopes.Open, Scopes.Declare(y, O.PLAIN, false), Scopes.Bind];
    Scopes.RunCat([Scopes.Open], rest, st);
    Agreement.OneEvent(Scopes.Open, st);
    Scopes.DeclaredIn(st1, y, O.PLAIN, false);
    Scopes.FindLatest(st1.scopes, Scopes.Entry(y, 0, O.PLAIN));
  }

  /** `for (; ; y++) { return; int y; }`: the checker finds the `y` of the update in the body's
      scope, and the code generator has never met it. */
  lemma {:induction false} DeadUpdate(y: Name)
    ensures var f := Func("f", None, [], [CFor(None, None, Some(IncDec(true, false, y)), [Return(None), VarDecl(TInt, y, None)])]);
      var trace, st := Scopes.FuncTrace(FuncOf(f)), Scopes.State([[]], [], 0, None);
      AllResolved(trace, st) && !Scopes.AllAgree(trace, st) && !Agreement.SeqUpdates(FuncOf(f).body, false) && GenFunc(f, []).failed
  {
    var f, st, w := DeadFunc(y), Scopes.State([[]], [], 0, None), Scopes.Use(y, Scopes.Write(true, 0), true);
    var pre, post := [Scopes.Open, Scopes.Open, Scopes.Declare(y, O.PLAIN, false), Scopes.Bind], [Scopes.Close, Scopes.Close];
    DeadOutline(y);
    DeadLoopTrace(y);
    DeadUpdateState(y);
    FailsIff(f, []);
    QuietLost(pre, []);
    QuietLost(post, []);
    hide FuncOf, Scopes.FuncTrace, GenFunc, Scopes.Run, Scopes.Find, Agreement.SeqUpdates, AllResolved, Scopes.AllAgree;
    OneLiveUse(pre, w, post, st);
    LostCat(pre + [w], post, []);
    LostCat(pre, [w], []);
    OneUse(y, w.access, true, []);
    assert VarNames([]) == [];
  }
}
