/** When the checker is content: rules on the tree of a program alone, with lexical scoping, and
    without scopes that are pushed and popped, traces or counts of errors. */

module Lexical {
  import opened Options
  import opened Outline
  import opened Scopes
  import opened Discipline
  import Agreement

  /** The declarations that can be seen, and the names that the innermost block declares. */
  datatype Scope = Scope(seen: map<Name, Attr>, here: set<Name>)

  function Inner(sc: Scope): Scope { Scope(sc.seen, {}) }

  /** A name declared again in the same block keeps its first declaration. */
  function Plus(sc: Scope, x: Name, a: Attr): Scope {
    if x in sc.here then sc else Scope(sc.seen[x := a], sc.here + {x})
  }

  function MaybePlus(sc: Scope, h: Option<Name>): Scope { if h.None? then sc else Plus(sc, h.value, PLAIN) }

  /** Every name is declared, every assigned variable is `mut`, and one that is `shared` is assigned
      inside a `using` body only. */
  predicate ExprFine(e: Expr, seen: map<Name, Attr>, depth: nat) {
    match e
    case Const => true
    case Var(x) => x in seen
    case Op(l, r) => ExprFine(l, seen, depth) && ExprFine(r, seen, depth)
    case Choice(d, a, b) => ExprFine(d, seen, depth) && ExprFine(a, seen, depth) && ExprFine(b, seen, depth)
    case Assign(x, a) => x in seen && seen[x].mut && (seen[x].shd ==> depth > 0) && ExprFine(a, seen, depth)
    case IncDec(x) => x in seen
    case Call(_) => true
    case Unseen(a) => ExprFine(a, seen, depth)
  }

  predicate OptFine(e: Option<Expr>, seen: map<Name, Attr>, depth: nat) { e.Some? ==> ExprFine(e.value, seen, depth) }

  /** What a statement adds to the block it stands in. */
  function After(s: Stmt, sc: Scope): Scope
    decreases s, 1
  {
    match s
    case Decl(x, a, _) => Plus(sc, x, a)
    case Unsafe(body) => AfterAll(body, sc)
    case _ => sc
  }

  function AfterAll(ss: seq<Stmt>, sc: Scope): Scope
    decreases ss, 0
  {
    if ss == [] then sc else AfterAll(ss[1..], After(ss[0], sc))
  }

  function Begun(first: Option<Stmt>, sc: Scope): Scope { if first.None? then Inner(sc) else After(first.value, Inner(sc)) }

  predicate SeqFine(ss: seq<Stmt>, sc: Scope, depth: nat)
    decreases ss, 0
  {
    ss == [] || (StmtFine(ss[0], sc, depth) && SeqFine(ss[1..], After(ss[0], sc), depth))
  }

  predicate StmtFine(s: Stmt, sc: Scope, depth: nat)
    decreases s, 1
  {
    match s
    case Decl(_, _, init) => OptFine(init, sc.seen, depth)
    case Do(e) => ExprFine(e, sc.seen, depth)
    case Return(v) => OptFine(v, sc.seen, depth)
    case Break => true
    case Continue => true
    case Unsafe(body) => SeqFine(body, sc, depth)
    case If(e, thn, els) => ExprFine(e, sc.seen, depth) && SeqFine(thn, Inner(sc), depth) && SeqFine(els, Inner(sc), depth)
    case Cases(_, e, arms) => ExprFine(e, sc.seen, depth) && ArmsFine(arms, sc, depth)
    case While(e, body) => ExprFine(e, sc.seen, depth) && SeqFine(body, Inner(sc), depth)
    case DoWhile(body, e) => SeqFine(body, Inner(sc), depth) && ExprFine(e, sc.seen, depth)
    case For(x, iter, body) => ExprFine(iter, sc.seen, depth) && SeqFine(body, Plus(Inner(sc), x, PLAIN), depth)
    case CFor(first, e, u, body) =>
      var sc1 := Begun(first, sc);
      && (first.Some? ==> StmtFine(first.value, Inner(sc), depth)) && OptFine(e, sc1.seen, depth)
      && SeqFine(body, sc1, depth) && OptFine(u, AfterAll(body, sc1).seen, depth)
    case Using(r, h, _, body) => ExprFine(r, sc.seen, depth) && SeqFine(body, MaybePlus(Inner(sc), h), depth + 1)
  }

  predicate ArmsFine(arms: seq<Arm>, sc: Scope, depth: nat)
    decreases arms, 0
  {
    forall i :: 0 <= i < |arms| ==> OptFine(arms[i].test, sc.seen, depth) && SeqFine(arms[i].body, Inner(sc), depth)
  }

  // ---- The checker's state shows a scope.

  ghost predicate View(st: State, sc: Scope) {
    && st.pending.None? && st.scopes != []
    && (forall x :: Find(st.scopes, x).Some? <==> x in sc.seen)
    && (forall x :: x in sc.seen ==> Find(st.scopes, x).value.a == sc.seen[x])
    && (forall x :: Has(st.scopes[|st.scopes| - 1], x) <==> x in sc.here)
  }

  /** Only the innermost scope has changed. */
  predicate Kept(st: State, st1: State) {
    |st1.scopes| == |st.scopes| > 0 && st1.scopes[..|st.scopes| - 1] == st.scopes[..|st.scopes| - 1]
  }

  /** A walk: it meets no error if and only if the rules are kept, and shows `sc1` after it. */
  ghost predicate Goes(trace: seq<Event>, st: State, fine: bool, sc1: Scope) {
    (Errors(trace, st) == 0 <==> fine) && View(Run(trace, st), sc1) && Kept(st, Run(trace, st))
  }

  lemma {:induction false} GoesCat(a: seq<Event>, b: seq<Event>, st: State, fine: bool, sc1: Scope, fine1: bool, sc2: Scope)
    requires Goes(a, st, fine, sc1) && Goes(b, Run(a, st), fine1, sc2)
    ensures Goes(a + b, st, fine && fine1, sc2)
  {
    hide View, Errors, Run;
    ErrorsCat(a, b, st);
    RunCat(a, b, st);
  }

  lemma {:induction false} GoesNothing(st: State, sc: Scope)
    requires View(st, sc)
    ensures Goes([], st, true, sc)
  {
  }

  lemma {:induction false} OpenView(st: State, sc: Scope)
    requires View(st, sc)
    ensures View(Step(Open, st), Inner(sc))
  {
    var st1 := Step(Open, st);
    assert st1.scopes[..|st1.scopes| - 1] == st.scopes;
    forall x ensures Find(st1.scopes, x) == Find(st.scopes, x) {
      assert FindIn(st1.scopes[|st1.scopes| - 1], x).None?;
    }
  }

  lemma {:induction false} OneEvent(e: Event, st: State)
    ensures Run([e], st) == Step(e, st) && (!e.Use? ==> Errors([e], st) == 0)
  {
    assert [e][1..] == [];
  }

  /** A block: what it declares is forgotten. */
  lemma {:induction false} GoesScoped(trace: seq<Event>, st: State, fine: bool, sc: Scope, sc1: Scope)
    requires View(st, sc) && Goes(trace, Step(Open, st), fine, sc1)
    ensures Goes([Open] + trace + [Close], st, fine, sc)
  {
    var st1 := Step(Open, st);
    var st2 := Run(trace, st1);
    OneEvent(Open, st);
    ErrorsCat([Open], trace, st);
    RunCat([Open], trace, st);
    OneEvent(Close, st2);
    ErrorsCat([Open] + trace, [Close], st);
    RunCat([Open] + trace, [Close], st);
    assert Popped(st2.scopes) == st.scopes by { assert st1.scopes[..|st.scopes|] == st.scopes; }
    hide Run, Errors, Find, Has;
    assert Step(Close, st2).pending == None;
  }

  lemma {:induction false} UseGoes(x: Name, access: Access, live: bool, st: State, sc: Scope)
    requires View(st, sc)
    ensures var checks := access.Write? && !access.step;
      Goes([Use(x, access, live)], st, x in sc.seen && (checks ==> sc.seen[x].mut && (sc.seen[x].shd ==> access.depth > 0)), sc)
  {
    var u := Use(x, access, live);
    assert [u][1..] == [];
    assert Errors([u], st) == UseErrors(Find(st.scopes, x), access);
    assert Run([u], st) == st;
    hide Find, Has, Errors, Run;
  }

  lemma {:induction false} ExprGoes(e: Expr, c: Ctx, st: State, sc: Scope)
    requires View(st, sc)
    ensures Goes(Uses(e, c), st, ExprFine(e, sc.seen, c.depth), sc)
    decreases e
  {
    hide Goes, View;
    UsesStay(e, c, st);
    match e
    case Const => GoesNothing(st, sc);
    case Var(x) => UseGoes(x, Read, c.live, st, sc);
    case Op(l, r) =>
      UsesStay(l, c, st);
      ExprGoes(l, c, st, sc);
      ExprGoes(r, c, st, sc);
      GoesCat(Uses(l, c), Uses(r, c), st, ExprFine(l, sc.seen, c.depth), sc, ExprFine(r, sc.seen, c.depth), sc);
    case Choice(d, a, b) =>
      UsesStay(d, c, st);
      UsesStay(a, c, st);
      ExprGoes(d, c, st, sc);
      ExprGoes(a, c, st, sc);
      ExprGoes(b, c, st, sc);
      GoesCat(Uses(d, c), Uses(a, c), st, ExprFine(d, sc.seen, c.depth), sc, ExprFine(a, sc.seen, c.depth), sc);
      RunCat(Uses(d, c), Uses(a, c), st);
      GoesCat(Uses(d, c) + Uses(a, c), Uses(b, c), st, ExprFine(d, sc.seen, c.depth) && ExprFine(a, sc.seen, c.depth), sc, ExprFine(b, sc.seen, c.depth), sc);
    case Assign(x, a) =>
      var w := Use(x, Write(false, c.depth), c.live);
      UseGoes(x, w.access, c.live, st, sc);
      OneEvent(w, st);
      ExprGoes(a, c, st, sc);
      GoesCat([w], Uses(a, c), st, x in sc.seen && sc.seen[x].mut && (sc.seen[x].shd ==> c.depth > 0), sc, ExprFine(a, sc.seen, c.depth), sc);
    case IncDec(x) => UseGoes(x, Write(true, c.depth), c.live, st, sc);
    case Call(_) => GoesNothing(st, sc);
    case Unseen(a) => ExprGoes(a, c.(live := false), st, sc);
  }

  lemma {:induction false} OptGoes(e: Option<Expr>, c: Ctx, st: State, sc: Scope)
    requires View(st, sc)
    ensures Goes(OptUses(e, c), st, OptFine(e, sc.seen, c.depth), sc) && Run(OptUses(e, c), st) == st
  {
    hide Goes, View;
    if e.Some? {
      ExprGoes(e.value, c, st, sc);
      UsesStay(e.value, c, st);
    } else {
      GoesNothing(st, sc);
    }
  }

  /** A declaration is bound behind its initialiser. */
  lemma {:induction false} DeclaringGoes(x: Name, a: Attr, init: Option<Expr>, c: Ctx, st: State, sc: Scope)
    requires View(st, sc)
    ensures Goes(Declaring(x, a, init, c), st, OptFine(init, sc.seen, c.depth), Plus(sc, x, a))
  {
    OptGoes(init, c, st, sc);
    DeclaringWent(x, a, init, c, st);
    BindView(x, a, c.live, st, sc);
    hide Run, Errors, View, Step;
  }

  /** An entry more in the innermost scope. */
  lemma {:induction false} FindAdded(scopes: seq<seq<Entry>>, e: Entry, y: Name)
    requires scopes != []
    ensures var n := |scopes| - 1;
      Find(scopes[..n] + [scopes[n] + [e]], y) == if y == e.x then Some(e) else Find(scopes, y)
  {
    var n := |scopes| - 1;
    var scopes1, last := scopes[..n] + [scopes[n] + [e]], scopes[n] + [e];
    assert scopes1[n] == last && scopes1[..n] == scopes[..n];
    assert last[..|last| - 1] == scopes[n] && last[|last| - 1] == e;
  }

  lemma {:induction false} HasAdded(scope: seq<Entry>, e: Entry, y: Name)
    ensures Has(scope + [e], y) <==> y == e.x || Has(scope, y)
  {
    var last := scope + [e];
    if y == e.x { assert last[|scope|].x == y; }
    if Has(scope, y) {
      var i :| 0 <= i < |scope| && scope[i].x == y;
      assert last[i].x == y;
    }
  }

  lemma {:induction false} BindView(x: Name, a: Attr, live: bool, st: State, sc: Scope)
    requires View(st, sc)
    ensures var st1 := Step(Bind, Step(Declare(x, a, live), st)); View(st1, Plus(sc, x, a)) && Kept(st, st1)
  {
    var e, n := Entry(x, st.next, a), |st.scopes| - 1;
    var st1 := Step(Bind, Step(Declare(x, a, live), st));
    assert st1.scopes == Added(st.scopes, e) && st1.pending == None;
    hide Find, Has, Step;
    if x !in sc.here {
      forall y ensures Find(st1.scopes, y) == if y == x then Some(e) else Find(st.scopes, y) { FindAdded(st.scopes, e, y); }
      forall y ensures Has(st.scopes[n] + [e], y) <==> y == x || Has(st.scopes[n], y) { HasAdded(st.scopes[n], e, y); }
    }
  }

  lemma {:induction false} MaybeGoes(h: Option<Name>, c: Ctx, st: State, sc: Scope)
    requires View(st, sc)
    ensures Goes(HandleTrace(h, c), st, true, MaybePlus(sc, h))
  {
    hide Goes, View, Declaring, Plus;
    if h.None? {
      GoesNothing(st, sc);
    } else {
      DeclaringGoes(h.value, PLAIN, None, c, st, sc);
    }
  }

  /** An expression, then a block. */
  lemma {:induction false} ThenScoped(first: seq<Event>, trace: seq<Event>, st: State, fine: bool, fine1: bool, sc: Scope, sc1: Scope)
    requires View(st, sc) && Goes(first, st, fine, sc) && Run(first, st) == st && Goes(trace, Step(Open, st), fine1, sc1)
    ensures Goes(first + ([Open] + trace + [Close]), st, fine && fine1, sc)
  {
    hide Goes, View;
    GoesScoped(trace, st, fine1, sc, sc1);
    GoesCat(first, [Open] + trace + [Close], st, fine, sc, fine1, sc);
  }

  lemma {:induction false} AfterGoes(trace: seq<Event>, st: State, fine: bool, sc1: Scope)
    requires Goes(trace, st, fine, sc1)
    ensures View(Run(trace, st), sc1)
  {
  }

  predicate TestsFine(arms: seq<Arm>, sc: Scope, depth: nat) {
    forall i :: 0 <= i < |arms| ==> OptFine(arms[i].test, sc.seen, depth)
  }

  predicate BodiesFine(arms: seq<Arm>, sc: Scope, depth: nat) {
    forall i :: 0 <= i < |arms| ==> SeqFine(arms[i].body, Inner(sc), depth)
  }

  lemma {:induction false} TestsGo(arms: seq<Arm>, c: Ctx, st: State, sc: Scope)
    requires View(st, sc)
    ensures Goes(TestsTrace(arms, c), st, TestsFine(arms, sc, c.depth), sc) && Run(TestsTrace(arms, c), st) == st
    decreases |arms|
  {
    hide Goes, View, OptFine, OptUses;
    if arms == [] {
      GoesNothing(st, sc);
    } else {
      var t, u := OptUses(arms[0].test, c), TestsTrace(arms[1..], c);
      OptGoes(arms[0].test, c, st, sc);
      TestsGo(arms[1..], c, st, sc);
      GoesCat(t, u, st, OptFine(arms[0].test, sc.seen, c.depth), sc, TestsFine(arms[1..], sc, c.depth), sc);
      RunCat(t, u, st);
      assert forall i :: 0 < i < |arms| ==> arms[i] == arms[1..][i - 1];
    }
  }

  lemma {:induction false} ArmsGo(arms: seq<Arm>, c: Ctx, st: State, sc: Scope)
    requires View(st, sc)
    ensures Goes(ArmsTrace(arms, c), st, BodiesFine(arms, sc, c.depth), sc)
    decreases arms, 0
  {
    hide Goes, View, SeqFine, SeqTrace;
    if arms == [] {
      GoesNothing(st, sc);
    } else {
      var t, u := Scoped(arms[0].body, c), ArmsTrace(arms[1..], c);
      BlockGoes(arms[0].body, c, st, sc);
      AfterGoes(t, st, SeqFine(arms[0].body, Inner(sc), c.depth), sc);
      ArmsGo(arms[1..], c, Run(t, st), sc);
      GoesCat(t, u, st, SeqFine(arms[0].body, Inner(sc), c.depth), sc, BodiesFine(arms[1..], sc, c.depth), sc);
      assert forall i :: 0 < i < |arms| ==> arms[i] == arms[1..][i - 1];
    }
  }

  lemma {:induction false} BlockGoes(ss: seq<Stmt>, c: Ctx, st: State, sc: Scope)
    requires View(st, sc)
    ensures Goes(Scoped(ss, c), st, SeqFine(ss, Inner(sc), c.depth), sc)
    decreases ss, 1
  {
    hide Goes, View, SeqFine, SeqTrace;
    OpenView(st, sc);
    SeqGoes(ss, c, Step(Open, st), Inner(sc));
    GoesScoped(SeqTrace(ss, c), st, SeqFine(ss, Inner(sc), c.depth), sc, AfterAll(ss, Inner(sc)));
  }

  /** Statements: the checker meets no error if and only if the rules are kept, and behind them its
      scopes show what lexical scoping says can be seen. */
  lemma {:induction false} SeqGoes(ss: seq<Stmt>, c: Ctx, st: State, sc: Scope)
    requires View(st, sc)
    ensures Goes(SeqTrace(ss, c), st, SeqFine(ss, sc, c.depth), AfterAll(ss, sc))
    decreases ss, 0
  {
    hide Goes, View, StmtFine, StmtTrace, After;
    if ss == [] {
      GoesNothing(st, sc);
    } else {
      var s, rest, sc1 := ss[0], Behind(ss[0], c), After(ss[0], sc);
      StmtGoes(s, c, st, sc);
      AfterGoes(StmtTrace(s, c), st, StmtFine(s, sc, c.depth), sc1);
      SeqGoes(ss[1..], rest, Run(StmtTrace(s, c), st), sc1);
      GoesCat(StmtTrace(s, c), SeqTrace(ss[1..], rest), st, StmtFine(s, sc, c.depth), sc1, SeqFine(ss[1..], sc1, c.depth), AfterAll(ss[1..], sc1));
    }
  }

  lemma {:induction false} StmtGoes(s: Stmt, c: Ctx, st: State, sc: Scope)
    requires View(st, sc)
    ensures Goes(StmtTrace(s, c), st, StmtFine(s, sc, c.depth), After(s, sc))
    decreases s, 2
  {
    hide Goes, View, SeqFine, SeqTrace, Uses, ExprFine, OptUses, Declaring, Plus, Scoped, AfterAll, TestsTrace, ArmsTrace, ArmsFine;
    match s
    case Decl(x, a, init) => DeclaringGoes(x, a, init, c, st, sc);
    case Do(e) => ExprGoes(e, c, st, sc);
    case Return(v) => OptGoes(v, c, st, sc);
    case Break => GoesNothing(st, sc);
    case Continue => GoesNothing(st, sc);
    case Unsafe(body) => SeqGoes(body, c, st, sc);
    case If(_, _, _) => IfGoes(s, c, st, sc);
    case Cases(_, _, _) => CasesGo(s, c, st, sc);
    case While(e, body) =>
      ExprGoes(e, c, st, sc);
      UsesStay(e, c, st);
      BlockGoes(body, InLoop(c), st, sc);
      GoesCat(Uses(e, c), Scoped(body, InLoop(c)), st, ExprFine(e, sc.seen, c.depth), sc, SeqFine(body, Inner(sc), c.depth), sc);
    case DoWhile(body, e) =>
      BlockGoes(body, InLoop(c), st, sc);
      var fine := SeqFine(body, Inner(sc), c.depth);
      AfterGoes(Scoped(body, InLoop(c)), st, fine, sc);
      ExprGoes(e, c, Run(Scoped(body, InLoop(c)), st), sc);
      GoesCat(Scoped(body, InLoop(c)), Uses(e, c), st, fine, sc, ExprFine(e, sc.seen, c.depth), sc);
    case For(_, _, _) => ForGoes(s, c, st, sc);
    case CFor(_, _, _, _) => CForGoes(s, c, st, sc);
    case Using(_, _, _, _) => UsingGoes(s, c, st, sc);
  }

  lemma {:induction false} IfGoes(s: Stmt, c: Ctx, st: State, sc: Scope)
    requires View(st, sc) && s.If?
    ensures Goes(StmtTrace(s, c), st, StmtFine(s, sc, c.depth), sc)
    decreases s, 0
  {
    hide Goes, View, SeqFine, SeqTrace, Uses, ExprFine, Scoped;
    var t, a, b := Uses(s.c, c), Scoped(s.thn, c), Scoped(s.els, c);
    var f, g, h := ExprFine(s.c, sc.seen, c.depth), SeqFine(s.thn, Inner(sc), c.depth), SeqFine(s.els, Inner(sc), c.depth);
    ExprGoes(s.c, c, st, sc);
    UsesStay(s.c, c, st);
    BlockGoes(s.thn, c, st, sc);
    GoesCat(t, a, st, f, sc, g, sc);
    AfterGoes(t + a, st, f && g, sc);
    BlockGoes(s.els, c, Run(t + a, st), sc);
    GoesCat(t + a, b, st, f && g, sc, h, sc);
  }

  lemma {:induction false} CasesGo(s: Stmt, c: Ctx, st: State, sc: Scope)
    requires View(st, sc) && s.Cases?
    ensures Goes(StmtTrace(s, c), st, StmtFine(s, sc, c.depth), sc)
    decreases s, 0
  {
    hide Goes, View, SeqFine, SeqTrace, Uses, ExprFine, TestsTrace, ArmsTrace;
    var t, a, b := Uses(s.e, c), TestsTrace(s.arms, c), ArmsTrace(s.arms, c);
    var f, g, h := ExprFine(s.e, sc.seen, c.depth), TestsFine(s.arms, sc, c.depth), BodiesFine(s.arms, sc, c.depth);
    ExprGoes(s.e, c, st, sc);
    UsesStay(s.e, c, st);
    TestsGo(s.arms, c, st, sc);
    GoesCat(t, a, st, f, sc, g, sc);
    RunCat(t, a, st);
    ArmsGo(s.arms, c, st, sc);
    GoesCat(t + a, b, st, f && g, sc, h, sc);
  }

  lemma {:induction false} ForGoes(s: Stmt, c: Ctx, st: State, sc: Scope)
    requires View(st, sc) && s.For?
    ensures Goes(StmtTrace(s, c), st, StmtFine(s, sc, c.depth), sc)
    decreases s, 0
  {
    hide Goes, View, SeqFine, SeqTrace, Uses, ExprFine, Declaring, Plus, AfterAll;
    var t, decl, inner := Uses(s.iter, c), Declaring(s.x, PLAIN, None, c), SeqTrace(s.body, InLoop(c));
    var sc1 := Plus(Inner(sc), s.x, PLAIN);
    ExprGoes(s.iter, c, st, sc);
    UsesStay(s.iter, c, st);
    OpenView(st, sc);
    DeclaringGoes(s.x, PLAIN, None, c, Step(Open, st), Inner(sc));
    AfterGoes(decl, Step(Open, st), true, sc1);
    SeqGoes(s.body, InLoop(c), Run(decl, Step(Open, st)), sc1);
    GoesCat(decl, inner, Step(Open, st), true, sc1, SeqFine(s.body, sc1, c.depth), AfterAll(s.body, sc1));
    ThenScoped(t, decl + inner, st, ExprFine(s.iter, sc.seen, c.depth), SeqFine(s.body, sc1, c.depth), sc, AfterAll(s.body, sc1));
    assert t + [Open] + decl + inner + [Close] == t + ([Open] + (decl + inner) + [Close]);
  }

  lemma {:induction false} UsingGoes(s: Stmt, c: Ctx, st: State, sc: Scope)
    requires View(st, sc) && s.Using?
    ensures Goes(StmtTrace(s, c), st, StmtFine(s, sc, c.depth), sc)
    decreases s, 0
  {
    hide Goes, View, SeqFine, SeqTrace, Uses, ExprFine, HandleTrace, MaybePlus, AfterAll;
    var t, decl, inner := Uses(s.resource, c), HandleTrace(s.handle, c), SeqTrace(s.body, InUsing(c));
    var sc1 := MaybePlus(Inner(sc), s.handle);
    ExprGoes(s.resource, c, st, sc);
    UsesStay(s.resource, c, st);
    OpenView(st, sc);
    MaybeGoes(s.handle, c, Step(Open, st), Inner(sc));
    AfterGoes(decl, Step(Open, st), true, sc1);
    SeqGoes(s.body, InUsing(c), Run(decl, Step(Open, st)), sc1);
    GoesCat(decl, inner, Step(Open, st), true, sc1, SeqFine(s.body, sc1, c.depth + 1), AfterAll(s.body, sc1));
    ThenScoped(t, decl + inner, st, ExprFine(s.resource, sc.seen, c.depth), SeqFine(s.body, sc1, c.depth + 1), sc, AfterAll(s.body, sc1));
    assert t + [Open] + decl + inner + [Close] == t + ([Open] + (decl + inner) + [Close]);
  }

  lemma {:induction false} CForGoes(s: Stmt, c: Ctx, st: State, sc: Scope)
    requires View(st, sc) && s.CFor?
    ensures Goes(StmtTrace(s, c), st, StmtFine(s, sc, c.depth), sc)
    decreases s, 0
  {
    hide Goes, View, SeqFine, SeqTrace, OptUses, OptFine, AfterAll, Begun;
    var st0, inside := Step(Open, st), InLoop(c);
    var t, e, inner, u := Agreement.FirstTrace(s, c), OptUses(s.cond, c), SeqTrace(s.body, inside), OptUses(s.update, c);
    var sc1 := Begun(s.first, sc);
    var sc2 := AfterAll(s.body, sc1);
    var f0 := s.first.Some? ==> StmtFine(s.first.value, Inner(sc), c.depth);
    var f1, f2, f3 := OptFine(s.cond, sc1.seen, c.depth), SeqFine(s.body, sc1, c.depth), OptFine(s.update, sc2.seen, c.depth);
    OpenView(st, sc);
    FirstGoes(s, c, st0, sc);
    AfterGoes(t, st0, f0, sc1);
    var st1 := Run(t, st0);
    OptGoes(s.cond, c, st1, sc1);
    SeqGoes(s.body, inside, st1, sc1);
    AfterGoes(inner, st1, f2, sc2);
    OptGoes(s.update, c, Run(inner, st1), sc2);
    GoesCat(t, e, st0, f0, sc1, f1, sc1);
    RunCat(t, e, st0);
    GoesCat(t + e, inner, st0, f0 && f1, sc1, f2, sc2);
    RunCat(t + e, inner, st0);
    GoesCat(t + e + inner, u, st0, f0 && f1 && f2, sc2, f3, sc2);
    GoesScoped(t + e + inner + u, st, f0 && f1 && f2 && f3, sc, sc2);
    Agreement.CForTrace(s, c);
    assert [Open] + t + e + inner + u + [Close] == [Open] + (t + e + inner + u) + [Close];
  }

  lemma {:induction false} FirstGoes(s: Stmt, c: Ctx, st0: State, sc: Scope)
    requires s.CFor? && View(st0, Inner(sc))
    ensures Goes(Agreement.FirstTrace(s, c), st0, s.first.Some? ==> StmtFine(s.first.value, Inner(sc), c.depth), Begun(s.first, sc))
    decreases s.first
  {
    hide Goes, View, StmtFine, StmtTrace, After;
    if s.first.None? {
      GoesNothing(st0, Inner(sc));
    } else {
      StmtGoes(s.first.value, c, st0, Inner(sc));
    }
  }

  /** For any body in a scope the checker's state shows: no error is reported if and only if the rules
      are kept. */
  lemma {:induction false} SeqErrorsIff(ss: seq<Stmt>, c: Ctx, st: State, sc: Scope)
    requires View(st, sc)
    ensures Errors(SeqTrace(ss, c), st) == 0 <==> SeqFine(ss, sc, c.depth)
    ensures View(Run(SeqTrace(ss, c), st), AfterAll(ss, sc))
  {
    SeqGoes(ss, c, st, sc);
    hide View, Errors, Run, SeqFine, SeqTrace, AfterAll;
  }

  // ---- Programs.

  function WithParams(params: seq<Name>, sc: Scope): Scope {
    if params == [] then sc else WithParams(params[1..], Plus(sc, params[0], PLAIN))
  }

  function WithGlobals(gs: seq<Global>, sc: Scope): Scope {
    if gs == [] then sc else WithGlobals(gs[1..], Plus(sc, gs[0].x, gs[0].a))
  }

  const OUTERMOST := Scope(map[], {})

  /** Every function keeps the rules where it sees the globals and its own parameters. */
  predicate ProgramFine(fs: seq<Func>, sc: Scope) {
    forall i :: 0 <= i < |fs| ==> SeqFine(fs[i].body, WithParams(fs[i].params, Inner(sc)), 0)
  }

  lemma {:induction false} ParamsGo(params: seq<Name>, st: State, sc: Scope)
    requires View(st, sc)
    ensures Goes(ParamsTrace(params), st, true, WithParams(params, sc))
    decreases |params|
  {
    hide Goes, View, Declaring, Plus;
    if params == [] {
      GoesNothing(st, sc);
    } else {
      var t, sc1 := Declaring(params[0], PLAIN, None, START), Plus(sc, params[0], PLAIN);
      DeclaringGoes(params[0], PLAIN, None, START, st, sc);
      AfterGoes(t, st, true, sc1);
      ParamsGo(params[1..], Run(t, st), sc1);
      GoesCat(t, ParamsTrace(params[1..]), st, true, sc1, true, WithParams(params[1..], sc1));
    }
  }

  lemma {:induction false} GlobalsGo(gs: seq<Global>, st: State, sc: Scope)
    requires View(st, sc)
    ensures View(Run(GlobalsTrace(gs), st), WithGlobals(gs, sc))
    decreases |gs|
  {
    hide Goes, View, Declaring, Plus;
    if gs != [] {
      var t, sc1 := Declaring(gs[0].x, gs[0].a, None, START), Plus(sc, gs[0].x, gs[0].a);
      DeclaringGoes(gs[0].x, gs[0].a, None, START, st, sc);
      AfterGoes(t, st, true, sc1);
      GlobalsGo(gs[1..], Run(t, st), sc1);
      RunCat(t, GlobalsTrace(gs[1..]), st);
    }
  }

  lemma {:induction false} InsideView(f: Func, st: State, sc: Scope)
    requires View(st, sc)
    ensures View(Inside(f, st), WithParams(f.params, Inner(sc))) && View(Past(f, st), sc)
  {
    var t, st1 := ParamsTrace(f.params), Step(Open, st);
    hide Goes, View, ParamsTrace;
    OpenView(st, sc);
    ParamsGo(f.params, st1, Inner(sc));
    AfterGoes(t, st1, true, WithParams(f.params, Inner(sc)));
    OneEvent(Open, st);
    RunCat([Open], t, st);
    GoesScoped(t, st, true, sc, WithParams(f.params, Inner(sc)));
    AfterGoes([Open] + t + [Close], st, true, sc);
    RunCat([Open] + t, [Close], st);
    OneEvent(Close, Inside(f, st));
  }

  lemma {:induction false} FunctionsGo(fs: seq<Func>, st: State, sc: Scope)
    requires View(st, sc)
    ensures ProgramErrors(fs, st) == 0 <==> ProgramFine(fs, sc)
    decreases |fs|
  {
    hide View, SeqFine, Inside, Past, WithParams;
    if fs != [] {
      InsideView(fs[0], st, sc);
      SeqErrorsIff(fs[0].body, START, Inside(fs[0], st), WithParams(fs[0].params, Inner(sc)));
      FunctionsGo(fs[1..], Past(fs[0], st), sc);
      assert forall i :: 0 < i < |fs| ==> fs[i] == fs[1..][i - 1];
    }
  }

  /** The checker accepts a program if and only if every name used is declared where it is used, every
      variable assigned is `mut`, and a `shared` one is assigned in `using` bodies only. */
  lemma {:induction false} ProgramErrorsIff(gs: seq<Global>, fs: seq<Func>)
    ensures ProgramErrors(fs, Start(gs)) == 0 <==> ProgramFine(fs, WithGlobals(gs, OUTERMOST))
  {
    assert View(EMPTY, OUTERMOST) by {
      assert EMPTY.scopes[..0] == [] && EMPTY.scopes[0] == [];
      assert forall x :: Find(EMPTY.scopes, x).None?;
    }
    hide View;
    GlobalsGo(gs, EMPTY, OUTERMOST);
    FunctionsGo(fs, Start(gs), WithGlobals(gs, OUTERMOST));
  }

  /** A shared counter increased under a lock is accepted, and refused without one. */
  lemma {:induction false} LockedIncrement(x: Name)
    ensures var gs, add := [Global(x, Attr(true, true))], Do(Assign(x, Op(Var(x), Const)));
      && ProgramErrors([Func([], [Using(Const, None, true, [add])])], Start(gs)) == 0
      && ProgramErrors([Func([], [add])], Start(gs)) != 0
  {
    var gs, add := [Global(x, Attr(true, true))], Do(Assign(x, Op(Var(x), Const)));
    var locked, bare := [Func([], [Using(Const, None, true, [add])])], [Func([], [add])];
    ProgramErrorsIff(gs, locked);
    ProgramErrorsIff(gs, bare);
    var sc := WithGlobals(gs, OUTERMOST);
    assert sc == Scope(map[x := Attr(true, true)], {x}) by { assert gs[1..] == []; }
    assert [add][1..] == [] && locked[0].body[1..] == [];
    hide ProgramErrors, Start, WithGlobals;
    assert ExprFine(Var(x), sc.seen, 1) && ExprFine(Const, sc.seen, 1) && ExprFine(Op(Var(x), Const), sc.seen, 1);
    assert ExprFine(add.e, sc.seen, 1) && !ExprFine(add.e, sc.seen, 0);
    assert StmtFine(add, Inner(Inner(sc)), 1) && !StmtFine(add, Inner(sc), 0);
    assert SeqFine([add], MaybePlus(Inner(Inner(sc)), None), 1);
    assert StmtFine(locked[0].body[0], Inner(sc), 0);
    assert SeqFine(locked[0].body, Inner(sc), 0);
    assert !SeqFine(bare[0].body, Inner(sc), 0);
  }

  /** Run, it makes one write, inside a `using` body. */
  lemma {:induction false} LockedWrite(x: Name, tape: Tape, pos: nat, prog: seq<seq<Code>>, fuel: nat)
    ensures var gs, body := [Global(x, Attr(true, true))], [Using(Const, None, true, [Do(Assign(x, Op(Var(x), Const)))])];
      RunSeq(ProgramCode([Func([], body)], Start(gs))[0], 0, tape, pos, prog, fuel).log == [Written(Attr(true, true), 1)]
  {
    var gs, w := [Global(x, Attr(true, true))], Do(Assign(x, Op(Var(x), Const)));
    var s, e := Using(Const, None, true, [w]), Entry(x, 0, Attr(true, true));
    var st := Inside(Func([], [s]), Start(gs));
    GlobalFlat(x, Attr(true, true));
    assert st.flat == [e] by { OneEvent(Open, Start(gs)); assert [Open] + [] == [Open]; }
    var c, st1 := InUsing(START), Step(Open, st);
    assert StoreTo(x, st1) == [XStore(e.a)] by { assert [e][0] == e; }
    assert EmitExpr(Op(Var(x), Const), st1) == [];
    assert Emit(w, c, st1) == [XStore(e.a)];
    assert [w][1..] == [] && [s][1..] == [];
    assert EmitSeq([w], c, st1) == [XStore(e.a)];
    assert Run(HandleTrace(None, START), st1) == st1;
    assert Emit(s, START, st) == [XUsing([XStore(e.a)])];
    assert EmitSeq([s], START, st) == [XUsing([XStore(e.a)])];
    OnlyStore(e.a, 1, tape, pos, prog, fuel);
    assert [XUsing([XStore(e.a)])][1..] == [];
    hide EmitSeq, Emit, Start, Inside;
    assert RunSeq([XUsing([XStore(e.a)])], 0, tape, pos, prog, fuel).log == [Written(e.a, 1)];
  }

  lemma {:induction false} OnlyStore(a: Attr, depth: nat, tape: Tape, pos: nat, prog: seq<seq<Code>>, fuel: nat)
    ensures RunSeq([XStore(a)], depth, tape, pos, prog, fuel) == Discipline.Result([Written(a, depth)], pos, Done)
  {
    assert [XStore(a)][1..] == [];
  }

  lemma {:induction false} GlobalFlat(x: Name, a: Attr)
    ensures Start([Global(x, a)]).flat == [Entry(x, 0, a)]
  {
    var gs := [Global(x, a)];
    assert gs[1..] == [];
    assert GlobalsTrace(gs) == Declaring(x, a, None, START) + [];
    var t := Declaring(x, a, None, START);
    assert t + [] == t && t == [Declare(x, a, true), Bind];
    assert t[1..] == [Bind];
    OneEvent(Bind, Step(Declare(x, a, true), EMPTY));
    assert Run(t, EMPTY) == Run([Bind], Step(Declare(x, a, true), EMPTY));
  }
}
