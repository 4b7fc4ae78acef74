/** Two ways to resolve a name: the checker's stack of scopes (src/frontend/typecheck.c:190-246)
    and the code generator's flat list that is only ever appended to and searched from the end
    (src/codegen/ctx.c:60-73, 154-170).  The checker visits every statement, the code generator
    none behind a point that control cannot pass (src/codegen/stmt.c:893). */

module Scopes {
  import opened Options
  import opened Outline

  /** A declaration, known by its number. */
  datatype Entry = Entry(x: Name, id: nat, a: Attr)

  datatype Access = Read | Write(step: bool, depth: nat)

  /** What the passes meet on their way through a function.  Both meet what is `live`, and only the
      checker what is not.  A declaration is made before its initialiser and bound in the scope
      after it. */
  datatype Event = Open | Close | Declare(x: Name, a: Attr, live: bool) | Bind | Use(x: Name, access: Access, live: bool)

  /** The last scope is the innermost one.  `pending` is declared and not bound yet. */
  datatype State = State(scopes: seq<seq<Entry>>, flat: seq<Entry>, next: nat, pending: Option<Entry>)

  predicate Has(scope: seq<Entry>, x: Name) { exists i :: 0 <= i < |scope| && scope[i].x == x }

  /** A name a scope already has is not added to it again. */
  function Added(scopes: seq<seq<Entry>>, e: Entry): seq<seq<Entry>> {
    if scopes == [] || Has(scopes[|scopes| - 1], e.x) then scopes
    else scopes[..|scopes| - 1] + [scopes[|scopes| - 1] + [e]]
  }

  function Popped(scopes: seq<seq<Entry>>): seq<seq<Entry>> {
    if scopes == [] then [] else scopes[..|scopes| - 1]
  }

  /** The last entry of the name. */
  function FindIn(es: seq<Entry>, x: Name): Option<Entry> {
    if es == [] then None
    else if es[|es| - 1].x == x then Some(es[|es| - 1])
    else FindIn(es[..|es| - 1], x)
  }

  /** What the checker resolves a name to; the code generator takes `FindIn` of the flat list. */
  function Find(scopes: seq<seq<Entry>>, x: Name): Option<Entry> {
    if scopes == [] then None
    else
      var r := FindIn(scopes[|scopes| - 1], x);
      if r.Some? then r else Find(scopes[..|scopes| - 1], x)
  }

  function Step(e: Event, st: State): State {
    match e
    case Open => st.(scopes := st.scopes + [[]])
    case Close => st.(scopes := Popped(st.scopes))
    case Declare(x, a, live) =>
      var entry := Entry(x, st.next, a);
      State(st.scopes, if live then st.flat + [entry] else st.flat, st.next + 1, Some(entry))
    case Bind => if st.pending.None? then st else st.(scopes := Added(st.scopes, st.pending.value), pending := None)
    case Use(_, _, _) => st
  }

  function Run(trace: seq<Event>, st: State): State {
    if trace == [] then st else Run(trace[1..], Step(trace[0], st))
  }

  /** All entries of open scopes, outermost scope first. */
  function Flat(scopes: seq<seq<Entry>>): seq<Entry> {
    if scopes == [] then [] else Flat(scopes[..|scopes| - 1]) + scopes[|scopes| - 1]
  }

  predicate Rising(es: seq<Entry>, bound: nat) {
    && (forall i :: 0 <= i < |es| ==> es[i].id < bound)
    && (forall i, j :: 0 <= i < j < |es| ==> es[i].id < es[j].id)
  }

  /** Each number stands for one declaration. */
  predicate Alike(es: seq<Entry>, fs: seq<Entry>) {
    forall i, j :: 0 <= i < |es| && 0 <= j < |fs| && es[i].id == fs[j].id ==> es[i] == fs[j]
  }

  /** Numbers rise in the scopes and on the flat list. */
  predicate Ordered(st: State) {
    var bound := if st.pending.Some? then st.pending.value.id else st.next;
    && bound <= st.next && (st.pending.Some? ==> bound < st.next && Alike([st.pending.value], st.flat))
    && Rising(Flat(st.scopes), bound) && Rising(st.flat, st.next) && Alike(Flat(st.scopes), st.flat)
  }

  lemma {:induction false} FlatSnoc(scopes: seq<seq<Entry>>, scope: seq<Entry>)
    ensures Flat(scopes + [scope]) == Flat(scopes) + scope
  {
    assert (scopes + [scope])[..|scopes|] == scopes;
  }

  lemma {:induction false} StepFlat(e: Event, st: State)
    ensures var all, all1 := Flat(st.scopes), Flat(Step(e, st).scopes);
      if e.Bind? && st.pending.Some? then all1 == all || all1 == all + [st.pending.value] else all1 <= all
  {
    var scopes := st.scopes;
    match e
    case Open => FlatSnoc(scopes, []);
    case Bind =>
      if scopes != [] && st.pending.Some? {
        var n, entry := |scopes| - 1, st.pending.value;
        FlatSnoc(scopes[..n], scopes[n] + [entry]);
        assert Flat(scopes[..n]) + (scopes[n] + [entry]) == Flat(scopes) + [entry];
      }
    case _ =>
  }

  lemma {:induction false} StepOrdered(e: Event, st: State)
    requires Ordered(st)
    ensures Ordered(Step(e, st))
  {
    hide Flat, Added, Popped;
    StepFlat(e, st);
  }

  lemma {:induction false} RunOrdered(trace: seq<Event>, st: State)
    requires Ordered(st)
    ensures Ordered(Run(trace, st))
    decreases |trace|
  {
    hide Ordered, Step;
    if trace != [] {
      StepOrdered(trace[0], st);
      RunOrdered(trace[1..], Step(trace[0], st));
    }
  }

  lemma {:induction false} RunCat(a: seq<Event>, b: seq<Event>, st: State)
    ensures Run(a + b, st) == Run(b, Run(a, st))
    decreases |a|
  {
    hide Step;
    if a == [] {
      assert a + b == b;
    } else {
      assert (a + b)[1..] == a[1..] + b;
      RunCat(a[1..], b, Step(a[0], st));
    }
  }

  lemma {:induction false} FindInIs(es: seq<Entry>, x: Name)
    ensures var r := FindIn(es, x);
      if r.Some? then r.value.x == x && exists a :: 0 <= a < |es| && es[a] == r.value && forall b :: a < b < |es| ==> es[b].x != x
      else !Has(es, x)
    decreases |es|
  {
    if es != [] {
      var n := |es| - 1;
      if es[n].x == x {
        assert es[n] == FindIn(es, x).value;
      } else {
        FindInIs(es[..n], x);
        assert forall a :: 0 <= a < n ==> es[..n][a] == es[a];
      }
    }
  }

  /** Searching scope by scope is searching all entries from the end. */
  lemma {:induction false} FindFlat(scopes: seq<seq<Entry>>, x: Name)
    ensures Find(scopes, x) == FindIn(Flat(scopes), x)
    decreases |scopes|
  {
    if scopes != [] {
      var n := |scopes| - 1;
      FindFlat(scopes[..n], x);
      FindInCat(Flat(scopes[..n]), scopes[n], x);
    }
  }

  lemma {:induction false} FindInCat(a: seq<Entry>, b: seq<Entry>, x: Name)
    ensures FindIn(a + b, x) == if FindIn(b, x).Some? then FindIn(b, x) else FindIn(a, x)
    decreases |b|
  {
    if b == [] {
      assert a + b == a;
    } else {
      assert (a + b)[..|a + b| - 1] == a + b[..|b| - 1];
      FindInCat(a, b[..|b| - 1], x);
    }
  }

  /** The last declaration on the flat list is still in an open scope, or there is none. */
  predicate LastInScope(st: State, x: Name) {
    FindIn(st.flat, x).Some? ==> FindIn(st.flat, x).value in Flat(st.scopes)
  }

  /** The checker finds a declaration that no code is generated for. */
  predicate Hidden(st: State, x: Name) {
    Find(st.scopes, x).Some? && Find(st.scopes, x).value !in st.flat
  }

  predicate Settled(st: State, x: Name) { LastInScope(st, x) && !Hidden(st, x) }

  /** The two ways agree on a name if and only if the last declaration of that name on the flat
      list is still in an open scope and the one the checker finds is on the flat list. */
  lemma {:induction false} AgreeIff(st: State, x: Name)
    requires Ordered(st)
    ensures Find(st.scopes, x) == FindIn(st.flat, x) <==> Settled(st, x)
  {
    FindFlat(st.scopes, x);
    FindInIs(Flat(st.scopes), x);
    FindInIs(st.flat, x);
  }

  /** Every live use the checker resolves is resolved alike by the code generator. */
  predicate AllAgree(trace: seq<Event>, st: State) {
    trace == []
    || (&& (trace[0].Use? && trace[0].live && Find(st.scopes, trace[0].x).Some? ==> Find(st.scopes, trace[0].x) == FindIn(st.flat, trace[0].x))
        && AllAgree(trace[1..], Step(trace[0], st)))
  }

  predicate AllSettled(trace: seq<Event>, st: State) {
    trace == []
    || (&& (trace[0].Use? && trace[0].live && Find(st.scopes, trace[0].x).Some? ==> Settled(st, trace[0].x))
        && AllSettled(trace[1..], Step(trace[0], st)))
  }

  /** They agree throughout if and only if every name is settled where it is used. */
  lemma {:induction false} AllAgreeIff(trace: seq<Event>, st: State)
    requires Ordered(st)
    ensures AllAgree(trace, st) <==> AllSettled(trace, st)
    decreases |trace|
  {
    hide Ordered, Find, FindIn, Step, Settled;
    if trace != [] {
      StepOrdered(trace[0], st);
      AllAgreeIff(trace[1..], Step(trace[0], st));
      if trace[0].Use? { AgreeIff(st, trace[0].x); }
    }
  }

  // ---- The events of a function.

  /** Where a statement stands: in an open block, inside a loop, in how many `using` bodies. */
  datatype Ctx = Ctx(live: bool, loop: bool, depth: nat)

  function Uses(e: Expr, c: Ctx): seq<Event> {
    match e
    case Const => []
    case Var(x) => [Use(x, Read, c.live)]
    case Op(l, r) => Uses(l, c) + Uses(r, c)
    case Choice(d, a, b) => Uses(d, c) + Uses(a, c) + Uses(b, c)
    case Assign(x, a) => [Use(x, Write(false, c.depth), c.live)] + Uses(a, c)
    case IncDec(x) => [Use(x, Write(true, c.depth), c.live)]
    case Call(_) => []
    case Unseen(a) => Uses(a, c.(live := false))
  }

  function OptUses(e: Option<Expr>, c: Ctx): seq<Event> { if e.None? then [] else Uses(e.value, c) }

  /** What follows in the same block. */
  function Behind(s: Stmt, c: Ctx): Ctx { c.(live := c.live && Falls(s, c.loop)) }

  function InLoop(c: Ctx): Ctx { c.(loop := true) }

  function InUsing(c: Ctx): Ctx { c.(depth := c.depth + 1) }

  function SeqTrace(ss: seq<Stmt>, c: Ctx): seq<Event>
    decreases ss, 0
  {
    if ss == [] then [] else StmtTrace(ss[0], c) + SeqTrace(ss[1..], Behind(ss[0], c))
  }

  function Scoped(ss: seq<Stmt>, c: Ctx): seq<Event>
    decreases ss, 1
  {
    [Open] + SeqTrace(ss, c) + [Close]
  }

  /** All tests are compiled before the bodies.  The checker visits each test before its body;
      `CheckerOrder` says that this makes no difference to it. */
  function TestsTrace(arms: seq<Arm>, c: Ctx): seq<Event> {
    if arms == [] then [] else OptUses(arms[0].test, c) + TestsTrace(arms[1..], c)
  }

  function ArmsTrace(arms: seq<Arm>, c: Ctx): seq<Event>
    decreases arms, 0
  {
    if arms == [] then [] else Scoped(arms[0].body, c) + ArmsTrace(arms[1..], c)
  }

  function Declaring(x: Name, a: Attr, init: Option<Expr>, c: Ctx): seq<Event> {
    [Declare(x, a, c.live)] + OptUses(init, c) + [Bind]
  }

  function HandleTrace(h: Option<Name>, c: Ctx): seq<Event> { if h.None? then [] else Declaring(h.value, PLAIN, None, c) }

  function StmtTrace(s: Stmt, c: Ctx): seq<Event>
    decreases s, 1
  {
    match s
    case Decl(x, a, init) => Declaring(x, a, init, c)
    case Do(e) => Uses(e, c)
    case Return(v) => OptUses(v, c)
    case Break => []
    case Continue => []
    case Unsafe(body) => SeqTrace(body, c)
    case If(e, thn, els) => Uses(e, c) + Scoped(thn, c) + Scoped(els, c)
    case Cases(_, e, arms) => Uses(e, c) + TestsTrace(arms, c) + ArmsTrace(arms, c)
    case While(e, body) => Uses(e, c) + Scoped(body, InLoop(c))
    case DoWhile(body, e) => Scoped(body, InLoop(c)) + Uses(e, c)
    case For(x, iter, body) => Uses(iter, c) + [Open] + Declaring(x, PLAIN, None, c) + SeqTrace(body, InLoop(c)) + [Close]
    case CFor(init, e, u, body) =>
      [Open] + (if init.None? then [] else StmtTrace(init.value, c)) + OptUses(e, c) + SeqTrace(body, InLoop(c)) + OptUses(u, c) + [Close]
    case Using(r, h, _, body) => Uses(r, c) + [Open] + HandleTrace(h, c) + SeqTrace(body, InUsing(c)) + [Close]
  }

  function ParamsTrace(params: seq<Name>): seq<Event> {
    if params == [] then [] else Declaring(params[0], PLAIN, None, START) + ParamsTrace(params[1..])
  }

  const START := Ctx(true, false, 0)

  function FuncTrace(f: Func): seq<Event> { [Open] + ParamsTrace(f.params) + SeqTrace(f.body, START) + [Close] }

  /** Whatever names a function declares, the two ways resolve all its live names alike if and only
      if each is settled where it is used. */
  lemma {:induction false} FunctionAgreesIff(f: Func, st: State)
    requires Ordered(st)
    ensures AllAgree(FuncTrace(f), st) <==> AllSettled(FuncTrace(f), st)
  {
    AllAgreeIff(FuncTrace(f), st);
  }

  // ---- Small runs.

  lemma {:induction false} RunThree(trace: seq<Event>, st: State)
    requires |trace| >= 3
    ensures Run(trace, st) == Run(trace[3..], Step(trace[2], Step(trace[1], Step(trace[0], st))))
  {
    assert trace[1..][1..] == trace[2..] && trace[2..][1..] == trace[3..];
    assert Run(trace, st) == Run(trace[1..], Step(trace[0], st));
    assert Run(trace[1..], Step(trace[0], st)) == Run(trace[2..], Step(trace[1], Step(trace[0], st)));
  }

  /** A declaration in a new scope. */
  lemma {:induction false} DeclaredIn(st: State, x: Name, a: Attr, live: bool)
    ensures var e := Entry(x, st.next, a);
      Run([Open, Declare(x, a, live), Bind], st) == State(st.scopes + [[e]], if live then st.flat + [e] else st.flat, st.next + 1, None)
  {
    var e, inner := Entry(x, st.next, a), st.scopes + [[]];
    assert inner[|inner| - 1] == [] && inner[..|inner| - 1] == st.scopes && [] + [e] == [e];
    RunThree([Open, Declare(x, a, live), Bind], st);
  }

  lemma {:induction false} FindLatest(scopes: seq<seq<Entry>>, e: Entry)
    ensures Find(scopes + [[e]], e.x) == Some(e) && e in Flat(scopes + [[e]])
  {
    FlatSnoc(scopes, [e]);
    var all := Flat(scopes) + [e];
    assert all[|all| - 1] == e;
  }

  /** A name declared again in a block that has ended: the checker is back at the outer
      declaration and the code generator still at the inner one. */
  lemma {:induction false} ShadowedAfterBlock(st: State, x: Name, a: Attr, b: Attr)
    ensures var st1 := Run([Open, Declare(x, a, true), Bind] + [Open, Declare(x, b, true), Bind] + [Close], st);
      Find(st1.scopes, x) == Some(Entry(x, st.next, a)) && FindIn(st1.flat, x) == Some(Entry(x, st.next + 1, b))
  {
    var st1, st2 := Run([Open, Declare(x, a, true), Bind], st), Run([Open, Declare(x, b, true), Bind], Run([Open, Declare(x, a, true), Bind], st));
    DeclaredIn(st, x, a, true);
    DeclaredIn(st1, x, b, true);
    RunCat([Open, Declare(x, a, true), Bind] + [Open, Declare(x, b, true), Bind], [Close], st);
    RunCat([Open, Declare(x, a, true), Bind], [Open, Declare(x, b, true), Bind], st);
    FindLatest(st.scopes, Entry(x, st.next, a));
    assert Popped(st2.scopes) == st1.scopes;
    assert [Close][1..] == [] && Run([Close], st2) == Step(Close, st2);
    assert st2.flat[|st2.flat| - 1] == Entry(x, st.next + 1, b);
  }

  /** A declaration behind a jump in a block that has ended is known to neither. */
  lemma {:induction false} DeadInBlock(st: State, x: Name, a: Attr, b: Attr)
    ensures var st1 := Run([Open, Declare(x, a, true), Bind] + [Open, Declare(x, b, false), Bind] + [Close], st);
      Find(st1.scopes, x) == FindIn(st1.flat, x) == Some(Entry(x, st.next, a))
  {
    var st1, st2 := Run([Open, Declare(x, a, true), Bind], st), Run([Open, Declare(x, b, false), Bind], Run([Open, Declare(x, a, true), Bind], st));
    DeclaredIn(st, x, a, true);
    DeclaredIn(st1, x, b, false);
    RunCat([Open, Declare(x, a, true), Bind] + [Open, Declare(x, b, false), Bind], [Close], st);
    RunCat([Open, Declare(x, a, true), Bind], [Open, Declare(x, b, false), Bind], st);
    FindLatest(st.scopes, Entry(x, st.next, a));
    assert Popped(st2.scopes) == st1.scopes;
    assert [Close][1..] == [] && Run([Close], st2) == Step(Close, st2);
    assert st2.flat[|st2.flat| - 1] == Entry(x, st.next, a);
  }

  /** The checker's scopes as it holds them. */
  class ScopeStack {
    var scopes: seq<seq<Entry>>

    constructor ()
      ensures scopes == []
    {
      scopes := [];
    }

    method Push()
      modifies this
      ensures scopes == old(scopes) + [[]]
    {
      scopes := scopes + [[]];
    }

    method Pop()
      modifies this
      ensures scopes == Popped(old(scopes))
    {
      if |scopes| > 0 {
        scopes := scopes[..|scopes| - 1];
      }
    }

    method AddVar(e: Entry) returns (added: bool)
      modifies this
      ensures scopes == Added(old(scopes), e)
      ensures added <==> old(scopes) != [] && !Has(old(scopes)[|old(scopes)| - 1], e.x)
    {
      if |scopes| == 0 {
        return false;
      }
      var scope := scopes[|scopes| - 1];
      for i := 0 to |scope|
        invariant forall k :: 0 <= k < i ==> scope[k].x != e.x
      {
        if scope[i].x == e.x {
          return false;
        }
      }
      scopes := scopes[..|scopes| - 1] + [scope + [e]];
      added := true;
    }

    method LookupVar(x: Name) returns (found: Option<Entry>)
      ensures found == Find(scopes, x)
    {
      var s := |scopes|;
      assert scopes[..s] == scopes;
      while s > 0
        invariant 0 <= s <= |scopes|
        invariant Find(scopes, x) == Find(scopes[..s], x)
      {
        s := s - 1;
        var scope := scopes[s];
        assert scopes[..s + 1][..s] == scopes[..s];
        var i := |scope|;
        assert scope[..i] == scope;
        while i > 0
          invariant 0 <= i <= |scope|
          invariant FindIn(scope, x) == FindIn(scope[..i], x)
        {
          i := i - 1;
          assert scope[..i + 1][..i] == scope[..i];
          if scope[i].x == x {
            return Some(scope[i]);
          }
        }
      }
      found := None;
    }
  }

  /** The code generator's variables as it holds them. */
  class VarList {
    var vars: seq<Entry>

    method VarPush(e: Entry)
      modifies this
      ensures vars == old(vars) + [e]
    {
      vars := vars + [e];
    }

    method VarLookupIndex(x: Name) returns (index: Option<nat>)
      ensures index.Some? ==> index.value < |vars| && vars[index.value].x == x && forall k :: index.value < k < |vars| ==> vars[k].x != x
      ensures FindIn(vars, x) == if index.Some? then Some(vars[index.value]) else None
    {
      var i := |vars|;
      assert vars[..i] == vars;
      while i > 0
        invariant 0 <= i <= |vars|
        invariant FindIn(vars, x) == FindIn(vars[..i], x)
        invariant forall k :: i <= k < |vars| ==> vars[k].x != x
      {
        i := i - 1;
        assert vars[..i + 1][..i] == vars[..i];
        if vars[i].x == x {
          return Some(i);
        }
      }
      index := None;
    }
  }
}
