/** When no name is declared twice: the two ways to resolve names then differ only in the update of
    a C-style loop, which shares a scope with a body that may declare what is never compiled. */

module Agreement {
  import opened Options
  import opened Outline
  import opened Scopes

  /** All names declared, compiled or not. */
  function Declared(trace: seq<Event>): seq<Name> {
    if trace == [] then []
    else (if trace[0].Declare? then [trace[0].x] else []) + Declared(trace[1..])
  }

  predicate NoRepeats(names: seq<Name>) { forall i, j :: 0 <= i < j < |names| ==> names[i] != names[j] }

  function NamesOf(es: seq<Entry>): seq<Name> { seq(|es|, i requires 0 <= i < |es| => es[i].x) }

  // ---- What a walk does to the scopes.

  /** Between statements. */
  predicate Ready(st: State) { Ordered(st) && st.pending.None? && st.scopes != [] }

  /** Nothing declared on the way is already found. */
  predicate Unknown(names: seq<Name>, st: State) {
    NoRepeats(names) && forall i :: 0 <= i < |names| ==> Find(st.scopes, names[i]).None?
  }

  /** From `st` to `st1` the innermost scope has got some of `names`, and of those exactly `dead` are
      found without being compiled. */
  ghost predicate Walked(st: State, st1: State, names: seq<Name>, dead: set<Name>) {
    && |st1.scopes| == |st.scopes| > 0 && st1.pending.None? && st1.scopes[..|st.scopes| - 1] == st.scopes[..|st.scopes| - 1]
    && st.next <= st1.next && st.flat <= st1.flat && (forall i :: |st.flat| <= i < |st1.flat| ==> st1.flat[i].id >= st.next)
    && (forall x :: x !in names ==> Find(st1.scopes, x) == Find(st.scopes, x))
    && (forall x :: Hidden(st1, x) <==> Hidden(st, x) || x in dead)
  }

  ghost predicate Walks(trace: seq<Event>, dead: set<Name>) {
    forall st {:trigger Run(trace, st)} :: Ready(st) && Unknown(Declared(trace), st) ==> Walked(st, Run(trace, st), Declared(trace), dead)
  }

  lemma {:induction false} DeclaredCat(a: seq<Event>, b: seq<Event>)
    ensures Declared(a + b) == Declared(a) + Declared(b)
    decreases |a|
  {
    if a == [] {
      assert a + b == b;
    } else {
      assert (a + b)[1..] == a[1..] + b;
      DeclaredCat(a[1..], b);
    }
  }

  lemma {:induction false} UnknownCat(a: seq<Name>, b: seq<Name>, st: State, st1: State, dead: set<Name>)
    requires Unknown(a + b, st)
    ensures Unknown(a, st) && (Walked(st, st1, a, dead) ==> Unknown(b, st1))
  {
    hide Find, Hidden;
    var all := a + b;
    forall i | 0 <= i < |a| ensures Find(st.scopes, a[i]).None? { assert all[i] == a[i]; }
    forall i, j | 0 <= i < j < |a| ensures a[i] != a[j] { assert all[i] != all[j]; }
    forall i, j | 0 <= i < j < |b| ensures b[i] != b[j] { assert all[|a| + i] != all[|a| + j]; }
    forall j | 0 <= j < |b| ensures b[j] !in a && Find(st.scopes, b[j]).None? {
      assert all[|a| + j] == b[j];
      forall i | 0 <= i < |a| ensures a[i] != b[j] { assert all[i] != all[|a| + j]; }
    }
  }

  lemma {:induction false} WalkedCat(st: State, st1: State, st2: State, a: seq<Name>, b: seq<Name>, d: set<Name>, d1: set<Name>)
    requires Walked(st, st1, a, d) && Walked(st1, st2, b, d1)
    ensures Walked(st, st2, a + b, d + d1)
  {
    hide Find, Hidden;
    forall i | |st.flat| <= i < |st2.flat| ensures st2.flat[i].id >= st.next {
      if i < |st1.flat| { assert st2.flat[i] == st1.flat[i]; }
    }
  }

  lemma {:induction false} WalkedReady(st: State, trace: seq<Event>, names: seq<Name>, dead: set<Name>)
    requires Ready(st) && Walked(st, Run(trace, st), names, dead)
    ensures Ready(Run(trace, st))
  {
    hide Ordered;
    RunOrdered(trace, st);
  }

  lemma {:induction false} WalksCat(a: seq<Event>, b: seq<Event>, d: set<Name>, d1: set<Name>)
    requires Walks(a, d) && Walks(b, d1)
    ensures Walks(a + b, d + d1)
  {
    hide Walked, Ready, Unknown;
    forall st | Ready(st) && Unknown(Declared(a + b), st) ensures Walked(st, Run(a + b, st), Declared(a + b), d + d1) {
      DeclaredCat(a, b);
      RunCat(a, b, st);
      var st1 := Run(a, st);
      UnknownCat(Declared(a), Declared(b), st, st1, d);
      WalkedReady(st, a, Declared(a), d);
      WalkedCat(st, st1, Run(b, st1), Declared(a), Declared(b), d, d1);
    }
  }

  predicate OnlyUses(trace: seq<Event>) { forall i :: 0 <= i < |trace| ==> trace[i].Use? }

  lemma {:induction false} UsesRun(trace: seq<Event>, st: State)
    requires OnlyUses(trace)
    ensures Run(trace, st) == st && Declared(trace) == []
    decreases |trace|
  {
    if trace != [] {
      UsesRun(trace[1..], st);
    }
  }

  lemma {:induction false} UsesWalk(trace: seq<Event>)
    requires OnlyUses(trace)
    ensures Walks(trace, {})
  {
    hide Find, Hidden, Ordered;
    forall st | Ready(st) ensures Walked(st, Run(trace, st), Declared(trace), {}) { UsesRun(trace, st); }
  }

  lemma {:induction false} UsesOnly(e: Expr, c: Ctx)
    ensures OnlyUses(Uses(e, c))
    decreases e
  {
    match e
    case Op(l, r) => UsesOnly(l, c); UsesOnly(r, c);
    case Choice(d, a, b) => UsesOnly(d, c); UsesOnly(a, c); UsesOnly(b, c);
    case Assign(_, a) => UsesOnly(a, c);
    case Unseen(a) => UsesOnly(a, c.(live := false));
    case _ =>
  }

  lemma {:induction false} OptOnly(e: Option<Expr>, c: Ctx)
    ensures OnlyUses(OptUses(e, c))
  {
    if e.Some? { UsesOnly(e.value, c); }
  }

  lemma {:induction false} TestsOnly(arms: seq<Arm>, c: Ctx)
    ensures OnlyUses(TestsTrace(arms, c))
    decreases |arms|
  {
    if arms != [] {
      OptOnly(arms[0].test, c);
      TestsOnly(arms[1..], c);
    }
  }

  /** A block leaves the scopes as they were. */
  lemma {:induction false} ScopedWalks(trace: seq<Event>, dead: set<Name>)
    requires Walks(trace, dead)
    ensures Walks([Open] + trace + [Close], {})
  {
    hide Walked, Ready, Unknown;
    var all := [Open] + trace + [Close];
    DeclaredCat([Open] + trace, [Close]);
    DeclaredCat([Open], trace);
    assert Declared([Open]) == [] && Declared([Close]) == [] by { assert [Event.Open][1..] == [] && [Event.Close][1..] == []; }
    assert Declared(all) == Declared(trace);
    forall st | Ready(st) && Unknown(Declared(all), st) ensures Walked(st, Run(all, st), Declared(all), {}) {
      var st0 := Step(Open, st);
      RunCat([Open] + trace, [Close], st);
      RunCat([Open], trace, st);
      OneEvent(Open, st);
      OneEvent(Close, Run(trace, st0));
      Opened(st, Declared(trace));
      WalkedReady(st0, trace, Declared(trace), dead);
      Closed(st, Run(trace, st0), Declared(trace), dead);
    }
  }

  lemma {:induction false} OneEvent(e: Event, st: State)
    ensures Run([e], st) == Step(e, st)
  {
    assert [e][1..] == [];
  }

  lemma {:induction false} Opened(st: State, names: seq<Name>)
    requires Ready(st) && Unknown(names, st)
    ensures Ready(Step(Open, st)) && Unknown(names, Step(Open, st)) && forall x :: Find(Step(Open, st).scopes, x) == Find(st.scopes, x)
  {
    hide Ordered;
    StepOrdered(Open, st);
    var scopes := st.scopes + [[]];
    assert scopes[..|scopes| - 1] == st.scopes && scopes[|scopes| - 1] == [];
    forall x ensures Find(scopes, x) == Find(st.scopes, x) { assert FindIn([], x).None?; }
  }

  lemma {:induction false} Closed(st: State, st1: State, names: seq<Name>, dead: set<Name>)
    requires Ready(st) && Walked(Step(Open, st), st1, names, dead)
    ensures Walked(st, Step(Close, st1), names, {})
  {
    var st2 := Step(Close, st1);
    assert st2.scopes == st.scopes by { assert (st.scopes + [[]])[..|st.scopes|] == st.scopes; }
    hide Flat, Find;
    forall x ensures Hidden(st2, x) <==> Hidden(st, x) { FlatGrew(st, st2, x); }
  }

  /** What was found without being compiled stays so. */
  lemma {:induction false} FlatGrew(st: State, st1: State, x: Name)
    requires Ready(st) && st.flat <= st1.flat && (forall i :: |st.flat| <= i < |st1.flat| ==> st1.flat[i].id >= st.next)
    ensures Find(st1.scopes, x) == Find(st.scopes, x) ==> (Hidden(st1, x) <==> Hidden(st, x))
  {
    var r := Find(st.scopes, x);
    if r.Some? {
      FindFlat(st.scopes, x);
      FindInIs(Flat(st.scopes), x);
      assert r.value in Flat(st.scopes) && r.value.id < st.next;
      if r.value in st1.flat {
        var i :| 0 <= i < |st1.flat| && st1.flat[i] == r.value;
        assert i < |st.flat| && st.flat[i] == r.value;
      }
    }
  }

  lemma {:induction false} DeclaringWalks(x: Name, a: Attr, init: Option<Expr>, c: Ctx)
    ensures Walks(Declaring(x, a, init, c), if c.live then {} else {x})
    ensures Declared(Declaring(x, a, init, c)) == [x]
  {
    hide Walked, Ready, Unknown;
    var first, uses := [Declare(x, a, c.live)], OptUses(init, c);
    var dead := if c.live then {} else {x};
    OptOnly(init, c);
    DeclaredCat(first + uses, [Bind]);
    DeclaredCat(first, uses);
    assert Declared(first) == [x] && Declared([Bind]) == [] by { assert first[1..] == [] && [Event.Bind][1..] == []; }
    forall st | Ready(st) && Unknown([x], st) ensures Walked(st, Run(first + uses + [Bind], st), [x], dead) {
      RunCat(first + uses, [Bind], st);
      RunCat(first, uses, st);
      OneEvent(first[0], st);
      UsesRun(uses, Step(first[0], st));
      OneEvent(Bind, Step(first[0], st));
      DeclaredOne(x, a, c.live, st);
    }
    UsesRun(uses, State([], [], 0, None));
  }

  lemma {:induction false} DeclaredOne(x: Name, a: Attr, live: bool, st: State)
    requires Ready(st) && Unknown([x], st)
    ensures Walked(st, Step(Bind, Step(Declare(x, a, live), st)), [x], if live then {} else {x})
  {
    var n, e := |st.scopes| - 1, Entry(x, st.next, a);
    var st1 := Step(Bind, Step(Declare(x, a, live), st));
    BoundScopes(x, e, st);
    hide Find, FindIn, Flat, Added, Ordered;
    assert e in st1.flat <==> live by {
      if live { assert st1.flat[|st.flat|] == e; } else { NotYet(e, st); }
    }
    assert Find(st.scopes, x).None? by { assert [x][0] == x; }
    assert st1.scopes == Added(st.scopes, e) && |st1.scopes| == |st.scopes| && st1.scopes[..n] == st.scopes[..n];
    forall y ensures Hidden(st1, y) <==> Hidden(st, y) || (!live && y == x) {
      if y != x { FlatGrew(st, st1, y); }
    }
  }

  lemma {:induction false} NotYet(e: Entry, st: State)
    requires Ready(st) && e.id == st.next
    ensures e !in st.flat
  {
    hide Flat;
  }

  lemma {:induction false} BoundScopes(x: Name, e: Entry, st: State)
    requires Ready(st) && Unknown([x], st) && e.x == x
    ensures var n, scopes := |st.scopes| - 1, Added(st.scopes, e);
      && scopes == st.scopes[..n] + [st.scopes[n] + [e]]
      && forall y :: Find(scopes, y) == if y == x then Some(e) else Find(st.scopes, y)
  {
    hide Ordered;
    var n := |st.scopes| - 1;
    assert Find(st.scopes, [x][0]).None?;
    FindInIs(st.scopes[n], x);
    var scopes := st.scopes[..n] + [st.scopes[n] + [e]];
    forall y ensures Find(scopes, y) == if y == x then Some(e) else Find(st.scopes, y) {
      assert (st.scopes[n] + [e])[..|st.scopes[n]|] == st.scopes[n] && scopes[..n] == st.scopes[..n];
    }
  }

  /** Names the statements declare in the scope they stand in, in blocks that are not open. */
  function SeqDead(ss: seq<Stmt>, live: bool, loop: bool): set<Name>
    decreases ss, 0
  {
    if ss == [] then {} else Dead(ss[0], live, loop) + SeqDead(ss[1..], live && Falls(ss[0], loop), loop)
  }

  function Dead(s: Stmt, live: bool, loop: bool): set<Name>
    decreases s, 1
  {
    match s
    case Decl(x, _, _) => if live then {} else {x}
    case Unsafe(body) => SeqDead(body, live, loop)
    case _ => {}
  }

  lemma {:induction false} SeqWalks(ss: seq<Stmt>, c: Ctx)
    ensures Walks(SeqTrace(ss, c), SeqDead(ss, c.live, c.loop))
    decreases ss, 0
  {
    hide Walks, StmtTrace, Dead, Falls;
    if ss == [] {
      UsesWalk([]);
    } else {
      StmtWalks(ss[0], c);
      SeqWalks(ss[1..], Behind(ss[0], c));
      WalksCat(StmtTrace(ss[0], c), SeqTrace(ss[1..], Behind(ss[0], c)), Dead(ss[0], c.live, c.loop), SeqDead(ss[1..], c.live && Falls(ss[0], c.loop), c.loop));
    }
  }

  lemma {:induction false} BlockWalks(ss: seq<Stmt>, c: Ctx)
    ensures Walks(Scoped(ss, c), {})
    decreases ss, 1
  {
    hide Walks;
    SeqWalks(ss, c);
    ScopedWalks(SeqTrace(ss, c), SeqDead(ss, c.live, c.loop));
  }

  lemma {:induction false} ArmsWalk(arms: seq<Arm>, c: Ctx)
    ensures Walks(ArmsTrace(arms, c), {})
    decreases arms, 0
  {
    hide Walks, Scoped;
    if arms == [] {
      UsesWalk([]);
    } else {
      BlockWalks(arms[0].body, c);
      ArmsWalk(arms[1..], c);
      NoDead(Scoped(arms[0].body, c), ArmsTrace(arms[1..], c));
    }
  }

  lemma {:induction false} NoDead(a: seq<Event>, b: seq<Event>)
    requires Walks(a, {}) && Walks(b, {})
    ensures Walks(a + b, {})
  {
    hide Walks;
    var none: set<Name> := {};
    WalksCat(a, b, none, none);
    assert none + none == none;
  }

  lemma {:induction false} ExprWalks(e: Expr, c: Ctx)
    ensures Walks(Uses(e, c), {})
  {
    hide Walks;
    UsesOnly(e, c);
    UsesWalk(Uses(e, c));
  }

  lemma {:induction false} OptWalks(e: Option<Expr>, c: Ctx)
    ensures Walks(OptUses(e, c), {})
  {
    hide Walks;
    OptOnly(e, c);
    UsesWalk(OptUses(e, c));
  }

  lemma {:induction false} StmtWalks(s: Stmt, c: Ctx)
    ensures Walks(StmtTrace(s, c), Dead(s, c.live, c.loop))
    decreases s, 2
  {
    hide Walks, Scoped, SeqTrace, Uses, ArmsTrace, TestsTrace, OptUses, Declaring, SeqDead;
    match s
    case Decl(x, a, init) => DeclaringWalks(x, a, init, c);
    case Do(e) => ExprWalks(e, c);
    case Return(v) => OptWalks(v, c);
    case Break => UsesWalk([]);
    case Continue => UsesWalk([]);
    case Unsafe(body) => SeqWalks(body, c);
    case If(e, thn, els) =>
      ExprWalks(e, c);
      BlockWalks(thn, c);
      BlockWalks(els, c);
      NoDead(Uses(e, c), Scoped(thn, c));
      NoDead(Uses(e, c) + Scoped(thn, c), Scoped(els, c));
    case Cases(_, e, arms) =>
      ExprWalks(e, c);
      TestsOnly(arms, c);
      UsesWalk(TestsTrace(arms, c));
      ArmsWalk(arms, c);
      NoDead(Uses(e, c), TestsTrace(arms, c));
      NoDead(Uses(e, c) + TestsTrace(arms, c), ArmsTrace(arms, c));
    case While(e, body) =>
      ExprWalks(e, c);
      BlockWalks(body, InLoop(c));
      NoDead(Uses(e, c), Scoped(body, InLoop(c)));
    case DoWhile(body, e) =>
      ExprWalks(e, c);
      BlockWalks(body, InLoop(c));
      NoDead(Scoped(body, InLoop(c)), Uses(e, c));
    case For(_, _, _) => ForWalks(s, c);
    case CFor(_, _, _, _) => CForWalks(s, c);
    case Using(_, _, _, _) => UsingWalks(s, c);
  }

  /** A declaration and statements in a scope of their own, behind an expression. */
  lemma {:induction false} InnerWalks(e: seq<Event>, decl: seq<Event>, d: set<Name>, body: seq<Stmt>, c: Ctx)
    requires Walks(e, {}) && Walks(decl, d)
    ensures Walks(e + [Open] + decl + SeqTrace(body, c) + [Close], {})
    decreases body, 1
  {
    hide Walks;
    SeqWalks(body, c);
    var ss, dead := SeqTrace(body, c), SeqDead(body, c.live, c.loop);
    WalksCat(decl, ss, d, dead);
    ScopedWalks(decl + ss, d + dead);
    NoDead(e, [Open] + (decl + ss) + [Close]);
    assert e + [Open] + decl + ss + [Close] == e + ([Open] + (decl + ss) + [Close]);
  }

  lemma {:induction false} ForWalks(s: Stmt, c: Ctx)
    requires s.For?
    ensures Walks(StmtTrace(s, c), {})
    decreases s, 0
  {
    hide Walks, SeqTrace, Uses, Declaring;
    ExprWalks(s.iter, c);
    DeclaringWalks(s.x, PLAIN, None, c);
    InnerWalks(Uses(s.iter, c), Declaring(s.x, PLAIN, None, c), if c.live then {} else {s.x}, s.body, InLoop(c));
  }

  lemma {:induction false} UsingWalks(s: Stmt, c: Ctx)
    requires s.Using?
    ensures Walks(StmtTrace(s, c), {})
    decreases s, 0
  {
    hide Walks, SeqTrace, Uses, Declaring;
    ExprWalks(s.resource, c);
    if s.handle.Some? {
      DeclaringWalks(s.handle.value, PLAIN, None, c);
      InnerWalks(Uses(s.resource, c), HandleTrace(s.handle, c), if c.live then {} else {s.handle.value}, s.body, InUsing(c));
    } else {
      UsesWalk([]);
      InnerWalks(Uses(s.resource, c), HandleTrace(s.handle, c), {}, s.body, InUsing(c));
    }
  }

  function FirstTrace(s: Stmt, c: Ctx): seq<Event>
    requires s.CFor?
  {
    if s.first.None? then [] else StmtTrace(s.first.value, c)
  }

  function FirstDead(s: Stmt, c: Ctx): set<Name>
    requires s.CFor?
  {
    if s.first.None? then {} else Dead(s.first.value, c.live, c.loop)
  }

  lemma {:induction false} FirstWalks(s: Stmt, c: Ctx)
    requires s.CFor?
    ensures Walks(FirstTrace(s, c), FirstDead(s, c))
    decreases s, 0
  {
    if s.first.None? { UsesWalk([]); } else { StmtWalks(s.first.value, c); }
  }

  lemma {:induction false} CForWalks(s: Stmt, c: Ctx)
    requires s.CFor?
    ensures Walks(StmtTrace(s, c), {})
    decreases s, 1
  {
    hide Walks, SeqTrace, OptUses, SeqDead;
    var first, d := FirstTrace(s, c), FirstDead(s, c);
    FirstWalks(s, c);
    OptWalks(s.cond, c);
    OptWalks(s.update, c);
    SeqWalks(s.body, InLoop(c));
    hide StmtTrace, Dead;
    var dead := SeqDead(s.body, c.live, true);
    WalksCat(first, OptUses(s.cond, c), d, {});
    WalksCat(first + OptUses(s.cond, c), SeqTrace(s.body, InLoop(c)), d + {}, dead);
    WalksCat(first + OptUses(s.cond, c) + SeqTrace(s.body, InLoop(c)), OptUses(s.update, c), d + {} + dead, {});
    var inner := first + OptUses(s.cond, c) + SeqTrace(s.body, InLoop(c)) + OptUses(s.update, c);
    ScopedWalks(inner, d + {} + dead + {});
    CForTrace(s, c);
    assert [Open] + first + OptUses(s.cond, c) + SeqTrace(s.body, InLoop(c)) + OptUses(s.update, c) + [Close] == [Open] + inner + [Close];
  }

  lemma {:induction false} CForTrace(s: Stmt, c: Ctx)
    requires s.CFor?
    ensures StmtTrace(s, c) == [Open] + FirstTrace(s, c) + OptUses(s.cond, c) + SeqTrace(s.body, InLoop(c)) + OptUses(s.update, c) + [Close]
  {
    hide SeqTrace, OptUses;
  }

  // ---- Where a live use can meet what is not compiled.

  predicate AllFound(trace: seq<Event>, st: State) {
    trace == [] || ((trace[0].Use? && trace[0].live ==> !Hidden(st, trace[0].x)) && AllFound(trace[1..], Step(trace[0], st)))
  }

  ghost predicate NoneHidden(st: State) { forall x :: !Hidden(st, x) }

  /** From where nothing is hidden, no live use meets what is if and only if `ok`. */
  ghost predicate Finds(trace: seq<Event>, ok: bool) {
    forall st {:trigger AllFound(trace, st)} :: Ready(st) && Unknown(Declared(trace), st) && NoneHidden(st) ==> (AllFound(trace, st) <==> ok)
  }

  lemma {:induction false} FoundCat(a: seq<Event>, b: seq<Event>, st: State)
    ensures AllFound(a + b, st) <==> AllFound(a, st) && AllFound(b, Run(a, st))
    decreases |a|
  {
    hide Step, Hidden;
    if a == [] {
      assert a + b == b;
    } else {
      assert (a + b)[1..] == a[1..] + b && (a + b)[0] == a[0];
      FoundCat(a[1..], b, Step(a[0], st));
    }
  }

  lemma {:induction false} FindsCat(a: seq<Event>, b: seq<Event>, p: bool, q: bool)
    requires Walks(a, {}) && Finds(a, p) && Finds(b, q)
    ensures Finds(a + b, p && q)
  {
    hide Walked, Ready, Unknown, Hidden;
    forall st | Ready(st) && Unknown(Declared(a + b), st) && NoneHidden(st) ensures AllFound(a + b, st) <==> p && q {
      DeclaredCat(a, b);
      FoundCat(a, b, st);
      UnknownCat(Declared(a), Declared(b), st, Run(a, st), {});
      WalkedReady(st, a, Declared(a), {});
      StillNone(st, Run(a, st), Declared(a));
    }
  }

  lemma {:induction false} StillNone(st: State, st1: State, names: seq<Name>)
    requires NoneHidden(st) && Walked(st, st1, names, {})
    ensures NoneHidden(st1)
  {
    hide Hidden;
  }

  /** Nothing in it is compiled. */
  predicate Quiet(trace: seq<Event>) {
    forall i :: 0 <= i < |trace| && (trace[i].Use? || trace[i].Declare?) ==> !trace[i].live
  }

  lemma {:induction false} QuietFound(trace: seq<Event>, st: State)
    requires forall i :: 0 <= i < |trace| && trace[i].Use? ==> !trace[i].live
    ensures AllFound(trace, st)
    decreases |trace|
  {
    hide Step, Hidden;
    if trace != [] {
      QuietFound(trace[1..], Step(trace[0], st));
    }
  }

  lemma {:induction false} QuietBehind(a: seq<Event>, b: seq<Event>, p: bool)
    requires Finds(a, p) && Quiet(b)
    ensures Finds(a + b, p)
  {
    hide Ready, Unknown, NoneHidden;
    forall st | Ready(st) && Unknown(Declared(a + b), st) && NoneHidden(st) ensures AllFound(a + b, st) <==> p {
      DeclaredCat(a, b);
      FoundCat(a, b, st);
      QuietFound(b, Run(a, st));
      UnknownCat(Declared(a), Declared(b), st, st, {});
    }
  }

  lemma {:induction false} QuietFinds(trace: seq<Event>)
    requires Quiet(trace)
    ensures Finds(trace, true)
  {
    forall st ensures AllFound(trace, st) { QuietFound(trace, st); }
  }

  /** Names an expression's code reads or writes. */
  function Seen(e: Expr): set<Name> {
    match e
    case Const => {}
    case Var(x) => {x}
    case Op(l, r) => Seen(l) + Seen(r)
    case Choice(d, a, b) => Seen(d) + Seen(a) + Seen(b)
    case Assign(x, a) => {x} + Seen(a)
    case IncDec(x) => {x}
    case Call(_) => {}
    case Unseen(_) => {}
  }

  function OptSeen(e: Option<Expr>): set<Name> { if e.None? then {} else Seen(e.value) }

  lemma {:induction false} SeenFound(e: Expr, c: Ctx, st: State, dead: set<Name>)
    requires c.live && forall x :: Hidden(st, x) <==> x in dead
    ensures AllFound(Uses(e, c), st) <==> Seen(e) !! dead
    decreases e
  {
    hide Hidden;
    match e
    case Const =>
    case Var(x) => OneFound(Use(x, Read, true), st);
    case Op(l, r) =>
      SeenFound(l, c, st, dead);
      SeenFound(r, c, st, dead);
      UsesFoundCat(l, Uses(r, c), c, st);
    case Choice(d, a, b) =>
      SeenFound(d, c, st, dead);
      SeenFound(a, c, st, dead);
      SeenFound(b, c, st, dead);
      UsesOnly(d, c);
      UsesOnly(a, c);
      UsesRun(Uses(d, c) + Uses(a, c), st);
      FoundCat(Uses(d, c) + Uses(a, c), Uses(b, c), st);
      UsesFoundCat(d, Uses(a, c), c, st);
    case Assign(x, a) =>
      var w := Use(x, Write(false, c.depth), true);
      SeenFound(a, c, st, dead);
      OneFound(w, st);
      FoundCat([w], Uses(a, c), st);
      UsesRun([w], st);
    case IncDec(x) => OneFound(Use(x, Write(true, c.depth), true), st);
    case Call(_) =>
    case Unseen(a) =>
      UnseenQuiet(a, c.(live := false));
      QuietFound(Uses(a, c.(live := false)), st);
  }

  lemma {:induction false} OneFound(e: Event, st: State)
    requires e.Use? && e.live
    ensures AllFound([e], st) <==> !Hidden(st, e.x)
  {
    assert [e][1..] == [];
  }

  lemma {:induction false} UsesFoundCat(e: Expr, rest: seq<Event>, c: Ctx, st: State)
    ensures AllFound(Uses(e, c) + rest, st) <==> AllFound(Uses(e, c), st) && AllFound(rest, st)
  {
    UsesOnly(e, c);
    UsesRun(Uses(e, c), st);
    FoundCat(Uses(e, c), rest, st);
  }

  lemma {:induction false} UnseenQuiet(e: Expr, c: Ctx)
    requires !c.live
    ensures Quiet(Uses(e, c))
    decreases e
  {
    match e
    case Op(l, r) => UnseenQuiet(l, c); UnseenQuiet(r, c);
    case Choice(d, a, b) => UnseenQuiet(d, c); UnseenQuiet(a, c); UnseenQuiet(b, c);
    case Assign(_, a) => UnseenQuiet(a, c);
    case Unseen(a) => UnseenQuiet(a, c);
    case _ =>
  }

  lemma {:induction false} OptQuiet(e: Option<Expr>, c: Ctx)
    requires !c.live
    ensures Quiet(OptUses(e, c))
  {
    if e.Some? { UnseenQuiet(e.value, c); }
  }

  lemma {:induction false} TestsQuiet(arms: seq<Arm>, c: Ctx)
    requires !c.live
    ensures Quiet(TestsTrace(arms, c))
    decreases |arms|
  {
    if arms != [] {
      OptQuiet(arms[0].test, c);
      TestsQuiet(arms[1..], c);
    }
  }

  lemma {:induction false} SeqQuiet(ss: seq<Stmt>, c: Ctx)
    requires !c.live
    ensures Quiet(SeqTrace(ss, c))
    decreases ss, 0
  {
    hide StmtTrace, Falls;
    if ss != [] {
      StmtQuiet(ss[0], c);
      SeqQuiet(ss[1..], Behind(ss[0], c));
    }
  }

  lemma {:induction false} ArmsQuiet(arms: seq<Arm>, c: Ctx)
    requires !c.live
    ensures Quiet(ArmsTrace(arms, c))
    decreases arms, 0
  {
    hide Scoped;
    if arms != [] {
      ScopedQuiet(arms[0].body, c);
      ArmsQuiet(arms[1..], c);
    }
  }

  lemma {:induction false} QuietCat(a: seq<Event>, b: seq<Event>)
    requires Quiet(a) && Quiet(b)
    ensures Quiet(a + b)
  {
  }

  /** Scopes opened and closed around it make no difference. */
  lemma {:induction false} QuietScoped(a: seq<Event>, b: seq<Event>)
    requires Quiet(a) && Quiet(b)
    ensures Quiet(a + [Open] + b + [Close])
  {
  }

  lemma {:induction false} StmtQuiet(s: Stmt, c: Ctx)
    requires !c.live
    ensures Quiet(StmtTrace(s, c))
    decreases s, 1
  {
    hide SeqTrace, ArmsTrace, TestsTrace, Uses, OptUses, Declaring, HandleTrace, Quiet;
    match s
    case Decl(x, a, init) => DeclaringQuiet(x, a, init, c);
    case Do(e) => UnseenQuiet(e, c);
    case Return(v) => OptQuiet(v, c);
    case Break => NothingQuiet();
    case Continue => NothingQuiet();
    case Unsafe(body) => SeqQuiet(body, c);
    case If(e, thn, els) =>
      UnseenQuiet(e, c);
      ScopedQuiet(thn, c);
      ScopedQuiet(els, c);
      QuietCat(Uses(e, c), Scoped(thn, c));
      QuietCat(Uses(e, c) + Scoped(thn, c), Scoped(els, c));
    case Cases(_, e, arms) =>
      UnseenQuiet(e, c);
      TestsQuiet(arms, c);
      ArmsQuiet(arms, c);
      QuietCat(Uses(e, c), TestsTrace(arms, c));
      QuietCat(Uses(e, c) + TestsTrace(arms, c), ArmsTrace(arms, c));
    case While(e, body) =>
      UnseenQuiet(e, c);
      ScopedQuiet(body, InLoop(c));
      QuietCat(Uses(e, c), Scoped(body, InLoop(c)));
    case DoWhile(body, e) =>
      UnseenQuiet(e, c);
      ScopedQuiet(body, InLoop(c));
      QuietCat(Scoped(body, InLoop(c)), Uses(e, c));
    case For(x, iter, body) =>
      var decl, inner := Declaring(x, PLAIN, None, c), SeqTrace(body, InLoop(c));
      UnseenQuiet(iter, c);
      DeclaringQuiet(x, PLAIN, None, c);
      SeqQuiet(body, InLoop(c));
      QuietCat(decl, inner);
      QuietScoped(Uses(iter, c), decl + inner);
      assert Uses(iter, c) + [Open] + decl + inner + [Close] == Uses(iter, c) + [Open] + (decl + inner) + [Close];
    case CFor(first, e, u, body) =>
      var f, inner := FirstTrace(s, c), SeqTrace(body, InLoop(c));
      if first.Some? { StmtQuiet(first.value, c); } else { NothingQuiet(); }
      OptQuiet(e, c);
      OptQuiet(u, c);
      SeqQuiet(body, InLoop(c));
      QuietCat(f, OptUses(e, c));
      QuietCat(f + OptUses(e, c), inner);
      QuietCat(f + OptUses(e, c) + inner, OptUses(u, c));
      NothingQuiet();
      QuietScoped([], f + OptUses(e, c) + inner + OptUses(u, c));
      assert [Open] + f + OptUses(e, c) + inner + OptUses(u, c) + [Close] == [] + [Open] + (f + OptUses(e, c) + inner + OptUses(u, c)) + [Close];
    case Using(r, h, _, body) =>
      var decl, inner := HandleTrace(h, c), SeqTrace(body, InUsing(c));
      UnseenQuiet(r, c);
      HandleQuiet(h, c);
      SeqQuiet(body, InUsing(c));
      QuietCat(decl, inner);
      QuietScoped(Uses(r, c), decl + inner);
      assert Uses(r, c) + [Open] + decl + inner + [Close] == Uses(r, c) + [Open] + (decl + inner) + [Close];
  }

  lemma {:induction false} NothingQuiet()
    ensures Quiet([])
  {
  }

  lemma {:induction false} DeclaringQuiet(x: Name, a: Attr, init: Option<Expr>, c: Ctx)
    requires !c.live
    ensures Quiet(Declaring(x, a, init, c))
  {
    OptQuiet(init, c);
  }

  lemma {:induction false} HandleQuiet(h: Option<Name>, c: Ctx)
    requires !c.live
    ensures Quiet(HandleTrace(h, c))
  {
    hide Declaring;
    if h.Some? { DeclaringQuiet(h.value, PLAIN, None, c); }
  }

  lemma {:induction false} ScopedQuiet(ss: seq<Stmt>, c: Ctx)
    requires !c.live
    ensures Quiet(Scoped(ss, c))
    decreases ss, 1
  {
    SeqQuiet(ss, c);
  }

  /** No live update of a C-style loop uses a name its body declares where it is not compiled. */
  predicate SeqUpdates(ss: seq<Stmt>, loop: bool)
    decreases ss, 0
  {
    ss == [] || (Updates(ss[0], loop) && (Falls(ss[0], loop) ==> SeqUpdates(ss[1..], loop)))
  }

  predicate Updates(s: Stmt, loop: bool)
    decreases s, 1
  {
    match s
    case Unsafe(body) => SeqUpdates(body, loop)
    case If(_, thn, els) => SeqUpdates(thn, loop) && SeqUpdates(els, loop)
    case Cases(_, _, arms) => ArmsUpdates(arms, loop)
    case While(_, body) => SeqUpdates(body, true)
    case DoWhile(body, _) => SeqUpdates(body, true)
    case For(_, _, body) => SeqUpdates(body, true)
    case CFor(_, _, update, body) => SeqUpdates(body, true) && OptSeen(update) !! SeqDead(body, true, true)
    case Using(_, _, _, body) => SeqUpdates(body, loop)
    case _ => true
  }

  predicate ArmsUpdates(arms: seq<Arm>, loop: bool)
    decreases arms, 0
  {
    arms == [] || (SeqUpdates(arms[0].body, loop) && ArmsUpdates(arms[1..], loop))
  }

  /** As the parser builds it, a C-style loop starts with a declaration or an expression, if with
      anything (src/frontend/parser.c:629-652). */
  predicate SeqParsed(ss: seq<Stmt>)
    decreases ss, 0
  {
    ss == [] || (Parsed(ss[0]) && SeqParsed(ss[1..]))
  }

  predicate Parsed(s: Stmt)
    decreases s, 1
  {
    match s
    case Unsafe(body) => SeqParsed(body)
    case If(_, thn, els) => SeqParsed(thn) && SeqParsed(els)
    case Cases(_, _, arms) => ArmsParsed(arms)
    case While(_, body) => SeqParsed(body)
    case DoWhile(body, _) => SeqParsed(body)
    case For(_, _, body) => SeqParsed(body)
    case CFor(first, _, _, body) => (first.None? || first.value.Decl? || first.value.Do?) && SeqParsed(body)
    case Using(_, _, _, body) => SeqParsed(body)
    case _ => true
  }

  predicate ArmsParsed(arms: seq<Arm>)
    decreases arms, 0
  {
    arms == [] || (SeqParsed(arms[0].body) && ArmsParsed(arms[1..]))
  }

  lemma {:induction false} FallsNoneDead(ss: seq<Stmt>, loop: bool)
    requires SeqFalls(ss, loop)
    ensures SeqDead(ss, true, loop) == {}
    decreases ss, 0
  {
    if ss != [] {
      if ss[0].Unsafe? { FallsNoneDead(ss[0].body, loop); }
      FallsNoneDead(ss[1..], loop);
    }
  }

  lemma {:induction false} SeqFinds(ss: seq<Stmt>, c: Ctx)
    requires c.live && SeqParsed(ss)
    ensures Finds(SeqTrace(ss, c), SeqUpdates(ss, c.loop))
    decreases ss, 0
  {
    hide Walks, Finds, StmtTrace, Dead, Falls, Updates, Parsed;
    if ss == [] {
      QuietFinds([]);
    } else {
      var rest := Behind(ss[0], c);
      StmtFinds(ss[0], c);
      if rest.live {
        StmtWalks(ss[0], c);
        OneFalls(ss[0], c.loop);
        SeqFinds(ss[1..], rest);
        FindsCat(StmtTrace(ss[0], c), SeqTrace(ss[1..], rest), Updates(ss[0], c.loop), SeqUpdates(ss[1..], c.loop));
      } else {
        SeqQuiet(ss[1..], rest);
        QuietBehind(StmtTrace(ss[0], c), SeqTrace(ss[1..], rest), Updates(ss[0], c.loop));
      }
    }
  }

  lemma {:induction false} OneFalls(s: Stmt, loop: bool)
    requires Falls(s, loop)
    ensures Dead(s, true, loop) == {}
  {
    if s.Unsafe? { FallsNoneDead(s.body, loop); }
  }

  lemma {:induction false} ScopedFinds(trace: seq<Event>, p: bool)
    requires Finds(trace, p)
    ensures Finds([Open] + trace + [Close], p)
  {
    hide Ready, Unknown, Hidden;
    var all := [Open] + trace + [Close];
    DeclaredCat([Open] + trace, [Close]);
    DeclaredCat([Open], trace);
    assert Declared([Open]) == [] && Declared([Close]) == [] by { assert [Event.Open][1..] == [] && [Event.Close][1..] == []; }
    assert Declared(all) == Declared(trace);
    forall st | Ready(st) && Unknown(Declared(all), st) && NoneHidden(st) ensures AllFound(all, st) <==> p {
      FoundCat([Open] + trace, [Close], st);
      FoundCat([Open], trace, st);
      OneEvent(Open, st);
      QuietFound([Open], st);
      QuietFound([Close], Run([Open] + trace, st));
      Opened(st, Declared(trace));
      forall x ensures !Hidden(Step(Open, st), x) { OpenedHidden(st, x); }
    }
  }

  lemma {:induction false} OpenedHidden(st: State, x: Name)
    requires Find(Step(Open, st).scopes, x) == Find(st.scopes, x)
    ensures Hidden(Step(Open, st), x) <==> Hidden(st, x)
  {
  }

  lemma {:induction false} BlockFinds(ss: seq<Stmt>, c: Ctx)
    requires c.live && SeqParsed(ss)
    ensures Finds(Scoped(ss, c), SeqUpdates(ss, c.loop))
    decreases ss, 1
  {
    hide Finds;
    SeqFinds(ss, c);
    ScopedFinds(SeqTrace(ss, c), SeqUpdates(ss, c.loop));
  }

  lemma {:induction false} UsesFind(e: Expr, c: Ctx)
    ensures Finds(Uses(e, c), true) && Walks(Uses(e, c), {})
  {
    ExprWalks(e, c);
    hide Walks, Ready, Unknown, Hidden;
    if c.live {
      forall st | NoneHidden(st) ensures AllFound(Uses(e, c), st) { SeenFound(e, c, st, {}); }
    } else {
      UnseenQuiet(e, c);
      QuietFinds(Uses(e, c));
    }
  }

  lemma {:induction false} OptFind(e: Option<Expr>, c: Ctx)
    ensures Finds(OptUses(e, c), true) && Walks(OptUses(e, c), {})
  {
    OptWalks(e, c);
    hide Walks, Finds;
    if e.Some? { UsesFind(e.value, c); } else { QuietFinds([]); }
  }

  lemma {:induction false} TestsFind(arms: seq<Arm>, c: Ctx)
    ensures Finds(TestsTrace(arms, c), true) && Walks(TestsTrace(arms, c), {})
    decreases |arms|
  {
    hide Walks, Finds;
    if arms == [] {
      QuietFinds([]);
      UsesWalk([]);
    } else {
      OptFind(arms[0].test, c);
      TestsFind(arms[1..], c);
      FindsCat(OptUses(arms[0].test, c), TestsTrace(arms[1..], c), true, true);
      NoDead(OptUses(arms[0].test, c), TestsTrace(arms[1..], c));
    }
  }

  lemma {:induction false} ArmsFind(arms: seq<Arm>, c: Ctx)
    requires c.live && ArmsParsed(arms)
    ensures Finds(ArmsTrace(arms, c), ArmsUpdates(arms, c.loop))
    decreases arms, 0
  {
    hide Walks, Finds, Scoped;
    if arms == [] {
      QuietFinds([]);
    } else {
      BlockWalks(arms[0].body, c);
      BlockFinds(arms[0].body, c);
      ArmsFind(arms[1..], c);
      FindsCat(Scoped(arms[0].body, c), ArmsTrace(arms[1..], c), SeqUpdates(arms[0].body, c.loop), ArmsUpdates(arms[1..], c.loop));
    }
  }

  lemma {:induction false} DeclaringFinds(x: Name, a: Attr, init: Option<Expr>, c: Ctx)
    ensures Finds(Declaring(x, a, init, c), true)
  {
    hide Unknown, Hidden;
    var first, uses := [Declare(x, a, c.live)], OptUses(init, c);
    forall st | Ready(st) && NoneHidden(st) ensures AllFound(Declaring(x, a, init, c), st) {
      FoundCat(first + uses, [Bind], st);
      FoundCat(first, uses, st);
      QuietFound(first, st);
      QuietFound([Bind], Run(first + uses, st));
      OneEvent(first[0], st);
      var st1 := Step(first[0], st);
      forall y ensures !Hidden(st1, y) { PushedHidden(x, a, c.live, st, y); }
      if c.live {
        if init.Some? { SeenFound(init.value, c, st1, {}); }
      } else {
        OptQuiet(init, c);
        QuietFound(uses, st1);
      }
    }
  }

  lemma {:induction false} PushedHidden(x: Name, a: Attr, live: bool, st: State, y: Name)
    requires !Hidden(st, y)
    ensures !Hidden(Step(Declare(x, a, live), st), y)
  {
    var st1 := Step(Declare(x, a, live), st);
    assert forall e :: e in st.flat ==> e in st1.flat;
  }

  lemma {:induction false} StmtFinds(s: Stmt, c: Ctx)
    requires c.live && Parsed(s)
    ensures Finds(StmtTrace(s, c), Updates(s, c.loop))
    decreases s, 2
  {
    hide Walks, Finds, Scoped, SeqTrace, Uses, ArmsTrace, TestsTrace, OptUses, Declaring, SeqDead, SeqUpdates, SeqParsed;
    match s
    case Decl(x, a, init) => DeclaringFinds(x, a, init, c);
    case Do(e) => UsesFind(e, c);
    case Return(v) => OptFind(v, c);
    case Break => QuietFinds([]);
    case Continue => QuietFinds([]);
    case Unsafe(body) => SeqFinds(body, c);
    case If(e, thn, els) =>
      UsesFind(e, c);
      BlockFinds(thn, c);
      BlockFinds(els, c);
      BlockWalks(thn, c);
      FindsCat(Uses(e, c), Scoped(thn, c), true, SeqUpdates(thn, c.loop));
      NoDead(Uses(e, c), Scoped(thn, c));
      FindsCat(Uses(e, c) + Scoped(thn, c), Scoped(els, c), SeqUpdates(thn, c.loop), SeqUpdates(els, c.loop));
    case Cases(_, e, arms) =>
      UsesFind(e, c);
      TestsFind(arms, c);
      ArmsFind(arms, c);
      FindsCat(Uses(e, c), TestsTrace(arms, c), true, true);
      NoDead(Uses(e, c), TestsTrace(arms, c));
      FindsCat(Uses(e, c) + TestsTrace(arms, c), ArmsTrace(arms, c), true, ArmsUpdates(arms, c.loop));
    case While(e, body) =>
      UsesFind(e, c);
      BlockFinds(body, InLoop(c));
      FindsCat(Uses(e, c), Scoped(body, InLoop(c)), true, SeqUpdates(body, true));
    case DoWhile(body, e) =>
      UsesFind(e, c);
      BlockFinds(body, InLoop(c));
      BlockWalks(body, InLoop(c));
      FindsCat(Scoped(body, InLoop(c)), Uses(e, c), SeqUpdates(body, true), true);
    case For(x, iter, body) =>
      UsesFind(iter, c);
      DeclaringWalks(x, PLAIN, None, c);
      DeclaringFinds(x, PLAIN, None, c);
      InnerFinds(Uses(iter, c), Declaring(x, PLAIN, None, c), body, InLoop(c));
    case CFor(_, _, _, _) => CForFinds(s, c);
    case Using(r, h, _, body) =>
      UsesFind(r, c);
      HandleFinds(h, c);
      InnerFinds(Uses(r, c), HandleTrace(h, c), body, InUsing(c));
  }

  lemma {:induction false} HandleFinds(h: Option<Name>, c: Ctx)
    requires c.live
    ensures Finds(HandleTrace(h, c), true) && Walks(HandleTrace(h, c), {})
  {
    hide Walks, Finds;
    if h.Some? {
      DeclaringWalks(h.value, PLAIN, None, c);
      DeclaringFinds(h.value, PLAIN, None, c);
    } else {
      QuietFinds([]);
      UsesWalk([]);
    }
  }

  lemma {:induction false} InnerFinds(e: seq<Event>, decl: seq<Event>, body: seq<Stmt>, c: Ctx)
    requires c.live && SeqParsed(body) && Walks(e, {}) && Finds(e, true) && Walks(decl, {}) && Finds(decl, true)
    ensures Finds(e + [Open] + decl + SeqTrace(body, c) + [Close], SeqUpdates(body, c.loop))
    decreases body, 1
  {
    hide Walks, Finds;
    SeqFinds(body, c);
    var ss, ok := SeqTrace(body, c), SeqUpdates(body, c.loop);
    FindsCat(decl, ss, true, ok);
    ScopedFinds(decl + ss, ok);
    FindsCat(e, [Open] + (decl + ss) + [Close], true, ok);
    assert e + [Open] + decl + ss + [Close] == e + ([Open] + (decl + ss) + [Close]);
  }

  lemma {:induction false} CForFinds(s: Stmt, c: Ctx)
    requires c.live && s.CFor? && Parsed(s)
    ensures Finds(StmtTrace(s, c), Updates(s, c.loop))
    decreases s, 1
  {
    hide Walks, Finds, SeqTrace, OptUses, SeqUpdates, SeqParsed;
    var first, e, body, u := FirstTrace(s, c), OptUses(s.cond, c), SeqTrace(s.body, InLoop(c)), OptUses(s.update, c);
    FirstFinds(s, c);
    OptFind(s.cond, c);
    SeqWalks(s.body, InLoop(c));
    SeqFinds(s.body, InLoop(c));
    UpdateFinds(body, SeqDead(s.body, true, true), SeqUpdates(s.body, true), s.update, c);
    FindsCat(first, e, true, true);
    NoDead(first, e);
    FindsCat(first + e, body + u, true, Updates(s, c.loop));
    ScopedFinds(first + e + (body + u), Updates(s, c.loop));
    CForTrace(s, c);
    assert [Open] + first + e + body + u + [Close] == [Open] + (first + e + (body + u)) + [Close];
  }

  lemma {:induction false} FirstFinds(s: Stmt, c: Ctx)
    requires c.live && s.CFor? && Parsed(s)
    ensures Finds(FirstTrace(s, c), true) && Walks(FirstTrace(s, c), {})
  {
    hide Walks, Finds;
    if s.first.None? {
      QuietFinds([]);
      UsesWalk([]);
    } else if s.first.value.Do? {
      UsesFind(s.first.value.e, c);
    } else {
      DeclaringWalks(s.first.value.x, s.first.value.a, s.first.value.init, c);
      DeclaringFinds(s.first.value.x, s.first.value.a, s.first.value.init, c);
    }
  }

  /** An update finds what the body has hidden. */
  lemma {:induction false} UpdateFinds(body: seq<Event>, dead: set<Name>, p: bool, u: Option<Expr>, c: Ctx)
    requires c.live && Walks(body, dead) && Finds(body, p)
    ensures Finds(body + OptUses(u, c), p && OptSeen(u) !! dead)
  {
    hide Ready, Unknown, Hidden;
    var uses := OptUses(u, c);
    forall st | Ready(st) && Unknown(Declared(body + uses), st) && NoneHidden(st)
      ensures AllFound(body + uses, st) <==> p && OptSeen(u) !! dead
    {
      DeclaredCat(body, uses);
      FoundCat(body, uses, st);
      UnknownCat(Declared(body), Declared(uses), st, st, {});
      var st1 := Run(body, st);
      assert Walked(st, st1, Declared(body), dead);
      if u.Some? { SeenFound(u.value, c, st1, dead); }
    }
  }

  // ---- Functions.

  /** With all names different the only way to disagree is to find what is not compiled. */
  lemma {:induction false} DistinctAgree(trace: seq<Event>, st: State)
    requires Ordered(st) && NoRepeats(NamesOf(st.flat) + Declared(trace))
    ensures AllAgree(trace, st) <==> AllFound(trace, st)
    decreases |trace|
  {
    hide Ordered, Find, FindIn, Flat, Step, NoRepeats;
    if trace != [] {
      var e := trace[0];
      StepOrdered(e, st);
      StepDistinct(e, trace[1..], st);
      DistinctAgree(trace[1..], Step(e, st));
      if e.Use? { DistinctUse(e.x, Declared(trace), st); }
    }
  }

  lemma {:induction false} StepDistinct(e: Event, rest: seq<Event>, st: State)
    requires NoRepeats(NamesOf(st.flat) + ((if e.Declare? then [e.x] else []) + Declared(rest)))
    ensures NoRepeats(NamesOf(Step(e, st).flat) + Declared(rest))
  {
    var names, all := NamesOf(st.flat), NamesOf(st.flat) + ((if e.Declare? then [e.x] else []) + Declared(rest));
    if e.Declare? {
      if e.live {
        assert NamesOf(Step(e, st).flat) == names + [e.x];
        assert names + [e.x] + Declared(rest) == all;
      } else {
        var less := names + Declared(rest);
        forall i, j | 0 <= i < j < |less| ensures less[i] != less[j] {
          var k := |names|;
          assert all[if i < k then i else i + 1] != all[if j < k then j else j + 1];
        }
      }
    } else {
      assert names + ([] + Declared(rest)) == names + Declared(rest);
    }
  }

  lemma {:induction false} DistinctUse(x: Name, more: seq<Name>, st: State)
    requires Ordered(st) && NoRepeats(NamesOf(st.flat) + more)
    ensures (Find(st.scopes, x).Some? ==> Find(st.scopes, x) == FindIn(st.flat, x)) <==> !Hidden(st, x)
  {
    var all := NamesOf(st.flat) + more;
    FindFlat(st.scopes, x);
    FindInIs(Flat(st.scopes), x);
    FindInIs(st.flat, x);
    forall i, j | 0 <= i < j < |st.flat| ensures st.flat[i].x != st.flat[j].x { assert all[i] != all[j]; }
  }

  /** In a function whose declared names all differ, from each other and from what the flat list
      already has, every live name is resolved alike if and only if no live update of a C-style loop
      uses a name its body declares behind a jump. */
  lemma {:induction false} FunctionAgrees(f: Func, st: State)
    requires Ready(st) && NoneHidden(st) && SeqParsed(f.body)
    requires NoRepeats(NamesOf(st.flat) + Declared(FuncTrace(f)))
    ensures AllAgree(FuncTrace(f), st) <==> SeqUpdates(f.body, false)
  {
    hide Ready, NoRepeats, Hidden, SeqUpdates, SeqParsed, FuncTrace;
    assert Ordered(st) by { ReadyOrdered(st); }
    DistinctAgree(FuncTrace(f), st);
    FunctionFinds(f);
    NamesUnknown(Declared(FuncTrace(f)), st);
  }

  lemma {:induction false} ReadyOrdered(st: State)
    requires Ready(st)
    ensures Ordered(st)
  {
  }

  lemma {:induction false} NamesUnknown(names: seq<Name>, st: State)
    requires Ready(st) && NoneHidden(st) && NoRepeats(NamesOf(st.flat) + names)
    ensures Unknown(names, st)
  {
    var all, k := NamesOf(st.flat) + names, |st.flat|;
    forall i, j | 0 <= i < j < |names| ensures names[i] != names[j] { assert all[k + i] != all[k + j]; }
    forall i | 0 <= i < |names| ensures Find(st.scopes, names[i]).None? {
      forall j | 0 <= j < k ensures st.flat[j].x != names[i] { assert all[j] != all[k + i]; }
      FindFlat(st.scopes, names[i]);
      FindInIs(Flat(st.scopes), names[i]);
      assert !Hidden(st, names[i]);
    }
  }

  lemma {:induction false} FunctionFinds(f: Func)
    requires SeqParsed(f.body)
    ensures Finds(FuncTrace(f), SeqUpdates(f.body, false))
  {
    hide Finds, Walks;
    ParamsFind(f.params);
    SeqFinds(f.body, START);
    FindsCat(ParamsTrace(f.params), SeqTrace(f.body, START), true, SeqUpdates(f.body, false));
    ScopedFinds(ParamsTrace(f.params) + SeqTrace(f.body, START), SeqUpdates(f.body, false));
    assert [Open] + ParamsTrace(f.params) + SeqTrace(f.body, START) + [Close] == [Open] + (ParamsTrace(f.params) + SeqTrace(f.body, START)) + [Close];
  }

  lemma {:induction false} ParamsFind(params: seq<Name>)
    ensures Finds(ParamsTrace(params), true) && Walks(ParamsTrace(params), {})
    decreases |params|
  {
    hide Finds, Walks;
    if params == [] {
      QuietFinds([]);
      UsesWalk([]);
    } else {
      var decl := Declaring(params[0], PLAIN, None, START);
      DeclaringWalks(params[0], PLAIN, None, START);
      DeclaringFinds(params[0], PLAIN, None, START);
      ParamsFind(params[1..]);
      FindsCat(decl, ParamsTrace(params[1..]), true, true);
      NoDead(decl, ParamsTrace(params[1..]));
    }
  }
}
