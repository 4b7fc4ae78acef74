/** Mutability and `using`: what the checker counts as an error (src/frontend/typecheck.c:209-246,
    727-788, 1091-1286) and what that means for every run of the compiled code. */

module Discipline {
  import opened Options
  import opened Outline
  import opened Scopes
  import Agreement

  // ---- The checker.

  predicate Allowed(a: Attr, depth: nat) { a.mut && (a.shd ==> depth > 0) }

  /** Errors of a write to a variable that is found. */
  function WriteErrors(a: Attr, depth: nat): nat {
    (if !a.mut then 1 else 0) + (if a.shd && a.mut && depth == 0 then 1 else 0)
  }

  /** `++` and `--` are not looked at (src/frontend/typecheck.c:688-698). */
  function UseErrors(found: Option<Entry>, access: Access): nat {
    if found.None? then 1
    else if access.Write? && !access.step then WriteErrors(found.value.a, access.depth) else 0
  }

  /** The checker visits what is compiled and what is not. */
  function Errors(trace: seq<Event>, st: State): nat {
    if trace == [] then 0
    else (if trace[0].Use? then UseErrors(Find(st.scopes, trace[0].x), trace[0].access) else 0) + Errors(trace[1..], Step(trace[0], st))
  }

  // ---- Rules for writes.

  /** The declaration the code writes may be written here. */
  predicate LastAllowed(st: State, x: Name, depth: nat) {
    FindIn(st.flat, x).Some? ==> Allowed(FindIn(st.flat, x).value.a, depth)
  }

  /** What may be asked of every compiled write.  `Unchecked` asks it of just those the checker does
      not look at, or looks at in another declaration than the code writes. */
  datatype Rule = AllAllowed | Unchecked | AllInScope | StepsAllowed

  predicate WriteHolds(r: Rule, step: bool, x: Name, st: State, depth: nat) {
    match r
    case AllAllowed => LastAllowed(st, x, depth)
    case Unchecked => (!step && Settled(st, x)) || LastAllowed(st, x, depth)
    case AllInScope => Settled(st, x)
    case StepsAllowed => step ==> LastAllowed(st, x, depth)
  }

  predicate Holds(r: Rule, trace: seq<Event>, st: State) {
    trace == []
    || (&& (trace[0].Use? && trace[0].access.Write? && trace[0].live ==> WriteHolds(r, trace[0].access.step, trace[0].x, st, trace[0].access.depth))
        && Holds(r, trace[1..], Step(trace[0], st)))
  }

  lemma {:induction false} HoldsCat(r: Rule, a: seq<Event>, b: seq<Event>, st: State)
    ensures Holds(r, a + b, st) <==> Holds(r, a, st) && Holds(r, b, Run(a, st))
    decreases |a|
  {
    hide Step, WriteHolds;
    if a == [] {
      assert a + b == b;
    } else {
      assert (a + b)[1..] == a[1..] + b && (a + b)[0] == a[0];
      HoldsCat(r, a[1..], b, Step(a[0], st));
    }
  }

  lemma {:induction false} ErrorsCat(a: seq<Event>, b: seq<Event>, st: State)
    ensures Errors(a + b, st) == Errors(a, st) + Errors(b, Run(a, st))
    decreases |a|
  {
    hide Step, UseErrors;
    if a == [] {
      assert a + b == b;
    } else {
      assert (a + b)[1..] == a[1..] + b && (a + b)[0] == a[0];
      ErrorsCat(a[1..], b, Step(a[0], st));
    }
  }

  // ---- The compiled code, as far as it writes variables.

  /** A store carries the attributes of the declaration whose slot it writes.  A loop runs its
      condition, unless it comes to the body first, its body and its update. */
  datatype Code =
    | XStore(target: Attr)
    | XCall(f: nat)
    | XReturn
    | XBreak
    | XContinue
    | XIf(thn: seq<Code>, els: seq<Code>)
    | XLoop(bodyFirst: bool, cond: seq<Code>, body: seq<Code>, update: seq<Code>)
    | XUsing(body: seq<Code>)

  /** The store goes where the flat list finds the name. */
  function StoreTo(x: Name, st: State): seq<Code> {
    match FindIn(st.flat, x) case None => [] case Some(e) => [XStore(e.a)]
  }

  function EmitExpr(e: Expr, st: State): seq<Code> {
    match e
    case Const => []
    case Var(_) => []
    case Op(l, r) => EmitExpr(l, st) + EmitExpr(r, st)
    case Choice(d, a, b) => EmitExpr(d, st) + [XIf(EmitExpr(a, st), EmitExpr(b, st))]
    case Assign(x, a) => EmitExpr(a, st) + StoreTo(x, st)
    case IncDec(x) => StoreTo(x, st)
    case Call(f) => [XCall(f)]
    case Unseen(_) => []
  }

  function EmitOpt(e: Option<Expr>, st: State): seq<Code> { if e.None? then [] else EmitExpr(e.value, st) }

  /** Tests of a `match` are made until one holds; the values of a `switch` are all computed. */
  function EmitTests(chain: bool, arms: seq<Arm>, st: State): seq<Code> {
    if arms == [] then []
    else
      var more := EmitTests(chain, arms[1..], st);
      EmitOpt(arms[0].test, st) + if chain then [XIf([], more)] else more
  }

  /** Statements behind a point that control cannot pass are dropped. */
  function EmitSeq(ss: seq<Stmt>, c: Ctx, st: State): seq<Code>
    decreases ss, 0
  {
    if ss == [] || !c.live then []
    else Emit(ss[0], c, st) + EmitSeq(ss[1..], Behind(ss[0], c), Run(StmtTrace(ss[0], c), st))
  }

  function EmitBlock(ss: seq<Stmt>, c: Ctx, st: State): seq<Code>
    decreases ss, 1
  {
    EmitSeq(ss, c, Step(Open, st))
  }

  /** One of the arms, or none. */
  function EmitArms(arms: seq<Arm>, c: Ctx, st: State): seq<Code>
    decreases arms, 0
  {
    if arms == [] then []
    else [XIf(EmitBlock(arms[0].body, c, st), EmitArms(arms[1..], c, Run(Scoped(arms[0].body, c), st)))]
  }

  function Started(first: Option<Stmt>, c: Ctx, st: State): State {
    if first.None? then Step(Open, st) else Run(StmtTrace(first.value, c), Step(Open, st))
  }

  /** A new variable is already on the flat list when its initialiser is compiled. */
  function Emit(s: Stmt, c: Ctx, st: State): seq<Code>
    decreases s, 1
  {
    match s
    case Decl(x, a, init) => EmitOpt(init, Step(Declare(x, a, c.live), st))
    case Do(e) => EmitExpr(e, st)
    case Return(v) => EmitOpt(v, st) + [XReturn]
    case Break => if c.loop then [XBreak] else []
    case Continue => if c.loop then [XContinue] else []
    case Unsafe(body) => EmitSeq(body, c, st)
    case If(e, thn, els) => EmitExpr(e, st) + [XIf(EmitBlock(thn, c, st), EmitBlock(els, c, Run(Scoped(thn, c), st)))]
    case Cases(chain, e, arms) => EmitExpr(e, st) + EmitTests(chain, arms, st) + EmitArms(arms, c, st)
    case While(e, body) => [XLoop(false, EmitExpr(e, st), EmitBlock(body, InLoop(c), st), [])]
    case DoWhile(body, e) => [XLoop(true, EmitExpr(e, Run(Scoped(body, InLoop(c)), st)), EmitBlock(body, InLoop(c), st), [])]
    case For(x, iter, body) =>
      EmitExpr(iter, st) + [XLoop(false, [], EmitSeq(body, InLoop(c), Run(Declaring(x, PLAIN, None, c), Step(Open, st))), [])]
    case CFor(first, e, u, body) =>
      var st1 := Started(first, c, st);
      (if first.None? then [] else Emit(first.value, c, Step(Open, st)))
      + [XLoop(false, EmitOpt(e, st1), EmitSeq(body, InLoop(c), st1), EmitOpt(u, Run(SeqTrace(body, InLoop(c)), st1)))]
    case Using(r, h, _, body) => EmitExpr(r, st) + [XUsing(EmitSeq(body, InUsing(c), Run(HandleTrace(h, c), Step(Open, st))))]
  }

  /** Every store in the code is one its place allows. */
  predicate Disciplined(code: seq<Code>, depth: nat)
    decreases code, 0
  {
    forall i :: 0 <= i < |code| ==> Disciplined1(code[i], depth)
  }

  predicate Disciplined1(c: Code, depth: nat)
    decreases c, 1
  {
    match c
    case XStore(a) => Allowed(a, depth)
    case XIf(thn, els) => Disciplined(thn, depth) && Disciplined(els, depth)
    case XLoop(_, cond, body, update) => Disciplined(cond, depth) && Disciplined(body, depth) && Disciplined(update, depth)
    case XUsing(body) => Disciplined(body, depth + 1)
    case _ => true
  }

  lemma {:induction false} DisciplinedCat(a: seq<Code>, b: seq<Code>, depth: nat)
    ensures Disciplined(a + b, depth) <==> Disciplined(a, depth) && Disciplined(b, depth)
  {
    hide Disciplined1;
    var all := a + b;
    if Disciplined(all, depth) {
      forall i | 0 <= i < |a| ensures Disciplined1(a[i], depth) { assert all[i] == a[i]; }
      forall i | 0 <= i < |b| ensures Disciplined1(b[i], depth) { assert all[|a| + i] == b[i]; }
    }
  }

  lemma {:induction false} DisciplinedOne(c: Code, depth: nat)
    ensures Disciplined([c], depth) <==> Disciplined1(c, depth)
  {
    assert [c][0] == c;
  }

  lemma {:induction false} NoCode(depth: nat)
    ensures Disciplined([], depth)
  {
  }

  // ---- The code is disciplined as far as its writes are.

  /** Code for a trace: its stores are allowed if and only if the writes are. */
  predicate Fits(code: seq<Code>, trace: seq<Event>, depth: nat, st: State) {
    Disciplined(code, depth) <==> Holds(AllAllowed, trace, st)
  }

  lemma {:induction false} FitsCat(a: seq<Code>, b: seq<Code>, t: seq<Event>, u: seq<Event>, depth: nat, st: State)
    requires Fits(a, t, depth, st) && Fits(b, u, depth, Run(t, st))
    ensures Fits(a + b, t + u, depth, st)
  {
    hide Disciplined, Holds;
    DisciplinedCat(a, b, depth);
    HoldsCat(AllAllowed, t, u, st);
  }

  lemma {:induction false} FitsNothing(depth: nat, st: State)
    ensures Fits([], [], depth, st)
  {
  }

  /** Opening and closing scopes writes nothing. */
  lemma {:induction false} FitsScoped(code: seq<Code>, trace: seq<Event>, depth: nat, st: State)
    requires Fits(code, trace, depth, Step(Open, st))
    ensures Fits(code, [Open] + trace + [Close], depth, st)
  {
    hide Disciplined, Holds;
    FitsMark(Open, depth, st);
    FitsMark(Close, depth, Run([Open] + trace, st));
    FitsCat([], code, [Open], trace, depth, st);
    FitsCat([] + code, [], [Open] + trace, [Close], depth, st);
    assert [] + code == code && code + [] == code;
  }

  lemma {:induction false} FitsMark(e: Event, depth: nat, st: State)
    ensures Run([e], st) == Step(e, st) && (!e.Use? ==> Fits([], [e], depth, st))
  {
    assert [e][1..] == [];
  }

  lemma {:induction false} StoreFits(x: Name, step: bool, depth: nat, st: State)
    ensures Fits(StoreTo(x, st), [Use(x, Write(step, depth), true)], depth, st)
  {
    var w := [Use(x, Write(step, depth), true)];
    assert w[1..] == [];
    if FindIn(st.flat, x).Some? { DisciplinedOne(XStore(FindIn(st.flat, x).value.a), depth); }
  }

  /** Expressions leave the state alone. */
  lemma {:induction false} UsesStay(e: Expr, c: Ctx, st: State)
    ensures Run(Uses(e, c), st) == st
  {
    Agreement.UsesOnly(e, c);
    Agreement.UsesRun(Uses(e, c), st);
  }

  lemma {:induction false} ExprFits(e: Expr, c: Ctx, st: State)
    requires c.live
    ensures Fits(EmitExpr(e, st), Uses(e, c), c.depth, st)
    decreases e
  {
    hide Fits, StoreTo;
    match e
    case Const => FitsNothing(c.depth, st);
    case Var(x) => ReadFits(x, true, c.depth, st);
    case Op(l, r) =>
      ExprFits(l, c, st);
      ExprFits(r, c, st);
      UsesStay(l, c, st);
      FitsCat(EmitExpr(l, st), EmitExpr(r, st), Uses(l, c), Uses(r, c), c.depth, st);
    case Choice(d, a, b) =>
      ExprFits(d, c, st);
      ExprFits(a, c, st);
      ExprFits(b, c, st);
      UsesStay(d, c, st);
      UsesStay(a, c, st);
      IfFits(EmitExpr(a, st), EmitExpr(b, st), Uses(a, c), Uses(b, c), c.depth, st);
      FitsCat(EmitExpr(d, st), [XIf(EmitExpr(a, st), EmitExpr(b, st))], Uses(d, c), Uses(a, c) + Uses(b, c), c.depth, st);
      assert Uses(d, c) + Uses(a, c) + Uses(b, c) == Uses(d, c) + (Uses(a, c) + Uses(b, c));
    case Assign(x, a) =>
      ExprFits(a, c, st);
      StoreFits(x, false, c.depth, st);
      AssignFits(EmitExpr(a, st), StoreTo(x, st), Use(x, Write(false, c.depth), true), Uses(a, c), c.depth, st);
    case IncDec(x) => StoreFits(x, true, c.depth, st);
    case Call(f) => CallFits(f, c.depth, st);
    case Unseen(a) => UnseenFits(a, c.(live := false), c.depth, st);
  }

  lemma {:induction false} ReadFits(x: Name, live: bool, depth: nat, st: State)
    ensures Fits([], [Use(x, Read, live)], depth, st)
  {
    assert [Use(x, Read, live)][1..] == [];
  }

  lemma {:induction false} CallFits(f: nat, depth: nat, st: State)
    ensures Fits([XCall(f)], [], depth, st)
  {
    DisciplinedOne(XCall(f), depth);
  }

  lemma {:induction false} IfFits(a: seq<Code>, b: seq<Code>, t: seq<Event>, u: seq<Event>, depth: nat, st: State)
    requires Fits(a, t, depth, st) && Fits(b, u, depth, Run(t, st))
    ensures Fits([XIf(a, b)], t + u, depth, st)
  {
    DisciplinedOne(XIf(a, b), depth);
    hide Disciplined, Holds;
    HoldsCat(AllAllowed, t, u, st);
  }

  /** The value is computed before the store, and the checker visits the target first. */
  lemma {:induction false} AssignFits(value: seq<Code>, store: seq<Code>, w: Event, uses: seq<Event>, depth: nat, st: State)
    requires w.Use? && Fits(value, uses, depth, st) && Fits(store, [w], depth, st)
    ensures Fits(value + store, [w] + uses, depth, st)
  {
    hide Disciplined, Holds;
    FitsMark(w, depth, st);
    DisciplinedCat(value, store, depth);
    HoldsCat(AllAllowed, [w], uses, st);
  }

  lemma {:induction false} QuietHolds(r: Rule, trace: seq<Event>, st: State)
    requires Agreement.Quiet(trace)
    ensures Holds(r, trace, st)
    decreases |trace|
  {
    hide Step, WriteHolds;
    if trace != [] {
      QuietHolds(r, trace[1..], Step(trace[0], st));
    }
  }

  lemma {:induction false} UnseenFits(e: Expr, c: Ctx, depth: nat, st: State)
    requires !c.live
    ensures Fits([], Uses(e, c), depth, st)
  {
    Agreement.UnseenQuiet(e, c);
    QuietHolds(AllAllowed, Uses(e, c), st);
  }

  lemma {:induction false} OptFits(e: Option<Expr>, c: Ctx, st: State)
    requires c.live
    ensures Fits(EmitOpt(e, st), OptUses(e, c), c.depth, st) && Run(OptUses(e, c), st) == st
  {
    hide Fits;
    if e.Some? {
      ExprFits(e.value, c, st);
      UsesStay(e.value, c, st);
    } else {
      FitsNothing(c.depth, st);
    }
  }

  lemma {:induction false} TestsFit(chain: bool, arms: seq<Arm>, c: Ctx, st: State)
    requires c.live
    ensures Fits(EmitTests(chain, arms, st), TestsTrace(arms, c), c.depth, st) && Run(TestsTrace(arms, c), st) == st
    decreases |arms|
  {
    hide Fits;
    FitsNothing(c.depth, st);
    if arms != [] {
      var first, more := EmitOpt(arms[0].test, st), EmitTests(chain, arms[1..], st);
      var t, u := OptUses(arms[0].test, c), TestsTrace(arms[1..], c);
      OptFits(arms[0].test, c, st);
      TestsFit(chain, arms[1..], c, st);
      RunCat(t, u, st);
      IfFits([], more, [], u, c.depth, st);
      assert [] + u == u;
      FitsCat(first, if chain then [XIf([], more)] else more, t, u, c.depth, st);
    }
  }

  /** For any body, checked or not: its code has only allowed stores if and only if, at every write
      that is compiled, the last compiled declaration of the name may be written there. */
  lemma {:induction false} SeqCodeIff(ss: seq<Stmt>, c: Ctx, st: State)
    ensures Disciplined(EmitSeq(ss, c, st), c.depth) <==> Holds(AllAllowed, SeqTrace(ss, c), st)
    decreases ss, 0
  {
    hide Emit, StmtTrace, Disciplined, Falls;
    if !c.live {
      Agreement.SeqQuiet(ss, c);
      QuietHolds(AllAllowed, SeqTrace(ss, c), st);
      NoCode(c.depth);
    } else if ss == [] {
      NoCode(c.depth);
    } else {
      var rest := Behind(ss[0], c);
      var st1 := Run(StmtTrace(ss[0], c), st);
      StmtFits(ss[0], c, st);
      SeqCodeIff(ss[1..], rest, st1);
      FitsCat(Emit(ss[0], c, st), EmitSeq(ss[1..], rest, st1), StmtTrace(ss[0], c), SeqTrace(ss[1..], rest), c.depth, st);
    }
  }

  lemma {:induction false} BlockFits(ss: seq<Stmt>, c: Ctx, st: State)
    ensures Fits(EmitBlock(ss, c, st), Scoped(ss, c), c.depth, st)
    decreases ss, 1
  {
    SeqCodeIff(ss, c, Step(Open, st));
    hide Fits, EmitSeq, SeqTrace;
    assert Fits(EmitSeq(ss, c, Step(Open, st)), SeqTrace(ss, c), c.depth, Step(Open, st)) by { SeqFits(ss, c, Step(Open, st)); }
    FitsScoped(EmitBlock(ss, c, st), SeqTrace(ss, c), c.depth, st);
  }

  lemma {:induction false} SeqFits(ss: seq<Stmt>, c: Ctx, st: State)
    requires Disciplined(EmitSeq(ss, c, st), c.depth) <==> Holds(AllAllowed, SeqTrace(ss, c), st)
    ensures Fits(EmitSeq(ss, c, st), SeqTrace(ss, c), c.depth, st)
  {
  }

  lemma {:induction false} ArmsFit(arms: seq<Arm>, c: Ctx, st: State)
    ensures Fits(EmitArms(arms, c, st), ArmsTrace(arms, c), c.depth, st)
    decreases arms, 0
  {
    hide Fits, EmitBlock, Scoped;
    if arms == [] {
      FitsNothing(c.depth, st);
    } else {
      var st1 := Run(Scoped(arms[0].body, c), st);
      BlockFits(arms[0].body, c, st);
      ArmsFit(arms[1..], c, st1);
      IfFits(EmitBlock(arms[0].body, c, st), EmitArms(arms[1..], c, st1), Scoped(arms[0].body, c), ArmsTrace(arms[1..], c), c.depth, st);
    }
  }

  /** A declaration is no write, and its initialiser is compiled behind it. */
  lemma {:induction false} DeclaringFits(x: Name, a: Attr, init: Option<Expr>, c: Ctx, st: State)
    requires c.live
    ensures Fits(EmitOpt(init, Step(Declare(x, a, c.live), st)), Declaring(x, a, init, c), c.depth, st)
  {
    hide Fits;
    var decl, st1 := Declare(x, a, c.live), Step(Declare(x, a, c.live), st);
    var code, uses := EmitOpt(init, st1), OptUses(init, c);
    FitsMark(decl, c.depth, st);
    OptFits(init, c, st1);
    FitsCat([], code, [decl], uses, c.depth, st);
    FitsMark(Bind, c.depth, Run([decl] + uses, st));
    FitsCat([] + code, [], [decl] + uses, [Bind], c.depth, st);
    assert [] + code == code && code + [] == code;
  }

  lemma {:induction false} LoopFits(first: bool, cond: seq<Code>, body: seq<Code>, update: seq<Code>, t: seq<Event>, u: seq<Event>, v: seq<Event>, depth: nat, st: State, st1: State, st2: State)
    requires Fits(cond, t, depth, st) && Fits(body, u, depth, st1) && Fits(update, v, depth, st2)
    ensures Disciplined([XLoop(first, cond, body, update)], depth) <==> Holds(AllAllowed, t, st) && Holds(AllAllowed, u, st1) && Holds(AllAllowed, v, st2)
  {
    hide Disciplined, Holds;
    DisciplinedLoop(first, cond, body, update, depth);
  }

  lemma {:induction false} DisciplinedLoop(first: bool, cond: seq<Code>, body: seq<Code>, update: seq<Code>, depth: nat)
    ensures Disciplined([XLoop(first, cond, body, update)], depth) <==> Disciplined(cond, depth) && Disciplined(body, depth) && Disciplined(update, depth)
  {
    DisciplinedOne(XLoop(first, cond, body, update), depth);
  }

  lemma {:induction false} StmtFits(s: Stmt, c: Ctx, st: State)
    requires c.live
    ensures Fits(Emit(s, c, st), StmtTrace(s, c), c.depth, st)
    decreases s, 2
  {
    hide Fits, Scoped, SeqTrace, Uses, ArmsTrace, TestsTrace, OptUses, Declaring, EmitSeq, EmitBlock, EmitArms, EmitTests, EmitExpr, EmitOpt;
    FitsNothing(c.depth, st);
    match s
    case Decl(x, a, init) => DeclaringFits(x, a, init, c, st);
    case Do(e) => ExprFits(e, c, st);
    case Return(v) =>
      OptFits(v, c, st);
      JumpFits(XReturn, c.depth, st);
      FitsCat(EmitOpt(v, st), [XReturn], OptUses(v, c), [], c.depth, st);
      assert OptUses(v, c) + [] == OptUses(v, c);
    case Break => JumpFits(XBreak, c.depth, st);
    case Continue => JumpFits(XContinue, c.depth, st);
    case Unsafe(body) => SeqCodeIff(body, c, st); SeqFits(body, c, st);
    case If(e, thn, els) =>
      var st1 := Run(Scoped(thn, c), st);
      ExprFits(e, c, st);
      UsesStay(e, c, st);
      BlockFits(thn, c, st);
      BlockFits(els, c, st1);
      IfFits(EmitBlock(thn, c, st), EmitBlock(els, c, st1), Scoped(thn, c), Scoped(els, c), c.depth, st);
      FitsCat(EmitExpr(e, st), [XIf(EmitBlock(thn, c, st), EmitBlock(els, c, st1))], Uses(e, c), Scoped(thn, c) + Scoped(els, c), c.depth, st);
      assert Uses(e, c) + Scoped(thn, c) + Scoped(els, c) == Uses(e, c) + (Scoped(thn, c) + Scoped(els, c));
    case Cases(chain, e, arms) =>
      ExprFits(e, c, st);
      UsesStay(e, c, st);
      TestsFit(chain, arms, c, st);
      ArmsFit(arms, c, st);
      FitsCat(EmitExpr(e, st), EmitTests(chain, arms, st), Uses(e, c), TestsTrace(arms, c), c.depth, st);
      RunCat(Uses(e, c), TestsTrace(arms, c), st);
      FitsCat(EmitExpr(e, st) + EmitTests(chain, arms, st), EmitArms(arms, c, st), Uses(e, c) + TestsTrace(arms, c), ArmsTrace(arms, c), c.depth, st);
    case While(_, _) => WhileFits(s, c, st);
    case DoWhile(_, _) => WhileFits(s, c, st);
    case For(_, _, _) => ForFits(s, c, st);
    case CFor(_, _, _, _) => CForFits(s, c, st);
    case Using(_, _, _, _) => UsingFits(s, c, st);
  }

  lemma {:induction false} JumpFits(x: Code, depth: nat, st: State)
    requires x.XReturn? || x.XBreak? || x.XContinue?
    ensures Fits([x], [], depth, st)
  {
    DisciplinedOne(x, depth);
  }

  lemma {:induction false} WhileFits(s: Stmt, c: Ctx, st: State)
    requires c.live && (s.While? || s.DoWhile?)
    ensures Fits(Emit(s, c, st), StmtTrace(s, c), c.depth, st)
    decreases s, 1
  {
    var inner, code := Scoped(s.body, InLoop(c)), EmitBlock(s.body, InLoop(c), st);
    var st1 := if s.While? then st else Run(inner, st);
    ExprFits(s.c, c, st1);
    BlockFits(s.body, InLoop(c), st);
    UsesStay(s.c, c, st);
    LoopFits(s.DoWhile?, EmitExpr(s.c, st1), code, [], Uses(s.c, c), inner, [], c.depth, st1, st, st);
    hide Disciplined, Scoped, EmitBlock, Uses, EmitExpr;
    HoldsCat(AllAllowed, Uses(s.c, c), inner, st);
    HoldsCat(AllAllowed, inner, Uses(s.c, c), st);
  }

  lemma {:induction false} ForFits(s: Stmt, c: Ctx, st: State)
    requires c.live && s.For?
    ensures Fits(Emit(s, c, st), StmtTrace(s, c), c.depth, st)
    decreases s, 1
  {
    hide Fits, SeqTrace, Uses, Declaring, EmitSeq, EmitExpr;
    var decl, body := Declaring(s.x, PLAIN, None, c), SeqTrace(s.body, InLoop(c));
    var st1 := Run(decl, Step(Open, st));
    var code := EmitSeq(s.body, InLoop(c), st1);
    SeqCodeIff(s.body, InLoop(c), st1);
    DeclaringFits(s.x, PLAIN, None, c, Step(Open, st));
    LoopOnly(code, body, c.depth, st1);
    FitsCat([], [XLoop(false, [], code, [])], decl, body, c.depth, Step(Open, st));
    assert [] + [XLoop(false, [], code, [])] == [XLoop(false, [], code, [])];
    ScopedBehind(EmitExpr(s.iter, st), [XLoop(false, [], code, [])], s.iter, decl + body, c, st);
    assert Uses(s.iter, c) + [Open] + decl + body + [Close] == Uses(s.iter, c) + ([Open] + (decl + body) + [Close]);
  }

  lemma {:induction false} LoopOnly(code: seq<Code>, body: seq<Event>, depth: nat, st: State)
    requires Disciplined(code, depth) <==> Holds(AllAllowed, body, st)
    ensures Fits([XLoop(false, [], code, [])], body, depth, st)
  {
    hide Holds;
    NoCode(depth);
    DisciplinedLoop(false, [], code, [], depth);
  }

  lemma {:induction false} UsingOnly(code: seq<Code>, body: seq<Event>, depth: nat, st: State)
    requires Disciplined(code, depth + 1) <==> Holds(AllAllowed, body, st)
    ensures Fits([XUsing(code)], body, depth, st)
  {
    hide Holds;
    DisciplinedOne(XUsing(code), depth);
  }

  /** An expression, then a scope of its own. */
  lemma {:induction false} ScopedBehind(first: seq<Code>, code: seq<Code>, e: Expr, trace: seq<Event>, c: Ctx, st: State)
    requires c.live && first == EmitExpr(e, st) && Fits(code, trace, c.depth, Step(Open, st))
    ensures Fits(first + code, Uses(e, c) + ([Open] + trace + [Close]), c.depth, st)
  {
    hide Fits;
    ExprFits(e, c, st);
    UsesStay(e, c, st);
    FitsScoped(code, trace, c.depth, st);
    FitsCat(first, code, Uses(e, c), [Open] + trace + [Close], c.depth, st);
  }

  lemma {:induction false} UsingFits(s: Stmt, c: Ctx, st: State)
    requires c.live && s.Using?
    ensures Fits(Emit(s, c, st), StmtTrace(s, c), c.depth, st)
    decreases s, 1
  {
    hide Fits, SeqTrace, Uses, HandleTrace, EmitSeq, EmitExpr;
    var decl, body := HandleTrace(s.handle, c), SeqTrace(s.body, InUsing(c));
    var st1 := Run(decl, Step(Open, st));
    var code := EmitSeq(s.body, InUsing(c), st1);
    SeqCodeIff(s.body, InUsing(c), st1);
    HandleFits(s.handle, c, Step(Open, st));
    UsingOnly(code, body, c.depth, st1);
    FitsCat([], [XUsing(code)], decl, body, c.depth, Step(Open, st));
    assert [] + [XUsing(code)] == [XUsing(code)];
    ScopedBehind(EmitExpr(s.resource, st), [XUsing(code)], s.resource, decl + body, c, st);
    assert Uses(s.resource, c) + [Open] + decl + body + [Close] == Uses(s.resource, c) + ([Open] + (decl + body) + [Close]);
  }

  lemma {:induction false} HandleFits(h: Option<Name>, c: Ctx, st: State)
    requires c.live
    ensures Fits([], HandleTrace(h, c), c.depth, st)
  {
    hide Fits, Declaring;
    if h.Some? { DeclaringFits(h.value, PLAIN, None, c, st); } else { FitsNothing(c.depth, st); }
  }

  lemma {:induction false} CForFits(s: Stmt, c: Ctx, st: State)
    requires c.live && s.CFor?
    ensures Fits(Emit(s, c, st), StmtTrace(s, c), c.depth, st)
    decreases s, 1
  {
    hide Fits, SeqTrace, OptUses, EmitSeq, EmitOpt;
    var t, e, body, u := Agreement.FirstTrace(s, c), OptUses(s.cond, c), SeqTrace(s.body, InLoop(c)), OptUses(s.update, c);
    var st0, st1 := Step(Open, st), Started(s.first, c, st);
    var first := if s.first.None? then [] else Emit(s.first.value, c, st0);
    var code, update := EmitSeq(s.body, InLoop(c), st1), EmitOpt(s.update, Run(body, st1));
    if s.first.None? { FitsNothing(c.depth, st0); } else { StmtFits(s.first.value, c, st0); }
    hide StmtTrace;
    assert Run(t, st0) == st1;
    OptFits(s.cond, c, st1);
    OptFits(s.update, c, Run(body, st1));
    SeqCodeIff(s.body, InLoop(c), st1);
    LoopTrace(EmitOpt(s.cond, st1), code, update, e, body, u, c.depth, st1);
    var loop := [XLoop(false, EmitOpt(s.cond, st1), code, update)];
    FitsCat(first, loop, t, e + body + u, c.depth, st0);
    FitsScoped(first + loop, t + (e + body + u), c.depth, st);
    Agreement.CForTrace(s, c);
    assert [Open] + t + e + body + u + [Close] == [Open] + (t + (e + body + u)) + [Close];
  }

  lemma {:induction false} LoopTrace(cond: seq<Code>, code: seq<Code>, update: seq<Code>, e: seq<Event>, body: seq<Event>, u: seq<Event>, depth: nat, st: State)
    requires Run(e, st) == st && Fits(cond, e, depth, st) && Fits(update, u, depth, Run(body, st))
    requires Disciplined(code, depth) <==> Holds(AllAllowed, body, st)
    ensures Fits([XLoop(false, cond, code, update)], e + body + u, depth, st)
  {
    hide Disciplined, Holds;
    DisciplinedLoop(false, cond, code, update, depth);
    HoldsCat(AllAllowed, e + body, u, st);
    HoldsCat(AllAllowed, e, body, st);
    RunCat(e, body, st);
  }

  // ---- What the checker settles of that.

  /** One write the checker finds nothing wrong with. */
  lemma {:induction false} WriteRules(step: bool, x: Name, st: State, depth: nat)
    requires Ordered(st) && UseErrors(Find(st.scopes, x), Write(step, depth)) == 0
    ensures WriteHolds(AllAllowed, step, x, st, depth) <==> WriteHolds(Unchecked, step, x, st, depth)
    ensures Settled(st, x) ==> (WriteHolds(Unchecked, step, x, st, depth) <==> WriteHolds(StepsAllowed, step, x, st, depth))
  {
    AgreeIff(st, x);
  }

  lemma {:induction false} Rules(trace: seq<Event>, st: State)
    requires Ordered(st) && Errors(trace, st) == 0
    ensures Holds(AllAllowed, trace, st) <==> Holds(Unchecked, trace, st)
    ensures Holds(AllInScope, trace, st) ==> (Holds(Unchecked, trace, st) <==> Holds(StepsAllowed, trace, st))
    ensures AllSettled(trace, st) ==> Holds(AllInScope, trace, st)
    decreases |trace|
  {
    hide Ordered, Step, LastAllowed, Settled, Find;
    if trace != [] {
      StepOrdered(trace[0], st);
      Rules(trace[1..], Step(trace[0], st));
      if trace[0].Use? && trace[0].access.Write? { WriteRules(trace[0].access.step, trace[0].x, st, trace[0].access.depth); }
    }
  }

  /** A body in which the checker finds no error, whatever its names.  Its code has only allowed
      stores if and only if this holds of the writes the checker does not settle: those by `++` and
      `--`, and those of a name it resolves to another declaration than the code does.  Where every
      written name is settled only `++` and `--` remain. */
  lemma {:induction false} SeqDisciplined(ss: seq<Stmt>, c: Ctx, st: State)
    requires Ordered(st) && Errors(SeqTrace(ss, c), st) == 0
    ensures Disciplined(EmitSeq(ss, c, st), c.depth) <==> Holds(Unchecked, SeqTrace(ss, c), st)
    ensures Holds(AllInScope, SeqTrace(ss, c), st) ==> (Disciplined(EmitSeq(ss, c, st), c.depth) <==> Holds(StepsAllowed, SeqTrace(ss, c), st))
    ensures AllSettled(SeqTrace(ss, c), st) ==> Holds(AllInScope, SeqTrace(ss, c), st)
  {
    hide Disciplined, Holds, EmitSeq, SeqTrace;
    SeqCodeIff(ss, c, st);
    Rules(SeqTrace(ss, c), st);
  }

  // ---- Runs.

  /** A write, with how many `using` bodies are active. */
  datatype Written = Written(target: Attr, depth: nat)

  datatype How = Done | Left | Broke | Continued | Unfinished

  datatype Result = Result(log: seq<Written>, pos: nat, how: How)

  type Tape = nat -> bool

  function Prefixed(log: seq<Written>, r: Result): Result { r.(log := log + r.log) }

  /** The writes of a run up to its end or until the fuel is used up; the tape decides every
      condition. */
  function RunSeq(code: seq<Code>, depth: nat, tape: Tape, pos: nat, prog: seq<seq<Code>>, fuel: nat): Result
    decreases fuel, code, 0
  {
    if code == [] then Result([], pos, Done)
    else
      var r := Run1(code[0], depth, tape, pos, prog, fuel);
      if r.how.Done? then Prefixed(r.log, RunSeq(code[1..], depth, tape, r.pos, prog, fuel)) else r
  }

  function Run1(c: Code, depth: nat, tape: Tape, pos: nat, prog: seq<seq<Code>>, fuel: nat): Result
    decreases fuel, c, 1
  {
    match c
    case XStore(a) => Result([Written(a, depth)], pos, Done)
    case XCall(f) =>
      if fuel == 0 then Result([], pos, Unfinished)
      else if f >= |prog| then Result([], pos, Done)
      else
        var r := RunSeq(prog[f], depth, tape, pos, prog, fuel - 1);
        if r.how.Unfinished? then r else r.(how := Done)
    case XReturn => Result([], pos, Left)
    case XBreak => Result([], pos, Broke)
    case XContinue => Result([], pos, Continued)
    case XIf(thn, els) => RunSeq(if tape(pos) then thn else els, depth, tape, pos + 1, prog, fuel)
    case XLoop(first, cond, body, update) => RunLoop(first, cond, body, update, depth, tape, pos, prog, fuel)
    case XUsing(body) => RunSeq(body, depth + 1, tape, pos, prog, fuel)
  }

  /** The test is left out the first time if the body comes first. */
  function RunLoop(skip: bool, cond: seq<Code>, body: seq<Code>, update: seq<Code>, depth: nat, tape: Tape, pos: nat, prog: seq<seq<Code>>, fuel: nat): Result
    decreases fuel, XLoop(skip, cond, body, update), 0
  {
    if fuel == 0 then Result([], pos, Unfinished)
    else
      var r := if skip then Result([], pos, Done) else RunSeq(cond, depth, tape, pos, prog, fuel - 1);
      if !r.how.Done? then r
      else if !skip && !tape(r.pos) then r.(pos := r.pos + 1)
      else
        var b := RunSeq(body, depth, tape, r.pos + 1, prog, fuel - 1);
        if b.how.Done? || b.how.Continued? then
          var u := RunSeq(update, depth, tape, b.pos, prog, fuel - 1);
          if u.how.Done? then Prefixed(r.log + b.log + u.log, RunLoop(false, cond, body, update, depth, tape, u.pos, prog, fuel - 1))
          else Prefixed(r.log + b.log, u)
        else Prefixed(r.log, if b.how.Broke? then b.(how := Done) else b)
  }

  predicate LogOk(log: seq<Written>) { forall i :: 0 <= i < |log| ==> Allowed(log[i].target, log[i].depth) }

  lemma {:induction false} LogCat(a: seq<Written>, b: seq<Written>)
    requires LogOk(a) && LogOk(b)
    ensures LogOk(a + b)
  {
    hide Allowed;
  }

  lemma {:induction false} RunSeqOk(code: seq<Code>, lexical: nat, depth: nat, tape: Tape, pos: nat, prog: seq<seq<Code>>, fuel: nat)
    requires Disciplined(code, lexical) && lexical <= depth && forall f :: 0 <= f < |prog| ==> Disciplined(prog[f], 0)
    ensures LogOk(RunSeq(code, depth, tape, pos, prog, fuel).log)
    decreases fuel, code, 0
  {
    hide Run1, Disciplined1, Allowed;
    if code != [] {
      Run1Ok(code[0], lexical, depth, tape, pos, prog, fuel);
      var r := Run1(code[0], depth, tape, pos, prog, fuel);
      if r.how.Done? { RunSeqOk(code[1..], lexical, depth, tape, r.pos, prog, fuel); }
    }
  }

  lemma {:induction false} Run1Ok(c: Code, lexical: nat, depth: nat, tape: Tape, pos: nat, prog: seq<seq<Code>>, fuel: nat)
    requires Disciplined1(c, lexical) && lexical <= depth && forall f :: 0 <= f < |prog| ==> Disciplined(prog[f], 0)
    ensures LogOk(Run1(c, depth, tape, pos, prog, fuel).log)
    decreases fuel, c, 1
  {
    hide Disciplined, RunSeq, RunLoop;
    match c
    case XCall(f) =>
      if fuel > 0 && f < |prog| { RunSeqOk(prog[f], 0, depth, tape, pos, prog, fuel - 1); }
    case XIf(thn, els) => RunSeqOk(if tape(pos) then thn else els, lexical, depth, tape, pos + 1, prog, fuel);
    case XLoop(first, cond, body, update) => RunLoopOk(first, cond, body, update, lexical, depth, tape, pos, prog, fuel);
    case XUsing(body) => RunSeqOk(body, lexical + 1, depth + 1, tape, pos, prog, fuel);
    case _ =>
  }

  lemma {:induction false} RunLoopOk(skip: bool, cond: seq<Code>, body: seq<Code>, update: seq<Code>, lexical: nat, depth: nat, tape: Tape, pos: nat, prog: seq<seq<Code>>, fuel: nat)
    requires Disciplined(cond, lexical) && Disciplined(body, lexical) && Disciplined(update, lexical) && lexical <= depth
    requires forall f :: 0 <= f < |prog| ==> Disciplined(prog[f], 0)
    ensures LogOk(RunLoop(skip, cond, body, update, depth, tape, pos, prog, fuel).log)
    decreases fuel, XLoop(skip, cond, body, update), 0
  {
    hide Disciplined, RunSeq, Allowed, LogOk;
    assert LogOk([]) by { NoLog(); }
    if fuel > 0 {
      if !skip { RunSeqOk(cond, lexical, depth, tape, pos, prog, fuel - 1); }
      var r := if skip then Result([], pos, Done) else RunSeq(cond, depth, tape, pos, prog, fuel - 1);
      if r.how.Done? && (skip || tape(r.pos)) {
        RunSeqOk(body, lexical, depth, tape, r.pos + 1, prog, fuel - 1);
        var b := RunSeq(body, depth, tape, r.pos + 1, prog, fuel - 1);
        LogCat(r.log, b.log);
        if b.how.Done? || b.how.Continued? {
          RunSeqOk(update, lexical, depth, tape, b.pos, prog, fuel - 1);
          var u := RunSeq(update, depth, tape, b.pos, prog, fuel - 1);
          LogCat(r.log + b.log, u.log);
          if u.how.Done? {
            RunLoopOk(false, cond, body, update, lexical, depth, tape, u.pos, prog, fuel - 1);
            LogCat(r.log + b.log + u.log, RunLoop(false, cond, body, update, depth, tape, u.pos, prog, fuel - 1).log);
          }
        }
      }
    }
  }

  lemma {:induction false} NoLog()
    ensures LogOk([])
  {
  }

  // ---- Programs.

  datatype Global = Global(x: Name, a: Attr)

  function GlobalsTrace(gs: seq<Global>): seq<Event> {
    if gs == [] then [] else Declaring(gs[0].x, gs[0].a, None, START) + GlobalsTrace(gs[1..])
  }

  const EMPTY := State([[]], [], 0, None)

  /** The global scope and the globals on the flat list. */
  function Start(gs: seq<Global>): State { Run(GlobalsTrace(gs), EMPTY) }

  function Inside(f: Func, st: State): State { Run([Open] + ParamsTrace(f.params), st) }

  /** After a function its scope is closed and its locals are taken off the flat list; its
      parameters stay there (src/codegen/decl.c:131-146). */
  function Past(f: Func, st: State): State { Step(Close, Inside(f, st)) }

  function ProgramErrors(fs: seq<Func>, st: State): nat
    decreases |fs|
  {
    if fs == [] then 0 else Errors(SeqTrace(fs[0].body, START), Inside(fs[0], st)) + ProgramErrors(fs[1..], Past(fs[0], st))
  }

  predicate ProgramHolds(r: Rule, fs: seq<Func>, st: State)
    decreases |fs|
  {
    fs == [] || (Holds(r, SeqTrace(fs[0].body, START), Inside(fs[0], st)) && ProgramHolds(r, fs[1..], Past(fs[0], st)))
  }

  function ProgramCode(fs: seq<Func>, st: State): (code: seq<seq<Code>>)
    ensures |code| == |fs|
    decreases |fs|
  {
    if fs == [] then [] else [EmitSeq(fs[0].body, START, Inside(fs[0], st))] + ProgramCode(fs[1..], Past(fs[0], st))
  }

  predicate AllDisciplined(prog: seq<seq<Code>>) { forall f :: 0 <= f < |prog| ==> Disciplined(prog[f], 0) }

  /** The same for a program: whatever names its functions and blocks share, its code is
      disciplined if and only if the writes the checker does not settle are. */
  lemma {:induction false} ProgramDisciplined(fs: seq<Func>, st: State)
    requires Ordered(st) && ProgramErrors(fs, st) == 0
    ensures AllDisciplined(ProgramCode(fs, st)) <==> ProgramHolds(Unchecked, fs, st)
    ensures ProgramHolds(AllInScope, fs, st) ==> (ProgramHolds(Unchecked, fs, st) <==> ProgramHolds(StepsAllowed, fs, st))
    decreases |fs|
  {
    hide Ordered, Step, Disciplined, Holds, Run, EmitSeq, SeqTrace;
    if fs != [] {
      RunOrdered([Open] + ParamsTrace(fs[0].params), st);
      StepOrdered(Close, Inside(fs[0], st));
      SeqDisciplined(fs[0].body, START, Inside(fs[0], st));
      ProgramDisciplined(fs[1..], Past(fs[0], st));
      AllCons(EmitSeq(fs[0].body, START, Inside(fs[0], st)), ProgramCode(fs[1..], Past(fs[0], st)));
    }
  }

  lemma {:induction false} AllCons(code: seq<Code>, rest: seq<seq<Code>>)
    ensures AllDisciplined([code] + rest) <==> Disciplined(code, 0) && AllDisciplined(rest)
  {
    hide Disciplined;
    var all := [code] + rest;
    if AllDisciplined(all) {
      assert all[0] == code;
      forall f | 0 <= f < |rest| ensures Disciplined(rest[f], 0) { assert all[f + 1] == rest[f]; }
    }
  }

  /** A program in which the checker finds no error and whose unsettled writes are allowed: no run,
      finished or not, writes a variable not declared `mut` after its declaration, and every write
      to a `shared mut` one happens while a `using` body is active. */
  lemma {:induction false} CheckedRuns(gs: seq<Global>, fs: seq<Func>, main: nat, tape: Tape, fuel: nat)
    requires ProgramErrors(fs, Start(gs)) == 0 && ProgramHolds(Unchecked, fs, Start(gs)) && main < |fs|
    ensures var log := RunSeq(ProgramCode(fs, Start(gs))[main], 0, tape, 0, ProgramCode(fs, Start(gs)), fuel).log;
      forall i :: 0 <= i < |log| ==> log[i].target.mut && (log[i].target.shd ==> log[i].depth > 0)
  {
    hide Ordered, ProgramCode, ProgramErrors, ProgramHolds, RunSeq, Disciplined;
    StartOrdered(gs);
    ProgramDisciplined(fs, Start(gs));
    RunSeqOk(ProgramCode(fs, Start(gs))[main], 0, 0, tape, 0, ProgramCode(fs, Start(gs)), fuel);
  }

  lemma {:induction false} StartOrdered(gs: seq<Global>)
    ensures Ordered(EMPTY) && Ordered(Start(gs))
  {
    assert Flat([[]]) == [];
    RunOrdered(GlobalsTrace(gs), EMPTY);
  }

  lemma {:induction false} SettledCat(a: seq<Event>, b: seq<Event>, st: State)
    ensures AllSettled(a + b, st) <==> AllSettled(a, st) && AllSettled(b, Run(a, st))
    decreases |a|
  {
    hide Step, Settled, Find;
    if a == [] {
      assert a + b == b;
    } else {
      assert (a + b)[1..] == a[1..] + b && (a + b)[0] == a[0];
      SettledCat(a[1..], b, Step(a[0], st));
    }
  }

  /** Where all names differ and no update of a C-style loop uses what is not compiled, nothing is
      left to ask but that `++` and `--` keep the rules. */
  lemma {:induction false} DistinctDisciplined(f: Func, st: State)
    requires Agreement.Ready(st) && Agreement.NoneHidden(st) && Agreement.SeqParsed(f.body) && Agreement.SeqUpdates(f.body, false)
    requires Agreement.NoRepeats(Agreement.NamesOf(st.flat) + Agreement.Declared(FuncTrace(f)))
    requires Errors(SeqTrace(f.body, START), Inside(f, st)) == 0
    ensures var body, st1 := SeqTrace(f.body, START), Inside(f, st);
      Disciplined(EmitSeq(f.body, START, st1), 0) <==> Holds(StepsAllowed, body, st1)
  {
    hide Disciplined, Holds, EmitSeq, SeqTrace, Agreement.NoneHidden, Agreement.NoRepeats, AllSettled, Errors, Ordered;
    var head, body := [Open] + ParamsTrace(f.params), SeqTrace(f.body, START);
    Agreement.FunctionAgrees(f, st);
    Agreement.ReadyOrdered(st);
    AllAgreeIff(FuncTrace(f), st);
    SettledCat(head + body, [Close], st);
    SettledCat(head, body, st);
    RunOrdered(head, st);
    SeqDisciplined(f.body, START, Inside(f, st));
  }

  // ---- What gets past the checker, and what does not though it looks it.

  /** One compiled write behind events that are no uses. */
  lemma {:induction false} LastWrite(pre: seq<Event>, x: Name, step: bool, st: State)
    requires forall i :: 0 <= i < |pre| ==> !pre[i].Use?
    ensures var st1, w := Run(pre, st), Use(x, Write(step, 0), true);
      && Errors(pre + [w], st) == UseErrors(Find(st1.scopes, x), w.access)
      && forall r :: Holds(r, pre + [w], st) <==> WriteHolds(r, step, x, st1, 0)
    decreases |pre|
  {
    hide Step, UseErrors, WriteHolds, Find;
    var all := pre + [Use(x, Write(step, 0), true)];
    if pre == [] {
      assert all[1..] == [];
    } else {
      assert all[0] == pre[0] && all[1..] == pre[1..] + [Use(x, Write(step, 0), true)];
      LastWrite(pre[1..], x, step, Step(pre[0], st));
    }
  }

  /** A body that makes declarations and ends in one write: what the checker says of it and whether
      its code is disciplined depend on what the two ways find there. */
  lemma {:induction false} OneWrite(body: seq<Stmt>, pre: seq<Event>, x: Name, step: bool, st: State, found: Entry, last: Entry)
    requires SeqTrace(body, START) == pre + [Use(x, Write(step, 0), true)] && forall i :: 0 <= i < |pre| ==> !pre[i].Use?
    requires Ordered(st) && Find(Run(pre, st).scopes, x) == Some(found) && FindIn(Run(pre, st).flat, x) == Some(last)
    ensures Errors(SeqTrace(body, START), st) == if step then 0 else WriteErrors(found.a, 0)
    ensures Disciplined(EmitSeq(body, START, st), 0) <==> Allowed(last.a, 0)
  {
    hide Disciplined, EmitSeq, SeqTrace, Run;
    LastWrite(pre, x, step, st);
    SeqCodeIff(body, START, st);
  }

  lemma {:induction false} MoreTrace(s: Stmt, ss: seq<Stmt>, c: Ctx)
    ensures SeqTrace([s] + ss, c) == StmtTrace(s, c) + SeqTrace(ss, Behind(s, c)) && SeqTrace([], c) == []
  {
    hide StmtTrace, Falls;
    assert ([s] + ss)[1..] == ss;
  }

  lemma {:induction false} DeclTrace(x: Name, a: Attr, c: Ctx)
    ensures StmtTrace(Decl(x, a, None), c) == [Declare(x, a, c.live), Bind] && Behind(Decl(x, a, None), c) == c
  {
  }

  lemma {:induction false} WriteTrace(x: Name, step: bool)
    ensures var e := if step then IncDec(x) else Assign(x, Const); SeqTrace([Do(e)], START) == [Use(x, Write(step, 0), true)]
  {
    var e := if step then IncDec(x) else Assign(x, Const);
    MoreTrace(Do(e), [], START);
    assert [Do(e)] + [] == [Do(e)];
    assert Uses(Const, START) == [];
    assert Uses(e, START) == [Use(x, Write(step, 0), true)];
  }

  /** `if (..) { x }` with `x` declared live, or `if (..) { return; x }`. */
  function Block(x: Name, a: Attr, live: bool): Stmt {
    If(Const, (if live then [] else [Return(None)]) + [Decl(x, a, None)], [])
  }

  function BlockEvents(x: Name, a: Attr, live: bool): seq<Event> {
    [Open, Declare(x, a, live), Bind] + [Close] + [Open, Close]
  }

  lemma {:induction false} BlockTrace(x: Name, a: Attr, live: bool)
    ensures StmtTrace(Block(x, a, live), START) == BlockEvents(x, a, live) && Behind(Block(x, a, live), START) == START
  {
    var d := Decl(x, a, None);
    var dead := START.(live := false);
    DeclTrace(x, a, START);
    DeclTrace(x, a, dead);
    MoreTrace(d, [], START);
    MoreTrace(d, [], dead);
    MoreTrace(Return(None), [d], START);
    assert [d] + [] == [d] && [] + [d] == [d];
    var body := (if live then [] else [Return(None)]) + [d];
    assert StmtTrace(Return(None), START) == [];
    assert SeqTrace(body, START) == [Declare(x, a, live), Bind];
    assert Scoped(body, START) == [Open, Declare(x, a, live), Bind] + [Close];
    assert Scoped([], START) == [Open, Close];
    assert Uses(Const, START) == [];
    assert [] + Scoped(body, START) + Scoped([], START) == BlockEvents(x, a, live);
  }

  lemma {:induction false} BlockRuns(st: State, x: Name, a: Attr, live: bool)
    ensures var e := Entry(x, st.next, a);
      Run(BlockEvents(x, a, live), st) == State(st.scopes, if live then st.flat + [e] else st.flat, st.next + 1, None)
  {
    var st1 := Run([Open, Declare(x, a, live), Bind], st);
    DeclaredIn(st, x, a, live);
    RunCat([Open, Declare(x, a, live), Bind] + [Close], [Open, Close], st);
    RunCat([Open, Declare(x, a, live), Bind], [Close], st);
    Agreement.OneEvent(Close, st1);
    assert Popped(st1.scopes) == st.scopes;
    var st2 := Step(Close, st1);
    assert [Open, Close][1..] == [Close];
    Agreement.OneEvent(Close, Step(Open, st2));
    assert Popped(st2.scopes + [[]]) == st2.scopes;
  }

  /** Inside a function without parameters. */
  const INSIDE := Step(Open, EMPTY)

  lemma {:induction false} OpenDeclared(st: State, x: Name, a: Attr)
    ensures var e := Entry(x, st.next, a);
      Run([Declare(x, a, true), Bind], Step(Open, st)) == State(st.scopes + [[e]], st.flat + [e], st.next + 1, None)
  {
    var decl := [Declare(x, a, true), Bind];
    DeclaredIn(st, x, a, true);
    RunCat([Open], decl, st);
    Agreement.OneEvent(Open, st);
    hide Run, Step;
    assert [Open] + decl == [Open, Declare(x, a, true), Bind];
  }

  lemma {:induction false} LastOf(es: seq<Entry>, e: Entry)
    ensures FindIn(es + [e], e.x) == Some(e)
  {
    assert (es + [e])[|es|] == e;
  }

  /** The function's own `x`. */
  lemma {:induction false} FirstDeclared(x: Name, a: Attr)
    ensures var e, st1 := Entry(x, 0, a), Run([Declare(x, a, true), Bind], INSIDE);
      && st1 == State([[]] + [[e]], [e], 1, None) && Find(st1.scopes, x) == Some(e) && FindIn(st1.flat, x) == Some(e)
      && Ordered(INSIDE)
  {
    hide Run, Step, Ordered, Find, FindIn, Flat;
    var e := Entry(x, 0, a);
    StartOrdered([]);
    StepOrdered(Open, EMPTY);
    OpenDeclared(EMPTY, x, a);
    FindLatest([[]], e);
    LastOf([], e);
    assert [] + [e] == [e];
  }

  /** `++` gets past the checker: it writes a variable that is not `mut`. */
  lemma {:induction false} IncrementUnchecked(x: Name)
    ensures var body := [Decl(x, Attr(false, false), None), Do(IncDec(x))];
      Errors(SeqTrace(body, START), INSIDE) == 0 && !Disciplined(EmitSeq(body, START, INSIDE), 0)
  {
    var a, d := Attr(false, false), Decl(x, Attr(false, false), None);
    var body, pre := [d] + [Do(IncDec(x))], [Declare(x, a, true), Bind];
    MoreTrace(d, [Do(IncDec(x))], START);
    DeclTrace(x, a, START);
    WriteTrace(x, true);
    FirstDeclared(x, a);
    OneWrite(body, pre, x, true, INSIDE, Entry(x, 0, a), Entry(x, 0, a));
  }

  /** A second declaration of a name in one scope is dropped by the checker without an error, but
      it is the one the code writes. */
  lemma {:induction false} RepeatedNameUnchecked(x: Name)
    ensures var body := [Decl(x, Attr(true, false), None), Decl(x, Attr(false, false), None), Do(Assign(x, Const))];
      Errors(SeqTrace(body, START), INSIDE) == 0 && !Disciplined(EmitSeq(body, START, INSIDE), 0)
  {
    var a, b, w := Attr(true, false), Attr(false, false), Do(Assign(x, Const));
    var d1, d2 := Decl(x, a, None), Decl(x, b, None);
    hide SeqTrace, StmtTrace, Run, Step, Disciplined, EmitSeq, Ordered, Errors;
    MoreTrace(d1, [d2] + [w], START);
    MoreTrace(d2, [w], START);
    DeclTrace(x, a, START);
    DeclTrace(x, b, START);
    WriteTrace(x, false);
    FirstDeclared(x, a);
    var pre1, pre2 := [Declare(x, a, true), Bind], [Declare(x, b, true), Bind];
    var st1 := Run(pre1, INSIDE);
    RunCat(pre1, pre2, INSIDE);
    assert Has([Entry(x, 0, a)], x) by { assert [Entry(x, 0, a)][0].x == x; }
    SecondDeclared(x, b, st1);
    assert pre1 + pre2 + [Use(x, Write(false, 0), true)] == pre1 + (pre2 + [Use(x, Write(false, 0), true)]);
    assert [d1] + ([d2] + [w]) == [d1, d2, w];
    OneWrite([d1, d2, w], pre1 + pre2, x, false, INSIDE, Entry(x, 0, a), Entry(x, 1, b));
  }

  lemma {:induction false} SecondDeclared(x: Name, b: Attr, st: State)
    requires st.scopes != [] && Has(st.scopes[|st.scopes| - 1], x)
    ensures var st1 := Run([Declare(x, b, true), Bind], st);
      st1.scopes == st.scopes && FindIn(st1.flat, x) == Some(Entry(x, st.next, b))
  {
    var e := Entry(x, st.next, b);
    assert [Declare(x, b, true), Bind][1..] == [Bind];
    Agreement.OneEvent(Bind, Step(Declare(x, b, true), st));
    assert (st.flat + [e])[|st.flat|] == e;
  }

  /** The same after a block that has ended: the declaration in it is the last one. */
  lemma {:induction false} ShadowedNameUnchecked(x: Name)
    ensures var body := [Decl(x, Attr(true, false), None), Block(x, Attr(false, false), true), Do(Assign(x, Const))];
      Errors(SeqTrace(body, START), INSIDE) == 0 && !Disciplined(EmitSeq(body, START, INSIDE), 0)
  {
    ShadowedBy(x, Attr(false, false), true);
  }

  /** But not if that declaration is behind a jump: then it is not compiled. */
  lemma {:induction false} DeadShadowHarmless(x: Name)
    ensures var body := [Decl(x, Attr(true, false), None), Block(x, Attr(false, false), false), Do(Assign(x, Const))];
      Errors(SeqTrace(body, START), INSIDE) == 0 && Disciplined(EmitSeq(body, START, INSIDE), 0)
  {
    ShadowedBy(x, Attr(false, false), false);
  }

  lemma {:induction false} ShadowedBy(x: Name, b: Attr, live: bool)
    ensures var body := [Decl(x, Attr(true, false), None), Block(x, b, live), Do(Assign(x, Const))];
      && Errors(SeqTrace(body, START), INSIDE) == 0
      && (Disciplined(EmitSeq(body, START, INSIDE), 0) <==> live ==> Allowed(b, 0))
  {
    var a, block, w := Attr(true, false), Block(x, b, live), Do(Assign(x, Const));
    var d, pre1, pre2 := Decl(x, a, None), [Declare(x, a, true), Bind], BlockEvents(x, b, live);
    hide SeqTrace, StmtTrace, Run, Step, Disciplined, EmitSeq, Ordered, Errors;
    MoreTrace(d, [block] + [w], START);
    MoreTrace(block, [w], START);
    DeclTrace(x, a, START);
    BlockTrace(x, b, live);
    WriteTrace(x, false);
    FirstDeclared(x, a);
    var st1 := Run(pre1, INSIDE);
    RunCat(pre1, pre2, INSIDE);
    BlockRuns(st1, x, b, live);
    assert pre1 + pre2 + [Use(x, Write(false, 0), true)] == pre1 + (pre2 + [Use(x, Write(false, 0), true)]);
    assert [d] + ([block] + [w]) == [d, block, w];
    var last := if live then Entry(x, 1, b) else Entry(x, 0, a);
    assert live ==> (st1.flat + [last])[1] == last;
    OneWrite([d, block, w], pre1 + pre2, x, false, INSIDE, Entry(x, 0, a), last);
  }

  /** And a `mut` declaration behind a jump does not make up for one that is compiled. */
  lemma {:induction false} DeadMutUnchecked(x: Name)
    ensures var body := [Decl(x, Attr(true, false), None), Block(x, Attr(false, false), true), Block(x, Attr(true, false), false), Do(Assign(x, Const))];
      Errors(SeqTrace(body, START), INSIDE) == 0 && !Disciplined(EmitSeq(body, START, INSIDE), 0)
  {
    var a, b, w := Attr(true, false), Attr(false, false), Do(Assign(x, Const));
    var block1, block2 := Block(x, b, true), Block(x, a, false);
    var d, pre1, pre2, pre3 := Decl(x, a, None), [Declare(x, a, true), Bind], BlockEvents(x, b, true), BlockEvents(x, a, false);
    hide SeqTrace, StmtTrace, Run, Step, Disciplined, EmitSeq, Ordered, Errors;
    MoreTrace(d, [block1] + ([block2] + [w]), START);
    MoreTrace(block1, [block2] + [w], START);
    MoreTrace(block2, [w], START);
    DeclTrace(x, a, START);
    BlockTrace(x, b, true);
    BlockTrace(x, a, false);
    WriteTrace(x, false);
    FirstDeclared(x, a);
    var st1 := Run(pre1, INSIDE);
    RunCat(pre1, pre2, INSIDE);
    BlockRuns(st1, x, b, true);
    RunCat(pre1 + pre2, pre3, INSIDE);
    BlockRuns(Run(pre2, st1), x, a, false);
    var u := [Use(x, Write(false, 0), true)];
    assert pre1 + pre2 + pre3 + u == pre1 + (pre2 + (pre3 + u));
    assert [d] + ([block1] + ([block2] + [w])) == [d, block1, block2, w];
    assert (st1.flat + [Entry(x, 1, b)])[1] == Entry(x, 1, b);
    OneWrite([d, block1, block2, w], pre1 + pre2 + pre3, x, false, INSIDE, Entry(x, 0, a), Entry(x, 1, b));
  }

  /** Two functions may share a parameter's name: the write in each reaches its own. */
  lemma {:induction false} SharedParameter(x: Name)
    ensures var f := Func([x], [Do(Assign(x, Const))]);
      ProgramErrors([f, f], EMPTY) == 0 && ProgramHolds(AllInScope, [f, f], EMPTY) && AllDisciplined(ProgramCode([f, f], EMPTY))
  {
    var f, st1 := Func([x], [Do(Assign(x, Const))]), Past(Func([x], [Do(Assign(x, Const))]), EMPTY);
    StartOrdered([]);
    InsideOne(x, EMPTY);
    InsideOne(x, st1);
    hide Step, Disciplined, Inside, Past, Holds, SeqTrace, Errors;
    assert [f, f][1..] == [f] && [f][1..] == [];
    assert ProgramErrors([f], st1) == 0;
    assert forall r :: r == AllInScope || r == StepsAllowed ==> ProgramHolds(r, [f], st1);
    ProgramDisciplined([f, f], EMPTY);
  }

  lemma {:induction false} InsideOne(x: Name, st: State)
    requires Ordered(st) && st.pending.None?
    ensures var f := Func([x], [Do(Assign(x, Const))]);
      && Errors(SeqTrace(f.body, START), Inside(f, st)) == 0
      && Holds(AllInScope, SeqTrace(f.body, START), Inside(f, st)) && Holds(StepsAllowed, SeqTrace(f.body, START), Inside(f, st))
      && Ordered(Past(f, st)) && Past(f, st).pending.None?
  {
    var f, e := Func([x], [Do(Assign(x, Const))]), Entry(x, st.next, PLAIN);
    var st1 := Inside(f, st);
    InsideState(x, st);
    RunOrdered([Open] + ParamsTrace([x]), st);
    StepOrdered(Close, st1);
    FindLatest(st.scopes, e);
    assert st1.flat[|st1.flat| - 1] == e;
    assert st1.pending.None? && Find(st1.scopes, x) == FindIn(st1.flat, x) == Some(e);
    hide Run, SeqTrace, Inside, Ordered, Find, FindIn, Flat, Settled;
    WriteTrace(x, false);
    var none: seq<Event> := [];
    LastWrite(none, x, false, st1);
    NoEvents(st1);
    assert none + [Use(x, Write(false, 0), true)] == [Use(x, Write(false, 0), true)];
    AgreeIff(st1, x);
  }

  lemma {:induction false} NoEvents(st: State)
    ensures Run([], st) == st
  {
  }

  lemma {:induction false} InsideState(x: Name, st: State)
    requires st.pending.None?
    ensures var e := Entry(x, st.next, PLAIN);
      Inside(Func([x], [Do(Assign(x, Const))]), st) == State(st.scopes + [[e]], st.flat + [e], st.next + 1, None)
  {
    assert [x][1..] == [] && ParamsTrace([x]) == [Declare(x, PLAIN, true)] + [] + [Bind] + [];
    assert [Open] + ParamsTrace([x]) == [Open, Declare(x, PLAIN, true), Bind];
    DeclaredIn(st, x, PLAIN, true);
  }

  // ---- The checker's own state and walk.

  class Checker {
    const scopes: ScopeStack
    /** Declarations met so far. */
    var next: nat
    var usingDepth: nat
    var errorCount: nat
    /** What the code generator will have registered. */
    ghost var flat: seq<Entry>

    constructor ()
      ensures fresh(scopes) && Model() == EMPTY && usingDepth == 0 && errorCount == 0
    {
      var s := new ScopeStack();
      s.Push();
      scopes, next, usingDepth, errorCount, flat := s, 0, 0, 0, [];
    }

    ghost function Model(): State
      reads this, scopes
    {
      State(scopes.scopes, flat, next, None)
    }

    method AddVar(x: Name, a: Attr, ghost live: bool)
      modifies this`next, this`flat, scopes
      ensures Model() == Step(Bind, Step(Declare(x, a, live), old(Model())))
      ensures Restored(old(scopes.scopes), scopes.scopes)
    {
      var e := Entry(x, next, a);
      flat, next := if live then flat + [e] else flat, next + 1;
      var added := scopes.AddVar(e);
    }

    method TcExpr(e: Expr, ghost c: Ctx)
      requires c.depth == usingDepth
      modifies this`errorCount
      ensures errorCount == old(errorCount) + Errors(Uses(e, c), Model())
      decreases e
    {
      match e
      case Const =>
      case Var(x) =>
        ReadErrors(x, c, Model());
        TcIdent(x);
      case Op(l, r) =>
        UsesCat(l, Uses(r, c), c, Model());
        TcExpr(l, c);
        TcExpr(r, c);
      case Choice(d, a, b) =>
        assert Uses(d, c) + Uses(a, c) + Uses(b, c) == Uses(d, c) + (Uses(a, c) + Uses(b, c));
        UsesCat(d, Uses(a, c) + Uses(b, c), c, Model());
        UsesCat(a, Uses(b, c), c, Model());
        TcExpr(d, c);
        TcExpr(a, c);
        TcExpr(b, c);
      case Assign(x, value) =>
        AssignErrors(x, value, c, Model());
        TcIdent(x);
        TcExpr(value, c);
        TcTarget(x);
      case IncDec(x) =>
        StepErrors(x, c, Model());
        TcIdent(x);
      case Call(_) =>
      case Unseen(a) => TcExpr(a, c.(live := false));
    }

    method TcIdent(x: Name)
      modifies this`errorCount
      ensures errorCount == old(errorCount) + if Find(scopes.scopes, x).None? then 1 else 0
    {
      var found := scopes.LookupVar(x);
      if found.None? {
        errorCount := errorCount + 1;
      }
    }

    /** The part of an assignment that looks at the declaration. */
    method TcTarget(x: Name)
      modifies this`errorCount
      ensures var found := Find(scopes.scopes, x);
        errorCount == old(errorCount) + if found.Some? then WriteErrors(found.value.a, usingDepth) else 0
    {
      var found := scopes.LookupVar(x);
      if found.Some? {
        if !found.value.a.mut {
          errorCount := errorCount + 1;
        }
        if found.value.a.shd && found.value.a.mut && usingDepth == 0 {
          errorCount := errorCount + 1;
        }
      }
    }

    method TcOpt(e: Option<Expr>, ghost c: Ctx)
      requires c.depth == usingDepth
      modifies this`errorCount
      ensures errorCount == old(errorCount) + Errors(OptUses(e, c), Model())
    {
      if e.Some? {
        TcExpr(e.value, c);
      }
    }

    /** A declaration: its initialiser is visited before it is in scope. */
    method TcVarDecl(x: Name, a: Attr, init: Option<Expr>, ghost c: Ctx)
      requires c.depth == usingDepth
      modifies this, scopes
      ensures usingDepth == old(usingDepth) && Restored(old(scopes.scopes), scopes.scopes)
      ensures Went(Declaring(x, a, init, c), old(Model()), Model(), errorCount - old(errorCount))
    {
      DeclaringWent(x, a, init, c, Model());
      TcOpt(init, c);
      AddVar(x, a, c.live);
    }

    method TcBlock(ss: seq<Stmt>, ghost c: Ctx)
      requires c.depth == usingDepth
      modifies this, scopes
      ensures usingDepth == old(usingDepth) && Restored(old(scopes.scopes), scopes.scopes)
      ensures Went(SeqTrace(ss, c), old(Model()), Model(), errorCount - old(errorCount))
      decreases ss, 0
    {
      hide Went, Run, Errors, StmtTrace, Falls;
      ghost var start, ci, done := Model(), c, [];
      assert Went([], start, start, 0) by { NothingWent(start); }
      assert done + SeqTrace(ss, c) == SeqTrace(ss, c);
      for i := 0 to |ss|
        invariant usingDepth == old(usingDepth) == ci.depth && Restored(old(scopes.scopes), scopes.scopes)
        invariant Went(done, start, Model(), errorCount - old(errorCount)) && done + SeqTrace(ss[i..], ci) == SeqTrace(ss, c)
      {
        ghost var before, errors := Model(), errorCount;
        assert ss[i..] == [ss[i]] + ss[i + 1..];
        MoreTrace(ss[i], ss[i + 1..], ci);
        TcStmt(ss[i], ci);
        WentCat(done, StmtTrace(ss[i], ci), start, before, Model(), errors - old(errorCount), errorCount - errors);
        done, ci := done + StmtTrace(ss[i], ci), Behind(ss[i], ci);
      }
      assert ss[|ss|..] == [];
      NoTrace(ci);
      assert done + [] == done;
    }

    /** A block in a scope of its own. */
    method TcScoped(ss: seq<Stmt>, ghost c: Ctx)
      requires c.depth == usingDepth
      modifies this, scopes
      ensures usingDepth == old(usingDepth) && scopes.scopes == old(scopes.scopes)
      ensures Went(Scoped(ss, c), old(Model()), Model(), errorCount - old(errorCount))
      decreases ss, 1
    {
      hide Went, Run, Errors, SeqTrace;
      ghost var before := Model();
      scopes.Push();
      TcBlock(ss, c);
      ScopedWent(SeqTrace(ss, c), before, Model(), errorCount - old(errorCount));
      scopes.Pop();
      assert scopes.scopes == old(scopes.scopes);
    }

    /** A `switch` or `match`: each test is visited before its body. */
    method TcCases(e: Expr, arms: seq<Arm>, ghost c: Ctx)
      requires c.depth == usingDepth
      modifies this, scopes
      ensures usingDepth == old(usingDepth) && scopes.scopes == old(scopes.scopes)
      ensures Went(Uses(e, c) + TestsTrace(arms, c) + ArmsTrace(arms, c), old(Model()), Model(), errorCount - old(errorCount))
      decreases arms, 1
    {
      hide Went, Run, Errors, Scoped;
      ghost var start := Model();
      TcExpr(e, c);
      ghost var first := errorCount - old(errorCount);
      ghost var tests, bodies, doneT, doneB := 0, 0, [], [];
      NothingWent(start);
      for i := 0 to |arms|
        invariant usingDepth == old(usingDepth) && scopes.scopes == old(scopes.scopes)
        invariant errorCount == old(errorCount) + first + tests + bodies
        invariant Went(doneT, start, start, tests) && doneT + TestsTrace(arms[i..], c) == TestsTrace(arms, c)
        invariant Went(doneB, start, Model(), bodies) && doneB + ArmsTrace(arms[i..], c) == ArmsTrace(arms, c)
      {
        ghost var before, errors := Model(), errorCount;
        assert arms[i..][0] == arms[i] && arms[i..][1..] == arms[i + 1..];
        TcOpt(arms[i].test, c);
        OptWent(arms[i].test, c, before, start, errorCount - errors);
        WentCat(doneT, OptUses(arms[i].test, c), start, start, start, tests, errorCount - errors);
        tests, doneT := tests + (errorCount - errors), doneT + OptUses(arms[i].test, c);
        errors := errorCount;
        TcScoped(arms[i].body, c);
        WentCat(doneB, Scoped(arms[i].body, c), start, before, Model(), bodies, errorCount - errors);
        bodies, doneB := bodies + (errorCount - errors), doneB + Scoped(arms[i].body, c);
      }
      assert arms[|arms|..] == [];
      NoTrace(c);
      assert doneT + [] == doneT && doneB + [] == doneB;
      ExprWent(e, c, start, first);
      WentCat(Uses(e, c), doneT, start, start, start, first, tests);
      WentCat(Uses(e, c) + doneT, doneB, start, start, Model(), first + tests, bodies);
    }

    method TcFor(x: Name, iter: Expr, body: seq<Stmt>, ghost c: Ctx)
      requires c.depth == usingDepth
      modifies this, scopes
      ensures usingDepth == old(usingDepth) && scopes.scopes == old(scopes.scopes)
      ensures Went(StmtTrace(For(x, iter, body), c), old(Model()), Model(), errorCount - old(errorCount))
      decreases body, 1
    {
      hide Went, Run, Errors, SeqTrace, Declaring;
      ghost var start := Model();
      TcExpr(iter, c);
      ExprWent(iter, c, start, errorCount - old(errorCount));
      ghost var e0 := errorCount;
      scopes.Push();
      ghost var st0 := Model();
      DeclaringWent(x, PLAIN, None, c, st0);
      NoInit(x, c, st0);
      AddVar(x, PLAIN, c.live);
      ghost var st1 := Model();
      TcBlock(body, InLoop(c));
      ghost var decl, inner := Declaring(x, PLAIN, None, c), SeqTrace(body, InLoop(c));
      InnerWent(Uses(iter, c), decl, inner, start, st1, Model(), e0 - old(errorCount), errorCount - e0);
      scopes.Pop();
      assert scopes.scopes == old(scopes.scopes);
    }

    method TcHandle(handle: Option<Name>, ghost c: Ctx)
      modifies this`next, this`flat, scopes
      ensures Restored(old(scopes.scopes), scopes.scopes) && Went(HandleTrace(handle, c), old(Model()), Model(), 0)
    {
      hide Declaring;
      ghost var start := Model();
      NothingWent(start);
      if handle.Some? {
        DeclaringWent(handle.value, PLAIN, None, c, start);
        NoInit(handle.value, c, start);
        AddVar(handle.value, PLAIN, c.live);
      }
    }

    method TcUsing(resource: Expr, handle: Option<Name>, exits: bool, body: seq<Stmt>, ghost c: Ctx)
      requires c.depth == usingDepth
      modifies this, scopes
      ensures usingDepth == old(usingDepth) && scopes.scopes == old(scopes.scopes)
      ensures Went(StmtTrace(Using(resource, handle, exits, body), c), old(Model()), Model(), errorCount - old(errorCount))
      decreases body, 1
    {
      hide Went, Run, Errors, SeqTrace, HandleTrace;
      ghost var start := Model();
      TcExpr(resource, c);
      ExprWent(resource, c, start, errorCount - old(errorCount));
      ghost var e0 := errorCount;
      usingDepth := usingDepth + 1;
      scopes.Push();
      TcHandle(handle, c);
      ghost var st1 := Model();
      TcBlock(body, InUsing(c));
      ghost var decl, inner := HandleTrace(handle, c), SeqTrace(body, InUsing(c));
      InnerWent(Uses(resource, c), decl, inner, start, st1, Model(), e0 - old(errorCount), errorCount - e0);
      scopes.Pop();
      usingDepth := usingDepth - 1;
      assert scopes.scopes == old(scopes.scopes);
    }

    method TcCStyleFor(first: Option<Stmt>, cond: Option<Expr>, update: Option<Expr>, body: seq<Stmt>, ghost c: Ctx)
      requires c.depth == usingDepth
      modifies this, scopes
      ensures usingDepth == old(usingDepth) && scopes.scopes == old(scopes.scopes)
      ensures Went(StmtTrace(CFor(first, cond, update, body), c), old(Model()), Model(), errorCount - old(errorCount))
      decreases CFor(first, cond, update, body), 0
    {
      hide Went, Run, Errors, SeqTrace, OptUses;
      ghost var s := CFor(first, cond, update, body);
      ghost var start := Model();
      scopes.Push();
      ghost var st0 := Model();
      NothingWent(st0);
      if first.Some? {
        TcStmt(first.value, c);
      }
      ghost var st1, e1 := Model(), errorCount;
      TcOpt(cond, c);
      ghost var e2 := errorCount;
      TcBlock(body, InLoop(c));
      ghost var st2, e3 := Model(), errorCount;
      TcOpt(update, c);
      OptWent(cond, c, st1, st1, e2 - e1);
      OptWent(update, c, st2, st2, errorCount - e3);
      CForWent(s, c, start, st1, st2, e1 - old(errorCount), e2 - e1, e3 - e2, errorCount - e3);
      scopes.Pop();
      assert scopes.scopes == old(scopes.scopes);
    }

    method TcStmt(s: Stmt, ghost c: Ctx)
      requires c.depth == usingDepth
      modifies this, scopes
      ensures usingDepth == old(usingDepth) && Restored(old(scopes.scopes), scopes.scopes)
      ensures Went(StmtTrace(s, c), old(Model()), Model(), errorCount - old(errorCount))
      decreases s, 1
    {
      hide Went, Run, Errors, Scoped, SeqTrace, Declaring, Uses, OptUses, ArmsTrace, TestsTrace, HandleTrace;
      ghost var start := Model();
      NothingWent(start);
      match s
      case Decl(x, a, init) => TcVarDecl(x, a, init, c);
      case Do(e) =>
        TcExpr(e, c);
        ExprWent(e, c, start, errorCount - old(errorCount));
      case Return(v) =>
        TcOpt(v, c);
        OptWent(v, c, start, start, errorCount - old(errorCount));
      case Break =>
      case Continue =>
      case Unsafe(body) => TcBlock(body, c);
      case If(e, thn, els) =>
        TcExpr(e, c);
        ghost var e1 := errorCount;
        TcScoped(thn, c);
        ghost var st2, e2 := Model(), errorCount;
        TcScoped(els, c);
        ExprWent(e, c, start, e1 - old(errorCount));
        WentCat(Uses(e, c), Scoped(thn, c), start, start, st2, e1 - old(errorCount), e2 - e1);
        WentCat(Uses(e, c) + Scoped(thn, c), Scoped(els, c), start, st2, Model(), e2 - old(errorCount), errorCount - e2);
      case Cases(_, e, arms) => TcCases(e, arms, c);
      case While(e, body) =>
        TcExpr(e, c);
        ghost var e1 := errorCount;
        TcScoped(body, InLoop(c));
        ExprWent(e, c, start, e1 - old(errorCount));
        WentCat(Uses(e, c), Scoped(body, InLoop(c)), start, start, Model(), e1 - old(errorCount), errorCount - e1);
      case DoWhile(body, e) =>
        TcScoped(body, InLoop(c));
        ghost var st1, e1 := Model(), errorCount;
        TcExpr(e, c);
        ExprWent(e, c, st1, errorCount - e1);
        WentCat(Scoped(body, InLoop(c)), Uses(e, c), start, st1, st1, e1 - old(errorCount), errorCount - e1);
      case For(x, iter, body) => TcFor(x, iter, body, c);
      case CFor(first, cond, update, body) => TcCStyleFor(first, cond, update, body, c);
      case Using(resource, handle, exits, body) => TcUsing(resource, handle, exits, body, c);
    }
  }

  /** The innermost scope may have grown. */
  predicate Restored(before: seq<seq<Entry>>, after: seq<seq<Entry>>) {
    |after| == |before| && (|before| > 0 ==> after[..|before| - 1] == before[..|before| - 1])
  }

  lemma {:induction false} UsesCat(e: Expr, rest: seq<Event>, c: Ctx, st: State)
    ensures Errors(Uses(e, c) + rest, st) == Errors(Uses(e, c), st) + Errors(rest, st)
  {
    UsesStay(e, c, st);
    ErrorsCat(Uses(e, c), rest, st);
  }

  lemma {:induction false} OneError(u: Event, st: State)
    requires u.Use?
    ensures Errors([u], st) == UseErrors(Find(st.scopes, u.x), u.access) && Run([u], st) == st
  {
    assert [u][1..] == [];
  }

  lemma {:induction false} ReadErrors(x: Name, c: Ctx, st: State)
    ensures Errors(Uses(Var(x), c), st) == if Find(st.scopes, x).None? then 1 else 0
  {
    OneError(Use(x, Read, c.live), st);
  }

  lemma {:induction false} StepErrors(x: Name, c: Ctx, st: State)
    ensures Errors(Uses(IncDec(x), c), st) == if Find(st.scopes, x).None? then 1 else 0
  {
    OneError(Use(x, Write(true, c.depth), c.live), st);
  }

  lemma {:induction false} AssignErrors(x: Name, a: Expr, c: Ctx, st: State)
    ensures Errors(Uses(Assign(x, a), c), st) == Errors(Uses(a, c), st)
      + match Find(st.scopes, x) case None => 1 case Some(e) => WriteErrors(e.a, c.depth)
  {
    var u := Use(x, Write(false, c.depth), c.live);
    OneError(u, st);
    ErrorsCat([u], Uses(a, c), st);
  }

  /** A walk over the events, and the errors it counts. */
  predicate Went(trace: seq<Event>, st: State, st1: State, errors: int) {
    st1 == Run(trace, st) && errors == Errors(trace, st)
  }

  lemma {:induction false} WentCat(a: seq<Event>, b: seq<Event>, st: State, st1: State, st2: State, n: int, k: int)
    requires Went(a, st, st1, n) && Went(b, st1, st2, k)
    ensures Went(a + b, st, st2, n + k)
  {
    RunCat(a, b, st);
    ErrorsCat(a, b, st);
  }

  lemma {:induction false} NothingWent(st: State)
    ensures Went([], st, st, 0)
  {
  }

  lemma {:induction false} ExprWent(e: Expr, c: Ctx, st: State, errors: int)
    requires errors == Errors(Uses(e, c), st)
    ensures Went(Uses(e, c), st, st, errors)
  {
    UsesStay(e, c, st);
  }

  /** Only the scopes count for expressions. */
  lemma {:induction false} OptWent(e: Option<Expr>, c: Ctx, st: State, st1: State, errors: int)
    requires errors == Errors(OptUses(e, c), st) && st1.scopes == st.scopes
    ensures Went(OptUses(e, c), st1, st1, errors)
  {
    Agreement.OptOnly(e, c);
    Agreement.UsesRun(OptUses(e, c), st1);
    SameErrors(OptUses(e, c), st, st1);
  }

  lemma {:induction false} SameErrors(trace: seq<Event>, st: State, st1: State)
    requires Agreement.OnlyUses(trace) && st1.scopes == st.scopes
    ensures Errors(trace, st1) == Errors(trace, st)
    decreases |trace|
  {
    if trace != [] {
      SameErrors(trace[1..], st, st1);
    }
  }

  lemma {:induction false} ScopedWent(trace: seq<Event>, st: State, st1: State, errors: int)
    requires Went(trace, Step(Open, st), st1, errors)
    ensures Went([Open] + trace + [Close], st, Step(Close, st1), errors)
  {
    var st0 := Step(Open, st);
    MarkWent(Open, st);
    MarkWent(Close, st1);
    WentCat([Open], trace, st, st0, st1, 0, errors);
    WentCat([Open] + trace, [Close], st, st1, Step(Close, st1), errors, 0);
  }

  /** An expression, then a scope with a declaration and statements. */
  lemma {:induction false} InnerWent(first: seq<Event>, decl: seq<Event>, inner: seq<Event>, st: State, st1: State, st2: State, n: int, k: int)
    requires Went(first, st, st, n) && Went(decl, Step(Open, st), st1, 0) && Went(inner, st1, st2, k)
    ensures Went(first + [Open] + decl + inner + [Close], st, Step(Close, st2), n + k)
  {
    hide Went, Step;
    WentCat(decl, inner, Step(Open, st), st1, st2, 0, k);
    ScopedWent(decl + inner, st, st2, k);
    WentCat(first, [Open] + (decl + inner) + [Close], st, st, Step(Close, st2), n, k);
    assert first + [Open] + decl + inner + [Close] == first + ([Open] + (decl + inner) + [Close]);
  }

  /** The parts of a C-style loop. */
  lemma {:induction false} CForWent(s: Stmt, c: Ctx, st: State, st1: State, st2: State, n1: int, n2: int, n3: int, n4: int)
    requires s.CFor? && Went(Agreement.FirstTrace(s, c), Step(Open, st), st1, n1) && Went(OptUses(s.cond, c), st1, st1, n2)
    requires Went(SeqTrace(s.body, InLoop(c)), st1, st2, n3) && Went(OptUses(s.update, c), st2, st2, n4)
    ensures Went(StmtTrace(s, c), st, Step(Close, st2), n1 + n2 + n3 + n4)
  {
    hide Went, Step, SeqTrace, OptUses;
    var t, e, inner, u := Agreement.FirstTrace(s, c), OptUses(s.cond, c), SeqTrace(s.body, InLoop(c)), OptUses(s.update, c);
    Agreement.CForTrace(s, c);
    hide StmtTrace;
    WentCat(t, e, Step(Open, st), st1, st1, n1, n2);
    WentCat(t + e, inner, Step(Open, st), st1, st2, n1 + n2, n3);
    WentCat(t + e + inner, u, Step(Open, st), st2, st2, n1 + n2 + n3, n4);
    ScopedWent(t + e + inner + u, st, st2, n1 + n2 + n3 + n4);
    assert [Open] + t + e + inner + u + [Close] == [Open] + (t + e + inner + u) + [Close];
  }

  lemma {:induction false} NoTrace(c: Ctx)
    ensures SeqTrace([], c) == [] && TestsTrace([], c) == [] && ArmsTrace([], c) == []
  {
  }

  lemma {:induction false} MarkWent(e: Event, st: State)
    requires !e.Use?
    ensures Went([e], st, Step(e, st), 0)
  {
    assert [e][1..] == [];
  }

  lemma {:induction false} DeclaringWent(x: Name, a: Attr, init: Option<Expr>, c: Ctx, st: State)
    ensures var st1 := Step(Bind, Step(Declare(x, a, c.live), st)); Went(Declaring(x, a, init, c), st, st1, Errors(OptUses(init, c), st))
  {
    var decl, uses := Declare(x, a, c.live), OptUses(init, c);
    var st0 := Step(decl, st);
    MarkWent(decl, st);
    OptWent(init, c, st, st0, Errors(uses, st));
    MarkWent(Bind, st0);
    WentCat([decl], uses, st, st0, st0, 0, Errors(uses, st));
    WentCat([decl] + uses, [Bind], st, st0, Step(Bind, st0), Errors(uses, st), 0);
  }

  lemma {:induction false} NoInit(x: Name, c: Ctx, st: State)
    ensures Errors(OptUses(None, c), st) == 0
  {
  }
}
