/** Instrumented code is exact: it computes the fragment's strings, never touches a dead object,
    and leaves every count equal to the number of references that remain. */

module ArcExact {
  import opened Options
  import opened Int64
  import opened Arc
  import opened ArcCode

  /** F-strings that make an object of their own; a single text or variable stays what it is. */
  predicate Owns(parts: seq<Part>) { |parts| >= 2 || parts == [PInt] || parts == [PBool] }

  /** The temporary of the argument owns an object. */
  predicate OwnsArg(a: Arg) { a.AFString? && Owns(a.parts) }

  /** What an argument comes down to when it makes no object: a literal or a variable. */
  function Simple(a: Arg): Arg {
    if a.AFString? && a.parts == [] then ALiteral("")
    else if a.AFString? && |a.parts| == 1 && a.parts[0].PText? then ALiteral(a.parts[0].s)
    else if a.AFString? && |a.parts| == 1 && a.parts[0].PVar? then AVar(a.parts[0].v)
    else a
  }

  /** An argument `j` the callee can do with: a literal, or a parameter that may be one, goes where
      literals may go, and a global is not assigned during the call. */
  predicate ArgPasses(a: Arg, j: nat, mine: Bound, callee: Bound) {
    match Simple(a)
    case ALiteral(_) => j in callee.plain
    case AVar(Local(_)) => true
    case AVar(Param(i)) => i in mine.plain ==> j in callee.plain
    case AVar(Global(g)) => g !in callee.writes
    case AFString(_) => true
  }

  predicate ArgsPass(args: seq<Arg>, first: nat, mine: Bound, callee: Bound) {
    forall j :: 0 <= j < |args| ==> ArgPasses(args[j], first + j, mine, callee)
  }

  /** Arguments that are f-strings are released after the call, so they must make an object. */
  predicate ArgsOwn(args: seq<Arg>) { forall j :: 0 <= j < |args| && args[j].AFString? ==> OwnsArg(args[j]) }

  predicate CallPasses(f: nat, args: seq<Arg>, mine: Bound, prog: seq<Fun>) {
    f < |prog| ==> prog[f].bound.writes <= mine.writes && ArgsPass(args, 0, mine, prog[f].bound)
  }

  predicate CallOk(f: nat, args: seq<Arg>, mine: Bound, prog: seq<Fun>) {
    CallPasses(f, args, mine, prog) && ArgsOwn(args)
  }

  predicate RhsOk(rhs: Rhs, mine: Bound, prog: seq<Fun>) {
    match rhs
    case Copy(_) => false
    case FString(parts) => Owns(parts)
    case CallString(f, args) => CallOk(f, args, mine, prog)
    case _ => true
  }

  /** The fragment that owns its references: a literal is not returned as it is, nor a parameter
      that may be one, a local is not returned by name, a result that is a string is not dropped, and
      a function assigns no global outside its summary. */
  predicate StmtOk(s: Stmt, mine: Bound, prog: seq<Fun>)
    decreases s
  {
    match s
    case Declare(rhs) => RhsOk(rhs, mine, prog)
    case Assign(v, rhs) => RhsOk(rhs, mine, prog) && (v.Global? ==> v.i in mine.writes)
    case Do(f, args) => CallOk(f, args, mine, prog) && (f < |prog| ==> !prog[f].owning)
    case If(thn, els) => AllOk(thn, mine, prog) && AllOk(els, mine, prog)
    case Loop(body) => AllOk(body, mine, prog)
    case Return(RBare) => false
    case Return(ROwned(rhs)) => RhsOk(rhs, mine, prog) && !rhs.Literal?
    case Return(RVar(v)) => !v.Local? && (v.Param? ==> v.i !in mine.plain)
    case _ => true
  }

  predicate AllOk(ss: seq<Stmt>, mine: Bound, prog: seq<Fun>)
    decreases ss
  {
    forall i :: 0 <= i < |ss| ==> StmtOk(ss[i], mine, prog)
  }

  predicate SeqOk(ss: seq<Stmt>, top: bool, mine: Bound, prog: seq<Fun>) { AllShallow(ss, top) && AllOk(ss, mine, prog) }

  /** Every function is of the fragment and its summary fits. */
  predicate ProgramOk(prog: seq<Fun>) {
    forall i :: 0 <= i < |prog| ==> SeqOk(prog[i].body, true, prog[i].bound, prog)
  }

  /** What a function runs in: the references from outside, and its own summary. */
  datatype World = World(refs: seq<Ptr>, bound: Bound)

  /** A pointer to a live object with this text. */
  predicate Holds(h: Heap, p: Ptr, text: string) {
    p.Obj? && Content(h, p) == Some(text)
  }

  function RefsOf(m: Mach, outside: World, temps: seq<Ptr>): Refs {
    Refs(outside.refs, temps, m.locals, m.globals)
  }

  /** The slots hold the strings of the variables.  Slots past the declared ones are empty. */
  predicate LocalsShow(locals: seq<string>, m: Mach) {
    && |locals| <= |m.locals|
    && forall i :: 0 <= i < |m.locals| ==> if i < |locals| then Holds(m.heap, m.locals[i], locals[i]) else m.locals[i] == Null
  }

  predicate GlobalsShow(globals: seq<Option<string>>, m: Mach) {
    && |m.globals| == |globals|
    && forall i :: 0 <= i < |m.globals| ==>
       if globals[i].Some? then Holds(m.heap, m.globals[i], globals[i].value) else m.globals[i] == Null
  }

  /** Some global that is not assigned holds the pointer. */
  predicate Frozen(p: Ptr, globals: seq<Ptr>, writes: set<nat>) {
    exists g :: 0 <= g < |globals| && g !in writes && globals[g] == p
  }

  /** A parameter is a constant where that is allowed, or an object that something other than the
      function's own locals keeps for as long as it runs. */
  predicate Lent(p: Ptr, j: nat, globals: seq<Ptr>, outside: World) {
    match p
    case Null => false
    case Static(_) => j in outside.bound.plain
    case Obj(o) => Count(outside.refs, o) > 0 || Frozen(p, globals, outside.bound.writes)
  }

  /** Parameters are borrowed. */
  predicate ParamsShow(params: seq<string>, m: Mach, ps: seq<Ptr>, outside: World) {
    && |ps| == |params|
    && forall i :: 0 <= i < |ps| ==> Content(m.heap, ps[i]) == Some(params[i]) && Lent(ps[i], i, m.globals, outside)
  }

  predicate Shows(s: Src, params: seq<string>, m: Mach, ps: seq<Ptr>, outside: World) {
    && m.pos == s.pos
    && LocalsShow(s.locals, m) && GlobalsShow(s.globals, m) && ParamsShow(params, m, ps, outside)
  }

  /** From one machine state to a later one: what stays keeps its text, and globals outside the
      summary keep their slots. */
  predicate Later(outside: World, m: Mach, m1: Mach) {
    && Keeps(m.heap, m1.heap) && |m1.globals| == |m.globals|
    && forall g :: 0 <= g < |m.globals| && g !in outside.bound.writes ==> m1.globals[g] == m.globals[g]
  }

  lemma LaterTrans(outside: World, m: Mach, m1: Mach, m2: Mach)
    requires Later(outside, m, m1) && Later(outside, m1, m2)
    ensures Later(outside, m, m2)
  {
    Arc.KeepsTrans(m.heap, m1.heap, m2.heap);
  }

  lemma SameLater(outside: World, m: Mach, m1: Mach)
    requires Keeps(m.heap, m1.heap) && m1.globals == m.globals
    ensures Later(outside, m, m1)
  {
  }

  /** The machine is where the meaning is and every count is exact; `temps` are the temporaries
      that own their object. */
  ghost predicate Tied(s: Src, params: seq<string>, m: Mach, ps: seq<Ptr>, outside: World, temps: seq<Ptr>) {
    Balanced(m.heap, RefsOf(m, outside, temps)) && Shows(s, params, m, ps, outside)
  }

  /** Reading a variable. */
  lemma SlotTied(v: Var, s: Src, params: seq<string>, m: Mach, ps: seq<Ptr>, outside: World, temps: seq<Ptr>)
    requires Tied(s, params, m, ps, outside, temps) && ValueOf(v, params, s).Some?
    ensures Slot(v, ps, m).Some? && Content(m.heap, Slot(v, ps, m).value) == Some(ValueOf(v, params, s).value)
    ensures var p := Slot(v, ps, m).value;
      match v
      case Local(_) => p.Obj? && Count(m.locals, p.id) > 0
      case Param(i) => Lent(p, i, m.globals, outside)
      case Global(g) => p.Obj? && g < |m.globals| && m.globals[g] == p
    ensures var p := Slot(v, ps, m).value; p.Obj? ==> Count(outside.refs, p.id) + Count(m.locals, p.id) + Count(m.globals, p.id) > 0
  {
    hide Balanced;
    match v
    case Local(i) => CountAt(m.locals, i);
    case Param(i) => if ps[i].Obj? { LentLives(ps[i], i, m.globals, outside); }
    case Global(i) => CountAt(m.globals, i);
  }

  lemma LentLives(p: Ptr, j: nat, globals: seq<Ptr>, outside: World)
    requires Lent(p, j, globals, outside) && p.Obj?
    ensures Count(outside.refs, p.id) + Count(globals, p.id) > 0
  {
    if Count(outside.refs, p.id) == 0 {
      var g :| 0 <= g < |globals| && g !in outside.bound.writes && globals[g] == p;
      CountAt(globals, g);
    }
  }

  /** The heap changed but everything the slots refer to is still there. */
  lemma ShowsLater(s: Src, params: seq<string>, m: Mach, m1: Mach, ps: seq<Ptr>, outside: World, temps: seq<Ptr>)
    requires Shows(s, params, m, ps, outside) && Keeps(m.heap, m1.heap) && Balanced(m1.heap, RefsOf(m1, outside, temps))
    requires m1.locals == m.locals && m1.globals == m.globals && m1.pos == m.pos
    ensures Tied(s, params, m1, ps, outside, temps)
  {
    var r := RefsOf(m1, outside, temps);
    forall i | 0 <= i < |m.locals| && m.locals[i].Obj? ensures m.locals[i].id in m1.heap.objects {
      CountAt(m.locals, i);
      assert Total(r, m.locals[i].id) > 0;
    }
    forall i | 0 <= i < |m.globals| && m.globals[i].Obj? ensures m.globals[i].id in m1.heap.objects {
      CountAt(m.globals, i);
      assert Total(r, m.globals[i].id) > 0;
    }
    forall i | 0 <= i < |ps| && ps[i].Obj? ensures ps[i].id in m1.heap.objects {
      LentLives(ps[i], i, m.globals, outside);
      assert Total(r, ps[i].id) > 0;
    }
  }

  /** A fresh temporary. */
  lemma FreshTied(s: Src, params: seq<string>, m: Mach, ps: seq<Ptr>, outside: World, temps: seq<Ptr>, text: string)
    requires Tied(s, params, m, ps, outside, temps)
    ensures var m1 := Fresh(m, text);
      && Tied(s, params, m1, ps, outside, temps + [Obj(m.heap.next)])
      && Holds(m1.heap, Obj(m.heap.next), text) && m.heap.next !in m.heap.objects && Keeps(m.heap, m1.heap)
      && (forall o :: o in m.heap.objects ==> o in m1.heap.objects)
  {
    hide Shows, Balanced;
    var r, r1 := RefsOf(m, outside, temps), RefsOf(m, outside, temps + [Obj(m.heap.next)]);
    forall o: nat ensures Total(r1, o) == Total(r, o) + if o == m.heap.next then 1 else 0 {
      CountSnoc(temps, Obj(m.heap.next), o);
    }
    AllocBalanced(m.heap, r, r1, text);
    ShowsLater(s, params, m, Fresh(m, text), ps, outside, temps + [Obj(m.heap.next)]);
  }

  /** Dropping the last owned temporary. */
  lemma ReleaseTied(s: Src, params: seq<string>, m: Mach, ps: seq<Ptr>, outside: World, temps: seq<Ptr>, temps1: seq<Ptr>, p: nat)
    requires Tied(s, params, m, ps, outside, temps)
    requires forall o: nat :: Count(temps1, o) == Count(temps, o) - if o == p then 1 else 0
    ensures Release(m.heap, Obj(p)).Some?
    ensures var m1 := m.(heap := Release(m.heap, Obj(p)).value);
      && Tied(s, params, m1, ps, outside, temps1) && Keeps(m.heap, m1.heap)
      && (forall o :: o in m.heap.objects && o != p ==> o in m1.heap.objects)
  {
    hide Shows;
    var r, r1 := RefsOf(m, outside, temps), RefsOf(m, outside, temps1);
    assert Count(temps1, p) >= 0;
    ReleaseBalanced(m.heap, r, r1, p);
    ShowsLater(s, params, m, m.(heap := Release(m.heap, Obj(p)).value), ps, outside, temps1);
  }

  /** Operation lists run one after the other. */
  lemma {:induction false} OpsCat(a: seq<Op>, b: seq<Op>, ps: seq<Ptr>, m: Mach, tape: Tape, prog: seq<CFun>, fuel: nat)
    ensures ExecOps(a + b, ps, m, tape, prog, fuel) ==
      match ExecOps(a, ps, m, tape, prog, fuel)
      case Ok(m1) => ExecOps(b, ps, m1, tape, prog, fuel)
      case r => r
    decreases |a|
  {
    hide Exec;
    if a == [] {
      assert a + b == b;
    } else {
      assert (a + b)[0] == a[0] && (a + b)[1..] == a[1..] + b;
      var r := Exec(a[0], ps, m, tape, prog, fuel);
      if r.Ok? { OpsCat(a[1..], b, ps, r.value, tape, prog, fuel); }
    }
  }

  lemma OpsOne(op: Op, ps: seq<Ptr>, m: Mach, tape: Tape, prog: seq<CFun>, fuel: nat)
    ensures ExecOps([op], ps, m, tape, prog, fuel) == Exec(op, ps, m, tape, prog, fuel)
  {
    hide Exec;
    var r := Exec(op, ps, m, tape, prog, fuel);
    if r.Ok? {
      assert ExecOps([op][1..], ps, r.value, tape, prog, fuel) == r;
    }
  }

  /** What running operations may do to the heap: nothing in use changes its text. */
  predicate Grows(m: Mach, m1: Mach) {
    m.temps <= m1.temps && m1.locals == m.locals && Keeps(m.heap, m1.heap)
  }

  lemma {:induction false} CountCat(a: seq<Ptr>, b: seq<Ptr>, o: nat)
    ensures Count(a + b, o) == Count(a, o) + Count(b, o)
    decreases |b|
  {
    if b == [] {
      assert a + b == a;
    } else {
      assert (a + b)[..|a + b| - 1] == a + b[..|b| - 1];
      CountCat(a, b[..|b| - 1], o);
    }
  }

  /** An object a temporary owns is live and keeps its text. */
  lemma TempLives(s: Src, params: seq<string>, m: Mach, ps: seq<Ptr>, outside: World, temps: seq<Ptr>, o: nat)
    requires Tied(s, params, m, ps, outside, temps) && Count(temps, o) > 0
    ensures o in m.heap.objects
  {
    assert Total(RefsOf(m, outside, temps), o) > 0;
  }

  /** The temporaries that own their object while `e` is the value being built. */
  function Owning(temps: seq<Ptr>, e: Emitted, m: Mach): seq<Ptr> {
    if e.heap && e.t < |m.temps| then temps + [m.temps[e.t]] else temps
  }

  /** What `e` owns was allocated since state `m`. */
  predicate Young(e: Emitted, m: Mach, m1: Mach) {
    && m.heap.next <= m1.heap.next && m1.globals == m.globals
    && (e.heap ==> e.t < |m1.temps| && m1.temps[e.t].Obj? && m1.temps[e.t].id >= m.heap.next)
  }

  /** The operations of `e` have run: temporary `e.t` has the text. */
  ghost predicate Built(e: Emitted, text: string, s: Src, params: seq<string>, m: Mach, ps: seq<Ptr>, outside: World, temps: seq<Ptr>) {
    && |m.temps| == e.n && e.t < e.n
    && Content(m.heap, m.temps[e.t]) == Some(text)
    && (e.heap ==> m.temps[e.t].Obj?)
    && Tied(s, params, m, ps, outside, Owning(temps, e, m))
  }

  /** A variable's or a literal's value as a temporary. */
  lemma LoadTied(v: Var, s: Src, params: seq<string>, m: Mach, ps: seq<Ptr>, outside: World, temps: seq<Ptr>, tape: Tape, prog: seq<CFun>, fuel: nat)
    requires Tied(s, params, m, ps, outside, temps) && ValueOf(v, params, s).Some?
    ensures var r := ExecOps([OLoad(v)], ps, m, tape, prog, fuel);
      && Slot(v, ps, m).Some? && r == Ok(Push(m, Slot(v, ps, m).value))
      && Built(Emitted([OLoad(v)], |m.temps|, false, |m.temps| + 1), ValueOf(v, params, s).value, s, params, r.value, ps, outside, temps)
  {
    hide Balanced, ValueOf;
    SlotTied(v, s, params, m, ps, outside, temps);
    OpsOne(OLoad(v), ps, m, tape, prog, fuel);
  }

  lemma StaticTied(text: string, s: Src, params: seq<string>, m: Mach, ps: seq<Ptr>, outside: World, temps: seq<Ptr>, tape: Tape, prog: seq<CFun>, fuel: nat)
    requires Tied(s, params, m, ps, outside, temps)
    ensures var r := ExecOps([OStatic(text)], ps, m, tape, prog, fuel);
      && r == Ok(Push(m, Static(text)))
      && Built(Emitted([OStatic(text)], |m.temps|, false, |m.temps| + 1), text, s, params, r.value, ps, outside, temps)
  {
    hide Balanced;
    OpsOne(OStatic(text), ps, m, tape, prog, fuel);
  }

  lemma PartTied(p: Part, s: Src, params: seq<string>, m: Mach, ps: seq<Ptr>, outside: World, temps: seq<Ptr>, tape: Tape, prog: seq<CFun>, fuel: nat)
    requires Tied(s, params, m, ps, outside, temps) && PartValue(p, params, s, tape).Some?
    ensures var e, (text, pos) := EmitPart(p, |m.temps|), PartValue(p, params, s, tape).value;
      var r := ExecOps(e.ops, ps, m, tape, prog, fuel);
      && r.Ok? && Grows(m, r.value) && (forall o :: o in m.heap.objects ==> o in r.value.heap.objects)
      && Built(e, text, s.(pos := pos), params, r.value, ps, outside, temps) && Young(e, m, r.value)
  {
    hide Tied, ValueOf, Alloc, IntText, BoolText;
    TiedPos(s, params, m, ps, outside, temps);
    match p
    case PText(t) => StaticTied(t, s, params, m, ps, outside, temps, tape, prog, fuel);
    case PVar(v) => LoadTied(v, s, params, m, ps, outside, temps, tape, prog, fuel);
    case PInt =>
      OpsOne(OIntText, ps, m, tape, prog, fuel);
      NumberTied(s, params, m, ps, outside, temps, IntText(tape(s.pos)));
    case PBool =>
      OpsOne(OBoolText, ps, m, tape, prog, fuel);
      NumberTied(s, params, m, ps, outside, temps, BoolText(tape(s.pos)));
  }

  lemma TiedPos(s: Src, params: seq<string>, m: Mach, ps: seq<Ptr>, outside: World, temps: seq<Ptr>)
    requires Tied(s, params, m, ps, outside, temps)
    ensures m.pos == s.pos && Keeps(m.heap, m.heap) && Later(outside, m, m)
  {
  }

  /** A number from the tape becomes a fresh object. */
  lemma NumberTied(s: Src, params: seq<string>, m: Mach, ps: seq<Ptr>, outside: World, temps: seq<Ptr>, text: string)
    requires Tied(s, params, m, ps, outside, temps)
    ensures var m1 := Fresh(m.(pos := m.pos + 1), text);
      && Tied(s.(pos := s.pos + 1), params, m1, ps, outside, temps + [Obj(m.heap.next)])
      && Holds(m1.heap, Obj(m.heap.next), text) && Keeps(m.heap, m1.heap)
      && (forall o :: o in m.heap.objects ==> o in m1.heap.objects)
  {
    hide Balanced;
    FreshTied(s.(pos := s.pos + 1), params, m.(pos := m.pos + 1), ps, outside, temps, text);
  }

  function Owned(heap: bool, t: nat, m: Mach): seq<Ptr> {
    if heap && t < |m.temps| then [m.temps[t]] else []
  }

  /** A release that is emitted only for an owned temporary. */
  lemma ReleaseIfTied(heap: bool, t: nat, s: Src, params: seq<string>, m: Mach, ps: seq<Ptr>, outside: World, temps: seq<Ptr>, temps1: seq<Ptr>, tape: Tape, prog: seq<CFun>, fuel: nat)
    requires Tied(s, params, m, ps, outside, temps) && t < |m.temps| && (heap ==> m.temps[t].Obj?)
    requires forall o: nat :: Count(temps1, o) == Count(temps, o) - Count(Owned(heap, t, m), o)
    ensures var r := ExecOps(ReleaseIf(heap, t), ps, m, tape, prog, fuel);
      && r.Ok? && r.value.temps == m.temps && r.value.locals == m.locals && r.value.globals == m.globals && Keeps(m.heap, r.value.heap) && Tied(s, params, r.value, ps, outside, temps1)
  {
    hide Tied, Release, Keeps;
    if heap {
      OpsOne(ORelease(t), ps, m, tape, prog, fuel);
      forall o: nat ensures Count(temps1, o) == Count(temps, o) - if o == m.temps[t].id then 1 else 0 {
        assert Count([m.temps[t]], o) == Count([], o) + if m.temps[t] == Obj(o) then 1 else 0;
      }
      ReleaseTied(s, params, m, ps, outside, temps, temps1, m.temps[t].id);
    } else {
      forall o: nat ensures Count(temps1, o) == Count(temps, o) {
        assert Count([], o) == 0;
      }
      TiedSame(s, params, m, ps, outside, temps, temps1);
    }
  }

  /** Only how often each object occurs among the owners matters. */
  lemma TiedSame(s: Src, params: seq<string>, m: Mach, ps: seq<Ptr>, outside: World, temps: seq<Ptr>, temps1: seq<Ptr>)
    requires Tied(s, params, m, ps, outside, temps) && forall o: nat :: Count(temps1, o) == Count(temps, o)
    ensures Tied(s, params, m, ps, outside, temps1) && Keeps(m.heap, m.heap)
  {
    hide Shows;
    forall o: nat ensures Total(RefsOf(m, outside, temps1), o) == Total(RefsOf(m, outside, temps), o) { }
  }

  /** What a pointer shows is still there when the heap has only grown. */
  lemma ContentLater(h: Heap, h1: Heap, p: Ptr)
    requires Content(h, p).Some? && Keeps(h, h1) && (p.Obj? ==> p.id in h1.objects)
    ensures Content(h1, p) == Content(h, p)
  {
  }

  /** The concatenation of two temporaries that can be read. */
  lemma ConcatTied(a: nat, b: nat, t: string, u: string, s: Src, params: seq<string>, m: Mach, ps: seq<Ptr>, outside: World, temps: seq<Ptr>, tape: Tape, prog: seq<CFun>, fuel: nat)
    requires Tied(s, params, m, ps, outside, temps) && a < |m.temps| && b < |m.temps|
    requires Content(m.heap, m.temps[a]) == Some(t) && Content(m.heap, m.temps[b]) == Some(u)
    ensures ExecOps([OConcat(a, b)], ps, m, tape, prog, fuel) == Ok(Fresh(m, t + u))
    ensures Tied(s, params, Fresh(m, t + u), ps, outside, temps + [Obj(m.heap.next)])
    ensures Holds(Fresh(m, t + u).heap, Obj(m.heap.next), t + u) && Grows(m, Fresh(m, t + u))
  {
    hide Tied;
    OpsOne(OConcat(a, b), ps, m, tape, prog, fuel);
    FreshTied(s, params, m, ps, outside, temps, t + u);
  }

  /** The new part and the concatenation; both operands are still owned where they were. */
  lemma ConcatStep(e: Emitted, p: Part, text: string, s: Src, params: seq<string>, m: Mach, ps: seq<Ptr>, outside: World, temps: seq<Ptr>, tape: Tape, prog: seq<CFun>, fuel: nat)
    requires Built(e, text, s, params, m, ps, outside, temps) && PartValue(p, params, s, tape).Some?
    ensures var (u, pos) := PartValue(p, params, s, tape).value;
      var q := EmitPart(p, e.n);
      var r := ExecOps(q.ops + [OConcat(e.t, q.t)], ps, m, tape, prog, fuel);
      && r.Ok? && Grows(m, r.value) && r.value.globals == m.globals && q.t < q.n && |r.value.temps| == q.n + 1
      && var result := r.value.temps[q.n];
      && result.Obj? && result.id >= m.heap.next && Holds(r.value.heap, result, text + u)
      && (e.heap ==> r.value.temps[e.t].Obj?) && (q.heap ==> r.value.temps[q.t].Obj?)
      && Tied(s.(pos := pos), params, r.value, ps, outside, temps + Owned(e.heap, e.t, r.value) + Owned(q.heap, q.t, r.value) + [result])
  {
    hide Tied, PartValue, Exec, ExecOps, Alloc, Keeps, EmitPart;
    var (u, pos) := PartValue(p, params, s, tape).value;
    var q, s1 := EmitPart(p, e.n), s.(pos := pos);
    var own := Owning(temps, e, m);
    PartTied(p, s, params, m, ps, outside, own, tape, prog, fuel);
    var m1 := ExecOps(q.ops, ps, m, tape, prog, fuel).value;
    ContentLater(m.heap, m1.heap, m1.temps[e.t]);
    ConcatTied(e.t, q.t, text, u, s1, params, m1, ps, outside, Owning(own, q, m1), tape, prog, fuel);
    var m2 := Fresh(m1, text + u);
    OpsCat(q.ops, [OConcat(e.t, q.t)], ps, m, tape, prog, fuel);
    Arc.KeepsTrans(m.heap, m1.heap, m2.heap);
    assert Owning(own, q, m1) + [Obj(m1.heap.next)] == temps + Owned(e.heap, e.t, m2) + Owned(q.heap, q.t, m2) + [Obj(m1.heap.next)];
  }

  /** The releases after a concatenation take the operands' owners away and leave the result. */
  lemma TwoReleases(h1: bool, t1: nat, h2: bool, t2: nat, p: Ptr, text: string, s: Src, params: seq<string>, m: Mach, ps: seq<Ptr>, outside: World, temps: seq<Ptr>, tape: Tape, prog: seq<CFun>, fuel: nat)
    requires t1 < |m.temps| && t2 < |m.temps| && (h1 ==> m.temps[t1].Obj?) && (h2 ==> m.temps[t2].Obj?) && Holds(m.heap, p, text)
    requires Tied(s, params, m, ps, outside, temps + Owned(h1, t1, m) + Owned(h2, t2, m) + [p])
    ensures var r := ExecOps(ReleaseIf(h1, t1) + ReleaseIf(h2, t2), ps, m, tape, prog, fuel);
      && r.Ok? && Keeps(m.heap, r.value.heap) && r.value.temps == m.temps && r.value.locals == m.locals && r.value.globals == m.globals
      && Tied(s, params, r.value, ps, outside, temps + [p]) && Holds(r.value.heap, p, text)
  {
    hide Tied, Exec, ExecOps, Keeps, ReleaseIf, Owned;
    var old1, part := Owned(h1, t1, m), Owned(h2, t2, m);
    OwnersCount(temps, old1, part, [p], temps + old1 + part + [p]);
    ReleaseIfTied(h1, t1, s, params, m, ps, outside, temps + old1 + part + [p], temps + part + [p], tape, prog, fuel);
    var m1 := ExecOps(ReleaseIf(h1, t1), ps, m, tape, prog, fuel).value;
    SameOwned(h2, t2, m, m1);
    ReleaseIfTied(h2, t2, s, params, m1, ps, outside, temps + part + [p], temps + [p], tape, prog, fuel);
    var m2 := ExecOps(ReleaseIf(h2, t2), ps, m1, tape, prog, fuel).value;
    OpsCat(ReleaseIf(h1, t1), ReleaseIf(h2, t2), ps, m, tape, prog, fuel);
    StillHeld(text, s, params, m, m1, m2, ps, outside, temps + part + [p], temps + [p], p.id);
    Arc.KeepsTrans(m.heap, m1.heap, m2.heap);
  }

  lemma AppendTied(e: Emitted, p: Part, text: string, s: Src, params: seq<string>, m: Mach, ps: seq<Ptr>, outside: World, temps: seq<Ptr>, tape: Tape, prog: seq<CFun>, fuel: nat)
    requires Built(e, text, s, params, m, ps, outside, temps) && PartValue(p, params, s, tape).Some?
    ensures var (u, pos) := PartValue(p, params, s, tape).value;
      var r := ExecOps(StepOps(e, p), ps, m, tape, prog, fuel);
      r.Ok? && Grows(m, r.value) && Built(EmitAppend(e, p), text + u, s.(pos := pos), params, r.value, ps, outside, temps)
      && Young(EmitAppend(e, p), m, r.value)
  {
    hide Tied, PartValue, Exec, ExecOps, EmitPart, ReleaseIf, Owned;
    var (u, pos) := PartValue(p, params, s, tape).value;
    var q, s1 := EmitPart(p, e.n), s.(pos := pos);
    ConcatStep(e, p, text, s, params, m, ps, outside, temps, tape, prog, fuel);
    var head, tail := q.ops + [OConcat(e.t, q.t)], ReleaseIf(e.heap, e.t) + ReleaseIf(q.heap, q.t);
    var m2 := ExecOps(head, ps, m, tape, prog, fuel).value;
    TwoReleases(e.heap, e.t, q.heap, q.t, m2.temps[q.n], text + u, s1, params, m2, ps, outside, temps, tape, prog, fuel);
    OpsCat(head, tail, ps, m, tape, prog, fuel);
    assert StepOps(e, p) == head + tail;
    Arc.KeepsTrans(m.heap, m2.heap, ExecOps(tail, ps, m2, tape, prog, fuel).value.heap);
  }

  lemma SameOwned(heap: bool, t: nat, m: Mach, m1: Mach)
    requires m1.temps == m.temps
    ensures Owned(heap, t, m1) == Owned(heap, t, m)
  {
  }

  lemma StillHeld(text: string, s: Src, params: seq<string>, m2: Mach, m3: Mach, m4: Mach, ps: seq<Ptr>, outside: World, temps3: seq<Ptr>, temps4: seq<Ptr>, o: nat)
    requires Tied(s, params, m3, ps, outside, temps3) && Tied(s, params, m4, ps, outside, temps4)
    requires Holds(m2.heap, Obj(o), text) && Keeps(m2.heap, m3.heap) && Keeps(m3.heap, m4.heap)
    requires Count(temps3, o) > 0 && Count(temps4, o) > 0
    ensures Holds(m4.heap, Obj(o), text)
  {
    hide Tied;
    TempLives(s, params, m3, ps, outside, temps3, o);
    TempLives(s, params, m4, ps, outside, temps4, o);
  }

  /** The owners at the end of a step, counted object by object. */
  lemma OwnersCount(temps: seq<Ptr>, a: seq<Ptr>, b: seq<Ptr>, c: seq<Ptr>, all: seq<Ptr>)
    requires all == temps + a + b + c
    ensures forall o: nat :: Count(temps + b + c, o) == Count(all, o) - Count(a, o)
    ensures forall o: nat :: Count(temps + c, o) == Count(temps + b + c, o) - Count(b, o)
    ensures |c| == 1 && c[0].Obj? ==> Count(temps + b + c, c[0].id) > 0 && Count(temps + c, c[0].id) > 0
  {
    forall o: nat
      ensures Count(all, o) == Count(temps, o) + Count(a, o) + Count(b, o) + Count(c, o)
      ensures Count(temps + b + c, o) == Count(temps, o) + Count(b, o) + Count(c, o)
      ensures Count(temps + c, o) == Count(temps, o) + Count(c, o)
    {
      CountCat(temps, a, o); CountCat(temps + a, b, o); CountCat(temps + a + b, c, o);
      CountCat(temps, b, o); CountCat(temps + b, c, o); CountCat(temps, c, o);
    }
    if |c| == 1 && c[0].Obj? { CountAt(c, 0); }
  }

  lemma GrowsTrans(m: Mach, m1: Mach, m2: Mach)
    requires Grows(m, m1) && Grows(m1, m2)
    ensures Grows(m, m2)
  {
  }

  lemma YoungLater(e: Emitted, e1: Emitted, m: Mach, m1: Mach, m2: Mach)
    requires Young(e, m, m1) && Young(e1, m1, m2)
    ensures Young(e1, m, m2)
  {
  }

  lemma PartsUnfold(e: Emitted, parts: seq<Part>, params: seq<string>, s: Src, tape: Tape)
    requires parts != [] && FStringValue(parts, params, s, tape).Some?
    ensures EmitParts(e, parts) == EmitParts(EmitAppend(e, parts[0]), parts[1..]) && EmitAppend(e, parts[0]).ops == e.ops + StepOps(e, parts[0])
    ensures PartValue(parts[0], params, s, tape).Some?
    ensures var (u, pos) := PartValue(parts[0], params, s, tape).value;
      var rest := FStringValue(parts[1..], params, s.(pos := pos), tape);
      rest.Some? && FStringValue(parts, params, s, tape).value == (u + rest.value.0, rest.value.1)
  {
    hide StepOps, PartValue;
  }

  /** The parts after the first. */
  lemma {:induction false} PartsTied(e: Emitted, parts: seq<Part>, text: string, s: Src, params: seq<string>, m0: Mach, m: Mach, ps: seq<Ptr>, outside: World, temps: seq<Ptr>, tape: Tape, prog: seq<CFun>, fuel: nat) returns (ops: seq<Op>)
    requires Built(e, text, s, params, m, ps, outside, temps) && FStringValue(parts, params, s, tape).Some?
    requires Grows(m0, m) && Young(e, m0, m)
    ensures EmitParts(e, parts).ops == e.ops + ops
    ensures var (u, pos) := FStringValue(parts, params, s, tape).value;
      var r := ExecOps(ops, ps, m, tape, prog, fuel);
      && r.Ok? && Grows(m0, r.value) && Young(EmitParts(e, parts), m0, r.value)
      && Built(EmitParts(e, parts), text + u, s.(pos := pos), params, r.value, ps, outside, temps)
    decreases |parts|
  {
    hide Built, Grows, Young, PartValue, Exec, StepOps, EmitAppend;
    if parts == [] {
      ops := [];
      assert text + "" == text && e.ops + [] == e.ops && s.(pos := s.pos) == s;
    } else {
      PartsUnfold(e, parts, params, s, tape);
      hide EmitParts, FStringValue, ExecOps;
      var (u, pos) := PartValue(parts[0], params, s, tape).value;
      AppendTied(e, parts[0], text, s, params, m, ps, outside, temps, tape, prog, fuel);
      var step := StepOps(e, parts[0]);
      var m1 := ExecOps(step, ps, m, tape, prog, fuel).value;
      GrowsTrans(m0, m, m1);
      YoungLater(e, EmitAppend(e, parts[0]), m0, m, m1);
      var more := PartsTied(EmitAppend(e, parts[0]), parts[1..], text + u, s.(pos := pos), params, m0, m1, ps, outside, temps, tape, prog, fuel);
      ops := step + more;
      OpsCat(step, more, ps, m, tape, prog, fuel);
      assert e.ops + step + more == e.ops + (step + more);
      var (w, pos1) := FStringValue(parts[1..], params, s.(pos := pos), tape).value;
      assert text + u + w == text + (u + w);
    }
  }

  /** An f-string with an object of its own is its text in a fresh object with one owner; every
      intermediate text and converted number is freed and nothing borrowed changes its count. */
  lemma FStringTied(parts: seq<Part>, s: Src, params: seq<string>, m: Mach, ps: seq<Ptr>, outside: World, temps: seq<Ptr>, tape: Tape, prog: seq<CFun>, fuel: nat)
    requires Tied(s, params, m, ps, outside, temps) && Owns(parts) && FStringValue(parts, params, s, tape).Some?
    ensures var e, (text, pos) := EmitFString(parts, |m.temps|), FStringValue(parts, params, s, tape).value;
      var r := ExecOps(e.ops, ps, m, tape, prog, fuel);
      r.Ok? && e.heap && Grows(m, r.value) && Built(e, text, s.(pos := pos), params, r.value, ps, outside, temps)
      && Young(e, m, r.value)
  {
    hide Tied, PartValue, Exec, EmitParts, Keeps;
    OwnsIff(parts, |m.temps|);
    var first := EmitPart(parts[0], |m.temps|);
    var (t, pos) := PartValue(parts[0], params, s, tape).value;
    PartTied(parts[0], s, params, m, ps, outside, temps, tape, prog, fuel);
    var m1 := ExecOps(first.ops, ps, m, tape, prog, fuel).value;
    var ops := PartsTied(first, parts[1..], t, s.(pos := pos), params, m, m1, ps, outside, temps, tape, prog, fuel);
    OpsCat(first.ops, ops, ps, m, tape, prog, fuel);
  }

  /** The temporaries f-string arguments own. */
  function ArgOwners(args: seq<Arg>, ts: seq<nat>, temps: seq<Ptr>): seq<Ptr>
    requires |args| == |ts|
  {
    if args == [] then []
    else (if OwnsArg(args[0]) && ts[0] < |temps| then [temps[ts[0]]] else []) + ArgOwners(args[1..], ts[1..], temps)
  }

  /** What argument `j` is for the callee: a constant where that is allowed, or an object that will
      be kept during the call. */
  ghost predicate Passed(p: Ptr, text: string, j: nat, callee: Bound, m: Mach, outside: World, owners: seq<Ptr>) {
    && Content(m.heap, p) == Some(text)
    && (p.Static? ==> j in callee.plain)
    && (p.Obj? ==> Count(outside.refs, p.id) + Count(m.locals, p.id) + Count(owners, p.id) > 0 || Frozen(p, m.globals, callee.writes))
  }

  ghost predicate AllPassed(args: seq<Arg>, ts: seq<nat>, values: seq<string>, first: nat, callee: Bound, m: Mach, outside: World, owners: seq<Ptr>) {
    && |ts| == |values| == |args|
    && forall i :: 0 <= i < |ts| ==>
       (ts[i] < |m.temps| && Passed(m.temps[ts[i]], values[i], first + i, callee, m, outside, owners) && (OwnsArg(args[i]) ==> m.temps[ts[i]].Obj?))
  }

  /** An argument that makes no object is what it comes down to. */
  lemma SimpleSame(a: Arg, n: nat, params: seq<string>, s: Src, tape: Tape)
    requires !OwnsArg(a)
    ensures !Simple(a).AFString? && EmitArg(a, n) == EmitArg(Simple(a), n) && ArgValue(a, params, s, tape) == ArgValue(Simple(a), params, s, tape)
  {
    hide ValueOf;
    if a.AFString? && a.parts != [] {
      assert a.parts == [a.parts[0]] && a.parts[1..] == [];
      assert FStringValue([], params, s, tape) == Some(("", s.pos));
      if a.parts[0].PVar? && ValueOf(a.parts[0].v, params, s).Some? {
        var t := ValueOf(a.parts[0].v, params, s).value;
        assert t + "" == t && s.(pos := s.pos) == s;
      }
      if a.parts[0].PText? {
        assert a.parts[0].s + "" == a.parts[0].s && s.(pos := s.pos) == s;
      }
    }
  }

  /** A variable as an argument. */
  lemma VarPassed(v: Var, j: nat, callee: Bound, s: Src, params: seq<string>, m: Mach, ps: seq<Ptr>, outside: World, temps: seq<Ptr>)
    requires Tied(s, params, m, ps, outside, temps) && ValueOf(v, params, s).Some?
    requires callee.writes <= outside.bound.writes && ArgPasses(AVar(v), j, outside.bound, callee)
    ensures Slot(v, ps, m).Some? && Passed(Slot(v, ps, m).value, ValueOf(v, params, s).value, j, callee, m, outside, temps)
  {
    SlotTied(v, s, params, m, ps, outside, temps);
    hide Tied, ValueOf, Content;
    var p := Slot(v, ps, m).value;
    if v.Param? && p.Obj? && Count(outside.refs, p.id) == 0 {
      var g :| 0 <= g < |m.globals| && g !in outside.bound.writes && m.globals[g] == p;
      assert g !in callee.writes;
    }
  }

  lemma ArgTied(a: Arg, j: nat, callee: Bound, s: Src, params: seq<string>, m: Mach, ps: seq<Ptr>, outside: World, temps: seq<Ptr>, tape: Tape, prog: seq<CFun>, fuel: nat)
    requires Tied(s, params, m, ps, outside, temps) && ArgValue(a, params, s, tape).Some?
    requires callee.writes <= outside.bound.writes && ArgPasses(a, j, outside.bound, callee)
    ensures var e, (text, pos) := EmitArg(a, |m.temps|), ArgValue(a, params, s, tape).value;
      var r := ExecOps(e.ops, ps, m, tape, prog, fuel);
      && r.Ok? && e.heap == OwnsArg(a) && Grows(m, r.value) && r.value.globals == m.globals
      && Built(e, text, s.(pos := pos), params, r.value, ps, outside, temps)
      && Passed(r.value.temps[e.t], text, j, callee, r.value, outside, Owning(temps, e, r.value))
  {
    hide Tied, FStringValue, Exec, ValueOf, ArgPasses;
    TiedPos(s, params, m, ps, outside, temps);
    if OwnsArg(a) {
      hide Content;
      FStringTied(a.parts, s, params, m, ps, outside, temps, tape, prog, fuel);
      var e := EmitFString(a.parts, |m.temps|);
      var m1 := ExecOps(e.ops, ps, m, tape, prog, fuel).value;
      CountSnoc(temps, m1.temps[e.t], m1.temps[e.t].id);
    } else {
      SimpleSame(a, |m.temps|, params, s, tape);
      hide EmitFString;
      assert s.(pos := s.pos) == s;
      match Simple(a)
      case ALiteral(t) =>
        StaticTied(t, s, params, m, ps, outside, temps, tape, prog, fuel);
        assert j in callee.plain by { LiteralPasses(a, j, outside.bound, callee); }
      case AVar(v) =>
        assert ArgPasses(AVar(v), j, outside.bound, callee) by { SimplePasses(a, j, outside.bound, callee); }
        LoadTied(v, s, params, m, ps, outside, temps, tape, prog, fuel);
        VarPassed(v, j, callee, s, params, m, ps, outside, temps);
    }
  }

  lemma LiteralPasses(a: Arg, j: nat, mine: Bound, callee: Bound)
    requires ArgPasses(a, j, mine, callee) && Simple(a).ALiteral?
    ensures j in callee.plain
  {
  }

  lemma SimplePasses(a: Arg, j: nat, mine: Bound, callee: Bound)
    requires ArgPasses(a, j, mine, callee)
    ensures ArgPasses(Simple(a), j, mine, callee)
  {
  }

  /** An argument already evaluated is still good after more of them. */
  lemma PassedLater(p: Ptr, text: string, j: nat, callee: Bound, s: Src, params: seq<string>, m: Mach, m1: Mach, ps: seq<Ptr>, outside: World, owners: seq<Ptr>, owners1: seq<Ptr>)
    requires Passed(p, text, j, callee, m, outside, owners) && Keeps(m.heap, m1.heap) && m1.locals == m.locals && m1.globals == m.globals
    requires Tied(s, params, m1, ps, outside, owners1) && (forall o: nat :: Count(owners1, o) >= Count(owners, o))
    ensures Passed(p, text, j, callee, m1, outside, owners1)
  {
    if p.Obj? {
      if Frozen(p, m.globals, callee.writes) {
        var g :| 0 <= g < |m.globals| && g !in callee.writes && m.globals[g] == p;
        CountAt(m.globals, g);
      }
      assert Total(RefsOf(m1, outside, owners1), p.id) > 0;
    }
  }

  lemma {:induction false} ArgsTied(args: seq<Arg>, first: nat, callee: Bound, s: Src, params: seq<string>, m: Mach, ps: seq<Ptr>, outside: World, temps: seq<Ptr>, tape: Tape, prog: seq<CFun>, fuel: nat)
    requires Tied(s, params, m, ps, outside, temps) && ArgValues(args, params, s, tape).Some?
    requires callee.writes <= outside.bound.writes && ArgsPass(args, first, outside.bound, callee)
    ensures var e, (values, pos) := EmitArgs(args, |m.temps|), ArgValues(args, params, s, tape).value;
      var r := ExecOps(e.ops, ps, m, tape, prog, fuel);
      && r.Ok? && |e.ts| == |args| && |r.value.temps| == e.n && Grows(m, r.value) && r.value.globals == m.globals
      && Tied(s.(pos := pos), params, r.value, ps, outside, temps + ArgOwners(args, e.ts, r.value.temps))
      && AllPassed(args, e.ts, values, first, callee, r.value, outside, temps + ArgOwners(args, e.ts, r.value.temps))
    decreases |args|
  {
    hide Tied, ArgValue, Exec, Keeps, EmitArg, Passed, ArgPasses, OwnsArg;
    if args == [] {
      TiedPos(s, params, m, ps, outside, temps);
      assert temps + [] == temps;
    } else {
      var e := EmitArg(args[0], |m.temps|);
      var (text, pos) := ArgValue(args[0], params, s, tape).value;
      assert ArgPasses(args[0], first + 0, outside.bound, callee);
      ArgTied(args[0], first, callee, s, params, m, ps, outside, temps, tape, prog, fuel);
      var m1 := ExecOps(e.ops, ps, m, tape, prog, fuel).value;
      var own := Owning(temps, e, m1);
      var s1 := s.(pos := pos);
      forall j | 0 <= j < |args| - 1 ensures ArgPasses(args[1..][j], first + 1 + j, outside.bound, callee) {
        assert ArgPasses(args[j + 1], first + (j + 1), outside.bound, callee);
      }
      ArgsTied(args[1..], first + 1, callee, s1, params, m1, ps, outside, own, tape, prog, fuel);
      var more := EmitArgs(args[1..], e.n);
      var (values, pos1) := ArgValues(args[1..], params, s1, tape).value;
      var m2 := ExecOps(more.ops, ps, m1, tape, prog, fuel).value;
      OpsCat(e.ops, more.ops, ps, m, tape, prog, fuel);
      Arc.KeepsTrans(m.heap, m1.heap, m2.heap);
      ArgsSnocTied(args, first, callee, s1.(pos := pos1), params, e, text, values, more, m1, m2, ps, outside, temps);
    }
  }

  lemma ArgsSnocTied(args: seq<Arg>, first: nat, callee: Bound, s: Src, params: seq<string>, e: Emitted, text: string, values: seq<string>, more: EmittedArgs, m1: Mach, m2: Mach, ps: seq<Ptr>, outside: World, temps: seq<Ptr>)
    requires args != [] && |more.ts| == |args| - 1 && e.heap == OwnsArg(args[0])
    requires e.t < |m1.temps| && Grows(m1, m2) && m2.globals == m1.globals && (e.heap ==> m1.temps[e.t].Obj?)
    requires var own := Owning(temps, e, m1) + ArgOwners(args[1..], more.ts, m2.temps);
      && Passed(m1.temps[e.t], text, first, callee, m1, outside, Owning(temps, e, m1))
      && Tied(s, params, m2, ps, outside, own) && AllPassed(args[1..], more.ts, values, first + 1, callee, m2, outside, own)
    ensures var own := temps + ArgOwners(args, [e.t] + more.ts, m2.temps);
      Tied(s, params, m2, ps, outside, own) && AllPassed(args, [e.t] + more.ts, [text] + values, first, callee, m2, outside, own)
  {
    hide Tied, Passed, Keeps, OwnsArg, ArgOwners, Count;
    var mine := Owning(temps, e, m1);
    var rest := ArgOwners(args[1..], more.ts, m2.temps);
    var ts, all := [e.t] + more.ts, [text] + values;
    OwnersSnoc(args, e, more.ts, m1, m2, temps);
    forall o: nat ensures Count(mine + rest, o) >= Count(mine, o) { CountCat(mine, rest, o); }
    PassedLater(m1.temps[e.t], text, first, callee, s, params, m1, m2, ps, outside, mine, mine + rest);
    forall i | 0 < i < |ts|
      ensures ts[i] < |m2.temps| && Passed(m2.temps[ts[i]], all[i], first + i, callee, m2, outside, mine + rest)
      ensures OwnsArg(args[i]) ==> m2.temps[ts[i]].Obj?
    {
      assert args[1..][i - 1] == args[i] && more.ts[i - 1] == ts[i] && values[i - 1] == all[i];
      assert Passed(m2.temps[more.ts[i - 1]], values[i - 1], first + 1 + (i - 1), callee, m2, outside, mine + rest);
    }
  }

  lemma OwnersSnoc(args: seq<Arg>, e: Emitted, ts: seq<nat>, m1: Mach, m2: Mach, temps: seq<Ptr>)
    requires args != [] && |ts| == |args| - 1 && e.heap == OwnsArg(args[0]) && e.t < |m1.temps| && m1.temps <= m2.temps
    ensures temps + ArgOwners(args, [e.t] + ts, m2.temps) == Owning(temps, e, m1) + ArgOwners(args[1..], ts, m2.temps)
  {
    hide OwnsArg;
    assert ([e.t] + ts)[1..] == ts;
  }

  /** Texts of what is referred to are kept. */
  lemma HoldsLater(h: Heap, h1: Heap, r1: Refs, p: Ptr, text: string)
    requires Holds(h, p, text) && Keeps(h, h1) && Balanced(h1, r1) && Total(r1, p.id) > 0
    ensures Holds(h1, p, text)
  {
  }

  lemma LocalsLater(locals: seq<string>, m: Mach, m1: Mach, r1: Refs)
    requires LocalsShow(locals, m) && Keeps(m.heap, m1.heap) && m1.locals == m.locals
    requires Balanced(m1.heap, r1) && forall o: nat :: Total(r1, o) >= Count(m.locals, o)
    ensures LocalsShow(locals, m1)
  {
    hide Balanced, Keeps;
    forall i | 0 <= i < |locals| ensures Holds(m1.heap, m.locals[i], locals[i]) {
      CountAt(m.locals, i);
      HoldsLater(m.heap, m1.heap, r1, m.locals[i], locals[i]);
    }
  }

  lemma ParamsLater(params: seq<string>, m: Mach, m1: Mach, ps: seq<Ptr>, outside: World, r1: Refs)
    requires ParamsShow(params, m, ps, outside) && Later(outside, m, m1)
    requires Balanced(m1.heap, r1) && forall o: nat :: Total(r1, o) >= Count(outside.refs, o) && Total(r1, o) >= Count(m1.globals, o)
    ensures ParamsShow(params, m1, ps, outside)
  {
    hide Balanced, Keeps, Content;
    forall i | 0 <= i < |ps| ensures Content(m1.heap, ps[i]) == Some(params[i]) && Lent(ps[i], i, m1.globals, outside) {
      assert Lent(ps[i], i, m.globals, outside);
      if ps[i].Obj? {
        if Frozen(ps[i], m.globals, outside.bound.writes) {
          var g :| 0 <= g < |m.globals| && g !in outside.bound.writes && m.globals[g] == ps[i];
          assert m1.globals[g] == ps[i];
        }
        LentLives(ps[i], i, m1.globals, outside);
        CountLives(m1.heap, r1, ps[i].id);
      }
      ContentLater(m.heap, m1.heap, ps[i]);
    }
  }

  lemma CountLives(h: Heap, r: Refs, o: nat)
    requires Balanced(h, r) && Total(r, o) > 0
    ensures o in h.objects
  {
  }

  function Result(v: Option<string>, p: Ptr): seq<Ptr> { if v.Some? then [p] else [] }

  /** A function is left: its locals are released, the returned text has one more owner and
      every count is exact for what is left. */
  ghost predicate Left(v: Option<string>, s1: Src, p: Ptr, m: Mach, m1: Mach, outside: World) {
    && Balanced(m1.heap, Refs(outside.refs, Result(v, p), [], m1.globals))
    && m1.pos == s1.pos && GlobalsShow(s1.globals, m1)
    && (if v.Some? then Holds(m1.heap, p, v.value) else p == Null)
    && Later(outside, m, m1)
  }

  /** All that is outside for a callee. */
  function Around(outside: World, temps: seq<Ptr>, locals: seq<Ptr>, callee: Bound): World {
    World(outside.refs + temps + locals, callee)
  }

  /** The callee starts with its arguments borrowed from the caller. */
  lemma EnterTied(values: seq<string>, callee: Bound, s: Src, params: seq<string>, m: Mach, ps: seq<Ptr>, outside: World, temps: seq<Ptr>, args: seq<Ptr>)
    requires Tied(s, params, m, ps, outside, temps) && |args| == |values|
    requires forall i :: 0 <= i < |args| ==> Passed(args[i], values[i], i, callee, m, outside, temps)
    ensures Tied(Src([], s.globals, s.pos), values, Mach(m.heap, [], m.globals, m.pos, []), args, Around(outside, temps, m.locals, callee), [])
  {
    var world := Around(outside, temps, m.locals, callee);
    var m1 := Mach(m.heap, [], m.globals, m.pos, []);
    forall o: nat
      ensures Count(world.refs, o) == Count(outside.refs, o) + Count(temps, o) + Count(m.locals, o)
      ensures Total(RefsOf(m1, world, []), o) == Total(RefsOf(m, outside, temps), o)
    {
      CountCat(outside.refs, temps, o);
      CountCat(outside.refs + temps, m.locals, o);
    }
    BalancedSame(m.heap, RefsOf(m, outside, temps), RefsOf(m1, world, []));
    hide Balanced;
    forall i | 0 <= i < |args| ensures Content(m1.heap, args[i]) == Some(values[i]) && Lent(args[i], i, m1.globals, world) {
      assert Passed(args[i], values[i], i, callee, m, outside, temps);
    }
  }

  /** Back in the caller. */
  lemma ReturnTied(v: Option<string>, callee: Bound, s1: Src, p: Ptr, mc: Mach, s: Src, params: seq<string>, m: Mach, ps: seq<Ptr>, outside: World, temps: seq<Ptr>)
    requires Tied(s, params, m, ps, outside, temps) && callee.writes <= outside.bound.writes
    requires Left(v, s1, p, Mach(m.heap, [], m.globals, m.pos, []), mc, Around(outside, temps, m.locals, callee))
    ensures var m2 := Push(Mach(mc.heap, m.locals, mc.globals, mc.pos, m.temps), p);
      && Tied(Src(s.locals, s1.globals, s1.pos), params, m2, ps, outside, temps + Result(v, p))
      && Grows(m, m2) && Later(outside, m, m2)
  {
    hide Keeps, Holds;
    var m2 := Push(Mach(mc.heap, m.locals, mc.globals, mc.pos, m.temps), p);
    var world := Around(outside, temps, m.locals, callee);
    var r, r2 := Refs(world.refs, Result(v, p), [], mc.globals), RefsOf(m2, outside, temps + Result(v, p));
    forall o: nat ensures Total(r2, o) == Total(r, o) {
      CountCat(outside.refs, temps, o);
      CountCat(outside.refs + temps, m.locals, o);
      CountCat(temps, Result(v, p), o);
    }
    assert Balanced(m2.heap, r2) by { BalancedSame(m2.heap, r, r2); }
    hide Balanced, ParamsShow;
    forall o: nat ensures Total(r2, o) >= Count(m.locals, o) && Total(r2, o) >= Count(outside.refs, o) && Total(r2, o) >= Count(m2.globals, o) { }
    LocalsLater(s.locals, m, m2, r2);
    ParamsLater(params, m, m2, ps, outside, r2);
  }

  lemma BalancedSame(h: Heap, r: Refs, r1: Refs)
    requires Balanced(h, r) && forall o: nat :: Total(r1, o) == Total(r, o)
    ensures Balanced(h, r1)
  {
  }

  /** After the call the f-string arguments are released one by one. */
  lemma {:induction false} ReleaseArgsTied(args: seq<Arg>, ts: seq<nat>, s: Src, params: seq<string>, m: Mach, ps: seq<Ptr>, outside: World, temps: seq<Ptr>, result: seq<Ptr>, tape: Tape, prog: seq<CFun>, fuel: nat)
    requires |args| == |ts| && ArgsOwn(args)
    requires forall i :: 0 <= i < |ts| ==> ts[i] < |m.temps| && (OwnsArg(args[i]) ==> m.temps[ts[i]].Obj?)
    requires Tied(s, params, m, ps, outside, temps + ArgOwners(args, ts, m.temps) + result)
    ensures var r := ExecOps(ReleaseArgs(args, ts), ps, m, tape, prog, fuel);
      && r.Ok? && r.value.temps == m.temps && r.value.locals == m.locals && r.value.globals == m.globals && Keeps(m.heap, r.value.heap)
      && Tied(s, params, r.value, ps, outside, temps + result)
    decreases |args|
  {
    hide Tied, Keeps, ReleaseIf, OwnsArg;
    if args == [] {
      TiedPos(s, params, m, ps, outside, temps + [] + result);
      assert temps + [] + result == temps + result;
    } else {
      var heap := args[0].AFString?;
      OwnersHead(args, ts, m);
      var mine, rest := Owned(heap, ts[0], m), ArgOwners(args[1..], ts[1..], m.temps);
      var owners, owners1 := temps + (mine + rest) + result, temps + rest + result;
      forall o: nat ensures Count(owners1, o) == Count(owners, o) - Count(mine, o) {
        CountCat(temps, mine + rest, o); CountCat(mine, rest, o); CountCat(temps + (mine + rest), result, o);
        CountCat(temps, rest, o); CountCat(temps + rest, result, o);
      }
      ReleaseIfTied(heap, ts[0], s, params, m, ps, outside, owners, owners1, tape, prog, fuel);
      var m1 := ExecOps(ReleaseIf(heap, ts[0]), ps, m, tape, prog, fuel).value;
      OpsCat(ReleaseIf(heap, ts[0]), ReleaseArgs(args[1..], ts[1..]), ps, m, tape, prog, fuel);
      ReleaseArgsTied(args[1..], ts[1..], s, params, m1, ps, outside, temps, result, tape, prog, fuel);
      Arc.KeepsTrans(m.heap, m1.heap, ExecOps(ReleaseArgs(args[1..], ts[1..]), ps, m1, tape, prog, fuel).value.heap);
    }
  }

  lemma OwnersHead(args: seq<Arg>, ts: seq<nat>, m: Mach)
    requires args != [] && |args| == |ts| && ArgsOwn(args) && ts[0] < |m.temps|
    ensures ArgOwners(args, ts, m.temps) == Owned(args[0].AFString?, ts[0], m) + ArgOwners(args[1..], ts[1..], m.temps)
    ensures args[0].AFString? == OwnsArg(args[0]) && ArgsOwn(args[1..])
  {
    assert args[0].AFString? ==> OwnsArg(args[0]);
    forall j | 0 <= j < |args| - 1 && args[1..][j].AFString? ensures OwnsArg(args[1..][j]) { assert args[j + 1] == args[1..][j]; }
  }

  /** A call has gone as it means. */
  ghost predicate Called(r: ArcCode.Result<(Option<string>, Src)>, r1: ArcCode.Result<Mach>, e: Emitted, params: seq<string>, m: Mach, ps: seq<Ptr>, outside: World, temps: seq<Ptr>) {
    match r
    case Wrong => true
    case Timeout => r1.Timeout?
    case Ok((v, s1)) =>
      && r1.Ok? && Grows(m, r1.value) && Later(outside, m, r1.value) && |r1.value.temps| == e.n && e.t < e.n
      && Tied(s1, params, r1.value, ps, outside, temps + Result(v, r1.value.temps[e.t]))
      && (if v.Some? then Holds(r1.value.heap, r1.value.temps[e.t], v.value) else r1.value.temps[e.t] == Null)
  }

  /** The arguments are evaluated and the call is made; the releases are still to come.  Every
      f-string argument that makes an object owns it. */
  ghost predicate Made(r: ArcCode.Result<(Option<string>, Src)>, r1: ArcCode.Result<Mach>, args: seq<Arg>, a: EmittedArgs, params: seq<string>, m: Mach, ps: seq<Ptr>, outside: World, temps: seq<Ptr>) {
    match r
    case Wrong => true
    case Timeout => r1.Timeout?
    case Ok((v, s1)) =>
      && r1.Ok? && Grows(m, r1.value) && Later(outside, m, r1.value) && |r1.value.temps| == a.n + 1 && |a.ts| == |args|
      && (forall i :: 0 <= i < |args| ==> a.ts[i] < a.n && !r1.value.temps[a.ts[i]].Null? && (OwnsArg(args[i]) ==> r1.value.temps[a.ts[i]].Obj?))
      && Tied(s1, params, r1.value, ps, outside, temps + ArgOwners(args, a.ts, r1.value.temps) + Result(v, r1.value.temps[a.n]))
      && (if v.Some? then Holds(r1.value.heap, r1.value.temps[a.n], v.value) else r1.value.temps[a.n] == Null)
  }

  lemma {:induction false} CallMade(f: nat, args: seq<Arg>, s: Src, params: seq<string>, m: Mach, ps: seq<Ptr>, outside: World, temps: seq<Ptr>, tape: Tape, prog: seq<Fun>, fuel: nat)
    requires ProgramOk(prog) && CallPasses(f, args, outside.bound, prog) && Tied(s, params, m, ps, outside, temps)
    ensures var a := EmitArgs(args, |m.temps|);
      Made(CallValue(f, args, params, s, tape, prog, fuel), ExecOps(a.ops + [OCall(f, a.ts)], ps, m, tape, EmitProgram(prog), fuel),
           args, a, params, m, ps, outside, temps)
    decreases fuel, 0
  {
    hide Tied, Keeps, Passed, Invoke, Enter, EmitArgs, ArgOwners, OwnsArg, ArgsPass;
    if CallValue(f, args, params, s, tape, prog, fuel) != Wrong {
      var cprog := EmitProgram(prog);
      var a := EmitArgs(args, |m.temps|);
      var (values, pos) := ArgValues(args, params, s, tape).value;
      ArgsTied(args, 0, prog[f].bound, s, params, m, ps, outside, temps, tape, cprog, fuel);
      var m1 := ExecOps(a.ops, ps, m, tape, cprog, fuel).value;
      var owners := temps + ArgOwners(args, a.ts, m1.temps);
      PassedReal(args, a.ts, values, prog[f].bound, m1, outside, owners);
      var call := OCall(f, a.ts);
      OpsCat(a.ops, [call], ps, m, tape, cprog, fuel);
      OpsOne(call, ps, m1, tape, cprog, fuel);
      if fuel > 0 {
        CallStep(f, a.ts, values, s.(pos := pos), params, m1, ps, outside, owners, args, tape, prog, fuel);
        var r := CallValue(f, args, params, s, tape, prog, fuel);
        if r.Ok? {
          var m2 := Exec(call, ps, m1, tape, cprog, fuel).value;
          OwnersSame(args, a.ts, m1.temps, m2.temps);
          GrowsTrans(m, m1, m2);
          GrowsLater(outside, m, m1);
          LaterTrans(outside, m, m1, m2);
        }
      }
    }
  }

  lemma GrowsLater(outside: World, m: Mach, m1: Mach)
    requires Grows(m, m1) && m1.globals == m.globals
    ensures Later(outside, m, m1)
  {
  }

  lemma PassedReal(args: seq<Arg>, ts: seq<nat>, values: seq<string>, callee: Bound, m: Mach, outside: World, owners: seq<Ptr>)
    requires AllPassed(args, ts, values, 0, callee, m, outside, owners)
    ensures forall i :: 0 <= i < |ts| ==> ts[i] < |m.temps| && !m.temps[ts[i]].Null? && (OwnsArg(args[i]) ==> m.temps[ts[i]].Obj?)
  {
    forall i | 0 <= i < |ts| ensures !m.temps[ts[i]].Null? {
      assert Passed(m.temps[ts[i]], values[i], 0 + i, callee, m, outside, owners);
    }
  }

  /** A call whose f-string arguments make objects. */
  lemma {:induction false} CallTied(f: nat, args: seq<Arg>, s: Src, params: seq<string>, m: Mach, ps: seq<Ptr>, outside: World, temps: seq<Ptr>, tape: Tape, prog: seq<Fun>, fuel: nat)
    requires ProgramOk(prog) && CallOk(f, args, outside.bound, prog) && Tied(s, params, m, ps, outside, temps)
    ensures Called(CallValue(f, args, params, s, tape, prog, fuel),
                   ExecOps(EmitCall(f, args, |m.temps|).ops, ps, m, tape, EmitProgram(prog), fuel),
                   EmitCall(f, args, |m.temps|), params, m, ps, outside, temps)
    decreases fuel, 1, 0
  {
    hide Tied, Keeps, EmitArgs, ReleaseArgs, ArgOwners, CallValue, CallPasses, OwnsArg, ArgsOwn, Later;
    var cprog, a := EmitProgram(prog), EmitArgs(args, |m.temps|);
    ArgsLength(args, |m.temps|);
    CallMade(f, args, s, params, m, ps, outside, temps, tape, prog, fuel);
    OpsCat(a.ops + [OCall(f, a.ts)], ReleaseArgs(args, a.ts), ps, m, tape, cprog, fuel);
    var r := CallValue(f, args, params, s, tape, prog, fuel);
    if r.Ok? {
      var (v, s1) := r.value;
      var m2 := ExecOps(a.ops + [OCall(f, a.ts)], ps, m, tape, cprog, fuel).value;
      CallEnd(args, a, v, s1, params, m, m2, ps, outside, temps, tape, cprog, fuel);
    }
  }

  /** The call itself, between its arguments and their release. */
  lemma {:induction false} CallStep(f: nat, ts: seq<nat>, values: seq<string>, s: Src, params: seq<string>, m: Mach, ps: seq<Ptr>, outside: World, owners: seq<Ptr>, args: seq<Arg>, tape: Tape, prog: seq<Fun>, fuel: nat)
    requires f < |prog| && |values| == prog[f].params && fuel > 0 && prog[f].bound.writes <= outside.bound.writes
    requires ProgramOk(prog) && Tied(s, params, m, ps, outside, owners) && AllPassed(args, ts, values, 0, prog[f].bound, m, outside, owners)
    ensures var r, r1 := Invoke(prog[f], values, Src([], s.globals, s.pos), tape, prog, fuel - 1), Exec(OCall(f, ts), ps, m, tape, EmitProgram(prog), fuel);
      && (r.Timeout? ==> r1.Timeout?)
      && (r.Ok? ==>
        var (v, s1) := r.value;
        && r1.Ok? && Grows(m, r1.value) && Later(outside, m, r1.value) && |r1.value.temps| == |m.temps| + 1 && r1.value.temps[..|m.temps|] == m.temps
        && Tied(Src(s.locals, s1.globals, s1.pos), params, r1.value, ps, outside, owners + Result(v, r1.value.temps[|m.temps|]))
        && (if v.Some? then Holds(r1.value.heap, r1.value.temps[|m.temps|], v.value) else r1.value.temps[|m.temps|] == Null))
    decreases fuel - 1, 5
  {
    hide Tied, Keeps, Passed, Invoke, Enter, SeqOk, Later;
    var ptrs := Pick(ts, m.temps).value;
    var callee := prog[f].bound;
    forall i | 0 <= i < |ptrs| ensures Passed(ptrs[i], values[i], i, callee, m, outside, owners) {
      assert Passed(m.temps[ts[i]], values[i], 0 + i, callee, m, outside, owners);
    }
    EnterTied(values, callee, s, params, m, ps, outside, owners, ptrs);
    var world := Around(outside, owners, m.locals, callee);
    var start, mc := Src([], s.globals, s.pos), Mach(m.heap, [], m.globals, m.pos, []);
    InvokeTied(prog[f], values, start, mc, ptrs, world, tape, prog, fuel - 1);
    var r := Invoke(prog[f], values, start, tape, prog, fuel - 1);
    if r.Ok? {
      var (v, s1) := r.value;
      var (p, m1) := Enter(EmitFun(prog[f]), ptrs, mc, tape, EmitProgram(prog), fuel - 1).value;
      ReturnTied(v, callee, s1, p, m1, s, params, m, ps, outside, owners);
      LeftHolds(v, s1, p, mc, m1, world);
    }
  }

  lemma LeftHolds(v: Option<string>, s1: Src, p: Ptr, m: Mach, m1: Mach, outside: World)
    requires Left(v, s1, p, m, m1, outside)
    ensures if v.Some? then Holds(m1.heap, p, v.value) else p == Null
  {
  }

  lemma CallEnd(args: seq<Arg>, a: EmittedArgs, v: Option<string>, s1: Src, params: seq<string>, m: Mach, m2: Mach, ps: seq<Ptr>, outside: World, temps: seq<Ptr>, tape: Tape, cprog: seq<CFun>, fuel: nat)
    requires |a.ts| == |args| && ArgsOwn(args) && Grows(m, m2) && Later(outside, m, m2) && |m2.temps| == a.n + 1
    requires forall i :: 0 <= i < |args| ==> a.ts[i] < a.n && (OwnsArg(args[i]) ==> m2.temps[a.ts[i]].Obj?)
    requires Tied(s1, params, m2, ps, outside, temps + ArgOwners(args, a.ts, m2.temps) + Result(v, m2.temps[a.n]))
    requires if v.Some? then Holds(m2.heap, m2.temps[a.n], v.value) else m2.temps[a.n] == Null
    ensures var r := ExecOps(ReleaseArgs(args, a.ts), ps, m2, tape, cprog, fuel);
      && r.Ok? && Grows(m, r.value) && Later(outside, m, r.value) && r.value.temps == m2.temps
      && Tied(s1, params, r.value, ps, outside, temps + Result(v, m2.temps[a.n]))
      && (if v.Some? then Holds(r.value.heap, m2.temps[a.n], v.value) else m2.temps[a.n] == Null)
  {
    hide Tied, Keeps, OwnsArg, ArgsOwn, Later;
    var result := Result(v, m2.temps[a.n]);
    ReleaseArgsTied(args, a.ts, s1, params, m2, ps, outside, temps, result, tape, cprog, fuel);
    var m3 := ExecOps(ReleaseArgs(args, a.ts), ps, m2, tape, cprog, fuel).value;
    Arc.KeepsTrans(m.heap, m2.heap, m3.heap);
    SameLater(outside, m2, m3);
    LaterTrans(outside, m, m2, m3);
    if v.Some? {
      var o := m2.temps[a.n].id;
      CountSnoc(temps, m2.temps[a.n], o);
      TempLives(s1, params, m3, ps, outside, temps + result, o);
      StillText(m2.heap, m3.heap, o, v.value);
    }
  }

  lemma StillText(h: Heap, h1: Heap, o: nat, text: string)
    requires Holds(h, Obj(o), text) && Keeps(h, h1) && o in h1.objects
    ensures Holds(h1, Obj(o), text)
  {
  }

  lemma {:induction false} OwnersSame(args: seq<Arg>, ts: seq<nat>, temps: seq<Ptr>, temps1: seq<Ptr>)
    requires |args| == |ts| && temps <= temps1 && forall i :: 0 <= i < |ts| ==> ts[i] < |temps|
    ensures ArgOwners(args, ts, temps1) == ArgOwners(args, ts, temps)
    decreases |args|
  {
    if args != [] {
      OwnersSame(args[1..], ts[1..], temps, temps1);
    }
  }

  lemma JoinTied(a: Atom, b: Atom, s: Src, params: seq<string>, m: Mach, ps: seq<Ptr>, outside: World, temps: seq<Ptr>, tape: Tape, prog: seq<CFun>, fuel: nat)
    requires Tied(s, params, m, ps, outside, temps) && AtomValue(a, params, s).Some? && AtomValue(b, params, s).Some?
    ensures var e := EmitRhs(Join(a, b), |m.temps|);
      var r := ExecOps(e.ops, ps, m, tape, prog, fuel);
      && r.Ok? && Grows(m, r.value) && r.value.globals == m.globals
      && Built(e, AtomValue(a, params, s).value + AtomValue(b, params, s).value, s, params, r.value, ps, outside, temps)
  {
    hide Tied, Keeps, ValueOf;
    var e := EmitAtom(a, |m.temps|);
    var e1 := EmitAtom(b, e.n);
    TiedPos(s, params, m, ps, outside, temps);
    AtomTied(a, s, params, m, ps, outside, temps, tape, prog, fuel);
    var m1 := ExecOps(e.ops, ps, m, tape, prog, fuel).value;
    AtomTied(b, s, params, m1, ps, outside, temps, tape, prog, fuel);
    var m2 := ExecOps(e1.ops, ps, m1, tape, prog, fuel).value;
    OpsCat(e.ops, e1.ops, ps, m, tape, prog, fuel);
    ConcatTied(e.t, e1.t, AtomValue(a, params, s).value, AtomValue(b, params, s).value, s, params, m2, ps, outside, temps, tape, prog, fuel);
    OpsCat(e.ops + e1.ops, [OConcat(e.t, e1.t)], ps, m, tape, prog, fuel);
  }

  lemma AtomTied(a: Atom, s: Src, params: seq<string>, m: Mach, ps: seq<Ptr>, outside: World, temps: seq<Ptr>, tape: Tape, prog: seq<CFun>, fuel: nat)
    requires Tied(s, params, m, ps, outside, temps) && AtomValue(a, params, s).Some?
    ensures var e := EmitAtom(a, |m.temps|);
      var r := ExecOps(e.ops, ps, m, tape, prog, fuel);
      && r.Ok? && |r.value.temps| == |m.temps| + 1 && r.value == Push(m, r.value.temps[|m.temps|])
      && Built(e, AtomValue(a, params, s).value, s, params, r.value, ps, outside, temps)
  {
    hide Tied, Keeps, ValueOf;
    match a
    case Text(t) => StaticTied(t, s, params, m, ps, outside, temps, tape, prog, fuel);
    case Read(v) => LoadTied(v, s, params, m, ps, outside, temps, tape, prog, fuel);
  }

  /** The value of a right-hand side: owned, unless it is a literal. */
  ghost predicate Valued(r: ArcCode.Result<(string, Src)>, r1: ArcCode.Result<Mach>, e: Emitted, params: seq<string>, m: Mach, ps: seq<Ptr>, outside: World) {
    match r
    case Wrong => true
    case Timeout => r1.Timeout?
    case Ok((text, s1)) => r1.Ok? && Grows(m, r1.value) && Later(outside, m, r1.value) && Built(e, text, s1, params, r1.value, ps, outside, [])
  }

  lemma {:induction false} RhsTied(rhs: Rhs, s: Src, params: seq<string>, m: Mach, ps: seq<Ptr>, outside: World, tape: Tape, prog: seq<Fun>, fuel: nat)
    requires ProgramOk(prog) && RhsOk(rhs, outside.bound, prog) && Tied(s, params, m, ps, outside, [])
    ensures EmitRhs(rhs, |m.temps|).heap == !rhs.Literal?
    ensures Valued(RhsValue(rhs, params, s, tape, prog, fuel), ExecOps(EmitRhs(rhs, |m.temps|).ops, ps, m, tape, EmitProgram(prog), fuel), EmitRhs(rhs, |m.temps|), params, m, ps, outside)
    decreases fuel, 1, 1
  {
    hide Tied, Keeps, Exec, EmitCall, CallValue, EmitFString, FStringValue;
    TiedPos(s, params, m, ps, outside, []);
    match rhs
    case Literal(t) => StaticTied(t, s, params, m, ps, outside, [], tape, EmitProgram(prog), fuel);
    case Copy(_) => assert false;
    case Join(a, b) =>
      if AtomValue(a, params, s).Some? && AtomValue(b, params, s).Some? {
        JoinTied(a, b, s, params, m, ps, outside, [], tape, EmitProgram(prog), fuel);
      }
    case FString(parts) => FStringHeap(parts, s, params, m, ps, outside, tape, EmitProgram(prog), fuel);
    case CallString(f, args) =>
      CallHeap(f, args, |m.temps|);
      CallTied(f, args, s, params, m, ps, outside, [], tape, prog, fuel);
      CallBuilt(f, args, s, params, m, ps, outside, tape, prog, fuel);
  }

  lemma CallHeap(f: nat, args: seq<Arg>, n: nat)
    ensures EmitCall(f, args, n).heap
  {
  }

  lemma CallBuilt(f: nat, args: seq<Arg>, s: Src, params: seq<string>, m: Mach, ps: seq<Ptr>, outside: World, tape: Tape, prog: seq<Fun>, fuel: nat)
    requires Called(CallValue(f, args, params, s, tape, prog, fuel),
                    ExecOps(EmitCall(f, args, |m.temps|).ops, ps, m, tape, EmitProgram(prog), fuel),
                    EmitCall(f, args, |m.temps|), params, m, ps, outside, [])
    ensures var r, r1, e := CallValue(f, args, params, s, tape, prog, fuel), ExecOps(EmitCall(f, args, |m.temps|).ops, ps, m, tape, EmitProgram(prog), fuel), EmitCall(f, args, |m.temps|);
      r.Ok? && r.value.0.Some? ==> r1.Ok? && Grows(m, r1.value) && Later(outside, m, r1.value) && Built(e, r.value.0.value, r.value.1, params, r1.value, ps, outside, [])
  {
    hide Tied, CallValue, ExecOps;
    var r, r1, e := CallValue(f, args, params, s, tape, prog, fuel), ExecOps(EmitCall(f, args, |m.temps|).ops, ps, m, tape, EmitProgram(prog), fuel), EmitCall(f, args, |m.temps|);
    if r.Ok? && r.value.0.Some? {
      assert [] + Result(r.value.0, r1.value.temps[e.t]) == Owning([], e, r1.value);
    }
  }

  lemma FStringHeap(parts: seq<Part>, s: Src, params: seq<string>, m: Mach, ps: seq<Ptr>, outside: World, tape: Tape, prog: seq<CFun>, fuel: nat)
    requires Tied(s, params, m, ps, outside, []) && Owns(parts)
    ensures EmitFString(parts, |m.temps|).heap
    ensures FStringValue(parts, params, s, tape).Some? ==>
      var e, (text, pos) := EmitFString(parts, |m.temps|), FStringValue(parts, params, s, tape).value;
      var r := ExecOps(e.ops, ps, m, tape, prog, fuel);
      r.Ok? && Grows(m, r.value) && Later(outside, m, r.value) && Built(e, text, s.(pos := pos), params, r.value, ps, outside, [])
  {
    OwnsIff(parts, |m.temps|);
    if FStringValue(parts, params, s, tape).Some? {
      hide Tied, EmitFString, FStringValue, ExecOps;
      FStringTied(parts, s, params, m, ps, outside, [], tape, prog, fuel);
    }
  }

  lemma {:induction false} PartsHeap(e: Emitted, parts: seq<Part>)
    ensures EmitParts(e, parts).heap == (parts != [] || e.heap)
    decreases |parts|
  {
    hide StepOps;
    if parts != [] {
      PartsHeap(EmitAppend(e, parts[0]), parts[1..]);
    }
  }

  /** The emitter knows which f-strings make an object of their own. */
  lemma OwnsIff(parts: seq<Part>, n: nat)
    ensures EmitFString(parts, n).heap <==> Owns(parts)
  {
    if parts != [] {
      PartsHeap(EmitPart(parts[0], n), parts[1..]);
      assert |parts| == 1 ==> parts == [parts[0]];
    }
  }

  /** A statement has gone as it means; `n` locals are declared when it completes normally. */
  ghost predicate Went(r: ArcCode.Result<(Outcome, Src)>, r1: ArcCode.Result<(Exit, Mach)>, top: bool, n: nat, params: seq<string>, m: Mach, ps: seq<Ptr>, outside: World) {
    match r
    case Wrong => true
    case Timeout => r1.Timeout?
    case Ok((Returned(v), s1)) =>
      r1.Ok? && r1.value.0.Gone? && Left(v, s1, r1.value.0.p, m, r1.value.1, outside)
    case Ok((o, s1)) =>
      && r1.Ok? && r1.value.0 == (if o.Normal? then Next else if o.Broke? then Out else Again)
      && |r1.value.1.locals| == |s1.locals| && (o.Normal? || !top ==> |s1.locals| == n)
      && Tied(s1, params, r1.value.1, ps, outside, []) && Later(outside, m, r1.value.1)
  }

  lemma TempsReset(s: Src, params: seq<string>, m: Mach, ps: seq<Ptr>, outside: World, temps: seq<Ptr>, t: seq<Ptr>)
    requires Tied(s, params, m, ps, outside, temps)
    ensures Tied(s, params, m.(temps := t), ps, outside, temps) && Later(outside, m, m.(temps := t))
  {
    hide Balanced, Holds;
    TiedPos(s, params, m, ps, outside, temps);
    SameLater(outside, m, m.(temps := t));
  }

  /** The slot of an assigned variable, emptied. */
  function Emptied(v: Var, m: Mach): Mach {
    match v
    case Local(i) => if i < |m.locals| then m.(locals := m.locals[i := Null]) else m
    case Global(i) => if i < |m.globals| then m.(globals := m.globals[i := Null]) else m
    case _ => m
  }

  predicate HasSlot(v: Var, s: Src) {
    match v
    case Local(i) => i < |s.locals|
    case Global(i) => i < |s.globals|
    case _ => false
  }

  /** Releasing the old value of a variable, whose slot then counts for nothing. */
  lemma DropSlot(v: Var, s: Src, params: seq<string>, m: Mach, ps: seq<Ptr>, outside: World, temps: seq<Ptr>)
    requires Tied(s, params, m, ps, outside, temps) && HasSlot(v, s)
    ensures Slot(v, ps, m).Some? && Release(m.heap, Slot(v, ps, m).value).Some?
    ensures var h := Release(m.heap, Slot(v, ps, m).value).value;
      Balanced(h, RefsOf(Emptied(v, m), outside, temps)) && Keeps(m.heap, h)
  {
    var r, r1 := RefsOf(m, outside, temps), RefsOf(Emptied(v, m), outside, temps);
    var p := Slot(v, ps, m).value;
    forall o: nat ensures Total(r1, o) == Total(r, o) - if p == Obj(o) then 1 else 0 {
      if v.Local? { CountUpdate(m.locals, v.i, Null, o); } else { CountUpdate(m.globals, v.i, Null, o); }
    }
    if p.Obj? {
      if v.Local? { CountAt(m.locals, v.i); } else { CountAt(m.globals, v.i); }
      hide Shows, Balanced;
      ReleaseBalanced(m.heap, r, r1, p.id);
    } else {
      assert p == Null;
    }
  }

  /** Storing an owned value into an empty slot. */
  lemma PutSlot(v: Var, p: Ptr, text: string, s: Src, params: seq<string>, m: Mach, h: Heap, ps: seq<Ptr>, outside: World)
    requires Shows(s, params, m, ps, outside) && HasSlot(v, s) && Keeps(m.heap, h) && (v.Global? ==> v.i in outside.bound.writes)
    requires Balanced(h, RefsOf(Emptied(v, m), outside, [p])) && Holds(h, p, text)
    ensures SetVar(v, text, s).Some?
    ensures var m1 := (if v.Local? then m.(heap := h, locals := m.locals[v.i := p]) else m.(heap := h, globals := m.globals[v.i := p]));
      Tied(SetVar(v, text, s).value, params, m1, ps, outside, []) && Later(outside, m, m1)
  {
    hide Keeps;
    var m1 := if v.Local? then m.(heap := h, locals := m.locals[v.i := p]) else m.(heap := h, globals := m.globals[v.i := p]);
    var e, r1 := Emptied(v, m), RefsOf(m1, outside, []);
    var r := RefsOf(e, outside, [p]);
    forall o: nat ensures Total(r1, o) == Total(r, o) {
      OneCount(p, o);
      if v.Local? { CountUpdate(m.locals, v.i, p, o); CountUpdate(m.locals, v.i, Null, o); }
      else { CountUpdate(m.globals, v.i, p, o); CountUpdate(m.globals, v.i, Null, o); }
    }
    BalancedSame(h, r, r1);
    hide Balanced, Holds, ParamsShow;
    forall i | 0 <= i < |s.locals| && !(v.Local? && v.i == i) ensures Holds(h, m.locals[i], s.locals[i]) {
      assert m1.locals[i] == m.locals[i] && m1.locals[i].Obj? by { HoldsObj(m.heap, m.locals[i], s.locals[i]); }
      CountAt(m1.locals, i);
      HoldsLater(m.heap, h, r1, m.locals[i], s.locals[i]);
    }
    forall i | 0 <= i < |s.globals| && s.globals[i].Some? && !(v.Global? && v.i == i) ensures Holds(h, m.globals[i], s.globals[i].value) {
      assert m1.globals[i] == m.globals[i] && m1.globals[i].Obj? by { HoldsObj(m.heap, m.globals[i], s.globals[i].value); }
      CountAt(m1.globals, i);
      HoldsLater(m.heap, h, r1, m.globals[i], s.globals[i].value);
    }
    ParamsLater(params, m, m1, ps, outside, r1);
  }

  lemma HoldsObj(h: Heap, p: Ptr, text: string)
    requires Holds(h, p, text)
    ensures p.Obj?
  {
  }

  lemma OneCount(p: Ptr, o: nat)
    ensures Count([p], o) == (if p == Obj(o) then 1 else 0) && Count([], o) == 0
  {
    assert [p][..0] == [];
  }

  /** One local is loaded and released. */
  lemma DropOne(k: nat, ps: seq<Ptr>, m: Mach, outside: World, temps: seq<Ptr>, tape: Tape, prog: seq<CFun>, fuel: nat)
    requires 0 < k <= |m.locals| && m.locals[k - 1].Obj?
    requires Balanced(m.heap, Refs(outside.refs, temps, m.locals[..k], m.globals))
    ensures var r := ExecOps([OLoad(Local(k - 1)), ORelease(|m.temps|)], ps, m, tape, prog, fuel);
      && r.Ok? && r.value == m.(heap := r.value.heap, temps := m.temps + [m.locals[k - 1]])
      && Keeps(m.heap, r.value.heap) && Balanced(r.value.heap, Refs(outside.refs, temps, m.locals[..k - 1], m.globals))
  {
    hide Keeps, Balanced, Release;
    var p := m.locals[k - 1];
    var r, r1 := Refs(outside.refs, temps, m.locals[..k], m.globals), Refs(outside.refs, temps, m.locals[..k - 1], m.globals);
    assert m.locals[..k][..k - 1] == m.locals[..k - 1];
    forall o: nat ensures Total(r1, o) == Total(r, o) - if o == p.id then 1 else 0 { }
    ReleaseBalanced(m.heap, r, r1, p.id);
    var m1 := Push(m, p);
    OpsOne(OLoad(Local(k - 1)), ps, m, tape, prog, fuel);
    OpsOne(ORelease(|m.temps|), ps, m1, tape, prog, fuel);
    OpsCat([OLoad(Local(k - 1))], [ORelease(|m.temps|)], ps, m, tape, prog, fuel);
    assert [OLoad(Local(k - 1))] + [ORelease(|m.temps|)] == [OLoad(Local(k - 1)), ORelease(|m.temps|)];
  }

  /** The release of all locals, last one first, as at every return. */
  lemma {:induction false} DropLocals(k: nat, ps: seq<Ptr>, m: Mach, outside: World, temps: seq<Ptr>, tape: Tape, prog: seq<CFun>, fuel: nat)
    requires k <= |m.locals| && (forall j :: 0 <= j < k ==> m.locals[j].Obj?)
    requires Balanced(m.heap, Refs(outside.refs, temps, m.locals[..k], m.globals))
    ensures var r := ExecOps(ReleaseLocals(k, |m.temps|), ps, m, tape, prog, fuel);
      && r.Ok? && m.temps <= r.value.temps && Keeps(m.heap, r.value.heap)
      && Balanced(r.value.heap, Refs(outside.refs, temps, [], m.globals)) && r.value.globals == m.globals && r.value.pos == m.pos
    decreases k
  {
    hide Keeps, Balanced, Exec, ExecOps;
    if k > 0 {
      var pair := [OLoad(Local(k - 1)), ORelease(|m.temps|)];
      DropOne(k, ps, m, outside, temps, tape, prog, fuel);
      var m1 := ExecOps(pair, ps, m, tape, prog, fuel).value;
      OpsCat(pair, ReleaseLocals(k - 1, |m.temps| + 1), ps, m, tape, prog, fuel);
      DropLocals(k - 1, ps, m1, outside, temps, tape, prog, fuel);
      Arc.KeepsTrans(m.heap, m1.heap, ExecOps(ReleaseLocals(k - 1, |m.temps| + 1), ps, m1, tape, prog, fuel).value.heap);
    } else {
      NoOps(ps, m, tape, prog, fuel);
      BalancedKeeps(m.heap, Refs(outside.refs, temps, m.locals[..k], m.globals));
      assert m.locals[..0] == [];
    }
  }

  lemma NoOps(ps: seq<Ptr>, m: Mach, tape: Tape, prog: seq<CFun>, fuel: nat)
    ensures ExecOps([], ps, m, tape, prog, fuel) == Ok(m)
  {
  }

  lemma BalancedKeeps(h: Heap, r: Refs)
    requires Balanced(h, r)
    ensures Keeps(h, h)
  {
  }

  lemma RhsLocals(rhs: Rhs, params: seq<string>, s: Src, tape: Tape, prog: seq<Fun>, fuel: nat)
    ensures var r := RhsValue(rhs, params, s, tape, prog, fuel);
      r.Ok? ==> r.value.1.locals == s.locals && (rhs.Literal? ==> r.value == (rhs.s, s))
  {
    hide Invoke, ArgValues, FStringValue;
  }

  /** The value to be stored, after a literal has been wrapped: temporary `w.t` owns it. */
  lemma WrapTied(rhs: Rhs, e: Emitted, text: string, m: Mach, r: Refs, ps: seq<Ptr>, tape: Tape, prog: seq<CFun>, fuel: nat)
    requires e.heap == !rhs.Literal? && e.t < |m.temps| && Content(m.heap, m.temps[e.t]) == Some(text)
    requires Balanced(m.heap, r) && r.temps == Owning([], e, m) && (e.heap ==> m.temps[e.t].Obj?)
    ensures var w := EmitWrap(rhs, e.t, |m.temps|);
      var r1 := ExecOps(w.ops, ps, m, tape, prog, fuel);
      && r1.Ok? && w.t < |r1.value.temps|
      && r1.value == m.(heap := r1.value.heap, temps := r1.value.temps)
      && Holds(r1.value.heap, r1.value.temps[w.t], text) && Keeps(m.heap, r1.value.heap)
      && Balanced(r1.value.heap, r.(temps := [r1.value.temps[w.t]]))
  {
    hide Keeps;
    if rhs.Literal? {
      OpsOne(OWrap(e.t), ps, m, tape, prog, fuel);
      var p := Obj(m.heap.next);
      var r2 := r.(temps := [p]);
      forall o: nat ensures Total(r2, o) == Total(r, o) + if o == m.heap.next then 1 else 0 { OneCount(p, o); }
      AllocBalanced(m.heap, r, r2, text);
    } else {
      BalancedKeeps(m.heap, r);
      assert r.(temps := [m.temps[e.t]]) == r;
    }
  }

  lemma {:induction false} DeclareTied(rhs: Rhs, s: Src, params: seq<string>, m: Mach, ps: seq<Ptr>, outside: World, tape: Tape, prog: seq<Fun>, fuel: nat)
    requires ProgramOk(prog) && RhsOk(rhs, outside.bound, prog) && Tied(s, params, m, ps, outside, []) && |m.locals| == |s.locals|
    ensures var k := |s.locals|;
      Went(RunStmt(Declare(rhs), params, s, tape, prog, fuel), RunOne(EmitStmt(Declare(rhs), k), ps, m, tape, EmitProgram(prog), fuel), true, k + 1, params, m, ps, outside)
    decreases fuel, 2, rhs, 0
  {
    hide Tied, Keeps, Holds, Balanced, EmitRhs, RhsValue, EmitProgram, Exec, EmitWrap;
    var cprog, k := EmitProgram(prog), |s.locals|;
    var e := EmitRhs(rhs, 0);
    var w := EmitWrap(rhs, e.t, e.n);
    var m0 := m.(temps := []);
    var m1 := m0.(locals := m.locals + [Null]);
    TempsReset(s, params, m, ps, outside, [], []);
    assert Later(outside, m, m1);
    hide Later;
    SlotAdded(s, params, m0, ps, outside);
    RhsTied(rhs, s, params, m1, ps, outside, tape, prog, fuel);
    RhsLocals(rhs, params, s, tape, prog, fuel);
    DeclareOp(ps, m0, tape, cprog, fuel);
    OpsCat([ODeclare], e.ops, ps, m0, tape, cprog, fuel);
    OpsCat([ODeclare] + e.ops, w.ops, ps, m0, tape, cprog, fuel);
    OpsCat([ODeclare] + e.ops + w.ops, [OStore(Local(k), w.t)], ps, m0, tape, cprog, fuel);
    var v := RhsValue(rhs, params, s, tape, prog, fuel);
    if v.Ok? {
      var (text, s1) := v.value;
      var m2 := ExecOps(e.ops, ps, m1, tape, cprog, fuel).value;
      DeclareStore(rhs, e, text, s1, params, m1, m2, ps, outside, k, tape, cprog, fuel);
      var m3 := ExecOps(w.ops, ps, m2, tape, cprog, fuel).value;
      LaterTrans(outside, m, m1, m2);
      LaterTrans(outside, m, m2, ExecOps([OStore(Local(k), w.t)], ps, m3, tape, cprog, fuel).value);
    }
  }

  lemma DeclareOp(ps: seq<Ptr>, m: Mach, tape: Tape, prog: seq<CFun>, fuel: nat)
    ensures ExecOps([ODeclare], ps, m, tape, prog, fuel) == Ok(m.(locals := m.locals + [Null]))
  {
    OpsOne(ODeclare, ps, m, tape, prog, fuel);
  }

  lemma SlotAdded(s: Src, params: seq<string>, m: Mach, ps: seq<Ptr>, outside: World)
    requires Tied(s, params, m, ps, outside, [])
    ensures Tied(s, params, m.(locals := m.locals + [Null]), ps, outside, [])
  {
    hide Balanced, Holds;
    var m1 := m.(locals := m.locals + [Null]);
    forall o: nat ensures Total(RefsOf(m1, outside, []), o) == Total(RefsOf(m, outside, []), o) { CountSnoc(m.locals, Null, o); }
    BalancedSame(m.heap, RefsOf(m, outside, []), RefsOf(m1, outside, []));
  }

  /** The end of a declaration: wrap, then store into the new slot. */
  lemma DeclareStore(rhs: Rhs, e: Emitted, text: string, s1: Src, params: seq<string>, m1: Mach, m2: Mach, ps: seq<Ptr>, outside: World, k: nat, tape: Tape, prog: seq<CFun>, fuel: nat)
    requires Built(e, text, s1, params, m2, ps, outside, []) && Grows(m1, m2) && e.heap == !rhs.Literal?
    requires |s1.locals| == k && |m1.locals| == k + 1
    ensures var w := EmitWrap(rhs, e.t, e.n);
      var r := ExecOps(w.ops, ps, m2, tape, prog, fuel);
      && r.Ok? && Keeps(m2.heap, r.value.heap)
      && var r1 := ExecOps([OStore(Local(k), w.t)], ps, r.value, tape, prog, fuel);
         && r1.Ok? && |r1.value.locals| == k + 1 && r1.value.heap == r.value.heap && Later(outside, m2, r1.value)
         && Tied(s1.(locals := s1.locals + [text]), params, r1.value, ps, outside, [])
  {
    hide Keeps, Balanced, EmitWrap;
    var w := EmitWrap(rhs, e.t, e.n);
    WrapTied(rhs, e, text, m2, RefsOf(m2, outside, Owning([], e, m2)), ps, tape, prog, fuel);
    var m3 := ExecOps(w.ops, ps, m2, tape, prog, fuel).value;
    OpsOne(OStore(Local(k), w.t), ps, m3, tape, prog, fuel);
    var p := m3.temps[w.t];
    var m4 := m3.(locals := m3.locals[k := p]);
    assert m3.locals[k] == Null;
    var r3, r4 := RefsOf(m3, outside, [p]), RefsOf(m4, outside, []);
    forall o: nat ensures Total(r4, o) == Total(r3, o) { CountUpdate(m3.locals, k, p, o); OneCount(p, o); }
    BalancedSame(m3.heap, r3, r4);
    hide Holds;
    forall o: nat ensures Total(r3, o) >= Count(m2.locals, o) && Total(r3, o) >= Count(outside.refs, o) && Total(r3, o) >= Count(m2.globals, o) { }
    LocalsLater(s1.locals, m2, m3, r3);
    SameLater(outside, m2, m3);
    ParamsLater(params, m2, m3, ps, outside, r3);
    GlobalsLater(s1.globals, m2, m3, r3);
  }

  lemma GlobalsLater(globals: seq<Option<string>>, m: Mach, m1: Mach, r1: Refs)
    requires GlobalsShow(globals, m) && Keeps(m.heap, m1.heap) && m1.globals == m.globals
    requires Balanced(m1.heap, r1) && forall o: nat :: Total(r1, o) >= Count(m.globals, o)
    ensures GlobalsShow(globals, m1)
  {
    hide Balanced, Keeps;
    forall i | 0 <= i < |globals| && globals[i].Some? ensures Holds(m1.heap, m.globals[i], globals[i].value) {
      CountAt(m.globals, i);
      HoldsLater(m.heap, m1.heap, r1, m.globals[i], globals[i].value);
    }
  }

  lemma SetVarSlot(v: Var, text: string, s: Src)
    ensures SetVar(v, text, s).Some? <==> HasSlot(v, s)
  {
  }

  /** The old value goes before a literal is wrapped and stored. */
  lemma AssignStore(v: Var, rhs: Rhs, e: Emitted, text: string, s1: Src, params: seq<string>, m: Mach, ps: seq<Ptr>, outside: World, tape: Tape, prog: seq<CFun>, fuel: nat)
    requires Built(e, text, s1, params, m, ps, outside, []) && e.heap == !rhs.Literal? && HasSlot(v, s1) && (v.Global? ==> v.i in outside.bound.writes)
    requires |m.locals| == |s1.locals| && (!e.heap ==> e.t < |m.temps| && !m.temps[e.t].Obj?)
    ensures var w := EmitWrap(rhs, e.t, e.n + 1);
      var r := ExecOps([OLoad(v), ORelease(e.n)], ps, m, tape, prog, fuel);
      && r.Ok?
      && var r1 := ExecOps(w.ops, ps, r.value, tape, prog, fuel);
         && r1.Ok?
         && var r2 := ExecOps([OStore(v, w.t)], ps, r1.value, tape, prog, fuel);
            && r2.Ok? && |r2.value.locals| == |m.locals| && Later(outside, m, r2.value)
            && Tied(SetVar(v, text, s1).value, params, r2.value, ps, outside, [])
  {
    hide Keeps, Balanced, EmitWrap, Shows, Holds, Release, Content;
    DropSlot(v, s1, params, m, ps, outside, Owning([], e, m));
    var old1 := Slot(v, ps, m).value;
    var h := Release(m.heap, old1).value;
    var m1 := Push(m, old1);
    var m2 := m1.(heap := h);
    OpsOne(OLoad(v), ps, m, tape, prog, fuel);
    OpsOne(ORelease(e.n), ps, m1, tape, prog, fuel);
    OpsCat([OLoad(v)], [ORelease(e.n)], ps, m, tape, prog, fuel);
    assert [OLoad(v)] + [ORelease(e.n)] == [OLoad(v), ORelease(e.n)];
    var w := EmitWrap(rhs, e.t, e.n + 1);
    ValueKept(e, text, m, m2, RefsOf(Emptied(v, m), outside, Owning([], e, m)), rhs);
    WrapEmptied(v, rhs, e, text, m, m2, ps, outside, tape, prog, fuel);
    var m3 := ExecOps(w.ops, ps, m2, tape, prog, fuel).value;
    Arc.KeepsTrans(m.heap, m2.heap, m3.heap);
    OpsOne(OStore(v, w.t), ps, m3, tape, prog, fuel);
    PutSlot(v, m3.temps[w.t], text, s1, params, m, m3.heap, ps, outside);
    SetVarSlot(v, text, s1);
    SlotLengths(s1, params, m, ps, outside);
    var m4 := if v.Local? then m3.(locals := m3.locals[v.i := m3.temps[w.t]]) else m3.(globals := m3.globals[v.i := m3.temps[w.t]]);
    TiedTemps(SetVar(v, text, s1).value, params, m4.(temps := m.temps), m4, ps, outside);
  }

  lemma SlotLengths(s: Src, params: seq<string>, m: Mach, ps: seq<Ptr>, outside: World)
    requires Shows(s, params, m, ps, outside)
    ensures |s.locals| <= |m.locals| && |s.globals| == |m.globals|
  {
  }

  lemma TiedTemps(s: Src, params: seq<string>, m: Mach, m1: Mach, ps: seq<Ptr>, outside: World)
    requires Tied(s, params, m, ps, outside, []) && m1 == m.(temps := m1.temps)
    ensures Tied(s, params, m1, ps, outside, [])
  {
    hide Balanced, Holds;
  }

  /** The value computed first outlives the old one. */
  lemma ValueKept(e: Emitted, text: string, m: Mach, m2: Mach, r: Refs, rhs: Rhs)
    requires e.t < |m.temps| && Content(m.heap, m.temps[e.t]) == Some(text) && (e.heap ==> m.temps[e.t].Obj?)
    requires Keeps(m.heap, m2.heap) && m.temps <= m2.temps && Balanced(m2.heap, r) && r.temps == Owning([], e, m)
    requires !e.heap ==> !m.temps[e.t].Obj?
    ensures Content(m2.heap, m2.temps[e.t]) == Some(text)
  {
    hide Balanced, Keeps, Content;
    if e.heap {
      CountAt(r.temps, 0);
      ReferencedLives(m2.heap, r, m.temps[e.t].id);
    }
    ContentLater(m.heap, m2.heap, m.temps[e.t]);
  }

  lemma ReferencedLives(h: Heap, r: Refs, o: nat)
    requires Balanced(h, r) && Count(r.temps, o) > 0
    ensures o in h.objects
  {
    assert Total(r, o) > 0;
  }

  lemma WrapEmptied(v: Var, rhs: Rhs, e: Emitted, text: string, m: Mach, m2: Mach, ps: seq<Ptr>, outside: World, tape: Tape, prog: seq<CFun>, fuel: nat)
    requires e.heap == !rhs.Literal? && e.t < |m.temps| == e.n && |m2.temps| == e.n + 1 && m.temps <= m2.temps
    requires Content(m2.heap, m2.temps[e.t]) == Some(text) && (e.heap ==> m.temps[e.t].Obj?)
    requires Balanced(m2.heap, RefsOf(Emptied(v, m), outside, Owning([], e, m)))
    ensures var w := EmitWrap(rhs, e.t, e.n + 1);
      var r1 := ExecOps(w.ops, ps, m2, tape, prog, fuel);
      && r1.Ok? && w.t < |r1.value.temps|
      && r1.value == m2.(heap := r1.value.heap, temps := r1.value.temps)
      && Holds(r1.value.heap, r1.value.temps[w.t], text) && Keeps(m2.heap, r1.value.heap)
      && Balanced(r1.value.heap, RefsOf(Emptied(v, m), outside, [r1.value.temps[w.t]]))
  {
    hide Keeps, Balanced, EmitWrap;
    WrapTied(rhs, e, text, m2, RefsOf(Emptied(v, m), outside, Owning([], e, m)), ps, tape, prog, fuel);
  }

  lemma {:induction false} AssignTied(v: Var, rhs: Rhs, s: Src, params: seq<string>, m: Mach, ps: seq<Ptr>, outside: World, tape: Tape, prog: seq<Fun>, fuel: nat)
    requires ProgramOk(prog) && RhsOk(rhs, outside.bound, prog) && Tied(s, params, m, ps, outside, []) && |m.locals| == |s.locals|
    requires v.Global? ==> v.i in outside.bound.writes
    ensures var k := |s.locals|;
      Went(RunStmt(Assign(v, rhs), params, s, tape, prog, fuel), RunOne(EmitStmt(Assign(v, rhs), k), ps, m, tape, EmitProgram(prog), fuel), false, k, params, m, ps, outside)
    decreases fuel, 2, rhs, 0
  {
    hide Tied, Keeps, Holds, Balanced, EmitRhs, RhsValue, EmitProgram, Exec, EmitWrap;
    var cprog, k := EmitProgram(prog), |s.locals|;
    var e := EmitRhs(rhs, 0);
    var w := EmitWrap(rhs, e.t, e.n + 1);
    var drop := [OLoad(v), ORelease(e.n)];
    var m0 := m.(temps := []);
    TempsReset(s, params, m, ps, outside, [], []);
    RhsTied(rhs, s, params, m0, ps, outside, tape, prog, fuel);
    hide Later;
    RhsLocals(rhs, params, s, tape, prog, fuel);
    OpsCat(e.ops, drop, ps, m0, tape, cprog, fuel);
    OpsCat(e.ops + drop, w.ops, ps, m0, tape, cprog, fuel);
    OpsCat(e.ops + drop + w.ops, [OStore(v, w.t)], ps, m0, tape, cprog, fuel);
    var r := RhsValue(rhs, params, s, tape, prog, fuel);
    if r.Ok? {
      var (text, s1) := r.value;
      SetVarSlot(v, text, s1);
      if HasSlot(v, s1) {
        var m1 := ExecOps(e.ops, ps, m0, tape, cprog, fuel).value;
        LiteralStatic(rhs, m0, ps, tape, cprog, fuel);
        AssignStore(v, rhs, e, text, s1, params, m1, ps, outside, tape, cprog, fuel);
        var m2 := ExecOps(drop, ps, m1, tape, cprog, fuel).value;
        var m3 := ExecOps(w.ops, ps, m2, tape, cprog, fuel).value;
        var m4 := ExecOps([OStore(v, w.t)], ps, m3, tape, cprog, fuel).value;
        LaterTrans(outside, m, m1, m4);
        SetVarLocals(v, text, s1);
      }
    }
  }

  lemma SetVarLocals(v: Var, text: string, s: Src)
    ensures SetVar(v, text, s).Some? ==> |SetVar(v, text, s).value.locals| == |s.locals|
  {
  }

  lemma LiteralStatic(rhs: Rhs, m: Mach, ps: seq<Ptr>, tape: Tape, prog: seq<CFun>, fuel: nat)
    requires m.temps == []
    ensures rhs.Literal? ==> ExecOps(EmitRhs(rhs, 0).ops, ps, m, tape, prog, fuel) == Ok(Push(m, Static(rhs.s))) && !EmitRhs(rhs, 0).heap && EmitRhs(rhs, 0).t == 0
  {
    if rhs.Literal? {
      OpsOne(OStatic(rhs.s), ps, m, tape, prog, fuel);
    }
  }

  lemma CallResult(f: nat, args: seq<Arg>, params: seq<string>, s: Src, tape: Tape, prog: seq<Fun>, fuel: nat)
    ensures var r := CallValue(f, args, params, s, tape, prog, fuel);
      r.Ok? ==> f < |prog| && r.value.0.Some? == prog[f].owning && r.value.1.locals == s.locals
  {
    hide ArgValues, RunSeq;
  }

  lemma {:induction false} DoTied(f: nat, args: seq<Arg>, s: Src, params: seq<string>, m: Mach, ps: seq<Ptr>, outside: World, tape: Tape, prog: seq<Fun>, fuel: nat)
    requires ProgramOk(prog) && CallOk(f, args, outside.bound, prog) && Tied(s, params, m, ps, outside, []) && |m.locals| == |s.locals|
    requires f < |prog| ==> !prog[f].owning
    ensures var k := |s.locals|;
      Went(RunStmt(Do(f, args), params, s, tape, prog, fuel), RunOne(EmitStmt(Do(f, args), k), ps, m, tape, EmitProgram(prog), fuel), false, k, params, m, ps, outside)
    decreases fuel, 1, 1
  {
    hide Tied, Keeps, Holds, Balanced, EmitCall, EmitProgram, Exec, ExecOps, Invoke, ArgValues;
    var m0 := m.(temps := []);
    TempsReset(s, params, m, ps, outside, [], []);
    CallTied(f, args, s, params, m0, ps, outside, [], tape, prog, fuel);
    CallResult(f, args, params, s, tape, prog, fuel);
    var r := CallValue(f, args, params, s, tape, prog, fuel);
    if r.Ok? {
      var m1 := ExecOps(EmitCall(f, args, 0).ops, ps, m0, tape, EmitProgram(prog), fuel).value;
      LaterTrans(outside, m, m0, m1);
      assert [] + Result(r.value.0, m1.temps[EmitCall(f, args, 0).t]) == [];
    }
  }

  /** Locals still hold objects when they are released at a return. */
  lemma LocalsObj(s: Src, params: seq<string>, m: Mach, ps: seq<Ptr>, outside: World, temps: seq<Ptr>)
    requires Tied(s, params, m, ps, outside, temps) && |m.locals| == |s.locals|
    ensures forall j :: 0 <= j < |m.locals| ==> m.locals[j].Obj?
    ensures Balanced(m.heap, Refs(outside.refs, temps, m.locals[..|m.locals|], m.globals)) && Keeps(m.heap, m.heap)
    ensures GlobalsShow(s.globals, m) && m.pos == s.pos
  {
    assert m.locals[..|m.locals|] == m.locals;
  }

  /** Leaving with an owned text, or with none. */
  lemma LeaveTied(v: Option<string>, s: Src, params: seq<string>, m: Mach, p: Ptr, ps: seq<Ptr>, outside: World, tape: Tape, prog: seq<CFun>, fuel: nat)
    requires Tied(s, params, m, ps, outside, Result(v, p)) && |m.locals| == |s.locals|
    requires if v.Some? then Holds(m.heap, p, v.value) else p == Null
    ensures var r := ExecOps(ReleaseLocals(|s.locals|, |m.temps|), ps, m, tape, prog, fuel);
      r.Ok? && m.temps <= r.value.temps && Left(v, s, p, m, r.value, outside)
  {
    hide Tied, Balanced, Keeps, ExecOps, Holds;
    LocalsObj(s, params, m, ps, outside, Result(v, p));
    DropLocals(|s.locals|, ps, m, outside, Result(v, p), tape, prog, fuel);
    var m1 := ExecOps(ReleaseLocals(|s.locals|, |m.temps|), ps, m, tape, prog, fuel).value;
    var r1 := Refs(outside.refs, Result(v, p), [], m1.globals);
    GlobalsLater(s.globals, m, m1, r1);
    SameLater(outside, m, m1);
    if v.Some? {
      HoldsObj(m.heap, p, v.value);
      OneCount(p, p.id);
      HoldsLater(m.heap, m1.heap, r1, p, v.value);
    }
  }

  /** Returning a variable: the locals go, then its object gains one owner, which it can only if
      something other than the locals has kept it alive.  A constant cannot be counted at all. */
  lemma RetVarIff(v: Var, p: Ptr, s: Src, params: seq<string>, m: Mach, ps: seq<Ptr>, outside: World, tape: Tape, prog: seq<CFun>, fuel: nat)
    requires Tied(s, params, m, ps, outside, []) && |m.locals| == |s.locals| && m.temps == []
    requires ValueOf(v, params, s).Some? && Slot(v, ps, m) == Some(p)
    ensures var r := ExecOps([OLoad(v)] + ReleaseLocals(|s.locals|, 1) + [ORetain(0)], ps, m, tape, prog, fuel);
      if p.Obj? && Count(outside.refs, p.id) + Count(m.globals, p.id) > 0
      then r.Ok? && |r.value.temps| > 0 && r.value.temps[0] == p && Left(ValueOf(v, params, s), s, p, m, r.value, outside)
      else r.Wrong?
  {
    hide Tied, Balanced, Keeps, ExecOps, ValueOf, Left, Content;
    LoadTied(v, s, params, m, ps, outside, [], tape, prog, fuel);
    SlotTied(v, s, params, m, ps, outside, []);
    var text := ValueOf(v, params, s).value;
    assert p != Null by { NullContent(m.heap); }
    var m1 := Push(m, p);
    TempsReset(s, params, m, ps, outside, [], [p]);
    assert m1 == m.(temps := [p]);
    var drop := ReleaseLocals(|s.locals|, 1);
    OpsCat([OLoad(v)], drop, ps, m, tape, prog, fuel);
    OpsCat([OLoad(v)] + drop, [ORetain(0)], ps, m, tape, prog, fuel);
    LocalsObj(s, params, m1, ps, outside, []);
    DropLocals(|s.locals|, ps, m1, outside, [], tape, prog, fuel);
    var m2 := ExecOps(drop, ps, m1, tape, prog, fuel).value;
    OpsOne(ORetain(0), ps, m2, tape, prog, fuel);
    if p.Obj? {
      hide Retain;
      RetainIff(v, p, text, s, m, m2, outside);
    }
  }

  lemma NullContent(h: Heap)
    ensures Content(h, Null) == None
  {
  }

  lemma RetainIff(v: Var, p: Ptr, text: string, s: Src, m: Mach, m2: Mach, outside: World)
    requires Balanced(m2.heap, Refs(outside.refs, [], [], m.globals)) && m2.globals == m.globals && m2.pos == m.pos == s.pos
    requires Keeps(m.heap, m2.heap) && Holds(m.heap, p, text) && GlobalsShow(s.globals, m)
    ensures if Count(outside.refs, p.id) + Count(m.globals, p.id) > 0
      then Retain(m2.heap, p).Some? && Left(Some(text), s, p, m, Push(m2.(heap := Retain(m2.heap, p).value), p), outside)
      else Retain(m2.heap, p).None?
  {
    hide Balanced, Keeps, Holds, Retain;
    HoldsObj(m.heap, p, text);
    var r, r1 := Refs(outside.refs, [], [], m2.globals), Refs(outside.refs, [p], [], m2.globals);
    assert Total(r, p.id) == Count(outside.refs, p.id) + Count(m.globals, p.id) by { assert Count([], p.id) == 0; }
    if Total(r, p.id) > 0 {
      forall o: nat ensures Total(r1, o) == Total(r, o) + if o == p.id then 1 else 0 { OneCount(p, o); assert Count([], o) == 0; }
      RetainBalanced(m2.heap, r, r1, p.id);
      var m3 := Push(m2.(heap := Retain(m2.heap, p).value), p);
      Arc.KeepsTrans(m.heap, m2.heap, m3.heap);
      SameLater(outside, m, m3);
      GlobalsLater(s.globals, m, m3, r1);
      OneCount(p, p.id);
      HoldsLater(m.heap, m3.heap, r1, p, text);
    } else {
      DeadRetain(m2.heap, r, p.id);
    }
  }

  lemma DeadRetain(h: Heap, r: Refs, o: nat)
    requires Balanced(h, r) && Total(r, o) == 0
    ensures Retain(h, Obj(o)).None?
  {
  }

  /** Returning a parameter or a global, which something else always keeps. */
  lemma RetVarTied(v: Var, s: Src, params: seq<string>, m: Mach, ps: seq<Ptr>, outside: World, tape: Tape, prog: seq<CFun>, fuel: nat)
    requires Tied(s, params, m, ps, outside, []) && |m.locals| == |s.locals| && m.temps == []
    requires !v.Local? && (v.Param? ==> v.i !in outside.bound.plain) && ValueOf(v, params, s).Some?
    ensures var r := ExecOps([OLoad(v)] + ReleaseLocals(|s.locals|, 1) + [ORetain(0)], ps, m, tape, prog, fuel);
      && r.Ok? && |r.value.temps| > 0
      && Left(ValueOf(v, params, s), s, r.value.temps[0], m, r.value, outside)
  {
    hide Tied, ExecOps, ValueOf, Left, Slot, Content;
    SlotTied(v, s, params, m, ps, outside, []);
    var p := Slot(v, ps, m).value;
    StaysAlive(v, p, s, params, m, ps, outside);
    RetVarIff(v, p, s, params, m, ps, outside, tape, prog, fuel);
  }

  /** A parameter is kept by the outside and a global by its slot. */
  lemma StaysAlive(v: Var, p: Ptr, s: Src, params: seq<string>, m: Mach, ps: seq<Ptr>, outside: World)
    requires Tied(s, params, m, ps, outside, []) && !v.Local? && ValueOf(v, params, s).Some? && Slot(v, ps, m) == Some(p) && p.Obj?
    ensures Count(outside.refs, p.id) + Count(m.globals, p.id) > 0
  {
    hide Balanced;
    if v.Global? { CountAt(m.globals, v.i); } else { LentLives(p, v.i, m.globals, outside); }
  }

  lemma {:induction false} RetTied(ret: Ret, s: Src, params: seq<string>, m: Mach, ps: seq<Ptr>, outside: World, tape: Tape, prog: seq<Fun>, fuel: nat)
    requires ProgramOk(prog) && StmtOk(Return(ret), outside.bound, prog) && Tied(s, params, m, ps, outside, []) && |m.locals| == |s.locals|
    ensures var k := |s.locals|;
      Went(RunStmt(Return(ret), params, s, tape, prog, fuel), RunOne(EmitStmt(Return(ret), k), ps, m, tape, EmitProgram(prog), fuel), false, k, params, m, ps, outside)
    decreases fuel, 2, ret, 0
  {
    hide Tied, Keeps, Holds, Balanced, EmitRhs, RhsValue, EmitProgram, Exec, ExecOps, ReleaseLocals, ValueOf, Left, Later, RhsOk;
    var cprog := EmitProgram(prog);
    var m0 := m.(temps := []);
    TempsReset(s, params, m, ps, outside, [], []);
    match ret
    case RInt =>
      LeaveTied(None, s, params, m0, Null, ps, outside, tape, cprog, fuel);
      LeftLater(None, s, Null, m, m0, ExecOps(ReleaseLocals(|s.locals|, 0), ps, m0, tape, cprog, fuel).value, outside);
    case RVar(v) =>
      if ValueOf(v, params, s).Some? {
        RetVarTied(v, s, params, m0, ps, outside, tape, cprog, fuel);
        var m1 := ExecOps([OLoad(v)] + ReleaseLocals(|s.locals|, 1) + [ORetain(0)], ps, m0, tape, cprog, fuel).value;
        LeftLater(ValueOf(v, params, s), s, m1.temps[0], m, m0, m1, outside);
      }
    case ROwned(rhs) =>
      var e := EmitRhs(rhs, 0);
      RhsTied(rhs, s, params, m0, ps, outside, tape, prog, fuel);
      RhsLocals(rhs, params, s, tape, prog, fuel);
      OpsCat(e.ops, ReleaseLocals(|s.locals|, e.n), ps, m0, tape, cprog, fuel);
      var r := RhsValue(rhs, params, s, tape, prog, fuel);
      if r.Ok? {
        var (text, s1) := r.value;
        var m1 := ExecOps(e.ops, ps, m0, tape, cprog, fuel).value;
        BuiltHolds(e, text, s1, params, m1, ps, outside);
        LeaveTied(Some(text), s1, params, m1, m1.temps[e.t], ps, outside, tape, cprog, fuel);
        var m2 := ExecOps(ReleaseLocals(|s.locals|, e.n), ps, m1, tape, cprog, fuel).value;
        LaterTrans(outside, m, m0, m1);
        LeftLater(Some(text), s1, m1.temps[e.t], m, m1, m2, outside);
      }
  }

  lemma BuiltHolds(e: Emitted, text: string, s: Src, params: seq<string>, m: Mach, ps: seq<Ptr>, outside: World)
    requires Built(e, text, s, params, m, ps, outside, []) && e.heap
    ensures Holds(m.heap, m.temps[e.t], text) && Tied(s, params, m, ps, outside, Result(Some(text), m.temps[e.t]))
  {
    hide Tied;
    assert [] + [m.temps[e.t]] == [m.temps[e.t]];
  }

  lemma LeftLater(v: Option<string>, s: Src, p: Ptr, m0: Mach, m1: Mach, m: Mach, outside: World)
    requires Left(v, s, p, m1, m, outside) && Later(outside, m0, m1)
    ensures Left(v, s, p, m0, m, outside)
  {
    hide Balanced, Later;
    LaterTrans(outside, m0, m1, m);
  }

  lemma PosTied(s: Src, params: seq<string>, m: Mach, ps: seq<Ptr>, outside: World)
    requires Tied(s, params, m, ps, outside, [])
    ensures m.pos == s.pos && Tied(s.(pos := s.pos + 1), params, m.(pos := m.pos + 1), ps, outside, []) && Later(outside, m, m.(pos := m.pos + 1)) && Later(outside, m, m)
  {
    hide Balanced, Holds;
    TiedPos(s, params, m, ps, outside, []);
  }

  /** A run from a later state, seen from the start. */
  lemma WentLater(r: ArcCode.Result<(Outcome, Src)>, r1: ArcCode.Result<(Exit, Mach)>, top: bool, n: nat, params: seq<string>, m: Mach, m1: Mach, ps: seq<Ptr>, outside: World)
    requires Went(r, r1, top, n, params, m1, ps, outside) && Later(outside, m, m1)
    ensures Went(r, r1, top, n, params, m, ps, outside)
  {
    hide Tied, Later, Left;
    if r.Ok? {
      if r.value.0.Returned? {
        LeftLater(r.value.0.v, r.value.1, r1.value.0.p, m, m1, r1.value.1, outside);
      } else {
        LaterTrans(outside, m, m1, r1.value.1);
      }
    }
  }

  lemma {:induction false} SeqTied(ss: seq<Stmt>, top: bool, s: Src, params: seq<string>, m: Mach, ps: seq<Ptr>, outside: World, tape: Tape, prog: seq<Fun>, fuel: nat)
    requires ProgramOk(prog) && SeqOk(ss, top, outside.bound, prog) && Tied(s, params, m, ps, outside, []) && |m.locals| == |s.locals|
    ensures var k := |s.locals|;
      Went(RunSeq(ss, params, s, tape, prog, fuel), RunCode(EmitSeq(ss, k), ps, m, tape, EmitProgram(prog), fuel), top, k + Declared(ss), params, m, ps, outside)
    decreases fuel, 2, ss, 1
  {
    hide Tied, Later, Left, EmitStmt, RunStmt, RunOne, EmitProgram, StmtOk, Shallow;
    var k, cprog := |s.locals|, EmitProgram(prog);
    if ss == [] {
      TiedPos(s, params, m, ps, outside, []);
    } else {
      StmtTied(ss[0], top, s, params, m, ps, outside, tape, prog, fuel);
      var r, r1 := RunStmt(ss[0], params, s, tape, prog, fuel), RunOne(EmitStmt(ss[0], k), ps, m, tape, cprog, fuel);
      var code := EmitSeq(ss, k);
      if Ends(ss[0]) { EndsJump(ss[0], params, s, tape, prog, fuel); }
      if !top { NoneDeclared(ss); }
      if r.Ok? && r.value.0.Normal? {
        var s1, m1 := r.value.1, r1.value.1;
        var k1 := |s1.locals|;
        assert code[1..] == EmitSeq(ss[1..], k1);
        SeqTied(ss[1..], top, s1, params, m1, ps, outside, tape, prog, fuel);
        WentLater(RunSeq(ss[1..], params, s1, tape, prog, fuel), RunCode(EmitSeq(ss[1..], k1), ps, m1, tape, cprog, fuel), top, k + Declared(ss), params, m, m1, ps, outside);
      }
    }
  }

  lemma EndsJump(st: Stmt, params: seq<string>, s: Src, tape: Tape, prog: seq<Fun>, fuel: nat)
    requires Ends(st)
    ensures var r := RunStmt(st, params, s, tape, prog, fuel); r.Ok? ==> !r.value.0.Normal?
  {
    hide RhsValue;
  }

  lemma {:induction false} StmtTied(st: Stmt, top: bool, s: Src, params: seq<string>, m: Mach, ps: seq<Ptr>, outside: World, tape: Tape, prog: seq<Fun>, fuel: nat)
    requires ProgramOk(prog) && Shallow(st, top) && StmtOk(st, outside.bound, prog) && Tied(s, params, m, ps, outside, []) && |m.locals| == |s.locals|
    ensures var k := |s.locals|;
      Went(RunStmt(st, params, s, tape, prog, fuel), RunOne(EmitStmt(st, k), ps, m, tape, EmitProgram(prog), fuel), top, if st.Declare? then k + 1 else k, params, m, ps, outside)
    decreases fuel, 2, st, 2
  {
    hide Tied, Later, Left, RhsOk, EmitRhs, RhsValue, EmitProgram, Exec, ExecOps, ValueOf;
    var k, cprog := |s.locals|, EmitProgram(prog);
    PosTied(s, params, m, ps, outside);
    match st
    case Declare(rhs) => DeclareTied(rhs, s, params, m, ps, outside, tape, prog, fuel);
    case Assign(v, rhs) => AssignTied(v, rhs, s, params, m, ps, outside, tape, prog, fuel);
    case Do(f, args) => DoTied(f, args, s, params, m, ps, outside, tape, prog, fuel);
    case If(thn, els) => IfTied(st, s, params, m, ps, outside, tape, prog, fuel);
    case Loop(body) => LoopTied(body, s, params, m, ps, outside, tape, prog, fuel);
    case Break =>
    case Continue =>
    case Return(ret) => RetTied(ret, s, params, m, ps, outside, tape, prog, fuel);
  }

  lemma {:induction false} IfTied(st: Stmt, s: Src, params: seq<string>, m: Mach, ps: seq<Ptr>, outside: World, tape: Tape, prog: seq<Fun>, fuel: nat)
    requires ProgramOk(prog) && st.If? && StmtOk(st, outside.bound, prog) && Shallow(st, false) && Tied(s, params, m, ps, outside, []) && |m.locals| == |s.locals|
    ensures var k := |s.locals|;
      Went(RunStmt(st, params, s, tape, prog, fuel), RunOne(EmitStmt(st, k), ps, m, tape, EmitProgram(prog), fuel), false, k, params, m, ps, outside)
    decreases fuel, 2, st, 1
  {
    hide Tied, Later, Left, EmitSeq, RunSeq, RunCode, EmitProgram, StmtOk, Shallow;
    PosTied(s, params, m, ps, outside);
    IfOk(st, outside.bound, prog);
    var arm := if tape(s.pos) != 0 then st.thn else st.els;
    var s1, m1 := s.(pos := s.pos + 1), m.(pos := m.pos + 1);
    NoneDeclared(arm);
    SeqTied(arm, false, s1, params, m1, ps, outside, tape, prog, fuel);
    WentLater(RunSeq(arm, params, s1, tape, prog, fuel), RunCode(EmitSeq(arm, |s.locals|), ps, m1, tape, EmitProgram(prog), fuel), false, |s.locals|, params, m, m1, ps, outside);
  }

  lemma IfOk(st: Stmt, mine: Bound, prog: seq<Fun>)
    requires st.If? && StmtOk(st, mine, prog) && Shallow(st, false)
    ensures SeqOk(st.thn, false, mine, prog) && SeqOk(st.els, false, mine, prog)
  {
  }

  lemma {:induction false} LoopTied(body: seq<Stmt>, s: Src, params: seq<string>, m: Mach, ps: seq<Ptr>, outside: World, tape: Tape, prog: seq<Fun>, fuel: nat)
    requires ProgramOk(prog) && SeqOk(body, false, outside.bound, prog) && Tied(s, params, m, ps, outside, []) && |m.locals| == |s.locals|
    ensures var k := |s.locals|;
      Went(RunLoop(body, params, s, tape, prog, fuel), RunAgain(EmitSeq(body, k), ps, m, tape, EmitProgram(prog), fuel), false, k, params, m, ps, outside)
    decreases fuel, 2, body, 2
  {
    hide Tied, Later, Left, EmitSeq, RunSeq, RunCode, EmitProgram, StmtOk, Shallow;
    PosTied(s, params, m, ps, outside);
    if fuel > 0 && tape(s.pos) != 0 {
      var k, cprog := |s.locals|, EmitProgram(prog);
      var s1, m1 := s.(pos := s.pos + 1), m.(pos := m.pos + 1);
      NoneDeclared(body);
      SeqTied(body, false, s1, params, m1, ps, outside, tape, prog, fuel - 1);
      var r, r1 := RunSeq(body, params, s1, tape, prog, fuel - 1), RunCode(EmitSeq(body, k), ps, m1, tape, cprog, fuel - 1);
      WentLater(r, r1, false, k, params, m, m1, ps, outside);
      if r.Ok? && (r.value.0.Normal? || r.value.0.Continued?) {
        var s2, m2 := r.value.1, r1.value.1;
        LoopTied(body, s2, params, m2, ps, outside, tape, prog, fuel - 1);
        WentLater(RunLoop(body, params, s2, tape, prog, fuel - 1), RunAgain(EmitSeq(body, k), ps, m2, tape, cprog, fuel - 1), false, k, params, m, m2, ps, outside);
      }
    }
  }

  /** A whole call: the code of a function of the fragment returns what the function means,
      touches nothing dead, and leaves every count exact. */
  lemma {:induction false} InvokeTied(f: Fun, values: seq<string>, s: Src, m: Mach, ps: seq<Ptr>, outside: World, tape: Tape, prog: seq<Fun>, fuel: nat)
    requires ProgramOk(prog) && SeqOk(f.body, true, outside.bound, prog) && s.locals == [] && m.locals == []
    requires Tied(s, values, m, ps, outside, [])
    ensures var r, r1 := Invoke(f, values, s, tape, prog, fuel), Enter(EmitFun(f), ps, m, tape, EmitProgram(prog), fuel);
      && (r.Timeout? ==> r1.Timeout?)
      && (r.Ok? ==> r1.Ok? && Left(r.value.0, r.value.1, r1.value.0, m, r1.value.1, outside))
    decreases fuel, 3
  {
    hide Tied, Later, Left, EmitSeq, RunSeq, RunCode, EmitProgram, StmtOk, Shallow, ReleaseLocals, ExecOps;
    var cprog := EmitProgram(prog);
    SeqTied(f.body, true, s, values, m, ps, outside, tape, prog, fuel);
    var r, r1 := RunSeq(f.body, values, s, tape, prog, fuel), RunCode(EmitSeq(f.body, 0), ps, m, tape, cprog, fuel);
    if r.Ok? && r.value.0.Normal? && !f.owning {
      var s1, m1 := r.value.1, r1.value.1.(temps := []);
      TempsReset(s1, values, r1.value.1, ps, outside, [], []);
      assert Tied(s1, values, m1, ps, outside, Result(None, Null));
      LeaveTied(None, s1, values, m1, Null, ps, outside, tape, cprog, fuel);
      var m2 := ExecOps(ReleaseLocals(|s1.locals|, 0), ps, m1, tape, cprog, fuel).value;
      LaterTrans(outside, m, r1.value.1, m1);
      LeftLater(None, s1, Null, m, m1, m2, outside);
    }
  }
}
