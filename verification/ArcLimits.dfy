/** Where the balance breaks: exactly when arguments, stored values, concatenations, dropped results,
    returns and assigned globals lose or miss a reference, and programs that show it. */

module ArcLimits {
  import opened Options
  import opened Int64
  import opened Arc
  import opened ArcCode
  import opened ArcExact
  import opened ArcLaws

  // ---- F-string arguments are released after the call whatever they are made of.

  /** The pointers released after the call. */
  function Released(args: seq<Arg>, ts: seq<nat>, temps: seq<Ptr>): seq<Ptr>
    requires |args| == |ts|
  {
    if args == [] then []
    else (if args[0].AFString? && ts[0] < |temps| then [temps[ts[0]]] else []) + Released(args[1..], ts[1..], temps)
  }

  /** A release that goes well takes one from the count of an object. */
  lemma ReleaseCounts(h: Heap, p: Ptr, o: nat)
    ensures Release(h, p).Some? ==> !p.Static? && CountIn(Release(h, p).value, o) == CountIn(h, o) - (if p == Obj(o) then 1 else 0)
  {
  }

  /** When all releases go well, none was of a constant and each count has dropped by as much as
      its object was released. */
  lemma {:induction false} ReleasedCounts(args: seq<Arg>, ts: seq<nat>, m: Mach, ps: seq<Ptr>, tape: Tape, prog: seq<CFun>, fuel: nat)
    requires |args| == |ts| && forall i :: 0 <= i < |ts| ==> ts[i] < |m.temps|
    ensures var r := ExecOps(ReleaseArgs(args, ts), ps, m, tape, prog, fuel);
      r.Ok? ==>
        && r.value == m.(heap := r.value.heap)
        && (forall i :: 0 <= i < |args| && args[i].AFString? ==> !m.temps[ts[i]].Static?)
        && forall o: nat :: CountIn(r.value.heap, o) == CountIn(m.heap, o) - Count(Released(args, ts, m.temps), o)
    decreases |args|
  {
    hide Release, CountIn;
    if args == [] {
      forall o: nat ensures Count([], o) == 0 { }
    } else {
      var p := m.temps[ts[0]];
      var first := ReleaseIf(args[0].AFString?, ts[0]);
      OpsCat(first, ReleaseArgs(args[1..], ts[1..]), ps, m, tape, prog, fuel);
      if args[0].AFString? { OpsOne(ORelease(ts[0]), ps, m, tape, prog, fuel); } else { NoOps(ps, m, tape, prog, fuel); }
      var r := ExecOps(first, ps, m, tape, prog, fuel);
      if r.Ok? {
        ReleasedCounts(args[1..], ts[1..], r.value, ps, tape, prog, fuel);
        var mine, rest := if args[0].AFString? then [p] else [], Released(args[1..], ts[1..], m.temps);
        assert Released(args, ts, m.temps) == mine + rest;
        forall o: nat
          ensures CountIn(r.value.heap, o) == CountIn(m.heap, o) - Count(mine, o)
          ensures Count(mine + rest, o) == Count(mine, o) + Count(rest, o)
        {
          CountCat(mine, rest, o);
          OneCount(p, o);
          ReleaseCounts(m.heap, p, o);
        }
        if args[0].AFString? { ReleaseCounts(m.heap, p, 0); }
        var r1 := ExecOps(ReleaseArgs(args, ts), ps, m, tape, prog, fuel);
        if r1.Ok? {
          forall i | 0 <= i < |args| && args[i].AFString? ensures !m.temps[ts[i]].Static? {
            if i > 0 { assert args[1..][i - 1] == args[i] && ts[1..][i - 1] == ts[i]; }
          }
        }
      }
    }
  }

  /** No object is released less often than arguments own it, and one that an argument only
      borrows is released more often. */
  lemma {:induction false} ReleasedMore(args: seq<Arg>, ts: seq<nat>, temps: seq<Ptr>, o: nat)
    requires |args| == |ts|
    ensures Count(Released(args, ts, temps), o) >= Count(ArgOwners(args, ts, temps), o)
    ensures (exists i :: 0 <= i < |args| && args[i].AFString? && !OwnsArg(args[i]) && ts[i] < |temps| && temps[ts[i]] == Obj(o)) ==>
      Count(Released(args, ts, temps), o) > Count(ArgOwners(args, ts, temps), o)
    decreases |args|
  {
    hide OwnsArg;
    if args != [] {
      var released := if args[0].AFString? && ts[0] < |temps| then [temps[ts[0]]] else [];
      var owned := if OwnsArg(args[0]) && ts[0] < |temps| then [temps[ts[0]]] else [];
      ReleasedMore(args[1..], ts[1..], temps, o);
      CountCat(released, Released(args[1..], ts[1..], temps), o);
      CountCat(owned, ArgOwners(args[1..], ts[1..], temps), o);
      if ts[0] < |temps| { OneCount(temps[ts[0]], o); }
      OwnsFString(args[0]);
      if i :| 0 <= i < |args| && args[i].AFString? && !OwnsArg(args[i]) && ts[i] < |temps| && temps[ts[i]] == Obj(o) {
        if i > 0 { assert args[1..][i - 1] == args[i] && ts[1..][i - 1] == ts[i]; }
      }
    }
  }

  lemma OwnsFString(a: Arg)
    ensures OwnsArg(a) ==> a.AFString?
  {
  }

  /** A call that means something leaves every count exact if and only if each f-string among its
      arguments makes an object.  An empty one and a single variable do not; nor would a single text,
      but the parser makes that a plain literal (src/frontend/parser.c:2195-2200). */
  lemma {:induction false} CallIff(f: nat, args: seq<Arg>, s: Src, params: seq<string>, m: Mach, ps: seq<Ptr>, outside: World, temps: seq<Ptr>, tape: Tape, prog: seq<Fun>, fuel: nat)
    requires ProgramOk(prog) && CallPasses(f, args, outside.bound, prog) && Tied(s, params, m, ps, outside, temps)
    requires CallValue(f, args, params, s, tape, prog, fuel).Ok?
    ensures var v, e := CallValue(f, args, params, s, tape, prog, fuel).value.0, EmitCall(f, args, |m.temps|);
      var r := ExecOps(e.ops, ps, m, tape, EmitProgram(prog), fuel);
      (r.Ok? && e.t < |r.value.temps| && Balanced(r.value.heap, RefsOf(r.value, outside, temps + ArcExact.Result(v, r.value.temps[e.t])))) <==> ArgsOwn(args)
  {
    hide Tied, CallValue, ExecOps, EmitArgs, ReleaseArgs, CallPasses, ArgsOwn, Later, Keeps, ArgOwners, Holds, Released, Balanced;
    var v, e, a := CallValue(f, args, params, s, tape, prog, fuel).value.0, EmitCall(f, args, |m.temps|), EmitArgs(args, |m.temps|);
    var cprog := EmitProgram(prog);
    if ArgsOwn(args) {
      CallTied(f, args, s, params, m, ps, outside, temps, tape, prog, fuel);
      var m1 := ExecOps(e.ops, ps, m, tape, cprog, fuel).value;
      TiedBalanced(CallValue(f, args, params, s, tape, prog, fuel).value.1, params, m1, ps, outside, temps + ArcExact.Result(v, m1.temps[e.t]));
    } else {
      CallMade(f, args, s, params, m, ps, outside, temps, tape, prog, fuel);
      var m1 := ExecOps(a.ops + [OCall(f, a.ts)], ps, m, tape, cprog, fuel).value;
      OpsCat(a.ops + [OCall(f, a.ts)], ReleaseArgs(args, a.ts), ps, m, tape, cprog, fuel);
      ReleasesUnbalance(args, a.ts, a.n, v, CallValue(f, args, params, s, tape, prog, fuel).value.1, params, m1, ps, outside, temps, tape, cprog, fuel);
    }
  }

  lemma {:induction false} ReleasesUnbalance(args: seq<Arg>, ts: seq<nat>, n: nat, v: Option<string>, s: Src, params: seq<string>, m: Mach, ps: seq<Ptr>, outside: World, temps: seq<Ptr>, tape: Tape, prog: seq<CFun>, fuel: nat)
    requires |args| == |ts| && n < |m.temps| && !ArgsOwn(args)
    requires forall i :: 0 <= i < |ts| ==> ts[i] < |m.temps| && !m.temps[ts[i]].Null?
    requires Tied(s, params, m, ps, outside, temps + ArgOwners(args, ts, m.temps) + ArcExact.Result(v, m.temps[n]))
    ensures var r := ExecOps(ReleaseArgs(args, ts), ps, m, tape, prog, fuel);
      r.Ok? ==> r.value.temps == m.temps && !Balanced(r.value.heap, RefsOf(r.value, outside, temps + ArcExact.Result(v, m.temps[n])))
  {
    hide Tied, ReleaseArgs, ExecOps, Released, ArgOwners, CountIn, OwnsArg;
    var r := ExecOps(ReleaseArgs(args, ts), ps, m, tape, prog, fuel);
    ReleasedCounts(args, ts, m, ps, tape, prog, fuel);
    if r.Ok? {
      var i :| 0 <= i < |args| && args[i].AFString? && !OwnsArg(args[i]);
      var o := m.temps[ts[i]].id;
      assert m.temps[ts[i]] == Obj(o);
      ReleasedMore(args, ts, m.temps, o);
      var owners, result := ArgOwners(args, ts, m.temps), ArcExact.Result(v, m.temps[n]);
      CountCat(temps, owners, o); CountCat(temps + owners, result, o); CountCat(temps, result, o);
      TiedBalanced(s, params, m, ps, outside, temps + owners + result);
      var r1 := RefsOf(r.value, outside, temps + result);
      if Balanced(r.value.heap, r1) {
        hide Balanced;
        BalanceMoves(m.heap, RefsOf(m, outside, temps + owners + result), r.value.heap, r1, o);
      }
    }
  }

  /** Of one argument: evaluating an f-string and releasing it again changes nothing if and only
      if it makes an object. */
  lemma {:induction false} ArgumentIff(parts: seq<Part>, s: Src, params: seq<string>, m: Mach, ps: seq<Ptr>, outside: World, temps: seq<Ptr>, tape: Tape, prog: seq<CFun>, fuel: nat)
    requires Tied(s, params, m, ps, outside, temps) && FStringValue(parts, params, s, tape).Some?
    ensures var a := AFString(parts);
      var e := EmitArg(a, |m.temps|);
      var r := ExecOps(e.ops + ReleaseArgs([a], [e.t]), ps, m, tape, prog, fuel);
      (r.Ok? && Balanced(r.value.heap, RefsOf(r.value, outside, temps))) <==> Owns(parts)
  {
    var a := AFString(parts);
    var e := EmitArg(a, |m.temps|);
    OneReleased(a, e.t);
    OpsCat(e.ops, [ORelease(e.t)], ps, m, tape, prog, fuel);
    if Owns(parts) {
      hide Tied, FStringValue, ExecOps, EmitFString, Owns, Young, Grows;
      FStringTied(parts, s, params, m, ps, outside, temps, tape, prog, fuel);
      var m1 := ExecOps(e.ops, ps, m, tape, prog, fuel).value;
      var (text, pos) := FStringValue(parts, params, s, tape).value;
      var p := m1.temps[e.t];
      assert Built(e, text, s.(pos := pos), params, m1, ps, outside, temps);
      forall o: nat ensures Count(temps, o) == Count(temps + [p], o) - Count([p], o) { CountCat(temps, [p], o); }
      ReleaseIfTied(true, e.t, s.(pos := pos), params, m1, ps, outside, temps + [p], temps, tape, prog, fuel);
      var m2 := ExecOps([ORelease(e.t)], ps, m1, tape, prog, fuel).value;
      TiedBalanced(s.(pos := pos), params, m2, ps, outside, temps);
    } else {
      BorrowedReleased(parts, s, params, m, ps, outside, temps, tape, prog, fuel);
    }
  }

  lemma OneReleased(a: Arg, t: nat)
    requires a.AFString?
    ensures ReleaseArgs([a], [t]) == [ORelease(t)]
  {
    assert [a][1..] == [] && [t][1..] == [];
  }

  lemma {:induction false} BorrowedReleased(parts: seq<Part>, s: Src, params: seq<string>, m: Mach, ps: seq<Ptr>, outside: World, temps: seq<Ptr>, tape: Tape, prog: seq<CFun>, fuel: nat)
    requires Tied(s, params, m, ps, outside, temps) && FStringValue(parts, params, s, tape).Some? && !Owns(parts)
    ensures var e := EmitArg(AFString(parts), |m.temps|);
      var r := ExecOps(e.ops + [ORelease(e.t)], ps, m, tape, prog, fuel);
      !(r.Ok? && Balanced(r.value.heap, RefsOf(r.value, outside, temps)))
  {
    hide Tied, FStringValue, ExecOps, EmitFString, Balanced, ValueOf;
    var a := AFString(parts);
    var e := EmitArg(a, |m.temps|);
    SimpleSame(a, |m.temps|, params, s, tape);
    OpsCat(e.ops, [ORelease(e.t)], ps, m, tape, prog, fuel);
    TiedBalanced(s, params, m, ps, outside, temps);
    match Simple(a)
    case ALiteral(t) =>
      StaticTied(t, s, params, m, ps, outside, temps, tape, prog, fuel);
      OpsOne(ORelease(e.t), ps, Push(m, Static(t)), tape, prog, fuel);
    case AVar(v) =>
      LoadTied(v, s, params, m, ps, outside, temps, tape, prog, fuel);
      SlotTied(v, s, params, m, ps, outside, temps);
      var p := Slot(v, ps, m).value;
      OpsOne(ORelease(e.t), ps, Push(m, p), tape, prog, fuel);
      if p.Obj? { ReleaseUnbalances(m.heap, RefsOf(m, outside, temps), p.id); }
  }

  lemma {:induction false} ReleaseUnbalances(h: Heap, r: Refs, o: nat)
    requires Balanced(h, r) && Total(r, o) > 0
    ensures Release(h, Obj(o)).Some?
    ensures var h1 := Release(h, Obj(o)).value; CountIn(h1, o) == CountIn(h, o) - 1 && !Balanced(h1, r)
  {
    var h1 := Release(h, Obj(o)).value;
    if Balanced(h1, r) { BalanceMoves(h, r, h1, r, o); }
  }

  // ---- Values that are stored.

  /** A declared value is taken for an object of its own.  So the slots show their strings and
      every count is exact afterwards if and only if it is one: not a copied variable, nor an
      f-string of only that, which then has two owners that count as one, nor an empty f-string,
      which is a constant that cannot be released. */
  lemma {:induction false} StoredIff(rhs: Rhs, s: Src, params: seq<string>, m: Mach, ps: seq<Ptr>, outside: World, tape: Tape, prog: seq<Fun>, fuel: nat)
    requires ProgramOk(prog) && Tied(s, params, m, ps, outside, []) && |m.locals| == |s.locals|
    requires !rhs.CallString? && RhsValue(rhs, params, s, tape, prog, fuel).Ok?
    ensures var (text, s1) := RhsValue(rhs, params, s, tape, prog, fuel).value;
      var r := RunOne(EmitStmt(Declare(rhs), |s.locals|), ps, m, tape, EmitProgram(prog), fuel);
      r.Ok? && (Tied(s1.(locals := s1.locals + [text]), params, r.value.1, ps, outside, []) <==> !rhs.Copy? && (rhs.FString? ==> Owns(rhs.parts)))
  {
    if RhsOk(rhs, outside.bound, prog) {
      hide Tied, RunOne, EmitStmt, RhsValue, RhsOk, Later;
      DeclareTied(rhs, s, params, m, ps, outside, tape, prog, fuel);
    } else {
      StoredBorrowed(rhs, s, params, m, ps, outside, tape, prog, fuel);
    }
  }

  lemma {:induction false} StoredBorrowed(rhs: Rhs, s: Src, params: seq<string>, m: Mach, ps: seq<Ptr>, outside: World, tape: Tape, prog: seq<Fun>, fuel: nat)
    requires Tied(s, params, m, ps, outside, []) && |m.locals| == |s.locals| && RhsValue(rhs, params, s, tape, prog, fuel).Ok?
    requires rhs.Copy? || (rhs.FString? && !Owns(rhs.parts))
    ensures var (text, s1) := RhsValue(rhs, params, s, tape, prog, fuel).value;
      var r := RunOne(EmitStmt(Declare(rhs), |s.locals|), ps, m, tape, EmitProgram(prog), fuel);
      r.Ok? && !Tied(s1.(locals := s1.locals + [text]), params, r.value.1, ps, outside, [])
  {
    hide Tied, Exec, ExecOps, RhsValue, Balanced, Content, Owns;
    var k, cprog, m0, e := |s.locals|, EmitProgram(prog), m.(temps := []), EmitRhs(rhs, 0);
    var m1 := m0.(locals := m.locals + [Null]);
    TempsReset(s, params, m, ps, outside, [], []);
    SlotAdded(s, params, m0, ps, outside);
    DeclareOp(ps, m0, tape, cprog, fuel);
    var p := BorrowedValue(rhs, s, params, m1, ps, outside, tape, prog, fuel);
    hide EmitRhs;
    OpsCat([ODeclare], e.ops, ps, m0, tape, cprog, fuel);
    OpsCat([ODeclare] + e.ops, [], ps, m0, tape, cprog, fuel);
    NoOps(ps, Push(m1, p), tape, cprog, fuel);
    OpsCat([ODeclare] + e.ops + [], [OStore(Local(k), 0)], ps, m0, tape, cprog, fuel);
    StoreOp(k, p, m1, ps, tape, cprog, fuel);
    NotShared(s, params, m1, p, ps, outside, k);
    var (text, s1) := RhsValue(rhs, params, s, tape, prog, fuel).value;
    NotTied(s, params, Push(m1, p).(locals := m1.locals[k := p]), ps, outside, text, s1.pos, p);
  }

  lemma StoreOp(k: nat, p: Ptr, m: Mach, ps: seq<Ptr>, tape: Tape, prog: seq<CFun>, fuel: nat)
    requires m.temps == [] && k < |m.locals|
    ensures ExecOps([OStore(Local(k), 0)], ps, Push(m, p), tape, prog, fuel) == Ok(Push(m, p).(locals := m.locals[k := p]))
  {
    OpsOne(OStore(Local(k), 0), ps, Push(m, p), tape, prog, fuel);
  }

  /** One reference more to an object, and no count changed. */
  lemma NotShared(s: Src, params: seq<string>, m: Mach, p: Ptr, ps: seq<Ptr>, outside: World, k: nat)
    requires Tied(s, params, m, ps, outside, []) && k < |m.locals| && m.locals[k] == Null
    ensures p.Obj? ==> !Balanced(m.heap, RefsOf(m.(locals := m.locals[k := p]), outside, []))
  {
    TiedBalanced(s, params, m, ps, outside, []);
    if p.Obj? {
      hide Balanced;
      var r, r1 := RefsOf(m, outside, []), RefsOf(m.(locals := m.locals[k := p]), outside, []);
      CountUpdate(m.locals, k, p, p.id);
      if Balanced(m.heap, r1) { BalanceMoves(m.heap, r, m.heap, r1, p.id); }
    }
  }

  lemma NotTied(s: Src, params: seq<string>, m: Mach, ps: seq<Ptr>, outside: World, text: string, pos: nat, p: Ptr)
    requires |m.locals| == |s.locals| + 1 && m.locals[|s.locals|] == p
    requires !p.Obj? || !Balanced(m.heap, RefsOf(m, outside, []))
    ensures !Tied(s.(locals := s.locals + [text], pos := pos), params, m, ps, outside, [])
  {
    hide Balanced;
    if !p.Obj? { assert !Holds(m.heap, m.locals[|s.locals|], (s.locals + [text])[|s.locals|]); }
  }

  /** The same for an assignment, which releases the old text before it stores the new value. */
  lemma {:induction false} AssignedIff(v: Var, rhs: Rhs, s: Src, params: seq<string>, m: Mach, ps: seq<Ptr>, outside: World, tape: Tape, prog: seq<Fun>, fuel: nat)
    requires ProgramOk(prog) && Tied(s, params, m, ps, outside, []) && |m.locals| == |s.locals| && (v.Global? ==> v.i in outside.bound.writes)
    requires !rhs.CallString? && RhsValue(rhs, params, s, tape, prog, fuel).Ok?
    requires var (text, s1) := RhsValue(rhs, params, s, tape, prog, fuel).value; SetVar(v, text, s1).Some?
    ensures var (text, s1) := RhsValue(rhs, params, s, tape, prog, fuel).value;
      var r := RunOne(EmitStmt(Assign(v, rhs), |s.locals|), ps, m, tape, EmitProgram(prog), fuel);
      r.Ok? && (Tied(SetVar(v, text, s1).value, params, r.value.1, ps, outside, []) <==> !rhs.Copy? && (rhs.FString? ==> Owns(rhs.parts)))
  {
    if RhsOk(rhs, outside.bound, prog) {
      hide Tied, RunOne, EmitStmt, RhsValue, RhsOk, Later;
      AssignTied(v, rhs, s, params, m, ps, outside, tape, prog, fuel);
    } else {
      AssignedBorrowed(v, rhs, s, params, m, ps, outside, tape, prog, fuel);
    }
  }

  /** A value that makes no object is a constant or some variable's pointer. */
  lemma {:induction false} BorrowedValue(rhs: Rhs, s: Src, params: seq<string>, m: Mach, ps: seq<Ptr>, outside: World, tape: Tape, prog: seq<Fun>, fuel: nat) returns (p: Ptr)
    requires Tied(s, params, m, ps, outside, []) && RhsValue(rhs, params, s, tape, prog, fuel).Ok? && m.temps == []
    requires rhs.Copy? || (rhs.FString? && !Owns(rhs.parts))
    ensures ExecOps(EmitRhs(rhs, 0).ops, ps, m, tape, EmitProgram(prog), fuel) == Ok(Push(m, p))
    ensures EmitRhs(rhs, 0).t == 0 && EmitRhs(rhs, 0).n == 1
    ensures var (text, s1) := RhsValue(rhs, params, s, tape, prog, fuel).value; s1 == s.(pos := s1.pos)
  {
    hide Tied, Exec, ExecOps, EmitFString, FStringValue, Balanced, Content, Owns, ValueOf, Simple;
    var a, cprog := if rhs.Copy? then AVar(rhs.v) else AFString(rhs.parts), EmitProgram(prog);
    OwnsFString(a);
    SimpleSame(a, 0, params, s, tape);
    match Simple(a) {
      case ALiteral(t) =>
        StaticTied(t, s, params, m, ps, outside, [], tape, cprog, fuel);
        p := Static(t);
      case AVar(v) =>
        LoadTied(v, s, params, m, ps, outside, [], tape, cprog, fuel);
        p := Slot(v, ps, m).value;
    }
  }

  lemma {:induction false} AssignedBorrowed(v: Var, rhs: Rhs, s: Src, params: seq<string>, m: Mach, ps: seq<Ptr>, outside: World, tape: Tape, prog: seq<Fun>, fuel: nat)
    requires Tied(s, params, m, ps, outside, []) && |m.locals| == |s.locals| && RhsValue(rhs, params, s, tape, prog, fuel).Ok?
    requires rhs.Copy? || (rhs.FString? && !Owns(rhs.parts))
    requires var (text, s1) := RhsValue(rhs, params, s, tape, prog, fuel).value; SetVar(v, text, s1).Some?
    ensures var (text, s1) := RhsValue(rhs, params, s, tape, prog, fuel).value;
      var r := RunOne(EmitStmt(Assign(v, rhs), |s.locals|), ps, m, tape, EmitProgram(prog), fuel);
      r.Ok? && !Tied(SetVar(v, text, s1).value, params, r.value.1, ps, outside, [])
  {
    hide Tied, Exec, ExecOps, RhsValue, Balanced, Content, Owns, Holds;
    var cprog, m0, e := EmitProgram(prog), m.(temps := []), EmitRhs(rhs, 0);
    TempsReset(s, params, m, ps, outside, [], []);
    var p := BorrowedValue(rhs, s, params, m0, ps, outside, tape, prog, fuel);
    hide EmitRhs;
    var (text, s1) := RhsValue(rhs, params, s, tape, prog, fuel).value;
    SetVarSlot(v, text, s1);
    DropSlot(v, s, params, m0, ps, outside, []);
    var old1 := Slot(v, ps, m0).value;
    var h := Release(m0.heap, old1).value;
    var m1 := Push(m0, p);
    var drop, store := [OLoad(v), ORelease(1)], [OStore(v, 0)];
    DropOps(v, old1, h, m1, ps, tape, cprog, fuel);
    var m2 := Push(m1, old1).(heap := h);
    var m3 := if v.Local? then m2.(locals := m.locals[v.i := p]) else m2.(globals := m.globals[v.i := p]);
    StoredOp(v, m2, m3, p, ps, tape, cprog, fuel);
    OpsCat(e.ops, drop, ps, m0, tape, cprog, fuel);
    OpsCat(e.ops + drop, [], ps, m0, tape, cprog, fuel);
    NoOps(ps, m2, tape, cprog, fuel);
    OpsCat(e.ops + drop + [], store, ps, m0, tape, cprog, fuel);
    SlotShared(v, p, m, h, m3, outside);
    NotShown(v, text, s, s1.pos, params, m3, p, ps, outside);
  }

  lemma DropOps(v: Var, p: Ptr, h: Heap, m: Mach, ps: seq<Ptr>, tape: Tape, prog: seq<CFun>, fuel: nat)
    requires Slot(v, ps, m) == Some(p) && Release(m.heap, p) == Some(h) && |m.temps| == 1
    ensures ExecOps([OLoad(v), ORelease(1)], ps, m, tape, prog, fuel) == Ok(Push(m, p).(heap := h))
  {
    assert [OLoad(v), ORelease(1)] == [OLoad(v)] + [ORelease(1)];
    hide Release, ExecOps;
    OpsStep(OLoad(v), [ORelease(1)], ps, m, tape, prog, fuel);
    OpsOne(ORelease(1), ps, Push(m, p), tape, prog, fuel);
  }

  lemma StoredOp(v: Var, m: Mach, m1: Mach, p: Ptr, ps: seq<Ptr>, tape: Tape, prog: seq<CFun>, fuel: nat)
    requires |m.temps| > 0 && m.temps[0] == p && !v.Param? && v.i < (if v.Local? then |m.locals| else |m.globals|)
    requires m1 == if v.Local? then m.(locals := m.locals[v.i := p]) else m.(globals := m.globals[v.i := p])
    ensures ExecOps([OStore(v, 0)], ps, m, tape, prog, fuel) == Ok(m1)
  {
    OpsOne(OStore(v, 0), ps, m, tape, prog, fuel);
  }

  /** The slot now refers to an object whose count has not been raised. */
  lemma SlotShared(v: Var, p: Ptr, m: Mach, h: Heap, m1: Mach, outside: World)
    requires !v.Param? && v.i < (if v.Local? then |m.locals| else |m.globals|) && Balanced(h, RefsOf(Emptied(v, m), outside, []))
    requires m1.locals == (if v.Local? then m.locals[v.i := p] else m.locals) && m1.globals == if v.Local? then m.globals else m.globals[v.i := p]
    ensures p.Obj? ==> !Balanced(h, RefsOf(m1, outside, []))
  {
    hide Balanced;
    if p.Obj? {
      var r, r1 := RefsOf(Emptied(v, m), outside, []), RefsOf(m1, outside, []);
      if v.Local? { CountUpdate(m.locals, v.i, p, p.id); CountUpdate(m.locals, v.i, Null, p.id); }
      else { CountUpdate(m.globals, v.i, p, p.id); CountUpdate(m.globals, v.i, Null, p.id); }
      if Balanced(h, r1) { BalanceMoves(h, r, h, r1, p.id); }
    }
  }

  lemma NotShown(v: Var, text: string, s: Src, pos: nat, params: seq<string>, m: Mach, p: Ptr, ps: seq<Ptr>, outside: World)
    requires SetVar(v, text, s.(pos := pos)).Some? && |m.locals| == |s.locals| && (v.Global? ==> v.i < |m.globals|)
    requires if v.Local? then m.locals[v.i] == p else m.globals[v.i] == p
    requires !p.Obj? || !Balanced(m.heap, RefsOf(m, outside, []))
    ensures !Tied(SetVar(v, text, s.(pos := pos)).value, params, m, ps, outside, [])
  {
    hide Balanced;
    var s2 := SetVar(v, text, s.(pos := pos)).value;
    if !p.Obj? {
      if v.Local? { assert !Holds(m.heap, m.locals[v.i], s2.locals[v.i]); }
      else { assert s2.globals[v.i] == Some(text) && !Holds(m.heap, m.globals[v.i], text); }
    }
  }

  // ---- Concatenations in concatenations.

  /** `a + b + c` and the like, over texts and variables. */
  datatype Tree = Leaf(a: Atom) | Node(l: Tree, r: Tree)

  function TreeValue(t: Tree, params: seq<string>, s: Src): Option<string> {
    match t
    case Leaf(a) => AtomValue(a, params, s)
    case Node(l, r) =>
      match (TreeValue(l, params, s), TreeValue(r, params, s))
      case (Some(x), Some(y)) => Some(x + y)
      case _ => None
  }

  /** Both operands, then the call that joins them; nothing is released (src/codegen/expr.c:164-173). */
  function EmitTree(t: Tree, n: nat): Emitted {
    match t
    case Leaf(a) => EmitAtom(a, n)
    case Node(l, r) =>
      var e := EmitTree(l, n);
      var e1 := EmitTree(r, e.n);
      Emitted(e.ops + e1.ops + [OConcat(e.t, e1.t)], e1.n, true, e1.n + 1)
  }

  function Joins(t: Tree): nat { match t case Leaf(_) => 0 case Node(l, r) => Joins(l) + Joins(r) + 1 }

  /** Each of a number of joins has made an object with one owner; of a concatenation the last one is
      the value, in temporary `at`. */
  ghost predicate Grown(joins: nat, joined: bool, at: nat, text: string, s: Src, params: seq<string>, m: Mach, m1: Mach, ps: seq<Ptr>, outside: World, temps: seq<Ptr>, made: seq<Ptr>) {
    && Grows(m, m1) && m1.globals == m.globals && at < |m1.temps| && Content(m1.heap, m1.temps[at]) == Some(text)
    && Tied(s, params, m1, ps, outside, temps + made) && |made| == joins && (joined ==> joins > 0 && made[joins - 1] == m1.temps[at])
    && (forall i :: 0 <= i < joins ==> made[i].Obj?)
    && (forall o :: o in m.heap.objects ==> o in m1.heap.objects) && |m1.heap.objects| == |m.heap.objects| + joins
  }

  lemma {:induction false} TreeGrown(t: Tree, s: Src, params: seq<string>, m: Mach, ps: seq<Ptr>, outside: World, temps: seq<Ptr>, tape: Tape, prog: seq<CFun>, fuel: nat) returns (made: seq<Ptr>)
    requires Tied(s, params, m, ps, outside, temps) && TreeValue(t, params, s).Some?
    ensures var e := EmitTree(t, |m.temps|);
      var r := ExecOps(e.ops, ps, m, tape, prog, fuel);
      r.Ok? && |r.value.temps| == e.n && Grown(Joins(t), t.Node?, e.t, TreeValue(t, params, s).value, s, params, m, r.value, ps, outside, temps, made)
    decreases t
  {
    hide Tied, Exec, ExecOps, AtomValue, Keeps, Content;
    TiedPos(s, params, m, ps, outside, temps);
    match t
    case Leaf(a) =>
      AtomTied(a, s, params, m, ps, outside, temps, tape, prog, fuel);
      made := [];
      assert temps + made == temps;
    case Node(l, r) =>
      var e := EmitTree(l, |m.temps|);
      var ml := TreeGrown(l, s, params, m, ps, outside, temps, tape, prog, fuel);
      var m1 := ExecOps(e.ops, ps, m, tape, prog, fuel).value;
      var e1 := EmitTree(r, e.n);
      var mr := TreeGrown(r, s, params, m1, ps, outside, temps + ml, tape, prog, fuel);
      var m2 := ExecOps(e1.ops, ps, m1, tape, prog, fuel).value;
      hide Grown;
      OpsCat(e.ops, e1.ops, ps, m, tape, prog, fuel);
      OpsCat(e.ops + e1.ops, [OConcat(e.t, e1.t)], ps, m, tape, prog, fuel);
      made := NodeGrown(Joins(l), l.Node?, e.t, TreeValue(l, params, s).value, Joins(r), r.Node?, e1.t, TreeValue(r, params, s).value, s, params, m, m1, m2, ps, outside, temps, ml, mr, tape, prog, fuel);
  }

  lemma {:induction false} NodeGrown(j: nat, lj: bool, a: nat, x: string, k: nat, rj: bool, b: nat, y: string, s: Src, params: seq<string>, m: Mach, m1: Mach, m2: Mach, ps: seq<Ptr>, outside: World, temps: seq<Ptr>, ml: seq<Ptr>, mr: seq<Ptr>, tape: Tape, prog: seq<CFun>, fuel: nat) returns (made: seq<Ptr>)
    requires Grown(j, lj, a, x, s, params, m, m1, ps, outside, temps, ml) && Grown(k, rj, b, y, s, params, m1, m2, ps, outside, temps + ml, mr)
    ensures var r := ExecOps([OConcat(a, b)], ps, m2, tape, prog, fuel);
      r.Ok? && |r.value.temps| == |m2.temps| + 1 && Grown(j + k + 1, true, |m2.temps|, x + y, s, params, m, r.value, ps, outside, temps, made)
  {
    hide Tied, ExecOps, Keeps, Content;
    var owners, p := temps + ml + mr, Obj(m2.heap.next);
    ContentGrown(m1.heap, m2.heap, m1.temps[a]);
    assert m2.temps[a] == m1.temps[a];
    ConcatTied(a, b, x, y, s, params, m2, ps, outside, owners, tape, prog, fuel);
    FreshCount(s, params, m2, ps, outside, owners, x + y);
    GrowsTrans(m, m1, m2);
    GrowsTrans(m, m2, Fresh(m2, x + y));
    made := ml + mr + [p];
    assert owners + [p] == temps + made;
  }

  lemma ContentGrown(h: Heap, h1: Heap, p: Ptr)
    requires Content(h, p).Some? && Keeps(h, h1) && forall o :: o in h.objects ==> o in h1.objects
    ensures Content(h1, p) == Content(h, p)
  {
  }

  lemma FreshCount(s: Src, params: seq<string>, m: Mach, ps: seq<Ptr>, outside: World, temps: seq<Ptr>, text: string)
    requires Tied(s, params, m, ps, outside, temps)
    ensures var m1 := Fresh(m, text);
      && |m1.heap.objects| == |m.heap.objects| + 1 && (forall o :: o in m.heap.objects ==> o in m1.heap.objects)
      && Content(m1.heap, Obj(m.heap.next)) == Some(text)
  {
    var objects := m.heap.objects;
    assert m.heap.next !in objects;
    assert objects[m.heap.next := Object(1, text)].Keys == objects.Keys + {m.heap.next};
  }

  /** A concatenation makes as many objects as it has joins, and one of them is the value.  So what
      it leaves is exact if and only if neither operand is a concatenation; the objects of inner
      joins are never released. */
  lemma {:induction false} JoinsIff(t: Tree, s: Src, params: seq<string>, m: Mach, ps: seq<Ptr>, outside: World, temps: seq<Ptr>, tape: Tape, prog: seq<CFun>, fuel: nat)
    requires Tied(s, params, m, ps, outside, temps) && TreeValue(t, params, s).Some? && t.Node?
    ensures var e := EmitTree(t, |m.temps|);
      var r := ExecOps(e.ops, ps, m, tape, prog, fuel);
      && r.Ok? && e.t < |r.value.temps| && Holds(r.value.heap, r.value.temps[e.t], TreeValue(t, params, s).value)
      && |r.value.heap.objects| == |m.heap.objects| + Joins(t)
      && (Balanced(r.value.heap, RefsOf(r.value, outside, temps + [r.value.temps[e.t]])) <==> t.l.Leaf? && t.r.Leaf?)
  {
    hide Tied, ExecOps, EmitTree, TreeValue, Balanced, Content;
    var e := EmitTree(t, |m.temps|);
    var made := TreeGrown(t, s, params, m, ps, outside, temps, tape, prog, fuel);
    var m1 := ExecOps(e.ops, ps, m, tape, prog, fuel).value;
    var p := m1.temps[e.t];
    TiedBalanced(s, params, m1, ps, outside, temps + made);
    if t.l.Leaf? && t.r.Leaf? {
      assert Joins(t.l) == 0 && Joins(t.r) == 0 && |made| == 1;
      assert made == [p];
    } else {
      assert |made| >= 2 && made[|made| - 1] == p && made[0].Obj?;
      var r, r1 := RefsOf(m1, outside, temps + made), RefsOf(m1, outside, temps + [p]);
      InnerLeft(temps, made, p);
      if Balanced(m1.heap, r1) { BalanceMoves(m1.heap, r, m1.heap, r1, made[0].id); }
    }
  }

  /** The objects of inner joins are not among the references any more. */
  lemma InnerLeft(temps: seq<Ptr>, made: seq<Ptr>, p: Ptr)
    requires |made| >= 2 && made[|made| - 1] == p && made[0].Obj?
    ensures Count(temps + made, made[0].id) > Count(temps + [p], made[0].id)
  {
    var inner, o := made[..|made| - 1], made[0].id;
    assert made == inner + [p] && inner[0] == made[0];
    CountAt(inner, 0);
    CountCat(temps, made, o);
    CountCat(inner, [p], o);
    CountCat(temps, [p], o);
  }

  // ---- Results that are dropped.

  /** A call as a statement drops its result without releasing it.  So it leaves every count exact
      if and only if the function returns no string. */
  lemma {:induction false} DroppedIff(f: nat, args: seq<Arg>, s: Src, params: seq<string>, m: Mach, ps: seq<Ptr>, outside: World, tape: Tape, prog: seq<Fun>, fuel: nat)
    requires ProgramOk(prog) && CallOk(f, args, outside.bound, prog) && Tied(s, params, m, ps, outside, []) && |m.locals| == |s.locals|
    requires CallValue(f, args, params, s, tape, prog, fuel).Ok?
    ensures var s1 := CallValue(f, args, params, s, tape, prog, fuel).value.1;
      var r := RunOne(EmitStmt(Do(f, args), |s.locals|), ps, m, tape, EmitProgram(prog), fuel);
      f < |prog| && r.Ok? && (Tied(s1, params, r.value.1, ps, outside, []) <==> !prog[f].owning)
  {
    hide Tied, Balanced, EmitCall, ExecOps, CallValue, CallOk, Holds;
    var m0, cprog := m.(temps := []), EmitProgram(prog);
    TempsReset(s, params, m, ps, outside, [], []);
    CallTied(f, args, s, params, m0, ps, outside, [], tape, prog, fuel);
    CallResult(f, args, params, s, tape, prog, fuel);
    var (v, s1) := CallValue(f, args, params, s, tape, prog, fuel).value;
    var e := EmitCall(f, args, 0);
    var m1 := ExecOps(e.ops, ps, m0, tape, cprog, fuel).value;
    if v.Some? {
      var p := m1.temps[e.t];
      HoldsObj(m1.heap, p, v.value);
      assert [] + ArcExact.Result(v, p) == [p];
      TiedBalanced(s1, params, m1, ps, outside, [p]);
      OneCount(p, p.id);
      if Tied(s1, params, m1, ps, outside, []) {
        TiedBalanced(s1, params, m1, ps, outside, []);
        BalanceMoves(m1.heap, RefsOf(m1, outside, [p]), m1.heap, RefsOf(m1, outside, []), p.id);
      }
    } else {
      assert [] + ArcExact.Result(v, m1.temps[e.t]) == [];
    }
  }

  // ---- Returns.

  /** The locals are released before the returned variable is retained.  So returning it by name
      works exactly when it holds an object that has an owner other than the locals of this call;
      otherwise the retain touches a freed object or a constant.  For a parameter the condition is
      that it is not a constant, and a global always meets it. */
  lemma {:induction false} ReturnVarIff(v: Var, s: Src, params: seq<string>, m: Mach, ps: seq<Ptr>, outside: World, tape: Tape, prog: seq<CFun>, fuel: nat)
    requires Tied(s, params, m, ps, outside, []) && |m.locals| == |s.locals| && ValueOf(v, params, s).Some?
    ensures Slot(v, ps, m).Some?
    ensures var p, r := Slot(v, ps, m).value, RunOne(EmitStmt(Return(RVar(v)), |s.locals|), ps, m, tape, prog, fuel);
      var kept := p.Obj? && Count(outside.refs, p.id) + Count(m.globals, p.id) > 0;
      && (if kept then r.Ok? && r.value.0 == Gone(p) && Left(ValueOf(v, params, s), s, p, m, r.value.1, outside) else r.Wrong?)
      && (v.Local? ==> p.Obj?) && (v.Param? ==> (kept <==> !p.Static?)) && (v.Global? ==> kept)
  {
    hide Exec, Content, EmitRhs;
    SlotTied(v, s, params, m, ps, outside, []);
    hide Tied, Balanced, Keeps, ExecOps, Left, Holds, ReleaseLocals, ValueOf;
    var p, m0 := Slot(v, ps, m).value, m.(temps := []);
    TempsReset(s, params, m, ps, outside, [], []);
    RetVarIff(v, p, s, params, m0, ps, outside, tape, prog, fuel);
    assert p != Null by { NullContent(m.heap); }
    if !v.Local? && p.Obj? { StaysAlive(v, p, s, params, m, ps, outside); }
    var r := ExecOps([OLoad(v)] + ReleaseLocals(|s.locals|, 1) + [ORetain(0)], ps, m0, tape, prog, fuel);
    if r.Ok? { LeftLater(ValueOf(v, params, s), s, p, m, m0, r.value, outside); }
  }

  /** A bare `return` releases no local.  So it leaves the counts exact if and only if none is
      declared; each object keeps as many counts too many as the locals refer to it. */
  lemma {:induction false} BareReturnIff(s: Src, params: seq<string>, m: Mach, ps: seq<Ptr>, outside: World, tape: Tape, prog: seq<CFun>, fuel: nat)
    requires Tied(s, params, m, ps, outside, []) && |m.locals| == |s.locals|
    ensures var r := RunOne(EmitStmt(Return(RBare), |s.locals|), ps, m, tape, prog, fuel);
      && r.Ok? && r.value.0 == Gone(Null)
      && (Left(None, s, Null, m, r.value.1, outside) <==> s.locals == [])
      && forall o: nat :: CountIn(r.value.1.heap, o) - Count(m.locals, o) == Count(outside.refs, o) + Count(r.value.1.globals, o)
  {
    var r := RunOne(EmitStmt(Return(RBare), |s.locals|), ps, m, tape, prog, fuel);
    var m1 := m.(temps := []);
    assert r == Ok((Gone(Null), m1)) by { NoOps(ps, m1, tape, prog, fuel); }
    LocalsObj(s, params, m, ps, outside, []);
    assert m.locals[..|m.locals|] == m.locals;
    var r0, r1 := Refs(outside.refs, [], m.locals, m.globals), Refs(outside.refs, [], [], m.globals);
    forall o: nat
      ensures CountIn(m.heap, o) == Total(r0, o) && Total(r0, o) == Total(r1, o) + Count(m.locals, o)
      ensures Total(r1, o) == Count(outside.refs, o) + Count(m.globals, o)
    {
      assert Count([], o) == 0;
      assert Total(r0, o) >= 0;
    }
    SameLater(outside, m, m1);
    if s.locals == [] {
      BalancedSame(m.heap, r0, r1);
    } else {
      CountAt(m.locals, 0);
      if Balanced(m.heap, r1) {
        hide Balanced;
        BalanceMoves(m.heap, r0, m.heap, r1, m.locals[0].id);
      }
    }
  }

  /** A returned literal is the constant itself, which the caller takes for an object it owns. */
  lemma {:induction false} ReturnedConstant(text: string, s: Src, params: seq<string>, m: Mach, ps: seq<Ptr>, outside: World, tape: Tape, prog: seq<CFun>, fuel: nat)
    requires Tied(s, params, m, ps, outside, []) && |m.locals| == |s.locals|
    ensures var r := RunOne(EmitStmt(Return(ROwned(Literal(text))), |s.locals|), ps, m, tape, prog, fuel);
      && r.Ok? && r.value.0 == Gone(Static(text))
      && Balanced(r.value.1.heap, Refs(outside.refs, [], [], m.globals)) && Release(r.value.1.heap, Static(text)).None?
  {
    hide Tied, Balanced, ReleaseLocals, ExecOps, Keeps;
    var m0, k := m.(temps := []), |s.locals|;
    TempsReset(s, params, m, ps, outside, [], []);
    StaticTied(text, s, params, m0, ps, outside, [], tape, prog, fuel);
    var m1 := Push(m0, Static(text));
    TempsReset(s, params, m0, ps, outside, [], [Static(text)]);
    assert m1 == m0.(temps := [Static(text)]);
    LocalsObj(s, params, m1, ps, outside, []);
    DropLocals(k, ps, m1, outside, [], tape, prog, fuel);
    OpsCat([OStatic(text)], ReleaseLocals(k, 1), ps, m0, tape, prog, fuel);
  }

  // ---- Programs that go wrong.

  lemma OpsStep(op: Op, rest: seq<Op>, ps: seq<Ptr>, m: Mach, tape: Tape, prog: seq<CFun>, fuel: nat)
    ensures var r := Exec(op, ps, m, tape, prog, fuel);
      ExecOps([op] + rest, ps, m, tape, prog, fuel) == if r.Ok? then ExecOps(rest, ps, r.value, tape, prog, fuel) else r
  {
    hide Exec;
    OpsCat([op], rest, ps, m, tape, prog, fuel);
    OpsOne(op, ps, m, tape, prog, fuel);
  }

  lemma PickOne(p: Ptr)
    ensures Pick([0], [p]) == Some([p])
  {
    var picked := Pick([0], [p]).value;
    assert |picked| == 1 && picked[0] == p;
    assert picked == [p];
  }

  /** A call of the first function with one argument that is a literal or a variable. */
  lemma {:induction false} OneArgument(a: Arg, text: string, s: Src, tape: Tape)
    requires !a.AFString? && ArgValue(a, [], s, tape) == Some((text, s.pos))
    ensures ArgValues([a], [], s, tape) == Some(([text], s.pos))
    ensures EmitCall(0, [a], 0).ops == EmitArg(a, 0).ops + [OCall(0, [0])]
  {
    var args := [a];
    assert args[1..] == [] && s.(pos := s.pos) == s && [0][1..] == [];
    assert ArgValues(args[1..], [], s, tape) == Some(([], s.pos));
    assert [text] + [] == [text];
    assert EmitArgs(args[1..], 1) == EmittedArgs([], [], 1);
    assert EmitArgs(args, 0) == EmittedArgs(EmitArg(a, 0).ops, [0], 1);
    assert ReleaseArgs([], []) == [] && ReleaseArgs(args, [0]) == [];
  }

  lemma {:induction false} CallGoesWrong(a: Arg, p: Ptr, m: Mach, tape: Tape, prog: seq<CFun>)
    requires EmitCall(0, [a], 0).ops == EmitArg(a, 0).ops + [OCall(0, [0])] && |prog| > 0 && prog[0].params == 1 && m.temps == []
    requires ExecOps(EmitArg(a, 0).ops, [], m, tape, prog, 1) == Ok(Push(m, p))
    requires Enter(prog[0], [p], Mach(m.heap, [], m.globals, m.pos, []), tape, prog, 0).Wrong?
    ensures ExecOps(EmitCall(0, [a], 0).ops, [], m, tape, prog, 1).Wrong?
  {
    hide ExecOps, Enter, EmitCall, EmitArg;
    PickOne(p);
    assert Push(m, p).temps == [p];
    OpsCat(EmitArg(a, 0).ops, [OCall(0, [0])], [], m, tape, prog, 1);
    OpsOne(OCall(0, [0]), [], Push(m, p), tape, prog, 1);
  }

  /** `fn id(p) { return p }`, whatever summary it is given. */
  function Identity(bound: Bound): Fun { Fun(1, true, [Return(RVar(Param(0)))], bound) }

  /** Its return, where the parameter cannot be counted. */
  lemma {:induction false} ReturnGoesWrong(p: Ptr, m: Mach, tape: Tape, cprog: seq<CFun>)
    requires Retain(m.heap, p).None?
    ensures RunOne(EmitStmt(Return(RVar(Param(0))), 0), [p], m, tape, cprog, 0).Wrong?
  {
    var load, m0 := OLoad(Param(0)), m.(temps := []);
    assert [load] + ReleaseLocals(0, 1) + [ORetain(0)] == [load] + [ORetain(0)];
    OpsStep(load, [ORetain(0)], [p], m0, tape, cprog, 0);
    OpsOne(ORetain(0), [p], Push(m0, p), tape, cprog, 0);
  }

  lemma {:induction false} IdentityOfConstant(text: string, bound: Bound, m: Mach, tape: Tape, cprog: seq<CFun>)
    ensures Enter(EmitFun(Identity(bound)), [Static(text)], m, tape, cprog, 0).Wrong?
  {
    var ret := Return(RVar(Param(0)));
    assert EmitSeq([ret], 0) == [EmitStmt(ret, 0)];
    ReturnGoesWrong(Static(text), m, tape, cprog);
  }

  lemma LiteralNotAdmitted(text: string, bound: Bound, mine: Bound)
    ensures var prog := [Identity(bound)]; !(ProgramOk(prog) && CallPasses(0, [ALiteral(text)], mine, prog))
  {
    var prog := [Identity(bound)];
    if 0 in bound.plain {
      assert !StmtOk(prog[0].body[0], bound, prog);
    } else {
      assert !ArgPasses([ALiteral(text)][0], 0 + 0, mine, bound);
    }
  }

  /** A literal given to a function that returns its parameter: `id("a")` means the text, and the
      code counts a constant.  No summary admits the function and the call. */
  lemma {:induction false} ReturnedLiteralArgument(text: string, bound: Bound, mine: Bound, tape: Tape)
    ensures var prog, s := [Identity(bound)], Src([], [], 0);
      && CallValue(0, [ALiteral(text)], [], s, tape, prog, 1) == Ok((Some(text), s))
      && ExecOps(EmitCall(0, [ALiteral(text)], 0).ops, [], AtStart(0), tape, EmitProgram(prog), 1).Wrong?
      && !(ProgramOk(prog) && CallPasses(0, [ALiteral(text)], mine, prog))
  {
    hide ExecOps, EmitCall, Enter;
    var prog, s, m, a, ret := [Identity(bound)], Src([], [], 0), AtStart(0), ALiteral(text), Return(RVar(Param(0)));
    var cprog := EmitProgram(prog);
    OneArgument(a, text, s, tape);
    assert RunStmt(ret, [text], s, tape, prog, 0) == Ok((Returned(Some(text)), s));
    assert RunSeq([ret], [text], s, tape, prog, 0) == Ok((Returned(Some(text)), s));
    OpsOne(OStatic(text), [], m, tape, cprog, 1);
    IdentityOfConstant(text, bound, Mach(m.heap, [], m.globals, 0, []), tape, cprog);
    CallGoesWrong(a, Static(text), m, tape, cprog);
    LiteralNotAdmitted(text, bound, mine);
  }

  /** When a global is assigned, the text it held, which a parameter may have been lent, stays if
      and only if there is another reference to it. */
  lemma {:induction false} OverwrittenIff(g: nat, text: string, s: Src, params: seq<string>, m: Mach, ps: seq<Ptr>, outside: World, args: seq<Ptr>, tape: Tape, prog: seq<CFun>, fuel: nat)
    requires Tied(s, params, m, ps, outside, []) && g < |s.globals| && s.globals[g].Some?
    ensures g < |m.globals| && m.globals[g].Obj?
    ensures var o, r := m.globals[g].id, RunOne(EmitStmt(Assign(Global(g), Literal(text)), |s.locals|), args, m, tape, prog, fuel);
      && r.Ok? && r.value.0 == Next && Content(m.heap, Obj(o)).Some?
      && (Content(r.value.1.heap, Obj(o)).Some? <==> Count(outside.refs, o) + Count(m.locals, o) + Count(m.globals, o) > 1)
  {
    SlotTied(Global(g), s, params, m, ps, outside, []);
    DropSlot(Global(g), s, params, m, ps, outside, []);
    hide Balanced, Shows, Release, RunOne, EmitStmt;
    var o := m.globals[g].id;
    var h := Release(m.heap, Obj(o)).value;
    GlobalAssigned(g, text, |s.locals|, m, h, args, tape, prog, fuel);
    var r, r1 := RefsOf(m, outside, []), RefsOf(Emptied(Global(g), m), outside, []);
    CountUpdate(m.globals, g, Null, o);
    assert Total(r1, o) == Count(outside.refs, o) + Count(m.locals, o) + Count(m.globals, o) - 1 by { assert Count([], o) == 0; }
    TiedBalanced(s, params, m, ps, outside, []);
    LivesIff(m.heap, r, o);
    LivesIff(h, r1, o);
  }

  lemma {:induction false} GlobalAssigned(g: nat, text: string, k: nat, m: Mach, h: Heap, args: seq<Ptr>, tape: Tape, prog: seq<CFun>, fuel: nat)
    requires g < |m.globals| && Release(m.heap, m.globals[g]) == Some(h)
    ensures var r := RunOne(EmitStmt(Assign(Global(g), Literal(text)), k), args, m, tape, prog, fuel);
      r.Ok? && r.value.0 == Next && r.value.1.heap == Alloc(h, text)
  {
    hide ExecOps, Release, Alloc;
    var p, m0 := m.globals[g], m.(temps := []);
    var load, drop, wrap, store := OLoad(Global(g)), ORelease(1), OWrap(0), OStore(Global(g), 2);
    assert EmitStmt(Assign(Global(g), Literal(text)), k) == COps([OStatic(text)] + ([load] + ([drop] + ([wrap] + [store]))));
    var m1 := Push(m0, Static(text));
    var m2 := Push(m1, p);
    var m3 := m2.(heap := h);
    OpsStep(OStatic(text), [load] + ([drop] + ([wrap] + [store])), args, m0, tape, prog, fuel);
    OpsStep(load, [drop] + ([wrap] + [store]), args, m1, tape, prog, fuel);
    OpsStep(drop, [wrap] + [store], args, m2, tape, prog, fuel);
    OpsStep(wrap, [store], args, m3, tape, prog, fuel);
    OpsOne(store, args, Fresh(m3, text), tape, prog, fuel);
  }

  lemma LivesIff(h: Heap, r: Refs, o: nat)
    requires Balanced(h, r)
    ensures o in h.objects <==> Total(r, o) > 0
    ensures o in h.objects ==> o < h.next
  {
  }

  /** `fn f(p) { g = "b"; return p }`. */
  function Overwriting(text: string, bound: Bound): Fun {
    Fun(1, true, [Assign(Global(0), Literal(text)), Return(RVar(Param(0)))], bound)
  }

  /** A state in which one global holds the only object. */
  function OneGlobal(text: string): Mach { Mach(Heap(map[0 := Object(1, text)], 1), [], [Obj(0)], 0, []) }

  lemma OneGlobalTied(text: string, bound: Bound)
    ensures Tied(Src([], [Some(text)], 0), [], OneGlobal(text), [], World([], bound), [])
  {
    forall o: nat ensures Total(RefsOf(OneGlobal(text), World([], bound), []), o) == if o == 0 then 1 else 0 { OneCount(Obj(0), o); }
  }

  /** A global given to a function that assigns it: `f(g)` means the old text, and the code
      returns an object that the assignment has freed.  No summary admits it. */
  lemma {:induction false} OverwrittenGlobalArgument(a: string, b: string, bound: Bound, mine: Bound, tape: Tape)
    ensures var prog, s, m := [Overwriting(b, bound)], Src([], [Some(a)], 0), OneGlobal(a);
      && Tied(s, [], m, [], World([], mine), [])
      && CallValue(0, [AVar(Global(0))], [], s, tape, prog, 1) == Ok((Some(a), Src([], [Some(b)], 0)))
      && ExecOps(EmitCall(0, [AVar(Global(0))], 0).ops, [], m, tape, EmitProgram(prog), 1).Wrong?
      && !(ProgramOk(prog) && CallPasses(0, [AVar(Global(0))], mine, prog))
  {
    OneGlobalTied(a, mine);
    hide Tied, ExecOps, EmitCall, Enter;
    var prog, s, m, arg := [Overwriting(b, bound)], Src([], [Some(a)], 0), OneGlobal(a), AVar(Global(0));
    OneArgument(arg, a, s, tape);
    OverwritingMeans(a, b, bound, tape);
    var cprog := EmitProgram(prog);
    OpsOne(OLoad(Global(0)), [], m, tape, cprog, 1);
    OverwritingFrees(a, b, bound, tape, cprog);
    CallGoesWrong(arg, Obj(0), m, tape, cprog);
    GlobalNotAdmitted(b, bound, mine);
  }

  lemma GlobalNotAdmitted(b: string, bound: Bound, mine: Bound)
    ensures var prog := [Overwriting(b, bound)]; !(ProgramOk(prog) && CallPasses(0, [AVar(Global(0))], mine, prog))
  {
    var prog := [Overwriting(b, bound)];
    if 0 in bound.writes {
      assert !ArgPasses([AVar(Global(0))][0], 0 + 0, mine, bound);
    } else {
      assert !StmtOk(prog[0].body[0], bound, prog);
    }
  }

  lemma {:induction false} OverwritingMeans(a: string, b: string, bound: Bound, tape: Tape)
    ensures var prog := [Overwriting(b, bound)];
      Invoke(prog[0], [a], Src([], [Some(a)], 0), tape, prog, 0) == Ok((Some(a), Src([], [Some(b)], 0)))
  {
    var prog, s, s1 := [Overwriting(b, bound)], Src([], [Some(a)], 0), Src([], [Some(b)], 0);
    var put, ret := Assign(Global(0), Literal(b)), Return(RVar(Param(0)));
    assert SetVar(Global(0), b, s) == Some(s1) by { assert [Some(a)][0 := Some(b)] == [Some(b)]; }
    assert RunStmt(put, [a], s, tape, prog, 0) == Ok((Normal, s1));
    assert RunStmt(ret, [a], s1, tape, prog, 0) == Ok((Returned(Some(a)), s1));
    assert [put, ret][1..] == [ret];
    assert RunSeq([ret], [a], s1, tape, prog, 0) == Ok((Returned(Some(a)), s1));
  }

  lemma {:induction false} OverwritingFrees(a: string, b: string, bound: Bound, tape: Tape, cprog: seq<CFun>)
    ensures Enter(EmitFun(Overwriting(b, bound)), [Obj(0)], OneGlobal(a), tape, cprog, 0).Wrong?
  {
    hide RunOne, EmitStmt;
    var put, ret, ps := Assign(Global(0), Literal(b)), Return(RVar(Param(0))), [Obj(0)];
    var code := EmitSeq([put, ret], 0);
    assert [put, ret][1..] == [ret] && EmitSeq([ret], 0) == [EmitStmt(ret, 0)];
    assert code == [EmitStmt(put, 0), EmitStmt(ret, 0)] && code[1..] == [EmitStmt(ret, 0)];
    OneGlobalTied(a, bound);
    OverwrittenIff(0, b, Src([], [Some(a)], 0), [], OneGlobal(a), [], World([], bound), ps, tape, cprog, 0);
    OneCount(Obj(0), 0);
    var m1 := RunOne(EmitStmt(put, 0), ps, OneGlobal(a), tape, cprog, 0).value.1;
    ReturnGoesWrong(Obj(0), m1, tape, cprog);
    assert RunCode([EmitStmt(ret, 0)], ps, m1, tape, cprog, 0).Wrong?;
  }

  /** A function that declares a string and returns it by name goes wrong. */
  lemma {:induction false} ReturnedLocalFreed(text: string, tape: Tape)
    ensures var f := Fun(0, true, [Declare(Literal(text)), Return(RVar(Local(0)))], Bound({}, {}));
      && Invoke(f, [], Src([], [], 0), tape, [], 0) == Ok((Some(text), Src([text], [], 0)))
      && Enter(EmitFun(f), [], AtStart(0), tape, EmitProgram([]), 0).Wrong?
  {
    hide Tied, EmitStmt, RunOne, ReleaseLocals, ExecOps, Exec;
    var decl, ret := Declare(Literal(text)), Return(RVar(Local(0)));
    var body := [decl, ret];
    var s, m, cprog, world := Src([], [], 0), AtStart(0), EmitProgram([]), World([], Bound({}, {}));
    assert body[1..] == [ret] && [ret][1..] == [];
    StartTied(0, world.bound);
    var none: seq<Option<string>> := seq(0, i => None);
    assert none == [] && [] + [text] == [text];
    DeclareTied(Literal(text), s, [], m, [], world, tape, [], 0);
    var s1 := Src([text], [], 0);
    assert RunStmt(decl, [], s, tape, [], 0) == Ok((Normal, s1));
    assert RunStmt(ret, [], s1, tape, [], 0) == Ok((Returned(Some(text)), s1));
    var m1 := RunOne(EmitStmt(decl, 0), [], m, tape, cprog, 0).value.1;
    GlobalsTied(s1, [], m1, [], world);
    ReturnVarIff(Local(0), s1, [], m1, [], world, tape, cprog, 0);
    assert Count([], m1.locals[0].id) == 0;
    var code := EmitSeq(body, 0);
    assert EmitSeq([ret], 1) == [EmitStmt(ret, 1)];
    assert code == [EmitStmt(decl, 0), EmitStmt(ret, 1)] && code[1..] == [EmitStmt(ret, 1)];
  }

  lemma GlobalsTied(s: Src, params: seq<string>, m: Mach, ps: seq<Ptr>, outside: World)
    requires Tied(s, params, m, ps, outside, [])
    ensures |m.globals| == |s.globals|
  {
  }
}
