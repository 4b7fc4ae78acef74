/** What exactness means for a caller: where every count goes in a call and what a whole program
    leaves behind. */

module ArcLaws {
  import opened Options
  import opened Int64
  import Decimal
  import opened Arc
  import opened ArcCode
  import opened ArcExact

  /** The count of an object, nought once it is freed or before it exists. */
  function CountIn(h: Heap, o: nat): nat { if o in h.objects then h.objects[o].count else 0 }

  /** From one balanced state to another, counts change by the references gained and lost. */
  lemma BalanceMoves(h: Heap, r: Refs, h1: Heap, r1: Refs, o: nat)
    requires Balanced(h, r) && Balanced(h1, r1)
    ensures CountIn(h1, o) - CountIn(h, o) == Total(r1, o) - Total(r, o)
    ensures o in h1.objects <==> CountIn(h1, o) > 0
  {
    assert Total(r, o) >= 0 && Total(r1, o) >= 0;
  }

  /** A call of any function of the fragment, on every run: the returned text is right, each
      object's count moves only by what the globals and the result hold of it, and exactly the
      objects with a count are live.  So whatever the call allocated and left in neither is
      freed, and a caller's object is untouched but for one more owner if it is returned. */
  lemma CallExact(f: Fun, values: seq<string>, s: Src, m: Mach, ps: seq<Ptr>, outside: World, tape: Tape, prog: seq<Fun>, fuel: nat)
    requires ProgramOk(prog) && SeqOk(f.body, true, outside.bound, prog) && s.locals == [] && m.locals == []
    requires Tied(s, values, m, ps, outside, [])
    ensures var r, r1 := Invoke(f, values, s, tape, prog, fuel), Enter(EmitFun(f), ps, m, tape, EmitProgram(prog), fuel);
      && (r.Timeout? ==> r1.Timeout?)
      && (r.Ok? ==>
          && r1.Ok? && r1.value.1.pos == r.value.1.pos && GlobalsShow(r.value.1.globals, r1.value.1)
          && (if r.value.0.Some? then Holds(r1.value.1.heap, r1.value.0, r.value.0.value) else r1.value.0 == Null)
          && forall o: nat ::
             && CountIn(r1.value.1.heap, o) - CountIn(m.heap, o)
                == Count(r1.value.1.globals, o) - Count(m.globals, o) + (if r1.value.0 == Obj(o) then 1 else 0)
             && (o in r1.value.1.heap.objects <==> CountIn(r1.value.1.heap, o) > 0))
  {
    InvokeTied(f, values, s, m, ps, outside, tape, prog, fuel);
    hide Invoke, Enter, EmitFun, EmitProgram, SeqOk, ProgramOk, GlobalsShow, Balanced, Shows;
    var r, r1 := Invoke(f, values, s, tape, prog, fuel), Enter(EmitFun(f), ps, m, tape, EmitProgram(prog), fuel);
    if r.Ok? {
      var (v, s1) := r.value;
      var (p, m1) := r1.value;
      forall o: nat
        ensures CountIn(m1.heap, o) - CountIn(m.heap, o) == Count(m1.globals, o) - Count(m.globals, o) + (if p == Obj(o) then 1 else 0)
        ensures o in m1.heap.objects <==> CountIn(m1.heap, o) > 0
      {
        BalanceMoves(m.heap, RefsOf(m, outside, []), m1.heap, Refs(outside.refs, ArcExact.Result(v, p), [], m1.globals), o);
        OneCount(p, o);
        assert Count([], o) == 0;
      }
    }
  }

  /** The state a program starts in: an empty heap and globals not set yet. */
  function AtStart(globals: nat): Mach {
    Mach(Heap(map[], 0), [], seq(globals, i => Null), 0, [])
  }

  lemma {:induction false} NullCount(n: nat, o: nat)
    ensures Count(seq(n, i => Null), o) == 0
  {
    if n > 0 {
      assert seq(n, i => Null)[..n - 1] == seq(n - 1, i => Null);
      NullCount(n - 1, o);
    }
  }

  /** A run of a whole program never goes wrong where its meaning does not, and leaves only what
      its globals hold: with no globals, nothing. */
  lemma ProgramExact(f: Fun, globals: nat, tape: Tape, prog: seq<Fun>, fuel: nat)
    requires ProgramOk(prog) && SeqOk(f.body, true, f.bound, prog) && f.params == 0 && !f.owning
    ensures var r := Invoke(f, [], Src([], seq(globals, i => None), 0), tape, prog, fuel);
      var r1 := Enter(EmitFun(f), [], AtStart(globals), tape, EmitProgram(prog), fuel);
      r.Ok? ==>
        && r1.Ok? && GlobalsShow(r.value.1.globals, r1.value.1)
        && (forall o: nat :: o in r1.value.1.heap.objects <==> Count(r1.value.1.globals, o) > 0)
        && (r1.value.1.globals == [] ==> r1.value.1.heap.objects == map[])
  {
    var s, m := Src([], seq(globals, i => None), 0), AtStart(globals);
    StartTied(globals, f.bound);
    CallExact(f, [], s, m, [], World([], f.bound), tape, prog, fuel);
    var r, r1 := Invoke(f, [], s, tape, prog, fuel), Enter(EmitFun(f), [], m, tape, EmitProgram(prog), fuel);
    if r.Ok? {
      assert r.value.0.None?;
      var m1 := r1.value.1;
      forall o: nat ensures o in m1.heap.objects <==> Count(m1.globals, o) > 0 { NullCount(globals, o); }
      if m1.globals == [] {
        forall o: nat ensures o !in m1.heap.objects { assert Count([], o) == 0; }
      }
    }
  }

  /** An f-string that makes an object: its text in a new object with one owner, and every other
      count as before, so what was converted or joined on the way is freed again and a variable
      read is only borrowed. */
  lemma FStringExact(parts: seq<Part>, s: Src, params: seq<string>, m: Mach, ps: seq<Ptr>, outside: World, tape: Tape, prog: seq<CFun>, fuel: nat)
    requires Owns(parts) && Tied(s, params, m, ps, outside, []) && FStringValue(parts, params, s, tape).Some?
    ensures var e := EmitFString(parts, |m.temps|);
      var r := ExecOps(e.ops, ps, m, tape, prog, fuel);
      && r.Ok? && e.t < |r.value.temps| && r.value.temps[e.t].Obj?
      && var p := r.value.temps[e.t];
      && Holds(r.value.heap, p, FStringValue(parts, params, s, tape).value.0)
      && p.id !in m.heap.objects && CountIn(r.value.heap, p.id) == 1
      && (forall o: nat :: o != p.id ==> CountIn(r.value.heap, o) == CountIn(m.heap, o))
      && (forall o: nat :: o in r.value.heap.objects <==> o in m.heap.objects || o == p.id)
  {
    FStringTied(parts, s, params, m, ps, outside, [], tape, prog, fuel);
    var e := EmitFString(parts, |m.temps|);
    hide EmitFString, ExecOps, FStringValue, Owns;
    var m1 := ExecOps(e.ops, ps, m, tape, prog, fuel).value;
    var p := m1.temps[e.t];
    TiedBalanced(s, params, m, ps, outside, []);
    BuiltBalanced(e, FStringValue(parts, params, s, tape).value.0, s.(pos := FStringValue(parts, params, s, tape).value.1), params, m1, ps, outside);
    hide Shows, Balanced;
    OneMore(m.heap, RefsOf(m, outside, []), m1.heap, RefsOf(m1, outside, [p]), p);
  }

  // ---- The text of an f-string, part by part.

  /** Decimal digits without a leading zero, behind a minus sign or not. */
  predicate Canonical(t: string) {
    var d := if t != "" && t[0] == '-' then t[1..] else t;
    d != "" && (forall i :: 0 <= i < |d| ==> '0' <= d[i] <= '9') && (d[0] == '0' ==> t == "0")
  }

  /** `t` is what stands for part `p` if the run supplies the number `n`: a text itself, a variable's
      value, a number in decimal, or the word for a truth value.  The least number has no digits. */
  predicate Says(p: Part, n: i64, params: seq<string>, s: Src, t: string) {
    match p
    case PText(u) => t == u
    case PVar(v) => ValueOf(v, params, s) == Some(t)
    case PInt => if n == -9223372036854775808 then t == "-" else Canonical(t) && Decimal.ParseInt(t) == n
    case PBool => t == (if n == 0 then "false" else "true")
  }

  function Chain(ts: seq<string>): string { if ts == [] then "" else ts[0] + Chain(ts[1..]) }

  /** The state with one number of the run used, if the part takes one. */
  function Past(p: Part, s: Src): Src { if p.PInt? || p.PBool? then s.(pos := s.pos + 1) else s }

  predicate AllSay(parts: seq<Part>, params: seq<string>, s: Src, tape: Tape, ts: seq<string>) {
    if parts == [] then ts == []
    else ts != [] && Says(parts[0], tape(s.pos), params, s, ts[0]) && AllSay(parts[1..], params, Past(parts[0], s), tape, ts[1..])
  }

  lemma IntTextSays(n: i64)
    ensures Says(PInt, n, [], Src([], [], 0), IntText(n))
  {
    if n != Decimal.MIN {
      Decimal.ParseOfText(n);
      Decimal.NoLeadingZero(Abs(n));
      var d := Decimal.Digits(Abs(n));
      assert ("-" + d)[1..] == d;
      if n == 0 { assert d == "0"; }
    }
  }

  predicate AllSet(parts: seq<Part>, params: seq<string>, s: Src) {
    forall i :: 0 <= i < |parts| && parts[i].PVar? ==> ValueOf(parts[i].v, params, s).Some?
  }

  lemma PartSays(p: Part, params: seq<string>, s: Src, tape: Tape)
    ensures PartValue(p, params, s, tape).Some? <==> (p.PVar? ==> ValueOf(p.v, params, s).Some?)
    ensures match PartValue(p, params, s, tape)
      case None => true
      case Some((t, pos)) => Says(p, tape(s.pos), params, s, t) && s.(pos := pos) == Past(p, s)
  {
    if p.PInt? { IntTextSays(tape(s.pos)); }
  }

  /** The meaning of an f-string is the chain of such texts, and it has one if its variables are set. */
  lemma {:induction false} FStringSays(parts: seq<Part>, params: seq<string>, s: Src, tape: Tape) returns (ts: seq<string>)
    ensures FStringValue(parts, params, s, tape).Some? <==> AllSet(parts, params, s)
    ensures FStringValue(parts, params, s, tape).Some? ==>
      AllSay(parts, params, s, tape, ts) && FStringValue(parts, params, s, tape).value.0 == Chain(ts)
    decreases |parts|
  {
    ts := [];
    if parts != [] {
      var p, s1 := parts[0], Past(parts[0], s);
      PartSays(p, params, s, tape);
      hide Says, PartValue;
      var more := FStringSays(parts[1..], params, s1, tape);
      assert AllSet(parts[1..], params, s1) <==> AllSet(parts[1..], params, s);
      assert AllSet(parts, params, s) <==> (p.PVar? ==> ValueOf(p.v, params, s).Some?) && AllSet(parts[1..], params, s) by {
        assert forall i :: 0 < i < |parts| ==> parts[i] == parts[1..][i - 1];
      }
      if PartValue(p, params, s, tape).Some? {
        ts := [PartValue(p, params, s, tape).value.0] + more;
        assert ts[1..] == more;
      }
    }
  }

  /** The object an f-string makes holds its texts, numbers and truth values one after the other. */
  lemma FStringText(parts: seq<Part>, s: Src, params: seq<string>, m: Mach, ps: seq<Ptr>, outside: World, tape: Tape, prog: seq<CFun>, fuel: nat)
    returns (ts: seq<string>)
    requires |parts| >= 2 || parts == [PInt] || parts == [PBool]
    requires Tied(s, params, m, ps, outside, []) && AllSet(parts, params, s)
    ensures AllSay(parts, params, s, tape, ts)
    ensures var e := EmitFString(parts, |m.temps|);
      var r := ExecOps(e.ops, ps, m, tape, prog, fuel);
      && r.Ok? && e.t < |r.value.temps| && r.value.temps[e.t].Obj?
      && var p := r.value.temps[e.t];
      && p.id in r.value.heap.objects && p.id !in m.heap.objects
      && r.value.heap.objects[p.id] == Object(1, Chain(ts))
  {
    ts := FStringSays(parts, params, s, tape);
    FStringExact(parts, s, params, m, ps, outside, tape, prog, fuel);
    hide EmitFString, ExecOps, FStringValue, Tied, AllSay, AllSet;
  }

  lemma TiedBalanced(s: Src, params: seq<string>, m: Mach, ps: seq<Ptr>, outside: World, temps: seq<Ptr>)
    requires Tied(s, params, m, ps, outside, temps)
    ensures Balanced(m.heap, RefsOf(m, outside, temps))
  {
  }

  lemma BuiltBalanced(e: Emitted, text: string, s: Src, params: seq<string>, m: Mach, ps: seq<Ptr>, outside: World)
    requires Built(e, text, s, params, m, ps, outside, []) && e.heap
    ensures e.t < |m.temps| && Holds(m.heap, m.temps[e.t], text) && Balanced(m.heap, RefsOf(m, outside, [m.temps[e.t]]))
  {
    assert [] + [m.temps[e.t]] == [m.temps[e.t]];
    TiedBalanced(s, params, m, ps, outside, [m.temps[e.t]]);
  }

  /** One reference more, to an address not used before. */
  lemma OneMore(h: Heap, r: Refs, h1: Heap, r1: Refs, p: Ptr)
    requires Balanced(h, r) && Balanced(h1, r1) && p.Obj? && p.id >= h.next
    requires r.temps == [] && r1 == r.(temps := [p])
    ensures p.id !in h.objects && CountIn(h1, p.id) == 1
    ensures forall o: nat :: o != p.id ==> CountIn(h1, o) == CountIn(h, o)
    ensures forall o: nat :: o in h1.objects <==> o in h.objects || o == p.id
  {
    forall o: nat
      ensures Total(r1, o) == Total(r, o) + if o == p.id then 1 else 0
    {
      OneCount(p, o);
      assert Count([], o) == 0;
    }
    assert Total(r, p.id) == 0 && Total(r1, p.id) == 1;
    forall o: nat
      ensures CountIn(h1, o) == CountIn(h, o) + (if o == p.id then 1 else 0)
      ensures o in h1.objects <==> CountIn(h1, o) > 0
      ensures o in h.objects <==> CountIn(h, o) > 0
    {
      hide Balanced;
      BalanceMoves(h, r, h1, r1, o);
      BalanceMoves(h1, r1, h, r, o);
    }
  }

  lemma StartTied(globals: nat, bound: Bound)
    ensures Tied(Src([], seq(globals, i => None), 0), [], AtStart(globals), [], World([], bound), [])
  {
    var m := AtStart(globals);
    forall o: nat ensures Total(RefsOf(m, World([], bound), []), o) == 0 { NullCount(globals, o); }
  }
}
