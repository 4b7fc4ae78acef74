/** The pass that deletes a retain directly followed by a release of the same operand.  The walk
    modelled is the intended one, which goes on behind a deleted pair; the source takes up the
    release it has just erased and reads on from there (src/codegen/arc.c:136-139). */

module Peephole {
  import opened Options
  import opened Arc

  type Reg = nat

  /** Instructions of a block; a result has a register of its own. */
  datatype Inst =
    | IStatic(dst: Reg, text: string)
    | ILoad(dst: Reg, slot: string)
    | IStore(slot: string, src: Reg)
    | IConcat(dst: Reg, a: Reg, b: Reg)
    | IRetain(dst: Reg, src: Reg)
    | IRelease(src: Reg)

  datatype State = State(heap: Heap, slots: map<string, Ptr>, regs: map<Reg, Ptr>)

  function Uses(i: Inst): set<Reg> {
    match i
    case IStore(_, src) => {src}
    case IConcat(_, a, b) => {a, b}
    case IRetain(_, src) => {src}
    case IRelease(src) => {src}
    case _ => {}
  }

  function Defines(i: Inst): set<Reg> { if i.IStore? || i.IRelease? then {} else {i.dst} }

  function Set(st: State, dst: Reg, p: Ptr): State { st.(regs := st.regs[dst := p]) }

  /** None when an operand has no value or memory is touched that is not a live object's. */
  function Step(i: Inst, st: State): Option<State> {
    if !(Uses(i) <= st.regs.Keys) then None
    else
      match i
      case IStatic(dst, text) => Some(Set(st, dst, Static(text)))
      case ILoad(dst, slot) => if slot in st.slots then Some(Set(st, dst, st.slots[slot])) else None
      case IStore(slot, src) => if slot in st.slots then Some(st.(slots := st.slots[slot := st.regs[src]])) else None
      case IConcat(dst, a, b) =>
        (match Concat(st.heap, st.regs[a], st.regs[b])
         case None => None
         case Some(h) => Some(Set(st.(heap := h), dst, Obj(st.heap.next))))
      case IRetain(dst, src) =>
        (match Retain(st.heap, st.regs[src])
         case None => None
         case Some(h) => Some(Set(st.(heap := h), dst, st.regs[src])))
      case IRelease(src) =>
        match Release(st.heap, st.regs[src])
        case None => None
        case Some(h) => Some(st.(heap := h))
  }

  function Run(code: seq<Inst>, st: State): Option<State> {
    if code == [] then Some(st)
    else match Step(code[0], st) case None => None case Some(st1) => Run(code[1..], st1)
  }

  predicate IsPair(code: seq<Inst>) {
    |code| >= 2 && code[0].IRetain? && code[1].IRelease? && code[0].src == code[1].src
  }

  /** One pass over a block; after a pair it goes on behind it, so a pair that only becomes
      adjacent by the deletion stays. */
  function Optimize(code: seq<Inst>): seq<Inst>
    decreases |code|
  {
    if code == [] then []
    else if IsPair(code) then Optimize(code[2..])
    else [code[0]] + Optimize(code[1..])
  }

  /** The results that are gone. */
  function Removed(code: seq<Inst>): set<Reg>
    decreases |code|
  {
    if code == [] then {}
    else if IsPair(code) then {code[0].dst} + Removed(code[2..])
    else Removed(code[1..])
  }

  predicate Unused(code: seq<Inst>, rs: set<Reg>) {
    forall i :: 0 <= i < |code| ==> Uses(code[i]) !! rs
  }

  function AllDefined(code: seq<Inst>): set<Reg> {
    if code == [] then {} else Defines(code[0]) + AllDefined(code[1..])
  }

  /** Each register is defined once. */
  predicate SingleAssignment(code: seq<Inst>, defined: set<Reg>)
    decreases |code|
  {
    code == [] || (Defines(code[0]) !! defined && SingleAssignment(code[1..], defined + Defines(code[0])))
  }

  /** Counts of live objects are never nought. */
  predicate Counted(h: Heap) {
    (forall o :: o in h.objects ==> h.objects[o].count > 0)
  }

  lemma StepCounted(i: Inst, st: State)
    requires Counted(st.heap) && Step(i, st).Some?
    ensures Counted(Step(i, st).value.heap)
  {
  }

  /** A retain and a release of one pointer leave the heap as it was. */
  lemma PairIsIdentity(h: Heap, p: Ptr)
    requires Counted(h) && Retain(h, p).Some?
    ensures Release(Retain(h, p).value, p) == Some(h)
  {
    if p.Obj? {
      var h1 := Retain(h, p).value;
      assert h1.objects[p.id := h.objects[p.id]] == h.objects;
    }
  }

  function Without(st: State, rs: set<Reg>): State { st.(regs := st.regs - rs) }

  /** A step that does not use some registers does not notice that they are missing, and one that
      does cannot be taken. */
  lemma StepWithout(i: Inst, st: State, rs: set<Reg>)
    requires Step(i, st).Some? && Defines(i) !! rs
    ensures Step(i, Without(st, rs)) == if Uses(i) !! rs then Some(Without(Step(i, st).value, rs)) else None
  {
    if Uses(i) !! rs {
      var a, b := Step(i, Without(st, rs)), Without(Step(i, st).value, rs);
      assert a.Some? && a.value.regs == b.regs;
    }
  }

  lemma {:induction false} RemovedDefined(code: seq<Inst>, defined: set<Reg>)
    requires SingleAssignment(code, defined)
    ensures Removed(code) !! defined
    decreases |code|
  {
    if code != [] {
      if IsPair(code) {
        assert code[1..][1..] == code[2..];
        assert SingleAssignment(code[2..], defined + Defines(code[0]) + Defines(code[1]));
        RemovedDefined(code[2..], defined + Defines(code[0]) + Defines(code[1]));
      } else {
        RemovedDefined(code[1..], defined + Defines(code[0]));
      }
    }
  }

  lemma {:induction false} OptimizedRun(code: seq<Inst>, st: State, gone: set<Reg>)
    requires SingleAssignment(code, st.regs.Keys + gone) && Counted(st.heap) && Run(code, st).Some?
    ensures var r, all := Run(Optimize(code), Without(st, gone)), gone + Removed(code);
      r == if Unused(Optimize(code), all) then Some(Without(Run(code, st).value, all)) else None
    decreases |code|
  {
    hide Step, Defines, Uses;
    if code == [] {
      assert gone + {} == gone;
    } else if IsPair(code) {
      PairRun(code, st, gone);
      var d := code[0].dst;
      var st1 := Set(st, d, st.regs[code[0].src]);
      OptimizedRun(code[2..], st1, gone + {d});
      assert Without(st1, gone + {d}) == Without(st, gone) by { assert st1.regs - (gone + {d}) == st.regs - gone; }
      assert gone + {d} + Removed(code[2..]) == gone + Removed(code);
    } else {
      var st1 := Step(code[0], st).value;
      StepCounted(code[0], st);
      StepWithout(code[0], st, gone);
      StepKeys(code[0], st);
      assert st.regs.Keys + gone + Defines(code[0]) == st1.regs.Keys + gone;
      OptimizedRun(code[1..], st1, gone);
      RemovedDefined(code, st.regs.Keys + gone);
      var rest := Optimize(code[1..]);
      assert Optimize(code) == [code[0]] + rest && ([code[0]] + rest)[1..] == rest;
      UnusedCons(code[0], rest, gone, Removed(code));
    }
  }

  lemma StepKeys(i: Inst, st: State)
    requires Step(i, st).Some?
    ensures Step(i, st).value.regs.Keys == st.regs.Keys + Defines(i) && Uses(i) <= st.regs.Keys
  {
  }

  lemma UnusedCons(i: Inst, rest: seq<Inst>, gone: set<Reg>, removed: set<Reg>)
    requires Uses(i) !! removed
    ensures Unused([i] + rest, gone + removed) <==> Uses(i) !! gone && Unused(rest, gone + removed)
  {
    hide Uses;
    var all := [i] + rest;
    if Unused(all, gone + removed) {
      assert all[0] == i;
      forall k | 0 <= k < |rest| ensures Uses(rest[k]) !! gone + removed { assert all[k + 1] == rest[k]; }
    }
  }

  /** What a pair does: it only names its operand again. */
  lemma PairRun(code: seq<Inst>, st: State, gone: set<Reg>)
    requires IsPair(code) && SingleAssignment(code, st.regs.Keys + gone) && Counted(st.heap) && Run(code, st).Some?
    ensures code[0].src in st.regs && code[0].dst !in st.regs && code[0].dst !in gone
    ensures var st1 := Set(st, code[0].dst, st.regs[code[0].src]);
      && Run(code, st) == Run(code[2..], st1)
      && SingleAssignment(code[2..], st1.regs.Keys + (gone + {code[0].dst}))
  {
    var p, d := st.regs[code[0].src], code[0].dst;
    PairIsIdentity(st.heap, p);
    var st0 := Step(code[0], st).value;
    assert code[1..][0] == code[1] && code[1..][1..] == code[2..];
    assert st0.regs[code[1].src] == p by { assert code[1].src != d; }
    var st1 := Set(st, d, p);
    assert Step(code[1], st0) == Some(st1);
    assert st1.regs.Keys + (gone + {d}) == st.regs.Keys + gone + Defines(code[0]) + Defines(code[1]);
  }

  /** The pass on a block whose run does not fault: the shorter block runs too if and only if no
      instruction left uses a result that is gone, and then it ends with the same heap, the same
      slots and the same values of all other results. */
  lemma PassPreserves(code: seq<Inst>, st: State)
    requires SingleAssignment(code, st.regs.Keys) && Counted(st.heap) && Run(code, st).Some?
    ensures var r := Run(Optimize(code), st);
      && (r.Some? <==> Unused(Optimize(code), Removed(code)))
      && (r.Some? ==> r.value == Without(Run(code, st).value, Removed(code)))
  {
    assert st.regs.Keys + {} == st.regs.Keys && Without(st, {}) == st by { assert st.regs - {} == st.regs; }
    OptimizedRun(code, st, {});
    assert {} + Removed(code) == Removed(code);
  }

  // ---- Exactly which instructions go.

  /** At `i` and behind it stand a retain and a release of the same operand. */
  predicate PairAt(code: seq<Inst>, i: int) {
    0 <= i < |code| - 1 && code[i].IRetain? && code[i + 1].IRelease? && code[i].src == code[i + 1].src
  }

  /** The first `n` instructions without those in a pair. */
  function Survivors(code: seq<Inst>, n: nat): seq<Inst>
    requires n <= |code|
  {
    if n == 0 then []
    else Survivors(code, n - 1) + if PairAt(code, n - 1) || PairAt(code, n - 2) then [] else [code[n - 1]]
  }

  /** How many pairs begin among the first `n` instructions. */
  function Pairs(code: seq<Inst>, n: nat): nat
    requires n <= |code|
  {
    if n == 0 then 0 else Pairs(code, n - 1) + if PairAt(code, n - 1) then 1 else 0
  }

  /** Instructions in front of which no pair reaches over are kept as they are without the rest. */
  lemma {:induction false} SurvivorsFrom(code: seq<Inst>, i: nat, n: nat)
    requires i <= n <= |code| && !PairAt(code, i - 1)
    ensures Survivors(code, n) == Survivors(code, i) + Survivors(code[i..], n - i)
    ensures Pairs(code, n) == Pairs(code, i) + Pairs(code[i..], n - i)
    decreases n
  {
    if i < n {
      SurvivorsFrom(code, i, n - 1);
      var rest := code[i..];
      assert rest[n - i - 1] == code[n - 1];
      assert PairAt(rest, n - i - 1) <==> PairAt(code, n - 1);
      assert PairAt(rest, n - i - 2) <==> PairAt(code, n - 2);
    }
  }

  /** One pass deletes every retain that a release of the same operand follows, with that release, and
      nothing else; a pair that only the deletion brings together stays. */
  lemma {:induction false} OptimizeIs(code: seq<Inst>)
    ensures Optimize(code) == Survivors(code, |code|) && |Optimize(code)| == |code| - 2 * Pairs(code, |code|)
    decreases |code|
  {
    if code != [] {
      var k := if PairAt(code, 0) then 2 else 1;
      OptimizeIs(code[k..]);
      SurvivorsFrom(code, k, |code|);
      assert k == 1 ==> Survivors(code, 1) == [code[0]] && Pairs(code, 1) == 0;
      assert k == 2 ==> Survivors(code, 2) == [] && Pairs(code, 2) == 1 by {
        assert k == 2 ==> Survivors(code, 1) == [] && Pairs(code, 1) == 1;
      }
    }
  }

  /** The results that are gone are those of the retains deleted. */
  lemma {:induction false} RemovedIff(code: seq<Inst>, r: Reg)
    ensures r in Removed(code) <==> exists i :: PairAt(code, i) && code[i].dst == r
    decreases |code|
  {
    if code != [] {
      var k := if PairAt(code, 0) then 2 else 1;
      RemovedIff(code[k..], r);
      assert forall i :: PairAt(code[k..], i) ==> PairAt(code, i + k) && code[i + k] == code[k..][i];
      forall i | PairAt(code, i) && i >= k ensures PairAt(code[k..], i - k) && code[k..][i - k] == code[i] {}
    }
  }

  /** The pass in place. */
  class Block {
    var code: seq<Inst>

    method EraseFromParent(i: nat)
      requires i < |code|
      modifies this
      ensures code == old(code[..i] + code[i + 1..])
    {
      code := code[..i] + code[i + 1..];
    }

    method ArcOptimize()
      modifies this
      ensures code == Optimize(old(code))
    {
      var inst: nat := 0;
      while inst < |code|
        invariant inst <= |code|
        invariant Optimize(old(code)) == code[..inst] + Optimize(code[inst..])
        decreases |code| - inst
      {
        ghost var before := code;
        assert code[inst..][0] == code[inst] && code[inst..][1..] == code[inst + 1..];
        if inst + 1 < |code| && code[inst].IRetain? && code[inst + 1].IRelease? && code[inst].src == code[inst + 1].src {
          EraseFromParent(inst + 1);
          EraseFromParent(inst);
          assert code[..inst] == before[..inst] && code[inst..] == before[inst..][2..];
        } else {
          inst := inst + 1;
        }
      }
    }
  }
}
