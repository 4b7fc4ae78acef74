/** The reference-counting runtime (runtime/arc.c) and the string functions on top of it. */

module Arc {
  import opened Options
  import opened Int64
  import Decimal

  /** `Static` is a literal's constant, which has no count in front of it. */
  datatype Ptr = Null | Static(text: string) | Obj(id: nat)

  datatype Object = Object(count: nat, text: string)

  /** `next` is an address never used so far; freed objects are gone. */
  datatype Heap = Heap(objects: map<nat, Object>, next: nat)

  /** Reading a pointer that is null or whose object was freed has no result. */
  function Content(h: Heap, p: Ptr): Option<string> {
    match p
    case Null => None
    case Static(text) => Some(text)
    case Obj(o) => if o in h.objects then Some(h.objects[o].text) else None
  }

  function Alloc(h: Heap, text: string): Heap {
    Heap(h.objects[h.next := Object(1, text)], h.next + 1)
  }

  /** None where the C code would touch memory that is not a live object's. */
  function Retain(h: Heap, p: Ptr): Option<Heap> {
    match p
    case Null => Some(h)
    case Static(_) => None
    case Obj(o) =>
      if o !in h.objects then None
      else Some(h.(objects := h.objects[o := h.objects[o].(count := h.objects[o].count + 1)]))
  }

  function Release(h: Heap, p: Ptr): Option<Heap> {
    match p
    case Null => Some(h)
    case Static(_) => None
    case Obj(o) =>
      if o !in h.objects || h.objects[o].count == 0 then None
      else if h.objects[o].count == 1 then Some(h.(objects := h.objects - {o}))
      else Some(h.(objects := h.objects[o := h.objects[o].(count := h.objects[o].count - 1)]))
  }

  /** How many of the pointers are references to object `o`. */
  function Count(ps: seq<Ptr>, o: nat): nat {
    if ps == [] then 0 else Count(ps[..|ps| - 1], o) + if ps[|ps| - 1] == Obj(o) then 1 else 0
  }

  /** All references there are: those of the world outside, of temporaries, locals and globals. */
  datatype Refs = Refs(outside: seq<Ptr>, temps: seq<Ptr>, locals: seq<Ptr>, globals: seq<Ptr>)

  function Total(r: Refs, o: nat): nat {
    Count(r.outside, o) + Count(r.temps, o) + Count(r.locals, o) + Count(r.globals, o)
  }

  /** Every live object's count is the number of references to it, and an object without
      references is not live. */
  ghost predicate Balanced(h: Heap, r: Refs) {
    && (forall o :: o in h.objects ==> o < h.next)
    && (forall o: nat {:trigger Total(r, o)} {:trigger o in h.objects} ::
        (o in h.objects <==> Total(r, o) > 0) && (o in h.objects ==> h.objects[o].count == Total(r, o)))
  }

  /** Objects that stay keep their text, and addresses are not used again. */
  predicate Keeps(h: Heap, h1: Heap) {
    && h.next <= h1.next
    && (forall o :: o in h.objects ==> o < h.next)
    && (forall o :: o in h1.objects && o < h.next ==> o in h.objects && h1.objects[o].text == h.objects[o].text)
  }

  lemma KeepsTrans(h: Heap, h1: Heap, h2: Heap)
    requires Keeps(h, h1) && Keeps(h1, h2)
    ensures Keeps(h, h2)
  {
  }

  /** Allocation makes the one reference to a new object. */
  lemma AllocBalanced(h: Heap, r: Refs, r1: Refs, text: string)
    requires Balanced(h, r) && forall o: nat :: Total(r1, o) == Total(r, o) + if o == h.next then 1 else 0
    ensures Balanced(Alloc(h, text), r1) && Keeps(h, Alloc(h, text)) && h.next !in h.objects
  {
  }

  lemma RetainBalanced(h: Heap, r: Refs, r1: Refs, p: nat)
    requires Balanced(h, r) && Total(r, p) > 0
    requires forall o: nat :: Total(r1, o) == Total(r, o) + if o == p then 1 else 0
    ensures Retain(h, Obj(p)).Some?
    ensures Balanced(Retain(h, Obj(p)).value, r1) && Keeps(h, Retain(h, Obj(p)).value)
  {
  }

  /** Releasing undoes one reference; the last one frees the object. */
  lemma ReleaseBalanced(h: Heap, r: Refs, r1: Refs, p: nat)
    requires Balanced(h, r) && Total(r, p) > 0
    requires forall o: nat :: Total(r1, o) == Total(r, o) - if o == p then 1 else 0
    ensures Release(h, Obj(p)).Some?
    ensures Balanced(Release(h, Obj(p)).value, r1) && Keeps(h, Release(h, Obj(p)).value)
  {
  }

  lemma {:induction false} CountAt(ps: seq<Ptr>, i: nat)
    requires i < |ps| && ps[i].Obj?
    ensures Count(ps, ps[i].id) > 0
    decreases |ps|
  {
    if i < |ps| - 1 {
      CountAt(ps[..|ps| - 1], i);
    }
  }

  lemma {:induction false} CountUpdate(ps: seq<Ptr>, i: nat, p: Ptr, o: nat)
    requires i < |ps|
    ensures Count(ps[i := p], o) == Count(ps, o) - (if ps[i] == Obj(o) then 1 else 0) + (if p == Obj(o) then 1 else 0)
    decreases |ps|
  {
    var n := |ps| - 1;
    if i < n {
      CountUpdate(ps[..n], i, p, o);
      assert ps[i := p][..n] == ps[..n][i := p];
    } else {
      assert ps[i := p][..n] == ps[..n];
    }
  }

  lemma CountSnoc(ps: seq<Ptr>, p: Ptr, o: nat)
    ensures Count(ps + [p], o) == Count(ps, o) + if p == Obj(o) then 1 else 0
  {
    assert (ps + [p])[..|ps|] == ps;
  }

  /** `penguin_str_concat`: a fresh object, or nothing if an operand cannot be read. */
  function Concat(h: Heap, a: Ptr, b: Ptr): Option<Heap> {
    match (Content(h, a), Content(h, b))
    case (Some(s), Some(t)) => Some(Alloc(h, s + t))
    case _ => None
  }

  /** The texts of numbers and Booleans (stdlib/console/console.c:86-115). */
  function IntText(n: i64): string { if n == Decimal.MIN then "-" else Decimal.Text(n) }

  function BoolText(n: i64): string { if n != 0 then "true" else "false" }

  /** The runtime as it is: a store its functions update. */
  class Runtime {
    var heap: Heap

    constructor ()
      ensures heap == Heap(map[], 0)
    {
      heap := Heap(map[], 0);
    }

    method ArcAlloc(text: string) returns (p: Ptr)
      modifies this
      ensures heap == Alloc(old(heap), text) && p == Obj(old(heap).next)
    {
      p := Obj(heap.next);
      heap := Heap(heap.objects[heap.next := Object(1, text)], heap.next + 1);
    }

    /** `ok` is false where the C code has no defined behaviour. */
    method ArcRetain(p: Ptr) returns (ok: bool)
      modifies this
      ensures Retain(old(heap), p) == if ok then Some(heap) else None
    {
      ok := true;
      if p != Null {
        if p.Static? || p.id !in heap.objects {
          return false;
        }
        var header := heap.objects[p.id];
        heap := heap.(objects := heap.objects[p.id := header.(count := header.count + 1)]);
      }
    }

    method ArcRelease(p: Ptr) returns (ok: bool)
      modifies this
      ensures Release(old(heap), p) == if ok then Some(heap) else None
    {
      ok := true;
      if p != Null {
        if p.Static? || p.id !in heap.objects || heap.objects[p.id].count == 0 {
          return false;
        }
        var count := heap.objects[p.id].count - 1;
        if count == 0 {
          heap := heap.(objects := heap.objects - {p.id});
        } else {
          heap := heap.(objects := heap.objects[p.id := heap.objects[p.id].(count := count)]);
        }
      }
    }

    method StrConcat(a: Ptr, b: Ptr) returns (p: Option<Ptr>)
      modifies this
      ensures Concat(old(heap), a, b) == if p.Some? then Some(heap) else None
      ensures p.Some? ==> p.value == Obj(old(heap).next)
    {
      var s, t := Content(heap, a), Content(heap, b);
      if s.None? || t.None? {
        return None;
      }
      var fresh1 := ArcAlloc(s.value + t.value);
      p := Some(fresh1);
    }
  }
}
