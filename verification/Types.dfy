/** Types of the checker: when two are equal and when one may stand for the other
    (src/frontend/typecheck.c:60-113). */

module Types {
  import opened Options

  datatype Scalar =
    | Int | Float | Bool | Void | Str | Char
    | I8 | I16 | I32 | I64 | I128 | U8 | U16 | U32 | U64 | U128 | ISize | USize | F32 | F64

  /** Names and pointees may be missing, as null pointers in the C structure are. */
  datatype Type =
    | Basic(k: Scalar)
    | Struct(name: Option<string>)
    | Class(name: Option<string>)
    | Enum(name: Option<string>)
    | Pointer(pointee: Option<Type>)
    | Function(arity: nat)
    | Tuple(elems: seq<Type>)
    | Unknown
    | TypeError

  predicate SameKind(a: Type, b: Type) {
    match a
    case Basic(k) => b == Basic(k)
    case Struct(_) => b.Struct?
    case Class(_) => b.Class?
    case Enum(_) => b.Enum?
    case Pointer(_) => b.Pointer?
    case Function(_) => b.Function?
    case Tuple(_) => b.Tuple?
    case Unknown => b.Unknown?
    case TypeError => b.TypeError?
  }

  predicate TypesEqual(a: Type, b: Type)
    decreases a
  {
    if !SameKind(a, b) then false
    else if a.Struct? || a.Class? || a.Enum? then a.name == b.name
    else if a.Pointer? then a.pointee.Some? && b.pointee.Some? && TypesEqual(a.pointee.value, b.pointee.value)
    else if a.Tuple? then
      |a.elems| == |b.elems| && forall i :: 0 <= i < |a.elems| ==> TypesEqual(a.elems[i], b.elems[i])
    else true
  }

  predicate IsInt(t: Type) {
    t.Basic? && (t.k.Int? || t.k.Char? || t.k.I8? || t.k.I16? || t.k.I32? || t.k.I64? || t.k.I128?
                 || t.k.U8? || t.k.U16? || t.k.U32? || t.k.U64? || t.k.U128? || t.k.ISize? || t.k.USize?)
  }

  predicate IsFloat(t: Type) { t.Basic? && (t.k.Float? || t.k.F32? || t.k.F64?) }

  predicate IsCoercible(from: Type, to: Type)
    decreases from
  {
    if TypesEqual(from, to) then true
    else if from.TypeError? || to.TypeError? then true
    else if from.Unknown? then true
    else if to.Unknown? then true
    else if IsInt(from) && IsInt(to) then true
    else if IsFloat(from) && IsFloat(to) then true
    else if IsInt(from) && IsFloat(to) then true
    else if IsFloat(from) && IsInt(to) then true
    else if from == Basic(Bool) && IsInt(to) then true
    else if IsInt(from) && to == Basic(Bool) then true
    else if from.Tuple? && to.Tuple? then
      |from.elems| == |to.elems| && forall i :: 0 <= i < |from.elems| ==> IsCoercible(from.elems[i], to.elems[i])
    else false
  }

  /** No pointer inside is without its pointee. */
  predicate Solid(t: Type) {
    match t
    case Pointer(p) => p.Some? && Solid(p.value)
    case Tuple(elems) => forall i :: 0 <= i < |elems| ==> Solid(elems[i])
    case _ => true
  }

  /** What the comparison looks at: of a function type nothing but that it is one. */
  function Erase(t: Type): Type {
    match t
    case Pointer(Some(p)) => Pointer(Some(Erase(p)))
    case Function(_) => Function(0)
    case Tuple(elems) => Tuple(seq(|elems|, i requires 0 <= i < |elems| => Erase(elems[i])))
    case _ => t
  }

  /** Two types are equal if and only if they are complete and look the same. */
  lemma {:induction false} EqualIff(a: Type, b: Type)
    ensures TypesEqual(a, b) <==> Solid(a) && Solid(b) && Erase(a) == Erase(b)
    decreases a
  {
    if a.Pointer? && b.Pointer? && a.pointee.Some? && b.pointee.Some? {
      EqualIff(a.pointee.value, b.pointee.value);
    }
    if a.Tuple? && b.Tuple? && |a.elems| == |b.elems| {
      forall i | 0 <= i < |a.elems|
        ensures TypesEqual(a.elems[i], b.elems[i]) <==> Solid(a.elems[i]) && Solid(b.elems[i]) && Erase(a.elems[i]) == Erase(b.elems[i])
      {
        EqualIff(a.elems[i], b.elems[i]);
      }
      TupleErase(a.elems, b.elems);
    }
    if a.Tuple? && b.Tuple? && |a.elems| != |b.elems| {
      assert |Erase(a).elems| != |Erase(b).elems|;
    }
  }

  lemma TupleErase(a: seq<Type>, b: seq<Type>)
    requires |a| == |b|
    ensures Erase(Tuple(a)) == Erase(Tuple(b)) <==> forall i :: 0 <= i < |a| ==> Erase(a[i]) == Erase(b[i])
  {
    var x, y := Erase(Tuple(a)).elems, Erase(Tuple(b)).elems;
    if x == y {
      forall i | 0 <= i < |a| ensures Erase(a[i]) == Erase(b[i]) { assert x[i] == y[i]; }
    }
  }

  /** So it is an equivalence on complete types; an incomplete one is not even equal to itself. */
  lemma EqualEquivalence(a: Type, b: Type, c: Type)
    ensures TypesEqual(a, a) <==> Solid(a)
    ensures TypesEqual(a, b) <==> TypesEqual(b, a)
    ensures TypesEqual(a, b) && TypesEqual(b, c) ==> TypesEqual(a, c)
  {
    EqualIff(a, a);
    EqualIff(a, b);
    EqualIff(b, a);
    EqualIff(b, c);
    EqualIff(a, c);
  }

  /** Coercion goes both ways at every depth of nested tuples. */
  lemma {:induction false} CoercibleSymmetric(a: Type, b: Type)
    ensures IsCoercible(a, b) <==> IsCoercible(b, a)
    decreases a
  {
    EqualEquivalence(a, b, a);
    if a.Tuple? && b.Tuple? && |a.elems| == |b.elems| {
      forall i | 0 <= i < |a.elems| ensures IsCoercible(a.elems[i], b.elems[i]) <==> IsCoercible(b.elems[i], a.elems[i]) {
        CoercibleSymmetric(a.elems[i], b.elems[i]);
      }
    }
  }

  const INTEGERS: set<Scalar> := {Int, Char, I8, I16, I32, I64, I128, U8, U16, U32, U64, U128, ISize, USize}
  const FLOATS: set<Scalar> := {Float, F32, F64}

  /** Of the scalar types, any two numbers go together, a Boolean goes with integers only, and strings
      and `void` go with themselves. */
  lemma ScalarsCoercible(a: Scalar, b: Scalar)
    ensures IsCoercible(Basic(a), Basic(b)) <==>
      || a == b
      || (a in INTEGERS + FLOATS && b in INTEGERS + FLOATS)
      || (a == Bool && b in INTEGERS) || (a in INTEGERS && b == Bool)
  {
    NumbersAre(a);
    NumbersAre(b);
    hide INTEGERS, FLOATS, IsInt, IsFloat;
  }

  lemma NumbersAre(a: Scalar)
    ensures IsInt(Basic(a)) <==> a in INTEGERS
    ensures IsFloat(Basic(a)) <==> a in FLOATS
  {
  }

  /** Two types are coercible if and only if one of them is not known, they are equal, they are coercible
      scalars, or they are tuples of one length that are coercible place by place. */
  lemma CoercibleIff(a: Type, b: Type)
    ensures IsCoercible(a, b) <==>
      || a == Unknown || b == Unknown || a == TypeError || b == TypeError
      || (Solid(a) && Solid(b) && Erase(a) == Erase(b))
      || (a.Basic? && b.Basic? && IsCoercible(Basic(a.k), Basic(b.k)))
      || (a.Tuple? && b.Tuple? && |a.elems| == |b.elems| && forall i :: 0 <= i < |a.elems| ==> IsCoercible(a.elems[i], b.elems[i]))
  {
    EqualIff(a, b);
    hide TypesEqual, Solid, Erase;
  }
}
