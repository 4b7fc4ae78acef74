/** The table of functions: what it keeps and which overload a call gets
    (src/frontend/typecheck.c:315-389). */

module Overloads {
  import opened Options
  import opened Types

  datatype Sig = Sig(name: string, params: seq<Type>, ret: Type)

  predicate AllEqual(a: seq<Type>, b: seq<Type>) {
    |a| == |b| && forall i :: 0 <= i < |a| ==> TypesEqual(a[i], b[i])
  }

  predicate SameSignature(f: Sig, g: Sig) { f.name == g.name && AllEqual(f.params, g.params) }

  function Pushed(funcs: seq<Sig>, f: Sig): seq<Sig> {
    if exists i :: 0 <= i < |funcs| && SameSignature(funcs[i], f) then funcs else funcs + [f]
  }

  /** No two entries of a name have equal parameter lists. */
  predicate Distinct(funcs: seq<Sig>) {
    forall i, j :: 0 <= i < j < |funcs| ==> !SameSignature(funcs[i], funcs[j])
  }

  lemma PushDistinct(funcs: seq<Sig>, f: Sig)
    requires Distinct(funcs)
    ensures Distinct(Pushed(funcs, f)) && funcs <= Pushed(funcs, f)
  {
  }

  /** Whether the argument may be passed at all, and how well it fits. */
  predicate Matches(arg: Type, param: Type) {
    param.TypeError? || arg.TypeError? || param.Unknown? || arg.Unknown? || TypesEqual(arg, param) || IsCoercible(arg, param)
  }

  function Points(arg: Type, param: Type): nat {
    if param.TypeError? || arg.TypeError? then 1
    else if param.Unknown? || arg.Unknown? then 2
    else if TypesEqual(arg, param) then 3
    else if IsCoercible(arg, param) then 1
    else 0
  }

  function Score(args: seq<Type>, params: seq<Type>, n: nat): nat
    requires n <= |args| == |params|
  {
    if n == 0 then 0 else Score(args, params, n - 1) + Points(args[n - 1], params[n - 1])
  }

  predicate Applicable(f: Sig, name: string, args: seq<Type>) {
    f.name == name && |f.params| == |args| && forall i :: 0 <= i < |args| ==> Matches(args[i], f.params[i])
  }

  function Total(f: Sig, args: seq<Type>): nat
    requires |f.params| == |args|
  {
    Score(args, f.params, |args|)
  }

  /** Entry `k` is the first of the best applicable ones. */
  predicate IsBest(funcs: seq<Sig>, name: string, args: seq<Type>, k: nat)
    ensures IsBest(funcs, name, args, k) ==> k < |funcs|
  {
    && k < |funcs| && Applicable(funcs[k], name, args)
    && forall j :: 0 <= j < |funcs| && Applicable(funcs[j], name, args) ==>
       Total(funcs[j], args) <= Total(funcs[k], args) && (j < k ==> Total(funcs[j], args) < Total(funcs[k], args))
  }

  lemma {:induction false} ScoreBound(args: seq<Type>, params: seq<Type>, n: nat)
    requires n <= |args| == |params|
    ensures Score(args, params, n) <= 3 * n
    ensures Score(args, params, n) == 3 * n ==> forall i :: 0 <= i < n ==> Points(args[i], params[i]) == 3
    ensures (forall i :: 0 <= i < n ==> Points(args[i], params[i]) == 3) ==> Score(args, params, n) == 3 * n
  {
    hide Points;
    if n > 0 {
      ScoreBound(args, params, n - 1);
      PointsBound(args[n - 1], params[n - 1]);
    }
  }

  lemma PointsBound(arg: Type, param: Type)
    ensures Points(arg, param) <= 3
  {
  }

  /** An overload applies if and only if each argument is coercible to its parameter. */
  lemma ApplicableIff(f: Sig, name: string, args: seq<Type>)
    ensures Applicable(f, name, args) <==>
      f.name == name && |f.params| == |args| && forall i :: 0 <= i < |args| ==> IsCoercible(args[i], f.params[i])
  {
  }

  predicate Unsure(a: Type, p: Type) { a != TypeError && p != TypeError && (a == Unknown || p == Unknown) }

  /** How many of the first `n` pairs satisfy `test`. */
  function HowMany(args: seq<Type>, params: seq<Type>, n: nat, test: (Type, Type) -> bool): nat
    requires n <= |args| == |params|
  {
    if n == 0 then 0 else HowMany(args, params, n - 1, test) + if test(args[n - 1], params[n - 1]) then 1 else 0
  }

  /** The score of one that applies: one point a parameter, two more where the types are equal and
      known, one more where one of them is not known. */
  lemma {:induction false} ScoreIs(args: seq<Type>, params: seq<Type>, n: nat)
    requires n <= |args| == |params| && forall i :: 0 <= i < n ==> IsCoercible(args[i], params[i])
    ensures Score(args, params, n) == n
      + 2 * HowMany(args, params, n, (a, p) => Definite(a) && Definite(p) && TypesEqual(a, p))
      + HowMany(args, params, n, Unsure)
  {
    if n > 0 {
      ScoreIs(args, params, n - 1);
    }
  }

  predicate Definite(t: Type) { !t.Unknown? && !t.TypeError? }

  /** With arguments of definite types, an entry whose parameters are equal to them is the best
      one wherever it stands in the table, and the only one with its score. */
  lemma ExactWins(funcs: seq<Sig>, name: string, args: seq<Type>, k: nat)
    requires Distinct(funcs) && k < |funcs| && funcs[k].name == name && AllEqual(args, funcs[k].params)
    requires forall i :: 0 <= i < |args| ==> Definite(args[i])
    ensures IsBest(funcs, name, args, k)
    ensures forall j :: 0 <= j < |funcs| && j != k && Applicable(funcs[j], name, args) ==> Total(funcs[j], args) < Total(funcs[k], args)
  {
    var f := funcs[k];
    FullScoreEqual(args, f, f);
    forall j | 0 <= j < |funcs| && j != k && Applicable(funcs[j], name, args)
      ensures Total(funcs[j], args) < Total(f, args)
    {
      ScoreBound(args, funcs[j].params, |args|);
      FullScoreEqual(args, f, funcs[j]);
    }
  }

  /** Only a list equal to the arguments' types reaches the full score. */
  lemma FullScoreEqual(args: seq<Type>, f: Sig, g: Sig)
    requires AllEqual(args, f.params) && |g.params| == |args| && forall i :: 0 <= i < |args| ==> Definite(args[i])
    ensures Total(f, args) == 3 * |args|
    ensures Total(g, args) == 3 * |args| ==> AllEqual(f.params, g.params) && AllEqual(g.params, f.params)
  {
    ScoreBound(args, f.params, |args|);
    ScoreBound(args, g.params, |args|);
    if Total(g, args) == 3 * |args| {
      forall i | 0 <= i < |args| ensures TypesEqual(f.params[i], g.params[i]) && TypesEqual(g.params[i], f.params[i]) {
        assert Points(args[i], g.params[i]) == 3;
        EqualEquivalence(f.params[i], args[i], g.params[i]);
        EqualEquivalence(f.params[i], g.params[i], f.params[i]);
        EqualEquivalence(args[i], f.params[i], args[i]);
      }
    }
  }

  /** An argument of unknown type scores the same for every parameter but an erroneous one, so
      there the order of registration decides. */
  lemma UnknownTakesFirst(name: string, a: Type, b: Type, ret: Type)
    requires Definite(a) && Definite(b) && !TypesEqual(a, b)
    ensures Distinct([Sig(name, [a], ret), Sig(name, [b], ret)])
    ensures IsBest([Sig(name, [a], ret), Sig(name, [b], ret)], name, [Unknown], 0)
    ensures IsBest([Sig(name, [b], ret), Sig(name, [a], ret)], name, [Unknown], 0)
  {
    EqualEquivalence(a, b, a);
    var f, g := Sig(name, [a], ret), Sig(name, [b], ret);
    assert Score([Unknown], [a], 1) == Score([Unknown], [a], 0) + Points([Unknown][0], [a][0]);
    assert Score([Unknown], [b], 1) == Score([Unknown], [b], 0) + Points([Unknown][0], [b][0]);
    assert Total(f, [Unknown]) == 2 && Total(g, [Unknown]) == 2;
    assert !SameSignature(f, g) by { assert f.params[0] == a && g.params[0] == b; }
  }

  /** No applicable entry scores higher. */
  predicate IsTop(funcs: seq<Sig>, name: string, args: seq<Type>, i: nat)
    ensures IsTop(funcs, name, args, i) ==> i < |funcs|
  {
    && i < |funcs| && Applicable(funcs[i], name, args)
    && forall j :: 0 <= j < |funcs| && Applicable(funcs[j], name, args) ==> Total(funcs[j], args) <= Total(funcs[i], args)
  }

  /** The call gets the same overload from the table in any order. */
  ghost predicate OrderFree(funcs: seq<Sig>, name: string, args: seq<Type>) {
    forall funcs1: seq<Sig>, k: nat, j: nat ::
      multiset(funcs1) == multiset(funcs) && IsBest(funcs, name, args, k) && IsBest(funcs1, name, args, j) ==> funcs[k] == funcs1[j]
  }

  /** All entries of the highest score are the same one. */
  ghost predicate OneTop(funcs: seq<Sig>, name: string, args: seq<Type>) {
    forall i: nat, j: nat :: IsTop(funcs, name, args, i) && IsTop(funcs, name, args, j) ==> funcs[i] == funcs[j]
  }

  /** The first of the top entries. */
  lemma {:induction false} BestExists(funcs: seq<Sig>, name: string, args: seq<Type>, i: nat) returns (k: nat)
    requires IsTop(funcs, name, args, i)
    ensures k <= i && IsBest(funcs, name, args, k)
    decreases i
  {
    if j: nat :| j < i && IsTop(funcs, name, args, j) {
      k := BestExists(funcs, name, args, j);
    } else {
      k := i;
      forall j | 0 <= j < i && Applicable(funcs[j], name, args) ensures Total(funcs[j], args) < Total(funcs[i], args) {
        assert !IsTop(funcs, name, args, j);
      }
    }
  }

  lemma BestIsTop(funcs: seq<Sig>, name: string, args: seq<Type>, k: nat)
    requires IsBest(funcs, name, args, k)
    ensures k < |funcs| && IsTop(funcs, name, args, k)
  {
  }

  /** For any table and any arguments: the order of registration does not matter if and only if
      all entries of the highest score are the same one. */
  lemma OrderFreeIff(funcs: seq<Sig>, name: string, args: seq<Type>)
    ensures OrderFree(funcs, name, args) <==> OneTop(funcs, name, args)
  {
    hide IsTop, IsBest;
    if OneTop(funcs, name, args) {
      forall funcs1: seq<Sig>, k: nat, j: nat
        | multiset(funcs1) == multiset(funcs) && IsBest(funcs, name, args, k) && IsBest(funcs1, name, args, j)
        ensures funcs[k] == funcs1[j]
      {
        BestIsTop(funcs, name, args, k);
        var i := TopMoves(funcs, funcs1, name, args, j);
      }
    } else {
      var i: nat, j: nat :| IsTop(funcs, name, args, i) && IsTop(funcs, name, args, j) && funcs[i] != funcs[j];
      var k := BestExists(funcs, name, args, i);
      SwapWins(funcs, name, args, k, if funcs[i] != funcs[k] then i else j);
    }
  }

  /** What is best in one order is on top in another. */
  lemma TopMoves(funcs: seq<Sig>, funcs1: seq<Sig>, name: string, args: seq<Type>, j: nat) returns (i: nat)
    requires multiset(funcs1) == multiset(funcs) && IsBest(funcs1, name, args, j)
    ensures j < |funcs1| && i < |funcs| && IsTop(funcs, name, args, i) && funcs[i] == funcs1[j]
  {
    assert funcs1[j] in multiset(funcs1);
    assert funcs1[j] in funcs;
    i :| 0 <= i < |funcs| && funcs[i] == funcs1[j];
    forall q | 0 <= q < |funcs| && Applicable(funcs[q], name, args) ensures Total(funcs[q], args) <= Total(funcs[i], args) {
      assert funcs[q] in multiset(funcs);
      assert funcs[q] in funcs1;
    }
  }

  /** Two different entries of the highest score: exchanged, the other one is found first. */
  lemma SwapWins(funcs: seq<Sig>, name: string, args: seq<Type>, k: nat, q: nat)
    requires IsBest(funcs, name, args, k) && IsTop(funcs, name, args, q) && funcs[q] != funcs[k]
    ensures !OrderFree(funcs, name, args)
  {
    var funcs1 := funcs[k := funcs[q]][q := funcs[k]];
    SwappedBest(funcs, name, args, k, q);
    hide IsBest, IsTop, OrderFree;
    SameEntries(funcs, k, q);
    assert funcs1[k] == funcs[q];
    NotFree(funcs, funcs1, name, args, k);
  }

  lemma SameEntries(funcs: seq<Sig>, k: nat, q: nat)
    requires k < q < |funcs|
    ensures multiset(funcs[k := funcs[q]][q := funcs[k]]) == multiset(funcs)
  {
  }

  lemma NotFree(funcs: seq<Sig>, funcs1: seq<Sig>, name: string, args: seq<Type>, k: nat)
    requires multiset(funcs1) == multiset(funcs) && IsBest(funcs, name, args, k) && IsBest(funcs1, name, args, k)
    requires funcs[k] != funcs1[k]
    ensures !OrderFree(funcs, name, args)
  {
    hide IsBest;
  }

  lemma SwappedBest(funcs: seq<Sig>, name: string, args: seq<Type>, k: nat, q: nat)
    requires IsBest(funcs, name, args, k) && IsTop(funcs, name, args, q) && funcs[q] != funcs[k]
    ensures k < q && IsBest(funcs[k := funcs[q]][q := funcs[k]], name, args, k)
  {
    hide Applicable, OrderFree;
    assert k < q;
  }

  /** So it does not matter where a signature equal to the arguments' definite types is found. */
  lemma ExactOrderFree(funcs: seq<Sig>, name: string, args: seq<Type>, k: nat)
    requires Distinct(funcs) && k < |funcs| && funcs[k].name == name && AllEqual(args, funcs[k].params)
    requires forall i :: 0 <= i < |args| ==> Definite(args[i])
    ensures OrderFree(funcs, name, args)
  {
    hide OrderFree, OneTop, Definite, Distinct, AllEqual;
    ExactWins(funcs, name, args, k);
    OnlyTop(funcs, name, args, k);
    OrderFreeIff(funcs, name, args);
  }

  lemma OnlyTop(funcs: seq<Sig>, name: string, args: seq<Type>, k: nat)
    requires IsBest(funcs, name, args, k)
    requires forall j :: 0 <= j < |funcs| && j != k && Applicable(funcs[j], name, args) ==> Total(funcs[j], args) < Total(funcs[k], args)
    ensures OneTop(funcs, name, args)
  {
    forall i: nat | IsTop(funcs, name, args, i) ensures i == k {
      assert Total(funcs[k], args) <= Total(funcs[i], args);
    }
  }

  /** The table as the checker holds it: appended in place, searched with loops. */
  class FuncTable {
    var funcs: seq<Sig>

    constructor ()
      ensures funcs == []
    {
      funcs := [];
    }

    /** A list already registered for the name is not registered again. */
    method Push(f: Sig)
      requires Distinct(funcs)
      modifies this
      ensures funcs == Pushed(old(funcs), f) && Distinct(funcs)
    {
      PushDistinct(funcs, f);
      for i := 0 to |funcs|
        invariant funcs == old(funcs)
        invariant forall k :: 0 <= k < i ==> !SameSignature(funcs[k], f)
      {
        if funcs[i].name == f.name && |funcs[i].params| == |f.params| {
          var equal := true;
          for j := 0 to |f.params|
            invariant equal ==> forall k :: 0 <= k < j ==> TypesEqual(funcs[i].params[k], f.params[k])
          {
            if !TypesEqual(funcs[i].params[j], f.params[j]) {
              equal := false;
              break;
            }
          }
          if equal {
            assert SameSignature(funcs[i], f);
            return;
          }
        }
      }
      funcs := funcs + [f];
    }

    /** The first of the best applicable entries, or none if none is applicable. */
    method LookupBest(name: string, args: seq<Type>) returns (best: Option<nat>)
      ensures best.Some? ==> IsBest(funcs, name, args, best.value)
      ensures best.None? <==> forall j :: 0 <= j < |funcs| ==> !Applicable(funcs[j], name, args)
    {
      best := None;
      var bestScore := -1;
      for i := 0 to |funcs|
        invariant best.None? ==> bestScore == -1 && forall j :: 0 <= j < i ==> !Applicable(funcs[j], name, args)
        invariant best.Some? ==> IsBest(funcs[..i], name, args, best.value) && bestScore == Total(funcs[best.value], args)
      {
        assert funcs[..i + 1] == funcs[..i] + [funcs[i]];
        if funcs[i].name != name || |funcs[i].params| != |args| {
          continue;
        }
        var score, allMatch := 0, true;
        for j := 0 to |args|
          invariant score == Score(args, funcs[i].params, j)
          invariant allMatch <==> forall k :: 0 <= k < j ==> Matches(args[k], funcs[i].params[k])
        {
          var arg, param := args[j], funcs[i].params[j];
          if param.TypeError? || arg.TypeError? {
            score := score + 1;
          } else if param.Unknown? || arg.Unknown? {
            score := score + 2;
          } else if TypesEqual(arg, param) {
            score := score + 3;
          } else if IsCoercible(arg, param) {
            score := score + 1;
          } else {
            allMatch := false;
          }
        }
        if allMatch && score > bestScore {
          bestScore, best := score, Some(i);
        }
      }
      assert funcs[..|funcs|] == funcs;
    }
  }
}
