/** Which programs the exactness of reference counts is proved for, statement by statement wherever it
    stands, with the simplest summary there is: no literal is lent, and every function may assign every
    global that is assigned at all. */

module ArcFragment {
  import opened Options
  import opened Int64
  import opened Arc
  import opened ArcCode
  import opened ArcExact
  import opened ArcLaws

  /** All statements, those in branches and loops included. */
  function Nested(ss: seq<Stmt>): seq<Stmt>
    decreases ss, 1
  {
    if ss == [] then [] else [ss[0]] + Inside(ss[0]) + Nested(ss[1..])
  }

  function Inside(s: Stmt): seq<Stmt>
    decreases s, 0
  {
    match s
    case If(thn, els) => Nested(thn) + Nested(els)
    case Loop(body) => Nested(body)
    case _ => []
  }

  /** Globals assigned in some statements. */
  function Written(ss: seq<Stmt>): set<nat> {
    set s | s in ss && s.Assign? && s.v.Global? :: s.v.i
  }

  function AllWritten(prog: seq<Fun>): set<nat> {
    if prog == [] then {} else Written(Nested(prog[0].body)) + AllWritten(prog[1..])
  }

  /** The program with that summary for each function. */
  function Summarised(prog: seq<Fun>): (r: seq<Fun>)
    ensures |r| == |prog|
  {
    seq(|prog|, i requires 0 <= i < |prog| => prog[i].(bound := Bound(AllWritten(prog), {})))
  }

  /** An f-string of two parts or more, or of one number. */
  predicate Makes(parts: seq<Part>) { |parts| >= 2 || (|parts| == 1 && (parts[0].PInt? || parts[0].PBool?)) }

  /** What may be lent to a function that is known: a local, a parameter, a global that is never
      assigned, or an f-string that makes an object. */
  predicate ArgTame(a: Arg, known: bool, written: set<nat>) {
    match a
    case ALiteral(_) => !known
    case AVar(Global(g)) => known ==> g !in written
    case AVar(_) => true
    case AFString(parts) => Makes(parts)
  }

  predicate CallTame(f: nat, args: seq<Arg>, prog: seq<Fun>, written: set<nat>) {
    forall j :: 0 <= j < |args| ==> ArgTame(args[j], f < |prog|, written)
  }

  /** A literal, a concatenation, an f-string that makes an object, or a call; not a variable. */
  predicate RhsTame(rhs: Rhs, prog: seq<Fun>, written: set<nat>) {
    match rhs
    case Literal(_) => true
    case Copy(_) => false
    case Join(_, _) => true
    case FString(parts) => Makes(parts)
    case CallString(f, args) => CallTame(f, args, prog, written)
  }

  /** Strings stored are of their own, results that are strings are not dropped, a literal is not
      returned as it is and a local not by name, and a `return` has a value. */
  predicate Tame(s: Stmt, prog: seq<Fun>, written: set<nat>) {
    match s
    case Declare(rhs) => RhsTame(rhs, prog, written)
    case Assign(_, rhs) => RhsTame(rhs, prog, written)
    case Do(f, args) => CallTame(f, args, prog, written) && (f < |prog| ==> !prog[f].owning)
    case Return(ROwned(rhs)) => RhsTame(rhs, prog, written) && !rhs.Literal?
    case Return(RVar(v)) => !v.Local?
    case Return(RBare) => false
    case _ => true
  }

  /** Strings are declared outside branches and loops. */
  predicate TopDeclared(ss: seq<Stmt>) {
    forall i :: 0 <= i < |ss| ==> forall s :: s in Inside(ss[i]) ==> !s.Declare?
  }

  predicate AllTame(ss: seq<Stmt>, prog: seq<Fun>, written: set<nat>) {
    forall s :: s in ss ==> Tame(s, prog, written)
  }

  lemma MakesIff(parts: seq<Part>)
    ensures Makes(parts) <==> Owns(parts)
  {
    if |parts| == 1 { assert parts == [parts[0]]; }
  }

  lemma ArgIff(a: Arg, j: nat, written: set<nat>, f: nat, prog: seq<Fun>)
    ensures ArgTame(a, f < |prog|, written) <==>
      (f < |prog| ==> ArgPasses(a, j, Bound(written, {}), Bound(written, {}))) && (a.AFString? ==> OwnsArg(a))
  {
    if a.AFString? { MakesIff(a.parts); }
  }

  lemma CallIff(f: nat, args: seq<Arg>, prog: seq<Fun>, written: set<nat>)
    requires f < |prog| ==> prog[f].bound == Bound(written, {})
    ensures CallOk(f, args, Bound(written, {}), prog) <==> CallTame(f, args, prog, written)
  {
    forall j | 0 <= j < |args|
      ensures ArgTame(args[j], f < |prog|, written) <==>
        (f < |prog| ==> ArgPasses(args[j], j, Bound(written, {}), Bound(written, {}))) && (args[j].AFString? ==> OwnsArg(args[j]))
    {
      ArgIff(args[j], j, written, f, prog);
    }
    hide ArgTame, ArgPasses, OwnsArg;
  }

  /** `prog` has the summary everywhere. */
  predicate Uniform(prog: seq<Fun>, written: set<nat>) { forall i :: 0 <= i < |prog| ==> prog[i].bound == Bound(written, {}) }

  lemma RhsIff(rhs: Rhs, prog: seq<Fun>, written: set<nat>)
    requires Uniform(prog, written)
    ensures RhsOk(rhs, Bound(written, {}), prog) <==> RhsTame(rhs, prog, written)
  {
    match rhs
    case FString(parts) => MakesIff(parts);
    case CallString(f, args) => CallIff(f, args, prog, written);
    case _ =>
  }

  lemma {:induction false} StmtIff(s: Stmt, prog: seq<Fun>, written: set<nat>)
    requires Uniform(prog, written) && (s.Assign? && s.v.Global? ==> s.v.i in written)
    requires Written(Inside(s)) <= written
    ensures StmtOk(s, Bound(written, {}), prog) <==> Tame(s, prog, written) && AllTame(Inside(s), prog, written)
    decreases s, 0
  {
    hide RhsOk, RhsTame, CallOk, CallTame, Written;
    match s
    case Declare(rhs) => RhsIff(rhs, prog, written);
    case Assign(_, rhs) => RhsIff(rhs, prog, written);
    case Do(f, args) => CallIff(f, args, prog, written);
    case If(thn, els) =>
      WrittenCat(Nested(thn), Nested(els));
      SeqIff(thn, prog, written);
      SeqIff(els, prog, written);
    case Loop(body) => SeqIff(body, prog, written);
    case Return(ROwned(rhs)) => RhsIff(rhs, prog, written);
    case _ =>
  }

  lemma WrittenCat(a: seq<Stmt>, b: seq<Stmt>)
    ensures Written(a + b) == Written(a) + Written(b)
  {
    forall s ensures s in a + b <==> s in a || s in b {}
  }

  lemma {:induction false} SeqIff(ss: seq<Stmt>, prog: seq<Fun>, written: set<nat>)
    requires Uniform(prog, written) && Written(Nested(ss)) <= written
    ensures AllOk(ss, Bound(written, {}), prog) <==> AllTame(Nested(ss), prog, written)
    decreases ss, 1
  {
    if ss != [] {
      var s, more := ss[0], Nested(ss[1..]);
      WrittenCat([s] + Inside(s), more);
      WrittenCat([s], Inside(s));
      assert s.Assign? && s.v.Global? ==> s.v.i in Written([s]) by { assert s in [s]; }
      hide Written, StmtOk, Tame;
      StmtIff(s, prog, written);
      SeqIff(ss[1..], prog, written);
      assert forall i :: 0 < i < |ss| ==> ss[i] == ss[1..][i - 1];
      forall t ensures t in Nested(ss) <==> t == s || t in Inside(s) || t in more {}
    }
  }

  lemma {:induction false} DeepIff(ss: seq<Stmt>)
    ensures AllShallow(ss, false) <==> forall s :: s in Nested(ss) ==> !s.Declare?
    decreases ss, 1
  {
    if ss != [] {
      var s, more := ss[0], Nested(ss[1..]);
      DeepIff1(s, false);
      DeepIff(ss[1..]);
      assert forall i :: 0 < i < |ss| ==> ss[i] == ss[1..][i - 1];
      hide Shallow;
      forall t ensures t in Nested(ss) <==> t == s || t in Inside(s) || t in more {}
      assert AllShallow(ss, false) <==> Shallow(s, false) && AllShallow(ss[1..], false);
    }
  }

  lemma {:induction false} DeepIff1(s: Stmt, top: bool)
    ensures Shallow(s, top) <==> (s.Declare? ==> top) && forall t :: t in Inside(s) ==> !t.Declare?
    decreases s, 0
  {
    match s
    case If(thn, els) => DeepIff(thn); DeepIff(els);
    case Loop(body) => DeepIff(body);
    case _ =>
  }

  lemma TopIff(ss: seq<Stmt>)
    ensures AllShallow(ss, true) <==> TopDeclared(ss)
  {
    forall i | 0 <= i < |ss| ensures Shallow(ss[i], true) <==> forall s :: s in Inside(ss[i]) ==> !s.Declare? {
      DeepIff1(ss[i], true);
    }
    hide Shallow, Inside;
  }

  lemma {:induction false} WrittenIn(prog: seq<Fun>, i: nat)
    requires i < |prog|
    ensures Written(Nested(prog[i].body)) <= AllWritten(prog)
    decreases |prog|
  {
    hide Written;
    if i > 0 {
      assert prog[1..][i - 1] == prog[i];
      WrittenIn(prog[1..], i - 1);
    }
  }

  /** A program is of the fragment, with that summary, if and only if every statement of it is tame and
      strings are declared at the top of functions. */
  lemma ProgramIff(prog: seq<Fun>)
    ensures ProgramOk(Summarised(prog)) <==>
      forall i :: 0 <= i < |prog| ==> TopDeclared(prog[i].body) && AllTame(Nested(prog[i].body), prog, AllWritten(prog))
  {
    var prog1, written := Summarised(prog), AllWritten(prog);
    forall i | 0 <= i < |prog|
      ensures SeqOk(prog1[i].body, true, prog1[i].bound, prog1) <==>
        TopDeclared(prog[i].body) && AllTame(Nested(prog[i].body), prog, written)
    {
      WrittenIn(prog, i);
      TopIff(prog[i].body);
      SeqIff(prog[i].body, prog1, written);
      SameTame(Nested(prog[i].body), prog, prog1, written);
    }
    hide SeqOk, TopDeclared, AllTame;
  }

  /** Summaries have no part in it. */
  lemma SameTame(ss: seq<Stmt>, prog: seq<Fun>, prog1: seq<Fun>, written: set<nat>)
    requires |prog1| == |prog| && forall i :: 0 <= i < |prog| ==> prog1[i].owning == prog[i].owning
    ensures AllTame(ss, prog1, written) <==> AllTame(ss, prog, written)
  {
    forall s ensures Tame(s, prog1, written) <==> Tame(s, prog, written) {
      if s.Do? { assert CallTame(s.f, s.args, prog1, written) <==> CallTame(s.f, s.args, prog, written); }
    }
  }

  /** So every run of a program of tame statements leaves what its globals hold and nothing else. */
  lemma TameExact(prog: seq<Fun>, main: nat, globals: nat, tape: Tape, fuel: nat)
    requires forall i :: 0 <= i < |prog| ==> TopDeclared(prog[i].body) && AllTame(Nested(prog[i].body), prog, AllWritten(prog))
    requires main < |prog| && prog[main].params == 0 && !prog[main].owning
    ensures var prog1 := Summarised(prog);
      var r := Invoke(prog1[main], [], Src([], seq(globals, i => None), 0), tape, prog1, fuel);
      var r1 := Enter(EmitFun(prog1[main]), [], AtStart(globals), tape, EmitProgram(prog1), fuel);
      r.Ok? ==>
        && r1.Ok? && GlobalsShow(r.value.1.globals, r1.value.1)
        && forall o: nat :: o in r1.value.1.heap.objects <==> Count(r1.value.1.globals, o) > 0
  {
    ProgramIff(prog);
    hide TopDeclared, AllTame, Nested, AllWritten, Invoke, Enter, EmitFun, EmitProgram, SeqOk;
    ProgramExact(Summarised(prog)[main], globals, tape, Summarised(prog), fuel);
  }
}
