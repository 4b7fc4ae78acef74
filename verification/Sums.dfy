/** Four loops that add the numbers below `n`: whatever `n` is, each compiled function returns that sum. */

module Sums {
  import opened Int64
  import opened Options
  import opened Syntax
  import opened Values
  import opened Semantics
  import opened Ir
  import opened EmitStmt
  import opened Typing
  import opened Checking
  import opened Compile
  import opened Arithmetic

  /** 0 + 1 + ... + (k - 1) */
  function Total(k: nat): nat { if k == 0 then 0 else Total(k - 1) + k - 1 }

  /** Of the numbers from 0 on, those below `n`. */
  function Below(n: int): nat { if n <= 0 then 0 else Total(n) }

  const ADD := ExprStmt(Assign("s", AddSet, Ident("i")))
  const NEXT := IncDec(true, false, "i")
  const MORE := Binary(Lt, Ident("i"), Ident("n"))
  const START_I := VarDecl(TInt, "i", Some(IntLit(0)))

  datatype Kind = Ranged | Tested | Counted | Entered

  /** `for i in 0..n { s += i }`, `while i < n { s += i; i++ }`,
      `for (int i = 0; ; i++) { if i < n { s += i; continue } break }` and
      `do { if i < n { s += i } i++ } while (i < n)`. */
  function Loop(k: Kind): Stmt {
    match k
    case Ranged => For("i", Range(IntLit(0), Ident("n")), [ADD])
    case Tested => While(MORE, [ADD, ExprStmt(NEXT)])
    case Counted => CFor(Some(START_I), None, Some(NEXT), [If(MORE, [ADD, Continue], NoElse), Break])
    case Entered => DoWhile([If(MORE, [ADD], NoElse), ExprStmt(NEXT)], MORE)
  }

  function Sum(k: Kind): Func {
    Func("sum", Some(TInt), [Param("n", TInt)],
         [VarDecl(TInt, "s", Some(IntLit(0)))] + (if k.Tested? || k.Entered? then [START_I] else []) + [Loop(k), Return(Some(Ident("s")))])
  }

  function Slot(v: i64): Cell { Cell(TInt, Some(IntV(v))) }

  const ENV: Env := map["n" := 0, "s" := 1, "i" := 2]

  function Cells(n: i64, s: i64, i: i64): Mem { [Slot(n), Slot(s), Slot(i)] }

  lemma AddRuns(n: i64, s: i64, i: i64, loop: bool, fuel: nat)
    ensures ExecStmt(ADD, ENV, Cells(n, s, i), loop, fuel) == SOk(Normal, ENV, Cells(n, Wrap(s + i), i))
  {
    hide Wrap;
    var m := Cells(n, s, i);
    assert Eval(Ident("i"), ENV, m) == EOk(IntV(i), m);
    assert Write(m, 1, IntV(Wrap(s + i))) == Cells(n, Wrap(s + i), i);
  }

  lemma NextRuns(n: i64, s: i64, i: i64)
    requires i < 0x7fff_ffff_ffff_ffff
    ensures Eval(NEXT, ENV, Cells(n, s, i)) == EOk(IntV(i), Cells(n, s, i + 1))
  {
    var m := Cells(n, s, i);
    assert Wrap(i + 1) == i + 1;
    assert Write(m, 2, IntV(i + 1)) == Cells(n, s, i + 1);
  }

  lemma MoreRuns(n: i64, s: i64, i: i64)
    ensures Eval(MORE, ENV, Cells(n, s, i)) == EOk(BoolV(i < n), Cells(n, s, i))
  {
    var m := Cells(n, s, i);
    assert Eval(Ident("i"), ENV, m) == EOk(IntV(i), m) && Eval(Ident("n"), ENV, m) == EOk(IntV(n), m);
  }

  lemma Two(a: Stmt, b: Stmt, env: Env, m: Mem, m1: Mem, loop: bool, fuel: nat)
    requires ExecStmt(a, env, m, loop, fuel) == SOk(Normal, env, m1)
    ensures ExecSeq([a, b], env, m, loop, fuel) == ExecStmt(b, env, m1, loop, fuel)
  {
    hide ExecStmt;
    assert [a, b][1..] == [b];
    One(b, env, m1, loop, fuel);
  }

  lemma One(a: Stmt, env: Env, m: Mem, loop: bool, fuel: nat)
    ensures ExecSeq([a], env, m, loop, fuel) == ExecStmt(a, env, m, loop, fuel)
  {
    hide ExecStmt;
    assert [a][1..] == [];
  }

  /** The loop from where `i` is. */
  function Going(k: Kind, m: Mem, fuel: nat): SResult {
    match k
    case Ranged => if |m| == 0 || m[0].val.None? then SWrong else ExecFor(2, m[0].val.value, [ADD], ENV, m, fuel)
    case Tested => ExecWhile(MORE, Loop(Tested).body, ENV, m, fuel)
    case Counted => ExecCFor(None, Some(NEXT), Loop(Counted).body, ENV, m, fuel)
    case Entered => ExecDoWhile(Loop(Entered).body, MORE, ENV, m, fuel)
  }

  lemma OnceRanged(n: i64, s: i64, i: i64, fuel: nat)
    requires fuel > 1 && i < n
    ensures Going(Ranged, Cells(n, s, i), fuel) == Going(Ranged, Cells(n, Wrap(s + i), i + 1), fuel - 1)
  {
    var s1 := Wrap(s + i);
    AddRuns(n, s, i, true, fuel - 1);
    One(ADD, ENV, Cells(n, s, i), true, fuel - 1);
    hide Wrap, ExecSeq, ExecStmt;
    assert Increment(Cells(n, s1, i), 2) == EOk(IntV(i + 1), Cells(n, s1, i + 1)) by { IncrementRuns(n, s1, i); }
    hide Increment;
  }

  lemma IncrementRuns(n: i64, s: i64, i: i64)
    requires i < 0x7fff_ffff_ffff_ffff
    ensures Increment(Cells(n, s, i), 2) == EOk(IntV(i + 1), Cells(n, s, i + 1))
  {
    assert Wrap(i + 1) == i + 1;
    assert Write(Cells(n, s, i), 2, IntV(i + 1)) == Cells(n, s, i + 1);
  }

  lemma OnceTested(n: i64, s: i64, i: i64, fuel: nat)
    requires fuel > 1 && i < n
    ensures Going(Tested, Cells(n, s, i), fuel) == Going(Tested, Cells(n, Wrap(s + i), i + 1), fuel - 1)
  {
    var m, m1, m2 := Cells(n, s, i), Cells(n, Wrap(s + i), i), Cells(n, Wrap(s + i), i + 1);
    MoreRuns(n, s, i);
    AddRuns(n, s, i, true, fuel - 1);
    NextRuns(n, Wrap(s + i), i);
    assert ExecStmt(ExprStmt(NEXT), ENV, m1, true, fuel - 1) == SOk(Normal, ENV, m2);
    Two(ADD, ExprStmt(NEXT), ENV, m, m1, true, fuel - 1);
    hide Wrap, ExecSeq, ExecStmt, Eval;
  }

  /** `if i < n { ... }` */
  lemma GuardRuns(ss: seq<Stmt>, n: i64, s: i64, i: i64, fuel: nat)
    ensures ExecStmt(If(MORE, ss, NoElse), ENV, Cells(n, s, i), true, fuel) ==
      if i < n then Leave(ExecSeq(ss, ENV, Cells(n, s, i), true, fuel), ENV) else SOk(Normal, ENV, Cells(n, s, i))
  {
    MoreRuns(n, s, i);
    hide Eval, ExecSeq;
  }

  lemma CountedBody(n: i64, s: i64, i: i64, fuel: nat)
    ensures ExecSeq(Loop(Counted).body, ENV, Cells(n, s, i), true, fuel) ==
      if i < n then SOk(Continued, ENV, Cells(n, Wrap(s + i), i)) else SOk(Broke, ENV, Cells(n, s, i))
  {
    var m, m1 := Cells(n, s, i), Cells(n, Wrap(s + i), i);
    var guard := If(MORE, [ADD, Continue], NoElse);
    GuardRuns([ADD, Continue], n, s, i, fuel);
    AddRuns(n, s, i, true, fuel);
    assert ExecStmt(Continue, ENV, m1, true, fuel) == SOk(Continued, ENV, m1);
    Two(ADD, Continue, ENV, m, m1, true, fuel);
    assert ExecStmt(Break, ENV, m, true, fuel) == SOk(Broke, ENV, m);
    if i >= n { Two(guard, Break, ENV, m, m, true, fuel); }
    hide ExecStmt, Eval, Wrap;
    assert [guard, Break][1..] == [Break];
  }

  lemma OnceCounted(n: i64, s: i64, i: i64, fuel: nat)
    requires fuel > 1 && i < n
    ensures Going(Counted, Cells(n, s, i), fuel) == Going(Counted, Cells(n, Wrap(s + i), i + 1), fuel - 1)
  {
    CountedBody(n, s, i, fuel - 1);
    NextRuns(n, Wrap(s + i), i);
    hide Wrap, ExecSeq, Eval;
  }

  lemma EnteredBody(n: i64, s: i64, i: i64, fuel: nat)
    requires i < 0x7fff_ffff_ffff_ffff
    ensures ExecSeq(Loop(Entered).body, ENV, Cells(n, s, i), true, fuel) ==
      SOk(Normal, ENV, Cells(n, if i < n then Wrap(s + i) else s, i + 1))
  {
    var m := Cells(n, s, i);
    var s1 := if i < n then Wrap(s + i) else s;
    var m1 := Cells(n, s1, i);
    GuardRuns([ADD], n, s, i, fuel);
    AddRuns(n, s, i, true, fuel);
    One(ADD, ENV, m, true, fuel);
    NextRuns(n, s1, i);
    assert ExecStmt(ExprStmt(NEXT), ENV, m1, true, fuel) == SOk(Normal, ENV, Cells(n, s1, i + 1));
    hide ExecStmt, Eval, Wrap;
    Two(If(MORE, [ADD], NoElse), ExprStmt(NEXT), ENV, m, m1, true, fuel);
  }

  lemma OnceEntered(n: i64, s: i64, i: i64, fuel: nat)
    requires fuel > 1 && i < n
    ensures var m1 := Cells(n, Wrap(s + i), i + 1);
      Going(Entered, Cells(n, s, i), fuel) == if i + 1 < n then Going(Entered, m1, fuel - 1) else SOk(Normal, ENV, m1)
  {
    EnteredBody(n, s, i, fuel - 1);
    MoreRuns(n, Wrap(s + i), i + 1);
    hide Wrap, ExecSeq, Eval;
  }

  /** At the end, or with nothing to add. */
  lemma Ends(k: Kind, n: i64, s: i64, i: i64, fuel: nat)
    requires fuel > 1 && i >= n && (k.Entered? ==> i < 0x7fff_ffff_ffff_ffff)
    ensures Going(k, Cells(n, s, i), fuel) == SOk(Normal, ENV, Cells(n, s, if k.Entered? then i + 1 else i))
  {
    match k
    case Ranged => hide ExecSeq, Increment;
    case Tested => MoreRuns(n, s, i); hide ExecSeq, Eval;
    case Counted => CountedBody(n, s, i, fuel - 1); hide ExecSeq, Eval;
    case Entered => EnteredBody(n, s, i, fuel - 1); MoreRuns(n, s, i + 1); hide ExecSeq, Eval;
  }

  lemma Once(k: Kind, n: i64, s: i64, i: i64, fuel: nat)
    requires fuel > 1 && i < n
    ensures var m1 := Cells(n, Wrap(s + i), i + 1);
      Going(k, Cells(n, s, i), fuel) == if k.Entered? && i + 1 >= n then SOk(Normal, ENV, m1) else Going(k, m1, fuel - 1)
  {
    hide Going, Wrap;
    match k
    case Ranged => OnceRanged(n, s, i, fuel);
    case Tested => OnceTested(n, s, i, fuel);
    case Counted => OnceCounted(n, s, i, fuel);
    case Entered => OnceEntered(n, s, i, fuel);
  }

  lemma {:induction false} LoopSum(k: Kind, n: i64, s: i64, i: i64, fuel: nat) returns (s1: i64, i1: i64)
    requires 0 <= i && (i <= n || i == 0) && (k.Entered? ==> i == 0 || i < n) && fuel > 1 && fuel > n - i + 1
    ensures Going(k, Cells(n, s, i), fuel) == SOk(Normal, ENV, Cells(n, s1, i1))
    ensures Congruent(s1, s + Below(n) - Total(i))
    decreases n - i
  {
    hide Going, Cells;
    if i >= n {
      Ends(k, n, s, i, fuel);
      s1, i1 := s, if k.Entered? then i + 1 else i;
    } else {
      Once(k, n, s, i, fuel);
      WrapCongruent(s + i, Wrap(s + i));
      assert Total(i + 1) == Total(i) + i;
      if k.Entered? && i + 1 >= n {
        s1, i1 := Wrap(s + i), i + 1;
      } else {
        s1, i1 := LoopSum(k, n, Wrap(s + i), i + 1, fuel - 1);
      }
      CongruentTrans(s1, Wrap(s + i) + Below(n) - Total(i + 1), s + Below(n) - Total(i), Wrap(s + i), s + i);
    }
  }

  lemma CongruentTrans(a: int, b: int, c: int, d: int, e: int)
    requires Congruent(a, b) && Congruent(d, e) && b - c == d - e
    ensures Congruent(a, c)
  {
  }

  const BEFORE: Env := map["n" := 0, "s" := 1]

  lemma Declared(n: i64, fuel: nat)
    ensures ExecStmt(VarDecl(TInt, "s", Some(IntLit(0))), map["n" := 0], [Slot(n)], false, fuel) == SOk(Normal, BEFORE, [Slot(n), Slot(0)])
    ensures forall loop :: ExecStmt(START_I, BEFORE, [Slot(n), Slot(0)], loop, fuel) == SOk(Normal, ENV, Cells(n, 0, 0))
  {
    var env0: Env := map["n" := 0];
    assert env0["s" := 1] == BEFORE && BEFORE["i" := 2] == ENV;
    var m1: Mem := [Slot(n)] + [Cell(TInt, None)];
    assert Write(m1, 1, IntV(0)) == [Slot(n), Slot(0)];
    var m2: Mem := [Slot(n), Slot(0)] + [Cell(TInt, None)];
    assert Write(m2, 2, IntV(0)) == Cells(n, 0, 0);
  }

  /** The loop from its start, with `i` declared in it or in front of it. */
  lemma LoopRuns(k: Kind, n: i64, fuel: nat) returns (s1: i64, m1: Mem)
    requires fuel > 1 && fuel > n + 1
    ensures var own := k.Ranged? || k.Counted?;
      ExecStmt(Loop(k), if own then BEFORE else ENV, if own then [Slot(n), Slot(0)] else Cells(n, 0, 0), false, fuel)
        == SOk(Normal, if own then BEFORE else ENV, m1)
    ensures |m1| == 3 && m1[1] == Slot(s1) && Congruent(s1, Below(n))
  {
    var i1;
    s1, i1 := LoopSum(k, n, 0, 0, fuel);
    m1 := Cells(n, s1, i1);
    Declared(n, fuel);
    assert Total(0) == 0;
    match k
    case Ranged => RangedStart(n, fuel);
    case Tested =>
    case Counted => CountedStart(n, fuel);
    case Entered =>
  }

  lemma RangedStart(n: i64, fuel: nat)
    ensures ExecStmt(Loop(Ranged), BEFORE, [Slot(n), Slot(0)], false, fuel) == Leave(Going(Ranged, Cells(n, 0, 0), fuel), BEFORE)
  {
    var m: Mem := [Slot(n), Slot(0)];
    assert Eval(Ident("n"), BEFORE, m) == EOk(IntV(n), m) && Eval(IntLit(0), BEFORE, m) == EOk(IntV(0), m);
    assert BEFORE["i" := 2] == ENV && m + [Slot(0)] == Cells(n, 0, 0);
    hide ExecFor;
  }

  lemma CountedStart(n: i64, fuel: nat)
    ensures ExecStmt(Loop(Counted), BEFORE, [Slot(n), Slot(0)], false, fuel) == Leave(Going(Counted, Cells(n, 0, 0), fuel), BEFORE)
  {
    Declared(n, fuel);
    hide ExecCFor;
  }

  lemma Then(a: Stmt, rest: seq<Stmt>, env: Env, m: Mem, env1: Env, m1: Mem, fuel: nat)
    requires ExecStmt(a, env, m, false, fuel) == SOk(Normal, env1, m1)
    ensures ExecSeq([a] + rest, env, m, false, fuel) == ExecSeq(rest, env1, m1, false, fuel)
  {
    hide ExecStmt;
    assert ([a] + rest)[1..] == rest;
  }

  lemma ReturnRuns(env: Env, m: Mem, s1: i64, fuel: nat)
    requires "s" in env && env["s"] == 1 && |m| == 3 && m[1] == Slot(s1)
    ensures ExecSeq([Return(Some(Ident("s")))], env, m, false, fuel) == SOk(Returned(Some(IntV(s1))), env, m)
  {
    One(Return(Some(Ident("s"))), env, m, false, fuel);
  }

  /** Called with `n`, each returns the sum of the numbers below `n`, up to wrap-around. */
  lemma SumCall(k: Kind, n: i64, fuel: nat) returns (s1: i64, m1: Mem)
    requires fuel > 1 && fuel > n + 1
    ensures Call(Sum(k), [IntV(n)], map[], [], fuel) == FRet(Some(IntV(s1)), m1) && Congruent(s1, Below(n))
  {
    s1, m1 := LoopRuns(k, n, fuel);
    var own := k.Ranged? || k.Counted?;
    var first, last := VarDecl(TInt, "s", Some(IntLit(0))), Return(Some(Ident("s")));
    var env0: Env, m0: Mem := map["n" := 0], [Slot(n)];
    var env := if own then BEFORE else ENV;
    var m := if own then [Slot(n), Slot(0)] else Cells(n, 0, 0);
    Declared(n, fuel);
    ReturnRuns(env, m1, s1, fuel);
    hide ExecStmt, Loop, Cells, Congruent;
    Then(Loop(k), [last], env, m, env, m1, fuel);
    assert [Loop(k)] + [last] == [Loop(k), last];
    if own {
      Then(first, [Loop(k), last], env0, m0, BEFORE, [Slot(n), Slot(0)], fuel);
      assert Sum(k).body == [first] + [Loop(k), last];
    } else {
      Then(START_I, [Loop(k), last], BEFORE, [Slot(n), Slot(0)], ENV, Cells(n, 0, 0), fuel);
      Then(first, [START_I] + [Loop(k), last], env0, m0, BEFORE, [Slot(n), Slot(0)], fuel);
      assert Sum(k).body == [first] + ([START_I] + [Loop(k), last]);
    }
    BoundN(n, Sum(k));
    hide ExecSeq, Bind;
  }

  lemma BoundN(n: i64, f: Func)
    requires f.params == [Param("n", TInt)]
    ensures Bind(f.params, [IntV(n)], map[], []) == (map["n" := 0], [Slot(n)])
  {
    var env0: Env, m0: Mem := map[], [];
    assert f.params[1..] == [] && [IntV(n)][1..] == [];
    assert m0 + [Slot(n)] == [Slot(n)] && env0["n" := 0] == map["n" := 0];
  }

  const INSIDE: Ctx := map["n" := TInt, "s" := TInt, "i" := TInt]
  const OUTSIDE: Ctx := map["n" := TInt, "s" := TInt]

  lemma PiecesTyped()
    ensures Type(MORE, INSIDE) == Some(TBool) && Type(NEXT, INSIDE) == Some(TInt) && Type(ADD.e, INSIDE) == Some(TInt)
    ensures Type(Ident("n"), OUTSIDE) == Some(TInt) && Type(IntLit(0), OUTSIDE) == Some(TInt)
  {
    assert Type(Ident("i"), INSIDE) == Some(TInt) && Type(Ident("n"), INSIDE) == Some(TInt);
  }

  lemma CheckOne(s: Stmt, c: Ctx)
    ensures CheckSeq([s], c, Some(TInt)) == CheckStmt(s, c, Some(TInt))
  {
    hide CheckStmt;
    assert [s][1..] == [];
  }

  lemma CheckMore(s: Stmt, ss: seq<Stmt>, c: Ctx, c1: Ctx)
    requires CheckStmt(s, c, Some(TInt)) == Some(c1)
    ensures CheckSeq([s] + ss, c, Some(TInt)) == CheckSeq(ss, c1, Some(TInt))
  {
    hide CheckStmt;
    assert ([s] + ss)[1..] == ss;
  }

  lemma GuardChecked(ss: seq<Stmt>)
    requires CheckSeq(ss, INSIDE, Some(TInt)).Some?
    ensures CheckStmt(If(MORE, ss, NoElse), INSIDE, Some(TInt)) == Some(INSIDE)
  {
    PiecesTyped();
    hide Type, CheckSeq;
  }

  /** Two statements that declare nothing. */
  lemma CheckTwo(a: Stmt, b: Stmt)
    requires CheckStmt(a, INSIDE, Some(TInt)) == Some(INSIDE) && CheckStmt(b, INSIDE, Some(TInt)) == Some(INSIDE)
    ensures CheckSeq([a, b], INSIDE, Some(TInt)) == Some(INSIDE)
  {
    hide CheckStmt;
    CheckOne(b, INSIDE);
    CheckMore(a, [b], INSIDE, INSIDE);
    assert [a] + [b] == [a, b];
  }

  lemma PiecesChecked()
    ensures CheckStmt(ADD, INSIDE, Some(TInt)) == Some(INSIDE) && CheckStmt(ExprStmt(NEXT), INSIDE, Some(TInt)) == Some(INSIDE)
    ensures CheckStmt(Break, INSIDE, Some(TInt)) == Some(INSIDE) && CheckStmt(Continue, INSIDE, Some(TInt)) == Some(INSIDE)
    ensures CheckStmt(START_I, OUTSIDE, Some(TInt)) == Some(INSIDE) && OUTSIDE["i" := TInt] == INSIDE
  {
    PiecesTyped();
  }

  lemma BodyChecked(k: Kind)
    ensures CheckSeq(Loop(k).body, INSIDE, Some(TInt)) == Some(INSIDE)
  {
    PiecesChecked();
    hide CheckSeq, CheckStmt, ADD, NEXT, MORE;
    match k
    case Ranged => CheckOne(ADD, INSIDE);
    case Tested => CheckTwo(ADD, ExprStmt(NEXT));
    case Counted =>
      CheckTwo(ADD, Continue);
      GuardChecked([ADD, Continue]);
      CheckTwo(If(MORE, [ADD, Continue], NoElse), Break);
    case Entered =>
      CheckOne(ADD, INSIDE);
      GuardChecked([ADD]);
      CheckTwo(If(MORE, [ADD], NoElse), ExprStmt(NEXT));
  }

  lemma LoopChecked(k: Kind)
    ensures var c := if k.Ranged? || k.Counted? then OUTSIDE else INSIDE; CheckStmt(Loop(k), c, Some(TInt)) == Some(c)
  {
    PiecesTyped();
    PiecesChecked();
    BodyChecked(k);
    hide CheckSeq, NEXT, MORE, ADD, Type;
  }

  const FIRST := VarDecl(TInt, "s", Some(IntLit(0)))
  const LAST := Return(Some(Ident("s")))

  lemma EndsChecked()
    ensures CheckStmt(FIRST, map["n" := TInt], Some(TInt)) == Some(OUTSIDE)
    ensures CheckStmt(LAST, OUTSIDE, Some(TInt)) == Some(OUTSIDE) && CheckStmt(LAST, INSIDE, Some(TInt)) == Some(INSIDE)
  {
    var c0: Ctx := map["n" := TInt];
    assert c0["s" := TInt] == OUTSIDE;
  }

  lemma SumChecked(k: Kind)
    ensures CheckFunc(Sum(k), map[])
  {
    var own := k.Ranged? || k.Counted?;
    var c0: Ctx, c := map["n" := TInt], if own then OUTSIDE else INSIDE;
    assert Checking.WithParams(map[], Sum(k).params) == c0 by { assert Sum(k).params[1..] == []; }
    assert Sum(k).body == [FIRST] + (if own then [Loop(k), LAST] else [START_I] + [Loop(k), LAST]);
    LoopChecked(k);
    EndsChecked();
    PiecesChecked();
    hide CheckStmt, CheckSeq, Loop, START_I, FIRST, LAST;
    CheckOne(LAST, c);
    CheckMore(Loop(k), [LAST], c, c);
    assert [Loop(k)] + [LAST] == [Loop(k), LAST];
    if own {
      CheckMore(FIRST, [Loop(k), LAST], c0, OUTSIDE);
    } else {
      CheckMore(START_I, [Loop(k), LAST], OUTSIDE, INSIDE);
      CheckMore(FIRST, [START_I] + [Loop(k), LAST], c0, OUTSIDE);
    }
  }

  /** Compiled, each of the four loops gives the same number: the sum, and nothing else. */
  lemma CompiledSum(k: Kind, n: i64, v: Val)
    ensures Gives(Sum(k), [IntV(n)], v) <==> v.IntV? && Congruent(v.n, Below(n))
  {
    var f, args := Sum(k), [IntV(n)];
    var s1, m1 := SumCall(k, n, if n < 0 then 2 else n + 2);
    SumChecked(k);
    assert ArgsFit(args, f.params) && Globals([], map[], map[]) && Typed(map[], map[], []);
    hide Call, Sum, CheckFunc, Typed, Globals, ArgsFit, Start, GenFunc, Reaches, Below;
    ReturnsIff(f, [], map[], map[], args, [], Some(IntV(s1)), m1);
    OneResult(f, args, IntV(s1), m1);
    if v.IntV? && Congruent(v.n, Below(n)) {
      SameResidue(v.n, s1, Below(n));
    }
  }

  lemma SameResidue(a: i64, b: i64, x: int)
    requires Congruent(a, x) && Congruent(b, x)
    ensures a == b
  {
  }

  lemma OneResult(f: Func, args: seq<Val>, v: Val, m: Mem)
    requires Reaches(GenFunc(f, []).blocks, Start(args, []), Done(Some(v), m))
    ensures forall w :: Gives(f, args, w) <==> w == v
  {
    hide GenFunc, Start;
    var code, k := GenFunc(f, []).blocks, Start(args, []);
    var n: nat :| StepN(code, k, n) == Done(Some(v), m);
    forall w | Gives(f, args, w) ensures w == v {
      var m1: Mem :| Reaches(code, k, Done(Some(w), m1));
      var n1: nat :| StepN(code, k, n1) == Done(Some(w), m1);
      SameEnd(code, k, n, n1);
    }
  }
}
