/** What the operators compute, said in numbers alone: without `Quot`, `Rem`, `Wrap`, `Write` or
    `Zero`, which the meaning and the machine share. */

module Arithmetic {
  import opened Int64
  import opened Options
  import opened Syntax
  import opened Values
  import opened Semantics
  import opened Ir
  import opened Emit
  import opened EmitStmt
  import opened Typing
  import opened Checking
  import opened Compile

  const TWO_TO_64: int := 18446744073709551616

  predicate Congruent(x: int, y: int) { (x - y) % TWO_TO_64 == 0 }

  /** Division as in C: rounding toward zero, the remainder with the sign of the dividend. */
  predicate Truncates(a: int, b: int, q: int, r: int) {
    && b != 0 && a == q * b + r
    && (if b < 0 then b < r < -b else -b < r < b)
    && (r == 0 || (r < 0 <==> a < 0))
  }

  lemma QuotRem(a: int, b: int)
    requires b != 0
    ensures Truncates(a, b, Quot(a, b), Rem(a, b))
  {
    var q, r := Parts(a, b);
    hide Truncates, Quot, Rem;
    Signs(if a < 0 then -a else a, if b < 0 then -b else b, q, r, a, b);
  }

  lemma Parts(a: int, b: int) returns (q: int, r: int)
    requires b != 0
    ensures q >= 0 && 0 <= r < (if b < 0 then -b else b) && (if a < 0 then -a else a) == q * (if b < 0 then -b else b) + r
    ensures Quot(a, b) == (if (a < 0) == (b < 0) then q else -q) && Rem(a, b) == (if a < 0 then -r else r)
  {
    q, r := Abs(a) / Abs(b), Abs(a) % Abs(b);
    Divides(Abs(a), Abs(b));
  }

  lemma Divides(n: nat, d: nat)
    requires d > 0
    ensures n == (n / d) * d + n % d && 0 <= n % d < d && n / d >= 0
  {
  }

  lemma Signs(n: int, d: int, q: int, r: int, a: int, b: int)
    requires d > 0 && q >= 0 && 0 <= r < d && n == q * d + r && n >= 0
    requires (if a < 0 then a == -n else a == n) && (if b < 0 then b == -d else b == d)
    ensures Truncates(a, b, if (a < 0) == (b < 0) then q else -q, if a < 0 then -r else r)
  {
    assert (-q) * d == -(q * d) && q * (-d) == -(q * d) && (-q) * (-d) == q * d;
  }

  /** There is one such quotient and one such remainder. */
  lemma TruncatesOnce(a: int, b: int, q: int, r: int, q1: int, r1: int)
    requires Truncates(a, b, q, r) && Truncates(a, b, q1, r1)
    ensures q == q1 && r == r1
  {
    assert (q - q1) * b == r1 - r && (q1 - q) * b == r - r1;
    if q > q1 {
      Apart(q - q1, b);
    } else if q < q1 {
      Apart(q1 - q, b);
    }
  }

  lemma Apart(k: int, b: int)
    requires k >= 1
    ensures b > 0 ==> k * b >= b
    ensures b < 0 ==> k * b <= b
  {
  }

  /** `c` is what `a op b` must be. */
  ghost predicate Number(op: BinOp, a: i64, b: i64, c: i64) {
    match op
    case Add => Congruent(c, a + b)
    case Sub => Congruent(c, a - b)
    case Mul => Congruent(c, a * b)
    case Div => exists r :: Truncates(a, b, c, r)
    case Mod => exists q: i64 :: Truncates(a, b, q, c)
    case _ => false
  }

  predicate Truth(op: BinOp, a: i64, b: i64) {
    match op
    case Lt => a < b
    case Gt => b < a
    case Le => a <= b
    case Ge => b <= a
    case Eq => a == b
    case Ne => a != b
    case _ => false
  }

  lemma WrapCongruent(x: int, c: i64)
    ensures c == Wrap(x) <==> Congruent(c, x)
  {
    assert (x - Wrap(x)) % TWO_TO_64 == 0;
    var k := (x - Wrap(x)) / TWO_TO_64;
    assert x - Wrap(x) == k * TWO_TO_64;
    if Congruent(c, x) {
      var j := (c - x) / TWO_TO_64;
      assert c - Wrap(x) == (j + k) * TWO_TO_64;
    }
  }

  // ---- The operators of the language and of the machine.

  lemma DivNumber(a: i64, b: i64, c: i64)
    ensures (b != 0 && !(a == -TWO_63 && b == -1) && c == Wrap(Quot(a, b))) <==> Number(Div, a, b, c)
    ensures (b != 0 && !(a == -TWO_63 && b == -1) && c == Wrap(Rem(a, b))) <==> Number(Mod, a, b, c)
  {
    hide Quot, Rem, Truncates;
    if b != 0 {
      QuotRem(a, b);
      Fits(a, b);
      forall r | Truncates(a, b, c, r) ensures c == Quot(a, b) { TruncatesOnce(a, b, c, r, Quot(a, b), Rem(a, b)); }
      forall q: i64 | Truncates(a, b, q, c) ensures q == Quot(a, b) && c == Rem(a, b) { TruncatesOnce(a, b, q, c, Quot(a, b), Rem(a, b)); }
    } else {
      ByZero(a);
    }
  }

  lemma ByZero(a: int)
    ensures forall q, r :: !Truncates(a, 0, q, r)
  {
  }

  /** The one quotient that needs more than 64 bits. */
  lemma Fits(a: i64, b: i64)
    requires b != 0
    ensures -TWO_63 <= Rem(a, b) < TWO_63
    ensures -TWO_63 <= Quot(a, b) < TWO_63 <==> !(a == -TWO_63 && b == -1)
    ensures -TWO_63 <= Quot(a, b) < TWO_63 ==> Wrap(Quot(a, b)) == Quot(a, b)
    ensures Wrap(Rem(a, b)) == Rem(a, b)
  {
    hide Quot, Rem;
    var q, r := Quot(a, b), Rem(a, b);
    QuotRem(a, b);
    if b > 1 || b < -1 {
      if q > 0 { Apart2(q, b); } else if q < 0 { Apart2(-q, b); }
    }
  }

  lemma Apart2(k: int, b: int)
    requires k >= 1 && (b > 1 || b < -1)
    ensures b > 1 ==> k * b >= 2 * k && (-k) * b <= -2 * k
    ensures b < -1 ==> k * b <= -2 * k && (-k) * b >= 2 * k
  {
  }

  lemma BinNumber(op: BinOp, a: i64, b: i64, c: i64)
    ensures BinVal(op, IntV(a), IntV(b)) == Some(IntV(c)) <==> Number(op, a, b, c)
    ensures OpVal(OpCode(op), IntV(a), IntV(b)) == Some(IntV(c)) <==> Number(op, a, b, c)
  {
    hide Wrap, Quot, Rem, Congruent;
    match op
    case Add => WrapCongruent(a + b, c);
    case Sub => WrapCongruent(a - b, c);
    case Mul => WrapCongruent(a * b, c);
    case Div => DivNumber(a, b, c);
    case Mod => DivNumber(a, b, c);
    case _ =>
  }

  predicate Compares(op: BinOp) { op in {Lt, Gt, Le, Ge, Eq, Ne} }

  /** No 64-bit number is the quotient. */
  predicate Undefined(op: BinOp, a: i64, b: i64) {
    (op == Div || op == Mod) && (b == 0 || (a == -9223372036854775808 && b == -1))
  }

  /** A binary operator on two numbers: the number it gives, the truth value it gives, and when it gives
      neither. */
  lemma EvalBinary(op: BinOp, l: Expr, r: Expr, env: Env, m: Mem, a: i64, m1: Mem, b: i64, m2: Mem, c: i64, t: bool)
    requires Eval(l, env, m) == EOk(IntV(a), m1) && Eval(r, env, m1) == EOk(IntV(b), m2)
    ensures Eval(Binary(op, l, r), env, m) == EOk(IntV(c), m2) <==> Number(op, a, b, c)
    ensures Eval(Binary(op, l, r), env, m) == EOk(BoolV(t), m2) <==> Compares(op) && (t <==> Truth(op, a, b))
    ensures Eval(Binary(op, l, r), env, m) == EWrong <==> Undefined(op, a, b)
  {
    BinNumber(op, a, b, c);
    hide Wrap, Quot, Rem, Number;
  }

  /** The instruction emitted for it computes the same. */
  lemma ExecBinary(op: BinOp, dst: nat, x: Operand, y: Operand, k: Conf, a: i64, b: i64, c: i64, t: bool)
    requires k.Run? && OperandVal(x, k.regs) == Some(IntV(a)) && OperandVal(y, k.regs) == Some(IntV(b))
    ensures var k1 := Exec(Bin(dst, OpCode(op), x, y), k);
      && (k1 == k.(idx := k.idx + 1, regs := k.regs[dst := IntV(c)]) <==> Number(op, a, b, c))
      && (k1 == k.(idx := k.idx + 1, regs := k.regs[dst := BoolV(t)]) <==> Compares(op) && (t <==> Truth(op, a, b)))
      && (k1 == Trap <==> Undefined(op, a, b))
  {
    BinNumber(op, a, b, c);
    assert k.regs[dst := IntV(c)][dst] == IntV(c) && k.regs[dst := BoolV(t)][dst] == BoolV(t);
    hide Wrap, Quot, Rem, Number;
    var v := OpVal(OpCode(op), IntV(a), IntV(b));
    if v.Some? {
      assert k.regs[dst := v.value][dst] == v.value;
    }
  }

  /** Only the cell of `x` changes, and it then holds `v`. */
  predicate OnlyWrites(m: Mem, m1: Mem, a: nat, v: Val) {
    && |m1| == |m| && a < |m| && m1[a].val == Some(v) && (forall i :: 0 <= i < |m| && i != a ==> m1[i] == m[i])
    && forall i :: 0 <= i < |m| ==> m1[i].ty == m[i].ty
  }

  lemma WriteOnly(m: Mem, a: nat, v: Val, res: Val, m1: Mem)
    requires a < |m|
    ensures AssignTo(m, a, v, res) == EOk(res, m1) <==> OnlyWrites(m, m1, a, v)
  {
    var w := Write(m, a, v);
    assert OnlyWrites(m, w, a, v);
    if OnlyWrites(m, m1, a, v) {
      assert m1[a] == w[a];
      assert m1 == w;
    }
  }

  lemma EvalUnary(e: Expr, env: Env, m: Mem, n: i64, m1: Mem, c: i64)
    requires Eval(e, env, m) == EOk(IntV(n), m1)
    ensures Eval(Neg(e), env, m) == EOk(IntV(c), m1) <==> Congruent(c, 0 - n)
    ensures Eval(BitNot(e), env, m) == EOk(IntV(c), m1) <==> c + n == -1
  {
    WrapCongruent(0 - n, c);
  }

  /** `++` and `--`: the variable moves by one, with wrap-around; the value is the new one in front of
      the name and the old one behind it. */
  lemma EvalStep(inc: bool, prefix: bool, x: Name, env: Env, m: Mem, n: i64, c: i64, m1: Mem)
    requires x in env && env[x] < |m| && m[env[x]].val == Some(IntV(n))
    ensures var v := IntV(if prefix then c else n);
      Eval(IncDec(inc, prefix, x), env, m) == EOk(v, m1) && OnlyWrites(m, m1, env[x], IntV(c))
      <==> Congruent(c, if inc then n + 1 else n - 1) && OnlyWrites(m, m1, env[x], IntV(c))
  {
    var next := if inc then n + 1 else n - 1;
    WrapCongruent(next, c);
    WriteOnly(m, env[x], IntV(Wrap(next)), IntV(if prefix then Wrap(next) else n), m1);
    WriteOnly(m, env[x], IntV(c), IntV(if prefix then c else n), m1);
    hide Wrap, Congruent, Write;
    if Eval(IncDec(inc, prefix, x), env, m) == EOk(IntV(if prefix then c else n), m1) && OnlyWrites(m, m1, env[x], IntV(c)) {
      assert OnlyWrites(m, m1, env[x], IntV(Wrap(next)));
    }
  }

  /** `x = e`: the value of `e`, stored in `x` and nowhere else. */
  lemma EvalSet(x: Name, e: Expr, env: Env, m: Mem, v: Val, m1: Mem, m2: Mem)
    requires Eval(e, env, m) == EOk(v, m1) && x in env && env[x] < |m1|
    ensures Eval(Assign(x, Set, e), env, m) == EOk(v, m2) <==> OnlyWrites(m1, m2, env[x], v)
  {
    WriteOnly(m1, env[x], v, v, m2);
    hide Write;
  }

  function Stands(aop: AssignOp): BinOp
    requires aop != Set
  {
    match aop case AddSet => Add case SubSet => Sub case MulSet => Mul case DivSet => Div
  }

  /** `x op= e`: what `x` holds after `e` has had its effects, `op` the value of `e`. */
  lemma EvalCompound(x: Name, aop: AssignOp, e: Expr, env: Env, m: Mem, b: i64, m1: Mem, a: i64, c: i64, m2: Mem)
    requires aop != Set && Eval(e, env, m) == EOk(IntV(b), m1)
    requires x in env && env[x] < |m1| && m1[env[x]].val == Some(IntV(a))
    ensures Eval(Assign(x, aop, e), env, m) == EOk(IntV(c), m2) <==> Number(Stands(aop), a, b, c) && OnlyWrites(m1, m2, env[x], IntV(c))
  {
    var op := Stands(aop);
    BinNumber(op, a, b, c);
    assert BinVal(op, IntV(a), IntV(b)).Some? ==> BinVal(op, IntV(a), IntV(b)).value.IntV?;
    hide Wrap, Quot, Rem, Number, Write, BinVal, OnlyWrites;
    if u :| BinVal(op, IntV(a), IntV(b)) == Some(u) {
      WriteOnly(m1, env[x], u, u, m2);
    }
  }

  /** What is stored for `v` in a variable of type `ty`: a Boolean gets the lowest bit of a number, a
      number is -1 for `true`. */
  predicate Becomes(ty: Ty, v: Val, w: Val) {
    match (ty, v)
    case (TBool, IntV(n)) => w == BoolV(n % 2 != 0)
    case (TInt, BoolV(b)) => w == IntV(if b then -1 else 0)
    case _ => w == v
  }

  /** A declaration makes a new variable and stores the initialiser in it and nowhere else. */
  lemma DeclareRuns(ty: Ty, x: Name, e: Expr, env: Env, m: Mem, v: Val, m1: Mem, w: Val, m2: Mem, loop: bool, fuel: nat)
    requires Eval(e, env, m + [Cell(ty, None)]) == EOk(v, m1) && |m1| == |m| + 1
    ensures Becomes(ty, v, w) ==>
      (ExecStmt(VarDecl(ty, x, Some(e)), env, m, loop, fuel) == SOk(Normal, env[x := |m|], m2) <==> OnlyWrites(m1, m2, |m|, w))
  {
    if Becomes(ty, v, w) {
      WriteOnly(m1, |m|, w, v, m2);
    }
    hide Write, OnlyWrites;
  }

  /** A pattern tests a number: a range without its end, a comparison, or equality. */
  lemma PatternTests(p: Pattern, n: i64, env: Env, m: Mem, a: i64, m1: Mem, b: i64, m2: Mem)
    ensures p.PIn? && Eval(p.lo, env, m) == EOk(IntV(a), m1) && Eval(p.hi, env, m1) == EOk(IntV(b), m2) ==>
      Matches(p, IntV(n), env, m) == EOk(BoolV(a <= n < b), m2)
    ensures p.PCmp? && Compares(p.op) && Eval(p.right, env, m) == EOk(IntV(b), m2) ==>
      Matches(p, IntV(n), env, m) == EOk(BoolV(Truth(p.op, n, b)), m2)
    ensures p.PVal? && Eval(p.e, env, m) == EOk(IntV(b), m2) ==> Matches(p, IntV(n), env, m) == EOk(BoolV(n == b), m2)
  {
    hide Wrap, Quot, Rem;
  }

  // ---- The same of compiled code.

  /** `return a op b;` in a function of two numbers. */
  function Applies(op: BinOp): Func {
    Func("f", Some(if Compares(op) then TBool else TInt), [Param("a", TInt), Param("b", TInt)],
         [Return(Some(Binary(op, Ident("a"), Ident("b"))))])
  }

  ghost predicate Gives(f: Func, args: seq<Val>, v: Val) {
    exists m: Mem :: Reaches(GenFunc(f, []).blocks, Start(args, []), Done(Some(v), m))
  }

  lemma AppliesCall(op: BinOp, a: i64, b: i64, v: Val, m: Mem, fuel: nat)
    ensures Call(Applies(op), [IntV(a), IntV(b)], map[], [], fuel) == FRet(Some(v), m)
      <==> BinVal(op, IntV(a), IntV(b)) == Some(v) && m == [Cell(TInt, Some(IntV(a))), Cell(TInt, Some(IntV(b)))]
  {
    hide BinVal;
    var f, args := Applies(op), [IntV(a), IntV(b)];
    var env0: Env, m0: Mem := map[], [];
    var env1, m1 := env0["a" := 0], [Cell(TInt, Some(IntV(a)))];
    var env2, m2 := env1["b" := 1], [Cell(TInt, Some(IntV(a))), Cell(TInt, Some(IntV(b)))];
    assert m0 + m1 == m1 && m1 + [Cell(TInt, Some(IntV(b)))] == m2;
    assert f.params[1..] == [Param("b", TInt)] && args[1..] == [IntV(b)] && f.params[1..][1..] == [];
    assert Bind(f.params, args, env0, m0) == Bind(f.params[1..], args[1..], env1, m1) == (env2, m2);
    var e := Binary(op, Ident("a"), Ident("b"));
    assert env2["a"] == 0 && env2["b"] == 1;
    assert Eval(e.left, env2, m2) == EOk(IntV(a), m2) && Eval(e.right, env2, m2) == EOk(IntV(b), m2);
    assert Eval(e, env2, m2) == (match BinVal(op, IntV(a), IntV(b)) case None => EWrong case Some(u) => EOk(u, m2));
    assert ExecSeq(f.body, env2, m2, false, fuel) == ExecStmt(f.body[0], env2, m2, false, fuel) by {
      assert ExecStmt(f.body[0], env2, m2, false, fuel).SOk? ==> !ExecStmt(f.body[0], env2, m2, false, fuel).o.Normal?;
    }
  }

  lemma AppliesChecked(op: BinOp)
    ensures CheckFunc(Applies(op), map[])
  {
    var f := Applies(op);
    var c: Ctx := map["a" := TInt];
    assert f.params[1..] == [Param("b", TInt)] && f.params[1..][1..] == [];
    assert WithParams(map[], f.params) == WithParams(c, f.params[1..]) == c["b" := TInt];
    assert f.body[1..] == [];
  }

  lemma AppliesGives(op: BinOp, a: i64, b: i64, v: Val)
    ensures Gives(Applies(op), [IntV(a), IntV(b)], v) <==> BinVal(op, IntV(a), IntV(b)) == Some(v)
  {
    var f, args := Applies(op), [IntV(a), IntV(b)];
    AppliesChecked(op);
    hide BinVal, Applies, CheckFunc, GenFunc, Start, Reaches;
    assert ArgsFit(args, f.params) && Globals([], map[], map[]) && Typed(map[], map[], []) by { AppliesParams(op); }
    forall m ensures Reaches(GenFunc(f, []).blocks, Start(args, []), Done(Some(v), m)) <==> Yields(f, args, map[], [], FRet(Some(v), m)) {
      ReturnsIff(f, [], map[], map[], args, [], Some(v), m);
    }
    forall m, fuel: nat ensures Call(f, args, map[], [], fuel) == FRet(Some(v), m)
      <==> BinVal(op, IntV(a), IntV(b)) == Some(v) && m == [Cell(TInt, Some(IntV(a))), Cell(TInt, Some(IntV(b)))]
    {
      AppliesCall(op, a, b, v, m, fuel);
    }
    if BinVal(op, IntV(a), IntV(b)) == Some(v) {
      var m := [Cell(TInt, Some(IntV(a))), Cell(TInt, Some(IntV(b)))];
      assert Call(f, args, map[], [], 0) == FRet(Some(v), m);
      assert Reaches(GenFunc(f, []).blocks, Start(args, []), Done(Some(v), m));
    }
  }

  lemma AppliesParams(op: BinOp)
    ensures Applies(op).params == [Param("a", TInt), Param("b", TInt)]
  {
  }

  /** Compiled, run from its entry: it returns a number if and only if that is the number meant, and
      a truth value likewise. */
  lemma CompiledBinary(op: BinOp, a: i64, b: i64, c: i64, t: bool)
    ensures Gives(Applies(op), [IntV(a), IntV(b)], IntV(c)) <==> Number(op, a, b, c)
    ensures Gives(Applies(op), [IntV(a), IntV(b)], BoolV(t)) <==> Compares(op) && (t <==> Truth(op, a, b))
  {
    AppliesGives(op, a, b, IntV(c));
    AppliesGives(op, a, b, BoolV(t));
    BinNumber(op, a, b, c);
    hide Gives, Number, Wrap, Quot, Rem;
  }
}
