/** Code generation as functions on the state the emitters thread through: the blocks built
    so far, the builder's insert block, the variable registry and the loop targets.  The
    class in Codegen.dfy does the same by updating its fields. */

module Emit {
  import opened Int64
  import opened Options
  import opened Syntax
  import opened Values
  import opened Ir

  datatype Var = Var(x: Name, ptr: Operand, ty: Ty)

  /** `next` is the next unused register; `failed` records that code generation stopped with
      an error. */
  datatype Gen = Gen(
    blocks: Cfg, cur: nat, next: nat, vars: seq<Var>,
    brk: Option<nat>, cont: Option<nat>, failed: bool)

  /** The backward search of src/codegen/ctx.c:146-152. */
  function Lookup(vars: seq<Var>, x: Name): Option<Var> {
    if vars == [] then None
    else if vars[|vars| - 1].x == x then Some(vars[|vars| - 1])
    else Lookup(vars[..|vars| - 1], x)
  }

  /** `a` grew into `b`: no block was removed and none lost an instruction. */
  predicate Extends(a: Cfg, b: Cfg) {
    |a| <= |b| && forall i :: 0 <= i < |a| ==> a[i] <= b[i]
  }

  predicate Below(o: Operand, n: nat) { o.Reg? ==> o.r < n }

  /** What every emitter keeps. */
  predicate Grew(g: Gen, g1: Gen) {
    && Extends(g.blocks, g1.blocks)
    && |g.blocks| <= |g1.blocks|
    && g1.cur < |g1.blocks|
    && g.next <= g1.next
  }

  /** The loop targets are as they were and the registry has at most new entries. */
  predicate Scoped(g: Gen, g1: Gen) {
    g1.brk == g.brk && g1.cont == g.cont && g.vars <= g1.vars
  }

  predicate Same(g: Gen, g1: Gen) {
    g1.brk == g.brk && g1.cont == g.cont && g1.vars == g.vars
  }

  /** Of the blocks that were there, only the insert block changed, and the builder is now in
      it or in a new one. */
  predicate Local(g: Gen, g1: Gen) {
    && |g.blocks| <= |g1.blocks|
    && (g1.cur == g.cur || |g.blocks| <= g1.cur)
    && forall i :: 0 <= i < |g.blocks| && i != g.cur ==> g1.blocks[i] == g.blocks[i]
  }

  lemma EmitsTrans(a: Gen, b: Gen, c: Gen)
    requires Grew(a, b) && Local(a, b)
    requires Grew(b, c) && Local(b, c)
    ensures Grew(a, c) && Local(a, c)
  {
  }

  lemma GrewTrans(a: Gen, b: Gen, c: Gen)
    requires Grew(a, b) && Grew(b, c)
    ensures Grew(a, c)
  {
  }

  function Put(g: Gen, i: Instr): (r: Gen)
    requires g.cur < |g.blocks|
    ensures Grew(g, r) && Local(g, r)
  {
    g.(blocks := g.blocks[g.cur := g.blocks[g.cur] + [i]])
  }

  /** Append `n` empty blocks. */
  function Append(g: Gen, n: nat): (r: Gen)
    requires g.cur < |g.blocks|
    ensures Grew(g, r) && Local(g, r)
  {
    g.(blocks := g.blocks + Empties(n))
  }

  function Empties(n: nat): (r: Cfg)
    ensures |r| == n && forall i :: 0 <= i < n ==> r[i] == []
  {
    seq(n, _ => [])
  }

  function PositionAt(g: Gen, b: nat): (r: Gen)
    requires b < |g.blocks|
    ensures Grew(g, r)
  {
    g.(cur := b)
  }

  predicate Terminated(g: Gen)
    requires g.cur < |g.blocks|
  {
    var b := g.blocks[g.cur];
    b != [] && IsTerminator(b[|b| - 1])
  }

  datatype Code = Code(g: Gen, val: Operand, ty: Ty)

  function OpCode(op: BinOp): Op {
    match op
    case Add => OAdd
    case Sub => OSub
    case Mul => OMul
    case Div => OSDiv
    case Mod => OSRem
    case Lt => OICmp(SLT)
    case Gt => OICmp(SGT)
    case Le => OICmp(SLE)
    case Ge => OICmp(SGE)
    case Eq => OICmp(EQ)
    case Ne => OICmp(NE)
  }

  function OpType(op: Op): Ty { if op.OICmp? then TBool else TInt }

  function AssignCode(aop: AssignOp): Op
    requires aop != Set
  {
    match aop
    case AddSet => OAdd
    case SubSet => OSub
    case MulSet => OMul
    case DivSet => OSDiv
  }

  /** One instruction with a result. */
  function Result(g: Gen, i: Instr, ty: Ty): (c: Code)
    requires g.cur < |g.blocks|
    ensures Grew(g, c.g) && Local(g, c.g) && Below(c.val, c.g.next) && Same(g, c.g)
  {
    Code(Put(g, i).(next := g.next + 1), Reg(g.next), ty)
  }

  function Fail(g: Gen): Code {
    Code(g.(failed := true), Const(IntV(0)), TInt)
  }

  function GenBinary(a: Code, b: Code, op: Op): (c: Code)
    requires b.g.cur < |b.g.blocks|
    ensures Grew(b.g, c.g) && Local(b.g, c.g) && Below(c.val, c.g.next) && Same(b.g, c.g)
  {
    Result(b.g, Bin(b.g.next, op, a.val, b.val), OpType(op))
  }

  /** Two new blocks; the builder moves to the first, where the right operand goes. */
  function OpenShort(a: Code, and: bool): (g: Gen)
    requires a.g.cur < |a.g.blocks|
    ensures Grew(a.g, g) && Local(a.g, g) && Same(a.g, g) && |g.blocks| == |a.g.blocks| + 2
  {
    var rhs, merge := |a.g.blocks|, |a.g.blocks| + 1;
    PositionAt(Put(Append(a.g, 2), if and then CondBr(a.val, rhs, merge) else CondBr(a.val, merge, rhs)), rhs)
  }

  /** After the right operand: a branch to the merge block, where the builder goes. */
  function MergeShort(a: Code, b: Code, and: bool): (g: Gen)
    requires a.g.cur < |a.g.blocks| && b.g.cur < |b.g.blocks|
    requires Local(OpenShort(a, and), b.g)
    ensures Grew(b.g, g) && Local(a.g, g) && Same(b.g, g) && g.blocks[g.cur] == []
    ensures b.g.cur != a.g.cur
  {
    PositionAt(Put(b.g, Br(|a.g.blocks| + 1)), |a.g.blocks| + 1)
  }

  /** The block of a phi's value is the one the operand's code ended in. */
  function CloseShort(a: Code, b: Code, and: bool): (c: Code)
    requires a.g.cur < |a.g.blocks| && b.g.cur < |b.g.blocks|
    requires Local(OpenShort(a, and), b.g)
    ensures Grew(b.g, c.g) && Local(a.g, c.g) && Below(c.val, c.g.next) && Same(b.g, c.g)
  {
    var g := MergeShort(a, b, and);
    Result(g, Phi(g.next, Const(BoolV(!and)), a.g.cur, b.val, b.g.cur), TBool)
  }

  function OpenTernary(a: Code): (g: Gen)
    requires a.g.cur < |a.g.blocks|
    ensures Grew(a.g, g) && Local(a.g, g) && Same(a.g, g) && |g.blocks| == |a.g.blocks| + 3
  {
    var thn := |a.g.blocks|;
    PositionAt(Put(Append(a.g, 3), CondBr(a.val, thn, thn + 1)), thn)
  }

  function MiddleTernary(a: Code, b: Code): (g: Gen)
    requires a.g.cur < |a.g.blocks| && b.g.cur < |b.g.blocks|
    requires Local(OpenTernary(a), b.g)
    ensures Grew(b.g, g) && Local(a.g, g) && Same(b.g, g) && g.blocks[g.cur] == []
  {
    PositionAt(Put(b.g, Br(|a.g.blocks| + 2)), |a.g.blocks| + 1)
  }

  function MergeTernary(a: Code, b: Code, d: Code): (g: Gen)
    requires a.g.cur < |a.g.blocks| && b.g.cur < |b.g.blocks| && d.g.cur < |d.g.blocks|
    requires Local(OpenTernary(a), b.g) && Local(MiddleTernary(a, b), d.g)
    ensures Grew(d.g, g) && Local(a.g, g) && Same(d.g, g) && g.blocks[g.cur] == []
    ensures d.g.cur != b.g.cur
  {
    PositionAt(Put(d.g, Br(|a.g.blocks| + 2)), |a.g.blocks| + 2)
  }

  function CloseTernary(a: Code, b: Code, d: Code): (c: Code)
    requires a.g.cur < |a.g.blocks| && b.g.cur < |b.g.blocks| && d.g.cur < |d.g.blocks|
    requires Local(OpenTernary(a), b.g) && Local(MiddleTernary(a, b), d.g)
    ensures Grew(d.g, c.g) && Local(a.g, c.g) && Below(c.val, c.g.next) && Same(d.g, c.g)
  {
    var g := MergeTernary(a, b, d);
    Result(g, Phi(g.next, b.val, b.g.cur, d.val, d.g.cur), b.ty)
  }

  function GenIncDec(g: Gen, v: Var, inc: bool, prefix: bool): (c: Code)
    requires g.cur < |g.blocks|
    ensures Grew(g, c.g) && Local(g, c.g) && Below(c.val, c.g.next) && Same(g, c.g)
  {
    var before := Result(g, Load(g.next, v.ty, v.ptr), v.ty);
    var g1 := before.g;
    var after := Result(g1, Bin(g1.next, if inc then OAdd else OSub, before.val, Const(IntV(1))), v.ty);
    Code(Put(after.g, Store(after.val, v.ptr)), if prefix then after.val else before.val, v.ty)
  }

  /** The value is computed first; a compound assignment then loads the target with the
      value's type (src/codegen/expr.c:361-395). */
  function GenAssign(a: Code, v: Var, aop: AssignOp): (c: Code)
    requires a.g.cur < |a.g.blocks| && Below(a.val, a.g.next)
    ensures Grew(a.g, c.g) && Local(a.g, c.g) && Below(c.val, c.g.next) && Same(a.g, c.g)
  {
    if aop == Set then
      Code(Put(a.g, Store(a.val, v.ptr)), a.val, a.ty)
    else
      var loaded := Result(a.g, Load(a.g.next, a.ty, v.ptr), a.ty);
      var g1 := loaded.g;
      var res := Result(g1, Bin(g1.next, AssignCode(aop), loaded.val, a.val), a.ty);
      Code(Put(res.g, Store(res.val, v.ptr)), res.val, a.ty)
  }

  function GenExpr(g: Gen, e: Expr): (c: Code)
    requires g.cur < |g.blocks|
    ensures Grew(g, c.g) && Local(g, c.g) && Same(g, c.g)
    ensures Below(c.val, c.g.next)
    decreases e, 1
  {
    hide Extends, Local;
    match e
    case IntLit(n) => Nothing(g); Code(g, Const(IntV(n)), TInt)
    case Ident(x) =>
      (match Lookup(g.vars, x)
       case None => Nothing(g); Fail(g)
       case Some(v) => Result(g, Load(g.next, v.ty, v.ptr), v.ty))
    case Binary(op, l, r) =>
      var a := GenExpr(g, l);
      var b := GenExpr(a.g, r);
      var c := GenBinary(a, b, OpCode(op));
      EmitsTrans(g, a.g, b.g); EmitsTrans(g, b.g, c.g);
      c
    case And(_, _) => GenShort(g, e)
    case Or(_, _) => GenShort(g, e)
    case Ternary(_, _, _) => GenTernary(g, e)
    case Neg(e1) =>
      var a := GenExpr(g, e1);
      var c := Result(a.g, Bin(a.g.next, OSub, Const(IntV(0)), a.val), TInt);
      EmitsTrans(g, a.g, c.g);
      c
    case BitNot(e1) =>
      var a := GenExpr(g, e1);
      var c := Result(a.g, XorOnes(a.g.next, a.val), TInt);
      EmitsTrans(g, a.g, c.g);
      c
    case IncDec(inc, prefix, x) =>
      (match Lookup(g.vars, x)
       case None => Nothing(g); Fail(g)
       case Some(v) => GenIncDec(g, v, inc, prefix))
    case Assign(x, aop, value) =>
      (match Lookup(g.vars, x)
       case None => Nothing(g); Fail(g)
       case Some(v) =>
         var a := GenExpr(g, value);
         var c := GenAssign(a, v, aop);
         EmitsTrans(g, a.g, c.g);
         c)
  }

  lemma Nothing(g: Gen)
    requires g.cur < |g.blocks|
    ensures Grew(g, g) && Local(g, g)
    ensures Grew(g, Fail(g).g) && Local(g, Fail(g).g)
  {
  }

  function GenShort(g: Gen, e: Expr): (c: Code)
    requires g.cur < |g.blocks|
    requires e.And? || e.Or?
    ensures Grew(g, c.g) && Local(g, c.g) && Same(g, c.g)
    ensures Below(c.val, c.g.next)
    decreases e, 0
  {
    hide Extends, Local;
    var a := GenExpr(g, e.left);
    var g1 := OpenShort(a, e.And?);
    var b := GenExpr(g1, e.right);
    var c := CloseShort(a, b, e.And?);
    GrewTrans(a.g, g1, b.g); GrewTrans(a.g, b.g, c.g); EmitsTrans(g, a.g, c.g);
    c
  }

  function GenTernary(g: Gen, e: Expr): (c: Code)
    requires g.cur < |g.blocks|
    requires e.Ternary?
    ensures Grew(g, c.g) && Local(g, c.g) && Same(g, c.g)
    ensures Below(c.val, c.g.next)
    decreases e, 0
  {
    hide Extends, Local;
    var a := GenExpr(g, e.cond);
    var g1 := OpenTernary(a);
    var b := GenExpr(g1, e.thn);
    var g2 := MiddleTernary(a, b);
    var d := GenExpr(g2, e.els);
    var c := CloseTernary(a, b, d);
    GrewTrans(a.g, g1, b.g); GrewTrans(a.g, b.g, g2); GrewTrans(a.g, g2, d.g); GrewTrans(a.g, d.g, c.g);
    EmitsTrans(g, a.g, c.g);
    c
  }
}
