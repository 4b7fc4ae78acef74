/** Code generation for statements and functions (src/codegen/stmt.c, src/codegen/decl.c). */

module EmitStmt {
  import opened Int64
  import opened Options
  import opened Syntax
  import opened Values
  import Semantics
  import opened Ir
  import opened Emit

  /** What emitting a statement keeps. */
  predicate Emits(g: Gen, g1: Gen) {
    Grew(g, g1) && Local(g, g1) && Scoped(g, g1)
  }

  lemma EmitsTrans3(a: Gen, b: Gen, c: Gen)
    requires Emits(a, b) && Emits(b, c)
    ensures Emits(a, c)
  {
  }

  /** Emit `i` and move to block `b`. */
  function Seal(g: Gen, i: Instr, b: nat): (r: Gen)
    requires g.cur < |g.blocks| && b < |g.blocks|
    ensures Grew(g, r) && Same(g, r)
  {
    PositionAt(Put(g, i), b)
  }

  /** A branch to `m`, unless the block has ended already. */
  function CloseArm(g: Gen, m: nat): (r: Gen)
    requires g.cur < |g.blocks|
    ensures Grew(g, r) && Local(g, r) && Same(g, r)
  {
    hide Extends, Local;
    if Terminated(g) then Nothing(g); g else Put(g, Br(m))
  }

  function WithTargets(g: Gen, brk: Option<nat>, cont: Option<nat>): Gen {
    g.(brk := brk, cont := cont)
  }

  function PushVar(g: Gen, x: Name, ptr: Operand, ty: Ty): Gen {
    g.(vars := g.vars + [Var(x, ptr, ty)])
  }

  /** A stack slot for `x`, registered under its name. */
  function GenAlloca(g: Gen, x: Name, ty: Ty): (r: Gen)
    requires g.cur < |g.blocks|
    ensures Emits(g, r) && r.next == g.next + 1
  {
    PushVar(Result(g, Alloca(g.next, ty), ty).g, x, Reg(g.next), ty)
  }

  function GenConvert(a: Code, ty: Ty): (c: Code)
    requires a.g.cur < |a.g.blocks| && Below(a.val, a.g.next)
    ensures Grew(a.g, c.g) && Local(a.g, c.g) && Same(a.g, c.g) && Below(c.val, c.g.next)
  {
    hide Extends, Local;
    if a.ty == ty then Nothing(a.g); a
    else if ty == TBool then Result(a.g, Trunc(a.g.next, a.val), ty)
    else Result(a.g, SExt(a.g.next, a.val), ty)
  }

  function GenVarDecl(g: Gen, ty: Ty, x: Name, init: Option<Expr>): (r: Gen)
    requires g.cur < |g.blocks|
    ensures Emits(g, r)
  {
    hide Extends, Local;
    var g1 := GenAlloca(g, x, ty);
    if init == None then g1 else
    var a := GenExpr(g1, init.value);
    var v := GenConvert(a, ty);
    var r := Put(v.g, Store(v.val, Reg(g.next)));
    EmitsTrans3(g, g1, a.g); EmitsTrans3(g, a.g, v.g); EmitsTrans3(g, v.g, r);
    r
  }

  function GenReturn(g: Gen, value: Option<Expr>): (r: Gen)
    requires g.cur < |g.blocks|
    ensures Emits(g, r)
  {
    hide Extends, Local;
    if value == None then Put(g, RetVoid) else
    var a := GenExpr(g, value.value);
    var r := Put(a.g, Ret(a.val));
    EmitsTrans3(g, a.g, r);
    r
  }

  /** `then`, `end` and, if there is one, `else`, in this order. */
  function OpenIf(a: Code, hasElse: bool): (g: Gen)
    requires a.g.cur < |a.g.blocks|
    ensures Emits(a.g, g) && Same(a.g, g) && g.next == a.g.next
    ensures |g.blocks| == |a.g.blocks| + (if hasElse then 3 else 2)
    ensures g.cur == |a.g.blocks| && forall b :: |a.g.blocks| <= b < |g.blocks| ==> g.blocks[b] == []
  {
    var thn := |a.g.blocks|;
    if hasElse then Seal(Append(a.g, 3), CondBr(a.val, thn, thn + 2), thn)
    else Seal(Append(a.g, 2), CondBr(a.val, thn, thn + 1), thn)
  }

  /** What every loop starts with: `n` new blocks. */
  function OpenLoop(g: Gen, n: nat): (r: Gen)
    requires g.cur < |g.blocks|
    ensures Emits(g, r) && |r.blocks| == |g.blocks| + n && Same(g, r) && r.cur == g.cur
    ensures forall b :: |g.blocks| <= b < |r.blocks| ==> r.blocks[b] == []
  {
    Append(g, n)
  }

  function SwitchTable(arms: seq<Arm>, first: nat): seq<(i64, nat)> {
    if arms == [] then []
    else if arms[0].tag.Value? then [(arms[0].tag.n, first)] + SwitchTable(arms[1..], first + 1)
    else SwitchTable(arms[1..], first + 1)
  }

  /** The block of the last default, counting case blocks from `first`. */
  function DefaultBlock(d: Option<nat>, first: nat, merge: nat): nat {
    if d.Some? then first + d.value else merge
  }

  /** `switch.end` or `match.end`, then one block a case; the builder stays where it is. */
  function OpenArms(a: Code, n: nat): (g: Gen)
    requires a.g.cur < |a.g.blocks|
    ensures Emits(a.g, g) && |g.blocks| == |a.g.blocks| + 1 + n && Same(a.g, g) && g.cur == a.g.cur
    ensures forall b :: |a.g.blocks| <= b < |g.blocks| ==> g.blocks[b] == []
  {
    Append(a.g, 1 + n)
  }

  /** `lo <= v < hi` */
  function RangeTests(g: Gen, lo: Operand, hi: Operand, v: Operand): (c: Code)
    requires g.cur < |g.blocks|
    ensures Grew(g, c.g) && Local(g, c.g) && Same(g, c.g) && Below(c.val, c.g.next)
  {
    hide Extends, Local;
    var ge := Result(g, Bin(g.next, OICmp(SGE), v, lo), TBool);
    var lt := Result(ge.g, Bin(ge.g.next, OICmp(SLT), v, hi), TBool);
    var c := Result(lt.g, AndI1(lt.g.next, ge.val, lt.val), TBool);
    Emit.EmitsTrans(g, ge.g, lt.g); Emit.EmitsTrans(g, lt.g, c.g);
    c
  }

  /** The test of one pattern against the value `v` computed before. */
  function GenPattern(g: Gen, p: Pattern, v: Operand): (c: Code)
    requires g.cur < |g.blocks|
    ensures Grew(g, c.g) && Local(g, c.g) && Same(g, c.g) && Below(c.val, c.g.next)
  {
    hide Extends, Local;
    match p
    case PIn(_, lo, hi) =>
      var a := GenExpr(g, lo);
      var b := GenExpr(a.g, hi);
      var c := RangeTests(b.g, a.val, b.val, v);
      Emit.EmitsTrans(g, a.g, b.g); Emit.EmitsTrans(g, b.g, c.g);
      c
    case PCmp(op, _, r) =>
      var a := GenExpr(g, r);
      var c := Result(a.g, Bin(a.g.next, OpCode(op), v, a.val), TBool);
      Emit.EmitsTrans(g, a.g, c.g);
      c
    case PVal(e) =>
      var a := GenExpr(g, e);
      var c := Result(a.g, Bin(a.g.next, OICmp(EQ), v, a.val), TBool);
      Emit.EmitsTrans(g, a.g, c.g);
      c
  }

  /** One new block `match.next`; a hit goes to `hit`. */
  function NextCheck(c: Code, hit: nat): (g: Gen)
    requires c.g.cur < |c.g.blocks|
    ensures Grew(c.g, g) && Local(c.g, g) && Same(c.g, g)
    ensures g.cur == |c.g.blocks| && g.blocks[g.cur] == []
  {
    Seal(Append(c.g, 1), CondBr(c.val, hit, |c.g.blocks|), |c.g.blocks|)
  }

  /** The chain of tests, from case `from` on; `first` is the block of case 0. */
  function GenChecks(g: Gen, arms: seq<Arm>, from: nat, v: Operand, first: nat): (r: Gen)
    requires g.cur < |g.blocks|
    ensures Grew(g, r) && Local(g, r) && Same(g, r)
    decreases |arms| - from
  {
    hide Extends, Local;
    if from >= |arms| then Nothing(g); g
    else if !arms[from].tag.Test? then GenChecks(g, arms, from + 1, v, first)
    else
      var c := GenPattern(g, arms[from].tag.p, v);
      var g1 := NextCheck(c, first + from);
      var r := GenChecks(g1, arms, from + 1, v, first);
      Emit.EmitsTrans(g, c.g, g1); Emit.EmitsTrans(g, g1, r);
      r
  }

  function GenLo(g: Gen, iter: Iter): (c: Code)
    requires g.cur < |g.blocks|
    ensures Grew(g, c.g) && Local(g, c.g) && Same(g, c.g) && Below(c.val, c.g.next)
  {
    hide Extends, Local;
    if iter.Range? then GenExpr(g, iter.lo) else Nothing(g); Code(g, Const(IntV(0)), TInt)
  }

  /** The test at the head of a range loop. */
  function ForTest(g: Gen, slot: Operand, hi: Operand): (c: Code)
    requires g.cur < |g.blocks|
    ensures Grew(g, c.g) && Local(g, c.g) && Same(g, c.g) && Below(c.val, c.g.next)
  {
    hide Extends, Local;
    var cur := Result(g, Load(g.next, TInt, slot), TInt);
    var c := Result(cur.g, Bin(cur.g.next, OICmp(SLT), cur.val, hi), TBool);
    Emit.EmitsTrans(g, cur.g, c.g);
    c
  }

  /** The increment at its foot. */
  function ForStep(g: Gen, slot: Operand, cond: nat): (r: Gen)
    requires g.cur < |g.blocks|
    ensures Emits(g, r)
  {
    hide Extends, Local;
    var cur := Result(g, Load(g.next, TInt, slot), TInt);
    var next := Result(cur.g, Bin(cur.g.next, OAdd, cur.val, Const(IntV(1))), TInt);
    var g1 := Put(next.g, Store(next.val, slot));
    var r := Put(g1, Br(cond));
    EmitsTrans3(g, cur.g, next.g); EmitsTrans3(g, next.g, g1); EmitsTrans3(g, g1, r);
    r
  }

  /** Statements in order.  Nothing is emitted into a block that has ended, except the
      branches of `break` and `continue` (src/codegen/stmt.c:855-893). */
  function GenSeq(g: Gen, ss: seq<Stmt>): (r: Gen)
    requires g.cur < |g.blocks|
    ensures Emits(g, r)
    decreases ss, 0
  {
    hide Extends, Local;
    if ss == [] then Nothing(g); g
    else
      var g1 := GenStmt(g, ss[0]);
      var r := GenSeq(g1, ss[1..]);
      EmitsTrans3(g, g1, r);
      r
  }

  function GenStmt(g: Gen, s: Stmt): (r: Gen)
    requires g.cur < |g.blocks|
    ensures Emits(g, r)
    decreases s, 1
  {
    hide Extends, Local;
    Nothing(g);
    if s.Break? then (if g.brk.Some? then Put(g, Br(g.brk.value)) else g)
    else if s.Continue? then (if g.cont.Some? then Put(g, Br(g.cont.value)) else g)
    else if Terminated(g) then g
    else
      match s
      case ExprStmt(e) => GenExpr(g, e).g
      case VarDecl(ty, x, init) => GenVarDecl(g, ty, x, init)
      case Return(value) => GenReturn(g, value)
      case Unsafe(body) => GenSeq(g, body)
      case If(_, _, _) => GenIf(g, s)
      case Switch(_, _) => GenSwitch(g, s)
      case Match(_, _) => GenMatch(g, s)
      case While(_, _) => GenWhile(g, s)
      case DoWhile(_, _) => GenDoWhile(g, s)
      case For(_, _, _) => GenFor(g, s)
      case CFor(_, _, _, _) => GenCFor(g, s)
  }

  /** The arm of a conditional or of a case, closed with a branch to `m`. */
  function GenArm(g: Gen, body: seq<Stmt>, m: nat): (r: Gen)
    requires g.cur < |g.blocks|
    ensures Emits(g, r)
    decreases body, 1
  {
    hide Extends, Local;
    var g1 := GenSeq(g, body);
    var r := CloseArm(g1, m);
    EmitsTrans3(g, g1, r);
    r
  }

  /** The same for a loop's body, which has the loop's own targets. */
  function GenBody(g: Gen, body: seq<Stmt>, brk: nat, cont: nat): (r: Gen)
    requires g.cur < |g.blocks|
    ensures Emits(g, r)
    decreases body, 1
  {
    hide Extends, Local;
    var g1 := GenSeq(WithTargets(g, Some(brk), Some(cont)), body);
    var g2 := WithTargets(g1, g.brk, g.cont);
    var r := CloseArm(g2, cont);
    Retarget(g, g1, Some(brk), Some(cont));
    EmitsTrans3(g, g2, r);
    r
  }

  lemma Retarget(g: Gen, g1: Gen, brk: Option<nat>, cont: Option<nat>)
    requires Emits(WithTargets(g, brk, cont), g1)
    ensures Emits(g, WithTargets(g1, g.brk, g.cont))
  {
  }

  function GenIf(g: Gen, s: Stmt): (r: Gen)
    requires g.cur < |g.blocks| && s.If?
    ensures Emits(g, r)
    decreases s, 0
  {
    hide Extends, Local;
    var a := GenExpr(g, s.cond);
    var thn := |a.g.blocks|;
    var g1 := OpenIf(a, s.els.Else?);
    var g2 := GenArm(g1, s.thn, thn + 1);
    EmitsTrans3(g, a.g, g1); EmitsTrans3(g, g1, g2);
    EmitsTrans3(a.g, g1, g2);
    if s.els.NoElse? then
      MoveBack(g, a.g, g2, thn + 1);
      PositionAt(g2, thn + 1)
    else
      var g3 := PositionAt(g2, thn + 2);
      MoveBack(g, a.g, g2, thn + 2);
      var g4 := GenArm(g3, s.els.body, thn + 1);
      EmitsTrans3(g, g3, g4);
      MoveBack(g, a.g, g4, thn + 1);
      PositionAt(g4, thn + 1)
  }

  /** `b` was made after `a`; going there keeps what holds relative to `g`. */
  lemma MoveBack(g: Gen, a: Gen, h: Gen, b: nat)
    requires Emits(g, h) && |g.blocks| <= |a.blocks| <= b < |h.blocks|
    ensures Emits(g, PositionAt(h, b))
  {
  }

  /** Of the blocks of `g`, only those from `lo` to `hi` may have changed. */
  predicate Outside(g: Gen, r: Gen, lo: nat, hi: nat) {
    && |g.blocks| <= |r.blocks|
    && forall i :: 0 <= i < |g.blocks| && !(lo <= i < hi) ==> r.blocks[i] == g.blocks[i]
  }

  /** The bodies of the cases, each in its own block. */
  function GenArms(g: Gen, arms: seq<Arm>, from: nat, first: nat, merge: nat): (r: Gen)
    requires g.cur < |g.blocks|
    requires from <= |arms| && first + |arms| <= |g.blocks|
    ensures Grew(g, r) && Scoped(g, r) && Outside(g, r, first + from, first + |arms|)
    decreases arms, |arms| - from
  {
    hide Extends, Local;
    if from == |arms| then Nothing(g); g
    else
      var g1 := PositionAt(g, first + from);
      var g2 := GenArm(g1, arms[from].body, merge);
      var r := GenArms(g2, arms, from + 1, first, merge);
      GrewTrans(g, g1, g2); GrewTrans(g, g2, r);
      OutsideStep(g, g1, g2, r, first + from, first + |arms|);
      r
  }

  lemma OutsideStep(g: Gen, g1: Gen, g2: Gen, r: Gen, lo: nat, hi: nat)
    requires lo < hi <= |g.blocks|
    requires g1 == g.(cur := lo) && Local(g1, g2) && Outside(g2, r, lo + 1, hi)
    ensures Outside(g, r, lo, hi)
  {
  }

  /** From a statement's start through its cases to the block where they meet. */
  lemma ArmsEmit(g: Gen, h: Gen, r: Gen, merge: nat, n: nat)
    requires Emits(g, h) && |g.blocks| <= merge && merge + 1 + n <= |h.blocks|
    requires Grew(h, r) && Scoped(h, r) && Outside(h, r, merge + 1, merge + 1 + n)
    ensures Emits(g, PositionAt(r, merge))
  {
  }

  function GenSwitch(g: Gen, s: Stmt): (r: Gen)
    requires g.cur < |g.blocks| && s.Switch?
    ensures Emits(g, r)
    decreases s, 0
  {
    hide Extends, Local;
    var a := GenExpr(g, s.e);
    var merge := |a.g.blocks|;
    var g1 := OpenArms(a, |s.arms|);
    var default := DefaultBlock(Semantics.LastDefault(s.arms), merge + 1, merge);
    var g2 := Put(g1, Instr.Switch(a.val, default, SwitchTable(s.arms, merge + 1)));
    var g3 := GenArms(g2, s.arms, 0, merge + 1, merge);
    EmitsTrans3(g, a.g, g1); EmitsTrans3(g, g1, g2);
    ArmsEmit(g, g2, g3, merge, |s.arms|);
    PositionAt(g3, merge)
  }

  function GenMatch(g: Gen, s: Stmt): (r: Gen)
    requires g.cur < |g.blocks| && s.Match?
    ensures Emits(g, r)
    decreases s, 0
  {
    hide Extends, Local;
    var a := GenExpr(g, s.e);
    var merge := |a.g.blocks|;
    var g1 := OpenArms(a, |s.arms|);
    var g2 := GenChecks(g1, s.arms, 0, a.val, merge + 1);
    var g3 := Put(g2, Br(DefaultBlock(Semantics.LastDefault(s.arms), merge + 1, merge)));
    var g4 := GenArms(g3, s.arms, 0, merge + 1, merge);
    EmitsTrans3(g, a.g, g1); EmitsTrans3(g, g1, g2); EmitsTrans3(g, g2, g3);
    ArmsEmit(g, g3, g4, merge, |s.arms|);
    PositionAt(g4, merge)
  }

  function GenWhile(g: Gen, s: Stmt): (r: Gen)
    requires g.cur < |g.blocks| && s.While?
    ensures Emits(g, r)
    decreases s, 0
  {
    hide Extends, Local;
    var cond, body, end := |g.blocks|, |g.blocks| + 1, |g.blocks| + 2;
    var g1 := Seal(OpenLoop(g, 3), Br(cond), cond);
    var a := GenExpr(g1, s.cond);
    var g2 := Seal(a.g, CondBr(a.val, body, end), body);
    var g3 := GenBody(g2, s.body, end, cond);
    MoveBack(g, g, OpenLoop(g, 3), cond); SealBack(g, OpenLoop(g, 3), Br(cond), cond);
    EmitsTrans3(g, g1, a.g); SealBack(g, a.g, CondBr(a.val, body, end), body);
    EmitsTrans3(g, g2, g3); MoveBack(g, g, g3, end);
    PositionAt(g3, end)
  }

  lemma SealBack(g: Gen, h: Gen, i: Instr, b: nat)
    requires Emits(g, h) && |g.blocks| <= b < |h.blocks|
    ensures Emits(g, Seal(h, i, b))
  {
  }

  function GenDoWhile(g: Gen, s: Stmt): (r: Gen)
    requires g.cur < |g.blocks| && s.DoWhile?
    ensures Emits(g, r)
    decreases s, 0
  {
    hide Extends, Local;
    var body, cond, end := |g.blocks|, |g.blocks| + 1, |g.blocks| + 2;
    var g1 := Seal(OpenLoop(g, 3), Br(body), body);
    var g2 := GenBody(g1, s.body, end, cond);
    var g3 := PositionAt(g2, cond);
    var a := GenExpr(g3, s.cond);
    SealBack(g, OpenLoop(g, 3), Br(body), body);
    EmitsTrans3(g, g1, g2); MoveBack(g, g, g2, cond);
    EmitsTrans3(g, g3, a.g); SealBack(g, a.g, CondBr(a.val, body, end), end);
    Seal(a.g, CondBr(a.val, body, end), end)
  }

  /** The range is evaluated, then the loop variable gets its slot (stmt.c:547-562). */
  function ForInit(g: Gen, x: Name, iter: Iter): (r: (Gen, Operand))
    requires g.cur < |g.blocks|
    ensures Emits(g, r.0) && Below(r.1, r.0.next)
    ensures r.0.next > 0
  {
    hide Extends, Local;
    var lo := GenLo(g, iter);
    var hi := GenExpr(lo.g, iter.hi);
    var g1 := GenAlloca(hi.g, x, TInt);
    var g2 := Put(g1, Store(lo.val, Reg(hi.g.next)));
    EmitsTrans3(g, lo.g, hi.g); EmitsTrans3(g, hi.g, g1); EmitsTrans3(g, g1, g2);
    (g2, hi.val)
  }

  function GenFor(g: Gen, s: Stmt): (r: Gen)
    requires g.cur < |g.blocks| && s.For?
    ensures Emits(g, r)
    decreases s, 0
  {
    hide Extends, Local;
    var cond, body, incr, end := |g.blocks|, |g.blocks| + 1, |g.blocks| + 2, |g.blocks| + 3;
    var g0 := OpenLoop(g, 4);
    var (g1, hi) := ForInit(g0, s.x, s.iter);
    var slot := Reg(g1.next - 1);
    var g2 := Seal(g1, Br(cond), cond);
    var c := ForTest(g2, slot, hi);
    var g3 := Seal(c.g, CondBr(c.val, body, end), body);
    var g4 := GenBody(g3, s.body, end, incr);
    var g5 := PositionAt(g4, incr);
    var g6 := ForStep(g5, slot, cond);
    EmitsTrans3(g, g0, g1); SealBack(g, g1, Br(cond), cond);
    EmitsTrans3(g, g2, c.g); SealBack(g, c.g, CondBr(c.val, body, end), body);
    EmitsTrans3(g, g3, g4); MoveBack(g, g, g4, incr);
    EmitsTrans3(g, g5, g6); MoveBack(g, g, g6, end);
    PositionAt(g6, end)
  }

  function CondHead(g: Gen, c: Option<Expr>, body: nat, end: nat): (r: Gen)
    requires g.cur < |g.blocks| && body < |g.blocks|
    ensures Grew(g, r) && Same(g, r)
    ensures r.cur == body
  {
    hide Extends, Local;
    if c.None? then Seal(g, Br(body), body) else
    var a := GenExpr(g, c.value);
    var r := Seal(a.g, CondBr(a.val, body, end), body);
    GrewTrans(g, a.g, r);
    r
  }

  function UpdateTail(g: Gen, u: Option<Expr>, cond: nat): (r: Gen)
    requires g.cur < |g.blocks|
    ensures Emits(g, r)
  {
    hide Extends, Local;
    if u.None? then Put(g, Br(cond)) else
    var a := GenExpr(g, u.value);
    var r := Put(a.g, Br(cond));
    EmitsTrans3(g, a.g, r);
    r
  }

  function GenCFor(g: Gen, s: Stmt): (r: Gen)
    requires g.cur < |g.blocks| && s.CFor?
    ensures Emits(g, r)
    decreases s, 0
  {
    hide Extends, Local;
    var cond, body, update, end := |g.blocks|, |g.blocks| + 1, |g.blocks| + 2, |g.blocks| + 3;
    var g0 := OpenLoop(g, 4);
    var g1 := if s.finit.None? then g0 else GenStmt(g0, s.finit.value);
    var g2 := Seal(g1, Br(cond), cond);
    var g3 := CondHead(g2, s.fcond, body, end);
    var g4 := GenBody(g3, s.body, end, update);
    var g5 := PositionAt(g4, update);
    var g6 := UpdateTail(g5, s.update, cond);
    Nothing(g0);
    EmitsTrans3(g, g0, g1); SealBack(g, g1, Br(cond), cond);
    CondHeadBack(g, g2, s.fcond, body, end); EmitsTrans3(g, g3, g4); MoveBack(g, g, g4, update);
    EmitsTrans3(g, g5, g6); MoveBack(g, g, g6, end);
    PositionAt(g6, end)
  }

  lemma CondHeadBack(g: Gen, h: Gen, c: Option<Expr>, body: nat, end: nat)
    requires Emits(g, h) && |g.blocks| <= body < |h.blocks|
    ensures Emits(g, CondHead(h, c, body, end))
  {
    hide Extends, Local;
    if c.None? {
      SealBack(g, h, Br(body), body);
    } else {
      var a := GenExpr(h, c.value);
      EmitsTrans3(g, h, a.g);
      SealBack(g, a.g, CondBr(a.val, body, end), body);
    }
  }

  /** Parameters get slots in the entry block; the value of parameter `i` is register `i`. */
  function GenParams(g: Gen, params: seq<Param>, from: nat): (r: Gen)
    requires g.cur < |g.blocks|
    ensures Emits(g, r)
    decreases |params| - from
  {
    hide Extends, Local;
    if from >= |params| then Nothing(g); g
    else
      var g1 := GenAlloca(g, params[from].x, params[from].ty);
      var g2 := Put(g1, Store(Reg(from), Reg(g.next)));
      var r := GenParams(g2, params, from + 1);
      EmitsTrans3(g, g1, g2); EmitsTrans3(g, g2, r);
      r
  }

  function Entry(f: Func, vars: seq<Var>): Gen {
    Gen([[]], 0, |f.params|, vars, None, None, false)
  }

  /** A function body that can fall off its end returns zero, `false` or nothing. */
  function CloseFunc(g: Gen, ret: Option<Ty>): (r: Gen)
    requires g.cur < |g.blocks|
    ensures Emits(g, r)
  {
    hide Extends, Local;
    if Terminated(g) then Nothing(g); g
    else Put(g, if ret.None? then RetVoid else Ret(Const(Zero(ret.value))))
  }

  /** The finished function.  `vars` is the registry left by the declarations before it. */
  function GenFunc(f: Func, vars: seq<Var>): Gen {
    CloseFunc(GenSeq(GenParams(Entry(f, vars), f.params, 0), f.body), f.ret)
  }

  /** The registry it leaves: locals are dropped, parameters stay (src/codegen/decl.c:131-146). */
  function VarsAfter(f: Func, vars: seq<Var>): seq<Var> {
    GenParams(Entry(f, vars), f.params, 0).vars
  }
}
