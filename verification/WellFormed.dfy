/** Emitted control-flow graphs are well formed exactly when no `break` or `continue` is
    emitted into a block that has already ended. */

module WellFormed {
  import opened Int64
  import opened Options
  import opened Syntax
  import opened Values
  import opened Ir
  import opened Emit
  import opened EmitStmt
  import Semantics
  import Codegen
  import Names
  import SimExpr
  import SimStmt
  import Compile

  predicate Sealed(b: Block) {
    b != [] && IsTerminator(b[|b| - 1]) && forall k :: 0 <= k < |b| - 1 ==> !IsTerminator(b[k])
  }

  predicate Open(b: Block) {
    forall k :: 0 <= k < |b| ==> !IsTerminator(b[k])
  }

  function Next(b: Block): set<nat> {
    if b == [] then {} else Targets(b[|b| - 1])
  }

  function Preds(code: Cfg, t: nat): set<nat> {
    set j | 0 <= j < |code| && t in Next(code[j])
  }

  predicate HasPhi(b: Block) {
    exists k :: 0 <= k < |b| && b[k].Phi?
  }

  /** A phi comes first in its block and lists exactly the blocks that branch there. */
  predicate PhisExact(code: Cfg, i: nat)
    requires i < |code|
  {
    forall k :: 0 <= k < |code[i]| && code[i][k].Phi? ==>
      k == 0 && code[i][k].from0 != code[i][k].from1 && Preds(code, i) == {code[i][k].from0, code[i][k].from1}
  }

  predicate TargetsExist(code: Cfg) {
    forall i, t :: 0 <= i < |code| && t in Next(code[i]) ==> t < |code|
  }

  predicate WellFormed(code: Cfg) {
    && (forall i :: 0 <= i < |code| ==> Sealed(code[i]))
    && TargetsExist(code)
    && (forall i :: 0 <= i < |code| ==> PhisExact(code, i))
  }

  /** A function under construction: the blocks in `open` have not ended yet. */
  predicate Forming(g: Gen, open: set<nat>) {
    && g.cur < |g.blocks|
    && (forall i :: i in open ==> i < |g.blocks|)
    && (forall i :: 0 <= i < |g.blocks| ==> if i in open then Open(g.blocks[i]) else Sealed(g.blocks[i]))
    && TargetsExist(g.blocks)
    && (forall i :: 0 <= i < |g.blocks| ==> PhisExact(g.blocks, i))
  }

  /** From `g` to `g1` no block got a phi, and none outside `ts` a new predecessor. */
  predicate Quiet(g: Gen, g1: Gen, ts: set<nat>) {
    && |g.blocks| <= |g1.blocks|
    && forall t :: 0 <= t < |g.blocks| ==>
      && (HasPhi(g1.blocks[t]) <==> HasPhi(g.blocks[t]))
      && (t !in ts ==> Preds(g1.blocks, t) == Preds(g.blocks, t))
  }

  /** `break` and `continue` go to blocks that have no phi. */
  function Labels(g: Gen): set<nat> {
    (if g.brk.Some? then {g.brk.value} else {}) + (if g.cont.Some? then {g.cont.value} else {})
  }

  /** Blocks that may be branched to. */
  predicate Free(g: Gen, ts: set<nat>) {
    forall t :: t in ts ==> t < |g.blocks| && !HasPhi(g.blocks[t])
  }

  lemma QuietTrans(a: Gen, b: Gen, c: Gen, ts: set<nat>, us: set<nat>, all: set<nat>)
    requires Quiet(a, b, ts) && Quiet(b, c, us)
    requires forall t :: t in ts + us && t < |a.blocks| ==> t in all
    ensures Quiet(a, c, all)
  {
  }

  lemma FreeLater(g: Gen, g1: Gen, ts: set<nat>, us: set<nat>)
    requires Free(g, ts) && Quiet(g, g1, us)
    ensures Free(g1, ts)
  {
  }

  function Fresh(lo: nat, n: nat): (r: set<nat>)
    ensures forall i: nat :: i in r <==> lo <= i < lo + n
  {
    if n == 0 then {} else Fresh(lo, n - 1) + {lo + n - 1}
  }

  lemma AppendForming(g: Gen, n: nat, open: set<nat>)
    requires Forming(g, open)
    ensures var g1 := Append(g, n);
      && Forming(g1, open + Fresh(|g.blocks|, n)) && Quiet(g, g1, {})
      && (forall t :: |g.blocks| <= t < |g1.blocks| ==> Preds(g1.blocks, t) == {} && !HasPhi(g1.blocks[t]))
  {
    var g1 := Append(g, n);
    forall i | 0 <= i < |g1.blocks| ensures Next(g1.blocks[i]) == if i < |g.blocks| then Next(g.blocks[i]) else {} {
    }
    forall t: nat ensures Preds(g1.blocks, t) == Preds(g.blocks, t) {
    }
    forall i | 0 <= i < |g1.blocks| ensures PhisExact(g1.blocks, i) {
      if i < |g.blocks| { assert PhisExact(g.blocks, i); }
    }
  }

  lemma InstrForming(g: Gen, i: Instr, open: set<nat>)
    requires Forming(g, open) && g.cur in open && !IsTerminator(i) && !i.Phi?
    ensures Forming(Put(g, i), open) && Quiet(g, Put(g, i), {})
  {
    var g1 := Put(g, i);
    SameNext(g, i);
    var b, b1 := g.blocks[g.cur], g1.blocks[g.cur];
    forall k | 0 <= k < |b1| ensures b1[k] == if k < |b| then b[k] else i { }
    assert HasPhi(b1) <==> HasPhi(b) by {
      if HasPhi(b) { var k :| 0 <= k < |b| && b[k].Phi?; assert b1[k].Phi?; }
    }
    forall j | 0 <= j < |g1.blocks| ensures PhisExact(g1.blocks, j) {
      assert PhisExact(g.blocks, j);
    }
  }

  lemma SameNext(g: Gen, i: Instr)
    requires g.cur < |g.blocks| && Open(g.blocks[g.cur]) && !IsTerminator(i)
    ensures forall t: nat :: Preds(Put(g, i).blocks, t) == Preds(g.blocks, t)
    ensures forall j :: 0 <= j < |g.blocks| ==> Next(Put(g, i).blocks[j]) == Next(g.blocks[j])
  {
  }

  /** A branch ends the insert block; its targets, which have no phi, gain one predecessor. */
  lemma JumpForming(g: Gen, i: Instr, open: set<nat>)
    requires Forming(g, open) && g.cur in open && IsTerminator(i) && Free(g, Targets(i))
    ensures var g1 := Put(g, i);
      && Forming(g1, open - {g.cur}) && Quiet(g, g1, Targets(i))
      && (forall t: nat :: Preds(g1.blocks, t) == Preds(g.blocks, t) + if t in Targets(i) then {g.cur} else {})
  {
    var g1 := Put(g, i);
    var b, b1 := g.blocks[g.cur], g1.blocks[g.cur];
    assert Next(b1) == Targets(i);
    assert Next(b) == {} by { OpenNext(b); }
    forall j | 0 <= j < |g1.blocks| && j != g.cur ensures Next(g1.blocks[j]) == Next(g.blocks[j]) { }
    forall t: nat ensures Preds(g1.blocks, t) == Preds(g.blocks, t) + (if t in Targets(i) then {g.cur} else {}) { }
    forall k | 0 <= k < |b1| ensures b1[k] == if k < |b| then b[k] else i { }
    assert HasPhi(b1) <==> HasPhi(b) by {
      if HasPhi(b) { var k :| 0 <= k < |b| && b[k].Phi?; assert b1[k].Phi?; }
    }
    forall j | 0 <= j < |g1.blocks| ensures PhisExact(g1.blocks, j) {
      assert PhisExact(g.blocks, j);
      forall k | 0 <= k < |g1.blocks[j]| && g1.blocks[j][k].Phi? ensures j !in Targets(i) {
        assert g.blocks[j][k].Phi?;
      }
    }
  }

  lemma OpenNext(b: Block)
    requires Open(b)
    ensures Next(b) == {}
  {
  }

  lemma PhiForming(g: Gen, i: Instr, open: set<nat>)
    requires Forming(g, open) && g.cur in open && i.Phi? && g.blocks[g.cur] == []
    requires i.from0 != i.from1 && Preds(g.blocks, g.cur) == {i.from0, i.from1}
    ensures Forming(Put(g, i), open)
    ensures forall t :: 0 <= t < |g.blocks| ==> Preds(Put(g, i).blocks, t) == Preds(g.blocks, t)
    ensures forall t :: 0 <= t < |g.blocks| && t != g.cur ==> Put(g, i).blocks[t] == g.blocks[t]
  {
    var g1 := Put(g, i);
    SameNext(g, i);
    forall j | 0 <= j < |g1.blocks| ensures PhisExact(g1.blocks, j) {
      assert PhisExact(g.blocks, j);
    }
  }

  /** From `g`, whose insert block was open, to `g1`, whose insert block is. */
  predicate Moved(g: Gen, g1: Gen, open: set<nat>) {
    Forming(g1, open - {g.cur} + {g1.cur}) && Quiet(g, g1, {})
  }

  lemma FormingMoved(g: Gen, b: nat, open: set<nat>)
    requires Forming(g, open) && b < |g.blocks|
    ensures Forming(PositionAt(g, b), open)
  {
  }

  lemma MovedTrans(a: Gen, b: Gen, c: Gen, open: set<nat>)
    requires Forming(a, open) && Local(a, b)
    requires Moved(a, b, open) && Moved(b, c, open - {a.cur} + {b.cur})
    ensures Moved(a, c, open)
  {
    hide Quiet, Local;
    LocalCur(a, b);
    assert open - {a.cur} + {b.cur} - {b.cur} + {c.cur} == open - {a.cur} + {c.cur};
    QuietTrans(a, b, c, {}, {}, {});
  }

  lemma LocalCur(a: Gen, b: Gen)
    requires Local(a, b)
    ensures b.cur == a.cur || |a.blocks| <= b.cur
  {
  }

  lemma MovedNot(g: Gen, open: set<nat>)
    requires Forming(g, open) && g.cur in open
    ensures Moved(g, g, open)
  {
    assert open - {g.cur} + {g.cur} == open;
  }

  /** One more instruction with a result. */
  lemma MovedResult(g: Gen, a: Gen, i: Instr, ty: Ty, open: set<nat>)
    requires Forming(g, open) && Local(g, a) && Moved(g, a, open) && !IsTerminator(i) && !i.Phi?
    ensures Moved(g, Result(a, i, ty).g, open)
  {
    hide Quiet, Local, Open, Sealed, PhisExact, TargetsExist;
    var c := Result(a, i, ty).g;
    var open1 := open - {g.cur} + {a.cur};
    InstrForming(a, i, open1);
    QuietTrans(g, a, Put(a, i), {}, {}, {});
    SameBlocks(Put(a, i), c, open1);
    SameBlocksQuiet(g, Put(a, i), c, {});
  }

  lemma MovedPut(g: Gen, a: Gen, i: Instr, open: set<nat>)
    requires Forming(g, open) && Local(g, a) && Moved(g, a, open) && !IsTerminator(i) && !i.Phi?
    ensures Moved(g, Put(a, i), open)
  {
    hide Quiet, Local, Open, Sealed, PhisExact, TargetsExist;
    InstrForming(a, i, open - {g.cur} + {a.cur});
    QuietTrans(g, a, Put(a, i), {}, {}, {});
  }

  lemma SameBlocks(g: Gen, g1: Gen, open: set<nat>)
    requires Forming(g, open) && g1.blocks == g.blocks && g1.cur < |g.blocks|
    ensures Forming(g1, open)
  {
  }

  lemma SameBlocksQuiet(g: Gen, g1: Gen, g2: Gen, ts: set<nat>)
    requires Quiet(g, g1, ts) && g2.blocks == g1.blocks
    ensures Quiet(g, g2, ts)
  {
  }

  /** The code of any expression, well typed or not. */
  lemma {:induction false} ExprForming(g: Gen, e: Expr, open: set<nat>)
    requires Forming(g, open) && g.cur in open
    ensures Moved(g, GenExpr(g, e).g, open)
    decreases e, 1
  {
    hide Extends, Local, Grew, Quiet, Moved, Lookup, Put, Append, Below, Forming;
    FormingCur(g, open);
    MovedNot(g, open);
    match e
    case IntLit(_) =>
    case Ident(x) =>
      FailMoved(g, open);
      if Lookup(g.vars, x).Some? {
        var v := Lookup(g.vars, x).value;
        MovedResult(g, g, Load(g.next, v.ty, v.ptr), v.ty, open) by { LocalSame(g); }
      }
    case Binary(op, l, r) =>
      var a := GenExpr(g, l);
      ExprForming(g, l, open);
      ExprAfter(g, a.g, r, open);
      var b := GenExpr(a.g, r);
      Emit.EmitsTrans(g, a.g, b.g);
      MovedResult(g, b.g, Bin(b.g.next, OpCode(op), a.val, b.val), OpType(OpCode(op)), open);
    case And(_, _) => ShortForming(g, e, open);
    case Or(_, _) => ShortForming(g, e, open);
    case Ternary(_, _, _) => TernaryForming(g, e, open);
    case Neg(e1) =>
      var a := GenExpr(g, e1);
      ExprForming(g, e1, open);
      MovedResult(g, a.g, Bin(a.g.next, OSub, Const(IntV(0)), a.val), TInt, open);
    case BitNot(e1) =>
      var a := GenExpr(g, e1);
      ExprForming(g, e1, open);
      MovedResult(g, a.g, XorOnes(a.g.next, a.val), TInt, open);
    case IncDec(inc, prefix, x) =>
      FailMoved(g, open);
      if Lookup(g.vars, x).Some? {
        IncDecForming(g, Lookup(g.vars, x).value, inc, prefix, open);
      }
    case Assign(x, aop, value) =>
      FailMoved(g, open);
      if Lookup(g.vars, x).Some? {
        ExprForming(g, value, open);
        AssignForming(g, GenExpr(g, value), Lookup(g.vars, x).value, aop, open);
      }
  }

  lemma FormingCur(g: Gen, open: set<nat>)
    requires Forming(g, open)
    ensures g.cur < |g.blocks|
  {
  }

  lemma LocalSame(g: Gen)
    ensures Local(g, g)
  {
  }

  lemma FailMoved(g: Gen, open: set<nat>)
    requires Forming(g, open) && g.cur in open
    ensures Moved(g, Fail(g).g, open)
  {
    assert open - {g.cur} + {g.cur} == open;
  }

  /** A second operand. */
  lemma {:induction false} ExprAfter(g: Gen, a: Gen, e: Expr, open: set<nat>)
    requires Forming(g, open) && Local(g, a) && Moved(g, a, open)
    ensures a.cur < |a.blocks| && Moved(g, GenExpr(a, e).g, open)
    decreases e, 2
  {
    hide Local, Quiet, GenExpr, Open, Sealed, PhisExact, TargetsExist;
    ExprForming(a, e, open - {g.cur} + {a.cur});
    MovedTrans(g, a, GenExpr(a, e).g, open);
  }

  lemma IncDecForming(g: Gen, v: Var, inc: bool, prefix: bool, open: set<nat>)
    requires Forming(g, open) && g.cur in open
    ensures g.cur < |g.blocks| && Moved(g, GenIncDec(g, v, inc, prefix).g, open)
  {
    hide Extends, Quiet, Moved, Put, Below, Local, Open, Sealed, PhisExact, TargetsExist;
    var before := Result(g, Load(g.next, v.ty, v.ptr), v.ty);
    var g1 := before.g;
    var after := Result(g1, Bin(g1.next, if inc then OAdd else OSub, before.val, Const(IntV(1))), v.ty);
    MovedNot(g, open);
    LocalSame(g);
    MovedResult(g, g, Load(g.next, v.ty, v.ptr), v.ty, open);
    MovedResult(g, g1, Bin(g1.next, if inc then OAdd else OSub, before.val, Const(IntV(1))), v.ty, open);
    Emit.EmitsTrans(g, g1, after.g);
    MovedPut(g, after.g, Store(after.val, v.ptr), open);
  }

  lemma AssignForming(g: Gen, a: Code, v: Var, aop: AssignOp, open: set<nat>)
    requires Forming(g, open) && Local(g, a.g) && Grew(g, a.g) && Moved(g, a.g, open) && Below(a.val, a.g.next)
    ensures a.g.cur < |a.g.blocks| && Moved(g, GenAssign(a, v, aop).g, open)
  {
    hide Extends, Quiet, Moved, Put, Local, Open, Sealed, PhisExact, TargetsExist;
    if aop == AssignOp.Set {
      MovedPut(g, a.g, Store(a.val, v.ptr), open);
    } else {
      var loaded := Result(a.g, Load(a.g.next, a.ty, v.ptr), a.ty);
      var g1 := loaded.g;
      var res := Result(g1, Bin(g1.next, AssignCode(aop), loaded.val, a.val), a.ty);
      MovedResult(g, a.g, Load(a.g.next, a.ty, v.ptr), a.ty, open);
      Emit.EmitsTrans(g, a.g, g1);
      MovedResult(g, g1, Bin(g1.next, AssignCode(aop), loaded.val, a.val), a.ty, open);
      Emit.EmitsTrans(g, g1, res.g);
      MovedPut(g, res.g, Store(res.val, v.ptr), open);
    }
  }

  /** A branch to `merge` and on to block `b`. */
  lemma JoinForming(g: Gen, merge: nat, b: nat, open: set<nat>)
    requires Forming(g, open) && g.cur in open && Free(g, {merge}) && b < |g.blocks|
    ensures var g1 := PositionAt(Put(g, Br(merge)), b);
      && Forming(g1, open - {g.cur}) && Quiet(g, g1, {merge})
      && Preds(g1.blocks, merge) == Preds(g.blocks, merge) + {g.cur}
  {
    hide Open, Sealed, PhisExact, TargetsExist;
    JumpForming(g, Br(merge), open);
    var g0 := Put(g, Br(merge));
    SameBlocks(g0, PositionAt(g0, b), open - {g.cur});
    SameBlocksQuiet(g, g0, PositionAt(g0, b), {merge});
  }

  lemma JoinFree(g: Gen, merge: nat, b: nat, t: nat)
    requires g.cur < |g.blocks| && b < |g.blocks| && Free(g, {t}) && Quiet(g, PositionAt(Put(g, Br(merge)), b), {merge})
    ensures Free(PositionAt(Put(g, Br(merge)), b), {t})
    ensures t != merge ==> Preds(PositionAt(Put(g, Br(merge)), b).blocks, t) == Preds(g.blocks, t)
  {
  }

  /** The phi that ends an expression of several blocks. */
  lemma PhiMoved(g: Gen, h: Gen, i: Instr, ty: Ty, open: set<nat>)
    requires Forming(h, open) && h.cur in open && i.Phi? && h.blocks[h.cur] == [] && |g.blocks| <= h.cur
    requires i.from0 != i.from1 && Preds(h.blocks, h.cur) == {i.from0, i.from1}
    requires Quiet(g, h, {})
    ensures Forming(Result(h, i, ty).g, open) && Quiet(g, Result(h, i, ty).g, {}) && Result(h, i, ty).g.cur == h.cur
  {
    hide Open, Sealed, PhisExact, TargetsExist;
    PhiForming(h, i, open);
    var c := Result(h, i, ty).g;
    SameBlocks(Put(h, i), c, open);
    forall t | 0 <= t < |g.blocks|
      ensures Preds(c.blocks, t) == Preds(h.blocks, t) && c.blocks[t] == h.blocks[t]
    {
      assert Preds(Put(h, i).blocks, t) == Preds(h.blocks, t);
    }
  }

  /** Fresh blocks and a two-way branch to the first two of `thn`, `els`. */
  lemma ForkForming(g: Gen, n: nat, c: Operand, thn: nat, els: nat, b: nat, open: set<nat>)
    requires Forming(g, open) && g.cur in open
    requires |g.blocks| <= thn < |g.blocks| + n && |g.blocks| <= els < |g.blocks| + n && |g.blocks| <= b < |g.blocks| + n
    ensures var g1 := PositionAt(Put(Append(g, n), CondBr(c, thn, els)), b);
      && Forming(g1, open - {g.cur} + Fresh(|g.blocks|, n)) && Quiet(g, g1, {})
      && (forall t :: |g.blocks| <= t < |g.blocks| + n ==>
          Free(g1, {t}) && Preds(g1.blocks, t) == if t == thn || t == els then {g.cur} else {})
  {
    hide Open, Sealed, PhisExact, TargetsExist, HasPhi, Next, Forming, Quiet, Preds;
    FormingCur(g, open);
    FormingBelow(g, open);
    var g0 := Append(g, n);
    var i := CondBr(c, thn, els);
    AppendForming(g, n, open);
    var open0 := open + Fresh(|g.blocks|, n);
    JumpForming(g0, i, open0);
    assert open0 - {g.cur} == open - {g.cur} + Fresh(|g.blocks|, n);
    var g1 := PositionAt(Put(g0, i), b);
    SameBlocks(Put(g0, i), g1, open0 - {g.cur});
    SameBlocksQuiet(g0, Put(g0, i), g1, {thn, els});
    QuietTrans(g, g0, g1, {}, {thn, els}, {});
    forall t | |g.blocks| <= t < |g.blocks| + n
      ensures Free(g1, {t}) && Preds(g1.blocks, t) == if t == thn || t == els then {g.cur} else {}
    {
      FreeLater(g0, g1, {t}, {thn, els});
    }
  }

  lemma UnfoldShort(g: Gen, e: Expr)
    requires g.cur < |g.blocks| && (e.And? || e.Or?)
    ensures var a := GenExpr(g, e.left);
      var b := GenExpr(OpenShort(a, e.And?), e.right);
      GenShort(g, e) == CloseShort(a, b, e.And?)
  {
    hide GenExpr, Extends, Local;
  }

  lemma {:induction false} ShortForming(g: Gen, e: Expr, open: set<nat>)
    requires Forming(g, open) && g.cur in open && (e.And? || e.Or?)
    ensures Moved(g, GenShort(g, e).g, open)
    decreases e, 0
  {
    hide Extends, Local, Quiet, GenExpr, GenShort, Forming, Put, Append, Preds, Free, HasPhi;
    FormingCur(g, open);
    UnfoldShort(g, e);
    var a := GenExpr(g, e.left);
    var g1 := OpenShort(a, e.And?);
    var b := GenExpr(g1, e.right);
    var g2 := MergeShort(a, b, e.And?);
    var rhs, merge := |a.g.blocks|, |a.g.blocks| + 1;
    ExprForming(g, e.left, open);
    var open0, open1 := open - {g.cur} + {a.g.cur}, open - {g.cur} + {rhs, merge};
    LocalCur(g, a.g);
    FormingBelow(g, open);
    ForkForming(a.g, 2, a.val, if e.And? then rhs else merge, if e.And? then merge else rhs, rhs, open0);
    assert open0 - {a.g.cur} + Fresh(rhs, 2) == open1;
    ExprForming(g1, e.right, open1);
    LocalCur(g1, b.g);
    QuietAt(g1, b.g, merge);
    var open2 := open1 - {rhs} + {b.g.cur};
    JoinForming(b.g, merge, merge, open2);
    assert open2 - {b.g.cur} == open - {g.cur} + {merge};
    QuietTrans(a.g, g1, b.g, {}, {}, {});
    QuietTrans(a.g, b.g, g2, {}, {merge}, {});
    QuietTrans(g, a.g, g2, {}, {}, {});
    QuietSize(g, a.g);
    PhiMoved(g, g2, Phi(g2.next, Const(BoolV(!e.And?)), a.g.cur, b.val, b.g.cur), TBool, open - {g.cur} + {merge});
  }

  lemma FormingBelow(g: Gen, open: set<nat>)
    requires Forming(g, open)
    ensures forall i :: i in open ==> i < |g.blocks|
  {
  }

  lemma QuietAt(g: Gen, g1: Gen, t: nat)
    requires Quiet(g, g1, {}) && Free(g, {t})
    ensures Free(g1, {t}) && Preds(g1.blocks, t) == Preds(g.blocks, t)
  {
  }

  lemma QuietSize(g: Gen, g1: Gen)
    requires Quiet(g, g1, {})
    ensures |g.blocks| <= |g1.blocks|
  {
  }

  lemma TernarySizes(g: Gen, e: Expr)
    requires g.cur < |g.blocks| && e.Ternary?
    ensures var a := GenExpr(g, e.cond);
      && a.g.cur < |a.g.blocks| && |g.blocks| <= |a.g.blocks|
      && var b := GenExpr(OpenTernary(a), e.thn);
         && b.g.cur < |b.g.blocks| && |b.g.blocks| >= |a.g.blocks| + 3
         && MiddleTernary(a, b).cur < |MiddleTernary(a, b).blocks|
         && var d := GenExpr(MiddleTernary(a, b), e.els);
            d.g.cur < |d.g.blocks| && |d.g.blocks| >= |b.g.blocks|
  {
    hide Extends, Local, GenExpr;
  }

  lemma {:induction false} TernaryForming(g: Gen, e: Expr, open: set<nat>)
    requires Forming(g, open) && g.cur in open && e.Ternary?
    ensures Moved(g, GenTernary(g, e).g, open)
    decreases e, 0
  {
    hide Extends, Local, Grew, Quiet, GenExpr, GenTernary, Forming, Put, Append, Preds, Free;
    FormingCur(g, open);
    TernarySizes(g, e);
    Codegen.UnfoldTernary(g, e);
    var a := GenExpr(g, e.cond);
    var g1 := OpenTernary(a);
    var b := GenExpr(g1, e.thn);
    var g2 := MiddleTernary(a, b);
    var d := GenExpr(g2, e.els);
    var g3 := MergeTernary(a, b, d);
    var thn, els, merge := |a.g.blocks|, |a.g.blocks| + 1, |a.g.blocks| + 2;
    ExprForming(g, e.cond, open);
    var base := open - {g.cur};
    LocalCur(g, a.g);
    FormingBelow(g, open);
    ForkForming(a.g, 3, a.val, thn, els, thn, base + {a.g.cur});
    assert base + {a.g.cur} - {a.g.cur} + Fresh(thn, 3) == base + {thn, els, merge};
    ExprForming(g1, e.thn, base + {thn, els, merge});
    LocalCur(g1, b.g);
    QuietAt(g1, b.g, merge);
    var open1 := base + {thn, els, merge} - {thn} + {b.g.cur};
    JoinForming(b.g, merge, els, open1);
    JoinFree(b.g, merge, els, merge);
    assert open1 - {b.g.cur} == base + {els, merge};
    ExprForming(g2, e.els, base + {els, merge});
    LocalCur(g2, d.g);
    QuietAt(g2, d.g, merge);
    var open2 := base + {els, merge} - {els} + {d.g.cur};
    JoinForming(d.g, merge, merge, open2);
    assert open2 - {d.g.cur} == base + {merge};
    QuietTrans(a.g, g1, b.g, {}, {}, {});
    QuietTrans(a.g, b.g, g2, {}, {merge}, {});
    QuietTrans(a.g, g2, d.g, {}, {}, {});
    QuietTrans(a.g, d.g, g3, {}, {merge}, {});
    QuietTrans(g, a.g, g3, {}, {}, {});
    QuietSize(g, a.g);
    PhiMoved(g, g3, Phi(g3.next, b.val, b.g.cur, d.val, d.g.cur), b.ty, base + {merge});
  }

  /** Whether control can fall out of a statement, in a loop or not. */
  predicate Falls(s: Stmt, loop: bool)
    decreases s, 1
  {
    match s
    case Return(_) => false
    case Break => !loop
    case Continue => !loop
    case Unsafe(body) => SeqFalls(body, loop)
    case _ => true
  }

  predicate SeqFalls(ss: seq<Stmt>, loop: bool)
    decreases ss, 0
  {
    ss == [] || (Falls(ss[0], loop) && SeqFalls(ss[1..], loop))
  }

  /** No `break` or `continue` of an enclosing loop is emitted where control cannot be.
      `live` says whether control can be at the start; what follows a point it cannot pass is
      dropped, so nothing inside is looked at. */
  predicate NoDeadJump(ss: seq<Stmt>, loop: bool, live: bool)
    decreases ss, 0
  {
    ss == [] || (Clean(ss[0], loop, live) && NoDeadJump(ss[1..], loop, live && Falls(ss[0], loop)))
  }

  predicate Clean(s: Stmt, loop: bool, live: bool)
    decreases s, 1
  {
    match s
    case Break => live || !loop
    case Continue => live || !loop
    case Unsafe(body) => !live || NoDeadJump(body, loop, true)
    case If(_, thn, els) =>
      !live || (NoDeadJump(thn, loop, true) && (els.Else? ==> NoDeadJump(els.body, loop, true)))
    case Switch(_, arms) => !live || CleanArms(arms, loop)
    case Match(_, arms) => !live || CleanArms(arms, loop)
    case While(_, body) => !live || NoDeadJump(body, true, true)
    case DoWhile(body, _) => !live || NoDeadJump(body, true, true)
    case For(_, _, body) => !live || NoDeadJump(body, true, true)
    case CFor(init, _, _, body) =>
      !live || ((init.Some? ==> Clean(init.value, loop, true) && Falls(init.value, loop)) && NoDeadJump(body, true, true))
    case _ => true
  }

  predicate CleanArms(arms: seq<Arm>, loop: bool)
    decreases arms, 0
  {
    forall i :: 0 <= i < |arms| ==> NoDeadJump(arms[i].body, loop, true)
  }

  /** Where the emitter is: in an open block exactly if `live`. */
  predicate Placed(g: Gen, open: set<nat>, live: bool) {
    Forming(g, open) && Free(g, Labels(g)) && (live <==> g.cur in open)
  }

  predicate InLoop(g: Gen, loop: bool) {
    g.brk.Some? == loop && g.cont.Some? == loop
  }

  /** What emitting a statement makes of that. */
  predicate Settled(g: Gen, g1: Gen, open: set<nat>, live: bool) {
    Forming(g1, open - {g.cur} + Spot(g1, live)) && Quiet(g, g1, Labels(g))
  }

  function Spot(g: Gen, live: bool): set<nat> { if live then {g.cur} else {} }

  lemma LiveIff(g: Gen, open: set<nat>)
    requires Forming(g, open)
    ensures Terminated(g) <==> g.cur !in open
  {
  }

  lemma SettledTrans(a: Gen, b: Gen, c: Gen, open: set<nat>, l1: bool, l2: bool)
    requires Forming(a, open) && Local(a, b) && Labels(b) == Labels(a)
    requires Settled(a, b, open, l1) && Settled(b, c, open - {a.cur} + Spot(b, l1), l2)
    ensures Settled(a, c, open, l2)
  {
    hide Quiet, Local, Labels;
    LocalCur(a, b);
    FormingBelow(a, open);
    assert open - {a.cur} + Spot(b, l1) - {b.cur} == open - {a.cur};
    QuietTrans(a, b, c, Labels(a), Labels(a), Labels(a));
  }

  lemma SettledPlaced(a: Gen, b: Gen, open: set<nat>, live: bool)
    requires Forming(a, open) && Local(a, b) && Labels(b) == Labels(a) && Free(a, Labels(a))
    requires Settled(a, b, open, live)
    ensures Placed(b, open - {a.cur} + Spot(b, live), live)
  {
    hide Quiet, Local, Labels, Free;
    LocalCur(a, b);
    FormingBelow(a, open);
    FreeLater(a, b, Labels(a), Labels(a));
  }

  lemma {:induction false} SeqForming(g: Gen, ss: seq<Stmt>, open: set<nat>, loop: bool, live: bool)
    requires Placed(g, open, live) && InLoop(g, loop) && NoDeadJump(ss, loop, live)
    ensures Settled(g, GenSeq(g, ss), open, live && SeqFalls(ss, loop))
    decreases ss, 0
  {
    hide Extends, Local, Forming, Quiet, Labels, Free, GenStmt, Clean, Falls;
    FormingCur(g, open);
    if ss == [] {
      SettledHere(g, open, live);
    } else {
      var g1 := GenStmt(g, ss[0]);
      var l1 := live && Falls(ss[0], loop);
      StmtForming(g, ss[0], open, loop, live);
      LabelsSame(g, g1);
      SettledPlaced(g, g1, open, l1);
      SeqForming(g1, ss[1..], open - {g.cur} + Spot(g1, l1), loop, l1);
      SettledTrans(g, g1, GenSeq(g1, ss[1..]), open, l1, l1 && SeqFalls(ss[1..], loop));
    }
  }

  lemma LabelsSame(g: Gen, g1: Gen)
    requires g1.brk == g.brk && g1.cont == g.cont
    ensures Labels(g1) == Labels(g)
  {
  }

  lemma SettledHere(g: Gen, open: set<nat>, live: bool)
    requires Forming(g, open) && (live <==> g.cur in open)
    ensures Settled(g, g, open, live)
  {
    assert open - {g.cur} + Spot(g, live) == open;
  }

  lemma {:induction false} StmtForming(g: Gen, s: Stmt, open: set<nat>, loop: bool, live: bool)
    requires Placed(g, open, live) && InLoop(g, loop) && Clean(s, loop, live)
    ensures g.cur < |g.blocks| && Settled(g, GenStmt(g, s), open, live && Falls(s, loop))
    decreases s, 2
  {
    hide Extends, Local, Grew, Forming, Quiet, Labels, Free, Settled, GenExpr, GenSeq, GenIf, GenSwitch, GenMatch, GenWhile, GenDoWhile, GenFor, GenCFor, GenVarDecl, GenReturn, NoDeadJump, CleanArms;
    FormingCur(g, open);
    LiveIff(g, open);
    if s.Break? || s.Continue? {
      JumpSettled(g, s, open, loop, live);
    } else if !live {
      SettledHere(g, open, live);
    } else {
      match s
      case ExprStmt(e) => ExprForming(g, e, open); MovedSettled(g, GenExpr(g, e).g, open);
      case VarDecl(ty, x, init) => VarDeclForming(g, ty, x, init, open); MovedSettled(g, GenVarDecl(g, ty, x, init), open);
      case Return(value) => ReturnForming(g, value, open);
      case Unsafe(body) => SeqForming(g, body, open, loop, true);
      case If(_, _, _) => IfForming(g, s, open, loop);
      case Switch(_, _) => SwitchForming(g, s, open, loop);
      case Match(_, _) => MatchForming(g, s, open, loop);
      case While(_, _) => WhileForming(g, s, open, loop);
      case DoWhile(_, _) => DoWhileForming(g, s, open, loop);
      case For(_, _, _) => ForForming(g, s, open, loop);
      case CFor(_, _, _, _) => CForForming(g, s, open, loop);
    }
  }

  lemma JumpSettled(g: Gen, s: Stmt, open: set<nat>, loop: bool, live: bool)
    requires Placed(g, open, live) && InLoop(g, loop) && Clean(s, loop, live) && (s.Break? || s.Continue?)
    ensures g.cur < |g.blocks| && Settled(g, GenStmt(g, s), open, live && !loop)
  {
    hide Open, Sealed, PhisExact, TargetsExist, Preds, HasPhi, Next;
    if loop {
      var t := if s.Break? then g.brk.value else g.cont.value;
      JumpForming(g, Br(t), open);
      QuietTrans(g, Put(g, Br(t)), Put(g, Br(t)), {t}, {}, Labels(g));
      assert open - {g.cur} + Spot(Put(g, Br(t)), false) == open - {g.cur};
    } else {
      SettledHere(g, open, live);
    }
  }

  lemma MovedSettled(g: Gen, g1: Gen, open: set<nat>)
    requires Moved(g, g1, open)
    ensures Settled(g, g1, open, true)
  {
    hide Forming;
    QuietTrans(g, g1, g1, {}, {}, Labels(g));
  }

  lemma VarDeclForming(g: Gen, ty: Ty, x: Name, init: Option<Expr>, open: set<nat>)
    requires Forming(g, open) && g.cur in open
    ensures g.cur < |g.blocks| && Moved(g, GenVarDecl(g, ty, x, init), open)
  {
    hide Extends, Local, Quiet, Put, Open, Sealed, PhisExact, TargetsExist, GenExpr, Moved;
    MovedNot(g, open);
    LocalSame(g);
    MovedResult(g, g, Alloca(g.next, ty), ty, open);
    var g1 := GenAlloca(g, x, ty);
    MovedVars(g, Result(g, Alloca(g.next, ty), ty).g, g1, open);
    if init.Some? {
      var a := GenExpr(g1, init.value);
      ExprAfter(g, g1, init.value, open);
      Emit.EmitsTrans(g, g1, a.g);
      var v := GenConvert(a, ty);
      if a.ty != ty {
        MovedResult(g, a.g, if ty == TBool then Trunc(a.g.next, a.val) else SExt(a.g.next, a.val), ty, open);
      }
      Emit.EmitsTrans(g, a.g, v.g);
      MovedPut(g, v.g, Store(v.val, Reg(g.next)), open);
    }
  }

  lemma MovedVars(g: Gen, a: Gen, b: Gen, open: set<nat>)
    requires Moved(g, a, open) && b.blocks == a.blocks && b.cur == a.cur
    ensures Moved(g, b, open)
  {
  }

  lemma ReturnForming(g: Gen, value: Option<Expr>, open: set<nat>)
    requires Forming(g, open) && g.cur in open
    ensures g.cur < |g.blocks| && Settled(g, GenReturn(g, value), open, false)
  {
    hide Extends, Quiet, Open, Sealed, PhisExact, TargetsExist, GenExpr, Preds, HasPhi, Next, Local;
    MovedNot(g, open);
    LocalSame(g);
    var a := g;
    var i := RetVoid;
    if value.Some? {
      ExprForming(g, value.value, open);
      a, i := GenExpr(g, value.value).g, Ret(GenExpr(g, value.value).val);
    }
    LocalCur(g, a);
    JumpForming(a, i, open - {g.cur} + {a.cur});
    assert open - {g.cur} + {a.cur} - {a.cur} == open - {g.cur} + Spot(GenReturn(g, value), false);
    QuietTrans(g, a, Put(a, i), {}, {}, Labels(g));
  }

  /** A branch and on to block `b`. */
  lemma SealForming(g: Gen, i: Instr, b: nat, open: set<nat>)
    requires Forming(g, open) && g.cur in open && IsTerminator(i) && Free(g, Targets(i)) && b < |g.blocks|
    ensures Forming(Seal(g, i, b), open - {g.cur}) && Quiet(g, Seal(g, i, b), Targets(i))
  {
    hide Open, Sealed, PhisExact, TargetsExist, Quiet;
    JumpForming(g, i, open);
    SameBlocks(Put(g, i), Seal(g, i, b), open - {g.cur});
    SameBlocksQuiet(g, Put(g, i), Seal(g, i, b), Targets(i));
  }

  lemma {:induction false} ArmForming(g: Gen, body: seq<Stmt>, m: nat, open: set<nat>, loop: bool)
    requires Placed(g, open, true) && InLoop(g, loop) && NoDeadJump(body, loop, true) && Free(g, {m})
    ensures g.cur < |g.blocks| && Forming(GenArm(g, body, m), open - {g.cur})
    ensures Quiet(g, GenArm(g, body, m), Labels(g) + {m})
    decreases body, 1
  {
    hide Extends, Local, Grew, Quiet, Labels, Open, Sealed, PhisExact, TargetsExist, GenSeq, NoDeadJump, SeqFalls, Put, Free;
    SeqForming(g, body, open, loop, true);
    var g1 := GenSeq(g, body);
    var l1 := SeqFalls(body, loop);
    var open1 := open - {g.cur} + Spot(g1, l1);
    LocalCur(g, g1);
    LiveIff(g1, open1);
    FreeLater(g, g1, {m}, Labels(g));
    if l1 {
      JumpForming(g1, Br(m), open1);
      assert open1 - {g1.cur} == open - {g.cur};
      QuietTrans(g, g1, Put(g1, Br(m)), Labels(g), {m}, Labels(g) + {m});
    } else {
      assert open1 == open - {g.cur};
      QuietTrans(g, g1, g1, Labels(g), {}, Labels(g) + {m}) by { QuietSame(g1); }
    }
  }

  lemma QuietSame(g: Gen)
    ensures Quiet(g, g, {})
  {
  }

  lemma {:induction false} BodyForming(g: Gen, body: seq<Stmt>, brk: nat, cont: nat, open: set<nat>)
    requires Forming(g, open) && g.cur in open && NoDeadJump(body, true, true) && Free(g, {brk, cont})
    ensures g.cur < |g.blocks| && Forming(GenBody(g, body, brk, cont), open - {g.cur})
    ensures Quiet(g, GenBody(g, body, brk, cont), {brk, cont})
    decreases body, 2
  {
    hide Extends, Local, Grew, Quiet, Open, Sealed, PhisExact, TargetsExist, GenArm, GenBody, NoDeadJump, HasPhi;
    var g0 := WithTargets(g, Some(brk), Some(cont));
    SameBlocks(g, g0, open);
    ArmForming(g0, body, cont, open, true);
    BodyIsArm(g, body, brk, cont);
    var r := GenArm(g0, body, cont);
    SameBlocks(r, GenBody(g, body, brk, cont), open - {g.cur});
    assert Labels(g0) + {cont} == {brk, cont};
    SameBlocksQuiet(g, r, GenBody(g, body, brk, cont), {brk, cont}) by { SameStart(g, g0, r, {brk, cont}); }
  }

  lemma BodyIsArm(g: Gen, body: seq<Stmt>, brk: nat, cont: nat)
    requires g.cur < |g.blocks|
    ensures var a := GenArm(WithTargets(g, Some(brk), Some(cont)), body, cont);
      GenBody(g, body, brk, cont).blocks == a.blocks && GenBody(g, body, brk, cont).cur == a.cur
  {
    hide Extends, Local, GenSeq;
  }

  lemma SameStart(g: Gen, g0: Gen, g1: Gen, ts: set<nat>)
    requires Quiet(g0, g1, ts) && g0.blocks == g.blocks
    ensures Quiet(g, g1, ts)
  {
  }

  lemma {:induction false} IfForming(g: Gen, s: Stmt, open: set<nat>, loop: bool)
    requires Placed(g, open, true) && InLoop(g, loop) && Clean(s, loop, true) && s.If?
    ensures g.cur < |g.blocks| && Settled(g, GenIf(g, s), open, true)
    decreases s, 1
  {
    hide Extends, Local, Quiet, Labels, Forming, Free, GenExpr, GenBody, GenArm, GenArms, GenStmt, NoDeadJump, CleanArms, Put, Append, Preds, GenIf, Fresh;
    FormingCur(g, open);
    FormingBelow(g, open);
    Codegen.UnfoldIf(g, s);
    CleanIf(s, loop);
    var a := GenExpr(g, s.cond);
    var thn, merge, els, n := |a.g.blocks|, |a.g.blocks| + 1, |a.g.blocks| + 2, if s.els.Else? then 3 else 2;
    var base := open - {g.cur};
    var g1 := OpenIf(a, s.els.Else?);
    var g2 := GenArm(g1, s.thn, merge);
    ExprForming(g, s.cond, open);
    LocalCur(g, a.g);
    ForkForming(a.g, n, a.val, thn, if s.els.Else? then els else merge, thn, base + {a.g.cur});
    var rest := if s.els.Else? then {merge, els} else {merge};
    assert base + {a.g.cur} - {a.g.cur} + Fresh(thn, n) == base + {thn} + rest;
    QuietTrans(g, a.g, g1, {}, {}, {});
    FreeLater(g, g1, Labels(g), {});
    LabelsSame(g, g1);
    ArmForming(g1, s.thn, merge, base + {thn} + rest, loop);
    assert base + {thn} + rest - {thn} == base + rest;
    QuietTrans(g, g1, g2, {}, Labels(g) + {merge}, Labels(g)) by { FreeBelow(g, Labels(g)); }
    if s.els.Else? {
      var g3 := PositionAt(g2, els);
      FormingMoved(g2, els, base + rest);
      SameBlocksQuiet(g, g2, g3, Labels(g));
      FreeLater(g, g3, Labels(g), Labels(g));
      FreeLater(g1, g2, {merge}, Labels(g) + {merge});
      FreeSame(g2, g3, {merge});
      LabelsSame(g, g3);
      ArmForming(g3, s.els.body, merge, base + rest, loop);
      var g4 := GenArm(g3, s.els.body, merge);
      assert base + rest - {els} == base + {merge};
      QuietTrans(g, g3, g4, Labels(g), Labels(g) + {merge}, Labels(g)) by { FreeBelow(g, Labels(g)); }
      SettledAt(g, g4, merge, open);
    } else {
      SettledAt(g, g2, merge, open);
    }
  }

  lemma CleanIf(s: Stmt, loop: bool)
    requires s.If? && Clean(s, loop, true)
    ensures NoDeadJump(s.thn, loop, true) && (s.els.Else? ==> NoDeadJump(s.els.body, loop, true))
  {
    hide NoDeadJump;
  }

  lemma FreeBelow(g: Gen, ts: set<nat>)
    requires Free(g, ts)
    ensures forall t :: t in ts ==> t < |g.blocks|
  {
  }

  lemma FreeSame(g: Gen, g1: Gen, ts: set<nat>)
    requires Free(g, ts) && g1.blocks == g.blocks
    ensures Free(g1, ts)
  {
  }

  /** The builder ends in block `b`, the only new one still open. */
  lemma SettledAt(g: Gen, h: Gen, b: nat, open: set<nat>)
    requires Forming(h, open - {g.cur} + {b}) && Quiet(g, h, Labels(g)) && b < |h.blocks|
    ensures Settled(g, PositionAt(h, b), open, true)
  {
    hide Open, Sealed, PhisExact, TargetsExist, Quiet;
    SameBlocks(h, PositionAt(h, b), open - {g.cur} + {b});
    SameBlocksQuiet(g, h, PositionAt(h, b), Labels(g));
  }

  /** The bodies of cases `from` and up, whose blocks are still open. */
  lemma {:induction false} ArmsForming(g: Gen, arms: seq<Arm>, from: nat, first: nat, merge: nat, base: set<nat>, loop: bool)
    requires from <= |arms| && first + |arms| <= |g.blocks| && InLoop(g, loop) && CleanArms(arms, loop)
    requires Forming(g, base + Fresh(first + from, |arms| - from)) && Free(g, Labels(g)) && Free(g, {merge})
    requires forall t :: t in base ==> t < first
    ensures g.cur < |g.blocks| && Forming(GenArms(g, arms, from, first, merge), base)
    ensures Quiet(g, GenArms(g, arms, from, first, merge), Labels(g) + {merge})
    decreases arms, |arms| - from
  {
    hide Extends, Local, Quiet, Labels, Forming, Free, GenArm, NoDeadJump;
    var open := base + Fresh(first + from, |arms| - from);
    FormingCur(g, open);
    var ts := Labels(g) + {merge};
    if from == |arms| {
      assert open == base;
      QuietTrans(g, g, g, {}, {}, ts) by { QuietSame(g); }
    } else {
      var g1 := PositionAt(g, first + from);
      FormingMoved(g, first + from, open);
      FreeSame(g, g1, Labels(g)); FreeSame(g, g1, {merge});
      LabelsSame(g, g1);
      ArmForming(g1, arms[from].body, merge, open, loop);
      var g2 := GenArm(g1, arms[from].body, merge);
      assert open - {first + from} == base + Fresh(first + from + 1, |arms| - from - 1);
      LabelsSame(g, g2);
      FreeLater(g1, g2, Labels(g), ts); FreeLater(g1, g2, {merge}, ts);
      ArmsForming(g2, arms, from + 1, first, merge, base, loop);
      SameStart(g, g1, g2, ts);
      QuietTrans(g, g2, GenArms(g2, arms, from + 1, first, merge), ts, ts, ts);
    }
  }

  /** A `switch` up to its table: the case blocks and the merge block are open. */
  lemma SwitchHead(g: Gen, s: Stmt, open: set<nat>)
    requires s.Switch? && Forming(g, open) && g.cur in open
    ensures g.cur < |g.blocks|
    ensures var a := GenExpr(g, s.e);
      var merge, n := |a.g.blocks|, |s.arms|;
      var g2 := Put(OpenArms(a, n), Instr.Switch(a.val, DefaultBlock(Semantics.LastDefault(s.arms), merge + 1, merge), SwitchTable(s.arms, merge + 1)));
      Forming(g2, open - {g.cur} + {merge} + Fresh(merge + 1, n)) && Quiet(g, g2, {}) && Free(g2, {merge})
  {
    hide Extends, Local, Quiet, Forming, Free, GenExpr, Put, Append, Preds, SwitchTable, Targets, DefaultBlock, Fresh;
    FormingCur(g, open);
    FormingBelow(g, open);
    var a := GenExpr(g, s.e);
    var merge, n := |a.g.blocks|, |s.arms|;
    var base := open - {g.cur};
    var g1 := OpenArms(a, n);
    var i := Instr.Switch(a.val, DefaultBlock(Semantics.LastDefault(s.arms), merge + 1, merge), SwitchTable(s.arms, merge + 1));
    var g2 := Put(g1, i);
    ExprForming(g, s.e, open);
    LocalCur(g, a.g);
    AppendForming(a.g, 1 + n, base + {a.g.cur});
    OpenArmsIs(a, n);
    SwitchTargets(s.arms, a.val, merge, i);
    FreeRange(g1, Targets(i), merge, merge + 1 + n);
    var open1 := base + {a.g.cur} + Fresh(merge, 1 + n);
    JumpForming(g1, i, open1);
    FreshSplit(merge, n);
    assert open1 - {g1.cur} == base + {merge} + Fresh(merge + 1, n);
    QuietTrans(g, a.g, g1, {}, {}, {});
    QuietTrans(g, g1, g2, {}, Targets(i), {});
    assert Free(g1, {merge}) by { FreeIs(g1, {merge}); }
    FreeLater(g1, g2, {merge}, Targets(i));
  }

  lemma FreeRange(g: Gen, ts: set<nat>, lo: nat, hi: nat)
    requires forall t :: t in ts ==> lo <= t < hi
    requires hi <= |g.blocks| && forall t :: lo <= t < hi ==> !HasPhi(g.blocks[t])
    ensures Free(g, ts)
  {
  }

  /** From there on `switch` and `match` are alike. */
  lemma {:induction false} MeetForming(g: Gen, h: Gen, arms: seq<Arm>, merge: nat, open: set<nat>, loop: bool)
    requires Placed(g, open, true) && InLoop(g, loop) && CleanArms(arms, loop) && h.brk == g.brk && h.cont == g.cont
    requires Forming(h, open - {g.cur} + {merge} + Fresh(merge + 1, |arms|)) && Quiet(g, h, {}) && Free(h, {merge})
    requires |g.blocks| <= merge && merge + 1 + |arms| <= |h.blocks|
    ensures h.cur < |h.blocks| && merge < |GenArms(h, arms, 0, merge + 1, merge).blocks|
    ensures Settled(g, PositionAt(GenArms(h, arms, 0, merge + 1, merge), merge), open, true)
    decreases arms, |arms| + 1
  {
    hide Extends, Local, Quiet, Labels, Forming, Free, GenArms, CleanArms;
    FormingBelow(g, open);
    FormingCur(h, open - {g.cur} + {merge} + Fresh(merge + 1, |arms|));
    FreeLater(g, h, Labels(g), {});
    LabelsSame(g, h);
    ArmsForming(h, arms, 0, merge + 1, merge, open - {g.cur} + {merge}, loop);
    var r := GenArms(h, arms, 0, merge + 1, merge);
    FormingBelow(r, open - {g.cur} + {merge});
    QuietTrans(g, h, r, {}, Labels(g) + {merge}, Labels(g)) by { FreeBelow(g, Labels(g)); }
    SettledAt(g, r, merge, open);
  }

  lemma {:induction false} SwitchForming(g: Gen, s: Stmt, open: set<nat>, loop: bool)
    requires Placed(g, open, true) && InLoop(g, loop) && Clean(s, loop, true) && s.Switch?
    ensures g.cur < |g.blocks| && Settled(g, GenSwitch(g, s), open, true)
    decreases s, 1
  {
    hide Extends, Local, Quiet, Labels, Forming, Free, GenExpr, GenArms, CleanArms, Put, GenSwitch, SwitchTable, Settled;
    FormingCur(g, open);
    Codegen.UnfoldSwitch(g, s);
    SwitchHead(g, s, open);
    var a := GenExpr(g, s.e);
    var merge := |a.g.blocks|;
    var g2 := Put(OpenArms(a, |s.arms|), Instr.Switch(a.val, DefaultBlock(Semantics.LastDefault(s.arms), merge + 1, merge), SwitchTable(s.arms, merge + 1)));
    PutSize(OpenArms(a, |s.arms|), Instr.Switch(a.val, DefaultBlock(Semantics.LastDefault(s.arms), merge + 1, merge), SwitchTable(s.arms, merge + 1)));
    MeetForming(g, g2, s.arms, merge, open, loop);
  }

  lemma PutSize(g: Gen, i: Instr)
    requires g.cur < |g.blocks|
    ensures |Put(g, i).blocks| == |g.blocks| && Put(g, i).brk == g.brk && Put(g, i).cont == g.cont
  {
  }

  lemma FreeIs(g: Gen, ts: set<nat>)
    requires forall t :: t in ts ==> t < |g.blocks| && !HasPhi(g.blocks[t])
    ensures Free(g, ts)
  {
  }

  lemma OpenArmsIs(a: Code, n: nat)
    requires a.g.cur < |a.g.blocks|
    ensures OpenArms(a, n) == Append(a.g, 1 + n)
  {
  }

  lemma FreshSplit(lo: nat, n: nat)
    ensures Fresh(lo, 1 + n) == {lo} + Fresh(lo + 1, n)
  {
  }

  lemma {:induction false} TableTargets(arms: seq<Arm>, first: nat)
    ensures forall k :: 0 <= k < |SwitchTable(arms, first)| ==> first <= SwitchTable(arms, first)[k].1 < first + |arms|
    decreases |arms|
  {
    if arms != [] {
      TableTargets(arms[1..], first + 1);
    }
  }

  lemma SwitchTargets(arms: seq<Arm>, v: Operand, merge: nat, i: Instr)
    requires i == Instr.Switch(v, DefaultBlock(Semantics.LastDefault(arms), merge + 1, merge), SwitchTable(arms, merge + 1))
    ensures forall t :: t in Targets(i) ==> merge <= t < merge + 1 + |arms|
  {
    TableTargets(arms, merge + 1);
  }

  lemma PatternForming(g: Gen, p: Pattern, v: Operand, open: set<nat>)
    requires Forming(g, open) && g.cur in open
    ensures g.cur < |g.blocks| && Moved(g, GenPattern(g, p, v).g, open)
  {
    hide Extends, Local, Quiet, Moved, Open, Sealed, PhisExact, TargetsExist, GenExpr, Put;
    match p
    case PIn(_, lo, hi) =>
      var a := GenExpr(g, lo);
      var b := GenExpr(a.g, hi);
      ExprForming(g, lo, open);
      ExprAfter(g, a.g, hi, open);
      Emit.EmitsTrans(g, a.g, b.g);
      var ge := Result(b.g, Bin(b.g.next, OICmp(SGE), v, a.val), TBool);
      var lt := Result(ge.g, Bin(ge.g.next, OICmp(SLT), v, b.val), TBool);
      MovedResult(g, b.g, Bin(b.g.next, OICmp(SGE), v, a.val), TBool, open);
      Emit.EmitsTrans(g, b.g, ge.g);
      MovedResult(g, ge.g, Bin(ge.g.next, OICmp(SLT), v, b.val), TBool, open);
      Emit.EmitsTrans(g, ge.g, lt.g);
      MovedResult(g, lt.g, AndI1(lt.g.next, ge.val, lt.val), TBool, open);
    case PCmp(op, _, r) =>
      var a := GenExpr(g, r);
      ExprForming(g, r, open);
      MovedResult(g, a.g, Bin(a.g.next, OpCode(op), v, a.val), TBool, open);
    case PVal(e) =>
      var a := GenExpr(g, e);
      ExprForming(g, e, open);
      MovedResult(g, a.g, Bin(a.g.next, OICmp(EQ), v, a.val), TBool, open);
  }

  lemma {:induction false} ChecksForming(g: Gen, arms: seq<Arm>, from: nat, v: Operand, first: nat, open: set<nat>)
    requires Forming(g, open) && g.cur in open && Free(g, Fresh(first, |arms|))
    ensures g.cur < |g.blocks| && Forming(GenChecks(g, arms, from, v, first), open - {g.cur} + {GenChecks(g, arms, from, v, first).cur})
    ensures Quiet(g, GenChecks(g, arms, from, v, first), Fresh(first, |arms|))
    decreases |arms| - from
  {
    hide Extends, Local, Quiet, Forming, Free, GenPattern, Fresh, Preds, Put, Append;
    FormingCur(g, open);
    var cases := Fresh(first, |arms|);
    if from >= |arms| {
      assert open - {g.cur} + {g.cur} == open;
      QuietTrans(g, g, g, {}, {}, cases) by { QuietSame(g); }
    } else if !arms[from].tag.Test? {
      ChecksForming(g, arms, from + 1, v, first, open);
    } else {
      var c := GenPattern(g, arms[from].tag.p, v);
      var g1 := NextCheck(c, first + from);
      PatternForming(g, arms[from].tag.p, v, open);
      LocalCur(g, c.g);
      FormingBelow(g, open);
      FreeLater(g, c.g, cases, {});
      CheckForming(c, first + from, |c.g.blocks|, cases, open - {g.cur} + {c.g.cur});
      assert open - {g.cur} + {c.g.cur} - {c.g.cur} + {g1.cur} == open - {g.cur} + {g1.cur};
      FreeLater(c.g, g1, cases, cases);
      ChecksForming(g1, arms, from + 1, v, first, open - {g.cur} + {g1.cur});
      QuietTrans(g, c.g, g1, {}, cases, cases);
      var r := GenChecks(g1, arms, from + 1, v, first);
      QuietTrans(g, g1, r, cases, cases, cases);
      assert open - {g.cur} + {g1.cur} - {g1.cur} + {r.cur} == open - {g.cur} + {r.cur};
    }
  }

  lemma CheckForming(c: Code, hit: nat, next: nat, cases: set<nat>, open: set<nat>)
    requires Forming(c.g, open) && c.g.cur in open && Free(c.g, cases) && hit in cases && next == |c.g.blocks|
    ensures c.g.cur < |c.g.blocks|
    ensures Forming(NextCheck(c, hit), open - {c.g.cur} + {next}) && Quiet(c.g, NextCheck(c, hit), cases)
  {
    hide Quiet, Forming, Free, Preds;
    FormingCur(c.g, open);
    FormingBelow(c.g, open);
    FreeBelow(c.g, cases);
    var g0 := Append(c.g, 1);
    var i := CondBr(c.val, hit, next);
    AppendForming(c.g, 1, open);
    FreeLater(c.g, g0, cases, {});
    FreeParts(g0, cases, hit);
    assert Free(g0, Targets(i)) by { FreeIs(g0, Targets(i)); }
    SealForming(g0, i, next, open + Fresh(next, 1));
    assert open + Fresh(next, 1) - {c.g.cur} == open - {c.g.cur} + {next};
    QuietTrans(c.g, g0, NextCheck(c, hit), {}, Targets(i), cases);
  }

  lemma FreeParts(g: Gen, ts: set<nat>, t: nat)
    requires Free(g, ts) && t in ts
    ensures t < |g.blocks| && !HasPhi(g.blocks[t])
  {
  }

  /** A `match` up to the end of its tests. */
  lemma MatchHead(g: Gen, s: Stmt, open: set<nat>)
    requires s.Match? && Forming(g, open) && g.cur in open
    ensures g.cur < |g.blocks|
    ensures var a := GenExpr(g, s.e);
      var merge, n := |a.g.blocks|, |s.arms|;
      var g2 := GenChecks(OpenArms(a, n), s.arms, 0, a.val, merge + 1);
      && Forming(g2, open - {g.cur} + {g2.cur} + {merge} + Fresh(merge + 1, n)) && Quiet(g, g2, {})
      && Free(g2, {merge} + Fresh(merge + 1, n)) && g2.cur !in open - {g.cur} && g2.cur !in {merge} + Fresh(merge + 1, n)
  {
    hide Extends, Local, Quiet, Forming, Free, GenExpr, GenChecks, Append, Preds;
    FormingCur(g, open);
    FormingBelow(g, open);
    var a := GenExpr(g, s.e);
    var merge, n := |a.g.blocks|, |s.arms|;
    var base := open - {g.cur};
    var g1 := OpenArms(a, n);
    var g2 := GenChecks(g1, s.arms, 0, a.val, merge + 1);
    ExprForming(g, s.e, open);
    LocalCur(g, a.g);
    AppendForming(a.g, 1 + n, base + {a.g.cur});
    OpenArmsIs(a, n);
    FreshSplit(merge, n);
    var cases, all := Fresh(merge + 1, n), Fresh(merge, 1 + n);
    assert Free(g1, cases) by { FreeIs(g1, cases); }
    assert Free(g1, {merge} + cases) by { FreeIs(g1, {merge} + cases); }
    ChecksForming(g1, s.arms, 0, a.val, merge + 1, base + {a.g.cur} + all);
    LocalCur(g1, g2);
    FreeLater(g1, g2, {merge} + cases, cases);
    assert base + {a.g.cur} + all - {g1.cur} + {g2.cur} == base + {g2.cur} + {merge} + cases;
    QuietTrans(g, a.g, g1, {}, {}, {});
    QuietTrans(g, g1, g2, {}, cases, {});
  }

  lemma {:induction false} MatchForming(g: Gen, s: Stmt, open: set<nat>, loop: bool)
    requires Placed(g, open, true) && InLoop(g, loop) && Clean(s, loop, true) && s.Match?
    ensures g.cur < |g.blocks| && Settled(g, GenMatch(g, s), open, true)
    decreases s, 1
  {
    hide Extends, Local, Quiet, Labels, Forming, Free, GenExpr, GenArms, GenChecks, CleanArms, Put, GenMatch, Settled, Preds;
    FormingCur(g, open);
    Codegen.UnfoldMatch(g, s);
    MatchHead(g, s, open);
    var a := GenExpr(g, s.e);
    var merge, n := |a.g.blocks|, |s.arms|;
    var g2 := GenChecks(OpenArms(a, n), s.arms, 0, a.val, merge + 1);
    var default := DefaultBlock(Semantics.LastDefault(s.arms), merge + 1, merge);
    var g3 := Put(g2, Br(default));
    var cases := Fresh(merge + 1, n);
    FreeParts(g2, {merge} + cases, default);
    assert Free(g2, {default}) by { FreeIs(g2, {default}); }
    var open2 := open - {g.cur} + {g2.cur} + {merge} + cases;
    JumpForming(g2, Br(default), open2);
    assert open2 - {g2.cur} == open - {g.cur} + {merge} + cases;
    QuietTrans(g, g2, g3, {}, {default}, {});
    FreeParts(g2, {merge} + cases, merge);
    assert Free(g2, {merge}) by { FreeIs(g2, {merge}); }
    FreeLater(g2, g3, {merge}, {default});
    PutSize(g2, Br(default));
    MeetForming(g, g3, s.arms, merge, open, loop);
  }

  /** A loop's fresh blocks and the branch to the first that is used. */
  lemma LoopForming(g: Gen, n: nat, b: nat, open: set<nat>)
    requires Forming(g, open) && g.cur in open && |g.blocks| <= b < |g.blocks| + n
    ensures g.cur < |g.blocks|
    ensures var g1 := Seal(OpenLoop(g, n), Br(b), b);
      Forming(g1, open - {g.cur} + Fresh(|g.blocks|, n)) && Quiet(g, g1, {}) && Free(g1, Fresh(|g.blocks|, n))
  {
    hide Extends, Local, Quiet, Forming, Free, Append, Put, Preds;
    FormingCur(g, open);
    FormingBelow(g, open);
    var g0, news := OpenLoop(g, n), Fresh(|g.blocks|, n);
    OpenForming(g, n, open);
    FreeParts(g0, news, b);
    assert Free(g0, {b}) by { FreeIs(g0, {b}); }
    SealForming(g0, Br(b), b, open + news);
    assert open + news - {g.cur} == open - {g.cur} + news;
    FreeLater(g0, Seal(g0, Br(b), b), news, {b});
    QuietTrans(g, g0, Seal(g0, Br(b), b), {}, {b}, {});
  }

  lemma OpenForming(g: Gen, n: nat, open: set<nat>)
    requires Forming(g, open)
    ensures g.cur < |g.blocks|
    ensures Forming(OpenLoop(g, n), open + Fresh(|g.blocks|, n)) && Quiet(g, OpenLoop(g, n), {})
    ensures Free(OpenLoop(g, n), Fresh(|g.blocks|, n))
  {
    hide Extends, Local, Quiet, Fresh;
    AppendForming(g, n, open);
  }

  lemma FreeSome(g: Gen, ts: set<nat>, us: set<nat>)
    requires Free(g, ts) && us <= ts
    ensures Free(g, us)
  {
  }

  lemma {:induction false} WhileForming(g: Gen, s: Stmt, open: set<nat>, loop: bool)
    requires Placed(g, open, true) && InLoop(g, loop) && Clean(s, loop, true) && s.While?
    ensures g.cur < |g.blocks| && Settled(g, GenWhile(g, s), open, true)
    decreases s, 1
  {
    hide Extends, Local, Quiet, Labels, Forming, Free, GenExpr, GenBody, NoDeadJump, Put, Append, Preds, GenWhile, Settled;
    FormingCur(g, open);
    FormingBelow(g, open);
    Codegen.UnfoldWhile(g, s);
    var cond, body, end := |g.blocks|, |g.blocks| + 1, |g.blocks| + 2;
    var base := open - {g.cur};
    var g1 := Seal(OpenLoop(g, 3), Br(cond), cond);
    var a := GenExpr(g1, s.cond);
    var g2 := Seal(a.g, CondBr(a.val, body, end), body);
    var g3 := GenBody(g2, s.body, end, cond);
    LoopForming(g, 3, cond, open);
    ExprForming(g1, s.cond, base + Fresh(cond, 3));
    LocalCur(g1, a.g);
    assert base + Fresh(cond, 3) - {cond} + {a.g.cur} == base + {a.g.cur, body, end};
    QuietTrans(g, g1, a.g, {}, {}, {});
    FreeLater(g1, a.g, {cond, end}, {}) by { FreeSome(g1, Fresh(cond, 3), {cond, end}); }
    FreeLater(g1, a.g, {body, end}, {}) by { FreeSome(g1, Fresh(cond, 3), {body, end}); }
    SealForming(a.g, CondBr(a.val, body, end), body, base + {a.g.cur, body, end});
    assert base + {a.g.cur, body, end} - {a.g.cur} == base + {body, end};
    QuietTrans(g, a.g, g2, {}, {body, end}, {});
    FreeLater(a.g, g2, {cond, end}, {body, end});
    assert {end, cond} == {cond, end};
    BodyForming(g2, s.body, end, cond, base + {body, end});
    assert base + {body, end} - {body} == base + {end};
    QuietTrans(g, g2, g3, {}, {end, cond}, Labels(g));
    SettledAt(g, g3, end, open);
  }

  lemma {:induction false} DoWhileForming(g: Gen, s: Stmt, open: set<nat>, loop: bool)
    requires Placed(g, open, true) && InLoop(g, loop) && Clean(s, loop, true) && s.DoWhile?
    ensures g.cur < |g.blocks| && Settled(g, GenDoWhile(g, s), open, true)
    decreases s, 1
  {
    hide Extends, Local, Quiet, Labels, Forming, Free, GenExpr, GenBody, NoDeadJump, Put, Append, Preds, GenDoWhile, Settled;
    FormingCur(g, open);
    FormingBelow(g, open);
    Codegen.UnfoldDoWhile(g, s);
    var body, cond, end := |g.blocks|, |g.blocks| + 1, |g.blocks| + 2;
    var base := open - {g.cur};
    var g1 := Seal(OpenLoop(g, 3), Br(body), body);
    var g2 := GenBody(g1, s.body, end, cond);
    var g3 := PositionAt(g2, cond);
    var a := GenExpr(g3, s.cond);
    LoopForming(g, 3, body, open);
    assert base + Fresh(body, 3) == base + {body, cond, end};
    FreeSome(g1, Fresh(body, 3), {end, cond});
    FreeSome(g1, Fresh(body, 3), {body, end});
    BodyForming(g1, s.body, end, cond, base + {body, cond, end});
    assert base + {body, cond, end} - {body} == base + {cond, end};
    QuietTrans(g, g1, g2, {}, {end, cond}, {});
    FreeLater(g1, g2, {body, end}, {end, cond});
    FormingMoved(g2, cond, base + {cond, end});
    SameBlocksQuiet(g, g2, g3, {});
    FreeSame(g2, g3, {body, end});
    ExprForming(g3, s.cond, base + {cond, end});
    LocalCur(g3, a.g);
    assert base + {cond, end} - {cond} + {a.g.cur} == base + {a.g.cur, end};
    QuietTrans(g, g3, a.g, {}, {}, {});
    FreeLater(g3, a.g, {body, end}, {});
    SealForming(a.g, CondBr(a.val, body, end), end, base + {a.g.cur, end});
    assert base + {a.g.cur, end} - {a.g.cur} == base + {end};
    QuietTrans(g, a.g, GenDoWhile(g, s), {}, {body, end}, Labels(g));
    SettledAt(g, GenDoWhile(g, s), end, open);
  }

  lemma MovedParts(g: Gen, g1: Gen, open: set<nat>)
    requires Moved(g, g1, open)
    ensures g1.cur < |g1.blocks| && Forming(g1, open - {g.cur} + {g1.cur}) && Quiet(g, g1, {})
  {
  }

  /** Open code up to a branch, which ends it. */
  lemma MovedJump(g: Gen, a: Gen, i: Instr, open: set<nat>)
    requires Forming(g, open) && Local(g, a) && Moved(g, a, open) && IsTerminator(i) && Free(g, Targets(i))
    ensures a.cur < |a.blocks| && Forming(Put(a, i), open - {g.cur}) && Quiet(g, Put(a, i), Targets(i))
  {
    hide Local, Quiet, Forming, Free, Preds, Moved, Put;
    FormingBelow(g, open);
    MovedParts(g, a, open);
    LocalCur(g, a);
    assert open - {g.cur} + {a.cur} - {a.cur} == open - {g.cur};
    FreeLater(g, a, Targets(i), {});
    JumpForming(a, i, open - {g.cur} + {a.cur});
    QuietTrans(g, a, Put(a, i), {}, Targets(i), Targets(i));
  }

  lemma MovedSeal(g: Gen, a: Gen, i: Instr, b: nat, open: set<nat>)
    requires Forming(g, open) && Local(g, a) && Moved(g, a, open) && IsTerminator(i) && Free(g, Targets(i)) && b < |a.blocks|
    ensures a.cur < |a.blocks| && Forming(Seal(a, i, b), open - {g.cur}) && Quiet(g, Seal(a, i, b), Targets(i))
  {
    hide Local, Quiet, Forming, Free, Moved;
    MovedJump(g, a, i, open);
    PutSize(a, i);
    FormingMoved(Put(a, i), b, open - {g.cur});
    SameBlocksQuiet(g, Put(a, i), Seal(a, i, b), Targets(i));
  }

  lemma ForInitMoved(g: Gen, x: Name, iter: Iter, open: set<nat>)
    requires Forming(g, open) && g.cur in open
    ensures g.cur < |g.blocks| && Moved(g, ForInit(g, x, iter).0, open)
  {
    hide Extends, Local, Quiet, Moved, Open, Sealed, PhisExact, TargetsExist, GenExpr, Put;
    MovedNot(g, open);
    LocalSame(g);
    if iter.Range? { ExprForming(g, iter.lo, open); }
    var lo := GenLo(g, iter);
    ExprAfter(g, lo.g, iter.hi, open);
    var hi := GenExpr(lo.g, iter.hi);
    Emit.EmitsTrans(g, lo.g, hi.g);
    MovedResult(g, hi.g, Alloca(hi.g.next, TInt), TInt, open);
    var g1 := GenAlloca(hi.g, x, TInt);
    MovedVars(g, Result(hi.g, Alloca(hi.g.next, TInt), TInt).g, g1, open);
    Emit.EmitsTrans(g, hi.g, g1);
    MovedPut(g, g1, Store(lo.val, Reg(hi.g.next)), open);
  }

  lemma ForTestMoved(g: Gen, slot: Operand, hi: Operand, open: set<nat>)
    requires Forming(g, open) && g.cur in open
    ensures g.cur < |g.blocks| && Moved(g, ForTest(g, slot, hi).g, open)
  {
    hide Extends, Local, Quiet, Moved, Open, Sealed, PhisExact, TargetsExist, Put;
    MovedNot(g, open);
    LocalSame(g);
    var cur := Result(g, Load(g.next, TInt, slot), TInt);
    MovedResult(g, g, Load(g.next, TInt, slot), TInt, open);
    MovedResult(g, cur.g, Bin(cur.g.next, OICmp(SLT), cur.val, hi), TBool, open);
  }

  /** A range loop's test, from the end of its initialisation to the start of its body. */
  lemma ForHeadForming(g: Gen, slot: Operand, hi: Operand, cond: nat, base: set<nat>)
    requires g.cur !in base && g.cur !in Fresh(cond, 4) && (forall t :: t in base ==> t < cond)
    requires Forming(g, base + {g.cur} + Fresh(cond, 4)) && Free(g, Fresh(cond, 4))
    ensures g.cur < |g.blocks| && cond + 4 <= |g.blocks|
    ensures var t := ForTest(Seal(g, Br(cond), cond), slot, hi);
      && |t.g.blocks| >= cond + 4
      && var g3 := Seal(t.g, CondBr(t.val, cond + 1, cond + 3), cond + 1);
         Forming(g3, base + {cond + 1, cond + 2, cond + 3}) && Quiet(g, g3, {cond, cond + 1, cond + 3})
  {
    hide Extends, Local, Quiet, Forming, Free, Put, Preds, ForTest, Moved, Fresh;
    var news := Fresh(cond, 4);
    FormingCur(g, base + {g.cur} + news);
    FreeParts(g, news, cond + 3);
    var g2 := Seal(g, Br(cond), cond);
    FreeSome(g, news, {cond});
    SealForming(g, Br(cond), cond, base + {g.cur} + news);
    assert base + {g.cur} + news - {g.cur} == base + news;
    ForTestMoved(g2, slot, hi, base + news);
    var t := ForTest(g2, slot, hi);
    var i := CondBr(t.val, cond + 1, cond + 3);
    FreeLater(g, g2, news, {cond});
    FreeSome(g2, news, Targets(i));
    MovedSeal(g2, t.g, i, cond + 1, base + news);
    assert base + news - {cond} == base + {cond + 1, cond + 2, cond + 3};
    QuietTrans(g, g2, Seal(t.g, i, cond + 1), {cond}, Targets(i), {cond, cond + 1, cond + 3});
  }

  /** The body of a `for` loop, up to its foot. */
  lemma {:induction false} LoopTail(g: Gen, g3: Gen, ss: seq<Stmt>, cond: nat, base: set<nat>)
    requires g3.cur == cond + 1 && (forall t :: t in base ==> t < cond)
    requires Forming(g3, base + {cond + 1, cond + 2, cond + 3}) && Free(g3, Fresh(cond, 4)) && NoDeadJump(ss, true, true)
    ensures g3.cur < |g3.blocks| && cond + 2 < |GenBody(g3, ss, cond + 3, cond + 2).blocks|
    ensures var g5 := PositionAt(GenBody(g3, ss, cond + 3, cond + 2), cond + 2);
      Forming(g5, base + {cond + 2, cond + 3}) && Quiet(g3, g5, {cond + 3, cond + 2}) && Free(g5, Fresh(cond, 4))
    decreases ss, 3
  {
    hide Extends, Local, Quiet, Forming, Free, GenBody, NoDeadJump, Fresh;
    var brk, cont := cond + 3, cond + 2;
    FreeSome(g3, Fresh(cond, 4), {brk, cont});
    BodyForming(g3, ss, brk, cont, base + {cond + 1, cond + 2, cond + 3});
    var g4 := GenBody(g3, ss, brk, cont);
    assert base + {cond + 1, cond + 2, cond + 3} - {cond + 1} == base + {cond + 2, cond + 3};
    FormingBelow(g4, base + {cond + 2, cond + 3});
    FormingMoved(g4, cont, base + {cond + 2, cond + 3});
    SameBlocksQuiet(g3, g4, PositionAt(g4, cont), {brk, cont});
    FreeLater(g3, g4, Fresh(cond, 4), {brk, cont});
    FreeSame(g4, PositionAt(g4, cont), Fresh(cond, 4));
  }

  lemma ForStepForming(g: Gen, slot: Operand, cond: nat, open: set<nat>)
    requires Forming(g, open) && g.cur in open && Free(g, Fresh(cond, 4))
    ensures g.cur < |g.blocks| && Forming(ForStep(g, slot, cond), open - {g.cur})
    ensures |ForStep(g, slot, cond).blocks| == |g.blocks| && Quiet(g, ForStep(g, slot, cond), {cond})
  {
    hide Extends, Local, Quiet, Moved, Forming, Free, Preds, Put, Fresh;
    FormingCur(g, open);
    MovedNot(g, open);
    LocalSame(g);
    var cur := Result(g, Load(g.next, TInt, slot), TInt);
    var next := Result(cur.g, Bin(cur.g.next, OAdd, cur.val, Const(IntV(1))), TInt);
    var g1 := Put(next.g, Store(next.val, slot));
    MovedResult(g, g, Load(g.next, TInt, slot), TInt, open);
    MovedResult(g, cur.g, Bin(cur.g.next, OAdd, cur.val, Const(IntV(1))), TInt, open);
    Emit.EmitsTrans(g, cur.g, next.g);
    MovedPut(g, next.g, Store(next.val, slot), open);
    Emit.EmitsTrans(g, next.g, g1);
    FreeSome(g, Fresh(cond, 4), {cond});
    MovedJump(g, g1, Br(cond), open);
    ForStepSize(g, slot, cond);
  }

  lemma ForStepSize(g: Gen, slot: Operand, cond: nat)
    requires g.cur < |g.blocks|
    ensures |ForStep(g, slot, cond).blocks| == |g.blocks|
  {
    hide Extends, Local;
  }

  /** A range loop up to the branch to its test. */
  lemma ForStart(g: Gen, s: Stmt, open: set<nat>)
    requires Forming(g, open) && g.cur in open && s.For?
    ensures g.cur < |g.blocks|
    ensures var g1, cond := ForInit(OpenLoop(g, 4), s.x, s.iter).0, |g.blocks|;
      && Forming(g1, open - {g.cur} + {g1.cur} + Fresh(cond, 4)) && Quiet(g, g1, {}) && Free(g1, Fresh(cond, 4))
      && g1.cur !in open - {g.cur} && g1.cur !in Fresh(cond, 4)
  {
    hide Extends, Local, Quiet, Forming, Free, ForInit, OpenLoop, Fresh, Moved;
    FormingCur(g, open);
    FormingBelow(g, open);
    var g0, news := OpenLoop(g, 4), Fresh(|g.blocks|, 4);
    var g1 := ForInit(g0, s.x, s.iter).0;
    OpenForming(g, 4, open);
    ForInitMoved(g0, s.x, s.iter, open + news);
    MovedParts(g0, g1, open + news);
    LocalCur(g0, g1);
    FreeLater(g0, g1, news, {});
    assert open + news - {g.cur} + {g1.cur} == open - {g.cur} + {g1.cur} + news;
    QuietTrans(g, g0, g1, {}, {}, {});
  }

  lemma {:induction false} ForForming(g: Gen, s: Stmt, open: set<nat>, loop: bool)
    requires Placed(g, open, true) && InLoop(g, loop) && Clean(s, loop, true) && s.For?
    ensures g.cur < |g.blocks| && Settled(g, GenFor(g, s), open, true)
    decreases s, 1
  {
    hide Extends, Local, Quiet, Labels, Forming, Free, GenExpr, GenBody, NoDeadJump, Put, Append, Preds, GenFor, Settled, ForInit, ForTest, ForStep, OpenLoop, Moved, Fresh;
    FormingCur(g, open);
    FormingBelow(g, open);
    Codegen.UnfoldFor(g, s);
    var cond, body, incr, end := |g.blocks|, |g.blocks| + 1, |g.blocks| + 2, |g.blocks| + 3;
    var base, news := open - {g.cur}, Fresh(cond, 4);
    var g0 := OpenLoop(g, 4);
    var (g1, hi) := ForInit(g0, s.x, s.iter);
    var slot := Reg(g1.next - 1);
    ForStart(g, s, open);
    ForHeadForming(g1, slot, hi, cond, base);
    var t := ForTest(Seal(g1, Br(cond), cond), slot, hi);
    var g3 := Seal(t.g, CondBr(t.val, body, end), body);
    QuietTrans(g, g1, g3, {}, {cond, body, end}, {});
    FreeLater(g1, g3, news, {cond, body, end});
    LoopTail(g, g3, s.body, cond, base);
    var g5 := PositionAt(GenBody(g3, s.body, end, incr), incr);
    QuietTrans(g, g3, g5, {}, {end, incr}, {});
    ForStepForming(g5, slot, cond, base + {incr, end});
    assert base + {incr, end} - {incr} == base + {end};
    QuietTrans(g, g5, ForStep(g5, slot, cond), {}, {cond}, Labels(g));
    SettledAt(g, ForStep(g5, slot, cond), end, open);
  }

  lemma CleanCFor(s: Stmt, loop: bool)
    requires s.CFor? && Clean(s, loop, true)
    ensures s.finit.Some? ==> Clean(s.finit.value, loop, true) && Falls(s.finit.value, loop)
    ensures NoDeadJump(s.body, true, true)
  {
    hide NoDeadJump;
  }

  lemma {:induction false} CForInitForming(g: Gen, s: Stmt, open: set<nat>, loop: bool)
    requires Placed(g, open, true) && InLoop(g, loop) && s.CFor?
    requires s.finit.Some? ==> Clean(s.finit.value, loop, true) && Falls(s.finit.value, loop)
    ensures g.cur < |g.blocks|
    ensures var g0, cond := OpenLoop(g, 4), |g.blocks|;
      var g1 := if s.finit.None? then g0 else GenStmt(g0, s.finit.value);
      && Forming(g1, open - {g.cur} + {g1.cur} + Fresh(cond, 4)) && Quiet(g, g1, Labels(g)) && Free(g1, Fresh(cond, 4))
      && g1.cur !in open - {g.cur} && g1.cur !in Fresh(cond, 4)
    decreases s, 0
  {
    hide Extends, Local, Quiet, Labels, Forming, Free, GenStmt, OpenLoop, Clean, Falls, Fresh;
    FormingCur(g, open);
    FormingBelow(g, open);
    var g0, cond := OpenLoop(g, 4), |g.blocks|;
    var news := Fresh(cond, 4);
    OpenForming(g, 4, open);
    FreeLater(g, g0, Labels(g), {});
    LabelsSame(g, g0);
    FreeBelow(g, Labels(g));
    if s.finit.None? {
      assert open - {g.cur} + {g.cur} + news == open + news;
      QuietTrans(g, g0, g0, {}, {}, Labels(g)) by { QuietSame(g0); }
    } else {
      StmtForming(g0, s.finit.value, open + news, loop, true);
      var g1 := GenStmt(g0, s.finit.value);
      LocalCur(g0, g1);
      assert open + news - {g.cur} + Spot(g1, true) == open - {g.cur} + {g1.cur} + news;
      QuietTrans(g, g0, g1, {}, Labels(g), Labels(g));
      FreeLater(g0, g1, news, Labels(g));
    }
  }

  lemma CForHeadForming(g: Gen, e: Option<Expr>, cond: nat, base: set<nat>)
    requires g.cur !in base && g.cur !in Fresh(cond, 4) && (forall t :: t in base ==> t < cond)
    requires Forming(g, base + {g.cur} + Fresh(cond, 4)) && Free(g, Fresh(cond, 4))
    ensures g.cur < |g.blocks| && cond + 4 <= |g.blocks|
    ensures var g3 := CondHead(Seal(g, Br(cond), cond), e, cond + 1, cond + 3);
      Forming(g3, base + {cond + 1, cond + 2, cond + 3}) && Quiet(g, g3, {cond, cond + 1, cond + 3})
  {
    hide Extends, Local, Quiet, Forming, Free, Put, Preds, Moved, GenExpr, Fresh;
    var news := Fresh(cond, 4);
    FormingCur(g, base + {g.cur} + news);
    FreeParts(g, news, cond + 3);
    var g2 := Seal(g, Br(cond), cond);
    FreeSome(g, news, {cond});
    SealForming(g, Br(cond), cond, base + {g.cur} + news);
    assert base + {g.cur} + news - {g.cur} == base + news;
    FreeLater(g, g2, news, {cond});
    var a := if e.Some? then GenExpr(g2, e.value).g else g2;
    var i := if e.Some? then CondBr(GenExpr(g2, e.value).val, cond + 1, cond + 3) else Br(cond + 1);
    if e.Some? {
      ExprForming(g2, e.value, base + news);
    } else {
      MovedNot(g2, base + news);
      LocalSame(g2);
    }
    FreeSome(g2, news, Targets(i));
    MovedSeal(g2, a, i, cond + 1, base + news);
    assert base + news - {cond} == base + {cond + 1, cond + 2, cond + 3};
    QuietTrans(g, g2, Seal(a, i, cond + 1), {cond}, Targets(i), {cond, cond + 1, cond + 3});
  }

  lemma UpdateForming(g: Gen, u: Option<Expr>, cond: nat, open: set<nat>)
    requires Forming(g, open) && g.cur in open && Free(g, Fresh(cond, 4))
    ensures g.cur < |g.blocks| && Forming(UpdateTail(g, u, cond), open - {g.cur})
    ensures |UpdateTail(g, u, cond).blocks| >= |g.blocks| && Quiet(g, UpdateTail(g, u, cond), {cond})
  {
    hide Extends, Local, Quiet, Forming, Free, Preds, Moved, GenExpr, Fresh;
    FormingCur(g, open);
    FormingBelow(g, open);
    var a := if u.Some? then GenExpr(g, u.value).g else g;
    if u.Some? {
      ExprForming(g, u.value, open);
    } else {
      MovedNot(g, open);
      LocalSame(g);
    }
    FreeSome(g, Fresh(cond, 4), {cond});
    MovedJump(g, a, Br(cond), open);
  }

  lemma {:induction false} CForForming(g: Gen, s: Stmt, open: set<nat>, loop: bool)
    requires Placed(g, open, true) && InLoop(g, loop) && Clean(s, loop, true) && s.CFor?
    ensures g.cur < |g.blocks| && Settled(g, GenCFor(g, s), open, true)
    decreases s, 1
  {
    hide Extends, Local, Quiet, Labels, Forming, Free, GenExpr, GenBody, NoDeadJump, Put, Append, Preds, GenCFor, Settled, CondHead, UpdateTail, OpenLoop, GenStmt, Clean, Falls, Moved, Fresh;
    FormingCur(g, open);
    FormingBelow(g, open);
    Codegen.UnfoldCFor(g, s);
    CleanCFor(s, loop);
    var cond, body, update, end := |g.blocks|, |g.blocks| + 1, |g.blocks| + 2, |g.blocks| + 3;
    var base, news := open - {g.cur}, Fresh(cond, 4);
    var g0 := OpenLoop(g, 4);
    var g1 := if s.finit.None? then g0 else GenStmt(g0, s.finit.value);
    CForInitForming(g, s, open, loop);
    CForHeadForming(g1, s.fcond, cond, base);
    var g3 := CondHead(Seal(g1, Br(cond), cond), s.fcond, body, end);
    QuietTrans(g, g1, g3, Labels(g), {cond, body, end}, Labels(g));
    FreeLater(g1, g3, news, {cond, body, end});
    LoopTail(g, g3, s.body, cond, base);
    var g5 := PositionAt(GenBody(g3, s.body, end, update), update);
    QuietTrans(g, g3, g5, Labels(g), {end, update}, Labels(g));
    UpdateForming(g5, s.update, cond, base + {update, end});
    assert base + {update, end} - {update} == base + {end};
    QuietTrans(g, g5, UpdateTail(g5, s.update, cond), Labels(g), {cond}, Labels(g));
    SettledAt(g, UpdateTail(g5, s.update, cond), end, open);
  }

  lemma {:induction false} ParamsForming(g: Gen, params: seq<Param>, from: nat, open: set<nat>)
    requires Forming(g, open) && g.cur in open
    ensures g.cur < |g.blocks| && Moved(g, GenParams(g, params, from), open)
    decreases |params| - from
  {
    hide Extends, Local, Quiet, Moved, Open, Sealed, PhisExact, TargetsExist;
    MovedNot(g, open);
    LocalSame(g);
    if from < |params| {
      var g1 := GenAlloca(g, params[from].x, params[from].ty);
      var g2 := Put(g1, Store(Reg(from), Reg(g.next)));
      MovedResult(g, g, Alloca(g.next, params[from].ty), params[from].ty, open);
      MovedVars(g, Result(g, Alloca(g.next, params[from].ty), params[from].ty).g, g1, open);
      MovedPut(g, g1, Store(Reg(from), Reg(g.next)), open);
      MovedParts(g, g2, open);
      EmitsTrans3(g, g1, g2);
      ParamsForming(g2, params, from + 1, open - {g.cur} + {g2.cur});
      MovedTrans(g, g2, GenParams(g2, params, from + 1), open);
    }
  }

  /** Without dead jumps the finished graph is well formed. */
  lemma CleanIsWellFormed(f: Func, vars: seq<Var>)
    requires NoDeadJump(f.body, false, true)
    ensures WellFormed(GenFunc(f, vars).blocks)
  {
    hide Extends, Quiet, GenParams, GenSeq, NoDeadJump, SeqFalls, Moved, Put;
    var g := Entry(f, vars);
    assert Forming(g, {0}) && Free(g, Labels(g));
    hide Forming, Free;
    ParamsForming(g, f.params, 0, {0});
    var g1 := GenParams(g, f.params, 0);
    MovedParts(g, g1, {0});
    var open1: set<nat> := {0} - {0} + {g1.cur};
    assert Free(g1, Labels(g1)) by { FreeLater(g, g1, {}, {}); LabelsSame(g, g1); }
    SeqForming(g1, f.body, open1, false, true);
    var g2 := GenSeq(g1, f.body);
    var open2 := open1 - {g1.cur} + Spot(g2, SeqFalls(f.body, false));
    assert open1 - {g1.cur} == {};
    LiveIff(g2, open2);
    FormingCur(g2, open2);
    if !Terminated(g2) {
      var i := if f.ret.None? then RetVoid else Ret(Const(Zero(f.ret.value)));
      assert Free(g2, Targets(i)) by { FreeNone(g2); }
      JumpForming(g2, i, open2);
      assert open2 - {g2.cur} == {};
    } else {
      assert open2 == {};
    }
    AllSealed(GenFunc(f, vars));
  }

  lemma FreeNone(g: Gen)
    ensures Free(g, {})
  {
  }

  lemma AllSealed(g: Gen)
    requires Forming(g, {})
    ensures WellFormed(g.blocks)
  {
  }

  /** A branch or return with something after it. */
  predicate Broken(code: Cfg) {
    exists i, k :: 0 <= i < |code| && 0 <= k < |code[i]| - 1 && IsTerminator(code[i][k])
  }

  lemma BrokenStays(a: Cfg, b: Cfg)
    requires Broken(a) && Extends(a, b)
    ensures Broken(b)
  {
    var i, k :| 0 <= i < |a| && 0 <= k < |a[i]| - 1 && IsTerminator(a[i][k]);
    assert a[i] <= b[i];
    assert IsTerminator(b[i][k]);
  }

  lemma BrokenIsNot(code: Cfg)
    requires Broken(code)
    ensures !WellFormed(code)
  {
    var i, k :| 0 <= i < |code| && 0 <= k < |code[i]| - 1 && IsTerminator(code[i][k]);
    assert !Sealed(code[i]);
  }

  /** Control falls out of emitted code exactly as `Falls` says. */
  lemma {:induction false} SeqEnds(g: Gen, ss: seq<Stmt>, loop: bool)
    requires g.cur < |g.blocks| && InLoop(g, loop)
    ensures Terminated(GenSeq(g, ss)) <==> Terminated(g) || !SeqFalls(ss, loop)
    decreases ss, 0
  {
    hide Extends, Local, GenStmt, Falls, Terminated;
    if ss != [] {
      StmtEnds(g, ss[0], loop);
      SeqEnds(GenStmt(g, ss[0]), ss[1..], loop);
    }
  }

  lemma {:induction false} StmtEnds(g: Gen, s: Stmt, loop: bool)
    requires g.cur < |g.blocks| && InLoop(g, loop)
    ensures Terminated(GenStmt(g, s)) <==> Terminated(g) || !Falls(s, loop)
    decreases s, 1
  {
    hide Extends, Local, Grew, GenExpr, GenSeq, GenIf, GenSwitch, GenMatch, GenWhile, GenDoWhile, GenFor, GenCFor;
    if !Terminated(g) {
      match s
      case ExprStmt(e) => Names.ExprOpen(g, e);
      case VarDecl(_, _, _) => Names.InitOpen(g, s);
      case Return(value) => ReturnEnds(g, value);
      case Break =>
      case Continue =>
      case Unsafe(body) => SeqEnds(g, body, loop);
      case If(_, _, _) => BranchEnds(g, s);
      case Switch(_, _) => BranchEnds(g, s);
      case Match(_, _) => BranchEnds(g, s);
      case While(_, _) => LoopEnds(g, s);
      case DoWhile(_, _) => LoopEnds(g, s);
      case For(_, _, _) => LoopEnds(g, s);
      case CFor(_, _, _, _) => LoopEnds(g, s);
    }
  }

  lemma BranchEnds(g: Gen, s: Stmt)
    requires g.cur < |g.blocks|
    ensures s.If? ==> !Terminated(GenIf(g, s))
    ensures s.Switch? ==> !Terminated(GenSwitch(g, s))
    ensures s.Match? ==> !Terminated(GenMatch(g, s))
  {
    hide Extends, Local, Grew, GenExpr, GenIf, GenSwitch, GenMatch, SimStmt.EmptyBlocks, GenArm, GenArms, GenChecks, SwitchTable;
    if s.If? { SimStmt.IfShape(g, s); }
    if s.Switch? { SimStmt.SwitchShape(g, s); }
    if s.Match? { SimStmt.MatchShape(g, s); }
  }

  lemma LoopEnds(g: Gen, s: Stmt)
    requires g.cur < |g.blocks|
    ensures s.While? ==> !Terminated(GenWhile(g, s))
    ensures s.DoWhile? ==> !Terminated(GenDoWhile(g, s))
    ensures s.For? ==> !Terminated(GenFor(g, s))
    ensures s.CFor? ==> !Terminated(GenCFor(g, s))
  {
    hide Extends, Local, Grew, GenExpr, GenBody, GenWhile, GenDoWhile, GenFor, GenCFor, ForStep, UpdateTail, SimStmt.ForHead, SimStmt.ForOpen, SimStmt.ForFoot, SimStmt.CForOpen, SimStmt.CForFoot;
    if s.While? { SimStmt.WhileShape(g, s); SimStmt.WhileOrder(g, s); }
    if s.DoWhile? { SimStmt.DoWhileShape(g, s); SimStmt.DoWhileBlocks(g, s); SimStmt.DoWhileOrder(g, s); }
    if s.For? { SimStmt.ForShape2(g, s); }
    if s.CFor? { SimStmt.CForShape2(g, s); }
  }

  lemma {:induction false} SeqBroken(g: Gen, ss: seq<Stmt>, loop: bool)
    requires g.cur < |g.blocks| && InLoop(g, loop) && !NoDeadJump(ss, loop, !Terminated(g))
    ensures Broken(GenSeq(g, ss).blocks)
    decreases ss, 0
  {
    hide Extends, Local, GenStmt, Clean, Falls, Terminated, Broken;
    var g1 := GenStmt(g, ss[0]);
    if !Clean(ss[0], loop, !Terminated(g)) {
      StmtBroken(g, ss[0], loop);
      BrokenStays(g1.blocks, GenSeq(g, ss).blocks);
    } else {
      StmtEnds(g, ss[0], loop);
      SeqBroken(g1, ss[1..], loop);
    }
  }

  lemma ReturnEnds(g: Gen, value: Option<Expr>)
    requires g.cur < |g.blocks|
    ensures Terminated(GenReturn(g, value))
  {
    hide Extends, Local, GenExpr;
  }

  lemma {:induction false} StmtBroken(g: Gen, s: Stmt, loop: bool)
    requires g.cur < |g.blocks| && InLoop(g, loop) && !Clean(s, loop, !Terminated(g))
    ensures Broken(GenStmt(g, s).blocks)
    decreases s, 2
  {
    hide Extends, Local, Grew, GenExpr, GenSeq, GenIf, GenSwitch, GenMatch, GenWhile, GenDoWhile, GenFor, GenCFor, NoDeadJump, CleanArms, Broken, Falls;
    if s.Break? || s.Continue? {
      JumpBroken(g, if s.Break? then g.brk.value else g.cont.value);
    } else {
      match s
      case Unsafe(body) => SeqBroken(g, body, loop);
      case If(_, _, _) => IfBroken(g, s, loop);
      case Switch(_, _) => SwitchBroken(g, s, loop);
      case Match(_, _) => MatchBroken(g, s, loop);
      case While(_, _) => WhileBroken(g, s);
      case DoWhile(_, _) => DoWhileBroken(g, s);
      case For(_, _, _) => ForBroken(g, s);
      case CFor(_, _, _, _) => CForBroken(g, s, loop);
    }
  }

  lemma JumpBroken(g: Gen, t: nat)
    requires g.cur < |g.blocks| && Terminated(g)
    ensures Broken(Put(g, Br(t)).blocks)
  {
    var b, b1 := g.blocks[g.cur], Put(g, Br(t)).blocks[g.cur];
    assert b1[|b| - 1] == b[|b| - 1];
    assert IsTerminator(Put(g, Br(t)).blocks[g.cur][|b| - 1]);
  }

  lemma {:induction false} ArmBroken(g: Gen, body: seq<Stmt>, m: nat, loop: bool, code: Cfg)
    requires g.cur < |g.blocks| && InLoop(g, loop) && g.blocks[g.cur] == [] && !NoDeadJump(body, loop, true)
    requires Extends(GenArm(g, body, m).blocks, code)
    ensures Broken(code)
    decreases body, 1
  {
    hide Extends, Local, GenSeq, NoDeadJump, Broken;
    SimStmt.EmptyOpen(g);
    SeqBroken(g, body, loop);
    BrokenStays(GenSeq(g, body).blocks, GenArm(g, body, m).blocks);
    BrokenStays(GenArm(g, body, m).blocks, code);
  }

  lemma {:induction false} BodyBroken(g: Gen, body: seq<Stmt>, brk: nat, cont: nat, code: Cfg)
    requires g.cur < |g.blocks| && g.blocks[g.cur] == [] && !NoDeadJump(body, true, true)
    requires Extends(GenBody(g, body, brk, cont).blocks, code)
    ensures Broken(code)
    decreases body, 2
  {
    hide Extends, Local, GenArm, GenBody, NoDeadJump, Broken;
    BodyIsArm(g, body, brk, cont);
    ArmBroken(WithTargets(g, Some(brk), Some(cont)), body, cont, true, code);
  }

  lemma {:induction false} IfBroken(g: Gen, s: Stmt, loop: bool)
    requires g.cur < |g.blocks| && InLoop(g, loop) && s.If?
    requires !NoDeadJump(s.thn, loop, true) || (s.els.Else? && !NoDeadJump(s.els.body, loop, true))
    ensures Broken(GenIf(g, s).blocks)
    decreases s, 0
  {
    hide Extends, Local, GenExpr, GenArm, GenIf, NoDeadJump, Broken;
    SimStmt.IfShape(g, s);
    var a := GenExpr(g, s.cond);
    var thn, g1 := |a.g.blocks|, OpenIf(a, s.els.Else?);
    var g2 := GenArm(g1, s.thn, thn + 1);
    if !NoDeadJump(s.thn, loop, true) {
      ArmBroken(g1, s.thn, thn + 1, loop, GenIf(g, s).blocks);
    } else {
      ArmBroken(PositionAt(g2, thn + 2), s.els.body, thn + 1, loop, GenIf(g, s).blocks);
    }
  }

  lemma {:induction false} ArmsBroken(g: Gen, arms: seq<Arm>, from: nat, first: nat, merge: nat, t: nat, loop: bool)
    requires g.cur < |g.blocks| && from <= t < |arms| && first + |arms| <= |g.blocks| && InLoop(g, loop)
    requires SimStmt.EmptyBlocks(g, first + from, first + |arms|) && !NoDeadJump(arms[t].body, loop, true)
    ensures Broken(GenArms(g, arms, from, first, merge).blocks)
    decreases arms, |arms| - from
  {
    hide Extends, Local, GenArm, NoDeadJump, Broken;
    var g1 := PositionAt(g, first + from);
    var g2 := GenArm(g1, arms[from].body, merge);
    if from == t {
      ArmBroken(g1, arms[t].body, merge, loop, GenArms(g, arms, from, first, merge).blocks);
    } else {
      SimStmt.EmptyLater(g1, g2, first + from + 1, first + |arms|);
      ArmsBroken(g2, arms, from + 1, first, merge, t, loop);
    }
  }

  lemma {:induction false} SwitchBroken(g: Gen, s: Stmt, loop: bool)
    requires g.cur < |g.blocks| && InLoop(g, loop) && s.Switch? && !CleanArms(s.arms, loop)
    ensures Broken(GenSwitch(g, s).blocks)
    decreases s, 0
  {
    hide Extends, Local, GenExpr, GenArms, GenSwitch, NoDeadJump, Broken, SwitchTable;
    SimStmt.SwitchShape(g, s);
    var t :| 0 <= t < |s.arms| && !NoDeadJump(s.arms[t].body, loop, true);
    var a := GenExpr(g, s.e);
    var merge := |a.g.blocks|;
    var g2 := Put(OpenArms(a, |s.arms|), Instr.Switch(a.val, DefaultBlock(Semantics.LastDefault(s.arms), merge + 1, merge), SwitchTable(s.arms, merge + 1)));
    ArmsBroken(g2, s.arms, 0, merge + 1, merge, t, loop);
  }

  lemma {:induction false} MatchBroken(g: Gen, s: Stmt, loop: bool)
    requires g.cur < |g.blocks| && InLoop(g, loop) && s.Match? && !CleanArms(s.arms, loop)
    ensures Broken(GenMatch(g, s).blocks)
    decreases s, 0
  {
    hide Extends, Local, GenExpr, GenArms, GenMatch, GenChecks, NoDeadJump, Broken;
    SimStmt.MatchShape(g, s);
    var t :| 0 <= t < |s.arms| && !NoDeadJump(s.arms[t].body, loop, true);
    var a := GenExpr(g, s.e);
    var merge := |a.g.blocks|;
    var g2 := GenChecks(OpenArms(a, |s.arms|), s.arms, 0, a.val, merge + 1);
    var g3 := Put(g2, Br(DefaultBlock(Semantics.LastDefault(s.arms), merge + 1, merge)));
    ArmsBroken(g3, s.arms, 0, merge + 1, merge, t, loop);
  }

  lemma {:induction false} WhileBroken(g: Gen, s: Stmt)
    requires g.cur < |g.blocks| && s.While? && !NoDeadJump(s.body, true, true)
    ensures Broken(GenWhile(g, s).blocks)
    decreases s, 0
  {
    hide Extends, Local, GenExpr, GenBody, GenWhile, NoDeadJump, Broken;
    SimStmt.WhileShape(g, s);
    SimStmt.WhileOrder(g, s);
    var cond, body, end := |g.blocks|, |g.blocks| + 1, |g.blocks| + 2;
    var a := GenExpr(Seal(OpenLoop(g, 3), Br(cond), cond), s.cond);
    var g2 := Seal(a.g, CondBr(a.val, body, end), body);
    SimStmt.ExtendsSame(GenWhile(g, s).blocks);
    BodyBroken(g2, s.body, end, cond, GenWhile(g, s).blocks);
  }

  lemma {:induction false} DoWhileBroken(g: Gen, s: Stmt)
    requires g.cur < |g.blocks| && s.DoWhile? && !NoDeadJump(s.body, true, true)
    ensures Broken(GenDoWhile(g, s).blocks)
    decreases s, 0
  {
    hide Extends, Local, GenExpr, GenBody, GenDoWhile, NoDeadJump, Broken;
    SimStmt.DoWhileShape(g, s);
    SimStmt.DoWhileBlocks(g, s);
    SimStmt.DoWhileOrder(g, s);
    var body, cond, end := |g.blocks|, |g.blocks| + 1, |g.blocks| + 2;
    var g1 := Seal(OpenLoop(g, 3), Br(body), body);
    var g2 := GenBody(g1, s.body, end, cond);
    var a := GenExpr(PositionAt(g2, cond), s.cond);
    SimExpr.ExtendsTrans(g2.blocks, a.g.blocks, GenDoWhile(g, s).blocks);
    BodyBroken(g1, s.body, end, cond, GenDoWhile(g, s).blocks);
  }

  lemma {:induction false} ForBroken(g: Gen, s: Stmt)
    requires g.cur < |g.blocks| && s.For? && !NoDeadJump(s.body, true, true)
    ensures Broken(GenFor(g, s).blocks)
    decreases s, 0
  {
    hide Extends, Local, GenBody, GenFor, NoDeadJump, Broken, ForStep, SimStmt.ForHead, SimStmt.ForTestCode, SimStmt.ForOpen, SimStmt.ForFoot;
    SimStmt.ForShape(g, s);
    SimStmt.ForShape2(g, s);
    BodyBroken(SimStmt.ForOpen(g, s), s.body, |g.blocks| + 3, |g.blocks| + 2, GenFor(g, s).blocks);
  }

  lemma {:induction false} CForBroken(g: Gen, s: Stmt, loop: bool)
    requires g.cur < |g.blocks| && InLoop(g, loop) && s.CFor? && !Terminated(g) && !Clean(s, loop, true)
    ensures Broken(GenCFor(g, s).blocks)
    decreases s, 1
  {
    hide Extends, Local, GenBody, GenCFor, GenStmt, NoDeadJump, Broken, UpdateTail, SimStmt.CForTest, SimStmt.CForOpen, SimStmt.CForFoot, Falls;
    SimStmt.CForShape(g, s);
    SimStmt.CForShape2(g, s);
    var g0, g1, g2, g3 := OpenLoop(g, 4), SimStmt.CForHead(g, s), SimStmt.CForTest(g, s), SimStmt.CForOpen(g, s);
    var g4 := GenBody(g3, s.body, |g.blocks| + 3, |g.blocks| + 2);
    SimExpr.ExtendsTrans(g3.blocks, g4.blocks, GenCFor(g, s).blocks);
    SimExpr.ExtendsTrans(g2.blocks, g3.blocks, GenCFor(g, s).blocks);
    SimExpr.ExtendsTrans(g1.blocks, g2.blocks, GenCFor(g, s).blocks);
    if !NoDeadJump(s.body, true, true) {
      BodyBroken(g3, s.body, |g.blocks| + 3, |g.blocks| + 2, GenCFor(g, s).blocks);
    } else {
      Names.OpenLoopSame(g, 4);
      if !Clean(s.finit.value, loop, true) {
        StmtBroken(g0, s.finit.value, loop);
        BrokenStays(g1.blocks, GenCFor(g, s).blocks);
      } else {
        StmtEnds(g0, s.finit.value, loop);
        JumpBroken(g1, |g.blocks|);
        BrokenStays(g2.blocks, GenCFor(g, s).blocks);
      }
    }
  }

  /** The graph is well formed if and only if no `break` or `continue` directly follows a
      point that control cannot pass. */
  lemma WellFormedIff(f: Func, vars: seq<Var>)
    ensures WellFormed(GenFunc(f, vars).blocks) <==> NoDeadJump(f.body, false, true)
  {
    hide WellFormed, GenSeq, GenParams, Extends, NoDeadJump, Broken;
    if NoDeadJump(f.body, false, true) {
      CleanIsWellFormed(f, vars);
    } else {
      var g1 := GenParams(Entry(f, vars), f.params, 0);
      Compile.ParamsOpen(Entry(f, vars), f.params, 0);
      SeqBroken(g1, f.body, false);
      Compile.CodeParts(f, vars);
      BrokenStays(GenSeq(g1, f.body).blocks, GenFunc(f, vars).blocks);
      BrokenIsNot(GenFunc(f, vars).blocks);
    }
  }
}
