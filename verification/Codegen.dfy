/** The emitters as the compiler has them: one object whose builder position, block list,
    variable registry and loop targets every method updates in place.  Each method leaves
    exactly the state the corresponding function of Emit.dfy and EmitStmt.dfy describes. */

module Codegen {
  import opened Int64
  import opened Options
  import opened Syntax
  import opened Values
  import Semantics
  import opened Ir
  import opened Emit
  import opened EmitStmt

  lemma AppendTwice(g: Gen, n: nat)
    requires g.cur < |g.blocks|
    ensures Append(Append(g, n), 1) == Append(g, n + 1) && Append(g, 0) == g
  {
    assert Append(Append(g, n), 1).blocks == Append(g, n + 1).blocks;
  }

  lemma AppendSome(g: Gen)
    requires g.cur < |g.blocks|
    ensures Append(Append(g, 1), 1) == Append(g, 2)
    ensures Append(Append(g, 2), 1) == Append(g, 3)
    ensures Append(Append(g, 3), 1) == Append(g, 4)
  {
    AppendTwice(g, 1);
    AppendTwice(g, 2);
    AppendTwice(g, 3);
  }

  /** The emitters' bodies without their proofs. */
  lemma UnfoldTernary(g: Gen, e: Expr)
    requires g.cur < |g.blocks| && e.Ternary?
    ensures var a := GenExpr(g, e.cond);
      var b := GenExpr(OpenTernary(a), e.thn);
      GenTernary(g, e) == CloseTernary(a, b, GenExpr(MiddleTernary(a, b), e.els))
  {
    hide GenExpr, Extends, Local;
  }

  lemma UnfoldIf(g: Gen, s: Stmt)
    requires g.cur < |g.blocks| && s.If?
    ensures var a := GenExpr(g, s.cond);
      var thn := |a.g.blocks|;
      var g2 := GenArm(OpenIf(a, s.els.Else?), s.thn, thn + 1);
      && thn + 1 < |g2.blocks| && (s.els.Else? ==> thn + 2 < |g2.blocks|)
      && GenIf(g, s) == PositionAt(if s.els.Else? then GenArm(PositionAt(g2, thn + 2), s.els.body, thn + 1) else g2, thn + 1)
  {
    hide GenExpr, GenArm, Extends, Local;
  }

  lemma UnfoldWhile(g: Gen, s: Stmt)
    requires g.cur < |g.blocks| && s.While?
    ensures var cond, body, end := |g.blocks|, |g.blocks| + 1, |g.blocks| + 2;
      var a := GenExpr(Seal(OpenLoop(g, 3), Br(cond), cond), s.cond);
      && end < |a.g.blocks|
      && var g3 := GenBody(Seal(a.g, CondBr(a.val, body, end), body), s.body, end, cond);
         end < |g3.blocks| && GenWhile(g, s) == PositionAt(g3, end)
  {
    hide GenExpr, GenBody, Extends, Local;
  }

  lemma UnfoldDoWhile(g: Gen, s: Stmt)
    requires g.cur < |g.blocks| && s.DoWhile?
    ensures var body, cond, end := |g.blocks|, |g.blocks| + 1, |g.blocks| + 2;
      var g2 := GenBody(Seal(OpenLoop(g, 3), Br(body), body), s.body, end, cond);
      && end < |g2.blocks|
      && var a := GenExpr(PositionAt(g2, cond), s.cond);
         end < |a.g.blocks| && GenDoWhile(g, s) == Seal(a.g, CondBr(a.val, body, end), end)
  {
    hide GenExpr, GenBody, Extends, Local;
  }

  lemma UnfoldFor(g: Gen, s: Stmt)
    requires g.cur < |g.blocks| && s.For?
    ensures var cond, body, incr, end := |g.blocks|, |g.blocks| + 1, |g.blocks| + 2, |g.blocks| + 3;
      var (g1, hi) := ForInit(OpenLoop(g, 4), s.x, s.iter);
      && end < |g1.blocks| && g1.next > 0
      && var c := ForTest(Seal(g1, Br(cond), cond), Reg(g1.next - 1), hi);
         && end < |c.g.blocks|
         && var g4 := GenBody(Seal(c.g, CondBr(c.val, body, end), body), s.body, end, incr);
            && end < |g4.blocks|
            && var g6 := ForStep(PositionAt(g4, incr), Reg(g1.next - 1), cond);
               end < |g6.blocks| && GenFor(g, s) == PositionAt(g6, end)
  {
    hide GenExpr, GenBody, ForInit, ForTest, ForStep, Extends, Local;
  }

  lemma UnfoldCFor(g: Gen, s: Stmt)
    requires g.cur < |g.blocks| && s.CFor?
    ensures var cond, body, update, end := |g.blocks|, |g.blocks| + 1, |g.blocks| + 2, |g.blocks| + 3;
      var g0 := OpenLoop(g, 4);
      var g1 := if s.finit.None? then g0 else GenStmt(g0, s.finit.value);
      && g1.cur < |g1.blocks| && end < |g1.blocks|
      && var g3 := CondHead(Seal(g1, Br(cond), cond), s.fcond, body, end);
         && end < |g3.blocks|
         && var g4 := GenBody(g3, s.body, end, update);
            && end < |g4.blocks|
            && var g6 := UpdateTail(PositionAt(g4, update), s.update, cond);
               end < |g6.blocks| && GenCFor(g, s) == PositionAt(g6, end)
  {
    hide GenStmt, GenBody, CondHead, UpdateTail, Extends, Local;
  }

  lemma UnfoldSwitch(g: Gen, s: Stmt)
    requires g.cur < |g.blocks| && s.Switch?
    ensures var a := GenExpr(g, s.e);
      var merge, g1 := |a.g.blocks|, OpenArms(a, |s.arms|);
      var default := DefaultBlock(Semantics.LastDefault(s.arms), merge + 1, merge);
      var g3 := GenArms(Put(g1, Instr.Switch(a.val, default, SwitchTable(s.arms, merge + 1))), s.arms, 0, merge + 1, merge);
      merge < |g3.blocks| && GenSwitch(g, s) == PositionAt(g3, merge)
  {
    hide GenExpr, GenArms, Extends, Local, SwitchTable;
  }

  lemma UnfoldMatch(g: Gen, s: Stmt)
    requires g.cur < |g.blocks| && s.Match?
    ensures var a := GenExpr(g, s.e);
      var merge, g1 := |a.g.blocks|, OpenArms(a, |s.arms|);
      var g2 := GenChecks(g1, s.arms, 0, a.val, merge + 1);
      var default := DefaultBlock(Semantics.LastDefault(s.arms), merge + 1, merge);
      && merge + 1 + |s.arms| <= |g2.blocks|
      && var g4 := GenArms(Put(g2, Br(default)), s.arms, 0, merge + 1, merge);
         merge < |g4.blocks| && GenMatch(g, s) == PositionAt(g4, merge)
  {
    hide GenExpr, GenArms, GenChecks, Extends, Local;
  }

  class Codegen {
    var blocks: Cfg
    var cur: nat
    var next: nat
    var vars: seq<Var>
    var breakTarget: Option<nat>
    var continueTarget: Option<nat>
    var failed: bool

    predicate Valid()
      reads this
    {
      cur < |blocks|
    }

    function Model(): Gen
      reads this
    {
      Gen(blocks, cur, next, vars, breakTarget, continueTarget, failed)
    }

    /** The state at the start of a function's body (src/codegen/decl.c:79-88). */
    constructor (f: Func, registry: seq<Var>)
      ensures Valid() && Model() == Entry(f, registry)
    {
      blocks, cur, next := [[]], 0, |f.params|;
      vars, breakTarget, continueTarget, failed := registry, None, None, false;
    }

    method AppendBlock() returns (b: nat)
      requires Valid()
      modifies this`blocks
      ensures Valid() && Model() == Append(old(Model()), 1)
      ensures b == old(|blocks|) && |blocks| == b + 1
    {
      b := |blocks|;
      blocks := blocks + [[]];
    }

    method PositionAtEnd(b: nat)
      requires b < |blocks|
      modifies this`cur
      ensures Valid() && Model() == PositionAt(old(Model()), b)
    {
      cur := b;
    }

    method Build(i: Instr)
      requires Valid()
      modifies this`blocks
      ensures Valid() && Model() == Put(old(Model()), i)
      ensures |blocks| == old(|blocks|)
    {
      blocks := blocks[cur := blocks[cur] + [i]];
    }

    /** An instruction whose result is the next register. */
    method BuildValue(i: Instr, ty: Ty) returns (v: Operand)
      requires Valid()
      modifies this`blocks, this`next
      ensures Valid() && Code(Model(), v, ty) == Result(old(Model()), i, ty)
      ensures |blocks| == old(|blocks|)
    {
      Build(i);
      v := Reg(next);
      next := next + 1;
    }

    method HasTerminator() returns (t: bool)
      requires Valid()
      ensures t == Terminated(Model())
    {
      var b := blocks[cur];
      t := b != [] && IsTerminator(b[|b| - 1]);
    }

    method BranchUnlessTerminated(target: nat)
      requires Valid()
      modifies this`blocks
      ensures Valid() && Model() == CloseArm(old(Model()), target) && |blocks| == old(|blocks|)
    {
      hide Extends, Local;
      var t := HasTerminator();
      if !t {
        Build(Br(target));
      }
    }

    method VarPush(x: Name, ptr: Operand, ty: Ty)
      modifies this`vars
      ensures Model() == PushVar(old(Model()), x, ptr, ty)
    {
      vars := vars + [Var(x, ptr, ty)];
    }

    /** The registry is searched from its end (src/codegen/ctx.c:154-178). */
    method VarLookup(x: Name) returns (v: Option<Var>)
      ensures v == Lookup(vars, x)
    {
      var i := |vars|;
      v := None;
      assert vars[..i] == vars;
      while i > 0
        invariant i <= |vars|
        invariant v.None? && Lookup(vars, x) == Lookup(vars[..i], x)
      {
        if vars[i - 1].x == x {
          v := Some(vars[i - 1]);
          assert vars[..i][..i - 1] == vars[..i - 1];
          return;
        }
        assert vars[..i][..i - 1] == vars[..i - 1];
        i := i - 1;
      }
    }

    method CodegenExpr(e: Expr) returns (v: Operand, ty: Ty)
      requires Valid()
      modifies this
      ensures Valid() && Code(Model(), v, ty) == GenExpr(old(Model()), e) && |blocks| >= old(|blocks|)
      decreases e, 1
    {
      hide Extends, Local, Lookup, Put, Append, Below;
      match e
      case IntLit(n) => v, ty := Const(IntV(n)), TInt;
      case Ident(x) =>
        var found := VarLookup(x);
        if found.None? {
          failed := true;
          v, ty := Const(IntV(0)), TInt;
        } else {
          ty := found.value.ty;
          v := BuildValue(Load(next, ty, found.value.ptr), ty);
        }
      case Binary(op, l, r) =>
        var a, aty := CodegenExpr(l);
        var b, bty := CodegenExpr(r);
        ty := OpType(OpCode(op));
        v := BuildValue(Bin(next, OpCode(op), a, b), ty);
      case And(l, r) => v, ty := CodegenShort(e);
      case Or(l, r) => v, ty := CodegenShort(e);
      case Ternary(c, t, f) => v, ty := CodegenTernary(e);
      case Neg(e1) =>
        var a, aty := CodegenExpr(e1);
        ty := TInt;
        v := BuildValue(Bin(next, OSub, Const(IntV(0)), a), ty);
      case BitNot(e1) =>
        var a, aty := CodegenExpr(e1);
        ty := TInt;
        v := BuildValue(XorOnes(next, a), ty);
      case IncDec(inc, prefix, x) => v, ty := CodegenIncDec(e);
      case Assign(x, aop, value) => v, ty := CodegenAssign(e);
    }

    /** `&&` and `||` (src/codegen/expr.c:135-157). */
    method CodegenShort(e: Expr) returns (v: Operand, ty: Ty)
      requires Valid() && (e.And? || e.Or?)
      modifies this
      ensures Valid() && Code(Model(), v, ty) == GenShort(old(Model()), e) && |blocks| >= old(|blocks|)
      decreases e, 0
    {
      hide Extends, Local, Put, Append, Below, GenExpr;
      var left, lty := CodegenExpr(e.left);
      var start := cur;
      ghost var a := Code(Model(), left, lty);
      AppendSome(a.g);
      var rhs := AppendBlock();
      var merge := AppendBlock();
      if e.And? {
        Build(CondBr(left, rhs, merge));
      } else {
        Build(CondBr(left, merge, rhs));
      }
      PositionAtEnd(rhs);
      assert Model() == OpenShort(a, e.And?);
      var right, rty := CodegenExpr(e.right);
      ghost var b := Code(Model(), right, rty);
      Build(Br(merge));
      var rhsEnd := cur;
      PositionAtEnd(merge);
      assert Model() == MergeShort(a, b, e.And?);
      ty := TBool;
      v := BuildValue(Phi(next, Const(BoolV(!e.And?)), start, right, rhsEnd), ty);
    }

    method CodegenTernary(e: Expr) returns (v: Operand, ty: Ty)
      requires Valid() && e.Ternary?
      modifies this
      ensures Valid() && Code(Model(), v, ty) == GenTernary(old(Model()), e) && |blocks| >= old(|blocks|)
      decreases e, 0
    {
      hide Extends, Local, Put, Append, Below, GenExpr, Grew, GenTernary;
      UnfoldTernary(Model(), e);
      var cond, cty := CodegenExpr(e.cond);
      ghost var a := Code(Model(), cond, cty);
      AppendSome(a.g);
      var thenBlock := AppendBlock();
      var elseBlock := AppendBlock();
      var merge := AppendBlock();
      Build(CondBr(cond, thenBlock, elseBlock));
      PositionAtEnd(thenBlock);
      assert Model() == OpenTernary(a);
      var tv, tty := CodegenExpr(e.thn);
      ghost var b := Code(Model(), tv, tty);
      Build(Br(merge));
      var thenEnd := cur;
      PositionAtEnd(elseBlock);
      assert Model() == MiddleTernary(a, b);
      var ev, ety := CodegenExpr(e.els);
      ghost var d := Code(Model(), ev, ety);
      Build(Br(merge));
      var elseEnd := cur;
      PositionAtEnd(merge);
      assert Model() == MergeTernary(a, b, d);
      ty := tty;
      v := BuildValue(Phi(next, tv, thenEnd, ev, elseEnd), ty);
    }

    method CodegenIncDec(e: Expr) returns (v: Operand, ty: Ty)
      requires Valid() && e.IncDec?
      modifies this
      ensures Valid() && Code(Model(), v, ty) == GenExpr(old(Model()), e) && |blocks| >= old(|blocks|)
      decreases e, 0
    {
      hide Extends, Local, Lookup, Put, Below;
      var found := VarLookup(e.x);
      if found.None? {
        failed := true;
        v, ty := Const(IntV(0)), TInt;
      } else {
        var ptr := found.value.ptr;
        ty := found.value.ty;
        var before := BuildValue(Load(next, ty, ptr), ty);
        var after := BuildValue(Bin(next, if e.inc then OAdd else OSub, before, Const(IntV(1))), ty);
        Build(Store(after, ptr));
        v := if e.prefix then after else before;
      }
    }

    method CodegenAssign(e: Expr) returns (v: Operand, ty: Ty)
      requires Valid() && e.Assign?
      modifies this
      ensures Valid() && Code(Model(), v, ty) == GenExpr(old(Model()), e) && |blocks| >= old(|blocks|)
      decreases e, 0
    {
      hide Extends, Local, Lookup, Put, Below;
      var found := VarLookup(e.x);
      if found.None? {
        failed := true;
        v, ty := Const(IntV(0)), TInt;
        return;
      }
      var ptr := found.value.ptr;
      v, ty := CodegenExpr(e.value);
      if e.aop == AssignOp.Set {
        Build(Store(v, ptr));
      } else {
        var loaded := BuildValue(Load(next, ty, ptr), ty);
        v := BuildValue(Bin(next, AssignCode(e.aop), loaded, v), ty);
        Build(Store(v, ptr));
      }
    }

    method CodegenBlock(ss: seq<Stmt>)
      requires Valid()
      modifies this
      ensures Valid() && Model() == GenSeq(old(Model()), ss) && |blocks| >= old(|blocks|)
      decreases ss, 0
    {
      hide Extends, Local, GenStmt;
      var i := 0;
      assert ss[0..] == ss;
      while i < |ss|
        invariant i <= |ss| && Valid() && |blocks| >= old(|blocks|)
        invariant GenSeq(old(Model()), ss) == GenSeq(Model(), ss[i..])
      {
        CodegenStmt(ss[i]);
        assert ss[i..][1..] == ss[i + 1..];
        i := i + 1;
      }
    }

    method CodegenStmt(s: Stmt)
      requires Valid()
      modifies this
      ensures Valid() && Model() == GenStmt(old(Model()), s) && |blocks| >= old(|blocks|)
      decreases s, 1
    {
      hide Extends, Local, GenExpr, GenSeq, GenIf, GenSwitch, GenMatch, GenWhile, GenDoWhile, GenFor, GenCFor, Put;
      if s.Break? || s.Continue? {
        var target := if s.Break? then breakTarget else continueTarget;
        if target.Some? {
          Build(Br(target.value));
        }
        return;
      }
      var ended := HasTerminator();
      if ended {
        return;
      }
      match s
      case ExprStmt(e) => var v, ty := CodegenExpr(e);
      case VarDecl(ty, x, init) => CodegenVarDecl(ty, x, init);
      case Return(value) => CodegenReturn(value);
      case Unsafe(body) => CodegenBlock(body);
      case If(_, _, _) => CodegenIf(s);
      case Switch(_, _) => CodegenSwitch(s);
      case Match(_, _) => CodegenMatch(s);
      case While(_, _) => CodegenWhile(s);
      case DoWhile(_, _) => CodegenDoWhile(s);
      case For(_, _, _) => CodegenFor(s);
      case CFor(_, _, _, _) => CodegenCStyleFor(s);
    }

    method CodegenVarDecl(ty: Ty, x: Name, init: Option<Expr>)
      requires Valid()
      modifies this
      ensures Valid() && Model() == GenVarDecl(old(Model()), ty, x, init) && |blocks| >= old(|blocks|)
    {
      hide Extends, Local, GenExpr, Put;
      var slot := BuildValue(Alloca(next, ty), ty);
      VarPush(x, slot, ty);
      if init.Some? {
        var v, vty := CodegenExpr(init.value);
        if vty != ty {
          v := BuildValue(if ty == TBool then Trunc(next, v) else SExt(next, v), ty);
        }
        Build(Store(v, slot));
      }
    }

    method CodegenReturn(value: Option<Expr>)
      requires Valid()
      modifies this
      ensures Valid() && Model() == GenReturn(old(Model()), value) && |blocks| >= old(|blocks|)
    {
      hide Extends, Local, GenExpr, Put;
      if value.Some? {
        var v, ty := CodegenExpr(value.value);
        Build(Ret(v));
      } else {
        Build(RetVoid);
      }
    }

    /** The arm of a conditional or of a case. */
    method CodegenArm(body: seq<Stmt>, merge: nat)
      requires Valid()
      modifies this
      ensures Valid() && Model() == GenArm(old(Model()), body, merge) && |blocks| >= old(|blocks|)
      decreases body, 1
    {
      hide Extends, Local, Grew, GenSeq, CloseArm;
      CodegenBlock(body);
      BranchUnlessTerminated(merge);
    }

    /** The body of a loop, with the loop's own targets while it lasts. */
    method CodegenLoopBody(body: seq<Stmt>, brk: nat, cont: nat)
      requires Valid()
      modifies this
      ensures Valid() && Model() == GenBody(old(Model()), body, brk, cont) && |blocks| >= old(|blocks|)
      decreases body, 1
    {
      hide Extends, Local, Grew, GenSeq, CloseArm;
      var savedBreak, savedContinue := breakTarget, continueTarget;
      breakTarget, continueTarget := Some(brk), Some(cont);
      CodegenBlock(body);
      breakTarget, continueTarget := savedBreak, savedContinue;
      BranchUnlessTerminated(cont);
    }

    method CodegenIf(s: Stmt)
      requires Valid() && s.If?
      modifies this
      ensures Valid() && Model() == GenIf(old(Model()), s) && |blocks| >= old(|blocks|)
      decreases s, 0
    {
      hide Extends, Local, Grew, Put, Append, GenExpr, GenBody, GenArm, GenArms, GenStmt, GenIf;
      UnfoldIf(Model(), s);
      var cond, cty := CodegenExpr(s.cond);
      ghost var a := Code(Model(), cond, cty);
      AppendSome(a.g);
      var thenBlock := AppendBlock();
      var merge := AppendBlock();
      var elseBlock := 0;
      if s.els.Else? {
        elseBlock := AppendBlock();
        Build(CondBr(cond, thenBlock, elseBlock));
      } else {
        Build(CondBr(cond, thenBlock, merge));
      }
      PositionAtEnd(thenBlock);
      assert Model() == OpenIf(a, s.els.Else?);
      CodegenArm(s.thn, merge);
      if s.els.Else? {
        PositionAtEnd(elseBlock);
        CodegenArm(s.els.body, merge);
      }
      PositionAtEnd(merge);
    }

    method CodegenWhile(s: Stmt)
      requires Valid() && s.While?
      modifies this
      ensures Valid() && Model() == GenWhile(old(Model()), s) && |blocks| >= old(|blocks|)
      decreases s, 0
    {
      hide Extends, Local, Grew, Put, Append, GenExpr, GenBody, GenArm, GenArms, GenStmt, GenWhile;
      UnfoldWhile(Model(), s);
      AppendSome(Model());
      var condBlock := AppendBlock();
      var bodyBlock := AppendBlock();
      var end := AppendBlock();
      Build(Br(condBlock));
      PositionAtEnd(condBlock);
      var cond, cty := CodegenExpr(s.cond);
      Build(CondBr(cond, bodyBlock, end));
      PositionAtEnd(bodyBlock);
      CodegenLoopBody(s.body, end, condBlock);
      PositionAtEnd(end);
    }

    method CodegenDoWhile(s: Stmt)
      requires Valid() && s.DoWhile?
      modifies this
      ensures Valid() && Model() == GenDoWhile(old(Model()), s) && |blocks| >= old(|blocks|)
      decreases s, 0
    {
      hide Extends, Local, Grew, Put, Append, GenExpr, GenBody, GenArm, GenArms, GenStmt, GenDoWhile;
      UnfoldDoWhile(Model(), s);
      AppendSome(Model());
      var bodyBlock := AppendBlock();
      var condBlock := AppendBlock();
      var end := AppendBlock();
      Build(Br(bodyBlock));
      PositionAtEnd(bodyBlock);
      CodegenLoopBody(s.body, end, condBlock);
      PositionAtEnd(condBlock);
      var cond, cty := CodegenExpr(s.cond);
      Build(CondBr(cond, bodyBlock, end));
      PositionAtEnd(end);
    }

    /** The four blocks of a `for` loop. */
    method AppendForBlocks() returns (condBlock: nat, bodyBlock: nat, step: nat, end: nat)
      requires Valid()
      modifies this`blocks
      ensures Valid() && Model() == OpenLoop(old(Model()), 4)
      ensures condBlock == old(|blocks|) && |blocks| == condBlock + 4
      ensures bodyBlock == condBlock + 1 && step == condBlock + 2 && end == condBlock + 3
    {
      hide Extends, Local, Append;
      AppendSome(Model());
      condBlock := AppendBlock();
      bodyBlock := AppendBlock();
      step := AppendBlock();
      end := AppendBlock();
    }

    /** The bounds of a range and the loop variable's slot. */
    method CodegenForInit(x: Name, iter: Iter) returns (slot: Operand, stop: Operand)
      requires Valid()
      modifies this
      ensures Valid() && (Model(), stop) == ForInit(old(Model()), x, iter) && |blocks| >= old(|blocks|)
      ensures next > 0 && slot == Reg(next - 1)
    {
      hide Extends, Local, GenExpr, Put, Grew;
      var start, sty := Const(IntV(0)), TInt;
      if iter.Range? {
        start, sty := CodegenExpr(iter.lo);
      }
      var ety;
      stop, ety := CodegenExpr(iter.hi);
      slot := BuildValue(Alloca(next, TInt), TInt);
      VarPush(x, slot, TInt);
      Build(Store(start, slot));
    }

    method CodegenForTest(slot: Operand, stop: Operand) returns (test: Operand)
      requires Valid()
      modifies this
      ensures Valid() && Code(Model(), test, TBool) == ForTest(old(Model()), slot, stop) && |blocks| == old(|blocks|)
    {
      hide Extends, Local, Put, Grew;
      var current := BuildValue(Load(next, TInt, slot), TInt);
      test := BuildValue(Bin(next, OICmp(SLT), current, stop), TBool);
    }

    method CodegenForStep(slot: Operand, condBlock: nat)
      requires Valid()
      modifies this
      ensures Valid() && Model() == ForStep(old(Model()), slot, condBlock) && |blocks| == old(|blocks|)
    {
      hide Extends, Local, Put, Grew;
      var current := BuildValue(Load(next, TInt, slot), TInt);
      var following := BuildValue(Bin(next, OAdd, current, Const(IntV(1))), TInt);
      Build(Store(following, slot));
      Build(Br(condBlock));
    }

    method CodegenFor(s: Stmt)
      requires Valid() && s.For?
      modifies this
      ensures Valid() && Model() == GenFor(old(Model()), s) && |blocks| >= old(|blocks|)
      decreases s, 0
    {
      hide Extends, Local, Grew, Put, Append, GenExpr, GenBody, ForInit, ForStep, GenFor, OpenLoop, ForTest;
      UnfoldFor(Model(), s);
      var condBlock, bodyBlock, incr, end := AppendForBlocks();
      var slot, stop := CodegenForInit(s.x, s.iter);
      Build(Br(condBlock));
      PositionAtEnd(condBlock);
      var test := CodegenForTest(slot, stop);
      Build(CondBr(test, bodyBlock, end));
      PositionAtEnd(bodyBlock);
      CodegenLoopBody(s.body, end, incr);
      PositionAtEnd(incr);
      CodegenForStep(slot, condBlock);
      PositionAtEnd(end);
    }

    /** The head of a C-style loop: a test, or a plain branch if there is none. */
    method CodegenCondHead(cond: Option<Expr>, bodyBlock: nat, end: nat)
      requires Valid() && bodyBlock < |blocks|
      modifies this
      ensures Valid() && Model() == CondHead(old(Model()), cond, bodyBlock, end) && |blocks| >= old(|blocks|)
    {
      hide Extends, Local, GenExpr, Put, Grew;
      if cond.Some? {
        var v, ty := CodegenExpr(cond.value);
        Build(CondBr(v, bodyBlock, end));
      } else {
        Build(Br(bodyBlock));
      }
      PositionAtEnd(bodyBlock);
    }

    method CodegenUpdate(update: Option<Expr>, condBlock: nat)
      requires Valid()
      modifies this
      ensures Valid() && Model() == UpdateTail(old(Model()), update, condBlock) && |blocks| >= old(|blocks|)
    {
      hide Extends, Local, GenExpr, Put, Grew;
      if update.Some? {
        var v, ty := CodegenExpr(update.value);
      }
      Build(Br(condBlock));
    }

    method CodegenCStyleFor(s: Stmt)
      requires Valid() && s.CFor?
      modifies this
      ensures Valid() && Model() == GenCFor(old(Model()), s) && |blocks| >= old(|blocks|)
      decreases s, 0
    {
      hide Extends, Local, Grew, Put, Append, GenExpr, GenBody, GenArm, GenArms, GenStmt, GenCFor, CondHead, UpdateTail, OpenLoop;
      UnfoldCFor(Model(), s);
      var condBlock, bodyBlock, update, end := AppendForBlocks();
      if s.finit.Some? {
        CodegenStmt(s.finit.value);
      }
      Build(Br(condBlock));
      PositionAtEnd(condBlock);
      CodegenCondHead(s.fcond, bodyBlock, end);
      CodegenLoopBody(s.body, end, update);
      PositionAtEnd(update);
      CodegenUpdate(s.update, condBlock);
      PositionAtEnd(end);
    }

    /** The bodies of the cases (src/codegen/stmt.c:270-277, 690-696). */
    method CodegenArms(arms: seq<Arm>, caseBlocks: seq<nat>, merge: nat)
      requires Valid() && |caseBlocks| == |arms| && merge + 1 + |arms| <= |blocks|
      requires forall i :: 0 <= i < |arms| ==> caseBlocks[i] == merge + 1 + i
      modifies this
      ensures Valid() && Model() == GenArms(old(Model()), arms, 0, merge + 1, merge) && |blocks| >= old(|blocks|)
      decreases arms, 0
    {
      hide Extends, Local, GenSeq, Put, CloseArm, Grew;
      var i := 0;
      while i < |arms|
        invariant i <= |arms| && Valid() && |blocks| >= old(|blocks|)
        invariant GenArms(old(Model()), arms, 0, merge + 1, merge) == GenArms(Model(), arms, i, merge + 1, merge)
      {
        PositionAtEnd(caseBlocks[i]);
        CodegenArm(arms[i].body, merge);
        i := i + 1;
      }
    }

    /** The merge block and one block a case; the last default wins. */
    method AppendCases(ghost a: Code, arms: seq<Arm>) returns (merge: nat, caseBlocks: seq<nat>, default: nat)
      requires Valid() && Model() == a.g
      modifies this`blocks
      ensures Valid() && Model() == OpenArms(a, |arms|)
      ensures merge == old(|blocks|) && |blocks| == merge + 1 + |arms|
      ensures |caseBlocks| == |arms| && forall i :: 0 <= i < |arms| ==> caseBlocks[i] == merge + 1 + i
      ensures default == DefaultBlock(Semantics.LastDefault(arms), merge + 1, merge)
    {
      hide Extends, Local, Append;
      AppendTwice(a.g, 0);
      merge := AppendBlock();
      default := merge;
      caseBlocks := [];
      var i := 0;
      while i < |arms|
        invariant i == |caseBlocks| <= |arms| && Valid() && |blocks| == merge + 1 + i
        invariant Model() == Append(a.g, 1 + i)
        invariant forall j :: 0 <= j < i ==> caseBlocks[j] == merge + 1 + j
        invariant default == DefaultBlock(Semantics.LastDefault(arms[..i]), merge + 1, merge)
      {
        AppendTwice(a.g, 1 + i);
        var b := AppendBlock();
        caseBlocks := caseBlocks + [b];
        if arms[i].tag.Default? {
          default := b;
        }
        assert arms[..i + 1][..i] == arms[..i];
        i := i + 1;
      }
      assert arms[..i] == arms;
    }

    /** The values of a `switch` with their blocks, in order. */
    method CaseTable(arms: seq<Arm>, caseBlocks: seq<nat>, first: nat) returns (table: seq<(i64, nat)>)
      requires |caseBlocks| == |arms| && forall i :: 0 <= i < |arms| ==> caseBlocks[i] == first + i
      ensures table == SwitchTable(arms, first)
    {
      table := [];
      var i := 0;
      assert arms[0..] == arms;
      while i < |arms|
        invariant i <= |arms|
        invariant SwitchTable(arms, first) == table + SwitchTable(arms[i..], first + i)
      {
        assert arms[i..][1..] == arms[i + 1..];
        if arms[i].tag.Value? {
          table := table + [(arms[i].tag.n, caseBlocks[i])];
        }
        i := i + 1;
      }
    }

    method CodegenSwitch(s: Stmt)
      requires Valid() && s.Switch?
      modifies this
      ensures Valid() && Model() == GenSwitch(old(Model()), s) && |blocks| >= old(|blocks|)
      decreases s, 0
    {
      hide Extends, Local, Grew, Put, OpenArms, GenExpr, GenArms, GenSwitch, SwitchTable;
      UnfoldSwitch(Model(), s);
      var v, ty := CodegenExpr(s.e);
      var merge, caseBlocks, default := AppendCases(Code(Model(), v, ty), s.arms);
      var table := CaseTable(s.arms, caseBlocks, merge + 1);
      Build(Instr.Switch(v, default, table));
      CodegenArms(s.arms, caseBlocks, merge);
      PositionAtEnd(merge);
    }

    /** The test of one pattern (src/codegen/stmt.c:656-681). */
    method CodegenPattern(p: Pattern, v: Operand) returns (c: Operand)
      requires Valid()
      modifies this
      ensures Valid() && Code(Model(), c, TBool) == GenPattern(old(Model()), p, v) && |blocks| >= old(|blocks|)
    {
      hide Extends, Local, GenExpr, Put, Grew;
      match p
      case PIn(_, lo, hi) =>
        var a, aty := CodegenExpr(lo);
        var b, bty := CodegenExpr(hi);
        var ge := BuildValue(Bin(next, OICmp(SGE), v, a), TBool);
        var lt := BuildValue(Bin(next, OICmp(SLT), v, b), TBool);
        c := BuildValue(AndI1(next, ge, lt), TBool);
      case PCmp(op, _, r) =>
        var a, aty := CodegenExpr(r);
        c := BuildValue(Bin(next, OpCode(op), v, a), TBool);
      case PVal(e) =>
        var a, aty := CodegenExpr(e);
        c := BuildValue(Bin(next, OICmp(EQ), v, a), TBool);
    }

    /** The chain of tests.  The builder is moved to a test's block only when there is a test
        to put there. */
    method CodegenChecks(arms: seq<Arm>, caseBlocks: seq<nat>, v: Operand, first: nat)
      requires Valid() && |caseBlocks| == |arms| && forall i :: 0 <= i < |arms| ==> caseBlocks[i] == first + i
      modifies this
      ensures Valid() && Model() == GenChecks(old(Model()), arms, 0, v, first) && |blocks| >= old(|blocks|)
    {
      hide Extends, Local, Grew, Put, Append, GenPattern;
      var check: nat := cur;
      var i := 0;
      while i < |arms|
        invariant i <= |arms| && Valid() && check < |blocks| && |blocks| >= old(|blocks|)
        invariant GenChecks(old(Model()), arms, 0, v, first) == GenChecks(PositionAt(Model(), check), arms, i, v, first)
      {
        if arms[i].tag.Test? {
          PositionAtEnd(check);
          var c := CodegenPattern(arms[i].tag.p, v);
          var following := AppendBlock();
          Build(CondBr(c, caseBlocks[i], following));
          check := following;
        }
        i := i + 1;
      }
      PositionAtEnd(check);
    }

    method CodegenMatch(s: Stmt)
      requires Valid() && s.Match?
      modifies this
      ensures Valid() && Model() == GenMatch(old(Model()), s) && |blocks| >= old(|blocks|)
      decreases s, 0
    {
      hide Extends, Local, Grew, Put, OpenArms, GenExpr, GenArms, GenChecks, GenMatch;
      UnfoldMatch(Model(), s);
      var v, ty := CodegenExpr(s.e);
      var merge, caseBlocks, default := AppendCases(Code(Model(), v, ty), s.arms);
      CodegenChecks(s.arms, caseBlocks, v, merge + 1);
      Build(Br(default));
      CodegenArms(s.arms, caseBlocks, merge);
      PositionAtEnd(merge);
    }

    /** A whole function on a fresh builder (src/codegen/decl.c:90-145). */
    method CodegenFunc(f: Func)
      requires Valid() && Model() == Entry(f, vars)
      modifies this
      ensures Valid() && blocks == GenFunc(f, old(vars)).blocks && vars == VarsAfter(f, old(vars))
    {
      hide Extends, Local, GenSeq, Grew;
      var i := 0;
      while i < |f.params|
        invariant i <= |f.params| && Valid()
        invariant GenParams(old(Model()), f.params, 0) == GenParams(Model(), f.params, i)
      {
        var slot := BuildValue(Alloca(next, f.params[i].ty), f.params[i].ty);
        Build(Store(Reg(i), slot));
        VarPush(f.params[i].x, slot, f.params[i].ty);
        i := i + 1;
      }
      var saved := |vars|;
      CodegenBlock(f.body);
      var ended := HasTerminator();
      if !ended {
        Build(if f.ret.None? then RetVoid else Ret(Const(Zero(f.ret.value))));
      }
      vars := vars[..saved];
    }
  }
}
