/** The static rules the simulation relies on.  They are those of src/frontend/typecheck.c on
    the scalar fragment, except that stores convert nothing (src/codegen/expr.c:383 stores the
    value as it is) and that no declaration hides a name still in scope. */

module Typing {
  import opened Options
  import opened Syntax
  import opened Values
  import opened Semantics

  type Ctx = map<Name, Ty>

  predicate Comparison(op: BinOp) {
    op == Lt || op == Gt || op == Le || op == Ge || op == Eq || op == Ne
  }

  function BinType(op: BinOp, t: Ty, u: Ty): Option<Ty> {
    if (op == Eq || op == Ne) && t == u then Some(TBool)
    else if t != TInt || u != TInt then None
    else if Comparison(op) then Some(TBool)
    else Some(TInt)
  }

  function Type(e: Expr, c: Ctx): Option<Ty> {
    match e
    case IntLit(_) => Some(TInt)
    case Ident(x) => if x in c then Some(c[x]) else None
    case Binary(op, l, r) =>
      (match (Type(l, c), Type(r, c))
       case (Some(t), Some(u)) => BinType(op, t, u)
       case _ => None)
    case And(l, r) => if Type(l, c) == Some(TBool) == Type(r, c) then Some(TBool) else None
    case Or(l, r) => if Type(l, c) == Some(TBool) == Type(r, c) then Some(TBool) else None
    case Ternary(b, t, f) =>
      if Type(b, c) == Some(TBool) && Type(t, c) == Type(f, c) then Type(t, c) else None
    case Neg(e1) => if Type(e1, c) == Some(TInt) then Some(TInt) else None
    case BitNot(e1) => if Type(e1, c) == Some(TInt) then Some(TInt) else None
    case IncDec(_, _, x) => if x in c && c[x] == TInt then Some(TInt) else None
    case Assign(x, aop, value) =>
      if x in c && Type(value, c) == Some(c[x]) && (aop == Set || c[x] == TInt) then Some(c[x]) else None
  }

  predicate MemTyped(m: Mem) {
    forall i :: 0 <= i < |m| && m[i].val.Some? ==> HasType(m[i].val.value, m[i].ty)
  }

  predicate Typed(c: Ctx, env: Env, m: Mem) {
    && MemTyped(m)
    && c.Keys == env.Keys
    && forall x :: x in c ==> env[x] < |m| && m[env[x]].ty == c[x]
  }

  /** Memory only grows, and no cell changes its type. */
  predicate Grown(m: Mem, m1: Mem) {
    |m| <= |m1| && forall i :: 0 <= i < |m| ==> m1[i].ty == m[i].ty
  }

  /** What evaluation keeps: it makes no cell and leaves memory typed. */
  predicate Kept(m: Mem, m1: Mem) {
    |m1| == |m| && Grown(m, m1) && MemTyped(m1)
  }

  lemma TypedLater(c: Ctx, env: Env, m: Mem, m1: Mem)
    requires Typed(c, env, m) && Grown(m, m1) && MemTyped(m1)
    ensures Typed(c, env, m1)
  {
  }

  lemma AssignTyped(m: Mem, a: nat, v: Val, res: Val)
    requires MemTyped(m) && a < |m| && HasType(v, m[a].ty)
    ensures AssignTo(m, a, v, res).EOk? && Kept(m, AssignTo(m, a, v, res).mem)
  {
  }

  lemma BinTyped(op: BinOp, v: Val, w: Val, t: Ty, u: Ty)
    requires HasType(v, t) && HasType(w, u) && BinType(op, t, u).Some?
    ensures BinVal(op, v, w).Some? ==> HasType(BinVal(op, v, w).value, BinType(op, t, u).value)
  {
  }

  /** Evaluation keeps the typing of memory and gives a value of the expression's type. */
  lemma {:induction false} EvalTyped(e: Expr, c: Ctx, env: Env, m: Mem)
    requires Typed(c, env, m)
    requires Type(e, c).Some?
    ensures var r := Eval(e, env, m);
      r.EOk? ==> HasType(r.v, Type(e, c).value) && Kept(m, r.mem)
    decreases e, 1
  {
    hide BinVal;
    match e
    case IntLit(_) =>
    case Ident(x) =>
    case Binary(op, l, r) =>
      EvalTypedTwice(e, l, r, c, env, m);
      var a := Eval(l, env, m);
      if a.EOk? {
        var b := Eval(r, env, a.mem);
        if b.EOk? {
          BinTyped(op, a.v, b.v, Type(l, c).value, Type(r, c).value);
        }
      }
    case And(l, r) => EvalTypedTwice(e, l, r, c, env, m);
    case Or(l, r) => EvalTypedTwice(e, l, r, c, env, m);
    case Ternary(b, t, f) =>
      EvalTypedTwice(e, b, t, c, env, m);
      EvalTypedTwice(e, b, f, c, env, m);
    case Neg(e1) => EvalTyped(e1, c, env, m);
    case BitNot(e1) => EvalTyped(e1, c, env, m);
    case IncDec(_, _, _) => IncDecTyped(e, c, env, m);
    case Assign(x, aop, value) =>
      EvalTyped(value, c, env, m);
      AssignExprTyped(x, aop, value, c, env, m);
  }

  lemma IncDecTyped(e: Expr, c: Ctx, env: Env, m: Mem)
    requires Typed(c, env, m) && e.IncDec? && Type(e, c).Some?
    ensures var r := Eval(e, env, m);
      r.EOk? ==> HasType(r.v, Type(e, c).value) && Kept(m, r.mem)
  {
    if Read(m, env[e.x]).Some? {
      AssignTyped(m, env[e.x], IntV(0), IntV(0));
    }
  }

  lemma AssignExprTyped(x: Name, aop: AssignOp, value: Expr, c: Ctx, env: Env, m: Mem)
    requires Typed(c, env, m)
    requires Type(Assign(x, aop, value), c).Some?
    requires var r := Eval(value, env, m);
      r.EOk? ==> HasType(r.v, c[x]) && Kept(m, r.mem)
    ensures var r := Eval(Assign(x, aop, value), env, m);
      r.EOk? ==> HasType(r.v, c[x]) && Kept(m, r.mem)
  {
    var r := Eval(value, env, m);
    if r.EOk? {
      if aop == Set {
        AssignTyped(r.mem, env[x], r.v, r.v);
      } else if Read(r.mem, env[x]).Some? {
        var u := BinVal(CompoundOp(aop), Read(r.mem, env[x]).value, r.v);
        if u.Some? {
          AssignTyped(r.mem, env[x], u.value, u.value);
        }
      }
    }
  }

  /** `e1` evaluated after `e`, both parts of `whole`. */
  lemma {:induction false} EvalTypedTwice(whole: Expr, e: Expr, e1: Expr, c: Ctx, env: Env, m: Mem)
    requires e < whole && e1 < whole
    requires Typed(c, env, m)
    requires Type(e, c).Some? && Type(e1, c).Some?
    ensures var r := Eval(e, env, m);
      r.EOk? ==>
        && HasType(r.v, Type(e, c).value) && Kept(m, r.mem)
        && var r1 := Eval(e1, env, r.mem);
           (r1.EOk? ==> HasType(r1.v, Type(e1, c).value) && Kept(m, r1.mem))
    decreases whole, 0
  {
    EvalTyped(e, c, env, m);
    var r := Eval(e, env, m);
    if r.EOk? {
      TypedLater(c, env, m, r.mem);
      EvalTyped(e1, c, env, r.mem);
    }
  }
}
