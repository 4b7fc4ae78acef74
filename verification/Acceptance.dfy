/** Which functions pass the rules of `Checking`: the compiler's own type checker on the scalar
    fragment (src/frontend/typecheck.c:527-888, 1091-1286), with its coercions and its count of errors,
    and what the rules refuse beyond it. */

module Acceptance {
  import opened Options
  import opened Syntax
  import opened Values
  import opened Semantics
  import opened Typing
  import opened Checking

  /** `Unclear` is the type of a conditional whose branches differ, `Broken` that of an expression in
      which an error was reported. */
  datatype TcType = Is(ty: Ty) | Unclear | Broken

  datatype Tc = Tc(t: TcType, errors: nat)

  const NUMBER := Is(TInt)
  const TRUTH := Is(TBool)

  /** An operand that must be of one type; a broken one has been reported already. */
  function Unless(t: TcType, wanted: TcType): nat { if t == wanted || t == Broken then 0 else 1 }

  function TcBinary(op: BinOp, l: Tc, r: Tc): Tc {
    var errors := l.errors + r.errors;
    if l.t == Broken || r.t == Broken then Tc(Broken, errors)
    else if op == Eq || op == Ne then Tc(TRUTH, errors)
    else if op == Lt || op == Gt || op == Le || op == Ge then
      if l.t == NUMBER && r.t == NUMBER then Tc(TRUTH, errors) else Tc(Broken, errors + 1)
    else TcArithmetic(l, r)
  }

  function TcArithmetic(l: Tc, r: Tc): Tc {
    if l.t == Unclear || r.t == Unclear then Tc(Unclear, l.errors + r.errors)
    else if l.t == NUMBER && r.t == NUMBER then Tc(NUMBER, l.errors + r.errors)
    else Tc(Broken, l.errors + r.errors + 1)
  }

  function TcName(x: Name, c: Ctx): Tc { if x in c then Tc(Is(c[x]), 0) else Tc(Broken, 1) }

  /** Integers and Booleans are coercible either way, so an assignment is checked further only if it
      is a compound one. */
  function TcAssign(target: Tc, aop: AssignOp, value: Tc): Tc {
    var errors := target.errors + value.errors;
    if aop != Set && target.t == TRUTH then Tc(Broken, errors + 1)
    else if aop != Set && value.t == TRUTH then Tc(Broken, errors + 1)
    else Tc(value.t, errors)
  }

  function TcExpr(e: Expr, c: Ctx): Tc {
    match e
    case IntLit(_) => Tc(NUMBER, 0)
    case Ident(x) => TcName(x, c)
    case Binary(op, l, r) => TcBinary(op, TcExpr(l, c), TcExpr(r, c))
    case And(l, r) => TcLogical(TcExpr(l, c), TcExpr(r, c))
    case Or(l, r) => TcLogical(TcExpr(l, c), TcExpr(r, c))
    case Ternary(b, t, f) =>
      var i, j, k := TcExpr(b, c), TcExpr(t, c), TcExpr(f, c);
      Tc(if j.t == Broken || k.t == Broken then Broken else if j.t == k.t then j.t else Unclear,
         i.errors + Unless(i.t, TRUTH) + j.errors + k.errors)
    case Neg(e1) => var r := TcExpr(e1, c); Tc(r.t, r.errors + Unless(r.t, NUMBER))
    case BitNot(e1) => var r := TcExpr(e1, c); Tc(NUMBER, r.errors + Unless(r.t, NUMBER))
    case IncDec(_, _, x) => var r := TcName(x, c); Tc(r.t, r.errors + Unless(r.t, NUMBER))
    case Assign(x, aop, value) => TcAssign(TcName(x, c), aop, TcExpr(value, c))
  }

  function TcLogical(l: Tc, r: Tc): Tc { Tc(TRUTH, l.errors + r.errors + Unless(l.t, TRUTH) + Unless(r.t, TRUTH)) }

  /** Nowhere does an integer meet a Boolean: in a comparison, in the branches of a conditional or in an
      assignment. */
  predicate Pure(e: Expr, c: Ctx) {
    match e
    case IntLit(_) => true
    case Ident(_) => true
    case Binary(op, l, r) => Pure(l, c) && Pure(r, c) && (op == Eq || op == Ne ==> TcExpr(l, c).t == TcExpr(r, c).t)
    case And(l, r) => Pure(l, c) && Pure(r, c)
    case Or(l, r) => Pure(l, c) && Pure(r, c)
    case Ternary(b, t, f) => Pure(b, c) && Pure(t, c) && Pure(f, c) && TcExpr(t, c).t == TcExpr(f, c).t
    case Neg(e1) => Pure(e1, c)
    case BitNot(e1) => Pure(e1, c)
    case IncDec(_, _, _) => true
    case Assign(x, _, value) => Pure(value, c) && TcName(x, c).t == TcExpr(value, c).t
  }

  /** The rules give the expression a type if and only if the checker does, without an error, and nothing
      is coerced. */
  ghost predicate Agrees(e: Expr, c: Ctx) {
    && (Type(e, c).Some? <==> TcExpr(e, c).errors == 0 && Pure(e, c))
    && (Type(e, c).Some? ==> TcExpr(e, c).t == Is(Type(e, c).value))
  }

  /** So it is for every expression. */
  lemma {:induction false} TypeIff(e: Expr, c: Ctx)
    ensures Agrees(e, c)
    decreases e
  {
    hide Agrees;
    match e
    case IntLit(_) => LeafAgrees(e, c);
    case Ident(_) => LeafAgrees(e, c);
    case Binary(op, l, r) => TypeIff(l, c); TypeIff(r, c); BinaryIff(op, l, r, c);
    case And(l, r) => TypeIff(l, c); TypeIff(r, c); LogicalAgrees(l, r, c);
    case Or(l, r) => TypeIff(l, c); TypeIff(r, c); LogicalAgrees(l, r, c);
    case Ternary(b, t, f) => TypeIff(b, c); TypeIff(t, c); TypeIff(f, c); TernaryAgrees(b, t, f, c);
    case Neg(e1) => TypeIff(e1, c); UnaryAgrees(e1, c);
    case BitNot(e1) => TypeIff(e1, c); UnaryAgrees(e1, c);
    case IncDec(_, _, _) => LeafAgrees(e, c);
    case Assign(x, aop, value) => TypeIff(value, c); AssignAgrees(x, aop, value, c);
  }

  lemma LeafAgrees(e: Expr, c: Ctx)
    requires e.IntLit? || e.Ident? || e.IncDec?
    ensures Agrees(e, c)
  {
  }

  lemma LogicalAgrees(l: Expr, r: Expr, c: Ctx)
    requires Agrees(l, c) && Agrees(r, c)
    ensures Agrees(And(l, r), c) && Agrees(Or(l, r), c)
  {
    BrokenErrors(l, c);
    BrokenErrors(r, c);
  }

  lemma TernaryAgrees(b: Expr, t: Expr, f: Expr, c: Ctx)
    requires Agrees(b, c) && Agrees(t, c) && Agrees(f, c)
    ensures Agrees(Ternary(b, t, f), c)
  {
    BrokenErrors(b, c);
  }

  lemma UnaryAgrees(e: Expr, c: Ctx)
    requires Agrees(e, c)
    ensures Agrees(Neg(e), c) && Agrees(BitNot(e), c)
  {
    BrokenErrors(e, c);
  }

  lemma AssignParts(x: Name, aop: AssignOp, value: Expr, c: Ctx)
    ensures var e := Expr.Assign(x, aop, value);
      && TcExpr(e, c) == TcAssign(TcName(x, c), aop, TcExpr(value, c))
      && (Pure(e, c) <==> Pure(value, c) && TcName(x, c).t == TcExpr(value, c).t)
      && Type(e, c) == if x in c && Type(value, c) == Some(c[x]) && (aop == Set || c[x] == TInt) then Some(c[x]) else None
  {
  }

  lemma AssignAgrees(x: Name, aop: AssignOp, value: Expr, c: Ctx)
    requires Agrees(value, c)
    ensures Agrees(Expr.Assign(x, aop, value), c)
  {
    AssignParts(x, aop, value, c);
    BrokenErrors(value, c);
    hide TcExpr, Pure, Type;
    if x in c {
      assert TcName(x, c) == Tc(Is(c[x]), 0);
    } else {
      assert TcName(x, c) == Tc(Broken, 1);
    }
  }

  lemma TwoNumbers(op: BinOp)
    ensures TcBinary(op, Tc(Is(TInt), 0), Tc(Is(TInt), 0)).errors == 0
    ensures TcBinary(op, Tc(Is(TInt), 0), Tc(Is(TInt), 0)).t ==
      if op == Lt || op == Gt || op == Le || op == Ge || op == Eq || op == Ne then Is(TBool) else Is(TInt)
  {
  }

  lemma TwoTruths(op: BinOp)
    ensures TcBinary(op, Tc(Is(TBool), 0), Tc(Is(TBool), 0)) == if op == Eq || op == Ne then Tc(Is(TBool), 0) else Tc(Broken, 1)
  {
  }

  lemma NumberAndTruth(op: BinOp)
    ensures TcBinary(op, Tc(Is(TInt), 0), Tc(Is(TBool), 0)).errors == if op == Eq || op == Ne then 0 else 1
  {
  }

  lemma TruthAndNumber(op: BinOp)
    ensures TcBinary(op, Tc(Is(TBool), 0), Tc(Is(TInt), 0)).errors == if op == Eq || op == Ne then 0 else 1
  {
  }

  lemma TypesOf(op: BinOp)
    ensures BinType(op, TInt, TInt) ==
      Some(if op == Lt || op == Gt || op == Le || op == Ge || op == Eq || op == Ne then TBool else TInt)
    ensures BinType(op, TBool, TBool) == if op == Eq || op == Ne then Some(TBool) else None
    ensures BinType(op, TInt, TBool) == None && BinType(op, TBool, TInt) == None
  {
  }

  lemma BinTypeIff(op: BinOp, t: Ty, u: Ty)
    ensures var r := TcBinary(op, Tc(Is(t), 0), Tc(Is(u), 0));
      && (BinType(op, t, u).Some? <==> r.errors == 0 && (op == Eq || op == Ne ==> t == u))
      && (BinType(op, t, u).Some? ==> r.t == Is(BinType(op, t, u).value))
  {
    hide TcBinary, BinType;
    TypesOf(op);
    match (t, u)
    case (TInt, TInt) => TwoNumbers(op);
    case (TBool, TBool) => TwoTruths(op);
    case (TInt, TBool) => NumberAndTruth(op);
    case (TBool, TInt) => TruthAndNumber(op);
  }

  lemma BinaryMore(op: BinOp, l: Tc, r: Tc)
    ensures TcBinary(op, l, r).errors >= l.errors + r.errors
  {
  }

  lemma BinaryParts(op: BinOp, l: Expr, r: Expr, c: Ctx)
    ensures var e := Binary(op, l, r);
      && TcExpr(e, c) == TcBinary(op, TcExpr(l, c), TcExpr(r, c))
      && (Pure(e, c) <==> Pure(l, c) && Pure(r, c) && (op == Eq || op == Ne ==> TcExpr(l, c).t == TcExpr(r, c).t))
      && Type(e, c) == if Type(l, c).Some? && Type(r, c).Some? then BinType(op, Type(l, c).value, Type(r, c).value) else None
  {
    hide BinType, TcBinary;
  }

  lemma BinaryIff(op: BinOp, l: Expr, r: Expr, c: Ctx)
    requires Agrees(l, c) && Agrees(r, c)
    ensures Agrees(Binary(op, l, r), c)
  {
    BinaryParts(op, l, r, c);
    hide TcExpr, Pure, Type, TcBinary, BinType;
    BinaryMore(op, TcExpr(l, c), TcExpr(r, c));
    if Type(l, c).Some? && Type(r, c).Some? {
      BinTypeIff(op, Type(l, c).value, Type(r, c).value);
    }
  }

  // ---- Statements.

  /** The variables that can be seen, and the names the innermost block declares. */
  datatype Scope = Scope(seen: Ctx, here: set<Name>)

  function Inner(sc: Scope): Scope { Scope(sc.seen, {}) }

  /** A name declared again in the same block keeps its first declaration. */
  function Plus(sc: Scope, x: Name, ty: Ty): Scope {
    if x in sc.here then sc else Scope(sc.seen[x := ty], sc.here + {x})
  }

  function Errors(e: Expr, sc: Scope): nat { TcExpr(e, sc.seen).errors }

  function OptErrors(e: Option<Expr>, sc: Scope): nat { if e.None? then 0 else Errors(e.value, sc) }

  /** A condition must be a Boolean. */
  function CondErrors(e: Expr, sc: Scope): nat { Errors(e, sc) + Unless(TcExpr(e, sc.seen).t, TRUTH) }

  function After(s: Stmt, sc: Scope): Scope
    decreases s, 1
  {
    match s
    case VarDecl(ty, x, _) => Plus(sc, x, ty)
    case Unsafe(body) => AfterAll(body, sc)
    case _ => sc
  }

  function AfterAll(ss: seq<Stmt>, sc: Scope): Scope
    decreases ss, 0
  {
    if ss == [] then sc else AfterAll(ss[1..], After(ss[0], sc))
  }

  function Begun(first: Option<Stmt>, sc: Scope): Scope { if first.None? then Inner(sc) else After(first.value, Inner(sc)) }

  /** A pattern is checked as the expression it is written as; `left` says whether with the operand in
      front, for which no code is generated. */
  function PatternErrors(p: Pattern, sc: Scope, left: bool): nat {
    match p
    case PIn(l, lo, hi) => (if left then Errors(l, sc) else 0) + Errors(lo, sc) + Errors(hi, sc)
    case PCmp(op, l, r) => if left then Errors(Binary(op, l, r), sc) else Errors(r, sc)
    case PVal(e) => Errors(e, sc)
  }

  function TagErrors(t: Tag, sc: Scope, left: bool): nat { if t.Test? then PatternErrors(t.p, sc, left) else 0 }

  /** The errors the checker reports in statements, the operands in front of patterns included if
      `left`.  Whatever an initialiser or a returned value is, it is coercible. */
  function SeqErrors(ss: seq<Stmt>, sc: Scope, left: bool): nat
    decreases ss, 0
  {
    if ss == [] then 0 else StmtErrors(ss[0], sc, left) + SeqErrors(ss[1..], After(ss[0], sc), left)
  }

  function StmtErrors(s: Stmt, sc: Scope, left: bool): nat
    decreases s, 1
  {
    match s
    case ExprStmt(e) => Errors(e, sc)
    case VarDecl(_, _, init) => OptErrors(init, sc)
    case Return(v) => OptErrors(v, sc)
    case Break => 0
    case Continue => 0
    case Unsafe(body) => SeqErrors(body, sc, left)
    case If(e, thn, els) =>
      CondErrors(e, sc) + SeqErrors(thn, Inner(sc), left) + (if els.Else? then SeqErrors(els.body, Inner(sc), left) else 0)
    case Switch(e, arms) => Errors(e, sc) + ArmsErrors(arms, sc, left)
    case Match(e, arms) => Errors(e, sc) + ArmsErrors(arms, sc, left)
    case While(e, body) => CondErrors(e, sc) + SeqErrors(body, Inner(sc), left)
    case DoWhile(body, e) => SeqErrors(body, Inner(sc), left) + CondErrors(e, sc)
    case For(x, iter, body) =>
      (if iter.Range? then Errors(iter.lo, sc) else 0) + Errors(iter.hi, sc) + SeqErrors(body, Plus(Inner(sc), x, TInt), left)
    case CFor(first, e, u, body) =>
      var sc1 := Begun(first, sc);
      (if first.Some? then StmtErrors(first.value, Inner(sc), left) else 0)
      + (if e.Some? then CondErrors(e.value, sc1) else 0)
      + SeqErrors(body, sc1, left) + OptErrors(u, AfterAll(body, sc1))
  }

  function ArmsErrors(arms: seq<Arm>, sc: Scope, left: bool): nat
    decreases arms, 0
  {
    if arms == [] then 0
    else TagErrors(arms[0].tag, sc, left) + SeqErrors(arms[0].body, Inner(sc), left) + ArmsErrors(arms[1..], sc, left)
  }

  // ---- What the rules ask beyond that.

  predicate PureOpt(e: Option<Expr>, sc: Scope) { e.Some? ==> Pure(e.value, sc.seen) }

  /** An integer without coercions in it. */
  predicate Whole(e: Expr, sc: Scope) { Pure(e, sc.seen) && TcExpr(e, sc.seen).t == NUMBER }

  predicate PatternPlain(p: Pattern, sc: Scope) {
    match p
    case PIn(_, lo, hi) => Whole(lo, sc) && Whole(hi, sc)
    case PCmp(op, _, r) => op in {Lt, Gt, Le, Ge, Eq, Ne} && Whole(r, sc)
    case PVal(e) => Whole(e, sc)
  }

  function Names(e: Expr): set<Name> {
    match e
    case IntLit(_) => {}
    case Ident(x) => {x}
    case Binary(_, l, r) => Names(l) + Names(r)
    case And(l, r) => Names(l) + Names(r)
    case Or(l, r) => Names(l) + Names(r)
    case Ternary(b, t, f) => Names(b) + Names(t) + Names(f)
    case Neg(e1) => Names(e1)
    case BitNot(e1) => Names(e1)
    case IncDec(_, _, x) => {x}
    case Assign(x, _, value) => {x} + Names(value)
  }

  /** No coercion; no declaration of a name that can be seen; a value returned if and only if the
      function has a type, and of that type; numbers as bounds, tested values and patterns; no update of
      a C-style loop with a variable of its body. */
  predicate Plain(ss: seq<Stmt>, sc: Scope, ret: Option<Ty>)
    decreases ss, 0
  {
    ss == [] || (StmtPlain(ss[0], sc, ret) && Plain(ss[1..], After(ss[0], sc), ret))
  }

  predicate StmtPlain(s: Stmt, sc: Scope, ret: Option<Ty>)
    decreases s, 1
  {
    match s
    case ExprStmt(e) => Pure(e, sc.seen)
    case VarDecl(_, x, init) => x !in sc.seen && PureOpt(init, sc)
    case Return(None) => ret.None?
    case Return(Some(e)) => ret.Some? && Pure(e, sc.seen) && TcExpr(e, sc.seen).t == Is(ret.value)
    case Break => true
    case Continue => true
    case Unsafe(body) => Plain(body, sc, ret)
    case If(e, thn, els) => Pure(e, sc.seen) && Plain(thn, Inner(sc), ret) && (els.Else? ==> Plain(els.body, Inner(sc), ret))
    case Switch(e, arms) => Whole(e, sc) && ArmsPlain(arms, false, sc, ret)
    case Match(e, arms) => Whole(e, sc) && ArmsPlain(arms, true, sc, ret)
    case While(e, body) => Pure(e, sc.seen) && Plain(body, Inner(sc), ret)
    case DoWhile(body, e) => Plain(body, Inner(sc), ret) && Pure(e, sc.seen)
    case For(x, iter, body) =>
      (iter.Range? ==> Whole(iter.lo, sc)) && Whole(iter.hi, sc) && x !in sc.seen && Plain(body, Plus(Inner(sc), x, TInt), ret)
    case CFor(first, e, u, body) =>
      var sc1 := Begun(first, sc);
      && (first.Some? ==> (first.value.VarDecl? || first.value.ExprStmt?) && StmtPlain(first.value, Inner(sc), ret))
      && PureOpt(e, sc1) && Plain(body, sc1, ret)
      && PureOpt(u, sc1) && (u.Some? ==> Names(u.value) <= sc1.seen.Keys)
  }

  predicate ArmsPlain(arms: seq<Arm>, patterns: bool, sc: Scope, ret: Option<Ty>)
    decreases arms, 0
  {
    forall i :: 0 <= i < |arms| ==>
      && (arms[i].tag.Value? ==> !patterns)
      && (arms[i].tag.Test? ==> patterns && PatternPlain(arms[i].tag.p, sc))
      && Plain(arms[i].body, Inner(sc), ret)
  }

  predicate Good(sc: Scope) { sc.here <= sc.seen.Keys }

  lemma {:induction false} AfterGood(s: Stmt, sc: Scope)
    requires Good(sc)
    ensures Good(After(s, sc))
    decreases s, 1
  {
    if s.Unsafe? { AfterAllGood(s.body, sc); }
  }

  lemma {:induction false} AfterAllGood(ss: seq<Stmt>, sc: Scope)
    requires Good(sc)
    ensures Good(AfterAll(ss, sc))
    decreases ss, 0
  {
    if ss != [] {
      AfterGood(ss[0], sc);
      AfterAllGood(ss[1..], After(ss[0], sc));
    }
  }

  /** What is typed with some variables is typed alike with more. */
  lemma {:induction false} MoreNames(e: Expr, c: Ctx, c1: Ctx)
    requires Names(e) <= c.Keys && forall x :: x in c ==> x in c1 && c1[x] == c[x]
    ensures TcExpr(e, c1) == TcExpr(e, c) && (Pure(e, c1) <==> Pure(e, c))
    decreases e
  {
    match e
    case IntLit(_) =>
    case Ident(_) =>
    case Binary(op, l, r) => MoreNames(l, c, c1); MoreNames(r, c, c1); hide TcBinary;
    case And(l, r) => MoreNames(l, c, c1); MoreNames(r, c, c1);
    case Or(l, r) => MoreNames(l, c, c1); MoreNames(r, c, c1);
    case Ternary(b, t, f) => MoreNames(b, c, c1); MoreNames(t, c, c1); MoreNames(f, c, c1);
    case Neg(e1) => MoreNames(e1, c, c1);
    case BitNot(e1) => MoreNames(e1, c, c1);
    case IncDec(_, _, _) =>
    case Assign(_, _, value) => MoreNames(value, c, c1);
  }

  lemma {:induction false} TypedNames(e: Expr, c: Ctx)
    requires Type(e, c).Some?
    ensures Names(e) <= c.Keys
    decreases e
  {
    match e
    case IntLit(_) =>
    case Ident(_) =>
    case Binary(op, l, r) => TypedNames(l, c); TypedNames(r, c);
    case And(l, r) => TypedNames(l, c); TypedNames(r, c);
    case Or(l, r) => TypedNames(l, c); TypedNames(r, c);
    case Ternary(b, t, f) => TypedNames(b, c); TypedNames(t, c); TypedNames(f, c);
    case Neg(e1) => TypedNames(e1, c);
    case BitNot(e1) => TypedNames(e1, c);
    case IncDec(_, _, _) =>
    case Assign(_, _, value) => TypedNames(value, c);
  }

  /** Statements pass the rules if and only if the checker reports no error, operands in front of
      patterns aside, and they are plain. */
  lemma {:induction false} SeqIff(ss: seq<Stmt>, sc: Scope, ret: Option<Ty>)
    requires Good(sc)
    ensures CheckSeq(ss, sc.seen, ret).Some? <==> SeqErrors(ss, sc, false) == 0 && Plain(ss, sc, ret)
    ensures CheckSeq(ss, sc.seen, ret).Some? ==> CheckSeq(ss, sc.seen, ret).value == AfterAll(ss, sc).seen
    decreases ss, 0
  {
    hide CheckStmt, StmtErrors, StmtPlain, After;
    if ss != [] {
      var sc1 := After(ss[0], sc);
      StmtIff(ss[0], sc, ret);
      AfterGood(ss[0], sc);
      SeqIff(ss[1..], sc1, ret);
    }
  }

  lemma {:induction false} BlockIff(ss: seq<Stmt>, sc: Scope, ret: Option<Ty>)
    ensures Checked(ss, sc.seen, ret) <==> SeqErrors(ss, Inner(sc), false) == 0 && Plain(ss, Inner(sc), ret)
    decreases ss, 1
  {
    SeqIff(ss, Inner(sc), ret);
    hide CheckSeq, SeqErrors, Plain;
  }

  lemma {:induction false} CondIff(e: Expr, sc: Scope)
    ensures Type(e, sc.seen) == Some(TBool) <==> CondErrors(e, sc) == 0 && Pure(e, sc.seen)
    ensures Type(e, sc.seen) == Some(TInt) <==> Errors(e, sc) == 0 && Whole(e, sc)
    ensures Type(e, sc.seen).Some? <==> Errors(e, sc) == 0 && Pure(e, sc.seen)
  {
    TypeIff(e, sc.seen);
    BrokenErrors(e, sc.seen);
    hide Type, Pure, TcExpr;
  }

  /** Only an error leaves an expression without a type. */
  lemma {:induction false} BrokenErrors(e: Expr, c: Ctx)
    ensures TcExpr(e, c).t == Broken ==> TcExpr(e, c).errors > 0
    decreases e
  {
    match e
    case IntLit(_) =>
    case Ident(_) =>
    case Binary(op, l, r) => BrokenErrors(l, c); BrokenErrors(r, c);
    case And(l, r) =>
    case Or(l, r) =>
    case Ternary(b, t, f) => BrokenErrors(t, c); BrokenErrors(f, c);
    case Neg(e1) => BrokenErrors(e1, c);
    case BitNot(e1) => BrokenErrors(e1, c);
    case IncDec(_, _, _) =>
    case Assign(_, _, value) => BrokenErrors(value, c);
  }

  lemma {:induction false} OptIff(e: Option<Expr>, sc: Scope)
    ensures (e.Some? ==> Type(e.value, sc.seen).Some?) <==> OptErrors(e, sc) == 0 && PureOpt(e, sc)
  {
    hide Type, Errors, Pure;
    if e.Some? { CondIff(e.value, sc); }
  }

  lemma {:induction false} TagIff(t: Tag, sc: Scope)
    ensures (t.Test? ==> CheckPattern(t.p, sc.seen)) <==> TagErrors(t, sc, false) == 0 && (t.Test? ==> PatternPlain(t.p, sc))
  {
    hide Type, Errors, Whole;
    if t.Test? {
      match t.p
      case PIn(_, lo, hi) => CondIff(lo, sc); CondIff(hi, sc);
      case PCmp(op, _, r) => CondIff(r, sc);
      case PVal(e) => CondIff(e, sc);
    }
  }

  lemma {:induction false} ArmsIff(arms: seq<Arm>, patterns: bool, sc: Scope, ret: Option<Ty>)
    ensures CheckArms(arms, patterns, sc.seen, ret) <==> ArmsErrors(arms, sc, false) == 0 && ArmsPlain(arms, patterns, sc, ret)
    decreases arms, 0
  {
    hide CheckPattern, PatternPlain, TagErrors, SeqErrors, Plain, Checked;
    if arms != [] {
      TagIff(arms[0].tag, sc);
      BlockIff(arms[0].body, sc, ret);
      ArmsIff(arms[1..], patterns, sc, ret);
      assert forall i :: 0 < i < |arms| ==> arms[i] == arms[1..][i - 1];
      ArmsCons(arms, patterns, sc, ret);
    }
  }

  lemma ArmsCons(arms: seq<Arm>, patterns: bool, sc: Scope, ret: Option<Ty>)
    requires arms != []
    ensures CheckArms(arms, patterns, sc.seen, ret) <==> CheckArms(arms[..1], patterns, sc.seen, ret) && CheckArms(arms[1..], patterns, sc.seen, ret)
    ensures ArmsPlain(arms, patterns, sc, ret) <==> ArmsPlain(arms[..1], patterns, sc, ret) && ArmsPlain(arms[1..], patterns, sc, ret)
  {
    hide CheckPattern, PatternPlain, Plain, Checked;
    assert forall i :: 0 < i < |arms| ==> arms[i] == arms[1..][i - 1];
  }

  lemma {:induction false} StmtIff(s: Stmt, sc: Scope, ret: Option<Ty>)
    requires Good(sc)
    ensures CheckStmt(s, sc.seen, ret).Some? <==> StmtErrors(s, sc, false) == 0 && StmtPlain(s, sc, ret)
    ensures CheckStmt(s, sc.seen, ret).Some? ==> CheckStmt(s, sc.seen, ret).value == After(s, sc).seen
    decreases s, 2
  {
    hide Type, Errors, CondErrors, Pure, Whole, CheckSeq, SeqErrors, Plain, Checked, CheckArms, ArmsErrors, ArmsPlain, TcExpr, OptErrors, PureOpt;
    match s
    case ExprStmt(e) => CondIff(e, sc);
    case VarDecl(_, _, init) => OptIff(init, sc);
    case Return(v) =>
      ReturnIff(v, sc, ret);
    case Break =>
    case Continue =>
    case Unsafe(body) => SeqIff(body, sc, ret);
    case If(e, thn, els) =>
      CondIff(e, sc);
      BlockIff(thn, sc, ret);
      if els.Else? { BlockIff(els.body, sc, ret); }
    case Switch(e, arms) => CondIff(e, sc); ArmsIff(arms, false, sc, ret);
    case Match(e, arms) => CondIff(e, sc); ArmsIff(arms, true, sc, ret);
    case While(e, body) => CondIff(e, sc); BlockIff(body, sc, ret);
    case DoWhile(body, e) => CondIff(e, sc); BlockIff(body, sc, ret);
    case For(x, iter, body) =>
      if iter.Range? { CondIff(iter.lo, sc); }
      CondIff(iter.hi, sc);
      SeqIff(body, Plus(Inner(sc), x, TInt), ret);
      ForIff(x, iter, body, sc, ret);
    case CFor(_, _, _, _) => CForIff(s, sc, ret);
  }

  lemma ReturnIff(v: Option<Expr>, sc: Scope, ret: Option<Ty>)
    ensures CheckStmt(Return(v), sc.seen, ret).Some? <==> StmtErrors(Return(v), sc, false) == 0 && StmtPlain(Return(v), sc, ret)
  {
    if v.Some? { TypeIff(v.value, sc.seen); }
    hide Type, TcExpr, Pure;
  }

  lemma ForIff(x: Name, iter: Iter, body: seq<Stmt>, sc: Scope, ret: Option<Ty>)
    requires Type(iter.hi, sc.seen) == Some(TInt) <==> Errors(iter.hi, sc) == 0 && Whole(iter.hi, sc)
    requires iter.Range? ==> (Type(iter.lo, sc.seen) == Some(TInt) <==> Errors(iter.lo, sc) == 0 && Whole(iter.lo, sc))
    requires CheckSeq(body, Plus(Inner(sc), x, TInt).seen, ret).Some? <==> SeqErrors(body, Plus(Inner(sc), x, TInt), false) == 0 && Plain(body, Plus(Inner(sc), x, TInt), ret)
    ensures CheckStmt(For(x, iter, body), sc.seen, ret).Some? <==> StmtErrors(For(x, iter, body), sc, false) == 0 && StmtPlain(For(x, iter, body), sc, ret)
  {
    hide Type, Errors, Whole, CheckSeq, SeqErrors, Plain;
  }

  lemma {:induction false} FirstIff(first: Option<Stmt>, sc: Scope, ret: Option<Ty>)
    requires Good(sc)
    ensures var c1 := if first.None? then Some(sc.seen)
                      else if first.value.VarDecl? || first.value.ExprStmt? then CheckStmt(first.value, sc.seen, ret)
                      else None;
      && (c1.Some? <==>
          (first.Some? ==> (first.value.VarDecl? || first.value.ExprStmt?)
                           && StmtErrors(first.value, Inner(sc), false) == 0 && StmtPlain(first.value, Inner(sc), ret)))
      && (c1.Some? ==> c1.value == Begun(first, sc).seen)
    ensures Good(Begun(first, sc))
    decreases first
  {
    hide CheckStmt, StmtErrors, StmtPlain, After;
    if first.Some? {
      StmtIff(first.value, Inner(sc), ret);
      AfterGood(first.value, Inner(sc));
    }
  }

  /** An update that only uses what is declared in front of the body. */
  lemma {:induction false} UpdateIff(u: Option<Expr>, body: seq<Stmt>, sc1: Scope, ret: Option<Ty>)
    requires CheckSeq(body, sc1.seen, ret).Some? && CheckSeq(body, sc1.seen, ret).value == AfterAll(body, sc1).seen
    ensures (u.Some? ==> Type(u.value, sc1.seen).Some?) <==>
      OptErrors(u, AfterAll(body, sc1)) == 0 && PureOpt(u, sc1) && (u.Some? ==> Names(u.value) <= sc1.seen.Keys)
  {
    if u.Some? {
      CheckGrows(body, sc1.seen, ret);
      CondIff(u.value, sc1);
      if Type(u.value, sc1.seen).Some? { TypedNames(u.value, sc1.seen); }
      if Names(u.value) <= sc1.seen.Keys { MoreNames(u.value, sc1.seen, AfterAll(body, sc1).seen); }
    }
    hide Type, Pure, TcExpr, CheckSeq, AfterAll, Names;
  }

  lemma {:induction false} CForIff(s: Stmt, sc: Scope, ret: Option<Ty>)
    requires Good(sc) && s.CFor?
    ensures CheckStmt(s, sc.seen, ret).Some? <==> StmtErrors(s, sc, false) == 0 && StmtPlain(s, sc, ret)
    ensures CheckStmt(s, sc.seen, ret).Some? ==> CheckStmt(s, sc.seen, ret).value == sc.seen
    decreases s, 1
  {
    hide Type, Errors, CondErrors, Pure, Whole, CheckSeq, SeqErrors, Plain, TcExpr, OptErrors, PureOpt, Begun, Names, AfterAll;
    var sc1 := Begun(s.finit, sc);
    FirstIff(s.finit, sc, ret);
    if s.fcond.Some? { CondIff(s.fcond.value, sc1); }
    SeqIff(s.body, sc1, ret);
    if CheckSeq(s.body, sc1.seen, ret).Some? { UpdateIff(s.update, s.body, sc1, ret); }
    CForParts(s, sc, ret);
  }

  lemma CForParts(s: Stmt, sc: Scope, ret: Option<Ty>)
    requires s.CFor?
    ensures var sc1 := Begun(s.finit, sc);
      && (StmtErrors(s, sc, false) == 0 <==>
          && (s.finit.Some? ==> StmtErrors(s.finit.value, Inner(sc), false) == 0)
          && (s.fcond.Some? ==> CondErrors(s.fcond.value, sc1) == 0)
          && SeqErrors(s.body, sc1, false) == 0 && OptErrors(s.update, AfterAll(s.body, sc1)) == 0)
      && (StmtPlain(s, sc, ret) <==>
          && (s.finit.Some? ==> (s.finit.value.VarDecl? || s.finit.value.ExprStmt?) && StmtPlain(s.finit.value, Inner(sc), ret))
          && (s.fcond.Some? ==> Pure(s.fcond.value, sc1.seen)) && Plain(s.body, sc1, ret)
          && PureOpt(s.update, sc1) && (s.update.Some? ==> Names(s.update.value) <= sc1.seen.Keys))
    ensures var c1 := if s.finit.None? then Some(sc.seen)
                      else if s.finit.value.VarDecl? || s.finit.value.ExprStmt? then CheckStmt(s.finit.value, sc.seen, ret)
                      else None;
      CheckStmt(s, sc.seen, ret) ==
        if && c1.Some?
           && (s.fcond.Some? ==> Type(s.fcond.value, c1.value) == Some(TBool))
           && (s.update.Some? ==> Type(s.update.value, c1.value).Some?)
           && CheckSeq(s.body, c1.value, ret).Some?
        then Some(sc.seen) else None
  {
    hide CondErrors, SeqErrors, OptErrors, AfterAll, Pure, Plain, Names, Type, CheckSeq, Begun;
  }

  /** The operands in front of patterns can only add errors. */
  lemma {:induction false} LeftMore(ss: seq<Stmt>, sc: Scope)
    ensures SeqErrors(ss, sc, false) <= SeqErrors(ss, sc, true)
    decreases ss, 0
  {
    hide StmtErrors, After;
    if ss != [] {
      LeftMore1(ss[0], sc);
      LeftMore(ss[1..], After(ss[0], sc));
    }
  }

  lemma {:induction false} LeftMore1(s: Stmt, sc: Scope)
    ensures StmtErrors(s, sc, false) <= StmtErrors(s, sc, true)
    decreases s, 1
  {
    hide SeqErrors, ArmsErrors, Errors, CondErrors, OptErrors, AfterAll, Begun;
    match s
    case Unsafe(body) => LeftMore(body, sc);
    case If(_, thn, els) => LeftMore(thn, Inner(sc)); if els.Else? { LeftMore(els.body, Inner(sc)); }
    case Switch(_, arms) => LeftMoreArms(arms, sc);
    case Match(_, arms) => LeftMoreArms(arms, sc);
    case While(_, body) => LeftMore(body, Inner(sc));
    case DoWhile(body, _) => LeftMore(body, Inner(sc));
    case For(x, _, body) => LeftMore(body, Plus(Inner(sc), x, TInt));
    case CFor(first, _, _, body) =>
      LeftMore(body, Begun(first, sc));
      if first.Some? { LeftMore1(first.value, Inner(sc)); }
    case _ =>
  }

  lemma {:induction false} LeftMoreArms(arms: seq<Arm>, sc: Scope)
    ensures ArmsErrors(arms, sc, false) <= ArmsErrors(arms, sc, true)
    decreases arms, 0
  {
    if arms != [] {
      var t := arms[0].tag;
      if t.Test? && t.p.PCmp? { BinaryMore(t.p.op, TcExpr(t.p.left, sc.seen), TcExpr(t.p.right, sc.seen)); }
      LeftMore(arms[0].body, Inner(sc));
      LeftMoreArms(arms[1..], sc);
    }
  }

  /** Parameters are declared in the scope of the body. */
  function WithParams(params: seq<Param>, sc: Scope): Scope {
    if params == [] then sc else WithParams(params[1..], Plus(sc, params[0].x, params[0].ty))
  }

  /** The errors reported in a function. */
  function FuncErrors(f: Func, globals: Ctx): nat { SeqErrors(f.body, WithParams(f.params, Scope(globals, {})), true) }

  predicate FuncPlain(f: Func, globals: Ctx) { Plain(f.body, WithParams(f.params, Scope(globals, {})), f.ret) }

  lemma {:induction false} ParamScope(params: seq<Param>, sc: Scope)
    requires Good(sc) && forall i, j :: 0 <= i < j < |params| ==> params[i].x != params[j].x
    requires forall i :: 0 <= i < |params| ==> params[i].x !in sc.here
    ensures Good(WithParams(params, sc)) && WithParams(params, sc).seen == Checking.WithParams(sc.seen, params)
    decreases |params|
  {
    if params != [] {
      assert forall i :: 0 < i < |params| ==> params[i] == params[1..][i - 1];
      ParamScope(params[1..], Plus(sc, params[0].x, params[0].ty));
    }
  }

  /** A function with different parameter names in which the checker reports no error passes the rules
      if and only if it is plain; and what passes the rules has no error but in operands in front of
      patterns, for which no code is generated. */
  lemma AcceptedIff(f: Func, globals: Ctx)
    requires forall i, j :: 0 <= i < j < |f.params| ==> f.params[i].x != f.params[j].x
    ensures FuncErrors(f, globals) == 0 ==> (CheckFunc(f, globals) <==> FuncPlain(f, globals))
    ensures CheckFunc(f, globals) <==>
      SeqErrors(f.body, WithParams(f.params, Scope(globals, {})), false) == 0 && FuncPlain(f, globals)
  {
    var sc := WithParams(f.params, Scope(globals, {}));
    ParamScope(f.params, Scope(globals, {}));
    SeqIff(f.body, sc, f.ret);
    LeftMore(f.body, sc);
    hide CheckSeq, SeqErrors, Plain, WithParams;
  }
}
