/** What a program of the fragment means: a big-step semantics with lexical scoping.
    A name is bound to a location, a location holds a typed cell, and every declaration
    makes a new location. */

module Values {
  import opened Int64
  import opened Options
  import opened Syntax

  /** `PtrV` occurs in registers only, never in a cell. */
  datatype Val = IntV(n: i64) | BoolV(b: bool) | PtrV(addr: nat)

  datatype Cell = Cell(ty: Ty, val: Option<Val>)

  type Mem = seq<Cell>

  predicate HasType(v: Val, ty: Ty) {
    match ty
    case TInt => v.IntV?
    case TBool => v.BoolV?
  }

  function Zero(ty: Ty): Val {
    match ty
    case TInt => IntV(0)
    case TBool => BoolV(false)
  }

  /** Reading outside memory, or a cell nothing was stored in, has no result. */
  function Read(m: Mem, a: nat): Option<Val> {
    if a < |m| then m[a].val else None
  }

  function Write(m: Mem, a: nat, v: Val): Mem
    requires a < |m|
  {
    m[a := m[a].(val := Some(v))]
  }
}

module Semantics {
  import opened Int64
  import opened Options
  import opened Syntax
  import opened Values

  type Env = map<Name, nat>

  /** The meaning of the binary operators.  Division by zero and the one quotient that does
      not fit 64 bits have none. */
  function BinVal(op: BinOp, v: Val, w: Val): Option<Val> {
    match (op, v, w)
    case (Add, IntV(a), IntV(b)) => Some(IntV(Wrap(a + b)))
    case (Sub, IntV(a), IntV(b)) => Some(IntV(Wrap(a - b)))
    case (Mul, IntV(a), IntV(b)) => Some(IntV(Wrap(a * b)))
    case (Div, IntV(a), IntV(b)) =>
      if b == 0 || (a == -TWO_63 && b == -1) then None else Some(IntV(Wrap(Quot(a, b))))
    case (Mod, IntV(a), IntV(b)) =>
      if b == 0 || (a == -TWO_63 && b == -1) then None else Some(IntV(Wrap(Rem(a, b))))
    case (Lt, IntV(a), IntV(b)) => Some(BoolV(a < b))
    case (Gt, IntV(a), IntV(b)) => Some(BoolV(a > b))
    case (Le, IntV(a), IntV(b)) => Some(BoolV(a <= b))
    case (Ge, IntV(a), IntV(b)) => Some(BoolV(a >= b))
    case (Eq, IntV(a), IntV(b)) => Some(BoolV(a == b))
    case (Ne, IntV(a), IntV(b)) => Some(BoolV(a != b))
    case (Eq, BoolV(a), BoolV(b)) => Some(BoolV(a == b))
    case (Ne, BoolV(a), BoolV(b)) => Some(BoolV(a != b))
    case _ => None
  }

  function CompoundOp(aop: AssignOp): BinOp
    requires aop != Set
  {
    match aop
    case AddSet => Add
    case SubSet => Sub
    case MulSet => Mul
    case DivSet => Div
  }

  /** Conversion of an initialiser to the declared type: an integer keeps its low bit, a
      Boolean is sign-extended, so `true` becomes -1 (src/codegen/stmt.c:177-180). */
  function Convert(ty: Ty, v: Val): Val {
    match (ty, v)
    case (TBool, IntV(n)) => BoolV(n % 2 == 1)
    case (TInt, BoolV(b)) => IntV(if b then -1 else 0)
    case _ => v
  }

  datatype EResult = EWrong | EOk(v: Val, mem: Mem)

  function AssignTo(m: Mem, a: nat, v: Val, result: Val): EResult {
    if a < |m| then EOk(result, Write(m, a, v)) else EWrong
  }

  function Eval(e: Expr, env: Env, m: Mem): EResult {
    match e
    case IntLit(n) => EOk(IntV(n), m)
    case Ident(x) =>
      if x !in env then EWrong else
      (match Read(m, env[x])
       case None => EWrong
       case Some(v) => EOk(v, m))
    case Binary(op, l, r) =>
      (match Eval(l, env, m)
       case EWrong => EWrong
       case EOk(v, m1) =>
         match Eval(r, env, m1)
         case EWrong => EWrong
         case EOk(w, m2) =>
           match BinVal(op, v, w)
           case None => EWrong
           case Some(u) => EOk(u, m2))
    case And(l, r) =>
      (match Eval(l, env, m)
       case EOk(BoolV(true), m1) => Eval(r, env, m1)
       case EOk(BoolV(false), m1) => EOk(BoolV(false), m1)
       case _ => EWrong)
    case Or(l, r) =>
      (match Eval(l, env, m)
       case EOk(BoolV(true), m1) => EOk(BoolV(true), m1)
       case EOk(BoolV(false), m1) => Eval(r, env, m1)
       case _ => EWrong)
    case Ternary(c, t, f) =>
      (match Eval(c, env, m)
       case EOk(BoolV(true), m1) => Eval(t, env, m1)
       case EOk(BoolV(false), m1) => Eval(f, env, m1)
       case _ => EWrong)
    case Neg(e1) =>
      (match Eval(e1, env, m)
       case EOk(IntV(n), m1) => EOk(IntV(Wrap(0 - n)), m1)
       case _ => EWrong)
    case BitNot(e1) =>
      (match Eval(e1, env, m)
       case EOk(IntV(n), m1) => EOk(IntV(-1 - n), m1)
       case _ => EWrong)
    case IncDec(inc, prefix, x) =>
      if x !in env then EWrong else
      (match Read(m, env[x])
       case Some(IntV(n)) =>
         var n' := Wrap(if inc then n + 1 else n - 1);
         AssignTo(m, env[x], IntV(n'), IntV(if prefix then n' else n))
       case _ => EWrong)
    case Assign(x, aop, value) =>
      if x !in env then EWrong else
      (match Eval(value, env, m)
       case EWrong => EWrong
       case EOk(v, m1) =>
         if aop == Set then AssignTo(m1, env[x], v, v) else
         match Read(m1, env[x])
         case None => EWrong
         case Some(before) =>
           match BinVal(CompoundOp(aop), before, v)
           case None => EWrong
           case Some(u) => AssignTo(m1, env[x], u, u))
  }

  datatype Outcome = Normal | Broke | Continued | Returned(v: Option<Val>)

  datatype SResult = STimeout | SWrong | SOk(o: Outcome, env: Env, mem: Mem)

  /** Leaving a scope forgets the names declared in it. */
  function Leave(r: SResult, env: Env): SResult {
    if r.SOk? then r.(env := env) else r
  }

  function Declare(env: Env, m: Mem, x: Name, ty: Ty, v: Option<Val>): (Env, Mem) {
    (env[x := |m|], m + [Cell(ty, v)])
  }

  /** The first case with value `n`, else the last default, else none. */
  function SwitchTarget(arms: seq<Arm>, n: i64): (r: Option<nat>)
    ensures r.Some? ==> r.value < |arms|
  {
    match FindValue(arms, n, 0)
    case Some(i) => Some(i)
    case None => LastDefault(arms)
  }

  function FindValue(arms: seq<Arm>, n: i64, from: nat): (r: Option<nat>)
    ensures r.Some? ==> r.value < |arms|
    decreases |arms| - from
  {
    if from >= |arms| then None
    else if arms[from].tag == Value(n) then Some(from)
    else FindValue(arms, n, from + 1)
  }

  function LastDefault(arms: seq<Arm>): (r: Option<nat>)
    ensures r.Some? ==> r.value < |arms|
  {
    if arms == [] then None
    else if arms[|arms| - 1].tag.Default? then Some(|arms| - 1)
    else LastDefault(arms[..|arms| - 1])
  }

  /** Whether `v` matches: the test's outcome as a Boolean value. */
  function Matches(p: Pattern, v: Val, env: Env, m: Mem): EResult {
    match p
    case PIn(_, lo, hi) =>
      (match Eval(lo, env, m)
       case EWrong => EWrong
       case EOk(a, m1) =>
         match Eval(hi, env, m1)
         case EWrong => EWrong
         case EOk(b, m2) =>
           match (BinVal(Ge, v, a), BinVal(Lt, v, b))
           case (Some(BoolV(ge)), Some(BoolV(lt))) => EOk(BoolV(ge && lt), m2)
           case _ => EWrong)
    case PCmp(op, _, r) =>
      (match Eval(r, env, m)
       case EWrong => EWrong
       case EOk(w, m1) =>
         match BinVal(op, v, w)
         case None => EWrong
         case Some(u) => EOk(u, m1))
    case PVal(e) =>
      (match Eval(e, env, m)
       case EWrong => EWrong
       case EOk(w, m1) =>
         match BinVal(Eq, v, w)
         case None => EWrong
         case Some(u) => EOk(u, m1))
  }

  datatype PResult = PWrong | PHit(i: nat, mem: Mem) | PNone(mem: Mem)

  /** Patterns are tried in order, defaults skipped, until one matches. */
  function Pick(arms: seq<Arm>, from: nat, v: Val, env: Env, m: Mem): (r: PResult)
    ensures r.PHit? ==> r.i < |arms|
    decreases |arms| - from
  {
    if from >= |arms| then PNone(m)
    else if !arms[from].tag.Test? then Pick(arms, from + 1, v, env, m)
    else
      match Matches(arms[from].tag.p, v, env, m)
      case EOk(BoolV(true), m1) => PHit(from, m1)
      case EOk(BoolV(false), m1) => Pick(arms, from + 1, v, env, m1)
      case _ => PWrong
  }

  /** `loop` says whether an enclosing loop exists; without one `break` and `continue` have
      no target and do nothing (src/codegen/stmt.c:880-887).  `fuel` bounds the number of
      loop iterations and running out of it is `STimeout`, never a result. */
  function ExecSeq(ss: seq<Stmt>, env: Env, m: Mem, loop: bool, fuel: nat): SResult
    decreases fuel, ss, 0
  {
    if ss == [] then SOk(Normal, env, m)
    else
      match ExecStmt(ss[0], env, m, loop, fuel)
      case SOk(Normal, env1, m1) => ExecSeq(ss[1..], env1, m1, loop, fuel)
      case r => r
  }

  function ExecStmt(s: Stmt, env: Env, m: Mem, loop: bool, fuel: nat): SResult
    decreases fuel, s, 1
  {
    match s
    case ExprStmt(e) =>
      (match Eval(e, env, m)
       case EWrong => SWrong
       case EOk(_, m1) => SOk(Normal, env, m1))
    case VarDecl(ty, x, None) =>
      var (env1, m1) := Declare(env, m, x, ty, None);
      SOk(Normal, env1, m1)
    case VarDecl(ty, x, Some(e)) =>
      var (env1, m1) := Declare(env, m, x, ty, None);
      (match Eval(e, env, m1)
       case EWrong => SWrong
       case EOk(v, m2) =>
         match AssignTo(m2, |m|, Convert(ty, v), v)
         case EWrong => SWrong
         case EOk(_, m3) => SOk(Normal, env1, m3))
    case Return(None) => SOk(Returned(None), env, m)
    case Return(Some(e)) =>
      (match Eval(e, env, m)
       case EWrong => SWrong
       case EOk(v, m1) => SOk(Returned(Some(v)), env, m1))
    case Break => SOk(if loop then Broke else Normal, env, m)
    case Continue => SOk(if loop then Continued else Normal, env, m)
    case Unsafe(body) => ExecSeq(body, env, m, loop, fuel)
    case If(c, thn, els) =>
      (match Eval(c, env, m)
       case EOk(BoolV(true), m1) => Leave(ExecSeq(thn, env, m1, loop, fuel), env)
       case EOk(BoolV(false), m1) =>
         (match els
          case NoElse => SOk(Normal, env, m1)
          case Else(ss) => Leave(ExecSeq(ss, env, m1, loop, fuel), env))
       case _ => SWrong)
    case Switch(e, arms) =>
      (match Eval(e, env, m)
       case EOk(IntV(n), m1) =>
         (match SwitchTarget(arms, n)
          case None => SOk(Normal, env, m1)
          case Some(i) => Leave(ExecSeq(arms[i].body, env, m1, loop, fuel), env))
       case _ => SWrong)
    case Match(e, arms) =>
      (match Eval(e, env, m)
       case EWrong => SWrong
       case EOk(v, m1) =>
         match Pick(arms, 0, v, env, m1)
         case PWrong => SWrong
         case PHit(i, m2) => Leave(ExecSeq(arms[i].body, env, m2, loop, fuel), env)
         case PNone(m2) =>
           match LastDefault(arms)
           case None => SOk(Normal, env, m2)
           case Some(i) => Leave(ExecSeq(arms[i].body, env, m2, loop, fuel), env))
    case While(c, body) => ExecWhile(c, body, env, m, fuel)
    case DoWhile(body, c) => ExecDoWhile(body, c, env, m, fuel)
    case For(x, iter, body) =>
      (match (if iter.Range? then Eval(iter.lo, env, m) else EOk(IntV(0), m))
       case EWrong => SWrong
       case EOk(lo, m1) =>
         match Eval(iter.hi, env, m1)
         case EWrong => SWrong
         case EOk(hi, m2) =>
           var (env1, m3) := Declare(env, m2, x, TInt, Some(lo));
           Leave(ExecFor(|m2|, hi, body, env1, m3, fuel), env))
    case CFor(None, c, u, body) => Leave(ExecCFor(c, u, body, env, m, fuel), env)
    case CFor(Some(init), c, u, body) =>
      (match ExecStmt(init, env, m, loop, fuel)
       case SOk(Normal, env1, m1) => Leave(ExecCFor(c, u, body, env1, m1, fuel), env)
       case r => Leave(r, env))
  }

  function ExecWhile(c: Expr, body: seq<Stmt>, env: Env, m: Mem, fuel: nat): SResult
    decreases fuel, body, 1
  {
    if fuel == 0 then STimeout else
    match Eval(c, env, m)
    case EOk(BoolV(true), m1) =>
      (match ExecSeq(body, env, m1, true, fuel - 1)
       case SOk(Broke, _, m2) => SOk(Normal, env, m2)
       case SOk(Returned(v), _, m2) => SOk(Returned(v), env, m2)
       case SOk(_, _, m2) => ExecWhile(c, body, env, m2, fuel - 1)
       case r => r)
    case EOk(BoolV(false), m1) => SOk(Normal, env, m1)
    case _ => SWrong
  }

  function ExecDoWhile(body: seq<Stmt>, c: Expr, env: Env, m: Mem, fuel: nat): SResult
    decreases fuel, body, 1
  {
    if fuel == 0 then STimeout else
    match ExecSeq(body, env, m, true, fuel - 1)
    case SOk(Broke, _, m1) => SOk(Normal, env, m1)
    case SOk(Returned(v), _, m1) => SOk(Returned(v), env, m1)
    case SOk(_, _, m1) =>
      (match Eval(c, env, m1)
       case EOk(BoolV(true), m2) => ExecDoWhile(body, c, env, m2, fuel - 1)
       case EOk(BoolV(false), m2) => SOk(Normal, env, m2)
       case _ => SWrong)
    case r => r
  }

  /** `a` is the location of the loop variable, `hi` the end of the range, evaluated once. */
  function ExecFor(a: nat, hi: Val, body: seq<Stmt>, env: Env, m: Mem, fuel: nat): SResult
    decreases fuel, body, 1
  {
    if fuel == 0 then STimeout else
    match Read(m, a)
    case None => SWrong
    case Some(cur) =>
      match BinVal(Lt, cur, hi)
      case Some(BoolV(true)) =>
        (match ExecSeq(body, env, m, true, fuel - 1)
         case SOk(Broke, _, m1) => SOk(Normal, env, m1)
         case SOk(Returned(v), _, m1) => SOk(Returned(v), env, m1)
         case SOk(_, _, m1) =>
           (match Increment(m1, a)
            case EWrong => SWrong
            case EOk(_, m2) => ExecFor(a, hi, body, env, m2, fuel - 1))
         case r => r)
      case Some(BoolV(false)) => SOk(Normal, env, m)
      case _ => SWrong
  }

  /** The increment at the end of an iteration of a range loop. */
  function Increment(m: Mem, a: nat): EResult {
    match Read(m, a)
    case None => EWrong
    case Some(cur) =>
      match BinVal(Add, cur, IntV(1))
      case None => EWrong
      case Some(next) => AssignTo(m, a, next, next)
  }

  function ExecCFor(c: Option<Expr>, u: Option<Expr>, body: seq<Stmt>, env: Env, m: Mem, fuel: nat): SResult
    decreases fuel, body, 1
  {
    if fuel == 0 then STimeout else
    match (if c.Some? then Eval(c.value, env, m) else EOk(BoolV(true), m))
    case EOk(BoolV(true), m1) =>
      (match ExecSeq(body, env, m1, true, fuel - 1)
       case SOk(Broke, _, m2) => SOk(Normal, env, m2)
       case SOk(Returned(v), _, m2) => SOk(Returned(v), env, m2)
       case SOk(_, _, m2) =>
         (match (if u.Some? then Eval(u.value, env, m2) else EOk(IntV(0), m2))
          case EWrong => SWrong
          case EOk(_, m3) => ExecCFor(c, u, body, env, m3, fuel - 1))
       case r => r)
    case EOk(BoolV(false), m1) => SOk(Normal, env, m1)
    case _ => SWrong
  }

  datatype FResult = FTimeout | FWrong | FRet(v: Option<Val>, mem: Mem)

  function Bind(params: seq<Param>, args: seq<Val>, env: Env, m: Mem): (Env, Mem)
    requires |params| == |args|
    decreases |params|
  {
    if params == [] then (env, m)
    else
      var (env1, m1) := Declare(env, m, params[0].x, params[0].ty, Some(args[0]));
      Bind(params[1..], args[1..], env1, m1)
  }

  /** A call: `genv` binds the globals.  Falling off the end returns zero, `false` or
      nothing, as the return type asks (src/codegen/decl.c:136-144). */
  function Call(f: Func, args: seq<Val>, genv: Env, m: Mem, fuel: nat): FResult
    requires |args| == |f.params|
  {
    var (env, m0) := Bind(f.params, args, genv, m);
    match ExecSeq(f.body, env, m0, false, fuel)
    case STimeout => FTimeout
    case SOk(Returned(v), _, m1) => FRet(v, m1)
    case SOk(Normal, _, m1) => FRet(if f.ret.Some? then Some(Zero(f.ret.value)) else None, m1)
    case _ => FWrong
  }
}
