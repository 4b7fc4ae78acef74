/** The scalar fragment of the abstract syntax (src/frontend/ast.h) and its 64-bit arithmetic. */

module Int64 {
  const TWO_63: int := 0x8000_0000_0000_0000
  const TWO_64: int := 0x1_0000_0000_0000_0000

  type i64 = x: int | -0x8000_0000_0000_0000 <= x < 0x8000_0000_0000_0000

  /** Two's-complement wrap-around to 64 bits. */
  function Wrap(x: int): (r: i64)
    ensures (x - r) % TWO_64 == 0
  {
    (x + TWO_63) % TWO_64 - TWO_63
  }

  /** Division rounding toward zero; Dafny's own rounds toward the divisor's sign. */
  function Quot(a: int, b: int): int
    requires b != 0
  {
    if (a < 0) == (b < 0) then Abs(a) / Abs(b) else -(Abs(a) / Abs(b))
  }

  /** The remainder that goes with `Quot`: it has the sign of the dividend. */
  function Rem(a: int, b: int): int
    requires b != 0
  {
    if a < 0 then -(Abs(a) % Abs(b)) else Abs(a) % Abs(b)
  }

  function Abs(a: int): nat { if a < 0 then -a else a }
}

module Options {
  datatype Option<+T> = None | Some(value: T)
}

module Syntax {
  import opened Int64
  import opened Options

  type Name = string

  datatype Ty = TInt | TBool

  datatype BinOp = Add | Sub | Mul | Div | Mod | Lt | Gt | Le | Ge | Eq | Ne

  datatype AssignOp = Set | AddSet | SubSet | MulSet | DivSet

  /** `true` and `false` are the integer literals 1 and 0 (src/frontend/parser.c:2233-2234). */
  datatype Expr =
    | IntLit(n: i64)
    | Ident(x: Name)
    | Binary(op: BinOp, left: Expr, right: Expr)
    | And(left: Expr, right: Expr)
    | Or(left: Expr, right: Expr)
    | Ternary(cond: Expr, thn: Expr, els: Expr)
    | Neg(e: Expr)
    | BitNot(e: Expr)
    | IncDec(inc: bool, prefix: bool, x: Name)
    | Assign(x: Name, aop: AssignOp, value: Expr)

  /** A pattern of `match`.  `PCmp` keeps the left operand the parser stores, though no code
      is ever generated for it (src/codegen/stmt.c:667-680). */
  datatype Pattern =
    | PIn(left: Expr, lo: Expr, hi: Expr)
    | PCmp(op: BinOp, left: Expr, right: Expr)
    | PVal(e: Expr)

  /** What selects a case: a `switch` has values, a `match` has patterns. */
  datatype Tag = Value(n: i64) | Test(p: Pattern) | Default

  datatype Arm = Arm(tag: Tag, body: seq<Stmt>)

  datatype Iter = Range(lo: Expr, hi: Expr) | Count(hi: Expr)

  /** `else if` is an `Else` whose body is the one `If`. */
  datatype ElsePart = NoElse | Else(body: seq<Stmt>)

  datatype Stmt =
    | ExprStmt(e: Expr)
    | VarDecl(ty: Ty, x: Name, init: Option<Expr>)
    | Return(value: Option<Expr>)
    | Break
    | Continue
    | Unsafe(body: seq<Stmt>)
    | If(cond: Expr, thn: seq<Stmt>, els: ElsePart)
    | Switch(e: Expr, arms: seq<Arm>)
    | Match(e: Expr, arms: seq<Arm>)
    | While(cond: Expr, body: seq<Stmt>)
    | DoWhile(body: seq<Stmt>, cond: Expr)
    | For(x: Name, iter: Iter, body: seq<Stmt>)
    | CFor(finit: Option<Stmt>, fcond: Option<Expr>, update: Option<Expr>, body: seq<Stmt>)

  datatype Param = Param(x: Name, ty: Ty)

  /** `ret == None` is `void`. */
  datatype Func = Func(name: Name, ret: Option<Ty>, params: seq<Param>, body: seq<Stmt>)
}
