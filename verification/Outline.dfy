/** Statements and expressions as far as names go: what is declared, read, written and left, and
    where control cannot go on (src/frontend/ast.h). */

module Outline {
  import opened Options

  type Name = string

  /** How a variable is declared. */
  datatype Attr = Attr(mut: bool, shd: bool)

  /** A parameter, a loop variable or the handle of a `using`. */
  const PLAIN := Attr(true, false)

  /** `Op` evaluates both operands and `Choice` one of the last two.  `Unseen` is checked, but no
      code is generated for it: the left operand of a comparison pattern. */
  datatype Expr =
    | Const
    | Var(x: Name)
    | Op(l: Expr, r: Expr)
    | Choice(c: Expr, a: Expr, b: Expr)
    | Assign(x: Name, e: Expr)
    | IncDec(x: Name)
    | Call(f: nat)
    | Unseen(e: Expr)

  /** A default has no test. */
  datatype Arm = Arm(test: Option<Expr>, body: seq<Stmt>)

  /** `Cases` is a `match` if its tests are made one after the other until one holds, else a
      `switch`.  A `using` whose resource is of a class with an exit function `exits`. */
  datatype Stmt =
    | Decl(x: Name, a: Attr, init: Option<Expr>)
    | Do(e: Expr)
    | Return(value: Option<Expr>)
    | Break
    | Continue
    | Unsafe(body: seq<Stmt>)
    | If(c: Expr, thn: seq<Stmt>, els: seq<Stmt>)
    | Cases(chain: bool, e: Expr, arms: seq<Arm>)
    | While(c: Expr, body: seq<Stmt>)
    | DoWhile(body: seq<Stmt>, c: Expr)
    | For(x: Name, iter: Expr, body: seq<Stmt>)
    | CFor(first: Option<Stmt>, cond: Option<Expr>, update: Option<Expr>, body: seq<Stmt>)
    | Using(resource: Expr, handle: Option<Name>, exits: bool, body: seq<Stmt>)

  datatype Func = Func(params: seq<Name>, body: seq<Stmt>)

  /** Whether the block being built is still open behind a statement compiled in an open one; if
      not, the statements behind it are dropped (src/codegen/stmt.c:893).  A call of an exit
      function is appended even behind a `return` and opens the block again. */
  predicate Falls(s: Stmt, loop: bool)
    decreases s, 1
  {
    match s
    case Return(_) => false
    case Break => !loop
    case Continue => !loop
    case Unsafe(body) => SeqFalls(body, loop)
    case Using(_, _, exits, body) => exits || SeqFalls(body, loop)
    case _ => true
  }

  predicate SeqFalls(ss: seq<Stmt>, loop: bool)
    decreases ss, 0
  {
    ss == [] || (Falls(ss[0], loop) && SeqFalls(ss[1..], loop))
  }
}
