/** Expressions as the parser sees them: tokens, trees, the twelve precedence levels, and a
    printer that writes a tree with no more parentheses than the levels need. */

module Grammar {
  import opened Options
  import opened Decimal

  datatype Sym =
    | LParen | RParen | LBrace | RBrace | LBracket | RBracket | Comma | Semicolon | Colon
    | Dot | DotDot | Question
    | Plus | Minus | Star | Slash | Percent | StarStar | Tilde
    | EqEq | NotEq | Lt | Gt | Le | Ge | AndAnd | OrOr
    | Assign | PlusAssign | MinusAssign | StarAssign | SlashAssign | PlusPlus | MinusMinus

  /** A keyword that can begin an expression is a token of its own; type keywords are names. */
  datatype Token =
    | TInt(text: string)
    | TFloat(text: string)
    | TStr(text: string)
    | TName(name: string)
    | TTrue | TFalse | TNull | TSelf | TSuper | TNew | TSizeof
    | TSym(s: Sym)
    | TOther

  type Tokens = seq<Token>

  datatype Tree =
    | Int(n: nat)
    | Float(text: string)
    | Str(text: string)
    | Id(name: string)
    | Self
    | Binary(op: Sym, left: Tree, right: Tree)
    | Range(left: Tree, right: Tree)
    | Ternary(cond: Tree, thn: Tree, els: Tree)
    | AssignTo(target: Tree, op: Sym, value: Tree)
    | Prefix(op: Sym, e: Tree)
    | Postfix(op: Sym, e: Tree)
    | Call(f: Tree, args: seq<Tree>)
    | Field(e: Tree, index: nat)
    | Member(e: Tree, name: string)
    | Index(e: Tree, index1: Tree)
    | Tuple(items: seq<Tree>)
    | Init(items: seq<Tree>)
    | Array(items: seq<Tree>)
    | SuperCall(name: string, args: seq<Tree>)
    | New(name: string, args: seq<Tree>)
    | Sizeof(name: string)

  const ASSIGNMENT := 0
  const TERNARY := 1
  const RANGE := 5
  const POWER := 8
  const UNARY := 9
  const POSTFIX := 10

  /** `||`, `&&`, comparison, additive and multiplicative: the left-associative levels. */
  predicate LeftLevel(k: nat) { k == 2 || k == 3 || k == 4 || k == 6 || k == 7 }

  /** The level at which a symbol continues an expression, if it can. */
  function SymLevel(s: Sym): Option<nat> {
    match s
    case Assign => Some(0) case PlusAssign => Some(0) case MinusAssign => Some(0)
    case StarAssign => Some(0) case SlashAssign => Some(0)
    case Question => Some(1)
    case OrOr => Some(2)
    case AndAnd => Some(3)
    case EqEq => Some(4) case NotEq => Some(4) case Lt => Some(4)
    case Gt => Some(4) case Le => Some(4) case Ge => Some(4)
    case DotDot => Some(5)
    case Plus => Some(6) case Minus => Some(6)
    case Star => Some(7) case Slash => Some(7) case Percent => Some(7)
    case StarStar => Some(8)
    case LParen => Some(10) case Dot => Some(10) case LBracket => Some(10)
    case PlusPlus => Some(10) case MinusMinus => Some(10)
    case _ => None
  }

  predicate IsPrefix(s: Sym) {
    s == Minus || s == Tilde || s == Star || s == PlusPlus || s == MinusMinus
  }

  /** Whether a tree is one the parser can build. */
  predicate Proper(e: Tree) {
    match e
    case Int(n) => n <= MAX
    case Float(_) => true
    case Str(_) => true
    case Id(_) => true
    case Self => true
    case Binary(op, l, r) =>
      SymLevel(op).Some? && (LeftLevel(SymLevel(op).value) || op == StarStar) && Proper(l) && Proper(r)
    case Range(l, r) => Proper(l) && Proper(r)
    case Ternary(c, t, f) => Proper(c) && Proper(t) && Proper(f)
    case AssignTo(t, op, v) => SymLevel(op) == Some(ASSIGNMENT) && Proper(t) && Proper(v)
    case Prefix(op, e1) => IsPrefix(op) && Proper(e1)
    case Postfix(op, e1) => (op == PlusPlus || op == MinusMinus) && Proper(e1)
    case Call(f, args) => Proper(f) && AllProper(args)
    case Field(e1, index) => index <= MAX && Proper(e1)
    case Member(e1, _) => Proper(e1)
    case Index(e1, i) => Proper(e1) && Proper(i)
    case Tuple(items) => |items| >= 2 && AllProper(items)
    case Init(items) => AllProper(items)
    case Array(items) => AllProper(items)
    case SuperCall(_, args) => AllProper(args)
    case New(_, args) => AllProper(args)
    case Sizeof(_) => true
  }

  predicate AllProper(es: seq<Tree>) {
    forall i :: 0 <= i < |es| ==> Proper(es[i])
  }

  function Level(e: Tree): nat {
    match e
    case AssignTo(_, _, _) => ASSIGNMENT
    case Ternary(_, _, _) => TERNARY
    case Binary(op, _, _) => if SymLevel(op).Some? then SymLevel(op).value else 0
    case Range(_, _) => RANGE
    case Prefix(_, _) => UNARY
    case _ => POSTFIX
  }

  /** `.to` before `<` would be read as a conversion (src/frontend/parser.c:2075). */
  predicate EndsInTo(ts: Tokens) {
    |ts| >= 2 && ts[|ts| - 2] == TSym(Dot) && ts[|ts| - 1] == TName("to")
  }

  function Parens(ts: Tokens): Tokens { [TSym(LParen)] + ts + [TSym(RParen)] }

  /** The text of `e` where level `k` is expected. */
  function Print(e: Tree, k: nat): Tokens
    decreases e, 1
  {
    if Level(e) < k then Parens(Bare(e)) else Bare(e)
  }

  /** The left operand of `<` must not look like the start of a conversion. */
  function PrintLeft(e: Tree, k: nat, op: Sym): Tokens
    decreases e, 2
  {
    if op == Lt && EndsInTo(Print(e, k)) then Parens(Bare(e)) else Print(e, k)
  }

  function Bare(e: Tree): Tokens
    decreases e, 0
  {
    match e
    case Int(n) => [TInt(Digits(n))]
    case Float(text) => [TFloat(text)]
    case Str(text) => [TStr(text)]
    case Id(name) => [TName(name)]
    case Self => [TSelf]
    case Binary(op, l, r) =>
      if op == StarStar then Print(l, UNARY) + [TSym(op)] + Print(r, POWER)
      else PrintLeft(l, Level(e), op) + [TSym(op)] + Print(r, Level(e) + 1)
    case Range(l, r) => Print(l, 6) + [TSym(DotDot)] + Print(r, 6)
    case Ternary(c, t, f) => Print(c, 2) + [TSym(Question)] + Print(t, 0) + [TSym(Colon)] + Print(f, 1)
    case AssignTo(t, op, v) => Print(t, 1) + [TSym(op)] + Print(v, 0)
    case Prefix(op, e1) => [TSym(op)] + Print(e1, UNARY)
    case Postfix(op, e1) => Print(e1, POSTFIX) + [TSym(op)]
    case Call(f, args) => Print(f, POSTFIX) + [TSym(LParen)] + List(args) + [TSym(RParen)]
    case Field(e1, index) => Print(e1, POSTFIX) + [TSym(Dot), TInt(Digits(index))]
    case Member(e1, name) => Print(e1, POSTFIX) + [TSym(Dot), TName(name)]
    case Index(e1, i) => Print(e1, POSTFIX) + [TSym(LBracket)] + Print(i, 0) + [TSym(RBracket)]
    case Tuple(items) => [TSym(LParen)] + List(items) + [TSym(RParen)]
    case Init(items) => [TSym(LBrace)] + List(items) + [TSym(RBrace)]
    case Array(items) => [TSym(LBracket)] + List(items) + [TSym(RBracket)]
    case SuperCall(name, args) => [TSuper, TSym(Dot), TName(name), TSym(LParen)] + List(args) + [TSym(RParen)]
    case New(name, args) => [TNew, TName(name), TSym(LParen)] + List(args) + [TSym(RParen)]
    case Sizeof(name) => [TSizeof, TSym(LParen), TName(name), TSym(RParen)]
  }

  function List(es: seq<Tree>): Tokens
    decreases es, 0
  {
    if es == [] then []
    else if |es| == 1 then Print(es[0], 0)
    else Print(es[0], 0) + [TSym(Comma)] + List(es[1..])
  }
}
