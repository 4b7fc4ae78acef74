/** Which operator takes which operands, with the order of the operators written out symbol by
    symbol and without the levels that printer and parser share. */

module Precedence {
  import opened Options
  import opened Decimal
  import opened Grammar
  import opened Parser
  import opened RoundTrip
  import Lexing
  import SourceText

  /** The rungs of the ladder, from the loosest operators to the tightest. */
  predicate On(s: Sym, rung: nat) {
    match rung
    case 0 => s in {Assign, PlusAssign, MinusAssign, StarAssign, SlashAssign}
    case 1 => s == Question
    case 2 => s == OrOr
    case 3 => s == AndAnd
    case 4 => s in {EqEq, NotEq, Lt, Gt, Le, Ge}
    case 5 => s == DotDot
    case 6 => s in {Plus, Minus}
    case 7 => s in {Star, Slash, Percent}
    case 8 => s == StarStar
    case _ => false
  }

  /** Prefix operators stand above the ladder, postfix operators above those. */
  const PREFIXES: seq<Sym> := [Minus, Tilde, Star, PlusPlus, MinusMinus]
  const POSTFIXES: seq<Sym> := [PlusPlus, MinusMinus]

  function Joined(s: Sym, a: Tree, b: Tree): Tree {
    if On(s, 0) then AssignTo(a, s, b) else if s == DotDot then Range(a, b) else Binary(s, a, b)
  }

  /** A tree of operators over names and literals that needs no parentheses where an operator of rung
      `i` or tighter is expected: assignment and `**` repeat on the right, `..` not at all, the rest on
      the left, and a conditional ends in a conditional. */
  predicate Nests(e: Tree, i: nat) {
    match e
    case Int(n) => n <= 9223372036854775807
    case Float(_) => true
    case Str(_) => true
    case Id(_) => true
    case Self => true
    case AssignTo(t, s, v) => i == 0 && On(s, 0) && Nests(t, 1) && Nests(v, 0)
    case Ternary(c, t, f) => i <= 1 && Nests(c, 2) && Nests(t, 0) && Nests(f, 1)
    case Range(l, r) => i <= 5 && Nests(l, 6) && Nests(r, 6)
    case Binary(s, l, r) =>
      || (s == StarStar && i <= 8 && Nests(l, 9) && Nests(r, 8))
      || (exists j :: j in {2, 3, 4, 6, 7} && i <= j && On(s, j) && Nests(l, j) && Nests(r, j + 1))
    case Prefix(s, e1) => i <= 9 && s in PREFIXES && Nests(e1, 9)
    case Postfix(s, e1) => s in POSTFIXES && Nests(e1, 10)
    case _ => false
  }

  /** The tokens of such a tree from left to right. */
  function Flat(e: Tree): Tokens {
    match e
    case Int(n) => [TInt(Digits(n))]
    case Float(text) => [TFloat(text)]
    case Str(text) => [TStr(text)]
    case Id(name) => [TName(name)]
    case Self => [TSelf]
    case AssignTo(t, s, v) => Flat(t) + [TSym(s)] + Flat(v)
    case Ternary(c, t, f) => Flat(c) + [TSym(Question)] + Flat(t) + [TSym(Colon)] + Flat(f)
    case Range(l, r) => Flat(l) + [TSym(DotDot)] + Flat(r)
    case Binary(s, l, r) => Flat(l) + [TSym(s)] + Flat(r)
    case Prefix(s, e1) => [TSym(s)] + Flat(e1)
    case Postfix(s, e1) => Flat(e1) + [TSym(s)]
    case _ => []
  }

  lemma OnLevel(s: Sym, i: nat)
    ensures On(s, i) <==> i <= POWER && SymLevel(s) == Some(i)
    ensures On(s, i) ==> s != Dot && !IsPrefix(Dot)
  {
  }

  lemma PrintBare(e: Tree, i: nat)
    requires Level(e) >= i
    ensures Print(e, i) == Bare(e)
  {
  }

  lemma {:induction false} FlatPrint(e: Tree, i: nat)
    requires Nests(e, i) && i <= 10
    ensures Proper(e) && Level(e) >= i && Print(e, i) == Flat(e) && TSym(Dot) !in Flat(e)
    decreases e, 1
  {
    hide SymLevel, Print, PrintLeft;
    match e {
      case AssignTo(t, s, v) => OnLevel(s, 0); FlatPrint(t, 1); FlatPrint(v, 0);
      case Ternary(c, t, f) => FlatPrint(c, 2); FlatPrint(t, 0); FlatPrint(f, 1);
      case Range(l, r) => FlatPrint(l, 6); FlatPrint(r, 6);
      case Prefix(s, e1) => FlatPrint(e1, 9);
      case Postfix(s, e1) => FlatPrint(e1, 10);
      case Binary(s, l, r) => FlatBinary(e, i);
      case _ =>
    }
    PrintBare(e, i);
  }

  lemma {:induction false} FlatBinary(e: Tree, i: nat)
    requires Nests(e, i) && i <= 10 && e.Binary?
    ensures Proper(e) && Level(e) >= i && Bare(e) == Flat(e) && TSym(Dot) !in Flat(e)
    decreases e, 0
  {
    hide SymLevel, Print, PrintLeft, On, Nests, Proper, Bare, Flat, Level;
    NestsBinary(e, i);
    var s, l, r := e.op, e.left, e.right;
    if s == StarStar && i <= 8 && Nests(l, 9) && Nests(r, 8) {
      FlatPrint(l, 9);
      FlatPrint(r, 8);
      BarePower(e);
    } else {
      var j :| j in {2, 3, 4, 6, 7} && i <= j && On(s, j) && Nests(l, j) && Nests(r, j + 1);
      OnLevel(s, j);
      FlatPrint(l, j);
      FlatPrint(r, j + 1);
      BareChain(e, j);
    }
  }

  lemma NestsBinary(e: Tree, i: nat)
    requires Nests(e, i) && e.Binary?
    ensures || (e.op == StarStar && i <= 8 && Nests(e.left, 9) && Nests(e.right, 8))
            || (exists j :: j in {2, 3, 4, 6, 7} && i <= j && On(e.op, j) && Nests(e.left, j) && Nests(e.right, j + 1))
  {
  }

  lemma BarePower(e: Tree)
    requires e.Binary? && e.op == StarStar && Proper(e.left) && Proper(e.right)
    requires Print(e.left, 9) == Flat(e.left) && Print(e.right, 8) == Flat(e.right)
    requires TSym(Dot) !in Flat(e.left) && TSym(Dot) !in Flat(e.right)
    ensures Proper(e) && Level(e) == 8 && Bare(e) == Flat(e) && TSym(Dot) !in Flat(e)
  {
    hide Print;
  }

  lemma BareChain(e: Tree, j: nat)
    requires e.Binary? && j in {2, 3, 4, 6, 7} && SymLevel(e.op) == Some(j) && e.op != Dot && Proper(e.left) && Proper(e.right)
    requires Print(e.left, j) == Flat(e.left) && Print(e.right, j + 1) == Flat(e.right)
    requires TSym(Dot) !in Flat(e.left) && TSym(Dot) !in Flat(e.right)
    ensures Proper(e) && Level(e) == j && Bare(e) == Flat(e) && TSym(Dot) !in Flat(e)
  {
    hide Print;
    assert PrintLeft(e.left, j, e.op) == Print(e.left, j);
    assert e.op != StarStar;
  }

  /** Nothing that could go on with an expression. */
  ghost predicate Ends(rest: Tokens) {
    rest != [] && rest[0].TSym? ==>
      rest[0].s !in {LParen, Dot, LBracket, PlusPlus, MinusMinus} && forall i :: !On(rest[0].s, i)
  }

  /** Tokens without a parenthesis among them are parsed to the tree that nests as the ladder says. */
  lemma ParseNested(e: Tree, rest: Tokens)
    requires Nests(e, 0) && Ends(rest)
    ensures Parse(ASSIGNMENT, Flat(e) + rest) == Ok(e, rest)
  {
    FlatPrint(e, 0);
    EndsStops(rest);
    hide Nests, Flat, Proper, Parse, Print;
    ParsePrint(e, rest);
  }

  lemma EndsStops(rest: Tokens)
    requires Ends(rest)
    ensures Stops(0, rest)
  {
    if rest != [] && rest[0].TSym? {
      var s := rest[0].s;
      if SymLevel(s).Some? && SymLevel(s).value <= 8 { OnLevel(s, SymLevel(s).value); }
    }
  }

  // ---- Few operators, with the result written out.

  /** A name or a literal. */
  predicate Leaf(e: Tree) {
    e.Float? || e.Str? || e.Id? || e.Self? || (e.Int? && e.n <= 9223372036854775807)
  }

  predicate Left(rung: nat) { rung in {2, 3, 4, 6, 7} }

  lemma LeafNests(e: Tree, i: nat)
    requires Leaf(e)
    ensures Nests(e, i) && |Flat(e)| == 1
  {
  }

  lemma JoinedNests(s: Sym, i: nat, a: Tree, b: Tree, k: nat)
    requires On(s, i) && i != 1 && k <= i
    requires Nests(a, if Left(i) then i else i + 1) && Nests(b, if i in {0, 8} then i else i + 1)
    ensures Nests(Joined(s, a, b), k) && Flat(Joined(s, a, b)) == Flat(a) + [TSym(s)] + Flat(b)
  {
    OnlyRung(s, i);
    if Left(i) {
      ChainNests(s, i, a, b, k);
    } else {
      hide Nests, Flat;
      JoinedOther(s, i, a, b, k);
    }
  }

  lemma OnlyRung(s: Sym, i: nat)
    requires On(s, i)
    ensures i <= 8 && (On(s, 0) <==> i == 0) && (s == DotDot <==> i == 5) && (s == StarStar <==> i == 8)
  {
  }

  lemma ChainNests(s: Sym, i: nat, a: Tree, b: Tree, k: nat)
    requires Left(i) && On(s, i) && k <= i && Nests(a, i) && Nests(b, i + 1) && !On(s, 0) && s != DotDot
    ensures Nests(Joined(s, a, b), k) && Flat(Joined(s, a, b)) == Flat(a) + [TSym(s)] + Flat(b)
  {
    hide On;
    assert i in {2, 3, 4, 6, 7} && k <= i;
  }

  lemma JoinedOther(s: Sym, i: nat, a: Tree, b: Tree, k: nat)
    requires i in {0, 5, 8} && k <= i && Nests(a, i + 1) && Nests(b, if i in {0, 8} then i else i + 1)
    requires (On(s, 0) <==> i == 0) && (s == DotDot <==> i == 5) && (s == StarStar <==> i == 8)
    ensures Nests(Joined(s, a, b), k) && Flat(Joined(s, a, b)) == Flat(a) + [TSym(s)] + Flat(b)
  {
    hide On;
  }

  lemma Regroup(a: Tokens, b: Tokens, c: Tokens, d: Tokens, e: Tokens)
    ensures a + b + (c + d + e) == a + b + c + d + e
  {
  }

  /** `x s (y t z)` */
  lemma GroupsRight(a: Tree, s: Sym, i: nat, b: Tree, t: Sym, j: nat, c: Tree)
    requires Leaf(a) && Leaf(b) && Leaf(c) && On(s, i) && On(t, j) && i != 1 && j != 1
    requires i < j || (i == j && i in {0, 8})
    ensures Parse(ASSIGNMENT, Flat(a) + [TSym(s)] + Flat(b) + [TSym(t)] + Flat(c)) == Ok(Joined(s, a, Joined(t, b, c)), [])
  {
    var k := if i in {0, 8} then i else i + 1;
    LeafNests(a, if Left(i) then i else i + 1);
    LeafNests(b, if Left(j) then j else j + 1);
    LeafNests(c, if j in {0, 8} then j else j + 1);
    hide On, Nests, Flat, Joined, Parse, Leaf, Ends;
    JoinedNests(t, j, b, c, k);
    JoinedNests(s, i, a, Joined(t, b, c), 0);
    ParseAll(Joined(s, a, Joined(t, b, c)));
    Regroup(Flat(a), [TSym(s)], Flat(b), [TSym(t)], Flat(c));
  }

  lemma ParseAll(e: Tree)
    requires Nests(e, 0)
    ensures Parse(ASSIGNMENT, Flat(e)) == Ok(e, [])
  {
    hide Nests, Flat, Parse;
    assert Flat(e) + [] == Flat(e);
    ParseNested(e, []);
  }

  /** `(x s y) t z` */
  lemma GroupsLeft(a: Tree, s: Sym, i: nat, b: Tree, t: Sym, j: nat, c: Tree)
    requires Leaf(a) && Leaf(b) && Leaf(c) && On(s, i) && On(t, j) && i != 1 && j != 1
    requires j < i || (i == j && Left(i))
    ensures Parse(ASSIGNMENT, Flat(a) + [TSym(s)] + Flat(b) + [TSym(t)] + Flat(c)) == Ok(Joined(t, Joined(s, a, b), c), [])
  {
    LeafNests(a, if Left(i) then i else i + 1);
    LeafNests(b, if i in {0, 8} then i else i + 1);
    LeafNests(c, if j in {0, 8} then j else j + 1);
    hide On, Nests, Flat, Joined, Parse, Leaf, Ends;
    JoinedNests(s, i, a, b, if Left(j) then j else j + 1);
    JoinedNests(t, j, Joined(s, a, b), c, 0);
    ParseAll(Joined(t, Joined(s, a, b), c));
  }

  /** `x s y t z`: the tighter operator takes `y`; on one rung assignment and `**` group to the right and
      the others to the left, and a second `..` is left over. */
  lemma TwoOperators(a: Tree, s: Sym, i: nat, b: Tree, t: Sym, j: nat, c: Tree)
    requires Leaf(a) && Leaf(b) && Leaf(c) && On(s, i) && On(t, j) && i != 1 && j != 1
    ensures Parse(ASSIGNMENT, Flat(a) + [TSym(s)] + Flat(b) + [TSym(t)] + Flat(c)) ==
      if i < j || (i == j && i in {0, 8}) then Ok(Joined(s, a, Joined(t, b, c)), [])
      else if i == j == 5 then Ok(Joined(s, a, b), [TSym(t)] + Flat(c))
      else Ok(Joined(t, Joined(s, a, b), c), [])
  {
    OnlyRung(s, i);
    if i < j || (i == j && i in {0, 8}) {
      GroupsRight(a, s, i, b, t, j, c);
    } else if i == j == 5 {
      TwoRanges(a, b, c);
    } else {
      GroupsLeft(a, s, i, b, t, j, c);
    }
  }

  lemma BeforeRange(e: Tree, after: Tokens)
    requires Leaf(e) && Starts(after, DotDot)
    ensures Parse(6, Flat(e) + after) == Ok(e, after)
  {
    LeafNests(e, 6);
    FlatPrint(e, 6);
    OnLevel(DotDot, 5);
    hide Flat, Nests, Print, On, Parse, Proper;
    Exact(e, 6, after);
  }

  /** After a range the looser levels find no operator of theirs. */
  lemma TwoRanges(a: Tree, b: Tree, c: Tree)
    requires Leaf(a) && Leaf(b) && Leaf(c)
    ensures Parse(ASSIGNMENT, Flat(a) + [TSym(DotDot)] + Flat(b) + [TSym(DotDot)] + Flat(c))
      == Ok(Range(a, b), [TSym(DotDot)] + Flat(c))
  {
    hide Flat, Parse, Leaf;
    var after := [TSym(DotDot)] + Flat(c);
    var more := [TSym(DotDot)] + Flat(b) + after;
    assert Flat(a) + [TSym(DotDot)] + Flat(b) + [TSym(DotDot)] + Flat(c) == Flat(a) + more;
    BeforeRange(a, more);
    BeforeRange(b, after);
    assert more[1..] == Flat(b) + after;
    ParseRange(Flat(a) + more, a, more, b, after);
    PassDown(4, Flat(a) + more, Range(a, b), after);
  }

  lemma ParseRange(ts: Tokens, a: Tree, more: Tokens, b: Tree, after: Tokens)
    requires Parse(6, ts) == Ok(a, more) && Starts(more, DotDot) && Parse(6, more[1..]) == Ok(b, after)
    ensures Parse(5, ts) == Ok(Range(a, b), after)
  {
  }

  lemma {:induction false} PassDown(k: nat, ts: Tokens, e: Tree, after: Tokens)
    requires k <= 4 && Parse(k + 1, ts) == Ok(e, after) && Starts(after, DotDot)
    ensures Parse(0, ts) == Ok(e, after)
  {
    assert Parse(k, ts) == Ok(e, after);
    if k > 0 {
      PassDown(k - 1, ts, e, after);
    }
  }

  lemma PrefixLeft(p: Sym, a: Tree, s: Sym, i: nat, b: Tree)
    requires Leaf(a) && Leaf(b) && p in PREFIXES && On(s, i) && i != 1
    ensures Parse(ASSIGNMENT, [TSym(p)] + Flat(a) + [TSym(s)] + Flat(b)) == Ok(Joined(s, Prefix(p, a), b), [])
  {
    OnlyRung(s, i);
    PrefixNests(p, a, if Left(i) then i else i + 1);
    LeafNests(b, if i in {0, 8} then i else i + 1);
    hide On, Nests, Flat, Joined, Parse, Leaf, PREFIXES, Left;
    JoinedNests(s, i, Prefix(p, a), b, 0);
    ParseAll(Joined(s, Prefix(p, a), b));
  }

  lemma PrefixRight(p: Sym, a: Tree, s: Sym, i: nat, b: Tree)
    requires Leaf(a) && Leaf(b) && p in PREFIXES && On(s, i) && i != 1
    ensures Parse(ASSIGNMENT, Flat(a) + [TSym(s)] + ([TSym(p)] + Flat(b))) == Ok(Joined(s, a, Prefix(p, b)), [])
  {
    OnlyRung(s, i);
    LeafNests(a, if Left(i) then i else i + 1);
    PrefixNests(p, b, if i in {0, 8} then i else i + 1);
    hide On, Nests, Flat, Joined, Parse, Leaf, PREFIXES, Left;
    JoinedNests(s, i, a, Prefix(p, b), 0);
    ParseAll(Joined(s, a, Prefix(p, b)));
  }

  /** A prefix operator takes its operand before any binary operator does. */
  lemma PrefixFirst(p: Sym, a: Tree, s: Sym, i: nat, b: Tree)
    requires Leaf(a) && Leaf(b) && p in PREFIXES && On(s, i) && i != 1
    ensures Parse(ASSIGNMENT, [TSym(p)] + Flat(a) + [TSym(s)] + Flat(b)) == Ok(Joined(s, Prefix(p, a), b), [])
    ensures Parse(ASSIGNMENT, Flat(a) + [TSym(s)] + ([TSym(p)] + Flat(b))) == Ok(Joined(s, a, Prefix(p, b)), [])
  {
    hide On, Nests, Flat, Joined, Parse, Leaf, PREFIXES;
    PrefixLeft(p, a, s, i, b);
    PrefixRight(p, a, s, i, b);
  }

  lemma PrefixNests(p: Sym, a: Tree, k: nat)
    requires p in PREFIXES && Leaf(a) && k <= 9
    ensures Nests(Prefix(p, a), k) && Flat(Prefix(p, a)) == [TSym(p)] + Flat(a)
  {
    LeafNests(a, 9);
  }

  lemma PostfixLeft(a: Tree, q: Sym, s: Sym, i: nat, b: Tree)
    requires Leaf(a) && Leaf(b) && q in POSTFIXES && On(s, i) && i != 1
    ensures Parse(ASSIGNMENT, Flat(a) + [TSym(q)] + [TSym(s)] + Flat(b)) == Ok(Joined(s, Postfix(q, a), b), [])
  {
    PostfixNests(q, a, if Left(i) then i else i + 1);
    LeafNests(b, if i in {0, 8} then i else i + 1);
    hide On, Nests, Flat, Joined, Parse, Leaf, POSTFIXES, Left;
    JoinedNests(s, i, Postfix(q, a), b, 0);
    ParseAll(Joined(s, Postfix(q, a), b));
  }

  lemma PostfixRight(a: Tree, s: Sym, i: nat, b: Tree, q: Sym)
    requires Leaf(a) && Leaf(b) && q in POSTFIXES && On(s, i) && i != 1
    ensures Parse(ASSIGNMENT, Flat(a) + [TSym(s)] + (Flat(b) + [TSym(q)])) == Ok(Joined(s, a, Postfix(q, b)), [])
  {
    LeafNests(a, if Left(i) then i else i + 1);
    PostfixNests(q, b, if i in {0, 8} then i else i + 1);
    hide On, Nests, Flat, Joined, Parse, Leaf, POSTFIXES, Left;
    JoinedNests(s, i, a, Postfix(q, b), 0);
    ParseAll(Joined(s, a, Postfix(q, b)));
  }

  lemma PrefixPostfix(p: Sym, a: Tree, q: Sym)
    requires Leaf(a) && p in PREFIXES && q in POSTFIXES
    ensures Parse(ASSIGNMENT, [TSym(p)] + (Flat(a) + [TSym(q)])) == Ok(Prefix(p, Postfix(q, a)), [])
  {
    PostfixNests(q, a, 9);
    hide On, Flat, Parse, Leaf, POSTFIXES;
    assert Nests(Prefix(p, Postfix(q, a)), 0);
    hide Nests;
    PrefixFlat(p, Postfix(q, a));
    ParseAll(Prefix(p, Postfix(q, a)));
  }

  /** A postfix operator comes before binary and prefix operators. */
  lemma PostfixFirst(p: Sym, a: Tree, s: Sym, i: nat, b: Tree, q: Sym)
    requires Leaf(a) && Leaf(b) && p in PREFIXES && q in POSTFIXES && On(s, i) && i != 1
    ensures Parse(ASSIGNMENT, Flat(a) + [TSym(q)] + [TSym(s)] + Flat(b)) == Ok(Joined(s, Postfix(q, a), b), [])
    ensures Parse(ASSIGNMENT, Flat(a) + [TSym(s)] + (Flat(b) + [TSym(q)])) == Ok(Joined(s, a, Postfix(q, b)), [])
    ensures Parse(ASSIGNMENT, [TSym(p)] + (Flat(a) + [TSym(q)])) == Ok(Prefix(p, Postfix(q, a)), [])
  {
    hide On, Nests, Flat, Joined, Parse, Leaf, PREFIXES, POSTFIXES;
    PostfixLeft(a, q, s, i, b);
    PostfixRight(a, s, i, b, q);
    PrefixPostfix(p, a, q);
  }

  lemma PrefixFlat(p: Sym, e: Tree)
    ensures Flat(Prefix(p, e)) == [TSym(p)] + Flat(e)
  {
  }

  lemma PostfixNests(q: Sym, a: Tree, k: nat)
    requires q in POSTFIXES && Leaf(a)
    ensures Nests(Postfix(q, a), k) && Flat(Postfix(q, a)) == Flat(a) + [TSym(q)]
  {
    LeafNests(a, 10);
  }

  /** `x ? y : z` */
  function Choice(x: Tokens, y: Tokens, z: Tokens): Tokens { x + [TSym(Question)] + y + [TSym(Colon)] + z }

  /** `x s y` */
  function Pair(x: Tokens, s: Sym, y: Tokens): Tokens { x + [TSym(s)] + y }

  lemma Reassociate(x: Tokens, s: Sym, y: Tokens, z: Tokens, w: Tokens)
    ensures Pair(x, s, Choice(y, z, w)) == Choice(Pair(x, s, y), z, w)
    ensures Pair(Choice(x, y, z), s, w) == Choice(x, y, Pair(z, s, w))
  {
    var q, c, o := [TSym(Question)], [TSym(Colon)], [TSym(s)];
    assert x + o + (y + q + z + c + w) == x + o + y + q + z + c + w;
    assert x + q + y + c + (z + o + w) == x + q + y + c + z + o + w;
  }

  lemma TernaryNests(c: Tree, t: Tree, f: Tree, k: nat)
    requires k <= 1 && Nests(c, 2) && Nests(t, 0) && Nests(f, 1)
    ensures Nests(Ternary(c, t, f), k) && Flat(Ternary(c, t, f)) == Choice(Flat(c), Flat(t), Flat(f))
  {
  }

  lemma PairNests(s: Sym, i: nat, a: Tree, b: Tree, k: nat)
    requires On(s, i) && i != 1 && k <= i && Leaf(a) && Leaf(b)
    ensures Nests(Joined(s, a, b), k) && Flat(Joined(s, a, b)) == Pair(Flat(a), s, Flat(b))
  {
    LeafNests(a, if Left(i) then i else i + 1);
    LeafNests(b, if i in {0, 8} then i else i + 1);
    hide On, Nests, Flat, Joined, Leaf, Left;
    JoinedNests(s, i, a, b, k);
  }

  /** `x s y ? z : w` */
  lemma BeforeQuestion(a: Tree, s: Sym, i: nat, b: Tree, c: Tree, d: Tree)
    requires Leaf(a) && Leaf(b) && Leaf(c) && Leaf(d) && On(s, i) && i != 1
    ensures Parse(ASSIGNMENT, Choice(Pair(Flat(a), s, Flat(b)), Flat(c), Flat(d)))
      == Ok(if i == 0 then Joined(s, a, Ternary(b, c, d)) else Ternary(Joined(s, a, b), c, d), [])
  {
    LeafNests(a, 1);
    LeafNests(b, 2);
    LeafNests(c, 0);
    LeafNests(d, 1);
    hide On, Joined, Parse, Nests, Flat, Leaf, Choice, Pair;
    if i == 0 {
      TernaryNests(b, c, d, 0);
      JoinedNests(s, 0, a, Ternary(b, c, d), 0);
      ParseAll(Joined(s, a, Ternary(b, c, d)));
      IsPair(Flat(a), s, Flat(Ternary(b, c, d)));
      Reassociate(Flat(a), s, Flat(b), Flat(c), Flat(d));
    } else {
      PairNests(s, i, a, b, 2);
      TernaryNests(Joined(s, a, b), c, d, 0);
      ParseAll(Ternary(Joined(s, a, b), c, d));
    }
  }

  lemma IsPair(x: Tokens, s: Sym, y: Tokens)
    ensures x + [TSym(s)] + y == Pair(x, s, y)
  {
  }

  /** `x ? y s z : w` */
  lemma InQuestion(a: Tree, s: Sym, i: nat, b: Tree, c: Tree, d: Tree)
    requires Leaf(a) && Leaf(b) && Leaf(c) && Leaf(d) && On(s, i) && i != 1
    ensures Parse(ASSIGNMENT, Choice(Flat(a), Pair(Flat(b), s, Flat(c)), Flat(d))) == Ok(Ternary(a, Joined(s, b, c), d), [])
  {
    LeafNests(a, 2);
    LeafNests(d, 1);
    hide On, Joined, Parse, Nests, Flat, Leaf, Choice, Pair;
    PairNests(s, i, b, c, 0);
    TernaryNests(a, Joined(s, b, c), d, 0);
    ParseAll(Ternary(a, Joined(s, b, c), d));
  }

  /** `x ? y : z s w` */
  lemma AfterQuestion(a: Tree, s: Sym, i: nat, b: Tree, c: Tree, d: Tree)
    requires Leaf(a) && Leaf(b) && Leaf(c) && Leaf(d) && On(s, i) && i != 1
    ensures Parse(ASSIGNMENT, Choice(Flat(a), Flat(b), Pair(Flat(c), s, Flat(d))))
      == Ok(if i == 0 then Joined(s, Ternary(a, b, c), d) else Ternary(a, b, Joined(s, c, d)), [])
  {
    LeafNests(a, 2);
    LeafNests(b, 0);
    LeafNests(c, 1);
    LeafNests(d, 0);
    hide On, Joined, Parse, Nests, Flat, Leaf, Choice, Pair;
    if i == 0 {
      TernaryNests(a, b, c, 1);
      JoinedNests(s, 0, Ternary(a, b, c), d, 0);
      ParseAll(Joined(s, Ternary(a, b, c), d));
      IsPair(Flat(Ternary(a, b, c)), s, Flat(d));
      Reassociate(Flat(a), s, Flat(b), Flat(c), Flat(d));
    } else {
      PairNests(s, i, c, d, 1);
      TernaryNests(a, b, Joined(s, c, d), 0);
      ParseAll(Ternary(a, b, Joined(s, c, d)));
    }
  }

  /** `x ? y : z ? v : w` */
  lemma TwoQuestions(a: Tree, b: Tree, c: Tree, d: Tree, e: Tree)
    requires Leaf(a) && Leaf(b) && Leaf(c) && Leaf(d) && Leaf(e)
    ensures Parse(ASSIGNMENT, Choice(Flat(a), Flat(b), Choice(Flat(c), Flat(d), Flat(e)))) == Ok(Ternary(a, b, Ternary(c, d, e)), [])
  {
    LeafNests(a, 2);
    LeafNests(b, 0);
    LeafNests(c, 2);
    LeafNests(d, 0);
    LeafNests(e, 1);
    hide Parse, Leaf, Nests, Flat, Choice;
    TernaryNests(c, d, e, 1);
    TernaryNests(a, b, Ternary(c, d, e), 0);
    ParseAll(Ternary(a, b, Ternary(c, d, e)));
  }

  /** The ladder as it is written. */
  predicate OnText(text: string, rung: nat) {
    match rung
    case 0 => text in {"=", "+=", "-=", "*=", "/="}
    case 1 => text == "?"
    case 2 => text == "||"
    case 3 => text == "&&"
    case 4 => text in {"==", "!=", "<", ">", "<=", ">="}
    case 5 => text == ".."
    case 6 => text in {"+", "-"}
    case 7 => text in {"*", "/", "%"}
    case 8 => text == "**"
    case _ => false
  }

  lemma LowRung(s: Sym, i: nat)
    requires i <= 3
    ensures OnText(SourceText.SymText(s), i) <==> On(s, i)
  {
  }

  lemma MiddleRung(s: Sym, i: nat)
    requires 4 <= i <= 5
    ensures OnText(SourceText.SymText(s), i) <==> On(s, i)
  {
  }

  lemma HighRung(s: Sym, i: nat)
    requires i >= 6
    ensures OnText(SourceText.SymText(s), i) <==> On(s, i)
  {
  }

  lemma TextRung(s: Sym, i: nat)
    ensures OnText(SourceText.SymText(s), i) <==> On(s, i)
  {
    hide OnText, On, SourceText.SymText;
    if i <= 3 { LowRung(s, i); } else if i <= 5 { MiddleRung(s, i); } else { HighRung(s, i); }
  }

  /** Keywords that are values: `true` and `false` are numbers, `null` is a name. */
  lemma Words()
    ensures Parse(ASSIGNMENT, [TTrue]) == Ok(Int(1), []) && Parse(ASSIGNMENT, [TFalse]) == Ok(Int(0), [])
    ensures Parse(ASSIGNMENT, [TNull]) == Ok(Id("NULL"), []) && Parse(ASSIGNMENT, [TSuper]) == Ok(Self, [])
  {
    OneWord(TTrue, Int(1));
    OneWord(TFalse, Int(0));
    OneWord(TNull, Id("NULL"));
    OneWord(TSuper, Self);
  }

  lemma OneWord(t: Token, e: Tree)
    requires !t.TSym? && Primary([t]) == Ok(e, [])
    ensures Parse(ASSIGNMENT, [t]) == Ok(e, [])
  {
    assert Parse(POSTFIX, [t]) == Ok(e, []);
    hide Primary, Parse;
    Up(ASSIGNMENT, POSTFIX, [t], e, []);
  }

  const RESERVED: set<string> := {
    "struct", "class", "extends", "if", "else", "switch", "case", "match", "for", "while", "return", "mut", "mutable",
    "shared", "borrow", "using", "unsafe", "func", "in", "import", "link", "typedef", "enum", "union", "extern",
    "static", "const", "volatile", "register", "inline", "auto", "goto", "break", "continue", "default", "do", "as"}

  /** No expression is a keyword, but a type's name or `lock` can be a variable's. */
  lemma Keyword(w: string)
    ensures w in RESERVED ==> Parse(ASSIGNMENT, [SourceText.TokenOf(Lexing.Word(w))]) == Bad
    ensures w in {"int", "void", "string", "bool", "float", "char", "lock"} ==> Parse(ASSIGNMENT, [SourceText.TokenOf(Lexing.Word(w))]) == Ok(Id(w), [])
  {
    var t := SourceText.TokenOf(Lexing.Word(w));
    if w in RESERVED {
      assert t == TOther;
      NoExpression(ASSIGNMENT, [TOther]);
    } else if w in {"int", "void", "string", "bool", "float", "char", "lock"} {
      assert t == TName(w);
      OneWord(t, Id(w));
    }
  }

  lemma {:induction false} NoExpression(k: nat, ts: Tokens)
    requires k <= POSTFIX && ts == [TOther]
    ensures Parse(k, ts) == Bad
    decreases POSTFIX - k
  {
    if k < POSTFIX { NoExpression(if k == UNARY then POSTFIX else k + 1, ts); }
  }
}
