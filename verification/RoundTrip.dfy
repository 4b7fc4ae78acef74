/** Parsing undoes printing. */

module RoundTrip {
  import opened Options
  import opened Decimal
  import opened Grammar
  import opened Parser

  /** Nothing in `rest` continues an expression at level `k` or tighter. */
  predicate Stops(k: nat, rest: Tokens) {
    rest == [] || !rest[0].TSym? || SymLevel(rest[0].s).None? || SymLevel(rest[0].s).value < k
  }

  predicate NoCast(ts: Tokens, rest: Tokens) { !(EndsInTo(ts) && Starts(rest, Lt)) }

  predicate Closer(s: Sym) { s == RParen || s == RBrace || s == RBracket }

  lemma EndsLater(a: Tokens, b: Tokens, rest: Tokens)
    requires NoCast(a + b, rest)
    ensures NoCast(b, rest)
  {
    if EndsInTo(b) {
      assert (a + b)[|a + b| - 1] == b[|b| - 1] && (a + b)[|a + b| - 2] == b[|b| - 2];
    }
  }

  /** The part of a tree that is printed first, and the level it is printed at. */
  function LeftPart(e: Tree): Option<(Tree, nat)> {
    match e
    case Range(l, _) => Some((l, 6))
    case Ternary(c, _, _) => Some((c, 2))
    case AssignTo(t, _, _) => Some((t, 1))
    case Postfix(_, e1) => Some((e1, POSTFIX))
    case Call(f, _) => Some((f, POSTFIX))
    case Field(e1, _) => Some((e1, POSTFIX))
    case Member(e1, _) => Some((e1, POSTFIX))
    case Index(e1, _) => Some((e1, POSTFIX))
    case _ => None
  }

  lemma LeftFirst(e: Tree)
    requires LeftPart(e).Some? && Print(LeftPart(e).value.0, LeftPart(e).value.1) != []
    ensures Bare(e) != [] && Bare(e)[0] == Print(LeftPart(e).value.0, LeftPart(e).value.1)[0]
    ensures (Proper(e) ==> Proper(LeftPart(e).value.0)) && (Level(e) == POSTFIX ==> LeftPart(e).value.1 == POSTFIX)
    ensures LeftPart(e).value.0 < e
  {
    hide Print, PrintLeft, List;
  }

  lemma OtherFirst(e: Tree)
    requires LeftPart(e).None? && !e.Binary?
    ensures Bare(e) != [] && (Bare(e)[0].TSym? && Proper(e) ==> !Closer(Bare(e)[0].s))
    ensures Level(e) == POSTFIX && Proper(e) && Bare(e)[0].TSym? ==> !IsPrefix(Bare(e)[0].s)
  {
    hide Print, PrintLeft, List;
  }

  /** No tree starts with a closing bracket, and one of the tightest level with no prefix
      operator either. */
  lemma {:induction false} FirstToken(e: Tree, k: nat)
    ensures Print(e, k) != [] && (Print(e, k)[0].TSym? && Proper(e) ==> !Closer(Print(e, k)[0].s))
    ensures (Level(e) == POSTFIX || Level(e) < k) && Proper(e) && Print(e, k)[0].TSym? ==> !IsPrefix(Print(e, k)[0].s)
    decreases e, 1
  {
    hide List, PrintLeft, Bare, Proper, LeftPart;
    if Level(e) >= k {
      if e.Binary? {
        FirstBinary(e, k);
      } else if LeftPart(e).Some? {
        LeftSmaller(e);
        FirstToken(LeftPart(e).value.0, LeftPart(e).value.1);
        LeftFirst(e);
      } else {
        OtherFirst(e);
      }
    }
  }

  lemma LeftSmaller(e: Tree)
    requires LeftPart(e).Some?
    ensures LeftPart(e).value.0 < e && LeftPart(e).value.1 <= POSTFIX && (Level(e) == POSTFIX ==> LeftPart(e).value.1 == POSTFIX)
  {
  }

  lemma {:induction false} FirstBinary(e: Tree, k: nat)
    requires e.Binary? && Level(e) >= k
    ensures Print(e, k) != [] && (Print(e, k)[0].TSym? && Proper(e) ==> !Closer(Print(e, k)[0].s))
    ensures (Level(e) == POSTFIX || Level(e) < k) && Proper(e) && Print(e, k)[0].TSym? ==> !IsPrefix(Print(e, k)[0].s)
    decreases e, 0
  {
    hide List;
    var l, op := e.left, e.op;
    FirstToken(l, if op == StarStar then UNARY else Level(e));
    assert Bare(e)[0] == if op == StarStar then Print(l, UNARY)[0] else PrintLeft(l, Level(e), op)[0];
  }

  /** A result at level `m` is the result at every looser level down to `k`, if nothing
      continues there. */
  lemma {:induction false} Up(k: nat, m: nat, ts: Tokens, e: Tree, rest: Tokens)
    requires k <= m <= POSTFIX && Parse(m, ts) == Ok(e, rest) && Stops(k, rest)
    requires m == POSTFIX && k < POSTFIX ==> !(ts != [] && ts[0].TSym? && IsPrefix(ts[0].s))
    ensures Parse(k, ts) == Ok(e, rest)
    decreases m - k
  {
    if k < m {
      Up(k + 1, m, ts, e, rest);
    }
  }

  /** What is printed for `e` at level `k`, in front of anything that does not continue it,
      parses to `e` and leaves the rest. */
  lemma {:induction false} Exact(e: Tree, k: nat, rest: Tokens)
    requires Proper(e) && k <= POSTFIX && Stops(k, rest) && NoCast(Print(e, k), rest)
    ensures Parse(k, Print(e, k) + rest) == Ok(e, rest)
    decreases e, k + 2, 0
  {
    hide Parse, Chain, Tail, Primary, Bare, Proper, List;
    FirstToken(e, k);
    if Level(e) < k {
      Grouped(e, rest);
      Up(k, POSTFIX, Print(e, k) + rest, e, rest);
    } else {
      Own(e, rest);
      Up(k, Level(e), Bare(e) + rest, e, rest);
    }
  }

  /** In parentheses. */
  lemma {:induction false} Grouped(e: Tree, rest: Tokens)
    requires Proper(e)
    ensures Primary(Parens(Bare(e)) + rest) == Ok(e, rest)
    ensures Parse(POSTFIX, Parens(Bare(e)) + rest) == Suffixes(e, rest)
    decreases e, 2, 1
  {
    hide PrintLeft, ListUntil, List, Chain, Suffixes, Tail, Bare;
    var ts := Parens(Bare(e)) + rest;
    var after := [TSym(RParen)] + rest;
    assert Bare(e) == Print(e, 0);
    Exact(e, 0, after);
    assert ts[1..] == Bare(e) + after;
    assert Items(ts[1..]) == OkList([e], after);
    assert after[1..] == rest;
  }

  lemma {:induction false} Own(e: Tree, rest: Tokens)
    requires Proper(e) && Stops(Level(e), rest) && NoCast(Bare(e), rest)
    ensures Parse(Level(e), Bare(e) + rest) == Ok(e, rest)
    decreases e, 1, 1
  {
    hide PrintLeft, Primary, Items, ListUntil, List, Chain, Suffixes, Tail, Print;
    match e
    case Binary(op, l, r) =>
      if op == StarStar { OwnPower(e, rest); } else { OwnChain(e, rest); }
    case Range(_, _) => OwnRange(e, rest);
    case Ternary(_, _, _) => OwnTernary(e, rest);
    case AssignTo(_, _, _) => OwnAssign(e, rest);
    case Prefix(op, e1) =>
      var ts := Bare(e) + rest;
      EndsLater([TSym(op)], Print(e1, UNARY), rest);
      Exact(e1, UNARY, rest);
      assert ts[1..] == Print(e1, UNARY) + rest;
    case _ => OwnSuffix(e, rest);
  }

  /** One operator between two operands of tighter levels. */
  lemma {:induction false} Operands(e: Tree, l: Tree, kl: nat, s: Sym, r: Tree, kr: nat, rest: Tokens)
    requires l < e && r < e && Proper(l) && Proper(r) && kl <= POSTFIX && kr <= POSTFIX && s != Lt
    requires SymLevel(s).Some? && SymLevel(s).value < kl && Stops(kr, rest)
    requires NoCast(Print(l, kl) + [TSym(s)] + Print(r, kr), rest)
    ensures var ts := Print(l, kl) + [TSym(s)] + Print(r, kr) + rest;
      var after := [TSym(s)] + Print(r, kr) + rest;
      && Parse(kl, ts) == Ok(l, after) && after[0] == TSym(s)
      && Parse(kr, after[1..]) == Ok(r, rest)
    decreases e, 0, 0
  {
    hide Parse, Chain, Tail, Suffixes, Primary, Bare, Print, PrintLeft, Proper, List;
    var ts := Print(l, kl) + [TSym(s)] + Print(r, kr) + rest;
    var after := [TSym(s)] + Print(r, kr) + rest;
    assert ts == Print(l, kl) + after;
    Exact(l, kl, after);
    EndsLater(Print(l, kl) + [TSym(s)], Print(r, kr), rest);
    Exact(r, kr, rest);
    assert after[1..] == Print(r, kr) + rest;
  }

  lemma {:induction false} OwnPower(e: Tree, rest: Tokens)
    requires Proper(e) && e.Binary? && e.op == StarStar && Stops(POWER, rest) && NoCast(Bare(e), rest)
    ensures Parse(POWER, Bare(e) + rest) == Ok(e, rest)
    decreases e, 1, 0
  {
    Operands(e, e.left, UNARY, StarStar, e.right, POWER, rest);
  }

  lemma {:induction false} OwnRange(e: Tree, rest: Tokens)
    requires Proper(e) && e.Range? && Stops(RANGE, rest) && NoCast(Bare(e), rest)
    ensures Parse(RANGE, Bare(e) + rest) == Ok(e, rest)
    decreases e, 1, 0
  {
    Operands(e, e.left, 6, DotDot, e.right, 6, rest);
  }

  lemma {:induction false} OwnAssign(e: Tree, rest: Tokens)
    requires Proper(e) && e.AssignTo? && Stops(ASSIGNMENT, rest) && NoCast(Bare(e), rest)
    ensures Parse(ASSIGNMENT, Bare(e) + rest) == Ok(e, rest)
    decreases e, 1, 0
  {
    Operands(e, e.target, TERNARY, e.op, e.value, ASSIGNMENT, rest);
  }

  lemma {:induction false} OwnTernary(e: Tree, rest: Tokens)
    requires Proper(e) && e.Ternary? && Stops(TERNARY, rest) && NoCast(Bare(e), rest)
    ensures Parse(TERNARY, Bare(e) + rest) == Ok(e, rest)
    decreases e, 1, 0
  {
    hide Print, PrintLeft, Chain, Suffixes, Primary, Items, ListUntil, List, Parse;
    var c, t, f := Print(e.cond, 2), Print(e.thn, ASSIGNMENT), Print(e.els, TERNARY);
    var after2 := [TSym(Colon)] + f + rest;
    var after1 := [TSym(Question)] + t + after2;
    assert Bare(e) + rest == c + after1;
    Exact(e.cond, 2, after1);
    assert after1[1..] == t + after2;
    Exact(e.thn, ASSIGNMENT, after2);
    assert after2[1..] == f + rest;
    assert Bare(e) == c + [TSym(Question)] + t + [TSym(Colon)] + f;
    EndsLater(c + [TSym(Question)] + t + [TSym(Colon)], f, rest);
    Exact(e.els, TERNARY, rest);
    TernaryJoin(c + after1, e.cond, after1, e.thn, after2, e.els, rest);
  }

  lemma TernaryJoin(ts: Tokens, cond: Tree, after1: Tokens, thn: Tree, after2: Tokens, els: Tree, rest: Tokens)
    requires Parse(2, ts) == Ok(cond, after1) && after1 != [] && after1[0] == TSym(Question)
    requires Parse(ASSIGNMENT, after1[1..]) == Ok(thn, after2) && after2 != [] && after2[0] == TSym(Colon)
    requires Parse(TERNARY, after2[1..]) == Ok(els, rest)
    ensures Parse(TERNARY, ts) == Ok(Ternary(cond, thn, els), rest)
  {
    hide Chain, Suffixes, Primary;
  }

  lemma {:induction false} OwnChain(e: Tree, rest: Tokens)
    requires Proper(e) && e.Binary? && e.op != StarStar && Stops(Level(e), rest) && NoCast(Bare(e), rest)
    ensures Parse(Level(e), Bare(e) + rest) == Ok(e, rest)
    decreases e, 1, 0
  {
    hide Print, PrintLeft, Suffixes, Primary, Items, ListUntil, List, Bare, Parse;
    ChainPrint(e, rest);
  }

  /** A left-associative operator: the parser's loop arrives at `e` and looks at the rest. */
  lemma {:induction false} ChainPrint(e: Tree, rest: Tokens)
    requires Proper(e) && e.Binary? && e.op != StarStar && Stops(Level(e) + 1, rest) && NoCast(Bare(e), rest)
    ensures Parse(Level(e), Bare(e) + rest) == Chain(Level(e), e, rest)
    decreases e, 0, 2
  {
    hide Print, PrintLeft, Suffixes, Primary, Items, ListUntil, List, Parse;
    var k, op := Level(e), e.op;
    var l, r := PrintLeft(e.left, k, op), Print(e.right, k + 1);
    var after := [TSym(op)] + r + rest;
    assert Bare(e) + rest == l + after;
    assert after[1..] == r + rest;
    EndsLater(l + [TSym(op)], r, rest);
    Exact(e.right, k + 1, rest);
    assert Chain(k, e.left, after) == Chain(k, e, rest);
    LeftPrint(e, after);
  }

  lemma {:induction false} LeftPrint(e: Tree, after: Tokens)
    requires Proper(e) && e.Binary? && e.op != StarStar && after != [] && after[0] == TSym(e.op)
    ensures Parse(Level(e), PrintLeft(e.left, Level(e), e.op) + after) == Chain(Level(e), e.left, after)
    decreases e, 0, 1
  {
    hide Primary, Items, ListUntil, List, Chain, Parse, Bare;
    var k, op, l := Level(e), e.op, e.left;
    if (op == Lt && EndsInTo(Print(l, k))) || Level(l) < k {
      LeftGrouped(e, after);
    } else if Level(l) == k {
      assert l.Binary?;
      ChainPrint(l, after);
    } else {
      assert PrintLeft(l, k, op) == Print(l, k + 1);
      Exact(l, k + 1, after);
      Tighter(e, PrintLeft(l, k, op) + after, l, after);
    }
  }

  lemma {:induction false} LeftGrouped(e: Tree, after: Tokens)
    requires Proper(e) && e.Binary? && e.op != StarStar && after != [] && after[0] == TSym(e.op)
    requires var k := Level(e); (e.op == Lt && EndsInTo(Print(e.left, k))) || Level(e.left) < k
    ensures Parse(Level(e), PrintLeft(e.left, Level(e), e.op) + after) == Chain(Level(e), e.left, after)
    decreases e, 0, 0
  {
    hide Primary, Items, ListUntil, List, Chain, Parse, Bare;
    var k, op, l := Level(e), e.op, e.left;
    assert PrintLeft(l, k, op) == Parens(Bare(l));
    Grouped(l, after);
    Up(k + 1, POSTFIX, Parens(Bare(l)) + after, l, after);
    Tighter(e, PrintLeft(l, k, op) + after, l, after);
  }

  /** A left operand parsed one level further in is where the loop starts. */
  lemma Tighter(e: Tree, ts: Tokens, l: Tree, after: Tokens)
    requires Proper(e) && e.Binary? && e.op != StarStar && Parse(Level(e) + 1, ts) == Ok(l, after)
    ensures Parse(Level(e), ts) == Chain(Level(e), l, after)
  {
    hide Primary, Chain;
  }

  lemma {:induction false} OwnSuffix(e: Tree, rest: Tokens)
    requires Proper(e) && Level(e) == POSTFIX && Stops(POSTFIX, rest) && NoCast(Bare(e), rest)
    ensures Parse(POSTFIX, Bare(e) + rest) == Ok(e, rest)
    decreases e, 1, 0
  {
    hide Print, PrintLeft, Primary, Items, ListUntil, List, Bare, Parse;
    SuffixPrint(e, rest);
  }

  /** The suffix loop arrives at `e` and looks at the rest. */
  lemma {:induction false} SuffixPrint(e: Tree, rest: Tokens)
    requires Proper(e) && Level(e) == POSTFIX && NoCast(Bare(e), rest)
    ensures Parse(POSTFIX, Bare(e) + rest) == Suffixes(e, rest)
    decreases e, 0, 2
  {
    hide Print, PrintLeft, List, Chain, Tail, Bare, Proper, Suffixes, Primary;
    match e
    case Binary(_, _, _) => NotSuffix(e);
    case Postfix(_, _) => ShortSuffix(e, rest);
    case Field(_, _) => ShortSuffix(e, rest);
    case Member(_, _) => ShortSuffix(e, rest);
    case Call(_, _) => CallSuffix(e, rest);
    case Index(_, _) => IndexSuffix(e, rest);
    case _ => Atom(e, rest);
  }

  lemma NotSuffix(e: Tree)
    requires Proper(e) && e.Binary?
    ensures Level(e) != POSTFIX
  {
  }

  lemma {:induction false} ShortSuffix(e: Tree, rest: Tokens)
    requires Proper(e) && NoCast(Bare(e), rest) && (e.Postfix? || e.Field? || e.Member?)
    ensures Parse(POSTFIX, Bare(e) + rest) == Suffixes(e, rest)
    decreases e, 0, 1
  {
    hide Print, PrintLeft, List, Chain, Tail, Parse, Primary;
    var suffix := if e.Postfix? then [TSym(e.op)]
                  else if e.Field? then [TSym(Dot), TInt(Digits(e.index))] else [TSym(Dot), TName(e.name)];
    var after := suffix + rest;
    assert Bare(e) + rest == Print(e.e, POSTFIX) + after;
    Operand(e.e, after);
    assert after[|suffix|..] == rest;
    if e.Field? { NaturalDigits(e.index); }
    if e.Member? {
      var ts := Bare(e);
      assert ts[|ts| - 2] == TSym(Dot) && ts[|ts| - 1] == TName(e.name);
    }
  }

  lemma {:induction false} CallSuffix(e: Tree, rest: Tokens)
    requires Proper(e) && e.Call?
    ensures Parse(POSTFIX, Bare(e) + rest) == Suffixes(e, rest)
    decreases e, 0, 1
  {
    hide Print, PrintLeft, List, Chain, Tail, Parse, Primary, ListUntil;
    var after := [TSym(LParen)] + List(e.args) + [TSym(RParen)] + rest;
    assert Bare(e) + rest == Print(e.f, POSTFIX) + after;
    Operand(e.f, after);
    ListPrint(e.args, RParen, rest);
    assert after[1..] == List(e.args) + [TSym(RParen)] + rest;
  }

  lemma {:induction false} IndexSuffix(e: Tree, rest: Tokens)
    requires Proper(e) && e.Index?
    ensures Parse(POSTFIX, Bare(e) + rest) == Suffixes(e, rest)
    decreases e, 0, 1
  {
    hide Print, PrintLeft, List, Chain, Tail, Parse, Primary, ListUntil;
    var after1 := [TSym(RBracket)] + rest;
    var after := [TSym(LBracket)] + Print(e.index1, 0) + after1;
    assert Bare(e) + rest == Print(e.e, POSTFIX) + after;
    Operand(e.e, after);
    Exact(e.index1, 0, after1);
    assert after[1..] == Print(e.index1, 0) + after1;
    assert after1[1..] == rest;
  }

  /** What a suffix is attached to. */
  lemma {:induction false} Operand(e: Tree, after: Tokens)
    requires Proper(e) && !Starts(after, Lt)
    ensures Parse(POSTFIX, Print(e, POSTFIX) + after) == Suffixes(e, after)
    decreases e, 2, 2
  {
    hide Parse, Chain, Tail, Suffixes, Primary, Bare, Proper, List;
    if Level(e) < POSTFIX {
      Grouped(e, after);
    } else {
      SuffixPrint(e, after);
    }
  }

  lemma NaturalDigits(n: nat)
    requires n <= MAX
    ensures Natural(Digits(n)) == n
  {
    ParseOfText(n);
  }

  /** Everything that is a single token or a bracketed list. */
  lemma {:induction false} Atom(e: Tree, rest: Tokens)
    requires Proper(e) && Level(e) == POSTFIX
    requires !e.Postfix? && !e.Call? && !e.Field? && !e.Member? && !e.Index? && !e.Binary?
    ensures Primary(Bare(e) + rest) == Ok(e, rest)
    decreases e, 0, 1
  {
    hide Print, PrintLeft, List, Chain, Tail, Items, ListUntil;
    if e.Tuple? || e.Init? || e.Array? || e.SuperCall? || e.New? {
      hide Proper, Primary, Bare;
      if e.SuperCall? || e.New? { Named(e, rest); } else { Bracketed(e, rest); }
    } else {
      var ts := Bare(e) + rest;
      if e.Int? { NaturalDigits(e.n); }
      if e.Sizeof? {
        assert ts[4..] == rest;
      } else {
        assert ts[1..] == rest;
      }
    }
  }

  lemma {:induction false} Named(e: Tree, rest: Tokens)
    requires Proper(e) && (e.SuperCall? || e.New?)
    ensures Primary(Bare(e) + rest) == Ok(e, rest)
    decreases e, 0, 0
  {
    hide Print, PrintLeft, List, Chain, Tail, Items, ListUntil;
    var ts := Bare(e) + rest;
    match e
    case SuperCall(name, args) =>
      ListPrint(args, RParen, rest);
      assert ts[4..] == List(args) + [TSym(RParen)] + rest;
    case New(name, args) =>
      ListPrint(args, RParen, rest);
      assert ts[3..] == List(args) + [TSym(RParen)] + rest;
  }

  lemma {:induction false} Bracketed(e: Tree, rest: Tokens)
    requires Proper(e) && (e.Tuple? || e.Init? || e.Array?)
    ensures Primary(Bare(e) + rest) == Ok(e, rest)
    decreases e, 0, 0
  {
    hide Print, PrintLeft, List, Chain, Tail, Items, ListUntil;
    var ts := Bare(e) + rest;
    match e
    case Tuple(items) =>
      var after := [TSym(RParen)] + rest;
      ItemsPrint(items, RParen, rest);
      assert ts[1..] == List(items) + after;
      assert after[1..] == rest;
    case Init(items) =>
      ListPrint(items, RBrace, rest);
      assert ts[1..] == List(items) + [TSym(RBrace)] + rest;
    case Array(items) =>
      ListPrint(items, RBracket, rest);
      assert ts[1..] == List(items) + [TSym(RBracket)] + rest;
  }

  lemma {:induction false} ItemsPrint(es: seq<Tree>, close: Sym, rest: Tokens)
    requires AllProper(es) && es != [] && Closer(close)
    ensures Items(List(es) + ([TSym(close)] + rest)) == OkList(es, [TSym(close)] + rest)
    decreases es, 0, 0
  {
    hide Print, PrintLeft, Parse, Bare;
    var after := [TSym(close)] + rest;
    if |es| == 1 {
      Exact(es[0], 0, after);
    } else {
      var more := [TSym(Comma)] + List(es[1..]) + after;
      assert List(es) + after == Print(es[0], 0) + more;
      Exact(es[0], 0, more);
      assert more[1..] == List(es[1..]) + after;
      ItemsPrint(es[1..], close, rest);
      assert [es[0]] + es[1..] == es;
    }
  }

  lemma {:induction false} ListPrint(es: seq<Tree>, close: Sym, rest: Tokens)
    requires AllProper(es) && Closer(close)
    ensures ListUntil(List(es) + [TSym(close)] + rest, close) == OkList(es, rest)
    decreases es, 1, 0
  {
    hide Print, PrintLeft, Parse, Bare, Items;
    var ts, after := List(es) + [TSym(close)] + rest, [TSym(close)] + rest;
    assert ts == List(es) + after;
    assert after[1..] == rest;
    if es == [] {
      assert ts == after;
    } else {
      ItemsPrint(es, close, rest);
      FirstToken(es[0], 0);
      ListHead(es);
      assert ts[0] == Print(es[0], 0)[0];
    }
  }

  lemma ListHead(es: seq<Tree>)
    requires es != [] && Print(es[0], 0) != []
    ensures List(es) != [] && List(es)[0] == Print(es[0], 0)[0]
  {
    hide Print;
  }

  /** Parser and printer are inverse: `parse_expr` on the text of a tree followed by anything
      that cannot continue an expression gives back the tree and leaves the rest. */
  lemma ParsePrint(e: Tree, rest: Tokens)
    requires Proper(e) && Stops(0, rest)
    ensures Parse(ASSIGNMENT, Print(e, 0) + rest) == Ok(e, rest)
  {
    hide Parse, Print, Proper;
    Exact(e, 0, rest);
  }
}
