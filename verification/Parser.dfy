/** The expression parser (src/frontend/parser.c:1942-2372). */

module Parser {
  import opened Options
  import opened Decimal
  import opened Grammar

  /** The tree and what is left; `Bad` is a parse error, which stops the compiler. */
  datatype Parsed = Bad | Ok(e: Tree, rest: Tokens)

  datatype ParsedList = BadList | OkList(es: seq<Tree>, rest: Tokens)

  predicate Starts(t: Tokens, s: Sym) { t != [] && t[0] == TSym(s) }

  /** The next symbol continues an expression at level `k`. */
  predicate Continues(t: Tokens, k: nat) {
    t != [] && t[0].TSym? && SymLevel(t[0].s) == Some(k)
  }

  /** `t` after an expected symbol. */
  function Expect(r: Parsed, s: Sym): (r1: Parsed)
    ensures r1.Ok? ==> r.Ok? && |r1.rest| < |r.rest| && r1.e == r.e
  {
    if r.Ok? && Starts(r.rest, s) then Ok(r.e, r.rest[1..]) else Bad
  }

  /** An expression of level `k` or tighter: `parse_assignment` is level 0, `parse_ternary` 1,
      `parse_or` 2, `parse_and` 3, `parse_comparison` 4, `parse_range` 5, `parse_additive` 6,
      `parse_multiplicative` 7, `parse_power` 8, `parse_unary` 9, `parse_postfix` 10. */
  function Parse(k: nat, t: Tokens): (r: Parsed)
    requires k <= POSTFIX
    ensures r.Ok? ==> |r.rest| < |t|
    decreases |t|, 20 - k, 0
  {
    if k == UNARY then
      if t != [] && t[0].TSym? && IsPrefix(t[0].s) then
        match Parse(UNARY, t[1..])
        case Bad => Bad
        case Ok(e, rest) => Ok(Prefix(t[0].s, e), rest)
      else Parse(POSTFIX, t)
    else if k == POSTFIX then
      match Primary(t)
      case Bad => Bad
      case Ok(e, rest) => Suffixes(e, rest)
    else
      match Parse(k + 1, t)
      case Bad => Bad
      case Ok(e, rest) => if LeftLevel(k) then Chain(k, e, rest) else Tail(k, e, rest)
  }

  /** The loop of a left-associative level. */
  function Chain(k: nat, left: Tree, t: Tokens): (r: Parsed)
    requires LeftLevel(k)
    ensures r.Ok? ==> |r.rest| <= |t|
    decreases |t|, 0, 1
  {
    if Continues(t, k) then
      match Parse(k + 1, t[1..])
      case Bad => Bad
      case Ok(e, rest) => Chain(k, Binary(t[0].s, left, e), rest)
    else Ok(left, t)
  }

  /** The levels that take their operator at most once, or again on the right. */
  function Tail(k: nat, left: Tree, t: Tokens): (r: Parsed)
    requires k <= POWER && !LeftLevel(k)
    ensures r.Ok? ==> |r.rest| <= |t|
    decreases |t|, 0, 1
  {
    if !Continues(t, k) then Ok(left, t)
    else if k == TERNARY then
      match Expect(Parse(ASSIGNMENT, t[1..]), Colon)
      case Bad => Bad
      case Ok(thn, rest) =>
        match Parse(TERNARY, rest)
        case Bad => Bad
        case Ok(els, rest1) => Ok(Ternary(left, thn, els), rest1)
    else
      match Parse(RightLevel(k), t[1..])
      case Bad => Bad
      case Ok(e, rest) => Ok(Joined(k, left, t[0].s, e), rest)
  }

  /** A range's end is additive; assignment and power recurse. */
  function RightLevel(k: nat): nat { if k == RANGE then 6 else k }

  function Joined(k: nat, left: Tree, op: Sym, right: Tree): Tree {
    if k == ASSIGNMENT then AssignTo(left, op, right)
    else if k == RANGE then Range(left, right)
    else Binary(StarStar, left, right)
  }

  /** Calls, members, indices and postfix operators.  `.to<` starts a conversion, whose type
      argument is not part of this model. */
  function Suffixes(e: Tree, t: Tokens): (r: Parsed)
    ensures r.Ok? ==> |r.rest| <= |t|
    decreases |t|, 0, 1
  {
    if Starts(t, LParen) then
      match ListUntil(t[1..], RParen)
      case BadList => Bad
      case OkList(args, rest) => Suffixes(Call(e, args), rest)
    else if Starts(t, Dot) then
      if |t| == 1 then Bad
      else if t[1].TInt? then Suffixes(Field(e, Natural(t[1].text)), t[2..])
      else if t[1].TName? then
        if t[1].name == "to" && Starts(t[2..], Lt) then Bad
        else Suffixes(Member(e, t[1].name), t[2..])
      else Bad
    else if Starts(t, LBracket) then
      match Expect(Parse(ASSIGNMENT, t[1..]), RBracket)
      case Bad => Bad
      case Ok(i, rest) => Suffixes(Index(e, i), rest)
    else if Starts(t, PlusPlus) || Starts(t, MinusMinus) then Suffixes(Postfix(t[0].s, e), t[1..])
    else Ok(e, t)
  }

  /** The value of an integer token, which has no sign. */
  function Natural(text: string): nat {
    var v := ParseInt(text);
    if v < 0 then 0 else v
  }

  function Primary(t: Tokens): (r: Parsed)
    ensures r.Ok? ==> |r.rest| < |t|
    decreases |t|, 0, 0
  {
    if t == [] then Bad
    else
      match t[0]
      case TInt(text) => Ok(Int(Natural(text)), t[1..])
      case TFloat(text) => Ok(Float(text), t[1..])
      case TStr(text) => Ok(Str(text), t[1..])
      case TName(name) => Ok(Id(name), t[1..])
      case TTrue => Ok(Int(1), t[1..])
      case TFalse => Ok(Int(0), t[1..])
      case TNull => Ok(Id("NULL"), t[1..])
      case TSelf => Ok(Self, t[1..])
      case TSuper =>
        if !Starts(t[1..], Dot) then Ok(Self, t[1..])
        else if |t| > 3 && t[2].TName? && t[3] == TSym(LParen) then
          match ListUntil(t[4..], RParen)
          case BadList => Bad
          case OkList(args, rest) => Ok(SuperCall(t[2].name, args), rest)
        else Bad
      case TNew =>
        if |t| > 2 && t[1].TName? && t[2] == TSym(LParen) then
          match ListUntil(t[3..], RParen)
          case BadList => Bad
          case OkList(args, rest) => Ok(New(t[1].name, args), rest)
        else Bad
      case TSizeof =>
        if |t| > 3 && t[1] == TSym(LParen) && t[2].TName? && t[3] == TSym(RParen) then Ok(Sizeof(t[2].name), t[4..])
        else Bad
      case TSym(LParen) =>
        (match Items(t[1..])
         case BadList => Bad
         case OkList(es, rest) =>
           if !Starts(rest, RParen) then Bad
           else Ok(if |es| == 1 then es[0] else Tuple(es), rest[1..]))
      case TSym(LBrace) =>
        (match ListUntil(t[1..], RBrace)
         case BadList => Bad
         case OkList(es, rest) => Ok(Init(es), rest))
      case TSym(LBracket) =>
        (match ListUntil(t[1..], RBracket)
         case BadList => Bad
         case OkList(es, rest) => Ok(Array(es), rest))
      case _ => Bad
  }

  /** One or more expressions between commas. */
  function Items(t: Tokens): (r: ParsedList)
    ensures r.OkList? ==> |r.rest| < |t| && |r.es| > 0
    decreases |t|, 21
  {
    match Parse(ASSIGNMENT, t)
    case Bad => BadList
    case Ok(e, rest) =>
      if !Starts(rest, Comma) then OkList([e], rest)
      else
        match Items(rest[1..])
        case BadList => BadList
        case OkList(es, rest1) => OkList([e] + es, rest1)
  }

  /** Expressions up to a closing symbol, possibly none. */
  function ListUntil(t: Tokens, close: Sym): (r: ParsedList)
    ensures r.OkList? ==> |r.rest| < |t|
    decreases |t|, 22
  {
    if Starts(t, close) then OkList([], t[1..])
    else
      match Items(t)
      case BadList => BadList
      case OkList(es, rest) => if Starts(rest, close) then OkList(es, rest[1..]) else BadList
  }

  function Extend(acc: seq<Tree>, r: ParsedList): ParsedList {
    match r
    case BadList => BadList
    case OkList(es, rest) => OkList(acc + es, rest)
  }

  lemma ExtendItems(acc: seq<Tree>, t: Tokens)
    ensures Extend([], Items(t)) == Items(t)
    ensures var r := Parse(ASSIGNMENT, t);
      Extend(acc, Items(t)) ==
        if r.Bad? then BadList
        else if Starts(r.rest, Comma) then Extend(acc + [r.e], Items(r.rest[1..]))
        else OkList(acc + [r.e], r.rest)
  {
    hide Parse;
    var r := Items(t);
    if r.OkList? {
      assert [] + r.es == r.es;
      var p := Parse(ASSIGNMENT, t);
      if Starts(p.rest, Comma) {
        var r1 := Items(p.rest[1..]);
        assert acc + ([p.e] + r1.es) == acc + [p.e] + r1.es;
      }
    }
  }

  /** The parser as it is: a place in the token stream that every method moves on. */
  class ExprParser {
    const toks: Tokens
    var pos: nat

    constructor (tokens: Tokens)
      ensures Valid() && Rest() == tokens
    {
      toks, pos := tokens, 0;
    }

    predicate Valid()
      reads this
    {
      pos <= |toks|
    }

    function Rest(): Tokens
      reads this
      requires Valid()
    {
      toks[pos..]
    }

    /** A method has done what the function says: none after an error, else the tree and the
        new place. */
    predicate Done(e: Option<Tree>, r: Parsed)
      reads this
    {
      Valid() && if r.Bad? then e.None? else e == Some(r.e) && Rest() == r.rest
    }

    predicate DoneList(es: Option<seq<Tree>>, r: ParsedList)
      reads this
    {
      Valid() && if r.BadList? then es.None? else es == Some(r.es) && Rest() == r.rest
    }

    method Adv(n: nat)
      requires pos + n <= |toks|
      modifies this
      ensures Valid() && Rest() == old(Rest())[n..] && pos == old(pos) + n
    {
      pos := pos + n;
    }

    method Match(s: Sym) returns (b: bool)
      requires Valid()
      modifies this
      ensures Valid() && b == Starts(old(Rest()), s) && pos == old(pos) + (if b then 1 else 0)
      ensures Rest() == if b then old(Rest())[1..] else old(Rest())
    {
      b := pos < |toks| && toks[pos] == TSym(s);
      if b {
        pos := pos + 1;
      }
    }

    /** `parse_assignment` down to `parse_power`, then `parse_unary` and `parse_postfix`. */
    method ParseLevel(k: nat) returns (e: Option<Tree>)
      requires Valid() && k <= POSTFIX
      modifies this
      ensures Done(e, Parse(k, old(Rest()))) && (e.Some? ==> old(pos) < pos)
      decreases |toks| - pos, 20 - k, 0
    {
      hide Chain, Tail, Suffixes, Primary;
      if k == UNARY {
        e := ParseUnary();
      } else if k == POSTFIX {
        e := ParsePostfix();
      } else {
        e := ParseLevel(k + 1);
        if e.Some? {
          if LeftLevel(k) {
            e := ParseChain(k, e.value);
          } else {
            e := ParseTail(k, e.value);
          }
        }
      }
    }

    /** The loop of `parse_or`, `parse_and`, `parse_comparison`, `parse_additive` and
        `parse_multiplicative`. */
    method ParseChain(k: nat, first: Tree) returns (e: Option<Tree>)
      requires Valid() && LeftLevel(k)
      modifies this
      ensures Done(e, Chain(k, first, old(Rest()))) && (e.Some? ==> old(pos) <= pos)
      decreases |toks| - pos, 0, 1
    {
      hide Parse;
      var left := first;
      while pos < |toks| && Continues(toks[pos..], k)
        invariant Valid() && old(pos) <= pos
        invariant Chain(k, first, old(Rest())) == Chain(k, left, Rest())
        decreases |toks| - pos
      {
        var op := toks[pos].s;
        Adv(1);
        e := ParseLevel(k + 1);
        if e.None? {
          return;
        }
        left := Binary(op, left, e.value);
      }
      e := Some(left);
    }

    /** The operators that are taken once, or again by recursion on the right. */
    method ParseTail(k: nat, left: Tree) returns (e: Option<Tree>)
      requires Valid() && k <= POWER && !LeftLevel(k)
      modifies this
      ensures Done(e, Tail(k, left, old(Rest()))) && (e.Some? ==> old(pos) <= pos)
      decreases |toks| - pos, 0, 1
    {
      hide Parse, Joined;
      if pos == |toks| || !Continues(toks[pos..], k) {
        e := Some(left);
      } else if k == TERNARY {
        e := ParseTernaryTail(left);
      } else {
        var op := toks[pos].s;
        Adv(1);
        e := ParseLevel(RightLevel(k));
        if e.Some? {
          e := Some(Joined(k, left, op, e.value));
        }
      }
    }

    method ParseTernaryTail(cond: Tree) returns (e: Option<Tree>)
      requires Valid() && Continues(Rest(), TERNARY)
      modifies this
      ensures Done(e, Tail(TERNARY, cond, old(Rest()))) && (e.Some? ==> old(pos) <= pos)
      decreases |toks| - pos, 0, 0
    {
      hide Parse;
      Adv(1);
      var thn := ParseLevel(ASSIGNMENT);
      if thn.None? {
        return None;
      }
      var colon := Match(Colon);
      if !colon {
        return None;
      }
      e := ParseLevel(TERNARY);
      if e.Some? {
        e := Some(Ternary(cond, thn.value, e.value));
      }
    }

    method ParseUnary() returns (e: Option<Tree>)
      requires Valid()
      modifies this
      ensures Done(e, Parse(UNARY, old(Rest()))) && (e.Some? ==> old(pos) < pos)
      decreases |toks| - pos, 20 - UNARY, -1
    {
      hide Chain, Tail, Suffixes, Primary;
      if pos < |toks| && toks[pos].TSym? && IsPrefix(toks[pos].s) {
        var op := toks[pos].s;
        Adv(1);
        e := ParseUnary();
        if e.Some? {
          e := Some(Prefix(op, e.value));
        }
      } else {
        e := ParsePostfix();
      }
    }

    method ParsePostfix() returns (e: Option<Tree>)
      requires Valid()
      modifies this
      ensures Done(e, Parse(POSTFIX, old(Rest()))) && (e.Some? ==> old(pos) < pos)
      decreases |toks| - pos, 20 - POSTFIX, -1
    {
      hide Chain, Tail, Suffixes, Primary;
      e := ParsePrimary();
      if e.Some? {
        e := ParseSuffixes(e.value);
      }
    }

    /** The loop of `parse_postfix`. */
    method ParseSuffixes(first: Tree) returns (e: Option<Tree>)
      requires Valid()
      modifies this
      ensures Done(e, Suffixes(first, old(Rest()))) && (e.Some? ==> old(pos) <= pos)
      decreases |toks| - pos, 0, 1
    {
      hide Parse, ListUntil;
      var expr := first;
      while true
        invariant Valid() && old(pos) <= pos
        invariant Suffixes(first, old(Rest())) == Suffixes(expr, Rest())
        decreases |toks| - pos
      {
        if pos == |toks| || !toks[pos].TSym? {
          return Some(expr);
        }
        var s := toks[pos].s;
        if s == LParen {
          Adv(1);
          var args := ParseListUntil(RParen);
          if args.None? {
            return None;
          }
          expr := Call(expr, args.value);
        } else if s == Dot {
          if pos + 1 == |toks| {
            return None;
          }
          var member := toks[pos + 1];
          if member.TInt? {
            Adv(2);
            expr := Field(expr, Natural(member.text));
          } else if member.TName? {
            if member.name == "to" && pos + 2 < |toks| && toks[pos + 2] == TSym(Lt) {
              return None;
            }
            Adv(2);
            expr := Member(expr, member.name);
          } else {
            return None;
          }
        } else if s == LBracket {
          Adv(1);
          var i := ParseLevel(ASSIGNMENT);
          if i.None? {
            return None;
          }
          var close := Match(RBracket);
          if !close {
            return None;
          }
          expr := Index(expr, i.value);
        } else if s == PlusPlus || s == MinusMinus {
          Adv(1);
          expr := Postfix(s, expr);
        } else {
          return Some(expr);
        }
      }
    }

    method ParsePrimary() returns (e: Option<Tree>)
      requires Valid()
      modifies this
      ensures Done(e, Primary(old(Rest()))) && (e.Some? ==> old(pos) < pos)
      decreases |toks| - pos, 0, 0
    {
      hide Items, ListUntil;
      e := None;
      if pos == |toks| {
        return;
      }
      var t := toks[pos];
      match t
      case TInt(text) => Adv(1); e := Some(Int(Natural(text)));
      case TFloat(text) => Adv(1); e := Some(Float(text));
      case TStr(text) => Adv(1); e := Some(Str(text));
      case TName(name) => Adv(1); e := Some(Id(name));
      case TTrue => Adv(1); e := Some(Int(1));
      case TFalse => Adv(1); e := Some(Int(0));
      case TNull => Adv(1); e := Some(Id("NULL"));
      case TSelf => Adv(1); e := Some(Self);
      case TSuper => e := ParseKeyword();
      case TNew => e := ParseKeyword();
      case TSizeof => e := ParseKeyword();
      case TSym(LParen) =>
        Adv(1);
        var es := ParseItems();
        if es.None? {
          return None;
        }
        var close := Match(RParen);
        e := if !close then None else Some(if |es.value| == 1 then es.value[0] else Tuple(es.value));
      case TSym(LBrace) =>
        Adv(1);
        var es := ParseListUntil(RBrace);
        e := if es.None? then None else Some(Init(es.value));
      case TSym(LBracket) =>
        Adv(1);
        var es := ParseListUntil(RBracket);
        e := if es.None? then None else Some(Array(es.value));
      case _ =>
    }

    /** `super`, `new` and `sizeof`. */
    method ParseKeyword() returns (e: Option<Tree>)
      requires Valid() && pos < |toks| && (toks[pos].TSuper? || toks[pos].TNew? || toks[pos].TSizeof?)
      modifies this
      ensures Done(e, Primary(old(Rest()))) && (e.Some? ==> old(pos) < pos)
      decreases |toks| - pos, 0, -1
    {
      hide Items, ListUntil;
      e := None;
      match toks[pos]
      case TSuper =>
        if pos + 1 == |toks| || toks[pos + 1] != TSym(Dot) {
          Adv(1);
          e := Some(Self);
        } else if pos + 3 < |toks| && toks[pos + 2].TName? && toks[pos + 3] == TSym(LParen) {
          var name := toks[pos + 2].name;
          Adv(4);
          var args := ParseListUntil(RParen);
          e := if args.None? then None else Some(SuperCall(name, args.value));
        }
      case TNew =>
        if pos + 2 < |toks| && toks[pos + 1].TName? && toks[pos + 2] == TSym(LParen) {
          var name := toks[pos + 1].name;
          Adv(3);
          var args := ParseListUntil(RParen);
          e := if args.None? then None else Some(New(name, args.value));
        }
      case TSizeof =>
        if pos + 3 < |toks| && toks[pos + 1] == TSym(LParen) && toks[pos + 2].TName? && toks[pos + 3] == TSym(RParen) {
          e := Some(Sizeof(toks[pos + 2].name));
          Adv(4);
        }
    }

    /** `parse_expr()` and `while (match(TOK_COMMA)) parse_expr()`. */
    method ParseItems() returns (es: Option<seq<Tree>>)
      requires Valid()
      modifies this
      ensures DoneList(es, Items(old(Rest()))) && (es.Some? ==> old(pos) < pos)
      decreases |toks| - pos, 21, 0
    {
      hide Parse, Items;
      ExtendItems([], Rest());
      var acc := [];
      while true
        invariant Valid() && old(pos) <= pos
        invariant Items(old(Rest())) == Extend(acc, Items(Rest()))
        decreases |toks| - pos
      {
        ExtendItems(acc, Rest());
        var e := ParseLevel(ASSIGNMENT);
        if e.None? {
          return None;
        }
        acc := acc + [e.value];
        var comma := Match(Comma);
        if !comma {
          return Some(acc);
        }
      }
    }

    method ParseListUntil(close: Sym) returns (es: Option<seq<Tree>>)
      requires Valid()
      modifies this
      ensures DoneList(es, ListUntil(old(Rest()), close)) && (es.Some? ==> old(pos) < pos)
      decreases |toks| - pos, 22, 0
    {
      hide Items;
      var empty := Match(close);
      if empty {
        return Some([]);
      }
      es := ParseItems();
      if es.None? {
        return;
      }
      var closed := Match(close);
      if !closed {
        es := None;
      }
    }
  }
}
