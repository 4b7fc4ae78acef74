/** The other way round the parser: whatever it builds can be printed and parsed again. */

module Reparse {
  import opened Options
  import opened Decimal
  import opened Grammar
  import opened Parser
  import opened RoundTrip

  lemma NaturalFits(text: string)
    ensures Natural(text) <= MAX
  {
  }

  lemma {:induction false} Built(k: nat, t: Tokens)
    requires k <= POSTFIX
    ensures Parse(k, t).Ok? ==> Proper(Parse(k, t).e)
    decreases |t|, 20 - k, 0
  {
    hide Primary, Suffixes, Chain, Tail, Proper;
    if k == UNARY {
      if t != [] && t[0].TSym? && IsPrefix(t[0].s) {
        Built(UNARY, t[1..]);
        var r := Parse(UNARY, t[1..]);
        if r.Ok? { ProperPrefix(t[0].s, r.e); }
      } else {
        Built(POSTFIX, t);
      }
    } else if k == POSTFIX {
      BuiltPrimary(t);
      var r := Primary(t);
      if r.Ok? { BuiltSuffixes(r.e, r.rest); }
    } else {
      Built(k + 1, t);
      var r := Parse(k + 1, t);
      if r.Ok? {
        if LeftLevel(k) { BuiltChain(k, r.e, r.rest); } else { BuiltTail(k, r.e, r.rest); }
      }
    }
  }

  lemma ProperPrefix(s: Sym, e: Tree)
    requires IsPrefix(s) && Proper(e)
    ensures Proper(Prefix(s, e))
  {
  }

  lemma ProperChain(k: nat, l: Tree, s: Sym, r: Tree)
    requires Proper(l) && Proper(r) && SymLevel(s) == Some(k) && LeftLevel(k)
    ensures Proper(Binary(s, l, r))
  {
    hide SymLevel, LeftLevel;
  }

  lemma ProperAssign(l: Tree, s: Sym, r: Tree)
    requires Proper(l) && Proper(r) && SymLevel(s) == Some(ASSIGNMENT)
    ensures Proper(AssignTo(l, s, r))
  {
    hide SymLevel;
  }

  lemma ProperRange(l: Tree, r: Tree)
    requires Proper(l) && Proper(r)
    ensures Proper(Range(l, r))
  {
  }

  lemma ProperPower(l: Tree, r: Tree)
    requires Proper(l) && Proper(r)
    ensures Proper(Binary(StarStar, l, r))
  {
  }

  lemma OtherLevels(k: nat)
    requires k <= POWER && k != TERNARY && !LeftLevel(k)
    ensures k == ASSIGNMENT || k == RANGE || k == POWER
  {
  }

  lemma ProperJoined(k: nat, l: Tree, s: Sym, r: Tree)
    requires Proper(l) && Proper(r) && SymLevel(s) == Some(k) && k <= POWER && k != TERNARY && !LeftLevel(k)
    ensures Proper(Joined(k, l, s, r))
  {
    OtherLevels(k);
    hide SymLevel, Proper, LeftLevel;
    if k == ASSIGNMENT {
      ProperAssign(l, s, r);
    } else if k == RANGE {
      ProperRange(l, r);
    } else {
      ProperPower(l, r);
    }
  }

  lemma {:induction false} BuiltChain(k: nat, left: Tree, t: Tokens)
    requires LeftLevel(k) && Proper(left)
    ensures Chain(k, left, t).Ok? ==> Proper(Chain(k, left, t).e)
    decreases |t|, 0, 1
  {
    hide Parse, Proper;
    if Continues(t, k) {
      Built(k + 1, t[1..]);
      var r := Parse(k + 1, t[1..]);
      if r.Ok? {
        ProperChain(k, left, t[0].s, r.e);
        BuiltChain(k, Binary(t[0].s, left, r.e), r.rest);
      }
    }
  }

  lemma {:induction false} BuiltTail(k: nat, left: Tree, t: Tokens)
    requires k <= POWER && !LeftLevel(k) && Proper(left)
    ensures Tail(k, left, t).Ok? ==> Proper(Tail(k, left, t).e)
    decreases |t|, 0, 1
  {
    hide Parse, Proper;
    if Continues(t, k) {
      if k == TERNARY {
        Built(ASSIGNMENT, t[1..]);
        var r := Expect(Parse(ASSIGNMENT, t[1..]), Colon);
        if r.Ok? {
          Built(TERNARY, r.rest);
          var r1 := Parse(TERNARY, r.rest);
          if r1.Ok? { ProperTernary(left, r.e, r1.e); }
        }
      } else {
        Built(RightLevel(k), t[1..]);
        var r := Parse(RightLevel(k), t[1..]);
        if r.Ok? { ProperJoined(k, left, t[0].s, r.e); }
      }
    }
  }

  lemma ProperTernary(c: Tree, t: Tree, f: Tree)
    requires Proper(c) && Proper(t) && Proper(f)
    ensures Proper(Ternary(c, t, f))
  {
  }

  lemma ProperSuffix(e: Tree, args: seq<Tree>, text: string, name: string, s: Sym)
    requires Proper(e)
    ensures AllProper(args) ==> Proper(Call(e, args))
    ensures Proper(Field(e, Natural(text))) && Proper(Member(e, name))
    ensures s == PlusPlus || s == MinusMinus ==> Proper(Postfix(s, e))
  {
    NaturalFits(text);
  }

  lemma ProperIndex(e: Tree, i: Tree)
    requires Proper(e) && Proper(i)
    ensures Proper(Index(e, i))
  {
  }

  lemma {:induction false} BuiltSuffixes(e: Tree, t: Tokens)
    requires Proper(e)
    ensures Suffixes(e, t).Ok? ==> Proper(Suffixes(e, t).e)
    decreases |t|, 0, 1
  {
    hide Parse, ListUntil, Proper, AllProper, Natural;
    if Starts(t, LParen) {
      BuiltUntil(t[1..], RParen);
      var r := ListUntil(t[1..], RParen);
      if r.OkList? {
        ProperSuffix(e, r.es, "", "", PlusPlus);
        BuiltSuffixes(Call(e, r.es), r.rest);
      }
    } else if Starts(t, Dot) {
      if |t| > 1 && t[1].TInt? {
        ProperSuffix(e, [], t[1].text, "", PlusPlus);
        BuiltSuffixes(Field(e, Natural(t[1].text)), t[2..]);
      } else if |t| > 1 && t[1].TName? && !(t[1].name == "to" && Starts(t[2..], Lt)) {
        ProperSuffix(e, [], "", t[1].name, PlusPlus);
        BuiltSuffixes(Member(e, t[1].name), t[2..]);
      }
    } else if Starts(t, LBracket) {
      BuiltIndex(e, t);
    } else if Starts(t, PlusPlus) || Starts(t, MinusMinus) {
      ProperSuffix(e, [], "", "", t[0].s);
      BuiltSuffixes(Postfix(t[0].s, e), t[1..]);
    }
  }

  lemma {:induction false} BuiltIndex(e: Tree, t: Tokens)
    requires Proper(e) && Starts(t, LBracket)
    ensures Suffixes(e, t).Ok? ==> Proper(Suffixes(e, t).e)
    decreases |t|, 0, 0
  {
    hide Parse, ListUntil, Proper;
    Built(ASSIGNMENT, t[1..]);
    var r := Expect(Parse(ASSIGNMENT, t[1..]), RBracket);
    if r.Ok? {
      ProperIndex(e, r.e);
      BuiltSuffixes(Index(e, r.e), r.rest);
    }
  }

  lemma {:induction false} BuiltPrimary(t: Tokens)
    ensures Primary(t).Ok? ==> Proper(Primary(t).e)
    decreases |t|, 0, 0
  {
    hide Items, ListUntil;
    if t != [] {
      match t[0]
      case TInt(text) => NaturalFits(text);
      case TSuper => if |t| > 3 { BuiltUntil(t[4..], RParen); }
      case TNew => if |t| > 2 { BuiltUntil(t[3..], RParen); }
      case TSym(LParen) => BuiltItems(t[1..]);
      case TSym(LBrace) => BuiltUntil(t[1..], RBrace);
      case TSym(LBracket) => BuiltUntil(t[1..], RBracket);
      case _ =>
    }
  }

  lemma {:induction false} BuiltItems(t: Tokens)
    ensures Items(t).OkList? ==> AllProper(Items(t).es)
    decreases |t|, 21
  {
    hide Parse, Proper;
    Built(ASSIGNMENT, t);
    var r := Parse(ASSIGNMENT, t);
    if r.Ok? && Starts(r.rest, Comma) {
      BuiltItems(r.rest[1..]);
    }
  }

  lemma {:induction false} BuiltUntil(t: Tokens, close: Sym)
    ensures ListUntil(t, close).OkList? ==> AllProper(ListUntil(t, close).es)
    decreases |t|, 22
  {
    hide Items, Proper;
    if !Starts(t, close) { BuiltItems(t); }
  }

  /** What is parsed from any tokens and printed with no more parentheses than needed is parsed to the
      same tree. */
  lemma ParseAgain(t: Tokens, rest: Tokens)
    requires Parse(ASSIGNMENT, t).Ok? && Stops(0, rest)
    ensures var e := Parse(ASSIGNMENT, t).e; Parse(ASSIGNMENT, Print(e, 0) + rest) == Ok(e, rest)
  {
    Built(ASSIGNMENT, t);
    hide Parse, Print, Proper;
    ParsePrint(Parse(ASSIGNMENT, t).e, rest);
  }
}
