/** From the text of an expression to its tree and back. */

module SourceText {
  import opened Options
  import opened Decimal
  import opened Lexing
  import opened Rendering
  import opened Grammar
  import Parser
  import RoundTrip

  const KEYWORDS: set<string> := {
    "struct", "class", "extends", "if", "else", "switch", "case", "match", "for", "while", "return",
    "mut", "mutable", "shared", "borrow", "using", "unsafe", "func", "in", "import", "link", "typedef",
    "enum", "union", "extern", "static", "const", "volatile", "register", "inline", "auto", "goto",
    "break", "continue", "default", "do", "as"}

  function SymText(s: Sym): string {
    match s
    case LParen => "(" case RParen => ")" case LBrace => "{" case RBrace => "}"
    case LBracket => "[" case RBracket => "]" case Comma => "," case Semicolon => ";" case Colon => ":"
    case Dot => "." case DotDot => ".." case Question => "?"
    case Plus => "+" case Minus => "-" case Star => "*" case Slash => "/" case Percent => "%"
    case StarStar => "**" case Tilde => "~"
    case EqEq => "==" case NotEq => "!=" case Lt => "<" case Gt => ">" case Le => "<=" case Ge => ">="
    case AndAnd => "&&" case OrOr => "||"
    case Assign => "=" case PlusAssign => "+=" case MinusAssign => "-=" case StarAssign => "*="
    case SlashAssign => "/=" case PlusPlus => "++" case MinusMinus => "--"
  }

  function SymOf(text: string): Option<Sym> {
    if |text| == 1 then
      match text[0]
      case '(' => Some(LParen)
      case ')' => Some(RParen)
      case '{' => Some(LBrace)
      case '}' => Some(RBrace)
      case '[' => Some(LBracket)
      case ']' => Some(RBracket)
      case ',' => Some(Comma)
      case ';' => Some(Semicolon)
      case ':' => Some(Colon)
      case '.' => Some(Dot)
      case '?' => Some(Question)
      case '+' => Some(Plus)
      case '-' => Some(Minus)
      case '*' => Some(Star)
      case '/' => Some(Slash)
      case '%' => Some(Percent)
      case '~' => Some(Tilde)
      case '<' => Some(Lt)
      case '>' => Some(Gt)
      case '=' => Some(Assign)
      case _ => None
    else if |text| == 2 then
      match (text[0], text[1])
      case ('.', '.') => Some(DotDot)
      case ('*', '*') => Some(StarStar)
      case ('=', '=') => Some(EqEq)
      case ('!', '=') => Some(NotEq)
      case ('<', '=') => Some(Le)
      case ('>', '=') => Some(Ge)
      case ('&', '&') => Some(AndAnd)
      case ('|', '|') => Some(OrOr)
      case ('+', '=') => Some(PlusAssign)
      case ('-', '=') => Some(MinusAssign)
      case ('*', '=') => Some(StarAssign)
      case ('/', '=') => Some(SlashAssign)
      case ('+', '+') => Some(PlusPlus)
      case ('-', '-') => Some(MinusMinus)
      case _ => None
    else None
  }

  /** The parser's view of a token.  Type keywords can be names; other keywords, f-strings and
      the symbols no expression contains are of no use to it. */
  function TokenOf(t: Lexeme): Token {
    match t
    case Word(w) =>
      if w == "true" then TTrue else if w == "false" then TFalse else if w == "NULL" then TNull
      else if w == "self" then TSelf else if w == "super" then TSuper
      else if w == "new" then TNew else if w == "sizeof" then TSizeof
      else if w in KEYWORDS then TOther
      else TName(w)
    case Number(text, isFloat) => if isFloat then TFloat(text) else TInt(text)
    case Str(s) => TStr(s)
    case Op(text) => (match SymOf(text) case None => TOther case Some(s) => TSym(s))
    case _ => TOther
  }

  function TokensOf(ts: seq<Lexeme>): Tokens {
    if ts == [] then [] else [TokenOf(ts[0])] + TokensOf(ts[1..])
  }

  /** A name no keyword takes. */
  predicate Plain(w: string) { Renderable(Word(w)) && TokenOf(Word(w)) == TName(w) }

  predicate Spelled(t: Token) {
    match t
    case TInt(text) => AllDigits(text)
    case TFloat(text) => Renderable(Number(text, true))
    case TStr(s) => Renderable(Lexeme.Str(s))
    case TName(w) => Plain(w)
    case TSym(_) => true
    case TOther => false
    case _ => true
  }

  function Spell(t: Token): Lexeme {
    match t
    case TInt(text) => Number(text, false)
    case TFloat(text) => Number(text, true)
    case TStr(s) => Lexeme.Str(s)
    case TName(w) => Word(w)
    case TTrue => Word("true")
    case TFalse => Word("false")
    case TNull => Word("NULL")
    case TSelf => Word("self")
    case TSuper => Word("super")
    case TNew => Word("new")
    case TSizeof => Word("sizeof")
    case TSym(s) => Op(SymText(s))
    case TOther => Eof
  }

  function SpellAll(ts: Tokens): seq<Lexeme> {
    if ts == [] then [] else [Spell(ts[0])] + SpellAll(ts[1..])
  }

  lemma SymFound(s: Sym)
    ensures SymOf(SymText(s)) == Some(s)
  {
    if |SymText(s)| == 1 {
      ShortSym(s);
    } else {
      LongSym(s);
    }
  }

  lemma ShortSym(s: Sym)
    requires |SymText(s)| == 1
    ensures SymOf(SymText(s)) == Some(s)
  {
  }

  lemma LongSym(s: Sym)
    requires |SymText(s)| != 1
    ensures SymOf(SymText(s)) == Some(s)
  {
  }

  /** A text stands for a symbol if and only if that is how the symbol is written. */
  lemma SymIff(text: string, s: Sym)
    ensures SymOf(text) == Some(s) <==> SymText(s) == text
  {
    SymFound(s);
    if SymOf(text) == Some(s) {
      if |text| == 1 { ShortText(text, s); } else { LongText(text, s); }
    }
    hide SymOf, SymText;
  }

  lemma ShortText(text: string, s: Sym)
    requires |text| == 1 && SymOf(text) == Some(s)
    ensures SymText(s) == text
  {
    assert text == [text[0]];
  }

  lemma LongText(text: string, s: Sym)
    requires |text| != 1 && SymOf(text) == Some(s)
    ensures SymText(s) == text
  {
    assert |text| == 2 && text == [text[0], text[1]];
  }

  lemma SymRenders(s: Sym)
    ensures Renderable(Op(SymText(s)))
  {
    hide SymOf;
  }

  lemma KeywordSpelled(t: Token)
    requires t.TTrue? || t.TFalse? || t.TNull? || t.TSelf? || t.TSuper? || t.TNew? || t.TSizeof?
    ensures Renderable(Spell(t)) && TokenOf(Spell(t)) == t
  {
  }

  lemma TokenSpelled(t: Token)
    requires Spelled(t)
    ensures Renderable(Spell(t)) && TokenOf(Spell(t)) == t
  {
    hide SymOf, SymText;
    match t
    case TSym(s) => SymFound(s); SymRenders(s);
    case TTrue => KeywordSpelled(t);
    case TFalse => KeywordSpelled(t);
    case TNull => KeywordSpelled(t);
    case TSelf => KeywordSpelled(t);
    case TSuper => KeywordSpelled(t);
    case TNew => KeywordSpelled(t);
    case TSizeof => KeywordSpelled(t);
    case _ =>
  }

  /** A token can be written if and only if its spelling is read back as it. */
  lemma SpelledIff(t: Token)
    ensures Spelled(t) <==> Renderable(Spell(t)) && TokenOf(Spell(t)) == t
  {
    if Spelled(t) { TokenSpelled(t); }
    hide SymOf, SymText;
  }

  predicate AllSpelled(ts: Tokens) { forall i :: 0 <= i < |ts| ==> Spelled(ts[i]) }

  lemma {:induction false} TokensSpelled(ts: Tokens)
    requires AllSpelled(ts)
    ensures |SpellAll(ts)| == |ts| && TokensOf(SpellAll(ts)) == ts
    ensures forall i :: 0 <= i < |ts| ==> Renderable(SpellAll(ts)[i])
    decreases |ts|
  {
    hide Spell, TokenOf, Renderable, Spelled;
    if ts != [] {
      TokenSpelled(ts[0]);
      TokensSpelled(ts[1..]);
      assert SpellAll(ts)[1..] == SpellAll(ts[1..]);
      assert [ts[0]] + ts[1..] == ts;
    }
  }

  /** Every name and literal in the tree can be written. */
  predicate Writable(e: Tree) {
    match e
    case Int(_) => true
    case Float(text) => Renderable(Number(text, true))
    case Str(text) => Renderable(Lexeme.Str(text))
    case Id(name) => Plain(name)
    case Self => true
    case Binary(_, l, r) => Writable(l) && Writable(r)
    case Range(l, r) => Writable(l) && Writable(r)
    case Ternary(c, t, f) => Writable(c) && Writable(t) && Writable(f)
    case AssignTo(t, _, v) => Writable(t) && Writable(v)
    case Prefix(_, e1) => Writable(e1)
    case Postfix(_, e1) => Writable(e1)
    case Call(f, args) => Writable(f) && AllWritable(args)
    case Field(e1, _) => Writable(e1)
    case Member(e1, name) => Writable(e1) && Plain(name)
    case Index(e1, i) => Writable(e1) && Writable(i)
    case Tuple(items) => AllWritable(items)
    case Init(items) => AllWritable(items)
    case Array(items) => AllWritable(items)
    case SuperCall(name, args) => Plain(name) && AllWritable(args)
    case New(name, args) => Plain(name) && AllWritable(args)
    case Sizeof(name) => Plain(name)
  }

  predicate AllWritable(es: seq<Tree>) {
    forall i :: 0 <= i < |es| ==> Writable(es[i])
  }

  lemma SpelledCat(a: Tokens, b: Tokens)
    requires AllSpelled(a) && AllSpelled(b)
    ensures AllSpelled(a + b)
  {
  }

  lemma SpelledSym(s: Sym)
    ensures AllSpelled([TSym(s)])
  {
  }

  /** Two printed parts around a symbol. */
  lemma Around(a: Tokens, s: Sym, b: Tokens)
    requires AllSpelled(a) && AllSpelled(b)
    ensures AllSpelled(a + [TSym(s)] + b) && AllSpelled(a + [TSym(s)])
  {
    hide Spelled;
    SpelledSym(s);
    SpelledCat(a, [TSym(s)]);
    SpelledCat(a + [TSym(s)], b);
  }

  /** A part between two symbols, after something else. */
  lemma Between(a: Tokens, s: Sym, b: Tokens, s1: Sym)
    requires AllSpelled(a) && AllSpelled(b)
    ensures AllSpelled(a + [TSym(s)] + b + [TSym(s1)])
  {
    hide Spelled;
    Around(a, s, b);
    SpelledSym(s1);
    SpelledCat(a + [TSym(s)] + b, [TSym(s1)]);
  }

  lemma {:induction false} PrintSpelled(e: Tree, k: nat)
    requires Writable(e)
    ensures AllSpelled(Print(e, k)) && AllSpelled(Parens(Bare(e)))
    decreases e, 3
  {
    hide Bare, Plain, Renderable;
    BareSpelled(e);
    SpelledCat([TSym(LParen)], Bare(e));
    SpelledCat([TSym(LParen)] + Bare(e), [TSym(RParen)]);
  }

  lemma {:induction false} BareSpelled(e: Tree)
    requires Writable(e)
    ensures AllSpelled(Bare(e))
    decreases e, 2
  {
    hide Print, Plain, Renderable, List, AllSpelled, Spelled;
    match e
    case Binary(op, l, r) =>
      PrintSpelled(l, UNARY); PrintSpelled(l, Level(e));
      PrintSpelled(r, POWER); PrintSpelled(r, Level(e) + 1);
      if op == StarStar {
        Around(Print(l, UNARY), op, Print(r, POWER));
      } else {
        Around(PrintLeft(l, Level(e), op), op, Print(r, Level(e) + 1));
      }
    case Range(l, r) =>
      PrintSpelled(l, 6); PrintSpelled(r, 6);
      Around(Print(l, 6), DotDot, Print(r, 6));
    case Ternary(c, t, f) =>
      PrintSpelled(c, 2); PrintSpelled(t, 0); PrintSpelled(f, 1);
      Around(Print(c, 2), Question, Print(t, 0));
      Around(Print(c, 2) + [TSym(Question)] + Print(t, 0), Colon, Print(f, 1));
    case AssignTo(t, op, v) =>
      PrintSpelled(t, 1); PrintSpelled(v, 0);
      Around(Print(t, 1), op, Print(v, 0));
    case Prefix(op, e1) =>
      PrintSpelled(e1, UNARY); SpelledSym(op);
      SpelledCat([TSym(op)], Print(e1, UNARY));
    case Postfix(op, e1) =>
      PrintSpelled(e1, POSTFIX); SpelledSym(op);
      SpelledCat(Print(e1, POSTFIX), [TSym(op)]);
    case _ => OtherSpelled(e);
  }

  lemma {:induction false} OtherSpelled(e: Tree)
    requires Writable(e) && Level(e) == POSTFIX && !e.Postfix? && !e.Binary?
    ensures AllSpelled(Bare(e))
    decreases e, 1
  {
    hide Print, Plain, Renderable, List, AllSpelled;
    match e
    case Call(f, args) =>
      PrintSpelled(f, POSTFIX); ListSpelled(args);
      Between(Print(f, POSTFIX), LParen, List(args), RParen);
    case Field(e1, index) =>
      PrintSpelled(e1, POSTFIX);
      TwoSpelled(TSym(Dot), TInt(Digits(index)));
      SpelledCat(Print(e1, POSTFIX), [TSym(Dot), TInt(Digits(index))]);
    case Member(e1, name) =>
      PrintSpelled(e1, POSTFIX);
      TwoSpelled(TSym(Dot), TName(name));
      SpelledCat(Print(e1, POSTFIX), [TSym(Dot), TName(name)]);
    case Index(e1, i) =>
      PrintSpelled(e1, POSTFIX); PrintSpelled(i, 0);
      Between(Print(e1, POSTFIX), LBracket, Print(i, 0), RBracket);
    case Tuple(_) => ListedSpelled(e);
    case Init(_) => ListedSpelled(e);
    case Array(_) => ListedSpelled(e);
    case SuperCall(_, _) => ListedSpelled(e);
    case New(_, _) => ListedSpelled(e);
    case _ => AtomSpelled(e);
  }

  lemma {:induction false} ListedSpelled(e: Tree)
    requires Writable(e) && (e.Tuple? || e.Init? || e.Array? || e.SuperCall? || e.New?)
    ensures AllSpelled(Bare(e))
    decreases e, 0
  {
    hide Print, Plain, Renderable, List, AllSpelled;
    match e
    case Tuple(items) => ListSpelled(items); Between([], LParen, List(items), RParen) by { NoneSpelled(); }
      assert [] + [TSym(LParen)] == [TSym(LParen)];
    case Init(items) => ListSpelled(items); Between([], LBrace, List(items), RBrace) by { NoneSpelled(); }
      assert [] + [TSym(LBrace)] == [TSym(LBrace)];
    case Array(items) => ListSpelled(items); Between([], LBracket, List(items), RBracket) by { NoneSpelled(); }
      assert [] + [TSym(LBracket)] == [TSym(LBracket)];
    case SuperCall(name, args) =>
      ListSpelled(args);
      ThreeSpelled(TSuper, TSym(Dot), TName(name));
      Between([TSuper, TSym(Dot), TName(name)], LParen, List(args), RParen);
      assert [TSuper, TSym(Dot), TName(name)] + [TSym(LParen)] == [TSuper, TSym(Dot), TName(name), TSym(LParen)];
    case New(name, args) =>
      ListSpelled(args);
      TwoSpelled(TNew, TName(name));
      Between([TNew, TName(name)], LParen, List(args), RParen);
      assert [TNew, TName(name)] + [TSym(LParen)] == [TNew, TName(name), TSym(LParen)];
  }

  lemma NoneSpelled()
    ensures AllSpelled([])
  {
  }

  lemma TwoSpelled(t: Token, u: Token)
    requires Spelled(t) && Spelled(u)
    ensures AllSpelled([t, u])
  {
  }

  lemma ThreeSpelled(t: Token, u: Token, v: Token)
    requires Spelled(t) && Spelled(u) && Spelled(v)
    ensures AllSpelled([t, u, v])
  {
  }

  lemma AtomSpelled(e: Tree)
    requires Writable(e) && (e.Int? || e.Float? || e.Str? || e.Id? || e.Self? || e.Sizeof?)
    ensures AllSpelled(Bare(e))
  {
  }

  lemma {:induction false} ListSpelled(es: seq<Tree>)
    requires AllWritable(es)
    ensures AllSpelled(List(es))
    decreases es, 0
  {
    hide Print, Plain, Renderable, Writable;
    if es != [] {
      PrintSpelled(es[0], 0);
      ListSpelled(es[1..]);
    }
  }

  lemma SpelledCut(a: Tokens, b: Tokens)
    requires AllSpelled(a + b)
    ensures AllSpelled(a) && AllSpelled(b)
  {
    forall i | 0 <= i < |a| ensures Spelled(a[i]) { assert (a + b)[i] == a[i]; }
    forall i | 0 <= i < |b| ensures Spelled(b[i]) { assert (a + b)[|a| + i] == b[i]; }
  }

  lemma SpelledAround(a: Tokens, b: Tokens, c: Tokens)
    requires AllSpelled(a + b + c)
    ensures AllSpelled(a) && AllSpelled(b) && AllSpelled(c)
  {
    hide Spelled;
    SpelledCut(a + b, c);
    SpelledCut(a, b);
  }

  lemma SpelledFive(a: Tokens, b: Tokens, c: Tokens, d: Tokens, e: Tokens)
    requires AllSpelled(a + b + c + d + e)
    ensures AllSpelled(a) && AllSpelled(c) && AllSpelled(e)
  {
    hide Spelled;
    SpelledAround(a + b + c, d, e);
    SpelledAround(a, b, c);
  }

  lemma {:induction false} PrintWritable(e: Tree, k: nat)
    requires AllSpelled(Print(e, k)) || AllSpelled(Parens(Bare(e)))
    ensures Writable(e)
    decreases e, 3
  {
    hide Bare, Writable, Spelled, AllSpelled;
    if AllSpelled(Parens(Bare(e))) {
      SpelledAround([TSym(LParen)], Bare(e), [TSym(RParen)]);
    }
    BareWritable(e);
  }

  /** A tree of which every token can be written can be written. */
  lemma {:induction false} BareWritable(e: Tree)
    requires AllSpelled(Bare(e))
    ensures Writable(e)
    decreases e, 2
  {
    hide Print, Plain, Renderable, List, AllSpelled, Spelled;
    match e
    case Binary(op, l, r) =>
      if op == StarStar {
        SpelledAround(Print(l, UNARY), [TSym(op)], Print(r, POWER));
        PrintWritable(l, UNARY); PrintWritable(r, POWER);
      } else {
        SpelledAround(PrintLeft(l, Level(e), op), [TSym(op)], Print(r, Level(e) + 1));
        PrintWritable(l, Level(e)); PrintWritable(r, Level(e) + 1);
      }
    case Range(l, r) =>
      SpelledAround(Print(l, 6), [TSym(DotDot)], Print(r, 6));
      PrintWritable(l, 6); PrintWritable(r, 6);
    case Ternary(c, t, f) =>
      SpelledFive(Print(c, 2), [TSym(Question)], Print(t, 0), [TSym(Colon)], Print(f, 1));
      PrintWritable(c, 2); PrintWritable(t, 0); PrintWritable(f, 1);
    case AssignTo(t, op, v) =>
      SpelledAround(Print(t, 1), [TSym(op)], Print(v, 0));
      PrintWritable(t, 1); PrintWritable(v, 0);
    case Prefix(op, e1) =>
      SpelledCut([TSym(op)], Print(e1, UNARY));
      PrintWritable(e1, UNARY);
    case Postfix(op, e1) =>
      SpelledCut(Print(e1, POSTFIX), [TSym(op)]);
      PrintWritable(e1, POSTFIX);
    case _ => OtherWritable(e);
  }

  lemma {:induction false} OtherWritable(e: Tree)
    requires AllSpelled(Bare(e)) && Level(e) == POSTFIX && !e.Postfix? && !e.Binary?
    ensures Writable(e)
    decreases e, 1
  {
    hide Print, Plain, Renderable, List, AllSpelled;
    match e
    case Call(f, args) =>
      SpelledCut(Print(f, POSTFIX) + [TSym(LParen)] + List(args), [TSym(RParen)]);
      SpelledAround(Print(f, POSTFIX), [TSym(LParen)], List(args));
      PrintWritable(f, POSTFIX); ListWritable(args);
    case Field(e1, index) =>
      SpelledCut(Print(e1, POSTFIX), [TSym(Dot), TInt(Digits(index))]);
      PrintWritable(e1, POSTFIX);
    case Member(e1, name) =>
      SpelledCut(Print(e1, POSTFIX), [TSym(Dot), TName(name)]);
      PrintWritable(e1, POSTFIX);
      SpelledAt([TSym(Dot), TName(name)], 1);
    case Index(e1, i) =>
      SpelledCut(Print(e1, POSTFIX) + [TSym(LBracket)] + Print(i, 0), [TSym(RBracket)]);
      SpelledAround(Print(e1, POSTFIX), [TSym(LBracket)], Print(i, 0));
      PrintWritable(e1, POSTFIX); PrintWritable(i, 0);
    case Tuple(items) => SpelledAround([TSym(LParen)], List(items), [TSym(RParen)]); ListWritable(items);
    case Init(items) => SpelledAround([TSym(LBrace)], List(items), [TSym(RBrace)]); ListWritable(items);
    case Array(items) => SpelledAround([TSym(LBracket)], List(items), [TSym(RBracket)]); ListWritable(items);
    case SuperCall(name, args) =>
      SpelledAround([TSuper, TSym(Dot), TName(name), TSym(LParen)], List(args), [TSym(RParen)]);
      ListWritable(args);
      SpelledAt([TSuper, TSym(Dot), TName(name), TSym(LParen)], 2);
    case New(name, args) =>
      SpelledAround([TNew, TName(name), TSym(LParen)], List(args), [TSym(RParen)]);
      ListWritable(args);
      SpelledAt([TNew, TName(name), TSym(LParen)], 1);
    case _ => AtomWritable(e);
  }

  lemma SpelledAt(ts: Tokens, i: nat)
    requires i < |ts| && AllSpelled(ts)
    ensures Spelled(ts[i])
  {
  }

  lemma AtomWritable(e: Tree)
    requires (e.Int? || e.Float? || e.Str? || e.Id? || e.Self? || e.Sizeof?) && AllSpelled(Bare(e))
    ensures Writable(e)
  {
    hide Renderable, Plain;
    if !e.Int? && !e.Self? { assert Spelled(Bare(e)[if e.Sizeof? then 2 else 0]); }
  }

  lemma {:induction false} ListWritable(es: seq<Tree>)
    requires AllSpelled(List(es))
    ensures AllWritable(es)
    decreases es, 0
  {
    hide Print, Writable, Spelled, AllSpelled;
    if |es| == 1 {
      PrintWritable(es[0], 0);
    } else if es != [] {
      SpelledAround(Print(es[0], 0), [TSym(Comma)], List(es[1..]));
      PrintWritable(es[0], 0);
      ListWritable(es[1..]);
      assert forall i :: 0 < i < |es| ==> es[i] == es[1..][i - 1];
    }
  }

  /** A tree can be written if and only if each of its printed tokens can. */
  lemma WritableIff(e: Tree)
    ensures Writable(e) <==> AllSpelled(Print(e, 0))
  {
    if Writable(e) { PrintSpelled(e, 0); }
    if AllSpelled(Print(e, 0)) { PrintWritable(e, 0); }
    hide Writable, AllSpelled, Print;
  }

  lemma {:induction false} NoNul(ts: seq<Lexeme>)
    requires forall i :: 0 <= i < |ts| ==> Renderable(ts[i])
    ensures '\0' !in RenderAll(ts)
    decreases |ts|
  {
    hide Renderable, Render;
    if ts != [] {
      RenderNoNul(ts[0]);
      NoNul(ts[1..]);
    }
  }

  lemma {:induction false} EscapeNoNul(s: string)
    requires '\0' !in s
    ensures '\0' !in Escape(s)
    decreases |s|
  {
    if s != "" {
      EscapeNoNul(s[1..]);
    }
  }

  lemma RenderNoNul(t: Lexeme)
    requires Renderable(t)
    ensures '\0' !in Render(t)
  {
    hide Escape, OpLength;
    match t
    case Str(s) => EscapeNoNul(s);
    case FStr(s) => EscapeNoNul(s);
    case Number(text, true) => FloatNoNul(text);
    case Op(text) => OpNoNul(text);
    case _ =>
  }

  lemma FloatNoNul(text: string)
    requires Renderable(Number(text, true))
    ensures '\0' !in text
  {
    var k :| 0 < k < |text| && text[k] == '.' && AllDigits(text[..k]) && AllDigits(text[k + 1..]);
    forall i | 0 <= i < |text| ensures text[i] != '\0' {
      if i < k { assert text[i] == text[..k][i]; }
      if i > k { assert text[i] == text[k + 1..][i - k - 1]; }
    }
  }

  lemma OpNoNul(text: string)
    requires Renderable(Op(text))
    ensures '\0' !in text
  {
    assert text[0] != '\0';
    if |text| == 2 {
      assert text[1] != '\0';
    }
  }

  /** The text of an expression. */
  function Write(e: Tree): string { RenderAll(SpellAll(Print(e, 0))) }

  /** Lexing and parsing the text of a tree gives back the tree. */
  lemma TextRoundTrip(e: Tree)
    requires Proper(e) && Writable(e)
    ensures '\0' !in Write(e)
    ensures var ts := Lex(Write(e), 0);
      ts.Some? && Parser.Parse(ASSIGNMENT, TokensOf(ts.value)) == Parser.Ok(e, [])
  {
    hide Print, Lex, Parser.Parse, Renderable, Writable, Proper, TokensOf, SpellAll, RenderAll;
    var tokens := Print(e, 0);
    PrintSpelled(e, 0);
    TokensSpelled(tokens);
    NoNul(SpellAll(tokens));
    assert Write(e)[0..] == RenderAll(SpellAll(tokens));
    LexRender(Write(e), 0, SpellAll(tokens));
    RoundTrip.ParsePrint(e, []);
    assert tokens + [] == tokens;
  }

  /** So no two trees are written alike. */
  lemma WriteInjective(e: Tree, e1: Tree)
    requires Proper(e) && Writable(e) && Proper(e1) && Writable(e1) && Write(e) == Write(e1)
    ensures e == e1
  {
    hide Write, Lex, Parser.Parse, Writable, Proper, TokensOf;
    TextRoundTrip(e);
    TextRoundTrip(e1);
  }
}
