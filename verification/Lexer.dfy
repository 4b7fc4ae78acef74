/** The lexer as it is: a position with its line and column, one current token and a buffer
    for one more (src/frontend/lexer.c). */

module Lexer {
  import opened Options
  import opened Decimal
  import opened Lexing
  import opened Positions
  import SourceText

  datatype Token = Token(t: Lexeme, line: nat, col: nat)

  /** Operators are located where they end, everything else where it begins. */
  function Located(src: Source, r: Lexed): Option<Token>
    requires r.Lexed? ==> r.start <= |src| && r.end <= |src|
  {
    match r
    case Error => None
    case Lexed(t, start, end) =>
      var p := if t.Op? then end else start;
      Some(Token(t, LineOf(src, p), ColOf(src, p)))
  }

  function Prepend(all: string, r: Option<(string, nat)>): Option<(string, nat)> {
    match r
    case None => None
    case Some((text, end)) => Some((all + text, end))
  }

  lemma PrependNothing(r: Option<(string, nat)>)
    ensures Prepend("", r) == r
  {
    if r.Some? { assert "" + r.value.0 == r.value.0; }
  }

  lemma PrependMore(all: string, c: char, r: Option<(string, nat)>)
    ensures Prepend(all, Prepend([c], r)) == Prepend(all + [c], r)
  {
    if r.Some? { assert all + ([c] + r.value.0) == all + [c] + r.value.0; }
  }

  /** The caret under a message about a token stands where the token begins, except for
      operators, where it stands behind them. */
  lemma CaretIff(src: Source, p: nat)
    requires p <= |src| && Next(src, p).Lexed? && !Next(src, p).t.Eof?
    ensures var r, t := Next(src, p), Located(src, Next(src, p)).value;
      (forall q: nat :: q <= |src| && LineOf(src, q) == t.line && ColOf(src, q) == t.col ==> q == r.start) <==> !t.t.Op?
  {
    hide Next;
    var r, t := Next(src, p), Located(src, Next(src, p)).value;
    if t.t.Op? { OpTakesSpace(src, p); }
    var here := if t.t.Op? then r.end else r.start;
    forall q: nat | q <= |src| && LineOf(src, q) == t.line && ColOf(src, q) == t.col ensures q == here {
      SameSpot(src, q, here);
    }
  }

  lemma OpTakesSpace(src: Source, p: nat)
    requires p <= |src| && Next(src, p).Lexed? && Next(src, p).t.Op?
    ensures Next(src, p).start < Next(src, p).end
  {
  }

  /** What a copy of the C structure holds; line and column follow from the position. */
  datatype State = State(pos: nat, current: Token, peeked: Option<Token>)

  /** `lexer_advance`, `lexer_peek` and `lexer_match`; none if reading a token fails. */
  function AdvanceOf(src: Source, s: State): Option<State>
    requires s.pos <= |src|
  {
    if s.peeked.Some? then Some(State(s.pos, s.peeked.value, None))
    else if Next(src, s.pos).Error? then None
    else Some(State(Next(src, s.pos).end, Located(src, Next(src, s.pos)).value, None))
  }

  function PeekOf(src: Source, s: State): Option<State>
    requires s.pos <= |src|
  {
    if s.peeked.Some? then Some(s)
    else if Next(src, s.pos).Error? then None
    else Some(State(Next(src, s.pos).end, s.current, Some(Located(src, Next(src, s.pos)).value)))
  }

  /** The kind of a token: keywords and symbols by their text, the rest without it. */
  function Kind(t: Lexeme): Lexeme {
    match t
    case Word(w) => if SourceText.Plain(w) then Word("") else t
    case Number(_, f) => Number("", f)
    case Str(_) => Str("")
    case FStr(_) => FStr("")
    case _ => t
  }

  /** Two tokens are of one kind if and only if they are both names, both integers, both floats, both
      strings, both f-strings, or the same keyword or symbol. */
  lemma KindIff(t: Lexeme, u: Lexeme)
    requires t != Word("") && u != Word("")
    ensures Kind(t) == Kind(u) <==>
      || t == u
      || (t.Word? && u.Word? && SourceText.Plain(t.text) && SourceText.Plain(u.text))
      || (t.Number? && u.Number? && t.isFloat == u.isFloat)
      || (t.Str? && u.Str?) || (t.FStr? && u.FStr?)
  {
    hide SourceText.Plain;
  }

  /** What the parser does with the lexer: `*P` is copied out to try something and back if it
      did not work. */
  datatype Request = Advance | Peek | Match(kind: Lexeme) | Save | Restore

  datatype Seen = Shown(t: Token) | Matched(b: bool) | Nothing

  /** A run of requests on the buffered lexer: what is seen, until an error ends it. */
  function Run(src: Source, s: State, saved: State, rs: seq<Request>): seq<Seen>
    requires s.pos <= |src| && saved.pos <= |src|
    decreases |rs|
  {
    if rs == [] then []
    else
      match rs[0]
      case Advance =>
        (match AdvanceOf(src, s)
         case None => []
         case Some(s1) => [Shown(s1.current)] + Run(src, s1, saved, rs[1..]))
      case Peek =>
        (match PeekOf(src, s)
         case None => []
         case Some(s1) => [Shown(s1.peeked.value)] + Run(src, s1, saved, rs[1..]))
      case Match(kind) =>
        if Kind(s.current.t) != kind then [Matched(false)] + Run(src, s, saved, rs[1..])
        else
          (match AdvanceOf(src, s)
           case None => []
           case Some(s1) => [Matched(true)] + Run(src, s1, saved, rs[1..]))
      case Save => [Nothing] + Run(src, s, s, rs[1..])
      case Restore => [Nothing] + Run(src, saved, saved, rs[1..])
  }

  /** The same on the tokens of the text themselves: `at` is where the current token is read
      from, and nothing is buffered. */
  function Ideal(src: Source, at: nat, saved: nat, rs: seq<Request>): seq<Seen>
    requires at <= |src| && Next(src, at).Lexed? && saved <= |src| && Next(src, saved).Lexed?
    decreases |rs|
  {
    if rs == [] then []
    else
      var after := Next(src, at).end;
      match rs[0]
      case Advance =>
        if Next(src, after).Error? then []
        else [Shown(Located(src, Next(src, after)).value)] + Ideal(src, after, saved, rs[1..])
      case Peek =>
        if Next(src, after).Error? then []
        else [Shown(Located(src, Next(src, after)).value)] + Ideal(src, at, saved, rs[1..])
      case Match(kind) =>
        if Kind(Next(src, at).t) != kind then [Matched(false)] + Ideal(src, at, saved, rs[1..])
        else if Next(src, after).Error? then []
        else [Matched(true)] + Ideal(src, after, saved, rs[1..])
      case Save => [Nothing] + Ideal(src, at, at, rs[1..])
      case Restore => [Nothing] + Ideal(src, saved, saved, rs[1..])
  }

  /** The buffered lexer stands at the token read from `at`. */
  predicate Stands(src: Source, s: State, at: nat) {
    && s.pos <= |src| && at <= |src| && Next(src, at).Lexed? && Located(src, Next(src, at)) == Some(s.current)
    && var after := Next(src, at).end;
       if s.peeked.None? then s.pos == after
       else Next(src, after).Lexed? && Located(src, Next(src, after)) == s.peeked && s.pos == Next(src, after).end
  }

  /** Under any requests, in any order, the buffered lexer shows the tokens of the text: what is
      read again after going back is the same. */
  lemma {:induction false} BufferRefines(src: Source, s: State, at: nat, saved: State, savedAt: nat, rs: seq<Request>)
    requires Stands(src, s, at) && Stands(src, saved, savedAt)
    ensures Run(src, s, saved, rs) == Ideal(src, at, savedAt, rs)
    decreases |rs|
  {
    hide Next, LineOf, ColOf, Kind;
    if rs != [] {
      var after := Next(src, at).end;
      match rs[0]
      case Advance =>
        if AdvanceOf(src, s).Some? { BufferRefines(src, AdvanceOf(src, s).value, after, saved, savedAt, rs[1..]); }
      case Peek =>
        if PeekOf(src, s).Some? { BufferRefines(src, PeekOf(src, s).value, at, saved, savedAt, rs[1..]); }
      case Match(kind) =>
        if Kind(s.current.t) != kind {
          BufferRefines(src, s, at, saved, savedAt, rs[1..]);
        } else if AdvanceOf(src, s).Some? {
          BufferRefines(src, AdvanceOf(src, s).value, after, saved, savedAt, rs[1..]);
        }
      case Save => BufferRefines(src, s, at, s, at, rs[1..]);
      case Restore => BufferRefines(src, saved, savedAt, saved, savedAt, rs[1..]);
    }
  }

  class Lexer {
    const src: Source
    var pos: nat
    var line: nat
    var col: nat
    var current: Token
    var peek: Token
    var hasPeek: bool

    predicate Valid()
      reads this
    {
      pos <= |src| && line == LineOf(src, pos) && col == ColOf(src, pos)
    }

    constructor (text: Source)
      ensures Valid() && src == text && pos == 0
    {
      src, pos, line, col := text, 0, 1, 1;
      current, peek, hasPeek := Token(Eof, 1, 1), Token(Eof, 1, 1), false;
    }

    method Advance()
      requires Valid() && pos < |src|
      modifies this`pos, this`line, this`col
      ensures Valid() && pos == old(pos) + 1
    {
      if src[pos] == '\n' {
        line := line + 1;
        col := 1;
      } else {
        col := col + 1;
      }
      pos := pos + 1;
    }

    method SkipWhitespaceAndComments()
      requires Valid()
      modifies this`pos, this`line, this`col
      ensures Valid() && pos == SkipBlank(src, old(pos))
    {
      while true
        invariant Valid() && SkipBlank(src, old(pos)) == SkipBlank(src, pos)
        decreases |src| - pos
      {
        var c := CharAt(src, pos);
        if IsBlank(c) {
          Advance();
        } else if c == '/' && CharAt(src, pos + 1) == '/' {
          ghost var start := pos;
          while pos < |src| && src[pos] != '\n'
            invariant Valid() && start <= pos && LineEnd(src, start) == LineEnd(src, pos)
            invariant SkipBlank(src, old(pos)) == SkipBlank(src, start)
            decreases |src| - pos
          {
            Advance();
          }
          assert SkipBlank(src, start) == SkipBlank(src, LineEnd(src, start));
        } else {
          return;
        }
      }
    }

    method ScanWord()
      requires Valid()
      modifies this`pos, this`line, this`col
      ensures Valid() && pos == WordEnd(src, old(pos))
    {
      while pos < |src| && IsWord(src[pos])
        invariant Valid() && WordEnd(src, old(pos)) == WordEnd(src, pos)
        decreases |src| - pos
      {
        Advance();
      }
    }

    method ScanDigits()
      requires Valid()
      modifies this`pos, this`line, this`col
      ensures Valid() && pos == DigitsEnd(src, old(pos))
    {
      while pos < |src| && IsDigit(src[pos])
        invariant Valid() && DigitsEnd(src, old(pos)) == DigitsEnd(src, pos)
        decreases |src| - pos
      {
        Advance();
      }
    }

    /** The inside of a literal, cut to the buffer, and past its closing quote; none if the
        quote is missing. */
    method ScanLiteral(quote: char) returns (text: Option<string>)
      requires Valid() && quote != '\0'
      modifies this`pos, this`line, this`col
      ensures Valid()
      ensures match Body(src, old(pos), quote)
        case None => text.None?
        case Some((all, end)) => text == Some(Cut(all)) && pos == end + 1
    {
      hide LineOf, LineStart, ColOf, Unescape;
      var buf := "";
      ghost var all := "";
      PrependNothing(Body(src, pos, quote));
      while pos < |src| && src[pos] != quote
        invariant Valid() && buf == Cut(all)
        invariant Body(src, old(pos), quote) == Prepend(all, Body(src, pos, quote))
        decreases |src| - pos
      {
        var c := src[pos];
        if c == '\\' {
          Advance();
          if pos == |src| {
            text := None;
            return;
          }
          c := Unescape(src[pos]);
        }
        PrependMore(all, c, Body(src, pos + 1, quote));
        all := all + [c];
        if |buf| < BUFFER {
          buf := buf + [c];
        }
        Advance();
      }
      if pos == |src| {
        text := None;
        return;
      }
      assert all + "" == all;
      Advance();
      text := Some(buf);
    }

    /** The next token; none on an error, which stops the compiler. */
    method NextToken() returns (t: Option<Token>)
      requires Valid()
      modifies this`pos, this`line, this`col
      ensures Valid() && t == Located(src, Next(src, old(pos)))
      ensures t.Some? ==> pos == Next(src, old(pos)).end
    {
      hide SkipBlank, WordEnd, DigitsEnd, Body, OpLength, LineOf, ColOf, Cut;
      SkipWhitespaceAndComments();
      if pos == |src| {
        return Some(Token(Eof, line, col));
      }
      t := TokenHere();
    }

    method TokenHere() returns (t: Option<Token>)
      requires Valid() && pos < |src|
      modifies this`pos, this`line, this`col
      ensures Valid() && t == Located(src, NextFrom(src, old(pos)))
      ensures t.Some? ==> pos == NextFrom(src, old(pos)).end
    {
      hide SkipBlank, WordEnd, DigitsEnd, Body, OpLength, LineOf, LineStart, Cut;
      var start, startLine, startCol := pos, line, col;
      var c, d := src[pos], CharAt(src, pos + 1);
      if c == 'f' && IsQuote(d) {
        Advance();
        Advance();
        var text := ScanLiteral(d);
        t := if text.None? then None else Some(Token(FStr(text.value), startLine, startCol));
      } else if IsAlpha(c) || c == '_' {
        ScanWord();
        t := Some(Token(Word(src[start..pos]), startLine, startCol));
      } else if IsDigit(c) {
        ScanDigits();
        var isFloat := HasFraction(src, pos);
        if isFloat {
          Advance();
          ScanDigits();
        }
        t := Some(Token(Number(src[start..pos], isFloat), startLine, startCol));
      } else if IsQuote(c) {
        Advance();
        var text := ScanLiteral(c);
        t := if text.None? then None else Some(Token(Str(text.value), startLine, startCol));
      } else {
        var n := OpLength(c, d);
        if n == 0 || pos + n > |src| {
          return None;
        }
        Advance();
        if n == 2 {
          Advance();
        }
        t := Some(Token(Op(src[start..pos]), line, col));
      }
    }

    function Model(): State
      reads this
    {
      State(pos, current, if hasPeek then Some(peek) else None)
    }

    /** `lexer_init` after the fields are set: the first token becomes current. */
    method Start() returns (ok: bool)
      requires Valid() && pos == 0 && !hasPeek
      modifies this
      ensures Valid() && (ok <==> Next(src, 0).Lexed?) && (ok ==> Stands(src, Model(), 0))
    {
      hide Next, LineOf, ColOf;
      var t := NextToken();
      ok := t.Some?;
      if ok {
        current := t.value;
      }
    }

    method LexerAdvance() returns (ok: bool)
      requires Valid()
      modifies this
      ensures Valid() && (if ok then AdvanceOf(src, old(Model())) == Some(Model()) else AdvanceOf(src, old(Model())).None?)
    {
      hide Next, LineOf, ColOf;
      ok := true;
      if hasPeek {
        current := peek;
        hasPeek := false;
      } else {
        var t := NextToken();
        ok := t.Some?;
        if ok {
          current := t.value;
        }
      }
    }

    method LexerPeek() returns (ok: bool)
      requires Valid()
      modifies this
      ensures Valid() && (if ok then PeekOf(src, old(Model())) == Some(Model()) else PeekOf(src, old(Model())).None?)
    {
      hide Next, LineOf, ColOf;
      ok := true;
      if !hasPeek {
        var t := NextToken();
        ok := t.Some?;
        if ok {
          peek := t.value;
          hasPeek := true;
        }
      }
    }

    /** `matched` says whether the token was consumed; `ok` is false if reading the next one
        failed. */
    method LexerMatch(kind: Lexeme) returns (matched: bool, ok: bool)
      requires Valid()
      modifies this
      ensures Valid() && matched == (Kind(old(current.t)) == kind)
      ensures !matched ==> ok && Model() == old(Model())
      ensures matched ==> (if ok then AdvanceOf(src, old(Model())) == Some(Model()) else AdvanceOf(src, old(Model())).None?)
    {
      matched, ok := Kind(current.t) == kind, true;
      if matched {
        ok := LexerAdvance();
      }
    }

    /** `*P = saved_lex;` */
    method Restore(saved: State)
      requires saved.pos <= |src|
      modifies this
      ensures Valid() && Model() == saved
    {
      pos, line, col := saved.pos, LineOf(src, saved.pos), ColOf(src, saved.pos);
      current, hasPeek := saved.current, saved.peeked.Some?;
      if hasPeek {
        peek := saved.peeked.value;
      }
    }
  }
}
