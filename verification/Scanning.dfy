/** Which characters make one token: the longest run of them, written out character by character. */

module Scanning {
  import opened Options
  import opened Decimal
  import opened Lexing
  import opened Rendering

  predicate Letter(c: char) { 'a' <= c <= 'z' || 'A' <= c <= 'Z' || c == '_' }

  predicate Numeral(c: char) { '0' <= c <= '9' }

  predicate Quote(c: char) { c == '"' || c == '\'' }

  /** From `p` to `end` and no further. */
  predicate WholeWord(src: Source, p: nat, end: nat) {
    && p <= end <= |src| && (forall i :: p <= i < end ==> Letter(src[i]) || Numeral(src[i]))
    && (end < |src| ==> !Letter(src[end]) && !Numeral(src[end]))
  }

  predicate WholeNumeral(src: Source, p: nat, end: nat) {
    p <= end <= |src| && (forall i :: p <= i < end ==> Numeral(src[i])) && (end < |src| ==> !Numeral(src[end]))
  }

  /** What stands in a literal for `text`. */
  predicate Decodes(raw: string, quote: char, text: string) {
    if raw == "" then text == ""
    else if raw[0] == '\\' then
      && |raw| >= 2 && text != ""
      && text[0] as int == (match raw[1] case 'n' => 10 case 't' => 9 case 'r' => 13 case '0' => 0 case c => c as int)
      && Decodes(raw[2..], quote, text[1..])
    else raw[0] != quote && text != "" && text[0] == raw[0] && Decodes(raw[1..], quote, text[1..])
  }

  const PAIRS: set<string> := {"+=", "++", "-=", "->", "--", "**", "*=", "/=", "==", "=>", "!=", "<=", ">=", "&&", "||", ".."}
  const SINGLES: string := "+-*/=<>.(){}[]%;:,#~?@"

  lemma {:induction false} WordEndWhole(src: Source, p: nat)
    requires p <= |src|
    ensures WholeWord(src, p, WordEnd(src, p))
    decreases |src| - p
  {
    if p < |src| && IsWord(src[p]) {
      WordEndWhole(src, p + 1);
    }
  }

  lemma {:induction false} DigitsEndWhole(src: Source, p: nat)
    requires p <= |src|
    ensures WholeNumeral(src, p, DigitsEnd(src, p))
    decreases |src| - p
  {
    if p < |src| && IsDigit(src[p]) {
      DigitsEndWhole(src, p + 1);
    }
  }

  /** A word is taken whole; an `f` in front of a quote begins no word. */
  lemma WordTaken(src: Source, p: nat)
    requires p < |src| && Letter(src[p]) && !(src[p] == 'f' && p + 1 < |src| && Quote(src[p + 1]))
    ensures var r := NextFrom(src, p);
      r.Lexed? && r.start == p < r.end && r.t == Word(src[p..r.end]) && WholeWord(src, p, r.end)
  {
    WordEndWhole(src, p);
  }

  /** A point with a digit behind it. */
  predicate Fraction(src: Source, d: nat) { d + 1 < |src| && src[d] == '.' && Numeral(src[d + 1]) }

  /** `r` is the number whose digits in front of the point end at `d`. */
  predicate WholeNumber(src: Source, p: nat, d: nat, r: Lexed) {
    && r.Lexed? && r.start == p < d && WholeNumeral(src, p, d) && d <= r.end <= |src|
    && r.t == Number(src[p..r.end], Fraction(src, d))
    && (if Fraction(src, d) then r.end > d + 1 && WholeNumeral(src, d + 1, r.end) else r.end == d)
  }

  /** A number is taken whole, with a fraction only if a digit follows the point. */
  lemma NumberTaken(src: Source, p: nat)
    requires p < |src| && Numeral(src[p])
    ensures exists d: nat :: WholeNumber(src, p, d, NextFrom(src, p))
  {
    var d := DigitsEnd(src, p);
    DigitsEndWhole(src, p);
    if HasFraction(src, d) {
      DigitsEndWhole(src, d + 1);
    }
    assert WholeNumber(src, p, d, NextFrom(src, p));
  }

  lemma {:induction false} BodyDecodes(src: Source, p: nat, quote: char)
    requires p <= |src| && Quote(quote) && Body(src, p, quote).Some?
    ensures var (text, end) := Body(src, p, quote).value;
      p <= end < |src| && src[end] == quote && Decodes(src[p..end], quote, text)
    decreases |src| - p
  {
    var (text, end) := Body(src, p, quote).value;
    var raw := src[p..end];
    if src[p] != quote {
      var n := if src[p] == '\\' then 2 else 1;
      BodyDecodes(src, p + n, quote);
      var rest := Body(src, p + n, quote).value.0;
      assert text == [if n == 2 then Unescape(src[p + 1]) else src[p]] + rest;
      assert text[1..] == rest && raw[n..] == src[p + n..end];
    }
  }

  lemma {:induction false} DecodesBody(src: Source, p: nat, quote: char, text: string, end: nat)
    requires p <= end < |src| && Quote(quote) && src[end] == quote && Decodes(src[p..end], quote, text)
    ensures Body(src, p, quote) == Some((text, end))
    decreases end - p
  {
    var raw := src[p..end];
    if raw != "" {
      var n := if src[p] == '\\' then 2 else 1;
      assert raw[n..] == src[p + n..end];
      DecodesBody(src, p + n, quote, text[1..], end);
      assert text == [text[0]] + text[1..];
    }
  }

  /** A literal's text and the place of its closing quote: the first one that is not escaped. */
  lemma BodyIff(src: Source, p: nat, quote: char, text: string, end: nat)
    requires p <= |src| && Quote(quote)
    ensures Body(src, p, quote) == Some((text, end)) <==>
      p <= end < |src| && src[end] == quote && Decodes(src[p..end], quote, text)
  {
    hide Body, Decodes;
    if Body(src, p, quote).Some? { BodyDecodes(src, p, quote); }
    if p <= end < |src| && src[end] == quote && Decodes(src[p..end], quote, text) { DecodesBody(src, p, quote, text, end); }
  }

  /** What a literal is worth: at most 4095 characters of it. */
  function Kept(text: string): string { if |text| <= 4095 then text else text[..4095] }

  /** From the quote at `q` to its partner at `end` stands a literal with this text. */
  predicate Encloses(src: Source, q: nat, end: nat, text: string) {
    q < end < |src| && src[end] == src[q] && Decodes(src[q + 1..end], src[q], text)
  }

  /** A literal is a quote, what stands for its text, and the same quote; without the latter it is an
      error.  An `f` in front makes it an f-string. */
  lemma LiteralTaken(src: Source, p: nat, f: bool)
    requires var q := if f then p + 1 else p; q < |src| && Quote(src[q]) && (f ==> src[p] == 'f')
    ensures var q := if f then p + 1 else p;
      && (forall text, end: nat :: Encloses(src, q, end, text) ==>
            NextFrom(src, p) == Lexed(if f then FStr(Kept(text)) else Str(Kept(text)), p, end + 1))
      && ((forall text, end: nat :: !Encloses(src, q, end, text)) ==> NextFrom(src, p) == Error)
  {
    var q := if f then p + 1 else p;
    LiteralAt(src, p, f);
    hide Decodes, Body, NextFrom, Literal;
    forall text, end: nat ensures Body(src, q + 1, src[q]) == Some((text, end)) <==> Encloses(src, q, end, text) {
      BodyIff(src, q + 1, src[q], text, end);
    }
    var body := Body(src, q + 1, src[q]);
    if body.Some? {
      assert Encloses(src, q, body.value.1, body.value.0);
    }
  }

  function Closed(start: nat, body: Option<(string, nat)>, f: bool): Lexed {
    match body
    case None => Error
    case Some((text, end)) => Lexed(if f then FStr(Kept(text)) else Str(Kept(text)), start, end + 1)
  }

  lemma PlainAt(src: Source, p: nat)
    requires p < |src| && Quote(src[p])
    ensures NextFrom(src, p) == Closed(p, Body(src, p + 1, src[p]), false)
  {
    hide Body, OpLength, WordEnd, DigitsEnd;
  }

  lemma FStringAt(src: Source, p: nat)
    requires p + 1 < |src| && src[p] == 'f' && Quote(src[p + 1])
    ensures NextFrom(src, p) == Closed(p, Body(src, p + 2, src[p + 1]), true)
  {
    hide Body, OpLength, WordEnd, DigitsEnd;
  }

  lemma LiteralAt(src: Source, p: nat, f: bool)
    requires var q := if f then p + 1 else p; q < |src| && Quote(src[q]) && (f ==> src[p] == 'f')
    ensures var q := if f then p + 1 else p; NextFrom(src, p) == Closed(p, Body(src, q + 1, src[q]), f)
  {
    hide NextFrom, Body;
    if f { FStringAt(src, p); } else { PlainAt(src, p); }
  }

  /** An operator of two characters is taken whole if there is one, else one of one character; any other
      character is an error. */
  lemma OperatorTaken(src: Source, p: nat)
    requires p < |src| && !Letter(src[p]) && !Numeral(src[p]) && !Quote(src[p])
    ensures NextFrom(src, p) ==
      if p + 1 < |src| && [src[p], src[p + 1]] in PAIRS then Lexed(Op([src[p], src[p + 1]]), p, p + 2)
      else if src[p] in SINGLES then Lexed(Op([src[p]]), p, p + 1)
      else Error
  {
    OpTable(src[p], CharAt(src, p + 1));
    assert src[p..p + 1] == [src[p]];
    if p + 1 < |src| { assert src[p..p + 2] == [src[p], src[p + 1]]; }
    hide OpLength;
  }

  lemma OpTable(c: char, d: char)
    ensures OpLength(c, d) == if [c, d] in PAIRS then 2 else if c in SINGLES then 1 else 0
  {
  }

  lemma PassedSkips(src: Source, p: nat, q: nat)
    requires p <= q <= |src| && Passed(src, p, q)
    ensures SkipBlank(src, p) == SkipBlank(src, q)
  {
    hide Gap, SkipBlank;
    if Gap(src[p..q]) {
      SkipGap(src, p, src[p..q]);
    } else {
      var r :| p <= r <= q && Gap(src[p..r]) && LastComment(src[r..]);
      SkipGap(src, p, src[p..r]);
      LastSkipped(src, r);
    }
  }

  lemma LastSkipped(src: Source, r: nat)
    requires r <= |src| && LastComment(src[r..])
    ensures SkipBlank(src, r) == SkipBlank(src, |src|)
  {
    hide SkipBlank;
    assert src[r..][..2] == src[r..r + 2] && src[r..][2..] == src[r + 2..|src|];
    SkipComment(src, r, |src|);
  }

  /** The next token is the one behind the white space and comments, or the end. */
  lemma NextAfter(src: Source, p: nat, q: nat)
    requires p <= q <= |src| && Passed(src, p, q)
    requires q < |src| ==> src[q] !in {' ', '\t', '\r', '\n'} && !Rendering.Stands(src, q, "//")
    ensures Next(src, p) == if q == |src| then Lexed(Eof, q, q) else NextFrom(src, q)
  {
    PassedSkips(src, p, q);
    StaysAt(src, q);
    hide Passed, Next, SkipBlank;
  }

  lemma StaysAt(src: Source, q: nat)
    requires q <= |src|
    requires q < |src| ==> src[q] !in {' ', '\t', '\r', '\n'} && !Rendering.Stands(src, q, "//")
    ensures SkipBlank(src, q) == q && forall p: nat :: p <= |src| && SkipBlank(src, p) == q ==>
      Next(src, p) == if q == |src| then Lexed(Eof, q, q) else NextFrom(src, q)
  {
  }

  /** A comment counts for nothing, whatever is in it, */
  lemma CommentSkipped(src: Source, p: nat, c: string, rest: string)
    requires p <= |src| && '\n' !in c && src[p..] == "//" + c + "\n" + rest
    ensures p + |c| + 3 <= |src| && Lex(src, p) == Lex(src, p + |c| + 3)
  {
    hide Lex;
    var g := "//" + c + "\n";
    assert src[p..] == g + rest;
    assert Rendering.Stands(src, p, g);
    assert Gap(g) by {
      assert g[2..|c| + 2] == c && g[..2] == "//" && g[|c| + 3..] == "";
      assert Comment(g, |c| + 2) && Gap(g[|c| + 2 + 1..]);
    }
    hide Gap;
    LexGap(src, p, g);
  }

  /** also where the text ends in it. */
  lemma LastCommentSkipped(src: Source, p: nat, c: string)
    requires p <= |src| && '\n' !in c && src[p..] == "//" + c
    ensures Lex(src, p) == Some([])
  {
    hide SkipBlank, Next;
    assert src[p..][2..] == c && src[p..][..2] == "//" && src[p..p] == "";
    assert LastComment(src[p..]) && Gap(src[p..p]);
    assert Passed(src, p, |src|) by { hide Gap; }
    NextAfter(src, p, |src|);
  }

  /** Nor does a blank. */
  lemma BlankSkipped(src: Source, p: nat)
    requires p < |src| && src[p] in {' ', '\t', '\r', '\n'}
    ensures Lex(src, p) == Lex(src, p + 1)
  {
    assert Gap([src[p]]) by { assert [src[p]][1..] == ""; }
    LexGap(src, p, [src[p]]);
  }

  // ---- Which tokens a text stands for.

  lemma {:induction false} NoNulIn(s: string)
    requires '\0' !in Escape(s)
    ensures '\0' !in s
    decreases |s|
  {
    if s != "" {
      NoNulIn(s[1..]);
      assert EscapeChar(s[0])[0] in Escape(s);
    }
  }

  /** A token can be rendered if and only if its rendering, alone, is read back as it. */
  lemma RenderableIff(t: Lexeme)
    requires !t.Eof? && '\0' !in Render(t)
    ensures Renderable(t) <==> Render(t) != "" && Next(Render(t), 0) == Lexed(t, 0, |Render(t)|)
  {
    var src: Source := Render(t);
    if Renderable(t) {
      assert src[0..0 + |src|] == src;
      NextIs(src, 0, t);
    }
    if src != "" && Next(src, 0) == Lexed(t, 0, |src|) {
      ReadRenderable(t, src);
    }
  }

  lemma ReadRenderable(t: Lexeme, src: Source)
    requires src == Render(t) && src != "" && Next(src, 0) == Lexed(t, 0, |src|) && !t.Eof?
    ensures Renderable(t)
  {
    hide SkipBlank, OpLength, Escape, Body;
    assert NextFrom(src, 0) == Lexed(t, 0, |src|);
    match t
    case Word(w) => WordRead(src, w);
    case Number(text, f) => NumberRead(src, text, f);
    case Str(s) => LiteralRead(src, s, false);
    case FStr(s) => LiteralRead(src, s, true);
    case Op(text) => OpRead(src, text);
  }

  lemma WordRead(src: Source, w: string)
    requires src == w && w != "" && NextFrom(src, 0) == Lexed(Word(w), 0, |src|)
    ensures Renderable(Word(w))
  {
    hide OpLength, Body;
    WordTaken(src, 0);
  }

  lemma NumberRead(src: Source, text: string, f: bool)
    requires src == text && text != "" && NextFrom(src, 0) == Lexed(Number(text, f), 0, |src|)
    ensures Renderable(Number(text, f))
  {
    hide OpLength, Body;
    assert Numeral(src[0]);
    NumberTaken(src, 0);
    var d: nat :| WholeNumber(src, 0, d, NextFrom(src, 0));
    hide NextFrom;
    assert src[0..|src|] == src;
    if f {
      var a, b := text[..d], text[d + 1..];
      assert forall i :: 0 <= i < d ==> a[i] == src[i];
      assert forall i :: 0 <= i < |b| ==> b[i] == src[d + 1 + i];
      assert AllDigits(text[..d]) && AllDigits(text[d + 1..]);
    }
  }

  lemma LiteralRead(src: Source, s: string, f: bool)
    requires src == Render(if f then FStr(s) else Str(s)) && NextFrom(src, 0) == Lexed(if f then FStr(s) else Str(s), 0, |src|)
    ensures Renderable(if f then FStr(s) else Str(s))
  {
    hide OpLength, Escape;
    var body := Escape(s);
    var open := if f then "f\"" else "\"";
    assert src == open + body + "\"";
    assert open[0] == src[0];
    LiteralAt(src, 0, f);
    assert '\0' !in body by { forall i | 0 <= i < |body| ensures body[i] != '\0' { assert src[|open| + i] == body[i]; } }
    NoNulIn(s);
  }

  lemma OpRead(src: Source, text: string)
    requires src == text && text != "" && NextFrom(src, 0) == Lexed(Op(text), 0, |src|)
    ensures Renderable(Op(text))
  {
    hide OpLength, Body;
    OperatorTaken(src, 0);
    hide NextFrom;
    OpTable(text[0], ' ');
    if |text| == 2 { OpTable(text[0], text[1]); assert text == [text[0], text[1]]; }
    assert [text[0], ' '] !in PAIRS;
  }
}
