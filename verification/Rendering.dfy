/** Lexing undoes rendering, and with the parser the whole way from text to tree is undone. */

module Rendering {
  import opened Options
  import opened Decimal
  import opened Lexing
  import opened Grammar
  import Parser
  import RoundTrip

  function EscapeChar(c: char): string {
    match c
    case '\n' => ['\\', 'n']
    case '\t' => ['\\', 't']
    case '\r' => ['\\', 'r']
    case '\\' => ['\\', '\\']
    case '"' => ['\\', '"']
    case _ => [c]
  }

  function Escape(s: string): string {
    if s == "" then "" else EscapeChar(s[0]) + Escape(s[1..])
  }

  predicate AllDigits(s: string) { s != "" && forall i :: 0 <= i < |s| ==> IsDigit(s[i]) }

  predicate AllWord(s: string) { forall i :: 0 <= i < |s| ==> IsWord(s[i]) }

  /** A token that some text stands for. */
  predicate Renderable(t: Lexeme) {
    match t
    case Word(w) => w != "" && (IsAlpha(w[0]) || w[0] == '_') && AllWord(w)
    case Number(text, false) => AllDigits(text)
    case Number(text, true) => exists k :: 0 < k < |text| && text[k] == '.' && AllDigits(text[..k]) && AllDigits(text[k + 1..])
    case Str(s) => |s| <= BUFFER && '\0' !in s
    case FStr(s) => |s| <= BUFFER && '\0' !in s
    case Op(text) => (|text| == 1 && OpLength(text[0], ' ') == 1) || (|text| == 2 && OpLength(text[0], text[1]) == 2)
    case Eof => false
  }

  function Render(t: Lexeme): string {
    match t
    case Word(w) => w
    case Number(text, _) => text
    case Str(s) => "\"" + Escape(s) + "\""
    case FStr(s) => "f\"" + Escape(s) + "\""
    case Op(text) => text
    case Eof => ""
  }

  function RenderAll(ts: seq<Lexeme>): string {
    if ts == [] then "" else Render(ts[0]) + " " + RenderAll(ts[1..])
  }

  /** `part` stands at `p`. */
  predicate Stands(src: string, p: nat, part: string) {
    p + |part| <= |src| && src[p..p + |part|] == part
  }

  lemma StandsAt(src: string, p: nat, part: string, i: nat)
    requires Stands(src, p, part) && i < |part|
    ensures src[p + i] == part[i]
  {
    assert src[p + i] == src[p..p + |part|][i];
  }

  lemma StandsSplit(src: string, p: nat, a: string, b: string)
    requires Stands(src, p, a + b)
    ensures Stands(src, p, a) && Stands(src, p + |a|, b)
  {
    var ab := src[p..p + |a| + |b|];
    assert src[p..p + |a|] == ab[..|a|] == a;
    assert src[p + |a|..p + |a| + |b|] == ab[|a|..] == b;
  }

  lemma {:induction false} WordEndIs(src: Source, p: nat, w: string)
    requires Stands(src, p, w) && AllWord(w) && !IsWord(CharAt(src, p + |w|))
    ensures WordEnd(src, p) == p + |w|
    decreases |w|
  {
    if w != "" {
      StandsAt(src, p, w, 0);
      assert w == [w[0]] + w[1..];
      StandsSplit(src, p, [w[0]], w[1..]);
      WordEndIs(src, p + 1, w[1..]);
    }
  }

  lemma {:induction false} DigitsEndIs(src: Source, p: nat, w: string)
    requires Stands(src, p, w) && (forall i :: 0 <= i < |w| ==> IsDigit(w[i])) && !IsDigit(CharAt(src, p + |w|))
    ensures DigitsEnd(src, p) == p + |w|
    decreases |w|
  {
    if w != "" {
      StandsAt(src, p, w, 0);
      assert w == [w[0]] + w[1..];
      StandsSplit(src, p, [w[0]], w[1..]);
      DigitsEndIs(src, p + 1, w[1..]);
    }
  }

  /** One escaped character is read back as itself. */
  lemma BodyStep(src: Source, p: nat, c: char)
    requires Stands(src, p, EscapeChar(c)) && p + |EscapeChar(c)| < |src|
    ensures var rest := Body(src, p + |EscapeChar(c)|, '"');
      Body(src, p, '"') == if rest.None? then None else Some(([c] + rest.value.0, rest.value.1))
  {
    StandsAt(src, p, EscapeChar(c), 0);
    if |EscapeChar(c)| == 2 {
      StandsAt(src, p, EscapeChar(c), 1);
    }
  }

  lemma {:induction false} BodyIs(src: Source, p: nat, s: string)
    requires Stands(src, p, Escape(s)) && p + |Escape(s)| < |src| && src[p + |Escape(s)|] == '"'
    ensures Body(src, p, '"') == Some((s, p + |Escape(s)|))
    decreases |s|
  {
    hide EscapeChar;
    if s != "" {
      var one := EscapeChar(s[0]);
      StandsSplit(src, p, one, Escape(s[1..]));
      BodyIs(src, p + |one|, s[1..]);
      BodyStep(src, p, s[0]);
      assert [s[0]] + s[1..] == s;
    }
  }

  /** White space, a comment or the end of the text. */
  predicate Ended(src: Source, p: nat) { CharAt(src, p) in {'\0', ' ', '\t', '\r', '\n', '/'} }

  /** A rendered token in front of white space, a comment or the end is read as that token; only the
      slash must not touch a comment. */
  lemma NextIs(src: Source, p: nat, t: Lexeme)
    requires Renderable(t) && Stands(src, p, Render(t)) && Ended(src, p + |Render(t)|)
    requires t == Op("/") ==> CharAt(src, p + 1) != '/'
    ensures |Render(t)| > 0 && Next(src, p) == Lexed(t, p, p + |Render(t)|)
  {
    hide Escape, Body, OpLength;
    match t
    case Word(w) => WordIs(src, p, w);
    case Number(_, isFloat) => if isFloat { FloatIs(src, p, t.text); } else { IntIs(src, p, t.text); }
    case Str(s) => LiteralIs(src, p, t);
    case FStr(s) => LiteralIs(src, p, t);
    case Op(text) => OpIs(src, p, text);
  }

  /** What begins a token is not skipped. */
  lemma NoBlank(src: Source, p: nat)
    requires p < |src| && !IsBlank(src[p]) && !(src[p] == '/' && CharAt(src, p + 1) == '/')
    ensures SkipBlank(src, p) == p
  {
  }

  lemma WordIs(src: Source, p: nat, w: string)
    requires Renderable(Word(w)) && Stands(src, p, w) && Ended(src, p + |w|)
    ensures Next(src, p) == Lexed(Word(w), p, p + |w|)
  {
    hide SkipBlank, Body, OpLength;
    StandsAt(src, p, w, 0);
    NoBlank(src, p);
    WordEndIs(src, p, w);
    if |w| > 1 {
      StandsAt(src, p, w, 1);
    }
  }

  /** Operators are no words, numbers, literals or blanks. */
  lemma OpStart(c: char, d: char)
    requires OpLength(c, d) > 0
    ensures !IsWord(c) && !IsQuote(c) && !IsBlank(c)
  {
  }

  lemma OpIs(src: Source, p: nat, text: string)
    requires Renderable(Op(text)) && Stands(src, p, text) && Ended(src, p + |text|)
    requires text == "/" ==> CharAt(src, p + 1) != '/'
    ensures Next(src, p) == Lexed(Op(text), p, p + |text|)
  {
    hide SkipBlank, Body;
    StandsAt(src, p, text, 0);
    if |text| == 2 { StandsAt(src, p, text, 1); }
    var d := CharAt(src, p + 1);
    OpAlone(text, d);
    OpStart(text[0], d);
    assert text[0] == '/' ==> d != '/' by { if |text| == 1 { assert text == "/" <==> text[0] == '/'; } }
    NoBlank(src, p);
    hide OpLength;
    assert NextFrom(src, p) == Lexed(Op(src[p..p + |text|]), p, p + |text|);
  }

  /** What may follow an operator does not make it longer. */
  lemma OpAlone(text: string, d: char)
    requires Renderable(Op(text)) && (if |text| == 2 then d == text[1] else d in {'\0', ' ', '\t', '\r', '\n', '/'})
    ensures OpLength(text[0], d) == |text| && (|text| == 2 && text[0] == '/' ==> d == '=')
  {
  }

  lemma IntIs(src: Source, p: nat, text: string)
    requires AllDigits(text) && Stands(src, p, text) && Ended(src, p + |text|)
    ensures Next(src, p) == Lexed(Number(text, false), p, p + |text|)
  {
    hide SkipBlank, Body, OpLength;
    StandsAt(src, p, text, 0);
    NoBlank(src, p);
    DigitsEndIs(src, p, text);
  }

  lemma FloatIs(src: Source, p: nat, text: string)
    requires Renderable(Number(text, true)) && Stands(src, p, text) && Ended(src, p + |text|)
    ensures |text| > 0 && Next(src, p) == Lexed(Number(text, true), p, p + |text|)
  {
    var k :| 0 < k < |text| && text[k] == '.' && AllDigits(text[..k]) && AllDigits(text[k + 1..]);
    hide *;
    FloatParts(src, p, text, text[..k], text[k + 1..]) by { assert text == text[..k] + (['.'] + text[k + 1..]); }
  }

  lemma FloatParts(src: Source, p: nat, text: string, whole: string, part: string)
    requires AllDigits(whole) && AllDigits(part) && text == whole + (['.'] + part)
    requires Stands(src, p, text) && Ended(src, p + |text|)
    ensures Next(src, p) == Lexed(Number(text, true), p, p + |text|)
  {
    hide SkipBlank, Body, OpLength, Stands, DigitsEnd, WordEnd, Literal;
    var k := |whole|;
    StandsIs(src, p, text);
    StandsSplit(src, p, whole, ['.'] + part);
    StandsSplit(src, p + k, ['.'], part);
    StandsAt(src, p, whole, 0);
    StandsAt(src, p + k, ['.'], 0);
    StandsAt(src, p + k + 1, part, 0);
    NoBlank(src, p);
    DigitsEndIs(src, p, whole);
    DigitsEndIs(src, p + k + 1, part);
  }

  lemma StandsIs(src: string, p: nat, part: string)
    requires Stands(src, p, part)
    ensures p + |part| <= |src| && src[p..p + |part|] == part
  {
  }

  lemma StrIs(src: Source, p: nat, s: string)
    requires |s| <= BUFFER && Stands(src, p, "\"" + (Escape(s) + "\""))
    ensures Next(src, p) == Lexed(Lexeme.Str(s), p, p + |Escape(s)| + 2)
  {
    hide SkipBlank, Body, OpLength, Escape;
    var body := Escape(s);
    StandsSplit(src, p, "\"", body + "\"");
    StandsSplit(src, p + 1, body, "\"");
    StandsAt(src, p, "\"", 0);
    StandsAt(src, p + 1 + |body|, "\"", 0);
    NoBlank(src, p);
    BodyIs(src, p + 1, s);
  }

  lemma FStrIs(src: Source, p: nat, s: string)
    requires |s| <= BUFFER && Stands(src, p, "f\"" + (Escape(s) + "\""))
    ensures Next(src, p) == Lexed(FStr(s), p, p + |Escape(s)| + 3)
  {
    hide SkipBlank, Body, OpLength, Escape;
    var body := Escape(s);
    StandsSplit(src, p, "f\"", body + "\"");
    StandsSplit(src, p + 2, body, "\"");
    StandsAt(src, p, "f\"", 0);
    StandsAt(src, p, "f\"", 1);
    StandsAt(src, p + 2 + |body|, "\"", 0);
    NoBlank(src, p);
    BodyIs(src, p + 2, s);
  }

  lemma LiteralIs(src: Source, p: nat, t: Lexeme)
    requires (t.Str? || t.FStr?) && |t.text| <= BUFFER && Stands(src, p, Render(t))
    ensures Next(src, p) == Lexed(t, p, p + |Render(t)|)
  {
    hide Next, Escape, Stands;
    var open := if t.FStr? then "f\"" else "\"";
    assert Render(t) == open + (Escape(t.text) + "\"");
    if t.FStr? { FStrIs(src, p, t.text); } else { StrIs(src, p, t.text); }
  }

  lemma LexNext(src: Source, p: nat, t: Lexeme, end: nat, ts: seq<Lexeme>)
    requires p <= |src| && Next(src, p) == Lexed(t, p, end) && !t.Eof? && Lex(src, end) == Some(ts)
    ensures Lex(src, p) == Some([t] + ts)
  {
    hide Next;
  }

  // ---- White space and comments.

  /** Blanks and whole comments, `//` to the end of a line. */
  ghost predicate Gap(g: string)
    decreases |g|
  {
    || g == ""
    || (g[0] in {' ', '\t', '\r', '\n'} && Gap(g[1..]))
    || (exists k :: 2 <= k < |g| && Comment(g, k) && Gap(g[k + 1..]))
  }

  /** A comment whose line ends at `k`. */
  predicate Comment(g: string, k: nat) {
    2 <= k < |g| && g[..2] == "//" && g[k] == '\n' && '\n' !in g[2..k]
  }

  /** A comment that the text ends in. */
  predicate LastComment(g: string) { |g| >= 2 && g[..2] == "//" && '\n' !in g[2..] }

  lemma {:induction false} LineEndIs(src: Source, p: nat, end: nat)
    requires p <= end <= |src| && '\n' !in src[p..end] && (end == |src| || src[end] == '\n')
    ensures LineEnd(src, p) == end
    decreases end - p
  {
    if p < end {
      assert src[p] == src[p..end][0];
      assert src[p..end][1..] == src[p + 1..end];
      LineEndIs(src, p + 1, end);
    }
  }

  lemma SkipComment(src: Source, p: nat, end: nat)
    requires p + 2 <= end <= |src| && src[p..p + 2] == "//" && '\n' !in src[p + 2..end] && (end == |src| || src[end] == '\n')
    ensures SkipBlank(src, p) == SkipBlank(src, end)
  {
    assert src[p] == src[p..p + 2][0] && src[p + 1] == src[p..p + 2][1];
    forall i | p <= i < end ensures src[i] != '\n' {
      if i >= p + 2 { assert src[i] == src[p + 2..end][i - p - 2]; }
    }
    LineEndIs(src, p, end);
  }

  lemma SkipFirstBlank(src: Source, p: nat, g: string)
    requires g != "" && g[0] in {' ', '\t', '\r', '\n'} && Stands(src, p, g)
    ensures p < |src| && SkipBlank(src, p) == SkipBlank(src, p + 1) && Stands(src, p + 1, g[1..])
  {
    hide SkipBlank;
    StandsNext(src, p, g);
    OneBlank(src, p);
  }

  lemma SkipFirstComment(src: Source, p: nat, g: string, k: nat)
    requires Comment(g, k) && Stands(src, p, g)
    ensures p + k < |src| && SkipBlank(src, p) == SkipBlank(src, p + k + 1) && Stands(src, p + k + 1, g[k + 1..])
  {
    hide SkipBlank;
    CommentStands(src, p, g, k);
    hide Stands, Comment;
    SkipComment(src, p, p + k);
    OneBlank(src, p + k);
  }

  /** A gap is passed over, */
  lemma {:induction false} SkipGap(src: Source, p: nat, g: string)
    requires Gap(g) && Stands(src, p, g) && p + |g| <= |src|
    ensures SkipBlank(src, p) == SkipBlank(src, p + |g|)
    decreases |g|
  {
    hide Gap, SkipBlank, Comment;
    if g != "" {
      var k := GapSplit(g);
      hide Stands;
      if k == 0 {
        SkipFirstBlank(src, p, g);
        SkipGap(src, p + 1, g[1..]);
      } else {
        SkipFirstComment(src, p, g, k);
        SkipGap(src, p + k + 1, g[k + 1..]);
      }
    }
  }

  lemma StandsNext(src: string, p: nat, g: string)
    requires g != "" && Stands(src, p, g)
    ensures p < |src| && src[p] == g[0] && Stands(src, p + 1, g[1..])
  {
    assert g == [g[0]] + g[1..];
    StandsSplit(src, p, [g[0]], g[1..]);
    StandsAt(src, p, g, 0);
  }

  /** Its first piece is a blank, or a comment whose line ends at `k`. */
  lemma GapSplit(g: string) returns (k: nat)
    requires Gap(g) && g != ""
    ensures k == 0 ==> g[0] in {' ', '\t', '\r', '\n'} && Gap(g[1..])
    ensures k > 0 ==> Comment(g, k) && Gap(g[k + 1..])
  {
    if g[0] in {' ', '\t', '\r', '\n'} && Gap(g[1..]) {
      k := 0;
    } else {
      k :| 2 <= k < |g| && Comment(g, k) && Gap(g[k + 1..]);
    }
  }

  lemma OneBlank(src: Source, p: nat)
    requires p < |src| && src[p] in {' ', '\t', '\r', '\n'}
    ensures SkipBlank(src, p) == SkipBlank(src, p + 1)
  {
  }

  lemma Inside(src: string, p: nat, n: nat, i: nat, j: nat)
    requires i <= j <= n && p + n <= |src|
    ensures src[p..p + n][i..j] == src[p + i..p + j]
  {
    var a, b := src[p..p + n][i..j], src[p + i..p + j];
    assert forall k :: 0 <= k < j - i ==> a[k] == b[k];
  }

  lemma CommentStands(src: Source, p: nat, g: string, k: nat)
    requires Comment(g, k) && Stands(src, p, g)
    ensures p + k < |src| && p + |g| <= |src| && src[p..p + 2] == "//" && '\n' !in src[p + 2..p + k] && src[p + k] == '\n'
    ensures Stands(src, p + k + 1, g[k + 1..])
  {
    Inside(src, p, |g|, 0, 2);
    Inside(src, p, |g|, 2, k);
    Inside(src, p, |g|, k + 1, |g|);
    StandsAt(src, p, g, k);
    assert g[..2] == g[0..2] && g[k + 1..] == g[k + 1..|g|];
  }

  lemma {:induction false} LineEndStops(src: Source, p: nat)
    requires p <= |src|
    ensures var end := LineEnd(src, p); '\n' !in src[p..end] && (end == |src| || src[end] == '\n')
    decreases |src| - p
  {
    if p < |src| && src[p] != '\n' {
      LineEndStops(src, p + 1);
      assert src[p..LineEnd(src, p)] == [src[p]] + src[p + 1..LineEnd(src, p)];
    }
  }

  /** A comment at `p` is skipped to the end of its line. */
  lemma AtComment(src: Source, p: nat) returns (end: nat)
    requires Stands(src, p, "//")
    ensures p + 2 <= end <= |src| && SkipBlank(src, p) == SkipBlank(src, end) && '\n' !in src[p + 2..end]
    ensures end == |src| || src[end] == '\n'
  {
    StandsAt(src, p, "//", 0);
    StandsAt(src, p, "//", 1);
    end := LineEnd(src, p);
    LineEndStops(src, p);
    hide SkipBlank;
    assert LineEnd(src, p) == LineEnd(src, p + 1) == LineEnd(src, p + 2);
    Inside(src, p, end - p, 2, end - p);
    SkipComment(src, p, end);
  }

  /** What `SkipBlank` may pass over from `p` to `q`. */
  ghost predicate Passed(src: Source, p: nat, q: nat) {
    p <= q <= |src| &&
    (Gap(src[p..q]) || (q == |src| && exists r :: p <= r <= q && Gap(src[p..r]) && LastComment(src[r..])))
  }

  lemma PassedBlank(src: Source, p: nat, q: nat)
    requires p < |src| && src[p] in {' ', '\t', '\r', '\n'} && Passed(src, p + 1, q)
    ensures Passed(src, p, q)
  {
    assert forall r :: p < r <= |src| ==> src[p..r][0] == src[p] && src[p..r][1..] == src[p + 1..r];
  }

  lemma PassedComment(src: Source, p: nat, end: nat, q: nat)
    requires Stands(src, p, "//") && p + 2 <= end < |src| && '\n' !in src[p + 2..end] && src[end] == '\n'
    requires Passed(src, end + 1, q)
    ensures Passed(src, p, q)
  {
    forall r | end < r <= |src| ensures Gap(src[end + 1..r]) ==> Gap(src[p..r]) {
      var g := src[p..r];
      Inside(src, p, r - p, 0, 2);
      Inside(src, p, r - p, 2, end - p);
      Inside(src, p, r - p, end - p + 1, r - p);
      assert g[..2] == g[0..2] && g[end - p + 1..] == g[end - p + 1..r - p];
      assert Comment(g, end - p);
    }
  }

  /** and nothing else is: what comes next is no gap. */
  lemma {:induction false} SkipsGap(src: Source, p: nat)
    requires p <= |src|
    ensures var q := SkipBlank(src, p);
      Passed(src, p, q) && (q < |src| ==> src[q] !in {' ', '\t', '\r', '\n'} && !Stands(src, q, "//"))
    decreases |src| - p
  {
    if p < |src| && src[p] in {' ', '\t', '\r', '\n'} {
      SkipsGap(src, p + 1);
      hide Passed;
      PassedBlank(src, p, SkipBlank(src, p));
    } else if Stands(src, p, "//") {
      var end := AtComment(src, p);
      if end < |src| {
        OneBlank(src, end);
        SkipsGap(src, end + 1);
        hide Passed;
        PassedComment(src, p, end, SkipBlank(src, p));
      } else {
        assert Gap(src[p..p]);
        Inside(src, p, |src| - p, 0, 2);
        assert LastComment(src[p..]);
      }
    } else {
      assert Gap(src[p..p]);
      if p < |src| {
      }
    }
  }

  lemma {:induction false} LexGap(src: Source, p: nat, g: string)
    requires Gap(g) && Stands(src, p, g)
    ensures Lex(src, p) == Lex(src, p + |g|)
  {
    SkipGap(src, p, g);
    assert Next(src, p) == Next(src, p + |g|);
    hide Next;
  }

  /** Tokens, each with the gap behind it. */
  function Spaced(ts: seq<Lexeme>, gs: seq<string>): string
    requires |gs| == |ts|
  {
    if ts == [] then "" else Render(ts[0]) + (gs[0] + Spaced(ts[1..], gs[1..]))
  }

  /** Only the last gap may be empty, and none may turn a slash into a comment. */
  ghost predicate Keeps(ts: seq<Lexeme>, gs: seq<string>) {
    && |gs| == |ts|
    && (forall i :: 0 <= i < |ts| ==> Renderable(ts[i]) && Gap(gs[i]))
    && (forall i :: 0 <= i < |ts| - 1 ==> gs[i] != "")
    && (forall i :: 0 <= i < |ts| && gs[i] != "" && ts[i] == Op("/") ==> gs[i][0] != '/')
  }

  /** Lexing tokens written with any white space and comments between them gives back the tokens. */
  lemma {:induction false} LexSpaced(src: Source, p: nat, ts: seq<Lexeme>, gs: seq<string>)
    requires p <= |src| && |gs| == |ts| && Keeps(ts, gs) && src[p..] == Spaced(ts, gs)
    ensures Lex(src, p) == Some(ts)
    decreases |ts|
  {
    hide Next, Lex, Render, Renderable, Gap, Keeps, Ended;
    if ts == [] {
      assert Lex(src, p) == Some([]) by { LexEnd(src, p); }
    } else {
      var r, g, more := Render(ts[0]), gs[0], Spaced(ts[1..], gs[1..]);
      assert src[p..] == r + (g + more);
      assert Stands(src, p, r + (g + more));
      StandsSplit(src, p, r, g + more);
      StandsSplit(src, p + |r|, g, more);
      KeepsTail(ts, gs);
      TokenEnds(src, p, ts[0], g, more);
      NextIs(src, p, ts[0]);
      NotEof(ts[0]);
      assert src[p + |r| + |g|..] == more;
      LexSpaced(src, p + |r| + |g|, ts[1..], gs[1..]);
      LexGap(src, p + |r|, g);
      LexNext(src, p, ts[0], p + |r|, ts[1..]);
      assert [ts[0]] + ts[1..] == ts;
    }
  }

  lemma KeepsTail(ts: seq<Lexeme>, gs: seq<string>)
    requires Keeps(ts, gs) && ts != []
    ensures Keeps(ts[1..], gs[1..]) && Renderable(ts[0]) && Gap(gs[0])
    ensures gs[0] == "" ==> Spaced(ts[1..], gs[1..]) == ""
    ensures gs[0] != "" && ts[0] == Op("/") ==> gs[0][0] != '/'
  {
    hide Renderable, Gap, Render;
  }

  lemma TokenEnds(src: Source, p: nat, t: Lexeme, g: string, more: string)
    requires Gap(g) && p + |Render(t)| + |g| <= |src| && src[p + |Render(t)|..] == g + more && (g == "" ==> more == "")
    requires g != "" && t == Op("/") ==> g[0] != '/'
    ensures Ended(src, p + |Render(t)|) && (t == Op("/") ==> CharAt(src, p + 1) != '/')
  {
    hide Gap, Render;
    var q := p + |Render(t)|;
    assert t == Op("/") ==> q == p + 1 by { assert t == Op("/") ==> Render(t) == "/" by { SlashIs(t); } }
    if g == "" {
      assert q == |src|;
    } else {
      GapStart(g);
      assert src[q] == src[q..][0];
    }
  }

  lemma SlashIs(t: Lexeme)
    ensures t == Op("/") ==> Render(t) == "/"
  {
  }

  lemma GapStart(g: string)
    requires Gap(g) && g != ""
    ensures g[0] in {' ', '\t', '\r', '\n', '/'}
  {
    if g[0] !in {' ', '\t', '\r', '\n'} {
      var k :| 2 <= k < |g| && Comment(g, k) && Gap(g[k + 1..]);
      assert g[0] == g[..2][0];
    }
  }

  /** So does lexing tokens rendered with a space behind each. */
  lemma {:induction false} LexRender(src: Source, p: nat, ts: seq<Lexeme>)
    requires p <= |src| && src[p..] == RenderAll(ts)
    requires forall i :: 0 <= i < |ts| ==> Renderable(ts[i])
    ensures Lex(src, p) == Some(ts)
  {
    var gs := seq(|ts|, i => " ");
    forall i | 0 <= i < |ts| ensures Gap(gs[i]) { assert gs[i][1..] == ""; }
    RenderSpaced(ts);
    LexSpaced(src, p, ts, gs);
  }

  lemma {:induction false} RenderSpaced(ts: seq<Lexeme>)
    ensures Spaced(ts, seq(|ts|, i => " ")) == RenderAll(ts)
    decreases |ts|
  {
    if ts != [] {
      RenderSpaced(ts[1..]);
      assert seq(|ts|, i => " ")[1..] == seq(|ts| - 1, i => " ");
      assert Render(ts[0]) + (" " + RenderAll(ts[1..])) == Render(ts[0]) + " " + RenderAll(ts[1..]);
    }
  }

  lemma LexEnd(src: Source, p: nat)
    requires p == |src|
    ensures Lex(src, p) == Some([])
  {
  }

  lemma NotEof(t: Lexeme)
    requires Renderable(t)
    ensures !t.Eof?
  {
  }
}
