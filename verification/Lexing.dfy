/** Tokens of a source text (src/frontend/lexer.c), as functions of the text and a position. */

module Lexing {
  import opened Options
  import opened Decimal

  /** Source text as C sees it: no NUL before its end. */
  type Source = s: string | '\0' !in s

  function CharAt(src: Source, p: nat): char {
    if p < |src| then src[p] else '\0'
  }

  predicate IsAlpha(c: char) { 'a' <= c <= 'z' || 'A' <= c <= 'Z' }

  predicate IsWord(c: char) { IsAlpha(c) || IsDigit(c) || c == '_' }

  predicate IsBlank(c: char) { c == ' ' || c == '\t' || c == '\r' || c == '\n' }

  predicate IsQuote(c: char) { c == '"' || c == '\'' }

  /** The end of the line `p` is on. */
  function LineEnd(src: Source, p: nat): (r: nat)
    requires p <= |src|
    ensures p <= r <= |src| && (p < |src| && src[p] != '\n' ==> p < r)
    decreases |src| - p
  {
    if p == |src| || src[p] == '\n' then p else LineEnd(src, p + 1)
  }

  /** Past white space and `//` comments. */
  function SkipBlank(src: Source, p: nat): (r: nat)
    requires p <= |src|
    ensures p <= r <= |src|
    ensures r < |src| ==> !IsBlank(src[r])
    decreases |src| - p
  {
    if p == |src| then p
    else if IsBlank(src[p]) then SkipBlank(src, p + 1)
    else if src[p] == '/' && CharAt(src, p + 1) == '/' then SkipBlank(src, LineEnd(src, p))
    else p
  }

  function WordEnd(src: Source, p: nat): (r: nat)
    requires p <= |src|
    ensures p <= r <= |src| && (p < |src| && IsWord(src[p]) ==> p < r)
    decreases |src| - p
  {
    if p < |src| && IsWord(src[p]) then WordEnd(src, p + 1) else p
  }

  function DigitsEnd(src: Source, p: nat): (r: nat)
    requires p <= |src|
    ensures p <= r <= |src| && (p < |src| && IsDigit(src[p]) ==> p < r)
    decreases |src| - p
  {
    if p < |src| && IsDigit(src[p]) then DigitsEnd(src, p + 1) else p
  }

  /** A `.` belongs to a number only in front of a digit. */
  predicate HasFraction(src: Source, p: nat) {
    CharAt(src, p) == '.' && IsDigit(CharAt(src, p + 1))
  }

  function Unescape(c: char): char {
    match c
    case 'n' => '\n'
    case 't' => '\t'
    case 'r' => '\r'
    case '0' => '\0'
    case _ => c
  }

  /** The characters up to the closing quote, and where that is; none if it is missing. */
  function Body(src: Source, p: nat, quote: char): (r: Option<(string, nat)>)
    requires p <= |src|
    ensures r.Some? ==> p <= r.value.1 < |src| && src[r.value.1] == quote
    decreases |src| - p
  {
    if p == |src| then None
    else if src[p] == quote then Some(("", p))
    else if src[p] == '\\' then
      if p + 1 == |src| then None
      else
        match Body(src, p + 2, quote)
        case None => None
        case Some((text, end)) => Some(([Unescape(src[p + 1])] + text, end))
    else
      match Body(src, p + 1, quote)
      case None => None
      case Some((text, end)) => Some(([src[p]] + text, end))
  }

  /** A literal longer than the buffer loses its end (src/frontend/lexer.c:151,165). */
  const BUFFER: nat := 4095

  function Cut(text: string): string {
    if |text| <= BUFFER then text else text[..BUFFER]
  }

  /** The length of the operator or punctuation that starts with `c` and `d`; zero if there is
      none. */
  function OpLength(c: char, d: char): (n: nat)
    ensures n <= 2
  {
    if c == '+' then (if d == '=' || d == '+' then 2 else 1)
    else if c == '-' then (if d == '=' || d == '>' || d == '-' then 2 else 1)
    else if c == '*' then (if d == '*' || d == '=' then 2 else 1)
    else if c == '/' then (if d == '=' then 2 else 1)
    else if c == '=' then (if d == '=' || d == '>' then 2 else 1)
    else if c == '!' then (if d == '=' then 2 else 0)
    else if c == '<' || c == '>' then (if d == '=' then 2 else 1)
    else if c == '&' then (if d == '&' then 2 else 0)
    else if c == '|' then (if d == '|' then 2 else 0)
    else if c == '.' then (if d == '.' then 2 else 1)
    else if c == '(' || c == ')' || c == '{' || c == '}' || c == '[' || c == ']' then 1
    else if c == '%' || c == ';' || c == ':' || c == ',' || c == '#' || c == '~' || c == '?' || c == '@' then 1
    else 0
  }

  /** Keywords are words; what a word is a keyword for is decided by its text. */
  datatype Lexeme = Word(text: string) | Number(text: string, isFloat: bool) | Str(text: string) | FStr(text: string)
                  | Op(text: string) | Eof

  /** `start` is where the token begins and `end` where the next one is looked for. */
  datatype Lexed = Error | Lexed(t: Lexeme, start: nat, end: nat)

  function Literal(src: Source, start: nat, p: nat, quote: char, f: bool): (r: Lexed)
    requires start < p <= |src|
    ensures r.Lexed? ==> start < r.end <= |src|
  {
    match Body(src, p, quote)
    case None => Error
    case Some((text, end)) => Lexed(if f then FStr(Cut(text)) else Str(Cut(text)), start, end + 1)
  }

  function NextFrom(src: Source, p: nat): (r: Lexed)
    requires p < |src|
    ensures r.Lexed? ==> p < r.end <= |src| && r.start == p && !r.t.Eof?
  {
    var c, d := src[p], CharAt(src, p + 1);
    if c == 'f' && IsQuote(d) then Literal(src, p, p + 2, d, true)
    else if IsAlpha(c) || c == '_' then
      var end := WordEnd(src, p);
      Lexed(Word(src[p..end]), p, end)
    else if IsDigit(c) then
      var whole := DigitsEnd(src, p);
      if HasFraction(src, whole) then
        var end := DigitsEnd(src, whole + 1);
        Lexed(Number(src[p..end], true), p, end)
      else Lexed(Number(src[p..whole], false), p, whole)
    else if IsQuote(c) then Literal(src, p, p + 1, c, false)
    else
      var n := OpLength(c, d);
      if n == 0 || p + n > |src| then Error else Lexed(Op(src[p..p + n]), p, p + n)
  }

  /** The next token from `p` on (src/frontend/lexer.c:120-363).  Every token but the end of
      the text takes at least one character. */
  function Next(src: Source, p: nat): (r: Lexed)
    requires p <= |src|
    ensures r.Lexed? ==> p <= r.start <= r.end <= |src|
    ensures r.Lexed? && !r.t.Eof? ==> p < r.end
    ensures r.Lexed? && r.t.Eof? ==> r.end == |src|
  {
    var q := SkipBlank(src, p);
    if q == |src| then Lexed(Eof, q, q) else NextFrom(src, q)
  }

  /** All tokens from `p` on, the end not included. */
  function Lex(src: Source, p: nat): Option<seq<Lexeme>>
    requires p <= |src|
    decreases |src| - p
  {
    match Next(src, p)
    case Error => None
    case Lexed(t, _, end) =>
      if t.Eof? then Some([])
      else
        match Lex(src, end)
        case None => None
        case Some(ts) => Some([t] + ts)
  }
}
