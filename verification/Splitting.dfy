/** Splitting the text of an f-string into texts and expression sources
    (src/frontend/parser.c:2133-2203). */

module Splitting {
  import opened Options

  datatype Part = Text(s: string) | Source(s: string)

  /** What the parser makes of the parts; a lone text is an ordinary string. */
  datatype Literal = StringLit(s: string) | FString(parts: seq<Part>)

  /** A text longer than the buffer is cut off. */
  const MAX_TEXT: nat := 4095

  /** Where the brace that closes `depth` open ones is. */
  function Closing(s: string, depth: nat): (n: Option<nat>)
    requires depth > 0
    ensures n.Some? ==> n.value < |s| && s[n.value] == '}'
  {
    if s == [] then None
    else if s[0] == '}' && depth == 1 then Some(0)
    else
      match Closing(s[1..], if s[0] == '{' then depth + 1 else if s[0] == '}' then depth - 1 else depth)
      case None => None
      case Some(n) => Some(n + 1)
  }

  function Flush(text: string): seq<Part> { if text == [] then [] else [Text(text)] }

  /** The scan, with the text gathered so far; none when a brace is not closed. */
  function Scan(s: string, text: string): Option<seq<Part>>
    decreases |s|
  {
    if s == [] then Some(Flush(text))
    else if s[0] == '{' then
      match Closing(s[1..], 1)
      case None => None
      case Some(n) =>
        match Scan(s[n + 2..], "")
        case None => None
        case Some(more) => Some(Flush(text) + [Source(s[1..n + 1])] + more)
    else if s[0] == '}' then Some(Flush(text))
    else Scan(s[1..], if |text| < MAX_TEXT then text + [s[0]] else text)
  }

  function Result(parts: seq<Part>): Literal {
    if |parts| == 1 && parts[0].Text? then StringLit(parts[0].s) else FString(parts)
  }

  function Split(raw: string): Option<Literal> {
    match Scan(raw, "") case None => None case Some(parts) => Some(Result(parts))
  }

  // ---- Joining.

  function Braced(s: string): string { "{" + s + "}" }

  function Written(p: Part): string { match p case Text(s) => s case Source(s) => Braced(s) }

  function Join(parts: seq<Part>): string { if parts == [] then "" else Written(parts[0]) + Join(parts[1..]) }

  predicate BraceFree(s: string) { forall i :: 0 <= i < |s| ==> s[i] != '{' && s[i] != '}' }

  /** The braces of a source close each other. */
  predicate Balanced(s: string, depth: nat) {
    if s == [] then depth == 0
    else if s[0] == '}' then depth > 0 && Balanced(s[1..], depth - 1)
    else Balanced(s[1..], if s[0] == '{' then depth + 1 else depth)
  }

  predicate NormalPart(p: Part) {
    match p
    case Text(s) => s != "" && |s| <= MAX_TEXT && BraceFree(s)
    case Source(s) => Balanced(s, 0)
  }

  predicate Normal(parts: seq<Part>) {
    && (forall i :: 0 <= i < |parts| ==> NormalPart(parts[i]))
    && (forall i :: 0 < i < |parts| ==> !(parts[i - 1].Text? && parts[i].Text?))
  }

  // ---- The scan recovers what was joined.

  lemma {:induction false} ClosingJoined(s: string, rest: string, depth: nat)
    requires Balanced(s, depth)
    ensures Closing(s + "}" + rest, depth + 1) == Some(|s|)
    decreases |s|
  {
    var all := s + "}" + rest;
    if s == "" {
      assert all[0] == '}';
    } else {
      assert all[0] == s[0] && all[1..] == s[1..] + "}" + rest;
      ClosingJoined(s[1..], rest, if s[0] == '{' then depth + 1 else if s[0] == '}' then depth - 1 else depth);
    }
  }

  lemma {:induction false} ScanText(t: string, rest: string, text: string)
    requires BraceFree(t) && |text| + |t| <= MAX_TEXT
    ensures Scan(t + rest, text) == Scan(rest, text + t)
    decreases |t|
  {
    if t == "" {
      assert t + rest == rest && text + t == text;
    } else {
      assert (t + rest)[0] == t[0] && (t + rest)[1..] == t[1..] + rest;
      assert text + [t[0]] + t[1..] == text + t;
      ScanText(t[1..], rest, text + [t[0]]);
    }
  }

  /** What the scan does at an opening brace. */
  lemma ScanOpen(s: string, text: string)
    requires s != [] && s[0] == '{'
    ensures Scan(s, text) ==
      match Closing(s[1..], 1)
      case None => None
      case Some(n) => Prepended(Flush(text) + [Source(s[1..n + 1])], Scan(s[n + 2..], ""))
  {
  }

  lemma ScanSource(s: string, rest: string, text: string)
    requires Balanced(s, 0)
    ensures Scan("{" + s + "}" + rest, text) == Prepended(Flush(text) + [Source(s)], Scan(rest, ""))
  {
    hide Scan, Flush, Closing;
    var all := "{" + s + "}" + rest;
    assert all[0] == '{' && all[1..] == s + "}" + rest;
    ClosingJoined(s, rest, 0);
    ScanOpen(all, text);
    assert all[|s| + 2..] == rest && all[1..|s| + 1] == s;
  }

  /** Splitting undoes joining, for every normal sequence of parts. */
  lemma {:induction false} SplitJoin(parts: seq<Part>)
    requires Normal(parts)
    ensures Scan(Join(parts), "") == Some(parts) && Split(Join(parts)) == Some(Result(parts))
    decreases |parts|
  {
    hide Scan, Braced, Balanced, BraceFree;
    if parts == [] {
      ScanStops("", "");
    } else {
      match parts[0]
      case Source(s) =>
        assert parts == [Source(s)] + parts[1..];
        SplitJoin(parts[1..]);
        JoinedSource(s, parts[1..], "");
        assert [] + [parts[0]] + parts[1..] == parts;
      case Text(s) =>
        ScanText(s, Join(parts[1..]), "");
        assert "" + s == s;
        if |parts| == 1 {
          assert parts[1..] == [] && parts == [parts[0]];
          ScanStops("", s);
        } else {
          assert parts[1].Source? && parts[1..][1..] == parts[2..];
          SplitJoin(parts[2..]);
          JoinedSource(parts[1].s, parts[2..], s);
          assert parts[1..] == [parts[1]] + parts[2..];
          assert [Text(s)] + [parts[1]] + parts[2..] == parts;
        }
    }
  }

  lemma JoinedSource(s: string, more: seq<Part>, text: string)
    requires Balanced(s, 0)
    ensures Scan(Join([Source(s)] + more), text) == Prepended(Flush(text) + [Source(s)], Scan(Join(more), ""))
  {
    hide Scan, Flush, Balanced;
    assert ([Source(s)] + more)[1..] == more;
    ScanSource(s, Join(more), text);
  }

  // ---- What it does with everything else.

  /** A text is gathered up to its first 4095 characters. */
  lemma {:induction false} TextGathered(t: string, rest: string, text: string)
    requires BraceFree(t) && |text| <= 4095
    ensures Scan(t + rest, text) == Scan(rest, if |text + t| <= 4095 then text + t else (text + t)[..4095])
    decreases |t|
  {
    if t == "" {
      assert t + rest == rest && text + t == text;
    } else {
      assert (t + rest)[0] == t[0] && (t + rest)[1..] == t[1..] + rest;
      var text1 := if |text| < 4095 then text + [t[0]] else text;
      TextGathered(t[1..], rest, text1);
      assert text + [t[0]] + t[1..] == text + t;
      assert |text| == 4095 ==> (text + t)[..4095] == text && (text + t[1..])[..4095] == text;
    }
  }

  /** A closing brace that closes nothing ends the scan, and what follows is dropped. */
  lemma StopsAtBrace(rest: string, text: string)
    ensures Scan("}" + rest, text) == Some(if text == "" then [] else [Text(text)])
  {
  }

  /** An opening brace that nothing closes is an error. */
  lemma UnclosedFails(s: string, text: string)
    requires forall n :: 0 <= n < |s| && s[n] == '}' ==> !Balanced(s[..n], 0)
    ensures Scan("{" + s, text) == None
  {
    assert ("{" + s)[1..] == s;
    if Closing(s, 1).Some? {
      ClosingBalanced(s, 0);
    }
  }

  // ---- And what it finds is normal.

  /** The scan has met no closing brace outside a source and no text too long. */
  predicate Whole(s: string, textLength: nat)
    decreases |s|
  {
    if s == [] then true
    else if s[0] == '{' then (var n := Closing(s[1..], 1); n.Some? && Whole(s[n.value + 2..], 0))
    else if s[0] == '}' then false
    else textLength < MAX_TEXT && Whole(s[1..], textLength + 1)
  }

  lemma {:induction false} ClosingBalanced(s: string, depth: nat)
    requires Closing(s, depth + 1).Some?
    ensures Balanced(s[..Closing(s, depth + 1).value], depth)
    decreases |s|
  {
    var n := Closing(s, depth + 1).value;
    if !(s[0] == '}' && depth == 0) {
      ClosingBalanced(s[1..], if s[0] == '{' then depth + 1 else if s[0] == '}' then depth - 1 else depth);
      assert s[..n][0] == s[0] && s[..n][1..] == s[1..][..n - 1];
    }
  }

  lemma {:induction false} JoinCat(a: seq<Part>, b: seq<Part>)
    ensures Join(a + b) == Join(a) + Join(b)
    decreases |a|
  {
    if a == [] {
      assert a + b == b;
    } else {
      assert (a + b)[1..] == a[1..] + b;
      JoinCat(a[1..], b);
    }
  }

  lemma JoinFlush(text: string)
    ensures Join(Flush(text)) == text
  {
    if text != [] {
      assert [Text(text)][1..] == [];
    }
  }

  /** Every f-string that is split at all is split into normal parts, and joining them gives it
      back if and only if nothing was dropped. */
  lemma {:induction false} ScanNormal(s: string, text: string)
    requires Scan(s, text).Some? && BraceFree(text) && |text| <= MAX_TEXT
    ensures Normal(Scan(s, text).value)
    ensures Join(Scan(s, text).value) == text + s <==> Whole(s, |text|)
    ensures |Join(Scan(s, text).value)| <= |text| + |s|
    decreases |s|, 1
  {
    hide Scan, Closing, Normal, Join, Balanced, Whole, Flush, Braced, BraceFree;
    if s == [] || s[0] == '}' {
      StopNormal(s, text);
    } else if s[0] == '{' {
      BraceNormal(s, text);
    } else {
      OtherStep(s, text);
      ScanNormal(s[1..], if |text| < MAX_TEXT then text + [s[0]] else text);
      OtherCut(s, text);
    }
  }

  lemma {:induction false} BraceNormal(s: string, text: string)
    requires s != [] && s[0] == '{' && Scan(s, text).Some? && BraceFree(text) && |text| <= MAX_TEXT
    ensures Normal(Scan(s, text).value)
    ensures Join(Scan(s, text).value) == text + s <==> Whole(s, |text|)
    ensures |Join(Scan(s, text).value)| <= |text| + |s|
    decreases |s|, 0
  {
    hide Scan, Closing, Normal, Join, Balanced, Whole, Flush, Braced, BraceFree;
    NormalOpen(s, text);
    OpenCut(s, text);
    var n := Closing(s[1..], 1).value;
    var rest := s[n + 2..];
    EmptyFree();
    ScanNormal(rest, "");
    assert "" + rest == rest;
    OpenNormal(s, text, s[1..n + 1], rest);
  }

  lemma EmptyFree()
    ensures BraceFree("")
  {
  }

  lemma StopNormal(s: string, text: string)
    requires (s == [] || s[0] == '}') && BraceFree(text) && |text| <= MAX_TEXT
    ensures Scan(s, text).Some? && Normal(Scan(s, text).value) && |Join(Scan(s, text).value)| <= |text| + |s|
    ensures Join(Scan(s, text).value) == text + s <==> Whole(s, |text|)
  {
    JoinFlush(text);
    if s == [] { assert text + s == text; }
  }

  lemma OtherStep(s: string, text: string)
    requires s != [] && s[0] != '{' && s[0] != '}' && BraceFree(text)
    ensures Scan(s, text) == Scan(s[1..], if |text| < MAX_TEXT then text + [s[0]] else text)
    ensures Whole(s, |text|) == (|text| < MAX_TEXT && Whole(s[1..], |text| + 1))
    ensures BraceFree(text + [s[0]])
  {
  }

  lemma OtherCut(s: string, text: string)
    requires s != []
    ensures text + [s[0]] + s[1..] == text + s && |text + s[1..]| < |text + s|
  {
  }

  lemma NormalOpen(s: string, text: string)
    requires s != [] && s[0] == '{' && Scan(s, text).Some?
    ensures Closing(s[1..], 1).Some? && Scan(s[Closing(s[1..], 1).value + 2..], "").Some?
  {
  }

  lemma OpenCut(s: string, text: string)
    requires s != [] && s[0] == '{' && Closing(s[1..], 1).Some?
    ensures var n := Closing(s[1..], 1).value;
      && s == Braced(s[1..n + 1]) + s[n + 2..] && Balanced(s[1..n + 1], 0) && Whole(s, |text|) == Whole(s[n + 2..], 0)
      && Scan(s, text) == Prepended(Flush(text) + [Source(s[1..n + 1])], Scan(s[n + 2..], ""))
  {
    hide Scan, Closing, Balanced, Whole, Flush, Braced;
    var n := Closing(s[1..], 1).value;
    ScanOpen(s, text);
    ClosingBalanced(s[1..], 0);
    assert s[1..][..n] == s[1..n + 1];
    CutAtBrace(s, n);
    WholeOpen(s, |text|);
  }

  lemma OpenNormal(s: string, text: string, e: string, rest: string)
    requires s != [] && s[0] == '{' && BraceFree(text) && |text| <= MAX_TEXT && s == Braced(e) + rest
    requires Scan(s, text) == Prepended(Flush(text) + [Source(e)], Scan(rest, ""))
    requires Balanced(e, 0) && Whole(s, |text|) == Whole(rest, 0) && Scan(rest, "").Some?
    requires var more := Scan(rest, "").value; Normal(more) && (Join(more) == rest <==> Whole(rest, 0)) && |Join(more)| <= |rest|
    ensures Normal(Scan(s, text).value)
    ensures Join(Scan(s, text).value) == text + s <==> Whole(s, |text|)
    ensures |Join(Scan(s, text).value)| <= |text| + |s|
  {
    hide Scan, Normal, Join, Balanced, Whole, Flush, Braced, BraceFree;
    OpenWhole(text, e, rest, Scan(rest, "").value);
  }

  lemma OpenWhole(text: string, e: string, rest: string, more: seq<Part>)
    requires BraceFree(text) && |text| <= MAX_TEXT && Balanced(e, 0) && Normal(more) && |Join(more)| <= |rest|
    ensures var all := Flush(text) + [Source(e)] + more;
      && Normal(all) && (Join(all) == text + (Braced(e) + rest) <==> Join(more) == rest)
      && |Join(all)| <= |text| + |Braced(e)| + |rest|
  {
    SourceNormal(text, e, more);
    hide Normal, Join, Balanced, Flush, BraceFree, Braced;
    var head := text + Braced(e);
    assert text + (Braced(e) + rest) == head + rest;
    CatSame(head, Join(more), rest);
  }

  lemma CutAtBrace(s: string, n: nat)
    requires s != [] && s[0] == '{' && Closing(s[1..], 1) == Some(n)
    ensures s == Braced(s[1..n + 1]) + s[n + 2..]
  {
    assert s[n + 1] == s[1..][n] == '}';
  }

  lemma WholeOpen(s: string, k: nat)
    requires s != [] && s[0] == '{' && Closing(s[1..], 1).Some?
    ensures Whole(s, k) == Whole(s[Closing(s[1..], 1).value + 2..], 0)
  {
  }

  lemma CatSame(head: string, a: string, b: string)
    ensures head + a == head + b <==> a == b
  {
    assert (head + a)[|head|..] == a && (head + b)[|head|..] == b;
  }

  lemma SourceNormal(text: string, e: string, more: seq<Part>)
    requires BraceFree(text) && |text| <= MAX_TEXT && Balanced(e, 0) && Normal(more)
    ensures Normal(Flush(text) + [Source(e)] + more)
    ensures Join(Flush(text) + [Source(e)] + more) == text + Braced(e) + Join(more)
  {
    FlushNormal(text, e, more);
    JoinFlush(text);
    JoinCat(Flush(text), [Source(e)]);
    JoinCat(Flush(text) + [Source(e)], more);
    JoinSource(e);
  }

  lemma JoinSource(e: string)
    ensures Join([Source(e)]) == Braced(e)
  {
    hide Braced;
    assert [Source(e)][1..] == [] && Braced(e) + "" == Braced(e);
  }

  lemma FlushNormal(text: string, e: string, more: seq<Part>)
    requires BraceFree(text) && |text| <= MAX_TEXT && Balanced(e, 0) && Normal(more)
    ensures Normal(Flush(text) + [Source(e)] + more)
  {
    hide BraceFree, Balanced;
    var all := Flush(text) + [Source(e)] + more;
    var k := |Flush(text)|;
    forall i | 0 <= i < |all| ensures NormalPart(all[i]) {
      if i > k { assert all[i] == more[i - k - 1]; }
    }
    forall i | 0 < i < |all| ensures !(all[i - 1].Text? && all[i].Text?) {
      if i > k + 1 { assert all[i] == more[i - k - 1] && all[i - 1] == more[i - k - 2]; }
    }
  }

  /** What splitting keeps. */
  lemma SplitNormal(raw: string)
    requires Scan(raw, "").Some?
    ensures Normal(Scan(raw, "").value)
    ensures Join(Scan(raw, "").value) == raw <==> Whole(raw, 0)
  {
    ScanNormal(raw, "");
    assert "" + raw == raw;
  }

  /** The scan as it runs: a pointer into the text, a buffer of fixed size, and a counter of open
      braces. */
  method ParseFString(raw: string) returns (r: Option<Literal>)
    ensures r == Split(raw)
  {
    hide Scan, Closing, Flush;
    var parts: seq<Part> := [];
    var buf := new char[MAX_TEXT + 1];
    var len, p := 0, 0;
    ghost var text := "";
    assert raw[0..] == raw && buf[..0] == "";
    PrependedNone(Scan(raw, ""));
    while p < |raw|
      invariant 0 <= p <= |raw| && 0 <= len <= MAX_TEXT && buf[..len] == text
      invariant Scan(raw, "") == Prepended(parts, Scan(raw[p..], text))
      decreases |raw| - p
    {
      if raw[p] == '{' {
        ghost var before := parts;
        FlushIs(text);
        if len > 0 {
          parts := parts + [Text(buf[..len])];
          len := 0;
        }
        assert parts == before + Flush(text);
        OpenStep(raw, p, text, before);
        var start := p + 1;
        var closed: bool;
        closed, p := SkipBraces(raw, start);
        if !closed {
          return None;
        }
        parts := parts + [Source(raw[start..p])];
        assert parts == before + (Flush(text) + [Source(raw[start..p])]);
        p := p + 1;
        text := "";
        assert buf[..0] == "";
      } else {
        assert raw[p..][1..] == raw[p + 1..];
        if raw[p] == '}' {
          break;
        }
        ScanOther(raw[p..], text);
        if len < MAX_TEXT {
          buf[len] := raw[p];
          len := len + 1;
          text := text + [raw[p]];
        }
        p := p + 1;
      }
    }
    ScanStops(raw[p..], text);
    FlushIs(text);
    assert Scan(raw, "") == Some(parts + Flush(text)) && parts + [] == parts;
    if len > 0 {
      parts := parts + [Text(buf[..len])];
    }
    r := Some(Result(parts));
  }

  lemma OpenStep(raw: string, p: nat, text: string, parts: seq<Part>)
    requires p < |raw| && raw[p] == '{'
    ensures Prepended(parts, Scan(raw[p..], text)) ==
      match Closing(raw[p + 1..], 1)
      case None => None
      case Some(n) => Prepended(parts + (Flush(text) + [Source(raw[p + 1..p + 1 + n])]), Scan(raw[p + n + 2..], ""))
  {
    hide Scan, Closing, Flush;
    var here := raw[p..];
    ScanOpen(here, text);
    assert here[1..] == raw[p + 1..];
    var c := Closing(raw[p + 1..], 1);
    if c.Some? {
      assert here[1..c.value + 1] == raw[p + 1..p + 1 + c.value] && here[c.value + 2..] == raw[p + c.value + 2..];
      PrependedTwice(parts, Flush(text) + [Source(raw[p + 1..p + 1 + c.value])], Scan(raw[p + c.value + 2..], ""));
    }
  }

  /** From behind an opening brace to the one that closes it. */
  method SkipBraces(raw: string, start: nat) returns (closed: bool, p: nat)
    requires start <= |raw|
    ensures start <= p <= |raw|
    ensures Closing(raw[start..], 1) == if closed then Some(p - start) else None
    ensures closed ==> p < |raw|
  {
    hide Closing;
    p := start;
    var depth := 1;
    while p < |raw| && depth > 0
      invariant start <= p <= |raw| && depth >= 0
      invariant depth > 0 ==> Closing(raw[start..], 1) == Shifted(p - start, Closing(raw[p..], depth))
      invariant depth == 0 ==> p < |raw| && Closing(raw[start..], 1) == Some(p - start)
      decreases |raw| - p, depth
    {
      ClosingStep(raw[p..], depth);
      assert raw[p..][1..] == raw[p + 1..];
      if raw[p] == '{' {
        depth := depth + 1;
      } else if raw[p] == '}' {
        depth := depth - 1;
      }
      if depth > 0 {
        p := p + 1;
      }
    }
    ClosingEnd(raw[p..], depth);
    closed := depth == 0;
  }

  lemma ClosingStep(s: string, depth: nat)
    requires s != [] && depth > 0
    ensures Closing(s, depth) ==
      if s[0] == '}' && depth == 1 then Some(0)
      else Shifted(1, Closing(s[1..], if s[0] == '{' then depth + 1 else if s[0] == '}' then depth - 1 else depth))
  {
  }

  lemma ClosingEnd(s: string, depth: nat)
    ensures s == "" && depth > 0 ==> Closing(s, depth) == None
  {
  }

  lemma ScanOther(s: string, text: string)
    requires s != [] && s[0] != '{' && s[0] != '}'
    ensures Scan(s, text) == Scan(s[1..], if |text| < MAX_TEXT then text + [s[0]] else text)
  {
  }

  lemma ScanStops(s: string, text: string)
    requires s == [] || s[0] == '}'
    ensures Scan(s, text) == Some(Flush(text))
  {
  }

  lemma FlushIs(text: string)
    ensures Flush(text) == if |text| > 0 then [Text(text)] else []
  {
  }

  ghost function Prepended(parts: seq<Part>, r: Option<seq<Part>>): Option<seq<Part>> {
    match r case None => None case Some(more) => Some(parts + more)
  }

  ghost function Shifted(k: nat, r: Option<nat>): Option<nat> { match r case None => None case Some(n) => Some(n + k) }

  lemma PrependedNone(r: Option<seq<Part>>)
    ensures Prepended([], r) == r
  {
    if r.Some? { assert [] + r.value == r.value; }
  }

  lemma PrependedTwice(a: seq<Part>, b: seq<Part>, r: Option<seq<Part>>)
    ensures Prepended(a, Prepended(b, r)) == Prepended(a + b, r)
  {
    if r.Some? { assert a + (b + r.value) == a + b + r.value; }
  }
}
