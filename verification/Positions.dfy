/** Lines and columns, and the way back from them (src/frontend/lexer.c:18-26, src/error.c:31-42). */

module Positions {
  import opened Lexing

  /** One more than the newlines before `p`. */
  function LineOf(src: Source, p: nat): nat
    requires p <= |src|
  {
    if p == 0 then 1 else LineOf(src, p - 1) + if src[p - 1] == '\n' then 1 else 0
  }

  /** Just after the last newline before `p`. */
  function LineStart(src: Source, p: nat): (r: nat)
    requires p <= |src|
    ensures r <= p
  {
    if p == 0 || src[p - 1] == '\n' then p else LineStart(src, p - 1)
  }

  function ColOf(src: Source, p: nat): nat
    requires p <= |src|
  {
    p - LineStart(src, p) + 1
  }

  lemma {:induction false} LinesGrow(src: Source, p: nat, q: nat)
    requires p <= q <= |src|
    ensures 1 <= LineOf(src, p) <= LineOf(src, q)
    decreases q
  {
    if p < q {
      LinesGrow(src, p, q - 1);
    } else if p > 0 {
      LinesGrow(src, p - 1, q - 1);
    }
  }

  /** All positions of a line have its start. */
  lemma {:induction false} OneStart(src: Source, p: nat, q: nat)
    requires p <= |src| && q <= |src| && LineStart(src, p) == p && LineOf(src, q) == LineOf(src, p)
    ensures LineStart(src, q) == p
    decreases q
  {
    if q < p {
      LinesGrow(src, q, p - 1);
    } else if q > p {
      LinesGrow(src, p, q - 1);
      OneStart(src, p, q - 1);
    }
  }

  /** `find_line`: from the start it finds for a position's line, the column leads back to the
      position. */
  method FindLine(src: Source, lineNum: nat) returns (start: nat, end: nat)
    ensures start <= end <= |src| && end == LineEnd(src, start)
    ensures forall p: nat :: p <= |src| && LineOf(src, p) == lineNum ==> start + ColOf(src, p) - 1 == p
  {
    var p, line := 0, 1;
    while p < |src| && line < lineNum
      invariant p <= |src| && line == LineOf(src, p)
      invariant lineNum == 0 || line < lineNum || (line == lineNum && LineStart(src, p) == p)
    {
      if src[p] == '\n' {
        line := line + 1;
      }
      p := p + 1;
    }
    start := p;
    forall q: nat | q <= |src| && LineOf(src, q) == lineNum ensures LineStart(src, q) == start {
      LinesGrow(src, q, |src|);
      if line == lineNum {
        OneStart(src, start, q);
      }
    }
    while p < |src| && src[p] != '\n'
      invariant start <= p <= |src| && LineEnd(src, start) == LineEnd(src, p)
    {
      p := p + 1;
    }
    end := p;
  }

  /** A line and a column belong to one position. */
  lemma SameSpot(src: Source, p: nat, q: nat)
    requires p <= |src| && q <= |src| && LineOf(src, p) == LineOf(src, q) && ColOf(src, p) == ColOf(src, q)
    ensures p == q
  {
    StartsLine(src, p);
    OneStart(src, LineStart(src, p), p);
    OneStart(src, LineStart(src, p), q);
  }

  lemma {:induction false} StartsLine(src: Source, p: nat)
    requires p <= |src|
    ensures LineStart(src, LineStart(src, p)) == LineStart(src, p) && LineOf(src, LineStart(src, p)) == LineOf(src, p)
    decreases p
  {
    if p > 0 && src[p - 1] != '\n' {
      StartsLine(src, p - 1);
    }
  }

  /** The newlines in a text. */
  function Newlines(s: string): nat { if s == "" then 0 else Newlines(s[1..]) + if s[0] == '\n' then 1 else 0 }

  lemma {:induction false} NewlinesSnoc(s: string, c: char)
    ensures Newlines(s + [c]) == Newlines(s) + if c == '\n' then 1 else 0
    decreases |s|
  {
    if s == "" {
      assert [c][1..] == "" && s + [c] == [c];
    } else {
      assert (s + [c])[1..] == s[1..] + [c];
      NewlinesSnoc(s[1..], c);
    }
  }

  /** A line is one more than the newlines in front, a column one more than the characters behind the
      last of them. */
  lemma {:induction false} PlaceIs(src: Source, p: nat)
    requires p <= |src|
    ensures LineOf(src, p) == Newlines(src[..p]) + 1
    ensures var n := ColOf(src, p) - 1; 0 <= n <= p && '\n' !in src[p - n..p] && (n == p || src[p - n - 1] == '\n')
    decreases p
  {
    if p > 0 {
      PlaceIs(src, p - 1);
      assert src[..p] == src[..p - 1] + [src[p - 1]];
      NewlinesSnoc(src[..p - 1], src[p - 1]);
      if src[p - 1] != '\n' {
        var n := ColOf(src, p - 1) - 1;
        assert src[p - 1 - n..p] == src[p - 1 - n..p - 1] + [src[p - 1]];
      }
    }
  }
}
