/** Integers as text: `int_to_string` and `parse_int` (stdlib/console/console.c:86-119). */

module Decimal {
  import opened Int64

  const MIN: int := -0x8000_0000_0000_0000
  const MAX: int := 0x7fff_ffff_ffff_ffff

  function Digit(d: nat): char
    requires d < 10
  {
    '0' + d as char
  }

  predicate IsDigit(c: char) { '0' <= c <= '9' }

  function DigitValue(c: char): nat
    requires IsDigit(c)
  {
    (c - '0') as nat
  }

  /** The canonical decimal digits of a natural number. */
  function Digits(n: nat): (s: string)
    ensures |s| > 0 && forall i :: 0 <= i < |s| ==> IsDigit(s[i])
  {
    if n < 10 then [Digit(n)] else Digits(n / 10) + [Digit(n % 10)]
  }

  function Text(v: int): string {
    if v < 0 then "-" + Digits(Abs(v)) else Digits(v)
  }

  predicate IsSpace(c: char) {
    c == ' ' || c == '\t' || c == '\n' || c == '\r' || c as int == 11 || c as int == 12
  }

  /** The number a run of digits stands for, `acc` standing for what came before. */
  function Number(s: string, acc: nat): nat {
    if s == [] || !IsDigit(s[0]) then acc else Number(s[1..], 10 * acc + DigitValue(s[0]))
  }

  function Clamp(x: int): i64 {
    if x < MIN then MIN else if x > MAX then MAX else x
  }

  /** `strtol(s, NULL, 10)`, section 7.22.1.4 of C11: white space, a sign, digits, and the
      nearest representable value if theirs is out of range. */
  function ParseInt(s: string): i64 {
    if s != [] && IsSpace(s[0]) then ParseInt(s[1..])
    else if s != [] && s[0] == '-' then Clamp(0 - Number(s[1..], 0))
    else if s != [] && s[0] == '+' then Clamp(Number(s[1..], 0))
    else Clamp(Number(s, 0))
  }

  lemma {:induction false} NumberSnoc(s: string, c: char, acc: nat)
    requires IsDigit(c) && forall i :: 0 <= i < |s| ==> IsDigit(s[i])
    ensures Number(s + [c], acc) == 10 * Number(s, acc) + DigitValue(c)
    decreases |s|
  {
    if s == [] {
      assert s + [c] == [c];
      assert Number([c], acc) == Number([], 10 * acc + DigitValue(c));
    } else {
      assert (s + [c])[1..] == s[1..] + [c];
      NumberSnoc(s[1..], c, 10 * acc + DigitValue(s[0]));
    }
  }

  lemma {:induction false} NumberOfDigits(n: nat)
    ensures Number(Digits(n), 0) == n
    decreases n
  {
    if n >= 10 {
      NumberOfDigits(n / 10);
      NumberSnoc(Digits(n / 10), Digit(n % 10), 0);
    } else {
      assert Number([Digit(n)], 0) == Number([], 10 * 0 + n);
    }
  }

  /** Parsing undoes printing for every 64-bit value. */
  lemma ParseOfText(v: i64)
    ensures ParseInt(Text(v)) == v
  {
    var s := Text(v);
    NumberOfDigits(Abs(v));
    NoLeadingZero(Abs(v));
    assert IsDigit(Digits(Abs(v))[0]);
    if v < 0 {
      assert s[1..] == Digits(Abs(v));
    }
  }

  /** The text is the canonical one: no leading zero. */
  lemma {:induction false} NoLeadingZero(n: nat)
    ensures Digits(n)[0] == '0' <==> n == 0
    ensures n > 0 ==> Digits(n)[0] != '0'
    decreases n
  {
    if n >= 10 {
      NoLeadingZero(n / 10);
    }
  }

  lemma {:induction false} DigitsBound(n: nat, k: nat)
    requires n < Power(k) && 0 < k
    ensures |Digits(n)| <= k
    decreases k
  {
    if n >= 10 {
      DigitsBound(n / 10, k - 1);
    }
  }

  function Power(k: nat): nat { if k == 0 then 1 else 10 * Power(k - 1) }

  /** A 64-bit value has at most 19 digits. */
  lemma Fits(v: i64)
    ensures |Text(v)| <= 20
  {
    assert Power(5) == 100_000;
    assert Power(10) == 100_000 * Power(5);
    assert Power(15) == 100_000 * Power(10);
    assert Power(19) == 10_000 * Power(15);
    DigitsBound(Abs(v), 19);
  }

  lemma LastDigit(n: nat, after: string)
    requires n > 0
    ensures Digits(n) + after == (if n / 10 == 0 then "" else Digits(n / 10)) + ([Digit(n % 10)] + after)
  {
  }

  /** The digit loop, from the end of the buffer; its index stays well inside. */
  method FillDigits(buf: array<char>, v: i64) returns (i: nat)
    requires buf.Length == 32 && v > 0
    modifies buf
    ensures 11 <= i <= 31 && buf[i..31] == Digits(v)
  {
    Fits(v);
    var val: nat := v;
    i := 31;
    assert buf[31..31] == "";
    while val > 0
      invariant i <= 31
      invariant (if val == 0 then "" else Digits(val)) + buf[i..31] == Digits(v)
      decreases val
    {
      LastDigit(val, buf[i..31]);
      assert |Digits(val)| + (31 - i) == |Digits(v)|;
      ghost var after := buf[i..31];
      i := i - 1;
      buf[i] := Digit(val % 10);
      assert buf[i..31] == [Digit(val % 10)] + after;
      val := val / 10;
    }
  }

  /** The digits of what is left after the sign; of the least value there are none. */
  method FillAll(buf: array<char>, val: i64) returns (i: nat)
    requires buf.Length == 32
    modifies buf
    ensures 11 <= i <= 31 && buf[i..31] == if val < 0 then "" else Digits(val)
  {
    i := 31;
    if val == 0 {
      i := i - 1;
      buf[i] := '0';
      assert buf[i..31] == Digits(0);
    } else if val > 0 {
      i := FillDigits(buf, val);
    }
  }

  /** The buffer is filled from its end; negating the least value wraps around to itself, no
      digit is written, and the result is a lone minus sign. */
  method IntToString(v: i64) returns (s: string)
    ensures s == if v == MIN then "-" else Text(v)
  {
    var buf := new char[32];
    var neg := v < 0;
    var val := if neg then Wrap(0 - v) else v;
    var i := FillAll(buf, val);
    if neg {
      ghost var after := buf[i..31];
      i := i - 1;
      buf[i] := '-';
      assert buf[i..31] == ['-'] + after;
    }
    s := buf[i..31];
  }

  /** The round trip holds exactly for the values that can be negated. */
  lemma RoundTripIff(v: i64)
    ensures ParseInt(if v == MIN then "-" else Text(v)) == v <==> v != MIN
  {
    ParseOfText(v);
    assert "-"[1..] == "";
  }

  // ---- What `parse_int` makes of any text.

  predicate Numerals(s: string) { forall i :: 0 <= i < |s| ==> '0' <= s[i] <= '9' }

  /** The number that digits stand for, each worth ten of the one behind it. */
  function Value(s: string): nat
    requires Numerals(s)
  {
    if s == "" then 0 else 10 * Value(s[..|s| - 1]) + (s[|s| - 1] as int - 48)
  }

  /** `r` is the 64-bit number next to `v`. */
  predicate Nearest(v: int, r: int) {
    || (r == v && -9223372036854775808 <= v <= 9223372036854775807)
    || (r == -9223372036854775808 && v < r)
    || (r == 9223372036854775807 && v > r)
  }

  /** White space, a sign or none, digits or none, and what no longer belongs to the number. */
  predicate Shape(w: string, sign: string, ds: string, tail: string) {
    && (forall i :: 0 <= i < |w| ==> w[i] as int == 32 || 9 <= w[i] as int <= 13)
    && (sign == "" || sign == "+" || sign == "-")
    && Numerals(ds) && (tail != "" ==> !('0' <= tail[0] <= '9'))
    && (sign == "" && ds == "" && tail != "" ==> tail[0] != '+' && tail[0] != '-' && tail[0] as int != 32 && !(9 <= tail[0] as int <= 13))
  }

  lemma {:induction false} NumberValue(s: string)
    requires Numerals(s)
    ensures Number(s, 0) == Value(s)
    decreases |s|
  {
    if s != "" {
      NumberValue(s[..|s| - 1]);
      NumberSnoc(s[..|s| - 1], s[|s| - 1], 0);
      assert s == s[..|s| - 1] + [s[|s| - 1]];
    }
  }

  lemma {:induction false} NumberStops(s: string, tail: string, acc: nat)
    requires Numerals(s) && (tail != "" ==> !('0' <= tail[0] <= '9'))
    ensures Number(s + tail, acc) == Number(s, acc)
    decreases |s|
  {
    if s == "" {
      assert s + tail == tail;
    } else {
      assert (s + tail)[1..] == s[1..] + tail;
      NumberStops(s[1..], tail, 10 * acc + DigitValue(s[0]));
    }
  }

  function Signed(sign: string, v: nat): int { if sign == "-" then 0 - v else v }

  lemma ClampNearest(v: int)
    ensures Nearest(v, Clamp(v))
  {
  }

  lemma AtSign(sign: string, ds: string, tail: string)
    requires Shape("", sign, ds, tail)
    ensures Nearest(Signed(sign, Value(ds)), ParseInt(sign + (ds + tail)))
  {
    var rest := ds + tail;
    NumberStops(ds, tail, 0);
    NumberValue(ds);
    ClampNearest(Signed(sign, Value(ds)));
    hide Number, Value, Clamp, Nearest;
    if sign == "" {
      NoSign(ds, tail);
      assert sign + rest == rest;
    } else {
      assert (sign + rest)[1..] == rest && (sign + rest)[0] == sign[0];
    }
  }

  lemma NoSign(ds: string, tail: string)
    requires Shape("", "", ds, tail)
    ensures ParseInt(ds + tail) == Clamp(Number(ds + tail, 0))
  {
    var s := ds + tail;
    if s != "" {
      assert s[0] == if ds != "" then ds[0] else tail[0];
    }
    hide Clamp, Number;
  }

  /** Any text is read as its leading number, or the nearest one there is; without digits as 0. */
  lemma {:induction false} ParseShape(w: string, sign: string, ds: string, tail: string)
    requires Shape(w, sign, ds, tail)
    ensures Nearest(Signed(sign, Value(ds)), ParseInt(w + (sign + (ds + tail))))
    decreases |w|
  {
    var s := sign + (ds + tail);
    if w != "" {
      assert (w + s)[1..] == w[1..] + s;
      ParseShape(w[1..], sign, ds, tail);
    } else {
      assert w + s == s;
      AtSign(sign, ds, tail);
    }
  }

  /** And every text has that shape. */
  lemma {:induction false} ShapeOf(s: string) returns (w: string, sign: string, ds: string, tail: string)
    ensures Shape(w, sign, ds, tail) && s == w + (sign + (ds + tail))
    decreases |s|
  {
    if s != "" && (s[0] as int == 32 || 9 <= s[0] as int <= 13) {
      w, sign, ds, tail := ShapeOf(s[1..]);
      w := [s[0]] + w;
    } else {
      w, sign := "", if s != "" && (s[0] == '+' || s[0] == '-') then s[..1] else "";
      ds, tail := DigitsOf(s[|sign|..]);
      assert s == sign + s[|sign|..];
    }
  }

  lemma {:induction false} DigitsOf(s: string) returns (ds: string, tail: string)
    ensures Numerals(ds) && (tail != "" ==> !('0' <= tail[0] <= '9')) && s == ds + tail
    decreases |s|
  {
    ds, tail := "", s;
    if s != "" && '0' <= s[0] <= '9' {
      ds, tail := DigitsOf(s[1..]);
      ds := [s[0]] + ds;
    }
  }

  /** The canonical digits stand for their number. */
  lemma DigitsValue(n: nat)
    ensures Numerals(Digits(n)) && Value(Digits(n)) == n
  {
    NumberOfDigits(n);
    NumberValue(Digits(n));
  }
}
