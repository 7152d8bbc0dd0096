/** Decimal rendering and parsing of integers, as done by Go's `%v`/`%d`,
    `strconv.ParseInt`, PostgreSQL's `CONCAT`/`LPAD` and `CAST(... AS BIGINT)`,
    plus the string joining the ledger uses to build SQL lists and JSON text. */
module Text {

  predicate IsDigit(c: char) {
    '0' <= c <= '9'
  }

  predicate AllDigits(s: string) {
    forall i :: 0 <= i < |s| ==> IsDigit(s[i])
  }

  /** A decimal numeral as printed by Go or PostgreSQL: no sign, no leading zero. */
  predicate Canonical(s: string) {
    |s| > 0 && AllDigits(s) && (s[0] == '0' ==> |s| == 1)
  }

  function DigitChar(d: nat): (c: char)
    requires d < 10
    ensures IsDigit(c)
  {
    ('0' as int + d) as char
  }

  function DigitValue(c: char): (d: nat)
    requires IsDigit(c)
    ensures d < 10 && DigitChar(d) == c
  {
    c as int - '0' as int
  }

  /** `%v` of a non-negative integer. */
  function NatToString(n: nat): (s: string)
    decreases n
  {
    if n < 10 then [DigitChar(n)] else NatToString(n / 10) + [DigitChar(n % 10)]
  }

  /** `%v` of a (possibly negative) int64. */
  function IntToString(i: int): string {
    if i < 0 then "-" + NatToString(-i) else NatToString(i)
  }

  /** The value of a string of decimal digits (the empty string reads as 0). */
  function ParseNat(s: string): nat
    requires AllDigits(s)
    decreases |s|
  {
    if |s| == 0 then 0 else ParseNat(s[..|s| - 1]) * 10 + DigitValue(s[|s| - 1])
  }

  /** `%02d` / `LPAD(x, 2, '0')` for values below 100. */
  function Pad2(n: nat): string {
    if n < 10 then "0" + NatToString(n) else NatToString(n)
  }

  /** `strings.Join` */
  function Join(parts: seq<string>, sep: string): string
    decreases |parts|
  {
    if |parts| == 0 then ""
    else if |parts| == 1 then parts[0]
    else Join(parts[..|parts| - 1], sep) + sep + parts[|parts| - 1]
  }

  /** `strings.Contains` */
  predicate Contains(s: string, sub: string) {
    exists i :: 0 <= i <= |s| - |sub| && OccursAt(s, sub, i)
  }

  predicate OccursAt(s: string, sub: string, i: int) {
    0 <= i <= |s| - |sub| && s[i..i + |sub|] == sub
  }

  lemma {:induction false} NatToStringCanonical(n: nat)
    ensures Canonical(NatToString(n))
    ensures n < 10 ==> |NatToString(n)| == 1
    ensures n >= 10 ==> |NatToString(n)| >= 2
    decreases n
  {
    if n >= 10 {
      NatToStringCanonical(n / 10);
      var s := NatToString(n);
      assert s == NatToString(n / 10) + [DigitChar(n % 10)];
      assert s[0] == NatToString(n / 10)[0];
      forall i | 0 <= i < |s| ensures IsDigit(s[i]) {
        if i < |s| - 1 { assert s[i] == NatToString(n / 10)[i]; }
      }
    }
  }

  /** Parsing undoes printing. */
  lemma {:induction false} ParseNatToString(n: nat)
    ensures AllDigits(NatToString(n)) && ParseNat(NatToString(n)) == n
    decreases n
  {
    NatToStringCanonical(n);
    var s := NatToString(n);
    if n >= 10 {
      ParseNatToString(n / 10);
      assert s[..|s| - 1] == NatToString(n / 10);
      assert ParseNat(s) == ParseNat(NatToString(n / 10)) * 10 + DigitValue(DigitChar(n % 10));
    } else {
      assert s[..0] == "";
    }
  }

  lemma NatToStringInjective(a: nat, b: nat)
    requires NatToString(a) == NatToString(b)
    ensures a == b
  {
    ParseNatToString(a);
    ParseNatToString(b);
  }

  lemma {:induction false} ParseNatPositive(s: string)
    requires Canonical(s) && s[0] != '0'
    ensures ParseNat(s) > 0
    decreases |s|
  {
    if |s| > 1 {
      var init := s[..|s| - 1];
      assert init[0] == s[0];
      ParseNatPositive(init);
    }
  }

  /** Printing undoes parsing on canonical numerals. */
  lemma {:induction false} NatToStringParseNat(s: string)
    requires Canonical(s)
    ensures NatToString(ParseNat(s)) == s
    decreases |s|
  {
    var v := ParseNat(s);
    var last := DigitValue(s[|s| - 1]);
    if |s| == 1 {
      assert s[..0] == "";
      assert ParseNat(s[..0]) == 0;
      assert v == last;
      assert NatToString(v) == [DigitChar(last)];
    } else {
      var init := s[..|s| - 1];
      assert init[0] == s[0];
      NatToStringParseNat(init);
      ParseNatPositive(init);
      var p := ParseNat(init);
      assert v == p * 10 + last;
      assert v / 10 == p && v % 10 == last;
      assert NatToString(v) == NatToString(p) + [DigitChar(last)];
      assert s == init + [s[|s| - 1]];
    }
  }

  /** Two canonical numerals are equal exactly when their values are. */
  lemma ParseNatInjective(s: string, t: string)
    requires Canonical(s) && Canonical(t) && ParseNat(s) == ParseNat(t)
    ensures s == t
  {
    NatToStringParseNat(s);
    NatToStringParseNat(t);
  }

  lemma IntToStringInjective(a: int, b: int)
    requires IntToString(a) == IntToString(b)
    ensures a == b
  {
    NatToStringCanonical(if a < 0 then -a else a);
    NatToStringCanonical(if b < 0 then -b else b);
    if a < 0 && b < 0 {
      assert NatToString(-a) == IntToString(a)[1..];
      assert NatToString(-b) == IntToString(b)[1..];
      NatToStringInjective(-a, -b);
    } else if a >= 0 && b >= 0 {
      NatToStringInjective(a, b);
    }
  }

  lemma AllDigitsConcat(a: string, b: string)
    requires AllDigits(a) && AllDigits(b)
    ensures AllDigits(a + b)
  {
    forall i | 0 <= i < |a + b| ensures IsDigit((a + b)[i]) {
      if i >= |a| { assert (a + b)[i] == b[i - |a|]; }
    }
  }

  /** A common prefix and suffix cancel. */
  lemma CancelAffixes(p: string, x: string, y: string, q: string)
    requires p + x + q == p + y + q
    ensures x == y
  {
    var l := p + x + q;
    var r := p + y + q;
    assert |x| == |y|;
    forall i | 0 <= i < |x| ensures x[i] == y[i] {
      assert l[|p| + i] == x[i];
      assert r[|p| + i] == y[i];
    }
  }

  lemma Pad2Length(n: nat)
    requires n < 100
    ensures |Pad2(n)| == 2 && AllDigits(Pad2(n))
  {
    NatToStringCanonical(n);
    if n >= 10 {
      NatToStringCanonical(n / 10);
      assert |NatToString(n)| == |NatToString(n / 10)| + 1;
    } else {
      AllDigitsConcat("0", NatToString(n));
    }
  }

  lemma Pad2Injective(a: nat, b: nat)
    requires a < 100 && b < 100 && Pad2(a) == Pad2(b)
    ensures a == b
  {
    NatToStringCanonical(a);
    NatToStringCanonical(b);
    if a < 10 && b < 10 {
      assert NatToString(a) == Pad2(a)[1..];
      assert NatToString(b) == Pad2(b)[1..];
      NatToStringInjective(a, b);
    } else if a >= 10 && b >= 10 {
      NatToStringInjective(a, b);
    }
  }

  lemma FourDigitLength(n: nat)
    requires 1000 <= n <= 9999
    ensures |NatToString(n)| == 4
  {
    NatToStringCanonical(n / 1000);
    assert NatToString(n / 100) == NatToString(n / 100 / 10) + [DigitChar(n / 100 % 10)];
    assert n / 100 / 10 == n / 1000;
    assert NatToString(n / 10) == NatToString(n / 10 / 10) + [DigitChar(n / 10 % 10)];
    assert n / 10 / 10 == n / 100;
  }

  /** The joined text has one separator between consecutive parts. */
  lemma {:induction false} JoinStep(parts: seq<string>, sep: string, x: string)
    ensures Join(parts + [x], sep) == if |parts| == 0 then x else Join(parts, sep) + sep + x
  {
    var ps := parts + [x];
    assert ps[..|ps| - 1] == parts;
  }
}
