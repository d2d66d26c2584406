/**
 * Turning a command's text argument into an integer id, as Python's `int()`
 * does for surrounding ASCII whitespace, an optional sign and ASCII digits,
 * and the decimal rendering of an id that it inverts.
 */
module IntParse {
  import opened Platform

  predicate IsDigit(c: char) {
    '0' <= c <= '9'
  }

  predicate AllDigits(s: string) {
    forall i :: 0 <= i < |s| ==> IsDigit(s[i])
  }

  predicate IsSpace(c: char) {
    c == ' ' || c == '\t' || c == '\n' || c == '\r' || c == '\U{B}' || c == '\U{C}'
  }

  /** Every character of `w` is whitespace. */
  predicate AllSpace(w: string) {
    forall i :: 0 <= i < |w| ==> IsSpace(w[i])
  }

  /** The number of whitespace characters `s` starts with. */
  function LeadingSpace(s: string): (k: nat)
    ensures k <= |s| && AllSpace(s[..k])
    ensures k < |s| ==> !IsSpace(s[k])
  {
    if s != [] && IsSpace(s[0]) then
      var k := 1 + LeadingSpace(s[1..]);
      assert s[..k] == [s[0]] + s[1..][..k - 1];
      k
    else 0
  }

  /** Where the text of `s` ends: the trailing whitespace after `lo` is cut off. */
  function TextEnd(s: string, lo: nat): (e: nat)
    requires lo <= |s|
    ensures lo <= e <= |s| && AllSpace(s[e..])
    ensures e > lo ==> !IsSpace(s[e - 1])
  {
    if |s| > lo && IsSpace(s[|s| - 1]) then
      var e := TextEnd(s[..|s| - 1], lo);
      assert s[e..] == s[..|s| - 1][e..] + [s[|s| - 1]];
      e
    else |s|
  }

  /** `s` without its leading and trailing whitespace, as `str.strip()` finds them. */
  function Trim(s: string): (t: string)
    ensures |t| <= |s|
    ensures t != [] ==> !IsSpace(t[0]) && !IsSpace(t[|t| - 1])
    ensures exists a, b :: 0 <= a <= b <= |s| && t == s[a..b] && AllSpace(s[..a]) && AllSpace(s[b..])
  {
    var a := LeadingSpace(s);
    var b := TextEnd(s, a);
    s[a..b]
  }

  /** The value of a string of decimal digits, most significant first. */
  function DigitsValue(s: string): nat
    requires AllDigits(s)
  {
    if s == [] then 0 else DigitsValue(s[..|s| - 1]) * 10 + ((s[|s| - 1] as int) - ('0' as int))
  }

  /**
   * The most digits `int()` converts from decimal text: beyond it, it raises
   * `ValueError` (the integer string conversion length limit).
   */
  const MAX_STR_DIGITS := 4300

  /** An optional sign followed by at least one and at most `MAX_STR_DIGITS` digits. */
  predicate Numeral(s: string) {
    var body := if s != [] && (s[0] == '+' || s[0] == '-') then s[1..] else s;
    body != [] && AllDigits(body) && |body| <= MAX_STR_DIGITS
  }

  /** `int(s)`: `None` stands for the `ValueError` a malformed argument raises. */
  function ParseInt(s: string): (r: Option<int>)
    ensures r.Some? <==> Numeral(Trim(s))
    ensures |Trim(s)| > MAX_STR_DIGITS + 1 ==> r.None?
  {
    ParseNumeral(Trim(s))
  }

  /** The conversion of the argument once its surrounding whitespace is gone. */
  function ParseNumeral(t: string): (r: Option<int>)
    ensures r.Some? <==> Numeral(t)
  {
    if t == [] then None
    else if t[0] == '+' || t[0] == '-' then
      var body := t[1..];
      if body != [] && AllDigits(body) && |body| <= MAX_STR_DIGITS then Some(if t[0] == '-' then -(DigitsValue(body) as int) else DigitsValue(body) as int)
      else None
    else if AllDigits(t) && |t| <= MAX_STR_DIGITS then Some(DigitsValue(t))
    else None
  }

  /** The decimal digits of `n`, without sign or leading zeros. */
  function Decimal(n: nat): (s: string)
    ensures s != [] && AllDigits(s)
  {
    if n < 10 then ['0' + n as char] else Decimal(n / 10) + ['0' + (n % 10) as char]
  }

  /** The decimal rendering of an integer, with a minus sign when negative. */
  function Show(n: int): string {
    if n < 0 then "-" + Decimal(-n) else Decimal(n)
  }

  lemma {:induction false} DecimalValue(n: nat)
    ensures DigitsValue(Decimal(n)) == n
  {
    if n >= 10 {
      var s := Decimal(n);
      assert s[..|s| - 1] == Decimal(n / 10);
      DecimalValue(n / 10);
    }
  }

  /** `z` zero digits. */
  function Zeros(z: nat): (s: string)
    ensures |s| == z && AllDigits(s)
  {
    seq(z, _ => '0')
  }

  lemma {:induction false} ZerosValue(z: nat)
    ensures DigitsValue(Zeros(z)) == 0
  {
    if z > 0 {
      assert Zeros(z)[..z - 1] == Zeros(z - 1);
      ZerosValue(z - 1);
    }
  }

  /** Leading zeros do not change the value of a digit string. */
  lemma {:induction false} LeadingZerosValue(z: nat, d: string)
    requires AllDigits(d)
    ensures AllDigits(Zeros(z) + d)
    ensures DigitsValue(Zeros(z) + d) == DigitsValue(d)
  {
    var p := Zeros(z) + d;
    if d == [] {
      assert p == Zeros(z);
      ZerosValue(z);
    } else {
      assert p[..|p| - 1] == Zeros(z) + d[..|d| - 1];
      LeadingZerosValue(z, d[..|d| - 1]);
    }
  }

  /** Trimming keeps exactly the stretch between the surrounding whitespace. */
  lemma TrimKeeps(s: string, lo: nat, hi: nat)
    requires lo < hi <= |s|
    requires AllSpace(s[..lo]) && AllSpace(s[hi..])
    requires !IsSpace(s[lo]) && !IsSpace(s[hi - 1])
    ensures Trim(s) == s[lo..hi]
  {
    var a := LeadingSpace(s);
    var b := TextEnd(s, a);
  }

  /** Text that starts and ends with a non-space character survives trimming of surrounding whitespace. */
  lemma TrimSurrounded(w1: string, x: string, w2: string)
    requires AllSpace(w1) && AllSpace(w2)
    requires x != [] && !IsSpace(x[0]) && !IsSpace(x[|x| - 1])
    ensures Trim(w1 + x + w2) == x
  {
    var s := w1 + x + w2;
    var lo, hi := |w1|, |w1| + |x|;
    assert s[..lo] == w1 && s[hi..] == w2 && s[lo..hi] == x;
    assert s[lo] == x[0] && s[hi - 1] == x[|x| - 1];
    TrimKeeps(s, lo, hi);
  }

  /** An optionally signed digit string converts to its signed value. */
  lemma ParseSigned(sign: string, body: string)
    requires sign == "" || sign == "+" || sign == "-"
    requires body != [] && AllDigits(body) && |body| <= MAX_STR_DIGITS
    ensures ParseNumeral(sign + body) == Some(if sign == "-" then -(DigitsValue(body) as int) else DigitsValue(body))
  {
    var t := sign + body;
    if sign == "" {
      assert t == body;
      assert IsDigit(t[0]);
    } else if sign == "+" {
      assert t[0] == '+' && t[1..] == body;
    } else {
      assert t[0] == '-' && t[1..] == body;
    }
  }

  /** A signed, zero-padded decimal neither starts nor ends with whitespace. */
  lemma WrittenNumberEnds(sign: string, z: nat, n: nat)
    requires sign == "" || sign == "+" || sign == "-"
    ensures var x := sign + (Zeros(z) + Decimal(n)); x != [] && !IsSpace(x[0]) && !IsSpace(x[|x| - 1])
  {
    var d := Decimal(n);
    var x := sign + (Zeros(z) + d);
    assert x[|x| - 1] == d[|d| - 1];
    assert IsDigit(x[|x| - 1]);
    if sign == "" {
      assert IsDigit(x[0]) by { LeadingZerosValue(z, d); }
    }
  }

  /** A signed, zero-padded decimal converts to its signed value. */
  lemma ParsePadded(sign: string, z: nat, n: nat)
    requires sign == "" || sign == "+" || sign == "-"
    requires z + |Decimal(n)| <= MAX_STR_DIGITS
    ensures ParseNumeral(sign + (Zeros(z) + Decimal(n))) == Some(if sign == "-" then -(n as int) else n)
  {
    var body := Zeros(z) + Decimal(n);
    LeadingZerosValue(z, Decimal(n));
    DecimalValue(n);
    ParseSigned(sign, body);
  }

  /**
   * Every way of writing a number that `int()` accepts here (surrounding
   * whitespace, an optional sign, leading zeros, at most `MAX_STR_DIGITS`
   * digits) converts to that number.
   */
  lemma ParseWrittenNumber(w1: string, sign: string, z: nat, n: nat, w2: string)
    requires AllSpace(w1) && AllSpace(w2)
    requires sign == "" || sign == "+" || sign == "-"
    requires z + |Decimal(n)| <= MAX_STR_DIGITS
    ensures ParseInt(w1 + (sign + (Zeros(z) + Decimal(n))) + w2) == Some(if sign == "-" then -(n as int) else n)
  {
    WrittenNumberEnds(sign, z, n);
    TrimSurrounded(w1, sign + (Zeros(z) + Decimal(n)), w2);
    ParsePadded(sign, z, n);
  }

  /** `Show(n)` is the unpadded way of writing `n`, with no surrounding whitespace. */
  lemma ShowWritten(n: int)
    ensures Show(n) == "" + ((if n < 0 then "-" else "") + (Zeros(0) + Decimal(if n < 0 then -n else n))) + ""
  {
    var d := Decimal(if n < 0 then -n else n);
    assert Zeros(0) + d == d by { assert Zeros(0) == []; }
    if n >= 0 {
      assert "" + ("" + d) + "" == d;
    } else {
      assert "" + ("-" + d) + "" == "-" + d;
    }
  }

  /** Every integer of at most `MAX_STR_DIGITS` digits, written in decimal, parses back to itself. */
  lemma ParseShow(n: int)
    requires |Decimal(if n < 0 then -n else n)| <= MAX_STR_DIGITS
    ensures ParseInt(Show(n)) == Some(n)
  {
    ShowWritten(n);
    ParseWrittenNumber("", if n < 0 then "-" else "", 0, if n < 0 then -n else n, "");
  }
}
