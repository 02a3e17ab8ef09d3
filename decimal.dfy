/**
 * The two pieces of Go's fmt package that the address text form relies on:
 * printing an `int` with the `%d` verb, and scanning one `%d` verb as
 * fmt.Sscanf does it (leading spaces skipped, a newline refused, an optional
 * sign, one or more decimal digits, the value parsed as a 64-bit `int`).
 * Strings are sequences of code points; fmt reads runes, so the two agree.
 */
module Decimal {
  import opened Wrappers

  /** Range of Go's `int` on a 64-bit platform. */
  const MinInt: int := -0x8000_0000_0000_0000
  const MaxInt: int := 0x7fff_ffff_ffff_ffff

  predicate InRange(x: int) { MinInt <= x <= MaxInt }

  predicate IsDigit(c: char) { '0' <= c <= '9' }

  predicate AllDigits(s: string) { forall i :: 0 <= i < |s| ==> IsDigit(s[i]) }

  predicate IsSign(c: char) { c == '+' || c == '-' }

  /** fmt's table of white space runes (the `space` ranges of fmt's scanner). */
  predicate IsSpace(c: char) {
    var n := c as int;
    || 0x0009 <= n <= 0x000d
    || n == 0x0020
    || n == 0x0085
    || n == 0x00a0
    || n == 0x1680
    || 0x2000 <= n <= 0x200a
    || 0x2028 <= n <= 0x2029
    || n == 0x202f
    || n == 0x205f
    || n == 0x3000
  }

  function DigitChar(d: nat): (c: char)
    requires d < 10
    ensures IsDigit(c)
  {
    ('0' as int + d) as char
  }

  function DigitValue(c: char): (d: nat)
    requires IsDigit(c)
    ensures d < 10
  {
    c as int - '0' as int
  }

  /** `%d` of a non-negative value: its decimal digits, most significant first. */
  function NatDigits(n: nat): (s: string)
    ensures |s| > 0 && AllDigits(s)
    ensures s[0] == '0' <==> n == 0
    decreases n
  {
    if n < 10 then [DigitChar(n)] else NatDigits(n / 10) + [DigitChar(n % 10)]
  }

  /** `%d` of any value: a minus sign before the magnitude when negative. */
  function IntString(x: int): (s: string)
    ensures |s| > 0 && (IsDigit(s[0]) || s[0] == '-')
    ensures s[0] == '-' <==> x < 0
  {
    if x < 0 then "-" + NatDigits(-x) else NatDigits(x)
  }

  /** The value a digit string denotes, accumulated most significant digit first. */
  function DigitsValue(s: string): nat
    requires AllDigits(s)
  {
    if s == [] then 0 else DigitsValue(s[..|s| - 1]) * 10 + DigitValue(s[|s| - 1])
  }

  lemma {:induction false} DigitsValueOfNatDigits(n: nat)
    ensures DigitsValue(NatDigits(n)) == n
  {
    if n >= 10 {
      var s := NatDigits(n);
      assert s[..|s| - 1] == NatDigits(n / 10);
      DigitsValueOfNatDigits(n / 10);
    }
  }

  /** Length of the longest prefix of `s` made of decimal digits. */
  function DigitRun(s: string): (k: nat)
    ensures k <= |s| && AllDigits(s[..k])
    ensures k < |s| ==> !IsDigit(s[k])
  {
    if s == [] || !IsDigit(s[0]) then 0
    else
      var k := 1 + DigitRun(s[1..]);
      assert s[..k] == [s[0]] + s[1..][..k - 1];
      k
  }

  lemma {:induction false} DigitRunOfDigits(ds: string, t: string)
    requires AllDigits(ds)
    requires t == [] || !IsDigit(t[0])
    ensures DigitRun(ds + t) == |ds|
  {
    if ds != [] {
      assert (ds + t)[1..] == ds[1..] + t;
      DigitRunOfDigits(ds[1..], t);
    }
  }

  /**
   * The scanner's SkipSpace as Sscanf runs it: white space is consumed, and
   * meeting a newline is the error "unexpected newline" (`None`). A carriage
   * return before a newline is consumed like any other space, so the newline
   * after it is met all the same.
   */
  function SkipSpace(s: string): (r: Option<string>)
    ensures r.Some? ==> IsSuffix(r.value, s)
    ensures r.Some? ==> r.value == [] || !IsSpace(r.value[0])
    ensures r.Some? ==> forall i :: 0 <= i < |s| - |r.value| ==> IsSpace(s[i]) && s[i] != '\n'
    ensures r.None? <==> exists k :: 0 <= k < |s| && s[k] == '\n' && forall i :: 0 <= i < k ==> IsSpace(s[i])
  {
    if s == [] then Some(s)
    else if s[0] == '\n' then None
    else if IsSpace(s[0]) then
      var r := SkipSpace(s[1..]);
      assert r.None? ==> exists k :: 0 <= k < |s| && s[k] == '\n' && forall i :: 0 <= i < k ==> IsSpace(s[i]) by {
        if r.None? {
          var k :| 0 <= k < |s[1..]| && s[1..][k] == '\n' && forall i :: 0 <= i < k ==> IsSpace(s[1..][i]);
          assert s[k + 1] == '\n' && forall i :: 0 <= i < k + 1 ==> IsSpace(s[i]);
        }
      }
      r
    else Some(s)
  }

  /**
   * One `%d` verb of fmt.Sscanf applied to the front of `s`: the value read and
   * the text after it, or `None` when the scanner stops with an error (nothing
   * but spaces, a newline, no digit after the optional sign, or a value strconv
   * rejects as out of range for a 64-bit `int`).
   */
  function ScanInt(s: string): (r: Option<(int, string)>)
    ensures r.Some? ==> InRange(r.value.0)
    ensures r.Some? ==> |r.value.1| < |s| && IsSuffix(r.value.1, s)
    ensures r.Some? ==> r.value.1 == [] || !IsDigit(r.value.1[0])
  {
    match SkipSpace(s)
    case None => None
    case Some(u) =>
      if u == [] then None
      else if IsSign(u[0]) then
        var r := ScanDigits(u[1..], u[0] == '-');
        SuffixTransitive(if r.Some? then r.value.1 else [], u[1..], u);
        SuffixTransitive(if r.Some? then r.value.1 else [], u, s);
        r
      else
        var r := ScanDigits(u, false);
        SuffixTransitive(if r.Some? then r.value.1 else [], u, s);
        r
  }

  predicate IsSuffix(t: string, s: string) {
    |t| <= |s| && t == s[|s| - |t|..]
  }

  lemma SuffixTransitive(w: string, u: string, s: string)
    requires IsSuffix(u, s)
    ensures IsSuffix(w, u) ==> IsSuffix(w, s)
  {
    if IsSuffix(w, u) {
      assert s[|s| - |w|..] == s[|s| - |u|..][|u| - |w|..];
    }
  }

  /** The digits after the optional sign: at least one, and a value that fits 64 bits. */
  function ScanDigits(body: string, negative: bool): (r: Option<(int, string)>)
    ensures r.Some? ==> InRange(r.value.0)
    ensures r.Some? ==> |r.value.1| < |body| && IsSuffix(r.value.1, body)
    ensures r.Some? ==> r.value.1 == [] || !IsDigit(r.value.1[0])
  {
    var k := DigitRun(body);
    if k == 0 then None
    else
      var magnitude: int := DigitsValue(body[..k]);
      var v := if negative then -magnitude else magnitude;
      if InRange(v) then Some((v, body[k..])) else None
  }

  /** The digits of a printed magnitude are read back as that magnitude, signed as asked. */
  lemma ScanDigitsOfNatDigits(n: nat, negative: bool, t: string)
    requires t == [] || !IsDigit(t[0])
    ensures var v: int := if negative then -(n as int) else n;
      ScanDigits(NatDigits(n) + t, negative) == if InRange(v) then Some((v, t)) else None
  {
    var ds := NatDigits(n);
    DigitRunOfDigits(ds, t);
    assert (ds + t)[..|ds|] == ds;
    assert (ds + t)[|ds|..] == t;
    DigitsValueOfNatDigits(n);
  }

  /** The scan starts at the first character of a printed value. */
  lemma SkipSpaceOfIntString(x: int, t: string)
    ensures SkipSpace(IntString(x) + t) == Some(IntString(x) + t)
  {
  }

  /** Scanning what `%d` printed gives back the value and leaves the rest of the text. */
  lemma ScanIntString(x: int, t: string)
    requires InRange(x)
    requires t == [] || !IsDigit(t[0])
    ensures ScanInt(IntString(x) + t) == Some((x, t))
  {
    ScanIntPrinted(x, t);
  }

  /** A printed value outside the 64-bit range makes the scan fail. */
  lemma ScanIntOverflow(x: int, t: string)
    requires !InRange(x)
    requires t == [] || !IsDigit(t[0])
    ensures ScanInt(IntString(x) + t) == None
  {
    ScanIntPrinted(x, t);
  }

  lemma ScanIntPrinted(x: int, t: string)
    requires t == [] || !IsDigit(t[0])
    ensures ScanInt(IntString(x) + t) == if InRange(x) then Some((x, t)) else None
  {
    if x < 0 {
      ScanNegative(-x, t);
    } else {
      ScanNonNegative(x, t);
    }
  }

  /** Scanning `-` and printed digits. */
  lemma ScanNegative(n: nat, t: string)
    requires n > 0 && (t == [] || !IsDigit(t[0]))
    ensures var x := -(n as int); ScanInt(IntString(x) + t) == if InRange(x) then Some((x, t)) else None
  {
    var x := -(n as int);
    var body := NatDigits(n) + t;
    var s := "-" + body;
    assert IntString(x) + t == s;
    SkipSpaceOfIntString(x, t);
    assert s[1..] == body;
    ScanSigned(s);
    ScanDigitsOfNatDigits(n, true, t);
  }

  /** Scanning printed digits with no sign. */
  lemma ScanNonNegative(n: nat, t: string)
    requires t == [] || !IsDigit(t[0])
    ensures ScanInt(IntString(n) + t) == if InRange(n) then Some((n as int, t)) else None
  {
    var s := IntString(n) + t;
    SkipSpaceOfIntString(n, t);
    assert s == NatDigits(n) + t && IsDigit(s[0]);
    ScanUnsigned(s);
    ScanDigitsOfNatDigits(n, false, t);
  }

  /** With no space to skip, a sign is read and the digits after it are scanned. */
  lemma ScanSigned(s: string)
    requires SkipSpace(s) == Some(s) && s != [] && IsSign(s[0])
    ensures ScanInt(s) == ScanDigits(s[1..], s[0] == '-')
  {
  }

  /** With no space to skip and no sign, the digits are scanned from the start. */
  lemma ScanUnsigned(s: string)
    requires SkipSpace(s) == Some(s) && s != [] && !IsSign(s[0])
    ensures ScanInt(s) == ScanDigits(s, false)
  {
  }

  /** Text that cannot start an integer (nothing, or a character that is no space, sign or digit) fails the scan. */
  lemma ScanIntNoInteger(u: string)
    requires u == [] || !(IsSpace(u[0]) || IsSign(u[0]) || IsDigit(u[0]))
    ensures ScanInt(u) == None
  {
    assert SkipSpace(u) == Some(u);
    if u != [] {
      ScanUnsigned(u);
    }
  }

  /**
   * After the leading spaces `u[..k]`, none of them a newline, no integer starts:
   * the text ends, a newline comes, a character that is no space, sign or digit
   * comes, or a sign comes with no digit after it.
   */
  predicate NoIntegerAfterSpaces(u: string, k: nat)
  {
    k <= |u| && (forall i :: 0 <= i < k ==> IsSpace(u[i]) && u[i] != '\n') &&
    (k == |u| || u[k] == '\n' || !(IsSpace(u[k]) || IsSign(u[k]) || IsDigit(u[k])) ||
     (IsSign(u[k]) && (k + 1 == |u| || !IsDigit(u[k + 1]))))
  }

  /** Spaces other than a newline are skipped one by one. */
  lemma {:induction false} SkipLeadingSpace(u: string, k: nat)
    requires k <= |u| && forall i :: 0 <= i < k ==> IsSpace(u[i]) && u[i] != '\n'
    ensures SkipSpace(u) == SkipSpace(u[k..])
    decreases k
  {
    if k > 0 {
      assert IsSpace(u[0]) && u[0] != '\n';
      assert forall i :: 0 <= i < k - 1 ==> u[1..][i] == u[i + 1];
      SkipLeadingSpace(u[1..], k - 1);
      assert u[1..][k - 1..] == u[k..];
    }
  }

  /** Every way of finding no integer after the leading spaces fails the scan. */
  lemma ScanIntNoDigits(u: string, k: nat)
    requires NoIntegerAfterSpaces(u, k)
    ensures ScanInt(u) == None
  {
    SkipLeadingSpace(u, k);
    var v := u[k..];
    if v != [] && v[0] != '\n' {
      if IsSign(v[0]) {
        assert SkipSpace(v) == Some(v);
        assert v[1..] == [] || v[1..][0] == u[k + 1];
        assert DigitRun(v[1..]) == 0;
      } else {
        ScanIntNoInteger(v);
      }
    }
  }
}
