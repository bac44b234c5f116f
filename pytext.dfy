/** The two Python text builtins the core relies on: `str.strip()` with no
    argument, and `str(n)` for an integer. */
module PyText {
  import opened Wrappers

  /** The characters for which `c.isspace()` holds: what Python's `str.strip()` removes. */
  const SPACES: set<char> :=
    {'\t', '\n', '\U{000B}', '\U{000C}', '\r', '\U{001C}', '\U{001D}', '\U{001E}', '\U{001F}', ' ',
     '\U{0085}', '\U{00A0}', '\U{1680}', '\U{2000}', '\U{2001}', '\U{2002}', '\U{2003}', '\U{2004}',
     '\U{2005}', '\U{2006}', '\U{2007}', '\U{2008}', '\U{2009}', '\U{200A}', '\U{2028}', '\U{2029}',
     '\U{202F}', '\U{205F}', '\U{3000}'}

  predicate IsSpace(c: char) {
    c in SPACES
  }

  predicate AllSpace(s: string) {
    forall k | 0 <= k < |s| :: IsSpace(s[k])
  }

  /** True when `s` neither starts nor ends with whitespace. */
  predicate Unpadded(s: string) {
    s == [] || (!IsSpace(s[0]) && !IsSpace(s[|s| - 1]))
  }

  /** The number of whitespace characters `s` starts with. */
  function Lead(s: string): (n: nat)
    ensures n <= |s|
    ensures forall k | 0 <= k < n :: IsSpace(s[k])
    ensures n < |s| ==> !IsSpace(s[n])
  {
    if |s| > 0 && IsSpace(s[0]) then 1 + Lead(s[1..]) else 0
  }

  /** The index at which the whitespace `s` ends with begins. */
  function Trail(s: string): (n: nat)
    ensures n <= |s|
    ensures forall k | n <= k < |s| :: IsSpace(s[k])
    ensures n > 0 ==> !IsSpace(s[n - 1])
  {
    if |s| > 0 && IsSpace(s[|s| - 1]) then Trail(s[..|s| - 1]) else |s|
  }

  /** `s.strip()`: `s` without its leading and trailing whitespace. */
  function Strip(s: string): (r: string)
    ensures Unpadded(r)
    ensures var i := Lead(s);
      i + |r| <= |s| && s == s[..i] + r + s[i + |r|..] && AllSpace(s[..i]) && AllSpace(s[i + |r|..])
  {
    var i := Lead(s);
    var j := Trail(s[i..]);
    StripWindow(s, i, j);
    s[i..i + j]
  }

  /** The window `strip` keeps, given where its leading and trailing whitespace end. */
  lemma StripWindow(s: string, i: nat, j: nat)
    requires i <= |s| && (forall k | 0 <= k < i :: IsSpace(s[k])) && (i < |s| ==> !IsSpace(s[i]))
    requires var u := s[i..]; j <= |u| && (forall k | j <= k < |u| :: IsSpace(u[k])) && (j > 0 ==> !IsSpace(u[j - 1]))
    ensures var r := s[i..i + j];
      (Unpadded(r) && s == s[..i] + r + s[i + j..] && AllSpace(s[..i]) && AllSpace(s[i + j..]))
  {
    var u := s[i..];
    var r := s[i..i + j];
    assert r != [] ==> r[0] == s[i] && r[|r| - 1] == u[j - 1];
    var tail := s[i + j..];
    assert forall m | 0 <= m < |tail| :: tail[m] == u[j + m];
    assert s == s[..i] + r + tail;
  }

  /** Only the first non-space position satisfies the contract of `Lead`. */
  lemma LeadUnique(s: string, n: nat)
    requires n <= |s|
    requires forall k | 0 <= k < n :: IsSpace(s[k])
    requires n < |s| ==> !IsSpace(s[n])
    ensures Lead(s) == n
  {
  }

  /** Only the position after the last non-space satisfies the contract of `Trail`. */
  lemma TrailUnique(s: string, n: nat)
    requires n <= |s|
    requires forall k | n <= k < |s| :: IsSpace(s[k])
    requires n > 0 ==> !IsSpace(s[n - 1])
    ensures Trail(s) == n
  {
  }

  /** Text made of whitespace strips to nothing. */
  lemma StripBlank(s: string)
    requires AllSpace(s)
    ensures Strip(s) == []
  {
    LeadUnique(s, |s|);
  }

  /** Whitespace around a non-empty unpadded text is exactly what `strip` removes. */
  lemma StripExact(p: string, r: string, q: string)
    requires AllSpace(p) && AllSpace(q) && Unpadded(r) && r != []
    ensures Strip(p + r + q) == r
  {
    var s := p + r + q;
    assert forall k | 0 <= k < |p| :: s[k] == p[k];
    assert forall k | 0 <= k < |r| :: s[|p| + k] == r[k];
    LeadUnique(s, |p|);
    var u := s[|p|..];
    assert forall k | |r| <= k < |u| :: u[k] == q[k - |r|];
    assert u[|r| - 1] == r[|r| - 1];
    TrailUnique(u, |r|);
  }

  /** An unpadded string is its own strip. */
  lemma StripUnpadded(s: string)
    requires Unpadded(s)
    ensures Strip(s) == s
  {
    if s != [] {
      assert [] + s + [] == s;
      StripExact([], s, []);
    }
  }

  /** `strip` is idempotent. */
  lemma StripIdempotent(s: string)
    ensures Strip(Strip(s)) == Strip(s)
  {
    StripUnpadded(Strip(s));
  }

  /** Whitespace padding on either side does not change what `strip` keeps. */
  lemma {:induction false} StripIgnoresPadding(p: string, s: string, q: string)
    requires AllSpace(p) && AllSpace(q)
    ensures Strip(p + s + q) == Strip(s)
  {
    var i := Lead(s);
    var r := Strip(s);
    var h, t := s[..i], s[i + |r|..];
    if r == [] {
      assert s == h + t;
      AllSpaceConcat(h, t);
      StripBlank(s);
      AllSpacePadded(p, s, q);
      StripBlank(p + s + q);
    } else {
      PaddedExact(p, h, r, t, q);
    }
  }

  lemma PaddedExact(p: string, h: string, r: string, t: string, q: string)
    requires AllSpace(p) && AllSpace(h) && AllSpace(t) && AllSpace(q) && Unpadded(r) && r != []
    ensures Strip(p + (h + r + t) + q) == r
  {
    assert p + (h + r + t) + q == (p + h) + r + (t + q);
    AllSpaceConcat(p, h);
    AllSpaceConcat(t, q);
    StripExact(p + h, r, t + q);
  }

  lemma AllSpacePadded(p: string, s: string, q: string)
    requires AllSpace(p) && AllSpace(s) && AllSpace(q)
    ensures AllSpace(p + s + q)
  {
    AllSpaceConcat(p, s);
    AllSpaceConcat(p + s, q);
  }

  lemma AllSpaceConcat(a: string, b: string)
    requires AllSpace(a) && AllSpace(b)
    ensures AllSpace(a + b)
  {
    assert forall k | |a| <= k < |a + b| :: (a + b)[k] == b[k - |a|];
  }

  // ----- str(n) for integers -----

  predicate IsDigit(c: char) {
    '0' <= c <= '9'
  }

  predicate AllDigits(s: string) {
    forall k | 0 <= k < |s| :: IsDigit(s[k])
  }

  function DigitChar(d: nat): (c: char)
    requires d < 10
    ensures IsDigit(c) && (c as int) - ('0' as int) == d
  {
    ('0' as int + d) as char
  }

  /** `str(n)` for a non-negative integer: decimal digits, no leading zero. */
  function NatToDecimal(n: nat): (r: string)
    ensures r != [] && AllDigits(r)
    ensures r[0] == '0' ==> n == 0 && |r| == 1
  {
    if n < 10 then [DigitChar(n)] else NatToDecimal(n / 10) + [DigitChar(n % 10)]
  }

  /** `str(n)` for any Python integer: a minus sign before the digits of a negative one. */
  function IntToDecimal(n: int): string {
    if n < 0 then "-" + NatToDecimal(-n) else NatToDecimal(n)
  }

  /** The value of a string of decimal digits, read left to right. */
  function DecimalValue(s: string): nat
    requires AllDigits(s)
  {
    if s == [] then 0 else 10 * DecimalValue(s[..|s| - 1]) + ((s[|s| - 1] as int) - ('0' as int))
  }

  /** `int(s)` for the strings `str` produces: an optional minus sign and at least one digit. */
  function ParseInt(s: string): Option<int> {
    if |s| >= 2 && s[0] == '-' && AllDigits(s[1..]) then Some(0 - DecimalValue(s[1..]))
    else if |s| >= 1 && AllDigits(s) then Some(DecimalValue(s))
    else None
  }

  lemma {:induction false} NatToDecimalValue(n: nat)
    ensures DecimalValue(NatToDecimal(n)) == n
  {
    if n >= 10 {
      var s := NatToDecimal(n);
      assert s[..|s| - 1] == NatToDecimal(n / 10);
      NatToDecimalValue(n / 10);
    }
  }

  /** Reading back `str(n)` gives `n`. */
  lemma {:induction false} IntToDecimalRoundTrip(n: int)
    ensures ParseInt(IntToDecimal(n)) == Some(n)
  {
    if n < 0 {
      NatToDecimalValue(-n);
      ParseNegative(NatToDecimal(-n));
    } else {
      NatToDecimalValue(n);
      ParseDigits(NatToDecimal(n));
    }
  }

  lemma ParseNegative(d: string)
    requires d != [] && AllDigits(d)
    ensures ParseInt("-" + d) == Some(0 - DecimalValue(d))
  {
    assert ("-" + d)[1..] == d;
  }

  lemma ParseDigits(d: string)
    requires d != [] && AllDigits(d)
    ensures ParseInt(d) == Some(DecimalValue(d))
  {
    assert IsDigit(d[0]);
  }
}
