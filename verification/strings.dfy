/** String helpers for the parts of Python's `str` that the plugin relies on:
    decimal formatting of integers (`"{}".format(n)`), `rfind`, `find`,
    ASCII `lower()`, `strip(chars)` for a single character, and character
    counting. */
module Strings {
  import opened Wrappers

  predicate StartsWith(s: string, prefix: string) {
    |prefix| <= |s| && s[..|prefix|] == prefix
  }

  predicate EndsWith(s: string, suffix: string) {
    |suffix| <= |s| && s[|s| - |suffix|..] == suffix
  }

  // ---------------------------------------------------------------------
  // Decimal digits

  predicate IsDigit(c: char) {
    '0' <= c <= '9'
  }

  predicate AllDigits(s: string) {
    forall i :: 0 <= i < |s| ==> IsDigit(s[i])
  }

  function DigitValue(c: char): nat
    requires IsDigit(c)
  {
    c as int - '0' as int
  }

  function DigitChar(d: nat): (c: char)
    requires d < 10
    ensures IsDigit(c) && DigitValue(c) == d
  {
    ('0' as int + d) as char
  }

  /** Python's `str(n)` for a non-negative integer: shortest decimal form. */
  function NatToString(n: nat): (s: string)
    ensures |s| > 0 && AllDigits(s)
    ensures s[0] == '0' ==> n == 0
    decreases n
  {
    if n < 10 then [DigitChar(n)] else NatToString(n / 10) + [DigitChar(n % 10)]
  }

  /** The value of a string of decimal digits (the empty string reads as 0). */
  function ParseDigits(s: string): nat
    requires AllDigits(s)
  {
    if s == [] then 0 else ParseDigits(s[..|s| - 1]) * 10 + DigitValue(s[|s| - 1])
  }

  lemma {:induction false} ParseNatToString(n: nat)
    ensures ParseDigits(NatToString(n)) == n
    decreases n
  {
    if n >= 10 {
      var s := NatToString(n);
      assert s[..|s| - 1] == NatToString(n / 10);
      ParseNatToString(n / 10);
    }
  }

  lemma NatToStringInjective(a: nat, b: nat)
    requires NatToString(a) == NatToString(b)
    ensures a == b
  {
    ParseNatToString(a);
    ParseNatToString(b);
  }

  /** Python's `str(i)` for any integer: a '-' sign before the digits of a
      negative value. */
  function IntToString(i: int): (s: string)
    ensures |s| > 0
    ensures s[0] == '-' <==> i < 0
    ensures i < 0 ==> AllDigits(s[1..]) && |s| > 1
    ensures i >= 0 ==> AllDigits(s)
  {
    if i < 0 then "-" + NatToString(-i) else NatToString(i)
  }

  /** Reads back what `IntToString` writes; `None` for anything else that is
      not an optional '-' followed by at least one digit. */
  function ParseInt(s: string): (r: Option<int>)
    ensures r.Some? && r.value < 0 ==> |s| > 0 && s[0] == '-'
  {
    if |s| > 0 && s[0] == '-' then
      if |s| > 1 && AllDigits(s[1..]) then Some(-(ParseDigits(s[1..]) as int)) else None
    else if |s| > 0 && AllDigits(s) then Some(ParseDigits(s) as int)
    else None
  }

  lemma ParseIntToString(i: int)
    ensures ParseInt(IntToString(i)) == Some(i)
  {
    if i < 0 {
      assert IntToString(i)[1..] == NatToString(-i);
      ParseNatToString(-i);
    } else {
      ParseNatToString(i);
    }
  }

  lemma IntToStringInjective(a: int, b: int)
    requires IntToString(a) == IntToString(b)
    ensures a == b
  {
    ParseIntToString(a);
    ParseIntToString(b);
  }

  // ---------------------------------------------------------------------
  // Character search and counting

  /** Python's `s.rfind(c)`, with `None` in place of -1. */
  function LastIndexOf(s: string, c: char): (r: Option<nat>)
    ensures r.Some? ==> r.value < |s| && s[r.value] == c
                        && forall j :: r.value < j < |s| ==> s[j] != c
    ensures r.None? ==> forall j :: 0 <= j < |s| ==> s[j] != c
  {
    if s == [] then None
    else if s[|s| - 1] == c then Some(|s| - 1)
    else LastIndexOf(s[..|s| - 1], c)
  }

  /** The position `rfind` reports is the only one satisfying its contract. */
  lemma LastIndexOfAt(s: string, c: char, k: nat)
    requires k < |s| && s[k] == c
    requires forall j :: k < j < |s| ==> s[j] != c
    ensures LastIndexOf(s, c) == Some(k)
  {
  }

  /** Python's `s.find(c)`, with `None` in place of -1. */
  function IndexOf(s: string, c: char): (r: Option<nat>)
    ensures r.Some? ==> r.value < |s| && s[r.value] == c
                        && forall j :: 0 <= j < r.value ==> s[j] != c
    ensures r.None? ==> forall j :: 0 <= j < |s| ==> s[j] != c
  {
    if s == [] then None
    else if s[0] == c then Some(0)
    else match IndexOf(s[1..], c)
      case None => None
      case Some(k) => Some(k + 1)
  }

  lemma IndexOfAt(s: string, c: char, k: nat)
    requires k < |s| && s[k] == c
    requires forall j :: 0 <= j < k ==> s[j] != c
    ensures IndexOf(s, c) == Some(k)
  {
  }

  /** Python's `s.count(c)` for a single character. */
  function Count(s: string, c: char): nat
  {
    if s == [] then 0 else (if s[0] == c then 1 else 0) + Count(s[1..], c)
  }

  lemma {:induction false} CountAppend(a: string, b: string, c: char)
    ensures Count(a + b, c) == Count(a, c) + Count(b, c)
  {
    if a == [] {
      assert a + b == b;
    } else {
      assert (a + b)[1..] == a[1..] + b;
      CountAppend(a[1..], b, c);
    }
  }

  lemma {:induction false} CountAbsent(s: string, c: char)
    requires forall j :: 0 <= j < |s| ==> s[j] != c
    ensures Count(s, c) == 0
  {
    if s != [] {
      CountAbsent(s[1..], c);
    }
  }

  // ---------------------------------------------------------------------
  // Case and stripping

  /** `str.lower()` restricted to ASCII: 'A'..'Z' become 'a'..'z'. */
  function LowerChar(c: char): char {
    if 'A' <= c <= 'Z' then (c as int + 32) as char else c
  }

  predicate IsUpper(c: char) {
    'A' <= c <= 'Z'
  }

  function Lower(s: string): (r: string)
    ensures |r| == |s|
    ensures forall i :: 0 <= i < |s| ==> r[i] == LowerChar(s[i])
  {
    if s == [] then [] else [LowerChar(s[0])] + Lower(s[1..])
  }

  /** Lower-casing leaves no ASCII capital, changes nothing else, and is idempotent. */
  lemma LowerProperties(s: string)
    ensures forall i :: 0 <= i < |s| ==> !IsUpper(Lower(s)[i])
    ensures forall i :: 0 <= i < |s| ==> !IsUpper(s[i]) ==> Lower(s)[i] == s[i]
    ensures Lower(Lower(s)) == Lower(s)
  {
  }

  /** Python's `s.lstrip(c)` for a single character. */
  function StripLeading(s: string, c: char): (r: string)
    ensures |r| <= |s| && r == s[|s| - |r|..]
    ensures forall i :: 0 <= i < |s| - |r| ==> s[i] == c
    ensures |r| > 0 ==> r[0] != c
  {
    if |s| > 0 && s[0] == c then StripLeading(s[1..], c) else s
  }

  /** Python's `s.rstrip(c)` for a single character. */
  function StripTrailing(s: string, c: char): (r: string)
    ensures |r| <= |s| && r == s[..|r|]
    ensures forall i :: |r| <= i < |s| ==> s[i] == c
    ensures |r| > 0 ==> r[|r| - 1] != c
  {
    if |s| > 0 && s[|s| - 1] == c then StripTrailing(s[..|s| - 1], c) else s
  }

  /** Python's `s.strip(c)` for a single character: both ends. */
  function Strip(s: string, c: char): (r: string)
  {
    StripTrailing(StripLeading(s, c), c)
  }

  /** Stripping `c` from `c` followed by text free of `c` removes exactly
      the leading `c`. */
  lemma StripSingleLeading(x: string, c: char)
    requires |x| > 0
    requires forall j :: 0 <= j < |x| ==> x[j] != c
    ensures Strip([c] + x, c) == x
  {
    assert ([c] + x)[1..] == x;
    assert StripLeading([c] + x, c) == StripLeading(x, c) == x;
    assert StripTrailing(x, c) == x;
  }
}
