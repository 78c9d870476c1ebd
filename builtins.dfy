/**
 * The small part of Python's runtime that the report compiler relies on:
 * the values a spreadsheet cell or a dictionary slot can hold, the exceptions
 * the compiler raises or catches, and the string builtins it calls
 * (`int()`, `float()`, `str.isnumeric()`, `str.strip(chars)`,
 * `str.replace(old, new)`, the substring test `in`, `str(n)`).
 *
 * Parsing is over ASCII only: `int()` accepts an optional leading `-` and one
 * or more digits; `float()` additionally accepts one decimal point.
 */
module Builtins {

  datatype Option<+T> = None | Some(value: T)

  /** The Python exceptions that can end one of the compiler's procedures. */
  datatype Exc = EOFError | ValueError | TypeError | AttributeError | KeyError

  /** The result of a Python call: a value, or the exception it raised. */
  datatype Outcome<+T> = Ok(value: T) | Raised(exc: Exc)

  /** A Python value stored in a cell or a dict slot (`None`, `int`, `float`, `str`). */
  datatype PyValue = PyNone | PyInt(i: int) | PyFloat(f: real) | PyStr(s: string)

  // ---------------------------------------------------------------- digits

  predicate IsDigit(c: char) { '0' <= c <= '9' }

  predicate AllDigits(s: string) { forall i :: 0 <= i < |s| ==> IsDigit(s[i]) }

  /** `s.isnumeric()` for ASCII text: non-empty and digits only. */
  predicate IsNumeric(s: string) { |s| > 0 && AllDigits(s) }

  function DigitValue(c: char): nat
    requires IsDigit(c)
  {
    c as int - '0' as int
  }

  /** The number a run of decimal digits denotes (0 for the empty run). */
  function DigitsValue(s: string): nat
    requires AllDigits(s)
  {
    if s == [] then 0 else DigitsValue(s[..|s| - 1]) * 10 + DigitValue(s[|s| - 1])
  }

  function Pow10(k: nat): (r: nat)
    ensures r >= 1
  {
    if k == 0 then 1 else 10 * Pow10(k - 1)
  }

  /** `int(s)`: `None` stands for the ValueError Python raises. */
  function ParseInt(s: string): Option<int>
  {
    if |s| > 0 && s[0] == '-' then
      if IsNumeric(s[1..]) then Some(0 - DigitsValue(s[1..]) as int) else None
    else if IsNumeric(s) then Some(DigitsValue(s))
    else None
  }

  function IndexOf(s: string, c: char): (r: Option<nat>)
    ensures r.Some? ==> r.value < |s| && s[r.value] == c
    ensures r.Some? ==> forall k :: 0 <= k < r.value ==> s[k] != c
    ensures r.None? ==> forall k :: 0 <= k < |s| ==> s[k] != c
  {
    if s == [] then None
    else if s[0] == c then Some(0)
    else match IndexOf(s[1..], c)
      case None => None
      case Some(k) => Some(k + 1)
  }

  /** `float(s)`: an optional `-`, digits, at most one `.`, at least one digit. */
  function ParseFloat(s: string): Option<real>
  {
    var negative := |s| > 0 && s[0] == '-';
    var body := if negative then s[1..] else s;
    var whole := match IndexOf(body, '.') case Some(k) => body[..k] case None => body;
    var fraction := match IndexOf(body, '.') case Some(k) => body[k + 1..] case None => "";
    if AllDigits(whole) && AllDigits(fraction) && |whole| + |fraction| > 0 then
      var magnitude := DigitsValue(whole) as real
        + DigitsValue(fraction) as real / Pow10(|fraction|) as real;
      Some(if negative then -magnitude else magnitude)
    else None
  }

  // ---------------------------------------------------------------- str(n)

  function Digit(d: nat): (c: char)
    requires d < 10
    ensures IsDigit(c) && DigitValue(c) == d
  {
    "0123456789"[d]
  }

  /** `str(n)` for a non-negative integer. */
  function NatToString(n: nat): (s: string)
    ensures IsNumeric(s)
    decreases n
  {
    if n < 10 then [Digit(n)] else NatToString(n / 10) + [Digit(n % 10)]
  }

  lemma {:induction false} NatToStringValue(n: nat)
    ensures DigitsValue(NatToString(n)) == n
    decreases n
  {
    var s := NatToString(n);
    if n >= 10 {
      NatToStringValue(n / 10);
      assert s[..|s| - 1] == NatToString(n / 10);
    }
  }

  /** `int(str(n)) == n`: reading back what `str` printed gives the number. */
  lemma ParseIntNatToString(n: nat)
    ensures ParseInt(NatToString(n)) == Some(n)
  {
    NatToStringValue(n);
    var s := NatToString(n);
    assert IsDigit(s[0]);
  }

  // ---------------------------------------------------------------- substrings

  /** Python's `sub in s`. */
  predicate Contains(s: string, sub: string)
    decreases |s|
  {
    |sub| <= |s| && (s[..|sub|] == sub || Contains(s[1..], sub))
  }

  lemma {:induction false} ContainsAt(s: string, sub: string, i: nat)
    requires i + |sub| <= |s| && s[i..i + |sub|] == sub
    ensures Contains(s, sub)
    decreases i
  {
    if i > 0 {
      assert s[1..][i - 1..i - 1 + |sub|] == s[i..i + |sub|];
      ContainsAt(s[1..], sub, i - 1);
    }
  }

  /** A text containing `sub` contains its first character. */
  lemma {:induction false} ContainsFirst(s: string, sub: string)
    requires |sub| > 0 && Contains(s, sub)
    ensures exists i :: 0 <= i < |s| && s[i] == sub[0]
    decreases |s|
  {
    if s[..|sub|] != sub {
      ContainsFirst(s[1..], sub);
      var i :| 0 <= i < |s[1..]| && s[1..][i] == sub[0];
      assert s[i + 1] == sub[0];
    } else {
      assert s[0] == sub[0];
    }
  }

  /** `s.lower()` on one ASCII character. */
  function LowerChar(c: char): char
  {
    if 'A' <= c <= 'Z' then (c as int - 'A' as int + 'a' as int) as char else c
  }

  // ---------------------------------------------------------------- str.strip(chars)

  /** How many leading characters of `s` belong to `cs`. */
  function LeadingIn(s: string, cs: set<char>): (n: nat)
    ensures n <= |s|
    ensures forall k :: 0 <= k < n ==> s[k] in cs
    ensures n < |s| ==> s[n] !in cs
    decreases |s|
  {
    if |s| > 0 && s[0] in cs then 1 + LeadingIn(s[1..], cs) else 0
  }

  /** How many characters of `s` remain once its trailing characters in `cs` are cut. */
  function KeptBeforeTrailing(s: string, cs: set<char>): (n: nat)
    ensures n <= |s|
    ensures forall k :: n <= k < |s| ==> s[k] in cs
    ensures n > 0 ==> s[n - 1] !in cs
    decreases |s|
  {
    if |s| > 0 && s[|s| - 1] in cs then KeptBeforeTrailing(s[..|s| - 1], cs) else |s|
  }

  /** `s.strip(chars)`: drop every leading and every trailing character that is in `cs`. */
  function Strip(s: string, cs: set<char>): (r: string)
  {
    var lo := LeadingIn(s, cs);
    s[lo..lo + KeptBeforeTrailing(s[lo..], cs)]
  }

  /** `strip` cuts only at the ends, and cuts there exactly the characters of `cs`. */
  lemma StripSlice(s: string, cs: set<char>)
    ensures exists lo, hi ::
              && 0 <= lo <= hi <= |s| && Strip(s, cs) == s[lo..hi]
              && (forall k :: 0 <= k < lo ==> s[k] in cs)
              && (forall k :: hi <= k < |s| ==> s[k] in cs)
    ensures var r := Strip(s, cs); r == [] || (r[0] !in cs && r[|r| - 1] !in cs)
  {
    var lo := LeadingIn(s, cs);
    var hi := lo + KeptBeforeTrailing(s[lo..], cs);
    assert Strip(s, cs) == s[lo..hi];
    assert forall k :: hi <= k < |s| ==> s[k] == s[lo..][k - lo];
  }

  lemma {:induction false} LeadingInStops(s: string, cs: set<char>, n: nat)
    requires n < |s| && s[n] !in cs && forall k :: 0 <= k < n ==> s[k] in cs
    ensures LeadingIn(s, cs) == n
    decreases n
  {
    if n > 0 {
      LeadingInStops(s[1..], cs, n - 1);
    }
  }

  lemma {:induction false} KeptBeforeTrailingStops(s: string, cs: set<char>, n: nat)
    requires 0 < n <= |s| && s[n - 1] !in cs && forall k :: n <= k < |s| ==> s[k] in cs
    ensures KeptBeforeTrailing(s, cs) == n
    decreases |s|
  {
    if n < |s| {
      KeptBeforeTrailingStops(s[..|s| - 1], cs, n);
    }
  }

  /** A slice whose ends are kept and whose outside is all in `cs` is exactly what `strip` keeps. */
  lemma StripBetween(s: string, cs: set<char>, lo: nat, hi: nat)
    requires lo < hi <= |s| && s[lo] !in cs && s[hi - 1] !in cs
    requires forall k :: 0 <= k < lo ==> s[k] in cs
    requires forall k :: hi <= k < |s| ==> s[k] in cs
    ensures Strip(s, cs) == s[lo..hi]
  {
    LeadingInStops(s, cs, lo);
    var t := s[lo..];
    forall k | hi - lo <= k < |t| ensures t[k] in cs {
      assert t[k] == s[lo + k];
    }
    KeptBeforeTrailingStops(t, cs, hi - lo);
  }

  // ---------------------------------------------------------------- str.replace(old, new)

  /** `s.replace(pat, rep)`: every non-overlapping `pat`, scanned from the left, becomes `rep`. */
  function Replace(s: string, pat: string, rep: string): (r: string)
    requires |pat| > 0
    ensures |rep| <= |pat| ==> |r| <= |s|
    ensures !Contains(s, pat) ==> r == s
    decreases |s|
  {
    if |s| < |pat| then s
    else if s[..|pat|] == pat then rep + Replace(s[|pat|..], pat, rep)
    else [s[0]] + Replace(s[1..], pat, rep)
  }
}
