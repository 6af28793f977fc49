/**
 * The java.lang.String and java.lang.Integer operations the console front end
 * relies on, with the exact edge cases of the JDK: `trim` strips every
 * character up to U+0020, `indexOf` answers -1 when absent and `parseInt`
 * accepts one optional sign and decimal digits within the 32-bit range.
 */
module JavaText {
  import opened Wrappers

  /** What `String.trim` removes: every character whose code is at most that of the space. */
  predicate IsTrimmable(c: char)
  {
    c <= ' '
  }

  predicate AllTrimmable(s: string)
  {
    forall i :: 0 <= i < |s| ==> IsTrimmable(s[i])
  }

  /** No trimmable character at either end. */
  predicate IsTrimmed(s: string)
  {
    s == [] || (!IsTrimmable(s[0]) && !IsTrimmable(s[|s| - 1]))
  }

  /** The index of the first character `trim` keeps, or |s|. */
  function TrimStartIndex(s: string): (k: nat)
    ensures k <= |s|
    ensures forall i :: 0 <= i < k ==> IsTrimmable(s[i])
    ensures k < |s| ==> !IsTrimmable(s[k])
  {
    if |s| == 0 || !IsTrimmable(s[0]) then 0
    else
      assert forall i :: 1 <= i < |s| ==> s[1..][i - 1] == s[i];
      1 + TrimStartIndex(s[1..])
  }

  /** One past the index of the last character `trim` keeps, or 0. */
  function TrimEndIndex(s: string): (e: nat)
    ensures e <= |s|
    ensures forall i :: e <= i < |s| ==> IsTrimmable(s[i])
    ensures e > 0 ==> !IsTrimmable(s[e - 1])
  {
    if |s| == 0 || !IsTrimmable(s[|s| - 1]) then |s|
    else TrimEndIndex(s[..|s| - 1])
  }

  /** `s` is `r` with only trimmable characters around it. */
  predicate Framed(s: string, pre: string, r: string, post: string)
  {
    s == pre + r + post && AllTrimmable(pre) && AllTrimmable(post)
  }

  /** The core `trim` keeps starts and ends with a kept character. */
  lemma TrimCoreIsTrimmed(s: string, k: nat, e: nat)
    requires k == TrimStartIndex(s) && e == TrimEndIndex(s[k..])
    ensures IsTrimmed(s[k..k + e])
  {
    if e > 0 {
      assert s[k..k + e][0] == s[k..][0];
      assert s[k..k + e][e - 1] == s[k..][e - 1];
    }
  }

  lemma TrimmedPrefix(s: string, k: nat)
    requires k == TrimStartIndex(s)
    ensures AllTrimmable(s[..k])
  {
    forall i | 0 <= i < k
      ensures IsTrimmable(s[..k][i])
    {
      assert s[..k][i] == s[i];
    }
  }

  lemma TrimmedSuffix(s: string, k: nat, e: nat)
    requires k <= |s| && e == TrimEndIndex(s[k..])
    ensures AllTrimmable(s[k + e..])
  {
    var rest := s[k..];
    var post := s[k + e..];
    forall j | 0 <= j < |post|
      ensures IsTrimmable(post[j])
    {
      assert post[j] == rest[e + j];
    }
  }

  lemma SplitThree(s: string, k: nat, n: nat)
    requires k + n <= |s|
    ensures s == s[..k] + s[k..k + n] + s[k + n..]
  {
  }

  /** Only trimmable characters surround the core. */
  lemma TrimCoreIsFramed(s: string, k: nat, e: nat)
    requires k == TrimStartIndex(s) && e == TrimEndIndex(s[k..])
    ensures Framed(s, s[..k], s[k..k + e], s[k + e..])
  {
    TrimmedPrefix(s, k);
    TrimmedSuffix(s, k, e);
    SplitThree(s, k, e);
  }

  /** The core is empty exactly when every character is trimmable. */
  lemma TrimCoreEmpty(s: string, k: nat, e: nat)
    requires k == TrimStartIndex(s) && e == TrimEndIndex(s[k..])
    ensures e == 0 <==> AllTrimmable(s)
  {
    if e > 0 {
      assert s[k + e - 1] == s[k..][e - 1];
    }
  }

  /** `String.trim`. */
  function Trim(s: string): (r: string)
    ensures IsTrimmed(r)
    ensures exists pre, post :: Framed(s, pre, r, post)
    ensures r == [] <==> AllTrimmable(s)
  {
    var k := TrimStartIndex(s);
    var e := TrimEndIndex(s[k..]);
    TrimCoreIsTrimmed(s, k, e);
    TrimCoreIsFramed(s, k, e);
    TrimCoreEmpty(s, k, e);
    s[k..k + e]
  }

  /** Trimming a string that has no trimmable character at either end changes nothing. */
  lemma TrimOfTrimmed(s: string)
    requires IsTrimmed(s)
    ensures Trim(s) == s
  {
  }

  lemma TrimIdempotent(s: string)
    ensures Trim(Trim(s)) == Trim(s)
  {
    TrimOfTrimmed(Trim(s));
  }

  /** `Character.toLowerCase` on the Basic Latin capitals; every other character is kept. */
  function LowerChar(c: char): (l: char)
    ensures IsTrimmable(l) <==> IsTrimmable(c)
    ensures (l == ' ') <==> (c == ' ')
  {
    if 'A' <= c <= 'Z' then (c as int + 0x20) as char else c
  }

  /** `String.toLowerCase`, character by character. */
  function ToLower(s: string): (r: string)
  {
    seq(|s|, i requires 0 <= i < |s| => LowerChar(s[i]))
  }

  lemma ToLowerIdempotent(s: string)
    ensures ToLower(ToLower(s)) == ToLower(s)
  {
  }

  /** Lowering keeps which positions hold a space and which hold trimmable characters. */
  lemma ToLowerKeepsSpacesAndTrimmed(s: string)
    ensures |ToLower(s)| == |s|
    ensures forall i :: 0 <= i < |s| ==> (ToLower(s)[i] == ' ' <==> s[i] == ' ')
    ensures IsTrimmed(s) ==> IsTrimmed(ToLower(s))
  {
  }

  /** `String.indexOf`: the first position of `c`, or -1. */
  function IndexOf(s: string, c: char): (i: int)
    ensures -1 <= i < |s|
    ensures i == -1 <==> c !in s
    ensures i >= 0 ==> s[i] == c && c !in s[..i]
  {
    if |s| == 0 then -1
    else if s[0] == c then 0
    else
      var j := IndexOf(s[1..], c);
      assert j >= 0 ==> s[..j + 1] == [s[0]] + s[1..][..j];
      if j == -1 then -1 else j + 1
  }

  const INT_MIN: int := -0x8000_0000
  const INT_MAX: int := 0x7FFF_FFFF

  predicate IsDigit(c: char)
  {
    '0' <= c <= '9'
  }

  predicate AllDigits(s: string)
  {
    forall i :: 0 <= i < |s| ==> IsDigit(s[i])
  }

  /** The value of a string of decimal digits, most significant first. */
  function DigitsValue(ds: string): nat
    requires AllDigits(ds)
  {
    if |ds| == 0 then 0
    else DigitsValue(ds[..|ds| - 1]) * 10 + (ds[|ds| - 1] as int - '0' as int)
  }

  /**
   * `Integer.parseInt(s)`: an optional '-' or '+', then at least one decimal
   * digit, and a value that fits 32 bits; anything else is a NumberFormatException.
   */
  function ParseInt(s: string): (r: Result<int, JavaException>)
    ensures r.Success? ==> INT_MIN <= r.value <= INT_MAX
    ensures r.Failure? ==> r.error == NumberFormatException
    ensures s == [] ==> r.Failure?
  {
    if |s| == 0 then Failure(NumberFormatException)
    else
      var start := if s[0] == '-' || s[0] == '+' then 1 else 0;
      var digits := s[start..];
      if |digits| == 0 || !AllDigits(digits) then Failure(NumberFormatException)
      else
        var v: int := if s[0] == '-' then -(DigitsValue(digits) as int) else DigitsValue(digits);
        if INT_MIN <= v <= INT_MAX then Success(v) else Failure(NumberFormatException)
  }

  /** The decimal digits of a natural number, without leading zeros (`Integer.toString`). */
  function Decimal(n: nat): (ds: string)
    ensures |ds| > 0 && AllDigits(ds)
  {
    var last := ['0' + (n % 10) as char];
    if n < 10 then last else Decimal(n / 10) + last
  }

  function IntToString(n: int): string
  {
    if n < 0 then "-" + Decimal(-n) else Decimal(n)
  }

  lemma {:induction false} DecimalValue(n: nat)
    ensures DigitsValue(Decimal(n)) == n
  {
    var ds := Decimal(n);
    if n >= 10 {
      DecimalValue(n / 10);
      assert ds[..|ds| - 1] == Decimal(n / 10);
    }
  }

  /** parseInt reads back every 32-bit value written in decimal. */
  lemma ParseIntRoundTrip(n: int)
    requires INT_MIN <= n <= INT_MAX
    ensures ParseInt(IntToString(n)) == Success(n)
  {
    var s := IntToString(n);
    if n < 0 {
      DecimalValue(-n);
      assert s[1..] == Decimal(-n);
    } else {
      DecimalValue(n);
      assert s[0] != '-' && s[0] != '+';
      assert s[0..] == s;
    }
  }

  /** A leading '+' changes nothing; a leading '-' negates. */
  lemma ParseIntSigns(digits: string)
    requires |digits| > 0 && AllDigits(digits)
    ensures ParseInt("+" + digits) == ParseInt(digits)
    ensures ParseInt(digits).Success? && ParseInt(digits).value > 0
            ==> ParseInt("-" + digits) == Success(-ParseInt(digits).value)
  {
    assert ("+" + digits)[1..] == digits;
    assert ("-" + digits)[1..] == digits;
    assert digits[0..] == digits;
    assert digits[0] != '-' && digits[0] != '+';
  }
}
