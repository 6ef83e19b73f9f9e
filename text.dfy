/** Decimal text: the number-to-string conversion that template literals
    perform (`${n}`), and the `parseInt` conversion used by the comparison
    helpers, restricted to base-10 input. */
module Text {
  import opened Base

  predicate IsDigit(c: char) { '0' <= c <= '9' }

  predicate AllDigits(s: string) { forall i :: 0 <= i < |s| ==> IsDigit(s[i]) }

  /** JavaScript whitespace characters that `parseInt` skips (the ASCII ones). */
  predicate IsSpace(c: char) { c == ' ' || c == '\t' || c == '\n' || c == '\r' || c == '\U{B}' || c == '\U{C}' }

  function DigitChar(d: int): (c: char)
    requires 0 <= d < 10
    ensures IsDigit(c) && c as int - '0' as int == d
  {
    (d + '0' as int) as char
  }

  /** The value of a string of decimal digits, most significant first. */
  function DigitsValue(s: string): (v: nat)
    requires AllDigits(s)
    decreases |s|
  {
    if s == [] then 0
    else DigitsValue(s[..|s| - 1]) * 10 + (s[|s| - 1] as int - '0' as int)
  }

  /** `String(n)` for a non-negative integer: no sign, no leading zero. */
  function NatToString(n: nat): (s: string)
    ensures |s| > 0 && AllDigits(s)
    ensures |s| > 1 ==> s[0] != '0'
    decreases n
  {
    if n < 10 then [DigitChar(n)] else NatToString(n / 10) + [DigitChar(n % 10)]
  }

  /** `String(i)` for any integer. */
  function IntToString(i: int): (s: string)
    ensures |s| > 0
    ensures s[0] == '-' <==> i < 0
  {
    if i < 0 then "-" + NatToString(-i) else NatToString(i)
  }

  /** Printing then reading back a natural number gives it back. */
  lemma {:induction false} NatToStringValue(n: nat)
    ensures DigitsValue(NatToString(n)) == n
    decreases n
  {
    if n >= 10 {
      NatToStringValue(n / 10);
      var s := NatToString(n);
      assert s[..|s| - 1] == NatToString(n / 10);
    }
  }

  /** The longest run of digits starting at position `from`. */
  function DigitRun(s: string, from: nat): (r: string)
    requires from <= |s|
    ensures AllDigits(r) && from + |r| <= |s|
    ensures r == s[from..from + |r|]
    ensures from + |r| == |s| || !IsDigit(s[from + |r|])
    decreases |s| - from
  {
    if from < |s| && IsDigit(s[from]) then [s[from]] + DigitRun(s, from + 1) else []
  }

  /** The digit run at a position is the only run of digits there that
      ends at the end of the text or before a non-digit. */
  lemma DigitRunUnique(s: string, from: nat, run: string)
    requires AllDigits(run) && from + |run| <= |s| && run == s[from..from + |run|]
    requires from + |run| == |s| || !IsDigit(s[from + |run|])
    ensures DigitRun(s, from) == run
  {
  }

  lemma {:induction false} DigitRunOfDigits(s: string, rest: string)
    requires AllDigits(s)
    requires rest == [] || !IsDigit(rest[0])
    ensures DigitRun(s + rest, 0) == s
  {
    var t := s + rest;
    var r := DigitRun(t, 0);
    assert forall i :: 0 <= i < |s| ==> t[i] == s[i];
    assert |s| < |t| ==> t[|s|] == rest[0];
    assert r == t[..|r|];
  }

  /** Skips leading whitespace. */
  function SkipSpaces(s: string, from: nat): (k: nat)
    requires from <= |s|
    ensures from <= k <= |s|
    ensures k == |s| || !IsSpace(s[k])
    decreases |s| - from
  {
    if from < |s| && IsSpace(s[from]) then SkipSpaces(s, from + 1) else from
  }

  /** `parseInt(s)` with radix 10: leading whitespace, an optional sign, then
      the longest run of digits; `None` stands for `NaN` (no digits). */
  function ParseInt(s: string): (r: Option<int>)
    ensures r.None? <==> DigitRun(s, SignEnd(s)) == []
  {
    var digits := DigitRun(s, SignEnd(s));
    if digits == [] then None
    else
      var start := SkipSpaces(s, 0);
      var v: int := DigitsValue(digits);
      Some(if start < |s| && s[start] == '-' then -v else v)
  }

  /** Position just after the whitespace and the optional sign. */
  function SignEnd(s: string): (k: nat)
    ensures k <= |s|
  {
    var start := SkipSpaces(s, 0);
    if start < |s| && (s[start] == '-' || s[start] == '+') then start + 1 else start
  }

  /** `parseInt` of a run of digits followed by a non-digit reads the run. */
  lemma ParseIntOfDigits(ds: string, rest: string)
    requires AllDigits(ds) && |ds| > 0
    requires rest == [] || !IsDigit(rest[0])
    ensures ParseInt(ds + rest) == Some(DigitsValue(ds))
  {
    var s := ds + rest;
    assert s[0] == ds[0] && IsDigit(s[0]);
    assert SkipSpaces(s, 0) == 0;
    assert SignEnd(s) == 0;
    DigitRunOfDigits(ds, rest);
    assert DigitRun(s, SignEnd(s)) == ds;
  }

  /** `parseInt` reads back what `String(n)` printed. */
  lemma ParseIntOfNatToString(n: nat, rest: string)
    requires rest == [] || !IsDigit(rest[0])
    ensures ParseInt(NatToString(n) + rest) == Some(n)
  {
    ParseIntOfDigits(NatToString(n), rest);
    NatToStringValue(n);
  }

  /** Appending three zeros multiplies the value by a thousand. */
  lemma DigitsValueThousands(ds: string)
    requires AllDigits(ds)
    ensures AllDigits(ds + "000") && DigitsValue(ds + "000") == 1000 * DigitsValue(ds)
  {
    var s2, s1 := ds + "00", ds + "0";
    assert (ds + "000")[..|ds| + 2] == s2 && (ds + "000")[|ds| + 2] == '0';
    assert s2[..|ds| + 1] == s1 && s2[|ds| + 1] == '0';
    assert s1[..|ds|] == ds && s1[|ds|] == '0';
    assert DigitsValue(s1) == 10 * DigitsValue(ds);
    assert DigitsValue(s2) == 100 * DigitsValue(ds);
  }

  /** `s.replace(c, "")` for a one-character pattern: removes only the first `c`. */
  function RemoveFirst(s: string, c: char): (r: string)
    ensures c !in s ==> r == s
    ensures c in s ==> |r| == |s| - 1
  {
    if s == [] then []
    else if s[0] == c then s[1..]
    else [s[0]] + RemoveFirst(s[1..], c)
  }

  /** The first `c` of `s` sits at `k`: removing it keeps everything before
      and after it, in order. */
  lemma {:induction false} RemoveFirstAt(s: string, c: char, k: nat)
    requires k < |s| && s[k] == c && c !in s[..k]
    ensures RemoveFirst(s, c) == s[..k] + s[k + 1..]
  {
    if k > 0 {
      assert s[0] in s[..k];
      assert s[1..][..k - 1] == s[1..k];
      RemoveFirstAt(s[1..], c, k - 1);
      assert s[..k] == [s[0]] + s[1..k];
    }
  }

  /** Removing the first `c` from `s + [c]` gives `s` back when `s` has no `c`. */
  lemma {:induction false} RemoveFirstOfAppended(s: string, c: char)
    requires c !in s
    ensures RemoveFirst(s + [c], c) == s
  {
    if s != [] {
      assert (s + [c])[1..] == s[1..] + [c];
      RemoveFirstOfAppended(s[1..], c);
    }
  }
}
