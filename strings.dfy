/**
 * The few Python string operations the ledger and the resolver rely on:
 * str.startswith, str.replace (every occurrence), str() of an int and the
 * built-in ordering of str values (code point by code point).
 */
module Strings {

  /** Python's `s.startswith(prefix)`. */
  predicate StartsWith(s: string, prefix: string) {
    |prefix| <= |s| && s[..|prefix|] == prefix
  }

  /** `pat` occurs somewhere in `s`. */
  predicate Occurs(s: string, pat: string)
    decreases |s|
  {
    StartsWith(s, pat) || (|s| > 0 && Occurs(s[1..], pat))
  }

  /**
   * Python's `s.replace(pat, rep)`: every non-overlapping occurrence of `pat`,
   * scanning from the left, is replaced by `rep`.
   */
  function ReplaceAll(s: string, pat: string, rep: string): (r: string)
    requires |pat| > 0
    ensures !Occurs(s, pat) ==> r == s
    decreases |s|
  {
    if |s| == 0 then s
    else if StartsWith(s, pat) then rep + ReplaceAll(s[|pat|..], pat, rep)
    else [s[0]] + ReplaceAll(s[1..], pat, rep)
  }

  /** Replacing in `pat + rest` consumes the leading occurrence first. */
  lemma {:induction false} ReplaceLeading(pat: string, rest: string, rep: string)
    requires |pat| > 0 && !Occurs(rest, pat)
    ensures ReplaceAll(pat + rest, pat, rep) == rep + rest
  {
    var s := pat + rest;
    assert s[..|pat|] == pat;
    assert s[|pat|..] == rest;
  }

  /** A pattern that opens with a non-digit never occurs in a string of digits. */
  lemma {:induction false} DigitsAvoid(s: string, pat: string)
    requires forall k :: 0 <= k < |s| ==> '0' <= s[k] <= '9'
    requires |pat| > 0 && !('0' <= pat[0] <= '9')
    ensures !Occurs(s, pat)
    decreases |s|
  {
    if |s| > 0 {
      assert !StartsWith(s, pat) by {
        if |pat| <= |s| { assert s[..|pat|][0] == s[0]; }
      }
      DigitsAvoid(s[1..], pat);
    }
  }

  function DigitChar(d: nat): (c: char)
    requires d < 10
    ensures '0' <= c <= '9' && c as int - '0' as int == d
  {
    "0123456789"[d]
  }

  /** Decimal digits of a natural number, most significant first, no leading zero. */
  function NatDigits(n: nat): (r: string)
    ensures |r| > 0
    ensures forall k :: 0 <= k < |r| ==> '0' <= r[k] <= '9'
    ensures n > 0 ==> r[0] != '0'
    decreases n
  {
    if n < 10 then [DigitChar(n)] else NatDigits(n / 10) + [DigitChar(n % 10)]
  }

  /** Python's `str(n)` for an `int`: an optional minus sign, then the digits. */
  function Decimal(n: int): (r: string)
    ensures |r| > 0 && (r[0] == '-' || '0' <= r[0] <= '9')
    ensures (r[0] == '-') <==> n < 0
  {
    if n < 0 then "-" + NatDigits(-n) else NatDigits(n)
  }

  /** `int(s)` for a string of decimal digits. */
  function DigitsValue(s: string): nat
    requires forall k :: 0 <= k < |s| ==> '0' <= s[k] <= '9'
  {
    if s == [] then 0 else DigitsValue(s[..|s| - 1]) * 10 + (s[|s| - 1] as int - '0' as int)
  }

  /** Reading back the digits of `n` gives `n`. */
  lemma {:induction false} NatDigitsValue(n: nat)
    ensures DigitsValue(NatDigits(n)) == n
    decreases n
  {
    if n >= 10 {
      NatDigitsValue(n / 10);
      var r := NatDigits(n);
      assert r[..|r| - 1] == NatDigits(n / 10);
    }
  }

  lemma NatDigitsInjective(m: nat, n: nat)
    requires NatDigits(m) == NatDigits(n)
    ensures m == n
  {
    NatDigitsValue(m);
    NatDigitsValue(n);
  }

  lemma NegativeDecimal(n: int)
    requires n < 0
    ensures Decimal(n)[1..] == NatDigits(-n)
  {
    var d := NatDigits(-n);
    assert ("-" + d)[1..] == d;
  }

  /** Distinct integers have distinct decimal forms. */
  lemma DecimalInjective(a: int, b: int)
    requires Decimal(a) == Decimal(b)
    ensures a == b
  {
    if a < 0 {
      assert b < 0;
      NegativeDecimal(a);
      NegativeDecimal(b);
      NatDigitsInjective(-a, -b);
    } else {
      assert b >= 0;
      NatDigitsInjective(a, b);
    }
  }

  /**
   * Python's `a <= b` on two `str` values: code points compared left to
   * right, and a proper prefix is smaller.
   */
  predicate LexLe(a: string, b: string)
    decreases |a|
  {
    |a| == 0 || (|b| > 0 && (a[0] < b[0] || (a[0] == b[0] && LexLe(a[1..], b[1..]))))
  }

  lemma {:induction false} LexLeReflexive(a: string)
    ensures LexLe(a, a)
    decreases |a|
  {
    if |a| > 0 { LexLeReflexive(a[1..]); }
  }

  lemma {:induction false} LexLeTotal(a: string, b: string)
    ensures LexLe(a, b) || LexLe(b, a)
    decreases |a|
  {
    if |a| > 0 && |b| > 0 && a[0] == b[0] { LexLeTotal(a[1..], b[1..]); }
  }

  lemma {:induction false} LexLeAntisymmetric(a: string, b: string)
    requires LexLe(a, b) && LexLe(b, a)
    ensures a == b
    decreases |a|
  {
    if |a| > 0 {
      LexLeAntisymmetric(a[1..], b[1..]);
      assert a == [a[0]] + a[1..] && b == [b[0]] + b[1..];
    }
  }

  lemma {:induction false} LexLeTransitive(a: string, b: string, c: string)
    requires LexLe(a, b) && LexLe(b, c)
    ensures LexLe(a, c)
    decreases |a|
  {
    if |a| > 0 && a[0] == b[0] && b[0] == c[0] {
      LexLeTransitive(a[1..], b[1..], c[1..]);
    }
  }
}
