/** Character classes, decimal digit strings and the few Ruby string operations the pipeline uses. */
module Text {

  /** Ruby's `\d`: an ASCII decimal digit. */
  predicate IsDigit(c: char) { '0' <= c <= '9' }

  /** Ruby's `\s`: space, or one of tab, line feed, vertical tab, form feed, carriage return (9 to 13). */
  predicate IsSpace(c: char) {
    c == ' ' || '\t' <= c <= '\r'
  }

  predicate AllDigits(s: string) { forall i :: 0 <= i < |s| ==> IsDigit(s[i]) }

  function Pow10(n: nat): (r: nat)
    ensures r >= 1
  {
    if n == 0 then 1 else 10 * Pow10(n - 1)
  }

  function DigitValue(c: char): (d: nat)
    requires IsDigit(c)
    ensures d < 10
  {
    c as int - '0' as int
  }

  function DigitChar(d: nat): (c: char)
    requires d < 10
    ensures IsDigit(c) && DigitValue(c) == d
  {
    (d + '0' as int) as char
  }

  /** The number a digit string denotes, as `String#to_i` reads it (leading zeros allowed). */
  function DigitsValue(s: string): nat
    requires AllDigits(s)
  {
    if s == [] then 0 else 10 * DigitsValue(s[..|s| - 1]) + DigitValue(s[|s| - 1])
  }

  /** Reading `a + b` as one number shifts `a` left by the length of `b`. */
  lemma {:induction false} DigitsValueAppend(a: string, b: string)
    requires AllDigits(a) && AllDigits(b)
    ensures AllDigits(a + b)
    ensures DigitsValue(a + b) == DigitsValue(a) * Pow10(|b|) + DigitsValue(b)
    decreases |b|
  {
    if b == [] {
      assert a + b == a;
    } else {
      var b' := b[..|b| - 1];
      var ab := a + b;
      assert ab[..|ab| - 1] == a + b';
      assert ab[|ab| - 1] == b[|b| - 1];
      DigitsValueAppend(a, b');
      MulTen(DigitsValue(a), Pow10(|b'|));
      assert DigitsValue(ab) == 10 * DigitsValue(a + b') + DigitValue(b[|b| - 1]);
      assert DigitsValue(b) == 10 * DigitsValue(b') + DigitValue(b[|b| - 1]);
    }
  }

  /** Proof helper: the arithmetic step of `DigitsValueAppend`. */
  lemma MulTen(x: int, p: int)
    ensures x * (10 * p) == 10 * (x * p)
  {
  }

  lemma TwoDigits(s: string)
    requires |s| == 2 && AllDigits(s)
    ensures DigitsValue(s) == 10 * DigitValue(s[0]) + DigitValue(s[1])
  {
    var h := s[..1];
    assert s[..|s| - 1] == h && h[..|h| - 1] == [] && h[|h| - 1] == s[0];
    assert DigitsValue(h) == 10 * DigitsValue([]) + DigitValue(s[0]);
    assert DigitsValue(s) == 10 * DigitsValue(h) + DigitValue(s[1]);
  }

  /** Ruby's `Integer#to_s` for a non-negative integer: decimal digits, no leading zero. */
  function NatToDigits(n: nat): (s: string)
    ensures |s| >= 1 && AllDigits(s)
    ensures |s| > 1 ==> s[0] != '0'
    decreases n
  {
    if n < 10 then [DigitChar(n)] else NatToDigits(n / 10) + [DigitChar(n % 10)]
  }

  /** Writing a number out and reading it back gives the number. */
  lemma {:induction false} NatToDigitsValue(n: nat)
    ensures DigitsValue(NatToDigits(n)) == n
    decreases n
  {
    var s := NatToDigits(n);
    if n < 10 {
      assert s[..|s| - 1] == [];
    } else {
      NatToDigitsValue(n / 10);
      assert s[..|s| - 1] == NatToDigits(n / 10);
    }
  }

  /** A number below 100 as exactly two digits, with a leading zero when needed. */
  function TwoDigitString(c: nat): (s: string)
    requires c < 100
    ensures |s| == 2 && AllDigits(s)
  {
    [DigitChar(c / 10), DigitChar(c % 10)]
  }

  lemma TwoDigitValue(c: nat)
    requires c < 100
    ensures DigitsValue(TwoDigitString(c)) == c
  {
    TwoDigits(TwoDigitString(c));
  }

  /** `format("%.2f", x)` for a non-negative amount of `cents` hundredths. */
  function Format2(cents: nat): (s: string)
    ensures '\n' !in s
  {
    NatToDigits(cents / 100) + "." + TwoDigitString(cents % 100)
  }

  /** The digits of `Format2(cents)`, dot left out, read back as `cents`. */
  lemma Format2Value(cents: nat)
    ensures AllDigits(NatToDigits(cents / 100) + TwoDigitString(cents % 100))
    ensures DigitsValue(NatToDigits(cents / 100) + TwoDigitString(cents % 100)) == cents
  {
    var i, f := NatToDigits(cents / 100), TwoDigitString(cents % 100);
    DigitsValueAppend(i, f);
    NatToDigitsValue(cents / 100);
    TwoDigitValue(cents % 100);
    assert Pow10(|f|) == 100;
  }

  /** `sub` occurs in `s` starting at index `k`. */
  predicate OccursAt(s: string, sub: string, k: nat) {
    k + |sub| <= |s| && s[k..k + |sub|] == sub
  }

  /** `sub` occurs in `s` at some index `k` or later. */
  predicate HasSubstringFrom(s: string, sub: string, k: nat)
    decreases |s| - k
  {
    OccursAt(s, sub, k) || (k + |sub| < |s| && HasSubstringFrom(s, sub, k + 1))
  }

  /** Ruby's `String#include?`. */
  predicate HasSubstring(s: string, sub: string)
  {
    HasSubstringFrom(s, sub, 0)
  }

  lemma {:induction false} HasSubstringFromIff(s: string, sub: string, k: nat)
    ensures HasSubstringFrom(s, sub, k) <==> exists x: nat :: k <= x && OccursAt(s, sub, x)
    decreases |s| - k
  {
    if k + |sub| < |s| {
      HasSubstringFromIff(s, sub, k + 1);
      if exists x: nat :: k <= x && OccursAt(s, sub, x) {
        var x: nat :| k <= x && OccursAt(s, sub, x);
        assert x == k || (k + 1 <= x && OccursAt(s, sub, x));
      }
    } else {
      if exists x: nat :: k <= x && OccursAt(s, sub, x) {
        var x: nat :| k <= x && OccursAt(s, sub, x);
        assert x == k;
      }
    }
  }

  lemma HasSubstringIff(s: string, sub: string)
    ensures HasSubstring(s, sub) <==> exists k: nat :: OccursAt(s, sub, k)
  {
    HasSubstringFromIff(s, sub, 0);
  }

  /** Every character of a substring occurs in the string. */
  lemma SubstringCharacters(s: string, sub: string, c: char)
    requires HasSubstring(s, sub) && c in sub
    ensures c in s
  {
    HasSubstringIff(s, sub);
    var k: nat :| OccursAt(s, sub, k);
    var i :| 0 <= i < |sub| && sub[i] == c;
    assert s[k + i] == s[k..k + |sub|][i];
  }

  /** The pieces of `s` between line feeds, empty pieces included; `s` holds |Fields(s)| - 1 line feeds. */
  function Fields(s: string): (fs: seq<string>)
    ensures |fs| >= 1
    ensures forall k :: 0 <= k < |fs| ==> '\n' !in fs[k]
    decreases |s|
  {
    if s == [] then [""]
    else
      var rest := Fields(s[1..]);
      if s[0] == '\n' then [""] + rest else [[s[0]] + rest[0]] + rest[1..]
  }

  /** Ruby's `Array#join("\n")`. */
  function JoinLines(xs: seq<string>): string
  {
    if |xs| == 0 then "" else if |xs| == 1 then xs[0] else xs[0] + "\n" + JoinLines(xs[1..])
  }

  /** Joining the pieces of `s` with line feeds gives `s` back. */
  lemma {:induction false} JoinFields(s: string)
    ensures JoinLines(Fields(s)) == s
    decreases |s|
  {
    if s != [] {
      var rest := Fields(s[1..]);
      JoinFields(s[1..]);
      if s[0] == '\n' {
        assert Fields(s) == [""] + rest;
        assert ([""] + rest)[1..] == rest;
        assert s == "" + "\n" + s[1..];
      } else {
        var fs := Fields(s);
        assert fs[1..] == rest[1..];
        if |rest| == 1 {
          assert s == [s[0]] + s[1..];
        } else {
          assert JoinLines(rest) == rest[0] + "\n" + JoinLines(rest[1..]);
          assert s == [s[0]] + s[1..];
        }
      }
    }
  }

  /** A leading piece without line feeds becomes part of the first field. */
  lemma {:induction false} FieldsPrefix(a: string, t: string)
    requires '\n' !in a
    ensures Fields(a + t) == [a + Fields(t)[0]] + Fields(t)[1..]
    decreases |a|
  {
    if a == [] {
      assert a + t == t;
      assert a + Fields(t)[0] == Fields(t)[0];
      assert Fields(t) == [Fields(t)[0]] + Fields(t)[1..];
    } else {
      assert (a + t)[1..] == a[1..] + t;
      assert '\n' !in a[1..] by {
        forall i | 0 <= i < |a[1..]| ensures a[1..][i] != '\n' {
          assert a[1..][i] == a[i + 1];
        }
      }
      FieldsPrefix(a[1..], t);
      assert [a[0]] + (a[1..] + Fields(t)[0]) == a + Fields(t)[0];
    }
  }

  /** Splitting a join of line-feed-free pieces gives the pieces back. */
  lemma {:induction false} FieldsJoin(xs: seq<string>)
    requires |xs| >= 1
    requires forall k :: 0 <= k < |xs| ==> '\n' !in xs[k]
    ensures Fields(JoinLines(xs)) == xs
    decreases |xs|
  {
    if |xs| == 1 {
      FieldsPrefix(xs[0], "");
      assert xs[0] + "" == xs[0];
    } else {
      FieldsJoin(xs[1..]);
      var t := "\n" + JoinLines(xs[1..]);
      assert t[1..] == JoinLines(xs[1..]);
      assert Fields(t) == [""] + xs[1..];
      assert xs[0] + "\n" + JoinLines(xs[1..]) == xs[0] + t;
      FieldsPrefix(xs[0], t);
      assert xs[0] + "" == xs[0];
    }
  }

  /** Joining the pieces of two non-empty lists agrees with joining the lists' joins. */
  lemma {:induction false} JoinLinesAppend(xs: seq<string>, ys: seq<string>)
    requires |xs| >= 1 && |ys| >= 1
    ensures JoinLines(xs + ys) == JoinLines(xs) + "\n" + JoinLines(ys)
    decreases |xs|
  {
    if |xs| == 1 {
      assert (xs + ys)[1..] == ys;
    } else {
      assert (xs + ys)[1..] == xs[1..] + ys;
      JoinLinesAppend(xs[1..], ys);
    }
  }

  /** Drops the empty strings at the end of a list. */
  function DropTrailingEmpty(xs: seq<string>): (ys: seq<string>)
    ensures |ys| <= |xs| && ys == xs[..|ys|]
    ensures ys == [] || ys[|ys| - 1] != ""
    ensures forall k :: |ys| <= k < |xs| ==> xs[k] == ""
    decreases |xs|
  {
    if xs != [] && xs[|xs| - 1] == "" then DropTrailingEmpty(xs[..|xs| - 1]) else xs
  }

  /** Ruby's `String#split(/\n/)`: the pieces between line feeds, trailing empty pieces removed. */
  function Split(s: string): (ps: seq<string>)
    ensures forall k :: 0 <= k < |ps| ==> '\n' !in ps[k]
    ensures ps == [] || ps[|ps| - 1] != ""
    ensures |ps| <= |Fields(s)| && ps == Fields(s)[..|ps|]
    ensures forall k :: |ps| <= k < |Fields(s)| ==> Fields(s)[k] == ""
  {
    DropTrailingEmpty(Fields(s))
  }
}
