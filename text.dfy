/**
 * The few Python string operations the story pipeline relies on, on strings
 * as sequences of Unicode scalar values: `str.replace`, `str.strip()`,
 * `str.lower()` (as far as ASCII keywords can tell) and the `in` operator.
 */
module Text {

  type String = seq<char>

  /** The characters for which Python's `str.isspace()` holds; `str.strip()`
      without an argument removes exactly these. */
  predicate IsSpace(c: char) {
    || c == ' '
    || ('\t' <= c <= '\r')
    || ('\U{1C}' <= c <= '\U{1F}')
    || c == '\U{85}'
    || c == '\U{A0}'
    || c == '\U{1680}'
    || ('\U{2000}' <= c <= '\U{200A}')
    || c == '\U{2028}'
    || c == '\U{2029}'
    || c == '\U{202F}'
    || c == '\U{205F}'
    || c == '\U{3000}'
  }

  /** `s` without its leading whitespace. */
  function TrimStart(s: String): (r: String)
    ensures |r| <= |s| && r == s[|s| - |r|..]
    ensures r == [] || !IsSpace(r[0])
    ensures forall k | 0 <= k < |s| - |r| :: IsSpace(s[k])
    decreases |s|
  {
    if s != [] && IsSpace(s[0]) then TrimStart(s[1..]) else s
  }

  /** `s` without its trailing whitespace. */
  function TrimEnd(s: String): (r: String)
    ensures |r| <= |s| && r == s[..|r|]
    ensures r == [] || !IsSpace(r[|r| - 1])
    ensures forall k | |r| <= k < |s| :: IsSpace(s[k])
    decreases |s|
  {
    if s != [] && IsSpace(s[|s| - 1]) then TrimEnd(s[..|s| - 1]) else s
  }

  /** Python's `s.strip()`: the slice of `s` left once whitespace is removed
      from both ends; only whitespace is removed. */
  function Strip(s: String): (r: String)
    ensures r == [] || (!IsSpace(r[0]) && !IsSpace(r[|r| - 1]))
    ensures var i := |s| - |TrimStart(s)|;
      && i + |r| <= |s|
      && r == s[i..i + |r|]
      && (forall k | 0 <= k < i :: IsSpace(s[k]))
      && (forall k | i + |r| <= k < |s| :: IsSpace(s[k]))
  {
    TrimEnd(TrimStart(s))
  }

  /** Lower-casing of one character as far as it can produce an ASCII letter:
      A-Z, and KELVIN SIGN (U+212A), which Python lower-cases to 'k'. */
  function LowerChar(c: char): char {
    if 'A' <= c <= 'Z' then (c as int + 32) as char
    else if c == '\U{212A}' then 'k'
    else c
  }

  /** `s.lower()`, character by character. */
  function Lower(s: String): (r: String)
    ensures |r| == |s|
    ensures forall i | 0 <= i < |s| :: r[i] == LowerChar(s[i])
  {
    seq(|s|, i requires 0 <= i < |s| => LowerChar(s[i]))
  }

  /** `k` occurs in `s` starting at index `i`. */
  predicate OccursAt(s: String, k: String, i: int) {
    0 <= i && i + |k| <= |s| && s[i..i + |k|] == k
  }

  /** Python's `k in s` for strings. */
  predicate Contains(s: String, k: String) {
    exists i | 0 <= i <= |s| - |k| :: OccursAt(s, k, i)
  }

  /** Python's `s.replace(pat, rep)`: every non-overlapping occurrence of
      `pat`, found scanning left to right, is replaced by `rep`; an empty
      `pat` inserts `rep` before every character and at the end. */
  function ReplaceAll(s: String, pat: String, rep: String): (r: String)
    ensures pat != [] && rep == pat ==> r == s
    ensures pat != [] && |rep| == |pat| ==> |r| == |s|
    decreases |s|
  {
    if pat == [] then
      (if s == [] then rep else rep + [s[0]] + ReplaceAll(s[1..], pat, rep))
    else if |s| < |pat| then s
    else if s[..|pat|] == pat then rep + ReplaceAll(s[|pat|..], pat, rep)
    else [s[0]] + ReplaceAll(s[1..], pat, rep)
  }

  /** A string in which `pat` does not occur is left unchanged by the
      replacement. */
  lemma {:induction false} ReplaceAllAbsent(s: String, pat: String, rep: String)
    requires pat != []
    requires !Contains(s, pat)
    ensures ReplaceAll(s, pat, rep) == s
    decreases |s|
  {
    if |s| >= |pat| {
      assert !OccursAt(s, pat, 0);
      assert !Contains(s[1..], pat) by {
        forall i | 0 <= i <= |s[1..]| - |pat| ensures !OccursAt(s[1..], pat, i) {
          assert !OccursAt(s, pat, i + 1);
          assert s[1..][i..i + |pat|] == s[i + 1..i + 1 + |pat|];
        }
      }
      ReplaceAllAbsent(s[1..], pat, rep);
    }
  }

  /** Up to the first character that could start an inserted `rep`, the
      replacement output is a verbatim copy of its input. */
  lemma {:induction false} ReplaceAllCopiesPrefix(s: String, pat: String, rep: String, m: nat)
    requires pat != [] && rep != []
    requires m <= |ReplaceAll(s, pat, rep)|
    requires forall k | 0 <= k < m :: ReplaceAll(s, pat, rep)[k] != rep[0]
    ensures m <= |s| && ReplaceAll(s, pat, rep)[..m] == s[..m]
    decreases |s|
  {
    var r := ReplaceAll(s, pat, rep);
    if |s| < |pat| {
    } else if s[..|pat|] == pat {
      assert |r| > 0 ==> r[0] == rep[0];
    } else if m > 0 {
      var tail := ReplaceAll(s[1..], pat, rep);
      assert r == [s[0]] + tail;
      forall k | 0 <= k < m - 1 ensures tail[k] != rep[0] {
        assert tail[k] == r[k + 1];
      }
      ReplaceAllCopiesPrefix(s[1..], pat, rep, m - 1);
      assert r[..m] == [s[0]] + tail[..m - 1];
    }
  }

  /** Prefixing a string free of `pat` with a block that lacks `pat[0]`
      cannot create an occurrence of `pat`. */
  lemma AbsentAfterBlock(block: String, tail: String, pat: String)
    requires pat != [] && pat[0] !in block
    requires !Contains(tail, pat)
    ensures !Contains(block + tail, pat)
  {
    var r := block + tail;
    forall i | 0 <= i <= |r| - |pat| ensures !OccursAt(r, pat, i) {
      if i < |block| {
        assert r[i] == block[i] != pat[0];
        assert r[i..i + |pat|][0] == r[i];
      } else {
        assert r[i..i + |pat|] == tail[i - |block|..i - |block| + |pat|];
        assert !OccursAt(tail, pat, i - |block|);
      }
    }
  }

  /** If the output of a step that kept its first character starts with
      `pat`, so did the input. */
  lemma KeptStartMatches(s: String, pat: String, rep: String)
    requires pat != [] && rep != [] && rep[0] !in pat
    requires |s| >= |pat| && s[..|pat|] != pat
    ensures !OccursAt([s[0]] + ReplaceAll(s[1..], pat, rep), pat, 0)
  {
    var tail := ReplaceAll(s[1..], pat, rep);
    var r := [s[0]] + tail;
    var m := |pat| - 1;
    if OccursAt(r, pat, 0) {
      forall k | 0 <= k < m ensures tail[k] != rep[0] {
        assert tail[k] == r[k + 1] == pat[k + 1];
      }
      assert pat == [r[0]] + tail[..m];
      assert s[..|pat|] == [s[0]] + s[1..][..m];
      ReplaceAllCopiesPrefix(s[1..], pat, rep, m);
      assert false;
    }
  }

  /** When `pat` cannot overlap an inserted `rep` (the first character of
      each does not occur in the other), no occurrence of `pat` survives the
      replacement. */
  lemma {:induction false} ReplaceAllEliminates(s: String, pat: String, rep: String)
    requires pat != [] && rep != []
    requires pat[0] !in rep && rep[0] !in pat
    ensures !Contains(ReplaceAll(s, pat, rep), pat)
    decreases |s|
  {
    if |s| < |pat| {
    } else if s[..|pat|] == pat {
      ReplaceAllEliminates(s[|pat|..], pat, rep);
      AbsentAfterBlock(rep, ReplaceAll(s[|pat|..], pat, rep), pat);
    } else {
      ReplaceAllEliminates(s[1..], pat, rep);
      KeptStartMatches(s, pat, rep);
      var tail := ReplaceAll(s[1..], pat, rep);
      var r := [s[0]] + tail;
      forall i | 0 <= i <= |r| - |pat| ensures !OccursAt(r, pat, i) {
        if i > 0 {
          assert r[i..i + |pat|] == tail[i - 1..i - 1 + |pat|];
          assert !OccursAt(tail, pat, i - 1);
        }
      }
    }
  }

  /** An occurrence of `k` inside an occurrence of a longer string is an
      occurrence of `k`. */
  lemma ContainsInner(s: String, outer: String, k: String, j: nat)
    requires j + |k| <= |outer|
    requires outer[j..j + |k|] == k
    requires Contains(s, outer)
    ensures Contains(s, k)
  {
    var i :| 0 <= i <= |s| - |outer| && OccursAt(s, outer, i);
    forall t | 0 <= t < |k| ensures s[i + j + t] == k[t] {
      assert s[i + j + t] == s[i..i + |outer|][j + t] == outer[j + t] == outer[j..j + |k|][t];
    }
    assert s[i + j..i + j + |k|] == k;
    assert OccursAt(s, k, i + j);
  }

  /** A string lacking one character of `k` does not contain `k`. */
  lemma NotContainsWithoutChar(s: String, k: String, j: nat)
    requires j < |k| && k[j] !in s
    ensures !Contains(s, k)
  {
    forall i | 0 <= i <= |s| - |k| ensures !OccursAt(s, k, i) {
      assert s[i + j] in s;
      assert s[i..i + |k|][j] == s[i + j] != k[j];
    }
  }

  /** A lower-case ASCII letter other than 'k' appears in `s.lower()` only
      where it or its upper-case form appears in `s`. */
  lemma LowerAbsent(s: String, c: char)
    requires 'a' <= c <= 'z' && c != 'k'
    requires c !in s && (c as int - 32) as char !in s
    ensures c !in Lower(s)
  {
    forall i | 0 <= i < |s| ensures Lower(s)[i] != c {
      assert s[i] in s;
    }
  }

  /** Lower-casing an already lower-cased string changes nothing. */
  lemma LowerIdempotent(s: String)
    ensures Lower(Lower(s)) == Lower(s)
  {
    forall i | 0 <= i < |s| ensures Lower(Lower(s))[i] == Lower(s)[i] {
      assert Lower(s)[i] == LowerChar(s[i]);
    }
  }

  /** A string of decimal digits only. */
  predicate IsDigits(s: String) {
    forall i | 0 <= i < |s| :: '0' <= s[i] <= '9'
  }

  /** The number a string of decimal digits denotes. */
  function DigitsValue(s: String): int
    decreases |s|
  {
    if s == [] then 0 else 10 * DigitsValue(s[..|s| - 1]) + (s[|s| - 1] as int - '0' as int)
  }

  /** Python's `str(n)` for an integer: optional minus sign, then decimal
      digits without leading zeros, denoting `n`. */
  function DecimalString(n: int): (r: String)
    ensures r != [] && (r[0] == '-' <==> n < 0)
    ensures n >= 0 ==> IsDigits(r) && DigitsValue(r) == n && (|r| > 1 ==> r[0] != '0')
    ensures n < 0 ==> |r| >= 2 && IsDigits(r[1..]) && DigitsValue(r[1..]) == -n && (|r| > 2 ==> r[1] != '0')
  {
    if n < 0 then (var d := Digits(-n); assert ("-" + d)[1..] == d; "-" + d) else Digits(n)
  }

  /** The decimal digits of `n`, most significant first: no leading zero,
      and they denote `n`. */
  function Digits(n: nat): (r: String)
    ensures r != [] && IsDigits(r) && (|r| > 1 ==> r[0] != '0')
    ensures DigitsValue(r) == n
    decreases n
  {
    var d := (n % 10 + '0' as int) as char;
    if n < 10 then [d]
    else
      var high := Digits(n / 10);
      assert (high + [d])[..|high|] == high;
      high + [d]
  }
}
