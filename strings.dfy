/**
 * The JavaScript string operations the components rely on: `toLowerCase`,
 * `trim`, `includes`, `split`/`join`, the `<`/`<=` comparison of strings and
 * the decimal rendering of a number.
 */
module Strings {

  import opened Wrappers

  // ---------------------------------------------------------------- case

  /** Lower-casing of one character; only the ASCII letters A-Z have a case here. */
  function LowerChar(c: char): (r: char)
    ensures 'A' <= c <= 'Z' ==> 'a' <= r <= 'z' && r as int - c as int == 32
    ensures !('A' <= c <= 'Z') ==> r == c
  {
    if 'A' <= c <= 'Z' then (c as int + 32) as char else c
  }

  /** `s.toLowerCase()`. */
  function Lower(s: string): (r: string)
    ensures |r| == |s|
    ensures forall i :: 0 <= i < |s| ==> r[i] == LowerChar(s[i])
  {
    seq(|s|, i requires 0 <= i < |s| => LowerChar(s[i]))
  }

  /** Lower-casing twice is lower-casing once. */
  lemma LowerIdempotent(s: string)
    ensures Lower(Lower(s)) == Lower(s)
  {
  }

  /** Lower-casing works character by character, so it distributes over concatenation. */
  lemma LowerConcat(a: string, b: string)
    ensures Lower(a + b) == Lower(a) + Lower(b)
  {
    assert forall i :: 0 <= i < |a + b| ==> Lower(a + b)[i] == (Lower(a) + Lower(b))[i];
  }

  // ---------------------------------------------------------------- trim

  /** The white-space characters `trim` removes: ECMAScript's WhiteSpace (tab, vertical tab, form feed,
    * space, no-break space, the byte-order mark and the Unicode space separators) and LineTerminator. */
  predicate IsSpace(c: char)
  {
    ('\t' <= c <= '\r') || c == ' ' || c == '\U{00A0}' || c == '\U{1680}' || ('\U{2000}' <= c <= '\U{200A}')
    || ('\U{2028}' <= c <= '\U{2029}') || c == '\U{202F}' || c == '\U{205F}' || c == '\U{3000}' || c == '\U{FEFF}'
  }

  /** Every character of `s` satisfies `sp`. */
  predicate AllChars(s: string, sp: char -> bool)
  {
    forall i :: 0 <= i < |s| ==> sp(s[i])
  }

  /** A string made of white space only (the empty string included). */
  predicate IsBlank(s: string)
  {
    AllChars(s, IsSpace)
  }

  /** `s` without its leading characters that satisfy `sp`. */
  function TrimStart(s: string, sp: char -> bool): (r: string)
    ensures |r| <= |s| && r == s[|s| - |r|..]
    ensures r == [] || !sp(r[0])
    ensures AllChars(s[..|s| - |r|], sp)
    decreases |s|
  {
    if s != [] && sp(s[0]) then
      var r := TrimStart(s[1..], sp);
      assert forall i :: 1 <= i < |s| - |r| ==> s[i] == s[1..][i - 1];
      r
    else s
  }

  /** `s` without its trailing characters that satisfy `sp`. */
  function TrimEnd(s: string, sp: char -> bool): (r: string)
    ensures |r| <= |s| && r == s[..|r|]
    ensures r == [] || !sp(r[|r| - 1])
    ensures AllChars(s[|r|..], sp)
    decreases |s|
  {
    if s != [] && sp(s[|s| - 1]) then
      var r := TrimEnd(s[..|s| - 1], sp);
      assert forall i :: |r| <= i < |s| - 1 ==> s[i] == s[..|s| - 1][i];
      r
    else s
  }

  /** Trimming both ends: an infix of `s` that neither starts nor ends with a character satisfying `sp`, and
    * empty exactly when every character of `s` satisfies `sp`. */
  function TrimBoth(s: string, sp: char -> bool): (r: string)
    ensures exists k :: OccursAt(s, r, k)
    ensures r == [] || (!sp(r[0]) && !sp(r[|r| - 1]))
  {
    var t := TrimStart(s, sp);
    var r := TrimEnd(t, sp);
    var k := |s| - |t|;
    assert s[k..k + |r|] == r by {
      assert forall i :: 0 <= i < |r| ==> s[k..k + |r|][i] == t[i] == r[i];
    }
    assert OccursAt(s, r, k);
    assert r == [] || r[0] == t[0];
    r
  }

  /** Trimming both ends leaves nothing exactly when every character satisfies `sp`. */
  lemma {:induction false} TrimBothEmptyIff(s: string, sp: char -> bool)
    ensures TrimBoth(s, sp) == "" <==> AllChars(s, sp)
  {
    var t := TrimStart(s, sp);
    assert s == s[..|s| - |t|] + t;
    if !AllChars(s, sp) {
      assert AllChars(TrimEnd(t, sp), sp) ==> AllChars(t, sp);
    }
  }

  /** `s.trim()`: the longest infix of `s` that neither starts nor ends with white space. */
  function Trim(s: string): (r: string)
    ensures exists k :: OccursAt(s, r, k)
    ensures r == [] || (!IsSpace(r[0]) && !IsSpace(r[|r| - 1]))
  {
    TrimBoth(s, IsSpace)
  }

  /** `s.trim()` is empty exactly when `s` is blank. */
  lemma TrimEmptyIff(s: string)
    ensures Trim(s) == "" <==> IsBlank(s)
  {
    TrimBothEmptyIff(s, IsSpace);
  }

  // ---------------------------------------------------------------- substrings

  predicate StartsWith(s: string, p: string)
  {
    |p| <= |s| && s[..|p|] == p
  }

  /** `t` occurs in `s` starting at position `i`. */
  predicate OccursAt(s: string, t: string, i: int)
  {
    0 <= i <= |s| - |t| && s[i..i + |t|] == t
  }

  /** `s.includes(t)`, computed by trying every starting position from the left. */
  predicate Contains(s: string, t: string)
    decreases |s|
  {
    StartsWith(s, t) || (s != [] && Contains(s[1..], t))
  }

  lemma OccursAtShift(s: string, t: string, i: int)
    requires s != [] && 0 <= i
    ensures OccursAt(s, t, i + 1) <==> OccursAt(s[1..], t, i)
  {
    if 0 <= i <= |s| - 1 - |t| {
      assert s[i + 1..i + 1 + |t|] == s[1..][i..i + |t|];
    }
  }

  /** Contains means: `t` occurs at some position of `s`. */
  lemma {:induction false} ContainsIff(s: string, t: string)
    ensures Contains(s, t) <==> exists i :: OccursAt(s, t, i)
    decreases |s|
  {
    if StartsWith(s, t) {
      assert OccursAt(s, t, 0);
    } else if s != [] {
      ContainsIff(s[1..], t);
      if Contains(s[1..], t) {
        var i :| OccursAt(s[1..], t, i);
        OccursAtShift(s, t, i);
      }
      if i :| OccursAt(s, t, i) {
        assert i != 0;
        OccursAtShift(s, t, i - 1);
      }
    }
  }

  /** Every string includes the empty string. */
  lemma ContainsEmpty(s: string)
    ensures Contains(s, "")
  {
  }

  /** A string includes any infix of itself. */
  lemma {:induction false} ContainsInfix(a: string, t: string, b: string)
    ensures Contains(a + t + b, t)
  {
    ContainsIff(a + t + b, t);
    assert OccursAt(a + t + b, t, |a|);
  }

  // ---------------------------------------------------------------- comparison

  /** JavaScript's `a <= b` on strings: lexicographic by character code. */
  predicate LexLe(a: string, b: string)
    decreases |a|
  {
    if a == [] then true
    else if b == [] then false
    else if a[0] != b[0] then a[0] < b[0]
    else LexLe(a[1..], b[1..])
  }

  lemma {:induction false} LexLeRefl(a: string)
    ensures LexLe(a, a)
    decreases |a|
  {
    if a != [] { LexLeRefl(a[1..]); }
  }

  lemma {:induction false} LexLeTotal(a: string, b: string)
    ensures LexLe(a, b) || LexLe(b, a)
    decreases |a|
  {
    if a != [] && b != [] && a[0] == b[0] { LexLeTotal(a[1..], b[1..]); }
  }

  lemma {:induction false} LexLeAntisymmetric(a: string, b: string)
    requires LexLe(a, b) && LexLe(b, a)
    ensures a == b
    decreases |a|
  {
    if a != [] {
      LexLeAntisymmetric(a[1..], b[1..]);
      assert a == [a[0]] + a[1..] && b == [b[0]] + b[1..];
    }
  }

  lemma {:induction false} LexLeTrans(a: string, b: string, c: string)
    requires LexLe(a, b) && LexLe(b, c)
    ensures LexLe(a, c)
    decreases |a|
  {
    if a != [] && a[0] == b[0] && b[0] == c[0] { LexLeTrans(a[1..], b[1..], c[1..]); }
  }

  /** Comparing two strings with a common prefix compares what follows it. */
  lemma {:induction false} LexLeCommonPrefix(p: string, a: string, b: string)
    ensures LexLe(p + a, p + b) <==> LexLe(a, b)
    decreases |p|
  {
    if p != [] {
      assert (p + a)[0] == (p + b)[0] == p[0];
      assert (p + a)[1..] == p[1..] + a && (p + b)[1..] == p[1..] + b;
      assert LexLe(p + a, p + b) == LexLe(p[1..] + a, p[1..] + b);
      LexLeCommonPrefix(p[1..], a, b);
    } else {
      assert p + a == a && p + b == b;
    }
  }

  /** Two strings that agree up to position `k` and differ there are ordered by their characters at `k`. */
  lemma LexLtAt(a: string, b: string, k: nat)
    requires k < |a| && k < |b| && a[..k] == b[..k] && a[k] < b[k]
    ensures LexLe(a, b) && !LexLe(b, a)
  {
    var p := a[..k];
    assert a == p + a[k..] && b == p + b[k..];
    LexLeCommonPrefix(p, a[k..], b[k..]);
    LexLeCommonPrefix(p, b[k..], a[k..]);
  }

  /** The first `n` characters of `s` (all of it when it is shorter). */
  function Take(s: string, n: nat): (r: string)
    ensures |r| <= n && |r| <= |s| && r == s[..|r|] && (|r| == n || r == s)
  {
    if n < |s| then s[..n] else s
  }

  /** If `a <= b` and `a` has at most `n` characters, then `a <= ` the first `n` characters of `b`. */
  lemma {:induction false} LexLeTakeRight(a: string, b: string, n: nat)
    requires |a| <= n && LexLe(a, b)
    ensures LexLe(a, Take(b, n))
    decreases |a|
  {
    if a != [] && a[0] == b[0] {
      LexLeTakeRight(a[1..], b[1..], n - 1);
      assert Take(b, n)[1..] == Take(b[1..], n - 1);
    }
  }

  /** If `b <= a + x`, then the first `|a|` characters of `b` are `<= a`. */
  lemma {:induction false} LexLeTakeLeft(b: string, a: string, x: string)
    requires LexLe(b, a + x)
    ensures LexLe(Take(b, |a|), a)
    decreases |a|
  {
    if b != [] && a != [] {
      assert (a + x)[0] == a[0] && (a + x)[1..] == a[1..] + x;
      if b[0] == a[0] {
        LexLeTakeLeft(b[1..], a[1..], x);
        assert Take(b, |a|)[1..] == Take(b[1..], |a| - 1);
      }
    }
  }

  /** A string is never `<=` a proper prefix of itself. */
  lemma {:induction false} LexLeNotBelowPrefix(p: string, x: string)
    requires x != []
    ensures !LexLe(p + x, p)
    decreases |p|
  {
    if p != [] {
      assert (p + x)[1..] == p[1..] + x;
      LexLeNotBelowPrefix(p[1..], x);
    }
  }

  /** A prefix is always `<=` its extensions. */
  lemma {:induction false} LexLePrefix(p: string, x: string)
    ensures LexLe(p, p + x)
    decreases |p|
  {
    if p != [] {
      assert (p + x)[1..] == p[1..] + x;
      LexLePrefix(p[1..], x);
    }
  }

  // ---------------------------------------------------------------- numbers

  function DigitChar(d: nat): (c: char)
    requires d < 10
    ensures '0' <= c <= '9'
  {
    ('0' as int + d) as char
  }

  predicate IsDigits(s: string)
  {
    forall i :: 0 <= i < |s| ==> '0' <= s[i] <= '9'
  }

  /** The value of a string of decimal digits, as `parseInt` reads it. */
  function ParseDigits(s: string): nat
    requires IsDigits(s)
  {
    if s == [] then 0 else ParseDigits(s[..|s| - 1]) * 10 + (s[|s| - 1] as int - '0' as int)
  }

  /** `n.toString()` for a natural number. */
  function NatToString(n: nat): (s: string)
    ensures |s| >= 1 && IsDigits(s)
    ensures |s| > 1 ==> s[0] != '0'
    decreases n
  {
    if n < 10 then [DigitChar(n)] else NatToString(n / 10) + [DigitChar(n % 10)]
  }

  /** Reading back the decimal rendering of a number gives the number. */
  lemma {:induction false} ParseNatToString(n: nat)
    ensures ParseDigits(NatToString(n)) == n
    decreases n
  {
    if n >= 10 {
      var s := NatToString(n);
      assert s[..|s| - 1] == NatToString(n / 10);
      ParseNatToString(n / 10);
    }
  }

  /** Distinct numbers render differently. */
  lemma NatToStringInjective(m: nat, n: nat)
    requires NatToString(m) == NatToString(n)
    ensures m == n
  {
    ParseNatToString(m);
    ParseNatToString(n);
  }

  // ---------------------------------------------------------------- split and join

  /** The position of the first occurrence of `sep` in `s`, if any (`s.indexOf(sep)`). */
  function IndexOf(s: string, sep: string): (r: Option<nat>)
    ensures r.Some? ==> OccursAt(s, sep, r.value)
    decreases |s|
  {
    if StartsWith(s, sep) then Some(0)
    else if s == [] then None
    else match IndexOf(s[1..], sep)
      case None => None
      case Some(i) => (OccursAtShift(s, sep, i); Some(i + 1))
  }

  /** IndexOf finds the leftmost occurrence, and reports none only when there is none. */
  lemma {:induction false} IndexOfLeftmost(s: string, sep: string, j: int)
    requires OccursAt(s, sep, j)
    ensures IndexOf(s, sep).Some? && IndexOf(s, sep).value <= j
    decreases |s|
  {
    if !StartsWith(s, sep) {
      assert j != 0;
      OccursAtShift(s, sep, j - 1);
      IndexOfLeftmost(s[1..], sep, j - 1);
    }
  }

  /** `s.split(sep)` for a non-empty separator: the pieces between the occurrences, left to right. */
  function SplitOn(s: string, sep: string): (parts: seq<string>)
    requires sep != []
    ensures |parts| >= 1
    decreases |s|
  {
    match IndexOf(s, sep)
    case None => [s]
    case Some(i) => [s[..i]] + SplitOn(s[i + |sep|..], sep)
  }

  /** `parts.join(sep)`. */
  function Join(parts: seq<string>, sep: string): string
    requires |parts| >= 1
  {
    if |parts| == 1 then parts[0] else parts[0] + sep + Join(parts[1..], sep)
  }

  /** Splitting and joining again with the same separator gives back the string. */
  lemma {:induction false} JoinSplitOn(s: string, sep: string)
    requires sep != []
    ensures Join(SplitOn(s, sep), sep) == s
    decreases |s|
  {
    var r := IndexOf(s, sep);
    if r.Some? {
      var i := r.value;
      var rest := s[i + |sep|..];
      JoinSplitOn(rest, sep);
      assert SplitOn(s, sep) == [s[..i]] + SplitOn(rest, sep);
      assert s == s[..i] + sep + rest;
    }
  }

  /** A string without the separator splits into itself alone. */
  lemma SplitOnAbsent(s: string, sep: string)
    requires sep != [] && !Contains(s, sep)
    ensures SplitOn(s, sep) == [s]
  {
    ContainsIff(s, sep);
  }
}
