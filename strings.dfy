/** String operations the keyword rules are built from: ASCII lowercasing,
    substring containment (`String.prototype.includes`), keyword filtering
    (`filter`/`some` over a term list), `Array.prototype.join`, `trim`, and a
    case-insensitive word-bounded match standing in for `/\b(...)\b/i`. */
module Strings {

  // ---------------------------------------------------------------- case

  predicate IsUpper(c: char) {
    'A' <= c <= 'Z'
  }

  function LowerChar(c: char): char {
    if IsUpper(c) then (c as int + 32) as char else c
  }

  /** `toLowerCase`, restricted to ASCII letters. */
  function Lower(s: string): string {
    seq(|s|, i requires 0 <= i < |s| => LowerChar(s[i]))
  }

  /** Lowercasing is a normalisation: applying it twice changes nothing more. */
  lemma LowerIdempotent(s: string)
    ensures Lower(Lower(s)) == Lower(s)
  {
    forall i | 0 <= i < |s|
      ensures Lower(Lower(s))[i] == Lower(s)[i]
    {
      var c := s[i];
      if IsUpper(c) {
        assert !IsUpper(LowerChar(c));
      }
    }
  }

  /** Lowercasing a concatenation lowercases each part. */
  lemma LowerAppend(a: string, b: string)
    ensures Lower(a + b) == Lower(a) + Lower(b)
  {
    assert forall i | 0 <= i < |a + b| :: Lower(a + b)[i] == (Lower(a) + Lower(b))[i] by {
      forall i | 0 <= i < |a + b|
        ensures Lower(a + b)[i] == (Lower(a) + Lower(b))[i]
      {
        if i < |a| {
          assert (a + b)[i] == a[i];
        } else {
          assert (a + b)[i] == b[i - |a|];
        }
      }
    }
  }

  /** A string without upper-case letters is its own lowercase form. */
  lemma LowerOfLowercase(s: string)
    requires forall i :: 0 <= i < |s| ==> !IsUpper(s[i])
    ensures Lower(s) == s
  {
  }

  // ---------------------------------------------------------------- containment

  predicate ContainsAt(s: string, k: string, i: int) {
    0 <= i && i + |k| <= |s| && s[i..i + |k|] == k
  }

  /** `s.includes(k)` */
  predicate Contains(s: string, k: string) {
    exists i | 0 <= i <= |s| :: ContainsAt(s, k, i)
  }

  /** `ks.some(k => s.includes(k))` */
  predicate ContainsAny(s: string, ks: seq<string>) {
    exists j :: 0 <= j < |ks| && Contains(s, ks[j])
  }

  /** A term occurring in either part occurs in the concatenation. */
  lemma ContainsInAppend(a: string, b: string, k: string)
    requires Contains(a, k) || Contains(b, k)
    ensures Contains(a + b, k)
  {
    if Contains(a, k) {
      var i :| 0 <= i <= |a| && ContainsAt(a, k, i);
      assert (a + b)[i..i + |k|] == a[i..i + |k|];
      assert ContainsAt(a + b, k, i);
    } else {
      var j :| 0 <= j <= |b| && ContainsAt(b, k, j);
      assert (a + b)[|a| + j..|a| + j + |k|] == b[j..j + |k|];
      assert ContainsAt(a + b, k, |a| + j);
    }
  }

  /** Containment is transitive. */
  lemma ContainsTransitive(s: string, t: string, k: string)
    requires Contains(s, t) && Contains(t, k)
    ensures Contains(s, k)
  {
    var p :| 0 <= p <= |s| && ContainsAt(s, t, p);
    var q :| 0 <= q <= |t| && ContainsAt(t, k, q);
    forall i | 0 <= i < |k| ensures s[p + q + i] == k[i] {
      assert k[i] == t[q..q + |k|][i] == t[q + i];
      assert t[q + i] == s[p..p + |t|][q + i];
    }
    assert s[p + q..p + q + |k|] == k;
    assert ContainsAt(s, k, p + q);
  }

  /** Lowercasing preserves containment. */
  lemma ContainsLower(s: string, t: string)
    requires Contains(s, t)
    ensures Contains(Lower(s), Lower(t))
  {
    var p :| 0 <= p <= |s| && ContainsAt(s, t, p);
    assert Lower(s)[p..p + |t|] == Lower(t);
    assert ContainsAt(Lower(s), Lower(t), p);
  }

  /** A text that starts with `k` contains it. */
  lemma ContainsPrefix(s: string, k: string)
    requires |k| <= |s| && s[..|k|] == k
    ensures Contains(s, k)
  {
    assert ContainsAt(s, k, 0);
  }

  /** ContainsAny is monotone in the term list. */
  lemma ContainsAnySubset(s: string, small: seq<string>, big: seq<string>)
    requires forall k :: k in small ==> k in big
    requires ContainsAny(s, small)
    ensures ContainsAny(s, big)
  {
    var j :| 0 <= j < |small| && Contains(s, small[j]);
    assert small[j] in big;
    var j' :| 0 <= j' < |big| && big[j'] == small[j];
  }

  /** `ks.filter(k => s.includes(k))`: the terms of `ks` occurring in `s`, in list order. */
  function Found(s: string, ks: seq<string>): seq<string> {
    if ks == [] then []
    else (if Contains(s, ks[0]) then [ks[0]] else []) + Found(s, ks[1..])
  }

  /** A term is found exactly when it is in the list and occurs in the text. */
  lemma {:induction false} FoundMembers(s: string, ks: seq<string>, k: string)
    ensures k in Found(s, ks) <==> k in ks && Contains(s, k)
  {
    if ks != [] {
      FoundMembers(s, ks[1..], k);
      assert ks == [ks[0]] + ks[1..];
    }
  }

  /** The found terms keep the order of the term list. */
  lemma {:induction false} FoundInListOrder(s: string, ks: seq<string>)
    ensures IsSubsequence(Found(s, ks), ks)
  {
    if ks != [] {
      FoundInListOrder(s, ks[1..]);
      if Contains(s, ks[0]) {
        assert Found(s, ks) == [ks[0]] + Found(s, ks[1..]);
      } else {
        assert Found(s, ks) == Found(s, ks[1..]);
        SubsequenceConsRight(Found(s, ks[1..]), ks[0], ks[1..]);
      }
    }
  }

  /** Some term was found exactly when `some` holds. */
  lemma {:induction false} FoundNonEmpty(s: string, ks: seq<string>)
    ensures |Found(s, ks)| > 0 <==> ContainsAny(s, ks)
  {
    if ks != [] {
      FoundNonEmpty(s, ks[1..]);
      if ContainsAny(s, ks[1..]) {
        var j :| 0 <= j < |ks[1..]| && Contains(s, ks[1..][j]);
        assert Contains(s, ks[j + 1]);
      }
      if ContainsAny(s, ks) && !Contains(s, ks[0]) {
        var j :| 0 <= j < |ks| && Contains(s, ks[j]);
        assert j != 0;
        assert Contains(s, ks[1..][j - 1]);
      }
    }
  }

  // ---------------------------------------------------------------- subsequences

  /** `a` is obtained from `b` by deleting elements, keeping the order. */
  predicate IsSubsequence<T(==)>(a: seq<T>, b: seq<T>)
    decreases |b|
  {
    if a == [] then true
    else if b == [] then false
    else if a[0] == b[0] then IsSubsequence(a[1..], b[1..])
    else IsSubsequence(a, b[1..])
  }

  /** Prepending an element to the larger sequence keeps a subsequence one. */
  lemma {:induction false} SubsequenceConsRight<T>(a: seq<T>, x: T, b: seq<T>)
    requires IsSubsequence(a, b)
    ensures IsSubsequence(a, [x] + b)
    decreases |b|, 1
  {
    if a != [] {
      assert ([x] + b)[0] == x && ([x] + b)[1..] == b;
      if a[0] == x {
        SubsequenceDropHead(a, b);
      }
    }
  }

  /** Dropping the first element of a subsequence keeps it one. */
  lemma {:induction false} SubsequenceDropHead<T>(a: seq<T>, b: seq<T>)
    requires a != [] && IsSubsequence(a, b)
    ensures IsSubsequence(a[1..], b)
    decreases |b|, 0
  {
    assert [b[0]] + b[1..] == b;
    if a[0] == b[0] {
      SubsequenceConsRight(a[1..], b[0], b[1..]);
    } else {
      SubsequenceDropHead(a, b[1..]);
      SubsequenceConsRight(a[1..], b[0], b[1..]);
    }
  }

  // ---------------------------------------------------------------- join

  /** `xs.join(sep)` */
  function Join(xs: seq<string>, sep: string): string {
    if |xs| == 0 then ""
    else if |xs| == 1 then xs[0]
    else xs[0] + sep + Join(xs[1..], sep)
  }

  /** Every joined element occurs in the joined text. */
  lemma {:induction false} JoinContainsElement(xs: seq<string>, sep: string, i: nat)
    requires i < |xs|
    ensures Contains(Join(xs, sep), xs[i])
  {
    if |xs| == 1 {
      ContainsPrefix(xs[0], xs[0]);
    } else if i == 0 {
      ContainsPrefix(xs[0], xs[0]);
      ContainsInAppend(xs[0], sep + Join(xs[1..], sep), xs[0]);
      assert xs[0] + sep + Join(xs[1..], sep) == xs[0] + (sep + Join(xs[1..], sep));
    } else {
      JoinContainsElement(xs[1..], sep, i - 1);
      ContainsInAppend(xs[0] + sep, Join(xs[1..], sep), xs[i]);
    }
  }

  // ---------------------------------------------------------------- trim

  /** The ASCII white-space characters that `String.prototype.trim` removes. */
  predicate IsSpace(c: char) {
    c == ' ' || c == '\t' || c == '\n' || c == '\r' || c == '\U{0B}' || c == '\U{0C}'
  }

  predicate IsBlank(s: string) {
    forall i :: 0 <= i < |s| ==> IsSpace(s[i])
  }

  function TrimStart(s: string): string {
    if |s| > 0 && IsSpace(s[0]) then TrimStart(s[1..]) else s
  }

  function TrimEnd(s: string): string {
    if |s| > 0 && IsSpace(s[|s| - 1]) then TrimEnd(s[..|s| - 1]) else s
  }

  /** `s.trim()` */
  function Trim(s: string): string {
    TrimEnd(TrimStart(s))
  }

  lemma {:induction false} TrimStartEmpty(s: string)
    ensures TrimStart(s) == "" <==> IsBlank(s)
    ensures TrimStart(s) == "" || !IsSpace(TrimStart(s)[0])
  {
    if |s| > 0 && IsSpace(s[0]) {
      TrimStartEmpty(s[1..]);
      if IsBlank(s[1..]) {
        forall i | 0 <= i < |s| ensures IsSpace(s[i]) {
          if i > 0 { assert s[i] == s[1..][i - 1]; }
        }
      }
    }
  }

  lemma {:induction false} TrimEndEmpty(s: string)
    ensures TrimEnd(s) == "" <==> IsBlank(s)
  {
    if |s| > 0 && IsSpace(s[|s| - 1]) {
      var p := s[..|s| - 1];
      TrimEndEmpty(p);
      if IsBlank(p) {
        forall i | 0 <= i < |s| ensures IsSpace(s[i]) {
          if i < |s| - 1 { assert s[i] == p[i]; }
        }
      } else {
        var i :| 0 <= i < |p| && !IsSpace(p[i]);
        assert s[i] == p[i];
      }
    } else if |s| > 0 {
      assert !IsSpace(s[|s| - 1]);
    }
  }

  /** A string trims to the empty string exactly when it is all white space. */
  lemma TrimEmptyIffBlank(s: string)
    ensures Trim(s) == "" <==> IsBlank(s)
  {
    TrimStartEmpty(s);
    TrimEndEmpty(TrimStart(s));
  }

  // ---------------------------------------------------------------- word match

  /** The characters `\w` matches, so those between which `\b` does not hold. */
  predicate IsWordChar(c: char) {
    ('a' <= c <= 'z') || ('A' <= c <= 'Z') || ('0' <= c <= '9') || c == '_'
  }

  /** `k` (lowercase, starting and ending with a word character) matches `s` at
      `i` ignoring ASCII case, with a word boundary on each side. */
  predicate WordAt(s: string, k: string, i: int) {
    && 0 <= i && i + |k| <= |s|
    && Lower(s[i..i + |k|]) == k
    && (i == 0 || !IsWordChar(s[i - 1]))
    && (i + |k| == |s| || !IsWordChar(s[i + |k|]))
  }

  predicate MatchesWord(s: string, k: string) {
    exists i | 0 <= i <= |s| :: WordAt(s, k, i)
  }

  /** `/\b(k1|k2|...)\b/i.test(s)`: some alternative matches somewhere. */
  predicate MatchesAnyWord(s: string, ks: seq<string>) {
    exists j :: 0 <= j < |ks| && MatchesWord(s, ks[j])
  }

  /** A word match inside a prefix that ends after the boundary survives any
      continuation of the text. */
  lemma WordInPrefix(p: string, rest: string, k: string, i: int)
    requires WordAt(p, k, i) && i + |k| < |p|
    ensures WordAt(p + rest, k, i)
  {
    assert (p + rest)[i..i + |k|] == p[i..i + |k|];
    assert (p + rest)[i + |k|] == p[i + |k|];
    if i > 0 {
      assert (p + rest)[i - 1] == p[i - 1];
    }
  }
}
