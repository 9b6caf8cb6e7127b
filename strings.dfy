/**
 * The JavaScript string operations the core uses, written out over `seq<char>`:
 * `startsWith`, `includes`, `toLowerCase` (ASCII letters), `Array.prototype.join`, the default
 * `Array.prototype.sort` order on strings, and a global literal `replace`.
 */
module Strings {

  /** `s.startsWith(p)`. */
  predicate IsPrefix(p: string, s: string) {
    |p| <= |s| && s[..|p|] == p
  }

  /** `s.includes(p)`: some suffix of `s` starts with `p`. */
  predicate Contains(s: string, p: string)
    decreases |s|
  {
    IsPrefix(p, s) || (s != [] && Contains(s[1..], p))
  }

  /** `p` stands in `s` starting at index `i`. */
  predicate OccursAt(s: string, p: string, i: int) {
    0 <= i && i + |p| <= |s| && s[i..i + |p|] == p
  }

  /** `Contains` agrees with the positional definition of a substring occurrence. */
  lemma {:induction false} ContainsIffOccurs(s: string, p: string)
    ensures Contains(s, p) <==> exists i :: OccursAt(s, p, i)
    decreases |s|
  {
    if IsPrefix(p, s) {
      assert OccursAt(s, p, 0);
    } else if s == [] {
    } else {
      ContainsIffOccurs(s[1..], p);
      if exists i :: OccursAt(s, p, i) {
        var i :| OccursAt(s, p, i);
        assert i != 0;
        assert s[1..][i - 1..i - 1 + |p|] == s[i..i + |p|];
        assert OccursAt(s[1..], p, i - 1);
      }
      if exists i :: OccursAt(s[1..], p, i) {
        var i :| OccursAt(s[1..], p, i);
        assert s[i + 1..i + 1 + |p|] == s[1..][i..i + |p|];
        assert OccursAt(s, p, i + 1);
      }
    }
  }

  /** `p` occurs in `a` or in `b`, so it occurs in `a + b`. */
  lemma {:induction false} ContainsConcat(a: string, b: string, p: string)
    requires Contains(a, p) || Contains(b, p)
    ensures Contains(a + b, p)
  {
    ContainsIffOccurs(a, p);
    ContainsIffOccurs(b, p);
    ContainsIffOccurs(a + b, p);
    if Contains(a, p) {
      var i :| OccursAt(a, p, i);
      assert (a + b)[i..i + |p|] == a[i..i + |p|];
      assert OccursAt(a + b, p, i);
    } else {
      var i :| OccursAt(b, p, i);
      assert (a + b)[|a| + i..|a| + i + |p|] == b[i..i + |p|];
      assert OccursAt(a + b, p, |a| + i);
    }
  }

  /** An upper-case ASCII letter. */
  predicate IsUpper(c: char) {
    'A' <= c <= 'Z'
  }

  /** `toLowerCase` on one character, for the ASCII letters. */
  function LowerChar(c: char): char {
    if IsUpper(c) then (c as int + 32) as char else c
  }

  /** `s.toLowerCase()`, restricted to ASCII letters. */
  function Lower(s: string): (r: string)
    ensures |r| == |s|
    ensures forall i :: 0 <= i < |r| ==> !IsUpper(r[i])
    ensures forall i :: 0 <= i < |s| && !IsUpper(s[i]) ==> r[i] == s[i]
  {
    seq(|s|, i requires 0 <= i < |s| => LowerChar(s[i]))
  }

  /** Lowering twice is lowering once. */
  lemma LowerIdempotent(s: string)
    ensures Lower(Lower(s)) == Lower(s)
  {
  }

  /** `parts.join(sep)`. */
  function Join(parts: seq<string>, sep: string): string {
    if parts == [] then ""
    else if |parts| == 1 then parts[0]
    else parts[0] + sep + Join(parts[1..], sep)
  }

  /** Every part stands in the joined string. */
  lemma {:induction false} JoinContainsParts(parts: seq<string>, sep: string, q: string)
    requires exists k :: 0 <= k < |parts| && Contains(parts[k], q)
    ensures Contains(Join(parts, sep), q)
  {
    var k :| 0 <= k < |parts| && Contains(parts[k], q);
    if |parts| == 1 {
    } else if k == 0 {
      ContainsConcat(parts[0], sep + Join(parts[1..], sep), q);
      assert parts[0] + sep + Join(parts[1..], sep) == parts[0] + (sep + Join(parts[1..], sep));
    } else {
      assert Contains(parts[1..][k - 1], q);
      JoinContainsParts(parts[1..], sep, q);
      ContainsConcat(parts[0] + sep, Join(parts[1..], sep), q);
    }
  }

  /**
   * `s.replace(new RegExp(escaped(pat), 'g'), val)` with `val` taken literally: every occurrence
   * of `pat`, scanning left to right without overlap, becomes `val`. An empty `pat` matches at
   * every position, the end included, as the empty regular expression does.
   */
  function ReplaceAll(s: string, pat: string, val: string): string
    decreases |s|
  {
    if pat == [] then
      (if s == [] then val else val + [s[0]] + ReplaceAll(s[1..], pat, val))
    else if IsPrefix(pat, s) then val + ReplaceAll(s[|pat|..], pat, val)
    else if s == [] then []
    else [s[0]] + ReplaceAll(s[1..], pat, val)
  }

  /** Replacing a placeholder by itself leaves the text unchanged. */
  lemma {:induction false} ReplaceAllSelf(s: string, pat: string)
    ensures ReplaceAll(s, pat, pat) == s
    decreases |s|
  {
    if pat == [] {
      if s != [] {
        ReplaceAllSelf(s[1..], pat);
        assert [s[0]] + s[1..] == s;
      }
    } else if IsPrefix(pat, s) {
      ReplaceAllSelf(s[|pat|..], pat);
      assert s[..|pat|] + s[|pat|..] == s;
    } else if s != [] {
      ReplaceAllSelf(s[1..], pat);
      assert [s[0]] + s[1..] == s;
    }
  }

  /** A non-empty placeholder that does not occur leaves the text unchanged. */
  lemma {:induction false} ReplaceAllAbsent(s: string, pat: string, val: string)
    requires pat != [] && !Contains(s, pat)
    ensures ReplaceAll(s, pat, val) == s
    decreases |s|
  {
    if s != [] {
      ReplaceAllAbsent(s[1..], pat, val);
      assert [s[0]] + s[1..] == s;
    }
  }

  /**
   * The order of the default `Array.prototype.sort` on strings: lexicographic by character. The
   * characters here are code points, whereas the engine compares UTF-16 code units; the two orders
   * differ only where a character above U+FFFF meets one from U+E000 to U+FFFF.
   */
  predicate StrLess(a: string, b: string)
    decreases |a|
  {
    if a == [] then b != []
    else if b == [] then false
    else if a[0] < b[0] then true
    else a[0] == b[0] && StrLess(a[1..], b[1..])
  }

  lemma {:induction false} StrLessIrreflexive(a: string)
    ensures !StrLess(a, a)
    decreases |a|
  {
    if a != [] {
      StrLessIrreflexive(a[1..]);
    }
  }

  lemma {:induction false} StrLessTransitive(a: string, b: string, c: string)
    requires StrLess(a, b) && StrLess(b, c)
    ensures StrLess(a, c)
    decreases |a|
  {
    if a != [] && b != [] && c != [] && a[0] == b[0] && b[0] == c[0] {
      StrLessTransitive(a[1..], b[1..], c[1..]);
    }
  }

  lemma {:induction false} StrLessTotal(a: string, b: string)
    requires a != b
    ensures StrLess(a, b) || StrLess(b, a)
    decreases |a|
  {
    if a != [] && b != [] && a[0] == b[0] {
      assert a == [a[0]] + a[1..] && b == [b[0]] + b[1..];
      StrLessTotal(a[1..], b[1..]);
    }
  }

  lemma {:induction false} StrLessAsymmetric(a: string, b: string)
    requires StrLess(a, b)
    ensures !StrLess(b, a)
    decreases |a|
  {
    if a != [] && b != [] && a[0] == b[0] {
      StrLessAsymmetric(a[1..], b[1..]);
    }
  }
}
