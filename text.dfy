/**
 * The string operations the core relies on: ASCII lower-casing,
 * `str.rsplit(".", 1)` and the substring test `sub in s`.
 */
module Text {

  /** `c.lower()` for ASCII letters; every other character is left as it is. */
  function LowerChar(c: char): (l: char)
    ensures 'A' <= c <= 'Z' ==> l as int == c as int + 32
    ensures !('A' <= c <= 'Z') ==> l == c
  {
    if 'A' <= c <= 'Z' then (c as int + 32) as char else c
  }

  /** `s.lower()`, character by character. */
  function Lower(s: string): (r: string)
    ensures |r| == |s|
    ensures forall i :: 0 <= i < |s| ==> r[i] == LowerChar(s[i])
  {
    seq(|s|, i requires 0 <= i < |s| => LowerChar(s[i]))
  }

  /** Only a dot lower-cases to a dot, so lower-casing moves no separator. */
  lemma LowerCharDot(c: char)
    ensures LowerChar(c) == '.' <==> c == '.'
  {
  }

  lemma LowerIdempotent(s: string)
    ensures Lower(Lower(s)) == Lower(s)
  {
  }

  /** Lower-casing keeps exactly the positions of the dots. */
  lemma LowerKeepsDots(s: string)
    ensures '.' in Lower(s) <==> '.' in s
  {
  }

  /** Index of the last `c` in `s`, or -1 when there is none. */
  function LastIndexOf(s: string, c: char): (i: int)
    ensures -1 <= i < |s|
    ensures i == -1 <==> c !in s
    ensures 0 <= i ==> s[i] == c && c !in s[i + 1..]
    decreases |s|
  {
    if s == [] then -1
    else if s[|s| - 1] == c then |s| - 1
    else
      var init := s[..|s| - 1];
      var j := LastIndexOf(init, c);
      assert s == init + [s[|s| - 1]];
      LastIndexOfSnoc(init, s[|s| - 1], c, j);
      j
  }

  /** Appending a character other than `c` keeps the last `c` where it was. */
  lemma LastIndexOfSnoc(init: string, x: char, c: char, j: int)
    requires x != c && -1 <= j < |init|
    requires j == -1 <==> c !in init
    requires 0 <= j ==> init[j] == c && c !in init[j + 1..]
    ensures j == -1 <==> c !in init + [x]
    ensures 0 <= j ==> (init + [x])[j] == c && c !in (init + [x])[j + 1..]
  {
  }

  /** `s.rsplit(".", 1)` on a string that holds a dot: the text before and after the last dot. */
  function RSplitDot(s: string): (parts: (string, string))
    requires '.' in s
    ensures s == parts.0 + "." + parts.1
    ensures '.' !in parts.1
  {
    var i := LastIndexOf(s, '.');
    assert s == s[..i] + "." + s[i + 1..];
    (s[..i], s[i + 1..])
  }

  /** A string splits around its last dot in only one way. */
  lemma {:induction false} SplitAtLastDotUnique(p: string, e: string, q: string, f: string)
    requires p + "." + e == q + "." + f
    requires '.' !in e && '.' !in f
    ensures p == q && e == f
  {
    var s := p + "." + e;
    assert s[|p|] == '.';
    assert s[|q|] == '.';
    if |p| < |q| {
      assert false;
    } else if |q| < |p| {
      assert false;
    }
    assert p == s[..|p|] && q == s[..|q|];
    assert e == s[|p| + 1..] && f == s[|q| + 1..];
  }

  /** `s.startswith(prefix)`. */
  predicate StartsWith(s: string, prefix: string) {
    |prefix| <= |s| && s[..|prefix|] == prefix
  }

  /** Python's `sub in s`: `sub` occurs somewhere in `s` (case-sensitively). */
  predicate Contains(s: string, sub: string)
    decreases |s|
  {
    StartsWith(s, sub) || (s != [] && Contains(s[1..], sub))
  }

  /** `sub` occurs in `s` at position `i`. */
  predicate OccursAt(s: string, sub: string, i: int) {
    0 <= i && i + |sub| <= |s| && s[i..i + |sub|] == sub
  }

  /** `Contains` agrees with the direct definition of an occurrence, in both directions. */
  lemma {:induction false} ContainsIffOccurs(s: string, sub: string)
    ensures Contains(s, sub) <==> exists i :: OccursAt(s, sub, i)
    decreases |s|
  {
    if StartsWith(s, sub) {
      assert OccursAt(s, sub, 0);
    } else if s != [] {
      ContainsIffOccurs(s[1..], sub);
      if Contains(s[1..], sub) {
        var i :| OccursAt(s[1..], sub, i);
        assert s[1..][i..i + |sub|] == s[i + 1..i + 1 + |sub|];
        assert OccursAt(s, sub, i + 1);
      }
      if i :| OccursAt(s, sub, i) {
        assert i != 0;
        assert s[1..][i - 1..i - 1 + |sub|] == s[i..i + |sub|];
        assert OccursAt(s[1..], sub, i - 1);
      }
    }
  }

  lemma StartsWithHead(s: string, prefix: string)
    requires prefix != [] && StartsWith(s, prefix)
    ensures s != [] && s[0] == prefix[0]
  {
  }

  /**
   * When the first character of `sub` is not in `p`, no occurrence can start
   * inside `p`, so `sub in p + t` is decided by `t` alone.
   */
  lemma {:induction false} ContainsAfterFreePrefix(p: string, t: string, sub: string)
    requires sub != []
    requires sub[0] !in p
    ensures Contains(p + t, sub) <==> Contains(t, sub)
    decreases |p|
  {
    if p == [] {
      assert p + t == t;
    } else {
      assert (p + t)[0] == p[0] != sub[0];
      assert !StartsWith(p + t, sub);
      assert (p + t)[1..] == p[1..] + t;
      ContainsAfterFreePrefix(p[1..], t, sub);
    }
  }

  /** A `sub` with some character absent from `s` does not occur in `s`. */
  lemma {:induction false} AbsentWhenCharMissing(s: string, sub: string, k: int)
    requires 0 <= k < |sub|
    requires sub[k] !in s
    ensures !Contains(s, sub)
    decreases |s|
  {
    if |sub| <= |s| {
      assert s[..|sub|][k] == s[k];
    }
    if s != [] {
      AbsentWhenCharMissing(s[1..], sub, k);
    }
  }
}
