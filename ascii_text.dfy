/**
 * The two string primitives the global search relies on: `String.prototype.toLowerCase`,
 * approximated by an ASCII case fold, and `String.prototype.includes`.
 */
module AsciiText {

  /** ASCII case fold of one character; every other character is left as it is. */
  function LowerChar(c: char): char
  {
    if 'A' <= c <= 'Z' then (c as int + 32) as char else c
  }

  /** `s.toLowerCase()` with an ASCII fold: the same length, each character folded. */
  function ToLower(s: string): (r: string)
    ensures |r| == |s|
    ensures forall i :: 0 <= i < |s| ==> r[i] == LowerChar(s[i])
  {
    if s == [] then [] else [LowerChar(s[0])] + ToLower(s[1..])
  }

  /** Two strings that differ only in the case of their letters. */
  ghost predicate SameIgnoringCase(a: string, b: string)
  {
    |a| == |b| && forall i :: 0 <= i < |a| ==> LowerChar(a[i]) == LowerChar(b[i])
  }

  predicate StartsWith(s: string, p: string)
  {
    |p| <= |s| && s[..|p|] == p
  }

  /**
   * `s.includes(sub)`: some suffix of `s` starts with `sub`. Only a string no
   * longer than `s` can be included, and every prefix of `s` is.
   */
  predicate Includes(s: string, sub: string): (found: bool)
    ensures found ==> |sub| <= |s|
    ensures StartsWith(s, sub) ==> found
    decreases |s|
  {
    StartsWith(s, sub) || (|s| > 0 && Includes(s[1..], sub))
  }

  /** Reference meaning of `Includes`: `sub` occurs in `s` at offset `k`. */
  ghost predicate OccursAt(s: string, sub: string, k: int)
  {
    0 <= k && k + |sub| <= |s| && s[k..k + |sub|] == sub
  }

  /** The search `Includes` performs finds exactly the occurrences of `sub` in `s`. */
  lemma {:induction false} IncludesIffOccurs(s: string, sub: string)
    ensures Includes(s, sub) <==> exists k :: OccursAt(s, sub, k)
    decreases |s|
  {
    if StartsWith(s, sub) {
      assert OccursAt(s, sub, 0);
    } else if |s| == 0 {
      if k :| OccursAt(s, sub, k) {
        assert false;
      }
    } else {
      IncludesIffOccurs(s[1..], sub);
      if k :| OccursAt(s[1..], sub, k) {
        assert s[k + 1..k + 1 + |sub|] == s[1..][k..k + |sub|];
        assert OccursAt(s, sub, k + 1);
      }
      if k :| OccursAt(s, sub, k) {
        if k == 0 {
          assert false;
        }
        assert s[1..][k - 1..k - 1 + |sub|] == s[k..k + |sub|];
        assert OccursAt(s[1..], sub, k - 1);
      }
    }
  }

  /** The empty string is included in every string. */
  lemma IncludesEmpty(s: string)
    ensures Includes(s, "")
  {
    assert StartsWith(s, "");
  }

  /** Inclusion is transitive: a string containing `q` contains every substring of `q`. */
  lemma IncludesTransitive(s: string, q: string, p: string)
    requires Includes(s, q) && Includes(q, p)
    ensures Includes(s, p)
  {
    IncludesIffOccurs(s, q);
    IncludesIffOccurs(q, p);
    var k :| OccursAt(s, q, k);
    var j :| OccursAt(q, p, j);
    var found, wanted := s[k + j..k + j + |p|], q[j..j + |p|];
    forall i | 0 <= i < |p| ensures found[i] == wanted[i] {
      assert q[j + i] == s[k..k + |q|][j + i];
    }
    assert found == wanted;
    assert OccursAt(s, p, k + j);
    IncludesIffOccurs(s, p);
  }

  /** Every prefix of `q` is included in `q`. */
  lemma PrefixIncluded(q: string, n: nat)
    requires n <= |q|
    ensures Includes(q, q[..n])
  {
    assert StartsWith(q, q[..n]);
  }

  /** Lower-casing commutes with taking a slice. */
  lemma ToLowerSlice(s: string, a: int, b: int)
    requires 0 <= a <= b <= |s|
    ensures ToLower(s)[a..b] == ToLower(s[a..b])
  {
  }

  /** An inclusion survives lower-casing both sides. */
  lemma IncludesToLower(s: string, sub: string)
    requires Includes(s, sub)
    ensures Includes(ToLower(s), ToLower(sub))
  {
    IncludesIffOccurs(s, sub);
    var k :| OccursAt(s, sub, k);
    ToLowerSlice(s, k, k + |sub|);
    assert OccursAt(ToLower(s), ToLower(sub), k);
    IncludesIffOccurs(ToLower(s), ToLower(sub));
  }

  /** Strings equal up to case have the same lower-cased form. */
  lemma ToLowerSameIgnoringCase(a: string, b: string)
    requires SameIgnoringCase(a, b)
    ensures ToLower(a) == ToLower(b)
  {
  }
}
