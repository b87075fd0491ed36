/** The two string operations the rule engine uses: `str.lower()` and the
    substring test `keyword in text`. */
module Text {

  /** Lower-case of one character: 'A'..'Z' map to 'a'..'z', every other
      character is unchanged. */
  function LowerChar(c: char): char {
    if 'A' <= c <= 'Z' then (c as int + 32) as char else c
  }

  /** `s.lower()`: each character lowered in place. */
  function Lower(s: string): (r: string)
    ensures |r| == |s|
    ensures forall i :: 0 <= i < |s| ==> r[i] == LowerChar(s[i])
  {
    if s == [] then [] else [LowerChar(s[0])] + Lower(s[1..])
  }

  /** Lowering an already lowered string changes nothing. */
  lemma {:induction false} LowerIdempotent(s: string)
    ensures Lower(Lower(s)) == Lower(s)
  {
    if s != [] {
      LowerIdempotent(s[1..]);
      assert Lower(s)[1..] == Lower(s[1..]);
    }
  }

  /** `p` occurs in `s` starting at index `i`. */
  predicate OccursAt(s: string, p: string, i: int) {
    0 <= i && i + |p| <= |s| && s[i..i + |p|] == p
  }

  /** `p in s`: `p` occurs in `s` as a contiguous substring (always true
      for the empty `p`). */
  predicate Contains(s: string, p: string)
    ensures Contains(s, p) ==> |p| <= |s|
  {
    exists i | 0 <= i <= |s| - |p| :: OccursAt(s, p, i)
  }

  /** A keyword `p` is found in `s.lower()` when the characters of `s` from
      index `i` on lower to `p`. */
  lemma LowerContainsAt(s: string, p: string, i: nat)
    requires i + |p| <= |s|
    requires forall k :: 0 <= k < |p| ==> LowerChar(s[i + k]) == p[k]
    ensures Contains(Lower(s), p)
  {
    var w := Lower(s)[i..i + |p|];
    forall k | 0 <= k < |p| ensures w[k] == p[k] {
      assert w[k] == Lower(s)[i + k];
    }
    assert w == p;
    assert OccursAt(Lower(s), p, i);
  }

  /** The characters of `s` from index `i` on lower to `p`. */
  predicate LowersTo(s: string, p: string, i: nat) {
    i + |p| <= |s| && forall k :: 0 <= k < |p| ==> LowerChar(s[i + k]) == p[k]
  }

  /** `p in s.lower()` exactly when some window of `s` lowers to `p`. */
  lemma LowerContainsIff(s: string, p: string)
    ensures Contains(Lower(s), p) <==> exists i: nat :: LowersTo(s, p, i)
  {
    if Contains(Lower(s), p) {
      var i :| 0 <= i <= |Lower(s)| - |p| && OccursAt(Lower(s), p, i);
      forall k | 0 <= k < |p| ensures LowerChar(s[i + k]) == p[k] {
        assert Lower(s)[i..i + |p|][k] == p[k];
      }
      assert LowersTo(s, p, i);
    }
    if i: nat :| LowersTo(s, p, i) {
      LowerContainsAt(s, p, i);
    }
  }

  /** Upper-case of one character: 'a'..'z' map to 'A'..'Z'. */
  function UpperChar(c: char): char {
    if 'a' <= c <= 'z' then (c as int - 32) as char else c
  }

  /** Only `c` itself and its upper case lower to `c`. */
  lemma LowerCharFrom(x: char, c: char)
    requires LowerChar(x) == c
    ensures x == c || x == UpperChar(c)
  {
  }

  /** `s` holds `c` in neither case. */
  predicate Avoids(s: string, c: char) {
    forall i :: 0 <= i < |s| ==> s[i] != c && s[i] != UpperChar(c)
  }

  /** A keyword `p` is not found in `s.lower()` when `s` holds one of its
      characters in neither case. */
  lemma LowerLacks(s: string, p: string, k: nat)
    requires k < |p|
    requires Avoids(s, p[k])
    ensures !Contains(Lower(s), p)
  {
    if i :| 0 <= i <= |Lower(s)| - |p| && OccursAt(Lower(s), p, i) {
      assert Lower(s)[i..i + |p|][k] == p[k];
      LowerCharFrom(s[i + k], p[k]);
      assert false;
    }
  }

  /** In neither case does `s` hold `c` directly followed by `d`. */
  predicate AvoidsPair(s: string, c: char, d: char) {
    forall i :: 0 <= i < |s| - 1 ==>
      (s[i] != c && s[i] != UpperChar(c)) || (s[i + 1] != d && s[i + 1] != UpperChar(d))
  }

  /** A keyword `p` is not found in `s.lower()` when two of its adjacent
      characters never occur side by side in `s`, in either case. */
  lemma LowerLacksPair(s: string, p: string, k: nat)
    requires k + 1 < |p|
    requires AvoidsPair(s, p[k], p[k + 1])
    ensures !Contains(Lower(s), p)
  {
    if i :| 0 <= i <= |Lower(s)| - |p| && OccursAt(Lower(s), p, i) {
      assert Lower(s)[i..i + |p|][k] == p[k] && Lower(s)[i..i + |p|][k + 1] == p[k + 1];
      LowerCharFrom(s[i + k], p[k]);
      LowerCharFrom(s[i + k + 1], p[k + 1]);
      assert false;
    }
  }
}
