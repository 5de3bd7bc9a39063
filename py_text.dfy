/**
 * The two Python string operations the write guard is built from:
 * `str.lower()` and the substring test `p in s`.
 */
module PyText {

  /** `str.lower()` on one character. Only ASCII letters are folded. */
  function LowerChar(c: char): char {
    if 'A' <= c <= 'Z' then (c as int + 32) as char else c
  }

  /** `s.lower()`, character by character. */
  function Lower(s: string): string {
    seq(|s|, i requires 0 <= i < |s| => LowerChar(s[i]))
  }

  /** The characters `p[j..]` match `s` from position `i + j` on. */
  function MatchesFrom(s: string, p: string, i: nat, j: nat): bool
    requires i + |p| <= |s| && j <= |p|
    decreases |p| - j
  {
    j == |p| || (s[i + j] == p[j] && MatchesFrom(s, p, i, j + 1))
  }

  /** `p` occurs in `s` at some position `i` or later. */
  function ContainsFrom(s: string, p: string, i: nat): bool
    decreases |s| - i
  {
    if i + |p| > |s| then false
    else MatchesFrom(s, p, i, 0) || ContainsFrom(s, p, i + 1)
  }

  /** Python's `p in s` for two strings. */
  function Contains(s: string, p: string): bool {
    ContainsFrom(s, p, 0)
  }

  /** `p` is the block of `s` that starts at position `i`. */
  ghost predicate OccursAt(s: string, p: string, i: int) {
    0 <= i && i + |p| <= |s| && s[i..i + |p|] == p
  }

  lemma {:induction false} MatchesFromIff(s: string, p: string, i: nat, j: nat)
    requires i + |p| <= |s| && j <= |p|
    ensures MatchesFrom(s, p, i, j) <==> s[i + j..i + |p|] == p[j..]
    decreases |p| - j
  {
    if j < |p| {
      MatchesFromIff(s, p, i, j + 1);
      assert s[i + j..i + |p|] == [s[i + j]] + s[i + j + 1..i + |p|];
      assert p[j..] == [p[j]] + p[j + 1..];
    }
  }

  lemma {:induction false} ContainsFromIff(s: string, p: string, i: nat)
    ensures ContainsFrom(s, p, i) <==> exists k :: i <= k && OccursAt(s, p, k)
    decreases |s| - i
  {
    if i + |p| <= |s| {
      MatchesFromIff(s, p, i, 0);
      assert p[0..] == p;
      ContainsFromIff(s, p, i + 1);
      if MatchesFrom(s, p, i, 0) {
        assert OccursAt(s, p, i);
      } else if ContainsFrom(s, p, i + 1) {
        var k :| i + 1 <= k && OccursAt(s, p, k);
        assert i <= k && OccursAt(s, p, k);
      } else {
        forall k | i <= k ensures !OccursAt(s, p, k) {
          if k == i {
            assert !OccursAt(s, p, i);
          } else {
            assert i + 1 <= k;
          }
        }
      }
    }
  }

  /** `p in s` holds exactly when `p` is a contiguous block of `s`. */
  lemma ContainsIff(s: string, p: string)
    ensures Contains(s, p) <==> exists k :: OccursAt(s, p, k)
  {
    ContainsFromIff(s, p, 0);
    if exists k :: OccursAt(s, p, k) {
      var k :| OccursAt(s, p, k);
      assert 0 <= k;
    }
  }

  /** A string found at a known position is found by `in`. */
  lemma ContainsAt(s: string, p: string, k: int)
    requires OccursAt(s, p, k)
    ensures Contains(s, p)
  {
    ContainsIff(s, p);
  }

  /** `p` is found in any string that has it in the middle. */
  lemma ContainsInfix(a: string, p: string, b: string)
    ensures Contains(a + p + b, p)
  {
    var s := a + p + b;
    assert s[|a|..|a| + |p|] == p;
    ContainsAt(s, p, |a|);
  }

  /** Whatever is found in `s` is also found in any string that has `s` in the middle. */
  lemma ContainsWithin(a: string, s: string, b: string, p: string)
    requires Contains(s, p)
    ensures Contains(a + s + b, p)
  {
    ContainsIff(s, p);
    var k :| OccursAt(s, p, k);
    var t := a + s + b;
    assert t[|a| + k..|a| + k + |p|] == s[k..k + |p|];
    ContainsAt(t, p, |a| + k);
  }

  /** Lower-casing distributes over concatenation. */
  lemma LowerConcat(a: string, b: string)
    ensures Lower(a + b) == Lower(a) + Lower(b)
  {
  }

  /**
   * The case-folded search: `p` matches `s` from position `i + j` on once
   * `s` is lower-cased. Its definition reads `s` a character at a time,
   * which lets the verifier evaluate it on literal method names.
   */
  function FoldedMatchesFrom(s: string, p: string, i: nat, j: nat): bool
    requires i + |p| <= |s| && j <= |p|
    decreases |p| - j
  {
    j == |p| || (LowerChar(s[i + j]) == p[j] && FoldedMatchesFrom(s, p, i, j + 1))
  }

  function FoldedContainsFrom(s: string, p: string, i: nat): bool
    decreases |s| - i
  {
    if i + |p| > |s| then false
    else FoldedMatchesFrom(s, p, i, 0) || FoldedContainsFrom(s, p, i + 1)
  }

  lemma {:induction false} FoldedMatchesAgree(s: string, p: string, i: nat, j: nat)
    requires i + |p| <= |s| && j <= |p|
    ensures FoldedMatchesFrom(s, p, i, j) == MatchesFrom(Lower(s), p, i, j)
    decreases |p| - j
  {
    if j < |p| {
      FoldedMatchesAgree(s, p, i, j + 1);
    }
  }

  lemma {:induction false} FoldedContainsAgree(s: string, p: string, i: nat)
    ensures FoldedContainsFrom(s, p, i) == ContainsFrom(Lower(s), p, i)
    decreases |s| - i
  {
    if i + |p| <= |s| {
      FoldedMatchesAgree(s, p, i, 0);
      FoldedContainsAgree(s, p, i + 1);
    }
  }

  /** `p in s.lower()` computed without building `s.lower()` first. */
  lemma FoldedContains(s: string, p: string)
    ensures Contains(Lower(s), p) == FoldedContainsFrom(s, p, 0)
  {
    FoldedContainsAgree(s, p, 0);
  }
}
