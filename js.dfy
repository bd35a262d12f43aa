/**
 * The few JavaScript semantics the route handlers lean on, written out:
 * truthiness of an optional string, the `x || fallback` idiom and
 * `String.prototype.includes`.
 */
module Js {
  import opened Wrappers

  /** `!!s` for a value that is a string or absent: absent and `''` are falsy. */
  predicate Truthy(s: Option<string>) {
    s.Some? && s.value != ""
  }

  /** `s || null`: a falsy string is stored as null. */
  function OrNull(s: Option<string>): (r: Option<string>)
    ensures Truthy(s) ==> r == s
    ensures !Truthy(s) ==> r == None
  {
    if Truthy(s) then s else None
  }

  /** `s || fallback` for an optional string. */
  function OrElse(s: Option<string>, fallback: string): (r: string)
    ensures Truthy(s) ==> r == s.value
    ensures !Truthy(s) ==> r == fallback
  {
    if Truthy(s) then s.value else fallback
  }

  /** `sub` occurs in `s` starting at offset `i`. */
  predicate OccursAt(s: string, sub: string, i: int) {
    0 <= i <= |s| - |sub| && s[i..i + |sub|] == sub
  }

  /** `sub` matches `s` at offset `i` from its `j`-th character on, compared one character at a time. */
  predicate MatchesFrom(s: string, sub: string, i: nat, j: nat)
    requires i + |sub| <= |s| && j <= |sub|
    decreases |sub| - j
  {
    j == |sub| || (s[i + j] == sub[j] && MatchesFrom(s, sub, i, j + 1))
  }

  /** Comparing character by character decides equality of the remaining slices. */
  lemma {:induction false} MatchesFromSlices(s: string, sub: string, i: nat, j: nat)
    requires i + |sub| <= |s| && j <= |sub|
    ensures MatchesFrom(s, sub, i, j) <==> s[i + j..i + |sub|] == sub[j..]
    decreases |sub| - j
  {
    if j < |sub| {
      MatchesFromSlices(s, sub, i, j + 1);
      assert s[i + j..i + |sub|] == [s[i + j]] + s[i + j + 1..i + |sub|];
      assert sub[j..] == [sub[j]] + sub[j + 1..];
    }
  }

  /** The search behind `includes`: try every offset from `i` on. */
  predicate IncludesFrom(s: string, sub: string, i: nat)
    decreases |s| - i
  {
    i + |sub| <= |s| && (MatchesFrom(s, sub, i, 0) || IncludesFrom(s, sub, i + 1))
  }

  /** `s.includes(sub)`: `sub` occurs in `s` at some offset. */
  predicate Includes(s: string, sub: string)
    ensures Includes(s, sub) <==> exists i :: OccursAt(s, sub, i)
  {
    IncludesFromOccurs(s, sub, 0);
    IncludesFrom(s, sub, 0)
  }

  /** The search from offset `i` succeeds exactly when `sub` occurs at some offset from `i` on. */
  lemma {:induction false} IncludesFromOccurs(s: string, sub: string, i: nat)
    ensures IncludesFrom(s, sub, i) <==> exists k :: i <= k && OccursAt(s, sub, k)
    decreases |s| - i
  {
    if i + |sub| <= |s| {
      assert MatchesFrom(s, sub, i, 0) <==> OccursAt(s, sub, i) by {
        MatchesFromSlices(s, sub, i, 0);
        assert sub[0..] == sub;
      }
      IncludesFromOccurs(s, sub, i + 1);
    }
  }

  /** Whatever surrounds it, a string includes itself. */
  lemma IncludesInfix(a: string, b: string, c: string)
    ensures Includes(a + b + c, b)
  {
    assert OccursAt(a + b + c, b, |a|) by {
      assert (a + b + c)[|a|..|a| + |b|] == b;
    }
  }
}
