/**
 * The JavaScript string operations the pages use: `toLowerCase`, `startsWith` and `includes`.
 * Lower-casing is modelled on ASCII only.
 */
module Text {

  function LowerChar(c: char): char
  {
    if 'A' <= c <= 'Z' then (c as int + 32) as char else c
  }

  /** `s.toLowerCase()`, restricted to the ASCII letters. */
  function Lower(s: string): (r: string)
    ensures |r| == |s|
  {
    seq(|s|, i requires 0 <= i < |s| => LowerChar(s[i]))
  }

  /** `s.startsWith(prefix)`. */
  predicate StartsWith(s: string, prefix: string)
  {
    |prefix| <= |s| && s[..|prefix|] == prefix
  }

  /** `s.includes(t)`: `t` occurs in `s` at some position. */
  predicate Includes(s: string, t: string)
    decreases |s|
  {
    StartsWith(s, t) || (s != [] && Includes(s[1..], t))
  }

  /** Every string starts with, and so includes, the empty string. */
  lemma IncludesEmpty(s: string)
    ensures StartsWith(s, "") && Includes(s, "")
  {
    assert s[..0] == "";
  }

  /** `t` occurs in `s` starting at position `i`. */
  predicate OccursAt(s: string, t: string, i: nat)
  {
    i + |t| <= |s| && s[i..i + |t|] == t
  }

  /** An occurrence of `t` at position `i` of `s` is what `includes` finds. */
  lemma {:induction false} IncludesAt(s: string, t: string, i: nat)
    requires OccursAt(s, t, i)
    ensures Includes(s, t)
    decreases i
  {
    if i > 0 {
      assert s[1..][i - 1..i - 1 + |t|] == s[i..i + |t|];
      IncludesAt(s[1..], t, i - 1);
    }
  }

  /** `includes` finds an occurrence only where there is one. */
  lemma {:induction false} IncludesFound(s: string, t: string) returns (i: nat)
    requires Includes(s, t)
    ensures OccursAt(s, t, i)
    decreases |s|
  {
    if StartsWith(s, t) {
      i := 0;
    } else {
      var j := IncludesFound(s[1..], t);
      assert s[1..][j..j + |t|] == s[j + 1..j + 1 + |t|];
      i := j + 1;
    }
  }

  /** `s.includes(t)` holds exactly when `t` occurs in `s` at some position. */
  lemma IncludesIff(s: string, t: string)
    ensures Includes(s, t) <==> exists i: nat :: OccursAt(s, t, i)
  {
    if Includes(s, t) {
      var i := IncludesFound(s, t);
    }
    forall i: nat | OccursAt(s, t, i)
      ensures Includes(s, t)
    {
      IncludesAt(s, t, i);
    }
  }

  /** `s.startsWith(prefix)` holds exactly when `s` is `prefix` followed by something. */
  lemma StartsWithIff(s: string, prefix: string)
    ensures StartsWith(s, prefix) <==> exists rest :: s == prefix + rest
  {
    if StartsWith(s, prefix) {
      assert s == prefix + s[|prefix|..];
    }
    forall rest | s == prefix + rest
      ensures StartsWith(s, prefix)
    {
      assert s[..|prefix|] == prefix;
    }
  }
}
