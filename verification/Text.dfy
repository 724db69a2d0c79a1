/** Python's substring test `t in s` on strings. */
module Text {

  /** `t` occurs in `s` starting at index `i`. */
  predicate OccursAt(s: string, t: string, i: int)
  {
    0 <= i <= |s| - |t| && s[i..i + |t|] == t
  }

  /** Some window of `s` starting at `i` or later spells `t`, scanning left to right. */
  predicate ContainsFrom(s: string, t: string, i: nat)
    decreases |s| - i
  {
    i + |t| <= |s| && (s[i..i + |t|] == t || ContainsFrom(s, t, i + 1))
  }

  /** Python's `t in s` for two strings. */
  predicate Contains(s: string, t: string)
  {
    ContainsFrom(s, t, 0)
  }

  lemma {:induction false} ContainsFromIffOccurs(s: string, t: string, i: nat)
    ensures ContainsFrom(s, t, i) <==> exists k :: i <= k && OccursAt(s, t, k)
    decreases |s| - i
  {
    if i + |t| <= |s| {
      ContainsFromIffOccurs(s, t, i + 1);
      if s[i..i + |t|] == t {
        assert OccursAt(s, t, i);
      } else {
        assert !OccursAt(s, t, i);
        assert forall k :: i <= k && OccursAt(s, t, k) ==> i + 1 <= k;
      }
    }
  }

  /** The scan agrees with the definition: `t in s` exactly when some window of `s` spells `t`. */
  lemma ContainsIffOccurs(s: string, t: string)
    ensures Contains(s, t) <==> exists k :: OccursAt(s, t, k)
  {
    ContainsFromIffOccurs(s, t, 0);
  }
}
