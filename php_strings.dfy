/** PHP's `str_contains`, defined concretely over strings so that the
    forwarder's filter rule can be stated exactly. */
module PhpStrings {

  /** `needle` occurs in `haystack` starting at index `i`. */
  predicate OccursAt(haystack: string, needle: string, i: nat)
  {
    i + |needle| <= |haystack| && haystack[i..i + |needle|] == needle
  }

  /** `str_contains($haystack, $needle)`: a left-to-right search for `needle`
      as a prefix of each suffix of `haystack`. The empty needle is found in
      every string, the empty haystack contains only the empty needle. */
  function StrContains(haystack: string, needle: string): bool
    decreases |haystack|
  {
    if needle <= haystack then true
    else if haystack == [] then false
    else StrContains(haystack[1..], needle)
  }

  /** The search finds exactly the needles that occur somewhere in the haystack. */
  lemma {:induction false} StrContainsSpec(haystack: string, needle: string)
    ensures StrContains(haystack, needle) <==> exists i: nat :: OccursAt(haystack, needle, i)
    decreases |haystack|
  {
    if needle <= haystack {
      assert OccursAt(haystack, needle, 0);
    } else if haystack == [] {
      assert needle != [];
    } else {
      var tail := haystack[1..];
      StrContainsSpec(tail, needle);
      forall i: nat ensures OccursAt(haystack, needle, i + 1) <==> OccursAt(tail, needle, i) {
        if i + 1 + |needle| <= |haystack| {
          assert haystack[i + 1..i + 1 + |needle|] == tail[i..i + |needle|];
        }
      }
      assert !OccursAt(haystack, needle, 0);
      if exists i: nat :: OccursAt(haystack, needle, i) {
        var i: nat :| OccursAt(haystack, needle, i);
        assert OccursAt(tail, needle, i - 1);
      }
      if exists i: nat :: OccursAt(tail, needle, i) {
        var i: nat :| OccursAt(tail, needle, i);
        assert OccursAt(haystack, needle, i + 1);
      }
    }
  }
}
