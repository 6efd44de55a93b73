/** The few functions of Go's `strings` package that the core relies on. */
module Text {

  /** strings.HasPrefix */
  predicate HasPrefix(s: string, prefix: string) {
    |prefix| <= |s| && s[..|prefix|] == prefix
  }

  /** strings.Contains, by scanning for a position where `sub` starts. */
  predicate Contains(s: string, sub: string)
    decreases |s|
  {
    HasPrefix(s, sub) || (|s| > 0 && Contains(s[1..], sub))
  }

  /** `sub` occurs in `s` starting at index `i`. */
  predicate OccursAt(s: string, sub: string, i: int) {
    0 <= i && i + |sub| <= |s| && s[i..i + |sub|] == sub
  }

  /** Contains agrees with the positional definition of a substring. */
  lemma {:induction false} ContainsIff(s: string, sub: string)
    ensures Contains(s, sub) <==> exists i :: OccursAt(s, sub, i)
    decreases |s|
  {
    if HasPrefix(s, sub) {
      assert OccursAt(s, sub, 0);
    } else if |s| == 0 {
    } else {
      ContainsIff(s[1..], sub);
      if exists i :: OccursAt(s, sub, i) {
        var i :| OccursAt(s, sub, i);
        assert i != 0;
        assert OccursAt(s[1..], sub, i - 1);
      }
      if Contains(s[1..], sub) {
        var j :| OccursAt(s[1..], sub, j);
        assert OccursAt(s, sub, j + 1);
      }
    }
  }

  /** The last element of strings.Split(key, "/"): the part of `key` after its final '/'
      (all of `key` when it has none, empty when `key` ends in '/'). */
  function LastSegment(key: string): (r: string)
    ensures |r| <= |key|
  {
    if |key| == 0 || key[|key| - 1] == '/' then ""
    else LastSegment(key[..|key| - 1]) + [key[|key| - 1]]
  }

  /** The last segment is a suffix of the key without any '/', and it is either the whole key
      or preceded by a '/'. */
  lemma {:induction false} LastSegmentSpec(key: string)
    ensures '/' !in LastSegment(key)
    ensures LastSegment(key) == key[|key| - |LastSegment(key)|..]
    ensures |LastSegment(key)| == |key| || key[|key| - |LastSegment(key)| - 1] == '/'
  {
    if |key| != 0 && key[|key| - 1] != '/' {
      LastSegmentSpec(key[..|key| - 1]);
    }
  }
}
