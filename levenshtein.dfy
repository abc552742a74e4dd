/**
 * The nickname edit distance used by the similarity vector.  The Go program
 * calls an external Levenshtein library; this module gives the standard
 * recursive definition (insertion, deletion and substitution each cost one)
 * and proves the properties the similarity vector relies on.
 */
module Levenshtein {

  function Min3(a: nat, b: nat, c: nat): (m: nat)
    ensures m <= a && m <= b && m <= c
    ensures m == a || m == b || m == c
  {
    if a <= b && a <= c then a else if b <= c then b else c
  }

  /**
   * Levenshtein distance between two strings, by cases on their first
   * characters.  It lies between the difference and the maximum of the two
   * lengths.
   */
  function EditDistance(a: string, b: string): (d: nat)
    ensures |a| - |b| <= d && |b| - |a| <= d
    ensures d <= if |a| <= |b| then |b| else |a|
    decreases |a| + |b|
  {
    if |a| == 0 then |b|
    else if |b| == 0 then |a|
    else Min3(EditDistance(a[1..], b) + 1,
              EditDistance(a, b[1..]) + 1,
              EditDistance(a[1..], b[1..]) + (if a[0] == b[0] then 0 else 1))
  }

  /** The distance does not depend on the order of its arguments. */
  lemma {:induction false} EditDistanceSymmetric(a: string, b: string)
    ensures EditDistance(a, b) == EditDistance(b, a)
    decreases |a| + |b|
  {
    if |a| != 0 && |b| != 0 {
      EditDistanceSymmetric(a[1..], b);
      EditDistanceSymmetric(a, b[1..]);
      EditDistanceSymmetric(a[1..], b[1..]);
    }
  }

  /** Distance zero means the strings are equal, and only then. */
  lemma {:induction false} EditDistanceZeroIff(a: string, b: string)
    ensures EditDistance(a, b) == 0 <==> a == b
    decreases |a| + |b|
  {
    if |a| != 0 && |b| != 0 {
      EditDistanceZeroIff(a[1..], b[1..]);
      if a == b {
        assert a[1..] == b[1..];
      }
    }
  }

  /** Appending t to a string puts it at distance exactly |t| from the original. */
  lemma {:induction false} EditDistanceAppend(s: string, t: string)
    ensures EditDistance(s, s + t) == |t|
    decreases |s|
  {
    if |s| != 0 {
      assert (s + t)[1..] == s[1..] + t;
      EditDistanceAppend(s[1..], t);
    }
  }
}
