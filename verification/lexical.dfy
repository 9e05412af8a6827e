/**
 * Lexicographic comparison of strings, as std::string::compare performs it:
 * characters are compared one by one from the front, the first difference
 * decides, and when one string is a proper prefix of the other the shorter
 * one comes first.
 */
module Lexical {

  /**
   * The sign of a.compare(b): negative when a sorts before b, zero when the
   * strings are equal, positive when a sorts after b.
   */
  function Compare(a: string, b: string): (r: int)
    ensures -1 <= r <= 1
    decreases |a|
  {
    if |a| == 0 then (if |b| == 0 then 0 else -1)
    else if |b| == 0 then 1
    else if a[0] < b[0] then -1
    else if b[0] < a[0] then 1
    else Compare(a[1..], b[1..])
  }

  /**
   * Reference definition of "a sorts before b", independent of Compare: the
   * two strings agree on their first k characters and then either a ends
   * while b goes on, or a's character at k is the smaller one.
   */
  ghost predicate PrecedesAt(a: string, b: string, k: nat) {
    && k <= |a| && k <= |b|
    && a[..k] == b[..k]
    && (|a| == k < |b| || (k < |a| && k < |b| && a[k] < b[k]))
  }

  ghost predicate Precedes(a: string, b: string) {
    exists k: nat :: PrecedesAt(a, b, k)
  }

  /** A negative comparison means exactly that a precedes b. */
  lemma {:induction false} CompareNegativeIffPrecedes(a: string, b: string)
    ensures Compare(a, b) < 0 <==> Precedes(a, b)
    decreases |a|
  {
    if |a| == 0 || |b| == 0 {
      if |a| == 0 && |b| > 0 {
        assert PrecedesAt(a, b, 0);
      }
      if Precedes(a, b) {
        var k: nat :| PrecedesAt(a, b, k);
        assert |a| == 0 && |b| > 0;
      }
    } else if a[0] != b[0] {
      if a[0] < b[0] {
        assert PrecedesAt(a, b, 0);
      }
      if Precedes(a, b) {
        var k: nat :| PrecedesAt(a, b, k);
        assert k == 0;
      }
    } else {
      CompareNegativeIffPrecedes(a[1..], b[1..]);
      if Precedes(a[1..], b[1..]) {
        var k: nat :| PrecedesAt(a[1..], b[1..], k);
        assert a[..k + 1] == [a[0]] + a[1..][..k];
        assert b[..k + 1] == [b[0]] + b[1..][..k];
        assert PrecedesAt(a, b, k + 1);
      }
      if Precedes(a, b) {
        var k: nat :| PrecedesAt(a, b, k);
        assert k > 0;
        assert a[1..][..k - 1] == a[..k][1..];
        assert b[1..][..k - 1] == b[..k][1..];
        assert PrecedesAt(a[1..], b[1..], k - 1);
      }
    }
  }

  /** Compare is zero exactly on equal strings. */
  lemma {:induction false} CompareZeroIffEqual(a: string, b: string)
    ensures Compare(a, b) == 0 <==> a == b
    decreases |a|
  {
    if |a| > 0 && |b| > 0 && a[0] == b[0] {
      CompareZeroIffEqual(a[1..], b[1..]);
      assert a == [a[0]] + a[1..];
      assert b == [b[0]] + b[1..];
    }
  }

  /** Swapping the operands negates the comparison. */
  lemma {:induction false} CompareAntisymmetric(a: string, b: string)
    ensures Compare(a, b) == -Compare(b, a)
    decreases |a|
  {
    if |a| > 0 && |b| > 0 && a[0] == b[0] {
      CompareAntisymmetric(a[1..], b[1..]);
    }
  }

  /** "Sorts before" is transitive. */
  lemma {:induction false} CompareTransitive(a: string, b: string, c: string)
    requires Compare(a, b) < 0 && Compare(b, c) < 0
    ensures Compare(a, c) < 0
    decreases |a|
  {
    if |a| > 0 && |b| > 0 && |c| > 0 && a[0] == b[0] && b[0] == c[0] {
      CompareTransitive(a[1..], b[1..], c[1..]);
    }
  }
}
