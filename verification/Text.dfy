// C strings as sequences of characters, with the case-insensitive comparison
// (strcasecmp) that every comparison of names in FTB uses.
module Text {

  /** The lower-case form of an ASCII letter; every other character is itself. */
  function FoldChar(c: char): char {
    if 'A' <= c <= 'Z' then (c as int + 32) as char else c
  }

  /** The lower-case form of a whole string, the representative of its class. */
  function Fold(s: string): (r: string)
    ensures |r| == |s|
    ensures forall i :: 0 <= i < |s| ==> r[i] == FoldChar(s[i])
  {
    seq(|s|, i requires 0 <= i < |s| => FoldChar(s[i]))
  }

  /** strcasecmp(a, b) == 0 */
  predicate EqFold(a: string, b: string) {
    |a| == |b| && forall i :: 0 <= i < |a| ==> FoldChar(a[i]) == FoldChar(b[i])
  }

  lemma EqFoldIsFoldEquality(a: string, b: string)
    ensures EqFold(a, b) <==> Fold(a) == Fold(b)
  {
    if Fold(a) == Fold(b) {
      assert |a| == |Fold(a)| == |Fold(b)| == |b|;
      forall i | 0 <= i < |a| ensures FoldChar(a[i]) == FoldChar(b[i]) {
        assert Fold(a)[i] == Fold(b)[i];
      }
    }
  }

  const UPPER := "ABCDEFGHIJKLMNOPQRSTUVWXYZ"
  const LOWER := "abcdefghijklmnopqrstuvwxyz"

  /** The k-th letter of the alphabet, in one case and the other. */
  ghost predicate Pair(c: char, d: char, k: nat) {
    k < 26 && ((c == UPPER[k] && d == LOWER[k]) || (c == LOWER[k] && d == UPPER[k]))
  }

  /** The same character, or the same letter of the alphabet in its two cases. */
  ghost predicate SameLetter(c: char, d: char) {
    c == d || exists k: nat :: Pair(c, d, k)
  }

  lemma Alphabets(k: nat)
    requires k < 26
    ensures UPPER[k] as int == 'A' as int + k && LOWER[k] as int == 'a' as int + k
  {
    assert k == 0 || k == 1 || k == 2 || k == 3 || k == 4 || k == 5 || k == 6 || k == 7 || k == 8 || k == 9 ||
           k == 10 || k == 11 || k == 12 || k == 13 || k == 14 || k == 15 || k == 16 || k == 17 || k == 18 ||
           k == 19 || k == 20 || k == 21 || k == 22 || k == 23 || k == 24 || k == 25;
  }

  lemma FoldCharExactly(c: char, d: char)
    ensures FoldChar(c) == FoldChar(d) <==> SameLetter(c, d)
  {
    if FoldChar(c) == FoldChar(d) && c != d {
      var k := FoldChar(c) as int - 'a' as int;
      Alphabets(k);
      assert Pair(c, d, k);
    }
    if k: nat :| Pair(c, d, k) {
      Alphabets(k);
    }
  }

  /** Strings compare equal exactly when they have the same letters, place by place. */
  lemma EqFoldExactly(a: string, b: string)
    ensures EqFold(a, b) <==> |a| == |b| && forall i :: 0 <= i < |a| ==> SameLetter(a[i], b[i])
  {
    forall i | 0 <= i < |a| && i < |b| ensures FoldChar(a[i]) == FoldChar(b[i]) <==> SameLetter(a[i], b[i]) {
      FoldCharExactly(a[i], b[i]);
    }
  }
}
