/** Word scoring (scoreWord in server/board/BoardTools.js): a length bonus plus
    the sum of fixed per-letter values. */
module Scoring {

  /** letterScores: the points of 'a' .. 'z', indexed by the letter's distance from 'a'. */
  const LetterScores: seq<nat> :=
    [1, 3, 3, 2, 1, 4, 2, 4, 1, 8, 5, 1, 3, 1, 1, 3, 10, 1, 1, 1, 1, 4, 4, 8, 4, 10]

  /** lengthScores: the bonus for a word of length 1 .. 16, indexed by length - 1. */
  const LengthScores: seq<nat> :=
    [0, 0, 1, 1, 2, 3, 5, 11, 11, 11, 11, 11, 11, 11, 11, 11]

  /** The longest length that has an entry in lengthScores. */
  const MaxWordLength: nat := 16

  predicate IsLowerLetter(c: char) {
    'a' <= c <= 'z'
  }

  predicate AllLower(s: string) {
    forall i :: 0 <= i < |s| ==> IsLowerLetter(s[i])
  }

  /** A word for which both table lookups of scoreWord find an entry. */
  predicate Scorable(w: string) {
    1 <= |w| <= MaxWordLength && AllLower(w)
  }

  function LetterValue(c: char): (v: nat)
    requires IsLowerLetter(c)
    ensures 1 <= v <= 10
  {
    LetterScores[c as int - 'a' as int]
  }

  function LengthBonus(n: nat): (b: nat)
    requires 1 <= n <= MaxWordLength
    ensures b <= 11
  {
    LengthScores[n - 1]
  }

  /** The sum of the letter values of s (accumulated from the left, as the loop does). */
  function LetterSum(s: string): (sum: nat)
    requires AllLower(s)
  {
    if s == [] then 0 else LetterSum(s[..|s| - 1]) + LetterValue(s[|s| - 1])
  }

  /** The score of a scorable word: its length bonus plus its letters' values. */
  function WordScore(w: string): (score: int)
    requires Scorable(w)
  {
    LengthBonus(|w|) + LetterSum(w)
  }

  /** A JavaScript number as scoreWord produces it: an integer, or NaN once an
      undefined table entry has taken part in the sum (an undefined length entry
      with no letters to add is folded into NaN as well). */
  datatype JsNumber = Num(value: int) | NaN

  /** scoreWord: start from the length bonus and add each letter's value. A length
      outside 1 .. 16 or a character outside 'a' .. 'z' has no table entry, and the
      sum is then no number at all. */
  method ScoreWord(word: string) returns (score: JsNumber)
    ensures score.Num? <==> Scorable(word)
    ensures score.Num? ==> score.value == LengthBonus(|word|) + LetterSum(word)
  {
    score := if 1 <= |word| <= MaxWordLength then Num(LengthScores[|word| - 1]) else NaN;
    for i := 0 to |word|
      invariant score.Num? <==> 1 <= |word| <= MaxWordLength && AllLower(word[..i])
      invariant score.Num? ==> score.value == LengthBonus(|word|) + LetterSum(word[..i])
    {
      assert word[..i + 1][..i] == word[..i];
      score := if score.Num? && IsLowerLetter(word[i]) then Num(score.value + LetterValue(word[i])) else NaN;
    }
    assert word[..|word|] == word;
  }

  lemma {:induction false} LetterSumAppend(a: string, b: string)
    requires AllLower(a) && AllLower(b)
    ensures AllLower(a + b)
    ensures LetterSum(a + b) == LetterSum(a) + LetterSum(b)
    decreases |b|
  {
    assert AllLower(a + b) by {
      forall i | 0 <= i < |a + b| ensures IsLowerLetter((a + b)[i]) {
        if i < |a| { assert (a + b)[i] == a[i]; } else { assert (a + b)[i] == b[i - |a|]; }
      }
    }
    if b == [] {
      assert a + b == a;
    } else {
      var b' := b[..|b| - 1];
      assert (a + b)[..|a + b| - 1] == a + b';
      LetterSumAppend(a, b');
    }
  }

  /** Every letter is worth at least one point. */
  lemma {:induction false} LetterSumAtLeastLength(s: string)
    requires AllLower(s)
    ensures LetterSum(s) >= |s|
    decreases |s|
  {
    if s != [] {
      LetterSumAtLeastLength(s[..|s| - 1]);
    }
  }

  lemma AllLowerSlice(s: string, i: nat, j: nat)
    requires AllLower(s) && i <= j <= |s|
    ensures AllLower(s[i..j])
  {
    forall k | 0 <= k < j - i ensures IsLowerLetter(s[i..j][k]) {
      assert s[i..j][k] == s[i + k];
    }
  }

  /** Taking a letter out of the middle of a string lowers the sum by that letter's value. */
  lemma LetterSumRemove(left: string, c: char, right: string)
    requires AllLower(left) && IsLowerLetter(c) && AllLower(right)
    ensures AllLower(left + [c] + right) && AllLower(left + right)
    ensures LetterSum(left + [c] + right) == LetterSum(left + right) + LetterValue(c)
  {
    assert AllLower([c]);
    LetterSumAppend(left, [c]);
    LetterSumAppend(left + [c], right);
    LetterSumAppend(left, right);
    assert LetterSum([c]) == LetterValue(c) by {
      assert [c][..0] == [];
    }
  }

  lemma MultisetRemove(s: string, k: nat)
    requires k < |s|
    ensures multiset(s[..k] + s[k + 1..]) == multiset(s) - multiset{s[k]}
  {
    assert s == s[..k] + [s[k]] + s[k + 1..];
  }

  /** Reordering the letters does not change their sum. */
  lemma {:induction false} LetterSumPermutation(a: string, b: string)
    requires AllLower(a) && AllLower(b)
    requires multiset(a) == multiset(b)
    ensures LetterSum(a) == LetterSum(b)
    decreases |a|
  {
    if a == [] {
      assert |b| == |multiset(b)| == 0;
    } else {
      var a' := a[..|a| - 1];
      var c := a[|a| - 1];
      assert a == a' + [c];
      assert multiset(a') == multiset(a) - multiset{c};
      assert c in multiset(b);
      var k :| 0 <= k < |b| && b[k] == c;
      AllLowerSlice(b, 0, k);
      AllLowerSlice(b, k + 1, |b|);
      assert b == b[..k] + [c] + b[k + 1..];
      LetterSumRemove(b[..k], c, b[k + 1..]);
      MultisetRemove(b, k);
      LetterSumPermutation(a', b[..k] + b[k + 1..]);
    }
  }

  /** The length bonus never decreases as words get longer. */
  lemma {:induction false} LengthBonusMonotone(m: nat, n: nat)
    requires 1 <= m <= n <= MaxWordLength
    ensures LengthBonus(m) <= LengthBonus(n)
    decreases n - m
  {
    if m < n {
      assert LengthScores[m - 1] <= LengthScores[m];
      LengthBonusMonotone(m + 1, n);
    }
  }

  /** No bonus for one- and two-letter words; a flat 11 from length 8 up to 16. */
  lemma LengthBonusPlateaus(n: nat)
    requires 1 <= n <= MaxWordLength
    ensures n <= 2 ==> LengthBonus(n) == 0
    ensures 8 <= n ==> LengthBonus(n) == 11
  {
  }

  lemma ScoreAtLeastLength(w: string)
    requires Scorable(w)
    ensures WordScore(w) >= |w|
  {
    LetterSumAtLeastLength(w);
  }

  /** Anagrams score the same. */
  lemma ScorePermutationInvariant(a: string, b: string)
    requires Scorable(a)
    requires multiset(a) == multiset(b)
    ensures Scorable(b)
    ensures WordScore(a) == WordScore(b)
  {
    assert |a| == |multiset(a)| == |multiset(b)| == |b|;
    forall i | 0 <= i < |b| ensures IsLowerLetter(b[i]) {
      assert b[i] in multiset(a);
    }
    LetterSumPermutation(a, b);
  }

  /** Adding a letter to a word that is still at most 16 long strictly raises its score. */
  lemma AppendLetterIncreases(w: string, c: char)
    requires Scorable(w) && |w| < MaxWordLength && IsLowerLetter(c)
    ensures Scorable(w + [c])
    ensures WordScore(w + [c]) > WordScore(w)
  {
    assert (w + [c])[..|w|] == w;
    assert AllLower(w + [c]) by {
      forall i | 0 <= i < |w + [c]| ensures IsLowerLetter((w + [c])[i]) {
        if i < |w| { assert (w + [c])[i] == w[i]; }
      }
    }
    LengthBonusMonotone(|w|, |w| + 1);
  }

  lemma ScoreExamples()
    ensures WordScore("cat") == 6
    ensures WordScore("quiz") == 23
  {
    assert LetterSum("cat") == 5 by {
      assert "cat"[..2] == "ca" && "ca"[..1] == "c" && "c"[..0] == "";
    }
    assert LetterSum("quiz") == 22 by {
      assert "quiz"[..3] == "qui" && "qui"[..2] == "qu" && "qu"[..1] == "q" && "q"[..0] == "";
    }
  }
}
