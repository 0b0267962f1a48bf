/** Substring search with the meaning of Python's `word in text` on strings. */
module Strings {

  /** `word` occurs in `text` starting at position `i`. */
  predicate OccursAt(text: string, word: string, i: nat)
  {
    i + |word| <= |text| && text[i..i + |word|] == word
  }

  /** An occurrence in `text[1..]` is an occurrence in `text` one position later. */
  lemma ShiftOccurrence(text: string, word: string)
    requires |text| > 0
    ensures forall i: nat :: OccursAt(text[1..], word, i) <==> OccursAt(text, word, i + 1)
  {
    forall i: nat
      ensures OccursAt(text[1..], word, i) <==> OccursAt(text, word, i + 1)
    {
      if i + |word| <= |text[1..]| {
        assert text[1..][i..i + |word|] == text[i + 1..i + 1 + |word|];
      }
    }
  }

  /** Case-sensitive substring test, by trying each starting position in turn. */
  function Contains(text: string, word: string): (found: bool)
    ensures found ==> |word| <= |text|
    ensures word == [] ==> found
    ensures text == word ==> found
    decreases |text|
  {
    if |text| < |word| then false
    else if text[..|word|] == word then true
    else Contains(text[1..], word)
  }

  /** `Contains` is Python's `word in text`: true exactly when `word` occurs somewhere in `text`. */
  lemma {:induction false} ContainsIffOccurs(text: string, word: string)
    ensures Contains(text, word) <==> exists i: nat :: OccursAt(text, word, i)
    decreases |text|
  {
    if |text| < |word| {
    } else if text[..|word|] == word {
      assert OccursAt(text, word, 0);
    } else {
      ContainsIffOccurs(text[1..], word);
      ShiftOccurrence(text, word);
      assert !OccursAt(text, word, 0);
      assert forall i: nat :: OccursAt(text, word, i) ==> i > 0 && OccursAt(text[1..], word, i - 1);
    }
  }

  /** Some word of `words` occurs in `text` (Python's `a in t or b in t or ...`). */
  predicate ContainsAny(text: string, words: seq<string>)
  {
    exists k :: 0 <= k < |words| && Contains(text, words[k])
  }

  /** A word with a character that never appears in `text` does not occur in `text`. */
  lemma NotContainsMissingChar(text: string, word: string, k: nat)
    requires k < |word| && word[k] !in text
    ensures !Contains(text, word)
  {
    ContainsIffOccurs(text, word);
  }

  /** A word found at some position is contained. */
  lemma ContainsAt(text: string, word: string, i: nat)
    requires OccursAt(text, word, i)
    ensures Contains(text, word)
  {
    ContainsIffOccurs(text, word);
  }

  /**
   * Split `text` into two overlapping pieces, `text[..m + |word| - 1]` and `text[m..]`:
   * every occurrence lies inside one of them, so a word absent from both is absent.
   */
  lemma NotContainsSplit(text: string, m: nat, word: string)
    requires 0 < |word| && m + |word| - 1 <= |text|
    requires !Contains(text[..m + |word| - 1], word)
    requires !Contains(text[m..], word)
    ensures !Contains(text, word)
  {
    var left, right := text[..m + |word| - 1], text[m..];
    ContainsIffOccurs(text, word);
    ContainsIffOccurs(left, word);
    ContainsIffOccurs(right, word);
    forall i: nat | i < m && OccursAt(text, word, i)
      ensures OccursAt(left, word, i)
    {
      assert left[i..i + |word|] == text[i..i + |word|];
    }
    forall i: nat | m <= i && OccursAt(text, word, i)
      ensures OccursAt(right, word, i - m)
    {
      assert right[i - m..i - m + |word|] == text[i..i + |word|];
    }
  }
}

