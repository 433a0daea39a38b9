/**
 * Text primitives the tutor relies on: Python's `str.lower()` restricted to
 * ASCII, and Python's substring test `pattern in text` (no word boundaries).
 */
module Text {

  /** Lowercases one character; only 'A'..'Z' change. */
  function LowerChar(c: char): char
  {
    if 'A' <= c <= 'Z' then (c as int + 32) as char else c
  }

  /** `s.lower()` on ASCII text: every character lowercased, nothing else changed. */
  function Lower(s: string): (r: string)
    ensures |r| == |s|
    ensures forall i :: 0 <= i < |r| ==> !('A' <= r[i] <= 'Z')
    ensures forall i :: 0 <= i < |s| && !('A' <= s[i] <= 'Z') ==> r[i] == s[i]
    ensures forall i :: 0 <= i < |s| && 'A' <= s[i] <= 'Z' ==> r[i] as int - s[i] as int == 'a' as int - 'A' as int
  {
    seq(|s|, i requires 0 <= i < |s| => LowerChar(s[i]))
  }

  /** Lowercasing distributes over concatenation. */
  lemma LowerAppend(s: string, t: string)
    ensures Lower(s + t) == Lower(s) + Lower(t)
  {
  }

  /** Python's `pattern in text`: a scan that tries every start position. */
  predicate Contains(text: string, pattern: string)
    decreases |text|
  {
    if pattern <= text then true
    else if text == [] then false
    else Contains(text[1..], pattern)
  }

  /** `pattern` occurs in `text` starting at index `i`. */
  predicate OccursAt(text: string, pattern: string, i: int)
  {
    0 <= i && i + |pattern| <= |text| && text[i..i + |pattern|] == pattern
  }

  /** The scan finds the pattern exactly when some start position holds it. */
  lemma {:induction false} ContainsIff(text: string, pattern: string)
    ensures Contains(text, pattern) <==> exists i :: OccursAt(text, pattern, i)
    decreases |text|
  {
    if pattern <= text {
      assert OccursAt(text, pattern, 0);
    } else if text == [] {
      assert forall i :: !OccursAt(text, pattern, i);
    } else {
      forall i | OccursAt(text, pattern, i) && i > 0
        ensures OccursAt(text[1..], pattern, i - 1)
      {
        assert text[1..][i - 1..i - 1 + |pattern|] == text[i..i + |pattern|];
      }
      ContainsIff(text[1..], pattern);
      if Contains(text[1..], pattern) {
        var i :| OccursAt(text[1..], pattern, i);
        assert text[i + 1..i + 1 + |pattern|] == text[1..][i..i + |pattern|];
        assert OccursAt(text, pattern, i + 1);
      }
    }
  }

  /** A pattern found in a text is still found after text is added on either side. */
  lemma ContainsExtend(prefix: string, text: string, suffix: string, pattern: string)
    requires Contains(text, pattern)
    ensures Contains(prefix + text + suffix, pattern)
  {
    ContainsIff(text, pattern);
    var i :| OccursAt(text, pattern, i);
    var whole := prefix + text + suffix;
    assert whole[|prefix| + i..|prefix| + i + |pattern|] == text[i..i + |pattern|];
    assert OccursAt(whole, pattern, |prefix| + i);
    ContainsIff(whole, pattern);
  }

  /** A pattern holding a character the text lacks cannot occur in it. */
  lemma AbsentCharacter(text: string, pattern: string, c: char)
    requires c in pattern && c !in text
    ensures !Contains(text, pattern)
  {
    ContainsIff(text, pattern);
  }
}
