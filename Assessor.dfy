/**
 * `_assess_response` of NuAnswers.py: a student answer is "good" when the
 * number of the current topic's keywords it contains plus the number of
 * critical-thinking indicators it contains reaches a fixed threshold. This is
 * a heuristic count of substring hits, not a grader.
 */
module Assessor {
  import opened Text
  import opened Catalog

  datatype Quality = Good | NeedsGuidance

  /** Markers of reasoning; plain substrings, so "if" also matches inside "difference". */
  const CriticalThinkingIndicators: seq<string> := [
    "because",
    "therefore",
    "thus",
    "since",
    "if",
    "then",
    "assume",
    "consider",
    "analyze",
    "evaluate"
  ]

  const GoodThreshold: nat := 3

  /** How many entries of `patterns` occur in the text; each entry counts at most once. */
  function CountOccurring(textLower: string, patterns: seq<string>): (n: nat)
    ensures n <= |patterns|
    ensures n == 0 <==> forall j :: 0 <= j < |patterns| ==> !Contains(textLower, patterns[j])
    ensures n == |patterns| <==> forall j :: 0 <= j < |patterns| ==> Contains(textLower, patterns[j])
  {
    if patterns == [] then 0
    else (if Contains(textLower, patterns[0]) then 1 else 0) + CountOccurring(textLower, patterns[1..])
  }

  /** Keyword hits for the topic plus indicator hits, both on the lowercased response. */
  function Score(topic: Topic, response: string): nat
  {
    CountOccurring(Lower(response), TopicKeywords(topic))
      + CountOccurring(Lower(response), CriticalThinkingIndicators)
  }

  /** `_assess_response`: no topic means guidance; otherwise the score decides. */
  function Assess(topic: Option<Topic>, response: string): (q: Quality)
    ensures topic.None? ==> q == NeedsGuidance
    ensures topic.Some? ==> (q == Good <==> Score(topic.value, response) >= GoodThreshold)
  {
    match topic
    case None => NeedsGuidance
    case Some(t) => if Score(t, response) >= GoodThreshold then Good else NeedsGuidance
  }

  /** A text in which every pattern of the first still occurs scores at least as high. */
  lemma {:induction false} CountMonotone(a: string, b: string, patterns: seq<string>)
    requires forall p :: Contains(a, p) ==> Contains(b, p)
    ensures CountOccurring(a, patterns) <= CountOccurring(b, patterns)
  {
    if patterns != [] {
      CountMonotone(a, b, patterns[1..]);
    }
  }

  /**
   * Adding text before or after an answer never turns "good" into
   * "needs guidance": every hit of the original is still a hit.
   */
  lemma AssessExtend(topic: Option<Topic>, prefix: string, response: string, suffix: string)
    requires Assess(topic, response) == Good
    ensures Assess(topic, prefix + response + suffix) == Good
  {
    var whole := prefix + response + suffix;
    LowerAppend(prefix, response);
    LowerAppend(prefix + response, suffix);
    assert Lower(whole) == Lower(prefix) + Lower(response) + Lower(suffix);
    forall p | Contains(Lower(response), p)
      ensures Contains(Lower(whole), p)
    {
      ContainsExtend(Lower(prefix), Lower(response), Lower(suffix), p);
    }
    CountMonotone(Lower(response), Lower(whole), TopicKeywords(topic.value));
    CountMonotone(Lower(response), Lower(whole), CriticalThinkingIndicators);
  }
}
