/**
 * The content filter of NuAnswers.py (class TutorRules): a tutor utterance is
 * rejected when it contains direct-answer language, or when it contains no
 * guiding question; a rejected utterance is replaced by a redirecting template.
 */
module TutorRules {
  import opened Text

  /** Direct-answer language, matched as substrings of the lowercased text. */
  const ForbiddenPatterns: seq<string> := [
    "the answer is",
    "you should write",
    "the correct answer is",
    "here's the answer",
    "the solution is",
    "you need to write",
    "you must write",
    "the final answer is",
    "the result is",
    "you should get",
    "the answer will be",
    "the answer would be",
    "the answer should be",
    "the answer must be",
    "the answer needs to be",
    "here's how to solve it",
    "the way to solve this is",
    "you need to do this",
    "the formula is",
    "the calculation is",
    "the method is",
    "the approach is",
    "you need to use",
    "the correct method is",
    "the right way is"
  ]

  /** Guiding phrases; an accepted utterance contains at least one. */
  const RequiredPhrases: seq<string> := [
    "what do you think",
    "how would you approach",
    "can you explain",
    "let's think about",
    "consider this",
    "what if",
    "suppose that",
    "imagine if",
    "let's explore",
    "how might you",
    "what's your understanding of",
    "how would you break this down",
    "what factors would you consider",
    "what's the relationship between",
    "how would you analyze this",
    "what information would you need",
    "how would you verify this",
    "what assumptions are you making",
    "how would you test this",
    "what's the first step you would take"
  ]

  /** The fallback utterances; they are surfaced without being validated. */
  const ResponseTemplates: seq<string> := [
    "Let's think about this step by step. What would you do first?",
    "How would you approach this problem?",
    "What information do you think we need to solve this?",
    "Can you explain your reasoning so far?",
    "What's the first thing you would consider?",
    "How would you start solving this?",
    "What do you know about this concept?",
    "Let's break this down. What's the first step?",
    "What would you need to know to solve this?",
    "How would you organize your thoughts on this?",
    "What's your understanding of the key concepts here?",
    "How would you verify if your approach is correct?",
    "What assumptions are you making in your approach?",
    "How would you test your solution?",
    "What alternative approaches could you consider?"
  ]

  const DirectAnswerReason := "Response contains direct answer pattern"
  const MissingPhraseReason := "Response missing required guiding phrase"
  const ValidReason := "Response is valid"

  /** Some forbidden pattern occurs in the lowercased response. */
  predicate HasDirectAnswer(response: string)
  {
    exists p :: p in ForbiddenPatterns && Contains(Lower(response), p)
  }

  /** Some required phrase occurs in the lowercased response. */
  predicate HasGuidingPhrase(response: string)
  {
    exists q :: q in RequiredPhrases && Contains(Lower(response), q)
  }

  /** What `validate_response` accepts. */
  predicate IsValidResponse(response: string)
  {
    !HasDirectAnswer(response) && HasGuidingPhrase(response)
  }

  /**
   * `validate_response`: the forbidden patterns are scanned first, in order,
   * so direct-answer language is reported even when a guiding phrase is present.
   */
  method ValidateResponse(response: string) returns (isValid: bool, reason: string)
    ensures isValid <==> IsValidResponse(response)
    ensures HasDirectAnswer(response) ==> reason == DirectAnswerReason
    ensures !HasDirectAnswer(response) && !HasGuidingPhrase(response) ==> reason == MissingPhraseReason
    ensures !HasDirectAnswer(response) && HasGuidingPhrase(response) ==> reason == ValidReason
  {
    var responseLower := Lower(response);
    for i := 0 to |ForbiddenPatterns|
      invariant forall j :: 0 <= j < i ==> !Contains(responseLower, ForbiddenPatterns[j])
    {
      if Contains(responseLower, ForbiddenPatterns[i]) {
        return false, DirectAnswerReason;
      }
    }
    var hasRequiredPhrase := exists q :: q in RequiredPhrases && Contains(responseLower, q);
    if !hasRequiredPhrase {
      return false, MissingPhraseReason;
    }
    return true, ValidReason;
  }

  /** `get_redirecting_response`: some template; which one is left to chance. */
  method GetRedirectingResponse() returns (response: string)
    ensures response in ResponseTemplates
  {
    assert ResponseTemplates[0] in ResponseTemplates;
    response :| response in ResponseTemplates;
  }
}
