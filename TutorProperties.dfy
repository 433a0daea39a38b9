/**
 * Properties of the tutor's dialogue: what one turn preserves, what a whole
 * conversation preserves, the hint budget, and why a generated candidate is
 * only ever replaced for containing direct-answer language.
 */
module TutorProperties {
  import opened Text
  import opened TutorRules
  import opened Catalog
  import opened Assessor
  import opened FinanceTutor

  /** One turn keeps every reachable-state fact. */
  lemma StepKeepsInv(s: Session, input: string, s': Session, reply: Reply)
    requires Inv(s) && Step(s, input, s', reply)
    ensures Inv(s')
  {
  }

  /** `s'` is no earlier in the dialogue than `s`, and has given no fewer hints. */
  ghost predicate NotBehind(s: Session, s': Session)
  {
    && PhaseRank(s.phase) <= PhaseRank(s'.phase)
    && s.index <= s'.index
    && s.hints <= s'.hints
  }

  /**
   * One turn never moves the dialogue backwards: discussion and practice are
   * final, `topic_selected` is always left, a chosen topic never changes, the
   * step index and the hint count grow by at most one.
   */
  lemma StepProgress(s: Session, input: string, s': Session, reply: Reply)
    requires Step(s, input, s', reply)
    ensures NotBehind(s, s')
    ensures s.phase == InDiscussion || s.phase == Practice ==> s'.phase == s.phase
    ensures s.phase == TopicSelected && Lower(input) != "exit" ==>
              s'.phase == Practice || s'.phase == InDiscussion
    ensures s.phase != Initial ==> s'.topic == s.topic
    ensures s'.index <= s.index + 1
    ensures s'.hints <= s.hints + 1
  {
  }

  /** `states[k+1]` and `replies[k]` are what turn `k` made of `states[k]` and `inputs[k]`. */
  ghost predicate Conversation(states: seq<Session>, inputs: seq<string>, replies: seq<Reply>)
  {
    && |states| == |inputs| + 1
    && |replies| == |inputs|
    && forall k :: 0 <= k < |inputs| ==> Step(states[k], inputs[k], states[k + 1], replies[k])
  }

  /** Along a chain in which each state keeps the invariant and is not behind the last, all do and none is. */
  lemma {:induction false} ChainInvariant(states: seq<Session>)
    requires |states| > 0 && Inv(states[0])
    requires forall k :: 0 <= k < |states| - 1 ==>
               (Inv(states[k]) ==> Inv(states[k + 1])) && NotBehind(states[k], states[k + 1])
    ensures forall k :: 0 <= k < |states| ==> Inv(states[k])
    ensures forall j, k :: 0 <= j <= k < |states| ==> NotBehind(states[j], states[k])
  {
    if |states| > 1 {
      var n := |states| - 1;
      ChainInvariant(states[..n]);
      assert forall k :: 0 <= k < n ==> states[..n][k] == states[k];
      assert Inv(states[n - 1]) && NotBehind(states[n - 1], states[n]);
    }
  }

  /**
   * Over a whole conversation started from a fresh tutor, every state is
   * reachable-valid (so at most three hints are ever given) and the phase
   * rank, the step index and the hint count never decrease.
   */
  lemma ConversationInvariant(states: seq<Session>, inputs: seq<string>, replies: seq<Reply>)
    requires Conversation(states, inputs, replies) && states[0] == Fresh
    ensures forall k :: 0 <= k < |states| ==> Inv(states[k]) && states[k].hints <= MaxHints
    ensures forall j, k :: 0 <= j <= k < |states| ==> NotBehind(states[j], states[k])
  {
    forall k | 0 <= k < |states| - 1
      ensures (Inv(states[k]) ==> Inv(states[k + 1])) && NotBehind(states[k], states[k + 1])
    {
      assert Step(states[k], inputs[k], states[k + 1], replies[k]);
      if Inv(states[k]) {
        StepKeepsInv(states[k], inputs[k], states[k + 1], replies[k]);
      }
      StepProgress(states[k], inputs[k], states[k + 1], replies[k]);
    }
    ChainInvariant(states);
  }

  /**
   * Once three hints have been given, asking for a hint in practice returns
   * the step-back message and changes nothing.
   */
  lemma HintBudgetExhausted(s: Session, input: string, s': Session, reply: Reply)
    requires s.phase == Practice && s.hints == MaxHints
    requires Lower(input) != "exit" && Contains(Lower(input), "hint")
    requires Step(s, input, s', reply)
    ensures reply == Say(StepBackMessage) && s' == s
  {
  }

  /**
   * A discussion turn: a good answer moves one step on and is answered with a
   * move-on utterance for the new step (or a template in its place), or with
   * the mastered message once the path is used up; any other answer keeps
   * the step and gets a hint.
   */
  lemma DiscussionOutcome(s: Session, input: string, s': Session, text: string)
    requires DiscussionStep(s, input, s', text)
    ensures Assess(s.topic, input) == Good ==>
              && s.topic.Some?
              && s' == s.(index := s.index + 1)
              && (s'.index >= |LearningPath(s.topic.value)| ==> text == MasteredMessage)
              && (s'.index < |LearningPath(s.topic.value)| ==>
                    text in ResponseTemplates ||
                    exists phrase :: phrase in EncouragementPhrases &&
                      text == StepCandidate(phrase, LearningPath(s.topic.value)[s'.index]))
    ensures Assess(s.topic, input) == NeedsGuidance ==> s'.index == s.index && HintStep(s, s', text)
  {
    if Assess(s.topic, input) == Good && s'.index < |LearningPath(s.topic.value)| {
      var phrase :| phrase in EncouragementPhrases &&
        Screened(StepCandidate(phrase, LearningPath(s.topic.value)[s'.index]), text);
    }
  }

  /**
   * The step index is not bounded by the learning path: a good answer after
   * the last step still counts one more.
   */
  lemma IndexPassesPathEnd(s: Session, input: string, s': Session, text: string)
    requires s.topic.Some? && s.index >= |LearningPath(s.topic.value)|
    requires Assess(s.topic, input) == Good && DiscussionStep(s, input, s', text)
    ensures s'.index == s.index + 1 > |LearningPath(s.topic.value)|
    ensures text == MasteredMessage
  {
  }

  /** A hint is charged to the budget exactly when one exists for the current step. */
  lemma HintCharged(s: Session, s': Session, text: string)
    requires HintStep(s, s', text)
    ensures s'.hints == s.hints + 1 <==>
              s.hints < MaxHints && s.topic.Some? && s.index < |TopicHints(s.topic.value)|
    ensures s'.hints != s.hints + 1 ==> s' == s
    ensures s'.hints == s.hints + 1 ==> s' == s.(hints := s.hints + 1)
  {
  }

  /** The hint lead-in, lowercased. */
  lemma LowerHintLeadIn()
    ensures Lower(HintLeadIn) == "let's think about" + " this differently. "
  {
  }

  /** The move-on question, cut around its guiding phrase. */
  lemma StepQuestionParts()
    ensures StepQuestion == ". " + "What's your understanding of" + " this aspect?"
  {
  }

  /** The guiding phrase of the move-on question, lowercased. */
  lemma LowerUnderstanding()
    ensures Lower("What's your understanding of") == "what's your understanding of"
  {
  }

  /** The move-on question, lowercased around its guiding phrase. */
  lemma LowerStepQuestion()
    ensures Lower(StepQuestion) == Lower(". ") + "what's your understanding of" + Lower(" this aspect?")
  {
    StepQuestionParts();
    LowerAppend(". " + "What's your understanding of", " this aspect?");
    LowerAppend(". ", "What's your understanding of");
    LowerUnderstanding();
  }

  /** Every hint candidate opens with the guiding phrase "let's think about". */
  lemma HintLeadInGuides(hint: string)
    ensures HasGuidingPhrase(HintLeadIn + hint)
  {
    var key := "let's think about";
    var rest := " this differently. " + Lower(hint);
    LowerAppend(HintLeadIn, hint);
    LowerHintLeadIn();
    assert Lower(HintLeadIn + hint) == [] + key + rest;
    ContainsExtend([], key, rest, key);
    assert RequiredPhrases[3] == key;
  }

  /** Every move-on candidate ends with the guiding phrase "what's your understanding of". */
  lemma StepCandidateGuides(phrase: string, step: string)
    ensures HasGuidingPhrase(StepCandidate(phrase, step))
  {
    var key := "what's your understanding of";
    var before := Lower(phrase + MoveOnLeadIn + step) + Lower(". ");
    var after := Lower(" this aspect?");
    LowerStepQuestion();
    LowerAppend(phrase + MoveOnLeadIn + step, StepQuestion);
    assert Lower(StepCandidate(phrase, step)) == before + key + after;
    ContainsExtend(before, key, after, key);
    assert RequiredPhrases[10] == key;
  }

  /**
   * A hint candidate is replaced by a template exactly when it contains
   * direct-answer language: it always carries a guiding phrase.
   */
  lemma HintScreening(t: Topic, i: nat)
    requires i < |TopicHints(t)|
    ensures IsValidResponse(HintCandidate(t, i)) <==> !HasDirectAnswer(HintCandidate(t, i))
  {
    HintLeadInGuides(TopicHints(t)[i]);
  }

  /**
   * A move-on candidate is replaced by a template exactly when it contains
   * direct-answer language: it always carries a guiding phrase.
   */
  lemma StepScreening(phrase: string, step: string)
    ensures IsValidResponse(StepCandidate(phrase, step)) <==> !HasDirectAnswer(StepCandidate(phrase, step))
  {
    StepCandidateGuides(phrase, step);
  }

  /** The engine's own utterances, which it surfaces without validating them. */
  ghost predicate FixedReply(text: string)
  {
    || text in {FarewellMessage, TopicMenuMessage, MasteredMessage, FollowUpMessage,
                StepBackMessage, ExplainThinkingMessage}
    || exists topic, difficulty :: text == CreatePracticeProblem(topic, difficulty)
  }

  /**
   * Every utterance a turn surfaces is a candidate that passed validation, a
   * redirecting template, or one of the fixed messages and practice problems.
   */
  lemma SurfacedReplies(s: Session, input: string, s': Session, reply: Reply)
    requires Step(s, input, s', reply) && reply.Say?
    ensures IsValidResponse(reply.text) || reply.text in ResponseTemplates || FixedReply(reply.text)
  {
  }
}
