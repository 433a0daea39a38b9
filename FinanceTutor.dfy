/**
 * The dialogue engine of NuAnswers.py (class AccountingFinanceTutor): a
 * session moves from `initial` through `topic_selected` into either a
 * discussion of the topic's learning path or practice problems, handing out
 * at most three hints along the way.
 */
module FinanceTutor {
  import opened Text
  import opened TutorRules
  import opened Catalog
  import opened Assessor

  /** `max_hints`: the hint budget of a whole session. */
  const MaxHints: nat := 3

  /** The values of `conversation_state`. */
  datatype Phase = Initial | TopicSelected | InDiscussion | Practice

  /**
   * The four mutable fields of a tutor: `conversation_state`,
   * `current_topic`, `current_question_index` and `hints_given`.
   */
  datatype Session = Session(phase: Phase, topic: Option<Topic>, index: nat, hints: nat)

  /**
   * What `evaluate_response` produces: a tutor utterance, or the failure of
   * its call to `start_topic_discussion`, a method the class does not define.
   */
  datatype Reply = Say(text: string) | StartTopicDiscussionUndefined(topic: Topic)

  const FarewellMessage := "Thank you for studying with me! Keep up the good work!"
  const TopicMenuMessage :=
    "I can help you with Accounting Equation, Financial Ratios, Financial Statements, or Time Value of Money. Which topic would you like to work on?"
  const MasteredMessage :=
    "Excellent! You've shown good understanding of this topic. Would you like to try a practice problem to test your knowledge?"
  const FollowUpMessage :=
    "That's a good approach! Let's think about it further. What assumptions are you making in your solution? How would you verify if your answer is correct?"
  const StepBackMessage :=
    "I've given you several hints. Let's take a step back. What's your current understanding of the problem? What specific part is challenging you?"
  const ExplainThinkingMessage :=
    "Could you explain your thinking process to me? What's challenging you about this problem?"
  const HintLeadIn := "Let's think about this differently. "
  const MoveOnLeadIn := " Let's move on to "
  const StepQuestion := ". What's your understanding of this aspect?"

  /** The hint the tutor proposes for step `i` of topic `t`, before validation. */
  function HintCandidate(t: Topic, i: nat): string
    requires i < |TopicHints(t)|
  {
    HintLeadIn + TopicHints(t)[i]
  }

  /** The move-on utterance for a learning-path step, before validation. */
  function StepCandidate(phrase: string, step: string): string
  {
    phrase + MoveOnLeadIn + step + StepQuestion
  }

  /** The difficulty asked for: "easy" is checked first, then "hard", else medium. */
  function RequestedDifficulty(inputLower: string): (d: Difficulty)
    ensures Contains(inputLower, "easy") ==> d == Easy
    ensures d == Hard <==> !Contains(inputLower, "easy") && Contains(inputLower, "hard")
    ensures d == Medium <==> !Contains(inputLower, "easy") && !Contains(inputLower, "hard")
  {
    if Contains(inputLower, "easy") then Easy
    else if Contains(inputLower, "hard") then Hard
    else Medium
  }

  /** A candidate survives validation, or some redirecting template replaces it. */
  ghost predicate Screened(candidate: string, text: string)
  {
    if IsValidResponse(candidate) then text == candidate else text in ResponseTemplates
  }

  /** `_provide_guided_hint`: only `hints_given` may change. */
  ghost predicate HintStep(s: Session, s': Session, text: string)
  {
    if s.hints >= MaxHints then
      s' == s && text == StepBackMessage
    else if s.topic.Some? && s.index < |TopicHints(s.topic.value)| then
      s' == s.(hints := s.hints + 1) && Screened(HintCandidate(s.topic.value, s.index), text)
    else
      s' == s && text == ExplainThinkingMessage
  }

  /** `_handle_discussion`: a good answer advances the step, otherwise a hint. */
  ghost predicate DiscussionStep(s: Session, input: string, s': Session, text: string)
  {
    if Assess(s.topic, input) == Good then
      s' == s.(index := s.index + 1) &&
      if s'.index < |LearningPath(s.topic.value)| then
        exists phrase :: phrase in EncouragementPhrases &&
          Screened(StepCandidate(phrase, LearningPath(s.topic.value)[s'.index]), text)
      else
        text == MasteredMessage
    else
      HintStep(s, s', text)
  }

  /** `_handle_practice_response`: a good answer gets the follow-up, otherwise a hint. */
  ghost predicate PracticeStep(s: Session, input: string, s': Session, text: string)
  {
    if Assess(s.topic, input) == Good then
      s' == s && text == FollowUpMessage
    else
      HintStep(s, s', text)
  }

  /** `evaluate_response`: one turn of the dialogue, from `s` to `s'`. */
  ghost predicate Step(s: Session, input: string, s': Session, reply: Reply)
  {
    var inputLower := Lower(input);
    if inputLower == "exit" then
      s' == s && reply == Say(FarewellMessage)
    else match s.phase
      case Initial =>
        (match IdentifyTopic(input)
         case None => s' == s && reply == Say(TopicMenuMessage)
         case Some(t) =>
           s' == s.(phase := TopicSelected, topic := Some(t)) && reply == StartTopicDiscussionUndefined(t))
      case TopicSelected =>
        if Contains(inputLower, "practice") then
          s' == s.(phase := Practice) &&
          reply == Say(CreatePracticeProblem(s.topic, RequestedDifficulty(inputLower)))
        else
          reply.Say? && DiscussionStep(s.(phase := InDiscussion), input, s', reply.text)
      case InDiscussion =>
        reply.Say? && DiscussionStep(s, input, s', reply.text)
      case Practice =>
        reply.Say? &&
        if Contains(inputLower, "hint") then HintStep(s, s', reply.text)
        else PracticeStep(s, input, s', reply.text)
  }

  /** The state of a freshly constructed tutor. */
  const Fresh := Session(Initial, None, 0, 0)

  /**
   * What holds of every reachable session: the hint budget is respected, a
   * topic is set exactly when the dialogue has left `initial`, and nothing
   * has been counted before the topic is routed.
   */
  ghost predicate Inv(s: Session)
  {
    && s.hints <= MaxHints
    && (s.phase == Initial <==> s.topic.None?)
    && (s.phase == Initial || s.phase == TopicSelected ==> s.index == 0 && s.hints == 0)
  }

  /** Phases ordered by how far the dialogue has got. */
  function PhaseRank(p: Phase): nat
  {
    match p
    case Initial => 0
    case TopicSelected => 1
    case InDiscussion => 2
    case Practice => 2
  }

  class Tutor {
    var conversationState: Phase
    var currentTopic: Option<Topic>
    var currentQuestionIndex: nat
    var hintsGiven: nat

    /** The fields as one session value. */
    function State(): Session
      reads this
    {
      Session(conversationState, currentTopic, currentQuestionIndex, hintsGiven)
    }

    ghost predicate Valid()
      reads this
    {
      Inv(State())
    }

    constructor ()
      ensures State() == Fresh && Valid()
    {
      conversationState := Initial;
      currentTopic := None;
      currentQuestionIndex := 0;
      hintsGiven := 0;
    }

    /**
     * `_provide_guided_hint`, a private helper of `EvaluateResponse`. It is only called in
     * the discussion and practice phases, and only `EvaluateResponse`
     * promises to keep `Valid()`.
     */
    method ProvideGuidedHint() returns (hint: string)
      modifies this`hintsGiven
      ensures HintStep(old(State()), State(), hint)
    {
      if hintsGiven >= MaxHints {
        return StepBackMessage;
      }
      if currentTopic.Some? && currentQuestionIndex < |TopicHints(currentTopic.value)| {
        hintsGiven := hintsGiven + 1;
        hint := HintCandidate(currentTopic.value, currentQuestionIndex);
        var isValid, reason := ValidateResponse(hint);
        if !isValid {
          hint := GetRedirectingResponse();
        }
        return;
      }
      return ExplainThinkingMessage;
    }

    /**
     * `_handle_discussion`, a private helper of `EvaluateResponse`. It is only called in
     * the discussion and practice phases, and only `EvaluateResponse`
     * promises to keep `Valid()`.
     */
    method HandleDiscussion(userInput: string) returns (reply: string)
      modifies this`currentQuestionIndex, this`hintsGiven
      ensures DiscussionStep(old(State()), userInput, State(), reply)
    {
      var quality := Assess(currentTopic, userInput);
      if quality == Good {
        currentQuestionIndex := currentQuestionIndex + 1;
        var path := LearningPath(currentTopic.value);
        if currentQuestionIndex < |path| {
          assert EncouragementPhrases[0] in EncouragementPhrases;
          var phrase :| phrase in EncouragementPhrases;
          reply := StepCandidate(phrase, path[currentQuestionIndex]);
          var isValid, reason := ValidateResponse(reply);
          if !isValid {
            reply := GetRedirectingResponse();
          }
          assert Screened(StepCandidate(phrase, path[currentQuestionIndex]), reply);
        } else {
          reply := MasteredMessage;
        }
      } else {
        reply := ProvideGuidedHint();
      }
    }

    /**
     * `_handle_practice_response`, a private helper of `EvaluateResponse`. It is only called in
     * the discussion and practice phases, and only `EvaluateResponse`
     * promises to keep `Valid()`.
     */
    method HandlePracticeResponse(userInput: string) returns (reply: string)
      modifies this`hintsGiven
      ensures PracticeStep(old(State()), userInput, State(), reply)
    {
      var quality := Assess(currentTopic, userInput);
      if quality == Good {
        reply := FollowUpMessage;
      } else {
        reply := ProvideGuidedHint();
      }
    }

    /** `evaluate_response` */
    method EvaluateResponse(userInput: string) returns (reply: Reply)
      requires Valid()
      modifies this
      ensures Valid()
      ensures Step(old(State()), userInput, State(), reply)
    {
      var userInputLower := Lower(userInput);
      if userInputLower == "exit" {
        return Say(FarewellMessage);
      }
      match conversationState
      case Initial =>
        var identifiedTopic := IdentifyTopic(userInput);
        if identifiedTopic.Some? {
          currentTopic := identifiedTopic;
          conversationState := TopicSelected;
          reply := StartTopicDiscussionUndefined(identifiedTopic.value);
        } else {
          reply := Say(TopicMenuMessage);
        }
      case TopicSelected =>
        if Contains(userInputLower, "practice") {
          conversationState := Practice;
          // The `if/elif` of the source, kept as statements; `Step` states
          // the outcome through `RequestedDifficulty`.
          var difficulty := Medium;
          if Contains(userInputLower, "easy") {
            difficulty := Easy;
          } else if Contains(userInputLower, "hard") {
            difficulty := Hard;
          }
          reply := Say(CreatePracticeProblem(currentTopic, difficulty));
        } else {
          conversationState := InDiscussion;
          var text := HandleDiscussion(userInput);
          reply := Say(text);
        }
      case InDiscussion =>
        var text := HandleDiscussion(userInput);
        reply := Say(text);
      case Practice =>
        var text;
        if Contains(userInputLower, "hint") {
          text := ProvideGuidedHint();
        } else {
          text := HandlePracticeResponse(userInput);
        }
        reply := Say(text);
    }
  }
}
