/**
 * Concrete turns of the dialogue, worked out on the model.
 */
module TutorScenarios {
  import opened Text
  import opened TutorRules
  import opened Catalog
  import opened FinanceTutor

  /** "exit", in any letter case, ends the conversation and changes nothing. */
  lemma ExitInAnyPhase(s: Session, input: string, s': Session, reply: Reply)
    requires Lower(input) == "exit" && Step(s, input, s', reply)
    ensures reply == Say(FarewellMessage) && s' == s
  {
  }

  /** The lowercased opening question, cut around the keyword it contains. */
  lemma LowerOpeningQuestion()
    ensures Lower("What is the accounting equation?") == "what is the " + "accounting" + " equation?"
  {
  }

  /**
   * On a fresh tutor, "What is the accounting equation?" selects the
   * accounting-equation topic, and the turn then fails in its call to
   * `start_topic_discussion`.
   */
  lemma OpeningSelectsAccountingEquation(s': Session, reply: Reply)
    requires Step(Fresh, "What is the accounting equation?", s', reply)
    ensures s' == Session(TopicSelected, Some(AccountingEquation), 0, 0)
    ensures reply == StartTopicDiscussionUndefined(AccountingEquation)
  {
    var input := "What is the accounting equation?";
    LowerOpeningQuestion();
    ContainsExtend("what is the ", "accounting", " equation?", "accounting");
    assert TopicKeywords(AccountingEquation)[6] == "accounting";
    assert Mentions(Lower(input), AccountingEquation);
    assert Lower(input) != "exit" by {
      assert |Lower(input)| != |"exit"|;
    }
  }

  /** "let's practice hard" asks for practice. */
  lemma PracticeWord()
    ensures Contains("let's practice hard", "practice")
  {
    assert "let's practice hard" == "let's " + "practice" + " hard";
    ContainsExtend("let's ", "practice", " hard", "practice");
  }

  /** "let's practice hard" asks for the hard level. */
  lemma HardWord()
    ensures Contains("let's practice hard", "hard")
  {
    assert "let's practice hard" == "let's practice " + "hard" + "";
    ContainsExtend("let's practice ", "hard", "", "hard");
  }

  /** "let's practice hard" names no easy level: it has no 'y'. */
  lemma NoEasyWord()
    ensures !Contains("let's practice hard", "easy")
  {
    assert 'y' == "easy"[3];
    AbsentCharacter("let's practice hard", "easy", 'y');
  }

  /** The hard financial-ratios problem asks for the return on equity. */
  lemma RatiosHardProblem()
    ensures ProblemTable(Some(FinancialRatios), Hard) == Some(
      "Calculate the return on equity if net income is $60,000, total assets are $400,000, and total liabilities are $200,000.")
  {
  }

  /** "let's practice hard" is already lowercase. */
  lemma LowerPracticeHard()
    ensures Lower("let's practice hard") == "let's practice hard"
  {
  }

  /**
   * With financial ratios selected, "let's practice hard" moves to practice
   * and poses the hard return-on-equity problem.
   */
  lemma PracticeHardOnRatios(s': Session, reply: Reply)
    requires Step(Session(TopicSelected, Some(FinancialRatios), 0, 0), "let's practice hard", s', reply)
    ensures s' == Session(Practice, Some(FinancialRatios), 0, 0)
    ensures reply == Say(
      "Calculate the return on equity if net income is $60,000, total assets are $400,000, and total liabilities are $200,000."
      + ApproachQuestion)
  {
    RatiosHardProblem();
    LowerPracticeHard();
    PracticeWord();
    HardWord();
    NoEasyWord();
  }
}
