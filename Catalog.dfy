/**
 * The static catalogues of AccountingFinanceTutor in NuAnswers.py (learning
 * paths, hints, keywords, encouragement phrases, practice problems) and the
 * two lookups over them: topic identification and practice-problem creation.
 */
module Catalog {
  import opened Text

  datatype Option<T> = None | Some(value: T)

  /** The four topics, in the order the source declares them. */
  datatype Topic = AccountingEquation | FinancialRatios | FinancialStatements | TimeValueMoney

  /** Declaration order of the topic dictionaries; identification tries topics in it. */
  const Topics: seq<Topic> := [AccountingEquation, FinancialRatios, FinancialStatements, TimeValueMoney]

  /** Position of a topic in declaration order. */
  function Rank(t: Topic): (k: nat)
    ensures k < |Topics| && Topics[k] == t
  {
    match t
    case AccountingEquation => 0
    case FinancialRatios => 1
    case FinancialStatements => 2
    case TimeValueMoney => 3
  }

  datatype Difficulty = Easy | Medium | Hard

  function LearningPath(t: Topic): seq<string>
  {
    match t
    case AccountingEquation => [
      "Understanding the basic equation",
      "Analyzing transactions",
      "Impact on financial statements",
      "Real-world applications"]
    case FinancialRatios => [
      "Types of ratios",
      "Calculation methods",
      "Interpretation",
      "Industry comparisons"]
    case FinancialStatements => [
      "Statement components",
      "Interrelationships",
      "Analysis techniques",
      "Practical applications"]
    case TimeValueMoney => [
      "Basic concepts",
      "Present value calculations",
      "Future value calculations",
      "Annuities and perpetuities"]
  }

  const EncouragementPhrases: seq<string> := [
    "You're on the right track!",
    "That's a good start. Let's think about this further.",
    "You're getting closer!",
    "Good effort! Let's break this down step by step.",
    "Almost there! Consider one more aspect...",
    "That's an interesting perspective. Let's explore it further.",
    "You're making good progress. Let's refine your understanding.",
    "That's a thoughtful approach. Let's build on it.",
    "You're asking good questions. Let's explore them together.",
    "You're developing good analytical skills. Let's apply them here."
  ]

  /** Hints by topic, indexed by the current learning-path position. */
  function TopicHints(t: Topic): seq<string>
  {
    match t
    case AccountingEquation => [
      "Remember the basic accounting equation: Assets = Liabilities + Equity",
      "Think about what changes on each side of the equation when a transaction occurs",
      "Consider how this transaction affects the company's assets and liabilities",
      "Remember that every transaction must maintain the equation's balance",
      "What's the impact on the company's financial position?",
      "How would this transaction be recorded in the accounting system?",
      "What's the relationship between this transaction and the company's equity?"]
    case FinancialRatios => [
      "Start by identifying which financial statements you need",
      "Consider what this ratio is trying to measure",
      "Think about the relationship between the numerator and denominator",
      "What does this ratio tell us about the company's performance?",
      "How would you interpret this ratio in context?",
      "What industry standards should you consider?",
      "How might this ratio change over time?"]
    case FinancialStatements => [
      "Which statement would show this information?",
      "What's the relationship between these statements?",
      "Consider the timing of when transactions are recorded",
      "Think about the accrual vs. cash basis of accounting",
      "How do these statements work together?",
      "What's the purpose of each statement?",
      "How would you analyze trends in these statements?"]
    case TimeValueMoney => [
      "What is the relationship between present and future value?",
      "Consider the impact of interest rates and time periods",
      "Think about whether this is a single payment or an annuity",
      "How does compounding frequency affect the calculation?",
      "What assumptions are you making about interest rates?",
      "How would inflation impact your calculations?",
      "What's the difference between nominal and real rates?"]
  }

  /** Keywords used both to identify a topic and to score relevance to it. */
  function TopicKeywords(t: Topic): seq<string>
  {
    match t
    case AccountingEquation =>
      ["equation", "assets", "liabilities", "equity", "balance", "transaction", "accounting"]
    case FinancialRatios =>
      ["ratio", "calculate", "divide", "percentage", "profitability", "liquidity", "leverage"]
    case FinancialStatements =>
      ["statement", "balance sheet", "income", "cash flow", "financial", "report"]
    case TimeValueMoney =>
      ["time value", "present value", "future value", "interest", "annuity", "discounting"]
  }

  /** Some keyword of `t` occurs in the (already lowercased) text. */
  predicate Mentions(textLower: string, t: Topic)
  {
    exists k :: k in TopicKeywords(t) && Contains(textLower, k)
  }

  /** The first topic of `ts` that the text mentions. */
  function FirstMentioned(textLower: string, ts: seq<Topic>): (r: Option<nat>)
    ensures r.Some? ==> r.value < |ts| && Mentions(textLower, ts[r.value])
    ensures r.Some? ==> forall j :: 0 <= j < r.value ==> !Mentions(textLower, ts[j])
    ensures r.None? ==> forall j :: 0 <= j < |ts| ==> !Mentions(textLower, ts[j])
  {
    if ts == [] then None
    else if Mentions(textLower, ts[0]) then Some(0)
    else match FirstMentioned(textLower, ts[1..])
      case None => None
      case Some(k) => Some(k + 1)
  }

  /**
   * `identify_topic`: the first topic in declaration order with a keyword in
   * the lowercased input, or none.
   */
  function IdentifyTopic(userInput: string): (r: Option<Topic>)
    ensures r.None? <==> forall t :: !Mentions(Lower(userInput), t)
    ensures r.Some? ==> Mentions(Lower(userInput), r.value)
    ensures r.Some? ==> forall t :: Rank(t) < Rank(r.value) ==> !Mentions(Lower(userInput), t)
  {
    match FirstMentioned(Lower(userInput), Topics)
    case None =>
      forall t ensures !Mentions(Lower(userInput), t) {
        assert Topics[Rank(t)] == t;
      }
      None
    case Some(k) => Some(Topics[k])
  }

  const NoProblemText := "No problem available for this topic and difficulty level."
  const ApproachQuestion := "\n\nHow would you approach solving this problem?"

  /** The practice-problem table; only two topics have entries. */
  function ProblemTable(topic: Option<Topic>, difficulty: Difficulty): (r: Option<string>)
    ensures r.Some? <==> topic == Some(AccountingEquation) || topic == Some(FinancialRatios)
  {
    match (topic, difficulty)
    case (Some(AccountingEquation), Easy) =>
      Some("A company purchases $1,000 of inventory on credit. How does this affect the accounting equation?")
    case (Some(AccountingEquation), Medium) =>
      Some("A company issues $5,000 in common stock and purchases equipment worth $3,000 cash. Show the impact on the accounting equation.")
    case (Some(AccountingEquation), Hard) =>
      Some("A company takes out a $10,000 loan, purchases inventory for $7,000, and pays $2,000 in dividends. What's the net effect on the accounting equation?")
    case (Some(FinancialRatios), Easy) =>
      Some("Calculate the current ratio if current assets are $50,000 and current liabilities are $25,000.")
    case (Some(FinancialRatios), Medium) =>
      Some("A company has current assets of $75,000, inventory of $25,000, and current liabilities of $30,000. Calculate the quick ratio.")
    case (Some(FinancialRatios), Hard) =>
      Some("Calculate the return on equity if net income is $60,000, total assets are $400,000, and total liabilities are $200,000.")
    case _ => None
  }

  /**
   * `create_practice_problem`: the table entry, or the fallback text when the
   * table has none, always followed by the approach question.
   */
  function CreatePracticeProblem(topic: Option<Topic>, difficulty: Difficulty): (r: string)
    ensures |r| >= |ApproachQuestion| && r[|r| - |ApproachQuestion|..] == ApproachQuestion
    ensures ProblemTable(topic, difficulty).Some? ==> r[..|r| - |ApproachQuestion|] == ProblemTable(topic, difficulty).value
    ensures ProblemTable(topic, difficulty).None? ==> r[..|r| - |ApproachQuestion|] == NoProblemText
  {
    var entry := ProblemTable(topic, difficulty);
    var problem := if entry.Some? then entry.value else NoProblemText;
    assert (problem + ApproachQuestion)[..|problem|] == problem;
    problem + ApproachQuestion
  }
}
