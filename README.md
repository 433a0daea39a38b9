# NuAnswers tutoring engine in Dafny

A model of the scripted accounting and finance tutor in `NuAnswers.py`, with
proofs about it. The tutor has two parts.

- **The content filter** (`TutorRules`). It lowercases a candidate tutor
  utterance. It rejects the utterance when one of 25 direct-answer patterns
  occurs in it, and otherwise when none of 20 guiding phrases occurs. A
  rejected candidate is replaced by one of 15 redirecting templates.
- **The dialogue engine** (`AccountingFinanceTutor`). It keeps four fields:
  the conversation phase (`initial`, `topic_selected`, `in_discussion`,
  `practice`), the current topic, the step index in the topic's learning
  path, and the number of hints given (at most 3). Each student input is one
  turn that may change them.

Files:

- `Text.dfy`: ASCII `str.lower()` and Python's substring test `p in s`,
  with its characterisation by start positions.
- `TutorRules.dfy`: the pattern, phrase and template lists,
  `validate_response` (a loop proved against the accept/reject conditions)
  and `get_redirecting_response`.
- `Catalog.dfy`: topics in declaration order, learning paths, hints,
  keywords, encouragement phrases, the practice-problem table,
  `identify_topic` and `create_practice_problem`.
- `Assessor.dfy`: `_assess_response`, the keyword-plus-indicator count with
  threshold 3, and its monotonicity.
- `FinanceTutor.dfy`: the tutor as a class with the four fields. Its methods
  are `evaluate_response`, `_handle_discussion`,
  `_handle_practice_response` and `_provide_guided_hint`. Each is specified
  by a transition relation on a `Session` value (`Step`, `DiscussionStep`,
  `PracticeStep`, `HintStep`).
- `TutorProperties.dfy`: the reachable-state invariant, phase monotonicity
  over whole conversations, the hint budget, and the guiding phrase that
  every generated candidate carries.
- `TutorScenarios.dfy`: concrete turns worked out on the model.

Modelling choices:

- `random.choice` is a nondeterministic choice (`:|`) of some element of
  the list. The contracts say "some element", never which one.
- `evaluate_response` calls `self.start_topic_discussion(...)` after picking
  a topic, and the class defines no such method. The model first performs
  the two assignments before that call: the topic is set and the phase
  becomes `topic_selected`. It then returns the explicit error outcome
  `Reply.StartTopicDiscussionUndefined(topic)` instead of a string.
- Topics are a datatype of the four dictionary keys. So `topic_keywords.get`
  always finds an entry. The practice-problem lookup takes an optional
  topic, which mirrors `practice_problems.get(topic, {})` on an unset topic.
- Candidates are validated; templates are not. `Screened` says that a
  rejected candidate is replaced by some member of `ResponseTemplates`, with
  no check on the template.

Behaviour of the code worth noting:

- When both "easy" and "hard" occur, the `if … elif` picks "easy"
  (`NuAnswers.py:242-245`).
- The step index is incremented on every good discussion answer, so it can
  pass the length of the learning path (`NuAnswers.py:269`,
  `IndexPassesPathEnd`).
- Picking a topic ends the turn in the undefined `start_topic_discussion`
  (`NuAnswers.py:232`), as described above.
- No transition returns to `initial`, and a chosen topic never changes
  (`StepProgress`).

## Model

| member | source | states |
|---|---|---|
| `Text.Lower` | NuAnswers.py:76 | `str.lower()` on ASCII keeps the length, maps each letter A-Z to its lower-case letter, leaves every other character unchanged, and leaves no letter A-Z |
| `Text.ContainsIff` | NuAnswers.py:80 | the substring scan used for `pattern in text` succeeds exactly when the pattern sits at some start position of the text (no word boundaries) |
| `Text.ContainsExtend` | NuAnswers.py:80 | a pattern found in a text is still found after more text is added before or after it |
| `TutorRules.ValidateResponse` | NuAnswers.py:74-88 | rejects with the direct-answer reason whenever a forbidden pattern occurs in the lowercased text, even if a guiding phrase is present; otherwise rejects with the missing-phrase reason exactly when no required phrase occurs; otherwise accepts with "Response is valid" |
| `TutorRules.GetRedirectingResponse` | NuAnswers.py:90-92 | returns some member of the 15 response templates |
| `Catalog.Rank` | NuAnswers.py:185-190 | the position of each topic in the declaration order of the topic dictionaries |
| `Catalog.FirstMentioned` | NuAnswers.py:213-215 | the index found is the first topic of the list with a keyword in the text; no index means no topic of the list has one |
| `Catalog.IdentifyTopic` | NuAnswers.py:209-216 | returns a topic with a keyword in the lowercased input such that no topic declared earlier has one; returns none exactly when no topic has one |
| `Catalog.ProblemTable` | NuAnswers.py:342-353 | a problem exists exactly for accounting_equation and financial_ratios, at every difficulty |
| `Catalog.CreatePracticeProblem` | NuAnswers.py:340-356 | the text is the table entry, or "No problem available…" when there is none, and always ends with "\n\nHow would you approach solving this problem?" |
| `Assessor.CountOccurring` | NuAnswers.py:300-301 | the count of list entries occurring in the text is at most the list length, is zero exactly when none occurs, and is the full length exactly when all occur |
| `Assessor.Assess` | NuAnswers.py:295-322 | "needs guidance" when no topic is set; otherwise "good" exactly when topic keywords present plus critical-thinking indicators present reach 3 |
| `Assessor.CountMonotone` | NuAnswers.py:317 | a text in which every pattern of another text still occurs has a count at least as high |
| `Assessor.AssessExtend` | NuAnswers.py:295-322 | adding text before or after an answer never turns "good" into "needs guidance" |
| `FinanceTutor.RequestedDifficulty` | NuAnswers.py:241-245 | "easy" whenever "easy" occurs, "hard" exactly when "hard" occurs without "easy", "medium" exactly when neither occurs |
| `FinanceTutor.Tutor.constructor` | NuAnswers.py:95-102 | a new tutor is in `initial` with no topic, step index 0 and no hints, and satisfies the invariant |
| `FinanceTutor.Tutor.ProvideGuidedHint` | NuAnswers.py:324-338 | at the cap: the step-back message, nothing changes; with a hint for the current step: one more hint counted, and the validated hint or a template returned; otherwise: the explain-your-thinking message, nothing changes |
| `FinanceTutor.Tutor.HandleDiscussion` | NuAnswers.py:264-282 | a good answer advances the step index by one and returns a screened move-on utterance naming the new step, or the mastered message past the path end; otherwise a guided hint with the index kept |
| `FinanceTutor.Tutor.HandlePracticeResponse` | NuAnswers.py:284-293 | a good answer gets the fixed follow-up with nothing changed; otherwise a guided hint |
| `FinanceTutor.Tutor.EvaluateResponse` | NuAnswers.py:218-262 | performs exactly one `Step`: "exit" gives the farewell with nothing changed; `initial` moves only when a topic is identified, then sets it and fails in `start_topic_discussion`; `topic_selected` goes to practice with the requested problem, or to discussion; discussion and practice stay put; the invariant is kept |
| `TutorProperties.StepKeepsInv` | NuAnswers.py:218-262 | every turn keeps the invariant: hints at most 3, a topic set exactly outside `initial`, nothing counted before routing |
| `TutorProperties.StepProgress` | NuAnswers.py:222-262 | a turn never lowers the phase; discussion and practice are never left; `topic_selected` always moves to practice or discussion; a chosen topic never changes; step index and hint count grow by at most one |
| `TutorProperties.ConversationInvariant` | NuAnswers.py:218-262 | over any conversation from a fresh tutor, every state keeps the invariant (at most 3 hints), and phase, step index and hint count never decrease |
| `TutorProperties.HintBudgetExhausted` | NuAnswers.py:324-329 | in practice with 3 hints given, asking for a hint returns the step-back message and changes nothing |
| `TutorProperties.HintCharged` | NuAnswers.py:331-338 | a hint is charged, by exactly one, exactly when the budget is not used up and a hint exists at the current step; the fallback charges nothing |
| `TutorProperties.DiscussionOutcome` | NuAnswers.py:264-282 | after a good answer the index is one more and the reply is a move-on utterance for the new step, a template, or the mastered message past the path end; otherwise the index is kept and a hint is given |
| `TutorProperties.IndexPassesPathEnd` | NuAnswers.py:269-280 | a good answer at or past the path end still increments the step index beyond the path length, and returns the mastered message |
| `TutorProperties.HintLeadInGuides` | NuAnswers.py:333 | every hint candidate carries the guiding phrase "let's think about" |
| `TutorProperties.StepCandidateGuides` | NuAnswers.py:271-273 | every move-on candidate carries the guiding phrase "what's your understanding of" |
| `TutorProperties.HintScreening` | NuAnswers.py:333-336 | a hint candidate is replaced by a template exactly when it contains direct-answer language |
| `TutorProperties.StepScreening` | NuAnswers.py:271-276 | a move-on candidate is replaced by a template exactly when it contains direct-answer language |
| `TutorProperties.SurfacedReplies` | NuAnswers.py:218-262 | every utterance a turn surfaces is a candidate that passed `validate_response`, a redirecting template, or one of the engine's fixed messages and practice problems |
| `TutorScenarios.ExitInAnyPhase` | NuAnswers.py:220-224 | "exit" in any letter case returns the farewell in every phase and changes nothing |
| `TutorScenarios.OpeningSelectsAccountingEquation` | NuAnswers.py:227-232 | on a fresh tutor, "What is the accounting equation?" selects accounting_equation and moves to `topic_selected`; the turn then fails in `start_topic_discussion` |
| `TutorScenarios.PracticeHardOnRatios` | NuAnswers.py:238-246 | with financial_ratios selected, "let's practice hard" moves to practice and poses the return-on-equity problem of line 351 followed by the approach question |

## Left out

- `app.py`, `server.py`, `frontend.py` and `gunicorn_config.py` are not part of this model. They are HTTP endpoints, calls to external language-model APIs, a web form and deployment settings.
- `main()` (NuAnswers.py:358-367) is left out. It is a console input/print loop.
- `greet_student` (NuAnswers.py:192-207) is left out. It returns a fixed multi-line string and has no behaviour.
- The pseudo-random generator behind `random.choice` is left out. Only "some element of the list" is modelled.
- `str.lower()` is modelled for ASCII only. Unicode case mapping is not modelled.
- `student_progress` (NuAnswers.py:98) is never read or written after construction, so it is left out.
- The `current_topic` parameter of `evaluate_response` (NuAnswers.py:218) is unused, so it is left out.
- The "I'm not sure I understand" fallback (NuAnswers.py:262) is not modelled. The phase is an enumeration of the four states, so that branch cannot be reached.
- FinanceTutor.Tutor.EvaluateResponse: the raise from the missing `start_topic_discussion` is a returned error value. The Python exception's unwinding to the caller is not modelled. The only caller, `main()` (NuAnswers.py:362-364), does not catch the exception, so in the console program the first recognised topic ends the process; `ConversationInvariant` describes a caller that keeps going after the error.
- TutorProperties.SurfacedReplies: it does not prove that no surfaced utterance contains direct-answer language. Only generated candidates are validated. The 15 templates, the six fixed messages and the practice-problem texts are surfaced unchecked, and whether any of them contains one of the 25 patterns is not proved.
