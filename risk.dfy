/** The health risk check: the answer map the questionnaire builds, the
    number of "Yes" answers in it and the band that number falls in. */
module Risk {
  import opened Tables

  /** A questionnaire radio's value: one of its two options. */
  predicate IsYesNo(answer: string) {
    answer == Yes || answer == No
  }

  /** The map the questionnaire loop builds when `responses[i]` is the value
      of the radio for `questions[i]`: each answer key bound to its response,
      a later question overwriting an earlier one with the same key. */
  function AnswerMap(questions: seq<(string, string)>, responses: seq<string>): map<string, string>
    requires |responses| == |questions|
  {
    if questions == [] then map[]
    else
      var n := |questions| - 1;
      AnswerMap(questions[..n], responses[..n])[questions[n].1 := responses[n]]
  }

  /** The state the result page expects: exactly the questionnaire's keys,
      each answered "Yes" or "No". */
  predicate CompleteAnswers(answers: map<string, string>) {
    answers.Keys == QuestionKeys(RiskQuestions) &&
    forall k :: k in answers ==> IsYesNo(answers[k])
  }

  /** The keys answered "Yes". */
  function YesKeys(answers: map<string, string>): set<string> {
    set k | k in answers && answers[k] == Yes
  }

  /** `sum(1 for v in risk_answers.values() if v == "Yes")`: each key with a
      "Yes" value counts once. */
  function RiskScore(answers: map<string, string>): (score: nat)
    ensures score <= |answers|
  {
    var yes := YesKeys(answers);
    SubsetSize(yes, answers.Keys);
    |yes|
  }

  lemma {:induction false} SubsetSize(a: set<string>, b: set<string>)
    requires a <= b
    ensures |a| <= |b|
    decreases a
  {
    if a != {} {
      var x :| x in a;
      SubsetSize(a - {x}, b - {x});
    }
  }

  /** The score is zero exactly when no question was answered "Yes". */
  lemma ScoreZero(answers: map<string, string>)
    ensures RiskScore(answers) == 0 <==> forall k :: k in answers ==> answers[k] != Yes
  {
    if forall k :: k in answers ==> answers[k] != Yes {
      assert YesKeys(answers) == {};
    } else {
      var k :| k in answers && answers[k] == Yes;
      assert k in YesKeys(answers);
    }
  }

  /** The three risk levels, in increasing order. */
  datatype RiskLevel = LowRisk | ModerateRisk | HighRisk

  function Rank(level: RiskLevel): nat {
    match level
    case LowRisk => 0
    case ModerateRisk => 1
    case HighRisk => 2
  }

  /** The text shown for each level. */
  function Label(level: RiskLevel): string {
    match level
    case LowRisk => "Low Risk"
    case ModerateRisk => "Moderate Risk"
    case HighRisk => "High Risk"
  }

  /** The band: high from four "Yes" answers, moderate from two, low below. */
  function Level(score: int): (level: RiskLevel)
    ensures level == HighRisk <==> score >= 4
    ensures level == ModerateRisk <==> 2 <= score < 4
    ensures level == LowRisk <==> score < 2
  {
    if score >= 4 then HighRisk
    else if score >= 2 then ModerateRisk
    else LowRisk
  }

  /** More "Yes" answers never give a lower risk level. */
  lemma LevelMonotone(a: int, b: int)
    requires a <= b
    ensures Rank(Level(a)) <= Rank(Level(b))
  {
  }

  /** The number of "Yes" answers in a list of responses. */
  function CountYes(responses: seq<string>): (n: nat)
    ensures n <= |responses|
  {
    if responses == [] then 0
    else CountYes(responses[..|responses| - 1]) + (if responses[|responses| - 1] == Yes then 1 else 0)
  }

  /** The map has one key per question. */
  lemma {:induction false} AnswerMapKeys(questions: seq<(string, string)>, responses: seq<string>)
    requires |responses| == |questions|
    ensures AnswerMap(questions, responses).Keys == QuestionKeys(questions)
  {
    if questions != [] {
      var n := |questions| - 1;
      AnswerMapKeys(questions[..n], responses[..n]);
      assert QuestionKeys(questions) == QuestionKeys(questions[..n]) + {questions[n].1} by {
        forall k | k in QuestionKeys(questions) ensures k in QuestionKeys(questions[..n]) + {questions[n].1} {
          var i :| 0 <= i < |questions| && questions[i].1 == k;
          if i < n { assert questions[..n][i].1 == k; }
        }
      }
    }
  }

  /** With distinct keys, each question's key holds that question's response. */
  lemma {:induction false} AnswerMapAt(questions: seq<(string, string)>, responses: seq<string>, i: nat)
    requires |responses| == |questions| && UniqueKeys(questions)
    requires i < |questions|
    ensures questions[i].1 in AnswerMap(questions, responses)
    ensures AnswerMap(questions, responses)[questions[i].1] == responses[i]
  {
    var n := |questions| - 1;
    if i < n {
      assert UniqueKeys(questions[..n]);
      AnswerMapAt(questions[..n], responses[..n], i);
      assert questions[..n][i] == questions[i];
    }
  }

  /** Binding a new key adds one to the score exactly when it is bound to "Yes". */
  lemma ScoreOfNewKey(answers: map<string, string>, key: string, answer: string)
    requires key !in answers
    ensures RiskScore(answers[key := answer]) == RiskScore(answers) + (if answer == Yes then 1 else 0)
  {
    var after := answers[key := answer];
    if answer == Yes {
      assert YesKeys(after) == YesKeys(answers) + {key};
    } else {
      assert YesKeys(after) == YesKeys(answers);
    }
  }

  /** The key of the last question is not among the keys of those before it. */
  lemma LastKeyIsNew(questions: seq<(string, string)>, responses: seq<string>)
    requires |responses| == |questions| > 0 && UniqueKeys(questions)
    ensures var n := |questions| - 1;
      questions[n].1 !in AnswerMap(questions[..n], responses[..n])
  {
    var n := |questions| - 1;
    AnswerMapKeys(questions[..n], responses[..n]);
    forall i | 0 <= i < n ensures questions[..n][i].1 != questions[n].1 {
      assert questions[..n][i] == questions[i];
    }
  }

  /** With distinct keys, the score of the built map is the number of "Yes"
      responses given. */
  lemma {:induction false} ScoreCountsResponses(questions: seq<(string, string)>, responses: seq<string>)
    requires |responses| == |questions| && UniqueKeys(questions)
    ensures RiskScore(AnswerMap(questions, responses)) == CountYes(responses)
  {
    if questions != [] {
      var n := |questions| - 1;
      assert UniqueKeys(questions[..n]);
      ScoreCountsResponses(questions[..n], responses[..n]);
      LastKeyIsNew(questions, responses);
      ScoreOfNewKey(AnswerMap(questions[..n], responses[..n]), questions[n].1, responses[n]);
    }
  }

  /** The loop over RISK_QUESTIONS that reads each radio into `answers`. */
  method CollectAnswers(responses: seq<string>) returns (answers: map<string, string>)
    requires |responses| == |RiskQuestions|
    ensures answers == AnswerMap(RiskQuestions, responses)
    ensures answers.Keys == QuestionKeys(RiskQuestions)
    ensures forall i :: 0 <= i < |RiskQuestions| ==> answers[RiskQuestions[i].1] == responses[i]
  {
    answers := map[];
    var i := 0;
    while i < |RiskQuestions|
      invariant 0 <= i <= |RiskQuestions|
      invariant answers == AnswerMap(RiskQuestions[..i], responses[..i])
    {
      var key := RiskQuestions[i].1;
      answers := answers[key := responses[i]];
      assert RiskQuestions[..i + 1][..i] == RiskQuestions[..i];
      assert responses[..i + 1][..i] == responses[..i];
      i := i + 1;
    }
    assert RiskQuestions[..i] == RiskQuestions;
    assert responses[..i] == responses;
    AnswerMapKeys(RiskQuestions, responses);
    RiskQuestionsWellFormed();
    forall j | 0 <= j < |RiskQuestions| ensures answers[RiskQuestions[j].1] == responses[j] {
      AnswerMapAt(RiskQuestions, responses, j);
    }
  }

  /** Yes/No responses give a map whose every value is "Yes" or "No". */
  lemma {:induction false} AnswerMapYesNo(questions: seq<(string, string)>, responses: seq<string>)
    requires |responses| == |questions|
    requires forall i :: 0 <= i < |responses| ==> IsYesNo(responses[i])
    ensures forall k :: k in AnswerMap(questions, responses) ==> IsYesNo(AnswerMap(questions, responses)[k])
  {
    if questions != [] {
      var n := |questions| - 1;
      AnswerMapYesNo(questions[..n], responses[..n]);
    }
  }

  /** Answers read from the five Yes/No radios form a complete answer map. */
  lemma CollectedAnswersComplete(responses: seq<string>)
    requires |responses| == |RiskQuestions|
    requires forall i :: 0 <= i < |responses| ==> IsYesNo(responses[i])
    ensures CompleteAnswers(AnswerMap(RiskQuestions, responses))
  {
    AnswerMapKeys(RiskQuestions, responses);
    AnswerMapYesNo(RiskQuestions, responses);
  }

  /** A complete answer map scores between 0 and the number of questions. */
  lemma CompleteScoreBounded(answers: map<string, string>)
    requires CompleteAnswers(answers)
    ensures RiskScore(answers) <= |RiskQuestions| == 5
  {
    RiskQuestionsWellFormed();
    assert |answers| == |answers.Keys|;
  }

  /** "Yes" to fever and to cough or sore throat, "No" to the rest: score 2,
      moderate risk. */
  lemma ModerateExample()
    ensures RiskScore(AnswerMap(RiskQuestions, [Yes, Yes, No, No, No])) == 2
    ensures Label(Level(RiskScore(AnswerMap(RiskQuestions, [Yes, Yes, No, No, No])))) == "Moderate Risk"
  {
    RiskQuestionsWellFormed();
    ScoreCountsResponses(RiskQuestions, [Yes, Yes, No, No, No]);
    var rs := [Yes, Yes, No, No, No];
    assert CountYes(rs[..1]) == 1 by { assert rs[..1][..0] == []; }
    assert CountYes(rs[..2]) == 2 by { assert rs[..2][..1] == rs[..1]; }
    assert CountYes(rs[..3]) == 2 by { assert rs[..3][..2] == rs[..2]; }
    assert CountYes(rs[..4]) == 2 by { assert rs[..4][..3] == rs[..3]; }
    assert CountYes(rs) == 2 by { assert rs[..4] == rs[..|rs| - 1]; }
  }
}
