/** The two static tables the bot reads and the fixed option strings of its
    widgets. */
module Tables {
  import opened Text

  /** SYMPTOM_ADVICE: lower-case symptom keyword to advice text. */
  const SymptomAdvice: map<string, string> := map[
    "fever" := "Keep hydrated and rest. If fever persists for more than 3 days, see a doctor.",
    "cough" := "Try warm liquids and throat lozenges. Avoid irritants like smoke.",
    "sore throat" := "Gargle with warm salt water and stay hydrated.",
    "difficulty breathing" := BreathingAdvice,
    "asthma" := BreathingAdvice,
    "tiredness" := "Rest well and maintain a balanced diet.",
    "body aches" := "Try gentle stretching and stay hydrated.",
    "muscle cramps" := "Stretch the muscle gently and apply heat.",
    "cramps" := "Stretch and stay hydrated."
  ]

  /** The advice shared by the two symptoms that open the breathing exercise. */
  const BreathingAdvice: string := "Try this breathing exercise below \U{1F447}"

  /** The symptoms for which the result page runs the breathing exercise. */
  const BreathingSymptoms: seq<string> := ["difficulty breathing", "asthma"]

  /** RISK_QUESTIONS: the questionnaire, in order, as (question text, answer key). */
  const RiskQuestions: seq<(string, string)> := [
    ("Do you have a fever?", "fever"),
    ("Do you have a cough or sore throat?", "cough_sorethroat"),
    ("Are you experiencing difficulty breathing?", "difficulty_breathing"),
    ("Are you feeling tired or having body aches?", "tired_bodyaches"),
    ("Have you been in contact with someone who's sick recently?", "contact_sick")
  ]

  /** The two options of the radio on the greeting page. */
  const SymptomFlow: string := "Get advice based on symptoms"
  const RiskFlow: string := "Take a health risk check"

  /** The first option of the "what next" radio differs between the two
      result pages; the second is "Exit" on both. */
  const AnotherSymptom: string := "Check another symptom or calculate risk"
  const RiskAgain: string := "Check symptom or calculate risk again"
  const ExitOption: string := "Exit"

  /** The two options of every questionnaire radio. */
  const Yes: string := "Yes"
  const No: string := "No"

  /** The answer keys of a question list. */
  function QuestionKeys(questions: seq<(string, string)>): set<string> {
    set i | 0 <= i < |questions| :: questions[i].1
  }

  predicate UniqueKeys(questions: seq<(string, string)>) {
    forall i, j :: 0 <= i < j < |questions| ==> questions[i].1 != questions[j].1
  }

  /** The keys of a question list are distinct, so there are as many as
      there are questions. */
  lemma {:induction false} UniqueKeysCount(questions: seq<(string, string)>)
    requires UniqueKeys(questions)
    ensures |QuestionKeys(questions)| == |questions|
  {
    if questions != [] {
      var n := |questions| - 1;
      var front := questions[..n];
      assert UniqueKeys(front);
      UniqueKeysCount(front);
      assert QuestionKeys(questions) == QuestionKeys(front) + {questions[n].1} by {
        forall k | k in QuestionKeys(questions) ensures k in QuestionKeys(front) + {questions[n].1} {
          var i :| 0 <= i < |questions| && questions[i].1 == k;
          if i < n { assert front[i].1 == k; }
        }
      }
      assert questions[n].1 !in QuestionKeys(front);
    }
  }

  /** The questionnaire's keys are distinct: five questions, five keys. */
  lemma RiskQuestionsWellFormed()
    ensures UniqueKeys(RiskQuestions)
    ensures |QuestionKeys(RiskQuestions)| == |RiskQuestions| == 5
  {
    UniqueKeysCount(RiskQuestions);
  }

  /** Every key of the advice table is non-empty, lower-case and trimmed. */
  lemma SymptomKeysNormal()
    ensures forall k :: k in SymptomAdvice ==> k != [] && IsNormal(k)
  {
    FirstKeysNormal();
    MiddleKeysNormal();
    LastKeysNormal();
  }

  lemma FirstKeysNormal()
    ensures IsNormal("fever") && IsNormal("cough") && IsNormal("sore throat")
  {
  }

  lemma MiddleKeysNormal()
    ensures IsNormal("difficulty breathing") && IsNormal("asthma") && IsNormal("tiredness")
  {
  }

  lemma LastKeysNormal()
    ensures IsNormal("body aches") && IsNormal("muscle cramps") && IsNormal("cramps")
  {
  }

  /** So a key of the advice table is its own normal form and can match a
      normalised input. */
  lemma SymptomKeyNormalizes(k: string)
    requires k in SymptomAdvice
    ensures Normalize(k) == k
  {
    SymptomKeysNormal();
    NormalizeFixed(k);
  }

  /** The breathing exercise runs exactly for the keys whose advice points to it. */
  lemma BreathingSymptomsMatchAdvice()
    ensures forall k :: k in BreathingSymptoms ==> k in SymptomAdvice
    ensures forall k :: k in SymptomAdvice ==> (k in BreathingSymptoms <==> SymptomAdvice[k] == BreathingAdvice)
  {
  }
}
