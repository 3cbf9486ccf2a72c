/** The page state machine of `main()`: the values kept in the Streamlit
    session and what each button press does to them. */
module HealthBot {
  import opened Wrappers
  import opened Tables
  import opened Symptoms
  import opened Risk
  import opened Breathing

  /** The values `st.session_state.page` takes: 1, 2.1, 2.2, 3.1, 3.2 and 4. */
  datatype Page = Greeting | SymptomEntry | RiskEntry | SymptomResult | RiskResult | Done

  /** `st.session_state` as `main()` uses it. */
  class Session {
    var page: Page
    /** The option picked on the greeting page. */
    var choice: Option<string>
    /** The key the symptom box last matched. */
    var symptom: Option<string>
    /** The answers of the last questionnaire submitted. */
    var riskAnswers: map<string, string>

    /** What every page relies on: a stored symptom is a key of the advice
        table, stored answers cover the questionnaire, the symptom result page
        has a symptom, the risk result page has answers, and the flow pages
        agree with the option picked. */
    ghost predicate Valid()
      reads this
    {
      (symptom.Some? ==> symptom.value in SymptomAdvice) &&
      (riskAnswers == map[] || CompleteAnswers(riskAnswers)) &&
      (page == SymptomResult ==> symptom.Some?) &&
      (page == RiskResult ==> CompleteAnswers(riskAnswers)) &&
      (page != Greeting ==> choice.Some?) &&
      (page in {SymptomEntry, SymptomResult} ==> choice == Some(SymptomFlow)) &&
      (page in {RiskEntry, RiskResult} ==> choice.Some? && choice.value != SymptomFlow)
    }

    /** The first run of the script: page 1, nothing chosen, nothing stored. */
    constructor ()
      ensures Valid()
      ensures page == Greeting && choice == None && symptom == None && riskAnswers == map[]
    {
      page := Greeting;
      choice := None;
      symptom := None;
      riskAnswers := map[];
    }

    /** "Next" on the greeting page with `selection` picked in the radio. */
    method Next(selection: string)
      requires Valid() && page == Greeting
      modifies this
      ensures Valid()
      ensures choice == Some(selection)
      ensures page == (if selection == SymptomFlow then SymptomEntry else RiskEntry)
      ensures symptom == old(symptom) && riskAnswers == old(riskAnswers)
    {
      choice := Some(selection);
      if selection == SymptomFlow {
        page := SymptomEntry;
      } else {
        page := RiskEntry;
      }
    }

    /** "Submit" on the symptom page with `text` in the box: a known symptom
        is stored and its result page opened; anything else only raises the
        warning and leaves the session as it was. */
    method SubmitSymptom(text: string) returns (warned: bool)
      requires Valid() && page == SymptomEntry
      modifies this
      ensures Valid()
      ensures warned <==> Lookup(text).None?
      ensures !warned ==> page == SymptomResult && symptom == Lookup(text)
      ensures warned ==> page == SymptomEntry && symptom == old(symptom)
      ensures choice == old(choice) && riskAnswers == old(riskAnswers)
    {
      var key := Lookup(text);
      if key.Some? {
        symptom := key;
        page := SymptomResult;
        warned := false;
      } else {
        warned := true;
      }
    }

    /** "Submit" on the questionnaire page, `responses[i]` being the radio
        picked for question i. */
    method SubmitRisk(responses: seq<string>)
      requires Valid() && page == RiskEntry
      requires |responses| == |RiskQuestions|
      requires forall i :: 0 <= i < |responses| ==> IsYesNo(responses[i])
      modifies this
      ensures Valid()
      ensures page == RiskResult
      ensures riskAnswers == AnswerMap(RiskQuestions, responses)
      ensures choice == old(choice) && symptom == old(symptom)
    {
      var answers := CollectAnswers(responses);
      CollectedAnswersComplete(responses);
      riskAnswers := answers;
      page := RiskResult;
    }

    /** "Back" on either entry page: only the page changes. */
    method Back()
      requires Valid() && page in {SymptomEntry, RiskEntry}
      modifies this
      ensures Valid()
      ensures page == Greeting
      ensures choice == old(choice) && symptom == old(symptom) && riskAnswers == old(riskAnswers)
    {
      page := Greeting;
    }

    /** "Continue" on either result page with `selection` picked: its first
        option goes back to the greeting, anything else to the last page. */
    method Continue(selection: string)
      requires Valid() && page in {SymptomResult, RiskResult}
      modifies this
      ensures Valid()
      ensures var again := if old(page) == SymptomResult then AnotherSymptom else RiskAgain;
        page == (if selection == again then Greeting else Done)
      ensures choice == old(choice) && symptom == old(symptom) && riskAnswers == old(riskAnswers)
    {
      var again := if page == SymptomResult then AnotherSymptom else RiskAgain;
      if selection == again {
        page := Greeting;
      } else {
        page := Done;
      }
    }

    /** "Restart" on the last page: only the page changes; the choice, the
        symptom and the answers stay. */
    method Restart()
      requires Valid() && page == Done
      modifies this
      ensures Valid()
      ensures page == Greeting
      ensures choice == old(choice) && symptom == old(symptom) && riskAnswers == old(riskAnswers)
    {
      page := Greeting;
    }

    /** The symptom result page: `SYMPTOM_ADVICE.get(symptom)` always finds
        the stored key. */
    method Advice() returns (key: string, advice: string)
      requires Valid() && page == SymptomResult
      ensures symptom == Some(key) && key in SymptomAdvice
      ensures advice == SymptomAdvice[key]
      ensures TriggersBreathing(key) <==> advice == BreathingAdvice
    {
      key := symptom.value;
      advice := SymptomAdvice[key];
      BreathingSymptomsMatchAdvice();
    }

    /** What the symptom result page writes below the advice: the whole
        breathing exercise for the two breathing symptoms, nothing otherwise. */
    method BreathingLines() returns (lines: seq<Line>)
      requires Valid() && page == SymptomResult
      ensures TriggersBreathing(symptom.value) ==> lines == Exercise() && Seconds(lines) == 57
      ensures !TriggersBreathing(symptom.value) ==> lines == []
    {
      if symptom.value in BreathingSymptoms {
        lines := RunExercise();
        ExerciseSeconds();
      } else {
        lines := [];
      }
    }

    /** The risk result page: the number of "Yes" answers and its level. */
    method Assessment() returns (score: nat, level: RiskLevel)
      requires Valid() && page == RiskResult
      ensures score == RiskScore(riskAnswers) && score <= |RiskQuestions|
      ensures level == Level(score)
    {
      score := RiskScore(riskAnswers);
      CompleteScoreBounded(riskAnswers);
      level := Level(score);
    }
  }

  /** A visit that asks about "Fever ": the greeting, the symptom page, then
      the advice for fever without the breathing exercise. */
  method SymptomVisit() returns (advice: string, exercise: seq<Line>, page: Page)
    ensures advice == "Keep hydrated and rest. If fever persists for more than 3 days, see a doctor."
    ensures exercise == []
    ensures page == Greeting
  {
    var session := new Session();
    session.Next(SymptomFlow);
    var warned := session.SubmitSymptom("Fever ");
    FeverExample();
    var key;
    key, advice := session.Advice();
    exercise := session.BreathingLines();
    session.Continue(AnotherSymptom);
    page := session.page;
  }

  /** A visit to the questionnaire answering "Yes" to the first two
      questions: moderate risk; leaving and restarting keeps the answers. */
  method RiskVisit() returns (level: RiskLevel, kept: map<string, string>, page: Page)
    ensures level == ModerateRisk
    ensures kept == AnswerMap(RiskQuestions, [Yes, Yes, No, No, No])
    ensures page == Greeting
  {
    var session := new Session();
    session.Next(RiskFlow);
    session.SubmitRisk([Yes, Yes, No, No, No]);
    var score;
    score, level := session.Assessment();
    ModerateExample();
    session.Continue(ExitOption);
    session.Restart();
    kept, page := session.riskAnswers, session.page;
  }
}
