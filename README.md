# HealthBot in Dafny

HealthBot is a single-file Streamlit app (`app.py`). It greets the user by the
hour of the day in Singapore and then offers two flows:

- **Symptom advice.** The user types a symptom. The text is lower-cased and
  stripped, then looked up in the advice table. For "difficulty breathing" and
  "asthma" the result page also runs a timed breathing exercise.
- **Health risk check.** The user answers five Yes/No questions. The number of
  "Yes" answers gives a level: High from 4, Moderate from 2, Low below that.

The UI is a page number kept in the session (1, 2.1, 2.2, 3.1, 3.2, 4). A
button press sets the page, except Submit with an unknown symptom, which
only warns and stays on page 2.1.

The model has one module per concern:

- `Text` (`text.dfy`): ASCII `str.lower()` and `str.strip()`, and the
  normalisation `text.lower().strip()`.
- `Tables` (`tables.dfy`): `SYMPTOM_ADVICE`, `RISK_QUESTIONS` and the fixed
  option strings of the radios.
- `Symptoms` (`symptoms.dfy`): the lookup behind the symptom page's Submit,
  and the test that starts the breathing exercise.
- `Risk` (`risk.dfy`): the answer map the questionnaire loop builds, the
  score and the level.
- `Greeting` (`greeting.dfy`): the Singapore hour and the morning, afternoon
  and evening bands.
- `Breathing` (`breathing.dfy`): the lines `breathing_exercise()` writes, as
  data, and the nested loops that write them.
- `HealthBot` (`session.dfy`): the class `Session` holding the four session
  values, with one method per button. Its `Valid()` invariant is kept by
  every event:
  - page 3.1 always holds a key of the advice table;
  - page 3.2 always holds a full Yes/No answer map;
  - each flow page agrees with the option picked on page 1.
- `Wrappers` (`wrappers.dfy`): the `Option` type used for `None` values.

Restart (`app.py:154-155`) only sets the page back to 1, so the stored
choice, symptom and answers survive. `HealthBot.Session.Restart` changes
only `page`, and `HealthBot.RiskVisit` shows a set of answers that outlives
a restart.

## Model

| member | source | states |
|---|---|---|
| `Text.Lower` | app.py:85 | lower-casing keeps the length and maps every character through the ASCII lower-case mapping |
| `Text.Lead` | app.py:85 | the leading white space: a count of blank characters followed by a non-blank one or the end |
| `Text.End` | app.py:85 | the end of the text without its trailing white space: only blanks after it, a non-blank just before it |
| `Text.StripInfix` | app.py:85 | strip returns the infix that starts at the first non-blank character, with only white space on either side of it |
| `Text.StripEmpty` | app.py:85 | strip returns the empty string exactly when the text is all white space |
| `Text.StripEnds` | app.py:85 | a stripped string neither starts nor ends with white space |
| `Text.StripKeepsNoUpper` | app.py:85 | stripping a text without capitals gives a text without capitals |
| `Text.Strip` | app.py:85 | `str.strip()`: never longer than its input; its result is pinned down by `Text.StripInfix`, `Text.StripEmpty` and `Text.StripEnds` |
| `Text.Normalize` | app.py:85 | `lower().strip()` gives a string with no capitals and no white space at either end, and never a longer one |
| `Text.LowerAppend` | app.py:85 | lower-casing distributes over concatenation |
| `Text.LeadPadded` | app.py:85 | white space in front adds to the leading white space |
| `Text.EndPrepend` | app.py:85 | text in front shifts the end of the trailing white space by its length |
| `Text.StripAfterSpace` | app.py:85 | white space before the text does not change what strip returns |
| `Text.StripBeforeSpace` | app.py:85 | white space after the text does not change what strip returns |
| `Text.StripPadded` | app.py:85 | white space on both sides does not change what strip returns |
| `Text.NormalizePadded` | app.py:85 | normalising ignores white space typed around the symptom |
| `Text.NormalizeFixed` | app.py:85 | the normal strings are exactly the fixed points of normalisation |
| `Text.NormalizeIdempotent` | app.py:85 | normalising twice is normalising once |
| `Tables.UniqueKeysCount` | app.py:19-25 | a question list with distinct keys has as many keys as questions |
| `Tables.RiskQuestionsWellFormed` | app.py:19-25 | the five questions have five distinct answer keys |
| `Tables.SymptomKeysNormal` | app.py:6-16 | every advice key is non-empty, lower-case and trimmed |
| `Tables.SymptomKeyNormalizes` | app.py:6-16 | every advice key is its own normal form, so typing it finds it |
| `Tables.BreathingSymptomsMatchAdvice` | app.py:10-11 | the two breathing symptoms are table keys, and they are exactly the keys whose advice points to the exercise |
| `Symptoms.Lookup` | app.py:85-91 | Submit finds a key exactly when the normalised text is in the table, and the key found is that normalised text |
| `Symptoms.TriggersBreathing` | app.py:116 | the membership test in the two breathing symptoms; characterised by `Symptoms.BreathingTrigger` |
| `Symptoms.LookupFindsKey` | app.py:85-89 | every key is found in any letter case and with any white space around it |
| `Symptoms.LookupIgnoresCaseAndPadding` | app.py:85 | texts with the same lower-case form, padded or not, get the same lookup result |
| `Symptoms.LookupStable` | app.py:85-89 | looking up the stored key again finds the same key |
| `Symptoms.BreathingTrigger` | app.py:116-117 | the exercise runs exactly when the normalised text is "difficulty breathing" or "asthma", the two keys whose advice points to it |
| `Symptoms.FeverExample` | app.py:7 | "Fever " is found as "fever" and gets the fever advice |
| `Symptoms.UnknownRefused` | app.py:87-91 | a text whose normal form is not a key is refused, in every letter case |
| `Risk.RiskScore` | app.py:132 | the score never exceeds the number of answers |
| `Risk.SubsetSize` | app.py:132 | helper behind the bound of `Risk.RiskScore`: a subset is no larger than the set containing it |
| `Risk.ScoreZero` | app.py:132 | the score is zero exactly when no answer is "Yes" |
| `Risk.Level` | app.py:133-138 | High exactly from 4, Moderate exactly from 2 to 3, Low exactly below 2 |
| `Risk.LevelMonotone` | app.py:133-138 | a higher score never gives a lower level |
| `Risk.AnswerMap` | app.py:98-100 | the dict the loop builds, each key bound to its radio's value; characterised by `Risk.AnswerMapKeys` and `Risk.AnswerMapAt` |
| `Risk.AnswerMapKeys` | app.py:98-100 | the built answer map has exactly the question keys |
| `Risk.AnswerMapAt` | app.py:98-100 | with distinct keys, each question's key holds that question's response |
| `Risk.ScoreOfNewKey` | app.py:132 | binding a new key raises the score by one exactly when the answer is "Yes" |
| `Risk.LastKeyIsNew` | app.py:19-25 | with distinct keys, the last key is not bound by the earlier questions |
| `Risk.ScoreCountsResponses` | app.py:99-100 | the score of the built map is the number of "Yes" responses given |
| `Risk.CollectAnswers` | app.py:98-100 | the loop builds the answer map: the question keys, each bound to its radio's value |
| `Risk.AnswerMapYesNo` | app.py:100 | Yes/No responses give a map whose every value is Yes or No |
| `Risk.CollectedAnswersComplete` | app.py:98-103 | the answers submitted form a complete answer map |
| `Risk.CompleteScoreBounded` | app.py:132 | a complete answer map scores at most 5 |
| `Risk.ModerateExample` | app.py:132-138 | two "Yes" answers score 2, labelled "Moderate Risk" |
| `Greeting.SingaporeHour` | app.py:28-30 | the UTC+8 hour is an hour of the day, eight hours after the UTC hour modulo 24 |
| `Greeting.PartOfDay` | app.py:32-37 | morning exactly before 12, afternoon exactly from 12 to 17, evening exactly from 18 |
| `Greeting.PartOfDayMonotone` | app.py:32-37 | a later hour never gives an earlier greeting |
| `Greeting.HoursOfDay` | app.py:32-37 | a day has 12 morning hours, 6 afternoon hours and 6 evening hours |
| `Greeting.GreetingBoundaries` | app.py:28-37 | the greeting at the boundary hours, and 16:00 UTC is morning in Singapore |
| `Breathing.Ticks` | app.py:56 | `range(hi, lo, -1)` has hi - lo values, or none when hi <= lo |
| `Breathing.TicksExtend` | app.py:56-57 | counting down one second further appends exactly that second |
| `Breathing.WritePhase` | app.py:55-59 | the inner loop writes the phase header, then its countdown |
| `Breathing.WriteCycle` | app.py:53-59 | the middle loop writes the cycle header, then the three phases in order |
| `Breathing.RunExercise` | app.py:43-59 | the exercise writes the instructions, then cycles 1 to 3 |
| `Breathing.Exercise` | app.py:43-59 | everything `breathing_exercise()` writes: the six instructions, then cycles 1 to 3; `Breathing.RunExercise` is proved equal to it |
| `Breathing.SecondsAppend` | app.py:58 | the pauses of two pieces of output add up |
| `Breathing.TicksSeconds` | app.py:56-58 | a countdown pauses once per second counted |
| `Breathing.PhaseSeconds` | app.py:54-58 | a phase pauses as many seconds as its length |
| `Breathing.CycleSeconds` | app.py:54-58 | a cycle pauses 4 + 7 + 8 = 19 seconds |
| `Breathing.CyclesSeconds` | app.py:52-58 | n cycles pause 19 seconds each |
| `Breathing.ExerciseSeconds` | app.py:43-58 | the whole exercise sleeps 57 seconds |
| `Breathing.CycleShape` | app.py:53-57 | a cycle is its header, then inhale 4, hold 7 and exhale 8, each followed by its countdown |
| `Breathing.CycleLength` | app.py:53-57 | a cycle writes 23 lines |
| `Breathing.CyclesLength` | app.py:52-57 | n cycles write 23 lines each |
| `Breathing.ExerciseLength` | app.py:43-57 | the exercise writes 6 instruction lines and 69 timer lines |
| `HealthBot.Session.Valid` | app.py:62-156 | the invariant every event keeps: page 3.1 holds a table key, page 3.2 a complete Yes/No map, each flow page the option picked |
| `HealthBot.Session.constructor` | app.py:62-66 | the first run starts on page 1 with nothing chosen or stored |
| `HealthBot.Session.Next` | app.py:75-80 | Next stores the choice and opens the symptom page for the symptom option, the questionnaire for anything else |
| `HealthBot.Session.SubmitSymptom` | app.py:85-91 | a known symptom is stored and page 3.1 opens; otherwise there is a warning and nothing changes |
| `HealthBot.Session.SubmitRisk` | app.py:98-103 | the answers are stored and page 3.2 opens with a complete answer map |
| `HealthBot.Session.Back` | app.py:92-93 | Back returns to page 1 and changes nothing else (also app.py:104-105) |
| `HealthBot.Session.Continue` | app.py:121-125 | the first option returns to page 1 and anything else goes to page 4; only the page changes (also app.py:144-148) |
| `HealthBot.Session.Restart` | app.py:154-155 | Restart returns to page 1 and changes nothing else |
| `HealthBot.Session.Advice` | app.py:110-113 | the stored symptom is always a table key, and its advice points to the exercise exactly for the breathing symptoms |
| `HealthBot.Session.BreathingLines` | app.py:116-117 | page 3.1 writes the whole 57-second exercise for the breathing symptoms and nothing for the others |
| `HealthBot.Session.Assessment` | app.py:132-140 | page 3.2 computes the number of "Yes" answers, at most 5, and shows its level |
| `HealthBot.SymptomVisit` | app.py:68-126 | page 1, then "Fever " on page 2.1, gives the fever advice and no exercise, and Continue returns to page 1 |
| `HealthBot.RiskVisit` | app.py:68-156 | two "Yes" answers give moderate risk, and the answers outlive Exit and Restart |

## Left out

- Rendering: titles, headers, the notes on page 1 and page 4, emoji and
  `symptom.capitalize()` are display only. The greeting's salutation strings
  are kept as data without a contract.
- Streamlit's rerun model: a script run, `st.stop()`, and widget values kept
  between runs. Each button press is one method call, and the value of its
  page's text box or radios is the method's parameter. At most one button is
  pressed per run, so Submit and Back on one page never run together.
- The clock: `datetime.now` becomes the parameter `utcHour` of
  `Greeting.SingaporeHour`. Any other hour value is the parameter of
  `Greeting.PartOfDay`.
- `time.sleep(1)` is not timed. Each countdown line stands for one second of
  sleep, and `Breathing.Seconds` counts those lines. `st.empty()` writes
  nothing and is left out.
- Pages are the enumerated type `HealthBot.Page`, not floats. A page value
  outside the six used by `main()` cannot arise and is not modelled.
- Text.Lower: lower-cases the ASCII letters only. Python's Unicode case
  mapping is not modelled.
- Text.Strip: removes the ASCII white space of `str.isspace()` only, not the
  other Unicode spaces. Its own contract bounds only its length; what it
  returns is stated by `Text.StripInfix`, `Text.StripEmpty` and
  `Text.StripEnds`.
- HealthBot.Session.SubmitRisk: requires each response to be "Yes" or "No",
  because each comes from a radio with only those two options.
- Breathing.RunExercise: the three nested loops of `breathing_exercise()`
  are split into one method per loop level: `RunExercise`, `WriteCycle` and
  `WritePhase`.
