/** The symptom flow: the lookup the entry page does on Submit and the
    decisions the result page makes from the stored key. */
module Symptoms {
  import opened Wrappers
  import opened Text
  import opened Tables

  /** The entry page's Submit: normalise the text, then test membership in
      the advice table. `Some(key)` is the key stored in the session; `None`
      is the "Symptom not recognized" warning. */
  function Lookup(text: string): (r: Option<string>)
    ensures r.Some? <==> Normalize(text) in SymptomAdvice
    ensures r.Some? ==> r.value in SymptomAdvice && r.value == Normalize(text)
  {
    var key := Normalize(text);
    if key in SymptomAdvice then Some(key) else None
  }

  /** Whether the result page runs the breathing exercise for a stored key. */
  predicate TriggersBreathing(symptom: string) {
    symptom in BreathingSymptoms
  }

  /** Every key of the table is found when typed in any letter case and with
      any white space around it. */
  lemma LookupFindsKey(key: string, pre: string, typed: string, post: string)
    requires key in SymptomAdvice
    requires Lower(typed) == key
    requires AllSpace(pre) && AllSpace(post)
    ensures Lookup(pre + typed + post) == Some(key)
  {
    NormalizePadded(pre, typed, post);
    LowerKeepsLowerCase(key);
    SymptomKeyNormalizes(key);
    assert Normalize(typed) == Strip(Lower(key));
  }

  /** The lookup does not depend on letter case or on surrounding white space. */
  lemma LookupIgnoresCaseAndPadding(a: string, b: string, pre: string, post: string)
    requires Lower(a) == Lower(b)
    requires AllSpace(pre) && AllSpace(post)
    ensures Lookup(pre + a + post) == Lookup(b)
  {
    NormalizePadded(pre, a, post);
  }

  /** Looking up a found key again finds the same key: what the session stores
      is a fixed point of the lookup. */
  lemma LookupStable(text: string)
    requires Lookup(text).Some?
    ensures Lookup(Lookup(text).value) == Lookup(text)
  {
    NormalizeIdempotent(text);
  }

  /** Only the two breathing symptoms run the exercise, and they are the two
      keys whose advice points to it. */
  lemma BreathingTrigger(text: string)
    requires Lookup(text).Some?
    ensures TriggersBreathing(Lookup(text).value) <==>
      Normalize(text) == "difficulty breathing" || Normalize(text) == "asthma"
    ensures TriggersBreathing(Lookup(text).value) <==>
      SymptomAdvice[Lookup(text).value] == BreathingAdvice
  {
    BreathingSymptomsMatchAdvice();
  }

  /** "Fever " typed on the entry page finds the advice for "fever". */
  lemma FeverExample()
    ensures Lookup("Fever ") == Some("fever")
    ensures SymptomAdvice[Lookup("Fever ").value] ==
      "Keep hydrated and rest. If fever persists for more than 3 days, see a doctor."
  {
    var typed, padded := "Fever", "Fever ";
    assert Lower(typed) == "fever" by {
      assert Lower(typed)[0] == LowerChar('F');
    }
    assert padded == [] + typed + " ";
    LookupFindsKey("fever", [], typed, " ");
  }

  /** Text whose normal form is not a key is refused, whatever its case. */
  lemma UnknownRefused(text: string)
    requires Normalize(text) !in SymptomAdvice
    ensures Lookup(text) == None
    ensures forall u :: Lower(u) == Lower(text) ==> Lookup(u) == None
  {
  }
}
