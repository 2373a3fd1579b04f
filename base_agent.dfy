/**
 * The input check every agent shares: an input dictionary is accepted when it
 * has every required key, and otherwise rejected with the list of the missing
 * ones.
 */
module BaseAgent {
  import opened Py
  import opened Text
  import opened Sequences

  /** `[field for field in required_fields if field not in input_data]` */
  function MissingFields(input: map<string, Json>, required: seq<string>): (r: seq<string>)
    ensures forall f :: f in r ==> f in required && f !in input
  {
    Filter(required, f => f !in input)
  }

  /** `validate_input`: `(True, None)` when nothing is missing, else `False` and the message naming the missing fields. */
  function ValidateInput(input: map<string, Json>, required: seq<string>): (r: (bool, Option<string>))
    ensures r.0 <==> forall i :: 0 <= i < |required| ==> required[i] in input
    ensures r.0 <==> r.1 == None
    ensures !r.0 ==> r.1 == Some("Missing required fields: " + Join(", ", MissingFields(input, required)))
  {
    FilterEmptyIff(required, f => f !in input);
    var missing := MissingFields(input, required);
    if missing != [] then (false, Some("Missing required fields: " + Join(", ", missing)))
    else (true, None)
  }

  /** The missing list names every absent required field, and no other, in the order of the required list. */
  lemma MissingFieldsExact(input: map<string, Json>, required: seq<string>)
    ensures forall f :: f in MissingFields(input, required) <==> f in required && f !in input
    ensures IsSubsequence(MissingFields(input, required), required)
  {
    FilterMembers(required, f => f !in input);
    FilterSubsequence(required, f => f !in input);
  }

  /** Keys the required list does not name play no part in the result. */
  lemma {:induction false} ExtraKeysIrrelevant(a: map<string, Json>, b: map<string, Json>, required: seq<string>)
    requires forall f :: f in required ==> (f in a <==> f in b)
    ensures MissingFields(a, required) == MissingFields(b, required)
    ensures ValidateInput(a, required) == ValidateInput(b, required)
    decreases |required|
  {
    if |required| > 0 {
      var init := required[..|required| - 1];
      assert forall f :: f in init ==> f in required;
      ExtraKeysIrrelevant(a, b, init);
    }
  }
}
