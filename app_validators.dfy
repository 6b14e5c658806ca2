/** Request validation done by the server before it forwards a waitlist sign-up or a
    feedback vote to the backend. */
module AppValidators {
  import opened Wrappers
  import opened PyValues

  const WaitlistFields: seq<string> := ["firstName", "lastName", "email", "consent"]

  /** Why a request is answered with 400; the text is the `message` of the answer. */
  datatype Rejection = Rejection(message: string)

  function MissingField(field: string): Rejection
  {
    Rejection("Missing required field: " + field)
  }

  predicate Present(data: map<string, Value>, field: string)
  {
    Truthy(Get(data, field))
  }

  /** The checks of `submit_waitlist`: every required field present and truthy, in
      order. The separate consent check that follows can never refuse, since `consent`
      is one of the required fields. */
  method ValidateWaitlist(data: map<string, Value>) returns (r: Option<Rejection>)
    ensures r.None? <==> forall i :: 0 <= i < |WaitlistFields| ==> Present(data, WaitlistFields[i])
    ensures r.Some? ==>
      exists j :: 0 <= j < |WaitlistFields| && !Present(data, WaitlistFields[j]) &&
        r.value == MissingField(WaitlistFields[j]) &&
        forall i :: 0 <= i < j ==> Present(data, WaitlistFields[i])
  {
    for k := 0 to |WaitlistFields|
      invariant forall i :: 0 <= i < k ==> Present(data, WaitlistFields[i])
    {
      var field := WaitlistFields[k];
      if field !in data || !Truthy(Some(data[field])) {
        return Some(MissingField(field));
      }
    }
    assert WaitlistFields[3] == "consent" && Present(data, WaitlistFields[3]);
    if !Truthy(Get(data, "consent")) {
      assert false;
    }
    return None;
  }

  /** The checks of `submit_feedback`. A `message_index` of 0 is accepted: only an
      absent or `null` one is refused. */
  function ValidateFeedback(data: map<string, Value>): (r: Option<Rejection>)
    ensures r.None? <==>
      !IsNone(Get(data, "message_index")) &&
      (Get(data, "feedback_type") == Some(Str("thumbs_up")) || Get(data, "feedback_type") == Some(Str("thumbs_down")))
    ensures IsNone(Get(data, "message_index")) ==> r == Some(Rejection("Message index is required"))
  {
    var index := Get(data, "message_index");
    var kind := Get(data, "feedback_type");
    if index.None? || index.value == Null then Some(Rejection("Message index is required"))
    else if !(kind.Some? && kind.value in [Str("thumbs_up"), Str("thumbs_down")]) then Some(Rejection("Invalid feedback type"))
    else None
  }
}
