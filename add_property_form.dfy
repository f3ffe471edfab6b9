/** The "Add a property" form: its field state, the required-name check, the
    trimmed payload handed to the `onAdd` callback, and the reset or error
    line that follows the callback's outcome. */
module AddPropertyForm {
  import opened Wrappers
  import opened Text
  import opened PropertyList

  /** What the form hands to `onAdd`. */
  datatype PropertyFormValues = PropertyFormValues(name: string, suburb: string, status: PropertyStatus)

  /** The form's state: the three inputs, the error line and the busy flag. */
  datatype FormState = FormState(
    name: string,
    suburb: string,
    status: PropertyStatus,
    error: Option<string>,
    isSubmitting: bool)

  /** The state the form mounts with: empty inputs, status "occupied". */
  const Initial := FormState("", "", Occupied, None, false)

  const NameRequired := "Name is required"
  const AddFailed := "Could not add property. Please try again."

  /** A submit: the state afterwards and the payload `onAdd` was called
      with, if it was called. */
  datatype Submission = Submission(next: FormState, sent: Option<PropertyFormValues>)

  /** `handleSubmit`, with the outcome of the awaited `onAdd` as a parameter
      (it is only looked at when `onAdd` is called). */
  function SubmitStep(s: FormState, outcome: Outcome): (r: Submission)
    // only a blank name blocks the callback; a blank suburb does not
    ensures r.sent.None? <==> Trim(s.name) == []
    ensures r.sent.None? ==> r.next == s.(error := Some(NameRequired))
    // the payload is the trimmed text and the chosen status
    ensures r.sent.Some? ==>
              r.sent.value == PropertyFormValues(Trim(s.name), Trim(s.suburb), s.status) &&
              r.sent.value.name != [] && IsTrimmed(r.sent.value.name) && IsTrimmed(r.sent.value.suburb)
    // once the callback was awaited the busy flag is down again
    ensures r.sent.Some? ==> !r.next.isSubmitting
    ensures r.sent.Some? && outcome == Resolved ==> r.next == Initial
    ensures r.sent.Some? && outcome == Rejected ==>
              r.next == s.(error := Some(AddFailed), isSubmitting := false)
  {
    var cleared := s.(error := None);
    if Trim(s.name) == [] then
      Submission(cleared.(error := Some(NameRequired)), None)
    else
      var payload := PropertyFormValues(Trim(s.name), Trim(s.suburb), s.status);
      var busy := cleared.(isSubmitting := true);
      var settled :=
        match outcome
        case Resolved => busy.(name := "", suburb := "", status := Occupied)
        case Rejected => busy.(error := Some(AddFailed));
      Submission(settled.(isSubmitting := false), Some(payload))
  }

  /** What the user can do to the form. */
  datatype FormEvent =
    | TypeName(value: string)
    | TypeSuburb(value: string)
    | ChooseStatus(choice: PropertyStatus)
    | Submit(outcome: Outcome)

  function Apply(s: FormState, e: FormEvent): (r: FormState) {
    match e
    case TypeName(v) => s.(name := v)
    case TypeSuburb(v) => s.(suburb := v)
    case ChooseStatus(c) => s.(status := c)
    case Submit(o) => SubmitStep(s, o).next
  }

  function Run(s: FormState, events: seq<FormEvent>): (r: FormState)
    decreases |events|
  {
    if events == [] then s else Run(Apply(s, events[0]), events[1..])
  }

  /** Whatever the user does, the form is never left busy between events. */
  lemma {:induction false} NeverLeftSubmitting(s: FormState, events: seq<FormEvent>)
    requires !s.isSubmitting
    ensures !Run(s, events).isSubmitting
    decreases |events|
  {
    if events != [] {
      NeverLeftSubmitting(Apply(s, events[0]), events[1..]);
    }
  }

  /** A successful submit empties the name, so pressing the button again
      straight away is stopped by the name check and `onAdd` is not called
      twice with the same values. */
  lemma ResubmitAfterSuccessIsBlocked(s: FormState, o: Outcome)
    requires SubmitStep(s, Resolved).sent.Some?
    ensures SubmitStep(SubmitStep(s, Resolved).next, o).sent.None?
  {
  }

  /** The form component: its fields are the React state. */
  class Form {
    var name: string
    var suburb: string
    var status: PropertyStatus
    var error: Option<string>
    var isSubmitting: bool

    function State(): FormState
      reads this
    {
      FormState(name, suburb, status, error, isSubmitting)
    }

    constructor ()
      ensures State() == Initial
    {
      name, suburb, status := "", "", Occupied;
      error, isSubmitting := None, false;
    }

    method TypeName(value: string)
      modifies this
      ensures State() == old(State()).(name := value)
    {
      name := value;
    }

    method TypeSuburb(value: string)
      modifies this
      ensures State() == old(State()).(suburb := value)
    {
      suburb := value;
    }

    method ChooseStatus(choice: PropertyStatus)
      modifies this
      ensures State() == old(State()).(status := choice)
    {
      status := choice;
    }

    /** `handleSubmit`: returns the payload `onAdd` was called with, if any. */
    method HandleSubmit(outcome: Outcome) returns (sent: Option<PropertyFormValues>)
      modifies this
      ensures Submission(State(), sent) == SubmitStep(old(State()), outcome)
    {
      error := None;
      if Trim(name) == [] {
        error := Some(NameRequired);
        return None;
      }
      var payload := PropertyFormValues(Trim(name), Trim(suburb), status);
      isSubmitting := true;
      sent := Some(payload);
      match outcome {
        case Resolved =>
          name := "";
          suburb := "";
          status := Occupied;
        case Rejected =>
          error := Some(AddFailed);
      }
      isSubmitting := false;
    }
  }
}
