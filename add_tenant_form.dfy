/** The "Add a tenant" form: four text inputs, the required-names check, the
    trimmed payload handed to `onAdd`, and the reset or error line that
    follows the callback's outcome. */
module AddTenantForm {
  import opened Wrappers
  import opened Text

  /** What the form hands to `onAdd`. */
  datatype TenantFormValues = TenantFormValues(firstName: string, lastName: string, email: string, phone: string)

  /** The form's state: the four inputs, the error line and the busy flag. */
  datatype FormState = FormState(
    firstName: string,
    lastName: string,
    email: string,
    phone: string,
    error: Option<string>,
    isSubmitting: bool)

  const Initial := FormState("", "", "", "", None, false)

  const NamesRequired := "First name and last name are required"
  const AddFailed := "Could not add tenant. Please try again."

  /** A submit: the state afterwards and the payload `onAdd` was called
      with, if it was called. */
  datatype Submission = Submission(next: FormState, sent: Option<TenantFormValues>)

  /** `handleSubmit`, with the outcome of the awaited `onAdd` as a parameter. */
  function SubmitStep(s: FormState, outcome: Outcome): (r: Submission)
    // both names are required after trimming; email and phone may be blank
    ensures r.sent.None? <==> Trim(s.firstName) == [] || Trim(s.lastName) == []
    ensures r.sent.None? ==> r.next == s.(error := Some(NamesRequired))
    // every payload field is the trimmed input
    ensures r.sent.Some? ==>
              r.sent.value == TenantFormValues(Trim(s.firstName), Trim(s.lastName), Trim(s.email), Trim(s.phone)) &&
              r.sent.value.firstName != [] && r.sent.value.lastName != []
    ensures r.sent.Some? ==> !r.next.isSubmitting
    ensures r.sent.Some? && outcome == Resolved ==> r.next == Initial
    ensures r.sent.Some? && outcome == Rejected ==>
              r.next == s.(error := Some(AddFailed), isSubmitting := false)
  {
    var cleared := s.(error := None);
    if Trim(s.firstName) == [] || Trim(s.lastName) == [] then
      Submission(cleared.(error := Some(NamesRequired)), None)
    else
      var payload := TenantFormValues(Trim(s.firstName), Trim(s.lastName), Trim(s.email), Trim(s.phone));
      var busy := cleared.(isSubmitting := true);
      var settled :=
        match outcome
        case Resolved => busy.(firstName := "", lastName := "", email := "", phone := "")
        case Rejected => busy.(error := Some(AddFailed));
      Submission(settled.(isSubmitting := false), Some(payload))
  }

  /** Each payload field is free of outer whitespace, and trimming the inputs
      beforehand would not change what is sent. */
  lemma PayloadIsTrimmed(s: FormState, outcome: Outcome)
    requires SubmitStep(s, outcome).sent.Some?
    ensures var v := SubmitStep(s, outcome).sent.value;
            IsTrimmed(v.firstName) && IsTrimmed(v.lastName) && IsTrimmed(v.email) && IsTrimmed(v.phone)
    ensures SubmitStep(s.(firstName := Trim(s.firstName), lastName := Trim(s.lastName),
                          email := Trim(s.email), phone := Trim(s.phone)), outcome).sent
            == SubmitStep(s, outcome).sent
  {
    TrimIdempotent(s.firstName);
    TrimIdempotent(s.lastName);
    TrimIdempotent(s.email);
    TrimIdempotent(s.phone);
  }

  /** What the user can do to the form. */
  datatype FormEvent =
    | TypeFirstName(value: string)
    | TypeLastName(value: string)
    | TypeEmail(value: string)
    | TypePhone(value: string)
    | Submit(outcome: Outcome)

  function Apply(s: FormState, e: FormEvent): (r: FormState) {
    match e
    case TypeFirstName(v) => s.(firstName := v)
    case TypeLastName(v) => s.(lastName := v)
    case TypeEmail(v) => s.(email := v)
    case TypePhone(v) => s.(phone := v)
    case Submit(o) => SubmitStep(s, o).next
  }

  function Run(s: FormState, events: seq<FormEvent>): (r: FormState)
    decreases |events|
  {
    if events == [] then s else Run(Apply(s, events[0]), events[1..])
  }

  /** Whatever the user does, the form is never left busy between events. */
  lemma {:induction false} NeverLeftSubmitting(s: FormState, events: seq<FormEvent>)
    requires !s.isSubmitting
    ensures !Run(s, events).isSubmitting
    decreases |events|
  {
    if events != [] {
      NeverLeftSubmitting(Apply(s, events[0]), events[1..]);
    }
  }

  /** The form component: its fields are the React state. */
  class Form {
    var firstName: string
    var lastName: string
    var email: string
    var phone: string
    var error: Option<string>
    var isSubmitting: bool

    function State(): FormState
      reads this
    {
      FormState(firstName, lastName, email, phone, error, isSubmitting)
    }

    constructor ()
      ensures State() == Initial
    {
      firstName, lastName, email, phone := "", "", "", "";
      error, isSubmitting := None, false;
    }

    method TypeFirstName(value: string)
      modifies this
      ensures State() == old(State()).(firstName := value)
    {
      firstName := value;
    }

    method TypeLastName(value: string)
      modifies this
      ensures State() == old(State()).(lastName := value)
    {
      lastName := value;
    }

    method TypeEmail(value: string)
      modifies this
      ensures State() == old(State()).(email := value)
    {
      email := value;
    }

    method TypePhone(value: string)
      modifies this
      ensures State() == old(State()).(phone := value)
    {
      phone := value;
    }

    /** `handleSubmit`: returns the payload `onAdd` was called with, if any. */
    method HandleSubmit(outcome: Outcome) returns (sent: Option<TenantFormValues>)
      modifies this
      ensures Submission(State(), sent) == SubmitStep(old(State()), outcome)
    {
      error := None;
      if Trim(firstName) == [] || Trim(lastName) == [] {
        error := Some(NamesRequired);
        return None;
      }
      var payload := TenantFormValues(Trim(firstName), Trim(lastName), Trim(email), Trim(phone));
      isSubmitting := true;
      sent := Some(payload);
      match outcome {
        case Resolved =>
          firstName := "";
          lastName := "";
          email := "";
          phone := "";
        case Rejected =>
          error := Some(AddFailed);
      }
      isSubmitting := false;
    }
  }
}
