/** The "Add a lease" form: property and tenant choices, start date, rent,
    frequency and bond; the lenient number parsing of the two amount inputs;
    the required-field check; the payload handed to `onCreate`; and the reset
    or error line that follows the callback's outcome. */
module AddLeaseForm {
  import opened Wrappers
  import opened Text

  datatype Frequency = Weekly | Fortnightly | Monthly

  /** What the form hands to `onCreate`. */
  datatype LeaseFormValues = LeaseFormValues(
    propertyId: string,
    tenantId: string,
    startDate: string,
    rentAmount: real,
    rentFrequency: Frequency,
    bondAmount: Option<real>)

  /** The form's state: the six inputs, the error line and the busy flag. */
  datatype FormState = FormState(
    propertyId: string,
    tenantId: string,
    startDate: string,
    rentAmount: Option<real>,
    rentFrequency: Frequency,
    bondAmount: Option<real>,
    error: Option<string>,
    isSubmitting: bool)

  /** Nothing chosen, no amounts, weekly rent. */
  const Initial := FormState("", "", "", None, Weekly, None, None, false)

  const FieldsRequired := "Property, tenant and start date are required"
  const CreateFailed := "Could not create lease. Please try again."

  /** `parseNumber`: blank input is absent; otherwise the trimmed text goes
      through `toNumber`, which stands for JavaScript's `Number(...)` followed
      by the not-a-number check (absent when the text is not a number). */
  function ParseNumber(value: string, toNumber: string -> Option<real>): (r: Option<real>)
    ensures IsBlank(value) ==> r == None
    ensures !IsBlank(value) ==> r == toNumber(Trim(value))
  {
    TrimEmptyIffBlank(value);
    var trimmed := Trim(value);
    if trimmed == [] then None else toNumber(trimmed)
  }

  /** Whitespace around an amount never changes how it is read. */
  lemma ParseNumberIgnoresOuterWhitespace(value: string, toNumber: string -> Option<real>)
    ensures ParseNumber(Trim(value), toNumber) == ParseNumber(value, toNumber)
  {
    TrimIdempotent(value);
  }

  /** A submit: the state afterwards and the payload `onCreate` was called
      with, if it was called. */
  datatype Submission = Submission(next: FormState, sent: Option<LeaseFormValues>)

  /** `handleSubmit`, with the outcome of the awaited `onCreate` as a
      parameter. The required fields are checked without trimming. */
  function SubmitStep(s: FormState, outcome: Outcome): (r: Submission)
    ensures r.sent.None? <==> s.propertyId == "" || s.tenantId == "" || s.startDate == ""
    ensures r.sent.None? ==> r.next == s.(error := Some(FieldsRequired))
    // ids, date, frequency and bond go out unchanged; absent rent becomes 0
    ensures r.sent.Some? ==>
              var v := r.sent.value;
              v.propertyId == s.propertyId && v.tenantId == s.tenantId &&
              v.startDate == s.startDate && v.rentFrequency == s.rentFrequency &&
              v.bondAmount == s.bondAmount &&
              (s.rentAmount.None? ==> v.rentAmount == 0.0) &&
              (s.rentAmount.Some? ==> v.rentAmount == s.rentAmount.value)
    ensures r.sent.Some? ==> !r.next.isSubmitting
    ensures r.sent.Some? && outcome == Resolved ==> r.next == Initial
    ensures r.sent.Some? && outcome == Rejected ==>
              r.next == s.(error := Some(CreateFailed), isSubmitting := false)
  {
    var cleared := s.(error := None);
    if s.propertyId == "" || s.tenantId == "" || s.startDate == "" then
      Submission(cleared.(error := Some(FieldsRequired)), None)
    else
      var payload := LeaseFormValues(s.propertyId, s.tenantId, s.startDate,
                                     s.rentAmount.GetOr(0.0), s.rentFrequency, s.bondAmount);
      var busy := cleared.(isSubmitting := true);
      var settled :=
        match outcome
        case Resolved =>
          busy.(propertyId := "", tenantId := "", startDate := "",
                rentAmount := None, bondAmount := None, rentFrequency := Weekly)
        case Rejected => busy.(error := Some(CreateFailed));
      Submission(settled.(isSubmitting := false), Some(payload))
  }

  /** What the user can do to the form; the amount inputs deliver raw text. */
  datatype FormEvent =
    | ChooseProperty(id: string)
    | ChooseTenant(id: string)
    | TypeStartDate(value: string)
    | TypeRent(text: string)
    | ChooseFrequency(frequency: Frequency)
    | TypeBond(text: string)
    | Submit(outcome: Outcome)

  function Apply(s: FormState, e: FormEvent, toNumber: string -> Option<real>): (r: FormState) {
    match e
    case ChooseProperty(id) => s.(propertyId := id)
    case ChooseTenant(id) => s.(tenantId := id)
    case TypeStartDate(v) => s.(startDate := v)
    case TypeRent(t) => s.(rentAmount := ParseNumber(t, toNumber))
    case ChooseFrequency(f) => s.(rentFrequency := f)
    case TypeBond(t) => s.(bondAmount := ParseNumber(t, toNumber))
    case Submit(o) => SubmitStep(s, o).next
  }

  function Run(s: FormState, events: seq<FormEvent>, toNumber: string -> Option<real>): (r: FormState)
    decreases |events|
  {
    if events == [] then s else Run(Apply(s, events[0], toNumber), events[1..], toNumber)
  }

  /** Whatever the user does, the form is never left busy between events. */
  lemma {:induction false} NeverLeftSubmitting(s: FormState, events: seq<FormEvent>, toNumber: string -> Option<real>)
    requires !s.isSubmitting
    ensures !Run(s, events, toNumber).isSubmitting
    decreases |events|
  {
    if events != [] {
      NeverLeftSubmitting(Apply(s, events[0], toNumber), events[1..], toNumber);
    }
  }

  /** The form component: its fields are the React state. */
  class Form {
    var propertyId: string
    var tenantId: string
    var startDate: string
    var rentAmount: Option<real>
    var rentFrequency: Frequency
    var bondAmount: Option<real>
    var error: Option<string>
    var isSubmitting: bool

    function State(): FormState
      reads this
    {
      FormState(propertyId, tenantId, startDate, rentAmount, rentFrequency, bondAmount, error, isSubmitting)
    }

    constructor ()
      ensures State() == Initial
    {
      propertyId, tenantId, startDate := "", "", "";
      rentAmount, rentFrequency, bondAmount := None, Weekly, None;
      error, isSubmitting := None, false;
    }

    method ChooseProperty(id: string)
      modifies this
      ensures State() == old(State()).(propertyId := id)
    {
      propertyId := id;
    }

    method ChooseTenant(id: string)
      modifies this
      ensures State() == old(State()).(tenantId := id)
    {
      tenantId := id;
    }

    method TypeStartDate(value: string)
      modifies this
      ensures State() == old(State()).(startDate := value)
    {
      startDate := value;
    }

    method TypeRent(text: string, toNumber: string -> Option<real>)
      modifies this
      ensures State() == old(State()).(rentAmount := ParseNumber(text, toNumber))
    {
      rentAmount := ParseNumber(text, toNumber);
    }

    method ChooseFrequency(frequency: Frequency)
      modifies this
      ensures State() == old(State()).(rentFrequency := frequency)
    {
      rentFrequency := frequency;
    }

    method TypeBond(text: string, toNumber: string -> Option<real>)
      modifies this
      ensures State() == old(State()).(bondAmount := ParseNumber(text, toNumber))
    {
      bondAmount := ParseNumber(text, toNumber);
    }

    /** `handleSubmit`: returns the payload `onCreate` was called with, if any. */
    method HandleSubmit(outcome: Outcome) returns (sent: Option<LeaseFormValues>)
      modifies this
      ensures Submission(State(), sent) == SubmitStep(old(State()), outcome)
    {
      error := None;
      if propertyId == "" || tenantId == "" || startDate == "" {
        error := Some(FieldsRequired);
        return None;
      }
      var rent := rentAmount.GetOr(0.0);
      var payload := LeaseFormValues(propertyId, tenantId, startDate, rent, rentFrequency, bondAmount);
      isSubmitting := true;
      sent := Some(payload);
      match outcome {
        case Resolved =>
          propertyId := "";
          tenantId := "";
          startDate := "";
          rentAmount := None;
          bondAmount := None;
          rentFrequency := Weekly;
        case Rejected =>
          error := Some(CreateFailed);
      }
      isSubmitting := false;
    }
  }
}
