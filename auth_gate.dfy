/** The authentication gate: it checks the session once on mount, then offers
    sign-in and sign-up with email and password until a user is signed in,
    and from then on shows the page. The auth service's answers are
    parameters. */
module AuthGate {
  import opened Wrappers
  import opened Text

  datatype AuthStatus = Checking | SignedOut | SignedIn

  datatype Mode = SignIn | SignUp

  /** A user record from the auth service; its email may be missing. */
  datatype User = User(email: Option<string>)

  /** The data of a sign-in or sign-up answer: the user, if one came back. */
  datatype AuthData = AuthData(user: Option<User>)

  /** What is sent to the auth service. */
  datatype Credentials = Credentials(email: string, password: string)

  const CredentialsRequired := "Email and password are required."
  const ConfirmEmail := "Check your email to confirm your account."

  /** The gate's state: status, the two inputs, the message line, the busy
      flag and the signed-in user's email. */
  datatype GateState = GateState(
    status: AuthStatus,
    email: string,
    password: string,
    authError: Option<string>,
    isSubmitting: bool,
    userEmail: Option<string>)

  /** The state the gate mounts with. */
  const Initial := GateState(Checking, "", "", None, false, None)

  /** `data.user?.email ?? null` */
  function CapturedEmail(user: Option<User>): (r: Option<string>)
    ensures user.None? ==> r.None?
    ensures user.Some? ==> r == user.value.email
    // an email is captured only from a user that has one
    ensures r.Some? ==> user.Some? && user.value.email.Some?
  {
    if user.Some? then user.value.email else None
  }

  /** `checkUser`, run once on mount, with the session query's answer (the
      current user, if there is one) as a parameter. */
  function CheckUserStep(s: GateState, reply: Remote<Option<User>>): (r: GateState)
    ensures r.status == SignedIn <==> reply.Ok? && reply.data.Some?
    ensures r.status != Checking
    ensures r.status == SignedIn ==> r.userEmail == reply.data.value.email
    ensures r.status == SignedOut ==> r.userEmail == s.userEmail
    // nothing but the status and the captured email changes
    ensures r.(status := s.status, userEmail := s.userEmail) == s
  {
    match reply
    case Err(_) => s.(status := SignedOut)
    case Ok(None) => s.(status := SignedOut)
    case Ok(Some(user)) => s.(userEmail := user.email, status := SignedIn)
  }

  /** An attempt: the state afterwards and the credentials sent to the auth
      service, if a call was made. */
  datatype Attempt = Attempt(next: GateState, sent: Option<Credentials>)

  /** `handleAuth` in `mode`, with the service's answer as a parameter (it is
      only looked at when the call is made). */
  function AuthStep(s: GateState, mode: Mode, reply: Remote<AuthData>): (r: Attempt)
    // a blank email or password is refused before any call
    ensures r.sent.None? <==> Trim(s.email) == [] || Trim(s.password) == []
    ensures r.sent.None? ==> r.next == s.(authError := Some(CredentialsRequired))
    // the service receives the trimmed email and password
    ensures r.sent.Some? ==>
              r.sent.value == Credentials(Trim(s.email), Trim(s.password)) &&
              r.sent.value.email != [] && r.sent.value.password != []
    // once a call was made the busy flag is down again and the inputs are kept
    ensures r.sent.Some? ==>
              !r.next.isSubmitting && r.next.email == s.email && r.next.password == s.password
    // a rejection shows the service's own message and changes nothing else
    ensures r.sent.Some? && reply.Err? ==>
              r.next == s.(authError := Some(reply.msg), isSubmitting := false)
    // a sign-in, or a sign-up that returns a user, signs in and captures the email
    ensures r.sent.Some? && reply.Ok? && (mode == SignIn || reply.data.user.Some?) ==>
              r.next == s.(status := SignedIn, userEmail := CapturedEmail(reply.data.user),
                           authError := None, isSubmitting := false)
    // a sign-up awaiting email confirmation keeps the status and says so
    ensures r.sent.Some? && reply.Ok? && mode == SignUp && reply.data.user.None? ==>
              r.next == s.(authError := Some(ConfirmEmail), isSubmitting := false)
    // the status only ever stays or becomes signedIn
    ensures r.next.status == s.status || r.next.status == SignedIn
  {
    var cleared := s.(authError := None);
    if Trim(s.email) == [] || Trim(s.password) == [] then
      Attempt(cleared.(authError := Some(CredentialsRequired)), None)
    else
      var credentials := Credentials(Trim(s.email), Trim(s.password));
      var busy := cleared.(isSubmitting := true);
      var settled :=
        match reply
        case Err(msg) => busy.(authError := Some(msg))
        case Ok(data) =>
          if mode == SignIn || data.user.Some? then
            busy.(userEmail := CapturedEmail(data.user), status := SignedIn)
          else
            busy.(authError := Some(ConfirmEmail));
      Attempt(settled.(isSubmitting := false), Some(credentials))
  }

  /** What the user can do on the sign-in form. */
  datatype GateEvent =
    | TypeEmail(value: string)
    | TypePassword(value: string)
    | Submit(mode: Mode, reply: Remote<AuthData>)

  function Apply(s: GateState, e: GateEvent): (r: GateState) {
    match e
    case TypeEmail(v) => s.(email := v)
    case TypePassword(v) => s.(password := v)
    case Submit(mode, reply) => AuthStep(s, mode, reply).next
  }

  function Run(s: GateState, events: seq<GateEvent>): (r: GateState)
    decreases |events|
  {
    if events == [] then s else Run(Apply(s, events[0]), events[1..])
  }

  /** signedIn is never left: no sequence of events leads out of it. */
  lemma {:induction false} SignedInIsFinal(s: GateState, events: seq<GateEvent>)
    requires s.status == SignedIn
    ensures Run(s, events).status == SignedIn
    decreases |events|
  {
    if events != [] {
      SignedInIsFinal(Apply(s, events[0]), events[1..]);
    }
  }

  /** After the session check the gate never shows "checking" again, and it
      is never left busy between events. */
  lemma {:induction false} SettledStaysSettled(s: GateState, events: seq<GateEvent>)
    requires s.status != Checking && !s.isSubmitting
    ensures Run(s, events).status != Checking && !Run(s, events).isSubmitting
    decreases |events|
  {
    if events != [] {
      SettledStaysSettled(Apply(s, events[0]), events[1..]);
    }
  }

  /** Once the session check has run from the mount state, every later run
      of events ends signed out or signed in and not busy. */
  lemma MountThenRun(session: Remote<Option<User>>, events: seq<GateEvent>)
    ensures var after := Run(CheckUserStep(Initial, session), events);
            (after.status == SignedOut || after.status == SignedIn) && !after.isSubmitting
  {
    SettledStaysSettled(CheckUserStep(Initial, session), events);
  }

  /** The gate component: its fields are the React state. */
  class Gate {
    var status: AuthStatus
    var email: string
    var password: string
    var authError: Option<string>
    var isSubmitting: bool
    var userEmail: Option<string>

    function State(): GateState
      reads this
    {
      GateState(status, email, password, authError, isSubmitting, userEmail)
    }

    constructor ()
      ensures State() == Initial
    {
      status, email, password := Checking, "", "";
      authError, isSubmitting, userEmail := None, false, None;
    }

    method TypeEmail(value: string)
      modifies this
      ensures State() == old(State()).(email := value)
    {
      email := value;
    }

    method TypePassword(value: string)
      modifies this
      ensures State() == old(State()).(password := value)
    {
      password := value;
    }

    /** `checkUser`: the mount effect runs it once, while the gate is still
      checking. */
    method CheckUser(reply: Remote<Option<User>>)
      requires status == Checking
      modifies this
      ensures State() == CheckUserStep(old(State()), reply)
    {
      if reply.Err? || reply.data.None? {
        status := SignedOut;
        return;
      }
      userEmail := reply.data.value.email;
      status := SignedIn;
    }

    /** `handleAuth`: returns the credentials sent to the service, if any. */
    method HandleAuth(mode: Mode, reply: Remote<AuthData>) returns (sent: Option<Credentials>)
      modifies this
      ensures Attempt(State(), sent) == AuthStep(old(State()), mode, reply)
    {
      authError := None;
      if Trim(email) == [] || Trim(password) == [] {
        authError := Some(CredentialsRequired);
        return None;
      }
      isSubmitting := true;
      sent := Some(Credentials(Trim(email), Trim(password)));
      match reply {
        case Err(msg) =>
          authError := Some(msg);
        case Ok(data) =>
          if mode == SignIn {
            userEmail := CapturedEmail(data.user);
            status := SignedIn;
          } else if data.user.Some? {
            userEmail := data.user.value.email;
            status := SignedIn;
          } else {
            authError := Some(ConfirmEmail);
          }
      }
      isSubmitting := false;
    }
  }
}
