/**
 * The login form. Submitting runs the synchronous checks at once; when they
 * pass, a credential check is scheduled and resolves in a later, separate step
 * (the one-second delay itself is not modelled). While a check is under way the
 * inputs and the submit button are disabled.
 */
module Login {
  import opened Wrappers

  /** The three ways a login attempt fails, in the order they are checked. */
  datatype AuthError = MissingCredentials | MalformedIdentity | InvalidCredentials

  /** The message the form shows for each error. */
  function Message(e: AuthError): (m: string)
    ensures m != ""
  {
    match e
    case MissingCredentials => "Please enter both email and password"
    case MalformedIdentity => "Please enter a valid email address"
    case InvalidCredentials => "Invalid email or password. Try admin@company.com / admin123"
  }

  /** Distinct errors show distinct messages. */
  lemma MessagesDistinct(a: AuthError, b: AuthError)
    requires a != b
    ensures Message(a) != Message(b)
  {
  }

  /** The values handed to `onLogin`. */
  datatype Credentials = Credentials(email: string, password: string)

  /** The one accepted pair. */
  const DemoEmail: string := "admin@company.com"
  const DemoPassword: string := "admin123"

  /** The checks made before the credential check: both fields present, then an '@' in the email. */
  function Validate(email: string, password: string): (r: Option<AuthError>)
    ensures r == Some(MissingCredentials) <==> email == "" || password == ""
    ensures r == Some(MalformedIdentity) <==> email != "" && password != "" && '@' !in email
    ensures r.None? <==> email != "" && password != "" && '@' in email
  {
    if email == "" || password == "" then Some(MissingCredentials)
    else if '@' !in email then Some(MalformedIdentity)
    else None
  }

  /** The whole attempt, as one function: the synchronous checks, then the credential check. */
  function Attempt(email: string, password: string): (r: Result<Credentials, AuthError>)
    ensures r.Ok? <==> email == DemoEmail && password == DemoPassword
    ensures r.Ok? ==> r.value == Credentials(email, password)
    ensures r == Err(InvalidCredentials) <==> Validate(email, password).None? && !(email == DemoEmail && password == DemoPassword)
    ensures Validate(email, password).Some? ==> r == Err(Validate(email, password).value)
  {
    match Validate(email, password)
    case Some(e) =>
      assert '@' == DemoEmail[5];
      Err(e)
    case None =>
      if email == DemoEmail && password == DemoPassword then Ok(Credentials(email, password))
      else Err(InvalidCredentials)
  }

  /** The form's state: the two inputs, the loading flag, the error line and the scheduled check. */
  datatype FormState = FormState(
    email: string,
    password: string,
    isLoading: bool,
    error: string,
    pending: Option<Credentials>)

  const InitialForm: FormState := FormState("", "", false, "", None)

  /** A check is scheduled only while loading, for the values in the inputs, and only after they passed validation. */
  ghost predicate Consistent(f: FormState)
  {
    f.pending.Some? ==>
      f.isLoading && f.pending.value == Credentials(f.email, f.password) && Validate(f.email, f.password).None?
  }

  /** Typing in the email input; a disabled input takes no input. */
  function AfterEditEmail(f: FormState, value: string): (g: FormState)
    ensures g == f.(email := g.email)
    ensures g.email == if f.isLoading then f.email else value
    ensures Consistent(f) ==> Consistent(g)
  {
    if f.isLoading then f else f.(email := value)
  }

  /** Typing in the password input; a disabled input takes no input. */
  function AfterEditPassword(f: FormState, value: string): (g: FormState)
    ensures g == f.(password := g.password)
    ensures g.password == if f.isLoading then f.password else value
    ensures Consistent(f) ==> Consistent(g)
  {
    if f.isLoading then f else f.(password := value)
  }

  /** `handleSubmit`, up to the point where the credential check is scheduled. */
  function AfterSubmit(f: FormState): (g: FormState)
    ensures Consistent(f) ==> Consistent(g)
    ensures g.email == f.email && g.password == f.password
    ensures f.isLoading ==> g == f
    ensures Consistent(f) && !f.isLoading && Validate(f.email, f.password).Some? ==>
      g.pending.None? && !g.isLoading && g.error == Message(Validate(f.email, f.password).value)
    ensures !f.isLoading && Validate(f.email, f.password).None? ==>
      g.pending == Some(Credentials(f.email, f.password)) && g.isLoading && g.error == ""
  {
    if f.isLoading then f
    else
      var g := f.(error := "", isLoading := true);
      match Validate(f.email, f.password)
      case Some(e) => g.(error := Message(e), isLoading := false)
      case None => g.(pending := Some(Credentials(f.email, f.password)))
  }

  /** The scheduled check fires: `onLogin` is called with the submitted pair when it is the accepted one. */
  function AfterResolve(f: FormState): (r: (FormState, Option<Credentials>))
    requires f.pending.Some?
    ensures r.0.pending.None?
    ensures r.0.email == f.email && r.0.password == f.password
    ensures r.1.Some? <==> f.pending.value == Credentials(DemoEmail, DemoPassword)
    ensures r.1.Some? ==> r.1.value == f.pending.value && r.0.isLoading == f.isLoading && r.0.error == f.error
    ensures r.1.None? ==> !r.0.isLoading && r.0.error == Message(InvalidCredentials)
  {
    var c := f.pending.value;
    var g := f.(pending := None);
    if c.email == DemoEmail && c.password == DemoPassword then (g, Some(c))
    else (g.(error := Message(InvalidCredentials), isLoading := false), None)
  }

  /**
   * The two-step form agrees with `Attempt`: a submit either fails at once with
   * the error `Attempt` reports, or schedules a check whose resolution calls
   * `onLogin` exactly when `Attempt` succeeds and otherwise shows its error.
   */
  lemma SubmitThenResolveIsAttempt(f: FormState)
    requires Consistent(f) && !f.isLoading
    ensures var g := AfterSubmit(f);
      match Attempt(f.email, f.password)
      case Err(e) =>
        if e == InvalidCredentials then
          g.pending.Some? && AfterResolve(g).1.None? && AfterResolve(g).0.error == Message(e)
          && !AfterResolve(g).0.isLoading
        else
          g.pending.None? && g.error == Message(e) && !g.isLoading
      case Ok(c) =>
        g.pending.Some? && AfterResolve(g).1 == Some(c) && AfterResolve(g).0.isLoading
  {
  }

  /** After a successful check the form stays loading, so it takes no further input or submit. */
  lemma StuckAfterSuccess(f: FormState, email: string, password: string)
    requires Consistent(f) && f.pending.Some? && AfterResolve(f).1.Some?
    ensures var h := AfterResolve(f).0;
      h.isLoading && AfterSubmit(h) == h && AfterEditEmail(h, email) == h && AfterEditPassword(h, password) == h
  {
  }

  /** The login form, whose handlers update its fields in place. */
  class LoginForm {
    var email: string
    var password: string
    var isLoading: bool
    var error: string
    var pending: Option<Credentials>

    function State(): FormState
      reads this
    {
      FormState(email, password, isLoading, error, pending)
    }

    ghost predicate Valid()
      reads this
    {
      Consistent(State())
    }

    constructor ()
      ensures Valid() && State() == InitialForm
    {
      email, password, isLoading, error, pending := "", "", false, "", None;
    }

    /** `onChange` of the email input. */
    method SetEmail(value: string)
      requires Valid()
      modifies this
      ensures Valid()
      ensures State() == AfterEditEmail(old(State()), value)
    {
      if !isLoading {
        email := value;
      }
    }

    /** `onChange` of the password input. */
    method SetPassword(value: string)
      requires Valid()
      modifies this
      ensures Valid()
      ensures State() == AfterEditPassword(old(State()), value)
    {
      if !isLoading {
        password := value;
      }
    }

    /** `handleSubmit`: clear the error, start loading, then check in order; schedule the credential check last. */
    method Submit()
      requires Valid()
      modifies this
      ensures Valid()
      ensures State() == AfterSubmit(old(State()))
    {
      if isLoading {
        return;
      }
      error := "";
      isLoading := true;
      if email == "" || password == "" {
        error := Message(MissingCredentials);
        isLoading := false;
        return;
      }
      if '@' !in email {
        error := Message(MalformedIdentity);
        isLoading := false;
        return;
      }
      pending := Some(Credentials(email, password));
    }

    /** The scheduled check fires; `login` is the `onLogin` call it makes, if any. */
    method Resolve() returns (login: Option<Credentials>)
      requires Valid() && pending.Some?
      modifies this
      ensures Valid()
      ensures (State(), login) == AfterResolve(old(State()))
    {
      var c := pending.value;
      pending := None;
      if c.email == DemoEmail && c.password == DemoPassword {
        login := Some(c);
      } else {
        error := Message(InvalidCredentials);
        isLoading := false;
        login := None;
      }
    }
  }
}
