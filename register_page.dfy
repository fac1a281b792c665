/**
 * The registration form's submit handler (src/pages/RegisterPage.tsx):
 * validate, then sign up with the loading flag raised, and report the
 * outcome with exactly one toast.
 */
module RegisterPage {
  import opened Options

  datatype Form = Form(name: string, email: string, password: string, confirmPassword: string)

  const MinPasswordLength := 6
  const MissingFields := "Please fill in all fields"
  const PasswordTooShort := "Password must be at least 6 characters"
  const PasswordMismatch := "Passwords do not match"
  const DefaultFailure := "Failed to create account"
  const UnknownFailure := "An unknown error occurred"
  const CreatedMessage := "Account created successfully!"
  const ConfirmMessage := "Please check your email to confirm your account"
  const AfterSignUpPath := "/swipe"

  /** How the sign-up call ended; the call itself belongs to the authentication service. */
  datatype SignUpOutcome =
    | RaisedError(message: string)   // an `Error` (returned in `error` or thrown)
    | RaisedOther                    // something thrown that is not an `Error`
    | Completed(hasUser: bool)       // no error; whether `data.user` is set

  datatype ToastKind = Success | Failure

  /** What the handler does, in order. */
  datatype Effect =
    | ShowToast(kind: ToastKind, message: string)
    | SetLoading(on: bool)
    | CallSignUp(email: string, password: string, name: string)
    | NavigateTo(path: string)

  /** The first failing check, in the order the form checks them. */
  function ValidationError(f: Form): (e: Option<string>)
    ensures e == Some(MissingFields) <==> f.name == "" || f.email == "" || f.password == "" || f.confirmPassword == ""
    ensures e == Some(PasswordTooShort) <==>
      f.name != "" && f.email != "" && f.password != "" && f.confirmPassword != "" && |f.password| < MinPasswordLength
    ensures e == Some(PasswordMismatch) <==>
      f.name != "" && f.email != "" && f.confirmPassword != "" && |f.password| >= MinPasswordLength && f.password != f.confirmPassword
    ensures e.None? <==>
      f.name != "" && f.email != "" && |f.password| >= MinPasswordLength && f.password == f.confirmPassword
  {
    if f.name == "" || f.email == "" || f.password == "" || f.confirmPassword == "" then Some(MissingFields)
    else if |f.password| < MinPasswordLength then Some(PasswordTooShort)
    else if f.password != f.confirmPassword then Some(PasswordMismatch)
    else None
  }

  /** The effects after the sign-up call has ended; `finally` always lowers the loading flag. */
  function OutcomeEffects(outcome: SignUpOutcome): (r: seq<Effect>)
    ensures |r| >= 2 && r[|r| - 1] == SetLoading(false)
    ensures r[0].ShowToast?
  {
    match outcome
    case Completed(true) => [ShowToast(Success, CreatedMessage), NavigateTo(AfterSignUpPath), SetLoading(false)]
    case Completed(false) => [ShowToast(Success, ConfirmMessage), SetLoading(false)]
    case RaisedError(m) => [ShowToast(Failure, if m != "" then m else DefaultFailure), SetLoading(false)]
    case RaisedOther => [ShowToast(Failure, UnknownFailure), SetLoading(false)]
  }

  /** Everything one submission does. */
  function SubmitEffects(f: Form, outcome: SignUpOutcome): seq<Effect>
  {
    match ValidationError(f)
    case Some(m) => [ShowToast(Failure, m)]
    case None => [SetLoading(true), CallSignUp(f.email, f.password, f.name)] + OutcomeEffects(outcome)
  }

  function ToastCount(effects: seq<Effect>): nat
  {
    if effects == [] then 0 else (if effects[0].ShowToast? then 1 else 0) + ToastCount(effects[1..])
  }

  /** The form's state; `effects` records what the handler has done so far. */
  class Page {
    var name: string
    var email: string
    var password: string
    var confirmPassword: string
    var isLoading: bool
    var effects: seq<Effect>

    constructor ()
      ensures name == "" && email == "" && password == "" && confirmPassword == ""
      ensures !isLoading && effects == []
    {
      name, email, password, confirmPassword := "", "", "", "";
      isLoading, effects := false, [];
    }

    function Current(): Form
      reads this
    {
      Form(name, email, password, confirmPassword)
    }

    /** `handleSubmit`; `outcome` is how the sign-up call ends when it is made. */
    method HandleSubmit(outcome: SignUpOutcome)
      modifies this
      ensures effects == old(effects) + SubmitEffects(old(Current()), outcome)
      ensures isLoading == (if ValidationError(old(Current())).Some? then old(isLoading) else false)
      ensures Current() == old(Current())
    {
      if name == "" || email == "" || password == "" || confirmPassword == "" {
        effects := effects + [ShowToast(Failure, MissingFields)];
        return;
      }
      if |password| < MinPasswordLength {
        effects := effects + [ShowToast(Failure, PasswordTooShort)];
        return;
      }
      if password != confirmPassword {
        effects := effects + [ShowToast(Failure, PasswordMismatch)];
        return;
      }
      isLoading := true;
      effects := effects + [SetLoading(true), CallSignUp(email, password, name)];
      match outcome {
        case Completed(hasUser) =>
          if hasUser {
            effects := effects + [ShowToast(Success, CreatedMessage), NavigateTo(AfterSignUpPath)];
          } else {
            effects := effects + [ShowToast(Success, ConfirmMessage)];
          }
        case RaisedError(m) =>
          effects := effects + [ShowToast(Failure, if m != "" then m else DefaultFailure)];
        case RaisedOther =>
          effects := effects + [ShowToast(Failure, UnknownFailure)];
      }
      isLoading := false;
      effects := effects + [SetLoading(false)];
    }
  }

  /** The account service is asked to create an account only for a form that passed every check, and then with its fields. */
  lemma {:induction false} SignUpOnlyWhenValid(f: Form, outcome: SignUpOutcome, e: string, p: string, n: string)
    ensures CallSignUp(e, p, n) in SubmitEffects(f, outcome) <==>
      ValidationError(f).None? && e == f.email && p == f.password && n == f.name
    ensures CallSignUp(e, p, n) in SubmitEffects(f, outcome) ==>
      |p| >= MinPasswordLength && p == f.confirmPassword && n != "" && e != ""
  {
    var r := SubmitEffects(f, outcome);
    if ValidationError(f).None? {
      var o := OutcomeEffects(outcome);
      assert r == [SetLoading(true), CallSignUp(f.email, f.password, f.name)] + o;
      assert CallSignUp(e, p, n) !in o by {
        match outcome
        case Completed(h) =>
        case RaisedError(m) =>
        case RaisedOther =>
      }
    }
  }

  /** The page moves on to swiping only when the service created a signed-in account. */
  lemma {:induction false} NavigatesOnlyForNewUser(f: Form, outcome: SignUpOutcome, path: string)
    ensures NavigateTo(path) in SubmitEffects(f, outcome) <==>
      ValidationError(f).None? && outcome == Completed(true) && path == AfterSignUpPath
  {
    var r := SubmitEffects(f, outcome);
    if ValidationError(f).None? {
      assert r == [SetLoading(true), CallSignUp(f.email, f.password, f.name)] + OutcomeEffects(outcome);
      assert NavigateTo(path) in r <==> NavigateTo(path) in OutcomeEffects(outcome);
    }
  }

  lemma {:induction false} ToastCountAppend(a: seq<Effect>, b: seq<Effect>)
    ensures ToastCount(a + b) == ToastCount(a) + ToastCount(b)
  {
    if a == [] {
      assert a + b == b;
    } else {
      assert (a + b)[1..] == a[1..] + b;
      ToastCountAppend(a[1..], b);
    }
  }

  /** Every submission shows exactly one toast, and a submission that reaches the service ends with loading off. */
  lemma {:induction false} OneToastPerSubmit(f: Form, outcome: SignUpOutcome)
    ensures ToastCount(SubmitEffects(f, outcome)) == 1
    ensures ValidationError(f).None? ==>
      SubmitEffects(f, outcome)[0] == SetLoading(true) && SubmitEffects(f, outcome)[|SubmitEffects(f, outcome)| - 1] == SetLoading(false)
  {
    var r := SubmitEffects(f, outcome);
    if ValidationError(f).Some? {
      assert ToastCount(r) == 1 + ToastCount(r[1..]);
    } else {
      var o := OutcomeEffects(outcome);
      var head := [SetLoading(true), CallSignUp(f.email, f.password, f.name)];
      ToastCountAppend(head, o);
      assert ToastCount(head) == ToastCount(head[1..]) == ToastCount(head[2..]) == 0;
      match outcome
      case Completed(true) =>
        assert ToastCount(o) == 1 + ToastCount(o[1..]) == 1 + ToastCount(o[2..]);
        assert ToastCount(o[2..]) == ToastCount(o[3..]) == 0;
      case Completed(false) =>
        assert ToastCount(o) == 1 + ToastCount(o[1..]);
        assert ToastCount(o[1..]) == ToastCount(o[2..]) == 0;
      case RaisedError(m) =>
        assert ToastCount(o) == 1 + ToastCount(o[1..]);
        assert ToastCount(o[1..]) == ToastCount(o[2..]) == 0;
      case RaisedOther =>
        assert ToastCount(o) == 1 + ToastCount(o[1..]);
        assert ToastCount(o[1..]) == ToastCount(o[2..]) == 0;
    }
  }

  /** A failed sign-up shows the service's message, or a fixed one when it gives none. */
  lemma {:induction false} FailureToastMessage(f: Form, m: string)
    requires ValidationError(f).None?
    ensures SubmitEffects(f, RaisedError(m))[2] == ShowToast(Failure, if m == "" then DefaultFailure else m)
    ensures SubmitEffects(f, RaisedOther)[2] == ShowToast(Failure, UnknownFailure)
  {
  }
}
