/**
 * The registration page: its own password check, the submit guard, the
 * mismatch hint, the disabled states of its buttons, and the send-code
 * countdown that an interval timer drives once per second.
 */
module RegisterPage {
  import opened Wrappers
  import opened Text
  import opened Types
  import opened Validators
  import AuthStore
  import Facade

  /** The page's input fields. */
  datatype Form = Form(
    email: string,
    password: string,
    confirmPassword: string,
    username: string,
    verificationCode: string)

  /** `validatePassword`, the page's own copy of the rules: the first failing rule's message, or none. */
  function ValidatePassword(password: string): (message: Option<string>)
    ensures message.None? <==> |password| >= 6 && HasLetter(password) && HasDigit(password)
    ensures message.Some? ==> message.value in {PasswordTooShort, PasswordNeedsLetter, PasswordNeedsDigit}
  {
    if |password| < 6 then Some(PasswordTooShort)
    else if !HasLetter(password) then Some(PasswordNeedsLetter)
    else if !HasDigit(password) then Some(PasswordNeedsDigit)
    else None
  }

  /** The page's check and the shared `isValidPassword` agree on every password, message included. */
  lemma PageCheckAgreesWithValidator(password: string)
    ensures ValidatePassword(password) == IsValidPassword(password).message
    ensures ValidatePassword(password).None? <==> |password| >= 6 && HasLetter(password) && HasDigit(password)
  {
  }

  /** `s || undefined`: an empty input is left out of the request. */
  function OptionalText(s: string): (r: Option<string>)
    ensures r.None? <==> s == ""
    ensures r.Some? ==> r.value == s
  {
    if s == "" then None else Some(s)
  }

  /** What `handleSubmit` does after clearing the store's error. */
  datatype SubmitDecision = StayOnPage | SubmitRegistration(request: RegisterRequest)

  function HandleSubmit(f: Form): (d: SubmitDecision)
    ensures d.SubmitRegistration? ==> f.password == f.confirmPassword && ValidatePassword(f.password).None?
    ensures d.SubmitRegistration? ==>
              d.request.email == f.email && d.request.password == f.password && d.request.phone.None?
  {
    if f.password != f.confirmPassword then StayOnPage
    else if ValidatePassword(f.password).Some? then StayOnPage
    else SubmitRegistration(RegisterRequest(f.email, f.password, None, OptionalText(f.username), OptionalText(f.verificationCode)))
  }

  /**
   * A registration is sent exactly when the two passwords match and the
   * password passes the rules; it carries the form's email and password, never
   * a phone number, and the optional fields only when they were filled in.
   */
  lemma SubmitOnlyValidMatching(f: Form)
    ensures HandleSubmit(f).SubmitRegistration? <==>
              f.password == f.confirmPassword && IsValidPassword(f.password).valid
    ensures HandleSubmit(f).SubmitRegistration? ==>
              var r := HandleSubmit(f).request;
              r.email == f.email && r.password == f.password && r.phone.None?
              && (r.username.Some? <==> f.username != "")
              && (r.verificationCode.Some? <==> f.verificationCode != "")
  {
    PageCheckAgreesWithValidator(f.password);
  }

  /** The mismatch hint under the confirmation field. */
  predicate MismatchShown(f: Form) {
    f.confirmPassword != "" && f.password != f.confirmPassword
  }

  /** The register button's `disabled`. */
  predicate RegisterDisabled(isLoading: bool, f: Form)
    ensures MismatchShown(f) ==> RegisterDisabled(isLoading, f)
    ensures isLoading ==> RegisterDisabled(isLoading, f)
  {
    isLoading || f.password != f.confirmPassword
  }

  /**
   * Whenever the hint is shown the button is disabled, and an enabled button
   * never submits mismatched passwords; a blank confirmation disables the
   * button without the hint.
   */
  lemma MismatchDisablesRegister(isLoading: bool, f: Form)
    ensures MismatchShown(f) ==> RegisterDisabled(isLoading, f)
    ensures !RegisterDisabled(isLoading, f) ==> f.password == f.confirmPassword
    ensures f.password != "" && f.confirmPassword == "" ==> RegisterDisabled(isLoading, f) && !MismatchShown(f)
  {
  }

  /** Typing "password123" then "different" shows the hint and disables the button. */
  lemma MismatchExample(email: string, username: string, code: string)
    ensures MismatchShown(Form(email, "password123", "different", username, code))
    ensures RegisterDisabled(false, Form(email, "password123", "different", username, code))
    ensures HandleSubmit(Form(email, "password123", "different", username, code)) == StayOnPage
  {
    assert "password123"[0] != "different"[0];
  }

  /**
   * `handleSubmit` against the store: the error is cleared, and a registration
   * is sent only as `HandleSubmit` decides; on success the page navigates to
   * '/', on failure it stays and the store holds the failure.
   */
  method Submit(store: AuthStore.AuthStore, f: Form, reply: Result<AuthResponse, AuthStore.Thrown>)
    returns (sent: Option<Facade.Operation>, navigated: bool)
    modifies store, store.storage
    ensures HandleSubmit(f).StayOnPage? ==>
              sent.None? && !navigated
              && store.State() == old(store.State()).(error := None)
              && store.storage.items == old(store.storage.items)
    ensures HandleSubmit(f).SubmitRegistration? ==>
              sent == Some(Facade.Register(HandleSubmit(f).request))
              && (navigated <==> reply.Ok?)
    ensures HandleSubmit(f).SubmitRegistration? && reply.Ok? ==>
              store.State() == AuthStore.SignedIn(AuthStore.Begun(old(store.State())), reply.value)
              && store.storage.items == AuthStore.SignedInItems(old(store.storage.items), reply.value)
    ensures HandleSubmit(f).SubmitRegistration? && reply.Err? ==>
              store.State() == AuthStore.Failed(AuthStore.Begun(old(store.State())),
                                                 AuthStore.FailureMessage(reply.error, AuthStore.RegisterFailedText))
              && store.storage.items == old(store.storage.items)
  {
    store.ClearError();
    match HandleSubmit(f)
    case StayOnPage =>
      sent := None;
      navigated := false;
    case SubmitRegistration(r) =>
      var op, rethrown := store.Register(r.email, r.password, r.phone, r.username, r.verificationCode, reply);
      sent := Some(op);
      navigated := rethrown.None?;
  }

  // ---------------------------------------------------------------------------
  // The send-code countdown

  const CountdownStart: int := 60

  /** The send-code button's `disabled`. */
  predicate SendCodeDisabled(countdown: int, email: string)
    ensures !SendCodeDisabled(countdown, email) ==> email != "" && SendCodeLabel(countdown) == "发送验证码"
  {
    countdown > 0 || email == ""
  }

  /** The send-code button's label. */
  function SendCodeLabel(countdown: int): (caption: string)
    ensures countdown <= 0 ==> caption == "发送验证码"
    ensures countdown > 0 ==> caption == NatToString(countdown) + "秒"
  {
    if countdown > 0 then NatToString(countdown) + "秒" else "发送验证码"
  }

  /** One run of the interval's updater: the next countdown, and whether it clears the interval. */
  datatype TickResult = TickResult(next: int, clearsTimer: bool)

  function NextCountdown(prev: int): TickResult {
    if prev <= 1 then TickResult(0, true) else TickResult(prev - 1, false)
  }

  /** The countdown after `k` ticks that did not clear the timer. */
  function After(start: int, k: nat): int {
    if k == 0 then start else NextCountdown(After(start, k - 1)).next
  }

  /** Each tick before the last lowers the countdown by one and keeps the timer. */
  lemma {:induction false} CountdownAfter(start: int, k: nat)
    requires k < start
    ensures After(start, k) == start - k
    ensures !NextCountdown(After(start, k)).clearsTimer <==> k < start - 1
  {
    if k > 0 {
      CountdownAfter(start, k - 1);
    }
  }

  /** From 60 the label counts down 60, 59, …, 1 and the timer clears on the 60th tick, leaving 0. */
  lemma CountdownClearsAfterSixty()
    ensures forall k: nat | k < CountdownStart :: After(CountdownStart, k) == CountdownStart - k
    ensures NextCountdown(After(CountdownStart, 59)).clearsTimer
    ensures After(CountdownStart, 60) == 0
  {
    forall k: nat | k < CountdownStart
      ensures After(CountdownStart, k) == CountdownStart - k
    {
      CountdownAfter(CountdownStart, k);
    }
  }

  /** The countdown state and whether its interval is still running. */
  class Countdown {
    var countdown: int
    var running: bool

    /** The interval runs exactly while the countdown is positive. */
    predicate Valid()
      reads this
    {
      countdown >= 0 && (running <==> countdown > 0)
    }

    constructor ()
      ensures Valid() && countdown == 0 && !running
    {
      countdown := 0;
      running := false;
    }

    /** `handleSendCode` through the enabled button: the countdown restarts at 60 with a new interval. */
    method ClickSendCode(email: string)
      requires Valid() && !SendCodeDisabled(countdown, email)
      modifies this
      ensures Valid() && countdown == CountdownStart && running
    {
      countdown := CountdownStart;
      running := true;
    }

    /** One firing of the interval. */
    method Tick()
      requires Valid() && running
      modifies this
      ensures Valid()
      ensures countdown == NextCountdown(old(countdown)).next
      ensures running == !NextCountdown(old(countdown)).clearsTimer
    {
      var t := NextCountdown(countdown);
      countdown := t.next;
      if t.clearsTimer {
        running := false;
      }
    }

    /** Letting the interval fire until it clears itself: one tick per remaining second. */
    method RunDown() returns (ticks: nat)
      requires Valid()
      modifies this
      ensures Valid() && countdown == 0 && !running
      ensures ticks == old(countdown)
    {
      ticks := 0;
      while running
        invariant Valid()
        invariant ticks + countdown == old(countdown)
        decreases countdown
      {
        Tick();
        ticks := ticks + 1;
      }
    }
  }
}
