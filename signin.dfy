/**
 * The sign-in page: a one-time code sent by email, its two steps, the input
 * checks that run before the provider is asked, and where a verified user lands.
 */
module SignIn {
  import opened Wrappers
  import opened Text
  import AccessControl
  import AuthUtils

  const INVALID_EMAIL := "Please enter a valid email address"
  const SEND_FAILED := "Failed to send verification code"
  const BAD_CODE_LENGTH := "Please enter the 6-digit code"
  const INVALID_CODE := "Invalid code"
  const ROLE_SELECTION := "/auth/role-selection"
  const CODE_LENGTH := 6

  datatype Step = EmailStep | OtpStep

  /** The provider's answer to a code request: sent, or an error with its message (possibly empty). */
  datatype OtpSend = Sent | SendFailed(message: string)

  /** The provider's answer to a code: verified, with or without a session and with the metadata role; or an error. */
  datatype OtpVerify = Verified(hasSession: bool, role: Option<string>) | VerifyFailed(message: string)

  /** The page's fields. */
  datatype SignInState = SignInState(email: string, otp: string, step: Step, loading: bool, error: string)

  /** `email && email.includes("@")`. */
  predicate ValidEmail(email: string) {
    email != "" && '@' in email
  }

  /** `err.message || fallback`. */
  function ErrorText(message: string, fallback: string): (text: string)
    requires fallback != ""
    ensures text != ""
    ensures message != "" ==> text == message
  {
    if message != "" then message else fallback
  }

  /** Where a verified user with a session lands: role selection without a role, hosts to their dashboard, others home. */
  function PostLoginRedirect(role: Option<string>): (path: string)
    ensures !Truthy(role) <==> path == ROLE_SELECTION
    ensures path == AccessControl.HOST_DASHBOARD <==> role == Some(AccessControl.HOST)
    ensures Truthy(role) && role != Some(AccessControl.HOST) <==> path == AuthUtils.HOME
  {
    if !Truthy(role) then ROLE_SELECTION
    else if role.value == AccessControl.HOST then AccessControl.HOST_DASHBOARD
    else AuthUtils.HOME
  }

  /** For a user who has a role, the page lands where the shared landing rule says. */
  lemma PostLoginAgreesWithLandingRule(role: Option<string>)
    requires Truthy(role)
    ensures PostLoginRedirect(role) ==
      AuthUtils.GetRedirectUrl(Some(AccessControl.SessionLike(Some(AccessControl.SessionUser(role)))))
  {
  }

  /**
   * `handleSendOtp`: an invalid address is rejected before the provider is
   * asked; only a successful send moves on to the code step.
   */
  function SendOtp(s: SignInState, outcome: OtpSend): (r: SignInState)
    ensures !r.loading && r.email == s.email && r.otp == s.otp
    ensures r.step == OtpStep <==> s.step == OtpStep || (ValidEmail(s.email) && outcome.Sent?)
    ensures !ValidEmail(s.email) ==> r.error == INVALID_EMAIL && r.step == s.step
    ensures r.error == "" <==> ValidEmail(s.email) && outcome.Sent?
    ensures ValidEmail(s.email) && outcome.SendFailed? ==> r.error == ErrorText(outcome.message, SEND_FAILED)
  {
    if !ValidEmail(s.email) then s.(loading := false, error := INVALID_EMAIL)
    else match outcome
      case Sent => s.(step := OtpStep, loading := false, error := "")
      case SendFailed(message) => s.(loading := false, error := ErrorText(message, SEND_FAILED))
  }

  /**
   * `handleVerifyOtp`: a code that is not six characters long is rejected
   * before the provider is asked; a verified code with a session navigates by
   * role; an error shows its message. The step never changes.
   */
  function VerifyOtp(s: SignInState, outcome: OtpVerify): (r: (SignInState, Option<string>))
    ensures !r.0.loading && r.0.email == s.email && r.0.otp == s.otp && r.0.step == s.step
    ensures |s.otp| != CODE_LENGTH ==> r.0.error == BAD_CODE_LENGTH && r.1.None?
    ensures r.1.Some? <==> |s.otp| == CODE_LENGTH && outcome.Verified? && outcome.hasSession
    ensures r.1.Some? ==> r.1.value == PostLoginRedirect(outcome.role)
    ensures r.0.error == "" <==> |s.otp| == CODE_LENGTH && outcome.Verified?
  {
    if |s.otp| != CODE_LENGTH then (s.(loading := false, error := BAD_CODE_LENGTH), None)
    else match outcome
      case Verified(hasSession, role) =>
        (s.(loading := false, error := ""), if hasSession then Some(PostLoginRedirect(role)) else None)
      case VerifyFailed(message) => (s.(loading := false, error := ErrorText(message, INVALID_CODE)), None)
  }

  /** The sign-in page's state. */
  class SignInPage {
    var email: string
    var otp: string
    var step: Step
    var loading: bool
    var error: string

    function State(): SignInState
      reads this
    {
      SignInState(email, otp, step, loading, error)
    }

    constructor()
      ensures State() == SignInState("", "", EmailStep, false, "")
    {
      email := "";
      otp := "";
      step := EmailStep;
      loading := false;
      error := "";
    }

    method SetEmail(value: string)
      modifies this`email
      ensures email == value
    {
      email := value;
    }

    method SetOtp(value: string)
      modifies this`otp
      ensures otp == value
    {
      otp := value;
    }

    /** "Change email": back to the address step. */
    method ChangeEmail()
      modifies this`step
      ensures step == EmailStep
    {
      step := EmailStep;
    }

    /** Request a code; returns the address the provider was asked to send to, if it was asked. */
    method HandleSendOtp(outcome: OtpSend) returns (requested: Option<string>)
      modifies this
      ensures State() == SendOtp(old(State()), outcome)
      ensures requested.Some? <==> ValidEmail(email)
      ensures requested.Some? ==> requested.value == email
    {
      loading := true;
      error := "";
      requested := None;
      if !ValidEmail(email) {
        error := INVALID_EMAIL;
        loading := false;
        return;
      }
      requested := Some(email);
      if outcome.Sent? {
        step := OtpStep;
      } else {
        error := ErrorText(outcome.message, SEND_FAILED);
      }
      loading := false;
    }

    /** Submit the code; returns whether the provider was asked and where the page navigates. */
    method HandleVerifyOtp(outcome: OtpVerify) returns (asked: bool, nav: Option<string>)
      modifies this
      ensures (State(), nav) == VerifyOtp(old(State()), outcome)
      ensures asked <==> |otp| == CODE_LENGTH
    {
      loading := true;
      error := "";
      nav := None;
      asked := false;
      if |otp| != CODE_LENGTH {
        error := BAD_CODE_LENGTH;
        loading := false;
        return;
      }
      asked := true;
      match outcome {
        case Verified(hasSession, role) =>
          if hasSession {
            nav := Some(PostLoginRedirect(role));
          }
        case VerifyFailed(message) =>
          error := ErrorText(message, INVALID_CODE);
      }
      loading := false;
    }
  }
}
