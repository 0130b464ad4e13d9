/**
 * The sign-in / sign-up dialog: a form step and a one-time-code step, a resend
 * countdown, and the handlers that call into the session.
 */
module AuthModal {
  import opened Types
  import Text
  import Auth

  datatype Step = Form | Otp

  /** The code has six digits; the resend countdown starts at thirty seconds. */
  const OtpLength := 6
  const ResendSeconds := 30

  /** `value.replace(/[^0-9]/g, '')`: keep the decimal digits, in order. */
  function DigitsOnly(s: string): (r: string)
    ensures Text.AllDigits(r) && |r| <= |s|
    ensures Text.AllDigits(s) ==> r == s
    ensures |r| == |s| ==> Text.AllDigits(s)
    ensures |s| == 1 ==> r == (if Text.IsDigit(s[0]) then s else "")
    ensures forall c :: c in r ==> c in s
  {
    if s == [] then []
    else
      var rest := DigitsOnly(s[1..]);
      assert Text.AllDigits(s) ==> Text.AllDigits(s[1..]);
      assert forall i :: 1 <= i < |s| ==> s[i] == s[1..][i - 1];
      assert |s| == 1 ==> rest == [];
      (if Text.IsDigit(s[0]) then [s[0]] else []) + rest
  }

  /** The filter works piecewise: what it keeps of a string is what it keeps of each part. */
  lemma {:induction false} DigitsOnlyAppend(a: string, b: string)
    ensures DigitsOnly(a + b) == DigitsOnly(a) + DigitsOnly(b)
  {
    if a == [] {
      assert a + b == b;
    } else {
      assert (a + b)[1..] == a[1..] + b;
      DigitsOnlyAppend(a[1..], b);
    }
  }

  /** What the code field holds after an edit: `maxLength` caps the raw value at six
      characters, then the change handler drops every non-digit. */
  function OtpInput(raw: string): (r: string)
    ensures |r| <= OtpLength && Text.AllDigits(r)
    ensures |raw| <= OtpLength && Text.AllDigits(raw) ==> r == raw
    ensures |r| == OtpLength <==> |raw| >= OtpLength && Text.AllDigits(raw[..OtpLength])
  {
    var capped := if |raw| <= OtpLength then raw else raw[..OtpLength];
    assert |raw| >= OtpLength ==> capped == raw[..OtpLength];
    DigitsOnly(capped)
  }

  /** `err instanceof Error ? err.message : fallback`. */
  function Shown(t: Thrown, fallback: string): string
  {
    match t
    case Error(m) => m
    case NonError => fallback
  }

  class Modal {
    var isLogin: bool
    var step: Step
    var otp: string
    var timer: int
    var localError: Option<string>
    var isLoading: bool
    var email: string
    var password: string
    var confirmPassword: string
    var firstName: string
    var lastName: string

    /** The countdown stays within [0, 30] and the code field holds at most six digits. */
    ghost predicate Valid()
      reads this
    {
      0 <= timer <= ResendSeconds && |otp| <= OtpLength && Text.AllDigits(otp)
    }

    constructor ()
      ensures Valid()
      ensures isLogin && step == Form && otp == "" && timer == ResendSeconds
      ensures localError.None? && !isLoading
      ensures email == "" && password == "" && confirmPassword == "" && firstName == "" && lastName == ""
    {
      isLogin := true;
      step := Form;
      otp := "";
      timer := ResendSeconds;
      localError := None;
      isLoading := false;
      email, password, confirmPassword, firstName, lastName := "", "", "", "", "";
    }

    /** The effect that runs when the dialog opens: back to a blank sign-in form. */
    method Open()
      modifies this
      ensures Valid()
      ensures isLogin && step == Form && otp == "" && timer == ResendSeconds && localError.None?
      ensures email == "" && password == "" && confirmPassword == "" && firstName == "" && lastName == ""
      ensures isLoading == old(isLoading)
    {
      step := Form;
      isLogin := true;
      otp := "";
      localError := None;
      timer := ResendSeconds;
      email, password, confirmPassword, firstName, lastName := "", "", "", "", "";
    }

    /** One second of the countdown: it runs only on the code step and stops at zero. */
    method Tick()
      requires Valid()
      modifies this`timer
      ensures Valid()
      ensures old(step) == Otp && old(timer) > 0 ==> timer == old(timer) - 1
      ensures !(old(step) == Otp && old(timer) > 0) ==> timer == old(timer)
    {
      if step == Otp && timer > 0 {
        timer := timer - 1;
      }
    }

    /** The Sign In / Sign Up tabs and the switch link below the form. */
    method SetIsLogin(value: bool)
      modifies this`isLogin
      ensures isLogin == value
    {
      isLogin := value;
    }

    /** The change handler of the code field. */
    method ChangeOtp(raw: string)
      requires Valid()
      modifies this`otp
      ensures Valid() && otp == OtpInput(raw)
    {
      otp := OtpInput(raw);
    }

    /** The verify button is enabled exactly when six digits are in and nothing is pending. */
    function VerifyEnabled(): (r: bool)
      requires Valid()
      reads this
      ensures r <==> |otp| == OtpLength && !isLoading
      ensures r ==> Text.AllDigits(otp) && |otp| == OtpLength
    {
      !(isLoading || |otp| != OtpLength)
    }

    /**
     * Submit of the form step. Sign-in closes the dialog on success and keeps the step.
     * Sign-up first checks that both passwords agree (and calls nothing when they do not),
     * then registers and moves to the code step with a fresh countdown.
     */
    method HandleSubmit(auth: Auth.Session, loginReply: Outcome<Auth.AuthReply>,
                        registerReply: Outcome<Auth.RegisterReply>, encode: User -> string)
      returns (closed: bool)
      requires Valid()
      modifies this, auth
      ensures Valid() && !isLoading
      ensures otp == old(otp) && isLogin == old(isLogin)
      ensures email == old(email) && password == old(password) && confirmPassword == old(confirmPassword)
      ensures firstName == old(firstName) && lastName == old(lastName)
      ensures auth.loading == old(auth.loading)
      ensures old(isLogin) ==> step == old(step) && timer == old(timer)
      ensures old(isLogin) && loginReply.Resolved? && loginReply.ok ==>
        closed && localError.None? && auth.user == Some(loginReply.body.user) && auth.error.None? &&
        auth.storage == old(auth.storage)[Auth.TokenKey := loginReply.body.token]
                                         [Auth.UserKey := encode(loginReply.body.user)]
      ensures old(isLogin) && !(loginReply.Resolved? && loginReply.ok) ==>
        !closed && auth.user == old(auth.user) && auth.storage == old(auth.storage) &&
        auth.error == Auth.MessageOf(Auth.AuthFailure(loginReply, "Login failed")) &&
        localError == Some(Shown(Auth.AuthFailure(loginReply, "Login failed"), "Authentication failed"))
      ensures !old(isLogin) ==> !closed && auth.user == old(auth.user) && auth.storage == old(auth.storage)
      ensures !old(isLogin) && old(password) != old(confirmPassword) ==>
        localError == Some("Passwords do not match") && unchanged(auth) &&
        step == old(step) && timer == old(timer)
      ensures !old(isLogin) && old(password) == old(confirmPassword) && registerReply.Resolved? && registerReply.ok ==>
        step == Otp && timer == ResendSeconds && localError.None? && auth.error.None?
      ensures !old(isLogin) && old(password) == old(confirmPassword) && !(registerReply.Resolved? && registerReply.ok) ==>
        var failure := if registerReply.Threw? then registerReply.cause
                       else Error(Auth.RegisterFailureMessage(registerReply.body.errors));
        step == old(step) && timer == old(timer) && auth.error == Auth.MessageOf(failure) &&
        localError == Some(Shown(failure, "Authentication failed"))
    {
      localError := None;
      isLoading := true;
      closed := false;
      if isLogin {
        var thrown := auth.Login(Auth.Credentials(email, password), loginReply, encode);
        if thrown.None? {
          closed := true;
        } else {
          localError := Some(Shown(thrown.value, "Authentication failed"));
        }
      } else {
        if password != confirmPassword {
          localError := Some("Passwords do not match");
        } else {
          var form := Auth.RegisterForm(email, password, confirmPassword, firstName, lastName);
          var _, thrown, _ := auth.Register(form, registerReply);
          if thrown.None? {
            step := Otp;
            timer := ResendSeconds;
          } else {
            localError := Some(Shown(thrown.value, "Authentication failed"));
          }
        }
      }
      isLoading := false;
    }

    /** Submit of the code step: a verified code signs in and closes the dialog. */
    method HandleVerifyOtp(auth: Auth.Session, reply: Outcome<Auth.AuthReply>, encode: User -> string)
      returns (closed: bool)
      requires Valid()
      modifies this, auth
      ensures Valid() && !isLoading
      ensures step == old(step) && timer == old(timer) && otp == old(otp) && isLogin == old(isLogin)
      ensures email == old(email) && password == old(password) && confirmPassword == old(confirmPassword)
      ensures firstName == old(firstName) && lastName == old(lastName)
      ensures auth.loading == old(auth.loading)
      ensures closed <==> reply.Resolved? && reply.ok
      ensures closed ==>
        localError.None? && auth.user == Some(reply.body.user) && auth.error.None? &&
        auth.storage == old(auth.storage)[Auth.TokenKey := reply.body.token][Auth.UserKey := encode(reply.body.user)]
      ensures !closed ==>
        auth.user == old(auth.user) && auth.storage == old(auth.storage) &&
        auth.error == Auth.MessageOf(Auth.AuthFailure(reply, "Verification failed")) &&
        localError == Some(Shown(Auth.AuthFailure(reply, "Verification failed"), "Verification failed"))
    {
      localError := None;
      isLoading := true;
      var thrown := auth.VerifyOtp(email, otp, reply, encode);
      closed := thrown.None?;
      if thrown.Some? {
        localError := Some(Shown(thrown.value, "Verification failed"));
      }
      isLoading := false;
    }

    /** The resend link: ignored while the countdown runs; otherwise the countdown restarts
        at once and drops back to zero if the resend fails. */
    method HandleResendOtp(auth: Auth.Session, reply: Outcome<Auth.ErrorReply>)
      requires Valid()
      modifies this, auth
      ensures Valid()
      ensures step == old(step) && otp == old(otp) && isLoading == old(isLoading) && isLogin == old(isLogin)
      ensures email == old(email) && password == old(password) && confirmPassword == old(confirmPassword)
      ensures firstName == old(firstName) && lastName == old(lastName)
      ensures old(timer) > 0 ==> unchanged(this) && unchanged(auth)
      ensures auth.user == old(auth.user) && auth.storage == old(auth.storage) && auth.loading == old(auth.loading)
      ensures old(timer) == 0 && reply.Resolved? && reply.ok ==>
        timer == ResendSeconds && localError.None? && auth.error.None?
      ensures old(timer) == 0 && !(reply.Resolved? && reply.ok) ==>
        timer == 0 && auth.error == Auth.MessageOf(Auth.ResendFailure(reply)) &&
        localError == Some(Shown(Auth.ResendFailure(reply), "Failed to resend code"))
    {
      if timer > 0 {
        return;
      }
      localError := None;
      timer := ResendSeconds;
      var thrown := auth.ResendOtp(email, reply);
      if thrown.Some? {
        localError := Some(Shown(thrown.value, "Failed to resend code"));
        timer := 0;
      }
    }
  }

  /**
   * Typing into the code field of a dialog that is not loading: verify becomes enabled
   * exactly when the first six characters typed are all digits.
   */
  method TypeCodeThenVerify(raw: string) returns (enabled: bool)
    ensures enabled <==> |raw| >= OtpLength && Text.AllDigits(raw[..OtpLength])
    ensures |raw| == OtpLength && Text.AllDigits(raw) ==> enabled
  {
    var modal := new Modal();
    modal.ChangeOtp(raw);
    enabled := modal.VerifyEnabled();
  }
}
