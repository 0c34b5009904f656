/** The password-reset page: a three-step machine (email, one-time code,
    new password) advanced by the answers of the three calls. */
module ForgotPassword {
  import opened Common

  /** The step after one submit: each step's form is the only one shown, and
      a 200 answer moves steps 1 and 2 one step on; step 3's handler never
      changes the step. */
  function NextStep(step: int, ok: bool): (next: int)
    ensures next == step || next == step + 1
  {
    if ok && step < 3 then step + 1 else step
  }

  /** The step reached from `step` after a sequence of submits, each given
      by whether it was answered with 200. */
  function StepAfter(step: int, oks: seq<bool>): int
    decreases |oks|
  {
    if oks == [] then step else StepAfter(NextStep(step, oks[0]), oks[1..])
  }

  /** Number of submits answered with 200. */
  function Accepted(oks: seq<bool>): nat {
    if oks == [] then 0 else (if oks[0] then 1 else 0) + Accepted(oks[1..])
  }

  /** From any step 1..3 the step never decreases and never goes past 3:
      it is the start plus the number of 200 answers, capped at 3. */
  lemma {:induction false} StepCounts(step: int, oks: seq<bool>)
    requires 1 <= step <= 3
    ensures StepAfter(step, oks) == if step + Accepted(oks) < 3 then step + Accepted(oks) else 3
    decreases |oks|
  {
    if oks != [] {
      StepCounts(NextStep(step, oks[0]), oks[1..]);
    }
  }

  /** The fields the forms edit. */
  datatype ResetField = EmailField | OtpField | NewPasswordField | ConfirmPasswordField

  /** The arguments of the reset call. */
  datatype ResetRequest = ResetRequest(newPassword: string, tempToken: string)

  class ForgotPasswordPage {
    var step: int
    var email: string
    var otp: string
    var tempToken: string
    var newPassword: string
    var confirmPassword: string
    var loading: bool

    /** The step is 1, 2 or 3, the temporary token is empty until step 3,
        and no request is in flight between events. */
    ghost predicate Valid()
      reads this
    {
      1 <= step <= 3 && (step < 3 ==> tempToken == "") && !loading
    }

    constructor ()
      ensures Valid() && step == 1
      ensures email == "" && otp == "" && tempToken == "" && newPassword == "" && confirmPassword == ""
    {
      step, loading := 1, false;
      email, otp, tempToken, newPassword, confirmPassword := "", "", "", "", "";
    }

    /** The inputs' change handlers. */
    method ChangeField(field: ResetField, value: string)
      requires Valid()
      modifies this`email, this`otp, this`newPassword, this`confirmPassword
      ensures Valid()
      ensures email == (if field == EmailField then value else old(email))
      ensures otp == (if field == OtpField then value else old(otp))
      ensures newPassword == (if field == NewPasswordField then value else old(newPassword))
      ensures confirmPassword == (if field == ConfirmPasswordField then value else old(confirmPassword))
    {
      match field {
        case EmailField => email := value;
        case OtpField => otp := value;
        case NewPasswordField => newPassword := value;
        case ConfirmPasswordField => confirmPassword := value;
      }
    }

    /** `handleEmailSubmit`, shown only at step 1: sends the email; a 200
        answer moves to step 2, anything else (another status, a failed
        call) stays. */
    method HandleEmailSubmit(reply: Reply<()>) returns (sentEmail: string)
      requires Valid() && step == 1
      modifies this`step, this`loading
      ensures Valid() && sentEmail == email
      ensures step == NextStep(old(step), reply.Response? && reply.status == 200)
      ensures step == if reply.Response? && reply.status == 200 then 2 else 1
    {
      loading := true;
      sentEmail := email;
      if reply.Response? && reply.status == 200 {
        step := 2;
      }
      loading := false;
    }

    /** `handleOTPSubmit`, shown only at step 2: sends the email and code; a
        200 answer stores the temporary token it carries and moves to step 3,
        anything else changes nothing. */
    method HandleOTPSubmit(reply: Reply<string>) returns (sent: (string, string))
      requires Valid() && step == 2
      modifies this`step, this`tempToken, this`loading
      ensures Valid() && sent == (email, otp)
      ensures step == NextStep(old(step), reply.Response? && reply.status == 200)
      ensures reply.Response? && reply.status == 200 ==> step == 3 && tempToken == reply.data
      ensures !(reply.Response? && reply.status == 200) ==> step == 2 && tempToken == old(tempToken)
    {
      loading := true;
      sent := (email, otp);
      if reply.Response? && reply.status == 200 {
        tempToken := reply.data;
        step := 3;
      }
      loading := false;
    }

    /** `handlePasswordReset`, shown only at step 3: differing passwords make
        no call; otherwise the new password goes out with the stored
        temporary token, and only a 200 answer leads to the login page. The
        step stays 3. */
    method HandlePasswordReset(reply: Reply<()>) returns (call: Option<ResetRequest>, nav: Option<Route>)
      requires Valid() && step == 3
      modifies this`loading
      ensures Valid() && step == 3
      ensures call.Some? <==> newPassword == confirmPassword
      ensures call.Some? ==> call.value == ResetRequest(newPassword, tempToken)
      ensures nav.Some? <==> call.Some? && reply.Response? && reply.status == 200
      ensures nav.Some? ==> nav.value == Login
    {
      if newPassword != confirmPassword {
        return None, None;
      }
      loading := true;
      call := Some(ResetRequest(newPassword, tempToken));
      nav := None;
      if reply.Response? && reply.status == 200 {
        nav := Some(Login);
      }
      loading := false;
    }
  }
}
