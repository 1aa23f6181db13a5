/**
 * The three-step password recovery form: the e-mail address, then the
 * one-time code, then the new password twice. A step advances only when
 * its request succeeds, and never goes back.
 */
module ForgotPassword {
  import opened Wrappers
  import opened Js

  const SEND_FAILED := "Failed to send OTP. Please try again."
  const OTP_FAILED := "Invalid OTP. Please try again."
  const MISMATCH := "Passwords do not match."
  const RESET_FAILED := "Failed to reset password. Please try again."
  const LOGIN_PATH := "/login"

  /** The body of the final request. */
  datatype ResetRequest = ResetRequest(email: string, otp: string, newPassword: string)

  class ForgotPasswordForm {
    var email: string
    var otp: string
    var newPassword: string
    var confirmPassword: string
    var step: int
    var error: string
    var loading: bool

    /** The step is always one of the three. */
    predicate Valid()
      reads this
    {
      1 <= step <= 3
    }

    constructor()
      ensures Valid() && step == 1
      ensures email == "" && otp == "" && newPassword == "" && confirmPassword == ""
      ensures error == "" && !loading
    {
      email := "";
      otp := "";
      newPassword := "";
      confirmPassword := "";
      step := 1;
      error := "";
      loading := false;
    }

    /** Typing into the fields; the step is not touched. */
    method Edit(e: string, code: string, pw: string, confirm: string)
      modifies this
      ensures email == e && otp == code && newPassword == pw && confirmPassword == confirm
      ensures step == old(step) && error == old(error) && loading == old(loading)
    {
      email, otp, newPassword, confirmPassword := e, code, pw, confirm;
    }

    /** `handleEmailSubmit`, whose form is shown only at step 1; `reply` answers the code request. */
    method HandleEmailSubmit(reply: Reply<()>)
      requires Valid() && step == 1
      modifies this
      ensures Valid() && old(step) <= step && !loading
      ensures reply.Success? ==> step == 2 && error == ""
      ensures reply.Failed? ==> step == 1 && error == ErrorText(reply, SEND_FAILED)
      ensures email == old(email) && otp == old(otp) && newPassword == old(newPassword)
    {
      loading := true;
      error := "";
      if reply.Success? {
        step := 2;
      } else {
        error := ErrorText(reply, SEND_FAILED);
      }
      loading := false;
    }

    /** `handleOtpSubmit`, shown only at step 2; `reply` answers the verification request. */
    method HandleOtpSubmit(reply: Reply<()>)
      requires Valid() && step == 2
      modifies this
      ensures Valid() && old(step) <= step && !loading
      ensures reply.Success? ==> step == 3 && error == ""
      ensures reply.Failed? ==> step == 2 && error == ErrorText(reply, OTP_FAILED)
      ensures email == old(email) && otp == old(otp) && newPassword == old(newPassword)
    {
      loading := true;
      error := "";
      if reply.Success? {
        step := 3;
      } else {
        error := ErrorText(reply, OTP_FAILED);
      }
      loading := false;
    }

    /**
     * `handlePasswordSubmit`, shown only at step 3. `sent` is the request
     * made, if any; `reply` answers it.
     */
    method HandlePasswordSubmit(reply: Reply<()>) returns (sent: Option<ResetRequest>, nav: Option<string>)
      requires Valid() && step == 3
      modifies this
      ensures Valid() && step == 3 && !loading
      ensures newPassword != confirmPassword ==> sent.None? && nav.None? && error == MISMATCH
      ensures newPassword == confirmPassword ==> sent == Some(ResetRequest(email, otp, newPassword))
      ensures newPassword == confirmPassword && reply.Success? ==> nav == Some(LOGIN_PATH) && error == ""
      ensures newPassword == confirmPassword && reply.Failed? ==>
        nav.None? && error == ErrorText(reply, RESET_FAILED)
      ensures email == old(email) && otp == old(otp) && newPassword == old(newPassword)
      ensures confirmPassword == old(confirmPassword)
    {
      loading := true;
      error := "";
      sent := None;
      nav := None;
      if newPassword != confirmPassword {
        error := MISMATCH;
        loading := false;
        return;
      }
      sent := Some(ResetRequest(email, otp, newPassword));
      if reply.Success? {
        nav := Some(LOGIN_PATH);
      } else {
        error := ErrorText(reply, RESET_FAILED);
      }
      loading := false;
    }
  }
}
