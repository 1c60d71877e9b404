/**
 * Admin settings: the masked e-mail shown before sending a reset code, the
 * one-time-password dialog with its resend countdown, the password forms
 * and the credentials toggle. Mail delivery, the credential check and the
 * record update are abstract: their outcomes are parameters.
 */
module Admin {
  import opened Wrappers
  import opened Text

  // ------------------------------------------------------------ mask_email

  /** The position of the first occurrence of c in s. */
  function IndexOf(s: string, c: char): (r: Option<nat>)
    ensures r.None? <==> c !in s
    ensures r.Some? ==> r.value < |s| && s[r.value] == c && c !in s[..r.value]
  {
    if s == [] then None
    else if s[0] == c then Some(0)
    else
      match IndexOf(s[1..], c)
      case None => None
      case Some(i) =>
        assert s[..i + 1] == [s[0]] + s[1..][..i];
        Some(i + 1)
  }

  lemma IndexOfFirst(s: string, c: char, k: nat)
    requires k < |s| && s[k] == c && c !in s[..k]
    ensures IndexOf(s, c) == Some(k)
  {
    assert s[..k + 1][k] == c;
  }

  function Stars(n: nat): (r: string)
    ensures |r| == n && forall i :: 0 <= i < n ==> r[i] == '*'
  {
    Repeat('*', n)
  }

  /** A local part of at most 2 characters becomes all stars; a longer one keeps its first 2. */
  function MaskLocal(name: string): (r: string)
    ensures |r| == |name|
    ensures |name| <= 2 ==> forall i :: 0 <= i < |r| ==> r[i] == '*'
    ensures |name| > 2 ==> r[..2] == name[..2] && forall i :: 2 <= i < |r| ==> r[i] == '*'
  {
    if |name| <= 2 then Stars(|name|) else name[..2] + Stars(|name| - 2)
  }

  /** The address with its local part masked; one without '@' becomes "***@***". */
  function MaskEmail(email: string): (r: string)
    ensures '@' in r
    ensures '@' in email ==> |r| == |email|
  {
    match IndexOf(email, '@')
    case None => assert "***@***"[3] == '@'; "***@***"
    case Some(at) =>
      var m := MaskLocal(email[..at]);
      assert (m + "@" + email[at + 1..])[|m|] == '@';
      m + "@" + email[at + 1..]
  }

  lemma MaskWithoutAt(email: string)
    requires '@' !in email
    ensures MaskEmail(email) == "***@***"
  {
  }

  /**
   * Masking keeps the length, keeps the first '@' where it was, keeps
   * everything after it verbatim and masks only what comes before it.
   */
  lemma MaskShape(email: string)
    requires '@' in email
    ensures var at := IndexOf(email, '@').value; var r := MaskEmail(email);
      && |r| == |email|
      && r[..at] == MaskLocal(email[..at])
      && r[at] == '@' && '@' !in r[..at]
      && r[at + 1..] == email[at + 1..]
  {
    var at := IndexOf(email, '@').value;
    var local := email[..at];
    var r := MaskEmail(email);
    assert r == MaskLocal(local) + "@" + email[at + 1..];
    assert r[..at] == MaskLocal(local);
    MaskLocalNoAt(local);
  }

  /** Masking a local part without '@' introduces none. */
  lemma MaskLocalNoAt(name: string)
    requires '@' !in name
    ensures '@' !in MaskLocal(name)
  {
    var r := MaskLocal(name);
    forall i | 0 <= i < |r| ensures r[i] != '@' {
      if |name| > 2 && i < 2 {
        assert r[i] == name[..2][i] == name[i];
      }
    }
  }

  lemma MaskLocalIdempotent(name: string)
    ensures MaskLocal(MaskLocal(name)) == MaskLocal(name)
  {
  }

  /** Masking an already masked address changes nothing. */
  lemma MaskIdempotent(email: string)
    ensures MaskEmail(MaskEmail(email)) == MaskEmail(email)
  {
    var r := MaskEmail(email);
    if '@' in email {
      MaskShape(email);
      var at := IndexOf(email, '@').value;
      IndexOfFirst(r, '@', at);
      MaskLocalIdempotent(email[..at]);
      assert r == r[..at] + "@" + r[at + 1..];
    } else {
      MaskWithoutAt(email);
      PlaceholderMasked(r);
    }
  }

  /** The placeholder shown for an address without '@' masks to itself. */
  lemma PlaceholderMasked(r: string)
    requires r == "***@***"
    ensures MaskEmail(r) == r
  {
    IndexOfFirst(r, '@', 3);
    var stars := r[..3];
    assert stars == "***" && r[4..] == "***";
    assert MaskLocal(stars) == stars;
    assert MaskEmail(r) == stars + "@" + r[4..];
  }

  // ----------------------------------------------------------------- OTP

  const OtpMin := 100000
  const OtpMax := 999999

  /** Six decimal digits. */
  predicate IsOtpCode(s: string)
  {
    |s| == 6 && forall i :: 0 <= i < |s| ==> IsDigit(s[i])
  }

  /** Every number the code is drawn from is written with exactly six digits and reads back as itself. */
  lemma OtpCodeShape(n: nat)
    requires OtpMin <= n <= OtpMax
    ensures IsOtpCode(DecimalString(n)) && ParseDecimal(DecimalString(n)) == n
  {
    assert Pow10(5) == 100000 by {
      assert Pow10(1) == 10;
      assert Pow10(2) == 100;
      assert Pow10(3) == 1000;
      assert Pow10(4) == 10000;
    }
    assert Pow10(6) == 1000000;
    DecimalLength(n, 6);
    DecimalRoundTrip(n);
  }

  /** Six digits whose value lies in the range codes are drawn from. */
  predicate IsDrawnCode(s: string)
  {
    IsOtpCode(s) && OtpMin <= ParseDecimal(s) <= OtpMax
  }

  /** A code drawn uniformly from 100000..999999, as its decimal text; the draw itself is not modelled. */
  method GenerateOtp() returns (code: string)
    ensures IsDrawnCode(code)
    ensures code == DecimalString(ParseDecimal(code))
  {
    var n :| OtpMin <= n <= OtpMax;
    OtpCodeShape(n);
    code := DecimalString(n);
  }

  datatype SendButton = SendOtpButton | ConfirmButton | ResendOtpButton

  /** The label under the code field: hidden, "Resend in Ns", or the resend link. */
  datatype ResendLabel = Hidden | Countdown(seconds: int) | ResendLink

  class ForgotPasswordDialog {
    const email: string
    var otp: Option<string>
    var otpValid: bool
    var resendSeconds: int
    var countdownRunning: bool
    var otpTimerRunning: bool
    var resendLabel: ResendLabel
    var button: SendButton
    var otpInputVisible: bool
    var accepted: bool

    ghost predicate Valid()
      reads this
    {
      && (otp.Some? ==> IsOtpCode(otp.value))
      && (otpValid ==> otp.Some?)
      && (email == "" ==> otp.None?)
      && (button == ConfirmButton ==> otp.Some? && otpInputVisible)
      && (countdownRunning ==> resendSeconds >= 1)
    }

    constructor (adminEmail: string)
      ensures Valid() && email == adminEmail
      ensures otp.None? && !otpValid && resendSeconds == 60 && button == SendOtpButton
      ensures resendLabel == Hidden && !otpInputVisible && !countdownRunning && !otpTimerRunning && !accepted
    {
      email := adminEmail;
      otp := None;
      otpValid := false;
      resendSeconds := 60;
      countdownRunning := false;
      otpTimerRunning := false;
      resendLabel := Hidden;
      button := SendOtpButton;
      otpInputVisible := false;
      accepted := false;
    }

    /** The masked address the dialog shows. */
    function ShownEmail(): string
      reads this
    {
      MaskEmail(email)
    }

    /**
     * The state after a code is sent: a code drawn from 100000..999999 is
     * current and valid, and a delivered mail has shown the code field, turned
     * the button into "Confirm" and started both timers, the countdown
     * already showing 59 seconds.
     */
    ghost predicate CodeSent(mailSent: bool)
      reads this
    {
      && otp.Some? && IsDrawnCode(otp.value) && otpValid
      && (mailSent ==>
            button == ConfirmButton && otpInputVisible && resendSeconds == 59 && resendLabel == Countdown(59) &&
            countdownRunning && otpTimerRunning)
    }

    /** The countdown, its label, its timers and the code field are as they were. */
    ghost predicate CountdownKept(
      wasSeconds: int, wasLabel: ResendLabel, wasCountdown: bool, wasTimer: bool, wasInput: bool)
      reads this
    {
      resendSeconds == wasSeconds && resendLabel == wasLabel && countdownRunning == wasCountdown &&
      otpTimerRunning == wasTimer && otpInputVisible == wasInput
    }

    /**
     * Draws a fresh code and marks it valid before mailing it; only a
     * successful mail starts the countdown (whose first tick happens at
     * once) and turns the button into "Confirm".
     */
    method SendOtp(mailSent: bool)
      requires Valid()
      modifies this`otp, this`otpValid, this`otpInputVisible, this`button
      modifies this`resendSeconds, this`resendLabel, this`countdownRunning, this`otpTimerRunning
      ensures Valid()
      ensures email == "" ==> otp == old(otp) && otpValid == old(otpValid)
      ensures email != "" ==> CodeSent(mailSent)
      ensures !(email != "" && mailSent) ==>
        button == old(button) &&
        CountdownKept(old(resendSeconds), old(resendLabel), old(countdownRunning), old(otpTimerRunning), old(otpInputVisible))
    {
      if email == "" {
        return;
      }
      var code := GenerateOtp();
      otp := Some(code);
      otpValid := true;
      if !mailSent {
        return;
      }
      otpInputVisible := true;
      button := ConfirmButton;
      resendSeconds := 60;
      UpdateResendText();
      resendLabel := Countdown(resendSeconds);
      otpTimerRunning := true;
      countdownRunning := true;
    }

    /** One tick of the one-second countdown. */
    method UpdateResendText()
      requires Valid()
      modifies this`resendSeconds, this`resendLabel, this`countdownRunning
      ensures Valid()
      ensures old(resendSeconds) > 1 ==>
        resendSeconds == old(resendSeconds) - 1 && resendLabel == Countdown(resendSeconds) &&
        countdownRunning == old(countdownRunning)
      ensures old(resendSeconds) <= 1 ==>
        resendSeconds == old(resendSeconds) && resendLabel == ResendLink && !countdownRunning
    {
      if resendSeconds > 1 {
        resendSeconds := resendSeconds - 1;
        resendLabel := Countdown(resendSeconds);
      } else {
        resendLabel := ResendLink;
        countdownRunning := false;
      }
    }

    /** The one-minute timer: the resend link is offered; the countdown is left as it is. */
    method EnableResend()
      requires Valid()
      modifies this`resendLabel, this`otpTimerRunning
      ensures Valid() && resendLabel == ResendLink && !otpTimerRunning
    {
      resendLabel := ResendLink;
      otpTimerRunning := false;
    }

    /** The resend link: the button reads "Resend OTP" and a new code is sent. */
    method ResendOtp(mailSent: bool)
      requires Valid()
      modifies this`otp, this`otpValid, this`otpInputVisible, this`button
      modifies this`resendSeconds, this`resendLabel, this`countdownRunning, this`otpTimerRunning
      ensures Valid()
      ensures email == "" ==> otp == old(otp) && otpValid == old(otpValid)
      ensures email != "" ==> CodeSent(mailSent)
      ensures button == (if email != "" && mailSent then ConfirmButton else ResendOtpButton)
      ensures !(email != "" && mailSent) ==>
        CountdownKept(old(resendSeconds), old(resendLabel), old(countdownRunning), old(otpTimerRunning), old(otpInputVisible))
    {
      button := ResendOtpButton;
      SendOtp(mailSent);
    }

    /** The stripped input must equal the current code while it is valid; success uses the code up. */
    method ConfirmOtp(input: string) returns (ok: bool)
      requires Valid()
      modifies this`otpValid, this`accepted
      ensures Valid()
      ensures ok <==> old(otpValid) && otp == Some(Strip(input))
      ensures ok ==> !otpValid && accepted
      ensures !ok ==> otpValid == old(otpValid) && accepted == old(accepted)
    {
      ok := otp == Some(Strip(input)) && otpValid;
      if ok {
        otpValid := false;
        accepted := true;
      }
    }

    /** The main button sends while it reads "Send OTP" or "Resend OTP" and confirms otherwise. */
    method HandleSendOrConfirm(input: string, mailSent: bool) returns (confirmed: bool)
      requires Valid()
      modifies this`otp, this`otpValid, this`otpInputVisible, this`button, this`accepted
      modifies this`resendSeconds, this`resendLabel, this`countdownRunning, this`otpTimerRunning
      ensures Valid()
      ensures old(button) != ConfirmButton ==>
        && !confirmed && accepted == old(accepted)
        && (email == "" ==> otp == old(otp) && otpValid == old(otpValid))
        && (email != "" ==> CodeSent(mailSent))
        && (!(email != "" && mailSent) ==>
              button == old(button) &&
              CountdownKept(old(resendSeconds), old(resendLabel), old(countdownRunning), old(otpTimerRunning),
                            old(otpInputVisible)))
      ensures old(button) == ConfirmButton ==>
        && (confirmed <==> old(otpValid) && otp == Some(Strip(input)))
        && (!confirmed ==> otpValid == old(otpValid) && accepted == old(accepted))
        && otp == old(otp) && button == old(button)
        && CountdownKept(old(resendSeconds), old(resendLabel), old(countdownRunning), old(otpTimerRunning),
                         old(otpInputVisible))
      ensures confirmed ==> !otpValid && accepted
    {
      if button == SendOtpButton || button == ResendOtpButton {
        SendOtp(mailSent);
        confirmed := false;
      } else {
        confirmed := ConfirmOtp(input);
      }
    }
  }

  // -------------------------------------------------------- password forms

  /** None of the three fields is blank after stripping and the new password is confirmed. */
  predicate PasswordChangeAccepted(oldText: string, newText: string, confirmText: string)
  {
    !AllSpace(oldText) && !AllSpace(newText) && !AllSpace(confirmText) && Strip(newText) == Strip(confirmText)
  }

  class ChangePasswordDialog {
    var oldPassword: string
    var newPassword: string
    var accepted: bool

    constructor ()
      ensures oldPassword == "" && newPassword == "" && !accepted
    {
      oldPassword := "";
      newPassword := "";
      accepted := false;
    }

    method ChangePassword(oldText: string, newText: string, confirmText: string) returns (ok: bool)
      modifies this
      ensures ok <==> PasswordChangeAccepted(oldText, newText, confirmText)
      ensures ok ==> oldPassword == Strip(oldText) && newPassword == Strip(newText) && accepted
      ensures ok ==> oldPassword != "" && newPassword != ""
      ensures !ok ==> oldPassword == old(oldPassword) && newPassword == old(newPassword) && accepted == old(accepted)
    {
      var oldPass := Strip(oldText);
      var newPass := Strip(newText);
      var confirmPass := Strip(confirmText);
      StripBlank(oldText);
      StripBlank(newText);
      StripBlank(confirmText);
      if oldPass == "" || newPass == "" || confirmPass == "" {
        return false;
      }
      if newPass != confirmPass {
        return false;
      }
      oldPassword := oldPass;
      newPassword := newPass;
      accepted := true;
      return true;
    }
  }

  datatype AdminDetails = AdminDetails(
    shopName: string, address: string, phoneNumber: string, useCredentials: bool,
    username: string, password: string, location: string, gmail: string)

  /**
   * The two records agree on every field the settings window passes to the
   * record update; the mail address is not passed.
   */
  predicate SameFieldsPassed(stored: AdminDetails, shown: AdminDetails)
  {
    && stored.shopName == shown.shopName && stored.address == shown.address
    && stored.phoneNumber == shown.phoneNumber && stored.useCredentials == shown.useCredentials
    && stored.username == shown.username && stored.password == shown.password
    && stored.location == shown.location
  }

  /** The stored admin record. */
  class AdminStore {
    var details: AdminDetails

    constructor (d: AdminDetails)
      ensures details == d
    {
      details := d;
    }
  }

  class NewPasswordDialog {
    var newPassword: string
    var accepted: bool

    constructor ()
      ensures newPassword == "" && !accepted
    {
      newPassword := "";
      accepted := false;
    }

    /** Both fields filled and equal after stripping; the stored password changes only when the update succeeds. */
    method SetPassword(newText: string, confirmText: string, store: AdminStore, updateOk: bool) returns (ok: bool)
      modifies this, store
      ensures ok <==> !AllSpace(newText) && !AllSpace(confirmText) && Strip(newText) == Strip(confirmText) && updateOk
      ensures ok ==> newPassword == Strip(newText) && newPassword != "" && accepted &&
                     store.details == old(store.details).(password := Strip(newText))
      ensures !ok ==> newPassword == old(newPassword) && accepted == old(accepted) && store.details == old(store.details)
    {
      var newPass := Strip(newText);
      var confirmPass := Strip(confirmText);
      StripBlank(newText);
      StripBlank(confirmText);
      if newPass == "" || confirmPass == "" {
        return false;
      }
      if newPass != confirmPass {
        return false;
      }
      if !updateOk {
        return false;
      }
      store.details := store.details.(password := newPass);
      newPassword := newPass;
      accepted := true;
      return true;
    }
  }

  // ----------------------------------------------------- credentials toggle

  class CredentialsDialog {
    var username: string
    var password: string
    var accepted: bool

    /** An accepted dialog holds a non-blank, stripped username and password. */
    ghost predicate Valid()
      reads this
    {
      accepted ==> username != "" && password != "" && IsStripped(username) && IsStripped(password)
    }

    constructor ()
      ensures Valid() && !accepted && username == "" && password == ""
    {
      username := "";
      password := "";
      accepted := false;
    }

    method AcceptCredentials(userText: string, passText: string)
      requires Valid() && !accepted
      modifies this
      ensures Valid()
      ensures username == Strip(userText) && password == Strip(passText)
      ensures accepted <==> !AllSpace(userText) && !AllSpace(passText)
    {
      username := Strip(userText);
      password := Strip(passText);
      StripBlank(userText);
      StripBlank(passText);
      if username == "" || password == "" {
        return;
      }
      accepted := true;
    }
  }

  class AdminSettingsWindow {
    var adminDetails: AdminDetails
    const store: AdminStore

    constructor (s: AdminStore)
      ensures store == s && adminDetails == s.details
    {
      store := s;
      adminDetails := s.details;
    }

    /**
     * Flips the credentials requirement only when the dialog was accepted,
     * the entered credentials verify and the stored record is updated.
     */
    method ToggleCredentials(dialog: CredentialsDialog, verify: (string, string) -> bool, updateOk: bool)
      returns (flipped: bool)
      requires dialog.Valid()
      modifies this, store
      ensures flipped <==> dialog.accepted && verify(dialog.username, dialog.password) && updateOk
      ensures flipped ==>
        adminDetails == old(adminDetails).(useCredentials := !old(adminDetails).useCredentials) &&
        SameFieldsPassed(store.details, adminDetails)
      ensures !flipped ==> adminDetails == old(adminDetails) && store.details == old(store.details)
    {
      if !dialog.accepted || !verify(dialog.username, dialog.password) {
        return false;
      }
      var newState := !adminDetails.useCredentials;
      if !updateOk {
        return false;
      }
      adminDetails := adminDetails.(useCredentials := newState);
      store.details := store.details.(
        shopName := adminDetails.shopName, address := adminDetails.address,
        phoneNumber := adminDetails.phoneNumber, useCredentials := newState,
        username := adminDetails.username, password := adminDetails.password,
        location := adminDetails.location);
      return true;
    }
  }
}
