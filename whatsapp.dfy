/**
 * WhatsApp bill sharing: the phone-number normaliser and the dialog state
 * around sending (the send and cancel buttons are disabled while the sender
 * runs, so a bill cannot be submitted twice). Capturing the bill image and the
 * browser automation are abstract: their outcomes are parameters.
 */
module WhatsApp {
  import opened Wrappers
  import opened Text

  /** The characters the cleaning step keeps: digits and '+'. */
  predicate IsPhoneChar(c: char)
  {
    IsDigit(c) || c == '+'
  }

  predicate AllPhoneChars(s: string)
  {
    forall i :: 0 <= i < |s| ==> IsPhoneChar(s[i])
  }

  /** Removes every character except digits and '+', keeping the order. */
  function Clean(s: string): (r: string)
    ensures AllPhoneChars(r) && |r| <= |s|
  {
    if s == [] then [] else (if IsPhoneChar(s[0]) then [s[0]] else []) + Clean(s[1..])
  }

  /** Cleaning distributes over concatenation. */
  lemma {:induction false} CleanAppend(a: string, b: string)
    ensures Clean(a + b) == Clean(a) + Clean(b)
  {
    if a != [] {
      assert (a + b)[1..] == a[1..] + b;
      CleanAppend(a[1..], b);
    } else {
      assert a + b == b;
    }
  }

  /** Cleaning leaves a string of digits and '+' as it is. */
  lemma {:induction false} CleanKeeps(s: string)
    requires AllPhoneChars(s)
    ensures Clean(s) == s
  {
    if s != [] {
      CleanKeeps(s[1..]);
    }
  }

  /** Cleaning removes any character that is neither a digit nor '+'. */
  lemma CleanDrops(c: char)
    requires !IsPhoneChar(c)
    ensures Clean([c]) == []
  {
  }

  lemma CleanIdempotent(s: string)
    ensures Clean(Clean(s)) == Clean(s)
  {
    CleanKeeps(Clean(s));
  }

  /**
   * The normaliser: a cleaned number starting with '+' and at least 10
   * characters long is kept; without '+', one starting with "91" and at
   * least 12 characters long gets '+', and one of exactly 10 characters
   * gets "+91". Everything else is rejected.
   */
  function ValidatePhoneNumber(phone: string): (r: Option<string>)
    ensures r.Some? ==> |r.value| >= 10 && r.value[0] == '+' && AllPhoneChars(r.value)
  {
    var cleaned := Clean(phone);
    if StartsWith(cleaned, "+") && |cleaned| >= 10 then Some(cleaned)
    else if !StartsWith(cleaned, "+") && StartsWith(cleaned, "91") && |cleaned| >= 12 then Some("+" + cleaned)
    else if !StartsWith(cleaned, "+") && |cleaned| == 10 then Some("+91" + cleaned)
    else None
  }

  /** The four cases of the normaliser, stated on the cleaned text. */
  lemma ValidateCases(phone: string)
    ensures var c := Clean(phone);
      && (StartsWith(c, "+") && |c| >= 10 ==> ValidatePhoneNumber(phone) == Some(c))
      && (!StartsWith(c, "+") && StartsWith(c, "91") && |c| >= 12 ==> ValidatePhoneNumber(phone) == Some("+" + c))
      && (!StartsWith(c, "+") && |c| == 10 ==> ValidatePhoneNumber(phone) == Some("+91" + c))
      && (ValidatePhoneNumber(phone).None? <==>
            (StartsWith(c, "+") && |c| < 10) ||
            (!StartsWith(c, "+") && |c| != 10 && !(StartsWith(c, "91") && |c| >= 12)))
  {
  }

  /** Rejected shapes: 5 digits, 11 digits, and '+' with fewer than 10 characters. */
  lemma ValidateRejects(phone: string)
    ensures var c := Clean(phone);
      ((|c| == 5 || |c| == 11) && !StartsWith(c, "+")) || (StartsWith(c, "+") && |c| < 10) ==>
        ValidatePhoneNumber(phone) == None
  {
  }

  /** Validating an accepted number again returns it unchanged. */
  lemma ValidateIdempotent(phone: string)
    requires ValidatePhoneNumber(phone).Some?
    ensures ValidatePhoneNumber(ValidatePhoneNumber(phone).value) == ValidatePhoneNumber(phone)
  {
    var r := ValidatePhoneNumber(phone).value;
    CleanKeeps(r);
    assert StartsWith(r, "+");
  }

  /** A ten-digit local number is prefixed with the Indian country code. */
  lemma TenDigitsGetCountryCode(phone: string)
    requires AllPhoneChars(phone) && |phone| == 10 && phone[0] != '+'
    ensures ValidatePhoneNumber(phone) == Some("+91" + phone)
  {
    CleanKeeps(phone);
  }

  lemma LocalNumberExample(p: string)
    requires p == "9876543210"
    ensures ValidatePhoneNumber(p) == Some("+919876543210")
  {
    assert AllPhoneChars(p) by {
      forall i | 0 <= i < |p| ensures IsPhoneChar(p[i]) { }
    }
    TenDigitsGetCountryCode(p);
    assert "+91" + p == "+919876543210";
  }

  lemma InternationalNumberExample(p: string)
    requires p == "+919876543210"
    ensures ValidatePhoneNumber(p) == Some("+919876543210")
  {
    assert AllPhoneChars(p) by {
      forall i | 0 <= i < |p| ensures IsPhoneChar(p[i]) { }
    }
    CleanKeeps(p);
    assert StartsWith(p, "+") by { assert p[..1] == "+"; }
  }

  lemma ShortNumberExample(p: string)
    requires p == "12345"
    ensures ValidatePhoneNumber(p) == None
  {
    assert AllPhoneChars(p) by {
      forall i | 0 <= i < |p| ensures IsPhoneChar(p[i]) { }
    }
    CleanKeeps(p);
    assert !StartsWith(p, "+") by { assert p[..1] != "+"; }
  }

  /** What capture_bill_image reports; the path is chosen before saving. */
  datatype Capture = Captured(path: string) | SaveFailed(path: string) | CaptureError

  datatype SendOutcome = MissingNumber | InvalidNumber | CaptureFailed | SenderStarted

  class WhatsAppDialog {
    var phoneNumber: string
    var saveCustomer: bool
    var imagePath: string
    var sendEnabled: bool
    var cancelEnabled: bool
    var progressVisible: bool
    /** The sender thread is running. */
    var sending: bool
    /** The captured image file still exists. */
    var imageOnDisk: bool
    var accepted: bool

    /** Both buttons are disabled exactly while the sender runs. */
    ghost predicate Valid()
      reads this
    {
      && sendEnabled == !sending
      && cancelEnabled == !sending
      && (sending ==> imageOnDisk && progressVisible)
    }

    constructor ()
      ensures Valid() && !sending && !accepted && phoneNumber == "" && imagePath == ""
    {
      phoneNumber := "";
      saveCustomer := false;
      imagePath := "";
      sendEnabled := true;
      cancelEnabled := true;
      progressVisible := false;
      sending := false;
      imageOnDisk := false;
      accepted := false;
    }

    /** The send button; it can only be clicked while enabled. */
    method SendWhatsapp(phoneText: string, saveChecked: bool, capture: Capture) returns (outcome: SendOutcome)
      requires Valid() && sendEnabled
      modifies this`phoneNumber, this`saveCustomer, this`imagePath, this`progressVisible
      modifies this`imageOnDisk, this`sendEnabled, this`cancelEnabled, this`sending
      ensures Valid() && imageOnDisk == (old(imageOnDisk) || sending)
      ensures AllSpace(phoneText) ==> outcome == MissingNumber
      ensures !AllSpace(phoneText) && ValidatePhoneNumber(Strip(phoneText)).None? ==> outcome == InvalidNumber
      ensures outcome.MissingNumber? || outcome.InvalidNumber? ==>
        phoneNumber == old(phoneNumber) && imagePath == old(imagePath) && !sending && progressVisible == old(progressVisible) &&
        saveCustomer == old(saveCustomer)
      ensures outcome.CaptureFailed? || outcome.SenderStarted? ==>
        ValidatePhoneNumber(Strip(phoneText)) == Some(phoneNumber) && saveCustomer == saveChecked
      ensures outcome.CaptureFailed? ==> !capture.Captured? && !sending && !progressVisible
      ensures outcome.SenderStarted? <==> sending
      ensures sending ==> capture.Captured? && imagePath == capture.path && !sendEnabled && !cancelEnabled
    {
      var phone := Strip(phoneText);
      StripBlank(phoneText);
      var validated := ValidatePhoneNumber(phone);
      if phone == "" {
        outcome := MissingNumber;
      } else if validated.None? {
        outcome := InvalidNumber;
      } else {
        phoneNumber := validated.value;
        saveCustomer := saveChecked;
        progressVisible := true;
        var captured := CaptureBillImage(capture);
        if captured {
          sendEnabled := false;
          cancelEnabled := false;
          sending := true;
          outcome := SenderStarted;
        } else {
          progressVisible := false;
          outcome := CaptureFailed;
        }
      }
    }

    /**
     * Renders the bill to an image file. The path is recorded whenever the
     * capture gets as far as choosing it, and only a saved file counts.
     */
    method CaptureBillImage(capture: Capture) returns (ok: bool)
      modifies this`imagePath, this`imageOnDisk
      ensures ok <==> capture.Captured?
      ensures imagePath == if capture.CaptureError? then old(imagePath) else capture.path
      ensures imageOnDisk == (old(imageOnDisk) || ok)
    {
      if capture.CaptureError? {
        return false;
      }
      imagePath := capture.path;
      ok := capture.Captured?;
      if ok {
        imageOnDisk := true;
      }
    }

    /** The sender's completion signal; only success removes the image and closes. */
    method OnWhatsappFinished(success: bool)
      requires Valid() && sending
      modifies this`progressVisible, this`sendEnabled, this`cancelEnabled, this`sending
      modifies this`imageOnDisk, this`accepted
      ensures Valid()
      ensures sendEnabled && cancelEnabled && !sending && !progressVisible
      ensures success ==> !imageOnDisk && accepted
      ensures !success ==> imageOnDisk == old(imageOnDisk) && accepted == old(accepted)
      ensures phoneNumber == old(phoneNumber) && imagePath == old(imagePath) && saveCustomer == old(saveCustomer)
    {
      progressVisible := false;
      sendEnabled := true;
      cancelEnabled := true;
      sending := false;
      if success {
        imageOnDisk := false;
        accepted := true;
      }
    }
  }
}
