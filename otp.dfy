/**
 * The one-time-code screen: the remaining-time display, the code input filter,
 * the verify and resend handlers and the two one-second timers (code expiry
 * and resend cooldown), each timer firing modelled as one tick.
 */
module OtpVerification {
  import opened Wrappers
  import opened Text

  const CodeLength := 6
  const ExpirySeconds := 600
  const ResendCooldownSeconds := 60
  const LengthError := "Please enter a 6-digit OTP"
  const ExpiredError := "OTP has expired. Please request a new one."

  /** The value of a one-digit and of a two-digit string. */
  lemma ShortDecimalValues(a: char, b: char)
    requires IsDigit(a) && IsDigit(b)
    ensures DecimalValue([b]) == DigitValue(b)
    ensures DecimalValue([a, b]) == DigitValue(a) * 10 + DigitValue(b)
  {
    assert [b][..0] == [];
    assert [a, b][..1] == [a];
    assert [a][..0] == [];
  }

  /** A seconds value below 60 pads to exactly two digits that read back as that value. */
  lemma PaddedSeconds(s: nat)
    requires s < 60
    ensures var p := PadStart(Decimal(s), 2, '0');
      |p| == 2 && AllDigits(p) && DecimalValue(p) == s
  {
    var d := Decimal(s);
    var p := PadStart(d, 2, '0');
    DecimalRoundTrip(s);
    if s < 10 {
      assert p == ['0', d[0]];
      ShortDecimalValues('0', d[0]);
      assert d == [d[0]];
    } else {
      assert |Decimal(s / 10)| == 1;
      assert p == d;
    }
  }

  /** "<mins>:<secs>" splits back into its two fields, and their values combine as minutes and seconds. */
  lemma DisplayFields(mins: string, secs: string)
    requires AllDigits(mins) && |mins| >= 1 && AllDigits(secs) && |secs| == 2
    ensures var r := mins + ":" + secs;
      && |r| >= 4 && r[|r| - 3] == ':'
      && r[..|r| - 3] == mins && r[|r| - 2..] == secs
  {
  }

  lemma MinutesAndSeconds(n: nat)
    ensures (n / 60) * 60 + n % 60 == n
  {
  }

  /**
   * `r` reads as a duration of `seconds`: digits, a colon and exactly two
   * digits, the second field below 60, and minutes times 60 plus seconds
   * equal to `seconds`.
   */
  predicate ReadsAs(r: string, seconds: nat) {
    && |r| >= 4 && r[|r| - 3] == ':'
    && AllDigits(r[..|r| - 3]) && AllDigits(r[|r| - 2..])
    && DecimalValue(r[|r| - 2..]) < 60
    && DecimalValue(r[..|r| - 3]) * 60 + DecimalValue(r[|r| - 2..]) == seconds
  }

  lemma DisplayReadsBack(mins: string, secs: string, m: nat, s: nat)
    requires AllDigits(mins) && |mins| >= 1 && AllDigits(secs) && |secs| == 2
    requires DecimalValue(mins) == m && DecimalValue(secs) == s && s < 60
    ensures ReadsAs(mins + ":" + secs, m * 60 + s)
  {
    DisplayFields(mins, secs);
  }

  /**
   * `formatTime`: the display is "<minutes>:<ss>", digits, a colon and exactly
   * two digits; reading it back, minutes times 60 plus the seconds field
   * (below 60) is the time given.
   */
  function FormatTime(seconds: nat): (r: string)
    ensures ReadsAs(r, seconds)
  {
    var mins := Decimal(seconds / 60);
    var secs := PadStart(Decimal(seconds % 60), 2, '0');
    PaddedSeconds(seconds % 60);
    DecimalRoundTrip(seconds / 60);
    DisplayReadsBack(mins, secs, seconds / 60, seconds % 60);
    MinutesAndSeconds(seconds);
    mins + ":" + secs
  }

  /** Calls into the code utilities and the screen's callback, in the order made. */
  datatype OtpCall =
    | ClearOtp
    | VerifyOtp(email: string, code: string)
    | OnVerified
    | GenerateOtp
    | SendOtp(email: string, code: string)
    | StoreOtp(email: string, code: string)

  /**
   * What a call to `verifyOTP` or `sendOTP` comes back with: its
   * `{success, message}` result, or an exception (`Threw`), which the
   * handlers do not catch.
   */
  datatype Outcome = Success | Failure(message: string) | Threw

  /** The screen's state for one e-mail address. */
  class OtpForm {
    const email: string
    var otp: string
    var loading: bool
    var error: string
    var resendCooldown: nat
    var timeLeft: nat
    /** The code of a resend whose `sendOTP` has not answered yet. */
    var pending: Option<string>
    var calls: seq<OtpCall>

    /** The input holds at most six digits, and neither timer exceeds its start value. */
    predicate Valid()
      reads this
    {
      && AllDigits(otp) && |otp| <= CodeLength
      && timeLeft <= ExpirySeconds
      && resendCooldown <= ResendCooldownSeconds
    }

    /** The verify button's `disabled` is the negation of this. */
    predicate VerifyEnabled()
      reads this
    {
      !loading && |otp| == CodeLength
    }

    /** The resend button's `disabled` is the negation of this. */
    predicate ResendEnabled()
      reads this
    {
      !loading && resendCooldown == 0
    }

    constructor (email: string)
      ensures Valid()
      ensures this.email == email
      ensures otp == "" && !loading && error == ""
      ensures resendCooldown == 0 && timeLeft == ExpirySeconds
      ensures pending == None && calls == []
    {
      this.email := email;
      otp, loading, error := "", false, "";
      resendCooldown, timeLeft := 0, ExpirySeconds;
      pending, calls := None, [];
    }

    /**
     * One firing of the expiry timer, which runs only while time is left: one
     * second less, and on reaching zero the stored code is cleared and the
     * expiry error shown.
     */
    method ExpiryTick()
      requires Valid()
      modifies this`timeLeft, this`error, this`calls
      ensures Valid()
      ensures timeLeft == if old(timeLeft) > 0 then old(timeLeft) - 1 else 0
      ensures old(timeLeft) == 1 ==> error == ExpiredError && calls == old(calls) + [ClearOtp]
      ensures old(timeLeft) != 1 ==> error == old(error) && calls == old(calls)
    {
      if timeLeft > 0 {
        timeLeft := timeLeft - 1;
        if timeLeft == 0 {
          calls := calls + [ClearOtp];
          error := ExpiredError;
        }
      }
    }

    /** One firing of the cooldown timer: down by one, stopping at zero. */
    method CooldownTick()
      requires Valid()
      modifies this`resendCooldown
      ensures Valid()
      ensures resendCooldown == if old(resendCooldown) > 0 then old(resendCooldown) - 1 else 0
    {
      if resendCooldown > 0 {
        resendCooldown := resendCooldown - 1;
      }
    }

    /** `handleOTPChange`: keep the digits; take them only if there are at most six. */
    method ChangeOtp(input: string)
      requires Valid()
      modifies this`otp
      ensures Valid()
      ensures |DigitsOnly(input)| <= CodeLength ==> otp == DigitsOnly(input)
      ensures |DigitsOnly(input)| > CodeLength ==> otp == old(otp)
    {
      var value := DigitsOnly(input);
      if |value| <= CodeLength {
        otp := value;
      }
    }

    /**
     * `handleVerifyOTP`: a code that is not six long only sets the length error;
     * otherwise the code is checked, success calls `onVerified`, failure shows
     * the result's message, and loading ends. If the check throws, the handler
     * stops with loading on and the error cleared.
     */
    method SubmitVerify(outcome: Outcome)
      modifies this`error, this`loading, this`calls
      ensures |otp| != CodeLength ==>
        error == LengthError && loading == old(loading) && calls == old(calls)
      ensures |otp| == CodeLength ==>
        && calls == old(calls) + [VerifyOtp(email, otp)] + (if outcome.Success? then [OnVerified] else [])
        && error == (if outcome.Failure? then outcome.message else "")
        && loading == outcome.Threw?
    {
      if |otp| != CodeLength {
        error := LengthError;
        return;
      }
      loading := true;
      error := "";
      calls := calls + [VerifyOtp(email, otp)];
      if outcome.Threw? {
        return;
      }
      if outcome.Success? {
        calls := calls + [OnVerified];
      } else {
        error := outcome.message;
      }
      loading := false;
    }

    /**
     * Submitting the form through its button (a click, or Enter in the input):
     * while the button is disabled nothing happens, otherwise the verify
     * handler runs on a six-digit code.
     */
    method PressVerify(outcome: Outcome)
      modifies this`error, this`loading, this`calls
      ensures !old(VerifyEnabled()) ==>
        error == old(error) && loading == old(loading) && calls == old(calls)
      ensures old(VerifyEnabled()) ==>
        && calls == old(calls) + [VerifyOtp(email, otp)] + (if outcome.Success? then [OnVerified] else [])
        && error == (if outcome.Failure? then outcome.message else "")
        && loading == outcome.Threw?
    {
      if VerifyEnabled() {
        SubmitVerify(outcome);
      }
    }

    /**
     * A click on "Resend OTP", ignored while the button is disabled: a new code
     * is generated and sent, and the screen waits for the answer.
     */
    method ClickResend(code: string)
      modifies this`loading, this`error, this`calls, this`pending
      ensures !old(ResendEnabled()) ==>
        loading == old(loading) && error == old(error) && calls == old(calls) && pending == old(pending)
      ensures old(ResendEnabled()) ==>
        && loading && error == "" && pending == Some(code)
        && calls == old(calls) + [GenerateOtp, SendOtp(email, code)]
    {
      if !ResendEnabled() {
        return;
      }
      loading := true;
      error := "";
      calls := calls + [GenerateOtp, SendOtp(email, code)];
      pending := Some(code);
    }

    /**
     * The rest of `handleResendOTP`, once `sendOTP` has answered: on success the
     * new code is stored and both timers restart with no error shown; on
     * failure the message is shown and the timers are left alone. A `sendOTP`
     * that throws ends the handler there: loading stays on, so both buttons
     * stay disabled, and nothing else changes.
     */
    method ResendAnswered(result: Outcome)
      requires Valid() && pending.Some?
      modifies this`loading, this`error, this`calls, this`resendCooldown, this`timeLeft, this`pending
      ensures Valid() && pending == None
      ensures !result.Threw? ==> !loading
      ensures result.Threw? ==>
        && loading == old(loading) && error == old(error) && calls == old(calls)
        && resendCooldown == old(resendCooldown) && timeLeft == old(timeLeft)
      ensures result.Success? ==>
        && calls == old(calls) + [StoreOtp(email, old(pending).value)]
        && resendCooldown == ResendCooldownSeconds && timeLeft == ExpirySeconds && error == ""
      ensures result.Failure? ==>
        && calls == old(calls)
        && resendCooldown == old(resendCooldown) && timeLeft == old(timeLeft) && error == result.message
    {
      if result.Threw? {
        pending := None;
        return;
      }
      if result.Success? {
        calls := calls + [StoreOtp(email, pending.value)];
        resendCooldown := ResendCooldownSeconds;
        timeLeft := ExpirySeconds;
        error := "";
      } else {
        error := result.message;
      }
      loading := false;
      pending := None;
    }
  }

  /**
   * Left alone, the screen counts down from ten minutes: after exactly 600
   * ticks the time is up, the stored code has been cleared once and the expiry
   * error is shown.
   */
  method CountdownScenario(email: string) returns (ticks: nat, error: string, calls: seq<OtpCall>)
    ensures ticks == ExpirySeconds
    ensures error == ExpiredError && calls == [ClearOtp]
  {
    var form := new OtpForm(email);
    ticks := 0;
    while form.timeLeft > 0
      invariant form.Valid()
      invariant form.timeLeft + ticks == ExpirySeconds
      invariant form.error == if form.timeLeft == 0 then ExpiredError else ""
      invariant form.calls == if form.timeLeft == 0 then [ClearOtp] else []
      decreases form.timeLeft
    {
      form.ExpiryTick();
      ticks := ticks + 1;
    }
    error, calls := form.error, form.calls;
  }

  /**
   * A resend whose `sendOTP` throws leaves the form loading for good: a later
   * click on either button does nothing, and the only calls made are those of
   * the first resend.
   */
  method ResendThrowsScenario(email: string, code: string, again: string, outcome: Outcome)
    returns (loading: bool, error: string, calls: seq<OtpCall>)
    ensures loading && error == ""
    ensures calls == [GenerateOtp, SendOtp(email, code)]
  {
    var form := new OtpForm(email);
    form.ClickResend(code);
    form.ResendAnswered(Threw);
    form.PressVerify(outcome);
    form.ClickResend(again);
    loading, error, calls := form.loading, form.error, form.calls;
  }
}
