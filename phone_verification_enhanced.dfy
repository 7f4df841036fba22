/** The enhanced onboarding flow: seven declared steps, the phone keypad with its
    confirmation popup, the code keypad, the resend countdown, the profile and email steps
    and the initialisation progress counter. */
module PhoneVerificationEnhanced {
  import opened Text
  import opened PhoneVerification

  /** The declared steps; "confirm" is declared but no handler sets it. */
  datatype Step = Phone | Confirm | AutoVerify | Code | Profile | Email | Initializing

  // ---------------------------------------------------------------------------
  // The initialisation progress counter
  // ---------------------------------------------------------------------------

  /** One tick of `setInitProgress`: `prev >= 100 ? 100 : prev + 2`. */
  function ProgressStep(prev: int): (r: int)
    ensures prev >= 100 ==> r == 100
    ensures prev < 100 ==> r == prev + 2
    ensures 0 <= prev <= 100 && prev % 2 == 0 ==> 0 <= r <= 100 && r % 2 == 0 && r >= prev
  {
    if prev >= 100 then 100 else prev + 2
  }

  function AfterProgressTicks(p: int, k: nat): int
    decreases k
  {
    if k == 0 then p else AfterProgressTicks(ProgressStep(p), k - 1)
  }

  /** From an even value in [0, 100], k ticks add 2k and stay at 100 once there: starting from
      0 the bar is full after exactly fifty ticks. */
  lemma {:induction false} AfterProgressTicksValue(p: int, k: nat)
    requires 0 <= p <= 100 && p % 2 == 0
    ensures AfterProgressTicks(p, k) == if p + 2 * k <= 100 then p + 2 * k else 100
    decreases k
  {
    if k > 0 {
      AfterProgressTicksValue(ProgressStep(p), k - 1);
    }
  }

  /** Example of the closed form: from 0, forty-nine steps reach 98 and fifty fill the bar. */
  lemma ProgressFullAfterFiftyTicks()
    ensures AfterProgressTicks(0, 49) == 98 && AfterProgressTicks(0, 50) == 100
  {
    AfterProgressTicksValue(0, 49);
    AfterProgressTicksValue(0, 50);
  }

  // ---------------------------------------------------------------------------
  // The screen
  // ---------------------------------------------------------------------------

  class Screen {
    var step: Step
    var phoneNumber: string
    var verificationCode: string
    var timer: int
    var canResend: bool
    var userName: string
    var showConfirm: bool
    var initProgress: int

    /** "confirm" is never entered; the countdown and the code buffer obey the basic screen's
        bounds; the progress counter is even and within [0, 100]. */
    ghost predicate Valid()
      reads this
    {
      && step != Confirm
      && 0 <= timer <= 60 && (canResend <==> timer == 0)
      && |verificationCode| <= 6
      && 0 <= initProgress <= 100 && initProgress % 2 == 0
    }

    constructor ()
      ensures Valid()
      ensures step == Phone && phoneNumber == "" && verificationCode == ""
      ensures timer == 60 && !canResend && userName == "" && !showConfirm && initProgress == 0
    {
      step, phoneNumber, verificationCode := Phone, "", "";
      timer, canResend, userName, showConfirm, initProgress := 60, false, "", false, 0;
    }

    /** `onVerified` is scheduled exactly when the bar is full in the initialising step. */
    function FinishScheduled(): (r: bool)
      reads this
      requires Valid()
      ensures r <==> initProgress == 100 && step == Initializing
    {
      initProgress >= 100 && step == Initializing
    }

    /** `handleKeypadPress(value)`: it acts only in the phone and code steps. The returned flag
        says whether the move to "profile" was scheduled by completing the code. */
    method KeypadPress(value: string) returns (scheduled: bool)
      requires Valid() && IsKey(value)
      modifies this`phoneNumber, this`verificationCode, this`showConfirm, this`step
      ensures Valid()
      ensures old(step) == Phone ==>
        && step == Phone && verificationCode == old(verificationCode) && !scheduled
        && phoneNumber == PhoneAfterKey(old(phoneNumber), value)
        && showConfirm == (old(showConfirm) || (value == ConfirmKey && |old(phoneNumber)| >= 10))
      ensures old(step) == Code ==>
        && phoneNumber == old(phoneNumber) && showConfirm == old(showConfirm)
        && verificationCode == CodeAfterKey(old(verificationCode), value)
        && step == (if value == ConfirmKey && |old(verificationCode)| == 6 then Profile else Code)
        && scheduled == CompletesCode(old(verificationCode), value)
      ensures old(step) != Phone && old(step) != Code ==>
        && step == old(step) && phoneNumber == old(phoneNumber)
        && verificationCode == old(verificationCode) && showConfirm == old(showConfirm) && !scheduled
    {
      scheduled := false;
      if step == Phone {
        if value == BackKey {
          phoneNumber := DropLast(phoneNumber);
        } else if value == ClearKey {
          phoneNumber := "";
        } else if value == ConfirmKey {
          if |phoneNumber| >= 10 {
            showConfirm := true;
          }
        } else if value != DashKey {
          phoneNumber := phoneNumber + value;
        }
      } else if step == Code {
        if value == BackKey {
          verificationCode := DropLast(verificationCode);
        } else if value == ClearKey {
          verificationCode := "";
        } else if value == ConfirmKey {
          if |verificationCode| == 6 {
            step := Profile;
          }
        } else if value != DashKey && |verificationCode| < 6 {
          var newCode := verificationCode + value;
          verificationCode := newCode;
          if |newCode| == 6 {
            scheduled := true;
          }
        }
      }
    }

    /** The scheduled `setStep("profile")`, whatever the step is when it fires. */
    method CodeCompletedTimeout()
      requires Valid()
      modifies this`step
      ensures Valid() && step == Profile
    {
      step := Profile;
    }

    /** "Edit" in the popup hides it. */
    method ConfirmEdit()
      requires Valid()
      modifies this`showConfirm
      ensures Valid() && !showConfirm
    {
      showConfirm := false;
    }

    /** "Yes" in the popup goes to auto-verification; the popup flag stays set. */
    method ConfirmYes()
      requires Valid()
      modifies this`step
      ensures Valid() && step == AutoVerify
    {
      step := AutoVerify;
    }

    /** The back arrow of the auto-verify step. */
    method AutoVerifyBack()
      requires Valid()
      modifies this`step
      ensures Valid() && step == Phone
    {
      step := Phone;
    }

    /** "Continue" and "Verify another way" both go to code entry. */
    method ChooseCodeEntry()
      requires Valid()
      modifies this`step
      ensures Valid() && step == Code
    {
      step := Code;
    }

    method SetUserName(name: string)
      requires Valid()
      modifies this`userName
      ensures Valid() && userName == name
    {
      userName := name;
    }

    /** "Next" on the profile step is disabled while the name is blank after trimming. */
    method ProfileNext() returns (moved: bool)
      requires Valid()
      modifies this`step
      ensures Valid()
      ensures moved <==> !IsBlank(userName)
      ensures step == if moved then Email else old(step)
    {
      moved := !IsBlank(userName);
      if moved {
        step := Email;
      }
    }

    /** "Add email" and "Skip" both start initialisation. */
    method EmailContinue()
      requires Valid()
      modifies this`step
      ensures Valid() && step == Initializing
    {
      step := Initializing;
    }

    /** One tick of the progress interval, which runs only while initialising. */
    method ProgressTick()
      requires Valid()
      modifies this`initProgress
      ensures Valid()
      ensures initProgress == if step == Initializing then ProgressStep(old(initProgress)) else old(initProgress)
    {
      if step == Initializing {
        initProgress := if initProgress >= 100 then 100 else initProgress + 2;
      }
    }

    /** One second of the countdown, which runs only in the code step while positive. */
    method Tick()
      requires Valid()
      modifies this`timer, this`canResend
      ensures Valid()
      ensures if step == Code && old(timer) > 0
        then timer == Countdown(old(timer)) && (canResend <==> old(timer) == 1)
        else timer == old(timer) && canResend == old(canResend)
    {
      if step == Code && timer > 0 {
        if timer <= 1 {
          canResend := true;
          timer := 0;
        } else {
          timer := timer - 1;
        }
      }
    }

    /** "Didn't receive code ?". */
    method Resend()
      requires Valid()
      modifies this`timer, this`canResend, this`verificationCode
      ensures Valid()
      ensures timer == 60 && !canResend && verificationCode == ""
    {
      timer, canResend, verificationCode := 60, false, "";
    }
  }
}
