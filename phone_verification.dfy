/** The basic phone-verification screen: the on-screen keypad that edits the phone-number
    and code buffers, the resend countdown, and resending the code. The keypad alphabet, the
    buffer edits and the countdown step are shared with the enhanced screen, whose source
    repeats them. */
module PhoneVerification {

  // ---------------------------------------------------------------------------
  // The keypad
  // ---------------------------------------------------------------------------

  const DashKey: string := "\U{2014}"
  const BackKey: string := "\U{2190}"
  const ClearKey: string := "\U{2297}"
  const ConfirmKey: string := "\U{2713}"

  /** `keypadNumbers.flat()`, row by row. */
  const Keypad: seq<string> := [
    "1", "2", "3", DashKey,
    "4", "5", "6", BackKey,
    "7", "8", "9", ClearKey,
    "#", "0", ".", ConfirmKey
  ]

  predicate IsKey(value: string)
  {
    value in Keypad
  }

  /** A key that the handler appends to the buffer: anything but the four special keys. */
  predicate IsEntryKey(value: string)
  {
    value != DashKey && value != BackKey && value != ClearKey && value != ConfirmKey
  }

  /** Every key on the pad is one character. */
  lemma KeyIsOneCharacter(value: string)
    requires IsKey(value)
    ensures |value| == 1
  {
  }

  /** The entry keys are the ten digits, "#" and ".". */
  lemma EntryKeys(value: string)
    requires IsKey(value)
    ensures IsEntryKey(value) <==> value in ["0", "1", "2", "3", "4", "5", "6", "7", "8", "9", "#", "."]
  {
  }

  /** `s.slice(0, -1)`: the empty string stays empty, otherwise the last character goes. */
  function DropLast(s: string): (r: string)
    ensures s == [] ==> r == []
    ensures s != [] ==> r + [s[|s| - 1]] == s
  {
    if s == [] then [] else s[..|s| - 1]
  }

  /** Backspace undoes the entry of one character. */
  lemma DropLastUndoesEntry(s: string, value: string)
    requires |value| == 1
    ensures DropLast(s + value) == s
  {
    assert (s + value)[..|s|] == s;
  }

  /** The phone-step edit of the number buffer; "✓" and the blank key leave it alone. */
  function PhoneAfterKey(prev: string, value: string): (r: string)
    requires IsKey(value)
    ensures |r| > |prev| <==> IsEntryKey(value)
    ensures IsEntryKey(value) ==> r == prev + value
    ensures value == ClearKey ==> r == ""
    ensures value == BackKey ==> r == DropLast(prev)
    ensures value == ConfirmKey || value == DashKey ==> r == prev
  {
    if value == BackKey then DropLast(prev)
    else if value == ClearKey then ""
    else if value == ConfirmKey then prev
    else if value != DashKey then prev + value
    else prev
  }

  /** The code-step edit of the code buffer: an entry key is appended only while fewer than
      six characters are present. */
  function CodeAfterKey(prev: string, value: string): (r: string)
    requires IsKey(value)
    ensures |prev| <= 6 ==> |r| <= 6
    ensures |r| > |prev| <==> IsEntryKey(value) && |prev| < 6
    ensures |r| > |prev| ==> r == prev + value
    ensures value == ClearKey ==> r == ""
    ensures value == BackKey ==> r == DropLast(prev)
    ensures value == ConfirmKey || value == DashKey || (|prev| >= 6 && IsEntryKey(value)) ==> r == prev
  {
    if value == BackKey then DropLast(prev)
    else if value == ClearKey then ""
    else if value == ConfirmKey then prev
    else if value != DashKey && |prev| < 6 then prev + value
    else prev
  }

  /** An entry that completes the code schedules verification. */
  predicate CompletesCode(prev: string, value: string)
  {
    IsEntryKey(value) && |prev| < 6 && |prev + value| == 6
  }

  /** On the keypad, exactly the entry keys pressed on a five-character code complete it. */
  lemma CompletesCodeIff(prev: string, value: string)
    requires IsKey(value)
    ensures CompletesCode(prev, value) <==> IsEntryKey(value) && |prev| == 5
  {
    KeyIsOneCharacter(value);
  }

  // ---------------------------------------------------------------------------
  // The resend countdown
  // ---------------------------------------------------------------------------

  /** One interval tick of `setTimer`: `prev <= 1 ? 0 : prev - 1`. */
  function Countdown(prev: int): (r: int)
    ensures r >= 0
    ensures prev >= 1 ==> r == prev - 1
    ensures r == 0 <==> prev <= 1
  {
    if prev <= 1 then 0 else prev - 1
  }

  /** The timer after k ticks. */
  function AfterTicks(t: int, k: nat): int
    decreases k
  {
    if k == 0 then t else AfterTicks(Countdown(t), k - 1)
  }

  /** From a non-negative timer, k ticks count down by k and stop at zero; in particular the
      full minute runs out after sixty ticks. */
  lemma {:induction false} AfterTicksValue(t: int, k: nat)
    requires t >= 0
    ensures AfterTicks(t, k) == if t >= k then t - k else 0
    decreases k
  {
    if k > 0 {
      AfterTicksValue(Countdown(t), k - 1);
    }
  }

  /** Example of the closed form: from 60, fifty-nine ticks leave one second and sixty reach zero. */
  lemma MinuteRunsOut()
    ensures AfterTicks(60, 59) == 1 && AfterTicks(60, 60) == 0
  {
    AfterTicksValue(60, 59);
    AfterTicksValue(60, 60);
  }

  // ---------------------------------------------------------------------------
  // The screen
  // ---------------------------------------------------------------------------

  datatype Step = PhoneStep | CodeStep

  /** What a key press does to the `onVerified` callback. */
  datatype Signal = NoSignal | VerifiedNow | VerifyScheduled

  class Screen {
    var phoneNumber: string
    var step: Step
    var verificationCode: string
    var timer: int
    var canResend: bool

    /** The countdown stays in [0, 60], resending is offered exactly when it reached zero, and
        the code never exceeds six characters. */
    ghost predicate Valid()
      reads this
    {
      0 <= timer <= 60 && (canResend <==> timer == 0) && |verificationCode| <= 6
    }

    constructor ()
      ensures Valid()
      ensures phoneNumber == "" && step == PhoneStep && verificationCode == ""
      ensures timer == 60 && !canResend
    {
      phoneNumber, step, verificationCode := "", PhoneStep, "";
      timer, canResend := 60, false;
    }

    /** `handleKeypadPress(value)`. */
    method KeypadPress(value: string) returns (signal: Signal)
      requires Valid() && IsKey(value)
      modifies this`phoneNumber, this`step, this`verificationCode, this`timer, this`canResend
      ensures Valid()
      ensures old(step) == PhoneStep ==>
        && phoneNumber == PhoneAfterKey(old(phoneNumber), value)
        && verificationCode == old(verificationCode)
        && signal == NoSignal
        && (if value == ConfirmKey && |old(phoneNumber)| >= 10
            then step == CodeStep && timer == 60 && !canResend
            else step == PhoneStep && timer == old(timer) && canResend == old(canResend))
      ensures old(step) == CodeStep ==>
        && step == CodeStep && phoneNumber == old(phoneNumber)
        && timer == old(timer) && canResend == old(canResend)
        && verificationCode == CodeAfterKey(old(verificationCode), value)
        && (signal == VerifiedNow <==> value == ConfirmKey && |old(verificationCode)| == 6)
        && (signal == VerifyScheduled <==> CompletesCode(old(verificationCode), value))
    {
      signal := NoSignal;
      if step == PhoneStep {
        if value == BackKey {
          phoneNumber := DropLast(phoneNumber);
        } else if value == ClearKey {
          phoneNumber := "";
        } else if value == ConfirmKey {
          if |phoneNumber| >= 10 {
            step, timer, canResend := CodeStep, 60, false;
          }
        } else if value != DashKey {
          phoneNumber := phoneNumber + value;
        }
      } else {
        if value == BackKey {
          verificationCode := DropLast(verificationCode);
        } else if value == ClearKey {
          verificationCode := "";
        } else if value == ConfirmKey {
          if |verificationCode| == 6 {
            signal := VerifiedNow;
          }
        } else if value != DashKey && |verificationCode| < 6 {
          var newCode := verificationCode + value;
          verificationCode := newCode;
          if |newCode| == 6 {
            signal := VerifyScheduled;
          }
        }
      }
    }

    /** One second of the countdown interval, which runs only in the code step while the
        timer is positive. */
    method Tick()
      requires Valid()
      modifies this`timer, this`canResend
      ensures Valid()
      ensures if old(step) == CodeStep && old(timer) > 0
        then timer == Countdown(old(timer)) && (canResend <==> old(timer) == 1)
        else timer == old(timer) && canResend == old(canResend)
    {
      if step == CodeStep && timer > 0 {
        if timer <= 1 {
          canResend := true;
          timer := 0;
        } else {
          timer := timer - 1;
        }
      }
    }

    /** `handleResendCode`. */
    method ResendCode()
      requires Valid()
      modifies this`timer, this`canResend, this`verificationCode
      ensures Valid()
      ensures timer == 60 && !canResend && verificationCode == ""
    {
      timer, canResend, verificationCode := 60, false, "";
    }

    /** The back arrow of the code step. */
    method Back()
      requires Valid()
      modifies this`step
      ensures Valid() && step == PhoneStep
    {
      step := PhoneStep;
    }
  }
}
