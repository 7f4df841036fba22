/** The call screen: the `mm:ss` duration display, the status line, the one-second duration
    tick of an active call, and the mute, speaker, video and minimise toggles. */
module CallScreen {
  import opened Text

  datatype CallType = Incoming | Outgoing | Active

  /** `${mins}:${secs}` with a two-character seconds field. */
  function Clock(mins: string, secs: string): (r: string)
    requires |secs| == 2
    ensures |r| == |mins| + 3 && r[|mins|] == ':'
    ensures r[..|mins|] == mins && r[|mins| + 1..] == secs
  {
    mins + ":" + secs
  }

  /** `formatDuration(seconds)`: whole minutes and the remaining seconds, each padded to two
      digits, joined by a colon. */
  function FormatDuration(seconds: nat): (r: string)
    ensures IsClock(r)
  {
    var q := seconds / 60;
    var rem := seconds % 60;
    assert |NatToString(rem)| <= 2;
    Clock(PadStart2(NatToString(q)), PadStart2(NatToString(rem)))
  }

  /** A display `mm:ss` is well formed when both fields are digit strings. */
  predicate IsClock(r: string)
  {
    |r| >= 5 && r[|r| - 3] == ':' && AllDigits(r[..|r| - 3]) && AllDigits(r[|r| - 2..])
  }

  function MinutesField(r: string): nat
    requires IsClock(r)
  {
    DecimalValue(r[..|r| - 3])
  }

  function SecondsField(r: string): nat
    requires IsClock(r)
  {
    DecimalValue(r[|r| - 2..])
  }

  /** Reading the display back: the field after the colon is below 60 and minutes times 60 plus
      seconds gives the duration again. */
  lemma {:induction false} FormatDurationParses(seconds: nat)
    ensures IsClock(FormatDuration(seconds))
    ensures SecondsField(FormatDuration(seconds)) < 60
    ensures MinutesField(FormatDuration(seconds)) * 60 + SecondsField(FormatDuration(seconds)) == seconds
  {
    var q := seconds / 60;
    var rem := seconds % 60;
    assert seconds == q * 60 + rem && rem < 60;
    var m := PadStart2(NatToString(q));
    assert |NatToString(rem)| <= 2;
    var c := PadStart2(NatToString(rem));
    var r := Clock(m, c);
    assert r == FormatDuration(seconds);
    assert r[..|r| - 3] == m;
    assert r[|r| - 2..] == c;
    assert DecimalValue(m) == q by {
      NatToStringRoundTrip(q);
      PadStart2Value(NatToString(q));
    }
    assert DecimalValue(c) == rem by {
      NatToStringRoundTrip(rem);
      PadStart2Value(NatToString(rem));
    }
    assert MinutesField(r) == q && SecondsField(r) == rem;
  }

  /** Below 100 minutes the display is exactly five characters. */
  lemma FormatDurationFiveChars(seconds: nat)
    requires seconds < 6000
    ensures |FormatDuration(seconds)| == 5
  {
    assert |NatToString(seconds / 60)| <= 2;
  }

  /** `getCallStatusText()`. */
  function StatusText(callType: CallType, isVideoCall: bool, callDuration: nat): string
  {
    match callType
    case Incoming => "Incoming " + (if isVideoCall then "video" else "voice") + " call"
    case Outgoing => "Calling..."
    case Active => FormatDuration(callDuration)
  }

  /** An incoming call announces its kind and an outgoing one says "Calling...". */
  lemma StatusTextCases(isVideoCall: bool, callDuration: nat)
    ensures StatusText(Incoming, true, callDuration) == "Incoming video call"
    ensures StatusText(Incoming, false, callDuration) == "Incoming voice call"
    ensures StatusText(Outgoing, isVideoCall, callDuration) == "Calling..."
  {
  }

  /** An active call shows a display that reads back as the elapsed duration. */
  lemma ActiveStatusShowsDuration(isVideoCall: bool, callDuration: nat)
    ensures IsClock(StatusText(Active, isVideoCall, callDuration))
    ensures MinutesField(StatusText(Active, isVideoCall, callDuration)) * 60
      + SecondsField(StatusText(Active, isVideoCall, callDuration)) == callDuration
  {
    assert StatusText(Active, isVideoCall, callDuration) == FormatDuration(callDuration);
    FormatDurationParses(callDuration);
  }

  /** The status line tells the three kinds of call apart whatever the other inputs: the first
      character is 'I', 'C' or a digit. */
  lemma {:induction false} StatusTextDistinguishes(a: CallType, b: CallType, va: bool, vb: bool, da: nat, db: nat)
    requires StatusText(a, va, da) == StatusText(b, vb, db)
    ensures a == b
  {
    var ra := StatusText(a, va, da);
    var rb := StatusText(b, vb, db);
    assert a == Active ==> IsDigit(ra[0]) by {
      if a == Active {
        assert ra[0] == ra[..|ra| - 3][0];
      }
    }
    assert b == Active ==> IsDigit(rb[0]) by {
      if b == Active {
        assert rb[0] == rb[..|rb| - 3][0];
      }
    }
  }

  class Screen {
    const callType: CallType
    const isVideoCall: bool
    var isMuted: bool
    var isVideoEnabled: bool
    var isSpeakerOn: bool
    var callDuration: nat
    var isMinimized: bool

    /** The initial state: the camera is on exactly for a video call. */
    constructor (callType: CallType, isVideoCall: bool)
      ensures this.callType == callType && this.isVideoCall == isVideoCall
      ensures !isMuted && isVideoEnabled == isVideoCall && !isSpeakerOn
      ensures callDuration == 0 && !isMinimized
    {
      this.callType := callType;
      this.isVideoCall := isVideoCall;
      isMuted, isVideoEnabled, isSpeakerOn, callDuration, isMinimized := false, isVideoCall, false, 0, false;
    }

    /** The status line of the current state; during an active call it reads back as the
        elapsed duration. */
    function StatusLine(): (r: string)
      reads this
      ensures callType == Active ==> IsClock(r) && MinutesField(r) * 60 + SecondsField(r) == callDuration
    {
      ActiveStatusShowsDuration(isVideoCall, callDuration);
      StatusText(callType, isVideoCall, callDuration)
    }

    /** One second of the interval timer, which runs only during an active call. */
    method Tick()
      modifies this`callDuration
      ensures callDuration == old(callDuration) + (if callType == Active then 1 else 0)
    {
      if callType == Active {
        callDuration := callDuration + 1;
      }
    }

    method ToggleMute()
      modifies this`isMuted
      ensures isMuted == !old(isMuted)
    {
      isMuted := !isMuted;
    }

    method ToggleSpeaker()
      modifies this`isSpeakerOn
      ensures isSpeakerOn == !old(isSpeakerOn)
    {
      isSpeakerOn := !isSpeakerOn;
    }

    /** The camera button; it is only rendered for a video call. */
    method ToggleVideo()
      modifies this`isVideoEnabled
      ensures isVideoEnabled == !old(isVideoEnabled)
    {
      isVideoEnabled := !isVideoEnabled;
    }

    method SetMinimized(minimized: bool)
      modifies this`isMinimized
      ensures isMinimized == minimized
    {
      isMinimized := minimized;
    }
  }
}
