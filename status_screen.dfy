/** The status (story) viewer: moving between a contact's stories and handing off to the
    neighbouring contact at either end, the progress bars, the reply box and the pause
    toggle. */
module StatusScreen {
  import opened Text
  import opened Wrappers

  datatype StatusKind = ImageStatus | VideoStatus | TextStatus

  datatype StatusItem = StatusItem(id: string, kind: StatusKind, duration: nat)

  datatype Contact = Contact(name: string, statuses: seq<StatusItem>)

  /** The width of bar `index`, in percent: full before the current story, the current progress
      on it, empty after it. */
  function BarWidth(index: int, currentIndex: int, progress: real): real
  {
    if index < currentIndex then 100.0 else if index == currentIndex then progress else 0.0
  }

  /** The bars before the current one are full and those after it empty; with progress in
      [0, 100] every bar is within [0, 100] and the bars never grow from left to right. */
  lemma BarWidthsDescend(i: int, j: int, currentIndex: int, progress: real)
    requires i <= j
    ensures i < currentIndex ==> BarWidth(i, currentIndex, progress) == 100.0
    ensures i > currentIndex ==> BarWidth(i, currentIndex, progress) == 0.0
    ensures 0.0 <= progress <= 100.0 ==>
      && 0.0 <= BarWidth(i, currentIndex, progress) <= 100.0
      && BarWidth(i, currentIndex, progress) >= BarWidth(j, currentIndex, progress)
  {
  }

  class Screen {
    const contact: Option<Contact>
    var currentIndex: int
    var progress: real
    var isPaused: bool
    var showReply: bool
    var replyText: string

    constructor (contact: Option<Contact>, statusIndex: int)
      ensures this.contact == contact && currentIndex == statusIndex
      ensures progress == 0.0 && !isPaused && !showReply && replyText == ""
    {
      this.contact := contact;
      currentIndex, progress, isPaused, showReply, replyText := statusIndex, 0.0, false, false, "";
    }

    /** The index points at one of the contact's stories. */
    predicate InRange()
      reads this
    {
      contact.Some? && 0 <= currentIndex < |contact.value.statuses|
    }

    /** `handleNext`: without a contact nothing happens; before the last story it advances and
        restarts the bar; on the last one it hands off to `onNext`. */
    method HandleNext() returns (handedOff: bool)
      modifies this`currentIndex, this`progress
      ensures contact.None? ==> !handedOff && currentIndex == old(currentIndex) && progress == old(progress)
      ensures contact.Some? && old(currentIndex) < |contact.value.statuses| - 1 ==>
        !handedOff && currentIndex == old(currentIndex) + 1 && progress == 0.0
      ensures contact.Some? && old(currentIndex) >= |contact.value.statuses| - 1 ==>
        handedOff && currentIndex == old(currentIndex) && progress == old(progress)
      ensures old(InRange()) ==> InRange()
    {
      handedOff := false;
      if contact.None? {
        return;
      }
      if currentIndex < |contact.value.statuses| - 1 {
        currentIndex := currentIndex + 1;
        progress := 0.0;
      } else {
        handedOff := true;
      }
    }

    /** `handlePrevious`: after the first story it steps back and restarts the bar; on the first
        one it hands off to `onPrevious`. It does not check for a contact. */
    method HandlePrevious() returns (handedOff: bool)
      modifies this`currentIndex, this`progress
      ensures old(currentIndex) > 0 ==> !handedOff && currentIndex == old(currentIndex) - 1 && progress == 0.0
      ensures old(currentIndex) <= 0 ==> handedOff && currentIndex == old(currentIndex) && progress == old(progress)
      ensures old(InRange()) ==> InRange()
    {
      if currentIndex > 0 {
        currentIndex := currentIndex - 1;
        progress := 0.0;
        handedOff := false;
      } else {
        handedOff := true;
      }
    }

    /** One 50 ms tick of the progress interval, which runs only while a current story exists
        and the viewer is not paused. At 100 or more it runs `handleNext` and restarts the bar;
        otherwise the bar grows by `increment`, the source's `(50 / (duration * 1000)) * 100`. */
    method ProgressTick(increment: real) returns (handedOff: bool)
      modifies this`currentIndex, this`progress
      ensures !old(InRange()) || isPaused ==>
        !handedOff && currentIndex == old(currentIndex) && progress == old(progress)
      ensures old(InRange()) && !isPaused && old(progress) >= 100.0 ==>
        && progress == 0.0
        && (old(currentIndex) < |contact.value.statuses| - 1 ==> !handedOff && currentIndex == old(currentIndex) + 1)
        && (old(currentIndex) >= |contact.value.statuses| - 1 ==> handedOff && currentIndex == old(currentIndex))
      ensures old(InRange()) && !isPaused && old(progress) < 100.0 ==>
        !handedOff && currentIndex == old(currentIndex) && progress == old(progress) + increment
      ensures old(InRange()) ==> InRange()
      ensures 0.0 <= old(progress) && 0.0 <= increment ==> 0.0 <= progress
    {
      handedOff := false;
      if !InRange() || isPaused {
        return;
      }
      if progress >= 100.0 {
        handedOff := HandleNext();
        progress := 0.0;
      } else {
        progress := progress + increment;
      }
    }

    method PauseToggle()
      modifies this`isPaused
      ensures isPaused == !old(isPaused)
    {
      isPaused := !isPaused;
    }

    method OpenReply()
      modifies this`showReply
      ensures showReply
    {
      showReply := true;
    }

    method SetReplyText(text: string)
      modifies this`replyText
      ensures replyText == text
    {
      replyText := text;
    }

    /** `handleReply`: a blank reply does nothing; otherwise the text is sent (logged), cleared,
        and the reply box closes. */
    method HandleReply() returns (sent: Option<string>)
      modifies this`replyText, this`showReply
      ensures IsBlank(old(replyText)) ==> sent == None && replyText == old(replyText) && showReply == old(showReply)
      ensures !IsBlank(old(replyText)) ==> sent == Some(old(replyText)) && replyText == "" && !showReply
    {
      if IsBlank(replyText) {
        sent := None;
      } else {
        sent := Some(replyText);
        replyText := "";
        showReply := false;
      }
    }
  }
}
