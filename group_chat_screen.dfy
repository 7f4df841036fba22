/** The group chat: the same send / status / reply timeline as the one-to-one chat, with a
    sender on every message, the typing indicator, sender colours, the header subtitle and
    the participant chips of the info panel. */
module GroupChatScreen {
  import opened Text
  import opened Wrappers
  import ChatScreen

  type Status = ChatScreen.Status

  datatype GroupMessage = GroupMessage(
    id: int, text: string, time: string, sender: string, isSent: bool, status: Option<Status>)

  const InitialMessages: seq<GroupMessage> := [
    GroupMessage(1, "Hey everyone! Welcome to the group! \U{F0}\U{178}\U{17D}\U{2030}", "10:30 AM", "Alex Johnson", false, None),
    GroupMessage(2, "Thanks for adding me! Excited to be here", "10:31 AM", "You", true, Some(ChatScreen.Read)),
    GroupMessage(3, "This is going to be a great collaboration space", "10:32 AM", "Sarah Chen", false, None),
    GroupMessage(4, "Absolutely! Can't wait to work together", "10:33 AM", "Mike Rodriguez", false, None),
    GroupMessage(5, "Should we set up a meeting for next week?", "10:34 AM", "You", true, Some(ChatScreen.Delivered)),
    GroupMessage(6, "That sounds perfect! I'm free Tuesday or Wednesday", "10:35 AM", "Emily Davis", false, None)
  ]

  const GroupResponses: seq<string> := [
    "Great idea! Let's do it",
    "Count me in!",
    "Tuesday works for me",
    "Looking forward to it!"
  ]

  /** The members who may answer, and who are shown typing. */
  const ResponseSenders: seq<string> := ["Alex Johnson", "Sarah Chen", "Mike Rodriguez"]
  const TypingAfterSend: seq<string> := ["Alex Johnson", "Sarah Chen"]

  ghost predicate IdsArePositions(ms: seq<GroupMessage>)
  {
    forall i :: 0 <= i < |ms| ==> ms[i].id == i + 1
  }

  lemma InitialIdsArePositions()
    ensures IdsArePositions(InitialMessages)
  {
  }

  /** The status map of the group timeline. */
  function WithStatus(ms: seq<GroupMessage>, id: int, status: Status): (r: seq<GroupMessage>)
    ensures |r| == |ms|
    ensures forall i :: 0 <= i < |ms| ==>
      && r[i].id == ms[i].id && r[i].text == ms[i].text && r[i].time == ms[i].time
      && r[i].sender == ms[i].sender && r[i].isSent == ms[i].isSent
    ensures forall i :: 0 <= i < |ms| ==> r[i].status == if ms[i].id == id then Some(status) else ms[i].status
  {
    seq(|ms|, i requires 0 <= i < |ms| => if ms[i].id == id then ms[i].(status := Some(status)) else ms[i])
  }

  /** On a numbered timeline only the message at position id - 1 changes. */
  lemma WithStatusAtPosition(ms: seq<GroupMessage>, id: int, status: Status)
    requires IdsArePositions(ms)
    ensures IdsArePositions(WithStatus(ms, id, status))
    ensures WithStatus(ms, id, status)
      == if 1 <= id <= |ms| then ms[id - 1 := ms[id - 1].(status := Some(status))] else ms
  {
  }

  /** Every reply is a received message from one of the three responders. */
  function Reply(ms: seq<GroupMessage>, pick: nat, senderPick: nat, now: string): (m: GroupMessage)
    requires pick < |GroupResponses| && senderPick < |ResponseSenders|
    ensures m.id == |ms| + 1 && !m.isSent && m.status == None
    ensures m.sender in ResponseSenders && m.text in GroupResponses
  {
    GroupMessage(|ms| + 1, GroupResponses[pick], now, ResponseSenders[senderPick], false, None)
  }

  // ---------------------------------------------------------------------------
  // Sender colours
  // ---------------------------------------------------------------------------

  const SenderColors: seq<string> := [
    "text-blue-400", "text-green-400", "text-purple-400",
    "text-yellow-400", "text-pink-400", "text-indigo-400"
  ]

  /** `charCodeAt(0)` of a string starting with c: the first UTF-16 code unit, which for a
      character outside the basic plane is its high surrogate. */
  function FirstCodeUnit(c: char): (u: nat)
    ensures u < 0x10000
    ensures c as int < 0x10000 ==> u == c as int
  {
    if c as int < 0x10000 then c as int else 0xD800 + (c as int - 0x10000) / 0x400
  }

  /** `getSenderColor(sender)`; the empty sender indexes the palette with NaN and gets
      `undefined`, here None. */
  function GetSenderColor(sender: string): (r: Option<string>)
    ensures r == None <==> sender == ""
    ensures r.Some? ==> r.value in SenderColors
    ensures r.Some? ==> r.value == SenderColors[FirstCodeUnit(sender[0]) % 6]
  {
    if sender == "" then None else Some(SenderColors[FirstCodeUnit(sender[0]) % |SenderColors|])
  }

  /** The colour depends on the first character only. */
  lemma SameInitialSameColor(a: string, b: string)
    requires a != "" && b != "" && a[0] == b[0]
    ensures GetSenderColor(a) == GetSenderColor(b)
  {
  }

  /** Example on the fixed senders: 'A' (65), 'M' (77), 'S' (83) and 'Y' (89) are all 5 modulo 6, so the three responders
      and "You" share one colour; 'E' (69) gives "Emily Davis" another. */
  lemma KnownSenderColors()
    ensures forall s :: s in ResponseSenders + ["You"] ==> GetSenderColor(s) == Some("text-indigo-400")
    ensures GetSenderColor("Emily Davis") == Some("text-yellow-400")
  {
  }

  // ---------------------------------------------------------------------------
  // Header subtitle and participant chips
  // ---------------------------------------------------------------------------

  /** `xs.join(sep)`. */
  function Join(xs: seq<string>, sep: string): string
  {
    if xs == [] then "" else if |xs| == 1 then xs[0] else xs[0] + sep + Join(xs[1..], sep)
  }

  /** The header subtitle: who is typing, or the participant count. */
  function Subtitle(typingUsers: seq<string>, participantCount: nat): (r: string)
  {
    if |typingUsers| > 0 then
      Join(typingUsers, ", ") + " " + (if |typingUsers| == 1 then "is" else "are") + " typing..."
    else
      NatToString(participantCount) + " participants"
  }

  /** "is" with one typer, "are" with more, the participant count with none. */
  lemma SubtitleCases(typingUsers: seq<string>, participantCount: nat)
    ensures |typingUsers| == 1 ==> Subtitle(typingUsers, participantCount) == typingUsers[0] + " is typing..."
    ensures |typingUsers| >= 2 ==> Subtitle(typingUsers, participantCount) == Join(typingUsers, ", ") + " are typing..."
    ensures typingUsers == [] ==> Subtitle(typingUsers, participantCount) == NatToString(participantCount) + " participants"
  {
  }

  /** Example of the "are" case: while the two members type, the subtitle names both. */
  lemma SubtitleAfterSend(participantCount: nat)
    ensures Subtitle(TypingAfterSend, participantCount) == "Alex Johnson, Sarah Chen are typing..."
  {
  }

  /** `participants.slice(0, 6)`. */
  function ShownParticipants(ps: seq<string>): (r: seq<string>)
    ensures |r| == if |ps| < 6 then |ps| else 6
    ensures r == ps[..|r|]
  {
    if |ps| <= 6 then ps else ps[..6]
  }

  /** The "+n more" chip, shown only when more than six participants exist. */
  function MoreChip(ps: seq<string>): (r: Option<string>)
    ensures r.Some? <==> |ps| > 6
  {
    if |ps| > 6 then Some("+" + NatToString(|ps| - 6) + " more") else None
  }

  /** The chip's number is exactly the count of participants left out of the panel. */
  lemma MoreChipCountsHidden(ps: seq<string>)
    requires |ps| > 6
    ensures var chip := MoreChip(ps).value;
      var digits := chip[1..|chip| - 5];
      && chip == "+" + digits + " more"
      && AllDigits(digits)
      && DecimalValue(digits) == |ps| - |ShownParticipants(ps)|
  {
    var digits := NatToString(|ps| - 6);
    var chip := "+" + digits + " more";
    assert chip[1..|chip| - 5] == digits;
    NatToStringRoundTrip(|ps| - 6);
  }

  // ---------------------------------------------------------------------------
  // The screen
  // ---------------------------------------------------------------------------

  class Screen {
    var message: string
    var messages: seq<GroupMessage>
    var typingUsers: seq<string>

    ghost predicate Valid()
      reads this
    {
      IdsArePositions(messages)
    }

    constructor ()
      ensures Valid() && message == "" && messages == InitialMessages && typingUsers == []
    {
      message, messages, typingUsers := "", InitialMessages, [];
    }

    method SetMessage(text: string)
      requires Valid()
      modifies this`message
      ensures Valid() && message == text
    {
      message := text;
    }

    /** `handleSendMessage`: a blank input changes nothing; otherwise "You" sends. */
    method SendMessage(now: string) returns (sentId: Option<int>)
      requires Valid()
      modifies this`messages, this`message
      ensures Valid()
      ensures IsBlank(old(message)) ==> sentId == None && messages == old(messages) && message == old(message)
      ensures !IsBlank(old(message)) ==>
        && sentId == Some(|old(messages)| + 1)
        && messages == old(messages) + [GroupMessage(|old(messages)| + 1, old(message), now, "You", true, Some(ChatScreen.Sending))]
        && message == ""
    {
      if IsBlank(message) {
        sentId := None;
      } else {
        var m := GroupMessage(|messages| + 1, message, now, "You", true, Some(ChatScreen.Sending));
        messages := messages + [m];
        message := "";
        sentId := Some(m.id);
      }
    }

    method MarkSent(id: int)
      requires Valid()
      modifies this`messages
      ensures Valid() && messages == WithStatus(old(messages), id, ChatScreen.Sent)
    {
      WithStatusAtPosition(messages, id, ChatScreen.Sent);
      messages := WithStatus(messages, id, ChatScreen.Sent);
    }

    method MarkDelivered(id: int)
      requires Valid()
      modifies this`messages
      ensures Valid() && messages == WithStatus(old(messages), id, ChatScreen.Delivered)
    {
      WithStatusAtPosition(messages, id, ChatScreen.Delivered);
      messages := WithStatus(messages, id, ChatScreen.Delivered);
    }

    method StartTyping()
      requires Valid()
      modifies this`typingUsers
      ensures Valid() && typingUsers == TypingAfterSend
    {
      typingUsers := TypingAfterSend;
    }

    /** The reply callback; `pick` and `senderPick` stand for the two random choices. */
    method ReceiveResponse(pick: nat, senderPick: nat, now: string)
      requires Valid() && pick < |GroupResponses| && senderPick < |ResponseSenders|
      modifies this`messages, this`typingUsers
      ensures Valid() && typingUsers == []
      ensures messages == old(messages) + [Reply(old(messages), pick, senderPick, now)]
    {
      typingUsers := [];
      messages := messages + [GroupMessage(|messages| + 1, GroupResponses[pick], now, ResponseSenders[senderPick], false, None)];
    }
  }
}
