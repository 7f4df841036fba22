/** The one-to-one chat timeline: sending appends a message numbered after the list, the two
    timer callbacks advance its delivery status, and a simulated reply is appended later. */
module ChatScreen {
  import opened Text
  import opened Wrappers

  datatype Status = Sending | Sent | Delivered | Read

  datatype Message = Message(id: int, text: string, time: string, isSent: bool, status: Option<Status>)

  const InitialMessages: seq<Message> := [
    Message(1, "Hey! How are you doing today?", "2:30 PM", false, None),
    Message(2, "I'm doing great, thanks for asking! How about you?", "2:31 PM", true, Some(Read)),
    Message(3, "Pretty good! Working on some exciting projects", "2:32 PM", false, None),
    Message(4, "That sounds awesome! I'd love to hear more about it", "2:33 PM", true, Some(Read)),
    Message(5, "Sure! Let's catch up soon. Are you free this weekend?", "2:34 PM", false, None),
    Message(6, "Yes, I should be free on Saturday. Want to grab coffee?", "2:35 PM", true, Some(Delivered))
  ]

  /** The canned replies, one of which is picked at random. */
  const Responses: seq<string> := [
    "That sounds perfect!",
    "Great idea! I'll see you then",
    "Looking forward to it!",
    "Awesome, let's do it!"
  ]

  /** The message at position i carries id i + 1. */
  ghost predicate IdsArePositions(ms: seq<Message>)
  {
    forall i :: 0 <= i < |ms| ==> ms[i].id == i + 1
  }

  lemma InitialIdsArePositions()
    ensures IdsArePositions(InitialMessages)
  {
  }

  /** `prev.map((msg) => msg.id === id ? { ...msg, status } : msg)`: the same messages in the
      same order, with the status of those carrying the id replaced. */
  function WithStatus(ms: seq<Message>, id: int, status: Status): (r: seq<Message>)
    ensures |r| == |ms|
    ensures forall i :: 0 <= i < |ms| ==>
      && r[i].id == ms[i].id && r[i].text == ms[i].text
      && r[i].time == ms[i].time && r[i].isSent == ms[i].isSent
    ensures forall i :: 0 <= i < |ms| ==> r[i].status == if ms[i].id == id then Some(status) else ms[i].status
  {
    seq(|ms|, i requires 0 <= i < |ms| => if ms[i].id == id then ms[i].(status := Some(status)) else ms[i])
  }

  /** On a positionally numbered timeline the update touches exactly one message, the one at
      position id - 1, and none when the id is out of range. */
  lemma WithStatusAtPosition(ms: seq<Message>, id: int, status: Status)
    requires IdsArePositions(ms)
    ensures IdsArePositions(WithStatus(ms, id, status))
    ensures WithStatus(ms, id, status)
      == if 1 <= id <= |ms| then ms[id - 1 := ms[id - 1].(status := Some(status))] else ms
  {
  }

  /** An update to anything but "read" never marks a message read. */
  lemma WithStatusNeverReads(ms: seq<Message>, id: int, status: Status)
    requires status != Read
    ensures forall i :: 0 <= i < |ms| && WithStatus(ms, id, status)[i].status == Some(Read) ==> ms[i].status == Some(Read)
  {
  }

  /** The message that a send appends to a timeline. */
  function Outgoing(ms: seq<Message>, text: string, now: string): (m: Message)
    ensures m.id == |ms| + 1 && m.isSent && m.status == Some(Sending) && m.text == text
  {
    Message(|ms| + 1, text, now, true, Some(Sending))
  }

  /** After a send on a numbered timeline, the two timer callbacks take the new message from
      "sending" through "sent" to "delivered" and leave every earlier message as it was, even
      when a reply has been appended in between. */
  lemma SendLifecycle(ms: seq<Message>, text: string, now: string, replies: seq<Message>)
    requires IdsArePositions(ms + [Outgoing(ms, text, now)] + replies)
    ensures var m := Outgoing(ms, text, now);
      var sent := WithStatus(ms + [m] + replies, m.id, Sent);
      && sent == ms + [m.(status := Some(Sent))] + replies
      && WithStatus(sent, m.id, Delivered) == ms + [m.(status := Some(Delivered))] + replies
  {
    var m := Outgoing(ms, text, now);
    var all := ms + [m] + replies;
    WithStatusAtPosition(all, m.id, Sent);
    var sent := WithStatus(all, m.id, Sent);
    assert sent == ms + [m.(status := Some(Sent))] + replies;
    WithStatusAtPosition(sent, m.id, Delivered);
    assert WithStatus(sent, m.id, Delivered) == ms + [m.(status := Some(Delivered))] + replies;
  }

  /** The reply appended by the last timer callback. */
  function Incoming(ms: seq<Message>, text: string, now: string): (m: Message)
    ensures m.id == |ms| + 1 && !m.isSent && m.status == None && m.text == text
  {
    Message(|ms| + 1, text, now, false, None)
  }

  /** Both appends keep the numbering. */
  lemma AppendKeepsNumbering(ms: seq<Message>, text: string, now: string)
    requires IdsArePositions(ms)
    ensures IdsArePositions(ms + [Outgoing(ms, text, now)])
    ensures IdsArePositions(ms + [Incoming(ms, text, now)])
  {
  }

  class Screen {
    var message: string
    var messages: seq<Message>
    var isTyping: bool

    ghost predicate Valid()
      reads this
    {
      IdsArePositions(messages)
    }

    constructor ()
      ensures Valid() && message == "" && messages == InitialMessages && !isTyping
    {
      message, messages, isTyping := "", InitialMessages, false;
    }

    method SetMessage(text: string)
      requires Valid()
      modifies this`message
      ensures Valid() && message == text
    {
      message := text;
    }

    /** `handleSendMessage`, with `now` standing for the clock string. The returned id is the
        one the status callbacks will look for. */
    method SendMessage(now: string) returns (sentId: Option<int>)
      requires Valid()
      modifies this`messages, this`message
      ensures Valid()
      ensures IsBlank(old(message)) ==> sentId == None && messages == old(messages) && message == old(message)
      ensures !IsBlank(old(message)) ==>
        && sentId == Some(|old(messages)| + 1)
        && messages == old(messages) + [Outgoing(old(messages), old(message), now)]
        && message == ""
    {
      if IsBlank(message) {
        sentId := None;
      } else {
        var m := Message(|messages| + 1, message, now, true, Some(Sending));
        messages := messages + [m];
        message := "";
        sentId := Some(m.id);
      }
    }

    /** The first status callback. */
    method MarkSent(id: int)
      requires Valid()
      modifies this`messages
      ensures Valid() && messages == WithStatus(old(messages), id, Sent)
    {
      WithStatusAtPosition(messages, id, Sent);
      messages := WithStatus(messages, id, Sent);
    }

    /** The second status callback. */
    method MarkDelivered(id: int)
      requires Valid()
      modifies this`messages
      ensures Valid() && messages == WithStatus(old(messages), id, Delivered)
    {
      WithStatusAtPosition(messages, id, Delivered);
      messages := WithStatus(messages, id, Delivered);
    }

    /** The typing-indicator callback. */
    method StartTyping()
      requires Valid()
      modifies this`isTyping
      ensures Valid() && isTyping
    {
      isTyping := true;
    }

    /** The reply callback; `pick` stands for the random choice of reply. */
    method ReceiveResponse(pick: nat, now: string)
      requires Valid() && pick < |Responses|
      modifies this`messages, this`isTyping
      ensures Valid() && !isTyping
      ensures messages == old(messages) + [Incoming(old(messages), Responses[pick], now)]
    {
      isTyping := false;
      messages := messages + [Message(|messages| + 1, Responses[pick], now, false, None)];
    }
  }
}
