/**
  The chat box (src/components/ChatBox.jsx; src/test.jsx holds the same
  message list, send handler and reply timer without the feedback part). The
  message list grows by appended copies; a send appends the user's message at
  once and schedules one canned bot reply, which arrives when its timer
  fires; like and dislike set a flag on one message in place.
 */
module Chat {
  import opened Text

  datatype Sender = User | Bot

  /** A message as rendered. `like` and `dislike` are absent (falsy) until a
      handler sets them. */
  datatype Message = Message(sender: Sender, text: string, time: string, like: bool, dislike: bool)

  /** The canned reply every timer appends. */
  const BotReply := "This is where information from AI will come in. \U{1F60A}"

  /** The list the chat box starts with: one user message, then one bot
      message, neither liked nor disliked. */
  function InitialMessages(): (r: seq<Message>)
    ensures |r| == 2 && r[0].sender == User && r[1].sender == Bot
    ensures forall i :: 0 <= i < |r| ==> !r[i].like && !r[i].dislike
  {
    [ Message(User, "Can you answer my question?", "12:46", false, false),
      Message(Bot, "Of course, ask me.", "12:45", false, false) ]
  }

  /** The number of messages from `sender`. */
  function Count(ms: seq<Message>, sender: Sender): nat
  {
    if ms == [] then 0 else (if ms[0].sender == sender then 1 else 0) + Count(ms[1..], sender)
  }

  lemma {:induction false} CountAppend(ms: seq<Message>, m: Message, sender: Sender)
    ensures Count(ms + [m], sender) == Count(ms, sender) + if m.sender == sender then 1 else 0
  {
    if ms != [] {
      assert (ms + [m])[1..] == ms[1..] + [m];
      CountAppend(ms[1..], m, sender);
    }
  }

  /** Replacing a message by one from the same sender keeps every count. */
  lemma {:induction false} CountUpdate(ms: seq<Message>, i: nat, m: Message, sender: Sender)
    requires i < |ms| && m.sender == ms[i].sender
    ensures Count(ms[i := m], sender) == Count(ms, sender)
  {
    if i > 0 {
      assert ms[i := m][1..] == ms[1..][i - 1 := m];
      CountUpdate(ms[1..], i - 1, m, sender);
    }
  }

  class ChatBox {
    var messages: seq<Message>
    var input: string
    var isTyping: bool
    var feedback: string
    var showFeedbackModal: bool
    /** Reply timers scheduled by a send and not yet fired. */
    var pendingReplies: nat

    /** Every user message is answered by one bot message, already appended
        or pending on a timer, and the typing indicator is never shown while
        no reply is pending. */
    ghost predicate Valid()
      reads this
    {
      && (isTyping ==> pendingReplies > 0)
      && Count(messages, User) == Count(messages, Bot) + pendingReplies
    }

    constructor ()
      ensures Valid()
      ensures messages == InitialMessages() && input == "" && !isTyping
      ensures feedback == "" && !showFeedbackModal && pendingReplies == 0
    {
      messages := InitialMessages();
      input := "";
      isTyping := false;
      feedback := "";
      showFeedbackModal := false;
      pendingReplies := 0;
    }

    /** The input field's change handler. */
    method SetInput(text: string)
      requires Valid()
      modifies this
      ensures Valid()
      ensures input == text
      ensures messages == old(messages) && isTyping == old(isTyping) && pendingReplies == old(pendingReplies)
      ensures feedback == old(feedback) && showFeedbackModal == old(showFeedbackModal)
    {
      input := text;
    }

    /** `handleSend`: a blank input (whitespace only, as `trim` sees it)
        changes nothing. Otherwise the untrimmed input is appended as a user
        message stamped `time`, the input is cleared, the typing indicator
        goes on and one reply timer is scheduled. */
    method HandleSend(time: string) returns (sent: bool)
      requires Valid()
      modifies this
      ensures Valid()
      ensures sent <==> !AllWhitespace(old(input))
      ensures !sent ==>
        && messages == old(messages) && input == old(input)
        && isTyping == old(isTyping) && pendingReplies == old(pendingReplies)
      ensures sent ==>
        && messages == old(messages) + [Message(User, old(input), time, false, false)]
        && input == "" && isTyping && pendingReplies == old(pendingReplies) + 1
      ensures feedback == old(feedback) && showFeedbackModal == old(showFeedbackModal)
    {
      if Trim(input) == "" {
        sent := false;
        return;
      }
      var newMessage := Message(User, input, time, false, false);
      CountAppend(messages, newMessage, User);
      CountAppend(messages, newMessage, Bot);
      messages := messages + [newMessage];
      input := "";
      isTyping := true;
      pendingReplies := pendingReplies + 1;
      sent := true;
    }

    /** One reply timer fires: the canned bot reply stamped `time` is
        appended and the typing indicator goes off, even when further replies
        are still pending. */
    method TimerFires(time: string)
      requires Valid() && pendingReplies > 0
      modifies this
      ensures Valid()
      ensures messages == old(messages) + [Message(Bot, BotReply, time, false, false)]
      ensures !isTyping && pendingReplies == old(pendingReplies) - 1
      ensures input == old(input) && feedback == old(feedback) && showFeedbackModal == old(showFeedbackModal)
    {
      var reply := Message(Bot, BotReply, time, false, false);
      CountAppend(messages, reply, User);
      CountAppend(messages, reply, Bot);
      messages := messages + [reply];
      isTyping := false;
      pendingReplies := pendingReplies - 1;
    }

    /** `handleLike(i)`: message `i` is marked liked; its `dislike` flag and
        every other message stay as they were. */
    method HandleLike(i: nat)
      requires Valid() && i < |messages|
      modifies this
      ensures Valid()
      ensures messages == old(messages)[i := old(messages)[i].(like := true)]
      ensures input == old(input) && isTyping == old(isTyping) && pendingReplies == old(pendingReplies)
      ensures feedback == old(feedback) && showFeedbackModal == old(showFeedbackModal)
    {
      var liked := messages[i].(like := true);
      CountUpdate(messages, i, liked, User);
      CountUpdate(messages, i, liked, Bot);
      messages := messages[i := liked];
    }

    /** `handleDislike(i)`: message `i` is marked disliked (its `like` flag
        stays), the feedback text is cleared and the feedback modal opens. */
    method HandleDislike(i: nat)
      requires Valid() && i < |messages|
      modifies this
      ensures Valid()
      ensures messages == old(messages)[i := old(messages)[i].(dislike := true)]
      ensures feedback == "" && showFeedbackModal
      ensures input == old(input) && isTyping == old(isTyping) && pendingReplies == old(pendingReplies)
    {
      var disliked := messages[i].(dislike := true);
      CountUpdate(messages, i, disliked, User);
      CountUpdate(messages, i, disliked, Bot);
      messages := messages[i := disliked];
      feedback := "";
      showFeedbackModal := true;
    }

    /** The feedback text area's change handler. */
    method SetFeedback(text: string)
      requires Valid()
      modifies this
      ensures Valid()
      ensures feedback == text
      ensures messages == old(messages) && input == old(input) && isTyping == old(isTyping)
      ensures pendingReplies == old(pendingReplies) && showFeedbackModal == old(showFeedbackModal)
    {
      feedback := text;
    }

    /** `handleSubmitFeedback`: only closes the modal; the feedback text is
        not attached to any message. */
    method HandleSubmitFeedback()
      requires Valid()
      modifies this
      ensures Valid()
      ensures !showFeedbackModal
      ensures messages == old(messages) && input == old(input) && isTyping == old(isTyping)
      ensures pendingReplies == old(pendingReplies) && feedback == old(feedback)
    {
      showFeedbackModal := false;
    }

    /** The modal's Close button: hides the modal and nothing else. */
    method CloseFeedbackModal()
      requires Valid()
      modifies this
      ensures Valid()
      ensures !showFeedbackModal
      ensures messages == old(messages) && input == old(input) && isTyping == old(isTyping)
      ensures pendingReplies == old(pendingReplies) && feedback == old(feedback)
    {
      showFeedbackModal := false;
    }
  }

  /** Like and dislike are not exclusive: liking the initial bot message and
      then disliking it leaves both flags set. */
  method LikeThenDislikeSetsBoth() returns (like: bool, dislike: bool)
    ensures like && dislike
  {
    var chat := new ChatBox();
    chat.HandleLike(1);
    chat.HandleDislike(1);
    like := chat.messages[1].like;
    dislike := chat.messages[1].dislike;
  }

  /** A send followed by its timer leaves the list two messages longer: the
      user's text, then the canned reply, with the typing indicator off. */
  method SendThenReply(text: string, sendTime: string, replyTime: string) returns (added: seq<Message>, typing: bool)
    ensures AllWhitespace(text) ==> added == [] && !typing
    ensures !AllWhitespace(text) ==>
      added == [Message(User, text, sendTime, false, false), Message(Bot, BotReply, replyTime, false, false)] && !typing
  {
    var chat := new ChatBox();
    chat.SetInput(text);
    var sent := chat.HandleSend(sendTime);
    if sent {
      chat.TimerFires(replyTime);
    }
    added := chat.messages[|InitialMessages()|..];
    typing := chat.isTyping;
  }
}
