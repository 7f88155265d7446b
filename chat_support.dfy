/** `ChatSupport.tsx`: the chat screen's state. Sending a message appends
    it and schedules the assistant's reply; the reply arrives as a separate
    step, two seconds later. The screen's ticket list shows a timeline of
    four dots per ticket. */
module ChatSupport {
  import opened Strings
  import Support

  datatype ChatSender = UserSide | BotSide

  datatype ChatMessage = ChatMessage(id: string, text: string, sender: ChatSender, timestamp: int)

  const WELCOME_TEXT: string :=
    "Bonjour ! Je suis votre assistant virtuel Eneo. Comment puis-je vous aider aujourd'hui ?"

  /* ---------------- the assistant's reply ---------------- */

  datatype ReplyTopic = Invoice | PowerCut | MeterQuestion | Anything

  function ReplyKeywords(t: ReplyTopic): seq<string> {
    match t
    case Invoice => ["facture", "payer"]
    case PowerCut => ["panne", "coupure"]
    case MeterQuestion => ["compteur"]
    case Anything => []
  }

  /** The lower-cased input contains one of the topic's keywords. */
  predicate Names(input: string, t: ReplyTopic) {
    exists w :: w in ReplyKeywords(t) && Contains(input, w)
  }

  /** The topic `getBotResponse` answers: the first, in the order invoice,
      power cut, meter, whose keywords the lower-cased input contains. */
  function ReplyTopicOf(userInput: string): (t: ReplyTopic)
    ensures t == Invoice <==> Names(ToLower(userInput), Invoice)
    ensures t == PowerCut <==> !Names(ToLower(userInput), Invoice) && Names(ToLower(userInput), PowerCut)
    ensures t == MeterQuestion <==>
      !Names(ToLower(userInput), Invoice) && !Names(ToLower(userInput), PowerCut)
      && Names(ToLower(userInput), MeterQuestion)
  {
    var input := ToLower(userInput);
    if Names(input, Invoice) then Invoice
    else if Names(input, PowerCut) then PowerCut
    else if Names(input, MeterQuestion) then MeterQuestion
    else Anything
  }

  /** `getBotResponse`: the answer for the input's topic. */
  function BotReply(userInput: string): (reply: string)
    ensures reply == Support.DEFAULT_ANSWER <==> ReplyTopicOf(userInput) == Anything
  {
    match ReplyTopicOf(userInput)
    case Invoice => Support.BILLING_ANSWER
    case PowerCut => Support.OUTAGE_ANSWER
    case MeterQuestion => Support.METER_ANSWER
    case Anything => Support.DEFAULT_ANSWER
  }

  /** The reply does not depend on the case of the input. */
  lemma BotReplyIgnoresCase(userInput: string)
    ensures ReplyTopicOf(ToLower(userInput)) == ReplyTopicOf(userInput)
    ensures BotReply(ToLower(userInput)) == BotReply(userInput)
  {
    ToLowerIdempotent(userInput);
  }

  /** "facture" or "payer", in any case, anywhere in the input, gets the
      invoice answer, whatever else the input says. */
  lemma InvoiceWordWins(before: string, word: string, after: string)
    requires ToLower(word) in ReplyKeywords(Invoice)
    ensures ReplyTopicOf(before + word + after) == Invoice
    ensures BotReply(before + word + after) == Support.BILLING_ANSWER
  {
    ContainsLowerInfix(before, word, after);
    assert Names(ToLower(before + word + after), Invoice);
  }

  /** "compteur" gets the meter answer unless the input also names an
      invoice or a power cut. */
  lemma MeterWordAnswered(before: string, word: string, after: string)
    requires ToLower(word) in ReplyKeywords(MeterQuestion)
    requires !Names(ToLower(before + word + after), Invoice) && !Names(ToLower(before + word + after), PowerCut)
    ensures ReplyTopicOf(before + word + after) == MeterQuestion
    ensures BotReply(before + word + after) == Support.METER_ANSWER
  {
    ContainsLowerInfix(before, word, after);
    assert Names(ToLower(before + word + after), MeterQuestion);
  }

  /* ---------------- the conversation ---------------- */

  /** The number of messages from `sender`. */
  function CountFrom(messages: seq<ChatMessage>, sender: ChatSender): (n: nat)
    ensures n <= |messages|
  {
    if messages == [] then 0
    else CountFrom(messages[..|messages| - 1], sender) + (if messages[|messages| - 1].sender == sender then 1 else 0)
  }

  lemma CountFromAppend(messages: seq<ChatMessage>, m: ChatMessage, sender: ChatSender)
    ensures CountFrom(messages + [m], sender) == CountFrom(messages, sender) + (if m.sender == sender then 1 else 0)
  {
    assert (messages + [m])[..|messages|] == messages;
  }

  class ChatScreen {
    var messages: seq<ChatMessage>
    var inputText: string
    var isTyping: bool
    /** The inputs whose replies are scheduled and not yet shown, oldest first. */
    var pendingReplies: seq<string>

    /** Every message the customer sent has its reply shown or scheduled,
        and the typing indicator shows only while a reply is scheduled. */
    predicate Valid()
      reads this
    {
      && |messages| >= 1 && messages[0].sender == BotSide
      && CountFrom(messages, UserSide) + 1 == CountFrom(messages, BotSide) + |pendingReplies|
      && (isTyping ==> pendingReplies != [])
    }

    constructor (now: int)
      ensures Valid()
      ensures messages == [ChatMessage("1", WELCOME_TEXT, BotSide, now)]
      ensures inputText == "" && !isTyping && pendingReplies == []
    {
      messages := [ChatMessage("1", WELCOME_TEXT, BotSide, now)];
      inputText := "";
      isTyping := false;
      pendingReplies := [];
    }

    /** The input field's `onChange`. */
    method SetInputText(text: string)
      requires Valid()
      modifies this
      ensures Valid()
      ensures inputText == text
      ensures messages == old(messages) && isTyping == old(isTyping) && pendingReplies == old(pendingReplies)
    {
      inputText := text;
    }

    /** `sendMessage`: a blank input changes nothing; any other input is
        appended as the customer's message, the field is cleared, and the
        reply to that input is scheduled. */
    method SendMessage(now: int)
      requires Valid()
      modifies this
      ensures Valid()
      ensures Trim(old(inputText)) == "" ==>
        messages == old(messages) && inputText == old(inputText)
        && isTyping == old(isTyping) && pendingReplies == old(pendingReplies)
      ensures Trim(old(inputText)) != "" ==>
        && messages == old(messages) + [ChatMessage(IntToString(now), old(inputText), UserSide, now)]
        && inputText == "" && isTyping
        && pendingReplies == old(pendingReplies) + [old(inputText)]
    {
      if Trim(inputText) == "" {
        return;
      }
      var userMessage := ChatMessage(IntToString(now), inputText, UserSide, now);
      CountFromAppend(messages, userMessage, UserSide);
      CountFromAppend(messages, userMessage, BotSide);
      messages := messages + [userMessage];
      pendingReplies := pendingReplies + [inputText];
      inputText := "";
      isTyping := true;
    }

    /** The scheduled reply fires at `now`: the oldest pending input gets
        its answer, and the typing indicator goes off. */
    method ReplyArrives(now: int)
      requires Valid()
      modifies this
      ensures Valid()
      ensures old(pendingReplies) == [] ==>
        messages == old(messages) && isTyping == old(isTyping) && pendingReplies == []
      ensures old(pendingReplies) != [] ==>
        && messages == old(messages) + [ChatMessage(IntToString(now + 1), BotReply(old(pendingReplies)[0]), BotSide, now)]
        && pendingReplies == old(pendingReplies)[1..]
        && !isTyping
      ensures inputText == old(inputText)
    {
      if pendingReplies == [] {
        return;
      }
      var reply := ChatMessage(IntToString(now + 1), BotReply(pendingReplies[0]), BotSide, now);
      CountFromAppend(messages, reply, UserSide);
      CountFromAppend(messages, reply, BotSide);
      messages := messages + [reply];
      pendingReplies := pendingReplies[1..];
      isTyping := false;
    }
  }

  /* ---------------- the ticket list ---------------- */

  /** `getStatusText`: unknown statuses are shown as they are. */
  function StatusText(status: string): (text: string)
    ensures status !in {"open", "assigned", "in-progress", "resolved"} ==> text == status
    ensures status in {"open", "assigned", "in-progress", "resolved"} ==> text != status
  {
    if status == "open" then "Ouvert"
    else if status == "assigned" then "Assigné"
    else if status == "in-progress" then "En cours"
    else if status == "resolved" then "Résolu"
    else status
  }

  const DEFAULT_PRIORITY_COLOR: string := "bg-gray-100 text-gray-800"

  /** `getPriorityColor`: unknown priorities are grey, known ones are not. */
  function PriorityColor(priority: string): (color: string)
    ensures color == DEFAULT_PRIORITY_COLOR <==> priority !in {"high", "medium", "low"}
  {
    if priority == "high" then "bg-red-100 text-red-800"
    else if priority == "medium" then "bg-orange-100 text-orange-800"
    else if priority == "low" then "bg-green-100 text-green-800"
    else DEFAULT_PRIORITY_COLOR
  }

  /** How far a ticket has progressed: open 0, assigned 1, in progress 2,
      resolved 3; an unknown status counts as open. */
  function Stage(status: string): (s: nat)
    ensures s <= 3
  {
    if status == "assigned" then 1
    else if status == "in-progress" then 2
    else if status == "resolved" then 3
    else 0
  }

  /** The timeline: which of the four dots are lit for a ticket's status. */
  function TimelineDots(status: string): (dots: seq<bool>)
    ensures |dots| == 4 && dots[0]
    ensures dots[3] <==> status == "resolved"
    ensures forall i, j :: 0 <= i < j < 4 && dots[j] ==> dots[i]
  {
    [true,
     status == "assigned" || status == "in-progress" || status == "resolved",
     status == "in-progress" || status == "resolved",
     status == "resolved"]
  }

  /** The lit dots are exactly the first `Stage(status) + 1`. */
  lemma DotsShowStage(status: string)
    ensures forall i :: 0 <= i < 4 ==> (TimelineDots(status)[i] <==> i <= Stage(status))
  {
  }
}
