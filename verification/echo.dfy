/**
 The Echo backend: a testing backend with two counters that greets with a
 fixed text and replies with exactly the message it was sent.
 */
module Echo {
  import opened Chat
  import opened Decimal

  const EchoName: string := "echo-backend"
  const Greeting: string := "welcome to the echo chamber."

  /** The backend's whole state: the last message number and the next chat number. */
  datatype EchoState = EchoState(messageID: nat, chatID: nat)

  /** A freshly constructed backend. */
  const Fresh: EchoState := EchoState(0, 0)

  /** The state after one operation and the response it produced. */
  datatype Step = Step(state: EchoState, response: ChatResponse)

  /** Every Echo response names the backend and carries no image. */
  predicate FromEcho(r: ChatResponse) {
    r.characterId == EchoName && r.srcName == EchoName && r.imageRelativePath == None
  }

  /** `start`: greets, reports the current message number unchanged and the
      chat number before it is advanced, then advances the chat number. */
  function Start(s: EchoState): (t: Step)
    ensures FromEcho(t.response) && t.response.text == Greeting
    ensures ParseNat(t.response.id) == Some(s.messageID)
    ensures ParseNat(t.response.chatId) == Some(s.chatID)
    ensures Canonical(t.response.id) && Canonical(t.response.chatId)
    ensures t.state.messageID == s.messageID
    ensures t.state.chatID == s.chatID + 1
  {
    ParseRendered(s.messageID);
    ParseRendered(s.chatID);
    Step(EchoState(s.messageID, s.chatID + 1),
         ChatResponse(NatToString(s.messageID), EchoName, NatToString(s.chatID), None, EchoName, Greeting))
  }

  /** `receive`: advances the message number first and reports the advanced
      value, reports the current chat number, and echoes the message verbatim. */
  function Receive(s: EchoState, message: string): (t: Step)
    ensures FromEcho(t.response) && t.response.text == message
    ensures ParseNat(t.response.id) == Some(s.messageID + 1)
    ensures ParseNat(t.response.chatId) == Some(s.chatID)
    ensures Canonical(t.response.id) && Canonical(t.response.chatId)
    ensures t.state.messageID == s.messageID + 1
    ensures t.state.chatID == s.chatID
  {
    var next := s.messageID + 1;
    ParseRendered(next);
    ParseRendered(s.chatID);
    Step(EchoState(next, s.chatID),
         ChatResponse(NatToString(next), EchoName, NatToString(s.chatID), None, EchoName, message))
  }

  /** One call made on the backend. */
  datatype Event = Begin | Say(message: string)

  /** The final state and the responses, in order, of a sequence of calls. */
  datatype Trace = Trace(state: EchoState, responses: seq<ChatResponse>)

  function Apply(s: EchoState, e: Event): Step {
    match e
    case Begin => Start(s)
    case Say(m) => Receive(s, m)
  }

  function Run(s: EchoState, events: seq<Event>): (tr: Trace)
    ensures |tr.responses| == |events|
    decreases |events|
  {
    if |events| == 0 then Trace(s, [])
    else
      var t := Apply(s, events[0]);
      var rest := Run(t.state, events[1..]);
      Trace(rest.state, [t.response] + rest.responses)
  }

  function CountBegins(events: seq<Event>): nat {
    if |events| == 0 then 0 else (if events[0].Begin? then 1 else 0) + CountBegins(events[1..])
  }

  function CountSays(events: seq<Event>): nat {
    if |events| == 0 then 0 else (if events[0].Say? then 1 else 0) + CountSays(events[1..])
  }

  /** The chat number moves only on `start` and the message number only on
      `receive`, each by exactly one per call; neither ever decreases. */
  lemma {:induction false} RunCounters(s: EchoState, events: seq<Event>)
    ensures Run(s, events).state.chatID == s.chatID + CountBegins(events)
    ensures Run(s, events).state.messageID == s.messageID + CountSays(events)
    decreases |events|
  {
    if |events| > 0 {
      RunCounters(Apply(s, events[0]).state, events[1..]);
    }
  }

  /** A run of `receive` calls: reply `i` echoes message `i`, is numbered `i + 1`
      past the starting message number, and reports the starting chat number. */
  lemma {:induction false} ReceivesOnly(s: EchoState, events: seq<Event>, i: nat)
    requires forall k :: 0 <= k < |events| ==> events[k].Say?
    requires i < |events|
    ensures FromEcho(Run(s, events).responses[i])
    ensures Run(s, events).responses[i].text == events[i].message
    ensures ParseNat(Run(s, events).responses[i].id) == Some(s.messageID + i + 1)
    ensures ParseNat(Run(s, events).responses[i].chatId) == Some(s.chatID)
    decreases i
  {
    var t := Receive(s, events[0].message);
    var tail := events[1..];
    assert Run(s, events).responses == [t.response] + Run(t.state, tail).responses;
    if i > 0 {
      ReceivesOnly(t.state, tail, i - 1);
      assert tail[i - 1] == events[i];
    }
  }

  /** After a `start`, every reply up to the next `start` reports a chat number
      one greater than the greeting's (the greeting reads the counter before
      advancing it, the replies after). */
  lemma SessionChatId(s: EchoState, events: seq<Event>)
    requires |events| > 0 && events[0] == Begin
    requires forall i :: 1 <= i < |events| ==> events[i].Say?
    ensures var rs := Run(s, events).responses;
      && rs[0].text == Greeting
      && ParseNat(rs[0].chatId) == Some(s.chatID)
      && forall i :: 1 <= i < |events| ==> ParseNat(rs[i].chatId) == Some(s.chatID + 1)
  {
    var t := Start(s);
    var tail := events[1..];
    var rs := Run(s, events).responses;
    assert rs == [t.response] + Run(t.state, tail).responses;
    forall i | 1 <= i < |events|
      ensures ParseNat(rs[i].chatId) == Some(s.chatID + 1)
    {
      ReceivesOnly(t.state, tail, i - 1);
    }
  }

  /** Within one run of `receive` calls no two replies share an id. */
  lemma ReplyIdsDistinct(s: EchoState, events: seq<Event>, i: nat, j: nat)
    requires forall k :: 0 <= k < |events| ==> events[k].Say?
    requires i < j < |events|
    ensures Run(s, events).responses[i].id != Run(s, events).responses[j].id
  {
    ReceivesOnly(s, events, i);
    ReceivesOnly(s, events, j);
  }

  /** The sample session: start, receive "hi", start again. */
  lemma SampleSession()
    ensures var rs := Run(Fresh, [Begin, Say("hi"), Begin]).responses;
      && rs[0].id == "0" && rs[0].chatId == "0" && rs[0].text == Greeting
      && rs[1].id == "1" && rs[1].chatId == "1" && rs[1].text == "hi"
      && rs[2].id == "1" && rs[2].chatId == "1" && rs[2].text == Greeting
  {
    var events := [Begin, Say("hi"), Begin];
    assert events[1..] == [Say("hi"), Begin];
    assert events[1..][1..] == [Begin];
    assert NatToString(0) == "0";
    assert NatToString(1) == "1";
  }
}
