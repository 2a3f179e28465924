/**
 Multi-turn behaviour of the OLlama backend: what a sequence of `receive`
 calls does to the transcript and what each call sends upstream.
 */
module OLlamaSession {
  import opened Chat
  import opened OLlama

  /** One `receive` call: the user's message and what the endpoint did with it. */
  datatype Exchange = Exchange(message: string, upstream: Upstream)

  /** The final state and, per call, the request sent and the result returned. */
  datatype Conversation = Conversation(
    state: OLlamaState,
    requests: seq<Option<ChatRequest>>,
    responses: seq<Result<ChatResponse, Rejection>>
  )

  function Converse(s: OLlamaState, xs: seq<Exchange>): (c: Conversation)
    ensures |c.requests| == |xs| && |c.responses| == |xs|
    ensures c.state.config == s.config
    decreases |xs|
  {
    if |xs| == 0 then Conversation(s, [], [])
    else
      var t := Receive(s, xs[0].message, xs[0].upstream);
      var rest := Converse(t.state, xs[1..]);
      Conversation(rest.state, [t.request] + rest.requests, [t.response] + rest.responses)
  }

  /** The entries one exchange adds to a started transcript: the user entry
      (absent for the empty message) and then the reply (absent when none came). */
  function Entries(x: Exchange): seq<Message> {
    UserEntries(x.message) + ReplyEntries(x.upstream)
  }

  function Appended(xs: seq<Exchange>): seq<Message>
    decreases |xs|
  {
    if |xs| == 0 then [] else Entries(xs[0]) + Appended(xs[1..])
  }

  /** Regrouping concatenations, stated once so proofs need not rediscover it. */
  lemma Associate<T>(a: seq<T>, b: seq<T>, c: seq<T>)
    ensures a + b + c == a + (b + c)
  {
  }

  lemma Regroup<T>(a: seq<T>, b: seq<T>, c: seq<T>, d: seq<T>)
    ensures a + b + c + d == a + (b + c) + d
  {
  }

  /** One call on a started transcript appends exactly that exchange's entries
      and sends the old transcript plus its user entry. */
  lemma ReceiveAppends(s: OLlamaState, x: Exchange)
    requires Started(s)
    ensures var t := Receive(s, x.message, x.upstream);
      && Started(t.state)
      && t.state.messages.value == s.messages.value + Entries(x)
      && t.request.Some?
      && t.request.value.messages == s.messages.value + UserEntries(x.message)
      && (t.response.Success? <==> x.upstream.Answered?)
  {
  }

  /** Once started, a conversation only ever appends: the transcript after the
      calls is the one before followed by each exchange's entries, in call order. */
  lemma {:induction false} ConverseTranscript(s: OLlamaState, xs: seq<Exchange>)
    requires Started(s)
    ensures Started(Converse(s, xs).state)
    ensures Converse(s, xs).state.messages.value == s.messages.value + Appended(xs)
    decreases |xs|
  {
    if |xs| > 0 {
      ReceiveAppends(s, xs[0]);
      var t := Receive(s, xs[0].message, xs[0].upstream);
      ConverseTranscript(t.state, xs[1..]);
      assert Converse(s, xs).state == Converse(t.state, xs[1..]).state;
      Associate(s.messages.value, Entries(xs[0]), Appended(xs[1..]));
    }
  }

  /** The entries of the first `k` exchanges are the first exchange's entries
      followed by those of the next `k - 1`. */
  lemma AppendedFirst(xs: seq<Exchange>, k: nat)
    requires 0 < k <= |xs|
    ensures Appended(xs[..k]) == Entries(xs[0]) + Appended(xs[1..][..k - 1])
  {
    assert xs[..k][1..] == xs[1..][..k - 1];
  }

  /** Call `k` of a started conversation sends the transcript left by calls
      `0..k-1` plus its own user entry. */
  lemma {:induction false} ConverseRequests(s: OLlamaState, xs: seq<Exchange>, k: nat)
    requires Started(s)
    requires k < |xs|
    ensures Converse(s, xs).requests[k].Some?
    ensures Converse(s, xs).requests[k].value.messages == s.messages.value + Appended(xs[..k]) + UserEntries(xs[k].message)
    decreases k
  {
    ReceiveAppends(s, xs[0]);
    var t := Receive(s, xs[0].message, xs[0].upstream);
    var tail := xs[1..];
    var rest := Converse(t.state, tail);
    assert Converse(s, xs).requests == [t.request] + rest.requests;
    if k == 0 {
      assert xs[..0] == [];
    } else {
      ConverseRequests(t.state, tail, k - 1);
      AppendedFirst(xs, k);
      assert tail[k - 1] == xs[k];
      Regroup(s.messages.value, Entries(xs[0]), Appended(tail[..k - 1]), UserEntries(xs[k].message));
    }
  }

  /** Call `k` of a started conversation succeeds exactly when its reply arrived. */
  lemma {:induction false} ConverseResponses(s: OLlamaState, xs: seq<Exchange>, k: nat)
    requires Started(s)
    requires k < |xs|
    ensures Converse(s, xs).responses[k].Success? <==> xs[k].upstream.Answered?
    decreases k
  {
    ReceiveAppends(s, xs[0]);
    var t := Receive(s, xs[0].message, xs[0].upstream);
    var tail := xs[1..];
    assert Converse(s, xs).responses == [t.response] + Converse(t.state, tail).responses;
    if k > 0 {
      ConverseResponses(t.state, tail, k - 1);
      assert tail[k - 1] == xs[k];
    }
  }

  /** A started transcript is never cut back: it stays a prefix of every later one. */
  lemma ConverseKeepsPrefix(s: OLlamaState, xs: seq<Exchange>)
    requires Started(s)
    ensures Started(Converse(s, xs).state)
    ensures s.messages.value <= Converse(s, xs).state.messages.value
  {
    ConverseTranscript(s, xs);
  }

  /** After a successful `start`, the system prompts, the initial prompt, the
      greeting and the post-introduction prompts stay at the head of the
      transcript, in that order, for the rest of the session. */
  lemma SessionKeepsPreamble(s: OLlamaState, greeting: Message, createdAt: string, xs: seq<Exchange>)
    ensures Started(Converse(Start(s, Answered(greeting, createdAt)).state, xs).state)
    ensures var started := Start(s, Answered(greeting, createdAt)).state;
      var c := s.config;
      SystemMessages(c.systemPrompts) + [UserMessage(c.initialPrompt), greeting]
        + SystemMessages(c.postIntroductionSystemPrompts)
        <= Converse(started, xs).state.messages.value
  {
    var c := s.config;
    var t := Start(s, Answered(greeting, createdAt));
    assert t.request.value.messages == GreetingTranscript(c);
    var preamble := SystemMessages(c.systemPrompts) + [UserMessage(c.initialPrompt), greeting]
                      + SystemMessages(c.postIntroductionSystemPrompts);
    assert t.state.messages.value == preamble;
    ConverseKeepsPrefix(t.state, xs);
  }

  /** Before any `start`, every call is rejected, sends nothing and changes nothing. */
  lemma {:induction false} UnstartedRejectsAll(s: OLlamaState, xs: seq<Exchange>)
    requires !Started(s)
    ensures var c := Converse(s, xs);
      && c.state == s
      && forall k :: 0 <= k < |xs| ==> c.requests[k] == None && c.responses[k] == Failure(NotStarted)
    decreases |xs|
  {
    if |xs| > 0 {
      UnstartedRejectsAll(s, xs[1..]);
      var c := Converse(s, xs);
      var rest := Converse(s, xs[1..]);
      assert c.requests == [None] + rest.requests;
      assert c.responses == [Failure(NotStarted)] + rest.responses;
    }
  }

  function SampleInit(): Initialized {
    Initialize("http://localhost:11434/", "neural-chat", ["A", ""], "B", ["C"])
  }

  /** The sample session's opening: pre-introduction prompts "A" and "",
      initial prompt "B", post-introduction prompt "C". The empty prompt is
      dropped, the greeting request holds no post-introduction prompt, and
      "C" follows the greeting in the transcript. */
  lemma SampleGreeting(reply1: Message)
    ensures SampleInit().pull == PullRequest("http://localhost:11434/api/pull", "neural-chat")
    ensures Start(SampleInit().state, Answered(reply1, "t1")).request.value.messages
         == [SystemMessage("A"), UserMessage("B")]
    ensures Start(SampleInit().state, Answered(reply1, "t1")).state.messages
         == Some([SystemMessage("A"), UserMessage("B"), reply1, SystemMessage("C")])
  {
    var init := SampleInit();
    assert init.state.config.systemPrompts == ["A"] by {
      var ps: seq<string> := ["A", ""];
      assert ps[1..] == [""];
      assert ps[1..][1..] == [];
    }
    var a, b, c := SystemMessage("A"), UserMessage("B"), SystemMessage("C");
    assert SystemMessages(["A"]) == [a];
    assert SystemMessages(["C"]) == [c];
    var greet := Start(init.state, Answered(reply1, "t1"));
    assert greet.request.value.messages == [a, b];
    assert greet.state.messages.value == [a, b] + [reply1] + [c];
    assert [a, b] + [reply1] + [c] == [a, b, reply1, c];
    assert init.pull.url == "http://localhost:11434/" + "api/pull" == "http://localhost:11434/api/pull";
  }

  /** The whole sample session: the opening as in `SampleGreeting`, then
      `receive "D"` sends the four-entry transcript plus the user entry, and
      the reply ends the transcript. */
  lemma SampleSession(reply1: Message, reply2: Message)
    ensures Start(SampleInit().state, Answered(reply1, "t1")).request.value.messages
         == [SystemMessage("A"), UserMessage("B")]
    ensures Start(SampleInit().state, Answered(reply1, "t1")).state.messages
         == Some([SystemMessage("A"), UserMessage("B"), reply1, SystemMessage("C")])
    ensures var greet := Start(SampleInit().state, Answered(reply1, "t1"));
      var answer := Receive(greet.state, "D", Answered(reply2, "t2"));
      && answer.request.value.messages
           == [SystemMessage("A"), UserMessage("B"), reply1, SystemMessage("C"), UserMessage("D")]
      && answer.state.messages
           == Some([SystemMessage("A"), UserMessage("B"), reply1, SystemMessage("C"), UserMessage("D"), reply2])
      && answer.response.value.id == "t2" && answer.response.value.srcName == "ollama-neural-chat"
  {
    SampleGreeting(reply1);
    var a, b, c, d := SystemMessage("A"), UserMessage("B"), SystemMessage("C"), UserMessage("D");
    var greet := Start(SampleInit().state, Answered(reply1, "t1"));
    var answer := Receive(greet.state, "D", Answered(reply2, "t2"));
    assert answer.request.value.messages == [a, b, reply1, c] + [d];
    assert answer.state.messages.value == [a, b, reply1, c] + [d] + [reply2];
    assert [a, b, reply1, c] + [d] == [a, b, reply1, c, d];
    assert [a, b, reply1, c] + [d] + [reply2] == [a, b, reply1, c, d, reply2];
  }
}
