/**
 The OLlama backend: keeps the whole conversation as a role-tagged
 transcript, replays it to the completion endpoint on every turn, and
 injects configured system prompts around the greeting. The network
 round trip is factored out: each operation takes the endpoint's reply
 (or its absence) as an argument and returns the request it would send.
 */
module OLlama {
  import opened Chat

  /** Settings fixed by `initialize`. */
  datatype Config = Config(
    baseURL: string,
    model: string,
    systemPrompts: seq<string>,
    initialPrompt: string,
    postIntroductionSystemPrompts: seq<string>
  )

  /** The transcript is `None` until the first `start`. */
  datatype OLlamaState = OLlamaState(config: Config, messages: Option<seq<Message>>)

  predicate Started(s: OLlamaState) {
    s.messages.Some?
  }

  /** The body of the "ensure the model is available" request. */
  datatype PullRequest = PullRequest(url: string, name: string)

  /** The body of a chat-completion request. */
  datatype ChatRequest = ChatRequest(
    url: string,
    model: string,
    stream: bool,
    temperature: int,
    messages: seq<Message>
  )

  /** What came back from the completion endpoint: a reply message and its
      creation timestamp, or nothing usable (network error, unreadable body). */
  datatype Upstream = Answered(message: Message, createdAt: string) | Unavailable

  datatype Initialized = Initialized(state: OLlamaState, pull: PullRequest)

  /** The state after one operation, the completion request it sent (if it
      got that far), and what it returned to the caller. */
  datatype Turn = Turn(state: OLlamaState, request: Option<ChatRequest>, response: Result<ChatResponse, Rejection>)

  const PullPath: string := "api/pull"
  const ChatPath: string := "api/chat"
  const SourcePrefix: string := "ollama-"

  /** `a` can be obtained from `b` by deleting entries: order is kept. */
  ghost predicate IsSubsequence<T>(a: seq<T>, b: seq<T>)
    decreases |b|
  {
    |a| == 0 || (|b| > 0 && ((a[0] == b[0] && IsSubsequence(a[1..], b[1..])) || IsSubsequence(a, b[1..])))
  }

  /** The prompts that are truthy, i.e. non-empty, in their original order. */
  function KeepNonEmpty(prompts: seq<string>): (kept: seq<string>)
    ensures forall i :: 0 <= i < |kept| ==> kept[i] != ""
    ensures multiset(kept) == multiset(prompts)["" := 0]
    ensures IsSubsequence(kept, prompts)
    decreases |prompts|
  {
    if |prompts| == 0 then []
    else
      assert prompts == [prompts[0]] + prompts[1..];
      if prompts[0] != "" then [prompts[0]] + KeepNonEmpty(prompts[1..])
      else KeepNonEmpty(prompts[1..])
  }

  /** Deleting entries never adds occurrences. */
  lemma {:induction false} SubsequenceMultiset<T>(a: seq<T>, b: seq<T>)
    ensures IsSubsequence(a, b) ==> multiset(a) <= multiset(b)
    decreases |b|
  {
    if IsSubsequence(a, b) && |a| > 0 {
      assert b == [b[0]] + b[1..];
      if a[0] == b[0] && IsSubsequence(a[1..], b[1..]) {
        SubsequenceMultiset(a[1..], b[1..]);
        assert a == [a[0]] + a[1..];
      } else {
        SubsequenceMultiset(a, b[1..]);
      }
    }
  }

  /** A non-empty first prompt must be the first entry of any order-preserving
      selection that keeps every non-empty prompt. */
  lemma HeadKept(kept: seq<string>, prompts: seq<string>)
    requires |prompts| > 0 && prompts[0] != ""
    requires multiset(kept) == multiset(prompts)["" := 0]
    requires IsSubsequence(kept, prompts)
    ensures |kept| > 0 && kept[0] == prompts[0] && IsSubsequence(kept[1..], prompts[1..])
  {
    var p, rest := prompts[0], prompts[1..];
    assert prompts == [p] + rest;
    SubsequenceMultiset(kept, rest);
    assert multiset(kept)[p] == multiset(rest)[p] + 1;
    if !(|kept| > 0 && kept[0] == p && IsSubsequence(kept[1..], rest)) {
      assert false;
    }
  }

  /** Removing the same non-empty head from both sides keeps the counts equal. */
  lemma DropHeadCounts(kept: seq<string>, prompts: seq<string>)
    requires |prompts| > 0 && prompts[0] != ""
    requires |kept| > 0 && kept[0] == prompts[0]
    requires multiset(kept) == multiset(prompts)["" := 0]
    ensures multiset(kept[1..]) == multiset(prompts[1..])["" := 0]
  {
    var p, rest := prompts[0], prompts[1..];
    assert prompts == [p] + rest;
    assert kept == [p] + kept[1..];
    forall x ensures multiset(kept[1..])[x] == multiset(rest)["" := 0][x] {
      assert multiset(kept)[x] == multiset{p}[x] + multiset(kept[1..])[x];
    }
  }

  /** The filter is pinned down by its contract: the only order-preserving
      selection of `prompts` that holds every non-empty prompt as often as
      `prompts` does, and nothing else, is `KeepNonEmpty(prompts)`. */
  lemma {:induction false} KeepNonEmptyUnique(kept: seq<string>, prompts: seq<string>)
    requires forall i :: 0 <= i < |kept| ==> kept[i] != ""
    requires multiset(kept) == multiset(prompts)["" := 0]
    requires IsSubsequence(kept, prompts)
    ensures kept == KeepNonEmpty(prompts)
    decreases |prompts|
  {
    if |prompts| > 0 {
      var p, rest := prompts[0], prompts[1..];
      assert prompts == [p] + rest;
      if p == "" {
        assert multiset(prompts)["" := 0] == multiset(rest)["" := 0];
        assert !(|kept| > 0 && kept[0] == p);
        KeepNonEmptyUnique(kept, rest);
      } else {
        HeadKept(kept, prompts);
        DropHeadCounts(kept, prompts);
        KeepNonEmptyUnique(kept[1..], rest);
        assert kept == [p] + kept[1..];
      }
    }
  }

  /** `initialize`: stores the configuration, dropping empty pre-introduction
      prompts (but not empty post-introduction ones), and asks for the model
      to be pulled. No transcript exists yet. */
  function Initialize(
    baseURL: string,
    model: string,
    systemPrompts: seq<string>,
    initialPrompt: string,
    postIntroductionSystemPrompts: seq<string>
  ): (r: Initialized)
    ensures !Started(r.state)
    ensures r.state.config.baseURL == baseURL && r.state.config.model == model
    ensures r.state.config.initialPrompt == initialPrompt
    ensures r.state.config.postIntroductionSystemPrompts == postIntroductionSystemPrompts
    ensures forall i :: 0 <= i < |r.state.config.systemPrompts| ==> r.state.config.systemPrompts[i] != ""
    ensures multiset(r.state.config.systemPrompts) == multiset(systemPrompts)["" := 0]
    ensures IsSubsequence(r.state.config.systemPrompts, systemPrompts)
    ensures r.pull.url == baseURL + PullPath && r.pull.name == model
  {
    var config := Config(baseURL, model, KeepNonEmpty(systemPrompts), initialPrompt, postIntroductionSystemPrompts);
    Initialized(OLlamaState(config, None), PullRequest(baseURL + PullPath, model))
  }

  /** One `system` entry per prompt, in order. */
  function SystemMessages(prompts: seq<string>): (ms: seq<Message>)
    ensures |ms| == |prompts|
    ensures forall i :: 0 <= i < |prompts| ==> ms[i] == SystemMessage(prompts[i])
  {
    seq(|prompts|, i requires 0 <= i < |prompts| => SystemMessage(prompts[i]))
  }

  /** The transcript a session opens with: the kept system prompts, then the
      initial prompt as a `user` entry. */
  function GreetingTranscript(c: Config): seq<Message> {
    SystemMessages(c.systemPrompts) + [UserMessage(c.initialPrompt)]
  }

  /** The user entry a message contributes: none for the empty message. */
  function UserEntries(message: string): seq<Message> {
    if message != "" then [UserMessage(message)] else []
  }

  function CompletionRequest(c: Config, transcript: seq<Message>): ChatRequest {
    ChatRequest(c.baseURL + ChatPath, c.model, false, 1, transcript)
  }

  /** The entry the endpoint's answer adds to the transcript: the reply, if one came. */
  function ReplyEntries(upstream: Upstream): seq<Message> {
    if upstream.Answered? then [upstream.message] else []
  }

  function ToChatResponse(c: Config, reply: Message, createdAt: string): ChatResponse {
    ChatResponse(createdAt, c.model, createdAt, Some(""), SourcePrefix + c.model, reply.content)
  }

  function Respond(c: Config, upstream: Upstream): Result<ChatResponse, Rejection> {
    match upstream
    case Unavailable => Failure(UpstreamFailed)
    case Answered(reply, createdAt) => Success(ToChatResponse(c, reply, createdAt))
  }

  /** `sendPrompt`: appends the message as a `user` entry unless it is empty,
      sends the whole transcript, appends the reply and maps it to a response.
      A failed round trip leaves the user entry in place. The contract here is
      the shape later proofs build on; `SendPromptSpec` spells out the fields. */
  function SendPrompt(s: OLlamaState, message: string, upstream: Upstream): (t: Turn)
    ensures !Started(s) ==> t.state == s && t.request == None && t.response == Failure(NotStarted)
    ensures Started(s) ==> t.request.Some? && t.request.value.messages == s.messages.value + UserEntries(message)
    ensures Started(s) ==> t.state.config == s.config
    ensures Started(s) ==> t.state.messages == Some(s.messages.value + UserEntries(message) + ReplyEntries(upstream))
    ensures Started(s) ==> t.response == Respond(s.config, upstream)
    ensures Started(s) && message == "" ==> t.request.value.messages == s.messages.value
    ensures Started(s) && upstream.Unavailable? ==> t.state.messages == Some(t.request.value.messages)
  {
    if !Started(s) then Turn(s, None, Failure(NotStarted))
    else
      var sent := s.messages.value + UserEntries(message);
      assert sent + [] == sent;
      assert s.messages.value + [] == s.messages.value;
      Turn(s.(messages := Some(sent + ReplyEntries(upstream))),
           Some(CompletionRequest(s.config, sent)),
           Respond(s.config, upstream))
  }

  /** What `sendPrompt` sends and returns, field by field. */
  lemma SendPromptSpec(s: OLlamaState, message: string, upstream: Upstream)
    ensures var t := SendPrompt(s, message, upstream);
      !Started(s) ==> t.state == s && t.request == None && t.response == Failure(NotStarted)
    ensures var t := SendPrompt(s, message, upstream);
      Started(s) ==>
      var before := s.messages.value;
      var sent := if message != "" then before + [UserMessage(message)] else before;
      && t.request.Some?
      && t.request.value.url == s.config.baseURL + "api/chat"
      && t.request.value.model == s.config.model
      && !t.request.value.stream && t.request.value.temperature == 1
      && t.request.value.messages == sent
      && t.state.config == s.config
      && (upstream.Unavailable? ==> t.state.messages == Some(sent) && t.response == Failure(UpstreamFailed))
      && (upstream.Answered? ==>
            && t.state.messages == Some(sent + [upstream.message])
            && t.response.Success?
            && t.response.value.id == upstream.createdAt
            && t.response.value.chatId == upstream.createdAt
            && t.response.value.characterId == s.config.model
            && t.response.value.srcName == "ollama-" + s.config.model
            && t.response.value.imageRelativePath == Some("")
            && t.response.value.text == upstream.message.content)
  {
  }

  /** `start`: throws away any earlier transcript, sends the greeting
      transcript with no extra user entry, and only once the reply is in
      appends the post-introduction prompts, so they steer later turns but
      were not part of the request that produced the greeting. */
  function Start(s: OLlamaState, upstream: Upstream): (t: Turn)
    ensures t.state.config == s.config
    ensures t.request.Some?
    ensures t.request.value.url == s.config.baseURL + ChatPath && t.request.value.model == s.config.model
    ensures !t.request.value.stream && t.request.value.temperature == 1
    ensures var sent := t.request.value.messages;
      && |sent| == |s.config.systemPrompts| + 1
      && (forall i :: 0 <= i < |s.config.systemPrompts| ==> sent[i] == SystemMessage(s.config.systemPrompts[i]))
      && sent[|s.config.systemPrompts|] == UserMessage(s.config.initialPrompt)
    ensures upstream.Unavailable? ==>
      t.response == Failure(UpstreamFailed) && t.state.messages == Some(t.request.value.messages)
    ensures upstream.Answered? ==>
      var post := s.config.postIntroductionSystemPrompts;
      && t.response.Success?
      && t.response.value.text == upstream.message.content
      && t.response.value.id == upstream.createdAt
      && t.response.value.chatId == upstream.createdAt
      && t.response.value.characterId == s.config.model
      && t.response.value.srcName == SourcePrefix + s.config.model
      && t.response.value.imageRelativePath == Some("")
      && t.state.messages == Some(t.request.value.messages + [upstream.message] + SystemMessages(post))
      && |t.state.messages.value| == |s.config.systemPrompts| + 1 + 1 + |post|
  {
    var greeted := s.(messages := Some(GreetingTranscript(s.config)));
    var sent := SendPrompt(greeted, "", upstream);
    if sent.response.Failure? then sent
    else
      var after := sent.state.messages.value + SystemMessages(s.config.postIntroductionSystemPrompts);
      sent.(state := sent.state.(messages := Some(after)))
  }

  /** `receive`: one user turn. Before `start` it is rejected and nothing
      changes; afterwards the earlier transcript survives as a prefix and grows
      by the user entry (unless the message is empty) and by the reply (when
      one arrived). */
  function Receive(s: OLlamaState, message: string, upstream: Upstream): (t: Turn)
    ensures t.state.config == s.config
    ensures t.response.Success? <==> Started(s) && upstream.Answered?
    ensures t.request.Some? <==> Started(s)
    ensures !Started(s) ==> t.state == s && t.response == Failure(NotStarted)
    ensures Started(s) ==>
      && Started(t.state)
      && s.messages.value <= t.state.messages.value
      && t.request.value.messages == s.messages.value + UserEntries(message)
      && t.state.messages == Some(s.messages.value + UserEntries(message) + ReplyEntries(upstream))
      && t.response == Respond(s.config, upstream)
      && |t.state.messages.value| == |s.messages.value| + |UserEntries(message)| + (if upstream.Answered? then 1 else 0)
  {
    SendPrompt(s, message, upstream)
  }

  /** `start` begins a new session rather than continuing one: whatever
      transcript existed before has no influence on what it sends or keeps. */
  lemma StartDiscardsHistory(s1: OLlamaState, s2: OLlamaState, upstream: Upstream)
    requires s1.config == s2.config
    ensures Start(s1, upstream) == Start(s2, upstream)
  {
  }
}
