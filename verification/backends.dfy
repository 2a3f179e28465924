/**
 The two-operation backend interface as a sum type: the backend is chosen
 once, and every `start`/`receive` is dispatched to the chosen kind. The
 completion endpoint's reply is passed through to the backends that use one.
 */
module Backends {
  import opened Chat
  import Echo
  import OLlama

  datatype Backend = EchoBackend(echo: Echo.EchoState) | OLlamaBackend(ollama: OLlama.OLlamaState)

  /** The backend after one call and what the call returned. */
  datatype Outcome = Outcome(backend: Backend, response: Result<ChatResponse, Rejection>)

  /** Neither modelled backend attaches an image: "no image" is null for one
      and the empty string for the other. */
  predicate NoImage(r: ChatResponse) {
    r.imageRelativePath == None || r.imageRelativePath == Some("")
  }

  function Start(b: Backend, upstream: OLlama.Upstream): (o: Outcome)
    ensures o.backend.EchoBackend? <==> b.EchoBackend?
    ensures b.EchoBackend? ==> o.response.Success? && o.response.value.imageRelativePath == None
    ensures b.OLlamaBackend? ==>
      (o.response.Success? <==> upstream.Answered?)
      && (o.response.Success? ==> o.response.value.imageRelativePath == Some(""))
      && (o.response.Success? ==>
            o.response.value.text == upstream.message.content
            && o.response.value.srcName == OLlama.SourcePrefix + b.ollama.config.model)
      && o.backend.ollama.config == b.ollama.config
  {
    match b
    case EchoBackend(e) =>
      var t := Echo.Start(e);
      Outcome(EchoBackend(t.state), Success(t.response))
    case OLlamaBackend(s) =>
      var t := OLlama.Start(s, upstream);
      Outcome(OLlamaBackend(t.state), t.response)
  }

  function Receive(b: Backend, message: string, upstream: OLlama.Upstream): (o: Outcome)
    ensures o.backend.EchoBackend? <==> b.EchoBackend?
    ensures b.EchoBackend? ==>
      o.response.Success? && o.response.value.text == message && o.response.value.imageRelativePath == None
    ensures b.OLlamaBackend? ==>
      (o.response.Success? <==> OLlama.Started(b.ollama) && upstream.Answered?)
      && (o.response.Success? ==> o.response.value.imageRelativePath == Some(""))
      && (o.response.Success? ==>
            o.response.value.text == upstream.message.content
            && o.response.value.srcName == OLlama.SourcePrefix + b.ollama.config.model)
      && o.backend.ollama.config == b.ollama.config
  {
    match b
    case EchoBackend(e) =>
      var t := Echo.Receive(e, message);
      Outcome(EchoBackend(t.state), Success(t.response))
    case OLlamaBackend(s) =>
      var t := OLlama.Receive(s, message, upstream);
      Outcome(OLlamaBackend(t.state), t.response)
  }

  /** One call arriving at the gateway, with the endpoint's reply for it. */
  datatype Call = Begin(upstream: OLlama.Upstream) | Send(message: string, upstream: OLlama.Upstream)

  function Apply(b: Backend, c: Call): Outcome {
    match c
    case Begin(u) => Start(b, u)
    case Send(m, u) => Receive(b, m, u)
  }

  function Serve(b: Backend, calls: seq<Call>): (final: Backend)
    decreases |calls|
  {
    if |calls| == 0 then b else Serve(Apply(b, calls[0]).backend, calls[1..])
  }

  /** No re-selection at run time: whatever calls arrive, the backend keeps its
      kind, and an OLlama backend keeps the configuration `initialize` gave it. */
  lemma {:induction false} ServeKeepsBackend(b: Backend, calls: seq<Call>)
    ensures Serve(b, calls).EchoBackend? <==> b.EchoBackend?
    ensures b.OLlamaBackend? ==> Serve(b, calls).ollama.config == b.ollama.config
    decreases |calls|
  {
    if |calls| > 0 {
      ServeKeepsBackend(Apply(b, calls[0]).backend, calls[1..]);
    }
  }

  /** Whatever the backend and whatever the calls, a successful response
      never carries an image path. */
  lemma AnswersCarryNoImage(b: Backend, c: Call)
    ensures Apply(b, c).response.Success? ==> NoImage(Apply(b, c).response.value)
  {
  }
}
