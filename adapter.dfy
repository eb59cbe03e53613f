/** The PearAI server adapter: request shaping, the telemetry gate and the two streaming
    calls. The transport, the server address and the decoder are not modelled; a request is
    recorded as a value and a response as the sequence of values the decoder produced. */
module Adapter {
  import opened Wrappers
  import opened Args
  import opened Messages
  import opened Chunks
  import opened Usage

  const CompleteEndpoint := "/stream_complete"
  const ChatEndpoint := "/server_chat"
  const Post := "POST"

  /** The error `_countTokens` throws when telemetry is disabled. */
  datatype AdapterError = TelemetryRequired

  /** The message the error carries. */
  function Message(error: AdapterError): string {
    match error
    case TelemetryRequired =>
      "In order to use the server, telemetry must be enabled so that we can monitor abuse. "
      + "To enable telemetry, set \"allowAnonymousTelemetry\": true in config.json and make sure "
      + "the box is checked in IDE settings. If you use your own model (local or API key), "
      + "telemetry will never be required."
  }

  /** The JSON body of a request: the prompt or the converted messages, merged with the
      wire arguments. */
  datatype Body =
    | CompleteBody(prompt: string, args: WireArgs)
    | ChatBody(messages: seq<WireMessage>, args: WireArgs)

  /** A request as handed to the transport. */
  datatype Request = Request(httpMethod: string, endpoint: string, headers: map<string, string>, body: Body)

  /** What the token-expiry check returns when it does not throw. */
  datatype Tokens = Tokens(accessToken: string, refreshToken: string)

  /** The header names the adapter fills in itself. */
  const OwnHeaderNames: set<string> := {"uniqueId", "extensionVersion", "os", "Content-Type"}

  /** The identity headers: the adapter's own four, then the headers `provided` by the
      header stub, which win on a clash. */
  function Headers(uniqueId: Option<string>, extensionVersion: Option<string>, os: Option<string>,
                   provided: map<string, string>): (r: map<string, string>)
    ensures r.Keys == OwnHeaderNames + provided.Keys
    ensures forall k :: k in provided ==> r[k] == provided[k]
  {
    map[
      "uniqueId" := if Truthy(uniqueId) then uniqueId.value else "None",
      "extensionVersion" := if extensionVersion.Some? then extensionVersion.value else "Unknown",
      "os" := if os.Some? then os.value else "Unknown",
      "Content-Type" := "application/json"
    ] + provided
  }

  /** Default-filling of the identity headers: the unique id falls back to `None` when it is
      empty or absent, the extension version and the os to `Unknown` only when absent, the
      content type is JSON, and every header the stub provides overrides these. */
  lemma HeaderDefaults(uniqueId: Option<string>, extensionVersion: Option<string>, os: Option<string>,
                       provided: map<string, string>)
    ensures var h := Headers(uniqueId, extensionVersion, os, provided);
      && h.Keys == OwnHeaderNames + provided.Keys
      && (forall k :: k in provided ==> h[k] == provided[k])
      && ("uniqueId" !in provided ==>
            h["uniqueId"] == if Truthy(uniqueId) then uniqueId.value else "None")
      && ("extensionVersion" !in provided ==>
            h["extensionVersion"] == if extensionVersion.Some? then extensionVersion.value else "Unknown")
      && ("os" !in provided ==> h["os"] == if os.Some? then os.value else "Unknown")
      && ("Content-Type" !in provided ==> h["Content-Type"] == "application/json")
  {
  }

  /** The access token a chat request is sent with: the checked token, or empty when the
      check threw. */
  function AccessToken(tokenCheck: Option<Tokens>): (r: string)
    ensures tokenCheck.Some? ==> r == tokenCheck.value.accessToken
    ensures tokenCheck.None? ==> r == ""
  {
    if tokenCheck.Some? then tokenCheck.value.accessToken else ""
  }

  /** The chat request: the identity headers with the bearer header set on top, and the
      messages, each normalised, merged with the arguments. */
  function ChatRequest(identity: map<string, string>, accessToken: string,
                       messages: seq<ChatMessage>, args: WireArgs): (r: Request)
    ensures r.httpMethod == Post && r.endpoint == ChatEndpoint
    ensures "Authorization" in r.headers && r.headers["Authorization"] == "Bearer " + accessToken
  {
    Request(Post, ChatEndpoint, identity["Authorization" := "Bearer " + accessToken],
      ChatBody(ConvertMessages(messages), args))
  }

  /** The bearer header is always present and overrides any identity header of that name;
      every other identity header is kept; the messages keep their number and order, each
      normalised. */
  lemma ChatRequestShape(identity: map<string, string>, accessToken: string,
                         messages: seq<ChatMessage>, args: WireArgs)
    ensures var r := ChatRequest(identity, accessToken, messages, args);
      && r.headers.Keys == identity.Keys + {"Authorization"}
      && r.headers["Authorization"] == "Bearer " + accessToken
      && (forall k :: k in identity && k != "Authorization" ==> r.headers[k] == identity[k])
      && r.body.ChatBody? && r.body.args == args && |r.body.messages| == |messages|
      && (forall i :: 0 <= i < |messages| ==> r.body.messages[i] == ConvertMessage(messages[i]))
  {
  }

  /** The name of a token-count event: prompt and completion counts are told apart. */
  function EventName(isPrompt: bool): (r: string)
    ensures r == PromptTokensEvent <==> isPrompt
    ensures r == CompletionTokensEvent <==> !isPrompt
  {
    if isPrompt then PromptTokensEvent else CompletionTokensEvent
  }

  class PearAIServer {
    /** The unique id of the installation, if any. */
    const uniqueId: Option<string>
    /** The tokenizer of the base model class, treated as an opaque function. */
    const countTokens: string -> nat
    /** Every request handed to the transport, in order. */
    var requests: seq<Request>

    constructor (uniqueId: Option<string>, countTokens: string -> nat)
      ensures this.uniqueId == uniqueId && this.countTokens == countTokens
      ensures requests == []
    {
      this.uniqueId := uniqueId;
      this.countTokens := countTokens;
      requests := [];
    }

    /** Hands a request to the transport. */
    method Fetch(request: Request)
      modifies this`requests
      ensures requests == old(requests) + [request]
    {
      requests := requests + [request];
    }

    /** The telemetry gate: fails without recording anything when telemetry is disabled,
        otherwise records exactly one token-count event, named after `isPrompt`. */
    method CountTokens(telemetry: Telemetry, text: string, model: string, isPrompt: bool)
      returns (outcome: Outcome<AdapterError>)
      modifies telemetry`events
      ensures !telemetry.client ==>
        outcome == Fail(TelemetryRequired) && telemetry.events == old(telemetry.events)
      ensures telemetry.client ==>
        && outcome == Pass
        && telemetry.events == old(telemetry.events) + [UsageEvent(EventName(isPrompt), countTokens(text), model)]
    {
      if !telemetry.client {
        return Fail(TelemetryRequired);
      }
      telemetry.Capture(UsageEvent(EventName(isPrompt), countTokens(text), model));
      outcome := Pass;
    }

    /** A text completion. The consumer receives `yielded` and closes the producer after
        `demand` values (`None`: it drains it). `provided` are the stub's headers and
        `stream` the decoded response. */
    method StreamComplete(telemetry: Telemetry, prompt: string, options: CompletionOptions,
                          provided: map<string, string>, stream: seq<string>, demand: Option<nat>)
      returns (yielded: seq<string>, outcome: Outcome<AdapterError>)
      modifies this`requests, telemetry`events
      // a consumer that asks for nothing never starts the producer
      ensures demand == Some(0) ==>
        && yielded == [] && outcome == Pass
        && requests == old(requests) && telemetry.events == old(telemetry.events)
      // the gate fails before any request is issued
      ensures demand != Some(0) && !telemetry.client ==>
        && yielded == [] && outcome == Fail(TelemetryRequired)
        && requests == old(requests) && telemetry.events == old(telemetry.events)
      ensures demand != Some(0) && telemetry.client ==>
        && outcome == Pass
        && requests == old(requests) + [Request(Post, CompleteEndpoint,
             Headers(uniqueId, telemetry.extensionVersion, telemetry.os, provided),
             CompleteBody(prompt, ConvertArgs(options)))]
        && yielded == Taken(stream, demand)
        && telemetry.events == old(telemetry.events)
             + [UsageEvent(PromptTokensEvent, countTokens(prompt), options.model)]
             + (if ClosedEarly(|stream|, demand) then []
                else [UsageEvent(CompletionTokensEvent, countTokens(Concat(yielded)), options.model)])
    {
      yielded, outcome := [], Pass;
      if demand == Some(0) {
        return;
      }
      var args := ConvertArgs(options);
      outcome := CountTokens(telemetry, prompt, args.model, true);
      if outcome.Fail? {
        return;
      }
      Fetch(Request(Post, CompleteEndpoint,
        Headers(uniqueId, telemetry.extensionVersion, telemetry.os, provided),
        CompleteBody(prompt, args)));
      var completion, closed;
      yielded, completion, closed := ConsumeCompletion(stream, demand);
      if closed {
        return;
      }
      // the completion count is not awaited; a failure of it never reaches the consumer
      var counted := CountTokens(telemetry, completion, args.model, false);
    }

    /** A chat completion. `tokenCheck` is the result of the token-expiry check (`None`:
        it threw); the other parameters are as for `StreamComplete`. */
    method StreamChat(telemetry: Telemetry, messages: seq<ChatMessage>, options: CompletionOptions,
                      tokenCheck: Option<Tokens>, provided: map<string, string>,
                      stream: seq<ChatChunk>, demand: Option<nat>)
      returns (yielded: seq<ChatMessage>, outcome: Outcome<AdapterError>)
      modifies this`requests, telemetry`events
      ensures demand == Some(0) ==>
        && yielded == [] && outcome == Pass
        && requests == old(requests) && telemetry.events == old(telemetry.events)
      ensures demand != Some(0) && !telemetry.client ==>
        && yielded == [] && outcome == Fail(TelemetryRequired)
        && requests == old(requests) && telemetry.events == old(telemetry.events)
      // a failed token check does not stop the request; it goes out with an empty token
      ensures demand != Some(0) && telemetry.client ==>
        && outcome == Pass
        && requests == old(requests) + [ChatRequest(
             Headers(uniqueId, telemetry.extensionVersion, telemetry.os, provided),
             AccessToken(tokenCheck), messages, ConvertArgs(options))]
        && yielded == Taken(ChatYields(stream), demand)
        && telemetry.events == old(telemetry.events)
             + [UsageEvent(PromptTokensEvent, countTokens(PromptText(messages)), options.model)]
             + (if ClosedEarly(|ChatYields(stream)|, demand) then []
                else [UsageEvent(CompletionTokensEvent, countTokens(YieldedText(yielded)), options.model)])
    {
      yielded, outcome := [], Pass;
      if demand == Some(0) {
        return;
      }
      var args := ConvertArgs(options);
      outcome := CountTokens(telemetry, PromptText(messages), args.model, true);
      if outcome.Fail? {
        return;
      }
      var accessToken := "";
      if tokenCheck.Some? {
        accessToken := tokenCheck.value.accessToken;
      }
      var request := ChatRequest(Headers(uniqueId, telemetry.extensionVersion, telemetry.os, provided),
        accessToken, messages, args);
      Fetch(request);
      var completion, closed;
      yielded, completion, closed := ConsumeChat(stream, demand);
      if closed {
        return;
      }
      var counted := CountTokens(telemetry, completion, args.model, false);
    }
  }

  /** The loop of a text completion over the decoded stream, for a consumer that closes the
      producer after `demand` values: every value is yielded as it is and appended to the
      accumulator. `closed` tells whether the consumer closed the producer at a yield, which
      ends it there; the accumulator is then discarded. */
  method ConsumeCompletion(stream: seq<string>, demand: Option<nat>)
    returns (yielded: seq<string>, completion: string, closed: bool)
    requires demand != Some(0)
    ensures yielded == Taken(stream, demand)
    ensures closed == ClosedEarly(|stream|, demand)
    ensures !closed ==> completion == Concat(yielded)
  {
    yielded, completion, closed := [], "", false;
    var i := 0;
    while i < |stream|
      invariant 0 <= i <= |stream|
      invariant yielded == stream[..i]
      invariant completion == Concat(yielded)
      invariant demand.Some? ==> i < demand.value
    {
      var value := stream[i];
      assert stream[..i + 1] == yielded + [value];
      ConcatStep(yielded, value);
      if demand.Some? && demand.value == i + 1 {
        // the consumer closes the producer at this yield; nothing after it runs
        TakenAtClose(stream, stream[..i + 1], demand);
        yielded, closed := yielded + [value], true;
        return;
      }
      yielded := yielded + [value];
      completion := completion + value;
      i := i + 1;
    }
    assert yielded == stream;
  }

  /** The loop of a chat completion over the decoded stream: chunks with truthy content are
      yielded as assistant messages and their content accumulated; metadata is only logged.
      `closed` is as for `ConsumeCompletion`. */
  method ConsumeChat(stream: seq<ChatChunk>, demand: Option<nat>)
    returns (yielded: seq<ChatMessage>, completion: string, closed: bool)
    requires demand != Some(0)
    ensures yielded == Taken(ChatYields(stream), demand)
    ensures closed == ClosedEarly(|ChatYields(stream)|, demand)
    ensures !closed ==> completion == YieldedText(yielded)
  {
    yielded, completion, closed := [], "", false;
    var i := 0;
    while i < |stream|
      invariant 0 <= i <= |stream|
      invariant yielded == ChatYields(stream[..i])
      invariant completion == ChatText(stream[..i])
      invariant demand.Some? ==> |yielded| < demand.value
    {
      var value := stream[i];
      ChatYieldsStep(stream, i);
      ChatTextStep(stream, i);
      if !Truthy(value.content) {
        assert Yield(value) == [];
        assert yielded + Yield(value) == yielded;
      } else {
        var message := AssistantMessage(value.content.value);
        assert Yield(value) == [message];
        if demand.Some? && demand.value == |yielded| + 1 {
          // the consumer closes the producer at this yield; nothing after it runs
          ChatClosedAt(stream, i, demand);
          yielded, closed := yielded + [message], true;
          return;
        }
        yielded := yielded + [message];
        completion := completion + value.content.value;
      }
      i := i + 1;
    }
    assert stream[..i] == stream;
    ChatDrained(stream, demand);
    ChatTextIsYieldedText(stream);
  }

  /** A use of the contracts above: a completion with a capped stop list over a two-value
      stream. */
  method ExampleCompletion(countTokens: string -> nat)
  {
    var telemetry := new Telemetry(true, Some("1.0"), None);
    var server := new PearAIServer(Some("id"), countTokens);
    var options := CompletionOptions("gpt-4o", None, None, None, Some(["\n", "\n\n", "extra"]), None, None);
    var yielded, outcome := server.StreamComplete(telemetry, "print(", options, map[], ["hello", " world"], None);
    assert outcome == Pass;
    assert yielded == ["hello", " world"];
    assert |server.requests| == 1;
    assert ["\n", "\n\n", "extra"][..2] == ["\n", "\n\n"];
    assert server.requests[0].body.args.stop == Some(["\n", "\n\n"]);
    assert server.requests[0].headers["os"] == "Unknown";
    assert Concat(yielded) == "hello world" by {
      assert yielded[..1] == ["hello"];
      assert yielded[..1][..0] == [];
    }
    assert telemetry.events[1] == UsageEvent(CompletionTokensEvent, countTokens("hello world"), "gpt-4o");
  }
}
