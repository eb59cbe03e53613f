# PearAI server adapter — a verified model

This project models the LLM adapter that talks to the PearAI server
(`core/llm/llms/PearAIServer.ts`). The model covers:

- how completion options become the request's argument record, including the
  stop-sequence cap;
- how chat messages are normalised before they are sent;
- the default-filling of the identity headers;
- the telemetry gate that every call passes before anything is sent;
- the two streaming calls, text completion and chat. Each is a loop over the
  decoded response that yields values and keeps a running accumulator.

Modules:

- `Wrappers` (wrappers.dfy): `Option`, `Outcome` and JavaScript truthiness of
  an optional string.
- `Args` (args.dfy): the completion options, the wire argument record,
  `ConvertArgs` and `ListModels`.
- `Messages` (messages.dfy): chat messages, `ConvertMessage`, and the text
  that a chat request's prompt-token estimate is taken over.
- `Chunks` (chunks.dfy): the specification functions for what a call yields
  from a decoded stream and what it accumulates.
- `Usage` (usage.dfy): the telemetry object, which holds the enabled flag,
  the identity values and an append-only event log.
- `Adapter` (adapter.dfy): the headers, the `PearAIServer` class and the two
  stream loops. The class records every request it hands to the transport.

A call's environment is passed in as parameters:

- `provided`: the header stub's headers;
- `tokenCheck`: the result of the token-expiry check, `None` when it throws;
- `stream`: the values the decoder produced;
- `demand`: how many values the consumer takes before closing the generator.
  `None` means the consumer drains it.

Behaviours of the code worth knowing:

- No completion-token event is recorded when the consumer closes the
  generator at a yield: nothing after the loop runs, and the code has no
  `finally`.
- When the token check fails, a chat request still carries an
  `Authorization` header. Its value is `"Bearer "` with an empty token.
- A chat's prompt estimate is taken over the message contents joined with
  newlines. Structured content turns into one `[object Object]` per part,
  separated by commas, as JavaScript's `join` does. It is not the parts' text
  (`Messages.PartsTextIgnoresParts`).
- Message normalisation reads a part's image reference from its `imageUrl`
  key and writes it under `image_url`. A normalised message handed back in
  therefore loses its image urls (`Messages.ReconvertDropsUrl`).
- A consumer that asks for no value never starts the generator. Then there is
  no gate check, no request and no event.

## Model

| member | source | states |
|---|---|---|
| `Args.CapStop` | core/llm/llms/PearAIServer.ts:44-47 | an absent stop list stays absent; `starcoder-7b` keeps its list whole; every other model gets a prefix of length min(2, \|stop\|) |
| `Args.ConvertArgs` | core/llm/llms/PearAIServer.ts:38-51 | model, penalties, max tokens, temperature and top-p are copied under their snake_case keys; stop is the capped list; the record has no other keys |
| `Args.ConvertArgsRoundTrip` | core/llm/llms/PearAIServer.ts:38-51 | reading the record back gives the options with only `stop` replaced by its capped form, so options within the cap are recovered exactly |
| `Args.ConvertArgsIdempotent` | core/llm/llms/PearAIServer.ts:44-47 | converting already converted options changes nothing |
| `Args.ListModels` | core/llm/llms/PearAIServer.ts:155-164 | six distinct model identifiers, none of them `starcoder-7b` |
| `Args.ListedModelsAreCapped` | core/llm/llms/PearAIServer.ts:44-47 | every advertised model is sent at most two stop sequences |
| `Messages.ConvertMessage` | core/llm/llms/PearAIServer.ts:78-94 | the role is kept; string content is sent unchanged; structured content becomes parts of the same number and order, each with its type and text and an `image_url` that has the url of the part's `imageUrl` and detail `low` |
| `Messages.ConvertMessages` | core/llm/llms/PearAIServer.ts:130 | the request's messages are the given messages, each normalised, in the same number and order |
| `Messages.ReconvertDropsUrl` | core/llm/llms/PearAIServer.ts:83-93 | normalising a sent message again keeps the role, string content, each part's type and text and detail `low`, but every image url becomes absent, because the reference is read from `imageUrl` and written to `image_url` |
| `Messages.Join` | core/llm/llms/PearAIServer.ts:103 | JavaScript's `join`: empty for no items, the item itself for one item, otherwise as long as the items together plus one separator between each two |
| `Messages.ContentText` | core/llm/llms/PearAIServer.ts:103 | string content as it is; structured content is empty for no parts, exactly `[object Object]` for one part, and 16 characters per part less one in general, whatever the parts hold |
| `Messages.ContentTextSnoc` | core/llm/llms/PearAIServer.ts:103 | structured content reads as comma-separated `[object Object]` placeholders: each further part adds a comma and one more placeholder at the end |
| `Messages.PromptText` | core/llm/llms/PearAIServer.ts:102-106 | empty for no messages, and at least one character for each message after the first; `Messages.PromptTextSnoc` gives the newline-joined text itself |
| `Messages.JoinSnoc` | core/llm/llms/PearAIServer.ts:103 | joining one more item appends the separator and the item |
| `Messages.PromptTextSnoc` | core/llm/llms/PearAIServer.ts:102-106 | a chat's prompt text is the first message's content text, followed by a newline and the content text of each further message |
| `Messages.PartsTextIgnoresParts` | core/llm/llms/PearAIServer.ts:103 | structured content adds to the prompt text only through its number of parts |
| `Chunks.ConcatAppend` | core/llm/llms/PearAIServer.ts:70-74 | accumulating two runs of values is accumulating each and concatenating |
| `Chunks.ConcatPlacesChunk` | core/llm/llms/PearAIServer.ts:70-74 | each value appears in the accumulator, in order, right after the values before it |
| `Chunks.ChatYields` | core/llm/llms/PearAIServer.ts:144-150 | at most one message per chunk |
| `Chunks.ChatYieldsAreDeltas` | core/llm/llms/PearAIServer.ts:144-148 | every yielded message is an assistant message with non-empty text content |
| `Chunks.ChatYieldsStep` | core/llm/llms/PearAIServer.ts:137-151 | one more chunk adds exactly what that chunk yields, at the end |
| `Chunks.ChatYieldsAppend` | core/llm/llms/PearAIServer.ts:137-151 | the yields of a split stream are the yields of the parts, in order |
| `Chunks.YieldedIsCarried` | core/llm/llms/PearAIServer.ts:144-148 | every yielded message is the truthy content of some chunk |
| `Chunks.CarriedIsYielded` | core/llm/llms/PearAIServer.ts:144-148 | the truthy content of every chunk is yielded |
| `Chunks.ChatYieldsMembership` | core/llm/llms/PearAIServer.ts:144-148 | a message is yielded if and only if some chunk has truthy content and the message is that content as an assistant message |
| `Chunks.ChatYieldsIgnoreMetadata` | core/llm/llms/PearAIServer.ts:139-142 | metadata never changes what is yielded |
| `Chunks.YieldedTextAppend` | core/llm/llms/PearAIServer.ts:149 | the accumulated chat text of two runs of messages is the concatenation of each run's text |
| `Chunks.ChatTextIsYieldedText` | core/llm/llms/PearAIServer.ts:135-151 | the chat accumulator (truthy contents concatenated in stream order) equals the concatenated text of exactly the yielded messages |
| `Chunks.Taken` | core/llm/llms/PearAIServer.ts:71-72 | a consumer receives a prefix of what the generator would yield: all of it when draining, otherwise min(demand, total) values |
| `Chunks.TakenAtClose` | core/llm/llms/PearAIServer.ts:145-148 | closing the generator on receiving the last value of a prefix leaves the consumer with exactly that prefix |
| `Usage.Telemetry.Capture` | core/llm/llms/PearAIServer.ts:32-35 | the event is appended to the log and nothing else changes |
| `Adapter.Headers` | core/llm/llms/PearAIServer.ts:12-21 | the identity headers are the adapter's four names plus the stub's, and every header the stub provides keeps the stub's value |
| `Adapter.HeaderDefaults` | core/llm/llms/PearAIServer.ts:12-21 | the adapter's four header names plus the stub's; the stub's values win; otherwise the unique id (or `None` when empty or absent), the extension version and the os (or `Unknown` when absent), and the JSON content type |
| `Adapter.AccessToken` | core/llm/llms/PearAIServer.ts:110-121 | the access token from a token check that returned, and the empty token when the check threw |
| `Adapter.ChatRequest` | core/llm/llms/PearAIServer.ts:123-133 | a `POST` to the chat endpoint whose `Authorization` header is `Bearer ` followed by the access token |
| `Adapter.ChatRequestShape` | core/llm/llms/PearAIServer.ts:123-133 | the chat request's headers are the identity headers plus `Authorization`, which is `Bearer ` plus the token and overrides any identity header of that name; the body holds the arguments and the messages in the same number and order, each normalised |
| `Adapter.EventName` | core/llm/llms/PearAIServer.ts:29-31 | the prompt event name exactly for prompt counts, the completion event name exactly for completion counts |
| `Adapter.PearAIServer.Fetch` | core/llm/llms/PearAIServer.ts:61-68 | the request is appended to the request log |
| `Adapter.PearAIServer.CountTokens` | core/llm/llms/PearAIServer.ts:23-36 | with telemetry disabled it fails with the telemetry message and records nothing; otherwise it records exactly one event with the token count and model, named after `isPrompt` |
| `Adapter.PearAIServer.StreamComplete` | core/llm/llms/PearAIServer.ts:53-76 | a failing gate sends no request and records nothing; otherwise one request is sent with the headers and the prompt merged with the converted arguments; every decoded value is yielded in order; unless the consumer closed early, the completion event counts the concatenation of the yielded values |
| `Adapter.PearAIServer.StreamChat` | core/llm/llms/PearAIServer.ts:96-153 | a failing gate sends no request and records nothing; otherwise the request is sent even when the token check failed, with `Authorization` set to `Bearer ` plus the token or an empty one; messages are normalised one by one; exactly the chunks with truthy content are yielded as assistant messages in order; the completion event counts their concatenated content |
| `Adapter.ConsumeCompletion` | core/llm/llms/PearAIServer.ts:70-75 | the consumer receives the decoded values in order; `closed` holds exactly when the consumer closes at one of the yields; otherwise the accumulator is the concatenation of everything yielded |
| `Adapter.ConsumeChat` | core/llm/llms/PearAIServer.ts:135-152 | the consumer receives the yields of truthy-content chunks in order; `closed` holds exactly when the consumer closes at one of the yields; otherwise the accumulator is the concatenated text of the yielded messages |

## Left out

- `extensions/vscode/src/commands.ts` is not part of this model. It is command and webview wiring for the editor host.
- `binary/build.js` is not part of this model. It is a packaging script of shell commands.
- The HTTP transport and the server address are not modelled. A request is recorded with its endpoint path only. Transport failures and mid-stream read errors are not modelled.
- The line-delimited JSON decoder is not modelled: its source is not part of this model. A stream is the finite, error-free sequence of decoded values.
- The header stub, the token-expiry check with its token refresh, and the telemetry client's internals are foreign calls. They are parameters (`provided`, `tokenCheck`) or the event log. The refresh token is read but never used by the adapter, so it only appears in `Tokens`.
- A failure of the header stub (or of another foreign call besides the token check) is not modelled. The code would then throw after the prompt event and before the request, leaving one event and no request; `StreamComplete` and `StreamChat` promise a request whenever the gate passes.
- The tokenizer of the base class is an opaque `countTokens` function. Argument collection by the base class is not modelled: options arrive already collected.
- Option values that are floats are modelled as `real`, and no arithmetic is done on them.
- Completion stream values are modelled as strings and chat chunk content as an optional string. Non-string JSON values (which `+=` would stringify) are not modelled.
- Decoded chat values are modelled as objects. A decoded value that is not an object, such as a JSON `null` line, makes the read of its `metadata` throw a `TypeError` mid-stream and ends the call; that path is not modelled.
- Console logging is not modelled, including the logging of chat metadata and of the tokens.
- The post-stream token count is not awaited in the source, and its rejection is dropped. The model calls it and ignores its outcome. Its event is recorded immediately, because the capture runs before the function's first suspension.
- Concurrency between calls is not modelled. Nor is any change to the telemetry flag during a call.
