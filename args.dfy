/** Completion options, the argument record the server receives, and the advertised models. */
module Args {
  import opened Wrappers

  /** A JSON number passed through to the server; the adapter does no arithmetic on it. */
  type Number = real

  /** The one model whose stop list is forwarded without a cap. */
  const UnlimitedStopModel := "starcoder-7b"

  /** How many stop sequences every other model receives at most. */
  const StopCap: nat := 2

  /** The completion options the adapter reads (camelCase, as callers supply them). */
  datatype CompletionOptions = CompletionOptions(
    model: string,
    frequencyPenalty: Option<Number>,
    presencePenalty: Option<Number>,
    maxTokens: Option<int>,
    stop: Option<seq<string>>,
    temperature: Option<Number>,
    topP: Option<Number>)

  /** The argument record merged into every request body (snake_case keys). An absent
      field is `undefined` and does not appear in the JSON text. */
  datatype WireArgs = WireArgs(
    model: string,
    frequency_penalty: Option<Number>,
    presence_penalty: Option<Number>,
    max_tokens: Option<int>,
    stop: Option<seq<string>>,
    temperature: Option<Number>,
    top_p: Option<Number>)

  /** `stop.slice(0, k)` for a non-negative `k`. */
  function Slice<T>(s: seq<T>, k: nat): seq<T> {
    if k < |s| then s[..k] else s
  }

  /** The stop list as forwarded: whole for the unlimited model, otherwise cut to the
      first `StopCap` entries; an absent list stays absent. */
  function CapStop(model: string, stop: Option<seq<string>>): (r: Option<seq<string>>)
    ensures r.Some? <==> stop.Some?
    ensures model == UnlimitedStopModel ==> r == stop
    ensures model != UnlimitedStopModel && stop.Some? ==>
      r.value <= stop.value && |r.value| == Min(StopCap, |stop.value|)
  {
    if model == UnlimitedStopModel then stop
    else match stop
      case None => None
      case Some(s) => Some(Slice(s, StopCap))
  }

  /** Maps completion options to the wire argument record. */
  function ConvertArgs(options: CompletionOptions): (r: WireArgs)
    ensures r.model == options.model
    ensures r.frequency_penalty == options.frequencyPenalty
    ensures r.presence_penalty == options.presencePenalty
    ensures r.max_tokens == options.maxTokens
    ensures r.temperature == options.temperature
    ensures r.top_p == options.topP
    ensures r.stop == CapStop(options.model, options.stop)
  {
    WireArgs(
      model := options.model,
      frequency_penalty := options.frequencyPenalty,
      presence_penalty := options.presencePenalty,
      max_tokens := options.maxTokens,
      stop := CapStop(options.model, options.stop),
      temperature := options.temperature,
      top_p := options.topP)
  }

  /** Reads a wire argument record back as completion options (the inverse of
      `ConvertArgs` on options whose stop list is within the cap). */
  function OptionsOf(args: WireArgs): CompletionOptions {
    CompletionOptions(
      model := args.model,
      frequencyPenalty := args.frequency_penalty,
      presencePenalty := args.presence_penalty,
      maxTokens := args.max_tokens,
      stop := args.stop,
      temperature := args.temperature,
      topP := args.top_p)
  }

  /** Converting loses nothing but the stop entries past the cap: options whose stop list
      the cap leaves alone are recovered exactly, and in every case the recovered options
      differ from the original only in `stop`. */
  lemma ConvertArgsRoundTrip(options: CompletionOptions)
    ensures CapStop(options.model, options.stop) == options.stop ==> OptionsOf(ConvertArgs(options)) == options
    ensures OptionsOf(ConvertArgs(options)) == options.(stop := CapStop(options.model, options.stop))
  {
  }

  /** The cap is reached after one application: converting converted options changes nothing. */
  lemma ConvertArgsIdempotent(options: CompletionOptions)
    ensures ConvertArgs(OptionsOf(ConvertArgs(options))) == ConvertArgs(options)
  {
  }

  /** The model identifiers the server advertises, in order. */
  function ListModels(): (r: seq<string>)
    ensures |r| == 6
    ensures forall i, j :: 0 <= i < j < |r| ==> r[i] != r[j]
    ensures UnlimitedStopModel !in r
  {
    [
      "llama3-70b",
      "gpt-3.5-turbo",
      "gpt-4o",
      "gemini-1.5-pro-latest",
      "claude-3-sonnet-20240229",
      "claude-3-haiku-20240307"
    ]
  }

  /** Every advertised model receives at most `StopCap` stop sequences. */
  lemma ListedModelsAreCapped(options: CompletionOptions)
    requires options.model in ListModels()
    requires options.stop.Some?
    ensures ConvertArgs(options).stop.Some?
    ensures |ConvertArgs(options).stop.value| <= StopCap
  {
  }
}
