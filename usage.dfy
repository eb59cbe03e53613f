/** The usage recorder the adapter reports token counts to. */
module Usage {
  import opened Wrappers

  /** One captured usage event: its name, the token count and the model. */
  datatype UsageEvent = UsageEvent(name: string, tokens: nat, model: string)

  const PromptTokensEvent := "free_trial_prompt_tokens"
  const CompletionTokensEvent := "free_trial_completion_tokens"

  /** The telemetry singleton: whether a client exists (telemetry enabled), the identity
      values the headers carry, and the append-only log of captured events. */
  class Telemetry {
    var client: bool
    var extensionVersion: Option<string>
    var os: Option<string>
    var events: seq<UsageEvent>

    constructor (client: bool, extensionVersion: Option<string>, os: Option<string>)
      ensures this.client == client && this.extensionVersion == extensionVersion && this.os == os
      ensures events == []
    {
      this.client := client;
      this.extensionVersion := extensionVersion;
      this.os := os;
      events := [];
    }

    /** Records one event at the end of the log. */
    method Capture(event: UsageEvent)
      modifies this`events
      ensures events == old(events) + [event]
    {
      events := events + [event];
    }
  }
}
