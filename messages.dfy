/** Chat messages, their normalisation before they are sent, and the text the prompt-token
    estimate of a chat request is taken over. */
module Messages {
  import opened Wrappers

  datatype Role = User | Assistant | System

  /** An image reference. `detail` is the hint the server forwards to the model. */
  datatype ImageUrl = ImageUrl(url: Option<string>, detail: Option<string>)

  /** One part of structured content as the caller supplies it; `kind` is the part's
      `type` ("text" or "imageUrl") and `imageUrl` its `imageUrl` key, which is
      forwarded under the `image_url` key. */
  datatype MessagePart = MessagePart(kind: string, text: Option<string>, imageUrl: Option<ImageUrl>)

  datatype MessageContent = Text(text: string) | Parts(parts: seq<MessagePart>)

  datatype ChatMessage = ChatMessage(role: Role, content: MessageContent)

  /** One part as it is sent: the image reference moves from the `imageUrl` key to the
      `image_url` key, which is always present. */
  datatype WirePart = WirePart(kind: string, text: Option<string>, image_url: ImageUrl)

  datatype WireContent = WireText(text: string) | WireParts(parts: seq<WirePart>)

  /** A chat message as it is sent. */
  datatype WireMessage = WireMessage(role: Role, content: WireContent)

  /** The detail hint attached to every forwarded image reference. */
  const LowDetail := "low"

  /** The message a chat delta is delivered as. */
  function AssistantMessage(content: string): ChatMessage {
    ChatMessage(Assistant, Text(content))
  }

  /** The url of a part's image reference, absent when the part has none. */
  function UrlOf(part: MessagePart): Option<string> {
    if part.imageUrl.Some? then part.imageUrl.value.url else None
  }

  /** One part as forwarded: `type` and `text` kept, and an `image_url` made of the part's
      own `imageUrl` fields with the detail hint set to low (present even on text parts). */
  function ConvertPart(part: MessagePart): WirePart {
    WirePart(part.kind, part.text, ImageUrl(UrlOf(part), Some(LowDetail)))
  }

  /** Normalises a chat message before it is sent. */
  function ConvertMessage(message: ChatMessage): (r: WireMessage)
    ensures r.role == message.role
    ensures message.content.Text? ==> r.content == WireText(message.content.text)
    ensures message.content.Parts? ==>
      && r.content.WireParts?
      && |r.content.parts| == |message.content.parts|
      && forall i :: 0 <= i < |message.content.parts| ==>
           && r.content.parts[i].kind == message.content.parts[i].kind
           && r.content.parts[i].text == message.content.parts[i].text
           && r.content.parts[i].image_url.detail == Some(LowDetail)
           && r.content.parts[i].image_url.url == UrlOf(message.content.parts[i])
  {
    match message.content
    case Text(s) => WireMessage(message.role, WireText(s))
    case Parts(ps) =>
      WireMessage(message.role, WireParts(seq(|ps|, i requires 0 <= i < |ps| => ConvertPart(ps[i]))))
  }

  /** Every message of a request, converted one by one in order. */
  function ConvertMessages(messages: seq<ChatMessage>): (r: seq<WireMessage>)
    ensures |r| == |messages|
    ensures forall i :: 0 <= i < |messages| ==> r[i] == ConvertMessage(messages[i])
  {
    seq(|messages|, i requires 0 <= i < |messages| => ConvertMessage(messages[i]))
  }

  /** A sent message handed to the adapter again: its parts carry no `imageUrl` key, since
      the reference was written under `image_url`. */
  function Resubmitted(message: WireMessage): ChatMessage {
    match message.content
    case WireText(s) => ChatMessage(message.role, Text(s))
    case WireParts(ps) =>
      ChatMessage(message.role, Parts(seq(|ps|, i requires 0 <= i < |ps| =>
        MessagePart(ps[i].kind, ps[i].text, None))))
  }

  /** Normalising is not idempotent: a second pass keeps the role, the text, every part's
      type and text and the low detail hint, but loses every image url, because the
      reference is read from `imageUrl` and written to `image_url`. */
  lemma {:induction false} ReconvertDropsUrl(message: ChatMessage)
    ensures var once := ConvertMessage(message);
      var twice := ConvertMessage(Resubmitted(once));
      && twice.role == message.role
      && (message.content.Text? ==> twice == once)
      && (message.content.Parts? ==>
            && twice.content.WireParts?
            && |twice.content.parts| == |message.content.parts|
            && forall i :: 0 <= i < |message.content.parts| ==>
                 twice.content.parts[i] ==
                   WirePart(message.content.parts[i].kind, message.content.parts[i].text,
                            ImageUrl(None, Some(LowDetail))))
  {
    var once := ConvertMessage(message);
    var again := Resubmitted(once);
    if message.content.Parts? {
      assert again.content.Parts? && |again.content.parts| == |message.content.parts|;
      forall i | 0 <= i < |message.content.parts|
        ensures ConvertMessage(again).content.parts[i] ==
          WirePart(message.content.parts[i].kind, message.content.parts[i].text,
                   ImageUrl(None, Some(LowDetail)))
      {
        assert again.content.parts[i] ==
          MessagePart(message.content.parts[i].kind, message.content.parts[i].text, None);
      }
    }
  }

  /** The summed length of the items. */
  function TotalLength(items: seq<string>): nat {
    if items == [] then 0 else |items[0]| + TotalLength(items[1..])
  }

  /** `Array.prototype.join`: the items separated by `sep`, so the result is as long as the
      items together plus one separator between each two of them. */
  function Join(sep: string, items: seq<string>): (r: string)
    ensures items == [] ==> r == ""
    ensures |items| == 1 ==> r == items[0]
    ensures items != [] ==> |r| == TotalLength(items) + (|items| - 1) * |sep|
  {
    if |items| == 0 then ""
    else if |items| == 1 then items[0]
    else items[0] + sep + Join(sep, items[1..])
  }

  /** How a plain object is converted to a string when it is joined. */
  const ObjectText := "[object Object]"

  /** The placeholders of `n` parts. */
  function Placeholders(n: nat): seq<string> {
    seq(n, _ => ObjectText)
  }

  lemma {:induction false} PlaceholdersLength(n: nat)
    ensures TotalLength(Placeholders(n)) == |ObjectText| * n
  {
    if n > 0 {
      assert Placeholders(n)[1..] == Placeholders(n - 1);
      PlaceholdersLength(n - 1);
    }
  }

  /** A message's content as it is converted to a string when the contents are joined:
      plain text as it is, structured content as one object placeholder per part,
      separated by commas, whatever the parts hold. */
  function ContentText(content: MessageContent): (r: string)
    ensures content.Text? ==> r == content.text
    ensures content.Parts? && content.parts == [] ==> r == ""
    ensures content.Parts? && |content.parts| == 1 ==> r == ObjectText
    ensures content.Parts? && content.parts != [] ==> |r| == 16 * |content.parts| - 1
  {
    match content
    case Text(s) => s
    case Parts(ps) =>
      PlaceholdersLength(|ps|);
      Join(",", Placeholders(|ps|))
  }

  /** Structured content reads as its first placeholder, and each further part adds a comma
      and another placeholder at the end. */
  lemma {:induction false} ContentTextSnoc(ps: seq<MessagePart>, p: MessagePart)
    requires ps != []
    ensures ContentText(Parts(ps + [p])) == ContentText(Parts(ps)) + "," + ObjectText
  {
    assert Placeholders(|ps| + 1) == Placeholders(|ps|) + [ObjectText];
    JoinSnoc(",", Placeholders(|ps|), ObjectText);
  }

  /** The text the prompt-token estimate of a chat request is taken over: the contents of
      all messages joined with newlines, so every message after the first adds at least
      its newline. */
  function PromptText(messages: seq<ChatMessage>): (r: string)
    ensures messages == [] ==> r == ""
    ensures messages != [] ==> |r| >= |messages| - 1
  {
    Join("\n", seq(|messages|, i requires 0 <= i < |messages| => ContentText(messages[i].content)))
  }

  lemma {:induction false} JoinSnoc(sep: string, items: seq<string>, last: string)
    requires items != []
    ensures Join(sep, items + [last]) == Join(sep, items) + sep + last
  {
    if |items| > 1 {
      assert (items + [last])[1..] == items[1..] + [last];
      JoinSnoc(sep, items[1..], last);
    }
  }

  /** The prompt text of one message is its content text, and each further message adds
      a newline and its own content text at the end. */
  lemma {:induction false} PromptTextSnoc(messages: seq<ChatMessage>, m: ChatMessage)
    ensures messages == [] ==> PromptText([m]) == ContentText(m.content)
    ensures messages != [] ==> PromptText(messages + [m]) == PromptText(messages) + "\n" + ContentText(m.content)
  {
    var texts := seq(|messages|, i requires 0 <= i < |messages| => ContentText(messages[i].content));
    var ms := messages + [m];
    var all := seq(|ms|, i requires 0 <= i < |ms| => ContentText(ms[i].content));
    assert all == texts + [ContentText(m.content)];
    if messages != [] {
      JoinSnoc("\n", texts, ContentText(m.content));
    }
  }

  /** Structured content contributes only its number of parts to the prompt text; what
      the parts say does not reach the token estimate. */
  lemma PartsTextIgnoresParts(ps: seq<MessagePart>, qs: seq<MessagePart>)
    requires |ps| == |qs|
    ensures ContentText(Parts(ps)) == ContentText(Parts(qs))
  {
  }
}
