/** The decoded response stream and what a call yields from it. The decoder itself is not
    part of this model: a stream is the finite sequence of values it produced. */
module Chunks {
  import opened Wrappers
  import opened Messages

  /** One decoded element of a chat response: an optional content delta and optional
      metadata, which is only logged. */
  datatype ChatChunk = ChatChunk(content: Option<string>, metadata: Option<map<string, string>>)

  /** The concatenation of a sequence of strings (`+=` over them in order). */
  function Concat(ss: seq<string>): string {
    if ss == [] then "" else Concat(ss[..|ss| - 1]) + ss[|ss| - 1]
  }

  /** One more value adds itself at the end of the accumulator. */
  lemma ConcatStep(ss: seq<string>, x: string)
    ensures Concat(ss + [x]) == Concat(ss) + x
  {
    assert (ss + [x])[..|ss|] == ss;
  }

  lemma {:induction false} ConcatAppend(a: seq<string>, b: seq<string>)
    ensures Concat(a + b) == Concat(a) + Concat(b)
  {
    if b != [] {
      assert (a + b)[..|a + b| - 1] == a + b[..|b| - 1];
      ConcatAppend(a, b[..|b| - 1]);
    } else {
      assert a + b == a;
    }
  }

  /** The accumulated length is the sum of the chunk lengths, and every chunk is found in
      the accumulator, in order, right after the chunks before it. */
  lemma {:induction false} ConcatPlacesChunk(ss: seq<string>, k: nat)
    requires k < |ss|
    ensures |Concat(ss[..k])| + |ss[k]| <= |Concat(ss)|
    ensures Concat(ss)[|Concat(ss[..k])|..|Concat(ss[..k])| + |ss[k]|] == ss[k]
  {
    assert ss == ss[..k] + [ss[k]] + ss[k + 1..];
    ConcatAppend(ss[..k] + [ss[k]], ss[k + 1..]);
    ConcatAppend(ss[..k], [ss[k]]);
    assert Concat([ss[k]]) == ss[k] by {
      assert [ss[k]][..0] == [];
    }
  }

  /** What one chat chunk yields: its content as an assistant message when the content is
      truthy, otherwise nothing. */
  function Yield(chunk: ChatChunk): seq<ChatMessage> {
    if Truthy(chunk.content) then [AssistantMessage(chunk.content.value)] else []
  }

  /** A chat delta as delivered: an assistant message with non-empty text. */
  predicate IsDelta(m: ChatMessage) {
    m.role == Assistant && m.content.Text? && m.content.text != ""
  }

  /** All messages a chat call yields from a stream, in stream order. */
  function ChatYields(chunks: seq<ChatChunk>): (r: seq<ChatMessage>)
    ensures |r| <= |chunks|
  {
    if chunks == [] then [] else ChatYields(chunks[..|chunks| - 1]) + Yield(chunks[|chunks| - 1])
  }

  /** Everything a chat call yields is a delta: metadata and empty content never are. */
  lemma {:induction false} ChatYieldsAreDeltas(chunks: seq<ChatChunk>)
    ensures forall m :: m in ChatYields(chunks) ==> IsDelta(m)
  {
    if chunks != [] {
      ChatYieldsAreDeltas(chunks[..|chunks| - 1]);
    }
  }

  /** Extending a stream prefix by one chunk extends its yields by that chunk's yield. */
  lemma ChatYieldsStep(chunks: seq<ChatChunk>, i: nat)
    requires i < |chunks|
    ensures ChatYields(chunks[..i + 1]) == ChatYields(chunks[..i]) + Yield(chunks[i])
  {
    assert chunks[..i + 1][..i] == chunks[..i];
  }

  /** Yielding commutes with splitting the stream, so the yields keep stream order. */
  lemma {:induction false} ChatYieldsAppend(a: seq<ChatChunk>, b: seq<ChatChunk>)
    ensures ChatYields(a + b) == ChatYields(a) + ChatYields(b)
  {
    if b != [] {
      assert (a + b)[..|a + b| - 1] == a + b[..|b| - 1];
      ChatYieldsAppend(a, b[..|b| - 1]);
    } else {
      assert a + b == a;
    }
  }

  /** Whether a chunk carries a message: its content is truthy and is the message's text. */
  predicate Carries(chunk: ChatChunk, m: ChatMessage) {
    Truthy(chunk.content) && m == AssistantMessage(chunk.content.value)
  }

  /** Every yielded message is carried by some chunk. */
  lemma {:induction false} YieldedIsCarried(chunks: seq<ChatChunk>, m: ChatMessage)
    requires m in ChatYields(chunks)
    ensures exists i :: 0 <= i < |chunks| && Carries(chunks[i], m)
  {
    var n := |chunks| - 1;
    if m in ChatYields(chunks[..n]) {
      YieldedIsCarried(chunks[..n], m);
      var i :| 0 <= i < n && Carries(chunks[..n][i], m);
      assert chunks[i] == chunks[..n][i];
    } else {
      assert Carries(chunks[n], m);
    }
  }

  /** Every message some chunk carries is yielded. */
  lemma {:induction false} CarriedIsYielded(chunks: seq<ChatChunk>, i: nat, m: ChatMessage)
    requires i < |chunks| && Carries(chunks[i], m)
    ensures m in ChatYields(chunks)
  {
    var n := |chunks| - 1;
    if i < n {
      assert chunks[..n][i] == chunks[i];
      CarriedIsYielded(chunks[..n], i, m);
    } else {
      assert Yield(chunks[n]) == [m];
    }
  }

  /** A message is yielded exactly when some chunk carries it. */
  lemma ChatYieldsMembership(chunks: seq<ChatChunk>, m: ChatMessage)
    ensures m in ChatYields(chunks) <==> exists i :: 0 <= i < |chunks| && Carries(chunks[i], m)
  {
    if m in ChatYields(chunks) {
      YieldedIsCarried(chunks, m);
    }
    if exists i :: 0 <= i < |chunks| && Carries(chunks[i], m) {
      var i :| 0 <= i < |chunks| && Carries(chunks[i], m);
      CarriedIsYielded(chunks, i, m);
    }
  }

  /** The chunks with their metadata removed. */
  function WithoutMetadata(chunks: seq<ChatChunk>): seq<ChatChunk> {
    seq(|chunks|, i requires 0 <= i < |chunks| => chunks[i].(metadata := None))
  }

  /** Metadata never influences what is yielded. */
  lemma {:induction false} ChatYieldsIgnoreMetadata(chunks: seq<ChatChunk>)
    ensures ChatYields(WithoutMetadata(chunks)) == ChatYields(chunks)
  {
    if chunks != [] {
      var init := chunks[..|chunks| - 1];
      assert WithoutMetadata(chunks)[..|chunks| - 1] == WithoutMetadata(init);
      ChatYieldsIgnoreMetadata(init);
    }
  }

  /** The text of a delta (deltas always carry text content). */
  function DeltaText(m: ChatMessage): string {
    if m.content.Text? then m.content.text else ""
  }

  /** The text a chat call accumulates from the messages it yielded. */
  function YieldedText(messages: seq<ChatMessage>): string {
    if messages == [] then ""
    else YieldedText(messages[..|messages| - 1]) + DeltaText(messages[|messages| - 1])
  }

  /** One more yielded message adds its content at the end of the accumulated text. */
  lemma YieldedTextStep(messages: seq<ChatMessage>, m: ChatMessage)
    ensures YieldedText(messages + [m]) == YieldedText(messages) + DeltaText(m)
  {
    assert (messages + [m])[..|messages|] == messages;
  }

  lemma {:induction false} YieldedTextAppend(a: seq<ChatMessage>, b: seq<ChatMessage>)
    ensures YieldedText(a + b) == YieldedText(a) + YieldedText(b)
  {
    if b != [] {
      assert (a + b)[..|a + b| - 1] == a + b[..|b| - 1];
      YieldedTextAppend(a, b[..|b| - 1]);
    } else {
      assert a + b == a;
    }
  }

  /** What a chunk adds to the chat accumulator: its content when truthy, else nothing. */
  function ContentOf(chunk: ChatChunk): string {
    if Truthy(chunk.content) then chunk.content.value else ""
  }

  /** The chat accumulator after a stream: the truthy contents, concatenated in order. */
  function ChatText(chunks: seq<ChatChunk>): string {
    if chunks == [] then "" else ChatText(chunks[..|chunks| - 1]) + ContentOf(chunks[|chunks| - 1])
  }

  lemma ChatTextStep(chunks: seq<ChatChunk>, i: nat)
    requires i < |chunks|
    ensures ChatText(chunks[..i + 1]) == ChatText(chunks[..i]) + ContentOf(chunks[i])
  {
    assert chunks[..i + 1][..i] == chunks[..i];
  }

  /** Filter, then concatenate: the chat accumulator is the concatenated text of exactly the
      messages yielded. */
  lemma {:induction false} ChatTextIsYieldedText(chunks: seq<ChatChunk>)
    ensures ChatText(chunks) == YieldedText(ChatYields(chunks))
  {
    if chunks != [] {
      var n := |chunks| - 1;
      ChatTextIsYieldedText(chunks[..n]);
      YieldedTextAppend(ChatYields(chunks[..n]), Yield(chunks[n]));
      if Truthy(chunks[n].content) {
        assert YieldedText(Yield(chunks[n])) == ContentOf(chunks[n]) by {
          assert Yield(chunks[n])[..0] == [];
        }
      }
    }
  }

  /** The values a consumer receives when it closes the producer after `demand` values
      (`None`: it drains the producer). */
  function Taken<T>(s: seq<T>, demand: Option<nat>): (r: seq<T>)
    ensures r <= s
    ensures demand.None? ==> r == s
    ensures demand.Some? ==> |r| == Min(demand.value, |s|)
  {
    if demand.Some? && demand.value < |s| then s[..demand.value] else s
  }

  /** A consumer that closes the producer on receiving the last value of `p`, a prefix of
      everything the producer would yield, has received exactly `p`. */
  lemma TakenAtClose<T>(s: seq<T>, p: seq<T>, demand: Option<nat>)
    requires p <= s && demand == Some(|p|)
    ensures Taken(s, demand) == p && ClosedEarly(|s|, demand)
  {
  }

  /** A consumer that closes the chat producer on receiving the yield of chunk `i` has
      received the yields of the chunks up to and including `i`. */
  lemma ChatClosedAt(chunks: seq<ChatChunk>, i: nat, demand: Option<nat>)
    requires i < |chunks|
    requires demand == Some(|ChatYields(chunks[..i + 1])|)
    ensures Taken(ChatYields(chunks), demand) == ChatYields(chunks[..i + 1])
    ensures ClosedEarly(|ChatYields(chunks)|, demand)
  {
    assert chunks == chunks[..i + 1] + chunks[i + 1..];
    ChatYieldsAppend(chunks[..i + 1], chunks[i + 1..]);
    TakenAtClose(ChatYields(chunks), ChatYields(chunks[..i + 1]), demand);
  }

  /** A consumer that has not closed the chat producer by the end of the stream has
      received all of its yields. */
  lemma ChatDrained(chunks: seq<ChatChunk>, demand: Option<nat>)
    requires demand.Some? ==> |ChatYields(chunks)| < demand.value
    ensures Taken(ChatYields(chunks), demand) == ChatYields(chunks)
    ensures !ClosedEarly(|ChatYields(chunks)|, demand)
  {
  }

  /** Whether the consumer closes the producer at one of its `n` yields, which ends the
      producer at that yield. */
  predicate ClosedEarly(n: nat, demand: Option<nat>) {
    demand.Some? && demand.value <= n
  }
}
