// Consuming one provider stream: two coupled publication guards and the native tool calls.
module TurnStream {
  import opened Wrappers
  import T = Text
  import opened DsmlParser
  import opened DsmlTags
  import opened DsmlTheorems
  import opened TextGuard
  import opened ToolDeltas
  import C = Conversation
  import opened RunState
  import opened UsageMeter

  datatype StreamEvent =
    | ThinkingChunk(thinking: string)
    | TextChunk(text: string)
    | AssistantDelta(thinking: string, text: string)
    | ToolCallDelta(delta: Delta)
    | UsageSnapshot(usage: C.Usage)
    | Finish(reason: Option<string>)

  datatype StreamItem = Item(event: StreamEvent) | Broken(message: string)

  // -------------------------------------------------------- what a stream says, read as a whole

  function ThinkingPart(item: StreamItem): string {
    if item.Item? && (item.event.ThinkingChunk? || item.event.AssistantDelta?) then item.event.thinking else ""
  }

  function TextPart(item: StreamItem): string {
    if item.Item? && (item.event.TextChunk? || item.event.AssistantDelta?) then item.event.text else ""
  }

  /** All reasoning of the stream. */
  function Reasoning(items: seq<StreamItem>): string {
    if items == [] then "" else Reasoning(items[..|items| - 1]) + ThinkingPart(items[|items| - 1])
  }

  /** All answer text of the stream. */
  function Answer(items: seq<StreamItem>): string {
    if items == [] then "" else Answer(items[..|items| - 1]) + TextPart(items[|items| - 1])
  }

  function NativeDeltas(items: seq<StreamItem>): seq<Delta> {
    if items == [] then []
    else
      var last := items[|items| - 1];
      NativeDeltas(items[..|items| - 1]) + if last.Item? && last.event.ToolCallDelta? then [last.event.delta] else []
  }

  predicate HasFinish(items: seq<StreamItem>) {
    exists item <- items :: item.Item? && item.event.Finish?
  }

  /** The usage snapshots among the items. */
  function Snapshots(items: seq<StreamItem>): seq<C.Usage> {
    if items == [] then []
    else
      var front, last := items[..|items| - 1], items[|items| - 1];
      Snapshots(front) + if last.Item? && last.event.UsageSnapshot? then [last.event.usage] else []
  }

  lemma {:induction false} SnapshotsPrefix(items: seq<StreamItem>, i: nat)
    requires i <= |items|
    ensures Snapshots(items[..i]) <= Snapshots(items)
    decreases |items| - i
  {
    if i == |items| {
      assert items[..i] == items;
    } else {
      assert items[..i + 1][..i] == items[..i];
      SnapshotsPrefix(items, i + 1);
    }
  }

  /** Only the current iteration's snapshots went on, along those among the items. */
  ghost predicate HeardSome(before: seq<seq<C.Usage>>, after: seq<seq<C.Usage>>, items: seq<StreamItem>) {
    |after| == |before| > 0 && Heard(before, after, Open(after)) && Open(after) <= Snapshots(items)
  }

  lemma HeardOn(a: seq<seq<C.Usage>>, b: seq<seq<C.Usage>>, c: seq<seq<C.Usage>>, x: seq<C.Usage>, y: seq<C.Usage>)
    requires Heard(a, b, x) && Heard(b, c, y)
    ensures Heard(a, c, y)
  {
  }

  lemma HeardSoFar(before: seq<seq<C.Usage>>, after: seq<seq<C.Usage>>, items: seq<StreamItem>, i: nat)
    requires i <= |items| && Heard(before, after, Snapshots(items[..i]))
    ensures after != [] && Open(after) == Snapshots(items[..i]) && HeardSome(before, after, items)
  {
    hide Snapshots;
    SnapshotsPrefix(items, i);
  }

  lemma NothingHeard(log: seq<seq<C.Usage>>)
    requires log != [] && Open(log) == []
    ensures Heard(log, log, Snapshots([]))
  {
  }

  lemma SnapshotsStep(items: seq<StreamItem>, i: nat)
    requires i < |items|
    ensures Snapshots(items[..i + 1])
         == if items[i].Item? && items[i].event.UsageSnapshot? then Snapshots(items[..i]) + [items[i].event.usage]
            else Snapshots(items[..i])
  {
    assert items[..i + 1][..i] == items[..i];
    assert Snapshots(items[..i]) + [] == Snapshots(items[..i]);
  }

  lemma SameHeard(log: seq<seq<C.Usage>>)
    requires log != []
    ensures Heard(log, log, Open(log))
  {
  }

  /** Nothing but usage snapshots may follow the one Finish, and the stream does not break. */
  predicate Orderly(items: seq<StreamItem>) {
    items == []
    || (var front, last := items[..|items| - 1], items[|items| - 1];
        Orderly(front) && last.Item? && (HasFinish(front) ==> last.event.UsageSnapshot?))
  }

  /** Reasoning that was buffered before the event that brought the answer's first `<`. */
  function ReasoningBeforeLt(items: seq<StreamItem>): string {
    if items == [] then ""
    else
      var front := items[..|items| - 1];
      if '<' in Answer(front) then ReasoningBeforeLt(front) else Reasoning(front)
  }

  /** `ReasoningBeforeLt` cuts at the event in which the answer's first `<` arrived, excluding that event. */
  lemma {:induction false} BeforeLtMeaning(items: seq<StreamItem>) returns (k: nat)
    requires '<' in Answer(items)
    ensures k < |items| && '<' !in Answer(items[..k]) && '<' in Answer(items[..k + 1])
    ensures ReasoningBeforeLt(items) == Reasoning(items[..k])
  {
    var front := items[..|items| - 1];
    if '<' in Answer(front) {
      k := BeforeLtMeaning(front);
      assert front[..k] == items[..k] && front[..k + 1] == items[..k + 1];
    } else {
      k := |items| - 1;
      assert items[..k + 1] == items;
    }
  }

  ghost predicate Transmittable(items: seq<StreamItem>) {
    && Orderly(items)
    && Acceptable(NativeDeltas(items))
    && T.ByteLen(Reasoning(items)) + T.ByteLen(Answer(items)) <= MAX_ASSISTANT_TEXT_BYTES
  }

  /** Whether the stream as a whole is a legal turn. */
  ghost predicate Legal(codec: Codec, items: seq<StreamItem>, lastIteration: bool) {
    && Transmittable(items) && HasFinish(items)
    && AssistantText(codec, Reasoning(items)).Ok? && AssistantText(codec, Reasoning(items)).value.Plain?
    && AssistantText(codec, Answer(items)).Ok?
    && (AssistantText(codec, Answer(items)).value.Calls? ==> NativeDeltas(items) == [])
    && Finalized(SlotsOf(NativeDeltas(items))).Ok?
    && (lastIteration ==> AssistantText(codec, Answer(items)).value.Plain? && NativeDeltas(items) == [])
  }

  /** The calls of a legal turn: the textual batch under fresh ids, or the native calls by index. */
  ghost function TurnCalls(codec: Codec, items: seq<StreamItem>, ids: nat -> string): seq<ToolCall>
    requires AssistantText(codec, Answer(items)).Ok?
    requires Finalized(SlotsOf(NativeDeltas(items))).Ok?
  {
    match AssistantText(codec, Answer(items)).value
    case Calls(_, calls) => Identify(calls, ids)
    case Plain(_) => Finalized(SlotsOf(NativeDeltas(items))).value
  }

  function Identify(calls: seq<ParsedCall>, ids: nat -> string): seq<ToolCall> {
    seq(|calls|, i requires 0 <= i < |calls| => ToolCall("dsml-" + ids(i), calls[i].name, calls[i].arguments))
  }

  /** What a legal turn publishes of its two channels. */
  ghost function TurnText(codec: Codec, items: seq<StreamItem>): C.PublishedTurn
    requires AssistantText(codec, Answer(items)).Ok?
  {
    if AssistantText(codec, Answer(items)).value.Plain? then C.PublishedTurn(Reasoning(items), Answer(items), None)
    else C.PublishedTurn(ReasoningBeforeLt(items), "", None)
  }

  // ---------------------------------------------------------------------- step lemmas

  lemma Step(items: seq<StreamItem>, item: StreamItem)
    ensures Reasoning(items + [item]) == Reasoning(items) + ThinkingPart(item)
    ensures Answer(items + [item]) == Answer(items) + TextPart(item)
    ensures NativeDeltas(items + [item])
         == NativeDeltas(items) + if item.Item? && item.event.ToolCallDelta? then [item.event.delta] else []
    ensures HasFinish(items + [item]) <==> HasFinish(items) || (item.Item? && item.event.Finish?)
    ensures Orderly(items + [item]) <==>
              Orderly(items) && item.Item? && (HasFinish(items) ==> item.event.UsageSnapshot?)
    ensures ReasoningBeforeLt(items + [item]) == if '<' in Answer(items) then ReasoningBeforeLt(items)
              else Reasoning(items)
  {
    hide HasFinish, ThinkingPart, TextPart;
    var more := items + [item];
    assert more[..|more| - 1] == items;
    FinishStep(items, item);
  }

  lemma FinishStep(items: seq<StreamItem>, item: StreamItem)
    ensures HasFinish(items + [item]) <==> HasFinish(items) || (item.Item? && item.event.Finish?)
  {
    assert forall x :: x in items + [item] <==> x in items || x == item;
    assert item in items + [item];
  }

  lemma TransmittableStep(items: seq<StreamItem>, item: StreamItem)
    requires Transmittable(items + [item])
    ensures Transmittable(items)
  {
    hide Acceptable, Orderly, Reasoning, Answer, NativeDeltas, T.ByteLen, HasFinish;
    Step(items, item);
    T.ByteLenConcat(Reasoning(items), ThinkingPart(item));
    T.ByteLenConcat(Answer(items), TextPart(item));
    if item.Item? && item.event.ToolCallDelta? {
      AcceptablePrefix(NativeDeltas(items), item.event.delta);
    } else {
      assert NativeDeltas(items) + [] == NativeDeltas(items);
    }
  }

  /** A stream that went wrong stays wrong. */
  lemma {:induction false} TransmittablePrefix(items: seq<StreamItem>, n: nat)
    requires n <= |items| && Transmittable(items)
    ensures Transmittable(items[..n])
    decreases |items|
  {
    hide Transmittable;
    if n == |items| {
      assert items[..n] == items;
    } else {
      var front := items[..|items| - 1];
      assert items == front + [items[|items| - 1]];
      TransmittableStep(front, items[|items| - 1]);
      TransmittablePrefix(front, n);
      assert front[..n] == items[..n];
    }
  }

  // -------------------------------------------------------------- the two coupled guards

  datatype Progressed = Advanced | Illegal | Closed

  /** Deliver one piece of reasoning. */
  method PublishThinking(run: AgentRun, piece: string) returns (ok: bool)
    requires run.Live() && run.Drafting()
    modifies run.channel, run.progress`published
    ensures run.Drafting() && run.channel.Valid() && NoTerminal(run.channel.accepted)
    ensures ok ==> run.Live()
    ensures run.progress.published == old(run.progress.published).(thinking := old(run.progress.published).thinking
              + if ok then piece else "")
  {
    hide C.Records, C.LedgerOf;
    ok := run.channel.Send(C.Thinking(piece));
    if ok {
      run.progress.published := run.progress.published.(thinking := run.progress.published.thinking + piece);
    } else {
      assert run.progress.published.thinking + "" == run.progress.published.thinking;
    }
  }

  /** Deliver one piece of the answer. */
  method PublishText(run: AgentRun, piece: string) returns (ok: bool)
    requires run.Live() && run.Drafting()
    modifies run.channel, run.progress`published
    ensures run.Drafting() && run.channel.Valid() && NoTerminal(run.channel.accepted)
    ensures ok ==> run.Live()
    ensures run.progress.published
              == old(run.progress.published).(text := old(run.progress.published).text + if ok then piece else "")
  {
    hide C.Records, C.LedgerOf;
    ok := run.channel.Send(C.Text(piece));
    if ok {
      run.progress.published := run.progress.published.(text := run.progress.published.text + piece);
    } else {
      assert run.progress.published.text + "" == run.progress.published.text;
    }
  }

  lemma FrozenStays(before: string, chunk: string, frozenAt: Option<nat>)
    requires frozenAt.Some? ==> frozenAt.value <= |before|
    requires frozenAt.Some? || '<' in before
    ensures SafePrefix(if frozenAt.Some? then (before + chunk)[..frozenAt.value] else before + chunk)
         == SafePrefix(if frozenAt.Some? then before[..frozenAt.value] else before)
  {
    hide SafePrefix;
    SafePrefixGrows(before, chunk);
    assert frozenAt.Some? ==> (before + chunk)[..frozenAt.value] == before[..frozenAt.value];
  }

  /** Push one chunk that fits; a frozen guard buffers it without releasing anything. */
  method Feed(guard: IncrementalAssistantTextGuard, chunk: string) returns (piece: string)
    requires guard.Valid() && T.ByteLen(guard.text) + T.ByteLen(chunk) <= MAX_ASSISTANT_TEXT_BYTES
    modifies guard
    ensures guard.Valid() && guard.text == old(guard.text) + chunk
    ensures old(guard.releasedCursor) <= guard.releasedCursor <= |guard.text|
    ensures guard.text[..guard.releasedCursor] == old(guard.text[..guard.releasedCursor]) + piece
    ensures old(guard.publicationFrozen) ==> guard.releasedCursor == old(guard.releasedCursor) && piece == ""
    ensures guard.publicationFrozen <==> old(guard.publicationFrozen) || '<' in guard.text
    ensures guard.observedRawLt <==> '<' in guard.text
  {
    hide SafePrefix, T.ByteLen;
    ghost var before, was, cursor := guard.text, guard.publicationFrozen, guard.releasedCursor;
    if was {
      FrozenStays(before, chunk, guard.frozenAt);
    }
    var released := guard.Push(chunk);
    piece := if released.value.Some? then released.value.value else "";
    assert '<' in before ==> '<' in guard.text;
    assert before == guard.text[..|before|];
    assert guard.text[..guard.releasedCursor] == guard.text[..cursor] + guard.text[cursor..guard.releasedCursor];
    assert before[..cursor] + "" == before[..cursor];
    assert guard.text[..cursor] == before[..cursor];
  }

  /** The guards of one turn, its reasoning and its answer, which stop each other at the first `<`. */
  class TurnPublisher {
    const thinkingGuard: IncrementalAssistantTextGuard
    const textGuard: IncrementalAssistantTextGuard
    /** How much reasoning was buffered before the answer's first `<`. */
    var thinkingBeforeLt: Option<nat>
    /** The stream so far. */
    ghost var items: seq<StreamItem>

    constructor ()
      ensures Coupled() && items == []
      ensures fresh(thinkingGuard) && fresh(textGuard)
      ensures thinkingGuard.releasedCursor == 0 && textGuard.releasedCursor == 0
    {
      thinkingGuard := new IncrementalAssistantTextGuard();
      textGuard := new IncrementalAssistantTextGuard();
      thinkingBeforeLt, items := None, [];
    }

    ghost predicate Coupled()
      reads this, thinkingGuard, textGuard
    {
      && InStep()
      && thinkingGuard.text == Reasoning(items) && textGuard.text == Answer(items)
      && thinkingBeforeLt == (if '<' in Answer(items) then Some(|ReasoningBeforeLt(items)|) else None)
      && (thinkingBeforeLt.Some? ==> ReasoningBeforeLt(items) <= thinkingGuard.text)
    }

    /** A `<` in either channel has frozen both, and no reasoning behind the cutoff was released. */
    ghost predicate InStep()
      reads this`thinkingBeforeLt, thinkingGuard, textGuard
    {
      && thinkingGuard != textGuard && thinkingGuard.Valid() && textGuard.Valid()
      && (thinkingGuard.publicationFrozen <==> '<' in thinkingGuard.text || '<' in textGuard.text)
      && (textGuard.publicationFrozen <==> '<' in thinkingGuard.text || '<' in textGuard.text)
      && (textGuard.observedRawLt <==> '<' in textGuard.text)
      && thinkingGuard.releasedCursor <= |thinkingGuard.text| && textGuard.releasedCursor <= |textGuard.text|
      && (thinkingBeforeLt.Some? <==> '<' in textGuard.text)
      && (thinkingBeforeLt.Some? ==> thinkingGuard.releasedCursor <= thinkingBeforeLt.value)
    }

    /** The reader has seen exactly what the guards released. */
    ghost predicate Delivered(run: AgentRun)
      reads thinkingGuard, textGuard, run.progress
    {
      && thinkingGuard.releasedCursor <= |thinkingGuard.text| && textGuard.releasedCursor <= |textGuard.text|
      && run.progress.published
         == C.PublishedTurn(thinkingGuard.text[..thinkingGuard.releasedCursor],
             textGuard.text[..textGuard.releasedCursor], None)
    }

    /**
     * Buffer one part of reasoning and one of the answer, keeping both guards in step: after a `<` in either channel,
     * and in
     * a delta that brings one, nothing is released.
     */
    method Absorb(item: StreamItem) returns (thinking: string, text: string)
      requires Coupled()
      requires item.Item? && (item.event.ThinkingChunk? || item.event.TextChunk? || item.event.AssistantDelta?)
      requires T.ByteLen(Reasoning(items)) + T.ByteLen(Answer(items)) + T.ByteLen(ThinkingPart(item))
                 + T.ByteLen(TextPart(item))
            <= MAX_ASSISTANT_TEXT_BYTES
      modifies this, thinkingGuard, textGuard
      ensures Coupled() && items == old(items) + [item]
      ensures thinkingGuard.text[..thinkingGuard.releasedCursor]
           == old(thinkingGuard.text[..thinkingGuard.releasedCursor]) + thinking
      ensures textGuard.text[..textGuard.releasedCursor] == old(textGuard.text[..textGuard.releasedCursor]) + text
      ensures '<' in Reasoning(old(items)) || '<' in Answer(old(items)) ==> thinking == "" && text == ""
      ensures item.event.AssistantDelta? && ('<' in ThinkingPart(item) || '<' in TextPart(item)) ==>
                thinking == "" && text == ""
    {
      hide SafePrefix, T.ByteLen, Reasoning, Answer, ReasoningBeforeLt, Orderly, HasFinish, NativeDeltas,
        TurnPublisher.InStep, IncrementalAssistantTextGuard.Valid;
      Step(items, item);
      ghost var before := items;
      items := items + [item];
      assert Reasoning(before) + "" == Reasoning(before) && Answer(before) + "" == Answer(before);
      thinking, text := "", "";
      match item.event {
        case ThinkingChunk(chunk) =>
          thinking := AbsorbThinking(chunk);
        case TextChunk(chunk) =>
          text := AbsorbText(chunk);
        case AssistantDelta(reasoning, answer) =>
          thinking, text := AbsorbDelta(reasoning, answer);
      }
    }

    /** A chunk of reasoning; its `<` freezes the answer too. */
    method AbsorbThinking(chunk: string) returns (thinking: string)
      requires InStep() && T.ByteLen(thinkingGuard.text) + T.ByteLen(chunk) <= MAX_ASSISTANT_TEXT_BYTES
      modifies thinkingGuard, textGuard
      ensures InStep() && thinkingGuard.text == old(thinkingGuard.text) + chunk && textGuard.text == old(textGuard.text)
      ensures textGuard.releasedCursor == old(textGuard.releasedCursor)
      ensures thinkingGuard.text[..thinkingGuard.releasedCursor]
                == old(thinkingGuard.text[..thinkingGuard.releasedCursor]) + thinking
      ensures '<' in old(thinkingGuard.text) || '<' in old(textGuard.text) ==> thinking == ""
    {
      hide SafePrefix, T.ByteLen, IncrementalAssistantTextGuard.Valid;
      thinking := Feed(thinkingGuard, chunk);
      if thinkingGuard.publicationFrozen {
        textGuard.FreezePublication();
      }
    }

    /** A chunk of the answer; its `<` freezes the reasoning too, and everything reasoned so far came before it. */
    method AbsorbText(chunk: string) returns (text: string)
      requires InStep() && T.ByteLen(textGuard.text) + T.ByteLen(chunk) <= MAX_ASSISTANT_TEXT_BYTES
      modifies this`thinkingBeforeLt, thinkingGuard, textGuard
      ensures InStep() && textGuard.text == old(textGuard.text) + chunk && thinkingGuard.text == old(thinkingGuard.text)
      ensures thinkingGuard.releasedCursor == old(thinkingGuard.releasedCursor)
      ensures thinkingBeforeLt == if old(thinkingBeforeLt).Some? || '<' !in chunk then old(thinkingBeforeLt)
                                  else Some(|old(thinkingGuard.text)|)
      ensures textGuard.text[..textGuard.releasedCursor] == old(textGuard.text[..textGuard.releasedCursor]) + text
      ensures '<' in old(thinkingGuard.text) || '<' in old(textGuard.text) ==> text == ""
    {
      hide SafePrefix, T.ByteLen, IncrementalAssistantTextGuard.Valid;
      var observed := textGuard.observedRawLt;
      text := Feed(textGuard, chunk);
      if !observed && textGuard.observedRawLt {
        thinkingBeforeLt := Some(|thinkingGuard.text|);
      }
      if textGuard.publicationFrozen {
        thinkingGuard.FreezePublication();
      }
    }

    /** Usage, tool-call and finish events touch neither channel. */
    ghost method Skip(item: StreamItem)
      requires Coupled() && ThinkingPart(item) == "" && TextPart(item) == ""
                 && !(item.Item? && item.event.AssistantDelta?)
      modifies this`items
      ensures Coupled() && items == old(items) + [item]
    {
      hide SafePrefix, Reasoning, Answer, ReasoningBeforeLt;
      Step(items, item);
      assert Reasoning(items) + "" == Reasoning(items) && Answer(items) + "" == Answer(items);
      items := items + [item];
    }

    /** One delta of both channels: a `<` in either freezes both before either can release anything. */
    method AbsorbDelta(reasoning: string, answer: string) returns (thinking: string, text: string)
      requires InStep()
      requires T.ByteLen(thinkingGuard.text) + T.ByteLen(textGuard.text) + T.ByteLen(reasoning) + T.ByteLen(answer)
            <= MAX_ASSISTANT_TEXT_BYTES
      modifies this`thinkingBeforeLt, thinkingGuard, textGuard
      ensures InStep() && thinkingGuard.text == old(thinkingGuard.text) + reasoning
                && textGuard.text == old(textGuard.text) + answer
      ensures '<' in thinkingGuard.text || '<' in textGuard.text ==> thinking == "" && text == ""
      ensures thinkingBeforeLt == if old(thinkingBeforeLt).Some? || '<' !in answer then old(thinkingBeforeLt)
                                  else Some(|old(thinkingGuard.text)|)
      ensures thinkingGuard.text[..thinkingGuard.releasedCursor]
           == old(thinkingGuard.text[..thinkingGuard.releasedCursor]) + thinking
      ensures textGuard.text[..textGuard.releasedCursor] == old(textGuard.text[..textGuard.releasedCursor]) + text
    {
      hide SafePrefix, T.ByteLen, IncrementalAssistantTextGuard.Valid;
      var start, observed := |thinkingGuard.text|, textGuard.observedRawLt;
      if '<' in reasoning || '<' in answer {
        thinkingGuard.FreezePublication();
        textGuard.FreezePublication();
      }
      thinking := Feed(thinkingGuard, reasoning);
      text := Feed(textGuard, answer);
      if !observed && textGuard.observedRawLt {
        thinkingBeforeLt := Some(start);
      }
      if thinkingGuard.publicationFrozen || textGuard.publicationFrozen {
        thinkingGuard.FreezePublication();
        textGuard.FreezePublication();
      }
    }
  }

  predicate IsChannelItem(item: StreamItem) {
    item.Item? && (item.event.ThinkingChunk? || item.event.TextChunk? || item.event.AssistantDelta?)
  }

  /** Buffer one channel event and deliver whatever became publishable, reasoning first. */
  method Receive(run: AgentRun, publisher: TurnPublisher, item: StreamItem) returns (p: Progressed)
    requires publisher.Coupled() && publisher.Delivered(run) && run.Live() && run.Drafting() && IsChannelItem(item)
    modifies publisher, publisher.thinkingGuard, publisher.textGuard, run.channel, run.progress`published
    ensures run.Drafting() && run.progress.published.toolCalls.None? && run.channel.Valid()
              && NoTerminal(run.channel.accepted)
    ensures p.Closed? || run.Live()
    ensures p.Advanced? ==>
              publisher.Coupled() && publisher.Delivered(run) && publisher.items == old(publisher.items) + [item]
    ensures !p.Closed? ==>
              (p.Advanced? <==>
                T.ByteLen(Reasoning(old(publisher.items) + [item])) + T.ByteLen(Answer(old(publisher.items) + [item]))
                  <= MAX_ASSISTANT_TEXT_BYTES)
  {
    hide SafePrefix, T.ByteLen, Reasoning, Answer, ReasoningBeforeLt, C.Records, NoTerminal, C.LedgerOf;
    Step(publisher.items, item);
    T.ByteLenConcat(publisher.thinkingGuard.text, ThinkingPart(item));
    T.ByteLenConcat(publisher.textGuard.text, TextPart(item));
    if T.ByteLen(publisher.thinkingGuard.text) + T.ByteLen(publisher.textGuard.text)
         + T.ByteLen(ThinkingPart(item)) + T.ByteLen(TextPart(item)) > MAX_ASSISTANT_TEXT_BYTES {
      return Illegal;
    }
    var thinking, text := publisher.Absorb(item);
    if thinking != "" {
      var sent := PublishThinking(run, thinking);
      if !sent {
        return Closed;
      }
    }
    if text != "" {
      var sent := PublishText(run, text);
      if !sent {
        return Closed;
      }
    }
    p := Advanced;
  }

  datatype StreamFlow = RunEnded(outcome: Outcome) | Accepted(finishReason: Option<string>, calls: seq<ToolCall>)

  datatype Received = Whole(finishReason: Option<string>) | Stopped(outcome: Outcome)

  const PROTOCOL_INVALID := "assistant_protocol_invalid"
  const CAPABILITY_VIOLATION := "assistant_capability_violation"

  /** Consume the provider's stream until it ends, publishing what is safe. */
  method ReceiveStream(run: AgentRun, publisher: TurnPublisher, native: ToolCallAccumulator, items: seq<StreamItem>,
      previousText: string)
    returns (r: Received)
    requires publisher.Coupled() && publisher.items == [] && publisher.Delivered(run) && run.Live() && run.Drafting()
    requires native.Valid() && native.accepted == []
    requires run.progress.Metering() && run.progress.snapshots != [] && Open(run.progress.snapshots) == []
    modifies publisher, publisher.thinkingGuard, publisher.textGuard, native
    modifies run.channel, run.progress`published, run.progress`usage, run.progress`iterationUsage,
      run.progress`snapshots,
      run.session`messages, run.session.frame`status
    ensures old(run.session.messages) <= run.session.messages
    ensures r.Stopped? ==>
              && run.Ended(r.outcome)
              && (r.outcome.kind == C.Cancelled
                   || (r.outcome.kind == C.ErrorKind && !(Transmittable(items) && HasFinish(items))))
    ensures r.Whole? ==>
              && run.session.messages == old(run.session.messages) && run.Live() && run.Drafting()
              && publisher.Coupled() && publisher.items == items && publisher.Delivered(run)
              && native.Valid() && native.accepted == NativeDeltas(items)
              && Transmittable(items) && HasFinish(items)
    ensures run.progress.Metering() && HeardSome(old(run.progress.snapshots), run.progress.snapshots, items)
    ensures r.Whole? ==> Open(run.progress.snapshots) == Snapshots(items)
  {
    hide SafePrefix, T.ByteLen, Reasoning, Answer, ReasoningBeforeLt, NativeDeltas, Orderly, HasFinish, Acceptable,
      Transmittable, Snapshots, Heard, HeardSome, Open, RunProgress.Metering, C.Records, NoTerminal, C.LedgerOf,
      C.Turns, EventChannel.Valid, ToolCallAccumulator.Valid, TurnPublisher.Coupled, AgentRun.Ended;
    var i, sawFinish, finishReason: Option<string> := 0, false, None;
    EmptyStream();
    NothingHeard(run.progress.snapshots);
    assert items[..0] == [];
    while true
      invariant i <= |items| && run.session.messages == old(run.session.messages)
      invariant run.Live() && run.Drafting()
      invariant publisher.Coupled() && publisher.items == items[..i] && publisher.Delivered(run)
      invariant native.Valid() && native.accepted == NativeDeltas(items[..i])
      invariant Transmittable(items[..i]) && (sawFinish <==> HasFinish(items[..i]))
      invariant run.progress.Metering()
      invariant Heard(old(run.progress.snapshots), run.progress.snapshots, Snapshots(items[..i]))
      decreases |items| - i
    {
      HeardSoFar(old(run.progress.snapshots), run.progress.snapshots, items, i);
      var closed := run.channel.IsClosed();
      if closed {
        var o := run.Cancel();
        return Stopped(o);
      }
      if i == |items| {
        break;
      }
      ghost var before := run.progress.snapshots;
      var step := ReceiveItem(run, publisher, native, items, items[i], i, sawFinish, previousText);
      ghost var n := if step.Some? then i else i + 1;
      HeardOn(old(run.progress.snapshots), before, run.progress.snapshots, Snapshots(items[..i]),
          Snapshots(items[..n]));
      if step.Some? {
        HeardSoFar(old(run.progress.snapshots), run.progress.snapshots, items, i);
        return Stopped(step.value);
      }
      if items[i].event.Finish? {
        sawFinish, finishReason := true, items[i].event.reason;
      }
      i := i + 1;
    }
    assert items[..i] == items;
    if !sawFinish {
      var o := run.Fail(previousText, "provider stream ended before a Finish event", None);
      return Stopped(o);
    }
    r := Whole(finishReason);
  }

  lemma EmptyStream()
    ensures Transmittable([]) && !HasFinish([]) && NativeDeltas([]) == []
  {
    EmptyDeltas();
  }

  lemma EmptyDeltas()
    ensures Acceptable([])
  {
    assert Indexes([]) == {};
    assert forall index: nat :: Sub([], index) == [];
  }

  /** A Finish, a native delta or a channel event that came before any Finish. */
  method Take(run: AgentRun, publisher: TurnPublisher, native: ToolCallAccumulator,
      item: StreamItem) returns (p: Progressed)
    requires run.Live() && run.Drafting() && publisher.Coupled() && publisher.Delivered(run) && native.Valid()
    requires item.Item? && !item.event.UsageSnapshot?
    modifies publisher, publisher.thinkingGuard, publisher.textGuard, native, run.channel, run.progress`published
    ensures run.Drafting() && run.progress.published.toolCalls.None? && run.channel.Valid()
              && NoTerminal(run.channel.accepted)
    ensures p.Closed? || run.Live()
    ensures p.Advanced? ==>
              && publisher.Coupled() && publisher.Delivered(run) && publisher.items == old(publisher.items) + [item]
              && native.Valid()
              && native.accepted == old(native.accepted) + if item.event.ToolCallDelta? then [item.event.delta] else []
    ensures !p.Closed? && item.event.Finish? ==> p.Advanced?
    ensures !p.Closed? && item.event.ToolCallDelta? ==>
              (p.Advanced? <==> Acceptable(old(native.accepted) + [item.event.delta]))
    ensures !p.Closed? && IsChannelItem(item) ==>
              (p.Advanced? <==>
                T.ByteLen(Reasoning(old(publisher.items) + [item])) + T.ByteLen(Answer(old(publisher.items) + [item]))
                  <= MAX_ASSISTANT_TEXT_BYTES)
  {
    hide SafePrefix, T.ByteLen, Reasoning, Answer, ReasoningBeforeLt, NativeDeltas, Acceptable, C.Records, NoTerminal,
      C.LedgerOf, C.Turns;
    assert native.accepted + [] == native.accepted;
    if item.event.Finish? {
      publisher.Skip(item);
      p := Advanced;
    } else if item.event.ToolCallDelta? {
      var pushed := native.Push(item.event.delta);
      if pushed.Err? {
        return Illegal;
      }
      publisher.Skip(item);
      p := Advanced;
    } else {
      p := Receive(run, publisher, item);
    }
  }

  /** One item of the stream; a result means that it ended the run. */
  method ReceiveItem(
    run: AgentRun, publisher: TurnPublisher, native: ToolCallAccumulator,
    ghost items: seq<StreamItem>, item: StreamItem, ghost i: nat, sawFinish: bool, previousText: string)
    returns (stopped: Option<Outcome>)
    requires i < |items| && item == items[i]
    requires run.Live() && run.Drafting()
    requires publisher.Coupled() && publisher.items == items[..i] && publisher.Delivered(run)
    requires native.Valid() && native.accepted == NativeDeltas(items[..i])
    requires Transmittable(items[..i]) && (sawFinish <==> HasFinish(items[..i]))
    requires run.progress.Metering() && run.progress.snapshots != []
    requires Open(run.progress.snapshots) == Snapshots(items[..i])
    modifies publisher, publisher.thinkingGuard, publisher.textGuard, native
    modifies run.channel, run.progress`published, run.progress`usage, run.progress`iterationUsage,
      run.progress`snapshots,
      run.session`messages, run.session.frame`status
    ensures old(run.session.messages) <= run.session.messages
    ensures stopped.Some? ==>
              && run.Ended(stopped.value)
              && (stopped.value.kind == C.Cancelled || (stopped.value.kind == C.ErrorKind && !Transmittable(items)))
    ensures stopped.None? ==>
              && run.session.messages == old(run.session.messages) && run.Live() && run.Drafting()
              && publisher.Coupled() && publisher.items == items[..i + 1] && publisher.Delivered(run)
              && native.Valid() && native.accepted == NativeDeltas(items[..i + 1])
              && Transmittable(items[..i + 1]) && item.Item?
              && (HasFinish(items[..i + 1]) <==> sawFinish || item.event.Finish?)
    ensures run.progress.Metering()
    ensures Heard(old(run.progress.snapshots), run.progress.snapshots,
                  Snapshots(if stopped.None? then items[..i + 1] else items[..i]))
  {
    hide SafePrefix, T.ByteLen, Reasoning, Answer, ReasoningBeforeLt, NativeDeltas, Orderly, HasFinish, Acceptable,
      Transmittable, Snapshots, Heard, HeardSome, Open, RunProgress.Metering, C.Records, NoTerminal, C.LedgerOf,
      C.Turns, EventChannel.Valid, ToolCallAccumulator.Valid, TurnPublisher.Coupled, AgentRun.Ended;
    ItemStep(items, i);
    SnapshotsStep(items, i);
    SameHeard(run.progress.snapshots);
    if item.Broken? {
      var o := run.Fail(previousText, item.message, None);
      return Some(o);
    }
    if item.event.UsageSnapshot? {
      run.progress.RecordUsage(item.event.usage);
      publisher.Skip(item);
      return None;
    }
    if sawFinish {
      var o := run.FailInvalidatedCandidate(previousText, PROTOCOL_INVALID,
          "provider emitted an event after the Finish event");
      return Some(o);
    }
    var p := Take(run, publisher, native, item);
    if p.Closed? {
      var o := run.Cancel();
      return Some(o);
    }
    if !p.Advanced? {
      var o := run.FailInvalidatedCandidate(previousText, PROTOCOL_INVALID,
          "provider emitted an invalid assistant turn");
      return Some(o);
    }
    stopped := None;
  }

  lemma ItemStep(items: seq<StreamItem>, i: nat)
    requires i < |items| && Transmittable(items[..i])
    ensures items[..i + 1] == items[..i] + [items[i]]
    ensures !Transmittable(items[..i + 1]) ==> !Transmittable(items)
    ensures NativeDeltas(items[..i + 1])
         == NativeDeltas(items[..i])
            + if items[i].Item? && items[i].event.ToolCallDelta? then [items[i].event.delta] else []
    ensures HasFinish(items[..i + 1]) <==> HasFinish(items[..i]) || (items[i].Item? && items[i].event.Finish?)
    ensures Transmittable(items[..i + 1]) <==>
              && items[i].Item?
              && (HasFinish(items[..i]) ==> items[i].event.UsageSnapshot?)
              && (items[i].event.ToolCallDelta? ==> Acceptable(NativeDeltas(items[..i]) + [items[i].event.delta]))
              && (IsChannelItem(items[i]) ==>
                   T.ByteLen(Reasoning(items[..i + 1])) + T.ByteLen(Answer(items[..i + 1])) <= MAX_ASSISTANT_TEXT_BYTES)
  {
    hide T.ByteLen, Reasoning, Answer, ReasoningBeforeLt, NativeDeltas, Orderly, HasFinish, Acceptable;
    assert items[..i + 1] == items[..i] + [items[i]];
    Step(items[..i], items[i]);
    assert Reasoning(items[..i]) + "" == Reasoning(items[..i]) && Answer(items[..i]) + "" == Answer(items[..i]);
    assert NativeDeltas(items[..i]) + [] == NativeDeltas(items[..i]);
    if Transmittable(items) {
      TransmittablePrefix(items, i + 1);
    }
  }

  /** The decision over a completely received turn, before any withheld text is delivered. */
  datatype Decision = Refused(reason: string, message: string) | Turn(thinkingRest: string, textRest: string,
      calls: seq<ToolCall>)

  method Decide(publisher: TurnPublisher, native: ToolCallAccumulator, codec: Codec, items: seq<StreamItem>,
      ids: nat -> string, lastIteration: bool)
    returns (d: Decision)
    requires publisher.Coupled() && publisher.items == items
    requires native.Valid() && native.accepted == NativeDeltas(items)
    requires Transmittable(items) && HasFinish(items)
    ensures d.Turn? <==> Legal(codec, items, lastIteration)
    ensures d.Turn? ==>
              && var thinking, text := publisher.thinkingGuard, publisher.textGuard;
              && thinking.releasedCursor <= |thinking.text| && text.releasedCursor <= |text.text|
              && TurnText(codec, items) == C.PublishedTurn(
                   thinking.text[..thinking.releasedCursor] + d.thinkingRest, text.text[..text.releasedCursor]
                       + d.textRest, None)
              && d.calls == TurnCalls(codec, items, ids)
  {
    hide SafePrefix, T.ByteLen, AssistantText, Reasoning, Answer, ReasoningBeforeLt, NativeDeltas, Transmittable,
      HasFinish, Acceptable, TurnText, Finalized, SlotsOf, CallOf, Ascending, IdsDiffer, C.IsEmpty,
      TurnPublisher.Coupled;
    var parsedThinking, parsedText := FinishBoth(publisher, codec, items);
    if parsedThinking.Err? || parsedThinking.value.ToolCallBatch? {
      return Refused(PROTOCOL_INVALID, "provider emitted invalid reasoning protocol");
    }
    if parsedText.Err? {
      return Refused(PROTOCOL_INVALID, "provider emitted invalid textual tool protocol");
    }
    NoDeltasNoCalls(native.accepted);
    BatchIsNotEmpty(codec, Answer(items));
    if native.calls != map[] && parsedText.value.ToolCallBatch? {
      return Refused(PROTOCOL_INVALID, "provider emitted both native and textual tool protocols in one turn");
    }
    var finalized := native.Finalize();
    if finalized.Err? {
      return Refused(PROTOCOL_INVALID, "provider emitted invalid native tool protocol");
    }
    var calls := if parsedText.value.PlainRest? then finalized.value else Identify(parsedText.value.calls, ids);
    if lastIteration && calls != [] {
      return Refused(CAPABILITY_VIOLATION, "final iteration attempted tool calls after tools were disabled");
    }
    var thinkingRest, textRest := Remainders(publisher, codec, items, parsedThinking.value.remainder, parsedText.value);
    d := Turn(thinkingRest, textRest, calls);
  }

  /** The canonical decisions over the two complete channels. */
  method FinishBoth(publisher: TurnPublisher, codec: Codec, items: seq<StreamItem>)
    returns (thinking: Result<Finished, DsmlError>, text: Result<Finished, DsmlError>)
    requires publisher.Coupled() && publisher.items == items
    ensures publisher.thinkingGuard.releasedCursor <= |publisher.thinkingGuard.text|
    ensures publisher.thinkingGuard.text == Reasoning(items) && publisher.textGuard.text == Answer(items)
    ensures publisher.textGuard.releasedCursor <= |publisher.textGuard.text|
    ensures match AssistantText(codec, Reasoning(items))
            case Err(e) => thinking == Err(e)
            case Ok(Plain(_)) => thinking == Ok(PlainRest(Reasoning(items)[publisher.thinkingGuard.releasedCursor..]))
            case Ok(Calls(_, calls)) => thinking == Ok(ToolCallBatch("", calls))
    ensures match AssistantText(codec, Answer(items))
            case Err(e) => text == Err(e)
            case Ok(Plain(_)) => text == Ok(PlainRest(Answer(items)[publisher.textGuard.releasedCursor..]))
            case Ok(Calls(_, calls)) =>
              && text == Ok(ToolCallBatch("", calls))
              && publisher.textGuard.releasedCursor == 0 && '<' in Answer(items)
  {
    hide SafePrefix, T.ByteLen, AssistantText, Reasoning, Answer, ReasoningBeforeLt;
    thinking := publisher.thinkingGuard.Finish(codec);
    text := publisher.textGuard.Finish(codec);
  }

  /** How much of the withheld text may still be delivered. */
  method Remainders(publisher: TurnPublisher, codec: Codec, items: seq<StreamItem>, plainThinking: string,
      parsedText: Finished)
    returns (thinkingRest: string, textRest: string)
    requires publisher.Coupled() && publisher.items == items
    requires publisher.thinkingGuard.releasedCursor <= |Reasoning(items)|
    requires plainThinking == Reasoning(items)[publisher.thinkingGuard.releasedCursor..]
    requires match AssistantText(codec, Answer(items))
             case Err(_) => false
             case Ok(Plain(_)) => publisher.textGuard.releasedCursor <= |Answer(items)|
                                  && parsedText == PlainRest(Answer(items)[publisher.textGuard.releasedCursor..])
             case Ok(Calls(_, calls)) =>
               && parsedText == ToolCallBatch("", calls)
               && publisher.textGuard.releasedCursor == 0 && '<' in Answer(items)
    ensures var thinking, text := publisher.thinkingGuard, publisher.textGuard;
            && text.releasedCursor <= |text.text|
            && TurnText(codec, items) == C.PublishedTurn(
                 thinking.text[..thinking.releasedCursor] + thinkingRest, text.text[..text.releasedCursor]
                     + textRest, None)
  {
    hide SafePrefix, T.ByteLen, AssistantText, Reasoning, Answer, ReasoningBeforeLt;
    var thinking, text := publisher.thinkingGuard, publisher.textGuard;
    if parsedText.PlainRest? {
      thinkingRest, textRest := plainThinking, parsedText.remainder;
      assert thinking.text == thinking.text[..thinking.releasedCursor] + thinkingRest;
      assert text.text == text.text[..text.releasedCursor] + textRest;
    } else {
      var before := publisher.thinkingBeforeLt.value;
      thinkingRest, textRest := plainThinking[..before - thinking.releasedCursor], "";
      assert thinking.text[..before] == thinking.text[..thinking.releasedCursor] + thinkingRest;
      assert text.text[..0] + "" == "";
    }
  }

  lemma NoDeltasNoCalls(ds: seq<Delta>)
    ensures SlotsOf(ds) == map[] <==> ds == []
    ensures Finalized(SlotsOf(ds)).Ok? ==> (Finalized(SlotsOf(ds)).value == [] <==> ds == [])
  {
    hide SlotOf, Sub, Complete, CallOf, IdsDiffer;
    if ds == [] {
      assert Indexes(ds) == {};
    } else {
      assert ds[0].index in Indexes(ds);
      assert ds[0].index in SlotsOf(ds);
    }
    FinalizeMeaning(SlotsOf(ds), Ascending(SlotsOf(ds).Keys), {}, []);
  }

  lemma BatchIsNotEmpty(codec: Codec, text: string)
    ensures var r := AssistantText(codec, text); r.Ok? && r.value.Calls? ==> r.value.calls != []
  {
    hide AssistantText;
    if AssistantText(codec, text).Ok? && AssistantText(codec, text).value.Calls? {
      var start, end := AcceptedTurn(codec, text);
    }
  }

  lemma LegalIsWhole(codec: Codec, items: seq<StreamItem>, lastIteration: bool)
    ensures Legal(codec, items, lastIteration) ==> Transmittable(items) && HasFinish(items)
  {
    hide Transmittable, HasFinish;
  }

  /**
   * One provider turn. If it is legal, the reader has seen all of a plain turn, or of a tool-call envelope exactly the
   * reasoning that came before the answer's first `<`; otherwise the run has ended.
   */
  method StreamTurn(run: AgentRun, codec: Codec, items: seq<StreamItem>, ids: nat -> string, lastIteration: bool,
      previousText: string)
    returns (flow: StreamFlow)
    requires run.Live() && run.Drafting() && run.progress.published == C.NOTHING
    requires run.progress.Metering() && run.progress.snapshots != [] && Open(run.progress.snapshots) == []
    modifies run.channel, run.progress`published, run.progress`usage, run.progress`iterationUsage,
      run.progress`snapshots,
      run.session`messages, run.session.frame`status
    ensures old(run.session.messages) <= run.session.messages
    ensures flow.RunEnded? ==>
              && run.Ended(flow.outcome)
              && (flow.outcome.kind == C.Cancelled
                   || (flow.outcome.kind == C.ErrorKind && !Legal(codec, items, lastIteration)))
    ensures flow.Accepted? ==>
              && Legal(codec, items, lastIteration) && flow.calls == TurnCalls(codec, items, ids)
              && run.progress.published == TurnText(codec, items)
              && run.session.messages == old(run.session.messages) && run.Live() && run.Drafting()
    ensures run.progress.Metering() && HeardSome(old(run.progress.snapshots), run.progress.snapshots, items)
    ensures flow.Accepted? ==> Open(run.progress.snapshots) == Snapshots(items)
  {
    hide SafePrefix, T.ByteLen, AssistantText, Reasoning, Answer, ReasoningBeforeLt, NativeDeltas, Transmittable,
      HasFinish, Acceptable, HeardSome, RunProgress.Metering, Snapshots, Open, Legal, C.Records, C.LedgerOf, C.Turns,
      NoTerminal, TurnPublisher.Coupled, EndsWith, AgentRun.Drafting, AgentRun.Settled, EventChannel.Valid,
      IncrementalAssistantTextGuard.Valid, ToolCallAccumulator.Valid, TurnText, TurnCalls;
    var publisher := new TurnPublisher();
    var native := new ToolCallAccumulator();
    assert publisher.thinkingGuard.text[..0] == publisher.textGuard.text[..0] == "";
    LegalIsWhole(codec, items, lastIteration);
    var received := ReceiveStream(run, publisher, native, items, previousText);
    if received.Stopped? {
      return RunEnded(received.outcome);
    }
    flow := FinishTurn(run, publisher, native, codec, items, ids, lastIteration, previousText, received.finishReason);
  }

  /** Decide over a completely received turn and deliver what was withheld of it. */
  method FinishTurn(run: AgentRun, publisher: TurnPublisher, native: ToolCallAccumulator, codec: Codec,
      items: seq<StreamItem>, ids: nat -> string, lastIteration: bool, previousText: string,
      finishReason: Option<string>)
    returns (flow: StreamFlow)
    requires run.Live() && run.Drafting() && publisher.Coupled() && publisher.items == items && publisher.Delivered(run)
    requires native.Valid() && native.accepted == NativeDeltas(items)
    requires Transmittable(items) && HasFinish(items)
    modifies run.channel, run.progress`published, run.session`messages, run.session.frame`status
    ensures old(run.session.messages) <= run.session.messages
    ensures flow.RunEnded? ==>
              && run.Ended(flow.outcome)
              && (flow.outcome.kind == C.Cancelled
                   || (flow.outcome.kind == C.ErrorKind && !Legal(codec, items, lastIteration)))
    ensures flow.Accepted? ==>
              && Legal(codec, items, lastIteration) && flow.calls == TurnCalls(codec, items, ids)
              && run.progress.published == TurnText(codec, items)
              && run.session.messages == old(run.session.messages) && run.Live() && run.Drafting()
  {
    hide SafePrefix, T.ByteLen, AssistantText, Reasoning, Answer, ReasoningBeforeLt, NativeDeltas, Transmittable,
      HasFinish, Acceptable, Snapshots, Legal, AgentRun.Ended, C.Records, C.LedgerOf, C.Turns, NoTerminal,
      TurnPublisher.Coupled, EndsWith, AgentRun.Drafting, AgentRun.Settled, EventChannel.Valid,
      IncrementalAssistantTextGuard.Valid, ToolCallAccumulator.Valid, TurnText, TurnCalls;
    var closed := run.channel.IsClosed();
    if closed {
      var o := run.Cancel();
      return RunEnded(o);
    }
    var decision := Decide(publisher, native, codec, items, ids, lastIteration);
    if decision.Refused? {
      var o := run.FailInvalidatedCandidate(previousText, decision.reason, decision.message);
      return RunEnded(o);
    }
    closed := run.channel.IsClosed();
    if closed {
      var o := run.Cancel();
      return RunEnded(o);
    }
    var sent := PublishRest(run, decision.thinkingRest, decision.textRest);
    if !sent {
      var o := run.Cancel();
      return RunEnded(o);
    }
    flow := Accepted(finishReason, decision.calls);
  }

  /** Deliver what was withheld, reasoning first. */
  method PublishRest(run: AgentRun, thinking: string, text: string) returns (ok: bool)
    requires run.Live() && run.Drafting()
    modifies run.channel, run.progress`published
    ensures run.Drafting() && run.channel.Valid() && NoTerminal(run.channel.accepted)
    ensures ok ==> run.Live()
    ensures ok ==> run.progress.published == old(run.progress.published).(
                     thinking := old(run.progress.published).thinking
                         + thinking, text := old(run.progress.published).text + text)
  {
    hide C.Records, C.LedgerOf, NoTerminal;
    var was := run.progress.published;
    assert was.thinking + "" == was.thinking && was.text + "" == was.text;
    ok := true;
    if thinking != "" {
      ok := PublishThinking(run, thinking);
    }
    if ok && text != "" {
      ok := PublishText(run, text);
    }
  }
}
