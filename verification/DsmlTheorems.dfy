// What an accepted or a plain turn looks like, and what the visible-tag scan may skip.
module DsmlTheorems {
  import opened Wrappers
  import opened Text
  import opened Markdown
  import opened Backticks
  import opened DsmlTags
  import opened TopLevel
  import opened DsmlParser
  import opened DsmlRoundTrip

  // --------------------------------------------------------------- accepted batches

  /** The arguments really are a rendered object within every parameter bound. */
  ghost predicate BoundedArguments(codec: Codec, rendered: string, arguments: Arguments) {
    && rendered == codec.render(arguments)
    && |arguments| <= MAX_TOOL_PARAMETERS_PER_CALL
    && forall name | name in arguments :: name != "" && ByteLen(name) <= MAX_TOOL_PARAMETER_NAME_BYTES
  }

  ghost predicate BoundedCall(codec: Codec, call: ParsedCall) {
    && call.name != "" && ByteLen(call.name) <= MAX_TOOL_NAME_BYTES
    && ByteLen(call.arguments) <= MAX_TOOL_ARGUMENT_BYTES_PER_CALL
    && exists arguments :: BoundedArguments(codec, call.arguments, arguments)
  }

  ghost predicate BoundedBatch(codec: Codec, calls: seq<ParsedCall>) {
    && 1 <= |calls| <= MAX_TOOL_CALLS_PER_TURN
    && ArgumentBytes(calls) <= MAX_TOOL_ARGUMENT_BYTES_TOTAL
    && forall k | 0 <= k < |calls| :: BoundedCall(codec, calls[k])
  }

  lemma HeadIsBounded(tag: Tag, arguments: Arguments)
    ensures var r := CheckParameterHead(tag, arguments);
            r.Ok? ==>
              && |arguments| < MAX_TOOL_PARAMETERS_PER_CALL && r.value.name != ""
              && ByteLen(r.value.name) <= MAX_TOOL_PARAMETER_NAME_BYTES
  {
    hide ByteLen;
  }

  lemma RenderedIsBounded(codec: Codec, arguments: Arguments)
    requires |arguments| <= MAX_TOOL_PARAMETERS_PER_CALL
    requires forall key | key in arguments :: key != "" && ByteLen(key) <= MAX_TOOL_PARAMETER_NAME_BYTES
    ensures BoundedArguments(codec, codec.render(arguments), arguments)
  {
  }

  lemma {:induction false} InvokeIsBounded(codec: Codec, text: string, cursor: nat, name: string,
      arguments: Arguments, bodyBytes: nat)
    requires cursor <= |text| && |arguments| <= MAX_TOOL_PARAMETERS_PER_CALL
    requires forall key | key in arguments :: key != "" && ByteLen(key) <= MAX_TOOL_PARAMETER_NAME_BYTES
    ensures var r := InvokeFrom(codec, text, cursor, name, arguments, bodyBytes);
            r.Ok? ==>
              && r.value.value.name == name
              && ByteLen(r.value.value.arguments) <= MAX_TOOL_ARGUMENT_BYTES_PER_CALL
              && exists bound :: BoundedArguments(codec, r.value.value.arguments, bound)
    decreases |text| - cursor
  {
    hide NextStructuralTag, ParseParameter, ByteLen, BoundedArguments, CheckParameterHead;
    var r := InvokeFrom(codec, text, cursor, name, arguments, bodyBytes);
    if r.Ok? {
      var next := NextStructuralTag(text, cursor).value;
      if next.tag.closing {
        RenderedIsBounded(codec, arguments);
      } else {
        var head := CheckParameterHead(next.tag, arguments).value;
        HeadIsBounded(next.tag, arguments);
        var parameter := ParseParameter(codec, text, next.end, head.isString).value;
        InvokeIsBounded(codec, text, parameter.end, name, arguments[head.name := parameter.value], bodyBytes
            + parameter.bodyBytes);
      }
    }
  }

  lemma {:induction false} ArgumentBytesSnoc(calls: seq<ParsedCall>, call: ParsedCall)
    ensures ArgumentBytes(calls + [call]) == ArgumentBytes(calls) + ByteLen(call.arguments)
  {
    hide ByteLen;
    if calls == [] {
      assert calls + [call] == [call];
    } else {
      assert (calls + [call])[1..] == calls[1..] + [call];
      ArgumentBytesSnoc(calls[1..], call);
    }
  }

  lemma {:induction false} BlockIsBounded(codec: Codec, text: string, cursor: nat, calls: seq<ParsedCall>, total: nat)
    requires cursor <= |text| && total == ArgumentBytes(calls)
    requires calls == [] || BoundedBatch(codec, calls)
    ensures var r := BlockFrom(codec, text, cursor, calls, total); r.Ok? ==> BoundedBatch(codec, r.value.value)
    decreases |text| - cursor
  {
    hide NextStructuralTag, ByteLen, InvokeFrom, BoundedArguments;
    var r := BlockFrom(codec, text, cursor, calls, total);
    if r.Ok? {
      var next := NextStructuralTag(text, cursor).value;
      if !next.tag.closing {
        var name := CheckInvokeHead(next.tag).value;
        var call := InvokeFrom(codec, text, next.end, name, map[], 0).value;
        InvokeIsBounded(codec, text, next.end, name, map[], 0);
        ArgumentBytesSnoc(calls, call.value);
        assert BoundedCall(codec, call.value);
        BlockIsBounded(codec, text, call.end, calls + [call.value], total + ByteLen(call.value.arguments));
      }
    }
  }

  /** An accepted turn is blanks, one block that starts with `<`, blanks; and its calls respect every bound. */
  lemma AcceptedTurn(codec: Codec, text: string) returns (start: nat, end: nat)
    requires AssistantText(codec, text).Ok? && AssistantText(codec, text).value.Calls?
    ensures start < end <= |text| && text[start] == '<'
    ensures AllWhitespace(text[..start]) && StandsAlone(text, start) && AllWhitespace(text[end..])
    ensures AssistantText(codec, text).value.visible == ""
    ensures BoundedBatch(codec, AssistantText(codec, text).value.calls)
    ensures exists tag: LocatedTag :: tag.start == start && TagAt(text, start) == Ok(Some(tag))
              && tag.tag == Tag(ToolCalls, false, map[])
              && BlockFrom(codec, text, tag.end, [], 0) == Ok(Located(AssistantText(codec, text).value.calls, end))
  {
    hide ByteLen, ProtectedRanges, BlockFrom, IsExecutableTopLevelOpener, StandsAlone, BoundedBatch;
    var open := VisibleTag(text, ProtectedRanges(text), 0).value.value;
    var block := BlockFrom(codec, text, open.end, [], 0).value;
    start, end := open.start, block.end;
    VisibleTagSound(text, ProtectedRanges(text), 0);
    ExecutableIffStandsAlone(text, start);
    BlanksBefore(text, start);
    BlockIsBounded(codec, text, open.end, [], 0);
    assert open.tag.attrs == map[];
  }

  // ----------------------------------------------------------------------- plain turns

  /** A plain turn is passed on character by character. */
  lemma PlainIsVerbatim(codec: Codec, text: string)
    ensures var r := AssistantText(codec, text); r.Ok? && r.value.Plain? ==> r.value.text == text
  {
    hide VisibleTag, ProtectedRanges, BlockFrom, IsExecutableTopLevelOpener;
  }

  /** Without a `<` a turn of legal size is always plain. */
  lemma NoLtIsPlain(codec: Codec, text: string)
    requires '<' !in text && ByteLen(text) <= MAX_ASSISTANT_TEXT_BYTES
    ensures AssistantText(codec, text) == Ok(Plain(text))
  {
    hide ByteLen, ProtectedRanges;
    NoTagWithoutLt(text, ProtectedRanges(text), 0);
  }

  // -------------------------------------------------------------------- the visible scan

  /** The scan started at `from` stops over `p` on its way. */
  ghost predicate Visits(text: string, blocks: Blocks, from: nat, p: nat)
    requires Aligned(text, blocks, 0)
    decreases |text| - from
  {
    from == p
    || (from < |text| && var step := VisibleStep(text, blocks, from); step.GoTo? && Visits(text, blocks, step.next, p))
  }

  /** At `p` a closed code span starts that ends at `end`. */
  ghost predicate HiddenSpan(text: string, blocks: Blocks, p: nat, end: nat)
  {
    && p < |text| && text[p] == '`' && Unprotected(blocks, p)
    && !(IsLineStart(text, p) && FenceOpeningAt(text, p, LineEnd(text, p)).Some?)
    && var run := NormalizedRun(text, p, RunLength(text, p, '`'));
       run.Some? && CodeSpanEnd(text, blocks, run.value.start, run.value.width) == Some(end)
  }

  /**
   * The tag found was really parsed there, lies ahead, is outside every protected block, and was visited by the scan.
   */
  lemma {:induction false} VisibleTagSound(text: string, blocks: Blocks, cursor: nat)
    requires Aligned(text, blocks, 0)
    ensures var r := VisibleTag(text, blocks, cursor);
            r.Ok? && r.value.Some? ==>
              var tag := r.value.value;
              && cursor <= tag.start < tag.end <= |text| && text[tag.start] == '<'
                   && TagAt(text, tag.start) == Ok(Some(tag))
              && Unprotected(blocks, tag.start) && Visits(text, blocks, cursor, tag.start)
    decreases |text| - cursor
  {
    hide Aligned, TagAt, FenceOpeningAt, AfterBackticks;
    if cursor < |text| {
      var step := VisibleStep(text, blocks, cursor);
      if step.GoTo? {
        VisibleTagSound(text, blocks, step.next);
      }
    }
  }

  lemma VisitsAreAhead(text: string, blocks: Blocks, from: nat, p: nat)
    requires Aligned(text, blocks, 0) && Visits(text, blocks, from, p)
    ensures from <= p
    decreases |text| - from
  {
    hide Aligned, VisibleStep;
    if from != p {
      VisitsAreAhead(text, blocks, VisibleStep(text, blocks, from).next, p);
    }
  }

  /** No tag is returned from inside a closed code span that the scan came across. */
  lemma {:induction false} CodeSpansAreSkipped(text: string, blocks: Blocks, cursor: nat, p: nat, end: nat)
    requires Aligned(text, blocks, 0) && HiddenSpan(text, blocks, p, end) && Visits(text, blocks, cursor, p)
    ensures var r := VisibleTag(text, blocks, cursor);
            r.Ok? && r.value.Some? ==> end <= r.value.value.start
    decreases |text| - cursor
  {
    hide Aligned, TagAt, FenceOpeningAt, CodeSpanEnd;
    var step := VisibleStep(text, blocks, cursor);
    if cursor == p {
      assert step == GoTo(end);
    } else {
      CodeSpansAreSkipped(text, blocks, step.next, p, end);
    }
  }
}
