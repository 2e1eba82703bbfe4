// The whole-turn parser of the textual tool protocol.
module DsmlParser {
  import opened Wrappers
  import opened Text
  import opened Markdown
  import opened Backticks
  import opened DsmlTags
  import opened TopLevel

  const MAX_ASSISTANT_TEXT_BYTES := 2 * 1024 * 1024
  const MAX_TOOL_CALLS_PER_TURN := 32
  const MAX_TOOL_NAME_BYTES := 256
  const MAX_TOOL_PARAMETERS_PER_CALL := 128
  const MAX_TOOL_PARAMETER_NAME_BYTES := 256
  const MAX_TOOL_ARGUMENT_BYTES_PER_CALL := 512 * 1024
  const MAX_TOOL_ARGUMENT_BYTES_TOTAL := 1024 * 1024

  /** JSON values; the program's JSON library is the codec below. */
  datatype Json =
    | Null
    | Bool(b: bool)
    | Number(literal: string)
    | String(s: string)
    | Array(items: seq<Json>)
    | Object(members: map<string, Json>)

  type Arguments = map<string, Json>

  /** `parse` reads one JSON text, `render` prints an object. */
  datatype Codec = Codec(parse: string -> Option<Json>, render: Arguments -> string)

  datatype ParsedCall = ParsedCall(name: string, arguments: string)

  datatype ParsedText = Plain(text: string) | Calls(visible: string, calls: seq<ParsedCall>)

  // --------------------------------------------------------------- visible tags

  datatype BacktickRun = BacktickRun(start: nat, width: nat)

  /** An escaping backslash consumes the first backtick of a run. */
  function NormalizedRun(text: string, start: nat, rawWidth: nat): Option<BacktickRun>
    requires start <= |text|
  {
    if !Escaped(text, start) then Some(BacktickRun(start, rawWidth))
    else if rawWidth > 1 then Some(BacktickRun(start + 1, rawWidth - 1))
    else None
  }

  /** Where the scan goes on after the backtick run at `cursor`: behind its code span, or behind the run. */
  ghost function AfterBackticks(text: string, blocks: Blocks, cursor: nat): (next: nat)
    requires cursor < |text| && text[cursor] == '`'
    ensures cursor < next <= |text|
  {
    var width := RunLength(text, cursor, '`');
    var run := NormalizedRun(text, cursor, width);
    var close := if run.Some? then CodeSpanEnd(text, blocks, run.value.start, run.value.width) else None;
    if close.Some? then close.value else cursor + width
  }

  datatype ScanStep = Stop(result: Result<Option<LocatedTag>, DsmlError>) | GoTo(next: nat)

  /** One step of the scan at a position inside the text. */
  ghost function VisibleStep(text: string, blocks: Blocks, cursor: nat): (step: ScanStep)
    requires cursor < |text| && Aligned(text, blocks, 0)
    ensures step.GoTo? ==> cursor < step.next <= |text|
    ensures step.Stop? && step.result.Ok? && step.result.value.Some? ==>
              step.result.value.value.start == cursor < step.result.value.value.end <= |text| && text[cursor] == '<'
  {
    var block := BlockAt(blocks, cursor);
    var opening := if IsLineStart(text, cursor) then FenceOpeningAt(text, cursor, LineEnd(text, cursor)) else None;
    if block.Some? then GoTo(block.value)
    else if opening.Some? then GoTo(opening.value.content + opening.value.fence.width)
    else if text[cursor] == '`' then GoTo(AfterBackticks(text, blocks, cursor))
    else if text[cursor] == '<' then
      var tag := TagAt(text, cursor);
      if tag.Err? || tag.value.Some? then Stop(tag) else GoTo(cursor + 1)
    else GoTo(cursor + 1)
  }

  /** First tag at or after the cursor that no complete code region hides. */
  ghost function VisibleTag(text: string, blocks: Blocks, cursor: nat): (r: Result<Option<LocatedTag>, DsmlError>)
    requires Aligned(text, blocks, 0)
    ensures r.Ok? && r.value.Some? ==>
              cursor <= r.value.value.start < r.value.value.end <= |text| && text[r.value.value.start] == '<'
    decreases |text| - cursor
  {
    if cursor >= |text| then Ok(None)
    else
      var step := VisibleStep(text, blocks, cursor);
      if step.Stop? then step.result else VisibleTag(text, blocks, step.next)
  }

  method FindNextVisibleDsmlTag(text: string, from: nat) returns (r: Result<Option<LocatedTag>, DsmlError>)
    ensures r == VisibleTag(text, ProtectedRanges(text), from)
  {
    hide VisibleStep, ProtectedRanges, IndexUpTo;
    var blocks := CompleteMarkdownBlockRanges(text);
    var index := BuildIndex(text, blocks);
    hide Aligned;
    var cursor := from;
    while cursor < |text|
      invariant VisibleTag(text, blocks, cursor) == VisibleTag(text, blocks, from)
    {
      var step := StepOver(text, blocks, index, cursor);
      if step.Stop? {
        return step.result;
      }
      cursor := step.next;
    }
    r := Ok(None);
  }

  method StepOver(text: string, blocks: Blocks, index: BacktickIndex, cursor: nat) returns (step: ScanStep)
    requires cursor < |text| && Aligned(text, blocks, 0) && IndexUpTo(text, blocks, index, |text|)
    ensures step == VisibleStep(text, blocks, cursor)
  {
    hide TagAt, FenceOpeningAt, CodeSpanEnd, Escaped;
    var block := BlockAt(blocks, cursor);
    var opening := if IsLineStart(text, cursor) then FenceOpeningAt(text, cursor, LineEnd(text, cursor)) else None;
    if block.Some? {
      step := GoTo(block.value);
    } else if opening.Some? {
      // Complete fences are protected blocks already; this run belongs to a broken one and stays literal.
      step := GoTo(opening.value.content + opening.value.fence.width);
    } else if text[cursor] == '`' {
      var rawWidth := CountRun(text, cursor, '`');
      var run := NormalizedRun(text, cursor, rawWidth);
      var close: Option<nat> := None;
      if run.Some? {
        close := ClosingEnd(index, text, blocks, run.value.start, run.value.width);
      }
      step := GoTo(if close.Some? then close.value else cursor + rawWidth);
    } else if text[cursor] == '<' {
      var tag := TagAt(text, cursor);
      step := if tag.Err? || tag.value.Some? then Stop(tag) else GoTo(cursor + 1);
    } else {
      step := GoTo(cursor + 1);
    }
  }

  // ------------------------------------------------------------------ parameters

  predicate HasExactly(tag: Tag, keys: set<string>) {
    tag.attrs.Keys == keys
  }

  datatype ParsedParameter = ParsedParameter(value: Json, bodyBytes: nat, end: nat)

  function ParseParameter(codec: Codec, text: string, cursor: nat, isString: bool): (r: Result<ParsedParameter,
      DsmlError>)
    requires cursor <= |text|
    ensures r.Ok? ==> cursor < r.value.end <= |text|
    ensures r.Ok? ==> r.value.bodyBytes <= MAX_TOOL_ARGUMENT_BYTES_PER_CALL
  {
    var close :- NextRawTag(text, cursor);
    if close.None? then Err(UnclosedBlock)
    else if !close.value.tag.closing || close.value.tag.name != Parameter then Err(UnexpectedTag)
    else if !HasExactly(close.value.tag, {}) then Err(InvalidAttributes)
    else
      var body := text[cursor..close.value.start];
      if ByteLen(body) > MAX_TOOL_ARGUMENT_BYTES_PER_CALL then Err(BoundaryExceeded)
      else if isString then Ok(ParsedParameter(String(body), ByteLen(body), close.value.end))
      else
        var value := codec.parse(Trim(body));
        if value.None? then Err(InvalidJson) else Ok(ParsedParameter(value.value, ByteLen(body), close.value.end))
  }

  datatype ParameterHead = ParameterHead(name: string, isString: bool)

  /** The checks on an opening parameter tag, given the parameters already read. */
  function CheckParameterHead(tag: Tag, arguments: Arguments): Result<ParameterHead, DsmlError> {
    if "name" !in tag.attrs || "string" !in tag.attrs then Err(InvalidAttributes)
    else
      var name, flag := tag.attrs["name"], tag.attrs["string"];
      if |tag.attrs| != 2 || name == "" then Err(InvalidAttributes)
      else if ByteLen(name) > MAX_TOOL_PARAMETER_NAME_BYTES then Err(BoundaryExceeded)
      else if |arguments| >= MAX_TOOL_PARAMETERS_PER_CALL then Err(BoundaryExceeded)
      else if name in arguments then Err(DuplicateParameter)
      else if flag == "true" then Ok(ParameterHead(name, true))
      else if flag == "false" then Ok(ParameterHead(name, false))
      else Err(InvalidStringFlag)
  }

  // ---------------------------------------------------------------------- invokes

  datatype Located<T> = Located(value: T, end: nat)

  /** The next tag after nothing but whitespace. */
  function NextStructuralTag(text: string, cursor: nat): (r: Result<LocatedTag, DsmlError>)
    requires cursor <= |text|
    ensures r.Ok? ==> cursor <= r.value.start < r.value.end <= |text|
  {
    var next :- NextRawTag(text, cursor);
    if next.None? then Err(UnclosedBlock)
    else if !AllWhitespace(text[cursor..next.value.start]) then Err(UnexpectedTag)
    else Ok(next.value)
  }

  function InvokeFrom(codec: Codec, text: string, cursor: nat, name: string, arguments: Arguments, bodyBytes: nat)
    : (r: Result<Located<ParsedCall>, DsmlError>)
    requires cursor <= |text|
    ensures r.Ok? ==> cursor < r.value.end <= |text| && r.value.value.name == name
    decreases |text| - cursor
  {
    var next :- NextStructuralTag(text, cursor);
    if next.tag.closing && next.tag.name == Invoke then
      if !HasExactly(next.tag, {}) then Err(InvalidAttributes)
      else
        var rendered := codec.render(arguments);
        if ByteLen(rendered) > MAX_TOOL_ARGUMENT_BYTES_PER_CALL then Err(BoundaryExceeded)
        else Ok(Located(ParsedCall(name, rendered), next.end))
    else if !next.tag.closing && next.tag.name == Parameter then
      var head :- CheckParameterHead(next.tag, arguments);
      var parameter :- ParseParameter(codec, text, next.end, head.isString);
      var total := bodyBytes + parameter.bodyBytes;
      if total > MAX_TOOL_ARGUMENT_BYTES_PER_CALL then Err(BoundaryExceeded)
      else InvokeFrom(codec, text, parameter.end, name, arguments[head.name := parameter.value], total)
    else Err(UnexpectedTag)
  }

  method ParseInvoke(codec: Codec, text: string, from: nat, name: string) returns (r: Result<Located<ParsedCall>,
      DsmlError>)
    requires from <= |text|
    ensures r == InvokeFrom(codec, text, from, name, map[], 0)
  {
    hide NextStructuralTag, CheckParameterHead, ParseParameter;
    var arguments: Arguments, bodyBytes: nat, cursor := map[], 0, from;
    while true
      invariant cursor <= |text|
      invariant InvokeFrom(codec, text, cursor, name, arguments, bodyBytes)
                  == InvokeFrom(codec, text, from, name, map[], 0)
      decreases |text| - cursor
    {
      var next :- NextStructuralTag(text, cursor);
      if next.tag.closing && next.tag.name == Invoke {
        if !HasExactly(next.tag, {}) {
          return Err(InvalidAttributes);
        }
        var rendered := codec.render(arguments);
        if ByteLen(rendered) > MAX_TOOL_ARGUMENT_BYTES_PER_CALL {
          return Err(BoundaryExceeded);
        }
        return Ok(Located(ParsedCall(name, rendered), next.end));
      } else if !next.tag.closing && next.tag.name == Parameter {
        var head :- CheckParameterHead(next.tag, arguments);
        var parameter :- ParseParameter(codec, text, next.end, head.isString);
        bodyBytes := bodyBytes + parameter.bodyBytes;
        if bodyBytes > MAX_TOOL_ARGUMENT_BYTES_PER_CALL {
          return Err(BoundaryExceeded);
        }
        arguments, cursor := arguments[head.name := parameter.value], parameter.end;
      } else {
        return Err(UnexpectedTag);
      }
    }
  }

  // ------------------------------------------------------------------------ blocks

  function CheckInvokeHead(tag: Tag): Result<string, DsmlError> {
    if |tag.attrs| != 1 || "name" !in tag.attrs then Err(InvalidAttributes)
    else if tag.attrs["name"] == "" then Err(InvalidAttributes)
    else if ByteLen(tag.attrs["name"]) > MAX_TOOL_NAME_BYTES then Err(BoundaryExceeded)
    else Ok(tag.attrs["name"])
  }

  function BlockFrom(codec: Codec, text: string, cursor: nat, calls: seq<ParsedCall>, total: nat)
    : (r: Result<Located<seq<ParsedCall>>, DsmlError>)
    requires cursor <= |text|
    ensures r.Ok? ==> cursor < r.value.end <= |text|
    decreases |text| - cursor
  {
    var next :- NextStructuralTag(text, cursor);
    if next.tag.closing && next.tag.name == ToolCalls then
      if !HasExactly(next.tag, {}) then Err(InvalidAttributes)
      else if calls == [] then Err(EmptyBatch)
      else Ok(Located(calls, next.end))
    else if !next.tag.closing && next.tag.name == Invoke then
      var name :- CheckInvokeHead(next.tag);
      var call :- InvokeFrom(codec, text, next.end, name, map[], 0);
      var sum := total + ByteLen(call.value.arguments);
      if |calls| >= MAX_TOOL_CALLS_PER_TURN || sum > MAX_TOOL_ARGUMENT_BYTES_TOTAL then Err(BoundaryExceeded)
      else BlockFrom(codec, text, call.end, calls + [call.value], sum)
    else Err(UnexpectedTag)
  }

  method ParseToolCallsBlock(codec: Codec, text: string, from: nat) returns (r: Result<Located<seq<ParsedCall>>,
      DsmlError>)
    requires from <= |text|
    ensures r == BlockFrom(codec, text, from, [], 0)
  {
    hide NextStructuralTag, CheckInvokeHead, InvokeFrom;
    var calls: seq<ParsedCall>, total: nat, cursor := [], 0, from;
    while true
      invariant cursor <= |text|
      invariant BlockFrom(codec, text, cursor, calls, total) == BlockFrom(codec, text, from, [], 0)
      decreases |text| - cursor
    {
      var next :- NextStructuralTag(text, cursor);
      if next.tag.closing && next.tag.name == ToolCalls {
        if !HasExactly(next.tag, {}) {
          return Err(InvalidAttributes);
        }
        if calls == [] {
          return Err(EmptyBatch);
        }
        return Ok(Located(calls, next.end));
      } else if !next.tag.closing && next.tag.name == Invoke {
        var name :- CheckInvokeHead(next.tag);
        var call :- ParseInvoke(codec, text, next.end, name);
        if |calls| >= MAX_TOOL_CALLS_PER_TURN {
          return Err(BoundaryExceeded);
        }
        total := total + ByteLen(call.value.arguments);
        if total > MAX_TOOL_ARGUMENT_BYTES_TOTAL {
          return Err(BoundaryExceeded);
        }
        calls, cursor := calls + [call.value], call.end;
      } else {
        return Err(UnexpectedTag);
      }
    }
  }

  // ------------------------------------------------------------------------- turns

  /** The canonical decision about one complete turn. */
  ghost function AssistantText(codec: Codec, text: string): Result<ParsedText, DsmlError> {
    if ByteLen(text) > MAX_ASSISTANT_TEXT_BYTES then Err(TooLarge)
    else
      var blocks := ProtectedRanges(text);
      var open :- VisibleTag(text, blocks, 0);
      if open.None? then Ok(Plain(text)) else Envelope(codec, text, open.value)
  }

  /** A turn whose first visible tag is `open`. */
  ghost function Envelope(codec: Codec, text: string, open: LocatedTag): Result<ParsedText, DsmlError>
    requires open.start < open.end <= |text|
  {
    if open.tag.closing || open.tag.name != ToolCalls then Err(UnexpectedTag)
    else if !IsExecutableTopLevelOpener(text, open.start) then Err(InvalidContext)
    else if !HasExactly(open.tag, {}) then Err(InvalidAttributes)
    else
      var block :- BlockFrom(codec, text, open.end, [], 0);
      var second :- VisibleTag(text, ProtectedRanges(text), block.end);
      if second.Some? then Err(MultipleBlocks)
      else if !AllWhitespace(text[block.end..]) then Err(InvalidContext)
      else Ok(Calls("", block.value))
  }

  method ParseAssistantText(codec: Codec, text: string) returns (r: Result<ParsedText, DsmlError>)
    ensures r == AssistantText(codec, text)
  {
    hide VisibleTag, ProtectedRanges, Aligned, BlockFrom, IsExecutableTopLevelOpener;
    if ByteLen(text) > MAX_ASSISTANT_TEXT_BYTES {
      return Err(TooLarge);
    }
    var open :- FindNextVisibleDsmlTag(text, 0);
    if open.None? {
      return Ok(Plain(text));
    }
    if open.value.tag.closing || open.value.tag.name != ToolCalls {
      return Err(UnexpectedTag);
    }
    if !IsExecutableTopLevelOpener(text, open.value.start) {
      return Err(InvalidContext);
    }
    if !HasExactly(open.value.tag, {}) {
      return Err(InvalidAttributes);
    }
    var block :- ParseToolCallsBlock(codec, text, open.value.end);
    var second :- FindNextVisibleDsmlTag(text, block.end);
    if second.Some? {
      return Err(MultipleBlocks);
    }
    if !AllWhitespace(text[block.end..]) {
      return Err(InvalidContext);
    }
    r := Ok(Calls("", block.value));
  }
}
