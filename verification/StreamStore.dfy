// The browser's stream buffers and transcripts, one running stream per session.
module StreamStore {
  import opened Wrappers
  import opened StreamLedger

  datatype RunKind = Natural | Awaiting | MaxIters | ErrorKind | Cancelled

  datatype RunRecord = RunRecord(runId: string, kind: RunKind, iterations: nat, error: Option<string>)

  datatype Block =
    | ThinkingBlock(thinking: string)
    | TextBlock(text: string)
    | ToolUse(id: string, name: string, input: string)
    | ToolResult(callId: string, content: string, isError: bool)

  datatype Message = Message(fromAssistant: bool, blocks: seq<Block>, run: Option<RunRecord>)

  datatype StreamBuffer = StreamBuffer(
    runId: string, running: bool, stopping: bool, stopped: bool, thinking: string, text: string,
    iterations: nat, currentIteration: nat, draftRevision: nat, error: Option<string>, toolCalls: seq<Entry>,
    kind: Option<RunKind>, messageStartIndex: nat, deferredStopError: Option<string>)

  // ---------------------------------------------------------------------- what a segment shows

  function ToolBlocks(tools: seq<Entry>): seq<Block> {
    if tools == [] then []
    else
      var c := tools[|tools| - 1];
      ToolBlocks(tools[..|tools| - 1]) + [ToolUse(c.id, c.name, c.input)]
      + if c.resolved then [ToolResult(c.id, if c.content.Some? then c.content.value else "", c.isError)] else []
  }

  predicate HasContent(thinking: string, text: string, tools: seq<Entry>) {
    thinking != "" || text != "" || tools != []
  }

  function Blocks(sanitize: string -> string, thinking: string, text: string, tools: seq<Entry>): seq<Block> {
    (if thinking != "" then [ThinkingBlock(sanitize(thinking))] else [])
    + (if text != "" then [TextBlock(sanitize(text))] else [])
    + ToolBlocks(tools)
  }

  /** The blocks of the messages that these segments become; a segment without content becomes none. */
  function Shown(sanitize: string -> string, segments: seq<Segment>): seq<seq<Block>> {
    if segments == [] then []
    else
      var last := segments[|segments| - 1];
      Shown(sanitize, segments[..|segments| - 1])
      + if HasContent(Join(last.thinking), Join(last.text), last.tools)
        then [Blocks(sanitize, Join(last.thinking), Join(last.text), last.tools)] else []
  }

  function BlocksOf(ms: seq<Message>): seq<seq<Block>> {
    seq(|ms|, i requires 0 <= i < |ms| => ms[i].blocks)
  }

  // ------------------------------------------------------------------------------- tracking

  /** The accepted operations of a run and the length of the transcript when it started. */
  datatype Trace = Trace(ops: seq<Op>, base: nat)

  /** Buffer and transcript of one session say exactly what its run's operations amount to. */
  ghost predicate Tracked(sanitize: string -> string, s: StreamBuffer, t: Trace, ms: seq<Message>) {
    var l := Fold(t.ops);
    && t.base <= |ms| && Positive(t.ops) && UniqueIds(s.toolCalls)
    && if s.running
       then && s.thinking == Join(l.open.thinking) && s.text == Join(l.open.text) && s.toolCalls == l.open.tools
            && s.currentIteration == l.iteration && BlocksOf(ms[t.base..]) == Shown(sanitize, l.committed)
       else && !HasContent(s.thinking, s.text, s.toolCalls)
            && BlocksOf(ms[t.base..]) == Shown(sanitize, l.committed + [l.open])
  }

  function Transcript(messages: map<string, seq<Message>>, sid: string): seq<Message> {
    if sid in messages then messages[sid] else []
  }

  /** The transcript after committing the content of a buffer. */
  function Committed(sanitize: string -> string, ms: seq<Message>, s: StreamBuffer): seq<Message> {
    if HasContent(s.thinking, s.text, s.toolCalls)
    then ms + [Message(true, Blocks(sanitize, s.thinking, s.text, s.toolCalls), None)]
    else ms
  }

  /** The run's record is attached to the last message. */
  function WithRun(ms: seq<Message>, run: RunRecord): seq<Message> {
    if ms == [] then ms else ms[|ms| - 1 := ms[|ms| - 1].(run := Some(run))]
  }

  lemma CommitShows(sanitize: string -> string, s: StreamBuffer, t: Trace, ms: seq<Message>)
    requires Tracked(sanitize, s, t, ms) && s.running
    ensures t.base <= |Committed(sanitize, ms, s)|
    ensures BlocksOf(Committed(sanitize, ms, s)[t.base..])
              == Shown(sanitize, Fold(t.ops).committed + [Fold(t.ops).open])
  {
    hide Blocks, Fold, UniqueIds;
    var l := Fold(t.ops);
    assert (l.committed + [l.open])[..|l.committed|] == l.committed;
    if HasContent(s.thinking, s.text, s.toolCalls) {
      var m := Message(true, Blocks(sanitize, s.thinking, s.text, s.toolCalls), None);
      assert (ms + [m])[t.base..] == ms[t.base..] + [m];
      assert BlocksOf(ms[t.base..] + [m]) == BlocksOf(ms[t.base..]) + [m.blocks];
    } else {
      assert Shown(sanitize, l.committed) + [] == Shown(sanitize, l.committed);
    }
  }

  lemma RunKeepsBlocks(ms: seq<Message>, run: RunRecord, base: nat)
    requires base <= |ms|
    ensures |WithRun(ms, run)| == |ms| && BlocksOf(WithRun(ms, run)[base..]) == BlocksOf(ms[base..])
  {
  }

  lemma OpTracked(ops: seq<Op>, op: Op)
    requires Positive(ops) && (op.Advance? ==> op.iteration > 0)
    ensures Positive(ops + [op]) && (ops + [op])[..|ops|] == ops && (ops + [op])[|ops|] == op
  {
  }

  lemma NoEntriesAreUnique()
    ensures UniqueIds([])
  {
  }

  lemma PieceTracked(sanitize: string -> string, s: StreamBuffer, t: Trace, ms: seq<Message>, kind: Kind,
      text: string)
    requires Tracked(sanitize, s, t, ms) && s.running
    ensures Tracked(sanitize, if kind.ThinkingKind? then s.(thinking := s.thinking + text)
              else s.(text := s.text + text),
                    Trace(t.ops + [Piece(kind, text)], t.base), ms)
  {
    hide Shown, UniqueIds, Positive, AddCalls, AddResults, Join;
    OpTracked(t.ops, Piece(kind, text));
    JoinStep(Part(Fold(t.ops).open, kind), Chunk(|t.ops|, text));
  }

  lemma CallsTracked(sanitize: string -> string, s: StreamBuffer, t: Trace, ms: seq<Message>, calls: seq<Call>)
    requires Tracked(sanitize, s, t, ms) && s.running
    ensures Tracked(sanitize, s.(toolCalls := AddCalls(s.toolCalls, calls)), Trace(t.ops + [ToolCalls(calls)], t.base),
              ms)
  {
    hide Shown, UniqueIds, Positive, AddCalls, AddResults, Join;
    OpTracked(t.ops, ToolCalls(calls));
    CallsStayUnique(s.toolCalls, calls);
  }

  lemma ResultsTracked(sanitize: string -> string, s: StreamBuffer, t: Trace, ms: seq<Message>,
      results: seq<ToolOutcome>)
    requires Tracked(sanitize, s, t, ms) && s.running
    ensures Tracked(sanitize, s.(toolCalls := AddResults(s.toolCalls, results)),
              Trace(t.ops + [ToolResults(results)], t.base), ms)
  {
    hide Shown, UniqueIds, Positive, AddCalls, AddResults, Join;
    OpTracked(t.ops, ToolResults(results));
    ResultsStayUnique(s.toolCalls, results);
  }

  lemma ResetTracked(sanitize: string -> string, s: StreamBuffer, t: Trace, ms: seq<Message>)
    requires Tracked(sanitize, s, t, ms) && s.running
    ensures Tracked(sanitize, s.(thinking := "", text := "", draftRevision := s.draftRevision + 1),
              Trace(t.ops + [Reset], t.base), ms)
  {
    hide Shown, UniqueIds, Positive, AddCalls, AddResults;
    OpTracked(t.ops, Reset);
  }

  function AfterAdvance(s: StreamBuffer, iteration: nat): StreamBuffer {
    s.(currentIteration := iteration, draftRevision := 0, iterations := if s.iterations > iteration then s.iterations
        else iteration,
       thinking := "", text := "", toolCalls := [])
  }

  lemma AdvanceTracked(sanitize: string -> string, s: StreamBuffer, t: Trace, ms: seq<Message>, iteration: nat)
    requires Tracked(sanitize, s, t, ms) && s.running && iteration > s.currentIteration
    ensures Tracked(sanitize, AfterAdvance(s, iteration), Trace(t.ops + [Advance(iteration)], t.base),
                    if s.currentIteration > 0 then Committed(sanitize, ms, s) else ms)
  {
    hide Shown, UniqueIds, Positive, AddCalls, AddResults, Committed;
    CommitShows(sanitize, s, t, ms);
    OpTracked(t.ops, Advance(iteration));
    NoEntriesAreUnique();
  }

  /** Only an acknowledged Stop leaves the buffer marked as stopped. */
  function AfterEnd(s: StreamBuffer, stopped: bool, kind: RunKind, iterations: nat,
      error: Option<string>): StreamBuffer {
    s.(running := false, stopping := false, stopped := stopped, thinking := "", text := "", toolCalls := [],
       kind := Some(kind), iterations := iterations, error := error, deferredStopError := None)
  }

  lemma EndTracked(
    sanitize: string -> string, s: StreamBuffer, t: Trace, ms: seq<Message>, stopped: bool, kind: RunKind,
    iterations: nat, error: Option<string>,
    run: RunRecord)
    requires Tracked(sanitize, s, t, ms) && s.running
    ensures Tracked(sanitize, AfterEnd(s, stopped, kind, iterations, error), t,
              WithRun(Committed(sanitize, ms, s), run))
  {
    hide Shown, UniqueIds, Positive, Fold, Committed, WithRun;
    CommitShows(sanitize, s, t, ms);
    RunKeepsBlocks(Committed(sanitize, ms, s), run, t.base);
    NoEntriesAreUnique();
  }

  /** Stop flags and errors do not concern the content. */
  lemma FlagsTracked(sanitize: string -> string, s: StreamBuffer, t: Trace, ms: seq<Message>, stopping: bool,
      error: Option<string>, deferred: Option<string>)
    requires Tracked(sanitize, s, t, ms)
    ensures Tracked(sanitize, s.(stopping := stopping, error := error, deferredStopError := deferred), t, ms)
  {
    hide Shown, UniqueIds, Positive, Fold, Join, BlocksOf;
  }

  // ----------------------------------------------------------------------------- the store

  class StreamStore {
    const sanitize: string -> string
    var messages: map<string, seq<Message>>
    var streams: map<string, StreamBuffer>
    /** Which run's transport can be aborted. */
    var aborters: map<string, string>
    ghost var traces: map<string, Trace>

    constructor (display: string -> string, restored: map<string, seq<Message>>)
      ensures Valid() && messages == restored && streams == map[]
    {
      sanitize, messages, streams, aborters, traces := display, restored, map[], map[], map[];
    }

    ghost predicate Valid()
      reads this
    {
      && streams.Keys == traces.Keys
      && forall sid | sid in streams :: Tracked(sanitize, streams[sid], traces[sid], Transcript(messages, sid))
    }

    /** The running stream of a session, if it is the expected run's. */
    predicate IsActive(sid: string, expectedRun: Option<string>)
      reads this`streams
    {
      sid in streams && streams[sid].running && (expectedRun.Some? ==> streams[sid].runId == expectedRun.value)
    }

    /** A new run takes the session's buffer. */
    method StartStream(sid: string, runId: string)
      requires Valid()
      modifies this`streams, this`traces
      ensures Valid() && IsActive(sid, Some(runId))
                && traces == old(traces)[sid := Trace([], |Transcript(messages, sid)|)]
      ensures forall other | other != sid && other in old(streams) :: other in streams
                && streams[other] == old(streams)[other]
    {
      var ms := Transcript(messages, sid);
      var start := if |ms| > 0 then |ms| - 1 else 0;
      streams := streams[sid := StreamBuffer(runId, true, false, false, "", "", 0, 0, 0, None, [], None, start, None)];
      traces := traces[sid := Trace([], |ms|)];
      assert ms[|ms|..] == [];
    }

    /** Replace a session's buffer as one accepted operation asks. */
    method Update(sid: string, next: StreamBuffer, ghost op: Op)
      requires Valid() && sid in streams
      requires Tracked(sanitize, next, Trace(traces[sid].ops + [op], traces[sid].base), Transcript(messages, sid))
      modifies this`streams, this`traces
      ensures Valid() && streams == old(streams)[sid := next]
      ensures traces == old(traces)[sid := Trace(old(traces)[sid].ops + [op], old(traces)[sid].base)]
    {
      hide Tracked;
      streams := streams[sid := next];
      traces := traces[sid := Trace(traces[sid].ops + [op], traces[sid].base)];
    }

    /** Replace a session's flags. */
    method Touch(sid: string, next: StreamBuffer)
      requires Valid() && sid in streams && Tracked(sanitize, next, traces[sid], Transcript(messages, sid))
      modifies this`streams
      ensures Valid() && streams == old(streams)[sid := next]
    {
      hide Tracked;
      streams := streams[sid := next];
    }

    /** Everything about the accepted operation that does not depend on its kind. */
    ghost predicate Accepts(sid: string, expectedRun: Option<string>, ok: bool, was: map<string, StreamBuffer>)
    {
      ok <==> sid in was && was[sid].running && (expectedRun.Some? ==> was[sid].runId == expectedRun.value)
    }

    method AppendThinking(sid: string, t: string, expectedRun: Option<string>) returns (ok: bool)
      requires Valid()
      modifies this`streams, this`traces
      ensures Valid() && Accepts(sid, expectedRun, ok, old(streams))
      ensures !ok ==> unchanged(this)
      ensures ok ==>
                && streams == old(streams)[sid := old(streams)[sid].(thinking := old(streams)[sid].thinking + t)]
                && traces == old(traces)[sid := Trace(old(traces)[sid].ops
                     + [Piece(ThinkingKind, t)], old(traces)[sid].base)]
    {
      hide Tracked;
      if !IsActive(sid, expectedRun) {
        return false;
      }
      var s := streams[sid];
      PieceTracked(sanitize, s, traces[sid], Transcript(messages, sid), ThinkingKind, t);
      Update(sid, s.(thinking := s.thinking + t), Piece(ThinkingKind, t));
      ok := true;
    }

    method AppendText(sid: string, t: string, expectedRun: Option<string>) returns (ok: bool)
      requires Valid()
      modifies this`streams, this`traces
      ensures Valid() && Accepts(sid, expectedRun, ok, old(streams))
      ensures !ok ==> unchanged(this)
      ensures ok ==>
                && streams == old(streams)[sid := old(streams)[sid].(text := old(streams)[sid].text + t)]
                && traces == old(traces)[sid := Trace(old(traces)[sid].ops
                     + [Piece(TextKind, t)], old(traces)[sid].base)]
    {
      hide Tracked;
      if !IsActive(sid, expectedRun) {
        return false;
      }
      var s := streams[sid];
      PieceTracked(sanitize, s, traces[sid], Transcript(messages, sid), TextKind, t);
      Update(sid, s.(text := s.text + t), Piece(TextKind, t));
      ok := true;
    }

    /** Discard the textual draft of the iteration; tool calls and results stay. */
    method ResetDraft(sid: string, expectedRun: Option<string>) returns (ok: bool)
      requires Valid()
      modifies this`streams, this`traces
      ensures Valid() && Accepts(sid, expectedRun, ok, old(streams))
      ensures !ok ==> unchanged(this)
      ensures ok ==>
                && streams == old(streams)[sid := old(streams)[sid].(thinking := "", text := "",
                     draftRevision := old(streams)[sid].draftRevision + 1)]
                && traces == old(traces)[sid := Trace(old(traces)[sid].ops + [Reset], old(traces)[sid].base)]
    {
      hide Tracked;
      if !IsActive(sid, expectedRun) {
        return false;
      }
      var s := streams[sid];
      ResetTracked(sanitize, s, traces[sid], Transcript(messages, sid));
      Update(sid, s.(thinking := "", text := "", draftRevision := s.draftRevision + 1), Reset);
      ok := true;
    }

    method AppendToolCalls(sid: string, calls: seq<Call>, expectedRun: Option<string>) returns (ok: bool)
      requires Valid()
      modifies this`streams, this`traces
      ensures Valid() && Accepts(sid, expectedRun, ok, old(streams))
      ensures !ok ==> unchanged(this)
      ensures ok ==>
                && streams == old(streams)[sid := old(streams)[sid].(toolCalls := AddCalls(old(streams)[sid].toolCalls,
                     calls))]
                && traces == old(traces)[sid := Trace(old(traces)[sid].ops + [ToolCalls(calls)], old(traces)[sid].base)]
    {
      hide Tracked, AddCall;
      if !IsActive(sid, expectedRun) {
        return false;
      }
      var s := streams[sid];
      var existing := s.toolCalls;
      assert calls[..0] == [];
      for i := 0 to |calls|
        invariant existing == AddCalls(s.toolCalls, calls[..i])
      {
        assert calls[..i + 1][..i] == calls[..i];
        existing := AddCall(existing, calls[i]);
      }
      assert calls[..|calls|] == calls;
      CallsTracked(sanitize, s, traces[sid], Transcript(messages, sid), calls);
      Update(sid, s.(toolCalls := existing), ToolCalls(calls));
      ok := true;
    }

    method AppendToolResults(sid: string, results: seq<ToolOutcome>, expectedRun: Option<string>) returns (ok: bool)
      requires Valid()
      modifies this`streams, this`traces
      ensures Valid() && Accepts(sid, expectedRun, ok, old(streams))
      ensures !ok ==> unchanged(this)
      ensures ok ==>
                && streams == old(streams)[
                     sid := old(streams)[sid].(toolCalls := AddResults(old(streams)[sid].toolCalls, results))]
                && traces == old(traces)[sid := Trace(old(traces)[sid].ops
                     + [ToolResults(results)], old(traces)[sid].base)]
    {
      hide Tracked, AddResult;
      if !IsActive(sid, expectedRun) {
        return false;
      }
      var s := streams[sid];
      var byId := s.toolCalls;
      assert results[..0] == [];
      for i := 0 to |results|
        invariant byId == AddResults(s.toolCalls, results[..i])
      {
        assert results[..i + 1][..i] == results[..i];
        byId := AddResult(byId, results[i]);
      }
      assert results[..|results|] == results;
      ResultsTracked(sanitize, s, traces[sid], Transcript(messages, sid), results);
      Update(sid, s.(toolCalls := byId), ToolResults(results));
      ok := true;
    }

    /** Commit the buffer's content as one assistant message. */
    method CommitStreamMessage(sid: string, s: StreamBuffer) returns (ok: bool)
      modifies this`messages
      ensures ok <==> HasContent(s.thinking, s.text, s.toolCalls)
      ensures Transcript(messages, sid) == Committed(sanitize, Transcript(old(messages), sid), s)
      ensures forall other | other != sid :: Transcript(messages, other) == Transcript(old(messages), other)
    {
      hide Blocks, ToolBlocks;
      ok := HasContent(s.thinking, s.text, s.toolCalls);
      if ok {
        var message := Message(true, Blocks(sanitize, s.thinking, s.text, s.toolCalls), None);
        messages := messages[sid := Transcript(messages, sid) + [message]];
      }
    }

    /** Start the next iteration, committing the previous one. */
    method AdvanceIteration(sid: string, iteration: nat, expectedRun: Option<string>) returns (ok: bool)
      requires Valid()
      modifies this`streams, this`messages, this`traces
      ensures Valid()
      ensures ok <==> old(IsActive(sid, expectedRun)) && iteration > old(streams)[sid].currentIteration
      ensures !ok ==> unchanged(this)
      ensures ok ==>
                && traces == old(traces)[sid := Trace(old(traces)[sid].ops
                     + [Advance(iteration)], old(traces)[sid].base)]
                && IsActive(sid, expectedRun)
                     && !HasContent(streams[sid].thinking, streams[sid].text, streams[sid].toolCalls)
                && Transcript(messages, sid) == if old(streams)[sid].currentIteration > 0
                                                then Committed(sanitize, Transcript(old(messages), sid),
                                                    old(streams)[sid])
                                                else Transcript(old(messages), sid)
    {
      hide Tracked, Committed;
      if !IsActive(sid, expectedRun) || iteration <= streams[sid].currentIteration {
        return false;
      }
      var s := streams[sid];
      AdvanceTracked(sanitize, s, traces[sid], Transcript(messages, sid), iteration);
      if s.currentIteration > 0 {
        var committed := CommitStreamMessage(sid, s);
      }
      streams := streams[sid := AfterAdvance(s, iteration)];
      traces := traces[sid := Trace(traces[sid].ops + [Advance(iteration)], traces[sid].base)];
      ok := true;
    }

    /** End the run: commit what is left, attach the run's record, stop accepting. */
    method Conclude(
      sid: string, s: StreamBuffer, stopped: bool, kind: RunKind, iterations: nat, error: Option<string>,
      run: RunRecord)
      requires run.runId == s.runId && run.kind == kind
      requires Valid() && sid in streams && s.running && Tracked(sanitize, s, traces[sid], Transcript(messages, sid))
      modifies this`streams, this`messages, this`aborters
      ensures Valid() && traces == old(traces)
      ensures Transcript(messages, sid) ==
                WithRun(Committed(sanitize, Transcript(old(messages), sid), s), run)
      ensures streams == old(streams)[sid := streams[sid]] && streams[sid].runId == s.runId
      ensures !streams[sid].running && streams[sid].kind == Some(kind) && streams[sid].error == error
      ensures streams[sid].stopped == stopped
      ensures sid !in aborters || aborters[sid] != s.runId
    {
      hide Tracked, Committed, WithRun;
      EndTracked(sanitize, s, traces[sid], Transcript(messages, sid), stopped, kind, iterations, error, run);
      var committed := CommitStreamMessage(sid, s);
      messages := messages[sid := WithRun(Transcript(messages, sid), run)];
      streams := streams[sid := AfterEnd(s, stopped, kind, iterations, error)];
      if sid in aborters && aborters[sid] == s.runId {
        aborters := aborters - {sid};
      }
    }

    function IterationsOf(s: StreamBuffer): nat {
      if s.iterations != 0 then s.iterations else s.currentIteration
    }

    method CompleteStream(sid: string, iterations: nat, kind: RunKind, error: Option<string>,
        expectedRun: Option<string>) returns (ok: bool)
      requires Valid()
      modifies this`streams, this`messages, this`aborters
      ensures Valid() && traces == old(traces) && Accepts(sid, expectedRun, ok, old(streams))
      ensures !ok ==> unchanged(this)
      ensures ok ==> !IsActive(sid, None) && streams[sid].kind == Some(kind) && !streams[sid].stopped
    {
      hide Tracked, Committed, WithRun;
      if !IsActive(sid, expectedRun) {
        return false;
      }
      var terminalError := if error.Some? then error
                           else if kind == ErrorKind || kind == MaxIters then Some("no detailed reason") else None;
      Conclude(
        sid, streams[sid], false, kind, iterations, terminalError,
        RunRecord(streams[sid].runId, kind, iterations, terminalError));
      ok := true;
    }

    /** A transport failure ends the run, unless a Stop is under way: then the Stop decides. */
    method FailStream(sid: string, error: string, expectedRun: Option<string>) returns (ok: bool)
      requires Valid()
      modifies this`streams, this`messages, this`aborters
      ensures Valid() && traces == old(traces) && Accepts(sid, expectedRun, ok, old(streams))
      ensures !ok ==> unchanged(this)
      ensures ok && old(streams)[sid].stopping ==>
                && messages == old(messages) && IsActive(sid, expectedRun)
                     && streams[sid].deferredStopError == Some(error)
      ensures ok && !old(streams)[sid].stopping ==>
                && !IsActive(sid, None) && streams[sid].kind == Some(ErrorKind) && streams[sid].error == Some(error)
                && !streams[sid].stopped
    {
      hide Tracked, Committed, WithRun;
      if !IsActive(sid, expectedRun) {
        return false;
      }
      var s := streams[sid];
      if s.stopping {
        FlagsTracked(sanitize, s, traces[sid], Transcript(messages, sid), s.stopping, s.error, Some(error));
        Touch(sid, s.(deferredStopError := Some(error)));
        return true;
      }
      Conclude(
        sid, s, false, ErrorKind, s.iterations, Some(error),
            RunRecord(s.runId, ErrorKind, IterationsOf(s), Some(error)));
      ok := true;
    }

    /** A second Stop, or one for another run, changes nothing. */
    method BeginStreamStop(sid: string, expectedRun: Option<string>) returns (stopped: Option<string>)
      requires Valid()
      modifies this`streams
      ensures Valid()
      ensures stopped.Some? <==> old(IsActive(sid, expectedRun)) && !old(streams)[sid].stopping
      ensures stopped.None? ==> unchanged(this)
      ensures stopped.Some? ==>
                && stopped == Some(old(streams)[sid].runId)
                && streams == old(streams)[sid := old(streams)[sid].(stopping := true, error := None)]
    {
      hide Tracked;
      if !IsActive(sid, expectedRun) || streams[sid].stopping {
        return None;
      }
      var s := streams[sid];
      FlagsTracked(sanitize, s, traces[sid], Transcript(messages, sid), true, None, s.deferredStopError);
      stopped := Some(s.runId);
      Touch(sid, s.(stopping := true, error := None));
    }

    /** The backend acknowledged the cancellation. */
    method FinishStreamStop(sid: string, expectedRun: Option<string>) returns (ok: bool)
      requires Valid()
      modifies this`streams, this`messages, this`aborters
      ensures Valid() && traces == old(traces) && Accepts(sid, expectedRun, ok, old(streams))
      ensures !ok ==> unchanged(this)
      ensures ok ==> !IsActive(sid, None) && streams[sid].stopped && streams[sid].kind == Some(Cancelled)
    {
      hide Tracked, Committed, WithRun;
      if !IsActive(sid, expectedRun) {
        return false;
      }
      var s := streams[sid];
      Conclude(sid, s, true, Cancelled, s.iterations, s.error, RunRecord(s.runId, Cancelled, IterationsOf(s), None));
      ok := true;
    }

    /** The terminal event was first: wait for it, unless the transport already failed meanwhile. */
    method ResumeStreamAfterLateStop(sid: string, expectedRun: Option<string>) returns (ok: bool)
      requires Valid()
      modifies this`streams, this`messages, this`aborters
      ensures Valid() && traces == old(traces) && Accepts(sid, expectedRun, ok, old(streams))
      ensures !ok ==> unchanged(this)
      ensures ok ==>
                var deferred := old(streams)[sid].deferredStopError;
                if deferred.Some? && deferred.value != ""
                then !IsActive(sid, None) && streams[sid].error == deferred
                else messages == old(messages) && streams == old(streams)[sid := old(streams)[sid].(stopping := false)]
    {
      hide Tracked, Committed, WithRun;
      if !IsActive(sid, expectedRun) {
        return false;
      }
      var s := streams[sid];
      FlagsTracked(sanitize, s, traces[sid], Transcript(messages, sid), false, s.error, s.deferredStopError);
      if s.deferredStopError.Some? && s.deferredStopError.value != "" {
        Conclude(
          sid, s.(stopping := false), false, ErrorKind, s.iterations, s.deferredStopError,
          RunRecord(s.runId, ErrorKind, IterationsOf(s), s.deferredStopError));
        return true;
      }
      Touch(sid, s.(stopping := false));
      ok := true;
    }

    /** The transcript was restored from the backend: drop the exact local run without committing anything. */
    method RetireStreamAfterBackendFinish(sid: string, expectedRun: string) returns (ok: bool)
      requires Valid()
      modifies this`streams, this`aborters, this`traces
      ensures Valid() && Accepts(sid, Some(expectedRun), ok, old(streams))
      ensures !ok ==> unchanged(this)
      ensures ok ==> streams == old(streams) - {sid} && (sid !in aborters || aborters[sid] != expectedRun)
    {
      hide Tracked;
      if !IsActive(sid, Some(expectedRun)) {
        return false;
      }
      if sid in aborters && aborters[sid] == expectedRun {
        aborters := aborters - {sid};
      }
      streams, traces := streams - {sid}, traces - {sid};
      ok := true;
    }
  }

  /** The chunks of a running stream are in its committed messages or its buffer, each exactly once, or were dropped. */
  lemma RunningStreamKeepsChunks(sanitize: string -> string, s: StreamBuffer, t: Trace, ms: seq<Message>, kind: Kind)
    requires Tracked(sanitize, s, t, ms)
    ensures Accounted(t.ops, kind)
    ensures s.running ==> BlocksOf(ms[t.base..]) == Shown(sanitize, Fold(t.ops).committed)
    ensures s.running ==> (if kind.ThinkingKind? then s.thinking else s.text) == Join(Part(Fold(t.ops).open, kind))
    ensures !s.running ==> BlocksOf(ms[t.base..]) == Shown(sanitize, Fold(t.ops).committed + [Fold(t.ops).open])
  {
    ExactlyOnce(t.ops, kind);
  }
}
