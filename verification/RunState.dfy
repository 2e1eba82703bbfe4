// The state of one agent run and the ways a run can end early.
module RunState {
  import opened Wrappers
  import opened ToolDeltas
  import opened Conversation
  import opened UsageMeter

  const CANCELLED_REQUEST_BOUNDARY :=
    "上一条用户请求已由用户取消。不要继续该请求，除非最新用户消息明确要求恢复；下一轮只处理最新的用户请求。"
  const CANCELLED_TOOL_RESULT := "工具调用已发布，但在结果返回界面前本轮被取消；没有持久化未发布的工具结果。"

  // ------------------------------------------------------------------------------ frame

  predicate IsTerminal(status: FrameStatus) {
    status.Completed? || status.Failed? || status.Success? || status.Replaced? || status.CancelledStatus?
  }

  class Frame {
    var id: string
    var parent: Option<string>
    var root: Option<string>
    var agentName: string
    var status: FrameStatus
    var summary: string

    constructor (frameId: string, taskSummary: string)
      ensures id == frameId && root == Some(frameId) && parent.None? && status == Processing && summary == taskSummary
    {
      id, parent, root, agentName, status, summary := frameId, None, Some(frameId), "MAIN", Processing, taskSummary;
    }

    /** A terminal status sticks. */
    method SetStatus(next: FrameStatus)
      modifies this`status
      ensures status == if IsTerminal(old(status)) then old(status) else next
    {
      if IsTerminal(status) {
        return;
      }
      status := next;
    }

    /** A frame that is not processing becomes the parent of a fresh one. */
    method BeginRun(taskSummary: string, freshId: string)
      modifies this`id, this`parent, this`status, this`summary
      ensures status == Processing && summary == taskSummary
      ensures old(status) == Processing ==> id == old(id) && parent == old(parent)
      ensures old(status) != Processing ==> id == freshId && parent == Some(old(id))
    {
      summary := taskSummary;
      if status == Processing {
        return;
      }
      parent, id, status := Some(id), freshId, Processing;
    }
  }

  // ---------------------------------------------------------------------------- session

  datatype GateState = GateState(
    emptyRetries: nat, retrievalStreak: nat, lengthFinishes: nat, planDenials: nat, vetoes: nat)

  const OPEN_GATES := GateState(0, 0, 0, 0, 0)

  class Session {
    const frame: Frame
    var messages: seq<Message>
    var gate: GateState
    var plan: Option<PlanState>

    constructor (root: Frame)
      ensures frame == root && messages == [] && gate == OPEN_GATES && plan == None
    {
      frame, messages, gate, plan := root, [], OPEN_GATES, None;
    }
  }

  // ------------------------------------------------------------------------ run progress

  class RunProgress {
    var iterations: nat
    var usage: Usage
    var iterationUsage: Usage
    var published: PublishedTurn
    /** The usage snapshots of every iteration so far. */
    ghost var snapshots: seq<seq<Usage>>

    /** The total covers the latest snapshot of the current iteration and of all completed ones. */
    ghost predicate Metering()
      reads this`iterations, this`usage, this`iterationUsage, this`snapshots
    {
      |snapshots| == iterations && usage == Metered(snapshots) && iterationUsage == Current(snapshots)
    }

    constructor ()
      ensures iterations == 0 && usage == NO_USAGE && iterationUsage == NO_USAGE && published == NOTHING
      ensures snapshots == [] && Metering()
    {
      iterations, usage, iterationUsage, published, snapshots := 0, NO_USAGE, NO_USAGE, NOTHING, [];
    }

    /** Starting an iteration finds nothing published and uncommitted. */
    method BeginIteration()
      requires IsEmpty(published) && Metering()
      modifies this`iterations, this`iterationUsage, this`snapshots
      ensures iterations == old(iterations) + 1 && iterationUsage == NO_USAGE
      ensures snapshots == old(snapshots) + [[]] && Metering()
    {
      assert IsEmpty(published);
      iterations, iterationUsage, snapshots := iterations + 1, NO_USAGE, snapshots + [[]];
      assert Before(snapshots) == old(snapshots);
    }

    /** A later snapshot of the same iteration replaces the earlier one. */
    method RecordUsage(next: Usage)
      requires snapshots != [] && Metering()
      modifies this`usage, this`iterationUsage, this`snapshots
      ensures Metering() && Heard(old(snapshots), snapshots, Open(old(snapshots)) + [next])
    {
      usage, iterationUsage := ReplaceUsage(usage, iterationUsage, next), next;
      snapshots := snapshots[..|snapshots| - 1] + [Open(snapshots) + [next]];
      assert Open(snapshots)[..|Open(snapshots)| - 1] == Open(old(snapshots));
      assert Before(snapshots) == old(snapshots);
    }

    method TakePublishedMessage() returns (message: Option<Message>)
      modifies this`published
      ensures message == IntoMessage(old(published), iterationUsage) && published == NOTHING
    {
      message := IntoMessage(published, iterationUsage);
      published := NOTHING;
    }
  }

  // ----------------------------------------------------------------------- event channel

  /**
   * The sender's view of the event channel. The receiver closes it after an arbitrary number of
   * operations; from then on every send fails. `ledger` also counts a refused attempt to take a draft back.
   */
  class EventChannel {
    var accepted: seq<AgentEvent>
    var budget: nat
    ghost var refused: bool
    ghost var seen: seq<AgentEvent>
    ghost var ledger: Ledger

    ghost predicate Valid()
      reads this`accepted, this`seen, this`refused, this`ledger
    {
      && ledger == LedgerOf(seen)
      && (seen == accepted || (refused && |seen| > 0 && seen[|seen| - 1].DraftReset? && seen[..|seen| - 1] == accepted))
    }

    constructor (operations: nat)
      ensures Valid() && accepted == [] && seen == [] && ledger == NO_TURNS && !refused && budget == operations
    {
      accepted, budget, refused, seen, ledger := [], operations, false, [], NO_TURNS;
    }

    method Send(e: AgentEvent) returns (ok: bool)
      requires Valid() && !refused
      modifies this
      ensures Valid() && refused == !ok
      ensures accepted == old(accepted) + if ok then [e] else []
      ensures ledger == if ok || e.DraftReset? then Record(old(ledger), e) else old(ledger)
    {
      hide LedgerOf, Record;
      LedgerStep(seen, e);
      ok := budget > 0;
      if ok {
        accepted, seen, budget, ledger := accepted + [e], seen + [e], budget - 1, Record(ledger, e);
      } else {
        refused := true;
        if e.DraftReset? {
          seen, ledger := seen + [e], Record(ledger, e);
        }
      }
    }

    /** Whether the receiver is gone by now. */
    method IsClosed() returns (closed: bool)
      modifies this`budget
      ensures closed ==> budget == 0
    {
      closed := budget == 0;
      if !closed {
        budget := budget - 1;
      }
    }
  }

  /**
   * The ledger is that of the delivered events, plus at most one attempt to take a draft back that was not delivered.
   */
  lemma LedgerMeaning(channel: EventChannel)
    requires channel.Valid()
    ensures channel.ledger == LedgerOf(channel.accepted)
         || exists reason :: channel.ledger == LedgerOf(channel.accepted + [DraftReset(reason)])
  {
    hide LedgerOf;
    if channel.seen != channel.accepted {
      var last := channel.seen[|channel.seen| - 1];
      assert channel.seen == channel.accepted + [DraftReset(last.reason)];
    }
  }

  ghost predicate NoTerminal(events: seq<AgentEvent>) {
    forall e <- events :: !e.Complete? && !e.ErrorEvent?
  }

  // ------------------------------------------------------------------------------ the run

  datatype Outcome = Outcome(
    kind: CompleteKind, finalText: string, awaiting: Option<string>, pendingAsk: Option<PendingAsk>,
    error: Option<string>, usage: Usage, iterations: nat)

  function CompleteOf(o: Outcome, status: FrameStatus, plan: Option<PlanState>): AgentEvent {
    Complete(Terminal(o.kind, o.finalText, o.awaiting, o.error, o.usage, o.iterations, status, o.pendingAsk, plan))
  }

  /** The delivered events end in the one Complete that says what the outcome says. */
  ghost predicate EndsWith(events: seq<AgentEvent>, o: Outcome, status: FrameStatus) {
    && |events| > 0
    && NoTerminal(events[..|events| - 1])
    && exists plan :: events[|events| - 1] == CompleteOf(o, status, plan)
  }

  /** The frame status each kind of ending leaves behind. */
  predicate Fits(kind: CompleteKind, awaiting: Option<string>, status: FrameStatus) {
    match kind
    case Natural => status.Completed?
    case Awaiting =>
      || (awaiting == Some("plan_approval") && status.AwaitingPlanApproval?)
      || (awaiting == Some("plan_execution") && status.AwaitingPlanExecution?)
      || (awaiting == Some("user_response") && status.AwaitingUserResponse?)
    case MaxIters => status.Failed?
    case ErrorKind => status.Failed?
    case Cancelled => status.CancelledStatus?
  }

  /** The history ends in the hidden mark that its last request was cancelled. */
  predicate MarksCancellation(ms: seq<Message>) {
    && ms != []
    && var last := ms[|ms| - 1];
       last.role == System && last.notice && last.content == Some(CANCELLED_REQUEST_BOUNDARY)
  }

  function CancelledReplies(calls: seq<ToolCall>): (replies: seq<Message>)
    ensures Answers(replies, calls) && forall m <- replies :: m.isError == Some(true)
  {
    seq(|calls|,
        i requires 0 <= i < |calls| => ToolMessage(calls[i].id, CANCELLED_TOOL_RESULT, Some(calls[i].name), true))
  }

  class AgentRun {
    const session: Session
    const progress: RunProgress
    const channel: EventChannel
    /** The history this run started from. */
    ghost const base: seq<Message>

    constructor (s: Session, p: RunProgress, c: EventChannel)
      ensures session == s && progress == p && channel == c && base == s.messages
    {
      session, progress, channel, base := s, p, c, s.messages;
    }

    /** Delivered evidence of the open iteration is exactly what `published` holds. */
    ghost predicate Drafting()
      reads session`messages, progress`published, channel`ledger
    {
      && base <= session.messages
      && Records(session.messages, |base|, channel.ledger.done, channel.ledger.retracted)
      && progress.published == channel.ledger.open
    }

    /** All delivered evidence is history; nothing is pending. */
    ghost predicate Settled()
      reads session`messages, progress`published, channel`ledger
    {
      && base <= session.messages
      && Records(session.messages, |base|, Turns(channel.ledger), channel.ledger.retracted)
      && progress.published == NOTHING
    }

    ghost predicate Live()
      reads session.frame`status, channel
    {
      channel.Valid() && !channel.refused && NoTerminal(channel.accepted) && session.frame.status == Processing
    }

    /** How every run ends: all evidence accounted for, and one terminal event unless it was cancelled. */
    ghost predicate Ended(o: Outcome)
      reads session`messages, session.frame`status, progress, channel
    {
      && channel.Valid() && Settled()
      && o.usage == progress.usage && o.iterations == progress.iterations
           && Fits(o.kind, o.awaiting, session.frame.status)
      && if o.kind == Cancelled
         then NoTerminal(channel.accepted)
         else EndsWith(channel.accepted, o, session.frame.status)
    }

    method PushSilent(m: Message)
      requires Silent(m) && (Drafting() || Settled())
      modifies session`messages
      ensures session.messages == old(session.messages) + [m]
      ensures old(Drafting()) ==> Drafting()
      ensures old(Settled()) ==> Settled()
    {
      hide Records, Turns, Silent;
      if Drafting() {
        RecordsSilent(session.messages, |base|, channel.ledger.done, channel.ledger.retracted, m);
      }
      if Settled() {
        RecordsSilent(session.messages, |base|, Turns(channel.ledger), channel.ledger.retracted, m);
      }
      session.messages := session.messages + [m];
    }

    /** Commit what is published, unless there is nothing. */
    method CommitPublished()
      requires Drafting() || Settled()
      requires progress.published.toolCalls.None?
      modifies session`messages, progress`published
      ensures Settled()
      ensures var message := IntoMessage(old(progress.published), progress.iterationUsage);
              session.messages == old(session.messages) + if message.Some? then [message.value] else []
    {
      hide Records;
      var turn := progress.published;
      ghost var was := session.messages;
      var message := progress.TakePublishedMessage();
      assert session.messages + [] == session.messages;
      if message.Some? {
        MessageShowsTurn(turn, progress.iterationUsage);
        RecordsTurn(was, |base|, channel.ledger.done, channel.ledger.retracted, message.value, []);
        assert was + [message.value] + [] == was + [message.value];
        session.messages := session.messages + [message.value];
      } else {
        assert channel.ledger.done + [] == channel.ledger.done;
      }
    }

    /** Keep the draft as a hidden message; the caller then takes it back from the reader. */
    method HidePublished()
      requires Drafting() && progress.published.toolCalls.None?
      modifies session`messages, progress`published
      ensures base <= session.messages && progress.published == NOTHING
      ensures var message := IntoMessage(old(progress.published), progress.iterationUsage);
              session.messages == old(session.messages) + if message.Some? then [message.value.(notice := true)] else []
      ensures forall reason :: Records(session.messages, |base|, channel.ledger.done,
                Record(channel.ledger, DraftReset(reason)).retracted)
    {
      hide Records;
      var turn := progress.published;
      ghost var was := session.messages;
      var message := progress.TakePublishedMessage();
      assert session.messages + [] == session.messages;
      if message.Some? {
        MessageShowsTurn(turn, progress.iterationUsage);
        var hidden := message.value.(notice := true);
        RecordsTurn(was, |base|, channel.ledger.done, channel.ledger.retracted, hidden, []);
        assert was + [hidden] + [] == was + [hidden];
        session.messages := session.messages + [hidden];
      } else {
        assert channel.ledger.retracted + [] == channel.ledger.retracted;
      }
    }

    /** Commit a published batch of calls together with synthetic error results. */
    method CommitCancelled()
      requires Drafting() || Settled()
      modifies session`messages, progress`published
      ensures Settled()
      ensures var turn := old(progress.published);
              var message := IntoMessage(turn, progress.iterationUsage);
              session.messages == old(session.messages)
                + if message.Some? then [message.value]
                    + CancelledReplies(if turn.toolCalls.Some? then turn.toolCalls.value else []) else []
    {
      hide Records;
      var turn := progress.published;
      var calls := if turn.toolCalls.Some? then turn.toolCalls.value else [];
      ghost var was := session.messages;
      var message := progress.TakePublishedMessage();
      if message.None? {
        assert channel.ledger.done + [] == channel.ledger.done && was + [] == was;
        return;
      }
      MessageShowsTurn(turn, progress.iterationUsage);
      session.messages := session.messages + [message.value];
      ghost var replies: seq<Message> := [];
      for i := 0 to |calls|
        invariant replies == CancelledReplies(calls)[..i]
        invariant session.messages == was + [message.value] + replies
        invariant progress.published == NOTHING
      {
        var reply := ToolMessage(calls[i].id, CANCELLED_TOOL_RESULT, Some(calls[i].name), true);
        session.messages := session.messages + [reply];
        replies := replies + [reply];
        assert was + [message.value] + replies == was + [message.value] + replies[..i] + [reply];
        assert CancelledReplies(calls)[..i + 1] == CancelledReplies(calls)[..i] + [reply];
      }
      assert replies == CancelledReplies(calls) && calls == CallsOf(message.value);
      assert was + [message.value] + replies == was + ([message.value] + replies);
      RecordsTurn(was, |base|, channel.ledger.done, channel.ledger.retracted, message.value, replies);
    }

    /** The receiver went away: keep all delivered evidence, well paired, and mark the boundary. */
    method Cancel() returns (o: Outcome)
      requires channel.Valid() && NoTerminal(channel.accepted) && session.frame.status == Processing
      requires Drafting() || Settled()
      modifies session`messages, progress`published, session.frame`status
      ensures Ended(o) && o.kind == Cancelled && o.finalText == old(progress.published.text)
      ensures old(session.messages) <= session.messages && MarksCancellation(session.messages)
    {
      hide Records, Turns;
      var finalText := progress.published.text;
      CommitCancelled();
      var boundary := Notice(CANCELLED_REQUEST_BOUNDARY);
      if !MarksCancellation(session.messages) {
        PushSilent(boundary);
      }
      session.frame.SetStatus(CancelledStatus);
      o := Outcome(Cancelled, finalText, None, None, None, progress.usage, progress.iterations);
    }

    /** Deliver the terminal event; only its delivery makes the outcome stand. */
    method Conclude(o: Outcome, status: FrameStatus, plan: Option<PlanState>) returns (delivered: bool)
      requires Live() && o.kind != Cancelled
      modifies channel
      ensures channel.Valid() && channel.ledger == old(channel.ledger)
      ensures delivered ==> EndsWith(channel.accepted, o, status)
      ensures !delivered ==> NoTerminal(channel.accepted)
    {
      hide LedgerOf;
      var e := CompleteOf(o, status, plan);
      delivered := channel.Send(e);
      if delivered {
        assert channel.accepted[..|channel.accepted| - 1] == old(channel.accepted);
        assert channel.accepted[|channel.accepted| - 1] == CompleteOf(o, status, plan);
      }
    }

    /** A failing run still delivers and keeps its draft. */
    method Fail(previousText: string, message: string, pendingAsk: Option<PendingAsk>) returns (o: Outcome)
      requires Live() && (Drafting() || Settled()) && progress.published.toolCalls.None?
      modifies session`messages, progress`published, session.frame`status, channel
      ensures Ended(o) && (o.kind == Cancelled || (o.kind == ErrorKind && o.error == Some(message)))
      ensures o.kind == ErrorKind ==>
                o.finalText == if old(progress.published.text) == "" then previousText else old(progress.published.text)
      ensures old(session.messages) <= session.messages
    {
      hide Records, LedgerOf, NoTerminal, EndsWith, Turns;
      var finalText := if progress.published.text == "" then previousText else progress.published.text;
      o := Outcome(ErrorKind, finalText, None, pendingAsk, Some(message), progress.usage, progress.iterations);
      var delivered := Conclude(o, Failed, session.plan);
      if !delivered {
        o := Cancel();
        return;
      }
      CommitPublished();
      session.frame.SetStatus(Failed);
    }

    /** The draft was never a legal turn: hide it, take it back, then fail. */
    method FailInvalidatedCandidate(previousText: string, reason: string, message: string) returns (o: Outcome)
      requires Live() && Drafting() && progress.published.toolCalls.None?
      modifies session`messages, progress`published, session.frame`status, channel
      ensures Ended(o) && (o.kind == Cancelled || (o.kind == ErrorKind && o.error == Some(message)))
      ensures old(session.messages) <= session.messages
    {
      hide Records, LedgerOf, NoTerminal, EndsWith;
      if progress.published.thinking != "" || progress.published.text != "" {
        var reset := RetractPublished(reason);
        if !reset {
          o := Cancel();
          return;
        }
      }
      o := Fail(previousText, message, None);
    }

    /** Hide the draft and take it back from the reader. */
    method RetractPublished(reason: string) returns (ok: bool)
      requires Live() && Drafting() && progress.published.toolCalls.None?
      modifies session`messages, progress`published, channel
      ensures Settled() && old(session.messages) <= session.messages
      ensures var message := IntoMessage(old(progress.published), progress.iterationUsage);
              session.messages == old(session.messages) + if message.Some? then [message.value.(notice := true)] else []
      ensures ok ==> Live()
      ensures !ok ==> channel.Valid() && NoTerminal(channel.accepted)
    {
      hide Records, LedgerOf;
      HidePublished();
      ok := channel.Send(DraftReset(reason));
      assert channel.ledger.done + [] == channel.ledger.done;
    }
  }
}
