// The agent's turn loop: retry gates, plan gates, tool turns and the reviewer.
module Runner {
  import opened Wrappers
  import T = Text
  import opened DsmlParser
  import D = ToolDeltas
  import C = Conversation
  import opened RunState
  import opened UsageMeter
  import opened Tools
  import A = ArtifactRepair
  import opened Durable
  import S = TurnStream

  const EMPTY_RETRY_CAP := 3
  const RETRIEVAL_CIRCUIT_BREAKER := 6
  const LENGTH_FINISH_TRIM_AT := 3
  const LENGTH_FINISH_HARD_CAP := 5
  const PLAN_DENIAL_CAP := 3
  const PLAN_COMPLETION_RETRY_CAP := 3
  const VETO_CAP := 1
  const ARTIFACT_REPAIR_REMINDER_CAP := 1

  const RECOVERY_NOTICE := "several tools failed: find the cause with a minimal reproduction first"
  const STOP_SEARCHING := "stop searching and start answering"

  /** A user's own iteration limit only ever lowers the configured one. */
  function EffectiveIterationLimit(explicit: Option<nat>, configured: nat): (r: (nat, bool))
    ensures r.0 <= configured && (explicit.Some? ==> r.0 <= explicit.value)
    ensures r.1 <==> explicit.Some? && explicit.value == r.0
  {
    if explicit.None? then (configured, false)
    else (if explicit.value <= configured then explicit.value else configured, explicit.value <= configured)
  }

  datatype Verdict = Verdict(pass: bool, findings: seq<string>, requiresToolAction: bool)

  /** Everything outside the runner during one iteration. */
  datatype Surroundings = Surroundings(
    compacts: bool,
    overflow: Option<string>,
    response: Result<seq<S.StreamItem>, string>,
    freshIds: nat -> string,
    reply: nat -> ToolReply,
    checkpointFault: bool,
    verdict: Option<Verdict>)

  predicate IsVeto(v: Option<Verdict>) {
    v.Some? && !v.value.pass
  }

  /** One call of the reviewer: in which iteration, over how long a history, on which draft, and what came back. */
  datatype ReviewRecord = ReviewRecord(iteration: nat, history: nat, text: string, verdict: Option<Verdict>)

  /** The reviewer's last word was no veto, and after a veto it was an explicit pass. */
  predicate Passed(reviews: seq<ReviewRecord>) {
    && |reviews| > 0
    && !IsVeto(reviews[|reviews| - 1].verdict)
    && (|reviews| > 1 ==> reviews[|reviews| - 1].verdict.Some?)
  }

  /** The first review was a veto that demanded a repaired artifact. */
  predicate RepairDemanded(reviews: seq<ReviewRecord>) {
    |reviews| > 0 && IsVeto(reviews[0].verdict) && reviews[0].verdict.value.requiresToolAction
  }

  /** The reviewed draft stands in the history, hidden, right behind what the reviewer saw. */
  predicate SentBack(history: seq<C.Message>, r: ReviewRecord) {
    && r.history < |history|
    && var m := history[r.history];
       m.role == C.Assistant && m.notice && C.Shows(m).text == r.text
  }

  /** The review was held over a real draft of an iteration so far, behind the start of the run, with this answer. */
  ghost predicate Genuine(
    r: ReviewRecord, around: nat -> Surroundings, history: seq<C.Message>, start: nat, iterations: nat)
  {
    && r.iteration < iterations && start < r.history <= |history| && T.Trim(r.text) != ""
    && r.verdict == around(r.iteration).verdict
  }

  /** All reviews of a run: at most two, in order, and every one but the last a veto whose draft was sent back. */
  ghost predicate ReviewsTold(
    reviews: seq<ReviewRecord>, around: nat -> Surroundings, history: seq<C.Message>, start: nat, iterations: nat)
  {
    && |reviews| <= VETO_CAP + 1
    && (forall k | 0 <= k < |reviews| :: Genuine(reviews[k], around, history, start, iterations))
    && forall k | 0 <= k < |reviews| - 1 ::
         && IsVeto(reviews[k].verdict) && SentBack(history, reviews[k])
         && reviews[k].iteration < reviews[k + 1].iteration && reviews[k].history < reviews[k + 1].history
  }

  /** The last review was held over this very answer, which is the last message of the history. */
  predicate AnswersLastReview(reviews: seq<ReviewRecord>, history: seq<C.Message>, iterations: nat, text: string) {
    && reviews != []
    && var last := reviews[|reviews| - 1];
       && last.iteration + 1 == iterations && last.text == text && last.history + 1 == |history|
       && var m := history[last.history];
          m.role == C.Assistant && !m.notice && C.Shows(m).text == text
  }

  /** The reviewer gate as a natural ending passed it; a demanded repair is looked for right behind the hidden draft. */
  ghost predicate ReviewPassed(
    reviews: seq<ReviewRecord>, around: nat -> Surroundings, history: seq<C.Message>, start: nat, o: Outcome)
  {
    && ReviewsTold(reviews, around, history, start, o.iterations)
    && Passed(reviews) && AnswersLastReview(reviews, history, o.iterations, o.finalText)
    && (RepairDemanded(reviews) ==>
          var from := reviews[0].history + 1;
          && from <= |history| && C.WellPaired(history[..from]) && C.WellPaired(history)
          && A.Progress(history[from..]) == A.Repaired)
  }

  // ----------------------------------------------------------------------------- usage of a run

  /** The usage snapshots that the provider sends in one iteration. */
  function UsageSent(around: Surroundings): seq<C.Usage> {
    if around.response.Ok? then S.Snapshots(around.response.value) else []
  }

  /** One more iteration was opened, and what was heard in it is the beginning of what the provider sent. */
  ghost predicate HeardOne(before: seq<seq<C.Usage>>, after: seq<seq<C.Usage>>, sent: seq<C.Usage>) {
    |after| == |before| + 1 && after[..|before|] == before && after[|before|] <= sent
  }

  lemma OpenedOnly(before: seq<seq<C.Usage>>, opening: seq<seq<C.Usage>>, around: Surroundings)
    requires opening == before + [[]]
    ensures HeardOne(before, opening, UsageSent(around)) && Open(opening) == []
  {
  }

  lemma HeardInTurn(before: seq<seq<C.Usage>>, opening: seq<seq<C.Usage>>, after: seq<seq<C.Usage>>,
      around: Surroundings, items: seq<S.StreamItem>)
    requires opening == before + [[]] && around.response == Ok(items) && S.HeardSome(opening, after, items)
    ensures HeardOne(before, after, UsageSent(around))
    ensures Open(after) == S.Snapshots(items) ==> Open(after) == UsageSent(around)
  {
    hide S.Snapshots;
  }

  predicate EndsEarly(kind: C.CompleteKind) {
    kind.Cancelled? || kind.ErrorKind?
  }

  /** All snapshots of every iteration were heard; a run that was cancelled or failed may have missed its last ones. */
  ghost predicate HeardAll(heard: seq<seq<C.Usage>>, around: nat -> Surroundings, o: Outcome) {
    && |heard| == o.iterations
    && (forall k | 0 <= k < |heard| :: heard[k] <= UsageSent(around(k)))
    && forall k | 0 <= k < |heard| ::
         k < |heard| - 1 || !EndsEarly(o.kind) ==> heard[k] == UsageSent(around(k))
  }

  /** An exclusive tool is the only call of its batch. */
  predicate RoutesAlone(batch: seq<D.ToolCall>, exclusive: string -> bool) {
    |batch| > 1 ==> forall call <- batch :: !exclusive(call.name)
  }

  datatype Flow = Continue | Done(outcome: Outcome)

  function NameOf(calls: seq<D.ToolCall>, id: string): Option<string> {
    if calls == [] then None else if calls[0].id == id then Some(calls[0].name) else NameOf(calls[1..], id)
  }

  class TurnLoop {
    const run: AgentRun
    const ctx: ToolContext
    const worker: CheckpointWorker
    const codec: Codec
    const planMode: bool
    const limit: nat
    const userCap: bool
    const exclusive: string -> bool
    const initialPlan: Option<C.PlanState>
    var finalText: string
    var historyCursor: nat
    var toolErrors: nat
    var planRetries: nat
    var artifactTraceStart: Option<nat>
    var artifactReminders: nat
    /** What lies around each iteration. */
    ghost const world: nat -> Surroundings
    /** Every review that was asked for. */
    ghost var reviews: seq<ReviewRecord>
    /** The history at the moment an artifact repair was demanded. */
    ghost var vetoHistory: seq<C.Message>

    constructor (
      r: AgentRun, tools: ToolContext, w: CheckpointWorker, json: Codec, plan: bool, iterations: nat, capped: bool,
      isExclusive: string -> bool, ghost surroundings: nat -> Surroundings)
      ensures run == r && ctx == tools && worker == w && codec == json && planMode == plan && limit == iterations
                && userCap == capped
      ensures exclusive == isExclusive && world == surroundings && initialPlan == tools.plan
                && historyCursor == |r.session.messages|
      ensures planRetries == 0 && artifactTraceStart.None? && artifactReminders == 0 && reviews == [] && finalText == ""
    {
      run, ctx, worker, codec, planMode, limit, userCap, exclusive := r, tools, w, json, plan, iterations, capped,
          isExclusive;
      initialPlan, historyCursor := tools.plan, |r.session.messages|;
      finalText, toolErrors, planRetries, artifactTraceStart, artifactReminders := "", 0, 0, None, 0;
      reviews, vetoHistory, world := [], [], surroundings;
    }

    predicate Enforced() {
      initialPlan.Some? && initialPlan.value.approved
    }

    // ----------------------------------------------------------------------- what holds

    /** In plan mode only planning tools were ever executed, and an exclusive tool only ever alone. */
    ghost predicate RoutedOk()
      reads ctx`routed
    {
      && (planMode ==> forall batch <- ctx.routed :: OnlyPlanTools(batch))
      && forall batch <- ctx.routed :: RoutesAlone(batch, exclusive)
    }

    ghost predicate PlanOk()
      reads ctx`plan
    {
      planMode && initialPlan.None? ==> ctx.plan.None?
    }

    /** Every review so far was a veto, and a demanded repair is looked for right behind it. */
    ghost predicate Reviewed()
      reads this`reviews, this`artifactTraceStart, this`vetoHistory, run.session`messages, run.session`gate
    {
      && |reviews| == run.session.gate.vetoes <= VETO_CAP && AllSentBack()
      && RepairTracked()
    }

    ghost predicate AllSentBack()
      reads this`reviews, run.session`messages
    {
      forall r <- reviews :: IsVeto(r.verdict) && SentBack(run.session.messages, r)
    }

    /** The current iteration was not reviewed yet. */
    ghost predicate Unreviewed()
      reads this`reviews, run.progress`iterations
    {
      run.progress.iterations > 0 && forall r <- reviews :: r.iteration < run.progress.iterations - 1
    }

    ghost predicate Told()
      reads this`reviews, run.session`messages, run.progress`iterations
    {
      && |run.base| < |run.session.messages|
      && ReviewsTold(reviews, world, run.session.messages, |run.base|, run.progress.iterations)
    }

    ghost predicate RepairTracked()
      reads this`reviews, this`artifactTraceStart, this`vetoHistory, run.session`messages
    {
      && (artifactTraceStart.Some? <==> RepairDemanded(reviews))
      && (artifactTraceStart.Some? ==>
            && artifactTraceStart.value == reviews[0].history + 1
            && |vetoHistory| == artifactTraceStart.value && vetoHistory <= run.session.messages
                 && C.WellPaired(vetoHistory))
    }

    /** What is stored is a prefix of the history, and every stored transcript is well paired. */
    ghost predicate Saved()
      reads worker, worker.db, worker.active, run.session`messages
    {
      && worker.Valid() && worker.initialCount == |run.base|
      && worker.db.Transcript() <= run.session.messages
    }

    /** Holds even after the receiver has gone. */
    ghost predicate Body()
      reads this`reviews, run.session`messages, run.session.frame`status, run.progress`iterations, run.channel,
        ctx`routed
      reads worker, worker.db, worker.active
    {
      && run.channel.Valid() && NoTerminal(run.channel.accepted) && run.session.frame.status == C.Processing
      && Saved() && run.progress.iterations <= limit && Told() && RoutedOk()
    }

    ghost predicate Base()
      reads this`reviews, run.session`messages, run.session.frame`status, run.progress`iterations, run.channel,
        ctx`routed
      reads worker, worker.db, worker.active
    {
      Body() && !run.channel.refused
    }

    ghost predicate Inv()
      reads this, run.session, run.session.frame, run.progress, run.channel, ctx, worker, worker.db, worker.active
    {
      Base() && !worker.stopped && historyCursor == worker.expectedCount && Reviewed() && PlanOk()
    }

    /** When a run may end as naturally completed. */
    ghost predicate NaturalOk()
      reads this, run.session, ctx
    {
      && !(planMode && initialPlan.None?)
      && (Enforced() ==> ApprovedPlanIsComplete(ctx.plan))
      && run.session.plan == ctx.plan
      && Passed(reviews) && |reviews| == run.session.gate.vetoes + 1 && RepairTracked()
      && (artifactTraceStart.Some? ==> A.Progress(run.session.messages[artifactTraceStart.value..]) == A.Repaired)
    }

    ghost predicate Final(o: Outcome)
      reads this, run.session, run.session.frame, run.progress, run.channel, ctx, worker, worker.db, worker.active
    {
      && run.Ended(o) && Saved()
      && run.progress.iterations <= limit && Told() && RoutedOk()
      && (o.kind.Natural? ==> NaturalOk() && AnswerShown(o) && AnswerReviewed(o.finalText))
    }

    ghost predicate AnswerReviewed(text: string)
      reads this`reviews, run.session`messages, run.progress`iterations
    {
      AnswersLastReview(reviews, run.session.messages, run.progress.iterations, text)
    }

    /** The final text is the text of the last turn that the reader was shown. */
    ghost predicate AnswerShown(o: Outcome)
      reads run.channel`ledger
    {
      var turns := C.Turns(run.channel.ledger);
      turns != [] && turns[|turns| - 1].text == o.finalText && T.Trim(o.finalText) != ""
    }

    // ------------------------------------------------------------------------ small steps

    method Note(text: string)
      requires Body() && (run.Drafting() || run.Settled())
      modifies run.session`messages
      ensures Body() && run.session.messages == old(run.session.messages) + [C.Notice(text)]
      ensures (old(run.Drafting()) ==> run.Drafting()) && (old(run.Settled()) ==> run.Settled())
      ensures (old(Base()) ==> Base()) && (old(Reviewed()) ==> Reviewed())
    {
      hide C.Records, C.LedgerOf, C.Turns, NoTerminal, C.WellPaired, CheckpointWorker.Valid, EventChannel.Valid;
      run.PushSilent(C.Notice(text));
    }

    /** Deliver an event that shows nothing of the current draft. */
    method Say(e: C.AgentEvent) returns (ok: bool)
      requires Base() && (run.Drafting() || run.Settled()) && (e.ToolResults? || e.PlanUpdate?)
      modifies run.channel
      ensures Body() && (ok ==> Base()) && run.channel.ledger == old(run.channel.ledger)
      ensures (old(run.Drafting()) ==> run.Drafting()) && (old(run.Settled()) ==> run.Settled())
    {
      hide C.Records, C.LedgerOf, C.Turns, C.WellPaired, CheckpointWorker.Valid;
      ok := run.channel.Send(e);
    }

    method Abort() returns (o: Outcome)
      requires Body() && (run.Drafting() || run.Settled())
      modifies run.session`messages, run.progress`published, run.session.frame`status
      ensures Final(o) && o.kind.Cancelled?
    {
      hide C.Records, C.LedgerOf, C.Turns, NoTerminal, C.WellPaired, CheckpointWorker.Valid, EventChannel.Valid,
        EndsWith;
      o := run.Cancel();
    }

    method FailWith(message: string) returns (o: Outcome)
      requires Base() && (run.Drafting() || run.Settled()) && run.progress.published.toolCalls.None?
      modifies run.session`messages, run.progress`published, run.session.frame`status, run.channel
      ensures Final(o) && (o.kind.Cancelled? || (o.kind.ErrorKind? && o.error == Some(message)))
    {
      hide C.Records, C.LedgerOf, C.Turns, NoTerminal, C.WellPaired, CheckpointWorker.Valid, EventChannel.Valid,
        EndsWith;
      o := run.Fail(finalText, message, None);
    }

    function Ending(kind: C.CompleteKind, text: string, awaiting: Option<string>, ask: Option<C.PendingAsk>,
        error: Option<string>): Outcome
      reads run.progress
    {
      Outcome(kind, text, awaiting, ask, error, run.progress.usage, run.progress.iterations)
    }

    /** Deliver the terminal event and, only then, commit the draft and settle the frame. */
    method Deliver(o: Outcome, status: C.FrameStatus, plan: Option<C.PlanState>) returns (out: Outcome)
      requires Base() && (run.Drafting() || run.Settled()) && run.progress.published.toolCalls.None?
      requires Fits(o.kind, o.awaiting, status) && !o.kind.Cancelled? && !o.kind.Natural?
      requires o.usage == run.progress.usage && o.iterations == run.progress.iterations
      modifies run.session`messages, run.progress`published, run.session.frame`status, run.channel
      ensures Final(out) && (out == o || out.kind.Cancelled?)
    {
      hide C.Records, C.LedgerOf, C.Turns, NoTerminal, C.WellPaired, CheckpointWorker.Valid, EndsWith;
      var delivered := run.Conclude(o, status, plan);
      if !delivered {
        out := Abort();
        return;
      }
      run.CommitPublished();
      run.session.frame.SetStatus(status);
      out := o;
    }

    /** Hide the draft and take it back from the reader. */
    method TakeBack(reason: string) returns (ok: bool)
      requires Base() && run.Drafting() && run.progress.published.toolCalls.None?
      modifies run.session`messages, run.progress`published, run.channel
      ensures Body() && run.Settled() && (ok ==> Base()) && run.progress.published == C.NOTHING
      ensures var draft := C.IntoMessage(old(run.progress.published), run.progress.iterationUsage);
              run.session.messages == old(run.session.messages)
                + if draft.Some? then [draft.value.(notice := true)] else []
      ensures old(Reviewed()) ==> Reviewed()
    {
      hide C.Records, C.LedgerOf, C.Turns, NoTerminal, C.WellPaired, CheckpointWorker.Valid;
      ok := run.RetractPublished(reason);
    }

    // ------------------------------------------------------------------------- the gates

    /** The answer was cut off at the token limit: continue, or give up after five times. */
    method LengthGate(last: bool) returns (flow: Flow)
      requires Inv() && run.Drafting() && run.progress.published.toolCalls.None?
      modifies this`finalText, run.session`messages, run.session`gate, run.progress`published,
        run.session.frame`status, run.channel
      ensures flow.Continue? ==>
              && Inv() && run.Settled() && !last
              && run.session.gate == old(run.session.gate).(lengthFinishes := old(run.session.gate.lengthFinishes) + 1)
              && run.session.gate.lengthFinishes < LENGTH_FINISH_HARD_CAP
      ensures flow.Done? ==>
              && Final(flow.outcome)
              && match flow.outcome.kind {
                   case Cancelled => true
                   case ErrorKind => last
                   case MaxIters => old(run.session.gate.lengthFinishes) + 1 >= LENGTH_FINISH_HARD_CAP
                   case _ => false
                 }
    {
      hide TurnLoop.Body, TurnLoop.Reviewed, TurnLoop.PlanOk, TurnLoop.Final, AgentRun.Drafting, AgentRun.Settled,
        CheckpointWorker.Valid;
      if last {
        var o := FailWith("iteration budget exhausted: final response was truncated");
        return Done(o);
      }
      BumpLengthFinishes();
      if run.session.gate.lengthFinishes >= LENGTH_FINISH_HARD_CAP {
        finalText := run.progress.published.text;
        var ending := Ending(C.MaxIters, finalText, None, None, Some("reached max_tokens continuation cap (5)"));
        var o := Deliver(ending, C.Failed, run.session.plan);
        return Done(o);
      }
      var notice := if run.session.gate.lengthFinishes >= LENGTH_FINISH_TRIM_AT then "continue, much shorter"
          else "continue";
      Keep();
      Note(notice);
      flow := Continue;
    }

    method BumpLengthFinishes()
      modifies run.session`gate
      ensures old(Reviewed()) ==> Reviewed()
      ensures run.session.gate == old(run.session.gate).(lengthFinishes := old(run.session.gate.lengthFinishes) + 1)
    {
      run.session.gate := run.session.gate.(lengthFinishes := run.session.gate.lengthFinishes + 1);
    }

    // ------------------------------------------------------------------------ tool turns

    /** In a plan-mode run that began without a plan, any plan so far is an unapproved draft. */
    ghost predicate DraftPlanOnly()
      reads ctx`plan
    {
      planMode && initialPlan.None? ==> ctx.plan.None? || !ctx.plan.value.approved
    }

    /** Publish the complete batch of calls. */
    method PublishCalls(calls: seq<D.ToolCall>) returns (ok: bool)
      requires Base() && run.Drafting()
      modifies run.progress`published, run.channel
      ensures Body() && run.Drafting() && (ok ==> Base())
      ensures ok ==> run.progress.published == old(run.progress.published).(toolCalls := Some(calls))
    {
      hide C.Records, C.LedgerOf, C.Turns, C.WellPaired, CheckpointWorker.Valid;
      ok := run.channel.Send(C.ToolCalls(calls));
      if ok {
        run.progress.published := run.progress.published.(toolCalls := Some(calls));
      }
    }

    /** Whether the whole batch is refused before anything is executed. */
    predicate Denied(calls: seq<D.ToolCall>, stepUpdatesAllowed: bool) {
      || (planMode && !OnlyPlanTools(calls))
      || (!planMode && exists call <- calls :: !IsToolAvailable(call.name, planMode, stepUpdatesAllowed))
      || !RoutesAlone(calls, exclusive)
    }

    /** Results of the batch: refusals, or what the router returned; none if the receiver went away meanwhile. */
    method ObtainResults(calls: seq<D.ToolCall>, stepUpdatesAllowed: bool, reply: nat -> ToolReply)
      returns (results: Option<seq<C.ToolResult>>)
      requires Base() && run.Drafting() && PlanOk()
      modifies ctx, run.channel`budget
      ensures Base() && run.Drafting() && DraftPlanOnly()
      ensures results.Some? ==> Replied(results.value, calls)
      ensures Denied(calls, stepUpdatesAllowed) ==>
                && unchanged(ctx) && results.Some? && forall r <- results.value :: r.isError
    {
      hide C.Records, C.LedgerOf, C.Turns, C.WellPaired, CheckpointWorker.Valid;
      if Denied(calls, stepUpdatesAllowed) {
        return Some(Rejected(calls));
      }
      var closed := run.channel.IsClosed();
      if closed {
        return None;
      }
      results := ctx.ExecuteToolCalls(calls, reply, run.channel);
      closed := run.channel.IsClosed();
      if closed {
        results := None;
      }
    }

    /** A plan and a question from one batch: the plan wins and the question is withdrawn. */
    method SupersedeAsk(calls: seq<D.ToolCall>, results: seq<C.ToolResult>) returns (out: seq<C.ToolResult>)
      requires Replied(results, calls)
      modifies ctx`pendingAsk
      ensures Replied(out, calls)
      ensures forall i | 0 <= i < |calls| :: out[i].isError == results[i].isError
      ensures forall i | 0 <= i < |calls| ::
                || out[i] == results[i]
                || (!results[i].isError
                    && exists call <- calls :: call.id == results[i].callId && call.name == "ask_user")
      ensures (planMode && Did("generate_plan", calls, results) && Did("ask_user", calls, results)
               && ctx.plan.Some? && !ctx.plan.value.approved) ==> ctx.pendingAsk.None?
    {
      hide Did;
      out := results;
      if planMode && Did("generate_plan", calls, results) && Did("ask_user", calls, results) {
        if ctx.plan.Some? && !ctx.plan.value.approved && ctx.pendingAsk.Some? {
          ctx.pendingAsk := None;
          out := seq(|results|, i requires 0 <= i < |results| =>
            if (exists call <- calls :: call.id == results[i].callId && call.name == "ask_user") && !results[i].isError
            then results[i].(content := "[ask superseded] The generated plan is authoritative")
            else results[i]);
        }
      }
    }

    function ReplyMessages(calls: seq<D.ToolCall>, results: seq<C.ToolResult>): seq<C.Message> {
      seq(|results|, i requires 0 <= i < |results| =>
        C.ToolMessage(results[i].callId, results[i].content, NameOf(calls, results[i].callId), results[i].isError))
    }

    /** Commit the assistant message with its calls and, right behind it, one result per call. */
    method CommitBatch(calls: seq<D.ToolCall>, results: seq<C.ToolResult>) returns (text: string)
      requires Body() && run.Drafting() && Replied(results, calls)
      requires calls != [] && run.progress.published.toolCalls == Some(calls)
      modifies run.session`messages, run.progress`published
      ensures Body() && run.Settled() && text == old(run.progress.published.text) && run.progress.published == C.NOTHING
      ensures old(Base()) ==> Base()
      ensures run.session.messages == old(run.session.messages)
              + [C.IntoMessage(old(run.progress.published), run.progress.iterationUsage).value]
                  + ReplyMessages(calls, results)
      ensures old(Reviewed()) ==> Reviewed()
    {
      hide C.Records, C.LedgerOf, NoTerminal, C.WellPaired, CheckpointWorker.Valid, EventChannel.Valid, NameOf;
      text := run.progress.published.text;
      ghost var turn, was := run.progress.published, run.session.messages;
      C.MessageShowsTurn(turn, run.progress.iterationUsage);
      var message := run.progress.TakePublishedMessage();
      run.session.messages := run.session.messages + [message.value];
      for i := 0 to |results|
        invariant run.session.messages == was + [message.value] + ReplyMessages(calls, results)[..i]
        invariant run.progress.published == C.NOTHING
      {
        var reply :=
            C.ToolMessage(results[i].callId, results[i].content, NameOf(calls, results[i].callId), results[i].isError);
        assert ReplyMessages(calls, results)[..i + 1] == ReplyMessages(calls, results)[..i] + [reply];
        run.session.messages := run.session.messages + [reply];
      }
      ghost var replies := ReplyMessages(calls, results);
      assert replies[..|results|] == replies;
      assert C.CallsOf(message.value) == calls;
      C.RecordsTurn(was, |run.base|, run.channel.ledger.done, run.channel.ledger.retracted, message.value, replies);
    }

    /** Store everything up to this delivered batch, with the plan and question it left behind. */
    method CheckpointBatch(calls: seq<D.ToolCall>, results: seq<C.ToolResult>,
        fault: bool) returns (planChanged: bool, error: Option<string>)
      requires Base() && run.Settled() && !worker.stopped && historyCursor == worker.expectedCount
      modifies this`historyCursor, run.session`plan, worker`expectedCount, worker`stopped, worker`durable,
        worker.db, worker.active`persistedCount
      ensures Base() && run.Settled()
      ensures planChanged <==> Did("generate_plan", calls, results) || Did("update_step_status", calls, results)
      ensures run.session.plan == if planChanged then ctx.plan else old(run.session.plan)
      ensures error.None? ==>
                && !worker.stopped && historyCursor == worker.expectedCount == |run.session.messages|
                && worker.db.Transcript() == run.session.messages
      ensures error.Some? ==> worker.db.Transcript() == old(worker.db.Transcript())
      ensures worker.newRun && !fault ==> error.None?
    {
      hide C.Records, C.LedgerOf, NoTerminal, C.WellPaired, EventChannel.Valid, CheckpointWorker.OwnsItsRows, Did,
        AllPaired;
      planChanged := Did("generate_plan", calls, results) || Did("update_step_status", calls, results);
      if planChanged {
        run.session.plan := ctx.plan;
      }
      var status := if planMode && run.session.plan.Some? && !run.session.plan.value.approved
                    then C.AwaitingPlanApproval
                    else if ctx.pendingAsk.Some? then C.AwaitingUserResponse else C.Processing;
      var messages := run.session.messages[historyCursor..];
      assert worker.db.Transcript() + messages == run.session.messages;
      PairedHistory();
      var stored :=
          worker.Checkpoint(messages, CaptureFrame(run.session.frame).(status := status), run.session.plan, fault);
      if stored.Err? {
        return planChanged, Some(stored.error);
      }
      historyCursor := |run.session.messages|;
      error := None;
    }

    lemma PairedHistory()
      requires run.Settled()
      ensures C.WellPaired(run.session.messages)
    {
    }

    /** One more planning turn without a plan; a message means that it was the last one allowed. */
    method RecordPlanDenial() returns (message: Option<string>)
      modifies run.session`gate
      ensures old(Reviewed()) ==> Reviewed()
      ensures run.session.gate == old(run.session.gate).(planDenials := old(run.session.gate.planDenials) + 1)
      ensures message.Some? <==> run.session.gate.planDenials > PLAN_DENIAL_CAP || run.progress.iterations >= limit
    {
      run.session.gate := run.session.gate.(planDenials := run.session.gate.planDenials + 1);
      message := if run.session.gate.planDenials > PLAN_DENIAL_CAP
                 then Some("plan mode requires a plan (denial cap exceeded)")
                 else if run.progress.iterations >= limit
                 then Some("plan mode requires a plan before the iteration budget is exhausted")
                 else None;
    }

    function ErrorCount(results: seq<C.ToolResult>): nat {
      if results == [] then 0 else ErrorCount(results[1..]) + if results[0].isError then 1 else 0
    }

    /** Repeated tool failures earn a recovery notice. */
    method CountErrors(results: seq<C.ToolResult>)
      requires Body() && run.Settled()
      modifies this`toolErrors, run.session`messages
      ensures Body() && run.Settled() && (old(Base()) ==> Base()) && (old(Reviewed()) ==> Reviewed())
      ensures toolErrors == if old(toolErrors) + ErrorCount(results) <= U32_MAX || ErrorCount(results) == 0
                            then old(toolErrors) + ErrorCount(results) else U32_MAX
      ensures run.session.messages == old(run.session.messages)
              + if ErrorCount(results) > 0 && toolErrors >= 2 then [C.Notice(RECOVERY_NOTICE)] else []
    {
      hide C.Records, C.LedgerOf, C.Turns, NoTerminal, C.WellPaired, CheckpointWorker.Valid, EventChannel.Valid;
      var errors := ErrorCount(results);
      assert run.session.messages + [] == run.session.messages;
      if errors > 0 {
        toolErrors := if toolErrors + errors <= U32_MAX then toolErrors + errors else U32_MAX;
        if toolErrors >= 2 {
          Note(RECOVERY_NOTICE);
        }
      }
    }

    /** A generated plan waits for its approval. */
    method AwaitApproval(plan: C.PlanState, alreadyShown: bool) returns (o: Outcome)
      requires Base() && run.Settled()
      modifies ctx`pendingAsk, run.session`messages, run.progress`published, run.session.frame`status, run.channel
      ensures Final(o) && (o.kind.Cancelled? || (o.kind.Awaiting? && o.awaiting == Some("plan_approval")))
    {
      hide C.Records, C.LedgerOf, C.Turns, NoTerminal, C.WellPaired, CheckpointWorker.Valid, EventChannel.Valid,
        EndsWith;
      ctx.pendingAsk := None;
      if !alreadyShown {
        var shown := Say(C.PlanUpdate(plan));
        if !shown {
          o := Abort();
          return;
        }
      }
      var ending := Ending(C.Awaiting, finalText, Some("plan_approval"), None, None);
      o := Deliver(ending, C.AwaitingPlanApproval, Some(plan));
    }

    /** What follows a delivered, committed and stored batch. */
    method AfterBatch(calls: seq<D.ToolCall>, results: seq<C.ToolResult>, planChanged: bool,
        text: string) returns (flow: Flow)
      requires Base() && run.Settled() && Reviewed() && DraftPlanOnly() && run.progress.published.toolCalls.None?
      requires !worker.stopped && historyCursor == worker.expectedCount
      modifies this`finalText, this`toolErrors, ctx`pendingAsk
      modifies run.session`messages, run.session`gate, run.progress`published, run.session.frame`status, run.channel
      ensures flow.Continue? ==> Inv() && run.Settled()
      ensures flow.Done? ==> Final(flow.outcome) && !flow.outcome.kind.Natural? && !flow.outcome.kind.MaxIters?
      ensures planMode && old(ctx.plan).Some? && !old(ctx.plan).value.approved ==>
                flow.Done? && (flow.outcome.kind.Cancelled? || flow.outcome.awaiting == Some("plan_approval"))
    {
      hide TurnLoop.Body, TurnLoop.Saved, TurnLoop.Reviewed, TurnLoop.RepairTracked, TurnLoop.RoutedOk, TurnLoop.Final,
        AgentRun.Drafting, AgentRun.Settled, C.WellPaired, CheckpointWorker.Valid, EventChannel.Valid;
      CountErrors(results);
      var shown := planChanged && run.session.plan.Some?;
      if shown {
        var ok := Say(C.PlanUpdate(run.session.plan.value));
        if !ok {
          var o := Abort();
          return Done(o);
        }
      }
      if text != "" {
        finalText := text;
      }
      if planMode && ctx.plan.Some? && !ctx.plan.value.approved {
        var o := AwaitApproval(ctx.plan.value, shown);
        return Done(o);
      }
      flow := AskOrGoOn(calls);
    }

    /** Wait for the user if a question is open; otherwise go on, unless a plan is overdue. */
    method AskOrGoOn(calls: seq<D.ToolCall>) returns (flow: Flow)
      requires Base() && run.Settled() && Reviewed() && PlanOk() && run.progress.published.toolCalls.None?
      requires !worker.stopped && historyCursor == worker.expectedCount
      modifies ctx`pendingAsk
      modifies run.session`messages, run.session`gate, run.progress`published, run.session.frame`status, run.channel
      ensures flow.Continue? ==> Inv() && run.Settled() && ctx.pendingAsk.None?
      ensures flow.Done? ==> Final(flow.outcome) && !flow.outcome.kind.Natural? && !flow.outcome.kind.MaxIters?
      ensures old(ctx.pendingAsk).Some? ==> flow.Done?
    {
      hide TurnLoop.Body, TurnLoop.Saved, TurnLoop.Reviewed, TurnLoop.RepairTracked, TurnLoop.RoutedOk, TurnLoop.Final,
        AgentRun.Drafting, AgentRun.Settled, TurnLoop.PlanOk, C.WellPaired, CheckpointWorker.Valid, EventChannel.Valid;
      if ctx.pendingAsk.Some? {
        var ask := ctx.pendingAsk;
        ctx.pendingAsk := None;
        var ending := Ending(C.Awaiting, finalText, Some("user_response"), ask, None);
        var o := Deliver(ending, C.AwaitingUserResponse, run.session.plan);
        return Done(o);
      }
      if planMode && ctx.plan.None? {
        var denied := RecordPlanDenial();
        if denied.Some? {
          var o := FailWith(denied.value);
          return Done(o);
        }
        Note("plan mode needs a plan: call generate_plan");
        return Continue;
      }
      BreakRetrieval(calls);
      flow := Continue;
    }

    /** Six retrieval-only turns in a row earn a notice to start writing. */
    method BreakRetrieval(calls: seq<D.ToolCall>)
      requires Body() && run.Settled()
      modifies run.session`messages, run.session`gate
      ensures Body() && run.Settled() && (old(Base()) ==> Base()) && (old(Reviewed()) ==> Reviewed())
      ensures run.session.gate == old(run.session.gate).(retrievalStreak :=
                var streak := if forall call <- calls :: IsRetrievalTool(call.name)
                              then old(run.session.gate.retrievalStreak) + 1 else 0;
                if streak >= RETRIEVAL_CIRCUIT_BREAKER then 0 else streak)
      ensures run.session.messages == old(run.session.messages)
              + if (forall call <- calls :: IsRetrievalTool(call.name))
                  && old(run.session.gate.retrievalStreak) + 1 >= RETRIEVAL_CIRCUIT_BREAKER
                then [C.Notice(STOP_SEARCHING)] else []
    {
      hide C.Records, C.LedgerOf, C.Turns, NoTerminal, C.WellPaired, CheckpointWorker.Valid, EventChannel.Valid,
        IsRetrievalTool;
      var gate := run.session.gate;
      var streak := if forall call <- calls :: IsRetrievalTool(call.name) then gate.retrievalStreak + 1 else 0;
      run.session.gate := gate.(retrievalStreak := streak);
      assert run.session.messages + [] == run.session.messages;
      if streak >= RETRIEVAL_CIRCUIT_BREAKER {
        Note(STOP_SEARCHING);
        run.session.gate := gate.(retrievalStreak := 0);
      }
    }

    /** One turn with tool calls: publish, execute or refuse, deliver, commit, store, continue. */
    method ToolTurn(calls: seq<D.ToolCall>, stepUpdatesAllowed: bool, around: Surroundings) returns (flow: Flow)
      requires Inv() && run.Drafting() && run.progress.published.toolCalls.None? && calls != []
      modifies this`finalText, this`toolErrors, this`historyCursor, ctx
      modifies run.session`messages, run.session`gate, run.session`plan, run.progress`published,
        run.session.frame`status, run.channel
      modifies worker`expectedCount, worker`stopped, worker`durable, worker.db, worker.active`persistedCount
      ensures flow.Continue? ==> Inv() && run.Settled() && old(run.session.messages) < worker.db.Transcript()
      ensures flow.Done? ==> Final(flow.outcome) && !flow.outcome.kind.Natural? && !flow.outcome.kind.MaxIters?
    {
      hide TurnLoop.Body, TurnLoop.Saved, TurnLoop.Reviewed, TurnLoop.RepairTracked, TurnLoop.RoutedOk, TurnLoop.Final,
        AgentRun.Drafting, AgentRun.Settled, OnlyPlanTools, Replied, Did, TurnLoop.Denied, TurnLoop.ReplyMessages,
        TurnLoop.PlanOk, TurnLoop.DraftPlanOnly;
      var ok := PublishCalls(calls);
      if !ok {
        var o := Abort();
        return Done(o);
      }
      var obtained := ObtainResults(calls, stepUpdatesAllowed, around.reply);
      if obtained.None? {
        var o := Abort();
        return Done(o);
      }
      var results := SupersedeAsk(calls, obtained.value);
      ok := Say(C.ToolResults(results));
      if !ok {
        var o := Abort();
        return Done(o);
      }
      var text := CommitBatch(calls, results);
      var planChanged, error := CheckpointBatch(calls, results, around.checkpointFault);
      if error.Some? {
        var o := FailWith("saving the tool trace failed: " + error.value);
        return Done(o);
      }
      flow := AfterBatch(calls, results, planChanged, text);
    }

    // -------------------------------------------------------------------- turns without calls

    /** Commit the draft without ending the run. */
    method Keep()
      requires Base() && (run.Drafting() || run.Settled()) && run.progress.published.toolCalls.None?
      modifies run.session`messages, run.progress`published
      ensures Base() && run.Settled() && (old(Reviewed()) ==> Reviewed())
      ensures old(run.session.messages) <= run.session.messages
    {
      hide C.Records, C.LedgerOf, C.Turns, NoTerminal, C.WellPaired, CheckpointWorker.Valid, EventChannel.Valid;
      run.CommitPublished();
    }

    /** A blank answer is kept as evidence and retried a bounded number of times. */
    method EmptyGate(last: bool) returns (flow: Flow)
      requires Inv() && run.Drafting() && run.progress.published.toolCalls.None?
      modifies run.session`messages, run.session`gate, run.progress`published, run.session.frame`status, run.channel
      ensures flow.Continue? ==> Inv() && run.Settled() && !last && run.session.gate.emptyRetries <= EMPTY_RETRY_CAP
      ensures flow.Done? ==> Final(flow.outcome) && (flow.outcome.kind.Cancelled? || flow.outcome.kind.ErrorKind?)
      ensures flow.Done? ==>
                flow.outcome.kind.Cancelled? || last || old(run.session.gate.emptyRetries) >= EMPTY_RETRY_CAP
                             || (planMode && ctx.plan.None?)
    {
      hide TurnLoop.Body, TurnLoop.Saved, TurnLoop.Reviewed, TurnLoop.RepairTracked, TurnLoop.RoutedOk, TurnLoop.Final,
        AgentRun.Drafting, AgentRun.Settled, TurnLoop.PlanOk, C.WellPaired, CheckpointWorker.Valid, EventChannel.Valid;
      BumpEmptyRetries();
      var missingPlan := planMode && ctx.plan.None?;
      if missingPlan {
        var denied := RecordPlanDenial();
        if denied.Some? {
          var o := FailWith(denied.value);
          return Done(o);
        }
      }
      if run.session.gate.emptyRetries > EMPTY_RETRY_CAP {
        var o := FailWith("empty response retry cap exceeded (3)");
        return Done(o);
      }
      if last {
        var o := FailWith("iteration budget exhausted: final iteration returned no answer");
        return Done(o);
      }
      Keep();
      Note(if missingPlan then "plan mode needs a plan: call generate_plan" else "the last reply was empty");
      flow := Continue;
    }

    method BumpEmptyRetries()
      modifies run.session`gate
      ensures old(Reviewed()) ==> Reviewed()
      ensures run.session.gate == old(run.session.gate).(emptyRetries := old(run.session.gate.emptyRetries) + 1)
    {
      run.session.gate := run.session.gate.(emptyRetries := run.session.gate.emptyRetries + 1);
    }

    /** Plan mode does not end without a plan. */
    method PlanGate() returns (shut: Option<Flow>)
      requires Inv() && run.Drafting() && run.progress.published.toolCalls.None?
      modifies run.session`messages, run.session`gate, run.progress`published, run.session.frame`status, run.channel
      ensures shut.None? <==> !(planMode && ctx.plan.None?)
      ensures shut.None? ==>
                && Inv() && run.Drafting() && run.session.messages == old(run.session.messages)
                && run.progress.published == old(run.progress.published)
      ensures shut.Some? && shut.value.Continue? ==> Inv() && run.Settled()
      ensures shut.Some? && shut.value.Done? ==>
                && Final(shut.value.outcome)
                     && (shut.value.outcome.kind.Cancelled? || shut.value.outcome.kind.ErrorKind?)
    {
      hide TurnLoop.Body, TurnLoop.Saved, TurnLoop.Reviewed, TurnLoop.RepairTracked, TurnLoop.RoutedOk, TurnLoop.Final,
        AgentRun.Drafting, AgentRun.Settled, TurnLoop.PlanOk, C.WellPaired, CheckpointWorker.Valid, EventChannel.Valid;
      if !(planMode && ctx.plan.None?) {
        return None;
      }
      var denied := RecordPlanDenial();
      if denied.Some? {
        var o := FailWith(denied.value);
        return Some(Done(o));
      }
      Keep();
      Note("plan mode needs a plan: call generate_plan");
      shut := Some(Continue);
    }

    /** A run that executes an approved plan does not end before every step is done. */
    method CompletionGate(last: bool) returns (shut: Option<Flow>)
      requires Inv() && run.Drafting() && run.progress.published.toolCalls.None?
      modifies this`planRetries, run.session`messages, run.session`plan, run.progress`published,
        run.session.frame`status, run.channel
      ensures shut.None? ==>
                && (Enforced() ==> ApprovedPlanIsComplete(ctx.plan))
                && Inv() && run.Drafting() && run.session.messages == old(run.session.messages)
                && run.progress.published == old(run.progress.published)
      ensures shut.Some? && shut.value.Continue? ==> Inv() && run.Settled() && planRetries <= PLAN_COMPLETION_RETRY_CAP
      ensures shut.Some? && shut.value.Done? ==> Final(shut.value.outcome) && !shut.value.outcome.kind.Natural?
      ensures shut.Some? ==> Enforced()
    {
      hide TurnLoop.Body, TurnLoop.Saved, TurnLoop.Reviewed, TurnLoop.RepairTracked, TurnLoop.RoutedOk, TurnLoop.Final,
        AgentRun.Drafting, AgentRun.Settled, TurnLoop.PlanOk, C.WellPaired, CheckpointWorker.Valid,
        ApprovedPlanIsComplete;
      if !Enforced() {
        return None;
      }
      var closed := Closed();
      if closed {
        var o := Abort();
        return Some(Done(o));
      }
      if ApprovedPlanIsComplete(ctx.plan) {
        return None;
      }
      var flow := RetryPlan(last);
      shut := Some(flow);
    }

    /** Some step of the executed plan is not done: ask again three times, then pause. */
    method RetryPlan(last: bool) returns (flow: Flow)
      requires Inv() && run.Drafting() && run.progress.published.toolCalls.None?
      modifies this`planRetries, run.session`messages, run.session`plan, run.progress`published,
        run.session.frame`status, run.channel
      ensures flow.Continue? ==> Inv() && run.Settled() && planRetries <= PLAN_COMPLETION_RETRY_CAP
      ensures flow.Done? ==> Final(flow.outcome) && !flow.outcome.kind.Natural?
    {
      hide TurnLoop.Body, TurnLoop.Saved, TurnLoop.Reviewed, TurnLoop.RepairTracked, TurnLoop.RoutedOk, TurnLoop.Final,
        AgentRun.Drafting, AgentRun.Settled, TurnLoop.PlanOk, C.WellPaired, CheckpointWorker.Valid, EventChannel.Valid,
        TurnLoop.NaturalOk, ApprovedPlanIsComplete;
      planRetries := planRetries + 1;
      var ended := RejectIncomplete(last);
      if ended.Some? {
        return Done(ended.value);
      }
      if planRetries <= PLAN_COMPLETION_RETRY_CAP {
        Note("the approved plan is not complete: go on with its unfinished steps");
        return Continue;
      }
      var o := AwaitExecution(if ctx.plan.Some? && ctx.plan.value.approved then ctx.plan else initialPlan);
      flow := Done(o);
    }

    /** Take the premature answer back, unless this was the last iteration. */
    method RejectIncomplete(last: bool) returns (ended: Option<Outcome>)
      requires Base() && run.Drafting() && run.progress.published.toolCalls.None? && Reviewed()
      modifies run.session`messages, run.progress`published, run.session.frame`status, run.channel
      ensures ended.None? ==> Base() && run.Settled() && run.progress.published == C.NOTHING && Reviewed()
      ensures ended.Some? ==> Final(ended.value) && !ended.value.kind.Natural?
    {
      hide TurnLoop.Body, TurnLoop.Saved, TurnLoop.Reviewed, TurnLoop.RepairTracked, TurnLoop.RoutedOk, TurnLoop.Final,
        AgentRun.Drafting, AgentRun.Settled, C.WellPaired, CheckpointWorker.Valid;
      if last {
        var o := FailWith("iteration budget exhausted with approved plan still incomplete");
        return Some(o);
      }
      var ok := TakeBack("plan_incomplete");
      if !ok {
        var o := Abort();
        return Some(o);
      }
      ended := None;
    }

    method Closed() returns (closed: bool)
      requires Base()
      modifies run.channel`budget
      ensures Base()
    {
      hide CheckpointWorker.Valid, C.WellPaired, NoTerminal;
      closed := run.channel.IsClosed();
    }

    /** Give the approved, unfinished plan back to the user for a retry. */
    method AwaitExecution(plan: Option<C.PlanState>) returns (o: Outcome)
      requires Base() && run.Settled() && run.progress.published.toolCalls.None?
      modifies run.session`messages, run.session`plan, run.progress`published, run.session.frame`status, run.channel
      ensures Final(o) && (o.kind.Cancelled?
                || (o.kind.Awaiting? && o.awaiting == Some("plan_execution") && run.session.plan == plan))
    {
      hide C.Records, C.LedgerOf, C.Turns, NoTerminal, C.WellPaired, CheckpointWorker.Valid, EventChannel.Valid,
        EndsWith, TurnLoop.NaturalOk, AgentRun.Drafting, AgentRun.Settled, TurnLoop.Body;
      Note("plan completion failed repeatedly: paused until the user retries");
      if plan.Some? {
        var ok := Say(C.PlanUpdate(plan.value));
        if !ok {
          o := Abort();
          return;
        }
      }
      var ending := Ending(C.Awaiting, "", Some("plan_execution"), None, None);
      o := Deliver(ending, C.AwaitingPlanExecution, plan);
      if !o.kind.Cancelled? {
        run.session.plan := plan;
      }
    }

    lemma TraceStartsInside()
      requires Reviewed() && artifactTraceStart.Some?
      ensures artifactTraceStart.value <= |run.session.messages|
    {
    }

    /** A demanded artifact repair must have happened and been checked in a later turn. */
    method ArtifactGate(last: bool) returns (shut: Option<Flow>)
      requires Inv() && run.Drafting() && run.progress.published.toolCalls.None?
      modifies this`artifactReminders, run.session`messages, run.progress`published, run.session.frame`status,
        run.channel
      ensures shut.None? ==>
                && Inv() && run.Drafting() && run.session.messages == old(run.session.messages)
                && run.progress.published == old(run.progress.published)
                && (artifactTraceStart.Some? ==>
                      artifactTraceStart.value <= |run.session.messages|
                      && A.Progress(run.session.messages[artifactTraceStart.value..]) == A.Repaired)
      ensures shut.Some? && shut.value.Continue? ==>
                Inv() && run.Settled() && artifactReminders <= ARTIFACT_REPAIR_REMINDER_CAP
      ensures shut.Some? && shut.value.Done? ==>
                && Final(shut.value.outcome)
                     && (shut.value.outcome.kind.Cancelled? || shut.value.outcome.kind.ErrorKind?)
    {
      hide TurnLoop.Body, TurnLoop.Saved, TurnLoop.RoutedOk, TurnLoop.Reviewed, TurnLoop.RepairTracked, TurnLoop.Final,
        AgentRun.Drafting, AgentRun.Settled, TurnLoop.PlanOk, C.WellPaired, CheckpointWorker.Valid, EventChannel.Valid,
        A.Progress;
      if artifactTraceStart.None? {
        return None;
      }
      TraceStartsInside();
      var progress := A.ArtifactRepairProgress(run.session.messages[artifactTraceStart.value..]);
      if progress == A.Repaired {
        return None;
      }
      if !last && artifactReminders < ARTIFACT_REPAIR_REMINDER_CAP {
        artifactReminders := artifactReminders + 1;
        var ok := TakeBack("reviewer_artifact_repair_required");
        if !ok {
          var o := Abort();
          return Some(Done(o));
        }
        Note("repair the artifact and check it in a later turn");
        return Some(Continue);
      }
      var o := FailWith(if last then "iteration budget exhausted before the artifact repair completed"
                        else "artifact repair was not completed after the reminder");
      shut := Some(Done(o));
    }

    /** Ask the reviewer; one veto sends the draft back, a second one or silence after a veto fails the run. */
    method Review(around: Surroundings, last: bool) returns (shut: Option<Flow>)
      requires Inv() && run.Drafting() && run.progress.published.toolCalls.None?
      requires Unreviewed() && around == world(run.progress.iterations - 1) && T.Trim(run.progress.published.text) != ""
      modifies this`reviews, this`vetoHistory, this`artifactTraceStart, this`artifactReminders
      modifies run.session`messages, run.session`gate, run.progress`published, run.session.frame`status, run.channel
      ensures reviews == old(reviews) + [ReviewRecord(
                run.progress.iterations - 1, |old(run.session.messages)|, old(run.progress.published).text,
                    around.verdict)]
      ensures shut.None? ==>
                && Passed(reviews) && |reviews| == run.session.gate.vetoes + 1
                && RepairTracked() && artifactTraceStart == old(artifactTraceStart)
                && Base() && run.Drafting() && run.session.messages == old(run.session.messages)
                && run.progress.published == old(run.progress.published)
      ensures shut.Some? && shut.value.Continue? ==>
                && Inv() && run.Settled() && IsVeto(around.verdict) && old(reviews) == []
                && SentBack(run.session.messages, reviews[0])
                && (around.verdict.value.requiresToolAction ==>
                      artifactTraceStart == Some(|old(run.session.messages)| + 1))
      ensures shut.Some? && shut.value.Done? ==>
                Final(shut.value.outcome) && (shut.value.outcome.kind.Cancelled? || shut.value.outcome.kind.ErrorKind?)
    {
      hide TurnLoop.Body, TurnLoop.RepairTracked, TurnLoop.Final, TurnLoop.PlanOk, TurnLoop.Unreviewed,
        TurnLoop.AllSentBack, TurnLoop.Reviewed, Passed, SentBack, RepairDemanded, T.Trim, AgentRun.Drafting,
        AgentRun.Settled, CheckpointWorker.Valid, EventChannel.Valid;
      var verdict := around.verdict;
      NoteReview(verdict);
      var closed := Closed();
      if closed {
        var o := Abort();
        return Some(Done(o));
      }
      if IsVeto(verdict) {
        var flow := OnVeto(verdict.value, last);
        return Some(flow);
      }
      if verdict.None? && run.session.gate.vetoes > 0 {
        var o := FailWith("reviewer verification was unavailable after a prior veto");
        return Some(Done(o));
      }
      shut := None;
    }

    /** The review of the current draft is one more genuine review. */
    ghost method NoteReview(verdict: Option<Verdict>)
      requires Base() && Reviewed() && Unreviewed() && verdict == world(run.progress.iterations - 1).verdict
      requires T.Trim(run.progress.published.text) != ""
      modifies this`reviews
      ensures reviews == old(reviews) + [ReviewRecord(
                run.progress.iterations - 1, |run.session.messages|, run.progress.published.text, verdict)]
      ensures Base() && |reviews| == run.session.gate.vetoes + 1 && run.progress.iterations > 0
      ensures artifactTraceStart.Some? ==> run.session.gate.vetoes > 0
      ensures !IsVeto(verdict) ==>
                RepairTracked() && (run.session.gate.vetoes == 0 || verdict.Some? ==> Passed(reviews))
    {
      hide TurnLoop.Saved, TurnLoop.RoutedOk, NoTerminal, C.WellPaired, EventChannel.Valid, SentBack, T.Trim;
      ghost var was := reviews;
      assert forall r <- was :: SentBack(run.session.messages, r) ==> r.history < |run.session.messages| by {
        SentBackBelow(was, run.session.messages);
      }
      reviews := reviews + [ReviewRecord(
        run.progress.iterations - 1, |run.session.messages|, run.progress.published.text, verdict)];
      assert forall k | 0 <= k < |was| :: reviews[k] == was[k] && was[k] in was;
    }

    lemma SentBackBelow(records: seq<ReviewRecord>, history: seq<C.Message>)
      ensures forall r <- records :: SentBack(history, r) ==> r.history < |history|
    {
    }

    method OnVeto(verdict: Verdict, last: bool) returns (flow: Flow)
      requires Base() && run.Drafting() && run.progress.published.toolCalls.None? && PlanOk()
      requires !worker.stopped && historyCursor == worker.expectedCount
      requires !verdict.pass && |reviews| == run.session.gate.vetoes + 1 && run.progress.iterations > 0
      requires reviews[|reviews| - 1] == ReviewRecord(
                 run.progress.iterations - 1, |run.session.messages|, run.progress.published.text, Some(verdict))
      requires T.Trim(run.progress.published.text) != "" && (artifactTraceStart.Some? ==> run.session.gate.vetoes > 0)
      modifies this`vetoHistory, this`artifactTraceStart, this`artifactReminders
      modifies run.session`messages, run.session`gate, run.progress`published, run.session.frame`status, run.channel
      ensures flow.Continue? ==>
                && Inv() && run.Settled() && |reviews| == 1 && SentBack(run.session.messages, reviews[0])
                && (verdict.requiresToolAction ==> artifactTraceStart == Some(|old(run.session.messages)| + 1))
      ensures flow.Done? ==>
                Final(flow.outcome) && (flow.outcome.kind.Cancelled? || flow.outcome.kind.ErrorKind?)
    {
      hide TurnLoop.Body, TurnLoop.Reviewed, TurnLoop.RepairTracked, TurnLoop.Final, TurnLoop.PlanOk, T.Trim, SentBack,
        AgentRun.Drafting, AgentRun.Settled, CheckpointWorker.Valid, EventChannel.Valid, C.IntoMessage;
      if run.session.gate.vetoes >= VETO_CAP {
        var o := FailWith("reviewer verification still failed after 1 corrective attempt");
        return Done(o);
      }
      run.session.gate := run.session.gate.(vetoes := run.session.gate.vetoes + 1);
      if last {
        var o := FailWith("iteration budget exhausted before reviewer findings could be corrected");
        return Done(o);
      }
      HiddenDraftShows(run.session.messages, reviews[0]);
      var ok := TakeBack("reviewer_veto");
      if !ok {
        var o := Abort();
        return Done(o);
      }
      RecordVeto(verdict);
      flow := Continue;
    }

    /** What hiding the reviewed draft appends is that draft. */
    lemma HiddenDraftShows(history: seq<C.Message>, r: ReviewRecord)
      requires r.history == |history| && r.text == run.progress.published.text && T.Trim(r.text) != ""
      ensures var draft := C.IntoMessage(run.progress.published, run.progress.iterationUsage);
              draft.Some? && SentBack(history + [draft.value.(notice := true)], r)
    {
      assert T.Trim("") == "";
      C.MessageShowsTurn(run.progress.published, run.progress.iterationUsage);
    }

    /** Remember where a demanded repair has to start. */
    method RecordVeto(verdict: Verdict)
      requires Base() && run.Settled() && !verdict.pass && run.session.gate.vetoes == |reviews| == 1
      requires reviews[0].verdict == Some(verdict) && reviews[0].history + 1 == |run.session.messages|
      requires SentBack(run.session.messages, reviews[0]) && artifactTraceStart.None?
      modifies this`vetoHistory, this`artifactTraceStart, this`artifactReminders, run.session`messages
      ensures Base() && run.Settled() && Reviewed() && SentBack(run.session.messages, reviews[0])
      ensures verdict.requiresToolAction ==> artifactTraceStart == Some(|old(run.session.messages)|)
    {
      hide TurnLoop.Body, TurnLoop.Saved, TurnLoop.RoutedOk, AgentRun.Drafting, AgentRun.Settled, C.WellPaired;
      PairedHistory();
      if verdict.requiresToolAction {
        artifactTraceStart, artifactReminders, vetoHistory := Some(|run.session.messages|), 0, run.session.messages;
      }
      Note("the reviewer found problems: correct them");
    }

    /** The last review was held over the current draft. */
    ghost predicate ReviewsThisDraft()
      reads this`reviews, run.session`messages, run.progress`iterations, run.progress`published
    {
      && reviews != []
      && var last := reviews[|reviews| - 1];
         && last.iteration + 1 == run.progress.iterations
         && last.history == |run.session.messages| && last.text == run.progress.published.text
    }

    /** Deliver the natural ending; the draft becomes history only with it. */
    method CompleteNaturally() returns (o: Outcome)
      requires Base() && run.Drafting() && run.progress.published.toolCalls.None?
      requires finalText == run.progress.published.text && T.Trim(finalText) != ""
      requires !(planMode && initialPlan.None?) && (Enforced() ==> ApprovedPlanIsComplete(ctx.plan))
      requires Passed(reviews) && |reviews| == run.session.gate.vetoes + 1 && RepairTracked()
      requires ReviewsThisDraft()
      requires artifactTraceStart.Some? ==> A.Progress(run.session.messages[artifactTraceStart.value..]) == A.Repaired
      modifies run.session`messages, run.session`plan, run.progress`published, run.session.frame`status, run.channel
      ensures Final(o) && (o.kind.Cancelled? || (o.kind.Natural? && o.finalText == finalText))
    {
      hide C.Records, C.LedgerOf, C.Turns, NoTerminal, C.WellPaired, CheckpointWorker.Valid, EventChannel.Valid,
        EndsWith, AgentRun.Drafting, AgentRun.Settled, A.Progress, Passed, RepairDemanded, ApprovedPlanIsComplete,
        TurnLoop.AnswerShown, TurnLoop.RoutedOk, TurnLoop.Told, TurnLoop.AnswerReviewed, TurnLoop.Saved,
        TurnLoop.ReviewsThisDraft, T.Trim;
      DraftWillBeShown();
      var ok := ShowPlan();
      if !ok {
        o := Abort();
        return;
      }
      o := Ending(C.Natural, finalText, None, None, None);
      var delivered := run.Conclude(o, C.Completed, ctx.plan);
      if !delivered {
        o := Abort();
        return;
      }
      CommitFinal();
      run.session.plan := ctx.plan;
      run.session.frame.SetStatus(C.Completed);
    }

    /** Deliver the latest plan before the terminal event. */
    method ShowPlan() returns (ok: bool)
      requires Base() && run.Drafting()
      modifies run.channel
      ensures Body() && run.Drafting() && (ok ==> Base()) && run.channel.ledger == old(run.channel.ledger)
    {
      hide C.Records, C.LedgerOf, C.Turns, NoTerminal, C.WellPaired, CheckpointWorker.Valid, EventChannel.Valid,
        AgentRun.Settled;
      var closed := Closed();
      ok := !closed;
      if ok && ctx.plan.Some? {
        ok := Say(C.PlanUpdate(ctx.plan.value));
      }
    }

    /** A draft with text is the last turn of the ledger. */
    lemma DraftWillBeShown()
      requires run.Drafting() && finalText == run.progress.published.text && T.Trim(finalText) != ""
      ensures AnswerShown(Ending(C.Natural, finalText, None, None, None))
    {
      hide C.Records;
      assert T.Trim("") == "";
    }

    /** The final answer is no tool turn, so it does not change what the repair scan sees. */
    method CommitFinal()
      requires run.Drafting() && run.progress.published.toolCalls.None? && Saved() && RepairTracked() && Told()
      requires ReviewsThisDraft() && T.Trim(run.progress.published.text) != ""
      requires artifactTraceStart.Some? ==> A.Progress(run.session.messages[artifactTraceStart.value..]) == A.Repaired
      modifies run.session`messages, run.progress`published
      ensures run.Settled() && Saved() && RepairTracked() && Told()
      ensures AnswerReviewed(old(run.progress.published.text))
      ensures artifactTraceStart.Some? ==> A.Progress(run.session.messages[artifactTraceStart.value..]) == A.Repaired
    {
      hide AgentRun.Drafting, AgentRun.Settled, A.Progress, C.WellPaired, CheckpointWorker.Valid, RepairDemanded;
      ghost var was, message := run.session.messages,
          C.IntoMessage(run.progress.published, run.progress.iterationUsage);
      assert T.Trim("") == "";
      C.MessageShowsTurn(run.progress.published, run.progress.iterationUsage);
      run.CommitPublished();
      if artifactTraceStart.Some? {
        var from := artifactTraceStart.value;
        assert run.session.messages[from..] == was[from..] + [message.value];
        A.ProgressIgnores(was[from..], message.value);
      }
    }

    /** An answer without calls: empty, rejected by a gate, sent back by the reviewer, or the end of the run. */
    method NaturalTurn(around: Surroundings, last: bool) returns (flow: Flow)
      requires Inv() && run.Drafting() && run.progress.published.toolCalls.None?
      requires Unreviewed() && around == world(run.progress.iterations - 1)
      modifies this`finalText, this`planRetries, this`artifactReminders, this`reviews, this`vetoHistory,
        this`artifactTraceStart
      modifies run.session`messages, run.session`gate, run.session`plan, run.progress`published,
        run.session.frame`status, run.channel
      ensures flow.Continue? ==> Inv() && run.Settled()
      ensures flow.Done? ==> Final(flow.outcome)
      ensures flow.Done? && flow.outcome.kind.Natural? ==>
                reviews == old(reviews) + [ReviewRecord(
                  run.progress.iterations - 1, |old(run.session.messages)|, old(run.progress.published.text),
                      around.verdict)]
    {
      hide TurnLoop.Body, TurnLoop.Saved, TurnLoop.Reviewed, TurnLoop.RepairTracked, TurnLoop.RoutedOk, TurnLoop.Final,
        AgentRun.Drafting, AgentRun.Settled, C.WellPaired, CheckpointWorker.Valid, EventChannel.Valid, A.Progress,
        ApprovedPlanIsComplete, Passed, RepairDemanded, TurnLoop.NaturalOk, T.Trim, TurnLoop.Unreviewed;
      if T.Trim(run.progress.published.text) == "" {
        flow := EmptyGate(last);
        return;
      }
      ResetEmptyRetries();
      var shut := PlanGate();
      if shut.Some? {
        return shut.value;
      }
      shut := CompletionGate(last);
      if shut.Some? {
        return shut.value;
      }
      finalText := run.progress.published.text;
      shut := ArtifactGate(last);
      if shut.Some? {
        return shut.value;
      }
      shut := Review(around, last);
      if shut.Some? {
        return shut.value;
      }
      var o := CompleteNaturally();
      flow := Done(o);
    }

    method ResetEmptyRetries()
      modifies run.session`gate
      ensures old(Reviewed()) ==> Reviewed()
      ensures run.session.gate == old(run.session.gate).(emptyRetries := 0)
    {
      run.session.gate := run.session.gate.(emptyRetries := 0);
    }

    // ----------------------------------------------------------------------------- iterations

    /** Open the next iteration; nothing of the previous one may still be uncommitted. */
    method StartIteration(last: bool) returns (ok: bool)
      requires Inv() && run.Settled() && run.progress.iterations < limit && run.progress.Metering()
      modifies run.session`messages, run.progress`iterations, run.progress`iterationUsage, run.progress`snapshots,
        run.channel
      ensures Unreviewed() && run.progress.Metering() && run.progress.snapshots == old(run.progress.snapshots) + [[]]
      ensures Body() && run.progress.iterations == old(run.progress.iterations) + 1
      ensures ok ==> Inv() && run.Drafting() && run.progress.published == C.NOTHING
      ensures !ok ==> run.Settled()
      ensures old(run.session.messages) <= run.session.messages
    {
      hide TurnLoop.RoutedOk, TurnLoop.PlanOk, TurnLoop.Reviewed, AgentRun.Drafting, AgentRun.Settled, TurnLoop.Body;
      ok := OpenIteration();
      if ok && last {
        Note("this is the last iteration the user allowed: tools are off, conclude now");
      }
    }

    method OpenIteration() returns (ok: bool)
      requires Base() && run.Settled() && run.progress.iterations < limit && run.progress.Metering()
      modifies run.progress`iterations, run.progress`iterationUsage, run.progress`snapshots, run.channel
      ensures Unreviewed() && run.progress.Metering() && run.progress.snapshots == old(run.progress.snapshots) + [[]]
      ensures Body() && run.progress.iterations == old(run.progress.iterations) + 1
      ensures if ok then Base() && run.Drafting() && run.progress.published == C.NOTHING else run.Settled()
    {
      hide C.Records, C.LedgerOf, C.WellPaired, CheckpointWorker.Valid, TurnLoop.RoutedOk;
      run.progress.BeginIteration();
      ok := run.channel.Send(C.Iteration(run.progress.iterations));
    }

    /** Build the request and open the stream. */
    method OpenStream(around: Surroundings) returns (r: Result<seq<S.StreamItem>, Outcome>)
      requires Inv() && run.Drafting() && run.progress.published == C.NOTHING
      modifies run.session`messages, run.progress`published, run.session.frame`status, run.channel
      ensures r.Ok? ==>
                && Inv() && run.Drafting() && run.progress.published == C.NOTHING && around.response == Ok(r.value)
                && run.session.messages == old(run.session.messages)
      ensures r.Err? ==> Final(r.error) && (r.error.kind.Cancelled? || r.error.kind.ErrorKind?)
    {
      hide TurnLoop.Body, TurnLoop.Saved, TurnLoop.Reviewed, TurnLoop.RoutedOk, TurnLoop.Final, TurnLoop.PlanOk,
        C.Records, C.LedgerOf, C.WellPaired, CheckpointWorker.Valid;
      var closed := false;
      if around.compacts {
        closed := Closed();
      }
      if !closed && around.overflow.Some? {
        var o := FailWith(around.overflow.value);
        return Err(o);
      }
      if !closed {
        closed := Closed();
      }
      if closed {
        var o := Abort();
        return Err(o);
      }
      match around.response {
        case Err(e) =>
          var o := FailWith(e);
          r := Err(o);
        case Ok(items) =>
          r := Ok(items);
      }
    }

    /** Consume the stream of this iteration. */
    method ConsumeStream(items: seq<S.StreamItem>, ids: nat -> string, last: bool) returns (flow: S.StreamFlow)
      requires Inv() && run.Drafting() && run.progress.published == C.NOTHING
      requires run.progress.Metering() && run.progress.snapshots != [] && Open(run.progress.snapshots) == []
      modifies run.channel, run.progress`published, run.progress`usage, run.progress`iterationUsage,
        run.progress`snapshots, run.session`messages, run.session.frame`status
      ensures run.progress.Metering() && S.HeardSome(old(run.progress.snapshots), run.progress.snapshots, items)
      ensures flow.Accepted? ==> Open(run.progress.snapshots) == S.Snapshots(items)
      ensures flow.RunEnded? ==>
                && Final(flow.outcome)
                && (flow.outcome.kind.Cancelled? || (flow.outcome.kind.ErrorKind? && !S.Legal(codec, items, last)))
      ensures flow.Accepted? ==>
                && Inv() && run.Drafting() && S.Legal(codec, items, last)
                     && flow.calls == S.TurnCalls(codec, items, ids)
                && run.progress.published == S.TurnText(codec, items)
                && run.session.messages == old(run.session.messages)
    {
      hide S.Legal, S.TurnCalls, S.TurnText, AgentRun.Drafting, C.Records, C.LedgerOf, C.Turns, C.WellPaired,
        CheckpointWorker.Valid, EndsWith, NoTerminal;
      flow := S.StreamTurn(run, codec, items, ids, last, finalText);
    }

    lemma LegalTextHasNoCalls(items: seq<S.StreamItem>, last: bool)
      requires S.Legal(codec, items, last)
      ensures S.TurnText(codec, items).toolCalls.None?
    {
    }

    /** One full iteration of the loop. */
    method Iterate(around: Surroundings) returns (flow: Flow)
      requires Inv() && run.Settled() && run.progress.iterations < limit && run.progress.Metering()
      requires around == world(run.progress.iterations)
      modifies this, ctx, run.channel, run.progress, run.session`messages, run.session`gate, run.session`plan,
        run.session.frame`status
      modifies worker`expectedCount, worker`stopped, worker`durable, worker.db, worker.active`persistedCount
      ensures flow.Continue? ==> Inv() && run.Settled()
      ensures flow.Done? ==> Final(flow.outcome)
      ensures run.progress.iterations == old(run.progress.iterations) + 1 && run.progress.Metering()
      ensures HeardOne(old(run.progress.snapshots), run.progress.snapshots, UsageSent(around))
      ensures (flow.Done? && EndsEarly(flow.outcome.kind)) || Open(run.progress.snapshots) == UsageSent(around)
    {
      hide TurnLoop.Body, TurnLoop.Saved, TurnLoop.Reviewed, TurnLoop.RepairTracked, TurnLoop.RoutedOk, TurnLoop.Final,
        AgentRun.Drafting, AgentRun.Settled, TurnLoop.PlanOk, C.WellPaired, CheckpointWorker.Valid, EventChannel.Valid,
        AssistantText, S.TurnText, S.TurnCalls, S.Transmittable, S.HasFinish, S.Snapshots, Passed, RepairDemanded,
        TurnLoop.NaturalOk, TurnLoop.Unreviewed, RunProgress.Metering, S.HeardSome, HeardOne, UsageSent, S.Legal;
      var last := userCap && run.progress.iterations + 1 == limit;
      ghost var before := run.progress.snapshots;
      var ok := StartIteration(last);
      OpenedOnly(before, run.progress.snapshots, around);
      if !ok {
        var o := Abort();
        return Done(o);
      }
      var stepUpdatesAllowed := RequiresExecution(ctx.plan);
      var stream := OpenStream(around);
      if stream.Err? {
        return Done(stream.error);
      }
      ghost var opening := run.progress.snapshots;
      var received := ConsumeStream(stream.value, around.freshIds, last);
      HeardInTurn(before, opening, run.progress.snapshots, around, stream.value);
      if received.RunEnded? {
        return Done(received.outcome);
      }
      LegalTextHasNoCalls(stream.value, last);
      flow := Act(received.finishReason, received.calls, stepUpdatesAllowed, around, last);
    }

    /** What a legal turn leads to: a continuation, a tool turn, or an answer. */
    method Act(finishReason: Option<string>, calls: seq<D.ToolCall>, stepUpdatesAllowed: bool, around: Surroundings,
        last: bool)
      returns (flow: Flow)
      requires Inv() && run.Drafting() && run.progress.published.toolCalls.None?
      requires Unreviewed() && around == world(run.progress.iterations - 1)
      modifies this, ctx, run.channel, run.progress`published, run.session`messages, run.session`gate,
        run.session`plan, run.session.frame`status
      modifies worker`expectedCount, worker`stopped, worker`durable, worker.db, worker.active`persistedCount
      ensures flow.Continue? ==> Inv() && run.Settled()
      ensures flow.Done? ==> Final(flow.outcome)
      ensures flow.Done? && flow.outcome.kind.Natural? ==>
                && finishReason != Some("length") && calls == []
                && reviews == old(reviews) + [ReviewRecord(
                     run.progress.iterations - 1, |old(run.session.messages)|, old(run.progress.published.text),
                         around.verdict)]
    {
      hide TurnLoop.Body, TurnLoop.Saved, TurnLoop.Reviewed, TurnLoop.RepairTracked, TurnLoop.RoutedOk, TurnLoop.Final,
        AgentRun.Drafting, AgentRun.Settled, TurnLoop.PlanOk, C.WellPaired, CheckpointWorker.Valid, EventChannel.Valid,
        Passed, RepairDemanded, TurnLoop.NaturalOk, TurnLoop.Unreviewed;
      if finishReason == Some("length") {
        flow := LengthGate(last);
        return;
      }
      ResetLengthFinishes();
      if calls != [] {
        flow := ToolTurn(calls, stepUpdatesAllowed, around);
      } else {
        flow := NaturalTurn(around, last);
      }
    }

    method ResetLengthFinishes()
      modifies run.session`gate
      ensures old(Reviewed()) ==> Reviewed()
      ensures run.session.gate == old(run.session.gate).(lengthFinishes := 0)
    {
      run.session.gate := run.session.gate.(lengthFinishes := 0);
    }

    /** Iterate until the run ends or the iteration limit is used up. */
    method Loop(around: nat -> Surroundings) returns (o: Outcome)
      requires Inv() && run.Settled() && run.progress.iterations == 0 && run.progress.Metering() && around == world
      modifies this, ctx, run.channel, run.progress, run.session`messages, run.session`gate, run.session`plan,
        run.session.frame`status
      modifies worker`expectedCount, worker`stopped, worker`durable, worker.db, worker.active`persistedCount
      ensures Final(o)
      ensures run.progress.Metering() && HeardAll(run.progress.snapshots, around, o)
    {
      hide TurnLoop.Body, TurnLoop.Saved, TurnLoop.Reviewed, TurnLoop.RepairTracked, TurnLoop.RoutedOk, TurnLoop.Final,
        AgentRun.Drafting, AgentRun.Settled, UsageSent, EndsEarly, HeardAll, HeardOne, TurnLoop.PlanOk, C.WellPaired,
        CheckpointWorker.Valid, EventChannel.Valid, TurnLoop.NaturalOk, RunProgress.Metering;
      NothingYet();
      while run.progress.iterations < limit
        invariant Inv() && run.Settled() && run.progress.iterations <= limit && run.progress.Metering()
        invariant HeardFully(run.progress.snapshots, run.progress.iterations)
        decreases limit - run.progress.iterations
      {
        ghost var heard := run.progress.snapshots;
        var flow := Iterate(around(run.progress.iterations));
        HeardGrows(heard, run.progress.snapshots, run.progress.iterations, flow);
        if flow.Done? {
          CountsIterations(flow.outcome);
          return flow.outcome;
        }
      }
      SettledIsEmpty();
      var ending := Ending(C.MaxIters, finalText, None, None, Some("reached the iteration limit"));
      o := Deliver(ending, C.Failed, run.session.plan);
      CountsIterations(o);
      HeardToTheEnd(o);
    }

    /** Every iteration so far was heard to its end. */
    ghost predicate HeardFully(heard: seq<seq<C.Usage>>, iterations: nat) {
      |heard| == iterations && forall k | 0 <= k < iterations :: heard[k] == UsageSent(world(k))
    }

    lemma NothingYet()
      requires run.progress.Metering() && run.progress.iterations == 0
      ensures HeardFully(run.progress.snapshots, 0)
    {
    }

    lemma HeardGrows(before: seq<seq<C.Usage>>, after: seq<seq<C.Usage>>, iterations: nat, flow: Flow)
      requires iterations > 0 && HeardFully(before, iterations - 1)
      requires HeardOne(before, after, UsageSent(world(iterations - 1)))
      requires (flow.Done? && EndsEarly(flow.outcome.kind)) || Open(after) == UsageSent(world(iterations - 1))
      ensures flow.Continue? ==> HeardFully(after, iterations)
      ensures flow.Done? && flow.outcome.iterations == iterations ==> HeardAll(after, world, flow.outcome)
    {
      hide UsageSent;
      assert forall k | 0 <= k < |before| :: after[k] == after[..|before|][k];
    }

    lemma CountsIterations(o: Outcome)
      requires Final(o)
      ensures o.iterations == run.progress.iterations && o.usage == run.progress.usage
    {
    }

    lemma HeardToTheEnd(o: Outcome)
      requires HeardFully(run.progress.snapshots, run.progress.iterations) && o.iterations == run.progress.iterations
      ensures HeardAll(run.progress.snapshots, world, o)
    {
      hide UsageSent;
    }

    /** What the end of a run says about everything else. */
    lemma EndsWell(o: Outcome)
      requires Final(o)
      ensures run.base <= run.session.messages && run.channel.Valid()
      ensures C.Records(run.session.messages, |run.base|, C.Turns(run.channel.ledger), run.channel.ledger.retracted)
      ensures if o.kind.Cancelled? then NoTerminal(run.channel.accepted)
              else EndsWith(run.channel.accepted, o, run.session.frame.status)
      ensures Fits(o.kind, o.awaiting, run.session.frame.status) && o.iterations <= limit
      ensures o.usage == run.progress.usage && worker.Valid() && worker.db.Transcript() <= run.session.messages
      ensures planMode ==> forall batch <- ctx.routed :: OnlyPlanTools(batch)
      ensures forall batch <- ctx.routed :: RoutesAlone(batch, exclusive)
      ensures o.kind.Natural? ==>
                && !(planMode && initialPlan.None?) && (Enforced() ==> ApprovedPlanIsComplete(run.session.plan))
                && AnswerShown(o)
    {
      hide C.WellPaired, C.Records, C.Turns, EndsWith, EventChannel.Valid, NoTerminal, CheckpointWorker.Valid,
        ApprovedPlanIsComplete, TurnLoop.Told, TurnLoop.AnswerShown, TurnLoop.AnswerReviewed, TurnLoop.RepairTracked,
        OnlyPlanTools, RoutesAlone, Passed, A.Progress;
    }

    /** What the end of a run says about its reviews. */
    lemma EndsReviewed(o: Outcome)
      requires Final(o)
      ensures ReviewsTold(reviews, world, run.session.messages, |run.base|, o.iterations)
      ensures o.kind.Natural? ==>
                && ReviewPassed(reviews, world, run.session.messages, |run.base|, o)
                && |reviews| == run.session.gate.vetoes + 1
    {
      hide TurnLoop.Saved, TurnLoop.RoutedOk, C.WellPaired, A.Progress, Passed, RepairDemanded, ReviewsTold,
        AnswersLastReview, C.Turns, EndsWith, EventChannel.Valid, NoTerminal, ApprovedPlanIsComplete,
        TurnLoop.AnswerShown;
      if o.kind.Natural? && artifactTraceStart.Some? {
        assert run.session.messages[..artifactTraceStart.value] == vetoHistory;
      }
    }

    lemma SettledIsEmpty()
      requires run.Settled()
      ensures run.progress.published.toolCalls.None?
    {
    }
  }

  // -------------------------------------------------------------------------------- a run

  /**
   * One user request. However it ends: delivered evidence is history, history is paired, what is stored is a prefix
   * of it, there is exactly one terminal event unless the run was cancelled, and it ends naturally only if every gate let it.
   */
  method Run(
    session: Session, ctx: ToolContext, worker: CheckpointWorker, channel: EventChannel, codec: Codec, prompt: string,
    freshFrameId: string, explicitLimit: Option<nat>, maxIterations: nat, planMode: bool, exclusive: string -> bool,
    around: nat -> Surroundings)
    returns (o: Outcome, ghost reviews: seq<ReviewRecord>, ghost heard: seq<seq<C.Usage>>)
    requires C.WellPaired(session.messages)
    requires channel.Valid() && channel.accepted == [] && channel.seen == [] && !channel.refused
    requires worker.Valid() && !worker.stopped && worker.initialCount == worker.expectedCount
               && worker.db.Transcript() == session.messages
    requires ctx.routed == []
    modifies session, session.frame, ctx, channel, worker, worker.db, worker.active
    ensures old(session.messages) <= session.messages && channel.Valid()
    ensures C.Records(session.messages, |old(session.messages)|, C.Turns(channel.ledger), channel.ledger.retracted)
    ensures if o.kind.Cancelled? then NoTerminal(channel.accepted)
              else EndsWith(channel.accepted, o, session.frame.status)
    ensures Fits(o.kind, o.awaiting, session.frame.status)
    ensures o.iterations <= EffectiveIterationLimit(explicitLimit, maxIterations).0
    ensures worker.Valid() && worker.db.Transcript() <= session.messages
    ensures planMode ==> forall batch <- ctx.routed :: OnlyPlanTools(batch)
    ensures forall batch <- ctx.routed :: RoutesAlone(batch, exclusive)
    ensures o.kind.Natural? ==>
              && !(planMode && old(ctx.plan).None?)
              && (old(ctx.plan).Some? && old(ctx.plan).value.approved ==> ApprovedPlanIsComplete(session.plan))
    ensures o.kind.Natural? ==>
              && var turns := C.Turns(channel.ledger);
              && turns != [] && turns[|turns| - 1].text == o.finalText && T.Trim(o.finalText) != ""
    ensures ReviewsTold(reviews, around, session.messages, |old(session.messages)|, o.iterations)
    ensures o.kind.Natural? ==>
              && ReviewPassed(reviews, around, session.messages, |old(session.messages)|, o)
              && |reviews| == session.gate.vetoes + 1
    ensures o.usage == Metered(heard) && HeardAll(heard, around, o)
  {
    hide C.WellPaired, CheckpointWorker.Valid, EndsWith, C.Turns, A.Progress, Passed, RepairDemanded,
      ApprovedPlanIsComplete, C.Records, ReviewsTold, ReviewPassed, HeardAll, Metered, TurnLoop.Final, OnlyPlanTools,
      RoutesAlone, EventChannel.Valid, AgentRun.Settled, TurnLoop.Inv, C.LedgerOf, T.Trim;
    ghost var base := session.messages;
    session.gate := OPEN_GATES;
    session.frame.BeginRun(prompt, freshFrameId);
    FreshLedger(base, channel);
    var started := channel.Send(C.Start(session.frame.id, session.frame.summary));
    reviews, heard := [], [];
    if !started {
      session.frame.SetStatus(C.CancelledStatus);
      o := Outcome(C.Cancelled, "", None, None, None, C.NO_USAGE, 0);
      NothingTold(around, session.messages, |base|, o);
      return;
    }
    var loop := Prepare(session, ctx, worker, channel, codec, prompt, explicitLimit, maxIterations, planMode, exclusive,
        around);
    o := loop.Loop(around);
    reviews, heard := loop.reviews, loop.run.progress.snapshots;
    loop.EndsWell(o);
    loop.EndsReviewed(o);
  }

  lemma NothingTold(around: nat -> Surroundings, history: seq<C.Message>, start: nat, o: Outcome)
    requires o.iterations == 0
    ensures ReviewsTold([], around, history, start, 0) && HeardAll([], around, o) && Metered([]) == C.NO_USAGE
  {
  }

  /** Append the prompt and set up the loop over it. */
  method Prepare(
    session: Session, ctx: ToolContext, worker: CheckpointWorker, channel: EventChannel, codec: Codec, prompt: string,
    explicitLimit: Option<nat>, maxIterations: nat, planMode: bool, exclusive: string -> bool,
    ghost around: nat -> Surroundings)
    returns (loop: TurnLoop)
    requires C.Records(session.messages, |session.messages|, C.Turns(channel.ledger), channel.ledger.retracted)
    requires channel.Valid() && NoTerminal(channel.accepted) && !channel.refused
    requires session.frame.status == C.Processing && session.gate == OPEN_GATES
    requires worker.Valid() && !worker.stopped && worker.initialCount == worker.expectedCount
               && worker.db.Transcript() == session.messages
    requires ctx.routed == []
    modifies session`messages
    ensures fresh(loop) && fresh(loop.run.progress)
    ensures loop.run.session == session && loop.run.channel == channel && loop.run.base == old(session.messages)
    ensures loop.ctx == ctx && loop.worker == worker && loop.planMode == planMode && loop.initialPlan == ctx.plan
              && loop.exclusive == exclusive
    ensures loop.limit == EffectiveIterationLimit(explicitLimit, maxIterations).0 && loop.reviews == []
              && loop.world == around
    ensures loop.Inv() && loop.run.Settled() && loop.run.progress.iterations == 0 && loop.run.progress.Metering()
    ensures session.messages == old(session.messages) + [C.Plain(C.User, prompt)]
  {
    hide C.WellPaired, CheckpointWorker.Valid, C.Turns, C.Records, C.LedgerOf, NoTerminal;
    WorkerCount(worker);
    var progress := new RunProgress();
    var run := new AgentRun(session, progress, channel);
    var budget := EffectiveIterationLimit(explicitLimit, maxIterations);
    loop := new TurnLoop(run, ctx, worker, codec, planMode, budget.0, budget.1, exclusive, around);
    run.PushSilent(C.Plain(C.User, prompt));
  }

  lemma WorkerCount(worker: CheckpointWorker)
    requires worker.Valid()
    ensures worker.expectedCount == |worker.db.Transcript()|
  {
    hide C.WellPaired, AllPaired, CheckpointWorker.OwnsItsRows;
  }

  lemma FreshLedger(base: seq<C.Message>, channel: EventChannel)
    requires C.WellPaired(base) && channel.Valid() && channel.seen == []
    ensures channel.ledger == C.NO_TURNS && C.Turns(C.NO_TURNS) == []
    ensures C.Records(base, |base|, [], [])
  {
    assert base[|base|..] == [];
  }

  /**
   * A run that ended naturally although its first review demanded a repair: the rejected draft stands hidden in this
   * run's part of the history; behind it an artifact really was changed, and checked in a later turn than every
   * change, unless the id of the last check was issued again.
   */
  lemma RepairedMeansChecked(
    reviews: seq<ReviewRecord>, around: nat -> Surroundings, history: seq<C.Message>, start: nat, o: Outcome)
    requires ReviewPassed(reviews, around, history, start, o) && RepairDemanded(reviews)
    ensures |reviews| == 2 && start < reviews[0].history && SentBack(history, reviews[0])
    ensures var behind := history[reviews[0].history + 1..];
            && A.Changed(behind)
            && (A.CheckReissued(behind) || A.CheckedLater(behind))
  {
    hide C.WellPaired, A.Progress, A.Changed, A.CheckedLater, A.CheckReissued, SentBack, T.Trim;
    var from := reviews[0].history + 1;
    assert history == history[..from] + history[from..];
    C.WellPairedSuffix(history[..from], history[from..]);
    A.ProgressMeaning(history[from..]);
    A.RightUnlessReissued(history[from..]);
  }
}
