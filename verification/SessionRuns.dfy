// Accepting a run of a session, executing it, and making its result durable.
module SessionRuns {
  import opened Wrappers
  import opened DsmlParser
  import C = Conversation
  import opened RunState
  import opened Tools
  import opened Durable
  import opened Runner
  import RC = RunControl

  // --------------------------------------------------------------------------- plan selection

  datatype RunPlanError = ConflictingModes | NoExecutablePlan

  /** The only plan a run is allowed to see. */
  function SelectRunPlan(current: Option<C.PlanState>, planMode: bool,
      executePlan: bool): (r: Result<Option<C.PlanState>, RunPlanError>)
    ensures r.Ok? && r.value.Some? ==> executePlan && !planMode && r.value == current && RequiresExecution(current)
    ensures r.Ok? && planMode ==> r.value.None?
    ensures r.Err? <==> executePlan && (planMode || !RequiresExecution(current))
  {
    if planMode && executePlan then Err(ConflictingModes)
    else if !executePlan then Ok(None)
    else if RequiresExecution(current) then Ok(current)
    else Err(NoExecutablePlan)
  }

  /** A plan selected for execution is approved, so the run must finish it to end naturally. */
  lemma SelectedPlanIsEnforced(current: Option<C.PlanState>, planMode: bool, executePlan: bool)
    requires SelectRunPlan(current, planMode, executePlan).Ok?
    ensures var plan := SelectRunPlan(current, planMode, executePlan).value;
            && (executePlan <==> plan.Some?) && (plan.Some? ==> plan.value.approved && !planMode)
  {
  }

  // ---------------------------------------------------------------------------- one session

  datatype Request = Request(
    runId: string,
    prompt: string,
    planMode: bool,
    executePlan: bool,
    registered: bool,
    clearFault: bool,
    statusFault: bool,
    persistFault: bool,
    modelConfigured: bool,
    receiverPatience: nat,
    codec: Codec,
    freshFrameId: string,
    explicitLimit: Option<nat>,
    maxIterations: nat,
    exclusive: string -> bool,
    around: nat -> Surroundings)

  /** What a client may ask of the service between two idle moments. */
  datatype Operation = RunRequest(request: Request) | Approve(fault: bool)

  datatype Reply = Refused(reason: string) | Ran(outcome: Outcome, persistence: RC.PersistenceState)

  function PersistedStatus(kind: C.CompleteKind, frame: C.FrameStatus): C.FrameStatus {
    match kind
    case Natural => C.Completed
    case Awaiting =>
      if frame.AwaitingPlanApproval? || frame.AwaitingPlanExecution? then frame else C.AwaitingUserResponse
    case Cancelled => C.CancelledStatus
    case ErrorKind => C.Failed
    case MaxIters => C.Failed
  }

  /** What is written as the status of a concluded run is the status of its frame. */
  lemma PersistedStatusIsFrameStatus(o: Outcome, frame: C.FrameStatus)
    requires Fits(o.kind, o.awaiting, frame)
    ensures PersistedStatus(o.kind, frame) == frame
  {
  }

  class SessionService {
    const active: ActiveSession
    const db: Database

    constructor (a: ActiveSession, d: Database)
      ensures active == a && db == d
    {
      active, db := a, d;
    }

    /** Memory and database agree, and every transcript that was ever exposed is well paired. */
    ghost predicate Synced()
      reads active, active.session, db
    {
      && db.Transcript() == active.session.messages && active.persistedCount == |active.session.messages|
      && db.plan == active.session.plan
      && C.WellPaired(active.session.messages) && AllPaired(db.exposed) && db.Current()
    }

    /** Approve the plan that waits for approval: in the database first, then in memory. */
    method ApprovePlan(fault: bool) returns (r: Result<seq<C.PlanStep>, string>)
      requires Synced()
      modifies db`plan, db`status, active.session`plan, active.session.frame`status
      ensures Synced()
      ensures r.Ok? <==>
                && !fault && old(active.session.frame.status) == C.AwaitingPlanApproval
                && old(active.session.plan).Some?
      ensures r.Err? ==> unchanged(db) && unchanged(active.session) && unchanged(active.session.frame)
      ensures r.Ok? ==>
                && active.session.plan == Some(old(active.session.plan).value.(approved := true))
                && active.session.frame.status == db.status == C.AwaitingPlanExecution
    {
      hide C.WellPaired, AllPaired;
      if active.session.frame.status != C.AwaitingPlanApproval {
        return Err("session is not awaiting plan approval");
      }
      if active.session.plan.None? {
        return Err("no plan to approve");
      }
      var approved := active.session.plan.value.(approved := true);
      if fault {
        return Err("failed to persist approved plan");
      }
      db.plan, db.status := Some(approved), C.AwaitingPlanExecution;
      active.session.plan := Some(approved);
      active.session.frame.SetStatus(C.AwaitingPlanExecution);
      r := Ok(approved.steps);
    }

    /**
     * The stored message count still is the message count in memory: it always is, before a run and after a snapshot
     * of it, while memory and database agree.
     */
    method ValidatedPersistenceCursor(snapshot: SessionSnapshot) returns (r: Result<nat, (nat, nat)>)
      ensures Synced() && snapshot == Capture(active.session) ==> r == Ok(|db.rows|)
      ensures r == if active.persistedCount == snapshot.messagesLen then Ok(snapshot.messagesLen)
                   else Err((active.persistedCount, snapshot.messagesLen))
    {
      var persisted := active.persistedCount;
      if persisted == snapshot.messagesLen {
        return Ok(persisted);
      }
      r := Err((persisted, snapshot.messagesLen));
    }

    /** Undo a run that could not be stored, down to its last stored checkpoint. */
    method RollbackFailedRun(snapshot: SessionSnapshot, worker: CheckpointWorker, control: RC.ActiveRunControl)
      requires worker.db == db && worker.active == active && worker.Valid()
      requires worker.initialCount == snapshot.messagesLen && worker.initialPlan == snapshot.plan
      requires snapshot.messagesLen <= active.persistedCount <= |active.session.messages|
      modifies active.session, active.session.frame, control`persistence
      ensures active.session.messages == old(active.session.messages)[..active.persistedCount]
      ensures active.session.plan == db.plan && active.session.gate == snapshot.gate
      ensures active.persistedCount == snapshot.messagesLen ==> Capture(active.session) == snapshot
      ensures control.persistence == if old(control.persistence).Pending? then RC.Failed("saving the run failed")
                else old(control.persistence)
    {
      hide AllPaired, CheckpointWorker.OwnsItsRows;
      if active.persistedCount <= snapshot.messagesLen {
        Restore(active.session, snapshot);
      } else {
        RestoreCheckpoint(active.session, worker.durable.value, snapshot);
      }
      control.SetPersistenceError("saving the run failed");
    }

    /** Store the finished run; if that fails, forget what could not be stored. */
    method FinalizeRun(
      outcome: Outcome, snapshot: SessionSnapshot, worker: CheckpointWorker, control: RC.ActiveRunControl, fault: bool)
      requires worker.db == db && worker.active == active && worker.Valid() && control.persistence.Pending?
      requires worker.initialCount == snapshot.messagesLen && worker.initialPlan == snapshot.plan
      requires db.Transcript() <= active.session.messages && C.WellPaired(active.session.messages)
      modifies active.session, active.session.frame, active`persistedCount, db, control`persistence
      ensures Synced() && old(db.exposed) <= db.exposed
      ensures control.persistence.Committed? || control.persistence.Failed?
      ensures control.persistence.Committed? ==>
                && active.session.messages == old(active.session.messages)
                     && active.session.plan == old(active.session.plan)
                && db.status == PersistedStatus(outcome.kind, active.session.frame.status)
                && active.session.frame.status == old(active.session.frame.status)
      ensures control.persistence.Failed? ==>
                && unchanged(db) && active.session.messages == old(db.Transcript())
                && (|old(db.Transcript())| == snapshot.messagesLen ==> Capture(active.session) == snapshot)
      ensures worker.newRun ==> (control.persistence.Committed? <==> !fault)
    {
      hide C.WellPaired, AllPaired;
      var previous := active.persistedCount;
      var checkpointStart := if previous > snapshot.messagesLen then Some(snapshot.messagesLen + 1) else None;
      if worker.newRun {
        OwnRunConcludes(worker, checkpointStart);
      }
      var status := PersistedStatus(outcome.kind, active.session.frame.status);
      assert db.Transcript() + active.session.messages[previous..] == active.session.messages;
      ghost var exposed := db.exposed;
      var stored := db.PersistRun(worker.runId, checkpointStart, active.session.messages[previous..],
          active.session.plan, status, fault);
      if stored.Ok? {
        active.persistedCount := |active.session.messages|;
        control.MarkPersistenceCommitted();
        ExposedStayPaired(exposed, active.session.messages);
      } else {
        RollbackFailedRun(snapshot, worker, control);
        PrefixIsPaired(worker, active.session.messages);
      }
    }

    /** The database's own checks never stand in the way of a run that owns its rows. */
    lemma OwnRunConcludes(worker: CheckpointWorker, checkpointStart: Option<nat>)
      requires worker.Valid() && worker.newRun
      requires checkpointStart == if worker.expectedCount > worker.initialCount then Some(worker.initialCount + 1)
                 else None
      ensures worker.db.ConclusionFits(worker.runId, checkpointStart)
    {
      hide AllPaired;
    }

    lemma ExposedStayPaired(exposed: seq<seq<C.Message>>, transcript: seq<C.Message>)
      requires AllPaired(exposed) && C.WellPaired(transcript)
      ensures AllPaired(exposed + [transcript])
    {
    }

    lemma PrefixIsPaired(worker: CheckpointWorker, transcript: seq<C.Message>)
      requires worker.Valid() && transcript == worker.db.Transcript()
      ensures C.WellPaired(transcript)
    {
      hide C.WellPaired;
      assert transcript in worker.db.exposed;
    }

    lemma WorkerOnlyAdds(worker: CheckpointWorker)
      requires worker.Valid()
      ensures worker.initialExposed <= worker.db.exposed && worker.initialCount <= |worker.db.Transcript()|
    {
      hide AllPaired, CheckpointWorker.OwnsItsRows;
    }

    lemma RecordsArePaired(ms: seq<C.Message>, start: nat, visible: seq<C.PublishedTurn>,
        hidden: seq<C.PublishedTurn>)
      requires C.Records(ms, start, visible, hidden)
      ensures C.WellPaired(ms)
    {
    }

    /** Without a configured model the run fails at once, keeping the prompt. */
    method FailWithoutModel(channel: EventChannel, prompt: string, freshFrameId: string) returns (o: Outcome)
      requires channel.Valid() && channel.accepted == [] && channel.seen == [] && !channel.refused
      requires C.WellPaired(active.session.messages)
      modifies active.session`messages, active.session.frame, channel
      ensures active.session.messages == old(active.session.messages) + [C.Plain(C.User, prompt)]
      ensures C.WellPaired(active.session.messages) && Fits(o.kind, o.awaiting, active.session.frame.status)
                && o.kind.ErrorKind?
    {
      hide C.LedgerOf, C.Record;
      active.session.frame.BeginRun(prompt, freshFrameId);
      C.WellPairedTurn(C.Plain(C.User, prompt), []);
      assert [C.Plain(C.User, prompt)] + [] == [C.Plain(C.User, prompt)];
      C.WellPairedConcat(active.session.messages, [C.Plain(C.User, prompt)]);
      active.session.messages := active.session.messages + [C.Plain(C.User, prompt)];
      var started := channel.Send(C.Start(active.session.frame.id, prompt));
      active.session.frame.SetStatus(C.Failed);
      o := Outcome(C.ErrorKind, "", None, None, Some("LLM not configured"), C.NO_USAGE, 0);
      if started {
        var delivered := channel.Send(CompleteOf(o, C.Failed, None));
      }
    }

    /** Run the request and make it durable. The cursor check that precedes it always passes. */
    method RunTask(request: Request, initialPlan: Option<C.PlanState>,
        control: RC.ActiveRunControl) returns (o: Outcome)
      requires Synced() && control.persistence.Pending?
      modifies active, active.session, active.session.frame, db, control
      ensures Synced() && old(db.exposed) <= db.exposed
      ensures control.finished && (control.persistence.Committed? || control.persistence.Failed?)
      ensures old(active.session.messages) <= active.session.messages
      ensures control.persistence.Committed? ==>
                Fits(o.kind, o.awaiting, active.session.frame.status) && db.status == active.session.frame.status
      ensures control.persistence.Committed? && o.kind.Natural? && initialPlan.Some? && initialPlan.value.approved ==>
                ApprovedPlanIsComplete(db.plan)
      ensures o.kind.Natural? ==> !(request.planMode && initialPlan.None?)
      ensures request.runId !in old(db.runs) ==> (control.persistence.Committed? <==> !request.persistFault)
    {
      hide C.WellPaired, AllPaired, CheckpointWorker.Valid, ApprovedPlanIsComplete, EndsWith, NoTerminal, C.Records,
        C.Turns, C.LedgerOf;
      var snapshot := Capture(active.session);
      var cursor := ValidatedPersistenceCursor(snapshot);
      assert cursor == Ok(|db.rows|);
      var worker := new CheckpointWorker(db, active, request.runId);
      var channel := new EventChannel(request.receiverPatience);
      if request.modelConfigured {
        var ctx := new ToolContext(initialPlan);
        ghost var reviews, heard;
        o, reviews, heard := Run(
          active.session, ctx, worker, channel, request.codec, request.prompt, request.freshFrameId,
              request.explicitLimit,
          request.maxIterations, request.planMode, request.exclusive, request.around);
        RecordsArePaired(active.session.messages, snapshot.messagesLen, C.Turns(channel.ledger),
            channel.ledger.retracted);
      } else {
        o := FailWithoutModel(channel, request.prompt, request.freshFrameId);
      }
      WorkerOnlyAdds(worker);
      assert old(active.session.messages) <= db.Transcript();
      PersistedStatusIsFrameStatus(o, active.session.frame.status);
      FinalizeRun(o, snapshot, worker, control, request.persistFault);
      control.Finish();
    }

    /** Check the request, take its plan, then run it. Refusals leave memory and database in agreement. */
    method StreamRun(request: Request) returns (reply: Reply)
      requires Synced()
      modifies active, active.session, active.session.frame, db
      ensures Synced() && old(db.exposed) <= db.exposed
      ensures old(active.session.messages) <= active.session.messages
      ensures reply.Ran? ==>
                && SelectRunPlan(old(active.session.plan), request.planMode, request.executePlan).Ok?
                && (reply.persistence.Committed? || reply.persistence.Failed?)
      ensures reply.Ran? && reply.persistence.Committed? && reply.outcome.kind.Natural? ==>
                && !request.planMode
                && (request.executePlan ==> ApprovedPlanIsComplete(db.plan))
      ensures reply.Refused? ==> active.session.messages == old(active.session.messages) && db.rows == old(db.rows)
    {
      hide C.WellPaired, AllPaired, ApprovedPlanIsComplete;
      if request.runId == "" || |request.runId| > 128 {
        return Refused("run_id must contain 1 to 128 characters");
      }
      var selected := SelectRunPlan(active.session.plan, request.planMode, request.executePlan);
      if selected.Err? {
        return Refused("no executable plan");
      }
      SelectedPlanIsEnforced(active.session.plan, request.planMode, request.executePlan);
      if !request.registered {
        return Refused("run was cancelled before it started");
      }
      if !request.executePlan && active.session.plan.Some? {
        if request.clearFault {
          return Refused("database error");
        }
        db.plan := None;
        active.session.plan := None;
      }
      if request.executePlan {
        if request.statusFault {
          return Refused("database error");
        }
        db.status := C.Processing;
        active.session.frame.SetStatus(C.Processing);
      }
      var control := new RC.ActiveRunControl();
      var o := RunTask(request, selected.value, control);
      reply := Ran(o, control.persistence);
    }

    /**
     * However many runs and approvals came, in whatever order, and whatever failed in them, the next run finds memory
     * and database in agreement.
     */
    method ServeAll(operations: seq<Operation>)
      requires Synced()
      modifies active, active.session, active.session.frame, db
      ensures Synced() && old(db.exposed) <= db.exposed
      ensures old(active.session.messages) <= active.session.messages
    {
      hide C.WellPaired, AllPaired, SessionService.Synced;
      for i := 0 to |operations|
        invariant Synced() && old(db.exposed) <= db.exposed
        invariant old(active.session.messages) <= active.session.messages
      {
        match operations[i] {
          case RunRequest(request) =>
            var reply := StreamRun(request);
          case Approve(fault) =>
            var approved := ApprovePlan(fault);
        }
      }
    }
  }
}
