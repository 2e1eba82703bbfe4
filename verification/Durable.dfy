// The stored transcript of one session and the worker that extends it during a run.
module Durable {
  import opened Wrappers
  import opened Conversation
  import opened RunState

  // --------------------------------------------------------------------------- the database

  datatype Row = Row(message: Message, owner: string)

  /** A run's row: the message range it owns and whether it has been concluded. */
  datatype RunRow = RunRow(session: string, startSeq: Option<nat>, endSeq: Option<nat>, completed: bool)

  function MessagesOf(rows: seq<Row>): seq<Message> {
    seq(|rows|, i requires 0 <= i < |rows| => rows[i].message)
  }

  function Owned(messages: seq<Message>, owner: string): seq<Row> {
    seq(|messages|, i requires 0 <= i < |messages| => Row(messages[i], owner))
  }

  /** What is stored of one session. Row `i` has sequence number `i + 1`. */
  class Database {
    const session: string
    var rows: seq<Row>
    var runs: map<string, RunRow>
    var plan: Option<PlanState>
    var status: FrameStatus
    /** Every transcript a crash could have exposed so far, newest last. */
    ghost var exposed: seq<seq<Message>>

    constructor (sid: string)
      ensures session == sid && rows == [] && runs == map[] && plan == None && exposed == [[]]
    {
      session, rows, runs, plan, status, exposed := sid, [], map[], None, Processing, [[]];
    }

    function Transcript(): seq<Message>
      reads this`rows
    {
      MessagesOf(rows)
    }

    /** The newest exposed transcript is the stored one. */
    ghost predicate Current()
      reads this`rows, this`exposed
    {
      |exposed| > 0 && exposed[|exposed| - 1] == Transcript()
    }

    predicate CheckpointFits(runId: string, expectedCount: nat)
      reads this
    {
      && |rows| == expectedCount
      && (runId in runs ==>
           runs[runId].session == session && !runs[runId].completed && runs[runId].endSeq == Some(|rows|))
    }

    predicate ConclusionFits(runId: string, checkpointStart: Option<nat>)
      reads this
    {
      && (runId in runs ==>
            && runs[runId].session == session && !runs[runId].completed
            && runs[runId].startSeq == checkpointStart && runs[runId].endSeq == Some(|rows|))
      && (checkpointStart.Some? ==>
            && 0 < checkpointStart.value <= |rows|
            && forall i | checkpointStart.value - 1 <= i < |rows| :: rows[i].owner == runId)
    }

    /** Append the messages of a delivered tool batch, all or nothing. */
    method AppendHistoryCheckpoint(
      runId: string, expectedCount: nat, messages: seq<Message>, newPlan: Option<PlanState>, newStatus: FrameStatus,
          fault: bool)
      returns (r: Result<nat, string>)
      requires messages != []
      modifies this
      ensures r.Ok? <==> !fault && old(CheckpointFits(runId, expectedCount))
      ensures r.Err? ==> unchanged(this)
      ensures r.Ok? ==>
                && rows == old(rows) + Owned(messages, runId) && r.value == |rows|
                && Transcript() == old(Transcript()) + messages
                && runs == old(runs)[runId := RunRow(session,
                             if runId in old(runs) && old(runs)[runId].startSeq.Some? then old(runs)[runId].startSeq
                                 else Some(|old(rows)| + 1),
                             Some(|rows|), false)]
                && plan == newPlan && status == newStatus && exposed == old(exposed) + [Transcript()]
    {
      if fault || !CheckpointFits(runId, expectedCount) {
        return Err("history checkpoint failed");
      }
      var start := if runId in runs && runs[runId].startSeq.Some? then runs[runId].startSeq else Some(|rows| + 1);
      rows := rows + Owned(messages, runId);
      runs := runs[runId := RunRow(session, start, Some(|rows|), false)];
      plan, status := newPlan, newStatus;
      assert Transcript() == old(Transcript()) + messages;
      exposed := exposed + [Transcript()];
      r := Ok(|rows|);
    }

    /** Conclude a run: its remaining messages and its terminal fields, all or nothing. */
    method PersistRun(
      runId: string, checkpointStart: Option<nat>, messages: seq<Message>, newPlan: Option<PlanState>,
          newStatus: FrameStatus, fault: bool)
      returns (r: Result<nat, string>)
      modifies this
      ensures r.Ok? <==> !fault && old(ConclusionFits(runId, checkpointStart))
      ensures r.Err? ==> unchanged(this)
      ensures r.Ok? ==>
                && rows == old(rows) + Owned(messages, runId) && Transcript() == old(Transcript()) + messages
                && runs.Keys == old(runs).Keys + {runId} && runs[runId].completed
                     && runs - {runId} == old(runs) - {runId}
                && plan == newPlan && status == newStatus && exposed == old(exposed) + [Transcript()]
                && r.value == |messages| + if checkpointStart.Some? then |old(rows)| - checkpointStart.value + 1 else 0
    {
      if fault || !ConclusionFits(runId, checkpointStart) {
        return Err("persist run transaction failed");
      }
      var appendedStart := if messages == [] then None else Some(|rows| + 1);
      var existingStart, existingEnd := None, None;
      if runId in runs {
        existingStart, existingEnd := runs[runId].startSeq, runs[runId].endSeq;
      }
      var start := if existingStart.Some? then existingStart
                   else if checkpointStart.Some? then checkpointStart
                   else appendedStart;
      var end := if messages != [] then Some(|rows| + |messages|)
                 else if existingEnd.Some? then existingEnd
                 else if checkpointStart.Some? then Some(|rows|) else None;
      var written := |messages| + if checkpointStart.Some? then |rows| - checkpointStart.value + 1 else 0;
      rows := rows + Owned(messages, runId);
      runs := runs[runId := RunRow(session, start, end, true)];
      plan, status := newPlan, newStatus;
      assert Transcript() == old(Transcript()) + messages;
      exposed := exposed + [Transcript()];
      r := Ok(written);
    }
  }

  // --------------------------------------------------------------------- snapshots of memory

  datatype FrameSnapshot = FrameSnapshot(
    id: string, parent: Option<string>, root: Option<string>, agentName: string, status: FrameStatus, summary: string)

  function CaptureFrame(frame: Frame): FrameSnapshot
    reads frame
  {
    FrameSnapshot(frame.id, frame.parent, frame.root, frame.agentName, frame.status, frame.summary)
  }

  method RestoreFrame(frame: Frame, s: FrameSnapshot)
    modifies frame
    ensures CaptureFrame(frame) == s
  {
    frame.id, frame.parent, frame.root, frame.agentName, frame.status, frame.summary :=
      s.id, s.parent, s.root, s.agentName, s.status, s.summary;
  }

  datatype SessionSnapshot = SessionSnapshot(messagesLen: nat, frame: FrameSnapshot, gate: GateState,
      plan: Option<PlanState>)

  function Capture(session: Session): SessionSnapshot
    reads session, session.frame
  {
    SessionSnapshot(|session.messages|, CaptureFrame(session.frame), session.gate, session.plan)
  }

  /** Undo a run: with append-only history this is exactly the state that was captured. */
  method Restore(session: Session, s: SessionSnapshot)
    modifies session, session.frame
    ensures session.messages == if s.messagesLen <= |old(session.messages)| then old(session.messages)[..s.messagesLen]
              else old(session.messages)
    ensures s.messagesLen <= |old(session.messages)| ==> Capture(session) == s
    ensures CaptureFrame(session.frame) == s.frame && session.gate == s.gate && session.plan == s.plan
  {
    if s.messagesLen <= |session.messages| {
      session.messages := session.messages[..s.messagesLen];
    }
    RestoreFrame(session.frame, s.frame);
    session.gate, session.plan := s.gate, s.plan;
  }

  datatype ToolCheckpoint = ToolCheckpoint(messagesLen: nat, frame: FrameSnapshot, plan: Option<PlanState>)

  /** Go back to the last stored tool checkpoint; gates go back to the start of the run. */
  method RestoreCheckpoint(session: Session, checkpoint: ToolCheckpoint, runStart: SessionSnapshot)
    requires checkpoint.messagesLen <= |session.messages|
    modifies session, session.frame
    ensures session.messages == old(session.messages)[..checkpoint.messagesLen]
    ensures CaptureFrame(session.frame) == checkpoint.frame && session.plan == checkpoint.plan
              && session.gate == runStart.gate
  {
    var messages := session.messages[..checkpoint.messagesLen];
    Restore(session, runStart);
    session.messages := messages;
    RestoreFrame(session.frame, checkpoint.frame);
    session.plan := checkpoint.plan;
  }

  // ----------------------------------------------------------------- the checkpoint worker

  ghost predicate AllPaired(transcripts: seq<seq<Message>>) {
    forall t <- transcripts :: WellPaired(t)
  }

  /** A session in memory and how much of its history is stored. */
  class ActiveSession {
    const session: Session
    var persistedCount: nat

    constructor (s: Session, count: nat)
      ensures session == s && persistedCount == count
    {
      session, persistedCount := s, count;
    }
  }

  class CheckpointWorker {
    const db: Database
    const active: ActiveSession
    const runId: string
    ghost const initialCount: nat
    /** The run id was unknown to the database when the run started. */
    ghost const newRun: bool
    ghost const initialPlan: Option<PlanState>
    ghost const initialExposed: seq<seq<Message>>
    var expectedCount: nat
    var stopped: bool
    var durable: Option<ToolCheckpoint>

    constructor (d: Database, a: ActiveSession, id: string)
      requires |d.rows| == a.persistedCount && AllPaired(d.exposed) && d.Current()
      ensures db == d && active == a && runId == id && initialCount == a.persistedCount && newRun == (id !in d.runs)
                && initialPlan == d.plan && initialExposed == d.exposed
      ensures Valid() && expectedCount == a.persistedCount && !stopped && durable.None?
    {
      db, active, runId, initialCount := d, a, id, a.persistedCount;
      newRun, initialPlan, initialExposed := id !in d.runs, d.plan, d.exposed;
      expectedCount, stopped, durable := a.persistedCount, false, None;
    }

    ghost predicate Valid()
      reads this, db, active
    {
      && AllPaired(db.exposed) && db.Current() && initialExposed <= db.exposed
      && initialCount <= expectedCount == active.persistedCount == |db.rows|
      && (durable.Some? <==> initialCount < expectedCount)
      && (durable.Some? ==> durable.value.messagesLen == expectedCount && durable.value.plan == db.plan)
      && (durable.None? ==> db.plan == initialPlan)
      && (newRun ==> OwnsItsRows())
    }

    /** The stored rows of this run are its own and its row says so. */
    ghost predicate OwnsItsRows()
      reads this, db
      requires initialCount <= expectedCount == |db.rows|
    {
      && (forall i | initialCount <= i < expectedCount :: db.rows[i].owner == runId)
      && if initialCount == expectedCount then runId !in db.runs
         else
           && runId in db.runs
           && db.runs[runId] == RunRow(db.session, Some(initialCount + 1), Some(expectedCount), false)
    }

    /** Store the messages of one delivered tool batch; after a failure the worker is gone. */
    method Checkpoint(messages: seq<Message>, frame: FrameSnapshot, plan: Option<PlanState>,
        fault: bool) returns (r: Result<(), string>)
      requires Valid() && WellPaired(db.Transcript() + messages)
      modifies this`expectedCount, this`stopped, this`durable, db, active`persistedCount
      ensures Valid()
      ensures r.Ok? ==> db.Transcript() == old(db.Transcript()) + messages && stopped == old(stopped)
      ensures old(db.exposed) <= db.exposed
      ensures r.Err? ==>
                unchanged(db) && unchanged(active) && expectedCount == old(expectedCount) && durable == old(durable)
      ensures newRun && !old(stopped) && !fault ==> r.Ok?
    {
      hide WellPaired;
      if messages == [] {
        assert db.Transcript() + [] == db.Transcript();
        return Ok(());
      }
      if stopped {
        return Err("history checkpoint worker stopped");
      }
      var next := db.AppendHistoryCheckpoint(runId, expectedCount, messages, plan, frame.status, fault);
      match next {
        case Err(e) =>
          stopped := true;
          r := Err(e);
        case Ok(count) =>
          expectedCount, active.persistedCount := count, count;
          durable := Some(ToolCheckpoint(count, frame, plan));
          r := Ok(());
      }
    }
  }
}
