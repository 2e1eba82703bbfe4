// One invocation of a remote agent: what is sent, what is recorded, how it ends.
module A2aClient {
  import opened Wrappers
  import opened DsmlParser
  import opened A2aProtocol

  const MAX_RESPONSE_BYTES := 1024 * 1024
  const MAX_TOTAL_RESPONSE_BYTES := 4 * 1024 * 1024

  datatype Action = Send | Submit | GetTask | CancelTask

  datatype TerminalKind =
    | MessageKind | TaskKind | TaskPending | TaskInterrupted | CardRefreshError
    | TransportError | ProtocolFailure | TimedOut | SizeLimit | OutcomeUnknown

  datatype Terminal = Terminal(
    kind: TerminalKind, taskId: Option<string>, contextId: Option<string>, state: Option<string>, success: bool,
        error: Option<string>)

  datatype Frame = Frame(sequence: nat, operation: Operation, httpStatus: nat, requestId: Option<string>, payload: Json,
      wireBytes: nat)

  datatype Operation = SendMessage | GetTaskOp | CancelTaskOp

  datatype ClientError = Timeout | TooLarge | Transport(message: string)

  /** What the network does with one attempt: time lost before it, time it takes, and the answer. */
  datatype Reaction = Reaction(lag: nat, duration: nat, answer: Result<Answer, string>)

  datatype Answer = Answer(httpStatus: nat, payload: Json, wireBytes: nat)

  /** An operation that was really sent, and when. */
  datatype Issued = Issued(operation: Operation, at: nat)

  function ErrorTerminal(kind: TerminalKind, message: string): Terminal {
    Terminal(kind, None, None, None, false, Some(message))
  }

  function TaskErrorTerminal(kind: TerminalKind, taskId: string, contextId: Option<string>, state: Option<string>,
      message: string): Terminal {
    Terminal(kind, Some(taskId), contextId, state, false, Some(message))
  }

  function TaskTerminal(kind: TerminalKind, meaning: Meaning, success: bool, error: Option<string>): Terminal
    requires meaning.Task?
  {
    Terminal(kind, Some(meaning.taskId), meaning.contextId, Some(meaning.state), success, error)
  }

  /** How a cancellation is reported: only a task that ended unsuccessfully, and not as cancelled, makes it fail. */
  function CancelTerminal(meaning: Meaning): Terminal
    requires meaning.Task?
  {
    if IsCancelledState(meaning.state) then TaskTerminal(TaskKind, meaning, true, None)
    else
      match meaning.disposition
      case InProgress => TaskTerminal(TaskPending, meaning, true, None)
      case Success => TaskTerminal(TaskKind, meaning, true, None)
      case Interrupted => TaskTerminal(TaskInterrupted, meaning, true, None)
      case Failure => TaskTerminal(TaskKind, meaning, false, Some("remote cancellation ended unsuccessfully"))
  }

  function TotalBytes(frames: seq<Frame>): nat {
    if frames == [] then 0 else TotalBytes(frames[..|frames| - 1]) + frames[|frames| - 1].wireBytes
  }

  /** At most one more operation was sent, and it is this one. */
  predicate AtMostOneMore(before: seq<Issued>, after: seq<Issued>, operation: Operation) {
    after == before || (|after| == |before| + 1 && before <= after && after[|before|].operation == operation)
  }

  function FirstOperation(action: Action): Operation {
    match action
    case Send => SendMessage
    case Submit => SendMessage
    case GetTask => GetTaskOp
    case CancelTask => CancelTaskOp
  }

  /** The first operation is the action's own, everything after it is polling; nothing is ever repeated. */
  predicate Schedule(action: Action, issued: seq<Issued>) {
    && (issued != [] ==> issued[0].operation == FirstOperation(action))
    && forall k | 0 < k < |issued| :: issued[k].operation == GetTaskOp
  }

  function CountOf(operation: Operation, issued: seq<Issued>): nat {
    if issued == [] then 0
    else CountOf(operation, issued[..|issued| - 1]) + if issued[|issued| - 1].operation == operation then 1 else 0
  }

  /** A message is sent at most once, and never by an invocation that only looks at or cancels a task. */
  lemma {:induction false} SentAtMostOnce(action: Action, issued: seq<Issued>)
    requires Schedule(action, issued)
    ensures CountOf(SendMessage, issued) <= if action.Send? || action.Submit? then 1 else 0
    ensures CountOf(CancelTaskOp, issued) <= if action.CancelTask? then 1 else 0
  {
    if |issued| > 1 {
      SentAtMostOnce(action, issued[..|issued| - 1]);
    } else if |issued| == 1 {
      assert issued[..0] == [];
    }
  }

  /** Endings that report what the remote side answered; all others report why there is no answer. */
  predicate IsAnswer(kind: TerminalKind) {
    kind.MessageKind? || kind.TaskKind? || kind.TaskPending? || kind.TaskInterrupted?
  }

  predicate IsCancelledState(state: string) {
    state in {"TASK_STATE_CANCELED", "TASK_STATE_CANCELLED", "canceled"}
  }

  /** The ending says what this meaning says, and calls it a success exactly when it is one for this action. */
  predicate Reports(terminal: Terminal, action: Action, meaning: Meaning) {
    && (meaning.Task? ==>
          && terminal.taskId == Some(meaning.taskId) && terminal.state == Some(meaning.state)
          && terminal.contextId == meaning.contextId)
    && match terminal.kind
       case MessageKind =>
         && meaning.Message? && !action.GetTask? && !action.CancelTask?
         && terminal.success && terminal.taskId.None? && terminal.contextId == meaning.contextId
       case TaskKind =>
         && meaning.Task?
         && (terminal.success <==>
               meaning.disposition.Success? || (action.CancelTask? && IsCancelledState(meaning.state)))
         && (!terminal.success ==> meaning.disposition.Failure?)
       case TaskPending =>
         && meaning.Task? && meaning.disposition.InProgress? && (action.Submit? || action.CancelTask?)
         && terminal.success
       case TaskInterrupted => meaning.Task? && meaning.disposition.Interrupted? && terminal.success
       case _ => false
  }

  predicate NonEmptyContext(context: Option<string>) {
    context.Some? && context.value != ""
  }

  /** A known context and a returned one that contradict each other. */
  predicate ContextClash(known: Option<string>, returned: Option<string>) {
    NonEmptyContext(known) && NonEmptyContext(returned) && known != returned
  }

  function MergeContext(known: Option<string>, returned: Option<string>): Option<string> {
    if returned.Some? then returned else if NonEmptyContext(known) then known else None
  }

  // ------------------------------------------------------------- what a run of responses says

  predicate AcceptedOk(status: nat) {
    200 <= status < 300
  }

  /** How an invocation speaks: the interface, and whether the lenient registry reading is in force. */
  datatype Dialect = Dialect(interface: Interface, registry: bool)

  /** What a recorded response means. */
  function Reading(d: Dialect, frame: Frame): Parsed {
    if !frame.operation.SendMessage? then ParseTaskResponse(d.interface, frame.payload, frame.requestId)
    else if !d.registry then ParseSendResponse(d.interface, frame.payload, frame.requestId)
    else
      match ParseRegistrySendResponse(d.interface, frame.payload, frame.requestId)
      case Ok(parsed) => Ok(parsed.0)
      case Err(e) => Err(e)
  }

  /** A success response about this task. */
  predicate IsAbout(d: Dialect, frame: Frame, id: string) {
    && AcceptedOk(frame.httpStatus)
    && var parsed := Reading(d, frame);
       parsed.Ok? && parsed.value.Task? && parsed.value.taskId == id
  }

  predicate AllAbout(d: Dialect, frames: seq<Frame>, id: string) {
    forall frame <- frames :: IsAbout(d, frame, id)
  }

  function ReturnedContext(d: Dialect, frame: Frame): Option<string> {
    var parsed := Reading(d, frame);
    if parsed.Ok? && parsed.value.Task? then parsed.value.contextId else None
  }

  /** The context that is known after these responses. */
  function ContextAfter(d: Dialect, known: Option<string>, frames: seq<Frame>): Option<string> {
    if frames == [] then known
    else MergeContext(ContextAfter(d, known, frames[..|frames| - 1]), ReturnedContext(d, frames[|frames| - 1]))
  }

  /** No response contradicted the context known before it. */
  predicate NoClash(d: Dialect, known: Option<string>, frames: seq<Frame>) {
    frames != [] ==>
      && NoClash(d, known, frames[..|frames| - 1])
      && !ContextClash(ContextAfter(d, known, frames[..|frames| - 1]), ReturnedContext(d, frames[|frames| - 1]))
  }

  predicate Readable(d: Dialect, frames: seq<Frame>) {
    && frames != []
    && var last := frames[|frames| - 1];
       AcceptedOk(last.httpStatus) && Reading(d, last).Ok?
  }

  /** The meaning of the last response; a task stands in the context known after all of them. */
  function LastMeaning(d: Dialect, known: Option<string>, frames: seq<Frame>): Meaning
    requires Readable(d, frames)
  {
    var read := Reading(d, frames[|frames| - 1]).value;
    if read.Task? then read.(contextId := ContextAfter(d, known, frames)) else read
  }

  /**
   * `meaning` is what stands at the end of these responses; if that is a task, then all of them are about this task
   * and none contradicted the context.
   */
  predicate Says(d: Dialect, known: Option<string>, frames: seq<Frame>, meaning: Meaning) {
    && Readable(d, frames) && meaning == LastMeaning(d, known, frames)
    && (meaning.Task? ==> AllAbout(d, frames, meaning.taskId) && NoClash(d, known, frames))
  }

  lemma SaysMore(d: Dialect, known: Option<string>, frames: seq<Frame>, frame: Frame, id: string)
    requires AllAbout(d, frames, id) && NoClash(d, known, frames) && IsAbout(d, frame, id)
    requires !ContextClash(ContextAfter(d, known, frames), Reading(d, frame).value.contextId)
    ensures var read := Reading(d, frame).value;
            Says(d, known, frames + [frame],
                 read.(contextId := MergeContext(ContextAfter(d, known, frames), read.contextId)))
  {
    hide Reading;
    assert (frames + [frame])[..|frames|] == frames;
  }

  /** What is believed over JSON-RPC answers the request it was recorded for. */
  lemma SaysCorrelated(d: Dialect, known: Option<string>, frames: seq<Frame>, meaning: Meaning)
    requires Says(d, known, frames, meaning) && d.interface.binding == JsonRpc
    ensures var last := frames[|frames| - 1];
            Correlated(last.payload, last.requestId) && (Get(last.payload, "error").Some? ==> meaning.RemoteError?)
  {
    hide ParseSendResponse, ParseRegistrySendResponse, ParseTaskResponse, Correlated, AllAbout, NoClash, ContextAfter;
    var last := frames[|frames| - 1];
    MeaningsAreCorrelated(d.interface, last.payload, last.requestId);
    RegistryExtendsStrict(d.interface, last.payload, last.requestId);
  }

  /**
   * Through any run of responses that never contradict it, a known context id stays the same if and only if no
   * response returns an empty one.
   */
  lemma {:induction false} ContextKept(d: Dialect, known: Option<string>, frames: seq<Frame>)
    requires NonEmptyContext(known) && NoClash(d, known, frames)
    ensures (forall n | 0 <= n <= |frames| :: ContextAfter(d, known, frames[..n]) == known)
       <==> (forall frame <- frames :: ReturnedContext(d, frame) != Some(""))
  {
    hide ReturnedContext;
    if frames != [] {
      var front, last := frames[..|frames| - 1], frames[|frames| - 1];
      ContextKept(d, known, front);
      assert frames[..|frames|] == frames && frames == front + [last];
      assert forall n | 0 <= n <= |front| :: front[..n] == frames[..n];
      if forall n | 0 <= n <= |frames| :: ContextAfter(d, known, frames[..n]) == known {
        assert ContextAfter(d, known, frames[..|front|]) == known
            && ContextAfter(d, known, frames[..|frames|]) == known;
        forall n | 0 <= n <= |front| ensures ContextAfter(d, known, front[..n]) == known {
          assert ContextAfter(d, known, frames[..n]) == known;
        }
      }
      if forall frame <- frames :: ReturnedContext(d, frame) != Some("") {
        assert forall frame <- front :: frame in frames;
        assert front[..|front|] == front && ContextAfter(d, known, front) == known;
        assert last in frames;
        forall n | 0 <= n <= |frames| ensures ContextAfter(d, known, frames[..n]) == known {
          if n <= |front| {
            assert ContextAfter(d, known, front[..n]) == known;
          }
        }
      }
    }
  }

  lemma KeptToTheEnd(d: Dialect, known: Option<string>, frames: seq<Frame>)
    requires NonEmptyContext(known) && NoClash(d, known, frames)
    requires forall frame <- frames :: ReturnedContext(d, frame) != Some("")
    ensures ContextAfter(d, known, frames) == known
  {
    hide ContextAfter, ReturnedContext;
    ContextKept(d, known, frames);
    assert frames[..|frames|] == frames;
    assert ContextAfter(d, known, frames[..|frames|]) == known;
  }

  function WorkingTask(context: string): Json {
    Object(map["id" := String("t"), "contextId" := String(context),
               "status" := Object(map["state" := String("TASK_STATE_WORKING")])])
  }

  /** After an empty context id the next response may bring any other one, and nothing is found to clash. */
  lemma ContextCanBeReplaced() returns (d: Dialect, frames: seq<Frame>)
    ensures AllAbout(d, frames, "t") && NoClash(d, Some("mine"), frames)
    ensures ContextAfter(d, Some("mine"), frames) == Some("other")
  {
    d := Dialect(Interface(V1, HttpJson), false);
    var first := Frame(1, GetTaskOp, 200, None, WorkingTask(""), 1);
    var second := Frame(2, GetTaskOp, 200, None, WorkingTask("other"), 1);
    frames := [first, second];
    assert Reading(d, first) == Ok(Task("t", Some(""), "TASK_STATE_WORKING", InProgress));
    assert Reading(d, second) == Ok(Task("t", Some("other"), "TASK_STATE_WORKING", InProgress));
    assert frames[..1] == [first] && [first][..0] == [];
    assert ContextAfter(d, Some("mine"), [first]) == Some("");
  }

  class Invocation {
    const action: Action
    const interface: Interface
    const registry: bool
    const taskId: string
    const contextId: Option<string>
    const deadline: nat
    const maxPolls: nat
    const pollInitial: nat
    const pollMax: nat
    /** How the network reacts to each attempt, and whether a request can be built at all. */
    const network: nat -> Reaction
    const buildable: nat -> bool
    const requestId: nat -> string
    var now: nat
    var attempts: nat
    var responses: seq<Frame>
    var terminal: Terminal
    var directTaskWarning: bool
    ghost var issued: seq<Issued>

    constructor (
      a: Action, i: Interface, anonymous: bool, task: string, context: Option<string>, limit: nat, polls: nat,
          shortest: nat, longest: nat,
      reactions: nat -> Reaction, builds: nat -> bool, ids: nat -> string, start: nat)
      ensures Valid() && issued == [] && responses == [] && action == a && maxPolls == polls && !terminal.success
      ensures taskId == task && contextId == context && deadline == limit && interface == i && registry == anonymous
    {
      action, interface, registry, taskId, contextId := a, i, anonymous, task, context;
      deadline, maxPolls, pollInitial, pollMax := limit, polls, shortest, longest;
      network, buildable, requestId, now := reactions, builds, ids, start;
      attempts, responses, terminal, directTaskWarning := 0, [],
          ErrorTerminal(ProtocolFailure, "invocation not started"), false;
      issued := [];
    }

    /** Frames are numbered from one and bounded; nothing was sent at or after the deadline. */
    ghost predicate Valid()
      reads this`responses, this`issued
    {
      && (forall k | 0 <= k < |responses| :: responses[k].sequence == k + 1
           && responses[k].wireBytes <= MAX_RESPONSE_BYTES)
      && TotalBytes(responses) <= MAX_TOTAL_RESPONSE_BYTES
      && |responses| <= |issued|
      && forall k | 0 <= k < |issued| :: issued[k].at < deadline
    }

    /** Send one operation, unless the deadline has passed. */
    method ExecuteOperation(operation: Operation) returns (r: Result<Frame, ClientError>)
      requires Valid()
      modifies this`now, this`attempts, this`issued
      ensures Valid() && old(now) <= now
      ensures AtMostOneMore(old(issued), issued, operation)
      ensures r.Ok? ==>
                issued != old(issued) && r.value.wireBytes <= MAX_RESPONSE_BYTES && r.value.operation == operation
      ensures r.Ok? ==>
                r.value.requestId == if interface.binding == JsonRpc then Some(requestId(old(attempts))) else None
      ensures r.Err? && !r.error.Timeout? ==> issued != old(issued)
    {
      var reaction := network(attempts);
      var id := if interface.binding == JsonRpc then Some(requestId(attempts)) else None;
      attempts, now := attempts + 1, now + reaction.lag;
      if now >= deadline {
        return Err(Timeout);
      }
      issued := issued + [Issued(operation, now)];
      assert issued != old(issued) by {
        assert |issued| == |old(issued)| + 1;
      }
      if reaction.duration >= deadline - now {
        now := deadline;
        return Err(Timeout);
      }
      now := now + reaction.duration;
      match reaction.answer {
        case Err(message) => r := Err(Transport(message));
        case Ok(answer) =>
          if 300 <= answer.httpStatus < 400 {
            return Err(Transport("redirects are forbidden for A2A operations"));
          }
          if answer.wireBytes > MAX_RESPONSE_BYTES {
            return Err(TooLarge);
          }
          r := Ok(Frame(0, operation, answer.httpStatus, id, answer.payload, answer.wireBytes));
      }
    }

    /** Record a response under the next number, if the total still fits. */
    method PushFrame(frame: Frame) returns (ok: bool)
      requires Valid() && frame.wireBytes <= MAX_RESPONSE_BYTES && |responses| < |issued|
      modifies this`responses
      ensures Valid()
      ensures ok <==> TotalBytes(old(responses)) + frame.wireBytes <= MAX_TOTAL_RESPONSE_BYTES
      ensures responses == old(responses) + if ok then [frame.(sequence := |old(responses)| + 1)] else []
    {
      var accepted := 0;
      assert responses[..0] == [];
      for k := 0 to |responses|
        invariant accepted == TotalBytes(responses[..k])
      {
        assert responses[..k + 1][..k] == responses[..k];
        accepted := accepted + responses[k].wireBytes;
      }
      assert responses[..|responses|] == responses;
      ok := accepted + frame.wireBytes <= MAX_TOTAL_RESPONSE_BYTES;
      if ok {
        ghost var was := responses;
        responses := responses + [frame.(sequence := |responses| + 1)];
        assert responses[..|was|] == was;
      } else {
        assert responses + [] == responses;
      }
    }

    function Spoken(): Dialect {
      Dialect(interface, registry)
    }

    /** The ending reports what the recorded responses say, and nothing else does. */
    ghost predicate Answered()
      reads this`responses, this`terminal
    {
      && Readable(Spoken(), responses)
      && var meaning := LastMeaning(Spoken(), contextId, responses);
         Says(Spoken(), contextId, responses, meaning) && Reports(terminal, action, meaning)
    }

    /** All responses but the last, if there are several, are about the one task that the ending names. */
    ghost predicate OneTask()
      reads this`responses, this`terminal
    {
      |responses| > 1 ==>
        && terminal.taskId.Some? && (taskId != "" ==> terminal.taskId.value == taskId)
        && AllAbout(Spoken(), responses[..|responses| - 1], terminal.taskId.value)
        && NoClash(Spoken(), contextId, responses[..|responses| - 1])
    }

    /** Ask for a task, or ask for its cancellation, and record what comes back. */
    method TaskExchange(operation: Operation, id: string, context: Option<string>, state: Option<string>)
      returns (r: Result<Meaning, Terminal>)
      requires Valid() && !operation.SendMessage? && (operation.CancelTaskOp? ==> state.None?)
      modifies this`now, this`attempts, this`issued, this`responses
      ensures Valid() && AtMostOneMore(old(issued), issued, operation)
      ensures responses == old(responses) || (|responses| == |old(responses)| + 1 && old(responses) <= responses)
      ensures r.Err? ==> !r.error.success && r.error.taskId == Some(id) && !IsAnswer(r.error.kind)
      ensures r.Err? && r.error.kind.OutcomeUnknown? ==> operation.CancelTaskOp?
      ensures r.Ok? ==>
                && r.value.Task? && r.value.taskId == id && |responses| == |old(responses)| + 1
                && var frame := responses[|old(responses)|];
                   var parsed := ParseTaskResponse(interface, frame.payload, frame.requestId);
                   && frame.operation == operation && AcceptedOk(frame.httpStatus) && parsed.Ok? && parsed.value.Task?
                   && !ContextClash(context, parsed.value.contextId)
                   && r.value == parsed.value.(contextId := MergeContext(context, parsed.value.contextId))
    {
      hide TotalBytes, ParseTaskResponse;
      if !buildable(attempts) {
        return Err(TaskErrorTerminal(ProtocolFailure, id, context, state, "the request cannot be built"));
      }
      ghost var before := issued;
      var response := ExecuteOperation(operation);
      if response.Err? {
        var kind := match response.error {
          case TooLarge => SizeLimit
          case Timeout => if operation.CancelTaskOp? then OutcomeUnknown else TimedOut
          case Transport(_) => if operation.CancelTaskOp? then OutcomeUnknown else TransportError
        };
        return Err(TaskErrorTerminal(kind, id, context, state, "the operation failed"));
      }
      var pushed := PushFrame(response.value);
      if !pushed {
        return Err(TaskErrorTerminal(SizeLimit, id, context, state, "total response size exceeded"));
      }
      var frame := responses[|responses| - 1];
      if !AcceptedOk(frame.httpStatus) {
        return Err(TaskErrorTerminal(ProtocolFailure, id, context, state, "the operation returned an HTTP error"));
      }
      var parsed := ParseTaskResponse(interface, frame.payload, frame.requestId);
      if parsed.Err? || !parsed.value.Task? {
        return Err(TaskErrorTerminal(ProtocolFailure, id, context, state, "the response is no task"));
      }
      if parsed.value.taskId != id {
        return Err(TaskErrorTerminal(ProtocolFailure, id, context, state, "the response has another task id"));
      }
      if ContextClash(context, parsed.value.contextId) {
        return Err(TaskErrorTerminal(ProtocolFailure, id, context, state, "the response has another context id"));
      }
      r := Ok(parsed.value.(contextId := MergeContext(context, parsed.value.contextId)));
    }

    /** The next exchange about a task, after responses that all were about it. */
    method NextExchange(operation: Operation, id: string, state: Option<string>) returns (r: Result<Meaning, Terminal>)
      requires Valid() && !operation.SendMessage? && (operation.CancelTaskOp? ==> state.None?)
      requires AllAbout(Spoken(), responses, id) && NoClash(Spoken(), contextId, responses)
      modifies this`now, this`attempts, this`issued, this`responses
      ensures Valid() && AtMostOneMore(old(issued), issued, operation)
      ensures responses == old(responses) || (|responses| == |old(responses)| + 1 && old(responses) <= responses)
      ensures r.Err? ==> !r.error.success && r.error.taskId == Some(id) && !IsAnswer(r.error.kind)
      ensures r.Err? && r.error.kind.OutcomeUnknown? ==> operation.CancelTaskOp?
      ensures r.Ok? ==>
                && r.value.Task? && r.value.taskId == id && |responses| == |old(responses)| + 1
                && Says(Spoken(), contextId, responses, r.value)
    {
      hide TotalBytes, ParseTaskResponse, AllAbout, NoClash, Says, ContextAfter, MergeContext, ContextClash,
        Invocation.Valid;
      ghost var before := responses;
      r := TaskExchange(operation, id, ContextAfter(Spoken(), contextId, responses), state);
      if r.Ok? {
        ghost var frame := responses[|before|];
        assert responses == before + [frame];
        SaysMore(Spoken(), contextId, before, frame, id);
      }
    }

    /** Send the message, once, and read the answer. */
    method SendExchange() returns (r: Result<Meaning, Terminal>)
      requires Valid() && issued == [] && responses == []
      modifies this`now, this`attempts, this`issued, this`responses, this`directTaskWarning
      ensures Valid() && AtMostOneMore([], issued, SendMessage) && |responses| <= 1
      ensures r.Err? ==> !r.error.success && !IsAnswer(r.error.kind)
      ensures r.Ok? ==>
                && |responses| == 1 && Says(Spoken(), contextId, responses, r.value)
                && (r.value.Task? && taskId != "" ==> r.value.taskId == taskId)
    {
      hide TotalBytes, ParseSendResponse, ParseRegistrySendResponse;
      if !buildable(attempts) {
        return Err(ErrorTerminal(ProtocolFailure, "the request cannot be built"));
      }
      var response := ExecuteOperation(SendMessage);
      if response.Err? {
        var kind := if response.error.TooLarge? then SizeLimit else OutcomeUnknown;
        return Err(ErrorTerminal(kind, "the message was not retried"));
      }
      var pushed := PushFrame(response.value);
      if !pushed {
        return Err(ErrorTerminal(SizeLimit, "total response size exceeded"));
      }
      var frame := responses[0];
      assert responses == [] + [frame];
      if !AcceptedOk(frame.httpStatus) {
        return Err(ErrorTerminal(ProtocolFailure, "SendMessage returned an HTTP error"));
      }
      var parsed := if registry then ParseRegistrySendResponse(interface, frame.payload, frame.requestId)
                    else match ParseSendResponse(interface, frame.payload, frame.requestId) {
                           case Ok(meaning) => Ok((meaning, false))
                           case Err(e) => Err(e)
                         };
      if parsed.Err? {
        return Err(ErrorTerminal(ProtocolFailure, parsed.error.message));
      }
      directTaskWarning := parsed.value.1;
      var meaning := parsed.value.0;
      if !meaning.Task? {
        return Ok(meaning);
      }
      if taskId != "" && taskId != meaning.taskId {
        return Err(ContinuationError("SendMessage returned another task id"));
      }
      if ContextClash(contextId, meaning.contextId) {
        return Err(ContinuationError("SendMessage returned another context id"));
      }
      SaysMore(Spoken(), contextId, [], frame, meaning.taskId);
      r := Ok(meaning.(contextId := MergeContext(contextId, meaning.contextId)));
    }

    function ContinuationError(message: string): Terminal {
      Terminal(ProtocolFailure, if taskId == "" then None else Some(taskId), contextId, None, false, Some(message))
    }

    /** Report an answer that needs no waiting. */
    method Report(meaning: Meaning) returns (ended: bool)
      requires !action.CancelTask? && (meaning.Message? ==> !action.GetTask?)
      modifies this`terminal
      ensures ended <==> !(meaning.Task? && meaning.disposition.InProgress? && !action.Submit?)
      ensures ended ==>
                && !terminal.kind.OutcomeUnknown? && (meaning.Task? ==> terminal.taskId == Some(meaning.taskId))
                && (meaning.Message? ==> terminal.kind.MessageKind?)
                && (if meaning.RemoteError? then !terminal.success && !IsAnswer(terminal.kind)
                    else Reports(terminal, action, meaning))
    {
      ended := true;
      if meaning.Message? {
        terminal := Terminal(MessageKind, None, meaning.contextId, None, true, None);
      } else if meaning.RemoteError? {
        terminal := ErrorTerminal(ProtocolFailure, meaning.message);
      } else {
        match meaning.disposition {
          case Success => terminal := TaskTerminal(TaskKind, meaning, true, None);
          case Interrupted => terminal := TaskTerminal(TaskInterrupted, meaning, true, None);
          case Failure => terminal := TaskTerminal(TaskKind, meaning, false, Some("remote task ended unsuccessfully"));
          case InProgress =>
            if action.Submit? {
              terminal := TaskTerminal(TaskPending, meaning, true, None);
            } else {
              ended := false;
            }
        }
      }
    }

    lemma IsAnswered(meaning: Meaning)
      requires Says(Spoken(), contextId, responses, meaning) && Reports(terminal, action, meaning)
      ensures Answered()
    {
      hide AllAbout, NoClash, ContextAfter, Reading;
    }

    lemma SaysAboutOne(meaning: Meaning)
      requires Says(Spoken(), contextId, responses, meaning)
      ensures meaning.Task? ==>
                AllAbout(Spoken(), responses, meaning.taskId) && NoClash(Spoken(), contextId, responses)
    {
    }

    /** A beginning of responses about one task. */
    lemma EndsOnTask(frames: seq<Frame>)
      requires frames <= responses && |responses| <= |frames| + 1 && frames != [] && terminal.taskId.Some?
      requires taskId != "" ==> terminal.taskId.value == taskId
      requires AllAbout(Spoken(), frames, terminal.taskId.value) && NoClash(Spoken(), contextId, frames)
      ensures OneTask()
    {
      hide IsAbout, ContextAfter;
      if |responses| > 1 && |responses| == |frames| {
        assert frames == responses;
        assert forall frame <- responses[..|responses| - 1] :: frame in responses;
      } else if |responses| > 1 {
        assert responses[..|responses| - 1] == frames;
      }
    }

    /** Wait for the task, polling with growing pauses. */
    method Poll(first: Meaning)
      requires Valid() && Schedule(action, issued) && |issued| == 1 && |responses| == 1
      requires Says(Spoken(), contextId, responses, first) && !action.CancelTask?
                 && (first.Message? ==> !action.GetTask?)
      requires first.Task? && taskId != "" ==> first.taskId == taskId
      modifies this`now, this`attempts, this`issued, this`responses, this`terminal
      ensures Valid() && Schedule(action, issued) && OneTask() && |issued| <= maxPolls + 1
      ensures action.Submit? ==> |issued| == 1
      ensures old(responses) <= responses
      ensures first.Task? ==> terminal.taskId == Some(first.taskId)
      ensures IsAnswer(terminal.kind) && !terminal.kind.MessageKind? ==> first.Task?
      ensures if IsAnswer(terminal.kind) then Answered() else !terminal.success
      ensures !terminal.kind.OutcomeUnknown?
    {
      hide TotalBytes, Reports, Says, ParseTaskResponse, AllAbout, NoClash, Invocation.OneTask, Invocation.Valid,
        Invocation.Answered, IsAbout, ContextAfter, Readable, LastMeaning;
      var meaning, polls := first, 0;
      var pause: nat := pollInitial;
      while true
        invariant Valid() && Schedule(action, issued) && 1 <= |issued| <= polls + 1 <= maxPolls + 1
        invariant old(responses) <= responses && Says(Spoken(), contextId, responses, meaning)
        invariant action.Submit? ==> |issued| == 1
        invariant meaning.Message? ==> !action.GetTask?
        invariant if first.Task? then meaning.Task? && meaning.taskId == first.taskId
                  else meaning == first && |responses| == 1
        decreases maxPolls - polls
      {
        SaysAboutOne(meaning);
        var ended := Report(meaning);
        if ended {
          EndsOn(meaning);
          if !meaning.RemoteError? {
            IsAnswered(meaning);
          }
          return;
        }
        if polls >= maxPolls || now >= deadline {
          terminal := TaskTerminal(TimedOut, meaning, false,
              Some("local wait timed out; remote task outcome is unknown"));
          EndsOnTask(responses);
          return;
        }
        Sleep(pause);
        pause := if pause * 2 < pollMax then pause * 2 else pollMax;
        polls := polls + 1;
        ghost var before := responses;
        var next := NextExchange(GetTaskOp, meaning.taskId, Some(meaning.state));
        if next.Err? {
          terminal := next.error;
          EndsOnTask(before);
          return;
        }
        meaning := next.value;
      }
    }

    lemma EndsOn(meaning: Meaning)
      requires Says(Spoken(), contextId, responses, meaning)
      requires meaning.Task? ==> terminal.taskId == Some(meaning.taskId) && (taskId != "" ==> meaning.taskId == taskId)
      requires !meaning.Task? ==> |responses| == 1
      ensures OneTask()
    {
      hide AllAbout, NoClash, ContextAfter;
      if meaning.Task? {
        EndsOnTask(responses);
      }
    }

    /** Pause, but never beyond the deadline. */
    method Sleep(pause: nat)
      requires now < deadline
      modifies this`now
      ensures old(now) <= now <= deadline
    {
      now := if pause < deadline - now then now + pause else deadline;
    }

    /**
     * One invocation, whatever the remote side does. At most one message is sent and nothing is repeated; every
     * response is recorded within the bounds; all of them are about one task; and the ending reports an answer, success
     * or not, exactly as the last recorded response and the context known by then say it.
     */
    method Invoke(requestOk: bool, cardTime: nat, cardOk: bool, outputModesOk: bool)
      requires Valid() && issued == [] && responses == [] && !terminal.success && !terminal.kind.OutcomeUnknown?
      modifies this
      ensures Valid() && Schedule(action, issued) && OneTask()
      ensures |issued| <= maxPolls + 1 && |responses| <= maxPolls + 1
      ensures action.Submit? || action.CancelTask? ==> |issued| <= 1
      ensures !requestOk || !cardOk ==> issued == [] && !terminal.success
      ensures if IsAnswer(terminal.kind) then Answered() else !terminal.success
      ensures IsAnswer(terminal.kind) && !terminal.kind.MessageKind? && taskId != "" ==> terminal.taskId == Some(taskId)
      ensures terminal.kind.OutcomeUnknown? ==> !action.GetTask? && |issued| <= 1
    {
      hide TotalBytes, Reports, Says, AllAbout, NoClash, Invocation.Answered, Invocation.OneTask;
      NoResponses();
      if !requestOk {
        terminal := ErrorTerminal(ProtocolFailure, "invalid request");
        NoResponses();
        return;
      }
      var inTime := now < deadline;
      now := now + cardTime;
      if !inTime || !cardOk {
        terminal := ErrorTerminal(CardRefreshError, "Agent Card refresh failed");
        NoResponses();
        return;
      }
      match action {
        case GetTask =>
          var first := NextExchange(GetTaskOp, taskId, None);
          Conclude(first);
        case CancelTask =>
          Cancel();
        case _ =>
          if !outputModesOk {
            terminal := ErrorTerminal(CardRefreshError, "no mutually supported output mode is available");
            NoResponses();
            return;
          }
          var first := SendExchange();
          Conclude(first);
      }
    }

    lemma NoResponses()
      requires |responses| <= 1
      ensures OneTask()
      ensures responses == [] ==>
                (forall id: string :: AllAbout(Spoken(), responses, id)) && NoClash(Spoken(), contextId, responses)
    {
    }

    lemma CancelReported(meaning: Meaning)
      requires meaning.Task? && action.CancelTask?
      ensures Reports(CancelTerminal(meaning), action, meaning) && IsAnswer(CancelTerminal(meaning).kind)
    {
    }

    /** Ask once for the cancellation; its answer is the end. */
    method Cancel()
      requires Valid() && issued == [] && responses == [] && action.CancelTask?
      modifies this`now, this`attempts, this`issued, this`responses, this`terminal
      ensures Valid() && Schedule(action, issued) && OneTask() && |issued| <= 1 && |responses| <= 1
      ensures if IsAnswer(terminal.kind) then Answered() && terminal.taskId == Some(taskId) else !terminal.success
    {
      hide TotalBytes, Reports, Says, AllAbout, NoClash, ParseTaskResponse, Invocation.OneTask, IsAnswer,
        Invocation.Answered, CancelTerminal, Invocation.Valid;
      NoResponses();
      var answer := NextExchange(CancelTaskOp, taskId, None);
      if answer.Err? {
        terminal := answer.error;
      } else {
        terminal := CancelTerminal(answer.value);
        CancelReported(answer.value);
        CancelNamesTask(answer.value);
        IsAnswered(answer.value);
      }
      NoResponses();
    }

    lemma CancelNamesTask(meaning: Meaning)
      requires meaning.Task?
      ensures CancelTerminal(meaning).taskId == Some(meaning.taskId)
    {
    }

    /** Go on from the first answer, or end with its error. */
    method Conclude(first: Result<Meaning, Terminal>)
      requires Valid() && Schedule(action, issued) && |issued| <= 1 && |responses| <= 1 && !action.CancelTask?
      requires first.Err? ==>
                 && !first.error.success && !IsAnswer(first.error.kind)
                 && (first.error.kind.OutcomeUnknown? ==> !action.GetTask?)
      requires first.Ok? ==>
                 && |responses| == 1 && Says(Spoken(), contextId, responses, first.value)
                 && (first.value.Message? ==> !action.GetTask?)
                 && (first.value.Task? && taskId != "" ==> first.value.taskId == taskId)
      modifies this`now, this`attempts, this`issued, this`responses, this`terminal
      ensures Valid() && Schedule(action, issued) && OneTask() && |issued| <= maxPolls + 1
      ensures action.Submit? ==> |issued| <= 1
      ensures if IsAnswer(terminal.kind) then Answered() else !terminal.success
      ensures IsAnswer(terminal.kind) && !terminal.kind.MessageKind? && taskId != "" ==> terminal.taskId == Some(taskId)
      ensures terminal.kind.OutcomeUnknown? ==> !action.GetTask? && |issued| <= 1
    {
      hide TotalBytes, Says, AllAbout, NoClash, Invocation.OneTask, Invocation.Answered;
      if first.Err? {
        terminal := first.error;
        NoResponses();
        return;
      }
      Poll(first.value);
    }

    /**
     * Over JSON-RPC an answer is only reported from a response to its own request, and without an error object; and
     * while no response returned an empty context id, a task is reported under the context that was asked for.
     */
    lemma AnswerIsOurs()
      requires Answered()
      ensures interface.binding == JsonRpc ==>
                && responses != []
                && var last := responses[|responses| - 1];
                   Correlated(last.payload, last.requestId) && Get(last.payload, "error").None?
      ensures !terminal.kind.MessageKind? && NonEmptyContext(contextId)
              && (forall frame <- responses :: ReturnedContext(Spoken(), frame) != Some("")) ==>
                terminal.contextId == contextId
    {
      hide AllAbout, NoClash, ContextAfter, Reading, Correlated, ReturnedContext;
      var meaning := LastMeaning(Spoken(), contextId, responses);
      if interface.binding == JsonRpc {
        SaysCorrelated(Spoken(), contextId, responses, meaning);
      }
      if
        && meaning.Task? && NonEmptyContext(contextId)
        && forall frame <- responses :: ReturnedContext(Spoken(), frame) != Some("")
      {
        KeptToTheEnd(Spoken(), contextId, responses);
      }
    }
  }
}
