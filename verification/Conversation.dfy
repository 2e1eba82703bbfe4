// Messages, events, and what a transcript says about the events that were delivered.
module Conversation {
  import opened Wrappers
  import opened ToolDeltas

  // --------------------------------------------------------------------------- values

  datatype Role = System | User | Assistant | ToolRole

  datatype Usage = Usage(input: nat, output: nat, cacheHit: nat, cacheMiss: nat)

  const NO_USAGE := Usage(0, 0, 0, 0)

  datatype Message = Message(
    role: Role,
    content: Option<string>,
    toolCalls: Option<seq<ToolCall>>,
    toolCallId: Option<string>,
    name: Option<string>,
    reasoning: Option<string>,
    usage: Option<Usage>,
    isError: Option<bool>,
    notice: bool)

  datatype ToolResult = ToolResult(callId: string, content: string, isError: bool)

  datatype PlanStep = PlanStep(title: string, status: string)

  datatype PlanState = PlanState(steps: seq<PlanStep>, approved: bool, researchQuestion: Option<string>)

  datatype PendingAsk = PendingAsk(question: string, options: seq<string>, header: Option<string>)

  datatype FrameStatus =
    | Processing | Completed | Failed | Success | Replaced | CancelledStatus
    | AwaitingPlanApproval | AwaitingPlanExecution | AwaitingUserResponse

  datatype CompleteKind = Natural | Awaiting | MaxIters | ErrorKind | Cancelled

  datatype Terminal = Terminal(
    kind: CompleteKind, finalText: string, awaiting: Option<string>, error: Option<string>, usage: Usage,
    iterations: nat, frameStatus: FrameStatus, pendingAsk: Option<PendingAsk>, plan: Option<PlanState>)

  datatype AgentEvent =
    | Start(frameId: string, summary: string)
    | Iteration(n: nat)
    | Thinking(text: string)
    | Text(text: string)
    | DraftReset(reason: string)
    | ToolCalls(calls: seq<ToolCall>)
    | ToolResults(results: seq<ToolResult>)
    | PlanUpdate(plan: PlanState)
    | Complete(terminal: Terminal)
    | ErrorEvent(message: string)

  function Plain(role: Role, text: string): Message {
    Message(role, Some(text), None, None, None, None, None, None, false)
  }

  function Notice(text: string): Message {
    Plain(System, text).(notice := true)
  }

  function ToolMessage(id: string, text: string, name: Option<string>, isError: bool): Message {
    Plain(ToolRole, text).(toolCallId := Some(id), name := name, isError := Some(isError))
  }

  // -------------------------------------------------------------------- published turns

  /** The part of the current iteration that has been delivered but is not yet history. */
  datatype PublishedTurn = PublishedTurn(thinking: string, text: string, toolCalls: Option<seq<ToolCall>>)

  const NOTHING := PublishedTurn("", "", None)

  predicate IsEmpty(turn: PublishedTurn) {
    turn.thinking == "" && turn.text == "" && (turn.toolCalls.None? || turn.toolCalls.value == [])
  }

  function NonEmpty(s: string): Option<string> {
    if s == "" then None else Some(s)
  }

  function IntoMessage(turn: PublishedTurn, usage: Usage): Option<Message> {
    if IsEmpty(turn) then None
    else Some(Message(
      Assistant,
      if turn.toolCalls.Some? then NonEmpty(turn.text) else Some(turn.text),
      turn.toolCalls, None, None, NonEmpty(turn.thinking),
      if usage.input != 0 || usage.output != 0 then Some(usage) else None,
      None, false))
  }

  /** What an assistant message shows. */
  function Shows(m: Message): PublishedTurn {
    PublishedTurn(
      if m.reasoning.Some? then m.reasoning.value else "",
      if m.content.Some? then m.content.value else "",
      m.toolCalls)
  }

  /** Turning a published turn into a message loses nothing of it. */
  lemma MessageShowsTurn(turn: PublishedTurn, usage: Usage)
    requires !IsEmpty(turn)
    ensures IntoMessage(turn, usage).Some?
    ensures var m := IntoMessage(turn, usage).value;
            m.role == Assistant && !m.notice && Shows(m) == turn && Shows(m.(notice := true)) == turn
  {
  }

  // ------------------------------------------------------------------- paired histories

  function CallsOf(m: Message): seq<ToolCall> {
    if m.role == Assistant && m.toolCalls.Some? then m.toolCalls.value else []
  }

  /** One tool message per call, in order. */
  predicate Answers(replies: seq<Message>, calls: seq<ToolCall>) {
    && |replies| == |calls|
    && forall i | 0 <= i < |calls| ::
         replies[i].role == ToolRole && replies[i].toolCalls.None? && replies[i].toolCallId == Some(calls[i].id)
  }

  /**
   * Every batch of calls is an assistant's and is followed at once by exactly its results; results occur nowhere else.
   */
  predicate WellPaired(ms: seq<Message>) {
    ms == []
    || (var calls := CallsOf(ms[0]);
        && ms[0].role != ToolRole && (ms[0].toolCalls.Some? ==> ms[0].role == Assistant)
        && 1 + |calls| <= |ms|
        && Answers(ms[1..1 + |calls|], calls)
        && WellPaired(ms[1 + |calls|..]))
  }

  lemma {:induction false} WellPairedConcat(a: seq<Message>, b: seq<Message>)
    requires WellPaired(a) && WellPaired(b)
    ensures WellPaired(a + b)
    decreases |a|
  {
    hide CallsOf, Answers;
    if a == [] {
      assert a + b == b;
    } else {
      var n := 1 + |CallsOf(a[0])|;
      WellPairedConcat(a[n..], b);
      assert (a + b)[0] == a[0];
      assert (a + b)[1..n] == a[1..n];
      assert (a + b)[n..] == a[n..] + b;
    }
  }

  lemma WellPairedTurn(m: Message, replies: seq<Message>)
    requires m.role != ToolRole && (m.toolCalls.Some? ==> m.role == Assistant) && Answers(replies, CallsOf(m))
    ensures WellPaired([m] + replies)
  {
    var ms := [m] + replies;
    assert ms[1..1 + |replies|] == replies;
    assert ms[1 + |replies|..] == [];
  }

  /** What follows a paired beginning of a paired history is paired itself. */
  lemma {:induction false} WellPairedSuffix(a: seq<Message>, b: seq<Message>)
    requires WellPaired(a) && WellPaired(a + b)
    ensures WellPaired(b)
    decreases |a|
  {
    hide CallsOf, Answers;
    if a == [] {
      assert a + b == b;
    } else {
      var n := 1 + |CallsOf(a[0])|;
      assert (a + b)[0] == a[0];
      assert (a + b)[n..] == a[n..] + b;
      WellPairedSuffix(a[n..], b);
    }
  }

  // -------------------------------------------- what a transcript shows and what it hides

  /** What the visible assistant messages show, in order. */
  function Visible(ms: seq<Message>): seq<PublishedTurn> {
    if ms == [] then []
    else
      var last := ms[|ms| - 1];
      Visible(ms[..|ms| - 1]) + if last.role == Assistant && !last.notice then [Shows(last)] else []
  }

  /** What the hidden assistant messages show, in order. */
  function Hidden(ms: seq<Message>): seq<PublishedTurn> {
    if ms == [] then []
    else
      var last := ms[|ms| - 1];
      Hidden(ms[..|ms| - 1]) + if last.role == Assistant && last.notice then [Shows(last)] else []
  }

  lemma {:induction false} VisibleConcat(a: seq<Message>, b: seq<Message>)
    ensures Visible(a + b) == Visible(a) + Visible(b) && Hidden(a + b) == Hidden(a) + Hidden(b)
    decreases |b|
  {
    if b == [] {
      assert a + b == a;
    } else {
      var front := b[..|b| - 1];
      assert (a + b)[..|a + b| - 1] == a + front;
      VisibleConcat(a, front);
    }
  }

  lemma {:induction false} NoAssistantIsInvisible(ms: seq<Message>)
    requires forall m <- ms :: m.role != Assistant
    ensures Visible(ms) == [] && Hidden(ms) == []
  {
    if ms != [] {
      assert ms[|ms| - 1] in ms;
      NoAssistantIsInvisible(ms[..|ms| - 1]);
    }
  }

  // --------------------------------------------------------------- the ledger of a run

  /** Delivered turns by iteration: finished ones, the one still open, and those taken back. */
  datatype Ledger = Ledger(done: seq<PublishedTurn>, open: PublishedTurn, retracted: seq<PublishedTurn>)

  const NO_TURNS := Ledger([], NOTHING, [])

  function Record(ledger: Ledger, e: AgentEvent): Ledger {
    match e
    case Iteration(_) => Ledger(Turns(ledger), NOTHING, ledger.retracted)
    case Thinking(text) => ledger.(open := ledger.open.(thinking := ledger.open.thinking + text))
    case Text(text) => ledger.(open := ledger.open.(text := ledger.open.text + text))
    case ToolCalls(calls) => ledger.(open := ledger.open.(toolCalls := Some(calls)))
    case DraftReset(_) =>
      Ledger(ledger.done, NOTHING, ledger.retracted + if IsEmpty(ledger.open) then [] else [ledger.open])
    case _ => ledger
  }

  function LedgerOf(events: seq<AgentEvent>): Ledger {
    if events == [] then NO_TURNS else Record(LedgerOf(events[..|events| - 1]), events[|events| - 1])
  }

  /** All delivered turns that were not taken back. */
  function Turns(ledger: Ledger): seq<PublishedTurn> {
    ledger.done + if IsEmpty(ledger.open) then [] else [ledger.open]
  }

  lemma LedgerStep(events: seq<AgentEvent>, e: AgentEvent)
    ensures LedgerOf(events + [e]) == Record(LedgerOf(events), e)
  {
    assert (events + [e])[..|events|] == events;
  }

  // ------------------------------------------------------------- the record of one run

  /** The messages from `start` on are paired and show exactly these turns, visible and hidden. */
  ghost predicate Records(ms: seq<Message>, start: nat, visible: seq<PublishedTurn>, hidden: seq<PublishedTurn>) {
    && start <= |ms| && WellPaired(ms)
    && Visible(ms[start..]) == visible && Hidden(ms[start..]) == hidden
  }

  /** Messages that no reader takes for an assistant turn. */
  predicate Silent(m: Message) {
    (m.role == System || m.role == User) && m.toolCalls.None?
  }

  lemma RecordsSilent(ms: seq<Message>, start: nat, visible: seq<PublishedTurn>, hidden: seq<PublishedTurn>,
      m: Message)
    requires Records(ms, start, visible, hidden) && Silent(m)
    ensures Records(ms + [m], start, visible, hidden)
  {
    WellPairedTurn(m, []);
    assert [m] + [] == [m];
    WellPairedConcat(ms, [m]);
    assert (ms + [m])[start..] == ms[start..] + [m];
    VisibleConcat(ms[start..], [m]);
    NoAssistantIsInvisible([m]);
    assert visible + [] == visible && hidden + [] == hidden;
  }

  lemma RecordsTurn(
    ms: seq<Message>, start: nat, visible: seq<PublishedTurn>, hidden: seq<PublishedTurn>, m: Message,
        replies: seq<Message>)
    requires Records(ms, start, visible, hidden) && m.role == Assistant && Answers(replies, CallsOf(m))
    ensures Records(ms + [m] + replies, start,
                    if m.notice then visible else visible + [Shows(m)], if m.notice then hidden + [Shows(m)]
                        else hidden)
  {
    hide WellPaired, CallsOf, Shows, Visible, Hidden;
    var turn := [m] + replies;
    WellPairedTurn(m, replies);
    WellPairedConcat(ms, turn);
    assert ms + [m] + replies == ms + turn;
    assert (ms + turn)[start..] == ms[start..] + turn;
    VisibleConcat(ms[start..], turn);
    VisibleConcat([m], replies);
    NoAssistantIsInvisible(replies);
    ShowsItself(m);
    assert visible + [] == visible && hidden + [] == hidden;
  }

  lemma ShowsItself(m: Message)
    requires m.role == Assistant
    ensures Visible([m]) == (if m.notice then [] else [Shows(m)])
    ensures Hidden([m]) == (if m.notice then [Shows(m)] else [])
  {
    assert [m][..0] == [];
  }
}
