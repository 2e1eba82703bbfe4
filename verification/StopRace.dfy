// Stop against the terminal event: the runner, the relay, the client and any number of Stop requests, step by step.
module StopRace {
  import opened Wrappers
  import opened RunControl

  /** What travels to the client; `Data` stands for every event that ends nothing. */
  datatype Event = Data(id: nat) | Complete(id: nat) | Error

  predicate IsTerminalEvent(e: Event) {
    e.Complete? || e.Error?
  }

  /** The run task: executing, then storing its result, then finished. */
  datatype RunnerAt = Executing | Storing | Stored | Gone

  datatype RelayAt =
    | Listening
    | Received(event: Event)
    | Forwarding(event: Event)
    | AwaitingFinish(event: Event)
    | AwaitingFinishWithoutTerminal
    | Ended

  /** One Stop request: not made, decided, signalled, answered. */
  datatype StopAt = Idle | Asked(cancelled: bool, signalled: bool) | Acknowledged(cancelled: bool) | Unanswered

  datatype State = State(
    phase: Phase,
    cancelSignal: bool,
    finished: bool,
    persistence: PersistenceState,
    runner: RunnerAt,
    senderAlive: bool,
    agent: seq<Event>,
    taken: nat,
    relay: RelayAt,
    sse: seq<Event>,
    clientGone: bool,
    stops: seq<StopAt>)

  /** Every atomic step; `RunnerCrashes` is a panic or an abort of the run task. */
  datatype Action =
    | RunnerSends(e: Event)
    | RunnerCancels
    | RunnerStores(ok: bool)
    | RunnerFinishes
    | RunnerCrashes
    | SenderDrops
    | RelayStops
    | RelayTakes
    | RelayDecides
    | RelayForwards
    | RelayFindsNoTerminal
    | RelayConcludes
    | StopAsks(i: nat)
    | StopSignals(i: nat)
    | StopAnswers(i: nat)
    | StopGivesUp(i: nat)
    | ClientLeaves

  predicate Initial(s: State) {
    && s.phase == Running && !s.cancelSignal && !s.finished && s.persistence == Pending
    && s.runner == Executing && s.senderAlive && s.agent == [] && s.taken == 0
    && s.relay == Listening && s.sse == [] && !s.clientGone
    && forall stop <- s.stops :: stop == Idle
  }

  predicate Enabled(s: State, a: Action) {
    match a
    case RunnerSends(e) => s.runner == Executing && s.senderAlive && s.relay != Ended && e != Error
    case RunnerCancels => s.runner == Executing && s.relay == Ended
    case RunnerStores(_) => s.runner == Storing
    case RunnerFinishes => s.runner == Stored
    case RunnerCrashes => s.runner != Gone
    case SenderDrops => s.runner != Executing && s.senderAlive
    case RelayStops => (s.cancelSignal || s.clientGone) && (s.relay == Listening || s.relay.Forwarding?)
    case RelayTakes => s.relay == Listening && s.taken < |s.agent|
    case RelayDecides => s.relay.Received?
    case RelayForwards => s.relay.Forwarding? && !s.clientGone
    case RelayFindsNoTerminal => s.relay == Listening && s.taken == |s.agent| && !s.senderAlive
    case RelayConcludes => s.finished && (s.relay.AwaitingFinish? || s.relay == AwaitingFinishWithoutTerminal)
    case StopAsks(i) => i < |s.stops| && s.stops[i] == Idle
    case StopSignals(i) => i < |s.stops| && s.stops[i].Asked? && s.stops[i].cancelled && !s.stops[i].signalled
    case StopAnswers(i) =>
      && i < |s.stops| && s.stops[i].Asked? && (s.stops[i].cancelled ==> s.stops[i].signalled)
      && s.finished && s.persistence == Committed
    case StopGivesUp(i) => i < |s.stops| && s.stops[i].Asked?
    case ClientLeaves => !s.clientGone
  }

  /** The event the client gets for a held-back terminal event. */
  function Shown(persistence: PersistenceState, e: Event): Event {
    if persistence == Committed then e else Error
  }

  function ToClient(s: State, e: Event): seq<Event> {
    if s.clientGone then s.sse else s.sse + [e]
  }

  function Apply(s: State, a: Action): State
    requires Enabled(s, a)
  {
    match a
    case RunnerSends(e) => s.(agent := s.agent + [e], runner := if IsTerminalEvent(e) then Storing else Executing)
    case RunnerCancels => s.(runner := Storing)
    case RunnerStores(ok) => s.(runner := Stored, persistence := if ok then Committed
        else Failed("saving the run failed"))
    case RunnerFinishes => s.(runner := Gone, finished := true)
    case RunnerCrashes => s.(runner := Gone, finished := true)
    case SenderDrops => s.(senderAlive := false)
    case RelayStops => s.(relay := Ended)
    case RelayTakes => s.(relay := Received(s.agent[s.taken]), taken := s.taken + 1)
    case RelayDecides =>
      if !IsTerminalEvent(s.relay.event) then s.(relay := Forwarding(s.relay.event))
      else if s.phase == Running then s.(phase := Terminal, relay := AwaitingFinish(s.relay.event))
      else s.(relay := Ended)
    case RelayForwards => s.(sse := s.sse + [s.relay.event], relay := Listening)
    case RelayFindsNoTerminal => s.(relay := AwaitingFinishWithoutTerminal)
    case RelayConcludes =>
      if s.relay.AwaitingFinish? then s.(sse := ToClient(s, Shown(s.persistence, s.relay.event)), relay := Ended)
      else s.(sse := if s.persistence == Committed then s.sse else ToClient(s, Error), relay := Ended)
    case StopAsks(i) =>
      s.(stops := s.stops[i := Asked(s.phase != Terminal, s.phase == CancelRequested)],
         phase := if s.phase == Running then CancelRequested else s.phase)
    case StopSignals(i) => s.(cancelSignal := true, stops := s.stops[i := Asked(true, true)])
    case StopAnswers(i) => s.(stops := s.stops[i := Acknowledged(s.stops[i].cancelled)])
    case StopGivesUp(i) => s.(stops := s.stops[i := Unanswered])
    case ClientLeaves => s.(clientGone := true)
  }

  predicate Won(stop: StopAt) {
    (stop.Asked? || stop.Acknowledged?) && stop.cancelled
  }

  // ------------------------------------------------------------------------------ invariant

  /** Only the last event of the agent can be terminal, and it ends the execution. */
  predicate AgentOk(s: State) {
    && s.taken <= |s.agent|
    && (forall k | 0 <= k < |s.agent| :: s.agent[k] != Error && (s.agent[k].Complete? ==> k == |s.agent| - 1))
    && (s.runner == Executing ==> forall k | 0 <= k < |s.agent| :: !s.agent[k].Complete?)
  }

  predicate RunnerOk(s: State) {
    && (s.runner == Executing ==> s.senderAlive)
    && (s.runner == Executing || s.runner == Storing ==> s.persistence == Pending)
    && (s.finished <==> s.runner == Gone)
    && (s.runner == Stored ==> s.persistence != Pending)
  }

  /** What the client has, and what the relay still holds, come in order from the agent. */
  predicate RelayOk(s: State)
    requires s.taken <= |s.agent|
  {
    match s.relay
    case Listening => s.sse == s.agent[..s.taken] && NoneTerminal(s.sse)
    case Received(e) => s.taken > 0 && s.sse == s.agent[..s.taken - 1] && e == s.agent[s.taken - 1]
        && NoneTerminal(s.sse)
    case Forwarding(e) =>
      s.taken > 0 && s.sse == s.agent[..s.taken - 1] && e == s.agent[s.taken - 1] && NoneTerminal(s.sse)
          && !IsTerminalEvent(e)
    case AwaitingFinish(e) =>
      && s.taken > 0 && s.sse == s.agent[..s.taken - 1] && e == s.agent[s.taken - 1] && NoneTerminal(s.sse)
      && e.Complete? && s.phase == Terminal
    case AwaitingFinishWithoutTerminal => s.sse <= s.agent && NoneTerminal(s.sse)
    case Ended => Faithful(s.sse, s.agent)
  }

  predicate NoneTerminal(events: seq<Event>) {
    forall e <- events :: !IsTerminalEvent(e)
  }

  /** The client's trace is a prefix of the agent's, or such a prefix without a terminal event and one error. */
  predicate Faithful(sse: seq<Event>, agent: seq<Event>) {
    || sse <= agent
    || (|sse| > 0 && sse[|sse| - 1] == Error && sse[..|sse| - 1] <= agent && NoneTerminal(sse[..|sse| - 1]))
  }

  predicate HasComplete(events: seq<Event>) {
    exists e <- events :: e.Complete?
  }

  predicate ControlOk(s: State) {
    && (HasComplete(s.sse) ==> s.phase == Terminal && s.finished && s.persistence == Committed && s.relay == Ended)
    && (forall i | 0 <= i < |s.stops| :: Won(s.stops[i]) ==> s.phase == CancelRequested)
    && (forall i | 0 <= i < |s.stops| :: s.stops[i].Acknowledged? ==> s.finished && s.persistence == Committed)
    && (forall i | 0 <= i < |s.stops| ::
          (s.stops[i].Asked? || s.stops[i].Acknowledged?) && !s.stops[i].cancelled ==> s.phase == Terminal)
    && (s.cancelSignal ==> s.phase == CancelRequested)
  }

  /** Once the terminal event has won, it is on its way to the client, has arrived, or the client has left. */
  predicate TerminalOk(s: State) {
    s.phase == Terminal ==>
      || s.relay.AwaitingFinish?
      || (s.relay == Ended && (s.clientGone || (|s.sse| > 0 && IsTerminalEvent(s.sse[|s.sse| - 1]) && s.finished
                                                && (s.persistence == Committed ==> s.sse[|s.sse| - 1].Complete?))))
  }

  predicate Inv(s: State) {
    AgentOk(s) && RunnerOk(s) && RelayOk(s) && ControlOk(s) && TerminalOk(s)
  }

  lemma InitialInv(s: State)
    requires Initial(s)
    ensures Inv(s)
  {
    assert forall i | 0 <= i < |s.stops| :: s.stops[i] in s.stops;
  }

  lemma StepKeepsAgent(s: State, a: Action)
    requires Inv(s) && Enabled(s, a)
    ensures AgentOk(Apply(s, a)) && RunnerOk(Apply(s, a))
  {
  }

  lemma PrefixesFaithful(sse: seq<Event>, agent: seq<Event>, more: seq<Event>)
    requires Faithful(sse, agent)
    ensures Faithful(sse, agent + more)
  {
    assert agent <= agent + more;
  }

  lemma SendKeepsRelay(s: State, e: Event)
    requires Inv(s) && Enabled(s, RunnerSends(e))
    ensures RelayOk(Apply(s, RunnerSends(e)))
  {
    PrefixesFaithful(s.sse, s.agent, [e]);
    assert forall n | 0 <= n <= |s.agent| :: (s.agent + [e])[..n] == s.agent[..n];
  }

  lemma ConcludeKeepsRelay(s: State)
    requires s.taken <= |s.agent| && RelayOk(s) && Enabled(s, RelayConcludes)
    ensures RelayOk(Apply(s, RelayConcludes))
  {
    hide Apply, Faithful, NoneTerminal;
    HeldBack(s);
    ErrorIsFaithful(s);
    Concluded(s);
  }

  lemma Concluded(s: State)
    requires Enabled(s, RelayConcludes)
    ensures var t := Apply(s, RelayConcludes);
            && t.relay == Ended && t.agent == s.agent && t.taken == s.taken
            && (t.sse == s.sse || t.sse == s.sse + [Error]
                 || (s.relay.AwaitingFinish? && t.sse == s.sse + [s.relay.event]))
  {
  }

  /** What the client has so far, alone or with the terminal event the relay holds back. */
  lemma HeldBack(s: State)
    requires s.taken <= |s.agent| && RelayOk(s) && (s.relay.AwaitingFinish? || s.relay == AwaitingFinishWithoutTerminal)
    ensures s.sse <= s.agent && NoneTerminal(s.sse)
    ensures s.relay.AwaitingFinish? ==> Faithful(s.sse + [s.relay.event], s.agent)
  {
    hide NoneTerminal;
    if s.relay.AwaitingFinish? {
      assert s.agent[..s.taken] == s.agent[..s.taken - 1] + [s.agent[s.taken - 1]];
    }
  }

  /** Putting one error behind an unfinished prefix is still faithful. */
  lemma ErrorIsFaithful(s: State)
    requires s.sse <= s.agent && NoneTerminal(s.sse)
    ensures Faithful(s.sse, s.agent) && Faithful(s.sse + [Error], s.agent)
  {
    assert (s.sse + [Error])[..|s.sse|] == s.sse;
  }

  lemma ForwardKeepsRelay(s: State)
    requires Inv(s) && Enabled(s, RelayForwards)
    ensures RelayOk(Apply(s, RelayForwards))
  {
    hide TerminalOk, ControlOk, RunnerOk, Faithful;
    assert s.agent[..s.taken] == s.agent[..s.taken - 1] + [s.agent[s.taken - 1]];
  }

  lemma RelayMovesKeepRelay(s: State, a: Action)
    requires Inv(s) && Enabled(s, a) && (a.RelayStops? || a.RelayTakes? || a.RelayDecides? || a.RelayFindsNoTerminal?)
    ensures RelayOk(Apply(s, a))
  {
    hide TerminalOk, ControlOk, RunnerOk, NoneTerminal;
    assert s.agent[..|s.agent|] == s.agent;
  }

  lemma StepKeepsRelay(s: State, a: Action)
    requires Inv(s) && Enabled(s, a)
    ensures RelayOk(Apply(s, a))
  {
    if a.RunnerSends? {
      SendKeepsRelay(s, a.e);
    } else if a.RelayConcludes? {
      ConcludeKeepsRelay(s);
    } else if a.RelayForwards? {
      ForwardKeepsRelay(s);
    } else if a.RelayStops? || a.RelayTakes? || a.RelayDecides? || a.RelayFindsNoTerminal? {
      RelayMovesKeepRelay(s, a);
    } else {
      OthersKeepRelay(s, a);
    }
  }

  lemma OthersKeepRelay(s: State, a: Action)
    requires Inv(s) && Enabled(s, a)
    requires var t := Apply(s, a);
             t.agent == s.agent && t.taken == s.taken && t.relay == s.relay && t.sse == s.sse
                 && (s.phase == Terminal ==> t.phase == Terminal)
    ensures RelayOk(Apply(s, a))
  {
    hide AgentOk, RunnerOk, ControlOk, TerminalOk, Enabled, Apply, Faithful, NoneTerminal;
  }

  lemma ForwardKeepsControl(s: State)
    requires Inv(s) && Enabled(s, RelayForwards)
    ensures ControlOk(Apply(s, RelayForwards))
  {
    hide TerminalOk, RunnerOk, Faithful, NoneTerminal;
    var t := Apply(s, RelayForwards);
    assert forall e <- t.sse :: e in s.sse || e == s.relay.event;
  }

  lemma ConcludeKeepsControl(s: State)
    requires Inv(s) && Enabled(s, RelayConcludes)
    ensures ControlOk(Apply(s, RelayConcludes))
  {
    hide AgentOk, TerminalOk, RunnerOk, Faithful;
    var t := Apply(s, RelayConcludes);
    assert forall e <- t.sse :: e in s.sse || e == t.sse[|t.sse| - 1];
  }

  lemma StepKeepsControl(s: State, a: Action)
    requires Inv(s) && Enabled(s, a)
    ensures ControlOk(Apply(s, a))
  {
    hide AgentOk, TerminalOk, Faithful, HasComplete;
    if a.RelayForwards? {
      ForwardKeepsControl(s);
    } else if a.RelayConcludes? {
      ConcludeKeepsControl(s);
    } else if a.StopAsks? || a.StopSignals? || a.StopAnswers? || a.StopGivesUp? {
      StopsKeepControl(s, a);
    }
  }

  lemma StopsKeepControl(s: State, a: Action)
    requires Inv(s) && Enabled(s, a) && (a.StopAsks? || a.StopSignals? || a.StopAnswers? || a.StopGivesUp?)
    ensures ControlOk(Apply(s, a))
  {
    hide AgentOk, TerminalOk, Faithful, HasComplete, RelayOk;
  }

  lemma StepKeepsTerminal(s: State, a: Action)
    requires Inv(s) && Enabled(s, a)
    ensures TerminalOk(Apply(s, a))
  {
  }

  /** Every step keeps the invariant. */
  lemma StepInv(s: State, a: Action)
    requires Inv(s) && Enabled(s, a)
    ensures Inv(Apply(s, a))
  {
    hide Enabled, Apply, AgentOk, RunnerOk, RelayOk, ControlOk, TerminalOk;
    StepKeepsAgent(s, a);
    StepKeepsRelay(s, a);
    StepKeepsControl(s, a);
    StepKeepsTerminal(s, a);
  }

  // ----------------------------------------------------------------------------- behaviours

  /** An interleaving: states joined by enabled steps. */
  ghost predicate Behaviour(states: seq<State>, actions: seq<Action>) {
    && |states| == |actions| + 1 && Initial(states[0])
    && forall i | 0 <= i < |actions| :: Enabled(states[i], actions[i]) && states[i + 1] == Apply(states[i], actions[i])
  }

  lemma {:induction false} AlwaysInv(states: seq<State>, actions: seq<Action>, i: nat)
    requires Behaviour(states, actions) && i < |states|
    ensures Inv(states[i])
  {
    hide Enabled, Apply, Inv;
    if i == 0 {
      InitialInv(states[0]);
    } else {
      AlwaysInv(states, actions, i - 1);
      assert Enabled(states[i - 1], actions[i - 1]);
      StepInv(states[i - 1], actions[i - 1]);
    }
  }

  /** In every interleaving and at every moment: Stop and the terminal event never both win. */
  lemma OneWinner(states: seq<State>, actions: seq<Action>, i: nat)
    requires Behaviour(states, actions) && i < |states|
    ensures (exists k | 0 <= k < |states[i].stops| :: Won(states[i].stops[k])) ==>
              states[i].phase == CancelRequested && !states[i].relay.AwaitingFinish? && !HasComplete(states[i].sse)
  {
    AlwaysInv(states, actions, i);
  }

  /** A completion the client sees was stored before, by a task that had finished; nothing follows it. */
  lemma CompleteIsDurable(states: seq<State>, actions: seq<Action>, i: nat)
    requires Behaviour(states, actions) && i < |states| && HasComplete(states[i].sse)
    ensures states[i].finished && states[i].persistence == Committed && states[i].sse[|states[i].sse| - 1].Complete?
  {
    hide Behaviour;
    AlwaysInv(states, actions, i);
    var s := states[i];
    var k :| 0 <= k < |s.sse| && s.sse[k].Complete?;
    CompleteIsLast(s, k);
  }

  lemma CompleteIsLast(s: State, k: nat)
    requires AgentOk(s) && Faithful(s.sse, s.agent) && k < |s.sse| && s.sse[k].Complete?
    ensures k == |s.sse| - 1
  {
    if k < |s.sse| - 1 {
      NotBeforeLast(s, k);
    }
  }

  lemma NotBeforeLast(s: State, k: nat)
    requires AgentOk(s) && Faithful(s.sse, s.agent) && k < |s.sse| - 1
    ensures !s.sse[k].Complete?
  {
    if s.sse <= s.agent {
      assert s.sse[k] == s.agent[k];
    } else {
      var front := s.sse[..|s.sse| - 1];
      assert s.sse[k] == front[k] && front[k] in front;
    }
  }

  /** What the client saw is a prefix of what the agent sent, or such a prefix and one error. */
  lemma ClientTraceIsFaithful(states: seq<State>, actions: seq<Action>, i: nat)
    requires Behaviour(states, actions) && i < |states|
    ensures Faithful(states[i].sse, states[i].agent)
  {
    AlwaysInv(states, actions, i);
    var s := states[i];
    assert s.agent[..s.taken] <= s.agent;
    assert s.taken > 0 ==> s.agent[..s.taken - 1] <= s.agent;
  }

  lemma PhaseSticks(s: State, a: Action)
    requires Enabled(s, a) && s.phase != Running
    ensures Apply(s, a).phase == s.phase
  {
  }

  lemma {:induction false} PhaseStays(states: seq<State>, actions: seq<Action>, i: nat, j: nat)
    requires Behaviour(states, actions) && i <= j < |states| && states[i].phase != Running
    ensures states[j].phase == states[i].phase
    decreases j
  {
    hide Enabled, Apply;
    if i < j {
      PhaseStays(states, actions, i, j - 1);
      assert Enabled(states[j - 1], actions[j - 1]);
      PhaseSticks(states[j - 1], actions[j - 1]);
    }
  }

  /** After an acknowledged successful Stop the client never sees a completion, however long one waits. */
  lemma AcknowledgedStopIsFinal(states: seq<State>, actions: seq<Action>, i: nat, stop: nat, j: nat)
    requires Behaviour(states, actions) && i < |states| && j < |states|
    requires stop < |states[i].stops| && states[i].stops[stop] == Acknowledged(true)
    ensures !HasComplete(states[j].sse)
  {
    AlwaysInv(states, actions, i);
    AlwaysInv(states, actions, j);
    if i <= j {
      PhaseStays(states, actions, i, j);
    } else if states[j].phase != Running {
      PhaseStays(states, actions, j, i);
    }
  }

  /** A Stop answered with `cancelled: false` lost to a terminal event that the client gets, unless it has left. */
  lemma RefusedStopMeansCompletion(states: seq<State>, actions: seq<Action>, i: nat, stop: nat)
    requires Behaviour(states, actions) && i < |states|
    requires stop < |states[i].stops| && states[i].stops[stop] == Acknowledged(false)
    ensures states[i].finished && states[i].persistence == Committed
    ensures HasComplete(states[i].sse) || states[i].clientGone
              || (states[i].relay.AwaitingFinish? && states[i].relay.event.Complete?)
  {
    AlwaysInv(states, actions, i);
    var s := states[i];
    if !s.clientGone && s.relay == Ended {
      assert s.sse[|s.sse| - 1] in s.sse;
    }
  }

  // ---------------------------------------------------------------- what a stopped run has done

  predicate Completes(a: Action) {
    a.RunnerSends? && a.e.Complete?
  }

  /** The agent completed within the first `i` steps. */
  ghost predicate HasCompleted(actions: seq<Action>, i: nat)
    requires i <= |actions|
  {
    exists k | 0 <= k < i :: Completes(actions[k])
  }

  /** The agent gave up within the first `i` steps, because nobody listened any more. */
  ghost predicate HasGivenUp(actions: seq<Action>, i: nat)
    requires i <= |actions|
  {
    exists k | 0 <= k < i :: actions[k].RunnerCancels?
  }

  lemma StillAmong(actions: seq<Action>, i: nat)
    requires i < |actions|
    ensures HasCompleted(actions, i + 1) <==> HasCompleted(actions, i) || Completes(actions[i])
    ensures HasGivenUp(actions, i + 1) <==> HasGivenUp(actions, i) || actions[i].RunnerCancels?
  {
  }

  lemma AgentStep(s: State, a: Action)
    requires Enabled(s, a)
    ensures HasComplete(Apply(s, a).agent) <==> HasComplete(s.agent) || Completes(a)
  {
    if a.RunnerSends? {
      assert forall e <- s.agent :: e in s.agent + [a.e];
      assert a.e in s.agent + [a.e];
    }
  }

  lemma {:induction false} RunnerLeaves(states: seq<State>, actions: seq<Action>, i: nat)
    requires Behaviour(states, actions) && i < |states|
    ensures HasCompleted(actions, i) <==> HasComplete(states[i].agent)
    ensures states[i].runner == Executing ==> !HasCompleted(actions, i) && !HasGivenUp(actions, i)
    ensures !(HasCompleted(actions, i) && HasGivenUp(actions, i))
    ensures states[i].runner == Storing || states[i].persistence != Pending ==>
              HasCompleted(actions, i) || HasGivenUp(actions, i)
  {
    hide HasCompleted, HasGivenUp, HasComplete, Inv;
    if i == 0 {
      NothingDone(states[0], actions);
    } else {
      RunnerLeaves(states, actions, i - 1);
      assert Enabled(states[i - 1], actions[i - 1]) && states[i] == Apply(states[i - 1], actions[i - 1]);
      StillAmong(actions, i - 1);
      AgentStep(states[i - 1], actions[i - 1]);
    }
  }

  lemma NothingDone(s: State, actions: seq<Action>)
    requires Initial(s)
    ensures !HasCompleted(actions, 0) && !HasGivenUp(actions, 0) && !HasComplete(s.agent)
  {
  }

  /**
   * What an acknowledged Stop says about the run itself. Either the agent had completed, which it can only do while the
   * relay still listens, or it gave up, which it only does after the relay has ended; never both, and nothing else.
   */
  lemma StoppedRunOutcome(states: seq<State>, actions: seq<Action>, i: nat, stop: nat)
    requires Behaviour(states, actions) && i < |states|
    requires stop < |states[i].stops| && states[i].stops[stop] == Acknowledged(true)
    ensures HasComplete(states[i].agent) <==> exists k | 0 <= k < i :: Completes(actions[k]) && states[k].relay != Ended
    ensures !HasComplete(states[i].agent) <==>
              exists k | 0 <= k < i :: actions[k].RunnerCancels? && states[k].relay == Ended
  {
    hide Inv, HasComplete;
    AlwaysInv(states, actions, i);
    AcknowledgedIsStored(states[i], stop);
    RunnerLeaves(states, actions, i);
    assert forall k | 0 <= k < i :: Enabled(states[k], actions[k]);
  }

  lemma AcknowledgedIsStored(s: State, stop: nat)
    requires Inv(s) && stop < |s.stops| && s.stops[stop].Acknowledged?
    ensures s.persistence == Committed
  {
  }

  predicate Joins(s: State, a: Action, t: State) {
    Enabled(s, a) && t == Apply(s, a)
  }

  lemma Extend(states: seq<State>, actions: seq<Action>, a: Action, t: State)
    requires Behaviour(states, actions) && Joins(states[|states| - 1], a, t)
    ensures Behaviour(states + [t], actions + [a])
  {
    hide Enabled, Apply;
  }

  /** The agent completes, Stop wins the race, and the relay stops before it has looked at the completion. */
  lemma StopOvertakes() returns (states: seq<State>, actions: seq<Action>)
    ensures Behaviour(states, actions)
    ensures var s := states[|states| - 1];
            && s.relay == Ended && s.stops == [Asked(true, true)] && s.agent == [Complete(0)] && s.sse == []
                 && s.runner == Storing
  {
    hide Faithful;
    var s0 := State(Running, false, false, Pending, Executing, true, [], 0, Listening, [], false, [Idle]);
    var s1 := State(Running, false, false, Pending, Storing, true, [Complete(0)], 0, Listening, [], false, [Idle]);
    var s2 := s1.(phase := CancelRequested, stops := [Asked(true, false)]);
    var s3 := s2.(cancelSignal := true, stops := [Asked(true, true)]);
    assert Joins(s0, RunnerSends(Complete(0)), s1);
    assert Joins(s1, StopAsks(0), s2);
    assert Joins(s2, StopSignals(0), s3);
    assert Behaviour([s0], []);
    Extend([s0], [], RunnerSends(Complete(0)), s1);
    Extend([s0] + [s1], [] + [RunnerSends(Complete(0))], StopAsks(0), s2);
    Extend([s0] + [s1] + [s2], [] + [RunnerSends(Complete(0))] + [StopAsks(0)], StopSignals(0), s3);
    states, actions := [s0] + [s1] + [s2] + [s3], [] + [RunnerSends(Complete(0))] + [StopAsks(0)] + [StopSignals(0)];
    Extend(states, actions, RelayStops, s3.(relay := Ended));
    states, actions := states + [s3.(relay := Ended)], actions + [RelayStops];
  }

  /**
   * An acknowledged Stop does not mean that the run was cancelled: the agent may have completed, unseen by the client.
   */
  lemma StoppedRunMayHaveCompleted() returns (states: seq<State>, actions: seq<Action>)
    ensures Behaviour(states, actions)
    ensures var last := states[|states| - 1];
            last.stops == [Acknowledged(true)] && HasComplete(last.agent) && last.sse == []
  {
    states, actions := StopOvertakes();
    var s4 := states[|states| - 1];
    var s5 := s4.(runner := Stored, persistence := Committed);
    var s6 := s5.(runner := Gone, finished := true);
    var s7 := s6.(stops := [Acknowledged(true)]);
    assert Joins(s4, RunnerStores(true), s5);
    assert Joins(s5, RunnerFinishes, s6);
    assert Joins(s6, StopAnswers(0), s7);
    Extend(states, actions, RunnerStores(true), s5);
    Extend(states + [s5], actions + [RunnerStores(true)], RunnerFinishes, s6);
    Extend(states + [s5] + [s6], actions + [RunnerStores(true)] + [RunnerFinishes], StopAnswers(0), s7);
    states, actions := states + [s5] + [s6] + [s7], actions + [RunnerStores(true)] + [RunnerFinishes]
        + [StopAnswers(0)];
    assert Complete(0) in s7.agent;
  }
}
