// Stop as the service answers it: looking the run up in the registry first, racing against its terminal event second.
module StopService {
  import opened Wrappers
  import opened RunControl
  import R = StopRace

  /** One Stop request: not arrived, holding the run's control, or answered at once because no control was found. */
  datatype Caller = Waiting | WithControl | ToldTrue

  /** Everything about one run id: the registry it shares with all others, its run if one was accepted, its Stops. */
  datatype World = World(registry: Registry, run: Option<R.State>, requested: bool, callers: seq<Caller>)

  /**
   * Atomic steps: other runs at the registry, this id's one stream request, a Stop's lookup, a step of the run itself.
   */
  datatype Move =
    | Elsewhere(op: Op)
    | RegisterOwn
    | StopCalls(i: nat)
    | Inner(a: R.Action)

  function FreshRun(stops: nat): R.State {
    R.State(
      Running, false, false, Pending, R.Executing, true, [], 0, R.Listening, [], false,
      seq(stops, _ => R.Idle))
  }

  predicate Enabled(own: Key, w: World, m: Move) {
    match m
    case Elsewhere(op) => op.key != own
    case RegisterOwn => !w.requested
    case StopCalls(i) => i < |w.callers| && w.callers[i] == Waiting
    case Inner(a) =>
      && w.run.Some? && R.Enabled(w.run.value, a)
      && (a.StopAsks? ==> a.i < |w.callers| && w.callers[a.i] == WithControl)
  }

  /** The registry sees through its shared control whether the run is over. */
  function Synchronised(own: Key, r: Registry, run: R.State): Registry {
    if own in r.finished then r.(finished := r.finished[own := run.finished]) else r
  }

  function Next(own: Key, w: World, m: Move): World
    requires Enabled(own, w, m)
  {
    match m
    case Elsewhere(op) => w.(registry := Step(w.registry, op))
    case RegisterOwn =>
      var (registry, accepted) := Registered(w.registry, own, false);
      w.(registry := registry, requested := true, run := if accepted then Some(FreshRun(|w.callers|)) else None)
    case StopCalls(i) =>
      if own in w.registry.finished then w.(callers := w.callers[i := WithControl])
      else w.(registry := Looked(w.registry, own), callers := w.callers[i := ToldTrue])
    case Inner(a) =>
      var run := R.Apply(w.run.value, a);
      w.(run := Some(run), registry := Synchronised(own, w.registry, run))
  }

  /** No step for this run id has been taken yet; the registry may already serve any other runs. */
  ghost predicate Initial(own: Key, w: World) {
    && Consistent(w.registry) && own !in w.registry.finished && own !in w.registry.pre
    && w.run.None? && !w.requested && forall c <- w.callers :: c == Waiting
  }

  predicate Possible(own: Key, w: World, moves: seq<Move>)
    decreases |moves|, 0
  {
    moves != [] ==>
      && Possible(own, w, moves[..|moves| - 1])
      && Enabled(own, After(own, w, moves[..|moves| - 1]), moves[|moves| - 1])
  }

  function After(own: Key, w: World, moves: seq<Move>): World
    requires Possible(own, w, moves)
    decreases |moves|, 1
  {
    if moves == [] then w else Next(own, After(own, w, moves[..|moves| - 1]), moves[|moves| - 1])
  }

  /** The world after the first `n` moves. */
  function At(own: Key, w: World, moves: seq<Move>, n: nat): World
    requires Possible(own, w, moves) && n <= |moves|
  {
    PrefixPossible(own, w, moves, n);
    After(own, w, moves[..n])
  }

  lemma {:induction false} PrefixPossible(own: Key, w: World, moves: seq<Move>, n: nat)
    requires Possible(own, w, moves) && n <= |moves|
    ensures Possible(own, w, moves[..n])
    decreases |moves|
  {
    if n == |moves| {
      assert moves[..n] == moves;
    } else {
      PrefixPossible(own, w, moves[..|moves| - 1], n);
      assert moves[..|moves| - 1][..n] == moves[..n];
    }
  }

  lemma AtStep(own: Key, w: World, moves: seq<Move>, n: nat)
    requires Possible(own, w, moves) && n < |moves|
    ensures Enabled(own, At(own, w, moves, n), moves[n])
    ensures At(own, w, moves, n + 1) == Next(own, At(own, w, moves, n), moves[n])
  {
    hide Enabled, Next;
    PrefixPossible(own, w, moves, n);
    PrefixPossible(own, w, moves, n + 1);
    assert moves[..n + 1][..n] == moves[..n];
  }

  /** The client sees the completion of this run. */
  predicate Completed(w: World) {
    w.run.Some? && R.HasComplete(w.run.value.sse)
  }

  // ------------------------------------------------------------------------------ invariant

  ghost predicate RegistryOk(own: Key, w: World) {
    && Consistent(w.registry)
    && (w.run.None? ==> own !in w.registry.finished)
    && (w.run.Some? && !w.run.value.finished ==> own in w.registry.finished)
    && (own in w.registry.finished ==> w.run.Some? && w.registry.finished[own] == w.run.value.finished)
  }

  ghost predicate RunOk(w: World) {
    w.run.Some? ==>
      && w.requested && R.Inv(w.run.value) && |w.run.value.stops| == |w.callers|
      && forall i | 0 <= i < |w.callers| :: w.run.value.stops[i] != R.Idle ==> w.callers[i] == WithControl
  }

  ghost predicate Inv(own: Key, w: World) {
    RegistryOk(own, w) && RunOk(w)
  }

  /** What registering another run does to this one's entry. */
  lemma OtherRegisterKeeps(r: Registry, own: Key, other: Key)
    requires Consistent(r) && other != own
    ensures var next := Registered(r, other, false).0;
            && Consistent(next)
            && (own in next.finished ==> own in r.finished && next.finished[own] == r.finished[own])
            && (own in r.finished && !r.finished[own] ==> own in next.finished)
  {
    RegisterKeeps(r, other, false);
    if other !in r.pre {
      if other in r.order {
        RemoveAtMembers(r.order, Position(r.order, other));
      }
      SnocMembers(Without(r.order, other), other);
      EvictKeeps(r.(finished := r.finished[other := false], order := Without(r.order, other) + [other]));
    }
  }

  lemma RegistryStep(own: Key, w: World, m: Move)
    requires Inv(own, w) && Enabled(own, w, m) && !m.Inner?
    ensures RegistryOk(own, Next(own, w, m))
  {
    hide R.Inv, Evict, Without, NoDuplicates;
    match m {
      case Elsewhere(op) =>
        StepKeeps(w.registry, op);
        match op {
          case Register(other) => OtherRegisterKeeps(w.registry, own, other);
          case Lookup(other) => LookupKeeps(w.registry, other);
          case FinishRun(_) =>
        }
      case RegisterOwn => RegisterKeeps(w.registry, own, false);
      case StopCalls(_) => LookupKeeps(w.registry, own);
    }
  }

  lemma FinishSticks(s: R.State, a: R.Action)
    requires R.Enabled(s, a) && s.finished
    ensures R.Apply(s, a).finished
  {
  }

  lemma InnerRegistry(own: Key, w: World, a: R.Action)
    requires Inv(own, w) && Enabled(own, w, Inner(a))
    ensures RegistryOk(own, Next(own, w, Inner(a)))
  {
    hide R.Inv, R.Apply, R.Enabled, NoDuplicates;
    if w.run.value.finished {
      FinishSticks(w.run.value, a);
    }
  }

  lemma FreshRunOk(stops: nat)
    ensures R.Inv(FreshRun(stops)) && |FreshRun(stops).stops| == stops
    ensures forall i | 0 <= i < stops :: FreshRun(stops).stops[i] == R.Idle
  {
    R.InitialInv(FreshRun(stops));
  }

  lemma StopsOf(s: R.State, a: R.Action)
    requires R.Enabled(s, a)
    ensures var t := R.Apply(s, a);
            && |t.stops| == |s.stops|
            && forall i | 0 <= i < |s.stops| ::
                 t.stops[i] != R.Idle ==> s.stops[i] != R.Idle || a == R.StopAsks(i)
  {
  }

  lemma StepInv(own: Key, w: World, m: Move)
    requires Inv(own, w) && Enabled(own, w, m)
    ensures Inv(own, Next(own, w, m))
  {
    hide R.Inv, R.Apply, R.Enabled, RegistryOk, Step, Registered, Looked, FreshRun;
    if m.Inner? {
      InnerRegistry(own, w, m.a);
      R.StepInv(w.run.value, m.a);
      StopsOf(w.run.value, m.a);
    } else {
      RegistryStep(own, w, m);
      FreshRunOk(|w.callers|);
    }
  }

  lemma {:induction false} AlwaysInv(own: Key, w: World, moves: seq<Move>)
    requires Initial(own, w) && Possible(own, w, moves)
    ensures Inv(own, After(own, w, moves))
  {
    hide Enabled, Next;
    if moves != [] {
      AlwaysInv(own, w, moves[..|moves| - 1]);
      StepInv(own, After(own, w, moves[..|moves| - 1]), moves[|moves| - 1]);
    }
  }

  lemma InvAt(own: Key, w: World, moves: seq<Move>, n: nat)
    requires Initial(own, w) && Possible(own, w, moves) && n <= |moves|
    ensures Inv(own, At(own, w, moves, n))
  {
    hide Initial, Inv;
    PrefixPossible(own, w, moves, n);
    AlwaysInv(own, w, moves[..n]);
  }

  /** A Stop for a run that is still going on always finds its control, however many other runs came and went. */
  lemma ActiveRunIsFound(own: Key, w: World, moves: seq<Move>, n: nat)
    requires Initial(own, w) && Possible(own, w, moves) && n <= |moves|
    requires At(own, w, moves, n).run.Some? && !At(own, w, moves, n).run.value.finished
    ensures own in At(own, w, moves, n).registry.finished
  {
    hide Initial, RunOk, At;
    InvAt(own, w, moves, n);
  }

  // --------------------------------------------------------------- Stops that found the control

  lemma {:induction false} PhaseStays(own: Key, w: World, moves: seq<Move>, i: nat, j: nat)
    requires Initial(own, w) && Possible(own, w, moves) && i <= j <= |moves|
    requires At(own, w, moves, i).run.Some?
    ensures At(own, w, moves, j).run.Some?
    ensures At(own, w, moves, i).run.value.phase != Running ==>
              At(own, w, moves, j).run.value.phase == At(own, w, moves, i).run.value.phase
    decreases j
  {
    hide At, Initial, RegistryOk, R.Inv, R.Apply, R.Enabled, Registered, Step, Looked, FreshRun;
    if i < j {
      PhaseStays(own, w, moves, i, j - 1);
      AtStep(own, w, moves, j - 1);
      InvAt(own, w, moves, j - 1);
      var before := At(own, w, moves, j - 1);
      if moves[j - 1].Inner? && before.run.value.phase != Running {
        R.PhaseSticks(before.run.value, moves[j - 1].a);
      }
    }
  }

  /** `cancelled: true` from a Stop that found the control: the client never sees the completion, before or after. */
  lemma FoundStopIsFinal(own: Key, w: World, moves: seq<Move>, i: nat, c: nat, j: nat)
    requires Initial(own, w) && Possible(own, w, moves) && i <= |moves| && j <= |moves|
    requires var run := At(own, w, moves, i).run;
             run.Some? && c < |run.value.stops| && run.value.stops[c] == R.Acknowledged(true)
    ensures !Completed(At(own, w, moves, j))
  {
    hide At, Initial, RegistryOk, R.HasComplete, R.RelayOk, R.AgentOk, R.RunnerOk, R.TerminalOk;
    InvAt(own, w, moves, i);
    InvAt(own, w, moves, j);
    if i <= j {
      PhaseStays(own, w, moves, i, j);
    } else if At(own, w, moves, j).run.Some? {
      PhaseStays(own, w, moves, j, i);
    }
  }

  // ---------------------------------------------------------- Stops that came before their run

  /** This move leaves a new marker for another run. */
  predicate AddsMarker(w: World, m: Move) {
    m.Elsewhere? && m.op.Lookup? && m.op.key !in w.registry.finished && m.op.key !in w.registry.pre
  }

  /** New markers left from moment `i` up to moment `n`. */
  function Markers(own: Key, w: World, moves: seq<Move>, i: nat, n: nat): nat
    requires Possible(own, w, moves) && n <= |moves|
  {
    if n <= i then 0
    else Markers(own, w, moves, i, n - 1) + if AddsMarker(At(own, w, moves, n - 1), moves[n - 1]) then 1 else 0
  }

  /** Until the stream request comes, the marker stays as long as not too many newer ones push it out. */
  lemma {:induction false} MarkerHolds(own: Key, w: World, moves: seq<Move>, i: nat, n: nat)
    requires Initial(own, w) && Possible(own, w, moves) && i <= n <= |moves|
    requires own in At(own, w, moves, i).registry.pre && !At(own, w, moves, n).requested
    requires Behind(At(own, w, moves, i).registry.pre, own) + Markers(own, w, moves, i, n) < MAX_PRE_CANCELLED_RUNS
    ensures own in At(own, w, moves, n).registry.pre
    ensures Behind(At(own, w, moves, n).registry.pre, own)
         <= Behind(At(own, w, moves, i).registry.pre, own) + Markers(own, w, moves, i, n)
    decreases n
  {
    hide At, Initial, Behind, R.Inv, Step, Consistent, Registered;
    if i < n {
      AtStep(own, w, moves, n - 1);
      InvAt(own, w, moves, n - 1);
      var before, m := At(own, w, moves, n - 1), moves[n - 1];
      MarkerHolds(own, w, moves, i, n - 1);
      if m.Elsewhere? {
        MarkerStep(before.registry, m.op, own);
      }
    }
  }

  lemma {:induction false} RequestedStays(own: Key, w: World, moves: seq<Move>, i: nat, j: nat)
    requires Initial(own, w) && Possible(own, w, moves) && i <= j <= |moves|
    ensures At(own, w, moves, i).requested ==> At(own, w, moves, j).requested
    ensures At(own, w, moves, i).requested && At(own, w, moves, i).run.None? ==> At(own, w, moves, j).run.None?
    ensures At(own, w, moves, j).run.Some? ==> At(own, w, moves, j).requested
    decreases j
  {
    hide At, Initial, RegistryOk, R.Inv, R.Apply, R.Enabled, Registered, Step, Looked, FreshRun;
    InvAt(own, w, moves, j);
    if i < j {
      RequestedStays(own, w, moves, i, j - 1);
      AtStep(own, w, moves, j - 1);
    }
  }

  /**
   * `cancelled: true` from a Stop that came before the stream request: the completion is never seen if fewer than 64
   * newer markers stand behind the Stop's own one when the request registers.
   */
  lemma EarlyStopIsFinal(own: Key, w: World, moves: seq<Move>, i: nat, n: nat, j: nat)
    requires Initial(own, w) && Possible(own, w, moves) && i < n < |moves| && j <= |moves|
    requires moves[i].StopCalls? && moves[n] == RegisterOwn
    requires own in At(own, w, moves, i + 1).registry.pre
    requires Behind(At(own, w, moves, i + 1).registry.pre, own) + Markers(own, w, moves, i + 1, n)
               < MAX_PRE_CANCELLED_RUNS
    ensures !Completed(At(own, w, moves, j))
  {
    hide At, Initial, Inv, Behind, Markers, Step, Looked, FreshRun, R.HasComplete, Without;
    AtStep(own, w, moves, n);
    MarkerHolds(own, w, moves, i + 1, n);
    if j <= n {
      RequestedStays(own, w, moves, j, j);
      RequestedStays(own, w, moves, j, n);
    } else {
      RequestedStays(own, w, moves, n + 1, j);
    }
  }

  /** A Stop that finds no control before the stream request leaves a marker; a new one is the newest. */
  lemma EarlyStopMarks(own: Key, w: World, i: nat)
    requires Inv(own, w) && Enabled(own, w, StopCalls(i)) && !w.requested
    ensures var next := Next(own, w, StopCalls(i));
            && next.callers[i] == ToldTrue && own in next.registry.pre
            && (own !in w.registry.pre ==> Behind(next.registry.pre, own) == 0)
  {
    hide R.Inv;
    LookupKeeps(w.registry, own);
    var next := Next(own, w, StopCalls(i)).registry;
    if own !in w.registry.pre {
      PositionIs(next.pre, own, |next.pre| - 1);
    }
  }

  // ---------------------------------------------------- when `cancelled: true` can be followed by a completion

  /**
   * All behaviours, exactly the ways out: if a Stop was answered at once without finding a control and the client sees
   * the completion all the same, then the run was already over at that moment, or its stream request came later and
   * found the marker pushed out by 64 newer ones.
   */
  lemma ToldTrueThenComplete(own: Key, w: World, moves: seq<Move>, i: nat, j: nat) returns (n: nat)
    requires Initial(own, w) && Possible(own, w, moves) && i < |moves| && j <= |moves|
    requires moves[i].StopCalls? && own !in At(own, w, moves, i).registry.finished
    requires Completed(At(own, w, moves, j))
    ensures own in At(own, w, moves, i + 1).registry.pre
    ensures At(own, w, moves, i).run.Some? ==> At(own, w, moves, i).run.value.finished
    ensures At(own, w, moves, i).run.None? ==>
              && i < n < j && moves[n] == RegisterOwn && own !in At(own, w, moves, n).registry.pre
              && Behind(At(own, w, moves, i + 1).registry.pre, own) + Markers(own, w, moves, i + 1, n)
                   >= MAX_PRE_CANCELLED_RUNS
  {
    hide At, Initial, Behind, Markers, Step, R.Inv, R.HasComplete, R.Apply, R.Enabled, FreshRun, Without, Consistent;
    InvAt(own, w, moves, i);
    AtStep(own, w, moves, i);
    LookupKeeps(At(own, w, moves, i).registry, own);
    n := i;
    if At(own, w, moves, i).run.None? {
      RequestedStays(own, w, moves, i, if i <= j then j else i);
      if j <= i {
        PhaseStays(own, w, moves, j, i);
      }
      n := Accepted(own, w, moves, i + 1, j);
      AtStep(own, w, moves, n);
      if Behind(At(own, w, moves, i + 1).registry.pre, own)
          + Markers(own, w, moves, i + 1, n) < MAX_PRE_CANCELLED_RUNS {
        MarkerHolds(own, w, moves, i + 1, n);
      }
    }
  }

  /** A run that exists at `j` and not at `i` was accepted in between. */
  lemma {:induction false} Accepted(own: Key, w: World, moves: seq<Move>, i: nat, j: nat) returns (n: nat)
    requires Initial(own, w) && Possible(own, w, moves) && i <= j <= |moves|
    requires At(own, w, moves, i).run.None? && At(own, w, moves, j).run.Some?
    ensures i <= n < j && moves[n] == RegisterOwn
    ensures !At(own, w, moves, n).requested && own !in At(own, w, moves, n).registry.pre
    decreases j
  {
    hide At, Initial, Step, R.Inv, R.Apply, R.Enabled, FreshRun, Looked;
    AtStep(own, w, moves, j - 1);
    if At(own, w, moves, j - 1).run.Some? {
      n := Accepted(own, w, moves, i, j - 1);
    } else {
      n := j - 1;
    }
  }

  // ----------------------------------------------------------- what a registration decides, both ways

  /** The shortest way from an accepted registration to a completion on the client's screen. */
  const DELIVERY := [
    Inner(R.RunnerSends(R.Complete(0))), Inner(R.RelayTakes), Inner(R.RelayDecides), Inner(R.RunnerStores(true)),
    Inner(R.RunnerFinishes), Inner(R.RelayConcludes)
  ]

  lemma SnocPossible(own: Key, w: World, moves: seq<Move>, m: Move)
    requires Possible(own, w, moves) && Enabled(own, After(own, w, moves), m)
    ensures Possible(own, w, moves + [m])
    ensures After(own, w, moves + [m]) == Next(own, After(own, w, moves), m)
  {
    hide Enabled, Next;
    assert (moves + [m])[..|moves|] == moves;
  }

  lemma {:induction false} ConcatPossible(own: Key, w: World, a: seq<Move>, b: seq<Move>)
    requires Possible(own, w, a) && Possible(own, After(own, w, a), b)
    ensures Possible(own, w, a + b) && After(own, w, a + b) == After(own, After(own, w, a), b)
    decreases |b|
  {
    hide Enabled, Next;
    if b == [] {
      assert a + b == a;
    } else {
      var front, last := b[..|b| - 1], b[|b| - 1];
      ConcatPossible(own, w, a, front);
      SnocPossible(own, w, a + front, last);
      assert a + b == a + front + [last];
    }
  }

  /** One step of the run, seen from the service. */
  lemma InnerStep(own: Key, w: World, moves: seq<Move>, a: R.Action, t: R.State)
    requires Possible(own, w, moves) && After(own, w, moves).run.Some? && !a.StopAsks?
    requires R.Joins(After(own, w, moves).run.value, a, t)
    ensures Possible(own, w, moves + [Inner(a)]) && After(own, w, moves + [Inner(a)]).run == Some(t)
    ensures After(own, w, moves + [Inner(a)]).registry == Synchronised(own, After(own, w, moves).registry, t)
    ensures After(own, w, moves + [Inner(a)]).callers == After(own, w, moves).callers
    ensures After(own, w, moves + [Inner(a)]).requested == After(own, w, moves).requested
  {
    hide R.Enabled, R.Apply, Synchronised;
    SnocPossible(own, w, moves, Inner(a));
  }

  /** The run after the first `k` steps of the delivery. */
  function Stage(stops: nat, k: nat): R.State {
    var complete := R.Complete(0);
    var s0 := FreshRun(stops);
    var s1 := s0.(agent := [complete], runner := R.Storing);
    var s2 := s1.(relay := R.Received(complete), taken := 1);
    var s3 := s2.(phase := Terminal, relay := R.AwaitingFinish(complete));
    var s4 := s3.(runner := R.Stored, persistence := Committed);
    var s5 := s4.(runner := R.Gone, finished := true);
    if k == 0 then s0
    else if k == 1 then s1
    else if k == 2 then s2
    else if k == 3 then s3
    else if k == 4 then s4
    else if k == 5 then s5
    else s5.(sse := [complete], relay := R.Ended)
  }

  lemma StageJoins(stops: nat, k: nat)
    requires k < 6
    ensures R.Joins(Stage(stops, k), DELIVERY[k].a, Stage(stops, k + 1)) && !DELIVERY[k].a.StopAsks?
    ensures Stage(stops, k + 1).finished <==> k >= 4
  {
  }

  lemma {:induction false} Delivers(own: Key, w: World, k: nat)
    requires w.run == Some(FreshRun(|w.callers|)) && k <= 6
    requires own in w.registry.finished ==> !w.registry.finished[own]
    ensures Possible(own, w, DELIVERY[..k])
    ensures var later := After(own, w, DELIVERY[..k]);
            && later.run == Some(Stage(|w.callers|, k)) && later.callers == w.callers && later.requested == w.requested
            && later.registry == Synchronised(own, w.registry, Stage(|w.callers|, k))
  {
    hide Possible, After, Stage, FreshRun, R.Joins;
    if k == 0 {
      Start(own, w);
    } else {
      Delivers(own, w, k - 1);
      StageJoins(|w.callers|, k - 1);
      InnerStep(own, w, DELIVERY[..k - 1], DELIVERY[k - 1].a, Stage(|w.callers|, k));
      assert DELIVERY[..k - 1] + [DELIVERY[k - 1]] == DELIVERY[..k];
    }
  }

  lemma DeliversComplete(own: Key, w: World)
    requires w.run == Some(FreshRun(|w.callers|))
    requires own in w.registry.finished ==> !w.registry.finished[own]
    ensures Possible(own, w, DELIVERY) && Completed(After(own, w, DELIVERY))
    ensures After(own, w, DELIVERY).callers == w.callers && After(own, w, DELIVERY).requested == w.requested
    ensures After(own, w, DELIVERY).run.value.finished
    ensures After(own, w, DELIVERY).registry
         == if own in w.registry.finished then w.registry.(finished := w.registry.finished[own := true]) else w.registry
  {
    hide Possible, After;
    Delivers(own, w, 6);
    assert DELIVERY[..6] == DELIVERY;
    assert R.Complete(0) in Stage(|w.callers|, 6).sse;
  }

  lemma Start(own: Key, w: World)
    requires w.run == Some(FreshRun(|w.callers|))
    requires own in w.registry.finished ==> !w.registry.finished[own]
    ensures Possible(own, w, DELIVERY[..0]) && After(own, w, DELIVERY[..0]) == w
    ensures FreshRun(|w.callers|) == Stage(|w.callers|, 0)
    ensures w.registry == Synchronised(own, w.registry, FreshRun(|w.callers|))
  {
  }

  /** Some continuation shows the client the completion. */
  ghost predicate CanComplete(own: Key, w: World) {
    exists moves :: Possible(own, w, moves) && Completed(After(own, w, moves))
  }

  lemma {:induction false} TurnedAwayForGood(own: Key, w: World, moves: seq<Move>)
    requires w.requested && w.run.None? && Possible(own, w, moves)
    ensures After(own, w, moves).requested && After(own, w, moves).run.None?
  {
    hide Step, Looked, Registered, R.Apply, R.Enabled, FreshRun;
    if moves != [] {
      TurnedAwayForGood(own, w, moves[..|moves| - 1]);
    }
  }

  /**
   * The one moment that matters: once the stream request has registered, a completion is possible iff no marker was
   * left.
   */
  lemma RegistrationDecides(own: Key, w: World)
    requires Inv(own, w) && !w.requested
    ensures CanComplete(own, Next(own, w, RegisterOwn)) <==> own !in w.registry.pre
  {
    hide Possible, After, FreshRun, Completed, Evict, Without, RunOk;
    RegisterKeeps(w.registry, own, false);
    var next := Next(own, w, RegisterOwn);
    if own !in w.registry.pre {
      DeliversComplete(own, next);
    } else {
      forall moves | Possible(own, next, moves) ensures !Completed(After(own, next, moves)) {
        TurnedAwayForGood(own, next, moves);
        NoRunNoCompletion(After(own, next, moves));
      }
    }
  }

  lemma NoRunNoCompletion(w: World)
    requires w.run.None?
    ensures !Completed(w)
  {
  }

  // ------------------------------------------------------------------------- the two ways out are real

  const MINE: Key := ("session", "mine")

  function Other(k: nat): Key {
    (seq(k, _ => 'x'), "other")
  }

  function Others(k: nat): seq<Key> {
    seq(k, i requires 0 <= i < k => Other(i))
  }

  /** The same operation for `k` other run ids, one after the other. */
  function Crowd(register: bool, k: nat): seq<Move> {
    if k == 0 then []
    else Crowd(register, k - 1) + [Elsewhere(if register then Register(Other(k - 1)) else Lookup(Other(k - 1)))]
  }

  lemma OthersDiffer(k: nat)
    ensures Other(k) != MINE && Other(k) !in Others(k) && Others(k + 1) == Others(k) + [Other(k)]
  {
    assert "other" != "mine" by {
      assert |"other"| == 5 && |"mine"| == 4;
    }
    forall i | 0 <= i < k ensures Other(i) != Other(k) {
      assert |Other(i).0| == i && |Other(k).0| == k;
    }
  }

  /** Registering a new id behind an old finished one. */
  lemma CrowdStep(r: Registry, k: nat)
    requires Consistent(r) && r.pre == [] && r.order == [MINE] + Others(k) && r.finished[MINE] && k < 64
    ensures var next := Step(r, Register(Other(k)));
            && Consistent(next) && next.pre == []
            && if k < 63 then next.order == [MINE] + Others(k + 1) && MINE in next.finished && next.finished[MINE]
               else MINE !in next.finished
  {
    OthersDiffer(k);
    var other := Other(k);
    assert MINE in r.order;
    assert other !in r.order;
    assert Without(r.order, other) == r.order;
    StepKeeps(r, Register(other));
    var grown := r.(finished := r.finished[other := false], order := r.order + [other]);
    assert grown.order == [MINE] + Others(k + 1);
    assert Step(r, Register(other)) == Evict(grown);
    if k == 63 {
      assert OldestFinished(grown.order, grown.finished) == 0;
      var fewer := grown.(order := RemoveAt(grown.order, 0), finished := grown.finished - {MINE});
      assert Evict(grown) == Evict(fewer) == fewer;
    }
  }

  lemma {:induction false} CrowdEvicts(w: World, k: nat)
    requires w.registry == Registry(map[MINE := true], [MINE], []) && k <= 64
    ensures Possible(MINE, w, Crowd(true, k))
    ensures var later := After(MINE, w, Crowd(true, k));
            && later.run == w.run && later.callers == w.callers && later.requested == w.requested
            && Consistent(later.registry) && later.registry.pre == []
            && if k < 64
               then later.registry.order == [MINE] + Others(k) && MINE in later.registry.finished
                   && later.registry.finished[MINE]
               else MINE !in later.registry.finished
  {
    hide Possible, After, Step, Consistent, Others, Other;
    if k == 0 {
      CrowdStarts(w);
    } else {
      CrowdEvicts(w, k - 1);
      var r := After(MINE, w, Crowd(true, k - 1)).registry;
      CrowdStep(r, k - 1);
      OthersDiffer(k - 1);
      SnocPossible(MINE, w, Crowd(true, k - 1), Elsewhere(Register(Other(k - 1))));
    }
  }

  lemma CrowdStarts(w: World)
    ensures Possible(MINE, w, []) && After(MINE, w, []) == w && [MINE] + Others(0) == [MINE]
    ensures w.registry == Registry(map[MINE := true], [MINE], []) ==> Consistent(w.registry)
  {
  }

  const UNUSED := World(EMPTY, None, false, [Waiting])

  lemma Unused()
    ensures Initial(MINE, UNUSED)
  {
  }

  /** After registering alone. */
  lemma Alone(w: World)
    requires w.registry.finished == map[] && w.registry.order == [] && MINE !in w.registry.pre && !w.requested
    ensures var next := Next(MINE, w, RegisterOwn);
            && next.registry == Registry(map[MINE := false], [MINE], w.registry.pre)
            && next.run == Some(FreshRun(|w.callers|)) && next.callers == w.callers
  {
    assert Without(w.registry.order, MINE) + [MINE] == [MINE];
  }

  /**
   * A completed run that 64 newer ones pushed out of the registry: a late Stop is told that it cancelled the run,
   * although the client has the completion.
   */
  lemma LateStopIsToldTrue() returns (moves: seq<Move>)
    ensures Initial(MINE, UNUSED) && Possible(MINE, UNUSED, moves)
    ensures var end := After(MINE, UNUSED, moves); end.callers == [ToldTrue] && Completed(end)
  {
    hide Possible, After, Inv, Completed, Consistent, FreshRun, Registered, Looked, R.HasComplete;
    Unused();
    EmptyPast(UNUSED);
    Alone(UNUSED);
    SnocPossible(MINE, UNUSED, [], RegisterOwn);
    var w1 := Next(MINE, UNUSED, RegisterOwn);
    moves := [] + [RegisterOwn];
    DeliversComplete(MINE, w1);
    ConcatPossible(MINE, UNUSED, moves, DELIVERY);
    moves := moves + DELIVERY;
    var w2 := After(MINE, w1, DELIVERY);
    CrowdEvicts(w2, 64);
    ConcatPossible(MINE, UNUSED, moves, Crowd(true, 64));
    moves := moves + Crowd(true, 64);
    var w3 := After(MINE, w2, Crowd(true, 64));
    SnocPossible(MINE, UNUSED, moves, StopCalls(0));
    moves := moves + [StopCalls(0)];
    SameRun(w2, w3, After(MINE, UNUSED, moves));
  }

  lemma EmptyPast(w: World)
    ensures Possible(MINE, w, []) && After(MINE, w, []) == w
  {
  }

  lemma SameRun(a: World, b: World, c: World)
    requires Completed(a) && a.run == b.run == c.run
    ensures Completed(c)
  {
  }

  /** Each new marker goes behind the others; the sixty-fourth pushes the oldest one out. */
  lemma MarkStep(r: Registry, k: nat)
    requires r == Registry(map[], [], [MINE] + Others(k)) && k < 64
    ensures Step(r, Lookup(Other(k)))
         == Registry(map[], [], if k < 63 then [MINE] + Others(k + 1) else Others(64))
  {
    OthersDiffer(k);
    assert Other(k) !in r.pre;
    assert r.pre + [Other(k)] == [MINE] + Others(k + 1);
    assert ([MINE] + Others(k + 1))[1..] == Others(k + 1);
  }

  lemma {:induction false} CrowdDisplaces(w: World, k: nat)
    requires w.registry == Registry(map[], [], [MINE]) && k <= 64
    ensures Possible(MINE, w, Crowd(false, k))
    ensures var later := After(MINE, w, Crowd(false, k));
            && later.run == w.run && later.callers == w.callers && later.requested == w.requested
            && later.registry == Registry(map[], [], if k < 64 then [MINE] + Others(k) else Others(64))
  {
    hide Possible, After, Step, Others, Other;
    if k == 0 {
      CrowdStarts(w);
    } else {
      CrowdDisplaces(w, k - 1);
      MarkStep(After(MINE, w, Crowd(false, k - 1)).registry, k - 1);
      OthersDiffer(k - 1);
      SnocPossible(MINE, w, Crowd(false, k - 1), Elsewhere(Lookup(Other(k - 1))));
    }
  }

  lemma NotAmongOthers(k: nat)
    ensures MINE !in Others(k)
  {
    forall i | 0 <= i < k ensures Others(k)[i] != MINE {
      OthersDiffer(i);
    }
  }

  /**
   * A Stop before its run whose marker 64 newer ones displaced: the run registers, completes, and the client sees it.
   */
  lemma DisplacedMarkerLetsRunComplete() returns (moves: seq<Move>)
    ensures Initial(MINE, UNUSED) && Possible(MINE, UNUSED, moves)
    ensures var end := After(MINE, UNUSED, moves); end.callers == [ToldTrue] && Completed(end)
  {
    hide Possible, After, Inv, Completed, Consistent, FreshRun, Registered, Others, R.HasComplete;
    Unused();
    EmptyPast(UNUSED);
    SnocPossible(MINE, UNUSED, [], StopCalls(0));
    moves := [] + [StopCalls(0)];
    var w1 := After(MINE, UNUSED, moves);
    assert w1.registry == Registry(map[], [], [MINE]);
    CrowdDisplaces(w1, 64);
    ConcatPossible(MINE, UNUSED, moves, Crowd(false, 64));
    moves := moves + Crowd(false, 64);
    var w2 := After(MINE, UNUSED, moves);
    NotAmongOthers(64);
    Alone(w2);
    SnocPossible(MINE, UNUSED, moves, RegisterOwn);
    moves := moves + [RegisterOwn];
    var w3 := After(MINE, UNUSED, moves);
    DeliversComplete(MINE, w3);
    ConcatPossible(MINE, UNUSED, moves, DELIVERY);
    moves := moves + DELIVERY;
  }
}
