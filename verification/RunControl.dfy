// Lifecycle control of one accepted run, and the registry that finds it for Stop.
module RunControl {
  import opened Wrappers

  // ------------------------------------------------------------------------- one run's control

  datatype Phase = Running | CancelRequested | Terminal

  datatype PersistenceState = Pending | Committed | Failed(message: string)

  class ActiveRunControl {
    var phase: Phase
    var finished: bool
    var persistence: PersistenceState
    var cancelSignal: bool

    constructor ()
      ensures phase == Running && !finished && persistence == Pending && !cancelSignal
    {
      phase, finished, persistence, cancelSignal := Running, false, Pending, false;
    }

    /** Stop wins unless the terminal event was first. */
    method RequestCancel() returns (won: bool)
      modifies this`phase, this`cancelSignal
      ensures won <==> old(phase) != Terminal
      ensures phase == if old(phase) == Running then CancelRequested else old(phase)
      ensures cancelSignal == (old(cancelSignal) || old(phase) == Running)
    {
      match phase {
        case CancelRequested => won := true;
        case Terminal => won := false;
        case Running =>
          phase, cancelSignal, won := CancelRequested, true, true;
      }
    }

    /** The terminal event wins unless Stop, or another terminal event, was first. */
    method MarkTerminal() returns (won: bool)
      modifies this`phase
      ensures won <==> old(phase) == Running
      ensures phase == if old(phase) == Running then Terminal else old(phase)
    {
      won := phase == Running;
      if won {
        phase := Terminal;
      }
    }

    method Finish()
      modifies this`finished
      ensures finished
    {
      finished := true;
    }

    /** The first verdict on persistence stands. */
    method MarkPersistenceCommitted()
      modifies this`persistence
      ensures persistence == if old(persistence).Pending? then Committed else old(persistence)
    {
      if persistence.Pending? {
        persistence := Committed;
      }
    }

    method SetPersistenceError(message: string)
      modifies this`persistence
      ensures persistence == if old(persistence).Pending? then Failed(message) else old(persistence)
    {
      if persistence.Pending? {
        persistence := Failed(message);
      }
    }
  }

  // ------------------------------------------------------------------------------ sequences

  type Key = (string, string)

  const MAX_RECENT_RUN_CONTROLS := 64
  const MAX_PRE_CANCELLED_RUNS := 64

  predicate NoDuplicates<T(==)>(s: seq<T>) {
    forall i, j | 0 <= i < j < |s| :: s[i] != s[j]
  }

  /** Position of the first occurrence, or the length. */
  function Position<T(==)>(s: seq<T>, x: T): (i: nat)
    ensures i <= |s|
    ensures i < |s| <==> x in s
    ensures i < |s| ==> s[i] == x
    ensures forall j | 0 <= j < i :: s[j] != x
  {
    if s == [] then 0 else if s[0] == x then 0 else 1 + Position(s[1..], x)
  }

  function RemoveAt<T>(s: seq<T>, i: nat): seq<T>
    requires i < |s|
  {
    s[..i] + s[i + 1..]
  }

  function Without<T(==)>(s: seq<T>, x: T): seq<T> {
    if x in s then RemoveAt(s, Position(s, x)) else s
  }

  lemma RemoveAtMembers<T>(s: seq<T>, i: nat)
    requires i < |s| && NoDuplicates(s)
    ensures NoDuplicates(RemoveAt(s, i))
    ensures forall x :: x in RemoveAt(s, i) <==> x in s && x != s[i]
  {
    var r := RemoveAt(s, i);
    assert forall k | 0 <= k < |r| :: r[k] == if k < i then s[k] else s[k + 1];
    forall x ensures x in r <==> x in s && x != s[i] {
      if x in s && x != s[i] {
        var k :| 0 <= k < |s| && s[k] == x;
        assert r[if k < i then k else k - 1] == x;
      }
    }
  }

  lemma SnocMembers<T>(s: seq<T>, x: T)
    requires NoDuplicates(s) && x !in s
    ensures NoDuplicates(s + [x]) && forall y :: y in s + [x] <==> y in s || y == x
  {
  }

  // ----------------------------------------------------------------------- registry as a value

  /** `finished` says of every registered key whether its run is over. */
  datatype Registry = Registry(finished: map<Key, bool>, order: seq<Key>, pre: seq<Key>)

  ghost predicate Consistent(r: Registry) {
    && NoDuplicates(r.order) && (forall k :: k in r.order <==> k in r.finished)
    && NoDuplicates(r.pre) && |r.pre| <= MAX_PRE_CANCELLED_RUNS
    && forall k <- r.pre :: k !in r.finished
  }

  /** Position of the oldest finished run, or the length. */
  function OldestFinished(order: seq<Key>, finished: map<Key, bool>): (i: nat)
    ensures i <= |order|
    ensures i < |order| ==> order[i] in finished && finished[order[i]]
    ensures forall j | 0 <= j < i :: !(order[j] in finished && finished[order[j]])
  {
    if order == [] then 0
    else if order[0] in finished && finished[order[0]] then 0
    else 1 + OldestFinished(order[1..], finished)
  }

  /** Drop oldest finished runs until the history fits or only unfinished ones are left. */
  function Evict(r: Registry): Registry
    decreases |r.order|
  {
    if |r.order| <= MAX_RECENT_RUN_CONTROLS then r
    else
      var i := OldestFinished(r.order, r.finished);
      if i == |r.order| then r
      else Evict(r.(order := RemoveAt(r.order, i), finished := r.finished - {r.order[i]}))
  }

  function Registered(r: Registry, key: Key, done: bool): (Registry, bool) {
    if key in r.pre then (r.(pre := Without(r.pre, key)), false)
    else (Evict(r.(finished := r.finished[key := done], order := Without(r.order, key) + [key])), true)
  }

  function Looked(r: Registry, key: Key): Registry {
    if key in r.finished || key in r.pre then r
    else
      var pre := r.pre + [key];
      r.(pre := if |pre| > MAX_PRE_CANCELLED_RUNS then pre[1..] else pre)
  }

  lemma EvictStops(r: Registry)
    requires OldestFinished(r.order, r.finished) == |r.order|
    ensures Evict(r) == r
  {
  }

  lemma EvictStep(r: Registry)
    requires |r.order| > MAX_RECENT_RUN_CONTROLS && OldestFinished(r.order, r.finished) < |r.order|
    ensures var i := OldestFinished(r.order, r.finished);
            Evict(r) == Evict(r.(order := RemoveAt(r.order, i), finished := r.finished - {r.order[i]}))
  {
  }

  /** Eviction keeps the registry consistent and every unfinished run; it stops only when everything left is needed. */
  lemma {:induction false} EvictKeeps(r: Registry)
    requires Consistent(r)
    ensures var e := Evict(r);
            && Consistent(e) && e.pre == r.pre
            && (forall k | k in e.finished :: k in r.finished && e.finished[k] == r.finished[k])
            && (forall k | k in r.finished && !r.finished[k] :: k in e.finished)
            && (|e.order| > MAX_RECENT_RUN_CONTROLS ==> forall k | k in e.finished :: !e.finished[k])
    decreases |r.order|
  {
    if |r.order| > MAX_RECENT_RUN_CONTROLS {
      var i := OldestFinished(r.order, r.finished);
      if i < |r.order| {
        RemoveAtMembers(r.order, i);
        EvictKeeps(r.(order := RemoveAt(r.order, i), finished := r.finished - {r.order[i]}));
      } else {
        forall k | k in r.finished ensures !r.finished[k] {
          assert k in r.order;
        }
      }
    }
  }

  /** What registering a run means. */
  lemma RegisterKeeps(r: Registry, key: Key, done: bool)
    requires Consistent(r)
    ensures var (next, accepted) := Registered(r, key, done);
            && Consistent(next)
            && (accepted <==> key !in r.pre)
            && (forall k :: k in next.pre <==> k in r.pre && k != key)
            && (!accepted ==> next.finished == r.finished && next.order == r.order)
            && (accepted ==>
                  && next.pre == r.pre
                  && (!done ==> key in next.finished && !next.finished[key])
                  && (forall k | k in r.finished && k != key && !r.finished[k] :: k in next.finished
                       && !next.finished[k])
                  && (|next.order| > MAX_RECENT_RUN_CONTROLS ==> forall k | k in next.finished :: !next.finished[k]))
  {
    if key in r.pre {
      RemoveAtMembers(r.pre, Position(r.pre, key));
    } else {
      if key in r.order {
        RemoveAtMembers(r.order, Position(r.order, key));
      }
      SnocMembers(Without(r.order, key), key);
      EvictKeeps(r.(finished := r.finished[key := done], order := Without(r.order, key) + [key]));
    }
  }

  /** What looking a run up for cancellation means. */
  lemma LookupKeeps(r: Registry, key: Key)
    requires Consistent(r)
    ensures var next := Looked(r, key);
            && Consistent(next) && next.finished == r.finished && next.order == r.order
            && (key !in r.finished ==> key in next.pre)
            && (key in r.finished ==> next == r)
  {
    if key !in r.finished && key !in r.pre {
      SnocMembers(r.pre, key);
      var pre := r.pre + [key];
      if |pre| > MAX_PRE_CANCELLED_RUNS {
        assert pre[1..][|pre| - 2] == key;
      }
    }
  }

  // ------------------------------------------------------------------- sequences of operations

  datatype Op = Register(key: Key) | Lookup(key: Key) | FinishRun(key: Key)

  function Step(r: Registry, op: Op): Registry {
    match op
    case Register(key) => Registered(r, key, false).0
    case Lookup(key) => Looked(r, key)
    case FinishRun(key) => if key in r.finished then r.(finished := r.finished[key := true]) else r
  }

  function RunOps(r: Registry, ops: seq<Op>): Registry {
    if ops == [] then r else Step(RunOps(r, ops[..|ops| - 1]), ops[|ops| - 1])
  }

  const EMPTY := Registry(map[], [], [])

  lemma StepKeeps(r: Registry, op: Op)
    requires Consistent(r)
    ensures Consistent(Step(r, op))
  {
    match op {
      case Register(key) => RegisterKeeps(r, key, false);
      case Lookup(key) => LookupKeeps(r, key);
      case FinishRun(key) =>
    }
  }

  /** After any operations the registry is consistent. */
  lemma {:induction false} AlwaysConsistent(r: Registry, ops: seq<Op>)
    requires Consistent(r)
    ensures Consistent(RunOps(r, ops))
  {
    if ops != [] {
      AlwaysConsistent(r, ops[..|ops| - 1]);
      StepKeeps(RunOps(r, ops[..|ops| - 1]), ops[|ops| - 1]);
    }
  }

  /** Lookups that placed a new marker. */
  function NewMarkers(r: Registry, ops: seq<Op>): nat {
    if ops == [] then 0
    else
      var before, last := RunOps(r, ops[..|ops| - 1]), ops[|ops| - 1];
      NewMarkers(r, ops[..|ops| - 1]) + if last.Lookup? && last.key !in before.finished
          && last.key !in before.pre then 1 else 0
  }

  /** How many markers were placed after the one for `key`. */
  function Behind(pre: seq<Key>, key: Key): nat
    requires key in pre
  {
    |pre| - 1 - Position(pre, key)
  }

  lemma PositionIs<T>(s: seq<T>, x: T, i: nat)
    requires i < |s| && s[i] == x && NoDuplicates(s)
    ensures Position(s, x) == i
  {
  }

  lemma MarkerStep(r: Registry, op: Op, key: Key)
    requires Consistent(r) && key in r.pre && op != Register(key)
    ensures var added := if op.Lookup? && op.key !in r.finished && op.key !in r.pre then 1 else 0;
            Behind(r.pre, key) + added < MAX_PRE_CANCELLED_RUNS ==>
              key in Step(r, op).pre && Behind(Step(r, op).pre, key) <= Behind(r.pre, key) + added
  {
    StepKeeps(r, op);
    var p, next := Position(r.pre, key), Step(r, op);
    match op {
      case Register(other) =>
        RegisterKeeps(r, other, false);
        if other in r.pre {
          var q := Position(r.pre, other);
          assert next.pre == RemoveAt(r.pre, q);
          PositionIs(next.pre, key, if q < p then p - 1 else p);
        }
      case Lookup(other) =>
        if other !in r.finished && other !in r.pre && Behind(r.pre, key) + 1 < MAX_PRE_CANCELLED_RUNS {
          var pre := r.pre + [other];
          if |pre| > MAX_PRE_CANCELLED_RUNS {
            assert pre[1..][p - 1] == key;
            PositionIs(next.pre, key, p - 1);
          } else {
            assert pre[p] == key;
            PositionIs(next.pre, key, p);
          }
        }
      case FinishRun(_) =>
    }
  }

  lemma {:induction false} MarkerStays(r: Registry, ops: seq<Op>, key: Key)
    requires Consistent(r) && key in r.pre && Register(key) !in ops
    requires Behind(r.pre, key) + NewMarkers(r, ops) < MAX_PRE_CANCELLED_RUNS
    ensures key in RunOps(r, ops).pre && Behind(RunOps(r, ops).pre, key) <= Behind(r.pre, key) + NewMarkers(r, ops)
  {
    hide Step, Behind, Consistent;
    if ops != [] {
      var front, last := ops[..|ops| - 1], ops[|ops| - 1];
      assert forall op <- front :: op in ops;
      MarkerStays(r, front, key);
      AlwaysConsistent(r, front);
      assert last in ops;
      MarkerStep(RunOps(r, front), last, key);
    }
  }

  /**
   * A Stop that came before its run: unless 64 newer markers displaced it, the next matching registration is refused,
   * and only that one.
   */
  lemma PreCancelBlocksOnce(r: Registry, key: Key, ops: seq<Op>)
    requires Consistent(r) && key !in r.finished && key !in r.pre && Register(key) !in ops
    requires NewMarkers(Looked(r, key), ops) < MAX_PRE_CANCELLED_RUNS
    ensures var later := RunOps(Looked(r, key), ops);
            && !Registered(later, key, false).1
            && Registered(Registered(later, key, false).0, key, false).1
  {
    LookupKeeps(r, key);
    var marked := Looked(r, key);
    assert marked.pre[|marked.pre| - 1] == key;
    PositionIs(marked.pre, key, |marked.pre| - 1);
    MarkerStays(marked, ops, key);
    AlwaysConsistent(marked, ops);
    RegisterKeeps(RunOps(marked, ops), key, false);
  }

  // --------------------------------------------------------------------------- the registry

  class RunControlRegistry {
    var controls: map<Key, ActiveRunControl>
    var controlOrder: seq<Key>
    var preCancelled: seq<Key>

    constructor ()
      ensures Abstraction() == EMPTY && Consistent(Abstraction())
    {
      controls, controlOrder, preCancelled := map[], [], [];
    }

    ghost function Abstraction(): (r: Registry)
      reads this, set k | k in controls :: controls[k]
      ensures r.order == controlOrder && r.pre == preCancelled
    {
      Registry(map k | k in controls :: controls[k].finished, controlOrder, preCancelled)
    }

    /** Register an accepted run unless an earlier Stop for it is waiting. */
    method Register(sid: string, runId: string, control: ActiveRunControl) returns (ok: bool)
      requires Consistent(Abstraction())
      modifies this
      ensures (Abstraction(), ok) == Registered(old(Abstraction()), (sid, runId), control.finished)
      ensures Consistent(Abstraction())
      ensures forall k | k in controls ::
                if k == (sid, runId) && ok then controls[k] == control
                    else k in old(controls) && controls[k] == old(controls)[k]
    {
      hide Evict, NoDuplicates, Consistent, Position;
      var key := (sid, runId);
      RegisterKeeps(Abstraction(), key, control.finished);
      if key in preCancelled {
        preCancelled := RemoveAt(preCancelled, Position(preCancelled, key));
        assert Abstraction() == old(Abstraction()).(pre := Without(old(preCancelled), key));
        return false;
      }
      Insert(key, control);
      EvictExpired();
      ok := true;
    }

    /** Enter the run as the newest one. */
    method Insert(key: Key, control: ActiveRunControl)
      modifies this`controls, this`controlOrder
      ensures Abstraction() == Registry(old(Abstraction()).finished[key := control.finished],
                Without(old(controlOrder), key) + [key], preCancelled)
      ensures controls == old(controls)[key := control]
    {
      hide Position;
      controls := controls[key := control];
      if key in controlOrder {
        controlOrder := RemoveAt(controlOrder, Position(controlOrder, key));
      }
      controlOrder := controlOrder + [key];
    }

    /** Drop the oldest finished runs; active runs are never dropped merely to satisfy the bound. */
    method EvictExpired()
      modifies this`controls, this`controlOrder
      ensures Abstraction() == Evict(old(Abstraction()))
      ensures forall k | k in controls :: k in old(controls) && controls[k] == old(controls)[k]
    {
      hide RemoveAt, OldestFinished, RunControlRegistry.Abstraction;
      while |controlOrder| > MAX_RECENT_RUN_CONTROLS
        invariant Evict(Abstraction()) == Evict(old(Abstraction()))
        invariant forall k | k in controls :: k in old(controls) && controls[k] == old(controls)[k]
        decreases |controlOrder|
      {
        var index := OldestIndex();
        if index == |controlOrder| {
          EvictStops(Abstraction());
          break;
        }
        EvictStep(Abstraction());
        Drop(index);
      }
    }

    method Drop(index: nat)
      requires index < |controlOrder|
      modifies this`controls, this`controlOrder
      ensures Abstraction() == old(Abstraction()).(
                order := RemoveAt(old(controlOrder), index),
                    finished := old(Abstraction()).finished - {old(controlOrder)[index]})
      ensures controls == old(controls) - {old(controlOrder)[index]} && |controlOrder| == |old(controlOrder)| - 1
    {
      var expired := controlOrder[index];
      controlOrder := RemoveAt(controlOrder, index);
      controls := controls - {expired};
    }

    /** Scan for the oldest finished run. */
    method OldestIndex() returns (index: nat)
      ensures index == OldestFinished(controlOrder, Abstraction().finished)
    {
      index := 0;
      while index < |controlOrder|
        invariant index <= |controlOrder|
        invariant forall j | 0 <= j < index :: !(controlOrder[j] in controls && controls[controlOrder[j]].finished)
      {
        if controlOrder[index] in controls && controls[controlOrder[index]].finished {
          break;
        }
        index := index + 1;
      }
      OldestIs(controlOrder, Abstraction().finished, index);
    }

    /** Find one exact run for cancellation, or leave a marker for it. */
    method FindOrPreCancel(sid: string, runId: string) returns (found: Option<ActiveRunControl>)
      requires Consistent(Abstraction())
      modifies this`preCancelled
      ensures Abstraction() == Looked(old(Abstraction()), (sid, runId)) && Consistent(Abstraction())
      ensures found == if (sid, runId) in controls then Some(controls[(sid, runId)]) else None
    {
      var key := (sid, runId);
      LookupKeeps(Abstraction(), key);
      if key in controls {
        return Some(controls[key]);
      }
      if key !in preCancelled {
        preCancelled := preCancelled + [key];
        while |preCancelled| > MAX_PRE_CANCELLED_RUNS
          invariant preCancelled == old(preCancelled) + [key] || (|old(preCancelled)| == MAX_PRE_CANCELLED_RUNS
                      && preCancelled == (old(preCancelled) + [key])[1..])
        {
          preCancelled := preCancelled[1..];
        }
      }
      found := None;
    }
  }

  lemma OldestIs(order: seq<Key>, finished: map<Key, bool>, i: nat)
    requires i <= |order| && (i < |order| ==> order[i] in finished && finished[order[i]])
    requires forall j | 0 <= j < i :: !(order[j] in finished && finished[order[j]])
    ensures OldestFinished(order, finished) == i
  {
  }
}
