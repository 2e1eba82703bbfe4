// Accumulating the fragments of native tool calls.
module ToolDeltas {
  import opened Wrappers
  import opened Text
  import opened DsmlParser

  const MAX_TOOL_CALL_ID_BYTES := 256
  const MAX_NO_PROGRESS_DELTAS := 4096

  datatype ToolCall = ToolCall(id: string, name: string, arguments: string)

  datatype Delta = Delta(index: nat, id: Option<string>, name: Option<string>, arguments: Option<string>)

  datatype Slot = Slot(id: Option<string>, name: Option<string>, arguments: string)

  datatype NativeError = Boundary | IdMutation | NameMutation | Incomplete | DuplicateId

  const EMPTY_SLOT := Slot(None, None, "")

  // ----------------------------------------------------------- per-index reading of a stream

  /** The deltas of one index, in order. */
  function Sub(ds: seq<Delta>, index: nat): seq<Delta> {
    if ds == [] then []
    else
      var last := ds[|ds| - 1];
      Sub(ds[..|ds| - 1], index) + if last.index == index then [last] else []
  }

  function Indexes(ds: seq<Delta>): set<nat> {
    set d | d in ds :: d.index
  }

  function Orelse<T>(a: Option<T>, b: Option<T>): Option<T> {
    if a.Some? then a else b
  }

  function TextOf(o: Option<string>): string {
    if o.Some? then o.value else ""
  }

  /** First id given, first name given, all argument fragments joined. */
  function SlotOf(ds: seq<Delta>): Slot {
    if ds == [] then EMPTY_SLOT
    else
      var before, last := SlotOf(ds[..|ds| - 1]), ds[|ds| - 1];
      Slot(Orelse(before.id, last.id), Orelse(before.name, last.name), before.arguments + TextOf(last.arguments))
  }

  function ArgumentBytes(ds: seq<Delta>): nat {
    if ds == [] then 0 else ArgumentBytes(ds[..|ds| - 1]) + ByteLen(TextOf(ds[|ds| - 1].arguments))
  }

  predicate Stable(existing: Option<string>, next: Option<string>, limit: nat) {
    next.Some? ==> next.value != "" && ByteLen(next.value) <= limit && (existing.Some? ==> existing == next)
  }

  /** A delta that tells its call nothing new. */
  predicate Stalls(slot: Slot, d: Delta) {
    !(slot.id.None? && d.id.Some?) && !(slot.name.None? && d.name.Some?) && TextOf(d.arguments) == ""
  }

  /** Number of deltas that told their call nothing new. */
  function StallCount(ds: seq<Delta>): nat {
    if ds == [] then 0
    else
      var front, last := ds[..|ds| - 1], ds[|ds| - 1];
      StallCount(front) + if Stalls(SlotOf(Sub(front, last.index)), last) then 1 else 0
  }

  /** One call's deltas agree on id and name and fit its argument bound. */
  predicate SlotAccepts(ds: seq<Delta>) {
    ds == []
    || (var front, last := ds[..|ds| - 1], ds[|ds| - 1];
        && SlotAccepts(front)
        && Stable(SlotOf(front).id, last.id, MAX_TOOL_CALL_ID_BYTES)
        && Stable(SlotOf(front).name, last.name, MAX_TOOL_NAME_BYTES)
        && ByteLen(SlotOf(ds).arguments) <= MAX_TOOL_ARGUMENT_BYTES_PER_CALL)
  }

  ghost predicate EveryCallAccepts(ds: seq<Delta>) {
    forall index: nat :: SlotAccepts(Sub(ds, index))
  }

  /** The whole acceptance condition of a delta stream, stated call by call. */
  ghost predicate Acceptable(ds: seq<Delta>) {
    && |Indexes(ds)| <= MAX_TOOL_CALLS_PER_TURN
    && EveryCallAccepts(ds)
    && ArgumentBytes(ds) <= MAX_TOOL_ARGUMENT_BYTES_TOTAL
    && StallCount(ds) <= MAX_NO_PROGRESS_DELTAS
  }

  function SlotsOf(ds: seq<Delta>): map<nat, Slot> {
    map index | index in Indexes(ds) :: SlotOf(Sub(ds, index))
  }

  // -------------------------------------------------------------------------- the accumulator

  class ToolCallAccumulator {
    var calls: map<nat, Slot>
    var totalArgumentBytes: nat
    var noProgressDeltaCount: nat
    /** Everything accepted so far. */
    ghost var accepted: seq<Delta>

    ghost predicate Valid()
      reads this
    {
      && calls == SlotsOf(accepted)
      && totalArgumentBytes == ArgumentBytes(accepted)
      && noProgressDeltaCount == StallCount(accepted)
      && Acceptable(accepted)
    }

    constructor ()
      ensures Valid() && accepted == []
    {
      calls, totalArgumentBytes, noProgressDeltaCount, accepted := map[], 0, 0, [];
    }

    /** Accept one delta exactly when the longer stream is acceptable; after an error the accumulator is dropped. */
    method Push(d: Delta) returns (r: Result<(), NativeError>)
      requires Valid()
      modifies this
      ensures r.Ok? <==> Acceptable(old(accepted) + [d])
      ensures r.Ok? ==> Valid() && accepted == old(accepted) + [d]
    {
      hide ByteLen, SlotAccepts, Stable, Stalls, Acceptable, SlotsOf, SlotOf, Sub, Indexes, Orelse, TextOf, Merge,
        ArgumentBytes, StallCount, EveryCallAccepts;
      AcceptableStep(accepted, d);
      StateStep(accepted, d);
      if d.index !in calls && |calls| >= MAX_TOOL_CALLS_PER_TURN {
        return Err(Boundary);
      }
      var slot := if d.index in calls then calls[d.index] else EMPTY_SLOT;
      assert slot == SlotOf(Sub(accepted, d.index));
      var identity := MergeIdentity(slot, d);
      if identity.Err? {
        return Err(identity.error);
      }
      var Merged(named, introduced) := identity.value;
      var appended := AppendArguments(named, totalArgumentBytes, d);
      if appended.Err? {
        return Err(appended.error);
      }
      var Appended(merged, total, grew) := appended.value;
      totalArgumentBytes := total;
      StepIs(slot, d, merged, introduced || grew);
      if !(introduced || grew) {
        noProgressDeltaCount := noProgressDeltaCount + 1;
        if noProgressDeltaCount > MAX_NO_PROGRESS_DELTAS {
          return Err(Boundary);
        }
      }
      calls := calls[d.index := merged];
      accepted := accepted + [d];
      r := Ok(());
    }

    /** The argument part of a delta, against the call's own bound and the running total. */
    static method AppendArguments(slot: Slot, total: nat, d: Delta) returns (r: Result<Appended, NativeError>)
      requires ByteLen(slot.arguments) <= MAX_TOOL_ARGUMENT_BYTES_PER_CALL && total <= MAX_TOOL_ARGUMENT_BYTES_TOTAL
      ensures r.Ok? <==> ByteLen(slot.arguments + TextOf(d.arguments)) <= MAX_TOOL_ARGUMENT_BYTES_PER_CALL
                         && total + ByteLen(TextOf(d.arguments)) <= MAX_TOOL_ARGUMENT_BYTES_TOTAL
      ensures r.Ok? ==> r.value == Appended(slot.(arguments := slot.arguments + TextOf(d.arguments)),
                                            total + ByteLen(TextOf(d.arguments)), TextOf(d.arguments) != "")
    {
      ByteLenConcat(slot.arguments, TextOf(d.arguments));
      if d.arguments.None? || d.arguments.value == "" {
        assert slot.arguments + "" == slot.arguments;
        return Ok(Appended(slot, total, false));
      }
      if ByteLen(slot.arguments) + ByteLen(d.arguments.value) > MAX_TOOL_ARGUMENT_BYTES_PER_CALL
         || total + ByteLen(d.arguments.value) > MAX_TOOL_ARGUMENT_BYTES_TOTAL {
        return Err(Boundary);
      }
      r := Ok(Appended(slot.(arguments := slot.arguments + d.arguments.value), total
          + ByteLen(d.arguments.value), true));
    }

    /** The id and name part of a delta. */
    static method MergeIdentity(slot: Slot, d: Delta) returns (r: Result<Merged, NativeError>)
      ensures r.Ok? <==> Stable(slot.id, d.id, MAX_TOOL_CALL_ID_BYTES) && Stable(slot.name, d.name, MAX_TOOL_NAME_BYTES)
      ensures r.Ok? ==>
                && r.value.slot == Slot(Orelse(slot.id, d.id), Orelse(slot.name, d.name), slot.arguments)
                && (r.value.progress <==> (slot.id.None? && d.id.Some?) || (slot.name.None? && d.name.Some?))
    {
      hide ByteLen;
      var merged, progress := slot, false;
      if d.id.Some? {
        if d.id.value == "" || ByteLen(d.id.value) > MAX_TOOL_CALL_ID_BYTES {
          return Err(Boundary);
        }
        if slot.id.Some? && slot.id != d.id {
          return Err(IdMutation);
        }
        if slot.id.None? {
          merged, progress := merged.(id := d.id), true;
        }
      }
      if d.name.Some? {
        if d.name.value == "" || ByteLen(d.name.value) > MAX_TOOL_NAME_BYTES {
          return Err(Boundary);
        }
        if slot.name.Some? && slot.name != d.name {
          return Err(NameMutation);
        }
        if slot.name.None? {
          merged, progress := merged.(name := d.name), true;
        }
      }
      r := Ok(Merged(merged, progress));
    }

    /** The calls by ascending index, or the first protocol error in that order. */
    method Finalize() returns (r: Result<seq<ToolCall>, NativeError>)
      ensures r == Finalized(calls)
      ensures r.Ok? <==> (forall index <- calls :: Complete(calls[index])) && IdsDiffer(calls)
      ensures r.Ok? ==>
                && |r.value| == |calls|
                && forall i :: 0 <= i < |r.value| ==> r.value[i] == CallOf(calls[Ascending(calls.Keys)[i]])
    {
      hide Ascending, IdsDiffer;
      var keys := Ascending(calls.Keys);
      FinalizeMeaning(calls, keys, {}, []);
      var ids: set<string>, finalized: seq<ToolCall>, i := {}, [], 0;
      while i < |keys|
        invariant 0 <= i <= |keys| == |calls| && |finalized| == i
        invariant Finalized(calls) == FinalizedFrom(calls, keys[i..], ids, finalized)
      {
        var slot := calls[keys[i]];
        assert keys[i..][1..] == keys[i + 1..];
        if !Complete(slot) {
          return Err(Incomplete);
        }
        if slot.id.value in ids {
          return Err(DuplicateId);
        }
        ids, finalized, i := ids + {slot.id.value}, finalized + [CallOf(slot)], i + 1;
      }
      r := Ok(finalized);
    }
  }

  datatype Merged = Merged(slot: Slot, progress: bool)

  datatype Appended = Appended(slot: Slot, total: nat, progress: bool)

  function Merge(slot: Slot, d: Delta): Slot {
    Slot(Orelse(slot.id, d.id), Orelse(slot.name, d.name), slot.arguments + TextOf(d.arguments))
  }

  lemma StepIs(slot: Slot, d: Delta, merged: Slot, progress: bool)
    requires merged ==
               Slot(Orelse(slot.id, d.id), Orelse(slot.name, d.name), slot.arguments + TextOf(d.arguments))
    requires progress <==>
               || (slot.id.None? && d.id.Some?)
               || (slot.name.None? && d.name.Some?)
               || TextOf(d.arguments) != ""
    ensures merged == Merge(slot, d) && (progress <==> !Stalls(slot, d))
  {
  }

  lemma {:induction false} SubEmpty(ds: seq<Delta>, index: nat)
    ensures Sub(ds, index) == [] <==> index !in Indexes(ds)
  {
    if ds != [] {
      var front, last := ds[..|ds| - 1], ds[|ds| - 1];
      SubEmpty(front, index);
      assert ds == front + [last];
    }
  }

  lemma Snoc(ds: seq<Delta>, d: Delta)
    ensures (ds + [d])[..|ds + [d]| - 1] == ds && (ds + [d])[|ds + [d]| - 1] == d
  {
  }

  lemma SubStep(ds: seq<Delta>, d: Delta, index: nat)
    ensures Sub(ds + [d], index) == Sub(ds, index) + if d.index == index then [d] else []
  {
    Snoc(ds, d);
  }

  lemma SlotStep(sub: seq<Delta>, d: Delta)
    ensures SlotOf(sub + [d]) == Merge(SlotOf(sub), d)
    ensures SlotAccepts(sub + [d]) <==>
              && SlotAccepts(sub)
              && Stable(SlotOf(sub).id, d.id, MAX_TOOL_CALL_ID_BYTES)
              && Stable(SlotOf(sub).name, d.name, MAX_TOOL_NAME_BYTES)
              && ByteLen(Merge(SlotOf(sub), d).arguments) <= MAX_TOOL_ARGUMENT_BYTES_PER_CALL
  {
    hide ByteLen, Stable;
    Snoc(sub, d);
  }

  lemma CountStep(ds: seq<Delta>, d: Delta)
    ensures Indexes(ds + [d]) == Indexes(ds) + {d.index}
    ensures ArgumentBytes(ds + [d]) == ArgumentBytes(ds) + ByteLen(TextOf(d.arguments))
    ensures StallCount(ds + [d]) == StallCount(ds) + if Stalls(SlotOf(Sub(ds, d.index)), d) then 1 else 0
  {
    hide ByteLen, Stalls, SlotOf, Sub;
    Snoc(ds, d);
  }

  lemma {:induction false} AcceptedBytes(sub: seq<Delta>)
    requires SlotAccepts(sub)
    ensures ByteLen(SlotOf(sub).arguments) <= MAX_TOOL_ARGUMENT_BYTES_PER_CALL
  {
  }

  /** One delta is acceptable iff it is acceptable to its own call and within the totals. */
  lemma AcceptableStep(ds: seq<Delta>, d: Delta)
    requires Acceptable(ds)
    ensures var slot := SlotOf(Sub(ds, d.index));
            Acceptable(ds + [d]) <==>
              && (d.index in Indexes(ds) || |Indexes(ds)| < MAX_TOOL_CALLS_PER_TURN)
              && Stable(slot.id, d.id, MAX_TOOL_CALL_ID_BYTES) && Stable(slot.name, d.name, MAX_TOOL_NAME_BYTES)
              && ByteLen(slot.arguments + TextOf(d.arguments)) <= MAX_TOOL_ARGUMENT_BYTES_PER_CALL
              && ArgumentBytes(ds) + ByteLen(TextOf(d.arguments)) <= MAX_TOOL_ARGUMENT_BYTES_TOTAL
              && StallCount(ds) + (if Stalls(slot, d) then 1 else 0) <= MAX_NO_PROGRESS_DELTAS
    ensures ByteLen(SlotOf(Sub(ds, d.index)).arguments) <= MAX_TOOL_ARGUMENT_BYTES_PER_CALL
    ensures ArgumentBytes(ds) <= MAX_TOOL_ARGUMENT_BYTES_TOTAL && StallCount(ds) <= MAX_NO_PROGRESS_DELTAS
  {
    hide ByteLen, Stalls, SlotOf, Sub, SlotAccepts, Stable, StallCount, ArgumentBytes, Indexes, EveryCallAccepts;
    AllCallsStep(ds, d);
    SlotStep(Sub(ds, d.index), d);
    CountStep(ds, d);
    MemberCount(Indexes(ds), d.index);
    AcceptedBytes(Sub(ds, d.index));
  }

  lemma MemberCount(s: set<nat>, x: nat)
    ensures |s + {x}| == |s| + if x in s then 0 else 1
  {
    if x in s {
      assert s + {x} == s;
    }
  }

  lemma AllCallsStep(ds: seq<Delta>, d: Delta)
    requires EveryCallAccepts(ds)
    ensures SlotAccepts(Sub(ds, d.index))
    ensures EveryCallAccepts(ds + [d]) <==> SlotAccepts(Sub(ds, d.index) + [d])
  {
    hide SlotAccepts, Sub;
    forall index: nat
      ensures Sub(ds + [d], index) == if index == d.index then Sub(ds, index) + [d] else Sub(ds, index)
    {
      SubStep(ds, d, index);
    }
    assert SlotAccepts(Sub(ds + [d], d.index)) <==> SlotAccepts(Sub(ds, d.index) + [d]);
  }

  lemma StateStep(ds: seq<Delta>, d: Delta)
    ensures SlotsOf(ds).Keys == Indexes(ds) && |SlotsOf(ds)| == |Indexes(ds)|
    ensures SlotOf(Sub(ds, d.index)) == if d.index in SlotsOf(ds) then SlotsOf(ds)[d.index] else EMPTY_SLOT
    ensures SlotsOf(ds + [d]) == SlotsOf(ds)[d.index := Merge(SlotOf(Sub(ds, d.index)), d)]
    ensures ArgumentBytes(ds + [d]) == ArgumentBytes(ds) + ByteLen(TextOf(d.arguments))
    ensures StallCount(ds + [d]) == StallCount(ds) + if Stalls(SlotOf(Sub(ds, d.index)), d) then 1 else 0
  {
    hide ByteLen, Stalls, Sub, SlotOf, StallCount, ArgumentBytes, Merge;
    SubEmpty(ds, d.index);
    CountStep(ds, d);
    SlotStep(Sub(ds, d.index), d);
    assert SlotOf([]) == EMPTY_SLOT by { NothingYet(); }
    forall index | index in Indexes(ds) + {d.index}
      ensures SlotsOf(ds + [d])[index] == SlotsOf(ds)[d.index := Merge(SlotOf(Sub(ds, d.index)), d)][index]
    {
      SubStep(ds, d, index);
      assert index != d.index ==> Sub(ds, index) + [] == Sub(ds, index);
    }
    assert |SlotsOf(ds)| == |SlotsOf(ds).Keys|;
  }

  lemma NothingYet()
    ensures SlotOf([]) == EMPTY_SLOT
  {
  }

  // ------------------------------------------------------------------------- finalisation

  predicate Complete(slot: Slot) {
    slot.id.Some? && slot.name.Some?
  }

  function CallOf(slot: Slot): ToolCall {
    ToolCall(if slot.id.Some? then slot.id.value else "", if slot.name.Some? then slot.name.value
        else "", slot.arguments)
  }

  predicate IdsDiffer(slots: map<nat, Slot>) {
    forall i, j :: i in slots && j in slots && i != j && slots[i].id.Some? ==> slots[i].id != slots[j].id
  }

  predicate Sorted(keys: seq<nat>) {
    forall i, j :: 0 <= i < j < |keys| ==> keys[i] < keys[j]
  }

  ghost predicate IsLeast(s: set<nat>, m: nat) {
    m in s && forall k :: k in s ==> m <= k
  }

  lemma {:induction false} Least(s: set<nat>) returns (m: nat)
    requires s != {}
    ensures IsLeast(s, m)
    decreases |s|
  {
    var x :| x in s;
    var rest := s - {x};
    m := x;
    if rest != {} {
      var other := Least(rest);
      m := if other <= x then other else x;
    }
    forall k | k in s ensures m <= k {
      assert k == x || k in rest;
    }
  }

  lemma LeastExists(s: set<nat>)
    requires s != {}
    ensures exists m :: m in s && forall k :: k in s ==> m <= k
  {
    var m := Least(s);
  }

  function Ascending(s: set<nat>): (keys: seq<nat>)
    ensures Sorted(keys) && |keys| == |s| && forall k :: k in keys <==> k in s
  {
    if s == {} then []
    else
      LeastExists(s);
      var m :| m in s && forall k :: k in s ==> m <= k;
      var rest := Ascending(s - {m});
      ConsAscending(m, rest, s);
      [m] + rest
  }

  lemma ConsAscending(m: nat, rest: seq<nat>, s: set<nat>)
    requires m in s && (forall k :: k in s ==> m <= k)
    requires Sorted(rest) && |rest| == |s - {m}| && forall k :: k in rest <==> k in s - {m}
    ensures Sorted([m] + rest) && |[m] + rest| == |s| && forall k :: k in [m] + rest <==> k in s
  {
    var keys := [m] + rest;
    forall i, j | 0 <= i < j < |keys| ensures keys[i] < keys[j] {
      assert keys[j] == rest[j - 1] && rest[j - 1] in rest;
    }
    forall k ensures k in keys <==> k in s {
      assert k in keys <==> k == m || k in rest;
    }
  }

  function Finalized(slots: map<nat, Slot>): Result<seq<ToolCall>, NativeError> {
    FinalizedFrom(slots, Ascending(slots.Keys), {}, [])
  }

  function FinalizedFrom(slots: map<nat, Slot>, keys: seq<nat>, ids: set<string>, out: seq<ToolCall>)
    : Result<seq<ToolCall>, NativeError>
    requires forall k <- keys :: k in slots
  {
    if keys == [] then Ok(out)
    else
      var slot := slots[keys[0]];
      if !Complete(slot) then Err(Incomplete)
      else if slot.id.value in ids then Err(DuplicateId)
      else FinalizedFrom(slots, keys[1..], ids + {slot.id.value}, out + [CallOf(slot)])
  }

  predicate AllFresh(slots: map<nat, Slot>, keys: seq<nat>, ids: set<string>)
    requires forall k <- keys :: k in slots
  {
    && (forall k <- keys :: Complete(slots[k]) && slots[k].id.value !in ids)
    && forall i, j :: 0 <= i < j < |keys| ==> slots[keys[i]].id != slots[keys[j]].id
  }

  lemma {:induction false} FinalizedFromMeaning(slots: map<nat, Slot>, keys: seq<nat>, ids: set<string>,
      out: seq<ToolCall>)
    requires forall k <- keys :: k in slots
    ensures FinalizedFrom(slots, keys, ids, out).Ok? <==> AllFresh(slots, keys, ids)
    ensures FinalizedFrom(slots, keys, ids, out).Ok? ==>
              FinalizedFrom(slots, keys, ids, out).value
                  == out + seq(|keys|, i requires 0 <= i < |keys| => CallOf(slots[keys[i]]))
    decreases |keys|
  {
    if keys != [] {
      var slot, rest := slots[keys[0]], keys[1..];
      if Complete(slot) && slot.id.value !in ids {
        FinalizedFromMeaning(slots, rest, ids + {slot.id.value}, out + [CallOf(slot)]);
        FreshStep(slots, keys, ids);
      } else {
        assert keys[0] in keys;
      }
    }
  }

  lemma FreshStep(slots: map<nat, Slot>, keys: seq<nat>, ids: set<string>)
    requires keys != [] && forall k <- keys :: k in slots
    requires Complete(slots[keys[0]]) && slots[keys[0]].id.value !in ids
    ensures AllFresh(slots, keys, ids) <==> AllFresh(slots, keys[1..], ids + {slots[keys[0]].id.value})
  {
    var id, rest := slots[keys[0]].id, keys[1..];
    if AllFresh(slots, keys, ids) {
      forall k | k in rest ensures Complete(slots[k]) && slots[k].id.value !in ids + {id.value} {
        var i :| 0 <= i < |rest| && rest[i] == k;
        assert keys[i + 1] == k && k in keys;
      }
      assert forall i, j :: 0 <= i < j < |rest| ==> rest[i] == keys[i + 1] && rest[j] == keys[j + 1];
    }
    if AllFresh(slots, rest, ids + {id.value}) {
      forall k | k in keys ensures Complete(slots[k]) && slots[k].id.value !in ids {
        assert k == keys[0] || k in rest;
      }
      forall i, j | 0 <= i < j < |keys| ensures slots[keys[i]].id != slots[keys[j]].id {
        assert keys[j] == rest[j - 1] && keys[j] in rest;
        assert i > 0 ==> keys[i] == rest[i - 1];
      }
    }
  }

  lemma CompleteHasId(slot: Slot)
    requires Complete(slot)
    ensures slot.id.Some?
  {
  }

  /** Finalisation succeeds iff every call has its id and name and no id is reused. */
  lemma FinalizeMeaning(slots: map<nat, Slot>, keys: seq<nat>, ids: set<string>, out: seq<ToolCall>)
    requires keys == Ascending(slots.Keys) && ids == {} && out == []
    ensures Finalized(slots).Ok? <==> (forall index <- slots :: Complete(slots[index])) && IdsDiffer(slots)
    ensures Finalized(slots).Ok? ==>
              && |Finalized(slots).value| == |slots|
              && forall i :: 0 <= i < |slots| ==> Finalized(slots).value[i] == CallOf(slots[keys[i]])
  {
    hide Ascending, Complete, CallOf, FinalizedFrom;
    FinalizedFromMeaning(slots, keys, ids, out);
    assert |slots| == |slots.Keys|;
    FreshMeaning(slots, keys);
  }

  lemma FreshMeaning(slots: map<nat, Slot>, keys: seq<nat>)
    requires keys == Ascending(slots.Keys)
    ensures AllFresh(slots, keys, {}) <==> (forall index <- slots :: Complete(slots[index])) && IdsDiffer(slots)
  {
    hide Ascending, Complete;
    if (forall index <- slots :: Complete(slots[index])) && IdsDiffer(slots) {
      forall i, j | 0 <= i < j < |keys| ensures slots[keys[i]].id != slots[keys[j]].id {
        assert keys[i] in slots && Complete(slots[keys[i]]) && keys[i] < keys[j];
        CompleteHasId(slots[keys[i]]);
      }
      assert AllFresh(slots, keys, {});
    }
    if AllFresh(slots, keys, {}) {
      forall i, j | i in slots && j in slots && i != j && slots[i].id.Some? ensures slots[i].id != slots[j].id {
        var p :| 0 <= p < |keys| && keys[p] == i;
        var q :| 0 <= q < |keys| && keys[q] == j;
      }
    }
  }

  // ----------------------------------------------------------------- interleaving independence

  function SumBelow(f: nat -> nat, n: nat): nat {
    if n == 0 then 0 else SumBelow(f, n - 1) + f(n - 1)
  }

  lemma {:induction false} SumBump(f: nat -> nat, g: nat -> nat, k: nat, n: nat)
    requires forall i: nat :: i != k ==> f(i) == g(i)
    ensures SumBelow(g, n) == SumBelow(f, n) + if k < n then g(k) - f(k) else 0
  {
    if n > 0 {
      SumBump(f, g, k, n - 1);
    }
  }

  lemma {:induction false} SumZero(f: nat -> nat, n: nat)
    requires forall i: nat :: f(i) == 0
    ensures SumBelow(f, n) == 0
  {
    if n > 0 {
      SumZero(f, n - 1);
    }
  }

  lemma {:induction false} SumSame(f: nat -> nat, g: nat -> nat, n: nat)
    requires forall i: nat :: f(i) == g(i)
    ensures SumBelow(f, n) == SumBelow(g, n)
  {
    if n > 0 {
      SumSame(f, g, n - 1);
    }
  }

  lemma {:induction false} SubSub(ds: seq<Delta>, index: nat)
    ensures Sub(Sub(ds, index), index) == Sub(ds, index)
  {
    if ds != [] {
      var front, last := ds[..|ds| - 1], ds[|ds| - 1];
      SubSub(front, index);
      if last.index == index {
        SubStep(Sub(front, index), last, index);
      } else {
        assert Sub(front, index) + [] == Sub(front, index);
      }
    }
  }

  /** The running totals are the sums of what the calls contribute one by one. */
  lemma {:induction false} TotalsAreSums(ds: seq<Delta>, n: nat)
    requires forall index <- Indexes(ds) :: index < n
    ensures ArgumentBytes(ds) == SumBelow((i: nat) => ArgumentBytes(Sub(ds, i)), n)
    ensures StallCount(ds) == SumBelow((i: nat) => StallCount(Sub(ds, i)), n)
  {
    hide ByteLen, SlotOf, Stalls;
    if ds == [] {
      SumZero((i: nat) => ArgumentBytes(Sub(ds, i)), n);
      SumZero((i: nat) => StallCount(Sub(ds, i)), n);
    } else {
      var front, d := ds[..|ds| - 1], ds[|ds| - 1];
      assert ds == front + [d];
      CountStep(front, d);
      TotalsAreSums(front, n);
      TotalsStep(front, d, n);
    }
  }

  lemma TotalsStep(ds: seq<Delta>, d: Delta, n: nat)
    requires d.index < n
    ensures SumBelow((i: nat) => ArgumentBytes(Sub(ds + [d], i)), n)
         == SumBelow((i: nat) => ArgumentBytes(Sub(ds, i)), n) + ByteLen(TextOf(d.arguments))
    ensures SumBelow((i: nat) => StallCount(Sub(ds + [d], i)), n)
         == SumBelow((i: nat) => StallCount(Sub(ds, i)), n) + if Stalls(SlotOf(Sub(ds, d.index)), d) then 1 else 0
  {
    hide ByteLen, SlotOf, Stalls, Sub, ArgumentBytes, StallCount, SumBelow;
    forall i: nat ensures Sub(ds + [d], i) == if i == d.index then Sub(ds, i) + [d] else Sub(ds, i) {
      SubStep(ds, d, i);
      assert Sub(ds, i) + [] == Sub(ds, i);
    }
    CountStep(Sub(ds, d.index), d);
    SubSub(ds, d.index);
    SumBump((i: nat) => ArgumentBytes(Sub(ds, i)), (i: nat) => ArgumentBytes(Sub(ds + [d], i)), d.index, n);
    SumBump((i: nat) => StallCount(Sub(ds, i)), (i: nat) => StallCount(Sub(ds + [d], i)), d.index, n);
  }

  ghost predicate SamePerIndex(a: seq<Delta>, b: seq<Delta>) {
    forall i: nat :: Sub(a, i) == Sub(b, i)
  }

  lemma {:induction false} Bounded(s: set<nat>) returns (n: nat)
    ensures forall index <- s :: index < n
  {
    if s == {} {
      n := 0;
    } else {
      var x :| x in s;
      var m := Bounded(s - {x});
      n := if x < m then m else x + 1;
      assert forall index <- s :: index in s - {x} || index == x;
    }
  }

  /** Streams that agree call by call are accepted or rejected alike, whatever their interleaving, with one result. */
  lemma InterleavingIndependence(a: seq<Delta>, b: seq<Delta>)
    requires SamePerIndex(a, b)
    ensures Acceptable(a) <==> Acceptable(b)
    ensures SlotsOf(a) == SlotsOf(b) && Finalized(SlotsOf(a)) == Finalized(SlotsOf(b))
    ensures ArgumentBytes(a) == ArgumentBytes(b) && StallCount(a) == StallCount(b)
  {
    hide Sub, SlotOf, ArgumentBytes, StallCount, SlotAccepts, Finalized, Indexes, SumBelow;
    forall i: nat ensures i in Indexes(a) <==> i in Indexes(b) {
      SubEmpty(a, i);
      SubEmpty(b, i);
    }
    assert Indexes(a) == Indexes(b);
    var n := Bounded(Indexes(a));
    TotalsAreSums(a, n);
    TotalsAreSums(b, n);
    SumSame((i: nat) => ArgumentBytes(Sub(a, i)), (i: nat) => ArgumentBytes(Sub(b, i)), n);
    SumSame((i: nat) => StallCount(Sub(a, i)), (i: nat) => StallCount(Sub(b, i)), n);
  }

  /** Rejection is final: an acceptable stream has only acceptable prefixes. */
  lemma AcceptablePrefix(ds: seq<Delta>, d: Delta)
    requires Acceptable(ds + [d])
    ensures Acceptable(ds)
  {
    hide Sub, SlotOf, ArgumentBytes, StallCount, SlotAccepts, Indexes, Stalls, ByteLen, Stable;
    CountStep(ds, d);
    MemberCount(Indexes(ds), d.index);
    forall index: nat ensures SlotAccepts(Sub(ds, index)) {
      SubStep(ds, d, index);
      SlotStep(Sub(ds, index), d);
      assert Sub(ds, index) + [] == Sub(ds, index);
      assert SlotAccepts(Sub(ds + [d], index));
    }
  }
}
