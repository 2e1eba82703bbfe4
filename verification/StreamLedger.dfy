// What became of every piece of a streamed run: tool entries, segments, and where each chunk ended up.
module StreamLedger {
  import opened Wrappers

  // ----------------------------------------------------------------------------- tool entries

  const UNKNOWN := "(unknown)"

  datatype Entry = Entry(id: string, name: string, input: string, content: Option<string>, isError: bool,
      resolved: bool)

  datatype Call = Call(id: string, name: string, input: string)

  datatype ToolOutcome = ToolOutcome(callId: string, content: string, isError: bool)

  predicate UniqueIds(entries: seq<Entry>) {
    forall i, j | 0 <= i < j < |entries| :: entries[i].id != entries[j].id
  }

  /** Position of the entry with this id, or the length. */
  function Position(entries: seq<Entry>, id: string): (i: nat)
    ensures i <= |entries| && (i < |entries| ==> entries[i].id == id)
    ensures forall j | 0 <= j < i :: entries[j].id != id
  {
    if entries == [] then 0 else if entries[0].id == id then 0 else 1 + Position(entries[1..], id)
  }

  function Lookup(entries: seq<Entry>, id: string): Option<Entry> {
    var i := Position(entries, id);
    if i < |entries| then Some(entries[i]) else None
  }

  function AddCall(entries: seq<Entry>, call: Call): seq<Entry> {
    var i := Position(entries, call.id);
    if i == |entries| then entries + [Entry(call.id, call.name, call.input, None, false, false)]
    else if entries[i].name == UNKNOWN then entries[i := entries[i].(name := call.name, input := call.input)]
    else entries
  }

  /** A result without a call leaves a placeholder, so that it is not lost. */
  function AddResult(entries: seq<Entry>, result: ToolOutcome): seq<Entry> {
    var i := Position(entries, result.callId);
    if i == |entries| then entries + [Entry(result.callId, UNKNOWN, "", Some(result.content), result.isError, true)]
    else entries[i := entries[i].(content := Some(result.content), isError := result.isError, resolved := true)]
  }

  function AddCalls(entries: seq<Entry>, calls: seq<Call>): seq<Entry> {
    if calls == [] then entries else AddCall(AddCalls(entries, calls[..|calls| - 1]), calls[|calls| - 1])
  }

  function AddResults(entries: seq<Entry>, results: seq<ToolOutcome>): seq<Entry> {
    if results == [] then entries else AddResult(AddResults(entries, results[..|results| - 1]), results[|results| - 1])
  }

  lemma {:induction false} PositionIs(entries: seq<Entry>, id: string, i: nat)
    requires i <= |entries| && (i < |entries| ==> entries[i].id == id) && forall j | 0 <= j < i :: entries[j].id != id
    ensures Position(entries, id) == i
  {
  }

  lemma {:induction false} CallsStayUnique(entries: seq<Entry>, calls: seq<Call>)
    requires UniqueIds(entries)
    ensures UniqueIds(AddCalls(entries, calls))
  {
    if calls != [] {
      CallsStayUnique(entries, calls[..|calls| - 1]);
    }
  }

  lemma {:induction false} ResultsStayUnique(entries: seq<Entry>, results: seq<ToolOutcome>)
    requires UniqueIds(entries)
    ensures UniqueIds(AddResults(entries, results))
  {
    if results != [] {
      ResultsStayUnique(entries, results[..|results| - 1]);
    }
  }

  lemma LookupAfterCall(entries: seq<Entry>, call: Call, id: string)
    ensures Lookup(AddCall(entries, call), id) ==
            if id != call.id then Lookup(entries, id)
            else match Lookup(entries, id)
                 case None => Some(Entry(call.id, call.name, call.input, None, false, false))
                 case Some(e) => Some(if e.name == UNKNOWN then e.(name := call.name, input := call.input) else e)
  {
    var i := Position(entries, id);
    PositionIs(AddCall(entries, call), id, if i < |entries| || id == call.id then i else |AddCall(entries, call)|);
  }

  lemma LookupAfterResult(entries: seq<Entry>, result: ToolOutcome, id: string)
    ensures Lookup(AddResult(entries, result), id) ==
            if id != result.callId then Lookup(entries, id)
            else match Lookup(entries, id)
                 case None => Some(Entry(id, UNKNOWN, "", Some(result.content), result.isError, true))
                 case Some(e) => Some(e.(content := Some(result.content), isError := result.isError, resolved := true))
  {
    var i := Position(entries, id);
    PositionIs(AddResult(entries, result), id, if i < |entries| || id == result.callId then i
        else |AddResult(entries, result)|);
  }

  /** A result that overtakes its call, or any other call, leaves every entry the same. */
  lemma ArrivalOrderIrrelevant(entries: seq<Entry>, call: Call, result: ToolOutcome, id: string)
    ensures Lookup(AddResult(AddCall(entries, call), result), id)
              == Lookup(AddCall(AddResult(entries, result), call), id)
  {
    hide Lookup, AddCall, AddResult;
    LookupAfterCall(entries, call, id);
    LookupAfterResult(entries, result, id);
    LookupAfterCall(AddResult(entries, result), call, id);
    LookupAfterResult(AddCall(entries, call), result, id);
  }

  // --------------------------------------------------------------------------- chunks and segments

  datatype Kind = ThinkingKind | TextKind

  datatype Op =
    | Piece(kind: Kind, text: string)
    | ToolCalls(calls: seq<Call>)
    | ToolResults(results: seq<ToolOutcome>)
    | Reset
    | Advance(iteration: nat)

  /** One accepted chunk, by its position in the run. */
  datatype Chunk = Chunk(id: nat, text: string)

  datatype Segment = Segment(thinking: seq<Chunk>, text: seq<Chunk>, tools: seq<Entry>)

  const NO_SEGMENT := Segment([], [], [])

  datatype Ledger = Ledger(committed: seq<Segment>, open: Segment, iteration: nat)

  function Part(segment: Segment, kind: Kind): seq<Chunk> {
    if kind.ThinkingKind? then segment.thinking else segment.text
  }

  function Fold(ops: seq<Op>): Ledger {
    if ops == [] then Ledger([], NO_SEGMENT, 0)
    else
      var n := |ops| - 1;
      var l := Fold(ops[..n]);
      match ops[n]
      case Piece(ThinkingKind, t) => l.(open := l.open.(thinking := l.open.thinking + [Chunk(n, t)]))
      case Piece(TextKind, t) => l.(open := l.open.(text := l.open.text + [Chunk(n, t)]))
      case ToolCalls(calls) => l.(open := l.open.(tools := AddCalls(l.open.tools, calls)))
      case ToolResults(results) => l.(open := l.open.(tools := AddResults(l.open.tools, results)))
      case Reset => l.(open := NO_SEGMENT.(tools := l.open.tools))
      case Advance(iteration) => Ledger(if l.iteration > 0 then l.committed + [l.open]
          else l.committed, NO_SEGMENT, iteration)
  }

  function Join(chunks: seq<Chunk>): string {
    if chunks == [] then "" else Join(chunks[..|chunks| - 1]) + chunks[|chunks| - 1].text
  }

  lemma JoinStep(chunks: seq<Chunk>, c: Chunk)
    ensures Join(chunks + [c]) == Join(chunks) + c.text
  {
    assert (chunks + [c])[..|chunks|] == chunks;
  }

  lemma FoldStep(ops: seq<Op>, op: Op)
    ensures (ops + [op])[..|ops|] == ops && (ops + [op])[|ops|] == op
  {
  }

  function Flat(segments: seq<Segment>, kind: Kind): seq<Chunk> {
    if segments == [] then [] else Flat(segments[..|segments| - 1], kind) + Part(segments[|segments| - 1], kind)
  }

  // ------------------------------------------------------------------------- exactly once

  predicate NoAdvance(ops: seq<Op>, a: nat, b: nat)
    requires b <= |ops|
  {
    forall k | a <= k < b :: !ops[k].Advance?
  }

  /** A chunk is dropped by a reset of its iteration, or by the first iteration starting after it. */
  predicate Dropped(ops: seq<Op>, i: nat)
    requires i < |ops|
  {
    || (exists j | i < j < |ops| :: ops[j].Reset? && NoAdvance(ops, i, j))
    || (NoAdvance(ops, 0, i) && exists j | i < j < |ops| :: ops[j].Advance?)
  }

  predicate IsPiece(ops: seq<Op>, i: nat, kind: Kind) {
    i < |ops| && ops[i].Piece? && ops[i].kind == kind
  }

  predicate Increasing(chunks: seq<Chunk>) {
    forall i, j | 0 <= i < j < |chunks| :: chunks[i].id < chunks[j].id
  }

  /** The chunk comes from this run, is unchanged, and was not dropped. */
  predicate Genuine(ops: seq<Op>, c: Chunk, kind: Kind) {
    IsPiece(ops, c.id, kind) && ops[c.id].text == c.text && !Dropped(ops, c.id)
  }

  /** `done` and `open` together hold exactly the chunks that were not dropped; `open` those since the last advance. */
  ghost predicate AccountedFor(ops: seq<Op>, kind: Kind, done: seq<Chunk>, open: seq<Chunk>, begun: bool) {
    && Increasing(done + open)
    && (forall c <- done :: Genuine(ops, c, kind) && !NoAdvance(ops, c.id, |ops|))
    && (forall c <- open :: Genuine(ops, c, kind) && NoAdvance(ops, c.id, |ops|))
    && (forall i: nat | IsPiece(ops, i, kind) && !Dropped(ops, i) :: Chunk(i, ops[i].text) in done
         || Chunk(i, ops[i].text) in open)
    && (begun <==> !NoAdvance(ops, 0, |ops|))
    && (!begun ==> done == [])
  }

  ghost predicate Accounted(ops: seq<Op>, kind: Kind) {
    var l := Fold(ops);
    AccountedFor(ops, kind, Flat(l.committed, kind), Part(l.open, kind), l.iteration > 0)
        && (l.iteration == 0 ==> l.committed == [])
  }

  /** Every advance of a real run starts a positive iteration. */
  predicate Positive(ops: seq<Op>) {
    forall op <- ops :: op.Advance? ==> op.iteration > 0
  }

  lemma NoAdvanceStep(ops: seq<Op>, op: Op, a: nat, b: nat)
    requires b <= |ops|
    ensures NoAdvance(ops + [op], a, b) <==> NoAdvance(ops, a, b)
    ensures a <= |ops| ==> (NoAdvance(ops + [op], a, |ops| + 1) <==> NoAdvance(ops, a, |ops|) && !op.Advance?)
  {
    assert forall k | 0 <= k < |ops| :: (ops + [op])[k] == ops[k];
    assert (ops + [op])[|ops|] == op;
  }

  lemma DroppedStep(ops: seq<Op>, op: Op, i: nat)
    requires i < |ops|
    ensures Dropped(ops + [op], i) <==>
              Dropped(ops, i) || (op.Reset? && NoAdvance(ops, i, |ops|)) || (op.Advance? && NoAdvance(ops, 0, i))
  {
    var more := ops + [op];
    assert forall k | 0 <= k < |ops| :: more[k] == ops[k];
    assert more[|ops|] == op;
    forall j | i < j <= |ops| ensures NoAdvance(more, i, j) <==> NoAdvance(ops, i, j) {
      NoAdvanceStep(ops, op, i, j);
    }
    NoAdvanceStep(ops, op, 0, i);
    if Dropped(more, i) {
      if j :| i < j < |more| && more[j].Reset? && NoAdvance(more, i, j) {
        if j < |ops| {
          assert ops[j].Reset? && NoAdvance(ops, i, j);
        }
      } else {
        var j :| i < j < |more| && more[j].Advance?;
        if j < |ops| {
          assert ops[j].Advance?;
        }
      }
    }
    if Dropped(ops, i) {
      if j :| i < j < |ops| && ops[j].Reset? && NoAdvance(ops, i, j) {
        assert more[j].Reset? && NoAdvance(more, i, j);
      } else {
        var j :| i < j < |ops| && ops[j].Advance?;
        assert more[j].Advance?;
      }
    }
  }

  /** A fresh chunk is not dropped yet. */
  lemma FreshIsKept(ops: seq<Op>, op: Op)
    ensures !Dropped(ops + [op], |ops|)
  {
  }

  lemma FlatSnoc(segments: seq<Segment>, segment: Segment, kind: Kind)
    ensures Flat(segments + [segment], kind) == Flat(segments, kind) + Part(segment, kind)
  {
    assert (segments + [segment])[..|segments|] == segments;
  }

  lemma EarlierOps(ops: seq<Op>, op: Op)
    ensures forall i | 0 <= i < |ops| :: (ops + [op])[i] == ops[i]
    ensures forall i | 0 <= i < |ops| ::
              (Dropped(ops + [op], i) <==>
                 Dropped(ops, i) || (op.Reset? && NoAdvance(ops, i, |ops|)) || (op.Advance? && NoAdvance(ops, 0, i)))
              && (NoAdvance(ops + [op], i, |ops| + 1) <==> NoAdvance(ops, i, |ops|) && !op.Advance?)
    ensures NoAdvance(ops + [op], 0, |ops| + 1) <==> NoAdvance(ops, 0, |ops|) && !op.Advance?
  {
    hide Dropped, NoAdvance;
    forall i | 0 <= i < |ops|
      ensures (Dropped(ops + [op], i) <==>
                 Dropped(ops, i) || (op.Reset? && NoAdvance(ops, i, |ops|)) || (op.Advance? && NoAdvance(ops, 0, i)))
              && (NoAdvance(ops + [op], i, |ops| + 1) <==> NoAdvance(ops, i, |ops|) && !op.Advance?)
    {
      DroppedStep(ops, op, i);
      NoAdvanceStep(ops, op, i, |ops|);
    }
    NoAdvanceStep(ops, op, 0, |ops|);
  }

  lemma QuietStep(ops: seq<Op>, op: Op, kind: Kind, done: seq<Chunk>, open: seq<Chunk>, begun: bool)
    requires AccountedFor(ops, kind, done, open, begun) && !op.Reset? && !op.Advance? && !(op.Piece? && op.kind == kind)
    ensures AccountedFor(ops + [op], kind, done, open, begun)
  {
    hide Dropped, NoAdvance;
    EarlierOps(ops, op);
    assert (ops + [op])[|ops|] == op;
  }

  lemma PieceStep(ops: seq<Op>, op: Op, kind: Kind, done: seq<Chunk>, open: seq<Chunk>, begun: bool)
    requires AccountedFor(ops, kind, done, open, begun) && op.Piece? && op.kind == kind
    ensures AccountedFor(ops + [op], kind, done, open + [Chunk(|ops|, op.text)], begun)
  {
    hide Dropped, NoAdvance;
    EarlierOps(ops, op);
    FreshIsKept(ops, op);
    LastRange(ops, op);
    var more, c := ops + [op], Chunk(|ops|, op.text);
    assert more[|ops|] == op && Genuine(more, c, kind);
    assert forall x <- done :: x.id < |ops|;
    assert forall x <- open :: x.id < |ops|;
    IncreasingSnoc(done, open, c);
  }

  lemma LastRange(ops: seq<Op>, op: Op)
    requires !op.Advance?
    ensures NoAdvance(ops + [op], |ops|, |ops| + 1)
  {
  }

  lemma IncreasingSnoc(done: seq<Chunk>, open: seq<Chunk>, c: Chunk)
    requires Increasing(done + open) && (forall x <- done :: x.id < c.id) && (forall x <- open :: x.id < c.id)
    ensures Increasing(done + (open + [c]))
  {
    assert done + (open + [c]) == (done + open) + [c];
    assert forall i | 0 <= i < |done + open| :: (done + open)[i] in done || (done + open)[i] in open;
  }

  lemma ResetStep(ops: seq<Op>, kind: Kind, done: seq<Chunk>, open: seq<Chunk>, begun: bool)
    requires AccountedFor(ops, kind, done, open, begun)
    ensures AccountedFor(ops + [Reset], kind, done, [], begun)
  {
    hide Dropped, NoAdvance;
    EarlierOps(ops, Reset);
    assert (ops + [Reset])[|ops|] == Reset;
    assert forall i | 0 <= i < |done| :: (done + open)[i] == done[i] && (done + [])[i] == done[i];
  }

  lemma FirstAdvance(ops: seq<Op>, op: Op, kind: Kind, open: seq<Chunk>)
    requires AccountedFor(ops, kind, [], open, false) && op.Advance?
    ensures AccountedFor(ops + [op], kind, [], [], true)
  {
    hide Dropped, NoAdvance;
    EarlierOps(ops, op);
    assert (ops + [op])[|ops|] == op;
    forall i | 0 <= i < |ops| ensures NoAdvance(ops, 0, i) {
      Shorter(ops, i, |ops|);
    }
  }

  lemma StillGenuine(ops: seq<Op>, op: Op, kind: Kind, c: Chunk)
    requires Genuine(ops, c, kind) && op.Advance? && !NoAdvance(ops, 0, |ops|)
    ensures Genuine(ops + [op], c, kind) && !NoAdvance(ops + [op], c.id, |ops| + 1)
  {
    hide Dropped, NoAdvance;
    EarlierOps(ops, op);
    if NoAdvance(ops, 0, c.id) {
      AdvancedLater(ops, c.id);
    }
  }

  lemma LaterAdvance(ops: seq<Op>, op: Op, kind: Kind, done: seq<Chunk>, open: seq<Chunk>)
    requires AccountedFor(ops, kind, done, open, true) && op.Advance?
    ensures AccountedFor(ops + [op], kind, done + open, [], true)
  {
    hide Dropped, NoAdvance, Genuine;
    EarlierOps(ops, op);
    assert (done + open) + [] == done + open && (ops + [op])[|ops|] == op;
    forall c | c in done + open ensures Genuine(ops + [op], c, kind) && !NoAdvance(ops + [op], c.id, |ops| + 1) {
      StillGenuine(ops, op, kind, c);
    }
  }

  lemma Shorter(ops: seq<Op>, i: nat, n: nat)
    requires i <= n <= |ops| && NoAdvance(ops, 0, n)
    ensures NoAdvance(ops, 0, i)
  {
  }

  lemma AdvancedLater(ops: seq<Op>, i: nat)
    requires i < |ops| && ops[i].Piece? && NoAdvance(ops, 0, i) && !NoAdvance(ops, 0, |ops|)
    ensures Dropped(ops, i)
  {
    var k :| 0 <= k < |ops| && ops[k].Advance?;
    assert i < k;
  }

  lemma AccountedStep(ops: seq<Op>, op: Op, kind: Kind)
    requires Accounted(ops, kind) && (op.Advance? ==> op.iteration > 0)
    ensures Accounted(ops + [op], kind)
  {
    hide AccountedFor, AddCalls, AddResults;
    FoldStep(ops, op);
    var l := Fold(ops);
    var done, open, begun := Flat(l.committed, kind), Part(l.open, kind), l.iteration > 0;
    match op {
      case Reset => ResetStep(ops, kind, done, open, begun);
      case Advance(_) =>
        if begun {
          LaterAdvance(ops, op, kind, done, open);
        } else {
          FirstAdvance(ops, op, kind, open);
        }
        FlatSnoc(l.committed, l.open, kind);
      case Piece(other, _) =>
        if other == kind {
          PieceStep(ops, op, kind, done, open, begun);
        } else {
          QuietStep(ops, op, kind, done, open, begun);
        }
      case _ => QuietStep(ops, op, kind, done, open, begun);
    }
  }

  /** Every chunk accepted in a run is kept exactly once, unchanged and in order, unless it was dropped. */
  lemma {:induction false} ExactlyOnce(ops: seq<Op>, kind: Kind)
    requires Positive(ops)
    ensures Accounted(ops, kind)
  {
    hide Accounted;
    if ops == [] {
      NothingYet(kind);
    } else {
      var front, op := ops[..|ops| - 1], ops[|ops| - 1];
      assert ops == front + [op] && op in ops && forall o <- front :: o in ops;
      ExactlyOnce(front, kind);
      AccountedStep(front, op, kind);
    }
  }

  lemma NothingYet(kind: Kind)
    ensures Accounted([], kind)
  {
  }
}
