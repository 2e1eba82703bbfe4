// The index of backtick runs that lets the tag scanner skip closed code spans, proved
// against a naive search of the text.
module Backticks {
  import opened Wrappers
  import opened Markdown

  type Blocks = seq<(nat, nat)>

  // ------------------------------------------------------------ reference reading of the text

  /** A maximal run of exactly `width` backticks. */
  predicate TickRun(text: string, p: nat, width: nat) {
    && width >= 1 && p + width <= |text|
    && (forall k | p <= k < p + width :: text[k] == '`')
    && (p == 0 || text[p - 1] != '`')
    && (p + width == |text| || text[p + width] != '`')
  }

  predicate Unprotected(blocks: Blocks, p: nat) {
    forall k | 0 <= k < |blocks| :: !(blocks[k].0 <= p < blocks[k].1)
  }

  /** The line starting at `line` opens a backtick fence whose run starts at `p`. */
  predicate TickFenceOn(text: string, line: nat, p: nat) {
    && line < |text| && IsLineStart(text, line)
    && var opening := FenceOpeningAt(text, line, LineEnd(text, line));
       opening.Some? && opening.value.fence.marker == '`' && opening.value.content == p
  }

  ghost predicate FenceStart(text: string, p: nat) {
    exists line: nat :: TickFenceOn(text, line, p)
  }

  /** Number of backslashes directly before `p`. */
  function BackslashesBefore(text: string, p: nat): nat
    requires p <= |text|
  {
    if p > 0 && text[p - 1] == '\\' then 1 + BackslashesBefore(text, p - 1) else 0
  }

  predicate Escaped(text: string, p: nat)
    requires p <= |text|
  {
    BackslashesBefore(text, p) % 2 == 1
  }

  /** A whole run outside protected blocks that is not a fence. */
  ghost predicate InlineRun(text: string, blocks: Blocks, p: nat, width: nat) {
    TickRun(text, p, width) && Unprotected(blocks, p) && !FenceStart(text, p)
  }

  /** The part of an escaped run that is left once its first backtick is taken literally. */
  ghost predicate SplitRun(text: string, blocks: Blocks, p: nat, width: nat) {
    p > 0 && width >= 1 && InlineRun(text, blocks, p - 1, width + 1) && Escaped(text, p - 1)
  }

  /** A run of this width that may close a code span. */
  ghost predicate Delimiter(text: string, blocks: Blocks, p: nat, width: nat) {
    InlineRun(text, blocks, p, width) || SplitRun(text, blocks, p, width)
  }

  /** A run of this width that may open a code span. */
  ghost predicate OpensSpan(text: string, blocks: Blocks, p: nat, width: nat) {
    (InlineRun(text, blocks, p, width) && !Escaped(text, p)) || SplitRun(text, blocks, p, width)
  }

  /** Naive forward search: the end of the first delimiter of this width at or after `from`. */
  ghost function FirstDelimiter(text: string, blocks: Blocks, from: nat, width: nat): (r: Option<nat>)
    ensures r.Some? ==> from < r.value <= |text|
    decreases |text| - from
  {
    if from >= |text| then None
    else if Delimiter(text, blocks, from, width) then Some(from + width)
    else FirstDelimiter(text, blocks, from + 1, width)
  }

  /** End of the code span opened at `p`, if it is closed at all. */
  ghost function CodeSpanEnd(text: string, blocks: Blocks, p: nat, width: nat): (r: Option<nat>) {
    if OpensSpan(text, blocks, p, width) then FirstDelimiter(text, blocks, p + 1, width) else None
  }

  // ------------------------------------------------------------------------- the index

  datatype BacktickIndex = BacktickIndex(byWidth: map<nat, seq<(nat, nat)>>, eligible: set<nat>)

  function Runs(index: BacktickIndex, width: nat): seq<(nat, nat)> {
    if width in index.byWidth then index.byWidth[width] else []
  }

  predicate StrictlyIncreasing(runs: seq<(nat, nat)>) {
    forall j, k | 0 <= j < k < |runs| :: runs[j].0 < runs[k].0
  }

  /** The index holds exactly the delimiters that start before `upTo`, width by width and in order. */
  ghost predicate IndexUpTo(text: string, blocks: Blocks, index: BacktickIndex, upTo: nat) {
    && (forall width: nat :: StrictlyIncreasing(Runs(index, width)))
    && (forall width: nat, k | 0 <= k < |Runs(index, width)| ::
          var run := Runs(index, width)[k];
          run.0 < upTo && run.1 == run.0 + width && Delimiter(text, blocks, run.0, width))
    && (forall width: nat, p: nat | p < upTo
         && Delimiter(text, blocks, p, width) :: (p, p + width) in Runs(index, width))
    && (forall p: nat | p in index.eligible :: p < upTo && exists width: nat :: OpensSpan(text, blocks, p, width))
    && (forall width: nat, p: nat | p < upTo && OpensSpan(text, blocks, p, width) :: p in index.eligible)
  }

  /** `cursor` does not cut a run in two. */
  predicate Between(text: string, cursor: nat) {
    cursor <= |text| && (cursor == |text| || cursor == 0 || text[cursor - 1] != '`' || text[cursor] != '`')
  }

  function Add(index: BacktickIndex, width: nat, run: (nat, nat)): BacktickIndex {
    index.(byWidth := index.byWidth[width := Runs(index, width) + [run]])
  }

  function AddRun(text: string, index: BacktickIndex, p: nat, width: nat): BacktickIndex
    requires p <= |text| && width >= 1
  {
    var whole := Add(index, width, (p, p + width));
    if Escaped(text, p) then
      if width > 1 then
        var split := Add(whole, width - 1, (p + 1, p + width));
        split.(eligible := split.eligible + {p + 1})
      else whole
    else whole.(eligible := whole.eligible + {p})
  }

  lemma NothingBetween(text: string, blocks: Blocks, index: BacktickIndex, from: nat, to: nat)
    requires from <= to && IndexUpTo(text, blocks, index, from)
    requires forall p: nat, width: nat | from <= p < to :: !Delimiter(text, blocks, p, width)
    ensures IndexUpTo(text, blocks, index, to)
  {
    assert forall p: nat, width: nat | OpensSpan(text, blocks, p, width) :: Delimiter(text, blocks, p, width);
  }

  /** Inside one run only its start, and after an escaping backslash the position behind it, delimit anything. */
  lemma DelimitersOfRun(text: string, blocks: Blocks, p: nat, width: nat, q: nat, v: nat)
    requires InlineRun(text, blocks, p, width) && p <= q < p + width
    ensures Delimiter(text, blocks, q, v) <==>
              (q == p && v == width) || (Escaped(text, p) && q == p + 1 && v == width - 1 && v >= 1)
    ensures OpensSpan(text, blocks, q, v) <==>
              (!Escaped(text, p) && q == p && v == width)
                  || (Escaped(text, p) && q == p + 1 && v == width - 1 && v >= 1)
  {
    hide FenceStart, Unprotected, Escaped;
    if q == p {
      if InlineRun(text, blocks, p, v) { SameRun(text, p, width, v); }
      assert !SplitRun(text, blocks, p, v);
    } else {
      assert text[q - 1] == '`';
      assert !InlineRun(text, blocks, q, v);
      if q == p + 1 {
        if SplitRun(text, blocks, q, v) { SameRun(text, p, width, v + 1); }
        if v >= 1 && v == width - 1 { assert InlineRun(text, blocks, q - 1, v + 1); }
      } else {
        assert text[q - 2] == '`';
      }
    }
  }

  lemma SameRun(text: string, p: nat, v: nat, w: nat)
    requires TickRun(text, p, v) && TickRun(text, p, w)
    ensures v == w
  {
  }

  lemma AddKeepsOrder(text: string, blocks: Blocks, index: BacktickIndex, width: nat, run: (nat, nat))
    requires forall w: nat :: StrictlyIncreasing(Runs(index, w))
    requires forall k | 0 <= k < |Runs(index, width)| :: Runs(index, width)[k].0 < run.0
    ensures forall w: nat :: StrictlyIncreasing(Runs(Add(index, width, run), w))
    ensures forall w: nat :: Runs(Add(index, width, run), w) == Runs(index, w) + (if w == width then [run] else [])
  {
    forall w: nat
      ensures StrictlyIncreasing(Runs(Add(index, width, run), w))
      ensures Runs(Add(index, width, run), w) == Runs(index, w) + (if w == width then [run] else [])
    {
      if w != width { assert Runs(index, w) + [] == Runs(index, w); }
    }
  }

  /** What one run adds to the list of width `w`. */
  function NewRuns(p: nat, width: nat, escaped: bool, w: nat): seq<(nat, nat)> {
    if w == width then [(p, p + width)]
    else if escaped && w >= 1 && w + 1 == width then [(p + 1, p + width)]
    else []
  }

  function NewOpening(p: nat, width: nat, escaped: bool): set<nat> {
    if !escaped then {p} else if width > 1 then {p + 1} else {}
  }

  lemma RunsAfterAdd(text: string, blocks: Blocks, index: BacktickIndex, p: nat, width: nat)
    requires p + width <= |text| && width >= 1
    requires IndexUpTo(text, blocks, index, p)
    ensures var added := AddRun(text, index, p, width);
            && (forall w: nat :: Runs(added, w) == Runs(index, w) + NewRuns(p, width, Escaped(text, p), w))
            && (forall w: nat :: StrictlyIncreasing(Runs(added, w)))
            && added.eligible == index.eligible + NewOpening(p, width, Escaped(text, p))
  {
    hide Delimiter, OpensSpan, Escaped, StrictlyIncreasing, Runs, IndexUpTo, Add;
    EarlierRuns(text, blocks, index, p);
    AddKeepsOrder(text, blocks, index, width, (p, p + width));
    var whole := Add(index, width, (p, p + width));
    if Escaped(text, p) && width > 1 {
      assert Runs(whole, width - 1) == Runs(index, width - 1) + [];
      AddKeepsOrder(text, blocks, whole, width - 1, (p + 1, p + width));
    }
    EligibleAfterAdd(text, index, p, width);
    assert forall w: nat :: Runs(index, w) + [] == Runs(index, w);
  }

  lemma EarlierRuns(text: string, blocks: Blocks, index: BacktickIndex, p: nat)
    requires IndexUpTo(text, blocks, index, p)
    ensures forall w: nat :: StrictlyIncreasing(Runs(index, w))
    ensures forall w: nat, k | 0 <= k < |Runs(index, w)| :: Runs(index, w)[k].0 < p
  {
    hide Delimiter, OpensSpan, StrictlyIncreasing, Runs;
  }

  lemma EligibleAfterAdd(text: string, index: BacktickIndex, p: nat, width: nat)
    requires p <= |text| && width >= 1
    ensures AddRun(text, index, p, width).eligible == index.eligible + NewOpening(p, width, Escaped(text, p))
    ensures forall w: nat ::
              Runs(AddRun(text, index, p, width), w) ==
              Runs(if Escaped(text, p) && width > 1
                   then Add(Add(index, width, (p, p + width)), width - 1, (p + 1, p + width))
                   else Add(index, width, (p, p + width)), w)
  {
    hide Escaped;
  }

  lemma IndexExtends(text: string, blocks: Blocks, index: BacktickIndex, added: BacktickIndex, p: nat, width: nat,
      escaped: bool)
    requires width >= 1 && IndexUpTo(text, blocks, index, p)
    requires forall w: nat :: Runs(added, w) == Runs(index, w) + NewRuns(p, width, escaped, w)
    requires forall w: nat :: StrictlyIncreasing(Runs(added, w))
    requires added.eligible == index.eligible + NewOpening(p, width, escaped)
    requires forall q: nat, v: nat | p <= q < p + width :: Delimiter(text, blocks, q, v)
               <==> (q, q + v) in NewRuns(p, width, escaped, v)
    requires forall q: nat, v: nat | p <= q < p + width ::
               OpensSpan(text, blocks, q, v) <==> q in NewOpening(p, width, escaped) && v == p + width - q
    ensures IndexUpTo(text, blocks, added, p + width)
  {
    hide Delimiter, OpensSpan, StrictlyIncreasing, Runs;
    forall w: nat, k | 0 <= k < |Runs(added, w)|
      ensures var run := Runs(added, w)[k];
              run.0 < p + width && run.1 == run.0 + w && Delimiter(text, blocks, run.0, w)
    {
      var run := Runs(added, w)[k];
      if k < |Runs(index, w)| {
        assert run == Runs(index, w)[k];
      } else {
        assert run in NewRuns(p, width, escaped, w) && run == (run.0, run.0 + w);
      }
    }
    forall w: nat, q: nat | q < p + width && Delimiter(text, blocks, q, w)
      ensures (q, q + w) in Runs(added, w)
    {
      assert q < p ==> (q, q + w) in Runs(index, w);
    }
    forall q: nat | q in added.eligible
      ensures q < p + width && exists w: nat :: OpensSpan(text, blocks, q, w)
    {
      if q !in index.eligible {
        assert OpensSpan(text, blocks, q, p + width - q);
      }
    }
  }

  lemma RunAdded(text: string, blocks: Blocks, index: BacktickIndex, p: nat, width: nat)
    requires p + width <= |text| && InlineRun(text, blocks, p, width)
    requires IndexUpTo(text, blocks, index, p)
    ensures IndexUpTo(text, blocks, AddRun(text, index, p, width), p + width)
  {
    hide Unprotected, FenceStart, Escaped, IndexUpTo, AddRun, Delimiter, OpensSpan;
    forall q: nat, v: nat | p <= q < p + width
      ensures Delimiter(text, blocks, q, v) <==> (q, q + v) in NewRuns(p, width, Escaped(text, p), v)
      ensures OpensSpan(text, blocks, q, v) <==> q in NewOpening(p, width, Escaped(text, p)) && v == p + width - q
    {
      DelimitersOfRun(text, blocks, p, width, q, v);
    }
    RunsAfterAdd(text, blocks, index, p, width);
    IndexExtends(text, blocks, index, AddRun(text, index, p, width), p, width, Escaped(text, p));
  }

  method TickFenceStarts(text: string) returns (starts: set<nat>)
    ensures forall p: nat :: p in starts <==> FenceStart(text, p)
  {
    hide FenceOpeningAt;
    starts := {};
    var lineStart: nat := 0;
    while lineStart < |text|
      invariant lineStart <= |text| && (lineStart == |text| || IsLineStart(text, lineStart))
      invariant forall p: nat :: p in starts <==> exists line: nat :: line < lineStart && TickFenceOn(text, line, p)
    {
      ghost var was := starts;
      var opening := FenceOpeningAt(text, lineStart, LineEnd(text, lineStart));
      if opening.Some? && opening.value.fence.marker == '`' {
        starts := starts + {opening.value.content};
      }
      var next := NextLine(text, lineStart);
      forall p: nat
        ensures p in starts <==> exists line: nat :: line < next && TickFenceOn(text, line, p)
      {
        assert p in starts <==> p in was || TickFenceOn(text, lineStart, p);
        forall line: nat | lineStart < line < next
          ensures !TickFenceOn(text, line, p)
        {
        }
      }
      lineStart := next;
    }
  }

  method BuildIndex(text: string, blocks: Blocks) returns (index: BacktickIndex)
    requires Aligned(text, blocks, 0)
    ensures IndexUpTo(text, blocks, index, |text|)
  {
    hide InlineRun, SplitRun, FenceStart, Escaped, AddRun;
    var fenceStarts := TickFenceStarts(text);
    index := BacktickIndex(map[], {});
    var protectedIndex, cursor: nat := 0, 0;
    while cursor < |text|
      invariant protectedIndex <= |blocks| && Between(text, cursor)
      invariant forall k | 0 <= k < protectedIndex :: blocks[k].1 <= cursor
      invariant IndexUpTo(text, blocks, index, cursor)
    {
      hide IndexUpTo, Aligned;
      protectedIndex := SkipPassed(text, blocks, protectedIndex, cursor);
      if protectedIndex < |blocks| && blocks[protectedIndex].0 <= cursor {
        var end := blocks[protectedIndex].1;
        BlockHasNoDelimiter(text, blocks, protectedIndex, cursor);
        NothingBetween(text, blocks, index, cursor, end);
        cursor, protectedIndex := end, protectedIndex + 1;
      } else {
        BeforeNextBlock(text, blocks, protectedIndex, cursor);
        if text[cursor] == '`' {
          var rawWidth := CountRun(text, cursor, '`');
          RunHere(text, blocks, cursor);
          if cursor !in fenceStarts {
            RunAdded(text, blocks, index, cursor, rawWidth);
            index := AddRun(text, index, cursor, rawWidth);
          } else {
            FenceRunHasNoDelimiter(text, blocks, cursor, rawWidth);
            NothingBetween(text, blocks, index, cursor, cursor + rawWidth);
          }
          cursor := cursor + rawWidth;
        } else {
          NoRunHere(text, blocks, cursor);
          NothingBetween(text, blocks, index, cursor, cursor + 1);
          cursor := cursor + 1;
        }
      }
    }
  }

  /** Advance past the blocks that end at or before the cursor. */
  method SkipPassed(text: string, blocks: Blocks, from: nat, cursor: nat) returns (i: nat)
    requires from <= |blocks|
    requires forall k | 0 <= k < from :: blocks[k].1 <= cursor
    ensures from <= i <= |blocks|
    ensures forall k | 0 <= k < i :: blocks[k].1 <= cursor
    ensures i < |blocks| ==> cursor < blocks[i].1
  {
    i := from;
    while i < |blocks| && blocks[i].1 <= cursor
      invariant from <= i <= |blocks|
      invariant forall k | 0 <= k < i :: blocks[k].1 <= cursor
    {
      i := i + 1;
    }
  }

  lemma BlockHasNoDelimiter(text: string, blocks: Blocks, i: nat, cursor: nat)
    requires Aligned(text, blocks, 0) && i < |blocks| && blocks[i].0 <= cursor < blocks[i].1 && Between(text, cursor)
    ensures cursor < blocks[i].1 && Between(text, blocks[i].1)
    ensures forall k | 0 <= k <= i :: blocks[k].1 <= blocks[i].1
    ensures forall p: nat, width: nat | cursor <= p < blocks[i].1 :: !Delimiter(text, blocks, p, width)
  {
    hide FenceStart, Escaped;
    forall p: nat, width: nat | cursor <= p < blocks[i].1
      ensures !Delimiter(text, blocks, p, width)
    {
      if p > cursor { assert blocks[i].0 <= p - 1 < blocks[i].1; }
    }
  }

  lemma BeforeNextBlock(text: string, blocks: Blocks, i: nat, cursor: nat)
    requires Aligned(text, blocks, 0) && i <= |blocks|
    requires forall k | 0 <= k < i :: blocks[k].1 <= cursor
    requires i < |blocks| ==> cursor < blocks[i].0
    ensures Unprotected(blocks, cursor)
  {
    assert forall k | i < k < |blocks| :: blocks[i].1 <= blocks[k].0;
  }

  lemma RunHere(text: string, blocks: Blocks, p: nat)
    requires p < |text| && text[p] == '`' && Between(text, p) && Unprotected(blocks, p)
    ensures var width := RunLength(text, p, '`');
            TickRun(text, p, width) && Between(text, p + width)
                && (!FenceStart(text, p) ==> InlineRun(text, blocks, p, width))
  {
  }

  lemma FenceRunHasNoDelimiter(text: string, blocks: Blocks, p: nat, width: nat)
    requires TickRun(text, p, width) && FenceStart(text, p)
    ensures forall q: nat, v: nat | p <= q < p + width :: !Delimiter(text, blocks, q, v)
  {
    hide FenceStart, Escaped, Unprotected;
    forall q: nat, v: nat | p <= q < p + width
      ensures !Delimiter(text, blocks, q, v)
    {
      if q == p {
        assert !SplitRun(text, blocks, q, v);
      } else {
        assert text[q - 1] == '`';
        if q > p + 1 { assert text[q - 2] == '`'; }
      }
    }
  }

  lemma NoRunHere(text: string, blocks: Blocks, p: nat)
    requires p < |text| && text[p] != '`'
    ensures Between(text, p + 1)
    ensures forall q: nat, v: nat | p <= q < p + 1 :: !Delimiter(text, blocks, q, v)
  {
    hide FenceStart, Escaped, Unprotected;
    forall q: nat, v: nat | p <= q < p + 1
      ensures !Delimiter(text, blocks, q, v)
    {
      assert q == p;
      assert !SplitRun(text, blocks, p, v);
    }
  }

  // ------------------------------------------------------------------ closing a code span

  method BinarySearch(runs: seq<(nat, nat)>, start: nat) returns (i: nat)
    requires StrictlyIncreasing(runs)
    ensures i <= |runs|
    ensures i < |runs| ==> runs[i].0 == start
    ensures i == |runs| ==> forall k | 0 <= k < |runs| :: runs[k].0 != start
  {
    var lo, hi := 0, |runs|;
    while lo < hi
      invariant 0 <= lo <= hi <= |runs|
      invariant forall k | 0 <= k < lo :: runs[k].0 < start
      invariant forall k | hi <= k < |runs| :: start < runs[k].0
    {
      var mid := (lo + hi) / 2;
      if runs[mid].0 == start {
        return mid;
      } else if runs[mid].0 < start {
        lo := mid + 1;
      } else {
        hi := mid;
      }
    }
    i := |runs|;
  }

  /** The index lookup finds exactly what the naive forward search of the text finds. */
  method ClosingEnd(index: BacktickIndex, ghost text: string, ghost blocks: Blocks, opening: nat, width: nat)
    returns (end: Option<nat>)
    requires IndexUpTo(text, blocks, index, |text|)
    ensures end == CodeSpanEnd(text, blocks, opening, width)
  {
    hide InlineRun, SplitRun;
    if opening !in index.eligible || width !in index.byWidth {
      assert !OpensSpan(text, blocks, opening, width) by { OpensImpliesListed(text, blocks, index, opening, width); }
      return None;
    }
    var runs := index.byWidth[width];
    assert runs == Runs(index, width);
    var position := BinarySearch(runs, opening);
    if position == |runs| {
      assert !OpensSpan(text, blocks, opening, width) by { OpensImpliesListed(text, blocks, index, opening, width); }
      return None;
    }
    ghost var v: nat :| OpensSpan(text, blocks, opening, v);
    OpensThisWidth(text, blocks, opening, v, width);
    NextEntryIsFirst(text, blocks, index, width, position);
    end := if position + 1 < |runs| then Some(runs[position + 1].1) else None;
  }

  lemma OpensImpliesListed(text: string, blocks: Blocks, index: BacktickIndex, p: nat, width: nat)
    requires IndexUpTo(text, blocks, index, |text|)
    ensures OpensSpan(text, blocks, p, width) ==>
              p in index.eligible && width in index.byWidth && (p, p + width) in index.byWidth[width]
  {
    hide FenceStart, Unprotected, Escaped;
    if OpensSpan(text, blocks, p, width) {
      assert Delimiter(text, blocks, p, width);
      assert p < |text|;
      assert (p, p + width) in Runs(index, width);
    }
  }

  lemma OpensThisWidth(text: string, blocks: Blocks, p: nat, v: nat, width: nat)
    requires OpensSpan(text, blocks, p, v) && Delimiter(text, blocks, p, width)
    ensures OpensSpan(text, blocks, p, width)
  {
    hide FenceStart, Unprotected, Escaped;
    if InlineRun(text, blocks, p, v) && InlineRun(text, blocks, p, width) {
      SameRun(text, p, v, width);
    } else if SplitRun(text, blocks, p, v) && SplitRun(text, blocks, p, width) {
      SameRun(text, p - 1, v + 1, width + 1);
    }
  }

  lemma NextEntryIsNotLater(text: string, blocks: Blocks, index: BacktickIndex, width: nat, i: nat, p: nat)
    requires IndexUpTo(text, blocks, index, |text|) && i < |Runs(index, width)|
    requires Runs(index, width)[i].0 < p < |text| && Delimiter(text, blocks, p, width)
    ensures i + 1 < |Runs(index, width)| && Runs(index, width)[i + 1].0 <= p
  {
    hide Delimiter;
    var runs := Runs(index, width);
    assert (p, p + width) in runs;
    var k :| 0 <= k < |runs| && runs[k] == (p, p + width);
    assert k > i;
  }

  lemma NextEntryIsFirst(text: string, blocks: Blocks, index: BacktickIndex, width: nat, i: nat)
    requires IndexUpTo(text, blocks, index, |text|) && i < |Runs(index, width)|
    ensures var runs := Runs(index, width);
            FirstDelimiter(text, blocks, runs[i].0 + 1, width) == if i + 1 < |runs| then Some(runs[i + 1].1) else None
  {
    hide Delimiter;
    var runs := Runs(index, width);
    var stop := if i + 1 < |runs| then runs[i + 1].0 else |text|;
    forall p: nat | runs[i].0 < p < stop
      ensures !Delimiter(text, blocks, p, width)
    {
      if Delimiter(text, blocks, p, width) {
        NextEntryIsNotLater(text, blocks, index, width, i, p);
      }
    }
    SearchStopsAt(text, blocks, runs[i].0 + 1, width, stop);
  }

  lemma {:induction false} SearchStopsAt(text: string, blocks: Blocks, from: nat, width: nat, stop: nat)
    requires from <= stop <= |text|
    requires forall p: nat | from <= p < stop :: !Delimiter(text, blocks, p, width)
    requires stop < |text| ==> Delimiter(text, blocks, stop, width)
    ensures FirstDelimiter(text, blocks, from, width) == if stop < |text| then Some(stop + width) else None
    decreases stop - from
  {
    hide Delimiter;
    if from < stop {
      SearchStopsAt(text, blocks, from + 1, width, stop);
    }
  }

  /** What the naive search means: the first later delimiter of exactly this width. */
  lemma {:induction false} FirstDelimiterMeaning(text: string, blocks: Blocks, from: nat, width: nat)
    ensures match FirstDelimiter(text, blocks, from, width)
            case None => forall p: nat | from <= p < |text| :: !Delimiter(text, blocks, p, width)
            case Some(end) =>
              && from + width <= end <= |text| && Delimiter(text, blocks, end - width, width)
              && forall p: nat | from <= p < end - width :: !Delimiter(text, blocks, p, width)
    decreases |text| - from
  {
    if from < |text| {
      FirstDelimiterMeaning(text, blocks, from + 1, width);
    }
  }
}
