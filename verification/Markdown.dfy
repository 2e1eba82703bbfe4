// The Markdown block scanner that decides which lines of a turn are code.
//
// Each scanning loop of the program is a method here, proved against a recursive function;
// the lemmas at the end say what the protected ranges are without mentioning the scan.
module Markdown {
  import opened Wrappers
  import opened Text

  // ---------------------------------------------------------------- lines

  predicate IsLineStart(text: string, i: nat) {
    i == 0 || (i <= |text| && text[i - 1] == '\n')
  }

  /** End of the line holding `start`: the newline's position, or the end of the text. */
  function LineEnd(text: string, start: nat): (e: nat)
    requires start <= |text|
    ensures start <= e <= |text|
    ensures forall k | start <= k < e :: text[k] != '\n'
    ensures e < |text| ==> text[e] == '\n'
    decreases |text| - start
  {
    if start == |text| || text[start] == '\n' then start else LineEnd(text, start + 1)
  }

  /** Start of the line after the one holding `start`. */
  function NextLine(text: string, start: nat): (n: nat)
    requires start <= |text|
    ensures start <= n <= |text|
    ensures start < |text| ==> start < n && (n == |text| || IsLineStart(text, n))
  {
    var e := LineEnd(text, start);
    if e < |text| then e + 1 else e
  }

  // ------------------------------------------------------- indentation and quotes

  datatype Indentation = Indentation(columns: nat, content: nat)

  /** Tab-aware width of the blanks at `cursor`, and the position after them. */
  function IndentFrom(text: string, cursor: nat, columns: nat): (r: Indentation)
    requires cursor <= |text|
    ensures cursor <= r.content <= LineEnd(text, cursor)
    decreases |text| - cursor
  {
    if cursor == |text| then Indentation(columns, cursor)
    else if text[cursor] == ' ' then IndentFrom(text, cursor + 1, columns + 1)
    else if text[cursor] == '\t' then IndentFrom(text, cursor + 1, columns + (4 - columns % 4))
    else Indentation(columns, cursor)
  }

  method MarkdownIndent(text: string, start: nat) returns (r: Indentation)
    requires start <= |text|
    ensures r == IndentFrom(text, start, 0)
  {
    var columns: nat, cursor := 0, start;
    while cursor < |text| && (text[cursor] == ' ' || text[cursor] == '\t')
      invariant cursor <= |text|
      invariant IndentFrom(text, cursor, columns) == IndentFrom(text, start, 0)
    {
      columns := columns + if text[cursor] == ' ' then 1 else 4 - columns % 4;
      cursor := cursor + 1;
    }
    r := Indentation(columns, cursor);
  }

  datatype Prefix = Prefix(depth: nat, indent: nat, content: nat)

  /** Quote markers at the start of a line: their number, the indentation after them and the content. */
  function QuotePrefix(text: string, cursor: nat, end: nat, depth: nat): (r: Prefix)
    requires cursor <= end <= |text| && LineEnd(text, cursor) == end
    ensures cursor <= r.content <= end
    decreases end - cursor
  {
    var i := IndentFrom(text, cursor, 0);
    if i.columns > 3 || i.content >= end || text[i.content] != '>' then Prefix(depth, i.columns, i.content)
    else QuotePrefix(text, AfterQuoteMarker(text, i.content), end, depth + 1)
  }

  /** One optional blank belongs to a quote marker. */
  function AfterQuoteMarker(text: string, marker: nat): (after: nat)
    requires marker < |text| && text[marker] == '>'
    ensures marker < after <= LineEnd(text, marker) && LineEnd(text, after) == LineEnd(text, marker)
  {
    var next := marker + 1;
    if next < |text| && (text[next] == ' ' || text[next] == '\t') then next + 1 else next
  }

  method MarkdownBlockquotePrefix(text: string, lineStart: nat, lineEnd: nat) returns (r: Prefix)
    requires lineStart <= lineEnd <= |text| && LineEnd(text, lineStart) == lineEnd
    ensures r == QuotePrefix(text, lineStart, lineEnd, 0)
  {
    var cursor, depth: nat := lineStart, 0;
    var i := MarkdownIndent(text, cursor);
    while !(i.columns > 3 || i.content >= lineEnd || text[i.content] != '>')
      invariant cursor <= lineEnd && LineEnd(text, cursor) == lineEnd
      invariant i == IndentFrom(text, cursor, 0)
      invariant QuotePrefix(text, cursor, lineEnd, depth) == QuotePrefix(text, lineStart, lineEnd, 0)
      decreases lineEnd - cursor
    {
      depth := depth + 1;
      cursor := AfterQuoteMarker(text, i.content);
      i := MarkdownIndent(text, cursor);
    }
    r := Prefix(depth, i.columns, i.content);
  }

  // --------------------------------------------------------------- list markers

  datatype ListMarker = ListMarker(after: nat, columns: nat)

  /** Number of digits at `start`, at most nine and inside the line. */
  function DigitRun(text: string, start: nat, end: nat, limit: nat): (n: nat)
    requires end <= |text|
    ensures n <= limit && (start <= end ==> start + n <= end)
    decreases limit
  {
    if start < end && limit > 0 && IsAsciiDigit(text[start]) then 1 + DigitRun(text, start + 1, end, limit - 1) else 0
  }

  predicate BlankAt(text: string, i: nat) {
    i < |text| && (text[i] == ' ' || text[i] == '\t')
  }

  function ListMarkerAt(text: string, start: nat, end: nat): (r: Option<ListMarker>)
    requires start <= end <= |text|
    ensures r.Some? ==> start < r.value.after && BlankAt(text, r.value.after)
  {
    if start == |text| then None
    else if text[start] in "-+*" then
      if BlankAt(text, start + 1) then Some(ListMarker(start + 1, 1)) else None
    else
      var digits := DigitRun(text, start, end, 9);
      var dot := start + digits;
      if digits == 0 || dot >= end || text[dot] !in ".)" then None
      else if BlankAt(text, dot + 1) then Some(ListMarker(dot + 1, digits + 1))
      else None
  }

  // --------------------------------------------------------------------- fences

  datatype Fence = Fence(marker: char, width: nat, depth: nat, listIndent: Option<nat>)

  datatype Opening = Opening(content: nat, fence: Fence)

  /** Length of the run of `c` starting at `start`. */
  function RunLength(text: string, start: nat, c: char): (n: nat)
    requires start <= |text|
    ensures start + n <= |text|
    ensures forall k | start <= k < start + n :: text[k] == c
    ensures start + n < |text| ==> text[start + n] != c
    decreases |text| - start
  {
    if start < |text| && text[start] == c then 1 + RunLength(text, start + 1, c) else 0
  }

  method CountRun(text: string, start: nat, c: char) returns (n: nat)
    requires start <= |text|
    ensures n == RunLength(text, start, c)
  {
    n := 0;
    while start + n < |text| && text[start + n] == c
      invariant start + n <= |text|
      invariant n + RunLength(text, start + n, c) == RunLength(text, start, c)
    {
      n := n + 1;
    }
  }

  /** A fence opening on the line `[start, end)`, inside quotes and at most one list item. */
  function FenceOpeningAt(text: string, start: nat, end: nat): (r: Option<Opening>)
    requires start <= end <= |text| && LineEnd(text, start) == end
    ensures r.Some? ==>
      && start <= r.value.content < |text|
      && r.value.content + r.value.fence.width <= |text|
      && r.value.fence.width >= 3 && text[r.value.content] == r.value.fence.marker
      && r.value.fence.marker in "`~"
  {
    var p := QuotePrefix(text, start, end, 0);
    if p.indent > 3 then None
    else
      var m := ListMarkerAt(text, p.content, end);
      if m.Some? then
        var i := IndentFrom(text, m.value.after, 0);
        if i.columns == 0 || i.content > end then None
        else FenceRunAt(text, i.content, end, p.depth, Some(p.indent + m.value.columns + i.columns))
      else FenceRunAt(text, p.content, end, p.depth, None)
  }

  function FenceRunAt(text: string, content: nat, end: nat, depth: nat, listIndent: Option<nat>): (r: Option<Opening>)
    requires content <= end <= |text|
    ensures r.Some? ==>
      && r.value.content == content < |text|
      && content + r.value.fence.width <= |text|
      && r.value.fence.width >= 3 && text[content] == r.value.fence.marker
      && r.value.fence.marker in "`~"
  {
    if content == |text| || text[content] !in "`~" then None
    else
      var marker := text[content];
      var width := RunLength(text, content, marker);
      if width < 3 || (marker == '`' && content + width <= end && '`' in text[content + width..end]) then None
      else Some(Opening(content, Fence(marker, width, depth, listIndent)))
  }

  // ------------------------------------------------------------ one line of a fence

  predicate BlankLine(text: string, content: nat, end: nat)
    requires content <= end <= |text|
  {
    AllWhitespace(text[content..end])
  }

  /** The line starting at `line` is still inside the fence's container. */
  predicate ContinuesFence(text: string, line: nat, f: Fence)
    requires line <= |text|
  {
    var end := LineEnd(text, line);
    var p := QuotePrefix(text, line, end, 0);
    && p.depth == f.depth
    && (f.listIndent.Some? ==> BlankLine(text, p.content, end) || p.indent >= f.listIndent.value)
  }

  /** The line starting at `line` closes the fence. */
  predicate ClosesFence(text: string, line: nat, f: Fence)
    requires line <= |text|
  {
    var end := LineEnd(text, line);
    var p := QuotePrefix(text, line, end, 0);
    var width := RunLength(text, p.content, f.marker);
    && (if f.listIndent.Some? then f.listIndent.value <= p.indent <= f.listIndent.value + 3 else p.indent <= 3)
    && width >= f.width
    && forall k | p.content + width <= k < end :: text[k] in " \t\r"
  }

  // ------------------------------------------------------------------ the block scan

  datatype ScanState = ScanState(active: Option<(nat, Fence)>, canStartIndented: bool, inIndented: bool)

  datatype LineResult = LineResult(next: ScanState, range: Option<(nat, nat)>)

  const INITIAL_SCAN := ScanState(None, true, false)

  /** State after a fence has been closed. */
  const AFTER_FENCE := ScanState(None, true, false)

  function ScanOutsideFence(text: string, line: nat, st: ScanState): LineResult
    requires line <= |text|
  {
    var end := LineEnd(text, line);
    var p := QuotePrefix(text, line, end, 0);
    var opening := FenceOpeningAt(text, line, end);
    if opening.Some? then LineResult(ScanState(Some((line, opening.value.fence)), false, false), None)
    else if p.indent >= 4 && (st.canStartIndented || st.inIndented) then
      LineResult(ScanState(None, false, true), Some((line, NextLine(text, line))))
    else if BlankLine(text, p.content, end) then
      LineResult(ScanState(None, true, st.inIndented), if st.inIndented then Some((line, NextLine(text, line)))
          else None)
    else LineResult(ScanState(None, false, false), None)
  }

  function ScanLine(text: string, line: nat, st: ScanState): LineResult
    requires line <= |text|
  {
    if st.active.Some? && ContinuesFence(text, line, st.active.value.1) then
      if ClosesFence(text, line, st.active.value.1) then
        LineResult(AFTER_FENCE, Some((st.active.value.0, NextLine(text, line))))
      else LineResult(st, None)
    else ScanOutsideFence(text, line, st)
  }

  function AsSeq<T>(o: Option<T>): seq<T> {
    if o.Some? then [o.value] else []
  }

  /** Protected ranges contributed by the lines from `line` on. */
  function RangesFrom(text: string, line: nat, st: ScanState): seq<(nat, nat)>
    requires line <= |text|
    decreases |text| - line
  {
    if line == |text| then []
    else
      var r := ScanLine(text, line, st);
      AsSeq(r.range) + RangesFrom(text, NextLine(text, line), r.next)
  }

  /** The complete code blocks of a text. */
  function ProtectedRanges(text: string): (ranges: seq<(nat, nat)>)
    ensures Aligned(text, ranges, 0)
  {
    RangesSound(text, 0, INITIAL_SCAN);
    RangesFrom(text, 0, INITIAL_SCAN)
  }

  /** The forward pass over the lines, with an open fence carried from line to line. */
  method CompleteMarkdownBlockRanges(text: string) returns (ranges: seq<(nat, nat)>)
    ensures ranges == ProtectedRanges(text)
  {
    hide ScanLine, Aligned;
    ranges := [];
    var st := INITIAL_SCAN;
    var cursor: nat := 0;
    while cursor < |text|
      invariant cursor <= |text|
      invariant ranges + RangesFrom(text, cursor, st) == ProtectedRanges(text)
    {
      var r := ClassifyLine(text, cursor, st);
      if r.range.Some? {
        ranges := ranges + [r.range.value];
      }
      cursor, st := NextLine(text, cursor), r.next;
    }
    assert RangesFrom(text, cursor, st) == [];
  }

  /** One step of the pass: update the open fence and the indentation flags, and report a finished range. */
  method ClassifyLine(text: string, line: nat, st: ScanState) returns (r: LineResult)
    requires line <= |text|
    ensures r == ScanLine(text, line, st)
  {
    var end, next := LineEnd(text, line), NextLine(text, line);
    var ScanState(active, canStartIndented, inIndented) := st;
    var range: Option<(nat, nat)> := None;
    if active.Some? && ContinuesFence(text, line, active.value.1) {
      if ClosesFence(text, line, active.value.1) {
        range := Some((active.value.0, next));
        active, canStartIndented, inIndented := None, true, false;
      }
      return LineResult(ScanState(active, canStartIndented, inIndented), range);
    }
    active := None;
    var p := MarkdownBlockquotePrefix(text, line, end);
    var opening := FenceOpeningAt(text, line, end);
    if opening.Some? {
      active, canStartIndented, inIndented := Some((line, opening.value.fence)), false, false;
    } else if p.indent >= 4 && (canStartIndented || inIndented) {
      range := Some((line, next));
      canStartIndented, inIndented := false, true;
    } else if BlankLine(text, p.content, end) {
      if inIndented {
        range := Some((line, next));
      }
      canStartIndented := true;
    } else {
      canStartIndented, inIndented := false, false;
    }
    r := LineResult(ScanState(active, canStartIndented, inIndented), range);
  }

  // ------------------------------------------------- what the protected ranges are

  /** Every line from `from` up to `to` stays in the fence and none closes it. */
  predicate InsideFence(text: string, f: Fence, from: nat, to: nat)
    requires from <= |text|
    decreases |text| - from
  {
    from == to
    || (from < to && from < |text| && ContinuesFence(text, from, f) && !ClosesFence(text, from, f)
        && InsideFence(text, f, NextLine(text, from), to))
  }

  predicate OpensFence(text: string, line: nat, f: Fence)
    requires line <= |text|
  {
    var opening := FenceOpeningAt(text, line, LineEnd(text, line));
    opening.Some? && opening.value.fence == f
  }

  /**
   * A complete fenced block: opened at `start`, kept open line by line, closed by the line at `close` that ends at
   * `end`.
   */
  predicate FencedBlock(text: string, start: nat, close: nat, end: nat, f: Fence) {
    && start < close < |text|
    && OpensFence(text, start, f)
    && InsideFence(text, f, NextLine(text, start), close)
    && ContinuesFence(text, close, f) && ClosesFence(text, close, f)
    && end == NextLine(text, close)
  }

  /** One line of indented code: indented by four columns, or blank between indented lines. */
  predicate IndentedLine(text: string, start: nat, end: nat) {
    && start < |text| && end == NextLine(text, start)
    && var p := QuotePrefix(text, start, LineEnd(text, start), 0);
       p.indent >= 4 || BlankLine(text, p.content, LineEnd(text, start))
  }

  ghost predicate ProtectedBlock(text: string, r: (nat, nat)) {
    IndentedLine(text, r.0, r.1) || exists close, f :: FencedBlock(text, r.0, close, r.1, f)
  }

  /** The open fence of the scan really was opened earlier and has neither been left nor closed since. */
  ghost predicate ScanInvariant(text: string, line: nat, st: ScanState) {
    && line <= |text| && (line == |text| || IsLineStart(text, line))
    && (st.active.Some? ==>
          var (start, f) := st.active.value;
          && start < line && IsLineStart(text, start) && OpensFence(text, start, f)
          && InsideFence(text, f, NextLine(text, start), line))
  }

  function ScanStart(line: nat, st: ScanState): nat {
    if st.active.Some? then st.active.value.0 else line
  }

  /** Ranges that start at or after `from`, follow each other without overlap, and are made of whole lines. */
  predicate Aligned(text: string, ranges: seq<(nat, nat)>, from: nat) {
    && (forall k | 0 <= k < |ranges| ::
          && from <= ranges[k].0 < ranges[k].1 <= |text|
          && IsLineStart(text, ranges[k].0)
          && (ranges[k].1 == |text| || IsLineStart(text, ranges[k].1)))
    && (forall j, k | 0 <= j < k < |ranges| :: ranges[j].1 <= ranges[k].0)
  }

  lemma {:induction false} InsideFenceExtends(text: string, f: Fence, from: nat, line: nat)
    requires from <= line < |text| && InsideFence(text, f, from, line)
    requires ContinuesFence(text, line, f) && !ClosesFence(text, line, f)
    ensures InsideFence(text, f, from, NextLine(text, line))
    decreases |text| - from
  {
    if from < line {
      InsideFenceExtends(text, f, NextLine(text, from), line);
    } else {
      assert InsideFence(text, f, NextLine(text, line), NextLine(text, line));
    }
  }

  lemma InsideFenceReaches(text: string, f: Fence, from: nat, to: nat)
    requires from <= |text| && InsideFence(text, f, from, to)
    ensures from <= to
  {
  }

  lemma ScanStepSound(text: string, line: nat, st: ScanState)
    requires line < |text| && ScanInvariant(text, line, st)
    ensures
      var r := ScanLine(text, line, st);
      var next := NextLine(text, line);
      && ScanInvariant(text, next, r.next)
      && ScanStart(line, st) <= ScanStart(next, r.next)
      && (r.range.Some? ==>
            ProtectedBlock(text, r.range.value) && r.range.value.0 in {ScanStart(line, st), line}
            && r.range.value.1 == next && r.next.active.None?)
  {
    hide QuotePrefix, FenceOpeningAt, ContinuesFence, ClosesFence, BlankLine;
    var r, next := ScanLine(text, line, st), NextLine(text, line);
    if st.active.Some? && ContinuesFence(text, line, st.active.value.1) {
      var (start, f) := st.active.value;
      InsideFenceReaches(text, f, NextLine(text, start), line);
      if ClosesFence(text, line, f) {
        assert FencedBlock(text, start, line, next, f);
      } else {
        InsideFenceExtends(text, f, NextLine(text, start), line);
      }
    }
  }

  /** The scan reports only complete code blocks, in order, without overlap, in whole lines. */
  lemma {:induction false} RangesSound(text: string, line: nat, st: ScanState)
    requires line <= |text| && ScanInvariant(text, line, st)
    ensures Aligned(text, RangesFrom(text, line, st), ScanStart(line, st))
    ensures forall k | 0 <= k < |RangesFrom(text, line, st)| :: ProtectedBlock(text, RangesFrom(text, line, st)[k])
    decreases |text| - line
  {
    hide ScanLine, ScanInvariant, ProtectedBlock;
    if line < |text| {
      var r, next := ScanLine(text, line, st), NextLine(text, line);
      ScanStepSound(text, line, st);
      RangesSound(text, next, r.next);
      ScanStartBounds(text, line, st);
      PrependRange(text, r.range, RangesFrom(text, next, r.next), ScanStart(next, r.next), ScanStart(line, st));
    }
  }

  lemma PrependRange(text: string, r: Option<(nat, nat)>, rest: seq<(nat, nat)>, mid: nat, from: nat)
    requires Aligned(text, rest, mid) && from <= mid
    requires r.Some? ==> Aligned(text, [r.value], from) && r.value.1 <= mid
    ensures Aligned(text, AsSeq(r) + rest, from)
  {
    if r.Some? {
      assert [r.value][0] == r.value;
      forall k | 0 <= k < |rest| + 1
        ensures ([r.value] + rest)[k] == if k == 0 then r.value else rest[k - 1]
      {
      }
    } else {
      assert AsSeq(r) + rest == rest;
    }
  }

  lemma ScanStartBounds(text: string, line: nat, st: ScanState)
    requires ScanInvariant(text, line, st)
    ensures ScanStart(line, st) <= line <= |text|
    ensures line < |text| ==> IsLineStart(text, ScanStart(line, st)) && IsLineStart(text, line)
  {
  }

  /** Soundness of the whole scan. */
  lemma ProtectedRangesSound(text: string)
    ensures forall k | 0 <= k < |ProtectedRanges(text)| :: ProtectedBlock(text, ProtectedRanges(text)[k])
  {
    RangesSound(text, 0, INITIAL_SCAN);
  }

  /** A fence opened outside any other fence and properly closed protects exactly its own lines. */
  lemma {:induction false} CompleteFenceIsProtected(text: string, start: nat, close: nat, end: nat, f: Fence,
      st: ScanState)
    requires FencedBlock(text, start, close, end, f) && st.active.None?
    ensures RangesFrom(text, start, st) == [(start, end)] + RangesFrom(text, end, AFTER_FENCE)
  {
    hide QuotePrefix, FenceOpeningAt, ContinuesFence, ClosesFence, InsideFence;
    var open := ScanState(Some((start, f)), false, false);
    assert ScanLine(text, start, st) == LineResult(open, None);
    InsideFenceReaches(text, f, NextLine(text, start), close);
    SkipInsideFence(text, f, NextLine(text, start), close, open);
    assert ScanLine(text, close, open) == LineResult(AFTER_FENCE, Some((start, end)));
  }

  lemma {:induction false} SkipInsideFence(text: string, f: Fence, from: nat, to: nat, open: ScanState)
    requires from <= to <= |text| && InsideFence(text, f, from, to)
    requires open.active.Some? && open.active.value.1 == f
    ensures RangesFrom(text, from, open) == RangesFrom(text, to, open)
    decreases |text| - from
  {
    hide QuotePrefix, FenceOpeningAt, ContinuesFence, ClosesFence;
    if from < to {
      InsideFenceReaches(text, f, NextLine(text, from), to);
      SkipInsideFence(text, f, NextLine(text, from), to, open);
    }
  }

  /** A fence that is never closed protects nothing: no later line can hide behind it. */
  lemma UnterminatedFenceProtectsNothing(text: string, start: nat, f: Fence, st: ScanState)
    requires start < |text| && OpensFence(text, start, f) && st.active.None?
    requires InsideFence(text, f, NextLine(text, start), |text|)
    ensures RangesFrom(text, start, st) == []
  {
    hide QuotePrefix, FenceOpeningAt, ContinuesFence, ClosesFence, InsideFence;
    var open := ScanState(Some((start, f)), false, false);
    assert ScanLine(text, start, st) == LineResult(open, None);
    SkipInsideFence(text, f, NextLine(text, start), |text|, open);
  }

  /**
   * A fence whose container ends first is abandoned: its lines stay unprotected and scanning resumes on the next line.
   */
  lemma AbandonedFenceProtectsNothing(text: string, start: nat, f: Fence, left: nat, st: ScanState)
    requires start < left < |text| && OpensFence(text, start, f) && st.active.None?
    requires InsideFence(text, f, NextLine(text, start), left) && !ContinuesFence(text, left, f)
    ensures RangesFrom(text, start, st) == RangesFrom(text, left, ScanState(None, false, false))
  {
    hide QuotePrefix, FenceOpeningAt, ContinuesFence, ClosesFence, InsideFence;
    var open, idle := ScanState(Some((start, f)), false, false), ScanState(None, false, false);
    assert ScanLine(text, start, st) == LineResult(open, None);
    InsideFenceReaches(text, f, NextLine(text, start), left);
    SkipInsideFence(text, f, NextLine(text, start), left, open);
    assert ScanLine(text, left, open) == ScanLine(text, left, idle);
  }
}
