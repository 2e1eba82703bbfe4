// When may a tool-call opener be executed: only as the first thing of a turn.
module TopLevel {
  import opened Wrappers
  import opened Text
  import opened Markdown
  import opened Backticks

  // ----------------------------------------------------------------- raw HTML blocks

  datatype RawHtmlEnd = BlankLineEnd | Literal(terminator: string) | CaseInsensitive(terminator: string)

  predicate EndsOn(end: RawHtmlEnd, line: string) {
    match end
    case BlankLineEnd => AllWhitespace(line)
    case Literal(t) => Contains(line, t)
    case CaseInsensitive(t) => Contains(AsciiLowercase(line), t)
  }

  const BLOCK_TAGS: set<string> := {
    "address", "article", "aside", "base", "basefont", "blockquote", "body", "caption", "center", "col", "colgroup",
    "dd", "details", "dialog", "dir", "div", "dl", "dt", "fieldset", "figcaption", "figure", "footer", "form", "frame",
    "frameset", "h1", "h2", "h3", "h4", "h5", "h6", "head", "header", "hr", "html", "iframe", "legend", "li", "link",
    "main", "menu", "menuitem", "nav", "noframes", "ol", "optgroup", "option", "p", "param", "search", "section",
    "summary", "table", "tbody", "td", "tfoot", "th", "thead", "title", "tr", "track", "ul"
  }

  datatype HtmlHead = HtmlHead(closing: bool, name: string, tail: string)

  function TagNameLength(s: string): (n: nat)
    ensures n <= |s|
  {
    if s != "" && (IsAsciiAlphanumeric(s[0]) || s[0] == '-') then 1 + TagNameLength(s[1..]) else 0
  }

  function HtmlTagHead(line: string): Option<HtmlHead> {
    if !StartsWith(line, "<") then None
    else
      var closing := StartsWith(line, "</");
      var from := if closing then 2 else 1;
      var name := line[from..];
      if name == "" || !IsAsciiAlphabetic(name[0]) then None
      else
        var n := TagNameLength(name);
        if n < |name| && name[n] !in " \t\r/>" then None else Some(HtmlHead(closing, name[..n], name[n..]))
  }

  /** The tag's `>` comes outside quotes and only blanks follow it. */
  predicate CompleteTagTail(tail: string, quote: Option<char>) {
    if tail == "" then false
    else if quote.Some? then CompleteTagTail(tail[1..], if tail[0] == quote.value then None else quote)
    else if tail[0] == '\'' || tail[0] == '"' then CompleteTagTail(tail[1..], Some(tail[0]))
    else if tail[0] == '>' then forall k | 1 <= k < |tail| :: tail[k] in " \t\r"
    else CompleteTagTail(tail[1..], None)
  }

  function RawHtmlOpener(line: string): Option<RawHtmlEnd> {
    var indent := IndentFrom(line, 0, 0);
    var body := line[indent.content..];
    if indent.columns > 3 then None
    else if StartsWith(body, "<!--") then Some(Literal("-->"))
    else if StartsWith(body, "<?") then Some(Literal("?>"))
    else if StartsWith(body, "<![CDATA[") then Some(Literal("]]>"))
    else if |body| > 2 && 'A' <= body[2] <= 'Z' && StartsWith(body, "<!") then Some(Literal(">"))
    else
      var head := HtmlTagHead(body);
      if head.None? then None
      else
        var name := AsciiLowercase(head.value.name);
        if !head.value.closing && name in {"script", "pre", "style", "textarea"} then
          Some(CaseInsensitive("</" + name + ">"))
        else if name in BLOCK_TAGS || CompleteTagTail(head.value.tail, None) then Some(BlankLineEnd)
        else None
  }

  predicate InsideRawHtml(text: string, cursor: nat, target: nat, active: Option<RawHtmlEnd>)
    requires target <= |text|
    decreases |text| - cursor
  {
    if cursor >= target then active.Some?
    else
      var end := LineEnd(text, cursor);
      var line := text[cursor..end];
      var opener := RawHtmlOpener(line);
      var next :=
        if active.Some? then if EndsOn(active.value, line) then None else active
        else if opener.Some? && !EndsOn(opener.value, line) then opener
        else None;
      InsideRawHtml(text, NextLine(text, cursor), target, next)
  }

  // ----------------------------------------------------------- abandoned container fences

  /** End of the block holding `p`. */
  function BlockAt(blocks: Blocks, p: nat): (r: Option<nat>)
    ensures r.None? <==> Unprotected(blocks, p)
    ensures r.Some? ==> exists k :: 0 <= k < |blocks| && blocks[k].0 <= p < blocks[k].1 && r.value == blocks[k].1
  {
    if blocks == [] then None
    else if blocks[0].0 <= p < blocks[0].1 then Some(blocks[0].1)
    else
      var r := BlockAt(blocks[1..], p);
      assert forall k | 0 <= k < |blocks[1..]| :: blocks[1..][k] == blocks[k + 1];
      assert Unprotected(blocks[1..], p) ==> Unprotected(blocks, p);
      assert Unprotected(blocks, p) ==> Unprotected(blocks[1..], p);
      r
  }

  /** A quoted or listed fence was opened before the target line and its container ended first. */
  predicate AbandonedFenceBefore(text: string, blocks: Blocks, cursor: nat, target: nat, active: Option<Fence>)
    requires Aligned(text, blocks, 0)
    decreases |text| - cursor
  {
    if cursor > target || cursor >= |text| then false
    else
      var block := BlockAt(blocks, cursor);
      if block.Some? then AbandonedFenceBefore(text, blocks, block.value, target, active)
      else if active.Some? then
        !ContinuesFence(text, cursor, active.value)
        || AbandonedFenceBefore(text, blocks, NextLine(text, cursor), target,
                                if ClosesFence(text, cursor, active.value) then None else active)
      else
        var opening := FenceOpeningAt(text, cursor, LineEnd(text, cursor));
        var next :=
          if opening.Some?
              && (opening.value.fence.depth > 0 || opening.value.fence.listIndent.Some?) then Some(opening.value.fence)
          else None;
        AbandonedFenceBefore(text, blocks, NextLine(text, cursor), target, next)
  }

  // ------------------------------------------------------------------ executable openers

  /** Start of the line that holds `p`. */
  function LineStartOf(text: string, p: nat): (s: nat)
    requires p <= |text|
    ensures s <= p && IsLineStart(text, s)
    ensures forall k | s <= k < p :: text[k] != '\n'
  {
    if p == 0 || text[p - 1] == '\n' then p else LineStartOf(text, p - 1)
  }

  /** Last position at which `needle` occurs. */
  function LastOccurrence(s: string, needle: string): (r: Option<nat>)
    ensures r.Some? ==> OccursAt(s, needle, r.value)
  {
    if OccursAt(s, needle, if |s| >= |needle| then |s| - |needle| else 0) then Some(|s| - |needle|)
    else if s == "" then None
    else
      var r := LastOccurrence(s[..|s| - 1], needle);
      assert r.Some? ==> s[..|s| - 1][r.value..r.value + |needle|] == s[r.value..r.value + |needle|];
      r
  }

  predicate OutsideComment(before: string) {
    var open, close := LastOccurrence(before, "<!--"), LastOccurrence(before, "-->");
    open.None? || (close.Some? && close.value > open.value)
  }

  predicate ShortIndent(prefix: string) {
    |prefix| <= 3 && forall k | 0 <= k < |prefix| :: prefix[k] == ' '
  }

  /** The full check the program makes before it executes a tool-call block that starts at `start`. */
  predicate IsExecutableTopLevelOpener(text: string, start: nat)
    requires start <= |text|
  {
    var line := LineStartOf(text, start);
    && ShortIndent(text[line..start])
    && AllWhitespace(text[..line])
    && OutsideComment(text[..start])
    && !InsideRawHtml(text, 0, line, None)
    && !AbandonedFenceBefore(text, ProtectedRanges(text), 0, start, None)
  }

  /** The stand-alone rule: nothing but blank lines and at most three spaces before the opener. */
  predicate StandsAlone(text: string, start: nat)
    requires start <= |text|
  {
    var line := LineStartOf(text, start);
    ShortIndent(text[line..start]) && AllWhitespace(text[..line])
  }

  /** The comment, raw-HTML and container checks never reject an opener that stands alone. */
  lemma ExecutableIffStandsAlone(text: string, start: nat)
    requires start < |text| && text[start] == '<'
    ensures IsExecutableTopLevelOpener(text, start) <==> StandsAlone(text, start)
  {
    hide ProtectedRanges, OutsideComment, InsideRawHtml, AbandonedFenceBefore;
    if StandsAlone(text, start) {
      var line := LineStartOf(text, start);
      forall k | 0 <= k < start
        ensures IsWhitespace(text[k])
      {
        if k < line { assert text[..line][k] == text[k]; } else { assert text[line..start][k - line] == text[k]; }
      }
      NoCommentInWhitespace(text[..start]);
      BlankLinesOpenNoHtml(text, 0, line);
      BlankLinesOpenNoFence(text, ProtectedRanges(text), 0, start);
    }
  }

  lemma NoCommentInWhitespace(before: string)
    requires AllWhitespace(before)
    ensures OutsideComment(before)
  {
    var open := LastOccurrence(before, "<!--");
    if open.Some? {
      FirstOfOccurrence(before, "<!--", open.value);
    }
  }

  lemma FirstOfOccurrence(s: string, needle: string, i: nat)
    requires needle != "" && OccursAt(s, needle, i)
    ensures s[i] == needle[0]
  {
    assert s[i..i + |needle|][0] == s[i];
  }

  lemma {:induction false} BlankLinesOpenNoHtml(text: string, cursor: nat, target: nat)
    requires cursor <= target <= |text| && (target == 0 || text[target - 1] == '\n')
    requires forall k | 0 <= k < target :: IsWhitespace(text[k])
    ensures !InsideRawHtml(text, cursor, target, None)
    decreases |text| - cursor
  {
    if cursor < target {
      var line := text[cursor..LineEnd(text, cursor)];
      assert AllWhitespace(line);
      BlankLineOpensNoHtml(line);
      BlankLinesOpenNoHtml(text, NextLine(text, cursor), target);
    }
  }

  lemma BlankLineOpensNoHtml(line: string)
    requires AllWhitespace(line)
    ensures RawHtmlOpener(line).None?
  {
    var body := line[IndentFrom(line, 0, 0).content..];
    assert body != "" ==> IsWhitespace(body[0]);
  }

  /** A line whose first non-blank is neither a quote, list nor fence marker opens no fence. */
  lemma PlainLineOpensNoFence(text: string, line: nat)
    requires line <= |text|
    requires var i := IndentFrom(text, line, 0);
             i.content == |text| || (IsWhitespace(text[i.content]) || text[i.content] == '<')
    ensures FenceOpeningAt(text, line, LineEnd(text, line)).None?
  {
  }

  lemma {:induction false} BlankLinesOpenNoFence(text: string, blocks: Blocks, cursor: nat, target: nat)
    requires Aligned(text, blocks, 0) && target < |text| && StandsAlone(text, target) && text[target] == '<'
    requires forall k | 0 <= k < target :: IsWhitespace(text[k])
    requires cursor >= |text| || IsLineStart(text, cursor)
    ensures !AbandonedFenceBefore(text, blocks, cursor, target, None)
    decreases |text| - cursor
  {
    if cursor <= target && cursor < |text| {
      var block := BlockAt(blocks, cursor);
      if block.Some? {
        BlankLinesOpenNoFence(text, blocks, block.value, target);
      } else {
        var i := IndentFrom(text, cursor, 0);
        BlanksStopAt(text, cursor, 0, target);
        PlainLineOpensNoFence(text, cursor);
        BlankLinesOpenNoFence(text, blocks, NextLine(text, cursor), target);
      }
    }
  }

  lemma BlanksStopAt(text: string, cursor: nat, columns: nat, target: nat)
    requires cursor <= target < |text| && text[target] == '<'
    ensures IndentFrom(text, cursor, columns).content <= target
    decreases |text| - cursor
  {
  }
}
