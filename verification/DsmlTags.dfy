// Single tags of the textual tool protocol: lookahead, head, attributes.
module DsmlTags {
  import opened Wrappers
  import opened Text

  datatype DsmlError =
    | TooLarge
    | MalformedTag
    | UnknownTag
    | InvalidAttributes
    | UnexpectedTag
    | UnclosedBlock
    | EmptyBatch
    | DuplicateParameter
    | InvalidStringFlag
    | InvalidJson
    | BoundaryExceeded
    | MultipleBlocks
    | InvalidContext

  datatype TagName = ToolCalls | Invoke | Parameter

  datatype Tag = Tag(name: TagName, closing: bool, attrs: map<string, string>)

  datatype CandidateTag = NotDsml | Dsml(tag: Tag)

  datatype LocatedTag = LocatedTag(start: nat, end: nat, tag: Tag)

  const FULLWIDTH_BAR: char := '\U{FF5C}'

  predicate IsBar(c: char) {
    c == '|' || c == FULLWIDTH_BAR
  }

  // ---------------------------------------------------------------- protocol bars

  datatype Bars = Bars(count: nat, marker: Option<char>, consistent: bool)

  /** Number of leading protocol bars, either kind. */
  function BarRun(text: string): (n: nat)
    ensures n <= |text|
    ensures forall k | 0 <= k < n :: IsBar(text[k])
    ensures n < |text| ==> !IsBar(text[n])
  {
    if text == "" || !IsBar(text[0]) then 0 else 1 + BarRun(text[1..])
  }

  function BarsOf(text: string): Bars {
    var n := BarRun(text);
    Bars(n, if n == 0 then None else Some(text[0]), forall k | 0 <= k < n :: text[k] == text[0])
  }

  lemma BarRunIs(text: string, n: nat)
    requires n <= |text| && (forall k | 0 <= k < n :: IsBar(text[k])) && (n < |text| ==> !IsBar(text[n]))
    ensures BarRun(text) == n
  {
  }

  method TakeProtocolBars(text: string) returns (bars: Bars)
    ensures bars == BarsOf(text)
  {
    var count: nat, marker: Option<char>, consistent := 0, None, true;
    while count < |text| && IsBar(text[count])
      invariant count <= |text|
      invariant forall k | 0 <= k < count :: IsBar(text[k])
      invariant marker == if count == 0 then None else Some(text[0])
      invariant consistent <==> forall k | 0 <= k < count :: text[k] == text[0]
    {
      if marker.Some? && marker.value != text[count] {
        consistent := false;
      }
      if marker.None? {
        marker := Some(text[count]);
      }
      count := count + 1;
    }
    BarRunIs(text, count);
    bars := Bars(count, marker, consistent);
  }

  // -------------------------------------------------------------------- lookahead

  /** Up to `limit` leading ASCII letters. */
  function LetterRun(text: string, limit: nat): (n: nat)
    ensures n <= |text| && n <= limit
  {
    if text == "" || limit == 0 || !IsAsciiAlphabetic(text[0]) then 0 else 1 + LetterRun(text[1..], limit - 1)
  }

  /** Cheap test made before looking for the end of a candidate tag. */
  predicate HasDsmlCandidatePrefix(text: string) {
    var body := if StartsWith(text, "/") then text[1..] else text;
    var bars := BarRun(body);
    var rest := body[bars..];
    bars > 2 || (bars > 0 && AsciiLowercase(rest[..LetterRun(rest, 4)]) <= "dsml")
  }

  // ------------------------------------------------------------------------- head

  function NameOfTag(name: string): Result<Option<TagName>, DsmlError> {
    if name == "tool_calls" then Ok(Some(ToolCalls))
    else if name == "invoke" then Ok(Some(Invoke))
    else if name == "parameter" then Ok(Some(Parameter))
    else Err(UnknownTag)
  }

  function ParseDsmlHead(head: string): Result<Option<TagName>, DsmlError> {
    var leading := BarsOf(head);
    var after := head[leading.count..];
    if leading.count == 0 then Ok(None)
    else if leading.count > 2 || !leading.consistent then Err(MalformedTag)
    else if |after| < 4 then
      if AsciiLowercase(after) <= "dsml" then Err(MalformedTag) else Ok(None)
    else if !EqIgnoreAsciiCase(after[..4], "DSML") then Ok(None)
    else
      var trailing := BarsOf(after[4..]);
      if !(1 <= trailing.count <= 2) || !trailing.consistent || leading.count != trailing.count
          || leading.marker != trailing.marker then
        Err(MalformedTag)
      else NameOfTag(AsciiLowercase(after[4 + trailing.count..]))
  }

  // ------------------------------------------------------------------- attributes

  predicate IsKeyChar(c: char) {
    IsAsciiAlphanumeric(c) || c == '_' || c == '-'
  }

  function KeyLength(s: string): (n: nat)
    ensures n <= |s|
    ensures forall k | 0 <= k < n :: IsKeyChar(s[k])
    ensures n < |s| ==> !IsKeyChar(s[n])
  {
    if s == "" || !IsKeyChar(s[0]) then 0 else 1 + KeyLength(s[1..])
  }

  datatype Attribute = Attribute(key: string, value: string, rest: string)

  /** The value after `=`: quoted up to the matching quote, otherwise up to whitespace. */
  function AttributeValue(key: string, input: string): (r: Result<Attribute, DsmlError>)
    requires input != ""
    ensures r.Ok? ==> |r.value.rest| <= |input|
  {
    var quote := input[0];
    if quote == '\'' || quote == '"' then
      var close := Find(input[1..], quote);
      if close == |input| - 1 then Err(MalformedTag)
          else Ok(Attribute(key, input[1..][..close], input[1..][close + 1..]))
    else
      var end := FindWhitespace(input);
      Ok(Attribute(key, input[..end], input[end..]))
  }

  /** One `key = value` at the start of a text that begins with neither end nor whitespace. */
  function NextAttribute(input: string): (r: Result<Attribute, DsmlError>)
    ensures r.Ok? ==> |r.value.rest| < |input|
  {
    var end := KeyLength(input);
    var afterKey := TrimStart(input[end..]);
    if end == 0 || afterKey == "" || afterKey[0] != '=' then Err(MalformedTag)
    else
      var value := TrimStart(afterKey[1..]);
      if value == "" then Err(MalformedTag) else AttributeValue(AsciiLowercase(input[..end]), value)
  }

  function AttributesFrom(input: string, attrs: map<string, string>): Result<map<string, string>, DsmlError>
    decreases |input|
  {
    var trimmed := TrimStart(input);
    if trimmed == "" then Ok(attrs)
    else
      var a :- NextAttribute(trimmed);
      if a.key in attrs then Err(InvalidAttributes) else AttributesFrom(a.rest, attrs[a.key := a.value])
  }

  method ParseAttributes(text: string) returns (r: Result<map<string, string>, DsmlError>)
    ensures r == AttributesFrom(text, map[])
  {
    hide NextAttribute;
    var attrs: map<string, string> := map[];
    var input := text;
    while TrimStart(input) != ""
      invariant AttributesFrom(input, attrs) == AttributesFrom(text, map[])
      decreases |input|
    {
      var next := NextAttribute(TrimStart(input));
      if next.Err? {
        return Err(next.error);
      }
      if next.value.key in attrs {
        return Err(InvalidAttributes);
      }
      attrs, input := attrs[next.value.key := next.value.value], next.value.rest;
    }
    r := Ok(attrs);
  }

  // -------------------------------------------------------------------- whole tags

  /** What stands between `<` and `>`. */
  function ParseTagInside(raw: string): Result<CandidateTag, DsmlError> {
    var inside := Trim(raw);
    var closing := StartsWith(inside, "/");
    var body := if closing then TrimStart(inside[1..]) else inside;
    var end := FindWhitespace(body);
    var name :- ParseDsmlHead(body[..end]);
    if name.None? then Ok(NotDsml)
    else
      var attrs :- AttributesFrom(body[end..], map[]);
      if closing && attrs != map[] then Err(InvalidAttributes) else Ok(Dsml(Tag(name.value, closing, attrs)))
  }

  /** A `<` whose `>` is missing: protocol if its head could be one, otherwise plain text. */
  function ParseUnterminated(rest: string): Result<CandidateTag, DsmlError> {
    var tail := Trim(rest);
    var body := TrimStart(if StartsWith(tail, "/") then tail[1..] else tail);
    if ParseDsmlHead(body[..FindWhitespace(body)]) == Ok(None) then Ok(NotDsml) else Err(MalformedTag)
  }

  function ParseCandidateTag(text: string, start: nat): Result<CandidateTag, DsmlError>
    requires start < |text|
  {
    var rest := text[start + 1..];
    if !HasDsmlCandidatePrefix(rest) then Ok(NotDsml)
    else
      var gt := Find(rest, '>');
      if gt == |rest| then ParseUnterminated(rest) else ParseTagInside(rest[..gt])
  }

  function FindTagEnd(text: string, start: nat): (r: Result<nat, DsmlError>)
    requires start < |text|
    ensures r.Ok? ==> start + 1 < r.value <= |text|
  {
    var gt := Find(text[start + 1..], '>');
    if gt == |text| - start - 1 then Err(MalformedTag) else Ok(start + 1 + gt + 1)
  }

  /** A tag recognised at `start`, with its extent. */
  function TagAt(text: string, start: nat): (r: Result<Option<LocatedTag>, DsmlError>)
    requires start < |text|
    ensures r.Ok? && r.value.Some? ==> r.value.value.start == start && start < r.value.value.end <= |text|
  {
    var candidate :- ParseCandidateTag(text, start);
    if candidate.NotDsml? then Ok(None)
    else
      var end :- FindTagEnd(text, start);
      Ok(Some(LocatedTag(start, end, candidate.tag)))
  }

  /** First tag at or after the cursor, with no regard for Markdown. */
  function NextRawTag(text: string, cursor: nat): (r: Result<Option<LocatedTag>, DsmlError>)
    requires cursor <= |text|
    ensures r.Ok? && r.value.Some? ==>
              cursor <= r.value.value.start < r.value.value.end <= |text| && text[r.value.value.start] == '<'
    decreases |text| - cursor
  {
    if cursor == |text| then Ok(None)
    else if text[cursor] != '<' then NextRawTag(text, cursor + 1)
    else
      var tag :- TagAt(text, cursor);
      if tag.Some? then Ok(tag) else NextRawTag(text, cursor + 1)
  }

  method FindNextRawDsmlTag(text: string, from: nat) returns (r: Result<Option<LocatedTag>, DsmlError>)
    requires from <= |text|
    ensures r == NextRawTag(text, from)
  {
    hide TagAt;
    var cursor := from;
    while cursor < |text|
      invariant cursor <= |text|
      invariant NextRawTag(text, cursor) == NextRawTag(text, from)
    {
      if text[cursor] == '<' {
        var tag := TagAt(text, cursor);
        if tag.Err? || tag.value.Some? {
          return tag;
        }
      }
      cursor := cursor + 1;
    }
    r := Ok(None);
  }
}
