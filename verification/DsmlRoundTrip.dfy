// Printing a batch of tool calls in the textual protocol and parsing it again.
module DsmlRoundTrip {
  import opened Wrappers
  import opened Text
  import opened Markdown
  import opened Backticks
  import opened DsmlTags
  import opened TopLevel
  import opened DsmlParser

  datatype PrintedParameter = PrintedParameter(name: string, body: string, isString: bool)

  datatype PrintedCall = PrintedCall(name: string, parameters: seq<PrintedParameter>)

  // -------------------------------------------------------------------- printing

  /** One or two bars, all of one kind. */
  predicate IsBars(bars: string) {
    1 <= |bars| <= 2 && forall k | 0 <= k < |bars| :: IsBar(bars[k]) && bars[k] == bars[0]
  }

  function Opening(bars: string, inside: string): string {
    "<" + Head(bars, inside) + ">"
  }

  function Closing(bars: string, name: string): string {
    "</" + Head(bars, name) + ">"
  }

  function Head(bars: string, inside: string): string {
    bars + "DSML" + bars + inside
  }

  function Quoted(key: string, value: string): string {
    key + "=\"" + value + "\""
  }

  function Flag(isString: bool): string {
    if isString then "true" else "false"
  }

  function PrintParameter(bars: string, p: PrintedParameter): string {
    Opening(bars, "parameter " + Quoted("name", p.name) + " " + Quoted("string", Flag(p.isString))) + p.body
        + Closing(bars, "parameter")
  }

  function PrintParameters(bars: string, ps: seq<PrintedParameter>): string {
    if ps == [] then "" else PrintParameter(bars, ps[0]) + PrintParameters(bars, ps[1..])
  }

  function PrintCall(bars: string, c: PrintedCall): string {
    Opening(bars, "invoke " + Quoted("name", c.name)) + PrintParameters(bars, c.parameters) + Closing(bars, "invoke")
  }

  function PrintCalls(bars: string, cs: seq<PrintedCall>): string {
    if cs == [] then "" else PrintCall(bars, cs[0]) + PrintCalls(bars, cs[1..])
  }

  function PrintBatch(bars: string, cs: seq<PrintedCall>): string {
    Opening(bars, "tool_calls") + PrintCalls(bars, cs) + Closing(bars, "tool_calls")
  }

  // ------------------------------------------------------------------- attributes

  lemma KeyEndsAt(key: string, rest: string)
    requires forall k | 0 <= k < |key| :: IsKeyChar(key[k])
    requires rest != "" && !IsKeyChar(rest[0])
    ensures KeyLength(key + rest) == |key| && (key + rest)[..|key|] == key && (key + rest)[|key|..] == rest
  {
  }

  lemma QuotedValue(key: string, value: string, rest: string)
    requires '"' !in value
    ensures AttributeValue(key, "\"" + (value + ("\"" + rest))) == Ok(Attribute(key, value, rest))
  {
    var body := value + ("\"" + rest);
    assert ("\"" + body)[1..] == body;
    assert body[|value|] == '"';
    assert forall k | 0 <= k < |value| :: body[k] == value[k];
    assert Find(body, '"') == |value|;
    assert body[..|value|] == value && body[|value| + 1..] == rest;
  }

  lemma QuotedAttribute(key: string, value: string, rest: string)
    requires key != "" && AsciiLowercase(key) == key && forall k | 0 <= k < |key| :: IsKeyChar(key[k])
    requires '"' !in value
    ensures NextAttribute(Quoted(key, value) + rest) == Ok(Attribute(key, value, rest))
  {
    hide AttributeValue, KeyLength, AsciiLowercase, LeadingWhitespace;
    var body := "\"" + (value + ("\"" + rest));
    var tail := "=" + body;
    assert Quoted(key, value) + rest == key + tail;
    KeyEndsAt(key, tail);
    assert tail[1..] == body;
    NoLeadingBlank(tail);
    NoLeadingBlank(body);
    QuotedValue(key, value, rest);
  }

  lemma NoLeadingBlank(s: string)
    requires s != "" && !IsWhitespace(s[0])
    ensures TrimStart(s) == s
  {
  }

  lemma AttributeStep(key: string, value: string, rest: string, attrs: map<string, string>)
    requires key != "" && AsciiLowercase(key) == key && forall k | 0 <= k < |key| :: IsKeyChar(key[k])
    requires '"' !in value && key !in attrs
    ensures AttributesFrom(" " + Quoted(key, value) + rest, attrs) == AttributesFrom(rest, attrs[key := value])
  {
    hide NextAttribute;
    var input := " " + Quoted(key, value) + rest;
    assert input[1..] == Quoted(key, value) + rest;
    assert LeadingWhitespace(input) == 1;
    QuotedAttribute(key, value, rest);
  }

  lemma NameAttribute(name: string)
    requires '"' !in name
    ensures AttributesFrom(" " + Quoted("name", name), map[]) == Ok(map["name" := name])
  {
    hide AttributesFrom;
    AttributeStep("name", name, "", map[]);
    assert " " + Quoted("name", name) + "" == " " + Quoted("name", name);
    NoMoreAttributes(map["name" := name]);
  }

  lemma NoMoreAttributes(attrs: map<string, string>)
    ensures AttributesFrom("", attrs) == Ok(attrs)
  {
  }

  lemma ParameterAttributes(name: string, flag: string)
    requires '"' !in name && '"' !in flag
    ensures AttributesFrom(" " + Quoted("name", name) + " " + Quoted("string", flag), map[])
         == Ok(map["name" := name, "string" := flag])
  {
    hide AttributesFrom, Quoted;
    var first, second := " " + Quoted("name", name), " " + Quoted("string", flag);
    AttributeStep("name", name, second, map[]);
    assert first + " " + Quoted("string", flag) == first + second;
    assert second + "" == second;
    AttributeStep("string", flag, "", map["name" := name]);
    NoMoreAttributes(map["name" := name, "string" := flag]);
    assert map["name" := name]["string" := flag] == map["name" := name, "string" := flag];
  }

  // ------------------------------------------------------------------------ heads

  lemma BarsBeforeLetters(bars: string, rest: string)
    requires IsBars(bars) && rest != "" && !IsBar(rest[0])
    ensures BarRun(bars + rest) == |bars| && (bars + rest)[|bars|..] == rest
    ensures BarsOf(bars + rest) == Bars(|bars|, Some(bars[0]), true)
  {
    assert forall k | 0 <= k < |bars| :: (bars + rest)[k] == bars[k];
    BarRunIs(bars + rest, |bars|);
  }

  lemma LowercaseFixpoint(s: string)
    requires forall k | 0 <= k < |s| :: !('A' <= s[k] <= 'Z')
    ensures AsciiLowercase(s) == s
  {
  }

  lemma HeadSteps(head: string, n: nat, m: char, name: string)
    requires 1 <= n <= 2 && n + 4 + n <= |head|
    requires BarsOf(head) == Bars(n, Some(m), true) && BarsOf(head[n..][4..]) == Bars(n, Some(m), true)
    requires head[n..][..4] == "DSML" && AsciiLowercase(head[n..][4 + n..]) == name
    ensures ParseDsmlHead(head) == NameOfTag(name)
  {
    hide BarsOf, AsciiLowercase;
  }

  lemma NameIsLowercase(name: string)
    requires name in {"tool_calls", "invoke", "parameter"}
    ensures name != "" && !IsBar(name[0]) && AsciiLowercase(name) == name
  {
    LowercaseFixpoint(name);
  }

  lemma SplitHead(bars: string, name: string)
    requires IsBars(bars) && name != "" && !IsBar(name[0])
    ensures 1 <= |bars| <= 2 && 2 * |bars| + 4 <= |Head(bars, name)|
    ensures BarsOf(Head(bars, name)) == Bars(|bars|, Some(bars[0]), true)
    ensures BarsOf(Head(bars, name)[|bars|..][4..]) == Bars(|bars|, Some(bars[0]), true)
    ensures Head(bars, name)[|bars|..][..4] == "DSML" && Head(bars, name)[|bars|..][4 + |bars|..] == name
  {
    hide BarsOf;
    var after := "DSML" + (bars + name);
    assert Head(bars, name) == bars + after;
    BarsBeforeLetters(bars, after);
    assert after[..4] == "DSML" && after[4..] == bars + name;
    BarsBeforeLetters(bars, name);
    assert after[4 + |bars|..] == name;
  }

  lemma HeadParses(bars: string, name: string)
    requires IsBars(bars) && name in {"tool_calls", "invoke", "parameter"}
    ensures ParseDsmlHead(Head(bars, name)) == NameOfTag(name)
  {
    hide *;
    NameIsLowercase(name);
    SplitHead(bars, name);
    HeadSteps(Head(bars, name), |bars|, bars[0], name);
  }

  lemma LettersOfDsml(rest: string)
    ensures LetterRun("DSML" + rest, 4) == 4
  {
    assert ("DSML" + rest)[1..] == "SML" + rest;
    assert ("SML" + rest)[1..] == "ML" + rest;
    assert ("ML" + rest)[1..] == "L" + rest;
    assert LetterRun("L" + rest, 1) == 1;
    assert LetterRun("ML" + rest, 2) == 2;
    assert LetterRun("SML" + rest, 3) == 3;
  }

  lemma PrefixFromBars(text: string, body: string, n: nat)
    requires body == if StartsWith(text, "/") then text[1..] else text
    requires 0 < n == BarRun(body) && LetterRun(body[n..], 4) == 4 && body[n..][..4] == "DSML"
    ensures HasDsmlCandidatePrefix(text)
  {
    hide LetterRun, BarRun;
    assert AsciiLowercase("DSML") == "dsml";
  }

  lemma HeadHasPrefix(bars: string, rest: string)
    requires IsBars(bars)
    ensures HasDsmlCandidatePrefix(Head(bars, rest))
    ensures HasDsmlCandidatePrefix("/" + Head(bars, rest))
  {
    hide LetterRun, BarRun, HasDsmlCandidatePrefix;
    var tail := "DSML" + bars + rest;
    assert Head(bars, rest) == bars + tail;
    assert ("/" + Head(bars, rest))[1..] == bars + tail;
    BarsBeforeLetters(bars, tail);
    assert tail == "DSML" + (bars + rest);
    LettersOfDsml(bars + rest);
    assert tail[..4] == "DSML";
    assert (bars + tail)[0] == bars[0];
    PrefixFromBars(Head(bars, rest), bars + tail, |bars|);
    PrefixFromBars("/" + Head(bars, rest), bars + tail, |bars|);
  }

  // ------------------------------------------------------------------- whole tags

  lemma WordEndsAt(word: string, rest: string)
    requires forall k | 0 <= k < |word| :: !IsWhitespace(word[k])
    requires rest != "" ==> rest[0] == ' '
    ensures FindWhitespace(word + rest) == |word| && (word + rest)[..|word|] == word && (word + rest)[|word|..] == rest
  {
  }

  lemma InsideSteps(inside: string, word: string, attributes: string, name: TagName, attrs: map<string, string>)
    requires inside == word + attributes && Trim(inside) == inside && !StartsWith(inside, "/")
    requires forall k | 0 <= k < |word| :: !IsWhitespace(word[k])
    requires attributes != "" ==> attributes[0] == ' '
    requires ParseDsmlHead(word) == Ok(Some(name)) && AttributesFrom(attributes, map[]) == Ok(attrs)
    ensures ParseTagInside(inside) == Ok(Dsml(Tag(name, false, attrs)))
  {
    hide ParseDsmlHead, AttributesFrom, Trim, FindWhitespace;
    WordEndsAt(word, attributes);
  }

  /** The text of an opening tag, given its name and printed attributes. */
  lemma OpeningInside(bars: string, name: string, attributes: string, attrs: map<string, string>)
    requires IsBars(bars) && name in {"tool_calls", "invoke", "parameter"}
    requires attributes != "" ==> attributes[0] == ' ' && !IsWhitespace(attributes[|attributes| - 1])
    requires AttributesFrom(attributes, map[]) == Ok(attrs)
    ensures NameOfTag(name).Ok? && NameOfTag(name).value.Some?
    ensures ParseTagInside(Head(bars, name + attributes)) == Ok(Dsml(Tag(NameOfTag(name).value.value, false, attrs)))
  {
    hide ParseDsmlHead, AttributesFrom, Trim, ParseTagInside, IsWhitespace;
    var inside, word := Head(bars, name + attributes), Head(bars, name);
    assert inside == word + attributes;
    HeadHasNoBlank(bars, name);
    assert inside[0] == bars[0] == word[0];
    assert inside[|inside| - 1] == if attributes == "" then word[|word| - 1] else attributes[|attributes| - 1];
    TrimFixpoint(inside);
    HeadParses(bars, name);
    InsideSteps(inside, word, attributes, NameOfTag(name).value.value, attrs);
  }

  lemma HeadHasNoBlank(bars: string, name: string)
    requires IsBars(bars) && name in {"tool_calls", "invoke", "parameter"}
    ensures forall k | 0 <= k < |Head(bars, name)| :: !IsWhitespace(Head(bars, name)[k])
  {
    forall k | 0 <= k < |Head(bars, name)|
      ensures !IsWhitespace(Head(bars, name)[k])
    {
      var c := Head(bars, name)[k];
      assert c in bars || c in "DSML" || c in name;
    }
  }

  lemma ClosingInside(bars: string, name: string)
    requires IsBars(bars) && name in {"tool_calls", "invoke", "parameter"}
    ensures NameOfTag(name).Ok? && NameOfTag(name).value.Some?
    ensures ParseTagInside("/" + Head(bars, name)) == Ok(Dsml(Tag(NameOfTag(name).value.value, true, map[])))
  {
    hide ParseDsmlHead, Trim, TrimStart, FindWhitespace, AttributesFrom;
    var word := Head(bars, name);
    HeadHasNoBlank(bars, name);
    assert ("/" + word)[|word|] == word[|word| - 1];
    TrimFixpoint("/" + word);
    assert ("/" + word)[1..] == word;
    TrimFixpoint(word);
    WordEndsAt(word, "");
    assert word + "" == word;
    HeadParses(bars, name);
    NoMoreAttributes(map[]);
  }

  /** A printed tag is recognised wherever it stands, and nothing after it matters. */
  lemma TagRecognised(text: string, at: nat, inside: string, tag: Tag)
    requires at + |inside| + 2 <= |text| && text[at..at + |inside| + 2] == "<" + inside + ">"
    requires '>' !in inside && ParseTagInside(inside) == Ok(Dsml(tag))
    requires HasDsmlCandidatePrefix(text[at + 1..])
    ensures NextRawTag(text, at) == Ok(Some(LocatedTag(at, at + |inside| + 2, tag)))
    ensures TagAt(text, at) == Ok(Some(LocatedTag(at, at + |inside| + 2, tag)))
  {
    hide ParseTagInside, HasDsmlCandidatePrefix;
    var rest := text[at + 1..];
    var tagText := text[at..at + |inside| + 2];
    assert tagText[0] == text[at];
    forall k | 0 <= k < |inside|
      ensures rest[k] == inside[k]
    {
      assert tagText[k + 1] == rest[k];
    }
    assert tagText[|inside| + 1] == rest[|inside|] == '>';
    assert Find(rest, '>') == |inside|;
    assert rest[..|inside|] == inside;
  }

  /** Plain text before the next `<` is skipped by the raw scan. */
  lemma {:induction false} SkipToTag(text: string, from: nat, upTo: nat)
    requires from <= upTo <= |text| && '<' !in text[from..upTo]
    ensures NextRawTag(text, from) == NextRawTag(text, upTo)
    decreases upTo - from
  {
    hide TagAt;
    if from < upTo {
      assert text[from..upTo][0] == text[from];
      assert text[from + 1..upTo] == text[from..upTo][1..];
      SkipToTag(text, from + 1, upTo);
    }
  }

  // ------------------------------------------------------------ printed tags in a text

  lemma OccursSplit(text: string, a: string, b: string, at: nat)
    requires OccursAt(text, a + b, at)
    ensures OccursAt(text, a, at) && OccursAt(text, b, at + |a|)
  {
    assert (a + b)[..|a|] == a && (a + b)[|a|..] == b;
    assert text[at..at + |a|] == text[at..at + |a + b|][..|a|];
    assert text[at + |a|..at + |a + b|] == text[at..at + |a + b|][|a|..];
  }

  lemma OpeningTag(text: string, at: nat, bars: string, name: string, attributes: string, attrs: map<string, string>)
    requires IsBars(bars) && name in {"tool_calls", "invoke", "parameter"}
    requires attributes != "" ==> attributes[0] == ' ' && !IsWhitespace(attributes[|attributes| - 1])
    requires AttributesFrom(attributes, map[]) == Ok(attrs) && '>' !in attributes
    requires OccursAt(text, Opening(bars, name + attributes), at)
    ensures NameOfTag(name).Ok? && NameOfTag(name).value.Some?
    ensures var tag :=
              LocatedTag(at, at + |Opening(bars, name + attributes)|, Tag(NameOfTag(name).value.value, false, attrs));
            NextRawTag(text, at) == Ok(Some(tag)) && TagAt(text, at) == Ok(Some(tag))
  {
    hide *;
    OpeningInside(bars, name, attributes, attrs);
    InsideHasNoGt(bars, name, attributes);
    PrefixInText(text, at, bars, name + attributes);
    TagRecognised(text, at, Head(bars, name + attributes), Tag(NameOfTag(name).value.value, false, attrs));
  }

  lemma InsideHasNoGt(bars: string, name: string, attributes: string)
    requires IsBars(bars) && name in {"tool_calls", "invoke", "parameter"} && '>' !in attributes
    ensures '>' !in Head(bars, name + attributes)
    ensures '>' !in "/" + Head(bars, name)
  {
  }

  lemma PrefixInText(text: string, at: nat, bars: string, inside: string)
    requires IsBars(bars) && OccursAt(text, Opening(bars, inside), at)
    ensures |Opening(bars, inside)| == |Head(bars, inside)| + 2
    ensures at + |Head(bars, inside)| + 2 <= |text|
    ensures text[at..at + |Head(bars, inside)| + 2] == "<" + Head(bars, inside) + ">"
    ensures HasDsmlCandidatePrefix(text[at + 1..])
  {
    hide HasDsmlCandidatePrefix;
    var end := at + |Opening(bars, inside)|;
    var rest := text[at + 1..];
    assert text[at..end][1..] == rest[..|Head(bars, inside)| + 1];
    assert rest == rest[..|Head(bars, inside)| + 1] + text[end..];
    assert rest == Head(bars, inside + ">" + text[end..]);
    HeadHasPrefix(bars, inside + ">" + text[end..]);
  }

  lemma ClosingPrefixInText(text: string, at: nat, bars: string, name: string)
    requires IsBars(bars) && OccursAt(text, Closing(bars, name), at)
    ensures |Closing(bars, name)| == |"/" + Head(bars, name)| + 2
    ensures at + |"/" + Head(bars, name)| + 2 <= |text|
    ensures text[at..at + |"/" + Head(bars, name)| + 2] == "<" + ("/" + Head(bars, name)) + ">"
    ensures HasDsmlCandidatePrefix(text[at + 1..])
  {
    hide HasDsmlCandidatePrefix;
    var end := at + |Closing(bars, name)|;
    var inside := "/" + Head(bars, name);
    assert Closing(bars, name) == "<" + inside + ">";
    var rest := text[at + 1..];
    assert text[at..end][1..] == rest[..|inside| + 1];
    assert rest == rest[..|inside| + 1] + text[end..];
    assert rest == "/" + Head(bars, name + ">" + text[end..]);
    HeadHasPrefix(bars, name + ">" + text[end..]);
  }

  lemma ClosingTag(text: string, at: nat, bars: string, name: string)
    requires IsBars(bars) && name in {"tool_calls", "invoke", "parameter"}
    requires OccursAt(text, Closing(bars, name), at)
    ensures NameOfTag(name).Ok? && NameOfTag(name).value.Some?
    ensures NextRawTag(text, at)
         == Ok(Some(LocatedTag(at, at + |Closing(bars, name)|, Tag(NameOfTag(name).value.value, true, map[]))))
  {
    hide *;
    ClosingInside(bars, name);
    InsideHasNoGt(bars, name, "") by { assert '>' !in ""; }
    ClosingPrefixInText(text, at, bars, name);
    TagRecognised(text, at, "/" + Head(bars, name), Tag(NameOfTag(name).value.value, true, map[]));
  }

  // -------------------------------------------------------------- well-formed batches

  predicate PrintableName(name: string, limit: nat) {
    name != "" && ByteLen(name) <= limit && '"' !in name && '>' !in name
  }

  predicate PrintableParameter(codec: Codec, p: PrintedParameter) {
    && PrintableName(p.name, MAX_TOOL_PARAMETER_NAME_BYTES)
    && '<' !in p.body
    && (p.isString || codec.parse(Trim(p.body)).Some?)
  }

  predicate PrintableParameters(codec: Codec, ps: seq<PrintedParameter>) {
    forall k | 0 <= k < |ps| :: PrintableParameter(codec, ps[k])
  }

  predicate PrintableCalls(codec: Codec, cs: seq<PrintedCall>) {
    forall k | 0 <= k < |cs| :: PrintableCall(codec, cs[k])
  }

  /** The value a printed parameter stands for. */
  function Value(codec: Codec, p: PrintedParameter): Json
    requires PrintableParameter(codec, p)
  {
    if p.isString then String(p.body) else codec.parse(Trim(p.body)).value
  }

  function BodyBytes(ps: seq<PrintedParameter>): nat {
    if ps == [] then 0 else ByteLen(ps[0].body) + BodyBytes(ps[1..])
  }

  function Bind(codec: Codec, ps: seq<PrintedParameter>, arguments: Arguments): Arguments
    requires PrintableParameters(codec, ps)
  {
    if ps == [] then arguments else Bind(codec, ps[1..], arguments[ps[0].name := Value(codec, ps[0])])
  }

  predicate DistinctNames(ps: seq<PrintedParameter>) {
    forall j, k | 0 <= j < k < |ps| :: ps[j].name != ps[k].name
  }

  predicate PrintableCall(codec: Codec, c: PrintedCall) {
    && PrintableName(c.name, MAX_TOOL_NAME_BYTES)
    && PrintableParameters(codec, c.parameters)
    && DistinctNames(c.parameters)
    && |c.parameters| <= MAX_TOOL_PARAMETERS_PER_CALL
    && BodyBytes(c.parameters) <= MAX_TOOL_ARGUMENT_BYTES_PER_CALL
    && ByteLen(Meaning(codec, c).arguments) <= MAX_TOOL_ARGUMENT_BYTES_PER_CALL
  }

  /** The call a printed call stands for. */
  function Meaning(codec: Codec, c: PrintedCall): ParsedCall
    requires PrintableParameters(codec, c.parameters)
  {
    ParsedCall(c.name, codec.render(Bind(codec, c.parameters, map[])))
  }

  function Meanings(codec: Codec, cs: seq<PrintedCall>): seq<ParsedCall>
    requires PrintableCalls(codec, cs)
  {
    if cs == [] then [] else [Meaning(codec, cs[0])] + Meanings(codec, cs[1..])
  }

  function ArgumentBytes(calls: seq<ParsedCall>): nat {
    if calls == [] then 0 else ByteLen(calls[0].arguments) + ArgumentBytes(calls[1..])
  }

  predicate PrintableBatch(codec: Codec, cs: seq<PrintedCall>) {
    && 1 <= |cs| <= MAX_TOOL_CALLS_PER_TURN
    && PrintableCalls(codec, cs)
    && ArgumentBytes(Meanings(codec, cs)) <= MAX_TOOL_ARGUMENT_BYTES_TOTAL
  }

  // ------------------------------------------------------------------ parsing it back

  function ParameterAttributesText(p: PrintedParameter): string {
    " " + Quoted("name", p.name) + " " + Quoted("string", Flag(p.isString))
  }

  lemma ParameterTextParses(codec: Codec, p: PrintedParameter)
    requires PrintableParameter(codec, p)
    ensures var attributes := ParameterAttributesText(p);
            && attributes != "" && attributes[0] == ' ' && attributes[|attributes| - 1] == '"' && '>' !in attributes
            && !IsWhitespace('"')
            && AttributesFrom(attributes, map[]) == Ok(map["name" := p.name, "string" := Flag(p.isString)])
  {
    hide AttributesFrom;
    ParameterAttributes(p.name, Flag(p.isString));
  }

  lemma ParameterTag(codec: Codec, text: string, at: nat, bars: string, p: PrintedParameter)
    requires IsBars(bars) && PrintableParameter(codec, p)
    requires OccursAt(text, Opening(bars, "parameter" + ParameterAttributesText(p)), at)
    ensures at <= |text|
    ensures NextStructuralTag(text, at)
         == Ok(LocatedTag(at, at + |Opening(bars, "parameter" + ParameterAttributesText(p))|,
                          Tag(Parameter, false, map["name" := p.name, "string" := Flag(p.isString)])))
  {
    hide *;
    OccursInText(text, Opening(bars, "parameter" + ParameterAttributesText(p)), at);
    ParameterTextParses(codec, p);
    OpeningTag(text, at, bars, "parameter", ParameterAttributesText(p),
        map["name" := p.name, "string" := Flag(p.isString)]);
    TagNames();
    StructuralHere(text, at);
  }

  lemma TagNames()
    ensures NameOfTag("parameter") == Ok(Some(Parameter)) && NameOfTag("invoke") == Ok(Some(Invoke))
              && NameOfTag("tool_calls") == Ok(Some(ToolCalls))
  {
  }

  lemma OccursInText(text: string, needle: string, at: nat)
    requires OccursAt(text, needle, at)
    ensures at + |needle| <= |text|
  {
  }

  lemma StructuralHere(text: string, at: nat)
    requires at <= |text| && NextRawTag(text, at).Ok? && NextRawTag(text, at).value.Some?
               && NextRawTag(text, at).value.value.start == at
    ensures NextStructuralTag(text, at) == Ok(NextRawTag(text, at).value.value)
  {
    assert text[at..at] == "";
  }

  lemma ParameterBody(codec: Codec, text: string, at: nat, bars: string, p: PrintedParameter)
    requires IsBars(bars) && PrintableParameter(codec, p) && ByteLen(p.body) <= MAX_TOOL_ARGUMENT_BYTES_PER_CALL
    requires OccursAt(text, p.body + Closing(bars, "parameter"), at)
    ensures at <= |text|
    ensures ParseParameter(codec, text, at, p.isString)
         == Ok(ParsedParameter(Value(codec, p), ByteLen(p.body), at + |p.body + Closing(bars, "parameter")|))
  {
    hide NextRawTag, Closing, Trim, ByteLen;
    OccursSplit(text, p.body, Closing(bars, "parameter"), at);
    var close := at + |p.body|;
    assert text[at..close] == p.body;
    SkipToTag(text, at, close);
    ClosingTag(text, close, bars, "parameter");
    TagNames();
  }

  /** A printed parameter is read whole, and the invoke goes on behind it with the parameter bound. */
  lemma ParameterStep(codec: Codec, text: string, at: nat, bars: string, p: PrintedParameter, name: string,
      arguments: Arguments, bodyBytes: nat)
    requires IsBars(bars) && PrintableParameter(codec, p) && OccursAt(text, PrintParameter(bars, p), at)
    requires p.name !in arguments && |arguments| < MAX_TOOL_PARAMETERS_PER_CALL
    requires bodyBytes + ByteLen(p.body) <= MAX_TOOL_ARGUMENT_BYTES_PER_CALL
    ensures at + |PrintParameter(bars, p)| <= |text|
    ensures InvokeFrom(codec, text, at, name, arguments, bodyBytes)
         == InvokeFrom(codec, text, at
             + |PrintParameter(bars, p)|, name, arguments[p.name := Value(codec, p)], bodyBytes + ByteLen(p.body))
  {
    var opening := Opening(bars, "parameter" + ParameterAttributesText(p));
    var rest := p.body + Closing(bars, "parameter");
    PrintedAs(bars, p);
    hide PrintParameter, Opening, Closing, ParameterAttributesText, NextStructuralTag, ParseParameter,
      CheckParameterHead, IsBars, Value, PrintableParameter;
    OccursSplit(text, opening, rest, at);
    OccursInText(text, PrintParameter(bars, p), at);
    ParameterTag(codec, text, at, bars, p);
    ParameterBody(codec, text, at + |opening|, bars, p);
    HeadAccepted(codec, p, arguments);
    assert |PrintParameter(bars, p)| == |opening| + |rest|;
  }

  lemma PrintedAs(bars: string, p: PrintedParameter)
    ensures PrintParameter(bars, p)
              == Opening(bars, "parameter" + ParameterAttributesText(p)) + (p.body + Closing(bars, "parameter"))
  {
    assert "parameter " + Quoted("name", p.name) + " " + Quoted("string", Flag(p.isString))
        == "parameter" + ParameterAttributesText(p);
  }

  lemma HeadAccepted(codec: Codec, p: PrintedParameter, arguments: Arguments)
    requires PrintableParameter(codec, p) && p.name !in arguments && |arguments| < MAX_TOOL_PARAMETERS_PER_CALL
    ensures CheckParameterHead(Tag(Parameter, false, map["name" := p.name, "string" := Flag(p.isString)]), arguments)
         == Ok(ParameterHead(p.name, p.isString))
  {
    var attrs := map["name" := p.name, "string" := Flag(p.isString)];
    assert attrs.Keys == {"name", "string"};
    assert "name" != "string" && |attrs| == 2;
    assert "true" != "false";
  }

  lemma {:induction false} InvokeReads(
      codec: Codec, text: string, at: nat, bars: string, name: string, ps: seq<PrintedParameter>, arguments: Arguments,
          bodyBytes: nat)
    requires IsBars(bars) && PrintableParameters(codec, ps) && DistinctNames(ps)
    requires OccursAt(text, PrintParameters(bars, ps) + Closing(bars, "invoke"), at)
    requires forall k | 0 <= k < |ps| :: ps[k].name !in arguments
    requires |arguments| + |ps| <= MAX_TOOL_PARAMETERS_PER_CALL
    requires bodyBytes + BodyBytes(ps) <= MAX_TOOL_ARGUMENT_BYTES_PER_CALL
    requires ByteLen(codec.render(Bind(codec, ps, arguments))) <= MAX_TOOL_ARGUMENT_BYTES_PER_CALL
    ensures at <= |text|
    ensures InvokeFrom(codec, text, at, name, arguments, bodyBytes)
         == Ok(Located(ParsedCall(name, codec.render(Bind(codec, ps, arguments))),
                       at + |PrintParameters(bars, ps) + Closing(bars, "invoke")|))
    decreases |ps|
  {
    hide *;
    OccursInText(text, PrintParameters(bars, ps) + Closing(bars, "invoke"), at);
    if ps == [] {
      InvokeCloses(codec, text, at, bars, name, ps, arguments, bodyBytes);
    } else {
      var p, rest := ps[0], PrintParameters(bars, ps[1..]) + Closing(bars, "invoke");
      FirstParameter(codec, bars, ps, arguments);
      var bound := arguments[p.name := Value(codec, p)];
      OccursSplit(text, PrintParameter(bars, p), rest, at);
      ParameterStep(codec, text, at, bars, p, name, arguments, bodyBytes);
      InvokeReads(codec, text, at + |PrintParameter(bars, p)|, bars, name, ps[1..], bound, bodyBytes + ByteLen(p.body));
    }
  }

  lemma InvokeCloses(
      codec: Codec, text: string, at: nat, bars: string, name: string, ps: seq<PrintedParameter>, arguments: Arguments,
          bodyBytes: nat)
    requires IsBars(bars) && ps == []
    requires OccursAt(text, PrintParameters(bars, ps) + Closing(bars, "invoke"), at)
    requires ByteLen(codec.render(Bind(codec, ps, arguments))) <= MAX_TOOL_ARGUMENT_BYTES_PER_CALL
    ensures at <= |text|
    ensures InvokeFrom(codec, text, at, name, arguments, bodyBytes)
         == Ok(Located(ParsedCall(name, codec.render(Bind(codec, ps, arguments))),
                       at + |PrintParameters(bars, ps) + Closing(bars, "invoke")|))
  {
    hide *;
    assert PrintParameters(bars, ps) + Closing(bars, "invoke") == Closing(bars, "invoke") by { NoParameters(bars); }
    OccursInText(text, Closing(bars, "invoke"), at);
    ClosingTag(text, at, bars, "invoke");
    TagNames();
    StructuralHere(text, at);
    NothingToBind(codec, arguments);
    InvokeAtClosing(codec, text, at, name, arguments, bodyBytes, at + |Closing(bars, "invoke")|);
  }

  lemma NoParameters(bars: string)
    ensures PrintParameters(bars, []) + Closing(bars, "invoke") == Closing(bars, "invoke")
  {
  }

  lemma NothingToBind(codec: Codec, arguments: Arguments)
    ensures PrintableParameters(codec, []) && Bind(codec, [], arguments) == arguments
  {
  }

  lemma InvokeAtClosing(codec: Codec, text: string, at: nat, name: string, arguments: Arguments, bodyBytes: nat,
      end: nat)
    requires at <= |text| && NextStructuralTag(text, at) == Ok(LocatedTag(at, end, Tag(Invoke, true, map[])))
    requires ByteLen(codec.render(arguments)) <= MAX_TOOL_ARGUMENT_BYTES_PER_CALL
    ensures InvokeFrom(codec, text, at, name, arguments, bodyBytes)
              == Ok(Located(ParsedCall(name, codec.render(arguments)), end))
  {
    hide NextStructuralTag, ByteLen;
  }

  lemma FirstParameter(codec: Codec, bars: string, ps: seq<PrintedParameter>, arguments: Arguments)
    requires ps != [] && PrintableParameters(codec, ps) && DistinctNames(ps)
    requires forall k | 0 <= k < |ps| :: ps[k].name !in arguments
    ensures PrintableParameter(codec, ps[0]) && PrintableParameters(codec, ps[1..]) && DistinctNames(ps[1..])
    ensures BodyBytes(ps) == ByteLen(ps[0].body) + BodyBytes(ps[1..])
    ensures Bind(codec, ps, arguments) == Bind(codec, ps[1..], arguments[ps[0].name := Value(codec, ps[0])])
    ensures forall k | 0 <= k < |ps[1..]| :: ps[1..][k].name !in arguments[ps[0].name := Value(codec, ps[0])]
    ensures |arguments[ps[0].name := Value(codec, ps[0])]| == |arguments| + 1
    ensures PrintParameters(bars, ps) + Closing(bars, "invoke")
         == PrintParameter(bars, ps[0]) + (PrintParameters(bars, ps[1..]) + Closing(bars, "invoke"))
  {
    hide PrintableParameter, Value, ByteLen, PrintParameter, Closing;
    assert forall k | 0 <= k < |ps[1..]| :: ps[1..][k] == ps[k + 1];
  }

  // --------------------------------------------------------------------------- batches

  lemma CallStep(codec: Codec, text: string, at: nat, bars: string, c: PrintedCall, calls: seq<ParsedCall>,
      total: nat)
    requires IsBars(bars) && PrintableCall(codec, c) && OccursAt(text, PrintCall(bars, c), at)
    requires |calls| < MAX_TOOL_CALLS_PER_TURN
    requires total + ByteLen(Meaning(codec, c).arguments) <= MAX_TOOL_ARGUMENT_BYTES_TOTAL
    ensures at + |PrintCall(bars, c)| <= |text|
    ensures BlockFrom(codec, text, at, calls, total)
         == BlockFrom(codec, text, at + |PrintCall(bars, c)|, calls + [Meaning(codec, c)], total
             + ByteLen(Meaning(codec, c).arguments))
  {
    hide *;
    var attributes := " " + Quoted("name", c.name);
    var opening, rest := Opening(bars, "invoke" + attributes), PrintParameters(bars, c.parameters)
        + Closing(bars, "invoke");
    CallPrintedAs(bars, c);
    CallBounds(codec, c);
    OccursSplit(text, opening, rest, at);
    OccursInText(text, PrintCall(bars, c), at);
    NameAttribute(c.name);
    OpeningTag(text, at, bars, "invoke", attributes, map["name" := c.name]);
    TagNames();
    StructuralHere(text, at);
    var none: Arguments := map[];
    InvokeReads(codec, text, at + |opening|, bars, c.name, c.parameters, none, 0);
    BlockAtInvoke(codec, text, at, c, calls, total, at + |opening|, at + |opening| + |rest|);
  }

  lemma CallBounds(codec: Codec, c: PrintedCall)
    requires PrintableCall(codec, c)
    ensures '"' !in c.name
    ensures var attributes := " " + Quoted("name", c.name);
            attributes != "" && attributes[0] == ' ' && !IsWhitespace(attributes[|attributes| - 1])
                && '>' !in attributes
    ensures PrintableParameters(codec, c.parameters) && DistinctNames(c.parameters)
    ensures |c.parameters| <= MAX_TOOL_PARAMETERS_PER_CALL
    ensures BodyBytes(c.parameters) <= MAX_TOOL_ARGUMENT_BYTES_PER_CALL
    ensures ByteLen(codec.render(Bind(codec, c.parameters, map[]))) <= MAX_TOOL_ARGUMENT_BYTES_PER_CALL
    ensures Meaning(codec, c) == ParsedCall(c.name, codec.render(Bind(codec, c.parameters, map[])))
  {
    hide ByteLen, BodyBytes, Bind;
  }

  lemma BlockAtInvoke(codec: Codec, text: string, at: nat, c: PrintedCall, calls: seq<ParsedCall>, total: nat,
      inside: nat, end: nat)
    requires at <= inside <= end <= |text| && PrintableCall(codec, c)
    requires NextStructuralTag(text, at) == Ok(LocatedTag(at, inside, Tag(Invoke, false, map["name" := c.name])))
    requires InvokeFrom(codec, text, inside, c.name, map[], 0) == Ok(Located(Meaning(codec, c), end))
    requires |calls| < MAX_TOOL_CALLS_PER_TURN
    requires total + ByteLen(Meaning(codec, c).arguments) <= MAX_TOOL_ARGUMENT_BYTES_TOTAL
    ensures BlockFrom(codec, text, at, calls, total)
         == BlockFrom(codec, text, end, calls + [Meaning(codec, c)], total + ByteLen(Meaning(codec, c).arguments))
  {
    hide NextStructuralTag, InvokeFrom, Meaning, ByteLen, PrintableParameters, BodyBytes, DistinctNames;
    var tag := Tag(Invoke, false, map["name" := c.name]);
    assert |tag.attrs| == 1;
    assert CheckInvokeHead(tag) == Ok(c.name);
  }

  lemma CallPrintedAs(bars: string, c: PrintedCall)
    ensures PrintCall(bars, c)
         == Opening(bars, "invoke" + (" " + Quoted("name", c.name)))
             + (PrintParameters(bars, c.parameters) + Closing(bars, "invoke"))
  {
    assert "invoke " + Quoted("name", c.name) == "invoke" + (" " + Quoted("name", c.name));
  }

  lemma {:induction false} CallsRead(
      codec: Codec, text: string, at: nat, bars: string, cs: seq<PrintedCall>, calls: seq<ParsedCall>, total: nat)
    requires IsBars(bars) && PrintableCalls(codec, cs) && calls + Meanings(codec, cs) != []
    requires OccursAt(text, PrintCalls(bars, cs) + Closing(bars, "tool_calls"), at)
    requires |calls| + |cs| <= MAX_TOOL_CALLS_PER_TURN
    requires total + ArgumentBytes(Meanings(codec, cs)) <= MAX_TOOL_ARGUMENT_BYTES_TOTAL
    ensures at <= |text|
    ensures BlockFrom(codec, text, at, calls, total)
         == Ok(Located(calls + Meanings(codec, cs), at + |PrintCalls(bars, cs) + Closing(bars, "tool_calls")|))
    decreases |cs|
  {
    hide *;
    OccursInText(text, PrintCalls(bars, cs) + Closing(bars, "tool_calls"), at);
    if cs == [] {
      NoCalls(codec, bars);
      ClosingTag(text, at, bars, "tool_calls");
      TagNames();
      StructuralHere(text, at);
      assert calls + Meanings(codec, cs) == calls;
      BlockAtClosing(codec, text, at, calls, total, at + |Closing(bars, "tool_calls")|);
    } else {
      var rest := PrintCalls(bars, cs[1..]) + Closing(bars, "tool_calls");
      FirstCall(codec, bars, cs);
      OccursSplit(text, PrintCall(bars, cs[0]), rest, at);
      CallStep(codec, text, at, bars, cs[0], calls, total);
      var more := calls + [Meaning(codec, cs[0])];
      assert more + Meanings(codec, cs[1..]) == calls + Meanings(codec, cs);
      CallsRead(codec, text, at + |PrintCall(bars, cs[0])|, bars, cs[1..], more, total
          + ByteLen(Meaning(codec, cs[0]).arguments));
    }
  }

  lemma NoCalls(codec: Codec, bars: string)
    ensures PrintCalls(bars, []) + Closing(bars, "tool_calls") == Closing(bars, "tool_calls")
    ensures PrintableCalls(codec, []) && Meanings(codec, []) == []
  {
  }

  lemma BlockAtClosing(codec: Codec, text: string, at: nat, calls: seq<ParsedCall>, total: nat, end: nat)
    requires at <= |text| && NextStructuralTag(text, at) == Ok(LocatedTag(at, end, Tag(ToolCalls, true, map[])))
               && calls != []
    ensures BlockFrom(codec, text, at, calls, total) == Ok(Located(calls, end))
  {
    hide NextStructuralTag;
  }

  lemma FirstCall(codec: Codec, bars: string, cs: seq<PrintedCall>)
    requires cs != [] && PrintableCalls(codec, cs)
    ensures PrintableCall(codec, cs[0]) && PrintableParameters(codec, cs[0].parameters)
              && PrintableCalls(codec, cs[1..])
    ensures Meanings(codec, cs) == [Meaning(codec, cs[0])] + Meanings(codec, cs[1..])
    ensures ArgumentBytes(Meanings(codec, cs))
              == ByteLen(Meaning(codec, cs[0]).arguments) + ArgumentBytes(Meanings(codec, cs[1..]))
    ensures PrintCalls(bars, cs) + Closing(bars, "tool_calls")
         == PrintCall(bars, cs[0]) + (PrintCalls(bars, cs[1..]) + Closing(bars, "tool_calls"))
  {
    hide PrintCall, Closing, Meaning, ByteLen, PrintableParameters, BodyBytes, DistinctNames;
    var all := Meanings(codec, cs);
    assert all[0] == Meaning(codec, cs[0]) && all[1..] == Meanings(codec, cs[1..]);
  }

  // ------------------------------------------------------------------ visible scanning

  /** Without a `<` ahead the scanner finds no tag, whatever the Markdown. */
  lemma {:induction false} NoTagWithoutLt(text: string, blocks: Blocks, cursor: nat)
    requires Aligned(text, blocks, 0) && forall k | cursor <= k < |text| :: text[k] != '<'
    ensures VisibleTag(text, blocks, cursor) == Ok(None)
    decreases |text| - cursor
  {
    hide Aligned, TagAt;
    if cursor < |text| {
      var step := VisibleStep(text, blocks, cursor);
      assert step.GoTo?;
      NoTagWithoutLt(text, blocks, step.next);
    }
  }

  /** No code region can hide an opener that stands alone, nor keep the scanner from reaching it. */
  lemma StandaloneUnprotected(text: string, start: nat)
    requires start < |text| && text[start] == '<' && StandsAlone(text, start)
    ensures forall k | 0 <= k < |ProtectedRanges(text)| :: ProtectedRanges(text)[k].0 <= start ==>
              ProtectedRanges(text)[k].1 <= start
  {
    forall k | 0 <= k < |ProtectedRanges(text)| && ProtectedRanges(text)[k].0 <= start
      ensures ProtectedRanges(text)[k].1 <= start
    {
      ProtectedRangesSound(text);
      BlocksBeforeStandalone(text, start, ProtectedRanges(text)[k]);
    }
  }

  lemma BlanksBefore(text: string, start: nat)
    requires start <= |text| && StandsAlone(text, start)
    ensures forall k | 0 <= k < start :: IsWhitespace(text[k])
  {
    var line := LineStartOf(text, start);
    forall k | 0 <= k < start
      ensures IsWhitespace(text[k])
    {
      if k < line { assert text[..line][k] == text[k]; } else { assert text[line..start][k - line] == text[k]; }
    }
  }

  lemma BlocksBeforeStandalone(text: string, start: nat, r: (nat, nat))
    requires start < |text| && text[start] == '<' && StandsAlone(text, start)
    requires r.0 <= start && r.0 < r.1 <= |text| && IsLineStart(text, r.0) && ProtectedBlock(text, r)
    ensures r.1 <= start
  {
    BlanksBefore(text, start);
    BlanksStopAt(text, r.0, 0, start);
    PlainLineOpensNoFence(text, r.0);
    assert IndentedLine(text, r.0, r.1);
    var line := LineStartOf(text, start);
    if r.0 == line {
      forall k | line <= k < start ensures text[k] == ' ' {
        assert text[line..start][k - line] == text[k];
      }
      SpacesThenLt(text, line, start, 0);
    } else {
      assert text[line - 1] == '\n';
    }
  }

  lemma SpacesThenLt(text: string, cursor: nat, start: nat, columns: nat)
    requires cursor <= start < |text| && text[start] == '<' && forall k | cursor <= k < start :: text[k] == ' '
    ensures IndentFrom(text, cursor, columns) == Indentation(columns + start - cursor, start)
    decreases start - cursor
  {
  }

  lemma {:induction false} ReachStandalone(text: string, cursor: nat, start: nat)
    requires cursor <= start < |text| && text[start] == '<' && StandsAlone(text, start)
    ensures VisibleTag(text, ProtectedRanges(text), cursor) == VisibleTag(text, ProtectedRanges(text), start)
    decreases start - cursor
  {
    hide ProtectedRanges, Aligned, StandsAlone, FenceOpeningAt, TagAt;
    if cursor < start {
      BlanksBefore(text, start);
      StandaloneUnprotected(text, start);
      BlanksStopAt(text, cursor, 0, start);
      PlainLineOpensNoFence(text, cursor);
      var step := VisibleStep(text, ProtectedRanges(text), cursor);
      assert step.GoTo? && step.next <= start;
      ReachStandalone(text, step.next, start);
    }
  }

  /** An opener that stands alone is the first visible tag. */
  lemma StandaloneIsVisible(text: string, start: nat, tag: LocatedTag)
    requires start < |text| && text[start] == '<' && StandsAlone(text, start)
    requires TagAt(text, start) == Ok(Some(tag))
    ensures VisibleTag(text, ProtectedRanges(text), 0) == Ok(Some(tag))
  {
    hide ProtectedRanges, Aligned, StandsAlone, FenceOpeningAt, TagAt;
    ReachStandalone(text, 0, start);
    StandaloneUnprotected(text, start);
    BlanksStopAt(text, start, 0, start);
    PlainLineOpensNoFence(text, start);
    assert BlockAt(ProtectedRanges(text), start).None?;
  }

  // ------------------------------------------------------------------------ round trip

  /** Printing a batch, with blank lines around it, and parsing the turn gives the batch back. */
  lemma RoundTrip(codec: Codec, bars: string, cs: seq<PrintedCall>, before: string, after: string)
    requires IsBars(bars) && PrintableBatch(codec, cs)
    requires StandsAlone(before + PrintBatch(bars, cs) + after, |before|) && AllWhitespace(after)
    requires ByteLen(before + PrintBatch(bars, cs) + after) <= MAX_ASSISTANT_TEXT_BYTES
    ensures AssistantText(codec, before + PrintBatch(bars, cs) + after) == Ok(Calls("", Meanings(codec, cs)))
  {
    hide *;
    var text, start := before + PrintBatch(bars, cs) + after, |before|;
    var opening, rest := Opening(bars, "tool_calls"), PrintCalls(bars, cs) + Closing(bars, "tool_calls");
    BatchInText(text, before, bars, cs, after);
    OccursSplit(text, opening, rest, start);
    NoMoreAttributes(map[]);
    assert "tool_calls" + "" == "tool_calls";
    OpeningTag(text, start, bars, "tool_calls", "", map[]);
    TagNames();
    var tag := LocatedTag(start, start + |opening|, Tag(ToolCalls, false, map[]));
    StandaloneIsVisible(text, start, tag);
    ExecutableIffStandsAlone(text, start);
    BatchBounds(codec, cs);
    assert [] + Meanings(codec, cs) == Meanings(codec, cs);
    CallsRead(codec, text, start + |opening|, bars, cs, [], 0);
    TailIsBlank(text, before, bars, cs, after);
    NoTagWithoutLt(text, ProtectedRanges(text), start + |opening| + |rest|) by { RangesAligned(text); }
    AcceptEnvelope(codec, text, tag, Meanings(codec, cs), start + |opening| + |rest|);
  }

  lemma RangesAligned(text: string)
    ensures Aligned(text, ProtectedRanges(text), 0)
  {
  }

  lemma BatchInText(text: string, before: string, bars: string, cs: seq<PrintedCall>, after: string)
    requires text == before + PrintBatch(bars, cs) + after
    ensures |before| < |text| && text[|before|] == '<'
    ensures OccursAt(text, Opening(bars, "tool_calls") + (PrintCalls(bars, cs) + Closing(bars, "tool_calls")), |before|)
  {
    hide PrintCalls, Closing;
    var batch := Opening(bars, "tool_calls") + (PrintCalls(bars, cs) + Closing(bars, "tool_calls"));
    assert PrintBatch(bars, cs) == batch;
    assert text[|before|..|before| + |batch|] == batch;
    assert batch[0] == '<';
  }

  lemma BatchBounds(codec: Codec, cs: seq<PrintedCall>)
    requires PrintableBatch(codec, cs)
    ensures PrintableCalls(codec, cs) && |cs| <= MAX_TOOL_CALLS_PER_TURN && Meanings(codec, cs) != []
    ensures ArgumentBytes(Meanings(codec, cs)) <= MAX_TOOL_ARGUMENT_BYTES_TOTAL
  {
    hide Meaning, ByteLen;
  }

  lemma TailIsBlank(text: string, before: string, bars: string, cs: seq<PrintedCall>, after: string)
    requires text == before + PrintBatch(bars, cs) + after && AllWhitespace(after)
    ensures var end := |before| + |Opening(bars, "tool_calls")| + |PrintCalls(bars, cs) + Closing(bars, "tool_calls")|;
            end <= |text| && text[end..] == after && AllWhitespace(text[end..])
                && forall k | end <= k < |text| :: text[k] != '<'
  {
    hide PrintCalls, Closing, Opening;
    var end := |before| + |PrintBatch(bars, cs)|;
    assert text[end..] == after;
    assert forall k | end <= k < |text| :: text[k] == after[k - end];
  }

  lemma AcceptEnvelope(codec: Codec, text: string, tag: LocatedTag, calls: seq<ParsedCall>, end: nat)
    requires ByteLen(text) <= MAX_ASSISTANT_TEXT_BYTES && tag.start < tag.end <= end <= |text|
    requires tag.tag == Tag(ToolCalls, false, map[])
    requires VisibleTag(text, ProtectedRanges(text), 0) == Ok(Some(tag)) && IsExecutableTopLevelOpener(text, tag.start)
    requires BlockFrom(codec, text, tag.end, [], 0) == Ok(Located(calls, end))
    requires VisibleTag(text, ProtectedRanges(text), end) == Ok(None) && AllWhitespace(text[end..])
    ensures AssistantText(codec, text) == Ok(Calls("", calls))
  {
    hide ByteLen, VisibleTag, ProtectedRanges, IsExecutableTopLevelOpener, BlockFrom, AllWhitespace;
  }
}
