// The guard that publishes a channel's text while it is still streaming.
module TextGuard {
  import opened Wrappers
  import opened Text
  import opened Markdown
  import opened DsmlTags
  import opened TopLevel
  import opened DsmlParser
  import opened DsmlTheorems

  // ------------------------------------------------- what may be published, from the text alone

  /** First position that is neither whitespace nor beyond the text. */
  function FirstVisible(text: string): nat {
    LeadingWhitespace(text)
  }

  /** Longest prefix that can no longer become part of a tool-call envelope. */
  function SafePrefix(text: string): (n: nat)
    ensures n <= |text|
  {
    var first := FirstVisible(text);
    if first == |text| || text[first] == '<' then 0 else Find(text, '<')
  }

  lemma LeadingWhitespaceIs(s: string, n: nat)
    requires n <= |s| && (forall k | 0 <= k < n :: IsWhitespace(s[k])) && (n < |s| ==> !IsWhitespace(s[n]))
    ensures LeadingWhitespace(s) == n
  {
    var m := LeadingWhitespace(s);
    assert forall k | 0 <= k < m :: s[..m][k] == s[k];
  }

  lemma FindIs(s: string, c: char, n: nat)
    requires n <= |s| && (forall k | 0 <= k < n :: s[k] != c) && (n < |s| ==> s[n] == c)
    ensures Find(s, c) == n
  {
  }

  /** The safe prefix of a longer text extends the safe prefix of a shorter one. */
  lemma SafePrefixGrows(a: string, b: string)
    ensures SafePrefix(a) <= SafePrefix(a + b)
    ensures '<' in a ==> SafePrefix(a) == SafePrefix(a + b)
  {
    var t, first := a + b, FirstVisible(a);
    if first < |a| {
      assert forall k | 0 <= k < first :: t[k] == a[..first][k];
      LeadingWhitespaceIs(t, first);
      var lt := Find(a, '<');
      if lt < |a| {
        FindIs(t, '<', lt);
      }
    }
  }

  /** Nothing that is published contains a `<`. */
  lemma SafePrefixHasNoLt(text: string, n: nat)
    requires n <= SafePrefix(text)
    ensures '<' !in text[..n]
  {
  }

  lemma EnvelopeStart(codec: Codec, text: string) returns (start: nat)
    requires AssistantText(codec, text).Ok? && AssistantText(codec, text).value.Calls?
    ensures start < |text| && text[start] == '<' && forall k | 0 <= k < start :: IsWhitespace(text[k])
  {
    hide *;
    var end: nat;
    start, end := AcceptedTurn(codec, text);
    BlanksInPrefix(text, start);
  }

  lemma BlanksInPrefix(text: string, n: nat)
    requires n <= |text| && AllWhitespace(text[..n])
    ensures forall k | 0 <= k < n :: IsWhitespace(text[k])
  {
    assert forall k | 0 <= k < n :: text[..n][k] == text[k];
  }

  lemma NoSafePrefixBefore(text: string, start: nat, n: nat)
    requires n <= |text| && start < |text| && text[start] == '<' && forall k | 0 <= k < start :: IsWhitespace(text[k])
    ensures SafePrefix(text[..n]) == 0
  {
    LeadingWhitespaceIs(text[..n], if start < n then start else n);
  }

  /** A turn that turns out to be a tool-call envelope had no safe prefix, however much of it had arrived. */
  lemma EnvelopeHasNoSafePrefix(codec: Codec, text: string, n: nat)
    requires n <= |text| && AssistantText(codec, text).Ok? && AssistantText(codec, text).value.Calls?
    ensures SafePrefix(text[..n]) == 0 && '<' in text
  {
    hide AssistantText;
    var start := EnvelopeStart(codec, text);
    NoSafePrefixBefore(text, start, n);
  }

  /** Once something visible came before the first `<`, everything up to that `<` is safe. */
  lemma SafePrefixIsFind(text: string, seen: nat)
    requires seen < |text| && !IsWhitespace(text[seen]) && forall k | 0 <= k <= seen :: text[k] != '<'
    ensures SafePrefix(text) == Find(text, '<') && !AllWhitespace(text)
  {
    var first := FirstVisible(text);
    assert forall k | 0 <= k < first :: text[..first][k] == text[k];
  }

  lemma SafeAfterBlanks(before: string, chunk: string, seen: nat)
    requires '<' !in before && seen < |before| && !IsWhitespace(before[seen])
    ensures SafePrefix(before + chunk) == Find(before + chunk, '<') && !AllWhitespace(before + chunk)
    ensures '<' !in (before + chunk)[..|before|]
  {
    assert (before + chunk)[..|before|] == before;
    assert forall k | 0 <= k <= seen :: (before + chunk)[k] == before[k];
    SafePrefixIsFind(before + chunk, seen);
  }

  // ------------------------------------------------------------------------- the guard

  datatype GuardState = LeadingBlanks | StreamingPlain

  datatype Finished = PlainRest(remainder: string) | ToolCallBatch(visible: string, calls: seq<ParsedCall>)

  class IncrementalAssistantTextGuard {
    var text: string
    var state: GuardState
    var scanCursor: nat
    var releasedCursor: nat
    var publicationFrozen: bool
    var observedRawLt: bool
    /** Length of the text when publication was frozen from outside, if it was. */
    ghost var frozenAt: Option<nat>

    /** The part of the text that publication may draw on. */
    ghost function Publishable(): string
      reads this
      requires frozenAt.Some? ==> frozenAt.value <= |text|
    {
      if frozenAt.Some? then text[..frozenAt.value] else text
    }

    ghost predicate Valid()
      reads this
    {
      && (frozenAt.Some? ==> frozenAt.value <= |text|)
      && releasedCursor == SafePrefix(Publishable())
      && releasedCursor <= |text|
      && (observedRawLt <==> '<' in text)
      && (publicationFrozen <==> observedRawLt || frozenAt.Some?)
      && (!observedRawLt ==> scanCursor == |text|)
      && (!observedRawLt ==> (state.LeadingBlanks? <==> AllWhitespace(text)))
    }

    constructor ()
      ensures Valid() && text == "" && releasedCursor == 0 && frozenAt.None? && !publicationFrozen && !observedRawLt
    {
      text, state, scanCursor, releasedCursor := "", LeadingBlanks, 0, 0;
      publicationFrozen, observedRawLt, frozenAt := false, false, None;
    }

    /** Stop publishing without touching the buffer. */
    method FreezePublication()
      requires Valid()
      modifies this`publicationFrozen, this`frozenAt
      ensures Valid() && publicationFrozen
      ensures frozenAt == if old(publicationFrozen) then old(frozenAt) else Some(|text|)
    {
      if !publicationFrozen {
        frozenAt := Some(|text|);
        assert text[..|text|] == text;
      }
      publicationFrozen := true;
    }

    /** Buffer one chunk and return what has just become publishable. */
    method Push(chunk: string) returns (r: Result<Option<string>, DsmlError>)
      requires Valid()
      modifies this
      ensures Valid() && frozenAt == old(frozenAt)
      ensures r.Err? <==> ByteLen(old(text)) + ByteLen(chunk) > MAX_ASSISTANT_TEXT_BYTES
      ensures r.Err? ==> r.error == TooLarge && unchanged(this)
      ensures r.Ok? ==> text == old(text) + chunk && releasedCursor >= old(releasedCursor)
      ensures r.Ok? ==> r.value == if releasedCursor == old(releasedCursor) then None
                else Some(text[old(releasedCursor)..releasedCursor])
    {
      hide SafePrefix, ByteLen, IsWhitespace, AllWhitespace;
      if ByteLen(text) + ByteLen(chunk) > MAX_ASSISTANT_TEXT_BYTES {
        return Err(TooLarge);
      }
      ghost var before := text;
      text := text + chunk;
      SafePrefixGrows(before, chunk);
      assert frozenAt.Some? ==> text[..frozenAt.value] == before[..frozenAt.value];
      var wasFrozen := publicationFrozen;
      if observedRawLt {
        return Ok(None);
      }
      var safeEnd := Scan(before, chunk);
      if wasFrozen || safeEnd.None? || safeEnd.value == releasedCursor {
        return Ok(None);
      }
      var released := text[releasedCursor..safeEnd.value];
      releasedCursor := safeEnd.value;
      r := Ok(Some(released));
    }

    /** Scan what has just arrived; the result is the end of the safe text, or none while everything is blank. */
    method Scan(ghost before: string, ghost chunk: string) returns (safeEnd: Option<nat>)
      requires text == before + chunk && '<' !in before && !observedRawLt && scanCursor == |before|
      requires state.LeadingBlanks? <==> AllWhitespace(before)
      modifies this`scanCursor, this`state, this`observedRawLt, this`publicationFrozen
      ensures SafePrefix(text) == if safeEnd.Some? then safeEnd.value else 0
      ensures observedRawLt <==> '<' in text
      ensures publicationFrozen <==> old(publicationFrozen) || observedRawLt
      ensures !observedRawLt ==> scanCursor == |text| && (state.LeadingBlanks? <==> AllWhitespace(text))
    {
      hide SafePrefix, IsWhitespace;
      if state == LeadingBlanks {
        assert forall k | 0 <= k < |before| :: text[k] == before[k];
        var visible := ScanLeading();
        if !visible {
          return None;
        }
      } else {
        ghost var seen: nat :| seen < |before| && !IsWhitespace(before[seen]);
        SafeAfterBlanks(before, chunk, seen);
      }
      var lt := ScanForLt();
      safeEnd := Some(lt);
    }

    /** Scan the blanks at the start of the turn; the result says whether ordinary text follows them. */
    method ScanLeading() returns (visible: bool)
      requires scanCursor <= |text| && state == LeadingBlanks && !observedRawLt
      requires forall k | 0 <= k < scanCursor :: IsWhitespace(text[k])
      modifies this`scanCursor, this`state, this`observedRawLt, this`publicationFrozen
      ensures visible ==>
                && state == StreamingPlain && scanCursor <= |text| && '<' !in text[..scanCursor]
                && SafePrefix(text) == Find(text, '<') && !AllWhitespace(text)
                && observedRawLt == old(observedRawLt) && publicationFrozen == old(publicationFrozen)
      ensures !visible ==> SafePrefix(text) == 0 && (observedRawLt <==> '<' in text)
      ensures !visible ==> (publicationFrozen <==> old(publicationFrozen) || observedRawLt)
      ensures !visible && !observedRawLt ==> state == LeadingBlanks && AllWhitespace(text) && scanCursor == |text|
    {
      while scanCursor < |text| && IsWhitespace(text[scanCursor])
        invariant scanCursor <= |text|
        invariant forall k | 0 <= k < scanCursor :: IsWhitespace(text[k])
        modifies this`scanCursor
      {
        scanCursor := scanCursor + 1;
      }
      LeadingWhitespaceIs(text, scanCursor);
      if scanCursor == |text| {
        return false;
      }
      var first := scanCursor;
      scanCursor := scanCursor + 1;
      if text[first] == '<' {
        observedRawLt, publicationFrozen := true, true;
        return false;
      }
      SafePrefixIsFind(text, first);
      state := StreamingPlain;
      visible := true;
    }

    /** Scan on to the first `<`, freezing publication there; the result is the end of the safe text. */
    method ScanForLt() returns (safeEnd: nat)
      requires scanCursor <= |text| && !observedRawLt
      requires '<' !in text[..scanCursor]
      modifies this`scanCursor, this`observedRawLt, this`publicationFrozen
      ensures safeEnd == Find(text, '<')
      ensures observedRawLt <==> '<' in text
      ensures publicationFrozen <==> old(publicationFrozen) || observedRawLt
      ensures !observedRawLt ==> scanCursor == |text|
    {
      safeEnd := |text|;
      while scanCursor < |text|
        invariant scanCursor <= |text| && !observedRawLt && safeEnd == |text|
        invariant publicationFrozen == old(publicationFrozen)
        invariant forall k | 0 <= k < scanCursor :: text[k] != '<'
        modifies this`scanCursor, this`observedRawLt, this`publicationFrozen
      {
        if text[scanCursor] == '<' {
          safeEnd := scanCursor;
          scanCursor := scanCursor + 1;
          observedRawLt, publicationFrozen := true, true;
          FindIs(text, '<', safeEnd);
          return;
        }
        scanCursor := scanCursor + 1;
      }
      FindIs(text, '<', safeEnd);
    }

    /** The canonical whole-turn decision, less what is already published. */
    method Finish(codec: Codec) returns (r: Result<Finished, DsmlError>)
      requires Valid()
      ensures match AssistantText(codec, text)
              case Err(e) => r == Err(e)
              case Ok(Plain(_)) => r == Ok(PlainRest(text[releasedCursor..]))
              case Ok(Calls(visible, calls)) => r == Ok(ToolCallBatch("", calls)) && releasedCursor == 0 && '<' in text
    {
      hide AssistantText;
      var parsed :- ParseAssistantText(codec, text);
      match parsed {
        case Plain(whole) =>
          PlainIsVerbatim(codec, text);
          r := Ok(PlainRest(whole[releasedCursor..]));
        case Calls(visible, calls) =>
          EnvelopeHasNoSafePrefix(codec, text, |Publishable()|);
          assert text[..|Publishable()|] == Publishable();
          CallsHideText(codec, text);
          r := Ok(ToolCallBatch(visible, calls));
      }
    }
  }

  lemma CallsHideText(codec: Codec, text: string)
    ensures var r := AssistantText(codec, text); r.Ok? && r.value.Calls? ==> r.value.visible == ""
  {
    hide VisibleTag, ProtectedRanges, BlockFrom, IsExecutableTopLevelOpener;
  }

  // ------------------------------------------------------------- any split into chunks

  function Join(chunks: seq<string>): string {
    if chunks == [] then "" else Join(chunks[..|chunks| - 1]) + chunks[|chunks| - 1]
  }

  method PushAll(chunks: seq<string>) returns (guard: IncrementalAssistantTextGuard, released: string)
    requires ByteLen(Join(chunks)) <= MAX_ASSISTANT_TEXT_BYTES
    ensures fresh(guard) && guard.Valid() && guard.frozenAt.None? && guard.text == Join(chunks)
    ensures released == guard.text[..guard.releasedCursor]
  {
    hide SafePrefix, ByteLen, IsWhitespace, Join, AllWhitespace;
    JoinNothing();
    guard := new IncrementalAssistantTextGuard();
    released := "";
    for i := 0 to |chunks|
      invariant fresh(guard) && guard.Valid() && guard.frozenAt.None?
      invariant guard.text == Join(chunks[..i]) && chunks[..0] == [] && released == guard.text[..guard.releasedCursor]
    {
      var before := released;
      JoinStep(chunks, i);
      var piece := guard.Push(chunks[i]);
      released := released + if piece.value.Some? then piece.value.value else "";
    }
    assert chunks[..|chunks|] == chunks;
  }

  lemma JoinNothing()
    ensures Join([]) == ""
  {
  }

  lemma JoinStep(chunks: seq<string>, i: nat)
    requires i < |chunks|
    ensures Join(chunks[..i + 1]) == Join(chunks[..i]) + chunks[i]
    ensures ByteLen(Join(chunks[..i])) + ByteLen(chunks[i]) <= ByteLen(Join(chunks))
  {
    hide ByteLen;
    assert chunks[..i + 1][..i] == chunks[..i];
    JoinPrefix(chunks, i + 1);
    ByteLenConcat(Join(chunks[..i]), chunks[i]);
  }

  /** What the guard publishes depends only on the whole text, never on how it was cut into chunks. */
  method PublishInChunks(codec: Codec, chunks: seq<string>) returns (released: string, r: Result<Finished, DsmlError>)
    requires ByteLen(Join(chunks)) <= MAX_ASSISTANT_TEXT_BYTES
    ensures released == Join(chunks)[..SafePrefix(Join(chunks))] && '<' !in released
    ensures match AssistantText(codec, Join(chunks))
            case Err(e) => r == Err(e)
            case Ok(Plain(_)) => r.Ok? && r.value.PlainRest? && released + r.value.remainder == Join(chunks)
            case Ok(Calls(_, calls)) => released == "" && r == Ok(ToolCallBatch("", calls))
  {
    hide AssistantText, SafePrefix, ByteLen, IsWhitespace;
    var guard;
    guard, released := PushAll(chunks);
    SafePrefixHasNoLt(guard.text, guard.releasedCursor);
    r := guard.Finish(codec);
    assert guard.text == guard.text[..guard.releasedCursor] + guard.text[guard.releasedCursor..];
  }

  lemma {:induction false} JoinPrefix(chunks: seq<string>, n: nat)
    requires n <= |chunks|
    ensures ByteLen(Join(chunks[..n])) <= ByteLen(Join(chunks))
    decreases |chunks| - n
  {
    hide ByteLen;
    if n == |chunks| {
      assert chunks[..n] == chunks;
    } else {
      JoinPrefix(chunks, n + 1);
      assert chunks[..n + 1][..n] == chunks[..n];
      ByteLenConcat(Join(chunks[..n]), chunks[n]);
    }
  }
}
