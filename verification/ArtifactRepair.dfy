// Whether the workspace was repaired, and checked again, after a reviewer asked for it.
module ArtifactRepair {
  import opened Wrappers
  import opened ToolDeltas
  import opened Conversation

  datatype RepairProgress = MissingMutation | MissingVerification | Repaired

  predicate IsMutationTool(name: string) {
    name == "write_file" || name == "edit_file"
  }

  predicate IsVerificationTool(name: string) {
    name == "read_file" || name == "python" || name == "bash"
  }

  // ------------------------------------------------------------------------ the two scans

  datatype CallSite = CallSite(name: string, turn: nat)

  function AddSites(sites: map<string, CallSite>, calls: seq<ToolCall>, turn: nat): map<string, CallSite> {
    if calls == [] then sites
    else
      var last := calls[|calls| - 1];
      AddSites(sites, calls[..|calls| - 1], turn)[last.id := CallSite(last.name, turn)]
  }

  function RawCalls(m: Message): seq<ToolCall> {
    if m.toolCalls.Some? then m.toolCalls.value else []
  }

  /** Where each call id was last issued. */
  function CallSites(ms: seq<Message>): map<string, CallSite> {
    if ms == [] then map[] else AddSites(CallSites(ms[..|ms| - 1]), RawCalls(ms[|ms| - 1]), |ms| - 1)
  }

  datatype Latest = Latest(mutation: Option<nat>, verification: Option<nat>)

  /** One message of the second scan. */
  function Scan(sites: map<string, CallSite>, latest: Latest, m: Message): Latest {
    if m.role != ToolRole || m.isError != Some(false) || m.toolCallId.None? || m.toolCallId.value !in sites then latest
    else
      var site := sites[m.toolCallId.value];
      var name := if m.name.Some? then m.name.value else site.name;
      if IsMutationTool(name) then latest.(mutation := Some(site.turn))
      else if IsVerificationTool(name) then latest.(verification := Some(site.turn))
      else latest
  }

  function ScanAll(sites: map<string, CallSite>, ms: seq<Message>): Latest {
    if ms == [] then Latest(None, None) else Scan(sites, ScanAll(sites, ms[..|ms| - 1]), ms[|ms| - 1])
  }

  function Judge(latest: Latest): RepairProgress {
    if latest.mutation.None? then MissingMutation
    else if latest.verification.Some? && latest.verification.value > latest.mutation.value then Repaired
    else MissingVerification
  }

  function Progress(ms: seq<Message>): RepairProgress {
    Judge(ScanAll(CallSites(ms), ms))
  }

  method ArtifactRepairProgress(ms: seq<Message>) returns (p: RepairProgress)
    ensures p == Progress(ms)
  {
    var sites: map<string, CallSite> := map[];
    assert ms[..0] == [];
    for i := 0 to |ms|
      invariant sites == CallSites(ms[..i])
    {
      var calls := RawCalls(ms[i]);
      assert calls[..0] == [];
      for k := 0 to |calls|
        invariant sites == AddSites(CallSites(ms[..i]), calls[..k], i)
      {
        assert calls[..k + 1][..k] == calls[..k];
        sites := sites[calls[k].id := CallSite(calls[k].name, i)];
      }
      assert calls[..|calls|] == calls && ms[..i + 1][..i] == ms[..i];
    }
    assert ms[..|ms|] == ms;
    var latest := Latest(None, None);
    for i := 0 to |ms|
      invariant latest == ScanAll(sites, ms[..i])
    {
      assert ms[..i + 1][..i] == ms[..i];
      latest := Scan(sites, latest, ms[i]);
    }
    p := Judge(latest);
  }

  /** A message that is no tool result and carries no calls changes nothing. */
  lemma ProgressIgnores(ms: seq<Message>, m: Message)
    requires m.role != ToolRole && RawCalls(m) == []
    ensures Progress(ms + [m]) == Progress(ms)
  {
    assert (ms + [m])[..|ms|] == ms;
  }

  // ------------------------------------------------------------------- what it should mean

  /**
   * The tool whose successful result stands at `i`: the name the result carries, or else the name under which its
   * call id was last issued.
   */
  function SuccessfulTool(ms: seq<Message>, i: nat): Option<string>
    requires i < |ms|
  {
    var m := ms[i];
    if m.role != ToolRole || m.isError != Some(false) || m.toolCallId.None? then None
    else if m.name.Some? then m.name
    else if m.toolCallId.value in CallSites(ms) then Some(CallSites(ms)[m.toolCallId.value].name)
    else None
  }

  predicate Change(ms: seq<Message>, i: nat) {
    i < |ms| && SuccessfulTool(ms, i).Some? && IsMutationTool(SuccessfulTool(ms, i).value)
  }

  predicate Check(ms: seq<Message>, i: nat) {
    i < |ms| && SuccessfulTool(ms, i).Some? && IsVerificationTool(SuccessfulTool(ms, i).value)
  }

  /** The turn that message `i` belongs to: the last message up to it that is no tool result. */
  function TurnOf(ms: seq<Message>, i: nat): (turn: nat)
    requires i < |ms|
    ensures turn <= i
  {
    if i == 0 || ms[i].role != ToolRole then i else TurnOf(ms, i - 1)
  }

  ghost predicate Changed(ms: seq<Message>) {
    exists c: nat :: Change(ms, c)
  }

  /** Some successful check ran in a turn later than every successful change. */
  ghost predicate CheckedLater(ms: seq<Message>) {
    exists v: nat :: Check(ms, v) && forall c: nat :: Change(ms, c) ==> TurnOf(ms, c) < TurnOf(ms, v)
  }

  function LastChange(ms: seq<Message>, n: nat): (last: Option<nat>)
    requires n <= |ms|
    ensures last.None? ==> forall i: nat | i < n :: !Change(ms, i)
    ensures last.Some? ==>
              && last.value < n && Change(ms, last.value)
              && forall i: nat | last.value < i < n :: !Change(ms, i)
  {
    if n == 0 then None else if Change(ms, n - 1) then Some(n - 1) else LastChange(ms, n - 1)
  }

  function LastCheck(ms: seq<Message>, n: nat): (last: Option<nat>)
    requires n <= |ms|
    ensures last.None? ==> forall i: nat | i < n :: !Check(ms, i)
    ensures last.Some? ==>
              && last.value < n && Check(ms, last.value)
              && forall i: nat | last.value < i < n :: !Check(ms, i)
  {
    if n == 0 then None else if Check(ms, n - 1) then Some(n - 1) else LastCheck(ms, n - 1)
  }

  // -------------------------------------------------------------------- where an id was last issued

  predicate Issues(m: Message, id: string) {
    exists call <- RawCalls(m) :: call.id == id
  }

  /** The last message before `n` that issues a call with this id. */
  function LastIssue(ms: seq<Message>, n: nat, id: string): (turn: Option<nat>)
    requires n <= |ms|
    ensures turn.Some? ==> turn.value < n && Issues(ms[turn.value], id)
    ensures forall t: nat | t < n && Issues(ms[t], id) :: turn.Some? && t <= turn.value
  {
    if n == 0 then None else if Issues(ms[n - 1], id) then Some(n - 1) else LastIssue(ms, n - 1, id)
  }

  lemma {:induction false} AddSitesOf(sites: map<string, CallSite>, calls: seq<ToolCall>, turn: nat, id: string)
    ensures var after := AddSites(sites, calls, turn);
            if exists call <- calls :: call.id == id then id in after && after[id].turn == turn
            else (id in after <==> id in sites) && (id in sites ==> after[id] == sites[id])
    decreases |calls|
  {
    if calls != [] {
      var front, last := calls[..|calls| - 1], calls[|calls| - 1];
      AddSitesOf(sites, front, turn, id);
      assert calls == front + [last];
    }
  }

  /** The first scan keeps, for every id, the turn of its last issue. */
  lemma {:induction false} SiteIsLastIssue(ms: seq<Message>, n: nat, id: string)
    requires n <= |ms|
    ensures id in CallSites(ms[..n]) <==> LastIssue(ms, n, id).Some?
    ensures id in CallSites(ms[..n]) ==> CallSites(ms[..n])[id].turn == LastIssue(ms, n, id).value
  {
    hide AddSites, RawCalls;
    if n == 0 {
      assert ms[..0] == [];
    } else {
      SiteIsLastIssue(ms, n - 1, id);
      assert ms[..n][..n - 1] == ms[..n - 1] && ms[..n][n - 1] == ms[n - 1];
      AddSitesOf(CallSites(ms[..n - 1]), RawCalls(ms[n - 1]), n - 1, id);
    }
  }

  // ---------------------------------------------------------------- positions in a paired history

  /** Call `k` of the message at `turn`, whose result directly follows the batch's earlier results. */
  predicate IsCall(ms: seq<Message>, turn: nat, k: nat) {
    turn < |ms| && k < |CallsOf(ms[turn])| && turn + 1 + k < |ms|
  }

  /** A tool message answers one call of the batch right before it. */
  lemma {:induction false} ReplyPosition(ms: seq<Message>, i: nat) returns (turn: nat, k: nat)
    requires WellPaired(ms) && i < |ms| && ms[i].role == ToolRole
    ensures IsCall(ms, turn, k) && i == turn + 1 + k && ms[i].toolCallId == Some(CallsOf(ms[turn])[k].id)
    decreases |ms|
  {
    var n := 1 + |CallsOf(ms[0])|;
    if i < n {
      turn, k := 0, i - 1;
      assert ms[1..n][k] == ms[i];
    } else {
      turn, k := ReplyPosition(ms[n..], i - n);
      turn := turn + n;
    }
  }

  lemma RepliesFollow(ms: seq<Message>, turn: nat)
    requires WellPaired(ms) && ms != [] && 0 < turn < 1 + |CallsOf(ms[0])|
    ensures turn < |ms| && ms[turn].role == ToolRole
  {
    assert ms[turn] == ms[1..1 + |CallsOf(ms[0])|][turn - 1];
  }

  /** Every call has its result, and later turns lie behind all results of earlier ones. */
  lemma {:induction false} CallPosition(ms: seq<Message>, turn: nat, k: nat)
    requires WellPaired(ms) && turn < |ms| && k < |CallsOf(ms[turn])|
    ensures turn + |CallsOf(ms[turn])| < |ms|
    ensures ms[turn + 1 + k].role == ToolRole && ms[turn + 1 + k].toolCallId == Some(CallsOf(ms[turn])[k].id)
    decreases |ms|
  {
    var n := 1 + |CallsOf(ms[0])|;
    if turn == 0 {
      assert ms[1..n][k] == ms[1 + k];
    } else {
      if turn < n {
        RepliesFollow(ms, turn);
      }
      CallPosition(ms[n..], turn - n, k);
    }
  }

  /** A tool message belongs to the turn of the call it answers. */
  lemma {:induction false} ReplyTurn(ms: seq<Message>, turn: nat, k: nat)
    requires WellPaired(ms) && IsCall(ms, turn, k)
    ensures TurnOf(ms, turn + 1 + k) == turn
    decreases k
  {
    hide WellPaired;
    CallPosition(ms, turn, k);
    if k > 0 {
      ReplyTurn(ms, turn, k - 1);
    }
  }

  lemma {:induction false} TurnsAscend(ms: seq<Message>, i: nat, j: nat)
    requires i <= j < |ms|
    ensures TurnOf(ms, i) <= TurnOf(ms, j)
    decreases j
  {
    if i < j && ms[j].role == ToolRole {
      TurnsAscend(ms, i, j - 1);
    }
  }

  lemma ReplyIsIssued(ms: seq<Message>, i: nat)
    requires WellPaired(ms) && i < |ms| && ms[i].role == ToolRole
    ensures ms[i].toolCallId.Some?
    ensures var last := LastIssue(ms, |ms|, ms[i].toolCallId.value);
            last.Some? && TurnOf(ms, i) <= last.value
  {
    hide WellPaired, LastIssue;
    var turn, k := ReplyPosition(ms, i);
    ReplyTurn(ms, turn, k);
    assert CallsOf(ms[turn])[k] in RawCalls(ms[turn]);
    assert Issues(ms[turn], ms[i].toolCallId.value);
  }

  /** The turn in which the id of the result at `i` was last issued. */
  ghost function IssuedIn(ms: seq<Message>, i: nat): (turn: nat)
    requires WellPaired(ms) && i < |ms| && ms[i].role == ToolRole
    ensures TurnOf(ms, i) <= turn < |ms| && ms[i].toolCallId.Some?
    ensures LastIssue(ms, |ms|, ms[i].toolCallId.value) == Some(turn)
  {
    ReplyIsIssued(ms, i);
    LastIssue(ms, |ms|, ms[i].toolCallId.value).value
  }

  /** The call id of the result at `i` is issued again in a later turn. */
  ghost predicate Reissued(ms: seq<Message>, i: nat)
    requires i < |ms|
  {
    && ms[i].toolCallId.Some?
    && exists t: nat | TurnOf(ms, i) < t < |ms| :: Issues(ms[t], ms[i].toolCallId.value)
  }

  // --------------------------------------------------------------------- the scan and its meaning

  /** The scan dates the last change and the last check by the last issue of their ids. */
  ghost predicate Dated(ms: seq<Message>, n: nat, latest: Latest)
    requires WellPaired(ms) && n <= |ms|
  {
    && latest.mutation == (var c := LastChange(ms, n); if c.None? then None else Some(IssuedIn(ms, c.value)))
    && latest.verification == (var v := LastCheck(ms, n); if v.None? then None else Some(IssuedIn(ms, v.value)))
  }

  lemma {:induction false} ScanIsDated(ms: seq<Message>, n: nat)
    requires WellPaired(ms) && n <= |ms|
    ensures Dated(ms, n, ScanAll(CallSites(ms), ms[..n]))
    decreases n
  {
    hide WellPaired, CallSites, TurnOf, LastIssue;
    if n > 0 {
      var i := n - 1;
      ScanIsDated(ms, i);
      assert ms[..n][..i] == ms[..i] && ms[..n][i] == ms[i];
      if ms[i].role == ToolRole {
        var turn := IssuedIn(ms, i);
        SiteIsLastIssue(ms, |ms|, ms[i].toolCallId.value);
        assert ms[..|ms|] == ms;
      }
    }
  }

  /** Being checked later is a matter of the last change and the last check. */
  lemma CheckedLaterByLast(ms: seq<Message>)
    ensures Changed(ms) <==> LastChange(ms, |ms|).Some?
    ensures CheckedLater(ms) <==>
              var c, v := LastChange(ms, |ms|), LastCheck(ms, |ms|);
              v.Some? && (c.Some? ==> TurnOf(ms, c.value) < TurnOf(ms, v.value))
  {
    hide Change, Check, TurnOf, LastChange, LastCheck;
    var c, v := LastChange(ms, |ms|), LastCheck(ms, |ms|);
    assert forall i: nat :: Change(ms, i) || Check(ms, i) ==> i < |ms| by {
      InRange(ms);
    }
    if v.Some? {
      forall i: nat | Check(ms, i) ensures TurnOf(ms, i) <= TurnOf(ms, v.value) {
        TurnsAscend(ms, i, v.value);
      }
      if c.Some? {
        forall i: nat | Change(ms, i) ensures TurnOf(ms, i) <= TurnOf(ms, c.value) {
          TurnsAscend(ms, i, c.value);
        }
      }
    }
  }

  lemma InRange(ms: seq<Message>)
    ensures forall i: nat :: Change(ms, i) || Check(ms, i) ==> i < |ms|
  {
  }

  /**
   * The verdict of the scan, exactly. Without a change or without a check it is right. With both it compares the turns
   * in which the two call ids were last issued, so it is right if and only if these turns stand in the same order as
   * the turns of the change and the check themselves.
   */
  lemma ProgressMeaning(ms: seq<Message>)
    requires WellPaired(ms)
    ensures Progress(ms) == MissingMutation <==> !Changed(ms)
    ensures var c, v := LastChange(ms, |ms|), LastCheck(ms, |ms|);
            if c.Some? && v.Some?
            then
              && (Progress(ms) == Repaired <==> IssuedIn(ms, c.value) < IssuedIn(ms, v.value))
              && (CheckedLater(ms) <==> TurnOf(ms, c.value) < TurnOf(ms, v.value))
              && ((Progress(ms) == Repaired <==> CheckedLater(ms)) <==>
                   (IssuedIn(ms, c.value) < IssuedIn(ms, v.value) <==> TurnOf(ms, c.value) < TurnOf(ms, v.value)))
            else Progress(ms) != Repaired && !(Changed(ms) && CheckedLater(ms))
  {
    hide WellPaired, CallSites, ScanAll, LastChange, LastCheck, Change, Check, TurnOf, CheckedLater, Changed;
    ScanIsDated(ms, |ms|);
    CheckedLaterByLast(ms);
    assert ms[..|ms|] == ms;
  }

  /** An id that is not issued again keeps its date. */
  lemma KeptDate(ms: seq<Message>, i: nat)
    requires WellPaired(ms) && i < |ms| && ms[i].role == ToolRole
    ensures Reissued(ms, i) <==> TurnOf(ms, i) < IssuedIn(ms, i)
  {
    hide WellPaired, TurnOf;
    var last := IssuedIn(ms, i);
  }

  lemma ResultsAreTools(ms: seq<Message>)
    ensures forall i: nat :: Change(ms, i) || Check(ms, i) ==> i < |ms| && ms[i].role == ToolRole
  {
  }

  /** The last check's id, if there was a check, is issued again after it. */
  ghost predicate CheckReissued(ms: seq<Message>) {
    var v := LastCheck(ms, |ms|);
    v.Some? && Reissued(ms, v.value)
  }

  ghost predicate ChangeReissued(ms: seq<Message>) {
    var c := LastChange(ms, |ms|);
    c.Some? && Reissued(ms, c.value)
  }

  /**
   * Only these two ids matter: a repair is never accepted wrongly unless the last check's id comes back later, and
   * never refused wrongly unless the last change's id does.
   */
  lemma RightUnlessReissued(ms: seq<Message>)
    requires WellPaired(ms)
    ensures Progress(ms) == Repaired && !CheckReissued(ms) ==> Changed(ms) && CheckedLater(ms)
    ensures Changed(ms) && CheckedLater(ms) && !ChangeReissued(ms) ==> Progress(ms) == Repaired
  {
    hide WellPaired, Progress, LastChange, LastCheck, Change, Check, TurnOf, CheckedLater, Changed, Reissued;
    ProgressMeaning(ms);
    ResultsAreTools(ms);
    var c, v := LastChange(ms, |ms|), LastCheck(ms, |ms|);
    if c.Some? && v.Some? {
      KeptDate(ms, c.value);
      KeptDate(ms, v.value);
    }
  }

  /** A reused id can move an old check forward, so that a repair is accepted that was never checked. */
  lemma ReusedIdMisleads() returns (ms: seq<Message>)
    ensures WellPaired(ms) && CheckReissued(ms) && !ChangeReissued(ms)
    ensures Progress(ms) == Repaired && Changed(ms) && !CheckedLater(ms)
  {
    var read, write := ToolCall("a", "read_file", ""), ToolCall("b", "write_file", "");
    var other := ToolCall("a", "list_files", "");
    var first := IntoMessage(PublishedTurn("", "", Some([read, write])), NO_USAGE).value;
    var second := IntoMessage(PublishedTurn("", "", Some([other])), NO_USAGE).value;
    var checked := ToolMessage("a", "", Some("read_file"), false);
    var written := ToolMessage("b", "", Some("write_file"), false);
    var listed := ToolMessage("a", "", Some("list_files"), false);
    ms := [first, checked, written, second, listed];
    WellPairedTurn(first, [checked, written]);
    WellPairedTurn(second, [listed]);
    WellPairedConcat([first] + [checked, written], [second] + [listed]);
    assert ms == ([first] + [checked, written]) + ([second] + [listed]);
    SitesOfExample(ms, first, checked, written, second, listed, read, write, other);
    assert Check(ms, 1) && Change(ms, 2);
    assert LastCheck(ms, 5) == Some(1) && LastChange(ms, 5) == Some(2);
    assert other in RawCalls(ms[3]) && RawCalls(ms[4]) == [];
    assert TurnOf(ms, 1) == 0 && TurnOf(ms, 2) == 0;
    assert Issues(ms[3], "a");
    forall t: nat | 0 < t < 5 ensures !Issues(ms[t], "b") {
      assert t == 1 || t == 2 || t == 3 || t == 4;
    }
    CheckedLaterByLast(ms);
  }

  lemma SitesOfExample(
    ms: seq<Message>, first: Message, checked: Message, written: Message, second: Message, listed: Message,
    read: ToolCall, write: ToolCall, other: ToolCall)
    requires ms == [first, checked, written, second, listed]
    requires RawCalls(first) == [read, write] && RawCalls(second) == [other]
    requires RawCalls(checked) == RawCalls(written) == RawCalls(listed) == []
    requires read.id == other.id == "a" && write.id == "b"
    requires first.role == second.role == Assistant
    requires checked == ToolMessage("a", "", Some("read_file"), false)
    requires written == ToolMessage("b", "", Some("write_file"), false)
    requires listed == ToolMessage("a", "", Some("list_files"), false)
    ensures Progress(ms) == Repaired
  {
    var one, two, three, four := ms[..1], ms[..2], ms[..3], ms[..4];
    assert one == [first] && two[..1] == one && three[..2] == two && four[..3] == three && ms[..4] == four
        && one[..0] == [];
    var sites := CallSites(ms);
    assert CallSites(one) == AddSites(map[], [read, write], 0);
    TwoSites(read, write, 0);
    assert CallSites(two) == CallSites(one) && CallSites(three) == CallSites(two);
    assert CallSites(four) == AddSites(CallSites(three), [other], 3);
    OneSite(CallSites(three), other, 3);
    assert sites == CallSites(four);
    assert ScanAll(sites, one) == Latest(None, None);
    assert ScanAll(sites, two) == Latest(None, Some(3));
    assert ScanAll(sites, three) == Latest(Some(0), Some(3));
    assert ScanAll(sites, four) == Latest(Some(0), Some(3));
  }

  lemma OneSite(sites: map<string, CallSite>, call: ToolCall, turn: nat)
    ensures AddSites(sites, [call], turn) == sites[call.id := CallSite(call.name, turn)]
  {
    assert [call][..0] == [];
  }

  lemma TwoSites(a: ToolCall, b: ToolCall, turn: nat)
    ensures AddSites(map[], [a, b], turn) == map[a.id := CallSite(a.name, turn)][b.id := CallSite(b.name, turn)]
  {
    OneSite(map[], a, turn);
    assert [a, b][..1] == [a];
  }
}
