// The tool context of a run and the sequential execution of one batch of calls.
module Tools {
  import opened Wrappers
  import T = Text
  import opened ToolDeltas
  import opened Conversation
  import opened RunState

  predicate IsPlanTool(name: string) {
    name == "generate_plan" || name == "ask_user"
  }

  predicate OnlyPlanTools(calls: seq<ToolCall>) {
    forall call <- calls :: IsPlanTool(call.name)
  }

  predicate IsPlanMutationTool(name: string) {
    name == "generate_plan" || name == "update_step_status"
  }

  predicate IsRetrievalTool(name: string) {
    name in {
      "web_search", "fetch_url", "search_papers", "fetch_paper", "search_memory", "read_memory", "search_skills",
      "list_skills", "list_files", "read_file", "mcp_list_resources", "mcp_read_resource"
    }
  }

  /** Some step of an approved plan can still change. */
  predicate RequiresExecution(plan: Option<PlanState>) {
    plan.Some? && plan.value.approved && exists step <- plan.value.steps :: step.status != "done"
  }

  predicate IsToolAvailable(name: string, planMode: bool, stepUpdatesAllowed: bool) {
    if planMode then IsPlanTool(name) else name != "update_step_status" || stepUpdatesAllowed
  }

  predicate ApprovedPlanIsComplete(plan: Option<PlanState>) {
    && plan.Some? && plan.value.approved && plan.value.steps != []
    && forall step <- plan.value.steps :: T.EqIgnoreAsciiCase(step.status, "done")
  }

  /** What a tool did besides answering; an effect only happens if the tool of that name was called. */
  datatype Effect =
    | NoEffect
    | PlanGenerated(titles: seq<string>, question: Option<string>)
    | StepUpdated(step: nat, status: string)
    | Asked(ask: PendingAsk)

  datatype ToolReply = ToolReply(content: string, isError: bool, effect: Effect)

  /** One result per call, in order, under the call's id. */
  predicate Replied(results: seq<ToolResult>, calls: seq<ToolCall>) {
    |results| == |calls| && forall i | 0 <= i < |calls| :: results[i].callId == calls[i].id
  }

  /** A successful result of the named tool. */
  predicate Did(name: string, calls: seq<ToolCall>, results: seq<ToolResult>) {
    exists call <- calls, result <- results :: call.name == name && result.callId == call.id && !result.isError
  }

  function Rejected(calls: seq<ToolCall>): (results: seq<ToolResult>)
    ensures Replied(results, calls) && forall r <- results :: r.isError
  {
    seq(|calls|, i requires 0 <= i < |calls| => ToolResult(calls[i].id, "tool was not executed", true))
  }

  class ToolContext {
    var plan: Option<PlanState>
    var pendingAsk: Option<PendingAsk>
    /** Every batch that reached the router. */
    ghost var routed: seq<seq<ToolCall>>

    constructor (initial: Option<PlanState>)
      ensures plan == initial && pendingAsk.None? && routed == []
    {
      plan, pendingAsk, routed := initial, None, [];
    }

    /** Whether the plan may have changed this way while these calls were executed, all or only the first of them. */
    twostate predicate PlanFollows(calls: seq<ToolCall>)
      reads this`plan
    {
      && (OnlyPlanTools(calls) ==> plan == old(plan) || (plan.Some? && !plan.value.approved))
      && ((forall call <- calls :: !IsPlanMutationTool(call.name)) ==> plan == old(plan))
      && ((forall call <- calls :: call.name != "generate_plan") && old(plan).Some? ==>
            && plan.Some? && plan.value.approved == old(plan).value.approved
            && |plan.value.steps| == |old(plan).value.steps|)
    }

    /**
     * Run the calls one after the other. The receiver may go away before any of them: the batch is then dropped where
     * it stands, without results, but what its first calls did remains.
     */
    method ExecuteToolCalls(calls: seq<ToolCall>, reply: nat -> ToolReply, channel: EventChannel)
      returns (results: Option<seq<ToolResult>>)
      modifies this, channel`budget
      ensures routed == old(routed) + [calls] && PlanFollows(calls)
      ensures results.Some? ==>
                && Replied(results.value, calls)
                && forall i | 0 <= i < |calls| ::
                     results.value[i].content == reply(i).content && results.value[i].isError == reply(i).isError
      ensures results.None? ==> channel.budget == 0
    {
      hide OnlyPlanTools, IsPlanMutationTool;
      routed := routed + [calls];
      var answered := [];
      for i := 0 to |calls|
        invariant Replied(answered, calls[..i]) && routed == old(routed) + [calls] && PlanFollows(calls)
        invariant forall j | 0 <= j < i ::
                    answered[j].content == reply(j).content && answered[j].isError == reply(j).isError
      {
        var closed := channel.IsClosed();
        if closed {
          return None;
        }
        assert calls[i] in calls;
        MayMutate(calls, i);
        Apply(calls[i].name, reply(i).effect);
        answered := answered + [ToolResult(calls[i].id, reply(i).content, reply(i).isError)];
      }
      assert calls[..|calls|] == calls;
      results := Some(answered);
    }

    lemma MayMutate(calls: seq<ToolCall>, i: nat)
      requires i < |calls|
      ensures OnlyPlanTools(calls) ==> calls[i].name != "update_step_status"
      ensures (forall call <- calls :: !IsPlanMutationTool(call.name)) ==>
                calls[i].name != "generate_plan" && calls[i].name != "update_step_status"
    {
      assert calls[i] in calls;
    }

    method Apply(name: string, effect: Effect)
      modifies this`plan, this`pendingAsk
      ensures name != "generate_plan" && name != "update_step_status" ==> plan == old(plan)
      ensures name == "generate_plan" ==> plan == old(plan) || (plan.Some? && !plan.value.approved)
      ensures name == "update_step_status" && old(plan).Some? ==>
                plan.Some? && plan.value.approved == old(plan).value.approved
                    && |plan.value.steps| == |old(plan).value.steps|
      ensures name != "ask_user" ==> pendingAsk == old(pendingAsk)
    {
      match effect {
        case PlanGenerated(titles, question) =>
          if name == "generate_plan" && titles != [] {
            plan := Some(PlanState(seq(|titles|, i requires 0 <= i < |titles| => PlanStep(titles[i], "pending")), false,
                question));
          }
        case StepUpdated(step, status) =>
          if name == "update_step_status" && plan.Some? && step < |plan.value.steps| {
            var steps := plan.value.steps;
            plan := Some(plan.value.(steps := steps[step := steps[step].(status := status)]));
          }
        case Asked(ask) =>
          if name == "ask_user" {
            pendingAsk := Some(ask);
          }
        case NoEffect =>
      }
    }
  }
}
