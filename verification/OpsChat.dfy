// One operational chat: prefetch, planning, planned checks, the tool loop and the
// structured result, all against one run budget.

module OpsChat {
  import opened Wrappers
  import opened BudgetModel
  import opened RunBudget
  import opened ToolLoop
  import Investigation
  import Text

  datatype Check = Check(tool: string, arguments: string)

  // What a server fixes: its limits, the tools it offers and the decoders it uses.
  datatype Server = Server(
    maxToolCalls: int, maxTokensLimit: int, defaultMaxTokens: int, requestTimeout: int,
    ragReady: bool, ragTool: string, planReady: bool, planTool: string,
    executionTools: set<string>, aliases: map<string, string>, alias: string -> string,
    decodePlan: string -> Option<seq<Check>>, decodeFinding: string -> Option<Investigation.Finding>,
    planPrompt: (string, seq<ToolResult>, int) -> seq<Message>,
    findingPrompt: (string, seq<Call>, seq<ToolResult>) -> seq<Message>)

  predicate ServerOk(s: Server) {
    s.maxToolCalls >= 0 && 0 < s.defaultMaxTokens <= s.maxTokensLimit && s.requestTimeout > 0
  }

  const KIB := 1024
  const MAXIMUM_PLANNING_TOKENS := 2048
  const RESULT_TOOL := "local.investigation.submit_result"

  // The limits newOpsServer derives.
  function OpsLimits(s: Server): Limits {
    var maxIterations := if s.maxToolCalls + 3 < 3 then 3 else s.maxToolCalls + 3;
    var scaled := s.maxToolCalls * 256 * KIB;
    var maxToolResultBytes := if scaled < 256 * KIB then 256 * KIB else scaled;
    Limits(s.requestTimeout, maxIterations, s.maxToolCalls, maxToolResultBytes, 256 * KIB,
           256 * KIB + maxToolResultBytes,
           s.maxTokensLimit * maxIterations)
  }

  lemma {:induction false} OpsLimitsAreValid(s: Server)
    requires ServerOk(s)
    ensures LimitsOk(OpsLimits(s)) && OpsLimits(s).maxIterations == s.maxToolCalls + 3
            && OpsLimits(s).maxToolCalls == s.maxToolCalls
  {
    var m := OpsLimits(s);
    assert s.maxTokensLimit * m.maxIterations > 0;
  }

  // A failure that is neither a lack of iterations nor of tool calls, nor a lack of
  // tokens unless some reply reported more than its request allowed.
  ghost predicate Blameless(e: LoopError, replies: nat -> Reply, sent: seq<Prompt>, from: nat) {
    && e != Budget(Exhausted(Iterations)) && e != Budget(Exhausted(ToolCalls))
    && (e == Budget(Exhausted(ModelTokens)) ==>
        exists i :: from <= i < |sent| && OverReports(replies(i), sent[i].maxTokens))
  }

  lemma NotStarvedIsBlameless(e: LoopError, replies: nat -> Reply, sent: seq<Prompt>, from: nat, first: nat,
                              maxTokens: int)
    requires from <= first <= |sent| && NotStarved(e, replies, first, |sent|, maxTokens)
    requires forall i :: first <= i < |sent| ==> sent[i].maxTokens == maxTokens
    ensures Blameless(e, replies, sent, from)
  {
    if e == Budget(Exhausted(ModelTokens)) {
      var i :| first <= i < |sent| && OverReports(replies(i), maxTokens);
      assert OverReports(replies(i), sent[i].maxTokens);
    }
  }

  // The state of a chat: its tracker has charged the calls made so far, and never a
  // model call beyond the limit.
  ghost predicate Within(s: Server, tracker: Tracker, calls: nat)
    reads tracker
  {
    && tracker.Valid() && tracker.limits == OpsLimits(s)
    && tracker.usage.toolCalls == calls <= s.maxToolCalls
    && FullBudget(tracker.Value(), tracker.calls, s.maxTokensLimit, s.maxTokensLimit)
  }

  lemma BudgetForLess(l: Ledger, calls: seq<ModelCall>, limit: int, maxTokens: int)
    requires FullBudget(l, calls, limit, limit) && 0 < maxTokens <= limit
    ensures FullBudget(l, calls, limit, maxTokens)
  {
  }

  lemma BudgetForLimit(l: Ledger, calls: seq<ModelCall>, limit: int, maxTokens: int)
    requires FullBudget(l, calls, limit, maxTokens)
    ensures FullBudget(l, calls, limit, limit)
  {
  }

  // ------------------------------------------------------- What a chat does first

  const PREFETCH_ID := "call_akritas_rag_prefetch"
  const PLAN_ID := "call_akritas_investigation_plan"

  // A host-made call, written into the transcript as if the model had asked for it.
  function HostRound(encode: ToolResult -> string, alias: string, call: Call, result: ToolResult): seq<Message> {
    var request := Request(call.id, "function", alias, call.arguments);
    [Message("assistant", None, "", "", [request]), ToolMessage(encode, request, result)]
  }

  function HostRounds(encode: ToolResult -> string, alias: string -> string, calls: seq<Call>,
                      results: seq<ToolResult>): seq<Message>
    requires |calls| == |results|
  {
    if calls == [] then []
    else
      var n := |calls| - 1;
      HostRounds(encode, alias, calls[..n], results[..n]) + HostRound(encode, alias(calls[n].name), calls[n],
          results[n])
  }

  // The reply that submits the plan, with its one call named by the host, and the answer.
  function PlanRound(encode: ToolResult -> string, message: Message, result: ToolResult): seq<Message>
    requires |message.requests| == 1
  {
    var request := message.requests[0].(id := PLAN_ID);
    [message.(requests := [request]), ToolMessage(encode, request, result)]
  }

  function PrefetchCalls(s: Server, query: string): seq<Call> {
    if s.maxToolCalls > 0 && s.ragReady then [Call(PREFETCH_ID, s.ragTool, Text.TrimSpace(query))] else []
  }

  function CheckCalls(checks: seq<Check>): seq<Call> {
    seq(|checks|, i requires 0 <= i < |checks| =>
          Call("call_akritas_planned_" + Text.Decimal(i + 1), checks[i].tool, checks[i].arguments))
  }

  // The plan a message submits, if it makes one call whose arguments hold one.
  function PlanIn(s: Server, message: Message): Option<seq<Check>> {
    if |message.requests| == 1 then s.decodePlan(message.requests[0].arguments) else None
  }

  // The call that submits the plan, then the planned checks.
  function PlanCalls(s: Server, message: Message): seq<Call>
    requires PlanIn(s, message).Some?
  {
    [Call(PLAN_ID, s.planTool, message.requests[0].arguments)] + CheckCalls(PlanIn(s, message).value)
  }

  function PlanTail(encode: ToolResult -> string, s: Server, message: Message, results: seq<ToolResult>): seq<Message>
    requires PlanIn(s, message).Some? && |results| == |PlanCalls(s, message)|
  {
    PlanRound(encode, message, results[0]) +
    HostRounds(encode, s.alias, CheckCalls(PlanIn(s, message).value), results[1..])
  }

  // Checks a plan may hold: the calls left after the prefetch and the plan itself.
  function MaximumChecks(s: Server): int {
    s.maxToolCalls - (if s.maxToolCalls > 0 && s.ragReady then 1 else 0) - 1
  }

  // A planner is configured and there is a call left for it.
  predicate Plans(s: Server) {
    s.planReady && MaximumChecks(s) >= 0
  }

  // A reply that submits a plan the host can follow.
  predicate PlanFits(s: Server, m: Message, maximumChecks: int) {
    && |m.requests| == 1 && m.requests[0].name == s.alias(s.planTool)
    && s.decodePlan(m.requests[0].arguments).Some?
    && var checks := s.decodePlan(m.requests[0].arguments).value;
       |checks| <= maximumChecks && forall i :: 0 <= i < |checks| ==> checks[i].tool in s.executionTools
  }

  // What is called before the loop: the prefetch, and when there is a planner the plan its
  // reply submits and the checks of that plan.
  function OpeningCalls(s: Server, query: string, reply: Reply): seq<Call> {
    PrefetchCalls(s, query) +
    if Plans(s) && reply.Reply? && PlanIn(s, reply.message).Some? then PlanCalls(s, reply.message) else []
  }

  function OpeningTail(encode: ToolResult -> string, s: Server, query: string, reply: Reply,
                       results: seq<ToolResult>): seq<Message>
    requires |results| == |OpeningCalls(s, query, reply)|
  {
    var n := |PrefetchCalls(s, query)|;
    HostRounds(encode, s.alias, PrefetchCalls(s, query), results[..n]) +
    if Plans(s) && reply.Reply? && PlanIn(s, reply.message).Some? then PlanTail(encode, s, reply.message, results[n..])
    else []
  }

  // What was executed is the beginning of what was to be executed.
  predicate Begun(before: seq<Call>, after: seq<Call>, calls: seq<Call>) {
    before <= after && after[|before|..] <= calls
  }

  // Skills go into the system prompt; every other message stays as it is.
  function AddSkills(h: seq<Message>, content: string): seq<Message> {
    if h == [] || content == "" then h
    else if h[0].role == "system" then
      var prompt := if h[0].content.Some? then Text.TrimSpace(h[0].content.value) else "";
      [h[0].(content := Some(if prompt != "" then prompt + "\n\n" + content else content))] + h[1..]
    else [Message("system", Some(content), "", "", [])] + h
  }

  lemma SkillsKeepTurns(h: seq<Message>, content: string)
    requires h != [] && h[0].role == "system"
    ensures SameTurns(h, AddSkills(h, content))
  {
  }

  lemma TurnsOn(h: seq<Message>, h1: seq<Message>, more: seq<Message>, h2: seq<Message>)
    requires SameTurns(h, h1) && SameTurns(h1 + more, h2)
    ensures SameTurns(h + more, h2)
  {
    assert (h1 + more)[1..] == h1[1..] + more && (h + more)[1..] == h[1..] + more;
  }

  // ------------------------------------------------------- Steps before the loop

  lemma OneHostRound(encode: ToolResult -> string, alias: string -> string, call: Call, result: ToolResult)
    ensures HostRounds(encode, alias, [call], [result]) == HostRound(encode, alias(call.name), call, result)
  {
    assert [call][..0] == [] && [result][..0] == [];
  }

  lemma MoreHostRounds(encode: ToolResult -> string, alias: string -> string, calls: seq<Call>,
                       results: seq<ToolResult>, call: Call, result: ToolResult)
    requires |calls| == |results|
    ensures HostRounds(encode, alias, calls + [call], results + [result]) ==
              HostRounds(encode, alias, calls, results) + HostRound(encode, alias(call.name), call, result)
  {
    hide HostRound;
    assert (calls + [call])[..|calls|] == calls && (results + [result])[..|results|] == results;
  }

  // One call of the host's, charged, executed and written down.
  method HostCall(host: Host, s: Server, tracker: Tracker, call: Call, alias: string, retrieved: bool,
                  history: seq<Message>)
    returns (r: Result<Round, LoopError>)
    requires ServerOk(s) && tracker.usage.toolCalls >= 0 && Within(s, tracker, tracker.usage.toolCalls)
             && tracker.usage.toolCalls < s.maxToolCalls
    modifies host`executed, tracker
    ensures r.Ok? ==> Within(s, tracker, old(tracker.usage.toolCalls) + 1)
    ensures host.executed == old(host.executed) + [call] && tracker.usage.toolCalls == old(tracker.usage.toolCalls) + 1
    ensures r.Ok? ==>
              var result := ToolResult(call.id, call.name, host.outputs(|old(host.executed)|));
              r.value == Round([call], [result], history + HostRound(host.encode, alias, call, result))
    ensures tracker.Valid() && tracker.calls == old(tracker.calls)
            && tracker.usage.iterations == old(tracker.usage.iterations)
    ensures r.Err? ==>
              OtherThanCalls(r.error) && r.error != Budget(Exhausted(ToolCalls)) && ChargeFails(r.error, host, tracker)
  {
    hide Inv, FullBudget, BudgetModel.Apply, ChargeFails;
    var executed := ChargedExecute(host, tracker, call, retrieved);
    ToolsKeepBudget(old(tracker.Value()), tracker.Value(),
                    if executed == Err(Budget(Exhausted(ToolCalls))) then 0 else 1, tracker.calls,
                    s.maxTokensLimit, s.maxTokensLimit);
    if executed.Err? { return Err(executed.error); }
    var request := Request(call.id, "function", alias, call.arguments);
    var asked := Message("assistant", None, "", "", [request]);
    r := Ok(Round([call], [executed.value], history + [asked, ToolMessage(host.encode, request, executed.value)]));
  }

  // Automatic retrieval: one charged call when the tool is there and calls are allowed.
  method PrefetchRag(host: Host, s: Server, tracker: Tracker, query: string, history: seq<Message>)
    returns (r: Result<Round, LoopError>)
    requires ServerOk(s) && Within(s, tracker, 0)
    modifies host`executed, tracker
    ensures r.Ok? ==>
              && Within(s, tracker, |r.value.calls|) && r.value.calls == PrefetchCalls(s, query)
              && Outcomes(host.outputs, |old(host.executed)|, r.value.calls, r.value.results)
              && r.value.history == history + HostRounds(host.encode, s.alias, r.value.calls, r.value.results)
    ensures host.executed == old(host.executed) + PrefetchCalls(s, query)
            && tracker.usage.toolCalls == |PrefetchCalls(s, query)|
    ensures tracker.Valid() && tracker.usage.iterations == old(tracker.usage.iterations)
    ensures r.Err? ==>
              OtherThanCalls(r.error) && r.error != Budget(Exhausted(ToolCalls)) && ChargeFails(r.error, host, tracker)
  {
    hide Inv, FullBudget, BudgetModel.Apply, ChargeFails, HostRound;
    if s.maxToolCalls == 0 || !s.ragReady { return Ok(Round([], [], history)); }
    var call := Call(PREFETCH_ID, s.ragTool, Text.TrimSpace(query));
    r := HostCall(host, s, tracker, call, s.alias(s.ragTool), true, history);
    if r.Ok? { OneHostRound(host.encode, s.alias, call, r.value.results[0]); }
  }

  datatype Plan = NoPlan | Plan(round: Round, checks: seq<Check>)

  ghost predicate LastFailed(host: Host)
    reads host`executed
  {
    host.executed != [] && host.outputs(|host.executed| - 1).failed
  }

  // Why planning fails.
  ghost predicate PlanCause(e: LoopError, host: Host, s: Server, tracker: Tracker, from: nat, maximumChecks: int)
    reads host`sent, host`executed, tracker
  {
    match e
    case BadPlan => s.planReady && LastReply(host, from)
      && !PlanFits(s, host.replies(|host.sent| - 1).message, maximumChecks)
    case PlanRejected => s.planReady && LastFailed(host)
    case _ => ModelCause(e, host, tracker, from) || ChargeFails(e, host, tracker)
  }

  lemma PlanningCause(e: LoopError, host: Host, s: Server, tracker: Tracker, from: nat, maximumChecks: int)
    requires ModelCause(e, host, tracker, from) || ChargeFails(e, host, tracker)
             || (e == PlanRejected && s.planReady && LastFailed(host))
    ensures e != InvalidLimits && PlanCause(e, host, s, tracker, from, maximumChecks)
  {
  }

  function PlanningTokens(maxTokens: int): int {
    if maxTokens < MAXIMUM_PLANNING_TOKENS then maxTokens else MAXIMUM_PLANNING_TOKENS
  }

  // The planning request: its messages are made from the question, what the prefetch found
  // and how many checks are allowed.
  function PlanRequest(s: Server, query: string, results: seq<ToolResult>, maximumChecks: int, maxTokens: int): Prompt {
    Prompt(s.planPrompt(query, results, maximumChecks), PlanningTokens(maxTokens))
  }

  // The plan is submitted through its own tool, which may reject it.
  method SubmitPlan(host: Host, s: Server, tracker: Tracker, message: Message, history: seq<Message>)
    returns (r: Result<Round, LoopError>)
    requires ServerOk(s) && 0 <= tracker.usage.toolCalls && Within(s, tracker, tracker.usage.toolCalls)
    requires |message.requests| == 1
    modifies host`executed, tracker`usage
    ensures r.Ok? ==>
              && Within(s, tracker, old(tracker.usage.toolCalls) + 1)
              && r.value.calls == [Call(PLAN_ID, s.planTool, message.requests[0].arguments)]
              && host.executed == old(host.executed) + r.value.calls
              && Outcomes(host.outputs, |old(host.executed)|, r.value.calls, r.value.results)
              && r.value.history == history + PlanRound(host.encode, message, r.value.results[0])
    ensures tracker.Valid() && tracker.usage.iterations == old(tracker.usage.iterations)
    ensures r.Err? ==>
              OtherThanCalls(r.error) && (ChargeFails(r.error, host, tracker)
                                          || (r.error == PlanRejected && LastFailed(host)))
    ensures old(tracker.usage.toolCalls) < s.maxToolCalls ==> r != Err(Budget(Exhausted(ToolCalls)))
    ensures Ran(old(host.executed), host.executed, tracker.usage.toolCalls - old(tracker.usage.toolCalls))
    ensures Begun(old(host.executed), host.executed, [Call(PLAN_ID, s.planTool, message.requests[0].arguments)])
  {
    hide Inv, FullBudget, ToolMessage;
    var request := message.requests[0].(id := PLAN_ID);
    var call := Call(request.id, s.planTool, request.arguments);
    var charged := tracker.RecordToolCall();
    if charged.Err? { return Err(Budget(charged.error)); }
    var result := host.Execute(call);
    assert host.executed[|old(host.executed)|..] == [call];
    if result.output.failed { return Err(PlanRejected); }
    charged := tracker.RecordToolResult(|host.encode(result)|, false);
    if charged.Err? { return Err(Budget(charged.error)); }
    ToolsKeepBudget(old(tracker.Value()), tracker.Value(), 1, tracker.calls, s.maxTokensLimit, s.maxTokensLimit);
    var asked := message.(requests := [request]);
    r := Ok(Round([call], [result], history + [asked, ToolMessage(host.encode, request, result)]));
  }

  // What a planner's reply makes the host call.
  function PlannedCalls(s: Server, reply: Reply): seq<Call> {
    if s.planReady && reply.Reply? && PlanIn(s, reply.message).Some? then PlanCalls(s, reply.message) else []
  }

  // Planning: one model call of at most 2048 tokens, whose single call submits the plan.
  method PlanInvestigation(host: Host, s: Server, tracker: Tracker, query: string, knowledge: seq<ToolResult>,
                           maximumChecks: int, maxTokens: int, history: seq<Message>)
    returns (r: Result<Plan, LoopError>)
    requires ServerOk(s) && 0 < maxTokens <= s.maxTokensLimit && 0 <= tracker.usage.toolCalls
             && Within(s, tracker, tracker.usage.toolCalls)
    requires tracker.usage.toolCalls < s.maxToolCalls && tracker.usage.iterations < tracker.limits.maxIterations
    modifies host`sent, host`executed, tracker
    ensures r.Ok? ==>
              Within(s, tracker, old(tracker.usage.toolCalls) + if r.value.Plan? then 1 else 0)
              && (r.value.Plan? <==> s.planReady)
    ensures r.Ok? && r.value.Plan? ==>
              && LastReply(host, |old(host.sent)|) && |host.sent| == |old(host.sent)| + 1
              && var message := host.replies(|old(host.sent)|).message;
                 && PlanFits(s, message, maximumChecks) && PlanIn(s, message) == Some(r.value.checks)
                 && r.value.round.calls == [Call(PLAN_ID, s.planTool, message.requests[0].arguments)]
                 && host.executed == old(host.executed) + r.value.round.calls
                 && Outcomes(host.outputs, |old(host.executed)|, r.value.round.calls, r.value.round.results)
                 && r.value.round.history == history + PlanRound(host.encode, message, r.value.round.results[0])
    ensures r.Ok? && r.value.NoPlan? ==> host.executed == old(host.executed) && host.sent == old(host.sent)
    ensures |old(host.sent)| <= |host.sent| <= |old(host.sent)| + 1 && host.sent[..|old(host.sent)|] == old(host.sent)
    ensures |host.sent| > |old(host.sent)| ==>
              && s.planReady
              && host.sent[|old(host.sent)|] == PlanRequest(s, query, knowledge, maximumChecks, maxTokens)
    ensures tracker.Valid() && tracker.usage.iterations ==
              old(tracker.usage.iterations) + |host.sent| - |old(host.sent)|
    ensures Ran(old(host.executed), host.executed, tracker.usage.toolCalls - old(tracker.usage.toolCalls))
    ensures r.Err? ==> NotStarved(r.error, host.replies, |old(host.sent)|, |host.sent|, PlanningTokens(maxTokens))
    ensures r.Err? ==> r.error != InvalidLimits && PlanCause(r.error, host, s, tracker, |old(host.sent)|, maximumChecks)
    ensures r.Err? ==> Begun(old(host.executed), host.executed, PlannedCalls(s, host.replies(|old(host.sent)|)))
  {
    hide Inv, FullBudget, BudgetModel.Apply, ModelCause, ChargeFails, PlanRound, Outcomes;
    if !s.planReady { return Ok(NoPlan); }
    var tokens := PlanningTokens(maxTokens);
    BudgetForLess(tracker.Value(), tracker.calls, s.maxTokensLimit, tokens);
    var messages := s.planPrompt(query, knowledge, maximumChecks);
    var answer := NextMessage(host, tracker, messages, tokens, s.maxTokensLimit);
    BudgetForLimit(tracker.Value(), tracker.calls, s.maxTokensLimit, tokens);
    if answer.Err? {
      PlanningCause(answer.error, host, s, tracker, |old(host.sent)|, maximumChecks);
      return Err(answer.error);
    }
    var message := answer.value;
    if |message.requests| != 1 { return Err(BadPlan); }
    if message.requests[0].name != s.alias(s.planTool) { return Err(BadPlan); }
    var decoded := s.decodePlan(message.requests[0].arguments);
    if decoded.None? { return Err(BadPlan); }
    var checks := decoded.value;
    if |checks| > maximumChecks { return Err(BadPlan); }
    for index := 0 to |checks|
      invariant forall i :: 0 <= i < index ==> checks[i].tool in s.executionTools
    {
      if checks[index].tool !in s.executionTools { return Err(BadPlan); }
    }
    var round := SubmitPlan(host, s, tracker, message, history);
    if round.Err? {
      OthersAreNotStarved(round.error, host.replies, |old(host.sent)|, |host.sent|, tokens);
      PlanningCause(round.error, host, s, tracker, |old(host.sent)|, maximumChecks);
      return Err(round.error);
    }
    r := Ok(Plan(round.value, checks));
  }

  lemma NoRounds(encode: ToolResult -> string, alias: string -> string, outputs: nat -> Output, first: nat)
    ensures HostRounds(encode, alias, [], []) == [] && Outcomes(outputs, first, [], [])
  {
  }

  // The planned checks, executed in order by the host.
  method ExecutePlan(host: Host, s: Server, tracker: Tracker, checks: seq<Check>, history: seq<Message>)
    returns (r: Result<Round, LoopError>)
    requires ServerOk(s) && 0 <= tracker.usage.toolCalls && Within(s, tracker, tracker.usage.toolCalls)
    requires tracker.usage.toolCalls + |checks| <= s.maxToolCalls
    modifies host`executed, tracker
    ensures r.Ok? ==>
              && Within(s, tracker, old(tracker.usage.toolCalls) + |checks|)
              && r.value.calls == CheckCalls(checks) && host.executed == old(host.executed) + r.value.calls
              && Outcomes(host.outputs, |old(host.executed)|, r.value.calls, r.value.results)
              && r.value.history == history + HostRounds(host.encode, s.alias, r.value.calls, r.value.results)
    ensures tracker.Valid() && tracker.usage.iterations == old(tracker.usage.iterations)
    ensures Ran(old(host.executed), host.executed, tracker.usage.toolCalls - old(tracker.usage.toolCalls))
    ensures Begun(old(host.executed), host.executed, CheckCalls(checks))
    ensures r.Err? ==>
              OtherThanCalls(r.error) && r.error != Budget(Exhausted(ToolCalls)) && ChargeFails(r.error, host, tracker)
  {
    hide Inv, FullBudget, BudgetModel.Apply, Text.Decimal, ChargeFails, HostRounds, HostRound, Outcomes;
    var round := Round([], [], history);
    NoRounds(host.encode, s.alias, host.outputs, |host.executed|);
    for index := 0 to |checks|
      invariant Within(s, tracker, old(tracker.usage.toolCalls) + index)
      invariant round.calls == CheckCalls(checks)[..index] && |round.results| == index
      invariant host.executed == old(host.executed) + round.calls
      invariant Outcomes(host.outputs, |old(host.executed)|, round.calls, round.results)
      invariant round.history == history + HostRounds(host.encode, s.alias, round.calls, round.results)
      invariant tracker.usage.iterations == old(tracker.usage.iterations)
    {
      var call := Call("call_akritas_planned_" + Text.Decimal(index + 1), checks[index].tool, checks[index].arguments);
      assert round.calls + [call] == CheckCalls(checks)[..index + 1];
      var step := HostCall(host, s, tracker, call, s.alias(checks[index].tool), false, round.history);
      assert host.executed[|old(host.executed)|..] == round.calls + [call];
      if step.Err? { return Err(step.error); }
      MoreHostRounds(host.encode, s.alias, round.calls, round.results, call, step.value.results[0]);
      OutcomeOf(host.outputs, |old(host.executed)|, round.calls, round.results, call, step.value.results[0]);
      round := Round(round.calls + step.value.calls, round.results + step.value.results, step.value.history);
    }
    assert host.executed[|old(host.executed)|..] == round.calls;
    r := Ok(round);
  }

  // ------------------------------------------------------- The chat

  // The history the request builds, if it is acceptable, and the skills the host selects
  // from what it has seen: texts for the system prompt.
  datatype ChatInput = ChatInput(history: Option<seq<Message>>, query: string, slot: bool, registryOk: bool,
                                 maxTokens: int, temperature: real,
                                 skills: (seq<Message>, seq<ToolResult>) -> string,
                                 pending: (seq<Message>, Call, ToolResult) -> string)

  // A built history begins with the system prompt.
  predicate InputOk(input: ChatInput) {
    input.history.Some? ==> input.history.value != [] && input.history.value[0].role == "system"
  }

  // After each tool result the skills it selected go into the system prompt.
  function SkillObserver(input: ChatInput): Option<Observer> {
    Some((h, call, result) => Ok(AddSkills(h, input.pending(h, call, result))))
  }

  lemma SkillsAreMild(input: ChatInput)
    ensures Mild(SkillObserver(input)) && !CanFail(SkillObserver(input))
  {
    var observer := SkillObserver(input).value;
    forall h: seq<Message>, call: Call, result: ToolResult | h != [] && h[0].role == "system"
      ensures SameTurns(h, observer(h, call, result).value)
    {
      SkillsKeepTurns(h, input.pending(h, call, result));
    }
  }

  // Why a chat that began after these requests and calls fails.
  ghost predicate ChatCause(e: LoopError, host: Host, s: Server, input: ChatInput, tracker: Tracker, from: nat,
                            ran: nat)
    reads host`sent, host`executed, tracker
  {
    match e
    case BadHistory => input.history.None?
    case NoSlot => !input.slot
    case BadRegistry => !input.registryOk
    case InvalidLimits => input.temperature < 0.0
    case _ =>
      || PlanCause(e, host, s, tracker, from, MaximumChecks(s))
      || Cause(e, host, tracker, from, ran + s.maxToolCalls, s.aliases, false)
  }

  lemma ChargedIsBlameless(e: LoopError, host: Host, tracker: Tracker, from: nat)
    requires ChargeFails(e, host, tracker) && OtherThanCalls(e) && e != Budget(Exhausted(ToolCalls))
    ensures Blameless(e, host.replies, host.sent, from)
  {
  }

  // Planning and the planned checks have been done as the reply says.
  ghost predicate PlanDone(host: Host, s: Server, from: nat, first: nat, maximumChecks: int, history: seq<Message>,
                           round: Round)
  {
    var reply := host.replies(from);
    && round.calls == PlannedCalls(s, reply) && Outcomes(host.outputs, first, round.calls, round.results)
    && (s.planReady ==>
          && reply.Reply? && PlanFits(s, reply.message, maximumChecks)
          && SameTurns(history + PlanTail(host.encode, s, reply.message, round.results), round.history))
    && (!s.planReady ==> round.history == history)
  }

  lemma OutcomeCount(outputs: nat -> Output, first: nat, calls: seq<Call>, results: seq<ToolResult>)
    requires Outcomes(outputs, first, calls, results)
    ensures |calls| == |results|
  {
  }

  lemma PlanAndChecks(host: Host, s: Server, from: nat, first: nat, maximumChecks: int, history: seq<Message>,
                      plan: Round, checks: Round, content: string)
    requires s.planReady && host.replies(from).Reply? && history != [] && history[0].role == "system"
    requires var message := host.replies(from).message;
             && PlanFits(s, message, maximumChecks)
             && plan.calls == [Call(PLAN_ID, s.planTool, message.requests[0].arguments)]
             && Outcomes(host.outputs, first, plan.calls, plan.results)
             && plan.history == history + PlanRound(host.encode, message, plan.results[0])
             && checks.calls == CheckCalls(PlanIn(s, message).value)
             && Outcomes(host.outputs, first + 1, checks.calls, checks.results)
             && checks.history == plan.history + HostRounds(host.encode, s.alias, checks.calls, checks.results)
    ensures PlanDone(host, s, from, first, maximumChecks, history,
                     Round(plan.calls + checks.calls, plan.results + checks.results,
                           AddSkills(checks.history, content)))
  {
    hide Outcomes, HostRounds, PlanRound, CheckCalls, AddSkills;
    OutcomesMore(host.outputs, first, plan.calls, plan.results, checks.calls, checks.results);
    OutcomeCount(host.outputs, first, plan.calls, plan.results);
    OutcomeCount(host.outputs, first + 1, checks.calls, checks.results);
    var results := plan.results + checks.results;
    assert results[0] == plan.results[0] && results[1..] == checks.results;
    assert checks.history == history + PlanTail(host.encode, s, host.replies(from).message, results);
    SkillsKeepTurns(checks.history, content);
  }

  lemma BegunOn(a: seq<Call>, b: seq<Call>, c: seq<Call>, calls: seq<Call>, more: seq<Call>)
    requires b == a + calls && Begun(b, c, more)
    ensures Begun(a, c, calls + more)
  {
    assert c[|a|..] == calls + c[|b|..];
  }

  lemma ChecksFit(s: Server, message: Message, maximumChecks: int, checks: seq<Check>)
    requires PlanFits(s, message, maximumChecks) && PlanIn(s, message) == Some(checks)
    ensures |checks| <= maximumChecks
  {
  }

  lemma CheckCount(checks: seq<Check>)
    ensures |CheckCalls(checks)| == |checks|
  {
  }

  lemma NoPlanDone(host: Host, s: Server, from: nat, first: nat, maximumChecks: int, history: seq<Message>)
    requires !s.planReady
    ensures PlanDone(host, s, from, first, maximumChecks, history, Round([], [], history))
  {
  }

  // Planning and the planned checks: nothing when no planner is configured.
  method PlanChecks(host: Host, s: Server, tracker: Tracker, input: ChatInput, knowledge: seq<ToolResult>,
                    history: seq<Message>)
    returns (r: Result<Round, LoopError>)
    requires ServerOk(s) && 0 < input.maxTokens <= s.maxTokensLimit && 0 <= tracker.usage.toolCalls < s.maxToolCalls
    requires Within(s, tracker, tracker.usage.toolCalls) && tracker.usage.iterations < tracker.limits.maxIterations
    requires history != [] && history[0].role == "system"
    modifies host`sent, host`executed, tracker
    ensures r.Ok? ==>
              && Within(s, tracker, old(tracker.usage.toolCalls) + |r.value.calls|)
              && PlanDone(host, s, |old(host.sent)|, |old(host.executed)|,
                          s.maxToolCalls - old(tracker.usage.toolCalls) - 1, history, r.value)
              && host.executed == old(host.executed) + r.value.calls
              && |host.sent| == |old(host.sent)| + if s.planReady then 1 else 0
    ensures Begun(old(host.executed), host.executed, PlannedCalls(s, host.replies(|old(host.sent)|)))
    ensures |old(host.sent)| <= |host.sent| <= |old(host.sent)| + 1 && host.sent[..|old(host.sent)|] == old(host.sent)
    ensures |host.sent| > |old(host.sent)| ==>
              && s.planReady
              && host.sent[|old(host.sent)|] ==
                 PlanRequest(s, input.query, knowledge, s.maxToolCalls - old(tracker.usage.toolCalls) - 1,
                             input.maxTokens)
    ensures tracker.Valid() && tracker.usage.iterations ==
              old(tracker.usage.iterations) + |host.sent| - |old(host.sent)|
    ensures Ran(old(host.executed), host.executed, tracker.usage.toolCalls - old(tracker.usage.toolCalls))
    ensures r.Err? ==> Blameless(r.error, host.replies, host.sent, |old(host.sent)|)
    ensures r.Err? ==>
              r.error != InvalidLimits && PlanCause(r.error, host, s, tracker, |old(host.sent)|,
                                                    s.maxToolCalls - old(tracker.usage.toolCalls) - 1)
  {
    hide Inv, FullBudget, BudgetModel.Apply, NotStarved, PlanCause, ChargeFails, Blameless, Outcomes, HostRounds,
        PlanRound, AddSkills, CheckCalls, PlanDone, OverReports;
    ghost var maximumChecks := s.maxToolCalls - tracker.usage.toolCalls - 1;
    var planned := PlanInvestigation(host, s, tracker, input.query, knowledge,
                                     s.maxToolCalls - tracker.usage.toolCalls - 1, input.maxTokens, history);
    if planned.Err? {
      NotStarvedIsBlameless(planned.error, host.replies, host.sent, |old(host.sent)|, |old(host.sent)|,
                            PlanningTokens(input.maxTokens));
      return Err(planned.error);
    }
    if planned.value.NoPlan? {
      NoPlanDone(host, s, |old(host.sent)|, |old(host.executed)|, maximumChecks, history);
      return Ok(Round([], [], history));
    }
    var plan := planned.value.round;
    ghost var reply := host.replies(|old(host.sent)|);
    ghost var before := host.executed;
    ChecksFit(s, reply.message, maximumChecks, planned.value.checks);
    var executed := ExecutePlan(host, s, tracker, planned.value.checks, plan.history);
    assert PlannedCalls(s, reply) == plan.calls + CheckCalls(planned.value.checks);
    BegunOn(old(host.executed), before, host.executed, plan.calls, CheckCalls(planned.value.checks));
    if executed.Err? {
      ChargedIsBlameless(executed.error, host, tracker, |old(host.sent)|);
      PlanningCause(executed.error, host, s, tracker, |old(host.sent)|, maximumChecks);
      return Err(executed.error);
    }
    var checks := executed.value;
    CheckCount(planned.value.checks);
    PlanAndChecks(host, s, |old(host.sent)|, |old(host.executed)|, maximumChecks, history, plan, checks,
                  input.skills(checks.history, checks.results));
    r := Ok(Round(plan.calls + checks.calls, plan.results + checks.results,
                  AddSkills(checks.history, input.skills(checks.history, checks.results))));
  }

  lemma PlanCauseIsChatCause(e: LoopError, host: Host, s: Server, input: ChatInput, tracker: Tracker, from: nat,
                             ran: nat)
    requires e != InvalidLimits && PlanCause(e, host, s, tracker, from, MaximumChecks(s))
    ensures ChatCause(e, host, s, input, tracker, from, ran)
  {
  }

  // What the steps before the loop have done: the opening calls, their results, and their
  // rounds in the history.
  ghost predicate Opened(host: Host, s: Server, query: string, from: nat, first: nat, history: seq<Message>,
                         round: Round)
  {
    var reply := host.replies(from);
    && round.calls == OpeningCalls(s, query, reply) && Outcomes(host.outputs, first, round.calls, round.results)
    && (Plans(s) ==> reply.Reply? && PlanFits(s, reply.message, MaximumChecks(s)))
    && SameTurns(history + OpeningTail(host.encode, s, query, reply, round.results), round.history)
  }

  lemma OpenedByPrefetch(host: Host, s: Server, query: string, from: nat, first: nat, history: seq<Message>,
                         round: Round)
    requires history != [] && history[0].role == "system" && !Plans(s)
    requires round.calls == PrefetchCalls(s, query) && Outcomes(host.outputs, first, round.calls, round.results)
    requires round.history == history + HostRounds(host.encode, s.alias, round.calls, round.results)
    ensures Opened(host, s, query, from, first, history, round)
  {
    hide HostRounds, PlanTail, PlanCalls;
    assert round.results[..|round.calls|] == round.results;
  }

  lemma FitsHasPlan(s: Server, reply: Reply, maximumChecks: int)
    ensures reply.Reply? && PlanFits(s, reply.message, maximumChecks) ==> PlanIn(s, reply.message).Some?
  {
  }

  lemma OpenedByPlan(host: Host, s: Server, query: string, from: nat, first: nat, history: seq<Message>,
                     prefetch: Round, plan: Round)
    requires history != [] && history[0].role == "system" && MaximumChecks(s) >= 0
    requires prefetch.calls == PrefetchCalls(s, query)
             && Outcomes(host.outputs, first, prefetch.calls, prefetch.results)
    requires prefetch.history == history + HostRounds(host.encode, s.alias, prefetch.calls, prefetch.results)
    requires PlanDone(host, s, from, first + |prefetch.calls|, MaximumChecks(s), prefetch.history, plan)
    ensures Opened(host, s, query, from, first, history,
                   Round(prefetch.calls + plan.calls, prefetch.results + plan.results, plan.history))
  {
    hide HostRounds, PlanTail, PlanCalls, PlanFits, Outcomes, PrefetchCalls;
    var reply := host.replies(from);
    OutcomesMore(host.outputs, first, prefetch.calls, prefetch.results, plan.calls, plan.results);
    OutcomeCount(host.outputs, first, prefetch.calls, prefetch.results);
    OutcomeCount(host.outputs, first + |prefetch.calls|, plan.calls, plan.results);
    FitsHasPlan(s, reply, MaximumChecks(s));
    var n := |prefetch.calls|;
    var results := prefetch.results + plan.results;
    assert results[..n] == prefetch.results && results[n..] == plan.results;
    var rounds := HostRounds(host.encode, s.alias, prefetch.calls, prefetch.results);
    if s.planReady {
      var tail := PlanTail(host.encode, s, reply.message, plan.results);
      assert history + (rounds + tail) == prefetch.history + tail;
    } else {
      assert prefetch.calls + [] == prefetch.calls && prefetch.results + [] == prefetch.results;
      assert history + (rounds + []) == prefetch.history;
    }
  }

  lemma InputCauses(host: Host, s: Server, input: ChatInput, tracker: Tracker, from: nat, ran: nat)
    ensures input.history.None? ==> ChatCause(BadHistory, host, s, input, tracker, from, ran)
    ensures !input.slot ==> ChatCause(NoSlot, host, s, input, tracker, from, ran)
    ensures !input.registryOk ==> ChatCause(BadRegistry, host, s, input, tracker, from, ran)
    ensures Blameless(BadHistory, host.replies, host.sent, from) && Blameless(NoSlot, host.replies, host.sent, from)
            && Blameless(BadRegistry, host.replies, host.sent, from)
  {
  }

  // What the prefetch finds, given the next output of a tool.
  function PrefetchResults(s: Server, query: string, outputs: nat -> Output, first: nat): (rs: seq<ToolResult>)
    ensures Outcomes(outputs, first, PrefetchCalls(s, query), rs)
  {
    seq(|PrefetchCalls(s, query)|, i requires 0 <= i < |PrefetchCalls(s, query)| =>
          ToolResult(PrefetchCalls(s, query)[i].id, PrefetchCalls(s, query)[i].name, outputs(first + i)))
  }

  lemma OneOutcome(outputs: nat -> Output, first: nat, calls: seq<Call>, results: seq<ToolResult>,
                   results': seq<ToolResult>)
    requires Outcomes(outputs, first, calls, results) && Outcomes(outputs, first, calls, results')
    ensures results == results'
  {
  }

  // The planning request of a chat.
  function OpeningRequest(host: Host, s: Server, input: ChatInput, first: nat): Prompt {
    PlanRequest(s, input.query, PrefetchResults(s, input.query, host.outputs, first), MaximumChecks(s),
                input.maxTokens)
  }

  // Prefetch, then planning while calls are left.
  method Prepare(host: Host, s: Server, tracker: Tracker, input: ChatInput, history: seq<Message>)
    returns (r: Result<Round, LoopError>)
    requires ServerOk(s) && 0 < input.maxTokens <= s.maxTokensLimit && Within(s, tracker, 0)
             && tracker.usage.iterations == 0
    requires history != [] && history[0].role == "system"
    modifies host`sent, host`executed, tracker
    ensures r.Ok? ==>
              && Within(s, tracker, |r.value.calls|) && host.executed == old(host.executed) + r.value.calls
              && Opened(host, s, input.query, |old(host.sent)|, |old(host.executed)|, history, r.value)
              && |host.sent| == |old(host.sent)| + if Plans(s) then 1 else 0
    ensures Begun(old(host.executed), host.executed,
                  OpeningCalls(s, input.query, host.replies(|old(host.sent)|)))
    ensures |old(host.sent)| <= |host.sent| <= |old(host.sent)| + 1 && host.sent[..|old(host.sent)|] == old(host.sent)
    ensures tracker.Valid() && tracker.usage.iterations == |host.sent| - |old(host.sent)|
    ensures |host.sent| > |old(host.sent)| ==>
              Plans(s) && host.sent[|old(host.sent)|] == OpeningRequest(host, s, input, |old(host.executed)|)
    ensures Ran(old(host.executed), host.executed, tracker.usage.toolCalls)
    ensures r.Err? ==> Blameless(r.error, host.replies, host.sent, |old(host.sent)|)
    ensures r.Err? ==> ChatCause(r.error, host, s, input, tracker, |old(host.sent)|, |old(host.executed)|)
  {
    hide Inv, FullBudget, BudgetModel.Apply, OverReports, PlanCause, ChargeFails, Outcomes, HostRounds, Opened,
        PlanDone,
        PlanCalls, PlanTail, Blameless, ChatCause, PrefetchResults;
    OpsLimitsAreValid(s);
    ghost var reply := host.replies(|host.sent|);
    var prefetched := PrefetchRag(host, s, tracker, input.query, history);
    assert host.executed[|old(host.executed)|..] == PrefetchCalls(s, input.query);
    if prefetched.Err? {
      ChargedIsBlameless(prefetched.error, host, tracker, |old(host.sent)|);
      PlanningCause(prefetched.error, host, s, tracker, |old(host.sent)|, MaximumChecks(s));
      PlanCauseIsChatCause(prefetched.error, host, s, input, tracker, |old(host.sent)|, |old(host.executed)|);
      return Err(prefetched.error);
    }
    var round := prefetched.value;
    OneOutcome(host.outputs, |old(host.executed)|, round.calls, round.results,
               PrefetchResults(s, input.query, host.outputs, |old(host.executed)|));
    InputCauses(host, s, input, tracker, |old(host.sent)|, |old(host.executed)|);
    if !input.registryOk { return Err(BadRegistry); }
    if |round.calls| >= s.maxToolCalls {
      OpenedByPrefetch(host, s, input.query, |old(host.sent)|, |old(host.executed)|, history, round);
      return Ok(round);
    }
    ghost var before := host.executed;
    var planned := PlanChecks(host, s, tracker, input, round.results, round.history);
    BegunOn(old(host.executed), before, host.executed, round.calls, PlannedCalls(s, reply));
    if planned.Err? {
      PlanCauseIsChatCause(planned.error, host, s, input, tracker, |old(host.sent)|, |old(host.executed)|);
      return Err(planned.error);
    }
    OpenedByPlan(host, s, input.query, |old(host.sent)|, |old(host.executed)|, history, round, planned.value);
    r := Ok(Round(round.calls + planned.value.calls, round.results + planned.value.results, planned.value.history));
  }

  lemma CallsAreLimited(tracker: Tracker)
    requires tracker.Valid()
    ensures tracker.usage.toolCalls <= tracker.limits.maxToolCalls
  {
  }

  lemma TemperatureIsChatCause(host: Host, s: Server, input: ChatInput, tracker: Tracker, from: nat, ran: nat)
    requires input.temperature < 0.0
    ensures ChatCause(InvalidLimits, host, s, input, tracker, from, ran)
  {
  }

  lemma LoopCauseIsChatCause(e: LoopError, host: Host, s: Server, input: ChatInput, tracker: Tracker, from: nat,
                             first: nat, ran: nat)
    requires from <= first && e != InvalidLimits
             && Cause(e, host, tracker, first, ran + s.maxToolCalls, s.aliases, false)
    ensures ChatCause(e, host, s, input, tracker, from, ran)
  {
    EarlierCause(e, host, tracker, from, first, ran + s.maxToolCalls, s.aliases, false);
  }

  // The tool loop on what is left of the budget, its calls after the initial ones.
  method LoopStage(host: Host, s: Server, input: ChatInput, tracker: Tracker, initial: Round, ghost from: nat,
                   ghost ran: nat)
    returns (r: Result<LoopResult, LoopError>, ghost tail: seq<Message>)
    requires ServerOk(s) && 0 < input.maxTokens <= s.maxTokensLimit && Within(s, tracker, |initial.calls|)
             && initial.history != [] && initial.history[0].role == "system" && |initial.results| == |initial.calls|
    requires 0 <= tracker.usage.iterations <= 1 && (tracker.usage.iterations == 1 ==> |initial.calls| > 0)
             && from <= |host.sent| && |host.executed| == ran + |initial.calls|
    modifies host`sent, host`executed, tracker
    ensures tracker.Valid()
    ensures |host.sent| >= |old(host.sent)| && host.sent[..|old(host.sent)|] == old(host.sent)
    ensures tracker.usage.iterations ==
              old(tracker.usage.iterations) + |host.sent| - |old(host.sent)| <= s.maxToolCalls + 1
    ensures forall i :: |old(host.sent)| <= i < |host.sent| ==> host.sent[i].maxTokens == input.maxTokens
    ensures r.Ok? ==>
              && tracker.usage.toolCalls == |r.value.calls| <= s.maxToolCalls
              && Text.TrimSpace(r.value.answer) == r.value.answer != ""
              && LastReply(host, |old(host.sent)|) && AnswerOf(host.replies(|host.sent| - 1).message) == r.value.answer
              && initial.calls <= r.value.calls && initial.results <= r.value.results
              && host.executed == old(host.executed) + r.value.calls[|initial.calls|..]
              && Followed(host, s.aliases, |old(host.sent)|, |host.sent|, |old(host.executed)|, tail,
                          r.value.calls[|initial.calls|..], r.value.results[|initial.calls|..])
              && SameTurns(initial.history + tail, r.value.history)
              && Prompted(initial.history, tail, SkillObserver(input), host.replies, host.sent, |old(host.sent)|,
                          |host.sent|)
              && FullBudget(tracker.Value(), tracker.calls, s.maxTokensLimit, s.maxTokensLimit)
    ensures Ran(old(host.executed), host.executed, tracker.usage.toolCalls - old(tracker.usage.toolCalls))
    ensures Serves(s.aliases, Asked(host.replies, |old(host.sent)|, |host.sent|), 0,
                   host.executed[|old(host.executed)|..])
    ensures r.Err? ==>
              Blameless(r.error, host.replies, host.sent, from)
                  && ChatCause(r.error, host, s, input, tracker, from, ran)
  {
    hide Inv, FullBudget, BudgetModel.Apply, NotStarved, Text.TrimSpace, Cause, ChatCause, ChargeFails, LastReply,
        AnswerOf, Blameless, Followed, Serves, Mild, CanFail, SkillObserver, Asked, Prompted, AllPrompted;
    OpsLimitsAreValid(s);
    SkillsAreMild(input);
    var remainingCalls := s.maxToolCalls - |initial.calls|;
    BudgetForLess(tracker.Value(), tracker.calls, s.maxTokensLimit, input.maxTokens);
    ghost var first := |host.sent|;
    var result;
    result, tail := RunToolLoop(host, initial.history, s.aliases, remainingCalls, input.maxTokens, input.temperature,
                                tracker, SkillObserver(input), s.maxTokensLimit);
    BudgetForLimit(tracker.Value(), tracker.calls, s.maxTokensLimit, input.maxTokens);
    if result.Err? {
      NotStarvedIsBlameless(result.error, host.replies, host.sent, from, first, input.maxTokens);
      if result.error == InvalidLimits {
        TemperatureIsChatCause(host, s, input, tracker, from, ran);
      } else {
        LoopCauseIsChatCause(result.error, host, s, input, tracker, from, first, ran);
      }
      return Err(result.error), [];
    }
    r := Ok(LoopResult(result.value.answer, initial.calls + result.value.calls, initial.results + result.value.results,
                       result.value.history));
    assert r.value.calls[|initial.calls|..] == result.value.calls;
    assert r.value.results[|initial.calls|..] == result.value.results;
  }

  lemma NewBudgetIsFull(s: Server)
    requires ServerOk(s)
    ensures FullBudget(Empty(OpsLimits(s)), [], s.maxTokensLimit, s.maxTokensLimit)
  {
  }

  // What a whole chat has done: the opening calls and what the loop's replies ask for, one
  // after the other, each with its result; its history has the rounds of both.
  ghost predicate Chatted(host: Host, s: Server, input: ChatInput, from: nat, to: nat, first: nat,
                          opening: seq<Message>, loop: seq<Message>, result: LoopResult)
  {
    var reply := host.replies(from);
    var n := |OpeningCalls(s, input.query, reply)|;
    && (Plans(s) ==> reply.Reply? && PlanFits(s, reply.message, MaximumChecks(s)))
    && OpeningCalls(s, input.query, reply) <= result.calls
    && Outcomes(host.outputs, first, result.calls, result.results)
    && opening == OpeningTail(host.encode, s, input.query, reply, result.results[..n])
    && Followed(host, s.aliases, from + (if Plans(s) then 1 else 0), to, first + n, loop, result.calls[n..],
                result.results[n..])
    && input.history.Some? && SameTurns(input.history.value + opening + loop, result.history)
  }

  lemma FollowedOutcomes(host: Host, aliases: map<string, string>, from: nat, to: nat, first: nat, tail: seq<Message>,
                         calls: seq<Call>, results: seq<ToolResult>)
    requires Followed(host, aliases, from, to, first, tail, calls, results)
    ensures Outcomes(host.outputs, first, calls, results)
  {
    hide Answered, Echoes, Serves, Outcomes;
  }

  lemma OpenedChat(host: Host, s: Server, input: ChatInput, from: nat, to: nat, first: nat, initial: Round,
                   history: seq<Message>, loop: seq<Message>, result: LoopResult)
    requires input.history.Some? && SameTurns(input.history.value, history)
    requires Opened(host, s, input.query, from, first, history, initial)
    requires initial.calls <= result.calls && initial.results <= result.results
    requires var n := |initial.calls|;
             Followed(host, s.aliases, from + (if Plans(s) then 1 else 0), to, first + n, loop, result.calls[n..],
                      result.results[n..])
    requires SameTurns(initial.history + loop, result.history)
    ensures Chatted(host, s, input, from, to, first,
                    OpeningTail(host.encode, s, input.query, host.replies(from), initial.results), loop, result)
  {
    hide Followed, OpeningCalls, OpeningTail, Outcomes, PlanFits;
    var n := |initial.calls|;
    OutcomeCount(host.outputs, first, initial.calls, initial.results);
    FollowedOutcomes(host, s.aliases, from + (if Plans(s) then 1 else 0), to, first + n, loop, result.calls[n..],
                     result.results[n..]);
    OutcomesMore(host.outputs, first, initial.calls, initial.results, result.calls[n..], result.results[n..]);
    assert initial.calls + result.calls[n..] == result.calls && initial.results + result.results[n..] == result.results;
    assert result.results[..n] == initial.results;
    var opening := OpeningTail(host.encode, s, input.query, host.replies(from), initial.results);
    TurnsOn(input.history.value, history, opening, initial.history);
    TurnsOn(input.history.value + opening, initial.history, loop, result.history);
  }

  // Whatever happens, the calls executed are the first of the opening ones, or all of them
  // and the first of those the loop's replies ask for.
  predicate Proceeds(s: Server, replies: nat -> Reply, from: nat, to: nat, opening: seq<Call>, calls: seq<Call>) {
    || calls <= opening
    || (opening <= calls
        && Serves(s.aliases, Asked(replies, from + (if Plans(s) then 1 else 0), to), 0, calls[|opening|..]))
  }

  lemma InitialFacts(host: Host, s: Server, query: string, from: nat, first: nat, history: seq<Message>, round: Round)
    requires Opened(host, s, query, from, first, history, round)
    ensures round.calls == OpeningCalls(s, query, host.replies(from)) && |round.results| == |round.calls|
    ensures round.history != [] && round.history[0].role == "system"
    ensures Plans(s) ==> |round.calls| > 0
  {
    FitsHasPlan(s, host.replies(from), MaximumChecks(s));
  }

  lemma GrownFrom(h: seq<Message>, h': seq<Message>, tail: seq<Message>, observer: Option<Observer>,
                  after: seq<Message>)
    requires SameTurns(h, h') && observer.Some? && Grown(h', tail, observer, after)
    ensures Grown(h, tail, observer, after)
  {
    TurnsOn(h, h', tail, after);
  }

  lemma {:induction false} PromptedFrom(h: seq<Message>, h': seq<Message>, tail: seq<Message>,
                                        observer: Option<Observer>, replies: nat -> Reply, sent: seq<Prompt>,
                                        from: nat, until: nat)
    requires SameTurns(h, h') && observer.Some? && until <= |sent|
    requires Prompted(h', tail, observer, replies, sent, from, until)
    ensures Prompted(h, tail, observer, replies, sent, from, until)
    decreases until
  {
    hide SameTurns, AskedBy;
    if until > from {
      var cut := |tail| - 1 - |AskedBy(replies(until - 1))|;
      GrownFrom(h, h', tail[..cut], observer, sent[until - 1].messages);
      PromptedFrom(h, h', tail[..cut], observer, replies, sent, from, until - 1);
    }
  }

  // The loop's requests carry the history the chat was given, then the opening's rounds.
  lemma ChatPrompted(host: Host, s: Server, input: ChatInput, from: nat, first: nat, initial: Round,
                     history: seq<Message>, loop: seq<Message>, sent: seq<Prompt>, start: nat)
    requires input.history.Some? && SameTurns(input.history.value, history)
    requires Opened(host, s, input.query, from, first, history, initial) && |sent| >= start
    requires Prompted(initial.history, loop, SkillObserver(input), host.replies, sent, start, |sent|)
    ensures |initial.results| == |OpeningCalls(s, input.query, host.replies(from))|
    ensures Prompted(input.history.value +
                     OpeningTail(host.encode, s, input.query, host.replies(from), initial.results), loop,
                     SkillObserver(input), host.replies, sent, start, |sent|)
  {
    hide Prompted, OpeningTail, OpeningCalls, PlanFits;
    OutcomeCount(host.outputs, first, initial.calls, initial.results);
    var opening := OpeningTail(host.encode, s, input.query, host.replies(from), initial.results);
    TurnsOn(input.history.value, history, opening, initial.history);
    PromptedFrom(input.history.value + opening, initial.history, loop, SkillObserver(input), host.replies, sent, start,
                 |sent|);
  }

  // A successful chat has charged exactly the calls it returns; no chat runs out of
  // iterations or tool calls, and every model request is sent with all it asked for.
  method CompleteChat(host: Host, s: Server, input: ChatInput)
    returns (r: Result<LoopResult, LoopError>, tracker: Tracker, ghost opening: seq<Message>, ghost loop: seq<Message>)
    requires ServerOk(s) && 0 < input.maxTokens <= s.maxTokensLimit && InputOk(input)
    modifies host`sent, host`executed
    ensures fresh(tracker) && tracker.Valid() && tracker.limits == OpsLimits(s)
    ensures r.Ok? ==>
              && tracker.usage.toolCalls == |r.value.calls| <= s.maxToolCalls
              && Text.TrimSpace(r.value.answer) == r.value.answer != ""
              && LastReply(host, |old(host.sent)|) && AnswerOf(host.replies(|host.sent| - 1).message) == r.value.answer
              && host.executed == old(host.executed) + r.value.calls
              && Chatted(host, s, input, |old(host.sent)|, |host.sent|, |old(host.executed)|, opening, loop, r.value)
              && Prompted(input.history.value + opening, loop, SkillObserver(input), host.replies, host.sent,
                          |old(host.sent)| + (if Plans(s) then 1 else 0), |host.sent|)
              && FullBudget(tracker.Value(), tracker.calls, s.maxTokensLimit, s.maxTokensLimit)
    ensures tracker.usage.iterations == |host.sent| - |old(host.sent)| <= s.maxToolCalls + 1
    ensures Ran(old(host.executed), host.executed, tracker.usage.toolCalls) && tracker.usage.toolCalls <= s.maxToolCalls
    ensures Proceeds(s, host.replies, |old(host.sent)|, |host.sent|,
                     OpeningCalls(s, input.query, host.replies(|old(host.sent)|)),
                     host.executed[|old(host.executed)|..])
    ensures forall i :: |old(host.sent)| <= i < |host.sent| ==>
              if i == |old(host.sent)| && Plans(s) then
                host.sent[i] == OpeningRequest(host, s, input, |old(host.executed)|)
              else host.sent[i].maxTokens == input.maxTokens
    ensures r.Err? ==> Blameless(r.error, host.replies, host.sent, |old(host.sent)|)
    ensures r.Err? ==> ChatCause(r.error, host, s, input, tracker, |old(host.sent)|, |old(host.executed)|)
  {
    hide Inv, FullBudget, BudgetModel.Apply, Text.TrimSpace, PlanCause, OverReports, Opened, OpeningCalls, OpeningTail,
        Followed, Serves, Asked, AddSkills, Chatted, AnswerOf, LastReply, Blameless, ChatCause, Outcomes, Prompted,
        SkillObserver, OpeningRequest, SameTurns;
    OpsLimitsAreValid(s);
    opening, loop := [], [];
    tracker := new Tracker(OpsLimits(s));
    NewBudgetIsFull(s);
    assert host.executed[|old(host.executed)|..] == [];
    InputCauses(host, s, input, tracker, |host.sent|, |host.executed|);
    if input.history.None? { return Err(BadHistory), tracker, opening, loop; }
    var history := AddSkills(input.history.value, input.skills(input.history.value, []));
    SkillsKeepTurns(input.history.value, input.skills(input.history.value, []));
    if !input.slot { return Err(NoSlot), tracker, opening, loop; }
    var prepared := Prepare(host, s, tracker, input, history);
    CallsAreLimited(tracker);
    if prepared.Err? { return Err(prepared.error), tracker, opening, loop; }
    var initial := prepared.value;
    InitialFacts(host, s, input.query, |old(host.sent)|, |old(host.executed)|, history, initial);
    ghost var afterOpening := |host.sent|;
    r, loop := LoopStage(host, s, input, tracker, initial, |old(host.sent)|, |old(host.executed)|);
    CallsAreLimited(tracker);
    assert host.executed[|old(host.executed)|..][|initial.calls|..] ==
             host.executed[|old(host.executed)| + |initial.calls|..];
    if r.Ok? {
      opening := OpeningTail(host.encode, s, input.query, host.replies(|old(host.sent)|), initial.results);
      ChatPrompted(host, s, input, |old(host.sent)|, |old(host.executed)|, initial, history, loop, host.sent,
                   afterOpening);
      OpenedChat(host, s, input, |old(host.sent)|, |host.sent|, |old(host.executed)|, initial, history, loop, r.value);
      EarlierReply(host, |old(host.sent)|, afterOpening);
    }
  }

  // ------------------------------------------------------- The structured result

  function EvidenceOf(calls: seq<Call>): set<string> {
    if calls == [] then {} else EvidenceOf(calls[..|calls| - 1]) + {"tool-call:" + calls[|calls| - 1].id}
  }

  method AvailableEvidence(calls: seq<Call>) returns (available: set<string>)
    ensures available == EvidenceOf(calls)
  {
    available := {};
    for index := 0 to |calls|
      invariant available == EvidenceOf(calls[..index])
    {
      assert calls[..index + 1][..index] == calls[..index];
      available := available + {"tool-call:" + calls[index].id};
    }
    assert calls[..|calls|] == calls;
  }

  // A reply that submits a finding the host accepts.
  ghost predicate FindingFits(s: Server, m: Message, available: set<string>) {
    && |m.requests| == 1 && m.requests[0].name == s.alias(RESULT_TOOL)
    && s.decodeFinding(m.requests[0].arguments).Some?
    && Investigation.Acceptable(Investigation.Normalized(s.decodeFinding(m.requests[0].arguments).value), available)
  }

  lemma NoFindingCause(e: LoopError, host: Host, tracker: Tracker, from: nat)
    requires ModelCause(e, host, tracker, from)
    ensures e != BadFinding
  {
  }

  // One more model call; an accepted finding cites only calls of this chat.
  method StructureFinding(host: Host, s: Server, tracker: Tracker, chat: LoopResult)
    returns (r: Result<Investigation.Finding, LoopError>)
    requires ServerOk(s) && tracker.Valid()
             && FullBudget(tracker.Value(), tracker.calls, s.maxTokensLimit, s.maxTokensLimit)
    requires tracker.usage.iterations < tracker.limits.maxIterations
    modifies host`sent, tracker
    ensures tracker.Valid()
    ensures |old(host.sent)| <= |host.sent| <= |old(host.sent)| + 1 && host.sent[..|old(host.sent)|] == old(host.sent)
    ensures |host.sent| > |old(host.sent)| ==>
              host.sent[|old(host.sent)|] ==
              Prompt(s.findingPrompt(chat.answer, chat.calls, chat.results), s.defaultMaxTokens)
    ensures r.Ok? ==>
              Investigation.Acceptable(r.value, EvidenceOf(chat.calls)) && Investigation.Normalized(r.value) == r.value
    ensures r.Ok? ==>
              && LastReply(host, |old(host.sent)|)
              && var message := host.replies(|host.sent| - 1).message;
                 FindingFits(s, message, EvidenceOf(chat.calls))
                 && r.value == Investigation.Normalized(s.decodeFinding(message.requests[0].arguments).value)
    ensures r.Err? ==> Blameless(r.error, host.replies, host.sent, |old(host.sent)|)
    ensures r == Err(BadFinding) ==>
              LastReply(host, |old(host.sent)|) && !FindingFits(s, host.replies(|host.sent| - 1).message,
                  EvidenceOf(chat.calls))
    ensures r.Err? && r.error != BadFinding ==> ModelCause(r.error, host, tracker, |old(host.sent)|)
  {
    hide Inv, FullBudget, NotStarved, Investigation.Acceptable, Investigation.Normalized, ModelCause;
    var available := AvailableEvidence(chat.calls);
    BudgetForLess(tracker.Value(), tracker.calls, s.maxTokensLimit, s.defaultMaxTokens);
    var messages := s.findingPrompt(chat.answer, chat.calls, chat.results);
    var answer := NextMessage(host, tracker, messages, s.defaultMaxTokens, s.maxTokensLimit);
    if answer.Err? {
      NotStarvedIsBlameless(answer.error, host.replies, host.sent, |old(host.sent)|, |old(host.sent)|,
                            s.defaultMaxTokens);
      NoFindingCause(answer.error, host, tracker, |old(host.sent)|);
      return Err(answer.error);
    }
    if |answer.value.requests| != 1 { return Err(BadFinding); }
    var asked := answer.value.requests[0];
    if asked.name != s.alias(RESULT_TOOL) { return Err(BadFinding); }
    var decoded := s.decodeFinding(asked.arguments);
    if decoded.None? { return Err(BadFinding); }
    var finding := Investigation.Normalized(decoded.value);
    Investigation.NormalizedTwice(decoded.value);
    var problem := Investigation.Validate(finding, available);
    if problem.Some? { return Err(BadFinding); }
    r := Ok(finding);
  }

  // Chat and structuring together fit in one budget: neither ever lacks iterations. The
  // finding is what the reply to the last request submits, which was made from the chat.
  method Investigate(host: Host, s: Server, input: ChatInput)
    returns (r: Result<Investigation.Finding, LoopError>, calls: seq<Call>, ghost done: Option<LoopResult>,
             ghost opening: seq<Message>, ghost loop: seq<Message>)
    requires ServerOk(s) && input.maxTokens == s.defaultMaxTokens && InputOk(input)
    modifies host`sent, host`executed
    ensures |host.sent| <= |old(host.sent)| + s.maxToolCalls + 2
    ensures old(host.executed) <= host.executed && |host.executed| <= |old(host.executed)| + s.maxToolCalls
    ensures r.Ok? ==>
              && Investigation.Acceptable(r.value, EvidenceOf(calls)) && host.executed == old(host.executed) + calls
              && done.Some? && done.value.calls == calls && |host.sent| > |old(host.sent)|
              && Chatted(host, s, input, |old(host.sent)|, |host.sent| - 1, |old(host.executed)|, opening, loop,
                         done.value)
              && host.sent[|host.sent| - 1] ==
                 Prompt(s.findingPrompt(done.value.answer, calls, done.value.results), s.defaultMaxTokens)
    ensures r.Ok? ==>
              && host.replies(|host.sent| - 1).Reply?
              && var message := host.replies(|host.sent| - 1).message;
                 && FindingFits(s, message, EvidenceOf(calls))
                 && r.value == Investigation.Normalized(s.decodeFinding(message.requests[0].arguments).value)
    ensures r.Err? ==> r.error != Budget(Exhausted(Iterations)) && r.error != Budget(Exhausted(ToolCalls))
  {
    hide Inv, FullBudget, Investigation.Acceptable, Chatted, Proceeds, ChatCause, Prompted, OpeningRequest, ModelCause,
        Investigation.Normalized, OverReports;
    OpsLimitsAreValid(s);
    done, opening, loop := None, [], [];
    var chat, tracker;
    chat, tracker, opening, loop := CompleteChat(host, s, input);
    if chat.Err? { return Err(chat.error), [], None, opening, loop; }
    calls := chat.value.calls;
    done := Some(chat.value);
    r := StructureFinding(host, s, tracker, chat.value);
  }
}
