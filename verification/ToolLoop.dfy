// The tool loop: budgeted model calls, tool execution and the transcript they leave.

module ToolLoop {
  import opened Wrappers
  import opened BudgetModel
  import opened RunBudget
  import Text

  // A tool call as the model writes it.
  datatype Request = Request(id: string, kind: string, name: string, arguments: string)

  datatype Message = Message(role: string, content: Option<string>, name: string, toolCallId: string,
                             requests: seq<Request>)

  // A tool call as the host executes it.
  datatype Call = Call(id: string, name: string, arguments: string)

  datatype Output = Output(failed: bool, body: string)

  datatype ToolResult = ToolResult(id: string, name: string, output: Output)

  datatype Reply = Failed | Reply(message: Message, tokens: int, known: bool)

  datatype LoopError = InvalidLimits | Budget(error: BudgetError) | UpstreamFailed | EmptyAnswer | TooManyCalls
                     | UnsupportedType
                     | UnknownTool | ObserverFailed | BadHistory | BadRegistry | NoSlot | BadPlan | PlanRejected
                     | BadFinding

  type Observer = (seq<Message>, Call, ToolResult) -> Result<seq<Message>, ()>

  // What a model request carries: the messages and the token allowance.
  datatype Prompt = Prompt(messages: seq<Message>, maxTokens: int)

  // The model endpoint and the tools: the answer to the n-th request and the output of
  // the n-th execution are arbitrary.
  class Host {
    const replies: nat -> Reply
    const contextSizes: nat -> nat
    const outputs: nat -> Output
    const encode: ToolResult -> string
    // Every request sent, and every call executed.
    var sent: seq<Prompt>
    var executed: seq<Call>

    constructor (replies: nat -> Reply, contextSizes: nat -> nat, outputs: nat -> Output, encode: ToolResult -> string)
      ensures sent == [] && executed == []
    {
      this.replies, this.contextSizes, this.outputs, this.encode := replies, contextSizes, outputs, encode;
      sent, executed := [], [];
    }

    // Execute: the result carries the call's id and name, whatever happens inside.
    method Execute(call: Call) returns (r: ToolResult)
      modifies this`executed
      ensures executed == old(executed) + [call] && r == ToolResult(call.id, call.name, outputs(|old(executed)|))
    {
      r := ToolResult(call.id, call.name, outputs(|executed|));
      executed := executed + [call];
    }

    method Send(messages: seq<Message>, allowed: int) returns (reply: Reply)
      modifies this`sent
      ensures sent == old(sent) + [Prompt(messages, allowed)] && reply == replies(|old(sent)|)
    {
      reply := replies(|sent|);
      sent := sent + [Prompt(messages, allowed)];
    }
  }

  // ------------------------------------------------------- One budgeted model call

  function Reported(reply: Reply): int {
    if reply.Reply? && reply.known then reply.tokens else -1
  }

  // The reply claims more tokens than it was allowed.
  predicate OverReports(reply: Reply, allowed: int) {
    Reported(reply) > allowed
  }

  datatype Completion = Completion(ledger: Ledger, calls: seq<ModelCall>, sent: Option<int>, result: Result<Message,
                                   LoopError>)

  // Record the context, reserve, send, settle.
  function CompleteStep(l: Ledger, calls: seq<ModelCall>, size: nat, maxTokens: int, reply: Reply): Completion {
    var c := Apply(l, CountContext(size));
    if c.result.Err? then Completion(l, calls, None, Err(Budget(c.result.error)))
    else
      var b := Apply(c.ledger, Begin(maxTokens));
      if b.result.Err? || b.result.value.NoGrant? then
        Completion(b.ledger, calls, None, Err(Budget(if b.result.Err? then b.result.error else InvalidRequest)))
      else
        var begun := Observe(calls, Begin(maxTokens), b.result);
        var op := Finish(b.result.value.id, Reported(reply));
        var f := Apply(b.ledger, op);
        Completion(f.ledger, Observe(begun, op, f.result), Some(b.result.value.allowed),
                   if f.result.Err? then Err(Budget(f.result.error))
                   else if reply.Failed? then Err(UpstreamFailed)
                   else Ok(reply.message))
  }

  lemma NextIdIsNew(l: Ledger, calls: seq<ModelCall>)
    requires Inv(l, calls)
    ensures l.nextId == |calls| == l.usage.iterations && l.limits.maxModelTokens >= l.usage.modelTokens
  {
  }

  // A model call uses one iteration when it is sent and nothing but context and tokens.
  lemma CompleteSpends(l: Ledger, calls: seq<ModelCall>, size: nat, maxTokens: int, reply: Reply)
    requires Inv(l, calls)
    ensures var c := CompleteStep(l, calls, size, maxTokens, reply);
            && Inv(c.ledger, c.calls) && c.ledger.limits == l.limits
            && c.ledger.usage.iterations == l.usage.iterations + (if c.sent.Some? then 1 else 0)
            && c.ledger.usage.toolCalls == l.usage.toolCalls
            && c.ledger.usage.toolResultBytes == l.usage.toolResultBytes
            && c.ledger.usage.retrievedBytes == l.usage.retrievedBytes
            && |c.calls| == |calls| + (if c.sent.Some? then 1 else 0)
            && (c.sent.Some? ==> 0 < c.sent.value <= maxTokens &&
                                 c.calls == calls + [ModelCall(c.sent.value, Some(Reported(reply)))])
            && (c.sent.None? ==> c.calls == calls)
            && (c.result.Ok? ==> c.sent.Some? && reply.Reply? && c.result.value == reply.message)
            && c.result != Err(Budget(Exhausted(ToolCalls)))
  {
    hide Inv;
    var c := Apply(l, CountContext(size));
    StepKeepsInv(l, calls, CountContext(size));
    if c.result.Ok? {
      StepKeepsInv(c.ledger, calls, Begin(maxTokens));
      var b := Apply(c.ledger, Begin(maxTokens));
      NextIdIsNew(c.ledger, calls);
      if b.result.Ok? {
        var begun := Observe(calls, Begin(maxTokens), b.result);
        StepKeepsInv(b.ledger, begun, Finish(b.result.value.id, Reported(reply)));
      }
    }
  }

  ghost predicate Modest(calls: seq<ModelCall>, limit: int) {
    forall i :: 0 <= i < |calls| ==> calls[i].granted <= limit
  }

  // When the token limit has room for a full request per iteration, a call below the
  // iteration limit is sent with everything it asked for, and the only token error left
  // is a reply that reports more than that.
  lemma CompleteInFull(l: Ledger, calls: seq<ModelCall>, size: nat, maxTokens: int, reply: Reply, limit: int)
    requires Inv(l, calls) && l.limits.maxModelTokens == limit * l.limits.maxIterations
    requires Modest(calls, limit) && 0 < maxTokens <= limit && l.usage.iterations < l.limits.maxIterations
    ensures var c := CompleteStep(l, calls, size, maxTokens, reply);
            && Modest(c.calls, limit)
            && (c.sent.Some? ==> c.sent.value == maxTokens)
            && c.result != Err(Budget(Exhausted(Iterations)))
            && (c.result == Err(Budget(Exhausted(ModelTokens))) ==> c.sent.Some? && OverReports(reply, maxTokens))
  {
    hide Inv;
    var c := Apply(l, CountContext(size));
    StepKeepsInv(l, calls, CountContext(size));
    if c.result.Ok? {
      RequestGrantedInFull(c.ledger, calls, limit, maxTokens);
      NextIdIsNew(c.ledger, calls);
    }
  }

  // Why a model call fails.
  predicate CompleteCause(e: LoopError, c: Completion, size: nat, reply: Reply) {
    match e
    case Budget(Exhausted(ContextTokens)) => c.sent.None?
      && c.ledger.usage.contextTokens + size > c.ledger.limits.maxContextTokens
    case Budget(Exhausted(Iterations)) => c.sent.None? && c.ledger.usage.iterations >= c.ledger.limits.maxIterations
    case Budget(Exhausted(ModelTokens)) =>
      if c.sent.None? then c.ledger.usage.modelTokens >= c.ledger.limits.maxModelTokens
      else OverReports(reply, c.sent.value)
    case UpstreamFailed => c.sent.Some? && reply.Failed?
    case _ => false
  }

  lemma CompleteHasCause(l: Ledger, calls: seq<ModelCall>, size: nat, maxTokens: int, reply: Reply)
    requires Inv(l, calls) && maxTokens > 0
    ensures var c := CompleteStep(l, calls, size, maxTokens, reply); c.result.Err? ==>
              CompleteCause(c.result.error, c, size, reply)
  {
    hide Inv;
  }

  lemma StepKeepsCalls(l: Ledger, calls: seq<ModelCall>, size: int)
    ensures Observe(calls, CountContext(size), Apply(l, CountContext(size)).result) == calls
    ensures Apply(l, CountContext(size)).result.Err? ==> Apply(l, CountContext(size)).ledger == l
  {
  }

  method CompleteBudgeted(host: Host, tracker: Tracker?, messages: seq<Message>, maxTokens: int)
    returns (r: Result<Message, LoopError>)
    requires tracker != null ==> tracker.Valid()
    modifies host`sent, tracker
    ensures tracker != null ==>
              var c := CompleteStep(old(tracker.Value()), old(tracker.calls), host.contextSizes(|old(host.sent)|),
                                    maxTokens, host.replies(|old(host.sent)|));
              && tracker.Value() == c.ledger && tracker.calls == c.calls && r == c.result
              && host.sent == old(host.sent) + if c.sent.Some? then [Prompt(messages, c.sent.value)] else []
    ensures tracker == null ==>
              var reply := host.replies(|old(host.sent)|);
              host.sent == old(host.sent) + [Prompt(messages, maxTokens)] && r == if reply.Failed?
                  then Err(UpstreamFailed)
                  else Ok(reply.message)
    ensures tracker != null ==> tracker.Valid()
  {
    hide Inv, Apply;
    if tracker == null {
      var reply := host.Send(messages, maxTokens);
      return if reply.Failed? then Err(UpstreamFailed) else Ok(reply.message);
    }
    StepKeepsCalls(tracker.Value(), tracker.calls, host.contextSizes(|host.sent|));
    var context := tracker.RecordContextBytes(host.contextSizes(|host.sent|));
    if context.Err? { return Err(Budget(context.error)); }
    var begun := tracker.BeginModelCall(maxTokens);
    if begun.Err? { return Err(Budget(begun.error)); }
    var reply := host.Send(messages, begun.value.allowed);
    var reported := if reply.Reply? && reply.known then reply.tokens else -1;
    var finished := tracker.FinishModelCall(begun.value.id, reported);
    if finished.Err? { return Err(Budget(finished.error)); }
    r := if reply.Failed? then Err(UpstreamFailed) else Ok(reply.message);
  }

  // ------------------------------------------------------- The transcript

  function ToolMessage(encode: ToolResult -> string, request: Request, result: ToolResult): Message {
    Message("tool", Some(encode(result)), request.name, request.id, [])
  }

  // The call and the result belong to the request.
  predicate Matches(request: Request, call: Call, result: ToolResult) {
    call.id == request.id == result.id && call.arguments == request.arguments && result.name == call.name
  }

  ghost predicate RoundOk(encode: ToolResult -> string, requests: seq<Request>, messages: seq<Message>,
                          calls: seq<Call>, results: seq<ToolResult>) {
    && |messages| == |requests| == |calls| == |results|
    && forall i :: 0 <= i < |requests| ==>
         Matches(requests[i], calls[i], results[i]) && messages[i] == ToolMessage(encode, requests[i], results[i])
  }

  // A transcript in which every message asking for tools is followed by exactly one tool
  // message per request, in order, carrying the result under the request's id.
  ghost predicate Answered(encode: ToolResult -> string, tail: seq<Message>, calls: seq<Call>, results: seq<ToolResult>)
    decreases |tail|
  {
    if tail == [] then calls == [] && results == []
    else
      var requests := tail[0].requests;
      var n := |requests|;
      && |tail| > n && |calls| >= n && |results| >= n
      && RoundOk(encode, requests, tail[1..1 + n], calls[..n], results[..n])
      && Answered(encode, tail[1 + n..], calls[n..], results[n..])
  }

  lemma RoundSizes(encode: ToolResult -> string, requests: seq<Request>, messages: seq<Message>, calls: seq<Call>,
                   results: seq<ToolResult>)
    requires RoundOk(encode, requests, messages, calls, results)
    ensures |messages| == |requests| == |calls| == |results|
  {
  }

  lemma OneMoreRound(encode: ToolResult -> string, message: Message, messages: seq<Message>, cs: seq<Call>,
                     rs: seq<ToolResult>,
                     tail: seq<Message>, calls: seq<Call>, results: seq<ToolResult>)
    requires RoundOk(encode, message.requests, messages, cs, rs) && Answered(encode, tail, calls, results)
    ensures Answered(encode, [message] + messages + tail, cs + calls, rs + results)
  {
    hide RoundOk;
    RoundSizes(encode, message.requests, messages, cs, rs);
    var whole := [message] + messages + tail;
    var n := |message.requests|;
    assert whole[0] == message && whole[1..1 + n] == messages && whole[1 + n..] == tail;
    assert (cs + calls)[..n] == cs && (cs + calls)[n..] == calls;
    assert (rs + results)[..n] == rs && (rs + results)[n..] == results;
  }

  lemma Regroup<T>(s: seq<T>, n: nat, t: seq<T>)
    requires n <= |s|
    ensures s[..n] + (s[n..] + t) == s + t
  {
  }

  lemma FirstRound(encode: ToolResult -> string, tail: seq<Message>, calls: seq<Call>, results: seq<ToolResult>)
    requires Answered(encode, tail, calls, results) && tail != []
    ensures var n := |tail[0].requests|;
            && |tail| > n && |calls| >= n && |results| >= n
            && RoundOk(encode, tail[0].requests, tail[1..1 + n], calls[..n], results[..n])
            && Answered(encode, tail[1 + n..], calls[n..], results[n..])
  {
    hide RoundOk;
  }

  // Transcripts compose.
  lemma {:induction false} AnsweredAppend(encode: ToolResult -> string, t1: seq<Message>, c1: seq<Call>,
                                          r1: seq<ToolResult>,
                                          t2: seq<Message>, c2: seq<Call>, r2: seq<ToolResult>)
    requires Answered(encode, t1, c1, r1) && Answered(encode, t2, c2, r2)
    ensures Answered(encode, t1 + t2, c1 + c2, r1 + r2)
    decreases |t1|
  {
    if t1 == [] {
      assert t1 + t2 == t2 && c1 + c2 == c2 && r1 + r2 == r2;
    } else {
      hide RoundOk, Answered;
      var n := |t1[0].requests|;
      FirstRound(encode, t1, c1, r1);
      var messages, rest := t1[1..1 + n], t1[1 + n..];
      AnsweredAppend(encode, rest, c1[n..], r1[n..], t2, c2, r2);
      OneMoreRound(encode, t1[0], messages, c1[..n], r1[..n], rest + t2, c1[n..] + c2, r1[n..] + r2);
      assert [t1[0]] + messages == t1[..1 + n];
      Regroup(t1, 1 + n, t2);
      Regroup(c1, n, c2);
      Regroup(r1, n, r2);
    }
  }

  // Every call has its result, by id, and every call is answered by one tool message.
  lemma {:induction false} AnsweredAligns(encode: ToolResult -> string, tail: seq<Message>, calls: seq<Call>,
                                          results: seq<ToolResult>)
    requires Answered(encode, tail, calls, results)
    ensures |calls| == |results| && forall i :: 0 <= i < |calls| ==>
              calls[i].id == results[i].id && calls[i].name == results[i].name
    decreases |tail|
  {
    if tail != [] {
      var n := |tail[0].requests|;
      AnsweredAligns(encode, tail[1 + n..], calls[n..], results[n..]);
      forall i | 0 <= i < |calls| ensures calls[i].id == results[i].id && calls[i].name == results[i].name {
        if i < n {
          assert Matches(tail[0].requests[i], calls[..n][i], results[..n][i]);
        } else {
          assert calls[i] == calls[n..][i - n] && results[i] == results[n..][i - n];
        }
      }
    }
  }

  // ------------------------------------------------------- Naming the calls

  // A call whose id is not usable is named after its position in the whole run.
  function Renamed(request: Request, position: nat): Request {
    if Text.IsName(request.id) then request else request.(id := "call_" + Text.Decimal(position))
  }

  // A reply's message with its calls named, after so many calls.
  function Named(message: Message, done: nat): Message {
    message.(requests := seq(|message.requests|, i requires 0 <= i < |message.requests| =>
                               Renamed(message.requests[i], done + i + 1)))
  }

  lemma RenamedCallsDiffer(a: Request, b: Request, m: nat, n: nat)
    requires !Text.IsName(a.id) && !Text.IsName(b.id) && m != n
    ensures Renamed(a, m).id != Renamed(b, n).id
  {
    if Renamed(a, m).id == Renamed(b, n).id {
      assert Renamed(a, m).id[5..] == Text.Decimal(m) && Renamed(b, n).id[5..] == Text.Decimal(n);
      Text.DecimalIsInjective(m, n);
    }
  }

  method RenameCalls(message: Message, done: nat) returns (renamed: Message)
    ensures renamed == Named(message, done)
  {
    hide Text.IsName;
    renamed := message;
    for index := 0 to |message.requests|
      invariant renamed == message.(requests := renamed.requests) && |renamed.requests| == |message.requests|
      invariant forall i :: 0 <= i < index ==> renamed.requests[i] == Renamed(message.requests[i], done + i + 1)
      invariant forall i :: index <= i < |message.requests| ==> renamed.requests[i] == message.requests[i]
    {
      if !Text.IsName(renamed.requests[index].id) {
        renamed := renamed.(requests := renamed.requests[index := renamed.requests[index].(id :=
            "call_" + Text.Decimal(done + index + 1))]);
      }
    }
  }

  // ------------------------------------------------------- One round of tools

  function AskedBy(reply: Reply): seq<Request> {
    if reply.Reply? then reply.message.requests else []
  }

  // Everything these replies ask for, in order.
  function Asked(replies: nat -> Reply, from: nat, until: nat): seq<Request>
    decreases until
  {
    if until <= from then [] else Asked(replies, from, until - 1) + AskedBy(replies(until - 1))
  }

  // The calls are the first of those asked for, in order, each under its alias' tool name,
  // with the arguments given and the id given if it is usable.
  predicate Serves(aliases: map<string, string>, asked: seq<Request>, done: nat, calls: seq<Call>) {
    && |calls| <= |asked|
    && forall k :: 0 <= k < |calls| ==>
         && asked[k].name in aliases && calls[k].name == aliases[asked[k].name]
         && calls[k].arguments == asked[k].arguments
         && calls[k].id == if Text.IsName(asked[k].id) then asked[k].id else "call_" + Text.Decimal(done + k + 1)
  }

  // Each result is its call's, with the output its execution had.
  predicate Outcomes(outputs: nat -> Output, first: nat, calls: seq<Call>, results: seq<ToolResult>) {
    && |results| == |calls|
    && forall k :: 0 <= k < |calls| ==> results[k] == ToolResult(calls[k].id, calls[k].name, outputs(first + k))
  }

  // The transcript's other messages are the replies, in order, with their calls named.
  ghost predicate Echoes(tail: seq<Message>, replies: nat -> Reply, from: nat, until: nat)
    decreases until
  {
    if until <= from then tail == []
    else
      var reply := replies(until - 1);
      var cut := |tail| - 1 - |AskedBy(reply)|;
      && reply.Reply? && cut >= 0
      && tail[cut] == Named(reply.message, |Asked(replies, from, until - 1)|)
      && Echoes(tail[..cut], replies, from, until - 1)
  }

  // What a run of the loop has done: it followed the replies, made all the calls they ask
  // for and answered each of them.
  ghost predicate Followed(host: Host, aliases: map<string, string>, from: nat, to: nat, first: nat, tail: seq<Message>,
                           calls: seq<Call>, results: seq<ToolResult>)
  {
    var asked := Asked(host.replies, from, to);
    && Answered(host.encode, tail, calls, results) && Echoes(tail, host.replies, from, to)
    && |calls| == |asked| && Serves(aliases, asked, 0, calls) && Outcomes(host.outputs, first, calls, results)
  }

  // An observer that leaves everything but the system prompt as it is.
  predicate SameTurns(h: seq<Message>, h': seq<Message>) {
    h != [] && h' != [] && h[0].role == "system" && h'[0].role == "system" && h'[1..] == h[1..]
  }

  ghost predicate Mild(observer: Option<Observer>) {
    observer.Some? ==>
      forall h: seq<Message>, call: Call,
          result: ToolResult :: h != [] && h[0].role == "system" && observer.value(h, call, result).Ok? ==>
        SameTurns(h, observer.value(h, call, result).value)
  }

  ghost predicate CanFail(observer: Option<Observer>) {
    observer.Some? && exists h: seq<Message>, call: Call, result: ToolResult :: observer.value(h, call, result).Err?
  }

  // The history is what it was with the transcript added, up to the system prompt.
  predicate Grown(h: seq<Message>, tail: seq<Message>, observer: Option<Observer>, h': seq<Message>) {
    (observer.None? ==> h' == h + tail) && (h != [] && h[0].role == "system" ==> SameTurns(h + tail, h'))
  }

  // Each request before that one carried the history as it was when its reply came: what
  // the run began with and the transcript up to the reply, up to the system prompt.
  ghost predicate Prompted(h: seq<Message>, tail: seq<Message>, observer: Option<Observer>, replies: nat -> Reply,
                           sent: seq<Prompt>, from: nat, until: nat)
    requires until <= |sent|
    decreases until
  {
    if until <= from then tail == []
    else
      var cut := |tail| - 1 - |AskedBy(replies(until - 1))|;
      && cut >= 0 && Grown(h, tail[..cut], observer, sent[until - 1].messages)
      && Prompted(h, tail[..cut], observer, replies, sent, from, until - 1)
  }

  // Every request of a run did, and one without a reply in the transcript carried all of it.
  ghost predicate AllPrompted(h: seq<Message>, tail: seq<Message>, observer: Option<Observer>, replies: nat -> Reply,
                              sent: seq<Prompt>, from: nat)
  {
    exists until: nat :: until <= |sent| <= until + 1 && Prompted(h, tail, observer, replies, sent, from, until) &&
      (until < |sent| ==> Grown(h, tail, observer, sent[until].messages))
  }

  datatype Round = Round(calls: seq<Call>, results: seq<ToolResult>, history: seq<Message>)

  // Tool execution touches only the tool counters of the ledger.
  ghost predicate OnlyTools(before: Ledger, after: Ledger, calls: nat) {
    after == before.(usage := before.usage.(toolCalls := before.usage.toolCalls + calls,
                                            toolResultBytes := after.usage.toolResultBytes,
                                            retrievedBytes := after.usage.retrievedBytes))
  }

  predicate OtherThanCalls(e: LoopError) {
    e != Budget(Exhausted(Iterations)) && e != Budget(Exhausted(ModelTokens))
  }

  // That many calls were executed, after the earlier ones.
  predicate Ran(before: seq<Call>, after: seq<Call>, n: int) {
    before <= after && |after| == |before| + n
  }

  // Size of the last result, as charged.
  ghost function LastBytes(host: Host): nat
    reads host`executed
  {
    var n := |host.executed|;
    if n == 0 then 0
    else |host.encode(ToolResult(host.executed[n - 1].id, host.executed[n - 1].name, host.outputs(n - 1)))|
  }

  // Why charging a call or its result fails.
  predicate ChargeCause(e: BudgetError, u: Usage, m: Limits, bytes: nat) {
    match e
    case Exhausted(ToolCalls) => u.toolCalls >= m.maxToolCalls
    case Exhausted(ToolResultBytes) => u.toolResultBytes + bytes > m.maxToolResultBytes
    case Exhausted(RetrievedBytes) => u.retrievedBytes + bytes > m.maxRetrievedBytes
    case _ => false
  }

  ghost predicate ChargeFails(e: LoopError, host: Host, tracker: Tracker?)
    reads host`executed, tracker
  {
    tracker != null && e.Budget? && ChargeCause(e.error, tracker.usage, tracker.limits, LastBytes(host))
  }

  // Why executing these requests fails.
  ghost predicate ToolCause(e: LoopError, host: Host, tracker: Tracker?, requests: seq<Request>, aliases: map<string,
                            string>, observed: bool)
    reads host`executed, tracker
  {
    match e
    case UnsupportedType => exists k :: 0 <= k < |requests| && requests[k].kind != "function"
    case UnknownTool => exists k :: 0 <= k < |requests| && requests[k].name !in aliases
    case ObserverFailed => observed
    case Budget(_) => ChargeFails(e, host, tracker)
    case _ => false
  }

  // Charge, execute, and charge the result: one tool call of the host's.
  method ChargedExecute(host: Host, tracker: Tracker?, call: Call, retrieved: bool)
    returns (r: Result<ToolResult, LoopError>)
    requires tracker != null ==> tracker.Valid()
    modifies host`executed, tracker
    ensures tracker != null ==> tracker.Valid() && tracker.calls == old(tracker.calls)
    ensures r.Ok? ==> r.value == ToolResult(call.id, call.name, host.outputs(|old(host.executed)|))
    ensures host.executed == old(host.executed) + if r == Err(Budget(Exhausted(ToolCalls))) then [] else [call]
    ensures tracker != null ==>
              OnlyTools(old(tracker.Value()), tracker.Value(), if r == Err(Budget(Exhausted(ToolCalls))) then 0 else 1)
    ensures r.Err? ==> OtherThanCalls(r.error) && ChargeFails(r.error, host, tracker)
    ensures tracker != null && old(tracker.usage.toolCalls) < tracker.limits.maxToolCalls ==>
              r != Err(Budget(Exhausted(ToolCalls)))
  {
    hide Inv;
    if tracker != null {
      var charged := tracker.RecordToolCall();
      if charged.Err? { return Err(Budget(charged.error)); }
    }
    var result := host.Execute(call);
    if tracker != null {
      var charged := tracker.RecordToolResult(|host.encode(result)|, retrieved);
      if charged.Err? { return Err(Budget(charged.error)); }
    }
    r := Ok(result);
  }

  lemma NothingRound(encode: ToolResult -> string)
    ensures RoundOk(encode, [], [], [], [])
  {
  }

  lemma RoundGrows(encode: ToolResult -> string, requests: seq<Request>, i: nat, messages: seq<Message>,
                   calls: seq<Call>,
                   results: seq<ToolResult>, call: Call, result: ToolResult)
    requires i < |requests| && RoundOk(encode, requests[..i], messages, calls, results)
             && Matches(requests[i], call, result)
    ensures RoundOk(encode, requests[..i + 1], messages + [ToolMessage(encode, requests[i], result)], calls + [call],
                    results + [result])
  {
    hide ToolMessage, Matches;
  }

  // The calls made are the first of those requested, under their tool names.
  predicate Takes(aliases: map<string, string>, requests: seq<Request>, calls: seq<Call>) {
    && |calls| <= |requests|
    && forall k :: 0 <= k < |calls| ==>
         requests[k].name in aliases
         && calls[k] == Call(requests[k].id, aliases[requests[k].name], requests[k].arguments)
  }

  lemma NothingTaken(aliases: map<string, string>, requests: seq<Request>, outputs: nat -> Output, first: nat)
    ensures Takes(aliases, requests, []) && Outcomes(outputs, first, [], [])
  {
  }

  lemma TakeOne(aliases: map<string, string>, requests: seq<Request>, calls: seq<Call>, call: Call)
    requires Takes(aliases, requests, calls) && |calls| < |requests|
    requires requests[|calls|].name in aliases
    requires call == Call(requests[|calls|].id, aliases[requests[|calls|].name], requests[|calls|].arguments)
    ensures Takes(aliases, requests, calls + [call])
  {
  }

  lemma OutcomeOf(outputs: nat -> Output, first: nat, calls: seq<Call>, results: seq<ToolResult>, call: Call,
                  result: ToolResult)
    requires Outcomes(outputs, first, calls, results)
    requires result == ToolResult(call.id, call.name, outputs(first + |calls|))
    ensures Outcomes(outputs, first, calls + [call], results + [result])
  {
  }

  lemma NothingGrown(h: seq<Message>, observer: Option<Observer>)
    ensures Grown(h, [], observer, h)
  {
    assert h + [] == h;
  }

  lemma GrowOne(h: seq<Message>, tail: seq<Message>, observer: Option<Observer>, h': seq<Message>, message: Message)
    requires Grown(h, tail, observer, h')
    ensures Grown(h, tail + [message], observer, h' + [message])
  {
    assert h + (tail + [message]) == h + tail + [message];
    if h != [] {
      assert (h + tail + [message])[1..] == (h + tail)[1..] + [message];
      if h' != [] { assert (h' + [message])[1..] == h'[1..] + [message]; }
    }
  }

  lemma Observed(h: seq<Message>, tail: seq<Message>, observer: Option<Observer>, h': seq<Message>, call: Call,
                 result: ToolResult)
    requires Grown(h, tail, observer, h') && observer.Some? && Mild(observer) && observer.value(h', call, result).Ok?
    ensures Grown(h, tail, observer, observer.value(h', call, result).value)
  {
  }

  lemma ItFailed(observer: Option<Observer>, h: seq<Message>, call: Call, result: ToolResult)
    requires observer.Some? && observer.value(h, call, result).Err?
    ensures CanFail(observer)
  {
  }

  function CallFor(aliases: map<string, string>, request: Request): Call
    requires request.name in aliases
  {
    Call(request.id, aliases[request.name], request.arguments)
  }

  lemma OneRequestCauses(e: LoopError, host: Host, tracker: Tracker?, requests: seq<Request>,
                         aliases: map<string, string>, observed: bool, k: nat)
    requires k < |requests| && ToolCause(e, host, tracker, [requests[k]], aliases, observed)
    ensures ToolCause(e, host, tracker, requests, aliases, observed)
  {
  }

  // One request: checked, charged, executed, answered and observed.
  method ExecuteOne(host: Host, tracker: Tracker?, request: Request, aliases: map<string, string>,
                    observer: Option<Observer>, history: seq<Message>)
    returns (r: Result<(ToolResult, seq<Message>), LoopError>, ghost charged: nat)
    requires tracker != null ==> tracker.Valid()
    modifies host`executed, tracker
    ensures tracker != null ==>
              tracker.Valid() && tracker.calls == old(tracker.calls)
              && OnlyTools(old(tracker.Value()), tracker.Value(), charged)
    ensures charged <= 1 && (r.Ok? ==> charged == 1) && (charged == 1 ==> request.name in aliases)
    ensures host.executed == old(host.executed) + if charged == 1 then [CallFor(aliases, request)] else []
    ensures r.Ok? ==>
              && r.value.0 == ToolResult(request.id, aliases[request.name], host.outputs(|old(host.executed)|))
              && var message := ToolMessage(host.encode, request, r.value.0);
                 if observer.None? then r.value.1 == history + [message]
                 else observer.value(history + [message], CallFor(aliases, request), r.value.0) == Ok(r.value.1)
    ensures r.Err? ==>
              OtherThanCalls(r.error) && ToolCause(r.error, host, tracker, [request], aliases, CanFail(observer))
    ensures tracker != null && old(tracker.usage.toolCalls) < tracker.limits.maxToolCalls ==>
              r != Err(Budget(Exhausted(ToolCalls)))
  {
    hide Inv, BudgetModel.Apply, CanFail;
    assert [request][0] == request;
    if request.kind != "function" { return Err(UnsupportedType), 0; }
    if request.name !in aliases { return Err(UnknownTool), 0; }
    var call := Call(request.id, aliases[request.name], request.arguments);
    var executed := ChargedExecute(host, tracker, call, false);
    charged := if executed == Err(Budget(Exhausted(ToolCalls))) then 0 else 1;
    if executed.Err? { return Err(executed.error), charged; }
    var grown := history + [ToolMessage(host.encode, request, executed.value)];
    if observer.Some? {
      var observed := observer.value(grown, call, executed.value);
      if observed.Err? {
        ItFailed(observer, grown, call, executed.value);
        return Err(ObserverFailed), charged;
      }
      grown := observed.value;
    }
    r := Ok((executed.value, grown));
  }

  lemma GrowWith(h: seq<Message>, tail: seq<Message>, observer: Option<Observer>, h': seq<Message>, message: Message,
                 call: Call, result: ToolResult, h'': seq<Message>)
    requires Mild(observer) && Grown(h, tail, observer, h')
    requires if observer.None? then h'' == h' + [message] else observer.value(h' + [message], call, result) == Ok(h'')
    ensures Grown(h, tail + [message], observer, h'')
  {
    hide Grown, Mild;
    GrowOne(h, tail, observer, h', message);
    if observer.Some? { Observed(h, tail + [message], observer, h' + [message], call, result); }
  }

  lemma OnlyMoreTools(a: Ledger, b: Ledger, c: Ledger, m: nat, n: nat)
    requires OnlyTools(a, b, m) && OnlyTools(b, c, n)
    ensures OnlyTools(a, c, m + n)
  {
  }

  lemma NoTools(l: Ledger)
    ensures OnlyTools(l, l, 0)
  {
  }

  lemma ChargedTools(before: Ledger, after: Ledger, n: nat)
    requires OnlyTools(before, after, n)
    ensures after.usage.toolCalls == before.usage.toolCalls + n && after.limits == before.limits
  {
  }

  method ExecuteRequests(host: Host, tracker: Tracker?, requests: seq<Request>, aliases: map<string, string>,
                         observer: Option<Observer>, history: seq<Message>)
    returns (r: Result<Round, LoopError>, ghost messages: seq<Message>, ghost charged: nat)
    requires tracker != null ==> tracker.Valid()
    modifies host`executed, tracker
    ensures tracker != null ==> tracker.Valid() && tracker.calls == old(tracker.calls)
    ensures charged <= |requests| && (r.Ok? ==> charged == |requests|)
    ensures tracker != null ==> OnlyTools(old(tracker.Value()), tracker.Value(), charged)
    ensures r.Ok? ==> RoundOk(host.encode, requests, messages, r.value.calls, r.value.results)
    ensures Ran(old(host.executed), host.executed, charged)
    ensures Takes(aliases, requests, host.executed[|old(host.executed)|..])
    ensures r.Ok? ==> host.executed == old(host.executed) + r.value.calls
    ensures r.Ok? ==> Outcomes(host.outputs, |old(host.executed)|, r.value.calls, r.value.results)
    ensures r.Ok? && Mild(observer) ==> Grown(history, messages, observer, r.value.history)
    ensures r.Err? ==>
              OtherThanCalls(r.error) && ToolCause(r.error, host, tracker, requests, aliases, CanFail(observer))
    ensures tracker != null && old(tracker.usage.toolCalls) + |requests| <= tracker.limits.maxToolCalls ==>
              r != Err(Budget(Exhausted(ToolCalls)))
  {
    hide Inv, BudgetModel.Apply, ToolCause, RoundOk, Takes, Outcomes, CanFail, Mild, Grown, ToolMessage, OnlyTools;
    var round := Round([], [], history);
    messages, charged := [], 0;
    NothingRound(host.encode);
    NothingTaken(aliases, requests, host.outputs, |host.executed|);
    NothingGrown(history, observer);
    if tracker != null { NoTools(tracker.Value()); }
    for i := 0 to |requests|
      invariant charged == i && |round.calls| == i
      invariant tracker != null ==> tracker.Valid() && tracker.calls == old(tracker.calls)
      invariant tracker != null ==>
                  OnlyTools(old(tracker.Value()), tracker.Value(), i)
                  && tracker.usage.toolCalls == old(tracker.usage.toolCalls) + i
      invariant RoundOk(host.encode, requests[..i], messages, round.calls, round.results)
      invariant host.executed == old(host.executed) + round.calls
      invariant Takes(aliases, requests, round.calls)
      invariant Outcomes(host.outputs, |old(host.executed)|, round.calls, round.results)
      invariant Mild(observer) ==> Grown(history, messages, observer, round.history)
    {
      var request := requests[i];
      ghost var before := if tracker != null then Some(tracker.Value()) else None;
      ghost var now;
      var one;
      one, now := ExecuteOne(host, tracker, request, aliases, observer, round.history);
      charged := i + now;
      if tracker != null { OnlyMoreTools(old(tracker.Value()), before.value, tracker.Value(), i, now); }
      if now == 1 { TakeOne(aliases, requests, round.calls, CallFor(aliases, request)); }
      assert host.executed[|old(host.executed)|..] ==
               round.calls + if now == 1 then [CallFor(aliases, request)] else [];
      if one.Err? {
        OneRequestCauses(one.error, host, tracker, requests, aliases, CanFail(observer), i);
        assert now == 0 ==> round.calls + [] == round.calls;
        return Err(one.error), [], charged;
      }
      var call := Call(request.id, aliases[request.name], request.arguments);
      ghost var message := ToolMessage(host.encode, request, one.value.0);
      RoundGrows(host.encode, requests, i, messages, round.calls, round.results, call, one.value.0);
      OutcomeOf(host.outputs, |old(host.executed)|, round.calls, round.results, call, one.value.0);
      if Mild(observer) {
        GrowWith(history, messages, observer, round.history, message, call, one.value.0, one.value.1);
      }
      if tracker != null { ChargedTools(before.value, tracker.Value(), 1); }
      messages := messages + [message];
      round := Round(round.calls + [call], round.results + [one.value.0], one.value.1);
    }
    assert requests[..|requests|] == requests;
    assert host.executed[|old(host.executed)|..] == round.calls;
    r := Ok(round);
  }

  // ------------------------------------------------------- The loop

  datatype LoopResult = LoopResult(answer: string, calls: seq<Call>, results: seq<ToolResult>, history: seq<Message>)

  // The token limit has a full request's worth per iteration and no call was granted more.
  ghost predicate FullBudget(l: Ledger, calls: seq<ModelCall>, limit: int, maxTokens: int) {
    l.limits.maxModelTokens == limit * l.limits.maxIterations && Modest(calls, limit) && 0 < maxTokens <= limit
  }

  // Running out of iterations or tool calls is excluded, and running out of tokens is
  // the model's own doing.
  ghost predicate NotStarved(e: LoopError, replies: nat -> Reply, from: nat, to: nat, maxTokens: int) {
    && e != Budget(Exhausted(Iterations)) && e != Budget(Exhausted(ToolCalls))
    && (e == Budget(Exhausted(ModelTokens)) ==> exists i :: from <= i < to && OverReports(replies(i), maxTokens))
  }

  // Room for that many more tool calls and a model call for each and one more.
  ghost predicate Ample(l: Ledger, calls: seq<ModelCall>, limit: int, maxTokens: int, room: int) {
    && FullBudget(l, calls, limit, maxTokens)
    && l.usage.iterations + room + 1 <= l.limits.maxIterations && l.usage.toolCalls + room <= l.limits.maxToolCalls
  }

  // Every request from that one on asks for as much.
  predicate AllAsk(sent: seq<Prompt>, from: nat, maxTokens: int) {
    forall i :: from <= i < |sent| ==> sent[i].maxTokens == maxTokens
  }

  // Why a model call fails.
  ghost predicate ModelCause(e: LoopError, host: Host, tracker: Tracker?, from: nat)
    reads host`sent, tracker
  {
    match e
    case Budget(Exhausted(ContextTokens)) =>
      tracker != null && tracker.usage.contextTokens + host.contextSizes(|host.sent|) > tracker.limits.maxContextTokens
    case Budget(Exhausted(Iterations)) => tracker != null && tracker.usage.iterations >= tracker.limits.maxIterations
    case Budget(Exhausted(ModelTokens)) =>
      tracker != null && (tracker.usage.modelTokens >= tracker.limits.maxModelTokens ||
                          (|host.sent| > from && OverReports(host.replies(|host.sent| - 1),
                              host.sent[|host.sent| - 1].maxTokens)))
    case UpstreamFailed => |host.sent| > from && host.replies(|host.sent| - 1).Failed?
    case _ => false
  }

  ghost predicate LastReply(host: Host, from: nat)
    reads host`sent
  {
    |host.sent| > from && host.replies(|host.sent| - 1).Reply?
  }

  predicate BlankAnswer(m: Message) {
    m.requests == [] && (m.content.None? || Text.TrimSpace(m.content.value) == "")
  }

  // Why a run of the loop fails: what the last reply was, or which limit is reached. The
  // calls a reply asks for are too many when, with those already executed, there is no
  // room for them.
  ghost predicate Cause(e: LoopError, host: Host, tracker: Tracker?, from: nat, room: int, aliases: map<string, string>,
                        observed: bool)
    reads host`sent, host`executed, tracker
  {
    || ModelCause(e, host, tracker, from)
    || match e
       case Budget(_) => ChargeFails(e, host, tracker)
       case EmptyAnswer => LastReply(host, from) && BlankAnswer(host.replies(|host.sent| - 1).message)
       case TooManyCalls => LastReply(host, from)
         && |host.executed| + |host.replies(|host.sent| - 1).message.requests| > room
       case _ => LastReply(host, from) && ToolCause(e, host, tracker, host.replies(|host.sent| - 1).message.requests,
                                                    aliases, observed)
  }

  lemma CompleteCauseIsModelCause(e: LoopError, c: Completion, host: Host, tracker: Tracker, from: nat, size: nat,
                                  reply: Reply)
    requires CompleteCause(e, c, size, reply) && c.ledger == tracker.Value()
    requires c.sent.Some? ==>
               |host.sent| > from && reply == host.replies(|host.sent| - 1)
                   && host.sent[|host.sent| - 1].maxTokens == c.sent.value
    requires c.sent.None? ==> size == host.contextSizes(|host.sent|)
    ensures ModelCause(e, host, tracker, from)
  {
  }

  lemma ModelCauseIsCause(e: LoopError, host: Host, tracker: Tracker?, from: nat, room: int, aliases: map<string,
                          string>, observed: bool)
    requires ModelCause(e, host, tracker, from)
    ensures Cause(e, host, tracker, from, room, aliases, observed) && e != InvalidLimits
  {
  }

  lemma ToolCauseIsCause(e: LoopError, host: Host, tracker: Tracker?, from: nat, room: int, aliases: map<string,
                         string>, observed: bool)
    requires LastReply(host, from) && ToolCause(e, host, tracker, host.replies(|host.sent| - 1).message.requests,
                                                aliases, observed)
    ensures Cause(e, host, tracker, from, room, aliases, observed) && e != InvalidLimits
  {
  }

  lemma NoTrackerCause(host: Host, from: nat)
    requires |host.sent| > from && host.replies(|host.sent| - 1).Failed?
    ensures ModelCause(UpstreamFailed, host, null, from)
  {
  }

  // One model call, with what it does to the budget.
  method NextMessage(host: Host, tracker: Tracker?, messages: seq<Message>, maxTokens: int, ghost limit: int)
    returns (r: Result<Message, LoopError>)
    requires tracker != null ==> tracker.Valid()
    modifies host`sent, tracker
    ensures tracker != null ==> tracker.Valid()
    ensures |old(host.sent)| <= |host.sent| <= |old(host.sent)| + 1 && host.sent[..|old(host.sent)|] == old(host.sent)
    ensures r.Ok? ==> |host.sent| == |old(host.sent)| + 1
    ensures |host.sent| > |old(host.sent)| ==> host.sent[|old(host.sent)|].messages == messages
    ensures tracker != null ==>
              && tracker.usage.iterations == old(tracker.usage.iterations) + |host.sent| - |old(host.sent)|
              && tracker.usage.toolCalls == old(tracker.usage.toolCalls)
    ensures tracker != null && old(FullBudget(tracker.Value(), tracker.calls, limit, maxTokens))
            && old(tracker.usage.iterations) < tracker.limits.maxIterations ==>
              && FullBudget(tracker.Value(), tracker.calls, limit, maxTokens)
              && (|host.sent| > |old(host.sent)| ==> host.sent[|old(host.sent)|].maxTokens == maxTokens)
              && (r.Err? ==> NotStarved(r.error, host.replies, |old(host.sent)|, |host.sent|, maxTokens))
    ensures r.Ok? ==> LastReply(host, |old(host.sent)|) && r.value == host.replies(|host.sent| - 1).message
    ensures r.Err? && maxTokens > 0 ==> ModelCause(r.error, host, tracker, |old(host.sent)|)
  {
    hide CompleteStep, Inv, CompleteCause, ModelCause;
    ghost var l, calls, size, reply := if tracker == null then None else Some(tracker.Value()), if tracker == null
        then [] else tracker.calls,
      host.contextSizes(|host.sent|), host.replies(|host.sent|);
    if tracker != null {
      if maxTokens > 0 { CompleteHasCause(tracker.Value(), tracker.calls, size, maxTokens, reply); }
      CompleteSpends(tracker.Value(), tracker.calls, host.contextSizes(|host.sent|), maxTokens,
                     host.replies(|host.sent|));
      if FullBudget(tracker.Value(), tracker.calls, limit, maxTokens)
          && tracker.usage.iterations < tracker.limits.maxIterations {
        CompleteInFull(tracker.Value(), tracker.calls, host.contextSizes(|host.sent|), maxTokens,
                       host.replies(|host.sent|), limit);
      }
    }
    r := CompleteBudgeted(host, tracker, messages, maxTokens);
    if r.Err? && maxTokens > 0 {
      if tracker == null {
        NoTrackerCause(host, |old(host.sent)|);
      } else {
        var c := CompleteStep(l.value, calls, size, maxTokens, reply);
        CompleteCauseIsModelCause(r.error, c, host, tracker, |old(host.sent)|, size, reply);
      }
    }
  }

  function AnswerOf(m: Message): string {
    if m.requests != [] || m.content.None? then "" else Text.TrimSpace(m.content.value)
  }

  lemma AnswerIs(m: Message)
    requires m.requests == [] && m.content.Some?
    ensures AnswerOf(m) == Text.TrimSpace(m.content.value)
  {
  }

  lemma BlankIsCause(host: Host, tracker: Tracker?, from: nat, room: int, aliases: map<string, string>, observed: bool,
                     m: Message)
    requires LastReply(host, from) && m == host.replies(|host.sent| - 1).message
    requires m.requests == [] && (m.content.None? || Text.TrimSpace(m.content.value) == "")
    ensures Cause(EmptyAnswer, host, tracker, from, room, aliases, observed)
  {
  }

  lemma TooManyIsCause(host: Host, tracker: Tracker?, from: nat, room: int, aliases: map<string, string>,
                       observed: bool, m: Message)
    requires LastReply(host, from) && m == host.replies(|host.sent| - 1).message
             && |host.executed| + |m.requests| > room
    ensures Cause(TooManyCalls, host, tracker, from, room, aliases, observed)
  {
  }

  lemma NothingAnswered(encode: ToolResult -> string)
    ensures Answered(encode, [], [], [])
  {
  }

  lemma NextRound(encode: ToolResult -> string, tail: seq<Message>, calls: seq<Call>, results: seq<ToolResult>,
                  message: Message, messages: seq<Message>, cs: seq<Call>, rs: seq<ToolResult>)
    requires Answered(encode, tail, calls, results) && RoundOk(encode, message.requests, messages, cs, rs)
    ensures Answered(encode, tail + ([message] + messages), calls + cs, results + rs)
  {
    hide Answered, RoundOk;
    NothingAnswered(encode);
    OneMoreRound(encode, message, messages, cs, rs, [], [], []);
    assert [message] + messages + [] == [message] + messages && cs + [] == cs && rs + [] == rs;
    AnsweredAppend(encode, tail, calls, results, [message] + messages, cs, rs);
  }

  lemma ToolsKeepBudget(before: Ledger, after: Ledger, charged: nat, calls: seq<ModelCall>, limit: int, maxTokens: int)
    requires OnlyTools(before, after, charged) && FullBudget(before, calls, limit, maxTokens)
    ensures FullBudget(after, calls, limit, maxTokens)
  {
  }

  lemma AskedNext(replies: nat -> Reply, from: nat, to: nat)
    requires from <= to
    ensures Asked(replies, from, to + 1) == Asked(replies, from, to) + AskedBy(replies(to))
  {
  }

  lemma NothingAsked(replies: nat -> Reply, from: nat)
    ensures Asked(replies, from, from) == [] && Echoes([], replies, from, from)
  {
  }

  lemma EchoNext(tail: seq<Message>, replies: nat -> Reply, from: nat, to: nat, messages: seq<Message>)
    requires from <= to && Echoes(tail, replies, from, to) && replies(to).Reply?
    requires |messages| == |replies(to).message.requests|
    ensures Echoes(tail + ([Named(replies(to).message, |Asked(replies, from, to)|)] + messages), replies, from, to + 1)
  {
    hide Named, Asked;
    var whole := tail + ([Named(replies(to).message, |Asked(replies, from, to)|)] + messages);
    assert whole[..|tail|] == tail;
  }

  // Named calls that are taken serve what the reply asked for.
  lemma TakenServe(aliases: map<string, string>, message: Message, done: nat, calls: seq<Call>)
    requires Takes(aliases, Named(message, done).requests, calls)
    ensures Serves(aliases, message.requests, done, calls)
  {
    hide Text.IsName, Text.Decimal;
    forall k | 0 <= k < |calls|
      ensures message.requests[k].name in aliases && calls[k].name == aliases[message.requests[k].name]
      ensures calls[k].arguments == message.requests[k].arguments
      ensures calls[k].id == if Text.IsName(message.requests[k].id) then message.requests[k].id
                             else "call_" + Text.Decimal(done + k + 1)
    {
      assert Named(message, done).requests[k] == Renamed(message.requests[k], done + k + 1);
    }
  }

  lemma ServeMore(aliases: map<string, string>, asked: seq<Request>, calls: seq<Call>, more: seq<Request>,
                  cs: seq<Call>)
    requires Serves(aliases, asked, 0, calls) && |calls| == |asked| && Serves(aliases, more, |calls|, cs)
    ensures Serves(aliases, asked + more, 0, calls + cs)
  {
    hide Text.IsName, Text.Decimal;
    forall k | |calls| <= k < |calls + cs|
      ensures (asked + more)[k] == more[k - |calls|] && (calls + cs)[k] == cs[k - |calls|]
    {
    }
  }

  lemma OutcomesMore(outputs: nat -> Output, first: nat, calls: seq<Call>, results: seq<ToolResult>, cs: seq<Call>,
                     rs: seq<ToolResult>)
    requires Outcomes(outputs, first, calls, results) && Outcomes(outputs, first + |calls|, cs, rs)
    ensures Outcomes(outputs, first, calls + cs, results + rs)
  {
    forall k | 0 <= k < |calls + cs|
      ensures (results + rs)[k] == ToolResult((calls + cs)[k].id, (calls + cs)[k].name, outputs(first + k))
    {
      if k >= |calls| { assert (results + rs)[k] == rs[k - |calls|]; }
    }
  }

  // A reply and the round of its calls carry the run on.
  lemma FollowedOn(host: Host, aliases: map<string, string>, from: nat, to: nat, first: nat, tail: seq<Message>,
                   calls: seq<Call>, results: seq<ToolResult>, messages: seq<Message>, cs: seq<Call>,
                   rs: seq<ToolResult>)
    requires from <= to && host.replies(to).Reply? && Followed(host, aliases, from, to, first, tail, calls, results)
    requires var message := Named(host.replies(to).message, |calls|);
             RoundOk(host.encode, message.requests, messages, cs, rs) && Takes(aliases, message.requests, cs)
    requires Outcomes(host.outputs, first + |calls|, cs, rs)
    ensures Followed(host, aliases, from, to + 1, first,
                     tail + ([Named(host.replies(to).message, |calls|)] + messages), calls + cs, results + rs)
  {
    hide Answered, RoundOk, Echoes, Takes, Serves, Outcomes, Asked;
    var message := host.replies(to).message;
    RoundSizes(host.encode, Named(message, |calls|).requests, messages, cs, rs);
    NextRound(host.encode, tail, calls, results, Named(message, |calls|), messages, cs, rs);
    EchoNext(tail, host.replies, from, to, messages);
    TakenServe(aliases, message, |calls|, cs);
    AskedNext(host.replies, from, to);
    ServeMore(aliases, Asked(host.replies, from, to), calls, message.requests, cs);
    OutcomesMore(host.outputs, first, calls, results, cs, rs);
  }

  lemma NothingFollowed(host: Host, aliases: map<string, string>, from: nat, first: nat)
    ensures Followed(host, aliases, from, from, first, [], [], [])
  {
    NothingAnswered(host.encode);
    NothingAsked(host.replies, from);
  }

  // The last reply asks for nothing.
  lemma FollowedToAnswer(host: Host, aliases: map<string, string>, from: nat, to: nat, first: nat, tail: seq<Message>,
                         calls: seq<Call>, results: seq<ToolResult>)
    requires from <= to && Followed(host, aliases, from, to, first, tail, calls, results)
    requires host.replies(to).Reply? && host.replies(to).message.requests == []
    ensures Followed(host, aliases, from, to + 1, first, tail + [host.replies(to).message], calls, results)
  {
    hide Followed, RoundOk, Takes, Outcomes;
    var message := host.replies(to).message;
    assert Named(message, |calls|) == message;
    NothingRound(host.encode);
    NothingTaken(aliases, [], host.outputs, first + |calls|);
    FollowedOn(host, aliases, from, to, first, tail, calls, results, [], [], []);
    assert [message] + [] == [message] && calls + [] == calls && results + [] == results;
  }

  lemma GrowOn(h: seq<Message>, tail: seq<Message>, observer: Option<Observer>, h1: seq<Message>, more: seq<Message>,
               h2: seq<Message>)
    requires Grown(h, tail, observer, h1) && Grown(h1, more, observer, h2)
    ensures Grown(h, tail + more, observer, h2)
  {
    assert h + (tail + more) == h + tail + more;
    if h != [] && h[0].role == "system" {
      assert (h + tail + more)[1..] == (h + tail)[1..] + more;
      assert (h1 + more)[1..] == h1[1..] + more;
    }
  }

  lemma NamedCause(e: LoopError, host: Host, tracker: Tracker?, message: Message, done: nat,
                   aliases: map<string, string>, observed: bool)
    requires ToolCause(e, host, tracker, Named(message, done).requests, aliases, observed)
    ensures ToolCause(e, host, tracker, message.requests, aliases, observed)
  {
    hide Text.IsName, Text.Decimal;
    var named := Named(message, done).requests;
    forall k | 0 <= k < |named|
      ensures named[k].kind == message.requests[k].kind && named[k].name == message.requests[k].name
    {
      assert named[k] == Renamed(message.requests[k], done + k + 1);
    }
  }

  // One round: names the calls, executes them and extends the result.
  method ToolTurn(host: Host, tracker: Tracker?, message: Message, aliases: map<string, string>,
                  observer: Option<Observer>, result: LoopResult, ghost limit: int, ghost maxTokens: int)
    returns (r: Result<LoopResult, LoopError>, ghost messages: seq<Message>)
    requires tracker != null ==> tracker.Valid()
    modifies host`executed, tracker
    ensures tracker != null ==> tracker.Valid() && tracker.usage.iterations == old(tracker.usage.iterations)
    ensures tracker != null && old(FullBudget(tracker.Value(), tracker.calls, limit, maxTokens)) ==>
              FullBudget(tracker.Value(), tracker.calls, limit, maxTokens)
    ensures old(host.executed) <= host.executed && |host.executed| <= |old(host.executed)| + |message.requests|
    ensures Takes(aliases, Named(message, |result.calls|).requests, host.executed[|old(host.executed)|..])
    ensures r.Ok? ==>
              && |result.calls| <= |r.value.calls| && |result.results| <= |r.value.results|
              && var cs, rs := r.value.calls[|result.calls|..], r.value.results[|result.results|..];
                 && r.value.calls == result.calls + cs && r.value.results == result.results + rs
                 && RoundOk(host.encode, Named(message, |result.calls|).requests, messages, cs, rs)
                 && host.executed == old(host.executed) + cs
                 && Outcomes(host.outputs, |old(host.executed)|, cs, rs)
    ensures r.Ok? && Mild(observer) ==>
              Grown(result.history, [Named(message, |result.calls|)] + messages, observer, r.value.history)
    ensures tracker != null ==>
              tracker.usage.toolCalls == old(tracker.usage.toolCalls) + |host.executed| - |old(host.executed)|
    ensures r.Err? ==>
              OtherThanCalls(r.error) && ToolCause(r.error, host, tracker, message.requests, aliases, CanFail(observer))
    ensures tracker != null && old(tracker.usage.toolCalls) + |message.requests| <= tracker.limits.maxToolCalls ==>
              r != Err(Budget(Exhausted(ToolCalls)))
  {
    hide RoundOk, FullBudget, Inv, BudgetModel.Apply, Renamed, Takes, Outcomes, Mild, CanFail, Grown, ToolCause;
    var renamed := RenameCalls(message, |result.calls|);
    ghost var charged;
    var round;
    round, messages, charged := ExecuteRequests(host, tracker, renamed.requests, aliases, observer,
                                                result.history + [renamed]);
    if tracker != null && old(FullBudget(tracker.Value(), tracker.calls, limit, maxTokens)) {
      ToolsKeepBudget(old(tracker.Value()), tracker.Value(), charged, tracker.calls, limit, maxTokens);
    }
    if round.Err? {
      NamedCause(round.error, host, tracker, message, |result.calls|, aliases, CanFail(observer));
      return Err(round.error), [];
    }
    if Mild(observer) {
      NothingGrown(result.history, observer);
      GrowOne(result.history, [], observer, result.history, renamed);
      assert [] + [renamed] == [renamed];
      GrowOn(result.history, [renamed], observer, result.history + [renamed], messages, round.value.history);
    }
    r := Ok(LoopResult("", result.calls + round.value.calls, result.results + round.value.results,
                       round.value.history));
    assert r.value.calls[|result.calls|..] == round.value.calls;
    assert r.value.results[|result.results|..] == round.value.results;
  }

  lemma OthersAreNotStarved(e: LoopError, replies: nat -> Reply, from: nat, to: nat, maxTokens: int)
    requires OtherThanCalls(e) && e != Budget(Exhausted(ToolCalls))
    ensures NotStarved(e, replies, from, to, maxTokens)
  {
  }

  lemma ServesNothing(host: Host, aliases: map<string, string>, from: nat, done: nat)
    ensures forall to :: from <= to ==> Serves(aliases, Asked(host.replies, from, to), done, [])
  {
  }

  // What the last request was answered with is all that is asked for since.
  lemma ItReplied(host: Host, from: nat, message: Message)
    requires LastReply(host, from) && |host.sent| == from + 1 && message == host.replies(from).message
    ensures host.replies(from).Reply? && Asked(host.replies, from, from + 1) == message.requests
  {
    NothingAsked(host.replies, from);
    AskedNext(host.replies, from, from);
    assert [] + message.requests == message.requests;
  }

  lemma FollowedAligns(host: Host, aliases: map<string, string>, from: nat, to: nat, first: nat, tail: seq<Message>,
                       calls: seq<Call>, results: seq<ToolResult>)
    requires Followed(host, aliases, from, to, first, tail, calls, results)
    ensures |calls| == |results|
    ensures forall i :: 0 <= i < |calls| ==> calls[i].id == results[i].id && calls[i].name in aliases.Values
  {
    hide Answered, Echoes, Text.IsName, Text.Decimal;
  }

  lemma NamedSize(message: Message, done: nat)
    ensures |Named(message, done).requests| == |message.requests|
  {
  }

  // A reply without requests is the answer, unless it is blank.
  method Conclude(host: Host, message: Message, aliases: map<string, string>, observer: Option<Observer>,
                  result: LoopResult, ghost tail: seq<Message>, ghost start: nat, ghost from: nat, ghost first: nat)
    returns (r: Result<LoopResult, LoopError>, ghost tail': seq<Message>)
    requires start <= from && Followed(host, aliases, start, from, first, tail, result.calls, result.results)
    requires host.replies(from).Reply? && message == host.replies(from).message && message.requests == []
    ensures r.Err? ==>
              r.error == EmptyAnswer && (message.content.None? || Text.TrimSpace(message.content.value) == "")
    ensures r.Ok? ==>
              && Followed(host, aliases, start, from + 1, first, tail', r.value.calls, r.value.results)
              && r.value.calls == result.calls && tail <= tail'
              && AnswerOf(message) == r.value.answer && Text.TrimSpace(r.value.answer) == r.value.answer != ""
              && (Mild(observer) ==> Grown(result.history, tail'[|tail|..], observer, r.value.history))
  {
    hide AnswerOf, Followed, Text.TrimSpace, Mild, Grown;
    if message.content.None? || Text.TrimSpace(message.content.value) == "" { return Err(EmptyAnswer), []; }
    AnswerIs(message);
    Text.TrimTwice(message.content.value);
    FollowedToAnswer(host, aliases, start, from, first, tail, result.calls, result.results);
    if Mild(observer) {
      NothingGrown(result.history, observer);
      GrowOne(result.history, [], observer, result.history, message);
      assert [] + [message] == [message];
    }
    tail' := tail + [message];
    assert tail'[|tail|..] == [message];
    r := Ok(LoopResult(Text.TrimSpace(message.content.value), result.calls, result.results,
                       result.history + [message]));
  }

  // A round of tools that answers the reply.
  method ToolRound(host: Host, tracker: Tracker?, message: Message, aliases: map<string, string>,
                   observer: Option<Observer>, result: LoopResult, ghost limit: int, ghost maxTokens: int,
                   ghost tail: seq<Message>, ghost start: nat, ghost from: nat, ghost first: nat)
    returns (r: Result<LoopResult, LoopError>, ghost tail': seq<Message>)
    requires tracker != null ==> tracker.Valid()
    requires start <= from && Followed(host, aliases, start, from, first, tail, result.calls, result.results)
    requires host.replies(from).Reply? && message == host.replies(from).message
    requires |host.executed| == first + |result.calls|
    modifies host`executed, tracker
    ensures tracker != null ==> tracker.Valid() && tracker.usage.iterations == old(tracker.usage.iterations)
    ensures tracker != null && old(FullBudget(tracker.Value(), tracker.calls, limit, maxTokens)) ==>
              FullBudget(tracker.Value(), tracker.calls, limit, maxTokens)
    ensures old(host.executed) <= host.executed && |host.executed| <= |old(host.executed)| + |message.requests|
    ensures Serves(aliases, message.requests, |result.calls|, host.executed[|old(host.executed)|..])
    ensures r.Ok? ==>
              && Followed(host, aliases, start, from + 1, first, tail', r.value.calls, r.value.results)
              && result.calls <= r.value.calls && |r.value.calls| == |result.calls| + |message.requests|
              && host.executed == old(host.executed) + r.value.calls[|result.calls|..]
              && tail <= tail' && (Mild(observer) ==> Grown(result.history, tail'[|tail|..], observer, r.value.history))
    ensures tracker != null ==>
              tracker.usage.toolCalls == old(tracker.usage.toolCalls) + |host.executed| - |old(host.executed)|
    ensures r.Err? ==>
              OtherThanCalls(r.error) && ToolCause(r.error, host, tracker, message.requests, aliases, CanFail(observer))
    ensures tracker != null && old(tracker.usage.toolCalls) + |message.requests| <= tracker.limits.maxToolCalls ==>
              r != Err(Budget(Exhausted(ToolCalls)))
  {
    hide ToolCause, Followed, FullBudget, Inv, OtherThanCalls, CanFail, Mild, Grown, Serves, Takes, Outcomes, RoundOk,
        Named;
    ghost var messages;
    tail' := [];
    r, messages := ToolTurn(host, tracker, message, aliases, observer, result, limit, maxTokens);
    TakenServe(aliases, message, |result.calls|, host.executed[|old(host.executed)|..]);
    if r.Err? { return; }
    ghost var added := [Named(message, |result.calls|)] + messages;
    FollowedAligns(host, aliases, start, from, first, tail, result.calls, result.results);
    ghost var cs, rs := r.value.calls[|result.calls|..], r.value.results[|result.results|..];
    FollowedOn(host, aliases, start, from, first, tail, result.calls, result.results, messages, cs, rs);
    RoundSizes(host.encode, Named(message, |result.calls|).requests, messages, cs, rs);
    NamedSize(message, |result.calls|);
    tail' := tail + added;
    assert tail'[|tail|..] == added;
  }

  // One iteration: a model call, then the answer or one round of tools.
  method Iterate(host: Host, tracker: Tracker?, aliases: map<string, string>, maxCalls: int, maxTokens: int,
                 observer: Option<Observer>,
                 result: LoopResult, ghost tail: seq<Message>, ghost start: nat, ghost first: nat, ghost limit: int)
    returns (r: Result<LoopResult, LoopError>, done: bool, ghost tail': seq<Message>)
    requires tracker != null ==> tracker.Valid()
    requires maxTokens > 0 && |result.calls| <= maxCalls && start <= |host.sent|
    requires Followed(host, aliases, start, |host.sent|, first, tail, result.calls, result.results)
    requires |host.executed| == first + |result.calls|
    modifies host`sent, host`executed, tracker
    ensures tracker != null ==> tracker.Valid()
    ensures |old(host.sent)| <= |host.sent| <= |old(host.sent)| + 1 && host.sent[..|old(host.sent)|] == old(host.sent)
    ensures tracker != null ==>
              tracker.usage.iterations == old(tracker.usage.iterations) + |host.sent| - |old(host.sent)|
    ensures |host.sent| > |old(host.sent)| ==> host.sent[|old(host.sent)|].messages == result.history
    ensures r.Ok? ==>
              && |host.sent| == |old(host.sent)| + 1
              && Followed(host, aliases, start, |host.sent|, first, tail', r.value.calls, r.value.results)
              && result.calls <= r.value.calls && |r.value.calls| <= maxCalls
              && (done <==> |r.value.calls| == |result.calls|)
              && host.executed == old(host.executed) + r.value.calls[|result.calls|..]
              && tail <= tail' && (Mild(observer) ==> Grown(result.history, tail'[|tail|..], observer, r.value.history))
    ensures old(host.executed) <= host.executed && |host.executed| <= |old(host.executed)| + maxCalls - |result.calls|
    ensures Serves(aliases, Asked(host.replies, |old(host.sent)|, |host.sent|), |result.calls|,
                   host.executed[|old(host.executed)|..])
    ensures r.Ok? && done ==>
              && LastReply(host, |old(host.sent)|) && AnswerOf(host.replies(|host.sent| - 1).message) == r.value.answer
              && Text.TrimSpace(r.value.answer) == r.value.answer != ""
    ensures tracker != null ==>
              tracker.usage.toolCalls == old(tracker.usage.toolCalls) + |host.executed| - |old(host.executed)|
    ensures r.Err? ==>
              && r.error != InvalidLimits
              && Cause(r.error, host, tracker, |old(host.sent)|, |old(host.executed)| + maxCalls - |result.calls|,
                       aliases, CanFail(observer))
    ensures tracker != null && old(Ample(tracker.Value(), tracker.calls, limit, maxTokens,
                                         maxCalls - |result.calls|)) ==>
              && FullBudget(tracker.Value(), tracker.calls, limit, maxTokens)
              && (r.Ok? && !done ==>
                  Ample(tracker.Value(), tracker.calls, limit, maxTokens, maxCalls - |r.value.calls|))
              && AllAsk(host.sent, |old(host.sent)|, maxTokens)
              && (r.Err? ==> NotStarved(r.error, host.replies, |old(host.sent)|, |host.sent|, maxTokens))
  {
    hide Cause, ToolCause, LastReply, AnswerOf, Followed, FullBudget, Inv, Text.TrimSpace, OverReports, OtherThanCalls,
        CanFail, Mild, Grown, Serves, Asked, SameTurns;
    tail', done := [], false;
    ghost var room := |host.executed| + maxCalls - |result.calls|;
    ServesNothing(host, aliases, |host.sent|, |result.calls|);
    var answer := NextMessage(host, tracker, result.history, maxTokens, limit);
    assert host.executed[|old(host.executed)|..] == [];
    if answer.Err? {
      ModelCauseIsCause(answer.error, host, tracker, |old(host.sent)|, room, aliases, CanFail(observer));
      return Err(answer.error), false, [];
    }
    var message := answer.value;
    ItReplied(host, |old(host.sent)|, message);
    if |message.requests| == 0 {
      r, tail' := Conclude(host, message, aliases, observer, result, tail, start, |old(host.sent)|, first);
      done := r.Ok?;
      if r.Err? { BlankIsCause(host, tracker, |old(host.sent)|, room, aliases, CanFail(observer), message); }
      return;
    }
    if |result.calls| + |message.requests| > maxCalls {
      TooManyIsCause(host, tracker, |old(host.sent)|, room, aliases, CanFail(observer), message);
      return Err(TooManyCalls), false, [];
    }
    r, tail' := ToolRound(host, tracker, message, aliases, observer, result, limit, maxTokens, tail, start,
                          |old(host.sent)|, first);
    if r.Err? {
      ToolCauseIsCause(r.error, host, tracker, |old(host.sent)|, room, aliases, CanFail(observer));
      if r.error != Budget(Exhausted(ToolCalls)) {
        OthersAreNotStarved(r.error, host.replies, |old(host.sent)|, |host.sent|, maxTokens);
      }
    }
  }

  lemma EarlierStarved(e: LoopError, replies: nat -> Reply, from: nat, first: nat, to: nat, maxTokens: int)
    requires from <= first && NotStarved(e, replies, first, to, maxTokens)
    ensures NotStarved(e, replies, from, to, maxTokens)
  {
  }

  lemma NobodyAsks(sent: seq<Prompt>, maxTokens: int)
    ensures AllAsk(sent, |sent|, maxTokens)
  {
  }

  lemma MoreAsk(sent: seq<Prompt>, from: nat, first: nat, maxTokens: int)
    requires from <= first <= |sent| && AllAsk(sent[..first], from, maxTokens) && AllAsk(sent, first, maxTokens)
    ensures AllAsk(sent, from, maxTokens)
  {
    forall i | from <= i < |sent| ensures sent[i].maxTokens == maxTokens {
      if i < first { assert sent[i] == sent[..first][i]; }
    }
  }

  lemma EarlierReply(host: Host, from: nat, first: nat)
    requires from <= first && LastReply(host, first)
    ensures LastReply(host, from)
  {
  }

  lemma EarlierCause(e: LoopError, host: Host, tracker: Tracker?, from: nat, first: nat, room: int, aliases: map<string,
                     string>, observed: bool)
    requires from <= first && Cause(e, host, tracker, first, room, aliases, observed)
    ensures Cause(e, host, tracker, from, room, aliases, observed)
  {
  }

  lemma AskedJoin(replies: nat -> Reply, from: nat, mid: nat, until: nat)
    requires from <= mid <= until
    ensures Asked(replies, from, until) == Asked(replies, from, mid) + Asked(replies, mid, until)
    decreases until
  {
    if mid < until {
      AskedJoin(replies, from, mid, until - 1);
      AskedNext(replies, from, until - 1);
      AskedNext(replies, mid, until - 1);
    }
  }

  lemma ServedSoFar(host: Host, aliases: map<string, string>, from: nat, mid: nat, to: nat, first: nat,
                    tail: seq<Message>, calls: seq<Call>, results: seq<ToolResult>, cs: seq<Call>)
    requires from <= mid <= to && Followed(host, aliases, from, mid, first, tail, calls, results)
    requires Serves(aliases, Asked(host.replies, mid, to), |calls|, cs)
    ensures Serves(aliases, Asked(host.replies, from, to), 0, calls + cs)
  {
    hide Answered, Echoes, Serves, Outcomes, Asked;
    AskedJoin(host.replies, from, mid, to);
    ServeMore(aliases, Asked(host.replies, from, mid), calls, Asked(host.replies, mid, to), cs);
  }

  lemma {:induction false} EchoSize(tail: seq<Message>, replies: nat -> Reply, from: nat, until: nat)
    requires from <= until && Echoes(tail, replies, from, until)
    ensures |tail| == until - from + |Asked(replies, from, until)|
    decreases until
  {
    if from < until {
      hide Named;
      EchoSize(tail[..|tail| - 1 - |AskedBy(replies(until - 1))|], replies, from, until - 1);
      AskedNext(replies, from, until - 1);
    } else {
      NothingAsked(replies, from);
    }
  }

  // What a step adds to the transcript: a reply and an answer to each of its requests.
  lemma AddedSize(host: Host, aliases: map<string, string>, from: nat, to: nat, first: nat, tail: seq<Message>,
                  calls: seq<Call>, results: seq<ToolResult>, tail': seq<Message>, calls': seq<Call>,
                  results': seq<ToolResult>)
    requires from <= to && Followed(host, aliases, from, to, first, tail, calls, results)
    requires Followed(host, aliases, from, to + 1, first, tail', calls', results')
    ensures |tail'| == |tail| + 1 + |AskedBy(host.replies(to))|
  {
    hide Answered, Echoes, Serves, Outcomes, Asked;
    EchoSize(tail, host.replies, from, to);
    EchoSize(tail', host.replies, from, to + 1);
    AskedNext(host.replies, from, to);
  }

  lemma {:induction false} SamePrompts(h: seq<Message>, tail: seq<Message>, observer: Option<Observer>,
                                       replies: nat -> Reply, sent: seq<Prompt>, more: seq<Prompt>, from: nat,
                                       until: nat)
    requires until <= |sent| && Prompted(h, tail, observer, replies, sent, from, until) && sent <= more
    ensures Prompted(h, tail, observer, replies, more, from, until)
    decreases until
  {
    hide Grown;
    if until > from {
      SamePrompts(h, tail[..|tail| - 1 - |AskedBy(replies(until - 1))|], observer, replies, sent, more, from,
                  until - 1);
    }
  }

  lemma PromptedStep(h: seq<Message>, tail: seq<Message>, observer: Option<Observer>, replies: nat -> Reply,
                     sent: seq<Prompt>, from: nat, to: nat, tail': seq<Message>)
    requires from <= to < |sent| && Prompted(h, tail, observer, replies, sent, from, to)
    requires Grown(h, tail, observer, sent[to].messages)
    requires tail <= tail' && |tail'| == |tail| + 1 + |AskedBy(replies(to))|
    ensures Prompted(h, tail', observer, replies, sent, from, to + 1)
  {
    hide Grown, AskedBy;
    assert tail'[..|tail|] == tail;
  }

  lemma LastIsPrompted(h: seq<Message>, tail: seq<Message>, observer: Option<Observer>, replies: nat -> Reply,
                       sent: seq<Prompt>, from: nat, to: nat)
    requires to + 1 == |sent| && Prompted(h, tail, observer, replies, sent, from, to)
    requires Grown(h, tail, observer, sent[to].messages)
    ensures AllPrompted(h, tail, observer, replies, sent, from)
  {
    hide Grown, Prompted;
  }

  lemma PromptedAreAll(h: seq<Message>, tail: seq<Message>, observer: Option<Observer>, replies: nat -> Reply,
                       sent: seq<Prompt>, from: nat)
    requires Prompted(h, tail, observer, replies, sent, from, |sent|)
    ensures AllPrompted(h, tail, observer, replies, sent, from)
  {
    hide Prompted;
  }

  lemma NothingPrompted(h: seq<Message>, observer: Option<Observer>, replies: nat -> Reply, sent: seq<Prompt>)
    ensures Prompted(h, [], observer, replies, sent, |sent|, |sent|)
    ensures AllPrompted(h, [], observer, replies, sent, |sent|)
  {
    PromptedAreAll(h, [], observer, replies, sent, |sent|);
  }

  // The rounds of the loop, from a checked history on.
  method Rounds(host: Host, history: seq<Message>, aliases: map<string, string>, maxCalls: nat, maxTokens: int,
                tracker: Tracker?,
                observer: Option<Observer>, ghost limit: int)
    returns (r: Result<LoopResult, LoopError>, ghost tail: seq<Message>)
    requires (tracker != null ==> tracker.Valid()) && maxTokens > 0
    modifies host`sent, host`executed, tracker
    ensures tracker != null ==> tracker.Valid()
    ensures |old(host.sent)| <= |host.sent| <= |old(host.sent)| + maxCalls + 1
            && host.sent[..|old(host.sent)|] == old(host.sent)
    ensures r.Ok? ==>
              && |r.value.calls| <= maxCalls && host.executed == old(host.executed) + r.value.calls
              && Followed(host, aliases, |old(host.sent)|, |host.sent|, |old(host.executed)|, tail, r.value.calls,
                          r.value.results)
              && (Mild(observer) ==> Grown(history, tail, observer, r.value.history))
              && (Mild(observer) ==> Prompted(history, tail, observer, host.replies, host.sent, |old(host.sent)|,
                                              |host.sent|))
              && Text.TrimSpace(r.value.answer) == r.value.answer != ""
              && LastReply(host, |old(host.sent)|) && AnswerOf(host.replies(|host.sent| - 1).message) == r.value.answer
    ensures Mild(observer) ==> AllPrompted(history, tail, observer, host.replies, host.sent, |old(host.sent)|)
    ensures old(host.executed) <= host.executed && |host.executed| <= |old(host.executed)| + maxCalls
    ensures Serves(aliases, Asked(host.replies, |old(host.sent)|, |host.sent|), 0,
                   host.executed[|old(host.executed)|..])
    ensures tracker != null ==>
              && tracker.usage.toolCalls == old(tracker.usage.toolCalls) + |host.executed| - |old(host.executed)|
              && tracker.usage.iterations == old(tracker.usage.iterations) + |host.sent| - |old(host.sent)|
    ensures tracker != null && old(Ample(tracker.Value(), tracker.calls, limit, maxTokens, maxCalls)) ==>
              && FullBudget(tracker.Value(), tracker.calls, limit, maxTokens)
                  && AllAsk(host.sent, |old(host.sent)|, maxTokens)
              && (r.Err? ==> NotStarved(r.error, host.replies, |old(host.sent)|, |host.sent|, maxTokens))
    ensures r.Err? ==>
              && r.error != InvalidLimits
              && Cause(r.error, host, tracker, |old(host.sent)|, |old(host.executed)| + maxCalls, aliases,
                       CanFail(observer))
  {
    hide Cause, LastReply, AnswerOf, Followed, FullBudget, Inv, Text.TrimSpace, OverReports, NotStarved, Ample, AllAsk,
        CanFail, Mild, Grown, Serves, Asked, AskedBy, Ran, Prompted, AllPrompted;
    tail := [];
    NothingPrompted(history, observer, host.replies, host.sent);
    NobodyAsks(host.sent, maxTokens);
    NothingFollowed(host, aliases, |host.sent|, |host.executed|);
    NothingGrown(history, observer);
    var result := LoopResult("", [], [], history);
    ghost var ample := tracker != null && Ample(tracker.Value(), tracker.calls, limit, maxTokens, maxCalls);
    while true
      invariant tracker != null ==> tracker.Valid()
      invariant |old(host.sent)| <= |host.sent| <= |old(host.sent)| + |result.calls|
      invariant host.sent[..|old(host.sent)|] == old(host.sent)
      invariant |result.calls| <= maxCalls && host.executed == old(host.executed) + result.calls
      invariant Followed(host, aliases, |old(host.sent)|, |host.sent|, |old(host.executed)|, tail, result.calls,
                         result.results)
      invariant Mild(observer) ==>
        && Grown(history, tail, observer, result.history)
        && Prompted(history, tail, observer, host.replies, host.sent, |old(host.sent)|, |host.sent|)
      invariant tracker != null ==>
        && tracker.usage.toolCalls == old(tracker.usage.toolCalls) + |result.calls|
        && tracker.usage.iterations == old(tracker.usage.iterations) + |host.sent| - |old(host.sent)|
      invariant ample ==> Ample(tracker.Value(), tracker.calls, limit, maxTokens, maxCalls - |result.calls|)
      invariant ample ==> AllAsk(host.sent, |old(host.sent)|, maxTokens)
      decreases maxCalls - |result.calls|
    {
      ghost var first, sent := |host.sent|, host.sent;
      ghost var next;
      var step, done;
      step, done, next := Iterate(host, tracker, aliases, maxCalls, maxTokens, observer, result, tail,
                                  |old(host.sent)|, |old(host.executed)|, limit);
      ServedSoFar(host, aliases, |old(host.sent)|, first, |host.sent|, |old(host.executed)|, tail, result.calls,
                  result.results, host.executed[|old(host.executed)| + |result.calls|..]);
      assert host.executed[|old(host.executed)|..] ==
               result.calls + host.executed[|old(host.executed)| + |result.calls|..];
      if ample { MoreAsk(host.sent, |old(host.sent)|, first, maxTokens); }
      if step.Err? {
        if ample { EarlierStarved(step.error, host.replies, |old(host.sent)|, first, |host.sent|, maxTokens); }
        EarlierCause(step.error, host, tracker, |old(host.sent)|, first, |old(host.executed)| + maxCalls, aliases,
                     CanFail(observer));
        if Mild(observer) {
          if |host.sent| == first {
            assert host.sent == sent;
            PromptedAreAll(history, tail, observer, host.replies, host.sent, |old(host.sent)|);
          } else {
            SamePrompts(history, tail, observer, host.replies, sent, host.sent, |old(host.sent)|, first);
            LastIsPrompted(history, tail, observer, host.replies, host.sent, |old(host.sent)|, first);
          }
        }
        return Err(step.error), tail;
      }
      AddedSize(host, aliases, |old(host.sent)|, first, |old(host.executed)|, tail, result.calls, result.results, next,
                step.value.calls, step.value.results);
      if Mild(observer) {
        SamePrompts(history, tail, observer, host.replies, sent, host.sent, |old(host.sent)|, first);
        PromptedStep(history, tail, observer, host.replies, host.sent, |old(host.sent)|, first, next);
        PromptedAreAll(history, next, observer, host.replies, host.sent, |old(host.sent)|);
        GrowOn(history, tail, observer, result.history, next[|tail|..], step.value.history);
        assert tail + next[|tail|..] == next;
      }
      result, tail := step.value, next;
      if done {
        EarlierReply(host, |old(host.sent)|, first);
        return Ok(result), tail;
      }
    }
  }

  // At most maxCalls + 1 model calls, whatever the model answers.
  method RunToolLoop(host: Host, history: seq<Message>, aliases: map<string, string>, maxCalls: int, maxTokens: int,
                     temperature: real,
                     tracker: Tracker?, observer: Option<Observer>, ghost limit: int)
    returns (r: Result<LoopResult, LoopError>, ghost tail: seq<Message>)
    requires tracker != null ==> tracker.Valid()
    modifies host`sent, host`executed, tracker
    ensures tracker != null ==> tracker.Valid()
    ensures history == [] || maxCalls < 0 || maxTokens <= 0 || temperature < 0.0 ==>
              r == Err(InvalidLimits) && host.sent == old(host.sent) && host.executed == old(host.executed)
    ensures maxCalls >= 0 ==> |host.sent| <= |old(host.sent)| + maxCalls + 1
    ensures |host.sent| >= |old(host.sent)| && host.sent[..|old(host.sent)|] == old(host.sent)
    ensures r.Ok? ==>
              && |r.value.calls| <= maxCalls && |r.value.calls| == |r.value.results|
              && Text.TrimSpace(r.value.answer) == r.value.answer != ""
              && (forall i :: 0 <= i < |r.value.calls| ==>
                  r.value.calls[i].id == r.value.results[i].id && r.value.calls[i].name in aliases.Values)
              && host.executed == old(host.executed) + r.value.calls
              && Followed(host, aliases, |old(host.sent)|, |host.sent|, |old(host.executed)|, tail, r.value.calls,
                          r.value.results)
              && (Mild(observer) ==>
                    && Grown(history, tail, observer, r.value.history)
                    && Prompted(history, tail, observer, host.replies, host.sent, |old(host.sent)|, |host.sent|))
    ensures Mild(observer) ==> AllPrompted(history, tail, observer, host.replies, host.sent, |old(host.sent)|)
    ensures old(host.executed) <= host.executed
            && (maxCalls >= 0 ==> |host.executed| <= |old(host.executed)| + maxCalls)
    ensures Serves(aliases, Asked(host.replies, |old(host.sent)|, |host.sent|), 0,
                   host.executed[|old(host.executed)|..])
    ensures tracker != null ==>
              tracker.usage.toolCalls == old(tracker.usage.toolCalls) + |host.executed| - |old(host.executed)|
    ensures tracker != null ==>
              tracker.usage.iterations == old(tracker.usage.iterations) + |host.sent| - |old(host.sent)|
    ensures tracker != null && maxCalls >= 0
            && old(Ample(tracker.Value(), tracker.calls, limit, maxTokens, maxCalls)) ==>
              && FullBudget(tracker.Value(), tracker.calls, limit, maxTokens)
                  && AllAsk(host.sent, |old(host.sent)|, maxTokens)
              && (r.Err? ==> NotStarved(r.error, host.replies, |old(host.sent)|, |host.sent|, maxTokens))
    ensures r.Ok? ==>
              LastReply(host, |old(host.sent)|) && AnswerOf(host.replies(|host.sent| - 1).message) == r.value.answer
    ensures r.Err? && r.error != InvalidLimits ==>
              Cause(r.error, host, tracker, |old(host.sent)|, |old(host.executed)| + maxCalls, aliases,
                    CanFail(observer))
    ensures r == Err(InvalidLimits) ==> history == [] || maxCalls < 0 || maxTokens <= 0 || temperature < 0.0
  {
    hide Cause, LastReply, AnswerOf, Followed, Inv, Text.TrimSpace, OverReports, Mild, CanFail, Grown, Serves, Asked,
        Prompted, AllPrompted;
    NothingPrompted(history, observer, host.replies, host.sent);
    ServesNothing(host, aliases, |host.sent|, 0);
    assert host.executed[|host.executed|..] == [];
    if |history| == 0 || maxCalls < 0 || maxTokens <= 0 || temperature < 0.0 { return Err(InvalidLimits), []; }
    r, tail := Rounds(host, history, aliases, maxCalls, maxTokens, tracker, observer, limit);
    if r.Ok? {
      FollowedAligns(host, aliases, |old(host.sent)|, |host.sent|, |old(host.executed)|, tail, r.value.calls,
                     r.value.results);
    }
  }
}
