// The run budget: a reservation ledger for model tokens and five plain counters.

module BudgetModel {
  import opened Wrappers

  datatype Limits = Limits(maxDuration: int, maxIterations: int, maxToolCalls: int, maxToolResultBytes: int,
                           maxRetrievedBytes: int, maxContextTokens: int, maxModelTokens: int)

  predicate LimitsOk(l: Limits) {
    && l.maxDuration > 0 && l.maxIterations > 0 && l.maxToolCalls >= 0 && l.maxToolResultBytes > 0
    && l.maxRetrievedBytes > 0 && l.maxContextTokens > 0 && l.maxModelTokens > 0
    && l.maxRetrievedBytes <= l.maxToolResultBytes
  }

  datatype Usage = Usage(iterations: int, toolCalls: int, toolResultBytes: int, retrievedBytes: int, contextTokens: int,
                         modelTokens: int)

  datatype Ledger = Ledger(limits: Limits, usage: Usage, reserved: map<int, int>, nextId: int)

  datatype Dimension = Iterations | ModelTokens | ToolCalls | ToolResultBytes | RetrievedBytes | ContextTokens

  datatype BudgetError = InvalidRequest | UnknownReservation | NegativeSize | Exhausted(dimension: Dimension)

  datatype Grant = NoGrant | Grant(id: int, allowed: int)

  datatype Op = Begin(requested: int) | Finish(id: int, reported: int) | CountToolCall
              | CountToolResult(size: int, retrieved: bool) | CountContext(size: int)

  datatype Outcome = Outcome(ledger: Ledger, result: Result<Grant, BudgetError>)

  function Empty(limits: Limits): Ledger {
    Ledger(limits, Usage(0, 0, 0, 0, 0, 0), map[], 0)
  }

  function Apply(l: Ledger, op: Op): Outcome {
    var u, m := l.usage, l.limits;
    match op
    case Begin(requested) =>
      if requested <= 0 then Outcome(l, Err(InvalidRequest))
      else if u.iterations >= m.maxIterations then Outcome(l, Err(Exhausted(Iterations)))
      else if m.maxModelTokens - u.modelTokens <= 0 then Outcome(l, Err(Exhausted(ModelTokens)))
      else
        var remaining := m.maxModelTokens - u.modelTokens;
        var allowed := if requested > remaining then remaining else requested;
        Outcome(l.(nextId := l.nextId + 1, reserved := l.reserved[l.nextId + 1 := allowed],
                usage := u.(iterations := u.iterations + 1, modelTokens := u.modelTokens + allowed)),
                Ok(Grant(l.nextId + 1, allowed)))
    case Finish(id, reported) =>
      if id !in l.reserved then Outcome(l, Err(UnknownReservation))
      else
        var reserved := l.reserved[id];
        var closed := l.(reserved := l.reserved - {id});
        if reported < 0 then Outcome(closed, Ok(NoGrant))
        else if reported > reserved then Outcome(closed, Err(Exhausted(ModelTokens)))
        else Outcome(closed.(usage := u.(modelTokens := u.modelTokens - (reserved - reported))), Ok(NoGrant))
    case CountToolCall =>
      if u.toolCalls >= m.maxToolCalls then Outcome(l, Err(Exhausted(ToolCalls)))
      else Outcome(l.(usage := u.(toolCalls := u.toolCalls + 1)), Ok(NoGrant))
    case CountToolResult(size, retrieved) =>
      if size < 0 then Outcome(l, Err(NegativeSize))
      else if u.toolResultBytes + size > m.maxToolResultBytes then Outcome(l, Err(Exhausted(ToolResultBytes)))
      else if retrieved && u.retrievedBytes + size > m.maxRetrievedBytes then Outcome(l, Err(Exhausted(RetrievedBytes)))
      else Outcome(l.(usage := u.(toolResultBytes := u.toolResultBytes + size,
                                  retrievedBytes := if retrieved then u.retrievedBytes + size else u.retrievedBytes)),
                   Ok(NoGrant))
    case CountContext(size) =>
      if size < 0 then Outcome(l, Err(NegativeSize))
      else if u.contextTokens + size > m.maxContextTokens then Outcome(l, Err(Exhausted(ContextTokens)))
      else Outcome(l.(usage := u.(contextTokens := u.contextTokens + size)), Ok(NoGrant))
  }

  // ------------------------------------------------------- The bill

  // What the callers saw: one entry per granted call, in order, with its report if finished.
  datatype ModelCall = ModelCall(granted: int, report: Option<int>)

  // Tokens a finished call is charged: its report if trustworthy, else the whole grant.
  function SettledCost(c: ModelCall): int
    requires c.report.Some?
  {
    if 0 <= c.report.value <= c.granted then c.report.value else c.granted
  }

  function OpenTotal(calls: seq<ModelCall>): int {
    if calls == [] then 0
    else OpenTotal(calls[..|calls| - 1]) + if calls[|calls| - 1].report.None? then calls[|calls| - 1].granted else 0
  }

  function SettledTotal(calls: seq<ModelCall>): int {
    if calls == [] then 0
    else SettledTotal(calls[..|calls| - 1]) + if calls[|calls| - 1].report.Some? then SettledCost(calls[|calls| - 1])
    else 0
  }

  predicate IsOpen(calls: seq<ModelCall>, id: int) {
    1 <= id <= |calls| && calls[id - 1].report.None?
  }

  // The history after an operation, from its result alone.
  function Observe(calls: seq<ModelCall>, op: Op, result: Result<Grant, BudgetError>): seq<ModelCall> {
    match op
    case Begin(_) => if result.Ok? && result.value.Grant? then calls + [ModelCall(result.value.allowed, None)]
      else calls
    case Finish(id, reported) => if IsOpen(calls, id) then calls[id - 1 := calls[id - 1].(report := Some(reported))]
      else calls
    case _ => calls
  }

  ghost predicate ReservedOk(reserved: map<int, int>, calls: seq<ModelCall>) {
    && (forall id :: id in reserved <==> IsOpen(calls, id))
    && (forall id :: id in reserved ==> reserved[id] == calls[id - 1].granted)
  }

  predicate CountersOk(u: Usage, m: Limits) {
    && 0 <= u.toolCalls <= m.maxToolCalls
    && 0 <= u.retrievedBytes <= u.toolResultBytes <= m.maxToolResultBytes
    && u.retrievedBytes <= m.maxRetrievedBytes
    && 0 <= u.contextTokens <= m.maxContextTokens
  }

  // Conservation: the token counter is the open reservations plus the settled charges.
  ghost predicate Inv(l: Ledger, calls: seq<ModelCall>) {
    && LimitsOk(l.limits)
    && l.usage.modelTokens == OpenTotal(calls) + SettledTotal(calls)
    && 0 <= l.usage.modelTokens <= l.limits.maxModelTokens
    && l.nextId == |calls| == l.usage.iterations <= l.limits.maxIterations
    && (forall i :: 0 <= i < |calls| ==> calls[i].granted > 0)
    && ReservedOk(l.reserved, calls)
    && CountersOk(l.usage, l.limits)
  }

  lemma TotalsAppend(calls: seq<ModelCall>, c: ModelCall)
    ensures OpenTotal(calls + [c]) == OpenTotal(calls) + if c.report.None? then c.granted else 0
    ensures SettledTotal(calls + [c]) == SettledTotal(calls) + if c.report.Some? then SettledCost(c) else 0
  {
    assert (calls + [c])[..|calls|] == calls;
  }

  // Finishing a call moves its grant from the open total to the settled one.
  lemma {:induction false} TotalsFinish(calls: seq<ModelCall>, i: nat, reported: int)
    requires i < |calls| && calls[i].report.None?
    ensures var after := calls[i := calls[i].(report := Some(reported))];
            OpenTotal(after) == OpenTotal(calls) - calls[i].granted &&
            SettledTotal(after) == SettledTotal(calls) + SettledCost(after[i])
  {
    var n := |calls| - 1;
    var after := calls[i := calls[i].(report := Some(reported))];
    if i < n {
      TotalsFinish(calls[..n], i, reported);
      assert after[..n] == calls[..n][i := calls[i].(report := Some(reported))];
    } else {
      assert after[..n] == calls[..n];
    }
  }

  lemma {:induction false} TotalsSign(calls: seq<ModelCall>, limit: int)
    requires forall i :: 0 <= i < |calls| ==> 0 < calls[i].granted <= limit
    ensures 0 <= OpenTotal(calls) && 0 <= SettledTotal(calls)
            && OpenTotal(calls) + SettledTotal(calls) <= limit * |calls|
  {
    if calls != [] {
      var n := |calls| - 1;
      TotalsSign(calls[..n], limit);
      assert limit * |calls| == limit * n + limit;
    }
  }

  lemma {:induction false} TotalsNotNegative(calls: seq<ModelCall>)
    requires forall i :: 0 <= i < |calls| ==> calls[i].granted > 0
    ensures 0 <= OpenTotal(calls) && 0 <= SettledTotal(calls)
  {
    if calls != [] { TotalsNotNegative(calls[..|calls| - 1]); }
  }

  lemma BeginKeepsInv(l: Ledger, calls: seq<ModelCall>, requested: int)
    requires Inv(l, calls)
    ensures var o := Apply(l, Begin(requested)); Inv(o.ledger, Observe(calls, Begin(requested), o.result))
  {
    hide OpenTotal, SettledTotal;
    var o := Apply(l, Begin(requested));
    if o.result.Ok? { TotalsAppend(calls, ModelCall(o.result.value.allowed, None)); }
  }

  lemma FinishKeepsInv(l: Ledger, calls: seq<ModelCall>, id: int, reported: int)
    requires Inv(l, calls)
    ensures var o := Apply(l, Finish(id, reported)); Inv(o.ledger, Observe(calls, Finish(id, reported), o.result))
  {
    hide OpenTotal, SettledTotal;
    if id in l.reserved {
      TotalsFinish(calls, id - 1, reported);
      TotalsNotNegative(calls[id - 1 := calls[id - 1].(report := Some(reported))]);
    }
  }

  lemma StepKeepsInv(l: Ledger, calls: seq<ModelCall>, op: Op)
    requires Inv(l, calls)
    ensures Inv(Apply(l, op).ledger, Observe(calls, op, Apply(l, op).result))
  {
    match op {
      case Begin(requested) => BeginKeepsInv(l, calls, requested);
      case Finish(id, reported) => FinishKeepsInv(l, calls, id, reported);
      case _ => hide OpenTotal, SettledTotal, ReservedOk;
    }
  }

  // ------------------------------------------------------- The counters

  // What an operation adds to the plain counters when it is accepted.
  function Cost(op: Op): Usage {
    match op
    case CountToolCall => Usage(0, 1, 0, 0, 0, 0)
    case CountToolResult(size, retrieved) => Usage(0, 0, size, if retrieved then size else 0, 0, 0)
    case CountContext(size) => Usage(0, 0, 0, 0, size, 0)
    case _ => Usage(0, 0, 0, 0, 0, 0)
  }

  function Plus(u: Usage, v: Usage): Usage {
    Usage(u.iterations + v.iterations, u.toolCalls + v.toolCalls, u.toolResultBytes + v.toolResultBytes,
          u.retrievedBytes + v.retrievedBytes, u.contextTokens + v.contextTokens, u.modelTokens + v.modelTokens)
  }

  // The usage without what model calls change.
  function Counters(u: Usage): Usage {
    u.(iterations := 0, modelTokens := 0)
  }

  function Total(ops: seq<Op>): Usage {
    if ops == [] then Usage(0, 0, 0, 0, 0, 0) else Plus(Cost(ops[0]), Total(ops[1..]))
  }

  // A recording is accepted exactly when its size is not negative and its whole cost
  // fits all the limits, and then it adds that cost; a refused one changes nothing.
  lemma RecordingFits(l: Ledger, calls: seq<ModelCall>, op: Op)
    requires Inv(l, calls) && !op.Begin? && !op.Finish?
    ensures var o := Apply(l, op);
            && (o.result.Ok? <==> (op.CountToolCall? || op.size >= 0) && CountersOk(Plus(l.usage, Cost(op)), l.limits))
            && o.ledger == if o.result.Ok? then l.(usage := Plus(l.usage, Cost(op))) else l
  {
    hide ReservedOk, OpenTotal, SettledTotal;
  }

  lemma CountersStep(l: Ledger, op: Op)
    ensures Counters(Apply(l, op).ledger.usage) ==
              if Apply(l, op).result.Ok? then Plus(Counters(l.usage), Cost(op)) else Counters(l.usage)
  {
  }

  function Execute(l: Ledger, ops: seq<Op>): Ledger
    decreases |ops|
  {
    if ops == [] then l else Execute(Apply(l, ops[0]).ledger, ops[1..])
  }

  function History(l: Ledger, calls: seq<ModelCall>, ops: seq<Op>): seq<ModelCall>
    decreases |ops|
  {
    if ops == [] then calls
    else
      var o := Apply(l, ops[0]);
      History(o.ledger, Observe(calls, ops[0], o.result), ops[1..])
  }

  // The accepted operations of a run.
  function Accepted(l: Ledger, ops: seq<Op>): seq<Op>
    decreases |ops|
  {
    if ops == [] then []
    else
      var o := Apply(l, ops[0]);
      (if o.result.Ok? then [ops[0]] else []) + Accepted(o.ledger, ops[1..])
  }

  lemma RunStep(l: Ledger, ops: seq<Op>)
    requires ops != []
    ensures var o := Apply(l, ops[0]);
            && Execute(l, ops) == Execute(o.ledger, ops[1..])
            && Total(Accepted(l, ops)) ==
               if o.result.Ok? then Plus(Cost(ops[0]), Total(Accepted(o.ledger, ops[1..])))
               else Total(Accepted(o.ledger, ops[1..]))
  {
    hide Apply, Cost, Plus;
    var later := Accepted(Apply(l, ops[0]).ledger, ops[1..]);
    assert ([ops[0]] + later)[1..] == later && [] + later == later;
  }

  lemma NothingRecorded(l: Ledger)
    ensures Counters(Execute(l, []).usage) == Plus(Counters(l.usage), Total(Accepted(l, [])))
  {
  }

  lemma PlusTwice(u: Usage, v: Usage, w: Usage)
    ensures Plus(Plus(u, v), w) == Plus(u, Plus(v, w))
  {
  }

  lemma {:induction false} CountersAreRecorded(l: Ledger, ops: seq<Op>)
    ensures Counters(Execute(l, ops).usage) == Plus(Counters(l.usage), Total(Accepted(l, ops)))
    decreases |ops|
  {
    if ops == [] {
      NothingRecorded(l);
    } else {
      hide Apply, Cost, Execute, Accepted, Total, Plus, Counters;
      var later := Total(Accepted(Apply(l, ops[0]).ledger, ops[1..]));
      CountersStep(l, ops[0]);
      RunStep(l, ops);
      PlusTwice(Counters(l.usage), Cost(ops[0]), later);
      CountersAreRecorded(Apply(l, ops[0]).ledger, ops[1..]);
    }
  }

  // Any interleaving of calls, finished in any order or never, keeps the ledger
  // balanced, and each plain counter is what the accepted recordings add up to.
  lemma {:induction false} EveryRunBalances(l: Ledger, calls: seq<ModelCall>, ops: seq<Op>)
    requires Inv(l, calls)
    ensures Inv(Execute(l, ops), History(l, calls, ops))
    ensures Counters(Execute(l, ops).usage) == Plus(Counters(l.usage), Total(Accepted(l, ops)))
    decreases |ops|
  {
    hide Inv, Apply, Accepted, Total, Plus;
    CountersAreRecorded(l, ops);
    if ops != [] {
      var o := Apply(l, ops[0]);
      StepKeepsInv(l, calls, ops[0]);
      EveryRunBalances(o.ledger, Observe(calls, ops[0], o.result), ops[1..]);
    }
  }

  // A model call is granted exactly when something is requested and an iteration and a
  // token are left; the grant is the request, or all that is left when that is less.
  lemma GrantIsMost(l: Ledger, calls: seq<ModelCall>, requested: int)
    requires Inv(l, calls)
    ensures var o, left := Apply(l, Begin(requested)), l.limits.maxModelTokens - l.usage.modelTokens;
            && (o.result.Ok? <==> requested > 0 && |calls| < l.limits.maxIterations && left > 0)
            && (o.result.Ok? ==>
                  && o.result.value.Grant? && o.result.value.id == |calls| + 1
                  && o.result.value.allowed <= requested && o.result.value.allowed <= left
                  && (o.result.value.allowed == requested || o.result.value.allowed == left))
            && (o.result.Err? ==> o.ledger == l)
  {
    hide OpenTotal, SettledTotal, ReservedOk;
  }

  // Finishing answers from the history alone: an open call is closed once, and only a
  // report above its grant is an error.
  lemma FinishAnswers(l: Ledger, calls: seq<ModelCall>, id: int, reported: int)
    requires Inv(l, calls)
    ensures Apply(l, Finish(id, reported)).result ==
              if !IsOpen(calls, id) then Err(UnknownReservation)
              else if reported > calls[id - 1].granted then Err(Exhausted(ModelTokens))
              else Ok(NoGrant)
  {
    hide OpenTotal, SettledTotal;
  }

  lemma EmptyBalances(limits: Limits)
    requires LimitsOk(limits)
    ensures Inv(Empty(limits), [])
  {
  }

  lemma TimesNext(limit: int, used: int)
    ensures limit * (used + 1) == limit * used + limit
  {
  }

  lemma {:induction false} TimesMore(limit: int, some: int, more: int)
    requires limit >= 0 && some <= more
    ensures limit * some <= limit * more
    decreases more - some
  {
    if some < more {
      TimesMore(limit, some, more - 1);
      TimesNext(limit, more - 1);
    }
  }

  lemma RoomLeft(limit: int, used: int, most: int)
    requires limit >= 0 && used + 1 <= most
    ensures limit * used + limit <= limit * most
  {
    TimesMore(limit, used + 1, most);
    TimesNext(limit, used);
  }

  // With room for a full request per iteration, no request is ever cut and the token
  // limit never refuses one.
  lemma RequestGrantedInFull(l: Ledger, calls: seq<ModelCall>, limit: int, requested: int)
    requires Inv(l, calls) && l.limits.maxModelTokens == limit * l.limits.maxIterations
    requires (forall i :: 0 <= i < |calls| ==> calls[i].granted <= limit) && 0 < requested <= limit
    ensures Apply(l, Begin(requested)).result ==
              if l.usage.iterations < l.limits.maxIterations then Ok(Grant(l.nextId + 1, requested))
              else Err(Exhausted(Iterations))
  {
    TotalsSign(calls, limit);
    if l.usage.iterations < l.limits.maxIterations {
      RoomLeft(limit, l.usage.iterations, l.limits.maxIterations);
    }
  }
}

module RunBudget {
  import opened Wrappers
  import opened BudgetModel

  lemma ReservationIsOpen(l: Ledger, calls: seq<ModelCall>, id: int)
    requires Inv(l, calls)
    ensures id in l.reserved <==> IsOpen(calls, id)
  {
  }

  class Tracker {
    const limits: Limits
    var usage: Usage
    var reserved: map<int, int>
    var nextId: int
    // The history of granted calls.
    ghost var calls: seq<ModelCall>

    ghost function Value(): Ledger
      reads this
    {
      Ledger(limits, usage, reserved, nextId)
    }

    ghost predicate Valid()
      reads this
    {
      Inv(Value(), calls)
    }

    constructor (limits: Limits)
      requires LimitsOk(limits)
      ensures Valid() && this.limits == limits && Value() == Empty(limits) && calls == []
    {
      this.limits := limits;
      usage, reserved, nextId := Usage(0, 0, 0, 0, 0, 0), map[], 0;
      calls := [];
      new;
      EmptyBalances(limits);
    }

    method BeginModelCall(requestedTokens: int) returns (r: Result<Grant, BudgetError>)
      requires Valid()
      modifies this
      ensures var o := Apply(old(Value()), Begin(requestedTokens));
              r == o.result && Value() == o.ledger && calls == Observe(old(calls), Begin(requestedTokens), r)
      ensures r.Ok? ==> r.value.Grant? && 0 < r.value.allowed <= requestedTokens
      ensures Valid()
    {
      hide Inv;
      StepKeepsInv(Value(), calls, Begin(requestedTokens));
      if requestedTokens <= 0 { return Err(InvalidRequest); }
      if usage.iterations >= limits.maxIterations { return Err(Exhausted(Iterations)); }
      var remaining := limits.maxModelTokens - usage.modelTokens;
      if remaining <= 0 { return Err(Exhausted(ModelTokens)); }
      var allowed := requestedTokens;
      if allowed > remaining { allowed := remaining; }
      nextId := nextId + 1;
      reserved := reserved[nextId := allowed];
      usage := usage.(iterations := usage.iterations + 1);
      usage := usage.(modelTokens := usage.modelTokens + allowed);
      calls := calls + [ModelCall(allowed, None)];
      r := Ok(Grant(nextId, allowed));
    }

    method FinishModelCall(reservationId: int, reportedTokens: int) returns (r: Result<Grant, BudgetError>)
      requires Valid()
      modifies this
      ensures var op := Finish(reservationId, reportedTokens);
              var o := Apply(old(Value()), op);
              r == o.result && Value() == o.ledger && calls == Observe(old(calls), op, r)
      ensures Valid()
    {
      hide Inv;
      StepKeepsInv(Value(), calls, Finish(reservationId, reportedTokens));
      ReservationIsOpen(Value(), calls, reservationId);
      if reservationId !in reserved { return Err(UnknownReservation); }
      var held := reserved[reservationId];
      reserved := reserved - {reservationId};
      calls := calls[reservationId - 1 := calls[reservationId - 1].(report := Some(reportedTokens))];
      if reportedTokens < 0 { return Ok(NoGrant); }
      if reportedTokens > held { return Err(Exhausted(ModelTokens)); }
      usage := usage.(modelTokens := usage.modelTokens - (held - reportedTokens));
      r := Ok(NoGrant);
    }

    method RecordToolCall() returns (r: Result<Grant, BudgetError>)
      requires Valid()
      modifies this`usage
      ensures var o := Apply(old(Value()), CountToolCall); r == o.result && Value() == o.ledger
      ensures Valid()
    {
      hide Inv;
      StepKeepsInv(Value(), calls, CountToolCall);
      if usage.toolCalls >= limits.maxToolCalls { return Err(Exhausted(ToolCalls)); }
      usage := usage.(toolCalls := usage.toolCalls + 1);
      r := Ok(NoGrant);
    }

    method RecordToolResult(size: int, retrievedContext: bool) returns (r: Result<Grant, BudgetError>)
      requires Valid()
      modifies this`usage
      ensures var o := Apply(old(Value()), CountToolResult(size, retrievedContext));
              r == o.result && Value() == o.ledger
      ensures Valid()
    {
      hide Inv;
      StepKeepsInv(Value(), calls, CountToolResult(size, retrievedContext));
      if size < 0 { return Err(NegativeSize); }
      if usage.toolResultBytes + size > limits.maxToolResultBytes { return Err(Exhausted(ToolResultBytes)); }
      if retrievedContext && usage.retrievedBytes + size > limits.maxRetrievedBytes {
        return Err(Exhausted(RetrievedBytes));
      }
      usage := usage.(toolResultBytes := usage.toolResultBytes + size);
      if retrievedContext { usage := usage.(retrievedBytes := usage.retrievedBytes + size); }
      r := Ok(NoGrant);
    }

    method RecordContextBytes(size: int) returns (r: Result<Grant, BudgetError>)
      requires Valid()
      modifies this`usage
      ensures var o := Apply(old(Value()), CountContext(size)); r == o.result && Value() == o.ledger
      ensures Valid()
    {
      hide Inv;
      StepKeepsInv(Value(), calls, CountContext(size));
      if size < 0 { return Err(NegativeSize); }
      if usage.contextTokens + size > limits.maxContextTokens { return Err(Exhausted(ContextTokens)); }
      usage := usage.(contextTokens := usage.contextTokens + size);
      r := Ok(NoGrant);
    }
  }

  // New: refuses limits that Validate refuses.
  method New(limits: Limits) returns (r: Option<Tracker>)
    ensures r.Some? <==> LimitsOk(limits)
    ensures r.Some? ==>
              fresh(r.value) && r.value.Valid() && r.value.limits == limits && r.value.Value() == Empty(limits)
                  && r.value.calls == []
  {
    if !LimitsOk(limits) { return None; }
    var tracker := new Tracker(limits);
    r := Some(tracker);
  }
}
