// The audit log: what each live operation appends and does to the runs, and what a
// checked replay of the same records rebuilds.

module AuditMetadata {
  import Order
  import Text

  const MAXIMUM_METADATA := 32
  const MAXIMUM_VALUE_RUNES := 512

  type Metadata = map<string, string>

  function Bounded(s: string): string {
    Text.Bounded(s, MAXIMUM_VALUE_RUNES)
  }

  function LowerRune(c: char): char {
    if 'A' <= c <= 'Z' then 'a' + (c - 'A') else c
  }

  function Lower(s: string): (r: string)
    ensures |r| == |s| && forall i :: 0 <= i < |s| ==> r[i] == LowerRune(s[i])
  {
    seq(|s|, i requires 0 <= i < |s| => LowerRune(s[i]))
  }

  predicate OccursAt(s: string, word: string, i: nat)
    requires i <= |s|
  {
    word <= s[i..]
  }

  predicate Contains(s: string, word: string) {
    exists i :: 0 <= i <= |s| && OccursAt(s, word, i)
  }

  // Keys that name a credential are dropped.
  predicate Secret(key: string) {
    Contains(key, "authorization") || Contains(key, "api_key") || Contains(key, "apikey") ||
    Contains(key, "password") || Contains(key, "secret") || Contains(key, "token")
  }

  function NormalKey(key: string): string {
    Lower(Text.TrimSpace(key))
  }

  predicate Dropped(key: string) {
    NormalKey(key) == "" || Secret(NormalKey(key))
  }

  // The keys in order; a later key that normalises to the same name wins.
  function Kept(keys: seq<string>, input: Metadata): (m: Metadata)
    requires forall k :: k in keys ==> k in input
    ensures |m| <= |keys|
  {
    if keys == [] then map[]
    else
      var key := keys[|keys| - 1];
      var m := Kept(keys[..|keys| - 1], input);
      if Dropped(key) then m else m[Bounded(NormalKey(key)) := Bounded(input[key])]
  }

  function FirstKeys(keys: seq<string>): seq<string> {
    if |keys| > MAXIMUM_METADATA then keys[..MAXIMUM_METADATA] else keys
  }

  ghost function Sanitized(input: Metadata): Metadata {
    Kept(FirstKeys(Order.Keys(input.Keys)), input)
  }

  ghost function Merged(a: Metadata, b: Metadata): Metadata {
    Sanitized(Sanitized(a) + Sanitized(b))
  }

  // What may be stored: few, bounded, lower-case, non-empty keys, none naming a credential.
  ghost predicate Clean(m: Metadata) {
    && |m| <= MAXIMUM_METADATA
    && forall k :: k in m ==>
        0 < |k| <= MAXIMUM_VALUE_RUNES && Lower(k) == k && !Secret(k) && |m[k]| <= MAXIMUM_VALUE_RUNES
  }

  lemma ContainsInPrefix(s: string, n: nat, word: string)
    requires n <= |s| && Contains(s[..n], word)
    ensures Contains(s, word)
  {
    var i :| 0 <= i <= n && OccursAt(s[..n], word, i);
    assert s[..n][i..] == s[i..n] == s[i..][..n - i];
    assert OccursAt(s, word, i);
  }

  lemma CutKeyIsClean(key: string)
    requires !Dropped(key)
    ensures var k := Bounded(NormalKey(key)); 0 < |k| <= MAXIMUM_VALUE_RUNES && Lower(k) == k && !Secret(k)
  {
    hide Contains;
    var trimmed := Text.TrimSpace(key);
    var lo := Text.TrimSpaceParts(key);
    var name := NormalKey(key);
    assert Text.IsTrimmed(name);
    Text.TrimmedIsFixed(name);
    var k := Bounded(name);
    assert k == name[..|k|];
    forall word | Contains(k, word) ensures Contains(name, word) { ContainsInPrefix(name, |k|, word); }
  }

  lemma BoundedIsShort(s: string)
    ensures |Bounded(s)| <= MAXIMUM_VALUE_RUNES
  {
  }

  lemma {:induction false} KeptIsClean(keys: seq<string>, input: Metadata)
    requires (forall k :: k in keys ==> k in input) && |keys| <= MAXIMUM_METADATA
    ensures Clean(Kept(keys, input))
  {
    hide Dropped, NormalKey, Secret, Lower, Bounded;
    if keys != [] {
      KeptIsClean(keys[..|keys| - 1], input);
      var key := keys[|keys| - 1];
      BoundedIsShort(input[key]);
      if !Dropped(key) { CutKeyIsClean(key); }
    }
  }

  // Whatever a caller passes, only clean metadata reaches the log or a run.
  lemma SanitizedIsClean(input: Metadata)
    ensures Clean(Sanitized(input))
  {
    KeptIsClean(FirstKeys(Order.Keys(input.Keys)), input);
  }

  predicate KeptAs(key: string, k: string) {
    !Dropped(key) && Bounded(NormalKey(key)) == k
  }

  // Of the keys that are stored as k, this one is last.
  ghost predicate LastFor(keys: seq<string>, k: string, i: int) {
    0 <= i < |keys| && KeptAs(keys[i], k) && forall j :: i < j < |keys| ==> !KeptAs(keys[j], k)
  }

  // The last key stored as k gives its value, and what is stored has such a key.
  lemma {:induction false} KeptIsLast(keys: seq<string>, input: Metadata, k: string, i: int)
    requires (forall key :: key in keys ==> key in input) && LastFor(keys, k, i)
    ensures keys[i] in input && k in Kept(keys, input) && Kept(keys, input)[k] == Bounded(input[keys[i]])
  {
    hide Dropped, NormalKey, Bounded;
    var n := |keys| - 1;
    if i < n {
      assert LastFor(keys[..n], k, i);
      KeptIsLast(keys[..n], input, k, i);
      assert !KeptAs(keys[n], k);
    }
  }

  lemma {:induction false} KeptHasLast(keys: seq<string>, input: Metadata, k: string) returns (i: int)
    requires (forall key :: key in keys ==> key in input) && k in Kept(keys, input)
    ensures LastFor(keys, k, i)
  {
    hide Dropped, NormalKey, Bounded;
    var n := |keys| - 1;
    if KeptAs(keys[n], k) {
      i := n;
    } else {
      i := KeptHasLast(keys[..n], input, k);
    }
  }

  // The keys of two sanitised groups that merging considers.
  ghost function MergedKeys(a: Metadata, b: Metadata): seq<string> {
    FirstKeys(Order.Keys(Sanitized(a).Keys + Sanitized(b).Keys))
  }

  lemma UnionIsKept(x: Metadata, y: Metadata)
    ensures var keys := FirstKeys(Order.Keys(x.Keys + y.Keys));
            (forall key :: key in keys ==> key in x + y) && Sanitized(x + y) == Kept(keys, x + y)
  {
    hide Kept;
    assert (x + y).Keys == x.Keys + y.Keys;
  }

  lemma MergedIsKept(a: Metadata, b: Metadata)
    ensures var both := Sanitized(a) + Sanitized(b);
            (forall key :: key in MergedKeys(a, b) ==> key in both) && Merged(a, b) == Kept(MergedKeys(a, b), both)
  {
    hide Kept, Sanitized, FirstKeys, Order.Keys;
    UnionIsKept(Sanitized(a), Sanitized(b));
  }

  // Merging: what is stored as k comes from the last key stored as k, and of a key both
  // groups hold the later group's value counts.
  lemma LaterGroupWins(a: Metadata, b: Metadata, k: string, i: int)
    requires LastFor(MergedKeys(a, b), k, i)
    ensures var key := MergedKeys(a, b)[i];
            && (key in Sanitized(a) || key in Sanitized(b)) && k in Merged(a, b)
            && Merged(a, b)[k] == Bounded(if key in Sanitized(b) then Sanitized(b)[key] else Sanitized(a)[key])
  {
    hide Bounded, Kept, Sanitized, Merged, MergedKeys;
    MergedIsKept(a, b);
    KeptIsLast(MergedKeys(a, b), Sanitized(a) + Sanitized(b), k, i);
  }

  // Merging stores nothing else.
  lemma MergedHasLast(a: Metadata, b: Metadata, k: string) returns (i: int)
    requires k in Merged(a, b)
    ensures LastFor(MergedKeys(a, b), k, i)
  {
    hide Bounded, Kept, Sanitized, Merged, MergedKeys;
    MergedIsKept(a, b);
    i := KeptHasLast(MergedKeys(a, b), Sanitized(a) + Sanitized(b), k);
  }

  lemma KeptStep(keys: seq<string>, input: Metadata, i: nat)
    requires i < |keys| && forall k :: k in keys ==> k in input
    ensures keys[i] in input && (forall k :: k in keys[..i] ==> k in input)
            && (forall k :: k in keys[..i + 1] ==> k in input)
    ensures Kept(keys[..i + 1], input) ==
              if Dropped(keys[i]) then Kept(keys[..i], input)
              else Kept(keys[..i], input)[Bounded(NormalKey(keys[i])) := Bounded(input[keys[i]])]
  {
    hide Dropped, NormalKey, Bounded;
    assert keys[..i + 1][..i] == keys[..i];
    assert keys[i] in keys;
  }

  method Keep(keys: seq<string>, input: Metadata) returns (output: Metadata)
    requires forall k :: k in keys ==> k in input
    ensures output == Kept(keys, input)
  {
    hide Dropped, NormalKey, Bounded;
    output := map[];
    assert keys[..0] == [];
    for i := 0 to |keys|
      invariant forall k :: k in keys[..i] ==> k in input
      invariant output == Kept(keys[..i], input)
    {
      hide Kept;
      KeptStep(keys, input, i);
      if !Dropped(keys[i]) { output := output[Bounded(NormalKey(keys[i])) := Bounded(input[keys[i]])]; }
    }
    assert keys[..|keys|] == keys;
  }

  method Sanitize(input: Metadata) returns (output: Metadata)
    ensures output == Sanitized(input)
  {
    hide Kept, Order.Keys, Order.Less;
    var keys := Order.SortedKeys(input.Keys);
    Order.KeysAreSorted(input.Keys);
    Order.SortedIsUnique(keys, Order.Keys(input.Keys));
    if |keys| > MAXIMUM_METADATA { keys := keys[..MAXIMUM_METADATA]; }
    output := Keep(keys, input);
  }

  method Merge(a: Metadata, b: Metadata) returns (output: Metadata)
    ensures output == Merged(a, b)
  {
    var first := Sanitize(a);
    var second := Sanitize(b);
    output := Sanitize(first + second);
  }
}

module AuditModel {
  import opened Wrappers
  import opened AuditMetadata
  import Investigation
  import Text

  datatype Status = Running | Succeeded | Failed

  // Raw JSON is opaque; only its emptiness and validity matter.
  datatype Raw = Raw(text: string, valid: bool)

  datatype Event = Event(sequence: int, time: int, kind: string, status: string, metadata: Metadata, arguments: Raw,
                         result: Raw)

  datatype Run = Run(id: string, source: string, actor: string, workspace: string, model: string, status: Status,
                     startedAt: int, completedAt: Option<int>, error: string, metadata: Metadata, events: seq<Event>,
                     investigation: Option<Investigation.Finding>)

  type Runs = map<string, Run>

  datatype Kind = RunStarted | EventAdded | RunFinished | InvestigationSet | OtherKind

  const STORE_VERSION := 1

  datatype Record = Record(version: int, kind: Kind, run: Option<Run>, runId: string, event: Option<Event>,
                           status: Option<Status>, time: Option<int>, error: string, meta: Metadata,
                           investigation: Option<Investigation.Finding>)

  datatype AuditError = MissingSource | NotRunning | InvalidJson | EmptyType | InvalidStatus | InvalidFinding
                      | AppendFailed
                      | InvalidStart | DuplicateRun | InvalidEvent | InvalidFinish | InvalidInvestigation | UnknownKind
                      | BadVersion

  function NoRecord(kind: Kind): Record {
    Record(STORE_VERSION, kind, None, "", None, None, None, "", map[], None)
  }

  function StartRecord(run: Run): Record {
    NoRecord(RunStarted).(run := Some(run))
  }

  function EventRecord(runId: string, event: Event): Record {
    NoRecord(EventAdded).(runId := runId, event := Some(event))
  }

  function FinishRecord(runId: string, status: Status, time: int, error: string, meta: Metadata): Record {
    NoRecord(RunFinished).(runId := runId, status := Some(status), time := Some(time), error := error, meta := meta)
  }

  function InvestigationRecord(runId: string, finding: Investigation.Finding): Record {
    NoRecord(InvestigationSet).(runId := runId, investigation := Some(finding))
  }

  // ------------------------------------------------------- Copies and references

  ghost function CloneEvent(e: Event): Event {
    e.(metadata := Sanitized(e.metadata))
  }

  ghost function CloneEvents(events: seq<Event>): (r: seq<Event>)
    ensures |r| == |events|
  {
    seq(|events|, i requires 0 <= i < |events| => CloneEvent(events[i]))
  }

  ghost function CloneRun(run: Run): Run {
    run.(metadata := Sanitized(run.metadata), events := CloneEvents(run.events))
  }

  function CallReference(e: Event): Option<string> {
    if e.kind != "tool_call" || "call_id" !in e.metadata then None
    else
      var id := Text.TrimSpace(e.metadata["call_id"]);
      if id == "" then None else Some("tool-call:" + id)
  }

  // The host-owned evidence of a run: its tool calls.
  function References(events: seq<Event>): set<string> {
    if events == [] then {}
    else
      var last := CallReference(events[|events| - 1]);
      References(events[..|events| - 1]) + if last.Some? then {last.value} else {}
  }

  lemma {:induction false} ReferencesGrow(events: seq<Event>, e: Event)
    ensures References(events) <= References(events + [e])
  {
    assert (events + [e])[..|events|] == events;
  }

  // ------------------------------------------------------- Replay

  ghost function ApplyRecord(runs: Runs, item: Record): Result<Runs, AuditError> {
    match item.kind
    case RunStarted =>
      if item.run.None? || item.run.value.id == "" || item.run.value.status != Running then Err(InvalidStart)
      else if item.run.value.id in runs then Err(DuplicateRun)
      else Ok(runs[item.run.value.id := CloneRun(item.run.value)])
    case EventAdded =>
      if item.runId !in runs || item.event.None? || item.event.value.sequence != |runs[item.runId].events| + 1
      then Err(InvalidEvent)
      else
        var run := runs[item.runId];
        Ok(runs[item.runId := run.(events := run.events + [CloneEvent(item.event.value)])])
    case RunFinished =>
      if item.runId !in runs || item.time.None? || runs[item.runId].status != Running ||
         (item.status != Some(Succeeded) && item.status != Some(Failed))
      then Err(InvalidFinish)
      else
        var run := runs[item.runId];
        Ok(runs[item.runId := run.(status := item.status.value, completedAt := item.time, error := Bounded(item.error),
                                   metadata := Merged(run.metadata, item.meta))])
    case InvestigationSet =>
      if item.runId !in runs || runs[item.runId].status != Running || runs[item.runId].investigation.Some?
          || item.investigation.None?
      then Err(InvalidInvestigation)
      else
        var run := runs[item.runId];
        var finding := Investigation.Normalized(item.investigation.value);
        if !Investigation.Acceptable(finding, References(run.events)) then Err(InvalidInvestigation)
        else Ok(runs[item.runId := run.(investigation := Some(finding))])
    case OtherKind => Err(UnknownKind)
  }

  ghost function ReadRecord(runs: Runs, item: Record): Result<Runs, AuditError> {
    if item.version != STORE_VERSION then Err(BadVersion) else ApplyRecord(runs, item)
  }

  ghost function Replay(log: seq<Record>): Result<Runs, AuditError> {
    if log == [] then Ok(map[])
    else
      var before := Replay(log[..|log| - 1]);
      if before.Err? then before else ReadRecord(before.value, log[|log| - 1])
  }

  // ------------------------------------------------------- Live operations

  datatype Op =
    | StartRun(source: string, actor: string, workspace: string, model: string, metadata: Metadata, id: string,
               now: int)
    | AddEvent(runId: string, eventType: string, eventStatus: string, metadata: Metadata, arguments: Raw, result: Raw,
               requireRunning: bool, now: int)
    | FinishRun(runId: string, status: Status, error: string, metadata: Metadata, now: int)
    | SetInvestigationResult(runId: string, finding: Investigation.Finding)

  datatype Change = Change(record: Record, run: Run)

  ghost function NewRun(op: Op): Run
    requires op.StartRun?
  {
    Run(op.id, Bounded(Text.TrimSpace(op.source)), Bounded(Text.TrimSpace(op.actor)), Bounded(op.workspace),
        Bounded(op.model),
        Running, op.now, None, "", Sanitized(op.metadata), [], None)
  }

  ghost function NewEvent(op: Op, n: nat): Event
    requires op.AddEvent?
  {
    Event(n + 1, op.now, Bounded(Text.TrimSpace(op.eventType)), Bounded(op.eventStatus), Sanitized(op.metadata),
          op.arguments, op.result)
  }

  // The record an operation appends and the run it leaves, or its error.
  ghost function Live(runs: Runs, op: Op): Result<Change, AuditError> {
    match op
    case StartRun(source, actor, _, _, _, _, _) =>
      if Text.TrimSpace(source) == "" || Text.TrimSpace(actor) == "" then Err(MissingSource)
      else Ok(Change(StartRecord(NewRun(op)), CloneRun(NewRun(op))))
    case AddEvent(runId, eventType, _, _, arguments, result, requireRunning, _) =>
      if runId !in runs || (requireRunning && runs[runId].status != Running) then Err(NotRunning)
      else if (|arguments.text| > 0 && !arguments.valid) || (|result.text| > 0 && !result.valid) then Err(InvalidJson)
      else
        var run := runs[runId];
        var event := NewEvent(op, |run.events|);
        if event.kind == "" then Err(EmptyType)
        else Ok(Change(EventRecord(runId, event), run.(events := run.events + [CloneEvent(event)])))
    case FinishRun(runId, status, error, metadata, now) =>
      if status == Running then Err(InvalidStatus)
      else if runId !in runs || runs[runId].status != Running then Err(NotRunning)
      else
        var run := runs[runId];
        var item := FinishRecord(runId, status, now, Bounded(error), Sanitized(metadata));
        Ok(Change(item, run.(status := status, completedAt := Some(now), error := item.error,
                             metadata := Merged(run.metadata, item.meta))))
    case SetInvestigationResult(runId, finding) =>
      if runId !in runs || runs[runId].status != Running || runs[runId].investigation.Some? then Err(NotRunning)
      else
        var run := runs[runId];
        var normalized := Investigation.Normalized(finding);
        if !Investigation.Acceptable(normalized, References(run.events)) then Err(InvalidFinding)
        else Ok(Change(InvestigationRecord(runId, normalized), run.(investigation := Some(normalized))))
  }

  function Target(op: Op): string {
    if op.StartRun? then op.id else op.runId
  }

  // Run ids are drawn fresh.
  predicate Fresh(runs: Runs, op: Op) {
    op.StartRun? ==> op.id != "" && op.id !in runs
  }

  // ------------------------------------------------------- Live state against replayed state

  // A replayed run differs from the live one by one more bounding of its error.
  function ReboundRun(run: Run): Run {
    run.(error := Bounded(run.error))
  }

  function Rebound(runs: Runs): (r: Runs)
    ensures r.Keys == runs.Keys && forall id :: id in runs ==> r[id] == ReboundRun(runs[id])
  {
    map id | id in runs :: ReboundRun(runs[id])
  }

  lemma ReboundPut(runs: Runs, id: string, run: Run)
    ensures Rebound(runs[id := run]) == Rebound(runs)[id := ReboundRun(run)]
    ensures forall k :: k in runs ==> k in Rebound(runs) && Rebound(runs)[k] == ReboundRun(runs[k])
    ensures Rebound(runs).Keys == runs.Keys
  {
    hide ReboundRun;
  }

  lemma BoundedNothing()
    ensures Bounded("") == ""
  {
  }

  // A live operation's record is accepted by replay and does the same to the
  // replayed runs.
  lemma RecordReplays(runs: Runs, op: Op)
    requires Fresh(runs, op) && Live(runs, op).Ok?
    ensures var change := Live(runs, op).value;
            ReadRecord(Rebound(runs), change.record) == Ok(Rebound(runs[Target(op) := change.run]))
  {
    hide Sanitized, Text.TrimSpace, Merged, References, Investigation.Acceptable, Investigation.Normalized,
        Text.Bounded, Rebound;
    var change := Live(runs, op).value;
    match op {
      case StartRun(_, _, _, _, _, id, _) =>
        BoundedNothing();
        ReboundPut(runs, id, change.run);
      case AddEvent(runId, _, _, _, _, _, _, _) => ReboundPut(runs, runId, change.run);
      case FinishRun(runId, _, _, _, _) => ReboundPut(runs, runId, change.run);
      case SetInvestigationResult(runId, finding) =>
        Investigation.NormalizedTwice(finding);
        ReboundPut(runs, runId, change.run);
    }
  }

  // The state that replay rebuilds is exactly the live one precisely when the error
  // text, trimmed, is not cut after a space.
  lemma FinishReplaysExactlyIff(runs: Runs, op: Op)
    requires op.FinishRun? && Live(runs, op).Ok?
    ensures var change := Live(runs, op).value;
            ApplyRecord(runs, change.record) == Ok(runs[op.runId := change.run]) <==>
            var t := Text.TrimSpace(op.error); |t| <= MAXIMUM_VALUE_RUNES || !Text.IsSpace(t[MAXIMUM_VALUE_RUNES - 1])
  {
    hide Sanitized, Merged, Text.IsSpace, Text.TrimSpace;
    var change := Live(runs, op).value;
    Text.BoundedIdempotentIff(op.error, MAXIMUM_VALUE_RUNES);
    assert ApplyRecord(runs, change.record) == Ok(runs[op.runId := change.run.(error := Bounded(change.run.error))]);
    assert runs[op.runId := change.run][op.runId] == change.run;
    assert runs[op.runId := change.run.(error := Bounded(change.run.error))][op.runId].error ==
             Bounded(change.run.error);
  }

  function LongError(): string {
    seq(MAXIMUM_VALUE_RUNES - 1, _ => 'x') + " x"
  }

  // An error text on which the two differ.
  lemma ReplayCanDropABlank(runs: Runs, runId: string, now: int)
    requires runId in runs && runs[runId].status == Running
    ensures var op := FinishRun(runId, Failed, LongError(), map[], now);
            Live(runs, op).Ok? &&
            ApplyRecord(runs, Live(runs, op).value.record) != Ok(runs[runId := Live(runs, op).value.run])
  {
    var e := LongError();
    Text.TrimmedIsFixed(e);
    FinishReplaysExactlyIff(runs, FinishRun(runId, Failed, e, map[], now));
  }

  // ------------------------------------------------------- Every run of the store

  datatype State = State(log: seq<Record>, runs: Runs)

  datatype Step = Do(op: Op) | Restart

  predicate Enabled(s: State, step: Step) {
    step.Do? ==> Fresh(s.runs, step.op)
  }

  // A failed operation changes nothing; a restart replaces the runs by the replayed ones.
  ghost function After(s: State, step: Step): State {
    match step
    case Do(op) =>
      var change := Live(s.runs, op);
      if change.Err? then s else State(s.log + [change.value.record], s.runs[Target(op) := change.value.run])
    case Restart => if Replay(s.log).Err? then s else s.(runs := Replay(s.log).value)
  }

  ghost predicate EventsOk(events: seq<Event>) {
    forall i :: 0 <= i < |events| ==> events[i].sequence == i + 1 && events[i].kind != "" && Clean(events[i].metadata)
  }

  ghost predicate ErrorOk(error: string) {
    |error| <= MAXIMUM_VALUE_RUNES && Bounded(Bounded(error)) == Bounded(error)
  }

  ghost predicate FindingOk(f: Investigation.Finding, events: seq<Event>) {
    Investigation.Normalized(f) == f && Investigation.Acceptable(f, References(events))
  }

  ghost predicate RunOk(id: string, run: Run) {
    && run.id == id != ""
    && EventsOk(run.events) && Clean(run.metadata) && ErrorOk(run.error)
    && (run.status == Running <==> run.completedAt.None?)
    && (run.status == Running ==> run.error == "")
    && (run.investigation.Some? ==> FindingOk(run.investigation.value, run.events))
  }

  function Subject(item: Record): string {
    if item.kind.RunStarted? && item.run.Some? then item.run.value.id else item.runId
  }

  // How many records of a kind the log holds for a run.
  function Tally(log: seq<Record>, kind: Kind, id: string): nat {
    if log == [] then 0
    else
      var last := log[|log| - 1];
      Tally(log[..|log| - 1], kind, id) + if last.kind == kind && Subject(last) == id then 1 else 0
  }

  function Expected(runs: Runs, kind: Kind, id: string): nat {
    if id !in runs then 0
    else match kind
         case RunStarted => 1
         case EventAdded => |runs[id].events|
         case RunFinished => if runs[id].status == Running then 0 else 1
         case InvestigationSet => if runs[id].investigation.Some? then 1 else 0
         case OtherKind => 0
  }

  // A run starts once, finishes at most once and is investigated at most once.
  ghost predicate TalliesOk(s: State) {
    forall kind, id :: Tally(s.log, kind, id) == Expected(s.runs, kind, id)
  }

  ghost predicate Inv(s: State) {
    && Replay(s.log) == Ok(Rebound(s.runs))
    && (forall id :: id in s.runs ==> RunOk(id, s.runs[id]))
    && TalliesOk(s)
  }

  ghost predicate Legal(s: State, steps: seq<Step>)
    decreases |steps|
  {
    steps == [] || (Enabled(s, steps[0]) && Legal(After(s, steps[0]), steps[1..]))
  }

  ghost function Execute(s: State, steps: seq<Step>): State
    decreases |steps|
  {
    if steps == [] then s else Execute(After(s, steps[0]), steps[1..])
  }

  lemma NewRunIsOk(op: Op)
    requires op.StartRun? && op.id != ""
    ensures RunOk(op.id, CloneRun(NewRun(op)))
  {
    hide Clean, Sanitized;
    SanitizedIsClean(Sanitized(op.metadata));
    BoundedNothing();
  }

  lemma EventsOkGrow(events: seq<Event>, e: Event)
    requires EventsOk(events) && e.sequence == |events| + 1 && e.kind != ""
    ensures EventsOk(events + [CloneEvent(e)])
  {
    hide Clean, Sanitized;
    SanitizedIsClean(e.metadata);
  }

  lemma AddedEventIsOk(run: Run, e: Event, id: string)
    requires RunOk(id, run) && e.sequence == |run.events| + 1 && e.kind != ""
    ensures RunOk(id, run.(events := run.events + [CloneEvent(e)]))
  {
    hide EventsOk, Clean, Sanitized, References, ErrorOk, Investigation.Acceptable, Investigation.Normalized;
    EventsOkGrow(run.events, e);
    ReferencesGrow(run.events, CloneEvent(e));
    if run.investigation.Some? {
      Investigation.AcceptableGrows(run.investigation.value, References(run.events),
                                    References(run.events + [CloneEvent(e)]));
    }
  }

  lemma BoundedIsOk(error: string)
    ensures ErrorOk(Bounded(error))
  {
    Text.BoundedTwiceIsFixed(error, MAXIMUM_VALUE_RUNES);
  }

  lemma LiveKeepsRunOk(runs: Runs, op: Op)
    requires Fresh(runs, op) && Live(runs, op).Ok?
    requires forall id :: id in runs ==> RunOk(id, runs[id])
    ensures RunOk(Target(op), Live(runs, op).value.run)
  {
    hide Clean, Sanitized, Bounded, Text.TrimSpace, EventsOk, Investigation.Acceptable, Investigation.Normalized,
        References;
    match op {
      case StartRun(_, _, _, _, _, _, _) => NewRunIsOk(op);
      case AddEvent(runId, _, _, _, _, _, _, _) => AddedEventIsOk(runs[runId], NewEvent(op, |runs[runId].events|),
          runId);
      case FinishRun(_, _, error, _, _) =>
        BoundedIsOk(error);
        SanitizedIsClean(Sanitized(runs[op.runId].metadata) + Sanitized(Sanitized(op.metadata)));
      case SetInvestigationResult(_, finding) => Investigation.NormalizedTwice(finding);
    }
  }

  lemma {:induction false} LiveKeepsTallies(s: State, op: Op)
    requires TalliesOk(s) && Fresh(s.runs, op) && Live(s.runs, op).Ok?
    ensures TalliesOk(After(s, Do(op)))
  {
    hide Sanitized, Bounded, Text.TrimSpace, Merged, References, Investigation.Acceptable, Investigation.Normalized;
    var s' := After(s, Do(op));
    forall kind, id ensures Tally(s'.log, kind, id) == Expected(s'.runs, kind, id) {
      assert s'.log[..|s'.log| - 1] == s.log;
      assert Tally(s.log, kind, id) == Expected(s.runs, kind, id);
    }
  }

  // One live operation keeps the invariant.
  lemma DoKeepsInv(s: State, op: Op)
    requires Inv(s) && Fresh(s.runs, op) && Live(s.runs, op).Ok?
    ensures Inv(After(s, Do(op)))
  {
    hide RunOk, Live, ReadRecord, TalliesOk;
    LiveKeepsRunOk(s.runs, op);
    RecordReplays(s.runs, op);
    LiveKeepsTallies(s, op);
    var log' := After(s, Do(op)).log;
    assert log'[..|log'| - 1] == s.log;
  }

  lemma ReboundRunIsOk(id: string, run: Run)
    requires RunOk(id, run)
    ensures RunOk(id, ReboundRun(run)) && ReboundRun(ReboundRun(run)) == ReboundRun(run)
  {
    hide Clean, EventsOk, Text.Bounded, FindingOk;
    BoundedIsOk(run.error);
    BoundedNothing();
  }

  lemma RestartKeepsInv(s: State)
    requires Inv(s)
    ensures Inv(After(s, Restart))
  {
    hide RunOk, Replay, Bounded;
    var s' := After(s, Restart);
    assert s'.runs == Rebound(s.runs);
    forall id | id in s.runs ensures RunOk(id, s'.runs[id]) && ReboundRun(s'.runs[id]) == s'.runs[id] {
      ReboundRunIsOk(id, s.runs[id]);
    }
    assert Rebound(s'.runs) == s'.runs;
    forall kind, id ensures Tally(s'.log, kind, id) == Expected(s'.runs, kind, id) {
      assert Tally(s.log, kind, id) == Expected(s.runs, kind, id);
    }
  }

  lemma StepKeepsInv(s: State, step: Step)
    requires Inv(s) && Enabled(s, step)
    ensures Inv(After(s, step))
  {
    hide Inv;
    match step {
      case Do(op) => if Live(s.runs, op).Ok? { DoKeepsInv(s, op); }
      case Restart => RestartKeepsInv(s);
    }
  }

  // In every run, with failed operations and restarts anywhere, the log is accepted
  // and rebuilds the live runs up to one more bounding of their errors.
  lemma {:induction false} EveryLogReplays(s: State, steps: seq<Step>)
    requires Inv(s) && Legal(s, steps)
    ensures Inv(Execute(s, steps))
    decreases |steps|
  {
    if steps != [] {
      StepKeepsInv(s, steps[0]);
      EveryLogReplays(After(s, steps[0]), steps[1..]);
    }
  }

  lemma EmptyStoreIsOk()
    ensures Inv(State([], map[]))
  {
    assert Rebound(map[]) == map[];
  }

  // What can still happen to a run: events are appended, its result is set once, and
  // once finished nothing else changes but one bounding of its error.
  ghost predicate Later(a: Run, b: Run) {
    && (b.id, b.source, b.actor, b.workspace, b.model, b.startedAt) ==
        (a.id, a.source, a.actor, a.workspace, a.model, a.startedAt)
    && a.events <= b.events
    && (a.investigation.Some? ==> b.investigation == a.investigation)
    && (a.status != Running ==>
          (b.status, b.completedAt, b.metadata, b.investigation, Bounded(b.error)) ==
          (a.status, a.completedAt, a.metadata, a.investigation, Bounded(a.error)))
  }

  lemma LiveOnlyAdds(runs: Runs, op: Op, id: string)
    requires Fresh(runs, op) && Live(runs, op).Ok? && id in runs
    ensures Later(runs[id], runs[Target(op) := Live(runs, op).value.run][id])
  {
    hide Sanitized, Bounded, Text.TrimSpace, Merged, References, Investigation.Acceptable, Investigation.Normalized;
  }

  lemma RestartOnlyRebounds(id: string, run: Run)
    requires RunOk(id, run)
    ensures Later(run, ReboundRun(run))
  {
    hide Bounded, Clean, EventsOk, FindingOk;
  }

  lemma StepOnlyAdds(s: State, step: Step, id: string)
    requires Inv(s) && Enabled(s, step) && id in s.runs
    ensures id in After(s, step).runs && Later(s.runs[id], After(s, step).runs[id])
  {
    hide Live, Replay, TalliesOk, RunOk, ReboundRun;
    match step {
      case Do(op) => if Live(s.runs, op).Ok? { LiveOnlyAdds(s.runs, op, id); }
      case Restart => RestartOnlyRebounds(id, s.runs[id]);
    }
  }

  lemma {:induction false} FinishedRunsAreFinal(s: State, steps: seq<Step>, id: string)
    requires Inv(s) && Legal(s, steps) && id in s.runs
    ensures id in Execute(s, steps).runs && Later(s.runs[id], Execute(s, steps).runs[id])
    decreases |steps|
  {
    if steps != [] {
      hide Bounded, Inv, After;
      var s' := After(s, steps[0]);
      StepOnlyAdds(s, steps[0], id);
      StepKeepsInv(s, steps[0]);
      FinishedRunsAreFinal(s', steps[1..], id);
    }
  }

  // ------------------------------------------------------- What is accepted

  predicate HasText(s: string) {
    exists i :: 0 <= i < |s| && !Text.IsSpace(s[i])
  }

  // The store's check of an event's JSON.
  predicate JsonOk(op: Op)
    requires op.AddEvent?
  {
    (op.arguments.text == "" || op.arguments.valid) && (op.result.text == "" || op.result.valid)
  }

  // What an operation asks of the store.
  ghost predicate Allowed(runs: Runs, op: Op) {
    match op
    case StartRun(source, actor, _, _, _, _, _) => HasText(source) && HasText(actor)
    case AddEvent(runId, eventType, _, _, _, _, requireRunning, _) =>
      runId in runs && (requireRunning ==> runs[runId].status == Running) && JsonOk(op) && HasText(eventType)
    case FinishRun(runId, status, _, _, _) => runId in runs && runs[runId].status == Running != status
    case SetInvestigationResult(runId, finding) =>
      && runId in runs && runs[runId].status == Running && runs[runId].investigation.None?
      && Investigation.Acceptable(Investigation.Normalized(finding), References(runs[runId].events))
  }

  lemma BlankIsDropped(s: string)
    ensures Text.TrimSpace(s) == "" <==> !HasText(s)
    ensures Bounded(Text.TrimSpace(s)) == "" <==> !HasText(s)
  {
    hide Text.TrimSpace, Text.IsSpace;
    Text.BlankIff(s);
    Text.TrimTwice(s);
  }

  lemma AcceptedIffAllowed(runs: Runs, op: Op)
    ensures Live(runs, op).Ok? <==> Allowed(runs, op)
  {
    hide Sanitized, Bounded, Text.TrimSpace, Merged, Investigation.Normalized, Investigation.Acceptable, References,
        HasText;
    match op {
      case StartRun(source, actor, _, _, _, _, _) =>
        BlankIsDropped(source);
        BlankIsDropped(actor);
      case AddEvent(_, eventType, _, _, _, _, _, _) => BlankIsDropped(eventType);
      case _ =>
    }
  }

  // ------------------------------------------------------- What a run shows

  // The accepted operations of a run of the store, in order.
  ghost function AcceptedBy(s: State, step: Step): seq<Op> {
    if step.Do? && Live(s.runs, step.op).Ok? then [step.op] else []
  }

  ghost function AcceptedOps(s: State, steps: seq<Step>): seq<Op>
    decreases |steps|
  {
    if steps == [] then [] else AcceptedBy(s, steps[0]) + AcceptedOps(After(s, steps[0]), steps[1..])
  }

  // Those of one run, and of these the ones that add an event.
  function OpsOf(ops: seq<Op>, id: string): seq<Op> {
    if ops == [] then []
    else OpsOf(ops[..|ops| - 1], id) + if Target(ops[|ops| - 1]) == id then [ops[|ops| - 1]] else []
  }

  function EventOps(ops: seq<Op>): seq<Op> {
    if ops == [] then []
    else EventOps(ops[..|ops| - 1]) + if ops[|ops| - 1].AddEvent? then [ops[|ops| - 1]] else []
  }

  ghost predicate ShowsStart(run: Run, op: Op) {
    && op.StartRun? && run.id == op.id && run.startedAt == op.now
    && run.source == Bounded(op.source) && run.actor == Bounded(op.actor)
    && run.workspace == Bounded(op.workspace) && run.model == Bounded(op.model)
  }

  ghost predicate ShowsEvent(e: Event, op: Op) {
    && op.AddEvent? && JsonOk(op) && e.time == op.now && e.kind == Bounded(op.eventType)
        && e.status == Bounded(op.eventStatus)
    && e.arguments == op.arguments && e.result == op.result && e.metadata == Sanitized(Sanitized(op.metadata))
  }

  ghost predicate ShowsEvents(events: seq<Event>, ops: seq<Op>) {
    |events| == |ops| && forall k :: 0 <= k < |events| ==> ShowsEvent(events[k], ops[k])
  }

  ghost predicate ShowsFinish(run: Run, start: Op, op: Op)
    requires start.StartRun?
  {
    && op.FinishRun? && run.status == op.status != Running && run.completedAt == Some(op.now)
    && Bounded(run.error) == Bounded(Bounded(op.error))
    && run.metadata == Merged(Sanitized(Sanitized(start.metadata)), Sanitized(op.metadata))
  }

  ghost predicate ShowsFinding(run: Run, op: Op) {
    op.SetInvestigationResult? && run.investigation == Some(Investigation.Normalized(op.finding))
  }

  ghost predicate ShowsEnd(run: Run, ops: seq<Op>)
    requires ops != [] && ops[0].StartRun?
  {
    if run.status == Running
    then run.metadata == Sanitized(Sanitized(ops[0].metadata)) && forall i :: 0 <= i < |ops| ==> !ops[i].FinishRun?
    else exists i :: 0 <= i < |ops| && ShowsFinish(run, ops[0], ops[i])
  }

  ghost predicate ShowsResult(run: Run, ops: seq<Op>) {
    if run.investigation.None? then forall i :: 0 <= i < |ops| ==> !ops[i].SetInvestigationResult?
    else exists i :: 0 <= i < |ops| && ShowsFinding(run, ops[i])
  }

  // Nothing follows a run's end but events that do not need it to be running, and its
  // finding is set once.
  ghost predicate InOrder(ops: seq<Op>) {
    forall i, j :: 0 <= i < j < |ops| ==>
      && (ops[i].FinishRun? ==> ops[j].AddEvent? && !ops[j].requireRunning)
      && (ops[i].SetInvestigationResult? ==> !ops[j].SetInvestigationResult?)
  }

  // A run shows its first operation, which started it; its events those that added them,
  // in order; and its end and its finding the one operation that set them.
  ghost predicate Shows(run: Run, ops: seq<Op>) {
    && ops != [] && ShowsStart(run, ops[0]) && (forall i :: 0 < i < |ops| ==> !ops[i].StartRun?)
    && ShowsEvents(run.events, EventOps(ops)) && ShowsEnd(run, ops) && ShowsResult(run, ops) && InOrder(ops)
  }

  ghost predicate AllShow(runs: Runs, ops: seq<Op>) {
    forall id :: if id in runs then Shows(runs[id], OpsOf(ops, id)) else OpsOf(ops, id) == []
  }

  lemma TrimmedFirst(s: string)
    ensures Bounded(Text.TrimSpace(s)) == Bounded(s)
  {
    hide Text.TrimSpace;
    Text.TrimTwice(s);
  }

  lemma StartShows(op: Op)
    requires op.StartRun?
    ensures Shows(CloneRun(NewRun(op)), [op])
  {
    hide Sanitized, Bounded, Text.TrimSpace;
    TrimmedFirst(op.source);
    TrimmedFirst(op.actor);
    assert EventOps([op]) == [];
  }

  lemma OrderKept(run: Run, ops: seq<Op>, op: Op)
    requires ops != [] && ops[0].StartRun? && ShowsEnd(run, ops) && ShowsResult(run, ops) && InOrder(ops)
    requires run.status == Running || (op.AddEvent? && !op.requireRunning)
    requires op.SetInvestigationResult? ==> run.investigation.None?
    ensures InOrder(ops + [op])
  {
    hide Sanitized, Bounded, Merged, Investigation.Normalized, ShowsFinish, ShowsFinding;
    forall i, j | 0 <= i < j < |ops + [op]|
      ensures (ops + [op])[i].FinishRun? ==> (ops + [op])[j].AddEvent? && !(ops + [op])[j].requireRunning
      ensures (ops + [op])[i].SetInvestigationResult? ==> !(ops + [op])[j].SetInvestigationResult?
    {
      if j < |ops| { assert (ops + [op])[i] == ops[i] && (ops + [op])[j] == ops[j]; }
      else { assert (ops + [op])[i] == ops[i] && (ops + [op])[j] == op; }
    }
  }

  // What a further operation leaves shown.
  lemma StartKept(run: Run, ops: seq<Op>, op: Op)
    requires Shows(run, ops) && !op.StartRun?
    ensures ShowsStart(run, (ops + [op])[0]) && (forall i :: 0 < i < |ops + [op]| ==> !(ops + [op])[i].StartRun?)
    ensures EventOps(ops + [op]) == if op.AddEvent? then EventOps(ops) + [op] else EventOps(ops)
  {
    hide Bounded, ShowsEvents, ShowsEnd, ShowsResult;
    assert (ops + [op])[..|ops|] == ops;
  }

  lemma EndKept(run: Run, run': Run, ops: seq<Op>, op: Op)
    requires ops != [] && ops[0].StartRun? && ShowsEnd(run, ops) && !op.FinishRun?
    requires (run'.status, run'.completedAt, run'.error, run'.metadata) ==
             (run.status, run.completedAt, run.error, run.metadata)
    ensures ShowsEnd(run', ops + [op])
  {
    hide Sanitized, Bounded, Merged;
    if run.status != Running {
      var i :| 0 <= i < |ops| && ShowsFinish(run, ops[0], ops[i]);
      assert (ops + [op])[i] == ops[i] && ShowsFinish(run', ops[0], (ops + [op])[i]);
    }
  }

  lemma ResultKept(run: Run, run': Run, ops: seq<Op>, op: Op)
    requires ShowsResult(run, ops) && !op.SetInvestigationResult? && run'.investigation == run.investigation
    ensures ShowsResult(run', ops + [op])
  {
    hide Investigation.Normalized;
    if run.investigation.Some? {
      var i :| 0 <= i < |ops| && ShowsFinding(run, ops[i]);
      assert (ops + [op])[i] == ops[i] && ShowsFinding(run', (ops + [op])[i]);
    }
  }

  lemma NewEventShows(op: Op, n: nat)
    requires op.AddEvent? && JsonOk(op)
    ensures ShowsEvent(CloneEvent(NewEvent(op, n)), op)
  {
    hide Sanitized, Bounded, Text.TrimSpace;
    TrimmedFirst(op.eventType);
  }

  lemma EventIsShown(run: Run, ops: seq<Op>, op: Op)
    requires Shows(run, ops) && op.AddEvent? && JsonOk(op) && (op.requireRunning ==> run.status == Running)
    ensures Shows(run.(events := run.events + [CloneEvent(NewEvent(op, |run.events|))]), ops + [op])
  {
    hide Bounded, ShowsEnd, ShowsResult, ShowsEvent, CloneEvent, NewEvent, InOrder;
    OrderKept(run, ops, op);
    var run' := run.(events := run.events + [CloneEvent(NewEvent(op, |run.events|))]);
    NewEventShows(op, |run.events|);
    StartKept(run, ops, op);
    EndKept(run, run', ops, op);
    ResultKept(run, run', ops, op);
  }

  lemma FinishShows(run: Run, start: Op, op: Op)
    requires op.FinishRun? && start.StartRun? && op.status != Running
    requires run.metadata == Sanitized(Sanitized(start.metadata))
    ensures ShowsFinish(run.(status := op.status, completedAt := Some(op.now), error := Bounded(op.error),
                             metadata := Merged(run.metadata, Sanitized(op.metadata))), start, op)
  {
    hide Sanitized, Bounded, Merged;
  }

  lemma FinishIsShown(run: Run, ops: seq<Op>, op: Op)
    requires Shows(run, ops) && op.FinishRun? && run.status == Running != op.status
    ensures Shows(run.(status := op.status, completedAt := Some(op.now), error := Bounded(op.error),
                       metadata := Merged(run.metadata, Sanitized(op.metadata))), ops + [op])
  {
    hide Bounded, Sanitized, Merged, ShowsEvents, ShowsResult, ShowsFinish, InOrder;
    OrderKept(run, ops, op);
    var run' := run.(status := op.status, completedAt := Some(op.now), error := Bounded(op.error),
                     metadata := Merged(run.metadata, Sanitized(op.metadata)));
    StartKept(run, ops, op);
    ResultKept(run, run', ops, op);
    FinishShows(run, ops[0], op);
    assert (ops + [op])[|ops|] == op && ShowsFinish(run', ops[0], (ops + [op])[|ops|]);
  }

  lemma FindingIsShown(run: Run, ops: seq<Op>, op: Op)
    requires Shows(run, ops) && op.SetInvestigationResult? && run.status == Running && run.investigation.None?
    ensures Shows(run.(investigation := Some(Investigation.Normalized(op.finding))), ops + [op])
  {
    hide Bounded, Investigation.Normalized, ShowsEvents, ShowsEnd, InOrder;
    OrderKept(run, ops, op);
    var run' := run.(investigation := Some(Investigation.Normalized(op.finding)));
    StartKept(run, ops, op);
    EndKept(run, run', ops, op);
    assert (ops + [op])[|ops|] == op && ShowsFinding(run', (ops + [op])[|ops|]);
  }

  lemma ReboundIsShown(id: string, run: Run, ops: seq<Op>)
    requires RunOk(id, run) && Shows(run, ops)
    ensures Shows(ReboundRun(run), ops)
  {
    hide Sanitized, Bounded, Merged, Investigation.Normalized, ShowsEvents, Clean, EventsOk, FindingOk, InOrder;
    if run.status != Running {
      var i :| 0 <= i < |ops| && ShowsFinish(run, ops[0], ops[i]);
      assert ShowsFinish(ReboundRun(run), ops[0], ops[i]);
    }
    if run.investigation.Some? {
      var i :| 0 <= i < |ops| && ShowsFinding(run, ops[i]);
      assert ShowsFinding(ReboundRun(run), ops[i]);
    }
  }

  lemma LiveShows(runs: Runs, op: Op, ops: seq<Op>)
    requires Fresh(runs, op) && Live(runs, op).Ok?
    requires if op.StartRun? then ops == [] else Shows(runs[Target(op)], ops)
    ensures Shows(Live(runs, op).value.run, ops + [op])
  {
    hide Shows, Sanitized, Bounded, Text.TrimSpace, Merged, Investigation.Normalized, Investigation.Acceptable,
        References, CloneEvent, NewEvent, CloneRun, NewRun;
    match op {
      case StartRun(_, _, _, _, _, _, _) =>
        assert [] + [op] == [op];
        StartShows(op);
      case AddEvent(runId, _, _, _, _, _, _, _) => EventIsShown(runs[runId], ops, op);
      case FinishRun(runId, _, _, _, _) => FinishIsShown(runs[runId], ops, op);
      case SetInvestigationResult(runId, _) => FindingIsShown(runs[runId], ops, op);
    }
  }

  lemma OpsOfNext(ops: seq<Op>, op: Op, id: string)
    ensures OpsOf(ops + [op], id) == if Target(op) == id then OpsOf(ops, id) + [op] else OpsOf(ops, id)
  {
    assert (ops + [op])[..|ops|] == ops;
  }

  lemma TargetIsKnown(runs: Runs, op: Op)
    requires Fresh(runs, op) && Live(runs, op).Ok?
    ensures op.StartRun? <==> Target(op) !in runs
  {
    hide Sanitized, Bounded, Text.TrimSpace, Merged, Investigation.Normalized, Investigation.Acceptable, References;
  }

  lemma StepShows(s: State, step: Step, ops: seq<Op>)
    requires Inv(s) && Enabled(s, step) && AllShow(s.runs, ops)
    ensures AllShow(After(s, step).runs, ops + AcceptedBy(s, step))
  {
    hide Shows, RunOk, Live, Replay, TalliesOk, ReboundRun, OpsOf;
    match step {
      case Do(op) =>
        if Live(s.runs, op).Ok? {
          TargetIsKnown(s.runs, op);
          assert if Target(op) in s.runs then Shows(s.runs[Target(op)], OpsOf(ops, Target(op)))
                 else OpsOf(ops, Target(op)) == [];
          LiveShows(s.runs, op, OpsOf(ops, Target(op)));
          assert After(s, step).runs == s.runs[Target(op) := Live(s.runs, op).value.run];
          forall id ensures if id in After(s, step).runs then Shows(After(s, step).runs[id], OpsOf(ops + [op], id))
                            else OpsOf(ops + [op], id) == [] {
            OpsOfNext(ops, op, id);
            assert if id in s.runs then Shows(s.runs[id], OpsOf(ops, id)) else OpsOf(ops, id) == [];
          }
        } else {
          assert ops + [] == ops;
        }
      case Restart =>
        assert ops + [] == ops;
        forall id | id in s.runs ensures Shows(ReboundRun(s.runs[id]), OpsOf(ops, id)) {
          ReboundIsShown(id, s.runs[id], OpsOf(ops, id));
        }
    }
  }

  // Whatever the store went through, with refused operations and restarts anywhere, each
  // run shows exactly the accepted operations on it.
  lemma {:induction false} RunsShowTheirOperations(s: State, steps: seq<Step>, ops: seq<Op>)
    requires Inv(s) && Legal(s, steps) && AllShow(s.runs, ops)
    ensures AllShow(Execute(s, steps).runs, ops + AcceptedOps(s, steps))
    decreases |steps|
  {
    hide Inv, AllShow, After, AcceptedBy;
    if steps == [] {
      assert ops + [] == ops;
    } else {
      StepShows(s, steps[0], ops);
      StepKeepsInv(s, steps[0]);
      RunsShowTheirOperations(After(s, steps[0]), steps[1..], ops + AcceptedBy(s, steps[0]));
      assert ops + (AcceptedBy(s, steps[0]) + AcceptedOps(After(s, steps[0]), steps[1..])) ==
             ops + AcceptedBy(s, steps[0]) + AcceptedOps(After(s, steps[0]), steps[1..]);
    }
  }

  lemma NothingToShow()
    ensures Inv(State([], map[])) && AllShow(map[], [])
  {
    EmptyStoreIsOk();
  }
}
