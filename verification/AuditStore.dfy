// The audit store: in-place runs, an append-only log, and the checked load.

module AuditStore {
  import opened Wrappers
  import opened AuditMetadata
  import opened AuditModel
  import Investigation
  import Text

  method CopyEvent(e: Event) returns (copy: Event)
    ensures copy == CloneEvent(e)
  {
    var metadata := Sanitize(e.metadata);
    copy := e.(metadata := metadata);
  }

  method CopyRun(run: Run) returns (copy: Run)
    ensures copy == CloneRun(run)
  {
    hide Sanitized;
    var metadata := Sanitize(run.metadata);
    var events: seq<Event> := [];
    for index := 0 to |run.events|
      invariant |events| == index && forall i :: 0 <= i < index ==> events[i] == CloneEvent(run.events[i])
    {
      var event := CopyEvent(run.events[index]);
      events := events + [event];
    }
    assert events == CloneEvents(run.events);
    copy := run.(metadata := metadata, events := events);
  }

  method RunEvidenceReferences(run: Run) returns (references: set<string>)
    ensures references == References(run.events)
  {
    hide CallReference;
    references := {};
    for index := 0 to |run.events|
      invariant references == References(run.events[..index])
    {
      assert run.events[..index + 1][..index] == run.events[..index];
      var reference := CallReference(run.events[index]);
      if reference.Some? { references := references + {reference.value}; }
    }
    assert run.events[..|run.events|] == run.events;
  }

  // A log whose prefix is refused is refused.
  lemma {:induction false} RefusedPrefix(log: seq<Record>, n: nat)
    requires n <= |log| && Replay(log[..n]).Err?
    ensures Replay(log) == Replay(log[..n])
  {
    if n < |log| {
      assert log[..|log| - 1][..n] == log[..n];
      RefusedPrefix(log[..|log| - 1], n);
    } else {
      assert log[..n] == log;
    }
  }

  lemma InvReplays(s: State)
    requires Inv(s)
    ensures Replay(s.log) == Ok(Rebound(s.runs))
  {
  }

  class Store {
    var log: seq<Record>
    var runs: Runs

    ghost function Value(): State
      reads this
    {
      State(log, runs)
    }

    ghost predicate Valid()
      reads this
    {
      Inv(Value())
    }

    constructor ()
      ensures Valid() && log == [] && runs == map[]
    {
      log, runs := [], map[];
      new;
      EmptyStoreIsOk();
    }

    // A record is written whole, or not at all.
    method Append(item: Record, diskOk: bool) returns (ok: bool)
      modifies this`log
      ensures ok == diskOk && log == old(log) + if ok then [item] else []
    {
      if diskOk { log := log + [item]; }
      ok := diskOk;
    }

    method StartRun(source: string, actor: string, workspace: string, model: string, metadata: Metadata, id: string,
                    now: int, diskOk: bool)
      returns (r: Result<Run, AuditError>)
      requires Valid() && id != "" && id !in runs
      modifies this
      ensures var op := Op.StartRun(source, actor, workspace, model, metadata, id, now);
              var live := Live(old(runs), op);
              && (live.Err? ==> r == Err(live.error))
              && (live.Ok? && !diskOk ==> r == Err(AppendFailed))
              && (live.Ok? && diskOk ==> r == Ok(live.value.run))
              && Value() == (if r.Ok? then After(old(Value()), Do(op)) else old(Value()))
      ensures Valid()
    {
      hide Inv, Sanitized, Text.TrimSpace, Text.Bounded;
      ghost var op := Op.StartRun(source, actor, workspace, model, metadata, id, now);
      StepKeepsInv(Value(), Do(op));
      var trimmedSource, trimmedActor := Text.TrimSpace(source), Text.TrimSpace(actor);
      if trimmedSource == "" || trimmedActor == "" { return Err(MissingSource); }
      var clean := Sanitize(metadata);
      var run := Run(id, Bounded(trimmedSource), Bounded(trimmedActor), Bounded(workspace), Bounded(model),
                     Running, now, None, "", clean, [], None);
      var ok := Append(StartRecord(run), diskOk);
      if !ok { return Err(AppendFailed); }
      var stored := CopyRun(run);
      runs := runs[id := stored];
      var returned := CopyRun(run);
      r := Ok(returned);
    }

    method AddEvent(runId: string, eventType: string, status: string, metadata: Metadata, arguments: Raw, result: Raw,
                    requireRunning: bool, now: int, diskOk: bool)
      returns (r: Result<(), AuditError>)
      requires Valid()
      modifies this
      ensures var op := Op.AddEvent(runId, eventType, status, metadata, arguments, result, requireRunning, now);
              var live := Live(old(runs), op);
              && r == (if live.Err? then Err(live.error) else if diskOk then Ok(()) else Err(AppendFailed))
              && Value() == (if r.Ok? then After(old(Value()), Do(op)) else old(Value()))
      ensures Valid()
    {
      hide Inv, Sanitized, Text.TrimSpace, Text.Bounded;
      ghost var op := Op.AddEvent(runId, eventType, status, metadata, arguments, result, requireRunning, now);
      StepKeepsInv(Value(), Do(op));
      if runId !in runs || (requireRunning && runs[runId].status != Running) { return Err(NotRunning); }
      if |arguments.text| > 0 && !arguments.valid { return Err(InvalidJson); }
      if |result.text| > 0 && !result.valid { return Err(InvalidJson); }
      var run := runs[runId];
      var clean := Sanitize(metadata);
      var event := Event(|run.events| + 1, now, Bounded(Text.TrimSpace(eventType)), Bounded(status), clean, arguments,
                         result);
      if event.kind == "" { return Err(EmptyType); }
      var ok := Append(EventRecord(runId, event), diskOk);
      if !ok { return Err(AppendFailed); }
      var copy := CopyEvent(event);
      runs := runs[runId := run.(events := run.events + [copy])];
      r := Ok(());
    }

    method FinishRun(runId: string, status: Status, runError: string, metadata: Metadata, now: int, diskOk: bool)
      returns (r: Result<(), AuditError>)
      requires Valid()
      modifies this
      ensures var op := Op.FinishRun(runId, status, runError, metadata, now);
              var live := Live(old(runs), op);
              && r == (if live.Err? then Err(live.error) else if diskOk then Ok(()) else Err(AppendFailed))
              && Value() == (if r.Ok? then After(old(Value()), Do(op)) else old(Value()))
      ensures Valid()
    {
      hide Inv, Sanitized, Merged, Text.TrimSpace, Text.Bounded;
      ghost var op := Op.FinishRun(runId, status, runError, metadata, now);
      StepKeepsInv(Value(), Do(op));
      if status != Succeeded && status != Failed { return Err(InvalidStatus); }
      if runId !in runs || runs[runId].status != Running { return Err(NotRunning); }
      var clean := Sanitize(metadata);
      var item := FinishRecord(runId, status, now, Bounded(runError), clean);
      var ok := Append(item, diskOk);
      if !ok { return Err(AppendFailed); }
      var run := runs[runId];
      run := run.(status := status, completedAt := Some(now), error := item.error);
      var merged := Merge(run.metadata, item.meta);
      runs := runs[runId := run.(metadata := merged)];
      r := Ok(());
    }

    method SetInvestigationResult(runId: string, finding: Investigation.Finding, diskOk: bool)
      returns (r: Result<(), AuditError>)
      requires Valid()
      modifies this
      ensures var op := Op.SetInvestigationResult(runId, finding);
              var live := Live(old(runs), op);
              && r == (if live.Err? then Err(live.error) else if diskOk then Ok(()) else Err(AppendFailed))
              && Value() == (if r.Ok? then After(old(Value()), Do(op)) else old(Value()))
      ensures Valid()
    {
      hide Inv, References, Investigation.Acceptable, Investigation.Normalized;
      ghost var op := Op.SetInvestigationResult(runId, finding);
      StepKeepsInv(Value(), Do(op));
      if runId !in runs || runs[runId].status != Running || runs[runId].investigation.Some? { return Err(NotRunning); }
      var normalized := Investigation.Normalized(finding);
      var references := RunEvidenceReferences(runs[runId]);
      var problem := Investigation.Validate(normalized, references);
      if problem.Some? { return Err(InvalidFinding); }
      var ok := Append(InvestigationRecord(runId, normalized), diskOk);
      if !ok { return Err(AppendFailed); }
      runs := runs[runId := runs[runId].(investigation := Some(normalized))];
      r := Ok(());
    }

    // Replays one record into the runs, or reports why it cannot be.
    method Apply(item: Record) returns (r: Result<(), AuditError>)
      modifies this`runs
      ensures var applied := ApplyRecord(old(runs), item);
              r == (if applied.Ok? then Ok(()) else Err(applied.error)) &&
              runs == (if applied.Ok? then applied.value else old(runs))
    {
      hide Sanitized, Merged, References, Investigation.Acceptable, Investigation.Normalized, Text.Bounded;
      match item.kind {
        case RunStarted =>
          if item.run.None? || item.run.value.id == "" || item.run.value.status != Running { return Err(InvalidStart); }
          if item.run.value.id in runs { return Err(DuplicateRun); }
          var copy := CopyRun(item.run.value);
          runs := runs[item.run.value.id := copy];
        case EventAdded =>
          if item.runId !in runs || item.event.None? || item.event.value.sequence != |runs[item.runId].events| + 1 {
            return Err(InvalidEvent);
          }
          var run := runs[item.runId];
          var copy := CopyEvent(item.event.value);
          runs := runs[item.runId := run.(events := run.events + [copy])];
        case RunFinished =>
          if item.runId !in runs || item.time.None? || runs[item.runId].status != Running ||
             (item.status != Some(Succeeded) && item.status != Some(Failed))
          { return Err(InvalidFinish); }
          var run := runs[item.runId];
          var merged := Merge(run.metadata, item.meta);
          runs := runs[item.runId := run.(status := item.status.value, completedAt := item.time,
                                          error := Bounded(item.error), metadata := merged)];
        case InvestigationSet =>
          if item.runId !in runs || runs[item.runId].status != Running || runs[item.runId].investigation.Some?
              || item.investigation.None? {
            return Err(InvalidInvestigation);
          }
          var run := runs[item.runId];
          var finding := Investigation.Normalized(item.investigation.value);
          var references := RunEvidenceReferences(run);
          var problem := Investigation.Validate(finding, references);
          if problem.Some? { return Err(InvalidInvestigation); }
          runs := runs[item.runId := run.(investigation := Some(finding))];
        case OtherKind => return Err(UnknownKind);
      }
      r := Ok(());
    }

    // Load: replays the whole log into an empty store, refusing at the first bad record.
    method Load() returns (r: Result<(), AuditError>)
      requires runs == map[]
      modifies this`runs
      ensures Replay(log) == if r.Ok? then Ok(runs) else Err(r.error)
    {
      hide ApplyRecord;
      for line := 0 to |log|
        invariant Replay(log[..line]) == Ok(runs)
      {
        assert log[..line + 1][..line] == log[..line];
        r := if log[line].version != STORE_VERSION then Err(BadVersion) else Ok(());
        if r.Ok? { r := Apply(log[line]); }
        if r.Err? {
          RefusedPrefix(log, line + 1);
          return;
        }
      }
      assert log[..|log|] == log;
      r := Ok(());
    }

    // Closing and opening again: the load always succeeds and leaves the restarted state.
    method Reopen()
      requires Valid()
      modifies this`runs
      ensures Value() == After(old(Value()), Restart) && runs == Rebound(old(runs))
      ensures Valid()
    {
      hide Inv, Replay;
      InvReplays(Value());
      StepKeepsInv(Value(), Restart);
      runs := map[];
      var r := Load();
    }
  }
}
