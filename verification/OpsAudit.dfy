// From the chat to the audit log: a finding the server accepts against its tool calls is
// accepted by the audit store once those calls are recorded.

module OpsAudit {
  import opened Wrappers
  import opened AuditMetadata
  import opened AuditModel
  import opened AuditStore
  import Investigation
  import Order
  import OpsChat
  import Text
  import ToolLoop

  // ------------------------------------------------------- Metadata of a tool event

  predicate KnownKey(k: string) {
    k == "tool" || k == "call_id" || k == "error_code"
  }

  function CallMetadata(call: ToolLoop.Call, errorCode: Option<string>): Metadata {
    var m: Metadata := map["tool" := call.name, "call_id" := call.id];
    if errorCode.None? then m else m["error_code" := errorCode.value]
  }

  lemma KnownKeysAreNormal(k: string)
    requires KnownKey(k)
    ensures NormalKey(k) == k && Bounded(k) == k
  {
    Text.TrimmedIsFixed(k);
    assert Lower(k) == k;
  }

  lemma TwoLetters(s: string, word: string, i: nat)
    requires i <= |s| && |word| >= 2 && OccursAt(s, word, i)
    ensures i + 1 < |s| && s[i] == word[0] && s[i + 1] == word[1]
  {
    assert s[i..][0] == word[0] && s[i..][1] == word[1];
  }

  // A word whose first two letters never follow each other in the text is not in it.
  lemma NotContained(s: string, word: string)
    requires |word| >= 2 && forall i, j :: 0 <= i && j == i + 1 < |s| ==> s[i] != word[0] || s[j] != word[1]
    ensures !Contains(s, word)
  {
    forall i: nat | i <= |s| ensures !OccursAt(s, word, i) {
      if OccursAt(s, word, i) { TwoLetters(s, word, i); }
    }
  }

  lemma CallIdIsNotSecret()
    ensures !Secret("call_id")
  {
    var s := "call_id";
    assert |s| == 7 && s[0] == 'c' && s[1] == 'a' && s[2] == 'l' && s[3] == 'l' && s[4] == '_' && s[5] == 'i'
           && s[6] == 'd';
    hide Contains;
    NotContained(s, "authorization");
    NotContained(s, "api_key");
    NotContained(s, "apikey");
    NotContained(s, "password");
    NotContained(s, "secret");
    NotContained(s, "token");
  }

  lemma ToolIsNotSecret()
    ensures !Secret("tool")
  {
    var s := "tool";
    assert |s| == 4 && s[0] == 't' && s[1] == 'o' && s[2] == 'o' && s[3] == 'l';
    assert !Contains(s, "token") by {
      forall i: nat | i <= |s| ensures !OccursAt(s, "token", i) {}
    }
    hide Contains;
    NotContained(s, "authorization");
    NotContained(s, "api_key");
    NotContained(s, "apikey");
    NotContained(s, "password");
    NotContained(s, "secret");
  }

  lemma ErrorCodeIsNotSecret()
    ensures !Secret("error_code")
  {
    var s := "error_code";
    assert |s| == 10 && s[0] == 'e' && s[1] == 'r' && s[2] == 'r' && s[3] == 'o' && s[4] == 'r' && s[5] == '_'
           && s[6] == 'c' && s[7] == 'o' && s[8] == 'd' && s[9] == 'e';
    hide Contains;
    NotContained(s, "authorization");
    NotContained(s, "api_key");
    NotContained(s, "apikey");
    NotContained(s, "password");
    NotContained(s, "secret");
    NotContained(s, "token");
  }

  lemma KnownKeysAreKept(k: string)
    requires KnownKey(k)
    ensures !Dropped(k) && NormalKey(k) == k && Bounded(NormalKey(k)) == k
  {
    hide Secret, NormalKey;
    KnownKeysAreNormal(k);
    CallIdIsNotSecret();
    ToolIsNotSecret();
    ErrorCodeIsNotSecret();
  }

  lemma {:induction false} KeptHas(keys: seq<string>, input: Metadata, key: string)
    requires (forall k :: k in keys ==> k in input) && key in keys && !Dropped(key) && Bounded(NormalKey(key)) == key
    requires forall k :: k in keys && k != key ==> Bounded(NormalKey(k)) != key
    ensures key in Kept(keys, input) && Kept(keys, input)[key] == Bounded(input[key])
  {
    hide Dropped, NormalKey, Bounded;
    var n := |keys| - 1;
    if keys[n] != key { KeptHas(keys[..n], input, key); }
  }

  lemma {:induction false} KeptKeys(keys: seq<string>, input: Metadata, k: string)
    requires (forall key :: key in keys ==> key in input) && k in Kept(keys, input)
    ensures exists key :: key in keys && k == Bounded(NormalKey(key))
  {
    hide Dropped, NormalKey, Bounded;
    var n := |keys| - 1;
    assert keys[n] in keys;
    if k in Kept(keys[..n], input) { KeptKeys(keys[..n], input, k); }
  }

  lemma AtMostThree(keys: set<string>)
    requires forall k :: k in keys ==> KnownKey(k)
    ensures |keys| <= 3
  {
    var all := {"tool", "call_id", "error_code"};
    assert keys <= all;
    Order.SubsetIsSmaller(keys, all);
  }

  // Sanitising keeps every key of a tool event, with its value bounded.
  lemma KnownMetadataIsKept(m: Metadata)
    requires forall k :: k in m ==> KnownKey(k)
    ensures Sanitized(m).Keys == m.Keys
    ensures forall k :: k in m ==> k in Sanitized(m) && Sanitized(m)[k] == Bounded(m[k])
  {
    hide NormalKey, Text.Bounded, Dropped, Kept, KnownKey;
    var keys := Order.Keys(m.Keys);
    AtMostThree(m.Keys);
    assert FirstKeys(keys) == keys;
    forall k | k in keys ensures !Dropped(k) && Bounded(NormalKey(k)) == k { KnownKeysAreKept(k); }
    forall k | k in keys ensures k in Kept(keys, m) && Kept(keys, m)[k] == Bounded(m[k]) { KeptHas(keys, m, k); }
    forall k | k in Kept(keys, m) ensures k in m { KeptKeys(keys, m, k); }
  }

  // Live metadata is sanitised when it is recorded and when the event is stored.
  function Twice(s: string): string {
    Bounded(Bounded(s))
  }

  lemma StoredMetadata(call: ToolLoop.Call, failure: Option<string>)
    ensures var m := Sanitized(Sanitized(CallMetadata(call, failure)));
            && m.Keys == {"tool", "call_id"} + (if failure.Some? then {"error_code"} else {})
            && m["tool"] == Twice(call.name) && m["call_id"] == Twice(call.id)
            && (failure.Some? ==> m["error_code"] == Twice(failure.value))
  {
    hide Bounded, Sanitized;
    var m := CallMetadata(call, failure);
    KnownMetadataIsKept(m);
    KnownMetadataIsKept(Sanitized(m));
  }

  lemma NamesAreTrimmed(id: string)
    requires Text.IsName(id)
    ensures Text.TrimSpace(id) == id && Bounded(id) == id
  {
    assert Text.NameRune(id[0], true);
    assert Text.NameRune(id[|id| - 1], |id| == 1);
    Text.TrimmedIsFixed(id);
  }

  // What an event says of the call it records.
  ghost predicate RecordsCall(e: Event, call: ToolLoop.Call, failure: Option<string>, result: Raw) {
    && e.kind == "tool_call" && e.status == (if failure.Some? then "failed" else "succeeded")
    && e.arguments.text == call.arguments && e.result == result
    && e.metadata.Keys == {"tool", "call_id"} + (if failure.Some? then {"error_code"} else {})
    && e.metadata["tool"] == Twice(call.name) && e.metadata["call_id"] == Twice(call.id)
    && (failure.Some? ==> e.metadata["error_code"] == Twice(failure.value))
  }

  // A recorded call with a citable id is evidence of the run.
  lemma RecordedCallIsEvidence(e: Event, call: ToolLoop.Call, failure: Option<string>, result: Raw)
    requires Text.IsName(call.id) && RecordsCall(e, call, failure, result)
    ensures CallReference(e) == Some("tool-call:" + call.id)
  {
    hide Bounded, Text.TrimSpace;
    NamesAreTrimmed(call.id);
    assert "call_id" in e.metadata;
  }

  lemma {:induction false} ReferenceInRun(events: seq<Event>, i: nat, reference: string)
    requires i < |events| && CallReference(events[i]) == Some(reference)
    ensures reference in References(events)
  {
    hide CallReference;
    if i < |events| - 1 { ReferenceInRun(events[..|events| - 1], i, reference); }
  }

  // The call's event is in the run.
  ghost predicate Recorded(events: seq<Event>, call: ToolLoop.Call) {
    exists i, failure, result :: 0 <= i < |events| && RecordsCall(events[i], call, failure, result)
  }

  lemma {:induction false} EvidenceIsOfACall(calls: seq<ToolLoop.Call>, reference: string)
    requires reference in OpsChat.EvidenceOf(calls)
    ensures exists i :: 0 <= i < |calls| && reference == "tool-call:" + calls[i].id
  {
    var n := |calls| - 1;
    if reference in OpsChat.EvidenceOf(calls[..n]) {
      EvidenceIsOfACall(calls[..n], reference);
      var i :| 0 <= i < n && reference == "tool-call:" + calls[..n][i].id;
      assert calls[i] == calls[..n][i];
    } else {
      assert reference == "tool-call:" + calls[n].id;
    }
  }

  lemma CitableName(id: string)
    requires Investigation.ReferenceOk("tool-call:" + id)
    ensures Text.IsName(id)
  {
    var r := "tool-call:" + id;
    assert r[0] == 't' && r[10..] == id;
    assert !("context:" <= r) by { assert "context:"[0] == 'c'; }
    assert !("event:" <= r) by { assert "event:"[0] == 'e'; }
    assert !("artifact:" <= r) by { assert "artifact:"[0] == 'a'; }
  }

  // A finding accepted against the chat's calls is accepted by a run that recorded them.
  lemma {:induction false} AcceptedFindingIsAuditable(events: seq<Event>, calls: seq<ToolLoop.Call>,
                                                      f: Investigation.Finding)
    requires Investigation.Acceptable(f, OpsChat.EvidenceOf(calls))
    requires forall i :: 0 <= i < |calls| ==> Recorded(events, calls[i])
    ensures Investigation.Acceptable(f, References(events))
  {
    hide Investigation.TextOk, Investigation.ListOk, Investigation.ReferenceOk, Investigation.EnumsOk, RecordsCall,
        CallReference;
    forall k | 0 <= k < |f.evidence| ensures f.evidence[k] in References(events) {
      EvidenceIsOfACall(calls, f.evidence[k]);
      var i :| 0 <= i < |calls| && f.evidence[k] == "tool-call:" + calls[i].id;
      CitableName(calls[i].id);
      assert Recorded(events, calls[i]);
      var j, failure, result :| 0 <= j < |events| && RecordsCall(events[j], calls[i], failure, result);
      RecordedCallIsEvidence(events[j], calls[i], failure, result);
      ReferenceInRun(events, j, f.evidence[k]);
    }
  }

  // ------------------------------------------------------- Recording a chat

  lemma WordsAreKept()
    ensures Bounded(Text.TrimSpace("tool_call")) == "tool_call"
    ensures Bounded("failed") == "failed" && Bounded("succeeded") == "succeeded"
  {
    Text.TrimmedIsFixed("tool_call");
    Text.TrimmedIsFixed("failed");
    Text.TrimmedIsFixed("succeeded");
  }

  // The store takes a tool event whose arguments and result are valid JSON or empty.
  predicate Storable(call: ToolLoop.Call, result: Raw, validJson: string -> bool) {
    (call.arguments == "" || validJson(call.arguments)) && (result.text == "" || result.valid)
  }

  // The new events record the calls at these indexes, in order.
  ghost predicate RecordsCalls(added: seq<Event>, written: seq<nat>, calls: seq<ToolLoop.Call>,
                               failures: seq<Option<string>>, results: seq<Raw>)
    requires |failures| == |calls| == |results|
  {
    && |added| == |written|
    && (forall j, k :: 0 <= j < k < |written| ==> written[j] < written[k])
    && forall j :: 0 <= j < |written| ==>
         written[j] < |calls| && RecordsCall(added[j], calls[written[j]], failures[written[j]], results[written[j]])
  }

  lemma StoredEvent(e: Event, call: ToolLoop.Call, failure: Option<string>, result: Raw)
    requires e.kind == "tool_call" && e.status == (if failure.Some? then "failed" else "succeeded")
    requires e.arguments.text == call.arguments && e.result == result
    requires e.metadata == Sanitized(Sanitized(CallMetadata(call, failure)))
    ensures RecordsCall(e, call, failure, result)
  {
    hide Sanitized, CallMetadata, Bounded;
    StoredMetadata(call, failure);
  }

  method AddToolEvent(store: Store, runId: string, call: ToolLoop.Call, failure: Option<string>, result: Raw,
                      validJson: string -> bool, now: int, diskOk: bool)
    returns (ok: bool)
    requires store.Valid() && runId in store.runs && store.runs[runId].status == Running
    modifies store
    ensures store.Valid() && runId in store.runs && store.runs[runId].status == Running
    ensures store.runs[runId].investigation == old(store.runs[runId].investigation)
    ensures ok <==> Storable(call, result, validJson) && diskOk
    ensures !ok ==> store.runs[runId].events == old(store.runs[runId].events)
    ensures ok ==> exists e :: RecordsCall(e, call, failure, result) &&
                               store.runs[runId].events == old(store.runs[runId].events) + [e]
  {
    hide Inv, Sanitized, CallMetadata, Text.Bounded, Text.TrimSpace, RecordsCall;
    ghost var before := store.runs[runId].events;
    var status := if failure.Some? then "failed" else "succeeded";
    var metadata := CallMetadata(call, failure);
    var arguments := Raw(call.arguments, validJson(call.arguments));
    WordsAreKept();
    var r := store.AddEvent(runId, "tool_call", status, metadata, arguments, result, true, now, diskOk);
    ok := r.Ok?;
    if ok {
      ghost var e := store.runs[runId].events[|before|];
      assert RecordsCall(e, call, failure, result) by { StoredEvent(e, call, failure, result); }
    }
  }

  lemma OneMoreRecorded(added: seq<Event>, written: seq<nat>, calls: seq<ToolLoop.Call>,
                        failures: seq<Option<string>>, results: seq<Raw>, index: nat, e: Event)
    requires |failures| == |calls| == |results| && index < |calls|
    requires RecordsCalls(added, written, calls, failures, results)
    requires (forall j :: 0 <= j < |written| ==> written[j] < index)
    requires RecordsCall(e, calls[index], failures[index], results[index])
    ensures RecordsCalls(added + [e], written + [index], calls, failures, results)
  {
    hide RecordsCall;
  }

  lemma NoneRecorded(calls: seq<ToolLoop.Call>, failures: seq<Option<string>>, results: seq<Raw>)
    requires |failures| == |calls| == |results|
    ensures RecordsCalls([], [], calls, failures, results)
  {
  }

  // Appends one event per call, in order; a failure is remembered and the rest still tried.
  method AddToolEvents(store: Store, runId: string, calls: seq<ToolLoop.Call>, failures: seq<Option<string>>,
                       results: seq<Raw>, validJson: string -> bool, now: int, diskOk: nat -> bool)
    returns (ok: bool, ghost written: seq<nat>)
    requires store.Valid() && runId in store.runs && store.runs[runId].status == Running
    requires |failures| == |calls| == |results|
    modifies store
    ensures store.Valid() && runId in store.runs && store.runs[runId].status == Running
    ensures store.runs[runId].investigation == old(store.runs[runId].investigation)
    ensures old(store.runs[runId].events) <= store.runs[runId].events
    ensures RecordsCalls(store.runs[runId].events[|old(store.runs[runId].events)|..], written, calls, failures, results)
    ensures forall i :: 0 <= i < |calls| ==>
              (i in written <==> Storable(calls[i], results[i], validJson) && diskOk(i))
    ensures ok <==> forall i :: 0 <= i < |calls| ==> i in written
  {
    hide Inv, RecordsCall, RecordsCalls, Storable;
    ok, written := true, [];
    ghost var first := store.runs[runId].events;
    ghost var added: seq<Event> := [];
    NoneRecorded(calls, failures, results);
    for index := 0 to |calls|
      invariant store.Valid() && runId in store.runs && store.runs[runId].status == Running
      invariant store.runs[runId].investigation == old(store.runs[runId].investigation)
      invariant store.runs[runId].events == first + added
      invariant RecordsCalls(added, written, calls, failures, results)
      invariant forall j :: 0 <= j < |written| ==> written[j] < index
      invariant forall i :: 0 <= i < index ==>
                  (i in written <==> Storable(calls[i], results[i], validJson) && diskOk(i))
      invariant ok <==> forall i :: 0 <= i < index ==> i in written
    {
      var added' := AddToolEvent(store, runId, calls[index], failures[index], results[index], validJson, now,
                                 diskOk(index));
      if added' {
        ghost var e :| RecordsCall(e, calls[index], failures[index], results[index]) &&
                       store.runs[runId].events == first + added + [e];
        OneMoreRecorded(added, written, calls, failures, results, index, e);
        added, written := added + [e], written + [index];
        assert store.runs[runId].events == first + added;
      } else {
        ok := false;
      }
    }
    assert store.runs[runId].events[|first|..] == added;
  }

  lemma WrittenIsRecorded(events: seq<Event>, first: nat, written: seq<nat>, calls: seq<ToolLoop.Call>,
                          failures: seq<Option<string>>, results: seq<Raw>, i: nat)
    requires |failures| == |calls| == |results| && first <= |events| && i < |calls| && i in written
    requires RecordsCalls(events[first..], written, calls, failures, results)
    ensures Recorded(events, calls[i])
  {
    hide RecordsCall;
    var j :| 0 <= j < |written| && written[j] == i;
    assert RecordsCall(events[first + j], calls[i], failures[i], results[i]) by {
      assert events[first..][j] == events[first + j];
    }
  }

  // Once a chat's calls are all recorded, its accepted finding is refused only by the disk.
  method RecordInvestigation(store: Store, runId: string, calls: seq<ToolLoop.Call>, failures: seq<Option<string>>,
                             results: seq<Raw>, validJson: string -> bool, finding: Investigation.Finding, now: int,
                             diskOk: nat -> bool)
    returns (recorded: bool, r: Result<(), AuditError>)
    requires store.Valid() && runId in store.runs && store.runs[runId].status == Running
             && store.runs[runId].investigation.None?
    requires |failures| == |calls| == |results|
    requires Investigation.Acceptable(finding, OpsChat.EvidenceOf(calls))
             && Investigation.Normalized(finding) == finding
    modifies store
    ensures store.Valid()
    ensures recorded <==> forall i :: 0 <= i < |calls| ==> Storable(calls[i], results[i], validJson) && diskOk(i)
    ensures recorded ==> r == (if diskOk(|calls|) then Ok(()) else Err(AppendFailed))
    ensures !recorded ==> r == Err(AppendFailed)
    ensures r.Ok? ==> runId in store.runs && store.runs[runId].investigation == Some(finding)
  {
    hide Inv, Recorded, Investigation.Acceptable, Investigation.Normalized, References, RecordsCalls, Storable;
    ghost var first := |store.runs[runId].events|;
    ghost var written;
    recorded, written := AddToolEvents(store, runId, calls, failures, results, validJson, now, diskOk);
    if !recorded { return false, Err(AppendFailed); }
    forall i | 0 <= i < |calls| ensures Recorded(store.runs[runId].events, calls[i]) {
      WrittenIsRecorded(store.runs[runId].events, first, written, calls, failures, results, i);
    }
    AcceptedFindingIsAuditable(store.runs[runId].events, calls, finding);
    r := store.SetInvestigationResult(runId, finding, diskOk(|calls|));
  }
}
