// The mutable alert store. Every method is proved to take the step of
// AlertModel or AlertProtocol that its name says, or to change nothing.

module AlertStore {
  import opened AlertModel
  import opened AlertProtocol
  import opened Wrappers
  import Text

  datatype StoreError = InvalidBatch | AppendFailed | NotRunning | InvalidStatus | UnknownJob | BadLine(line: nat)

  datatype WaitStart = Ready(job: Job) | Registered(channel: nat)

  class Store {
    var log: seq<Record>              // the append-only file
    var deliveries: map<Id, Delivery>
    var events: map<Id, StoredEvent>
    var incidents: map<Id, Incident>
    var jobs: map<Id, Job>
    var dedupe: map<Key, Id>
    var openIncident: map<Key, Id>
    var wake: bool
    var waiters: map<Id, seq<nat>>
    var channels: map<nat, Channel>

    ghost function Current(): Core
      reads this
    {
      Core(State(Tables(deliveries, events, incidents, jobs), dedupe, openIncident), log)
    }

    ghost function Waiters(): Waiting
      reads this
    {
      Waiting(waiters, channels)
    }

    ghost predicate Valid()
      reads this
    {
      CoreInv(Current()) && WaitingOk(Waiters(), jobs)
    }

    constructor ()
      ensures Current() == EMPTY && !wake && Waiters() == Waiting(map[], map[])
    {
      log, deliveries, events, incidents, jobs := [], map[], map[], map[], map[];
      dedupe, openIncident, wake, waiters, channels := map[], map[], false, map[], map[];
    }

    // Identifiers in ascending order, as the record lists the changed incidents.
    static method Sorted(ids: set<Id>) returns (order: seq<Id>)
      ensures Enumerates(order, ids)
      ensures forall j, k :: 0 <= j < k < |order| ==> order[j] < order[k]
    {
      order := [];
      var rest := ids;
      while rest != {}
        invariant rest <= ids
        invariant forall i :: i in ids ==> (i in order <==> i !in rest)
        invariant forall k :: 0 <= k < |order| ==> order[k] in ids
        invariant forall j, k :: 0 <= j < k < |order| ==> order[j] < order[k]
        invariant forall k, i :: 0 <= k < |order| && i in rest ==> order[k] < i
        decreases rest
      {
        var least :| least in rest;
        var others := rest - {least};
        while others != {}
          invariant least in rest && others <= rest
          invariant forall i :: i in rest && i !in others ==> least <= i
          decreases others
        {
          var i :| i in others;
          others := others - {i};
          if i < least { least := i; }
        }
        order := order + [least];
        rest := rest - {least};
      }
    }

    // The batch-local copies hold exactly what the live state would hold.
    static ghost predicate Copies(s: State, w: Work, workingDedupe: map<Key, Id>, workingOpen: map<Key, Id>,
                                  changed: Incidents, newEvents: Events)
    {
      && w.state.dedupe == s.dedupe + workingDedupe
      && w.state.open == workingOpen
      && w.state.tables.incidents == s.tables.incidents + changed
      && w.state.tables.events == s.tables.events + newEvents
      && w.touched == changed.Keys
    }

    static lemma IndexesPointAtRows(s: State)
      requires Inv(s)
      ensures forall k :: k in s.dedupe ==> s.dedupe[k] in s.tables.events
      ensures forall k :: k in s.open ==> s.open[k] in s.tables.incidents
      ensures NO_ID !in s.tables.incidents
    {
    }

    static lemma FreshIdCount(s: State, b: Batch)
      requires FreshBatch(s, b)
      ensures |b.ids| == |b.events|
    {
    }

    static lemma InvOf(c: Core)
      requires CoreInv(c)
      ensures Inv(c.state)
    {
    }

    static lemma UpdateAfterUnion<K, V>(m: map<K, V>, n: map<K, V>, k: K, v: V)
      ensures (m + n)[k := v] == m + n[k := v]
    {
    }

    // The incident an event belongs to, looked up in the copies first.
    method FindIncident(event: Event, ids: Ids, changed: Incidents, workingOpen: map<Key, Id>, ghost s: State)
      returns (incident: Incident, newIncident: bool)
      requires Inv(s) && s.open == workingOpen && s.tables.incidents == incidents + changed
      ensures newIncident <==> OpensIncident(s, event)
      ensures incident == IncidentFor(s, event, ids)
    {
      hide Inv;
      IndexesPointAtRows(s);
      var correlation := CorrOf(event);
      var incidentId := if correlation in workingOpen then workingOpen[correlation] else NO_ID;
      var known := incidentId in changed || (incidentId != NO_ID && incidentId in incidents);
      newIncident := !known || incidentId == NO_ID;
      if newIncident {
        incident := Incident(ids.incident, event.corrKey, event.source, event.state, event.details,
                             event.observedAt, event.observedAt, None, [], [], "");
      } else {
        incident := if incidentId in changed then changed[incidentId] else incidents[incidentId];
      }
    }

    // The incident with the event at its end, in the event's state.
    static method Attached(before: Incident, event: Event, eventId: Id) returns (incident: Incident)
      ensures incident == AttachEvent(before, event, eventId)
    {
      incident := before.(state := event.state, details := event.details, updatedAt := event.observedAt,
                          eventIds := before.eventIds + [eventId]);
      if event.state.Firing? {
        incident := incident.(resolvedAt := None);
      } else {
        incident := incident.(resolvedAt := Some(event.observedAt));
      }
    }

    // One turn of the ingestion loop over the batch-local copies.
    method PrepareOne(event: Event, ids: Ids, deliveryId: Id, at: int, outcome: seq<DeliveryEvent>,
                      storedEvents: seq<StoredEvent>, changed: Incidents, workingOpen: map<Key, Id>, newJobs: seq<Job>,
                      workingDedupe: map<Key, Id>, newEvents: Events, ghost w: Work)
      returns (outcome': seq<DeliveryEvent>, storedEvents': seq<StoredEvent>, changed': Incidents,
               workingOpen': map<Key, Id>, newJobs': seq<Job>, workingDedupe': map<Key, Id>, newEvents': Events)
      requires Inv(w.state) && Copies(Current().state, w, workingDedupe, workingOpen, changed, newEvents)
      requires storedEvents == w.events && newJobs == w.jobs && outcome == w.outcome
      ensures var w' := IngestOne(w, event, ids, deliveryId, at);
              && Copies(Current().state, w', workingDedupe', workingOpen', changed', newEvents')
              && storedEvents' == w'.events && newJobs' == w'.jobs && outcome' == w'.outcome
    {
      hide Inv, OpensIncident, IncidentFor, AttachEvent, DedupOf, CorrOf;
      IndexesPointAtRows(w.state);
      outcome', storedEvents', changed', workingOpen', newJobs', workingDedupe', newEvents' :=
        outcome, storedEvents, changed, workingOpen, newJobs, workingDedupe, newEvents;
      var dedupeKey := DedupOf(event);
      if dedupeKey in workingDedupe || dedupeKey in dedupe {
        var existingId := if dedupeKey in workingDedupe then workingDedupe[dedupeKey] else dedupe[dedupeKey];
        assert existingId == w.state.dedupe[dedupeKey];
        var existing := if existingId in newEvents then newEvents[existingId] else events[existingId];
        outcome' := outcome' + [DeliveryEvent(existingId, existing.incidentId, NO_ID, Duplicate)];
        return;
      }
      var incident, newIncident := FindIncident(event, ids, changed, workingOpen, w.state);
      incident := Attached(incident, event, ids.event);
      var jobId := NO_ID;
      if event.state.Firing? {
        workingOpen' := workingOpen'[CorrOf(event) := incident.id];
        if newIncident {
          var job := Job(ids.job, incident.id, ids.event, Pending, 0, at, None, None, "", "", "");
          jobId := job.id;
          newJobs' := newJobs' + [job];
        }
      } else {
        workingOpen' := workingOpen' - {CorrOf(event)};
      }
      changed' := changed'[incident.id := incident];
      workingDedupe' := workingDedupe'[dedupeKey := ids.event];
      var stored := StoredEvent(ids.event, event, incident.id, deliveryId);
      storedEvents' := storedEvents' + [stored];
      newEvents' := newEvents'[ids.event := stored];
      outcome' := outcome' + [DeliveryEvent(ids.event, incident.id, jobId, Accepted)];
      UpdateAfterUnion(incidents, changed, incident.id, incident);
      UpdateAfterUnion(events, newEvents, ids.event, stored);
      UpdateAfterUnion(dedupe, workingDedupe, dedupeKey, ids.event);
    }

    // The first half of Ingest: validation and the batch-local copies.
    method Prepare(b: Batch)
      returns (ok: bool, outcome: seq<DeliveryEvent>, storedEvents: seq<StoredEvent>, changed: Incidents,
               workingOpen: map<Key, Id>, newJobs: seq<Job>)
      requires Valid() && FreshBatch(Current().state, b) && |b.events| <= MAXIMUM_EVENTS_PER_BATCH
      ensures ok <==> forall k :: 0 <= k < |b.events| ==> Validate(b.events[k])
      ensures ok ==>
        var w := IngestAll(Current().state, b);
        && outcome == w.outcome && storedEvents == w.events && newJobs == w.jobs
        && workingOpen == w.state.open && changed.Keys == w.touched
        && (forall i :: i in changed ==> i in w.state.tables.incidents && changed[i] == w.state.tables.incidents[i])
    {
      hide Inv, CoreInv, WaitingOk, IngestOne, FreshBatch;
      ghost var s := Current().state;
      assert Inv(s) by { InvOf(Current()); }
      assert |b.ids| == |b.events| by { FreshIdCount(s, b); }
      var workingDedupe: map<Key, Id> := map[];
      var newEvents: Events := map[];
      outcome, storedEvents, changed, workingOpen, newJobs := [], [], map[], openIncident, [];
      for i := 0 to |b.events|
        invariant |b.ids| == |b.events|
        invariant forall k :: 0 <= k < i ==> Validate(b.events[k])
        invariant Copies(s, IngestUpto(s, b, i), workingDedupe, workingOpen, changed, newEvents)
        invariant storedEvents == IngestUpto(s, b, i).events
        invariant newJobs == IngestUpto(s, b, i).jobs
        invariant outcome == IngestUpto(s, b, i).outcome
      {
        if !Validate(b.events[i]) { ok := false; return; }
        ghost var w := IngestUpto(s, b, i);
        IngestUptoFresh(s, b, i);
        outcome, storedEvents, changed, workingOpen, newJobs, workingDedupe, newEvents :=
          PrepareOne(b.events[i], b.ids[i], b.deliveryId, b.at, outcome, storedEvents, changed, workingOpen, newJobs,
                     workingDedupe, newEvents, w);
      }
      ok := true;
    }

    static lemma {:induction false} PickAgrees<V>(m: map<Id, V>, m': map<Id, V>, order: seq<Id>)
      requires forall k :: 0 <= k < |order| ==> order[k] in m && order[k] in m' && m[order[k]] == m'[order[k]]
      ensures Pick(m, order) == Pick(m', order)
    {
      if order != [] { PickAgrees(m, m', order[..|order| - 1]); }
    }

    static function PutDedupe(d: map<Key, Id>, vs: seq<StoredEvent>): map<Key, Id> {
      if vs == [] then d
      else PutDedupe(d, vs[..|vs| - 1])[DedupOf(vs[|vs| - 1].event) := vs[|vs| - 1].id]
    }

    static lemma OneDedupes(w: Work, e: Event, ids: Ids, deliveryId: Id, at: int)
      ensures var w' := IngestOne(w, e, ids, deliveryId, at);
              if DedupOf(e) in w.state.dedupe then w'.events == w.events && w'.state.dedupe == w.state.dedupe
              else
                var n := |w.events|;
                && |w'.events| == n + 1 && w'.events[..n] == w.events
                && w'.state.dedupe == w.state.dedupe[DedupOf(w'.events[n].event) := w'.events[n].id]
    {
      hide OpensIncident, IncidentFor, AttachEvent, NewJob, DedupOf, CorrOf;
    }

    static lemma {:induction false} DedupeReplays(s: State, b: Batch, n: nat)
      requires n <= |b.events| == |b.ids|
      ensures PutDedupe(s.dedupe, IngestUpto(s, b, n).events) == IngestUpto(s, b, n).state.dedupe
    {
      if n > 0 {
        hide DedupOf, IngestOne;
        DedupeReplays(s, b, n - 1);
        OneDedupes(IngestUpto(s, b, n - 1), b.events[n - 1], b.ids[n - 1], b.deliveryId, b.at);
      }
    }

    static lemma EventsMatchIds(c: Core, op: Op)
      requires op.Ingest? && Enabled(c, op)
      ensures |op.batch.events| == |op.batch.ids|
    {
    }

    // What StateAfter says, field by field, in terms of the record.
    static lemma CommittedState(c: Core, op: Op)
      requires CoreInv(c) && op.Ingest? && Enabled(c, op)
      ensures var s, s', r, w := c.state, StateAfter(c, op), RecordOf(c, op), IngestAll(c.state, op.batch);
              var d := DeliveryOf(op.batch, w);
              && s'.tables == Tables(s.tables.deliveries[d.id := d], PutAll(s.tables.events, r.events, StoredEventId),
                                     PutAll(s.tables.incidents, r.incidents, IncidentId),
                                     PutAll(s.tables.jobs, r.jobs, JobId))
              && s'.dedupe == PutDedupe(s.dedupe, r.events) && s'.open == w.state.open
              && (Signals(c, op) <==> r.jobs != [])
    {
      hide Inv, CoreInv, IngestUpto, Enabled, PutAll, PutDedupe, WellFormed;
      OpReplays(c, op);
      DedupeReplays(c.state, op.batch, |op.batch.events|) by { EventsMatchIds(c, op); }
    }

    method PutEvents(vs: seq<StoredEvent>)
      modifies `events, `dedupe
      ensures events == PutAll(old(events), vs, StoredEventId)
      ensures dedupe == PutDedupe(old(dedupe), vs)
    {
      for i := 0 to |vs|
        invariant events == PutAll(old(events), vs[..i], StoredEventId)
        invariant dedupe == PutDedupe(old(dedupe), vs[..i])
      {
        assert vs[..i + 1][..i] == vs[..i];
        events := events[vs[i].id := vs[i]];
        dedupe := dedupe[DedupOf(vs[i].event) := vs[i].id];
      }
      assert vs[..|vs|] == vs;
    }

    method PutIncidents(vs: seq<Incident>)
      modifies `incidents
      ensures incidents == PutAll(old(incidents), vs, IncidentId)
    {
      for i := 0 to |vs|
        invariant incidents == PutAll(old(incidents), vs[..i], IncidentId)
      {
        assert vs[..i + 1][..i] == vs[..i];
        incidents := incidents[vs[i].id := vs[i]];
      }
      assert vs[..|vs|] == vs;
    }

    method PutJobs(vs: seq<Job>)
      modifies `jobs
      ensures jobs == PutAll(old(jobs), vs, JobId)
    {
      for i := 0 to |vs|
        invariant jobs == PutAll(old(jobs), vs[..i], JobId)
      {
        assert vs[..i + 1][..i] == vs[..i];
        jobs := jobs[vs[i].id := vs[i]];
      }
      assert vs[..|vs|] == vs;
    }

    // The second half of Ingest: append, then copy the record into memory.
    method CommitIngest(record: Record, delivery: Delivery, workingOpen: map<Key, Id>, ghost op: Op)
      requires Valid() && op.Ingest? && Enabled(Current(), op) && record == RecordOf(Current(), op)
      requires delivery == DeliveryOf(op.batch, IngestAll(Current().state, op.batch))
      requires workingOpen == IngestAll(Current().state, op.batch).state.open
      modifies this
      ensures Current() == Apply(old(Current()), op) && Valid() && Waiters() == old(Waiters())
      ensures wake == (old(wake) || Signals(old(Current()), op))
    {
      hide Inv, WaitingOk, CoreInv, IngestUpto, IngestAll, DeliveryOf, Enabled, RecordOf, StateAfter, Signals, PutAll,
          PutDedupe;
      ghost var c := Current();
      log := log + [record];
      deliveries := deliveries[delivery.id := delivery];
      PutEvents(record.events);
      PutIncidents(record.incidents);
      openIncident := workingOpen;
      PutJobs(record.jobs);
      if |record.jobs| > 0 { wake := true; }
      CommittedState(c, op);
      assert Current() == Apply(c, op);
      StepKeepsCoreInv(c, op);
      NonCompletingKeepsWaiting(c, Waiters(), op);
    }

    // The token is set exactly when a batch brings new jobs.
    static lemma NewJobsSignal(c: Core, b: Batch, order: seq<Id>)
      requires CoreInv(c) && Enabled(c, AlertModel.Ingest(b, order))
      ensures Signals(c, AlertModel.Ingest(b, order)) <==>
                StateAfter(c, AlertModel.Ingest(b, order)).tables.jobs.Keys != c.state.tables.jobs.Keys
    {
      hide Inv, DeliveredOk, IngestUpto, HistoryOk, WellFormed, Replay, BatchAccepted, Enumerates, FreshIds;
      var s, w := c.state, IngestAll(c.state, b);
      IngestUptoReplays(s, b, |b.events|);
      if w.jobs != [] {
        var last := w.jobs[|w.jobs| - 1];
        assert last.id in w.state.tables.jobs && last.id !in s.tables.jobs;
      }
    }

    // One batch: built on local copies, appended as one record, then committed. The
    // outcome equals applying the events one at a time to the live state.
    method Ingest(b: Batch, diskOk: bool) returns (r: Result<Delivery, StoreError>, ghost order: seq<Id>)
      requires Valid() && FreshBatch(Current().state, b)
      modifies this
      ensures Valid() && Waiters() == old(Waiters())
      ensures r.Ok? <==> BatchAccepted(b) && diskOk
      ensures r.Err? ==> Current() == old(Current()) && wake == old(wake)
      ensures r.Ok? ==>
        && Enabled(old(Current()), AlertModel.Ingest(b, order))
        && Current() == Apply(old(Current()), AlertModel.Ingest(b, order))
        && wake == (old(wake) || Signals(old(Current()), AlertModel.Ingest(b, order)))
        && r.value == DeliveryOf(b, IngestAll(old(Current()).state, b))
      ensures r.Ok? ==>
        && b.deliveryId in deliveries && deliveries[b.deliveryId] == r.value && |r.value.events| == |b.events|
        && (forall k :: 0 <= k < |b.events| ==> Answers(old(Current()).state, b, events, k, r.value.events[k]))
        && (wake <==> old(wake) || jobs.Keys != old(jobs).Keys)
    {
      order := [];
      if |b.events| == 0 || |b.events| > MAXIMUM_EVENTS_PER_BATCH { return Err(InvalidBatch), order; }
      var ok, outcome, storedEvents, changed, workingOpen, newJobs := Prepare(b);
      if !ok { return Err(InvalidBatch), order; }
      var delivery := Delivery(b.deliveryId, Text.Bounded(b.source, 64), b.at, b.hash, outcome);
      var sortedIds := Sorted(changed.Keys);
      order := sortedIds;
      var changedIncidents := Pick(changed, sortedIds);
      var record := Record(STORE_VERSION, "ingestion", Some(delivery), storedEvents, changedIncidents, newJobs);
      if !diskOk { return Err(AppendFailed), order; }
      ghost var c := Current();
      ghost var op := AlertModel.Ingest(b, order);
      assert record == RecordOf(c, op) by {
        PickAgrees(changed, IngestAll(c.state, b).state.tables.incidents, order);
      }
      CommitIngest(record, delivery, workingOpen, op);
      IngestAnswers(c, b, order);
      NewJobsSignal(c, b, order);
      hide Answers, IngestUpto;
      r := Ok(delivery);
    }

    // The oldest pending job, whatever order the job map is visited in.
    method OldestPending() returns (oldest: Option<Job>)
      requires Valid()
      ensures oldest.None? <==> !HasPending(jobs)
      ensures oldest.Some? ==> Claimable(Current().state, oldest.value.id) && jobs[oldest.value.id] == oldest.value
    {
      hide WaitingOk, CoreInv;
      assert forall j :: j in jobs ==> jobs[j].id == j by {
        forall j | j in jobs ensures jobs[j].id == j { IdsMatch(Current(), j); }
      }
      var todo := jobs.Keys;
      oldest := None;
      while todo != {}
        invariant todo <= jobs.Keys
        invariant oldest.None? ==> forall j :: j in jobs && jobs[j].status.Pending? ==> j in todo
        invariant oldest.Some? ==>
                    oldest.value.id in jobs && jobs[oldest.value.id] == oldest.value && oldest.value.status.Pending?
        invariant oldest.Some? ==> forall j :: j in jobs && j !in todo && jobs[j].status.Pending? ==>
                    oldest.value.createdAt <= jobs[j].createdAt
        decreases todo
      {
        var j :| j in todo;
        todo := todo - {j};
        if jobs[j].status.Pending? && (oldest.None? || jobs[j].createdAt < oldest.value.createdAt) {
          oldest := Some(jobs[j]);
        }
      }
    }

    // Claims the oldest pending job.
    method ClaimNext(now: int, diskOk: bool) returns (r: Result<Option<Job>, StoreError>)
      requires Valid()
      modifies this
      ensures Valid() && Waiters() == old(Waiters()) && wake == old(wake)
      ensures r.Err? <==> HasPending(old(jobs)) && !diskOk
      ensures r == Ok(None) <==> !HasPending(old(jobs))
      ensures r.Err? || r == Ok(None) ==> Current() == old(Current())
      ensures r.Ok? && r.value.Some? ==>
        var job := r.value.value;
        && Enabled(old(Current()), Claim(job.id, now))
        && Current() == Apply(old(Current()), Claim(job.id, now))
        && job.id in jobs && jobs[job.id] == job
        && ChangesJobs(old(Current()).state, Current().state, Claim(job.id, now))
        && job.id in old(jobs) && old(jobs)[job.id].status.Pending?
        && forall j :: j in old(jobs) && old(jobs)[j].status.Pending? ==> job.createdAt <= old(jobs)[j].createdAt
    {
      hide CoreInv, WaitingOk, HasPending, ChangesJobs;
      var oldest := OldestPending();
      if oldest.None? { return Ok(None); }
      var job := oldest.value;
      job := job.(status := Running, startedAt := Some(now), completedAt := None, error := "", detail := "",
                  attempts := job.attempts + 1);
      if !diskOk { return Err(AppendFailed); }
      ghost var c, op := Current(), Claim(job.id, now);
      log := log + [Record(STORE_VERSION, "job_updated", None, [], [], [job])];
      jobs := jobs[job.id := job];
      assert Current() == Apply(c, op);
      StepKeepsCoreInv(c, op);
      JobOperationsChange(c, op);
      NonCompletingKeepsWaiting(c, Waiters(), op);
      r := Ok(Some(job));
    }

    static lemma IncidentIdsMatch(c: Core, i: Id)
      requires CoreInv(c)
      ensures i in c.state.tables.incidents ==> c.state.tables.incidents[i].id == i
    {
    }

    // Sends the job once to each waiter and closes its channel. The assertion in the
    // loop is why no send blocks while the lock is held.
    method NotifyWaiters(job: Job, ghost before: Jobs)
      requires WaitingOk(Waiters(), before)
      modifies `waiters, `channels
      ensures Waiters() == Notify(old(Waiters()), job)
    {
      if job.id !in waiters { return; }
      var receivers := waiters[job.id];
      for i := 0 to |receivers|
        modifies `channels
        invariant channels.Keys == old(channels).Keys
        invariant forall c :: c in channels ==>
          channels[c] == if c in receivers[..i]
              then old(channels)[c].(sent := old(channels)[c].sent + [job], closed := true)
                         else old(channels)[c]
      {
        var c := receivers[i];
        NotifyNeverBlocks(old(Waiters()), before, job, i);
        assert channels[c].sent == [] && !channels[c].closed;
        channels := channels[c := channels[c].(sent := channels[c].sent + [job], closed := true)];
      }
      assert receivers[..|receivers|] == receivers;
      waiters := waiters - {job.id};
    }

    // The finished job and, if it linked a run, its incident.
    method Completed(jobId: Id, status: JobStatus, runId: string, error: string, detail: string, now: int)
      returns (job: Job, changed: seq<Incident>)
      requires jobId in jobs
      ensures job == Finished(jobs[jobId], status, runId, error, detail, now) && job.id == jobs[jobId].id
              && job.status == status
      ensures changed == if job.runId != "" && job.incidentId in incidents
                         then [LinkRun(incidents[job.incidentId], job.runId)] else []
      ensures changed != [] ==> changed[0].id == incidents[job.incidentId].id
    {
      hide Text.Bounded;
      job := jobs[jobId];
      job := job.(status := status, completedAt := Some(now), runId := Text.Bounded(runId, 256));
      job := job.(error := Text.Bounded(error, 1024), detail := Text.Bounded(detail, 2048));
      changed := [];
      if job.runId != "" && job.incidentId in incidents {
        var incident := incidents[job.incidentId].(lastRunId := job.runId);
        incident := incident.(runIds := if job.runId in incident.runIds then incident.runIds
                              else incident.runIds + [job.runId]);
        changed := [incident];
      }
    }

    // Finishes a running job, links its run to the incident and hands the job to its waiters.
    method CompleteJob(jobId: Id, status: JobStatus, runId: string, error: string, detail: string, now: int,
                       diskOk: bool)
      returns (r: Result<(), StoreError>)
      requires Valid()
      modifies this
      ensures Valid() && wake == old(wake)
      ensures r.Ok? <==>
                (status.Succeeded? || status.Failed?) && jobId in old(jobs) && old(jobs)[jobId].status.Running?
                    && diskOk
      ensures r.Err? ==> Current() == old(Current()) && Waiters() == old(Waiters())
      ensures r.Ok? ==>
        var op := Complete(jobId, status, runId, error, detail, now);
        && Enabled(old(Current()), op)
        && Current() == Apply(old(Current()), op)
        && Waiters() == WaitingAfter(old(Current()), old(Waiters()), op)
        && ChangesJobs(old(Current()).state, Current().state, op)
    {
      hide CoreInv, WaitingOk, Notify, Finished, LinkRun, Inv, ChangesJobs;
      if !status.Succeeded? && !status.Failed? { return Err(InvalidStatus); }
      if jobId !in jobs || !jobs[jobId].status.Running? { return Err(NotRunning); }
      IdsMatch(Current(), jobId);
      var job, changed := Completed(jobId, status, runId, error, detail, now);
      if !diskOk { return Err(AppendFailed); }
      ghost var c, op := Current(), Complete(jobId, status, runId, error, detail, now);
      assert Enabled(c, op);
      IncidentIdsMatch(c, job.incidentId);
      ghost var waiting := Waiters();
      log := log + [Record(STORE_VERSION, "job_updated", None, [], changed, [job])];
      jobs := jobs[job.id := job];
      if changed != [] { incidents := incidents[changed[0].id := changed[0]]; }
      assert Current() == Apply(c, op);
      StepKeepsCoreInv(c, op);
      JobOperationsChange(c, op);
      StoreKeepsWaiting(c, waiting, op);
      assert jobs[jobId] == StateAfter(c, op).tables.jobs[jobId] == job;
      NotifyWaiters(job, c.state.tables.jobs);
      r := Ok(());
    }

    static lemma PickNothing(jobs: map<Id, Job>)
      ensures Pick(RecoverAll(jobs), []) == []
    {
    }

    static lemma PickOneMore<V>(m: map<Id, V>, order: seq<Id>, j: Id)
      ensures Pick(m, order + [j]) == Pick(m, order) + if j in m then [m[j]] else []
    {
      assert (order + [j])[..|order|] == order;
    }

    // The running jobs, reset to pending, in any order.
    method CollectRunning() returns (recovered: seq<Job>, ghost order: seq<Id>)
      ensures Enumerates(order, RunningJobs(Current().state.tables))
      ensures |order| == |recovered| && recovered == Pick(RecoverAll(jobs), order)
    {
      hide Pick;
      PickNothing(jobs);
      ghost var t := Current().state.tables;
      var todo := jobs.Keys;
      recovered, order := [], [];
      while todo != {}
        invariant todo <= jobs.Keys
        invariant |order| == |recovered|
        invariant Enumerates(order, RunningJobs(t) - todo)
        invariant recovered == Pick(RecoverAll(jobs), order)
        decreases todo
      {
        var j :| j in todo;
        todo := todo - {j};
        if jobs[j].status.Running? {
          var job := jobs[j].(status := Pending, startedAt := None, completedAt := None);
          recovered := recovered + [job.(error := "", detail := "", runId := "")];
          PickOneMore(RecoverAll(jobs), order, j);
          order := order + [j];
        }
      }
      assert RunningJobs(t) - todo == RunningJobs(t);
    }

    static lemma {:induction false} EnumerationLength(order: seq<Id>, ids: set<Id>)
      requires Enumerates(order, ids)
      ensures |order| == |ids|
    {
      if order == [] {
        assert ids == {};
      } else {
        var n := |order| - 1;
        assert Enumerates(order[..n], ids - {order[n]});
        EnumerationLength(order[..n], ids - {order[n]});
      }
    }

    // Returns interrupted jobs to the queue after a restart.
    method RecoverRunning(diskOk: bool) returns (r: Result<nat, StoreError>, ghost order: seq<Id>)
      requires Valid()
      modifies this
      ensures Valid() && Waiters() == old(Waiters())
      ensures r.Err? <==> RunningJobs(old(Current()).state.tables) != {} && !diskOk
      ensures r.Err? || r == Ok(0) ==> Current() == old(Current()) && wake == old(wake)
      ensures r.Ok? ==> r.value == |RunningJobs(old(Current()).state.tables)|
      ensures r.Ok? && r.value > 0 ==>
        && Enabled(old(Current()), Recover(order)) && wake && Current() == Apply(old(Current()), Recover(order))
        && ChangesJobs(old(Current()).state, Current().state, Recover(order))
    {
      hide ChangesJobs, CoreInv, WaitingOk, RunningJobs, Enumerates, RecoverAll, PutAll, WellFormed, JobsStep, Inv;
      ghost var c := Current();
      var recovered;
      recovered, order := CollectRunning();
      EnumerationLength(order, RunningJobs(c.state.tables));
      if |recovered| == 0 { return Ok(0), order; }
      if !diskOk { return Err(AppendFailed), order; }
      ghost var op := Recover(order);
      log := log + [Record(STORE_VERSION, "jobs_recovered", None, [], [], recovered)];
      PutJobs(recovered);
      RecoverReplays(c, order);
      JobOperationsChange(c, op);
      assert jobs == ApplyRecord(c.state.tables, RecordOf(c, op)).jobs;
      wake := true;
      assert Current() == Apply(c, op);
      StepKeepsCoreInv(c, op);
      NonCompletingKeepsWaiting(c, Waiters(), op);
      r := Ok(|recovered|);
    }

    // WaitJob up to its select: a finished job at once, otherwise a registered channel.
    method StartWait(jobId: Id, channel: nat) returns (r: Result<WaitStart, StoreError>)
      requires Valid() && channel !in channels
      modifies `waiters, `channels
      ensures Valid()
      ensures r.Err? <==> jobId !in jobs
      ensures r.Ok? && r.value.Ready? <==> jobId in jobs && Terminal(jobs[jobId])
      ensures r.Ok? && r.value.Ready? ==> r.value.job == jobs[jobId]
      ensures r.Ok? && r.value.Registered? ==> Waiters() == Register(old(Waiters()), jobId, channel)
      ensures r.Err? || r.value.Ready? ==> Waiters() == old(Waiters())
    {
      hide CoreInv, WaitingOk;
      if jobId !in jobs { return Err(UnknownJob); }
      var job := jobs[jobId];
      if Terminal(job) { return Ok(Ready(job)); }
      RegisterKeeps(Waiters(), jobs, jobId, channel);
      channels := channels[channel := Channel(jobId, [], false, false)];
      waiters := waiters[jobId := (if jobId in waiters then waiters[jobId] else []) + [channel]];
      r := Ok(Registered(channel));
    }

    static lemma CutFirst(cs: seq<nat>, c: nat)
      ensures var i := IndexOf(cs, c); Without(cs, c) == if i < |cs| then cs[..i] + cs[i + 1..] else cs
    {
    }

    static lemma FirstIndex(cs: seq<nat>, c: nat, i: nat)
      requires i <= |cs| && c !in cs[..i] && (i < |cs| ==> cs[i] == c)
      ensures IndexOf(cs, c) == i
    {
      var k := IndexOf(cs, c);
      assert forall j :: 0 <= j < i ==> cs[j] == cs[..i][j];
      assert forall j :: 0 <= j < k ==> cs[j] == cs[..k][j];
    }

    // The cancelled branch of WaitJob: search the list and cut the channel out.
    method CancelWait(channel: nat)
      requires Valid() && channel in channels
      modifies `waiters, `channels
      ensures Valid() && Waiters() == Cancel(old(Waiters()), channel)
    {
      hide CoreInv, WaitingOk, IndexOf, Without;
      CancelKeeps(Waiters(), jobs, channel);
      var jobId := channels[channel].job;
      channels := channels[channel := channels[channel].(cancelled := true)];
      var waiting := if jobId in waiters then waiters[jobId] else [];
      var index := 0;
      while index < |waiting| && waiting[index] != channel
        invariant index <= |waiting| && channel !in waiting[..index]
      {
        index := index + 1;
      }
      FirstIndex(waiting, channel, index);
      CutFirst(waiting, channel);
      if index < |waiting| { waiting := waiting[..index] + waiting[index + 1..]; }
      if |waiting| == 0 { waiters := waiters - {jobId}; } else { waiters := waiters[jobId := waiting]; }
    }

    // Opens the file: replays the tables line by line, then derives both indexes,
    // visiting the maps in any order. A malformed line fails the open.
    static method OpenStore(lines: seq<Record>) returns (r: Result<Store, StoreError>)
      ensures r.Ok? <==> forall k :: 0 <= k < |lines| ==> WellFormed(lines[k])
      ensures r.Ok? ==> fresh(r.value) && r.value.log == lines && r.value.Current().state.tables == Replay(lines)
      ensures r.Ok? ==> IsDedupeIndex(Replay(lines), r.value.dedupe) && IsOpenIndex(Replay(lines), r.value.openIncident)
      ensures r.Ok? ==> !r.value.wake && r.value.Waiters() == Waiting(map[], map[])
    {
      hide WellFormed, ApplyRecord, IsDedupeIndex, IsOpenIndex;
      var store := new Store();
      store.log := lines;
      for line := 0 to |lines|
        invariant fresh(store) && store.log == lines && store.dedupe == map[] && store.openIncident == map[]
        invariant !store.wake && store.Waiters() == Waiting(map[], map[])
        invariant forall k :: 0 <= k < line ==> WellFormed(lines[k])
        invariant store.Current().state.tables == Replay(lines[..line])
      {
        assert lines[..line + 1][..line] == lines[..line];
        var ok := store.LoadLine(lines[line]);
        if !ok { return Err(BadLine(line + 1)); }
      }
      assert lines[..|lines|] == lines;
      store.DeriveIndexes();
      r := Ok(store);
    }

    method LoadEvents(vs: seq<StoredEvent>) returns (ok: bool)
      modifies `events
      ensures ok <==> forall k :: 0 <= k < |vs| ==> vs[k].id != NO_ID && vs[k].incidentId != NO_ID
      ensures ok ==> events == PutAll(old(events), vs, StoredEventId)
    {
      for i := 0 to |vs|
        invariant forall k :: 0 <= k < i ==> vs[k].id != NO_ID && vs[k].incidentId != NO_ID
        invariant events == PutAll(old(events), vs[..i], StoredEventId)
      {
        if vs[i].id == NO_ID || vs[i].incidentId == NO_ID { return false; }
        assert vs[..i + 1][..i] == vs[..i];
        events := events[vs[i].id := vs[i]];
      }
      assert vs[..|vs|] == vs;
      ok := true;
    }

    // One turn of the loading loop.
    method LoadLine(record: Record) returns (ok: bool)
      modifies `deliveries, `events, `incidents, `jobs
      ensures ok <==> WellFormed(record)
      ensures ok ==> Current().state.tables == ApplyRecord(old(Current()).state.tables, record)
    {
      hide PutAll;
      if record.version != STORE_VERSION { return false; }
      if record.kind == "ingestion" {
        if record.delivery.None? || record.delivery.value.id == NO_ID { return false; }
        deliveries := deliveries[record.delivery.value.id := record.delivery.value];
        ok := LoadEvents(record.events);
        if !ok { return; }
      } else if record.kind != "job_updated" && record.kind != "jobs_recovered" {
        return false;
      }
      PutIncidents(record.incidents);
      PutJobs(record.jobs);
      ok := true;
    }

    method DeriveIndexes()
      requires dedupe == map[] && openIncident == map[]
      modifies `dedupe, `openIncident
      ensures IsDedupeIndex(Current().state.tables, dedupe) && IsOpenIndex(Current().state.tables, openIncident)
    {
      hide DedupOf, IncidentKey;
      var todo := events.Keys;
      while todo != {}
        modifies `dedupe
        invariant todo <= events.Keys
        invariant forall k :: k in dedupe ==>
                    exists e :: e in events && DedupOf(events[e].event) == k && events[e].id == dedupe[k]
        invariant forall e :: e in events && e !in todo ==> DedupOf(events[e].event) in dedupe
        decreases todo
      {
        var e :| e in todo;
        todo := todo - {e};
        dedupe := dedupe[DedupOf(events[e].event) := events[e].id];
      }
      todo := incidents.Keys;
      while todo != {}
        modifies `openIncident
        invariant todo <= incidents.Keys
        invariant forall k :: k in openIncident ==>
          exists i :: i in incidents && incidents[i].state.Firing? && IncidentKey(incidents[i]) == k
              && incidents[i].id == openIncident[k]
        invariant forall i :: i in incidents && i !in todo && incidents[i].state.Firing? ==>
                    IncidentKey(incidents[i]) in openIncident
        decreases todo
      {
        var i :| i in todo;
        todo := todo - {i};
        if incidents[i].state.Firing? { openIncident := openIncident[IncidentKey(incidents[i]) := incidents[i].id]; }
      }
    }

    // Closing a valid store and opening its file again gives the same store.
    static method Restart(live: Store) returns (again: Store)
      requires live.Valid()
      ensures fresh(again) && again.Valid() && again.Current() == live.Current()
    {
      hide IsDedupeIndex, IsOpenIndex, Inv, WellFormed, HistoryOk;
      var r := OpenStore(live.log);
      assert r.Ok?;
      again := r.value;
      DerivedIndexesAreLive(live.Current().state, again.dedupe, again.openIncident);
    }
  }
}
