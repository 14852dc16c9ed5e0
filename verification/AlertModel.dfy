// The alert store's data, its operations as functions on values, and what
// every run of them keeps. AlertStore.dfy holds the mutable store itself.

module AlertModel {
  import opened Wrappers
  import Text

  // Identifiers are opaque; NO_ID stands for the empty string.
  type Id = nat
  const NO_ID: Id := 0

  const MAXIMUM_EVENTS_PER_BATCH: nat := 128
  const STORE_VERSION := 1

  datatype AlertState = Firing | Resolved

  datatype Source = Source(kind: string, name: string, providerEventId: string)

  datatype Details = Details(name: string, severity: string, entity: string)

  // checksPass is the verdict of the Validate checks on fields not modelled here.
  datatype Event = Event(source: Source, state: AlertState, details: Details, observedAt: int,
                         dedupKey: string, corrKey: string, checksPass: bool)

  // Source name and key; the store joins them with a NUL character.
  datatype Key = Key(source: string, key: string)

  datatype StoredEvent = StoredEvent(id: Id, event: Event, incidentId: Id, deliveryId: Id)

  datatype Incident = Incident(id: Id, corrKey: string, source: Source, state: AlertState, details: Details,
                               openedAt: int, updatedAt: int, resolvedAt: Option<int>,
                               eventIds: seq<Id>, runIds: seq<string>, lastRunId: string)

  datatype JobStatus = Pending | Running | Succeeded | Failed

  datatype Job = Job(id: Id, incidentId: Id, eventId: Id, status: JobStatus, attempts: nat, createdAt: int,
                     startedAt: Option<int>, completedAt: Option<int>, runId: string, error: string, detail: string)

  datatype DeliveryStatus = Accepted | Duplicate

  datatype DeliveryEvent = DeliveryEvent(eventId: Id, incidentId: Id, jobId: Id, status: DeliveryStatus)

  datatype Delivery = Delivery(id: Id, source: string, receivedAt: int, payloadHash: string, events: seq<DeliveryEvent>)

  datatype Tables = Tables(deliveries: map<Id, Delivery>, events: map<Id, StoredEvent>,
                           incidents: map<Id, Incident>, jobs: map<Id, Job>)

  // The tables and the two derived indexes.
  datatype State = State(tables: Tables, dedupe: map<Key, Id>, open: map<Key, Id>)

  datatype Record = Record(version: int, kind: string, delivery: Option<Delivery>,
                           events: seq<StoredEvent>, incidents: seq<Incident>, jobs: seq<Job>)

  // The store in memory and its append-only file.
  datatype Core = Core(state: State, log: seq<Record>)

  const EMPTY_TABLES := Tables(map[], map[], map[], map[])
  const EMPTY := Core(State(EMPTY_TABLES, map[], map[]), [])

  function DedupOf(e: Event): Key { Key(e.source.name, e.dedupKey) }

  function CorrOf(e: Event): Key { Key(e.source.name, e.corrKey) }

  function IncidentKey(i: Incident): Key { Key(i.source.name, i.corrKey) }

  predicate Validate(e: Event) {
    e.checksPass && e.dedupKey != "" && e.corrKey != ""
  }

  function Joined(k: Key): string { Text.Joined(k.source, k.key) }

  // Validated source names contain no NUL, so the joined key is as good as the pair.
  lemma JoinedKeyIsInjective(a: Key, b: Key)
    requires '\0' !in a.source && '\0' !in b.source
    ensures Joined(a) == Joined(b) <==> a == b
  {
    if Joined(a) == Joined(b) { Text.JoinedFirst(a.source, a.key, b.source, b.key); }
  }

  // ---------------------------------------------------------------- Ingest

  // Identifiers drawn for one event of a batch, used or not.
  datatype Ids = Ids(event: Id, incident: Id, job: Id)

  datatype Batch = Batch(source: string, hash: string, events: seq<Event>, ids: seq<Ids>, deliveryId: Id, at: int)

  // The state reached so far and the pieces of the record to be written.
  datatype Work = Work(state: State, outcome: seq<DeliveryEvent>, events: seq<StoredEvent>, jobs: seq<Job>,
                       touched: set<Id>)

  predicate OpensIncident(s: State, e: Event) {
    CorrOf(e) !in s.open || s.open[CorrOf(e)] !in s.tables.incidents
  }

  function AttachEvent(i: Incident, e: Event, eventId: Id): Incident {
    i.(state := e.state, details := e.details, updatedAt := e.observedAt, eventIds := i.eventIds + [eventId],
       resolvedAt := if e.state.Firing? then None else Some(e.observedAt))
  }

  function IncidentFor(s: State, e: Event, ids: Ids): Incident {
    if OpensIncident(s, e)
    then Incident(ids.incident, e.corrKey, e.source, e.state, e.details, e.observedAt, e.observedAt, None, [], [], "")
    else s.tables.incidents[s.open[CorrOf(e)]]
  }

  function NewJob(ids: Ids, incidentId: Id, at: int): Job {
    Job(ids.job, incidentId, ids.event, Pending, 0, at, None, None, "", "", "")
  }

  // One event applied straight to the state: the meaning of one turn of the
  // ingestion loop, without batch-local copies.
  function IngestOne(w: Work, e: Event, ids: Ids, deliveryId: Id, at: int): Work {
    var s := w.state;
    if DedupOf(e) in s.dedupe then
      var known := s.dedupe[DedupOf(e)];
      var incidentId := if known in s.tables.events then s.tables.events[known].incidentId else NO_ID;
      w.(outcome := w.outcome + [DeliveryEvent(known, incidentId, NO_ID, Duplicate)])
    else
      var incident := AttachEvent(IncidentFor(s, e, ids), e, ids.event);
      var stored := StoredEvent(ids.event, e, incident.id, deliveryId);
      var job := NewJob(ids, incident.id, at);
      var starts := e.state.Firing? && OpensIncident(s, e);
      var tables := s.tables.(events := s.tables.events[ids.event := stored],
                              incidents := s.tables.incidents[incident.id := incident],
                              jobs := if starts then s.tables.jobs[job.id := job] else s.tables.jobs);
      var open := if e.state.Firing? then s.open[CorrOf(e) := incident.id] else s.open - {CorrOf(e)};
      Work(State(tables, s.dedupe[DedupOf(e) := ids.event], open),
           w.outcome + [DeliveryEvent(ids.event, incident.id, if starts then job.id else NO_ID, Accepted)],
           w.events + [stored],
           if starts then w.jobs + [job] else w.jobs,
           w.touched + {incident.id})
  }

  function IngestUpto(s: State, b: Batch, n: nat): Work
    requires n <= |b.events| == |b.ids|
  {
    if n == 0 then Work(s, [], [], [], {})
    else IngestOne(IngestUpto(s, b, n - 1), b.events[n - 1], b.ids[n - 1], b.deliveryId, b.at)
  }

  function IngestAll(s: State, b: Batch): Work
    requires |b.events| == |b.ids|
  {
    IngestUpto(s, b, |b.events|)
  }

  function DeliveryOf(b: Batch, w: Work): Delivery {
    Delivery(b.deliveryId, Text.Bounded(b.source, 64), b.at, b.hash, w.outcome)
  }

  // Ascending enumeration of a finite set of identifiers.
  ghost predicate Enumerates(order: seq<Id>, ids: set<Id>) {
    && (forall k :: 0 <= k < |order| ==> order[k] in ids)
    && (forall i :: i in ids ==> i in order)
    && (forall j, k :: 0 <= j < k < |order| ==> order[j] != order[k])
  }

  function Pick<V>(m: map<Id, V>, order: seq<Id>): (vs: seq<V>)
    ensures (forall k :: 0 <= k < |order| ==> order[k] in m) ==>
              |vs| == |order| && forall k :: 0 <= k < |vs| ==> vs[k] == m[order[k]]
  {
    if order == [] then []
    else Pick(m, order[..|order| - 1]) + if order[|order| - 1] in m then [m[order[|order| - 1]]] else []
  }

  function IngestRecord(b: Batch, w: Work, order: seq<Id>): Record {
    Record(STORE_VERSION, "ingestion", Some(DeliveryOf(b, w)), w.events, Pick(w.state.tables.incidents, order), w.jobs)
  }

  function WithDelivery(s: State, d: Delivery): State {
    s.(tables := s.tables.(deliveries := s.tables.deliveries[d.id := d]))
  }

  predicate BatchAccepted(b: Batch) {
    1 <= |b.events| <= MAXIMUM_EVENTS_PER_BATCH && forall i :: 0 <= i < |b.events| ==> Validate(b.events[i])
  }

  ghost predicate FreshIds(s: State, ids: Ids) {
    && ids.event != NO_ID && ids.event !in s.tables.events
    && ids.incident != NO_ID && ids.incident !in s.tables.incidents
    && ids.job != NO_ID && ids.job !in s.tables.jobs
  }

  // What random identifiers are relied on for: never drawn before, never drawn twice.
  ghost predicate FreshBatch(s: State, b: Batch) {
    && |b.ids| == |b.events|
    && b.deliveryId != NO_ID && b.deliveryId !in s.tables.deliveries
    && (forall i :: 0 <= i < |b.ids| ==> FreshIds(s, b.ids[i]))
    && (forall i, j :: 0 <= i < j < |b.ids| ==>
          b.ids[i].event != b.ids[j].event && b.ids[i].incident != b.ids[j].incident && b.ids[i].job != b.ids[j].job)
  }

  // ------------------------------------------------- Claim, complete, recover

  function Claimed(j: Job, now: int): Job {
    j.(status := Running, startedAt := Some(now), completedAt := None, error := "", detail := "",
       attempts := j.attempts + 1)
  }

  // The oldest pending job; ties are broken arbitrarily.
  predicate Claimable(s: State, j: Id) {
    && j in s.tables.jobs && s.tables.jobs[j].status.Pending?
    && forall k :: k in s.tables.jobs && s.tables.jobs[k].status.Pending? ==>
         s.tables.jobs[j].createdAt <= s.tables.jobs[k].createdAt
  }

  function Finished(j: Job, status: JobStatus, runId: string, error: string, detail: string, now: int): Job {
    j.(status := status, completedAt := Some(now), runId := Text.Bounded(runId, 256),
       error := Text.Bounded(error, 1024), detail := Text.Bounded(detail, 2048))
  }

  function LinkRun(i: Incident, runId: string): Incident {
    i.(lastRunId := runId, runIds := if runId in i.runIds then i.runIds else i.runIds + [runId])
  }

  function Recovered(j: Job): Job {
    j.(status := Pending, startedAt := None, completedAt := None, error := "", detail := "", runId := "")
  }

  function RunningJobs(t: Tables): set<Id> {
    set j | j in t.jobs && t.jobs[j].status.Running?
  }

  function RecoverAll(jobs: map<Id, Job>): map<Id, Job> {
    map j | j in jobs :: if jobs[j].status.Running? then Recovered(jobs[j]) else jobs[j]
  }

  // ---------------------------------------------------------------- Steps

  datatype Op =
    | Ingest(batch: Batch, order: seq<Id>)
    | Claim(job: Id, now: int)
    | Complete(job: Id, status: JobStatus, runId: string, error: string, detail: string, now: int)
    | Recover(order: seq<Id>)

  ghost predicate Enabled(c: Core, op: Op) {
    match op
    case Ingest(b, order) => BatchAccepted(b) && FreshBatch(c.state, b)
      && Enumerates(order, IngestAll(c.state, b).touched)
    case Claim(j, _) => Claimable(c.state, j)
    case Complete(j, status, _, _, _, _) =>
      j in c.state.tables.jobs && c.state.tables.jobs[j].status.Running? && (status.Succeeded? || status.Failed?)
    case Recover(order) => order != [] && Enumerates(order, RunningJobs(c.state.tables))
  }

  function CompleteTables(t: Tables, job: Job): Tables {
    t.(jobs := t.jobs[job.id := job],
       incidents := if job.runId != "" && job.incidentId in t.incidents
                    then t.incidents[job.incidentId := LinkRun(t.incidents[job.incidentId], job.runId)]
                    else t.incidents)
  }

  // The record a successful operation appends.
  ghost function RecordOf(c: Core, op: Op): Record
    requires Enabled(c, op)
  {
    var t := c.state.tables;
    match op
    case Ingest(b, order) => IngestRecord(b, IngestAll(c.state, b), order)
    case Claim(j, now) => Record(STORE_VERSION, "job_updated", None, [], [], [Claimed(t.jobs[j], now)])
    case Complete(j, status, runId, error, detail, now) =>
      var job := Finished(t.jobs[j], status, runId, error, detail, now);
      Record(STORE_VERSION, "job_updated", None, [],
             if job.runId != "" && job.incidentId in t.incidents then [LinkRun(t.incidents[job.incidentId], job.runId)]
             else [],
             [job])
    case Recover(order) => Record(STORE_VERSION, "jobs_recovered", None, [], [], Pick(RecoverAll(t.jobs), order))
  }

  // The state it commits to memory.
  ghost function StateAfter(c: Core, op: Op): State
    requires Enabled(c, op)
  {
    var s := c.state;
    match op
    case Ingest(b, order) => var w := IngestAll(s, b); WithDelivery(w.state, DeliveryOf(b, w))
    case Claim(j, now) => s.(tables := s.tables.(jobs := s.tables.jobs[j := Claimed(s.tables.jobs[j], now)]))
    case Complete(j, status, runId, error, detail, now) =>
      s.(tables := CompleteTables(s.tables, Finished(s.tables.jobs[j], status, runId, error, detail, now)))
    case Recover(order) => s.(tables := s.tables.(jobs := RecoverAll(s.tables.jobs)))
  }

  ghost function Apply(c: Core, op: Op): Core
    requires Enabled(c, op)
  {
    Core(StateAfter(c, op), c.log + [RecordOf(c, op)])
  }

  // ---------------------------------------------------------------- Replay

  function StoredEventId(e: StoredEvent): Id { e.id }
  function IncidentId(i: Incident): Id { i.id }
  function JobId(j: Job): Id { j.id }

  // Later entries win, as in the loader's loops.
  function PutAll<V>(m: map<Id, V>, vs: seq<V>, id: V -> Id): map<Id, V> {
    if vs == [] then m
    else var last := vs[|vs| - 1]; PutAll(m, vs[..|vs| - 1], id)[id(last) := last]
  }

  predicate WellFormed(r: Record) {
    && r.version == STORE_VERSION
    && (r.kind == "ingestion" || r.kind == "job_updated" || r.kind == "jobs_recovered")
    && (r.kind == "ingestion" ==>
          r.delivery.Some? && r.delivery.value.id != NO_ID &&
          forall k :: 0 <= k < |r.events| ==> r.events[k].id != NO_ID && r.events[k].incidentId != NO_ID)
  }

  function ApplyRecord(t: Tables, r: Record): Tables {
    Tables(if r.kind == "ingestion" && r.delivery.Some? then t.deliveries[r.delivery.value.id := r.delivery.value]
           else t.deliveries,
           if r.kind == "ingestion" then PutAll(t.events, r.events, StoredEventId) else t.events,
           PutAll(t.incidents, r.incidents, IncidentId),
           PutAll(t.jobs, r.jobs, JobId))
  }

  function Replay(log: seq<Record>): Tables {
    if log == [] then EMPTY_TABLES else ApplyRecord(Replay(log[..|log| - 1]), log[|log| - 1])
  }

  // What the loader's index loops guarantee, whatever order they visit a map in.
  ghost predicate IsDedupeIndex(t: Tables, dedupe: map<Key, Id>) {
    && (forall k :: k in dedupe ==>
        exists e :: e in t.events && DedupOf(t.events[e].event) == k && t.events[e].id == dedupe[k])
    && (forall e :: e in t.events ==> DedupOf(t.events[e].event) in dedupe)
  }

  ghost predicate IsOpenIndex(t: Tables, open: map<Key, Id>) {
    && (forall k :: k in open ==> exists i :: i in t.incidents && t.incidents[i].state.Firing? &&
                                    IncidentKey(t.incidents[i]) == k && t.incidents[i].id == open[k])
    && (forall i :: i in t.incidents && t.incidents[i].state.Firing? ==> IncidentKey(t.incidents[i]) in open)
  }

  // ---------------------------------------------------------------- Invariant

  type Events = map<Id, StoredEvent>
  type Incidents = map<Id, Incident>
  type Jobs = map<Id, Job>

  // Every stored event is listed by the incident it names.
  ghost predicate EventsOk(events: Events, incidents: Incidents) {
    forall e :: e in events ==>
      && e != NO_ID && events[e].id == e
      && events[e].incidentId in incidents
      && e in incidents[events[e].incidentId].eventIds
  }

  ghost predicate EventOfIncident(events: Events, i: Incident, e: Id) {
    e in events && events[e].incidentId == i.id && CorrOf(events[e].event) == IncidentKey(i)
  }

  // Opened by its first event, an incident otherwise shows its last one.
  predicate Shows(i: Incident, first: Event, last: Event) {
    && i.source == first.source && i.openedAt == first.observedAt
    && i.state == last.state && i.details == last.details && i.updatedAt == last.observedAt
    && i.resolvedAt == if last.state.Firing? then None else Some(last.observedAt)
  }

  // An incident lists distinct events of its own key and shows the first and the last.
  ghost predicate IncidentOk(events: Events, i: Incident) {
    && i.eventIds != []
    && (forall j, k :: 0 <= j < k < |i.eventIds| ==> i.eventIds[j] != i.eventIds[k])
    && (forall k :: 0 <= k < |i.eventIds| ==> EventOfIncident(events, i, i.eventIds[k]))
    && Shows(i, events[i.eventIds[0]].event, events[i.eventIds[|i.eventIds| - 1]].event)
  }

  ghost predicate IncidentsOk(events: Events, incidents: Incidents) {
    forall i :: i in incidents ==> i != NO_ID && incidents[i].id == i && IncidentOk(events, incidents[i])
  }

  ghost predicate DedupeOk(events: Events, dedupe: map<Key, Id>) {
    && (forall k :: k in dedupe ==> dedupe[k] in events && DedupOf(events[dedupe[k]].event) == k)
    && (forall e :: e in events ==> DedupOf(events[e].event) in dedupe && dedupe[DedupOf(events[e].event)] == e)
  }

  ghost predicate OpenOk(incidents: Incidents, open: map<Key, Id>) {
    && (forall k :: k in open ==>
          open[k] in incidents && incidents[open[k]].state.Firing? && IncidentKey(incidents[open[k]]) == k)
    && (forall i :: i in incidents && incidents[i].state.Firing? ==>
          IncidentKey(incidents[i]) in open && open[IncidentKey(incidents[i])] == i)
  }

  // The incident's first event was a firing one.
  ghost predicate OpenedByFiring(events: Events, i: Incident) {
    i.eventIds != [] && i.eventIds[0] in events && events[i.eventIds[0]].event.state.Firing?
  }

  ghost predicate HasJob(jobs: Jobs, i: Id) {
    exists j :: j in jobs && jobs[j].incidentId == i
  }

  ghost predicate JobOk(events: Events, incidents: Incidents, job: Job) {
    && job.id != NO_ID
    && job.incidentId in incidents
    && OpenedByFiring(events, incidents[job.incidentId])
    && job.eventId == incidents[job.incidentId].eventIds[0]
  }

  // One job for each incident opened by a firing event, none for the others.
  ghost predicate JobsOk(events: Events, incidents: Incidents, jobs: Jobs) {
    && (forall j :: j in jobs ==> JobOk(events, incidents, jobs[j]) && jobs[j].id == j)
    && (forall j, k :: j in jobs && k in jobs && jobs[j].incidentId == jobs[k].incidentId ==> j == k)
    && (forall i :: i in incidents && OpenedByFiring(events, incidents[i]) ==> HasJob(jobs, i))
  }

  // Nothing is known of the investigation yet.
  predicate Untold(job: Job) {
    job.runId == "" && job.error == "" && job.detail == ""
  }

  // A job's times and diagnostics go with its status.
  predicate JobShape(job: Job) {
    match job.status
    case Pending => job.startedAt.None? && job.completedAt.None? && Untold(job)
    case Running => job.startedAt.Some? && job.completedAt.None? && Untold(job)
    case _ => job.startedAt.Some? && job.completedAt.Some?
  }

  function RunsOf(job: Job): seq<string> {
    if job.runId == "" then [] else [job.runId]
  }

  // An incident's runs are exactly the run of its job.
  ghost predicate RunsOk(i: Incident, jobs: Jobs) {
    && (forall j :: j in jobs && jobs[j].incidentId == i.id ==> i.runIds == RunsOf(jobs[j]))
    && (!HasJob(jobs, i.id) ==> i.runIds == [])
    && i.lastRunId == if i.runIds == [] then "" else i.runIds[|i.runIds| - 1]
  }

  ghost predicate LinksOk(incidents: Incidents, jobs: Jobs) {
    && (forall j :: j in jobs ==> JobShape(jobs[j]) && jobs[j].incidentId in incidents)
    && (forall i :: i in incidents ==> incidents[i].id == i && RunsOk(incidents[i], jobs))
  }

  ghost predicate Inv(s: State) {
    var t := s.tables;
    && LinksOk(t.incidents, t.jobs)
    && EventsOk(t.events, t.incidents)
    && IncidentsOk(t.events, t.incidents)
    && DedupeOk(t.events, s.dedupe)
    && OpenOk(t.incidents, s.open)
    && JobsOk(t.events, t.incidents, t.jobs)
  }

  // Job status moves: claim, complete, recover.
  predicate Moves(a: JobStatus, b: JobStatus) {
    || (a.Pending? && b.Running?)
    || (a.Running? && (b.Succeeded? || b.Failed? || b.Pending?))
  }

  function Find<V>(vs: seq<V>, id: V -> Id, k: Id): Option<V> {
    if vs == [] then None
    else if id(vs[|vs| - 1]) == k then Some(vs[|vs| - 1])
    else Find(vs[..|vs| - 1], id, k)
  }

  // Every status the file ever recorded for a job, oldest first.
  function History(log: seq<Record>, j: Id): seq<JobStatus> {
    if log == [] then []
    else
      var last := Find(log[|log| - 1].jobs, JobId, j);
      History(log[..|log| - 1], j) + if last.Some? then [last.value.status] else []
  }

  function CountRunning(h: seq<JobStatus>): nat {
    if h == [] then 0 else CountRunning(h[..|h| - 1]) + if h[|h| - 1].Running? then 1 else 0
  }

  ghost predicate LegalPath(h: seq<JobStatus>) {
    h != [] && h[0].Pending? && forall k :: 0 < k < |h| ==> Moves(h[k - 1], h[k])
  }

  ghost predicate HistoryOk(log: seq<Record>, jobs: map<Id, Job>, j: Id) {
    var h := History(log, j);
    if j in jobs then LegalPath(h) && h[|h| - 1] == jobs[j].status && CountRunning(h) == jobs[j].attempts
    else h == []
  }

  // The job an event started, or none.
  ghost predicate JobOf(jobs: Jobs, e: Id, j: Id) {
    if j == NO_ID then forall k :: k in jobs ==> jobs[k].eventId != e else j in jobs && jobs[j].eventId == e
  }

  // What a delivery says of an event: where it is stored, and the job it started.
  ghost predicate OutcomeOk(events: Events, jobs: Jobs, d: Id, o: DeliveryEvent) {
    && o.eventId in events && o.incidentId == events[o.eventId].incidentId
    && if o.status.Accepted? then events[o.eventId].deliveryId == d && JobOf(jobs, o.eventId, o.jobId)
       else o.jobId == NO_ID
  }

  ghost predicate OutcomesOk(events: Events, jobs: Jobs, d: Id, os: seq<DeliveryEvent>) {
    forall k :: 0 <= k < |os| ==> OutcomeOk(events, jobs, d, os[k])
  }

  ghost predicate Accepts(os: seq<DeliveryEvent>, e: Id) {
    exists k :: 0 <= k < |os| && os[k].eventId == e && os[k].status.Accepted?
  }

  // When the deliveries arrived is when the jobs of their events were created.
  ghost predicate ReceivedOk(received: map<Id, int>, events: Events, jobs: Jobs) {
    && (forall e :: e in events ==> events[e].deliveryId in received)
    && (forall j :: j in jobs ==>
          jobs[j].eventId in events && jobs[j].createdAt == received[events[jobs[j].eventId].deliveryId])
  }

  function Received(deliveries: map<Id, Delivery>): map<Id, int> {
    map d | d in deliveries :: deliveries[d].receivedAt
  }

  ghost predicate DeliveredOk(t: Tables) {
    && ReceivedOk(Received(t.deliveries), t.events, t.jobs)
    && (forall d :: d in t.deliveries ==>
          t.deliveries[d].id == d && OutcomesOk(t.events, t.jobs, d, t.deliveries[d].events))
    && (forall e :: e in t.events ==> Accepts(t.deliveries[t.events[e].deliveryId].events, e))
  }

  ghost predicate CoreInv(c: Core) {
    && Inv(c.state) && DeliveredOk(c.state.tables)
    && (forall k :: 0 <= k < |c.log| ==> WellFormed(c.log[k]))
    && Replay(c.log) == c.state.tables
    && (forall j: Id :: HistoryOk(c.log, c.state.tables.jobs, j))
  }

  // ------------------------------------------------------- Ingestion lemmas

  predicate IsNew(i: Incident, e: Event) {
    && i.eventIds == [] && i.source == e.source && i.openedAt == e.observedAt
    && i.runIds == [] && i.lastRunId == ""
  }

  // One accepted event, part by part. x is the new event, i the incident before it is attached.
  ghost predicate Attachable(events: Events, incidents: Incidents, i: Incident, x: StoredEvent) {
    && x.id != NO_ID && x.id !in events && i.id != NO_ID && x.incidentId == i.id && CorrOf(x.event) == IncidentKey(i)
    && if i.id in incidents then incidents[i.id] == i else IsNew(i, x.event)
  }

  lemma AttachKeepsIncident(events: Events, i: Incident, x: StoredEvent)
    requires x.id !in events && x.incidentId == i.id && CorrOf(x.event) == IncidentKey(i)
    requires IsNew(i, x.event) || IncidentOk(events, i)
    ensures IncidentOk(events[x.id := x], AttachEvent(i, x.event, x.id))
  {
    var events', i' := events[x.id := x], AttachEvent(i, x.event, x.id);
    forall k | 0 <= k < |i'.eventIds| ensures EventOfIncident(events', i', i'.eventIds[k]) {
      if k < |i.eventIds| { assert EventOfIncident(events, i, i.eventIds[k]); }
    }
  }

  lemma OtherIncidentKept(events: Events, i: Incident, x: StoredEvent)
    requires x.id !in events && IncidentOk(events, i)
    ensures IncidentOk(events[x.id := x], i)
  {
    forall k | 0 <= k < |i.eventIds| ensures EventOfIncident(events[x.id := x], i, i.eventIds[k]) {
      assert EventOfIncident(events, i, i.eventIds[k]);
    }
    assert EventOfIncident(events, i, i.eventIds[|i.eventIds| - 1]);
  }

  lemma AttachKeepsIncidents(events: Events, incidents: Incidents, i: Incident, x: StoredEvent)
    requires IncidentsOk(events, incidents) && Attachable(events, incidents, i, x)
    ensures IncidentsOk(events[x.id := x], incidents[i.id := AttachEvent(i, x.event, x.id)])
  {
    AttachKeepsIncident(events, i, x);
    forall k | k in incidents ensures IncidentOk(events[x.id := x], incidents[k]) {
      OtherIncidentKept(events, incidents[k], x);
    }
  }

  lemma AttachKeepsEvents(events: Events, incidents: Incidents, i: Incident, x: StoredEvent)
    requires EventsOk(events, incidents) && Attachable(events, incidents, i, x)
    ensures EventsOk(events[x.id := x], incidents[i.id := AttachEvent(i, x.event, x.id)])
  {
    var i' := AttachEvent(i, x.event, x.id);
    assert i'.eventIds[|i.eventIds|] == x.id;
    forall e | e in i.eventIds ensures e in i'.eventIds {
      var k :| 0 <= k < |i.eventIds| && i.eventIds[k] == e;
      assert i'.eventIds[k] == e;
    }
  }

  lemma AttachKeepsOpen(incidents: Incidents, open: map<Key, Id>, i: Incident, e: Event, x: Id)
    requires OpenOk(incidents, open) && IncidentKey(i) == CorrOf(e)
    requires CorrOf(e) in open ==> open[CorrOf(e)] == i.id
    requires i.id in incidents ==> CorrOf(e) in open
    ensures OpenOk(incidents[i.id := AttachEvent(i, e, x)],
                   if e.state.Firing? then open[CorrOf(e) := i.id] else open - {CorrOf(e)})
  {
    assert IncidentKey(AttachEvent(i, e, x)) == CorrOf(e);
  }

  lemma AttachKeepsFirst(events: Events, incidents: Incidents, i: Incident, x: StoredEvent, k: Id)
    requires IncidentsOk(events, incidents) && Attachable(events, incidents, i, x) && k in incidents
    ensures var incidents' := incidents[i.id := AttachEvent(i, x.event, x.id)];
            incidents'[k].eventIds[0] == incidents[k].eventIds[0] &&
            (OpenedByFiring(events[x.id := x], incidents'[k]) <==> OpenedByFiring(events, incidents[k]))
  {
    assert IncidentOk(events, incidents[k]);
    assert EventOfIncident(events, incidents[k], incidents[k].eventIds[0]);
  }

  lemma AttachKeepsJob(events: Events, incidents: Incidents, i: Incident, x: StoredEvent, job: Job)
    requires IncidentsOk(events, incidents) && Attachable(events, incidents, i, x) && JobOk(events, incidents, job)
    ensures JobOk(events[x.id := x], incidents[i.id := AttachEvent(i, x.event, x.id)], job)
  {
    hide IncidentsOk, OpenedByFiring;
    AttachKeepsFirst(events, incidents, i, x, job.incidentId);
  }

  lemma NewJobOk(events: Events, incidents: Incidents, i: Incident, x: StoredEvent, job: Job)
    requires i.eventIds == [] && x.event.state.Firing?
    requires job.id != NO_ID && job.incidentId == i.id && job.eventId == x.id
    ensures JobOk(events[x.id := x], incidents[i.id := AttachEvent(i, x.event, x.id)], job)
  {
  }

  lemma AttachKeepsHasJob(events: Events, incidents: Incidents, jobs: Jobs, i: Incident, x: StoredEvent, job: Job,
                          k: Id)
    requires IncidentsOk(events, incidents) && JobsOk(events, incidents, jobs) && Attachable(events, incidents, i, x)
    requires job.id !in jobs && job.incidentId == i.id
    requires var incidents' := incidents[i.id := AttachEvent(i, x.event, x.id)];
             k in incidents' && OpenedByFiring(events[x.id := x], incidents'[k])
    ensures HasJob(if x.event.state.Firing? && i.id !in incidents then jobs[job.id := job] else jobs, k)
  {
    hide JobOk;
    var jobs' := if x.event.state.Firing? && i.id !in incidents then jobs[job.id := job] else jobs;
    if k in incidents {
      AttachKeepsFirst(events, incidents, i, x, k);
      assert HasJob(jobs, k);
      var j :| j in jobs && jobs[j].incidentId == k;
      assert jobs'[j].incidentId == k;
    } else {
      assert jobs'[job.id].incidentId == k;
    }
  }

  lemma AttachKeepsJobs(events: Events, incidents: Incidents, jobs: Jobs, i: Incident, x: StoredEvent, job: Job)
    requires IncidentsOk(events, incidents) && JobsOk(events, incidents, jobs) && Attachable(events, incidents, i, x)
    requires job.id != NO_ID && job.id !in jobs && job.incidentId == i.id && job.eventId == x.id
    ensures JobsOk(events[x.id := x], incidents[i.id := AttachEvent(i, x.event, x.id)],
                   if x.event.state.Firing? && i.id !in incidents then jobs[job.id := job] else jobs)
  {
    hide IncidentsOk, OpenedByFiring, HasJob;
    var events', incidents' := events[x.id := x], incidents[i.id := AttachEvent(i, x.event, x.id)];
    var jobs' := if x.event.state.Firing? && i.id !in incidents then jobs[job.id := job] else jobs;
    forall j | j in jobs' ensures JobOk(events', incidents', jobs'[j]) {
      if j in jobs { AttachKeepsJob(events, incidents, i, x, jobs[j]); }
      else { NewJobOk(events, incidents, i, x, job); }
    }
    forall j | j in jobs ensures jobs[j].incidentId in incidents {
      assert JobOk(events, incidents, jobs[j]);
    }
    forall k | k in incidents' && OpenedByFiring(events', incidents'[k]) ensures HasJob(jobs', k) {
      AttachKeepsHasJob(events, incidents, jobs, i, x, job, k);
    }
  }

  lemma NewHasNoRuns(i: Incident, e: Event, job: Job, jobs: Jobs, jobs': Jobs)
    requires IsNew(i, e) && job.status.Pending? && JobShape(job) && (jobs' == jobs || jobs' == jobs[job.id := job])
    requires forall j :: j in jobs ==> jobs[j].incidentId != i.id
    ensures forall x :: RunsOk(AttachEvent(i, e, x), jobs')
  {
  }

  lemma OtherKeepsRuns(i: Incident, jobs: Jobs, job: Job)
    requires RunsOk(i, jobs) && job.id !in jobs && job.incidentId != i.id
    ensures RunsOk(i, jobs[job.id := job])
  {
    var jobs' := jobs[job.id := job];
    if HasJob(jobs, i.id) {
      var j :| j in jobs && jobs[j].incidentId == i.id;
      assert jobs'[j].incidentId == i.id;
    }
  }

  lemma AttachKeepsRuns(i: Incident, e: Event, x: Id, jobs: Jobs)
    ensures AttachEvent(i, e, x).id == i.id && (RunsOk(i, jobs) ==> RunsOk(AttachEvent(i, e, x), jobs))
  {
  }

  lemma AttachKeepsLinks(events: Events, incidents: Incidents, jobs: Jobs, i: Incident, x: StoredEvent, job: Job)
    requires LinksOk(incidents, jobs) && Attachable(events, incidents, i, x)
    requires job.id !in jobs && job.incidentId == i.id && job.status.Pending? && JobShape(job)
    ensures LinksOk(incidents[i.id := AttachEvent(i, x.event, x.id)],
                    if x.event.state.Firing? && i.id !in incidents then jobs[job.id := job] else jobs)
  {
    hide JobShape, IsNew, RunsOk, AttachEvent;
    var incidents' := incidents[i.id := AttachEvent(i, x.event, x.id)];
    var jobs' := if x.event.state.Firing? && i.id !in incidents then jobs[job.id := job] else jobs;
    AttachKeepsRuns(i, x.event, x.id, jobs);
    forall k | k in incidents' ensures incidents'[k].id == k && RunsOk(incidents'[k], jobs') {
      if k != i.id {
        OtherKeepsRuns(incidents[k], jobs, job);
      } else if k !in incidents {
        NewHasNoRuns(i, x.event, job, jobs, jobs');
      }
    }
  }

  lemma FreshKeepsDedupe(events: Events, dedupe: map<Key, Id>, x: StoredEvent)
    requires DedupeOk(events, dedupe) && x.id !in events && DedupOf(x.event) !in dedupe
    ensures DedupeOk(events[x.id := x], dedupe[DedupOf(x.event) := x.id])
  {
  }

  lemma OneKeepsInv(w: Work, e: Event, ids: Ids, d: Id, at: int)
    requires Inv(w.state) && FreshIds(w.state, ids)
    ensures Inv(IngestOne(w, e, ids, d, at).state)
  {
    hide EventsOk, IncidentOk, DedupeOk, JobsOk, LinksOk;
    var s := w.state;
    var t := s.tables;
    if DedupOf(e) !in s.dedupe {
      var i := IncidentFor(s, e, ids);
      var x := StoredEvent(ids.event, e, i.id, d);
      assert OpensIncident(s, e) <==> CorrOf(e) !in s.open;
      assert OpensIncident(s, e) <==> i.id !in t.incidents;
      assert IncidentKey(i) == CorrOf(e);
      AttachKeepsIncidents(t.events, t.incidents, i, x);
      AttachKeepsEvents(t.events, t.incidents, i, x);
      AttachKeepsOpen(t.incidents, s.open, i, e, ids.event);
      AttachKeepsJobs(t.events, t.incidents, t.jobs, i, x, NewJob(ids, i.id, at));
      AttachKeepsLinks(t.events, t.incidents, t.jobs, i, x, NewJob(ids, i.id, at));
      FreshKeepsDedupe(t.events, s.dedupe, x);
    }
  }

  ghost predicate OnlyTouchedChanged(before: Incidents, after: Incidents, touched: set<Id>) {
    && before.Keys <= after.Keys && touched <= after.Keys
    && (forall i :: i in after && i !in touched ==> i in before && after[i] == before[i])
  }

  // Replaying the pieces gathered so far over the old tables gives the new ones.
  ghost predicate PiecesReplay(s: State, w: Work) {
    && PutAll(s.tables.events, w.events, StoredEventId) == w.state.tables.events
    && PutAll(s.tables.jobs, w.jobs, JobId) == w.state.tables.jobs
    && w.state.tables.deliveries == s.tables.deliveries
    && OnlyTouchedChanged(s.tables.incidents, w.state.tables.incidents, w.touched)
    && (forall k :: 0 <= k < |w.events| ==> w.events[k].id != NO_ID && w.events[k].incidentId != NO_ID)
    && (forall k :: 0 <= k < |w.jobs| ==>
        w.jobs[k].status.Pending? && w.jobs[k].attempts == 0 && w.jobs[k].id !in s.tables.jobs)
  }

  lemma FreshAfterOne(w: Work, e: Event, ids: Ids, d: Id, at: int, other: Ids)
    requires FreshIds(w.state, other)
    requires other.event != ids.event && other.incident != ids.incident && other.job != ids.job
    requires Inv(w.state)
    ensures FreshIds(IngestOne(w, e, ids, d, at).state, other)
  {
    hide EventsOk, DedupeOk, OpenOk, JobsOk, IncidentOk;
  }

  lemma {:induction false} IngestUptoFresh(s: State, b: Batch, n: nat)
    requires Inv(s) && FreshBatch(s, b) && n <= |b.events|
    ensures Inv(IngestUpto(s, b, n).state)
    ensures forall i :: n <= i < |b.ids| ==> FreshIds(IngestUpto(s, b, n).state, b.ids[i])
  {
    hide IngestOne, Inv;
    if n > 0 {
      IngestUptoFresh(s, b, n - 1);
      var w := IngestUpto(s, b, n - 1);
      var e, ids := b.events[n - 1], b.ids[n - 1];
      assert FreshIds(w.state, ids);
      OneKeepsInv(w, e, ids, b.deliveryId, b.at);
      forall i | n <= i < |b.ids| ensures FreshIds(IngestUpto(s, b, n).state, b.ids[i]) {
        FreshAfterOne(w, e, ids, b.deliveryId, b.at, b.ids[i]);
      }
    }
  }

  lemma EmptyPiecesReplay(s: State)
    ensures PiecesReplay(s, Work(s, [], [], [], {}))
  {
  }

  lemma PutAllAppend<V>(m: map<Id, V>, vs: seq<V>, v: V, id: V -> Id)
    ensures PutAll(m, vs + [v], id) == PutAll(m, vs, id)[id(v) := v]
  {
    assert (vs + [v])[..|vs|] == vs;
  }

  lemma OnePieceReplays(s: State, w: Work, e: Event, ids: Ids, d: Id, at: int)
    requires Inv(w.state) && FreshIds(w.state, ids) && PiecesReplay(s, w) && ids.job !in s.tables.jobs
    ensures PiecesReplay(s, IngestOne(w, e, ids, d, at))
  {
    hide EventsOk, IncidentOk, DedupeOk, OpenOk, JobsOk, PutAll;
    if DedupOf(e) !in w.state.dedupe {
      var i := AttachEvent(IncidentFor(w.state, e, ids), e, ids.event);
      PutAllAppend(s.tables.events, w.events, StoredEvent(ids.event, e, i.id, d), StoredEventId);
      PutAllAppend(s.tables.jobs, w.jobs, NewJob(ids, i.id, at), JobId);
    }
  }

  lemma {:induction false} IngestUptoReplays(s: State, b: Batch, n: nat)
    requires Inv(s) && FreshBatch(s, b) && n <= |b.events|
    ensures PiecesReplay(s, IngestUpto(s, b, n))
  {
    hide IngestOne, Inv, PiecesReplay;
    if n == 0 {
      EmptyPiecesReplay(s);
    } else {
      IngestUptoReplays(s, b, n - 1);
      IngestUptoFresh(s, b, n - 1);
      assert FreshIds(s, b.ids[n - 1]);
      OnePieceReplays(s, IngestUpto(s, b, n - 1), b.events[n - 1], b.ids[n - 1], b.deliveryId, b.at);
    }
  }

  // ------------------------------------------------------------ Deliveries

  // After some events of a batch: what is said of the earlier deliveries and of this one.
  ghost predicate Delivering(base: Tables, w: Work, d: Id, at: int) {
    var t := w.state.tables;
    && ReceivedOk(Received(base.deliveries)[d := at], t.events, t.jobs)
    && (forall k :: k in base.deliveries ==> OutcomesOk(t.events, t.jobs, k, base.deliveries[k].events))
    && OutcomesOk(t.events, t.jobs, d, w.outcome)
    && (forall e :: e in base.events ==> e in t.events && t.events[e] == base.events[e])
    && (forall e :: e in t.events && e !in base.events ==> t.events[e].deliveryId == d && Accepts(w.outcome, e))
  }

  lemma OutcomesKept(events: Events, jobs: Jobs, x: StoredEvent, jobs': Jobs, d: Id, os: seq<DeliveryEvent>)
    requires x.id !in events && OutcomesOk(events, jobs, d, os)
    requires forall j :: j in jobs ==> j in jobs' && jobs'[j] == jobs[j]
    requires forall j :: j in jobs' && j !in jobs ==> jobs'[j].eventId == x.id
    ensures OutcomesOk(events[x.id := x], jobs', d, os)
  {
    forall k | 0 <= k < |os| ensures OutcomeOk(events[x.id := x], jobs', d, os[k]) {
      assert OutcomeOk(events, jobs, d, os[k]);
    }
  }

  lemma AcceptsMore(os: seq<DeliveryEvent>, o: DeliveryEvent, e: Id)
    ensures Accepts(os, e) || (o.eventId == e && o.status.Accepted?) ==> Accepts(os + [o], e)
  {
    if Accepts(os, e) {
      var k :| 0 <= k < |os| && os[k].eventId == e && os[k].status.Accepted?;
      assert (os + [o])[k].eventId == e;
    } else if o.eventId == e && o.status.Accepted? {
      assert (os + [o])[|os|].eventId == e;
    }
  }

  lemma OneMoreOutcome(events: Events, jobs: Jobs, d: Id, os: seq<DeliveryEvent>, o: DeliveryEvent)
    requires OutcomesOk(events, jobs, d, os) && OutcomeOk(events, jobs, d, o)
    ensures OutcomesOk(events, jobs, d, os + [o])
  {
    hide OutcomeOk;
  }

  lemma NewJobReceived(received: map<Id, int>, events: Events, jobs: Jobs, x: StoredEvent, job: Job, starts: bool)
    requires ReceivedOk(received, events, jobs) && x.id !in events && x.deliveryId in received
    requires job.id !in jobs && job.id != NO_ID && job.eventId == x.id && job.createdAt == received[x.deliveryId]
    ensures var jobs' := if starts then jobs[job.id := job] else jobs;
            && ReceivedOk(received, events[x.id := x], jobs')
            && OutcomeOk(events[x.id := x], jobs', x.deliveryId,
                         DeliveryEvent(x.id, x.incidentId, if starts then job.id else NO_ID, Accepted))
  {
  }

  // A stored event, and the job it starts if there is one, with what the delivery says of them.
  lemma StoredIsDelivered(base: Tables, w: Work, w': Work, x: StoredEvent, job: Job, starts: bool, at: int)
    requires Delivering(base, w, x.deliveryId, at) && base.deliveries.Keys !! {x.deliveryId}
    requires x.id !in w.state.tables.events && x.id !in base.events
    requires job.id !in w.state.tables.jobs && job.id != NO_ID && job.eventId == x.id && job.createdAt == at
    requires w'.state.tables.events == w.state.tables.events[x.id := x]
    requires w'.state.tables.jobs == if starts then w.state.tables.jobs[job.id := job] else w.state.tables.jobs
    requires w'.outcome ==
               w.outcome + [DeliveryEvent(x.id, x.incidentId, if starts then job.id else NO_ID, Accepted)]
    ensures Delivering(base, w', x.deliveryId, at)
  {
    hide Accepts, OutcomesOk, OutcomeOk, ReceivedOk, JobOf;
    var d, t, t' := x.deliveryId, w.state.tables, w'.state.tables;
    var o := DeliveryEvent(x.id, x.incidentId, if starts then job.id else NO_ID, Accepted);
    var received := Received(base.deliveries)[d := at];
    hide Received;
    NewJobReceived(received, t.events, t.jobs, x, job, starts);
    OutcomesKept(t.events, t.jobs, x, t'.jobs, d, w.outcome);
    OneMoreOutcome(t'.events, t'.jobs, d, w.outcome, o);
    forall k | k in base.deliveries ensures OutcomesOk(t'.events, t'.jobs, k, base.deliveries[k].events) {
      OutcomesKept(t.events, t.jobs, x, t'.jobs, k, base.deliveries[k].events);
    }
    forall e | e in t'.events && e !in base.events ensures t'.events[e].deliveryId == d && Accepts(w'.outcome, e) {
      AcceptsMore(w.outcome, o, e);
    }
  }

  lemma KnownIsDelivered(base: Tables, w: Work, w': Work, o: DeliveryEvent, d: Id, at: int)
    requires Delivering(base, w, d, at) && w'.state == w.state && w'.outcome == w.outcome + [o]
    requires OutcomeOk(w.state.tables.events, w.state.tables.jobs, d, o)
    ensures Delivering(base, w', d, at)
  {
    var t := w.state.tables;
    hide OutcomeOk, OutcomesOk, Accepts, ReceivedOk;
    OneMoreOutcome(t.events, t.jobs, d, w.outcome, o);
    forall e | e in t.events && e !in base.events ensures Accepts(w'.outcome, e) {
      AcceptsMore(w.outcome, o, e);
    }
  }

  lemma OneIsDelivered(base: Tables, w: Work, e: Event, ids: Ids, d: Id, at: int)
    requires Inv(w.state) && FreshIds(w.state, ids) && ids.event !in base.events && d !in base.deliveries
    requires Delivering(base, w, d, at)
    ensures Delivering(base, IngestOne(w, e, ids, d, at), d, at)
  {
    hide EventsOk, IncidentsOk, OpenOk, JobsOk, LinksOk, Delivering, OpensIncident, IncidentFor, AttachEvent;
    var w' := IngestOne(w, e, ids, d, at);
    var s := w.state;
    if DedupOf(e) in s.dedupe {
      KnownIsDelivered(base, w, w', w'.outcome[|w.outcome|], d, at);
    } else {
      var incident := AttachEvent(IncidentFor(s, e, ids), e, ids.event);
      var x, job := StoredEvent(ids.event, e, incident.id, d), NewJob(ids, incident.id, at);
      StoredIsDelivered(base, w, w', x, job, e.state.Firing? && OpensIncident(s, e), at);
    }
  }

  lemma NoOutcomes(s: State, d: Id)
    ensures OutcomesOk(s.tables.events, s.tables.jobs, d, [])
  {
  }

  lemma NothingDelivered(s: State, b: Batch)
    requires DeliveredOk(s.tables) && b.deliveryId !in s.tables.deliveries
    ensures Delivering(s.tables, Work(s, [], [], [], {}), b.deliveryId, b.at)
  {
    hide OutcomesOk, Accepts;
    assert OutcomesOk(s.tables.events, s.tables.jobs, b.deliveryId, []) by { NoOutcomes(s, b.deliveryId); }
  }

  lemma {:induction false} BatchIsDelivered(s: State, b: Batch, n: nat)
    requires Inv(s) && DeliveredOk(s.tables) && FreshBatch(s, b) && n <= |b.events|
    ensures Delivering(s.tables, IngestUpto(s, b, n), b.deliveryId, b.at)
  {
    hide Inv, Delivering, DeliveredOk, IngestOne;
    if n == 0 {
      NothingDelivered(s, b);
    } else {
      BatchIsDelivered(s, b, n - 1);
      IngestUptoFresh(s, b, n - 1);
      assert FreshIds(s, b.ids[n - 1]);
      OneIsDelivered(s.tables, IngestUpto(s, b, n - 1), b.events[n - 1], b.ids[n - 1], b.deliveryId, b.at);
    }
  }

  lemma KeepsDeliveries(s: State, w: Work)
    requires PiecesReplay(s, w)
    ensures w.state.tables.deliveries == s.tables.deliveries
  {
  }

  lemma IngestIsDelivered(c: Core, b: Batch, order: seq<Id>)
    requires CoreInv(c) && Enabled(c, Ingest(b, order))
    ensures DeliveredOk(StateAfter(c, Ingest(b, order)).tables)
  {
    hide Inv, IngestUpto, HistoryOk, WellFormed, Replay, BatchAccepted, Enumerates, OutcomesOk, Accepts, FreshIds,
        PiecesReplay;
    var s, w := c.state, IngestAll(c.state, b);
    BatchIsDelivered(s, b, |b.events|);
    IngestUptoReplays(s, b, |b.events|);
    KeepsDeliveries(s, w);
    var t := StateAfter(c, Ingest(b, order)).tables;
    assert Received(t.deliveries) == Received(s.tables.deliveries)[b.deliveryId := b.at];
  }

  // Operations on jobs keep their events and times of creation.
  lemma JobsAreDelivered(t: Tables, t': Tables)
    requires DeliveredOk(t) && t'.deliveries == t.deliveries && t'.events == t.events && t'.jobs.Keys == t.jobs.Keys
    requires forall j :: j in t.jobs ==>
               t'.jobs[j].eventId == t.jobs[j].eventId && t'.jobs[j].createdAt == t.jobs[j].createdAt
    ensures DeliveredOk(t')
  {
    hide Accepts;
    forall d | d in t.deliveries ensures OutcomesOk(t'.events, t'.jobs, d, t.deliveries[d].events) {
      assert OutcomesOk(t.events, t.jobs, d, t.deliveries[d].events);
    }
  }

  lemma OpIsDelivered(c: Core, op: Op)
    requires CoreInv(c) && Enabled(c, op)
    ensures DeliveredOk(StateAfter(c, op).tables)
  {
    hide EventsOk, IncidentsOk, DedupeOk, OpenOk, JobOk, LinksOk, HistoryOk, WellFormed, Replay, DeliveredOk,
        FreshBatch,
        BatchAccepted, Enumerates, Text.Bounded, IngestUpto, LinkRun;
    match op
    case Ingest(b, order) => IngestIsDelivered(c, b, order);
    case _ => JobsAreDelivered(c.state.tables, StateAfter(c, op).tables);
  }

  // ------------------------------------------------------------ What a batch does

  // The event is the first with its deduplication key.
  predicate IsNews(s: State, b: Batch, k: nat)
    requires k < |b.events|
  {
    DedupOf(b.events[k]) !in s.dedupe && forall j :: 0 <= j < k ==> DedupOf(b.events[j]) != DedupOf(b.events[k])
  }

  // An event with a new key is stored as it came; any other refers to the stored one with its key.
  ghost predicate Answers(s: State, b: Batch, events: Events, k: nat, o: DeliveryEvent)
    requires k < |b.events| == |b.ids|
  {
    && o.eventId in events && o.incidentId == events[o.eventId].incidentId
    && DedupOf(events[o.eventId].event) == DedupOf(b.events[k])
    && (o.status.Accepted? <==> IsNews(s, b, k))
    && (o.status.Accepted? ==>
        events[o.eventId] == StoredEvent(b.ids[k].event, b.events[k], o.incidentId, b.deliveryId))
  }

  function KeysUpto(b: Batch, n: nat): set<Key>
    requires n <= |b.events|
  {
    set k | 0 <= k < n :: DedupOf(b.events[k])
  }

  lemma OneAnswer(s: State, b: Batch, w: Work, k: nat)
    requires k < |b.events| == |b.ids| && Inv(w.state) && FreshIds(w.state, b.ids[k])
    requires w.state.dedupe.Keys == s.dedupe.Keys + KeysUpto(b, k)
    ensures var w' := IngestOne(w, b.events[k], b.ids[k], b.deliveryId, b.at);
            && |w'.outcome| == |w.outcome| + 1 && w'.outcome[..|w.outcome|] == w.outcome
            && Answers(s, b, w'.state.tables.events, k, w'.outcome[|w.outcome|])
            && w'.state.dedupe.Keys == s.dedupe.Keys + KeysUpto(b, k + 1)
            && forall e :: e in w.state.tables.events ==>
                 e in w'.state.tables.events && w'.state.tables.events[e] == w.state.tables.events[e]
  {
    hide EventsOk, IncidentsOk, OpenOk, JobsOk, LinksOk, OpensIncident, IncidentFor, AttachEvent, DedupOf;
    assert IsNews(s, b, k) <==> DedupOf(b.events[k]) !in w.state.dedupe;
    assert KeysUpto(b, k + 1) == KeysUpto(b, k) + {DedupOf(b.events[k])};
  }

  lemma NoKeysYet(b: Batch)
    ensures KeysUpto(b, 0) == {}
  {
  }

  lemma AnswerStays(s: State, b: Batch, events: Events, events': Events, k: nat, o: DeliveryEvent)
    requires k < |b.events| == |b.ids| && Answers(s, b, events, k, o)
    requires forall e :: e in events ==> e in events' && events'[e] == events[e]
    ensures Answers(s, b, events', k, o)
  {
  }

  // What a batch reports and stores, event by event.
  lemma {:induction false} BatchAnswers(s: State, b: Batch, n: nat)
    requires Inv(s) && FreshBatch(s, b) && n <= |b.events|
    ensures var w := IngestUpto(s, b, n);
            && |w.outcome| == n
            && (forall k :: 0 <= k < n ==> Answers(s, b, w.state.tables.events, k, w.outcome[k]))
            && w.state.dedupe.Keys == s.dedupe.Keys + KeysUpto(b, n)
  {
    hide Inv, IngestOne, Answers, KeysUpto;
    if n == 0 {
      NoKeysYet(b);
    } else {
      BatchAnswers(s, b, n - 1);
      IngestUptoFresh(s, b, n - 1);
      var w, w' := IngestUpto(s, b, n - 1), IngestUpto(s, b, n);
      assert FreshIds(w.state, b.ids[n - 1]);
      OneAnswer(s, b, w, n - 1);
      forall k | 0 <= k < n - 1 ensures Answers(s, b, w'.state.tables.events, k, w'.outcome[k]) {
        assert w'.outcome[k] == w'.outcome[..n - 1][k] == w.outcome[k];
        AnswerStays(s, b, w.state.tables.events, w'.state.tables.events, k, w.outcome[k]);
      }
    }
  }

  // The delivery a batch leaves behind answers each of its events in order.
  lemma IngestAnswers(c: Core, b: Batch, order: seq<Id>)
    requires CoreInv(c) && Enabled(c, Ingest(b, order))
    ensures var t := StateAfter(c, Ingest(b, order)).tables;
            && b.deliveryId in t.deliveries && t.deliveries[b.deliveryId].receivedAt == b.at
            && t.deliveries[b.deliveryId].payloadHash == b.hash
            && t.deliveries[b.deliveryId].source == Text.Bounded(b.source, 64)
            && |t.deliveries[b.deliveryId].events| == |b.events|
            && forall k :: 0 <= k < |b.events| ==>
                Answers(c.state, b, t.events, k, t.deliveries[b.deliveryId].events[k])
  {
    hide Inv, DeliveredOk, IngestUpto, Answers, HistoryOk, WellFormed, Replay, BatchAccepted, Enumerates, FreshIds;
    BatchAnswers(c.state, b, |b.events|);
  }

  // ------------------------------------------------------------ Replay lemmas

  lemma {:induction false} FindPut<V>(m: map<Id, V>, vs: seq<V>, id: V -> Id, k: Id)
    ensures match Find(vs, id, k)
            case None => (k in PutAll(m, vs, id) <==> k in m) && (k in m ==> PutAll(m, vs, id)[k] == m[k])
            case Some(v) => v in vs && id(v) == k && k in PutAll(m, vs, id) && PutAll(m, vs, id)[k] == v
    ensures Find(vs, id, k).None? ==> forall i :: 0 <= i < |vs| ==> id(vs[i]) != k
  {
    if vs != [] {
      var rest := vs[..|vs| - 1];
      FindPut(m, rest, id, k);
      assert forall i :: 0 <= i < |rest| ==> vs[i] == rest[i];
    }
  }

  // Writing values taken from the target over the source gives the target, when
  // the two agree on every identifier not written.
  lemma PutAllReaches<V>(m: map<Id, V>, vs: seq<V>, id: V -> Id, target: map<Id, V>)
    requires forall i :: 0 <= i < |vs| ==> id(vs[i]) in target && target[id(vs[i])] == vs[i]
    requires m.Keys <= target.Keys
    requires forall k :: k in target ==> (k in m && m[k] == target[k]) || exists i :: 0 <= i < |vs| && id(vs[i]) == k
    ensures PutAll(m, vs, id) == target
  {
    forall k: Id
      ensures k in PutAll(m, vs, id) <==> k in target
      ensures k in target ==> PutAll(m, vs, id)[k] == target[k]
    {
      FindPut(m, vs, id, k);
    }
  }

  ghost predicate JobStep(jobs: Jobs, v: Job) {
    if v.id in jobs
    then Moves(jobs[v.id].status, v.status) && v.attempts == jobs[v.id].attempts + if v.status.Running? then 1 else 0
    else v.status.Pending? && v.attempts == 0
  }

  // Each entry of a record moves its job one legal step, or creates it.
  ghost predicate JobsStep(jobs: Jobs, vs: seq<Job>) {
    forall i :: 0 <= i < |vs| ==> JobStep(jobs, vs[i])
  }

  lemma HistoryExtends(log: seq<Record>, r: Record, jobs: Jobs, j: Id)
    requires HistoryOk(log, jobs, j) && JobsStep(jobs, r.jobs)
    ensures HistoryOk(log + [r], PutAll(jobs, r.jobs, JobId), j)
  {
    FindPut(jobs, r.jobs, JobId, j);
    assert (log + [r])[..|log|] == log;
    var h := History(log, j);
    var h' := History(log + [r], j);
    var last := Find(r.jobs, JobId, j);
    if last.Some? {
      assert JobStep(jobs, last.value);
      assert h' == h + [last.value.status];
      assert h'[..|h|] == h;
    } else {
      assert h' == h;
    }
  }

  lemma IngestReplays(c: Core, b: Batch, order: seq<Id>)
    requires CoreInv(c) && Enabled(c, Ingest(b, order))
    ensures WellFormed(RecordOf(c, Ingest(b, order)))
    ensures ApplyRecord(c.state.tables, RecordOf(c, Ingest(b, order))) == StateAfter(c, Ingest(b, order)).tables
    ensures JobsStep(c.state.tables.jobs, RecordOf(c, Ingest(b, order)).jobs)
    ensures Inv(StateAfter(c, Ingest(b, order)))
  {
    hide IngestOne, IngestUpto, EventsOk, IncidentOk, DedupeOk, OpenOk, JobsOk, LinksOk, HistoryOk, Replay,
        BatchAccepted;
    var s := c.state;
    var w := IngestAll(s, b);
    IngestUptoFresh(s, b, |b.events|);
    IngestUptoReplays(s, b, |b.events|);
    var vs := Pick(w.state.tables.incidents, order);
    assert forall k :: 0 <= k < |order| ==> order[k] in w.touched;
    assert forall i :: 0 <= i < |vs| ==> IncidentId(vs[i]) == order[i];
    forall k | k in w.state.tables.incidents
      ensures (k in s.tables.incidents && s.tables.incidents[k] == w.state.tables.incidents[k]) ||
              exists i :: 0 <= i < |vs| && IncidentId(vs[i]) == k
    {
      if k in w.touched {
        var i :| 0 <= i < |order| && order[i] == k;
        assert IncidentId(vs[i]) == k;
      }
    }
    PutAllReaches(s.tables.incidents, vs, IncidentId, w.state.tables.incidents);
  }

  lemma PutOne<V>(m: map<Id, V>, v: V, id: V -> Id)
    ensures PutAll(m, [v], id) == m[id(v) := v]
  {
    assert [v][..0] == [];
  }

  // Only status, times and diagnostics of jobs changed.
  lemma SameJobsKept(events: Events, incidents: Incidents, jobs: Jobs, jobs': Jobs)
    requires JobsOk(events, incidents, jobs) && jobs'.Keys == jobs.Keys
    requires forall j :: j in jobs ==>
               jobs'[j].id == jobs[j].id && jobs'[j].incidentId == jobs[j].incidentId
                   && jobs'[j].eventId == jobs[j].eventId
    ensures JobsOk(events, incidents, jobs')
  {
    forall i | i in incidents && OpenedByFiring(events, incidents[i]) ensures HasJob(jobs', i) {
      assert HasJob(jobs, i);
      var j :| j in jobs && jobs[j].incidentId == i;
      assert jobs'[j].incidentId == i;
    }
  }

  lemma ShapeOfJobs(incidents: Incidents, jobs: Jobs)
    requires LinksOk(incidents, jobs)
    ensures forall j :: j in jobs ==> JobShape(jobs[j])
  {
  }

  lemma SameRunsOne(i: Incident, jobs: Jobs, jobs': Jobs)
    requires RunsOk(i, jobs) && jobs'.Keys == jobs.Keys
    requires forall j :: j in jobs ==>
               jobs'[j].incidentId == jobs[j].incidentId && RunsOf(jobs'[j]) == RunsOf(jobs[j])
    ensures RunsOk(i, jobs')
  {
    hide RunsOf;
    if HasJob(jobs, i.id) {
      var j :| j in jobs && jobs[j].incidentId == i.id;
      assert jobs'[j].incidentId == i.id;
    }
  }

  lemma SameRunsKept(incidents: Incidents, jobs: Jobs, jobs': Jobs)
    requires LinksOk(incidents, jobs) && jobs'.Keys == jobs.Keys
    requires forall j :: j in jobs ==>
               jobs'[j].incidentId == jobs[j].incidentId && RunsOf(jobs'[j]) == RunsOf(jobs[j]) && JobShape(jobs'[j])
    ensures LinksOk(incidents, jobs')
  {
    hide JobShape, RunsOf, RunsOk;
    forall i | i in incidents ensures RunsOk(incidents[i], jobs') { SameRunsOne(incidents[i], jobs, jobs'); }
  }

  predicate SameJob(job: Job, v: Job) {
    v.id == job.id && v.incidentId == job.incidentId && v.eventId == job.eventId
  }

  lemma OwnRun(i: Incident, jobs: Jobs, job: Job, v: Job)
    requires RunsOk(i, jobs) && job.id in jobs && jobs[job.id] == job && SameJob(job, v) && job.incidentId == i.id
    requires job.status.Running? && JobShape(job)
    requires forall k :: k in jobs && jobs[k].incidentId == i.id ==> k == job.id
    ensures RunsOk(if v.runId != "" then LinkRun(i, v.runId) else i, jobs[v.id := v])
  {
    assert i.runIds == [];
    assert HasJob(jobs[v.id := v], i.id) by { assert jobs[v.id := v][v.id].incidentId == i.id; }
  }

  lemma OtherRuns(i: Incident, jobs: Jobs, job: Job, v: Job)
    requires RunsOk(i, jobs) && job.id in jobs && jobs[job.id] == job && SameJob(job, v) && job.incidentId != i.id
    ensures RunsOk(i, jobs[v.id := v])
  {
    if HasJob(jobs, i.id) {
      var j :| j in jobs && jobs[j].incidentId == i.id;
      assert jobs[v.id := v][j].incidentId == i.id;
    }
  }

  // A job that finishes tells its incident of its run.
  lemma CompletedLinks(t: Tables, job: Job, v: Job)
    requires LinksOk(t.incidents, t.jobs) && JobsOk(t.events, t.incidents, t.jobs)
    requires job.id in t.jobs && t.jobs[job.id] == job && SameJob(job, v) && job.status.Running? && JobShape(v)
    ensures LinksOk(CompleteTables(t, v).incidents, CompleteTables(t, v).jobs)
  {
    hide JobOk, OpenedByFiring, JobShape, RunsOk, HasJob;
    ShapeOfJobs(t.incidents, t.jobs);
    var t' := CompleteTables(t, v);
    forall i | i in t'.incidents ensures t'.incidents[i].id == i && RunsOk(t'.incidents[i], t'.jobs) {
      assert RunsOk(t.incidents[i], t.jobs);
      if i == job.incidentId {
        OwnRun(t.incidents[i], t.jobs, job, v);
      } else {
        OtherRuns(t.incidents[i], t.jobs, job, v);
      }
    }
  }

  lemma ClaimReplays(c: Core, j: Id, now: int)
    requires CoreInv(c) && Enabled(c, Claim(j, now))
    ensures WellFormed(RecordOf(c, Claim(j, now)))
    ensures ApplyRecord(c.state.tables, RecordOf(c, Claim(j, now))) == StateAfter(c, Claim(j, now)).tables
    ensures JobsStep(c.state.tables.jobs, RecordOf(c, Claim(j, now)).jobs)
    ensures Inv(StateAfter(c, Claim(j, now)))
  {
    hide EventsOk, IncidentsOk, DedupeOk, OpenOk, LinksOk, DeliveredOk, HistoryOk, Replay, OpenedByFiring, JobOk,
        HasJob;
    var t := c.state.tables;
    ShapeOfJobs(t.incidents, t.jobs);
    var v := Claimed(t.jobs[j], now);
    assert JobStep(t.jobs, v);
    PutOne(t.jobs, v, JobId);
    SameJobsKept(t.events, t.incidents, t.jobs, StateAfter(c, Claim(j, now)).tables.jobs);
    SameRunsKept(t.incidents, t.jobs, StateAfter(c, Claim(j, now)).tables.jobs);
  }

  lemma LinkKeepsIncident(events: Events, i: Incident, runId: string)
    requires IncidentOk(events, i)
    ensures IncidentOk(events, LinkRun(i, runId))
  {
    forall k | 0 <= k < |i.eventIds| ensures EventOfIncident(events, LinkRun(i, runId), i.eventIds[k]) {
      assert EventOfIncident(events, i, i.eventIds[k]);
    }
  }

  // Linking a run touches nothing the invariant speaks of.
  lemma LinkKeepsIncidents(events: Events, incidents: Incidents, i: Incident, runId: string)
    requires EventsOk(events, incidents) && IncidentsOk(events, incidents) && i.id in incidents && incidents[i.id] == i
    ensures EventsOk(events, incidents[i.id := LinkRun(i, runId)])
    ensures IncidentsOk(events, incidents[i.id := LinkRun(i, runId)])
  {
    hide IncidentOk;
    LinkKeepsIncident(events, i, runId);
  }

  lemma LinkKeepsOpen(incidents: Incidents, open: map<Key, Id>, i: Incident, runId: string)
    requires OpenOk(incidents, open) && i.id in incidents && incidents[i.id] == i
    ensures OpenOk(incidents[i.id := LinkRun(i, runId)], open)
  {
  }

  lemma LinkKeepsJobs(events: Events, incidents: Incidents, jobs: Jobs, i: Incident, runId: string)
    requires JobsOk(events, incidents, jobs) && i.id in incidents && incidents[i.id] == i
    ensures JobsOk(events, incidents[i.id := LinkRun(i, runId)], jobs)
  {
    var incidents' := incidents[i.id := LinkRun(i, runId)];
    forall j | j in jobs ensures JobOk(events, incidents', jobs[j]) {
      assert JobOk(events, incidents, jobs[j]);
    }
    forall k | k in incidents' && OpenedByFiring(events, incidents'[k]) ensures HasJob(jobs, k) {
      assert OpenedByFiring(events, incidents[k]);
    }
  }

  // What a finished job changes in the tables, if its run is linked and if it is not.
  lemma CompletedTables(t: Tables, job: Job, v: Job)
    requires EventsOk(t.events, t.incidents) && IncidentsOk(t.events, t.incidents)
             && JobsOk(t.events, t.incidents, t.jobs)
    requires job.id in t.jobs && t.jobs[job.id] == job && SameJob(job, v)
    ensures EventsOk(t.events, CompleteTables(t, v).incidents) && IncidentsOk(t.events, CompleteTables(t, v).incidents)
    ensures JobsOk(t.events, CompleteTables(t, v).incidents, CompleteTables(t, v).jobs)
    ensures forall open :: OpenOk(t.incidents, open) ==> OpenOk(CompleteTables(t, v).incidents, open)
  {
    hide EventsOk, IncidentOk, OpenOk, OpenedByFiring;
    assert JobOk(t.events, t.incidents, job);
    SameJobsKept(t.events, t.incidents, t.jobs, t.jobs[v.id := v]);
    if v.runId != "" {
      var i := t.incidents[v.incidentId];
      LinkKeepsIncidents(t.events, t.incidents, i, v.runId);
      LinkKeepsJobs(t.events, t.incidents, t.jobs[v.id := v], i, v.runId);
      forall open | OpenOk(t.incidents, open) ensures OpenOk(CompleteTables(t, v).incidents, open) {
        LinkKeepsOpen(t.incidents, open, i, v.runId);
      }
    }
  }

  lemma CompleteReplays(c: Core, op: Op)
    requires CoreInv(c) && op.Complete? && Enabled(c, op)
    ensures WellFormed(RecordOf(c, op))
    ensures ApplyRecord(c.state.tables, RecordOf(c, op)) == StateAfter(c, op).tables
    ensures JobsStep(c.state.tables.jobs, RecordOf(c, op).jobs)
    ensures Inv(StateAfter(c, op))
  {
    hide EventsOk, IncidentOk, DedupeOk, OpenOk, JobOk, LinksOk, DeliveredOk, HistoryOk, Replay, Text.Bounded;
    var t := c.state.tables;
    ShapeOfJobs(t.incidents, t.jobs);
    var v := Finished(t.jobs[op.job], op.status, op.runId, op.error, op.detail, op.now);
    assert JobStep(t.jobs, v);
    PutOne(t.jobs, v, JobId);
    CompletedTables(t, t.jobs[op.job], v);
    CompletedLinks(t, t.jobs[op.job], v);
    if v.runId != "" && v.incidentId in t.incidents {
      PutOne(t.incidents, LinkRun(t.incidents[v.incidentId], v.runId), IncidentId);
    }
  }

  lemma RecoveredInOrder(t: Tables, order: seq<Id>)
    requires Enumerates(order, RunningJobs(t)) && forall j :: j in t.jobs ==> t.jobs[j].id == j
    ensures var vs := Pick(RecoverAll(t.jobs), order);
            && |vs| == |order| && JobsStep(t.jobs, vs)
            && forall i :: 0 <= i < |vs| ==>
                order[i] in t.jobs && JobId(vs[i]) == order[i] && vs[i] == Recovered(t.jobs[order[i]])
  {
    hide Pick;
    var vs := Pick(RecoverAll(t.jobs), order);
    assert forall i :: 0 <= i < |order| ==> order[i] in RunningJobs(t);
    forall i | 0 <= i < |vs|
      ensures JobStep(t.jobs, vs[i]) && JobId(vs[i]) == order[i] && vs[i] == Recovered(t.jobs[order[i]]) {
      assert order[i] in RunningJobs(t);
    }
  }

  // Writing the recovered jobs back in any order gives the recovered table.
  lemma RecoverReaches(t: Tables, order: seq<Id>)
    requires Enumerates(order, RunningJobs(t)) && forall j :: j in t.jobs ==> t.jobs[j].id == j
    ensures var vs := Pick(RecoverAll(t.jobs), order);
            PutAll(t.jobs, vs, JobId) == RecoverAll(t.jobs) && JobsStep(t.jobs, vs)
  {
    hide PutAll, Pick;
    var target := RecoverAll(t.jobs);
    var vs := Pick(target, order);
    RecoveredInOrder(t, order);
    hide Recovered;
    forall k | k in target ensures t.jobs[k] == target[k] || exists i :: 0 <= i < |vs| && JobId(vs[i]) == k {
      if k in RunningJobs(t) {
        var i :| 0 <= i < |order| && order[i] == k;
        assert JobId(vs[i]) == k;
      }
    }
    PutAllReaches(t.jobs, vs, JobId, target);
  }

  lemma RecoverReplays(c: Core, order: seq<Id>)
    requires CoreInv(c) && Enabled(c, Recover(order))
    ensures WellFormed(RecordOf(c, Recover(order)))
    ensures ApplyRecord(c.state.tables, RecordOf(c, Recover(order))) == StateAfter(c, Recover(order)).tables
    ensures JobsStep(c.state.tables.jobs, RecordOf(c, Recover(order)).jobs)
    ensures Inv(StateAfter(c, Recover(order)))
  {
    hide EventsOk, IncidentsOk, DedupeOk, OpenOk, LinksOk, HistoryOk, Replay, OpenedByFiring, JobOk, HasJob, Pick,
        JobStep, RunningJobs;
    var t := c.state.tables;
    ShapeOfJobs(t.incidents, t.jobs);
    RecoverReaches(t, order);
    SameJobsKept(t.events, t.incidents, t.jobs, RecoverAll(t.jobs));
    SameRunsKept(t.incidents, t.jobs, RecoverAll(t.jobs));
  }

  lemma OpReplays(c: Core, op: Op)
    requires CoreInv(c) && Enabled(c, op)
    ensures WellFormed(RecordOf(c, op))
    ensures ApplyRecord(c.state.tables, RecordOf(c, op)) == StateAfter(c, op).tables
    ensures JobsStep(c.state.tables.jobs, RecordOf(c, op).jobs)
    ensures Inv(StateAfter(c, op))
  {
    match op
    case Ingest(b, order) => IngestReplays(c, b, order);
    case Claim(j, now) => ClaimReplays(c, j, now);
    case Complete(_, _, _, _, _, _) => CompleteReplays(c, op);
    case Recover(order) => RecoverReplays(c, order);
  }

  // Every successful operation keeps the whole invariant.
  lemma StepKeepsCoreInv(c: Core, op: Op)
    requires CoreInv(c) && Enabled(c, op)
    ensures CoreInv(Apply(c, op))
  {
    hide Inv, RecordOf, StateAfter, Enabled, HistoryOk, JobsStep, PutAll, WellFormed, DeliveredOk;
    OpReplays(c, op);
    OpIsDelivered(c, op);
    var r := RecordOf(c, op);
    var c' := Apply(c, op);
    assert c'.log[..|c.log|] == c.log;
    forall j: Id ensures HistoryOk(c'.log, c'.state.tables.jobs, j) {
      HistoryExtends(c.log, r, c.state.tables.jobs, j);
    }
  }

  // ------------------------------------------------------------ Whole runs

  ghost predicate LegalRun(c: Core, ops: seq<Op>)
    decreases |ops|
  {
    ops == [] || (Enabled(c, ops[0]) && LegalRun(Apply(c, ops[0]), ops[1..]))
  }

  ghost function Run(c: Core, ops: seq<Op>): Core
    requires LegalRun(c, ops)
    decreases |ops|
  {
    if ops == [] then c else Run(Apply(c, ops[0]), ops[1..])
  }

  lemma {:induction false} RunKeepsCoreInv(c: Core, ops: seq<Op>)
    requires CoreInv(c) && LegalRun(c, ops)
    ensures CoreInv(Run(c, ops))
    decreases |ops|
  {
    if ops != [] {
      StepKeepsCoreInv(c, ops[0]);
      RunKeepsCoreInv(Apply(c, ops[0]), ops[1..]);
    }
  }

  // After any run of the store from an empty file.
  lemma ReachableIsSound(ops: seq<Op>)
    requires LegalRun(EMPTY, ops)
    ensures CoreInv(Run(EMPTY, ops))
  {
    RunKeepsCoreInv(EMPTY, ops);
  }

  lemma DedupeIndexIsLive(t: Tables, live: map<Key, Id>, derived: map<Key, Id>)
    requires EventsOk(t.events, t.incidents) && DedupeOk(t.events, live) && IsDedupeIndex(t, derived)
    ensures derived == live
  {
    forall k | k in live ensures k in derived {
      assert DedupOf(t.events[live[k]].event) == k;
    }
  }

  lemma OpenIndexIsLive(t: Tables, live: map<Key, Id>, derived: map<Key, Id>)
    requires IncidentsOk(t.events, t.incidents) && OpenOk(t.incidents, live) && IsOpenIndex(t, derived)
    ensures derived == live
  {
    hide IncidentOk;
    forall k | k in live ensures k in derived {
      assert IncidentKey(t.incidents[live[k]]) == k;
    }
  }

  // The loader derives the indexes after replay instead of replaying them. Any
  // order in which it visits its maps gives back the live indexes.
  lemma {:induction false} DerivedIndexesAreLive(s: State, dedupe: map<Key, Id>, open: map<Key, Id>)
    requires Inv(s) && IsDedupeIndex(s.tables, dedupe) && IsOpenIndex(s.tables, open)
    ensures dedupe == s.dedupe && open == s.open
  {
    hide EventsOk, IncidentOk, JobsOk, DedupeOk, OpenOk, IsDedupeIndex, IsOpenIndex;
    DedupeIndexIsLive(s.tables, s.dedupe, dedupe);
    OpenIndexIsLive(s.tables, s.open, open);
  }

  // Restart theorem: replaying the file of any run and deriving the indexes in any
  // order rebuilds the live store exactly, and the loader accepts every line.
  lemma RestartRebuildsLiveStore(ops: seq<Op>, dedupe: map<Key, Id>, open: map<Key, Id>)
    requires LegalRun(EMPTY, ops)
    requires IsDedupeIndex(Replay(Run(EMPTY, ops).log), dedupe) && IsOpenIndex(Replay(Run(EMPTY, ops).log), open)
    ensures State(Replay(Run(EMPTY, ops).log), dedupe, open) == Run(EMPTY, ops).state
    ensures forall r :: r in Run(EMPTY, ops).log ==> WellFormed(r)
  {
    ReachableIsSound(ops);
    DerivedIndexesAreLive(Run(EMPTY, ops).state, dedupe, open);
  }

  // At most one firing incident per source and correlation key, and it is the indexed one.
  lemma OneFiringIncidentPerKey(c: Core, i: Id, k: Id)
    requires CoreInv(c) && i in c.state.tables.incidents && k in c.state.tables.incidents
    requires c.state.tables.incidents[i].state.Firing? && c.state.tables.incidents[k].state.Firing?
    requires IncidentKey(c.state.tables.incidents[i]) == IncidentKey(c.state.tables.incidents[k])
    ensures i == k && c.state.open[IncidentKey(c.state.tables.incidents[i])] == i
  {
    assert OpenOk(c.state.tables.incidents, c.state.open);
  }

  // What an incident lists is a stored event of that incident, listed nowhere else.
  lemma ListedEventIsStored(c: Core, e: Id, i: Id, k: nat)
    requires CoreInv(c) && i in c.state.tables.incidents && k < |c.state.tables.incidents[i].eventIds|
    requires c.state.tables.incidents[i].eventIds[k] == e
    ensures e in c.state.tables.events && c.state.tables.events[e].incidentId == i
    ensures forall i', k' | i' in c.state.tables.incidents && 0 <= k' < |c.state.tables.incidents[i'].eventIds|
              :: c.state.tables.incidents[i'].eventIds[k'] == e ==> i' == i && k' == k
  {
    var t := c.state.tables;
    assert IncidentOk(t.events, t.incidents[i]) && EventOfIncident(t.events, t.incidents[i], e);
    forall i', k' | i' in t.incidents && 0 <= k' < |t.incidents[i'].eventIds| && t.incidents[i'].eventIds[k'] == e
      ensures i' == i && k' == k
    {
      assert IncidentOk(t.events, t.incidents[i'])
             && EventOfIncident(t.events, t.incidents[i'], t.incidents[i'].eventIds[k']);
    }
  }

  // Every stored event is in exactly one incident, exactly once.
  lemma EventInExactlyOneIncident(c: Core, e: Id) returns (i: Id, k: nat)
    requires CoreInv(c) && e in c.state.tables.events
    ensures i == c.state.tables.events[e].incidentId && i in c.state.tables.incidents
    ensures k < |c.state.tables.incidents[i].eventIds| && c.state.tables.incidents[i].eventIds[k] == e
    ensures forall i', k' | i' in c.state.tables.incidents && 0 <= k' < |c.state.tables.incidents[i'].eventIds|
              :: c.state.tables.incidents[i'].eventIds[k'] == e ==> i' == i && k' == k
  {
    hide IncidentOk, IncidentsOk, DedupeOk, OpenOk, JobsOk, HistoryOk, WellFormed, Replay;
    i := c.state.tables.events[e].incidentId;
    k :| 0 <= k < |c.state.tables.incidents[i].eventIds| && c.state.tables.incidents[i].eventIds[k] == e;
    ListedEventIsStored(c, e, i, k);
  }

  // An incident is opened by its first event and shows its last one; its runs are those
  // of its job.
  lemma IncidentShowsItsEvents(c: Core, i: Id)
    requires CoreInv(c) && i in c.state.tables.incidents
    ensures var t, incident := c.state.tables, c.state.tables.incidents[i];
            var n := |incident.eventIds|;
            && n > 0 && incident.eventIds[0] in t.events && incident.eventIds[n - 1] in t.events
            && Shows(incident, t.events[incident.eventIds[0]].event, t.events[incident.eventIds[n - 1]].event)
            && RunsOk(incident, t.jobs)
  {
    hide EventsOk, DedupeOk, OpenOk, JobsOk, HistoryOk, WellFormed, Replay, DeliveredOk, Shows, RunsOk;
    var t, incident := c.state.tables, c.state.tables.incidents[i];
    assert EventOfIncident(t.events, incident, incident.eventIds[0])
           && EventOfIncident(t.events, incident, incident.eventIds[|incident.eventIds| - 1]);
  }

  lemma JobEventIsOfIncident(t: Tables, j: Id)
    requires IncidentsOk(t.events, t.incidents) && JobsOk(t.events, t.incidents, t.jobs) && j in t.jobs
    ensures t.jobs[j].eventId in t.events && t.events[t.jobs[j].eventId].incidentId == t.jobs[j].incidentId
  {
    var job := t.jobs[j];
    assert JobOk(t.events, t.incidents, job);
    assert EventOfIncident(t.events, t.incidents[job.incidentId], job.eventId) by {
      assert IncidentOk(t.events, t.incidents[job.incidentId]);
    }
  }

  lemma OneJobPerEvent(t: Tables, j: Id, k: Id)
    requires IncidentsOk(t.events, t.incidents) && JobsOk(t.events, t.incidents, t.jobs)
    requires j in t.jobs && k in t.jobs && t.jobs[j].eventId == t.jobs[k].eventId
    ensures j == k
  {
    JobEventIsOfIncident(t, j);
    JobEventIsOfIncident(t, k);
  }

  lemma DeliveryNamesJob(t: Tables, j: Id)
    requires DeliveredOk(t) && IncidentsOk(t.events, t.incidents) && JobsOk(t.events, t.incidents, t.jobs)
             && j in t.jobs
    ensures var job := t.jobs[j];
            && job.eventId in t.events && t.events[job.eventId].deliveryId in t.deliveries
            && var delivery := t.deliveries[t.events[job.eventId].deliveryId];
               && job.createdAt == delivery.receivedAt
               && exists k :: 0 <= k < |delivery.events| &&
                    delivery.events[k] == DeliveryEvent(job.eventId, job.incidentId, j, Accepted)
  {
    hide IncidentOk, JobOk, OpenedByFiring, HasJob;
    var job := t.jobs[j];
    var d := t.events[job.eventId].deliveryId;
    assert Accepts(t.deliveries[d].events, job.eventId) && OutcomesOk(t.events, t.jobs, d, t.deliveries[d].events);
    var k :| 0 <= k < |t.deliveries[d].events| && t.deliveries[d].events[k].eventId == job.eventId
             && t.deliveries[d].events[k].status.Accepted?;
    hide OutcomesOk;
    assert OutcomeOk(t.events, t.jobs, d, t.deliveries[d].events[k]);
    OneJobPerEvent(t, j, t.deliveries[d].events[k].jobId);
    JobEventIsOfIncident(t, j);
  }

  // A job was created when the delivery of its event arrived, and that delivery names it.
  lemma JobIsOfItsDelivery(c: Core, j: Id)
    requires CoreInv(c) && j in c.state.tables.jobs
    ensures var t, job := c.state.tables, c.state.tables.jobs[j];
            && JobShape(job) && job.eventId in t.events && t.events[job.eventId].deliveryId in t.deliveries
            && var delivery := t.deliveries[t.events[job.eventId].deliveryId];
               && job.createdAt == delivery.receivedAt
               && exists k :: 0 <= k < |delivery.events| &&
                    delivery.events[k] == DeliveryEvent(job.eventId, job.incidentId, j, Accepted)
  {
    hide EventsOk, IncidentsOk, DedupeOk, OpenOk, JobsOk, DeliveredOk, HistoryOk, WellFormed, Replay, JobShape, RunsOk;
    DeliveryNamesJob(c.state.tables, j);
  }

  // What becomes of a job.
  function Moved(job: Job, op: Op): Job {
    match op
    case Claim(j, now) =>
      if job.id == j then job.(status := Running, attempts := job.attempts + 1, startedAt := Some(now)) else job
    case Complete(j, status, runId, error, detail, now) =>
      if job.id != j then job
      else job.(status := status, completedAt := Some(now), runId := Text.Bounded(runId, 256),
                error := Text.Bounded(error, 1024), detail := Text.Bounded(detail, 2048))
    case Recover(_) => if job.status.Running? then job.(status := Pending, startedAt := None) else job
    case Ingest(_, _) => job
  }

  predicate SameButRuns(i: Incident, i': Incident) {
    i'.(runIds := i.runIds, lastRunId := i.lastRunId) == i
  }

  // Every job is what the operation makes of it, an incident changes in its runs at most,
  // and nothing else changes.
  ghost predicate ChangesJobs(s: State, s': State, op: Op) {
    var t, t' := s.tables, s'.tables;
    && t'.deliveries == t.deliveries && t'.events == t.events && s'.dedupe == s.dedupe && s'.open == s.open
    && t'.jobs.Keys == t.jobs.Keys && t'.incidents.Keys == t.incidents.Keys
    && (forall j :: j in t.jobs ==> t'.jobs[j] == Moved(t.jobs[j], op))
    && (forall i :: i in t.incidents ==> SameButRuns(t.incidents[i], t'.incidents[i]))
  }

  lemma SameIncidents(incidents: Incidents)
    ensures forall i :: i in incidents ==> SameButRuns(incidents[i], incidents[i])
  {
  }

  lemma ClaimMoves(job: Job, now: int)
    requires JobShape(job) && job.status.Pending?
    ensures Claimed(job, now) == Moved(job, Claim(job.id, now))
  {
  }

  lemma OthersStay(job: Job, op: Op)
    requires op.Claim? && op.job != job.id
    ensures Moved(job, op) == job
  {
  }

  lemma ClaimMovesAll(jobs: Jobs, j: Id, now: int)
    requires j in jobs && jobs[j].status.Pending? && forall k :: k in jobs ==> jobs[k].id == k && JobShape(jobs[k])
    ensures forall k :: k in jobs ==> jobs[j := Claimed(jobs[j], now)][k] == Moved(jobs[k], Claim(j, now))
  {
    hide Claimed, Moved, JobShape;
    forall k | k in jobs ensures jobs[j := Claimed(jobs[j], now)][k] == Moved(jobs[k], Claim(j, now)) {
      if k == j { ClaimMoves(jobs[j], now); } else { OthersStay(jobs[k], Claim(j, now)); }
    }
  }

  lemma ClaimChanges(s: State, s': State, j: Id, now: int)
    requires LinksOk(s.tables.incidents, s.tables.jobs) && j in s.tables.jobs && s.tables.jobs[j].status.Pending?
    requires forall k :: k in s.tables.jobs ==> s.tables.jobs[k].id == k
    requires s' == s.(tables := s.tables.(jobs := s.tables.jobs[j := Claimed(s.tables.jobs[j], now)]))
    ensures ChangesJobs(s, s', Claim(j, now))
  {
    hide LinksOk, Claimed, Moved, JobShape, SameButRuns;
    ShapeOfJobs(s.tables.incidents, s.tables.jobs);
    ClaimMovesAll(s.tables.jobs, j, now);
    SameIncidents(s.tables.incidents);
  }

  lemma RecoverMoves(job: Job, order: seq<Id>)
    requires JobShape(job)
    ensures (if job.status.Running? then Recovered(job) else job) == Moved(job, Recover(order))
  {
  }

  lemma RecoverMovesAll(jobs: Jobs, order: seq<Id>)
    requires forall k :: k in jobs ==> JobShape(jobs[k])
    ensures RecoverAll(jobs).Keys == jobs.Keys
    ensures forall k :: k in jobs ==> RecoverAll(jobs)[k] == Moved(jobs[k], Recover(order))
  {
    hide Recovered, Moved, JobShape;
    forall k | k in jobs ensures RecoverAll(jobs)[k] == Moved(jobs[k], Recover(order)) {
      RecoverMoves(jobs[k], order);
    }
  }

  lemma RecoverChanges(s: State, s': State, order: seq<Id>)
    requires LinksOk(s.tables.incidents, s.tables.jobs)
    requires s' == s.(tables := s.tables.(jobs := RecoverAll(s.tables.jobs)))
    ensures ChangesJobs(s, s', Recover(order))
  {
    hide LinksOk, RecoverAll, Moved, JobShape, SameButRuns;
    ShapeOfJobs(s.tables.incidents, s.tables.jobs);
    RecoverMovesAll(s.tables.jobs, order);
    SameIncidents(s.tables.incidents);
  }

  lemma CompleteChanges(s: State, s': State, op: Op)
    requires LinksOk(s.tables.incidents, s.tables.jobs) && op.Complete? && op.job in s.tables.jobs
    requires forall k :: k in s.tables.jobs ==> s.tables.jobs[k].id == k
    requires s' == s.(tables := CompleteTables(s.tables, Finished(s.tables.jobs[op.job], op.status, op.runId, op.error,
                                                                  op.detail, op.now)))
    ensures ChangesJobs(s, s', op)
  {
    hide LinksOk, Text.Bounded;
  }

  // What the operations on jobs change, and that they change nothing else: what an
  // unfinished job does not have yet, no operation has to take away.
  lemma JobOperationsChange(c: Core, op: Op)
    requires CoreInv(c) && Enabled(c, op) && !op.Ingest?
    ensures ChangesJobs(c.state, StateAfter(c, op), op)
  {
    hide EventsOk, IncidentsOk, DedupeOk, OpenOk, LinksOk, DeliveredOk, HistoryOk, WellFormed, Replay, JobOk, HasJob,
        CompleteTables, Claimed, RecoverAll, Finished, ChangesJobs, Enumerates;
    var s, s' := c.state, StateAfter(c, op);
    match op
    case Claim(j, now) => ClaimChanges(s, s', j, now);
    case Complete(_, _, _, _, _, _) => CompleteChanges(s, s', op);
    case Recover(order) => RecoverChanges(s, s', order);
  }

  // Jobs: exactly one for an incident opened by a firing event, none otherwise;
  // attempts count the claims on file, and the status walked only legal moves.
  lemma JobLifecycle(c: Core, i: Id)
    requires CoreInv(c) && i in c.state.tables.incidents
    ensures OpenedByFiring(c.state.tables.events, c.state.tables.incidents[i]) <==> HasJob(c.state.tables.jobs, i)
    ensures forall j, k | j in c.state.tables.jobs && k in c.state.tables.jobs
              :: c.state.tables.jobs[j].incidentId == i == c.state.tables.jobs[k].incidentId ==> j == k
    ensures forall j :: j in c.state.tables.jobs ==>
              LegalPath(History(c.log, j)) && CountRunning(History(c.log, j)) == c.state.tables.jobs[j].attempts
  {
    var t := c.state.tables;
    if HasJob(t.jobs, i) {
      var j :| j in t.jobs && t.jobs[j].incidentId == i;
      assert JobOk(t.events, t.incidents, t.jobs[j]);
    }
    forall j | j in t.jobs
      ensures LegalPath(History(c.log, j)) && CountRunning(History(c.log, j)) == t.jobs[j].attempts {
      assert HistoryOk(c.log, t.jobs, j);
    }
  }

  // A terminal status on file is the last one.
  lemma TerminalIsFinal(h: seq<JobStatus>, k: nat)
    requires LegalPath(h) && k < |h| && (h[k].Succeeded? || h[k].Failed?)
    ensures k == |h| - 1
  {
    assert k + 1 < |h| ==> Moves(h[k], h[k + 1]);
  }
}
