// The concurrent side of the alert store: the wake token, the waiters of a job
// and the worker that drains pending jobs. Each step below runs under the store's
// lock, so interleavings are sequences of steps.

module AlertProtocol {
  import opened AlertModel
  import opened Wrappers

  // A waiter's channel of capacity one. sent is everything ever sent on it.
  datatype Channel = Channel(job: Id, sent: seq<Job>, closed: bool, cancelled: bool)

  datatype Waiting = Waiting(lists: map<Id, seq<nat>>, channels: map<nat, Channel>)

  datatype Worker =
    | Draining                    // about to call ClaimNext
    | Processing(job: Id)
    | Drained                     // the last ClaimNext found no pending job
    | Selecting(drained: bool)    // in select; drained: the drain before it ended without an error
    | Stopped

  datatype World = World(core: Core, wake: bool, waiting: Waiting, worker: Worker)

  const START := World(EMPTY, false, Waiting(map[], map[]), Draining)

  predicate Terminal(j: Job) { j.status.Succeeded? || j.status.Failed? }

  // The receivers of one job, in registration order.
  ghost predicate ListOk(w: Waiting, jobs: Jobs, j: Id)
    requires j in w.lists
  {
    && j in jobs && !Terminal(jobs[j])
    && w.lists[j] != []
    && (forall a, b :: 0 <= a < b < |w.lists[j]| ==> w.lists[j][a] != w.lists[j][b])
    && (forall a :: 0 <= a < |w.lists[j]| ==>
          w.lists[j][a] in w.channels && w.channels[w.lists[j][a]] == Channel(j, [], false, false))
  }

  // A channel is registered, or cancelled, or holds the job in its final form.
  ghost predicate ChannelOk(w: Waiting, jobs: Jobs, c: nat)
    requires c in w.channels
  {
    var ch := w.channels[c];
    && ch.job in jobs
    && (ch.closed ==> Terminal(jobs[ch.job]) && ch.sent == [jobs[ch.job]])
    && (!ch.closed ==> ch.sent == [])
    && (!ch.closed && !ch.cancelled ==> ch.job in w.lists && c in w.lists[ch.job])
  }

  ghost predicate WaitingOk(w: Waiting, jobs: Jobs) {
    && (forall j :: j in w.lists ==> ListOk(w, jobs, j))
    && (forall c :: c in w.channels ==> ChannelOk(w, jobs, c))
  }

  // WaitJob registers under the lock.
  function Register(w: Waiting, j: Id, c: nat): Waiting {
    Waiting(w.lists[j := (if j in w.lists then w.lists[j] else []) + [c]],
            w.channels[c := Channel(j, [], false, false)])
  }

  // The index of the first occurrence, or the length.
  function IndexOf(cs: seq<nat>, c: nat): (i: nat)
    ensures i <= |cs| && (i < |cs| <==> c in cs)
    ensures i < |cs| ==> cs[i] == c && c !in cs[..i]
  {
    if cs == [] then 0 else if cs[0] == c then 0 else IndexOf(cs[1..], c) + 1
  }

  // The list with its first occurrence of c cut out.
  function Without(cs: seq<nat>, c: nat): seq<nat> {
    var i := IndexOf(cs, c);
    if i < |cs| then cs[..i] + cs[i + 1..] else cs
  }

  // The cancelled branch of WaitJob.
  function Cancel(w: Waiting, c: nat): Waiting
    requires c in w.channels
  {
    var j := w.channels[c].job;
    var cs := if j in w.lists then w.lists[j] else [];
    var rest := Without(cs, c);
    Waiting(if rest == [] then w.lists - {j} else w.lists[j := rest],
            w.channels[c := w.channels[c].(cancelled := true)])
  }

  // notifyWaiters: send the job once on each registered channel, close it, drop the list.
  function Notify(w: Waiting, job: Job): Waiting {
    if job.id !in w.lists then w
    else
      var cs := w.lists[job.id];
      Waiting(w.lists - {job.id},
              map c | c in w.channels :: if c in cs then w.channels[c].(sent := w.channels[c].sent + [job],
                  closed := true)
                                         else w.channels[c])
  }

  datatype Step =
    | Store(op: Op)               // Ingest, CompleteJob or RecoverRunning, from any goroutine
    | StoreFails                  // the same with a failed append: no effect
    | ClaimSome(job: Id, now: int)
    | ClaimNone
    | ClaimFails
    | Processed
    | EnterSelect
    | TakeToken
    | Timeout
    | Cancelled                   // the worker's context ends
    | Wait(job: Id, channel: nat)
    | StopWaiting(channel: nat)
    | Restart(dedupe: map<Key, Id>, open: map<Key, Id>) // the process ends and a new one opens the log

  ghost predicate HasPending(jobs: Jobs) {
    exists j :: j in jobs && jobs[j].status.Pending?
  }

  ghost predicate Can(w: World, s: Step) {
    var jobs := w.core.state.tables.jobs;
    match s
    case Store(op) => !op.Claim? && Enabled(w.core, op)
    case StoreFails => true
    case ClaimSome(j, now) => w.worker.Draining? && Enabled(w.core, Claim(j, now))
    case ClaimNone => w.worker.Draining? && !HasPending(jobs)
    case ClaimFails => w.worker.Draining? && HasPending(jobs)
    case Processed => w.worker.Processing?
    case EnterSelect => w.worker.Drained?
    case TakeToken => w.worker.Selecting? && w.wake
    case Timeout => w.worker.Selecting?
    case Cancelled => w.worker.Selecting?
    case Wait(j, c) => j in jobs && !Terminal(jobs[j]) && c !in w.waiting.channels
    case StopWaiting(c) => c in w.waiting.channels
    case Restart(dedupe, open) => IsDedupeIndex(Replay(w.core.log), dedupe) && IsOpenIndex(Replay(w.core.log), open)
  }

  // signal: a full token channel is left as it is.
  ghost predicate Signals(c: Core, op: Op)
    requires Enabled(c, op)
  {
    match op
    case Ingest(b, _) => IngestAll(c.state, b).jobs != []
    case Recover(_) => true
    case _ => false
  }

  ghost function WaitingAfter(c: Core, w: Waiting, op: Op): Waiting
    requires Enabled(c, op)
  {
    if op.Complete? then Notify(w, StateAfter(c, op).tables.jobs[op.job]) else w
  }

  // What opening a log gives: its replay, the derived indexes, no token and no waiters.
  ghost function Reopened(log: seq<Record>, dedupe: map<Key, Id>, open: map<Key, Id>): World {
    World(Core(State(Replay(log), dedupe, open), log), false, Waiting(map[], map[]), Draining)
  }

  ghost function Next(w: World, s: Step): World
    requires Can(w, s)
  {
    match s
    case Store(op) => World(Apply(w.core, op), w.wake || Signals(w.core, op), WaitingAfter(w.core, w.waiting, op),
                            w.worker)
    case StoreFails => w
    case ClaimSome(j, now) => w.(core := Apply(w.core, Claim(j, now)), worker := Processing(j))
    case ClaimNone => w.(worker := Drained)
    case ClaimFails => w.(worker := Selecting(false))
    case Processed => w.(worker := Draining)
    case EnterSelect => w.(worker := Selecting(true))
    case TakeToken => w.(wake := false, worker := Draining)
    case Timeout => w.(worker := Draining)
    case Cancelled => w.(worker := Stopped)
    case Wait(j, c) => w.(waiting := Register(w.waiting, j, c))
    case StopWaiting(c) => w.(waiting := Cancel(w.waiting, c))
    case Restart(dedupe, open) => Reopened(w.core.log, dedupe, open)
  }

  // A worker that went to sleep on an empty queue is woken if a job is pending.
  ghost predicate NoLostWakeUp(w: World) {
    (w.worker.Drained? || w.worker == Selecting(true)) && HasPending(w.core.state.tables.jobs) ==> w.wake
  }

  ghost predicate WorldInv(w: World) {
    CoreInv(w.core) && WaitingOk(w.waiting, w.core.state.tables.jobs) && NoLostWakeUp(w)
  }

  lemma RestartKeepsWorldInv(w: World, dedupe: map<Key, Id>, open: map<Key, Id>)
    requires CoreInv(w.core) && Can(w, Restart(dedupe, open))
    ensures WorldInv(Next(w, Restart(dedupe, open))) && Next(w, Restart(dedupe, open)).core == w.core
  {
    hide Inv, HistoryOk, WellFormed, Replay, IsDedupeIndex, IsOpenIndex;
    DerivedIndexesAreLive(w.core.state, dedupe, open);
  }

  // ------------------------------------------------------------- Waiters

  lemma {:induction false} RegisterKeeps(w: Waiting, jobs: Jobs, j: Id, c: nat)
    requires WaitingOk(w, jobs) && j in jobs && !Terminal(jobs[j]) && c !in w.channels
    ensures WaitingOk(Register(w, j, c), jobs)
  {
    var w' := Register(w, j, c);
    assert w'.lists[j][|w'.lists[j]| - 1] == c;
    assert j in w.lists ==> ListOk(w, jobs, j);
    forall k | k in w'.lists ensures ListOk(w', jobs, k) {
      if k != j { assert ListOk(w, jobs, k); }
    }
    forall d | d in w'.channels ensures ChannelOk(w', jobs, d) {
      if d != c {
        assert ChannelOk(w, jobs, d);
        if j in w.lists && d in w.lists[j] {
          assert w'.lists[j][IndexOf(w.lists[j], d)] == d;
        }
      }
    }
  }

  lemma WithoutAt(cs: seq<nat>, c: nat)
    ensures c !in cs ==> Without(cs, c) == cs
    ensures c in cs ==>
              && |Without(cs, c)| == |cs| - 1 && cs[IndexOf(cs, c)] == c
              && forall a :: 0 <= a < |cs| - 1 ==> Without(cs, c)[a] == cs[if a < IndexOf(cs, c) then a else a + 1]
  {
  }

  lemma WithoutParts(cs: seq<nat>, c: nat)
    requires forall a, b :: 0 <= a < b < |cs| ==> cs[a] != cs[b]
    ensures |Without(cs, c)| <= |cs|
    ensures forall d :: d in Without(cs, c) <==> d in cs && d != c
    ensures forall a, b :: 0 <= a < b < |Without(cs, c)| ==> Without(cs, c)[a] != Without(cs, c)[b]
  {
    WithoutAt(cs, c);
    if c in cs {
      var i := IndexOf(cs, c);
      var rest := Without(cs, c);
      hide Without, IndexOf;
      forall d | d in cs && d != c ensures d in rest {
        var k :| 0 <= k < |cs| && cs[k] == d;
        assert rest[if k < i then k else k - 1] == d;
      }
    }
  }

  lemma CancelKeeps(w: Waiting, jobs: Jobs, c: nat)
    requires WaitingOk(w, jobs) && c in w.channels
    ensures WaitingOk(Cancel(w, c), jobs)
  {
    hide Without, IndexOf;
    var w' := Cancel(w, c);
    var j := w.channels[c].job;
    var cs := if j in w.lists then w.lists[j] else [];
    assert j in w.lists ==> ListOk(w, jobs, j);
    WithoutParts(cs, c);
    forall k | k in w'.lists ensures ListOk(w', jobs, k) {
      assert ListOk(w, jobs, k);
      if k == j {
        forall a | 0 <= a < |w'.lists[k]| ensures w'.lists[k][a] in cs && w'.lists[k][a] != c {
          assert w'.lists[k][a] in Without(cs, c);
        }
      }
    }
    forall d | d in w'.channels ensures ChannelOk(w', jobs, d) {
      assert ChannelOk(w, jobs, d);
    }
  }

  // Sending never blocks: every channel that is sent to is open and empty, and
  // appears in the list once.
  lemma {:induction false} NotifyNeverBlocks(w: Waiting, jobs: Jobs, job: Job, a: nat)
    requires WaitingOk(w, jobs) && job.id in w.lists && a < |w.lists[job.id]|
    ensures var c := w.lists[job.id][a];
            c in w.channels && w.channels[c].sent == [] && !w.channels[c].closed && c !in w.lists[job.id][..a]
  {
    assert ListOk(w, jobs, job.id);
  }

  lemma {:induction false} NotifyKeeps(w: Waiting, jobs: Jobs, job: Job)
    requires WaitingOk(w, jobs) && job.id in jobs && !Terminal(jobs[job.id]) && Terminal(job)
    ensures WaitingOk(Notify(w, job), jobs[job.id := job])
  {
    var w', jobs' := Notify(w, job), jobs[job.id := job];
    assert job.id in w.lists ==> ListOk(w, jobs, job.id);
    forall k | k in w'.lists ensures ListOk(w', jobs', k) {
      assert ListOk(w, jobs, k);
      if job.id in w.lists {
        forall a | 0 <= a < |w.lists[k]| ensures w.lists[k][a] !in w.lists[job.id] {
          assert w.channels[w.lists[k][a]].job == k;
        }
      }
    }
    forall c | c in w'.channels ensures ChannelOk(w', jobs', c) {
      assert ChannelOk(w, jobs, c);
    }
  }

  // Jobs that are not terminal may change; terminal ones may not.
  lemma OtherOpsKeepWaiting(w: Waiting, jobs: Jobs, jobs': Jobs)
    requires WaitingOk(w, jobs)
    requires forall j :: j in jobs ==> j in jobs' && (Terminal(jobs[j]) ==> jobs'[j] == jobs[j])
    requires forall j :: j in jobs && !Terminal(jobs[j]) ==> !Terminal(jobs'[j])
    ensures WaitingOk(w, jobs')
  {
    forall j | j in w.lists ensures ListOk(w, jobs', j) { assert ListOk(w, jobs, j); }
    forall c | c in w.channels ensures ChannelOk(w, jobs', c) { assert ChannelOk(w, jobs, c); }
  }

  // ------------------------------------------------------------- Steps

  // Entries written by an operation other than Complete never end a job, and
  // entries for existing jobs only replace jobs that were not terminal.
  lemma PutKeepsTerminal(jobs: Jobs, vs: seq<Job>, j: Id)
    requires JobsStep(jobs, vs) && j in jobs
    requires forall i :: 0 <= i < |vs| ==> !Terminal(vs[i])
    ensures j in PutAll(jobs, vs, JobId)
    ensures Terminal(jobs[j]) ==> PutAll(jobs, vs, JobId)[j] == jobs[j]
    ensures !Terminal(jobs[j]) ==> !Terminal(PutAll(jobs, vs, JobId)[j])
  {
    FindPut(jobs, vs, JobId, j);
    if Find(vs, JobId, j).Some? {
      assert JobStep(jobs, Find(vs, JobId, j).value);
    }
  }

  lemma WrittenJobs(c: Core, op: Op)
    requires CoreInv(c) && Enabled(c, op)
    ensures JobsStep(c.state.tables.jobs, RecordOf(c, op).jobs)
    ensures StateAfter(c, op).tables.jobs == PutAll(c.state.tables.jobs, RecordOf(c, op).jobs, JobId)
  {
    hide Inv, CoreInv, Enabled, JobsStep, StateAfter, RecordOf, PutAll, WellFormed;
    OpReplays(c, op);
    assert ApplyRecord(c.state.tables, RecordOf(c, op)).jobs == StateAfter(c, op).tables.jobs;
  }

  lemma PendingPieces(s: State, b: Batch)
    requires Inv(s) && FreshBatch(s, b)
    ensures forall i :: 0 <= i < |IngestAll(s, b).jobs| ==> IngestAll(s, b).jobs[i].status.Pending?
  {
    hide Inv, FreshBatch, IngestUpto;
    IngestUptoReplays(s, b, |b.events|);
  }

  lemma OnlyCompleteEndsJobs(c: Core, op: Op)
    requires CoreInv(c) && Enabled(c, op) && !op.Complete?
    ensures forall i :: 0 <= i < |RecordOf(c, op).jobs| ==> !Terminal(RecordOf(c, op).jobs[i])
  {
    hide EventsOk, IncidentsOk, DedupeOk, OpenOk, JobsOk, LinksOk, DeliveredOk, HistoryOk, IngestUpto, BatchAccepted,
        FreshBatch, Replay, Text.Bounded;
    match op
    case Ingest(b, order) => PendingPieces(c.state, b);
    case Claim(j, now) =>
    case Recover(order) =>
      assert forall k :: 0 <= k < |order| ==> order[k] in RunningJobs(c.state.tables);
  }

  lemma NonCompletingKeepsWaiting(c: Core, w: Waiting, op: Op)
    requires CoreInv(c) && Enabled(c, op) && !op.Complete? && WaitingOk(w, c.state.tables.jobs)
    ensures WaitingOk(w, StateAfter(c, op).tables.jobs)
  {
    hide CoreInv, Enabled, StateAfter, RecordOf, WaitingOk, JobsStep, PutAll;
    WrittenJobs(c, op);
    OnlyCompleteEndsJobs(c, op);
    var jobs, jobs' := c.state.tables.jobs, StateAfter(c, op).tables.jobs;
    forall j | j in jobs
      ensures j in jobs' && (Terminal(jobs[j]) ==> jobs'[j] == jobs[j]) && (!Terminal(jobs[j]) ==> !Terminal(jobs'[j]))
    {
      PutKeepsTerminal(jobs, RecordOf(c, op).jobs, j);
    }
    OtherOpsKeepWaiting(w, jobs, jobs');
  }

  lemma IdsMatch(c: Core, j: Id)
    requires CoreInv(c) && j in c.state.tables.jobs
    ensures c.state.tables.jobs[j].id == j
  {
  }

  lemma StoreKeepsWaiting(c: Core, w: Waiting, op: Op)
    requires CoreInv(c) && Enabled(c, op) && WaitingOk(w, c.state.tables.jobs)
    ensures WaitingOk(WaitingAfter(c, w, op), StateAfter(c, op).tables.jobs)
  {
    hide WaitingOk, Inv, HistoryOk, Replay, WellFormed;
    if op.Complete? {
      var t := c.state.tables;
      var v := Finished(t.jobs[op.job], op.status, op.runId, op.error, op.detail, op.now);
      assert v.id == op.job by { IdsMatch(c, op.job); }
      NotifyKeeps(w, t.jobs, v);
    } else {
      NonCompletingKeepsWaiting(c, w, op);
    }
  }

  // A store operation that leaves a new pending job behind raises the token.
  lemma NewPendingSignals(c: Core, op: Op)
    requires CoreInv(c) && Enabled(c, op) && !Signals(c, op)
    requires HasPending(StateAfter(c, op).tables.jobs)
    ensures HasPending(c.state.tables.jobs)
  {
    hide Inv, HistoryOk, Replay, WellFormed, IngestUpto, FreshBatch, BatchAccepted, Text.Bounded;
    var jobs, jobs' := c.state.tables.jobs, StateAfter(c, op).tables.jobs;
    if op.Ingest? { IngestUptoReplays(c.state, op.batch, |op.batch.events|); }
    if op.Complete? { IdsMatch(c, op.job); }
    var j :| j in jobs' && jobs'[j].status.Pending?;
    assert j in jobs && jobs[j].status.Pending?;
  }

  lemma StepKeepsWorldInv(w: World, s: Step)
    requires WorldInv(w) && Can(w, s)
    ensures WorldInv(Next(w, s))
  {
    hide CoreInv, WaitingOk, Enabled, StateAfter, RecordOf, Signals, WaitingAfter;
    match s
    case Store(op) =>
      StepKeepsCoreInv(w.core, op);
      StoreKeepsWaiting(w.core, w.waiting, op);
      if !Signals(w.core, op) && HasPending(StateAfter(w.core, op).tables.jobs) { NewPendingSignals(w.core, op); }
    case ClaimSome(j, now) =>
      StepKeepsCoreInv(w.core, Claim(j, now));
      NonCompletingKeepsWaiting(w.core, w.waiting, Claim(j, now));
    case Wait(j, c) => RegisterKeeps(w.waiting, w.core.state.tables.jobs, j, c);
    case StopWaiting(c) => CancelKeeps(w.waiting, w.core.state.tables.jobs, c);
    case Restart(dedupe, open) => RestartKeepsWorldInv(w, dedupe, open);
    case _ =>
  }

  ghost predicate LegalTrace(w: World, steps: seq<Step>)
    decreases |steps|
  {
    steps == [] || (Can(w, steps[0]) && LegalTrace(Next(w, steps[0]), steps[1..]))
  }

  ghost function After(w: World, steps: seq<Step>): World
    requires LegalTrace(w, steps)
    decreases |steps|
  {
    if steps == [] then w else After(Next(w, steps[0]), steps[1..])
  }

  lemma {:induction false} TraceKeepsWorldInv(w: World, steps: seq<Step>)
    requires WorldInv(w) && LegalTrace(w, steps)
    ensures WorldInv(After(w, steps))
    decreases |steps|
  {
    if steps != [] {
      StepKeepsWorldInv(w, steps[0]);
      TraceKeepsWorldInv(Next(w, steps[0]), steps[1..]);
    }
  }

  // Under every interleaving from an empty store, restarts included: no wake-up is lost, waiters exist
  // only for unfinished jobs, and a channel carries at most one job, the final one.
  lemma EveryInterleavingIsSafe(steps: seq<Step>)
    requires LegalTrace(START, steps)
    ensures var w := After(START, steps);
            && NoLostWakeUp(w)
            && CoreInv(w.core)
            && (forall j :: j in w.waiting.lists ==>
                j in w.core.state.tables.jobs && !Terminal(w.core.state.tables.jobs[j]))
            && (forall c :: c in w.waiting.channels ==>
                  var ch := w.waiting.channels[c];
                  ch.sent == [] || (ch.job in w.core.state.tables.jobs && Terminal(w.core.state.tables.jobs[ch.job]) &&
                                    ch.sent == [w.core.state.tables.jobs[ch.job]]))
  {
    TraceKeepsWorldInv(START, steps);
    var w := After(START, steps);
    forall j | j in w.waiting.lists ensures j in w.core.state.tables.jobs && !Terminal(w.core.state.tables.jobs[j]) {
      assert ListOk(w.waiting, w.core.state.tables.jobs, j);
    }
    forall c | c in w.waiting.channels
      ensures var ch := w.waiting.channels[c];
              ch.sent == [] || (ch.job in w.core.state.tables.jobs && Terminal(w.core.state.tables.jobs[ch.job]) &&
                                ch.sent == [w.core.state.tables.jobs[ch.job]])
    {
      assert ChannelOk(w.waiting, w.core.state.tables.jobs, c);
    }
  }

  // A waiter that has not given up holds the final job as soon as there is one.
  lemma FinishedJobReachesWaiter(w: World, c: nat)
    requires WorldInv(w) && c in w.waiting.channels && !w.waiting.channels[c].cancelled
    requires Terminal(w.core.state.tables.jobs[w.waiting.channels[c].job])
    ensures w.waiting.channels[c].sent == [w.core.state.tables.jobs[w.waiting.channels[c].job]]
  {
    var jobs := w.core.state.tables.jobs;
    assert ChannelOk(w.waiting, jobs, c);
    forall k | k in w.waiting.lists ensures k in jobs && !Terminal(jobs[k]) {
      assert ListOk(w.waiting, jobs, k);
    }
  }
}
