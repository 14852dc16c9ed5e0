// Long polling with explicit acknowledgement: the offset of the next request confirms
// every update below it.

module TelegramPolling {
  import opened Wrappers

  // What an update turned into: a message for the handler, or a refusal (undecodable,
  // ignored or not authorised), which may be reported.
  datatype Decoded = Message | Refused(reported: bool)

  // An update, how often the handler would fail before taking it, and the failure, if
  // any, after which polling is cancelled. An undecodable update has a negative id.
  datatype Update = Update(id: int, decoded: Decoded, failures: nat, cancelledAfter: Option<nat>)

  // The outcome of one request; waiting afterwards may be interrupted by cancellation.
  datatype Poll = PollFailed(cancelled: bool, interrupted: bool) | PollOk(updates: seq<Update>, interrupted: bool)

  datatype End = Running | Cancelled | Undecodable

  const MINIMUM_RETRY_DELAY := 1000
  const MAXIMUM_RETRY_DELAY := 30000
  const EMPTY_POLL_DELAY := 100

  predicate Ascending(ids: seq<int>) {
    forall i, j :: 0 <= i < j < |ids| ==> ids[i] < ids[j]
  }

  // No earlier update of the batch has an id as large: always so in the ascending order
  // the messenger promises.
  predicate NewHighest(updates: seq<Update>, i: nat)
    requires i < |updates|
  {
    forall j :: 0 <= j < i ==> updates[j].id < updates[i].id
  }

  // Nothing is confirmed unhandled: every such update that was not confirmed before and
  // is now has been taken by the handler or refused.
  ghost predicate Handled(updates: seq<Update>, n: nat, before: int, after: int, accepted: seq<int>, refused: seq<int>)
    requires n <= |updates|
  {
    forall i :: 0 <= i < n && before <= updates[i].id < after && NewHighest(updates, i) ==>
      if updates[i].decoded.Message? then updates[i].id in accepted else updates[i].id in refused
  }

  // The batch has a message with this id.
  ghost predicate Carries(updates: seq<Update>, id: int) {
    exists u :: u in updates && u.id == id && u.decoded.Message?
  }

  // Only messages of this batch are taken, each once, and each is confirmed afterwards.
  ghost predicate TakenOnce(updates: seq<Update>, before: int, after: int, accepted: seq<int>) {
    && Ascending(accepted)
    && forall i :: 0 <= i < |accepted| ==> before <= accepted[i] < after && Carries(updates, accepted[i])
  }

  predicate GivesUp(u: Update) {
    u.cancelledAfter.Some? && 1 <= u.cancelledAfter.value <= u.failures
  }

  // Calls the handler until it takes the message; the first failure is reported.
  method Deliver(u: Update) returns (taken: bool, attempts: nat, reports: nat)
    ensures taken <==> !GivesUp(u)
    ensures attempts == if taken then u.failures + 1 else u.cancelledAfter.value
    ensures reports == if u.failures > 0 then 1 else 0
  {
    attempts, reports := 0, 0;
    var reportedAcceptError := false;
    while true
      invariant attempts <= u.failures && (GivesUp(u) ==> attempts < u.cancelledAfter.value)
      invariant reportedAcceptError <==> attempts > 0
      invariant reports == if attempts > 0 then 1 else 0
      decreases u.failures - attempts
    {
      attempts := attempts + 1;
      if attempts > u.failures { return true, attempts, reports; }
      if !reportedAcceptError {
        reports := reports + 1;
        reportedAcceptError := true;
      }
      if u.cancelledAfter == Some(attempts) { return false, attempts, reports; }
    }
  }

  lemma NothingTaken(updates: seq<Update>, before: int)
    ensures TakenOnce(updates, before, before, [])
  {
  }

  lemma TakenLater(updates: seq<Update>, before: int, after: int, accepted: seq<int>, later: int)
    requires TakenOnce(updates, before, after, accepted) && after <= later
    ensures TakenOnce(updates, before, later, accepted)
  {
    hide Carries;
  }

  lemma TakeOne(updates: seq<Update>, before: int, after: int, accepted: seq<int>, u: Update)
    requires TakenOnce(updates, before, after, accepted) && before <= after
    requires u in updates && u.decoded.Message? && after <= u.id
    ensures TakenOnce(updates, before, u.id + 1, accepted + [u.id])
  {
    var taken := accepted + [u.id];
    assert Carries(updates, u.id);
    hide Carries;
    forall i | 0 <= i < |taken| ensures before <= taken[i] < u.id + 1 && Carries(updates, taken[i]) {
      if i < |accepted| { assert taken[i] == accepted[i]; }
    }
  }

  lemma NothingHandled(updates: seq<Update>, before: int)
    ensures Handled(updates, 0, before, before, [], [])
  {
  }

  // An update below the offset was there before or follows a higher one.
  lemma SkipHandled(updates: seq<Update>, n: nat, before: int, after: int, accepted: seq<int>, refused: seq<int>)
    requires n < |updates| && Handled(updates, n, before, after, accepted, refused) && updates[n].id < after
    requires after == before || exists j :: 0 <= j < n && after == updates[j].id + 1
    ensures Handled(updates, n + 1, before, after, accepted, refused)
  {
    if after != before {
      var j :| 0 <= j < n && after == updates[j].id + 1;
      assert !NewHighest(updates, n);
    }
  }

  lemma OneHandled(updates: seq<Update>, n: nat, before: int, after: int, accepted: seq<int>, refused: seq<int>,
                   accepted': seq<int>, refused': seq<int>)
    requires n < |updates| && Handled(updates, n, before, after, accepted, refused) && updates[n].id >= after >= before
    requires accepted <= accepted' && refused <= refused' && forall i :: 0 <= i < n ==> updates[i].id < after
    requires updates[n].id in if updates[n].decoded.Message? then accepted' else refused'
    ensures Handled(updates, n + 1, before, updates[n].id + 1, accepted', refused')
  {
    forall i | 0 <= i < n && before <= updates[i].id && NewHighest(updates, i)
      ensures updates[i].id in if updates[i].decoded.Message? then accepted' else refused'
    {
    }
  }

  lemma CutShort(updates: seq<Update>, n: nat, before: int, after: int, accepted: seq<int>, refused: seq<int>)
    requires n < |updates| && Handled(updates, n, before, after, accepted, refused) && updates[n].id >= after
    ensures Handled(updates, |updates|, before, after, accepted, refused)
  {
  }

  // One batch of updates.
  method HandleBatch(updates: seq<Update>, before: int)
    returns (after: int, accepted: seq<int>, refused: seq<int>, reports: nat, end: End)
    requires before >= 0
    ensures before <= after && !end.Undecodable? && reports <= |updates|
    ensures TakenOnce(updates, before, after, accepted)
    ensures Handled(updates, |updates|, before, after, accepted, refused)
    ensures end.Running? ==> forall i :: 0 <= i < |updates| ==> updates[i].id < after
    ensures (forall i :: 0 <= i < |updates| ==> updates[i].id < before) ==>
              after == before && accepted == [] && reports == 0 && end.Running?
  {
    hide TakenOnce, Handled;
    after, accepted, refused, reports, end := before, [], [], 0, Running;
    NothingTaken(updates, before);
    NothingHandled(updates, before);
    for n := 0 to |updates|
      invariant before <= after && reports <= n
      invariant TakenOnce(updates, before, after, accepted)
      invariant Handled(updates, n, before, after, accepted, refused)
      invariant after == before || exists j :: 0 <= j < n && after == updates[j].id + 1
      invariant forall i :: 0 <= i < n ==> updates[i].id < after
      invariant (forall i :: 0 <= i < |updates| ==> updates[i].id < before) ==>
                  after == before && accepted == [] && reports == 0
    {
      var u := updates[n];
      assert u in updates;
      if u.id < after {
        SkipHandled(updates, n, before, after, accepted, refused);
        continue;
      }
      if u.decoded.Refused? {
        if u.id < 0 { return after, accepted, refused, reports, Undecodable; }
        if u.decoded.reported { reports := reports + 1; }
        TakenLater(updates, before, after, accepted, u.id + 1);
        OneHandled(updates, n, before, after, accepted, refused, accepted, refused + [u.id]);
        refused := refused + [u.id];
        after := u.id + 1;
        continue;
      }
      var taken, attempts, reported := Deliver(u);
      reports := reports + reported;
      if !taken {
        CutShort(updates, n, before, after, accepted, refused);
        return after, accepted, refused, reports, Cancelled;
      }
      TakeOne(updates, before, after, accepted, u);
      OneHandled(updates, n, before, after, accepted, refused, accepted + [u.id], refused);
      accepted := accepted + [u.id];
      after := u.id + 1;
    }
  }

  // The wait after the k-th failure in a row: doubled from one second, at most thirty.
  function RetryDelay(k: nat): nat {
    if k <= 1 then MINIMUM_RETRY_DELAY
    else if 2 * RetryDelay(k - 1) > MAXIMUM_RETRY_DELAY then MAXIMUM_RETRY_DELAY else 2 * RetryDelay(k - 1)
  }

  function Power(k: nat): nat {
    if k == 0 then 1 else 2 * Power(k - 1)
  }

  // The delay after k failures in a row in closed form.
  lemma {:induction false} RetryDelayIs(k: nat)
    requires k >= 1
    ensures RetryDelay(k) == if MINIMUM_RETRY_DELAY * Power(k - 1) > MAXIMUM_RETRY_DELAY then MAXIMUM_RETRY_DELAY
                             else MINIMUM_RETRY_DELAY * Power(k - 1)
  {
    if k > 1 { RetryDelayIs(k - 1); }
  }

  // Failures in a row up to and including poll n.
  function FailuresInARow(polls: seq<Poll>, n: nat): nat
    requires n <= |polls|
  {
    if n == 0 || polls[n - 1].PollOk? then 0 else 1 + FailuresInARow(polls, n - 1)
  }

  lemma NextDelay(polls: seq<Poll>, n: nat)
    requires n < |polls|
    ensures var d := RetryDelay(FailuresInARow(polls, n) + 1);
            RetryDelay(FailuresInARow(polls, n + 1) + 1) ==
              if polls[n].PollOk? then MINIMUM_RETRY_DELAY else if 2 * d > MAXIMUM_RETRY_DELAY then MAXIMUM_RETRY_DELAY
              else 2 * d
    ensures polls[n].PollFailed? ==> FailuresInARow(polls, n + 1) == FailuresInARow(polls, n) + 1
  {
  }

  datatype Trace = Trace(offsets: seq<int>, accepted: seq<int>, refused: seq<int>, waits: seq<Option<nat>>)

  ghost predicate Growing(offsets: seq<int>, last: int) {
    && (forall i :: 0 <= i < |offsets| ==> 0 <= offsets[i] <= last)
    && (forall i, j :: 0 <= i < j < |offsets| ==> offsets[i] <= offsets[j])
  }

  // The wait after a request: none when cancelled or when there are updates to handle.
  function Wait(poll: Poll, retryDelay: nat): Option<nat> {
    match poll
    case PollFailed(cancelled, _) => if cancelled then None else Some(retryDelay)
    case PollOk(updates, _) => if updates == [] then Some(EMPTY_POLL_DELAY) else None
  }

  // The wait after every failed request is the delay for its run of failures.
  ghost predicate WaitsOk(polls: seq<Poll>, waits: seq<Option<nat>>) {
    && |waits| <= |polls|
    && forall i :: 0 <= i < |waits| ==> waits[i] == Wait(polls[i], RetryDelay(FailuresInARow(polls, i + 1)))
  }

  // The updates a request brought are all taken or refused from its offset on, up to a
  // later one.
  ghost predicate Settled(poll: Poll, from: int, to: int, t: Trace) {
    poll.PollOk? ==> Handled(poll.updates, |poll.updates|, from, to, t.accepted, t.refused)
  }

  ghost predicate Beyond(poll: Poll, to: int) {
    poll.PollOk? ==> forall i :: 0 <= i < |poll.updates| ==> poll.updates[i].id < to
  }

  // Everything confirmed by the requests so far has been handled.
  ghost predicate Lossless(polls: seq<Poll>, t: Trace, offset: int) {
    |t.offsets| <= |polls| && forall p :: 0 <= p < |t.offsets| ==> Settled(polls[p], t.offsets[p], offset, t)
  }

  ghost predicate AllRead(polls: seq<Poll>, n: nat, offset: int)
    requires n <= |polls|
  {
    forall p :: 0 <= p < n ==> Beyond(polls[p], offset)
  }

  lemma NextRequest(polls: seq<Poll>, t: Trace, offset: int, after: int, t': Trace)
    requires |t.offsets| < |polls| && Lossless(polls, t, offset) && AllRead(polls, |t.offsets|, offset)
             && offset <= after
    requires t'.offsets == t.offsets + [offset] && t.accepted <= t'.accepted && t.refused <= t'.refused
    requires Settled(polls[|t.offsets|], offset, after, t')
    ensures Lossless(polls, t', after)
  {
    forall p | 0 <= p < |t'.offsets| ensures Settled(polls[p], t'.offsets[p], after, t') {
      if p < |t.offsets| {
        assert Settled(polls[p], t.offsets[p], offset, t) && Beyond(polls[p], offset);
      }
    }
  }

  lemma NothingToHandle(updates: seq<Update>, offset: int, accepted: seq<int>, refused: seq<int>)
    requires updates == []
    ensures Handled(updates, 0, offset, offset, accepted, refused)
  {
  }

  lemma HandledGrows(updates: seq<Update>, before: int, after: int, accepted: seq<int>, refused: seq<int>, a: seq<int>,
                     r: seq<int>)
    ensures Handled(updates, |updates|, before, after, accepted, refused) ==>
              Handled(updates, |updates|, before, after, a + accepted, r + refused)
  {
  }

  lemma TakenJoin(updates: seq<Update>, before: int, after: int, earlier: seq<int>, accepted: seq<int>)
    requires TakenOnce(updates, before, after, accepted) && Ascending(earlier) && 0 <= before <= after
    requires forall i :: 0 <= i < |earlier| ==> 0 <= earlier[i] < before
    ensures Ascending(earlier + accepted) && forall i :: 0 <= i < |earlier + accepted| ==>
              0 <= (earlier + accepted)[i] < after
  {
  }

  // One request and what follows it.
  method Step(poll: Poll, offset: int, retryDelay: nat, t: Trace) returns (t': Trace, after: int, next: nat, end: End)
    requires 0 <= offset && Ascending(t.accepted) && forall i :: 0 <= i < |t.accepted| ==> 0 <= t.accepted[i] < offset
    ensures offset <= after && !end.Undecodable?
    ensures t'.offsets == t.offsets + [offset] && t'.waits == t.waits + [Wait(poll, retryDelay)]
    ensures t.accepted <= t'.accepted && t.refused <= t'.refused
    ensures Ascending(t'.accepted) && forall i :: 0 <= i < |t'.accepted| ==> 0 <= t'.accepted[i] < after
    ensures Settled(poll, offset, after, t') && (end.Running? ==> Beyond(poll, after))
    ensures next == if poll.PollOk? then MINIMUM_RETRY_DELAY else if 2 * retryDelay > MAXIMUM_RETRY_DELAY
            then MAXIMUM_RETRY_DELAY else 2 * retryDelay
  {
    hide TakenOnce, Handled;
    after, end := offset, Running;
    match poll {
      case PollFailed(cancelled, interrupted) =>
        t' := t.(offsets := t.offsets + [offset], waits := t.waits + [if cancelled then None else Some(retryDelay)]);
        next := if 2 * retryDelay > MAXIMUM_RETRY_DELAY then MAXIMUM_RETRY_DELAY else 2 * retryDelay;
        if cancelled || interrupted { end := Cancelled; }
      case PollOk(updates, interrupted) =>
        next := MINIMUM_RETRY_DELAY;
        t' := t.(offsets := t.offsets + [offset], waits := t.waits + [None]);
        if |updates| == 0 {
          t' := t'.(waits := t.waits + [Some(EMPTY_POLL_DELAY)]);
          NothingToHandle(updates, offset, t'.accepted, t'.refused);
          if interrupted { end := Cancelled; }
          return;
        }
        var accepted, refused, reports;
        after, accepted, refused, reports, end := HandleBatch(updates, offset);
        TakenJoin(updates, offset, after, t.accepted, accepted);
        HandledGrows(updates, offset, after, accepted, refused, t.accepted, t.refused);
        t' := t'.(accepted := t.accepted + accepted, refused := t.refused + refused);
    }
  }

  lemma FirstDelay(polls: seq<Poll>)
    ensures RetryDelay(FailuresInARow(polls, 0) + 1) == MINIMUM_RETRY_DELAY && Ascending([])
  {
  }

  lemma ReadOn(polls: seq<Poll>, n: nat, offset: int, after: int)
    requires n <= |polls| && AllRead(polls, n, offset) && offset <= after
    ensures AllRead(polls, n, after)
  {
  }

  // However requests fail and whatever updates they bring, over any number of requests:
  // each message is taken once, in id order, and none is confirmed before it was handled.
  method PollTelegram(polls: seq<Poll>) returns (t: Trace, offset: int, end: End)
    ensures Growing(t.offsets, offset) && Lossless(polls, t, offset) && WaitsOk(polls, t.waits)
            && |t.waits| == |t.offsets|
    ensures Ascending(t.accepted) && forall i :: 0 <= i < |t.accepted| ==> 0 <= t.accepted[i] < offset
    ensures !end.Undecodable? && (end.Running? ==> |t.offsets| == |polls|)
  {
    hide Ascending, Settled, Beyond, RetryDelay, FailuresInARow;
    t, offset, end := Trace([], [], [], []), 0, Running;
    var retryDelay: nat := MINIMUM_RETRY_DELAY;
    FirstDelay(polls);
    for n := 0 to |polls|
      invariant |t.offsets| == n == |t.waits| && Growing(t.offsets, offset) && 0 <= offset && end.Running?
      invariant Ascending(t.accepted) && forall i :: 0 <= i < |t.accepted| ==> 0 <= t.accepted[i] < offset
      invariant retryDelay == RetryDelay(FailuresInARow(polls, n) + 1) && WaitsOk(polls, t.waits)
      invariant Lossless(polls, t, offset) && AllRead(polls, n, offset)
    {
      var t', after, next, how := Step(polls[n], offset, retryDelay, t);
      NextDelay(polls, n);
      NextRequest(polls, t, offset, after, t');
      ReadOn(polls, n, offset, after);
      t, offset, retryDelay, end := t', after, next, how;
      if !end.Running? { return; }
    }
  }
}
