// The MCP stdio client: requests, the read loop and Close as interleaved atomic steps
// over the table of pending requests (JSON-RPC 2.0, section 5).

module McpProtocol {
  import opened Wrappers
  import Text

  // What a response channel carries: a response to the request with that key, or the
  // error the read loop ended with.
  datatype Msg = Response(key: string, payload: string) | Failure(err: string)

  // The state guarded by the lock, and the one-place channels by request id.
  datatype Shared = Shared(nextId: nat, pending: map<string, nat>, closed: bool, readErr: Option<string>,
                           doneCloses: nat,
                           boxes: map<nat, seq<Msg>>)

  datatype Outcome = Got(msg: Msg) | WriteFailed | Cancelled | ConnectionClosed | Refused

  // Where a request is.
  datatype Phase = Allocated | Writing | Waiting | Removing(next: Outcome) | Finished(outcome: Outcome)

  // Where the read loop is.
  datatype Reader = Reading | Holding(id: nat, msg: Msg) | Failing(todo: set<nat>, err: string) | Stopped

  // sent remembers everything ever put on a channel, grabbed the requests taken by fail.
  datatype World = World(shared: Shared, phases: map<nat, Phase>, reader: Reader, sent: map<nat, seq<Msg>>,
                         grabbed: set<nat>)

  function Key(id: nat): string {
    Text.Decimal(id)
  }

  // ------------------------------------------------------- Critical sections

  function DoAllocate(s: Shared): Shared {
    s.(nextId := s.nextId + 1, boxes := s.boxes[s.nextId + 1 := []])
  }

  function DoRegister(s: Shared, id: nat): Shared {
    if s.closed then s else s.(pending := s.pending[Key(id) := id])
  }

  function DoRemove(s: Shared, key: string): Shared {
    s.(pending := s.pending - {key})
  }

  function DoSend(s: Shared, id: nat, msg: Msg): Shared {
    if id in s.boxes then s.(boxes := s.boxes[id := s.boxes[id] + [msg]]) else s
  }

  function DoFail(s: Shared, err: string): Shared {
    if s.closed then s else s.(closed := true, readErr := Some(err), pending := map[], doneCloses := s.doneCloses + 1)
  }

  function DoClose(s: Shared): Shared {
    if s.closed then s else s.(closed := true, doneCloses := s.doneCloses + 1)
  }

  // ------------------------------------------------------- Steps

  datatype Step =
    | Allocate                               // take the next id and make its channel
    | Register(id: nat)                      // enter the table, or be refused
    | WriteOk(id: nat) | WriteFail(id: nat)
    | Receive(id: nat)                       // the three arms of the select
    | Cancel(id: nat)
    | SeeDone(id: nat)
    | Remove(id: nat)                        // removePending on the way out
    | Take(key: string, payload: string)     // the read loop dispatches a response
    | Deliver                                // and sends it
    | Fail(err: string)                      // the read loop ends
    | FailDeliver(id: nat)
    | FailEnd
    | Close

  predicate Can(w: World, step: Step) {
    match step
    case Allocate => true
    case Register(id) => id in w.phases && w.phases[id].Allocated?
    case WriteOk(id) => id in w.phases && w.phases[id].Writing?
    case WriteFail(id) => id in w.phases && w.phases[id].Writing?
    case Receive(id) => id in w.phases && w.phases[id].Waiting? && id in w.shared.boxes && w.shared.boxes[id] != []
    case Cancel(id) => id in w.phases && w.phases[id].Waiting?
    case SeeDone(id) => id in w.phases && w.phases[id].Waiting? && w.shared.doneCloses > 0
    case Remove(id) => id in w.phases && w.phases[id].Removing?
    case Take(_, _) => w.reader.Reading?
    case Deliver => w.reader.Holding?
    case Fail(_) => w.reader.Reading?
    case FailDeliver(id) => w.reader.Failing? && id in w.reader.todo
    case FailEnd => w.reader.Failing? && w.reader.todo == {}
    case Close => true
  }

  function Put(w: World, id: nat, msg: Msg, reader: Reader): World {
    w.(shared := DoSend(w.shared, id, msg), reader := reader,
    sent := if id in w.sent then w.sent[id := w.sent[id] + [msg]] else w.sent)
  }

  function After(w: World, step: Step): World
    requires Can(w, step)
  {
    var s := w.shared;
    match step
    case Allocate =>
      var id := s.nextId + 1;
      w.(shared := DoAllocate(s), phases := w.phases[id := Allocated], sent := w.sent[id := []])
    case Register(id) =>
      w.(shared := DoRegister(s, id), phases := w.phases[id := if s.closed then Finished(Refused) else Writing])
    case WriteOk(id) => w.(phases := w.phases[id := Waiting])
    case WriteFail(id) => w.(phases := w.phases[id := Removing(WriteFailed)])
    case Receive(id) => w.(shared := s.(boxes := s.boxes[id := s.boxes[id][1..]]),
                           phases := w.phases[id := Finished(Got(s.boxes[id][0]))])
    case Cancel(id) => w.(phases := w.phases[id := Removing(Cancelled)])
    case SeeDone(id) => w.(phases := w.phases[id := Removing(ConnectionClosed)])
    case Remove(id) => w.(shared := DoRemove(s, Key(id)), phases := w.phases[id := Finished(w.phases[id].next)])
    case Take(key, payload) =>
      if key in s.pending then w.(shared := DoRemove(s, key), reader := Holding(s.pending[key], Response(key, payload)))
      else w
    case Deliver => Put(w, w.reader.id, w.reader.msg, Reading)
    case Fail(err) =>
      if s.closed then w.(reader := Stopped)
      else w.(shared := DoFail(s, err), reader := Failing(s.pending.Values, err), grabbed := s.pending.Values)
    case FailDeliver(id) => Put(w, id, Failure(w.reader.err), w.reader.(todo := w.reader.todo - {id}))
    case FailEnd => w.(reader := Stopped)
    case Close => w.(shared := DoClose(s))
  }

  // ------------------------------------------------------- The invariant

  // The read loop owes the request a message.
  predicate Holds(reader: Reader, id: nat) {
    (reader.Holding? && reader.id == id) || (reader.Failing? && id in reader.todo)
  }

  predicate InTable(phase: Phase) {
    phase.Writing? || phase.Waiting? || phase.Removing?
  }

  // The same ids everywhere.
  ghost predicate IdsOk(w: World) {
    && (forall id :: id in w.phases <==> 1 <= id <= w.shared.nextId)
    && w.phases.Keys == w.shared.boxes.Keys == w.sent.Keys
  }

  // The right to send to a request is with the table or the read loop, never both, and
  // gone once used.
  ghost predicate RightsOk(w: World)
    requires IdsOk(w)
  {
    && (forall key :: key in w.shared.pending ==>
          var id := w.shared.pending[key];
          id in w.phases && key == Key(id) && InTable(w.phases[id]) && w.sent[id] == [] && !Holds(w.reader, id))
    && (forall id :: Holds(w.reader, id) ==> id in w.phases && w.sent[id] == [] && !w.phases[id].Allocated?)
    && (w.reader.Holding? ==> w.reader.msg.Response? && w.reader.msg.key == Key(w.reader.id))
  }

  predicate OwnMessage(id: nat, msg: Msg) {
    msg.Response? ==> msg.key == Key(id)
  }

  // At most one message per channel, and only for its own id.
  ghost predicate MessageOk(w: World, id: nat)
    requires IdsOk(w) && id in w.phases
  {
    && |w.sent[id]| <= 1
    && (w.shared.boxes[id] == [] || w.shared.boxes[id] == w.sent[id])
    && (forall i :: 0 <= i < |w.sent[id]| ==> OwnMessage(id, w.sent[id][i]))
    && (w.phases[id].Allocated? ==> w.sent[id] == [])
  }

  ghost predicate MessagesOk(w: World)
    requires IdsOk(w)
  {
    forall id :: id in w.phases ==> MessageOk(w, id)
  }

  ghost predicate ClosingOk(w: World)
    requires IdsOk(w)
  {
    && w.shared.doneCloses == (if w.shared.closed then 1 else 0)
    && (w.reader.Failing? ==> w.shared.closed && w.shared.readErr == Some(w.reader.err))
    && (w.grabbed != {} ==> w.shared.closed && w.shared.readErr.Some? && !w.reader.Reading? && !w.reader.Holding?)
    && (forall id :: id in w.grabbed ==>
          id in w.phases && (Holds(w.reader, id) || w.sent[id] == [Failure(w.shared.readErr.value)]))
  }

  ghost predicate Reachable(w: World, id: nat)
    requires IdsOk(w) && id in w.phases
  {
    (Key(id) in w.shared.pending && w.shared.pending[Key(id)] == id) || Holds(w.reader, id) || w.shared.boxes[id] != []
        || w.shared.closed
  }

  // A waiting request can still be woken; outcomes say what happened.
  ghost predicate OutcomeOk(w: World, id: nat)
    requires IdsOk(w) && id in w.phases
  {
    match w.phases[id]
    case Allocated => true
    case Writing => Reachable(w, id)
    case Waiting => Reachable(w, id)
    case Removing(next) => !next.Got? && (next.ConnectionClosed? || next.Refused? ==> w.shared.closed)
    case Finished(o) => (o.Got? ==> w.sent[id] == [o.msg]) && (o.ConnectionClosed? || o.Refused? ==> w.shared.closed)
  }

  ghost predicate OutcomesOk(w: World)
    requires IdsOk(w)
  {
    forall id :: id in w.phases ==> OutcomeOk(w, id)
  }

  ghost predicate Inv(w: World) {
    IdsOk(w) && RightsOk(w) && MessagesOk(w) && ClosingOk(w) && OutcomesOk(w)
  }

  const START := World(Shared(0, map[], false, None, 0, map[]), map[], Reading, map[], {})

  lemma KeysDiffer(a: nat, b: nat)
    ensures Key(a) == Key(b) <==> a == b
  {
    if Key(a) == Key(b) { Text.DecimalIsInjective(a, b); }
  }

  lemma AllKeysDiffer()
    ensures forall a: nat, b: nat :: Key(a) == Key(b) <==> a == b
  {
    forall a: nat, b: nat ensures Key(a) == Key(b) <==> a == b { KeysDiffer(a, b); }
  }

  lemma AllocateKeepsRights(w: World)
    requires Inv(w)
    ensures var w' := After(w, Allocate); IdsOk(w') && RightsOk(w') && ClosingOk(w')
  {
    hide Key, MessagesOk, OutcomesOk;
    var id := w.shared.nextId + 1;
    assert id !in w.phases && id !in w.grabbed && !Holds(w.reader, id);
    assert forall key :: key in w.shared.pending ==> w.shared.pending[key] != id;
  }

  lemma AllocateKeepsInv(w: World)
    requires Inv(w)
    ensures Inv(After(w, Allocate))
  {
    hide Key, RightsOk, ClosingOk;
    var w' := After(w, Allocate);
    AllocateKeepsRights(w);
    forall k | k in w'.phases ensures MessageOk(w', k) && OutcomeOk(w', k) {
      if k in w.phases { assert MessageOk(w, k) && OutcomeOk(w, k); }
    }
  }

  lemma RegisterKeepsRights(w: World, id: nat)
    requires Inv(w) && Can(w, Register(id))
    ensures var w' := After(w, Register(id)); IdsOk(w') && RightsOk(w') && ClosingOk(w')
  {
    hide Key, OutcomesOk;
    AllKeysDiffer();
    assert MessageOk(w, id);
  }

  lemma RegisterKeepsInv(w: World, id: nat)
    requires Inv(w) && Can(w, Register(id))
    ensures Inv(After(w, Register(id)))
  {
    hide Key, RightsOk, ClosingOk;
    AllKeysDiffer();
    var w' := After(w, Register(id));
    RegisterKeepsRights(w, id);
    forall k | k in w'.phases ensures MessageOk(w', k) && OutcomeOk(w', k) {
      assert MessageOk(w, k) && OutcomeOk(w, k);
    }
  }

  predicate CanMove(w: World, id: nat, next: Phase) {
    && id in w.phases && InTable(w.phases[id]) && InTable(next)
    && (next.Removing? ==> !next.next.Got? && (next.next.ConnectionClosed? || next.next.Refused? ==> w.shared.closed))
    && (w.phases[id].Removing? ==> next.Removing?)
  }

  lemma MoveKeepsRights(w: World, id: nat, next: Phase)
    requires Inv(w) && CanMove(w, id, next)
    ensures var w' := w.(phases := w.phases[id := next]); IdsOk(w') && RightsOk(w') && ClosingOk(w')
  {
    hide Key, MessagesOk, OutcomesOk;
  }

  // A request in the table moves between its phases there.
  lemma MoveKeepsInv(w: World, id: nat, next: Phase)
    requires Inv(w) && CanMove(w, id, next)
    ensures Inv(w.(phases := w.phases[id := next]))
  {
    hide Key, RightsOk, ClosingOk, IdsOk;
    var w' := w.(phases := w.phases[id := next]);
    MoveKeepsRights(w, id, next);
    forall k | k in w'.phases ensures MessageOk(w', k) && OutcomeOk(w', k) {
      assert MessageOk(w, k) && OutcomeOk(w, k);
    }
  }

  lemma CloseKeepsRights(w: World)
    requires Inv(w) && Can(w, Close)
    ensures var w' := After(w, Close); IdsOk(w') && RightsOk(w') && ClosingOk(w')
  {
    hide Key, MessagesOk, OutcomesOk;
  }

  lemma CloseKeepsInv(w: World)
    requires Inv(w) && Can(w, Close)
    ensures Inv(After(w, Close))
  {
    hide Key, RightsOk, ClosingOk;
    var w' := After(w, Close);
    CloseKeepsRights(w);
    forall k | k in w'.phases ensures MessageOk(w', k) && OutcomeOk(w', k) {
      assert MessageOk(w, k) && OutcomeOk(w, k);
    }
  }

  lemma ReceiveKeepsRights(w: World, id: nat)
    requires Inv(w) && Can(w, Receive(id))
    ensures var w' := After(w, Receive(id)); IdsOk(w') && RightsOk(w') && ClosingOk(w')
  {
    hide Key, OutcomesOk;
    assert MessageOk(w, id);
  }

  lemma ReceiveKeepsInv(w: World, id: nat)
    requires Inv(w) && Can(w, Receive(id))
    ensures Inv(After(w, Receive(id)))
  {
    hide Key, RightsOk, ClosingOk;
    var w' := After(w, Receive(id));
    ReceiveKeepsRights(w, id);
    forall k | k in w'.phases ensures MessageOk(w', k) && OutcomeOk(w', k) {
      assert MessageOk(w, k) && OutcomeOk(w, k);
    }
  }

  lemma RemoveKeepsRights(w: World, id: nat)
    requires Inv(w) && Can(w, Remove(id))
    ensures var w' := After(w, Remove(id)); IdsOk(w') && RightsOk(w') && ClosingOk(w')
  {
    hide Key, MessagesOk, OutcomesOk;
    AllKeysDiffer();
  }

  lemma RemoveKeepsInv(w: World, id: nat)
    requires Inv(w) && Can(w, Remove(id))
    ensures Inv(After(w, Remove(id)))
  {
    hide Key, RightsOk, ClosingOk;
    AllKeysDiffer();
    var w' := After(w, Remove(id));
    RemoveKeepsRights(w, id);
    forall k | k in w'.phases ensures MessageOk(w', k) && OutcomeOk(w', k) {
      assert MessageOk(w, k) && OutcomeOk(w, k);
    }
  }

  lemma TakeKeepsRights(w: World, key: string, payload: string)
    requires Inv(w) && Can(w, Take(key, payload))
    ensures var w' := After(w, Take(key, payload)); IdsOk(w') && RightsOk(w') && ClosingOk(w')
  {
    hide Key, MessagesOk, OutcomesOk;
  }

  lemma TakeKeepsInv(w: World, key: string, payload: string)
    requires Inv(w) && Can(w, Take(key, payload))
    ensures Inv(After(w, Take(key, payload)))
  {
    hide Key, RightsOk, ClosingOk;
    var w' := After(w, Take(key, payload));
    TakeKeepsRights(w, key, payload);
    forall k | k in w'.phases ensures MessageOk(w', k) && OutcomeOk(w', k) {
      assert MessageOk(w, k) && OutcomeOk(w, k);
    }
  }

  // Putting a message on a channel whose right to send the read loop holds.
  lemma PutKeepsRights(w: World, id: nat, msg: Msg, reader: Reader)
    requires Inv(w) && Holds(w.reader, id) && OwnMessage(id, msg) && !Holds(reader, id)
    requires (forall k :: Holds(reader, k) ==> Holds(w.reader, k)) && !reader.Holding?
    requires reader.Failing? ==> w.reader.Failing? && reader.err == w.reader.err
    requires w.reader.Failing? ==> msg == Failure(w.reader.err) && reader.Failing?
    requires forall k :: Holds(w.reader, k) && k != id ==> Holds(reader, k)
    ensures var w' := Put(w, id, msg, reader); IdsOk(w') && RightsOk(w') && ClosingOk(w')
  {
    hide Key, MessagesOk, OutcomesOk;
  }

  lemma PutKeepsInv(w: World, id: nat, msg: Msg, reader: Reader)
    requires Inv(w) && Holds(w.reader, id) && OwnMessage(id, msg) && !Holds(reader, id)
    requires (forall k :: Holds(reader, k) ==> Holds(w.reader, k)) && !reader.Holding?
    requires reader.Failing? ==> w.reader.Failing? && reader.err == w.reader.err
    requires w.reader.Failing? ==> msg == Failure(w.reader.err) && reader.Failing?
    requires forall k :: Holds(w.reader, k) && k != id ==> Holds(reader, k)
    ensures Inv(Put(w, id, msg, reader))
  {
    hide Key, ClosingOk;
    var w' := Put(w, id, msg, reader);
    PutKeepsRights(w, id, msg, reader);
    assert id in w.phases && w.sent[id] == [] && !w.phases[id].Allocated?;
    hide RightsOk, Holds, OwnMessage;
    forall k | k in w'.phases ensures MessageOk(w', k) && OutcomeOk(w', k) {
      assert MessageOk(w, k) && OutcomeOk(w, k);
    }
  }

  lemma DeliverKeepsInv(w: World)
    requires Inv(w) && Can(w, Deliver)
    ensures Inv(After(w, Deliver))
  {
    hide MessagesOk, ClosingOk, OutcomesOk, Put;
    PutKeepsInv(w, w.reader.id, w.reader.msg, Reading);
  }

  lemma FailDeliverKeepsInv(w: World, id: nat)
    requires Inv(w) && Can(w, FailDeliver(id))
    ensures Inv(After(w, FailDeliver(id)))
  {
    hide MessagesOk, ClosingOk, OutcomesOk, RightsOk, Put;
    PutKeepsInv(w, id, Failure(w.reader.err), w.reader.(todo := w.reader.todo - {id}));
  }

  lemma FailKeepsRights(w: World, err: string)
    requires Inv(w) && Can(w, Fail(err))
    ensures var w' := After(w, Fail(err)); IdsOk(w') && RightsOk(w') && ClosingOk(w')
  {
    hide Key, MessagesOk, OutcomesOk;
  }

  lemma FailKeepsInv(w: World, err: string)
    requires Inv(w) && Can(w, Fail(err))
    ensures Inv(After(w, Fail(err)))
  {
    hide Key, RightsOk, ClosingOk;
    var w' := After(w, Fail(err));
    FailKeepsRights(w, err);
    forall k | k in w'.phases ensures MessageOk(w', k) && OutcomeOk(w', k) {
      assert MessageOk(w, k) && OutcomeOk(w, k);
    }
  }

  lemma FailEndKeepsRights(w: World)
    requires Inv(w) && Can(w, FailEnd)
    ensures var w' := After(w, FailEnd); IdsOk(w') && RightsOk(w') && ClosingOk(w')
  {
    hide Key, MessagesOk, OutcomesOk;
  }

  lemma FailEndKeepsInv(w: World)
    requires Inv(w) && Can(w, FailEnd)
    ensures Inv(After(w, FailEnd))
  {
    hide Key, RightsOk, ClosingOk;
    var w' := After(w, FailEnd);
    FailEndKeepsRights(w);
    forall k | k in w'.phases ensures MessageOk(w', k) && OutcomeOk(w', k) {
      assert MessageOk(w, k) && OutcomeOk(w, k);
    }
  }

  lemma StepKeepsInv(w: World, step: Step)
    requires Inv(w) && Can(w, step)
    ensures Inv(After(w, step))
  {
    match step {
      case Allocate => hide Inv; AllocateKeepsInv(w);
      case Register(id) => hide Inv; RegisterKeepsInv(w, id);
      case WriteOk(id) => MoveKeepsInv(w, id, Waiting);
      case WriteFail(id) => MoveKeepsInv(w, id, Removing(WriteFailed));
      case Receive(id) => hide Inv; ReceiveKeepsInv(w, id);
      case Cancel(id) => MoveKeepsInv(w, id, Removing(Cancelled));
      case SeeDone(id) => MoveKeepsInv(w, id, Removing(ConnectionClosed));
      case Remove(id) => hide Inv; RemoveKeepsInv(w, id);
      case Take(key, payload) => hide Inv; TakeKeepsInv(w, key, payload);
      case Deliver => hide Inv; DeliverKeepsInv(w);
      case Fail(err) => hide Inv; FailKeepsInv(w, err);
      case FailDeliver(id) => hide Inv; FailDeliverKeepsInv(w, id);
      case FailEnd => hide Inv; FailEndKeepsInv(w);
      case Close => hide Inv; CloseKeepsInv(w);
    }
  }

  ghost predicate Legal(w: World, steps: seq<Step>)
    decreases |steps|
  {
    steps == [] || (Can(w, steps[0]) && Legal(After(w, steps[0]), steps[1..]))
  }

  ghost function Execute(w: World, steps: seq<Step>): World
    requires Legal(w, steps)
    decreases |steps|
  {
    if steps == [] then w else Execute(After(w, steps[0]), steps[1..])
  }

  // ------------------------------------------------------- What every interleaving keeps

  lemma {:induction false} EveryInterleavingIsSafe(w: World, steps: seq<Step>)
    requires Inv(w) && Legal(w, steps)
    ensures Inv(Execute(w, steps))
    decreases |steps|
  {
    if steps != [] {
      hide Inv, After, Can;
      StepKeepsInv(w, steps[0]);
      EveryInterleavingIsSafe(After(w, steps[0]), steps[1..]);
    }
  }

  lemma StartIsSafe()
    ensures Inv(START)
  {
  }

  // No send blocks: whenever the read loop is about to send, the one-place channel is
  // empty and nothing was ever sent on it.
  lemma SendNeverBlocks(steps: seq<Step>, id: nat)
    requires Legal(START, steps)
    ensures var w := Execute(START, steps);
            Holds(w.reader, id) ==> id in w.shared.boxes && id in w.sent && w.shared.boxes[id] == [] && w.sent[id] == []
  {
    StartIsSafe();
    EveryInterleavingIsSafe(START, steps);
    var w := Execute(START, steps);
    if Holds(w.reader, id) { assert MessageOk(w, id); }
  }

  // A request is answered at most once, and by a response to its own id.
  lemma AnswersAreOwn(steps: seq<Step>, id: nat)
    requires Legal(START, steps) && id in Execute(START, steps).phases
    ensures var w := Execute(START, steps);
            id in w.sent && |w.sent[id]| <= 1 &&
            (w.phases[id].Finished? && w.phases[id].outcome.Got? && w.phases[id].outcome.msg.Response? ==>
               w.phases[id].outcome.msg.key == Key(id))
  {
    StartIsSafe();
    EveryInterleavingIsSafe(START, steps);
    var w := Execute(START, steps);
    assert MessageOk(w, id) && OutcomeOk(w, id);
    if w.phases[id].Finished? && w.phases[id].outcome.Got? { assert OwnMessage(id, w.sent[id][0]); }
  }

  // done is closed at most once, exactly when the client is closed.
  lemma DoneClosesOnce(steps: seq<Step>)
    requires Legal(START, steps)
    ensures var s := Execute(START, steps).shared; s.doneCloses == if s.closed then 1 else 0
  {
    StartIsSafe();
    EveryInterleavingIsSafe(START, steps);
  }

  // fail takes every pending request, and no later step lets one go unanswered.
  lemma FailTakesAllPending(w: World, err: string)
    requires Can(w, Fail(err)) && !w.shared.closed
    ensures var w' := After(w, Fail(err));
            (forall key :: key in w.shared.pending ==>
                w.shared.pending[key] in w'.grabbed && Holds(w'.reader, w.shared.pending[key])) &&
            w'.shared.pending == map[]
  {
  }

  lemma {:induction false} GrabbedGetTheError(w: World, steps: seq<Step>, id: nat)
    requires Inv(w) && Legal(w, steps) && id in w.grabbed
    ensures var w' := Execute(w, steps);
            id in w'.grabbed && w'.shared.readErr == w.shared.readErr &&
            (w'.reader.Stopped? ==> id in w'.sent && w'.sent[id] == [Failure(w.shared.readErr.value)])
    decreases |steps|
  {
    if steps != [] {
      StepKeepsInv(w, steps[0]);
      GrabbedGetTheError(After(w, steps[0]), steps[1..], id);
    }
  }

  // After closing, the table only shrinks: a registration is refused.
  lemma {:induction false} NothingRegistersAfterClose(w: World, step: Step)
    requires Inv(w) && Can(w, step) && w.shared.closed
    ensures var s := After(w, step).shared; s.closed && s.pending.Keys <= w.shared.pending.Keys
    ensures step.Register? ==> After(w, step).phases[step.id] == Finished(Refused)
  {
    hide Inv, Key;
  }

  // A finished request leaves nothing in the table, and a waiting one can be woken.
  lemma NoRequestIsLost(steps: seq<Step>, id: nat)
    requires Legal(START, steps) && id in Execute(START, steps).phases
    ensures var w := Execute(START, steps);
            && id in w.shared.boxes
            && (w.phases[id].Finished? ==> Key(id) !in w.shared.pending)
            && (w.phases[id].Waiting? ==>
                Key(id) in w.shared.pending || Holds(w.reader, id) || w.shared.boxes[id] != [] || w.shared.closed)
  {
    StartIsSafe();
    EveryInterleavingIsSafe(START, steps);
    var w := Execute(START, steps);
    assert OutcomeOk(w, id);
    AllKeysDiffer();
  }
}

// The client object: each method is one critical section of the source.
module McpStdio {
  import opened Wrappers
  import opened McpProtocol

  class StdioClient {
    var pending: map<string, nat>
    var closed: bool
    var readErr: Option<string>
    var doneCloses: nat
    var nextId: nat
    var boxes: map<nat, seq<Msg>>

    ghost function Value(): Shared
      reads this
    {
      Shared(nextId, pending, closed, readErr, doneCloses, boxes)
    }

    constructor ()
      ensures Value() == START.shared
    {
      pending, closed, readErr, doneCloses, nextId, boxes := map[], false, None, 0, 0, map[];
    }

    // Takes a fresh id and makes its channel.
    method Allocate() returns (id: nat)
      modifies this
      ensures Value() == DoAllocate(old(Value())) && id == nextId
    {
      nextId := nextId + 1;
      boxes := boxes[nextId := []];
      id := nextId;
    }

    method Register(id: nat) returns (refused: Option<string>)
      modifies this`pending
      ensures Value() == DoRegister(old(Value()), id)
      ensures refused == if !closed then None else if readErr.Some? then readErr else Some("MCP client is closed")
    {
      if closed { return if readErr.Some? then readErr else Some("MCP client is closed"); }
      pending := pending[Key(id) := id];
      refused := None;
    }

    method RemovePending(id: nat)
      modifies this`pending
      ensures Value() == DoRemove(old(Value()), Key(id))
    {
      pending := pending - {Key(id)};
    }

    // The read loop's lookup: the request a response belongs to, taken out of the table.
    method Take(key: string) returns (id: Option<nat>)
      modifies this`pending
      ensures Value() == DoRemove(old(Value()), key)
      ensures id == if key in old(pending) then Some(old(pending)[key]) else None
    {
      id := if key in pending then Some(pending[key]) else None;
      pending := pending - {key};
    }

    method Send(id: nat, msg: Msg)
      requires id in boxes && boxes[id] == []
      modifies this`boxes
      ensures Value() == DoSend(old(Value()), id, msg) && |boxes[id]| == 1
    {
      boxes := boxes[id := boxes[id] + [msg]];
    }

    // The locked part of fail: closes once and takes the whole table.
    method BeginFail(err: string) returns (grabbed: set<nat>)
      modifies this
      ensures Value() == DoFail(old(Value()), err)
      ensures grabbed == if old(closed) then {} else old(pending).Values
    {
      if closed { return {}; }
      closed, readErr := true, Some(err);
      grabbed := pending.Values;
      pending := map[];
      doneCloses := doneCloses + 1;
    }

    // The rest of fail: one error per request taken, none of which blocks.
    method FinishFail(grabbed: set<nat>, err: string)
      requires forall id :: id in grabbed ==> id in boxes && boxes[id] == []
      modifies this`boxes
      ensures boxes.Keys == old(boxes.Keys)
      ensures forall id :: id in boxes ==> boxes[id] == if id in grabbed then [Failure(err)] else old(boxes)[id]
    {
      var todo := grabbed;
      while todo != {}
        invariant todo <= grabbed && boxes.Keys == old(boxes.Keys)
        invariant forall id :: id in boxes ==>
                    boxes[id] == if id in grabbed && id !in todo then [Failure(err)] else old(boxes)[id]
        decreases todo
      {
        var id :| id in todo;
        Send(id, Failure(err));
        todo := todo - {id};
      }
    }

    method Close() returns (alreadyClosed: bool)
      modifies this
      ensures Value() == DoClose(old(Value())) && alreadyClosed == old(closed)
    {
      alreadyClosed := closed;
      closed := true;
      if !alreadyClosed { doneCloses := doneCloses + 1; }
    }
  }
}
