/**
  The request/reply protocol between `Transmit` and `cardCommunicationRoutine` (internal/keycard_context_v2.go):
  any number of callers, a queue of ten requests, one worker and a one-place reply channel for each request.
 */
module Transmits {
  import opened Wrappers
  import Hex

  const QUEUE_CAPACITY := 10

  type CallId = nat
  type Apdu = Hex.bytes

  /** What the card answered: a response, or a reader error. */
  type Answer = Result<Hex.bytes, string>

  datatype Call =
    | Sending                     // blocked on, or about to send on, the request channel
    | Waiting                     // waiting for the reply or for the context to be done
    | Returned(answer: Answer)
    | Abandoned                   // returned with "transmit context done"

  datatype Worker =
    | Receiving
    | Holding(id: CallId)                      // a request was taken and not yet transmitted
    | Delivering(to: CallId, answer: Answer)
    | Stopped

  /** One exchange with the card. */
  datatype Exchange = Exchange(id: CallId, apdu: Apdu, answer: Answer)

  datatype State = State(
    calls: map<CallId, Call>,
    apdus: map<CallId, Apdu>,
    queue: seq<CallId>,
    replies: map<CallId, Answer>,    // reply channels that hold a reply
    worker: Worker,
    done: bool,
    enqueued: seq<CallId>,           // every request ever accepted by the queue, in order
    exchanges: seq<Exchange>)        // everything the card has seen, in order

  const INITIAL := State(map[], map[], [], map[], Receiving, false, [], [])

  datatype Step =
    | Begin(id: CallId, apdu: Apdu)
    | Enqueue(id: CallId)
    | Take
    | Exchanged(answer: Answer)
    | Deliver
    | Receive(id: CallId)
    | Abandon(id: CallId)
    | Cancel
    | StopWorker

  predicate Enabled(s: State, step: Step) {
    match step
    case Begin(id, _) => id !in s.calls
    case Enqueue(id) => id in s.calls && s.calls[id] == Sending && |s.queue| < QUEUE_CAPACITY
    case Take => s.worker == Receiving && s.queue != []
    case Exchanged(_) => s.worker.Holding? && s.worker.id in s.apdus
    case Deliver => s.worker.Delivering? && s.worker.to !in s.replies
    case Receive(id) => id in s.calls && s.calls[id] == Waiting && id in s.replies
    case Abandon(id) => id in s.calls && s.calls[id] == Waiting && s.done
    case Cancel => true
    case StopWorker => s.worker == Receiving && s.done
  }

  function Next(s: State, step: Step): State
    requires Enabled(s, step)
  {
    match step
    case Begin(id, apdu) => s.(calls := s.calls[id := Sending], apdus := s.apdus[id := apdu])
    case Enqueue(id) => s.(calls := s.calls[id := Waiting], queue := s.queue + [id], enqueued := s.enqueued + [id])
    case Take => s.(worker := Holding(s.queue[0]), queue := s.queue[1..])
    case Exchanged(answer) =>
      var id := s.worker.id;
      s.(worker := Delivering(id, answer), exchanges := s.exchanges + [Exchange(id, s.apdus[id], answer)])
    case Deliver => s.(worker := Receiving, replies := s.replies[s.worker.to := s.worker.answer])
    case Receive(id) => s.(calls := s.calls[id := Returned(s.replies[id])], replies := s.replies - {id})
    case Abandon(id) => s.(calls := s.calls[id := Abandoned])
    case Cancel => s.(done := true)
    case StopWorker => s.(worker := Stopped)
  }

  /** The state after a schedule of steps, if every step is possible when its turn comes. */
  function Run(s: State, schedule: seq<Step>): Option<State>
    decreases |schedule|
  {
    if schedule == [] then Some(s)
    else if Enabled(s, schedule[0]) then Run(Next(s, schedule[0]), schedule[1..])
    else None
  }

  // ---------------------------------------------------------------------------------------------
  // Invariant
  // ---------------------------------------------------------------------------------------------

  function Seen(s: State): seq<CallId> {
    seq(|s.exchanges|, i requires 0 <= i < |s.exchanges| => s.exchanges[i].id)
  }

  function InHand(s: State): seq<CallId> {
    if s.worker.Holding? then [s.worker.id] else []
  }

  predicate Distinct(ids: seq<CallId>) {
    forall i, j :: 0 <= i < j < |ids| ==> ids[i] != ids[j]
  }

  /** The card has answered this call, with this answer. */
  ghost predicate Answered(s: State, id: CallId, answer: Answer) {
    exists i :: 0 <= i < |s.exchanges| && s.exchanges[i].id == id && s.exchanges[i].answer == answer
  }

  ghost predicate OrderKept(s: State) {
    && s.enqueued == Seen(s) + InHand(s) + s.queue
    && Distinct(s.enqueued)
    && |s.queue| <= QUEUE_CAPACITY
  }

  ghost predicate CallsTracked(s: State) {
    && s.apdus.Keys == s.calls.Keys
    && (forall id :: id in s.enqueued ==> id in s.calls)
    && (forall id :: id in s.calls && s.calls[id] == Sending ==> id !in s.enqueued)
    && (forall i :: 0 <= i < |s.exchanges| ==>
          s.exchanges[i].id in s.apdus && s.exchanges[i].apdu == s.apdus[s.exchanges[i].id])
  }

  ghost predicate RepliesTrue(s: State) {
    && (forall id :: id in s.replies ==> Answered(s, id, s.replies[id]))
    && (forall id :: id in s.calls && s.calls[id].Returned? ==> Answered(s, id, s.calls[id].answer))
  }

  /** The worker is delivering the last answer the card gave, and nobody has had it yet. */
  ghost predicate DeliveryPending(s: State) {
    s.worker.Delivering? ==>
      && s.exchanges != [] && s.exchanges[|s.exchanges| - 1].id == s.worker.to
      && s.exchanges[|s.exchanges| - 1].answer == s.worker.answer
      && s.worker.to !in s.replies
      && s.worker.to in s.calls && !s.calls[s.worker.to].Returned?
  }

  ghost predicate Inv(s: State) {
    OrderKept(s) && CallsTracked(s) && RepliesTrue(s) && DeliveryPending(s)
  }

  lemma OrderStep(s: State, step: Step)
    requires Inv(s) && Enabled(s, step)
    ensures OrderKept(Next(s, step))
  {
  }

  lemma CallsStep(s: State, step: Step)
    requires Inv(s) && Enabled(s, step)
    ensures CallsTracked(Next(s, step))
  {
    var t := Next(s, step);
    if step.Exchanged? {
      assert s.worker.id in InHand(s) && s.worker.id in s.enqueued;
    }
  }

  /** What was answered stays answered. */
  lemma AnsweredStep(s: State, step: Step, id: CallId, answer: Answer)
    requires Enabled(s, step) && Answered(s, id, answer)
    ensures Answered(Next(s, step), id, answer)
  {
    var i :| 0 <= i < |s.exchanges| && s.exchanges[i].id == id && s.exchanges[i].answer == answer;
    assert Next(s, step).exchanges[i] == s.exchanges[i];
  }

  lemma RepliesStep(s: State, step: Step)
    requires Inv(s) && Enabled(s, step)
    ensures RepliesTrue(Next(s, step))
  {
    var t := Next(s, step);
    forall id | id in t.replies ensures Answered(t, id, t.replies[id]) {
      if step.Deliver? && id == s.worker.to {
        assert t.exchanges[|t.exchanges| - 1].id == id;
      } else {
        AnsweredStep(s, step, id, s.replies[id]);
      }
    }
    forall id | id in t.calls && t.calls[id].Returned? ensures Answered(t, id, t.calls[id].answer) {
      AnsweredStep(s, step, id, t.calls[id].answer);
    }
  }

  /** A request that is still in the worker's hand has not been answered. */
  lemma HeldIsUnanswered(s: State)
    requires OrderKept(s) && s.worker.Holding?
    ensures forall i :: 0 <= i < |s.exchanges| ==> s.exchanges[i].id != s.worker.id
  {
    var n := |s.exchanges|;
    assert (Seen(s) + InHand(s) + s.queue)[n] == s.worker.id;
    forall i | 0 <= i < n ensures s.exchanges[i].id != s.worker.id {
      assert (Seen(s) + InHand(s) + s.queue)[i] == s.exchanges[i].id;
      assert s.enqueued[i] != s.enqueued[n];
    }
  }

  /** So its reply channel is empty when the answer is to be delivered. */
  lemma DeliveryStep(s: State, step: Step)
    requires Inv(s) && Enabled(s, step)
    ensures DeliveryPending(Next(s, step))
  {
    if step.Exchanged? {
      HeldIsUnanswered(s);
      assert s.worker.id in InHand(s) && s.worker.id in s.enqueued;
    }
  }

  lemma InvStep(s: State, step: Step)
    requires Inv(s) && Enabled(s, step)
    ensures Inv(Next(s, step))
  {
    OrderStep(s, step);
    CallsStep(s, step);
    RepliesStep(s, step);
    DeliveryStep(s, step);
  }

  lemma {:induction false} InvRun(s: State, schedule: seq<Step>)
    requires Inv(s) && Run(s, schedule).Some?
    ensures Inv(Run(s, schedule).value)
    decreases |schedule|
  {
    if schedule == [] {
    } else {
      InvStep(s, schedule[0]);
      InvRun(Next(s, schedule[0]), schedule[1..]);
    }
  }

  // ---------------------------------------------------------------------------------------------
  // What callers can rely on, under every schedule
  // ---------------------------------------------------------------------------------------------

  /** A call that returns a reply returns the card's answer to its own APDU, the only one the card gave to it. */
  lemma RepliesBelongToTheirCalls(schedule: seq<Step>, id: CallId)
    requires Run(INITIAL, schedule).Some?
    requires var s := Run(INITIAL, schedule).value; id in s.calls && s.calls[id].Returned?
    ensures var s := Run(INITIAL, schedule).value;
      id in s.apdus &&
      exists i :: 0 <= i < |s.exchanges| && s.exchanges[i] == Exchange(id, s.apdus[id], s.calls[id].answer) &&
        forall j :: 0 <= j < |s.exchanges| && s.exchanges[j].id == id ==> j == i
  {
    InvRun(INITIAL, schedule);
    var s := Run(INITIAL, schedule).value;
    var i :| 0 <= i < |s.exchanges| && s.exchanges[i].id == id && s.exchanges[i].answer == s.calls[id].answer;
    assert s.exchanges[i] == Exchange(id, s.apdus[id], s.calls[id].answer);
    forall j | 0 <= j < |s.exchanges| && s.exchanges[j].id == id ensures j == i {
      assert s.enqueued[i] == Seen(s)[i] && s.enqueued[j] == Seen(s)[j];
    }
  }

  /** The card sees requests in the order in which they were accepted, each at most once. */
  lemma CardSeesRequestsInOrder(schedule: seq<Step>)
    requires Run(INITIAL, schedule).Some?
    ensures var s := Run(INITIAL, schedule).value; Seen(s) <= s.enqueued && Distinct(Seen(s))
  {
    InvRun(INITIAL, schedule);
    var s := Run(INITIAL, schedule).value;
    assert forall i :: 0 <= i < |Seen(s)| ==> s.enqueued[i] == Seen(s)[i];
  }

  /** The worker never blocks on a reply, whether or not the caller is still there. */
  lemma WorkerNeverBlocks(schedule: seq<Step>)
    requires Run(INITIAL, schedule).Some?
    ensures var s := Run(INITIAL, schedule).value; s.worker.Delivering? ==> Enabled(s, Deliver)
    ensures var s := Run(INITIAL, schedule).value; s.worker.Holding? ==> forall a :: Enabled(s, Exchanged(a))
  {
    InvRun(INITIAL, schedule);
    var s := Run(INITIAL, schedule).value;
    if s.worker.Holding? {
      assert s.worker.id in InHand(s) && s.worker.id in s.enqueued;
    }
  }

  /**
    Cancellation reaches a caller that waits for its reply, but not one that still waits for room in the queue:
    once the worker has stopped, such a caller gets on exactly when the queue has room.
   */
  lemma {:induction false} StoppedWorkerStrandsSenders(s: State, schedule: seq<Step>, id: CallId)
    requires s.worker == Stopped && id in s.calls && s.calls[id] == Sending
    requires |s.queue| >= QUEUE_CAPACITY && Run(s, schedule).Some?
    ensures var t := Run(s, schedule).value; id in t.calls && t.calls[id] == Sending
    decreases |schedule|
  {
    if schedule == [] {
    } else {
      StoppedWorkerStrandsSenders(Next(s, schedule[0]), schedule[1..], id);
    }
  }

  /** Under this schedule the call gets past the queue. */
  predicate GetsOn(s: State, schedule: seq<Step>, id: CallId) {
    var t := Run(s, schedule);
    t.Some? && id in t.value.calls && t.value.calls[id] != Sending
  }

  lemma SenderGetsOnIff(s: State, id: CallId)
    requires s.worker == Stopped && id in s.calls && s.calls[id] == Sending
    ensures (exists schedule :: GetsOn(s, schedule, id)) <==> |s.queue| < QUEUE_CAPACITY
  {
    if |s.queue| < QUEUE_CAPACITY {
      var schedule := [Enqueue(id)];
      assert schedule[1..] == [];
      assert Run(s, schedule) == Some(Next(s, Enqueue(id)));
      assert GetsOn(s, schedule, id);
    } else {
      forall schedule ensures !GetsOn(s, schedule, id) {
        if Run(s, schedule).Some? {
          StoppedWorkerStrandsSenders(s, schedule, id);
        }
      }
    }
  }
}
