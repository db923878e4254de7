// The import run as a labelled transition system: producer, byte semaphore,
// bounded queue, workers, adaptive limiter, done channel and checkpoint task.
// Every step is one atomic effect of the concurrent code; any interleaving of
// enabled steps is a run.

module Pipeline {
  import opened Common
  import opened Checkpointing
  import opened Limiting

  // `work[i - 1]` is the report for batch `i`: its documents and body bytes.
  datatype Config = Config(
    work: seq<BatchDone>,
    workers: nat,
    cap: nat,
    adaptive: bool,
    checkpointed: bool)

  const U32_MAX: nat := 0xFFFF_FFFF
  const MAX_PERMITS: nat := 0x1FFF_FFFF_FFFF_FFFF

  // The permits a batch must hold, clamped so that an oversized batch can proceed.
  function PermitsFor(bytes: nat, cap: nat): nat { Min(Min(bytes, cap), U32_MAX) }

  function TotalPermits(c: Config): nat { Min(c.cap, MAX_PERMITS) }

  predicate InRange(c: Config, b: nat) { 1 <= b <= |c.work| }

  function BytesOf(c: Config, b: nat): nat { if InRange(c, b) then c.work[b - 1].bytes else 0 }

  function DocumentsOf(c: Config, b: nat): nat { if InRange(c, b) then c.work[b - 1].documents else 0 }

  function PermitsOf(c: Config, b: nat): nat { PermitsFor(BytesOf(c, b), c.cap) }

  datatype Producer =
    | Reading(produced: nat)               // polling the batcher for the next batch
    | Budgeting(batch: nat)                // waiting on the byte semaphore
    | Offering(batch: nat)                 // holding permits, waiting for queue room
    | Finished(failed: bool, produced: nat)

  datatype Phase =
    | Waiting                              // wants the receiver lock
    | Receiving                            // holds the lock, awaits a batch
    | Acquiring(batch: nat)                // about to create its `notified` future
    | Registered(batch: nat, seen: nat)    // future created at epoch `seen`, check pending
    | Parked(batch: nat, seen: nat)        // no slot was free; awaits the notification
    | Sending(batch: nat)                  // holds a slot, request in flight
    | Answered(batch: nat, ok: bool)       // the send returned, slot not yet released
    | Notifying(batch: nat, ok: bool)      // slot released, `notify_waiters` still to run
    | Reporting(batch: nat)                // recorded in the summary, report not yet sent
    | Releasing(batch: nat)                // report sent, permit still held
    | Exited(ok: bool)

  // What a run has recorded (or wasted): batches, documents, bytes.
  datatype Summary = Summary(batches: nat, documents: nat, bytes: nat)

  function Record(t: Summary, c: Config, b: nat): Summary {
    Summary(t.batches + 1, t.documents + DocumentsOf(c, b), t.bytes + BytesOf(c, b))
  }

  datatype State = State(
    producer: Producer,
    free: nat,                             // semaphore permits
    queue: seq<nat>,
    workers: seq<Phase>,
    lock: Option<nat>,                     // who holds the receiver lock
    inner: Inner,                          // the limiter
    epoch: nat,                            // notifications so far
    done: seq<nat>,                        // reports on their way to the checkpoint task
    tracker: Tracker,
    stored: Stored,
    taskOver: bool,
    resume: nat,                           // the mark this run loaded
    sent: set<nat>,                        // batches whose send began
    acked: set<nat>,                       // batches the server acknowledged
    failed: set<nat>,                      // batches whose send failed
    dropped: set<nat>,                     // batches dropped unsent
    summary: Summary,
    wasted: Summary,
    lastLanded: bool)                      // the last checkpoint write made has landed, or none was made

  function LimiterConfig(c: Config): AdaptiveConfig { NewConfig(c.adaptive, c.workers) }

  // A run begins by loading the checkpoint; an unreadable object stops it.
  predicate CanStart(c: Config, stored: Stored) {
    c.workers >= 1 && (c.checkpointed ==> Load(stored).Some?)
  }

  function Begin(c: Config, stored: Stored): State
    requires CanStart(c, stored)
  {
    var loaded := if c.checkpointed then Load(stored).value else ZERO;
    State(Reading(0), TotalPermits(c), [], seq(c.workers, _ => Waiting), None,
          Start(LimiterConfig(c)), 0, [], Tracker(loaded, map[], false), stored, !c.checkpointed,
          loaded.committedBatches, {}, {}, {}, {}, Summary(0, 0, 0), Summary(0, 0, 0), true)
  }

  // --- steps ---------------------------------------------------------------

  datatype Action =
    | Skip | Pull | InputFails | InputEnds | Permit | Enqueue | EnqueueFails | DropQueued
    | TakeLock(w: nat) | Dequeue(w: nat) | Leave(w: nat)
    | Register(w: nat) | Claim(w: nat) | Park(w: nat) | Wake(w: nat)
    | Accept(w: nat) | Refuse(w: nat)
    | RecordSuccess(w: nat, rtt: nat, quiet: bool) | RecordError(w: nat, status: Option<nat>)
    | Notify(w: nat) | Abort(w: nat) | Report(w: nat) | Release(w: nat)
    | Deliver(due: bool, write: Write) | Finish(write: Write)

  predicate IsWorker(s: State, w: nat) { w < |s.workers| }

  predicate AllExited(ws: seq<Phase>) { forall w :: 0 <= w < |ws| ==> ws[w].Exited? }

  predicate Enabled(c: Config, s: State, a: Action) {
    match a
    case Skip => s.producer.Reading? && s.producer.produced < |c.work| && s.producer.produced < s.resume
    case Pull => s.producer.Reading? && s.resume <= s.producer.produced < |c.work|
    case InputFails => s.producer.Reading?
    case InputEnds => s.producer.Reading? && s.producer.produced >= |c.work|
    case Permit => s.producer.Budgeting? && s.free >= PermitsOf(c, s.producer.batch)
    case Enqueue => s.producer.Offering? && |s.queue| < 2 * c.workers && !AllExited(s.workers)
    case EnqueueFails => s.producer.Offering? && AllExited(s.workers)
    case DropQueued => s.queue != [] && AllExited(s.workers)
    case TakeLock(w) => IsWorker(s, w) && s.workers[w].Waiting? && s.lock.None?
    case Dequeue(w) => IsWorker(s, w) && s.workers[w].Receiving? && s.queue != []
    case Leave(w) => IsWorker(s, w) && s.workers[w].Receiving? && s.queue == [] && s.producer.Finished?
    case Register(w) => IsWorker(s, w) && s.workers[w].Acquiring?
    case Claim(w) => IsWorker(s, w) && s.workers[w].Registered? && s.inner.inFlight < s.inner.limit
    case Park(w) => IsWorker(s, w) && s.workers[w].Registered? && s.inner.inFlight >= s.inner.limit
    case Wake(w) => IsWorker(s, w) && s.workers[w].Parked? && s.workers[w].seen < s.epoch
    case Accept(w) => IsWorker(s, w) && s.workers[w].Sending?
    case Refuse(w) => IsWorker(s, w) && s.workers[w].Sending?
    case RecordSuccess(w, _, _) => IsWorker(s, w) && s.workers[w].Answered? && s.workers[w].ok
    case RecordError(w, _) => IsWorker(s, w) && s.workers[w].Answered? && !s.workers[w].ok
    case Notify(w) => IsWorker(s, w) && s.workers[w].Notifying? && s.workers[w].ok
    case Abort(w) => IsWorker(s, w) && s.workers[w].Notifying? && !s.workers[w].ok
    case Report(w) => IsWorker(s, w) && s.workers[w].Reporting? && (c.checkpointed ==> |s.done| < 4 * c.workers)
    case Release(w) => IsWorker(s, w) && s.workers[w].Releasing?
    case Deliver(_, _) => s.done != [] && InRange(c, s.done[0]) && !s.taskOver
    case Finish(_) => s.done == [] && AllExited(s.workers) && !s.taskOver
  }

  function Move(s: State, w: nat, p: Phase): State
    requires IsWorker(s, w)
  {
    s.(workers := s.workers[w := p])
  }

  function Next(c: Config, s: State, a: Action): State
    requires Enabled(c, s, a)
  {
    match a
    case Skip => s.(producer := Reading(s.producer.produced + 1))
    case Pull => s.(producer := Budgeting(s.producer.produced + 1))
    case InputFails => s.(producer := Finished(true, s.producer.produced))
    case InputEnds => s.(producer := Finished(false, s.producer.produced))
    case Permit => s.(producer := Offering(s.producer.batch), free := s.free - PermitsOf(c, s.producer.batch))
    case Enqueue => s.(producer := Reading(s.producer.batch), queue := s.queue + [s.producer.batch])
    case EnqueueFails =>
      var b := s.producer.batch;
      s.(producer := Finished(false, b), free := s.free + PermitsOf(c, b),
         dropped := s.dropped + {b}, wasted := Record(s.wasted, c, b))
    case DropQueued =>
      // the last worker dropped the receiver, and with it everything queued
      var b := s.queue[0];
      s.(queue := s.queue[1..], free := s.free + PermitsOf(c, b),
         dropped := s.dropped + {b}, wasted := Record(s.wasted, c, b))
    case TakeLock(w) => Move(s, w, Receiving).(lock := Some(w))
    case Dequeue(w) => Move(s, w, Acquiring(s.queue[0])).(queue := s.queue[1..], lock := None)
    case Leave(w) => Move(s, w, Exited(true)).(lock := None)
    case Register(w) => Move(s, w, Registered(s.workers[w].batch, s.epoch))
    case Claim(w) =>
      var b := s.workers[w].batch;
      Move(s, w, Sending(b)).(inner := s.inner.(inFlight := s.inner.inFlight + 1), sent := s.sent + {b})
    case Park(w) => Move(s, w, Parked(s.workers[w].batch, s.workers[w].seen))
    case Wake(w) => Move(s, w, Acquiring(s.workers[w].batch))
    case Accept(w) =>
      var b := s.workers[w].batch;
      Move(s, w, Answered(b, true)).(acked := s.acked + {b})
    case Refuse(w) =>
      var b := s.workers[w].batch;
      Move(s, w, Answered(b, false)).(failed := s.failed + {b})
    case RecordSuccess(w, rtt, quiet) =>
      var config := LimiterConfig(c);
      Move(s, w, Notifying(s.workers[w].batch, true)).(
        inner := OnSuccess(config, s.inner, rtt, quiet),
        epoch := s.epoch + if !Slow(config, rtt) && Recovers(config, s.inner, quiet) then 1 else 0)
    case RecordError(w, status) =>
      Move(s, w, Notifying(s.workers[w].batch, false)).(inner := OnError(LimiterConfig(c), s.inner, status))
    case Notify(w) =>
      var b := s.workers[w].batch;
      Move(s, w, Reporting(b)).(epoch := s.epoch + 1, summary := Record(s.summary, c, b))
    case Abort(w) =>
      // the worker returns its error, dropping its batch and permit
      var b := s.workers[w].batch;
      Move(s, w, Exited(false)).(epoch := s.epoch + 1, free := s.free + PermitsOf(c, b), wasted := Record(s.wasted, c, b))
    case Report(w) =>
      var b := s.workers[w].batch;
      var m := Move(s, w, Releasing(b));
      if c.checkpointed then m.(done := s.done + [b]) else m
    case Release(w) => Move(s, w, Waiting).(free := s.free + PermitsOf(c, s.workers[w].batch))
    case Deliver(due, write) =>
      var (tracker, stored) := OnMessage(s.tracker, s.stored, c.work[s.done[0] - 1], due, write);
      s.(tracker := tracker, stored := stored, done := s.done[1..],
         lastLanded := if Writes(s.tracker, c.work[s.done[0] - 1], due) then write.Lands? else s.lastLanded)
    case Finish(write) =>
      s.(stored := OnClose(s.tracker, s.stored, write), taskOver := true,
         lastLanded := if s.tracker.dirty then write.Lands? else s.lastLanded)
  }

  predicate Final(s: State) { s.producer.Finished? && AllExited(s.workers) && s.queue == [] && s.taskOver }

  // The run returns Ok exactly when no stage reported an error.
  predicate Succeeded(s: State) {
    Final(s) && !s.producer.failed && forall w :: 0 <= w < |s.workers| ==> s.workers[w] == Exited(true)
  }

  // --- where things are, as sums ------------------------------------------------

  predicate Carries(p: Phase) {
    p.Acquiring? || p.Registered? || p.Parked? || p.Sending? || p.Answered? || p.Notifying? || p.Reporting? || p.Releasing?
  }

  predicate BeforeSend(p: Phase) { p.Acquiring? || p.Registered? || p.Parked? }

  predicate Acknowledged(p: Phase) { ((p.Answered? || p.Notifying?) && p.ok) || p.Reporting? }

  predicate Unrecorded(p: Phase) { Carries(p) && !p.Reporting? && !p.Releasing? }

  datatype Measure = CountBatches | CountDocuments | CountBytes

  function Of(t: Summary, m: Measure): nat {
    match m case CountBatches => t.batches case CountDocuments => t.documents case CountBytes => t.bytes
  }

  function Weight(c: Config, m: Measure, b: nat): nat {
    match m case CountBatches => 1 case CountDocuments => DocumentsOf(c, b) case CountBytes => BytesOf(c, b)
  }

  // What can be counted over the phases of the workers.
  datatype Gauge =
    | Before(i: nat)        // holds batch `i`, whose send has not begun
    | During(i: nat)        // is sending batch `i`
    | Unreported(i: nat)    // holds the acknowledgement of batch `i`
    | Slots                 // holds a limiter slot
    | Held                  // permits held
    | Open(m: Measure)      // work not yet recorded in a summary
    | Effort                // steps still to take, not counting retries for a slot
    | Restless(epoch: nat)  // steps to take before parking at `epoch`

  function Value(c: Config, g: Gauge, p: Phase): nat {
    match g
    case Before(i) => Bit(BeforeSend(p) && p.batch == i)
    case During(i) => Bit(p.Sending? && p.batch == i)
    case Unreported(i) => Bit(Acknowledged(p) && p.batch == i)
    case Slots => Bit(p.Sending? || p.Answered?)
    case Held => if Carries(p) then PermitsOf(c, p.batch) else 0
    case Open(m) => if Unrecorded(p) then Weight(c, m, p.batch) else 0
    case Effort => EffortOf(p)
    case Restless(epoch) => RestlessAt(epoch, p)
  }

  function EffortOf(p: Phase): nat {
    match p
    case Waiting => 2
    case Receiving => 1
    case Acquiring(_) => 10
    case Registered(_, _) => 10
    case Parked(_, _) => 10
    case Sending(_) => 9
    case Answered(_, _) => 8
    case Notifying(_, _) => 7
    case Reporting(_) => 6
    case Releasing(_) => 3
    case Exited(_) => 0
  }

  function RestlessAt(epoch: nat, p: Phase): nat {
    match p
    case Acquiring(_) => 2
    case Registered(_, seen) => if seen == epoch then 1 else 4
    case Parked(_, seen) => if seen == epoch then 0 else 3
    case _ => 0
  }

  function Level(c: Config, g: Gauge, ws: seq<Phase>): nat {
    if ws == [] then 0 else Value(c, g, ws[0]) + Level(c, g, ws[1..])
  }

  // A queued batch counts like one just taken from the queue.
  function Queued(c: Config, g: Gauge, bs: seq<nat>): nat {
    if bs == [] then 0 else Value(c, g, Acquiring(bs[0])) + Queued(c, g, bs[1..])
  }

  function Times(bs: seq<nat>, i: nat): nat {
    if bs == [] then 0 else Bit(bs[0] == i) + Times(bs[1..], i)
  }

  // The batch the producer has in hand; it holds permits only once budgeted.
  function InHand(c: Config, g: Gauge, p: Producer): nat {
    match p
    case Offering(b) => Value(c, g, Acquiring(b))
    case Budgeting(b) => if g.Held? then 0 else Value(c, g, Acquiring(b))
    case _ => 0
  }

  // What producer, queue and workers hold together.
  function OnBoard(c: Config, g: Gauge, s: State): nat {
    InHand(c, g, s.producer) + Queued(c, g, s.queue) + Level(c, g, s.workers)
  }

  function Total(c: Config, m: Measure, from: nat, to: nat): nat {
    if to <= from then 0 else Total(c, m, from, to - 1) + Weight(c, m, to)
  }
}
