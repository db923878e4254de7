// What every step of the import run keeps.

module PipelineSafety {
  import opened Common
  import opened Checkpointing
  import opened Limiting
  import opened Pipeline

  predicate WellFormed(c: Config) {
    c.workers >= 1 && forall k :: 0 <= k < |c.work| ==> c.work[k].index == k + 1
  }

  function Produced(p: Producer): nat {
    match p
    case Reading(produced) => produced
    case Budgeting(batch) => batch
    case Offering(batch) => batch
    case Finished(_, produced) => produced
  }

  // --- conservation laws -----------------------------------------------------

  // Where a counted thing is once it has left producer, queue and workers.
  function Beyond(s: State, g: Gauge): nat {
    match g
    case Before(i) => Bit(i in s.dropped) + Bit(i in s.sent)
    case During(i) => Bit(i in s.acked) + Bit(i in s.failed)
    case Unreported(i) => Times(s.done, i) + Bit(s.resume < i && Accounted(s.tracker, i))
    case Held => s.free
    case Open(m) => Of(s.summary, m) + Of(s.wasted, m)
    case _ => 0
  }

  // How much of it there has been in all.
  function Entered(c: Config, s: State, g: Gauge): nat {
    match g
    case Before(i) => Bit(s.resume < i <= Produced(s.producer))
    case During(i) => Bit(i in s.sent)
    case Unreported(i) => Bit(i in s.acked)
    case Slots => s.inner.inFlight
    case Held => TotalPermits(c)
    case Open(m) => Total(c, m, s.resume, Produced(s.producer))
    case _ => 0
  }

  // Nothing is lost and nothing is counted twice. For `Before(i)`: a batch read
  // past the resume mark is in exactly one place until its one send begins. For
  // `During(i)`: a send that began is in flight, acknowledged or failed, once.
  // For `Unreported(i)`: an acknowledgement is on its way to the tracker or there,
  // once. `Slots`: slots held equal `in_flight`. `Held`: permits held and free ones
  // are the cap. `Open(m)`: recorded, wasted and open work is all the work read.
  predicate Conserved(c: Config, s: State, g: Gauge) {
    OnBoard(c, g, s) + Beyond(s, g) == Entered(c, s, g)
  }

  predicate Law(c: Config, g: Gauge) {
    g.Before? || g.During? || (g.Unreported? && c.checkpointed) || g.Slots? || g.Held? || g.Open?
  }

  ghost predicate Laws(c: Config, s: State) {
    forall g {:trigger Conserved(c, s, g)} :: Law(c, g) ==> Conserved(c, s, g)
  }

  // --- the other invariants -----------------------------------------------------

  predicate Shape(c: Config, s: State) {
    && |s.workers| == c.workers
    && |s.queue| <= 2 * c.workers && |s.done| <= 4 * c.workers
    && Produced(s.producer) <= |c.work|
    && s.resume <= |c.work|
    && (!c.checkpointed ==> s.done == [] && s.resume == 0)
    && (s.producer.Budgeting? || s.producer.Offering? ==> s.resume < s.producer.batch)
  }

  ghost predicate RangesOk(c: Config, s: State) {
    && (forall k :: 0 <= k < |s.queue| ==> InRange(c, s.queue[k]))
    && (forall w :: 0 <= w < |s.workers| && Carries(s.workers[w]) ==> InRange(c, s.workers[w].batch))
  }

  ghost predicate LockOk(s: State) {
    && (forall w :: 0 <= w < |s.workers| ==> (s.workers[w].Receiving? <==> s.lock == Some(w)))
    && (s.lock.Some? ==> s.lock.value < |s.workers|)
  }

  predicate SomeNotifier(ws: seq<Phase>) { exists v :: 0 <= v < |ws| && ws[v].Notifying? }

  // No lost wake-up: a waiter parked at the current epoch while a slot is free is
  // about to be woken by somebody who has released and not yet notified.
  ghost predicate NoLostWakeup(s: State) {
    && (forall w :: 0 <= w < |s.workers| && (s.workers[w].Registered? || s.workers[w].Parked?) ==>
          s.workers[w].seen <= s.epoch)
    && (forall w :: 0 <= w < |s.workers| && s.workers[w].Parked? && s.workers[w].seen == s.epoch ==>
          s.inner.inFlight >= s.inner.limit || SomeNotifier(s.workers))
  }

  ghost predicate TrackerOk(c: Config, s: State) {
    Sound(c.work, s.tracker) && Settled(s.tracker) && s.resume <= Mark(s.tracker)
  }

  // The stored object never claims more than the tracker knows and its totals are
  // right. While something is unwritten it is behind the tracker; otherwise it is up
  // to date exactly when the last write made has landed.
  ghost predicate StoredOk(c: Config, s: State) {
    c.checkpointed ==>
      && (s.stored.Saved? ==> Honest(c.work, s.stored.checkpoint) && s.stored.checkpoint.committedBatches <= Mark(s.tracker))
      && (s.tracker.dirty && !s.taskOver ==> Behind(s))
      && (s.taskOver || !s.tracker.dirty ==> (s.lastLanded <==> Load(s.stored) == Some(s.tracker.state)))
  }

  predicate Behind(s: State) { Load(s.stored).Some? ==> Load(s.stored).value.committedBatches < Mark(s.tracker) }

  predicate AnyFailed(ws: seq<Phase>) { exists w :: 0 <= w < |ws| && ws[w] == Exited(false) }

  predicate Failing(ws: seq<Phase>, i: nat) {
    exists w :: 0 <= w < |ws| && (ws[w].Answered? || ws[w].Notifying?) && !ws[w].ok && ws[w].batch == i
  }

  const NOTHING := Summary(0, 0, 0)

  // Every failed send has a worker to blame for it, and every failed worker a send.
  ghost predicate Blamed(s: State) {
    && (forall i :: i in s.failed ==> AnyFailed(s.workers) || Failing(s.workers, i))
    && (forall w :: 0 <= w < |s.workers| && (s.workers[w].Answered? || s.workers[w].Notifying?) && !s.workers[w].ok ==>
          s.workers[w].batch in s.failed)
    && (AnyFailed(s.workers) ==> s.failed != {})
  }

  // Who has gone, and why.
  ghost predicate Endings(c: Config, s: State) {
    && (forall w :: 0 <= w < |s.workers| && s.workers[w] == Exited(true) ==> s.producer.Finished? && s.queue == [])
    && (s.producer.Finished? && !s.producer.failed ==> s.producer.produced == |c.work| || AnyFailed(s.workers))
    && (s.dropped != {} || s.wasted != NOTHING ==> AnyFailed(s.workers))
    && (s.taskOver && c.checkpointed ==> AllExited(s.workers) && s.done == [])
  }

  ghost predicate Inv(c: Config, s: State) {
    && Shape(c, s) && RangesOk(c, s) && LockOk(s) && Laws(c, s)
    && Bounded(LimiterConfig(c), s.inner) && NoLostWakeup(s)
    && TrackerOk(c, s) && StoredOk(c, s) && Blamed(s) && Endings(c, s)
  }

  // --- counting facts --------------------------------------------------------

  lemma {:induction false} LevelConcat(c: Config, g: Gauge, a: seq<Phase>, b: seq<Phase>)
    ensures Level(c, g, a + b) == Level(c, g, a) + Level(c, g, b)
  {
    if a == [] {
      assert a + b == b;
    } else {
      assert (a + b)[1..] == a[1..] + b;
      LevelConcat(c, g, a[1..], b);
    }
  }

  lemma LevelSplit(c: Config, g: Gauge, ws: seq<Phase>, w: nat)
    requires w < |ws|
    ensures Level(c, g, ws) == Level(c, g, ws[..w]) + Value(c, g, ws[w]) + Level(c, g, ws[w + 1..])
  {
    assert ws == ws[..w] + ws[w..];
    LevelConcat(c, g, ws[..w], ws[w..]);
    assert ws[w..][1..] == ws[w + 1..];
  }

  // One worker's move changes every level by the difference at that worker.
  lemma LevelUpdate(c: Config, g: Gauge, ws: seq<Phase>, w: nat, p: Phase)
    requires w < |ws|
    ensures Level(c, g, ws[w := p]) == Level(c, g, ws) - Value(c, g, ws[w]) + Value(c, g, p)
  {
    LevelSplit(c, g, ws, w);
    LevelSplit(c, g, ws[w := p], w);
    assert ws[w := p][..w] == ws[..w];
    assert ws[w := p][w + 1..] == ws[w + 1..];
  }

  lemma {:induction false} LevelZero(c: Config, g: Gauge, ws: seq<Phase>)
    requires forall w :: 0 <= w < |ws| ==> Value(c, g, ws[w]) == 0
    ensures Level(c, g, ws) == 0
  {
    if ws != [] { LevelZero(c, g, ws[1..]); }
  }

  lemma {:induction false} QueuedSnoc(c: Config, g: Gauge, bs: seq<nat>, b: nat)
    ensures Queued(c, g, bs + [b]) == Queued(c, g, bs) + Value(c, g, Acquiring(b))
  {
    if bs == [] {
      assert bs + [b] == [b] && [b][1..] == [];
    } else {
      assert (bs + [b])[1..] == bs[1..] + [b];
      QueuedSnoc(c, g, bs[1..], b);
    }
  }

  lemma {:induction false} TimesSnoc(bs: seq<nat>, b: nat, i: nat)
    ensures Times(bs + [b], i) == Times(bs, i) + Bit(b == i)
  {
    if bs == [] {
      assert bs + [b] == [b] && [b][1..] == [];
    } else {
      assert (bs + [b])[1..] == bs[1..] + [b];
      TimesSnoc(bs[1..], b, i);
    }
  }

  // --- at the start ------------------------------------------------------------

  lemma BeginInv(c: Config, stored: Stored)
    requires WellFormed(c) && CanStart(c, stored)
    requires stored.Saved? ==> Honest(c.work, stored.checkpoint)
    ensures Inv(c, Begin(c, stored))
  {
    var s := Begin(c, stored);
    StartBounded(LimiterConfig(c));
    forall g | Law(c, g) ensures Level(c, g, s.workers) == 0 { LevelZero(c, g, s.workers); }
  }

  // --- every step conserves ---------------------------------------------------------

  // A batch in hand, queued or held by a worker has not been sent or dropped yet.
  lemma NotYetSent(c: Config, s: State, b: nat)
    requires Laws(c, s) && OnBoard(c, Before(b), s) >= 1
    ensures b !in s.sent && b !in s.dropped && s.resume < b <= Produced(s.producer) && OnBoard(c, Before(b), s) == 1
  {
    assert Conserved(c, s, Before(b));
  }

  // No batch is sent twice in a run, and none at or below the resume mark is sent.
  lemma SentOnce(c: Config, s: State, w: nat)
    requires Laws(c, s) && Enabled(c, s, Claim(w))
    ensures var b := s.workers[w].batch; b !in s.sent && s.resume < b <= Produced(s.producer)
  {
    LevelSplit(c, Before(s.workers[w].batch), s.workers, w);
    NotYetSent(c, s, s.workers[w].batch);
  }

  lemma AnsweredOnce(c: Config, s: State, w: nat)
    requires Laws(c, s) && w < |s.workers| && s.workers[w].Sending?
    ensures var b := s.workers[w].batch; b in s.sent && b !in s.acked && b !in s.failed
  {
    var b := s.workers[w].batch;
    LevelSplit(c, During(b), s.workers, w);
    assert Conserved(c, s, During(b));
  }

  // A worker's move keeps a law when what the worker no longer holds has gone
  // beyond, and what it newly holds has been entered.
  lemma Shift(c: Config, s: State, s': State, w: nat, p: Phase, g: Gauge)
    requires Conserved(c, s, g) && w < |s.workers|
    requires s'.workers == s.workers[w := p] && s'.queue == s.queue && s'.producer == s.producer
    requires Value(c, g, p) + Beyond(s', g) + Entered(c, s, g) == Value(c, g, s.workers[w]) + Beyond(s, g) + Entered(c, s', g)
    ensures Conserved(c, s', g)
  {
    LevelUpdate(c, g, s.workers, w, p);
  }

  lemma ConservedReading(c: Config, s: State, a: Action, g: Gauge)
    requires a.Skip? || a.Pull?
    requires Conserved(c, s, g) && Law(c, g) && Enabled(c, s, a)
    ensures Conserved(c, Next(c, s, a), g)
  {
  }

  lemma ConservedEnding(c: Config, s: State, a: Action, g: Gauge)
    requires a.InputFails? || a.InputEnds? || a.Finish?
    requires Conserved(c, s, g) && Law(c, g) && Enabled(c, s, a)
    ensures Conserved(c, Next(c, s, a), g)
  {
  }

  lemma ConservedPermit(c: Config, s: State, g: Gauge)
    requires Conserved(c, s, g) && Law(c, g) && Enabled(c, s, Permit)
    ensures Conserved(c, Next(c, s, Permit), g)
  {
  }

  lemma ConservedEnqueue(c: Config, s: State, g: Gauge)
    requires Conserved(c, s, g) && Law(c, g) && Enabled(c, s, Enqueue)
    ensures Conserved(c, Next(c, s, Enqueue), g)
  {
    QueuedSnoc(c, g, s.queue, s.producer.batch);
  }

  lemma ConservedEnqueueFails(c: Config, s: State, g: Gauge)
    requires Conserved(c, s, g) && Law(c, g) && Enabled(c, s, EnqueueFails) && s.producer.batch !in s.dropped
    ensures Conserved(c, Next(c, s, EnqueueFails), g)
  {
  }

  lemma ConservedDropQueued(c: Config, s: State, g: Gauge)
    requires Conserved(c, s, g) && Law(c, g) && Enabled(c, s, DropQueued) && s.queue[0] !in s.dropped
    ensures Conserved(c, Next(c, s, DropQueued), g)
  {
  }

  lemma ConservedTakeLock(c: Config, s: State, w: nat, g: Gauge)
    requires Conserved(c, s, g) && Law(c, g) && Enabled(c, s, TakeLock(w))
    ensures Conserved(c, Next(c, s, TakeLock(w)), g)
  {
    Shift(c, s, Next(c, s, TakeLock(w)), w, Receiving, g);
  }

  lemma ConservedLeave(c: Config, s: State, w: nat, g: Gauge)
    requires Conserved(c, s, g) && Law(c, g) && Enabled(c, s, Leave(w))
    ensures Conserved(c, Next(c, s, Leave(w)), g)
  {
    Shift(c, s, Next(c, s, Leave(w)), w, Exited(true), g);
  }

  lemma ConservedRegister(c: Config, s: State, w: nat, g: Gauge)
    requires Conserved(c, s, g) && Law(c, g) && Enabled(c, s, Register(w))
    ensures Conserved(c, Next(c, s, Register(w)), g)
  {
    Shift(c, s, Next(c, s, Register(w)), w, Registered(s.workers[w].batch, s.epoch), g);
  }

  lemma ConservedPark(c: Config, s: State, w: nat, g: Gauge)
    requires Conserved(c, s, g) && Law(c, g) && Enabled(c, s, Park(w))
    ensures Conserved(c, Next(c, s, Park(w)), g)
  {
    Shift(c, s, Next(c, s, Park(w)), w, Parked(s.workers[w].batch, s.workers[w].seen), g);
  }

  lemma ConservedWake(c: Config, s: State, w: nat, g: Gauge)
    requires Conserved(c, s, g) && Law(c, g) && Enabled(c, s, Wake(w))
    ensures Conserved(c, Next(c, s, Wake(w)), g)
  {
    Shift(c, s, Next(c, s, Wake(w)), w, Acquiring(s.workers[w].batch), g);
  }

  lemma ConservedDequeue(c: Config, s: State, w: nat, g: Gauge)
    requires Conserved(c, s, g) && Law(c, g) && Enabled(c, s, Dequeue(w))
    ensures Conserved(c, Next(c, s, Dequeue(w)), g)
  {
    ConservedTaken(c, s, Next(c, s, Dequeue(w)), w, g);
  }

  lemma ConservedTaken(c: Config, s: State, s': State, w: nat, g: Gauge)
    requires Conserved(c, s, g) && w < |s.workers| && s.workers[w].Receiving? && s.queue != []
    requires s' == s.(workers := s.workers[w := Acquiring(s.queue[0])], queue := s.queue[1..], lock := None)
    requires Law(c, g)
    ensures Conserved(c, s', g)
  {
    LevelUpdate(c, g, s.workers, w, Acquiring(s.queue[0]));
  }

  lemma ConservedClaim(c: Config, s: State, w: nat, g: Gauge)
    requires Conserved(c, s, g) && Law(c, g) && Enabled(c, s, Claim(w)) && s.workers[w].batch !in s.sent
    ensures Conserved(c, Next(c, s, Claim(w)), g)
  {
    Shift(c, s, Next(c, s, Claim(w)), w, Sending(s.workers[w].batch), g);
  }

  lemma ConservedAccept(c: Config, s: State, w: nat, g: Gauge)
    requires Conserved(c, s, g) && Law(c, g) && Enabled(c, s, Accept(w)) && s.workers[w].batch !in s.acked
    ensures Conserved(c, Next(c, s, Accept(w)), g)
  {
    Shift(c, s, Next(c, s, Accept(w)), w, Answered(s.workers[w].batch, true), g);
  }

  lemma ConservedRefuse(c: Config, s: State, w: nat, g: Gauge)
    requires Conserved(c, s, g) && Law(c, g) && Enabled(c, s, Refuse(w)) && s.workers[w].batch !in s.failed
    ensures Conserved(c, Next(c, s, Refuse(w)), g)
  {
    Shift(c, s, Next(c, s, Refuse(w)), w, Answered(s.workers[w].batch, false), g);
  }

  // A worker gives its slot back.
  lemma ConservedRecorded(c: Config, s: State, s': State, w: nat, g: Gauge)
    requires Conserved(c, s, g) && Law(c, g) && w < |s.workers| && s.workers[w].Answered?
    requires s'.workers == s.workers[w := Notifying(s.workers[w].batch, s.workers[w].ok)]
    requires s' == s.(workers := s'.workers, inner := s'.inner, epoch := s'.epoch)
    requires s'.inner.inFlight == Freed(s.inner).inFlight
    ensures Conserved(c, s', g)
  {
    if g.Slots? { LevelSplit(c, g, s.workers, w); }
    Shift(c, s, s', w, Notifying(s.workers[w].batch, s.workers[w].ok), g);
  }

  lemma ConservedRecordSuccess(c: Config, s: State, a: Action, g: Gauge)
    requires a.RecordSuccess?
    requires Conserved(c, s, g) && Law(c, g) && Enabled(c, s, a)
    ensures Conserved(c, Next(c, s, a), g)
  {
    ConservedRecorded(c, s, Next(c, s, a), a.w, g);
  }

  lemma ConservedRecordError(c: Config, s: State, a: Action, g: Gauge)
    requires a.RecordError?
    requires Conserved(c, s, g) && Law(c, g) && Enabled(c, s, a)
    ensures Conserved(c, Next(c, s, a), g)
  {
    ConservedRecorded(c, s, Next(c, s, a), a.w, g);
  }

  lemma ConservedNotify(c: Config, s: State, w: nat, g: Gauge)
    requires Conserved(c, s, g) && Law(c, g) && Enabled(c, s, Notify(w))
    ensures Conserved(c, Next(c, s, Notify(w)), g)
  {
    Shift(c, s, Next(c, s, Notify(w)), w, Reporting(s.workers[w].batch), g);
  }

  // A worker that has failed drops its batch and its permit.
  lemma ConservedGivenUp(c: Config, s: State, s': State, w: nat, g: Gauge)
    requires Conserved(c, s, g) && Law(c, g) && w < |s.workers| && s.workers[w].Notifying? && !s.workers[w].ok
    requires var b := s.workers[w].batch;
             s' == s.(workers := s.workers[w := Exited(false)], epoch := s'.epoch,
                      free := s.free + PermitsOf(c, b), wasted := Record(s.wasted, c, b))
    ensures Conserved(c, s', g)
  {
    Shift(c, s, s', w, Exited(false), g);
  }

  lemma ConservedAbort(c: Config, s: State, w: nat, g: Gauge)
    requires Conserved(c, s, g) && Law(c, g) && Enabled(c, s, Abort(w))
    ensures Conserved(c, Next(c, s, Abort(w)), g)
  {
    ConservedGivenUp(c, s, Next(c, s, Abort(w)), w, g);
  }

  lemma ConservedReported(c: Config, s: State, s': State, w: nat, g: Gauge)
    requires Conserved(c, s, g) && Law(c, g) && w < |s.workers| && s.workers[w].Reporting?
    requires var b := s.workers[w].batch;
             s' == s.(workers := s.workers[w := Releasing(b)], done := if c.checkpointed then s.done + [b] else s.done)
    ensures Conserved(c, s', g)
  {
    if g.Unreported? { TimesSnoc(s.done, s.workers[w].batch, g.i); }
    Shift(c, s, s', w, Releasing(s.workers[w].batch), g);
  }

  lemma ConservedReport(c: Config, s: State, w: nat, g: Gauge)
    requires Conserved(c, s, g) && Law(c, g) && Enabled(c, s, Report(w))
    ensures Conserved(c, Next(c, s, Report(w)), g)
  {
    ConservedReported(c, s, Next(c, s, Report(w)), w, g);
  }

  lemma ConservedRelease(c: Config, s: State, w: nat, g: Gauge)
    requires Conserved(c, s, g) && Law(c, g) && Enabled(c, s, Release(w))
    ensures Conserved(c, Next(c, s, Release(w)), g)
  {
    Shift(c, s, Next(c, s, Release(w)), w, Waiting, g);
  }

  // A report is delivered once, for a batch above the resume mark.
  lemma DeliveredOnce(c: Config, s: State)
    requires c.checkpointed && Laws(c, s) && s.done != []
    ensures var b := s.done[0]; s.resume < b <= Produced(s.producer) && !Accounted(s.tracker, b)
  {
    var b := s.done[0];
    assert Conserved(c, s, Unreported(b)) && Conserved(c, s, During(b)) && Conserved(c, s, Before(b));
  }

  lemma ConservedDeliver(c: Config, s: State, a: Action, g: Gauge)
    requires a.Deliver? && Shape(c, s) && TrackerOk(c, s) && WellFormed(c) && Law(c, g) && Enabled(c, s, a)
    requires Conserved(c, s, g) && !Accounted(s.tracker, s.done[0])
    ensures Conserved(c, Next(c, s, a), g)
  {
    if g.Unreported? { DeliverAccounts(c, s, a, g.i); }
  }

  // The report moves from the channel to the tracker.
  lemma DeliverAccounts(c: Config, s: State, a: Action, i: nat)
    requires a.Deliver? && TrackerOk(c, s) && WellFormed(c) && Enabled(c, s, a) && !Accounted(s.tracker, s.done[0])
    ensures Beyond(Next(c, s, a), Unreported(i)) == Beyond(s, Unreported(i))
  {
    ReceiveFacts(c.work, s.tracker, s.done[0]);
  }

  // The steps of the producer and of the checkpoint task.
  predicate Central(a: Action) {
    a.Skip? || a.Pull? || a.InputFails? || a.InputEnds? || a.Permit? || a.Enqueue? || a.EnqueueFails? || a.DropQueued?
    || a.Deliver? || a.Finish?
  }

  // The steps of a worker on its way to a send; all others are from the send on.
  predicate Taking(a: Action) {
    a.TakeLock? || a.Dequeue? || a.Leave? || a.Register? || a.Claim? || a.Park? || a.Wake?
  }

  lemma ConservedCentral(c: Config, s: State, a: Action, g: Gauge)
    requires WellFormed(c) && Inv(c, s) && Enabled(c, s, a) && Law(c, g) && Central(a)
    ensures Conserved(c, Next(c, s, a), g)
  {
    assert Conserved(c, s, g);
    match a
    case Skip | Pull => ConservedReading(c, s, a, g);
    case InputFails | InputEnds | Finish(_) => ConservedEnding(c, s, a, g);
    case Permit => ConservedPermit(c, s, g);
    case Enqueue => ConservedEnqueue(c, s, g);
    case EnqueueFails => NotYetSent(c, s, s.producer.batch); ConservedEnqueueFails(c, s, g);
    case DropQueued => NotYetSent(c, s, s.queue[0]); ConservedDropQueued(c, s, g);
    case Deliver(_, _) => DeliveredOnce(c, s); ConservedDeliver(c, s, a, g);
  }

  lemma ConservedTaking(c: Config, s: State, a: Action, g: Gauge)
    requires Laws(c, s) && Enabled(c, s, a) && Law(c, g) && Taking(a)
    ensures Conserved(c, Next(c, s, a), g)
  {
    assert Conserved(c, s, g);
    match a
    case TakeLock(w) => ConservedTakeLock(c, s, w, g);
    case Leave(w) => ConservedLeave(c, s, w, g);
    case Register(w) => ConservedRegister(c, s, w, g);
    case Park(w) => ConservedPark(c, s, w, g);
    case Wake(w) => ConservedWake(c, s, w, g);
    case Dequeue(w) => ConservedDequeue(c, s, w, g);
    case Claim(w) => SentOnce(c, s, w); ConservedClaim(c, s, w, g);
  }

  lemma ConservedSending(c: Config, s: State, a: Action, g: Gauge)
    requires Laws(c, s) && Enabled(c, s, a) && Law(c, g) && !Taking(a) && !Central(a)
    ensures Conserved(c, Next(c, s, a), g)
  {
    assert Conserved(c, s, g);
    match a
    case Accept(w) => AnsweredOnce(c, s, w); ConservedAccept(c, s, w, g);
    case Refuse(w) => AnsweredOnce(c, s, w); ConservedRefuse(c, s, w, g);
    case RecordSuccess(_, _, _) => ConservedRecordSuccess(c, s, a, g);
    case RecordError(_, _) => ConservedRecordError(c, s, a, g);
    case Notify(w) => ConservedNotify(c, s, w, g);
    case Abort(w) => ConservedAbort(c, s, w, g);
    case Report(w) => ConservedReport(c, s, w, g);
    case Release(w) => ConservedRelease(c, s, w, g);
  }

  // Main result: every enabled step keeps every conservation law.
  lemma ConservedStep(c: Config, s: State, a: Action, g: Gauge)
    requires WellFormed(c) && Inv(c, s) && Enabled(c, s, a) && Law(c, g)
    ensures Conserved(c, Next(c, s, a), g)
  {
    if Central(a) { ConservedCentral(c, s, a, g); }
    else if Taking(a) { ConservedTaking(c, s, a, g); }
    else { ConservedSending(c, s, a, g); }
  }

  lemma LawsStep(c: Config, s: State, a: Action)
    requires WellFormed(c) && Inv(c, s) && Enabled(c, s, a)
    ensures Laws(c, Next(c, s, a))
  {
    forall g | Law(c, g) ensures Conserved(c, Next(c, s, a), g) {
      ConservedStep(c, s, a, g);
    }
  }

  // --- every step keeps the other invariants --------------------------------------------

  lemma ShapeCentral(c: Config, s: State, a: Action)
    requires Shape(c, s) && Enabled(c, s, a) && Central(a)
    ensures Shape(c, Next(c, s, a))
  {
  }

  lemma ShapeTaking(c: Config, s: State, a: Action)
    requires Shape(c, s) && Enabled(c, s, a) && Taking(a)
    ensures Shape(c, Next(c, s, a))
  {
  }

  lemma ShapeSending(c: Config, s: State, a: Action)
    requires Shape(c, s) && Enabled(c, s, a) && !Central(a) && !Taking(a)
    ensures Shape(c, Next(c, s, a))
  {
  }

  lemma ShapeStep(c: Config, s: State, a: Action)
    requires Shape(c, s) && Enabled(c, s, a)
    ensures Shape(c, Next(c, s, a))
  {
    if Central(a) { ShapeCentral(c, s, a); } else if Taking(a) { ShapeTaking(c, s, a); } else { ShapeSending(c, s, a); }
  }

  lemma RangesCentral(c: Config, s: State, a: Action)
    requires Shape(c, s) && RangesOk(c, s) && Enabled(c, s, a) && Central(a)
    ensures RangesOk(c, Next(c, s, a))
  {
  }

  lemma RangesTaking(c: Config, s: State, a: Action)
    requires RangesOk(c, s) && Enabled(c, s, a) && Taking(a)
    ensures RangesOk(c, Next(c, s, a))
  {
  }

  lemma RangesSending(c: Config, s: State, a: Action)
    requires RangesOk(c, s) && Enabled(c, s, a) && !Central(a) && !Taking(a)
    ensures RangesOk(c, Next(c, s, a))
  {
  }

  lemma RangesStep(c: Config, s: State, a: Action)
    requires Shape(c, s) && RangesOk(c, s) && Enabled(c, s, a)
    ensures RangesOk(c, Next(c, s, a))
  {
    if Central(a) { RangesCentral(c, s, a); } else if Taking(a) { RangesTaking(c, s, a); } else { RangesSending(c, s, a); }
  }

  // What a worker in one phase does next.
  predicate Follows(p: Phase, q: Phase) {
    match p
    case Waiting => q == Receiving
    case Receiving => q.Acquiring? || q == Exited(true)
    case Acquiring(b) => q.Registered? && q.batch == b
    case Registered(b, seen) => q == Sending(b) || q == Parked(b, seen)
    case Parked(b, _) => q == Acquiring(b)
    case Sending(b) => q.Answered? && q.batch == b
    case Answered(b, ok) => q == Notifying(b, ok)
    case Notifying(b, ok) => q == if ok then Reporting(b) else Exited(false)
    case Reporting(b) => q == Releasing(b)
    case Releasing(_) => q == Waiting
    case Exited(_) => false
  }

  predicate OneMoves(ws: seq<Phase>, ws': seq<Phase>, w: nat) {
    w < |ws| == |ws'| && ws' == ws[w := ws'[w]] && Follows(ws[w], ws'[w])
  }

  lemma CentralMovesNobody(c: Config, s: State, a: Action)
    requires Enabled(c, s, a) && Central(a)
    ensures Next(c, s, a).workers == s.workers
  {
  }

  lemma TakerMoves(c: Config, s: State, a: Action)
    requires Enabled(c, s, a) && Taking(a)
    ensures OneMoves(s.workers, Next(c, s, a).workers, a.w)
  {
  }

  lemma SenderMoves(c: Config, s: State, a: Action)
    requires Enabled(c, s, a) && !Taking(a) && !Central(a)
    ensures OneMoves(s.workers, Next(c, s, a).workers, a.w)
  {
  }

  // In every step one worker at most moves, to the phase that follows.
  lemma MovesStep(c: Config, s: State, a: Action)
    requires Enabled(c, s, a)
    ensures |Next(c, s, a).workers| == |s.workers|
    ensures if Central(a) then Next(c, s, a).workers == s.workers else OneMoves(s.workers, Next(c, s, a).workers, a.w)
  {
    if Central(a) { CentralMovesNobody(c, s, a); } else if Taking(a) { TakerMoves(c, s, a); } else { SenderMoves(c, s, a); }
  }

  lemma LockCentral(c: Config, s: State, a: Action)
    requires LockOk(s) && Enabled(c, s, a) && Central(a)
    ensures LockOk(Next(c, s, a))
  {
  }

  lemma LockTaking(c: Config, s: State, a: Action)
    requires LockOk(s) && Enabled(c, s, a) && Taking(a)
    ensures LockOk(Next(c, s, a))
  {
  }

  lemma LockSending(c: Config, s: State, a: Action)
    requires LockOk(s) && Enabled(c, s, a) && !Central(a) && !Taking(a)
    ensures LockOk(Next(c, s, a))
  {
  }

  lemma LockStep(c: Config, s: State, a: Action)
    requires LockOk(s) && Enabled(c, s, a)
    ensures LockOk(Next(c, s, a))
  {
    if Central(a) { LockCentral(c, s, a); } else if Taking(a) { LockTaking(c, s, a); } else { LockSending(c, s, a); }
  }

  lemma LimiterElsewhere(c: Config, s: State, a: Action)
    requires Enabled(c, s, a) && (Central(a) || Taking(a))
    ensures Next(c, s, a).inner.(inFlight := 0) == s.inner.(inFlight := 0)
  {
  }

  lemma LimiterSending(c: Config, s: State, a: Action)
    requires Bounded(LimiterConfig(c), s.inner) && Laws(c, s) && Enabled(c, s, a) && !Central(a) && !Taking(a)
    ensures Bounded(LimiterConfig(c), Next(c, s, a).inner)
  {
    if a.RecordSuccess? || a.RecordError? {
      LevelSplit(c, Slots, s.workers, a.w);
      assert Conserved(c, s, Slots);
      OutcomesKeepBounds(LimiterConfig(c), s.inner, if a.RecordSuccess? then a.rtt else 0,
        a.RecordSuccess? && a.quiet, if a.RecordError? then a.status else None);
    }
  }

  lemma LimiterStep(c: Config, s: State, a: Action)
    requires Bounded(LimiterConfig(c), s.inner) && Laws(c, s) && Enabled(c, s, a)
    ensures Bounded(LimiterConfig(c), Next(c, s, a).inner)
  {
    if Central(a) || Taking(a) {
      LimiterElsewhere(c, s, a);
      assert Next(c, s, a).inner.(inFlight := 0).limit == s.inner.(inFlight := 0).limit;
    } else {
      LimiterSending(c, s, a);
    }
  }

  // A waiter who has released and not yet notified is still there when others move.
  lemma NotifierStays(ws: seq<Phase>, ws': seq<Phase>, w: nat)
    requires OneMoves(ws, ws', w) && !ws[w].Notifying? && SomeNotifier(ws)
    ensures SomeNotifier(ws')
  {
    var v :| 0 <= v < |ws| && ws[v].Notifying?;
    assert ws'[v].Notifying?;
  }

  lemma WakeupCentral(c: Config, s: State, a: Action)
    requires NoLostWakeup(s) && Enabled(c, s, a) && Central(a)
    ensures NoLostWakeup(Next(c, s, a))
  {
  }

  lemma WakeupTaking(c: Config, s: State, a: Action)
    requires NoLostWakeup(s) && Enabled(c, s, a) && Taking(a)
    ensures NoLostWakeup(Next(c, s, a))
  {
    TakerMoves(c, s, a);
    if SomeNotifier(s.workers) { NotifierStays(s.workers, Next(c, s, a).workers, a.w); }
  }

  lemma WakeupSending(c: Config, s: State, a: Action)
    requires NoLostWakeup(s) && Enabled(c, s, a) && (a.Accept? || a.Refuse? || a.Report? || a.Release?)
    ensures NoLostWakeup(Next(c, s, a))
  {
    SenderMoves(c, s, a);
    if SomeNotifier(s.workers) { NotifierStays(s.workers, Next(c, s, a).workers, a.w); }
  }

  lemma WakeupRecording(c: Config, s: State, a: Action)
    requires NoLostWakeup(s) && Enabled(c, s, a) && (a.RecordSuccess? || a.RecordError?)
    ensures NoLostWakeup(Next(c, s, a))
  {
    assert Next(c, s, a).workers[a.w].Notifying?;
  }

  lemma WakeupNotifying(c: Config, s: State, a: Action)
    requires NoLostWakeup(s) && Enabled(c, s, a) && (a.Notify? || a.Abort?)
    ensures NoLostWakeup(Next(c, s, a))
  {
  }

  lemma WakeupStep(c: Config, s: State, a: Action)
    requires NoLostWakeup(s) && Enabled(c, s, a)
    ensures NoLostWakeup(Next(c, s, a))
  {
    if Central(a) { WakeupCentral(c, s, a); }
    else if Taking(a) { WakeupTaking(c, s, a); }
    else if a.RecordSuccess? || a.RecordError? { WakeupRecording(c, s, a); }
    else if a.Notify? || a.Abort? { WakeupNotifying(c, s, a); }
    else { WakeupSending(c, s, a); }
  }

  // The checkpoint task's state and what it has stored.
  predicate SameTask(s: State, s': State) {
    s'.tracker == s.tracker && s'.stored == s.stored && s'.lastLanded == s.lastLanded && s'.taskOver == s.taskOver && s'.resume == s.resume
  }

  lemma TaskUntouchedCentrally(c: Config, s: State, a: Action)
    requires Enabled(c, s, a) && Central(a) && !a.Deliver? && !a.Finish?
    ensures SameTask(s, Next(c, s, a))
  {
  }

  lemma TaskUntouchedTaking(c: Config, s: State, a: Action)
    requires Enabled(c, s, a) && Taking(a)
    ensures SameTask(s, Next(c, s, a))
  {
  }

  lemma TaskUntouchedSending(c: Config, s: State, a: Action)
    requires Enabled(c, s, a) && !Central(a) && !Taking(a)
    ensures SameTask(s, Next(c, s, a))
  {
  }

  // No other step touches them.
  lemma TaskUntouched(c: Config, s: State, a: Action)
    requires Enabled(c, s, a) && !a.Deliver? && !a.Finish?
    ensures SameTask(s, Next(c, s, a))
  {
    if Central(a) { TaskUntouchedCentrally(c, s, a); }
    else if Taking(a) { TaskUntouchedTaking(c, s, a); }
    else { TaskUntouchedSending(c, s, a); }
  }

  lemma TrackerElsewhere(c: Config, s: State, s': State)
    requires TrackerOk(c, s) && StoredOk(c, s) && SameTask(s, s')
    ensures TrackerOk(c, s') && StoredOk(c, s')
  {
  }

  lemma TrackerDeliver(c: Config, s: State, a: Action)
    requires WellFormed(c) && TrackerOk(c, s) && Enabled(c, s, a) && a.Deliver?
    requires !Accounted(s.tracker, s.done[0])
    ensures TrackerOk(c, Next(c, s, a))
  {
    ReceiveFacts(c.work, s.tracker, s.done[0]);
  }

  lemma StoredDeliver(c: Config, s: State, a: Action)
    requires WellFormed(c) && TrackerOk(c, s) && StoredOk(c, s) && Enabled(c, s, a) && a.Deliver?
    requires !Accounted(s.tracker, s.done[0])
    ensures StoredOk(c, Next(c, s, a))
  {
    ReceiveMoves(c.work, s.tracker, s.done[0]);
  }

  lemma TrackerFinish(c: Config, s: State, a: Action)
    requires TrackerOk(c, s) && StoredOk(c, s) && Enabled(c, s, a) && a.Finish?
    ensures TrackerOk(c, Next(c, s, a)) && StoredOk(c, Next(c, s, a))
  {
  }

  lemma TrackerStep(c: Config, s: State, a: Action)
    requires WellFormed(c) && Inv(c, s) && Enabled(c, s, a)
    ensures TrackerOk(c, Next(c, s, a)) && StoredOk(c, Next(c, s, a))
  {
    if a.Deliver? {
      if c.checkpointed { DeliveredOnce(c, s); }
      TrackerDeliver(c, s, a);
      StoredDeliver(c, s, a);
    } else if a.Finish? {
      TrackerFinish(c, s, a);
    } else {
      TaskUntouched(c, s, a);
      TrackerElsewhere(c, s, Next(c, s, a));
    }
  }

  // A worker that has failed stays failed; one that is failing goes on to fail.
  lemma FailedStays(ws: seq<Phase>, ws': seq<Phase>, w: nat)
    requires OneMoves(ws, ws', w) && AnyFailed(ws)
    ensures AnyFailed(ws')
  {
    var v :| 0 <= v < |ws| && ws[v] == Exited(false);
    assert ws'[v] == Exited(false);
  }

  lemma FailingStays(ws: seq<Phase>, ws': seq<Phase>, w: nat, i: nat)
    requires OneMoves(ws, ws', w) && Failing(ws, i)
    ensures Failing(ws', i) || AnyFailed(ws')
  {
    var v :| 0 <= v < |ws| && (ws[v].Answered? || ws[v].Notifying?) && !ws[v].ok && ws[v].batch == i;
    assert ws'[v] == Exited(false) || ((ws'[v].Answered? || ws'[v].Notifying?) && !ws'[v].ok && ws'[v].batch == i);
  }

  lemma FailuresStay(ws: seq<Phase>, ws': seq<Phase>, w: nat)
    requires OneMoves(ws, ws', w)
    ensures AnyFailed(ws) ==> AnyFailed(ws')
    ensures forall i :: Failing(ws, i) ==> Failing(ws', i) || AnyFailed(ws')
  {
    if AnyFailed(ws) { FailedStays(ws, ws', w); }
    forall i | Failing(ws, i) ensures Failing(ws', i) || AnyFailed(ws') { FailingStays(ws, ws', w, i); }
  }

  lemma BlamedCentral(c: Config, s: State, a: Action)
    requires Blamed(s) && Enabled(c, s, a) && Central(a)
    ensures Blamed(Next(c, s, a))
  {
  }

  lemma BlamedTaking(c: Config, s: State, a: Action)
    requires Blamed(s) && Enabled(c, s, a) && Taking(a)
    ensures Blamed(Next(c, s, a))
  {
    TakerMoves(c, s, a);
    FailuresStay(s.workers, Next(c, s, a).workers, a.w);
  }

  lemma BlamedSending(c: Config, s: State, a: Action)
    requires Blamed(s) && Enabled(c, s, a) && !Central(a) && !Taking(a)
    ensures Blamed(Next(c, s, a))
  {
    SenderMoves(c, s, a);
    FailuresStay(s.workers, Next(c, s, a).workers, a.w);
    if a.Refuse? { assert Next(c, s, a).workers[a.w].Answered?; }
    if a.Abort? { assert Next(c, s, a).workers[a.w] == Exited(false); }
  }

  lemma BlamedStep(c: Config, s: State, a: Action)
    requires Blamed(s) && Enabled(c, s, a)
    ensures Blamed(Next(c, s, a))
  {
    if Central(a) { BlamedCentral(c, s, a); } else if Taking(a) { BlamedTaking(c, s, a); } else { BlamedSending(c, s, a); }
  }

  // When everybody has gone with the input unread or unsent, somebody failed.
  lemma GoneEarly(c: Config, s: State)
    requires Shape(c, s) && WellFormed(c) && Endings(c, s) && AllExited(s.workers)
    requires !s.producer.Finished? || s.queue != []
    ensures AnyFailed(s.workers)
  {
    assert s.workers[0].Exited?;
    assert s.workers[0] == Exited(true) || s.workers[0] == Exited(false);
  }

  lemma EndingsCentral(c: Config, s: State, a: Action)
    requires WellFormed(c) && Shape(c, s) && Endings(c, s) && Enabled(c, s, a) && Central(a)
    ensures Endings(c, Next(c, s, a))
  {
    if a.EnqueueFails? || a.DropQueued? { GoneEarly(c, s); }
  }

  lemma EndingsTaking(c: Config, s: State, a: Action)
    requires Endings(c, s) && Enabled(c, s, a) && Taking(a)
    ensures Endings(c, Next(c, s, a))
  {
    TakerMoves(c, s, a);
    FailuresStay(s.workers, Next(c, s, a).workers, a.w);
  }

  lemma EndingsSending(c: Config, s: State, a: Action)
    requires Endings(c, s) && Enabled(c, s, a) && !Central(a) && !Taking(a)
    ensures Endings(c, Next(c, s, a))
  {
    SenderMoves(c, s, a);
    FailuresStay(s.workers, Next(c, s, a).workers, a.w);
    if a.Abort? { assert Next(c, s, a).workers[a.w] == Exited(false); }
  }

  lemma EndingsStep(c: Config, s: State, a: Action)
    requires WellFormed(c) && Shape(c, s) && Endings(c, s) && Enabled(c, s, a)
    ensures Endings(c, Next(c, s, a))
  {
    if Central(a) { EndingsCentral(c, s, a); } else if Taking(a) { EndingsTaking(c, s, a); } else { EndingsSending(c, s, a); }
  }

  // Main result: the invariants hold in every state of every run.
  lemma InvStep(c: Config, s: State, a: Action)
    requires WellFormed(c) && Inv(c, s) && Enabled(c, s, a)
    ensures Inv(c, Next(c, s, a))
  {
    ShapeStep(c, s, a);
    RangesStep(c, s, a);
    LockStep(c, s, a);
    LawsStep(c, s, a);
    LimiterStep(c, s, a);
    WakeupStep(c, s, a);
    TrackerStep(c, s, a);
    BlamedStep(c, s, a);
    EndingsStep(c, s, a);
  }
}
