// Freedom from deadlock and termination of the import run.

module PipelineProgress {
  import opened Common
  import opened Checkpointing
  import opened Limiting
  import opened Pipeline
  import opened PipelineSafety
  import opened PipelineOutcomes

  // --- some step is always enabled ---------------------------------------------------

  // A step that does not need the input to fail.
  ghost predicate CanStep(c: Config, s: State) { exists a :: Enabled(c, s, a) && !a.InputFails? }

  // Phases whose next step needs nobody else.
  predicate Free(s: State, p: Phase) {
    p.Acquiring? || p.Registered? || (p.Parked? && p.seen < s.epoch) || p.Sending? || p.Answered? || p.Notifying? || p.Releasing?
  }

  lemma FreeWorkerSteps(c: Config, s: State, w: nat)
    requires w < |s.workers| && Free(s, s.workers[w])
    ensures CanStep(c, s)
  {
    var p := s.workers[w];
    match p
    case Acquiring(_) => assert Enabled(c, s, Register(w));
    case Registered(_, _) =>
      if s.inner.inFlight < s.inner.limit { assert Enabled(c, s, Claim(w)); } else { assert Enabled(c, s, Park(w)); }
    case Parked(_, _) => assert Enabled(c, s, Wake(w));
    case Sending(_) => assert Enabled(c, s, Accept(w));
    case Answered(_, ok) =>
      if ok { assert Enabled(c, s, RecordSuccess(w, 0, false)); } else { assert Enabled(c, s, RecordError(w, None)); }
    case Notifying(_, ok) => if ok { assert Enabled(c, s, Notify(w)); } else { assert Enabled(c, s, Abort(w)); }
    case Releasing(_) => assert Enabled(c, s, Release(w));
    case _ =>
  }

  // A worker waiting to report is let through, or the checkpoint task takes a report first.
  lemma ReporterSteps(c: Config, s: State, w: nat)
    requires WellFormed(c) && Inv(c, s) && w < |s.workers| && s.workers[w].Reporting?
    ensures CanStep(c, s)
  {
    if c.checkpointed && |s.done| >= 4 * c.workers {
      ReportsDeliverable(c, s);
    } else {
      assert Enabled(c, s, Report(w));
    }
  }

  lemma ReportsDeliverable(c: Config, s: State)
    requires WellFormed(c) && Inv(c, s) && s.done != [] && !s.taskOver && c.checkpointed
    ensures CanStep(c, s)
  {
    DeliveredOnce(c, s);
    assert Enabled(c, s, Deliver(false, Lands));
  }

  lemma {:induction false} NoSlotTaken(c: Config, s: State, ws: seq<Phase>)
    requires forall w :: 0 <= w < |ws| ==> !Free(s, ws[w])
    ensures Level(c, Slots, ws) == 0
  {
    if ws != [] { NoSlotTaken(c, s, ws[1..]); }
  }

  // If nobody is free to move, nobody is parked: the limiter has no lost wake-up.
  lemma NobodyParked(c: Config, s: State, w: nat)
    requires WellFormed(c) && Inv(c, s) && w < |s.workers|
    requires forall v :: 0 <= v < |s.workers| ==> !Free(s, s.workers[v])
    ensures !s.workers[w].Parked?
  {
    NoSlotTaken(c, s, s.workers);
    NoSlotQueued(c, s.queue);
    assert Conserved(c, s, Slots);
    assert s.inner.inFlight == 0 < s.inner.limit;
    assert !SomeNotifier(s.workers);
  }

  lemma {:induction false} NoSlotQueued(c: Config, bs: seq<nat>)
    ensures Queued(c, Slots, bs) == 0
  {
    if bs != [] { NoSlotQueued(c, bs[1..]); }
  }

  lemma {:induction false} NoPermitHeld(c: Config, ws: seq<Phase>)
    requires forall w :: 0 <= w < |ws| ==> !Carries(ws[w])
    ensures Level(c, Held, ws) == 0
  {
    if ws != [] { NoPermitHeld(c, ws[1..]); }
  }

  // With an empty queue and no batch at a worker the producer can always move.
  lemma ProducerSteps(c: Config, s: State)
    requires WellFormed(c) && Inv(c, s) && s.queue == [] && !s.producer.Finished?
    requires forall w :: 0 <= w < |s.workers| ==> !Carries(s.workers[w])
    ensures CanStep(c, s)
  {
    match s.producer
    case Reading(produced) =>
      if produced >= |c.work| { assert Enabled(c, s, InputEnds); }
      else if produced < s.resume { assert Enabled(c, s, Skip); }
      else { assert Enabled(c, s, Pull); }
    case Budgeting(b) =>
      NoPermitHeld(c, s.workers);
      assert Conserved(c, s, Held);
      assert Enabled(c, s, Permit);
    case Offering(_) =>
      if AllExited(s.workers) { assert Enabled(c, s, EnqueueFails); } else { assert Enabled(c, s, Enqueue); }
  }

  lemma ReceiverSteps(c: Config, s: State, w: nat)
    requires WellFormed(c) && Inv(c, s) && w < |s.workers| && s.workers[w].Receiving?
    requires forall v :: 0 <= v < |s.workers| ==> !Carries(s.workers[v])
    ensures CanStep(c, s)
  {
    if s.queue != [] {
      assert Enabled(c, s, Dequeue(w));
    } else if s.producer.Finished? {
      assert Enabled(c, s, Leave(w));
    } else {
      ProducerSteps(c, s);
    }
  }

  // Main result: in every reachable state that is not final some step is enabled,
  // whatever the cap, the batch sizes and the limiter have done.
  lemma NoDeadlock(c: Config, s: State)
    requires WellFormed(c) && Inv(c, s) && !Final(s)
    ensures CanStep(c, s)
  {
    if w :| 0 <= w < |s.workers| && Free(s, s.workers[w]) {
      FreeWorkerSteps(c, s, w);
    } else if w :| 0 <= w < |s.workers| && s.workers[w].Reporting? {
      ReporterSteps(c, s, w);
    } else {
      forall w | 0 <= w < |s.workers| ensures !Carries(s.workers[w]) { NobodyParked(c, s, w); }
      Unburdened(c, s);
    }
  }

  lemma Unburdened(c: Config, s: State)
    requires WellFormed(c) && Inv(c, s) && !Final(s)
    requires forall w :: 0 <= w < |s.workers| ==> !Carries(s.workers[w])
    ensures CanStep(c, s)
  {
    if w :| 0 <= w < |s.workers| && s.workers[w].Receiving? {
      ReceiverSteps(c, s, w);
    } else if w :| 0 <= w < |s.workers| && s.workers[w].Waiting? {
      assert s.lock.None?;
      assert Enabled(c, s, TakeLock(w));
    } else {
      assert AllExited(s.workers);
      if s.queue != [] { assert Enabled(c, s, DropQueued); }
      else if !s.producer.Finished? { ProducerSteps(c, s); }
      else if s.done != [] { ReportsDeliverable(c, s); }
      else { assert Enabled(c, s, Finish(Lands)); }
    }
  }

  // --- every step makes progress ---------------------------------------------------------

  const PER_BATCH: nat := 14

  function ProducerEffort(c: Config, p: Producer): nat {
    match p
    case Reading(produced) => PER_BATCH * Ahead(c, produced) + 1
    case Budgeting(b) => PER_BATCH * Ahead(c, b) + 14
    case Offering(b) => PER_BATCH * Ahead(c, b) + 13
    case Finished(_, _) => 0
  }

  function Ahead(c: Config, produced: nat): nat { if produced <= |c.work| then |c.work| - produced else 0 }

  // Steps still to take, apart from retries for a limiter slot.
  function Work(c: Config, s: State): nat {
    ProducerEffort(c, s.producer) + Queued(c, Effort, s.queue) + |s.queue| + Level(c, Effort, s.workers) + |s.done| + Bit(!s.taskOver)
  }

  // Retries possible before the next notification.
  function Retries(c: Config, s: State): nat { Level(c, Restless(s.epoch), s.workers) }

  function Lexicographic(w: nat, r: nat, k: nat): nat { w * k + r }

  function Rank(c: Config, s: State): nat { Lexicographic(Work(c, s), Retries(c, s), 4 * |s.workers| + 1) }

  lemma {:induction false} RetriesBounded(c: Config, epoch: nat, ws: seq<Phase>)
    ensures Level(c, Restless(epoch), ws) <= 4 * |ws|
  {
    if ws != [] { RetriesBounded(c, epoch, ws[1..]); }
  }

  predicate Retrying(a: Action) { a.Register? || a.Park? || a.Wake? }

  lemma RetryStep(c: Config, s: State, a: Action)
    requires NoLostWakeup(s) && Enabled(c, s, a) && Retrying(a)
    ensures Work(c, Next(c, s, a)) == Work(c, s) && Retries(c, Next(c, s, a)) < Retries(c, s)
  {
    var p := s.workers[a.w];
    var q := if a.Register? then Registered(p.batch, s.epoch) else if a.Park? then Parked(p.batch, p.seen) else Acquiring(p.batch);
    LevelUpdate(c, Effort, s.workers, a.w, q);
    LevelUpdate(c, Restless(s.epoch), s.workers, a.w, q);
  }

  lemma ProducerWorks(c: Config, s: State, a: Action)
    requires Shape(c, s) && Enabled(c, s, a)
    requires Central(a) && !a.Enqueue?
    ensures Work(c, Next(c, s, a)) < Work(c, s)
  {
  }

  lemma EnqueueWorks(c: Config, s: State)
    requires Shape(c, s) && Enabled(c, s, Enqueue)
    ensures Work(c, Next(c, s, Enqueue)) < Work(c, s)
  {
    QueuedSnoc(c, Effort, s.queue, s.producer.batch);
  }

  lemma TakerWorks(c: Config, s: State, a: Action, p: Phase)
    requires Enabled(c, s, a) && (a.TakeLock? || a.Leave? || a.Claim?)
    requires Next(c, s, a).workers == s.workers[a.w := p]
    ensures Work(c, Next(c, s, a)) < Work(c, s)
  {
    assert p == Next(c, s, a).workers[a.w];
    LevelUpdate(c, Effort, s.workers, a.w, p);
  }

  lemma SenderWorks(c: Config, s: State, a: Action, p: Phase)
    requires Enabled(c, s, a) && (a.Accept? || a.Refuse? || a.RecordSuccess? || a.RecordError?)
    requires Next(c, s, a).workers == s.workers[a.w := p]
    ensures Work(c, Next(c, s, a)) < Work(c, s)
  {
    assert p == Next(c, s, a).workers[a.w];
    LevelUpdate(c, Effort, s.workers, a.w, p);
  }

  lemma EnderWorks(c: Config, s: State, a: Action, p: Phase)
    requires Enabled(c, s, a) && (a.Notify? || a.Abort? || a.Release?)
    requires Next(c, s, a).workers == s.workers[a.w := p]
    ensures Work(c, Next(c, s, a)) < Work(c, s)
  {
    assert p == Next(c, s, a).workers[a.w];
    LevelUpdate(c, Effort, s.workers, a.w, p);
  }

  lemma HandoverWorks(c: Config, s: State, a: Action, p: Phase)
    requires Enabled(c, s, a) && (a.Dequeue? || a.Report?)
    requires Next(c, s, a).workers == s.workers[a.w := p]
    ensures Work(c, Next(c, s, a)) < Work(c, s)
  {
    assert p == Next(c, s, a).workers[a.w];
    LevelUpdate(c, Effort, s.workers, a.w, p);
  }

  lemma WorkStep(c: Config, s: State, a: Action)
    requires Shape(c, s) && Enabled(c, s, a) && !Retrying(a)
    ensures Work(c, Next(c, s, a)) < Work(c, s)
  {
    MovesStep(c, s, a);
    if a.Enqueue? { EnqueueWorks(c, s); }
    else if Central(a) { ProducerWorks(c, s, a); }
    else if a.Dequeue? || a.Report? { HandoverWorks(c, s, a, Next(c, s, a).workers[a.w]); }
    else if Taking(a) { TakerWorks(c, s, a, Next(c, s, a).workers[a.w]); }
    else if a.Notify? || a.Abort? || a.Release? { EnderWorks(c, s, a, Next(c, s, a).workers[a.w]); }
    else { SenderWorks(c, s, a, Next(c, s, a).workers[a.w]); }
  }

  lemma RankDrops(w: nat, w': nat, r: nat, r': nat, k: nat)
    requires (w' < w && r' < k) || (w' == w && r' < r)
    ensures Lexicographic(w', r', k) < Lexicographic(w, r, k)
  {
    if w' < w {
      assert w * k == w' * k + (w - w') * k;
      assert (w - w') * k >= k by { Grow(k, w - w'); }
    }
  }

  // Main result: every step, in any interleaving, lowers the rank.
  lemma RankStep(c: Config, s: State, a: Action)
    requires Shape(c, s) && NoLostWakeup(s) && Enabled(c, s, a)
    ensures Rank(c, Next(c, s, a)) < Rank(c, s)
  {
    var s' := Next(c, s, a);
    MovesStep(c, s, a);
    RetriesBounded(c, s'.epoch, s'.workers);
    if Retrying(a) { RetryStep(c, s, a); } else { WorkStep(c, s, a); }
    RankDrops(Work(c, s), Work(c, s'), Retries(c, s), Retries(c, s'), 4 * |s.workers| + 1);
  }

  // Main result: no run is longer than the rank of the state it starts in; in
  // particular no interleaving goes on for ever.
  lemma {:induction false} EveryRunEnds(c: Config, s: State, actions: seq<Action>)
    requires WellFormed(c) && Inv(c, s) && CanRun(c, s, actions)
    ensures |actions| <= Rank(c, s)
    ensures |actions| == Rank(c, s) ==> Final(Run(c, s, actions))
    decreases |actions|
  {
    if actions == [] {
      if !Final(s) {
        NoDeadlock(c, s);
        var a :| Enabled(c, s, a);
        RankStep(c, s, a);
      }
    } else {
      RankStep(c, s, actions[0]);
      InvStep(c, s, actions[0]);
      EveryRunEnds(c, Next(c, s, actions[0]), actions[1..]);
    }
  }

  // From every reachable state the run can be carried on to its end.
  lemma {:induction false} CanAlwaysFinish(c: Config, s: State) returns (actions: seq<Action>)
    requires WellFormed(c) && Inv(c, s)
    ensures CanRun(c, s, actions) && Final(Run(c, s, actions))
    decreases Rank(c, s)
  {
    if Final(s) {
      actions := [];
    } else {
      NoDeadlock(c, s);
      var a :| Enabled(c, s, a);
      RankStep(c, s, a);
      InvStep(c, s, a);
      var rest := CanAlwaysFinish(c, Next(c, s, a));
      actions := [a] + rest;
      assert actions[1..] == rest;
    }
  }
}
