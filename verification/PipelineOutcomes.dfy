// What the invariants mean for the run as a whole: the byte budget, the meaning
// of Ok, freedom from deadlock, and termination.

module PipelineOutcomes {
  import opened Common
  import opened Checkpointing
  import opened Limiting
  import opened Pipeline
  import opened PipelineSafety

  // --- the byte budget ------------------------------------------------------------

  // The batches that hold permits, wherever they are.
  function CarriedBy(ws: seq<Phase>): seq<nat> {
    if ws == [] then []
    else if Carries(ws[0]) then [ws[0].batch] + CarriedBy(ws[1..]) else CarriedBy(ws[1..])
  }

  function Holders(s: State): seq<nat> {
    (if s.producer.Offering? then [s.producer.batch] else []) + s.queue + CarriedBy(s.workers)
  }

  function Bytes(c: Config, bs: seq<nat>): nat {
    if bs == [] then 0 else BytesOf(c, bs[0]) + Bytes(c, bs[1..])
  }

  function Permits(c: Config, bs: seq<nat>): nat {
    if bs == [] then 0 else PermitsOf(c, bs[0]) + Permits(c, bs[1..])
  }

  // The bound the semaphore is there to give.
  predicate ByteBound(c: Config, s: State) {
    Bytes(c, Holders(s)) <= c.cap || |Holders(s)| == 1
  }

  lemma {:induction false} PermitsConcat(c: Config, a: seq<nat>, b: seq<nat>)
    ensures Permits(c, a + b) == Permits(c, a) + Permits(c, b)
  {
    if a == [] {
      assert a + b == b;
    } else {
      assert (a + b)[1..] == a[1..] + b;
      PermitsConcat(c, a[1..], b);
    }
  }

  lemma {:induction false} QueuePermits(c: Config, bs: seq<nat>)
    ensures Queued(c, Held, bs) == Permits(c, bs)
  {
    if bs != [] { QueuePermits(c, bs[1..]); }
  }

  lemma {:induction false} WorkerPermits(c: Config, ws: seq<Phase>)
    ensures Level(c, Held, ws) == Permits(c, CarriedBy(ws))
  {
    if ws != [] {
      WorkerPermits(c, ws[1..]);
      if Carries(ws[0]) { assert ([ws[0].batch] + CarriedBy(ws[1..]))[1..] == CarriedBy(ws[1..]); }
    }
  }

  lemma HolderPermits(c: Config, s: State)
    requires Conserved(c, s, Held)
    ensures Permits(c, Holders(s)) + s.free == TotalPermits(c)
  {
    var p := if s.producer.Offering? then [s.producer.batch] else [];
    PermitsConcat(c, p + s.queue, CarriedBy(s.workers));
    PermitsConcat(c, p, s.queue);
    QueuePermits(c, s.queue);
    WorkerPermits(c, s.workers);
    assert s.producer.Offering? ==> p[1..] == [];
  }

  predicate Clamped(c: Config, b: nat) { PermitsOf(c, b) < BytesOf(c, b) }

  lemma {:induction false} NoneClamped(c: Config, bs: seq<nat>)
    requires forall k :: 0 <= k < |bs| ==> !Clamped(c, bs[k])
    ensures Bytes(c, bs) == Permits(c, bs)
  {
    if bs != [] { NoneClamped(c, bs[1..]); }
  }

  // Two holders hold at least what any one of them holds plus a permit of the other.
  lemma TwoHolders(c: Config, bs: seq<nat>, j: nat, k: nat)
    requires j < k < |bs|
    ensures Permits(c, bs) >= PermitsOf(c, bs[j]) + PermitsOf(c, bs[k])
  {
    assert bs == bs[..j] + bs[j..];
    PermitsConcat(c, bs[..j], bs[j..]);
    assert bs[j..][1..] == bs[j + 1..k] + bs[k..];
    PermitsConcat(c, bs[j + 1..k], bs[k..]);
  }

  // Every batch body is at least one character and a newline, so two bytes.
  predicate RealBodies(c: Config) { forall k :: 0 <= k < |c.work| ==> c.work[k].bytes >= 2 }

  lemma {:induction false} CarriedInRange(c: Config, ws: seq<Phase>)
    requires forall w :: 0 <= w < |ws| && Carries(ws[w]) ==> InRange(c, ws[w].batch)
    ensures forall k :: 0 <= k < |CarriedBy(ws)| ==> InRange(c, CarriedBy(ws)[k])
  {
    if ws != [] { CarriedInRange(c, ws[1..]); }
  }

  lemma HoldersInRange(c: Config, s: State)
    requires Shape(c, s) && RangesOk(c, s)
    ensures forall k :: 0 <= k < |Holders(s)| ==> InRange(c, Holders(s)[k])
  {
    CarriedInRange(c, s.workers);
  }

  // The largest cap for which the bound is kept: one more than the permit type.
  const LARGEST_CAP: nat := 0x1_0000_0000

  lemma ClampedIsAlone(c: Config, bs: seq<nat>, j: nat, k: nat)
    requires RealBodies(c) && 1 <= c.cap <= LARGEST_CAP
    requires j < |bs| && k < |bs| && j != k
    requires InRange(c, bs[j]) && InRange(c, bs[k]) && Clamped(c, bs[j])
    ensures Permits(c, bs) > TotalPermits(c)
  {
    TwoHolders(c, bs, Min(j, k), Max(j, k));
    assert c.work[bs[k] - 1].bytes >= 2 && c.work[bs[j] - 1].bytes >= 2;
  }

  // Main result: while the cap is in range, the bytes held by producer, queue and
  // workers stay within it, except for one oversized batch that is then alone.
  lemma ByteBoundHolds(c: Config, s: State)
    requires Inv(c, s) && RealBodies(c) && 1 <= c.cap <= LARGEST_CAP
    ensures ByteBound(c, s)
  {
    var bs := Holders(s);
    assert Conserved(c, s, Held);
    HolderPermits(c, s);
    HoldersInRange(c, s);
    if j :| 0 <= j < |bs| && Clamped(c, bs[j]) {
      if |bs| > 1 {
        ClampedIsAlone(c, bs, j, if j == 0 then 1 else 0);
      }
    } else {
      NoneClamped(c, bs);
    }
  }

  // --- runs ------------------------------------------------------------------------

  // Steps are deterministic once the action is chosen, so a run is its actions.
  predicate CanRun(c: Config, s: State, actions: seq<Action>)
    decreases |actions|
  {
    actions == [] || (Enabled(c, s, actions[0]) && CanRun(c, Next(c, s, actions[0]), actions[1..]))
  }

  function Run(c: Config, s: State, actions: seq<Action>): State
    requires CanRun(c, s, actions)
    decreases |actions|
  {
    if actions == [] then s else Run(c, Next(c, s, actions[0]), actions[1..])
  }

  lemma {:induction false} RunKeepsInv(c: Config, s: State, actions: seq<Action>)
    requires WellFormed(c) && Inv(c, s) && CanRun(c, s, actions)
    ensures Inv(c, Run(c, s, actions))
    decreases |actions|
  {
    if actions != [] {
      InvStep(c, s, actions[0]);
      RunKeepsInv(c, Next(c, s, actions[0]), actions[1..]);
    }
  }

  // A run and one step more.
  lemma {:induction false} RunSnoc(c: Config, s: State, actions: seq<Action>, a: Action)
    requires CanRun(c, s, actions) && Enabled(c, Run(c, s, actions), a)
    ensures CanRun(c, s, actions + [a]) && Run(c, s, actions + [a]) == Next(c, Run(c, s, actions), a)
    decreases |actions|
  {
    if actions == [] {
      assert ([] + [a])[1..] == [];
    } else {
      RunSnoc(c, Next(c, s, actions[0]), actions[1..], a);
      assert (actions + [a])[1..] == actions[1..] + [a];
    }
  }

  // Some run leads from the one state to the other.
  ghost predicate Reaches(c: Config, s0: State, s: State) {
    exists actions :: CanRun(c, s0, actions) && Run(c, s0, actions) == s
  }

  lemma ReachesItself(c: Config, s: State)
    ensures Reaches(c, s, s)
  {
    assert CanRun(c, s, []) && Run(c, s, []) == s;
  }

  lemma ReachesNext(c: Config, s0: State, s: State, a: Action, s': State)
    requires Reaches(c, s0, s) && Enabled(c, s, a) && Next(c, s, a) == s'
    ensures Reaches(c, s0, s')
  {
    var actions :| CanRun(c, s0, actions) && Run(c, s0, actions) == s;
    RunSnoc(c, s0, actions, a);
  }

  // Outside the range the bound is broken: a first batch as large as the cap and a
  // small second one are held together.
  function BadConfig(workers: nat, cap: nat): Config {
    Config([BatchDone(1, 1, Max(cap, 2)), BatchDone(2, 1, 2)], workers, cap, false, false)
  }

  // Only the producer has moved.
  function Producing(c: Config, producer: Producer, queue: seq<nat>, free: nat): State
    requires CanStart(c, Absent)
  {
    Begin(c, Absent).(producer := producer, queue := queue, free := free)
  }

  lemma FirstBudgeted(c: Config)
    requires CanStart(c, Absent) && c.work != [] && TotalPermits(c) >= PermitsOf(c, 1)
    ensures Reaches(c, Begin(c, Absent), Producing(c, Offering(1), [], TotalPermits(c) - PermitsOf(c, 1)))
  {
    var s0, all, p := Begin(c, Absent), TotalPermits(c), PermitsOf(c, 1);
    ReachesItself(c, s0);
    ReachesNext(c, s0, s0, Pull, Producing(c, Budgeting(1), [], all));
    ReachesNext(c, s0, Producing(c, Budgeting(1), [], all), Permit, Producing(c, Offering(1), [], all - p));
  }

  lemma FirstQueued(c: Config)
    requires CanStart(c, Absent) && c.work != [] && TotalPermits(c) >= PermitsOf(c, 1)
    ensures Reaches(c, Begin(c, Absent), Producing(c, Reading(1), [1], TotalPermits(c) - PermitsOf(c, 1)))
  {
    var s0, free := Begin(c, Absent), TotalPermits(c) - PermitsOf(c, 1);
    FirstBudgeted(c);
    assert s0.workers[0] == Waiting;
    ReachesNext(c, s0, Producing(c, Offering(1), [], free), Enqueue, Producing(c, Reading(1), [1], free));
  }

  lemma SecondOffered(c: Config, free: nat)
    requires CanStart(c, Absent) && |c.work| >= 2 && free >= PermitsOf(c, 2)
    requires Reaches(c, Begin(c, Absent), Producing(c, Reading(1), [1], free)) && Begin(c, Absent).resume == 0
    ensures Reaches(c, Begin(c, Absent), Producing(c, Offering(2), [1], free - PermitsOf(c, 2)))
  {
    var s0 := Begin(c, Absent);
    ReachesNext(c, s0, Producing(c, Reading(1), [1], free), Pull, Producing(c, Budgeting(2), [1], free));
    ReachesNext(c, s0, Producing(c, Budgeting(2), [1], free), Permit, Producing(c, Offering(2), [1], free - PermitsOf(c, 2)));
  }

  lemma BothHeld(c: Config, s: State)
    requires c.workers >= 1 && |c.work| == 2
    requires s == Producing(c, Offering(2), [1], s.free)
    ensures Holders(s) == [2, 1] && Bytes(c, Holders(s)) == BytesOf(c, 1) + BytesOf(c, 2)
  {
    NobodyCarries(s.workers);
    assert Holders(s) == [2, 1];
    assert [2, 1][1..] == [1] && [1][1..] == [];
    assert Bytes(c, [1]) == BytesOf(c, 1) + Bytes(c, []);
  }

  lemma BadRun(workers: nat, cap: nat)
    requires workers >= 1 && (cap == 0 || cap > LARGEST_CAP)
    ensures var c := BadConfig(workers, cap);
            exists actions :: CanRun(c, Begin(c, Absent), actions) && !ByteBound(c, Run(c, Begin(c, Absent), actions))
  {
    var c := BadConfig(workers, cap);
    FirstQueued(c);
    SecondOffered(c, TotalPermits(c) - PermitsOf(c, 1));
    var s := Producing(c, Offering(2), [1], TotalPermits(c) - PermitsOf(c, 1) - PermitsOf(c, 2));
    BothHeld(c, s);
    var actions :| CanRun(c, Begin(c, Absent), actions) && Run(c, Begin(c, Absent), actions) == s;
    assert !ByteBound(c, s);
  }

  lemma {:induction false} NobodyCarries(ws: seq<Phase>)
    requires forall w :: 0 <= w < |ws| ==> !Carries(ws[w])
    ensures CarriedBy(ws) == []
  {
    if ws != [] { NobodyCarries(ws[1..]); }
  }

  ghost predicate AlwaysByteBound(workers: nat, cap: nat) {
    forall c, actions :: WellFormed(c) && RealBodies(c) && c.workers == workers && c.cap == cap && !c.checkpointed
                         && CanRun(c, Begin(c, Absent), actions)
                         ==> ByteBound(c, Run(c, Begin(c, Absent), actions))
  }

  // Main result: exactly the caps from one byte to 2^32 keep the byte bound in
  // every run over every input.
  lemma ByteBoundExactly(workers: nat, cap: nat)
    requires workers >= 1
    ensures AlwaysByteBound(workers, cap) <==> 1 <= cap <= LARGEST_CAP
  {
    if 1 <= cap <= LARGEST_CAP {
      forall c, actions | WellFormed(c) && RealBodies(c) && c.workers == workers && c.cap == cap && !c.checkpointed
                          && CanRun(c, Begin(c, Absent), actions)
        ensures ByteBound(c, Run(c, Begin(c, Absent), actions))
      {
        BeginInv(c, Absent);
        RunKeepsInv(c, Begin(c, Absent), actions);
        ByteBoundHolds(c, Run(c, Begin(c, Absent), actions));
      }
    } else {
      BadRun(workers, cap);
      assert WellFormed(BadConfig(workers, cap)) && RealBodies(BadConfig(workers, cap));
    }
  }

  // --- what Ok means -----------------------------------------------------------------

  lemma NothingOnBoard(c: Config, s: State, g: Gauge)
    requires Final(s) && !g.Restless?
    ensures OnBoard(c, g, s) == 0
  {
    forall w | 0 <= w < |s.workers| ensures Value(c, g, s.workers[w]) == 0 {
      assert s.workers[w].Exited?;
    }
    LevelZero(c, g, s.workers);
  }

  lemma SomeoneFailed(s: State)
    requires Final(s) && !AnyFailed(s.workers)
    ensures forall w :: 0 <= w < |s.workers| ==> s.workers[w] == Exited(true)
  {
    forall w | 0 <= w < |s.workers| ensures s.workers[w] == Exited(true) {
      assert s.workers[w].Exited?;
    }
  }

  predicate AllAcked(c: Config, s: State) {
    forall i :: s.resume < i <= |c.work| ==> i in s.acked
  }

  lemma AckedOrFailed(c: Config, s: State, i: nat)
    requires Inv(c, s) && Final(s)
    ensures s.resume < i <= Produced(s.producer) <==> i in s.acked || i in s.failed || i in s.dropped
    ensures i in s.acked ==> i !in s.failed
  {
    NothingOnBoard(c, s, Before(i));
    NothingOnBoard(c, s, During(i));
    assert Conserved(c, s, Before(i)) && Conserved(c, s, During(i));
  }

  // Main result: a finished run returns Ok exactly when its input was read without
  // error and every batch above the resume mark was acknowledged by the server.
  lemma OkExactly(c: Config, s: State)
    requires WellFormed(c) && Inv(c, s) && Final(s)
    ensures Succeeded(s) <==> !s.producer.failed && AllAcked(c, s)
  {
    if Succeeded(s) {
      assert !AnyFailed(s.workers);
      forall i: nat | s.resume < i <= |c.work| ensures i in s.acked {
        AckedOrFailed(c, s, i);
        assert !Failing(s.workers, i);
      }
    } else if !s.producer.failed && AllAcked(c, s) {
      NoFailures(c, s);
      SomeoneFailed(s);
    }
  }

  lemma NoFailures(c: Config, s: State)
    requires Inv(c, s) && Final(s) && AllAcked(c, s)
    ensures !AnyFailed(s.workers)
  {
    if s.failed != {} {
      var i :| i in s.failed;
      AckedOrFailed(c, s, i);
    }
  }

  lemma {:induction false} TotalsAgree(c: Config, from: nat, last: nat)
    requires from <= last <= |c.work|
    ensures Total(c, CountBatches, from, last) == last - from
    ensures Total(c, CountDocuments, from, last) == Documents(c.work, from, last)
    ensures Total(c, CountBytes, from, last) == Volume(c.work, from, last)
    decreases last
  {
    if from < last { TotalsAgree(c, from, last - 1); }
  }

  // Main result: the summary of a run that returns Ok counts exactly the batches,
  // documents and bytes above the resume mark.
  lemma OkSummary(c: Config, s: State)
    requires WellFormed(c) && Inv(c, s) && Succeeded(s)
    ensures var n := |c.work|;
            s.summary == Summary(n - s.resume, Documents(c.work, s.resume, n), Volume(c.work, s.resume, n))
  {
    OkExactly(c, s);
    assert !AnyFailed(s.workers);
    forall m ensures Of(s.summary, m) + Of(s.wasted, m) == Total(c, m, s.resume, |c.work|) {
      NothingOnBoard(c, s, Open(m));
      assert Conserved(c, s, Open(m));
    }
    TotalsAgree(c, s.resume, |c.work|);
  }
}
