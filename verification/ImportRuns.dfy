// Any number of import runs on the same input, each of which may be killed at any
// point, sharing one checkpoint object.

module ImportRuns {
  import opened Common
  import opened Batching
  import opened Checkpointing
  import opened Pipeline
  import opened PipelineSafety
  import opened PipelineOutcomes

  // What each batch will report, in batch order.
  function Reports(batches: seq<Batch>): seq<BatchDone> {
    seq(|batches|, k requires 0 <= k < |batches| =>
      BatchDone(batches[k].index, batches[k].documents, |batches[k].body|))
  }

  datatype Live = Live(c: Config, s: State)

  // The checkpoint object and the server's acknowledgements outlive a run.
  datatype World = World(stored: Stored, acked: set<nat>, run: Option<Live>)

  datatype Event =
    | StartRun(workers: nat, cap: nat, adaptive: bool, checkpointed: bool)
    | StepRun(a: Action)
    | EndRun                             // the process dies, or has returned

  const FRESH := World(Absent, {}, None)

  function Settings(work: seq<BatchDone>, e: Event): Config
    requires e.StartRun?
  {
    Config(work, e.workers, e.cap, e.adaptive, e.checkpointed)
  }

  predicate Possible(work: seq<BatchDone>, y: World, e: Event) {
    match e
    case StartRun(_, _, _, _) => y.run.None? && CanStart(Settings(work, e), y.stored)
    case StepRun(a) => y.run.Some? && Enabled(y.run.value.c, y.run.value.s, a)
    case EndRun => y.run.Some?
  }

  function Happen(work: seq<BatchDone>, y: World, e: Event): World
    requires Possible(work, y, e)
  {
    match e
    case StartRun(_, _, _, _) => y.(run := Some(Live(Settings(work, e), Begin(Settings(work, e), y.stored))))
    case StepRun(a) => y.(run := Some(y.run.value.(s := Next(y.run.value.c, y.run.value.s, a))))
    case EndRun => World(OnStore(y), EverAcked(y), None)
  }

  function OnStore(y: World): Stored { if y.run.Some? then y.run.value.s.stored else y.stored }

  // The batches the server has acknowledged in this run or an earlier one.
  function EverAcked(y: World): set<nat> { if y.run.Some? then y.acked + y.run.value.s.acked else y.acked }

  predicate CanHappen(work: seq<BatchDone>, y: World, events: seq<Event>)
    decreases |events|
  {
    events == [] || (Possible(work, y, events[0]) && CanHappen(work, Happen(work, y, events[0]), events[1..]))
  }

  function Outcome(work: seq<BatchDone>, y: World, events: seq<Event>): World
    requires CanHappen(work, y, events)
    decreases |events|
  {
    if events == [] then y else Outcome(work, Happen(work, y, events[0]), events[1..])
  }

  // --- what holds across crashes and restarts ---------------------------------------

  ghost predicate Covered(work: seq<BatchDone>, stored: Stored, acked: set<nat>) {
    stored.Saved? ==>
      Honest(work, stored.checkpoint) && forall i :: 1 <= i <= stored.checkpoint.committedBatches ==> i in acked
  }

  ghost predicate LiveOk(work: seq<BatchDone>, y: World, c: Config, s: State) {
    && c.work == work && WellFormed(c) && Inv(c, s)
    && (forall i :: 1 <= i <= s.resume ==> i in y.acked)
    && (!c.checkpointed ==> s.stored == y.stored && s.taskOver)
  }

  ghost predicate WorldOk(work: seq<BatchDone>, y: World) {
    && Covered(work, y.stored, y.acked)
    && (y.run.Some? ==> LiveOk(work, y, y.run.value.c, y.run.value.s))
  }

  // A tracker in good order knows only of acknowledged batches.
  lemma MarkIsAcked(work: seq<BatchDone>, y: World, i: nat)
    requires WorldOk(work, y) && y.run.Some? && y.run.value.c.checkpointed
    requires 1 <= i <= Mark(y.run.value.s.tracker)
    ensures i in EverAcked(y)
  {
    var c, s := y.run.value.c, y.run.value.s;
    assert Conserved(c, s, Unreported(i));
  }

  // Main result: whatever has crashed, the checkpoint object, if it can be read,
  // names only batches the server acknowledged, and its totals are exactly theirs.
  lemma CheckpointIsTruthful(work: seq<BatchDone>, y: World)
    requires WorldOk(work, y)
    ensures Covered(work, OnStore(y), EverAcked(y))
  {
    if y.run.Some? && y.run.value.c.checkpointed && OnStore(y).Saved? {
      forall i | 1 <= i <= OnStore(y).checkpoint.committedBatches ensures i in EverAcked(y) {
        MarkIsAcked(work, y, i);
      }
    }
  }

  lemma StartKeepsWorld(work: seq<BatchDone>, y: World, e: Event)
    requires forall k :: 0 <= k < |work| ==> work[k].index == k + 1
    requires WorldOk(work, y) && e.StartRun? && Possible(work, y, e)
    ensures WorldOk(work, Happen(work, y, e))
  {
    BeginInv(Settings(work, e), y.stored);
  }

  lemma StepKeepsStored(c: Config, s: State, a: Action)
    requires Enabled(c, s, a) && Shape(c, s) && !c.checkpointed && s.taskOver
    ensures Next(c, s, a).stored == s.stored && Next(c, s, a).taskOver
  {
    if !a.Deliver? && !a.Finish? { TaskUntouched(c, s, a); }
  }

  lemma StepKeepsResume(c: Config, s: State, a: Action)
    requires Enabled(c, s, a)
    ensures Next(c, s, a).resume == s.resume
  {
    if !a.Deliver? && !a.Finish? { TaskUntouched(c, s, a); }
  }

  lemma StepKeepsWorld(work: seq<BatchDone>, y: World, a: Action)
    requires WorldOk(work, y) && Possible(work, y, StepRun(a))
    ensures WorldOk(work, Happen(work, y, StepRun(a)))
  {
    var c, s := y.run.value.c, y.run.value.s;
    InvStep(c, s, a);
    StepKeepsResume(c, s, a);
    if !c.checkpointed { StepKeepsStored(c, s, a); }
  }

  lemma {:induction false} WorldInvariant(work: seq<BatchDone>, y: World, events: seq<Event>)
    requires forall k :: 0 <= k < |work| ==> work[k].index == k + 1
    requires WorldOk(work, y) && CanHappen(work, y, events)
    ensures WorldOk(work, Outcome(work, y, events))
    decreases |events|
  {
    if events != [] {
      match events[0] {
        case StartRun(_, _, _, _) => StartKeepsWorld(work, y, events[0]);
        case StepRun(a) => StepKeepsWorld(work, y, a);
        case EndRun => CheckpointIsTruthful(work, y);
      }
      WorldInvariant(work, Happen(work, y, events[0]), events[1..]);
    }
  }

  // Main result: no run sends a batch at or below the mark it loaded.
  lemma NeverResent(c: Config, s: State)
    requires Inv(c, s)
    ensures forall i :: i in s.sent ==> s.resume < i <= |c.work|
  {
    forall i | i in s.sent ensures s.resume < i <= |c.work| {
      assert Conserved(c, s, Before(i));
    }
  }

  lemma ReportedByEnd(c: Config, s: State, i: nat)
    requires WellFormed(c) && Inv(c, s) && Succeeded(s) && c.checkpointed && s.resume < i <= |c.work|
    ensures Accounted(s.tracker, i)
  {
    OkExactly(c, s);
    NothingOnBoard(c, s, Unreported(i));
    assert Conserved(c, s, Unreported(i));
  }

  // The checkpoint of the whole input.
  function Everything(work: seq<BatchDone>): ImportCheckpoint {
    ImportCheckpoint(|work|, Documents(work, 0, |work|), Volume(work, 0, |work|))
  }

  // Main result: after a run that returns Ok the object says that every batch is
  // committed if and only if the last write the run made landed, or it made none. An
  // earlier write may have been lost or torn.
  lemma OkCheckpointExactly(c: Config, s: State)
    requires WellFormed(c) && Inv(c, s) && Succeeded(s) && c.checkpointed
    ensures s.tracker.state == Everything(c.work)
    ensures Load(s.stored) == Some(Everything(c.work)) <==> s.lastLanded
  {
    var next := Mark(s.tracker) + 1;
    if next <= |c.work| { ReportedByEnd(c, s, next); }
  }

  // Main result: any number of runs that crash anywhere, followed by one that
  // returns Ok, have had every batch acknowledged.
  lemma AtLeastOnce(work: seq<BatchDone>, events: seq<Event>)
    requires forall k :: 0 <= k < |work| ==> work[k].index == k + 1
    requires CanHappen(work, FRESH, events)
    requires var y := Outcome(work, FRESH, events); y.run.Some? && Succeeded(y.run.value.s)
    ensures forall i :: 1 <= i <= |work| ==> i in EverAcked(Outcome(work, FRESH, events))
  {
    var y := Outcome(work, FRESH, events);
    WorldInvariant(work, FRESH, events);
    OkExactly(y.run.value.c, y.run.value.s);
  }

  // The same for documents: each one was in the body of an acknowledged batch.
  lemma EveryDocumentAcknowledged(lines: seq<Line>, config: BatchConfig, events: seq<Event>, d: nat)
    requires var work := Reports(Batches(lines, config));
             && CanHappen(work, FRESH, events)
             && var y := Outcome(work, FRESH, events); y.run.Some? && Succeeded(y.run.value.s)
    requires d < |lines|
    ensures var acked := EverAcked(Outcome(Reports(Batches(lines, config)), FRESH, events));
            exists k :: 0 <= k < |Batches(lines, config)| && k + 1 in acked
                        && lines[d] in Groups(lines, config)[k]
                        && Batches(lines, config)[k].body == Body(Groups(lines, config)[k])
  {
    var work := Reports(Batches(lines, config));
    AtLeastOnce(work, events);
    EveryDocumentInSomeBatch(lines, config, d);
    var k :| 0 <= k < |Groups(lines, config)| && lines[d] in Groups(lines, config)[k]
             && Batches(lines, config)[k].body == Body(Groups(lines, config)[k]);
    assert 1 <= k + 1 <= |work|;
    assert k + 1 in EverAcked(Outcome(work, FRESH, events));
  }
}
