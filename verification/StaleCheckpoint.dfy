// A run that returns Ok and leaves a stale checkpoint: its only write is lost, and the
// checkpoint task does not try again.

module StaleCheckpoint {
  import opened Common
  import opened Checkpointing
  import opened Limiting
  import opened Pipeline
  import opened PipelineOutcomes

  // One batch, one worker.
  const ONE_BATCH := Config([BatchDone(1, 1, 2)], 1, 2, false, true)

  function Started(): State { Begin(ONE_BATCH, Absent) }

  ghost predicate Reached(s: State) { Reaches(ONE_BATCH, Started(), s) }

  lemma Step(s: State, a: Action, s': State)
    requires Reached(s) && Enabled(ONE_BATCH, s, a) && Next(ONE_BATCH, s, a) == s'
    ensures Reached(s')
  {
    ReachesNext(ONE_BATCH, Started(), s, a, s');
  }

  // The input has ended and the one batch is somewhere behind the producer.
  function Ended(queue: seq<nat>, worker: Phase, lock: Option<nat>): State {
    Started().(producer := Finished(false, 1), free := 0, queue := queue, workers := [worker], lock := lock)
  }

  // The batch holds the one slot.
  function Sent(worker: Phase): State {
    var s := Ended([], worker, None);
    s.(inner := s.inner.(inFlight := 1), sent := {1})
  }

  // The batch has been acknowledged and its slot given back.
  function Answer(worker: Phase, epoch: nat, summary: Summary, done: seq<nat>): State {
    var s := Sent(worker);
    s.(inner := s.inner.(inFlight := 0, rttCount := 1), acked := {1}, epoch := epoch, summary := summary, done := done)
  }

  // The report has been taken and its checkpoint lost.
  function Taken(worker: Phase, lock: Option<nat>): State {
    Answer(worker, 1, Summary(1, 1, 2), []).(
      free := 2, lock := lock, tracker := Tracker(ImportCheckpoint(1, 1, 2), map[], false), lastLanded := false)
  }

  lemma BatchIsQueued()
    ensures Reached(Ended([1], Waiting, None))
  {
    FirstQueued(ONE_BATCH);
    assert Started().workers == [Waiting];
    Step(Producing(ONE_BATCH, Reading(1), [1], 0), InputEnds, Ended([1], Waiting, None));
  }

  lemma BatchIsTaken()
    ensures Reached(Ended([], Acquiring(1), None))
  {
    BatchIsQueued();
    Step(Ended([1], Waiting, None), TakeLock(0), Ended([1], Receiving, Some(0)));
    Step(Ended([1], Receiving, Some(0)), Dequeue(0), Ended([], Acquiring(1), None));
  }

  lemma BatchIsSent()
    ensures Reached(Sent(Sending(1)))
  {
    BatchIsTaken();
    Step(Ended([], Acquiring(1), None), Register(0), Ended([], Registered(1, 0), None));
    Step(Ended([], Registered(1, 0), None), Claim(0), Sent(Sending(1)));
  }

  lemma BatchIsAccepted()
    ensures Reached(Answer(Notifying(1, true), 0, Summary(0, 0, 0), []))
  {
    BatchIsSent();
    Step(Sent(Sending(1)), Accept(0), Sent(Answered(1, true)).(acked := {1}));
    Step(Sent(Answered(1, true)).(acked := {1}), RecordSuccess(0, 0, false), Answer(Notifying(1, true), 0, Summary(0, 0, 0), []));
  }

  lemma BatchIsReported()
    ensures Reached(Answer(Releasing(1), 1, Summary(1, 1, 2), [1]))
  {
    BatchIsAccepted();
    Step(Answer(Notifying(1, true), 0, Summary(0, 0, 0), []), Notify(0), Answer(Reporting(1), 1, Summary(1, 1, 2), []));
    Step(Answer(Reporting(1), 1, Summary(1, 1, 2), []), Report(0), Answer(Releasing(1), 1, Summary(1, 1, 2), [1]));
  }

  // The tracker takes the one report.
  lemma TrackerMoves()
    ensures Receive(Tracker(ZERO, map[], false), BatchDone(1, 1, 2)) == Tracker(ImportCheckpoint(1, 1, 2), map[], true)
  {
    var t := Tracker(ZERO, map[1 := (1, 2)], false);
    assert Advance(t) == Tracker(ImportCheckpoint(1, 1, 2), map[], true);
    assert Drain(t) == Drain(Advance(t));
  }

  lemma CheckpointIsLost()
    ensures Reached(Taken(Waiting, None))
  {
    BatchIsReported();
    TrackerMoves();
    var s := Answer(Releasing(1), 1, Summary(1, 1, 2), [1]);
    Step(s, Release(0), s.(workers := [Waiting], free := 2));
    Step(s.(workers := [Waiting], free := 2), Deliver(true, Lost), Taken(Waiting, None));
  }

  lemma RunReturns()
    ensures Reached(Taken(Exited(true), None).(taskOver := true))
  {
    CheckpointIsLost();
    Step(Taken(Waiting, None), TakeLock(0), Taken(Receiving, Some(0)));
    Step(Taken(Receiving, Some(0)), Leave(0), Taken(Exited(true), None));
    Step(Taken(Exited(true), None), Finish(Lands), Taken(Exited(true), None).(taskOver := true));
  }

  // A run returns Ok, its batch was acknowledged, and the object still says nothing.
  lemma OkRunLeavesStaleCheckpoint()
    ensures exists actions :: CanRun(ONE_BATCH, Started(), actions)
              && var s := Run(ONE_BATCH, Started(), actions);
                 Succeeded(s) && s.acked == {1} && !s.lastLanded && Load(s.stored) == Some(ZERO)
  {
    RunReturns();
    var end := Taken(Exited(true), None).(taskOver := true);
    var actions :| CanRun(ONE_BATCH, Started(), actions) && Run(ONE_BATCH, Started(), actions) == end;
    assert Succeeded(end);
  }
}
