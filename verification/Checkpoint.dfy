// The checkpoint task: workers report finished batches out of order, and the tracker
// advances a contiguous high-water mark and writes it to one stored object.

module Checkpointing {
  import opened Common

  datatype ImportCheckpoint = ImportCheckpoint(
    committedBatches: nat,
    documentsCommitted: nat,
    bytesCommitted: nat)

  datatype BatchDone = BatchDone(index: nat, documents: nat, bytes: nat)

  // The checkpoint object as a reader finds it. A torn write leaves bytes that
  // do not parse.
  datatype Stored = Absent | Saved(checkpoint: ImportCheckpoint) | Torn

  // What becomes of one write of the object; the writer never learns which.
  datatype Write = Lands | Lost | Tears

  const ZERO := ImportCheckpoint(0, 0, 0)

  function Put(stored: Stored, checkpoint: ImportCheckpoint, write: Write): Stored {
    match write
    case Lands => Saved(checkpoint)
    case Lost => stored
    case Tears => Torn
  }

  // A missing object resumes from nothing; an unreadable one stops the run.
  function Load(stored: Stored): Option<ImportCheckpoint> {
    match stored
    case Absent => Some(ZERO)
    case Saved(checkpoint) => Some(checkpoint)
    case Torn => None
  }

  // --- the tracker as a value ------------------------------------------------

  datatype Tracker = Tracker(state: ImportCheckpoint, pending: map<nat, (nat, nat)>, dirty: bool)

  function Mark(t: Tracker): nat { t.state.committedBatches }

  // Moves the mark over one batch that is already pending.
  function Advance(t: Tracker): Tracker
    requires Mark(t) + 1 in t.pending
  {
    var next := Mark(t) + 1;
    var (documents, bytes) := t.pending[next];
    Tracker(
      ImportCheckpoint(next, t.state.documentsCommitted + documents, t.state.bytesCommitted + bytes),
      t.pending - {next}, true)
  }

  function Drain(t: Tracker): Tracker
    decreases |t.pending|
  {
    if Mark(t) + 1 in t.pending then Smaller(t); Drain(Advance(t)) else t
  }

  lemma Smaller(t: Tracker)
    requires Mark(t) + 1 in t.pending
    ensures |Advance(t).pending| < |t.pending|
  {
    var next := Mark(t) + 1;
    assert t.pending.Keys == Advance(t).pending.Keys + {next};
    assert |t.pending| == |t.pending.Keys| && |Advance(t).pending| == |Advance(t).pending.Keys|;
  }

  function Receive(t: Tracker, done: BatchDone): Tracker {
    Drain(t.(pending := t.pending[done.index := (done.documents, done.bytes)]))
  }

  // Does handling this message write the object?
  predicate Writes(t: Tracker, done: BatchDone, due: bool) { Receive(t, done).dirty && due }

  // One message, then a write if the interval has passed (`due`).
  function OnMessage(t: Tracker, stored: Stored, done: BatchDone, due: bool, write: Write): (Tracker, Stored) {
    var r := Receive(t, done);
    if r.dirty && due then (r.(dirty := false), Put(stored, r.state, write)) else (r, stored)
  }

  // The channel has closed: a last write if anything is unwritten.
  function OnClose(t: Tracker, stored: Stored, write: Write): Stored {
    if t.dirty then Put(stored, t.state, write) else stored
  }

  // --- what the mark means -----------------------------------------------------

  // The documents and bytes of the batches `from + 1 .. to`, where `work[i - 1]`
  // is the report for batch `i`.
  function Documents(work: seq<BatchDone>, from: nat, to: nat): nat
    requires to <= |work|
  {
    if to <= from then 0 else Documents(work, from, to - 1) + work[to - 1].documents
  }

  function Volume(work: seq<BatchDone>, from: nat, to: nat): nat
    requires to <= |work|
  {
    if to <= from then 0 else Volume(work, from, to - 1) + work[to - 1].bytes
  }

  predicate Honest(work: seq<BatchDone>, checkpoint: ImportCheckpoint) {
    && checkpoint.committedBatches <= |work|
    && checkpoint.documentsCommitted == Documents(work, 0, checkpoint.committedBatches)
    && checkpoint.bytesCommitted == Volume(work, 0, checkpoint.committedBatches)
  }

  // Pending entries are genuine reports, except possibly for the mark's successor
  // nothing pending is due, and the totals are those of the batches up to the mark.
  ghost predicate Sound(work: seq<BatchDone>, t: Tracker) {
    && Honest(work, t.state)
    && (forall i :: i in t.pending ==>
          Mark(t) < i <= |work| && t.pending[i] == (work[i - 1].documents, work[i - 1].bytes))
  }

  ghost predicate Settled(t: Tracker) { Mark(t) + 1 !in t.pending }

  // A batch is accounted for when it is at or below the mark, or waiting above it.
  predicate Accounted(t: Tracker, i: nat) { i <= Mark(t) || i in t.pending }

  lemma AdvanceFacts(work: seq<BatchDone>, t: Tracker)
    requires Sound(work, t) && Mark(t) + 1 in t.pending
    ensures Sound(work, Advance(t)) && forall i: nat :: Accounted(Advance(t), i) <==> Accounted(t, i)
  {
  }

  lemma {:induction false} DrainFacts(work: seq<BatchDone>, t: Tracker)
    requires Sound(work, t)
    ensures var r := Drain(t);
            && Sound(work, r) && Settled(r) && Mark(t) <= Mark(r)
            && (forall i: nat :: Accounted(r, i) <==> Accounted(t, i))
            && (r.dirty <==> t.dirty || Mark(r) > Mark(t))
            && (!r.dirty ==> r.state == t.state)
    decreases |t.pending|
  {
    if Mark(t) + 1 in t.pending {
      Smaller(t);
      AdvanceFacts(work, t);
      DrainFacts(work, Advance(t));
    }
  }

  // Main result for one message: after any report the mark is exactly the end of
  // the contiguous run of accounted batches and the totals are theirs.
  lemma ReceiveFacts(work: seq<BatchDone>, t: Tracker, i: nat)
    requires Sound(work, t) && Settled(t)
    requires 1 <= i <= |work| && work[i - 1].index == i && !Accounted(t, i)
    ensures var r := Receive(t, work[i - 1]);
            && Sound(work, r) && Settled(r) && Mark(t) <= Mark(r)
            && (forall j: nat :: Accounted(r, j) <==> Accounted(t, j) || j == i)
            && (forall j: nat :: j <= Mark(r) ==> Accounted(t, j) || j == i)
            && !(Accounted(t, Mark(r) + 1) || Mark(r) + 1 == i)
            && (r.dirty <==> t.dirty || Mark(r) > Mark(t))
            && (!r.dirty ==> r.state == t.state)
  {
    var u := t.(pending := t.pending[i := (work[i - 1].documents, work[i - 1].bytes)]);
    DrainFacts(work, u);
    var r := Drain(u);
    forall j: nat ensures Accounted(r, j) <==> Accounted(t, j) || j == i {
      assert Accounted(r, j) <==> Accounted(u, j);
    }
    assert !Accounted(r, Mark(r) + 1);
  }

  // What of it concerns the stored object.
  lemma ReceiveMoves(work: seq<BatchDone>, t: Tracker, i: nat)
    requires Sound(work, t) && Settled(t)
    requires 1 <= i <= |work| && work[i - 1].index == i && !Accounted(t, i)
    ensures var r := Receive(t, work[i - 1]);
            && Honest(work, r.state) && Mark(t) <= Mark(r)
            && (r.dirty <==> t.dirty || Mark(r) > Mark(t))
            && (!r.dirty ==> r.state == t.state)
  {
    ReceiveFacts(work, t, i);
  }

  // Folding a whole list of reports, in whatever order they arrive.
  function ReceiveAll(t: Tracker, work: seq<BatchDone>, order: seq<nat>): Tracker
    requires forall k :: 0 <= k < |order| ==> 1 <= order[k] <= |work|
    decreases |order|
  {
    if order == [] then t
    else ReceiveAll(Receive(t, work[order[0] - 1]), work, order[1..])
  }

  ghost predicate Numbered(work: seq<BatchDone>) {
    forall k :: 0 <= k < |work| ==> work[k].index == k + 1
  }

  lemma {:induction false} ReceiveAllFacts(work: seq<BatchDone>, t: Tracker, order: seq<nat>)
    requires Numbered(work) && Sound(work, t) && Settled(t)
    requires forall k :: 0 <= k < |order| ==> 1 <= order[k] <= |work| && !Accounted(t, order[k])
    requires forall j, k :: 0 <= j < k < |order| ==> order[j] != order[k]
    ensures var r := ReceiveAll(t, work, order);
            && Sound(work, r) && Settled(r)
            && (forall i: nat :: Accounted(r, i) <==> Accounted(t, i) || i in order)
    decreases |order|
  {
    if order != [] {
      ReceiveFacts(work, t, order[0]);
      var r := Receive(t, work[order[0] - 1]);
      assert forall k :: 0 <= k < |order[1..]| ==> order[1..][k] == order[k + 1];
      ReceiveAllFacts(work, r, order[1..]);
      assert forall i: nat :: i in order <==> i == order[0] || i in order[1..];
    }
  }

  // Main result: the tracker depends on which batches were reported, not on the
  // order in which the workers finished them.
  lemma OrderIsIrrelevant(work: seq<BatchDone>, t: Tracker, one: seq<nat>, other: seq<nat>)
    requires Numbered(work) && Sound(work, t) && Settled(t)
    requires forall k :: 0 <= k < |one| ==> 1 <= one[k] <= |work| && !Accounted(t, one[k])
    requires forall k :: 0 <= k < |other| ==> 1 <= other[k] <= |work| && !Accounted(t, other[k])
    requires forall j, k :: 0 <= j < k < |one| ==> one[j] != one[k]
    requires forall j, k :: 0 <= j < k < |other| ==> other[j] != other[k]
    requires forall i :: i in one <==> i in other
    ensures var a, b := ReceiveAll(t, work, one), ReceiveAll(t, work, other);
            a.state == b.state && a.pending == b.pending
  {
    ReceiveAllFacts(work, t, one);
    ReceiveAllFacts(work, t, other);
    var a, b := ReceiveAll(t, work, one), ReceiveAll(t, work, other);
    SameMark(a, b);
    assert forall i: nat :: Accounted(a, i) <==> Accounted(b, i);
    assert forall i: nat :: i in a.pending <==> Accounted(a, i) && Mark(a) < i;
    assert a.pending == b.pending;
  }

  lemma SameMark(a: Tracker, b: Tracker)
    requires Settled(a) && Settled(b)
    requires forall i: nat :: Accounted(a, i) <==> Accounted(b, i)
    ensures Mark(a) == Mark(b)
  {
    assert !Accounted(a, Mark(a) + 1) && !Accounted(b, Mark(b) + 1);
    assert Accounted(a, Mark(a)) && Accounted(b, Mark(b));
    assert Accounted(a, Mark(a) + 1) <==> Accounted(b, Mark(a) + 1);
    assert Accounted(a, Mark(b) + 1) <==> Accounted(b, Mark(b) + 1);
  }

  // --- the checkpoint task as code ----------------------------------------------------------

  class CheckpointTask {
    var nextExpected: nat
    var state: ImportCheckpoint
    var pending: map<nat, (nat, nat)>
    var dirty: bool
    var stored: Stored

    ghost predicate Valid()
      reads this
    {
      nextExpected == state.committedBatches + 1
    }

    ghost function Contents(): Tracker
      reads this
    {
      Tracker(state, pending, dirty)
    }

    constructor (resume: ImportCheckpoint, stored: Stored)
      ensures Valid() && Contents() == Tracker(resume, map[], false) && this.stored == stored
    {
      nextExpected := resume.committedBatches + 1;
      state := resume;
      pending := map[];
      dirty := false;
      this.stored := stored;
    }

    method Persist(write: Write)
      requires Valid()
      modifies this`stored
      ensures stored == Put(old(stored), state, write)
    {
      match write {
        case Lands => stored := Saved(state);
        case Lost =>
        case Tears => stored := Torn;
      }
    }

    // The inner loop: the mark moves over every batch that is already pending.
    method Advances()
      requires Valid()
      modifies this`nextExpected, this`state, this`pending, this`dirty
      ensures Valid() && Contents() == Drain(old(Contents()))
    {
      while nextExpected in pending
        invariant Valid()
        invariant Drain(Contents()) == Drain(old(Contents()))
        decreases |pending|
      {
        Smaller(Contents());
        var (documents, bytes) := pending[nextExpected];
        pending := pending - {nextExpected};
        state := ImportCheckpoint(nextExpected, state.documentsCommitted + documents, state.bytesCommitted + bytes);
        nextExpected := nextExpected + 1;
        dirty := true;
      }
    }

    // The body of the receive loop.
    method Handle(batch: BatchDone, due: bool, write: Write)
      requires Valid()
      modifies this
      ensures Valid()
      ensures (Contents(), stored) == OnMessage(old(Contents()), old(stored), batch, due, write)
    {
      pending := pending[batch.index := (batch.documents, batch.bytes)];
      Advances();
      if dirty && due {
        Persist(write);
        dirty := false;
      }
    }

    // After the last worker has gone.
    method Close(write: Write)
      requires Valid()
      modifies this
      ensures Valid() && stored == OnClose(old(Contents()), old(stored), write)
      ensures state == old(state)
    {
      if dirty { Persist(write); }
    }
  }
}
