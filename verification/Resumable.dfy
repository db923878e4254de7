// Restart-resumable uploads: fixed-size part objects and a completion marker
// written last, over a store whose writes may be cut short.

module ResumableUpload {
  import opened Common
  import opened Decimals

  datatype UploadState = UploadState(partSize: nat, totalSize: nat, parts: nat, complete: bool)

  // Part objects hold bytes; the marker holds the upload state as JSON, of which a
  // proper prefix does not parse.
  datatype Object = Data(bytes: Bytes) | Marker(state: UploadState) | TornMarker

  type Objects = map<string, Object>

  datatype UploadError = StorageFailed | ShortRead(part: nat) | NoUpload | InvalidState | Incomplete

  // What becomes of one write. A cut write fails after storing a prefix.
  datatype Fault = Written | Cut(kept: nat) | Refused

  // --- paths ------------------------------------------------------------------

  function StateObject(base: string): string { base + ".upload/" + "state.json" }

  function PartObject(base: string, index: nat): string { base + ".upload/" + (Padded(index, 8) + ".part") }

  // Parts of one upload never overwrite each other or the marker.
  lemma PathsDistinct(base: string, i: nat, j: nat)
    ensures PartObject(base, i) == PartObject(base, j) ==> i == j
    ensures PartObject(base, i) != StateObject(base)
  {
    var p := base + ".upload/";
    PaddedStartsWithDigit(i, 8);
    assert PartObject(base, i)[|p|] == Padded(i, 8)[0];
    assert StateObject(base)[|p|] == 's';
    if PartObject(base, i) == PartObject(base, j) {
      var a, b := Padded(i, 8) + ".part", Padded(j, 8) + ".part";
      assert PartObject(base, i)[|p|..] == a && PartObject(base, j)[|p|..] == b;
      assert a[..|a| - 5] == Padded(i, 8) && b[..|b| - 5] == Padded(j, 8);
      PaddedInjective(i, j, 8);
    }
  }

  // --- sources ------------------------------------------------------------------

  datatype Source = Source(length: nat, read: (nat, nat) -> Bytes)

  // The window an in-memory source returns.
  function Window(data: Bytes, offset: nat, length: nat): Bytes {
    var start := Min(offset, |data|);
    data[start..Min(start + length, |data|)]
  }

  ghost predicate Serves(source: Source, data: Bytes) {
    && source.length == |data|
    && forall offset: nat, length: nat :: source.read(offset, length) == Window(data, offset, length)
  }

  function PartCount(total: nat, partSize: nat): nat
    requires partSize >= 1
  {
    (total + partSize - 1) / partSize
  }

  // The product of index and part size, by addition.
  function Offset(index: nat, partSize: nat): nat {
    if index == 0 then 0 else Offset(index - 1, partSize) + partSize
  }

  function PartLength(total: nat, partSize: nat, index: nat): nat {
    var offset := Offset(index, partSize);
    if offset <= total then Min(total - offset, partSize) else 0
  }

  function PartData(data: Bytes, partSize: nat, index: nat): Bytes {
    Window(data, Offset(index, partSize), PartLength(|data|, partSize, index))
  }

  lemma {:induction false} OffsetIsProduct(index: nat, partSize: nat)
    ensures Offset(index, partSize) == index * partSize
  {
    if index > 0 {
      OffsetIsProduct(index - 1, partSize);
      assert index * partSize == (index - 1) * partSize + partSize;
    }
  }

  // --- the upload as a value -------------------------------------------------------

  function Truncated(content: Object, kept: nat): Object {
    match content
    case Data(bytes) => Data(bytes[..Min(kept, |bytes|)])
    case _ => TornMarker
  }

  function Put(objects: Objects, path: string, content: Object, fault: Fault): Objects {
    match fault
    case Written => objects[path := content]
    case Cut(kept) => objects[path := Truncated(content, kept)]
    case Refused => objects
  }

  // The plan of faults for one run: one entry a write, none beyond its end.
  function Next(faults: seq<Fault>): Fault { if faults == [] then Written else faults[0] }

  function Later(faults: seq<Fault>): seq<Fault> { if faults == [] then [] else faults[1..] }

  // A part is trusted when it is present at exactly the expected size.
  predicate Trusted(objects: Objects, path: string, size: nat) {
    path in objects && objects[path].Data? && |objects[path].bytes| == size
  }

  datatype Uploaded = Uploaded(objects: Objects, result: Result<UploadState, UploadError>)

  function FinalState(source: Source, partSize: nat): UploadState
    requires partSize >= 1
  {
    UploadState(partSize, source.length, PartCount(source.length, partSize), true)
  }

  function UploadFrom(objects: Objects, base: string, source: Source, partSize: nat, index: nat, faults: seq<Fault>): Uploaded
    requires partSize >= 1 && index <= PartCount(source.length, partSize)
    decreases PartCount(source.length, partSize) - index
  {
    if index == PartCount(source.length, partSize) then
      var state := FinalState(source, partSize);
      Uploaded(Put(objects, StateObject(base), Marker(state), Next(faults)),
               if Next(faults).Written? then Ok(state) else Err(StorageFailed))
    else
      var path, length := PartObject(base, index), PartLength(source.length, partSize, index);
      if Trusted(objects, path, length) then UploadFrom(objects, base, source, partSize, index + 1, faults)
      else
        var bytes := source.read(Offset(index, partSize), length);
        if |bytes| != length then Uploaded(objects, Err(ShortRead(index)))
        else
          var put := Put(objects, path, Data(bytes), Next(faults));
          if Next(faults).Written? then UploadFrom(put, base, source, partSize, index + 1, Later(faults))
          else Uploaded(put, Err(StorageFailed))
  }

  function Upload(objects: Objects, base: string, source: Source, partSize: nat, faults: seq<Fault>): Uploaded {
    UploadFrom(objects, base, source, Max(partSize, 1), 0, faults)
  }

  function OpenUpload(objects: Objects, base: string): Result<UploadState, UploadError> {
    var path := StateObject(base);
    if path !in objects then Err(NoUpload)
    else match objects[path]
      case Marker(state) => if state.complete then Ok(state) else Err(Incomplete)
      case _ => Err(InvalidState)
  }

  // The bytes of parts `index ..` in order; a missing part is an error.
  function ReadFrom(objects: Objects, base: string, index: nat, parts: nat): Result<Bytes, UploadError>
    decreases parts - index
  {
    if index >= parts then Ok([])
    else
      var path := PartObject(base, index);
      if path !in objects || !objects[path].Data? then Err(StorageFailed)
      else match ReadFrom(objects, base, index + 1, parts)
        case Err(e) => Err(e)
        case Ok(rest) => Ok(objects[path].bytes + rest)
  }

  // --- what crashes cannot break ------------------------------------------------------

  predicate PartRight(objects: Objects, base: string, data: Bytes, partSize: nat, i: nat) {
    var path := PartObject(base, i);
    path in objects && objects[path] == Data(PartData(data, partSize, i))
  }

  // Absent, or a prefix of the right bytes left by a cut write.
  predicate PartHonest(objects: Objects, base: string, data: Bytes, partSize: nat, i: nat) {
    var path := PartObject(base, i);
    path in objects ==> objects[path].Data? && objects[path].bytes <= PartData(data, partSize, i)
  }

  // Every part is honest, and a readable marker is the right one and means that
  // every part is there with the right bytes.
  ghost predicate Sound(objects: Objects, base: string, data: Bytes, partSize: nat)
    requires partSize >= 1
  {
    var parts := PartCount(|data|, partSize);
    && (forall i :: 0 <= i < parts ==> PartHonest(objects, base, data, partSize, i))
    && (StateObject(base) in objects && objects[StateObject(base)].Marker? ==>
          && objects[StateObject(base)].state == UploadState(partSize, |data|, parts, true)
          && forall i :: 0 <= i < parts ==> PartRight(objects, base, data, partSize, i))
  }

  lemma Euclid(a: nat, d: nat)
    requires d >= 1
    ensures (a / d) * d <= a < (a / d) * d + d
  {
  }

  lemma {:induction false} OffsetsGrow(i: nat, j: nat, partSize: nat)
    requires i <= j
    ensures Offset(i, partSize) <= Offset(j, partSize)
    decreases j
  {
    if i < j { OffsetsGrow(i, j - 1, partSize); }
  }

  // The parts tile the data: every part but the last is full, the last is not empty.
  lemma Tiling(total: nat, partSize: nat)
    requires partSize >= 1
    ensures var n := PartCount(total, partSize);
            && total <= Offset(n, partSize)
            && (n >= 1 ==> Offset(n - 1, partSize) < total)
            && (n == 0 ==> total == 0)
  {
    var n := PartCount(total, partSize);
    OffsetIsProduct(n, partSize);
    Euclid(total + partSize - 1, partSize);
    if n >= 1 { assert Offset(n, partSize) == Offset(n - 1, partSize) + partSize; }
  }

  lemma PartGeometry(total: nat, partSize: nat, index: nat)
    requires partSize >= 1 && index < PartCount(total, partSize)
    ensures Offset(index, partSize) < total
    ensures PartLength(total, partSize, index) == Min(total, Offset(index + 1, partSize)) - Offset(index, partSize)
  {
    Tiling(total, partSize);
    OffsetsGrow(index, PartCount(total, partSize) - 1, partSize);
    assert Offset(index + 1, partSize) == Offset(index, partSize) + partSize;
  }

  lemma PartDataLength(data: Bytes, partSize: nat, i: nat)
    requires partSize >= 1 && i < PartCount(|data|, partSize)
    ensures |PartData(data, partSize, i)| == PartLength(|data|, partSize, i)
  {
    PartGeometry(|data|, partSize, i);
  }

  ghost predicate RightBelow(objects: Objects, base: string, data: Bytes, partSize: nat, index: nat) {
    forall i :: 0 <= i < index ==> PartRight(objects, base, data, partSize, i)
  }

  // Writing one part with the right bytes, however the write ends, keeps soundness.
  lemma PutPartSound(objects: Objects, base: string, data: Bytes, partSize: nat, i: nat, fault: Fault)
    requires partSize >= 1 && i < PartCount(|data|, partSize) && Sound(objects, base, data, partSize)
    requires !Trusted(objects, PartObject(base, i), PartLength(|data|, partSize, i))
    ensures Sound(Put(objects, PartObject(base, i), Data(PartData(data, partSize, i)), fault), base, data, partSize)
  {
    var after := Put(objects, PartObject(base, i), Data(PartData(data, partSize, i)), fault);
    PartDataLength(data, partSize, i);
    PathsDistinct(base, i, i);
    assert !PartRight(objects, base, data, partSize, i);
    forall k | 0 <= k < PartCount(|data|, partSize) ensures PartHonest(after, base, data, partSize, k) {
      PathsDistinct(base, i, k);
      assert PartHonest(objects, base, data, partSize, k);
    }
  }

  lemma PutPartKeepsRight(objects: Objects, base: string, data: Bytes, partSize: nat, i: nat, fault: Fault)
    requires RightBelow(objects, base, data, partSize, i)
    ensures var put := Put(objects, PartObject(base, i), Data(PartData(data, partSize, i)), fault);
            && RightBelow(put, base, data, partSize, i)
            && (fault.Written? ==> RightBelow(put, base, data, partSize, i + 1))
  {
    var put := Put(objects, PartObject(base, i), Data(PartData(data, partSize, i)), fault);
    forall k | 0 <= k < i ensures PartRight(put, base, data, partSize, k) {
      PathsDistinct(base, i, k);
      assert PartRight(objects, base, data, partSize, k);
    }
  }

  lemma PutMarkerSound(objects: Objects, base: string, data: Bytes, partSize: nat, fault: Fault)
    requires partSize >= 1 && Sound(objects, base, data, partSize)
    requires RightBelow(objects, base, data, partSize, PartCount(|data|, partSize))
    ensures var state := UploadState(partSize, |data|, PartCount(|data|, partSize), true);
            Sound(Put(objects, StateObject(base), Marker(state), fault), base, data, partSize)
  {
    var state := UploadState(partSize, |data|, PartCount(|data|, partSize), true);
    var after := Put(objects, StateObject(base), Marker(state), fault);
    forall k | 0 <= k < PartCount(|data|, partSize)
      ensures PartHonest(after, base, data, partSize, k) && PartRight(after, base, data, partSize, k)
    {
      PathsDistinct(base, k, k);
      assert PartHonest(objects, base, data, partSize, k) && PartRight(objects, base, data, partSize, k);
    }
  }

  lemma TrustedIsRight(objects: Objects, base: string, data: Bytes, partSize: nat, i: nat)
    requires partSize >= 1 && i < PartCount(|data|, partSize) && PartHonest(objects, base, data, partSize, i)
    requires Trusted(objects, PartObject(base, i), PartLength(|data|, partSize, i))
    ensures PartRight(objects, base, data, partSize, i)
  {
    PartDataLength(data, partSize, i);
  }

  // Main result for one run: whatever writes are cut or refused, the store stays
  // sound, and a run that returns Ok has completed the upload.
  lemma {:induction false} UploadKeepsSound(
    objects: Objects, base: string, source: Source, data: Bytes, partSize: nat, index: nat, faults: seq<Fault>)
    requires partSize >= 1 && Serves(source, data) && index <= PartCount(|data|, partSize)
    requires Sound(objects, base, data, partSize)
    requires RightBelow(objects, base, data, partSize, index)
    ensures var u := UploadFrom(objects, base, source, partSize, index, faults);
            && Sound(u.objects, base, data, partSize)
            && (u.result.Ok? ==> OpenUpload(u.objects, base) == u.result && u.result.value == FinalState(source, partSize))
    decreases PartCount(|data|, partSize) - index
  {
    if index == PartCount(|data|, partSize) {
      PutMarkerSound(objects, base, data, partSize, Next(faults));
    } else if Trusted(objects, PartObject(base, index), PartLength(|data|, partSize, index)) {
      assert PartHonest(objects, base, data, partSize, index);
      TrustedIsRight(objects, base, data, partSize, index);
      UploadKeepsSound(objects, base, source, data, partSize, index + 1, faults);
    } else {
      PartDataLength(data, partSize, index);
      PutPartSound(objects, base, data, partSize, index, Next(faults));
      PutPartKeepsRight(objects, base, data, partSize, index, Next(faults));
      if Next(faults).Written? {
        var put := objects[PartObject(base, index) := Data(PartData(data, partSize, index))];
        UploadKeepsSound(put, base, source, data, partSize, index + 1, Later(faults));
      }
    }
  }

  // Any number of runs with the same source and part size, each with its own faults.
  function UploadAgain(objects: Objects, base: string, source: Source, partSize: nat, runs: seq<seq<Fault>>): Objects
    decreases |runs|
  {
    if runs == [] then objects
    else UploadAgain(Upload(objects, base, source, partSize, runs[0]).objects, base, source, partSize, runs[1..])
  }

  ghost predicate NothingThere(objects: Objects, base: string) {
    StateObject(base) !in objects && forall i: nat :: PartObject(base, i) !in objects
  }

  lemma {:induction false} RunsKeepSound(objects: Objects, base: string, source: Source, data: Bytes, partSize: nat, runs: seq<seq<Fault>>)
    requires Serves(source, data) && Sound(objects, base, data, Max(partSize, 1))
    ensures Sound(UploadAgain(objects, base, source, partSize, runs), base, data, Max(partSize, 1))
    decreases |runs|
  {
    if runs != [] {
      UploadKeepsSound(objects, base, source, data, Max(partSize, 1), 0, runs[0]);
      RunsKeepSound(Upload(objects, base, source, partSize, runs[0]).objects, base, source, data, partSize, runs[1..]);
    }
  }

  // What is left of the data from part `index` on.
  function Rest(data: Bytes, partSize: nat, index: nat): Bytes { data[Min(Offset(index, partSize), |data|)..] }

  lemma RestSplits(data: Bytes, partSize: nat, index: nat)
    requires partSize >= 1 && index < PartCount(|data|, partSize)
    ensures Rest(data, partSize, index) == PartData(data, partSize, index) + Rest(data, partSize, index + 1)
  {
    PartGeometry(|data|, partSize, index);
  }

  lemma RestEnds(data: Bytes, partSize: nat)
    requires partSize >= 1
    ensures Rest(data, partSize, PartCount(|data|, partSize)) == []
  {
    Tiling(|data|, partSize);
  }

  // Reading right parts in order rebuilds the source.
  lemma {:induction false} RightPartsRead(objects: Objects, base: string, data: Bytes, partSize: nat, index: nat)
    requires partSize >= 1 && index <= PartCount(|data|, partSize)
    requires RightBelow(objects, base, data, partSize, PartCount(|data|, partSize))
    ensures ReadFrom(objects, base, index, PartCount(|data|, partSize)) == Ok(Rest(data, partSize, index))
    decreases PartCount(|data|, partSize) - index
  {
    if index == PartCount(|data|, partSize) {
      RestEnds(data, partSize);
    } else {
      RightPartsRead(objects, base, data, partSize, index + 1);
      RestSplits(data, partSize, index);
      assert PartRight(objects, base, data, partSize, index);
    }
  }

  // Main result: after any crashes and re-runs, if the upload can be opened then
  // reading it gives back the source.
  lemma OpenedReadsSource(base: string, source: Source, data: Bytes, partSize: nat, objects: Objects, runs: seq<seq<Fault>>)
    requires Serves(source, data) && NothingThere(objects, base)
    ensures var after := UploadAgain(objects, base, source, partSize, runs);
            OpenUpload(after, base).Ok? ==>
              && OpenUpload(after, base).value == UploadState(Max(partSize, 1), |data|, PartCount(|data|, Max(partSize, 1)), true)
              && ReadFrom(after, base, 0, OpenUpload(after, base).value.parts) == Ok(data)
  {
    RunsKeepSound(objects, base, source, data, partSize, runs);
    var after := UploadAgain(objects, base, source, partSize, runs);
    if OpenUpload(after, base).Ok? {
      RightPartsRead(after, base, data, Max(partSize, 1), 0);
      assert Rest(data, Max(partSize, 1), 0) == data;
    }
  }

  // --- when is a completed upload right? ------------------------------------------------

  // What the caller can check beforehand: no object already at a part's path has
  // the size of that part but other bytes.
  predicate NoImpostor(objects: Objects, base: string, data: Bytes, partSize: nat, i: nat) {
    Trusted(objects, PartObject(base, i), PartLength(|data|, partSize, i)) ==> PartRight(objects, base, data, partSize, i)
  }

  // What part `i` will be after an upload that has passed the parts below `index`.
  predicate Fate(objects: Objects, base: string, data: Bytes, partSize: nat, index: nat, i: nat) {
    if i < index then PartRight(objects, base, data, partSize, i) else NoImpostor(objects, base, data, partSize, i)
  }

  lemma FateAfterPut(objects: Objects, base: string, data: Bytes, partSize: nat, index: nat, i: nat)
    requires !Trusted(objects, PartObject(base, index), PartLength(|data|, partSize, index))
    ensures var put := objects[PartObject(base, index) := Data(PartData(data, partSize, index))];
            && (Fate(put, base, data, partSize, index + 1, i) <==> Fate(objects, base, data, partSize, index, i))
            && (i != index ==> (Trusted(put, PartObject(base, i), PartLength(|data|, partSize, i)) <==>
                                Trusted(objects, PartObject(base, i), PartLength(|data|, partSize, i))))
  {
    PathsDistinct(base, i, index);
  }

  // After an undisturbed upload each part has its size, and is right unless an
  // impostor was there before.
  lemma {:induction false} PartsAfterUpload(
    objects: Objects, base: string, source: Source, data: Bytes, partSize: nat, index: nat, i: nat)
    requires partSize >= 1 && Serves(source, data) && index <= PartCount(|data|, partSize) && i < PartCount(|data|, partSize)
    requires i < index ==> Trusted(objects, PartObject(base, i), PartLength(|data|, partSize, i))
    ensures var u := UploadFrom(objects, base, source, partSize, index, []);
            && u.result == Ok(FinalState(source, partSize))
            && Trusted(u.objects, PartObject(base, i), PartLength(|data|, partSize, i))
            && (PartRight(u.objects, base, data, partSize, i) <==> Fate(objects, base, data, partSize, index, i))
    decreases PartCount(|data|, partSize) - index
  {
    if index == PartCount(|data|, partSize) {
      PathsDistinct(base, i, i);
    } else {
      PartDataLength(data, partSize, index);
      if Trusted(objects, PartObject(base, index), PartLength(|data|, partSize, index)) {
        PartsAfterUpload(objects, base, source, data, partSize, index + 1, i);
      } else {
        FateAfterPut(objects, base, data, partSize, index, i);
        var put := objects[PartObject(base, index) := Data(PartData(data, partSize, index))];
        PartsAfterUpload(put, base, source, data, partSize, index + 1, i);
      }
    }
  }

  ghost predicate SizedParts(objects: Objects, base: string, total: nat, partSize: nat)
    requires partSize >= 1
  {
    forall k :: 0 <= k < PartCount(total, partSize) ==> Trusted(objects, PartObject(base, k), PartLength(total, partSize, k))
  }

  // Parts of the right sizes read back as the source only if each one is right.
  lemma {:induction false} ReadsSourceOnlyIfRight(objects: Objects, base: string, data: Bytes, partSize: nat, index: nat, i: nat)
    requires partSize >= 1 && index <= i < PartCount(|data|, partSize)
    requires SizedParts(objects, base, |data|, partSize)
    requires ReadFrom(objects, base, index, PartCount(|data|, partSize)) == Ok(Rest(data, partSize, index))
    ensures PartRight(objects, base, data, partSize, i)
    decreases i - index
  {
    var path := PartObject(base, index);
    assert Trusted(objects, path, PartLength(|data|, partSize, index));
    RestSplits(data, partSize, index);
    PartDataLength(data, partSize, index);
    var rest := ReadFrom(objects, base, index + 1, PartCount(|data|, partSize));
    SameSplit(objects[path].bytes, rest.value, PartData(data, partSize, index), Rest(data, partSize, index + 1));
    if i > index { ReadsSourceOnlyIfRight(objects, base, data, partSize, index + 1, i); }
  }

  lemma SameSplit(a: Bytes, b: Bytes, c: Bytes, d: Bytes)
    requires a + b == c + d && |a| == |c|
    ensures a == c && b == d
  {
    assert (a + b)[..|a|] == a && (c + d)[..|c|] == c;
    assert (a + b)[|a|..] == b && (c + d)[|c|..] == d;
  }

  ghost predicate NoImpostors(objects: Objects, base: string, data: Bytes, partSize: nat)
    requires partSize >= 1
  {
    forall i :: 0 <= i < PartCount(|data|, partSize) ==> NoImpostor(objects, base, data, partSize, i)
  }

  lemma RightAfterUpload(objects: Objects, base: string, source: Source, data: Bytes, partSize: nat)
    requires partSize >= 1 && Serves(source, data)
    ensures var u := UploadFrom(objects, base, source, partSize, 0, []);
            && SizedParts(u.objects, base, |data|, partSize)
            && (RightBelow(u.objects, base, data, partSize, PartCount(|data|, partSize)) <==> NoImpostors(objects, base, data, partSize))
  {
    var u := UploadFrom(objects, base, source, partSize, 0, []);
    forall i | 0 <= i < PartCount(|data|, partSize)
      ensures Trusted(u.objects, PartObject(base, i), PartLength(|data|, partSize, i))
      ensures PartRight(u.objects, base, data, partSize, i) <==> NoImpostor(objects, base, data, partSize, i)
    {
      PartsAfterUpload(objects, base, source, data, partSize, 0, i);
    }
  }

  lemma ReadsSourceExactly(objects: Objects, base: string, data: Bytes, partSize: nat)
    requires partSize >= 1 && SizedParts(objects, base, |data|, partSize)
    ensures ReadFrom(objects, base, 0, PartCount(|data|, partSize)) == Ok(data)
       <==> RightBelow(objects, base, data, partSize, PartCount(|data|, partSize))
  {
    assert Rest(data, partSize, 0) == data;
    if RightBelow(objects, base, data, partSize, PartCount(|data|, partSize)) {
      RightPartsRead(objects, base, data, partSize, 0);
    }
    if ReadFrom(objects, base, 0, PartCount(|data|, partSize)) == Ok(data) {
      forall i | 0 <= i < PartCount(|data|, partSize) ensures PartRight(objects, base, data, partSize, i) {
        ReadsSourceOnlyIfRight(objects, base, data, partSize, 0, i);
      }
    }
  }

  // Main result: an upload onto any store, with nothing going wrong, can be opened,
  // and reads back as the source exactly when there was no impostor part before.
  lemma UploadRightExactly(objects: Objects, base: string, source: Source, data: Bytes, partSize: nat)
    requires partSize >= 1 && Serves(source, data)
    ensures var u := Upload(objects, base, source, partSize, []);
            var parts := PartCount(|data|, partSize);
            && OpenUpload(u.objects, base) == Ok(UploadState(partSize, |data|, parts, true))
            && (ReadFrom(u.objects, base, 0, parts) == Ok(data) <==> NoImpostors(objects, base, data, partSize))
  {
    UploadOpens(objects, base, source, data, partSize, 0);
    RightAfterUpload(objects, base, source, data, partSize);
    ReadsSourceExactly(UploadFrom(objects, base, source, partSize, 0, []).objects, base, data, partSize);
  }

  // For instance a source of one byte whose part object holds another byte.
  lemma ImpostorStays(objects: Objects, base: string, source: Source, a: Byte, b: Byte)
    requires Serves(source, [a]) && a != b
    requires PartObject(base, 0) in objects && objects[PartObject(base, 0)] == Data([b])
    ensures ReadFrom(Upload(objects, base, source, 1, []).objects, base, 0, 1) != Ok([a])
  {
    assert Window([a], 0, 1) == [a];
    assert PartCount(|[a]|, 1) == 1 && PartData([a], 1, 0) == [a];
    assert [a][0] != [b][0] && !NoImpostor(objects, base, [a], 1, 0);
    UploadRightExactly(objects, base, source, [a], 1);
  }

  lemma {:induction false} UploadOpens(objects: Objects, base: string, source: Source, data: Bytes, partSize: nat, index: nat)
    requires partSize >= 1 && Serves(source, data) && index <= PartCount(|data|, partSize)
    ensures var u := UploadFrom(objects, base, source, partSize, index, []);
            OpenUpload(u.objects, base) == Ok(FinalState(source, partSize))
    decreases PartCount(|data|, partSize) - index
  {
    if index < PartCount(|data|, partSize) {
      PartDataLength(data, partSize, index);
      if Trusted(objects, PartObject(base, index), PartLength(|data|, partSize, index)) {
        UploadOpens(objects, base, source, data, partSize, index + 1);
      } else {
        var put := objects[PartObject(base, index) := Data(PartData(data, partSize, index))];
        UploadOpens(put, base, source, data, partSize, index + 1);
      }
    }
  }

  // --- the upload as code --------------------------------------------------------------

  class ObjectStore {
    var objects: Objects

    method PutStream(path: string, content: Object, fault: Fault) returns (ok: bool)
      modifies this
      ensures objects == Put(old(objects), path, content, fault) && (ok <==> fault.Written?)
    {
      match fault {
        case Written =>
          objects := objects[path := content];
          ok := true;
        case Cut(kept) =>
          objects := objects[path := Truncated(content, kept)];
          ok := false;
        case Refused => ok := false;
      }
    }

    method Head(path: string) returns (size: Option<nat>)
      ensures size == if path in objects && objects[path].Data? then Some(|objects[path].bytes|) else None
    {
      if path in objects && objects[path].Data? { size := Some(|objects[path].bytes|); } else { size := None; }
    }
  }

  method UploadResumable(store: ObjectStore, base: string, source: Source, partSize: nat, faults: seq<Fault>)
    returns (result: Result<UploadState, UploadError>)
    modifies store
    ensures Uploaded(store.objects, result) == Upload(old(store.objects), base, source, partSize, faults)
  {
    var partSize: nat := Max(partSize, 1);
    var total := source.length;
    var parts := PartCount(total, partSize);
    var plan := faults;
    ghost var target := Upload(store.objects, base, source, partSize, faults);
    var index := 0;
    while index < parts
      invariant 0 <= index <= parts
      invariant UploadFrom(store.objects, base, source, partSize, index, plan) == target
    {
      var offset := index * partSize;
      OffsetIsProduct(index, partSize);
      assert offset == Offset(index, partSize);
      var thisLength: nat := PartLength(total, partSize, index);
      var path := PartObject(base, index);
      var size := store.Head(path);
      if size != Some(thisLength) {
        var bytes := source.read(offset, thisLength);
        if |bytes| != thisLength { return Err(ShortRead(index)); }
        var ok := store.PutStream(path, Data(bytes), Next(plan));
        if !ok { return Err(StorageFailed); }
        plan := Later(plan);
      }
      index := index + 1;
    }
    var state := UploadState(partSize, total, parts, true);
    var ok := store.PutStream(StateObject(base), Marker(state), Next(plan));
    if !ok { return Err(StorageFailed); }
    return Ok(state);
  }

  method ReadResumable(store: ObjectStore, base: string, parts: nat) returns (result: Result<Bytes, UploadError>)
    ensures result == ReadFrom(store.objects, base, 0, parts)
  {
    var out: Bytes := [];
    var index := 0;
    ghost var whole := ReadFrom(store.objects, base, 0, parts);
    if whole.Ok? { assert [] + whole.value == whole.value; }
    while index < parts
      invariant 0 <= index <= parts
      invariant match ReadFrom(store.objects, base, index, parts)
                case Err(e) => ReadFrom(store.objects, base, 0, parts) == Err(e)
                case Ok(rest) => ReadFrom(store.objects, base, 0, parts) == Ok(out + rest)
    {
      var path := PartObject(base, index);
      if path !in store.objects || !store.objects[path].Data? { return Err(StorageFailed); }
      ghost var before := out;
      out := out + store.objects[path].bytes;
      ghost var rest := ReadFrom(store.objects, base, index + 1, parts);
      if rest.Ok? { assert before + (store.objects[path].bytes + rest.value) == out + rest.value; }
      index := index + 1;
    }
    assert out + [] == out;
    return Ok(out);
  }
}
