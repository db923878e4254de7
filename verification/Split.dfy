// Export framing: the streaming encoders and the split export, whose parts are
// each a complete document, together with what the import readers make of them.

module Splitting {
  import opened Common
  import opened Json
  import opened JsonText
  import opened ArrayScanning

  // CSV framing is opaque: a header and a row for each document.
  datatype Format = JsonLines | JsonArray | Csv(header: Bytes, row: Value -> Bytes)

  // --- one part as a value ------------------------------------------------------

  function LinesText(values: seq<Value>): Bytes {
    if values == [] then [] else Text(values[0]) + [LINE_FEED] + LinesText(values[1..])
  }

  function RowsText(row: Value -> Bytes, values: seq<Value>): Bytes {
    if values == [] then [] else row(values[0]) + RowsText(row, values[1..])
  }

  // The bytes of a part that holds `values`, before it is closed.
  function Opened(format: Format, values: seq<Value>): Bytes {
    match format
    case JsonLines => LinesText(values)
    case JsonArray => [OPEN_BRACKET] + ItemsText(values)
    case Csv(header, row) => header + RowsText(row, values)
  }

  function Closing(format: Format): Bytes { if format.JsonArray? then [CLOSE_BRACKET] else [] }

  function PartText(format: Format, values: seq<Value>): Bytes { Opened(format, values) + Closing(format) }

  // What one more record adds to an open part.
  function RecordText(format: Format, first: bool, v: Value): Bytes {
    match format
    case JsonLines => Text(v) + [LINE_FEED]
    case JsonArray => (if first then [] else [COMMA]) + Text(v)
    case Csv(_, row) => row(v)
  }

  lemma {:induction false} LinesSnoc(values: seq<Value>, v: Value)
    ensures LinesText(values + [v]) == LinesText(values) + (Text(v) + [LINE_FEED])
  {
    if values == [] {
      assert values + [v] == [v] && [v][1..] == [];
    } else {
      assert (values + [v])[1..] == values[1..] + [v];
      LinesSnoc(values[1..], v);
    }
  }

  lemma {:induction false} RowsSnoc(row: Value -> Bytes, values: seq<Value>, v: Value)
    ensures RowsText(row, values + [v]) == RowsText(row, values) + row(v)
  {
    if values == [] {
      assert values + [v] == [v] && [v][1..] == [];
    } else {
      assert (values + [v])[1..] == values[1..] + [v];
      RowsSnoc(row, values[1..], v);
    }
  }

  lemma {:induction false} ItemsSnoc(values: seq<Value>, v: Value)
    ensures ItemsText(values + [v]) == ItemsText(values) + ((if values == [] then [] else [COMMA]) + Text(v))
  {
    if values == [] {
      assert values + [v] == [v];
    } else {
      assert (values + [v])[1..] == values[1..] + [v];
      ItemsSnoc(values[1..], v);
      if |values| == 1 { assert values[1..] == [] && ItemsText([v]) == Text(v); }
    }
  }

  lemma OpenedSnoc(format: Format, values: seq<Value>, v: Value)
    ensures Opened(format, values + [v]) == Opened(format, values) + RecordText(format, values == [], v)
  {
    match format
    case JsonLines => LinesSnoc(values, v);
    case JsonArray => ItemsSnoc(values, v);
    case Csv(_, row) => RowsSnoc(row, values, v);
  }

  lemma {:induction false} OpenedGrows(format: Format, values: seq<Value>, k: nat)
    requires k <= |values|
    ensures |Opened(format, values[..k])| <= |Opened(format, values)|
    decreases |values|
  {
    if k == |values| {
      assert values[..k] == values;
    } else {
      var n := |values| - 1;
      assert values == values[..n] + [values[n]];
      OpenedSnoc(format, values[..n], values[n]);
      OpenedGrows(format, values[..n], k);
      assert values[..n][..k] == values[..k];
    }
  }

  // --- the split, declaratively -----------------------------------------------------

  predicate Reached(format: Format, threshold: nat, group: seq<Value>) { |Opened(format, group)| >= threshold }

  // A part of two or more records had not reached the threshold before its last.
  predicate CutInTime(format: Format, threshold: nat, group: seq<Value>) {
    |group| >= 2 ==> !Reached(format, threshold, group[..|group| - 1])
  }

  // `groups` are the documents of each part: all of them in order, an empty export
  // being one empty part, and every part but the last has reached the threshold.
  ghost predicate IsSplit(values: seq<Value>, format: Format, threshold: nat, groups: seq<seq<Value>>) {
    && Flatten(groups) == values
    && (values == [] ==> groups == [[]])
    && (values != [] ==> forall k :: 0 <= k < |groups| ==> groups[k] != [])
    && (forall k :: 0 <= k < |groups| - 1 ==> Reached(format, threshold, groups[k]))
    && (forall k :: 0 <= k < |groups| ==> CutInTime(format, threshold, groups[k]))
  }

  // --- the split, computed ------------------------------------------------------------

  function SplitFrom(open: seq<Value>, values: seq<Value>, format: Format, threshold: nat): seq<seq<Value>>
    decreases |values|
  {
    if values == [] then
      if open == [] then [] else [open]
    else
      var more := open + [values[0]];
      if Reached(format, threshold, more) then [more] + SplitFrom([], values[1..], format, threshold)
      else SplitFrom(more, values[1..], format, threshold)
  }

  function Split(values: seq<Value>, format: Format, threshold: nat): seq<seq<Value>> {
    if values == [] then [[]] else SplitFrom([], values, format, threshold)
  }

  // Groups that start with the open records and obey the rules of the split.
  ghost predicate Continues(open: seq<Value>, format: Format, threshold: nat, groups: seq<seq<Value>>) {
    && (open != [] ==> groups != [] && open <= groups[0])
    && (forall k :: 0 <= k < |groups| ==> groups[k] != [])
    && (forall k :: 0 <= k < |groups| - 1 ==> Reached(format, threshold, groups[k]))
    && (forall k :: 0 <= k < |groups| ==> CutInTime(format, threshold, groups[k]))
  }

  lemma ContinuesCons(open: seq<Value>, first: seq<Value>, format: Format, threshold: nat, rest: seq<seq<Value>>)
    requires open <= first && first != [] && CutInTime(format, threshold, first) && Reached(format, threshold, first)
    requires Continues([], format, threshold, rest)
    ensures Continues(open, format, threshold, [first] + rest)
    ensures Flatten([first] + rest) == first + Flatten(rest)
  {
    var g := [first] + rest;
    assert g[1..] == rest;
    assert forall k :: 0 < k < |g| ==> g[k] == rest[k - 1];
  }

  lemma ContinuesTail(open: seq<Value>, format: Format, threshold: nat, groups: seq<seq<Value>>)
    requires Continues(open, format, threshold, groups) && groups != []
    ensures Continues([], format, threshold, groups[1..])
    ensures Flatten(groups) == groups[0] + Flatten(groups[1..])
  {
    assert forall k :: 0 <= k < |groups[1..]| ==> groups[1..][k] == groups[k + 1];
  }

  // Groups of the open records and these values that obey the rules.
  ghost predicate SplitsAs(open: seq<Value>, values: seq<Value>, format: Format, threshold: nat, groups: seq<seq<Value>>) {
    Flatten(groups) == open + values && Continues(open, format, threshold, groups)
  }

  lemma OpenIsCutInTime(open: seq<Value>, format: Format, threshold: nat)
    requires !Reached(format, threshold, open)
    ensures CutInTime(format, threshold, open)
  {
    if |open| >= 2 { OpenedGrows(format, open, |open| - 1); }
  }

  lemma MoreIsCutInTime(open: seq<Value>, v: Value, format: Format, threshold: nat)
    requires open == [] || !Reached(format, threshold, open)
    ensures CutInTime(format, threshold, open + [v])
  {
    assert (open + [v])[..|open|] == open;
  }

  lemma FlattenOne(group: seq<Value>)
    ensures Flatten([group]) == group
  {
    assert Flatten([group]) == group + Flatten([group][1..]) && [group][1..] == [];
  }

  lemma SplitEnds(open: seq<Value>, format: Format, threshold: nat)
    requires open == [] || !Reached(format, threshold, open)
    ensures SplitsAs(open, [], format, threshold, if open == [] then [] else [open])
  {
    assert open + [] == open;
    if open != [] {
      FlattenOne(open);
      OpenIsCutInTime(open, format, threshold);
    }
  }

  lemma SplitCuts(open: seq<Value>, v: Value, values: seq<Value>, format: Format, threshold: nat, rest: seq<seq<Value>>)
    requires (open == [] || !Reached(format, threshold, open)) && Reached(format, threshold, open + [v])
    requires SplitsAs([], values, format, threshold, rest)
    ensures SplitsAs(open, [v] + values, format, threshold, [open + [v]] + rest)
  {
    MoreIsCutInTime(open, v, format, threshold);
    ContinuesCons(open, open + [v], format, threshold, rest);
    MovesOver(open, v, values);
  }

  lemma MovesOver(open: seq<Value>, v: Value, values: seq<Value>)
    ensures open + [v] + ([] + values) == open + ([v] + values)
  {
  }

  lemma SplitGoesOn(open: seq<Value>, v: Value, values: seq<Value>, format: Format, threshold: nat, groups: seq<seq<Value>>)
    requires SplitsAs(open + [v], values, format, threshold, groups)
    ensures SplitsAs(open, [v] + values, format, threshold, groups)
  {
    assert open + ([v] + values) == open + [v] + values && open <= open + [v];
  }

  lemma {:induction false} SplitFromContinues(open: seq<Value>, values: seq<Value>, format: Format, threshold: nat)
    requires open == [] || !Reached(format, threshold, open)
    ensures SplitsAs(open, values, format, threshold, SplitFrom(open, values, format, threshold))
    decreases |values|
  {
    if values == [] {
      SplitEnds(open, format, threshold);
    } else {
      var v, more := values[0], open + [values[0]];
      assert values == [v] + values[1..];
      if Reached(format, threshold, more) {
        SplitFromContinues([], values[1..], format, threshold);
        SplitCuts(open, v, values[1..], format, threshold, SplitFrom([], values[1..], format, threshold));
      } else {
        SplitFromContinues(more, values[1..], format, threshold);
        SplitGoesOn(open, v, values[1..], format, threshold, SplitFrom(more, values[1..], format, threshold));
      }
    }
  }

  // The next value belongs to the first group.
  lemma NextInFirst(open: seq<Value>, values: seq<Value>, first: seq<Value>, rest: seq<Value>)
    requires open < first && open + values == first + rest
    ensures values != [] && open + [values[0]] <= first
    ensures open + values == open + [values[0]] + values[1..]
  {
    assert values[0] == (open + values)[|open|] == first[|open|];
  }

  // As long as more of the first group is to come, the open part is not full.
  lemma NotYetReached(more: seq<Value>, first: seq<Value>, format: Format, threshold: nat)
    requires more != [] && more < first && CutInTime(format, threshold, first)
    ensures !Reached(format, threshold, more)
  {
    OpenedGrows(format, first[..|first| - 1], |more|);
    assert first[..|first| - 1][..|more|] == more;
  }

  lemma {:induction false} SplitFromUnique(
    open: seq<Value>, values: seq<Value>, format: Format, threshold: nat, groups: seq<seq<Value>>)
    requires open == [] || !Reached(format, threshold, open)
    requires Flatten(groups) == open + values && Continues(open, format, threshold, groups)
    ensures groups == SplitFrom(open, values, format, threshold)
    decreases |values|, 1
  {
    if groups == [] {
      assert open + values == [];
    } else if |open| == |groups[0]| {
      LastGroup(open, values, format, threshold, groups);
    } else {
      ContinuesTail(open, format, threshold, groups);
      NextInFirst(open, values, groups[0], Flatten(groups[1..]));
      var more := open + [values[0]];
      if more == groups[0] {
        UniqueCut(open, values, format, threshold, groups);
      } else {
        NotYetReached(more, groups[0], format, threshold);
        SplitFromUnique(more, values[1..], format, threshold, groups);
      }
    }
  }

  lemma {:induction false} UniqueCut(
    open: seq<Value>, values: seq<Value>, format: Format, threshold: nat, groups: seq<seq<Value>>)
    requires values != [] && groups != [] && groups[0] == open + [values[0]]
    requires Flatten(groups) == groups[0] + values[1..] && Continues([], format, threshold, groups)
    ensures groups == SplitFrom(open, values, format, threshold)
    decreases |values|, 0
  {
    var rest := values[1..];
    FirstGroupDone(rest, format, threshold, groups);
    if Reached(format, threshold, groups[0]) {
      SplitFromUnique([], rest, format, threshold, groups[1..]);
      assert groups == [groups[0]] + groups[1..];
    } else {
      assert SplitFrom(groups[0], [], format, threshold) == [groups[0]];
    }
  }

  lemma FirstGroupDone(rest: seq<Value>, format: Format, threshold: nat, groups: seq<seq<Value>>)
    requires groups != [] && Continues([], format, threshold, groups) && Flatten(groups) == groups[0] + rest
    ensures Flatten(groups[1..]) == [] + rest
    ensures Continues([], format, threshold, groups[1..])
    ensures !Reached(format, threshold, groups[0]) ==> groups == [groups[0]] && rest == []
  {
    ContinuesTail([], format, threshold, groups);
    var tail := Flatten(groups[1..]);
    assert (groups[0] + tail)[|groups[0]|..] == tail && (groups[0] + rest)[|groups[0]|..] == rest;
    assert [] + rest == rest;
    if |groups| == 1 { assert groups[1..] == []; }
  }

  // If the first group is exactly what is open, nothing else follows.
  lemma LastGroup(open: seq<Value>, values: seq<Value>, format: Format, threshold: nat, groups: seq<seq<Value>>)
    requires groups != [] && |open| == |groups[0]| && (open == [] || !Reached(format, threshold, open))
    requires Flatten(groups) == open + values && Continues(open, format, threshold, groups)
    ensures values == [] && groups == [open]
  {
    assert open == groups[0] && |groups| == 1;
    assert groups == [open] && Flatten(groups) == open + Flatten(groups[1..]);
    assert open + [] == open;
    assert |open + values| == |open|;
  }

  // Main result: the exporter's parts are the one and only split of that kind.
  lemma SplitIsUnique(values: seq<Value>, format: Format, threshold: nat, groups: seq<seq<Value>>)
    ensures IsSplit(values, format, threshold, groups) <==> groups == Split(values, format, threshold)
  {
    if values == [] {
      assert Flatten([[]]) == [] + Flatten<Value>([[]][1..]);
    } else {
      SplitIsUniqueNonEmpty(values, format, threshold, groups);
    }
  }

  lemma SplitIsUniqueNonEmpty(values: seq<Value>, format: Format, threshold: nat, groups: seq<seq<Value>>)
    requires values != []
    ensures IsSplit(values, format, threshold, groups) <==> groups == SplitFrom([], values, format, threshold)
  {
    assert [] + values == values;
    SplitFromContinues([], values, format, threshold);
    if IsSplit(values, format, threshold, groups) {
      SplitFromUnique([], values, format, threshold, groups);
    }
  }

  // --- the framer and the export loop as code --------------------------------------------

  datatype Part = Part(number: nat, payload: Bytes)

  function PartsFrom(format: Format, groups: seq<seq<Value>>): seq<Part> {
    seq(|groups|, k requires 0 <= k < |groups| => Part(k, PartText(format, groups[k])))
  }

  class PartFramer {
    const format: Format
    var arrayFirst: bool

    constructor (format: Format)
      ensures this.format == format
    {
      this.format := format;
      arrayFirst := true;
    }

    method Open() returns (bytes: Bytes)
      modifies this
      ensures bytes == Opened(format, []) && (format.JsonArray? ==> arrayFirst)
    {
      match format {
        case JsonLines => bytes := [];
        case JsonArray =>
          arrayFirst := true;
          bytes := [OPEN_BRACKET];
        case Csv(header, _) => bytes := header;
      }
    }

    method Record(v: Value) returns (bytes: Bytes)
      modifies this
      ensures bytes == RecordText(format, old(arrayFirst), v) && (format.JsonArray? ==> !arrayFirst)
    {
      match format {
        case JsonLines => bytes := Text(v) + [LINE_FEED];
        case JsonArray =>
          bytes := [];
          if !arrayFirst { bytes := bytes + [COMMA]; }
          arrayFirst := false;
          bytes := bytes + Text(v);
        case Csv(_, row) => bytes := row(v);
      }
    }

    method Close() returns (bytes: Bytes)
      ensures bytes == Closing(format)
    {
      match format {
        case JsonLines | Csv(_, _) => bytes := [];
        case JsonArray => bytes := [CLOSE_BRACKET];
      }
    }
  }

  lemma PartsSnoc(format: Format, groups: seq<seq<Value>>, group: seq<Value>)
    ensures PartsFrom(format, groups + [group]) == PartsFrom(format, groups) + [Part(|groups|, PartText(format, group))]
  {
  }

  // What is written so far and what is being gathered make up the split.
  ghost predicate Gathered(
    values: seq<Value>, rest: seq<Value>, format: Format, threshold: nat, groups: seq<seq<Value>>, open: seq<Value>)
  {
    SplitFrom([], values, format, threshold) == groups + SplitFrom(open, rest, format, threshold)
  }

  lemma GatherOne(
    values: seq<Value>, rest: seq<Value>, format: Format, threshold: nat, groups: seq<seq<Value>>, open: seq<Value>)
    requires rest != [] && Gathered(values, rest, format, threshold, groups, open)
    ensures var more := open + [rest[0]];
            if Reached(format, threshold, more)
            then Gathered(values, rest[1..], format, threshold, groups + [more], [])
            else Gathered(values, rest[1..], format, threshold, groups, more)
  {
    var more := open + [rest[0]];
    if Reached(format, threshold, more) { GroupMovesOver(groups, more, SplitFrom([], rest[1..], format, threshold)); }
  }

  lemma GroupMovesOver(groups: seq<seq<Value>>, group: seq<Value>, tail: seq<seq<Value>>)
    ensures groups + ([group] + tail) == groups + [group] + tail
  {
  }

  // What is still open at the end is the last part; an empty export is one empty part.
  lemma GatherEnd(values: seq<Value>, format: Format, threshold: nat, groups: seq<seq<Value>>, open: seq<Value>)
    requires Gathered(values, [], format, threshold, groups, open) && (values != [] ==> open != [] || groups != [])
    requires values == [] ==> open == [] && groups == []
    ensures Split(values, format, threshold) == if open != [] || groups == [] then groups + [open] else groups
  {
    assert groups + [] == groups;
    if values == [] { assert groups + [open] == [[]]; }
  }

  // One record into the buffer of the open part.
  method WriteRecord(framer: PartFramer, buffer: Bytes, v: Value, ghost open: seq<Value>) returns (more: Bytes)
    requires buffer == Opened(framer.format, open) && (framer.format.JsonArray? ==> (framer.arrayFirst <==> open == []))
    modifies framer
    ensures more == Opened(framer.format, open + [v]) && (framer.format.JsonArray? ==> !framer.arrayFirst)
  {
    OpenedSnoc(framer.format, open, v);
    var record := framer.Record(v);
    more := buffer + record;
  }

  // The export loop: parts are cut once a part reaches the threshold.
  method SplitExport(values: seq<Value>, format: Format, maxPartBytes: nat) returns (parts: seq<Part>)
    ensures parts == PartsFrom(format, Split(values, format, Max(maxPartBytes, 1)))
  {
    var framer := new PartFramer(format);
    var threshold: nat := Max(maxPartBytes, 1);
    var buffer := framer.Open();
    var recordsInPart: nat, part: nat := 0, 0;
    parts := [];
    ghost var groups: seq<seq<Value>>, open: seq<Value> := [], [];
    assert values[0..] == values && PartsFrom(format, []) == [];
    assert [] + SplitFrom([], values, format, threshold) == SplitFrom([], values, format, threshold);
    for i := 0 to |values|
      invariant fresh(framer) && framer.format == format
      invariant recordsInPart == |open| && part == |groups| && (i > 0 <==> recordsInPart + part > 0)
      invariant buffer == Opened(format, open) && (format.JsonArray? ==> (framer.arrayFirst <==> open == []))
      invariant parts == PartsFrom(format, groups)
      invariant Gathered(values, values[i..], format, threshold, groups, open)
    {
      assert values[i..][0] == values[i] && values[i..][1..] == values[i + 1..];
      GatherOne(values, values[i..], format, threshold, groups, open);
      buffer := WriteRecord(framer, buffer, values[i], open);
      recordsInPart := recordsInPart + 1;
      open := open + [values[i]];
      if |buffer| >= threshold {
        parts := ClosePart(framer, buffer, parts, part, groups, open);
        part := part + 1;
        recordsInPart := 0;
        groups, open := groups + [open], [];
        buffer := framer.Open();
      }
    }
    assert values[|values|..] == [];
    GatherEnd(values, format, threshold, groups, open);
    if recordsInPart > 0 || part == 0 {
      parts := ClosePart(framer, buffer, parts, part, groups, open);
    }
  }

  // The open part is closed and written under its number.
  method ClosePart(framer: PartFramer, buffer: Bytes, parts: seq<Part>, part: nat, ghost groups: seq<seq<Value>>, ghost open: seq<Value>)
    returns (more: seq<Part>)
    requires parts == PartsFrom(framer.format, groups) && part == |groups| && buffer == Opened(framer.format, open)
    ensures more == PartsFrom(framer.format, groups + [open])
  {
    var close := framer.Close();
    PartsSnoc(framer.format, groups, open);
    more := parts + [Part(part, buffer + close)];
  }

  lemma ChunkAppended(chunks: seq<Bytes>, values: seq<Value>, v: Value, chunk: Bytes)
    requires Flatten(chunks) == [OPEN_BRACKET] + ItemsText(values)
    requires chunk == (if values == [] then [] else [COMMA]) + Text(v)
    ensures Flatten(chunks + [chunk]) == [OPEN_BRACKET] + ItemsText(values + [v])
  {
    ItemsSnoc(values, v);
    FlattenSnoc(chunks, chunk);
    Associates([OPEN_BRACKET], ItemsText(values), chunk);
  }

  lemma Associates(a: Bytes, b: Bytes, c: Bytes)
    ensures a + b + c == a + (b + c)
  {
  }

  lemma ArrayClosed(chunks: seq<Bytes>, values: seq<Value>)
    requires Flatten(chunks) == [OPEN_BRACKET] + ItemsText(values)
    ensures Flatten(chunks + [[CLOSE_BRACKET]]) == ArrayText(values)
  {
    FlattenSnoc(chunks, [CLOSE_BRACKET]);
    assert [OPEN_BRACKET] + ItemsText(values) + [CLOSE_BRACKET] == ArrayText(values);
  }

  // The unsplit encoder: brackets and commas, one chunk per document.
  method EncodeJsonArray(values: seq<Value>) returns (chunks: seq<Bytes>)
    ensures Flatten(chunks) == ArrayText(values)
  {
    var first := true;
    chunks := [[OPEN_BRACKET]];
    assert Flatten(chunks) == [OPEN_BRACKET] + Flatten(chunks[1..]);
    var i := 0;
    while i < |values|
      invariant 0 <= i <= |values| && (first <==> i == 0)
      invariant Flatten(chunks) == [OPEN_BRACKET] + ItemsText(values[..i])
    {
      var chunk: Bytes := [];
      if !first { chunk := chunk + [COMMA]; }
      first := false;
      chunk := chunk + Text(values[i]);
      ChunkAppended(chunks, values[..i], values[i], chunk);
      assert values[..i + 1] == values[..i] + [values[i]];
      chunks := chunks + [chunk];
      i := i + 1;
    }
    assert values[..i] == values;
    ArrayClosed(chunks, values);
    chunks := chunks + [[CLOSE_BRACKET]];
  }

  // --- reading the parts back ------------------------------------------------------------

  lemma {:induction false} TextsConcat(a: seq<Value>, b: seq<Value>)
    ensures Texts(a + b) == Texts(a) + Texts(b)
  {
    if a == [] {
      assert a + b == b;
    } else {
      assert (a + b)[1..] == a[1..] + b;
      TextsConcat(a[1..], b);
    }
  }

  lemma {:induction false} TextsFlatten(groups: seq<seq<Value>>)
    ensures Flatten(seq(|groups|, k requires 0 <= k < |groups| => Texts(groups[k]))) == Texts(Flatten(groups))
  {
    var texts := seq(|groups|, k requires 0 <= k < |groups| => Texts(groups[k]));
    if groups != [] {
      TextsFlatten(groups[1..]);
      assert texts[1..] == seq(|groups[1..]|, k requires 0 <= k < |groups[1..]| => Texts(groups[1..][k]));
      TextsConcat(groups[0], Flatten(groups[1..]));
    }
  }

  lemma {:induction false} WellFormedParts(groups: seq<seq<Value>>, k: nat)
    requires AllWellFormed(Flatten(groups)) && k < |groups|
    ensures AllWellFormed(groups[k])
    decreases k
  {
    var rest := Flatten(groups[1..]);
    assert Flatten(groups) == groups[0] + rest;
    if k == 0 {
      forall j | 0 <= j < |groups[0]| ensures WellFormed(groups[0][j]) { assert Flatten(groups)[j] == groups[0][j]; }
    } else {
      forall j | 0 <= j < |rest| ensures WellFormed(rest[j]) { assert Flatten(groups)[|groups[0]| + j] == rest[j]; }
      WellFormedParts(groups[1..], k - 1);
    }
  }

  // The texts are those of these documents and of no others.
  ghost predicate TextsOf(texts: seq<Bytes>, values: seq<Value>) {
    texts == Texts(values) && forall documents :: AllWellFormed(documents) && Texts(documents) == texts ==> documents == values
  }

  lemma TextsTellDocuments(values: seq<Value>)
    requires AllWellFormed(values)
    ensures TextsOf(Texts(values), values)
  {
    forall documents | AllWellFormed(documents) && Texts(documents) == Texts(values) ensures documents == values {
      TextsInjective(documents, values);
    }
  }

  // Main result: scanning each array part on its own and flattening the results
  // gives back exactly the exported documents, in order.
  lemma ArrayPartsRoundTrip(values: seq<Value>, threshold: nat)
    requires AllWellFormed(values)
    ensures var parts := PartsFrom(JsonArray, Split(values, JsonArray, threshold));
            var groups := Split(values, JsonArray, threshold);
            && (forall k :: 0 <= k < |parts| ==> parts[k].number == k && Elements(parts[k].payload) == Ok(Texts(groups[k])))
            && TextsOf(Flatten(seq(|groups|, k requires 0 <= k < |groups| => Texts(groups[k]))), values)
  {
    var groups := Split(values, JsonArray, threshold);
    SplitIsUnique(values, JsonArray, threshold, groups);
    TextsFlatten(groups);
    TextsTellDocuments(values);
    forall k | 0 <= k < |groups| ensures Elements(PartText(JsonArray, groups[k])) == Ok(Texts(groups[k])) {
      WellFormedParts(groups, k);
      ArrayRoundTrip(groups[k]);
      assert PartText(JsonArray, groups[k]) == ArrayText(groups[k]);
    }
  }

  // --- the line reader ---------------------------------------------------------------------

  function LineEnd(bytes: Bytes): nat
    ensures LineEnd(bytes) <= |bytes| && (bytes != [] ==> LineEnd(bytes) >= 1)
  {
    if bytes == [] then 0 else if bytes[0] == LINE_FEED then 1 else 1 + LineEnd(bytes[1..])
  }

  function TrimStart(bytes: Bytes): Bytes {
    if bytes != [] && Whitespace(bytes[0]) then TrimStart(bytes[1..]) else bytes
  }

  function TrimEnd(bytes: Bytes): Bytes {
    if bytes != [] && Whitespace(bytes[|bytes| - 1]) then TrimEnd(bytes[..|bytes| - 1]) else bytes
  }

  // The texts the newline-delimited reader parses: trimmed lines that are not blank.
  function LineTexts(bytes: Bytes): seq<Bytes>
    decreases |bytes|
  {
    if bytes == [] then []
    else
      var n := LineEnd(bytes);
      var line := TrimEnd(TrimStart(bytes[..n]));
      (if line == [] then [] else [line]) + LineTexts(bytes[n..])
  }

  lemma {:induction false} LineEndAfter(text: Bytes, rest: Bytes)
    requires LINE_FEED !in text
    ensures LineEnd(text + [LINE_FEED] + rest) == |text| + 1
  {
    var all := text + [LINE_FEED] + rest;
    if text != [] {
      LineEndAfter(text[1..], rest);
      assert all[1..] == text[1..] + [LINE_FEED] + rest;
    }
  }

  lemma {:induction false} LinesRoundTrip(values: seq<Value>)
    requires AllWellFormed(values)
    ensures LineTexts(LinesText(values)) == Texts(values)
  {
    if values != [] {
      var t, rest := Text(values[0]), LinesText(values[1..]);
      TextEdges(values[0]);
      TextIsOneLine(values[0]);
      LineEndAfter(t, rest);
      var all := t + [LINE_FEED] + rest;
      assert LinesText(values) == all;
      assert all[..|t| + 1] == t + [LINE_FEED] && all[|t| + 1..] == rest;
      assert (t + [LINE_FEED])[..|t|] == t;
      assert TrimStart(t + [LINE_FEED]) == t + [LINE_FEED];
      assert TrimEnd(t + [LINE_FEED]) == TrimEnd(t) == t;
      LinesRoundTrip(values[1..]);
    }
  }

  // Main result: reading the lines of every part gives back the documents.
  lemma LinePartsRoundTrip(values: seq<Value>, threshold: nat)
    requires AllWellFormed(values)
    ensures var groups := Split(values, JsonLines, threshold);
            var parts := PartsFrom(JsonLines, groups);
            && (forall k :: 0 <= k < |parts| ==> parts[k].number == k && LineTexts(parts[k].payload) == Texts(groups[k]))
            && TextsOf(Flatten(seq(|groups|, k requires 0 <= k < |groups| => Texts(groups[k]))), values)
  {
    var groups := Split(values, JsonLines, threshold);
    SplitIsUnique(values, JsonLines, threshold, groups);
    TextsFlatten(groups);
    TextsTellDocuments(values);
    forall k | 0 <= k < |groups| ensures LineTexts(PartText(JsonLines, groups[k])) == Texts(groups[k]) {
      WellFormedParts(groups, k);
      LinesRoundTrip(groups[k]);
      assert PartText(JsonLines, groups[k]) == LinesText(groups[k]);
    }
  }
}
