// The deterministic batcher: serialised documents are grouped into JSONL
// request bodies bounded by bytes and by document count.

module Batching {
  import opened Common

  datatype BatchConfig = BatchConfig(maxBytes: nat, maxDocs: nat)

  datatype Batch = Batch(body: Bytes, documents: nat, index: nat)

  const NEWLINE: Byte := 10

  type Line = Bytes

  // A batch is a group of lines before it is rendered.
  type Group = seq<Line>

  function Body(group: Group): Bytes {
    if group == [] then [] else group[0] + [NEWLINE] + Body(group[1..])
  }

  function Render(group: Group, index: nat): Batch { Batch(Body(group), |group|, index) }

  function RenderAll(groups: seq<Group>): (batches: seq<Batch>) {
    seq(|groups|, k requires 0 <= k < |groups| => Render(groups[k], k + 1))
  }

  lemma {:induction false} BodySnoc(group: Group, line: Line)
    ensures Body(group + [line]) == Body(group) + line + [NEWLINE]
  {
    if group == [] {
      assert group + [line] == [line];
      assert Body([line]) == line + [NEWLINE] + Body([line][1..]);
    } else {
      BodySnoc(group[1..], line);
      assert (group + [line])[1..] == group[1..] + [line];
    }
  }

  // --- the greedy split, declaratively --------------------------------------

  // Adding `line` to the non-empty group would break a cap.
  predicate Closed(group: Group, line: Line, config: BatchConfig) {
    |group| >= config.maxDocs || |Body(group)| + |line| + 1 > config.maxBytes
  }

  predicate WithinCaps(group: Group, config: BatchConfig) {
    && 1 <= |group| <= Max(1, config.maxDocs)
    && (|Body(group)| > config.maxBytes ==> |group| == 1)
  }

  // `groups` splits `lines` in order, every group respects the caps, and no
  // group could also have taken the first line of the group after it.
  ghost predicate IsGreedySplit(lines: seq<Line>, config: BatchConfig, groups: seq<Group>) {
    && Flatten(groups) == lines
    && (forall k :: 0 <= k < |groups| ==> WithinCaps(groups[k], config))
    && (forall k :: 0 < k < |groups| ==> Closed(groups[k - 1], groups[k][0], config))
  }

  // --- the greedy split, computed -------------------------------------------

  // The groups of `open` followed by `lines`, where `open` is already gathered.
  function GroupsFrom(open: Group, lines: seq<Line>, config: BatchConfig): seq<Group>
    decreases |lines|
  {
    if lines == [] then
      if open == [] then [] else [open]
    else if open != [] && Closed(open, lines[0], config) then
      [open] + GroupsFrom([lines[0]], lines[1..], config)
    else
      GroupsFrom(open + [lines[0]], lines[1..], config)
  }

  function Groups(lines: seq<Line>, config: BatchConfig): seq<Group> {
    GroupsFrom([], lines, config)
  }

  function Batches(lines: seq<Line>, config: BatchConfig): seq<Batch> {
    RenderAll(Groups(lines, config))
  }

  // Groups that are complete even if more documents follow: the last one is
  // still open unless it already holds the maximal number of documents.
  function Completed(groups: seq<Group>, config: BatchConfig): seq<Group> {
    if groups != [] && |groups[|groups| - 1]| < config.maxDocs
    then groups[..|groups| - 1] else groups
  }

  lemma {:induction false} GroupsFromIsGreedy(open: Group, lines: seq<Line>, config: BatchConfig)
    requires open == [] || WithinCaps(open, config)
    ensures var g := GroupsFrom(open, lines, config);
            && IsGreedySplit(open + lines, config, g)
            && (open != [] ==> g != [] && open <= g[0])
    decreases |lines|
  {
    var g := GroupsFrom(open, lines, config);
    if lines == [] {
      assert open + lines == open;
      if open != [] { FlattenSnoc<Line>([], open); assert [] + [open] == [open]; }
    } else if open != [] && Closed(open, lines[0], config) {
      var rest := GroupsFrom([lines[0]], lines[1..], config);
      GroupsFromIsGreedy([lines[0]], lines[1..], config);
      assert [lines[0]] + lines[1..] == lines;
      assert g[1..] == rest && Flatten(g) == open + Flatten(rest);
      assert forall k :: 0 < k < |g| ==> g[k] == rest[k - 1];
    } else {
      BodySnoc(open, lines[0]);
      GroupsFromIsGreedy(open + [lines[0]], lines[1..], config);
      assert open + [lines[0]] + lines[1..] == open + lines;
    }
  }

  lemma GreedyTail(lines: seq<Line>, config: BatchConfig, groups: seq<Group>)
    requires IsGreedySplit(lines, config, groups) && groups != []
    ensures IsGreedySplit(Flatten(groups[1..]), config, groups[1..])
    ensures lines == groups[0] + Flatten(groups[1..])
  {
    var t := groups[1..];
    assert forall k :: 0 <= k < |t| ==> t[k] == groups[k + 1];
    forall k | 0 < k < |t| ensures Closed(t[k - 1], t[k][0], config) {
      assert Closed(groups[k + 1 - 1], groups[k + 1][0], config);
    }
  }

  lemma NonEmptyFlatten(groups: seq<Group>, config: BatchConfig)
    requires groups != [] && WithinCaps(groups[0], config)
    ensures Flatten(groups) != []
  {
    assert Flatten(groups)[0] == groups[0][0];
  }

  // While `open` is a proper prefix of the first group, the next line fits.
  lemma OpenPrefixFits(open: Group, first: Group, config: BatchConfig)
    requires WithinCaps(first, config) && open < first && open != []
    ensures !Closed(open, first[|open|], config)
  {
    var line := first[|open|];
    assert first == open + [line] + first[|open| + 1..];
    BodySnoc(open, line);
    BodyConcat(open + [line], first[|open| + 1..]);
  }

  lemma {:induction false} BodyConcat(a: Group, b: Group)
    ensures Body(a + b) == Body(a) + Body(b)
  {
    if a == [] {
      assert a + b == b;
    } else {
      assert (a + b)[1..] == a[1..] + b;
      BodyConcat(a[1..], b);
    }
  }

  // Any greedy split that starts with the open lines is what the loop computes.
  lemma {:induction false} GroupsFromUnique(
    open: Group, lines: seq<Line>, config: BatchConfig, groups: seq<Group>)
    requires IsGreedySplit(open + lines, config, groups)
    requires open != [] ==> groups != [] && open <= groups[0]
    ensures groups == GroupsFrom(open, lines, config)
    decreases |lines|
  {
    if groups == [] {
      assert open + lines == [];
    } else {
      GreedyTail(open + lines, config, groups);
      var first, rest := groups[0], Flatten(groups[1..]);
      assert open + lines == first + rest;
      if |open| == |first| {
        assert open == first;
        assert (open + lines)[|open|..] == lines && (first + rest)[|first|..] == rest;
        if lines == [] {
          if |groups| > 1 { NonEmptyFlatten(groups[1..], config); assert false; }
          assert groups == [first];
        } else {
          assert groups[1..] != [];
          GreedyTail(rest, config, groups[1..]);
          assert lines[0] == groups[1][0];
          assert Closed(groups[0], groups[1][0], config);
          assert [lines[0]] + lines[1..] == lines;
          GroupsFromUnique([lines[0]], lines[1..], config, groups[1..]);
          assert groups == [first] + groups[1..];
        }
      } else {
        assert open < first;
        assert lines[0] == (open + lines)[|open|] == first[|open|];
        if open != [] { OpenPrefixFits(open, first, config); }
        assert open + [lines[0]] + lines[1..] == open + lines;
        assert open + [lines[0]] <= first;
        GroupsFromUnique(open + [lines[0]], lines[1..], config, groups);
      }
    }
  }

  // Main result: the batcher's groups are the one and only greedy split.
  lemma GreedySplitIsUnique(lines: seq<Line>, config: BatchConfig, groups: seq<Group>)
    ensures IsGreedySplit(lines, config, groups) <==> groups == Groups(lines, config)
  {
    assert [] + lines == lines;
    GroupsFromIsGreedy([], lines, config);
    if IsGreedySplit(lines, config, groups) {
      GroupsFromUnique([], lines, config, groups);
    }
  }

  // Re-batching what follows the first `k` batches reproduces the other batches.
  lemma {:induction false} RebatchAfter(lines: seq<Line>, config: BatchConfig, k: nat)
    requires k <= |Groups(lines, config)|
    ensures var g := Groups(lines, config);
            && lines == Flatten(g[..k]) + Flatten(g[k..])
            && Groups(Flatten(g[k..]), config) == g[k..]
    decreases k
  {
    var g := Groups(lines, config);
    GreedySplitIsUnique(lines, config, g);
    if k == 0 {
      assert g[k..] == g && g[..k] == [];
    } else {
      GreedyTail(lines, config, g);
      GreedySplitIsUnique(Flatten(g[1..]), config, g[1..]);
      RebatchAfter(Flatten(g[1..]), config, k - 1);
      assert g[1..][k - 1..] == g[k..];
      assert g[1..][..k - 1] == g[..k][1..];
      assert g[..k][0] == g[0];
    }
  }

  // The open group is complete: nothing follows, or the next line does not fit.
  predicate MayFlush(open: Group, rest: seq<Line>, config: BatchConfig) {
    rest == [] || Closed(open, rest[0], config)
  }

  lemma FlushedFirst(open: Group, rest: seq<Line>, config: BatchConfig)
    requires open != [] && MayFlush(open, rest, config)
    ensures GroupsFrom(open, rest, config) == [open] + GroupsFrom([], rest, config)
  {
    if rest == [] {
      assert [open] + [] == [open];
    } else {
      assert [] + [rest[0]] == [rest[0]];
    }
  }

  // The batches already sent when the input breaks off are the first batches of
  // any longer input: resuming by index stays valid.
  lemma {:induction false} GroupsFromPrefix(open: Group, lines: seq<Line>, more: seq<Line>, config: BatchConfig)
    ensures Completed(GroupsFrom(open, lines, config), config) <= GroupsFrom(open, lines + more, config)
    decreases |lines|
  {
    if lines == [] {
      assert lines + more == more;
      if open != [] && |open| >= config.maxDocs { FlushedFirst(open, more, config); }
    } else {
      assert (lines + more)[1..] == lines[1..] + more;
      if open != [] && Closed(open, lines[0], config) {
        GroupsFromPrefix([lines[0]], lines[1..], more, config);
        var rest := GroupsFrom([lines[0]], lines[1..], config);
        NonEmpty([lines[0]], lines[1..], config);
        assert Completed([open] + rest, config) == [open] + Completed(rest, config);
      } else {
        GroupsFromPrefix(open + [lines[0]], lines[1..], more, config);
      }
    }
  }

  lemma {:induction false} NonEmpty(open: Group, lines: seq<Line>, config: BatchConfig)
    requires open != []
    ensures GroupsFrom(open, lines, config) != []
    decreases |lines|
  {
    if lines != [] && !Closed(open, lines[0], config) { NonEmpty(open + [lines[0]], lines[1..], config); }
  }

  lemma YieldedBeforeErrorIsPrefix(lines: seq<Line>, more: seq<Line>, config: BatchConfig)
    ensures RenderAll(Completed(Groups(lines, config), config)) <= Batches(lines + more, config)
  {
    GroupsFromPrefix([], lines, more, config);
    var a, b := Completed(Groups(lines, config), config), Groups(lines + more, config);
    assert forall k :: 0 <= k < |a| ==> a[k] == b[k];
  }

  // --- the loop --------------------------------------------------------------

  // The documents read before the first input error.
  function Readable<E>(documents: seq<Result<Line, E>>): seq<Line> {
    if documents == [] || documents[0].Err? then [] else [documents[0].value] + Readable(documents[1..])
  }

  function FirstError<E>(documents: seq<Result<Line, E>>): Option<E> {
    if documents == [] then None
    else match documents[0] case Err(e) => Some(e) case Ok(_) => FirstError(documents[1..])
  }

  // The loop's variables hold the batches of `sent`, with `open` being gathered.
  ghost predicate Gathering(
    lines: seq<Line>, rest: seq<Line>, config: BatchConfig,
    batches: seq<Batch>, body: Bytes, count: nat, index: nat, sent: seq<Group>, open: Group)
  {
    && body == Body(open) && count == |open|
    && index == |sent| && batches == RenderAll(sent)
    && Groups(lines, config) == sent + GroupsFrom(open, rest, config)
  }

  lemma Flush(
    lines: seq<Line>, rest: seq<Line>, config: BatchConfig,
    batches: seq<Batch>, body: Bytes, count: nat, index: nat, sent: seq<Group>, open: Group)
    requires Gathering(lines, rest, config, batches, body, count, index, sent, open)
    requires open != [] && MayFlush(open, rest, config)
    ensures Gathering(lines, rest, config, batches + [Batch(body, count, index + 1)], [], 0, index + 1, sent + [open], [])
  {
    FlushedFirst(open, rest, config);
    var tail := GroupsFrom([], rest, config);
    assert sent + ([open] + tail) == sent + [open] + tail;
    assert RenderAll(sent + [open]) == RenderAll(sent) + [Render(open, index + 1)];
  }

  lemma Append(
    lines: seq<Line>, rest: seq<Line>, config: BatchConfig,
    batches: seq<Batch>, body: Bytes, count: nat, index: nat, sent: seq<Group>, open: Group)
    requires Gathering(lines, rest, config, batches, body, count, index, sent, open)
    requires rest != [] && (open == [] || !Closed(open, rest[0], config))
    ensures Gathering(lines, rest[1..], config, batches, body + rest[0] + [NEWLINE], count + 1, index, sent, open + [rest[0]])
  {
    BodySnoc(open, rest[0]);
  }

  // One pass over the document stream; `batches` is what the stream yields
  // before it ends or fails.
  method IntoBatches<E>(documents: seq<Result<Line, E>>, config: BatchConfig)
    returns (batches: seq<Batch>, failed: Option<E>)
    ensures failed == FirstError(documents)
    ensures failed.None? ==> batches == Batches(Readable(documents), config)
    ensures failed.Some? ==> batches == RenderAll(Completed(Groups(Readable(documents), config), config))
  {
    batches, failed := [], None;
    var body: Bytes, count: nat, index: nat := [], 0, 0;
    ghost var sent: seq<Group>, open: Group := [], [];
    ghost var lines := Readable(documents);
    var i := 0;
    assert documents[0..] == documents;
    while i < |documents|
      invariant 0 <= i <= |documents|
      invariant FirstError(documents) == FirstError(documents[i..])
      invariant |open| < Max(1, config.maxDocs)
      invariant sent != [] && open == [] ==> |sent[|sent| - 1]| >= config.maxDocs
      invariant Gathering(lines, Readable(documents[i..]), config, batches, body, count, index, sent, open)
    {
      ghost var rest := Readable(documents[i..]);
      assert documents[i..][1..] == documents[i + 1..];
      match documents[i] {
        case Err(e) =>
          OpenIsLast(sent, open, config);
          return batches, Some(e);
        case Ok(line) =>
          if count > 0 && |body| + |line| + 1 > config.maxBytes {
            Flush(lines, rest, config, batches, body, count, index, sent, open);
            index := index + 1;
            batches := batches + [Batch(body, count, index)];
            body, count := [], 0;
            sent, open := sent + [open], [];
          }
          Append(lines, rest, config, batches, body, count, index, sent, open);
          body := body + line + [NEWLINE];
          count := count + 1;
          open := open + [line];
          if count >= config.maxDocs {
            Flush(lines, rest[1..], config, batches, body, count, index, sent, open);
            index := index + 1;
            batches := batches + [Batch(body, count, index)];
            body, count := [], 0;
            sent, open := sent + [open], [];
          }
          i := i + 1;
      }
    }
    if count > 0 {
      Flush(lines, [], config, batches, body, count, index, sent, open);
      index := index + 1;
      batches := batches + [Batch(body, count, index)];
    }
  }

  lemma OpenIsLast(sent: seq<Group>, open: Group, config: BatchConfig)
    requires |open| < Max(1, config.maxDocs)
    requires sent != [] && open == [] ==> |sent[|sent| - 1]| >= config.maxDocs
    ensures Completed(sent + GroupsFrom(open, [], config), config) == sent
  {
    if open == [] {
      assert sent + [] == sent;
    } else {
      assert (sent + [open])[..|sent|] == sent;
    }
  }

  // --- what the sender relies on -----------------------------------------------

  // Every batch body is the lines of its group; together the bodies are the
  // whole input, numbered from one, each at least one document long.
  lemma BatchesCoverInput(lines: seq<Line>, config: BatchConfig)
    requires forall k :: 0 <= k < |lines| ==> |lines[k]| >= 1
    ensures var b := Batches(lines, config);
            && Flatten(seq(|b|, k requires 0 <= k < |b| => b[k].body)) == Body(lines)
            && (forall k :: 0 <= k < |b| ==> b[k].index == k + 1 && b[k].documents >= 1 && |b[k].body| >= 2)
  {
    var g := Groups(lines, config);
    GreedySplitIsUnique(lines, config, g);
    BodiesConcat(g);
    var b := Batches(lines, config);
    assert seq(|b|, k requires 0 <= k < |b| => b[k].body) == seq(|g|, k requires 0 <= k < |g| => Body(g[k]));
    forall k | 0 <= k < |b| ensures b[k].documents >= 1 && |b[k].body| >= 2 {
      assert WithinCaps(g[k], config);
      assert g[k][0] in g[k];
      InFlatten(g, k, g[k][0]);
    }
  }

  lemma {:induction false} BodiesConcat(groups: seq<Group>)
    ensures Flatten(seq(|groups|, k requires 0 <= k < |groups| => Body(groups[k]))) == Body(Flatten(groups))
  {
    var bodies := seq(|groups|, k requires 0 <= k < |groups| => Body(groups[k]));
    if groups != [] {
      BodiesConcat(groups[1..]);
      assert bodies[1..] == seq(|groups[1..]|, k requires 0 <= k < |groups[1..]| => Body(groups[1..][k]));
      BodyConcat(groups[0], Flatten(groups[1..]));
    }
  }

  lemma {:induction false} InFlatten<T>(ss: seq<seq<T>>, k: nat, x: T)
    requires k < |ss| && x in ss[k]
    ensures x in Flatten(ss)
  {
    if k > 0 { InFlatten(ss[1..], k - 1, x); }
  }

  // Every input document lies in the body of some batch.
  lemma EveryDocumentInSomeBatch(lines: seq<Line>, config: BatchConfig, d: nat)
    requires d < |lines|
    ensures exists k :: 0 <= k < |Groups(lines, config)| && lines[d] in Groups(lines, config)[k]
                        && Batches(lines, config)[k].body == Body(Groups(lines, config)[k])
  {
    var g := Groups(lines, config);
    GreedySplitIsUnique(lines, config, g);
    assert lines[d] in Flatten(g);
    FlattenHas(g, lines[d]);
    var k :| 0 <= k < |g| && lines[d] in g[k];
    assert Batches(lines, config)[k].body == Body(g[k]);
  }
}
