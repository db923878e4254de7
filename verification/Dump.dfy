// Which collections and views a dump holds, where their objects go, and how a
// collection's data is paged out of the server.

module Dumping {
  import opened Common
  import opened DumpFormat

  // --- the source server -----------------------------------------------------------------

  datatype InventoryCollection = InventoryCollection(name: Option<string>, systemFlag: Option<bool>, isEdge: bool, indexes: seq<Index>)

  datatype Inventory = Inventory(collections: seq<InventoryCollection>, views: seq<View>)

  // One database, or the single one of a dump that names none; `content` is what its
  // collections' data streams deliver.
  datatype Source = Source(database: Option<string>, inventory: Inventory, content: string -> Bytes)

  datatype Compression = NoCompression | Gzip | Zstd

  datatype Options = Options(includeSystem: bool, included: Option<string -> bool>, excluded: Option<string -> bool>, compression: Compression)

  datatype DumpError = CollectionWithoutName | ViewWithoutName

  predicate IsSystem(c: InventoryCollection) {
    if c.systemFlag.Some? then c.systemFlag.value else c.name.Some? && c.name.value != [] && c.name.value[0] == '_'
  }

  predicate PassesFilters(o: Options, name: string) {
    && (o.included.Some? ==> o.included.value(name))
    && (o.excluded.Some? ==> !o.excluded.value(name))
  }

  // --- paths -----------------------------------------------------------------------------------

  function Prefix(database: Option<string>): string {
    if database.Some? then "databases/" + (database.value + "/") else []
  }

  function DataSuffix(compression: Compression): string {
    match compression case NoCompression => ".data.jsonl" case Gzip => ".data.jsonl.gz" case Zstd => ".data.jsonl.zst"
  }

  function Suffix(o: Options, kind: ArtifactKind): string {
    match kind
    case Structural => ".structure.json"
    case Content => DataSuffix(o.compression)
    case ViewDefinition => ".view.json"
    case Meta => []
  }

  function PathOf(o: Options, database: Option<string>, name: string, kind: ArtifactKind): string {
    Prefix(database) + (name + Suffix(o, kind))
  }

  // --- a dump as a value -------------------------------------------------------------------------

  // What has been written, and the names of this database's collections among it.
  datatype Progress = Progress(artifacts: seq<Artifact>, objects: Objects, dumped: set<string>)

  function CollectionArtifact(o: Options, database: Option<string>, name: string, kind: ArtifactKind): Artifact {
    Artifact(PathOf(o, database, name, kind), kind, false, Some(name), None, database)
  }

  function ViewArtifact(o: Options, database: Option<string>, name: string): Artifact {
    Artifact(PathOf(o, database, name, ViewDefinition), ViewDefinition, false, None, Some(name), database)
  }

  function WriteCollection(o: Options, src: Source, p: Progress, name: string, c: InventoryCollection): Progress {
    var s, d := CollectionArtifact(o, src.database, name, Structural), CollectionArtifact(o, src.database, name, Content);
    Progress(p.artifacts + [s] + [d],
             p.objects[s.path := StructureObject(Structure(name, c.isEdge, c.indexes))][d.path := DataObject(src.content(name))],
             p.dumped + {name})
  }

  // Whether a collection is dumped: system ones by the flag alone, others by the filters.
  function DumpCollection(o: Options, src: Source, p: Progress, c: InventoryCollection): Result<Progress, DumpError> {
    if IsSystem(c) && !o.includeSystem then Ok(p)
    else if c.name.None? then Err(CollectionWithoutName)
    else if !IsSystem(c) && !PassesFilters(o, c.name.value) then Ok(p)
    else Ok(WriteCollection(o, src, p, c.name.value, c))
  }

  function DumpCollections(o: Options, src: Source, p: Progress, cs: seq<InventoryCollection>): Result<Progress, DumpError> {
    if cs == [] then Ok(p)
    else match DumpCollections(o, src, p, cs[..|cs| - 1])
      case Err(e) => Err(e)
      case Ok(before) => DumpCollection(o, src, before, cs[|cs| - 1])
  }

  // The collections a view names, in its links or in its index list.
  function ViewTargets(v: View): set<string> {
    (set k | 0 <= k < |v.links| :: v.links[k]) + (set k | 0 <= k < |v.indexes| :: v.indexes[k].0)
  }

  function WriteView(o: Options, src: Source, p: Progress, name: string, v: View): Progress {
    var a := ViewArtifact(o, src.database, name);
    p.(artifacts := p.artifacts + [a], objects := p.objects[a.path := ViewObject(v)])
  }

  // A view is left out, with a warning, when the dump lacks one of its targets.
  function DumpView(o: Options, src: Source, p: Progress, v: View): Result<Progress, DumpError> {
    if v.name.None? then Err(ViewWithoutName)
    else if !(ViewTargets(v) <= p.dumped) then Ok(p)
    else Ok(WriteView(o, src, p, v.name.value, v))
  }

  function DumpViews(o: Options, src: Source, p: Progress, vs: seq<View>): Result<Progress, DumpError> {
    if vs == [] then Ok(p)
    else match DumpViews(o, src, p, vs[..|vs| - 1])
      case Err(e) => Err(e)
      case Ok(before) => DumpView(o, src, before, vs[|vs| - 1])
  }

  function DumpDatabase(o: Options, src: Source, p: Progress): Result<Progress, DumpError> {
    match DumpCollections(o, src, p.(dumped := {}), src.inventory.collections)
    case Err(e) => Err(e)
    case Ok(q) => DumpViews(o, src, q, src.inventory.views)
  }

  function DumpAll(o: Options, sources: seq<Source>): Result<Progress, DumpError> {
    if sources == [] then Ok(Progress([], map[], {}))
    else match DumpAll(o, sources[..|sources| - 1])
      case Err(e) => Err(e)
      case Ok(before) => DumpDatabase(o, sources[|sources| - 1], before)
  }

  // --- the same, writing as it goes ------------------------------------------------------------------

  class Destination {
    var artifacts: seq<Artifact>
    var objects: Objects
    var dumped: set<string>

    ghost function Contents(): Progress
      reads this
    {
      Progress(artifacts, objects, dumped)
    }

    constructor ()
      ensures Contents() == Progress([], map[], {})
    {
      artifacts, objects, dumped := [], map[], {};
    }

    method Write(a: Artifact, content: Object)
      modifies this`artifacts, this`objects
      ensures artifacts == old(artifacts) + [a] && objects == old(objects)[a.path := content]
    {
      objects := objects[a.path := content];
      artifacts := artifacts + [a];
    }

    method WriteInventory(o: Options, src: Source) returns (r: Result<(), DumpError>)
      modifies this
      ensures match DumpCollections(o, src, old(Contents()).(dumped := {}), src.inventory.collections)
              case Err(e) => r == Err(e)
              case Ok(p) => r == Ok(()) && Contents() == p
    {
      dumped := {};
      ghost var start := Contents();
      var cs := src.inventory.collections;
      for i := 0 to |cs|
        invariant DumpCollections(o, src, start, cs[..i]) == Ok(Contents())
      {
        assert cs[..i + 1][..i] == cs[..i];
        var c := cs[i];
        if IsSystem(c) && !o.includeSystem { continue; }
        if c.name.None? {
          CollectionsStop(o, src, start, cs, i + 1);
          return Err(CollectionWithoutName);
        }
        var name := c.name.value;
        if !IsSystem(c) && !PassesFilters(o, name) { continue; }
        Write(CollectionArtifact(o, src.database, name, Structural), StructureObject(Structure(name, c.isEdge, c.indexes)));
        Write(CollectionArtifact(o, src.database, name, Content), DataObject(src.content(name)));
        dumped := dumped + {name};
      }
      assert cs[..|cs|] == cs;
      return Ok(());
    }

    method WriteViews(o: Options, src: Source) returns (r: Result<(), DumpError>)
      modifies this
      ensures match DumpViews(o, src, old(Contents()), src.inventory.views)
              case Err(e) => r == Err(e)
              case Ok(p) => r == Ok(()) && Contents() == p
    {
      ghost var start := Contents();
      var vs := src.inventory.views;
      for i := 0 to |vs|
        invariant DumpViews(o, src, start, vs[..i]) == Ok(Contents())
      {
        assert vs[..i + 1][..i] == vs[..i];
        if vs[i].name.None? {
          ViewsStop(o, src, start, vs, i + 1);
          return Err(ViewWithoutName);
        }
        var missing := ViewTargets(vs[i]) - dumped;
        NothingMissing(ViewTargets(vs[i]), dumped);
        if missing != {} { continue; }
        Write(ViewArtifact(o, src.database, vs[i].name.value), ViewObject(vs[i]));
      }
      assert vs[..|vs|] == vs;
      return Ok(());
    }
  }

  lemma NothingMissing(targets: set<string>, dumped: set<string>)
    ensures targets - dumped == {} <==> targets <= dumped
  {
    if targets - dumped == {} {
      forall t | t in targets ensures t in dumped {
        assert t !in targets - dumped;
      }
    }
  }

  lemma {:induction false} CollectionsStop(o: Options, src: Source, p: Progress, cs: seq<InventoryCollection>, k: nat)
    requires k <= |cs| && DumpCollections(o, src, p, cs[..k]).Err?
    ensures DumpCollections(o, src, p, cs) == DumpCollections(o, src, p, cs[..k])
    decreases |cs|
  {
    if k < |cs| {
      assert cs[..|cs| - 1][..k] == cs[..k];
      CollectionsStop(o, src, p, cs[..|cs| - 1], k);
    } else {
      assert cs[..k] == cs;
    }
  }

  lemma {:induction false} ViewsStop(o: Options, src: Source, p: Progress, vs: seq<View>, k: nat)
    requires k <= |vs| && DumpViews(o, src, p, vs[..k]).Err?
    ensures DumpViews(o, src, p, vs) == DumpViews(o, src, p, vs[..k])
    decreases |vs|
  {
    if k < |vs| {
      assert vs[..|vs| - 1][..k] == vs[..k];
      ViewsStop(o, src, p, vs[..|vs| - 1], k);
    } else {
      assert vs[..k] == vs;
    }
  }

  lemma {:induction false} DumpStop(o: Options, sources: seq<Source>, k: nat)
    requires k <= |sources| && DumpAll(o, sources[..k]).Err?
    ensures DumpAll(o, sources) == DumpAll(o, sources[..k])
    decreases |sources|
  {
    if k < |sources| {
      assert sources[..|sources| - 1][..k] == sources[..k];
      DumpStop(o, sources[..|sources| - 1], k);
    } else {
      assert sources[..k] == sources;
    }
  }

  // Database after database into one manifest; nothing is returned on an error.
  method Dump(o: Options, sources: seq<Source>) returns (r: Result<(seq<Artifact>, Objects), DumpError>)
    ensures match DumpAll(o, sources) case Err(e) => r == Err(e) case Ok(p) => r == Ok((p.artifacts, p.objects))
  {
    var destination := new Destination();
    for i := 0 to |sources|
      invariant fresh(destination) && DumpAll(o, sources[..i]) == Ok(destination.Contents())
    {
      assert sources[..i + 1][..i] == sources[..i];
      var step := destination.WriteInventory(o, sources[i]);
      if step.Ok? { step := destination.WriteViews(o, sources[i]); }
      if step.Err? {
        DumpStop(o, sources, i + 1);
        return Err(step.error);
      }
    }
    assert sources[..|sources|] == sources;
    return Ok((destination.artifacts, destination.objects));
  }

  // --- paging a collection's data ---------------------------------------------------------------------

  datatype Chunk = Chunk(body: Bytes, lastTick: nat, more: bool)

  // A line of the data and the tick it is ordered by.
  datatype Entry = Entry(tick: nat, line: Bytes)

  predicate Log(entries: seq<Entry>) {
    && (forall i :: 0 <= i < |entries| ==> entries[i].tick > 0)
    && (forall i, j :: 0 <= i < j < |entries| ==> entries[i].tick < entries[j].tick)
  }

  function Lines(entries: seq<Entry>): Bytes {
    if entries == [] then [] else entries[0].line + Lines(entries[1..])
  }

  // How many entries have a tick up to `from`.
  function Behind(entries: seq<Entry>, from: nat): (n: nat)
    ensures n <= |entries|
  {
    if entries == [] || entries[0].tick > from then 0 else 1 + Behind(entries[1..], from)
  }

  // A server that serves the log: each chunk holds entries behind `from`, at least one
  // while there are any, and says truthfully where it ends and whether more follow.
  ghost predicate Serves(server: nat -> Chunk, entries: seq<Entry>) {
    forall from: nat :: ServesFrom(server(from), entries, Behind(entries, from))
  }

  ghost predicate ServesFrom(chunk: Chunk, entries: seq<Entry>, n: nat)
    requires n <= |entries|
  {
    exists m :: n <= m <= |entries| && ChunkIs(chunk, entries, n, m)
  }

  predicate ChunkIs(chunk: Chunk, entries: seq<Entry>, n: nat, m: nat)
    requires n <= m <= |entries|
  {
    && chunk.body == Lines(entries[n..m])
    && chunk.more == (m < |entries|)
    && (n < |entries| ==> n < m)
    && chunk.lastTick == if n == m then 0 else entries[m - 1].tick
  }

  lemma {:induction false} BehindAt(entries: seq<Entry>, m: nat)
    requires Log(entries) && 0 < m <= |entries|
    ensures Behind(entries, entries[m - 1].tick) == m
    decreases m
  {
    assert Log(entries[1..]) by {
      assert forall i :: 0 <= i < |entries| - 1 ==> entries[1..][i] == entries[i + 1];
    }
    if m == 1 {
      assert entries[1..] != [] ==> entries[1..][0] == entries[1];
    } else {
      assert entries[1..][m - 2] == entries[m - 1] && entries[0].tick < entries[m - 1].tick;
      BehindAt(entries[1..], m - 1);
    }
  }

  lemma {:induction false} LinesConcat(a: seq<Entry>, b: seq<Entry>)
    ensures Lines(a + b) == Lines(a) + Lines(b)
  {
    if a == [] {
      assert a + b == b;
    } else {
      assert (a + b)[1..] == a[1..] + b;
      LinesConcat(a[1..], b);
    }
  }

  lemma LinesSplit(entries: seq<Entry>, n: nat, m: nat)
    requires n <= m <= |entries|
    ensures Lines(entries[..m]) == Lines(entries[..n]) + Lines(entries[n..m])
  {
    LinesConcat(entries[..n], entries[n..m]);
    assert entries[..n] + entries[n..m] == entries[..m];
  }

  lemma BehindNothing(entries: seq<Entry>)
    requires Log(entries)
    ensures Behind(entries, 0) == 0
  {
  }

  // Main result: paging ends on every server, since the tick must advance and ticks
  // have a fixed width (`limit` is their largest value), and against one that serves the log it delivers the log's lines exactly once and in order.
  // The non-empty bodies are yielded one by one; here they are joined.
  method DumpData(server: nat -> Chunk, ghost entries: seq<Entry>, limit: nat) returns (body: Bytes)
    requires Log(entries)
    requires forall from: nat :: server(from).lastTick <= limit
    ensures Serves(server, entries) ==> body == Lines(entries)
  {
    body := [];
    var from: nat := 0;
    ghost var n: nat := 0;
    var ended := false;
    BehindNothing(entries);
    assert entries[..0] == [];
    while !ended
      invariant from <= limit && n <= |entries|
      invariant !ended && Serves(server, entries) ==> Behind(entries, from) == n
      invariant Serves(server, entries) ==> body == Lines(entries[..n]) && (ended ==> n == |entries|)
      decreases if ended then 0 else 1, limit - from
    {
      var chunk := server(from);
      if chunk.body != [] { body := body + chunk.body; }
      if Serves(server, entries) {
        n := AfterChunk(server, entries, from, n);
      }
      var next := chunk.lastTick;
      if !chunk.more || next == 0 || next <= from {
        ended := true;
      } else {
        from := next;
      }
    }
    assert entries[..|entries|] == entries;
  }

  // Where a chunk ends: the lines up to there, and either all of them or a later tick.
  ghost method AfterChunk(server: nat -> Chunk, entries: seq<Entry>, from: nat, n: nat) returns (m: nat)
    requires Log(entries) && Serves(server, entries) && n == Behind(entries, from) && n <= |entries|
    ensures n <= m <= |entries| && Lines(entries[..m]) == Lines(entries[..n]) + server(from).body
    ensures server(from).more ==> server(from).lastTick > from && Behind(entries, server(from).lastTick) == m
    ensures !server(from).more ==> m == |entries|
  {
    assert ServesFrom(server(from), entries, n);
    m :| n <= m <= |entries| && ChunkIs(server(from), entries, n, m);
    LinesSplit(entries, n, m);
    if m < |entries| {
      BehindAt(entries, m);
      BehindEnds(entries, from, m - 1);
    }
  }

  lemma {:induction false} BehindEnds(entries: seq<Entry>, from: nat, k: nat)
    requires Log(entries) && Behind(entries, from) <= k < |entries|
    ensures entries[k].tick > from
    decreases |entries|
  {
    if entries[0].tick <= from {
      assert Log(entries[1..]) by {
        assert forall i :: 0 <= i < |entries| - 1 ==> entries[1..][i] == entries[i + 1];
      }
      BehindEnds(entries[1..], from, k - 1);
      assert entries[1..][k - 1] == entries[k];
    } else if k > 0 {
      assert entries[0].tick < entries[k].tick;
    }
  }
}
