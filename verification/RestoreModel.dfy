// A restore run as a function of the server, the checkpoint object and a plan of
// faults: every request may fail, or may take effect and be the last thing the run
// does; every checkpoint write may be lost or torn without the run noticing.

module RestoreModel {
  import opened Common
  import opened DumpFormat

  // --- the server ---------------------------------------------------------------------

  // A collection holds the bodies loaded into it, in order, and the indexes built.
  datatype Collection = Collection(structure: Structure, bodies: seq<Bytes>, indexes: seq<Index>)

  datatype Database = Database(collections: map<string, Collection>, views: map<string, View>)

  type Server = map<string, Database>

  datatype Request =
    | CreateDatabase(database: string)
    | CreateCollection(database: string, structure: Structure, overwrite: bool)
    | LoadData(database: string, collection: string, body: Bytes)
    | CreateIndex(database: string, collection: string, index: Index)
    | DropView(database: string, gone: string)
    | CreateView(database: string, name: string, view: View)

  datatype RestoreError =
    | Encrypted | VelocyPack(path: string) | NoStructure(collection: string) | NoName(path: string) | BadObject(path: string)
    | NotThisDump | BadCheckpoint | Transport
    | NoDatabase(database: string) | Exists(name: string) | NoCollection(name: string) | ViewRefused(name: string)

  function CollectionAt(s: Server, database: string, name: string): Option<Collection> {
    if database in s && name in s[database].collections then Some(s[database].collections[name]) else None
  }

  function PutCollection(s: Server, database: string, name: string, c: Collection): Server
    requires database in s
  {
    s[database := s[database].(collections := s[database].collections[name := c])]
  }

  predicate HasIndex(d: Database, collection: string, index: string) {
    collection in d.collections && exists k :: 0 <= k < |d.collections[collection].indexes| && d.collections[collection].indexes[k].name == index
  }

  // Links must name existing collections; a search-alias must name existing indexes.
  predicate Accepts(d: Database, v: View) {
    && (forall k :: 0 <= k < |v.links| ==> v.links[k] in d.collections)
    && (IsSearchAlias(v) ==> forall k :: 0 <= k < |v.indexes| ==> HasIndex(d, v.indexes[k].0, v.indexes[k].1))
  }

  function Perform(s: Server, r: Request): Result<Server, RestoreError> {
    match r
    case CreateDatabase(database) => Ok(if database in s then s else s[database := Database(map[], map[])])
    case _ =>
      if r.database !in s then Err(NoDatabase(r.database)) else PerformIn(s, r)
  }

  function PerformIn(s: Server, r: Request): Result<Server, RestoreError>
    requires r.database in s && !r.CreateDatabase?
  {
    var d := s[r.database];
    match r
    case CreateCollection(database, structure, overwrite) =>
      if structure.name in d.collections && !overwrite then Err(Exists(structure.name))
      else Ok(PutCollection(s, database, structure.name, Collection(structure, [], [])))
    case LoadData(database, name, body) =>
      if name !in d.collections then Err(NoCollection(name))
      else Ok(PutCollection(s, database, name, d.collections[name].(bodies := d.collections[name].bodies + [body])))
    case CreateIndex(database, name, index) =>
      if name !in d.collections then Err(NoCollection(name))
      else Ok(PutCollection(s, database, name, d.collections[name].(indexes := d.collections[name].indexes + [index])))
    case DropView(database, name) => Ok(s[database := d.(views := d.views - {name})])
    case CreateView(database, name, view) =>
      if name in d.views then Err(Exists(name))
      else if !Accepts(d, view) then Err(ViewRefused(name))
      else Ok(s[database := d.(views := d.views[name := view])])
  }

  // A request that is cut short may have loaded only part of its body.
  function Shortened(r: Request, kept: nat): Request {
    if r.LoadData? then r.(body := r.body[..Min(kept, |r.body|)]) else r
  }

  // --- faults ---------------------------------------------------------------------------

  // Refuse: nothing happens and the run fails. Cut: the request takes effect, whole or
  // in part, and the run ends there.
  datatype Fault = Done | Refuse | Cut(kept: nat)

  datatype WriteFault = Landed | Lost | Torn

  // One entry a request, one a checkpoint write; none beyond the end.
  datatype Plan = Plan(requests: seq<Fault>, writes: seq<WriteFault>)

  function NextRequest(p: Plan): Fault { if p.requests == [] then Done else p.requests[0] }

  function AfterRequest(p: Plan): Plan { if p.requests == [] then p else p.(requests := p.requests[1..]) }

  function NextWrite(p: Plan): WriteFault { if p.writes == [] then Landed else p.writes[0] }

  function AfterWrite(p: Plan): Plan { if p.writes == [] then p else p.(writes := p.writes[1..]) }

  // --- a run ------------------------------------------------------------------------------

  datatype Settings = Settings(overwrite: bool, createDatabase: Option<string>, checkpoint: bool, clientDatabase: string)

  datatype Saved = Absent | Checkpoint(manifest: string, completed: seq<string>) | TornCheckpoint

  datatype Group = Group(name: string, database: Option<string>, structurePath: string, dataPaths: seq<string>)

  datatype Unit = Unit(group: Group, structure: Structure)

  datatype ViewUnit = ViewUnit(name: string, database: Option<string>, definition: View)

  // What a run carries: the server and the checkpoint object as they are now, what the
  // run believes is complete, its counters, and why it stopped if it has.
  datatype Run = Run(
    server: Server, saved: Saved, manifest: string, completed: seq<string>,
    restored: nat, skipped: nat, views: nat, plan: Plan, failed: Option<RestoreError>)

  function Target(o: Settings, database: Option<string>): string {
    match database
    case Some(name) => name
    case None => if o.createDatabase.Some? then o.createDatabase.value else o.clientDatabase
  }

  function NameOr(database: Option<string>): string { if database.Some? then database.value else [] }

  function CollectionId(database: Option<string>, name: string): string { NameOr(database) + ("::" + name) }

  function ViewId(database: Option<string>, name: string): string { NameOr(database) + ("::view::" + name) }

  function UnitId(u: Unit): string { CollectionId(u.group.database, u.group.name) }

  function ViewUnitId(v: ViewUnit): string { ViewId(v.database, v.name) }

  // One request under the plan; a run that has failed does nothing more.
  function Ask(run: Run, request: Request): Run {
    if run.failed.Some? then run
    else
      var next := run.(plan := AfterRequest(run.plan));
      match NextRequest(run.plan)
      case Refuse => next.(failed := Some(Transport))
      case Done =>
        (match Perform(run.server, request) case Ok(s) => next.(server := s) case Err(e) => next.(failed := Some(e)))
      case Cut(kept) =>
        (match Perform(run.server, Shortened(request, kept))
         case Ok(s) => next.(server := s, failed := Some(Transport))
         case Err(e) => next.(failed := Some(e)))
  }

  predicate Has(run: Run, o: Settings, id: string) { o.checkpoint && id in run.completed }

  // A unit is recorded in memory, then written out; a failed write is only logged.
  function Record(run: Run, o: Settings, id: string): Run {
    if run.failed.Some? || !o.checkpoint then run
    else
      var next := run.(completed := run.completed + [id], plan := AfterWrite(run.plan));
      match NextWrite(run.plan)
      case Landed => next.(saved := Checkpoint(run.manifest, next.completed))
      case Lost => next
      case Torn => next.(saved := TornCheckpoint)
  }

  // --- the phases, each a fold over the units in order --------------------------------------

  function CreateDatabases(run: Run, databases: seq<string>): Run {
    if databases == [] then run
    else Ask(CreateDatabases(run, databases[..|databases| - 1]), CreateDatabase(databases[|databases| - 1]))
  }

  function CreateOne(run: Run, o: Settings, u: Unit): Run {
    if Has(run, o, UnitId(u)) then run
    else Ask(run, CreateCollection(Target(o, u.group.database), u.structure, o.overwrite))
  }

  function CreateAll(run: Run, o: Settings, units: seq<Unit>): Run {
    if units == [] then run else CreateOne(CreateAll(run, o, units[..|units| - 1]), o, units[|units| - 1])
  }

  function Counted(run: Run, restored: nat, skipped: nat, views: nat): Run {
    if run.failed.Some? then run
    else run.(restored := run.restored + restored, skipped := run.skipped + skipped, views := run.views + views)
  }

  function MakeView(run: Run, o: Settings, v: ViewUnit): Run {
    var database := Target(o, v.database);
    var cleared := if o.overwrite then Ask(run, DropView(database, v.name)) else run;
    Ask(cleared, CreateView(database, v.name, v.definition))
  }

  function ViewOne(run: Run, o: Settings, v: ViewUnit, aliases: bool): Run {
    if IsSearchAlias(v.definition) != aliases || Has(run, o, ViewUnitId(v)) then run
    else Record(Counted(MakeView(run, o, v), 0, 0, 1), o, ViewUnitId(v))
  }

  function ViewAll(run: Run, o: Settings, views: seq<ViewUnit>, aliases: bool): Run {
    if views == [] then run else ViewOne(ViewAll(run, o, views[..|views| - 1], aliases), o, views[|views| - 1], aliases)
  }

  // A data object that cannot be read ends the run.
  function LoadPart(run: Run, database: string, name: string, objects: Objects, path: string): Run {
    if path in objects && objects[path].DataObject? then Ask(run, LoadData(database, name, objects[path].body))
    else if run.failed.Some? then run
    else run.(failed := Some(BadObject(path)))
  }

  function LoadParts(run: Run, database: string, name: string, objects: Objects, paths: seq<string>): Run {
    if paths == [] then run
    else LoadPart(LoadParts(run, database, name, objects, paths[..|paths| - 1]), database, name, objects, paths[|paths| - 1])
  }

  function BuildIndexes(run: Run, database: string, name: string, indexes: seq<Index>): Run {
    if indexes == [] then run
    else
      var before := BuildIndexes(run, database, name, indexes[..|indexes| - 1]);
      var index := indexes[|indexes| - 1];
      if Implicit(index) then before else Ask(before, CreateIndex(database, name, index))
  }

  function LoadCollection(run: Run, o: Settings, objects: Objects, u: Unit): Run {
    var database := Target(o, u.group.database);
    var loaded := LoadParts(run, database, u.group.name, objects, u.group.dataPaths);
    BuildIndexes(loaded, database, u.group.name, u.structure.indexes)
  }

  function LoadOne(run: Run, o: Settings, objects: Objects, u: Unit): Run {
    if Has(run, o, UnitId(u)) then Counted(run, 0, 1, 0)
    else Record(Counted(LoadCollection(run, o, objects, u), 1, 0, 0), o, UnitId(u))
  }

  function LoadAll(run: Run, o: Settings, objects: Objects, units: seq<Unit>): Run {
    if units == [] then run else LoadOne(LoadAll(run, o, objects, units[..|units| - 1]), o, objects, units[|units| - 1])
  }

  // Phases 1 to 4: collections, views before data, data with indexes, search-alias
  // views after data.
  function Phases(run: Run, o: Settings, objects: Objects, units: seq<Unit>, views: seq<ViewUnit>): Run {
    ViewAll(LoadAll(ViewAll(CreateAll(run, o, units), o, views, false), o, objects, units), o, views, true)
  }

  // --- reading the dump ------------------------------------------------------------------------

  function FirstBad(artifacts: seq<Artifact>): Option<string> {
    if artifacts == [] then None
    else match FirstBad(artifacts[..|artifacts| - 1])
      case Some(path) => Some(path)
      case None =>
        var a := artifacts[|artifacts| - 1];
        if a.kind.Content? && a.vpack then Some(a.path) else None
  }

  function Validate(m: Manifest): Option<RestoreError> {
    if m.encrypted then Some(Encrypted)
    else match FirstBad(m.artifacts) case Some(path) => Some(VelocyPack(path)) case None => None
  }

  // The position of the group for this collection, or the number of groups.
  function GroupIndex(groups: seq<Group>, name: string, database: Option<string>): (k: nat)
    ensures k <= |groups|
    ensures k < |groups| ==> groups[k].name == name && groups[k].database == database
    ensures forall j :: 0 <= j < k ==> !(groups[j].name == name && groups[j].database == database)
  {
    if groups == [] then 0
    else if groups[0].name == name && groups[0].database == database then 0
    else 1 + GroupIndex(groups[1..], name, database)
  }

  function AddPath(g: Group, a: Artifact): Group {
    match a.kind
    case Structural => g.(structurePath := a.path)
    case Content => g.(dataPaths := g.dataPaths + [a.path])
    case _ => g
  }

  function AddArtifact(groups: seq<Group>, a: Artifact): seq<Group> {
    if a.collection.None? then groups
    else
      var k := GroupIndex(groups, a.collection.value, a.database);
      if k < |groups| then groups[k := AddPath(groups[k], a)]
      else groups + [AddPath(Group(a.collection.value, a.database, [], []), a)]
  }

  function GroupByCollection(artifacts: seq<Artifact>): seq<Group> {
    if artifacts == [] then [] else AddArtifact(GroupByCollection(artifacts[..|artifacts| - 1]), artifacts[|artifacts| - 1])
  }

  function ReadUnit(objects: Objects, g: Group): Result<Unit, RestoreError> {
    if g.structurePath == [] then Err(NoStructure(g.name))
    else if g.structurePath in objects && objects[g.structurePath].StructureObject? then
      Ok(Unit(g, objects[g.structurePath].structure))
    else Err(BadObject(g.structurePath))
  }

  function ReadUnits(objects: Objects, groups: seq<Group>): Result<seq<Unit>, RestoreError> {
    if groups == [] then Ok([])
    else match ReadUnits(objects, groups[..|groups| - 1])
      case Err(e) => Err(e)
      case Ok(units) =>
        (match ReadUnit(objects, groups[|groups| - 1]) case Err(e) => Err(e) case Ok(u) => Ok(units + [u]))
  }

  function ReadView(objects: Objects, a: Artifact): Result<ViewUnit, RestoreError> {
    if !(a.path in objects && objects[a.path].ViewObject?) then Err(BadObject(a.path))
    else
      var definition := objects[a.path].view;
      if a.view.Some? then Ok(ViewUnit(a.view.value, a.database, definition))
      else if definition.name.Some? then Ok(ViewUnit(definition.name.value, a.database, definition))
      else Err(NoName(a.path))
  }

  function ReadViews(objects: Objects, artifacts: seq<Artifact>): Result<seq<ViewUnit>, RestoreError> {
    if artifacts == [] then Ok([])
    else match ReadViews(objects, artifacts[..|artifacts| - 1])
      case Err(e) => Err(e)
      case Ok(views) =>
        var a := artifacts[|artifacts| - 1];
        if !a.kind.ViewDefinition? then Ok(views)
        else (match ReadView(objects, a) case Err(e) => Err(e) case Ok(v) => Ok(views + [v]))
  }

  // Databases in order of first appearance.
  function DatabaseOrder(units: seq<Unit>): seq<Option<string>> {
    if units == [] then []
    else
      var before := DatabaseOrder(units[..|units| - 1]);
      var d := units[|units| - 1].group.database;
      if d in before then before else before + [d]
  }

  function Position(order: seq<Option<string>>, d: Option<string>): nat {
    if order == [] || order[0] == d then 0 else 1 + Position(order[1..], d)
  }

  // By database, then documents before edges.
  function SortKey(order: seq<Option<string>>, u: Unit): nat {
    2 * Position(order, u.group.database) + Bit(u.structure.isEdge)
  }

  function Insert(order: seq<Option<string>>, sorted: seq<Unit>, u: Unit): seq<Unit> {
    if sorted == [] || SortKey(order, sorted[|sorted| - 1]) <= SortKey(order, u) then sorted + [u]
    else Insert(order, sorted[..|sorted| - 1], u) + [sorted[|sorted| - 1]]
  }

  function Sorted(order: seq<Option<string>>, units: seq<Unit>): seq<Unit> {
    if units == [] then [] else Insert(order, Sorted(order, units[..|units| - 1]), units[|units| - 1])
  }

  function Named(order: seq<Option<string>>): seq<string> {
    if order == [] then [] else Named(order[..|order| - 1]) + if order[|order| - 1].Some? then [order[|order| - 1].value] else []
  }

  // The databases to create before anything else: those of a multi-database dump, or
  // else the one asked for.
  function ToCreate(o: Settings, order: seq<Option<string>>): seq<string> {
    if Named(order) != [] then Named(order)
    else if o.createDatabase.Some? then [o.createDatabase.value]
    else []
  }

  // The units completed by earlier runs, unless the object is torn or another dump's.
  function LoadCheckpoint(o: Settings, saved: Saved, fingerprint: string): Result<seq<string>, RestoreError> {
    if !o.checkpoint || saved.Absent? then Ok([])
    else if saved.TornCheckpoint? then Err(BadCheckpoint)
    else if saved.manifest != fingerprint then Err(NotThisDump)
    else Ok(saved.completed)
  }

  // --- the whole run ---------------------------------------------------------------------------

  // What persists between runs.
  datatype World = World(server: Server, saved: Saved)

  datatype Summary = Summary(collections: nat, restored: nat, skipped: nat, views: nat)

  datatype Outcome = Outcome(world: World, result: Result<Summary, RestoreError>)

  function Started(w: World, fingerprint: string, plan: Plan): Run {
    Run(w.server, w.saved, fingerprint, [], 0, 0, 0, plan, None)
  }

  function Ended(run: Run, collections: nat): Outcome {
    Outcome(World(run.server, run.saved),
            match run.failed
            case Some(e) => Err(e)
            case None => Ok(Summary(collections, run.restored, run.skipped, run.views)))
  }

  // From the units and views read from the dump.
  function Restored(w: World, o: Settings, fingerprint: string, objects: Objects, units: seq<Unit>, views: seq<ViewUnit>, order: seq<Option<string>>, plan: Plan): Outcome {
    var created := CreateDatabases(Started(w, fingerprint, plan), ToCreate(o, order));
    if created.failed.Some? then Ended(created, |units|)
    else match LoadCheckpoint(o, w.saved, fingerprint)
      case Err(e) => Ended(created.(failed := Some(e)), |units|)
      case Ok(completed) => Ended(Phases(created.(completed := completed), o, objects, units, views), |units|)
  }

  function Restore(w: World, o: Settings, m: Manifest, objects: Objects, plan: Plan): Outcome {
    match Validate(m)
    case Some(e) => Outcome(w, Err(e))
    case None =>
      match ReadUnits(objects, GroupByCollection(m.artifacts))
      case Err(e) => Outcome(w, Err(e))
      case Ok(units) =>
        var order := DatabaseOrder(units);
        match ReadViews(objects, m.artifacts)
        case Err(e) => Outcome(w, Err(e))
        case Ok(views) => Restored(w, o, Fingerprint(m), objects, Sorted(order, units), views, order, plan)
  }
}
