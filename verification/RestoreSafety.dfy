// Interrupted restores: what a checkpoint promises, what every run keeps, and that a
// run that returns Ok leaves every collection holding its data exactly once.

module RestoreSafety {
  import opened Common
  import opened DumpFormat
  import opened RestoreModel

  // --- collections and requests ---------------------------------------------------------

  datatype Place = Place(database: string, name: string)

  function PlaceOf(o: Settings, u: Unit): Place { Place(Target(o, u.group.database), u.group.name) }

  function At(s: Server, p: Place): Option<Collection> { CollectionAt(s, p.database, p.name) }

  predicate Touches(r: Request, p: Place) {
    match r
    case CreateCollection(database, structure, _) => p == Place(database, structure.name)
    case LoadData(database, name, _) => p == Place(database, name)
    case CreateIndex(database, name, _) => p == Place(database, name)
    case _ => false
  }

  lemma PerformLeaves(s: Server, r: Request, p: Place)
    requires !Touches(r, p) && Perform(s, r).Ok?
    ensures At(Perform(s, r).value, p) == At(s, p)
  {
  }

  lemma AskLeaves(run: Run, r: Request, p: Place)
    requires !Touches(r, p)
    ensures At(Ask(run, r).server, p) == At(run.server, p)
  {
    if run.failed.None? {
      var kept := if NextRequest(run.plan).Cut? then NextRequest(run.plan).kept else 0;
      var cut := Shortened(r, kept);
      if Perform(run.server, r).Ok? { PerformLeaves(run.server, r, p); }
      if Perform(run.server, cut).Ok? { PerformLeaves(run.server, cut, p); }
    }
  }

  // A request changes nothing but the server, the plan and the failure.
  lemma AskKeeps(run: Run, r: Request)
    ensures var next := Ask(run, r);
            && next.saved == run.saved && next.manifest == run.manifest && next.completed == run.completed
            && next.restored == run.restored && next.skipped == run.skipped && next.views == run.views
            && (run.failed.Some? ==> next == run)
  {
  }

  // --- one unit ------------------------------------------------------------------------------

  function Bodies(objects: Objects, paths: seq<string>): seq<Bytes> {
    if paths == [] then []
    else
      var path := paths[|paths| - 1];
      Bodies(objects, paths[..|paths| - 1]) + if path in objects && objects[path].DataObject? then [objects[path].body] else []
  }

  // All parts once, in order, and all indexes that are not implicit.
  predicate Complete(s: Server, o: Settings, objects: Objects, u: Unit) {
    At(s, PlaceOf(o, u)) == Some(Collection(u.structure, Bodies(objects, u.group.dataPaths), OwnIndexes(u.structure.indexes)))
  }

  predicate Empty(s: Server, o: Settings, u: Unit) { At(s, PlaceOf(o, u)) == Some(Collection(u.structure, [], [])) }

  // Written out, a unit's id is one the run itself believes in.
  predicate SavedKnown(run: Run, o: Settings, id: string) {
    o.checkpoint && run.saved.Checkpoint? && run.saved.manifest == run.manifest && id in run.saved.completed ==> id in run.completed
  }

  predicate Good(run: Run, o: Settings, objects: Objects, u: Unit) {
    && (Has(run, o, UnitId(u)) ==> Complete(run.server, o, objects, u))
    && SavedKnown(run, o, UnitId(u))
  }

  predicate Ready(run: Run, o: Settings, u: Unit) { run.failed.Some? || Has(run, o, UnitId(u)) || Empty(run.server, o, u) }

  predicate Finished(run: Run, o: Settings, objects: Objects, u: Unit) { run.failed.Some? || Complete(run.server, o, objects, u) }

  // Between these two states the run left this unit alone.
  predicate Left(a: Run, b: Run, o: Settings, u: Unit) {
    && At(b.server, PlaceOf(o, u)) == At(a.server, PlaceOf(o, u))
    && (UnitId(u) in a.completed <==> UnitId(u) in b.completed)
    && b.manifest == a.manifest
    && (SavedKnown(a, o, UnitId(u)) ==> SavedKnown(b, o, UnitId(u)))
    && (a.failed.Some? ==> b.failed.Some?)
  }

  lemma LeftTrans(a: Run, b: Run, c: Run, o: Settings, u: Unit)
    requires Left(a, b, o, u) && Left(b, c, o, u)
    ensures Left(a, c, o, u)
  {
  }

  lemma AskIsLeft(run: Run, r: Request, o: Settings, u: Unit)
    requires !Touches(r, PlaceOf(o, u))
    ensures Left(run, Ask(run, r), o, u)
  {
    AskLeaves(run, r, PlaceOf(o, u));
    AskKeeps(run, r);
  }

  lemma RecordIsLeft(run: Run, o: Settings, id: string, u: Unit)
    requires id != UnitId(u)
    ensures Left(run, Record(run, o, id), o, u)
  {
  }

  lemma CountedIsLeft(run: Run, restored: nat, skipped: nat, views: nat, o: Settings, u: Unit)
    ensures Left(run, Counted(run, restored, skipped, views), o, u)
  {
  }

  // Different collections under different ids; parameters carry the group's name.
  predicate Apart(o: Settings, u: Unit, v: Unit) {
    v.structure.name == v.group.name && PlaceOf(o, u) != PlaceOf(o, v) && UnitId(u) != UnitId(v)
  }

  // --- phases that leave a unit alone -------------------------------------------------------------

  lemma {:induction false} DatabasesLeave(run: Run, databases: seq<string>, o: Settings, u: Unit)
    ensures Left(run, CreateDatabases(run, databases), o, u)
    decreases |databases|
  {
    if databases != [] {
      var before := CreateDatabases(run, databases[..|databases| - 1]);
      DatabasesLeave(run, databases[..|databases| - 1], o, u);
      AskIsLeft(before, CreateDatabase(databases[|databases| - 1]), o, u);
      LeftTrans(run, before, CreateDatabases(run, databases), o, u);
    }
  }

  // Another unit, or this one when it is already recorded.
  predicate Spares(run: Run, o: Settings, v: Unit, u: Unit) { Apart(o, u, v) || (UnitId(v) == UnitId(u) && Has(run, o, UnitId(u))) }

  predicate SparesAll(run: Run, o: Settings, units: seq<Unit>, u: Unit) { forall k :: 0 <= k < |units| ==> Spares(run, o, units[k], u) }

  lemma CreateOneLeaves(run: Run, o: Settings, v: Unit, u: Unit)
    requires Spares(run, o, v, u)
    ensures Left(run, CreateOne(run, o, v), o, u)
  {
    if !Has(run, o, UnitId(v)) {
      AskIsLeft(run, CreateCollection(Target(o, v.group.database), v.structure, o.overwrite), o, u);
    }
  }

  lemma SparesLater(a: Run, b: Run, o: Settings, v: Unit, u: Unit)
    requires Spares(a, o, v, u) && Left(a, b, o, u)
    ensures Spares(b, o, v, u)
  {
  }

  lemma {:induction false} CreateAllLeaves(run: Run, o: Settings, units: seq<Unit>, u: Unit)
    requires SparesAll(run, o, units, u)
    ensures Left(run, CreateAll(run, o, units), o, u)
    decreases |units|
  {
    if units != [] {
      var before := CreateAll(run, o, units[..|units| - 1]);
      CreateAllLeaves(run, o, units[..|units| - 1], u);
      SparesLater(run, before, o, units[|units| - 1], u);
      CreateOneLeaves(before, o, units[|units| - 1], u);
      LeftTrans(run, before, CreateAll(run, o, units), o, u);
    }
  }

  lemma MakeViewLeaves(run: Run, o: Settings, v: ViewUnit, u: Unit)
    ensures Left(run, MakeView(run, o, v), o, u)
  {
    var database := Target(o, v.database);
    var cleared := if o.overwrite then Ask(run, DropView(database, v.name)) else run;
    AskIsLeft(run, DropView(database, v.name), o, u);
    AskIsLeft(cleared, CreateView(database, v.name, v.definition), o, u);
    LeftTrans(run, cleared, MakeView(run, o, v), o, u);
  }

  lemma ViewOneLeaves(run: Run, o: Settings, v: ViewUnit, aliases: bool, u: Unit)
    requires ViewUnitId(v) != UnitId(u)
    ensures Left(run, ViewOne(run, o, v, aliases), o, u)
  {
    var made := MakeView(run, o, v);
    var counted := Counted(made, 0, 0, 1);
    MakeViewLeaves(run, o, v, u);
    CountedIsLeft(made, 0, 0, 1, o, u);
    RecordIsLeft(counted, o, ViewUnitId(v), u);
    LeftTrans(run, made, counted, o, u);
    LeftTrans(run, counted, Record(counted, o, ViewUnitId(v)), o, u);
  }

  predicate NoViewIs(views: seq<ViewUnit>, id: string) { forall k :: 0 <= k < |views| ==> ViewUnitId(views[k]) != id }

  lemma {:induction false} ViewAllLeaves(run: Run, o: Settings, views: seq<ViewUnit>, aliases: bool, u: Unit)
    requires NoViewIs(views, UnitId(u))
    ensures Left(run, ViewAll(run, o, views, aliases), o, u)
    decreases |views|
  {
    if views != [] {
      var before := ViewAll(run, o, views[..|views| - 1], aliases);
      ViewAllLeaves(run, o, views[..|views| - 1], aliases, u);
      ViewOneLeaves(before, o, views[|views| - 1], aliases, u);
      LeftTrans(run, before, ViewAll(run, o, views, aliases), o, u);
    }
  }

  lemma {:induction false} LoadPartsLeave(run: Run, p: Place, objects: Objects, paths: seq<string>, o: Settings, u: Unit)
    requires p != PlaceOf(o, u)
    ensures Left(run, LoadParts(run, p.database, p.name, objects, paths), o, u)
    decreases |paths|
  {
    if paths != [] {
      var path := paths[|paths| - 1];
      var before := LoadParts(run, p.database, p.name, objects, paths[..|paths| - 1]);
      LoadPartsLeave(run, p, objects, paths[..|paths| - 1], o, u);
      if path in objects && objects[path].DataObject? {
        AskIsLeft(before, LoadData(p.database, p.name, objects[path].body), o, u);
      }
      LeftTrans(run, before, LoadParts(run, p.database, p.name, objects, paths), o, u);
    }
  }

  lemma {:induction false} BuildIndexesLeave(run: Run, p: Place, indexes: seq<Index>, o: Settings, u: Unit)
    requires p != PlaceOf(o, u)
    ensures Left(run, BuildIndexes(run, p.database, p.name, indexes), o, u)
    decreases |indexes|
  {
    if indexes != [] {
      var before := BuildIndexes(run, p.database, p.name, indexes[..|indexes| - 1]);
      BuildIndexesLeave(run, p, indexes[..|indexes| - 1], o, u);
      AskIsLeft(before, CreateIndex(p.database, p.name, indexes[|indexes| - 1]), o, u);
      LeftTrans(run, before, BuildIndexes(run, p.database, p.name, indexes), o, u);
    }
  }

  lemma LoadCollectionLeaves(run: Run, o: Settings, objects: Objects, v: Unit, u: Unit)
    requires Apart(o, u, v)
    ensures Left(run, LoadCollection(run, o, objects, v), o, u)
  {
    var p := PlaceOf(o, v);
    var loaded := LoadParts(run, p.database, p.name, objects, v.group.dataPaths);
    LoadPartsLeave(run, p, objects, v.group.dataPaths, o, u);
    BuildIndexesLeave(loaded, p, v.structure.indexes, o, u);
    LeftTrans(run, loaded, LoadCollection(run, o, objects, v), o, u);
  }

  lemma LoadOneLeaves(run: Run, o: Settings, objects: Objects, v: Unit, u: Unit)
    requires Spares(run, o, v, u)
    ensures Left(run, LoadOne(run, o, objects, v), o, u)
  {
    if Has(run, o, UnitId(v)) {
      CountedIsLeft(run, 0, 1, 0, o, u);
    } else {
      var loaded := LoadCollection(run, o, objects, v);
      var counted := Counted(loaded, 1, 0, 0);
      LoadCollectionLeaves(run, o, objects, v, u);
      CountedIsLeft(loaded, 1, 0, 0, o, u);
      LeftTrans(run, loaded, counted, o, u);
      RecordIsLeft(counted, o, UnitId(v), u);
      LeftTrans(run, counted, Record(counted, o, UnitId(v)), o, u);
    }
  }

  lemma {:induction false} LoadAllLeaves(run: Run, o: Settings, objects: Objects, units: seq<Unit>, u: Unit)
    requires SparesAll(run, o, units, u)
    ensures Left(run, LoadAll(run, o, objects, units), o, u)
    decreases |units|
  {
    if units != [] {
      var before := LoadAll(run, o, objects, units[..|units| - 1]);
      LoadAllLeaves(run, o, objects, units[..|units| - 1], u);
      SparesLater(run, before, o, units[|units| - 1], u);
      LoadOneLeaves(before, o, objects, units[|units| - 1], u);
      LeftTrans(run, before, LoadAll(run, o, objects, units), o, u);
    }
  }

  // --- the unit's own steps ---------------------------------------------------------------------------

  lemma LeftKeepsAll(a: Run, b: Run, o: Settings, objects: Objects, u: Unit)
    requires Left(a, b, o, u)
    ensures Good(a, o, objects, u) ==> Good(b, o, objects, u)
    ensures Ready(a, o, u) ==> Ready(b, o, u)
    ensures Finished(a, o, objects, u) ==> Finished(b, o, objects, u)
  {
  }

  lemma CreateOwn(run: Run, o: Settings, objects: Objects, u: Unit)
    requires u.structure.name == u.group.name && Good(run, o, objects, u)
    ensures Good(CreateOne(run, o, u), o, objects, u) && Ready(CreateOne(run, o, u), o, u)
    ensures CreateOne(run, o, u).manifest == run.manifest
  {
    if !Has(run, o, UnitId(u)) {
      AskKeeps(run, CreateCollection(Target(o, u.group.database), u.structure, o.overwrite));
    }
  }

  // Loading starts from an empty collection; each part is appended once.
  predicate Loaded(run: Run, p: Place, structure: Structure, bodies: seq<Bytes>, indexes: seq<Index>) {
    run.failed.Some? || At(run.server, p) == Some(Collection(structure, bodies, indexes))
  }

  lemma AskAppends(run: Run, p: Place, c: Collection, body: Bytes)
    requires run.failed.Some? || At(run.server, p) == Some(c)
    ensures Loaded(Ask(run, LoadData(p.database, p.name, body)), p, c.structure, c.bodies + [body], c.indexes)
  {
  }

  lemma AskIndexes(run: Run, p: Place, c: Collection, index: Index)
    requires run.failed.Some? || At(run.server, p) == Some(c)
    ensures Loaded(Ask(run, CreateIndex(p.database, p.name, index)), p, c.structure, c.bodies, c.indexes + [index])
  {
  }

  lemma {:induction false} PartsLoad(run: Run, p: Place, structure: Structure, objects: Objects, paths: seq<string>)
    requires Loaded(run, p, structure, [], [])
    ensures Loaded(LoadParts(run, p.database, p.name, objects, paths), p, structure, Bodies(objects, paths), [])
    ensures KeepsRecords(run, LoadParts(run, p.database, p.name, objects, paths))
    decreases |paths|
  {
    if paths != [] {
      var path := paths[|paths| - 1];
      var before := LoadParts(run, p.database, p.name, objects, paths[..|paths| - 1]);
      PartsLoad(run, p, structure, objects, paths[..|paths| - 1]);
      if path in objects && objects[path].DataObject? {
        AskAppends(before, p, Collection(structure, Bodies(objects, paths[..|paths| - 1]), []), objects[path].body);
        AskKeeps(before, LoadData(p.database, p.name, objects[path].body));
      }
    }
  }

  // Requests record nothing and do not undo a failure.
  predicate KeepsRecords(a: Run, b: Run) {
    && b.saved == a.saved && b.manifest == a.manifest && b.completed == a.completed
    && b.restored == a.restored && b.skipped == a.skipped && b.views == a.views
    && (a.failed.Some? ==> b.failed.Some?)
  }

  lemma {:induction false} IndexesBuild(run: Run, p: Place, structure: Structure, bodies: seq<Bytes>, indexes: seq<Index>)
    requires Loaded(run, p, structure, bodies, [])
    ensures Loaded(BuildIndexes(run, p.database, p.name, indexes), p, structure, bodies, OwnIndexes(indexes))
    ensures KeepsRecords(run, BuildIndexes(run, p.database, p.name, indexes))
    decreases |indexes|
  {
    if indexes != [] {
      var before := BuildIndexes(run, p.database, p.name, indexes[..|indexes| - 1]);
      var index := indexes[|indexes| - 1];
      IndexesBuild(run, p, structure, bodies, indexes[..|indexes| - 1]);
      if Implicit(index) {
        assert OwnIndexes(indexes[..|indexes| - 1]) + [] == OwnIndexes(indexes[..|indexes| - 1]);
      } else {
        AskIndexes(before, p, Collection(structure, bodies, OwnIndexes(indexes[..|indexes| - 1])), index);
        AskKeeps(before, CreateIndex(p.database, p.name, index));
      }
    }
  }

  lemma CollectionLoads(run: Run, o: Settings, objects: Objects, u: Unit)
    requires run.failed.Some? || Empty(run.server, o, u)
    ensures Finished(LoadCollection(run, o, objects, u), o, objects, u)
    ensures KeepsRecords(run, LoadCollection(run, o, objects, u))
  {
    var p := PlaceOf(o, u);
    PartsLoad(run, p, u.structure, objects, u.group.dataPaths);
    IndexesBuild(LoadParts(run, p.database, p.name, objects, u.group.dataPaths), p, u.structure,
                 Bodies(objects, u.group.dataPaths), u.structure.indexes);
  }

  lemma LoadOwn(run: Run, o: Settings, objects: Objects, u: Unit)
    requires Good(run, o, objects, u) && Ready(run, o, u)
    ensures Good(LoadOne(run, o, objects, u), o, objects, u) && Finished(LoadOne(run, o, objects, u), o, objects, u)
    ensures LoadOne(run, o, objects, u).manifest == run.manifest
  {
    if !Has(run, o, UnitId(u)) {
      CollectionLoads(run, o, objects, u);
      RecordOwn(Counted(LoadCollection(run, o, objects, u), 1, 0, 0), o, objects, u);
    }
  }

  lemma RecordOwn(run: Run, o: Settings, objects: Objects, u: Unit)
    requires SavedKnown(run, o, UnitId(u)) && Finished(run, o, objects, u) && !Has(run, o, UnitId(u))
    ensures Good(Record(run, o, UnitId(u)), o, objects, u) && Finished(Record(run, o, UnitId(u)), o, objects, u)
  {
  }

  // --- all phases, for one unit ---------------------------------------------------------------------------

  // The units and views of a dump do not stand in each other's way.
  predicate Independent(o: Settings, units: seq<Unit>, views: seq<ViewUnit>) {
    && (forall i, j :: 0 <= i < |units| && 0 <= j < |units| && i != j ==> Apart(o, units[i], units[j]))
    && (forall i :: 0 <= i < |units| ==> units[i].structure.name == units[i].group.name)
    && (forall i :: 0 <= i < |units| ==> NoViewIs(views, UnitId(units[i])))
  }

  lemma {:induction false} CreateAllReady(run: Run, o: Settings, objects: Objects, units: seq<Unit>, views: seq<ViewUnit>, i: nat)
    requires i < |units| && Independent(o, units, views) && Good(run, o, objects, units[i])
    ensures Good(CreateAll(run, o, units), o, objects, units[i]) && Ready(CreateAll(run, o, units), o, units[i])
    ensures CreateAll(run, o, units).manifest == run.manifest
    decreases |units|
  {
    var u := units[i];
    var front, last := units[..|units| - 1], units[|units| - 1];
    var before := CreateAll(run, o, front);
    if i == |units| - 1 {
      assert SparesAll(run, o, front, u);
      CreateAllLeaves(run, o, front, u);
      LeftKeepsAll(run, before, o, objects, u);
      CreateOwn(before, o, objects, u);
    } else {
      assert Independent(o, front, views);
      CreateAllReady(run, o, objects, front, views, i);
      CreateOneLeaves(before, o, last, u);
      LeftKeepsAll(before, CreateOne(before, o, last), o, objects, u);
    }
  }

  lemma {:induction false} LoadAllFinishes(run: Run, o: Settings, objects: Objects, units: seq<Unit>, views: seq<ViewUnit>, i: nat)
    requires i < |units| && Independent(o, units, views) && Good(run, o, objects, units[i]) && Ready(run, o, units[i])
    ensures Good(LoadAll(run, o, objects, units), o, objects, units[i])
    ensures Finished(LoadAll(run, o, objects, units), o, objects, units[i])
    ensures LoadAll(run, o, objects, units).manifest == run.manifest
    decreases |units|
  {
    var u := units[i];
    var front, last := units[..|units| - 1], units[|units| - 1];
    var before := LoadAll(run, o, objects, front);
    if i == |units| - 1 {
      assert SparesAll(run, o, front, u);
      LoadAllLeaves(run, o, objects, front, u);
      LeftKeepsAll(run, before, o, objects, u);
      LoadOwn(before, o, objects, u);
    } else {
      assert Independent(o, front, views);
      LoadAllFinishes(run, o, objects, front, views, i);
      LoadOneLeaves(before, o, objects, last, u);
      LeftKeepsAll(before, LoadOne(before, o, objects, last), o, objects, u);
    }
  }

  lemma PhasesFinish(run: Run, o: Settings, objects: Objects, units: seq<Unit>, views: seq<ViewUnit>, i: nat)
    requires i < |units| && Independent(o, units, views) && Good(run, o, objects, units[i])
    ensures Good(Phases(run, o, objects, units, views), o, objects, units[i])
    ensures Finished(Phases(run, o, objects, units, views), o, objects, units[i])
    ensures Phases(run, o, objects, units, views).manifest == run.manifest
  {
    var u := units[i];
    var r1 := CreateAll(run, o, units);
    var r2 := ViewAll(r1, o, views, false);
    var r3 := LoadAll(r2, o, objects, units);
    CreateAllReady(run, o, objects, units, views, i);
    ViewAllLeaves(r1, o, views, false, u);
    LeftKeepsAll(r1, r2, o, objects, u);
    LoadAllFinishes(r2, o, objects, units, views, i);
    ViewAllLeaves(r3, o, views, true, u);
    LeftKeepsAll(r3, ViewAll(r3, o, views, true), o, objects, u);
  }

  // --- runs and restarts --------------------------------------------------------------------------------------

  predicate Recorded(w: World, o: Settings, fingerprint: string, u: Unit) {
    o.checkpoint && w.saved.Checkpoint? && w.saved.manifest == fingerprint && UnitId(u) in w.saved.completed
  }

  // A matching checkpoint names only collections that are complete.
  predicate Trusted(w: World, o: Settings, fingerprint: string, objects: Objects, u: Unit) {
    Recorded(w, o, fingerprint, u) ==> Complete(w.server, o, objects, u)
  }

  predicate AllTrusted(w: World, o: Settings, fingerprint: string, objects: Objects, units: seq<Unit>) {
    forall k :: 0 <= k < |units| ==> Trusted(w, o, fingerprint, objects, units[k])
  }

  predicate AllComplete(s: Server, o: Settings, objects: Objects, units: seq<Unit>) {
    forall k :: 0 <= k < |units| ==> Complete(s, o, objects, units[k])
  }

  lemma RunKeepsUnit(w: World, o: Settings, fingerprint: string, objects: Objects, units: seq<Unit>, views: seq<ViewUnit>,
                     order: seq<Option<string>>, plan: Plan, i: nat)
    requires i < |units| && Independent(o, units, views) && Trusted(w, o, fingerprint, objects, units[i])
    ensures var end := Restored(w, o, fingerprint, objects, units, views, order, plan);
            && Trusted(end.world, o, fingerprint, objects, units[i])
            && (end.result.Ok? ==> Complete(end.world.server, o, objects, units[i]))
  {
    var u := units[i];
    var start := Started(w, fingerprint, plan);
    var created := CreateDatabases(start, ToCreate(o, order));
    DatabasesLeave(start, ToCreate(o, order), o, u);
    DatabasesRecordNothing(start, ToCreate(o, order));
    if created.failed.None? && LoadCheckpoint(o, w.saved, fingerprint).Ok? {
      PhasesFinish(created.(completed := LoadCheckpoint(o, w.saved, fingerprint).value), o, objects, units, views, i);
    }
  }

  lemma {:induction false} DatabasesRecordNothing(run: Run, databases: seq<string>)
    ensures KeepsRecords(run, CreateDatabases(run, databases))
    decreases |databases|
  {
    if databases != [] {
      DatabasesRecordNothing(run, databases[..|databases| - 1]);
      AskKeeps(CreateDatabases(run, databases[..|databases| - 1]), CreateDatabase(databases[|databases| - 1]));
    }
  }

  // Main result on one run: whatever its faults, the checkpoint stays truthful, and if
  // it returns Ok every collection holds its parts exactly once.
  lemma RunKeepsTrust(w: World, o: Settings, fingerprint: string, objects: Objects, units: seq<Unit>, views: seq<ViewUnit>,
                      order: seq<Option<string>>, plan: Plan)
    requires Independent(o, units, views) && AllTrusted(w, o, fingerprint, objects, units)
    ensures var end := Restored(w, o, fingerprint, objects, units, views, order, plan);
            && AllTrusted(end.world, o, fingerprint, objects, units)
            && (end.result.Ok? ==> AllComplete(end.world.server, o, objects, units))
  {
    forall i | 0 <= i < |units|
      ensures var end := Restored(w, o, fingerprint, objects, units, views, order, plan);
              && Trusted(end.world, o, fingerprint, objects, units[i])
              && (end.result.Ok? ==> Complete(end.world.server, o, objects, units[i]))
    {
      RunKeepsUnit(w, o, fingerprint, objects, units, views, order, plan, i);
    }
  }

  // A collection recorded before the run is neither re-created nor loaded again: at no
  // point of the run does it change. Every point is the end of the run under some plan.
  lemma RecordedIsUntouched(w: World, o: Settings, fingerprint: string, objects: Objects, units: seq<Unit>, views: seq<ViewUnit>,
                            order: seq<Option<string>>, plan: Plan, i: nat)
    requires i < |units| && Independent(o, units, views) && Recorded(w, o, fingerprint, units[i])
    ensures At(Restored(w, o, fingerprint, objects, units, views, order, plan).world.server, PlaceOf(o, units[i]))
         == At(w.server, PlaceOf(o, units[i]))
  {
    var u := units[i];
    var start := Started(w, fingerprint, plan);
    var created := CreateDatabases(start, ToCreate(o, order));
    DatabasesLeave(start, ToCreate(o, order), o, u);
    if created.failed.None? {
      PhasesLeaveRecorded(created.(completed := w.saved.completed), o, objects, units, views, i);
    }
  }

  lemma PhasesLeaveRecorded(run: Run, o: Settings, objects: Objects, units: seq<Unit>, views: seq<ViewUnit>, i: nat)
    requires i < |units| && Independent(o, units, views) && Has(run, o, UnitId(units[i]))
    ensures At(Phases(run, o, objects, units, views).server, PlaceOf(o, units[i])) == At(run.server, PlaceOf(o, units[i]))
  {
    var u := units[i];
    var r1 := CreateAll(run, o, units);
    var r2 := ViewAll(r1, o, views, false);
    var r3 := LoadAll(r2, o, objects, units);
    assert SparesAll(run, o, units, u);
    CreateAllLeaves(run, o, units, u);
    ViewAllLeaves(r1, o, views, false, u);
    assert SparesAll(r2, o, units, u);
    LoadAllLeaves(r2, o, objects, units, u);
    ViewAllLeaves(r3, o, views, true, u);
  }

  // --- any number of interrupted runs ----------------------------------------------------------------

  function Runs(w: World, o: Settings, m: Manifest, objects: Objects, plans: seq<Plan>): World {
    if plans == [] then w
    else Restore(Runs(w, o, m, objects, plans[..|plans| - 1]), o, m, objects, plans[|plans| - 1]).world
  }

  // The units and views a run reads from the dump; none if it cannot be read.
  function UnitsOf(m: Manifest, objects: Objects): seq<Unit> {
    match ReadUnits(objects, GroupByCollection(m.artifacts))
    case Err(_) => []
    case Ok(units) => Sorted(DatabaseOrder(units), units)
  }

  function ViewsOf(m: Manifest, objects: Objects): seq<ViewUnit> {
    match ReadViews(objects, m.artifacts) case Err(_) => [] case Ok(views) => views
  }

  predicate IndependentDump(o: Settings, m: Manifest, objects: Objects) {
    Independent(o, UnitsOf(m, objects), ViewsOf(m, objects))
  }

  predicate Truthful(w: World, o: Settings, m: Manifest, objects: Objects) {
    AllTrusted(w, o, Fingerprint(m), objects, UnitsOf(m, objects))
  }

  lemma RestoreKeepsTrust(w: World, o: Settings, m: Manifest, objects: Objects, plan: Plan)
    requires IndependentDump(o, m, objects) && Truthful(w, o, m, objects)
    ensures var end := Restore(w, o, m, objects, plan);
            && Truthful(end.world, o, m, objects)
            && (end.result.Ok? ==> AllComplete(end.world.server, o, objects, UnitsOf(m, objects)))
  {
    if Validate(m).None? {
      var units := ReadUnits(objects, GroupByCollection(m.artifacts));
      var views := ReadViews(objects, m.artifacts);
      if units.Ok? && views.Ok? {
        RunKeepsTrust(w, o, Fingerprint(m), objects, UnitsOf(m, objects), views.value, DatabaseOrder(units.value), plan);
      }
    }
  }

  lemma {:induction false} RunsKeepTrust(w: World, o: Settings, m: Manifest, objects: Objects, plans: seq<Plan>)
    requires IndependentDump(o, m, objects) && Truthful(w, o, m, objects)
    ensures Truthful(Runs(w, o, m, objects, plans), o, m, objects)
    decreases |plans|
  {
    if plans != [] {
      RunsKeepTrust(w, o, m, objects, plans[..|plans| - 1]);
      RestoreKeepsTrust(Runs(w, o, m, objects, plans[..|plans| - 1]), o, m, objects, plans[|plans| - 1]);
    }
  }

  // Main result: from any server, without a checkpoint of this dump at first, after any number of
  // runs cut anywhere, a run that returns Ok leaves every collection of the dump
  // holding its data exactly once, and its indexes.
  lemma InterruptedRestoreIsExact(w: World, o: Settings, m: Manifest, objects: Objects, plans: seq<Plan>, last: Plan)
    requires IndependentDump(o, m, objects) && !(w.saved.Checkpoint? && w.saved.manifest == Fingerprint(m))
    ensures var end := Restore(Runs(w, o, m, objects, plans), o, m, objects, last);
            end.result.Ok? ==> AllComplete(end.world.server, o, objects, UnitsOf(m, objects))
  {
    RunsKeepTrust(w, o, m, objects, plans);
    RestoreKeepsTrust(Runs(w, o, m, objects, plans), o, m, objects, last);
  }

  // --- the summary ----------------------------------------------------------------------------------------

  lemma {:induction false} LoadCounts(run: Run, o: Settings, objects: Objects, units: seq<Unit>)
    ensures var end := LoadAll(run, o, objects, units);
            && (end.failed.None? ==> end.restored + end.skipped == run.restored + run.skipped + |units|)
            && (run.failed.Some? ==> end.failed.Some?)
    decreases |units|
  {
    if units != [] {
      LoadCounts(run, o, objects, units[..|units| - 1]);
      LoadOneCounts(LoadAll(run, o, objects, units[..|units| - 1]), o, objects, units[|units| - 1]);
    }
  }

  lemma LoadOneCounts(run: Run, o: Settings, objects: Objects, u: Unit)
    ensures var end := LoadOne(run, o, objects, u);
            && (end.failed.None? ==> end.restored + end.skipped == run.restored + run.skipped + 1)
            && (run.failed.Some? ==> end.failed.Some?)
  {
    LoadCollectionRecordsNothing(run, o, objects, u);
  }

  lemma LoadCollectionRecordsNothing(run: Run, o: Settings, objects: Objects, u: Unit)
    ensures KeepsRecords(run, LoadCollection(run, o, objects, u))
  {
    var p := PlaceOf(o, u);
    PartsRecordNothing(run, p, objects, u.group.dataPaths);
    IndexesRecordNothing(LoadParts(run, p.database, p.name, objects, u.group.dataPaths), p, u.structure.indexes);
  }

  lemma {:induction false} PartsRecordNothing(run: Run, p: Place, objects: Objects, paths: seq<string>)
    ensures KeepsRecords(run, LoadParts(run, p.database, p.name, objects, paths))
    decreases |paths|
  {
    if paths != [] {
      var path := paths[|paths| - 1];
      PartsRecordNothing(run, p, objects, paths[..|paths| - 1]);
      if path in objects && objects[path].DataObject? {
        AskKeeps(LoadParts(run, p.database, p.name, objects, paths[..|paths| - 1]), LoadData(p.database, p.name, objects[path].body));
      }
    }
  }

  lemma {:induction false} IndexesRecordNothing(run: Run, p: Place, indexes: seq<Index>)
    ensures KeepsRecords(run, BuildIndexes(run, p.database, p.name, indexes))
    decreases |indexes|
  {
    if indexes != [] {
      IndexesRecordNothing(run, p, indexes[..|indexes| - 1]);
      AskKeeps(BuildIndexes(run, p.database, p.name, indexes[..|indexes| - 1]), CreateIndex(p.database, p.name, indexes[|indexes| - 1]));
    }
  }

  // Creating collections and views counts no collection.
  predicate KeepsCounts(a: Run, b: Run) {
    b.restored == a.restored && b.skipped == a.skipped && (a.failed.Some? ==> b.failed.Some?)
  }

  lemma {:induction false} CreateAllCounts(run: Run, o: Settings, units: seq<Unit>)
    ensures KeepsCounts(run, CreateAll(run, o, units))
    decreases |units|
  {
    if units != [] {
      CreateAllCounts(run, o, units[..|units| - 1]);
      var u := units[|units| - 1];
      AskKeeps(CreateAll(run, o, units[..|units| - 1]), CreateCollection(Target(o, u.group.database), u.structure, o.overwrite));
    }
  }

  lemma ViewOneCounts(run: Run, o: Settings, v: ViewUnit, aliases: bool)
    ensures KeepsCounts(run, ViewOne(run, o, v, aliases))
  {
    var database := Target(o, v.database);
    var cleared := if o.overwrite then Ask(run, DropView(database, v.name)) else run;
    AskKeeps(run, DropView(database, v.name));
    AskKeeps(cleared, CreateView(database, v.name, v.definition));
  }

  lemma {:induction false} ViewAllCounts(run: Run, o: Settings, views: seq<ViewUnit>, aliases: bool)
    ensures KeepsCounts(run, ViewAll(run, o, views, aliases))
    decreases |views|
  {
    if views != [] {
      ViewAllCounts(run, o, views[..|views| - 1], aliases);
      ViewOneCounts(ViewAll(run, o, views[..|views| - 1], aliases), o, views[|views| - 1], aliases);
    }
  }

  // Main result: every collection of the dump is either restored or skipped.
  lemma SummaryAddsUp(w: World, o: Settings, m: Manifest, objects: Objects, plan: Plan)
    ensures var end := Restore(w, o, m, objects, plan);
            end.result.Ok? ==> end.result.value.restored + end.result.value.skipped == end.result.value.collections == |UnitsOf(m, objects)|
  {
    if Restore(w, o, m, objects, plan).result.Ok? {
      var units, views := UnitsOf(m, objects), ViewsOf(m, objects);
      var order := DatabaseOrder(ReadUnits(objects, GroupByCollection(m.artifacts)).value);
      var start := Started(w, Fingerprint(m), plan);
      var created := CreateDatabases(start, ToCreate(o, order));
      DatabasesRecordNothing(start, ToCreate(o, order));
      PhasesCount(created.(completed := LoadCheckpoint(o, w.saved, Fingerprint(m)).value), o, objects, units, views);
    }
  }

  lemma PhasesCount(run: Run, o: Settings, objects: Objects, units: seq<Unit>, views: seq<ViewUnit>)
    ensures var end := Phases(run, o, objects, units, views);
            end.failed.None? ==> end.restored + end.skipped == run.restored + run.skipped + |units|
  {
    var r1 := CreateAll(run, o, units);
    var r2 := ViewAll(r1, o, views, false);
    var r3 := LoadAll(r2, o, objects, units);
    CreateAllCounts(run, o, units);
    ViewAllCounts(r1, o, views, false);
    LoadCounts(r2, o, objects, units);
    ViewAllCounts(r3, o, views, true);
  }
}
