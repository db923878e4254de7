// The restore run as code: requests to the server and writes of the checkpoint change
// the job's state step by step, and the first failure ends the run.

module Restoring {
  import opened Common
  import opened DumpFormat
  import opened RestoreModel

  // --- a failed run does nothing more ---------------------------------------------------

  lemma {:induction false} DatabasesStop(run: Run, databases: seq<string>, k: nat)
    requires k <= |databases| && CreateDatabases(run, databases[..k]).failed.Some?
    ensures CreateDatabases(run, databases) == CreateDatabases(run, databases[..k])
    decreases |databases|
  {
    if k < |databases| {
      assert databases[..|databases| - 1][..k] == databases[..k];
      DatabasesStop(run, databases[..|databases| - 1], k);
    } else {
      assert databases[..k] == databases;
    }
  }

  lemma {:induction false} CreateAllStop(run: Run, o: Settings, units: seq<Unit>, k: nat)
    requires k <= |units| && CreateAll(run, o, units[..k]).failed.Some?
    ensures CreateAll(run, o, units) == CreateAll(run, o, units[..k])
    decreases |units|
  {
    if k < |units| {
      assert units[..|units| - 1][..k] == units[..k];
      CreateAllStop(run, o, units[..|units| - 1], k);
    } else {
      assert units[..k] == units;
    }
  }

  lemma {:induction false} ViewAllStop(run: Run, o: Settings, views: seq<ViewUnit>, aliases: bool, k: nat)
    requires k <= |views| && ViewAll(run, o, views[..k], aliases).failed.Some?
    ensures ViewAll(run, o, views, aliases) == ViewAll(run, o, views[..k], aliases)
    decreases |views|
  {
    if k < |views| {
      assert views[..|views| - 1][..k] == views[..k];
      ViewAllStop(run, o, views[..|views| - 1], aliases, k);
    } else {
      assert views[..k] == views;
    }
  }

  lemma {:induction false} LoadPartsStop(run: Run, database: string, name: string, objects: Objects, paths: seq<string>, k: nat)
    requires k <= |paths| && LoadParts(run, database, name, objects, paths[..k]).failed.Some?
    ensures LoadParts(run, database, name, objects, paths) == LoadParts(run, database, name, objects, paths[..k])
    decreases |paths|
  {
    if k < |paths| {
      assert paths[..|paths| - 1][..k] == paths[..k];
      LoadPartsStop(run, database, name, objects, paths[..|paths| - 1], k);
    } else {
      assert paths[..k] == paths;
    }
  }

  lemma {:induction false} IndexesStop(run: Run, database: string, name: string, indexes: seq<Index>, k: nat)
    requires k <= |indexes| && BuildIndexes(run, database, name, indexes[..k]).failed.Some?
    ensures BuildIndexes(run, database, name, indexes) == BuildIndexes(run, database, name, indexes[..k])
    decreases |indexes|
  {
    if k < |indexes| {
      assert indexes[..|indexes| - 1][..k] == indexes[..k];
      IndexesStop(run, database, name, indexes[..|indexes| - 1], k);
    } else {
      assert indexes[..k] == indexes;
    }
  }

  lemma LoadOneStop(run: Run, o: Settings, objects: Objects, u: Unit)
    requires run.failed.Some?
    ensures LoadOne(run, o, objects, u) == run
  {
    assert u.group.dataPaths[..0] == [] && u.structure.indexes[..0] == [];
    LoadPartsStop(run, Target(o, u.group.database), u.group.name, objects, u.group.dataPaths, 0);
    IndexesStop(run, Target(o, u.group.database), u.group.name, u.structure.indexes, 0);
  }

  lemma {:induction false} LoadAllStop(run: Run, o: Settings, objects: Objects, units: seq<Unit>, k: nat)
    requires k <= |units| && LoadAll(run, o, objects, units[..k]).failed.Some?
    ensures LoadAll(run, o, objects, units) == LoadAll(run, o, objects, units[..k])
    decreases |units|
  {
    if k < |units| {
      assert units[..|units| - 1][..k] == units[..k];
      LoadAllStop(run, o, objects, units[..|units| - 1], k);
      LoadOneStop(LoadAll(run, o, objects, units[..k]), o, objects, units[|units| - 1]);
    } else {
      assert units[..k] == units;
    }
  }

  // --- the job ------------------------------------------------------------------------------

  type Step = Result<(), RestoreError>

  class RestoreJob {
    const settings: Settings
    const manifest: string
    var server: Server
    var saved: Saved
    var completed: seq<string>
    var restored: nat
    var skipped: nat
    var views: nat
    var plan: Plan

    // The state after a step that returned `r`.
    ghost function Now(r: Step): Run
      reads this
    {
      Run(server, saved, manifest, completed, restored, skipped, views, plan, if r.Err? then Some(r.error) else None)
    }

    constructor (settings: Settings, manifest: string, world: World, plan: Plan)
      ensures this.settings == settings && this.manifest == manifest
      ensures Now(Ok(())) == Started(world, manifest, plan)
    {
      this.settings := settings;
      this.manifest := manifest;
      server := world.server;
      saved := world.saved;
      completed := [];
      restored, skipped, views := 0, 0, 0;
      this.plan := plan;
    }

    // One request, and what becomes of it under the plan.
    method Send(request: Request) returns (r: Step)
      modifies this`server, this`plan
      ensures Now(r) == Ask(old(Now(Ok(()))), request)
    {
      var fault := NextRequest(plan);
      plan := AfterRequest(plan);
      if fault.Refuse? { return Err(Transport); }
      var sent := if fault.Cut? then Shortened(request, fault.kept) else request;
      match Perform(server, sent) {
        case Err(e) => return Err(e);
        case Ok(next) =>
          server := next;
          return if fault.Cut? then Err(Transport) else Ok(());
      }
    }

    predicate IsDone(id: string)
      reads this
    {
      settings.checkpoint && id in completed
    }

    // A failed write is only logged.
    method RecordUnit(id: string)
      modifies this`saved, this`completed, this`plan
      ensures Now(Ok(())) == Record(old(Now(Ok(()))), settings, id)
    {
      if !settings.checkpoint { return; }
      completed := completed + [id];
      var fault := NextWrite(plan);
      plan := AfterWrite(plan);
      match fault {
        case Landed => saved := Checkpoint(manifest, completed);
        case Torn => saved := TornCheckpoint;
        case Lost =>
      }
    }

    method MakeDatabases(databases: seq<string>) returns (r: Step)
      modifies this`server, this`plan
      ensures Now(r) == CreateDatabases(old(Now(Ok(()))), databases)
    {
      ghost var start := Now(Ok(()));
      for i := 0 to |databases|
        invariant Now(Ok(())) == CreateDatabases(start, databases[..i])
      {
        assert databases[..i + 1][..i] == databases[..i];
        r := Send(CreateDatabase(databases[i]));
        if r.Err? {
          DatabasesStop(start, databases, i + 1);
          return;
        }
      }
      assert databases[..|databases|] == databases;
      return Ok(());
    }

    method CreateCollections(units: seq<Unit>) returns (r: Step)
      modifies this`server, this`plan
      ensures Now(r) == CreateAll(old(Now(Ok(()))), settings, units)
    {
      ghost var start := Now(Ok(()));
      for i := 0 to |units|
        invariant Now(Ok(())) == CreateAll(start, settings, units[..i])
      {
        assert units[..i + 1][..i] == units[..i];
        if !IsDone(UnitId(units[i])) {
          r := Send(CreateCollection(Target(settings, units[i].group.database), units[i].structure, settings.overwrite));
          if r.Err? {
            CreateAllStop(start, settings, units, i + 1);
            return;
          }
        }
      }
      assert units[..|units|] == units;
      return Ok(());
    }

    method RestoreView(v: ViewUnit) returns (r: Step)
      modifies this`server, this`plan
      ensures Now(r) == MakeView(old(Now(Ok(()))), settings, v)
    {
      var database := Target(settings, v.database);
      if settings.overwrite {
        r := Send(DropView(database, v.name));
        if r.Err? { return; }
      }
      r := Send(CreateView(database, v.name, v.definition));
    }

    method RestoreIfDue(v: ViewUnit, aliases: bool) returns (r: Step)
      modifies this
      ensures Now(r) == ViewOne(old(Now(Ok(()))), settings, v, aliases)
    {
      if IsSearchAlias(v.definition) != aliases || IsDone(ViewUnitId(v)) { return Ok(()); }
      r := RestoreView(v);
      if r.Err? { return; }
      views := views + 1;
      RecordUnit(ViewUnitId(v));
    }

    method RestoreViews(all: seq<ViewUnit>, aliases: bool) returns (r: Step)
      modifies this
      ensures Now(r) == ViewAll(old(Now(Ok(()))), settings, all, aliases)
    {
      ghost var start := Now(Ok(()));
      for i := 0 to |all|
        invariant Now(Ok(())) == ViewAll(start, settings, all[..i], aliases)
      {
        assert all[..i + 1][..i] == all[..i];
        r := RestoreIfDue(all[i], aliases);
        if r.Err? {
          ViewAllStop(start, settings, all, aliases, i + 1);
          return;
        }
      }
      assert all[..|all|] == all;
      return Ok(());
    }

    method LoadBodies(database: string, name: string, objects: Objects, paths: seq<string>) returns (r: Step)
      modifies this`server, this`plan
      ensures Now(r) == LoadParts(old(Now(Ok(()))), database, name, objects, paths)
    {
      ghost var start := Now(Ok(()));
      for i := 0 to |paths|
        invariant Now(Ok(())) == LoadParts(start, database, name, objects, paths[..i])
      {
        assert paths[..i + 1][..i] == paths[..i];
        if paths[i] in objects && objects[paths[i]].DataObject? {
          r := Send(LoadData(database, name, objects[paths[i]].body));
        } else {
          r := Err(BadObject(paths[i]));
        }
        if r.Err? {
          LoadPartsStop(start, database, name, objects, paths, i + 1);
          return;
        }
      }
      assert paths[..|paths|] == paths;
      return Ok(());
    }

    method MakeIndexes(database: string, name: string, indexes: seq<Index>) returns (r: Step)
      modifies this`server, this`plan
      ensures Now(r) == BuildIndexes(old(Now(Ok(()))), database, name, indexes)
    {
      ghost var start := Now(Ok(()));
      for i := 0 to |indexes|
        invariant Now(Ok(())) == BuildIndexes(start, database, name, indexes[..i])
      {
        assert indexes[..i + 1][..i] == indexes[..i];
        if !Implicit(indexes[i]) {
          r := Send(CreateIndex(database, name, indexes[i]));
          if r.Err? {
            IndexesStop(start, database, name, indexes, i + 1);
            return;
          }
        }
      }
      assert indexes[..|indexes|] == indexes;
      return Ok(());
    }

    method LoadCollectionData(objects: Objects, u: Unit) returns (r: Step)
      modifies this`server, this`plan
      ensures Now(r) == LoadCollection(old(Now(Ok(()))), settings, objects, u)
    {
      var database := Target(settings, u.group.database);
      r := LoadBodies(database, u.group.name, objects, u.group.dataPaths);
      if r.Err? {
        assert u.structure.indexes[..0] == [];
        IndexesStop(Now(r), database, u.group.name, u.structure.indexes, 0);
        return;
      }
      r := MakeIndexes(database, u.group.name, u.structure.indexes);
    }

    method LoadUnit(objects: Objects, u: Unit) returns (r: Step)
      modifies this
      ensures Now(r) == LoadOne(old(Now(Ok(()))), settings, objects, u)
    {
      if IsDone(UnitId(u)) {
        skipped := skipped + 1;
        return Ok(());
      }
      r := LoadCollectionData(objects, u);
      if r.Err? { return; }
      restored := restored + 1;
      RecordUnit(UnitId(u));
    }

    method LoadUnits(objects: Objects, units: seq<Unit>) returns (r: Step)
      modifies this
      ensures Now(r) == LoadAll(old(Now(Ok(()))), settings, objects, units)
    {
      ghost var start := Now(Ok(()));
      for i := 0 to |units|
        invariant Now(Ok(())) == LoadAll(start, settings, objects, units[..i])
      {
        assert units[..i + 1][..i] == units[..i];
        r := LoadUnit(objects, units[i]);
        if r.Err? {
          LoadAllStop(start, settings, objects, units, i + 1);
          return;
        }
      }
      assert units[..|units|] == units;
      return Ok(());
    }

    // Phases 1 to 4.
    method RunPhases(objects: Objects, units: seq<Unit>, all: seq<ViewUnit>) returns (r: Step)
      modifies this
      ensures Now(r) == Phases(old(Now(Ok(()))), settings, objects, units, all)
    {
      ghost var start := Now(Ok(()));
      r := CreateCollections(units);
      if r.Err? {
        FailedStays(start, settings, objects, units, all, Now(r), 1);
        return;
      }
      r := RestoreViews(all, false);
      if r.Err? {
        FailedStays(start, settings, objects, units, all, Now(r), 2);
        return;
      }
      r := LoadUnits(objects, units);
      if r.Err? {
        FailedStays(start, settings, objects, units, all, Now(r), 3);
        return;
      }
      r := RestoreViews(all, true);
    }
  }

  // A run that failed in a phase ends as it was.
  lemma FailedStays(start: Run, o: Settings, objects: Objects, units: seq<Unit>, views: seq<ViewUnit>, failed: Run, phase: nat)
    requires failed.failed.Some? && 1 <= phase <= 3
    requires phase == 1 ==> failed == CreateAll(start, o, units)
    requires phase == 2 ==> failed == ViewAll(CreateAll(start, o, units), o, views, false)
    requires phase == 3 ==> failed == LoadAll(ViewAll(CreateAll(start, o, units), o, views, false), o, objects, units)
    ensures Phases(start, o, objects, units, views) == failed
  {
    assert views[..0] == [] && units[..0] == [];
    ViewAllStop(failed, o, views, false, 0);
    LoadAllStop(failed, o, objects, units, 0);
    ViewAllStop(failed, o, views, true, 0);
  }

  // The groups of a manifest, found or added artifact by artifact.
  method Group(artifacts: seq<Artifact>) returns (groups: seq<Group>)
    ensures groups == GroupByCollection(artifacts)
  {
    groups := [];
    for i := 0 to |artifacts|
      invariant groups == GroupByCollection(artifacts[..i])
    {
      assert artifacts[..i + 1][..i] == artifacts[..i];
      var a := artifacts[i];
      if a.collection.Some? {
        var k := 0;
        while k < |groups| && !(groups[k].name == a.collection.value && groups[k].database == a.database)
          invariant 0 <= k <= |groups|
          invariant forall j :: 0 <= j < k ==> !(groups[j].name == a.collection.value && groups[j].database == a.database)
        {
          k := k + 1;
        }
        GroupIndexIs(groups, a.collection.value, a.database, k);
        if k == |groups| {
          groups := groups + [RestoreModel.Group(a.collection.value, a.database, [], [])];
        }
        groups := groups[k := AddPath(groups[k], a)];
      }
    }
    assert artifacts[..|artifacts|] == artifacts;
  }

  lemma GroupIndexIs(groups: seq<RestoreModel.Group>, name: string, database: Option<string>, k: nat)
    requires k <= |groups| && (k < |groups| ==> groups[k].name == name && groups[k].database == database)
    requires forall j :: 0 <= j < k ==> !(groups[j].name == name && groups[j].database == database)
    ensures GroupIndex(groups, name, database) == k
  {
  }

  // The whole run: what it reads first, the databases, the checkpoint, the phases.
  method RunRestore(w: World, o: Settings, m: Manifest, objects: Objects, plan: Plan) returns (outcome: Outcome)
    ensures outcome == Restore(w, o, m, objects, plan)
  {
    var bad := Validate(m);
    if bad.Some? { return Outcome(w, Err(bad.value)); }
    var groups := Group(m.artifacts);
    var read := ReadUnits(objects, groups);
    if read.Err? { return Outcome(w, Err(read.error)); }
    var order := DatabaseOrder(read.value);
    var units := Sorted(order, read.value);
    var views := ReadViews(objects, m.artifacts);
    if views.Err? { return Outcome(w, Err(views.error)); }
    outcome := RunRead(w, o, Fingerprint(m), objects, units, views.value, order, plan);
  }

  method RunRead(w: World, o: Settings, fingerprint: string, objects: Objects, units: seq<Unit>, views: seq<ViewUnit>,
                 order: seq<Option<string>>, plan: Plan) returns (outcome: Outcome)
    ensures outcome == Restored(w, o, fingerprint, objects, units, views, order, plan)
  {
    var job := new RestoreJob(o, fingerprint, w, plan);
    var r := job.MakeDatabases(ToCreate(o, order));
    if r.Err? { return Outcome(World(job.server, job.saved), Err(r.error)); }
    var loaded := LoadCheckpoint(o, w.saved, fingerprint);
    if loaded.Err? { return Outcome(World(job.server, job.saved), Err(loaded.error)); }
    job.completed := loaded.value;
    r := job.RunPhases(objects, units, views);
    if r.Err? { return Outcome(World(job.server, job.saved), Err(r.error)); }
    return Outcome(World(job.server, job.saved), Ok(Summary(|units|, job.restored, job.skipped, job.views)));
  }

  // --- the order of the units ---------------------------------------------------------------------

  function WithKey(order: seq<Option<string>>, units: seq<Unit>, key: nat): seq<Unit> {
    if units == [] then []
    else WithKey(order, units[..|units| - 1], key) + if SortKey(order, units[|units| - 1]) == key then [units[|units| - 1]] else []
  }

  predicate InOrder(order: seq<Option<string>>, units: seq<Unit>) {
    forall i, j :: 0 <= i < j < |units| ==> SortKey(order, units[i]) <= SortKey(order, units[j])
  }

  lemma {:induction false} InsertPermutes(order: seq<Option<string>>, sorted: seq<Unit>, u: Unit)
    ensures multiset(Insert(order, sorted, u)) == multiset(sorted + [u])
    decreases |sorted|
  {
    if sorted != [] && SortKey(order, sorted[|sorted| - 1]) > SortKey(order, u) {
      var front, last := sorted[..|sorted| - 1], sorted[|sorted| - 1];
      InsertPermutes(order, front, u);
      assert front + [last] == sorted;
    }
  }

  lemma {:induction false} InsertKeepsOrder(order: seq<Option<string>>, sorted: seq<Unit>, u: Unit)
    requires InOrder(order, sorted)
    ensures InOrder(order, Insert(order, sorted, u))
    decreases |sorted|
  {
    if sorted != [] && SortKey(order, sorted[|sorted| - 1]) > SortKey(order, u) {
      var front, last := sorted[..|sorted| - 1], sorted[|sorted| - 1];
      InsertKeepsOrder(order, front, u);
      InsertPermutes(order, front, u);
      assert front + [last] == sorted;
      InsertOrdered(order, front, u, last);
    }
  }

  lemma InsertOrdered(order: seq<Option<string>>, front: seq<Unit>, u: Unit, last: Unit)
    requires InOrder(order, front + [last]) && SortKey(order, u) < SortKey(order, last)
    requires InOrder(order, Insert(order, front, u)) && multiset(Insert(order, front, u)) == multiset(front + [u])
    ensures InOrder(order, Insert(order, front, u) + [last])
  {
    var inserted := Insert(order, front, u);
    forall i | 0 <= i < |inserted| ensures SortKey(order, inserted[i]) <= SortKey(order, last) {
      assert inserted[i] in multiset(front + [u]);
      assert inserted[i] in front + [u];
      if inserted[i] in front {
        var k :| 0 <= k < |front| && front[k] == inserted[i];
        assert (front + [last])[k] == inserted[i] && (front + [last])[|front|] == last;
      }
    }
  }

  lemma WithKeySnoc(order: seq<Option<string>>, units: seq<Unit>, u: Unit, key: nat)
    ensures WithKey(order, units + [u], key) == WithKey(order, units, key) + if SortKey(order, u) == key then [u] else []
  {
    assert (units + [u])[..|units|] == units;
  }

  lemma {:induction false} InsertIsStable(order: seq<Option<string>>, sorted: seq<Unit>, u: Unit, key: nat)
    ensures WithKey(order, Insert(order, sorted, u), key) == WithKey(order, sorted + [u], key)
    decreases |sorted|
  {
    if sorted != [] && SortKey(order, sorted[|sorted| - 1]) > SortKey(order, u) {
      var front, last := sorted[..|sorted| - 1], sorted[|sorted| - 1];
      InsertIsStable(order, front, u, key);
      WithKeySnoc(order, Insert(order, front, u), last, key);
      WithKeySnoc(order, front, u, key);
      WithKeySnoc(order, sorted, u, key);
      assert WithKey(order, front, key) + [] == WithKey(order, front, key);
    }
  }

  // Main result: units are permuted into order by database and then documents before
  // edges, and units with the same key stay in the order they were in.
  lemma {:induction false} SortedIsStable(order: seq<Option<string>>, units: seq<Unit>, key: nat)
    ensures InOrder(order, Sorted(order, units)) && multiset(Sorted(order, units)) == multiset(units)
    ensures WithKey(order, Sorted(order, units), key) == WithKey(order, units, key)
    decreases |units|
  {
    if units != [] {
      var front, last := units[..|units| - 1], units[|units| - 1];
      SortedIsStable(order, front, key);
      InsertKeepsOrder(order, Sorted(order, front), last);
      InsertPermutes(order, Sorted(order, front), last);
      InsertIsStable(order, Sorted(order, front), last, key);
      var s := Sorted(order, front) + [last];
      assert s[..|s| - 1] == Sorted(order, front);
      assert front + [last] == units;
    }
  }
}
