// When a restore can only fail through faults: no view is refused for a missing
// collection or index, and nothing is loaded into a collection that is not there.

module RestoreProgress {
  import opened Common
  import opened DumpFormat
  import opened RestoreModel
  import opened RestoreSafety

  // --- what a dump must bring along --------------------------------------------------

  predicate Readable(objects: Objects, u: Unit) {
    forall k :: 0 <= k < |u.group.dataPaths| ==> u.group.dataPaths[k] in objects && objects[u.group.dataPaths[k]].DataObject?
  }

  // Some unit is stored under this name in this database.
  ghost predicate HasUnit(o: Settings, units: seq<Unit>, database: string, name: string) {
    exists i :: 0 <= i < |units| && PlaceOf(o, units[i]) == Place(database, name)
  }

  predicate HasOwnIndex(u: Unit, index: string) {
    var own := OwnIndexes(u.structure.indexes);
    exists k :: 0 <= k < |own| && own[k].name == index
  }

  ghost predicate HasUnitIndex(o: Settings, units: seq<Unit>, database: string, name: string, index: string) {
    exists i :: 0 <= i < |units| && PlaceOf(o, units[i]) == Place(database, name) && HasOwnIndex(units[i], index)
  }

  // Everything the view names is in the dump, for its own database.
  ghost predicate Targeted(o: Settings, units: seq<Unit>, v: ViewUnit) {
    var database := Target(o, v.database);
    && (forall k :: 0 <= k < |v.definition.links| ==> HasUnit(o, units, database, v.definition.links[k]))
    && (IsSearchAlias(v.definition) ==>
          forall k :: 0 <= k < |v.definition.indexes| ==>
            HasUnitIndex(o, units, database, v.definition.indexes[k].0, v.definition.indexes[k].1))
  }

  ghost predicate Closed(o: Settings, objects: Objects, units: seq<Unit>, views: seq<ViewUnit>) {
    && (forall i :: 0 <= i < |units| ==> Readable(objects, units[i]))
    && (forall j :: 0 <= j < |views| ==> Targeted(o, units, views[j]))
  }

  // --- what requests keep ---------------------------------------------------------------

  // Databases and collections are never removed.
  ghost predicate Grows(a: Server, b: Server) {
    && (forall d :: d in a ==> d in b)
    && (forall p :: At(a, p).Some? ==> At(b, p).Some?)
  }

  lemma GrowsTrans(a: Server, b: Server, c: Server)
    requires Grows(a, b) && Grows(b, c)
    ensures Grows(a, c)
  {
  }

  lemma PerformGrows(s: Server, r: Request)
    requires Perform(s, r).Ok?
    ensures Grows(s, Perform(s, r).value)
  {
  }

  // Failed only by a fault; with no faults planned, not failed at all.
  predicate Sane(run: Run, calm: bool) {
    && (run.failed.Some? ==> run.failed.value == Transport)
    && (calm ==> run.plan == Plan([], []) && run.failed.None?)
  }

  // Whether a request succeeds does not depend on how much of its body arrives.
  lemma ShortenedToo(s: Server, r: Request, kept: nat)
    requires Perform(s, r).Ok?
    ensures Perform(s, Shortened(r, kept)).Ok?
  {
  }

  // One request that the server accepts.
  lemma AskAccepted(run: Run, r: Request, calm: bool)
    requires Sane(run, calm) && (run.failed.None? ==> Perform(run.server, r).Ok?)
    ensures Sane(Ask(run, r), calm) && Grows(run.server, Ask(run, r).server)
  {
    if run.failed.None? {
      PerformGrows(run.server, r);
      if NextRequest(run.plan).Cut? {
        ShortenedToo(run.server, r, NextRequest(run.plan).kept);
        PerformGrows(run.server, Shortened(r, NextRequest(run.plan).kept));
      }
    }
  }

  // --- databases -----------------------------------------------------------------------------

  lemma {:induction false} DatabasesProgress(run: Run, databases: seq<string>, calm: bool)
    requires Sane(run, calm)
    ensures var end := CreateDatabases(run, databases);
            && Sane(end, calm) && Grows(run.server, end.server)
            && (end.failed.None? ==> forall k :: 0 <= k < |databases| ==> databases[k] in end.server)
    decreases |databases|
  {
    if databases != [] {
      var front, last := databases[..|databases| - 1], databases[|databases| - 1];
      var before := CreateDatabases(run, front);
      DatabasesProgress(run, front, calm);
      AskAccepted(before, CreateDatabase(last), calm);
      GrowsTrans(run.server, before.server, CreateDatabases(run, databases).server);
      if CreateDatabases(run, databases).failed.None? {
        forall k | 0 <= k < |databases| ensures databases[k] in CreateDatabases(run, databases).server {
          if k < |front| { assert front[k] == databases[k]; }
        }
      }
    }
  }

  // --- collections --------------------------------------------------------------------------------

  predicate DatabasesThere(s: Server, o: Settings, units: seq<Unit>, views: seq<ViewUnit>) {
    && (forall i :: 0 <= i < |units| ==> Target(o, units[i].group.database) in s)
    && (forall j :: 0 <= j < |views| ==> Target(o, views[j].database) in s)
  }

  // A unit that counts as recorded is there.
  predicate RecordedThere(run: Run, o: Settings, units: seq<Unit>) {
    forall i :: 0 <= i < |units| && Has(run, o, UnitId(units[i])) ==> At(run.server, PlaceOf(o, units[i])).Some?
  }

  predicate AllThere(run: Run, o: Settings, units: seq<Unit>) {
    run.failed.None? ==> forall i :: 0 <= i < |units| ==> At(run.server, PlaceOf(o, units[i])).Some?
  }

  lemma CreateOneProgress(run: Run, o: Settings, u: Unit, calm: bool)
    requires Sane(run, calm) && o.overwrite && Target(o, u.group.database) in run.server && u.structure.name == u.group.name
    requires Has(run, o, UnitId(u)) ==> At(run.server, PlaceOf(o, u)).Some?
    ensures var end := CreateOne(run, o, u);
            && Sane(end, calm) && Grows(run.server, end.server) && end.completed == run.completed
            && (end.failed.None? ==> At(end.server, PlaceOf(o, u)).Some?)
  {
    if !Has(run, o, UnitId(u)) {
      var request := CreateCollection(Target(o, u.group.database), u.structure, o.overwrite);
      AskAccepted(run, request, calm);
      AskKeeps(run, request);
    }
  }

  lemma {:induction false} CreateAllProgress(run: Run, o: Settings, units: seq<Unit>, calm: bool)
    requires Sane(run, calm) && o.overwrite && DatabasesThere(run.server, o, units, []) && RecordedThere(run, o, units)
    requires forall i :: 0 <= i < |units| ==> units[i].structure.name == units[i].group.name
    ensures var end := CreateAll(run, o, units);
            Sane(end, calm) && Grows(run.server, end.server) && end.completed == run.completed && AllThere(end, o, units)
    decreases |units|
  {
    if units != [] {
      var front, last := units[..|units| - 1], units[|units| - 1];
      var before := CreateAll(run, o, front);
      assert RecordedThere(run, o, front) && DatabasesThere(run.server, o, front, []);
      CreateAllProgress(run, o, front, calm);
      assert At(run.server, PlaceOf(o, last)).Some? ==> At(before.server, PlaceOf(o, last)).Some?;
      CreateOneProgress(before, o, last, calm);
      GrowsTrans(run.server, before.server, CreateAll(run, o, units).server);
      AllThereSnoc(before, CreateAll(run, o, units), o, units);
    }
  }

  lemma AllThereSnoc(a: Run, b: Run, o: Settings, units: seq<Unit>)
    requires units != [] && AllThere(a, o, units[..|units| - 1]) && Grows(a.server, b.server) && (a.failed.Some? ==> b.failed.Some?)
    requires b.failed.None? ==> At(b.server, PlaceOf(o, units[|units| - 1])).Some?
    ensures AllThere(b, o, units)
  {
    if b.failed.None? {
      forall i | 0 <= i < |units| ensures At(b.server, PlaceOf(o, units[i])).Some? {
        if i < |units| - 1 { assert units[..|units| - 1][i] == units[i]; }
      }
    }
  }

  lemma AllThereLater(a: Run, b: Run, o: Settings, units: seq<Unit>)
    requires AllThere(a, o, units) && Grows(a.server, b.server) && (a.failed.Some? ==> b.failed.Some?)
    ensures AllThere(b, o, units)
  {
  }

  // --- views ------------------------------------------------------------------------------------------

  // The server takes the view: its links are there and, for a search-alias, its indexes.
  predicate Acceptable(run: Run, o: Settings, v: ViewUnit) {
    run.failed.None? ==> Target(o, v.database) in run.server && Accepts(run.server[Target(o, v.database)], v.definition)
  }

  lemma MakeViewProgress(run: Run, o: Settings, v: ViewUnit, calm: bool)
    requires Sane(run, calm) && o.overwrite && Acceptable(run, o, v)
    ensures Sane(MakeView(run, o, v), calm) && Grows(run.server, MakeView(run, o, v).server)
    ensures run.failed.Some? ==> MakeView(run, o, v).failed.Some?
  {
    var database := Target(o, v.database);
    var cleared := Ask(run, DropView(database, v.name));
    AskAccepted(run, DropView(database, v.name), calm);
    ClearedAccepts(run, database, v);
    AskAccepted(cleared, CreateView(database, v.name, v.definition), calm);
    GrowsTrans(run.server, cleared.server, MakeView(run, o, v).server);
  }

  lemma ClearedAccepts(run: Run, database: string, v: ViewUnit)
    requires run.failed.None? ==> database in run.server && Accepts(run.server[database], v.definition)
    ensures var cleared := Ask(run, DropView(database, v.name));
            cleared.failed.None? ==> Perform(cleared.server, CreateView(database, v.name, v.definition)).Ok?
  {
    var cleared := Ask(run, DropView(database, v.name));
    if cleared.failed.None? {
      assert cleared.server[database].collections == run.server[database].collections;
      AcceptsByCollections(run.server[database], cleared.server[database], v.definition);
    }
  }

  lemma AcceptsByCollections(a: Database, b: Database, v: View)
    requires a.collections == b.collections
    ensures Accepts(a, v) == Accepts(b, v)
  {
    forall c, i ensures HasIndex(a, c, i) == HasIndex(b, c, i) {
    }
  }

  lemma ViewOneProgress(run: Run, o: Settings, v: ViewUnit, aliases: bool, calm: bool)
    requires Sane(run, calm) && o.overwrite && (IsSearchAlias(v.definition) == aliases ==> Acceptable(run, o, v))
    ensures var end := ViewOne(run, o, v, aliases);
            Sane(end, calm) && Grows(run.server, end.server) && (run.failed.Some? ==> end.failed.Some?)
  {
    if IsSearchAlias(v.definition) == aliases { MakeViewProgress(run, o, v, calm); }
  }

  // What a pass over the views relies on: databases, and the collections as they are
  // before the data is loaded or after.
  ghost predicate Supports(run: Run, o: Settings, objects: Objects, units: seq<Unit>, views: seq<ViewUnit>, aliases: bool) {
    run.failed.None? ==>
      && DatabasesThere(run.server, o, [], views)
      && (if aliases then AllComplete(run.server, o, objects, units) else AllThere(run, o, units))
  }

  lemma IsThere(s: Server, database: string, name: string)
    requires At(s, Place(database, name)).Some?
    ensures database in s && name in s[database].collections
  {
  }

  lemma LinksAreThere(run: Run, o: Settings, units: seq<Unit>, v: ViewUnit)
    requires run.failed.None? && AllThere(run, o, units) && Targeted(o, units, v) && Target(o, v.database) in run.server
    ensures forall k :: 0 <= k < |v.definition.links| ==> v.definition.links[k] in run.server[Target(o, v.database)].collections
  {
    forall k | 0 <= k < |v.definition.links| ensures v.definition.links[k] in run.server[Target(o, v.database)].collections {
      assert HasUnit(o, units, Target(o, v.database), v.definition.links[k]);
      IsThere(run.server, Target(o, v.database), v.definition.links[k]);
    }
  }

  lemma IndexIsThere(s: Server, o: Settings, objects: Objects, units: seq<Unit>, database: string, name: string, index: string)
    requires AllComplete(s, o, objects, units) && HasUnitIndex(o, units, database, name, index)
    ensures database in s && HasIndex(s[database], name, index)
  {
    var i :| 0 <= i < |units| && PlaceOf(o, units[i]) == Place(database, name) && HasOwnIndex(units[i], index);
    assert Complete(s, o, objects, units[i]);
    IsThere(s, database, name);
    assert s[database].collections[name].indexes == OwnIndexes(units[i].structure.indexes);
  }

  lemma CompleteIsThere(run: Run, o: Settings, objects: Objects, units: seq<Unit>)
    requires AllComplete(run.server, o, objects, units)
    ensures AllThere(run, o, units)
  {
    forall i | 0 <= i < |units| ensures At(run.server, PlaceOf(o, units[i])).Some? {
      assert Complete(run.server, o, objects, units[i]);
    }
  }

  lemma ViewIsAcceptable(run: Run, o: Settings, objects: Objects, units: seq<Unit>, views: seq<ViewUnit>, v: ViewUnit, aliases: bool)
    requires Supports(run, o, objects, units, views, aliases) && Targeted(o, units, v) && v in views
    requires IsSearchAlias(v.definition) == aliases
    ensures Acceptable(run, o, v)
  {
    if run.failed.None? {
      var database := Target(o, v.database);
      if aliases {
        CompleteIsThere(run, o, objects, units);
        forall k | 0 <= k < |v.definition.indexes|
          ensures HasIndex(run.server[database], v.definition.indexes[k].0, v.definition.indexes[k].1)
        {
          IndexIsThere(run.server, o, objects, units, database, v.definition.indexes[k].0, v.definition.indexes[k].1);
        }
      }
      LinksAreThere(run, o, units, v);
    }
  }

  lemma ViewOneSupports(run: Run, o: Settings, objects: Objects, units: seq<Unit>, views: seq<ViewUnit>, v: ViewUnit, aliases: bool)
    requires Supports(run, o, objects, units, views, aliases)
    requires var end := ViewOne(run, o, v, aliases); Grows(run.server, end.server) && (run.failed.Some? ==> end.failed.Some?)
    ensures Supports(ViewOne(run, o, v, aliases), o, objects, units, views, aliases)
  {
    if aliases && run.failed.None? {
      forall i | 0 <= i < |units| ensures Complete(ViewOne(run, o, v, aliases).server, o, objects, units[i]) {
        assert Complete(run.server, o, objects, units[i]);
        MakeViewLeaves(run, o, v, units[i]);
      }
    }
  }

  lemma {:induction false} ViewAllProgress(run: Run, o: Settings, objects: Objects, units: seq<Unit>, views: seq<ViewUnit>, n: nat, aliases: bool, calm: bool)
    requires n <= |views| && o.overwrite && Sane(run, calm) && Closed(o, objects, units, views)
    requires Supports(run, o, objects, units, views, aliases)
    ensures var end := ViewAll(run, o, views[..n], aliases);
            && Sane(end, calm) && Grows(run.server, end.server) && Supports(end, o, objects, units, views, aliases)
            && (run.failed.Some? ==> end.failed.Some?)
    decreases n
  {
    if n > 0 {
      var v := views[n - 1];
      var before := ViewAll(run, o, views[..n - 1], aliases);
      assert views[..n][..n - 1] == views[..n - 1];
      ViewAllProgress(run, o, objects, units, views, n - 1, aliases, calm);
      assert Targeted(o, units, v);
      if IsSearchAlias(v.definition) == aliases { ViewIsAcceptable(before, o, objects, units, views, v, aliases); }
      ViewOneProgress(before, o, v, aliases, calm);
      ViewOneSupports(before, o, objects, units, views, v, aliases);
      GrowsTrans(run.server, before.server, ViewOne(before, o, v, aliases).server);
    }
  }

  // --- data -----------------------------------------------------------------------------------------------

  predicate There(run: Run, p: Place) { run.failed.None? ==> At(run.server, p).Some? }

  lemma {:induction false} PartsProgress(run: Run, p: Place, objects: Objects, paths: seq<string>, calm: bool)
    requires Sane(run, calm) && There(run, p) && forall k :: 0 <= k < |paths| ==> paths[k] in objects && objects[paths[k]].DataObject?
    ensures var end := LoadParts(run, p.database, p.name, objects, paths);
            Sane(end, calm) && There(end, p) && Grows(run.server, end.server) && (run.failed.Some? ==> end.failed.Some?)
    decreases |paths|
  {
    if paths != [] {
      var front, path := paths[..|paths| - 1], paths[|paths| - 1];
      var before := LoadParts(run, p.database, p.name, objects, front);
      assert forall k :: 0 <= k < |front| ==> front[k] == paths[k];
      PartsProgress(run, p, objects, front, calm);
      AskAccepted(before, LoadData(p.database, p.name, objects[path].body), calm);
      GrowsTrans(run.server, before.server, LoadParts(run, p.database, p.name, objects, paths).server);
    }
  }

  lemma {:induction false} IndexesProgress(run: Run, p: Place, indexes: seq<Index>, calm: bool)
    requires Sane(run, calm) && There(run, p)
    ensures var end := BuildIndexes(run, p.database, p.name, indexes);
            Sane(end, calm) && There(end, p) && Grows(run.server, end.server) && (run.failed.Some? ==> end.failed.Some?)
    decreases |indexes|
  {
    if indexes != [] {
      var before := BuildIndexes(run, p.database, p.name, indexes[..|indexes| - 1]);
      IndexesProgress(run, p, indexes[..|indexes| - 1], calm);
      AskAccepted(before, CreateIndex(p.database, p.name, indexes[|indexes| - 1]), calm);
      GrowsTrans(run.server, before.server, BuildIndexes(run, p.database, p.name, indexes).server);
    }
  }

  lemma LoadOneProgress(run: Run, o: Settings, objects: Objects, u: Unit, calm: bool)
    requires Sane(run, calm) && There(run, PlaceOf(o, u)) && Readable(objects, u)
    ensures var end := LoadOne(run, o, objects, u);
            Sane(end, calm) && Grows(run.server, end.server) && (run.failed.Some? ==> end.failed.Some?)
  {
    var p := PlaceOf(o, u);
    var loaded := LoadParts(run, p.database, p.name, objects, u.group.dataPaths);
    PartsProgress(run, p, objects, u.group.dataPaths, calm);
    IndexesProgress(loaded, p, u.structure.indexes, calm);
    GrowsTrans(run.server, loaded.server, LoadCollection(run, o, objects, u).server);
  }

  lemma {:induction false} LoadAllProgress(run: Run, o: Settings, objects: Objects, units: seq<Unit>, n: nat, calm: bool)
    requires n <= |units| && Sane(run, calm) && AllThere(run, o, units) && forall i :: 0 <= i < |units| ==> Readable(objects, units[i])
    ensures var end := LoadAll(run, o, objects, units[..n]);
            && Sane(end, calm) && Grows(run.server, end.server) && AllThere(end, o, units)
            && (run.failed.Some? ==> end.failed.Some?)
    decreases n
  {
    if n > 0 {
      var before := LoadAll(run, o, objects, units[..n - 1]);
      assert units[..n][..n - 1] == units[..n - 1];
      LoadAllProgress(run, o, objects, units, n - 1, calm);
      LoadOneProgress(before, o, objects, units[n - 1], calm);
      GrowsTrans(run.server, before.server, LoadOne(before, o, objects, units[n - 1]).server);
      AllThereLater(before, LoadOne(before, o, objects, units[n - 1]), o, units);
    }
  }

  // --- all phases ---------------------------------------------------------------------------------------------

  predicate AllGood(run: Run, o: Settings, objects: Objects, units: seq<Unit>) {
    forall i :: 0 <= i < |units| ==> Good(run, o, objects, units[i])
  }

  lemma GoodIsThere(run: Run, o: Settings, objects: Objects, units: seq<Unit>)
    requires AllGood(run, o, objects, units)
    ensures RecordedThere(run, o, units)
  {
    forall i | 0 <= i < |units| && Has(run, o, UnitId(units[i])) ensures At(run.server, PlaceOf(o, units[i])).Some? {
      assert Good(run, o, objects, units[i]);
    }
  }

  lemma DatabasesThereLater(a: Server, b: Server, o: Settings, units: seq<Unit>, views: seq<ViewUnit>)
    requires DatabasesThere(a, o, units, views) && Grows(a, b)
    ensures DatabasesThere(b, o, units, views)
  {
  }

  // After phase 3 every collection is complete, or the run has failed.
  lemma LoadedIsComplete(run: Run, o: Settings, objects: Objects, units: seq<Unit>, views: seq<ViewUnit>)
    requires Independent(o, units, views) && AllGood(run, o, objects, units)
    ensures var end := LoadAll(ViewAll(CreateAll(run, o, units), o, views, false), o, objects, units);
            end.failed.None? ==> AllComplete(end.server, o, objects, units)
  {
    var r1 := CreateAll(run, o, units);
    var r2 := ViewAll(r1, o, views, false);
    var r3 := LoadAll(r2, o, objects, units);
    if r3.failed.None? {
      forall i | 0 <= i < |units| ensures Complete(r3.server, o, objects, units[i]) {
        CreateAllReady(run, o, objects, units, views, i);
        ViewAllLeaves(r1, o, views, false, units[i]);
        LeftKeepsAll(r1, r2, o, objects, units[i]);
        LoadAllFinishes(r2, o, objects, units, views, i);
      }
    }
  }

  lemma FirstPhasesProgress(run: Run, o: Settings, objects: Objects, units: seq<Unit>, views: seq<ViewUnit>, calm: bool)
    requires o.overwrite && Sane(run, calm) && Closed(o, objects, units, views) && Independent(o, units, views)
    requires AllGood(run, o, objects, units) && DatabasesThere(run.server, o, units, views)
    ensures var end := ViewAll(CreateAll(run, o, units), o, views, false);
            Sane(end, calm) && Grows(run.server, end.server) && AllThere(end, o, units)
  {
    var r1 := CreateAll(run, o, units);
    GoodIsThere(run, o, objects, units);
    assert DatabasesThere(run.server, o, units, []);
    CreateAllProgress(run, o, units, calm);
    DatabasesThereLater(run.server, r1.server, o, [], views);
    assert views[..|views|] == views;
    ViewAllProgress(r1, o, objects, units, views, |views|, false, calm);
    GrowsTrans(run.server, r1.server, ViewAll(r1, o, views, false).server);
    AllThereLater(r1, ViewAll(r1, o, views, false), o, units);
  }

  lemma PhasesProgress(run: Run, o: Settings, objects: Objects, units: seq<Unit>, views: seq<ViewUnit>, calm: bool)
    requires o.overwrite && Sane(run, calm) && Closed(o, objects, units, views) && Independent(o, units, views)
    requires AllGood(run, o, objects, units) && DatabasesThere(run.server, o, units, views)
    ensures Sane(Phases(run, o, objects, units, views), calm)
  {
    var r2 := ViewAll(CreateAll(run, o, units), o, views, false);
    var r3 := LoadAll(r2, o, objects, units);
    FirstPhasesProgress(run, o, objects, units, views, calm);
    assert units[..|units|] == units && views[..|views|] == views;
    LoadAllProgress(r2, o, objects, units, |units|, calm);
    LoadedIsComplete(run, o, objects, units, views);
    GrowsTrans(run.server, r2.server, r3.server);
    DatabasesThereLater(run.server, r3.server, o, [], views);
    ViewAllProgress(r3, o, objects, units, views, |views|, true, calm);
  }
}
