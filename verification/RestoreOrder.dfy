// When views appear: at no point of any run is there a new view before every collection
// of the dump is there, nor a new search-alias view before every collection is complete.

module RestoreOrder {
  import opened Common
  import opened DumpFormat
  import opened RestoreModel
  import opened RestoreSafety
  import opened RestoreProgress
  import opened RestoreOutcomes

  function ViewAt(s: Server, database: string, name: string): Option<View> {
    if database in s && name in s[database].views then Some(s[database].views[name]) else None
  }

  // The second server has a view, or a search-alias view, that the first has not.
  ghost predicate NewView(a: Server, b: Server, aliases: bool) {
    exists database, name :: ViewAt(b, database, name).Some? && ViewAt(b, database, name) != ViewAt(a, database, name)
                             && (aliases ==> IsSearchAlias(ViewAt(b, database, name).value))
  }

  // Collections stay, and no view, or no search-alias view, is new.
  ghost predicate Onward(a: Server, b: Server, aliases: bool) { Grows(a, b) && !NewView(a, b, aliases) }

  lemma OnwardTrans(a: Server, b: Server, c: Server, aliases: bool)
    requires Onward(a, b, aliases) && Onward(b, c, aliases)
    ensures Onward(a, c, aliases)
  {
    GrowsTrans(a, b, c);
    forall database, name | ViewAt(c, database, name).Some? && (aliases ==> IsSearchAlias(ViewAt(c, database, name).value))
      ensures ViewAt(c, database, name) == ViewAt(a, database, name)
    {
      assert ViewAt(c, database, name) == ViewAt(b, database, name);
    }
  }

  predicate Brings(r: Request, aliases: bool) { r.CreateView? && (aliases ==> IsSearchAlias(r.view)) }

  lemma PerformOnward(s: Server, r: Request, aliases: bool)
    requires Perform(s, r).Ok? && !Brings(r, aliases)
    ensures Onward(s, Perform(s, r).value, aliases)
  {
    PerformGrows(s, r);
    var t := Perform(s, r).value;
    forall database, name | ViewAt(t, database, name).Some? && (aliases ==> IsSearchAlias(ViewAt(t, database, name).value))
      ensures ViewAt(t, database, name) == ViewAt(s, database, name)
    {
    }
  }

  lemma AskGrows(run: Run, r: Request)
    ensures Grows(run.server, Ask(run, r).server)
  {
    if run.failed.None? {
      var kept := if NextRequest(run.plan).Cut? then NextRequest(run.plan).kept else 0;
      if Perform(run.server, r).Ok? { PerformGrows(run.server, r); }
      if Perform(run.server, Shortened(r, kept)).Ok? { PerformGrows(run.server, Shortened(r, kept)); }
    }
  }

  lemma AskOnward(run: Run, r: Request, aliases: bool)
    requires !Brings(r, aliases)
    ensures Onward(run.server, Ask(run, r).server, aliases)
  {
    AskGrows(run, r);
    if run.failed.None? {
      var kept := if NextRequest(run.plan).Cut? then NextRequest(run.plan).kept else 0;
      if Perform(run.server, r).Ok? { PerformOnward(run.server, r, aliases); }
      if Perform(run.server, Shortened(r, kept)).Ok? { PerformOnward(run.server, Shortened(r, kept), aliases); }
    }
  }

  // --- phase by phase ------------------------------------------------------------------

  lemma {:induction false} DatabasesOnward(run: Run, databases: seq<string>, aliases: bool)
    ensures Onward(run.server, CreateDatabases(run, databases).server, aliases)
    decreases |databases|
  {
    if databases != [] {
      var before := CreateDatabases(run, databases[..|databases| - 1]);
      DatabasesOnward(run, databases[..|databases| - 1], aliases);
      AskOnward(before, CreateDatabase(databases[|databases| - 1]), aliases);
      OnwardTrans(run.server, before.server, CreateDatabases(run, databases).server, aliases);
    }
  }

  lemma {:induction false} CreateAllOnward(run: Run, o: Settings, units: seq<Unit>, aliases: bool)
    ensures Onward(run.server, CreateAll(run, o, units).server, aliases)
    decreases |units|
  {
    if units != [] {
      var before, u := CreateAll(run, o, units[..|units| - 1]), units[|units| - 1];
      CreateAllOnward(run, o, units[..|units| - 1], aliases);
      AskOnward(before, CreateCollection(Target(o, u.group.database), u.structure, o.overwrite), aliases);
      OnwardTrans(run.server, before.server, CreateAll(run, o, units).server, aliases);
    }
  }

  lemma MakeViewGrows(run: Run, o: Settings, v: ViewUnit)
    ensures Grows(run.server, MakeView(run, o, v).server)
    ensures !IsSearchAlias(v.definition) ==> Onward(run.server, MakeView(run, o, v).server, true)
  {
    var database := Target(o, v.database);
    var cleared := if o.overwrite then Ask(run, DropView(database, v.name)) else run;
    AskOnward(run, DropView(database, v.name), true);
    AskGrows(cleared, CreateView(database, v.name, v.definition));
    GrowsTrans(run.server, cleared.server, MakeView(run, o, v).server);
    if !IsSearchAlias(v.definition) {
      AskOnward(cleared, CreateView(database, v.name, v.definition), true);
      OnwardTrans(run.server, cleared.server, MakeView(run, o, v).server, true);
    }
  }

  lemma {:induction false} ViewAllGrows(run: Run, o: Settings, views: seq<ViewUnit>, aliases: bool)
    ensures Grows(run.server, ViewAll(run, o, views, aliases).server)
    ensures !aliases ==> Onward(run.server, ViewAll(run, o, views, aliases).server, true)
    decreases |views|
  {
    if views != [] {
      var before, v := ViewAll(run, o, views[..|views| - 1], aliases), views[|views| - 1];
      ViewAllGrows(run, o, views[..|views| - 1], aliases);
      MakeViewGrows(before, o, v);
      GrowsTrans(run.server, before.server, ViewAll(run, o, views, aliases).server);
      if !aliases { OnwardTrans(run.server, before.server, ViewAll(run, o, views, aliases).server, true); }
    }
  }

  lemma {:induction false} LoadPartsOnward(run: Run, p: Place, objects: Objects, paths: seq<string>, aliases: bool)
    ensures Onward(run.server, LoadParts(run, p.database, p.name, objects, paths).server, aliases)
    decreases |paths|
  {
    if paths != [] {
      var before, path := LoadParts(run, p.database, p.name, objects, paths[..|paths| - 1]), paths[|paths| - 1];
      LoadPartsOnward(run, p, objects, paths[..|paths| - 1], aliases);
      if path in objects && objects[path].DataObject? {
        AskOnward(before, LoadData(p.database, p.name, objects[path].body), aliases);
      }
      OnwardTrans(run.server, before.server, LoadParts(run, p.database, p.name, objects, paths).server, aliases);
    }
  }

  lemma {:induction false} BuildIndexesOnward(run: Run, p: Place, indexes: seq<Index>, aliases: bool)
    ensures Onward(run.server, BuildIndexes(run, p.database, p.name, indexes).server, aliases)
    decreases |indexes|
  {
    if indexes != [] {
      var before := BuildIndexes(run, p.database, p.name, indexes[..|indexes| - 1]);
      BuildIndexesOnward(run, p, indexes[..|indexes| - 1], aliases);
      AskOnward(before, CreateIndex(p.database, p.name, indexes[|indexes| - 1]), aliases);
      OnwardTrans(run.server, before.server, BuildIndexes(run, p.database, p.name, indexes).server, aliases);
    }
  }

  lemma {:induction false} LoadAllOnward(run: Run, o: Settings, objects: Objects, units: seq<Unit>, aliases: bool)
    ensures Onward(run.server, LoadAll(run, o, objects, units).server, aliases)
    decreases |units|
  {
    if units != [] {
      var before, u := LoadAll(run, o, objects, units[..|units| - 1]), units[|units| - 1];
      var p := PlaceOf(o, u);
      var loaded := LoadParts(before, p.database, p.name, objects, u.group.dataPaths);
      LoadAllOnward(run, o, objects, units[..|units| - 1], aliases);
      LoadPartsOnward(before, p, objects, u.group.dataPaths, aliases);
      BuildIndexesOnward(loaded, p, u.structure.indexes, aliases);
      OnwardTrans(before.server, loaded.server, LoadCollection(before, o, objects, u).server, aliases);
      OnwardTrans(run.server, before.server, LoadCollection(before, o, objects, u).server, aliases);
    }
  }

  // --- all phases ------------------------------------------------------------------------

  lemma PhasesGrowFrom(r1: Run, o: Settings, objects: Objects, units: seq<Unit>, views: seq<ViewUnit>)
    ensures Grows(r1.server, ViewAll(LoadAll(ViewAll(r1, o, views, false), o, objects, units), o, views, true).server)
  {
    var r2 := ViewAll(r1, o, views, false);
    var r3 := LoadAll(r2, o, objects, units);
    ViewAllGrows(r1, o, views, false);
    LoadAllOnward(r2, o, objects, units, true);
    ViewAllGrows(r3, o, views, true);
    GrowsTrans(r1.server, r2.server, r3.server);
    GrowsTrans(r1.server, r3.server, ViewAll(r3, o, views, true).server);
  }

  // --- a run that has failed does nothing more --------------------------------------------

  lemma {:induction false} ViewAllStops(run: Run, o: Settings, views: seq<ViewUnit>, aliases: bool)
    requires run.failed.Some?
    ensures ViewAll(run, o, views, aliases) == run
    decreases |views|
  {
    if views != [] { ViewAllStops(run, o, views[..|views| - 1], aliases); }
  }

  lemma {:induction false} LoadPartsStop(run: Run, database: string, name: string, objects: Objects, paths: seq<string>)
    requires run.failed.Some?
    ensures LoadParts(run, database, name, objects, paths) == run
    decreases |paths|
  {
    if paths != [] { LoadPartsStop(run, database, name, objects, paths[..|paths| - 1]); }
  }

  lemma {:induction false} BuildIndexesStop(run: Run, database: string, name: string, indexes: seq<Index>)
    requires run.failed.Some?
    ensures BuildIndexes(run, database, name, indexes) == run
    decreases |indexes|
  {
    if indexes != [] { BuildIndexesStop(run, database, name, indexes[..|indexes| - 1]); }
  }

  lemma {:induction false} LoadAllStops(run: Run, o: Settings, objects: Objects, units: seq<Unit>)
    requires run.failed.Some?
    ensures LoadAll(run, o, objects, units) == run
    decreases |units|
  {
    if units != [] {
      var u := units[|units| - 1];
      LoadAllStops(run, o, objects, units[..|units| - 1]);
      LoadPartsStop(run, Target(o, u.group.database), u.group.name, objects, u.group.dataPaths);
      BuildIndexesStop(run, Target(o, u.group.database), u.group.name, u.structure.indexes);
    }
  }

  // --- when views are new ------------------------------------------------------------------

  predicate AllStand(s: Server, o: Settings, units: seq<Unit>) {
    forall i :: 0 <= i < |units| ==> At(s, PlaceOf(o, units[i])).Some?
  }

  lemma ViewsAfterCollections(run: Run, o: Settings, objects: Objects, units: seq<Unit>, views: seq<ViewUnit>)
    requires Independent(o, units, views) && AllGood(run, o, objects, units)
    ensures var end := Phases(run, o, objects, units, views);
            NewView(run.server, end.server, false) ==> AllStand(end.server, o, units)
  {
    var r1 := CreateAll(run, o, units);
    CreateAllOnward(run, o, units, false);
    if r1.failed.Some? {
      ViewAllStops(r1, o, views, false);
      LoadAllStops(r1, o, objects, units);
      ViewAllStops(r1, o, views, true);
    } else {
      PhasesGrowFrom(r1, o, objects, units, views);
      forall i | 0 <= i < |units| ensures At(Phases(run, o, objects, units, views).server, PlaceOf(o, units[i])).Some? {
        CreateAllReady(run, o, objects, units, views, i);
        assert At(r1.server, PlaceOf(o, units[i])).Some?;
      }
    }
  }

  lemma AliasesAfterData(run: Run, o: Settings, objects: Objects, units: seq<Unit>, views: seq<ViewUnit>)
    requires Independent(o, units, views) && AllGood(run, o, objects, units)
    ensures var end := Phases(run, o, objects, units, views);
            NewView(run.server, end.server, true) ==> AllComplete(end.server, o, objects, units)
  {
    var r1 := CreateAll(run, o, units);
    var r2 := ViewAll(r1, o, views, false);
    var r3 := LoadAll(r2, o, objects, units);
    CreateAllOnward(run, o, units, true);
    ViewAllGrows(r1, o, views, false);
    LoadAllOnward(r2, o, objects, units, true);
    OnwardTrans(run.server, r1.server, r2.server, true);
    OnwardTrans(run.server, r2.server, r3.server, true);
    if r3.failed.Some? {
      ViewAllStops(r3, o, views, true);
    } else {
      LoadedIsComplete(run, o, objects, units, views);
      forall i | 0 <= i < |units| ensures Complete(ViewAll(r3, o, views, true).server, o, objects, units[i]) {
        ViewAllLeaves(r3, o, views, true, units[i]);
        assert Complete(r3.server, o, objects, units[i]);
      }
    }
  }

  lemma NewSince(a: Server, b: Server, c: Server, aliases: bool)
    requires !NewView(a, b, aliases)
    ensures NewView(a, c, aliases) ==> NewView(b, c, aliases)
  {
    if NewView(a, c, aliases) {
      var database, name :| ViewAt(c, database, name).Some? && ViewAt(c, database, name) != ViewAt(a, database, name)
                            && (aliases ==> IsSearchAlias(ViewAt(c, database, name).value));
      assert ViewAt(b, database, name) != ViewAt(c, database, name);
    }
  }

  // Main result: at every point of a run (each is the end of the run under some plan) a
  // view that is new since its start means that all collections of the dump are there,
  // and a search-alias view that all of them are complete, with their data and indexes.
  lemma ViewsComeLast(w: World, o: Settings, fingerprint: string, objects: Objects, units: seq<Unit>, views: seq<ViewUnit>,
                      order: seq<Option<string>>, plan: Plan)
    requires Independent(o, units, views) && AllTrusted(w, o, fingerprint, objects, units)
    ensures var end := Restored(w, o, fingerprint, objects, units, views, order, plan).world.server;
            && (NewView(w.server, end, false) ==> AllStand(end, o, units))
            && (NewView(w.server, end, true) ==> AllComplete(end, o, objects, units))
  {
    var start := Started(w, fingerprint, plan);
    var created := CreateDatabases(start, ToCreate(o, order));
    DatabasesOnward(start, ToCreate(o, order), false);
    DatabasesOnward(start, ToCreate(o, order), true);
    DatabasesRecordNothing(start, ToCreate(o, order));
    if created.failed.None? && LoadCheckpoint(o, w.saved, fingerprint).Ok? {
      var run := created.(completed := LoadCheckpoint(o, w.saved, fingerprint).value);
      forall i | 0 <= i < |units| ensures At(run.server, PlaceOf(o, units[i])) == At(w.server, PlaceOf(o, units[i])) {
        DatabasesLeave(start, ToCreate(o, order), o, units[i]);
      }
      TrustIsGood(w, run, o, fingerprint, objects, units);
      ViewsAfterCollections(run, o, objects, units, views);
      AliasesAfterData(run, o, objects, units, views);
      NewSince(w.server, run.server, Phases(run, o, objects, units, views).server, false);
      NewSince(w.server, run.server, Phases(run, o, objects, units, views).server, true);
    }
  }

  // And a search-alias view that is made again as it was is made over complete collections too.
  lemma AliasMadeOverData(run: Run, o: Settings, objects: Objects, units: seq<Unit>, views: seq<ViewUnit>, n: nat)
    requires Independent(o, units, views) && AllGood(run, o, objects, units) && n <= |views|
    ensures var loaded := LoadAll(ViewAll(CreateAll(run, o, units), o, views, false), o, objects, units);
            var before := ViewAll(loaded, o, views[..n], true);
            before.failed.None? ==> AllComplete(before.server, o, objects, units)
  {
    var loaded := LoadAll(ViewAll(CreateAll(run, o, units), o, views, false), o, objects, units);
    var before := ViewAll(loaded, o, views[..n], true);
    LoadedIsComplete(run, o, objects, units, views);
    if before.failed.None? {
      if loaded.failed.Some? { ViewAllStops(loaded, o, views[..n], true); }
      forall i | 0 <= i < |units| ensures Complete(before.server, o, objects, units[i]) {
        ViewAllLeaves(loaded, o, views[..n], true, units[i]);
        assert Complete(loaded.server, o, objects, units[i]);
      }
    }
  }
}
