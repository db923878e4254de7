// How a restore can end: only through faults or a foreign checkpoint, provided every
// database is there; and exactly that proviso when there are no faults.

module RestoreOutcomes {
  import opened Common
  import opened DumpFormat
  import opened RestoreModel
  import opened RestoreSafety
  import opened RestoreProgress

  // Every database that collections or views go to exists, or is created up front.
  predicate Homes(s: Server, o: Settings, order: seq<Option<string>>, units: seq<Unit>, views: seq<ViewUnit>) {
    && (forall i :: 0 <= i < |units| ==> Homed(s, o, order, units[i].group.database))
    && (forall j :: 0 <= j < |views| ==> Homed(s, o, order, views[j].database))
  }

  predicate Homed(s: Server, o: Settings, order: seq<Option<string>>, database: Option<string>) {
    Target(o, database) in s || Target(o, database) in ToCreate(o, order)
  }

  predicate ByFaultOrCheckpoint(e: RestoreError) { e.Transport? || e.BadCheckpoint? || e.NotThisDump? }

  lemma TrustIsGood(w: World, run: Run, o: Settings, fingerprint: string, objects: Objects, units: seq<Unit>)
    requires AllTrusted(w, o, fingerprint, objects, units)
    requires run.saved == w.saved && run.manifest == fingerprint && LoadCheckpoint(o, w.saved, fingerprint) == Ok(run.completed)
    requires forall i :: 0 <= i < |units| ==> At(run.server, PlaceOf(o, units[i])) == At(w.server, PlaceOf(o, units[i]))
    ensures AllGood(run, o, objects, units)
  {
    forall i | 0 <= i < |units| ensures Good(run, o, objects, units[i]) {
      assert Trusted(w, o, fingerprint, objects, units[i]);
    }
  }

  // The state in which the phases start.
  function Ready1(w: World, o: Settings, fingerprint: string, order: seq<Option<string>>, plan: Plan): Run {
    CreateDatabases(Started(w, fingerprint, plan), ToCreate(o, order))
  }

  lemma DatabasesReady(w: World, o: Settings, fingerprint: string, objects: Objects, units: seq<Unit>, views: seq<ViewUnit>,
                       order: seq<Option<string>>, plan: Plan, calm: bool)
    requires AllTrusted(w, o, fingerprint, objects, units) && Homes(w.server, o, order, units, views)
    requires calm ==> plan == Plan([], [])
    ensures var run := Ready1(w, o, fingerprint, order, plan);
            && Sane(run, calm)
            && (run.failed.None? ==> DatabasesThere(run.server, o, units, views))
            && (LoadCheckpoint(o, w.saved, fingerprint).Ok? ==>
                  AllGood(run.(completed := LoadCheckpoint(o, w.saved, fingerprint).value), o, objects, units))
  {
    var start := Started(w, fingerprint, plan);
    var run := Ready1(w, o, fingerprint, order, plan);
    DatabasesProgress(start, ToCreate(o, order), calm);
    DatabasesRecordNothing(start, ToCreate(o, order));
    forall i | 0 <= i < |units| ensures At(run.server, PlaceOf(o, units[i])) == At(w.server, PlaceOf(o, units[i])) {
      DatabasesLeave(start, ToCreate(o, order), o, units[i]);
    }
    if LoadCheckpoint(o, w.saved, fingerprint).Ok? {
      TrustIsGood(w, run.(completed := LoadCheckpoint(o, w.saved, fingerprint).value), o, fingerprint, objects, units);
    }
    if run.failed.None? { HomesAreThere(w.server, run.server, o, order, units, views); }
  }

  lemma HomesAreThere(a: Server, b: Server, o: Settings, order: seq<Option<string>>, units: seq<Unit>, views: seq<ViewUnit>)
    requires Homes(a, o, order, units, views) && Grows(a, b)
    requires forall k :: 0 <= k < |ToCreate(o, order)| ==> ToCreate(o, order)[k] in b
    ensures DatabasesThere(b, o, units, views)
  {
    assert forall d :: d in ToCreate(o, order) ==> d in b;
    forall i | 0 <= i < |units| ensures Target(o, units[i].group.database) in b {
      assert Homed(a, o, order, units[i].group.database);
    }
    forall j | 0 <= j < |views| ensures Target(o, views[j].database) in b {
      assert Homed(a, o, order, views[j].database);
    }
  }

  // Main result: with overwriting, a dump that brings along what its views name, and a
  // truthful checkpoint, a run fails only by a fault or over the checkpoint. In
  // particular no view is ever refused for a missing collection or index.
  lemma OnlyFaultsFail(w: World, o: Settings, fingerprint: string, objects: Objects, units: seq<Unit>, views: seq<ViewUnit>,
                       order: seq<Option<string>>, plan: Plan)
    requires o.overwrite && Closed(o, objects, units, views) && Independent(o, units, views)
    requires AllTrusted(w, o, fingerprint, objects, units) && Homes(w.server, o, order, units, views)
    ensures var result := Restored(w, o, fingerprint, objects, units, views, order, plan).result;
            result.Err? ==> ByFaultOrCheckpoint(result.error)
  {
    DatabasesReady(w, o, fingerprint, objects, units, views, order, plan, false);
    var run := Ready1(w, o, fingerprint, order, plan);
    if run.failed.None? && LoadCheckpoint(o, w.saved, fingerprint).Ok? {
      PhasesProgress(run.(completed := LoadCheckpoint(o, w.saved, fingerprint).value), o, objects, units, views, false);
    }
  }

  lemma NoFaultNoFailure(w: World, o: Settings, fingerprint: string, objects: Objects, units: seq<Unit>, views: seq<ViewUnit>,
                         order: seq<Option<string>>)
    requires o.overwrite && Closed(o, objects, units, views) && Independent(o, units, views)
    requires AllTrusted(w, o, fingerprint, objects, units) && Homes(w.server, o, order, units, views)
    requires LoadCheckpoint(o, w.saved, fingerprint).Ok?
    ensures Restored(w, o, fingerprint, objects, units, views, order, Plan([], [])).result.Ok?
  {
    DatabasesReady(w, o, fingerprint, objects, units, views, order, Plan([], []), true);
    var run := Ready1(w, o, fingerprint, order, Plan([], []));
    PhasesProgress(run.(completed := LoadCheckpoint(o, w.saved, fingerprint).value), o, objects, units, views, true);
  }

  // --- the proviso is needed -----------------------------------------------------------------

  // No database appears except by creating it.
  predicate SameDatabases(a: Server, b: Server) { a.Keys == b.Keys }

  lemma AskSameDatabases(run: Run, r: Request)
    requires !r.CreateDatabase?
    ensures SameDatabases(run.server, Ask(run, r).server)
    ensures Ask(run, r).failed.None? ==> run.failed.None? && r.database in run.server
  {
  }

  // Later steps keep the databases and do not undo a failure.
  predicate Continues(a: Run, b: Run) { SameDatabases(a.server, b.server) && (b.failed.None? ==> a.failed.None?) }

  lemma {:induction false} CreateAllHomed(run: Run, o: Settings, units: seq<Unit>, i: nat)
    requires i < |units| && run.completed == []
    ensures var end := CreateAll(run, o, units);
            && Continues(run, end) && end.completed == []
            && (end.failed.None? ==> Target(o, units[i].group.database) in run.server)
    decreases |units|
  {
    var front, last := units[..|units| - 1], units[|units| - 1];
    var before := CreateAll(run, o, front);
    if i < |units| - 1 {
      CreateAllHomed(run, o, front, i);
    } else {
      CreateAllContinues(run, o, front);
    }
    AskSameDatabases(before, CreateCollection(Target(o, last.group.database), last.structure, o.overwrite));
    AskKeeps(before, CreateCollection(Target(o, last.group.database), last.structure, o.overwrite));
  }

  lemma {:induction false} CreateAllContinues(run: Run, o: Settings, units: seq<Unit>)
    ensures Continues(run, CreateAll(run, o, units)) && CreateAll(run, o, units).completed == run.completed
    decreases |units|
  {
    if units != [] {
      var before, u := CreateAll(run, o, units[..|units| - 1]), units[|units| - 1];
      CreateAllContinues(run, o, units[..|units| - 1]);
      AskSameDatabases(before, CreateCollection(Target(o, u.group.database), u.structure, o.overwrite));
      AskKeeps(before, CreateCollection(Target(o, u.group.database), u.structure, o.overwrite));
    }
  }

  lemma MakeViewContinues(run: Run, o: Settings, v: ViewUnit)
    ensures Continues(run, MakeView(run, o, v)) && MakeView(run, o, v).completed == run.completed
    ensures MakeView(run, o, v).failed.None? ==> Target(o, v.database) in run.server
  {
    var database := Target(o, v.database);
    var cleared := if o.overwrite then Ask(run, DropView(database, v.name)) else run;
    AskSameDatabases(run, DropView(database, v.name));
    AskSameDatabases(cleared, CreateView(database, v.name, v.definition));
    AskKeeps(run, DropView(database, v.name));
    AskKeeps(cleared, CreateView(database, v.name, v.definition));
  }

  lemma ViewOneContinues(run: Run, o: Settings, v: ViewUnit, aliases: bool, id: string)
    ensures var end := ViewOne(run, o, v, aliases);
            && Continues(run, end)
            && (id !in run.completed && ViewUnitId(v) != id ==> id !in end.completed)
            && (IsSearchAlias(v.definition) != aliases ==> end == run)
  {
    MakeViewContinues(run, o, v);
  }

  lemma {:induction false} ViewAllContinues(run: Run, o: Settings, views: seq<ViewUnit>, aliases: bool, id: string)
    ensures Continues(run, ViewAll(run, o, views, aliases))
    ensures id !in run.completed && NoViewIs(views, id) ==> id !in ViewAll(run, o, views, aliases).completed
    decreases |views|
  {
    if views != [] {
      ViewAllContinues(run, o, views[..|views| - 1], aliases, id);
      ViewOneContinues(ViewAll(run, o, views[..|views| - 1], aliases), o, views[|views| - 1], aliases, id);
    }
  }

  // A pass that does not fail found the database of each of its views.
  lemma {:induction false} ViewAllHomed(run: Run, o: Settings, views: seq<ViewUnit>, j: nat)
    requires j < |views| && ViewUnitId(views[j]) !in run.completed
    requires forall k :: 0 <= k < |views| && k != j ==> ViewUnitId(views[k]) != ViewUnitId(views[j])
    ensures ViewAll(run, o, views, IsSearchAlias(views[j].definition)).failed.None? ==> Target(o, views[j].database) in run.server
    decreases |views|
  {
    var aliases := IsSearchAlias(views[j].definition);
    var front := views[..|views| - 1];
    var before := ViewAll(run, o, front, aliases);
    ViewAllContinues(run, o, front, aliases, ViewUnitId(views[j]));
    MakeViewContinues(before, o, views[|views| - 1]);
    if j < |views| - 1 {
      ViewAllHomed(run, o, front, j);
    } else {
      assert NoViewIs(front, ViewUnitId(views[j]));
    }
  }

  lemma {:induction false} LoadAllContinues(run: Run, o: Settings, objects: Objects, units: seq<Unit>, id: string)
    requires forall i :: 0 <= i < |units| ==> UnitId(units[i]) != id
    ensures Continues(run, LoadAll(run, o, objects, units))
    ensures id !in run.completed ==> id !in LoadAll(run, o, objects, units).completed
    decreases |units|
  {
    if units != [] {
      LoadAllContinues(run, o, objects, units[..|units| - 1], id);
      LoadOneContinues(LoadAll(run, o, objects, units[..|units| - 1]), o, objects, units[|units| - 1]);
    }
  }

  lemma LoadOneContinues(run: Run, o: Settings, objects: Objects, u: Unit)
    ensures Continues(run, LoadOne(run, o, objects, u))
    ensures forall id :: id != UnitId(u) && id !in run.completed ==> id !in LoadOne(run, o, objects, u).completed
  {
    var p := PlaceOf(o, u);
    PartsContinue(run, p, objects, u.group.dataPaths);
    IndexesContinue(LoadParts(run, p.database, p.name, objects, u.group.dataPaths), p, u.structure.indexes);
    LoadCollectionRecordsNothing(run, o, objects, u);
  }

  lemma {:induction false} PartsContinue(run: Run, p: Place, objects: Objects, paths: seq<string>)
    ensures Continues(run, LoadParts(run, p.database, p.name, objects, paths))
    decreases |paths|
  {
    if paths != [] {
      var path := paths[|paths| - 1];
      PartsContinue(run, p, objects, paths[..|paths| - 1]);
      if path in objects && objects[path].DataObject? {
        AskSameDatabases(LoadParts(run, p.database, p.name, objects, paths[..|paths| - 1]), LoadData(p.database, p.name, objects[path].body));
      }
    }
  }

  lemma {:induction false} IndexesContinue(run: Run, p: Place, indexes: seq<Index>)
    ensures Continues(run, BuildIndexes(run, p.database, p.name, indexes))
    decreases |indexes|
  {
    if indexes != [] {
      IndexesContinue(run, p, indexes[..|indexes| - 1]);
      AskSameDatabases(BuildIndexes(run, p.database, p.name, indexes[..|indexes| - 1]), CreateIndex(p.database, p.name, indexes[|indexes| - 1]));
    }
  }

  predicate DistinctViews(views: seq<ViewUnit>) {
    forall i, j :: 0 <= i < |views| && 0 <= j < |views| && i != j ==> ViewUnitId(views[i]) != ViewUnitId(views[j])
  }

  lemma PhasesHomed(run: Run, o: Settings, objects: Objects, units: seq<Unit>, views: seq<ViewUnit>)
    requires run.completed == [] && Independent(o, units, views) && DistinctViews(views)
    requires Phases(run, o, objects, units, views).failed.None?
    ensures DatabasesThere(run.server, o, units, views)
  {
    forall j | 0 <= j < |views| ensures Target(o, views[j].database) in run.server {
      ViewHomed(run, o, objects, units, views, j);
    }
    var r1 := CreateAll(run, o, units);
    var r2 := ViewAll(r1, o, views, false);
    ViewAllContinues(r1, o, views, false, []);
    LoadAllFailureStays(r2, o, objects, units);
    ViewAllContinues(LoadAll(r2, o, objects, units), o, views, true, []);
    forall i | 0 <= i < |units| ensures Target(o, units[i].group.database) in run.server {
      CreateAllHomed(run, o, units, i);
    }
  }

  lemma {:induction false} LoadAllFailureStays(run: Run, o: Settings, objects: Objects, units: seq<Unit>)
    ensures Continues(run, LoadAll(run, o, objects, units))
    decreases |units|
  {
    if units != [] {
      LoadAllFailureStays(run, o, objects, units[..|units| - 1]);
      LoadOneContinues(LoadAll(run, o, objects, units[..|units| - 1]), o, objects, units[|units| - 1]);
    }
  }

  lemma ViewHomed(run: Run, o: Settings, objects: Objects, units: seq<Unit>, views: seq<ViewUnit>, j: nat)
    requires j < |views| && run.completed == [] && Independent(o, units, views) && DistinctViews(views)
    requires Phases(run, o, objects, units, views).failed.None?
    ensures Target(o, views[j].database) in run.server
  {
    var id := ViewUnitId(views[j]);
    var r1 := CreateAll(run, o, units);
    var r2 := ViewAll(r1, o, views, false);
    var r3 := LoadAll(r2, o, objects, units);
    CreateAllContinues(run, o, units);
    LoadAllContinues(r2, o, objects, units, id);
    ViewAllContinues(r1, o, views, false, id);
    ViewAllContinues(r3, o, views, true, id);
    if IsSearchAlias(views[j].definition) {
      OtherPassLeaves(r1, o, views, j);
      ViewAllHomed(r3, o, views, j);
    } else {
      ViewAllHomed(r1, o, views, j);
    }
  }

  // The pass over the other kind of views does not record this one.
  lemma {:induction false} OtherPassLeaves(run: Run, o: Settings, views: seq<ViewUnit>, j: nat)
    requires j < |views| && IsSearchAlias(views[j].definition) && ViewUnitId(views[j]) !in run.completed
    requires forall k :: 0 <= k < |views| && k != j ==> ViewUnitId(views[k]) != ViewUnitId(views[j])
    ensures ViewUnitId(views[j]) !in ViewAll(run, o, views, false).completed
    decreases |views|
  {
    var front := views[..|views| - 1];
    ViewOneContinues(ViewAll(run, o, front, false), o, views[|views| - 1], false, ViewUnitId(views[j]));
    if j < |views| - 1 {
      OtherPassLeaves(run, o, front, j);
    } else {
      assert NoViewIs(front, ViewUnitId(views[j]));
      ViewAllContinues(run, o, front, false, ViewUnitId(views[j]));
    }
  }

  lemma {:induction false} OnlyCreatedAppear(run: Run, databases: seq<string>, d: string)
    requires d in CreateDatabases(run, databases).server
    ensures d in run.server || d in databases
    decreases |databases|
  {
    if databases != [] {
      var before := CreateDatabases(run, databases[..|databases| - 1]);
      if d in before.server { OnlyCreatedAppear(run, databases[..|databases| - 1], d); }
    }
  }

  // Main result: without faults and without a checkpoint to resume from, a restore of
  // such a dump succeeds if and only if every database it goes to exists or is among
  // those created up front. Databases are taken from collections only, so a view in a
  // database none of whose collections were dumped has no home.
  lemma FaultFreeExactly(w: World, o: Settings, fingerprint: string, objects: Objects, units: seq<Unit>, views: seq<ViewUnit>,
                         order: seq<Option<string>>)
    requires o.overwrite && Closed(o, objects, units, views) && Independent(o, units, views) && DistinctViews(views)
    requires w.saved.Absent?
    ensures Restored(w, o, fingerprint, objects, units, views, order, Plan([], [])).result.Ok?
       <==> Homes(w.server, o, order, units, views)
  {
    if Homes(w.server, o, order, units, views) {
      NoFaultNoFailure(w, o, fingerprint, objects, units, views, order);
    }
    if Restored(w, o, fingerprint, objects, units, views, order, Plan([], [])).result.Ok? {
      var start := Started(w, fingerprint, Plan([], []));
      var run := Ready1(w, o, fingerprint, order, Plan([], []));
      DatabasesRecordNothing(start, ToCreate(o, order));
      assert run.(completed := []) == run;
      PhasesHomed(run, o, objects, units, views);
      forall i | 0 <= i < |units| ensures Homed(w.server, o, order, units[i].group.database) {
        OnlyCreatedAppear(start, ToCreate(o, order), Target(o, units[i].group.database));
      }
      forall j | 0 <= j < |views| ensures Homed(w.server, o, order, views[j].database) {
        OnlyCreatedAppear(start, ToCreate(o, order), Target(o, views[j].database));
      }
    }
  }

  // For instance a dump whose second database holds one view without targets and no
  // dumped collection: the restore fails unless that database is there.
  lemma LoneViewExactly(w: World, o: Settings, fingerprint: string, u: Unit, v: ViewUnit)
    requires o.overwrite && w.saved.Absent?
    requires u == Unit(Group("c", Some("first"), "s", []), Structure("c", false, []))
    requires v == ViewUnit("v", Some("second"), View(None, "arangosearch", [], []))
    ensures Restored(w, o, fingerprint, map[], [u], [v], [Some("first")], Plan([], [])).result.Ok? <==> "second" in w.server
  {
    assert Named([Some("first")]) == ["first"] by { assert Named([]) == []; }
    var id, viewId := "first" + ("::" + "c"), "second" + ("::view::" + "v");
    assert UnitId(u) == id && ViewUnitId(v) == viewId && id[0] != viewId[0];
    assert Homed(w.server, o, [Some("first")], Some("first"));
    assert "second"[0] != "first"[0] && ToCreate(o, [Some("first")]) == ["first"];
    assert Homed(w.server, o, [Some("first")], Some("second")) <==> "second" in w.server;
    assert [u][0] == u && [v][0] == v;
    assert Homes(w.server, o, [Some("first")], [u], [v])
      <==> Homed(w.server, o, [Some("first")], u.group.database) && Homed(w.server, o, [Some("first")], v.database);
    FaultFreeExactly(w, o, fingerprint, map[], [u], [v], [Some("first")]);
  }

  // --- checkpoint ids --------------------------------------------------------------------------

  predicate ColonFree(s: string) { ':' !in s }

  function LastColon(s: string): (n: nat)
    ensures n <= |s|
  {
    if s == [] || s[|s| - 1] == ':' then |s| else LastColon(s[..|s| - 1])
  }

  lemma {:induction false} LastColonReadsBack(front: string, name: string)
    requires ColonFree(name) && front != [] && front[|front| - 1] == ':'
    ensures LastColon(front + name) == |front|
    decreases |name|
  {
    if name == [] {
      assert front + name == front;
    } else {
      assert (front + name)[..|front + name| - 1] == front + name[..|name| - 1];
      LastColonReadsBack(front, name[..|name| - 1]);
    }
  }

  lemma SplitAtName(front1: string, name1: string, front2: string, name2: string)
    requires ColonFree(name1) && ColonFree(name2)
    requires front1 != [] && front1[|front1| - 1] == ':' && front2 != [] && front2[|front2| - 1] == ':'
    ensures front1 + name1 == front2 + name2 <==> front1 == front2 && name1 == name2
  {
    LastColonReadsBack(front1, name1);
    LastColonReadsBack(front2, name2);
    if front1 + name1 == front2 + name2 {
      assert (front1 + name1)[..|front1|] == front1 && (front1 + name1)[|front1|..] == name1;
      assert (front2 + name2)[..|front2|] == front2 && (front2 + name2)[|front2|..] == name2;
    }
  }

  // Two collections share an id exactly when they share database and name, a missing
  // database counting as the empty one.
  lemma CollectionIdsExactly(d1: Option<string>, n1: string, d2: Option<string>, n2: string)
    requires ColonFree(n1) && ColonFree(n2)
    ensures CollectionId(d1, n1) == CollectionId(d2, n2) <==> NameOr(d1) == NameOr(d2) && n1 == n2
  {
    var f1, f2 := NameOr(d1) + "::", NameOr(d2) + "::";
    assert CollectionId(d1, n1) == f1 + n1 && CollectionId(d2, n2) == f2 + n2;
    SplitAtName(f1, n1, f2, n2);
    if f1 == f2 { assert f1[..|f1| - 2] == NameOr(d1) && f2[..|f2| - 2] == NameOr(d2); }
  }

  // A collection's id can be a view's even though neither name has a colon: exactly
  // when the collection's database is the view's with `::view` behind it.
  lemma ViewIdCollidesExactly(d1: Option<string>, n1: string, d2: Option<string>, n2: string)
    requires ColonFree(n1) && ColonFree(n2)
    ensures CollectionId(d1, n1) == ViewId(d2, n2) <==> n1 == n2 && NameOr(d1) == NameOr(d2) + "::view"
  {
    var f1, f2 := NameOr(d1) + "::", NameOr(d2) + "::view::";
    assert CollectionId(d1, n1) == f1 + n1 && ViewId(d2, n2) == f2 + n2;
    SplitAtName(f1, n1, f2, n2);
    assert f2 == NameOr(d2) + "::view" + "::";
    if f1 == f2 { assert f1[..|f1| - 2] == NameOr(d1) && f2[..|f2| - 2] == NameOr(d2) + "::view"; }
  }

  lemma ViewIdCollision(name: string)
    ensures CollectionId(Some("a::view"), name) == ViewId(Some("a"), name)
  {
    assert "a::view" + ("::" + name) == "a" + ("::view::" + name);
  }
}
