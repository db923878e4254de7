// Restoring what was dumped: for every inventory and every choice of filters a restore
// finds all it needs, and leaves each dumped collection as it was.

module DumpRestore {
  import opened Common
  import opened DumpFormat
  import opened RestoreModel
  import opened RestoreSafety
  import opened RestoreProgress
  import opened RestoreOutcomes
  import opened DumpDescribed
  import opened DumpCatalog
  import D = Dumping
  import Restoring

  // --- the whole dump --------------------------------------------------------------------

  lemma {:induction false} UnitsFromBelong(o: D.Options, src: D.Source, cs: seq<D.InventoryCollection>)
    ensures forall i :: 0 <= i < |UnitsFrom(o, src, cs)| ==> UnitsFrom(o, src, cs)[i].group.database == src.database
    decreases |cs|
  {
    if cs != [] { UnitsFromBelong(o, src, cs[..|cs| - 1]); }
  }

  lemma {:induction false} ViewsFromBelong(src: D.Source, dumped: set<string>, vs: seq<View>)
    ensures forall j :: 0 <= j < |ViewsFrom(src, dumped, vs)| ==> ViewsFrom(src, dumped, vs)[j].database == src.database
    decreases |vs|
  {
    if vs != [] { ViewsFromBelong(src, dumped, vs[..|vs| - 1]); }
  }

  predicate NoneFor(sources: seq<D.Source>, database: Option<string>) {
    forall s :: 0 <= s < |sources| ==> sources[s].database != database
  }

  lemma {:induction false} CatalogIsElsewhere(o: D.Options, sources: seq<D.Source>, database: Option<string>)
    requires NoneFor(sources, database)
    ensures Elsewhere(CatalogUnits(o, sources), CatalogViews(o, sources), database)
    decreases |sources|
  {
    if sources != [] {
      var src := sources[|sources| - 1];
      CatalogIsElsewhere(o, sources[..|sources| - 1], database);
      UnitsFromBelong(o, src, src.inventory.collections);
      ViewsFromBelong(src, NamesFrom(o, src.inventory.collections), src.inventory.views);
    }
  }

  predicate SourcesDelivered(o: D.Options, objects: Objects, sources: seq<D.Source>) {
    forall s :: 0 <= s < |sources| ==> AllDelivered(o, objects, sources[s], sources[s].inventory.collections)
  }

  lemma SourcesDeliveredSnoc(o: D.Options, a: Objects, b: Objects, sources: seq<D.Source>)
    requires sources != [] && SourcesDelivered(o, a, sources[..|sources| - 1]) && Keeps(a, b)
    requires AllDelivered(o, b, sources[|sources| - 1], sources[|sources| - 1].inventory.collections)
    ensures SourcesDelivered(o, b, sources)
  {
    forall s | 0 <= s < |sources| ensures AllDelivered(o, b, sources[s], sources[s].inventory.collections) {
      if s < |sources| - 1 {
        assert sources[..|sources| - 1][s] == sources[s];
        AllDeliveredLater(o, a, b, sources[s], sources[s].inventory.collections);
      }
    }
  }

  // The manifest lists exactly the kept collections and views, and the data is there.
  lemma {:induction false} DumpIsDescribed(o: D.Options, sources: seq<D.Source>, multi: bool)
    requires WellFormedSources(sources, multi) && D.DumpAll(o, sources).Ok?
    ensures var p := D.DumpAll(o, sources).value;
            && Describes(o, p, multi, CatalogUnits(o, sources), CatalogViews(o, sources))
            && Consistent(CatalogUnits(o, sources), CatalogViews(o, sources))
            && SourcesDelivered(o, p.objects, sources)
    decreases |sources|
  {
    if sources != [] {
      var front, src := sources[..|sources| - 1], sources[|sources| - 1];
      FrontIsWellFormed(sources, multi);
      DumpIsDescribed(o, front, multi);
      CatalogIsElsewhere(o, front, src.database);
      var before := D.DumpAll(o, front).value;
      DatabaseDescribed(o, src, before, multi, CatalogUnits(o, front), CatalogViews(o, front));
      SourcesDeliveredSnoc(o, before.objects, D.DumpDatabase(o, src, before).value.objects, sources);
    }
  }

  lemma FrontIsWellFormed(sources: seq<D.Source>, multi: bool)
    requires sources != [] && WellFormedSources(sources, multi)
    ensures WellFormedSources(sources[..|sources| - 1], multi) && WellNamed(sources[|sources| - 1])
    ensures NoneFor(sources[..|sources| - 1], sources[|sources| - 1].database)
  {
    var front := sources[..|sources| - 1];
    assert forall s :: 0 <= s < |front| ==> front[s] == sources[s];
  }

  // --- reading it back ----------------------------------------------------------------------

  predicate AllRead(objects: Objects, units: seq<Unit>) {
    forall i :: 0 <= i < |units| ==> ReadUnit(objects, units[i].group) == Ok(units[i])
  }

  lemma UnitsAreReadable(o: D.Options, objects: Objects, multi: bool, units: seq<Unit>)
    requires forall i :: 0 <= i < |units| ==> DescribesUnit(o, objects, multi, units[i])
    ensures AllRead(objects, units)
  {
    forall i | 0 <= i < |units| ensures ReadUnit(objects, units[i].group) == Ok(units[i]) {
      UnitIsRead(o, objects, multi, units[i]);
    }
  }

  lemma {:induction false} UnitsAreRead(objects: Objects, units: seq<Unit>)
    requires AllRead(objects, units)
    ensures ReadUnits(objects, GroupsOf(units)) == Ok(units)
    decreases |units|
  {
    if units != [] {
      var front, u := units[..|units| - 1], units[|units| - 1];
      UnitsAreRead(objects, front);
      ReadUnitsSnoc(objects, GroupsOf(front), front, u);
      assert front + [u] == units && GroupsOf(units) == GroupsOf(front) + [u.group];
    }
  }

  lemma ReadUnitsSnoc(objects: Objects, groups: seq<Group>, units: seq<Unit>, u: Unit)
    requires ReadUnits(objects, groups) == Ok(units) && ReadUnit(objects, u.group) == Ok(u)
    ensures ReadUnits(objects, groups + [u.group]) == Ok(units + [u])
  {
    assert (groups + [u.group])[..|groups|] == groups;
  }

  lemma UnitIsRead(o: D.Options, objects: Objects, multi: bool, u: Unit)
    requires DescribesUnit(o, objects, multi, u)
    ensures ReadUnit(objects, u.group) == Ok(u)
  {
    assert |D.PathOf(o, u.group.database, u.group.name, Structural)| > 0;
  }

  function ManifestOf(p: D.Progress, database: string, createdAt: string): Manifest {
    Manifest(database, createdAt, false, p.artifacts)
  }

  lemma DumpIsRead(o: D.Options, p: D.Progress, multi: bool, units: seq<Unit>, views: seq<ViewUnit>, database: string, createdAt: string)
    requires Describes(o, p, multi, units, views)
    ensures var m := ManifestOf(p, database, createdAt);
            && Validate(m) == None
            && ReadUnits(p.objects, GroupByCollection(m.artifacts)) == Ok(units)
            && UnitsOf(m, p.objects) == Sorted(DatabaseOrder(units), units)
            && ReadViews(p.objects, m.artifacts) == Ok(views) && ViewsOf(m, p.objects) == views
  {
    UnitsAreReadable(o, p.objects, multi, units);
    UnitsAreRead(p.objects, units);
  }

  // --- the order does not matter -----------------------------------------------------------------

  lemma {:induction false} CountOne<T>(s: seq<T>, x: T)
    requires forall i, j :: 0 <= i < j < |s| ==> s[i] != s[j]
    ensures multiset(s)[x] <= 1
    decreases |s|
  {
    if s != [] {
      var front := s[..|s| - 1];
      CountOne(front, x);
      assert s == front + [s[|s| - 1]];
      assert forall k :: 0 <= k < |front| ==> front[k] == s[k] != s[|s| - 1];
      assert s[|s| - 1] !in front;
    }
  }

  lemma CountTwo<T>(s: seq<T>, i: nat, j: nat)
    requires i < j < |s| && s[i] == s[j]
    ensures multiset(s)[s[i]] >= 2
  {
    assert s == s[..j] + s[j..];
    assert s[i] in s[..j] by { assert s[..j][i] == s[i]; }
    assert s[j] in s[j..] by { assert s[j..][0] == s[j]; }
  }

  // A permutation of distinct units: each is one of them, and no two are the same.
  lemma PermutedUnits(units: seq<Unit>, sorted: seq<Unit>)
    requires multiset(units) == multiset(sorted) && forall i, j :: 0 <= i < j < |units| ==> !SameUnit(units[i], units[j])
    ensures forall i :: 0 <= i < |sorted| ==> sorted[i] in units
    ensures forall i :: 0 <= i < |units| ==> units[i] in sorted
    ensures forall i, j :: 0 <= i < j < |sorted| ==> !SameUnit(sorted[i], sorted[j])
  {
    forall i | 0 <= i < |sorted| ensures sorted[i] in units { assert sorted[i] in multiset(sorted); }
    forall i | 0 <= i < |units| ensures units[i] in sorted { assert units[i] in multiset(units); }
    forall i, j | 0 <= i < j < |sorted| ensures !SameUnit(sorted[i], sorted[j]) {
      if sorted[i] == sorted[j] {
        CountTwo(sorted, i, j);
        CountOne(units, sorted[i]);
      } else {
        var a :| 0 <= a < |units| && units[a] == sorted[i];
        var b :| 0 <= b < |units| && units[b] == sorted[j];
        assert a < b || b < a;
      }
    }
  }

  // --- no two units or views in each other's way ---------------------------------------------------

  lemma UnitsAreApart(r: Settings, u: Unit, v: Unit)
    requires PlainUnit(u) && PlainUnit(v) && (u.group.database.Some? <==> v.group.database.Some?) && !SameUnit(u, v)
    ensures Apart(r, u, v) && Apart(r, v, u)
  {
    CollectionIdsExactly(u.group.database, u.group.name, v.group.database, v.group.name);
  }

  lemma ViewIdIsOther(u: Unit, v: ViewUnit)
    requires PlainUnit(u) && PlainView(v)
    ensures ViewUnitId(v) != UnitId(u)
  {
    ViewIdCollidesExactly(u.group.database, u.group.name, v.database, v.name);
    var d := NameOr(v.database) + "::view";
    assert d[|NameOr(v.database)|] == ':';
  }

  lemma ViewsAreDistinct(u: ViewUnit, v: ViewUnit)
    requires PlainView(u) && PlainView(v) && (u.database.Some? <==> v.database.Some?) && !SameView(u, v)
    ensures ViewUnitId(u) != ViewUnitId(v)
  {
    var f1, f2 := NameOr(u.database) + "::view::", NameOr(v.database) + "::view::";
    assert ViewUnitId(u) == f1 + u.name && ViewUnitId(v) == f2 + v.name;
    SplitAtName(f1, u.name, f2, v.name);
    if f1 == f2 { assert f1[..|f1| - 8] == NameOr(u.database) && f2[..|f2| - 8] == NameOr(v.database); }
  }

  lemma SortedIsIndependent(o: D.Options, r: Settings, objects: Objects, multi: bool, units: seq<Unit>, views: seq<ViewUnit>, sorted: seq<Unit>)
    requires Holds(o, objects, multi, units, views) && Consistent(units, views) && multiset(units) == multiset(sorted)
    ensures Independent(r, sorted, views) && DistinctViews(views)
  {
    PermutedUnits(units, sorted);
    forall i | 0 <= i < |sorted| ensures PlainUnit(sorted[i]) && (sorted[i].group.database.Some? <==> multi) {
      var k :| 0 <= k < |units| && units[k] == sorted[i];
      assert DescribesUnit(o, objects, multi, units[k]);
    }
    forall i, j | 0 <= i < |sorted| && 0 <= j < |sorted| && i != j ensures Apart(r, sorted[i], sorted[j]) {
      if i < j { UnitsAreApart(r, sorted[i], sorted[j]); } else { UnitsAreApart(r, sorted[j], sorted[i]); }
    }
    forall i | 0 <= i < |sorted| ensures NoViewIs(views, UnitId(sorted[i])) {
      forall j | 0 <= j < |views| ensures ViewUnitId(views[j]) != UnitId(sorted[i]) { ViewIdIsOther(sorted[i], views[j]); }
    }
    ViewsApart(o, objects, multi, units, views);
  }

  lemma ViewsApart(o: D.Options, objects: Objects, multi: bool, units: seq<Unit>, views: seq<ViewUnit>)
    requires Holds(o, objects, multi, units, views) && Consistent(units, views)
    ensures DistinctViews(views)
  {
    forall i, j | 0 <= i < |views| && 0 <= j < |views| && i != j ensures ViewUnitId(views[i]) != ViewUnitId(views[j]) {
      assert DescribesView(o, objects, multi, views[i]) && DescribesView(o, objects, multi, views[j]);
      if i < j { ViewsAreDistinct(views[i], views[j]); } else { ViewsAreDistinct(views[j], views[i]); }
    }
  }

  // --- everything a restore needs ---------------------------------------------------------------------

  lemma CoveredIsTargeted(r: Settings, units: seq<Unit>, sorted: seq<Unit>, v: ViewUnit)
    requires Covered(units, v) && forall i :: 0 <= i < |units| ==> units[i] in sorted
    ensures Targeted(r, sorted, v)
  {
    var database := Target(r, v.database);
    forall k | 0 <= k < |v.definition.links| ensures HasUnit(r, sorted, database, v.definition.links[k]) {
      assert UnitNamed(units, v.database, v.definition.links[k]);
      var i :| 0 <= i < |units| && units[i].group.database == v.database && units[i].group.name == v.definition.links[k];
      var j :| 0 <= j < |sorted| && sorted[j] == units[i];
      assert PlaceOf(r, sorted[j]) == Place(database, v.definition.links[k]);
    }
    if IsSearchAlias(v.definition) {
      forall k | 0 <= k < |v.definition.indexes|
        ensures HasUnitIndex(r, sorted, database, v.definition.indexes[k].0, v.definition.indexes[k].1)
      {
        OfferedIsThere(r, units, sorted, v.database, v.definition.indexes[k].0, v.definition.indexes[k].1);
      }
    }
  }

  lemma OfferedIsThere(r: Settings, units: seq<Unit>, sorted: seq<Unit>, database: Option<string>, name: string, index: string)
    requires UnitOffers(units, database, name, index) && forall i :: 0 <= i < |units| ==> units[i] in sorted
    ensures HasUnitIndex(r, sorted, Target(r, database), name, index)
  {
    var i :| 0 <= i < |units| && units[i].group.database == database && units[i].group.name == name && Offers(units[i].structure.indexes, index);
    var j :| 0 <= j < |sorted| && sorted[j] == units[i];
    assert PlaceOf(r, sorted[j]) == Place(Target(r, database), name);
    assert HasOwnIndex(sorted[j], index);
  }

  lemma UnitIsReadable(o: D.Options, objects: Objects, multi: bool, u: Unit)
    requires DescribesUnit(o, objects, multi, u)
    ensures Readable(objects, u)
  {
  }

  lemma SortedIsClosed(o: D.Options, r: Settings, objects: Objects, multi: bool, units: seq<Unit>, views: seq<ViewUnit>, sorted: seq<Unit>)
    requires Holds(o, objects, multi, units, views) && Consistent(units, views) && multiset(units) == multiset(sorted)
    ensures Closed(r, objects, sorted, views)
  {
    PermutedUnits(units, sorted);
    forall i | 0 <= i < |sorted| ensures Readable(objects, sorted[i]) {
      var k :| 0 <= k < |units| && units[k] == sorted[i];
      UnitIsReadable(o, objects, multi, units[k]);
    }
    forall j | 0 <= j < |views| ensures Targeted(r, sorted, views[j]) {
      CoveredIsTargeted(r, units, sorted, views[j]);
    }
  }

  // Main result: whatever the inventories and the filters, what the manifest lists can
  // be restored: ids and places do not collide, every structure and data object is
  // there, and every view's collections and indexes are in the dump.
  lemma DumpIsRestorable(o: D.Options, sources: seq<D.Source>, multi: bool, r: Settings, database: string, createdAt: string)
    requires WellFormedSources(sources, multi) && D.DumpAll(o, sources).Ok?
    ensures var p := D.DumpAll(o, sources).value;
            var m := ManifestOf(p, database, createdAt);
            && Validate(m) == None && IndependentDump(r, m, p.objects) && DistinctViews(ViewsOf(m, p.objects))
            && Closed(r, p.objects, UnitsOf(m, p.objects), ViewsOf(m, p.objects))
            && multiset(UnitsOf(m, p.objects)) == multiset(CatalogUnits(o, sources))
            && ViewsOf(m, p.objects) == CatalogViews(o, sources)
  {
    var p := D.DumpAll(o, sources).value;
    var units, views := CatalogUnits(o, sources), CatalogViews(o, sources);
    var sorted := Sorted(DatabaseOrder(units), units);
    DumpIsDescribed(o, sources, multi);
    DumpIsRead(o, p, multi, units, views, database, createdAt);
    Restoring.SortedIsStable(DatabaseOrder(units), units, 0);
    SortedIsIndependent(o, r, p.objects, multi, units, views, sorted);
    SortedIsClosed(o, r, p.objects, multi, units, views, sorted);
  }

  // --- dump, then restore ------------------------------------------------------------------------------------

  // A dumped collection as it should be after a restore.
  function Copy(src: D.Source, name: string, c: D.InventoryCollection): Collection {
    Collection(Structure(name, c.isEdge, c.indexes), [src.content(name)], OwnIndexes(c.indexes))
  }

  // Every kept collection of every source stands where it belongs.
  predicate Copied(o: D.Options, r: Settings, server: Server, sources: seq<D.Source>) {
    forall s, k :: 0 <= s < |sources| && 0 <= k < |sources[s].inventory.collections| ==>
      CopiedAt(o, r, server, sources[s], sources[s].inventory.collections[k])
  }

  predicate CopiedAt(o: D.Options, r: Settings, server: Server, src: D.Source, c: D.InventoryCollection) {
    Kept(o, c) ==> CollectionAt(server, Target(r, src.database), c.name.value) == Some(Copy(src, c.name.value, c))
  }

  lemma {:induction false} KeptHasUnit(o: D.Options, src: D.Source, cs: seq<D.InventoryCollection>, k: nat)
    requires k < |cs| && Kept(o, cs[k])
    ensures UnitFor(o, src.database, cs[k].name.value, cs[k]) in UnitsFrom(o, src, cs)
    decreases |cs|
  {
    if k < |cs| - 1 {
      KeptHasUnit(o, src, cs[..|cs| - 1], k);
    } else {
      assert UnitsFrom(o, src, cs)[|UnitsFrom(o, src, cs)| - 1] == UnitFor(o, src.database, cs[k].name.value, cs[k]);
    }
  }

  lemma {:induction false} SourceIsInCatalog(o: D.Options, sources: seq<D.Source>, s: nat, u: Unit)
    requires s < |sources| && u in UnitsFrom(o, sources[s], sources[s].inventory.collections)
    ensures u in CatalogUnits(o, sources)
    decreases |sources|
  {
    if s < |sources| - 1 {
      assert sources[..|sources| - 1][s] == sources[s];
      SourceIsInCatalog(o, sources[..|sources| - 1], s, u);
    }
  }

  lemma CompleteIsCopied(o: D.Options, r: Settings, server: Server, objects: Objects, sources: seq<D.Source>, units: seq<Unit>)
    requires multiset(units) == multiset(CatalogUnits(o, sources)) && SourcesDelivered(o, objects, sources)
    requires AllComplete(server, r, objects, units)
    ensures Copied(o, r, server, sources)
  {
    forall s, k | 0 <= s < |sources| && 0 <= k < |sources[s].inventory.collections|
      ensures CopiedAt(o, r, server, sources[s], sources[s].inventory.collections[k])
    {
      var c := sources[s].inventory.collections[k];
      if Kept(o, c) {
        KeptHasUnit(o, sources[s], sources[s].inventory.collections, k);
        var u := UnitFor(o, sources[s].database, c.name.value, c);
        SourceIsInCatalog(o, sources, s, u);
        assert u in multiset(units);
        assert Delivered(o, objects, sources[s], c);
        OnePart(objects, u.group.dataPaths[0], sources[s].content(c.name.value));
        var i :| 0 <= i < |units| && units[i] == u;
        assert Complete(server, r, objects, units[i]);
      }
    }
  }

  lemma OnePart(objects: Objects, path: string, body: Bytes)
    requires path in objects && objects[path] == DataObject(body)
    ensures Bodies(objects, [path]) == [body]
  {
    assert [path][..0] == [] && Bodies(objects, []) == [];
    assert [] + [body] == [body];
  }

  // Where the restore's databases come from.
  predicate HomesOf(w: World, r: Settings, o: D.Options, sources: seq<D.Source>) {
    var units := CatalogUnits(o, sources);
    var order := DatabaseOrder(units);
    Homes(w.server, r, order, Sorted(order, units), CatalogViews(o, sources))
  }

  // Main result: dump, then restore with overwriting, cut and restarted any number of
  // times. If the last run returns Ok, every dumped collection holds exactly its data
  // and its own indexes. Once the databases are there, a run fails only by a fault or
  // over the checkpoint: nothing the dump lists is ever missing.
  lemma DumpThenRestore(o: D.Options, sources: seq<D.Source>, multi: bool, r: Settings, database: string, createdAt: string,
                        w: World, plans: seq<Plan>, last: Plan)
    requires WellFormedSources(sources, multi) && D.DumpAll(o, sources).Ok? && r.overwrite && w.saved.Absent?
    ensures var p := D.DumpAll(o, sources).value;
            var m := ManifestOf(p, database, createdAt);
            var before := Runs(w, r, m, p.objects, plans);
            var end := Restore(before, r, m, p.objects, last);
            && (end.result.Ok? ==> Copied(o, r, end.world.server, sources))
            && (HomesOf(before, r, o, sources) && end.result.Err? ==> ByFaultOrCheckpoint(end.result.error))
  {
    var p := D.DumpAll(o, sources).value;
    var m := ManifestOf(p, database, createdAt);
    var before := Runs(w, r, m, p.objects, plans);
    DumpIsRestorable(o, sources, multi, r, database, createdAt);
    RunsKeepTrust(w, r, m, p.objects, plans);
    RestoreKeepsTrust(before, r, m, p.objects, last);
    DumpIsDescribed(o, sources, multi);
    if Restore(before, r, m, p.objects, last).result.Ok? {
      CompleteIsCopied(o, r, Restore(before, r, m, p.objects, last).world.server, p.objects, sources, UnitsOf(m, p.objects));
    }
    DumpIsRead(o, p, multi, CatalogUnits(o, sources), CatalogViews(o, sources), database, createdAt);
    if HomesOf(before, r, o, sources) {
      OnlyFaultsFail(before, r, Fingerprint(m), p.objects, UnitsOf(m, p.objects), ViewsOf(m, p.objects),
                     DatabaseOrder(CatalogUnits(o, sources)), last);
    }
  }

  // Without faults, the first restore of a dump succeeds if and only if every database
  // its collections and views go to is there or is created up front.
  lemma FaultFreeDumpRestoreExactly(o: D.Options, sources: seq<D.Source>, multi: bool, r: Settings, database: string, createdAt: string, w: World)
    requires WellFormedSources(sources, multi) && D.DumpAll(o, sources).Ok? && r.overwrite && w.saved.Absent?
    ensures var p := D.DumpAll(o, sources).value;
            Restore(w, r, ManifestOf(p, database, createdAt), p.objects, Plan([], [])).result.Ok? <==> HomesOf(w, r, o, sources)
  {
    var p := D.DumpAll(o, sources).value;
    var m := ManifestOf(p, database, createdAt);
    var units, views := CatalogUnits(o, sources), CatalogViews(o, sources);
    DumpIsRestorable(o, sources, multi, r, database, createdAt);
    DumpIsDescribed(o, sources, multi);
    DumpIsRead(o, p, multi, units, views, database, createdAt);
    FaultFreeExactly(w, r, Fingerprint(m), p.objects, UnitsOf(m, p.objects), ViewsOf(m, p.objects), DatabaseOrder(units));
  }

  // --- databases without collections -----------------------------------------------------------------------------

  lemma {:induction false} OrderHasUnits(units: seq<Unit>, d: Option<string>)
    ensures d in DatabaseOrder(units) <==> exists i :: 0 <= i < |units| && units[i].group.database == d
    decreases |units|
  {
    if units != [] {
      var front, u := units[..|units| - 1], units[|units| - 1];
      OrderHasUnits(front, d);
      if exists i :: 0 <= i < |units| && units[i].group.database == d {
        var i :| 0 <= i < |units| && units[i].group.database == d;
        if i < |front| { assert front[i].group.database == d; }
      }
      if exists i :: 0 <= i < |front| && front[i].group.database == d {
        var i :| 0 <= i < |front| && front[i].group.database == d;
        assert units[i].group.database == d;
      }
      if u.group.database == d { assert units[|units| - 1].group.database == d; }
    }
  }

  lemma {:induction false} NamedHas(order: seq<Option<string>>, d: string)
    ensures d in Named(order) <==> Some(d) in order
    decreases |order|
  {
    if order != [] {
      assert order == order[..|order| - 1] + [order[|order| - 1]];
      NamedHas(order[..|order| - 1], d);
    }
  }

  // A database is created up front exactly when one of its collections was dumped.
  lemma {:induction false} CreatedExactly(r: Settings, units: seq<Unit>, d: string)
    requires exists i :: 0 <= i < |units| && units[i].group.database.Some?
    ensures d in ToCreate(r, DatabaseOrder(units)) <==> exists i :: 0 <= i < |units| && units[i].group.database == Some(d)
  {
    var i :| 0 <= i < |units| && units[i].group.database.Some?;
    OrderHasUnits(units, units[i].group.database);
    NamedHas(DatabaseOrder(units), units[i].group.database.value);
    OrderHasUnits(units, Some(d));
    NamedHas(DatabaseOrder(units), d);
  }
}
