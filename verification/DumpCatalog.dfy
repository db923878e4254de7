// The catalogue of a dump: the units and views its manifest lists, and that it stays
// consistent while one database after another is written.

module DumpCatalog {
  import opened Common
  import opened DumpFormat
  import opened RestoreModel
  import opened RestoreOutcomes
  import opened DumpDescribed
  import D = Dumping

  // --- what a server's inventory is like ---------------------------------------------------

  // Names are distinct. Those of collections and views hold no colon, those of databases
  // neither colon nor slash. A search-alias lists indexes that its collections have.
  ghost predicate WellNamed(src: D.Source) {
    var cs, vs := src.inventory.collections, src.inventory.views;
    && (forall i :: 0 <= i < |cs| && cs[i].name.Some? ==> ColonFree(cs[i].name.value))
    && (forall i, j :: 0 <= i < j < |cs| && cs[i].name.Some? ==> cs[i].name != cs[j].name)
    && (forall i :: 0 <= i < |vs| && vs[i].name.Some? ==> ColonFree(vs[i].name.value))
    && (forall i, j :: 0 <= i < j < |vs| && vs[i].name.Some? ==> vs[i].name != vs[j].name)
    && (forall j :: 0 <= j < |vs| && IsSearchAlias(vs[j]) ==> IndexesExist(cs, vs[j]))
    && CleanDatabase(src.database) && ColonFree(NameOr(src.database))
  }

  ghost predicate IndexesExist(cs: seq<D.InventoryCollection>, v: View) {
    forall k :: 0 <= k < |v.indexes| ==> IndexExists(cs, v.indexes[k].0, v.indexes[k].1)
  }

  // The collection of this name, if there is one, has an index of its own of that name.
  ghost predicate IndexExists(cs: seq<D.InventoryCollection>, name: string, index: string) {
    forall i :: 0 <= i < |cs| && cs[i].name == Some(name) ==> Offers(cs[i].indexes, index)
  }

  predicate Offers(indexes: seq<Index>, index: string) {
    exists k :: 0 <= k < |OwnIndexes(indexes)| && OwnIndexes(indexes)[k].name == index
  }

  // One source without a database name, or several with distinct ones.
  ghost predicate WellFormedSources(sources: seq<D.Source>, multi: bool) {
    && (forall s :: 0 <= s < |sources| ==> WellNamed(sources[s]) && (sources[s].database.Some? <==> multi))
    && (forall s, t :: 0 <= s < t < |sources| ==> sources[s].database != sources[t].database)
  }

  // --- a consistent catalogue -------------------------------------------------------------------

  predicate SameUnit(u: Unit, v: Unit) { u.group.database == v.group.database && u.group.name == v.group.name }

  predicate SameView(u: ViewUnit, v: ViewUnit) { u.database == v.database && u.name == v.name }

  ghost predicate UnitNamed(units: seq<Unit>, database: Option<string>, name: string) {
    exists i :: 0 <= i < |units| && units[i].group.database == database && units[i].group.name == name
  }

  ghost predicate UnitOffers(units: seq<Unit>, database: Option<string>, name: string, index: string) {
    exists i :: 0 <= i < |units| && units[i].group.database == database && units[i].group.name == name && Offers(units[i].structure.indexes, index)
  }

  // All that the view names is among the units of its own database.
  ghost predicate Covered(units: seq<Unit>, v: ViewUnit) {
    && (forall k :: 0 <= k < |v.definition.links| ==> UnitNamed(units, v.database, v.definition.links[k]))
    && (IsSearchAlias(v.definition) ==>
          forall k :: 0 <= k < |v.definition.indexes| ==>
            UnitOffers(units, v.database, v.definition.indexes[k].0, v.definition.indexes[k].1))
  }

  predicate PlainUnit(u: Unit) {
    ColonFree(u.group.name) && ColonFree(NameOr(u.group.database)) && u.structure.name == u.group.name
  }

  predicate PlainView(v: ViewUnit) { ColonFree(v.name) && ColonFree(NameOr(v.database)) }

  ghost predicate Consistent(units: seq<Unit>, views: seq<ViewUnit>) {
    && (forall i :: 0 <= i < |units| ==> PlainUnit(units[i]))
    && (forall j :: 0 <= j < |views| ==> PlainView(views[j]))
    && (forall i, j :: 0 <= i < j < |units| ==> !SameUnit(units[i], units[j]))
    && (forall i, j :: 0 <= i < j < |views| ==> !SameView(views[i], views[j]))
    && (forall j :: 0 <= j < |views| ==> Covered(units, views[j]))
  }

  lemma AddUnit(units: seq<Unit>, views: seq<ViewUnit>, u: Unit)
    requires Consistent(units, views) && PlainUnit(u) && IsNew(units, u.group.database, u.group.name)
    ensures Consistent(units + [u], views)
  {
    var all := units + [u];
    forall j | 0 <= j < |views| ensures Covered(all, views[j]) {
      CoveredLater(units, u, views[j]);
    }
  }

  lemma CoveredLater(units: seq<Unit>, u: Unit, v: ViewUnit)
    requires Covered(units, v)
    ensures Covered(units + [u], v)
  {
    var all := units + [u];
    assert forall i :: 0 <= i < |units| ==> all[i] == units[i];
    forall k | 0 <= k < |v.definition.links| ensures UnitNamed(all, v.database, v.definition.links[k]) {
      assert UnitNamed(units, v.database, v.definition.links[k]);
      var i :| 0 <= i < |units| && units[i].group.database == v.database && units[i].group.name == v.definition.links[k];
      assert all[i] == units[i];
    }
    if IsSearchAlias(v.definition) {
      forall k | 0 <= k < |v.definition.indexes|
        ensures UnitOffers(all, v.database, v.definition.indexes[k].0, v.definition.indexes[k].1)
      {
        OffersLater(units, u, v.database, v.definition.indexes[k].0, v.definition.indexes[k].1);
      }
    }
  }

  lemma OffersLater(units: seq<Unit>, u: Unit, database: Option<string>, name: string, index: string)
    requires UnitOffers(units, database, name, index)
    ensures UnitOffers(units + [u], database, name, index)
  {
    var i :| 0 <= i < |units| && units[i].group.database == database && units[i].group.name == name && Offers(units[i].structure.indexes, index);
    assert (units + [u])[i] == units[i];
  }

  lemma AddView(units: seq<Unit>, views: seq<ViewUnit>, v: ViewUnit)
    requires Consistent(units, views) && PlainView(v) && IsNewView(views, v.database, v.name) && Covered(units, v)
    ensures Consistent(units, views + [v])
  {
  }

  // --- the dump's catalogue ------------------------------------------------------------------------

  predicate Kept(o: D.Options, c: D.InventoryCollection) {
    c.name.Some? && if D.IsSystem(c) then o.includeSystem else D.PassesFilters(o, c.name.value)
  }

  function UnitsFrom(o: D.Options, src: D.Source, cs: seq<D.InventoryCollection>): seq<Unit> {
    if cs == [] then []
    else
      var c := cs[|cs| - 1];
      UnitsFrom(o, src, cs[..|cs| - 1]) + if Kept(o, c) then [UnitFor(o, src.database, c.name.value, c)] else []
  }

  function ViewsFrom(src: D.Source, dumped: set<string>, vs: seq<View>): seq<ViewUnit> {
    if vs == [] then []
    else
      var v := vs[|vs| - 1];
      ViewsFrom(src, dumped, vs[..|vs| - 1])
      + if v.name.Some? && D.ViewTargets(v) <= dumped then [ViewUnit(v.name.value, src.database, v)] else []
  }

  function NamesFrom(o: D.Options, cs: seq<D.InventoryCollection>): set<string> {
    if cs == [] then {}
    else NamesFrom(o, cs[..|cs| - 1]) + if Kept(o, cs[|cs| - 1]) then {cs[|cs| - 1].name.value} else {}
  }

  function CatalogUnits(o: D.Options, sources: seq<D.Source>): seq<Unit> {
    if sources == [] then []
    else
      var src := sources[|sources| - 1];
      CatalogUnits(o, sources[..|sources| - 1]) + UnitsFrom(o, src, src.inventory.collections)
  }

  function CatalogViews(o: D.Options, sources: seq<D.Source>): seq<ViewUnit> {
    if sources == [] then []
    else
      var src := sources[|sources| - 1];
      CatalogViews(o, sources[..|sources| - 1]) + ViewsFrom(src, NamesFrom(o, src.inventory.collections), src.inventory.views)
  }

  // --- collections, one after another ------------------------------------------------------------------

  // Units so far of this database come from these collections.
  ghost predicate NamedIn(units: seq<Unit>, database: Option<string>, cs: seq<D.InventoryCollection>) {
    forall i :: 0 <= i < |units| && units[i].group.database == database ==> exists j :: 0 <= j < |cs| && cs[j].name == Some(units[i].group.name)
  }

  // The data of the kept collections is where the manifest says.
  predicate Delivered(o: D.Options, objects: Objects, src: D.Source, c: D.InventoryCollection) {
    Kept(o, c) ==>
      var path := D.PathOf(o, src.database, c.name.value, Content);
      path in objects && objects[path] == DataObject(src.content(c.name.value))
  }

  predicate AllDelivered(o: D.Options, objects: Objects, src: D.Source, cs: seq<D.InventoryCollection>) {
    forall k :: 0 <= k < |cs| ==> Delivered(o, objects, src, cs[k])
  }

  // The state after the first collections of a source.
  ghost predicate Midway(o: D.Options, src: D.Source, p: D.Progress, multi: bool, units: seq<Unit>, views: seq<ViewUnit>, cs: seq<D.InventoryCollection>) {
    && Describes(o, p, multi, units, views) && Consistent(units, views)
    && NamedIn(units, src.database, cs)
    && p.dumped == NamesFrom(o, cs)
    && AllDelivered(o, p.objects, src, cs)
  }

  lemma CollectionStep(o: D.Options, src: D.Source, p: D.Progress, multi: bool, units: seq<Unit>, views: seq<ViewUnit>, cs: seq<D.InventoryCollection>)
    requires cs != [] && cs <= src.inventory.collections && WellNamed(src) && (src.database.Some? <==> multi)
    requires Midway(o, src, p, multi, units, views, cs[..|cs| - 1])
    requires D.DumpCollection(o, src, p, cs[|cs| - 1]).Ok?
    ensures var c := cs[|cs| - 1];
            var q := D.DumpCollection(o, src, p, c).value;
            var now := units + if Kept(o, c) then [UnitFor(o, src.database, c.name.value, c)] else [];
            Midway(o, src, q, multi, now, views, cs) && Keeps(p.objects, q.objects)
  {
    var c := cs[|cs| - 1];
    if Kept(o, c) {
      KeptStep(o, src, p, multi, units, views, cs);
    } else {
      assert units + [] == units;
      SkippedStep(o, src, p, multi, units, views, cs);
    }
  }

  lemma SkippedStep(o: D.Options, src: D.Source, p: D.Progress, multi: bool, units: seq<Unit>, views: seq<ViewUnit>, cs: seq<D.InventoryCollection>)
    requires cs != [] && Midway(o, src, p, multi, units, views, cs[..|cs| - 1]) && !Kept(o, cs[|cs| - 1])
    ensures Midway(o, src, p, multi, units, views, cs)
  {
    NamedLater(units, src.database, cs);
    DeliveredSnoc(o, p.objects, p.objects, src, cs);
    assert NamesFrom(o, cs) == NamesFrom(o, cs[..|cs| - 1]);
  }

  lemma DeliveredSnoc(o: D.Options, a: Objects, b: Objects, src: D.Source, cs: seq<D.InventoryCollection>)
    requires cs != [] && AllDelivered(o, a, src, cs[..|cs| - 1]) && Keeps(a, b) && Delivered(o, b, src, cs[|cs| - 1])
    ensures AllDelivered(o, b, src, cs)
  {
    forall k | 0 <= k < |cs| ensures Delivered(o, b, src, cs[k]) {
      if k < |cs| - 1 {
        assert cs[..|cs| - 1][k] == cs[k];
        DeliveredLater(o, a, b, src, cs[k]);
      }
    }
  }

  lemma NamedLater(units: seq<Unit>, database: Option<string>, cs: seq<D.InventoryCollection>)
    requires cs != [] && NamedIn(units, database, cs[..|cs| - 1])
    ensures NamedIn(units, database, cs)
  {
    forall i | 0 <= i < |units| && units[i].group.database == database
      ensures exists j :: 0 <= j < |cs| && cs[j].name == Some(units[i].group.name)
    {
      var j :| 0 <= j < |cs| - 1 && cs[..|cs| - 1][j].name == Some(units[i].group.name);
      assert cs[j].name == Some(units[i].group.name);
    }
  }

  lemma NextIsNew(src: D.Source, units: seq<Unit>, cs: seq<D.InventoryCollection>)
    requires cs != [] && cs <= src.inventory.collections && WellNamed(src) && NamedIn(units, src.database, cs[..|cs| - 1])
    requires cs[|cs| - 1].name.Some?
    ensures IsNew(units, src.database, cs[|cs| - 1].name.value)
  {
    var name := cs[|cs| - 1].name.value;
    forall i | 0 <= i < |units| ensures !(units[i].group.database == src.database && units[i].group.name == name) {
      if units[i].group.database == src.database {
        var j :| 0 <= j < |cs| - 1 && cs[..|cs| - 1][j].name == Some(units[i].group.name);
        assert cs[j] == src.inventory.collections[j] && cs[|cs| - 1] == src.inventory.collections[|cs| - 1];
      }
    }
  }

  lemma KeptStep(o: D.Options, src: D.Source, p: D.Progress, multi: bool, units: seq<Unit>, views: seq<ViewUnit>, cs: seq<D.InventoryCollection>)
    requires cs != [] && cs <= src.inventory.collections && WellNamed(src) && (src.database.Some? <==> multi)
    requires Midway(o, src, p, multi, units, views, cs[..|cs| - 1]) && Kept(o, cs[|cs| - 1])
    ensures var c := cs[|cs| - 1];
            var q := D.WriteCollection(o, src, p, c.name.value, c);
            Midway(o, src, q, multi, units + [UnitFor(o, src.database, c.name.value, c)], views, cs) && Keeps(p.objects, q.objects)
  {
    var c := cs[|cs| - 1];
    var name := c.name.value;
    var q := D.WriteCollection(o, src, p, name, c);
    var u := UnitFor(o, src.database, name, c);
    NextIsNew(src, units, cs);
    CollectionIsDescribed(o, src, p, multi, units, views, name, c);
    UnitIsPlain(o, src, cs);
    AddUnit(units, views, u);
    NamedLater(units, src.database, cs);
    NewIsNamed(units, u, src.database, cs);
    WrittenIsDelivered(o, src, p, c);
    DeliveredSnoc(o, p.objects, q.objects, src, cs);
  }

  lemma UnitIsPlain(o: D.Options, src: D.Source, cs: seq<D.InventoryCollection>)
    requires cs != [] && cs <= src.inventory.collections && WellNamed(src) && cs[|cs| - 1].name.Some?
    ensures PlainUnit(UnitFor(o, src.database, cs[|cs| - 1].name.value, cs[|cs| - 1]))
  {
    assert cs[|cs| - 1] == src.inventory.collections[|cs| - 1];
  }

  lemma WrittenIsDelivered(o: D.Options, src: D.Source, p: D.Progress, c: D.InventoryCollection)
    requires c.name.Some?
    ensures Delivered(o, D.WriteCollection(o, src, p, c.name.value, c).objects, src, c)
  {
  }

  lemma NewIsNamed(units: seq<Unit>, u: Unit, database: Option<string>, cs: seq<D.InventoryCollection>)
    requires cs != [] && NamedIn(units, database, cs) && cs[|cs| - 1].name == Some(u.group.name)
    ensures NamedIn(units + [u], database, cs)
  {
    var all := units + [u];
    forall i | 0 <= i < |all| && all[i].group.database == database
      ensures exists j :: 0 <= j < |cs| && cs[j].name == Some(all[i].group.name)
    {
      if i < |units| {
        assert all[i] == units[i];
      } else {
        assert cs[|cs| - 1].name == Some(all[i].group.name);
      }
    }
  }

  lemma DeliveredLater(o: D.Options, a: Objects, b: Objects, src: D.Source, c: D.InventoryCollection)
    requires Delivered(o, a, src, c) && Keeps(a, b)
    ensures Delivered(o, b, src, c)
  {
  }

  lemma {:induction false} CollectionsDescribed(o: D.Options, src: D.Source, p: D.Progress, multi: bool, units: seq<Unit>, views: seq<ViewUnit>, cs: seq<D.InventoryCollection>)
    requires cs <= src.inventory.collections && WellNamed(src) && (src.database.Some? <==> multi)
    requires Midway(o, src, p, multi, units, views, []) && D.DumpCollections(o, src, p, cs).Ok?
    ensures var q := D.DumpCollections(o, src, p, cs).value;
            Midway(o, src, q, multi, units + UnitsFrom(o, src, cs), views, cs) && Keeps(p.objects, q.objects)
    decreases |cs|
  {
    if cs == [] {
      assert units + [] == units;
    } else {
      var front := cs[..|cs| - 1];
      CollectionsDescribed(o, src, p, multi, units, views, front);
      var before := D.DumpCollections(o, src, p, front).value;
      CollectionStep(o, src, before, multi, units + UnitsFrom(o, src, front), views, cs);
      UnitsSnoc(o, src, units, cs);
      KeepsTrans(p.objects, before.objects, D.DumpCollections(o, src, p, cs).value.objects);
    }
  }

  lemma UnitsSnoc(o: D.Options, src: D.Source, units: seq<Unit>, cs: seq<D.InventoryCollection>)
    requires cs != []
    ensures var c := cs[|cs| - 1];
            units + UnitsFrom(o, src, cs[..|cs| - 1]) + (if Kept(o, c) then [UnitFor(o, src.database, c.name.value, c)] else [])
            == units + UnitsFrom(o, src, cs)
  {
  }

  lemma KeepsTrans(a: Objects, b: Objects, c: Objects)
    requires Keeps(a, b) && Keeps(b, c)
    ensures Keeps(a, c)
  {
  }

  // --- views, one after another --------------------------------------------------------------------------

  // A name among the dumped ones belongs to a unit of this database, with the indexes
  // of its inventory entry.
  lemma {:induction false} NameHasUnit(o: D.Options, src: D.Source, cs: seq<D.InventoryCollection>, name: string) returns (i: nat, k: nat)
    requires name in NamesFrom(o, cs)
    ensures i < |UnitsFrom(o, src, cs)| && k < |cs| && cs[k].name == Some(name)
    ensures UnitsFrom(o, src, cs)[i] == UnitFor(o, src.database, name, cs[k])
    decreases |cs|
  {
    var c := cs[|cs| - 1];
    if Kept(o, c) && c.name.value == name {
      i, k := |UnitsFrom(o, src, cs)| - 1, |cs| - 1;
    } else {
      i, k := NameHasUnit(o, src, cs[..|cs| - 1], name);
    }
  }

  // The units end in those of this source.
  ghost predicate Includes(units: seq<Unit>, part: seq<Unit>) { exists before :: units == before + part }

  lemma IncludesAt(units: seq<Unit>, part: seq<Unit>, i: nat) returns (j: nat)
    requires Includes(units, part) && i < |part|
    ensures j < |units| && units[j] == part[i]
  {
    var before :| units == before + part;
    j := |before| + i;
  }

  lemma TargetIsNamed(o: D.Options, src: D.Source, units: seq<Unit>, cs: seq<D.InventoryCollection>, name: string)
    requires Includes(units, UnitsFrom(o, src, cs)) && name in NamesFrom(o, cs)
    ensures UnitNamed(units, src.database, name)
  {
    var i, k := NameHasUnit(o, src, cs, name);
    var j := IncludesAt(units, UnitsFrom(o, src, cs), i);
    assert units[j].group.name == name;
  }

  lemma IndexIsOffered(o: D.Options, src: D.Source, units: seq<Unit>, cs: seq<D.InventoryCollection>, name: string, index: string)
    requires Includes(units, UnitsFrom(o, src, cs)) && name in NamesFrom(o, cs) && IndexExists(cs, name, index)
    ensures UnitOffers(units, src.database, name, index)
  {
    var i, k := NameHasUnit(o, src, cs, name);
    var j := IncludesAt(units, UnitsFrom(o, src, cs), i);
    assert Offers(cs[k].indexes, index);
    assert units[j].group.name == name && units[j].structure.indexes == cs[k].indexes;
  }

  lemma KeptViewIsCovered(o: D.Options, src: D.Source, units: seq<Unit>, v: View, name: string)
    requires Includes(units, UnitsFrom(o, src, src.inventory.collections))
    requires D.ViewTargets(v) <= NamesFrom(o, src.inventory.collections)
    requires IsSearchAlias(v) ==> IndexesExist(src.inventory.collections, v)
    ensures Covered(units, ViewUnit(name, src.database, v))
  {
    var cs := src.inventory.collections;
    forall k | 0 <= k < |v.links| ensures UnitNamed(units, src.database, v.links[k]) {
      assert v.links[k] in D.ViewTargets(v);
      TargetIsNamed(o, src, units, cs, v.links[k]);
    }
    if IsSearchAlias(v) {
      forall k | 0 <= k < |v.indexes| ensures UnitOffers(units, src.database, v.indexes[k].0, v.indexes[k].1) {
        assert v.indexes[k].0 in D.ViewTargets(v);
        IndexIsOffered(o, src, units, cs, v.indexes[k].0, v.indexes[k].1);
      }
    }
  }

  // Views so far of this database come from these definitions.
  ghost predicate ViewNamedIn(views: seq<ViewUnit>, database: Option<string>, vs: seq<View>) {
    forall i :: 0 <= i < |views| && views[i].database == database ==> exists j :: 0 <= j < |vs| && vs[j].name == Some(views[i].name)
  }

  // The state after the collections and the first views of a source.
  ghost predicate Late(o: D.Options, src: D.Source, p: D.Progress, multi: bool, units: seq<Unit>, views: seq<ViewUnit>, vs: seq<View>) {
    && Midway(o, src, p, multi, units, views, src.inventory.collections)
    && ViewNamedIn(views, src.database, vs)
    && Includes(units, UnitsFrom(o, src, src.inventory.collections))
  }

  lemma ViewNamedLater(views: seq<ViewUnit>, database: Option<string>, vs: seq<View>)
    requires vs != [] && ViewNamedIn(views, database, vs[..|vs| - 1])
    ensures ViewNamedIn(views, database, vs)
  {
    forall i | 0 <= i < |views| && views[i].database == database
      ensures exists j :: 0 <= j < |vs| && vs[j].name == Some(views[i].name)
    {
      var j :| 0 <= j < |vs| - 1 && vs[..|vs| - 1][j].name == Some(views[i].name);
      assert vs[j].name == Some(views[i].name);
    }
  }

  lemma NewViewIsNamed(views: seq<ViewUnit>, v: ViewUnit, database: Option<string>, vs: seq<View>)
    requires vs != [] && ViewNamedIn(views, database, vs) && vs[|vs| - 1].name == Some(v.name)
    ensures ViewNamedIn(views + [v], database, vs)
  {
    var all := views + [v];
    forall i | 0 <= i < |all| && all[i].database == database
      ensures exists j :: 0 <= j < |vs| && vs[j].name == Some(all[i].name)
    {
      if i < |views| {
        assert all[i] == views[i];
      } else {
        assert vs[|vs| - 1].name == Some(all[i].name);
      }
    }
  }

  lemma NextViewIsNew(src: D.Source, views: seq<ViewUnit>, vs: seq<View>)
    requires vs != [] && vs <= src.inventory.views && WellNamed(src) && ViewNamedIn(views, src.database, vs[..|vs| - 1])
    requires vs[|vs| - 1].name.Some?
    ensures IsNewView(views, src.database, vs[|vs| - 1].name.value)
  {
    var name := vs[|vs| - 1].name.value;
    forall i | 0 <= i < |views| ensures !(views[i].database == src.database && views[i].name == name) {
      if views[i].database == src.database {
        var j :| 0 <= j < |vs| - 1 && vs[..|vs| - 1][j].name == Some(views[i].name);
        assert vs[j] == src.inventory.views[j] && vs[|vs| - 1] == src.inventory.views[|vs| - 1];
      }
    }
  }

  lemma KeptViewStep(o: D.Options, src: D.Source, p: D.Progress, multi: bool, units: seq<Unit>, views: seq<ViewUnit>, vs: seq<View>)
    requires vs != [] && vs <= src.inventory.views && WellNamed(src) && (src.database.Some? <==> multi)
    requires Late(o, src, p, multi, units, views, vs[..|vs| - 1])
    requires vs[|vs| - 1].name.Some? && D.ViewTargets(vs[|vs| - 1]) <= p.dumped
    ensures var v := vs[|vs| - 1];
            var q := D.WriteView(o, src, p, v.name.value, v);
            Late(o, src, q, multi, units, views + [ViewUnit(v.name.value, src.database, v)], vs) && Keeps(p.objects, q.objects)
  {
    var v := vs[|vs| - 1];
    var q := D.WriteView(o, src, p, v.name.value, v);
    var unit := ViewUnit(v.name.value, src.database, v);
    assert v == src.inventory.views[|vs| - 1];
    NextViewIsNew(src, views, vs);
    ViewIsDescribed(o, src, p, multi, units, views, v.name.value, v);
    KeptViewIsCovered(o, src, units, v, v.name.value);
    AddView(units, views, unit);
    ViewNamedLater(views, src.database, vs);
    NewViewIsNamed(views, unit, src.database, vs);
    AllDeliveredLater(o, p.objects, q.objects, src, src.inventory.collections);
  }

  lemma AllDeliveredLater(o: D.Options, a: Objects, b: Objects, src: D.Source, cs: seq<D.InventoryCollection>)
    requires AllDelivered(o, a, src, cs) && Keeps(a, b)
    ensures AllDelivered(o, b, src, cs)
  {
    forall k | 0 <= k < |cs| ensures Delivered(o, b, src, cs[k]) { DeliveredLater(o, a, b, src, cs[k]); }
  }

  lemma ViewStep(o: D.Options, src: D.Source, p: D.Progress, multi: bool, units: seq<Unit>, views: seq<ViewUnit>, vs: seq<View>)
    requires vs != [] && vs <= src.inventory.views && WellNamed(src) && (src.database.Some? <==> multi)
    requires Late(o, src, p, multi, units, views, vs[..|vs| - 1]) && D.DumpView(o, src, p, vs[|vs| - 1]).Ok?
    ensures var v := vs[|vs| - 1];
            var q := D.DumpView(o, src, p, v).value;
            var now := views + if D.ViewTargets(v) <= p.dumped then [ViewUnit(v.name.value, src.database, v)] else [];
            Late(o, src, q, multi, units, now, vs) && Keeps(p.objects, q.objects) && q.dumped == p.dumped
  {
    if D.ViewTargets(vs[|vs| - 1]) <= p.dumped {
      KeptViewStep(o, src, p, multi, units, views, vs);
    } else {
      assert views + [] == views;
      ViewNamedLater(views, src.database, vs);
    }
  }

  lemma {:induction false} ViewsDescribed(o: D.Options, src: D.Source, p: D.Progress, multi: bool, units: seq<Unit>, views: seq<ViewUnit>, vs: seq<View>)
    requires vs <= src.inventory.views && WellNamed(src) && (src.database.Some? <==> multi)
    requires Late(o, src, p, multi, units, views, []) && D.DumpViews(o, src, p, vs).Ok?
    ensures var q := D.DumpViews(o, src, p, vs).value;
            Late(o, src, q, multi, units, views + ViewsFrom(src, p.dumped, vs), vs) && Keeps(p.objects, q.objects) && q.dumped == p.dumped
    decreases |vs|
  {
    if vs == [] {
      assert views + [] == views;
    } else {
      var front := vs[..|vs| - 1];
      ViewsDescribed(o, src, p, multi, units, views, front);
      var before := D.DumpViews(o, src, p, front).value;
      ViewStep(o, src, before, multi, units, views + ViewsFrom(src, p.dumped, front), vs);
      ViewsSnoc(src, p.dumped, views, vs);
      KeepsTrans(p.objects, before.objects, D.DumpViews(o, src, p, vs).value.objects);
    }
  }

  lemma ViewsSnoc(src: D.Source, dumped: set<string>, views: seq<ViewUnit>, vs: seq<View>)
    requires vs != [] && vs[|vs| - 1].name.Some?
    ensures var v := vs[|vs| - 1];
            views + ViewsFrom(src, dumped, vs[..|vs| - 1]) + (if D.ViewTargets(v) <= dumped then [ViewUnit(v.name.value, src.database, v)] else [])
            == views + ViewsFrom(src, dumped, vs)
  {
  }

  // --- databases, one after another --------------------------------------------------------------------------

  // None of these belongs to the database.
  predicate Elsewhere(units: seq<Unit>, views: seq<ViewUnit>, database: Option<string>) {
    && (forall i :: 0 <= i < |units| ==> units[i].group.database != database)
    && (forall j :: 0 <= j < |views| ==> views[j].database != database)
  }

  lemma DatabaseDescribed(o: D.Options, src: D.Source, p: D.Progress, multi: bool, units: seq<Unit>, views: seq<ViewUnit>)
    requires WellNamed(src) && (src.database.Some? <==> multi) && D.DumpDatabase(o, src, p).Ok?
    requires Describes(o, p, multi, units, views) && Consistent(units, views) && Elsewhere(units, views, src.database)
    ensures var q := D.DumpDatabase(o, src, p).value;
            var cs := src.inventory.collections;
            var units1 := units + UnitsFrom(o, src, cs);
            var views1 := views + ViewsFrom(src, NamesFrom(o, cs), src.inventory.views);
            && Describes(o, q, multi, units1, views1) && Consistent(units1, views1)
            && AllDelivered(o, q.objects, src, cs) && Keeps(p.objects, q.objects)
  {
    var cs := src.inventory.collections;
    var start := p.(dumped := {});
    assert Midway(o, src, start, multi, units, views, []);
    CollectionsDescribed(o, src, start, multi, units, views, cs);
    var mid := D.DumpCollections(o, src, start, cs).value;
    var units1 := units + UnitsFrom(o, src, cs);
    assert Includes(units1, UnitsFrom(o, src, cs));
    assert Late(o, src, mid, multi, units1, views, []);
    ViewsDescribed(o, src, mid, multi, units1, views, src.inventory.views);
    KeepsTrans(p.objects, mid.objects, D.DumpViews(o, src, mid, src.inventory.views).value.objects);
  }
}
