// What a manifest says, step by step as the dump writes it: each collection one group
// with its structure and data objects, each view one definition, nothing overwritten.

module DumpDescribed {
  import opened Common
  import opened DumpFormat
  import opened RestoreModel
  import D = Dumping

  // --- paths ----------------------------------------------------------------------------

  predicate SlashFree(s: string) { '/' !in s }

  function FirstSlash(s: string): (n: nat)
    ensures n <= |s|
  {
    if s == [] || s[0] == '/' then 0 else 1 + FirstSlash(s[1..])
  }

  lemma {:induction false} FirstSlashReadsBack(front: string, k: string)
    requires SlashFree(front) && k != [] && k[0] == '/'
    ensures FirstSlash(front + k) == |front|
    decreases |front|
  {
    if front == [] {
      assert front + k == k;
    } else {
      assert (front + k)[1..] == front[1..] + k;
      FirstSlashReadsBack(front[1..], k);
    }
  }

  lemma SlashSplits(a: string, x: string, b: string, y: string)
    requires SlashFree(a) && SlashFree(b) && a + ("/" + x) == b + ("/" + y)
    ensures a == b && x == y
  {
    FirstSlashReadsBack(a, "/" + x);
    FirstSlashReadsBack(b, "/" + y);
    assert (a + ("/" + x))[..|a|] == a && (b + ("/" + y))[..|b|] == b;
    assert (a + ("/" + x))[|a| + 1..] == x && (b + ("/" + y))[|b| + 1..] == y;
  }

  // Kinds of objects end differently, whatever the name in front.
  lemma SuffixesDiffer(o: D.Options, n1: string, k1: ArtifactKind, n2: string, k2: ArtifactKind)
    requires !k1.Meta? && !k2.Meta? && n1 + D.Suffix(o, k1) == n2 + D.Suffix(o, k2)
    ensures k1 == k2 && n1 == n2
  {
    var s1, s2 := n1 + D.Suffix(o, k1), n2 + D.Suffix(o, k2);
    assert Ending(D.Suffix(o, k1), s1) && Ending(D.Suffix(o, k2), s2);
    assert s1[..|s1| - |D.Suffix(o, k1)|] == n1 && s2[..|s2| - |D.Suffix(o, k2)|] == n2;
  }

  // The last and the sixth character from the end are those of the suffix.
  predicate Ending(suffix: string, s: string) {
    |suffix| >= 6 && |s| >= |suffix| && s[|s| - 1] == suffix[|suffix| - 1] && s[|s| - 6] == suffix[|suffix| - 6]
  }

  predicate CleanDatabase(d: Option<string>) { d.Some? ==> SlashFree(d.value) }

  // Different collections, views and kinds are written to different objects.
  lemma PathsDiffer(o: D.Options, d1: Option<string>, n1: string, k1: ArtifactKind, d2: Option<string>, n2: string, k2: ArtifactKind)
    requires CleanDatabase(d1) && CleanDatabase(d2) && (d1.Some? <==> d2.Some?) && !k1.Meta? && !k2.Meta?
    ensures D.PathOf(o, d1, n1, k1) == D.PathOf(o, d2, n2, k2) <==> d1 == d2 && n1 == n2 && k1 == k2
  {
    if D.PathOf(o, d1, n1, k1) == D.PathOf(o, d2, n2, k2) {
      var x, y := n1 + D.Suffix(o, k1), n2 + D.Suffix(o, k2);
      if d1.Some? {
        var p := "databases/";
        assert D.PathOf(o, d1, n1, k1)[|p|..] == d1.value + ("/" + x) && D.PathOf(o, d2, n2, k2)[|p|..] == d2.value + ("/" + y);
        SlashSplits(d1.value, x, d2.value, y);
      } else {
        assert D.PathOf(o, d1, n1, k1) == x && D.PathOf(o, d2, n2, k2) == y;
      }
      SuffixesDiffer(o, n1, k1, n2, k2);
    }
  }

  // --- what the manifest describes -----------------------------------------------------------

  function GroupFor(o: D.Options, database: Option<string>, name: string): Group {
    Group(name, database, D.PathOf(o, database, name, Structural), [D.PathOf(o, database, name, Content)])
  }

  function UnitFor(o: D.Options, database: Option<string>, name: string, c: D.InventoryCollection): Unit {
    Unit(GroupFor(o, database, name), Structure(name, c.isEdge, c.indexes))
  }

  function GroupsOf(units: seq<Unit>): seq<Group> {
    if units == [] then [] else GroupsOf(units[..|units| - 1]) + [units[|units| - 1].group]
  }

  predicate DescribesUnit(o: D.Options, objects: Objects, multi: bool, u: Unit) {
    var g := u.group;
    && g == GroupFor(o, g.database, g.name) && u.structure.name == g.name
    && CleanDatabase(g.database) && (g.database.Some? <==> multi)
    && g.structurePath in objects && objects[g.structurePath] == StructureObject(u.structure)
    && g.dataPaths[0] in objects && objects[g.dataPaths[0]].DataObject?
  }

  predicate DescribesView(o: D.Options, objects: Objects, multi: bool, v: ViewUnit) {
    && CleanDatabase(v.database) && (v.database.Some? <==> multi)
    && D.PathOf(o, v.database, v.name, ViewDefinition) in objects
  }

  predicate NamedBy(o: D.Options, units: seq<Unit>, views: seq<ViewUnit>, path: string) {
    || (exists i :: 0 <= i < |units| && (path == units[i].group.structurePath || path in units[i].group.dataPaths))
    || (exists j :: 0 <= j < |views| && path == D.PathOf(o, views[j].database, views[j].name, ViewDefinition))
  }

  // The dump so far describes exactly these units and views, and nothing else is stored.
  ghost predicate Describes(o: D.Options, p: D.Progress, multi: bool, units: seq<Unit>, views: seq<ViewUnit>) {
    && Lists(p, units, views)
    && Holds(o, p.objects, multi, units, views)
    && OnlyNamed(o, p.objects, units, views)
  }

  // The artifacts list these units and views.
  predicate Lists(p: D.Progress, units: seq<Unit>, views: seq<ViewUnit>) {
    && GroupByCollection(p.artifacts) == GroupsOf(units)
    && ReadViews(p.objects, p.artifacts) == Ok(views)
    && FirstBad(p.artifacts) == None
  }

  // The objects are there.
  predicate Holds(o: D.Options, objects: Objects, multi: bool, units: seq<Unit>, views: seq<ViewUnit>) {
    && (forall i :: 0 <= i < |units| ==> DescribesUnit(o, objects, multi, units[i]))
    && (forall j :: 0 <= j < |views| ==> DescribesView(o, objects, multi, views[j]))
  }

  // And no others.
  ghost predicate OnlyNamed(o: D.Options, objects: Objects, units: seq<Unit>, views: seq<ViewUnit>) {
    forall path :: path in objects ==> NamedBy(o, units, views, path)
  }

  predicate IsNew(units: seq<Unit>, database: Option<string>, name: string) {
    forall i :: 0 <= i < |units| ==> !(units[i].group.database == database && units[i].group.name == name)
  }

  predicate IsNewView(views: seq<ViewUnit>, database: Option<string>, name: string) {
    forall j :: 0 <= j < |views| ==> !(views[j].database == database && views[j].name == name)
  }

  // Nothing is stored yet where a new collection or view goes.
  lemma NewPathIsFree(o: D.Options, p: D.Progress, multi: bool, units: seq<Unit>, views: seq<ViewUnit>,
                      database: Option<string>, name: string, kind: ArtifactKind)
    requires Describes(o, p, multi, units, views) && CleanDatabase(database) && (database.Some? <==> multi)
    requires kind.Structural? || kind.Content? ==> IsNew(units, database, name)
    requires kind.ViewDefinition? ==> IsNewView(views, database, name)
    requires !kind.Meta?
    ensures D.PathOf(o, database, name, kind) !in p.objects
  {
    var path := D.PathOf(o, database, name, kind);
    if path in p.objects {
      assert NamedBy(o, units, views, path);
      NoUnitPath(o, p.objects, multi, units, database, name, kind);
      NoViewPath(o, p.objects, multi, views, database, name, kind);
    }
  }

  lemma NoUnitPath(o: D.Options, objects: Objects, multi: bool, units: seq<Unit>, database: Option<string>, name: string, kind: ArtifactKind)
    requires forall i :: 0 <= i < |units| ==> DescribesUnit(o, objects, multi, units[i])
    requires CleanDatabase(database) && (database.Some? <==> multi) && !kind.Meta?
    requires kind.Structural? || kind.Content? ==> IsNew(units, database, name)
    ensures var path := D.PathOf(o, database, name, kind);
            forall i :: 0 <= i < |units| ==> path != units[i].group.structurePath && path !in units[i].group.dataPaths
  {
    var path := D.PathOf(o, database, name, kind);
    forall i | 0 <= i < |units| ensures path != units[i].group.structurePath && path !in units[i].group.dataPaths {
      var g := units[i].group;
      assert DescribesUnit(o, objects, multi, units[i]);
      PathsDiffer(o, database, name, kind, g.database, g.name, Structural);
      PathsDiffer(o, database, name, kind, g.database, g.name, Content);
    }
  }

  lemma NoViewPath(o: D.Options, objects: Objects, multi: bool, views: seq<ViewUnit>, database: Option<string>, name: string, kind: ArtifactKind)
    requires forall j :: 0 <= j < |views| ==> DescribesView(o, objects, multi, views[j])
    requires CleanDatabase(database) && (database.Some? <==> multi) && !kind.Meta?
    requires kind.ViewDefinition? ==> IsNewView(views, database, name)
    ensures forall j :: 0 <= j < |views| ==> D.PathOf(o, database, name, kind) != D.PathOf(o, views[j].database, views[j].name, ViewDefinition)
  {
    forall j | 0 <= j < |views|
      ensures D.PathOf(o, database, name, kind) != D.PathOf(o, views[j].database, views[j].name, ViewDefinition)
    {
      assert DescribesView(o, objects, multi, views[j]);
      PathsDiffer(o, database, name, kind, views[j].database, views[j].name, ViewDefinition);
    }
  }

  // --- writing a collection -----------------------------------------------------------------------

  lemma {:induction false} GroupIndexMisses(units: seq<Unit>, groups: seq<Group>, database: Option<string>, name: string)
    requires groups == GroupsOf(units) && IsNew(units, database, name)
    ensures GroupIndex(groups, name, database) == |groups|
    decreases |units|
  {
    GroupsAreUnits(units);
    assert forall j :: 0 <= j < |groups| ==> groups[j] == units[j].group;
  }

  lemma {:induction false} GroupsAreUnits(units: seq<Unit>)
    ensures |GroupsOf(units)| == |units| && forall i :: 0 <= i < |units| ==> GroupsOf(units)[i] == units[i].group
    decreases |units|
  {
    if units != [] { GroupsAreUnits(units[..|units| - 1]); }
  }

  // The structure artifact starts a group, the data artifact joins it.
  lemma CollectionAddsGroup(o: D.Options, artifacts: seq<Artifact>, units: seq<Unit>, database: Option<string>, name: string)
    requires GroupByCollection(artifacts) == GroupsOf(units) && IsNew(units, database, name)
    ensures var s := D.CollectionArtifact(o, database, name, Structural);
            var d := D.CollectionArtifact(o, database, name, Content);
            GroupByCollection(artifacts + [s] + [d]) == GroupsOf(units) + [GroupFor(o, database, name)]
  {
    var s, d := D.CollectionArtifact(o, database, name, Structural), D.CollectionArtifact(o, database, name, Content);
    var groups := GroupsOf(units);
    GroupIndexMisses(units, groups, database, name);
    assert (artifacts + [s])[..|artifacts|] == artifacts && (artifacts + [s] + [d])[..|artifacts| + 1] == artifacts + [s];
    var g := Group(name, database, s.path, []);
    assert GroupByCollection(artifacts + [s]) == groups + [g];
    SecondArtifactJoins(groups, g);
    assert [] + [d.path] == [d.path];
  }

  lemma SecondArtifactJoins(groups: seq<Group>, g: Group)
    requires GroupIndex(groups, g.name, g.database) == |groups|
    ensures GroupIndex(groups + [g], g.name, g.database) == |groups|
  {
    assert (groups + [g])[|groups|] == g;
    assert forall j :: 0 <= j < |groups| ==> (groups + [g])[j] == groups[j];
  }

  // Objects read before are read the same after more are written.
  ghost predicate Keeps(a: Objects, b: Objects) { forall path :: path in a ==> path in b && b[path] == a[path] }

  lemma {:induction false} ViewsReadSame(a: Objects, b: Objects, artifacts: seq<Artifact>)
    requires Keeps(a, b) && ReadViews(a, artifacts).Ok?
    ensures ReadViews(b, artifacts) == ReadViews(a, artifacts)
    decreases |artifacts|
  {
    if artifacts != [] { ViewsReadSame(a, b, artifacts[..|artifacts| - 1]); }
  }

  lemma CollectionArtifactsAreNoViews(o: D.Options, objects: Objects, artifacts: seq<Artifact>, database: Option<string>, name: string)
    ensures var s := D.CollectionArtifact(o, database, name, Structural);
            var d := D.CollectionArtifact(o, database, name, Content);
            && ReadViews(objects, artifacts + [s] + [d]) == ReadViews(objects, artifacts)
            && FirstBad(artifacts + [s] + [d]) == FirstBad(artifacts)
  {
    var s, d := D.CollectionArtifact(o, database, name, Structural), D.CollectionArtifact(o, database, name, Content);
    assert (artifacts + [s])[..|artifacts|] == artifacts && (artifacts + [s] + [d])[..|artifacts| + 1] == artifacts + [s];
  }

  lemma DescribedLater(o: D.Options, a: Objects, b: Objects, multi: bool, units: seq<Unit>, views: seq<ViewUnit>)
    requires Keeps(a, b) && Holds(o, a, multi, units, views)
    ensures Holds(o, b, multi, units, views)
  {
    forall i | 0 <= i < |units| ensures DescribesUnit(o, b, multi, units[i]) { assert DescribesUnit(o, a, multi, units[i]); }
    forall j | 0 <= j < |views| ensures DescribesView(o, b, multi, views[j]) { assert DescribesView(o, a, multi, views[j]); }
  }

  lemma CollectionIsDescribed(o: D.Options, src: D.Source, p: D.Progress, multi: bool, units: seq<Unit>, views: seq<ViewUnit>,
                              name: string, c: D.InventoryCollection)
    requires Describes(o, p, multi, units, views) && IsNew(units, src.database, name)
    requires CleanDatabase(src.database) && (src.database.Some? <==> multi)
    ensures Describes(o, D.WriteCollection(o, src, p, name, c), multi, units + [UnitFor(o, src.database, name, c)], views)
    ensures Keeps(p.objects, D.WriteCollection(o, src, p, name, c).objects)
  {
    var q := D.WriteCollection(o, src, p, name, c);
    NewPathIsFree(o, p, multi, units, views, src.database, name, Structural);
    NewPathIsFree(o, p, multi, units, views, src.database, name, Content);
    PathsDiffer(o, src.database, name, Structural, src.database, name, Content);
    CollectionIsListed(o, src, p, units, views, name, c);
    DescribedLater(o, p.objects, q.objects, multi, units, views);
    CollectionIsHeld(o, src, p, multi, units, views, name, c);
    PathsStayNamed(o, units, UnitFor(o, src.database, name, c), views, p.objects);
    CollectionIsNamed(o, src, p, units, views, name, c);
  }

  lemma CollectionIsListed(o: D.Options, src: D.Source, p: D.Progress, units: seq<Unit>, views: seq<ViewUnit>, name: string, c: D.InventoryCollection)
    requires Lists(p, units, views) && IsNew(units, src.database, name)
    requires Keeps(p.objects, D.WriteCollection(o, src, p, name, c).objects)
    ensures Lists(D.WriteCollection(o, src, p, name, c), units + [UnitFor(o, src.database, name, c)], views)
  {
    var q := D.WriteCollection(o, src, p, name, c);
    CollectionAddsGroup(o, p.artifacts, units, src.database, name);
    assert (units + [UnitFor(o, src.database, name, c)])[..|units|] == units;
    CollectionArtifactsAreNoViews(o, q.objects, p.artifacts, src.database, name);
    ViewsReadSame(p.objects, q.objects, p.artifacts);
  }

  lemma CollectionIsHeld(o: D.Options, src: D.Source, p: D.Progress, multi: bool, units: seq<Unit>, views: seq<ViewUnit>, name: string, c: D.InventoryCollection)
    requires Holds(o, D.WriteCollection(o, src, p, name, c).objects, multi, units, views)
    requires CleanDatabase(src.database) && (src.database.Some? <==> multi)
    requires D.PathOf(o, src.database, name, Structural) != D.PathOf(o, src.database, name, Content)
    ensures Holds(o, D.WriteCollection(o, src, p, name, c).objects, multi, units + [UnitFor(o, src.database, name, c)], views)
  {
    assert DescribesUnit(o, D.WriteCollection(o, src, p, name, c).objects, multi, UnitFor(o, src.database, name, c));
  }

  lemma CollectionIsNamed(o: D.Options, src: D.Source, p: D.Progress, units: seq<Unit>, views: seq<ViewUnit>, name: string, c: D.InventoryCollection)
    requires OnlyNamed(o, p.objects, units + [UnitFor(o, src.database, name, c)], views)
    ensures OnlyNamed(o, D.WriteCollection(o, src, p, name, c).objects, units + [UnitFor(o, src.database, name, c)], views)
  {
    var u := UnitFor(o, src.database, name, c);
    assert (units + [u])[|units|] == u && u.group.dataPaths[0] in u.group.dataPaths;
  }

  lemma PathsStayNamed(o: D.Options, units: seq<Unit>, u: Unit, views: seq<ViewUnit>, objects: Objects)
    requires OnlyNamed(o, objects, units, views)
    ensures OnlyNamed(o, objects, units + [u], views)
  {
    var all := units + [u];
    forall path | path in objects ensures NamedBy(o, all, views, path) {
      assert NamedBy(o, units, views, path);
      if i :| 0 <= i < |units| && (path == units[i].group.structurePath || path in units[i].group.dataPaths) {
        assert all[i] == units[i];
      }
    }
  }

  // --- writing a view ---------------------------------------------------------------------------------

  lemma ViewIsDescribed(o: D.Options, src: D.Source, p: D.Progress, multi: bool, units: seq<Unit>, views: seq<ViewUnit>, name: string, v: View)
    requires Describes(o, p, multi, units, views) && IsNewView(views, src.database, name)
    requires CleanDatabase(src.database) && (src.database.Some? <==> multi)
    ensures Describes(o, D.WriteView(o, src, p, name, v), multi, units, views + [ViewUnit(name, src.database, v)])
    ensures Keeps(p.objects, D.WriteView(o, src, p, name, v).objects)
  {
    NewPathIsFree(o, p, multi, units, views, src.database, name, ViewDefinition);
    ViewIsListed(o, src, p, units, views, name, v);
    DescribedLater(o, p.objects, D.WriteView(o, src, p, name, v).objects, multi, units, views);
    ViewIsHeld(o, src, p, multi, units, views, name, v);
    ViewIsNamed(o, src, p, units, views, name, v);
  }

  lemma ViewIsListed(o: D.Options, src: D.Source, p: D.Progress, units: seq<Unit>, views: seq<ViewUnit>, name: string, v: View)
    requires Lists(p, units, views) && Keeps(p.objects, D.WriteView(o, src, p, name, v).objects)
    ensures Lists(D.WriteView(o, src, p, name, v), units, views + [ViewUnit(name, src.database, v)])
  {
    var q := D.WriteView(o, src, p, name, v);
    assert q.artifacts[..|p.artifacts|] == p.artifacts;
    ViewsReadSame(p.objects, q.objects, p.artifacts);
  }

  lemma ViewIsHeld(o: D.Options, src: D.Source, p: D.Progress, multi: bool, units: seq<Unit>, views: seq<ViewUnit>, name: string, v: View)
    requires Holds(o, D.WriteView(o, src, p, name, v).objects, multi, units, views)
    requires CleanDatabase(src.database) && (src.database.Some? <==> multi)
    ensures Holds(o, D.WriteView(o, src, p, name, v).objects, multi, units, views + [ViewUnit(name, src.database, v)])
  {
  }

  lemma ViewIsNamed(o: D.Options, src: D.Source, p: D.Progress, units: seq<Unit>, views: seq<ViewUnit>, name: string, v: View)
    requires OnlyNamed(o, p.objects, units, views)
    ensures OnlyNamed(o, D.WriteView(o, src, p, name, v).objects, units, views + [ViewUnit(name, src.database, v)])
  {
    var all := views + [ViewUnit(name, src.database, v)];
    assert all[|views|] == ViewUnit(name, src.database, v);
    forall path | path in p.objects ensures NamedBy(o, units, all, path) {
      assert NamedBy(o, units, views, path);
      if j :| 0 <= j < |views| && path == D.PathOf(o, views[j].database, views[j].name, ViewDefinition) {
        assert all[j] == views[j];
      }
    }
  }
}
