// Every collection of a document can be walked in the triples the parser finds, except
// one that is a statement's subject and is given links of its own.

module TurtleWalks {
  import opened Common
  import opened RdfTerms
  import opened TurtleGrammar
  import opened TurtleSyntax
  import opened TurtleLists
  import opened TurtleRoundTrip

  // --- the collections of a document ----------------------------------------------------

  // The head of a collection and its items; `intact` if no statement says more of the
  // head's links.
  datatype Listed = Listed(head: Term, items: seq<Term>, intact: bool)

  function ObjCollections(env: Env, n: nat, o: Obj): seq<Listed>
    requires ValidObj(env, o)
    decreases o, 1
  {
    match o
    case Properties(parts) => PartsCollections(env, n + 1, Fresh(n + 1), parts)
    case Items(items) => ItemsCollections(env, n, items) + [Listed(ObjMeaning(env, n, o).value, ItemsMeaning(env, n, items).value, true)]
    case _ => []
  }

  // Of items, or of the objects of a verb.
  function ItemsCollections(env: Env, n: nat, items: seq<Obj>): seq<Listed>
    requires ValidObjs(env, items)
    decreases items, 0
  {
    if items == [] then []
    else ObjCollections(env, n, items[0]) + ItemsCollections(env, ObjMeaning(env, n, items[0]).counter, items[1..])
  }

  function PartsCollections(env: Env, n: nat, subject: Resource, parts: seq<Part>): seq<Listed>
    requires ValidParts(env, parts)
    decreases parts, 0
  {
    if parts == [] then []
    else ItemsCollections(env, n, parts[0].objects)
         + PartsCollections(env, PartMeaning(env, n, subject, parts[0]).counter, subject, parts[1..])
  }

  // Does no verb stand for rdf:first or rdf:rest?
  predicate LinkFree(env: Env, parts: seq<Part>)
    requires ValidParts(env, parts)
  {
    forall k :: 0 <= k < |parts| ==> !Links(VerbMeaning(env, parts[k].verb))
  }

  // A collection that is a subject is intact if it is empty, and so rdf:nil, or if its
  // statement's verbs are no links.
  function SubjectCollections(env: Env, n: nat, o: Obj, parts: seq<Part>): seq<Listed>
    requires ValidSubject(env, o) && ValidParts(env, parts)
  {
    match o
    case Properties(inner) => PartsCollections(env, n + 1, Fresh(n + 1), inner)
    case Items(items) =>
      ItemsCollections(env, n, items)
      + [Listed(ObjMeaning(env, n, o).value, ItemsMeaning(env, n, items).value, items == [] || LinkFree(env, parts))]
    case _ => []
  }

  function StmtCollections(env: Env, n: nat, s: Stmt): seq<Listed>
    requires ValidStmt(env, s)
  {
    if !s.Triples? then []
    else
      var subject := SubjectMeaning(env, n, s.subject);
      SubjectCollections(env, n, s.subject, s.parts) + PartsCollections(env, subject.counter, subject.value, s.parts)
  }

  function DocCollections(env: Env, n: nat, doc: seq<Stmt>): seq<Listed>
    requires ValidDoc(env, doc)
    decreases |doc|
  {
    if doc == [] then []
    else StmtCollections(env, n, doc[0]) + DocCollections(EnvAfter(env, doc[0]), StmtMeaning(env, n, doc[0]).counter, doc[1..])
  }

  // The walks from these heads find their items exactly for the intact ones.
  predicate Walked(ts: seq<Triple>, ls: seq<Listed>) {
    forall k :: 0 <= k < |ls| ==> (Lists(ts, ls[k].head, ls[k].items) <==> ls[k].intact)
  }

  lemma WalkedBoth(ts: seq<Triple>, a: seq<Listed>, b: seq<Listed>)
    requires Walked(ts, a) && Walked(ts, b)
    ensures Walked(ts, a + b)
  {
  }

  // --- triples around -------------------------------------------------------------------

  lemma ScopedSpares(ts: seq<Triple>, subject: Resource, lo: nat, hi: nat, lo1: nat, hi1: nat)
    requires Scoped(ts, subject, lo, hi) && (hi <= lo1 || hi1 <= lo) && !GeneratedIn(subject, lo1, hi1)
    ensures Spares(ts, lo1, hi1)
  {
    ScopedAvoids(ts, subject, lo, hi, lo1, hi1);
  }

  lemma FreshElsewhere(x: nat, lo: nat, hi: nat)
    requires x <= lo || hi < x
    ensures !GeneratedIn(Fresh(x), lo, hi)
  {
    forall c: nat | lo < c <= hi ensures Fresh(x) != Fresh(c) { LabelsAreDistinct(x, c, []); }
  }

  lemma Regroup(a: seq<Triple>, b: seq<Triple>, c: seq<Triple>, d: seq<Triple>)
    ensures a + b + (c + d) == a + (b + c) + d
    ensures a + b + c + d == a + (b + c) + d
  {
  }

  // --- inner collections ------------------------------------------------------------------

  lemma {:induction false} ObjWalks(env: Env, n: nat, o: Obj, before: seq<Triple>, after: seq<Triple>)
    requires ValidObj(env, o)
    requires Spares(before, n, ObjMeaning(env, n, o).counter) && Spares(after, n, ObjMeaning(env, n, o).counter)
    ensures Walked(before + ObjMeaning(env, n, o).triples + after, ObjCollections(env, n, o))
    decreases o, 1
  {
    match o
    case Properties(parts) =>
      var m := ObjMeaning(env, n, o);
      Narrow(before, n, m.counter, n + 1, m.counter);
      Narrow(after, n, m.counter, n + 1, m.counter);
      FreshElsewhere(n + 1, n + 1, m.counter);
      PartsWalk(env, n + 1, Fresh(n + 1), parts, before, after);
    case Items(items) =>
      var ts := before + ObjMeaning(env, n, o).triples + after;
      InnerItemsWalk(env, n, items, before, after);
      CollectionCanBeWalked(env, n, items, before, after);
      WalkedBoth(ts, ItemsCollections(env, n, items), [Listed(ObjMeaning(env, n, o).value, ItemsMeaning(env, n, items).value, true)]);
    case _ =>
  }

  // The collections among the items of a collection.
  lemma {:induction false} InnerItemsWalk(env: Env, n: nat, items: seq<Obj>, before: seq<Triple>, after: seq<Triple>)
    requires ValidObj(env, Items(items))
    requires Spares(before, n, ItemsMeaning(env, n, items).counter) && Spares(after, n, ItemsMeaning(env, n, items).counter)
    ensures Walked(before + ObjMeaning(env, n, Items(items)).triples + after, ItemsCollections(env, n, items))
    decreases items, 1
  {
    var m := ItemsMeaning(env, n, items);
    if items != [] {
      var cells := ListTriples(m.value, m.counter, 0);
      CellsAreScoped(m.value, m.counter, 0, Iri([]));
      ScopedSpares(cells, Iri([]), m.counter, m.counter + |items|, n, m.counter);
      SparesBoth(cells, after, n, m.counter);
      ItemsWalk(env, n, items, before, cells + after);
      Regroup(before, m.triples, cells, after);
    }
  }

  lemma {:induction false} ItemsWalk(env: Env, n: nat, items: seq<Obj>, before: seq<Triple>, after: seq<Triple>)
    requires ValidObjs(env, items)
    requires Spares(before, n, ItemsMeaning(env, n, items).counter) && Spares(after, n, ItemsMeaning(env, n, items).counter)
    ensures Walked(before + ItemsMeaning(env, n, items).triples + after, ItemsCollections(env, n, items))
    decreases items, 0
  {
    if items != [] {
      var first := ObjMeaning(env, n, items[0]);
      var rest := ItemsMeaning(env, first.counter, items[1..]);
      var ts := before + ItemsMeaning(env, n, items).triples + after;
      ObjIsScoped(env, n, items[0], Iri([]));
      ItemsAreScoped(env, first.counter, items[1..], Iri([]));
      Surrounded(before, first.triples, rest.triples, after, Iri([]), n, first.counter, rest.counter);
      ObjWalks(env, n, items[0], before, rest.triples + after);
      ItemsWalk(env, first.counter, items[1..], before + first.triples, after);
      Regroup(before, first.triples, rest.triples, after);
      WalkedBoth(ts, ObjCollections(env, n, items[0]), ItemsCollections(env, first.counter, items[1..]));
    }
  }

  // Two neighbours that speak of different labels: each is spared by what is around it.
  lemma Surrounded(before: seq<Triple>, first: seq<Triple>, rest: seq<Triple>, after: seq<Triple>, subject: Resource, lo: nat, mid: nat, hi: nat)
    requires lo <= mid <= hi && Spares(before, lo, hi) && Spares(after, lo, hi) && !GeneratedIn(subject, lo, hi)
    requires Scoped(first, subject, lo, mid) && Scoped(rest, subject, mid, hi)
    ensures Spares(before, lo, mid) && Spares(rest + after, lo, mid)
    ensures Spares(before + first, mid, hi) && Spares(after, mid, hi)
  {
    ScopedSpares(rest, subject, mid, hi, lo, mid);
    ScopedSpares(first, subject, lo, mid, mid, hi);
    Narrow(before, lo, hi, lo, mid);
    Narrow(after, lo, hi, lo, mid);
    Narrow(before, lo, hi, mid, hi);
    Narrow(after, lo, hi, mid, hi);
    SparesBoth(rest, after, lo, mid);
    SparesBoth(before, first, mid, hi);
  }

  lemma {:induction false} ObjsWalk(env: Env, n: nat, subject: Resource, pred: string, objects: seq<Obj>, before: seq<Triple>, after: seq<Triple>)
    requires ValidObjs(env, objects) && !GeneratedIn(subject, n, ObjsMeaning(env, n, subject, pred, objects).counter)
    requires Spares(before, n, ObjsMeaning(env, n, subject, pred, objects).counter)
    requires Spares(after, n, ObjsMeaning(env, n, subject, pred, objects).counter)
    ensures Walked(before + ObjsMeaning(env, n, subject, pred, objects).triples + after, ItemsCollections(env, n, objects))
    decreases objects, 0
  {
    if objects != [] {
      var first := ObjMeaning(env, n, objects[0]);
      var rest := ObjsMeaning(env, first.counter, subject, pred, objects[1..]);
      var edge := [Edge(subject, pred, first.value)];
      var ts := before + ObjsMeaning(env, n, subject, pred, objects).triples + after;
      ObjIsScoped(env, n, objects[0], subject);
      ObjsAreScoped(env, first.counter, subject, pred, objects[1..]);
      Join(edge, rest.triples, subject, first.counter, rest.counter);
      Join(first.triples, edge, subject, n, first.counter);
      Surrounded(before, first.triples, edge + rest.triples, after, subject, n, first.counter, rest.counter);
      Surrounded(before, first.triples + edge, rest.triples, after, subject, n, first.counter, rest.counter);
      ObjWalks(env, n, objects[0], before, edge + rest.triples + after);
      ObjsWalk(env, first.counter, subject, pred, objects[1..], before + (first.triples + edge), after);
      Regroup(before, first.triples, edge + rest.triples, after);
      Regroup(before, first.triples + edge, rest.triples, after);
      assert first.triples + (edge + rest.triples) == first.triples + edge + rest.triples;
      WalkedBoth(ts, ObjCollections(env, n, objects[0]), ItemsCollections(env, first.counter, objects[1..]));
    }
  }

  lemma {:induction false} PartsWalk(env: Env, n: nat, subject: Resource, parts: seq<Part>, before: seq<Triple>, after: seq<Triple>)
    requires ValidParts(env, parts) && !GeneratedIn(subject, n, PartsMeaning(env, n, subject, parts).counter)
    requires Spares(before, n, PartsMeaning(env, n, subject, parts).counter)
    requires Spares(after, n, PartsMeaning(env, n, subject, parts).counter)
    ensures Walked(before + PartsMeaning(env, n, subject, parts).triples + after, PartsCollections(env, n, subject, parts))
    decreases parts, 0
  {
    if parts != [] {
      var pred, objects := VerbMeaning(env, parts[0].verb), parts[0].objects;
      var first := ObjsMeaning(env, n, subject, pred, objects);
      var rest := PartsMeaning(env, first.counter, subject, parts[1..]);
      var ts := before + PartsMeaning(env, n, subject, parts).triples + after;
      ObjsAreScoped(env, n, subject, pred, objects);
      PartsAreScoped(env, first.counter, subject, parts[1..]);
      Surrounded(before, first.triples, rest.triples, after, subject, n, first.counter, rest.counter);
      ObjsWalk(env, n, subject, pred, objects, before, rest.triples + after);
      PartsWalk(env, first.counter, subject, parts[1..], before + first.triples, after);
      Regroup(before, first.triples, rest.triples, after);
      WalkedBoth(ts, ItemsCollections(env, n, objects), PartsCollections(env, first.counter, subject, parts[1..]));
    }
  }

  // --- a collection as a subject -------------------------------------------------------------

  // No triple with this subject has rdf:first or rdf:rest for its predicate.
  predicate SaysNoLink(ts: seq<Triple>, r: Resource) {
    forall k :: 0 <= k < |ts| && ts[k].subject == r ==> !Links(ts[k].pred)
  }

  lemma SaysNoLinkBoth(a: seq<Triple>, b: seq<Triple>, r: Resource)
    requires SaysNoLink(a, r) && SaysNoLink(b, r)
    ensures SaysNoLink(a + b, r)
  {
  }

  lemma OthersSayNoLink(ts: seq<Triple>, x: nat, lo: nat, hi: nat)
    requires Scoped(ts, Iri([]), lo, hi) && x <= lo
    ensures SaysNoLink(ts, Fresh(x))
  {
    FreshElsewhere(x, lo, hi);
    forall k | 0 <= k < |ts| ensures ts[k].subject != Fresh(x) {
      assert Own(ts[k].subject, Iri([]), lo, hi);
    }
  }

  // What objects or a list of verbs say of a node labelled before them.
  lemma {:induction false} ObjsSayNoLink(env: Env, n: nat, x: nat, pred: string, objects: seq<Obj>)
    requires ValidObjs(env, objects) && x <= n && !Links(pred)
    ensures SaysNoLink(ObjsMeaning(env, n, Fresh(x), pred, objects).triples, Fresh(x))
    decreases objects
  {
    if objects != [] {
      var first := ObjMeaning(env, n, objects[0]);
      var rest := ObjsMeaning(env, first.counter, Fresh(x), pred, objects[1..]);
      var edge := [Edge(Fresh(x), pred, first.value)];
      ObjIsScoped(env, n, objects[0], Iri([]));
      OthersSayNoLink(first.triples, x, n, first.counter);
      ObjsSayNoLink(env, first.counter, x, pred, objects[1..]);
      SaysNoLinkBoth(first.triples, edge, Fresh(x));
      SaysNoLinkBoth(first.triples + edge, rest.triples, Fresh(x));
    }
  }

  lemma {:induction false} PartsSayNoLink(env: Env, n: nat, x: nat, parts: seq<Part>)
    requires ValidParts(env, parts) && x <= n && LinkFree(env, parts)
    ensures SaysNoLink(PartsMeaning(env, n, Fresh(x), parts).triples, Fresh(x))
    decreases parts
  {
    if parts != [] {
      var pred, objects := VerbMeaning(env, parts[0].verb), parts[0].objects;
      var first := ObjsMeaning(env, n, Fresh(x), pred, objects);
      var rest := PartsMeaning(env, first.counter, Fresh(x), parts[1..]);
      ObjsAreScoped(env, n, Fresh(x), pred, objects);
      ObjsSayNoLink(env, n, x, pred, objects);
      PartsSayNoLink(env, first.counter, x, parts[1..]);
      SaysNoLinkBoth(first.triples, rest.triples, Fresh(x));
    }
  }

  // Verbs that are no links spare the subject's cells.
  lemma LinkFreeSpares(env: Env, n: nat, x: nat, parts: seq<Part>, lo: nat)
    requires ValidParts(env, parts) && x <= n && LinkFree(env, parts)
    ensures Spares(PartsMeaning(env, n, Fresh(x), parts).triples, lo, n)
  {
    var m := PartsMeaning(env, n, Fresh(x), parts);
    PartsSayNoLink(env, n, x, parts);
    PartsAreScoped(env, n, Fresh(x), parts);
    forall k | 0 <= k < |m.triples| && GeneratedIn(m.triples[k].subject, lo, n) ensures !Links(m.triples[k].pred) {
      assert Own(m.triples[k].subject, Fresh(x), n, m.counter);
      if m.triples[k].subject != Fresh(x) { OwnElsewhere(m.triples[k].subject, Iri([]), n, m.counter, lo, n); }
    }
  }

  // A verb has an object, so there is a triple with it.
  lemma VerbIsSaid(env: Env, n: nat, subject: Resource, pred: string, objects: seq<Obj>)
    requires ValidObjs(env, objects) && objects != []
    ensures ObjectsOf(ObjsMeaning(env, n, subject, pred, objects).triples, subject, pred) != []
  {
    var first := ObjMeaning(env, n, objects[0]);
    var rest := ObjsMeaning(env, first.counter, subject, pred, objects[1..]);
    var edge := [Edge(subject, pred, first.value)];
    ObjectsOfConcat(first.triples + edge, rest.triples, subject, pred);
    ObjectsOfConcat(first.triples, edge, subject, pred);
    assert ObjectsOf(edge, subject, pred) != [];
  }

  lemma {:induction false} VerbsAreSaid(env: Env, n: nat, subject: Resource, parts: seq<Part>, k: nat)
    requires ValidParts(env, parts) && k < |parts|
    ensures ObjectsOf(PartsMeaning(env, n, subject, parts).triples, subject, VerbMeaning(env, parts[k].verb)) != []
    decreases parts
  {
    var first := PartMeaning(env, n, subject, parts[0]);
    var rest := PartsMeaning(env, first.counter, subject, parts[1..]);
    var pred := VerbMeaning(env, parts[k].verb);
    ObjectsOfConcat(first.triples, rest.triples, subject, pred);
    if k == 0 { VerbIsSaid(env, n, subject, pred, parts[0].objects); } else { VerbsAreSaid(env, first.counter, subject, parts[1..], k - 1); }
  }

  // A cell with a second link of either kind ends the walk.
  lemma SecondLinkEndsWalk(before: seq<Triple>, own: seq<Triple>, terms: seq<Term>, base: nat, more: seq<Triple>, after: seq<Triple>, pred: string)
    requires terms != [] && Links(pred) && ObjectsOf(more, Fresh(base + 1), pred) != []
    ensures !Lists(before + (own + ListTriples(terms, base, 0)) + (more + after), ToTerm(Fresh(base + 1)), terms)
  {
    var cell, cells := Fresh(base + 1), ListTriples(terms, base, 0);
    CellObjects(terms, base, 0, 0);
    ObjectsOfConcat(before + (own + cells), more + after, cell, pred);
    ObjectsOfConcat(before, own + cells, cell, pred);
    ObjectsOfConcat(own, cells, cell, pred);
    ObjectsOfConcat(more, after, cell, pred);
    assert |ObjectsOf(before + (own + cells) + (more + after), cell, pred)| >= 2;
  }

  lemma SubjectCollectionWalks(env: Env, n: nat, items: seq<Obj>, parts: seq<Part>, before: seq<Triple>, after: seq<Triple>)
    requires items != [] && ValidObj(env, Items(items)) && ValidParts(env, parts)
    requires var m := ObjMeaning(env, n, Items(items)); Spares(before, n, m.counter) && Spares(after, n, m.counter)
    ensures var m := ObjMeaning(env, n, Items(items));
            var own := ItemsMeaning(env, n, items);
            var more := PartsMeaning(env, m.counter, Fresh(own.counter + 1), parts).triples;
            Lists(before + m.triples + (more + after), m.value, own.value) <==> LinkFree(env, parts)
  {
    var m := ObjMeaning(env, n, Items(items));
    var own := ItemsMeaning(env, n, items);
    var head := Fresh(own.counter + 1);
    var more := PartsMeaning(env, m.counter, head, parts).triples;
    if LinkFree(env, parts) {
      LinkFreeSpares(env, m.counter, own.counter + 1, parts, n);
      SparesBoth(more, after, n, m.counter);
      CollectionCanBeWalked(env, n, items, before, more + after);
    } else {
      var k :| 0 <= k < |parts| && Links(VerbMeaning(env, parts[k].verb));
      VerbsAreSaid(env, m.counter, head, parts, k);
      SecondLinkEndsWalk(before, own.triples, own.value, own.counter, more, after, VerbMeaning(env, parts[k].verb));
    }
  }

  // --- statements and documents ------------------------------------------------------------------

  lemma SubjectWalks(env: Env, n: nat, o: Obj, parts: seq<Part>, before: seq<Triple>, after: seq<Triple>)
    requires ValidSubject(env, o) && ValidParts(env, parts)
    requires Spares(before, n, SubjectMeaning(env, n, o).counter) && Spares(after, n, SubjectMeaning(env, n, o).counter)
    ensures var m := SubjectMeaning(env, n, o);
            var more := PartsMeaning(env, m.counter, m.value, parts).triples;
            Walked(before + m.triples + (more + after), SubjectCollections(env, n, o, parts))
  {
    match o
    case Properties(inner) => SubjectPropertiesWalk(env, n, o, parts, before, after);
    case Items(items) => SubjectItemsWalk(env, n, o, parts, before, after);
    case _ =>
  }

  lemma SubjectPropertiesWalk(env: Env, n: nat, o: Obj, parts: seq<Part>, before: seq<Triple>, after: seq<Triple>)
    requires o.Properties? && ValidSubject(env, o) && ValidParts(env, parts)
    requires Spares(before, n, SubjectMeaning(env, n, o).counter) && Spares(after, n, SubjectMeaning(env, n, o).counter)
    ensures var m := SubjectMeaning(env, n, o);
            var more := PartsMeaning(env, m.counter, m.value, parts).triples;
            Walked(before + m.triples + (more + after), SubjectCollections(env, n, o, parts))
  {
    var m := SubjectMeaning(env, n, o);
    var more := PartsMeaning(env, m.counter, m.value, parts);
    PartsAreScoped(env, m.counter, m.value, parts);
    FreshElsewhere(n + 1, n + 1, m.counter);
    ScopedSpares(more.triples, m.value, m.counter, more.counter, n + 1, m.counter);
    Narrow(before, n, m.counter, n + 1, m.counter);
    Narrow(after, n, m.counter, n + 1, m.counter);
    SparesBoth(more.triples, after, n + 1, m.counter);
    PartsWalk(env, n + 1, Fresh(n + 1), o.parts, before, more.triples + after);
  }

  lemma SubjectItemsWalk(env: Env, n: nat, o: Obj, parts: seq<Part>, before: seq<Triple>, after: seq<Triple>)
    requires o.Items? && ValidSubject(env, o) && ValidParts(env, parts)
    requires Spares(before, n, SubjectMeaning(env, n, o).counter) && Spares(after, n, SubjectMeaning(env, n, o).counter)
    ensures var m := SubjectMeaning(env, n, o);
            var more := PartsMeaning(env, m.counter, m.value, parts).triples;
            Walked(before + m.triples + (more + after), SubjectCollections(env, n, o, parts))
  {
    var m := SubjectMeaning(env, n, o);
    var own := ItemsMeaning(env, n, o.items);
    var more := PartsMeaning(env, m.counter, m.value, parts);
    var ts := before + m.triples + (more.triples + after);
    if o.items != [] {
      ItemsAreScoped(env, n, o.items, Iri([]));
      PartsAreScoped(env, m.counter, m.value, parts);
      FreshElsewhere(own.counter + 1, n, own.counter);
      ScopedSpares(more.triples, m.value, m.counter, more.counter, n, own.counter);
      Narrow(before, n, m.counter, n, own.counter);
      Narrow(after, n, m.counter, n, own.counter);
      SparesBoth(more.triples, after, n, own.counter);
      InnerItemsWalk(env, n, o.items, before, more.triples + after);
      SubjectCollectionWalks(env, n, o.items, parts, before, after);
    }
    WalkedBoth(ts, ItemsCollections(env, n, o.items),
      [Listed(ObjMeaning(env, n, o).value, own.value, o.items == [] || LinkFree(env, parts))]);
  }

  lemma StmtWalks(env: Env, n: nat, s: Stmt, before: seq<Triple>, after: seq<Triple>)
    requires ValidStmt(env, s)
    requires Spares(before, n, StmtMeaning(env, n, s).counter) && Spares(after, n, StmtMeaning(env, n, s).counter)
    ensures Walked(before + StmtMeaning(env, n, s).triples + after, StmtCollections(env, n, s))
  {
    if s.Triples? {
      var subject := SubjectMeaning(env, n, s.subject);
      var list := PartsMeaning(env, subject.counter, subject.value, s.parts);
      SubjectIsScoped(env, n, s.subject);
      PartsAreScoped(env, subject.counter, subject.value, s.parts);
      OwnElsewhere(subject.value, Iri([]), n, subject.counter, subject.counter, list.counter);
      ScopedSpares(subject.triples, Iri([]), n, subject.counter, subject.counter, list.counter);
      Narrow(before, n, list.counter, subject.counter, list.counter);
      Narrow(after, n, list.counter, subject.counter, list.counter);
      Narrow(before, n, list.counter, n, subject.counter);
      Narrow(after, n, list.counter, n, subject.counter);
      SparesBoth(before, subject.triples, subject.counter, list.counter);
      SubjectWalks(env, n, s.subject, s.parts, before, after);
      PartsWalk(env, subject.counter, subject.value, s.parts, before + subject.triples, after);
      Regroup(before, subject.triples, list.triples, after);
      WalkedBoth(before + StmtMeaning(env, n, s).triples + after, SubjectCollections(env, n, s.subject, s.parts),
        PartsCollections(env, subject.counter, subject.value, s.parts));
    }
  }

  lemma {:induction false} DocWalks(env: Env, n: nat, doc: seq<Stmt>, before: seq<Triple>, after: seq<Triple>)
    requires ValidDoc(env, doc)
    requires Spares(before, n, DocMeaning(env, n, doc).counter) && Spares(after, n, DocMeaning(env, n, doc).counter)
    ensures Walked(before + DocMeaning(env, n, doc).triples + after, DocCollections(env, n, doc))
    decreases |doc|
  {
    if doc != [] {
      var first, env1 := StmtMeaning(env, n, doc[0]), EnvAfter(env, doc[0]);
      var rest := DocMeaning(env1, first.counter, doc[1..]);
      var ts := before + DocMeaning(env, n, doc).triples + after;
      StmtIsScoped(env, n, doc[0]);
      DocIsScoped(env1, first.counter, doc[1..]);
      Surrounded(before, first.triples, rest.triples, after, Iri([]), n, first.counter, rest.counter);
      StmtWalks(env, n, doc[0], before, rest.triples + after);
      DocWalks(env1, first.counter, doc[1..], before + first.triples, after);
      Regroup(before, first.triples, rest.triples, after);
      WalkedBoth(ts, StmtCollections(env, n, doc[0]), DocCollections(env1, first.counter, doc[1..]));
    }
  }

  // Main result: in what the parser finds in a document's text, walking from the head of
  // a collection yields its items in order and ends at rdf:nil, for every collection
  // wherever it stands, except exactly the non-empty ones that are subjects of a statement
  // one of whose verbs stands for rdf:first or rdf:rest.
  lemma ParsedCollectionsWalk(doc: seq<Stmt>)
    requires ValidDoc(NO_DECLARATIONS, doc)
    ensures var parsed := ParseTurtle(PrintDoc(doc)); parsed.Ok? && Walked(parsed.value, DocCollections(NO_DECLARATIONS, 0, doc))
  {
    var m := DocMeaning(NO_DECLARATIONS, 0, doc);
    ParseInvertsPrint(doc);
    DocWalks(NO_DECLARATIONS, 0, doc, [], []);
    assert [] + m.triples + [] == m.triples;
  }

  // For instance `( <a> ) rdf:first <b> .`, with the predicate written out: its cell has
  // two first links.
  lemma LinkedSubjectIsBroken(doc: seq<Stmt>)
    requires doc == [Triples(Items([Named(Full("a"))]), [Part(Pred(Full(RDF_FIRST)), [Named(Full("b"))])])]
    ensures ValidDoc(NO_DECLARATIONS, doc)
    ensures var parsed := ParseTurtle(PrintDoc(doc)); parsed.Ok? && !Lists(parsed.value, ToTerm(Fresh(1)), [IriTerm("a")])
  {
    var env, s := NO_DECLARATIONS, doc[0];
    assert doc[1..] == [];
    assert ValidStmt(env, s);
    var m := ItemsMeaning(env, 0, s.subject.items);
    assert s.subject.items[1..] == [] && m.value == [IriTerm("a")] + [] && m.counter == 0;
    assert VerbMeaning(env, s.parts[0].verb) == RDF_FIRST && !LinkFree(env, s.parts);
    var all := DocCollections(env, 0, doc);
    var last := |SubjectCollections(env, 0, s.subject, s.parts)| - 1;
    assert all[last] == Listed(ToTerm(Fresh(1)), [IriTerm("a")], false);
    ParsedCollectionsWalk(doc);
  }
}
