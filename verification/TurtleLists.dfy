// What a document's meaning guarantees about generated labels, and that every
// collection can be walked from its head.

module TurtleLists {
  import opened Common
  import opened Decimals
  import opened RdfTerms
  import opened TurtleGrammar
  import opened TurtleSyntax

  // --- labels --------------------------------------------------------------------------

  // Generated labels are pairwise distinct and never a user's label, which is given
  // the prefix `u_`.
  lemma LabelsAreDistinct(a: nat, b: nat, name: string)
    ensures Fresh(a) == Fresh(b) <==> a == b
    ensures Fresh(a) != BlankNode("u_" + name)
  {
    if Fresh(a) == Fresh(b) {
      assert GeneratedLabel(a)[4..] == Decimal(a) && GeneratedLabel(b)[4..] == Decimal(b);
      DecimalInjective(a, b);
    }
    assert GeneratedLabel(a)[0] == '_' && ("u_" + name)[0] == 'u';
  }

  // Is the node one of those labelled from lo+1 to hi?
  ghost predicate GeneratedIn(r: Resource, lo: nat, hi: nat) { exists c: nat :: lo < c <= hi && r == Fresh(c) }

  // Is every triple's subject this node, a node labelled from lo+1 to hi, or a node
  // that is not generated at all?
  ghost predicate Own(r: Resource, subject: Resource, lo: nat, hi: nat) {
    r == subject || GeneratedIn(r, lo, hi) || forall c: nat :: r != Fresh(c)
  }

  ghost predicate Scoped(ts: seq<Triple>, subject: Resource, lo: nat, hi: nat) {
    forall k :: 0 <= k < |ts| ==> Own(ts[k].subject, subject, lo, hi)
  }

  // No triple has a subject labelled from lo+1 to hi.
  ghost predicate Avoids(ts: seq<Triple>, lo: nat, hi: nat) {
    forall k :: 0 <= k < |ts| ==> !GeneratedIn(ts[k].subject, lo, hi)
  }

  predicate Links(pred: string) { pred == RDF_FIRST || pred == RDF_REST }

  // No triple with such a subject has rdf:first or rdf:rest for its predicate.
  ghost predicate Spares(ts: seq<Triple>, lo: nat, hi: nat) {
    forall k :: 0 <= k < |ts| && GeneratedIn(ts[k].subject, lo, hi) ==> !Links(ts[k].pred)
  }

  lemma OwnWidens(r: Resource, subject: Resource, lo: nat, hi: nat, lo1: nat, hi1: nat)
    requires Own(r, subject, lo, hi) && lo1 <= lo && hi <= hi1
    ensures Own(r, subject, lo1, hi1)
  {
  }

  lemma Widen(ts: seq<Triple>, subject: Resource, lo: nat, hi: nat, lo1: nat, hi1: nat)
    requires Scoped(ts, subject, lo, hi) && lo1 <= lo && hi <= hi1
    ensures Scoped(ts, subject, lo1, hi1)
  {
    forall k | 0 <= k < |ts| ensures Own(ts[k].subject, subject, lo1, hi1) {
      OwnWidens(ts[k].subject, subject, lo, hi, lo1, hi1);
    }
  }

  lemma Join(a: seq<Triple>, b: seq<Triple>, subject: Resource, lo: nat, hi: nat)
    requires Scoped(a, subject, lo, hi) && Scoped(b, subject, lo, hi)
    ensures Scoped(a + b, subject, lo, hi)
  {
    var ts := a + b;
    forall k | 0 <= k < |ts| ensures Own(ts[k].subject, subject, lo, hi) {
      if k < |a| { assert ts[k] == a[k]; } else { assert ts[k] == b[k - |a|]; }
    }
  }

  // An inner subject with its own label counts as generated.
  lemma Adopt(ts: seq<Triple>, inner: nat, hi: nat, subject: Resource, lo: nat)
    requires Scoped(ts, Fresh(inner), inner, hi) && lo < inner <= hi
    ensures Scoped(ts, subject, lo, hi)
  {
    forall k | 0 <= k < |ts| ensures Own(ts[k].subject, subject, lo, hi) {
      if ts[k].subject == Fresh(inner) {
        assert GeneratedIn(Fresh(inner), lo, hi);
      } else {
        OwnWidens(ts[k].subject, Fresh(inner), inner, hi, lo, hi);
      }
    }
  }

  lemma {:induction false} CellsAreScoped(terms: seq<Term>, base: nat, i: nat, subject: Resource)
    requires i <= |terms|
    ensures Scoped(ListTriples(terms, base, i), subject, base, base + |terms|)
    ensures |ListTriples(terms, base, i)| == 2 * (|terms| - i)
    decreases |terms| - i
  {
    if i < |terms| {
      CellsAreScoped(terms, base, i + 1, subject);
      assert GeneratedIn(Fresh(base + 1 + i), base, base + |terms|);
      Join(CellTriples(terms, base, i), ListTriples(terms, base, i + 1), subject, base, base + |terms|);
    }
  }

  // Everything an object adds is about the nodes generated for it, or about nodes
  // that are not generated; and labels only grow.
  lemma {:induction false} ObjIsScoped(env: Env, n: nat, o: Obj, subject: Resource)
    requires ValidObj(env, o)
    ensures var m := ObjMeaning(env, n, o); n <= m.counter && Scoped(m.triples, subject, n, m.counter)
    decreases o, 1
  {
    match o
    case Properties(parts) =>
      PartsAreScoped(env, n + 1, Fresh(n + 1), parts);
      Adopt(ObjMeaning(env, n, o).triples, n + 1, ObjMeaning(env, n, o).counter, subject, n);
    case Items(items) =>
      if items != [] {
        var m := ItemsMeaning(env, n, items);
        var hi := m.counter + |items|;
        ItemsAreScoped(env, n, items, subject);
        CellsAreScoped(m.value, m.counter, 0, subject);
        Widen(m.triples, subject, n, m.counter, n, hi);
        Widen(ListTriples(m.value, m.counter, 0), subject, m.counter, hi, n, hi);
        Join(m.triples, ListTriples(m.value, m.counter, 0), subject, n, hi);
      }
    case _ =>
  }

  lemma {:induction false} ItemsAreScoped(env: Env, n: nat, items: seq<Obj>, subject: Resource)
    requires ValidObjs(env, items)
    ensures var m := ItemsMeaning(env, n, items); n <= m.counter && Scoped(m.triples, subject, n, m.counter)
    decreases items, 0
  {
    if items != [] {
      var first := ObjMeaning(env, n, items[0]);
      var rest := ItemsMeaning(env, first.counter, items[1..]);
      ObjIsScoped(env, n, items[0], subject);
      ItemsAreScoped(env, first.counter, items[1..], subject);
      Widen(first.triples, subject, n, first.counter, n, rest.counter);
      Widen(rest.triples, subject, first.counter, rest.counter, n, rest.counter);
      Join(first.triples, rest.triples, subject, n, rest.counter);
    }
  }

  lemma {:induction false} ObjsAreScoped(env: Env, n: nat, subject: Resource, pred: string, objects: seq<Obj>)
    requires ValidObjs(env, objects)
    ensures var m := ObjsMeaning(env, n, subject, pred, objects); n <= m.counter && Scoped(m.triples, subject, n, m.counter)
    decreases objects, 0
  {
    if objects != [] {
      var first := ObjMeaning(env, n, objects[0]);
      var rest := ObjsMeaning(env, first.counter, subject, pred, objects[1..]);
      ObjIsScoped(env, n, objects[0], subject);
      ObjsAreScoped(env, first.counter, subject, pred, objects[1..]);
      Widen(first.triples, subject, n, first.counter, n, rest.counter);
      Widen(rest.triples, subject, first.counter, rest.counter, n, rest.counter);
      var edge := [Edge(subject, pred, first.value)];
      Join(first.triples, edge, subject, n, rest.counter);
      Join(first.triples + edge, rest.triples, subject, n, rest.counter);
    }
  }

  lemma {:induction false} PartsAreScoped(env: Env, n: nat, subject: Resource, parts: seq<Part>)
    requires ValidParts(env, parts)
    ensures var m := PartsMeaning(env, n, subject, parts); n <= m.counter && Scoped(m.triples, subject, n, m.counter)
    decreases parts, 0
  {
    if parts != [] {
      var first := PartMeaning(env, n, subject, parts[0]);
      var rest := PartsMeaning(env, first.counter, subject, parts[1..]);
      ObjsAreScoped(env, n, subject, VerbMeaning(env, parts[0].verb), parts[0].objects);
      PartsAreScoped(env, first.counter, subject, parts[1..]);
      Widen(first.triples, subject, n, first.counter, n, rest.counter);
      Widen(rest.triples, subject, first.counter, rest.counter, n, rest.counter);
      Join(first.triples, rest.triples, subject, n, rest.counter);
    }
  }

  // --- walking a list ------------------------------------------------------------------------

  function ObjectsOf(ts: seq<Triple>, subject: Resource, pred: string): seq<Term> {
    if ts == [] then []
    else (if ts[0].subject == subject && ts[0].pred == pred then [ts[0].obj] else []) + ObjectsOf(ts[1..], subject, pred)
  }

  // From this node, following rdf:first and rdf:rest, exactly one of each a cell, one
  // finds these items and ends at rdf:nil.
  predicate Lists(ts: seq<Triple>, node: Term, items: seq<Term>)
    decreases |items|
  {
    if items == [] then node == IriTerm(RDF_NIL)
    else
      && node.BlankTerm?
      && ObjectsOf(ts, BlankNode(node.name), RDF_FIRST) == [items[0]]
      && var next := ObjectsOf(ts, BlankNode(node.name), RDF_REST);
      && |next| == 1 && Lists(ts, next[0], items[1..])
  }

  lemma {:induction false} ObjectsOfConcat(a: seq<Triple>, b: seq<Triple>, subject: Resource, pred: string)
    ensures ObjectsOf(a + b, subject, pred) == ObjectsOf(a, subject, pred) + ObjectsOf(b, subject, pred)
  {
    if a == [] {
      assert a + b == b;
    } else {
      assert (a + b)[1..] == a[1..] + b;
      ObjectsOfConcat(a[1..], b, subject, pred);
    }
  }

  lemma {:induction false} NoObjects(ts: seq<Triple>, subject: Resource, pred: string)
    requires forall k :: 0 <= k < |ts| && ts[k].subject == subject ==> ts[k].pred != pred
    ensures ObjectsOf(ts, subject, pred) == []
  {
    if ts != [] { NoObjects(ts[1..], subject, pred); }
  }

  // The value at cell `j`: its item and the next cell.
  function NextCell(terms: seq<Term>, base: nat, j: nat): Term {
    if j + 1 == |terms| then IriTerm(RDF_NIL) else ToTerm(Fresh(base + 2 + j))
  }

  // The two predicates of a cell are different IRIs.
  lemma FirstIsNotRest()
    ensures RDF_FIRST != RDF_REST
  {
    assert RDF_FIRST[|RDF|] == 'f' && RDF_REST[|RDF|] == 'r';
  }

  lemma {:induction false} CellObjects(terms: seq<Term>, base: nat, i: nat, j: nat)
    requires i <= |terms| && j < |terms|
    ensures ObjectsOf(ListTriples(terms, base, i), Fresh(base + 1 + j), RDF_FIRST) == if i <= j then [terms[j]] else []
    ensures ObjectsOf(ListTriples(terms, base, i), Fresh(base + 1 + j), RDF_REST) == if i <= j then [NextCell(terms, base, j)] else []
    decreases |terms| - i
  {
    if i < |terms| {
      var cell, more := CellTriples(terms, base, i), ListTriples(terms, base, i + 1);
      CellObjects(terms, base, i + 1, j);
      ObjectsOfConcat(cell, more, Fresh(base + 1 + j), RDF_FIRST);
      ObjectsOfConcat(cell, more, Fresh(base + 1 + j), RDF_REST);
      OneCell(terms, base, i, j);
    }
  }

  lemma OneCell(terms: seq<Term>, base: nat, i: nat, j: nat)
    requires i < |terms| && j < |terms|
    ensures ObjectsOf(CellTriples(terms, base, i), Fresh(base + 1 + j), RDF_FIRST) == if i == j then [terms[j]] else []
    ensures ObjectsOf(CellTriples(terms, base, i), Fresh(base + 1 + j), RDF_REST) == if i == j then [NextCell(terms, base, j)] else []
  {
    var ts := CellTriples(terms, base, i);
    LabelsAreDistinct(base + 1 + i, base + 1 + j, []);
    FirstIsNotRest();
    PairObjects(ts[0], ts[1], Fresh(base + 1 + j), RDF_FIRST);
    PairObjects(ts[0], ts[1], Fresh(base + 1 + j), RDF_REST);
  }

  lemma PairObjects(a: Triple, b: Triple, subject: Resource, pred: string)
    ensures ObjectsOf([a, b], subject, pred)
         == (if a.subject == subject && a.pred == pred then [a.obj] else [])
          + (if b.subject == subject && b.pred == pred then [b.obj] else [])
  {
    assert [a, b][1..] == [b] && [b][1..] == [];
    assert ObjectsOf([b], subject, pred) == (if b.subject == subject && b.pred == pred then [b.obj] else []) + [];
  }

  // In any triples that hold the list and no other links of its cells, the walk from
  // cell `j` finds the items from `j` on.
  lemma {:induction false} WalkFrom(before: seq<Triple>, terms: seq<Term>, base: nat, after: seq<Triple>, j: nat)
    requires Spares(before, base, base + |terms|) && Spares(after, base, base + |terms|) && j < |terms|
    ensures Lists(before + ListTriples(terms, base, 0) + after, ToTerm(Fresh(base + 1 + j)), terms[j..])
    decreases |terms| - j
  {
    var ts := before + ListTriples(terms, base, 0) + after;
    OnlyCell(before, terms, base, after, j, RDF_FIRST);
    OnlyCell(before, terms, base, after, j, RDF_REST);
    CellObjects(terms, base, 0, j);
    assert terms[j..][0] == terms[j] && terms[j..][1..] == terms[j + 1..];
    if j + 1 < |terms| {
      WalkFrom(before, terms, base, after, j + 1);
    } else {
      assert Lists(ts, IriTerm(RDF_NIL), terms[j + 1..]);
    }
  }

  lemma OnlyCell(before: seq<Triple>, terms: seq<Term>, base: nat, after: seq<Triple>, j: nat, pred: string)
    requires Spares(before, base, base + |terms|) && Spares(after, base, base + |terms|) && j < |terms| && Links(pred)
    ensures ObjectsOf(before + ListTriples(terms, base, 0) + after, Fresh(base + 1 + j), pred)
         == ObjectsOf(ListTriples(terms, base, 0), Fresh(base + 1 + j), pred)
  {
    var cell, cells := Fresh(base + 1 + j), ListTriples(terms, base, 0);
    assert GeneratedIn(cell, base, base + |terms|);
    NoObjects(before, cell, pred);
    NoObjects(after, cell, pred);
    ObjectsOfConcat(before + cells, after, cell, pred);
    ObjectsOfConcat(before, cells, cell, pred);
    assert [] + ObjectsOf(cells, cell, pred) + [] == ObjectsOf(cells, cell, pred);
  }

  // Triples about one node and about other labels leave a collection's cells alone.
  lemma ScopedAvoids(ts: seq<Triple>, subject: Resource, lo: nat, hi: nat, lo1: nat, hi1: nat)
    requires Scoped(ts, subject, lo, hi) && (hi <= lo1 || hi1 <= lo) && !GeneratedIn(subject, lo1, hi1)
    ensures Avoids(ts, lo1, hi1)
  {
    forall k | 0 <= k < |ts| ensures !GeneratedIn(ts[k].subject, lo1, hi1) {
      assert Own(ts[k].subject, subject, lo, hi);
      OwnElsewhere(ts[k].subject, subject, lo, hi, lo1, hi1);
    }
  }

  lemma OwnElsewhere(r: Resource, subject: Resource, lo: nat, hi: nat, lo1: nat, hi1: nat)
    requires Own(r, subject, lo, hi) && (hi <= lo1 || hi1 <= lo) && !GeneratedIn(subject, lo1, hi1)
    ensures !GeneratedIn(r, lo1, hi1)
  {
    if GeneratedIn(r, lo1, hi1) && GeneratedIn(r, lo, hi) {
      var c: nat :| lo < c <= hi && r == Fresh(c);
      var d: nat :| lo1 < d <= hi1 && r == Fresh(d);
      LabelsAreDistinct(c, d, []);
    }
  }

  // Main result: a collection of n items adds 2n triples after the items' own, and
  // whatever else the document says of its cells with other predicates, walking from its
  // head yields the items in order and ends at rdf:nil.
  lemma CollectionCanBeWalked(env: Env, n: nat, items: seq<Obj>, before: seq<Triple>, after: seq<Triple>)
    requires ValidObj(env, Items(items))
    requires Spares(before, n, ObjMeaning(env, n, Items(items)).counter)
    requires Spares(after, n, ObjMeaning(env, n, Items(items)).counter)
    ensures var m := ObjMeaning(env, n, Items(items));
            var own := ItemsMeaning(env, n, items);
            && |m.triples| == |own.triples| + 2 * |items|
            && Lists(before + m.triples + after, m.value, own.value)
  {
    var own := ItemsMeaning(env, n, items);
    if items == [] {
      assert own.triples == [];
    } else {
      ItemsAreScoped(env, n, items, Iri([]));
      CellsAreScoped(own.value, own.counter, 0, Iri([]));
      ScopedAvoids(own.triples, Iri([]), n, own.counter, own.counter, own.counter + |items|);
      WalkAround(before, own.triples, after, own.value, n, own.counter);
    }
  }

  lemma WalkAround(before: seq<Triple>, own: seq<Triple>, after: seq<Triple>, terms: seq<Term>, n: nat, base: nat)
    requires terms != [] && n <= base && Spares(own, base, base + |terms|)
    requires Spares(before, n, base + |terms|) && Spares(after, n, base + |terms|)
    ensures Lists(before + (own + ListTriples(terms, base, 0)) + after, ToTerm(Fresh(base + 1)), terms)
  {
    Narrow(before, n, base + |terms|, base, base + |terms|);
    Narrow(after, n, base + |terms|, base, base + |terms|);
    SparesBoth(before, own, base, base + |terms|);
    WalkFrom(before + own, terms, base, after, 0);
    assert terms[0..] == terms;
    assert before + own + ListTriples(terms, base, 0) + after == before + (own + ListTriples(terms, base, 0)) + after;
  }

  lemma Narrow(ts: seq<Triple>, lo: nat, hi: nat, lo1: nat, hi1: nat)
    requires Spares(ts, lo, hi) && lo <= lo1 && hi1 <= hi
    ensures Spares(ts, lo1, hi1)
  {
  }

  lemma SparesBoth(a: seq<Triple>, b: seq<Triple>, lo: nat, hi: nat)
    requires Spares(a, lo, hi) && Spares(b, lo, hi)
    ensures Spares(a + b, lo, hi)
  {
  }

  // --- the same for whole documents -----------------------------------------------------------

  // A statement's subject is either generated for it or not generated.
  lemma SubjectIsScoped(env: Env, n: nat, o: Obj)
    requires ValidSubject(env, o)
    ensures var m := SubjectMeaning(env, n, o);
            n <= m.counter && Scoped(m.triples, Iri([]), n, m.counter) && Own(m.value, Iri([]), n, m.counter)
  {
    if !o.Named? { ObjIsScoped(env, n, o, Iri([])); }
    match o
    case Properties(_) =>
      assert SubjectMeaning(env, n, o).value == Fresh(n + 1);
      PartsAreScoped(env, n + 1, Fresh(n + 1), o.parts);
      assert GeneratedIn(Fresh(n + 1), n, ObjMeaning(env, n, o).counter);
    case Items(items) =>
      if items != [] {
        ItemsAreScoped(env, n, items, Iri([]));
        var m := ItemsMeaning(env, n, items);
        assert SubjectMeaning(env, n, o).value == Fresh(m.counter + 1);
        assert GeneratedIn(Fresh(m.counter + 1), n, m.counter + |items|);
      }
    case Labelled(name) =>
      forall c: nat ensures BlankNode("u_" + name) != Fresh(c) { LabelsAreDistinct(c, c, name); }
    case Named(_) =>
  }

  lemma StmtIsScoped(env: Env, n: nat, s: Stmt)
    requires ValidStmt(env, s)
    ensures var m := StmtMeaning(env, n, s); n <= m.counter && Scoped(m.triples, Iri([]), n, m.counter)
  {
    if s.Triples? {
      var subject := SubjectMeaning(env, n, s.subject);
      var parts := PartsMeaning(env, subject.counter, subject.value, s.parts);
      SubjectIsScoped(env, n, s.subject);
      PartsAreScoped(env, subject.counter, subject.value, s.parts);
      Widen(subject.triples, Iri([]), n, subject.counter, n, parts.counter);
      OwnWidens(subject.value, Iri([]), n, subject.counter, n, parts.counter);
      Rehome(parts.triples, subject.value, subject.counter, parts.counter, n);
      Join(subject.triples, parts.triples, Iri([]), n, parts.counter);
    }
  }

  lemma Rehome(ts: seq<Triple>, subject: Resource, lo: nat, hi: nat, lo1: nat)
    requires Scoped(ts, subject, lo, hi) && lo1 <= lo && Own(subject, Iri([]), lo1, hi)
    ensures Scoped(ts, Iri([]), lo1, hi)
  {
    forall k | 0 <= k < |ts| ensures Own(ts[k].subject, Iri([]), lo1, hi) {
      if ts[k].subject != subject { OwnWidens(ts[k].subject, subject, lo, hi, lo1, hi); }
    }
  }

  // Every statement of a document speaks only of the labels generated in it: those
  // before it have smaller numbers, those after it larger ones.
  lemma {:induction false} DocIsScoped(env: Env, n: nat, doc: seq<Stmt>)
    requires ValidDoc(env, doc)
    ensures var m := DocMeaning(env, n, doc); n <= m.counter && Scoped(m.triples, Iri([]), n, m.counter)
    decreases |doc|
  {
    if doc != [] {
      var first := StmtMeaning(env, n, doc[0]);
      var env1 := EnvAfter(env, doc[0]);
      var rest := DocMeaning(env1, first.counter, doc[1..]);
      StmtIsScoped(env, n, doc[0]);
      DocIsScoped(env1, first.counter, doc[1..]);
      Widen(first.triples, Iri([]), n, first.counter, n, rest.counter);
      Widen(rest.triples, Iri([]), first.counter, rest.counter, n, rest.counter);
      Join(first.triples, rest.triples, Iri([]), n, rest.counter);
    }
  }
}
