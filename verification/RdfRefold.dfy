// Folding the same triples again: which vertex a placement holds after any fold, and
// that a second fold changes nothing.

module RdfRefold {
  import opened Common
  import opened RdfTerms
  import opened RdfModel
  import opened RdfFold
  import opened RdfGraph

  // The vertex a triple would store at a placement that is still empty.
  function FirstOf(h: Hash, o: Options, t: Triple, p: Placement): Option<Vertex> {
    if SubjectPlacement(h, o, t) == p then Some(TermVertex(h, o, ToTerm(t.subject)))
    else if HasEdge(o, t) && TermPlacement(h, o, t.obj) == p then Some(TermVertex(h, o, t.obj))
    else None
  }

  // The first such vertex over all triples.
  function FirstVertex(h: Hash, o: Options, ts: seq<Triple>, p: Placement): Option<Vertex> {
    if ts == [] then None
    else match FirstVertex(h, o, ts[..|ts| - 1], p)
      case Some(v) => Some(v)
      case None => FirstOf(h, o, ts[|ts| - 1], p)
  }

  predicate Sets(h: Hash, o: Options, t: Triple, p: Placement) { SetsProperty(o, t) && SubjectPlacement(h, o, t) == p }

  // The properties the triples give to a placement, later ones winning.
  function Assigned(h: Hash, o: Options, ts: seq<Triple>, p: Placement): map<string, string> {
    if ts == [] then map[]
    else
      var before := Assigned(h, o, ts[..|ts| - 1], p);
      var t := ts[|ts| - 1];
      if Sets(h, o, t, p) then before[t.pred := t.obj.value] else before
  }

  function Overlay(v: Vertex, properties: map<string, string>): Vertex {
    if properties == map[] then v else v.(properties := Some(Properties(v) + properties))
  }

  function Over(v: Option<Vertex>, properties: map<string, string>): Option<Vertex> {
    match v case None => None case Some(found) => Some(Overlay(found, properties))
  }

  function Either(a: Option<Vertex>, b: Option<Vertex>): Option<Vertex> { if a.Some? then a else b }

  lemma OverlaySnoc(v: Vertex, properties: map<string, string>, pred: string, value: string)
    ensures WithProperty(Overlay(v, properties), pred, value) == Overlay(v, properties[pred := value])
  {
    assert properties[pred := value] != map[] by { assert pred in properties[pred := value]; }
    if properties == map[] {
      assert Properties(v)[pred := value] == Properties(v) + properties[pred := value];
    } else {
      assert (Properties(v) + properties)[pred := value] == Properties(v) + properties[pred := value];
    }
  }

  lemma StoreFinds(h: Hash, o: Options, s: Store<Vertex>, t: Term, p: Placement)
    ensures Find(StoreTerm(h, o, s, t), p)
         == Either(Find(s, p), if TermPlacement(h, o, t) == p then Some(TermVertex(h, o, t)) else None)
  {
    PutFinds(s, TermPlacement(h, o, t), TermVertex(h, o, t), p);
  }

  // What one triple leaves at a placement.
  lemma TripleFinds(h: Hash, o: Options, s: Store<Vertex>, t: Triple, p: Placement)
    ensures var found := Either(Find(s, p), FirstOf(h, o, t, p));
            Find(FoldTriple(h, o, s, t), p)
            == if Sets(h, o, t, p) && found.Some? then Some(WithProperty(found.value, t.pred, t.obj.value)) else found
  {
    var s1 := StoreTerm(h, o, s, ToTerm(t.subject));
    StoreFinds(h, o, s, ToTerm(t.subject), p);
    if HasEdge(o, t) {
      StoreFinds(h, o, s1, t.obj, p);
    } else if SetsProperty(o, t) {
      var q := SubjectPlacement(h, o, t);
      StoredIsFound(h, o, s, ToTerm(t.subject));
      PutFinds(s1, q, WithProperty(Find(s1, q).value, t.pred, t.obj.value), p);
    }
  }

  // A placement that is given a property has a vertex.
  lemma {:induction false} AssignedIsStored(h: Hash, o: Options, ts: seq<Triple>, p: Placement)
    ensures Assigned(h, o, ts, p) != map[] ==> FirstVertex(h, o, ts, p).Some?
    decreases |ts|
  {
    if ts != [] { AssignedIsStored(h, o, ts[..|ts| - 1], p); }
  }

  // Main result: after any fold, a placement holds the vertex it had before, or else
  // the first one the triples give it, with the last value of every property.
  lemma {:induction false} FoldFinds(h: Hash, o: Options, s: Store<Vertex>, ts: seq<Triple>, p: Placement)
    ensures Find(FoldAll(h, o, s, ts), p) == Over(Either(Find(s, p), FirstVertex(h, o, ts, p)), Assigned(h, o, ts, p))
    decreases |ts|
  {
    if ts != [] {
      var before, t := ts[..|ts| - 1], ts[|ts| - 1];
      FoldFinds(h, o, s, before, p);
      TripleFinds(h, o, FoldAll(h, o, s, before), t, p);
      AssignedIsStored(h, o, before, p);
      var v := Either(Find(s, p), FirstVertex(h, o, ts, p));
      if v.Some? { OverlaySnoc(v.value, Assigned(h, o, before, p), t.pred, if t.obj.Literal? then t.obj.value else []); }
    }
  }

  lemma {:induction false} LastValueWins(h: Hash, o: Options, ts: seq<Triple>, p: Placement, i: nat)
    requires i < |ts| && Sets(h, o, ts[i], p)
    requires forall j :: i < j < |ts| && Sets(h, o, ts[j], p) ==> ts[j].pred != ts[i].pred
    ensures ts[i].pred in Assigned(h, o, ts, p) && Assigned(h, o, ts, p)[ts[i].pred] == ts[i].obj.value
    decreases |ts|
  {
    if i < |ts| - 1 { LastValueWins(h, o, ts[..|ts| - 1], p, i); }
  }

  // --- folding twice -----------------------------------------------------------------

  // No collection is empty, so a store is known by what is found in it.
  ghost predicate Tidy(s: Store<Vertex>) { forall c :: c in s ==> exists k :: k in s[c] }

  lemma PutIsTidy(s: Store<Vertex>, p: Placement, v: Vertex)
    requires Tidy(s)
    ensures Tidy(Put(s, p, v))
  {
    var s1 := Put(s, p, v);
    forall c | c in s1 ensures exists k :: k in s1[c] {
      if c == p.collection {
        assert p.key in s1[c];
      } else {
        var k :| k in s[c];
        assert k in s1[c];
      }
    }
  }

  lemma {:induction false} FoldIsTidy(h: Hash, o: Options, s: Store<Vertex>, ts: seq<Triple>)
    requires Tidy(s)
    ensures Tidy(FoldAll(h, o, s, ts))
    decreases |ts|
  {
    if ts != [] {
      FoldIsTidy(h, o, s, ts[..|ts| - 1]);
      TripleIsTidy(h, o, FoldAll(h, o, s, ts[..|ts| - 1]), ts[|ts| - 1]);
    }
  }

  lemma TripleIsTidy(h: Hash, o: Options, s: Store<Vertex>, t: Triple)
    requires Tidy(s)
    ensures Tidy(FoldTriple(h, o, s, t))
  {
    var u := ToTerm(t.subject);
    var s1 := StoreTerm(h, o, s, u);
    PutIsTidy(s, TermPlacement(h, o, u), TermVertex(h, o, u));
    if HasEdge(o, t) {
      PutIsTidy(s1, TermPlacement(h, o, t.obj), TermVertex(h, o, t.obj));
    } else if SetsProperty(o, t) {
      var p := SubjectPlacement(h, o, t);
      StoredIsFound(h, o, s, u);
      PutIsTidy(s1, p, WithProperty(Find(s1, p).value, t.pred, t.obj.value));
    }
  }

  lemma SameFinds(a: Store<Vertex>, b: Store<Vertex>)
    requires Tidy(a) && Tidy(b) && forall p :: Find(a, p) == Find(b, p)
    ensures a == b
  {
    Within(a, b);
    Within(b, a);
  }

  // Every collection of the first store is in the second, with the same documents.
  lemma Within(a: Store<Vertex>, b: Store<Vertex>)
    requires Tidy(a) && forall p :: Find(a, p) == Find(b, p)
    ensures forall c :: c in a ==> c in b && a[c] == b[c]
  {
    forall c | c in a ensures c in b && a[c] == b[c] {
      var k :| k in a[c];
      assert Find(a, Placement(c, k)).Some?;
      forall j ensures (j in a[c] <==> j in b[c]) && (j in a[c] ==> a[c][j] == b[c][j]) {
        assert Find(a, Placement(c, j)) == Find(b, Placement(c, j));
      }
    }
  }

  lemma OverlayTwice(v: Vertex, properties: map<string, string>)
    ensures Overlay(Overlay(v, properties), properties) == Overlay(v, properties)
  {
    assert Properties(v) + properties + properties == Properties(v) + properties;
  }

  // Main result: folding the whole list a second time leaves the vertices as they
  // are. The edges do not depend on the store, so they are the same ones.
  lemma SecondFoldChangesNothing(h: Hash, o: Options, s: Store<Vertex>, ts: seq<Triple>)
    requires Tidy(s)
    ensures FoldAll(h, o, FoldAll(h, o, s, ts), ts) == FoldAll(h, o, s, ts)
  {
    var once := FoldAll(h, o, s, ts);
    FoldIsTidy(h, o, s, ts);
    FoldIsTidy(h, o, once, ts);
    forall p ensures Find(FoldAll(h, o, once, ts), p) == Find(once, p) {
      FoldFinds(h, o, s, ts, p);
      FoldFinds(h, o, once, ts, p);
      var v := Either(Find(s, p), FirstVertex(h, o, ts, p));
      if v.Some? { OverlayTwice(v.value, Assigned(h, o, ts, p)); }
    }
    SameFinds(FoldAll(h, o, once, ts), once);
  }

  // The same for the edge buffers: the second run's edges are all there already.
  lemma {:induction false} BufferedStays(s: Store<Edge>, es: seq<BuiltEdge>, p: Placement)
    ensures Find(s, p).Some? ==> Find(BufferAll(s, es), p) == Find(s, p)
    ensures forall k :: 0 <= k < |es| && Placement(es[k].collection, es[k].document.key) == p ==> Find(BufferAll(s, es), p).Some?
    decreases |es|
  {
    if es != [] {
      var before, e := es[..|es| - 1], es[|es| - 1];
      BufferedStays(s, before, p);
      PutFinds(BufferAll(s, before), Placement(e.collection, e.document.key), e.document, p);
      forall k | 0 <= k < |es| && Placement(es[k].collection, es[k].document.key) == p ensures Find(BufferAll(s, es), p).Some? {
        if k < |es| - 1 { assert before[k] == es[k]; }
      }
    }
  }

  lemma {:induction false} KnownEdgesChangeNothing(s: Store<Edge>, es: seq<BuiltEdge>)
    requires forall k :: 0 <= k < |es| ==> Find(s, Placement(es[k].collection, es[k].document.key)).Some?
    ensures BufferAll(s, es) == s
    decreases |es|
  {
    if es != [] {
      var before := es[..|es| - 1];
      assert forall k :: 0 <= k < |before| ==> before[k] == es[k];
      KnownEdgesChangeNothing(s, before);
    }
  }

  lemma SecondBufferChangesNothing(s: Store<Edge>, es: seq<BuiltEdge>)
    ensures BufferAll(BufferAll(s, es), es) == BufferAll(s, es)
  {
    forall k | 0 <= k < |es| ensures Find(BufferAll(s, es), Placement(es[k].collection, es[k].document.key)).Some? {
      BufferedStays(s, es, Placement(es[k].collection, es[k].document.key));
    }
    KnownEdgesChangeNothing(BufferAll(s, es), es);
  }
}
