// Which statements share an edge key, and what an edge's endpoint ids tell.

module RdfEdgeKeys {
  import opened Common
  import opened RdfTerms
  import opened RdfModel
  import opened RdfFold
  import opened RdfGraph

  // --- ids ---------------------------------------------------------------------------

  // The part of an id behind its last slash.
  function KeyPart(id: string): (k: string)
    ensures |k| <= |id|
  {
    if id == [] || id[|id| - 1] == '/' then [] else KeyPart(id[..|id| - 1]) + [id[|id| - 1]]
  }

  function SplitId(id: string): Option<Placement> {
    var key := KeyPart(id);
    if |key| == |id| then None else Some(Placement(id[..|id| - |key| - 1], key))
  }

  lemma {:induction false} KeyReadsBack(front: string, key: string)
    requires '/' !in key
    ensures KeyPart(front + (['/'] + key)) == key
    decreases |key|
  {
    var id := front + (['/'] + key);
    if key != [] {
      KeyReadsBack(front, key[..|key| - 1]);
      assert id[..|id| - 1] == front + (['/'] + key[..|key| - 1]);
    }
  }

  lemma IdReadsBack(p: Placement)
    requires '/' !in p.key
    ensures SplitId(Id(p)) == Some(p)
  {
    KeyReadsBack(p.collection, p.key);
    assert Id(p)[..|Id(p)| - |p.key| - 1] == p.collection;
  }

  lemma PlacedKeyIsHex(h: Hash, o: Options, t: Term)
    requires Ideal(h)
    ensures '/' !in TermPlacement(h, o, t).key && NulFree(TermPlacement(h, o, t).key)
  {
    assert IsHexText(TermPlacement(h, o, t).key);
  }

  lemma IdIsNulFree(h: Hash, o: Options, t: Term)
    requires Ideal(h) && NulFree(o.vertexCollection)
    ensures NulFree(Id(TermPlacement(h, o, t)))
  {
    PlacedKeyIsHex(h, o, t);
    assert NulFree(TermPlacement(h, o, t).collection) by { SuffixesAreNulFree(); }
  }

  lemma SuffixesAreNulFree()
    ensures NulFree("_URIRef") && NulFree("_BNode") && NulFree("_Literal")
  {
  }

  lemma IdsExactly(h: Hash, o: Options, a: Term, b: Term)
    requires Ideal(h)
    ensures Id(TermPlacement(h, o, a)) == Id(TermPlacement(h, o, b)) <==> SameVertex(a, b)
  {
    PlacedKeyIsHex(h, o, a);
    PlacedKeyIsHex(h, o, b);
    IdReadsBack(TermPlacement(h, o, a));
    IdReadsBack(TermPlacement(h, o, b));
    TermsShareVertexExactly(h, o, a, b);
  }

  // --- what an edge key is made from ----------------------------------------------------

  function GraphTail(graph: Option<string>): string { if graph.Some? then [NUL] + graph.value else [] }

  // What is hashed behind the predicate, and behind the source.
  function BehindPred(h: Hash, o: Options, t: Triple): string {
    Id(TermPlacement(h, o, t.obj)) + GraphTail(TrackedGraph(o, t.graph))
  }

  function BehindSource(h: Hash, o: Options, t: Triple): string { t.pred + ([NUL] + BehindPred(h, o, t)) }

  function KeyOfEdge(h: Hash, o: Options, t: Triple): string { EdgeOf(h, o, t).document.key }

  lemma EdgePreimage(source: string, pred: string, target: string, graph: Option<string>)
    ensures Preimage("rdf:edge", EdgeParts(source, pred, target, graph))
         == "rdf:edge" + [NUL] + (source + ([NUL] + (pred + ([NUL] + (target + GraphTail(graph))))))
  {
    var g := if graph.Some? then [graph.value] else [];
    assert [source, pred, target] + g == [source] + ([pred] + ([target] + g));
    assert ([source] + ([pred] + ([target] + g)))[1..] == [pred] + ([target] + g);
    assert ([pred] + ([target] + g))[1..] == [target] + g && ([target] + g)[1..] == g;
    assert graph.Some? ==> g[1..] == [] && graph.value + [] == graph.value;
    assert Separated(g) == GraphTail(graph);
    assert Separated([target] + g) == [NUL] + (target + GraphTail(graph));
    assert Separated([pred] + ([target] + g)) == [NUL] + (pred + ([NUL] + (target + GraphTail(graph))));
  }

  // The source is always told; of the rest only the whole text is.
  lemma EdgeKeysByText(h: Hash, o: Options, t: Triple, u: Triple)
    requires Ideal(h) && NulFree(o.vertexCollection)
    ensures KeyOfEdge(h, o, t) == KeyOfEdge(h, o, u) <==> t.subject == u.subject && BehindSource(h, o, t) == BehindSource(h, o, u)
  {
    var e, f := EdgeOf(h, o, t).document, EdgeOf(h, o, u).document;
    EdgePreimage(e.source, e.pred, e.target, e.graph);
    EdgePreimage(f.source, f.pred, f.target, f.graph);
    Cancel("rdf:edge" + [NUL], e.source + ([NUL] + BehindSource(h, o, t)), f.source + ([NUL] + BehindSource(h, o, u)));
    IdIsNulFree(h, o, ToTerm(t.subject));
    IdIsNulFree(h, o, ToTerm(u.subject));
    FirstPartTells(e.source, BehindSource(h, o, t), f.source, BehindSource(h, o, u));
    IdsExactly(h, o, ToTerm(t.subject), ToTerm(u.subject));
    assert SameVertex(ToTerm(t.subject), ToTerm(u.subject)) <==> t.subject == u.subject;
  }

  // Statements that an edge does not tell apart: their objects share a vertex.
  predicate SameStatement(o: Options, t: Triple, u: Triple) {
    t.subject == u.subject && t.pred == u.pred && SameVertex(t.obj, u.obj) && TrackedGraph(o, t.graph) == TrackedGraph(o, u.graph)
  }

  lemma BehindPredExactly(h: Hash, o: Options, t: Triple, u: Triple)
    requires Ideal(h) && NulFree(o.vertexCollection)
    ensures BehindPred(h, o, t) == BehindPred(h, o, u)
       <==> SameVertex(t.obj, u.obj) && TrackedGraph(o, t.graph) == TrackedGraph(o, u.graph)
  {
    var x, y := Id(TermPlacement(h, o, t.obj)), Id(TermPlacement(h, o, u.obj));
    var f, g := TrackedGraph(o, t.graph), TrackedGraph(o, u.graph);
    IdIsNulFree(h, o, t.obj);
    IdIsNulFree(h, o, u.obj);
    FieldReadsBack(x, GraphTail(f));
    FieldReadsBack(y, GraphTail(g));
    IdsExactly(h, o, t.obj, u.obj);
    if x + GraphTail(f) == y + GraphTail(g) {
      Cancel(x, GraphTail(f), GraphTail(g));
      if f.Some? && g.Some? { Cancel([NUL], f.value, g.value); }
    }
  }

  // --- predicates that run into each other -------------------------------------------------

  // The one predicate continues behind the other with the id of a vertex.
  ghost predicate RunsInto(h: Hash, o: Options, p: string, q: string) {
    exists x :: q + ([NUL] + (Id(TermPlacement(h, o, x)) + [NUL])) <= p + [NUL]
  }

  ghost predicate EdgeKeysClash(h: Hash, o: Options, p: string, q: string) {
    exists t: Triple, u: Triple :: t.pred == p && u.pred == q && KeyOfEdge(h, o, t) == KeyOfEdge(h, o, u) && !SameStatement(o, t, u)
  }

  lemma EqualPredsDoNotClash(h: Hash, o: Options, t: Triple, u: Triple)
    requires Ideal(h) && NulFree(o.vertexCollection)
    requires KeyOfEdge(h, o, t) == KeyOfEdge(h, o, u) && t.pred == u.pred
    ensures SameStatement(o, t, u)
  {
    EdgeKeysByText(h, o, t, u);
    CancelWithNul(t.pred, BehindPred(h, o, t), BehindPred(h, o, u));
    BehindPredExactly(h, o, t, u);
  }

  lemma CancelWithNul(front: string, a: string, b: string)
    requires front + ([NUL] + a) == front + ([NUL] + b)
    ensures a == b
  {
    Cancel(front, [NUL] + a, [NUL] + b);
    Cancel([NUL], a, b);
  }

  // Two cuts of one text: the id behind the earlier one lies within the longer predicate.
  lemma LaterCut(text: string, p: string, b: string, q: string, id: string, tail: string)
    requires text == p + ([NUL] + b) && text == q + ([NUL] + (id + tail)) && |p| >= |q| && p != q
    requires NulFree(id) && (tail == [] || tail[0] == NUL)
    ensures tail != [] && q + ([NUL] + (id + [NUL])) <= p + [NUL]
  {
    assert p == text[..|p|] && q == text[..|q|];
    var front := q + ([NUL] + id);
    assert text == front + tail;
    assert text[|p|] == NUL && forall j :: |q| < j < |front| ==> text[j] == id[j - |q| - 1];
    assert |p| >= |front|;
    assert text[|front|] == NUL;
    assert text[..|front| + 1] == q + ([NUL] + (id + [NUL]));
    assert text[..|p| + 1] == p + [NUL];
    assert text[..|front| + 1] == text[..|p| + 1][..|front| + 1];
  }

  lemma ClashRuns(h: Hash, o: Options, t: Triple, u: Triple)
    requires Ideal(h) && NulFree(o.vertexCollection)
    requires KeyOfEdge(h, o, t) == KeyOfEdge(h, o, u) && t.pred != u.pred && |t.pred| >= |u.pred|
    ensures !o.namedGraph.Ignore? && RunsInto(h, o, t.pred, u.pred)
  {
    EdgeKeysByText(h, o, t, u);
    IdIsNulFree(h, o, u.obj);
    LaterCut(BehindSource(h, o, t), t.pred, BehindPred(h, o, t), u.pred,
      Id(TermPlacement(h, o, u.obj)), GraphTail(TrackedGraph(o, u.graph)));
  }

  // The longer predicate with its object's id, cut where the shorter one ends.
  lemma EarlierCut(p: string, q: string, id: string, end: string) returns (graph: string)
    requires q + ([NUL] + (id + [NUL])) <= p + [NUL]
    ensures p + ([NUL] + end) == q + ([NUL] + (id + ([NUL] + graph))) && |p| > |q|
  {
    var front, text := q + ([NUL] + (id + [NUL])), p + ([NUL] + end);
    assert text[..|p| + 1] == p + [NUL];
    assert text[..|front|] == text[..|p| + 1][..|front|] == front;
    graph := text[|front|..];
    assert text == front + graph;
    assert front + graph == q + ([NUL] + (id + ([NUL] + graph)));
  }

  lemma CutsClash(h: Hash, o: Options, t: Triple, u: Triple)
    requires Ideal(h) && NulFree(o.vertexCollection) && t.subject == u.subject && t.pred != u.pred
    requires BehindSource(h, o, t) == BehindSource(h, o, u)
    ensures EdgeKeysClash(h, o, t.pred, u.pred)
  {
    EdgeKeysByText(h, o, t, u);
    assert KeyOfEdge(h, o, t) == KeyOfEdge(h, o, u) && !SameStatement(o, t, u);
  }

  lemma RunsClash(h: Hash, o: Options, p: string, q: string)
    requires Ideal(h) && NulFree(o.vertexCollection) && !o.namedGraph.Ignore? && RunsInto(h, o, p, q)
    ensures EdgeKeysClash(h, o, p, q)
  {
    var x :| q + ([NUL] + (Id(TermPlacement(h, o, x)) + [NUL])) <= p + [NUL];
    var end := Id(TermPlacement(h, o, IriTerm([])));
    var graph := EarlierCut(p, q, Id(TermPlacement(h, o, x)), end);
    assert end + [] == end;
    CutsClash(h, o, Triple(Iri([]), p, IriTerm([]), None), Triple(Iri([]), q, x, Some(graph)));
  }

  // Main result: statements with these predicates can share an edge key though they
  // differ if and only if graphs are tracked and one predicate runs into the other.
  lemma EdgeKeysClashExactly(h: Hash, o: Options, p: string, q: string)
    requires Ideal(h) && NulFree(o.vertexCollection)
    ensures EdgeKeysClash(h, o, p, q) <==> !o.namedGraph.Ignore? && (RunsInto(h, o, p, q) || RunsInto(h, o, q, p))
  {
    if EdgeKeysClash(h, o, p, q) {
      var t: Triple, u: Triple :| t.pred == p && u.pred == q && KeyOfEdge(h, o, t) == KeyOfEdge(h, o, u) && !SameStatement(o, t, u);
      if p == q { EqualPredsDoNotClash(h, o, t, u); }
      else if |p| >= |q| { ClashRuns(h, o, t, u); }
      else { ClashRuns(h, o, u, t); }
    }
    if !o.namedGraph.Ignore? && RunsInto(h, o, p, q) { RunsClash(h, o, p, q); }
    if !o.namedGraph.Ignore? && RunsInto(h, o, q, p) {
      RunsClash(h, o, q, p);
      var t: Triple, u: Triple :| t.pred == q && u.pred == p && KeyOfEdge(h, o, t) == KeyOfEdge(h, o, u) && !SameStatement(o, t, u);
      assert !SameStatement(o, u, t);
    }
  }

  lemma RunningHoldsNul(h: Hash, o: Options, p: string, q: string)
    requires RunsInto(h, o, p, q)
    ensures !NulFree(p)
  {
    var x :| q + ([NUL] + (Id(TermPlacement(h, o, x)) + [NUL])) <= p + [NUL];
    var front := q + ([NUL] + (Id(TermPlacement(h, o, x)) + [NUL]));
    assert front[|q|] == NUL && (p + [NUL])[|q|] == p[|q|];
  }

  // For instance any predicate and the same with a vertex id behind a NUL.
  lemma IdBehindRuns(h: Hash, o: Options, pred: string, x: Term)
    ensures RunsInto(h, o, pred + ([NUL] + Id(TermPlacement(h, o, x))), pred)
  {
    var id := Id(TermPlacement(h, o, x));
    assert pred + ([NUL] + (id + [NUL])) == pred + ([NUL] + id) + [NUL];
  }

  // So two statements share an edge key exactly when they are the same as far as edges
  // tell, when graphs are not tracked or predicates hold no NUL.
  lemma EdgeKeysExactly(h: Hash, o: Options, t: Triple, u: Triple)
    requires Ideal(h) && NulFree(o.vertexCollection) && (o.namedGraph.Ignore? || (NulFree(t.pred) && NulFree(u.pred)))
    ensures KeyOfEdge(h, o, t) == KeyOfEdge(h, o, u) <==> SameStatement(o, t, u)
  {
    if SameStatement(o, t, u) {
      IdsExactly(h, o, t.obj, u.obj);
    } else if KeyOfEdge(h, o, t) == KeyOfEdge(h, o, u) {
      EdgeKeysClashExactly(h, o, t.pred, u.pred);
      assert EdgeKeysClash(h, o, t.pred, u.pred);
      if RunsInto(h, o, t.pred, u.pred) { RunningHoldsNul(h, o, t.pred, u.pred); }
      if RunsInto(h, o, u.pred, t.pred) { RunningHoldsNul(h, o, u.pred, t.pred); }
    }
  }
}
