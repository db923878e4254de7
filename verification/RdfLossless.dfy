// Decoding the stored graph: exactly when the statements that have an edge can be read
// back from the edges and their endpoints.

module RdfLossless {
  import opened Common
  import opened RdfTerms
  import opened RdfModel
  import opened RdfFold
  import opened RdfGraph
  import opened RdfRefold
  import opened RdfEdgeKeys

  // --- reading an edge back ------------------------------------------------------------

  function VertexAt(vs: Store<Vertex>, id: string): Option<Base> {
    match SplitId(id)
    case None => None
    case Some(p) => match Find(vs, p) case None => None case Some(v) => Some(v.base)
  }

  function DecodeResource(b: Base): Option<Resource> {
    match b case IriBase(iri) => Some(Iri(iri)) case BlankBase(name, _) => Some(BlankNode(name)) case LiteralBase(_, _, _) => None
  }

  function DecodeTerm(b: Base): Term {
    match b
    case IriBase(iri) => IriTerm(iri)
    case BlankBase(name, _) => BlankTerm(name)
    case LiteralBase(value, datatypeIri, language) => Literal(value, datatypeIri, language)
  }

  function Decode(vs: Store<Vertex>, e: Edge): Option<Triple> {
    match (VertexAt(vs, e.source), VertexAt(vs, e.target))
    case (Some(source), Some(target)) =>
      (match DecodeResource(source) case None => None case Some(subject) => Some(Triple(subject, e.pred, DecodeTerm(target), e.graph)))
    case _ => None
  }

  lemma SubjectIsItsTerm(h: Hash, o: Options, t: Triple)
    ensures SubjectPlacement(h, o, t) == TermPlacement(h, o, ToTerm(t.subject))
    ensures DecodeResource(TermBase(o, ToTerm(t.subject))) == Some(t.subject)
    ensures DecodeTerm(TermBase(o, t.obj)) == t.obj
  {
  }

  // A statement as far as the options record it.
  function Seen(o: Options, t: Triple): Triple { t.(graph := TrackedGraph(o, t.graph)) }

  // --- which term a vertex is for ---------------------------------------------------------

  // The triple gives the term a vertex.
  predicate Gives(o: Options, t: Triple, u: Term) { ToTerm(t.subject) == u || (HasEdge(o, t) && t.obj == u) }

  // A vertex is for a term that belongs there and that some triple gives a vertex.
  lemma {:induction false} FirstVertexIsGiven(h: Hash, o: Options, ts: seq<Triple>, p: Placement)
    requires FirstVertex(h, o, ts, p).Some?
    ensures exists i, u :: 0 <= i < |ts| && Gives(o, ts[i], u) && TermPlacement(h, o, u) == p
                           && FirstVertex(h, o, ts, p).value.base == TermBase(o, u)
    decreases |ts|
  {
    var before, t := ts[..|ts| - 1], ts[|ts| - 1];
    if FirstVertex(h, o, before, p).Some? {
      FirstVertexIsGiven(h, o, before, p);
      var i, u :| 0 <= i < |before| && Gives(o, before[i], u) && TermPlacement(h, o, u) == p
                  && FirstVertex(h, o, before, p).value.base == TermBase(o, u);
      assert Gives(o, ts[i], u);
    } else {
      SubjectIsItsTerm(h, o, t);
      assert Gives(o, t, if SubjectPlacement(h, o, t) == p then ToTerm(t.subject) else t.obj);
    }
  }

  lemma VertexIsGiven(h: Hash, o: Options, ts: seq<Triple>, p: Placement)
    requires Find(FoldAll(h, o, map[], ts), p).Some?
    ensures exists i, u :: 0 <= i < |ts| && Gives(o, ts[i], u) && TermPlacement(h, o, u) == p
                           && Find(FoldAll(h, o, map[], ts), p).value.base == TermBase(o, u)
  {
    FoldFinds(h, o, map[], ts, p);
    FirstVertexIsGiven(h, o, ts, p);
  }

  // Literals that have vertices of their own and are written with the same text are equal.
  ghost predicate LiteralsApart(o: Options, ts: seq<Triple>) {
    forall i, j :: 0 <= i < |ts| && 0 <= j < |ts| && HasEdge(o, ts[i]) && HasEdge(o, ts[j]) && SameVertex(ts[i].obj, ts[j].obj)
                   ==> ts[i].obj == ts[j].obj
  }

  lemma GivenApart(o: Options, ts: seq<Triple>, i: nat, u: Term, j: nat, v: Term)
    requires LiteralsApart(o, ts) && i < |ts| && j < |ts| && Gives(o, ts[i], u) && Gives(o, ts[j], v) && SameVertex(u, v)
    ensures u == v
  {
  }

  // Then the vertex of a term says exactly that term.
  lemma VertexIsRight(h: Hash, o: Options, ts: seq<Triple>, i: nat, u: Term)
    requires Ideal(h) && LiteralsApart(o, ts) && i < |ts| && Gives(o, ts[i], u)
    requires Find(FoldAll(h, o, map[], ts), TermPlacement(h, o, u)).Some?
    ensures VertexAt(FoldAll(h, o, map[], ts), Id(TermPlacement(h, o, u))) == Some(TermBase(o, u))
  {
    var p := TermPlacement(h, o, u);
    VertexIsGiven(h, o, ts, p);
    var j, v :| 0 <= j < |ts| && Gives(o, ts[j], v) && TermPlacement(h, o, v) == p
                && Find(FoldAll(h, o, map[], ts), p).value.base == TermBase(o, v);
    TermsShareVertexExactly(h, o, u, v);
    GivenApart(o, ts, i, u, j, v);
    PlacedKeyIsHex(h, o, u);
    IdReadsBack(p);
  }

  // --- edges decode to their statements ------------------------------------------------------

  lemma {:induction false} BothEndsStored(h: Hash, o: Options, ts: seq<Triple>, i: nat)
    requires i < |ts| && HasEdge(o, ts[i])
    ensures var s := FoldAll(h, o, map[], ts);
            Find(s, SubjectPlacement(h, o, ts[i])).Some? && Find(s, TermPlacement(h, o, ts[i].obj)).Some?
    decreases |ts|
  {
    var before := ts[..|ts| - 1];
    TripleExtends(h, o, FoldAll(h, o, map[], before), ts[|ts| - 1]);
    if i < |ts| - 1 {
      assert before[i] == ts[i];
      BothEndsStored(h, o, before, i);
    }
  }

  lemma StatementDecodes(h: Hash, o: Options, ts: seq<Triple>, i: nat)
    requires Ideal(h) && LiteralsApart(o, ts) && i < |ts| && HasEdge(o, ts[i])
    ensures Decode(FoldAll(h, o, map[], ts), EdgeOf(h, o, ts[i]).document) == Some(Seen(o, ts[i]))
  {
    BothEndsStored(h, o, ts, i);
    SubjectIsItsTerm(h, o, ts[i]);
    VertexIsRight(h, o, ts, i, ToTerm(ts[i].subject));
    VertexIsRight(h, o, ts, i, ts[i].obj);
  }

  // --- the stored edges -----------------------------------------------------------------------

  function EdgePlace(h: Hash, o: Options, t: Triple): Placement {
    Placement(EdgeOf(h, o, t).collection, EdgeOf(h, o, t).document.key)
  }

  function EdgesStored(h: Hash, o: Options, ts: seq<Triple>): Store<Edge> { BufferAll(map[], EdgesOf(h, o, ts)) }

  // Every stored edge is the edge of a statement, at its place.
  lemma {:induction false} StoredEdgeHasStatement(h: Hash, o: Options, ts: seq<Triple>, p: Placement)
    requires Find(EdgesStored(h, o, ts), p).Some?
    ensures exists i :: 0 <= i < |ts| && HasEdge(o, ts[i]) && EdgePlace(h, o, ts[i]) == p
                        && Find(EdgesStored(h, o, ts), p).value == EdgeOf(h, o, ts[i]).document
    decreases |ts|
  {
    if ts != [] {
      var before, t := ts[..|ts| - 1], ts[|ts| - 1];
      EdgesStoredSnoc(h, o, ts);
      PutFinds(EdgesStored(h, o, before), EdgePlace(h, o, t), EdgeOf(h, o, t).document, p);
      if Find(EdgesStored(h, o, before), p).Some? {
        StoredEdgeHasStatement(h, o, before, p);
        var i :| 0 <= i < |before| && HasEdge(o, before[i]) && EdgePlace(h, o, before[i]) == p
                 && Find(EdgesStored(h, o, before), p).value == EdgeOf(h, o, before[i]).document;
        assert ts[i] == before[i];
      }
    }
  }

  lemma EdgesStoredSnoc(h: Hash, o: Options, ts: seq<Triple>)
    requires ts != []
    ensures var before, t := ts[..|ts| - 1], ts[|ts| - 1];
            EdgesStored(h, o, ts) == if HasEdge(o, t) then BufferEdge(EdgesStored(h, o, before), EdgeOf(h, o, t))
                                     else EdgesStored(h, o, before)
  {
    BufferAllSnoc(map[], EdgesOf(h, o, ts[..|ts| - 1]), EdgeOf(h, o, ts[|ts| - 1]));
  }

  // Every statement's place holds an edge.
  lemma {:induction false} StatementHasStoredEdge(h: Hash, o: Options, ts: seq<Triple>, i: nat)
    requires i < |ts| && HasEdge(o, ts[i])
    ensures Find(EdgesStored(h, o, ts), EdgePlace(h, o, ts[i])).Some?
    decreases |ts|
  {
    var before, t := ts[..|ts| - 1], ts[|ts| - 1];
    EdgesStoredSnoc(h, o, ts);
    PutFinds(EdgesStored(h, o, before), EdgePlace(h, o, t), EdgeOf(h, o, t).document, EdgePlace(h, o, ts[i]));
    if i < |ts| - 1 {
      assert before[i] == ts[i];
      StatementHasStoredEdge(h, o, before, i);
    }
  }

  // Statements whose edges go to the same place are recorded as the same.
  ghost predicate EdgesApart(h: Hash, o: Options, ts: seq<Triple>) {
    forall i, j :: 0 <= i < |ts| && 0 <= j < |ts| && HasEdge(o, ts[i]) && HasEdge(o, ts[j])
                   && EdgePlace(h, o, ts[i]) == EdgePlace(h, o, ts[j])
                   ==> Seen(o, ts[i]) == Seen(o, ts[j])
  }

  lemma SeenTellsEdge(h: Hash, o: Options, t: Triple, u: Triple)
    requires Seen(o, t) == Seen(o, u)
    ensures EdgeOf(h, o, t) == EdgeOf(h, o, u)
  {
    assert t.subject == Seen(o, t).subject && t.pred == Seen(o, t).pred && t.obj == Seen(o, t).obj;
    assert u.subject == Seen(o, u).subject && u.pred == Seen(o, u).pred && u.obj == Seen(o, u).obj;
    assert TrackedGraph(o, t.graph) == Seen(o, t).graph == Seen(o, u).graph == TrackedGraph(o, u.graph);
  }

  // --- what is read back ------------------------------------------------------------------------

  // Some stored edge, read through its endpoints, is this statement.
  ghost predicate ReadsBack(vs: Store<Vertex>, es: Store<Edge>, t: Triple) {
    exists p :: Find(es, p).Some? && Decode(vs, Find(es, p).value) == Some(t)
  }

  ghost predicate Stated(o: Options, ts: seq<Triple>, t: Triple) {
    exists i :: 0 <= i < |ts| && HasEdge(o, ts[i]) && Seen(o, ts[i]) == t
  }

  // The statements read back are those made.
  ghost predicate Lossless(h: Hash, o: Options, ts: seq<Triple>) {
    forall t :: ReadsBack(FoldAll(h, o, map[], ts), EdgesStored(h, o, ts), t) <==> Stated(o, ts, t)
  }

  // Under both conditions nothing is added,
  lemma ReadIsStated(h: Hash, o: Options, ts: seq<Triple>, t: Triple)
    requires Ideal(h) && LiteralsApart(o, ts) && ReadsBack(FoldAll(h, o, map[], ts), EdgesStored(h, o, ts), t)
    ensures Stated(o, ts, t)
  {
    var vs, es := FoldAll(h, o, map[], ts), EdgesStored(h, o, ts);
    var p :| Find(es, p).Some? && Decode(vs, Find(es, p).value) == Some(t);
    StoredEdgeHasStatement(h, o, ts, p);
    var i :| 0 <= i < |ts| && HasEdge(o, ts[i]) && EdgePlace(h, o, ts[i]) == p && Find(es, p).value == EdgeOf(h, o, ts[i]).document;
    StatementDecodes(h, o, ts, i);
  }

  // and nothing is lost.
  lemma StatedIsRead(h: Hash, o: Options, ts: seq<Triple>, t: Triple)
    requires Ideal(h) && LiteralsApart(o, ts) && EdgesApart(h, o, ts) && Stated(o, ts, t)
    ensures ReadsBack(FoldAll(h, o, map[], ts), EdgesStored(h, o, ts), t)
  {
    var vs, es := FoldAll(h, o, map[], ts), EdgesStored(h, o, ts);
    var i :| 0 <= i < |ts| && HasEdge(o, ts[i]) && Seen(o, ts[i]) == t;
    var p := EdgePlace(h, o, ts[i]);
    StatementHasStoredEdge(h, o, ts, i);
    StoredEdgeHasStatement(h, o, ts, p);
    var j :| 0 <= j < |ts| && HasEdge(o, ts[j]) && EdgePlace(h, o, ts[j]) == p && Find(es, p).value == EdgeOf(h, o, ts[j]).document;
    StatementDecodes(h, o, ts, j);
    assert Decode(vs, Find(es, p).value) == Some(t);
  }

  // What is read back has its own object at its object's vertex.
  lemma ReadObjectIsStored(h: Hash, o: Options, ts: seq<Triple>, t: Triple)
    requires Ideal(h) && ReadsBack(FoldAll(h, o, map[], ts), EdgesStored(h, o, ts), t)
    ensures var found := Find(FoldAll(h, o, map[], ts), TermPlacement(h, o, t.obj));
            found.Some? && found.value.base == TermBase(o, t.obj)
  {
    var vs, es := FoldAll(h, o, map[], ts), EdgesStored(h, o, ts);
    var p :| Find(es, p).Some? && Decode(vs, Find(es, p).value) == Some(t);
    StoredEdgeHasStatement(h, o, ts, p);
    var i :| 0 <= i < |ts| && HasEdge(o, ts[i]) && EdgePlace(h, o, ts[i]) == p && Find(es, p).value == EdgeOf(h, o, ts[i]).document;
    var q := TermPlacement(h, o, ts[i].obj);
    PlacedKeyIsHex(h, o, ts[i].obj);
    IdReadsBack(q);
    VertexIsGiven(h, o, ts, q);
    var j, u :| 0 <= j < |ts| && Gives(o, ts[j], u) && TermPlacement(h, o, u) == q && Find(vs, q).value.base == TermBase(o, u);
    BaseTellsTerm(o, u, t.obj);
  }

  lemma BaseTellsTerm(o: Options, a: Term, b: Term)
    ensures DecodeTerm(TermBase(o, a)) == a
    ensures TermBase(o, a) == TermBase(o, b) ==> a == b
  {
  }

  // Where two different literals have one vertex, one of them is lost.
  lemma MergedLiteralIsLost(h: Hash, o: Options, ts: seq<Triple>)
    requires Ideal(h) && !LiteralsApart(o, ts)
    ensures !Lossless(h, o, ts)
  {
    var i, j :| 0 <= i < |ts| && 0 <= j < |ts| && HasEdge(o, ts[i]) && HasEdge(o, ts[j]) && SameVertex(ts[i].obj, ts[j].obj)
                && ts[i].obj != ts[j].obj;
    TermsShareVertexExactly(h, o, ts[i].obj, ts[j].obj);
    BaseTellsTerm(o, ts[i].obj, ts[j].obj);
    assert Stated(o, ts, Seen(o, ts[i])) && Stated(o, ts, Seen(o, ts[j]));
    if Lossless(h, o, ts) {
      ReadObjectIsStored(h, o, ts, Seen(o, ts[i]));
      ReadObjectIsStored(h, o, ts, Seen(o, ts[j]));
      assert false;
    }
  }

  // Where the edges of two different statements go to one place, one of them is lost.
  lemma MergedEdgeIsLost(h: Hash, o: Options, ts: seq<Triple>)
    requires Ideal(h) && LiteralsApart(o, ts) && !EdgesApart(h, o, ts)
    ensures !Lossless(h, o, ts)
  {
    var i, j :| 0 <= i < |ts| && 0 <= j < |ts| && HasEdge(o, ts[i]) && HasEdge(o, ts[j])
                && EdgePlace(h, o, ts[i]) == EdgePlace(h, o, ts[j]) && Seen(o, ts[i]) != Seen(o, ts[j]);
    assert Stated(o, ts, Seen(o, ts[i])) && Stated(o, ts, Seen(o, ts[j]));
    if Lossless(h, o, ts) {
      ReadEdgeIsStored(h, o, ts, i);
      ReadEdgeIsStored(h, o, ts, j);
      assert false;
    }
  }

  // A statement that is read back is read from the edge at its own place.
  lemma ReadEdgeIsStored(h: Hash, o: Options, ts: seq<Triple>, i: nat)
    requires Ideal(h) && LiteralsApart(o, ts) && i < |ts|
    requires ReadsBack(FoldAll(h, o, map[], ts), EdgesStored(h, o, ts), Seen(o, ts[i]))
    ensures var found := Find(EdgesStored(h, o, ts), EdgePlace(h, o, ts[i]));
            found.Some? && Decode(FoldAll(h, o, map[], ts), found.value) == Some(Seen(o, ts[i]))
  {
    var vs, es := FoldAll(h, o, map[], ts), EdgesStored(h, o, ts);
    var p :| Find(es, p).Some? && Decode(vs, Find(es, p).value) == Some(Seen(o, ts[i]));
    StoredEdgeHasStatement(h, o, ts, p);
    var k :| 0 <= k < |ts| && HasEdge(o, ts[k]) && EdgePlace(h, o, ts[k]) == p && Find(es, p).value == EdgeOf(h, o, ts[k]).document;
    StatementDecodes(h, o, ts, k);
    SeenTellsEdge(h, o, ts[k], ts[i]);
  }

  // Main result: whatever the model and the policies, the statements that can be read
  // back from the stored graph are those that have an edge, with their graph where it
  // is tracked, if and only if no two different literals share a vertex and no two
  // different statements an edge.
  lemma GraphReadsBackExactly(h: Hash, o: Options, ts: seq<Triple>)
    requires Ideal(h)
    ensures Lossless(h, o, ts) <==> LiteralsApart(o, ts) && EdgesApart(h, o, ts)
  {
    if !LiteralsApart(o, ts) {
      MergedLiteralIsLost(h, o, ts);
    } else if !EdgesApart(h, o, ts) {
      MergedEdgeIsLost(h, o, ts);
    } else {
      forall t ensures ReadsBack(FoldAll(h, o, map[], ts), EdgesStored(h, o, ts), t) <==> Stated(o, ts, t) {
        if ReadsBack(FoldAll(h, o, map[], ts), EdgesStored(h, o, ts), t) { ReadIsStated(h, o, ts, t); }
        if Stated(o, ts, t) { StatedIsRead(h, o, ts, t); }
      }
    }
  }

  // So with the topology-preserving model and the graph recorded, exactly the input
  // triples are read back under the same condition.
  lemma TopologyIsLossless(h: Hash, o: Options, ts: seq<Triple>)
    requires Ideal(h) && o.graphModel.Rpt? && !o.namedGraph.Ignore?
    ensures (forall t :: ReadsBack(FoldAll(h, o, map[], ts), EdgesStored(h, o, ts), t) <==> t in ts)
       <==> LiteralsApart(o, ts) && EdgesApart(h, o, ts)
  {
    GraphReadsBackExactly(h, o, ts);
    forall t ensures Stated(o, ts, t) <==> t in ts {
      assert forall u :: Seen(o, u) == u && HasEdge(o, u);
    }
  }

  // --- the conditions on the statements themselves -----------------------------------------------

  // The edges of two statements go to one place: the statements are the same as far as
  // edges tell, or the predicates differ and one of them runs into the rest of the other
  // statement, in the same edge collection.
  predicate SameEdge(h: Hash, o: Options, t: Triple, u: Triple) {
    t.subject == u.subject
    && (SameStatement(o, t, u)
        || (t.pred != u.pred && BehindSource(h, o, t) == BehindSource(h, o, u)
            && EdgeCollectionFor(h, o, t.graph) == EdgeCollectionFor(h, o, u.graph)))
  }

  lemma EdgePlacesExactly(h: Hash, o: Options, t: Triple, u: Triple)
    requires Ideal(h) && NulFree(o.vertexCollection)
    ensures EdgePlace(h, o, t) == EdgePlace(h, o, u) <==> SameEdge(h, o, t, u)
  {
    EdgeKeysByText(h, o, t, u);
    if t.pred == u.pred {
      if EdgePlace(h, o, t) == EdgePlace(h, o, u) { EqualPredsDoNotClash(h, o, t, u); }
      if SameStatement(o, t, u) { BehindPredExactly(h, o, t, u); }
    }
  }

  // Nothing is hashed here but the ids of vertices and the slugs of graphs.
  ghost predicate StatementsApart(h: Hash, o: Options, ts: seq<Triple>) {
    forall i, j :: 0 <= i < |ts| && 0 <= j < |ts| && HasEdge(o, ts[i]) && HasEdge(o, ts[j]) && SameEdge(h, o, ts[i], ts[j])
                   ==> Seen(o, ts[i]) == Seen(o, ts[j])
  }

  lemma EdgesApartExactly(h: Hash, o: Options, ts: seq<Triple>)
    requires Ideal(h) && NulFree(o.vertexCollection)
    ensures EdgesApart(h, o, ts) <==> StatementsApart(h, o, ts)
  {
    forall i, j | 0 <= i < |ts| && 0 <= j < |ts|
      ensures EdgePlace(h, o, ts[i]) == EdgePlace(h, o, ts[j]) <==> SameEdge(h, o, ts[i], ts[j])
    {
      EdgePlacesExactly(h, o, ts[i], ts[j]);
    }
  }

  // Where graphs are not tracked or predicates hold no NUL, literals alone decide: what
  // is left of the condition has no hash in it.
  lemma LiteralsDecide(h: Hash, o: Options, ts: seq<Triple>)
    requires Ideal(h) && NulFree(o.vertexCollection)
    requires forall i :: 0 <= i < |ts| && HasEdge(o, ts[i]) ==> o.namedGraph.Ignore? || NulFree(ts[i].pred)
    ensures Lossless(h, o, ts) <==> LiteralsApart(o, ts)
  {
    GraphReadsBackExactly(h, o, ts);
    if LiteralsApart(o, ts) { ApartByLiterals(h, o, ts); }
  }

  lemma ApartByLiterals(h: Hash, o: Options, ts: seq<Triple>)
    requires Ideal(h) && NulFree(o.vertexCollection) && LiteralsApart(o, ts)
    requires forall i :: 0 <= i < |ts| && HasEdge(o, ts[i]) ==> o.namedGraph.Ignore? || NulFree(ts[i].pred)
    ensures EdgesApart(h, o, ts)
  {
    forall i, j | 0 <= i < |ts| && 0 <= j < |ts| && HasEdge(o, ts[i]) && HasEdge(o, ts[j])
                  && EdgePlace(h, o, ts[i]) == EdgePlace(h, o, ts[j])
      ensures Seen(o, ts[i]) == Seen(o, ts[j])
    {
      EdgeKeysExactly(h, o, ts[i], ts[j]);
      assert ts[i].obj == ts[j].obj;
    }
  }

  // --- when the conditions are met ----------------------------------------------------------------

  // No NUL, and no empty datatype or language.
  predicate Plain(t: Term) { !HoldsNul(t) && Normal(t) == t }

  lemma PlainLiteralsAreApart(o: Options, ts: seq<Triple>)
    requires forall i :: 0 <= i < |ts| && HasEdge(o, ts[i]) ==> Plain(ts[i].obj)
    ensures LiteralsApart(o, ts)
  {
    forall i, j | 0 <= i < |ts| && 0 <= j < |ts| && HasEdge(o, ts[i]) && HasEdge(o, ts[j]) && SameVertex(ts[i].obj, ts[j].obj)
      ensures ts[i].obj == ts[j].obj
    {
      SameTextSameTerm(ts[i].obj, ts[j].obj);
    }
  }

  // Subjects, graphs and blank labels may hold NULs; predicates may when graphs are not tracked.
  lemma PlainStatementsAreApart(h: Hash, o: Options, ts: seq<Triple>)
    requires Ideal(h) && NulFree(o.vertexCollection)
    requires forall i :: 0 <= i < |ts| && HasEdge(o, ts[i]) ==> Plain(ts[i].obj) && (o.namedGraph.Ignore? || NulFree(ts[i].pred))
    ensures LiteralsApart(o, ts) && EdgesApart(h, o, ts)
  {
    PlainLiteralsAreApart(o, ts);
    ApartByLiterals(h, o, ts);
  }

  // The two literals of `NulCollision` as objects: one of the two statements is lost.
  lemma NulLosesStatement(h: Hash, o: Options, s: Resource, pred: string)
    requires Ideal(h) && Materializes(o)
    ensures var x, y := Literal(['a', NUL, 'b'], Some(['c']), None), Literal(['a'], Some(['b', NUL, 'c']), None);
            !Lossless(h, o, [Triple(s, pred, x, None), Triple(s, pred, y, None)])
  {
    var x, y := Literal(['a', NUL, 'b'], Some(['c']), None), Literal(['a'], Some(['b', NUL, 'c']), None);
    var ts := [Triple(s, pred, x, None), Triple(s, pred, y, None)];
    NulCollision(h);
    TermsShareVertexExactly(h, o, x, y);
    assert |x.value| != |y.value|;
    assert ts[0].obj == x && ts[1].obj == y && !LiteralsApart(o, ts);
    GraphReadsBackExactly(h, o, ts);
  }
}
