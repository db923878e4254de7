// Folding triples into keyed vertex and edge documents: the in-place maps, and the
// same fold as a function of the maps' values.

module RdfFold {
  import opened Common
  import opened RdfTerms
  import opened RdfModel

  // Documents by collection, then by key.
  type Store<D> = map<string, map<string, D>>

  function Find<D>(s: Store<D>, p: Placement): Option<D> {
    if p.collection in s && p.key in s[p.collection] then Some(s[p.collection][p.key]) else None
  }

  function CollectionIn<D>(s: Store<D>, collection: string): map<string, D> {
    if collection in s then s[collection] else map[]
  }

  function Put<D>(s: Store<D>, p: Placement, d: D): Store<D> {
    s[p.collection := CollectionIn(s, p.collection)[p.key := d]]
  }

  // The first document for a key stays.
  function PutNew<D>(s: Store<D>, p: Placement, d: D): Store<D> { if Find(s, p).Some? then s else Put(s, p, d) }

  function Properties(v: Vertex): map<string, string> { if v.properties.Some? then v.properties.value else map[] }

  function WithProperty(v: Vertex, pred: string, value: string): Vertex {
    v.(properties := Some(Properties(v)[pred := value]))
  }

  function AddProperty(s: Store<Vertex>, p: Placement, pred: string, value: string): Store<Vertex>
    requires Find(s, p).Some?
  {
    Put(s, p, WithProperty(Find(s, p).value, pred, value))
  }

  // --- what one triple does, by policy -------------------------------------------------

  // The literal becomes a vertex of its own.
  predicate Materializes(o: Options) { o.graphModel.Rpt? || o.literalPolicy.Materialize? }

  // The literal becomes a property of the subject's vertex.
  predicate SetsProperty(o: Options, t: Triple) { t.obj.Literal? && o.graphModel.Pgt? && o.literalPolicy.VertexProperty? }

  // The object has a vertex, and the triple an edge.
  predicate HasEdge(o: Options, t: Triple) { !t.obj.Literal? || Materializes(o) }

  function SubjectPlacement(h: Hash, o: Options, t: Triple): Placement { ResourcePlacement(h, o, t.subject) }

  function StoreTerm(h: Hash, o: Options, s: Store<Vertex>, t: Term): Store<Vertex> {
    PutNew(s, TermPlacement(h, o, t), TermVertex(h, o, t))
  }

  function FoldTriple(h: Hash, o: Options, s: Store<Vertex>, t: Triple): Store<Vertex> {
    var s1 := StoreTerm(h, o, s, ToTerm(t.subject));
    if HasEdge(o, t) then StoreTerm(h, o, s1, t.obj)
    else if SetsProperty(o, t) then AddProperty(s1, SubjectPlacement(h, o, t), t.pred, t.obj.value)
    else s1
  }

  function EdgeOf(h: Hash, o: Options, t: Triple): BuiltEdge {
    BuiltEdge(EdgeCollectionFor(h, o, t.graph),
              EdgeDocument(h, SubjectPlacement(h, o, t), TermPlacement(h, o, t.obj), t.pred, TrackedGraph(o, t.graph)))
  }

  function EdgesOf(h: Hash, o: Options, ts: seq<Triple>): seq<BuiltEdge> {
    if ts == [] then []
    else EdgesOf(h, o, ts[..|ts| - 1]) + if HasEdge(o, ts[|ts| - 1]) then [EdgeOf(h, o, ts[|ts| - 1])] else []
  }

  function FoldAll(h: Hash, o: Options, s: Store<Vertex>, ts: seq<Triple>): Store<Vertex> {
    if ts == [] then s else FoldTriple(h, o, FoldAll(h, o, s, ts[..|ts| - 1]), ts[|ts| - 1])
  }

  function BufferEdge(s: Store<Edge>, e: BuiltEdge): Store<Edge> {
    PutNew(s, Placement(e.collection, e.document.key), e.document)
  }

  // The edges of a run with duplicates by key dropped, as the buffers and the server do.
  function BufferAll(s: Store<Edge>, es: seq<BuiltEdge>): Store<Edge> {
    if es == [] then s else BufferEdge(BufferAll(s, es[..|es| - 1]), es[|es| - 1])
  }

  // --- the maps updated in place ---------------------------------------------------------

  class DocStore<D> {
    var docs: Store<D>

    constructor ()
      ensures docs == map[]
    {
      docs := map[];
    }

    method InsertIfAbsent(p: Placement, d: D)
      modifies this
      ensures docs == PutNew(old(docs), p, d)
    {
      if p.collection !in docs {
        docs := docs[p.collection := map[]];
      }
      if p.key !in docs[p.collection] {
        docs := docs[p.collection := docs[p.collection][p.key := d]];
      }
      assert docs[p.collection := docs[p.collection]] == docs;
    }
  }

  method StoreVertex(vertices: DocStore<Vertex>, h: Hash, o: Options, t: Term)
    modifies vertices
    ensures vertices.docs == StoreTerm(h, o, old(vertices.docs), t)
  {
    vertices.InsertIfAbsent(TermPlacement(h, o, t), TermVertex(h, o, t));
  }

  // The subject's vertex has just been stored, so it is found.
  method SetProperty(vertices: DocStore<Vertex>, p: Placement, pred: string, value: string)
    requires Find(vertices.docs, p).Some?
    modifies vertices
    ensures vertices.docs == AddProperty(old(vertices.docs), p, pred, value)
  {
    var vertex := vertices.docs[p.collection][p.key];
    if vertex.properties.None? {
      vertex := vertex.(properties := Some(map[]));
    }
    vertex := vertex.(properties := Some(vertex.properties.value[pred := value]));
    vertices.docs := vertices.docs[p.collection := vertices.docs[p.collection][p.key := vertex]];
  }

  lemma StoredIsFound(h: Hash, o: Options, s: Store<Vertex>, t: Term)
    ensures Find(StoreTerm(h, o, s, t), TermPlacement(h, o, t)).Some?
  {
  }

  method Fold(t: Triple, h: Hash, o: Options, vertices: DocStore<Vertex>) returns (built: Option<BuiltEdge>)
    modifies vertices
    ensures vertices.docs == FoldTriple(h, o, old(vertices.docs), t)
    ensures built == if HasEdge(o, t) then Some(EdgeOf(h, o, t)) else None
  {
    var subject := ResourcePlacement(h, o, t.subject);
    StoredIsFound(h, o, vertices.docs, ToTerm(t.subject));
    StoreVertex(vertices, h, o, ToTerm(t.subject));
    var graph := TrackedGraph(o, t.graph);
    var collection := EdgeCollectionFor(h, o, t.graph);
    if t.obj.Literal? && o.graphModel.Pgt? && o.literalPolicy.NoLiterals? {
      return None;
    }
    if t.obj.Literal? && o.graphModel.Pgt? && o.literalPolicy.VertexProperty? {
      SetProperty(vertices, subject, t.pred, t.obj.value);
      return None;
    }
    StoreVertex(vertices, h, o, t.obj);
    return Some(BuiltEdge(collection, EdgeDocument(h, subject, TermPlacement(h, o, t.obj), t.pred, graph)));
  }

  // The parse loop: vertices are always collected; edges are collected by collection
  // when each graph has its own, and passed on in order otherwise.
  method BuildGraph(ts: seq<Triple>, h: Hash, o: Options)
    returns (vertices: DocStore<Vertex>, streamed: seq<BuiltEdge>, buffered: DocStore<Edge>)
    ensures vertices.docs == FoldAll(h, o, map[], ts)
    ensures streamed == if o.namedGraph.Collection? then [] else EdgesOf(h, o, ts)
    ensures buffered.docs == if o.namedGraph.Collection? then BufferAll(map[], EdgesOf(h, o, ts)) else map[]
  {
    vertices := new DocStore();
    buffered := new DocStore();
    streamed := [];
    ghost var edges: seq<BuiltEdge> := [];
    for i := 0 to |ts|
      invariant fresh(vertices) && fresh(buffered)
      invariant vertices.docs == FoldAll(h, o, map[], ts[..i]) && edges == EdgesOf(h, o, ts[..i])
      invariant streamed == if o.namedGraph.Collection? then [] else edges
      invariant buffered.docs == if o.namedGraph.Collection? then BufferAll(map[], edges) else map[]
    {
      FoldSnoc(h, o, ts, i);
      var built := Fold(ts[i], h, o, vertices);
      if built.Some? {
        BufferAllSnoc(map[], edges, built.value);
        edges := edges + [built.value];
        if o.namedGraph.Collection? {
          buffered.InsertIfAbsent(Placement(built.value.collection, built.value.document.key), built.value.document);
        } else {
          streamed := streamed + [built.value];
        }
      }
    }
    assert ts[..|ts|] == ts;
  }

  lemma FoldSnoc(h: Hash, o: Options, ts: seq<Triple>, i: nat)
    requires i < |ts|
    ensures FoldAll(h, o, map[], ts[..i + 1]) == FoldTriple(h, o, FoldAll(h, o, map[], ts[..i]), ts[i])
    ensures EdgesOf(h, o, ts[..i + 1]) == EdgesOf(h, o, ts[..i]) + if HasEdge(o, ts[i]) then [EdgeOf(h, o, ts[i])] else []
  {
    assert ts[..i + 1][..i] == ts[..i];
  }

  lemma BufferAllSnoc(s: Store<Edge>, es: seq<BuiltEdge>, e: BuiltEdge)
    ensures BufferAll(s, es + [e]) == BufferEdge(BufferAll(s, es), e) && es + [] == es
  {
    assert (es + [e])[..|es|] == es;
  }
}
