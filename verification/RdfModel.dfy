// Where RDF terms and statements are stored: deterministic keys, placements, vertex
// and edge documents. SHA-256 with hex output is a parameter of the model.

module RdfModel {
  import opened Common
  import opened RdfTerms

  datatype GraphModel = Pgt | Rpt

  datatype LiteralPolicy = NoLiterals | VertexProperty | Materialize

  datatype NamedGraphMode = Ignore | Property | Collection

  datatype Options = Options(
    vertexCollection: string, edgeCollection: string, graphModel: GraphModel,
    literalPolicy: LiteralPolicy, namedGraph: NamedGraphMode, scope: Option<string>)

  datatype Placement = Placement(collection: string, key: string)

  // What a vertex document says about its term.
  datatype Base =
    | IriBase(iri: string)
    | BlankBase(name: string, scope: Option<string>)
    | LiteralBase(value: string, datatypeIri: Option<string>, language: Option<string>)

  datatype Vertex = Vertex(key: string, base: Base, properties: Option<map<string, string>>)

  datatype Edge = Edge(key: string, source: string, target: string, pred: string, graph: Option<string>)

  datatype BuiltEdge = BuiltEdge(collection: string, document: Edge)

  // --- keys ------------------------------------------------------------------------

  type Hash = string -> string

  predicate IsHexText(s: string) { forall k :: 0 <= k < |s| ==> '0' <= s[k] <= '9' || 'a' <= s[k] <= 'f' }

  // No two inputs share a digest, and digests are written in hex digits.
  ghost predicate Ideal(h: Hash) {
    && (forall a, b :: h(a) == h(b) ==> a == b)
    && (forall a :: IsHexText(h(a)))
  }

  const NUL: char := 0 as char

  predicate NulFree(s: string) { NUL !in s }

  predicate AllNulFree(parts: seq<string>) { forall k :: 0 <= k < |parts| ==> NulFree(parts[k]) }

  function Separated(parts: seq<string>): string {
    if parts == [] then [] else [NUL] + (parts[0] + Separated(parts[1..]))
  }

  // What is hashed: the domain, then each part behind a separator.
  function Preimage(domain: string, parts: seq<string>): string { domain + Separated(parts) }

  function HashKey(h: Hash, domain: string, parts: seq<string>): string { h(Preimage(domain, parts)) }

  function OrEmpty(s: Option<string>): string { if s.Some? then s.value else [] }

  function BlankParts(name: string, scope: Option<string>): seq<string> {
    if scope.Some? then [scope.value, name] else [name]
  }

  function ResourceKey(h: Hash, o: Options, r: Resource): string {
    match r
    case Iri(iri) => HashKey(h, "rdf:iri", [iri])
    case BlankNode(name) => HashKey(h, "rdf:bnode", BlankParts(name, o.scope))
  }

  function LiteralKey(h: Hash, value: string, datatypeIri: Option<string>, language: Option<string>): string {
    HashKey(h, "rdf:literal", LiteralParts(value, datatypeIri, language))
  }

  function LiteralParts(value: string, datatypeIri: Option<string>, language: Option<string>): seq<string> {
    [value, OrEmpty(datatypeIri), OrEmpty(language)]
  }

  function EdgeParts(source: string, pred: string, target: string, graph: Option<string>): seq<string> {
    [source, pred, target] + if graph.Some? then [graph.value] else []
  }

  function EdgeKey(h: Hash, source: string, pred: string, target: string, graph: Option<string>): string {
    HashKey(h, "rdf:edge", EdgeParts(source, pred, target, graph))
  }

  // --- placements and documents -------------------------------------------------------

  function ResourcePlacement(h: Hash, o: Options, r: Resource): Placement {
    var collection :=
      if o.graphModel.Pgt? then o.vertexCollection
      else if r.Iri? then o.vertexCollection + "_URIRef"
      else o.vertexCollection + "_BNode";
    Placement(collection, ResourceKey(h, o, r))
  }

  function LiteralPlacement(h: Hash, o: Options, value: string, datatypeIri: Option<string>, language: Option<string>): Placement {
    Placement(if o.graphModel.Pgt? then o.vertexCollection else o.vertexCollection + "_Literal",
              LiteralKey(h, value, datatypeIri, language))
  }

  function TermPlacement(h: Hash, o: Options, t: Term): Placement {
    match t
    case IriTerm(iri) => ResourcePlacement(h, o, Iri(iri))
    case BlankTerm(name) => ResourcePlacement(h, o, BlankNode(name))
    case Literal(value, datatypeIri, language) => LiteralPlacement(h, o, value, datatypeIri, language)
  }

  function TermBase(o: Options, t: Term): Base {
    match t
    case IriTerm(iri) => IriBase(iri)
    case BlankTerm(name) => BlankBase(name, o.scope)
    case Literal(value, datatypeIri, language) => LiteralBase(value, datatypeIri, language)
  }

  // The vertex document of a term, as it is first stored.
  function TermVertex(h: Hash, o: Options, t: Term): Vertex {
    Vertex(TermPlacement(h, o, t).key, TermBase(o, t), None)
  }

  function Id(p: Placement): string { p.collection + (['/'] + p.key) }

  function EdgeDocument(h: Hash, source: Placement, target: Placement, pred: string, graph: Option<string>): Edge {
    Edge(EdgeKey(h, Id(source), pred, Id(target), graph), Id(source), Id(target), pred, graph)
  }

  function TrackedGraph(o: Options, graph: Option<string>): Option<string> {
    if o.namedGraph.Ignore? then None else graph
  }

  function Sanitized(graph: string): string {
    if graph == [] then []
    else [if IsAsciiAlphanumeric(graph[0]) then graph[0] else '_'] + Sanitized(graph[1..])
  }

  function Taken(s: string, n: nat): string { if |s| <= n then s else s[..n] }

  function GraphSlug(h: Hash, graph: string): string {
    Taken(Sanitized(graph), 48) + "_" + Taken(HashKey(h, "rdf:graph", [graph]), 8)
  }

  function EdgeCollectionFor(h: Hash, o: Options, graph: Option<string>): string {
    if o.namedGraph.Collection? && graph.Some? then o.edgeCollection + "_" + GraphSlug(h, graph.value)
    else o.edgeCollection
  }

  // --- what can be read back from the preimage ------------------------------------------

  // The text up to the next separator.
  function Field(s: string): (f: string)
    ensures f <= s && NulFree(f) && (|f| < |s| ==> s[|f|] == NUL)
  {
    if s == [] || s[0] == NUL then [] else [s[0]] + Field(s[1..])
  }

  function Fields(s: string): (fs: seq<string>)
    ensures |fs| >= 1 && (|fs| == 1 <==> NulFree(s)) && (NulFree(s) ==> fs == [s])
    decreases |s|
  {
    var first := Field(s);
    if |first| == |s| then [s] else [first] + Fields(s[|first| + 1..])
  }

  function AllFields(parts: seq<string>): seq<string> {
    if parts == [] then [] else Fields(parts[0]) + AllFields(parts[1..])
  }

  lemma {:induction false} FieldReadsBack(part: string, k: string)
    requires NulFree(part) && (k == [] || k[0] == NUL)
    ensures Field(part + k) == part
    decreases |part|
  {
    if part == [] {
      assert part + k == k;
    } else {
      assert (part + k)[1..] == part[1..] + k;
      FieldReadsBack(part[1..], k);
    }
  }

  lemma FirstField(f: string, rest: string)
    requires NulFree(f)
    ensures Fields(f + ([NUL] + rest)) == [f] + Fields(rest)
  {
    var s := f + ([NUL] + rest);
    FieldReadsBack(f, [NUL] + rest);
    assert Field(s) == f && |f| < |s| && s[|f| + 1..] == rest;
  }

  // A separator separates, whatever the texts around it hold.
  lemma {:induction false} FieldsJoin(a: string, b: string)
    ensures Fields(a + ([NUL] + b)) == Fields(a) + Fields(b)
    decreases |a|
  {
    if NulFree(a) {
      FirstField(a, b);
    } else {
      var f, rest := CutAtField(a);
      FieldsJoin(rest, b);
      JoinBehind(f, rest, b);
    }
  }

  lemma JoinBehind(f: string, rest: string, b: string)
    requires NulFree(f) && Fields(rest + ([NUL] + b)) == Fields(rest) + Fields(b)
    ensures Fields(f + ([NUL] + rest) + ([NUL] + b)) == Fields(f + ([NUL] + rest)) + Fields(b)
  {
    FirstField(f, rest);
    FirstField(f, rest + ([NUL] + b));
    Regroup(f, rest, [NUL] + b);
    Prepended(f, Fields(rest), Fields(b));
  }

  lemma Prepended(f: string, s: seq<string>, t: seq<string>)
    ensures [f] + (s + t) == [f] + s + t
  {
  }

  lemma CutAtField(s: string) returns (f: string, rest: string)
    requires !NulFree(s)
    ensures NulFree(f) && s == f + ([NUL] + rest)
  {
    f := Field(s);
    rest := s[|f| + 1..];
  }

  lemma Regroup(f: string, rest: string, k: string)
    ensures f + ([NUL] + rest) + k == f + ([NUL] + (rest + k))
  {
  }

  lemma {:induction false} FieldsOfPreimage(domain: string, parts: seq<string>)
    ensures Fields(Preimage(domain, parts)) == Fields(domain) + AllFields(parts)
    decreases |parts|
  {
    if parts == [] {
      assert domain + Separated(parts) == domain;
    } else {
      FieldsJoin(domain, Preimage(parts[0], parts[1..]));
      FieldsOfPreimage(parts[0], parts[1..]);
    }
  }

  // Parts without the separator are their own fields; any other has more.
  lemma {:induction false} OwnFields(parts: seq<string>)
    ensures |AllFields(parts)| >= |parts|
    ensures |AllFields(parts)| == |parts| <==> AllNulFree(parts)
    ensures AllNulFree(parts) ==> AllFields(parts) == parts
    decreases |parts|
  {
    if parts != [] {
      OwnFields(parts[1..]);
      assert AllNulFree(parts) <==> NulFree(parts[0]) && AllNulFree(parts[1..]);
      if NulFree(parts[0]) { assert Fields(parts[0]) == [parts[0]]; }
    }
  }

  // The parts can be read back from what is hashed.
  lemma FieldsReadBack(domain: string, parts: seq<string>)
    requires NulFree(domain) && AllNulFree(parts)
    ensures Fields(Preimage(domain, parts)) == [domain] + parts
  {
    FieldsOfPreimage(domain, parts);
    OwnFields(parts);
    assert Fields(domain) == [domain];
  }

  // So equal preimages have equal parts, provided no part holds the separator; where
  // the number of parts is the same it is enough that those on one side do not.
  lemma PreimageInjective(d1: string, p1: seq<string>, d2: string, p2: seq<string>)
    requires NulFree(d1) && NulFree(d2) && AllNulFree(p1) && (AllNulFree(p2) || |p1| == |p2|)
    ensures Preimage(d1, p1) == Preimage(d2, p2) <==> d1 == d2 && p1 == p2
  {
    FieldsReadBack(d1, p1);
    FieldsOfPreimage(d2, p2);
    OwnFields(p2);
    assert Fields(d2) == [d2];
    if Preimage(d1, p1) == Preimage(d2, p2) {
      assert [d1] + p1 == [d2] + AllFields(p2);
      assert ([d1] + p1)[1..] == p1 && ([d2] + AllFields(p2))[1..] == AllFields(p2);
      assert |[d1] + p1| == 1 + |p1| && |[d2] + AllFields(p2)| == 1 + |AllFields(p2)|;
    }
  }

  // --- literals and the separator ---------------------------------------------------------

  // What is hashed for a literal, behind the domain.
  function LiteralText(value: string, datatypeIri: Option<string>, language: Option<string>): string {
    value + ([NUL] + (OrEmpty(datatypeIri) + ([NUL] + OrEmpty(language))))
  }

  lemma LiteralPreimage(value: string, datatypeIri: Option<string>, language: Option<string>)
    ensures Preimage("rdf:literal", LiteralParts(value, datatypeIri, language))
         == "rdf:literal" + ([NUL] + LiteralText(value, datatypeIri, language))
  {
    var d, l := OrEmpty(datatypeIri), OrEmpty(language);
    assert [value, d, l][1..] == [d, l] && [d, l][1..] == [l] && [l][1..] == [];
    assert Separated([l]) == [NUL] + l by { assert l + Separated([]) == l; }
    assert Separated([d, l]) == [NUL] + (d + ([NUL] + l));
  }

  // The literal keys are equal exactly when these texts are.
  lemma LiteralKeysExactly(h: Hash, v1: string, d1: Option<string>, l1: Option<string>, v2: string, d2: Option<string>, l2: Option<string>)
    requires Ideal(h)
    ensures LiteralKey(h, v1, d1, l1) == LiteralKey(h, v2, d2, l2) <==> LiteralText(v1, d1, l1) == LiteralText(v2, d2, l2)
  {
    LiteralPreimage(v1, d1, l1);
    LiteralPreimage(v2, d2, l2);
    Cancel("rdf:literal" + [NUL], LiteralText(v1, d1, l1), LiteralText(v2, d2, l2));
    assert forall s :: "rdf:literal" + ([NUL] + s) == "rdf:literal" + [NUL] + s;
  }

  lemma Cancel(front: string, a: string, b: string)
    ensures front + a == front + b <==> a == b
  {
    assert (front + a)[|front|..] == a && (front + b)[|front|..] == b;
  }

  // Does a literal of other parts have the same key?
  ghost predicate LiteralKeyIsShared(h: Hash, value: string, datatypeIri: Option<string>, language: Option<string>) {
    exists v, d, l ::
      LiteralKey(h, v, d, l) == LiteralKey(h, value, datatypeIri, language)
      && LiteralParts(v, d, l) != LiteralParts(value, datatypeIri, language)
  }

  lemma SharedBy(h: Hash, value: string, datatypeIri: Option<string>, language: Option<string>, v: string, d: string, l: string)
    requires LiteralText(v, Some(d), Some(l)) == LiteralText(value, datatypeIri, language)
    requires v != value || d != OrEmpty(datatypeIri)
    ensures LiteralKeyIsShared(h, value, datatypeIri, language)
  {
    LiteralPreimage(v, Some(d), Some(l));
    LiteralPreimage(value, datatypeIri, language);
    var p, q := LiteralParts(v, Some(d), Some(l)), LiteralParts(value, datatypeIri, language);
    assert p[0] == v && p[1] == d && q[0] == value && q[1] == OrEmpty(datatypeIri);
    assert LiteralKey(h, v, Some(d), Some(l)) == LiteralKey(h, value, datatypeIri, language);
  }

  // The text on both sides of a separator in it.
  lemma NulSplits(s: string) returns (a: string, b: string)
    requires !NulFree(s)
    ensures s == a + ([NUL] + b)
  {
    var j :| 0 <= j < |s| && s[j] == NUL;
    a, b := s[..j], s[j + 1..];
  }

  // A separator inside a part can be taken for the one behind it or before it.
  lemma NulIsShared(h: Hash, value: string, datatypeIri: Option<string>, language: Option<string>)
    requires !AllNulFree(LiteralParts(value, datatypeIri, language))
    ensures LiteralKeyIsShared(h, value, datatypeIri, language)
  {
    var d, l := OrEmpty(datatypeIri), OrEmpty(language);
    if !NulFree(value) {
      var a, b := NulSplits(value);
      assert a + ([NUL] + b) + ([NUL] + (d + ([NUL] + l))) == a + ([NUL] + (b + ([NUL] + d) + ([NUL] + l)));
      SharedBy(h, value, datatypeIri, language, a, b + ([NUL] + d), l);
    } else if !NulFree(d) {
      var a, b := NulSplits(d);
      assert a + ([NUL] + b) + ([NUL] + l) == a + ([NUL] + (b + ([NUL] + l)));
      SharedBy(h, value, datatypeIri, language, value, a, b + ([NUL] + l));
    } else {
      var a, b := NulSplits(l);
      assert value + ([NUL] + (d + ([NUL] + l))) == value + ([NUL] + d) + ([NUL] + l);
      SharedBy(h, value, datatypeIri, language, value + ([NUL] + d), a, b);
    }
  }

  // Main result on literals: a literal shares its key with one of other parts if and
  // only if its value, datatype or language holds a NUL.
  lemma LiteralKeyIsSharedExactly(h: Hash, value: string, datatypeIri: Option<string>, language: Option<string>)
    requires Ideal(h)
    ensures LiteralKeyIsShared(h, value, datatypeIri, language) <==> !AllNulFree(LiteralParts(value, datatypeIri, language))
  {
    var parts := LiteralParts(value, datatypeIri, language);
    if AllNulFree(parts) {
      forall v, d, l | LiteralKey(h, v, d, l) == LiteralKey(h, value, datatypeIri, language)
        ensures LiteralParts(v, d, l) == parts
      {
        PreimageInjective("rdf:literal", parts, "rdf:literal", LiteralParts(v, d, l));
      }
    } else {
      NulIsShared(h, value, datatypeIri, language);
    }
  }

  // For instance these two.
  lemma NulCollision(h: Hash)
    ensures LiteralKey(h, ['a', NUL, 'b'], Some(['c']), None) == LiteralKey(h, ['a'], Some(['b', NUL, 'c']), None)
  {
    LiteralPreimage(['a', NUL, 'b'], Some(['c']), None);
    LiteralPreimage(['a'], Some(['b', NUL, 'c']), None);
    assert LiteralText(['a', NUL, 'b'], Some(['c']), None) == ['a', NUL, 'b', NUL, 'c', NUL] == LiteralText(['a'], Some(['b', NUL, 'c']), None);
  }
}
