// What the folded graph guarantees: terms keep apart, edges have their endpoints, a
// second fold changes nothing, and nothing is lost when every statement has an edge.

module RdfGraph {
  import opened Common
  import opened RdfTerms
  import opened RdfModel
  import opened RdfFold

  // --- terms keep apart -------------------------------------------------------------

  // A literal with a separator in its value, datatype or language.
  predicate HoldsNul(t: Term) { t.Literal? && !AllNulFree(LiteralParts(t.value, t.datatypeIri, t.language)) }

  function NoneIfEmpty(s: Option<string>): Option<string> { if s == Some([]) then None else s }

  // An empty datatype or language is not told from a missing one.
  function Normal(t: Term): Term {
    if t.Literal? then Literal(t.value, NoneIfEmpty(t.datatypeIri), NoneIfEmpty(t.language)) else t
  }

  // What can be told of two terms: they are equal, or literals written with the same text.
  predicate SameVertex(a: Term, b: Term) {
    if a.Literal? && b.Literal? then LiteralText(a.value, a.datatypeIri, a.language) == LiteralText(b.value, b.datatypeIri, b.language)
    else a == b
  }

  function Domain(t: Term): string {
    match t case IriTerm(_) => "rdf:iri" case BlankTerm(_) => "rdf:bnode" case Literal(_, _, _) => "rdf:literal"
  }

  function Parts(o: Options, t: Term): seq<string> {
    match t
    case IriTerm(iri) => [iri]
    case BlankTerm(name) => BlankParts(name, o.scope)
    case Literal(value, datatypeIri, language) => LiteralParts(value, datatypeIri, language)
  }

  lemma KeyIsHashed(h: Hash, o: Options, t: Term)
    ensures TermPlacement(h, o, t).key == HashKey(h, Domain(t), Parts(o, t))
  {
  }

  lemma DomainsDiffer(a: Term, b: Term, s1: string, s2: string)
    requires Domain(a) + s1 == Domain(b) + s2
    ensures a.IriTerm? == b.IriTerm? && a.BlankTerm? == b.BlankTerm?
  {
    assert (Domain(a) + s1)[4] == Domain(a)[4] && (Domain(b) + s2)[4] == Domain(b)[4];
    assert "rdf:iri"[4] == 'i' && "rdf:bnode"[4] == 'b' && "rdf:literal"[4] == 'l';
  }

  // One part behind a fixed beginning is known whatever it holds.
  lemma LastPart(domain: string, name1: string, name2: string)
    ensures Preimage(domain, [name1]) == Preimage(domain, [name2]) <==> name1 == name2
  {
    OnePart(domain, name1);
    OnePart(domain, name2);
    Cancel(domain + [NUL], name1, name2);
  }

  lemma OnePart(domain: string, name: string)
    ensures Preimage(domain, [name]) == domain + [NUL] + name
  {
    assert [name][1..] == [] && name + Separated([]) == name;
  }

  lemma LastOfTwo(domain: string, scope: string, name: string)
    ensures Preimage(domain, [scope, name]) == Preimage(domain + [NUL] + scope, [name])
  {
    assert [scope, name][1..] == [name];
  }

  lemma BlankKeys(h: Hash, o: Options, name1: string, name2: string)
    requires Ideal(h)
    ensures ResourceKey(h, o, BlankNode(name1)) == ResourceKey(h, o, BlankNode(name2)) <==> name1 == name2
  {
    if o.scope.Some? {
      LastOfTwo("rdf:bnode", o.scope.value, name1);
      LastOfTwo("rdf:bnode", o.scope.value, name2);
      LastPart("rdf:bnode" + [NUL] + o.scope.value, name1, name2);
    } else {
      LastPart("rdf:bnode", name1, name2);
    }
  }

  // The key alone tells the vertex.
  lemma KeysExactly(h: Hash, o: Options, a: Term, b: Term)
    requires Ideal(h)
    ensures TermPlacement(h, o, a).key == TermPlacement(h, o, b).key <==> SameVertex(a, b)
  {
    KeyIsHashed(h, o, a);
    KeyIsHashed(h, o, b);
    if TermPlacement(h, o, a).key == TermPlacement(h, o, b).key || SameVertex(a, b) {
      if !SameVertex(a, b) { DomainsDiffer(a, b, Separated(Parts(o, a)), Separated(Parts(o, b))); }
      match a
      case IriTerm(iri) => LastPart("rdf:iri", iri, b.iri);
      case BlankTerm(name) => BlankKeys(h, o, name, b.name);
      case Literal(value, datatypeIri, language) =>
        LiteralKeysExactly(h, value, datatypeIri, language, b.value, b.datatypeIri, b.language);
    }
  }

  // Main result: two terms share a vertex exactly when they are equal or literals
  // written with the same text.
  lemma TermsShareVertexExactly(h: Hash, o: Options, a: Term, b: Term)
    requires Ideal(h)
    ensures TermPlacement(h, o, a) == TermPlacement(h, o, b) <==> SameVertex(a, b)
  {
    KeysExactly(h, o, a, b);
  }

  // For a term that is no literal with a NUL in it, this means equal up to empty
  // datatypes and languages, whatever the other term holds.
  lemma SameTextSameTerm(a: Term, b: Term)
    requires !HoldsNul(a)
    ensures SameVertex(a, b) <==> Normal(a) == Normal(b)
  {
    if a.Literal? && b.Literal? {
      var p, q := LiteralParts(a.value, a.datatypeIri, a.language), LiteralParts(b.value, b.datatypeIri, b.language);
      LiteralPreimage(a.value, a.datatypeIri, a.language);
      LiteralPreimage(b.value, b.datatypeIri, b.language);
      PreimageInjective("rdf:literal", p, "rdf:literal", q);
      Cancel("rdf:literal" + [NUL], LiteralText(a.value, a.datatypeIri, a.language), LiteralText(b.value, b.datatypeIri, b.language));
      PartsTellLiteral(a, b);
    }
  }

  lemma PartsTellLiteral(a: Term, b: Term)
    requires a.Literal? && b.Literal?
    ensures LiteralParts(a.value, a.datatypeIri, a.language) == LiteralParts(b.value, b.datatypeIri, b.language)
       <==> Normal(a) == Normal(b)
  {
    var p, q := LiteralParts(a.value, a.datatypeIri, a.language), LiteralParts(b.value, b.datatypeIri, b.language);
    if p == q { assert p[0] == q[0] && p[1] == q[1] && p[2] == q[2]; }
  }

  // Does another term, not just another spelling of nothing, have the same vertex?
  ghost predicate VertexIsShared(h: Hash, o: Options, a: Term) {
    exists b :: TermPlacement(h, o, a) == TermPlacement(h, o, b) && Normal(a) != Normal(b)
  }

  // Main result: exactly the literals with a NUL in them share their vertex.
  lemma VertexIsSharedExactly(h: Hash, o: Options, a: Term)
    requires Ideal(h)
    ensures VertexIsShared(h, o, a) <==> HoldsNul(a)
  {
    if HoldsNul(a) {
      NulIsShared(h, a.value, a.datatypeIri, a.language);
      var v, d, l :| LiteralKey(h, v, d, l) == LiteralKey(h, a.value, a.datatypeIri, a.language)
                     && LiteralParts(v, d, l) != LiteralParts(a.value, a.datatypeIri, a.language);
      PartsTellLiteral(a, Literal(v, d, l));
      assert TermPlacement(h, o, a) == TermPlacement(h, o, Literal(v, d, l));
    } else {
      forall b | TermPlacement(h, o, a) == TermPlacement(h, o, b) ensures Normal(a) == Normal(b) {
        TermsShareVertexExactly(h, o, a, b);
        SameTextSameTerm(a, b);
      }
    }
  }

  // Labels of different sources never meet, and the same label of one source always does.
  lemma ScopesKeepApart(h: Hash, o: Options, name1: string, scope1: string, name2: string, scope2: string)
    requires Ideal(h) && NulFree(scope1) && NulFree(scope2)
    ensures ResourceKey(h, o.(scope := Some(scope1)), BlankNode(name1)) == ResourceKey(h, o.(scope := Some(scope2)), BlankNode(name2))
       <==> name1 == name2 && scope1 == scope2
  {
    TwoParts("rdf:bnode", scope1, name1);
    TwoParts("rdf:bnode", scope2, name2);
    Cancel("rdf:bnode" + [NUL], scope1 + ([NUL] + name1), scope2 + ([NUL] + name2));
    FirstPartTells(scope1, name1, scope2, name2);
  }

  lemma TwoParts(domain: string, scope: string, name: string)
    ensures Preimage(domain, [scope, name]) == domain + [NUL] + (scope + ([NUL] + name))
  {
    LastOfTwo(domain, scope, name);
    OnePart(domain + [NUL] + scope, name);
  }

  lemma FirstPartTells(a: string, b: string, c: string, d: string)
    requires NulFree(a) && NulFree(c)
    ensures a + ([NUL] + b) == c + ([NUL] + d) <==> a == c && b == d
  {
    FieldReadsBack(a, [NUL] + b);
    FieldReadsBack(c, [NUL] + d);
    assert a + ([NUL] + b) == a + [NUL] + b && c + ([NUL] + d) == c + [NUL] + d;
    if a == c { Cancel(a + [NUL], b, d); }
  }

  // --- edges have their endpoints --------------------------------------------------------

  // Every vertex of the first store is in the second and says the same.
  ghost predicate Extends(a: Store<Vertex>, b: Store<Vertex>) {
    forall p :: Find(a, p).Some? ==> Find(b, p).Some? && Find(b, p).value.base == Find(a, p).value.base
  }

  lemma PutFinds<D>(s: Store<D>, p: Placement, d: D, q: Placement)
    ensures Find(Put(s, p, d), q) == if p == q then Some(d) else Find(s, q)
  {
  }

  lemma StoreExtends(h: Hash, o: Options, s: Store<Vertex>, t: Term)
    ensures Extends(s, StoreTerm(h, o, s, t))
  {
    var p := TermPlacement(h, o, t);
    forall q | Find(s, q).Some?
      ensures Find(StoreTerm(h, o, s, t), q).Some? && Find(StoreTerm(h, o, s, t), q).value.base == Find(s, q).value.base
    {
      PutFinds(s, p, TermVertex(h, o, t), q);
    }
  }

  lemma PropertyExtends(s: Store<Vertex>, p: Placement, pred: string, value: string)
    requires Find(s, p).Some?
    ensures Extends(s, AddProperty(s, p, pred, value))
  {
    forall q | Find(s, q).Some?
      ensures Find(AddProperty(s, p, pred, value), q).Some? && Find(AddProperty(s, p, pred, value), q).value.base == Find(s, q).value.base
    {
      PutFinds(s, p, WithProperty(Find(s, p).value, pred, value), q);
    }
  }

  lemma TripleExtends(h: Hash, o: Options, s: Store<Vertex>, t: Triple)
    ensures Extends(s, FoldTriple(h, o, s, t))
    ensures Find(FoldTriple(h, o, s, t), SubjectPlacement(h, o, t)).Some?
    ensures HasEdge(o, t) ==> Find(FoldTriple(h, o, s, t), TermPlacement(h, o, t.obj)).Some?
  {
    var s1 := StoreTerm(h, o, s, ToTerm(t.subject));
    StoreExtends(h, o, s, ToTerm(t.subject));
    StoredIsFound(h, o, s, ToTerm(t.subject));
    if HasEdge(o, t) {
      StoreExtends(h, o, s1, t.obj);
      StoredIsFound(h, o, s1, t.obj);
    } else if SetsProperty(o, t) {
      PropertyExtends(s1, SubjectPlacement(h, o, t), t.pred, t.obj.value);
    }
  }

  lemma {:induction false} FoldExtends(h: Hash, o: Options, s: Store<Vertex>, ts: seq<Triple>)
    ensures Extends(s, FoldAll(h, o, s, ts))
    decreases |ts|
  {
    if ts != [] {
      var before := ts[..|ts| - 1];
      FoldExtends(h, o, s, before);
      TripleExtends(h, o, FoldAll(h, o, s, before), ts[|ts| - 1]);
      ExtendsTrans(s, FoldAll(h, o, s, before), FoldAll(h, o, s, ts));
    }
  }

  lemma ExtendsTrans(a: Store<Vertex>, b: Store<Vertex>, c: Store<Vertex>)
    requires Extends(a, b) && Extends(b, c)
    ensures Extends(a, c)
  {
  }

  // An id that names a stored vertex.
  ghost predicate Names(s: Store<Vertex>, id: string) { exists p :: Find(s, p).Some? && Id(p) == id }

  lemma NamesExtends(a: Store<Vertex>, b: Store<Vertex>, id: string)
    requires Extends(a, b) && Names(a, id)
    ensures Names(b, id)
  {
    var p :| Find(a, p).Some? && Id(p) == id;
    assert Find(b, p).Some?;
  }

  lemma {:induction false} EndpointsNamed(h: Hash, o: Options, s: Store<Vertex>, ts: seq<Triple>, e: BuiltEdge)
    requires e in EdgesOf(h, o, ts)
    ensures Names(FoldAll(h, o, s, ts), e.document.source) && Names(FoldAll(h, o, s, ts), e.document.target)
    decreases |ts|
  {
    var before, t := ts[..|ts| - 1], ts[|ts| - 1];
    var s1 := FoldAll(h, o, s, before);
    TripleExtends(h, o, s1, t);
    if e in EdgesOf(h, o, before) {
      EndpointsNamed(h, o, s, before, e);
      NamesExtends(s1, FoldAll(h, o, s, ts), e.document.source);
      NamesExtends(s1, FoldAll(h, o, s, ts), e.document.target);
    } else {
      assert e == EdgeOf(h, o, t);
      assert Id(SubjectPlacement(h, o, t)) == e.document.source && Id(TermPlacement(h, o, t.obj)) == e.document.target;
    }
  }

  // Main result: under every policy, every edge's endpoints are stored when it is
  // built and stay stored whatever is folded later.
  lemma EdgesHaveEndpoints(h: Hash, o: Options, s: Store<Vertex>, ts: seq<Triple>, later: seq<Triple>, e: BuiltEdge)
    requires e in EdgesOf(h, o, ts)
    ensures var end := FoldAll(h, o, FoldAll(h, o, s, ts), later); Names(end, e.document.source) && Names(end, e.document.target)
  {
    var now := FoldAll(h, o, s, ts);
    EndpointsNamed(h, o, s, ts, e);
    FoldExtends(h, o, now, later);
    NamesExtends(now, FoldAll(h, o, now, later), e.document.source);
    NamesExtends(now, FoldAll(h, o, now, later), e.document.target);
  }
}
