// On canonical N-Triples text the two RDF readers agree: the Turtle parser finds the
// same triples, with user labels moved to their own name space.

module TurtleAgreement {
  import opened Common
  import opened RdfTerms
  import opened TurtleGrammar
  import opened TurtleSyntax
  import TurtleRoundTrip
  import NTriples

  function ResourceSyntax(r: Resource): Obj {
    match r case Iri(iri) => Named(Full(iri)) case BlankNode(name) => Labelled(name)
  }

  function SuffixSyntax(datatypeIri: Option<string>, language: Option<string>): Suffix {
    match datatypeIri
    case Some(iri) => Typed(Full(iri))
    case None => match language case Some(tag) => Tagged(tag) case None => NoSuffix
  }

  function TermSyntax(t: Term): Obj {
    match t
    case IriTerm(iri) => Named(Full(iri))
    case BlankTerm(name) => Labelled(name)
    case Literal(value, datatypeIri, language) => Quoted(value, '"', false, SuffixSyntax(datatypeIri, language))
  }

  function Syntax(t: Triple): Stmt {
    Triples(ResourceSyntax(t.subject), [Part(Pred(Full(t.pred)), [TermSyntax(t.obj)])])
  }

  function SyntaxOf(ts: seq<Triple>): seq<Stmt> { if ts == [] then [] else [Syntax(ts[0])] + SyntaxOf(ts[1..]) }

  function RelabelResource(r: Resource): Resource { if r.BlankNode? then BlankNode("u_" + r.name) else r }

  function RelabelTerm(t: Term): Term { if t.BlankTerm? then BlankTerm("u_" + t.name) else t }

  function Relabel(t: Triple): Triple { Triple(RelabelResource(t.subject), t.pred, RelabelTerm(t.obj), None) }

  function RelabelAll(ts: seq<Triple>): seq<Triple> { if ts == [] then [] else [Relabel(ts[0])] + RelabelAll(ts[1..]) }

  // A triple both formats can write: no graph, and labels of Turtle's characters.
  predicate Shared(t: Triple) {
    && NTriples.ValidTriple(t) && t.graph.None?
    && (t.subject.BlankNode? ==> LocalChars(t.subject.name))
    && (t.obj.BlankTerm? ==> LocalChars(t.obj.name))
  }

  predicate AllShared(ts: seq<Triple>) { forall k :: 0 <= k < |ts| ==> Shared(ts[k]) }

  lemma SameTermText(t: Term, k: string)
    requires NTriples.ValidTerm(t)
    ensures PrintObj(TermSyntax(t), k) == NTriples.PrintTerm(t, k)
  {
    match t
    case Literal(value, datatypeIri, language) =>
      assert PrintSuffix(SuffixSyntax(datatypeIri, language), k) == NTriples.PrintSuffix(datatypeIri, language, k);
    case _ =>
  }

  lemma SameText(t: Triple, k: string)
    requires Shared(t)
    ensures PrintStmt(Syntax(t), k) == NTriples.PrintStatement(t, k)
  {
    var o, end := TermSyntax(t.obj), ['.'] + k;
    var part := Part(Pred(Full(t.pred)), [o]);
    SameTermText(t.obj, [' '] + end);
    assert PrintObjs([o], end) == PrintObj(o, [' '] + end);
    assert PrintPart(part, end) == PrintIri(t.pred, [' '] + PrintObjs([o], end));
    assert PrintParts([part], end) == PrintPart(part, end);
  }

  lemma SameTermMeaning(n: nat, t: Term)
    requires NTriples.ValidTerm(t) && (t.BlankTerm? ==> LocalChars(t.name))
    ensures ValidObj(NO_DECLARATIONS, TermSyntax(t))
    ensures ObjMeaning(NO_DECLARATIONS, n, TermSyntax(t)) == Meaning(RelabelTerm(t), [], n)
  {
  }

  lemma SameMeaning(n: nat, t: Triple)
    requires Shared(t)
    ensures ValidStmt(NO_DECLARATIONS, Syntax(t))
    ensures StmtMeaning(NO_DECLARATIONS, n, Syntax(t)) == Meaning((), [Relabel(t)], n)
  {
    var o := TermSyntax(t.obj);
    var part := Part(Pred(Full(t.pred)), [o]);
    SameTermMeaning(n, t.obj);
    assert ValidPart(NO_DECLARATIONS, part);
    var subject := RelabelResource(t.subject);
    OneEdge(n, subject, part);
    assert SubjectMeaning(NO_DECLARATIONS, n, ResourceSyntax(t.subject)) == Meaning(subject, [], n);
    assert [] + [Relabel(t)] == [Relabel(t)];
  }

  lemma OneEdge(n: nat, subject: Resource, part: Part)
    requires ValidPart(NO_DECLARATIONS, part) && |part.objects| == 1
    requires ObjMeaning(NO_DECLARATIONS, n, part.objects[0]).triples == []
    requires ObjMeaning(NO_DECLARATIONS, n, part.objects[0]).counter == n
    ensures PartsMeaning(NO_DECLARATIONS, n, subject, [part])
         == Meaning((), [Edge(subject, VerbMeaning(NO_DECLARATIONS, part.verb), ObjMeaning(NO_DECLARATIONS, n, part.objects[0]).value)], n)
  {
    var edge := Edge(subject, VerbMeaning(NO_DECLARATIONS, part.verb), ObjMeaning(NO_DECLARATIONS, n, part.objects[0]).value);
    assert part.objects[1..] == [] && [part][1..] == [];
    assert [] + [edge] + [] == [edge] && [edge] + [] == [edge];
    var pred := VerbMeaning(NO_DECLARATIONS, part.verb);
    assert ObjsMeaning(NO_DECLARATIONS, n, subject, pred, []) == Meaning((), [], n);
    assert ObjsMeaning(NO_DECLARATIONS, n, subject, pred, part.objects) == Meaning((), [] + [edge] + [], n);
    assert PartMeaning(NO_DECLARATIONS, n, subject, part) == Meaning((), [edge], n);
  }

  lemma {:induction false} DocumentsAgree(n: nat, ts: seq<Triple>)
    requires AllShared(ts)
    ensures ValidDoc(NO_DECLARATIONS, SyntaxOf(ts))
    ensures PrintDoc(SyntaxOf(ts)) == NTriples.PrintDocument(ts)
    ensures DocMeaning(NO_DECLARATIONS, n, SyntaxOf(ts)) == Meaning((), RelabelAll(ts), n)
    decreases |ts|
  {
    if ts != [] {
      assert Shared(ts[0]);
      assert SyntaxOf(ts)[1..] == SyntaxOf(ts[1..]) && SyntaxOf(ts)[0] == Syntax(ts[0]);
      SameText(ts[0], ['\n'] + NTriples.PrintDocument(ts[1..]));
      SameMeaning(n, ts[0]);
      DocumentsAgree(n, ts[1..]);
    }
  }

  // Main result: one text, two readers, the same triples up to the label prefix.
  lemma ReadersAgree(ts: seq<Triple>, quads: bool)
    requires AllShared(ts)
    ensures NTriples.ReadDocument(NTriples.PrintDocument(ts), quads, 0) == Ok(ts)
    ensures ParseTurtle(NTriples.PrintDocument(ts)) == Ok(RelabelAll(ts))
  {
    assert forall k :: 0 <= k < |ts| ==> Shared(ts[k]);
    NTriples.DocumentReadsBack(ts, quads, 0);
    DocumentsAgree(0, ts);
    TurtleRoundTrip.ParseInvertsPrint(SyntaxOf(ts));
  }
}
