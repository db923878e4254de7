// Parsing a document's text gives exactly the triples the document means, in order
// and with the same generated labels.

module TurtleRoundTrip {
  import opened Common
  import opened RdfTerms
  import opened TurtleGrammar
  import opened TurtleSyntax
  import opened TurtleTokens

  // The state after reading a piece with this meaning, when `k` is left.
  function After<T>(env: Env, ts: seq<Triple>, m: Meaning<T>, k: string): State {
    State(k, env, m.counter, ts + m.triples)
  }

  // --- the list chain ---------------------------------------------------------------

  // The parser's chain, built cell by cell, is the list in closed form.
  lemma {:induction false} ChainIsList(terms: seq<Term>, base: nat, i: nat)
    requires i < |terms|
    ensures Chain(Fresh(base + 1 + i), terms[i..], base + 1 + i) == (ListTriples(terms, base, i), base + |terms|)
    decreases |terms| - i
  {
    var items := terms[i..];
    assert items[0] == terms[i] && items[1..] == terms[i + 1..];
    if i + 1 == |terms| {
      assert CellTriples(terms, base, i) + [] == CellTriples(terms, base, i);
    } else {
      ChainIsList(terms, base, i + 1);
    }
  }

  // --- objects -------------------------------------------------------------------------

  // Every object starts with a character that is not skipped and closes nothing.
  lemma ObjOpening(env: Env, o: Obj, k: string)
    requires ValidObj(env, o) || ValidSubject(env, o)
    ensures var s := PrintObj(o, k); s != [] && Solid(s[0]) && s[0] !in {')', '@'}
  {
    match o
    case Named(iri) => IriSyntaxOpening(env, iri, k);
    case Numeric(number) => NumberOpening(number);
    case _ =>
  }

  // Objects that are not brackets.
  lemma PlainReadsBack(env: Env, n: nat, o: Obj, k: string)
    requires ValidObj(env, o) && !o.Properties? && !o.Items? && Spaced(k)
    ensures PlainObject(env, PrintObj(o, k)) == Ok((ObjMeaning(env, n, o).value, k))
    ensures PrintObj(o, k)[0] !in {'[', '('}
  {
    match o
    case Named(iri) => NamedReadsBack(env, iri, k);
    case Labelled(name) => LabelReadsBack(env, name, k);
    case Quoted(value, mark, long, suffix) =>
      QuotedReadsBack(env, value, mark, long, suffix, k);
      assert PrintObj(o, k)[0] == mark;
    case Numeric(number) =>
      NumberOpening(number);
      NumberReadsBack(number, k);
    case Boolean(b) => BooleanReadsBack(b, k);
  }

  lemma NamedReadsBack(env: Env, iri: IriSyntax, k: string)
    requires ValidObj(env, Named(iri)) && Spaced(k)
    ensures PlainObject(env, PrintIriSyntax(iri, k)) == Ok((IriTerm(Expand(env, iri)), k))
    ensures PrintIriSyntax(iri, k)[0] !in {'[', '('}
  {
    IriSyntaxOpening(env, iri, k);
    match iri
    case Full(raw) => IriSyntaxReadsBack(env, iri, k);
    case Prefixed(prefix, local) => ObjectNameReadsBack(env, prefix, local, k);
  }

  // The same where an object is read.
  lemma PlainObjReadsBack(env: Env, n: nat, ts: seq<Triple>, o: Obj, k: string)
    requires ValidObj(env, o) && !o.Properties? && !o.Items? && Spaced(k)
    ensures ReadObject(State(PrintObj(o, k), env, n, ts)) == Ok((ObjMeaning(env, n, o).value, After(env, ts, ObjMeaning(env, n, o), k)))
  {
    ObjOpening(env, o, k);
    SkipNothing(PrintObj(o, k));
    PlainReadsBack(env, n, o, k);
    assert ts + [] == ts;
  }

  lemma {:induction false} ObjReadsBack(env: Env, n: nat, ts: seq<Triple>, o: Obj, k: string)
    requires ValidObj(env, o) && Spaced(k)
    ensures ReadObject(State(PrintObj(o, k), env, n, ts)) == Ok((ObjMeaning(env, n, o).value, After(env, ts, ObjMeaning(env, n, o), k)))
    decreases o, 2
  {
    var s := PrintObj(o, k);
    ObjOpening(env, o, k);
    SkipNothing(s);
    match o
    case Properties(parts) => PropertiesReadBack(env, n, ts, o, k);
    case Items(items) =>
      CollectionReadsBack(env, n, ts, o, k);
      assert ToTerm(HeadOf(env, n, items)) == ObjMeaning(env, n, o).value;
    case _ => PlainObjReadsBack(env, n, ts, o, k);
  }

  lemma {:induction false} PropertiesReadBack(env: Env, n: nat, ts: seq<Triple>, o: Obj, k: string)
    requires o.Properties? && ValidObj(env, o)
    ensures PropertyList(State(PrintObj(o, k), env, n, ts))
         == Ok((Fresh(n + 1), After(env, ts, ObjMeaning(env, n, o), k)))
    decreases o, 1
  {
    var s := PrintObj(o, k);
    if o.parts == [] {
      assert s[1..] == [']'] + k && s[1..][1..] == k && ts + [] == ts;
      SkipNothing(s[1..]);
    } else {
      var m := PartsMeaning(env, n + 1, Fresh(n + 1), o.parts);
      assert s[1..] == PrintParts(o.parts, [']'] + k);
      PartsOpening(env, o.parts, [']'] + k);
      SkipNothing(s[1..]);
      PartsReadBack(env, n + 1, ts, Fresh(n + 1), o.parts, [']'] + k);
      SkipNothing([']'] + k);
      assert ([']'] + k)[1..] == k;
    }
  }

  lemma {:induction false} CollectionReadsBack(env: Env, n: nat, ts: seq<Triple>, o: Obj, k: string)
    requires o.Items? && ValidObj(env, o)
    ensures Collection(State(PrintObj(o, k), env, n, ts)) == Ok((HeadOf(env, n, o.items), After(env, ts, ObjMeaning(env, n, o), k)))
    decreases o, 1
  {
    var s := PrintObj(o, k);
    var m := ItemsMeaning(env, n, o.items);
    assert s[1..] == PrintItems(o.items, k);
    ItemsReadBack(env, n, ts, o.items, [], k);
    assert [] + m.value == m.value;
    CellsRead(env, n, ts, o, k);
  }

  function HeadOf(env: Env, n: nat, items: seq<Obj>): Resource
    requires ValidObjs(env, items)
  {
    if items == [] then Iri(RDF_NIL) else Fresh(ItemsMeaning(env, n, items).counter + 1)
  }

  // Linking the items read gives the collection's own triples.
  lemma CellsRead(env: Env, n: nat, ts: seq<Triple>, o: Obj, k: string)
    requires o.Items? && ValidObj(env, o)
    ensures var m := ItemsMeaning(env, n, o.items); Linked(After(env, ts, m, k), m.value) == After(env, ts, ObjMeaning(env, n, o), k)
  {
    var m := ItemsMeaning(env, n, o.items);
    if o.items == [] {
      assert ts + [] == ts;
    } else {
      var cells := ListTriples(m.value, m.counter, 0);
      ChainIsList(m.value, m.counter, 0);
      assert m.value[0..] == m.value;
      assert ts + m.triples + cells == ts + (m.triples + cells);
    }
  }

  lemma {:induction false} ItemsReadBack(env: Env, n: nat, ts: seq<Triple>, items: seq<Obj>, read: seq<Term>, k: string)
    requires ValidObjs(env, items)
    ensures CollectionItems(State(PrintItems(items, k), env, n, ts), read)
         == Ok((read + ItemsMeaning(env, n, items).value, After(env, ts, ItemsMeaning(env, n, items), k)))
    decreases items, 0
  {
    var m := ItemsMeaning(env, n, items);
    if items == [] {
      ItemsEnd(State(k, env, n, ts), read);
      assert read + m.value == read && ts + m.triples == ts;
    } else {
      var first := ObjMeaning(env, n, items[0]);
      ItemStep(env, n, ts, items[0], read, PrintItems(items[1..], k));
      ItemsReadBack(env, first.counter, ts + first.triples, items[1..], read + [first.value], k);
      ItemsAssociate(env, n, ts, items, read);
    }
  }

  lemma ItemsAssociate(env: Env, n: nat, ts: seq<Triple>, items: seq<Obj>, read: seq<Term>)
    requires ValidObjs(env, items) && items != []
    ensures var first := ObjMeaning(env, n, items[0]);
            var rest := ItemsMeaning(env, first.counter, items[1..]);
            var m := ItemsMeaning(env, n, items);
            read + [first.value] + rest.value == read + m.value && ts + first.triples + rest.triples == ts + m.triples
  {
    var first := ObjMeaning(env, n, items[0]);
    var rest := ItemsMeaning(env, first.counter, items[1..]);
    assert read + [first.value] + rest.value == read + ([first.value] + rest.value);
    assert ts + first.triples + rest.triples == ts + (first.triples + rest.triples);
  }

  lemma ItemsEnd(st: State, read: seq<Term>)
    ensures CollectionItems(st.(rest := [')'] + st.rest), read) == Ok((read, st))
  {
    SkipNothing([')'] + st.rest);
    assert ([')'] + st.rest)[1..] == st.rest;
  }

  // One turn of the collection loop.
  lemma {:induction false} ItemStep(env: Env, n: nat, ts: seq<Triple>, o: Obj, read: seq<Term>, next: string)
    requires ValidObj(env, o)
    ensures CollectionItems(State(PrintObj(o, [' '] + next), env, n, ts), read)
         == CollectionItems(After(env, ts, ObjMeaning(env, n, o), next), read + [ObjMeaning(env, n, o).value])
    decreases o, 3
  {
    var s := PrintObj(o, [' '] + next);
    var m := ObjMeaning(env, n, o);
    ObjOpening(env, o, [' '] + next);
    SkipNothing(s);
    ObjReadsBack(env, n, ts, o, [' '] + next);
    ItemsSkip(After(env, ts, m, next), read + [m.value]);
  }

  lemma ItemsSkip(st: State, read: seq<Term>)
    ensures CollectionItems(st.(rest := [' '] + st.rest), read) == CollectionItems(st, read)
  {
    SkipSpace(st.rest);
  }

  // --- object lists ----------------------------------------------------------------------

  // What may follow a list of objects or of verbs: its end, which is not skipped.
  predicate Ends(k: string) { k != [] && k[0] in {'.', ']', ';'} }

  lemma {:induction false} ObjsReadBack(env: Env, n: nat, ts: seq<Triple>, subject: Resource, pred: string, objects: seq<Obj>, k: string)
    requires ValidObjs(env, objects) && objects != [] && Ends(k)
    ensures ObjectList(State([' '] + PrintObjs(objects, k), env, n, ts), subject, pred)
         == Ok(((), After(env, ts, ObjsMeaning(env, n, subject, pred, objects), k)))
    decreases objects, 0
  {
    var first := ObjMeaning(env, n, objects[0]);
    var ts1 := ts + first.triples + [Edge(subject, pred, first.value)];
    var rest := ObjsMeaning(env, first.counter, subject, pred, objects[1..]);
    assert ts1 + rest.triples == ts + (first.triples + [Edge(subject, pred, first.value)] + rest.triples);
    if |objects| == 1 {
      ObjectStep(env, n, ts, subject, pred, objects[0], k);
      assert rest.triples == [] && ts1 + [] == ts1;
    } else {
      var end := [','] + ([' '] + PrintObjs(objects[1..], k));
      ObjectStep(env, n, ts, subject, pred, objects[0], end);
      assert end[1..] == [' '] + PrintObjs(objects[1..], k);
      ObjsReadBack(env, first.counter, ts1, subject, pred, objects[1..], k);
    }
  }

  // The state after one object of a list.
  function AfterObject(env: Env, n: nat, ts: seq<Triple>, subject: Resource, pred: string, o: Obj, k: string): State
    requires ValidObj(env, o)
  {
    var m := ObjMeaning(env, n, o);
    State(k, env, m.counter, ts + m.triples + [Edge(subject, pred, m.value)])
  }

  // One turn of the object list.
  lemma {:induction false} ObjectStep(env: Env, n: nat, ts: seq<Triple>, subject: Resource, pred: string, o: Obj, end: string)
    requires ValidObj(env, o) && end != [] && Solid(end[0])
    ensures ObjectList(State([' '] + PrintObj(o, [' '] + end), env, n, ts), subject, pred)
         == if At(end, ',') then ObjectList(AfterObject(env, n, ts, subject, pred, o, end[1..]), subject, pred)
            else Ok(((), AfterObject(env, n, ts, subject, pred, o, end)))
    decreases o, 3
  {
    var s := PrintObj(o, [' '] + end);
    SkipSpace(s);
    ObjOpening(env, o, [' '] + end);
    SkipNothing(s);
    ObjReadsBack(env, n, ts, o, [' '] + end);
    SkipSpace(end);
    SkipNothing(end);
  }

  // --- verbs ---------------------------------------------------------------------------------

  lemma PartsOpening(env: Env, parts: seq<Part>, k: string)
    requires ValidParts(env, parts) && parts != []
    ensures var s := PrintParts(parts, k); s != [] && Solid(s[0]) && s[0] !in {'.', ']', ';'}
  {
    assert ValidPart(env, parts[0]);
    VerbOpening(env, parts[0].verb);
  }

  lemma VerbOpening(env: Env, verb: VerbSyntax)
    requires ValidVerb(env, verb)
    ensures forall k :: var s := PrintVerb(verb, k); s != [] && Solid(s[0]) && s[0] !in {'.', ']', ';'}
  {
    if verb.Pred? && verb.iri.Prefixed? {
      forall k ensures var s := PrintVerb(verb, k); Solid(s[0]) && s[0] !in {'.', ']', ';'} {
        NameOpening(verb.iri.prefix, verb.iri.local, k);
      }
    }
  }

  // One verb with its objects, up to the separator.
  lemma {:induction false} PartReadsBack(env: Env, n: nat, ts: seq<Triple>, subject: Resource, part: Part, k: string)
    requires ValidPart(env, part) && Ends(k)
    ensures VerbAndObjects(State(PrintPart(part, k), env, n, ts), subject)
         == Ok((Separator(k).0, After(env, ts, PartMeaning(env, n, subject, part), Separator(k).1)))
    decreases part, 2
  {
    var s := PrintPart(part, k);
    var tail := [' '] + PrintObjs(part.objects, k);
    VerbOpening(env, part.verb);
    assert s == PrintVerb(part.verb, tail);
    SkipNothing(s);
    VerbReadsBack(env, part.verb, tail);
    ObjsReadBack(env, n, ts, subject, VerbMeaning(env, part.verb), part.objects, k);
  }

  lemma {:induction false} PartsReadBack(env: Env, n: nat, ts: seq<Triple>, subject: Resource, parts: seq<Part>, k: string)
    requires ValidParts(env, parts) && parts != [] && Ends(k) && k[0] != ';'
    ensures PredicateObjectList(State(PrintParts(parts, k), env, n, ts), subject)
         == Ok(((), After(env, ts, PartsMeaning(env, n, subject, parts), k)))
    decreases parts, 0
  {
    var first := PartMeaning(env, n, subject, parts[0]);
    var rest := PartsMeaning(env, first.counter, subject, parts[1..]);
    assert ts + first.triples + rest.triples == ts + (first.triples + rest.triples);
    if |parts| == 1 {
      PartReadsBack(env, n, ts, subject, parts[0], k);
      SkipNothing(k);
      assert rest.triples == [] && first.triples + [] == first.triples;
    } else {
      var next := PrintParts(parts[1..], k);
      var tail := [';'] + ([' '] + next);
      PartReadsBack(env, n, ts, subject, parts[0], tail);
      assert tail[1..] == [' '] + next;
      SkipNothing(tail);
      SkipSpace(next);
      PartsOpening(env, parts[1..], k);
      SkipNothing(next);
      PartsReadBack(env, first.counter, ts + first.triples, subject, parts[1..], k);
    }
  }

  // --- statements --------------------------------------------------------------------------

  lemma SubjectReadsBack(env: Env, n: nat, ts: seq<Triple>, o: Obj, k: string)
    requires ValidSubject(env, o) && Spaced(k)
    ensures Subject(State(PrintObj(o, k), env, n, ts))
         == Ok((SubjectMeaning(env, n, o).value, After(env, ts, SubjectMeaning(env, n, o), k)))
  {
    ObjOpening(env, o, k);
    SkipNothing(PrintObj(o, k));
    match o
    case Properties(_) => PropertiesReadBack(env, n, ts, o, k);
    case Items(_) => CollectionReadsBack(env, n, ts, o, k);
    case Labelled(name) =>
      LabelReadsBack(env, name, k);
      assert ts + [] == ts;
    case Named(iri) =>
      IriSyntaxOpening(env, iri, k);
      IriSyntaxReadsBack(env, iri, k);
      assert ts + [] == ts;
  }

  lemma PartsAndDotReadBack(env: Env, n: nat, ts: seq<Triple>, subject: Resource, parts: seq<Part>, k: string)
    requires ValidParts(env, parts) && parts != []
    ensures AfterSubject(State([' '] + PrintParts(parts, ['.'] + k), env, n, ts), subject)
         == Ok(((), After(env, ts, PartsMeaning(env, n, subject, parts), k)))
  {
    var end := ['.'] + k;
    var list := PrintParts(parts, end);
    SkipSpace(list);
    PartsOpening(env, parts, end);
    SkipNothing(list);
    PartsReadBack(env, n, ts, subject, parts, end);
    SkipNothing(end);
    assert end[1..] == k;
  }

  lemma SubjectThen(st: State, subject: Resource, st1: State)
    requires Subject(st) == Ok((subject, st1))
    ensures Statement(st) == AfterSubject(st1, subject)
  {
  }

  lemma StmtAssociates(env: Env, n: nat, ts: seq<Triple>, s: Stmt, k: string)
    requires ValidStmt(env, s) && s.Triples?
    ensures var subject := SubjectMeaning(env, n, s.subject);
            var parts := PartsMeaning(env, subject.counter, subject.value, s.parts);
            After(env, ts + subject.triples, parts, k) == After(env, ts, StmtMeaning(env, n, s), k)
  {
    var subject := SubjectMeaning(env, n, s.subject);
    var parts := PartsMeaning(env, subject.counter, subject.value, s.parts);
    assert ts + subject.triples + parts.triples == ts + (subject.triples + parts.triples);
  }

  lemma StatementReadsBack(env: Env, n: nat, ts: seq<Triple>, s: Stmt, k: string)
    requires ValidStmt(env, s) && s.Triples?
    ensures Statement(State(PrintStmt(s, k), env, n, ts)) == Ok(((), After(env, ts, StmtMeaning(env, n, s), k)))
  {
    var subject := SubjectMeaning(env, n, s.subject);
    var tail := [' '] + PrintParts(s.parts, ['.'] + k);
    SubjectReadsBack(env, n, ts, s.subject, tail);
    SubjectThen(State(PrintObj(s.subject, tail), env, n, ts), subject.value, After(env, ts, subject, tail));
    PartsAndDotReadBack(env, subject.counter, ts + subject.triples, subject.value, s.parts, k);
    StmtAssociates(env, n, ts, s, k);
  }

  // A printed statement is taken for a statement, not for a declaration.
  lemma StatementIsNoDirective(env: Env, s: Stmt, k: string)
    requires ValidStmt(env, s) && s.Triples?
    ensures !At(PrintStmt(s, k), '@') && !AtSparqlDirective(PrintStmt(s, k))
  {
    var tail := [' '] + PrintParts(s.parts, ['.'] + k);
    var text := PrintObj(s.subject, tail);
    ObjOpening(env, s.subject, tail);
    match s.subject
    case Named(Prefixed(prefix, local)) => SubjectNameIsNoDirective(prefix, local, tail);
    case _ => if AtSparqlDirective(text) { DirectiveStartsWithLetter(text); }
  }

  lemma DirectiveStartsWithLetter(s: string)
    requires AtSparqlDirective(s)
    ensures IsAsciiAlpha(s[0])
  {
    if MatchesKeyword(s, "prefix") { FirstLetter(s, "prefix"); } else { FirstLetter(s, "base"); }
  }

  // --- declarations -------------------------------------------------------------------------

  function PrefixText(name: string, raw: string, k: string): string { name + ([':'] + ([' '] + PrintIri(raw, k))) }

  lemma PrefixBindingReadsBack(st: State, name: string, raw: string, k: string)
    requires ValidPrefix(name) && st.rest == PrefixText(name, raw, k)
    ensures PrefixBinding(st) == Ok(((), st.(rest := k, env := EnvAfter(st.env, DeclarePrefix(None, name, raw)))))
    ensures SkipWs(st.rest) == st.rest
  {
    var iri := PrintIri(raw, k);
    var colon := [':'] + ([' '] + iri);
    BindingLabelReadsBack(name, colon, []);
    assert [] + name == name && colon[1..] == [' '] + iri;
    SkipSpace(iri);
    SkipNothing(iri);
    IriRefReadsBack(st.env.base, raw, k);
    assert st.rest[0] == if name == [] then ':' else name[0];
    SkipNothing(st.rest);
  }

  lemma BaseBindingReadsBack(st: State, raw: string, k: string)
    requires st.rest == PrintIri(raw, k)
    ensures BaseBinding(st) == Ok(((), st.(rest := k, env := EnvAfter(st.env, DeclareBase(None, raw)))))
    ensures SkipWs(st.rest) == st.rest
  {
    SkipNothing(st.rest);
    IriRefReadsBack(st.env.base, raw, k);
  }

  function Word(s: Stmt): string { if s.DeclarePrefix? then "prefix" else "base" }

  function Body(s: Stmt, k: string): string
    requires !s.Triples?
  {
    if s.DeclarePrefix? then PrefixText(s.name, s.raw, k) else PrintIri(s.raw, k)
  }

  lemma BindingReadsBack(st: State, s: Stmt, k: string)
    requires !s.Triples? && ValidStmt(st.env, s) && st.rest == Body(s, k)
    ensures Declare(Word(s), st) == Ok(((), st.(rest := k, env := EnvAfter(st.env, s))))
    ensures SkipWs(st.rest) == st.rest
  {
    match s
    case DeclarePrefix(_, name, raw) => PrefixBindingReadsBack(st, name, raw, k);
    case DeclareBase(_, raw) => BaseBindingReadsBack(st, raw, k);
  }

  // The form with `@` and a closing dot.
  lemma AtFormReadsBack(env: Env, n: nat, ts: seq<Triple>, s: Stmt, k: string)
    requires !s.Triples? && ValidStmt(env, s) && s.keyword == None
    ensures OneStep(State(PrintStmt(s, k), env, n, ts)) == Ok(((), State(k, EnvAfter(env, s), n, ts)))
  {
    var end := [' '] + (['.'] + k);
    var body := Body(s, end);
    var text := PrintStmt(s, k);
    assert text == ['@'] + (Word(s) + ([' '] + body));
    assert text[1..] == Word(s) + ([' '] + body);
    WordStops(Word(s), [' '] + body);
    SkipSpace(body);
    BindingReadsBack(State(body, env, n, ts), s, end);
    SkipSpace(['.'] + k);
    SkipNothing(['.'] + k);
    assert (['.'] + k)[1..] == k;
  }

  lemma KeywordLetters(keyword: string, word: string)
    requires SameIgnoringCase(keyword, word) && forall j :: 0 <= j < |word| ==> 'a' <= word[j] <= 'z'
    ensures forall j :: 0 <= j < |keyword| ==> IsAsciiAlpha(keyword[j])
  {
    forall j | 0 <= j < |keyword| ensures IsAsciiAlpha(keyword[j]) {
      assert Lower(keyword[j]) == Lower(word[j]);
    }
  }

  // The SPARQL form, whatever the case of its keyword.
  lemma SparqlFormReadsBack(env: Env, n: nat, ts: seq<Triple>, s: Stmt, k: string)
    requires !s.Triples? && ValidStmt(env, s) && s.keyword.Some?
    ensures OneStep(State(PrintStmt(s, k), env, n, ts)) == Ok(((), State(k, EnvAfter(env, s), n, ts)))
  {
    var keyword := s.keyword.value;
    var body := Body(s, k);
    var text := PrintStmt(s, k);
    assert text == keyword + ([' '] + body);
    KeywordLetters(keyword, Word(s));
    WordStops(keyword, [' '] + body);
    assert MatchesKeyword(text, Word(s));
    assert text[0] == keyword[0] != '@';
    SkipSpace(body);
    BindingReadsBack(State(body, env, n, ts), s, k);
  }

  lemma StepReadsBack(env: Env, n: nat, ts: seq<Triple>, s: Stmt, k: string)
    requires ValidStmt(env, s)
    ensures OneStep(State(PrintStmt(s, k), env, n, ts)) == Ok(((), After(EnvAfter(env, s), ts, StmtMeaning(env, n, s), k)))
  {
    if s.Triples? {
      StatementIsNoDirective(env, s, k);
      StatementReadsBack(env, n, ts, s, k);
    } else {
      assert ts + [] == ts;
      if s.keyword.None? { AtFormReadsBack(env, n, ts, s, k); } else { SparqlFormReadsBack(env, n, ts, s, k); }
    }
  }

  lemma StmtOpening(env: Env, s: Stmt, k: string)
    requires ValidStmt(env, s)
    ensures PrintStmt(s, k) != [] && Solid(PrintStmt(s, k)[0])
  {
    if s.Triples? {
      ObjOpening(env, s.subject, [' '] + PrintParts(s.parts, ['.'] + k));
    } else if s.keyword.Some? {
      KeywordLetters(s.keyword.value, Word(s));
      assert PrintStmt(s, k)[0] == s.keyword.value[0];
    }
  }

  // --- documents --------------------------------------------------------------------------------

  // One turn of the document loop.
  lemma DocumentStep(st: State, st1: State)
    requires st.rest != [] && Solid(st.rest[0]) && OneStep(st) == Ok(((), st1.(rest := ['\n'] + st1.rest)))
    ensures Document(st) == Document(st1)
  {
    SkipNothing(st.rest);
    assert st.(rest := st.rest) == st;
    DocumentSkip(st1);
  }

  lemma DocumentSkip(st: State)
    ensures Document(st.(rest := ['\n'] + st.rest)) == Document(st)
  {
    SkipSpace(st.rest);
  }

  lemma FirstReadsBack(env: Env, n: nat, ts: seq<Triple>, s: Stmt, next: string)
    requires ValidStmt(env, s)
    ensures Document(State(PrintStmt(s, ['\n'] + next), env, n, ts))
         == Document(After(EnvAfter(env, s), ts, StmtMeaning(env, n, s), next))
  {
    StmtOpening(env, s, ['\n'] + next);
    StepReadsBack(env, n, ts, s, ['\n'] + next);
    DocumentStep(State(PrintStmt(s, ['\n'] + next), env, n, ts), After(EnvAfter(env, s), ts, StmtMeaning(env, n, s), next));
  }

  lemma EmptyReadsBack(st: State)
    requires st.rest == []
    ensures Document(st) == Ok(st.triples)
  {
  }

  lemma DocAssociates(env: Env, n: nat, ts: seq<Triple>, doc: seq<Stmt>)
    requires ValidDoc(env, doc) && doc != []
    ensures var first := StmtMeaning(env, n, doc[0]);
            ts + DocMeaning(env, n, doc).triples
            == ts + first.triples + DocMeaning(EnvAfter(env, doc[0]), first.counter, doc[1..]).triples
  {
    var first := StmtMeaning(env, n, doc[0]);
    var rest := DocMeaning(EnvAfter(env, doc[0]), first.counter, doc[1..]);
    assert ts + first.triples + rest.triples == ts + (first.triples + rest.triples);
  }

  lemma {:induction false} DocumentReadsBack(env: Env, n: nat, ts: seq<Triple>, doc: seq<Stmt>)
    requires ValidDoc(env, doc)
    ensures Document(State(PrintDoc(doc), env, n, ts)) == Ok(ts + DocMeaning(env, n, doc).triples)
    decreases |doc|
  {
    if doc == [] {
      EmptyReadsBack(State([], env, n, ts));
      assert ts + [] == ts;
    } else {
      var first := StmtMeaning(env, n, doc[0]);
      FirstReadsBack(env, n, ts, doc[0], PrintDoc(doc[1..]));
      DocumentReadsBack(EnvAfter(env, doc[0]), first.counter, ts + first.triples, doc[1..]);
      DocAssociates(env, n, ts, doc);
    }
  }

  // Main result: for every well-formed document, parsing its text succeeds with exactly
  // the triples the document means.
  lemma ParseInvertsPrint(doc: seq<Stmt>)
    requires ValidDoc(NO_DECLARATIONS, doc)
    ensures ParseTurtle(PrintDoc(doc)) == Ok(DocMeaning(NO_DECLARATIONS, 0, doc).triples)
  {
    DocumentReadsBack(NO_DECLARATIONS, 0, [], doc);
    assert [] + DocMeaning(NO_DECLARATIONS, 0, doc).triples == DocMeaning(NO_DECLARATIONS, 0, doc).triples;
  }
}
