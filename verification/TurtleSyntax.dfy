// Turtle documents as syntax trees: their text, and what they mean. The meaning is
// defined on the tree alone; TurtleRoundTrip proves the parser finds it in the text.

module TurtleSyntax {
  import opened Common
  import opened RdfTerms
  import opened TurtleGrammar

  datatype IriSyntax = Full(raw: string) | Prefixed(prefix: string, local: string)

  datatype Sign = NoSign | Plus | Minus

  datatype Exponent = Exponent(mark: char, sign: Sign, digits: string)

  datatype Number = Number(sign: Sign, whole: string, fraction: Option<string>, exponent: Option<Exponent>)

  datatype Suffix = NoSuffix | Tagged(tag: string) | Typed(iri: IriSyntax)

  datatype Obj =
    | Named(iri: IriSyntax)
    | Labelled(name: string)
    | Quoted(value: string, mark: char, long: bool, suffix: Suffix)
    | Numeric(number: Number)
    | Boolean(truth: bool)
    | Properties(parts: seq<Part>)
    | Items(items: seq<Obj>)

  datatype VerbSyntax = A | Pred(iri: IriSyntax)

  // A verb with its objects.
  datatype Part = Part(verb: VerbSyntax, objects: seq<Obj>)

  // Declarations are written with `@`, or with a SPARQL keyword in any case.
  datatype Stmt =
    | Triples(subject: Obj, parts: seq<Part>)
    | DeclarePrefix(keyword: Option<string>, name: string, raw: string)
    | DeclareBase(keyword: Option<string>, raw: string)

  // --- well-formed trees -----------------------------------------------------------

  // Does the label start with this word and a dot?
  predicate StartsDotted(name: string, word: string) {
    |name| > |word| && SameIgnoringCase(name[..|word|], word) && name[|word|] == '.'
  }

  predicate ValidPrefix(name: string) {
    && (name != [] ==> IsAsciiAlpha(name[0]) || name[0] as int > 0x7F)
    && forall k :: 0 <= k < |name| ==> IsPnPrefixChar(name[k]) && !IsWhitespace(name[k])
  }

  predicate LocalChars(text: string) { forall k :: 0 <= k < |text| ==> IsPnLocalChar(text[k]) }

  predicate ValidLocal(local: string) { LocalChars(local) && (local != [] ==> local[|local| - 1] != '.') }

  predicate ValidIri(env: Env, iri: IriSyntax) {
    iri.Prefixed? ==> ValidPrefix(iri.prefix) && ValidLocal(iri.local) && iri.prefix in env.prefixes
  }

  // Prefix labels the parser would take for another token in the given position.
  predicate HidesBoolean(prefix: string) { "true." <= prefix || "false." <= prefix }

  predicate HidesVerbA(prefix: string) { "a." <= prefix }

  predicate HidesDirective(prefix: string) { StartsDotted(prefix, "prefix") || StartsDotted(prefix, "base") }

  predicate ValidVerb(env: Env, verb: VerbSyntax) {
    verb.Pred? ==> ValidIri(env, verb.iri) && (verb.iri.Prefixed? ==> !HidesVerbA(verb.iri.prefix))
  }

  predicate Digits(s: string) { forall k :: 0 <= k < |s| ==> IsAsciiDigit(s[k]) }

  // Every number of Turtle: the digits of a fraction may be missing between a whole and
  // an exponent only. Those of an exponent may be missing too, which goes beyond Turtle.
  predicate ValidNumber(n: Number) {
    && Digits(n.whole)
    && (n.fraction.None? ==> n.whole != [])
    && (n.fraction.Some? ==> Digits(n.fraction.value))
    && (n.fraction == Some([]) ==> n.whole != [] && n.exponent.Some?)
    && (n.exponent.Some? ==> n.exponent.value.mark in {'e', 'E'} && Digits(n.exponent.value.digits))
  }

  // Numbers the parser ends too early: `1.e5`.
  predicate EndsAtPoint(n: Number) { n.fraction == Some([]) }

  predicate ValidTag(tag: string) { tag != [] && forall k :: 0 <= k < |tag| ==> IsLanguageChar(tag[k]) }

  predicate ValidSuffix(env: Env, suffix: Suffix) {
    match suffix case NoSuffix => true case Tagged(tag) => ValidTag(tag) case Typed(iri) => ValidIri(env, iri)
  }

  predicate ValidObj(env: Env, o: Obj) {
    match o
    case Named(iri) => ValidIri(env, iri) && (iri.Prefixed? ==> !HidesBoolean(iri.prefix))
    case Labelled(name) => name != [] && LocalChars(name)
    case Quoted(_, mark, _, suffix) => mark in {'"', '\''} && ValidSuffix(env, suffix)
    case Numeric(number) => ValidNumber(number) && !EndsAtPoint(number)
    case Boolean(_) => true
    case Properties(parts) => forall k :: 0 <= k < |parts| ==> ValidPart(env, parts[k])
    case Items(items) => forall k :: 0 <= k < |items| ==> ValidObj(env, items[k])
  }

  predicate ValidPart(env: Env, part: Part) {
    ValidVerb(env, part.verb) && part.objects != [] && forall k :: 0 <= k < |part.objects| ==> ValidObj(env, part.objects[k])
  }

  predicate ValidParts(env: Env, parts: seq<Part>) { forall k :: 0 <= k < |parts| ==> ValidPart(env, parts[k]) }

  predicate ValidObjs(env: Env, objects: seq<Obj>) { forall k :: 0 <= k < |objects| ==> ValidObj(env, objects[k]) }

  predicate ValidSubject(env: Env, o: Obj) {
    match o
    case Named(iri) => ValidIri(env, iri) && (iri.Prefixed? ==> !HidesDirective(iri.prefix))
    case Labelled(_) => ValidObj(env, o)
    case Properties(_) => ValidObj(env, o)
    case Items(_) => ValidObj(env, o)
    case _ => false
  }

  predicate ValidKeyword(keyword: Option<string>, word: string) { keyword.Some? ==> SameIgnoringCase(keyword.value, word) }

  predicate ValidStmt(env: Env, s: Stmt) {
    match s
    case Triples(subject, parts) => ValidSubject(env, subject) && parts != [] && ValidParts(env, parts)
    case DeclarePrefix(keyword, name, _) => ValidKeyword(keyword, "prefix") && ValidPrefix(name)
    case DeclareBase(keyword, _) => ValidKeyword(keyword, "base")
  }

  // Every prefix is declared before it is used.
  predicate ValidDoc(env: Env, doc: seq<Stmt>)
    decreases |doc|
  {
    doc != [] ==> ValidStmt(env, doc[0]) && ValidDoc(EnvAfter(env, doc[0]), doc[1..])
  }

  // --- text, each printer taking the text that follows --------------------------------

  function PrintName(prefix: string, local: string, k: string): string { prefix + ([':'] + (local + k)) }

  function PrintIriSyntax(iri: IriSyntax, k: string): string {
    match iri case Full(raw) => PrintIri(raw, k) case Prefixed(prefix, local) => PrintName(prefix, local, k)
  }

  function SignText(sign: Sign): string { match sign case NoSign => "" case Plus => "+" case Minus => "-" }

  function FractionText(fraction: Option<string>): string { if fraction.Some? then ['.'] + fraction.value else [] }

  function ExponentText(exponent: Option<Exponent>): string {
    match exponent case None => [] case Some(e) => [e.mark] + (SignText(e.sign) + e.digits)
  }

  function NumberText(n: Number): string {
    SignText(n.sign) + (n.whole + (FractionText(n.fraction) + ExponentText(n.exponent)))
  }

  function BooleanText(b: bool): string { if b then "true" else "false" }

  function PrintSuffix(suffix: Suffix, k: string): string {
    match suffix
    case NoSuffix => k
    case Tagged(tag) => ['@'] + (tag + k)
    case Typed(iri) => ['^', '^'] + PrintIriSyntax(iri, k)
  }

  function Marks(mark: char, long: bool): string { if long then [mark, mark, mark] else [mark] }

  function PrintQuoted(value: string, mark: char, long: bool, k: string): string {
    Marks(mark, long) + EscapeString(value, mark, Marks(mark, long) + k)
  }

  function PrintLabel(name: string, k: string): string { ['_', ':'] + (name + k) }

  function PrintVerb(verb: VerbSyntax, k: string): string {
    match verb case A => ['a'] + k case Pred(iri) => PrintIriSyntax(iri, k)
  }

  function PrintObj(o: Obj, k: string): string
    decreases o, 1
  {
    match o
    case Named(iri) => PrintIriSyntax(iri, k)
    case Labelled(name) => PrintLabel(name, k)
    case Quoted(value, mark, long, suffix) => PrintQuoted(value, mark, long, PrintSuffix(suffix, k))
    case Numeric(number) => NumberText(number) + k
    case Boolean(b) => BooleanText(b) + k
    case Properties(parts) => if parts == [] then ['[', ']'] + k else ['['] + PrintParts(parts, [']'] + k)
    case Items(items) => ['('] + PrintItems(items, k)
  }

  function PrintItems(items: seq<Obj>, k: string): string
    decreases items, 0
  {
    if items == [] then [')'] + k else PrintObj(items[0], [' '] + PrintItems(items[1..], k))
  }

  function PrintObjs(objects: seq<Obj>, k: string): string
    decreases objects, 0
  {
    if objects == [] then k
    else if |objects| == 1 then PrintObj(objects[0], [' '] + k)
    else PrintObj(objects[0], [' '] + ([','] + ([' '] + PrintObjs(objects[1..], k))))
  }

  function PrintPart(part: Part, k: string): string
    decreases part, 1
  {
    PrintVerb(part.verb, [' '] + PrintObjs(part.objects, k))
  }

  function PrintParts(parts: seq<Part>, k: string): string
    decreases parts, 0
  {
    if parts == [] then k
    else if |parts| == 1 then PrintPart(parts[0], k)
    else PrintPart(parts[0], [';'] + ([' '] + PrintParts(parts[1..], k)))
  }

  // A declaration's keyword, and what ends the declaration.
  function PrintKeyword(keyword: Option<string>, word: string, k: string): string {
    match keyword case None => ['@'] + (word + ([' '] + k)) case Some(w) => w + ([' '] + k)
  }

  function PrintEnd(keyword: Option<string>, k: string): string { if keyword.None? then [' '] + (['.'] + k) else k }

  function PrintStmt(s: Stmt, k: string): string {
    match s
    case Triples(subject, parts) => PrintObj(subject, [' '] + PrintParts(parts, ['.'] + k))
    case DeclarePrefix(keyword, name, raw) =>
      PrintKeyword(keyword, "prefix", name + ([':'] + ([' '] + PrintIri(raw, PrintEnd(keyword, k)))))
    case DeclareBase(keyword, raw) => PrintKeyword(keyword, "base", PrintIri(raw, PrintEnd(keyword, k)))
  }

  function PrintDoc(doc: seq<Stmt>): string {
    if doc == [] then [] else PrintStmt(doc[0], ['\n'] + PrintDoc(doc[1..]))
  }

  // --- meaning ---------------------------------------------------------------------------

  function Expand(env: Env, iri: IriSyntax): string
    requires ValidIri(env, iri)
  {
    match iri
    case Full(raw) => Resolve(env.base, raw)
    case Prefixed(prefix, local) => env.prefixes[prefix] + local
  }

  function NumberType(n: Number): string {
    if n.exponent.Some? then XSD_DOUBLE else if n.fraction.Some? then XSD_DECIMAL else XSD_INTEGER
  }

  function QuotedMeaning(env: Env, value: string, suffix: Suffix): Term
    requires ValidSuffix(env, suffix)
  {
    match suffix
    case NoSuffix => Literal(value, None, None)
    case Tagged(tag) => Literal(value, None, Some(tag))
    case Typed(iri) => Literal(value, Some(Expand(env, iri)), None)
  }

  function VerbMeaning(env: Env, verb: VerbSyntax): string
    requires ValidVerb(env, verb)
  {
    match verb case A => RDF_TYPE case Pred(iri) => Expand(env, iri)
  }

  // The two triples of cell `i` of a list whose cells carry labels base+1, base+2, ...
  function CellTriples(terms: seq<Term>, base: nat, i: nat): seq<Triple>
    requires i < |terms|
  {
    [Edge(Fresh(base + 1 + i), RDF_FIRST, terms[i]),
     Edge(Fresh(base + 1 + i), RDF_REST, if i + 1 == |terms| then IriTerm(RDF_NIL) else ToTerm(Fresh(base + 2 + i)))]
  }

  function ListTriples(terms: seq<Term>, base: nat, i: nat): seq<Triple>
    requires i <= |terms|
    decreases |terms| - i
  {
    if i == |terms| then [] else CellTriples(terms, base, i) + ListTriples(terms, base, i + 1)
  }

  // What a piece of syntax stands for, the triples it adds, and how many labels have
  // been generated after it.
  datatype Meaning<T> = Meaning(value: T, triples: seq<Triple>, counter: nat)

  function ObjMeaning(env: Env, n: nat, o: Obj): Meaning<Term>
    requires ValidObj(env, o)
    decreases o, 1
  {
    match o
    case Named(iri) => Meaning(IriTerm(Expand(env, iri)), [], n)
    case Labelled(name) => Meaning(BlankTerm("u_" + name), [], n)
    case Quoted(value, _, _, suffix) => Meaning(QuotedMeaning(env, value, suffix), [], n)
    case Numeric(number) => Meaning(Literal(NumberText(number), Some(NumberType(number)), None), [], n)
    case Boolean(b) => Meaning(Literal(BooleanText(b), Some(XSD_BOOLEAN), None), [], n)
    case Properties(parts) =>
      var m := PartsMeaning(env, n + 1, Fresh(n + 1), parts);
      Meaning(ToTerm(Fresh(n + 1)), m.triples, m.counter)
    case Items(items) =>
      var m := ItemsMeaning(env, n, items);
      if items == [] then Meaning(IriTerm(RDF_NIL), [], n)
      else Meaning(ToTerm(Fresh(m.counter + 1)), m.triples + ListTriples(m.value, m.counter, 0), m.counter + |m.value|)
  }

  function ItemsMeaning(env: Env, n: nat, items: seq<Obj>): (m: Meaning<seq<Term>>)
    requires ValidObjs(env, items)
    ensures |m.value| == |items|
    decreases items, 0
  {
    if items == [] then Meaning([], [], n)
    else
      var first := ObjMeaning(env, n, items[0]);
      var rest := ItemsMeaning(env, first.counter, items[1..]);
      Meaning([first.value] + rest.value, first.triples + rest.triples, rest.counter)
  }

  // The object's own triples come before the edge to it.
  function ObjsMeaning(env: Env, n: nat, subject: Resource, pred: string, objects: seq<Obj>): Meaning<()>
    requires ValidObjs(env, objects)
    decreases objects, 0
  {
    if objects == [] then Meaning((), [], n)
    else
      var first := ObjMeaning(env, n, objects[0]);
      var rest := ObjsMeaning(env, first.counter, subject, pred, objects[1..]);
      Meaning((), first.triples + [Edge(subject, pred, first.value)] + rest.triples, rest.counter)
  }

  function PartMeaning(env: Env, n: nat, subject: Resource, part: Part): Meaning<()>
    requires ValidPart(env, part)
    decreases part, 1
  {
    ObjsMeaning(env, n, subject, VerbMeaning(env, part.verb), part.objects)
  }

  function PartsMeaning(env: Env, n: nat, subject: Resource, parts: seq<Part>): Meaning<()>
    requires ValidParts(env, parts)
    decreases parts, 0
  {
    if parts == [] then Meaning((), [], n)
    else
      var first := PartMeaning(env, n, subject, parts[0]);
      var rest := PartsMeaning(env, first.counter, subject, parts[1..]);
      Meaning((), first.triples + rest.triples, rest.counter)
  }

  // The resource a subject stands for; as an object it stands for the same node.
  function SubjectMeaning(env: Env, n: nat, o: Obj): (m: Meaning<Resource>)
    requires ValidSubject(env, o)
  {
    match o
    case Named(iri) => Meaning(Iri(Expand(env, iri)), [], n)
    case _ =>
      var m := ObjMeaning(env, n, o);
      Meaning(if m.value.BlankTerm? then BlankNode(m.value.name) else Iri(RDF_NIL), m.triples, m.counter)
  }

  function EnvAfter(env: Env, s: Stmt): Env {
    match s
    case Triples(_, _) => env
    case DeclarePrefix(_, name, raw) => env.(prefixes := env.prefixes[name := Resolve(env.base, raw)])
    case DeclareBase(_, raw) => env.(base := Some(Resolve(env.base, raw)))
  }

  function StmtMeaning(env: Env, n: nat, s: Stmt): Meaning<()>
    requires ValidStmt(env, s)
  {
    if !s.Triples? then Meaning((), [], n)
    else
      var subject := SubjectMeaning(env, n, s.subject);
      var list := PartsMeaning(env, subject.counter, subject.value, s.parts);
      Meaning((), subject.triples + list.triples, list.counter)
  }

  function DocMeaning(env: Env, n: nat, doc: seq<Stmt>): Meaning<()>
    requires ValidDoc(env, doc)
    decreases |doc|
  {
    if doc == [] then Meaning((), [], n)
    else
      var first := StmtMeaning(env, n, doc[0]);
      var rest := DocMeaning(EnvAfter(env, doc[0]), first.counter, doc[1..]);
      Meaning((), first.triples + rest.triples, rest.counter)
  }
}
