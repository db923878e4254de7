// The Turtle subset as functions of the text still to be read. The parser class
// is proved to compute exactly these; the round trip is proved about them.

module TurtleGrammar {
  import opened Common
  import opened Decimals
  import opened RdfTerms

  const RDF := "http://www.w3.org/1999/02/22-rdf-syntax-ns#"
  const XSD := "http://www.w3.org/2001/XMLSchema#"
  const RDF_TYPE: string := RDF + "type"
  const RDF_FIRST: string := RDF + "first"
  const RDF_REST: string := RDF + "rest"
  const RDF_NIL: string := RDF + "nil"
  const XSD_INTEGER: string := XSD + "integer"
  const XSD_DECIMAL: string := XSD + "decimal"
  const XSD_DOUBLE: string := XSD + "double"
  const XSD_BOOLEAN: string := XSD + "boolean"

  // Every error carries what its message names; positions are not part of the model.
  datatype TurtleError =
    | Expected(c: char, found: Option<char>) | UnknownDirective(word: string) | ExpectedColon
    | PredicateIsBlank | UnterminatedCollection | ExpectedTerm | UnterminatedIri | BadIriEscape(found: Option<char>)
    | BadHex(e: HexError) | EmptyLabel | UnexpectedInTerm(c: char) | UnknownPrefix(prefix: string)
    | EmptyLanguage | UnterminatedString | DanglingEscape | InvalidEscape(c: char) | ExpectedObject
    | ExpectedBoolean(word: string)

  type Read<T> = Result<(T, string), TurtleError>

  // --- lexing ------------------------------------------------------------------

  function First(s: string): Option<char> { if s == [] then None else Some(s[0]) }

  predicate At(s: string, c: char) { s != [] && s[0] == c }

  // Past the end of the line.
  function SkipComment(s: string): (r: string)
    ensures |r| <= |s| && (s != [] ==> |r| < |s|)
  {
    if s == [] then s else if s[0] == '\n' then s[1..] else SkipComment(s[1..])
  }

  function SkipWs(s: string): (r: string)
    ensures |r| <= |s|
    decreases |s|
  {
    if s != [] && IsWhitespace(s[0]) then SkipWs(s[1..])
    else if At(s, '#') then SkipWs(SkipComment(s))
    else s
  }

  function Expect(s: string, c: char): (r: Result<string, TurtleError>)
    ensures r.Ok? ==> |r.value| < |s|
  {
    if At(s, c) then Ok(s[1..]) else Err(Expected(c, First(s)))
  }

  function WordLength(s: string): (n: nat)
    ensures n <= |s|
  {
    if s != [] && IsAsciiAlpha(s[0]) then 1 + WordLength(s[1..]) else 0
  }

  predicate IsBoundary(s: string) {
    s == [] || IsWhitespace(s[0]) || s[0] in {'<', '"', '\'', '.', ';', ',', '#'}
  }

  predicate SameIgnoringCase(a: string, b: string) {
    |a| == |b| && forall k :: 0 <= k < |a| ==> Lower(a[k]) == Lower(b[k])
  }

  predicate MatchesKeyword(s: string, keyword: string) {
    |keyword| <= |s| && SameIgnoringCase(s[..|keyword|], keyword) && IsBoundary(s[|keyword|..])
  }

  predicate StartsWord(s: string, word: string) { word <= s && IsBoundary(s[|word|..]) }

  predicate StartsBoolean(s: string) { StartsWord(s, "true") || StartsWord(s, "false") }

  function LocalLength(s: string): (n: nat)
    ensures n <= |s|
  {
    if s != [] && IsPnLocalChar(s[0]) then 1 + LocalLength(s[1..]) else 0
  }

  function TrimDots(s: string): (r: string)
    ensures r <= s
  {
    if s != [] && s[|s| - 1] == '.' then TrimDots(s[..|s| - 1]) else s
  }

  // --- terms ---------------------------------------------------------------------

  // Prefix and base declarations in force.
  datatype Env = Env(base: Option<string>, prefixes: map<string, string>)

  // Letters, digits and `+ - .` up to a colon.
  predicate SchemeTail(s: string) {
    if s == [] then false
    else if s[0] == ':' then true
    else (IsAsciiAlphanumeric(s[0]) || s[0] in {'+', '-', '.'}) && SchemeTail(s[1..])
  }

  predicate HasScheme(s: string) { s != [] && IsAsciiAlpha(s[0]) && SchemeTail(s[1..]) }

  function Resolve(base: Option<string>, raw: string): string {
    if HasScheme(raw) || base.None? then raw else base.value + raw
  }

  function IriBody(s: string, raw: string): (r: Read<string>)
    ensures r.Ok? ==> |r.value.1| < |s|
    decreases |s|
  {
    if s == [] then Err(UnterminatedIri)
    else if s[0] == '>' then Ok((raw, s[1..]))
    else if s[0] != '\\' then IriBody(s[1..], raw + [s[0]])
    else if |s| == 1 then Err(BadIriEscape(None))
    else if s[1] != 'u' && s[1] != 'U' then Err(BadIriEscape(Some(s[1])))
    else match ReadHex(s[2..], if s[1] == 'u' then 4 else 8, 0)
      case Err(e) => Err(BadHex(e))
      case Ok((c, rest)) => IriBody(rest, raw + [c])
  }

  function IriRef(base: Option<string>, s: string): (r: Read<string>)
    ensures r.Ok? ==> |r.value.1| < |s|
  {
    match Expect(s, '<')
    case Err(e) => Err(e)
    case Ok(s1) =>
      match IriBody(s1, []) case Err(e) => Err(e) case Ok((raw, rest)) => Ok((Resolve(base, raw), rest))
  }

  function BlankLabel(s: string): (r: Read<string>)
    ensures r.Ok? ==> |r.value.1| < |s|
  {
    match Expect(s, '_')
    case Err(e) => Err(e)
    case Ok(s1) =>
      match Expect(s1, ':')
      case Err(e) => Err(e)
      case Ok(s2) =>
        var n := LocalLength(s2);
        if n == 0 then Err(EmptyLabel) else Ok(("u_" + s2[..n], s2[n..]))
  }

  // The prefix label in front of the colon; reading it stops at the colon.
  function PrefixLabel(s: string, read: string): (r: Read<string>)
    ensures r.Ok? ==> |r.value.1| <= |s|
    decreases |s|
  {
    if s == [] || s[0] == ':' then Ok((read, s))
    else if IsPnPrefixChar(s[0]) then PrefixLabel(s[1..], read + [s[0]])
    else Err(UnexpectedInTerm(s[0]))
  }

  // Trailing dots of the local part are given back: a dot ends the statement.
  function PrefixedName(prefixes: map<string, string>, s: string): (r: Read<string>)
    ensures r.Ok? ==> |r.value.1| < |s|
  {
    match PrefixLabel(s, [])
    case Err(e) => Err(e)
    case Ok((prefix, s1)) =>
      match Expect(s1, ':')
      case Err(e) => Err(e)
      case Ok(s2) =>
        var local := TrimDots(s2[..LocalLength(s2)]);
        if prefix in prefixes then Ok((prefixes[prefix] + local, s2[|local|..])) else Err(UnknownPrefix(prefix))
  }

  function IriOrBlank(env: Env, s: string): (r: Read<Resource>)
    ensures r.Ok? ==> |r.value.1| < |s|
  {
    var s1 := SkipWs(s);
    if s1 == [] then Err(ExpectedTerm)
    else if s1[0] == '<' then
      match IriRef(env.base, s1) case Err(e) => Err(e) case Ok((iri, rest)) => Ok((Iri(iri), rest))
    else if s1[0] == '_' then
      match BlankLabel(s1) case Err(e) => Err(e) case Ok((name, rest)) => Ok((BlankNode(name), rest))
    else
      match PrefixedName(env.prefixes, s1) case Err(e) => Err(e) case Ok((iri, rest)) => Ok((Iri(iri), rest))
  }

  function Verb(env: Env, s: string): (r: Read<string>)
    ensures r.Ok? ==> |r.value.1| < |s|
  {
    var s1 := SkipWs(s);
    if At(s1, 'a') && IsBoundary(s1[1..]) then Ok((RDF_TYPE, s1[1..]))
    else match IriOrBlank(env, s1)
      case Err(e) => Err(e)
      case Ok((node, rest)) => if node.Iri? then Ok((node.iri, rest)) else Err(PredicateIsBlank)
  }

  // --- literals --------------------------------------------------------------------

  function StringEscape(s: string): (r: Read<char>)
    ensures r.Ok? ==> |r.value.1| < |s|
  {
    if s == [] then Err(DanglingEscape)
    else if s[0] == 'u' || s[0] == 'U' then
      match ReadHex(s[1..], if s[0] == 'u' then 4 else 8, 0)
      case Err(e) => Err(BadHex(e))
      case Ok((c, rest)) => Ok((c, rest))
    else match ShortEscape(s[0])
      case None => Err(InvalidEscape(s[0]))
      case Some(c) => Ok((c, s[1..]))
  }

  predicate AtPair(s: string, quote: char) { |s| >= 2 && s[0] == quote && s[1] == quote }

  function StringBody(s: string, quote: char, long: bool, value: string): (r: Read<string>)
    ensures r.Ok? ==> |r.value.1| < |s|
    decreases |s|
  {
    if s == [] then Err(UnterminatedString)
    else if s[0] == quote then
      if !long then Ok((value, s[1..]))
      else if AtPair(s[1..], quote) then Ok((value, s[3..]))
      else StringBody(s[1..], quote, long, value + [s[0]])
    else if s[0] == '\\' then
      match StringEscape(s[1..])
      case Err(e) => Err(e)
      case Ok((c, rest)) => StringBody(rest, quote, long, value + [c])
    else StringBody(s[1..], quote, long, value + [s[0]])
  }

  function LanguageLength(s: string): (n: nat)
    ensures n <= |s|
  {
    if s != [] && IsLanguageChar(s[0]) then 1 + LanguageLength(s[1..]) else 0
  }

  function LiteralSuffix(env: Env, value: string, s: string): (r: Read<Term>)
    ensures r.Ok? ==> |r.value.1| <= |s|
  {
    if At(s, '@') then
      var n := LanguageLength(s[1..]);
      if n == 0 then Err(EmptyLanguage) else Ok((Literal(value, None, Some(s[1..][..n])), s[1..][n..]))
    else if AtPair(s, '^') then
      var s1 := SkipWs(s[2..]);
      match if At(s1, '<') then IriRef(env.base, s1) else PrefixedName(env.prefixes, s1)
      case Err(e) => Err(e)
      case Ok((iri, rest)) => Ok((Literal(value, Some(iri), None), rest))
    else Ok((Literal(value, None, None), s))
  }

  function StringLiteral(env: Env, s: string): (r: Read<Term>)
    requires s != []
    ensures r.Ok? ==> |r.value.1| < |s|
  {
    var quote := s[0];
    var long := AtPair(s[1..], quote);
    match StringBody(if long then s[3..] else s[1..], quote, long, [])
    case Err(e) => Err(e)
    case Ok((value, rest)) => LiteralSuffix(env, value, rest)
  }

  datatype Scanned = Scanned(rest: string, dot: bool, exponent: bool)

  function SkipSign(s: string): string { if At(s, '+') || At(s, '-') then s[1..] else s }

  function NumberTail(s: string, dot: bool, exponent: bool): (r: Scanned)
    ensures |r.rest| <= |s|
    decreases |s|
  {
    if s == [] then Scanned(s, dot, exponent)
    else if IsAsciiDigit(s[0]) then NumberTail(s[1..], dot, exponent)
    else if s[0] == '.' && !dot && !exponent && |s| > 1 && IsAsciiDigit(s[1]) then NumberTail(s[1..], true, exponent)
    else if (s[0] == 'e' || s[0] == 'E') && !exponent then NumberTail(SkipSign(s[1..]), dot, true)
    else Scanned(s, dot, exponent)
  }

  predicate HasDigit(s: string) { exists k :: 0 <= k < |s| && IsAsciiDigit(s[k]) }

  // The literal a scanned number stands for; a sign alone is none.
  function NumberOf(text: string, dot: bool, exponent: bool): (r: Result<Term, TurtleError>)
    ensures r.Ok? ==> text != []
  {
    if !HasDigit(text) then Err(ExpectedObject)
    else Ok(Literal(text, Some(if exponent then XSD_DOUBLE else if dot then XSD_DECIMAL else XSD_INTEGER), None))
  }

  function NumericLiteral(s: string): (r: Read<Term>)
    ensures r.Ok? ==> |r.value.1| < |s|
  {
    var n := NumberTail(SkipSign(s), false, false);
    match NumberOf(s[..|s| - |n.rest|], n.dot, n.exponent) case Err(e) => Err(e) case Ok(term) => Ok((term, n.rest))
  }

  function BooleanLiteral(s: string): (r: Read<Term>)
    ensures r.Ok? ==> |r.value.1| < |s|
  {
    var word := s[..WordLength(s)];
    if word == "true" || word == "false" then Ok((Literal(word, Some(XSD_BOOLEAN), None), s[|word|..]))
    else Err(ExpectedBoolean(word))
  }

  predicate StartsNumber(c: char) { c == '+' || c == '-' || c == '.' || IsAsciiDigit(c) }

  // Objects that are not bracketed.
  function PlainObject(env: Env, s: string): (r: Read<Term>)
    ensures r.Ok? ==> |r.value.1| < |s|
  {
    if At(s, '"') || At(s, '\'') then StringLiteral(env, s)
    else if s != [] && StartsNumber(s[0]) then NumericLiteral(s)
    else if (At(s, 't') || At(s, 'f')) && StartsBoolean(s) then BooleanLiteral(s)
    else match IriOrBlank(env, s)
      case Err(e) => Err(e)
      case Ok((node, rest)) => Ok((ToTerm(node), rest))
  }

  // --- nested structures --------------------------------------------------------------

  // What the parser carries: the text left, the declarations, the number of labels
  // generated and the triples found.
  datatype State = State(rest: string, env: Env, counter: nat, triples: seq<Triple>)

  type Parsed<T> = Result<(T, State), TurtleError>

  function GeneratedLabel(n: nat): string { "_bnl" + Decimal(n) }

  function Fresh(n: nat): Resource { BlankNode(GeneratedLabel(n)) }

  function Emit(st: State, t: Triple): State { st.(triples := st.triples + [t]) }

  function Edge(subject: Resource, pred: string, obj: Term): Triple { Triple(subject, pred, obj, None) }

  // The first/rest chain for `items`, whose first cell is `cell`; each further cell
  // takes the next label.
  function Chain(cell: Resource, items: seq<Term>, counter: nat): (seq<Triple>, nat)
    decreases |items|
  {
    if items == [] then ([], counter)
    else
      var first := Edge(cell, RDF_FIRST, items[0]);
      if |items| == 1 then ([first, Edge(cell, RDF_REST, IriTerm(RDF_NIL))], counter)
      else
        var next := Fresh(counter + 1);
        var (more, last) := Chain(next, items[1..], counter + 1);
        ([first, Edge(cell, RDF_REST, ToTerm(next))] + more, last)
  }

  // After linking the items of a collection, the first cell taking the next label.
  function Linked(st: State, items: seq<Term>): State {
    if items == [] then st
    else
      var (chain, last) := Chain(Fresh(st.counter + 1), items, st.counter + 1);
      st.(triples := st.triples + chain, counter := last)
  }

  predicate Advanced<T>(r: Parsed<T>, s: string) { r.Ok? ==> |r.value.1.rest| < |s| }

  function ReadObject(st: State): (r: Parsed<Term>)
    ensures Advanced(r, st.rest)
    decreases |st.rest|, 3
  {
    var s := SkipWs(st.rest);
    if At(s, '[') then
      match PropertyList(st.(rest := s)) case Err(e) => Err(e) case Ok((node, st1)) => Ok((ToTerm(node), st1))
    else if At(s, '(') then
      match Collection(st.(rest := s)) case Err(e) => Err(e) case Ok((node, st1)) => Ok((ToTerm(node), st1))
    else
      match PlainObject(st.env, s) case Err(e) => Err(e) case Ok((term, rest)) => Ok((term, st.(rest := rest)))
  }

  function PropertyList(st: State): (r: Parsed<Resource>)
    ensures Advanced(r, st.rest)
    decreases |st.rest|, 2
  {
    match Expect(st.rest, '[')
    case Err(e) => Err(e)
    case Ok(s) =>
      var node := Fresh(st.counter + 1);
      var s1 := SkipWs(s);
      if At(s1, ']') then Ok((node, st.(rest := s1[1..], counter := st.counter + 1)))
      else match PredicateObjectList(st.(rest := s1, counter := st.counter + 1), node)
        case Err(e) => Err(e)
        case Ok((_, st1)) =>
          match Expect(SkipWs(st1.rest), ']')
          case Err(e) => Err(e)
          case Ok(s2) => Ok((node, st1.(rest := s2)))
  }

  function Collection(st: State): (r: Parsed<Resource>)
    ensures Advanced(r, st.rest)
    decreases |st.rest|, 2
  {
    match Expect(st.rest, '(')
    case Err(e) => Err(e)
    case Ok(s) =>
      match CollectionItems(st.(rest := s), [])
      case Err(e) => Err(e)
      case Ok((items, st1)) =>
        Ok((if items == [] then Iri(RDF_NIL) else Fresh(st1.counter + 1), Linked(st1, items)))
  }

  // The next item of a collection, or its end.
  function ItemOrEnd(st: State): (r: Parsed<Option<Term>>)
    ensures Advanced(r, st.rest)
    decreases |st.rest|, 4
  {
    var s := SkipWs(st.rest);
    if s == [] then Err(UnterminatedCollection)
    else if s[0] == ')' then Ok((None, st.(rest := s[1..])))
    else match ReadObject(st.(rest := s)) case Err(e) => Err(e) case Ok((item, st1)) => Ok((Some(item), st1))
  }

  function CollectionItems(st: State, items: seq<Term>): (r: Parsed<seq<Term>>)
    ensures Advanced(r, st.rest)
    decreases |st.rest|, 5
  {
    match ItemOrEnd(st)
    case Err(e) => Err(e)
    case Ok((None, st1)) => Ok((items, st1))
    case Ok((Some(item), st1)) => CollectionItems(st1, items + [item])
  }

  // One object with its triple, and whether a comma announces another.
  function ObjectAndTriple(st: State, subject: Resource, pred: string): (r: Parsed<bool>)
    ensures Advanced(r, st.rest)
    decreases |st.rest|, 4
  {
    match ReadObject(st.(rest := SkipWs(st.rest)))
    case Err(e) => Err(e)
    case Ok((obj, st1)) =>
      var st2 := Emit(st1, Edge(subject, pred, obj)).(rest := SkipWs(st1.rest));
      Ok(if At(st2.rest, ',') then (true, st2.(rest := st2.rest[1..])) else (false, st2))
  }

  function ObjectList(st: State, subject: Resource, pred: string): (r: Parsed<()>)
    ensures Advanced(r, st.rest)
    decreases |st.rest|, 5
  {
    match ObjectAndTriple(st, subject, pred)
    case Err(e) => Err(e)
    case Ok((more, st1)) => if more then ObjectList(st1, subject, pred) else Ok(((), st1))
  }

  predicate ClosesList(s: string) { s == [] || s[0] == '.' || s[0] == ']' }

  // Whether another verb follows; a semicolon before the end of the list is allowed.
  function Separator(s: string): (r: (bool, string))
    ensures |r.1| <= |s|
  {
    var s1 := SkipWs(s);
    if !At(s1, ';') then (false, s1)
    else
      var s2 := SkipWs(s1[1..]);
      (!ClosesList(s2), s2)
  }

  // One verb with its objects, and whether another verb follows.
  function VerbAndObjects(st: State, subject: Resource): (r: Parsed<bool>)
    ensures Advanced(r, st.rest)
    decreases |st.rest|, 6
  {
    match Verb(st.env, SkipWs(st.rest))
    case Err(e) => Err(e)
    case Ok((pred, s1)) =>
      match ObjectList(st.(rest := s1), subject, pred)
      case Err(e) => Err(e)
      case Ok((_, st1)) =>
        var (more, s2) := Separator(st1.rest);
        Ok((more, st1.(rest := s2)))
  }

  function PredicateObjectList(st: State, subject: Resource): (r: Parsed<()>)
    ensures Advanced(r, st.rest)
    decreases |st.rest|, 7
  {
    match VerbAndObjects(st, subject)
    case Err(e) => Err(e)
    case Ok((more, st1)) => if more then PredicateObjectList(st1, subject) else Ok(((), st1))
  }

  // --- statements, directives, documents -------------------------------------------------

  function Subject(st: State): (r: Parsed<Resource>)
    ensures Advanced(r, st.rest)
  {
    var s := SkipWs(st.rest);
    if At(s, '[') then PropertyList(st.(rest := s))
    else if At(s, '(') then Collection(st.(rest := s))
    else match IriOrBlank(st.env, s) case Err(e) => Err(e) case Ok((node, rest)) => Ok((node, st.(rest := rest)))
  }

  // The dot that ends a statement or an `@` declaration.
  function FinalDot(s: string): (r: Result<string, TurtleError>)
    ensures r.Ok? ==> |r.value| < |s|
  {
    Expect(SkipWs(s), '.')
  }

  // What follows the subject of a statement.
  function AfterSubject(st: State, subject: Resource): (r: Parsed<()>)
    ensures Advanced(r, st.rest)
  {
    match PredicateObjectList(st.(rest := SkipWs(st.rest)), subject)
    case Err(e) => Err(e)
    case Ok((_, st1)) =>
      match FinalDot(st1.rest) case Err(e) => Err(e) case Ok(s) => Ok(((), st1.(rest := s)))
  }

  function Statement(st: State): (r: Parsed<()>)
    ensures Advanced(r, st.rest)
  {
    match Subject(st) case Err(e) => Err(e) case Ok((subject, st1)) => AfterSubject(st1, subject)
  }

  // The label of a declaration: anything up to the colon without whitespace.
  function BindingLabel(s: string, read: string): (r: Read<string>)
    ensures r.Ok? ==> |r.value.1| <= |s|
    decreases |s|
  {
    if s == [] || s[0] == ':' then Ok((read, s))
    else if IsWhitespace(s[0]) then Err(ExpectedColon)
    else BindingLabel(s[1..], read + [s[0]])
  }

  function PrefixBinding(st: State): (r: Parsed<()>)
    ensures Advanced(r, st.rest)
  {
    match BindingLabel(st.rest, [])
    case Err(e) => Err(e)
    case Ok((name, s1)) =>
      match Expect(s1, ':')
      case Err(e) => Err(e)
      case Ok(s2) =>
        match IriRef(st.env.base, SkipWs(s2))
        case Err(e) => Err(e)
        case Ok((iri, s3)) => Ok(((), st.(rest := s3, env := st.env.(prefixes := st.env.prefixes[name := iri]))))
  }

  function BaseBinding(st: State): (r: Parsed<()>)
    ensures Advanced(r, st.rest)
  {
    match IriRef(st.env.base, st.rest)
    case Err(e) => Err(e)
    case Ok((iri, rest)) => Ok(((), st.(rest := rest, env := st.env.(base := Some(iri)))))
  }

  function Declare(word: string, st: State): (r: Parsed<()>)
    ensures Advanced(r, st.rest)
  {
    if word == "prefix" then PrefixBinding(st)
    else if word == "base" then BaseBinding(st)
    else Err(UnknownDirective(word))
  }

  // The keyword and what it declares.
  function Declared(st: State): (r: Parsed<()>)
    ensures Advanced(r, st.rest)
  {
    var word := st.rest[..WordLength(st.rest)];
    Declare(word, st.(rest := SkipWs(st.rest[|word|..])))
  }

  function Directive(st: State): (r: Parsed<()>)
    ensures Advanced(r, st.rest)
  {
    match Expect(st.rest, '@')
    case Err(e) => Err(e)
    case Ok(s) =>
      match Declared(st.(rest := s))
      case Err(e) => Err(e)
      case Ok((_, st1)) =>
        match FinalDot(st1.rest) case Err(e) => Err(e) case Ok(s1) => Ok(((), st1.(rest := s1)))
  }

  // The SPARQL form: the keyword has already been seen, in any case, and no dot.
  function SparqlDirective(st: State): (r: Parsed<()>)
    ensures Advanced(r, st.rest)
  {
    var word := st.rest[..WordLength(st.rest)];
    var after := st.(rest := SkipWs(st.rest[|word|..]));
    if SameIgnoringCase(word, "prefix") then PrefixBinding(after) else BaseBinding(after)
  }

  predicate AtSparqlDirective(s: string) { MatchesKeyword(s, "prefix") || MatchesKeyword(s, "base") }

  function OneStep(st: State): (r: Parsed<()>)
    ensures Advanced(r, st.rest)
  {
    if At(st.rest, '@') then Directive(st)
    else if AtSparqlDirective(st.rest) then SparqlDirective(st)
    else Statement(st)
  }

  function Document(st: State): Result<seq<Triple>, TurtleError>
    decreases |st.rest|
  {
    var s := SkipWs(st.rest);
    if s == [] then Ok(st.triples)
    else match OneStep(st.(rest := s))
      case Err(e) => Err(e)
      case Ok((_, st1)) => Document(st1)
  }

  const NO_DECLARATIONS := Env(None, map[])

  function ParseTurtle(input: string): Result<seq<Triple>, TurtleError> {
    Document(State(input, NO_DECLARATIONS, 0, []))
  }

  // --- facts the parser relies on ------------------------------------------------------

  // A matched keyword is exactly the next word, so a SPARQL directive is always one
  // of the two known ones.
  lemma {:induction false} KeywordIsWord(s: string, keyword: string)
    requires MatchesKeyword(s, keyword) && forall k :: 0 <= k < |keyword| ==> IsAsciiAlpha(keyword[k])
    ensures WordLength(s) == |keyword|
    decreases |keyword|
  {
    if keyword != [] {
      assert s[..|keyword|][0] == s[0] && Lower(s[0]) == Lower(keyword[0]);
      assert s[1..][..|keyword| - 1] == s[..|keyword|][1..];
      assert s[1..][|keyword| - 1..] == s[|keyword|..];
      forall k | 0 <= k < |keyword| - 1 ensures Lower(s[1..][..|keyword| - 1][k]) == Lower(keyword[1..][k]) {
        assert Lower(s[..|keyword|][k + 1]) == Lower(keyword[k + 1]);
      }
      KeywordIsWord(s[1..], keyword[1..]);
    }
  }

  lemma SparqlWordIsKnown(s: string)
    requires AtSparqlDirective(s)
    ensures var word := s[..WordLength(s)]; SameIgnoringCase(word, "prefix") || SameIgnoringCase(word, "base")
  {
    if MatchesKeyword(s, "prefix") { KeywordIsWord(s, "prefix"); } else { KeywordIsWord(s, "base"); }
  }
}
