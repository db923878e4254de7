// The line parser for N-Triples and N-Quads, with its two-pass escape decoding,
// and the canonical writer it inverts.

module NTriples {
  import opened Common
  import opened RdfTerms

  datatype LineError =
    | Unterminated | DanglingEscape | InvalidEscape(c: char) | BadHex(e: HexError)
    | ExpectedIri | ExpectedBlank | EmptyLabel | ExpectedResource | ExpectedObject | ExpectedLiteral
    | EmptyLanguage | PredicateNotIri | UnexpectedToken | NoFinalDot

  type Read<T> = Result<(T, string), LineError>

  // --- the grammar as functions of the text still to be read -----------------------

  function SkipBlanks(s: string): (r: string)
    ensures |r| <= |s|
  {
    if s != [] && (s[0] == ' ' || s[0] == '\t') then SkipBlanks(s[1..]) else s
  }

  // First pass: up to the closing mark, keeping every escape as it stands.
  function ScanRaw(s: string, close: char, raw: string): (r: Read<string>)
    ensures r.Ok? ==> |r.value.1| < |s|
    decreases |s|
  {
    if s == [] then Err(Unterminated)
    else if s[0] == close then Ok((raw, s[1..]))
    else if s[0] == '\\' then
      if |s| == 1 then Err(DanglingEscape) else ScanRaw(s[2..], close, raw + ['\\', s[1]])
    else ScanRaw(s[1..], close, raw + [s[0]])
  }

  // Second pass: escapes replaced by what they stand for.
  function DecodeFrom(s: string, out: string): Result<string, LineError>
    decreases |s|
  {
    if s == [] then Ok(out)
    else if s[0] != '\\' then DecodeFrom(s[1..], out + [s[0]])
    else if |s| == 1 then Err(DanglingEscape)
    else if s[1] == 'u' || s[1] == 'U' then
      match ReadHex(s[2..], if s[1] == 'u' then 4 else 8, 0)
      case Err(e) => Err(BadHex(e))
      case Ok((c, rest)) => DecodeFrom(rest, out + [c])
    else
      match ShortEscape(s[1])
      case None => Err(InvalidEscape(s[1]))
      case Some(c) => DecodeFrom(s[2..], out + [c])
  }

  function Decode(raw: string): Result<string, LineError> {
    if '\\' !in raw then Ok(raw) else DecodeFrom(raw, [])
  }

  function Delimited(s: string, close: char): (r: Read<string>)
    ensures r.Ok? ==> |r.value.1| < |s|
  {
    match ScanRaw(s, close, [])
    case Err(e) => Err(e)
    case Ok((raw, rest)) => match Decode(raw) case Err(e) => Err(e) case Ok(value) => Ok((value, rest))
  }

  function ReadIri(s: string): (r: Read<string>)
    ensures r.Ok? ==> |r.value.1| < |s|
  {
    if s == [] || s[0] != '<' then Err(ExpectedIri) else Delimited(s[1..], '>')
  }

  predicate EndsLabel(c: char) { IsWhitespace(c) || c == '<' || c == '"' }

  function LabelLength(s: string): (n: nat)
    ensures n <= |s|
  {
    if s == [] || EndsLabel(s[0]) then 0 else 1 + LabelLength(s[1..])
  }

  function ReadBlank(s: string): (r: Read<string>)
    ensures r.Ok? ==> |r.value.1| < |s|
  {
    if |s| < 2 || s[0] != '_' || s[1] != ':' then Err(ExpectedBlank)
    else
      var n := LabelLength(s[2..]);
      if n == 0 then Err(EmptyLabel) else Ok((s[2..][..n], s[2..][n..]))
  }

  function ReadResource(s: string): (r: Read<Resource>)
    ensures r.Ok? ==> |r.value.1| < |s|
  {
    if s != [] && s[0] == '<' then
      match ReadIri(s) case Err(e) => Err(e) case Ok((iri, rest)) => Ok((Iri(iri), rest))
    else if s != [] && s[0] == '_' then
      match ReadBlank(s) case Err(e) => Err(e) case Ok((name, rest)) => Ok((BlankNode(name), rest))
    else Err(ExpectedResource)
  }

  function LanguageLength(s: string): (n: nat)
    ensures n <= |s|
  {
    if s == [] || !IsLanguageChar(s[0]) then 0 else 1 + LanguageLength(s[1..])
  }

  // What may follow the closing quote of a literal.
  function ReadSuffix(value: string, s: string): (r: Read<Term>)
    ensures r.Ok? ==> |r.value.1| <= |s|
  {
    if |s| >= 2 && s[0] == '^' && s[1] == '^' then
      match ReadIri(s[2..]) case Err(e) => Err(e) case Ok((iri, rest)) => Ok((Literal(value, Some(iri), None), rest))
    else if s != [] && s[0] == '@' then
      var n := LanguageLength(s[1..]);
      if n == 0 then Err(EmptyLanguage) else Ok((Literal(value, None, Some(s[1..][..n])), s[1..][n..]))
    else Ok((Literal(value, None, None), s))
  }

  function ReadLiteral(s: string): (r: Read<Term>)
    ensures r.Ok? ==> |r.value.1| < |s|
  {
    if s == [] || s[0] != '"' then Err(ExpectedLiteral)
    else match Delimited(s[1..], '"')
      case Err(e) => Err(e)
      case Ok((value, rest)) => ReadSuffix(value, rest)
  }

  function ReadObject(s: string): Read<Term> {
    if s != [] && s[0] == '<' then
      match ReadIri(s) case Err(e) => Err(e) case Ok((iri, rest)) => Ok((IriTerm(iri), rest))
    else if s != [] && s[0] == '_' then
      match ReadBlank(s) case Err(e) => Err(e) case Ok((name, rest)) => Ok((BlankTerm(name), rest))
    else if s != [] && s[0] == '"' then ReadLiteral(s)
    else Err(ExpectedObject)
  }

  // The graph label as it is recorded on the quad.
  function GraphName(r: Resource): string {
    match r case Iri(iri) => iri case BlankNode(name) => "_:" + name
  }

  function ReadGraph(s: string, quads: bool): Read<Option<string>> {
    if s != [] && s[0] == '.' then Ok((None, s))
    else if !quads then Err(UnexpectedToken)
    else match ReadResource(s)
      case Err(e) => Err(e)
      case Ok((graph, rest)) => Ok((Some(GraphName(graph)), SkipBlanks(rest)))
  }

  // Blank lines and comments carry no statement.
  predicate Skipped(line: string) {
    if line == [] then true else if IsWhitespace(line[0]) then Skipped(line[1..]) else line[0] == '#'
  }

  // A statement after its subject and predicate, with the blanks before the object.
  function ReadRest(subject: Resource, pred: string, s: string, quads: bool): Result<Triple, LineError> {
    match ReadObject(SkipBlanks(s))
    case Err(e) => Err(e)
    case Ok((obj, s1)) =>
      match ReadGraph(SkipBlanks(s1), quads)
      case Err(e) => Err(e)
      case Ok((graph, s2)) =>
        if s2 == [] || s2[0] != '.' then Err(NoFinalDot) else Ok(Triple(subject, pred, obj, graph))
  }

  function ReadStatement(s: string, quads: bool): Result<Triple, LineError> {
    match ReadResource(SkipBlanks(s))
    case Err(e) => Err(e)
    case Ok((subject, s1)) =>
      var s2 := SkipBlanks(s1);
      if s2 == [] || s2[0] != '<' then Err(PredicateNotIri)
      else match ReadIri(s2)
        case Err(e) => Err(e)
        case Ok((pred, s3)) => ReadRest(subject, pred, s3, quads)
  }

  function ParseStatement(line: string, quads: bool): Result<Option<Triple>, LineError> {
    if Skipped(line) then Ok(None)
    else match ReadStatement(line, quads) case Err(e) => Err(e) case Ok(t) => Ok(Some(t))
  }

  // --- the canonical writer ---------------------------------------------------------

  predicate ValidLabel(name: string) { name != [] && forall k :: 0 <= k < |name| ==> !EndsLabel(name[k]) }

  predicate ValidLanguage(tag: string) { tag != [] && forall k :: 0 <= k < |tag| ==> IsLanguageChar(tag[k]) }

  predicate ValidResource(r: Resource) { r.BlankNode? ==> ValidLabel(r.name) }

  predicate ValidTerm(t: Term) {
    match t
    case IriTerm(_) => true
    case BlankTerm(name) => ValidLabel(name)
    case Literal(_, datatypeIri, language) =>
      && (datatypeIri.Some? ==> language.None?)
      && (language.Some? ==> ValidLanguage(language.value))
  }

  // Terms a statement can be written with: labels and language tags have the shape
  // the formats require.
  predicate ValidTriple(t: Triple) { ValidResource(t.subject) && ValidTerm(t.obj) }

  function PrintBlank(name: string, k: string): string { ['_', ':'] + (name + k) }

  function PrintResource(r: Resource, k: string): string {
    match r case Iri(iri) => PrintIri(iri, k) case BlankNode(name) => PrintBlank(name, k)
  }

  function PrintSuffix(datatypeIri: Option<string>, language: Option<string>, k: string): string {
    match datatypeIri
    case Some(iri) => ['^', '^'] + PrintIri(iri, k)
    case None => match language case Some(tag) => ['@'] + (tag + k) case None => k
  }

  function PrintTerm(t: Term, k: string): string {
    match t
    case IriTerm(iri) => PrintIri(iri, k)
    case BlankTerm(name) => PrintBlank(name, k)
    case Literal(value, datatypeIri, language) =>
      ['"'] + EscapeString(value, '"', ['"'] + PrintSuffix(datatypeIri, language, k))
  }

  function PrintGraph(graph: Option<string>, k: string): string {
    match graph case None => k case Some(iri) => PrintIri(iri, [' '] + k)
  }

  function PrintStatement(t: Triple, k: string): string {
    PrintResource(t.subject, [' '] + PrintIri(t.pred, [' '] + PrintTerm(t.obj, [' '] + PrintGraph(t.graph, ['.'] + k))))
  }

  // --- the reader inverts the writer ----------------------------------------------------

  // One escaped or plain character survives the first pass as it is.
  lemma ScanIriChar(c: char, k: string, raw: string)
    ensures ScanRaw(EscapeIriChar(c) + k, '>', raw) == ScanRaw(k, '>', raw + EscapeIriChar(c))
  {
    var e := EscapeIriChar(c);
    var s := e + k;
    if NeedsIriEscape(c) {
      var h := Hex4(c);
      assert s[2..] == h + k && raw + ['\\', 'u'] + h == raw + e;
      ScanPlain(h, '>', k, raw + ['\\', 'u']);
    } else {
      assert s[1..] == k;
    }
  }

  lemma {:induction false} ScanPlain(text: string, close: char, k: string, raw: string)
    requires forall j :: 0 <= j < |text| ==> text[j] != close && text[j] != '\\'
    ensures ScanRaw(text + k, close, raw) == ScanRaw(k, close, raw + text)
    decreases |text|
  {
    if text == [] {
      assert text + k == k && raw + text == raw;
    } else {
      assert (text + k)[1..] == text[1..] + k;
      ScanPlain(text[1..], close, k, raw + [text[0]]);
      assert raw + [text[0]] + text[1..] == raw + text;
    }
  }

  lemma {:induction false} ScanIri(iri: string, k: string, raw: string)
    ensures ScanRaw(EscapeIri(iri, ['>'] + k), '>', raw) == Ok((raw + EscapeIri(iri, []), k))
    decreases |iri|
  {
    if iri == [] {
      assert (['>'] + k)[1..] == k && raw + [] == raw;
    } else {
      ScanIriChar(iri[0], EscapeIri(iri[1..], ['>'] + k), raw);
      ScanIri(iri[1..], k, raw + EscapeIriChar(iri[0]));
      assert raw + EscapeIriChar(iri[0]) + EscapeIri(iri[1..], []) == raw + EscapeIri(iri, []);
    }
  }

  lemma DecodeIriChar(c: char, k: string, out: string)
    ensures DecodeFrom(EscapeIriChar(c) + k, out) == DecodeFrom(k, out + [c])
  {
    var s := EscapeIriChar(c) + k;
    if NeedsIriEscape(c) {
      Hex4ReadsBack(c, k);
      assert s[2..] == Hex4(c) + k;
    } else {
      assert s[1..] == k;
    }
  }

  lemma {:induction false} DecodeIri(iri: string, out: string)
    ensures DecodeFrom(EscapeIri(iri, []), out) == Ok(out + iri)
    decreases |iri|
  {
    if iri == [] {
      assert out + iri == out;
    } else {
      DecodeIriChar(iri[0], EscapeIri(iri[1..], []), out);
      DecodeIri(iri[1..], out + [iri[0]]);
      assert out + [iri[0]] + iri[1..] == out + iri;
    }
  }

  // The shortcut for text without escapes agrees with the second pass.
  lemma {:induction false} DecodePlain(raw: string, out: string)
    requires '\\' !in raw
    ensures DecodeFrom(raw, out) == Ok(out + raw)
    decreases |raw|
  {
    if raw == [] {
      assert out + raw == out;
    } else {
      DecodePlain(raw[1..], out + [raw[0]]);
      assert out + [raw[0]] + raw[1..] == out + raw;
    }
  }

  lemma DecodeIsDecodeFrom(raw: string)
    ensures Decode(raw) == DecodeFrom(raw, [])
  {
    if '\\' !in raw {
      DecodePlain(raw, []);
      assert [] + raw == raw;
    }
  }

  lemma IriReadsBack(iri: string, k: string)
    ensures ReadIri(PrintIri(iri, k)) == Ok((iri, k))
  {
    var raw := EscapeIri(iri, []);
    ScanIri(iri, k, []);
    assert [] + raw == raw && [] + iri == iri;
    DecodeIsDecodeFrom(raw);
    DecodeIri(iri, []);
    assert PrintIri(iri, k)[1..] == EscapeIri(iri, ['>'] + k);
  }

  lemma ScanStringChar(c: char, k: string, raw: string)
    ensures ScanRaw(EscapeStringChar(c, '"') + k, '"', raw) == ScanRaw(k, '"', raw + EscapeStringChar(c, '"'))
  {
    var e := EscapeStringChar(c, '"');
    var s := e + k;
    if |e| == 2 {
      assert s[2..] == k && s[0] == '\\' && raw + ['\\', s[1]] == raw + e;
    } else {
      assert s[1..] == k;
    }
  }

  lemma {:induction false} ScanString(value: string, k: string, raw: string)
    ensures ScanRaw(EscapeString(value, '"', ['"'] + k), '"', raw) == Ok((raw + EscapeString(value, '"', []), k))
    decreases |value|
  {
    if value == [] {
      assert (['"'] + k)[1..] == k && raw + [] == raw;
    } else {
      var e := EscapeStringChar(value[0], '"');
      ScanStringChar(value[0], EscapeString(value[1..], '"', ['"'] + k), raw);
      ScanString(value[1..], k, raw + e);
      assert raw + e + EscapeString(value[1..], '"', []) == raw + EscapeString(value, '"', []);
    }
  }

  lemma {:induction false} DecodeString(value: string, out: string)
    ensures DecodeFrom(EscapeString(value, '"', []), out) == Ok(out + value)
    decreases |value|
  {
    if value == [] {
      assert out + value == out;
    } else {
      var rest := EscapeString(value[1..], '"', []);
      DecodeStringChar(value[0], rest, out);
      DecodeString(value[1..], out + [value[0]]);
      assert out + [value[0]] + value[1..] == out + value;
    }
  }

  lemma DecodeStringChar(c: char, k: string, out: string)
    ensures DecodeFrom(EscapeStringChar(c, '"') + k, out) == DecodeFrom(k, out + [c])
  {
    var e := EscapeStringChar(c, '"');
    var s := e + k;
    if |e| == 2 {
      assert s[2..] == k && ShortEscape(s[1]) == Some(c);
    } else {
      assert s[1..] == k;
    }
  }

  lemma {:induction false} LabelReadsBack(name: string, k: string)
    requires (forall j :: 0 <= j < |name| ==> !EndsLabel(name[j])) && k != [] && EndsLabel(k[0])
    ensures LabelLength(name + k) == |name|
  {
    if name == [] {
      assert name + k == k;
    } else {
      assert (name + k)[1..] == name[1..] + k;
      LabelReadsBack(name[1..], k);
    }
  }

  lemma BlankReadsBack(name: string, k: string)
    requires ValidLabel(name) && k != [] && EndsLabel(k[0])
    ensures ReadBlank(PrintBlank(name, k)) == Ok((name, k))
  {
    LabelReadsBack(name, k);
    assert PrintBlank(name, k)[2..] == name + k;
    assert (name + k)[..|name|] == name && (name + k)[|name|..] == k;
  }

  lemma {:induction false} LanguageReadsBack(tag: string, k: string)
    requires (forall j :: 0 <= j < |tag| ==> IsLanguageChar(tag[j])) && (k == [] || !IsLanguageChar(k[0]))
    ensures LanguageLength(tag + k) == |tag|
  {
    if tag == [] {
      assert tag + k == k;
    } else {
      assert (tag + k)[1..] == tag[1..] + k;
      LanguageReadsBack(tag[1..], k);
    }
  }

  lemma SuffixReadsBack(value: string, datatypeIri: Option<string>, language: Option<string>, k: string)
    requires ValidTerm(Literal(value, datatypeIri, language)) && k != [] && k[0] == ' '
    ensures ReadSuffix(value, PrintSuffix(datatypeIri, language, k)) == Ok((Literal(value, datatypeIri, language), k))
  {
    var s := PrintSuffix(datatypeIri, language, k);
    if datatypeIri.Some? {
      IriReadsBack(datatypeIri.value, k);
      assert s[2..] == PrintIri(datatypeIri.value, k);
    } else if language.Some? {
      var tag := language.value;
      LanguageReadsBack(tag, k);
      assert s[1..] == tag + k && (tag + k)[..|tag|] == tag && (tag + k)[|tag|..] == k;
    }
  }

  lemma TermReadsBack(t: Term, k: string)
    requires ValidTerm(t) && k != [] && k[0] == ' '
    ensures ReadObject(PrintTerm(t, k)) == Ok((t, k))
  {
    match t
    case IriTerm(iri) => IriReadsBack(iri, k);
    case BlankTerm(name) => BlankReadsBack(name, k);
    case Literal(value, datatypeIri, language) =>
      var tail := PrintSuffix(datatypeIri, language, k);
      var raw := EscapeString(value, '"', []);
      ScanString(value, tail, []);
      assert [] + raw == raw && [] + value == value;
      DecodeIsDecodeFrom(raw);
      DecodeString(value, []);
      SuffixReadsBack(value, datatypeIri, language, k);
      assert PrintTerm(t, k)[1..] == EscapeString(value, '"', ['"'] + tail);
  }

  lemma ResourceReadsBack(r: Resource, k: string)
    requires ValidResource(r) && k != [] && k[0] == ' '
    ensures ReadResource(PrintResource(r, k)) == Ok((r, k))
  {
    match r
    case Iri(iri) => IriReadsBack(iri, k);
    case BlankNode(name) => BlankReadsBack(name, k);
  }

  lemma SkipOne(k: string)
    requires k != [] && k[0] != ' ' && k[0] != '\t'
    ensures SkipBlanks([' '] + k) == k && SkipBlanks(k) == k
  {
    assert ([' '] + k)[1..] == k;
  }

  // Every printed piece starts with its own opening mark.
  lemma Openings(t: Triple, k: string)
    requires ValidTriple(t)
    ensures PrintResource(t.subject, k)[0] in {'<', '_'}
    ensures PrintTerm(t.obj, k)[0] in {'<', '_', '"'}
  {
  }

  lemma RestReadsBack(t: Triple, quads: bool, k: string)
    requires ValidTriple(t) && (t.graph.Some? ==> quads)
    ensures ReadRest(t.subject, t.pred, [' '] + PrintTerm(t.obj, [' '] + PrintGraph(t.graph, ['.'] + k)), quads) == Ok(t)
  {
    var s2 := ['.'] + k;
    var s1 := PrintGraph(t.graph, s2);
    GraphReadsBack(t.graph, quads, s2);
    Openings(t, [' '] + s1);
    SkipOne(PrintTerm(t.obj, [' '] + s1));
    TermReadsBack(t.obj, [' '] + s1);
    SkipOne(s1);
  }

  // Main result: every triple, and every quad named by an IRI, is read back from its
  // canonical text; what follows the final dot does not matter.
  lemma StatementReadsBack(t: Triple, quads: bool, k: string)
    requires ValidTriple(t) && (t.graph.Some? ==> quads)
    ensures ParseStatement(PrintStatement(t, k), quads) == Ok(Some(t))
  {
    var s3 := [' '] + PrintTerm(t.obj, [' '] + PrintGraph(t.graph, ['.'] + k));
    var s2 := PrintIri(t.pred, s3);
    Openings(t, [' '] + s2);
    SkipOne(PrintResource(t.subject, [' '] + s2));
    ResourceReadsBack(t.subject, [' '] + s2);
    SkipOne(s2);
    IriReadsBack(t.pred, s3);
    RestReadsBack(t, quads, k);
  }

  lemma GraphReadsBack(graph: Option<string>, quads: bool, k: string)
    requires (graph.Some? ==> quads) && k != [] && k[0] == '.'
    ensures ReadGraph(PrintGraph(graph, k), quads) == Ok((graph, k))
    ensures PrintGraph(graph, k)[0] in {'<', '.'}
  {
    if graph.Some? {
      IriReadsBack(graph.value, [' '] + k);
      SkipOne(k);
    }
  }

  // --- whole documents --------------------------------------------------------------------

  function LineLength(s: string): (n: nat)
    ensures n <= |s| && (s != [] ==> n >= 1)
  {
    if s == [] then 0 else if s[0] == '\n' then 1 else 1 + LineLength(s[1..])
  }

  // A line without its terminator.
  function Chomped(s: string): string {
    if s != [] && s[|s| - 1] == '\n' then
      var t := s[..|s| - 1];
      if t != [] && t[|t| - 1] == '\r' then t[..|t| - 1] else t
    else s
  }

  // The statements of a document, or the number of the first bad line.
  function ReadDocument(s: string, quads: bool, lineNo: nat): Result<seq<Triple>, (nat, LineError)>
    decreases |s|
  {
    if s == [] then Ok([])
    else
      var n := LineLength(s);
      match ParseStatement(Chomped(s[..n]), quads)
      case Err(e) => Err((lineNo + 1, e))
      case Ok(statement) =>
        match ReadDocument(s[n..], quads, lineNo + 1)
        case Err(e) => Err(e)
        case Ok(rest) => Ok((match statement case None => [] case Some(t) => [t]) + rest)
  }

  function PrintDocument(ts: seq<Triple>): string {
    if ts == [] then [] else PrintStatement(ts[0], ['\n'] + PrintDocument(ts[1..]))
  }

  // Printing before `k` is printing alone and then `k`, and is one line.
  ghost predicate OneLineBefore(text: string, alone: string, k: string) { text == alone + k && '\n' !in alone }

  lemma {:induction false} EscapeIriBefore(iri: string, j: string, k: string)
    ensures EscapeIri(iri, j + k) == EscapeIri(iri, j) + k
    ensures '\n' !in j ==> '\n' !in EscapeIri(iri, j)
    decreases |iri|
  {
    if iri != [] {
      EscapeIriBefore(iri[1..], j, k);
      IriCharIsOneLine(iri[0]);
    }
  }

  lemma IriCharIsOneLine(c: char)
    ensures '\n' !in EscapeIriChar(c)
  {
  }

  lemma FrontBefore(front: string, text: string, alone: string, k: string)
    requires OneLineBefore(text, alone, k) && '\n' !in front
    ensures OneLineBefore(front + text, front + alone, k)
  {
    assert front + (alone + k) == front + alone + k;
  }

  lemma IriBefore(iri: string, j: string, k: string)
    requires '\n' !in j
    ensures OneLineBefore(PrintIri(iri, j + k), PrintIri(iri, j), k)
  {
    EscapeIriBefore(iri, ['>'] + j, k);
    assert ['>'] + (j + k) == ['>'] + j + k;
    FrontBefore(['<'], EscapeIri(iri, ['>'] + j + k), EscapeIri(iri, ['>'] + j), k);
  }

  lemma {:induction false} EscapeStringBefore(value: string, j: string, k: string)
    ensures EscapeString(value, '"', j + k) == EscapeString(value, '"', j) + k
    ensures '\n' !in j ==> '\n' !in EscapeString(value, '"', j)
    decreases |value|
  {
    if value != [] { EscapeStringBefore(value[1..], j, k); }
  }

  lemma TextBefore(text: string, j: string, k: string)
    requires '\n' !in text && '\n' !in j
    ensures OneLineBefore(text + (j + k), text + j, k)
  {
    FrontBefore(text, j + k, j, k);
  }

  lemma BlankBefore(name: string, j: string, k: string)
    requires ValidLabel(name) && '\n' !in j
    ensures OneLineBefore(PrintBlank(name, j + k), PrintBlank(name, j), k)
  {
    TextBefore(name, j, k);
    FrontBefore(['_', ':'], name + (j + k), name + j, k);
  }

  lemma ResourceBefore(r: Resource, j: string, k: string)
    requires ValidResource(r) && '\n' !in j
    ensures OneLineBefore(PrintResource(r, j + k), PrintResource(r, j), k)
  {
    match r
    case Iri(iri) => IriBefore(iri, j, k);
    case BlankNode(name) => BlankBefore(name, j, k);
  }

  lemma SuffixBefore(datatypeIri: Option<string>, language: Option<string>, j: string, k: string)
    requires ValidTerm(Literal([], datatypeIri, language)) && '\n' !in j
    ensures OneLineBefore(PrintSuffix(datatypeIri, language, j + k), PrintSuffix(datatypeIri, language, j), k)
  {
    if datatypeIri.Some? {
      IriBefore(datatypeIri.value, j, k);
      FrontBefore(['^', '^'], PrintIri(datatypeIri.value, j + k), PrintIri(datatypeIri.value, j), k);
    } else if language.Some? {
      TextBefore(language.value, j, k);
      FrontBefore(['@'], language.value + (j + k), language.value + j, k);
    }
  }

  lemma LiteralBefore(value: string, tail: string, k: string)
    requires '\n' !in tail
    ensures OneLineBefore(['"'] + EscapeString(value, '"', ['"'] + (tail + k)), ['"'] + EscapeString(value, '"', ['"'] + tail), k)
  {
    EscapeStringBefore(value, ['"'] + tail, k);
    assert ['"'] + (tail + k) == ['"'] + tail + k;
    FrontBefore(['"'], EscapeString(value, '"', ['"'] + tail + k), EscapeString(value, '"', ['"'] + tail), k);
  }

  lemma TermBefore(t: Term, j: string, k: string)
    requires ValidTerm(t) && '\n' !in j
    ensures OneLineBefore(PrintTerm(t, j + k), PrintTerm(t, j), k)
  {
    match t
    case IriTerm(iri) => IriBefore(iri, j, k);
    case BlankTerm(name) => BlankBefore(name, j, k);
    case Literal(value, datatypeIri, language) =>
      SuffixBefore(datatypeIri, language, j, k);
      LiteralBefore(value, PrintSuffix(datatypeIri, language, j), k);
  }

  lemma GraphBefore(graph: Option<string>, j: string, k: string)
    requires '\n' !in j
    ensures OneLineBefore(PrintGraph(graph, j + k), PrintGraph(graph, j), k)
  {
    if graph.Some? {
      IriBefore(graph.value, [' '] + j, k);
      assert [' '] + (j + k) == [' '] + j + k;
    }
  }

  // A statement up to its graph; the final dot is part of what follows.
  function PrintFromObject(t: Triple, k: string): string { PrintTerm(t.obj, [' '] + PrintGraph(t.graph, k)) }

  function PrintFromPredicate(t: Triple, k: string): string { PrintIri(t.pred, [' '] + PrintFromObject(t, k)) }

  function PrintUndotted(t: Triple, k: string): string { PrintResource(t.subject, [' '] + PrintFromPredicate(t, k)) }

  lemma FromObjectBefore(t: Triple, j: string, k: string)
    requires ValidTriple(t) && '\n' !in j
    ensures OneLineBefore(PrintFromObject(t, j + k), PrintFromObject(t, j), k)
  {
    var alone := PrintGraph(t.graph, j);
    GraphBefore(t.graph, j, k);
    FrontBefore([' '], PrintGraph(t.graph, j + k), alone, k);
    TermBefore(t.obj, [' '] + alone, k);
  }

  lemma FromPredicateBefore(t: Triple, j: string, k: string)
    requires ValidTriple(t) && '\n' !in j
    ensures OneLineBefore(PrintFromPredicate(t, j + k), PrintFromPredicate(t, j), k)
  {
    var alone := PrintFromObject(t, j);
    FromObjectBefore(t, j, k);
    FrontBefore([' '], PrintFromObject(t, j + k), alone, k);
    IriBefore(t.pred, [' '] + alone, k);
  }

  lemma UndottedBefore(t: Triple, j: string, k: string)
    requires ValidTriple(t) && '\n' !in j
    ensures OneLineBefore(PrintUndotted(t, j + k), PrintUndotted(t, j), k)
  {
    var alone := PrintFromPredicate(t, j);
    FromPredicateBefore(t, j, k);
    FrontBefore([' '], PrintFromPredicate(t, j + k), alone, k);
    ResourceBefore(t.subject, [' '] + alone, k);
  }

  lemma StatementIsOneLine(t: Triple, k: string)
    requires ValidTriple(t)
    ensures OneLineBefore(PrintStatement(t, k), PrintStatement(t, []), k)
  {
    assert ['.'] + [] == ['.'];
    UndottedBefore(t, ['.'], k);
  }

  lemma {:induction false} LineLengthIs(text: string, k: string)
    requires '\n' !in text
    ensures LineLength(text + (['\n'] + k)) == |text| + 1
  {
    var s := text + (['\n'] + k);
    if text != [] {
      LineLengthIs(text[1..], k);
      assert s[1..] == text[1..] + (['\n'] + k);
    }
  }

  lemma StatementEndsWithDot(t: Triple)
    requires ValidTriple(t)
    ensures var s := PrintStatement(t, []); s != [] && s[|s| - 1] == '.'
  {
    assert ['.'] + [] == ['.'] && [] + ['.'] == ['.'];
    UndottedBefore(t, [], ['.']);
  }

  lemma FirstLine(text: string, rest: string)
    requires '\n' !in text && text != [] && text[|text| - 1] == '.'
    ensures var s := text + (['\n'] + rest);
            var n := LineLength(s);
            n == |text| + 1 && Chomped(s[..n]) == text && s[n..] == rest
  {
    LineLengthIs(text, rest);
    var s := text + (['\n'] + rest);
    assert s[..|text| + 1] == text + ['\n'];
    assert (text + ['\n'])[..|text|] == text;
  }

  lemma ReadDocumentStep(s: string, quads: bool, lineNo: nat, t: Triple, rest: seq<Triple>)
    requires s != [] && ParseStatement(Chomped(s[..LineLength(s)]), quads) == Ok(Some(t))
    requires ReadDocument(s[LineLength(s)..], quads, lineNo + 1) == Ok(rest)
    ensures ReadDocument(s, quads, lineNo) == Ok([t] + rest)
  {
  }

  // Main result: a document of canonical lines reads back as its statements.
  lemma {:induction false} DocumentReadsBack(ts: seq<Triple>, quads: bool, lineNo: nat)
    requires forall k :: 0 <= k < |ts| ==> ValidTriple(ts[k]) && (ts[k].graph.Some? ==> quads)
    ensures ReadDocument(PrintDocument(ts), quads, lineNo) == Ok(ts)
    decreases |ts|
  {
    if ts != [] {
      var rest := PrintDocument(ts[1..]);
      var text := PrintStatement(ts[0], []);
      StatementIsOneLine(ts[0], ['\n'] + rest);
      StatementEndsWithDot(ts[0]);
      FirstLine(text, rest);
      StatementReadsBack(ts[0], quads, []);
      DocumentReadsBack(ts[1..], quads, lineNo + 1);
      ReadDocumentStep(text + (['\n'] + rest), quads, lineNo, ts[0], ts[1..]);
      assert [ts[0]] + ts[1..] == ts;
    }
  }

  // --- the parser as code ---------------------------------------------------------------------

  // The index `j` reached in `chars` is where the grammar function says to go on.
  ghost predicate Agrees<T>(spec: Read<T>, r: Result<T, LineError>, chars: string, j: nat) {
    match spec
    case Err(e) => r == Err(e)
    case Ok((value, rest)) => r == Ok(value) && j <= |chars| && chars[j..] == rest
  }

  method SkipWs(chars: string, i: nat) returns (j: nat)
    requires i <= |chars|
    ensures j <= |chars| && chars[j..] == SkipBlanks(chars[i..])
  {
    j := i;
    while j < |chars| && (chars[j] == ' ' || chars[j] == '\t')
      invariant i <= j <= |chars| && SkipBlanks(chars[j..]) == SkipBlanks(chars[i..])
    {
      assert chars[j..][1..] == chars[j + 1..];
      j := j + 1;
    }
  }

  // The loop shared by IRIs and literals.
  method ScanDelimited(chars: string, i: nat, close: char) returns (r: Result<string, LineError>, j: nat)
    requires i <= |chars|
    ensures Agrees(Delimited(chars[i..], close), r, chars, j)
  {
    var raw: string := [];
    j := i;
    while true
      invariant i <= j <= |chars|
      invariant ScanRaw(chars[i..], close, []) == ScanRaw(chars[j..], close, raw)
      decreases |chars| - j
    {
      if j == |chars| { return Err(Unterminated), j; }
      var c := chars[j];
      assert chars[j..][0] == c && chars[j..][1..] == chars[j + 1..];
      j := j + 1;
      if c == close { break; }
      if c == '\\' {
        if j == |chars| { return Err(DanglingEscape), j; }
        assert chars[j - 1..][2..] == chars[j + 1..];
        raw := raw + [c, chars[j]];
        j := j + 1;
      } else {
        raw := raw + [c];
      }
    }
    r := DecodeEscapes(raw);
  }

  method ReadHexDigits(s: string, i: nat, n: nat) returns (r: Result<char, HexError>, j: nat)
    requires i <= |s|
    ensures match ReadHex(s[i..], n, 0)
            case Err(e) => r == Err(e)
            case Ok((c, rest)) => r == Ok(c) && j == i + n && j <= |s| && s[j..] == rest
  {
    var code: nat := 0;
    j := i;
    var left := n;
    while left > 0
      invariant 0 <= left <= n && j == i + (n - left) && j <= |s|
      invariant ReadHex(s[i..], n, 0) == ReadHex(s[j..], left, code)
    {
      if j == |s| { return Err(Truncated), j; }
      var digit := HexValue(s[j]);
      if digit.None? { return Err(BadDigit), j; }
      assert s[j..][1..] == s[j + 1..];
      code := code * 16 + digit.value;
      j := j + 1;
      left := left - 1;
    }
    match CharOf(code) {
      case Some(c) => r := Ok(c);
      case None => r := Err(BadCodePoint);
    }
  }

  method DecodeEscapes(raw: string) returns (r: Result<string, LineError>)
    ensures r == Decode(raw)
  {
    if '\\' !in raw { return Ok(raw); }
    var out: string := [];
    var i := 0;
    assert raw[0..] == raw;
    while i < |raw|
      invariant 0 <= i <= |raw|
      invariant DecodeFrom(raw, []) == DecodeFrom(raw[i..], out)
    {
      var c := raw[i];
      assert raw[i..][1..] == raw[i + 1..];
      if c != '\\' {
        out := out + [c];
        i := i + 1;
      } else if i + 1 == |raw| {
        return Err(DanglingEscape);
      } else {
        var d := raw[i + 1];
        assert raw[i..][1] == d && raw[i..][2..] == raw[i + 2..];
        if d == 'u' || d == 'U' {
          var h, j := ReadHexDigits(raw, i + 2, if d == 'u' then 4 else 8);
          match h {
            case Err(e) => return Err(BadHex(e));
            case Ok(decoded) =>
              out := out + [decoded];
              i := j;
          }
        } else {
          match ShortEscape(d) {
            case None => return Err(InvalidEscape(d));
            case Some(decoded) =>
              out := out + [decoded];
              i := i + 2;
          }
        }
      }
    }
    return Ok(out);
  }

  method ParseIri(chars: string, i: nat) returns (r: Result<string, LineError>, j: nat)
    requires i <= |chars|
    ensures Agrees(ReadIri(chars[i..]), r, chars, j)
  {
    if i == |chars| || chars[i] != '<' { return Err(ExpectedIri), i; }
    assert chars[i..][1..] == chars[i + 1..];
    r, j := ScanDelimited(chars, i + 1, '>');
  }

  method ParseBlank(chars: string, i: nat) returns (r: Result<string, LineError>, j: nat)
    requires i <= |chars|
    ensures Agrees(ReadBlank(chars[i..]), r, chars, j)
  {
    if |chars| < i + 2 || chars[i] != '_' || chars[i + 1] != ':' { return Err(ExpectedBlank), i; }
    var start := i + 2;
    assert chars[i..][2..] == chars[start..];
    j := start;
    while j < |chars| && !EndsLabel(chars[j])
      invariant start <= j <= |chars|
      invariant LabelLength(chars[start..]) == j - start + LabelLength(chars[j..])
    {
      assert chars[j..][1..] == chars[j + 1..];
      j := j + 1;
    }
    assert LabelLength(chars[j..]) == 0 && LabelLength(chars[start..]) == j - start;
    if j == start { return Err(EmptyLabel), j; }
    assert chars[start..][..j - start] == chars[start..j] && chars[start..][j - start..] == chars[j..];
    return Ok(chars[start..j]), j;
  }

  method ParseResource(chars: string, i: nat) returns (r: Result<Resource, LineError>, j: nat)
    requires i <= |chars|
    ensures Agrees(ReadResource(chars[i..]), r, chars, j)
  {
    if i < |chars| && chars[i] == '<' {
      var iri, next := ParseIri(chars, i);
      match iri {
        case Err(e) => return Err(e), next;
        case Ok(text) => return Ok(Iri(text)), next;
      }
    }
    if i < |chars| && chars[i] == '_' {
      var blank, next := ParseBlank(chars, i);
      match blank {
        case Err(e) => return Err(e), next;
        case Ok(text) => return Ok(BlankNode(text)), next;
      }
    }
    return Err(ExpectedResource), i;
  }

  method ParseLiteral(chars: string, i: nat) returns (r: Result<Term, LineError>, j: nat)
    requires i <= |chars|
    ensures Agrees(ReadLiteral(chars[i..]), r, chars, j)
  {
    if i == |chars| || chars[i] != '"' { return Err(ExpectedLiteral), i; }
    assert chars[i..][1..] == chars[i + 1..];
    var value, next := ScanDelimited(chars, i + 1, '"');
    if value.Err? { return Err(value.error), next; }
    r, j := ParseSuffix(chars, next, value.value);
  }

  method ParseSuffix(chars: string, i: nat, value: string) returns (r: Result<Term, LineError>, j: nat)
    requires i <= |chars|
    ensures Agrees(ReadSuffix(value, chars[i..]), r, chars, j)
  {
    if i + 1 < |chars| && chars[i] == '^' && chars[i + 1] == '^' {
      assert chars[i..][2..] == chars[i + 2..];
      var iri, next := ParseIri(chars, i + 2);
      match iri {
        case Err(e) => return Err(e), next;
        case Ok(text) => return Ok(Literal(value, Some(text), None)), next;
      }
    }
    if i < |chars| && chars[i] == '@' {
      var start := i + 1;
      assert chars[i..][1..] == chars[start..];
      j := start;
      while j < |chars| && IsLanguageChar(chars[j])
        invariant start <= j <= |chars|
        invariant LanguageLength(chars[start..]) == j - start + LanguageLength(chars[j..])
      {
        assert chars[j..][1..] == chars[j + 1..];
        j := j + 1;
      }
      if j == start { return Err(EmptyLanguage), j; }
      assert chars[start..][..j - start] == chars[start..j] && chars[start..][j - start..] == chars[j..];
      return Ok(Literal(value, None, Some(chars[start..j]))), j;
    }
    return Ok(Literal(value, None, None)), i;
  }

  method ParseObject(chars: string, i: nat) returns (r: Result<Term, LineError>, j: nat)
    requires i <= |chars|
    ensures Agrees(ReadObject(chars[i..]), r, chars, j)
  {
    if i < |chars| && chars[i] == '"' {
      r, j := ParseLiteral(chars, i);
    } else if i < |chars| && (chars[i] == '<' || chars[i] == '_') {
      var resource, next := ParseResource(chars, i);
      match resource {
        case Err(e) => return Err(e), next;
        case Ok(node) => return Ok(ToTerm(node)), next;
      }
    } else {
      return Err(ExpectedObject), i;
    }
  }

  method ParseGraph(chars: string, i: nat, quads: bool) returns (r: Result<Option<string>, LineError>, j: nat)
    requires i <= |chars|
    ensures Agrees(ReadGraph(chars[i..], quads), r, chars, j)
  {
    if i < |chars| && chars[i] == '.' { return Ok(None), i; }
    if !quads { return Err(UnexpectedToken), i; }
    var resource, next := ParseResource(chars, i);
    if resource.Err? { return Err(resource.error), next; }
    j := SkipWs(chars, next);
    return Ok(Some(GraphName(resource.value))), j;
  }

  // One line: the index runs from left to right through the statement.
  method ParseLine(line: string, quads: bool) returns (r: Result<Option<Triple>, LineError>)
    ensures r == ParseStatement(line, quads)
  {
    if Skipped(line) { return Ok(None); }
    assert line[0..] == line;
    var i := SkipWs(line, 0);
    var subject, i1 := ParseResource(line, i);
    if subject.Err? { return Err(subject.error); }
    i := SkipWs(line, i1);
    if i == |line| || line[i] != '<' { return Err(PredicateNotIri); }
    var pred, i2 := ParseIri(line, i);
    if pred.Err? { return Err(pred.error); }
    i := SkipWs(line, i2);
    var obj, i3 := ParseObject(line, i);
    if obj.Err? { return Err(obj.error); }
    i := SkipWs(line, i3);
    var graph, i4 := ParseGraph(line, i, quads);
    if graph.Err? { return Err(graph.error); }
    if i4 == |line| || line[i4] != '.' { return Err(NoFinalDot); }
    return Ok(Some(Triple(subject.value, pred.value, obj.value, graph.value)));
  }
}
