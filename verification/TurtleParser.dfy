// The recursive descent parser as code: one position in a character vector,
// declarations, a label counter and the triples found, all updated in place. Each
// method is proved to do what the grammar function of the same name says.

module TurtleParsing {
  import opened Common
  import opened RdfTerms
  import opened TurtleGrammar

  class Parser {
    const chars: string
    var pos: nat
    var base: Option<string>
    var prefixes: map<string, string>
    var blankCounter: nat
    var triples: seq<Triple>

    ghost predicate Valid()
      reads this
    {
      pos <= |chars|
    }

    ghost function Rest(): string
      reads this
      requires Valid()
    {
      chars[pos..]
    }

    ghost function Declarations(): Env
      reads this
    {
      Env(base, prefixes)
    }

    ghost function Contents(): State
      reads this
      requires Valid()
    {
      State(Rest(), Declarations(), blankCounter, triples)
    }

    // The value read and the text left are those of the grammar function.
    ghost predicate Reads<T>(spec: Read<T>, r: Result<T, TurtleError>)
      reads this
      requires Valid()
    {
      match spec case Err(e) => r == Err(e) case Ok((value, rest)) => r == Ok(value) && Rest() == rest
    }

    // The same for the functions that also declare, count and emit.
    ghost predicate Runs<T>(spec: Parsed<T>, r: Result<T, TurtleError>)
      reads this
      requires Valid()
    {
      match spec case Err(e) => r == Err(e) case Ok((value, st)) => r == Ok(value) && Contents() == st
    }

    constructor (input: string)
      ensures Valid() && Contents() == State(input, NO_DECLARATIONS, 0, [])
    {
      chars := input;
      pos := 0;
      base := None;
      prefixes := map[];
      blankCounter := 0;
      triples := [];
      new;
      assert chars[0..] == chars;
    }

    // --- lexing helpers ---------------------------------------------------------

    function Peek(): Option<char>
      reads this
      requires Valid()
      ensures Peek() == First(Rest())
    {
      if pos < |chars| then Some(chars[pos]) else None
    }

    function PeekAt(offset: nat): Option<char>
      reads this
      requires Valid()
      ensures PeekAt(offset) == if offset < |Rest()| then Some(Rest()[offset]) else None
    {
      if pos + offset < |chars| then Some(chars[pos + offset]) else None
    }

    method Advance(n: nat)
      requires Valid() && n <= |Rest()|
      modifies this`pos
      ensures Valid() && pos == old(pos) + n && Rest() == old(Rest())[n..]
    {
      pos := pos + n;
    }

    method SkipSpace()
      requires Valid()
      modifies this`pos
      ensures Valid() && Rest() == SkipWs(old(Rest())) && pos >= old(pos)
    {
      while true
        invariant Valid() && pos >= old(pos) && SkipWs(Rest()) == SkipWs(old(Rest()))
        decreases |chars| - pos
      {
        if pos < |chars| && IsWhitespace(chars[pos]) {
          Advance(1);
        } else if Peek() == Some('#') {
          SkipLine();
        } else {
          break;
        }
      }
    }

    method SkipLine()
      requires Valid() && Rest() != []
      modifies this`pos
      ensures Valid() && Rest() == SkipComment(old(Rest())) && pos > old(pos)
    {
      while pos < |chars|
        invariant Valid() && SkipComment(Rest()) == SkipComment(old(Rest())) && pos >= old(pos)
      {
        var c := chars[pos];
        Advance(1);
        if c == '\n' { return; }
      }
    }

    method ExpectChar(c: char) returns (r: Result<(), TurtleError>)
      requires Valid()
      modifies this`pos
      ensures Valid()
      ensures match Expect(old(Rest()), c)
              case Err(e) => r == Err(e)
              case Ok(rest) => r == Ok(()) && Rest() == rest
    {
      var next := Peek();
      if next.Some? { Advance(1); }
      if next == Some(c) { return Ok(()); }
      return Err(Expected(c, next));
    }

    method ReadBareWord() returns (word: string)
      requires Valid()
      modifies this`pos
      ensures Valid() && word == old(Rest())[..WordLength(old(Rest()))] && Rest() == old(Rest())[|word|..]
    {
      var start := pos;
      while pos < |chars| && IsAsciiAlpha(chars[pos])
        invariant Valid() && start <= pos
        invariant WordLength(old(Rest())) == pos - start + WordLength(Rest())
      {
        Advance(1);
      }
      word := chars[start..pos];
    }

    predicate TokenBoundary(at: nat)
      reads this
    {
      at >= |chars| || IsBoundary(chars[at..])
    }

    predicate AtKeyword(keyword: string)
      reads this
      requires Valid()
      ensures AtKeyword(keyword) <==> MatchesKeyword(Rest(), keyword)
    {
      assert pos + |keyword| <= |chars| ==> Rest()[..|keyword|] == chars[pos..pos + |keyword|];
      assert pos + |keyword| <= |chars| ==> Rest()[|keyword|..] == chars[pos + |keyword|..];
      pos + |keyword| <= |chars| && SameIgnoringCase(chars[pos..pos + |keyword|], keyword) && TokenBoundary(pos + |keyword|)
    }

    predicate AtWord(word: string)
      reads this
      requires Valid()
      ensures AtWord(word) <==> StartsWord(Rest(), word)
    {
      assert pos + |word| <= |chars| ==> Rest()[..|word|] == chars[pos..pos + |word|];
      assert pos + |word| <= |chars| ==> Rest()[|word|..] == chars[pos + |word|..];
      pos + |word| <= |chars| && chars[pos..pos + |word|] == word && TokenBoundary(pos + |word|)
    }

    method ReadHexDigits(n: nat) returns (r: Result<char, TurtleError>)
      requires Valid()
      modifies this`pos
      ensures Valid()
      ensures match ReadHex(old(Rest()), n, 0)
              case Err(e) => r == Err(BadHex(e))
              case Ok((c, rest)) => r == Ok(c) && Rest() == rest
    {
      var code: nat := 0;
      var left: nat := n;
      while left > 0
        invariant Valid() && left <= n
        invariant ReadHex(old(Rest()), n, 0) == ReadHex(Rest(), left, code)
      {
        if pos == |chars| { return Err(BadHex(Truncated)); }
        var digit := HexValue(chars[pos]);
        if digit.None? { return Err(BadHex(BadDigit)); }
        Advance(1);
        code := code * 16 + digit.value;
        left := left - 1;
      }
      match CharOf(code) {
        case Some(c) => r := Ok(c);
        case None => r := Err(BadHex(BadCodePoint));
      }
    }

    method FreshBlank() returns (node: Resource)
      modifies this`blankCounter
      ensures blankCounter == old(blankCounter) + 1 && node == Fresh(blankCounter)
    {
      blankCounter := blankCounter + 1;
      node := Fresh(blankCounter);
    }

    // --- terms ------------------------------------------------------------------

    method ReadIriRef() returns (r: Result<string, TurtleError>)
      requires Valid()
      modifies this`pos
      ensures Valid() && Reads(IriRef(base, old(Rest())), r)
    {
      var open := ExpectChar('<');
      if open.Err? { return Err(open.error); }
      ghost var body := Rest();
      var raw: string := [];
      while true
        invariant Valid() && IriBody(body, []) == IriBody(Rest(), raw)
        decreases |chars| - pos
      {
        if pos == |chars| { return Err(UnterminatedIri); }
        var c := chars[pos];
        Advance(1);
        if c == '>' { break; }
        if c == '\\' {
          var next := Peek();
          if next.None? { return Err(BadIriEscape(None)); }
          if next.value != 'u' && next.value != 'U' { return Err(BadIriEscape(next)); }
          ghost var before := chars[pos - 1..];
          Advance(1);
          assert before[2..] == Rest();
          var h := ReadHexDigits(if next.value == 'u' then 4 else 8);
          if h.Err? { return Err(h.error); }
          raw := raw + [h.value];
        } else {
          raw := raw + [c];
        }
      }
      return Ok(Resolve(base, raw));
    }

    method ReadLocal() returns (text: string)
      requires Valid()
      modifies this`pos
      ensures Valid() && text == old(Rest())[..LocalLength(old(Rest()))] && Rest() == old(Rest())[|text|..]
      ensures pos == old(pos) + |text|
    {
      var start := pos;
      while pos < |chars| && IsPnLocalChar(chars[pos])
        invariant Valid() && start <= pos
        invariant LocalLength(old(Rest())) == pos - start + LocalLength(Rest())
      {
        Advance(1);
      }
      text := chars[start..pos];
    }

    method ReadBlankLabel() returns (r: Result<string, TurtleError>)
      requires Valid()
      modifies this`pos
      ensures Valid() && Reads(BlankLabel(old(Rest())), r)
    {
      var mark := ExpectChar('_');
      if mark.Err? { return Err(mark.error); }
      mark := ExpectChar(':');
      if mark.Err? { return Err(mark.error); }
      var text := ReadLocal();
      if text == [] { return Err(EmptyLabel); }
      return Ok("u_" + text);
    }

    method ReadPrefixedName() returns (r: Result<string, TurtleError>)
      requires Valid()
      modifies this`pos
      ensures Valid() && Reads(PrefixedName(prefixes, old(Rest())), r)
    {
      var prefix: string := [];
      while pos < |chars| && chars[pos] != ':'
        invariant Valid() && PrefixLabel(old(Rest()), []) == PrefixLabel(Rest(), prefix)
      {
        var c := chars[pos];
        if !IsPnPrefixChar(c) { return Err(UnexpectedInTerm(c)); }
        Advance(1);
        prefix := prefix + [c];
      }
      var colon := ExpectChar(':');
      if colon.Err? { return Err(colon.error); }
      ghost var after := Rest();
      var over := ReadLocal();
      var local := TrimDots(over);
      // give back the trailing dots
      var trimmed := |over| - |local|;
      pos := pos - trimmed;
      assert Rest() == after[|local|..];
      if prefix in prefixes { return Ok(prefixes[prefix] + local); }
      return Err(UnknownPrefix(prefix));
    }

    method ReadIriOrBlank() returns (r: Result<Resource, TurtleError>)
      requires Valid()
      modifies this`pos
      ensures Valid() && Reads(IriOrBlank(Declarations(), old(Rest())), r)
    {
      SkipSpace();
      var next := Peek();
      if next.None? { return Err(ExpectedTerm); }
      if next.value == '<' {
        var iri := ReadIriRef();
        match iri { case Err(e) => r := Err(e); case Ok(text) => r := Ok(Iri(text)); }
      } else if next.value == '_' {
        var name := ReadBlankLabel();
        match name { case Err(e) => r := Err(e); case Ok(text) => r := Ok(BlankNode(text)); }
      } else {
        var iri := ReadPrefixedName();
        match iri { case Err(e) => r := Err(e); case Ok(text) => r := Ok(Iri(text)); }
      }
    }

    method ReadVerb() returns (r: Result<string, TurtleError>)
      requires Valid()
      modifies this`pos
      ensures Valid() && Reads(Verb(Declarations(), old(Rest())), r)
    {
      SkipSpace();
      if Peek() == Some('a') && TokenBoundary(pos + 1) {
        assert Rest()[1..] == chars[pos + 1..];
        Advance(1);
        return Ok(RDF_TYPE);
      }
      assert At(Rest(), 'a') ==> Rest()[1..] == chars[pos + 1..];
      var node := ReadIriOrBlank();
      match node {
        case Err(e) => r := Err(e);
        case Ok(Iri(iri)) => r := Ok(iri);
        case Ok(BlankNode(_)) => r := Err(PredicateIsBlank);
      }
    }

    // --- literals ---------------------------------------------------------------

    method ReadStringEscape() returns (r: Result<char, TurtleError>)
      requires Valid()
      modifies this`pos
      ensures Valid() && Reads(StringEscape(old(Rest())), r)
    {
      var next := Peek();
      if next.None? { return Err(DanglingEscape); }
      Advance(1);
      if next.value == 'u' {
        r := ReadHexDigits(4);
      } else if next.value == 'U' {
        r := ReadHexDigits(8);
      } else {
        match ShortEscape(next.value) {
          case Some(c) => r := Ok(c);
          case None => r := Err(InvalidEscape(next.value));
        }
      }
    }

    method ReadStringBody(quote: char, long: bool) returns (r: Result<string, TurtleError>)
      requires Valid()
      modifies this`pos
      ensures Valid() && Reads(StringBody(old(Rest()), quote, long, []), r)
    {
      var value: string := [];
      while true
        invariant Valid() && StringBody(old(Rest()), quote, long, []) == StringBody(Rest(), quote, long, value)
        decreases |chars| - pos
      {
        if pos == |chars| { return Err(UnterminatedString); }
        var c := chars[pos];
        ghost var before := Rest();
        Advance(1);
        if c == quote {
          if !long { return Ok(value); }
          if Peek() == Some(quote) && PeekAt(1) == Some(quote) {
            Advance(2);
            assert Rest() == before[3..];
            return Ok(value);
          }
          value := value + [c];
        } else if c == '\\' {
          var escaped := ReadStringEscape();
          if escaped.Err? { return Err(escaped.error); }
          value := value + [escaped.value];
        } else {
          value := value + [c];
        }
      }
    }

    method ReadLiteralSuffix(value: string) returns (r: Result<Term, TurtleError>)
      requires Valid()
      modifies this`pos
      ensures Valid() && Reads(LiteralSuffix(Declarations(), value, old(Rest())), r)
    {
      if Peek() == Some('@') {
        Advance(1);
        var start := pos;
        ghost var tag := Rest();
        while pos < |chars| && IsLanguageChar(chars[pos])
          invariant Valid() && start <= pos
          invariant LanguageLength(tag) == pos - start + LanguageLength(Rest())
        {
          Advance(1);
        }
        if pos == start { return Err(EmptyLanguage); }
        assert tag[..pos - start] == chars[start..pos] && tag[pos - start..] == Rest();
        return Ok(Literal(value, None, Some(chars[start..pos])));
      }
      if Peek() == Some('^') && PeekAt(1) == Some('^') {
        Advance(2);
        SkipSpace();
        var iri: Result<string, TurtleError>;
        if Peek() == Some('<') { iri := ReadIriRef(); } else { iri := ReadPrefixedName(); }
        match iri {
          case Err(e) => return Err(e);
          case Ok(text) => return Ok(Literal(value, Some(text), None));
        }
      }
      return Ok(Literal(value, None, None));
    }

    // The caller has seen the quote.
    method ReadStringLiteral() returns (r: Result<Term, TurtleError>)
      requires Valid() && Rest() != []
      modifies this`pos
      ensures Valid() && Reads(StringLiteral(Declarations(), old(Rest())), r)
    {
      var quote := chars[pos];
      Advance(1);
      var long := Peek() == Some(quote) && PeekAt(1) == Some(quote);
      ghost var before := old(Rest());
      if long {
        Advance(2);
        assert Rest() == before[3..];
      }
      var value := ReadStringBody(quote, long);
      if value.Err? { return Err(value.error); }
      r := ReadLiteralSuffix(value.value);
    }

    method ScanNumber() returns (dot: bool, exponent: bool)
      requires Valid()
      modifies this`pos
      ensures Valid() && pos >= old(pos)
      ensures NumberTail(old(Rest()), false, false) == Scanned(Rest(), dot, exponent)
    {
      dot, exponent := false, false;
      while pos < |chars|
        invariant Valid() && old(pos) <= pos
        invariant NumberTail(old(Rest()), false, false) == NumberTail(Rest(), dot, exponent)
        decreases |chars| - pos
      {
        var c := chars[pos];
        if IsAsciiDigit(c) {
          Advance(1);
        } else if c == '.' && !dot && !exponent {
          var digit := PeekAt(1);
          if digit.None? || !IsAsciiDigit(digit.value) { break; }
          dot := true;
          Advance(1);
        } else if (c == 'e' || c == 'E') && !exponent {
          exponent := true;
          Advance(1);
          if Peek() == Some('+') || Peek() == Some('-') { Advance(1); }
        } else {
          break;
        }
      }
    }

    method ReadNumericLiteral() returns (r: Result<Term, TurtleError>)
      requires Valid()
      modifies this`pos
      ensures Valid() && Reads(NumericLiteral(old(Rest())), r)
    {
      var start := pos;
      if Peek() == Some('+') || Peek() == Some('-') { Advance(1); }
      var dot, exponent := ScanNumber();
      var text := chars[start..pos];
      assert old(Rest())[..|old(Rest())| - |Rest()|] == text;
      return NumberOf(text, dot, exponent);
    }

    method ReadBooleanLiteral() returns (r: Result<Term, TurtleError>)
      requires Valid()
      modifies this`pos
      ensures Valid() && Reads(BooleanLiteral(old(Rest())), r)
    {
      var word := ReadBareWord();
      if word == "true" || word == "false" { return Ok(Literal(word, Some(XSD_BOOLEAN), None)); }
      return Err(ExpectedBoolean(word));
    }

    method ReadPlainObject() returns (r: Result<Term, TurtleError>)
      requires Valid()
      modifies this`pos
      ensures Valid() && Reads(PlainObject(Declarations(), old(Rest())), r)
    {
      var next := Peek();
      if next == Some('"') || next == Some('\'') {
        r := ReadStringLiteral();
      } else if next.Some? && StartsNumber(next.value) {
        r := ReadNumericLiteral();
      } else if (next == Some('t') || next == Some('f')) && (AtWord("true") || AtWord("false")) {
        r := ReadBooleanLiteral();
      } else {
        var node := ReadIriOrBlank();
        match node { case Err(e) => r := Err(e); case Ok(found) => r := Ok(ToTerm(found)); }
      }
    }

    // --- nested structures --------------------------------------------------------

    method ParseObject() returns (r: Result<Term, TurtleError>)
      requires Valid()
      modifies this
      ensures Valid() && Runs(ReadObject(old(Contents())), r)
      decreases |chars| - pos, 3
    {
      SkipSpace();
      var next := Peek();
      if next == Some('[') {
        var node := ParsePropertyList();
        match node { case Err(e) => r := Err(e); case Ok(found) => r := Ok(ToTerm(found)); }
      } else if next == Some('(') {
        var node := ParseCollection();
        match node { case Err(e) => r := Err(e); case Ok(found) => r := Ok(ToTerm(found)); }
      } else {
        r := ReadPlainObject();
      }
    }

    method ParsePropertyList() returns (r: Result<Resource, TurtleError>)
      requires Valid()
      modifies this
      ensures Valid() && Runs(PropertyList(old(Contents())), r)
      decreases |chars| - pos, 2
    {
      var mark := ExpectChar('[');
      if mark.Err? { return Err(mark.error); }
      var node := FreshBlank();
      SkipSpace();
      if Peek() == Some(']') {
        Advance(1);
        return Ok(node);
      }
      assert At(Rest(), ']') == false && Contents() == old(Contents()).(rest := Rest(), counter := old(blankCounter) + 1);
      var inside := ParsePredicateObjectList(node);
      if inside.Err? { return Err(inside.error); }
      SkipSpace();
      mark := ExpectChar(']');
      if mark.Err? { return Err(mark.error); }
      return Ok(node);
    }

    method ParseItem() returns (r: Result<Option<Term>, TurtleError>)
      requires Valid()
      modifies this
      ensures Valid() && Runs(ItemOrEnd(old(Contents())), r)
      decreases |chars| - pos, 4
    {
      SkipSpace();
      var next := Peek();
      if next == Some(')') {
        Advance(1);
        return Ok(None);
      }
      if next.None? { return Err(UnterminatedCollection); }
      var item := ParseObject();
      match item { case Err(e) => r := Err(e); case Ok(found) => r := Ok(Some(found)); }
    }

    method ParseItems() returns (r: Result<seq<Term>, TurtleError>)
      requires Valid()
      modifies this
      ensures Valid() && Runs(CollectionItems(old(Contents()), []), r)
      decreases |chars| - pos, 5
    {
      var items: seq<Term> := [];
      while true
        invariant Valid() && pos >= old(pos)
        invariant CollectionItems(old(Contents()), []) == CollectionItems(Contents(), items)
        decreases |chars| - pos
      {
        var item := ParseItem();
        if item.Err? { return Err(item.error); }
        if item.value.None? { return Ok(items); }
        items := items + [item.value.value];
      }
    }

    method ParseCollection() returns (r: Result<Resource, TurtleError>)
      requires Valid()
      modifies this
      ensures Valid() && Runs(Collection(old(Contents())), r)
      decreases |chars| - pos, 2
    {
      var mark := ExpectChar('(');
      if mark.Err? { return Err(mark.error); }
      var items := ParseItems();
      if items.Err? { return Err(items.error); }
      if items.value == [] { return Ok(Iri(RDF_NIL)); }
      var head := FreshBlank();
      LinkCells(head, items.value);
      return Ok(head);
    }

    // The first/rest chain: one cell an item, ending in rdf:nil.
    method LinkCells(head: Resource, items: seq<Term>)
      requires Valid() && items != []
      modifies this`triples, this`blankCounter
      ensures var (chain, last) := Chain(head, items, old(blankCounter));
              triples == old(triples) + chain && blankCounter == last
    {
      var current := head;
      ghost var (chain, last) := Chain(head, items, blankCounter);
      ghost var more := chain;
      var i := 0;
      assert items[0..] == items;
      assert old(triples) + chain == triples + more;
      while i < |items|
        invariant 0 <= i <= |items|
        invariant old(triples) + chain == triples + more
        invariant Chain(current, items[i..], blankCounter) == (more, last)
      {
        assert items[i..][1..] == items[i + 1..];
        ghost var before := triples;
        triples := triples + [Edge(current, RDF_FIRST, items[i])];
        if i + 1 == |items| {
          triples := triples + [Edge(current, RDF_REST, IriTerm(RDF_NIL))];
          assert before + more == triples;
          more := [];
        } else {
          var next := FreshBlank();
          triples := triples + [Edge(current, RDF_REST, ToTerm(next))];
          ghost var tail := Chain(next, items[i + 1..], blankCounter).0;
          assert before + more == triples + tail;
          more := tail;
          current := next;
        }
        i := i + 1;
      }
      assert items[i..] == [];
      assert triples + [] == triples;
    }

    method ParseObjectAndTriple(subject: Resource, pred: string) returns (r: Result<bool, TurtleError>)
      requires Valid()
      modifies this
      ensures Valid() && Runs(ObjectAndTriple(old(Contents()), subject, pred), r)
      decreases |chars| - pos, 4
    {
      SkipSpace();
      var obj := ParseObject();
      if obj.Err? { return Err(obj.error); }
      triples := triples + [Edge(subject, pred, obj.value)];
      SkipSpace();
      if Peek() != Some(',') { return Ok(false); }
      Advance(1);
      return Ok(true);
    }

    method ParseObjectList(subject: Resource, pred: string) returns (r: Result<(), TurtleError>)
      requires Valid()
      modifies this
      ensures Valid() && Runs(ObjectList(old(Contents()), subject, pred), r)
      decreases |chars| - pos, 5
    {
      while true
        invariant Valid() && pos >= old(pos)
        invariant ObjectList(old(Contents()), subject, pred) == ObjectList(Contents(), subject, pred)
        decreases |chars| - pos
      {
        var more := ParseObjectAndTriple(subject, pred);
        if more.Err? { return Err(more.error); }
        if !more.value { return Ok(()); }
      }
    }

    method ReadSeparator() returns (more: bool)
      requires Valid()
      modifies this`pos
      ensures Valid() && (more, Rest()) == Separator(old(Rest()))
    {
      SkipSpace();
      if Peek() != Some(';') { return false; }
      Advance(1);
      SkipSpace();
      var next := Peek();
      return !(next.None? || next == Some('.') || next == Some(']'));
    }

    method ParseVerbAndObjects(subject: Resource) returns (r: Result<bool, TurtleError>)
      requires Valid()
      modifies this
      ensures Valid() && Runs(VerbAndObjects(old(Contents()), subject), r)
      decreases |chars| - pos, 6
    {
      SkipSpace();
      var pred := ReadVerb();
      if pred.Err? { return Err(pred.error); }
      var objects := ParseObjectList(subject, pred.value);
      if objects.Err? { return Err(objects.error); }
      var more := ReadSeparator();
      return Ok(more);
    }

    method ParsePredicateObjectList(subject: Resource) returns (r: Result<(), TurtleError>)
      requires Valid()
      modifies this
      ensures Valid() && Runs(PredicateObjectList(old(Contents()), subject), r)
      decreases |chars| - pos, 7
    {
      while true
        invariant Valid() && pos >= old(pos)
        invariant PredicateObjectList(old(Contents()), subject) == PredicateObjectList(Contents(), subject)
        decreases |chars| - pos
      {
        var more := ParseVerbAndObjects(subject);
        if more.Err? { return Err(more.error); }
        if !more.value { return Ok(()); }
      }
    }

    // --- statements, directives, documents -----------------------------------------

    method ParseSubject() returns (r: Result<Resource, TurtleError>)
      requires Valid()
      modifies this
      ensures Valid() && Runs(Subject(old(Contents())), r)
    {
      SkipSpace();
      var next := Peek();
      if next == Some('[') {
        r := ParsePropertyList();
      } else if next == Some('(') {
        r := ParseCollection();
      } else {
        r := ReadIriOrBlank();
      }
    }

    method ReadFinalDot() returns (r: Result<(), TurtleError>)
      requires Valid()
      modifies this`pos
      ensures Valid()
      ensures match FinalDot(old(Rest()))
              case Err(e) => r == Err(e)
              case Ok(rest) => r == Ok(()) && Rest() == rest
    {
      SkipSpace();
      r := ExpectChar('.');
    }

    method ParseStatement() returns (r: Result<(), TurtleError>)
      requires Valid()
      modifies this
      ensures Valid() && Runs(Statement(old(Contents())), r)
    {
      var subject := ParseSubject();
      if subject.Err? { return Err(subject.error); }
      SkipSpace();
      var list := ParsePredicateObjectList(subject.value);
      if list.Err? { return Err(list.error); }
      r := ReadFinalDot();
    }

    method ReadBindingLabel() returns (r: Result<string, TurtleError>)
      requires Valid()
      modifies this`pos
      ensures Valid() && Reads(BindingLabel(old(Rest()), []), r)
    {
      var name: string := [];
      while pos < |chars| && chars[pos] != ':'
        invariant Valid() && BindingLabel(old(Rest()), []) == BindingLabel(Rest(), name)
      {
        var c := chars[pos];
        if IsWhitespace(c) { return Err(ExpectedColon); }
        Advance(1);
        name := name + [c];
      }
      return Ok(name);
    }

    method ParsePrefixBinding() returns (r: Result<(), TurtleError>)
      requires Valid()
      modifies this`pos, this`prefixes
      ensures Valid() && Runs(PrefixBinding(old(Contents())), r)
    {
      var name := ReadBindingLabel();
      if name.Err? { return Err(name.error); }
      var colon := ExpectChar(':');
      if colon.Err? { return Err(colon.error); }
      SkipSpace();
      var iri := ReadIriRef();
      if iri.Err? { return Err(iri.error); }
      prefixes := prefixes[name.value := iri.value];
      return Ok(());
    }

    method ParseBaseBinding() returns (r: Result<(), TurtleError>)
      requires Valid()
      modifies this`pos, this`base
      ensures Valid() && Runs(BaseBinding(old(Contents())), r)
    {
      var iri := ReadIriRef();
      if iri.Err? { return Err(iri.error); }
      base := Some(iri.value);
      return Ok(());
    }

    method ParseDeclaration(word: string) returns (r: Result<(), TurtleError>)
      requires Valid()
      modifies this
      ensures Valid() && Runs(Declare(word, old(Contents())), r)
    {
      match word {
        case "prefix" => r := ParsePrefixBinding();
        case "base" => r := ParseBaseBinding();
        case _ => r := Err(UnknownDirective(word));
      }
    }

    method ParseDeclared() returns (r: Result<(), TurtleError>)
      requires Valid()
      modifies this
      ensures Valid() && Runs(Declared(old(Contents())), r)
    {
      ghost var start := Contents();
      var word := ReadBareWord();
      SkipSpace();
      assert Contents() == start.(rest := SkipWs(start.rest[|word|..]));
      r := ParseDeclaration(word);
    }

    method ParseDirective() returns (r: Result<(), TurtleError>)
      requires Valid()
      modifies this
      ensures Valid() && Runs(Directive(old(Contents())), r)
    {
      var mark := ExpectChar('@');
      if mark.Err? { return Err(mark.error); }
      var declared := ParseDeclared();
      if declared.Err? { return declared; }
      r := ReadFinalDot();
    }

    // The caller has seen one of the two keywords; no third word can come here.
    method ParseSparqlDirective() returns (r: Result<(), TurtleError>)
      requires Valid() && AtSparqlDirective(Rest())
      modifies this
      ensures Valid() && Runs(SparqlDirective(old(Contents())), r)
    {
      SparqlWordIsKnown(Rest());
      var word := ReadBareWord();
      SkipSpace();
      if SameIgnoringCase(word, "prefix") {
        r := ParsePrefixBinding();
      } else {
        assert SameIgnoringCase(word, "base");
        r := ParseBaseBinding();
      }
    }

    method ParseDocument() returns (r: Result<seq<Triple>, TurtleError>)
      requires Valid()
      modifies this
      ensures r == Document(old(Contents()))
    {
      while true
        invariant Valid() && Document(old(Contents())) == Document(Contents())
        decreases |chars| - pos
      {
        SkipSpace();
        if pos == |chars| { return Ok(triples); }
        ghost var before := Contents();
        var step: Result<(), TurtleError>;
        if Peek() == Some('@') {
          step := ParseDirective();
        } else if AtKeyword("prefix") || AtKeyword("base") {
          step := ParseSparqlDirective();
        } else {
          step := ParseStatement();
        }
        assert Runs(OneStep(before), step);
        if step.Err? { return Err(step.error); }
      }
    }
  }

  method Parse(input: string) returns (r: Result<seq<Triple>, TurtleError>)
    ensures r == ParseTurtle(input)
  {
    var parser := new Parser(input);
    r := parser.ParseDocument();
  }
}
