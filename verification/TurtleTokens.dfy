// Names, labels, literals and keywords are read back from their text.

module TurtleTokens {
  import opened Common
  import opened RdfTerms
  import opened TurtleGrammar
  import opened TurtleSyntax

  // Text that a following token cannot run into.
  predicate Spaced(k: string) { k != [] && k[0] == ' ' }

  // A character that is not skipped between tokens.
  predicate Solid(c: char) { !IsWhitespace(c) && c != '#' }

  lemma SkipNothing(k: string)
    requires k != [] && Solid(k[0])
    ensures SkipWs(k) == k
  {
  }

  lemma SkipSpace(k: string)
    ensures SkipWs([' '] + k) == SkipWs(k) && SkipWs(['\n'] + k) == SkipWs(k)
  {
    assert ([' '] + k)[1..] == k && (['\n'] + k)[1..] == k;
  }

  // --- IRIs ---------------------------------------------------------------------------

  lemma IriCharReadsBack(c: char, k: string, raw: string)
    ensures IriBody(EscapeIriChar(c) + k, raw) == IriBody(k, raw + [c])
  {
    var s := EscapeIriChar(c) + k;
    if NeedsIriEscape(c) {
      Hex4ReadsBack(c, k);
      assert s[2..] == Hex4(c) + k;
    } else {
      assert s[1..] == k;
    }
  }

  lemma {:induction false} IriBodyReadsBack(iri: string, k: string, raw: string)
    ensures IriBody(EscapeIri(iri, ['>'] + k), raw) == Ok((raw + iri, k))
    decreases |iri|
  {
    if iri == [] {
      assert (['>'] + k)[1..] == k && raw + iri == raw;
    } else {
      IriCharReadsBack(iri[0], EscapeIri(iri[1..], ['>'] + k), raw);
      IriBodyReadsBack(iri[1..], k, raw + [iri[0]]);
      assert raw + [iri[0]] + iri[1..] == raw + iri;
    }
  }

  lemma IriRefReadsBack(base: Option<string>, raw: string, k: string)
    ensures IriRef(base, PrintIri(raw, k)) == Ok((Resolve(base, raw), k))
  {
    IriBodyReadsBack(raw, k, []);
    assert PrintIri(raw, k)[1..] == EscapeIri(raw, ['>'] + k) && [] + raw == raw;
  }

  // --- prefixed names and labels ----------------------------------------------------------

  lemma {:induction false} PrefixReadsBack(prefix: string, k: string, read: string)
    requires (forall j :: 0 <= j < |prefix| ==> IsPnPrefixChar(prefix[j])) && At(k, ':')
    ensures PrefixLabel(prefix + k, read) == Ok((read + prefix, k))
    decreases |prefix|
  {
    if prefix == [] {
      assert prefix + k == k && read + prefix == read;
    } else {
      assert (prefix + k)[1..] == prefix[1..] + k;
      PrefixReadsBack(prefix[1..], k, read + [prefix[0]]);
      assert read + [prefix[0]] + prefix[1..] == read + prefix;
    }
  }

  lemma {:induction false} LocalReadsBack(text: string, k: string)
    requires LocalChars(text) && Spaced(k)
    ensures LocalLength(text + k) == |text|
    decreases |text|
  {
    if text == [] {
      assert text + k == k;
    } else {
      assert (text + k)[1..] == text[1..] + k;
      LocalReadsBack(text[1..], k);
    }
  }

  lemma NameReadsBack(env: Env, prefix: string, local: string, k: string)
    requires ValidIri(env, Prefixed(prefix, local)) && Spaced(k)
    ensures PrefixedName(env.prefixes, PrintName(prefix, local, k)) == Ok((env.prefixes[prefix] + local, k))
  {
    var s := [':'] + (local + k);
    PrefixReadsBack(prefix, s, []);
    LocalReadsBack(local, k);
    assert [] + prefix == prefix && s[1..] == local + k;
    assert (local + k)[..|local|] == local && (local + k)[|local|..] == k;
    assert TrimDots(local) == local;
  }

  // What every printed name starts with.
  lemma NameOpening(prefix: string, local: string, k: string)
    requires ValidPrefix(prefix)
    ensures var s := PrintName(prefix, local, k);
            s[0] == (if prefix == [] then ':' else prefix[0]) && Solid(s[0]) && s[0] != '<' && s[0] != '_'
  {
  }

  lemma IriSyntaxOpening(env: Env, iri: IriSyntax, k: string)
    requires ValidIri(env, iri)
    ensures var s := PrintIriSyntax(iri, k);
            s != [] && Solid(s[0]) && (s[0] == '<' <==> iri.Full?) && s[0] !in {'_', '[', '(', '"', '\'', '@'}
  {
    match iri
    case Full(_) =>
    case Prefixed(prefix, local) => NameOpening(prefix, local, k);
  }

  lemma IriSyntaxReadsBack(env: Env, iri: IriSyntax, k: string)
    requires ValidIri(env, iri) && Spaced(k)
    ensures IriOrBlank(env, PrintIriSyntax(iri, k)) == Ok((Iri(Expand(env, iri)), k))
  {
    IriSyntaxOpening(env, iri, k);
    SkipNothing(PrintIriSyntax(iri, k));
    match iri
    case Full(raw) => IriRefReadsBack(env.base, raw, k);
    case Prefixed(prefix, local) => NameReadsBack(env, prefix, local, k);
  }

  lemma LabelReadsBack(env: Env, name: string, k: string)
    requires name != [] && LocalChars(name) && Spaced(k)
    ensures IriOrBlank(env, PrintLabel(name, k)) == Ok((BlankNode("u_" + name), k))
  {
    var s := PrintLabel(name, k);
    SkipNothing(s);
    LocalReadsBack(name, k);
    assert s[1..] == [':'] + (name + k) && s[1..][1..] == name + k;
    assert (name + k)[..|name|] == name && (name + k)[|name|..] == k;
  }

  // --- prefix labels taken for another token ------------------------------------------------

  // A label in front of its colon holds a word up to a token boundary exactly when the
  // word is followed in it by a dot.
  lemma WordInName(prefix: string, local: string, k: string, word: string)
    requires ValidPrefix(prefix) && (forall j :: 0 <= j < |word| ==> IsAsciiAlpha(word[j]))
    ensures StartsWord(PrintName(prefix, local, k), word) <==> word + "." <= prefix
  {
    var s := PrintName(prefix, local, k);
    if |word| < |prefix| {
      assert s[..|word|] == prefix[..|word|] && s[|word|..][0] == prefix[|word|];
      assert word <= s <==> word <= prefix;
    } else if |word| == |prefix| {
      assert s[|word|..][0] == ':';
    } else {
      assert s[|prefix|] == ':' && word[|prefix|] != ':';
    }
  }

  lemma BooleanInName(prefix: string, local: string, k: string)
    requires ValidPrefix(prefix)
    ensures StartsBoolean(PrintName(prefix, local, k)) <==> HidesBoolean(prefix)
  {
    WordInName(prefix, local, k, "true");
    WordInName(prefix, local, k, "false");
    assert "true" + "." == "true." && "false" + "." == "false.";
  }

  // Main result on objects: a prefixed name is read as itself if and only if its
  // label does not begin with `true.` or `false.`.
  lemma ObjectNameReadsBack(env: Env, prefix: string, local: string, k: string)
    requires ValidIri(env, Prefixed(prefix, local)) && Spaced(k)
    ensures PlainObject(env, PrintName(prefix, local, k)) == Ok((IriTerm(env.prefixes[prefix] + local), k))
       <==> !HidesBoolean(prefix)
  {
    NameOpening(prefix, local, k);
    BooleanInName(prefix, local, k);
    if !HidesBoolean(prefix) { IriSyntaxReadsBack(env, Prefixed(prefix, local), k); }
  }

  // Main result on verbs: the same for a label beginning with `a.`.
  lemma VerbNameReadsBack(env: Env, prefix: string, local: string, k: string)
    requires ValidIri(env, Prefixed(prefix, local)) && Spaced(k)
    ensures Verb(env, PrintName(prefix, local, k)) == Ok((env.prefixes[prefix] + local, k)) <==> !HidesVerbA(prefix)
  {
    var s := PrintName(prefix, local, k);
    NameOpening(prefix, local, k);
    SkipNothing(s);
    WordInName(prefix, local, k, "a");
    assert "a" + "." == "a.";
    assert StartsWord(s, "a") <==> At(s, 'a') && IsBoundary(s[1..]) by { assert At(s, 'a') ==> s[..1] == "a"; }
    IriSyntaxReadsBack(env, Prefixed(prefix, local), k);
    if HidesVerbA(prefix) { assert |s[1..]| > |k|; }
  }

  lemma KeywordInName(prefix: string, local: string, k: string, word: string)
    requires ValidPrefix(prefix) && (forall j :: 0 <= j < |word| ==> 'a' <= word[j] <= 'z')
    ensures MatchesKeyword(PrintName(prefix, local, k), word) <==> StartsDotted(prefix, word)
  {
    var s := PrintName(prefix, local, k);
    if |word| < |prefix| {
      assert s[..|word|] == prefix[..|word|] && s[|word|..][0] == prefix[|word|];
    } else if |word| == |prefix| {
      assert s[|word|..][0] == ':';
    } else {
      if |word| <= |s| {
        assert s[..|word|][|prefix|] == ':' && Lower(':') != Lower(word[|prefix|]);
      }
    }
  }

  // A statement's subject is taken for a declaration exactly when its label begins
  // with `prefix.` or `base.`, in any case.
  lemma SubjectNameIsNoDirective(prefix: string, local: string, k: string)
    requires ValidPrefix(prefix)
    ensures AtSparqlDirective(PrintName(prefix, local, k)) <==> HidesDirective(prefix)
  {
    KeywordInName(prefix, local, k, "prefix");
    KeywordInName(prefix, local, k, "base");
  }

  // And then the statement is lost: a declaration adds no triple.
  lemma DirectiveAddsNothing(st: State)
    requires AtSparqlDirective(st.rest)
    ensures !At(st.rest, '@') && OneStep(st) == SparqlDirective(st)
    ensures OneStep(st).Ok? ==> OneStep(st).value.1.triples == st.triples
  {
    SparqlWordIsKnown(st.rest);
    if MatchesKeyword(st.rest, "prefix") { FirstLetter(st.rest, "prefix"); } else { FirstLetter(st.rest, "base"); }
  }

  lemma FirstLetter(s: string, word: string)
    requires MatchesKeyword(s, word) && word != [] && 'a' <= word[0] <= 'z'
    ensures IsAsciiAlpha(s[0])
  {
    assert s[..|word|][0] == s[0] && Lower(s[0]) == Lower(word[0]);
  }

  // The keyword taken from such a label, and what is left behind it.
  lemma HiddenKeyword(prefix: string, local: string, k: string, word: string)
    requires ValidPrefix(prefix) && StartsDotted(prefix, word) && forall j :: 0 <= j < |word| ==> 'a' <= word[j] <= 'z'
    ensures var s := PrintName(prefix, local, k);
            && WordLength(s) == |word| && SameIgnoringCase(s[..|word|], word)
            && s[|word|..] == PrintName(prefix[|word|..], local, k) && SkipWs(s[|word|..]) == s[|word|..]
  {
    var s := PrintName(prefix, local, k);
    KeywordInName(prefix, local, k, word);
    KeywordIsWord(s, word);
    assert s[|word|..] == PrintName(prefix[|word|..], local, k);
    assert prefix[|word|..][0] == '.';
    SkipNothing(s[|word|..]);
  }

  lemma {:induction false} BindingLabelReadsBack(name: string, k: string, read: string)
    requires (forall j :: 0 <= j < |name| ==> IsPnPrefixChar(name[j]) && !IsWhitespace(name[j])) && At(k, ':')
    ensures BindingLabel(name + k, read) == Ok((read + name, k))
    decreases |name|
  {
    if name == [] {
      assert name + k == k && read + name == read;
    } else {
      assert (name + k)[1..] == name[1..] + k;
      BindingLabelReadsBack(name[1..], k, read + [name[0]]);
      assert read + [name[0]] + name[1..] == read + name;
    }
  }

  lemma LabelOfName(name: string, local: string, k: string)
    requires forall j :: 0 <= j < |name| ==> IsPnPrefixChar(name[j]) && !IsWhitespace(name[j])
    ensures BindingLabel(PrintName(name, local, k), []) == Ok((name, [':'] + (local + k)))
  {
    BindingLabelReadsBack(name, [':'] + (local + k), []);
    assert [] + name == name;
  }

  // What a label beginning with `prefix.` declares: the rest of the label, if an IRI
  // reference follows where the local part stands.
  lemma HiddenPrefixBinds(st: State, name: string, local: string, k: string)
    requires (forall j :: 0 <= j < |name| ==> IsPnPrefixChar(name[j]) && !IsWhitespace(name[j])) && st.rest == PrintName(name, local, k)
    ensures match IriRef(st.env.base, SkipWs(local + k))
            case Err(e) => PrefixBinding(st) == Err(e)
            case Ok((iri, rest)) => PrefixBinding(st) == Ok(((), st.(rest := rest, env := st.env.(prefixes := st.env.prefixes[name := iri]))))
  {
    LabelOfName(name, local, k);
    assert ([':'] + (local + k))[1..] == local + k;
  }

  lemma HiddenPrefixStep(st: State, prefix: string, local: string, k: string)
    requires ValidPrefix(prefix) && StartsDotted(prefix, "prefix") && st.rest == PrintName(prefix, local, k)
    ensures SparqlDirective(st) == PrefixBinding(st.(rest := PrintName(prefix[6..], local, k)))
  {
    HiddenKeyword(prefix, local, k, "prefix");
  }

  lemma HiddenBaseStep(st: State, prefix: string, local: string, k: string)
    requires ValidPrefix(prefix) && StartsDotted(prefix, "base") && st.rest == PrintName(prefix, local, k)
    ensures SparqlDirective(st).Err?
  {
    HiddenKeyword(prefix, local, k, "base");
    assert prefix[4..][0] == '.' == PrintName(prefix[4..], local, k)[0];
  }

  // Main result on subjects: such a statement is an error, except where its label begins
  // with `prefix.` and an IRI reference stands where its local part should, which is then
  // declared for the rest of the label.
  lemma MisreadSubjectStep(st: State, prefix: string, local: string, k: string)
    requires ValidPrefix(prefix) && HidesDirective(prefix) && st.rest == PrintName(prefix, local, k)
    ensures if StartsDotted(prefix, "prefix") then
              match IriRef(st.env.base, SkipWs(local + k))
              case Err(e) => OneStep(st) == Err(e)
              case Ok((iri, rest)) => OneStep(st) == Ok(((), st.(rest := rest, env := st.env.(prefixes := st.env.prefixes[prefix[6..] := iri]))))
            else OneStep(st).Err?
  {
    SubjectNameIsNoDirective(prefix, local, k);
    DirectiveAddsNothing(st);
    if StartsDotted(prefix, "prefix") {
      HiddenPrefixStep(st, prefix, local, k);
      HiddenPrefixBinds(st.(rest := PrintName(prefix[6..], local, k)), prefix[6..], local, k);
    } else {
      HiddenBaseStep(st, prefix, local, k);
    }
  }

  // An error ends the reading of the whole document.
  lemma MisreadIsRefused(st: State, prefix: string, local: string, k: string)
    requires ValidPrefix(prefix) && HidesDirective(prefix) && st.rest == PrintName(prefix, local, k)
    requires !StartsDotted(prefix, "prefix") || IriRef(st.env.base, SkipWs(local + k)).Err?
    ensures Document(st).Err?
  {
    MisreadSubjectStep(st, prefix, local, k);
    NameOpening(prefix, local, k);
    SkipNothing(st.rest);
  }

  // Names that are misread in the three positions: as an object, a verb and a subject.
  lemma MisreadObject(env: Env, prefix: string, k: string)
    requires prefix == "true.x" && prefix in env.prefixes && Spaced(k)
    ensures ValidIri(env, Prefixed(prefix, "y"))
    ensures PlainObject(env, PrintName(prefix, "y", k)) == Ok((Literal("true", Some(XSD_BOOLEAN), None), ".x:y" + k))
  {
    var s := PrintName(prefix, "y", k);
    assert "true." <= prefix;
    BooleanInName(prefix, "y", k);
    assert s == "true" + (".x:y" + k);
    WordStops("true", ".x:y" + k);
  }

  lemma MisreadVerb(env: Env, prefix: string, k: string)
    requires prefix == "a.x" && prefix in env.prefixes && Spaced(k)
    ensures ValidIri(env, Prefixed(prefix, "y"))
    ensures Verb(env, PrintName(prefix, "y", k)) == Ok((RDF_TYPE, ".x:y" + k))
  {
    var s := PrintName(prefix, "y", k);
    SkipNothing(s);
    assert s[1..] == ".x:y" + k;
  }

  lemma MisreadSubject(st: State, prefix: string, k: string)
    requires prefix == "base.x" && st.rest == PrintName(prefix, "y", k)
    ensures ValidPrefix(prefix) && Document(st).Err?
  {
    assert prefix[..4] == "base";
    MisreadIsRefused(st, prefix, "y", k);
  }

  lemma {:induction false} WordStops(word: string, k: string)
    requires (forall j :: 0 <= j < |word| ==> IsAsciiAlpha(word[j])) && k != [] && !IsAsciiAlpha(k[0])
    ensures WordLength(word + k) == |word| && (word + k)[..|word|] == word && (word + k)[|word|..] == k
    decreases |word|
  {
    if word == [] {
      assert word + k == k;
    } else {
      assert (word + k)[1..] == word[1..] + k;
      WordStops(word[1..], k);
    }
  }

  lemma VerbReadsBack(env: Env, verb: VerbSyntax, k: string)
    requires ValidVerb(env, verb) && Spaced(k)
    ensures Verb(env, PrintVerb(verb, k)) == Ok((VerbMeaning(env, verb), k))
  {
    var s := PrintVerb(verb, k);
    match verb
    case A => assert s[1..] == k;
    case Pred(Full(raw)) =>
      IriSyntaxReadsBack(env, verb.iri, k);
      IriSyntaxOpening(env, verb.iri, k);
      SkipNothing(s);
    case Pred(Prefixed(prefix, local)) => VerbNameReadsBack(env, prefix, local, k);
  }

  // --- strings -------------------------------------------------------------------------------

  lemma StringCharReadsBack(c: char, mark: char, long: bool, k: string, value: string)
    requires mark in {'"', '\''}
    ensures StringBody(EscapeStringChar(c, mark) + k, mark, long, value) == StringBody(k, mark, long, value + [c])
  {
    var e := EscapeStringChar(c, mark);
    var s := e + k;
    if |e| == 2 {
      assert s[1..][1..] == k && ShortEscape(s[1..][0]) == Some(c);
      assert StringEscape(s[1..]) == Ok((c, k));
    } else {
      assert s[1..] == k;
    }
  }

  lemma StringEndReadsBack(mark: char, long: bool, k: string, read: string)
    requires mark in {'"', '\''}
    ensures StringBody(Marks(mark, long) + k, mark, long, read) == Ok((read, k))
  {
    var s := Marks(mark, long) + k;
    if long { assert s[3..] == k && AtPair(s[1..], mark); } else { assert s[1..] == k; }
  }

  lemma {:induction false} StringBodyReadsBack(value: string, mark: char, long: bool, k: string, read: string)
    requires mark in {'"', '\''}
    ensures StringBody(EscapeString(value, mark, Marks(mark, long) + k), mark, long, read) == Ok((read + value, k))
    decreases |value|
  {
    if value == [] {
      StringEndReadsBack(mark, long, k, read);
      assert read + value == read;
    } else {
      StringCharReadsBack(value[0], mark, long, EscapeString(value[1..], mark, Marks(mark, long) + k), read);
      StringBodyReadsBack(value[1..], mark, long, k, read + [value[0]]);
      assert read + [value[0]] + value[1..] == read + value;
    }
  }

  lemma {:induction false} TagReadsBack(tag: string, k: string)
    requires (forall j :: 0 <= j < |tag| ==> IsLanguageChar(tag[j])) && Spaced(k)
    ensures LanguageLength(tag + k) == |tag|
    decreases |tag|
  {
    if tag == [] {
      assert tag + k == k;
    } else {
      assert (tag + k)[1..] == tag[1..] + k;
      TagReadsBack(tag[1..], k);
    }
  }

  lemma TypeReadsBack(env: Env, value: string, iri: IriSyntax, k: string)
    requires ValidIri(env, iri) && Spaced(k)
    ensures LiteralSuffix(env, value, PrintSuffix(Typed(iri), k)) == Ok((Literal(value, Some(Expand(env, iri)), None), k))
  {
    var s := PrintSuffix(Typed(iri), k);
    var s1 := PrintIriSyntax(iri, k);
    assert s[2..] == s1;
    IriSyntaxOpening(env, iri, k);
    SkipNothing(s1);
    match iri
    case Full(raw) => IriRefReadsBack(env.base, raw, k);
    case Prefixed(prefix, local) => NameReadsBack(env, prefix, local, k);
  }

  lemma SuffixReadsBack(env: Env, value: string, suffix: Suffix, k: string)
    requires ValidSuffix(env, suffix) && Spaced(k)
    ensures LiteralSuffix(env, value, PrintSuffix(suffix, k)) == Ok((QuotedMeaning(env, value, suffix), k))
  {
    match suffix
    case NoSuffix =>
    case Typed(iri) => TypeReadsBack(env, value, iri, k);
    case Tagged(tag) =>
      TagReadsBack(tag, k);
      var s := PrintSuffix(suffix, k);
      assert s[1..] == tag + k && (tag + k)[..|tag|] == tag && (tag + k)[|tag|..] == k;
  }

  // The opening marks tell a long string from a short one, even an empty short one.
  lemma OpeningMarks(value: string, mark: char, long: bool, k: string)
    requires mark in {'"', '\''} && k != [] && k[0] != mark
    ensures var s := PrintQuoted(value, mark, long, k);
            s[0] == mark && AtPair(s[1..], mark) == long
            && s[if long then 3 else 1..] == EscapeString(value, mark, Marks(mark, long) + k)
  {
    var s := PrintQuoted(value, mark, long, k);
    var body := EscapeString(value, mark, Marks(mark, long) + k);
    if long {
      assert s[3..] == body;
    } else {
      assert s[1..] == body;
      if value == [] { assert body[1] == k[0]; } else { assert body[0] == EscapeStringChar(value[0], mark)[0]; }
    }
  }

  lemma QuotedReadsBack(env: Env, value: string, mark: char, long: bool, suffix: Suffix, k: string)
    requires mark in {'"', '\''} && ValidSuffix(env, suffix) && Spaced(k)
    ensures StringLiteral(env, PrintQuoted(value, mark, long, PrintSuffix(suffix, k)))
         == Ok((QuotedMeaning(env, value, suffix), k))
  {
    var tail := PrintSuffix(suffix, k);
    OpeningMarks(value, mark, long, tail);
    StringBodyReadsBack(value, mark, long, tail, []);
    assert [] + value == value;
    SuffixReadsBack(env, value, suffix, k);
  }

  // --- numbers and booleans ---------------------------------------------------------------------

  lemma {:induction false} DigitsScan(digits: string, k: string, dot: bool, exponent: bool)
    requires Digits(digits)
    ensures NumberTail(digits + k, dot, exponent) == NumberTail(k, dot, exponent)
    decreases |digits|
  {
    if digits == [] {
      assert digits + k == k;
    } else {
      assert (digits + k)[1..] == digits[1..] + k;
      DigitsScan(digits[1..], k, dot, exponent);
    }
  }

  lemma ExponentScan(exponent: Option<Exponent>, dot: bool, k: string)
    requires Spaced(k) && (exponent.Some? ==> exponent.value.mark in {'e', 'E'} && Digits(exponent.value.digits))
    ensures NumberTail(ExponentText(exponent) + k, dot, false) == Scanned(k, dot, exponent.Some?)
  {
    match exponent
    case None => assert ExponentText(exponent) + k == k;
    case Some(e) => ExponentBodyScan(e, dot, k);
  }

  lemma ExponentBodyScan(e: Exponent, dot: bool, k: string)
    requires Spaced(k) && e.mark in {'e', 'E'} && Digits(e.digits)
    ensures NumberTail([e.mark] + (SignText(e.sign) + e.digits) + k, dot, false) == Scanned(k, dot, true)
  {
    var s := [e.mark] + (SignText(e.sign) + e.digits) + k;
    var tail := e.digits + k;
    assert s[1..] == SignText(e.sign) + tail;
    assert tail[0] == if e.digits == [] then ' ' else e.digits[0];
    SkipSignScan(e.sign, tail);
    DigitsScan(e.digits, k, dot, true);
    assert NumberTail(k, dot, true) == Scanned(k, dot, true);
  }

  lemma SkipSignScan(sign: Sign, k: string)
    requires k != [] && k[0] != '+' && k[0] != '-'
    ensures SkipSign(SignText(sign) + k) == k
  {
    if sign.NoSign? { assert SignText(sign) + k == k; } else { assert (SignText(sign) + k)[1..] == k; }
  }

  lemma PointScan(digits: string, k: string)
    requires Digits(digits) && digits != []
    ensures NumberTail(['.'] + digits + k, false, false) == NumberTail(k, true, false)
  {
    var s := ['.'] + digits + k;
    assert s[1..] == digits + k && s[1] == digits[0];
    DigitsScan(digits, k, true, false);
  }

  lemma FractionScan(fraction: Option<string>, k: string)
    requires fraction.Some? ==> Digits(fraction.value) && fraction.value != []
    ensures NumberTail(FractionText(fraction) + k, false, false) == NumberTail(k, fraction.Some?, false)
  {
    if fraction.Some? { PointScan(fraction.value, k); } else { assert FractionText(fraction) + k == k; }
  }

  lemma NumberTextBefore(n: Number, k: string)
    ensures NumberText(n) + k == SignText(n.sign) + (n.whole + (FractionText(n.fraction) + (ExponentText(n.exponent) + k)))
  {
    var e, f, w := ExponentText(n.exponent), FractionText(n.fraction), n.whole;
    assert f + e + k == f + (e + k);
    assert w + (f + e) + k == w + (f + e + k);
  }

  lemma NumberScan(n: Number, k: string)
    requires ValidNumber(n) && !EndsAtPoint(n) && Spaced(k)
    ensures NumberTail(SkipSign(NumberText(n) + k), false, false) == Scanned(k, n.fraction.Some?, n.exponent.Some?)
  {
    var tail := ExponentText(n.exponent) + k;
    var number := FractionText(n.fraction) + tail;
    NumberTextBefore(n, k);
    NoSignAhead(n, number);
    SkipSignScan(n.sign, n.whole + number);
    DigitsScan(n.whole, number, false, false);
    FractionScan(n.fraction, tail);
    ExponentScan(n.exponent, n.fraction.Some?, k);
  }

  lemma NoSignAhead(n: Number, number: string)
    requires ValidNumber(n) && (n.fraction.Some? ==> At(number, '.'))
    ensures n.whole + number != [] && (n.whole + number)[0] !in {'+', '-'}
  {
    if n.whole == [] { assert n.whole + number == number; }
  }

  // A sign in front changes neither what a number starts with nor that it has a digit.
  lemma SignOpening(sign: Sign, body: string, digit: nat)
    requires digit < |body| && IsAsciiDigit(body[digit]) && StartsNumber(body[0])
    ensures var s := SignText(sign) + body; s != [] && StartsNumber(s[0]) && HasDigit(s)
  {
    assert (SignText(sign) + body)[|SignText(sign)| + digit] == body[digit];
  }

  lemma NumberOpening(n: Number)
    requires ValidNumber(n)
    ensures NumberText(n) != [] && StartsNumber(NumberText(n)[0]) && HasDigit(NumberText(n))
  {
    var tail := FractionText(n.fraction) + ExponentText(n.exponent);
    if n.whole != [] {
      assert (n.whole + tail)[0] == n.whole[0];
      SignOpening(n.sign, n.whole + tail, 0);
    } else {
      assert n.whole + tail == tail && tail[0] == '.' && tail[1] == n.fraction.value[0];
      SignOpening(n.sign, tail, 1);
    }
  }

  lemma NumberReadsBack(n: Number, k: string)
    requires ValidNumber(n) && !EndsAtPoint(n) && Spaced(k)
    ensures NumericLiteral(NumberText(n) + k) == Ok((Literal(NumberText(n), Some(NumberType(n)), None), k))
  {
    var s := NumberText(n) + k;
    NumberScan(n, k);
    NumberOpening(n);
    assert s[..|s| - |k|] == NumberText(n);
  }

  // A point without a digit behind it ends the number, which is then an integer: right
  // for a statement's end, not before an exponent.
  lemma PointEndsNumber(sign: Sign, whole: string, k: string)
    requires Digits(whole) && whole != [] && (k == [] || !IsAsciiDigit(k[0]))
    ensures NumericLiteral(SignText(sign) + (whole + (['.'] + k)))
         == Ok((Literal(SignText(sign) + whole, Some(XSD_INTEGER), None), ['.'] + k))
  {
    var rest := ['.'] + k;
    var s := SignText(sign) + (whole + rest);
    ScanToPoint(sign, whole, k);
    assert s[..|s| - |rest|] == SignText(sign) + whole;
    SignOpening(sign, whole, 0);
  }

  lemma ScanToPoint(sign: Sign, whole: string, k: string)
    requires Digits(whole) && whole != [] && (k == [] || !IsAsciiDigit(k[0]))
    ensures NumberTail(SkipSign(SignText(sign) + (whole + (['.'] + k))), false, false) == Scanned(['.'] + k, false, false)
  {
    var rest := ['.'] + k;
    PointStops(k);
    assert (whole + rest)[0] == whole[0];
    SkipSignScan(sign, whole + rest);
    DigitsScan(whole, rest, false, false);
  }

  lemma PointStops(k: string)
    requires k == [] || !IsAsciiDigit(k[0])
    ensures NumberTail(['.'] + k, false, false) == Scanned(['.'] + k, false, false)
  {
    assert k != [] ==> (['.'] + k)[1] == k[0];
  }

  // What becomes of a number that is ended too early.
  lemma NumberIsCut(n: Number, k: string)
    requires ValidNumber(n) && EndsAtPoint(n) && Spaced(k)
    ensures NumericLiteral(NumberText(n) + k)
         == Ok((Literal(SignText(n.sign) + n.whole, Some(XSD_INTEGER), None), ['.'] + (ExponentText(n.exponent) + k)))
  {
    var e := ExponentText(n.exponent) + k;
    assert e[0] == n.exponent.value.mark;
    NumberTextBefore(n, k);
    assert FractionText(n.fraction) == ['.'];
    PointEndsNumber(n.sign, n.whole, e);
  }

  // Main result on numbers: of all numbers Turtle allows, exactly those with a point
  // and no digit behind it are not read back.
  lemma NumberReadsBackExactly(n: Number, k: string)
    requires ValidNumber(n) && Spaced(k)
    ensures NumericLiteral(NumberText(n) + k) == Ok((Literal(NumberText(n), Some(NumberType(n)), None), k))
       <==> !EndsAtPoint(n)
  {
    if EndsAtPoint(n) { NumberIsCut(n, k); } else { NumberReadsBack(n, k); }
  }

  predicate Pointed(n: Number) {
    n.sign.NoSign? && n.whole == "1" && n.fraction == Some([]) && n.exponent == Some(Exponent('e', NoSign, "5"))
  }

  lemma PointedText(n: Number)
    requires Pointed(n)
    ensures NumberText(n) == "1.e5" && ExponentText(n.exponent) == "e5" && SignText(n.sign) + n.whole == "1"
  {
    assert ExponentText(n.exponent) == "e5" && FractionText(n.fraction) == ".";
  }

  lemma PointedRest(e: string, k: string)
    requires e == "e5"
    ensures ['.'] + (e + k) == ".e5" + k
  {
    assert ['.'] + (e + k) == (['.'] + e) + k && ['.'] + e == ".e5";
  }

  // The shortest such number is `1.e5`, which Turtle allows; `.e5` is left over.
  lemma PointedIsCut(k: string)
    requires Spaced(k)
    ensures NumericLiteral("1.e5" + k) == Ok((Literal("1", Some(XSD_INTEGER), None), ".e5" + k))
  {
    var n := Number(NoSign, "1", Some([]), Some(Exponent('e', NoSign, "5")));
    PointedText(n);
    PointedRest(ExponentText(n.exponent), k);
    NumberIsCut(n, k);
  }

  lemma BooleanReadsBack(b: bool, k: string)
    requires Spaced(k)
    ensures StartsBoolean(BooleanText(b) + k)
    ensures BooleanLiteral(BooleanText(b) + k) == Ok((Literal(BooleanText(b), Some(XSD_BOOLEAN), None), k))
  {
    WordStops(BooleanText(b), k);
  }
}
