// The incremental reader of a top-level JSON array: a byte automaton that cuts
// the stream into element texts, whatever chunks it arrives in.

module ArrayScanning {
  import opened Common
  import opened Json

  datatype ScanError = TrailingData | ExpectedArray(found: Byte) | EmptyInput | Unterminated

  // The scanner's fields, and the elements it has pushed to the output so far.
  datatype Scan = Scan(
    started: bool,
    finished: bool,
    inElement: bool,
    depth: int,
    inString: bool,
    escaped: bool,
    current: Bytes,
    out: seq<Bytes>)

  function Initial(out: seq<Bytes>): Scan { Scan(false, false, false, 0, false, false, [], out) }

  function BeginElement(s: Scan): Scan {
    s.(inElement := true, depth := 0, inString := false, escaped := false, current := [])
  }

  // One byte of the current element; true when the element is complete.
  function Consume(s: Scan, b: Byte): (Scan, bool) {
    if s.inString then
      var pushed := s.(current := s.current + [b]);
      if s.escaped then (pushed.(escaped := false), false)
      else if b == BACKSLASH then (pushed.(escaped := true), false)
      else if b == QUOTE then (pushed.(inString := false), false)
      else (pushed, false)
    else if s.depth == 0 && (b == COMMA || b == CLOSE_BRACKET) then
      (if b == CLOSE_BRACKET then s.(finished := true) else s, true)
    else
      var pushed := s.(current := s.current + [b]);
      if b == QUOTE then (pushed.(inString := true), false)
      else if b == OPEN_BRACE || b == OPEN_BRACKET then (pushed.(depth := s.depth + 1), false)
      else if b == CLOSE_BRACE || b == CLOSE_BRACKET then (pushed.(depth := s.depth - 1), false)
      else (pushed, false)
  }

  function InsideElement(s: Scan, b: Byte): Scan {
    var (next, complete) := Consume(s, b);
    if complete then next.(out := next.out + [next.current], current := [], inElement := false) else next
  }

  function Step(s: Scan, b: Byte): Result<Scan, ScanError> {
    if s.finished then
      if Whitespace(b) then Ok(s) else Err(TrailingData)
    else if !s.started then
      if Whitespace(b) then Ok(s)
      else if b == OPEN_BRACKET then Ok(s.(started := true))
      else Err(ExpectedArray(b))
    else if !s.inElement then
      if Whitespace(b) || b == COMMA then Ok(s)
      else if b == CLOSE_BRACKET then Ok(s.(finished := true))
      else Ok(InsideElement(BeginElement(s), b))
    else Ok(InsideElement(s, b))
  }

  function Feed(s: Scan, bytes: Bytes): Result<Scan, ScanError>
    decreases |bytes|, 0
  {
    if bytes == [] then Ok(s) else Then(Step(s, bytes[0]), bytes[1..])
  }

  function Then(first: Result<Scan, ScanError>, bytes: Bytes): Result<Scan, ScanError>
    decreases |bytes|, 1
  {
    match first case Err(e) => Err(e) case Ok(s) => Feed(s, bytes)
  }

  function Finish(s: Scan): Result<(), ScanError> {
    if !s.started then Err(EmptyInput) else if !s.finished then Err(Unterminated) else Ok(())
  }

  // The element texts of a whole input, or the reader's error.
  function Elements(bytes: Bytes): Result<seq<Bytes>, ScanError> {
    match Feed(Initial([]), bytes)
    case Err(e) => Err(e)
    case Ok(s) => match Finish(s) case Err(e) => Err(e) case Ok(_) => Ok(s.out)
  }

  // --- chunks do not matter ---------------------------------------------------------

  lemma {:induction false} FeedConcat(s: Scan, a: Bytes, b: Bytes)
    ensures Feed(s, a + b) == Then(Feed(s, a), b)
    decreases |a|
  {
    if a == [] {
      assert a + b == b;
    } else {
      assert (a + b)[1..] == a[1..] + b;
      if Step(s, a[0]).Ok? { FeedConcat(Step(s, a[0]).value, a[1..], b); }
    }
  }

  // --- scanning one value -------------------------------------------------------------

  // Inside an element, outside strings, `depth` brackets deep.
  function Inside(depth: nat, current: Bytes, out: seq<Bytes>): Scan {
    Scan(true, false, true, depth, false, false, current, out)
  }

  function InString(depth: nat, current: Bytes, out: seq<Bytes>): Scan {
    Scan(true, false, true, depth, true, false, current, out)
  }

  // `text` is taken into the current element and changes nothing else.
  ghost predicate Absorbs(text: Bytes, depth: nat, current: Bytes, out: seq<Bytes>) {
    Feed(Inside(depth, current, out), text) == Ok(Inside(depth, current + text, out))
  }

  ghost predicate StaysInString(text: Bytes, depth: nat, current: Bytes, out: seq<Bytes>) {
    Feed(InString(depth, current, out), text) == Ok(InString(depth, current + text, out))
  }

  lemma FeedOne(s: Scan, b: Byte)
    ensures Feed(s, [b]) == Step(s, b)
  {
    assert [b][1..] == [];
    match Step(s, b)
    case Err(_) =>
    case Ok(s') => assert Feed(s', []) == Ok(s');
  }

  // Neither structural nor the start of a string.
  predicate Plain(b: Byte) {
    b != QUOTE && b != COMMA && b != OPEN_BRACE && b != OPEN_BRACKET && b != CLOSE_BRACE && b != CLOSE_BRACKET
  }

  lemma {:induction false} PlainAbsorbed(text: Bytes, depth: nat, current: Bytes, out: seq<Bytes>)
    requires forall k :: 0 <= k < |text| ==> Plain(text[k])
    ensures Absorbs(text, depth, current, out)
    decreases |text|
  {
    if text == [] {
      assert current + text == current;
    } else {
      PlainAbsorbed(text[1..], depth, current + [text[0]], out);
      assert current + text == current + [text[0]] + text[1..];
    }
  }

  lemma {:induction false} PlainStaysInString(text: Bytes, depth: nat, current: Bytes, out: seq<Bytes>)
    requires forall k :: 0 <= k < |text| ==> text[k] != QUOTE && text[k] != BACKSLASH
    ensures StaysInString(text, depth, current, out)
    decreases |text|
  {
    if text == [] {
      assert current + text == current;
    } else {
      PlainStaysInString(text[1..], depth, current + [text[0]], out);
      assert current + text == current + [text[0]] + text[1..];
    }
  }

  // A backslash takes the next byte with it, whatever that is.
  lemma EscapePairStaysInString(b: Byte, depth: nat, current: Bytes, out: seq<Bytes>)
    ensures StaysInString([BACKSLASH, b], depth, current, out)
  {
    var s := InString(depth, current, out);
    var s1 := s.(current := current + [BACKSLASH], escaped := true);
    FeedOne(s1, b);
    assert [BACKSLASH, b][1..] == [b];
    assert current + [BACKSLASH] + [b] == current + [BACKSLASH, b];
  }

  lemma StaysTogether(a: Bytes, b: Bytes, depth: nat, current: Bytes, out: seq<Bytes>)
    requires StaysInString(a, depth, current, out) && StaysInString(b, depth, current + a, out)
    ensures StaysInString(a + b, depth, current, out)
  {
    FeedConcat(InString(depth, current, out), a, b);
    assert current + a + b == current + (a + b);
  }

  lemma EscapedByteStaysInString(b: Byte, depth: nat, current: Bytes, out: seq<Bytes>)
    ensures StaysInString(EscapeByte(b), depth, current, out)
  {
    var e := EscapeByte(b);
    if |e| == 1 {
      PlainStaysInString(e, depth, current, out);
    } else {
      EscapePairStaysInString(e[1], depth, current, out);
      PlainStaysInString(e[2..], depth, current + [BACKSLASH, e[1]], out);
      StaysTogether([BACKSLASH, e[1]], e[2..], depth, current, out);
      assert e == [BACKSLASH, e[1]] + e[2..];
    }
  }

  lemma {:induction false} EscapeStaysInString(utf8: Bytes, depth: nat, current: Bytes, out: seq<Bytes>)
    ensures StaysInString(Escape(utf8), depth, current, out)
    decreases |utf8|
  {
    if utf8 == [] {
      PlainStaysInString([], depth, current, out);
    } else {
      EscapedByteStaysInString(utf8[0], depth, current, out);
      EscapeStaysInString(utf8[1..], depth, current + EscapeByte(utf8[0]), out);
      StaysTogether(EscapeByte(utf8[0]), Escape(utf8[1..]), depth, current, out);
    }
  }

  // Anything that stays inside the string is absorbed between two quotes.
  lemma BetweenQuotes(e: Bytes, depth: nat, current: Bytes, out: seq<Bytes>)
    requires StaysInString(e, depth, current + [QUOTE], out)
    ensures Absorbs([QUOTE] + e + [QUOTE], depth, current, out)
  {
    var s := Inside(depth, current, out);
    FeedOne(s, QUOTE);
    FeedConcat(s, [QUOTE], e);
    FeedOne(InString(depth, current + [QUOTE] + e, out), QUOTE);
    FeedConcat(s, [QUOTE] + e, [QUOTE]);
    assert current + [QUOTE] + e + [QUOTE] == current + ([QUOTE] + e + [QUOTE]);
  }

  lemma QuotedAbsorbed(utf8: Bytes, depth: nat, current: Bytes, out: seq<Bytes>)
    ensures Absorbs(Quoted(utf8), depth, current, out)
  {
    EscapeStaysInString(utf8, depth, current + [QUOTE], out);
    BetweenQuotes(Escape(utf8), depth, current, out);
  }

  // Texts absorbed one after the other are absorbed together.
  lemma AbsorbedTogether(a: Bytes, b: Bytes, depth: nat, current: Bytes, out: seq<Bytes>)
    requires Absorbs(a, depth, current, out) && Absorbs(b, depth, current + a, out)
    ensures Absorbs(a + b, depth, current, out)
  {
    FeedConcat(Inside(depth, current, out), a, b);
    assert current + a + b == current + (a + b);
  }

  lemma SeparatorAbsorbed(b: Byte, depth: nat, current: Bytes, out: seq<Bytes>)
    requires b == COLON || (b == COMMA && depth >= 1)
    ensures Absorbs([b], depth, current, out)
  {
    FeedOne(Inside(depth, current, out), b);
  }

  // A bracketed text is absorbed at any depth if its inside is, one level deeper.
  lemma BracketedAbsorbed(open: Byte, inside: Bytes, close: Byte, depth: nat, current: Bytes, out: seq<Bytes>)
    requires (open == OPEN_BRACKET && close == CLOSE_BRACKET) || (open == OPEN_BRACE && close == CLOSE_BRACE)
    requires Absorbs(inside, depth + 1, current + [open], out)
    ensures Absorbs([open] + inside + [close], depth, current, out)
  {
    var s := Inside(depth, current, out);
    FeedOne(s, open);
    FeedConcat(s, [open], inside);
    FeedOne(Inside(depth + 1, current + [open] + inside, out), close);
    FeedConcat(s, [open] + inside, [close]);
    assert current + [open] + inside + [close] == current + ([open] + inside + [close]);
  }

  // Main step: the text of any value, at any depth, is taken into the current
  // element and leaves depth and string state as they were.
  lemma {:induction false} TextAbsorbed(v: Value, depth: nat, current: Bytes, out: seq<Bytes>)
    requires WellFormed(v)
    ensures Absorbs(Text(v), depth, current, out)
    decreases v, 1
  {
    match v
    case Null => PlainAbsorbed(NULL_TEXT, depth, current, out);
    case Bool(b) => PlainAbsorbed(Text(v), depth, current, out);
    case Number(text) => PlainAbsorbed(text, depth, current, out);
    case String(utf8) => QuotedAbsorbed(utf8, depth, current, out);
    case Array(items) =>
      ItemsAbsorbed(items, depth + 1, current + [OPEN_BRACKET], out);
      BracketedAbsorbed(OPEN_BRACKET, ItemsText(items), CLOSE_BRACKET, depth, current, out);
    case Object(members) =>
      MembersAbsorbed(members, depth + 1, current + [OPEN_BRACE], out);
      BracketedAbsorbed(OPEN_BRACE, MembersText(members), CLOSE_BRACE, depth, current, out);
  }

  lemma {:induction false} ItemsAbsorbed(items: seq<Value>, depth: nat, current: Bytes, out: seq<Bytes>)
    requires AllWellFormed(items) && depth >= 1
    ensures Absorbs(ItemsText(items), depth, current, out)
    decreases items, 0
  {
    if items == [] {
      PlainAbsorbed([], depth, current, out);
    } else {
      var t := Text(items[0]);
      TextAbsorbed(items[0], depth, current, out);
      if |items| > 1 {
        SeparatorAbsorbed(COMMA, depth, current + t, out);
        AbsorbedTogether(t, [COMMA], depth, current, out);
        ItemsAbsorbed(items[1..], depth, current + (t + [COMMA]), out);
        AbsorbedTogether(t + [COMMA], ItemsText(items[1..]), depth, current, out);
      }
    }
  }

  lemma {:induction false} MemberAbsorbed(m: Member, depth: nat, current: Bytes, out: seq<Bytes>)
    requires WellFormed(m.value)
    ensures Absorbs(MemberText(m), depth, current, out)
    decreases m, 1
  {
    var k := Quoted(m.key);
    QuotedAbsorbed(m.key, depth, current, out);
    SeparatorAbsorbed(COLON, depth, current + k, out);
    AbsorbedTogether(k, [COLON], depth, current, out);
    TextAbsorbed(m.value, depth, current + (k + [COLON]), out);
    AbsorbedTogether(k + [COLON], Text(m.value), depth, current, out);
  }

  lemma {:induction false} MembersAbsorbed(members: seq<Member>, depth: nat, current: Bytes, out: seq<Bytes>)
    requires (forall k :: 0 <= k < |members| ==> WellFormed(members[k].value)) && depth >= 1
    ensures Absorbs(MembersText(members), depth, current, out)
    decreases members, 0
  {
    if members == [] {
      PlainAbsorbed([], depth, current, out);
    } else {
      var t := MemberText(members[0]);
      MemberAbsorbed(members[0], depth, current, out);
      if |members| > 1 {
        SeparatorAbsorbed(COMMA, depth, current + t, out);
        AbsorbedTogether(t, [COMMA], depth, current, out);
        MembersAbsorbed(members[1..], depth, current + (t + [COMMA]), out);
        AbsorbedTogether(t + [COMMA], MembersText(members[1..]), depth, current, out);
      }
    }
  }

  // --- scanning a whole array -----------------------------------------------------------

  function Between(out: seq<Bytes>): Scan { Scan(true, false, false, 0, false, false, [], out) }

  function AtEnd(out: seq<Bytes>): Scan { Scan(true, true, false, 0, false, false, [], out) }

  lemma ElementFromBetween(v: Value, out: seq<Bytes>)
    requires WellFormed(v)
    ensures Feed(Between(out), Text(v)) == Ok(Inside(0, Text(v), out))
  {
    var t := Text(v);
    TextEdges(v);
    TextAbsorbed(v, 0, [], out);
    assert Step(Between(out), t[0]) == Step(Inside(0, [], out), t[0]);
    assert [] + t == t;
  }

  // A value and the byte that ends it.
  lemma ElementEnds(v: Value, out: seq<Bytes>)
    requires WellFormed(v)
    ensures Feed(Between(out), Text(v) + [COMMA]) == Ok(Between(out + [Text(v)]))
    ensures Feed(Between(out), Text(v) + [CLOSE_BRACKET]) == Ok(AtEnd(out + [Text(v)]))
  {
    var t := Text(v);
    ElementFromBetween(v, out);
    FeedConcat(Between(out), t, [COMMA]);
    FeedConcat(Between(out), t, [CLOSE_BRACKET]);
    FeedOne(Inside(0, t, out), COMMA);
    FeedOne(Inside(0, t, out), CLOSE_BRACKET);
  }

  function ArrayText(values: seq<Value>): Bytes { [OPEN_BRACKET] + (ItemsText(values) + [CLOSE_BRACKET]) }

  lemma {:induction false} ItemsScanned(values: seq<Value>, out: seq<Bytes>)
    requires AllWellFormed(values) && values != []
    ensures Feed(Between(out), ItemsText(values) + [CLOSE_BRACKET]) == Ok(AtEnd(out + Texts(values)))
    decreases |values|
  {
    var t := Text(values[0]);
    ElementEnds(values[0], out);
    assert out + Texts(values) == out + [t] + Texts(values[1..]);
    if |values| == 1 {
      assert out + [t] + [] == out + [t];
    } else {
      var rest := ItemsText(values[1..]) + [CLOSE_BRACKET];
      ItemsScanned(values[1..], out + [t]);
      FeedConcat(Between(out), t + [COMMA], rest);
      assert t + [COMMA] + rest == ItemsText(values) + [CLOSE_BRACKET];
    }
  }

  // Main result: scanning the array the exporter writes returns exactly the texts
  // of the values, in order, and the end of input is accepted.
  lemma ArrayRoundTrip(values: seq<Value>)
    requires AllWellFormed(values)
    ensures Elements(ArrayText(values)) == Ok(Texts(values))
  {
    FeedOne(Initial([]), OPEN_BRACKET);
    FeedConcat(Initial([]), [OPEN_BRACKET], ItemsText(values) + [CLOSE_BRACKET]);
    if values == [] {
      assert ItemsText(values) + [CLOSE_BRACKET] == [CLOSE_BRACKET];
      FeedOne(Between([]), CLOSE_BRACKET);
    } else {
      ItemsScanned(values, []);
      assert [] + Texts(values) == Texts(values);
    }
  }

  // Main result: for every way of cutting the exported array into chunks.
  lemma ChunkedRoundTrip(values: seq<Value>, chunks: seq<Bytes>)
    requires AllWellFormed(values) && Flatten(chunks) == ArrayText(values)
    ensures Elements(Flatten(chunks)) == Ok(Texts(values))
  {
    ArrayRoundTrip(values);
  }

  // --- the scanner as code ------------------------------------------------------------------

  class ArrayScanner {
    var started: bool
    var finished: bool
    var inElement: bool
    var depth: int
    var inString: bool
    var escaped: bool
    var current: Bytes

    ghost function State(out: seq<Bytes>): Scan
      reads this
    {
      Scan(started, finished, inElement, depth, inString, escaped, current, out)
    }

    constructor ()
      ensures State([]) == Initial([])
    {
      started, finished, inElement, depth, inString, escaped, current := false, false, false, 0, false, false, [];
    }

    method BeginElementNow()
      modifies this
      ensures forall out :: State(out) == BeginElement(old(State(out)))
    {
      inElement := true;
      depth := 0;
      inString := false;
      escaped := false;
      current := [];
    }

    method ConsumeElementByte(byte: Byte) returns (complete: bool)
      modifies this
      ensures forall out :: (State(out), complete) == Consume(old(State(out)), byte)
    {
      if inString {
        current := current + [byte];
        if escaped {
          escaped := false;
        } else if byte == BACKSLASH {
          escaped := true;
        } else if byte == QUOTE {
          inString := false;
        }
        return false;
      }
      if depth == 0 && (byte == COMMA || byte == CLOSE_BRACKET) {
        if byte == CLOSE_BRACKET { finished := true; }
        return true;
      }
      current := current + [byte];
      if byte == QUOTE { inString := true; }
      else if byte == OPEN_BRACE || byte == OPEN_BRACKET { depth := depth + 1; }
      else if byte == CLOSE_BRACE || byte == CLOSE_BRACKET { depth := depth - 1; }
      return false;
    }

    // The body of the feed loop; completed elements go to the end of `out`.
    method FeedByte(byte: Byte, out: seq<Bytes>) returns (out': seq<Bytes>, error: Option<ScanError>)
      modifies this
      ensures match Step(old(State(out)), byte)
              case Err(e) => error == Some(e)
              case Ok(s) => error == None && State(out') == s
    {
      out', error := out, None;
      if finished {
        if !Whitespace(byte) { error := Some(TrailingData); }
        return;
      }
      if !started {
        if Whitespace(byte) { return; }
        if byte == OPEN_BRACKET { started := true; return; }
        error := Some(ExpectedArray(byte));
        return;
      }
      if !inElement {
        if Whitespace(byte) || byte == COMMA { return; }
        if byte == CLOSE_BRACKET { finished := true; return; }
        BeginElementNow();
      }
      ghost var before := State(out);
      var complete := ConsumeElementByte(byte);
      assert (State(out), complete) == Consume(before, byte);
      if complete {
        out' := out + [current];
        current := [];
        inElement := false;
      }
    }

    method FeedChunk(bytes: Bytes, out: seq<Bytes>) returns (out': seq<Bytes>, error: Option<ScanError>)
      modifies this
      ensures match Feed(old(State(out)), bytes)
              case Err(e) => error == Some(e)
              case Ok(s) => error == None && State(out') == s
    {
      out', error := out, None;
      ghost var target := Feed(State(out), bytes);
      var i := 0;
      assert bytes[0..] == bytes;
      while i < |bytes|
        invariant 0 <= i <= |bytes|
        invariant target == Feed(State(out'), bytes[i..])
        invariant error == None
      {
        assert bytes[i..][1..] == bytes[i + 1..];
        out', error := FeedByte(bytes[i], out');
        if error.Some? { return; }
        i := i + 1;
      }
    }

    method FinishInput() returns (error: Option<ScanError>)
      ensures error == (match Finish(State([])) case Err(e) => Some(e) case Ok(_) => None)
    {
      if !started { return Some(EmptyInput); }
      if !finished { return Some(Unterminated); }
      return None;
    }
  }

  // The reader: chunk after chunk, then the end-of-input check. It returns the
  // element texts however the input was cut.
  method ReadArray(chunks: seq<Bytes>) returns (result: Result<seq<Bytes>, ScanError>)
    ensures result == Elements(Flatten(chunks))
  {
    var scanner := new ArrayScanner();
    var out: seq<Bytes>, error: Option<ScanError> := [], None;
    var i := 0;
    assert chunks[0..] == chunks;
    while i < |chunks|
      invariant 0 <= i <= |chunks|
      invariant fresh(scanner)
      invariant Feed(Initial([]), Flatten(chunks)) == Feed(scanner.State(out), Flatten(chunks[i..]))
    {
      assert chunks[i..][1..] == chunks[i + 1..];
      FeedConcat(scanner.State(out), chunks[i], Flatten(chunks[i + 1..]));
      out, error := scanner.FeedChunk(chunks[i], out);
      if error.Some? { return Err(error.value); }
      i := i + 1;
    }
    error := scanner.FinishInput();
    if error.Some? { return Err(error.value); }
    return Ok(out);
  }
}
