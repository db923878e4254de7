// JSON values and their compact serialisation, as the exporter writes them.

module Json {
  import opened Common

  datatype Value =
    | Null
    | Bool(value: bool)
    | Number(text: Bytes)
    | String(utf8: Bytes)
    | Array(items: seq<Value>)
    | Object(members: seq<Member>)

  datatype Member = Member(key: Bytes, value: Value)

  const QUOTE: Byte := 34
  const COMMA: Byte := 44
  const COLON: Byte := 58
  const BACKSLASH: Byte := 92
  const OPEN_BRACKET: Byte := 91
  const CLOSE_BRACKET: Byte := 93
  const OPEN_BRACE: Byte := 123
  const CLOSE_BRACE: Byte := 125
  const LINE_FEED: Byte := 10

  const NULL_TEXT: Bytes := [110, 117, 108, 108]
  const TRUE_TEXT: Bytes := [116, 114, 117, 101]
  const FALSE_TEXT: Bytes := [102, 97, 108, 115, 101]

  // The bytes a number is written with: digits, sign, point and exponent mark.
  predicate NumberByte(b: Byte) { 48 <= b <= 57 || b == 43 || b == 45 || b == 46 || b == 69 || b == 101 }

  predicate NumberText(text: Bytes) { text != [] && forall k :: 0 <= k < |text| ==> NumberByte(text[k]) }

  // Every number in the value is written with number bytes.
  predicate WellFormed(v: Value) {
    match v
    case Number(text) => NumberText(text)
    case Array(items) => forall k :: 0 <= k < |items| ==> WellFormed(items[k])
    case Object(members) => forall k :: 0 <= k < |members| ==> WellFormed(members[k].value)
    case _ => true
  }

  function HexDigit(n: nat): Byte
    requires n < 16
  {
    if n < 10 then 48 + n else 87 + n
  }

  // One byte of string content; control characters use the short forms where
  // JSON has them.
  function EscapeByte(b: Byte): Bytes {
    if b == QUOTE then [BACKSLASH, QUOTE]
    else if b == BACKSLASH then [BACKSLASH, BACKSLASH]
    else if b == 8 then [BACKSLASH, 98]
    else if b == 9 then [BACKSLASH, 116]
    else if b == 10 then [BACKSLASH, 110]
    else if b == 12 then [BACKSLASH, 102]
    else if b == 13 then [BACKSLASH, 114]
    else if b < 32 then [BACKSLASH, 117, 48, 48, HexDigit(b / 16), HexDigit(b % 16)]
    else [b]
  }

  function Escape(utf8: Bytes): Bytes {
    if utf8 == [] then [] else EscapeByte(utf8[0]) + Escape(utf8[1..])
  }

  function Quoted(utf8: Bytes): Bytes { [QUOTE] + Escape(utf8) + [QUOTE] }

  function Text(v: Value): Bytes
    decreases v, 1
  {
    match v
    case Null => NULL_TEXT
    case Bool(b) => if b then TRUE_TEXT else FALSE_TEXT
    case Number(text) => text
    case String(utf8) => Quoted(utf8)
    case Array(items) => [OPEN_BRACKET] + ItemsText(items) + [CLOSE_BRACKET]
    case Object(members) => [OPEN_BRACE] + MembersText(members) + [CLOSE_BRACE]
  }

  function ItemsText(items: seq<Value>): Bytes
    decreases items, 0
  {
    if items == [] then []
    else if |items| == 1 then Text(items[0])
    else Text(items[0]) + [COMMA] + ItemsText(items[1..])
  }

  function MemberText(m: Member): Bytes
    decreases m, 1
  {
    Quoted(m.key) + [COLON] + Text(m.value)
  }

  function MembersText(members: seq<Member>): Bytes
    decreases members, 0
  {
    if members == [] then []
    else if |members| == 1 then MemberText(members[0])
    else MemberText(members[0]) + [COMMA] + MembersText(members[1..])
  }

  function Texts(values: seq<Value>): seq<Bytes> {
    if values == [] then [] else [Text(values[0])] + Texts(values[1..])
  }

  predicate AllWellFormed(values: seq<Value>) { forall k :: 0 <= k < |values| ==> WellFormed(values[k]) }

  // --- what every serialised value looks like -----------------------------------

  predicate Whitespace(b: Byte) { b == 32 || b == 9 || b == 10 || b == 12 || b == 13 }

  // A value's text is not empty, neither starts nor ends with whitespace, and
  // starts with nothing that could end an array element.
  lemma TextEdges(v: Value)
    requires WellFormed(v)
    ensures var t := Text(v);
            && t != [] && !Whitespace(t[0]) && t[0] != COMMA && t[0] != CLOSE_BRACKET
            && !Whitespace(t[|t| - 1])
  {
  }

  lemma {:induction false} EscapeHasNoLineFeed(utf8: Bytes)
    ensures LINE_FEED !in Escape(utf8)
  {
    if utf8 != [] { EscapeHasNoLineFeed(utf8[1..]); }
  }

  // A value's text is one line.
  lemma {:induction false} TextIsOneLine(v: Value)
    requires WellFormed(v)
    ensures LINE_FEED !in Text(v)
    decreases v, 1
  {
    match v
    case String(utf8) => EscapeHasNoLineFeed(utf8);
    case Array(items) => ItemsAreOneLine(items);
    case Object(members) => MembersAreOneLine(members);
    case _ =>
  }

  lemma {:induction false} ItemsAreOneLine(items: seq<Value>)
    requires AllWellFormed(items)
    ensures LINE_FEED !in ItemsText(items)
    decreases items, 0
  {
    if items != [] {
      TextIsOneLine(items[0]);
      ItemsAreOneLine(items[1..]);
    }
  }

  lemma {:induction false} MembersAreOneLine(members: seq<Member>)
    requires forall k :: 0 <= k < |members| ==> WellFormed(members[k].value)
    ensures LINE_FEED !in MembersText(members)
    decreases members, 0
  {
    if members != [] {
      EscapeHasNoLineFeed(members[0].key);
      TextIsOneLine(members[0].value);
      MembersAreOneLine(members[1..]);
    }
  }
}
