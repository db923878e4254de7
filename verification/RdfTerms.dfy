// RDF terms and the character-level vocabulary shared by the RDF readers and by
// the canonical writers they are proved against.

module RdfTerms {
  import opened Common

  // A subject or edge endpoint; never a literal.
  datatype Resource = Iri(iri: string) | BlankNode(name: string)

  datatype Term =
    | IriTerm(iri: string)
    | BlankTerm(name: string)
    | Literal(value: string, datatypeIri: Option<string>, language: Option<string>)

  datatype Triple = Triple(subject: Resource, pred: string, obj: Term, graph: Option<string>)

  function ToTerm(r: Resource): Term {
    match r case Iri(iri) => IriTerm(iri) case BlankNode(name) => BlankTerm(name)
  }

  // --- character classes --------------------------------------------------------

  predicate IsAsciiAlpha(c: char) { 'a' <= c <= 'z' || 'A' <= c <= 'Z' }

  predicate IsAsciiDigit(c: char) { '0' <= c <= '9' }

  predicate IsAsciiAlphanumeric(c: char) { IsAsciiAlpha(c) || IsAsciiDigit(c) }

  // The Unicode White_Space property.
  predicate IsWhitespace(c: char) {
    var n := c as int;
    9 <= n <= 13 || n == 32 || n == 0x85 || n == 0xA0 || n == 0x1680 || 0x2000 <= n <= 0x200A
    || n == 0x2028 || n == 0x2029 || n == 0x202F || n == 0x205F || n == 0x3000
  }

  predicate IsPnPrefixChar(c: char) {
    IsAsciiAlphanumeric(c) || c == '_' || c == '-' || c == '.' || c as int > 0x7F
  }

  predicate IsPnLocalChar(c: char) {
    IsAsciiAlphanumeric(c) || c == '_' || c == '-' || c == '.' || c == '%' || c == ':' || c as int > 0x7F
  }

  predicate IsLanguageChar(c: char) { IsAsciiAlphanumeric(c) || c == '-' }

  function Lower(c: char): char { if 'A' <= c <= 'Z' then (c as int + 32) as char else c }

  // --- hexadecimal escapes --------------------------------------------------------

  function HexValue(c: char): Option<nat> {
    if '0' <= c <= '9' then Some(c as int - '0' as int)
    else if 'a' <= c <= 'f' then Some(c as int - 'a' as int + 10)
    else if 'A' <= c <= 'F' then Some(c as int - 'A' as int + 10)
    else None
  }

  // A Unicode scalar value, unless the code is out of range or a surrogate.
  function CharOf(code: nat): Option<char> {
    if code < 0xD800 || 0xE000 <= code < 0x11_0000 then Some(code as char) else None
  }

  datatype HexError = Truncated | BadDigit | BadCodePoint

  // The next `n` hex digits, in front of which `code` has been read, and the rest.
  function ReadHex(s: string, n: nat, code: nat): (r: Result<(char, string), HexError>)
    ensures r.Ok? ==> |s| == |r.value.1| + n
    decreases n
  {
    if n == 0 then
      match CharOf(code) case Some(c) => Ok((c, s)) case None => Err(BadCodePoint)
    else if s == [] then Err(Truncated)
    else match HexValue(s[0])
      case None => Err(BadDigit)
      case Some(digit) => ReadHex(s[1..], n - 1, code * 16 + digit)
  }

  function HexChar(n: nat): char
    requires n < 16
  {
    "0123456789ABCDEF"[n]
  }

  // Four hex digits for an ASCII character.
  function Hex4(c: char): string
    requires c as int < 0x80
  {
    ['0', '0', HexChar(c as int / 16), HexChar(c as int % 16)]
  }

  lemma Hex4ReadsBack(c: char, k: string)
    requires c as int < 0x80
    ensures ReadHex(Hex4(c) + k, 4, 0) == Ok((c, k))
  {
    var h, l := c as int / 16, c as int % 16;
    var s := Hex4(c) + k;
    assert s[1..][0] == '0' && s[1..][1..][0] == HexChar(h) && s[1..][1..][1..][0] == HexChar(l);
    assert s[1..][1..][1..][1..] == k;
    assert HexValue(HexChar(h)) == Some(h) && HexValue(HexChar(l)) == Some(l);
    assert ReadHex(k, 0, h * 16 + l) == Ok((c, k));
    assert ReadHex(s[1..][1..][1..], 1, h) == Ok((c, k));
    assert ReadHex(s[1..][1..], 2, 0) == Ok((c, k));
    assert ReadHex(s[1..], 3, 0) == Ok((c, k));
  }

  // --- canonical text, each printer taking the text that follows -------------------

  // Characters an IRI reference may not contain as themselves.
  predicate NeedsIriEscape(c: char) {
    c <= ' ' || c == '<' || c == '>' || c == '"' || c == '{' || c == '}' || c == '|' || c == '^' || c == '`' || c == '\\'
  }

  function EscapeIriChar(c: char): string {
    if NeedsIriEscape(c) then ['\\', 'u'] + Hex4(c) else [c]
  }

  function EscapeIri(iri: string, k: string): string {
    if iri == [] then k else EscapeIriChar(iri[0]) + EscapeIri(iri[1..], k)
  }

  function PrintIri(iri: string, k: string): string { ['<'] + EscapeIri(iri, ['>'] + k) }

  // The four characters the canonical form escapes in a string, for a quote mark.
  function EscapeStringChar(c: char, quote: char): string {
    if c == quote then ['\\', quote]
    else if c == '\\' then ['\\', '\\']
    else if c == '\n' then ['\\', 'n']
    else if c == '\r' then ['\\', 'r']
    else [c]
  }

  function EscapeString(value: string, quote: char, k: string): string {
    if value == [] then k else EscapeStringChar(value[0], quote) + EscapeString(value[1..], quote, k)
  }

  // What a one-letter escape in a string stands for.
  function ShortEscape(c: char): Option<char> {
    match c
    case 't' => Some('\t')
    case 'b' => Some(8 as char)
    case 'n' => Some('\n')
    case 'r' => Some('\r')
    case 'f' => Some(12 as char)
    case '"' => Some('"')
    case '\'' => Some('\'')
    case '\\' => Some('\\')
    case _ => None
  }
}
