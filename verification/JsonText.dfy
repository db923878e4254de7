// A value's text tells the value: no two JSON values are written alike.

module JsonText {
  import opened Common
  import opened Json

  // What may follow a value in a document: nothing, or a byte that ends it.
  predicate Stops(k: Bytes) { k == [] || k[0] == COMMA || k[0] == CLOSE_BRACKET || k[0] == CLOSE_BRACE }

  lemma SameFront(front: Bytes, k: Bytes, m: Bytes)
    requires front + k == front + m
    ensures k == m
  {
    assert (front + k)[|front|..] == k && (front + m)[|front|..] == m;
  }

  lemma Chain(a: Bytes, x: Byte, b: Bytes, k: Bytes)
    ensures a + [x] + b + k == a + ([x] + (b + k))
  {
  }

  // --- strings ------------------------------------------------------------------------

  lemma EscapeByteTells(b: Byte, k: Bytes, c: Byte, m: Bytes)
    requires EscapeByte(b) + k == EscapeByte(c) + m
    ensures b == c && k == m
  {
    var x, y := EscapeByte(b), EscapeByte(c);
    assert (x + k)[0] == x[0] && (y + m)[0] == y[0];
    if x[0] == BACKSLASH { assert (x + k)[1] == x[1] && (y + m)[1] == y[1]; }
    if |x| == 6 && |y| == 6 { assert (x + k)[4] == x[4] && (y + m)[4] == y[4] && (x + k)[5] == x[5] && (y + m)[5] == y[5]; }
    assert b == c;
    assert (x + k)[|x|..] == k && (y + m)[|y|..] == m;
  }

  lemma EscapeByteOpening(b: Byte)
    ensures EscapeByte(b)[0] != QUOTE
  {
  }

  // The content of a string and what follows it.
  function Closed(utf8: Bytes, k: Bytes): Bytes { Escape(utf8) + ([QUOTE] + k) }

  lemma ClosedUnfold(utf8: Bytes, k: Bytes)
    ensures utf8 == [] ==> Closed(utf8, k) == [QUOTE] + k
    ensures utf8 != [] ==> Closed(utf8, k) == EscapeByte(utf8[0]) + Closed(utf8[1..], k)
    ensures Closed(utf8, k)[0] == QUOTE <==> utf8 == []
  {
    if utf8 != [] {
      EscapeByteOpening(utf8[0]);
      assert Escape(utf8) == EscapeByte(utf8[0]) + Escape(utf8[1..]);
    }
  }

  lemma {:induction false} EscapeTells(a: Bytes, k: Bytes, b: Bytes, m: Bytes)
    requires Closed(a, k) == Closed(b, m)
    ensures a == b && k == m
    decreases |a|
  {
    ClosedUnfold(a, k);
    ClosedUnfold(b, m);
    if a == [] {
      SameFront([QUOTE], k, m);
    } else {
      EscapeByteTells(a[0], Closed(a[1..], k), b[0], Closed(b[1..], m));
      EscapeTells(a[1..], k, b[1..], m);
      assert a == [a[0]] + a[1..] && b == [b[0]] + b[1..];
    }
  }

  lemma QuotedTells(a: Bytes, k: Bytes, b: Bytes, m: Bytes)
    requires Quoted(a) + k == Quoted(b) + m
    ensures a == b && k == m
  {
    assert Quoted(a) + k == [QUOTE] + Closed(a, k) && Quoted(b) + m == [QUOTE] + Closed(b, m);
    SameFront([QUOTE], Closed(a, k), Closed(b, m));
    EscapeTells(a, k, b, m);
  }

  // --- numbers --------------------------------------------------------------------------

  lemma NumberTells(a: Bytes, k: Bytes, b: Bytes, m: Bytes)
    requires NumberText(a) && NumberText(b) && Stops(k) && Stops(m) && a + k == b + m
    ensures a == b && k == m
  {
    if |a| < |b| { NumberIsNoPrefix(a, k, b, m); }
    if |b| < |a| { NumberIsNoPrefix(b, m, a, k); }
    assert (a + k)[..|a|] == a && (b + m)[..|b|] == b && (a + k)[|a|..] == k && (b + m)[|b|..] == m;
  }

  lemma NumberIsNoPrefix(a: Bytes, k: Bytes, b: Bytes, m: Bytes)
    requires NumberText(b) && Stops(k) && a + k == b + m
    ensures |a| >= |b|
  {
    assert k != [] ==> (a + k)[|a|] == k[0];
    assert forall j :: 0 <= j < |b| ==> (b + m)[j] == b[j] && NumberByte(b[j]);
  }

  // --- values ---------------------------------------------------------------------------

  // The first byte tells what kind of value it is.
  predicate OpensAs(v: Value, b: Byte) {
    match v
    case Null => b == 110
    case Bool(value) => b == if value then 116 else 102
    case Number(_) => NumberByte(b)
    case String(_) => b == QUOTE
    case Array(_) => b == OPEN_BRACKET
    case Object(_) => b == OPEN_BRACE
  }

  lemma TextOpens(v: Value, k: Bytes)
    requires WellFormed(v)
    ensures Text(v) != [] && (Text(v) + k)[0] == Text(v)[0] && OpensAs(v, Text(v)[0])
  {
  }

  predicate SameKind(v: Value, w: Value) {
    match v
    case Null => w.Null?
    case Bool(value) => w == v
    case Number(_) => w.Number?
    case String(_) => w.String?
    case Array(_) => w.Array?
    case Object(_) => w.Object?
  }

  lemma OpeningTellsKind(v: Value, w: Value, b: Byte)
    requires OpensAs(v, b) && OpensAs(w, b)
    ensures SameKind(v, w)
  {
  }

  lemma ArrayUnfold(items: seq<Value>, k: Bytes)
    ensures Text(Array(items)) + k == [OPEN_BRACKET] + (ItemsText(items) + ([CLOSE_BRACKET] + k))
  {
  }

  lemma ObjectUnfold(members: seq<Member>, k: Bytes)
    ensures Text(Object(members)) + k == [OPEN_BRACE] + (MembersText(members) + ([CLOSE_BRACE] + k))
  {
  }

  // Main result: a text with what follows it tells the value and what follows.
  lemma {:induction false} TextTells(v: Value, k: Bytes, w: Value, m: Bytes)
    requires WellFormed(v) && WellFormed(w) && Stops(k) && Stops(m) && Text(v) + k == Text(w) + m
    ensures v == w && k == m
    decreases v, 1
  {
    TextOpens(v, k);
    TextOpens(w, m);
    OpeningTellsKind(v, w, Text(v)[0]);
    match v
    case Null => SameFront(NULL_TEXT, k, m);
    case Bool(b) => SameFront(Text(v), k, m);
    case Number(text) => NumberTells(text, k, w.text, m);
    case String(utf8) => QuotedTells(utf8, k, w.utf8, m);
    case Array(items) =>
      ArrayUnfold(items, k);
      ArrayUnfold(w.items, m);
      SameFront([OPEN_BRACKET], ItemsText(items) + ([CLOSE_BRACKET] + k), ItemsText(w.items) + ([CLOSE_BRACKET] + m));
      ItemsTell(items, k, w.items, m);
    case Object(members) =>
      ObjectUnfold(members, k);
      ObjectUnfold(w.members, m);
      SameFront([OPEN_BRACE], MembersText(members) + ([CLOSE_BRACE] + k), MembersText(w.members) + ([CLOSE_BRACE] + m));
      MembersTell(members, k, w.members, m);
  }

  // What follows the first item: the bracket, or a comma and the other items.
  function AfterItem(items: seq<Value>, k: Bytes): Bytes
    requires items != []
  {
    if |items| == 1 then [CLOSE_BRACKET] + k else [COMMA] + (ItemsText(items[1..]) + ([CLOSE_BRACKET] + k))
  }

  lemma ItemsUnfold(items: seq<Value>, k: Bytes)
    requires items != []
    ensures ItemsText(items) + ([CLOSE_BRACKET] + k) == Text(items[0]) + AfterItem(items, k)
  {
    if |items| > 1 { Chain(Text(items[0]), COMMA, ItemsText(items[1..]), [CLOSE_BRACKET] + k); }
  }

  lemma {:induction false} FirstItemTells(a: seq<Value>, k: Bytes, b: seq<Value>, m: Bytes)
    requires a != [] && b != [] && AllWellFormed(a) && AllWellFormed(b)
    requires ItemsText(a) + ([CLOSE_BRACKET] + k) == ItemsText(b) + ([CLOSE_BRACKET] + m)
    ensures a[0] == b[0] && AfterItem(a, k) == AfterItem(b, m)
    decreases a, 0
  {
    ItemsUnfold(a, k);
    ItemsUnfold(b, m);
    TextTells(a[0], AfterItem(a, k), b[0], AfterItem(b, m));
  }

  lemma OtherItemsTell(a: seq<Value>, k: Bytes, b: seq<Value>, m: Bytes)
    requires a != [] && b != [] && AfterItem(a, k) == AfterItem(b, m)
    ensures |a| == 1 <==> |b| == 1
    ensures |a| == 1 ==> k == m
    ensures |a| > 1 ==> ItemsText(a[1..]) + ([CLOSE_BRACKET] + k) == ItemsText(b[1..]) + ([CLOSE_BRACKET] + m)
  {
    assert AfterItem(a, k)[0] == if |a| == 1 then CLOSE_BRACKET else COMMA;
    assert AfterItem(b, m)[0] == if |b| == 1 then CLOSE_BRACKET else COMMA;
    if |a| == 1 {
      SameFront([CLOSE_BRACKET], k, m);
    } else {
      SameFront([COMMA], ItemsText(a[1..]) + ([CLOSE_BRACKET] + k), ItemsText(b[1..]) + ([CLOSE_BRACKET] + m));
    }
  }

  lemma {:induction false} ItemsTell(a: seq<Value>, k: Bytes, b: seq<Value>, m: Bytes)
    requires AllWellFormed(a) && AllWellFormed(b)
    requires ItemsText(a) + ([CLOSE_BRACKET] + k) == ItemsText(b) + ([CLOSE_BRACKET] + m)
    ensures a == b && k == m
    decreases a, 1
  {
    if a == [] || b == [] {
      NoItems(a, k);
      NoItems(b, m);
    } else {
      FirstItemTells(a, k, b, m);
      OtherItemsTell(a, k, b, m);
      if |a| > 1 { ItemsTell(a[1..], k, b[1..], m); }
      assert a == [a[0]] + a[1..] && b == [b[0]] + b[1..];
    }
  }

  lemma NoItems(items: seq<Value>, k: Bytes)
    requires AllWellFormed(items)
    ensures var s := ItemsText(items) + ([CLOSE_BRACKET] + k);
            (s[0] == CLOSE_BRACKET <==> items == []) && (items == [] ==> s[1..] == k)
  {
    if items != [] {
      ItemsUnfold(items, k);
      TextOpens(items[0], AfterItem(items, k));
    }
  }

  function AfterMember(members: seq<Member>, k: Bytes): Bytes
    requires members != []
  {
    if |members| == 1 then [CLOSE_BRACE] + k else [COMMA] + (MembersText(members[1..]) + ([CLOSE_BRACE] + k))
  }

  lemma MembersUnfold(members: seq<Member>, k: Bytes)
    requires members != []
    ensures MembersText(members) + ([CLOSE_BRACE] + k)
         == Quoted(members[0].key) + ([COLON] + (Text(members[0].value) + AfterMember(members, k)))
  {
    Chain(Quoted(members[0].key), COLON, Text(members[0].value), AfterMember(members, k));
    if |members| > 1 { Chain(MemberText(members[0]), COMMA, MembersText(members[1..]), [CLOSE_BRACE] + k); }
  }

  predicate MembersWellFormed(members: seq<Member>) { forall k :: 0 <= k < |members| ==> WellFormed(members[k].value) }

  lemma {:induction false} FirstMemberTells(a: seq<Member>, k: Bytes, b: seq<Member>, m: Bytes)
    requires a != [] && b != [] && MembersWellFormed(a) && MembersWellFormed(b)
    requires MembersText(a) + ([CLOSE_BRACE] + k) == MembersText(b) + ([CLOSE_BRACE] + m)
    ensures a[0] == b[0] && AfterMember(a, k) == AfterMember(b, m)
    decreases a, 0
  {
    MembersUnfold(a, k);
    MembersUnfold(b, m);
    var x, y := Text(a[0].value) + AfterMember(a, k), Text(b[0].value) + AfterMember(b, m);
    QuotedTells(a[0].key, [COLON] + x, b[0].key, [COLON] + y);
    SameFront([COLON], x, y);
    TextTells(a[0].value, AfterMember(a, k), b[0].value, AfterMember(b, m));
  }

  lemma OtherMembersTell(a: seq<Member>, k: Bytes, b: seq<Member>, m: Bytes)
    requires a != [] && b != [] && AfterMember(a, k) == AfterMember(b, m)
    ensures |a| == 1 <==> |b| == 1
    ensures |a| == 1 ==> k == m
    ensures |a| > 1 ==> MembersText(a[1..]) + ([CLOSE_BRACE] + k) == MembersText(b[1..]) + ([CLOSE_BRACE] + m)
  {
    assert AfterMember(a, k)[0] == if |a| == 1 then CLOSE_BRACE else COMMA;
    assert AfterMember(b, m)[0] == if |b| == 1 then CLOSE_BRACE else COMMA;
    if |a| == 1 {
      SameFront([CLOSE_BRACE], k, m);
    } else {
      SameFront([COMMA], MembersText(a[1..]) + ([CLOSE_BRACE] + k), MembersText(b[1..]) + ([CLOSE_BRACE] + m));
    }
  }

  lemma {:induction false} MembersTell(a: seq<Member>, k: Bytes, b: seq<Member>, m: Bytes)
    requires MembersWellFormed(a) && MembersWellFormed(b)
    requires MembersText(a) + ([CLOSE_BRACE] + k) == MembersText(b) + ([CLOSE_BRACE] + m)
    ensures a == b && k == m
    decreases a, 1
  {
    if a == [] || b == [] {
      NoMembers(a, k);
      NoMembers(b, m);
    } else {
      FirstMemberTells(a, k, b, m);
      OtherMembersTell(a, k, b, m);
      if |a| > 1 { MembersTell(a[1..], k, b[1..], m); }
      assert a == [a[0]] + a[1..] && b == [b[0]] + b[1..];
    }
  }

  lemma NoMembers(members: seq<Member>, k: Bytes)
    ensures var s := MembersText(members) + ([CLOSE_BRACE] + k);
            (s[0] == CLOSE_BRACE <==> members == []) && (members == [] ==> s[1..] == k)
  {
    if members != [] { MembersUnfold(members, k); }
  }

  // So texts, one or many, tell the values.
  lemma TextInjective(v: Value, w: Value)
    requires WellFormed(v) && WellFormed(w) && Text(v) == Text(w)
    ensures v == w
  {
    assert Text(v) + [] == Text(v) && Text(w) + [] == Text(w);
    TextTells(v, [], w, []);
  }

  lemma {:induction false} TextsInjective(a: seq<Value>, b: seq<Value>)
    requires AllWellFormed(a) && AllWellFormed(b) && Texts(a) == Texts(b)
    ensures a == b
  {
    if a != [] && b != [] {
      assert Texts(a)[0] == Texts(b)[0] && Texts(a)[1..] == Texts(b)[1..];
      TextInjective(a[0], b[0]);
      TextsInjective(a[1..], b[1..]);
      assert a == [a[0]] + a[1..] && b == [b[0]] + b[1..];
    }
  }
}
