/**
The size of a document. The Host measures the UTF-8 bytes of the document as
`JSON.stringify` writes it; the model counts the bytes of its canonical text. The
count is that of an encoding that can be decoded, and member order does not matter.
*/
module Utf8 {
  import opened Json
  import CD = ClarificationDocuments
  import R = JsonReader

  type Byte = x: int | 0 <= x < 256

  // ---------------------------------------------------------------------
  // Encoding and decoding
  // ---------------------------------------------------------------------

  /** Surrogates only stand in pairs. */
  ghost predicate Paired(t: Text)
  {
    t == [] || (if High(t[0]) then |t| > 1 && Low(t[1]) && Paired(t[2..]) else !Low(t[0]) && Paired(t[1..]))
  }

  ghost predicate Encodable(t: Text)
  {
    Paired(t) && R.IsUtf16(t)
  }

  /** Section 3 of RFC 3629, from UTF-16 units. */
  ghost function Encode(t: Text): seq<Byte>
    requires Encodable(t)
  {
    if t == [] then []
    else if High(t[0]) then Four(0x10000 + (t[0] - 0xD800) * 0x400 + (t[1] - 0xDC00)) + Encode(t[2..])
    else (if t[0] < 0x80 then [t[0]] else if t[0] < 0x800 then Two(t[0]) else Three(t[0])) + Encode(t[1..])
  }

  function Two(u: int): seq<Byte>
    requires 0x80 <= u < 0x800
  {
    [0xC0 + u / 64, 0x80 + u % 64]
  }

  function Three(u: int): seq<Byte>
    requires 0x800 <= u < 0x10000
  {
    [0xE0 + u / 4096, 0x80 + u / 64 % 64, 0x80 + u % 64]
  }

  function Four(c: int): seq<Byte>
    requires 0x10000 <= c < 0x110000
  {
    [0xF0 + c / 262144, 0x80 + c / 4096 % 64, 0x80 + c / 64 % 64, 0x80 + c % 64]
  }

  /** The code point the bytes start with, and how many bytes it takes. */
  function Lead(b: seq<Byte>): (int, nat)
    requires b != []
  {
    if b[0] < 0x80 then (b[0], 1)
    else if b[0] < 0xE0 then (if |b| < 2 then (0, 1) else (64 * Low5(b[0]) + Low6(b[1]), 2))
    else if b[0] < 0xF0 then (if |b| < 3 then (0, 1) else (4096 * Low4(b[0]) + 64 * Low6(b[1]) + Low6(b[2]), 3))
    else if |b| < 4 then (0, 1)
    else (262144 * Low3(b[0]) + 4096 * Low6(b[1]) + 64 * Low6(b[2]) + Low6(b[3]), 4)
  }

  function Low6(b: Byte): int { b % 64 }
  function Low5(b: Byte): int { b % 32 }
  function Low4(b: Byte): int { b % 16 }
  function Low3(b: Byte): int { b % 8 }

  /** A code point as UTF-16 units. */
  function Units(c: int): Text
  {
    if c < 0x10000 then [c] else [0xD800 + (c - 0x10000) / 0x400, 0xDC00 + (c - 0x10000) % 0x400]
  }

  function Decode(b: seq<Byte>): Text
    decreases |b|
  {
    if b == [] then [] else Units(Lead(b).0) + (if Lead(b).1 > |b| then [] else Decode(b[Lead(b).1..]))
  }

  lemma Continues(d: int)
    requires 0 <= d < 64
    ensures Low6(0x80 + d) == d
  {
  }

  lemma TwoReads(u: int, x: seq<Byte>)
    requires 0x80 <= u < 0x800
    ensures Lead(Two(u) + x) == (u, 2) && (Two(u) + x)[2..] == x
  {
    hide Low6;
    Continues(u % 64);
    assert Low5(0xC0 + u / 64) == u / 64;
  }

  lemma ThreeDigits(u: int)
    requires 0 <= u
    ensures u == 4096 * (u / 4096) + 64 * (u / 64 % 64) + u % 64
  {
    assert u / 64 / 64 == u / 4096;
  }

  lemma ThreeReads(u: int, x: seq<Byte>)
    requires 0x800 <= u < 0x10000
    ensures Lead(Three(u) + x) == (u, 3) && (Three(u) + x)[3..] == x
  {
    hide Low6;
    Continues(u % 64);
    Continues(u / 64 % 64);
    ThreeDigits(u);
    assert Low4(0xE0 + u / 4096) == u / 4096;
  }

  lemma FourDigits(c: int)
    requires 0 <= c
    ensures c == 262144 * (c / 262144) + 4096 * (c / 4096 % 64) + 64 * (c / 64 % 64) + c % 64
  {
    ThreeDigits(c);
    assert c / 4096 / 64 == c / 262144;
  }

  lemma FourReads(c: int, x: seq<Byte>)
    requires 0x10000 <= c < 0x110000
    ensures Lead(Four(c) + x) == (c, 4) && (Four(c) + x)[4..] == x
  {
    hide Low6;
    Continues(c % 64);
    Continues(c / 64 % 64);
    Continues(c / 4096 % 64);
    FourDigits(c);
    assert Low3(0xF0 + c / 262144) == c / 262144;
  }

  lemma PairIsUnits(hi: CodeUnit, lo: CodeUnit)
    requires High(hi) && Low(lo)
    ensures var c := 0x10000 + (hi - 0xD800) * 0x400 + (lo - 0xDC00);
      0x10000 <= c < 0x110000 && Units(c) == [hi, lo]
  {
    var c := (hi - 0xD800) * 0x400 + (lo - 0xDC00);
    assert c / 0x400 == hi - 0xD800 && c % 0x400 == lo - 0xDC00;
  }

  /** What is encoded is decoded again. */
  lemma {:induction false} EncodeDecodes(t: Text)
    requires Encodable(t)
    ensures Decode(Encode(t)) == t
    decreases |t|
  {
    hide Lead, Two, Three, Four, Units, Encode;
    if t != [] {
      EncodeHead(t);
      if High(t[0]) {
        PairIsUnits(t[0], t[1]);
        FourReads(0x10000 + (t[0] - 0xD800) * 0x400 + (t[1] - 0xDC00), Encode(t[2..]));
        EncodeDecodes(t[2..]);
        assert t == [t[0], t[1]] + t[2..];
      } else {
        var x := Encode(t[1..]);
        if t[0] < 0x80 { OneReads(t[0], x); } else if t[0] < 0x800 { TwoReads(t[0], x); } else { ThreeReads(t[0], x); }
        EncodeDecodes(t[1..]);
        OneUnit(t[0]);
        assert t == [t[0]] + t[1..];
      }
    } else {
      EncodeNothing();
    }
  }

  lemma EncodeNothing()
    ensures Encode([]) == []
  {
  }

  lemma EncodeHead(t: Text)
    requires t != [] && Encodable(t)
    ensures Encode(t) ==
      if High(t[0]) then Four(0x10000 + (t[0] - 0xD800) * 0x400 + (t[1] - 0xDC00)) + Encode(t[2..])
      else (if t[0] < 0x80 then [t[0]] else if t[0] < 0x800 then Two(t[0]) else Three(t[0])) + Encode(t[1..])
    ensures |Encode(t)| >= (if High(t[0]) then 4 else if t[0] < 0x80 then 1 else if t[0] < 0x800 then 2 else 3)
  {
  }

  lemma OneReads(u: int, x: seq<Byte>)
    requires 0 <= u < 0x80
    ensures Lead([u] + x) == (u, 1) && ([u] + x)[1..] == x
  {
  }

  lemma OneUnit(u: int)
    requires u < 0x10000
    ensures Units(u) == [u]
  {
  }

  /** The count is the size of the encoding. */
  lemma {:induction false} BytesAreEncoded(t: Text)
    requires Encodable(t)
    ensures CD.Utf8Bytes(t) == |Encode(t)|
    decreases |t|
  {
    if t != [] {
      if High(t[0]) {
        BytesAreEncoded(t[2..]);
        assert t[1..][1..] == t[2..] && t[1..][0] == t[1];
        assert CD.Utf8Bytes(t[1..]) == 2 + CD.Utf8Bytes(t[2..]);
      } else {
        BytesAreEncoded(t[1..]);
      }
    }
  }

  // ---------------------------------------------------------------------
  // JSON text
  // ---------------------------------------------------------------------

  lemma {:induction false} PairedAppend(a: Text, b: Text)
    requires Paired(a) && Paired(b)
    ensures Paired(a + b)
    decreases |a|
  {
    if a == [] {
      assert a + b == b;
    } else if High(a[0]) {
      assert (a + b)[2..] == a[2..] + b;
      PairedAppend(a[2..], b);
    } else {
      assert (a + b)[1..] == a[1..] + b;
      PairedAppend(a[1..], b);
    }
  }

  lemma Joined(a: Text, b: Text)
    requires Encodable(a) && Encodable(b)
    ensures Encodable(a + b)
  {
    hide Paired;
    PairedAppend(a, b);
  }

  lemma {:induction false} AsciiPaired(t: Text)
    requires forall i :: 0 <= i < |t| ==> t[i] < 0xD800
    ensures Paired(t)
  {
    if t != [] { AsciiPaired(t[1..]); }
  }

  lemma Ascii(t: Text)
    requires forall i :: 0 <= i < |t| ==> 0 <= t[i] < 0x80
    ensures Encodable(t)
  {
    AsciiPaired(t);
  }

  /** An escape copies a pair and escapes a surrogate that stands alone. */
  lemma HeadEncodable(s: Text)
    requires s != [] && R.IsUtf16(s)
    ensures Encodable(HeadText(s))
  {
    var h := HeadText(s);
    if HeadLength(s) == 2 {
      assert h[2..] == [];
    } else if |h| == 6 {
      HexIsAscii(s[0]);
      Ascii(h);
    } else if |h| == 2 {
      Ascii(h);
    } else {
      assert h[1..] == [];
    }
  }

  lemma HexIsAscii(u: CodeUnit)
    requires 0 <= u < 0x10000
    ensures forall i :: 0 <= i < 4 ==> 0 <= Hex4(u)[i] < 0x80
  {
    assert 0 <= u / 4096 < 16;
  }

  lemma {:induction false} EscapeEncodable(s: Text)
    requires R.IsUtf16(s)
    ensures Encodable(Escape(s))
    decreases |s|
  {
    hide HeadText, Paired;
    if s == [] {
      Ascii([]);
    } else {
      HeadEncodable(s);
      EscapeEncodable(s[HeadLength(s)..]);
      Joined(HeadText(s), Escape(s[HeadLength(s)..]));
    }
  }

  lemma QuoteEncodable(s: Text)
    requires R.IsUtf16(s)
    ensures Encodable(Quote(s))
  {
    hide Escape, Encodable;
    EscapeEncodable(s);
    Ascii([QUOTE]);
    Joined([QUOTE], Escape(s));
    Joined([QUOTE] + Escape(s), [QUOTE]);
  }

  // ---------------------------------------------------------------------
  // JSON.stringify keeps the order of members
  // ---------------------------------------------------------------------

  /** As `Canonical`, with the members in the order they have. */
  function Stringify(v: Value): Text
    decreases v, 0
  {
    match v
    case Arr(items) => [0x5B] + StringifyItems(items) + [0x5D]
    case Obj(ms) => [0x7B] + JoinEntries(InPlace(ms)) + [0x7D]
    case _ => Canonical(v)
  }

  function StringifyItems(items: seq<Value>): Text
    decreases items, 1
  {
    if items == [] then []
    else Stringify(items[0]) + (if |items| == 1 then [] else [COMMA] + StringifyItems(items[1..]))
  }

  function InPlace(ms: seq<Member>): (es: seq<Entry>)
    ensures |es| == |ms|
    decreases ms, 1
  {
    if ms == [] then [] else [Entry(ms[0].key, Stringify(ms[0].val))] + InPlace(ms[1..])
  }

  lemma {:induction false} BytesAppend(a: Text, b: Text)
    ensures CD.Utf8Bytes(a + b) == CD.Utf8Bytes(a) + CD.Utf8Bytes(b)
  {
    if a == [] {
      assert a + b == b;
    } else {
      assert (a + b)[1..] == a[1..] + b;
      BytesAppend(a[1..], b);
    }
  }

  /** The bytes of the entries, without what joins them. */
  function Weight(es: seq<Entry>): nat
  {
    if es == [] then 0 else CD.Utf8Bytes(Quote(es[0].key)) + 1 + CD.Utf8Bytes(es[0].text) + Weight(es[1..])
  }

  lemma OneByte(u: CodeUnit)
    requires u < 0x80
    ensures CD.Utf8Bytes([u]) == 1
  {
    assert [u][1..] == [];
  }

  lemma {:induction false} JoinWeighs(es: seq<Entry>)
    ensures CD.Utf8Bytes(JoinEntries(es)) == Weight(es) + if es == [] then 0 else |es| - 1
  {
    hide CD.Utf8Bytes, Quote;
    if es == [] {
      assert CD.Utf8Bytes([]) == 0 by { NoBytes(); }
    } else {
      var q, t := Quote(es[0].key), es[0].text;
      var rest := if |es| == 1 then [] else [COMMA] + JoinEntries(es[1..]);
      BytesAppend(q + [COLON] + t, rest);
      BytesAppend(q + [COLON], t);
      BytesAppend(q, [COLON]);
      OneByte(COLON);
      OneByte(COMMA);
      NoBytes();
      JoinWeighs(es[1..]);
      if |es| > 1 { BytesAppend([COMMA], JoinEntries(es[1..])); }
    }
  }

  lemma NoBytes()
    ensures CD.Utf8Bytes([]) == 0
  {
  }

  lemma {:induction false} InsertWeighs(e: Entry, es: seq<Entry>)
    ensures Weight(Insert(e, es)) == Weight([e]) + Weight(es) && |Insert(e, es)| == |es| + 1
  {
    hide CD.Utf8Bytes, Quote, Before;
    assert [e][1..] == [];
    if es == [] || Before(e.key, es[0].key) {
      assert ([e] + es)[1..] == es;
    } else {
      InsertWeighs(e, es[1..]);
      assert ([es[0]] + Insert(e, es[1..]))[1..] == Insert(e, es[1..]);
    }
  }

  lemma {:induction false} SortWeighs(es: seq<Entry>)
    ensures Weight(SortEntries(es)) == Weight(es) && |SortEntries(es)| == |es|
  {
    hide CD.Utf8Bytes, Quote, Insert;
    if es != [] {
      SortWeighs(es[1..]);
      InsertWeighs(es[0], SortEntries(es[1..]));
      assert [es[0]][1..] == [];
    }
  }

  /** Sorting the members does not change the size. */
  lemma {:induction false} SameSize(v: Value)
    ensures CD.Utf8Bytes(Stringify(v)) == CD.Utf8Bytes(Canonical(v))
    decreases v, 2
  {
    match v {
      case Arr(items) =>
        ItemsSize(v, items);
        WrapSize(0x5B, StringifyItems(items), 0x5D);
        WrapSize(0x5B, JoinItems(items), 0x5D);
      case Obj(ms) =>
        MembersWeigh(v, ms);
        SortWeighs(Entries(ms));
        JoinWeighs(InPlace(ms));
        JoinWeighs(SortEntries(Entries(ms)));
        WrapSize(0x7B, JoinEntries(InPlace(ms)), 0x7D);
        WrapSize(0x7B, JoinEntries(SortEntries(Entries(ms))), 0x7D);
      case _ =>
    }
  }

  lemma WrapSize(open: CodeUnit, body: Text, close: CodeUnit)
    requires open < 0x80 && close < 0x80
    ensures CD.Utf8Bytes([open] + body + [close]) == CD.Utf8Bytes(body) + 2
  {
    hide CD.Utf8Bytes;
    BytesAppend([open] + body, [close]);
    BytesAppend([open], body);
    OneByte(open);
    OneByte(close);
  }

  lemma {:induction false} ItemsSize(outer: Value, items: seq<Value>)
    requires outer.Arr? && forall i :: 0 <= i < |items| ==> items[i] in outer.items
    ensures CD.Utf8Bytes(StringifyItems(items)) == CD.Utf8Bytes(JoinItems(items))
    decreases outer, 1, |items|
  {
    hide CD.Utf8Bytes, Stringify, Canonical;
    if items != [] {
      assert items[0] in outer.items;
      SameSize(items[0]);
      ItemsSize(outer, items[1..]);
      if |items| > 1 {
        BytesAppend(Stringify(items[0]), [COMMA] + StringifyItems(items[1..]));
        BytesAppend([COMMA], StringifyItems(items[1..]));
        BytesAppend(Canonical(items[0]), [COMMA] + JoinItems(items[1..]));
        BytesAppend([COMMA], JoinItems(items[1..]));
      } else {
        assert Stringify(items[0]) + [] == Stringify(items[0]) && Canonical(items[0]) + [] == Canonical(items[0]);
      }
    }
  }

  lemma {:induction false} MembersWeigh(outer: Value, ms: seq<Member>)
    requires outer.Obj? && forall i :: 0 <= i < |ms| ==> ms[i] in outer.members
    ensures Weight(InPlace(ms)) == Weight(Entries(ms))
    decreases outer, 1, |ms|
  {
    hide CD.Utf8Bytes, Stringify, Canonical, Quote;
    if ms != [] {
      assert ms[0] in outer.members;
      SameSize(ms[0].val);
      MembersWeigh(outer, ms[1..]);
      assert InPlace(ms)[1..] == InPlace(ms[1..]) && Entries(ms)[1..] == Entries(ms[1..]);
    }
  }

  // ---------------------------------------------------------------------
  // The size of a document
  // ---------------------------------------------------------------------

  lemma NumberEncodable(n: int)
    ensures Encodable(NumText(n))
  {
    hide Encodable, Digits;
    Ascii(NumText(n));
  }

  lemma {:induction false} TextEncodable(v: Value)
    requires R.Utf16(v)
    ensures Encodable(Stringify(v))
    decreases v, 2
  {
    hide Encodable, NumText, Quote;
    match v {
      case Null => Ascii(U("null"));
      case Bool(b) => Ascii(if b then U("true") else U("false"));
      case Num(n) => NumberEncodable(n);
      case Str(t) => QuoteEncodable(t);
      case Arr(items) =>
        ItemsEncodable(v, items);
        Wrapped(0x5B, StringifyItems(items), 0x5D);
      case Obj(ms) =>
        MembersEncodable(v, ms);
        Wrapped(0x7B, JoinEntries(InPlace(ms)), 0x7D);
    }
  }

  lemma Wrapped(open: CodeUnit, body: Text, close: CodeUnit)
    requires 0 <= open < 0x80 && 0 <= close < 0x80 && Encodable(body)
    ensures Encodable([open] + body + [close])
  {
    hide Encodable;
    Ascii([open]);
    Ascii([close]);
    Joined([open], body);
    Joined([open] + body, [close]);
  }

  lemma {:induction false} ItemsEncodable(outer: Value, items: seq<Value>)
    requires outer.Arr? && forall i :: 0 <= i < |items| ==> items[i] in outer.items && R.Utf16(items[i])
    ensures Encodable(StringifyItems(items))
    decreases outer, 1, |items|
  {
    hide Encodable, Stringify, R.Utf16;
    Ascii([]);
    Ascii([COMMA]);
    if items != [] {
      assert items[0] in outer.items;
      TextEncodable(items[0]);
      ItemsEncodable(outer, items[1..]);
      Joined([COMMA], StringifyItems(items[1..]));
      Joined(Stringify(items[0]), if |items| == 1 then [] else [COMMA] + StringifyItems(items[1..]));
    }
  }

  lemma {:induction false} MembersEncodable(outer: Value, ms: seq<Member>)
    requires outer.Obj? && forall i :: 0 <= i < |ms| ==> ms[i] in outer.members && R.IsUtf16(ms[i].key) && R.Utf16(ms[i].val)
    ensures Encodable(JoinEntries(InPlace(ms)))
    decreases outer, 1, |ms|
  {
    hide Encodable, Stringify, Quote, R.Utf16, R.IsUtf16;
    Ascii([]);
    Ascii([COMMA]);
    Ascii([COLON]);
    if ms != [] {
      assert ms[0] in outer.members;
      TextEncodable(ms[0].val);
      MembersEncodable(outer, ms[1..]);
      QuoteEncodable(ms[0].key);
      var es := InPlace(ms);
      assert es[1..] == InPlace(ms[1..]);
      Joined([COMMA], JoinEntries(es[1..]));
      Joined(Quote(es[0].key), [COLON]);
      Joined(Quote(es[0].key) + [COLON], es[0].text);
      Joined(Quote(es[0].key) + [COLON] + es[0].text, if |es| == 1 then [] else [COMMA] + JoinEntries(es[1..]));
    }
  }

  /** What the size limit counts is the UTF-8 encoding of the document as `JSON.stringify` writes it. */
  lemma DocumentSize(v: Value)
    requires R.Utf16(v)
    ensures Encodable(Stringify(v)) && CD.Utf8Bytes(Canonical(v)) == |Encode(Stringify(v))| && Decode(Encode(Stringify(v))) == Stringify(v)
  {
    hide Encodable, Stringify, Canonical, CD.Utf8Bytes, Encode, Decode;
    TextEncodable(v);
    SameSize(v);
    BytesAreEncoded(Stringify(v));
    EncodeDecodes(Stringify(v));
  }
}
