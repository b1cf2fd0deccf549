/**
A reader of JSON text, by the grammar of RFC 8259 without insignificant
whitespace and for integers only. Canonical text is JSON: reading it gives the
value back, with every object's members in the order of their keys.
*/
module JsonReader {
  import opened Json

  // ---------------------------------------------------------------------
  // Strings
  // ---------------------------------------------------------------------

  /** Section 7: one possibly escaped unit of a string, and how many units of text it takes. */
  function ReadUnit(t: Text): (r: Option<(CodeUnit, nat)>)
    ensures r.Some? ==> 1 <= r.value.1 <= |t|
  {
    if t == [] || t[0] < 0x20 || t[0] == QUOTE then None
    else if t[0] != BACKSLASH then Some((t[0], 1))
    else if |t| < 2 then None
    else if t[1] == QUOTE || t[1] == BACKSLASH || t[1] == 0x2F then Some((t[1], 2))
    else if t[1] == 0x62 then Some((8, 2))
    else if t[1] == 0x66 then Some((12, 2))
    else if t[1] == 0x6E then Some((10, 2))
    else if t[1] == 0x72 then Some((13, 2))
    else if t[1] == 0x74 then Some((9, 2))
    else if t[1] == 0x75 && |t| >= 6 && HexValue(t[2..6]).Some? then Some((HexValue(t[2..6]).value, 6))
    else None
  }

  function HexDigit(u: CodeUnit): (d: Option<int>)
    ensures d.Some? ==> 0 <= d.value < 16
  {
    if 48 <= u < 58 then Some(u - 48) else if 97 <= u < 103 then Some(u - 87) else if 65 <= u < 71 then Some(u - 55) else None
  }

  function HexValue(t: Text): (v: Option<CodeUnit>)
    requires |t| == 4
  {
    var a, b, c, d := HexDigit(t[0]), HexDigit(t[1]), HexDigit(t[2]), HexDigit(t[3]);
    if a.None? || b.None? || c.None? || d.None? then None
    else Some(4096 * a.value + 256 * b.value + 16 * c.value + d.value)
  }

  /** The rest of a string after its opening quote, up to its closing one. */
  function ReadString(t: Text): (r: Option<(Text, Text)>)
    ensures r.Some? ==> |r.value.1| < |t|
    decreases |t|
  {
    if t == [] then None
    else if t[0] == QUOTE then Some(([], t[1..]))
    else
      var u := ReadUnit(t);
      if u.None? then None
      else
        var rest := ReadString(t[u.value.1..]);
        if rest.None? then None else Some(([u.value.0] + rest.value.0, rest.value.1))
  }

  ghost predicate IsUtf16(t: Text)
  {
    forall i :: 0 <= i < |t| ==> 0 <= t[i] < 0x10000
  }

  lemma HexReads(u: CodeUnit)
    requires 0 <= u < 0x10000
    ensures HexValue(Hex4(u)) == Some(u)
  {
    FourDigits(u);
    assert 0 <= u / 4096 < 16;
    HexDigitReads(u / 4096);
    HexDigitReads(u / 256 % 16);
    HexDigitReads(u / 16 % 16);
    HexDigitReads(u % 16);
  }

  lemma HexDigitReads(d: int)
    requires 0 <= d < 16
    ensures HexDigit(Hex(d)) == Some(d)
  {
  }

  /** An escaped unit is read back. */
  lemma HeadReads(s: Text, x: Text)
    requires s != [] && HeadLength(s) == 1 && IsUtf16(s)
    ensures ReadUnit(HeadText(s) + x) == Some((s[0], |HeadText(s)|)) && (HeadText(s) + x)[0] != QUOTE
  {
    hide Hex, HexValue;
    var t := HeadText(s) + x;
    if |HeadText(s)| == 6 {
      assert t[2..6] == Hex4(s[0]);
      HexReads(s[0]);
    }
  }

  /** What is written between quotes is read back. */
  lemma {:induction false} EscapeReads(s: Text, x: Text)
    requires IsUtf16(s)
    ensures ReadString(Escape(s) + [QUOTE] + x) == Some((s, x))
    decreases |s|
  {
    hide ReadUnit, HeadText;
    var y := [QUOTE] + x;
    assert Escape(s) + [QUOTE] + x == Escape(s) + y;
    if s == [] {
      assert Escape(s) + y == y && y[1..] == x;
    } else if HeadLength(s) == 2 {
      PairReads(s, x);
    } else {
      var rest := Escape(s[1..]) + y;
      assert Escape(s) + y == HeadText(s) + rest;
      HeadReads(s, rest);
      assert (HeadText(s) + rest)[|HeadText(s)|..] == rest;
      assert rest == Escape(s[1..]) + [QUOTE] + x;
      EscapeReads(s[1..], x);
      assert s == [s[0]] + s[1..];
    }
  }

  lemma PlainReads(u: CodeUnit, rest: Text, s: Text, x: Text)
    requires u >= 0x20 && u != QUOTE && u != BACKSLASH && ReadString(rest) == Some((s, x))
    ensures ReadString([u] + rest) == Some(([u] + s, x))
  {
    var t := [u] + rest;
    assert t[1..] == rest;
    assert ReadUnit(t) == Some((u, 1));
  }

  lemma {:induction false} PairReads(s: Text, x: Text)
    requires s != [] && HeadLength(s) == 2 && IsUtf16(s)
    ensures ReadString(Escape(s) + [QUOTE] + x) == Some((s, x))
    decreases |s|, 0
  {
    hide ReadString, Escape;
    var rest := Escape(s[2..]) + [QUOTE] + x;
    EscapeReads(s[2..], x);
    PlainReads(s[1], rest, s[2..], x);
    PlainReads(s[0], [s[1]] + rest, [s[1]] + s[2..], x);
    EscapePair(s);
    assert Escape(s) + [QUOTE] + x == [s[0]] + ([s[1]] + rest);
    assert s == [s[0]] + ([s[1]] + s[2..]);
  }

  lemma EscapePair(s: Text)
    requires s != [] && HeadLength(s) == 2
    ensures Escape(s) == [s[0]] + [s[1]] + Escape(s[2..])
  {
    assert HeadText(s) == s[..2] == [s[0]] + [s[1]];
  }

  // ---------------------------------------------------------------------
  // Values
  // ---------------------------------------------------------------------

  predicate Starts(t: Text, word: Text)
  {
    |word| <= |t| && t[..|word|] == word
  }

  /** How many digits the text starts with. */
  function DigitCount(t: Text): (n: nat)
    ensures n <= |t|
  {
    if t != [] && IsDigit(t[0]) then 1 + DigitCount(t[1..]) else 0
  }

  /** Section 6, integers: no superfluous leading zero. */
  function ReadDigits(t: Text): (r: Option<(int, Text)>)
    ensures r.Some? ==> |r.value.1| < |t|
  {
    var n := DigitCount(t);
    if n == 0 || (n > 1 && t[0] == 48) then None else Some((DigitsValue(t[..n]), t[n..]))
  }

  function ReadNumber(t: Text): (r: Option<(Value, Text)>)
    ensures r.Some? ==> |r.value.1| < |t|
  {
    if t == [] then None
    else
      var negative := t[0] == 0x2D;
      var d := ReadDigits(if negative then t[1..] else t);
      if d.None? then None else Some((Num(if negative then -d.value.0 else d.value.0), d.value.1))
  }

  function ReadValue(t: Text): (r: Option<(Value, Text)>)
    ensures r.Some? ==> |r.value.1| < |t|
    decreases |t|, 0
  {
    if t == [] then None
    else if Starts(t, U("null")) then Some((Null, t[4..]))
    else if Starts(t, U("true")) then Some((Bool(true), t[4..]))
    else if Starts(t, U("false")) then Some((Bool(false), t[5..]))
    else if t[0] == QUOTE then
      var s := ReadString(t[1..]);
      if s.None? then None else Some((Str(s.value.0), s.value.1))
    else if t[0] == 0x5B then
      if |t| > 1 && t[1] == 0x5D then Some((Arr([]), t[2..]))
      else
        var items := ReadItems(t[1..]);
        if items.None? then None else Some((Arr(items.value.0), items.value.1))
    else if t[0] == 0x7B then
      if |t| > 1 && t[1] == 0x7D then Some((Obj([]), t[2..]))
      else
        var ms := ReadMembers(t[1..]);
        if ms.None? then None else Some((Obj(ms.value.0), ms.value.1))
    else ReadNumber(t)
  }

  /** One or more values, up to the closing bracket. */
  function ReadItems(t: Text): (r: Option<(seq<Value>, Text)>)
    ensures r.Some? ==> |r.value.1| < |t|
    decreases |t|, 1
  {
    var v := ReadValue(t);
    if v.None? || v.value.1 == [] then None
    else if v.value.1[0] == 0x5D then Some(([v.value.0], v.value.1[1..]))
    else if v.value.1[0] != COMMA then None
    else
      var more := ReadItems(v.value.1[1..]);
      if more.None? then None else Some(([v.value.0] + more.value.0, more.value.1))
  }

  /** One or more members, up to the closing brace. */
  function ReadMembers(t: Text): (r: Option<(seq<Member>, Text)>)
    ensures r.Some? ==> |r.value.1| < |t|
    decreases |t|, 1
  {
    var m := ReadMember(t);
    if m.None? || m.value.1 == [] then None
    else if m.value.1[0] == 0x7D then Some(([m.value.0], m.value.1[1..]))
    else if m.value.1[0] != COMMA then None
    else
      var more := ReadMembers(m.value.1[1..]);
      if more.None? then None else Some(([m.value.0] + more.value.0, more.value.1))
  }

  function ReadMember(t: Text): (r: Option<(Member, Text)>)
    ensures r.Some? ==> |r.value.1| < |t|
    decreases |t|, 0
  {
    if t == [] || t[0] != QUOTE then None
    else
      var key := ReadString(t[1..]);
      if key.None? || key.value.1 == [] || key.value.1[0] != COLON then None
      else
        var v := ReadValue(key.value.1[1..]);
        if v.None? then None else Some((Member(key.value.0, v.value.0), v.value.1))
  }

  /** `JSON.parse`: one value and nothing after it. */
  function Parse(t: Text): Option<Value>
  {
    var r := ReadValue(t);
    if r.Some? && r.value.1 == [] then Some(r.value.0) else None
  }

  // ---------------------------------------------------------------------
  // Members in order
  // ---------------------------------------------------------------------

  function InsertMember(m: Member, ms: seq<Member>): (r: seq<Member>)
    ensures |r| == |ms| + 1
  {
    if ms == [] || Before(m.key, ms[0].key) then [m] + ms else [ms[0]] + InsertMember(m, ms[1..])
  }

  function SortMembers(ms: seq<Member>): (r: seq<Member>)
    ensures |r| == |ms|
  {
    if ms == [] then [] else InsertMember(ms[0], SortMembers(ms[1..]))
  }

  lemma {:induction false} InsertCommutes(m: Member, ms: seq<Member>)
    ensures Insert(Entry(m.key, Canonical(m.val)), Entries(ms)) == Entries(InsertMember(m, ms))
    ensures forall x :: x in InsertMember(m, ms) <==> x == m || x in ms
  {
    hide Before, Canonical;
    if ms == [] || Before(m.key, ms[0].key) {
      assert ([m] + ms)[1..] == ms;
    } else {
      InsertCommutes(m, ms[1..]);
      assert ms == [ms[0]] + ms[1..];
      assert ([ms[0]] + InsertMember(m, ms[1..]))[1..] == InsertMember(m, ms[1..]);
      assert Entries(ms)[1..] == Entries(ms[1..]);
    }
  }

  lemma {:induction false} SortCommutes(ms: seq<Member>)
    ensures SortEntries(Entries(ms)) == Entries(SortMembers(ms))
    ensures forall x :: x in SortMembers(ms) <==> x in ms
  {
    hide Before, Canonical, Insert, InsertMember;
    if ms != [] {
      SortCommutes(ms[1..]);
      InsertCommutes(ms[0], SortMembers(ms[1..]));
      assert Entries(ms)[1..] == Entries(ms[1..]);
      assert ms == [ms[0]] + ms[1..];
    }
  }

  /** The value with every object's members in the order of their keys. */
  function Ordered(v: Value): Value
    decreases v, 0
  {
    match v
    case Arr(items) => Arr(OrderedItems(items))
    case Obj(ms) => Obj(SortMembers(OrderedMembers(ms)))
    case _ => v
  }

  function OrderedItems(items: seq<Value>): (r: seq<Value>)
    ensures |r| == |items|
    decreases items, 1
  {
    if items == [] then [] else [Ordered(items[0])] + OrderedItems(items[1..])
  }

  function OrderedMembers(ms: seq<Member>): (r: seq<Member>)
    ensures |r| == |ms|
    decreases ms, 1
  {
    if ms == [] then [] else [Member(ms[0].key, Ordered(ms[0].val))] + OrderedMembers(ms[1..])
  }

  lemma {:induction false} InsertOrdered(m: Member, ms: seq<Member>)
    ensures InsertMember(Member(m.key, Ordered(m.val)), OrderedMembers(ms)) == OrderedMembers(InsertMember(m, ms))
  {
    hide Before, Ordered;
    if ms == [] || Before(m.key, ms[0].key) {
      assert ([m] + ms)[1..] == ms;
    } else {
      InsertOrdered(m, ms[1..]);
      assert OrderedMembers(ms)[1..] == OrderedMembers(ms[1..]);
      assert ([ms[0]] + InsertMember(m, ms[1..]))[1..] == InsertMember(m, ms[1..]);
    }
  }

  lemma {:induction false} SortOrdered(ms: seq<Member>)
    ensures SortMembers(OrderedMembers(ms)) == OrderedMembers(SortMembers(ms))
  {
    hide Before, Ordered, InsertMember;
    if ms != [] {
      SortOrdered(ms[1..]);
      InsertOrdered(ms[0], SortMembers(ms[1..]));
      assert OrderedMembers(ms)[1..] == OrderedMembers(ms[1..]);
    }
  }

  // ---------------------------------------------------------------------
  // The round trip
  // ---------------------------------------------------------------------

  /** Every text in the value consists of UTF-16 units. */
  ghost predicate Utf16(v: Value)
  {
    match v
    case Str(t) => IsUtf16(t)
    case Arr(items) => forall i :: 0 <= i < |items| ==> Utf16(items[i])
    case Obj(ms) => forall i :: 0 <= i < |ms| ==> IsUtf16(ms[i].key) && Utf16(ms[i].val)
    case _ => true
  }

  lemma {:induction false} CountsDigits(a: Text, x: Text)
    requires (forall i :: 0 <= i < |a| ==> IsDigit(a[i])) && Stop(x)
    ensures DigitCount(a + x) == |a|
  {
    if a == [] {
      assert a + x == x;
    } else {
      assert (a + x)[1..] == a[1..] + x;
      CountsDigits(a[1..], x);
    }
  }

  lemma {:induction false} NoLeadingZero(n: nat)
    ensures |Digits(n)| > 1 ==> Digits(n)[0] != 48
  {
    if n >= 10 { NoLeadingZero(n / 10); }
  }

  lemma DigitsRead(n: nat, x: Text)
    requires Stop(x)
    ensures ReadDigits(Digits(n) + x) == Some((n, x))
  {
    hide Digits, DigitCount;
    var t := Digits(n) + x;
    CountsDigits(Digits(n), x);
    NoLeadingZero(n);
    DigitsValueInverts(n);
    assert t[..|Digits(n)|] == Digits(n) && t[|Digits(n)|..] == x;
  }

  lemma NumberReads(n: int, x: Text)
    requires Stop(x)
    ensures ReadNumber(NumText(n) + x) == Some((Num(n), x))
  {
    hide Digits, ReadDigits;
    var t := NumText(n) + x;
    if n < 0 {
      assert t[1..] == Digits(-n) + x;
      DigitsRead(-n, x);
    } else {
      assert t[0] == Digits(n)[0];
      DigitsRead(n, x);
    }
  }

  lemma NumberStarts(n: int, x: Text)
    ensures var t := NumText(n) + x;
      t != [] && (t[0] == 0x2D || IsDigit(t[0]))
  {
    hide Digits;
  }

  /** Only the three words start with their letters. */
  lemma WordsStart(t: Text)
    requires t != []
    ensures Starts(t, U("null")) ==> t[0] == 110
    ensures Starts(t, U("true")) ==> t[0] == 116
    ensures Starts(t, U("false")) ==> t[0] == 102
  {
    assert U("null")[0] == 110 && U("true")[0] == 116 && U("false")[0] == 102;
    assert Starts(t, U("null")) ==> t[..4][0] == t[0];
    assert Starts(t, U("true")) ==> t[..4][0] == t[0];
    assert Starts(t, U("false")) ==> t[..5][0] == t[0];
  }

  lemma ScalarReads(v: Value, x: Text)
    requires (v.Null? || v.Bool? || v.Num? || v.Str?) && Utf16(v) && Stop(x)
    ensures ReadValue(Canonical(v) + x) == Some((v, x))
  {
    hide ReadString, ReadNumber, NumText, Escape;
    var t := Canonical(v) + x;
    match v
    case Null =>
      assert t[..4] == U("null") && t[4..] == x;
    case Bool(b) =>
      WordsStart(t);
      if b { assert t[..4] == U("true") && t[4..] == x; } else { assert t[..5] == U("false") && t[5..] == x; }
    case Num(n) =>
      NumberStarts(n, x);
      NumberReads(n, x);
      WordsStart(t);
    case Str(s) =>
      WordsStart(t);
      assert t[1..] == Escape(s) + [QUOTE] + x;
      EscapeReads(s, x);
  }

  lemma TailStops(more: bool, rest: Text, close: CodeUnit, x: Text)
    requires close == 0x5D || close == 0x7D
    ensures var t := Tail(more, rest, close, x);
      t != [] && Stop(t) && (if more then t[0] == COMMA && t[1..] == rest + ([close] + x) else t[0] == close && t[1..] == x)
  {
  }

  lemma {:induction false} ItemsRead(outer: Value, xs: seq<Value>, x: Text)
    requires outer.Arr? && xs != [] && forall i :: 0 <= i < |xs| ==> xs[i] in outer.items && Utf16(xs[i])
    ensures ReadItems(JoinItems(xs) + ([0x5D] + x)) == Some((OrderedItems(xs), x))
    decreases outer, 0, |xs|
  {
    hide Canonical, ReadValue, JoinItems, Ordered, Tail, Utf16;
    var tail := Tail(|xs| > 1, JoinItems(xs[1..]), 0x5D, x);
    ItemsSplit(xs, x);
    TailStops(|xs| > 1, JoinItems(xs[1..]), 0x5D, x);
    assert xs[0] in outer.items;
    ValueReads(xs[0], tail);
    if |xs| > 1 {
      ItemsRead(outer, xs[1..], x);
    } else {
      assert OrderedItems(xs) == [Ordered(xs[0])];
    }
  }

  lemma MemberReads(m: Member, tail: Text)
    requires IsUtf16(m.key) && ReadValue(Canonical(m.val) + tail) == Some((Ordered(m.val), tail))
    ensures ReadMember(Quote(m.key) + ([COLON] + (Canonical(m.val) + tail))) == Some((Member(m.key, Ordered(m.val)), tail))
  {
    hide Canonical, ReadValue, Ordered, ReadString, Escape;
    var rest := [COLON] + (Canonical(m.val) + tail);
    var t := Quote(m.key) + rest;
    assert t[1..] == Escape(m.key) + [QUOTE] + rest;
    EscapeReads(m.key, rest);
    assert rest[1..] == Canonical(m.val) + tail;
  }

  lemma {:induction false} MembersRead(outer: Value, ms: seq<Member>, x: Text)
    requires outer.Obj? && ms != [] && forall i :: 0 <= i < |ms| ==> ms[i] in outer.members && IsUtf16(ms[i].key) && Utf16(ms[i].val)
    ensures ReadMembers(JoinEntries(Entries(ms)) + ([0x7D] + x)) == Some((OrderedMembers(ms), x))
    decreases outer, 0, |ms|
  {
    hide Canonical, ReadValue, ReadMember, JoinEntries, Ordered, Tail, Quote, Utf16;
    var es := Entries(ms);
    assert es[0] == Entry(ms[0].key, Canonical(ms[0].val)) && es[1..] == Entries(ms[1..]);
    var tail := Tail(|es| > 1, JoinEntries(es[1..]), 0x7D, x);
    EntriesSplit(es, x);
    TailStops(|es| > 1, JoinEntries(es[1..]), 0x7D, x);
    assert ms[0] in outer.members;
    ValueReads(ms[0].val, tail);
    MemberReads(ms[0], tail);
    if |ms| > 1 {
      MembersRead(outer, ms[1..], x);
    } else {
      assert OrderedMembers(ms) == [Member(ms[0].key, Ordered(ms[0].val))];
    }
  }

  lemma {:induction false} ObjectReads(v: Value, x: Text)
    requires v.Obj? && Utf16(v) && v.members != []
    ensures ReadValue(Canonical(v) + x) == Some((Ordered(v), x))
    decreases v, 0, |v.members| + 1
  {
    hide ReadMembers, SortMembers, SortEntries, Before;
    var ms := SortMembers(v.members);
    SortCommutes(v.members);
    SortOrdered(v.members);
    forall i | 0 <= i < |ms|
      ensures ms[i] in v.members && IsUtf16(ms[i].key) && Utf16(ms[i].val)
    {
      assert ms[i] in ms;
    }
    assert v.members[0] in ms;
    MembersRead(v, ms, x);
    Wrap(0x7B, JoinEntries(Entries(ms)), 0x7D, x);
    ObjectOpens(ms, x);
  }

  lemma ObjectOpens(ms: seq<Member>, x: Text)
    requires ms != [] && ReadMembers(JoinEntries(Entries(ms)) + ([0x7D] + x)).Some?
    ensures var t := [0x7B] + (JoinEntries(Entries(ms)) + ([0x7D] + x));
      ReadValue(t) == Some((Obj(ReadMembers(JoinEntries(Entries(ms)) + ([0x7D] + x)).value.0), ReadMembers(JoinEntries(Entries(ms)) + ([0x7D] + x)).value.1))
  {
    hide ReadMembers, JoinEntries;
    var body := JoinEntries(Entries(ms)) + ([0x7D] + x);
    var t := [0x7B] + body;
    EntriesStart(Entries(ms), x);
    WordsStart(t);
    assert t[1..] == body && t[1] == body[0];
  }

  lemma {:induction false} ArrayReads(v: Value, x: Text)
    requires v.Arr? && Utf16(v) && v.items != []
    ensures ReadValue(Canonical(v) + x) == Some((Ordered(v), x))
    decreases v, 0, |v.items| + 1
  {
    hide ReadItems, JoinItems;
    var body := JoinItems(v.items) + ([0x5D] + x);
    ItemsRead(v, v.items, x);
    Wrap(0x5B, JoinItems(v.items), 0x5D, x);
    var t := [0x5B] + body;
    ItemsStart(v.items, x);
    WordsStart(t);
    assert t[1..] == body && t[1] == body[0];
  }

  lemma {:induction false} ValueReads(v: Value, x: Text)
    requires Utf16(v) && Stop(x)
    ensures ReadValue(Canonical(v) + x) == Some((Ordered(v), x))
    decreases v, 1, 0
  {
    if v == Arr([]) {
      assert Canonical(v) + x == [0x5B, 0x5D] + x;
      WordsStart(Canonical(v) + x);
    } else if v == Obj([]) {
      assert Canonical(v) + x == [0x7B, 0x7D] + x;
      WordsStart(Canonical(v) + x);
    } else {
      match v
      case Arr(_) => ArrayReads(v, x);
      case Obj(_) => ObjectReads(v, x);
      case _ => ScalarReads(v, x);
    }
  }

  /** Canonical text is JSON for the value it was made of. */
  lemma CanonicalParses(v: Value)
    requires Utf16(v)
    ensures Parse(Canonical(v)) == Some(Ordered(v))
  {
    hide Canonical, ReadValue, Ordered;
    assert Canonical(v) + [] == Canonical(v);
    ValueReads(v, []);
  }

  // ---------------------------------------------------------------------
  // What is read is the same JSON, in the order of the keys
  // ---------------------------------------------------------------------

  lemma {:induction false} OrderedItemsAt(items: seq<Value>, i: nat)
    requires i < |items|
    ensures OrderedItems(items)[i] == Ordered(items[i])
  {
    hide Ordered;
    if i > 0 { OrderedItemsAt(items[1..], i - 1); }
  }

  lemma {:induction false} OrderedMembersAt(ms: seq<Member>, i: nat)
    requires i < |ms|
    ensures OrderedMembers(ms)[i] == Member(ms[i].key, Ordered(ms[i].val))
  {
    hide Ordered;
    if i > 0 { OrderedMembersAt(ms[1..], i - 1); }
  }

  lemma {:induction false} OrderedIsSame(v: Value)
    ensures SameJson(Ordered(v), v)
    decreases v
  {
    match v {
      case Arr(items) =>
        forall i | 0 <= i < |items|
          ensures SameJson(OrderedItems(items)[i], items[i])
        {
          OrderedItemsAt(items, i);
          OrderedIsSame(items[i]);
        }
      case Obj(ms) =>
        var os := OrderedMembers(ms);
        var xs := SortMembers(os);
        SortCommutes(os);
        forall i | 0 <= i < |xs|
          ensures HasSame(xs[i], ms)
        {
          assert xs[i] in os;
          var j :| 0 <= j < |os| && os[j] == xs[i];
          OrderedMembersAt(ms, j);
          OrderedIsSame(ms[j].val);
          assert xs[i].key == ms[j].key && SameJson(xs[i].val, ms[j].val);
        }
      case _ =>
    }
  }

  lemma KeysAscend(ms: seq<Member>)
    requires DistinctKeys(ms)
    ensures forall i, j :: 0 <= i < j < |ms| ==> Before(SortMembers(ms)[i].key, SortMembers(ms)[j].key)
  {
    hide Before, Canonical, SortMembers, SortEntries, Entries;
    var es := Entries(ms);
    forall i | 0 <= i < |ms|
      ensures es[i].key == ms[i].key
    {
      EntriesAt(ms, i);
    }
    SortCommutes(ms);
    SortSorts(es);
    forall i | 0 <= i < |ms|
      ensures SortMembers(ms)[i].key == SortEntries(es)[i].key
    {
      EntriesAt(SortMembers(ms), i);
    }
  }

  /** Reading canonical text gives back the same JSON, whatever the order of its members was. */
  lemma CanonicalRoundTrips(v: Value)
    requires Utf16(v)
    ensures Parse(Canonical(v)).Some? && SameJson(Parse(Canonical(v)).value, v)
    ensures v.Obj? && DistinctKeys(v.members) ==>
      var ms := Parse(Canonical(v)).value;
      ms.Obj? && |ms.members| == |v.members| && forall i, j :: 0 <= i < j < |ms.members| ==> Before(ms.members[i].key, ms.members[j].key)
  {
    hide Canonical, Parse, SortMembers, Before;
    CanonicalParses(v);
    OrderedIsSame(v);
    if v.Obj? && DistinctKeys(v.members) {
      var os := OrderedMembers(v.members);
      forall i | 0 <= i < |os|
        ensures os[i].key == v.members[i].key
      {
        OrderedMembersAt(v.members, i);
      }
      KeysAscend(os);
    }
  }
}
