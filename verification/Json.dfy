/**
JSON values as the Host sees them, and `canonical`, the key-sorting serializer
both Hosts use for digests, offer comparison and the reload check.

Text is a sequence of UTF-16 code units, the unit JavaScript strings are made
of, sorted by and escaped by. An object is a sequence of members in insertion
order, so that "insensitive to key order" is a statement and not a
representation choice.
*/
module Json {

  /** A UTF-16 code unit. Nothing below needs the bound 0x10000, so none is imposed. */
  type CodeUnit = int
  type Text = seq<CodeUnit>

  datatype Option<+T> = None | Some(value: T)

  datatype Member = Member(key: Text, val: Value)

  datatype Value =
    | Null
    | Bool(b: bool)
    | Num(n: int)
    | Str(text: Text)
    | Arr(items: seq<Value>)
    | Obj(members: seq<Member>)

  const MAX_SAFE: int := 0x1F_FFFF_FFFF_FFFF

  /** The text of a literal of the source. */
  function U(s: string): (t: Text)
    ensures |t| == |s|
    ensures forall i :: 0 <= i < |s| ==> t[i] == s[i] as int
  {
    seq(|s|, i requires 0 <= i < |s| => s[i] as int)
  }

  ghost predicate DistinctKeys(ms: seq<Member>)
  {
    forall i, j :: 0 <= i < j < |ms| ==> ms[i].key != ms[j].key
  }

  /** No object repeats a key. Every value `JSON.parse` returns is of this form. */
  ghost predicate WellFormed(v: Value)
  {
    match v
    case Arr(items) => forall i :: 0 <= i < |items| ==> WellFormed(items[i])
    case Obj(ms) => DistinctKeys(ms) && forall i :: 0 <= i < |ms| ==> WellFormed(ms[i].val)
    case _ => true
  }

  /** Equality of JSON values: the order of an object's members does not matter. */
  ghost predicate SameJson(a: Value, b: Value)
    decreases a
  {
    match (a, b)
    case (Arr(x), Arr(y)) => |x| == |y| && forall i :: 0 <= i < |x| ==> SameJson(x[i], y[i])
    case (Obj(x), Obj(y)) => |x| == |y| && forall i :: 0 <= i < |x| ==> HasSame(x[i], y)
    case _ => a == b
  }

  ghost predicate HasSame(m: Member, ys: seq<Member>)
    decreases m
  {
    exists j :: 0 <= j < |ys| && m.key == ys[j].key && SameJson(m.val, ys[j].val)
  }

  // ---------------------------------------------------------------------
  // JSON.stringify of scalars
  // ---------------------------------------------------------------------

  predicate High(u: CodeUnit) { 0xD800 <= u < 0xDC00 }
  predicate Low(u: CodeUnit) { 0xDC00 <= u < 0xE000 }

  const QUOTE: CodeUnit := 0x22
  const BACKSLASH: CodeUnit := 0x5C
  const COMMA: CodeUnit := 0x2C
  const COLON: CodeUnit := 0x3A

  function Hex(d: int): CodeUnit
  {
    if d < 10 then 48 + d else 87 + d
  }

  function Hex4(u: CodeUnit): Text
  {
    [Hex(u / 4096), Hex(u / 256 % 16), Hex(u / 16 % 16), Hex(u % 16)]
  }

  /** Units the next escape consumes: a well-formed surrogate pair is copied as one. */
  function HeadLength(s: Text): (n: nat)
    requires s != []
    ensures 1 <= n <= |s|
  {
    if High(s[0]) && |s| > 1 && Low(s[1]) then 2 else 1
  }

  function HeadText(s: Text): Text
    requires s != []
  {
    var u := s[0];
    if HeadLength(s) == 2 then s[..2]
    else if u == QUOTE || u == BACKSLASH then [BACKSLASH, u]
    else if u == 8 then [BACKSLASH, 0x62]
    else if u == 9 then [BACKSLASH, 0x74]
    else if u == 10 then [BACKSLASH, 0x6E]
    else if u == 12 then [BACKSLASH, 0x66]
    else if u == 13 then [BACKSLASH, 0x72]
    else if u < 0x20 || High(u) || Low(u) then [BACKSLASH, 0x75] + Hex4(u)
    else [u]
  }

  function Escape(s: Text): Text
  {
    if s == [] then [] else HeadText(s) + Escape(s[HeadLength(s)..])
  }

  function Quote(s: Text): Text
  {
    [QUOTE] + Escape(s) + [QUOTE]
  }

  function Digits(n: nat): (t: Text)
    ensures t != []
    ensures forall i :: 0 <= i < |t| ==> IsDigit(t[i])
  {
    if n < 10 then [48 + n] else Digits(n / 10) + [48 + n % 10]
  }

  predicate IsDigit(u: CodeUnit) { 48 <= u < 58 }

  function NumText(n: int): Text
  {
    if n < 0 then [0x2D] + Digits(-n) else Digits(n)
  }

  // ---------------------------------------------------------------------
  // canonical
  // ---------------------------------------------------------------------

  /** A rendered object member: its key and the canonical text of its value. */
  datatype Entry = Entry(key: Text, text: Text)

  /** JavaScript's default string order: lexicographic by code unit. */
  predicate Before(a: Text, b: Text)
  {
    b != [] && (a == [] || a[0] < b[0] || (a[0] == b[0] && Before(a[1..], b[1..])))
  }

  function Insert(e: Entry, es: seq<Entry>): seq<Entry>
  {
    if es == [] || Before(e.key, es[0].key) then [e] + es else [es[0]] + Insert(e, es[1..])
  }

  function SortEntries(es: seq<Entry>): seq<Entry>
  {
    if es == [] then [] else Insert(es[0], SortEntries(es[1..]))
  }

  function JoinEntries(es: seq<Entry>): Text
  {
    if es == [] then []
    else Quote(es[0].key) + [COLON] + es[0].text + (if |es| == 1 then [] else [COMMA] + JoinEntries(es[1..]))
  }

  function Canonical(v: Value): Text
    decreases v, 0
  {
    match v
    case Null => U("null")
    case Bool(b) => if b then U("true") else U("false")
    case Num(n) => NumText(n)
    case Str(t) => Quote(t)
    case Arr(items) => [0x5B] + JoinItems(items) + [0x5D]
    case Obj(ms) => [0x7B] + JoinEntries(SortEntries(Entries(ms))) + [0x7D]
  }

  function JoinItems(items: seq<Value>): Text
    decreases items, 1
  {
    if items == [] then []
    else Canonical(items[0]) + (if |items| == 1 then [] else [COMMA] + JoinItems(items[1..]))
  }

  function Entries(ms: seq<Member>): (es: seq<Entry>)
    ensures |es| == |ms|
    decreases ms, 1
  {
    if ms == [] then [] else [Entry(ms[0].key, Canonical(ms[0].val))] + Entries(ms[1..])
  }

  lemma {:induction false} EntriesAt(ms: seq<Member>, i: nat)
    requires i < |ms|
    ensures Entries(ms)[i] == Entry(ms[i].key, Canonical(ms[i].val))
  {
    if i > 0 { EntriesAt(ms[1..], i - 1); }
  }

  // ---------------------------------------------------------------------
  // Key order
  // ---------------------------------------------------------------------

  /** At the first place where the two differ, the first has the lower unit, or has ended. */
  ghost predicate LowerAt(a: Text, b: Text, i: int)
  {
    0 <= i <= |a| && i < |b| && a[..i] == b[..i] && (i == |a| || a[i] < b[i])
  }

  lemma {:induction false} BeforeIsExact(a: Text, b: Text)
    ensures Before(a, b) <==> exists i :: LowerAt(a, b, i)
  {
    if b == [] {
    } else if a == [] || a[0] != b[0] {
      assert a == [] || a[0] < b[0] ==> LowerAt(a, b, 0);
      assert forall i :: 1 <= i <= |a| && i < |b| ==> a[..i][0] == a[0] && b[..i][0] == b[0];
    } else {
      BeforeIsExact(a[1..], b[1..]);
      forall i | 1 <= i <= |a| && i < |b|
        ensures LowerAt(a, b, i) <==> LowerAt(a[1..], b[1..], i - 1)
      {
        assert a[..i] == [a[0]] + a[1..][..i - 1] && b[..i] == [b[0]] + b[1..][..i - 1];
      }
      assert !LowerAt(a, b, 0);
      if exists i :: LowerAt(a[1..], b[1..], i) {
        var i :| LowerAt(a[1..], b[1..], i);
        assert LowerAt(a, b, i + 1);
      }
      if exists i :: LowerAt(a, b, i) {
        var i :| LowerAt(a, b, i);
        assert LowerAt(a[1..], b[1..], i - 1);
      }
    }
  }

  lemma {:induction false} BeforeIsStrict(a: Text, b: Text)
    ensures !(Before(a, b) && Before(b, a))
    ensures a == b ==> !Before(a, b)
    ensures a != b ==> Before(a, b) || Before(b, a)
  {
    if a != [] && b != [] && a[0] == b[0] {
      BeforeIsStrict(a[1..], b[1..]);
      assert a == [a[0]] + a[1..] && b == [b[0]] + b[1..];
    }
  }

  lemma {:induction false} BeforeIsTransitive(a: Text, b: Text, c: Text)
    requires Before(a, b) && Before(b, c)
    ensures Before(a, c)
  {
    if a != [] && a[0] == b[0] && b[0] == c[0] {
      BeforeIsTransitive(a[1..], b[1..], c[1..]);
    }
  }

  ghost predicate Sorted(es: seq<Entry>)
  {
    forall i, j :: 0 <= i < j < |es| ==> Before(es[i].key, es[j].key)
  }

  ghost predicate KeysDiffer(es: seq<Entry>)
  {
    forall i, j :: 0 <= i < j < |es| ==> es[i].key != es[j].key
  }

  lemma InsertFirst(e: Entry, es: seq<Entry>)
    requires Sorted(es) && es != [] && Before(e.key, es[0].key)
    ensures Sorted([e] + es)
  {
    hide Before;
    forall j | 0 <= j < |es|
      ensures Before(e.key, es[j].key)
    {
      if j > 0 { BeforeIsTransitive(e.key, es[0].key, es[j].key); }
    }
  }

  lemma {:induction false} InsertSorts(e: Entry, es: seq<Entry>)
    requires Sorted(es)
    requires forall i :: 0 <= i < |es| ==> es[i].key != e.key
    ensures Sorted(Insert(e, es))
    ensures multiset(Insert(e, es)) == multiset{e} + multiset(es)
  {
    hide Before;
    if es == [] {
    } else if Before(e.key, es[0].key) {
      InsertFirst(e, es);
    } else {
      BeforeIsStrict(e.key, es[0].key);
      InsertSorts(e, es[1..]);
      var rest := Insert(e, es[1..]);
      assert es == [es[0]] + es[1..];
      forall j | 0 <= j < |rest|
        ensures Before(es[0].key, rest[j].key)
      {
        InsertedFrom(e, es[1..], rest[j]);
      }
    }
  }

  lemma {:induction false} InsertedFrom(e: Entry, es: seq<Entry>, x: Entry)
    ensures x in Insert(e, es) <==> x == e || x in es
  {
    hide Before;
    if es != [] && !Before(e.key, es[0].key) {
      InsertedFrom(e, es[1..], x);
      assert es == [es[0]] + es[1..];
    }
  }

  lemma {:induction false} SortedFrom(es: seq<Entry>, x: Entry)
    ensures x in SortEntries(es) <==> x in es
  {
    hide Insert;
    if es != [] {
      SortedFrom(es[1..], x);
      InsertedFrom(es[0], SortEntries(es[1..]), x);
      assert es == [es[0]] + es[1..];
    }
  }

  lemma {:induction false} SortSorts(es: seq<Entry>)
    requires KeysDiffer(es)
    ensures Sorted(SortEntries(es))
    ensures multiset(SortEntries(es)) == multiset(es)
    ensures |SortEntries(es)| == |es|
  {
    hide Insert, Sorted;
    if es == [] {
      assert Sorted([]) by { NothingToSort(); }
    } else {
      SortSorts(es[1..]);
      var rest := SortEntries(es[1..]);
      forall i | 0 <= i < |rest|
        ensures rest[i].key != es[0].key
      {
        SortedFrom(es[1..], rest[i]);
      }
      InsertSorts(es[0], rest);
      assert es == [es[0]] + es[1..];
    }
    assert |multiset(SortEntries(es))| == |multiset(es)|;
  }

  lemma NothingToSort()
    ensures Sorted([])
  {
  }

  /** Two sorted renderings with the same entries are the same sequence. */
  lemma {:induction false} SortedIsUnique(a: seq<Entry>, b: seq<Entry>)
    requires Sorted(a) && Sorted(b) && |a| == |b|
    requires forall e :: e in a <==> e in b
    ensures a == b
    decreases |a|
  {
    if a != [] {
      FirstIsFirst(a, b);
      forall e | e in a[1..] ensures e in b[1..] { LaterStaysLater(a, b, e); }
      forall e | e in b[1..] ensures e in a[1..] { LaterStaysLater(b, a, e); }
      SortedIsUnique(a[1..], b[1..]);
    }
  }

  lemma FirstIsFirst(a: seq<Entry>, b: seq<Entry>)
    requires a != [] && b != [] && Sorted(a) && Sorted(b)
    requires a[0] in b && b[0] in a
    ensures a[0] == b[0]
  {
    BeforeIsStrict(a[0].key, b[0].key);
  }

  lemma LaterStaysLater(a: seq<Entry>, b: seq<Entry>, e: Entry)
    requires a != [] && b != [] && Sorted(a) && a[0] == b[0]
    requires e in a[1..] && e in b
    ensures e in b[1..]
  {
    BeforeIsStrict(a[0].key, e.key);
    assert e != b[0];
    assert b == [b[0]] + b[1..];
  }

  // ---------------------------------------------------------------------
  // Cutting concatenations
  // ---------------------------------------------------------------------

  lemma CutSame(a: Text, x: Text, b: Text, y: Text)
    requires a + x == b + y && |a| == |b|
    ensures a == b && x == y
  {
    assert a == (a + x)[..|a|] && b == (b + y)[..|b|];
    assert x == (a + x)[|a|..] && y == (b + y)[|b|..];
  }

  lemma Assoc(a: Text, b: Text, c: Text)
    ensures (a + b) + c == a + (b + c)
  {
  }

  lemma Wrap(open: CodeUnit, body: Text, close: CodeUnit, x: Text)
    ensures ([open] + body + [close]) + x == [open] + (body + ([close] + x))
  {
  }

  // ---------------------------------------------------------------------
  // Scalars are self-delimiting
  // ---------------------------------------------------------------------

  lemma HeadTextStart(s: Text)
    requires s != []
    ensures HeadText(s) != [] && HeadText(s)[0] != QUOTE
    ensures HeadText(s)[0] == BACKSLASH <==> |HeadText(s)| > 1 && HeadLength(s) == 1
  {
  }

  lemma Hex4Injective(u: CodeUnit, w: CodeUnit)
    requires Hex4(u) == Hex4(w)
    ensures u == w
  {
    var a, b := Hex4(u), Hex4(w);
    assert a[0] == b[0] && a[1] == b[1] && a[2] == b[2] && a[3] == b[3];
    SameQuotient(u, w, 4096);
    FourDigits(u);
    FourDigits(w);
  }

  lemma SameQuotient(u: int, w: int, d: int)
    requires d == 4096 && Hex(u / d) == Hex(w / d)
    ensures u / d == w / d
  {
  }

  lemma FourDigits(u: int)
    ensures u == u / 4096 * 4096 + u / 256 % 16 * 256 + u / 16 % 16 * 16 + u % 16
  {
    assert u / 256 / 16 == u / 4096;
    assert u / 16 / 16 == u / 256;
  }

  /** The escapes form a prefix code. */
  lemma HeadUnique(s: Text, t: Text, x: Text, y: Text)
    requires s != [] && t != []
    requires HeadText(s) + x == HeadText(t) + y
    ensures HeadLength(s) == HeadLength(t)
    ensures s[..HeadLength(s)] == t[..HeadLength(t)]
    ensures x == y
  {
    var a, b := HeadText(s), HeadText(t);
    var whole := a + x;
    assert whole == b + y;
    assert a[0] == whole[0] == b[0];
    HeadTextStart(s);
    HeadTextStart(t);
    if a[0] == BACKSLASH {
      assert a[1] == whole[1] == b[1];
      if a[1] == 0x75 {
        assert a[2..] == Hex4(s[0]) && b[2..] == Hex4(t[0]);
        assert a == whole[..6] && b == whole[..6];
        Hex4Injective(s[0], t[0]);
      } else {
        assert |a| == 2 && |b| == 2;
      }
    } else if HeadLength(s) == 2 || HeadLength(t) == 2 {
      assert a == s[..2] && b == t[..2];
      assert a[1] == whole[1] == b[1];
      assert s[..2] == [s[0], s[1]] && t[..2] == [t[0], t[1]];
    } else {
      assert a == [s[0]] && b == [t[0]];
      assert s[..1] == [s[0]] && t[..1] == [t[0]];
    }
    assert |a| == |b|;
    assert x == whole[|a|..] && y == whole[|b|..];
  }

  lemma {:induction false} EscapeUnique(s: Text, t: Text, x: Text, y: Text)
    requires Escape(s) + ([QUOTE] + x) == Escape(t) + ([QUOTE] + y)
    ensures s == t && x == y
    decreases |s|
  {
    if s == [] || t == [] {
      EscapeEnds(s, t, x, y);
    } else {
      var s', t' := s[HeadLength(s)..], t[HeadLength(t)..];
      Assoc(HeadText(s), Escape(s'), [QUOTE] + x);
      Assoc(HeadText(t), Escape(t'), [QUOTE] + y);
      HeadUnique(s, t, Escape(s') + ([QUOTE] + x), Escape(t') + ([QUOTE] + y));
      EscapeUnique(s', t', x, y);
      assert s == s[..HeadLength(s)] + s' && t == t[..HeadLength(t)] + t';
    }
  }

  lemma EscapeStart(s: Text, x: Text)
    ensures (Escape(s) + ([QUOTE] + x))[0] == QUOTE <==> s == []
  {
    if s != [] { HeadTextStart(s); }
  }

  lemma EscapeEnds(s: Text, t: Text, x: Text, y: Text)
    requires s == [] || t == []
    requires Escape(s) + ([QUOTE] + x) == Escape(t) + ([QUOTE] + y)
    ensures s == t && x == y
  {
    EscapeStart(s, x);
    EscapeStart(t, y);
    assert Escape(s) + ([QUOTE] + x) == [QUOTE] + x && Escape(t) + ([QUOTE] + y) == [QUOTE] + y;
    CutSame([QUOTE], x, [QUOTE], y);
  }

  lemma QuoteUnique(s: Text, t: Text, x: Text, y: Text)
    requires Quote(s) + x == Quote(t) + y
    ensures s == t && x == y
  {
    Wrap(QUOTE, Escape(s), QUOTE, x);
    Wrap(QUOTE, Escape(t), QUOTE, y);
    CutSame([QUOTE], Escape(s) + ([QUOTE] + x), [QUOTE], Escape(t) + ([QUOTE] + y));
    EscapeUnique(s, t, x, y);
  }

  function DigitsValue(t: Text): int
  {
    if t == [] then 0 else DigitsValue(t[..|t| - 1]) * 10 + (t[|t| - 1] - 48)
  }

  lemma {:induction false} DigitsValueInverts(n: nat)
    ensures DigitsValue(Digits(n)) == n
  {
    if n >= 10 {
      DigitsValueInverts(n / 10);
      assert Digits(n)[..|Digits(n)| - 1] == Digits(n / 10);
    } else {
      assert DigitsValue([]) == 0;
      assert Digits(n)[..0] == [];
    }
  }

  /** What may follow a value inside a larger text: nothing, or a unit that is no digit. */
  ghost predicate Stop(x: Text)
  {
    x == [] || !IsDigit(x[0])
  }

  lemma DigitRun(a: Text, x: Text, b: Text, y: Text)
    requires a + x == b + y && Stop(x)
    requires forall i :: 0 <= i < |b| ==> IsDigit(b[i])
    ensures |b| <= |a|
  {
    assert forall i :: 0 <= i < |b| ==> (b + y)[i] == b[i];
    assert forall i :: 0 <= i < |x| ==> (a + x)[|a| + i] == x[i];
  }

  lemma DigitsUnique(n: nat, m: nat, x: Text, y: Text)
    requires Digits(n) + x == Digits(m) + y && Stop(x) && Stop(y)
    ensures n == m && x == y
  {
    DigitRun(Digits(n), x, Digits(m), y);
    DigitRun(Digits(m), y, Digits(n), x);
    CutSame(Digits(n), x, Digits(m), y);
    DigitsValueInverts(n);
    DigitsValueInverts(m);
  }

  // ---------------------------------------------------------------------
  // canonical decides JSON equality
  // ---------------------------------------------------------------------

  /** The kind of a value is readable from the first unit of its text. */
  function Lead(v: Value): CodeUnit
  {
    match v
    case Null => 0x6E
    case Bool(b) => if b then 0x74 else 0x66
    case Num(n) => NumText(n)[0]
    case Str(_) => QUOTE
    case Arr(_) => 0x5B
    case Obj(_) => 0x7B
  }

  lemma CanonicalStart(v: Value)
    ensures Canonical(v) != [] && Canonical(v)[0] == Lead(v)
    ensures v.Num? <==> IsDigit(Lead(v)) || Lead(v) == 0x2D
  {
  }

  ghost predicate RendersOne(e: Entry, ms: seq<Member>)
  {
    exists i :: 0 <= i < |ms| && e.key == ms[i].key && e.text == Canonical(ms[i].val)
  }

  ghost predicate Renders(es: seq<Entry>, ms: seq<Member>)
  {
    forall k :: 0 <= k < |es| ==> RendersOne(es[k], ms)
  }

  lemma SortedRender(ms: seq<Member>)
    requires DistinctKeys(ms)
    ensures Sorted(SortEntries(Entries(ms))) && |SortEntries(Entries(ms))| == |ms|
    ensures forall e :: e in SortEntries(Entries(ms)) <==> e in Entries(ms)
    ensures Renders(SortEntries(Entries(ms)), ms)
  {
    hide Canonical, SortEntries, Sorted;
    var es := Entries(ms);
    forall i | 0 <= i < |ms| ensures es[i] == Entry(ms[i].key, Canonical(ms[i].val)) { EntriesAt(ms, i); }
    SortSorts(es);
    var sorted := SortEntries(es);
    forall e ensures e in sorted <==> e in es { SortedFrom(es, e); }
    forall k | 0 <= k < |sorted| ensures RendersOne(sorted[k], ms) {
      assert sorted[k] in es;
      var i :| 0 <= i < |es| && es[i] == sorted[k];
    }
  }

  lemma ScalarUnique(a: Value, b: Value, x: Text, y: Text)
    requires !a.Arr? && !a.Obj? && Lead(a) == Lead(b)
    requires Canonical(a) + x == Canonical(b) + y && Stop(x) && Stop(y)
    ensures a == b && x == y
  {
    CanonicalStart(a);
    CanonicalStart(b);
    match a {
      case Num(n) =>
        if n < 0 {
          Assoc([0x2D], Digits(-n), x);
          Assoc([0x2D], Digits(-b.n), y);
          CutSame([0x2D], Digits(-n) + x, [0x2D], Digits(-b.n) + y);
          DigitsUnique(-n, -b.n, x, y);
        } else {
          DigitsUnique(n, b.n, x, y);
        }
      case Str(t) => QuoteUnique(t, b.text, x, y);
      case _ => CutSame(Canonical(a), x, Canonical(b), y);
    }
  }

  /** A text is the canonical text of at most one JSON value, wherever it stands in a larger text. */
  lemma {:induction false} CanonicalUnique(a: Value, b: Value, x: Text, y: Text)
    requires WellFormed(a) && WellFormed(b)
    requires Canonical(a) + x == Canonical(b) + y && Stop(x) && Stop(y)
    ensures SameJson(a, b) && x == y
    decreases a, 1, 0
  {
    CanonicalStart(a);
    CanonicalStart(b);
    assert (Canonical(a) + x)[0] == Lead(a) && (Canonical(b) + y)[0] == Lead(b);
    match a {
      case Arr(items) =>
        Wrap(0x5B, JoinItems(items), 0x5D, x);
        Wrap(0x5B, JoinItems(b.items), 0x5D, y);
        CutSame([0x5B], JoinItems(items) + ([0x5D] + x), [0x5B], JoinItems(b.items) + ([0x5D] + y));
        ItemsUnique(a, items, b.items, x, y);
      case Obj(ms) => ObjectUnique(a, b, x, y);
      case _ => ScalarUnique(a, b, x, y);
    }
  }

  lemma {:induction false} ObjectUnique(a: Value, b: Value, x: Text, y: Text)
    requires a.Obj? && b.Obj? && WellFormed(a) && WellFormed(b)
    requires Canonical(a) + x == Canonical(b) + y
    ensures SameJson(a, b) && x == y
    decreases a, 0, |a.members| + 1
  {
    var es, fs := SortEntries(Entries(a.members)), SortEntries(Entries(b.members));
    SortedRender(a.members);
    SortedRender(b.members);
    Wrap(0x7B, JoinEntries(es), 0x7D, x);
    Wrap(0x7B, JoinEntries(fs), 0x7D, y);
    CutSame([0x7B], JoinEntries(es) + ([0x7D] + x), [0x7B], JoinEntries(fs) + ([0x7D] + y));
    EntriesUnique(a, b, es, fs, x, y);
    MembersSame(a, b, es, fs);
  }

  /** What follows the first of several joined parts, up to and past the closing bracket. */
  ghost function Tail(more: bool, rest: Text, close: CodeUnit, x: Text): Text
  {
    if more then [COMMA] + (rest + ([close] + x)) else [close] + x
  }

  /** The separator after the first part tells whether more parts follow. */
  lemma TailUnique(m: bool, rest: Text, n: bool, rest': Text, close: CodeUnit, x: Text, y: Text)
    requires close != COMMA
    requires Tail(m, rest, close, x) == Tail(n, rest', close, y)
    ensures m == n
    ensures m ==> rest + ([close] + x) == rest' + ([close] + y)
    ensures !m ==> x == y
  {
    var l, r := Tail(m, rest, close, x), Tail(n, rest', close, y);
    assert l[0] == r[0];
    if m {
      CutSame([COMMA], rest + ([close] + x), [COMMA], rest' + ([close] + y));
    } else {
      CutSame([close], x, [close], y);
    }
  }

  lemma JoinedTail(head: Text, more: bool, rest: Text, close: CodeUnit, x: Text)
    ensures (head + (if more then [COMMA] + rest else [])) + ([close] + x) == head + Tail(more, rest, close, x)
  {
    if more {
      Assoc(head, [COMMA] + rest, [close] + x);
      Assoc([COMMA], rest, [close] + x);
    } else {
      assert head + [] == head;
    }
  }

  lemma ItemsSplit(xs: seq<Value>, x: Text)
    requires xs != []
    ensures JoinItems(xs) + ([0x5D] + x) == Canonical(xs[0]) + Tail(|xs| > 1, JoinItems(xs[1..]), 0x5D, x)
  {
    hide Canonical, Tail;
    JoinedTail(Canonical(xs[0]), |xs| > 1, JoinItems(xs[1..]), 0x5D, x);
  }

  lemma EntriesSplit(es: seq<Entry>, x: Text)
    requires es != []
    ensures JoinEntries(es) + ([0x7D] + x)
         == Quote(es[0].key) + ([COLON] + (es[0].text + Tail(|es| > 1, JoinEntries(es[1..]), 0x7D, x)))
  {
    hide Quote, Tail;
    var q, t := Quote(es[0].key), es[0].text;
    var tail := Tail(|es| > 1, JoinEntries(es[1..]), 0x7D, x);
    JoinedTail(q + [COLON] + t, |es| > 1, JoinEntries(es[1..]), 0x7D, x);
    Assoc(q + [COLON], t, tail);
    Assoc(q, [COLON], t + tail);
  }

  lemma {:induction false} ItemsUnique(outer: Value, xs: seq<Value>, ys: seq<Value>, x: Text, y: Text)
    requires outer.Arr? && forall i :: 0 <= i < |xs| ==> xs[i] in outer.items
    requires forall i :: 0 <= i < |xs| ==> WellFormed(xs[i])
    requires forall i :: 0 <= i < |ys| ==> WellFormed(ys[i])
    requires JoinItems(xs) + ([0x5D] + x) == JoinItems(ys) + ([0x5D] + y)
    ensures |xs| == |ys| && x == y
    ensures forall i :: 0 <= i < |xs| ==> SameJson(xs[i], ys[i])
    decreases outer, 0, |xs|
  {
    if xs == [] || ys == [] {
      NoItems(xs, ys, x, y);
    } else {
      ItemsSplit(xs, x);
      ItemsSplit(ys, y);
      assert xs[0] in outer.items;
      CanonicalUnique(xs[0], ys[0], Tail(|xs| > 1, JoinItems(xs[1..]), 0x5D, x), Tail(|ys| > 1, JoinItems(ys[1..]), 0x5D, y));
      TailUnique(|xs| > 1, JoinItems(xs[1..]), |ys| > 1, JoinItems(ys[1..]), 0x5D, x, y);
      if |xs| > 1 {
        ItemsUnique(outer, xs[1..], ys[1..], x, y);
        forall i | 0 <= i < |xs| ensures SameJson(xs[i], ys[i]) {
          if i > 0 { assert xs[i] == xs[1..][i - 1] && ys[i] == ys[1..][i - 1]; }
        }
      }
    }
  }

  lemma ItemsStart(xs: seq<Value>, x: Text)
    ensures (JoinItems(xs) + ([0x5D] + x))[0] == 0x5D <==> xs == []
  {
    if xs != [] { CanonicalStart(xs[0]); }
  }

  lemma NoItems(xs: seq<Value>, ys: seq<Value>, x: Text, y: Text)
    requires xs == [] || ys == []
    requires JoinItems(xs) + ([0x5D] + x) == JoinItems(ys) + ([0x5D] + y)
    ensures xs == ys && x == y
  {
    ItemsStart(xs, x);
    ItemsStart(ys, y);
    assert JoinItems(xs) + ([0x5D] + x) == [0x5D] + x && JoinItems(ys) + ([0x5D] + y) == [0x5D] + y;
    CutSame([0x5D], x, [0x5D], y);
  }

  /** Two joined renderings that agree as text agree entry by entry. */
  lemma {:induction false} EntriesUnique(a: Value, b: Value, es: seq<Entry>, fs: seq<Entry>, x: Text, y: Text)
    requires a.Obj? && b.Obj? && WellFormed(a) && WellFormed(b)
    requires Renders(es, a.members) && Renders(fs, b.members)
    requires JoinEntries(es) + ([0x7D] + x) == JoinEntries(fs) + ([0x7D] + y)
    ensures |es| == |fs| && x == y
    ensures forall k :: 0 <= k < |es| ==> es[k].key == fs[k].key && Agree(a, b, es[k], fs[k])
    decreases a, 0, |es|
  {
    if es == [] || fs == [] {
      NoEntries(es, fs, x, y);
    } else {
      var x', y' := Tail(|es| > 1, JoinEntries(es[1..]), 0x7D, x), Tail(|fs| > 1, JoinEntries(fs[1..]), 0x7D, y);
      FirstEntries(es, fs, x, y);
      FirstValues(a, b, es[0], fs[0], x', y');
      TailUnique(|es| > 1, JoinEntries(es[1..]), |fs| > 1, JoinEntries(fs[1..]), 0x7D, x, y);
      if |es| > 1 {
        RendersRest(es, a.members);
        RendersRest(fs, b.members);
        EntriesUnique(a, b, es[1..], fs[1..], x, y);
        AgreeOnAll(a, b, es, fs);
      }
    }
  }

  lemma {:induction false} FirstValues(a: Value, b: Value, e: Entry, f: Entry, x: Text, y: Text)
    requires a.Obj? && b.Obj? && WellFormed(a) && WellFormed(b)
    requires RendersOne(e, a.members) && RendersOne(f, b.members)
    requires e.text + x == f.text + y && Stop(x) && Stop(y)
    ensures Agree(a, b, e, f) && x == y
    decreases a, 0, 0
  {
    var i :| 0 <= i < |a.members| && e.key == a.members[i].key && e.text == Canonical(a.members[i].val);
    var j :| 0 <= j < |b.members| && f.key == b.members[j].key && f.text == Canonical(b.members[j].val);
    CanonicalUnique(a.members[i].val, b.members[j].val, x, y);
    assert e.key == a.members[i].key && f.key == b.members[j].key;
  }

  lemma FirstEntries(es: seq<Entry>, fs: seq<Entry>, x: Text, y: Text)
    requires es != [] && fs != []
    requires JoinEntries(es) + ([0x7D] + x) == JoinEntries(fs) + ([0x7D] + y)
    ensures es[0].key == fs[0].key
    ensures es[0].text + Tail(|es| > 1, JoinEntries(es[1..]), 0x7D, x) == fs[0].text + Tail(|fs| > 1, JoinEntries(fs[1..]), 0x7D, y)
  {
    var x', y' := Tail(|es| > 1, JoinEntries(es[1..]), 0x7D, x), Tail(|fs| > 1, JoinEntries(fs[1..]), 0x7D, y);
    EntriesSplit(es, x);
    EntriesSplit(fs, y);
    QuoteUnique(es[0].key, fs[0].key, [COLON] + (es[0].text + x'), [COLON] + (fs[0].text + y'));
    CutSame([COLON], es[0].text + x', [COLON], fs[0].text + y');
  }

  lemma AgreeOnAll(a: Value, b: Value, es: seq<Entry>, fs: seq<Entry>)
    requires a.Obj? && b.Obj? && es != [] && |es| == |fs|
    requires es[0].key == fs[0].key && Agree(a, b, es[0], fs[0])
    requires forall k :: 0 <= k < |es[1..]| ==> es[1..][k].key == fs[1..][k].key && Agree(a, b, es[1..][k], fs[1..][k])
    ensures forall k :: 0 <= k < |es| ==> es[k].key == fs[k].key && Agree(a, b, es[k], fs[k])
  {
    forall k | 0 <= k < |es| ensures es[k].key == fs[k].key && Agree(a, b, es[k], fs[k]) {
      if k > 0 { assert es[k] == es[1..][k - 1] && fs[k] == fs[1..][k - 1]; }
    }
  }

  lemma RendersRest(es: seq<Entry>, ms: seq<Member>)
    requires es != [] && Renders(es, ms)
    ensures Renders(es[1..], ms)
  {
  }

  lemma EntriesStart(es: seq<Entry>, x: Text)
    ensures (JoinEntries(es) + ([0x7D] + x))[0] == 0x7D <==> es == []
  {
    if es != [] { EntriesSplit(es, x); assert Quote(es[0].key)[0] == QUOTE; }
  }

  lemma NoEntries(es: seq<Entry>, fs: seq<Entry>, x: Text, y: Text)
    requires es == [] || fs == []
    requires JoinEntries(es) + ([0x7D] + x) == JoinEntries(fs) + ([0x7D] + y)
    ensures es == fs && x == y
  {
    EntriesStart(es, x);
    EntriesStart(fs, y);
    assert JoinEntries(es) + ([0x7D] + x) == [0x7D] + x && JoinEntries(fs) + ([0x7D] + y) == [0x7D] + y;
    CutSame([0x7D], x, [0x7D], y);
  }

  ghost predicate Agree(a: Value, b: Value, e: Entry, f: Entry)
    requires a.Obj? && b.Obj?
  {
    exists i, j ::
      && 0 <= i < |a.members| && 0 <= j < |b.members|
      && e.key == a.members[i].key && f.key == b.members[j].key
      && SameJson(a.members[i].val, b.members[j].val)
  }

  lemma MembersSame(a: Value, b: Value, es: seq<Entry>, fs: seq<Entry>)
    requires a.Obj? && b.Obj? && WellFormed(a) && WellFormed(b)
    requires es == SortEntries(Entries(a.members)) && fs == SortEntries(Entries(b.members))
    requires |es| == |fs|
    requires forall k :: 0 <= k < |es| ==> es[k].key == fs[k].key && Agree(a, b, es[k], fs[k])
    ensures SameJson(a, b)
  {
    SortedRender(a.members);
    forall i | 0 <= i < |a.members| ensures HasSame(a.members[i], b.members) {
      EntriesAt(a.members, i);
      assert Entries(a.members)[i] in es;
      var k :| 0 <= k < |es| && es[k] == Entries(a.members)[i];
      MemberFound(a, b, es[k], fs[k], i);
    }
    SortedRender(b.members);
  }

  lemma MemberFound(a: Value, b: Value, e: Entry, f: Entry, i: nat)
    requires a.Obj? && b.Obj? && DistinctKeys(a.members) && i < |a.members|
    requires e.key == f.key == a.members[i].key && Agree(a, b, e, f)
    ensures HasSame(a.members[i], b.members)
  {
    var i', j :|
      && 0 <= i' < |a.members| && 0 <= j < |b.members|
      && e.key == a.members[i'].key && f.key == b.members[j].key
      && SameJson(a.members[i'].val, b.members[j].val);
    assert i' == i;
  }

  /** Equal JSON values have the same canonical text. */
  lemma {:induction false} SameJsonSameText(a: Value, b: Value)
    requires WellFormed(a) && WellFormed(b) && SameJson(a, b)
    ensures Canonical(a) == Canonical(b)
    decreases a, 1
  {
    match a {
      case Arr(items) => SameItems(a, items, b.items);
      case Obj(ms) =>
        SameCount(a, b);
        hide Canonical, SameJson, WellFormed;
        var es, fs := Entries(ms), Entries(b.members);
        forall i | 0 <= i < |ms| ensures es[i] in fs { EntryIn(a, b, i); }
        forall j | 0 <= j < |b.members| ensures fs[j] in es { EntryFrom(a, b, j); }
        SameEntriesText(a, b);
      case _ =>
    }
  }

  lemma SameCount(a: Value, b: Value)
    requires a.Obj? && SameJson(a, b)
    ensures b.Obj? && |a.members| == |b.members|
  {
  }

  lemma SameEntriesText(a: Value, b: Value)
    requires a.Obj? && b.Obj? && WellFormed(a) && WellFormed(b) && |a.members| == |b.members|
    requires forall e :: e in Entries(a.members) <==> e in Entries(b.members)
    ensures Canonical(a) == Canonical(b)
  {
    hide WellFormed, Entries;
    var es, fs := Entries(a.members), Entries(b.members);
    assert DistinctKeys(a.members) && DistinctKeys(b.members) by { NoRepeatedKey(a); NoRepeatedKey(b); }
    SortedRender(a.members);
    SortedRender(b.members);
    SortedIsUnique(SortEntries(es), SortEntries(fs));
  }

  lemma NoRepeatedKey(a: Value)
    requires a.Obj? && WellFormed(a)
    ensures DistinctKeys(a.members)
  {
  }

  /** An entry of the one is an entry of the other. */
  lemma {:induction false} EntryIn(a: Value, b: Value, i: nat)
    requires a.Obj? && b.Obj? && WellFormed(a) && WellFormed(b) && SameJson(a, b) && i < |a.members|
    ensures Entries(a.members)[i] in Entries(b.members)
    decreases a, 0
  {
    hide Canonical, Entries;
    var ms, ns := a.members, b.members;
    EntriesAt(ms, i);
    assert HasSame(ms[i], ns);
    var j :| 0 <= j < |ns| && ms[i].key == ns[j].key && SameJson(ms[i].val, ns[j].val);
    EntriesAt(ns, j);
    SameJsonSameText(ms[i].val, ns[j].val);
  }

  lemma {:induction false} EntryFrom(a: Value, b: Value, j: nat)
    requires a.Obj? && b.Obj? && WellFormed(a) && WellFormed(b) && SameJson(a, b) && j < |b.members|
    ensures Entries(b.members)[j] in Entries(a.members)
    decreases a, 0
  {
    hide Canonical, Entries;
    var ms, ns := a.members, b.members;
    EntriesAt(ns, j);
    forall i | 0 <= i < |ms|
      ensures exists k :: 0 <= k < |ns| && ms[i].key == ns[k].key
    {
      assert HasSame(ms[i], ns);
    }
    CoverKeys(ms, ns, j);
    var i :| 0 <= i < |ms| && ms[i].key == ns[j].key;
    EntriesAt(ms, i);
    assert HasSame(ms[i], ns);
    var k :| 0 <= k < |ns| && ms[i].key == ns[k].key && SameJson(ms[i].val, ns[k].val);
    assert k == j;
    SameJsonSameText(ms[i].val, ns[j].val);
  }

  lemma {:induction false} SameItems(outer: Value, xs: seq<Value>, ys: seq<Value>)
    requires outer.Arr? && forall i :: 0 <= i < |xs| ==> xs[i] in outer.items
    requires |xs| == |ys|
    requires forall i :: 0 <= i < |xs| ==> WellFormed(xs[i]) && WellFormed(ys[i]) && SameJson(xs[i], ys[i])
    ensures JoinItems(xs) == JoinItems(ys)
    decreases outer, 0, |xs|
  {
    if xs != [] {
      assert xs[0] in outer.items;
      SameJsonSameText(xs[0], ys[0]);
      SameItems(outer, xs[1..], ys[1..]);
    }
  }

  ghost function KeySet(ms: seq<Member>): set<Text>
  {
    if ms == [] then {} else {ms[0].key} + KeySet(ms[1..])
  }

  lemma {:induction false} InKeySet(ms: seq<Member>, k: Text)
    ensures k in KeySet(ms) <==> exists i :: 0 <= i < |ms| && ms[i].key == k
  {
    if ms != [] {
      InKeySet(ms[1..], k);
      if i :| 0 <= i < |ms| && ms[i].key == k && i > 0 { assert ms[1..][i - 1].key == k; }
    }
  }

  lemma {:induction false} KeySetSize(ms: seq<Member>)
    requires DistinctKeys(ms)
    ensures |KeySet(ms)| == |ms|
  {
    if ms != [] {
      KeySetSize(ms[1..]);
      InKeySet(ms[1..], ms[0].key);
    }
  }

  lemma SubsetOfSameSize<T>(a: set<T>, b: set<T>)
    requires a <= b && |a| == |b|
    ensures a == b
  {
    if a != b {
      var e :| e in b && e !in a;
      assert a <= b - {e};
      SubsetSize(a, b - {e});
    }
  }

  lemma {:induction false} SubsetSize<T>(a: set<T>, b: set<T>)
    requires a <= b
    ensures |a| <= |b|
  {
    if a != {} {
      var e :| e in a;
      SubsetSize(a - {e}, b - {e});
    }
  }

  /** With equal member counts, covering one way is covering both ways. */
  lemma CoverKeys(xs: seq<Member>, ys: seq<Member>, j: nat)
    requires DistinctKeys(xs) && DistinctKeys(ys) && |xs| == |ys| && j < |ys|
    requires forall i :: 0 <= i < |xs| ==> exists j :: 0 <= j < |ys| && xs[i].key == ys[j].key
    ensures exists i :: 0 <= i < |xs| && xs[i].key == ys[j].key
  {
    KeySetSize(xs);
    KeySetSize(ys);
    forall k | k in KeySet(xs) ensures k in KeySet(ys) {
      InKeySet(xs, k);
      InKeySet(ys, k);
    }
    SubsetOfSameSize(KeySet(xs), KeySet(ys));
    InKeySet(ys, ys[j].key);
    InKeySet(xs, ys[j].key);
  }

  /**
  The serializer decides JSON equality: two values have the same text exactly
  when they are equal up to the order of object members, at every depth.
  */
  lemma CanonicalDecidesEquality(a: Value, b: Value)
    requires WellFormed(a) && WellFormed(b)
    ensures Canonical(a) == Canonical(b) <==> SameJson(a, b)
  {
    if Canonical(a) == Canonical(b) {
      assert Canonical(a) + [] == Canonical(b) + [];
      CanonicalUnique(a, b, [], []);
    }
    if SameJson(a, b) { SameJsonSameText(a, b); }
  }
}
