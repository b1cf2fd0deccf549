/**
The strict readers of model result documents: goal verdicts, side answers and
clarification steps.

Each reader compares field sets as comma-joined sorted key lines. Such a line is
ambiguous on its own (a key may contain a comma). The readers are nevertheless
exact, because every field they go on to read must be present, and presence
plus equal length leaves no room for anything else.
*/
module Documents {
  import opened Json

  datatype Result<+T> = Ok(value: T) | Err

  // ---------------------------------------------------------------------
  // Field access
  // ---------------------------------------------------------------------

  function Lookup(ms: seq<Member>, key: Text): (r: Option<Value>)
    ensures r.Some? <==> exists i :: 0 <= i < |ms| && ms[i].key == key
    ensures r.Some? ==> exists i :: 0 <= i < |ms| && ms[i].key == key && ms[i].val == r.value
  {
    if ms == [] then None
    else if ms[0].key == key then assert ms[0].key == key; Some(ms[0].val)
    else
      var r := Lookup(ms[1..], key);
      assert ms == [ms[0]] + ms[1..];
      r
  }

  /** `value.key`: `None` stands for undefined. */
  function Get(v: Value, key: Text): Option<Value>
  {
    if v.Obj? then Lookup(v.members, key) else None
  }

  function KeysOf(v: Value): (ks: seq<Text>)
    ensures |ks| == if v.Obj? then |v.members| else 0
    ensures v.Obj? ==> forall i :: 0 <= i < |ks| ==> ks[i] == v.members[i].key
  {
    if v.Obj? then seq(|v.members|, i requires 0 <= i < |v.members| => v.members[i].key) else []
  }

  ghost function Fields(v: Value): set<Text>
  {
    set k | k in KeysOf(v)
  }

  lemma HasField(v: Value, key: Text)
    ensures key in Fields(v) <==> Get(v, key).Some?
  {
    if v.Obj? {
      if i :| 0 <= i < |v.members| && v.members[i].key == key { assert KeysOf(v)[i] == key; }
    }
  }

  /** White space and line terminators, as `String.prototype.trim` removes them. */
  predicate Space(u: CodeUnit)
  {
    || 9 <= u <= 13 || u == 0x20 || u == 0xA0 || u == 0x1680 || 0x2000 <= u <= 0x200A
    || u == 0x2028 || u == 0x2029 || u == 0x202F || u == 0x205F || u == 0x3000 || u == 0xFEFF
  }

  predicate Blank(t: Text)
  {
    forall i :: 0 <= i < |t| ==> Space(t[i])
  }

  predicate NonBlank(v: Option<Value>)
  {
    v.Some? && v.value.Str? && !Blank(v.value.text)
  }

  /** A string that survives `trim` and has at most `max` code units. */
  predicate TextField(v: Option<Value>, max: nat)
  {
    NonBlank(v) && |v.value.text| <= max
  }

  predicate SafeTime(n: int)
  {
    0 <= n <= MAX_SAFE
  }

  // ---------------------------------------------------------------------
  // Key lines
  // ---------------------------------------------------------------------

  function Bare(ks: seq<Text>): (es: seq<Entry>)
    ensures |es| == |ks| && forall i :: 0 <= i < |ks| ==> es[i] == Entry(ks[i], [])
  {
    seq(|ks|, i requires 0 <= i < |ks| => Entry(ks[i], []))
  }

  function JoinKeys(es: seq<Entry>): Text
  {
    if es == [] then []
    else if |es| == 1 then es[0].key
    else es[0].key + [COMMA] + JoinKeys(es[1..])
  }

  /** `Object.keys(value).sort().join(',')`. */
  function KeyLine(ks: seq<Text>): Text
  {
    JoinKeys(SortEntries(Bare(ks)))
  }

  /** Two different field sets can have the same line. */
  lemma KeyLineIsAmbiguous()
    ensures KeyLine([U("a,b")]) == KeyLine([U("a"), U("b")])
    ensures [U("a,b")] != [U("a"), U("b")]
  {
    var a, b, ab := Entry(U("a"), []), Entry(U("b"), []), Entry(U("a,b"), []);
    assert Bare([U("a"), U("b")]) == [a, b] && Bare([U("a,b")]) == [ab];
    assert [a, b][1..] == [b] && [b][1..] == [] && [ab][1..] == [];
    assert SortEntries([b]) == [b];
    assert Before(U("a"), U("b"));
    assert SortEntries([a, b]) == [a, b];
    assert SortEntries([ab]) == [ab];
    assert JoinKeys([a, b]) == U("a") + [COMMA] + U("b");
  }

  ghost function Weight(es: seq<Entry>): nat
  {
    if es == [] then 0 else |es[0].key| + 1 + Weight(es[1..])
  }

  lemma {:induction false} JoinKeysLength(es: seq<Entry>)
    requires es != []
    ensures |JoinKeys(es)| + 1 == Weight(es)
  {
    if |es| > 1 { JoinKeysLength(es[1..]); }
  }

  lemma {:induction false} InsertWeight(e: Entry, es: seq<Entry>)
    ensures Weight(Insert(e, es)) == |e.key| + 1 + Weight(es)
    ensures Insert(e, es) != []
  {
    if es == [] || Before(e.key, es[0].key) {
      assert ([e] + es)[1..] == es;
    } else {
      InsertWeight(e, es[1..]);
      assert ([es[0]] + Insert(e, es[1..]))[1..] == Insert(e, es[1..]);
    }
  }

  lemma {:induction false} SortWeight(es: seq<Entry>)
    ensures Weight(SortEntries(es)) == Weight(es)
    ensures SortEntries(es) == [] <==> es == []
  {
    if es != [] {
      SortWeight(es[1..]);
      InsertWeight(es[0], SortEntries(es[1..]));
    }
  }

  ghost predicate Distinct(ks: seq<Text>)
  {
    forall i, j :: 0 <= i < j < |ks| ==> ks[i] != ks[j]
  }

  ghost function TextWeight(ks: seq<Text>): nat
  {
    if ks == [] then 0 else |ks[0]| + 1 + TextWeight(ks[1..])
  }

  lemma {:induction false} BareWeight(ks: seq<Text>)
    ensures Weight(Bare(ks)) == TextWeight(ks)
  {
    if ks != [] {
      BareWeight(ks[1..]);
      assert Bare(ks)[1..] == Bare(ks[1..]);
    }
  }

  lemma {:induction false} WeightWithout(ks: seq<Text>, i: nat)
    requires i < |ks|
    ensures TextWeight(ks) == |ks[i]| + 1 + TextWeight(ks[..i] + ks[i + 1..])
  {
    if i > 0 {
      WeightWithout(ks[1..], i - 1);
      assert (ks[..i] + ks[i + 1..])[1..] == ks[1..][..i - 1] + ks[1..][i..];
    } else {
      assert ks[..0] + ks[1..] == ks[1..];
    }
  }

  /** Distinct keys that include `want` and weigh no more than it are exactly `want`. */
  lemma {:induction false} NoRoomForMore(ks: seq<Text>, want: seq<Text>)
    requires Distinct(ks) && Distinct(want)
    requires forall w :: w in want ==> w in ks
    requires TextWeight(ks) == TextWeight(want)
    ensures forall k :: k in ks ==> k in want
    decreases |want|
  {
    if want != [] {
      assert want[0] in want;
      var i :| 0 <= i < |ks| && ks[i] == want[0];
      var rest := ks[..i] + ks[i + 1..];
      WeightWithout(ks, i);
      forall w | w in want[1..] ensures w in rest { StillThere(ks, i, want, w); }
      NoRoomForMore(rest, want[1..]);
      forall k | k in ks ensures k in want {
        if k != ks[i] { assert k in rest; assert k in want[1..]; }
      }
    }
  }

  lemma StillThere(ks: seq<Text>, i: nat, want: seq<Text>, w: Text)
    requires i < |ks| && want != [] && Distinct(want) && ks[i] == want[0]
    requires w in want[1..] && w in ks
    ensures w in ks[..i] + ks[i + 1..]
  {
    var j :| 0 <= j < |ks| && ks[j] == w;
    var n :| 0 <= n < |want[1..]| && want[1..][n] == w;
    assert want[n + 1] == w;
    if j < i { assert ks[..i][j] == w; } else { assert ks[i + 1..][j - i - 1] == w; }
  }

  lemma SameKeysSameLine(ks: seq<Text>, want: seq<Text>)
    requires Distinct(ks) && Distinct(want) && |ks| == |want|
    requires forall k :: k in ks <==> k in want
    ensures KeyLine(ks) == KeyLine(want)
  {
    var a, b := Bare(ks), Bare(want);
    SortSorts(a);
    SortSorts(b);
    forall e ensures e in SortEntries(a) <==> e in SortEntries(b) {
      assert e in multiset(SortEntries(a)) <==> e in multiset(a);
      assert e in multiset(SortEntries(b)) <==> e in multiset(b);
      BareHolds(ks, e);
      BareHolds(want, e);
    }
    SortedIsUnique(SortEntries(a), SortEntries(b));
  }

  lemma BareHolds(ks: seq<Text>, e: Entry)
    ensures e in Bare(ks) <==> e.text == [] && e.key in ks
  {
    if e.text == [] && e.key in ks {
      var i :| 0 <= i < |ks| && ks[i] == e.key;
      assert Bare(ks)[i] == e;
    }
  }

  /** Among documents that have every wanted field, the key line decides the field set. */
  lemma KeyLineIsExact(v: Value, want: seq<Text>)
    requires v.Obj? && DistinctKeys(v.members) && Distinct(want) && want != []
    requires forall w :: w in want ==> w in Fields(v)
    ensures KeyLine(KeysOf(v)) == KeyLine(want) <==> Fields(v) == (set w | w in want)
  {
    var ks := KeysOf(v);
    assert Distinct(ks);
    assert want[0] in want && want[0] in Fields(v);
    if KeyLine(ks) == KeyLine(want) {
      SortWeight(Bare(ks));
      SortWeight(Bare(want));
      JoinKeysLength(SortEntries(Bare(ks)));
      JoinKeysLength(SortEntries(Bare(want)));
      BareWeight(ks);
      BareWeight(want);
      NoRoomForMore(ks, want);
    }
    if Fields(v) == (set w | w in want) {
      forall k ensures k in ks <==> k in want {
        assert k in Fields(v) <==> k in (set w | w in want);
      }
      DistinctCount(ks);
      DistinctCount(want);
      assert (set k | k in ks) == (set k | k in want);
      SameKeysSameLine(ks, want);
    }
  }

  lemma {:induction false} DistinctCount(ks: seq<Text>)
    requires Distinct(ks)
    ensures |set k | k in ks| == |ks|
  {
    if ks != [] {
      DistinctCount(ks[1..]);
      var rest := set k | k in ks[1..];
      assert (set k | k in ks) == rest + {ks[0]};
      assert ks[0] !in rest;
    }
  }

  // ---------------------------------------------------------------------
  // Goal verdicts and side answers
  // ---------------------------------------------------------------------

  const GOAL_CONTRACT: Text := U("host-goal-step-v1")
  const BTW_CONTRACT: Text := U("host-btw-answer-v1")

  const CONTRACT: Text := U("contract")
  const OUTCOME: Text := U("outcome")
  const REASON: Text := U("reason")
  const RESUME_AT: Text := U("resumeAt")
  const ANSWER: Text := U("answer")
  const WAIT_FIELDS: seq<Text> := [CONTRACT, OUTCOME, REASON, RESUME_AT]

  predicate Is(v: Option<Value>, text: Text)
  {
    v == Some(Str(text))
  }

  datatype Decision = Continue | Complete | Blocked(reason: Text) | Wait(reason: Text, resumeAt: Option<int>)

  predicate SameLine(d: Value, want: seq<Text>)
  {
    KeyLine(KeysOf(d)) == KeyLine(want)
  }

  function ParseDecision(document: Option<Value>, now: int): Result<Decision>
  {
    if document.None? || !document.value.Obj? then Err
    else
      var d := document.value;
      if !Is(Get(d, CONTRACT), GOAL_CONTRACT) then Err
      else if Is(Get(d, OUTCOME), U("complete")) then ParseFlat(d, Complete)
      else if Is(Get(d, OUTCOME), U("continue")) then ParseFlat(d, Continue)
      else if Is(Get(d, OUTCOME), U("blocked")) then ParseBlocked(d)
      else if Is(Get(d, OUTCOME), U("wait")) then ParseWait(d, now)
      else Err
  }

  /** At some moment this document reads as this decision. */
  ghost predicate Reads(document: Option<Value>, d: Decision)
  {
    exists now :: SafeTime(now) && ParseDecision(document, now) == Ok(d)
  }

  lemma ReadsNow(document: Option<Value>, now: int, d: Decision)
    requires SafeTime(now) && ParseDecision(document, now) == Ok(d)
    ensures Reads(document, d)
  {
  }

  function ParseFlat(d: Value, x: Decision): Result<Decision>
  {
    if SameLine(d, [CONTRACT, OUTCOME]) then Ok(x) else Err
  }

  function ParseBlocked(d: Value): Result<Decision>
  {
    if NonBlank(Get(d, REASON)) && SameLine(d, [CONTRACT, OUTCOME, REASON]) then Ok(Blocked(Get(d, REASON).value.text)) else Err
  }

  function ParseWait(d: Value, now: int): Result<Decision>
  {
    if SameLine(d, WAIT_FIELDS) then WaitFrom(Get(d, REASON), Get(d, RESUME_AT), now) else Err
  }

  function WaitFrom(reason: Option<Value>, resumeAt: Option<Value>, now: int): Result<Decision>
  {
    if !NonBlank(reason) then Err
    else
      match resumeAt
      case Some(Null) => Ok(Wait(reason.value.text, None))
      case Some(Num(at)) => if SafeTime(at) && at > now then Ok(Wait(reason.value.text, Some(at))) else Err
      case _ => Err
  }

  /** A reason and either no time or a safe time after `now`. */
  ghost predicate SaysWait(reason: Option<Value>, resumeAt: Option<Value>, x: Decision, now: int)
  {
    && x.Wait? && Is(reason, x.reason) && !Blank(x.reason)
    && (x.resumeAt.None? ==> resumeAt == Some(Null))
    && (x.resumeAt.Some? ==> resumeAt == Some(Num(x.resumeAt.value)) && SafeTime(x.resumeAt.value) && x.resumeAt.value > now)
  }

  /** The document says exactly this verdict and nothing else. */
  ghost predicate Says(d: Value, x: Decision, now: int)
  {
    && Is(Get(d, CONTRACT), GOAL_CONTRACT)
    && match x
       case Continue => HasExactly(d, [CONTRACT, OUTCOME]) && Is(Get(d, OUTCOME), U("continue"))
       case Complete => HasExactly(d, [CONTRACT, OUTCOME]) && Is(Get(d, OUTCOME), U("complete"))
       case Blocked(reason) =>
         && HasExactly(d, [CONTRACT, OUTCOME, REASON])
         && Is(Get(d, OUTCOME), U("blocked")) && Is(Get(d, REASON), reason) && !Blank(reason)
       case Wait(_, _) =>
         && HasExactly(d, WAIT_FIELDS) && Is(Get(d, OUTCOME), U("wait"))
         && SaysWait(Get(d, REASON), Get(d, RESUME_AT), x, now)
  }

  lemma GoalKeysDistinct()
    ensures Distinct([CONTRACT, OUTCOME]) && Distinct([CONTRACT, OUTCOME, REASON])
    ensures Distinct(WAIT_FIELDS)
  {
    assert CONTRACT[0] != RESUME_AT[0];
  }

  lemma OutcomesDistinct()
    ensures U("complete") != U("continue") && U("complete") != U("blocked") && U("complete") != U("wait")
    ensures U("continue") != U("blocked") && U("continue") != U("wait") && U("blocked") != U("wait")
  {
    assert U("complete")[2] != U("continue")[2];
  }

  /** The document has these fields and no others. */
  ghost predicate HasExactly(d: Value, want: seq<Text>)
  {
    Fields(d) == set w | w in want
  }

  lemma LineIsExact(d: Value, want: seq<Text>)
    requires d.Obj? && DistinctKeys(d.members) && Distinct(want) && want != []
    requires forall i :: 0 <= i < |want| ==> Get(d, want[i]).Some?
    ensures SameLine(d, want) <==> HasExactly(d, want)
  {
    forall w | w in want ensures w in Fields(d) {
      var i :| 0 <= i < |want| && want[i] == w;
      HasField(d, w);
    }
    KeyLineIsExact(d, want);
  }

  /** A goal document that names the contract and this outcome. */
  ghost predicate Verdict(d: Value, outcome: Text)
  {
    d.Obj? && DistinctKeys(d.members) && Is(Get(d, CONTRACT), GOAL_CONTRACT) && Is(Get(d, OUTCOME), outcome)
  }

  lemma FlatIsExact(d: Value, w: Decision, x: Decision, now: int)
    requires w.Complete? || w.Continue?
    requires Verdict(d, if w.Complete? then U("complete") else U("continue"))
    ensures ParseFlat(d, w) == Ok(x) <==> Says(d, x, now)
  {
    OutcomesDistinct();
    FlatLine(d);
  }

  lemma FlatLine(d: Value)
    requires d.Obj? && DistinctKeys(d.members) && Get(d, CONTRACT).Some? && Get(d, OUTCOME).Some?
    ensures SameLine(d, [CONTRACT, OUTCOME]) <==> HasExactly(d, [CONTRACT, OUTCOME])
  {
    GoalKeysDistinct();
    LineIsExact(d, [CONTRACT, OUTCOME]);
  }

  lemma ReasonLine(d: Value)
    requires d.Obj? && DistinctKeys(d.members) && Get(d, CONTRACT).Some? && Get(d, OUTCOME).Some? && Get(d, REASON).Some?
    ensures SameLine(d, [CONTRACT, OUTCOME, REASON]) <==> HasExactly(d, [CONTRACT, OUTCOME, REASON])
  {
    GoalKeysDistinct();
    LineIsExact(d, [CONTRACT, OUTCOME, REASON]);
  }

  lemma BlockedIsExact(d: Value, x: Decision, now: int)
    requires Verdict(d, U("blocked"))
    ensures ParseBlocked(d) == Ok(x) <==> Says(d, x, now)
  {
    OutcomesDistinct();
    if Get(d, REASON).Some? { ReasonLine(d); }
  }

  lemma WaitIsExact(d: Value, x: Decision, now: int)
    requires Verdict(d, U("wait"))
    ensures ParseWait(d, now) == Ok(x) <==> Says(d, x, now)
  {
    WaitFromIsExact(Get(d, REASON), Get(d, RESUME_AT), x, now);
    if Get(d, REASON).Some? && Get(d, RESUME_AT).Some? { WaitLine(d); }
    if Says(d, x, now) { OnlyWaitSays(d, x, now); }
  }

  lemma WaitFromIsExact(reason: Option<Value>, resumeAt: Option<Value>, x: Decision, now: int)
    ensures WaitFrom(reason, resumeAt, now) == Ok(x) <==> SaysWait(reason, resumeAt, x, now)
    ensures WaitFrom(reason, resumeAt, now) == Ok(x) ==> reason.Some? && resumeAt.Some?
  {
  }

  lemma FourPresent(d: Value, a: Text, b: Text, c: Text, e: Text)
    requires Get(d, a).Some? && Get(d, b).Some? && Get(d, c).Some? && Get(d, e).Some?
    ensures forall i :: 0 <= i < 4 ==> Get(d, [a, b, c, e][i]).Some?
  {
  }

  lemma OnlyWaitSays(d: Value, x: Decision, now: int)
    requires Verdict(d, U("wait")) && Says(d, x, now)
    ensures x.Wait?
  {
    OutcomesDistinct();
  }

  lemma WaitLine(d: Value)
    requires d.Obj? && DistinctKeys(d.members)
    requires Get(d, CONTRACT).Some? && Get(d, OUTCOME).Some? && Get(d, REASON).Some? && Get(d, RESUME_AT).Some?
    ensures SameLine(d, WAIT_FIELDS) <==> HasExactly(d, WAIT_FIELDS)
  {
    GoalKeysDistinct();
    FourPresent(d, CONTRACT, OUTCOME, REASON, RESUME_AT);
    LineIsExact(d, WAIT_FIELDS);
  }

  /** The verdict reader accepts a document exactly when it says that verdict. */
  lemma ParseDecisionIsExact(d: Value, x: Decision, now: int)
    requires WellFormed(d)
    ensures ParseDecision(Some(d), now) == Ok(x) <==> Says(d, x, now)
  {
    OutcomesDistinct();
    if Verdict(d, U("complete")) { FlatIsExact(d, Complete, x, now); }
    else if Verdict(d, U("continue")) { FlatIsExact(d, Continue, x, now); }
    else if Verdict(d, U("blocked")) { BlockedIsExact(d, x, now); }
    else if Verdict(d, U("wait")) { WaitIsExact(d, x, now); }
  }

  function ParseAnswer(document: Option<Value>): Result<Text>
  {
    if document.None? || !document.value.Obj? then Err
    else
      var d := document.value;
      if SameLine(d, [ANSWER, CONTRACT]) && Is(Get(d, CONTRACT), BTW_CONTRACT) && NonBlank(Get(d, ANSWER))
      then Ok(Get(d, ANSWER).value.text) else Err
  }

  lemma ParseAnswerIsExact(d: Value, answer: Text)
    requires WellFormed(d)
    ensures ParseAnswer(Some(d)) == Ok(answer) <==>
      && HasExactly(d, [ANSWER, CONTRACT]) && Is(Get(d, CONTRACT), BTW_CONTRACT)
      && Is(Get(d, ANSWER), answer) && !Blank(answer)
  {
    if d.Obj? && Get(d, CONTRACT).Some? && Get(d, ANSWER).Some? { AnswerLine(d); }
  }

  lemma AnswerLine(d: Value)
    requires d.Obj? && DistinctKeys(d.members)
    requires Get(d, CONTRACT).Some? && Get(d, ANSWER).Some?
    ensures SameLine(d, [ANSWER, CONTRACT]) <==> HasExactly(d, [ANSWER, CONTRACT])
  {
    assert ANSWER != CONTRACT;
    LineIsExact(d, [ANSWER, CONTRACT]);
  }
}
