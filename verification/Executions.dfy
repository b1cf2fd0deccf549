/**
What both Hosts reserve, submit and read back: an execution input bound to a
target, and the facts the server shows about a task.
*/
module Executions {
  import opened Json
  import opened Documents

  const DEVICE_ID: Text := U("deviceId")
  const AGENT_REF: Text := U("agentRef")
  const AGENT_ID: Text := U("agentId")
  const PROFILE_REVISION: Text := U("profileRevision")
  const RUNTIME: Text := U("runtime")
  const EGRESS_POLICY: Text := U("egressPolicy")
  const REQUIRED_TOOLSETS: Text := U("requiredToolsets")
  const SESSION: Text := U("session")
  const INSTRUCTION: Text := U("instruction")
  const PROJECTION: Text := U("terminalProjection")
  const MODE: Text := U("mode")

  datatype Phase = Reserved | Sending

  datatype Input = Input(taskId: Text, deviceId: Text, payload: Value)

  datatype Pending = Pending(input: Input, phase: Phase)

  /** What reconciliation saw of a settled execution. */
  datatype Observed = SeenCancelled | SeenFailed | SeenComplete(document: Option<Value>)

  /** Facts about a settled execution a write may rely on. */
  datatype Evidence = Evidence(settled: set<Text>, completed: map<Text, Option<Value>>, accepted: set<(Text, Decision)>)

  ghost predicate Supports(e: Evidence, f: Evidence)
  {
    && e.settled <= f.settled && e.accepted <= f.accepted
    && forall t :: t in e.completed ==> t in f.completed && f.completed[t] == e.completed[t]
  }

  // ---------------------------------------------------------------------
  // The target a Host selects
  // ---------------------------------------------------------------------

  /** Without a limit a text only has to survive `trim`. */
  predicate Given(v: Option<Value>, max: Option<nat>)
  {
    NonBlank(v) && (max.Some? ==> |v.value.text| <= max.value)
  }

  function GetIn(v: Option<Value>, key: Text): Option<Value>
  {
    if v.Some? then Get(v.value, key) else None
  }

  predicate Truthy(v: Option<Value>)
  {
    v.Some? && !v.value.Null? && v.value != Bool(false) && v.value != Num(0) && v.value != Str([])
  }

  predicate TargetKey(k: Text)
  {
    k == DEVICE_ID || k == AGENT_REF || k == EGRESS_POLICY || k == RUNTIME || k == REQUIRED_TOOLSETS
  }

  /** `validateTarget`, with the text limit the clarification Host adds. */
  predicate ValidTarget(target: Value, max: Option<nat>)
  {
    && target.Obj?
    && Given(Get(target, DEVICE_ID), max)
    && Given(GetIn(Get(target, AGENT_REF), AGENT_ID), max)
    && Given(GetIn(Get(target, AGENT_REF), PROFILE_REVISION), max)
    && (Is(Get(target, RUNTIME), U("pi")) || Is(Get(target, RUNTIME), U("claude")) || Is(Get(target, RUNTIME), U("codex")))
    && Truthy(Get(target, EGRESS_POLICY))
    && forall i :: 0 <= i < |target.members| ==> TargetKey(target.members[i].key)
  }

  // ---------------------------------------------------------------------
  // From a target to an input and back
  // ---------------------------------------------------------------------

  predicate HostKey(k: Text)
  {
    k == SESSION || k == INSTRUCTION || k == PROJECTION
  }

  /** `{ deviceId, ...selection } = target`. */
  function Selection(ms: seq<Member>): seq<Member>
  {
    if ms == [] then []
    else (if ms[0].key == DEVICE_ID then [] else [ms[0]]) + Selection(ms[1..])
  }

  function HostFields(instruction: Text, projection: Value): seq<Member>
  {
    [Member(SESSION, Obj([Member(MODE, Str(U("fresh")))])), Member(INSTRUCTION, Str(instruction)), Member(PROJECTION, projection)]
  }

  function Projection(contract: Text, schema: Value): Value
  {
    Obj([Member(MODE, Str(U("result-document"))), Member(CONTRACT, Str(contract)), Member(U("schema"), schema)])
  }

  function TextAt(v: Option<Value>): Text
  {
    if v.Some? && v.value.Str? then v.value.text else []
  }

  function MembersOf(v: Value): seq<Member>
  {
    if v.Obj? then v.members else []
  }

  function BuildInput(taskId: Text, target: Value, instruction: Text, projection: Value): (input: Input)
    ensures input.taskId == taskId
  {
    Input(taskId, TextAt(Get(target, DEVICE_ID)), Obj(Selection(MembersOf(target)) + HostFields(instruction, projection)))
  }

  /** `{ instruction, terminalProjection, session, ...selection } = payload`. */
  function WithoutHostFields(ms: seq<Member>): seq<Member>
  {
    if ms == [] then []
    else (if HostKey(ms[0].key) then [] else [ms[0]]) + WithoutHostFields(ms[1..])
  }

  /** The target `read` rebuilds from a reserved input, device first. */
  function RebuiltTarget(input: Input): Value
  {
    if input.payload.Obj? then Obj([Member(DEVICE_ID, Str(input.deviceId))] + WithoutHostFields(input.payload.members)) else Null
  }

  lemma KeysApart(k: Text)
    ensures TargetKey(k) ==> !HostKey(k)
    ensures HostKey(DEVICE_ID) == false && SESSION != INSTRUCTION && SESSION != PROJECTION && INSTRUCTION != PROJECTION
  {
    assert AGENT_REF[0] != INSTRUCTION[0] && EGRESS_POLICY[0] != SESSION[0] && RUNTIME[0] != SESSION[0];
  }

  lemma {:induction false} WithoutAppend(ms: seq<Member>, ns: seq<Member>)
    ensures WithoutHostFields(ms + ns) == WithoutHostFields(ms) + WithoutHostFields(ns)
  {
    if ms == [] {
      assert ms + ns == ns;
    } else {
      WithoutAppend(ms[1..], ns);
      assert (ms + ns)[1..] == ms[1..] + ns;
    }
  }

  lemma {:induction false} SelectionHasNoHostField(ms: seq<Member>)
    requires forall i :: 0 <= i < |ms| ==> TargetKey(ms[i].key)
    ensures WithoutHostFields(Selection(ms)) == Selection(ms)
  {
    if ms != [] {
      SelectionHasNoHostField(ms[1..]);
      KeysApart(ms[0].key);
      var head := if ms[0].key == DEVICE_ID then [] else [ms[0]];
      WithoutAppend(head, Selection(ms[1..]));
      if head != [] { assert head[1..] == []; }
    }
  }

  lemma HostFieldsVanish(instruction: Text, projection: Value)
    ensures WithoutHostFields(HostFields(instruction, projection)) == []
  {
    var fs := HostFields(instruction, projection);
    assert HostKey(fs[0].key) && HostKey(fs[1].key) && HostKey(fs[2].key);
    assert fs[1..][1..] == fs[2..] && fs[2..][1..] == [];
    assert WithoutHostFields(fs[2..]) == [];
    assert WithoutHostFields(fs[1..]) == [];
  }

  lemma {:induction false} SelectionAbsent(ms: seq<Member>)
    requires forall i :: 0 <= i < |ms| ==> ms[i].key != DEVICE_ID
    ensures Selection(ms) == ms
  {
    if ms != [] { SelectionAbsent(ms[1..]); }
  }

  /** The selection loses exactly the device. */
  lemma {:induction false} SelectionMembers(ms: seq<Member>)
    requires DistinctKeys(ms) && Lookup(ms, DEVICE_ID).Some?
    ensures |Selection(ms)| + 1 == |ms|
    ensures forall m :: m in Selection(ms) ==> m in ms
    ensures Member(DEVICE_ID, Lookup(ms, DEVICE_ID).value) in ms
  {
    assert ms == [ms[0]] + ms[1..];
    if ms[0].key == DEVICE_ID {
      SelectionAbsent(ms[1..]);
      assert ms[0] == Member(DEVICE_ID, Lookup(ms, DEVICE_ID).value);
      assert Selection(ms) == [] + ms[1..] == ms[1..];
    } else {
      SelectionMembers(ms[1..]);
      assert forall m :: m in Selection(ms) ==> m == ms[0] || m in Selection(ms[1..]);
    }
  }

  lemma {:induction false} SameJsonReflexive(v: Value)
    ensures SameJson(v, v)
  {
    match v {
      case Arr(items) => forall i | 0 <= i < |items| { SameJsonReflexive(items[i]); }
      case Obj(ms) =>
        forall i | 0 <= i < |ms| ensures HasSame(ms[i], ms) { SameJsonReflexive(ms[i].val); }
      case _ =>
    }
  }

  lemma ReorderedIsSame(xs: seq<Member>, ys: seq<Member>)
    requires |xs| == |ys| && forall m :: m in xs ==> m in ys
    ensures SameJson(Obj(xs), Obj(ys))
  {
    forall i | 0 <= i < |xs| ensures HasSame(xs[i], ys) {
      assert xs[i] in ys;
      var j :| 0 <= j < |ys| && ys[j] == xs[i];
      SameJsonReflexive(xs[i].val);
      assert xs[i].key == ys[j].key && SameJson(xs[i].val, ys[j].val);
    }
  }

  /** Device first, then the rest of the target. */
  function Reordered(target: Value): Value
    requires target.Obj? && Get(target, DEVICE_ID).Some?
  {
    Obj([Member(DEVICE_ID, Get(target, DEVICE_ID).value)] + Selection(target.members))
  }

  /** What `read` rebuilds is the target the input was built from, in another member order. */
  lemma RebuiltIsReordered(taskId: Text, target: Value, instruction: Text, projection: Value)
    requires ValidTarget(target, None)
    ensures RebuiltTarget(BuildInput(taskId, target, instruction, projection)) == Reordered(target)
  {
    var ms := target.members;
    SelectionHasNoHostField(ms);
    HostFieldsVanish(instruction, projection);
    WithoutAppend(Selection(ms), HostFields(instruction, projection));
    assert Selection(ms) + [] == Selection(ms);
  }

  lemma ReorderedIsTarget(target: Value)
    requires WellFormed(target) && ValidTarget(target, None)
    ensures SameJson(Reordered(target), target)
  {
    SelectionMembers(target.members);
    ReorderedIsSame(Reordered(target).members, target.members);
  }

  // ---------------------------------------------------------------------
  // A reserved input passes the reload checks
  // ---------------------------------------------------------------------

  lemma {:induction false} LookupSkips(ms: seq<Member>, ns: seq<Member>, key: Text)
    requires forall i :: 0 <= i < |ms| ==> ms[i].key != key
    ensures Lookup(ms + ns, key) == Lookup(ns, key)
  {
    if ms == [] {
      assert ms + ns == ns;
    } else {
      LookupSkips(ms[1..], ns, key);
      assert (ms + ns)[1..] == ms[1..] + ns;
    }
  }

  lemma {:induction false} SelectionKeys(ms: seq<Member>)
    requires forall i :: 0 <= i < |ms| ==> TargetKey(ms[i].key)
    ensures forall i :: 0 <= i < |Selection(ms)| ==> TargetKey(Selection(ms)[i].key) && Selection(ms)[i].key != DEVICE_ID
  {
    if ms != [] { SelectionKeys(ms[1..]); }
  }

  lemma {:induction false} SelectionDistinct(ms: seq<Member>)
    requires WellFormed(Obj(ms))
    ensures WellFormed(Obj(Selection(ms)))
    ensures forall i :: 0 <= i < |Selection(ms)| ==> Selection(ms)[i] in ms
  {
    if ms != [] {
      var rest := ms[1..];
      assert WellFormed(Obj(rest)) by { assert forall i :: 0 <= i < |rest| ==> rest[i] == ms[i + 1]; }
      SelectionDistinct(rest);
      assert ms == [ms[0]] + rest;
      forall i | 0 <= i < |Selection(rest)| ensures Selection(rest)[i].key != ms[0].key && Selection(rest)[i] in ms {
        assert Selection(rest)[i] in rest;
      }
    }
  }

  lemma {:induction false} SelectionLookup(ms: seq<Member>, key: Text)
    requires key != DEVICE_ID
    ensures Lookup(Selection(ms), key) == Lookup(ms, key)
  {
    if ms != [] {
      SelectionLookup(ms[1..], key);
      if ms[0].key == DEVICE_ID {
        assert Selection(ms) == Selection(ms[1..]);
      } else {
        assert Selection(ms)[1..] == Selection(ms[1..]);
      }
    }
  }

  lemma ReorderedLookup(target: Value, key: Text)
    requires target.Obj? && Get(target, DEVICE_ID).Some?
    ensures Get(Reordered(target), key) == Get(target, key)
  {
    var ms := Reordered(target).members;
    assert ms[1..] == Selection(target.members);
    if key != DEVICE_ID { SelectionLookup(target.members, key); }
  }

  lemma ReorderedIsValid(target: Value)
    requires WellFormed(target) && ValidTarget(target, None)
    ensures ValidTarget(Reordered(target), None)
  {
    ReorderedLookup(target, DEVICE_ID);
    ReorderedLookup(target, AGENT_REF);
    ReorderedLookup(target, RUNTIME);
    ReorderedLookup(target, EGRESS_POLICY);
    ReorderedKeys(target);
  }

  lemma ReorderedKeys(target: Value)
    requires target.Obj? && Get(target, DEVICE_ID).Some?
    requires forall i :: 0 <= i < |target.members| ==> TargetKey(target.members[i].key)
    ensures forall i :: 0 <= i < |Reordered(target).members| ==> TargetKey(Reordered(target).members[i].key)
  {
    SelectionKeys(target.members);
  }

  lemma ReorderedWellFormed(target: Value)
    requires WellFormed(target) && ValidTarget(target, None)
    ensures WellFormed(Reordered(target))
  {
    hide Space, Selection, TargetKey;
    var ms := target.members;
    SelectionDistinct(ms);
    SelectionKeys(ms);
    PrependWellFormed(Member(DEVICE_ID, Get(target, DEVICE_ID).value), Selection(ms));
  }

  lemma PrependWellFormed(m: Member, ms: seq<Member>)
    requires m.val.Str? && WellFormed(Obj(ms)) && forall i :: 0 <= i < |ms| ==> ms[i].key != m.key
    ensures WellFormed(Obj([m] + ms))
  {
    var rs := [m] + ms;
    assert forall i :: 1 <= i < |rs| ==> rs[i] == ms[i - 1];
  }

  lemma HostFieldLookup(target: Value, instruction: Text, projection: Value)
    requires ValidTarget(target, None)
    ensures var payload := Obj(Selection(target.members) + HostFields(instruction, projection));
      && Get(payload, INSTRUCTION) == Some(Str(instruction))
      && Get(payload, PROJECTION) == Some(projection)
      && Get(payload, SESSION) == Some(Obj([Member(MODE, Str(U("fresh")))]))
  {
    var ms, fs := Selection(target.members), HostFields(instruction, projection);
    SelectionKeys(target.members);
    forall i | 0 <= i < |ms| ensures !HostKey(ms[i].key) { KeysApart(ms[i].key); }
    LookupSkips(ms, fs, INSTRUCTION);
    LookupSkips(ms, fs, PROJECTION);
    LookupSkips(ms, fs, SESSION);
    KeysApart(SESSION);
    assert fs[1..][0] == fs[1] && fs[1..][1..] == [fs[2]];
    assert Lookup(fs, INSTRUCTION) == Lookup(fs[1..], INSTRUCTION);
    assert Lookup(fs, PROJECTION) == Lookup(fs[1..], PROJECTION) == Lookup([fs[2]], PROJECTION);
  }

  lemma ProjectionLookup(contract: Text, schema: Value)
    ensures Get(Projection(contract, schema), MODE) == Some(Str(U("result-document")))
    ensures Get(Projection(contract, schema), CONTRACT) == Some(Str(contract))
  {
    var ms := Projection(contract, schema).members;
    assert MODE != CONTRACT;
    assert ms[1..][0] == ms[1];
    assert Lookup(ms, CONTRACT) == Lookup(ms[1..], CONTRACT);
  }
}
