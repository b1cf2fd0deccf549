/**
The mailboxes of one tenant: the devices in the order they were first used, the
limit on the bytes they hold together, and a retention call that sweeps all of
them within one budget.
*/
module TenantMailbox {
  import opened Json
  import M = Mailbox

  datatype Slot = Slot(deviceId: Text, box: M.Box)

  // ---------------------------------------------------------------------
  // The bytes a tenant holds
  // ---------------------------------------------------------------------

  function Used(devices: seq<Slot>): nat
  {
    if devices == [] then 0 else Used(devices[..|devices| - 1]) + M.PendingBytes(devices[|devices| - 1].box.rows)
  }

  lemma {:induction false} UsedUpdate(devices: seq<Slot>, i: nat, e: Slot)
    requires i < |devices|
    ensures Used(devices[i := e]) == Used(devices) - M.PendingBytes(devices[i].box.rows) + M.PendingBytes(e.box.rows)
    ensures M.PendingBytes(devices[i].box.rows) <= Used(devices)
    decreases |devices|
  {
    hide M.PendingBytes;
    var n := |devices| - 1;
    if i == n {
      assert devices[i := e][..n] == devices[..n];
    } else {
      assert devices[i := e][..n] == devices[..n][i := e];
      UsedUpdate(devices[..n], i, e);
    }
  }

  /** `#usedBytes`: every pending row on any device. */
  method UsedBytes(devices: seq<Slot>) returns (bytes: nat)
    ensures bytes == Used(devices)
  {
    bytes := 0;
    for i := 0 to |devices|
      invariant bytes == Used(devices[..i])
    {
      assert devices[..i + 1][..i] == devices[..i];
      var rows := devices[i].box.rows;
      ghost var before := bytes;
      for j := 0 to |rows|
        invariant bytes == before + M.PendingBytes(rows[..j])
      {
        assert rows[..j + 1][..j] == rows[..j];
        if rows[j].state.Pending? { bytes := bytes + rows[j].byteSize; }
      }
      assert rows[..|rows|] == rows;
    }
    assert devices[..|devices|] == devices;
  }

  // ---------------------------------------------------------------------
  // Appending
  // ---------------------------------------------------------------------

  function Find(devices: seq<Slot>, deviceId: Text, from: nat): (i: nat)
    requires from <= |devices|
    ensures from <= i <= |devices| && (i < |devices| ==> devices[i].deviceId == deviceId)
    ensures forall j :: from <= j < i ==> devices[j].deviceId != deviceId
    decreases |devices| - from
  {
    if from == |devices| || devices[from].deviceId == deviceId then from else Find(devices, deviceId, from + 1)
  }

  /** `#device`: the first use of a device id creates its mailbox. */
  function Opened(devices: seq<Slot>, deviceId: Text): seq<Slot>
  {
    if Find(devices, deviceId, 0) < |devices| then devices else devices + [Slot(deviceId, M.EMPTY)]
  }

  datatype Result = NoDeviceId | EntitlementMissing | Tried(outcome: M.Appended)

  /** The append, where the limit is the tenant's entitlement; a cancellation needs none. */
  function Append(devices: seq<Slot>, deviceId: Text, messageId: Text, byteSize: nat, at: int, exempt: bool, limit: Option<int>)
    : (seq<Slot>, Result)
  {
    if deviceId == [] then (devices, NoDeviceId)
    else
      var all, i := Opened(devices, deviceId), Find(devices, deviceId, 0);
      var box := all[i].box;
      if box.closed.None? && M.Find(box.rows, messageId).None? && !exempt && limit.None? then (all, EntitlementMissing)
      else
        UsedUpdate(all, i, all[i]);
        var quota := if exempt || limit.None? then M.Exempt else M.Limit(limit.value, Used(all) - M.PendingBytes(box.rows));
        var (b, r) := M.AfterAppend(box, messageId, byteSize, at, quota);
        (all[i := Slot(deviceId, b)], Tried(r))
  }

  lemma OpenedHolds(devices: seq<Slot>, deviceId: Text)
    ensures Used(Opened(devices, deviceId)) == Used(devices)
  {
    assert (devices + [Slot(deviceId, M.EMPTY)])[..|devices|] == devices;
  }

  ghost predicate Adds(r: Result)
  {
    r.Tried? && r.outcome.Added?
  }

  /** What an append adds to the tenant's bytes; a limited one ends within the limit, on whatever devices the rest is. */
  lemma AppendWithinLimit(devices: seq<Slot>, deviceId: Text, messageId: Text, byteSize: nat, at: int, exempt: bool, limit: Option<int>)
    ensures var (after, r) := Append(devices, deviceId, messageId, byteSize, at, exempt, limit);
      && Used(after) == Used(devices) + (if Adds(r) then byteSize else 0)
      && (Adds(r) && !exempt ==> limit.Some? && Used(after) <= limit.value)
  {
    hide Used, M.PendingBytes, M.Find;
    if deviceId != [] {
      OpenedHolds(devices, deviceId);
      var all, i := Opened(devices, deviceId), Find(devices, deviceId, 0);
      UsedUpdate(all, i, all[i]);
      var box := all[i].box;
      var quota := if exempt || limit.None? then M.Exempt else M.Limit(limit.value, Used(all) - M.PendingBytes(box.rows));
      UsedUpdate(all, i, Slot(deviceId, M.AfterAppend(box, messageId, byteSize, at, quota).0));
      M.QuotaHolds(M.State(box, []), M.DoAppend(messageId, byteSize, at, quota));
    }
  }

  // ---------------------------------------------------------------------
  // Devices apart
  // ---------------------------------------------------------------------

  /** A device's mailbox; one that was never used is empty. */
  function BoxAt(devices: seq<Slot>, deviceId: Text): M.Box
  {
    var i := Find(devices, deviceId, 0);
    if i < |devices| then devices[i].box else M.EMPTY
  }

  lemma FoundAt(devices: seq<Slot>, deviceId: Text, i: nat)
    requires i < |devices| && devices[i].deviceId == deviceId && forall j :: 0 <= j < i ==> devices[j].deviceId != deviceId
    ensures Find(devices, deviceId, 0) == i
  {
  }

  /** The mailbox of one device is replaced; every other stays. */
  lemma Replaced(devices: seq<Slot>, deviceId: Text, box: M.Box, other: Text)
    ensures var all, i := Opened(devices, deviceId), Find(devices, deviceId, 0);
      && i < |all| && all[i].deviceId == deviceId && all[i].box == BoxAt(devices, deviceId)
      && BoxAt(all, other) == BoxAt(devices, other)
      && BoxAt(all[i := Slot(deviceId, box)], other) == if other == deviceId then box else BoxAt(devices, other)
  {
    var all, i := Opened(devices, deviceId), Find(devices, deviceId, 0);
    var after := all[i := Slot(deviceId, box)];
    assert forall j :: 0 <= j < |all| ==> after[j].deviceId == all[j].deviceId;
    assert forall j :: 0 <= j < |devices| ==> all[j] == devices[j];
    var f := Find(devices, other, 0);
    if other == deviceId {
      FoundAt(after, other, i);
      FoundAt(all, other, i);
    } else if f < |devices| {
      FoundAt(after, other, f);
      FoundAt(all, other, f);
    } else {
      NowhereFound(after, other);
      NowhereFound(all, other);
    }
  }

  lemma NowhereFound(devices: seq<Slot>, deviceId: Text)
    requires forall j :: 0 <= j < |devices| ==> devices[j].deviceId != deviceId
    ensures Find(devices, deviceId, 0) == |devices|
  {
  }

  /**
  An append is an append to its own device's mailbox, against what all the
  others hold of the limit; every other mailbox stays as it is. Without an
  entitlement only a cancellation, a known message and a closed stream get that far.
  */
  lemma AppendIsLocal(devices: seq<Slot>, deviceId: Text, messageId: Text, byteSize: nat, at: int, exempt: bool, limit: Option<int>, other: Text)
    ensures var (after, r) := Append(devices, deviceId, messageId, byteSize, at, exempt, limit);
      var box := BoxAt(devices, deviceId);
      && (other != deviceId ==> BoxAt(after, other) == BoxAt(devices, other))
      && (r.NoDeviceId? <==> deviceId == [])
      && (r.EntitlementMissing? <==>
            deviceId != [] && box.closed.None? && M.Find(box.rows, messageId).None? && !exempt && limit.None?)
      && (!r.Tried? ==> BoxAt(after, deviceId) == box)
      && (r.Tried? ==> M.PendingBytes(box.rows) <= Used(devices))
      && (r.Tried? && (exempt || limit.None?) ==>
            (BoxAt(after, deviceId), r.outcome) == M.AfterAppend(box, messageId, byteSize, at, M.Exempt))
      && (r.Tried? && !exempt && limit.Some? ==>
            (BoxAt(after, deviceId), r.outcome)
            == M.AfterAppend(box, messageId, byteSize, at, M.Limit(limit.value, Used(devices) - M.PendingBytes(box.rows))))
  {
    hide Used, M.PendingBytes, M.Find, M.AfterAppend, Find, BoxAt, Opened;
    if deviceId != [] {
      OpenedHolds(devices, deviceId);
      var all, i := Opened(devices, deviceId), Find(devices, deviceId, 0);
      Replaced(devices, deviceId, BoxAt(devices, deviceId), deviceId);
      Replaced(devices, deviceId, BoxAt(devices, deviceId), other);
      UsedUpdate(all, i, all[i]);
      var box := all[i].box;
      var quota := if exempt || limit.None? then M.Exempt else M.Limit(limit.value, Used(all) - M.PendingBytes(box.rows));
      var b := M.AfterAppend(box, messageId, byteSize, at, quota).0;
      Replaced(devices, deviceId, b, deviceId);
      Replaced(devices, deviceId, b, other);
    }
  }

  /** Every other operation is a step of its own device's mailbox; a device that is not there is created only by a delivery, an acknowledgement or a close. */
  lemma DoIsLocal(devices: seq<Slot>, deviceId: Text, what: M.Action, other: Text)
    requires !what.DoAppend?
    ensures var after := Do(devices, OnDevice(deviceId, what));
      && (other != deviceId ==> BoxAt(after, other) == BoxAt(devices, other))
      && (Find(devices, deviceId, 0) < |devices| || what.DoDeliver? || what.DoAck? || what.DoClose? ==>
            BoxAt(after, deviceId) == M.Step(M.State(BoxAt(devices, deviceId), []), what).box)
      && (Find(devices, deviceId, 0) == |devices| && !what.DoDeliver? && !what.DoAck? && !what.DoClose? ==> after == devices)
  {
    hide Find, BoxAt, Opened, M.Step;
    var box := M.Step(M.State(BoxAt(devices, deviceId), []), what).box;
    Replaced(devices, deviceId, box, deviceId);
    Replaced(devices, deviceId, box, other);
  }

  // ---------------------------------------------------------------------
  // Every run within the limit
  // ---------------------------------------------------------------------

  datatype Action =
    | Adding(deviceId: Text, messageId: Text, byteSize: nat, at: int, exempt: bool, limit: Option<int>)
    | OnDevice(deviceId: Text, what: M.Action)

  /** Deliveries, acknowledgements and closing use `#device`; the rest leaves an absent device absent. */
  predicate Creates(what: M.Action)
  {
    what.DoDeliver? || what.DoAck? || what.DoClose?
  }

  /** An append is made through `Append`, never as a plain action on a device. */
  function Do(devices: seq<Slot>, a: Action): seq<Slot>
  {
    match a
    case Adding(deviceId, messageId, byteSize, at, exempt, limit) =>
      Append(devices, deviceId, messageId, byteSize, at, exempt, limit).0
    case OnDevice(deviceId, what) =>
      var all, i := Opened(devices, deviceId), Find(devices, deviceId, 0);
      if what.DoAppend? || (i == |devices| && !Creates(what)) then devices else all[i := Slot(deviceId, M.Step(M.State(all[i].box, []), what).box)]
  }

  function Run(acts: seq<Action>): seq<Slot>
  {
    if acts == [] then [] else Do(Run(acts[..|acts| - 1]), acts[|acts| - 1])
  }

  /** The bytes that came in without a limit. */
  function ExemptBytes(acts: seq<Action>): nat
  {
    if acts == [] then 0
    else
      var a := acts[|acts| - 1];
      ExemptBytes(acts[..|acts| - 1]) + if a.Adding? && a.exempt then a.byteSize else 0
  }

  lemma DoWithin(devices: seq<Slot>, a: Action)
    ensures Used(Do(devices, a)) <= Used(devices)
      || (a.Adding? && Used(Do(devices, a)) == Used(devices) + a.byteSize
          && (a.exempt || (a.limit.Some? && Used(Do(devices, a)) <= a.limit.value)))
  {
    hide Used, M.PendingBytes, Append, M.Step;
    match a
    case Adding(deviceId, messageId, byteSize, at, exempt, limit) =>
      AppendWithinLimit(devices, deviceId, messageId, byteSize, at, exempt, limit);
    case OnDevice(deviceId, what) =>
      var all, i := Opened(devices, deviceId), Find(devices, deviceId, 0);
      OpenedHolds(devices, deviceId);
      UsedUpdate(all, i, Slot(deviceId, M.Step(M.State(all[i].box, []), what).box));
      M.QuotaHolds(M.State(all[i].box, []), what);
  }

  /** Over every run a tenant never holds more than its limit and what was let in as exempt. */
  lemma {:induction false} TenantWithinLimit(acts: seq<Action>, limit: nat)
    requires forall i :: 0 <= i < |acts| && acts[i].Adding? && acts[i].limit.Some? ==> acts[i].limit.value <= limit
    ensures Used(Run(acts)) <= limit + ExemptBytes(acts)
    decreases |acts|
  {
    hide Do;
    if acts != [] {
      var init := acts[..|acts| - 1];
      assert forall i :: 0 <= i < |init| ==> init[i] == acts[i];
      TenantWithinLimit(init, limit);
      DoWithin(Run(init), acts[|acts| - 1]);
    }
  }

  // ---------------------------------------------------------------------
  // Retention
  // ---------------------------------------------------------------------

  datatype Cutoffs = Cutoffs(ackedBefore: int, reapBefore: int, expireBefore: int)

  function Before(cut: Cutoffs, phase: M.Phase): int
  {
    match phase case DropAcked => cut.ackedBefore case Reap => cut.reapBefore case Retire => cut.expireBefore
  }

  function Swept(e: Slot, phase: M.Phase, before: int, budget: nat): (Slot, nat)
  {
    var (rows, left) := M.Sweep(e.box.rows, 0, phase, before, budget);
    (e.(box := e.box.(rows := rows)), left)
  }

  /** One phase over the devices from `i`, each with what the ones before it left of the budget. */
  function CollectPhase(devices: seq<Slot>, i: nat, phase: M.Phase, before: int, budget: nat): (seq<Slot>, nat)
    requires i <= |devices|
    decreases |devices| - i
  {
    if i == |devices| then (devices, budget)
    else
      var (e, left) := Swept(devices[i], phase, before, budget);
      CollectPhase(devices[i := e], i + 1, phase, before, left)
  }

  /** The three phases in order, on one budget. */
  function Collect(devices: seq<Slot>, cut: Cutoffs, limit: nat): (seq<Slot>, nat, nat)
  {
    var (a, x) := CollectPhase(devices, 0, M.DropAcked, cut.ackedBefore, limit);
    var (b, y) := CollectPhase(a, 0, M.Reap, cut.reapBefore, x);
    var (c, z) := CollectPhase(b, 0, M.Retire, cut.expireBefore, y);
    (c, y, z)
  }

  ghost predicate AnyLeft(devices: seq<Slot>, phase: M.Phase, before: int)
  {
    exists i :: 0 <= i < |devices| && M.AnyEligible(devices[i].box.rows, phase, before)
  }

  /** Some row of some device is left for some phase of a call with these cutoffs. */
  ghost predicate SomethingLeft(devices: seq<Slot>, cut: Cutoffs)
  {
    exists phase :: AnyLeft(devices, phase, Before(cut, phase))
  }

  ghost predicate CleanAt(rows: seq<M.Row>, cut: Cutoffs)
  {
    M.Clean(rows, M.DropAcked, cut.ackedBefore) && M.Clean(rows, M.Reap, cut.reapBefore) && M.Clean(rows, M.Retire, cut.expireBefore)
  }

  /** Nothing is left to do: no consumed, unread or dead-lettered row that its cutoff covers, but for each device's last dead letter. */
  ghost predicate AllClean(devices: seq<Slot>, cut: Cutoffs)
  {
    forall i :: 0 <= i < |devices| ==> CleanAt(devices[i].box.rows, cut)
  }

  lemma AllCleanIsExact(devices: seq<Slot>, cut: Cutoffs)
    ensures AllClean(devices, cut) <==> !SomethingLeft(devices, cut)
  {
    hide M.Clean, M.AnyEligible;
    forall i, phase | 0 <= i < |devices|
      ensures M.Clean(devices[i].box.rows, phase, Before(cut, phase)) <==> !M.AnyEligible(devices[i].box.rows, phase, Before(cut, phase))
    {
      M.CleanIsExact(devices[i].box.rows, phase, Before(cut, phase));
    }
    if AllClean(devices, cut) {
      forall phase
        ensures !AnyLeft(devices, phase, Before(cut, phase))
      {
        assert phase == M.DropAcked || phase == M.Reap || phase == M.Retire;
      }
    } else {
      var i :| 0 <= i < |devices| && !CleanAt(devices[i].box.rows, cut);
      var phase := if !M.Clean(devices[i].box.rows, M.DropAcked, cut.ackedBefore) then M.DropAcked
                   else if !M.Clean(devices[i].box.rows, M.Reap, cut.reapBefore) then M.Reap else M.Retire;
      assert M.AnyEligible(devices[i].box.rows, phase, Before(cut, phase));
      assert AnyLeft(devices, phase, Before(cut, phase));
    }
  }

  /** The cutoff that a row of this state must be older than to be touched. */
  function CutoffOf(cut: Cutoffs, state: M.RowState): int
  {
    match state case Acked => cut.ackedBefore case Expired => cut.reapBefore case Pending => cut.expireBefore
  }

  /** On every device, every row that is not older than the cutoff of its state is still there, unchanged. */
  ghost predicate YoungStay(a: seq<Slot>, b: seq<Slot>, cut: Cutoffs)
  {
    |b| == |a| && forall i, r :: 0 <= i < |a| && r in a[i].box.rows && r.appendedAt >= CutoffOf(cut, r.state) ==> r in b[i].box.rows
  }

  /** A call touches nothing that is not older than the cutoff of its state. */
  lemma CollectKeepsYoung(a: M.Box, d: M.Box, cut: Cutoffs, r: M.Row)
    requires CollectedFrom(a, d, cut) && r in a.rows && r.appendedAt >= CutoffOf(cut, r.state)
    ensures r in d.rows
  {
    var b, c :|
      Stepped(a, b, M.DropAcked, cut.ackedBefore) && Stepped(b, c, M.Reap, cut.reapBefore) && Stepped(c, d, M.Retire, cut.expireBefore);
    StepKeepsYoung(a, b, M.DropAcked, cut.ackedBefore, r);
    StepKeepsYoung(b, c, M.Reap, cut.reapBefore, r);
    StepKeepsYoung(c, d, M.Retire, cut.expireBefore, r);
  }

  lemma StepKeepsYoung(a: M.Box, b: M.Box, phase: M.Phase, before: int, r: M.Row)
    requires Stepped(a, b, phase, before) && r in a.rows && (r.state != M.Takes(phase) || r.appendedAt >= before)
    ensures r in b.rows
  {
    hide M.Sweep;
    var budget: nat :| b == M.AfterCollect(a, phase, before, budget);
    M.SweepTakesOld(a.rows, 0, phase, before, budget, r);
  }

  // Without a budget nothing happens

  lemma {:induction false} SweepNothing(rows: seq<M.Row>, i: nat, phase: M.Phase, before: int)
    requires i <= |rows|
    ensures M.Sweep(rows, i, phase, before, 0) == (rows, 0)
    decreases |rows| - i
  {
    if i < |rows| && !M.Eligible(rows, rows[i], phase, before) { SweepNothing(rows, i + 1, phase, before); }
  }

  lemma {:induction false} CollectNothing(devices: seq<Slot>, i: nat, phase: M.Phase, before: int)
    requires i <= |devices|
    ensures CollectPhase(devices, i, phase, before, 0) == (devices, 0)
    decreases |devices| - i
  {
    hide M.Sweep;
    if i < |devices| {
      SweepNothing(devices[i].box.rows, 0, phase, before);
      assert devices[i := devices[i]] == devices;
      CollectNothing(devices, i + 1, phase, before);
    }
  }

  // A later phase finds nothing new for an earlier one to drop

  /** A sweep only takes rows away or dead-letters them. */
  lemma {:induction false} SweepAddsNothing(rows: seq<M.Row>, i: nat, phase: M.Phase, before: int, budget: nat, r: M.Row)
    requires i <= |rows| && r in M.Sweep(rows, i, phase, before, budget).0 && !r.state.Expired?
    ensures r in rows
    decreases |rows| - i
  {
    if i < |rows| {
      if !M.Eligible(rows, rows[i], phase, before) {
        SweepAddsNothing(rows, i + 1, phase, before, budget, r);
      } else if budget > 0 {
        if phase.Retire? {
          SweepAddsNothing(rows[i := rows[i].(state := M.Expired)], i + 1, phase, before, budget - 1, r);
        } else {
          SweepAddsNothing(M.Without(rows, i), i, phase, before, budget - 1, r);
        }
      }
    }
  }

  lemma SweepKeepsDropped(rows: seq<M.Row>, phase: M.Phase, before: int, budget: nat, cutoff: int)
    requires !M.AnyEligible(rows, M.DropAcked, cutoff)
    ensures !M.AnyEligible(M.Sweep(rows, 0, phase, before, budget).0, M.DropAcked, cutoff)
  {
    var after := M.Sweep(rows, 0, phase, before, budget).0;
    forall j | 0 <= j < |after|
      ensures !M.Eligible(after, after[j], M.DropAcked, cutoff)
    {
      if after[j].state.Acked? {
        SweepAddsNothing(rows, 0, phase, before, budget, after[j]);
        var i :| 0 <= i < |rows| && rows[i] == after[j];
        assert !M.Eligible(rows, rows[i], M.DropAcked, cutoff);
      }
    }
  }

  lemma {:induction false} PhaseKeepsDropped(devices: seq<Slot>, i: nat, phase: M.Phase, before: int, budget: nat, cutoff: int)
    requires i <= |devices| && !AnyLeft(devices, M.DropAcked, cutoff)
    ensures !AnyLeft(CollectPhase(devices, i, phase, before, budget).0, M.DropAcked, cutoff)
    decreases |devices| - i
  {
    hide M.Sweep, M.AnyEligible;
    if i < |devices| {
      var (e, left) := Swept(devices[i], phase, before, budget);
      SweepKeepsDropped(devices[i].box.rows, phase, before, budget, cutoff);
      PhaseKeepsDropped(devices[i := e], i + 1, phase, before, left, cutoff);
    }
  }

  // What the counts count

  function Rows(devices: seq<Slot>): nat
  {
    if devices == [] then 0 else Rows(devices[..|devices| - 1]) + |devices[|devices| - 1].box.rows|
  }

  function PendingIn(rows: seq<M.Row>): nat
  {
    if rows == [] then 0 else PendingIn(rows[..|rows| - 1]) + if rows[|rows| - 1].state.Pending? then 1 else 0
  }

  function Pending(devices: seq<Slot>): nat
  {
    if devices == [] then 0 else Pending(devices[..|devices| - 1]) + PendingIn(devices[|devices| - 1].box.rows)
  }

  lemma {:induction false} PendingRetired(rows: seq<M.Row>, i: nat)
    requires i < |rows| && rows[i].state.Pending?
    ensures PendingIn(rows[i := rows[i].(state := M.Expired)]) == PendingIn(rows) - 1
    decreases |rows|
  {
    var n := |rows| - 1;
    var r := rows[i].(state := M.Expired);
    if i == n {
      assert rows[i := r][..n] == rows[..n];
    } else {
      assert rows[i := r][..n] == rows[..n][i := r];
      PendingRetired(rows[..n], i);
    }
  }

  lemma {:induction false} PendingWithout(rows: seq<M.Row>, i: nat)
    requires i < |rows| && !rows[i].state.Pending?
    ensures PendingIn(M.Without(rows, i)) == PendingIn(rows)
    decreases |rows|
  {
    var n := |rows| - 1;
    var w := M.Without(rows, i);
    if i == n {
      assert w == rows[..n];
    } else {
      assert w[..n - 1] == M.Without(rows[..n], i) && w[n - 1] == rows[n];
      PendingWithout(rows[..n], i);
    }
  }

  /** What a phase spends of its budget is what it removes or, in the last one, retires. */
  ghost predicate Spends(phase: M.Phase, rows: int, pending: int, budget: int, rows': int, pending': int, left: int)
  {
    && 0 <= left <= budget
    && rows' == (if phase.Retire? then rows else rows - (budget - left))
    && pending' == (if phase.Retire? then pending - (budget - left) else pending)
  }

  lemma {:induction false} SweepSpends(rows: seq<M.Row>, i: nat, phase: M.Phase, before: int, budget: nat)
    requires i <= |rows|
    ensures var (after, left) := M.Sweep(rows, i, phase, before, budget);
      Spends(phase, |rows|, PendingIn(rows), budget, |after|, PendingIn(after), left)
    decreases |rows| - i
  {
    hide PendingIn;
    if i < |rows| {
      if !M.Eligible(rows, rows[i], phase, before) {
        SweepSpends(rows, i + 1, phase, before, budget);
      } else if budget > 0 {
        if phase.Retire? {
          PendingRetired(rows, i);
          SweepSpends(rows[i := rows[i].(state := M.Expired)], i + 1, phase, before, budget - 1);
        } else {
          PendingWithout(rows, i);
          SweepSpends(M.Without(rows, i), i, phase, before, budget - 1);
        }
      }
    }
  }

  lemma {:induction false} CountUpdate(devices: seq<Slot>, i: nat, e: Slot)
    requires i < |devices|
    ensures Rows(devices[i := e]) == Rows(devices) - |devices[i].box.rows| + |e.box.rows|
    ensures Pending(devices[i := e]) == Pending(devices) - PendingIn(devices[i].box.rows) + PendingIn(e.box.rows)
    decreases |devices|
  {
    hide PendingIn;
    var n := |devices| - 1;
    if i == n {
      assert devices[i := e][..n] == devices[..n];
    } else {
      assert devices[i := e][..n] == devices[..n][i := e];
      CountUpdate(devices[..n], i, e);
    }
  }

  lemma {:induction false} PhaseSpends(devices: seq<Slot>, i: nat, phase: M.Phase, before: int, budget: nat)
    requires i <= |devices|
    ensures var (after, left) := CollectPhase(devices, i, phase, before, budget);
      Spends(phase, Rows(devices), Pending(devices), budget, Rows(after), Pending(after), left)
    decreases |devices| - i
  {
    hide PendingIn, Rows, Pending, M.Sweep;
    if i < |devices| {
      var (e, left) := Swept(devices[i], phase, before, budget);
      SweepSpends(devices[i].box.rows, 0, phase, before, budget);
      CountUpdate(devices, i, e);
      PhaseSpends(devices[i := e], i + 1, phase, before, left);
    }
  }

  /** A call removes and retires what it says, within its limit. */
  lemma CollectCounts(devices: seq<Slot>, cut: Cutoffs, limit: nat)
    ensures var (after, y, z) := Collect(devices, cut, limit);
      && 0 <= z <= y <= limit
      && Rows(after) == Rows(devices) - (limit - y) && Pending(after) == Pending(devices) - (y - z)
  {
    hide CollectPhase, Rows, Pending;
    var (a, x) := CollectPhase(devices, 0, M.DropAcked, cut.ackedBefore, limit);
    var (b, y) := CollectPhase(a, 0, M.Reap, cut.reapBefore, x);
    PhaseSpends(devices, 0, M.DropAcked, cut.ackedBefore, limit);
    PhaseSpends(a, 0, M.Reap, cut.reapBefore, x);
    PhaseSpends(b, 0, M.Retire, cut.expireBefore, y);
  }

  // Each device only takes steps of its own

  ghost predicate Stepped(a: M.Box, b: M.Box, phase: M.Phase, before: int)
  {
    exists budget: nat :: b == M.AfterCollect(a, phase, before, budget)
  }

  lemma {:induction false} PhaseIsSteps(devices: seq<Slot>, i: nat, phase: M.Phase, before: int, budget: nat)
    requires i <= |devices|
    ensures var after := CollectPhase(devices, i, phase, before, budget).0;
      |after| == |devices| && forall j :: 0 <= j < |devices| ==>
        after[j].deviceId == devices[j].deviceId
        && (if j < i then after[j] == devices[j] else Stepped(devices[j].box, after[j].box, phase, before))
    decreases |devices| - i
  {
    hide M.Sweep;
    if i < |devices| {
      var (e, left) := Swept(devices[i], phase, before, budget);
      assert e.box == M.AfterCollect(devices[i].box, phase, before, budget);
      PhaseIsSteps(devices[i := e], i + 1, phase, before, left);
    }
  }

  /** The three phases of one call, on one device, with whatever budget reached it. */
  ghost predicate CollectedFrom(a: M.Box, d: M.Box, cut: Cutoffs)
  {
    exists b, c ::
      Stepped(a, b, M.DropAcked, cut.ackedBefore) && Stepped(b, c, M.Reap, cut.reapBefore) && Stepped(c, d, M.Retire, cut.expireBefore)
  }

  /** So a call is, for each device, three collection steps of its own run. */
  lemma CollectIsSteps(devices: seq<Slot>, cut: Cutoffs, limit: nat, j: nat)
    requires j < |devices|
    ensures var after := Collect(devices, cut, limit).0;
      |after| == |devices| && after[j].deviceId == devices[j].deviceId && CollectedFrom(devices[j].box, after[j].box, cut)
  {
    hide CollectPhase, Stepped;
    var (a, x) := CollectPhase(devices, 0, M.DropAcked, cut.ackedBefore, limit);
    var (b, y) := CollectPhase(a, 0, M.Reap, cut.reapBefore, x);
    PhaseIsSteps(devices, 0, M.DropAcked, cut.ackedBefore, limit);
    PhaseIsSteps(a, 0, M.Reap, cut.reapBefore, x);
    PhaseIsSteps(b, 0, M.Retire, cut.expireBefore, y);
    assert Stepped(devices[j].box, a[j].box, M.DropAcked, cut.ackedBefore) && Stepped(a[j].box, b[j].box, M.Reap, cut.reapBefore);
  }

  lemma KeepsYoung(devices: seq<Slot>, cut: Cutoffs, limit: nat)
    ensures YoungStay(devices, Collect(devices, cut, limit).0, cut)
  {
    hide Collect, CollectedFrom;
    var after := Collect(devices, cut, limit).0;
    assert |after| == |devices| by { SameDevices(devices, cut, limit); }
    forall i, r | 0 <= i < |devices| && r in devices[i].box.rows && r.appendedAt >= CutoffOf(cut, r.state)
      ensures r in after[i].box.rows
    {
      CollectIsSteps(devices, cut, limit, i);
      CollectKeepsYoung(devices[i].box, after[i].box, cut, r);
    }
  }

  lemma SameDevices(devices: seq<Slot>, cut: Cutoffs, limit: nat)
    ensures |Collect(devices, cut, limit).0| == |devices|
  {
    hide CollectPhase, Stepped;
    var (a, x) := CollectPhase(devices, 0, M.DropAcked, cut.ackedBefore, limit);
    var (b, y) := CollectPhase(a, 0, M.Reap, cut.reapBefore, x);
    PhaseIsSteps(devices, 0, M.DropAcked, cut.ackedBefore, limit);
    PhaseIsSteps(a, 0, M.Reap, cut.reapBefore, x);
    PhaseIsSteps(b, 0, M.Retire, cut.expireBefore, y);
  }

  // ---------------------------------------------------------------------
  // The store, in place
  // ---------------------------------------------------------------------

  class Store {
    var devices: seq<Slot>

    constructor ()
      ensures devices == []
    {
      devices := [];
    }

    /** The check and the insert are one step, over whatever all devices of the tenant hold. */
    method AppendMessage(deviceId: Text, messageId: Text, byteSize: nat, at: int, exempt: bool, limit: Option<int>) returns (r: Result)
      modifies this
      ensures (devices, r) == Append(old(devices), deviceId, messageId, byteSize, at, exempt, limit)
    {
      if deviceId == [] { return NoDeviceId; }
      var i := Find(devices, deviceId, 0);
      devices := Opened(devices, deviceId);
      var box := devices[i].box;
      var known := M.Find(box.rows, messageId);
      assert devices[i := Slot(deviceId, box)] == devices;
      if box.closed.Some? { return Tried(M.StreamClosed(box.closed.value)); }
      if known.Some? { return Tried(M.Known(known.value)); }
      if !exempt {
        if limit.None? { return EntitlementMissing; }
        var used := UsedBytes(devices);
        UsedUpdate(devices, i, devices[i]);
        if used + byteSize > limit.value { return Tried(M.QuotaExceeded); }
      }
      var message := M.Row(box.nextSeq, messageId, byteSize, at, M.Pending);
      devices := devices[i := Slot(deviceId, box.(nextSeq := box.nextSeq + 1, rows := box.rows + [message]))];
      r := Tried(M.Added(message));
    }

    /** One phase over all devices; it stops where a row is left and the budget is spent. */
    method SweepAll(phase: M.Phase, before: int, budget: nat) returns (left: nat, more: bool)
      modifies this
      ensures (devices, left) == CollectPhase(old(devices), 0, phase, before, budget)
      ensures (more <==> AnyLeft(devices, phase, before)) && (more ==> left == 0)
    {
      left, more := budget, false;
      for i := 0 to |devices|
        invariant |devices| == |old(devices)|
        invariant CollectPhase(devices, i, phase, before, left) == CollectPhase(old(devices), 0, phase, before, budget)
        invariant forall j :: 0 <= j < i ==> !M.AnyEligible(devices[j].box.rows, phase, before)
      {
        var rows;
        rows, left, more := M.SweepRows(devices[i].box.rows, phase, before, left);
        devices := devices[i := devices[i].(box := devices[i].box.(rows := rows))];
        if more {
          CollectNothing(devices, i + 1, phase, before);
          assert M.AnyEligible(devices[i].box.rows, phase, before);
          return;
        }
      }
    }

    /** `collectExpired`. */
    method CollectExpired(cut: Cutoffs, limit: nat) returns (removed: nat, expired: nat, more: bool)
      modifies this
      ensures devices == Collect(old(devices), cut, limit).0
      ensures more <==> !AllClean(devices, cut)
      ensures YoungStay(old(devices), devices, cut)
      ensures removed == Rows(old(devices)) - Rows(devices) && expired == Pending(old(devices)) - Pending(devices)
      ensures removed + expired <= limit
    {
      CollectCounts(devices, cut, limit);
      KeepsYoung(devices, cut, limit);
      var x, y, z;
      x, more := SweepAll(M.DropAcked, cut.ackedBefore, limit);
      if more {
        CollectNothing(devices, 0, M.Reap, cut.reapBefore);
        CollectNothing(devices, 0, M.Retire, cut.expireBefore);
        LeftFor(devices, cut, M.DropAcked);
        AllCleanIsExact(devices, cut);
        return limit, 0, true;
      }
      ghost var dropped := devices;
      y, more := SweepAll(M.Reap, cut.reapBefore, x);
      PhaseKeepsDropped(dropped, 0, M.Reap, cut.reapBefore, x, cut.ackedBefore);
      if more {
        CollectNothing(devices, 0, M.Retire, cut.expireBefore);
        LeftFor(devices, cut, M.Reap);
        AllCleanIsExact(devices, cut);
        return limit, 0, true;
      }
      ghost var reaped := devices;
      z, more := SweepAll(M.Retire, cut.expireBefore, y);
      PhaseKeepsDropped(reaped, 0, M.Retire, cut.expireBefore, y, cut.ackedBefore);
      removed, expired := limit - y, y - z;
      if more {
        LeftFor(devices, cut, M.Retire);
      } else {
        more := AnyReapable(devices, cut.reapBefore);
        OnlyReapableLeft(devices, cut);
      }
      AllCleanIsExact(devices, cut);
    }
  }

  predicate AnyReapable(devices: seq<Slot>, before: int)
  {
    exists i :: 0 <= i < |devices| && ReapableIn(devices[i].box.rows, before)
  }

  predicate ReapableIn(rows: seq<M.Row>, before: int)
  {
    exists j :: 0 <= j < |rows| && M.Reapable(rows, rows[j], before)
  }

  lemma LeftFor(devices: seq<Slot>, cut: Cutoffs, phase: M.Phase)
    requires AnyLeft(devices, phase, Before(cut, phase))
    ensures SomethingLeft(devices, cut)
  {
  }

  lemma OnlyReapableLeft(devices: seq<Slot>, cut: Cutoffs)
    requires !AnyLeft(devices, M.DropAcked, cut.ackedBefore) && !AnyLeft(devices, M.Retire, cut.expireBefore)
    ensures SomethingLeft(devices, cut) <==> AnyReapable(devices, cut.reapBefore)
  {
    ReapableIsLeft(devices, cut.reapBefore);
    if AnyLeft(devices, M.Reap, Before(cut, M.Reap)) { LeftFor(devices, cut, M.Reap); }
    forall phase
      ensures AnyLeft(devices, phase, Before(cut, phase)) ==> phase.Reap?
    {
    }
  }

  lemma ReapableIsLeft(devices: seq<Slot>, before: int)
    ensures AnyLeft(devices, M.Reap, before) <==> AnyReapable(devices, before)
  {
    forall i | 0 <= i < |devices|
      ensures M.AnyEligible(devices[i].box.rows, M.Reap, before) <==> ReapableIn(devices[i].box.rows, before)
    {
      var rows := devices[i].box.rows;
      forall j | 0 <= j < |rows|
        ensures M.Eligible(rows, rows[j], M.Reap, before) <==> M.Reapable(rows, rows[j], before)
      {
      }
    }
  }
}
