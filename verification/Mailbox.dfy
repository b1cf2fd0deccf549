/**
One device's mailbox: rows with ascending sequence numbers, delivery and
acknowledgement cursors, a stream that can close, and retention that may delete
consumed rows and dead-letter unread ones. The recovery floor tells a reader
what it has lost.
*/
module Mailbox {
  import opened Json

  datatype RowState = Pending | Acked | Expired

  datatype Row = Row(seqNo: int, messageId: Text, byteSize: nat, appendedAt: int, state: RowState)

  datatype Box = Box(nextSeq: int, deliveredSeq: int, ackedSeq: int, closed: Option<Text>, rows: seq<Row>)

  const EMPTY := Box(1, 0, 0, None, [])

  // ---------------------------------------------------------------------
  // Operations
  // ---------------------------------------------------------------------

  function Find(rows: seq<Row>, messageId: Text): Option<Row>
  {
    if rows == [] then None else if rows[0].messageId == messageId then Some(rows[0]) else Find(rows[1..], messageId)
  }

  datatype Appended = StreamClosed(cause: Text) | QuotaExceeded | Known(row: Row) | Added(row: Row)

  /** The bytes that count against the tenant's limit: those of the pending rows. */
  function PendingBytes(rows: seq<Row>): nat
  {
    if rows == [] then 0
    else PendingBytes(rows[..|rows| - 1]) + if rows[|rows| - 1].state.Pending? then rows[|rows| - 1].byteSize else 0
  }

  /** What an append is checked against: nothing for a cancellation, else the limit and what other devices hold. */
  datatype Quota = Exempt | Limit(bytes: int, others: nat)

  predicate Fits(q: Quota, used: nat, byteSize: nat)
  {
    q.Exempt? || q.others + used + byteSize <= q.bytes
  }

  /** A known message id returns its row; a closed stream refuses even that. */
  function AfterAppend(b: Box, messageId: Text, byteSize: nat, at: int, quota: Quota): (Box, Appended)
  {
    if b.closed.Some? then (b, StreamClosed(b.closed.value))
    else if Find(b.rows, messageId).Some? then (b, Known(Find(b.rows, messageId).value))
    else if !Fits(quota, PendingBytes(b.rows), byteSize) then (b, QuotaExceeded)
    else
      var row := Row(b.nextSeq, messageId, byteSize, at, Pending);
      (b.(nextSeq := b.nextSeq + 1, rows := b.rows + [row]), Added(row))
  }

  function AfterDelivery(b: Box, delivered: int): Box
  {
    if delivered > b.deliveredSeq then b.(deliveredSeq := delivered) else b
  }

  function AckRow(r: Row, acked: int): Row
  {
    if r.state.Pending? && r.seqNo <= acked then r.(state := Acked) else r
  }

  function AckRows(rows: seq<Row>, acked: int): (r: seq<Row>)
    ensures |r| == |rows| && forall i :: 0 <= i < |rows| ==> r[i] == AckRow(rows[i], acked)
  {
    seq(|rows|, i requires 0 <= i < |rows| => AckRow(rows[i], acked))
  }

  datatype Advanced = Regression | AheadOfDelivery | Moved

  function AfterAck(b: Box, acked: int): (Box, Advanced)
  {
    if acked < b.ackedSeq then (b, Regression)
    else if acked > b.deliveredSeq then (b, AheadOfDelivery)
    else (b.(ackedSeq := acked, rows := AckRows(b.rows, acked)), Moved)
  }

  /** Without a selection every pending row is chosen. */
  predicate Chosen(r: Row, only: Option<set<int>>)
  {
    r.state.Pending? && (only.None? || r.seqNo in only.value)
  }

  function ExpireRow(r: Row, only: Option<set<int>>): Row
  {
    if Chosen(r, only) then r.(state := Expired) else r
  }

  function ExpireRows(rows: seq<Row>, only: Option<set<int>>): (r: seq<Row>)
    ensures |r| == |rows|
  {
    seq(|rows|, i requires 0 <= i < |rows| => ExpireRow(rows[i], only))
  }

  /** The positions at which a row changed. */
  ghost function Changed(before: seq<Row>, after: seq<Row>): set<int>
    requires |after| == |before|
  {
    set i | 0 <= i < |before| && after[i] != before[i]
  }

  function AfterExpire(b: Box, seqs: set<int>): Box
  {
    b.(rows := ExpireRows(b.rows, Some(seqs)))
  }

  function AfterClose(b: Box, cause: Text): Box
  {
    b.(closed := Some(cause), rows := ExpireRows(b.rows, None))
  }

  function AfterReopen(b: Box): Box
  {
    b.(closed := None)
  }

  datatype Phase = DropAcked | Reap | Retire

  predicate Reapable(rows: seq<Row>, r: Row, before: int)
  {
    r.state.Expired? && r.appendedAt < before && exists j :: 0 <= j < |rows| && rows[j].state.Expired? && rows[j].seqNo > r.seqNo
  }

  predicate Eligible(rows: seq<Row>, r: Row, phase: Phase, before: int)
  {
    match phase
    case DropAcked => r.state.Acked? && r.appendedAt < before
    case Reap => Reapable(rows, r, before)
    case Retire => r.state.Pending? && r.appendedAt < before
  }

  /** Some row is left for this phase. */
  ghost predicate AnyEligible(rows: seq<Row>, phase: Phase, before: int)
  {
    exists j :: 0 <= j < |rows| && Eligible(rows, rows[j], phase, before)
  }

  function Without(rows: seq<Row>, i: nat): (r: seq<Row>)
    requires i < |rows|
    ensures |r| == |rows| - 1
  {
    rows[..i] + rows[i + 1..]
  }

  /** Taking a row out makes no other row eligible. */
  lemma StillIneligible(rows: seq<Row>, i: nat, phase: Phase, before: int)
    requires i < |rows| && forall j :: 0 <= j < i ==> !Eligible(rows, rows[j], phase, before)
    ensures forall j :: 0 <= j < i ==> !Eligible(Without(rows, i), Without(rows, i)[j], phase, before)
  {
    var w := Without(rows, i);
    assert forall j :: 0 <= j < |w| ==> w[j] == rows[if j < i then j else j + 1];
  }

  /** One sweep over the rows from `i`, spending at most `budget`; returns what is left of the budget. */
  function Sweep(rows: seq<Row>, i: nat, phase: Phase, before: int, budget: nat): (seq<Row>, nat)
    requires i <= |rows|
    decreases |rows| - i
  {
    if i == |rows| then (rows, budget)
    else if !Eligible(rows, rows[i], phase, before) then Sweep(rows, i + 1, phase, before, budget)
    else if budget == 0 then (rows, budget)
    else if phase.Retire? then Sweep(rows[i := rows[i].(state := Expired)], i + 1, phase, before, budget - 1)
    else Sweep(Without(rows, i), i, phase, before, budget - 1)
  }

  /** No row is left that the cutoff of this phase covers: what is left is younger, or is the floor. */
  ghost predicate Clean(rows: seq<Row>, phase: Phase, before: int)
  {
    match phase
    case DropAcked => forall i :: 0 <= i < |rows| && rows[i].state.Acked? ==> rows[i].appendedAt >= before
    case Reap =>
      forall i, j :: 0 <= i < |rows| && 0 <= j < |rows| && rows[i].state.Expired? && rows[j].state.Expired? && rows[i].seqNo < rows[j].seqNo
        ==> rows[i].appendedAt >= before
    case Retire => forall i :: 0 <= i < |rows| && rows[i].state.Pending? ==> rows[i].appendedAt >= before
  }

  lemma CleanIsExact(rows: seq<Row>, phase: Phase, before: int)
    ensures Clean(rows, phase, before) <==> !AnyEligible(rows, phase, before)
  {
    if Clean(rows, phase, before) {
      forall j | 0 <= j < |rows|
        ensures !Eligible(rows, rows[j], phase, before)
      {
      }
    } else if phase.Reap? {
      var i, j :| 0 <= i < |rows| && 0 <= j < |rows| && rows[i].state.Expired? && rows[j].state.Expired?
        && rows[i].seqNo < rows[j].seqNo && rows[i].appendedAt < before;
      assert Eligible(rows, rows[i], phase, before);
    } else {
      var i :| 0 <= i < |rows| && rows[i].state == (if phase.DropAcked? then Acked else Pending) && rows[i].appendedAt < before;
      assert Eligible(rows, rows[i], phase, before);
    }
  }

  /** The one state whose rows a phase takes away or dead-letters. */
  function Takes(phase: Phase): RowState
  {
    match phase case DropAcked => Acked case Reap => Expired case Retire => Pending
  }

  /** Whatever a sweep takes away was of its state and older than its cutoff. */
  lemma {:induction false} SweepTakesOld(rows: seq<Row>, i: nat, phase: Phase, before: int, budget: nat, r: Row)
    requires i <= |rows| && r in rows && (r.state != Takes(phase) || r.appendedAt >= before)
    ensures r in Sweep(rows, i, phase, before, budget).0
    decreases |rows| - i
  {
    if i < |rows| {
      if !Eligible(rows, rows[i], phase, before) {
        SweepTakesOld(rows, i + 1, phase, before, budget, r);
      } else if budget > 0 {
        var k :| 0 <= k < |rows| && rows[k] == r;
        assert k != i;
        if phase.Retire? {
          var after := rows[i := rows[i].(state := Expired)];
          assert after[k] == r;
          SweepTakesOld(after, i + 1, phase, before, budget - 1, r);
        } else {
          assert Without(rows, i)[if k < i then k else k - 1] == r;
          SweepTakesOld(Without(rows, i), i, phase, before, budget - 1, r);
        }
      }
    }
  }

  /** And whatever is new afterwards is a dead letter of a row that was pending and old. */
  lemma {:induction false} SweepAddsDead(rows: seq<Row>, i: nat, phase: Phase, before: int, budget: nat, r: Row)
    requires i <= |rows| && r in Sweep(rows, i, phase, before, budget).0
    ensures r in rows || (phase.Retire? && r.state.Expired? && r.(state := Pending) in rows && r.appendedAt < before)
    decreases |rows| - i
  {
    if i < |rows| {
      if !Eligible(rows, rows[i], phase, before) {
        SweepAddsDead(rows, i + 1, phase, before, budget, r);
      } else if budget > 0 {
        if phase.Retire? {
          SweepAddsDead(rows[i := rows[i].(state := Expired)], i + 1, phase, before, budget - 1, r);
          assert rows[i].(state := Expired).(state := Pending) == rows[i];
        } else {
          SweepAddsDead(Without(rows, i), i, phase, before, budget - 1, r);
        }
      }
    }
  }

  function AfterCollect(b: Box, phase: Phase, before: int, budget: nat): Box
  {
    b.(rows := Sweep(b.rows, 0, phase, before, budget).0)
  }

  // ---------------------------------------------------------------------
  // The recovery floor
  // ---------------------------------------------------------------------

  function Lost(rows: seq<Row>): (m: int)
    ensures m >= 0
    ensures forall i :: 0 <= i < |rows| && rows[i].state.Expired? ==> rows[i].seqNo <= m
    ensures m > 0 ==> exists i :: 0 <= i < |rows| && rows[i].state.Expired? && rows[i].seqNo == m
  {
    if rows == [] then 0
    else
      var n := |rows| - 1;
      var m := Lost(rows[..n]);
      assert forall i :: 0 <= i < n ==> rows[..n][i] == rows[i];
      if rows[n].state.Expired? && rows[n].seqNo > m then rows[n].seqNo else m
  }

  function Floor(b: Box): int
  {
    Lost(b.rows) + 1
  }

  /** The floor is determined by its two defining properties. */
  lemma LostIs(rows: seq<Row>, m: int)
    requires m >= 0 && (forall i :: 0 <= i < |rows| && rows[i].state.Expired? ==> rows[i].seqNo <= m)
    requires m > 0 ==> exists i :: 0 <= i < |rows| && rows[i].state.Expired? && rows[i].seqNo == m
    ensures Lost(rows) == m
  {
  }

  // ---------------------------------------------------------------------
  // The store, in place
  // ---------------------------------------------------------------------

  /** The loop of one phase over a device's rows, splicing rows out as it goes. */
  method SweepRows(rows: seq<Row>, phase: Phase, before: int, budget: nat) returns (after: seq<Row>, left: nat, more: bool)
    ensures (after, left) == Sweep(rows, 0, phase, before, budget)
    ensures (more <==> AnyEligible(after, phase, before)) && (more ==> left == 0) && (!more <==> Clean(after, phase, before))
    ensures forall r :: r in rows && (r.state != Takes(phase) || r.appendedAt >= before) ==> r in after
  {
    forall r | r in rows && (r.state != Takes(phase) || r.appendedAt >= before)
      ensures r in Sweep(rows, 0, phase, before, budget).0
    {
      SweepTakesOld(rows, 0, phase, before, budget, r);
    }
    after, left, more := rows, budget, false;
    var index := 0;
    while index < |after|
      invariant index <= |after|
      invariant forall j :: 0 <= j < index ==> !Eligible(after, after[j], phase, before)
      invariant Sweep(after, index, phase, before, left) == Sweep(rows, 0, phase, before, budget)
      decreases |after| - index
    {
      var message := after[index];
      if !Eligible(after, message, phase, before) {
        index := index + 1;
      } else if left == 0 {
        CleanIsExact(after, phase, before);
        return after, left, true;
      } else if phase.Retire? {
        after := after[index := message.(state := Expired)];
        left, index := left - 1, index + 1;
      } else {
        StillIneligible(after, index, phase, before);
        after := Without(after, index);
        left := left - 1;
      }
    }
    CleanIsExact(after, phase, before);
  }

  class Device {
    var nextSeq: int
    var deliveredSeq: int
    var ackedSeq: int
    var closed: Option<Text>
    var messages: seq<Row>

    function Value(): Box
      reads this
    {
      Box(nextSeq, deliveredSeq, ackedSeq, closed, messages)
    }

    constructor ()
      ensures Value() == EMPTY
    {
      nextSeq, deliveredSeq, ackedSeq, closed, messages := 1, 0, 0, None, [];
    }

    /** `#usedBytes`, this device's part. */
    method UsedBytes() returns (bytes: nat)
      ensures bytes == PendingBytes(messages)
    {
      bytes := 0;
      for i := 0 to |messages|
        invariant bytes == PendingBytes(messages[..i])
      {
        assert messages[..i + 1][..i] == messages[..i];
        if messages[i].state.Pending? { bytes := bytes + messages[i].byteSize; }
      }
      assert messages[..|messages|] == messages;
    }

    method Append(messageId: Text, byteSize: nat, at: int, quota: Quota) returns (r: Appended)
      modifies this
      ensures (Value(), r) == AfterAppend(old(Value()), messageId, byteSize, at, quota)
    {
      if closed.Some? { return StreamClosed(closed.value); }
      var existing := Find(messages, messageId);
      if existing.Some? { return Known(existing.value); }
      if quota.Limit? {
        var used := UsedBytes();
        if quota.others + used + byteSize > quota.bytes { return QuotaExceeded; }
      }
      var message := Row(nextSeq, messageId, byteSize, at, Pending);
      nextSeq := nextSeq + 1;
      messages := messages + [message];
      r := Added(message);
    }

    method AdvanceCursor(acked: int) returns (r: Advanced)
      modifies this
      ensures (Value(), r) == AfterAck(old(Value()), acked)
    {
      if acked < ackedSeq { return Regression; }
      if acked > deliveredSeq { return AheadOfDelivery; }
      ackedSeq := acked;
      for i := 0 to |messages|
        invariant |messages| == |old(messages)| && ackedSeq == acked
        invariant nextSeq == old(nextSeq) && deliveredSeq == old(deliveredSeq) && closed == old(closed)
        invariant forall j :: 0 <= j < i ==> messages[j] == AckRow(old(messages)[j], acked)
        invariant forall j :: i <= j < |messages| ==> messages[j] == old(messages)[j]
      {
        if messages[i].state.Pending? && messages[i].seqNo <= acked {
          messages := messages[i := messages[i].(state := Acked)];
        }
      }
      assert messages == AckRows(old(messages), acked);
      r := Moved;
    }

    method RecordDelivery(delivered: int)
      modifies this
      ensures Value() == AfterDelivery(old(Value()), delivered)
    {
      if delivered > deliveredSeq { deliveredSeq := delivered; }
    }

    /** `expirePendingMessages`. */
    method ExpireMessages(only: Option<set<int>>) returns (expired: nat)
      modifies this`messages
      ensures messages == ExpireRows(old(messages), only)
      ensures expired == |Changed(old(messages), messages)|
    {
      expired := 0;
      for i := 0 to |messages|
        invariant |messages| == |old(messages)|
        invariant expired == |Changed(old(messages), messages)|
        invariant forall j :: 0 <= j < i ==> messages[j] == ExpireRow(old(messages)[j], only)
        invariant forall j :: i <= j < |messages| ==> messages[j] == old(messages)[j]
      {
        if Chosen(messages[i], only) {
          ghost var before := Changed(old(messages), messages);
          messages := messages[i := messages[i].(state := Expired)];
          expired := expired + 1;
          assert Changed(old(messages), messages) == before + {i};
        }
      }
    }

    method CloseStream(cause: Text) returns (expired: nat)
      modifies this
      ensures Value() == AfterClose(old(Value()), cause)
      ensures expired == |Changed(old(messages), messages)|
    {
      closed := Some(cause);
      expired := ExpireMessages(None);
    }

    method ReopenStream()
      modifies this
      ensures Value() == AfterReopen(old(Value()))
    {
      closed := None;
    }

    /** One phase of `collectExpired` on this device. */
    method Collect(phase: Phase, before: int, budget: nat) returns (left: nat, more: bool)
      modifies this`messages
      ensures (messages, left) == Sweep(old(messages), 0, phase, before, budget)
      ensures (more ==> left == 0) && (more <==> !Clean(messages, phase, before))
      ensures forall r :: r in old(messages) && (r.state != Takes(phase) || r.appendedAt >= before) ==> r in messages
    {
      messages, left, more := SweepRows(messages, phase, before, budget);
    }

    method RecoverableFrom() returns (floor: int)
      ensures floor == Floor(Value())
    {
      var lost := 0;
      for i := 0 to |messages|
        invariant lost == Lost(messages[..i])
      {
        assert messages[..i + 1][..i] == messages[..i];
        if messages[i].state.Expired? && messages[i].seqNo > lost { lost := messages[i].seqNo; }
      }
      assert messages[..|messages|] == messages;
      floor := lost + 1;
    }
  }

  // ---------------------------------------------------------------------
  // Every run
  // ---------------------------------------------------------------------

  datatype Action =
    | DoAppend(messageId: Text, byteSize: nat, at: int, quota: Quota)
    | DoDeliver(deliveredSeq: int)
    | DoAck(ackedSeq: int)
    | DoExpire(seqs: set<int>)
    | DoClose(cause: Text)
    | DoReopen
    | DoCollect(phase: Phase, before: int, budget: nat)

  /** The mailbox, and every row ever appended to it. */
  datatype State = State(box: Box, log: seq<Row>)

  function Step(s: State, a: Action): State
  {
    match a
    case DoAppend(messageId, byteSize, at, quota) =>
      var (b, r) := AfterAppend(s.box, messageId, byteSize, at, quota);
      State(b, if r.Added? then s.log + [r.row] else s.log)
    case DoDeliver(d) => s.(box := AfterDelivery(s.box, d))
    case DoAck(acked) => s.(box := AfterAck(s.box, acked).0)
    case DoExpire(seqs) => s.(box := AfterExpire(s.box, seqs))
    case DoClose(cause) => s.(box := AfterClose(s.box, cause))
    case DoReopen => s.(box := AfterReopen(s.box))
    case DoCollect(phase, before, budget) => s.(box := AfterCollect(s.box, phase, before, budget))
  }

  function Run(acts: seq<Action>): State
  {
    if acts == [] then State(EMPTY, []) else Step(Run(acts[..|acts| - 1]), acts[|acts| - 1])
  }

  // What every state satisfies

  ghost predicate Ascending(rows: seq<Row>)
  {
    forall i, j :: 0 <= i < j < |rows| ==> rows[i].seqNo < rows[j].seqNo
  }

  /** A retained row is one that was appended, but for its state. */
  ghost predicate FromLog(r: Row, log: seq<Row>, acked: int)
  {
    1 <= r.seqNo <= |log| && r.(state := Pending) == log[r.seqNo - 1] && (r.state.Acked? ==> r.seqNo <= acked)
  }

  ghost predicate Present(rows: seq<Row>, r: Row)
  {
    exists i :: 0 <= i < |rows| && rows[i] == r
  }

  /** A row that was appended is acknowledged, reported lost, or still there unchanged. */
  ghost predicate Accounted(rows: seq<Row>, r: Row, acked: int)
  {
    r.seqNo <= acked || r.seqNo <= Lost(rows) || Present(rows, r)
  }

  ghost predicate RowsOk(rows: seq<Row>, log: seq<Row>, acked: int)
  {
    && Ascending(rows)
    && (forall i :: 0 <= i < |rows| ==> FromLog(rows[i], log, acked))
    && (forall i :: 0 <= i < |log| ==> Accounted(rows, log[i], acked))
  }

  ghost predicate LogOk(log: seq<Row>)
  {
    forall i :: 0 <= i < |log| ==> log[i].seqNo == i + 1 && log[i].state.Pending?
  }

  /** A closed stream holds nothing to read. */
  ghost predicate NonePending(rows: seq<Row>)
  {
    forall i :: 0 <= i < |rows| ==> !rows[i].state.Pending?
  }

  ghost predicate Ok(s: State)
  {
    && s.box.nextSeq == |s.log| + 1 && LogOk(s.log) && 0 <= s.box.ackedSeq <= s.box.deliveredSeq
    && RowsOk(s.box.rows, s.log, s.box.ackedSeq)
    && (s.box.closed.Some? ==> NonePending(s.box.rows))
  }

  // Single edits

  lemma WithoutAt(rows: seq<Row>, i: nat)
    requires i < |rows|
    ensures forall j :: 0 <= j < |rows| - 1 ==> Without(rows, i)[j] == rows[if j < i then j else j + 1]
    ensures forall r :: Present(rows, r) && r != rows[i] ==> Present(Without(rows, i), r)
  {
    forall r | Present(rows, r) && r != rows[i]
      ensures Present(Without(rows, i), r)
    {
      var j :| 0 <= j < |rows| && rows[j] == r;
      assert Without(rows, i)[if j < i then j else j - 1] == r;
    }
  }

  lemma RemovedKeepsFloor(rows: seq<Row>, i: nat)
    requires i < |rows|
    requires !rows[i].state.Expired? || exists j :: 0 <= j < |rows| && rows[j].state.Expired? && rows[j].seqNo > rows[i].seqNo
    ensures Lost(Without(rows, i)) == Lost(rows)
  {
    hide Lost, Without, Present;
    WithoutAt(rows, i);
    if Lost(rows) > 0 {
      var k :| 0 <= k < |rows| && rows[k].state.Expired? && rows[k].seqNo == Lost(rows);
      TopStays(rows, i, k);
    }
    LostIs(Without(rows, i), Lost(rows));
  }

  lemma TopStays(rows: seq<Row>, i: nat, k: nat)
    requires i < |rows| && k < |rows| && k != i
    ensures exists j :: 0 <= j < |rows| - 1 && Without(rows, i)[j] == rows[k]
  {
    assert Without(rows, i)[if k < i then k else k - 1] == rows[k];
  }

  /** A consumed row, or a dead letter below another, may go: nothing unread is lost and the floor stays. */
  lemma RemoveKeeps(rows: seq<Row>, log: seq<Row>, acked: int, i: nat)
    requires RowsOk(rows, log, acked) && LogOk(log) && i < |rows| && !rows[i].state.Pending?
    requires rows[i].state.Expired? ==> exists j :: 0 <= j < |rows| && rows[j].state.Expired? && rows[j].seqNo > rows[i].seqNo
    ensures RowsOk(Without(rows, i), log, acked) && Lost(Without(rows, i)) == Lost(rows)
  {
    hide Lost, Without, Present;
    WithoutAt(rows, i);
    RemovedKeepsFloor(rows, i);
    var w := Without(rows, i);
    forall j | 0 <= j < |log|
      ensures Accounted(w, log[j], acked)
    {
      assert Accounted(rows, log[j], acked);
    }
    assert forall j :: 0 <= j < |w| ==> FromLog(w[j], log, acked);
  }

  ghost predicate OnlyExpires(rows: seq<Row>, after: seq<Row>)
  {
    |after| == |rows| && forall i :: 0 <= i < |rows| ==>
      after[i] == rows[i] || (rows[i].state.Pending? && after[i] == rows[i].(state := Expired))
  }

  lemma ExpireRaisesFloor(rows: seq<Row>, after: seq<Row>)
    requires OnlyExpires(rows, after)
    ensures Lost(after) >= Lost(rows)
  {
    hide Lost;
    if Lost(rows) > 0 {
      var k :| 0 <= k < |rows| && rows[k].state.Expired? && rows[k].seqNo == Lost(rows);
      assert after[k] == rows[k];
    }
  }

  lemma ExpireAccounts(rows: seq<Row>, after: seq<Row>, r: Row, acked: int)
    requires OnlyExpires(rows, after) && Accounted(rows, r, acked)
    ensures Accounted(after, r, acked)
  {
    hide Lost;
    ExpireRaisesFloor(rows, after);
    if Present(rows, r) {
      var k :| 0 <= k < |rows| && rows[k] == r;
      assert after[k] == rows[k] || after[k].state.Expired?;
    }
  }

  /** Rows may be dead-lettered: what becomes of them shows in the floor. */
  lemma ExpireKeeps(rows: seq<Row>, after: seq<Row>, log: seq<Row>, acked: int)
    requires RowsOk(rows, log, acked) && LogOk(log) && OnlyExpires(rows, after)
    ensures RowsOk(after, log, acked) && Lost(after) >= Lost(rows)
  {
    hide Lost, Accounted;
    ExpireRaisesFloor(rows, after);
    forall j | 0 <= j < |log|
      ensures Accounted(after, log[j], acked)
    {
      ExpireAccounts(rows, after, log[j], acked);
    }
    forall i | 0 <= i < |after|
      ensures FromLog(after[i], log, acked)
    {
      assert FromLog(rows[i], log, acked);
    }
  }

  lemma AckKeepsFloor(rows: seq<Row>, next: int)
    ensures Lost(AckRows(rows, next)) == Lost(rows)
  {
    hide Lost, AckRows;
    var after := AckRows(rows, next);
    if Lost(rows) > 0 {
      var k :| 0 <= k < |rows| && rows[k].state.Expired? && rows[k].seqNo == Lost(rows);
      assert after[k] == rows[k];
    }
    LostIs(after, Lost(rows));
  }

  lemma AckKeeps(rows: seq<Row>, log: seq<Row>, acked: int, next: int)
    requires RowsOk(rows, log, acked) && LogOk(log) && acked <= next
    ensures RowsOk(AckRows(rows, next), log, next) && Lost(AckRows(rows, next)) == Lost(rows)
  {
    hide Lost, AckRows;
    var after := AckRows(rows, next);
    AckKeepsFloor(rows, next);
    forall j | 0 <= j < |log|
      ensures Accounted(after, log[j], next)
    {
      assert Accounted(rows, log[j], acked);
      if Present(rows, log[j]) && log[j].seqNo > next {
        var k :| 0 <= k < |rows| && rows[k] == log[j];
        assert after[k] == rows[k];
      }
    }
    forall i | 0 <= i < |after|
      ensures FromLog(after[i], log, next)
    {
      assert FromLog(rows[i], log, acked);
    }
  }

  lemma AppendKeeps(rows: seq<Row>, log: seq<Row>, acked: int, r: Row)
    requires RowsOk(rows, log, acked) && LogOk(log) && r.seqNo == |log| + 1 && r.state.Pending?
    ensures RowsOk(rows + [r], log + [r], acked) && LogOk(log + [r]) && Lost(rows + [r]) == Lost(rows)
  {
    hide Lost;
    var after, longer := rows + [r], log + [r];
    if Lost(rows) > 0 {
      var k :| 0 <= k < |rows| && rows[k].state.Expired? && rows[k].seqNo == Lost(rows);
      assert after[k] == rows[k];
    }
    LostIs(after, Lost(rows));
    forall j | 0 <= j < |longer|
      ensures Accounted(after, longer[j], acked)
    {
      if j < |log| {
        assert Accounted(rows, log[j], acked);
        if Present(rows, log[j]) {
          var k :| 0 <= k < |rows| && rows[k] == log[j];
          assert after[k] == log[j];
        }
      } else {
        assert after[|rows|] == r;
      }
    }
    assert forall i :: 0 <= i < |rows| ==> FromLog(rows[i], log, acked);
  }

  lemma {:induction false} SweepAddsNone(rows: seq<Row>, i: nat, phase: Phase, before: int, budget: nat)
    requires i <= |rows| && NonePending(rows)
    ensures NonePending(Sweep(rows, i, phase, before, budget).0)
    decreases |rows| - i
  {
    if i < |rows| {
      if !Eligible(rows, rows[i], phase, before) {
        SweepAddsNone(rows, i + 1, phase, before, budget);
      } else if budget > 0 && !phase.Retire? {
        SweepAddsNone(Without(rows, i), i, phase, before, budget - 1);
      }
    }
  }

  /** A sweep of any phase, cut short by its budget or not. */
  lemma {:induction false} SweepKeeps(rows: seq<Row>, i: nat, phase: Phase, before: int, budget: nat, log: seq<Row>, acked: int)
    requires i <= |rows| && RowsOk(rows, log, acked) && LogOk(log)
    ensures var after := Sweep(rows, i, phase, before, budget).0;
      RowsOk(after, log, acked) && Lost(after) >= Lost(rows)
    decreases |rows| - i
  {
    hide RowsOk, LogOk, Lost;
    if i < |rows| {
      if !Eligible(rows, rows[i], phase, before) {
        SweepKeeps(rows, i + 1, phase, before, budget, log, acked);
      } else if budget > 0 {
        if phase.Retire? {
          var after := rows[i := rows[i].(state := Expired)];
          ExpireKeeps(rows, after, log, acked);
          SweepKeeps(after, i + 1, phase, before, budget - 1, log, acked);
        } else {
          RemoveKeeps(rows, log, acked, i);
          SweepKeeps(Without(rows, i), i, phase, before, budget - 1, log, acked);
        }
      }
    }
  }

  lemma StepKeeps(s: State, a: Action)
    requires Ok(s)
    ensures Ok(Step(s, a)) && Floor(Step(s, a).box) >= Floor(s.box)
    ensures Step(s, a).box.ackedSeq >= s.box.ackedSeq && Step(s, a).box.deliveredSeq >= s.box.deliveredSeq && s.log <= Step(s, a).log
  {
    hide RowsOk, LogOk, Lost;
    var b := s.box;
    match a
    case DoAppend(messageId, byteSize, at, _) => AppendKeeps(b.rows, s.log, b.ackedSeq, Row(b.nextSeq, messageId, byteSize, at, Pending));
    case DoAck(acked) => if acked >= b.ackedSeq { AckKeeps(b.rows, s.log, b.ackedSeq, acked); }
    case DoExpire(seqs) => ExpireKeeps(b.rows, ExpireRows(b.rows, Some(seqs)), s.log, b.ackedSeq);
    case DoClose(_) => ExpireKeeps(b.rows, ExpireRows(b.rows, None), s.log, b.ackedSeq);
    case DoCollect(phase, before, budget) =>
      SweepKeeps(b.rows, 0, phase, before, budget, s.log, b.ackedSeq);
      if b.closed.Some? { SweepAddsNone(b.rows, 0, phase, before, budget); }
    case _ =>
  }

  lemma {:induction false} AlwaysOk(acts: seq<Action>)
    ensures Ok(Run(acts))
    decreases |acts|
  {
    hide Step;
    if acts != [] {
      AlwaysOk(acts[..|acts| - 1]);
      StepKeeps(Run(acts[..|acts| - 1]), acts[|acts| - 1]);
    }
  }

  /** The floor, both cursors and the log only ever grow, and no acknowledgement passes the delivery. */
  lemma {:induction false} FloorNeverFalls(acts: seq<Action>, more: seq<Action>)
    ensures var s, u := Run(acts), Run(acts + more);
      && Floor(s.box) <= Floor(u.box) && s.box.ackedSeq <= u.box.ackedSeq && s.box.deliveredSeq <= u.box.deliveredSeq && s.log <= u.log
      && u.box.ackedSeq <= u.box.deliveredSeq
    decreases |more|
  {
    hide Step, Lost;
    AlwaysOk(acts + more);
    if more == [] {
      assert acts + more == acts;
    } else {
      var n := |more| - 1;
      assert (acts + more)[..|acts + more| - 1] == acts + more[..n];
      FloorNeverFalls(acts, more[..n]);
      AlwaysOk(acts + more[..n]);
      StepKeeps(Run(acts + more[..n]), more[n]);
    }
  }

  /** A closed stream has nothing left to deliver and refuses every append, even of a message it knows. */
  lemma ClosedStreamIsDead(acts: seq<Action>, messageId: Text, byteSize: nat, at: int, quota: Quota, cursor: int)
    requires Run(acts).box.closed.Some?
    ensures var b := Run(acts).box;
      AfterAppend(b, messageId, byteSize, at, quota) == (b, StreamClosed(b.closed.value)) && PendingAfter(b.rows, cursor) == []
  {
    hide Run, RowsOk, LogOk;
    AlwaysOk(acts);
    NothingPending(Run(acts).box.rows, cursor);
  }

  lemma {:induction false} NothingPending(rows: seq<Row>, cursor: int)
    requires NonePending(rows)
    ensures PendingAfter(rows, cursor) == []
    decreases |rows|
  {
    if rows != [] { NothingPending(rows[..|rows| - 1], cursor); }
  }

  /** An accepted acknowledgement consumes what it covers and touches nothing above it. */
  lemma AckConsumes(b: Box, acked: int, r: Row)
    requires AfterAck(b, acked).1.Moved? && r.state.Pending?
    ensures r in AfterAck(b, acked).0.rows <==> r in b.rows && r.seqNo > acked
  {
    hide AckRows;
    var after := AckRows(b.rows, acked);
    if r in b.rows && r.seqNo > acked {
      var i :| 0 <= i < |b.rows| && b.rows[i] == r;
      assert after[i] == r;
    }
    if r in after {
      var i :| 0 <= i < |after| && after[i] == r;
      assert b.rows[i] == r;
    }
  }

  // ---------------------------------------------------------------------
  // The quota
  // ---------------------------------------------------------------------

  lemma BytesAppend(rows: seq<Row>, r: Row)
    ensures PendingBytes(rows + [r]) == PendingBytes(rows) + if r.state.Pending? then r.byteSize else 0
  {
    assert (rows + [r])[..|rows|] == rows;
  }

  /** Rows that change only by ceasing to be pending hold no more bytes. */
  lemma {:induction false} BytesFall(rows: seq<Row>, after: seq<Row>)
    requires |after| == |rows| && forall i :: 0 <= i < |rows| ==> after[i] == rows[i] || !after[i].state.Pending?
    ensures PendingBytes(after) <= PendingBytes(rows)
    decreases |rows|
  {
    if rows != [] { BytesFall(rows[..|rows| - 1], after[..|rows| - 1]); }
  }

  lemma {:induction false} BytesWithout(rows: seq<Row>, i: nat)
    requires i < |rows|
    ensures PendingBytes(Without(rows, i)) <= PendingBytes(rows)
    decreases |rows|
  {
    var n := |rows| - 1;
    if i == n {
      assert Without(rows, i) == rows[..n];
    } else {
      BytesWithout(rows[..n], i);
      assert Without(rows, i) == Without(rows[..n], i) + [rows[n]];
      BytesAppend(Without(rows[..n], i), rows[n]);
    }
  }

  lemma {:induction false} SweepBytes(rows: seq<Row>, i: nat, phase: Phase, before: int, budget: nat)
    requires i <= |rows|
    ensures PendingBytes(Sweep(rows, i, phase, before, budget).0) <= PendingBytes(rows)
    decreases |rows| - i
  {
    hide PendingBytes;
    if i < |rows| {
      if !Eligible(rows, rows[i], phase, before) {
        SweepBytes(rows, i + 1, phase, before, budget);
      } else if budget > 0 {
        if phase.Retire? {
          var after := rows[i := rows[i].(state := Expired)];
          BytesFall(rows, after);
          SweepBytes(after, i + 1, phase, before, budget - 1);
        } else {
          BytesWithout(rows, i);
          SweepBytes(Without(rows, i), i, phase, before, budget - 1);
        }
      }
    }
  }

  /** Only an append raises what a device holds, by the size of its row; a limited one stays within the tenant's limit. */
  lemma QuotaHolds(s: State, a: Action)
    ensures !a.DoAppend? ==> PendingBytes(Step(s, a).box.rows) <= PendingBytes(s.box.rows)
    ensures a.DoAppend? ==>
      var r := AfterAppend(s.box, a.messageId, a.byteSize, a.at, a.quota).1;
      var after := PendingBytes(Step(s, a).box.rows);
      && after == PendingBytes(s.box.rows) + (if r.Added? then a.byteSize else 0)
      && (r.Added? && a.quota.Limit? ==> a.quota.others + after <= a.quota.bytes)
  {
    hide PendingBytes, Find;
    var rows := s.box.rows;
    match a
    case DoAppend(messageId, byteSize, at, _) => BytesAppend(rows, Row(s.box.nextSeq, messageId, byteSize, at, Pending));
    case DoAck(acked) => BytesFall(rows, AckRows(rows, acked));
    case DoExpire(seqs) => BytesFall(rows, ExpireRows(rows, Some(seqs)));
    case DoClose(_) => BytesFall(rows, ExpireRows(rows, None));
    case DoCollect(phase, before, budget) => SweepBytes(rows, 0, phase, before, budget);
    case _ =>
  }

  // ---------------------------------------------------------------------
  // A reader within the window misses nothing
  // ---------------------------------------------------------------------

  /** The pending rows above a cursor, in the order they are kept. */
  function PendingAfter(rows: seq<Row>, after: int): seq<Row>
  {
    if rows == [] then []
    else
      var init, last := PendingAfter(rows[..|rows| - 1], after), rows[|rows| - 1];
      if last.state.Pending? && last.seqNo > after then init + [last] else init
  }

  datatype Page = Page(messages: seq<Row>, nextSeq: int, hasMore: bool, recoverableFrom: int)

  function ReadAfter(b: Box, after: int, limit: nat): Page
  {
    var pending := PendingAfter(b.rows, after);
    var page := if |pending| > limit then pending[..limit] else pending;
    Page(page, if page == [] then after else page[|page| - 1].seqNo, |pending| > |page|, Floor(b))
  }

  lemma {:induction false} PendingAfterIs(rows: seq<Row>, after: int, r: Row)
    ensures r in PendingAfter(rows, after) <==> r in rows && r.state.Pending? && r.seqNo > after
    decreases |rows|
  {
    if rows != [] {
      var n := |rows| - 1;
      PendingAfterIs(rows[..n], after, r);
      assert rows == rows[..n] + [rows[n]];
    }
  }

  lemma {:induction false} PendingAfterAscends(rows: seq<Row>, after: int)
    requires Ascending(rows)
    ensures Ascending(PendingAfter(rows, after))
    decreases |rows|
  {
    if rows != [] {
      var n := |rows| - 1;
      var init, p := rows[..n], PendingAfter(rows[..n], after);
      PendingAfterAscends(init, after);
      forall i | 0 <= i < |p|
        ensures p[i].seqNo < rows[n].seqNo
      {
        PendingAfterIs(init, after, p[i]);
        var j :| 0 <= j < |init| && init[j] == p[i];
        assert rows[j].seqNo < rows[n].seqNo;
      }
    }
  }

  lemma HasMember(p: seq<Row>)
    ensures p != [] ==> exists r :: r in p
  {
    if p != [] { assert p[0] in p; }
  }

  lemma Prefixes(p: seq<Row>, log: seq<Row>, k: nat)
    requires LogOk(log) && Ascending(p) && k < |p| && log != []
    ensures LogOk(log[..|log| - 1]) && Ascending(p[..k])
  {
  }

  /** An ascending list of appended rows that leaves none out is the log itself. */
  lemma {:induction false} AscendingIsLog(p: seq<Row>, log: seq<Row>, after: int)
    requires LogOk(log) && Ascending(p) && 0 <= after <= |log|
    requires forall r :: r in p <==> r in log[after..]
    ensures p == log[after..]
    decreases |log|
  {
    hide LogOk, Ascending;
    if after < |log| {
      var n := |log| - 1;
      var last := log[n];
      assert log[after..][n - after] == last;
      assert last in p;
      var k :| 0 <= k < |p| && p[k] == last;
      LastIsLast(p, log, after, k);
      var shorter := p[..k];
      assert p == shorter + [last];
      forall r
        ensures r in shorter <==> r in log[..n][after..]
      {
        ShorterIs(p, shorter, log, after, last, r);
      }
      Prefixes(p, log, k);
      AscendingIsLog(shorter, log[..n], after);
      assert log[after..] == log[..n][after..] + [last];
    } else {
      HasMember(p);
    }
  }

  lemma LastIsLast(p: seq<Row>, log: seq<Row>, after: int, k: nat)
    requires LogOk(log) && Ascending(p) && 0 <= after < |log| && k < |p| && p[k] == log[|log| - 1]
    requires forall r :: r in p <==> r in log[after..]
    ensures k == |p| - 1
  {
    var top := p[|p| - 1];
    assert top in p;
    var j :| 0 <= j < |log[after..]| && log[after..][j] == top;
    assert log[after + j] == top;
  }

  lemma ShorterIs(p: seq<Row>, shorter: seq<Row>, log: seq<Row>, after: int, last: Row, r: Row)
    requires LogOk(log) && Ascending(p) && 0 <= after < |log| && last == log[|log| - 1] && p == shorter + [last]
    requires forall x :: x in p <==> x in log[after..]
    ensures r in shorter <==> r in log[..|log| - 1][after..]
  {
    var n := |log| - 1;
    assert log[after..] == log[..n][after..] + [last];
    assert last !in log[..n][after..];
    assert forall i :: 0 <= i < |shorter| ==> shorter[i] == p[i] && p[i].seqNo < p[|shorter|].seqNo;
    assert r in p <==> r in shorter || r == last;
  }

  /**
  No silent loss: in every run, a reader whose cursor is at least the
  acknowledged one and just below the recovery floor, or higher, is handed
  exactly the rows that were ever appended above its cursor, unchanged and in
  order. Reading page by page returns a prefix of them and says whether there is more.
  */
  lemma NoSilentLoss(acts: seq<Action>, cursor: int, limit: nat)
    requires var b := Run(acts).box;
      b.ackedSeq <= cursor && Floor(b) - 1 <= cursor
    ensures var s := Run(acts);
      var unread := if cursor <= |s.log| then s.log[cursor..] else [];
      var page := ReadAfter(s.box, cursor, limit);
      && PendingAfter(s.box.rows, cursor) == unread
      && page.messages == (if |unread| > limit then unread[..limit] else unread)
      && page.nextSeq == cursor + |page.messages| && page.hasMore == (|unread| > limit) && page.recoverableFrom == Floor(s.box)
  {
    hide Run, Lost;
    var s := Run(acts);
    AlwaysOk(acts);
    var p := PendingAfter(s.box.rows, cursor);
    PendingAfterAscends(s.box.rows, cursor);
    if cursor <= |s.log| {
      forall r
        ensures r in p <==> r in s.log[cursor..]
      {
        PendingAfterIs(s.box.rows, cursor, r);
        UnreadIs(s, cursor, r);
      }
      AscendingIsLog(p, s.log, cursor);
    } else {
      forall r
        ensures r !in p
      {
        PendingAfterIs(s.box.rows, cursor, r);
        if r in s.box.rows { RetainedIsLogged(s, r); }
      }
      HasMember(p);
    }
  }

  lemma RetainedIsLogged(s: State, r: Row)
    requires Ok(s) && r in s.box.rows
    ensures 1 <= r.seqNo <= |s.log| && (r.state.Pending? ==> r == s.log[r.seqNo - 1])
  {
    hide Lost;
    var i :| 0 <= i < |s.box.rows| && s.box.rows[i] == r;
    assert FromLog(s.box.rows[i], s.log, s.box.ackedSeq);
  }

  lemma UnreadIs(s: State, cursor: int, r: Row)
    requires Ok(s) && s.box.ackedSeq <= cursor <= |s.log| && Lost(s.box.rows) <= cursor
    ensures r in s.box.rows && r.state.Pending? && r.seqNo > cursor <==> r in s.log[cursor..]
  {
    hide Lost;
    if r in s.box.rows && r.state.Pending? && r.seqNo > cursor {
      RetainedIsLogged(s, r);
      assert s.log[cursor..][r.seqNo - 1 - cursor] == r;
    }
    if r in s.log[cursor..] {
      var j :| 0 <= j < |s.log[cursor..]| && s.log[cursor..][j] == r;
      assert s.log[cursor + j] == r;
      assert Accounted(s.box.rows, s.log[cursor + j], s.box.ackedSeq);
    }
  }
}
