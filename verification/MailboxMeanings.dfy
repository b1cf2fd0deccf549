/**
What the mailbox operations are for, in terms of rows and cursors: exactly which
appends, acknowledgements and expiries take effect, and on which rows.
*/
module MailboxMeanings {
  import opened Json
  import opened Mailbox

  // ---------------------------------------------------------------------
  // Appending
  // ---------------------------------------------------------------------

  ghost predicate Holds(rows: seq<Row>, messageId: Text)
  {
    exists i :: 0 <= i < |rows| && rows[i].messageId == messageId
  }

  ghost predicate DistinctIds(rows: seq<Row>)
  {
    forall i, j :: 0 <= i < j < |rows| ==> rows[i].messageId != rows[j].messageId
  }

  lemma {:induction false} FindIsExact(rows: seq<Row>, messageId: Text)
    ensures Find(rows, messageId).Some? <==> Holds(rows, messageId)
    ensures Find(rows, messageId).Some? ==> Find(rows, messageId).value in rows && Find(rows, messageId).value.messageId == messageId
  {
    if rows != [] {
      FindIsExact(rows[1..], messageId);
      if rows[0].messageId != messageId && Holds(rows, messageId) {
        var i :| 0 <= i < |rows| && rows[i].messageId == messageId;
        assert rows[1..][i - 1] == rows[i];
      }
    }
  }

  lemma OnlyOne(rows: seq<Row>, r: Row, q: Row)
    requires DistinctIds(rows) && r in rows && q in rows && r.messageId == q.messageId
    ensures r == q
  {
  }

  /**
  Which appends add a row: on an open stream, for a message id the mailbox does
  not hold, within the limit. The row is pending, under the next sequence number.
  A message it holds is answered with the one row it is stored as.
  */
  lemma AppendIsExact(acts: seq<Action>, messageId: Text, byteSize: nat, at: int, quota: Quota)
    ensures var b := Run(acts).box;
      var (after, r) := AfterAppend(b, messageId, byteSize, at, quota);
      && (r.StreamClosed? <==> b.closed.Some?) && (r.StreamClosed? ==> Some(r.cause) == b.closed)
      && (r.Known? <==> b.closed.None? && Holds(b.rows, messageId))
      && (forall q :: r.Known? && q in b.rows && q.messageId == messageId ==> r.row == q)
      && (r.Added? <==>
            && b.closed.None? && !Holds(b.rows, messageId)
            && (quota.Limit? ==> quota.others + PendingBytes(b.rows) + byteSize <= quota.bytes))
      && (r.Added? ==> r.row == Row(|Run(acts).log| + 1, messageId, byteSize, at, Pending)
                       && after == b.(rows := b.rows + [r.row], nextSeq := b.nextSeq + 1))
      && (!r.Added? ==> after == b)
  {
    hide Run, Find, PendingBytes, Holds, DistinctIds, RowsOk, LogOk;
    var b := Run(acts).box;
    AlwaysOk(acts);
    IdsAlwaysDistinct(acts);
    FindIsExact(b.rows, messageId);
    forall q | b.closed.None? && Holds(b.rows, messageId) && q in b.rows && q.messageId == messageId
      ensures Find(b.rows, messageId) == Some(q)
    {
      OnlyOne(b.rows, q, Find(b.rows, messageId).value);
    }
  }

  // A message is stored once

  lemma SameIds(rows: seq<Row>, after: seq<Row>)
    requires DistinctIds(rows) && |after| == |rows| && forall i :: 0 <= i < |rows| ==> after[i].messageId == rows[i].messageId
    ensures DistinctIds(after)
  {
  }

  lemma WithoutIds(rows: seq<Row>, i: nat)
    requires i < |rows| && DistinctIds(rows)
    ensures DistinctIds(Without(rows, i))
  {
    var w := Without(rows, i);
    assert forall j :: 0 <= j < |w| ==> w[j] == rows[if j < i then j else j + 1];
  }

  lemma {:induction false} SweepIds(rows: seq<Row>, i: nat, phase: Phase, before: int, budget: nat)
    requires i <= |rows| && DistinctIds(rows)
    ensures DistinctIds(Sweep(rows, i, phase, before, budget).0)
    decreases |rows| - i
  {
    hide DistinctIds, Eligible;
    if i < |rows| {
      if !Eligible(rows, rows[i], phase, before) {
        SweepIds(rows, i + 1, phase, before, budget);
      } else if budget > 0 {
        if phase.Retire? {
          var after := rows[i := rows[i].(state := Expired)];
          SameIds(rows, after);
          SweepIds(after, i + 1, phase, before, budget - 1);
        } else {
          WithoutIds(rows, i);
          SweepIds(Without(rows, i), i, phase, before, budget - 1);
        }
      }
    }
  }

  lemma StepIds(s: State, a: Action)
    requires DistinctIds(s.box.rows)
    ensures DistinctIds(Step(s, a).box.rows)
  {
    hide DistinctIds, Find, PendingBytes, Sweep;
    var rows := s.box.rows;
    match a
    case DoAppend(messageId, byteSize, at, quota) =>
      FindIsExact(rows, messageId);
      if !Holds(rows, messageId) { AppendedIds(rows, Row(s.box.nextSeq, messageId, byteSize, at, Pending)); }
    case DoAck(acked) => SameIds(rows, AckRows(rows, acked));
    case DoExpire(seqs) => SameIds(rows, ExpireRows(rows, Some(seqs)));
    case DoClose(_) => SameIds(rows, ExpireRows(rows, None));
    case DoCollect(phase, before, budget) => SweepIds(rows, 0, phase, before, budget);
    case _ =>
  }

  lemma AppendedIds(rows: seq<Row>, r: Row)
    requires DistinctIds(rows) && !Holds(rows, r.messageId)
    ensures DistinctIds(rows + [r])
  {
  }

  /** In every run the retained rows carry distinct message ids. */
  lemma {:induction false} IdsAlwaysDistinct(acts: seq<Action>)
    ensures DistinctIds(Run(acts).box.rows)
    decreases |acts|
  {
    hide Step, DistinctIds;
    if acts == [] {
      assert DistinctIds([]) by { SameIds([], []); }
    } else {
      IdsAlwaysDistinct(acts[..|acts| - 1]);
      StepIds(Run(acts[..|acts| - 1]), acts[|acts| - 1]);
    }
  }

  // ---------------------------------------------------------------------
  // Cursors
  // ---------------------------------------------------------------------

  /** The delivery cursor is the highest delivery ever recorded. */
  lemma DeliveryIsExact(b: Box, delivered: int)
    ensures var c := AfterDelivery(b, delivered);
      && c.deliveredSeq >= b.deliveredSeq && c.deliveredSeq >= delivered && c.deliveredSeq in {b.deliveredSeq, delivered}
      && c == b.(deliveredSeq := c.deliveredSeq)
  {
  }

  /** Which acknowledgements are accepted, and what they do to each row. */
  lemma AckIsExact(b: Box, acked: int)
    ensures var (c, r) := AfterAck(b, acked);
      && (r.Moved? <==> b.ackedSeq <= acked <= b.deliveredSeq)
      && (r.Regression? <==> acked < b.ackedSeq)
      && (!r.Moved? ==> c == b)
      && (r.Moved? ==> c == b.(ackedSeq := acked, rows := c.rows) && |c.rows| == |b.rows|
                       && forall i :: 0 <= i < |b.rows| ==>
                            c.rows[i] == if b.rows[i].state.Pending? && b.rows[i].seqNo <= acked then b.rows[i].(state := Acked) else b.rows[i])
  {
  }

  // ---------------------------------------------------------------------
  // Expiry and the stream
  // ---------------------------------------------------------------------

  /** Exactly the pending rows that are named expire. */
  lemma ExpireIsExact(b: Box, seqs: set<int>)
    ensures var c := AfterExpire(b, seqs);
      c == b.(rows := c.rows) && |c.rows| == |b.rows| && forall i :: 0 <= i < |b.rows| ==>
        c.rows[i] == if b.rows[i].state.Pending? && b.rows[i].seqNo in seqs then b.rows[i].(state := Expired) else b.rows[i]
  {
  }

  /** Closing records its cause and expires everything that is pending, nothing else; only the row states and the cause change. */
  lemma CloseIsExact(b: Box, cause: Text)
    ensures var c := AfterClose(b, cause);
      c == b.(closed := Some(cause), rows := c.rows) && |c.rows| == |b.rows| && forall i :: 0 <= i < |b.rows| ==>
        c.rows[i] == if b.rows[i].state.Pending? then b.rows[i].(state := Expired) else b.rows[i]
  {
  }

  /** A reopened stream takes messages again, and brings back nothing of what closing expired. */
  lemma ReopenRevives(acts: seq<Action>, messageId: Text, byteSize: nat, at: int)
    requires !Holds(Run(acts).box.rows, messageId)
    ensures var b := AfterReopen(Run(acts).box);
      && AfterAppend(b, messageId, byteSize, at, Exempt).1.Added? && b.rows == Run(acts).box.rows && Floor(b) == Floor(Run(acts).box)
      && b == Run(acts).box.(closed := None)
  {
    hide Run, Find, Lost;
    FindIsExact(Run(acts).box.rows, messageId);
  }

  /** The floor is just above the highest dead letter; without one nothing was lost and it is 1. */
  lemma FloorIsExact(b: Box)
    ensures Floor(b) >= 1 && forall i :: 0 <= i < |b.rows| && b.rows[i].state.Expired? ==> b.rows[i].seqNo < Floor(b)
    ensures Floor(b) > 1 ==> exists i :: 0 <= i < |b.rows| && b.rows[i].state.Expired? && b.rows[i].seqNo == Floor(b) - 1
  {
    hide Lost;
  }
}
