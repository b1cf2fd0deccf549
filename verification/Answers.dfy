/**
Answers count exactly once, over any interleaving of callers and restarts.
*/
module Answers {
  import opened Json
  import opened Documents
  import opened Executions
  import opened CasStore
  import opened Servers
  import opened Protocol
  import opened Invariants
  import opened Preservation
  import opened Decisions
  import opened Guarantees
  import opened Questions
  import Goals
  import Runs

  // ---------------------------------------------------------------------
  // Every receipt a call returned is on record
  // ---------------------------------------------------------------------

  ghost predicate Stored(r: Record, receipt: Runs.Receipt)
  {
    r.RunRec? && Runs.HasReceipt(r.run, receipt)
  }

  ghost predicate Recorded(history: map<Key, seq<Record>>, k: Key, receipt: Runs.Receipt)
  {
    k in history && exists i :: 0 <= i < |history[k]| && Stored(history[k][i], receipt)
  }

  /** The receipt is for this call's answer id and body. */
  ghost predicate Answers(op: Op, receipt: Runs.Receipt)
  {
    && op.AnswerRun? && receipt.answerId == op.answer.answerId
    && receipt.digest == Runs.Digest(op.binding, op.answer.value)
  }

  ghost predicate ReplyOk(history: map<Key, seq<Record>>, call: Call)
  {
    && JsonArguments(call.op)
    && (call.pc.Done? && call.pc.receipt.Some? ==>
          Answers(call.op, call.pc.receipt.value) && Recorded(history, KeyOfOp(call.op), call.pc.receipt.value))
  }

  ghost predicate AllReplied(s: State)
  {
    forall c :: c in s.calls ==> ReplyOk(s.history, s.calls[c])
  }

  lemma RecordedStays(a: map<Key, seq<Record>>, b: map<Key, seq<Record>>, k: Key, receipt: Runs.Receipt)
    requires Longer(a, b) && Recorded(a, k, receipt)
    ensures Recorded(b, k, receipt)
  {
    var i :| 0 <= i < |a[k]| && Stored(a[k][i], receipt);
    assert b[k][i] == a[k][i];
  }

  lemma ReplyStays(a: map<Key, seq<Record>>, b: map<Key, seq<Record>>, call: Call)
    requires Longer(a, b) && ReplyOk(a, call)
    ensures ReplyOk(b, call)
  {
    hide Answers, Recorded, JsonArguments;
    if call.pc.Done? && call.pc.receipt.Some? { RecordedStays(a, b, KeyOfOp(call.op), call.pc.receipt.value); }
  }

  /** Only an answer, once loaded or saved, ends with a receipt. */
  ghost predicate Replies(op: Op, row: Option<Snapshot>, eff: Effect)
  {
    match eff
    case Move(pc) => pc.Done? && pc.receipt.Some? ==> row.Some? && Stored(row.value.value, pc.receipt.value) && Answers(op, pc.receipt.value)
    case Save(_, value, _, next) => next.Reply? ==> Stored(value, next.receipt) && Answers(op, next.receipt)
    case Seen(_, pc) => pc.Done? ==> pc.receipt.None?
    case Become(next) => JsonArguments(next)
    case _ => true
  }

  lemma AnswerReplies(op: Op, row: Snapshot, r: Runs.Run, o: Oracle)
    requires op.AnswerRun? && row.value == RunRec(r)
    ensures Replies(op, Some(row), DecideAnswer(row, r, op.principal, op.binding, op.answer, o))
  {
    hide Runs.Digest, Runs.Answerable, Runs.NextInput, Runs.Chosen;
    var out := Runs.Answer(r, op.principal, op.binding, op.answer, o.now);
    if out.Accepted? {
      Runs.AnswerAccepts(r, op.principal, op.binding, op.answer, o.now);
      assert out.run.tickets[|out.run.tickets| - 1].receipt == Some(out.receipt);
    }
  }

  lemma LoadedReplies(op: Op, row: Snapshot, o: Oracle)
    ensures Replies(op, Some(row), DecideLoaded(op, row, o))
  {
    hide Goals.ReserveStep, Goals.Resume, Goals.Pause, Goals.Cancel, DecideAnswer, Runs.Cancel, Runs.ChangeContext, Runs.Close, Runs.Last, Stored, Answers;
    if op.AnswerRun? && row.value.RunRec? { AnswerReplies(op, row, row.value.run, o); }
  }

  lemma SightReplies(op: Op, row: Snapshot, input: Input, sight: Sight, o: Oracle)
    ensures Replies(op, Some(row), DecideSight(row, input, sight, o))
  {
    hide ReadReport, Goals.SettleBtw, Runs.Reconcile, Stored, Answers;
  }

  lemma BeginReplies(s: State, op: Op, o: Oracle)
    ensures Replies(op, None, DecideBegin(s, op, o))
  {
    hide Goals.Start, Runs.Start, Goals.ValidBtwArgs, Fetch, Stored, Answers;
  }

  lemma EveryReply(s: State, call: Call, o: Oracle)
    requires !call.pc.Done?
    ensures Replies(call.op, RowOf(call.pc), Decide(s, call, o))
  {
    hide Fetch, ReadOffer, DecideBegin, DecideLoaded, DecideSight, Matches, Goals.ReserveBtw, Goals.Conclude, Stored, Answers;
    match call.pc
    case Begin => BeginReplies(s, call.op, o);
    case Loaded(row) => LoadedReplies(call.op, row, o);
    case SecondLook(row, input, terminal) => SightReplies(call.op, row, input, Observe(s.server, input, terminal), o);
    case _ =>
  }

  lemma SavedReply(s: State, c: nat, call: Call, eff: Effect)
    requires eff.Save? && ReplyOk(s.history, call) && Replies(call.op, RowOf(call.pc), eff)
    ensures c in SaveStep(s, c, call, eff).calls && ReplyOk(SaveStep(s, c, call, eff).history, SaveStep(s, c, call, eff).calls[c])
  {
    hide WaitingOthers, Book, Stored, Answers, JsonArguments, Current;
    var h := Past(s.history, KeyOfOp(call.op)) + [eff.value];
    assert h[|h| - 1] == eff.value;
  }

  lemma AppliedReply(s: State, c: nat, call: Call, eff: Effect)
    requires ReplyOk(s.history, call) && !call.pc.Done? && Replies(call.op, RowOf(call.pc), eff)
    requires RowOf(call.pc).Some? ==> Snap(s.history, KeyOfOp(call.op), RowOf(call.pc).value)
    requires eff.Become? ==> KeyOfOp(eff.op) == KeyOfOp(call.op)
    ensures c in Apply(s, c, call, eff).calls && ReplyOk(Apply(s, c, call, eff).history, Apply(s, c, call, eff).calls[c])
  {
    hide SaveStep, Stored, Answers, JsonArguments;
    if eff.Save? { SavedReply(s, c, call, eff); }
  }

  lemma ActReplies(s: State, c: nat, o: Oracle)
    requires Inv(s) && AllReplied(s) && c in s.calls && IsNoted(s, s.calls[c], o) && !s.calls[c].pc.Done? && !s.calls[c].pc.Failed?
    ensures AllReplied(Act(s, c, o))
  {
    hide Decide, Apply, ReplyOk, DataOk, PairsOk, CallOk, Replies, IsNoted, Later, SaveOk;
    var call := s.calls[c];
    var eff := Decide(s, call, o);
    assert CallOk(Known(s), call);
    assert ReplyOk(s.history, call);
    EveryReply(s, call, o);
    if RowOf(call.pc).Some? { RowIsSnap(Known(s), call); }
    DecidesWell(s, call, o);
    AppliedReply(s, c, call, eff);
    ActLonger(s, c, o);
    forall d | d in Act(s, c, o).calls
      ensures ReplyOk(Act(s, c, o).history, Act(s, c, o).calls[d])
    {
      if d != c {
        OthersSame(s, c, call, eff, d);
        ReplyStays(s.history, Act(s, c, o).history, s.calls[d]);
      }
    }
  }

  lemma ActLonger(s: State, c: nat, o: Oracle)
    requires Inv(s) && c in s.calls
    ensures Longer(s.history, Act(s, c, o).history)
  {
    hide Decide, Apply, HistoryOk, PairsOk, CallsOk, SubmitsOk;
    ApplyIsLater(s, c, s.calls[c], Decide(s, s.calls[c], o));
  }

  lemma StepReplies(s: State, a: Action)
    requires Inv(s) && AllReplied(s)
    ensures AllReplied(Step(s, a))
  {
    hide Act, Noted, DataOk, CallsOk, PairsOk, IsNoted, Answers, Recorded;
    match a
    case Advance(c, o) =>
      if c in s.calls && !s.calls[c].pc.Done? && !s.calls[c].pc.Failed? {
        NotedKeeps(s, c, o);
        ActReplies(Noted(s, s.calls[c], o), c, o);
      }
    case _ =>
  }

  lemma {:induction false} EveryReceiptRecorded(run: seq<State>, n: nat)
    requires IsRun(run) && n < |run|
    ensures AllReplied(run[n])
  {
    hide Step, Inv, ReplyOk;
    if n > 0 {
      EveryReceiptRecorded(run, n - 1);
      Reachable(run, n - 1);
      assert MovesAt(run, n - 1);
      var a :| run[n] == Step(run[n - 1], a);
      StepReplies(run[n - 1], a);
    }
  }

  // ---------------------------------------------------------------------
  // Exactly once
  // ---------------------------------------------------------------------

  lemma {:induction false} ReceiptPersists(e: Evidence, k: Key, h: seq<Record>, i: nat, j: nat, receipt: Runs.Receipt)
    requires VersionsOk(e, k, h) && i <= j < |h| && Stored(h[i], receipt)
    ensures Stored(h[j], receipt)
  {
    hide RecordOk, Runs.RunEvolves, Runs.HasReceipt;
    if i < j {
      ReceiptPersists(e, k, h, i, j - 1, receipt);
      assert StepOk(e, h, j - 1);
      Runs.ReceiptStays(e, h[j - 1].run, h[j].run, receipt);
    }
  }

  /** A call that returned this receipt for this answer. */
  ghost predicate Answered(s: State, c: nat, receipt: Runs.Receipt)
  {
    c in s.calls && s.calls[c].op.AnswerRun? && s.calls[c].pc == Done(Some(receipt))
  }

  lemma RecordedInLatest(s: State, k: Key, receipt: Runs.Receipt)
    requires DataOk(s) && Recorded(s.history, k, receipt)
    ensures k in s.table.rows && Stored(s.table.rows[k].value, receipt) && RecordOk(s.table.rows[k].value)
  {
    hide ReservedOk, SubmitsOk, AcceptedOk, StepOk, RecordOk, Stored;
    var h := s.history[k];
    assert RowOk(s.table.rows[k], h) && VersionsOk(Proof(s), k, h);
    var i :| 0 <= i < |h| && Stored(h[i], receipt);
    ReceiptPersists(Proof(s), k, h, i, |h| - 1, receipt);
    assert VersionOk(k, h[|h| - 1]);
  }

  lemma ReceiptInLatest(s: State, c: nat, receipt: Runs.Receipt)
    requires Inv(s) && AllReplied(s) && Answered(s, c, receipt)
    ensures var k := KeyOfOp(s.calls[c].op);
      && k in s.table.rows && Stored(s.table.rows[k].value, receipt) && Runs.RunOk(s.table.rows[k].value.run)
      && Answers(s.calls[c].op, receipt) && WellFormed(s.calls[c].op.binding)
  {
    hide DataOk, CallsOk, PairsOk, Runs.RunOk, Answers, Recorded, Runs.HasReceipt;
    assert ReplyOk(s.history, s.calls[c]);
    RecordedInLatest(s, KeyOfOp(s.calls[c].op), receipt);
  }

  lemma LatestIsSigned(run: seq<State>, n: nat, k: Key)
    requires IsRun(run) && n < |run| && k in run[n].table.rows && run[n].table.rows[k].value.RunRec?
    ensures AllSigned(run[n].table.rows[k].value.run.tickets)
  {
    hide IsRun, HistoryOk, ReservedOk, SubmitsOk, AcceptedOk, CallsOk, PairsOk, AllSigned;
    Reachable(run, n);
    ReceiptsAreSigned(run, n);
    assert RowOk(run[n].table.rows[k], run[n].history[k]);
    assert RecordSigned(run[n].history[k][|run[n].history[k]| - 1]);
  }

  /**
  Two calls that answered one run, however they interleaved, hold the same
  receipt exactly when they used the same answer id, and exactly when they
  answered the same question; and then they gave the same answer. So an answer id
  yields one receipt and a question yields one receipt.
  */
  lemma AnsweredOnce(run: seq<State>, n: nat, c: nat, d: nat, x: Runs.Receipt, y: Runs.Receipt)
    requires IsRun(run) && n < |run| && Answered(run[n], c, x) && Answered(run[n], d, y)
    requires KeyOfOp(run[n].calls[c].op) == KeyOfOp(run[n].calls[d].op)
    ensures var p, q := run[n].calls[c].op, run[n].calls[d].op;
      && (x == y <==> p.answer.answerId == q.answer.answerId)
      && (x == y <==> SameJson(p.binding, q.binding))
      && (x == y ==> p.answer.value == q.answer.value)
  {
    hide IsRun, Inv, AllReplied, Runs.RunOk, Runs.HasReceipt, SameJson, Runs.Digest, WellFormed, AllSigned;
    var s := run[n];
    var p, q := s.calls[c].op, s.calls[d].op;
    Reachable(run, n);
    EveryReceiptRecorded(run, n);
    ReceiptInLatest(s, c, x);
    ReceiptInLatest(s, d, y);
    var r := s.table.rows[KeyOfOp(p)].value.run;
    LatestIsSigned(run, n, KeyOfOp(p));
    Runs.DigestDecides(p.binding, p.answer.value, q.binding, q.answer.value);
    if p.answer.answerId == q.answer.answerId { Runs.ReceiptIsUnique(r, x, y); }
    if SameJson(p.binding, q.binding) { OneReceiptPerQuestion(r, x, y, p.binding, p.answer.value, q.binding, q.answer.value); }
  }

  /**
  Once a call has returned a receipt, in every later state the respondent gets
  that receipt back, unchanged and without a write, for the same question and
  value, and is refused for any other body under that answer id.
  */
  lemma ReplayedForEver(run: seq<State>, n: nat, c: nat, receipt: Runs.Receipt,
                        r: Runs.Run, p: Runs.Principal, binding: Value, a: Runs.AnswerArgs, now: int)
    requires IsRun(run) && n < |run|
    requires var s := run[n];
      && Answered(s, c, receipt) && a.answerId == s.calls[c].op.answer.answerId
      && KeyOfOp(s.calls[c].op) in s.table.rows && s.table.rows[KeyOfOp(s.calls[c].op)].value == RunRec(r)
    requires WellFormed(binding) && p.userId == r.respondentId && Runs.TextOk(a.answerId, 200) && Runs.TextOk(a.value, 4096)
    ensures var op := run[n].calls[c].op;
      Runs.Answer(r, p, binding, a, now) ==
      if SameJson(op.binding, binding) && op.answer.value == a.value then Runs.Replayed(receipt) else Runs.Refused
  {
    hide IsRun, Inv, AllReplied, Runs.RunOk, Runs.HasReceipt, SameJson, Runs.Digest, WellFormed, Runs.Answer, Runs.TextOk;
    var s := run[n];
    Reachable(run, n);
    EveryReceiptRecorded(run, n);
    ReceiptInLatest(s, c, receipt);
    Runs.RecordedAnswer(r, receipt, p, binding, a, now);
    Runs.DigestDecides(s.calls[c].op.binding, s.calls[c].op.answer.value, binding, a.value);
  }
}
