/**
Every receipt belongs to the question it answered: its binding is the binding of
the ticket that carries it, in every version of every run.
*/
module Questions {
  import opened Json
  import opened Documents
  import opened Executions
  import opened CasStore
  import opened Servers
  import opened Protocol
  import opened Invariants
  import opened Preservation
  import opened Decisions
  import opened Guarantees
  import opened Readability
  import Goals
  import Runs

  // ---------------------------------------------------------------------
  // Signed tickets
  // ---------------------------------------------------------------------

  /** The receipt is a digest of some answer to the question of this binding. */
  ghost predicate Signed(binding: Runs.Binding, receipt: Runs.Receipt)
  {
    && WellFormed(receipt.binding)
    && Canonical(Runs.BindingJson(binding)) == Canonical(receipt.binding)
    && exists v :: receipt.digest == Runs.Digest(receipt.binding, v)
  }

  ghost predicate TicketSigned(t: Runs.Ticket)
  {
    t.receipt.Some? ==> Signed(t.binding, t.receipt.value)
  }

  ghost predicate AllSigned(ts: seq<Runs.Ticket>)
  {
    forall i :: 0 <= i < |ts| ==> TicketSigned(ts[i])
  }

  ghost predicate RecordSigned(r: Record)
  {
    r.RunRec? ==> AllSigned(r.run.tickets)
  }

  ghost predicate HistorySigned(history: map<Key, seq<Record>>)
  {
    forall k, i :: k in history && 0 <= i < |history[k]| ==> RecordSigned(history[k][i])
  }

  // ---------------------------------------------------------------------
  // What a call writes is signed
  // ---------------------------------------------------------------------

  lemma AnswerSigns(r: Runs.Run, p: Runs.Principal, binding: Value, a: Runs.AnswerArgs, now: int)
    requires AllSigned(r.tickets) && WellFormed(binding) && Runs.Answer(r, p, binding, a, now).Accepted?
    ensures AllSigned(Runs.Answer(r, p, binding, a, now).run.tickets)
  {
    hide WellFormed, Canonical, Runs.BindingJson, Runs.Digest, Runs.NextInput, Runs.Chosen, Runs.FindReceipt, Runs.TextOk;
    var out := Runs.Answer(r, p, binding, a, now);
    assert out.receipt.digest == Runs.Digest(out.receipt.binding, a.value);
    assert TicketSigned(Runs.Last(out.run));
  }

  lemma CloseSigns(r: Runs.Run, why: Runs.Closing)
    requires AllSigned(r.tickets)
    ensures AllSigned(Runs.Close(r, why).tickets)
  {
    hide Signed;
  }

  lemma ReconcileSigns(r: Runs.Run, seen: Observed, now: int, questionId: Text)
    requires AllSigned(r.tickets) && r.pending.Some? && Runs.Reconcile(r, seen, now, questionId).Ok?
    ensures AllSigned(Runs.Reconcile(r, seen, now, questionId).value.tickets)
  {
    hide Signed, Runs.CD.ParseClarification;
  }

  lemma DeliveredSigns(r: Runs.Run)
    requires AllSigned(r.tickets) && r.tickets != []
    ensures AllSigned(Runs.MarkDelivered(r).tickets)
  {
    hide Signed;
  }

  ghost predicate SavesSigned(eff: Effect)
  {
    eff.Save? ==> RecordSigned(eff.value)
  }

  lemma RunSigns(op: Op, row: Snapshot, r: Runs.Run, o: Oracle)
    requires AllSigned(r.tickets) && JsonArguments(op)
    ensures SavesSigned(DecideRun(op, row, r, o))
  {
    hide TicketSigned, WellFormed, Runs.Answer, Runs.Close, Runs.Due, Runs.TextOk;
    match op
    case AnswerRun(p, binding, a) => if Runs.Answer(r, p, binding, a, o.now).Accepted? { AnswerSigns(r, p, binding, a, o.now); }
    case CancelRun(_, _) => CloseSigns(r, Runs.ByCancel);
    case ChangeContext(_, _, next) => CloseSigns(r.(contextRevision := next), Runs.ByContext);
    case TickRun(_, _) => CloseSigns(r, Runs.ByExpiry);
    case _ =>
  }

  lemma LoadedSigns(op: Op, row: Snapshot, o: Oracle)
    requires RecordSigned(row.value) && JsonArguments(op)
    ensures SavesSigned(DecideLoaded(op, row, o))
  {
    hide AllSigned, JsonArguments, DecideRun, Goals.ReserveStep, Goals.Resume, Goals.Pause, Goals.Cancel;
    if row.value.RunRec? { RunSigns(op, row, row.value.run, o); }
  }

  lemma SightSigns(row: Snapshot, input: Input, sight: Sight, o: Oracle)
    requires RecordSigned(row.value)
    ensures SavesSigned(DecideSight(row, input, sight, o))
  {
    hide AllSigned, ReadReport, Goals.SettleBtw, Runs.Reconcile;
    if sight.Sees? && row.value.RunRec? && row.value.run.pending.Some? {
      if Runs.Reconcile(row.value.run, sight.what, o.now, o.freshId).Ok? {
        ReconcileSigns(row.value.run, sight.what, o.now, o.freshId);
      }
    }
  }

  lemma BeginSigns(s: State, op: Op, o: Oracle)
    ensures SavesSigned(DecideBegin(s, op, o))
  {
    hide ValidTarget, Blank, Goals.Start, Runs.NextInput, Fetch, Goals.ValidBtwArgs;
  }

  lemma DecideSigns(s: State, call: Call, o: Oracle)
    requires JsonArguments(call.op) && (RowOf(call.pc).Some? ==> RecordSigned(RowOf(call.pc).value.value))
    ensures SavesSigned(Decide(s, call, o))
  {
    hide AllSigned, JsonArguments, Fetch, ReadOffer, DecideBegin, DecideLoaded, DecideSight, Matches, Goals.ReserveBtw, Goals.Conclude;
    match call.pc
    case Begin => BeginSigns(s, call.op, o);
    case Loaded(row) => LoadedSigns(call.op, row, o);
    case SecondLook(row, input, terminal) => SightSigns(row, input, Observe(s.server, input, terminal), o);
    case Acknowledging(row) => if row.value.RunRec? && row.value.run.tickets != [] { DeliveredSigns(row.value.run); }
    case _ =>
  }

  // ---------------------------------------------------------------------
  // Every version of every run
  // ---------------------------------------------------------------------

  lemma ActSigned(s: State, c: nat, o: Oracle)
    requires Inv(s) && AllGood(s) && HistorySigned(s.history) && c in s.calls
    ensures HistorySigned(Act(s, c, o).history)
  {
    hide Decide, Apply, DataOk, PairsOk, CallOk, RecordSigned, Good, JsonArguments, Goals.ValidBtwArgs;
    var call := s.calls[c];
    assert CallOk(Known(s), call) && PcGood(call);
    if RowOf(call.pc).Some? { RowIsSnap(Known(s), call); }
    DecideSigns(s, call, o);
    ApplyHistory(s, c, call, Decide(s, call, o));
  }

  lemma StepSigned(s: State, a: Action)
    requires Inv(s) && AllGood(s) && HistorySigned(s.history)
    ensures HistorySigned(Step(s, a).history)
  {
    hide Act, DataOk, CallsOk, PairsOk, IsNoted, RecordSigned, Good, PcGood;
    if a.Advance? && Live(s, a.c) {
      NotedKeeps(s, a.c, a.o);
      ActSigned(Noted(s, s.calls[a.c], a.o), a.c, a.o);
    }
  }

  lemma {:induction false} ReceiptsAreSigned(run: seq<State>, n: nat)
    requires IsRun(run) && n < |run|
    ensures HistorySigned(run[n].history)
  {
    hide Step, Inv, AllGood, RecordSigned;
    if n > 0 {
      ReceiptsAreSigned(run, n - 1);
      Reachable(run, n - 1);
      GoodAlways(run, n - 1);
      assert MovesAt(run, n - 1);
      var a :| run[n] == Step(run[n - 1], a);
      StepSigned(run[n - 1], a);
    }
  }

  // ---------------------------------------------------------------------
  // One receipt per question
  // ---------------------------------------------------------------------

  /** A binding shows its generation. */
  lemma GenerationShows(a: Runs.Binding, b: Runs.Binding)
    requires SameJson(Runs.BindingJson(a), Runs.BindingJson(b))
    ensures a.generation == b.generation
  {
    hide WellFormed;
    var x, y := Runs.BindingJson(a).members, Runs.BindingJson(b).members;
    Runs.BindingWellFormed(b);
    GenerationMember(a);
    GenerationMember(b);
    assert HasSame(x[4], y);
    var j :| 0 <= j < |y| && x[4].key == y[j].key && SameJson(x[4].val, y[j].val);
    SameKeySameMember(y, 4, j);
  }

  lemma GenerationMember(b: Runs.Binding)
    ensures |Runs.BindingJson(b).members| == 12 && Runs.BindingJson(b).members[4] == Member(Runs.GENERATION, Num(b.generation))
  {
  }

  lemma SameKeySameMember(ms: seq<Member>, i: nat, j: nat)
    requires WellFormed(Obj(ms)) && i < |ms| && j < |ms| && ms[i].key == ms[j].key
    ensures i == j
  {
  }

  /** Two receipts of one run whose digests are of answers to the same question are one receipt. */
  lemma OneReceiptPerQuestion(r: Runs.Run, x: Runs.Receipt, y: Runs.Receipt, b: Value, v: Text, c: Value, w: Text)
    requires Runs.RunOk(r) && AllSigned(r.tickets) && Runs.HasReceipt(r, x) && Runs.HasReceipt(r, y)
    requires WellFormed(b) && WellFormed(c) && x.digest == Runs.Digest(b, v) && y.digest == Runs.Digest(c, w) && SameJson(b, c)
    ensures x == y
  {
    hide Runs.RunOk, WellFormed, SameJson, Canonical, Runs.Digest, Runs.BindingJson, Signed;
    var i :| 0 <= i < |r.tickets| && r.tickets[i].receipt == Some(x);
    var j :| 0 <= j < |r.tickets| && r.tickets[j].receipt == Some(y);
    assert TicketSigned(r.tickets[i]) && TicketSigned(r.tickets[j]);
    AnswersItsTicket(r.tickets[i].binding, x, b, v);
    AnswersItsTicket(r.tickets[j].binding, y, c, w);
    CanonicalDecidesEquality(b, c);
    Runs.BindingWellFormed(r.tickets[i].binding);
    Runs.BindingWellFormed(r.tickets[j].binding);
    CanonicalDecidesEquality(Runs.BindingJson(r.tickets[i].binding), Runs.BindingJson(r.tickets[j].binding));
    GenerationShows(r.tickets[i].binding, r.tickets[j].binding);
    Runs.RunShape(r);
  }

  /** An answer with the digest of a signed receipt is an answer to that ticket's question. */
  lemma AnswersItsTicket(binding: Runs.Binding, receipt: Runs.Receipt, b: Value, v: Text)
    requires Signed(binding, receipt) && WellFormed(b) && receipt.digest == Runs.Digest(b, v)
    ensures Canonical(Runs.BindingJson(binding)) == Canonical(b)
  {
    hide WellFormed, SameJson, Canonical, Runs.Digest, Runs.BindingJson;
    var u :| receipt.digest == Runs.Digest(receipt.binding, u);
    Runs.DigestDecides(receipt.binding, u, b, v);
    CanonicalDecidesEquality(receipt.binding, b);
  }
}
