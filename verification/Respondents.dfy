/**
Only the respondent answers: every receipt a call returns went to the run's own
respondent, of the tenant the Host serves.
*/
module Respondents {
  import opened Json
  import opened Documents
  import opened Executions
  import opened CasStore
  import opened Servers
  import opened Protocol
  import opened Invariants
  import opened Preservation
  import opened Decisions
  import opened Guarantees
  import opened Readability
  import Goals
  import Runs

  ghost predicate OfTenant(s: State, call: Call)
  {
    call.op.AnswerRun? && !call.pc.Begin? && !call.pc.Failed? ==>
      call.op.principal.tenantId == s.tenant && Get(call.op.binding, Runs.TENANT_ID) == Some(Str(s.tenant))
  }

  /** Whoever holds a receipt is the respondent of the run. */
  ghost predicate Entitled(history: map<Key, seq<Record>>, call: Call)
  {
    call.op.AnswerRun? && call.pc.Done? && call.pc.receipt.Some? ==>
      var k := KeyOfOp(call.op);
      k in history && history[k] != [] && history[k][0].RunRec? && history[k][0].run.respondentId == call.op.principal.userId
  }

  ghost predicate AllEntitled(s: State)
  {
    forall c :: c in s.calls ==> OfTenant(s, s.calls[c]) && Entitled(s.history, s.calls[c])
  }

  /** The respondent, like the rest of what a run was started with, never changes. */
  lemma {:induction false} SameRespondent(e: Evidence, k: Key, h: seq<Record>, i: nat)
    requires VersionsOk(e, k, h) && i < |h| && h[i].RunRec?
    ensures h[0].RunRec? && h[0].run.respondentId == h[i].run.respondentId && h[0].run.tenantId == h[i].run.tenantId
  {
    hide VersionOk, First, Runs.AsksNew, Runs.TicketsEvolve, Runs.PendingEvolves, Runs.Finished;
    if i > 0 {
      assert StepOk(e, h, i - 1);
      SameRespondent(e, k, h, i - 1);
    }
  }

  // ---------------------------------------------------------------------
  // What a step hands out
  // ---------------------------------------------------------------------

  ghost predicate HandsOut(eff: Effect)
  {
    (eff.Move? && eff.pc.Done? && eff.pc.receipt.Some?) || (eff.Save? && eff.next.Reply?)
  }

  /** Only an answer hands out a receipt, and only to the respondent of the run it loaded. */
  ghost predicate HandsToRespondent(call: Call, eff: Effect)
  {
    && (HandsOut(eff) && call.op.AnswerRun? ==>
          call.pc.Loaded? && call.pc.row.value.RunRec? && call.pc.row.value.run.respondentId == call.op.principal.userId)
    && (eff.Seen? ==> !(eff.pc.Done? && eff.pc.receipt.Some?))
    && (eff.Become? ==> !eff.op.AnswerRun?)
  }

  lemma LoadedHands(call: Call, row: Snapshot, o: Oracle)
    requires call.pc == Loaded(row)
    ensures HandsToRespondent(call, DecideLoaded(call.op, row, o))
  {
    hide Goals.ReserveStep, Goals.Resume, Goals.Pause, Goals.Cancel, Runs.Cancel, Runs.ChangeContext, Runs.Close, Runs.Last,
      Runs.TextOk, Runs.FindReceipt, Runs.Digest, Runs.Answerable, Runs.Chosen, Runs.NextInput, Runs.Consume;
  }

  lemma SightHands(call: Call, row: Snapshot, input: Input, sight: Sight, o: Oracle)
    ensures HandsToRespondent(call, DecideSight(row, input, sight, o))
  {
    hide ReadReport, Goals.SettleBtw, Runs.Reconcile, Goals.Settle, Goals.Block;
  }

  lemma BeginHands(s: State, call: Call, o: Oracle)
    ensures HandsToRespondent(call, DecideBegin(s, call.op, o))
    ensures var eff := DecideBegin(s, call.op, o);
      && (call.op.AnswerRun? ==> eff.Move? && (eff.pc.Failed? || OfTenant(s, call.(pc := eff.pc))))
      && (call.op.AnswerRun? ==> !eff.pc.Begin?)
  {
    hide Goals.Start, Runs.Start, Goals.ValidBtwArgs, Fetch;
  }

  lemma DecideHands(s: State, call: Call, o: Oracle)
    requires !call.pc.Done? && !call.pc.Failed?
    ensures HandsToRespondent(call, Decide(s, call, o))
  {
    hide Fetch, ReadOffer, DecideBegin, DecideLoaded, DecideSight, DecideJudged, Matches, Goals.ReserveBtw;
    match call.pc
    case Begin => BeginHands(s, call, o);
    case Loaded(row) => LoadedHands(call, row, o);
    case SecondLook(row, input, terminal) => SightHands(call, row, input, Observe(s.server, input, terminal), o);
    case Judging(row, _, decision) => JudgedHands(call, row, decision, o);
    case _ =>
  }

  lemma JudgedHands(call: Call, row: Snapshot, decision: Decision, o: Oracle)
    ensures HandsToRespondent(call, DecideJudged(row, decision, o))
  {
    hide Goals.Conclude, Goals.Settle, Goals.Block;
  }

  // ---------------------------------------------------------------------
  // Every step
  // ---------------------------------------------------------------------

  /** What a step may make of the call itself. */
  lemma AppliedCall(s: State, c: nat, call: Call, eff: Effect)
    requires HandsToRespondent(call, eff) && !call.pc.Done?
    ensures var u := Apply(s, c, call, eff);
      && c in u.calls && u.tenant == s.tenant
      && (u.calls[c].op.AnswerRun? ==> u.calls[c].op == call.op)
      && (u.calls[c].op.AnswerRun? && u.calls[c].pc.Done? && u.calls[c].pc.receipt.Some? ==> HandsOut(eff))
  {
    hide Commit, Book;
  }

  lemma ActEntitled(s: State, c: nat, o: Oracle)
    requires Inv(s) && AllEntitled(s) && c in s.calls && !s.calls[c].pc.Done? && !s.calls[c].pc.Failed?
    ensures AllEntitled(Act(s, c, o))
  {
    hide Inv, Decide, Apply, Entitled, OfTenant, HandsToRespondent, KeyOfOp, Later;
    var call := s.calls[c];
    var eff := Decide(s, call, o);
    DecideHands(s, call, o);
    AppliedCall(s, c, call, eff);
    ActLater(s, c, o);
    var u := Act(s, c, o);
    forall d | d in u.calls
      ensures OfTenant(u, u.calls[d]) && Entitled(u.history, u.calls[d])
    {
      if d == c {
        CallEntitled(s, c, o);
      } else {
        OthersSame(s, c, call, eff, d);
        EntitledStays(s, u, s.calls[d]);
      }
    }
  }

  lemma ActLater(s: State, c: nat, o: Oracle)
    requires Inv(s) && c in s.calls
    ensures Later(s, Act(s, c, o))
  {
    hide Decide, Apply, Later, HistoryOk, TableOk, SubmitsOk, AcceptedOk, CompletedOk, CallsOk, PairsOk;
    ApplyIsLater(s, c, s.calls[c], Decide(s, s.calls[c], o));
  }

  lemma EntitledStays(s: State, u: State, call: Call)
    requires Later(s, u) && OfTenant(s, call) && Entitled(s.history, call)
    ensures OfTenant(u, call) && Entitled(u.history, call)
  {
    hide KeyOfOp, Grows;
  }

  lemma CallEntitled(s: State, c: nat, o: Oracle)
    requires Inv(s) && AllEntitled(s) && c in s.calls && !s.calls[c].pc.Done? && !s.calls[c].pc.Failed?
    ensures var u := Act(s, c, o);
      c in u.calls && OfTenant(u, u.calls[c]) && Entitled(u.history, u.calls[c])
  {
    hide Inv, Decide, Apply, KeyOfOp, Later, HandsOut;
    var call := s.calls[c];
    var eff := Decide(s, call, o);
    DecideHands(s, call, o);
    AppliedCall(s, c, call, eff);
    ActLater(s, c, o);
    var u := Act(s, c, o);
    if u.calls[c].op.AnswerRun? {
      StaysTenant(s, c, call, o);
      if HandsOut(eff) {
        LoadedRespondent(s, c);
        RespondentStays(s, u, KeyOfOp(call.op), call.op.principal.userId);
      }
    }
  }

  lemma RespondentStays(s: State, u: State, k: Key, userId: Text)
    requires Later(s, u) && k in s.history && s.history[k] != [] && s.history[k][0].RunRec? && s.history[k][0].run.respondentId == userId
    ensures k in u.history && u.history[k] != [] && u.history[k][0].RunRec? && u.history[k][0].run.respondentId == userId
  {
    hide Grows;
  }

  lemma StaysTenant(s: State, c: nat, call: Call, o: Oracle)
    requires OfTenant(s, call) && !call.pc.Done? && !call.pc.Failed? && call.op.AnswerRun?
    requires var u := Apply(s, c, call, Decide(s, call, o)); c in u.calls && u.calls[c].op == call.op
    ensures var u := Apply(s, c, call, Decide(s, call, o));
      OfTenant(u, u.calls[c])
  {
    hide DecideBegin, DecideLoaded, DecideSight, DecideJudged, Fetch, ReadOffer, Matches, Commit, Book, Goals.ReserveBtw;
    if call.pc.Begin? { BeginHands(s, call, o); }
  }

  lemma LoadedRespondent(s: State, c: nat)
    requires Inv(s) && c in s.calls && s.calls[c].pc.Loaded? && s.calls[c].pc.row.value.RunRec?
    ensures var k, r := KeyOfOp(s.calls[c].op), s.calls[c].pc.row.value.run;
      k in s.history && s.history[k] != [] && s.history[k][0].RunRec? && s.history[k][0].run.respondentId == r.respondentId
  {
    hide KeyOfOp, TableOk, ReservedOk, SubmitsOk, AcceptedOk, CompletedOk, PairsOk, StopOk, RereadOk, VersionsOk;
    var k := KeyOfOp(s.calls[c].op);
    assert CallOk(Known(s), s.calls[c]);
    SameRespondent(Proof(s), k, s.history[k], s.calls[c].pc.row.revision);
  }

  lemma StepEntitled(s: State, a: Action)
    requires Inv(s) && AllEntitled(s)
    ensures AllEntitled(Step(s, a))
  {
    hide Act, Noted, Inv, IsNoted, JsonArguments, Grows;
    match a
    case Advance(c, o) =>
      if c in s.calls && !s.calls[c].pc.Done? && !s.calls[c].pc.Failed? {
        NotedKeeps(s, c, o);
        ActEntitled(Noted(s, s.calls[c], o), c, o);
      }
    case _ =>
  }

  lemma {:induction false} EntitledAlways(run: seq<State>, n: nat)
    requires IsRun(run) && n < |run|
    ensures AllEntitled(run[n])
  {
    hide Step, Inv, OfTenant, Entitled;
    if n > 0 {
      EntitledAlways(run, n - 1);
      Reachable(run, n - 1);
      assert MovesAt(run, n - 1);
      var a :| run[n] == Step(run[n - 1], a);
      StepEntitled(run[n - 1], a);
    }
  }

  /** Whoever got a receipt for an answer is a principal of the tenant and the respondent of every version of the run. */
  lemma OnlyRespondentAnswers(run: seq<State>, n: nat, c: nat, i: nat)
    requires IsRun(run) && n < |run| && c in run[n].calls && run[n].calls[c].op.AnswerRun?
    requires run[n].calls[c].pc.Done? && run[n].calls[c].pc.receipt.Some?
    ensures var k, p := KeyOfOp(run[n].calls[c].op), run[n].calls[c].op.principal;
      && k in run[n].history && p.tenantId == run[n].tenant
      && (i < |run[n].history[k]| && run[n].history[k][i].RunRec? ==> run[n].history[k][i].run.respondentId == p.userId)
  {
    hide IsRun, KeyOfOp, TableOk, ReservedOk, SubmitsOk, AcceptedOk, CompletedOk, PairsOk, CallsOk, VersionsOk;
    var s := run[n];
    EntitledAlways(run, n);
    Reachable(run, n);
    assert OfTenant(s, s.calls[c]) && Entitled(s.history, s.calls[c]);
    var k := KeyOfOp(s.calls[c].op);
    if i < |s.history[k]| && s.history[k][i].RunRec? { SameRespondent(Proof(s), k, s.history[k], i); }
  }
}
