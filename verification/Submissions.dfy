/**
At most once: as long as nobody recovers, no task is submitted twice, however
many senders race for it.
*/
module Submissions {
  import opened Json
  import opened Documents
  import opened Executions
  import opened CasStore
  import opened Servers
  import opened Protocol
  import opened Invariants
  import opened Preservation
  import opened Decisions
  import opened Guarantees
  import opened Readability
  import opened Ownership
  import Goals
  import Runs

  /** The version a sender marked as being sent, and may submit. */
  datatype Claim = Claim(key: Key, revision: int)

  function ClaimOf(call: Call): Option<Claim>
  {
    match call.pc
    case Verify(_, at) => Some(Claim(KeyOfOp(call.op), at))
    case Recheck(_, at) => Some(Claim(KeyOfOp(call.op), at))
    case Submitting(_, at) => Some(Claim(KeyOfOp(call.op), at))
    case _ => None
  }

  function ClaimOfSubmission(sub: Submission): Claim
  {
    Claim(sub.key, sub.revision)
  }

  /** This version is the first that says its execution is being sent. */
  ghost predicate FirstSent(history: map<Key, seq<Record>>, c: Claim)
  {
    && c.key in history && 0 < c.revision < |history[c.key]|
    && PendingOf(history[c.key][c.revision - 1]).Some? && PendingOf(history[c.key][c.revision - 1]).value.phase.Reserved?
    && PendingOf(history[c.key][c.revision]) == Some(PendingOf(history[c.key][c.revision - 1]).value.(phase := Sending))
  }

  ghost predicate CallClaims(s: State)
  {
    && (forall c :: c in s.calls && ClaimOf(s.calls[c]).Some? ==> FirstSent(s.history, ClaimOf(s.calls[c]).value))
    && (forall c, d :: c in s.calls && d in s.calls && c != d && ClaimOf(s.calls[c]).Some? ==> ClaimOf(s.calls[c]) != ClaimOf(s.calls[d]))
  }

  ghost predicate SubmitClaims(s: State)
  {
    && (forall i :: 0 <= i < |s.submits| ==> FirstSent(s.history, ClaimOfSubmission(s.submits[i])))
    && (forall i, j :: 0 <= i < j < |s.submits| ==> ClaimOfSubmission(s.submits[i]) != ClaimOfSubmission(s.submits[j]))
    && (forall c, i :: c in s.calls && 0 <= i < |s.submits| ==> ClaimOf(s.calls[c]) != Some(ClaimOfSubmission(s.submits[i])))
  }

  ghost predicate Claims(s: State)
  {
    CallClaims(s) && SubmitClaims(s)
  }

  ghost predicate NobodyRecovers(s: State)
  {
    forall c :: c in s.calls && s.calls[c].op.Send? ==> !s.calls[c].op.recovery
  }

  // ---------------------------------------------------------------------
  // What a step does to the claims
  // ---------------------------------------------------------------------

  /** Without recovery a call only gains a claim by marking a reserved execution; otherwise it keeps its claim or gives it up. */
  ghost predicate Claiming(call: Call, eff: Effect)
  {
    match eff
    case Move(pc) => ClaimOf(call.(pc := pc)).Some? ==> ClaimOf(call.(pc := pc)) == ClaimOf(call)
    case Seen(_, pc) => ClaimOf(call.(pc := pc)).None?
    case Submit(input, at) => ClaimOf(call) == Some(Claim(KeyOfOp(call.op), at))
    case Save(expected, v, _, next) =>
      next.VerifySaved? ==>
        && call.pc.Loaded? && expected == Some(call.pc.row.revision) && PendingOf(call.pc.row.value).Some?
        && PendingOf(call.pc.row.value).value.phase.Reserved?
        && PendingOf(v) == Some(PendingOf(call.pc.row.value).value.(phase := Sending))
    case _ => true
  }

  lemma LoadedClaims(call: Call, row: Snapshot, o: Oracle)
    requires call.pc == Loaded(row) && (call.op.Send? ==> !call.op.recovery)
    ensures Claiming(call, DecideLoaded(call.op, row, o))
  {
    hide KeyOfOp, Goals.ReserveStep, Goals.Resume, Goals.Pause, Goals.Cancel, Goals.Expire,
      Runs.Answer, Runs.Cancel, Runs.ChangeContext, Runs.Close, Runs.Last, Runs.Due;
  }

  lemma SightClaims(call: Call, row: Snapshot, input: Input, sight: Sight, o: Oracle)
    ensures Claiming(call, DecideSight(row, input, sight, o))
  {
    hide KeyOfOp, ReadReport, Goals.SettleBtw, Runs.Reconcile, Goals.Settle, Goals.Block;
  }

  lemma BeginClaims(s: State, call: Call, o: Oracle)
    ensures Claiming(call, DecideBegin(s, call.op, o))
  {
    hide KeyOfOp, Goals.Start, Runs.Start, Goals.ValidBtwArgs, Fetch;
  }

  lemma DecideClaims(s: State, call: Call, o: Oracle)
    requires (call.op.Send? ==> !call.op.recovery) && !call.pc.Done? && !call.pc.Failed?
    ensures Claiming(call, Decide(s, call, o))
  {
    hide KeyOfOp, Fetch, ReadOffer, DecideBegin, DecideLoaded, DecideSight, DecideJudged, Matches, Goals.ReserveBtw;
    match call.pc
    case Begin => BeginClaims(s, call, o);
    case Loaded(row) => LoadedClaims(call, row, o);
    case SecondLook(row, input, terminal) => SightClaims(call, row, input, Observe(s.server, input, terminal), o);
    case Judging(row, _, decision) => JudgedClaims(call, row, decision, o);
    case _ =>
  }

  lemma JudgedClaims(call: Call, row: Snapshot, decision: Decision, o: Oracle)
    ensures Claiming(call, DecideJudged(row, decision, o))
  {
    hide KeyOfOp, Goals.Conclude, Goals.Settle, Goals.Block;
  }

  lemma FirstStays(a: map<Key, seq<Record>>, b: map<Key, seq<Record>>, c: Claim)
    requires Longer(a, b) && FirstSent(a, c)
    ensures FirstSent(b, c)
  {
    hide PendingOf;
  }

  /** One call moves on, and claims at most what it claimed. */
  lemma KeepsClaims(s: State, u: State, c: nat, call: Call)
    requires Claims(s) && u.history == s.history && u.submits == s.submits && u.calls == s.calls[c := call]
    requires ClaimOf(call).None? || (c in s.calls && ClaimOf(call) == ClaimOf(s.calls[c]))
    ensures Claims(u)
  {
    hide ClaimOf, FirstSent;
  }

  lemma SubmittedClaims(s: State, u: State, c: nat, call: Call, sub: Submission)
    requires Claims(s) && c in s.calls && u.history == s.history && u.submits == s.submits + [sub] && u.calls == s.calls[c := call]
    requires ClaimOf(s.calls[c]) == Some(ClaimOfSubmission(sub)) && ClaimOf(call).None?
    ensures Claims(u)
  {
    hide ClaimOf, FirstSent, ClaimOfSubmission;
    assert CallClaims(u);
    assert SubmitClaims(u);
  }

  /** A write that leaves the call with no claim, or with that of the version it wrote. */
  lemma SavedClaims(s: State, u: State, c: nat, call: Call, k: Key, v: Record)
    requires Claims(s) && c in s.calls && u.submits == s.submits && u.calls == s.calls[c := call]
    requires u.history == s.history[k := Past(s.history, k) + [v]]
    requires ClaimOf(call).None? || (ClaimOf(call) == Some(Claim(k, |Past(s.history, k)|)) && FirstSent(u.history, Claim(k, |Past(s.history, k)|)))
    ensures Claims(u)
  {
    hide ClaimOf, PendingOf;
    assert Longer(s.history, u.history);
    forall d | d in s.calls && ClaimOf(s.calls[d]).Some?
      ensures FirstSent(u.history, ClaimOf(s.calls[d]).value) && ClaimOf(s.calls[d]) != Some(Claim(k, |Past(s.history, k)|))
    {
      FirstStays(s.history, u.history, ClaimOf(s.calls[d]).value);
    }
    forall i | 0 <= i < |s.submits|
      ensures FirstSent(u.history, ClaimOfSubmission(s.submits[i])) && ClaimOfSubmission(s.submits[i]) != Claim(k, |Past(s.history, k)|)
    {
      FirstStays(s.history, u.history, ClaimOfSubmission(s.submits[i]));
    }
    hide FirstSent, ClaimOfSubmission, Past;
    assert CallClaims(u);
    assert SubmitClaims(u);
  }

  lemma SaveClaims(s: State, c: nat, call: Call, eff: Effect)
    requires Inv(s) && Claims(s) && c in s.calls && s.calls[c] == call && eff.Save? && Claiming(call, eff)
    ensures Claims(SaveStep(s, c, call, eff))
  {
    hide Inv, Claims, FirstSent, KeyOfOp, PendingOf, Book, IsWaiting, WaitingOthers, Past;
    var u, k := SaveStep(s, c, call, eff), KeyOfOp(call.op);
    if u.table == s.table && u.history == s.history {
      KeepsClaims(s, u, c, u.calls[c]);
    } else {
      if eff.next.VerifySaved? { NewClaim(s, c, call, eff); }
      SavedClaims(s, u, c, u.calls[c], k, eff.value);
    }
  }

  lemma NewClaim(s: State, c: nat, call: Call, eff: Effect)
    requires Inv(s) && c in s.calls && s.calls[c] == call && eff.Save? && Claiming(call, eff) && eff.next.VerifySaved?
    requires Commit(s.table, Some(s.cap), KeyOfOp(call.op), eff.expected, eff.value, IsWaiting(eff.value), eff.newId).1.Saved?
    ensures var u, k := SaveStep(s, c, call, eff), KeyOfOp(call.op);
      && ClaimOf(u.calls[c]) == Some(Claim(k, |Past(s.history, k)|)) && FirstSent(u.history, Claim(k, |Past(s.history, k)|))
  {
    hide KeyOfOp, PendingOf, Book, IsWaiting, WaitingOthers, HistoryOk, ReservedOk, SubmitsOk, AcceptedOk, CompletedOk, PairsOk, StopOk, RereadOk;
    var k := KeyOfOp(call.op);
    assert CallOk(Known(s), call);
    assert Snap(s.history, k, call.pc.row);
    assert RowOk(s.table.rows[k], s.history[k]);
  }

  lemma ActClaims(s: State, c: nat, o: Oracle)
    requires Inv(s) && Claims(s) && NobodyRecovers(s) && c in s.calls && !s.calls[c].pc.Done? && !s.calls[c].pc.Failed?
    ensures Claims(Act(s, c, o))
  {
    hide Inv, Claims, Decide, KeyOfOp, SaveStep;
    var call := s.calls[c];
    var eff := Decide(s, call, o);
    DecideClaims(s, call, o);
    var u := Act(s, c, o);
    match eff
    case Save(_, _, _, _) => SaveClaims(s, c, call, eff);
    case Submit(input, at) => SubmittedClaims(s, u, c, u.calls[c], Submission(KeyOfOp(call.op), at, input));
    case _ => KeepsClaims(s, u, c, u.calls[c]);
  }

  lemma StepClaims(s: State, a: Action)
    requires Inv(s) && Claims(s) && NobodyRecovers(s)
    ensures Claims(Step(s, a))
  {
    hide Act, Noted, Inv, IsNoted, JsonArguments, Grows, Claims;
    match a
    case Advance(c, o) =>
      if c in s.calls && !s.calls[c].pc.Done? && !s.calls[c].pc.Failed? {
        NotedKeeps(s, c, o);
        var n := Noted(s, s.calls[c], o);
        SameClaims(s, n);
        ActClaims(n, c, o);
      }
    case World(server) => SameClaims(s, Step(s, a));
    case Invoke(c, op) => if Step(s, a) != s { KeepsClaims(s, Step(s, a), c, NewCall(op)); }
    case Crash(c) => if Step(s, a) != s { KeepsClaims(s, Step(s, a), c, s.calls[c].(pc := Failed)); }
  }

  lemma SameClaims(s: State, u: State)
    requires Claims(s) && u.history == s.history && u.submits == s.submits && u.calls == s.calls
    ensures Claims(u)
  {
    hide ClaimOf, FirstSent, ClaimOfSubmission;
  }

  ghost predicate WithoutRecovery(run: seq<State>)
  {
    forall i :: 0 <= i < |run| ==> NobodyRecovers(run[i])
  }

  lemma {:induction false} AlwaysClaims(run: seq<State>, n: nat)
    requires IsRun(run) && n < |run| && WithoutRecovery(run)
    ensures Claims(run[n])
  {
    hide Step, Inv, NobodyRecovers, ClaimOf, FirstSent, ClaimOfSubmission;
    if n > 0 {
      AlwaysClaims(run, n - 1);
      Reachable(run, n - 1);
      assert MovesAt(run, n - 1);
      var a :| run[n] == Step(run[n - 1], a);
      StepClaims(run[n - 1], a);
    }
  }

  // ---------------------------------------------------------------------
  // At most once
  // ---------------------------------------------------------------------

  /** What is being sent is being sent for as long as it is held. */
  lemma {:induction false} SendingStays(e: Evidence, k: Key, h: seq<Record>, i: nat, j: nat, input: Input)
    requires VersionsOk(e, k, h) && i <= j < |h| && PendingOf(h[i]) == Some(Pending(input, Sending))
    requires forall m :: i <= m <= j ==> HasInput(h[m], input)
    ensures PendingOf(h[j]) == Some(Pending(input, Sending))
  {
    hide VersionOk, First;
    if i < j {
      SendingStays(e, k, h, i, j - 1, input);
      assert StepOk(e, h, j - 1);
      PhaseStays(e, h[j - 1], h[j], input);
    }
  }

  lemma PhaseStays(e: Evidence, a: Record, b: Record, input: Input)
    requires Evolves(e, a, b) && PendingOf(a) == Some(Pending(input, Sending)) && HasInput(b, input)
    ensures PendingOf(b) == Some(Pending(input, Sending))
  {
    hide Goals.Earned, Runs.AsksNew, Runs.TicketsEvolve, Runs.Finished;
  }

  /** So a task is first sent by one version only. */
  lemma OneClaim(s: State, a: Claim, b: Claim, t: Text)
    requires DataOk(s) && FirstSent(s.history, a) && FirstSent(s.history, b) && a.key == b.key && a.revision < b.revision
    ensures Holds(s.history[a.key][a.revision], t) ==> !Holds(s.history[b.key][b.revision], t)
  {
    hide TableOk, SubmitsOk, AcceptedOk, CompletedOk, VersionsOk;
    var k, h := a.key, s.history[a.key];
    Guarantees.Bound(s, k, a.revision);
    Guarantees.Bound(s, k, b.revision);
    if Holds(h[a.revision], t) && Holds(h[b.revision], t) {
      var input := PendingOf(h[a.revision]).value.input;
      assert HasInput(h[b.revision - 1], input);
      SendingStays(Proof(s), k, h, a.revision, b.revision - 1, input);
    }
  }

  /** As long as nobody recovers, two submissions are never of one task. */
  lemma SubmittedOnce(run: seq<State>, n: nat, i: nat, j: nat)
    requires IsRun(run) && n < |run| && WithoutRecovery(run) && i < j < |run[n].submits|
    ensures run[n].submits[i].input.taskId != run[n].submits[j].input.taskId
  {
    hide IsRun, WithoutRecovery, FirstSent, CallsOk, PairsOk, CallClaims, TableOk, HistoryOk, ReservedOk, CompletedOk, AcceptedOk;
    var s := run[n];
    AlwaysClaims(run, n);
    Reachable(run, n);
    SubmissionIsBound(run, n, i);
    SubmissionIsBound(run, n, j);
    var a, b := ClaimOfSubmission(s.submits[i]), ClaimOfSubmission(s.submits[j]);
    var t := s.submits[i].input.taskId;
    if t == s.submits[j].input.taskId {
      if a.revision < b.revision { OneClaim(s, a, b, t); } else { OneClaim(s, b, a, t); }
    }
  }
}
