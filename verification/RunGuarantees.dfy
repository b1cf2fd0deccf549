/**
What holds of a clarification run over whole runs of the system: its shape, its
stopped states, and answers that count exactly once.
*/
module RunGuarantees {
  import opened Json
  import opened Documents
  import opened Executions
  import opened CasStore
  import opened Servers
  import opened Protocol
  import opened Invariants
  import opened Preservation
  import opened Decisions
  import opened Guarantees
  import opened GoalGuarantees
  import Goals
  import Runs

  ghost predicate RunVersion(s: State, id: Text, i: nat, r: Runs.Run)
  {
    var k := Key(RunKind, id);
    k in s.history && i < |s.history[k]| && s.history[k][i] == RunRec(r)
  }

  lemma VersionIsOk(run: seq<State>, n: nat, id: Text, i: nat, r: Runs.Run)
    requires IsRun(run) && n < |run|
    requires RunVersion(run[n], id, i, r)
    ensures Runs.RunOk(r)
  {
    hide IsRun, CallsOk, PairsOk, ReservedOk, SubmitsOk, StepOk, Runs.RunOk;
    var s := run[n];
    Reachable(run, n);
    var k := Key(RunKind, id);
    assert VersionsOk(Proof(s), k, s.history[k]);
    assert VersionOk(k, s.history[k][i]);
  }

  /** Every version of every run has the shape of a run. */
  lemma ShapeAlways(run: seq<State>, n: nat, id: Text, i: nat, r: Runs.Run)
    requires IsRun(run) && n < |run|
    requires RunVersion(run[n], id, i, r)
    ensures r.generation == 1 + Runs.CountAnswered(r.tickets) <= r.maxExecutions
    ensures forall j :: 0 <= j < |r.tickets| ==> r.tickets[j].binding.generation == j + 1
    ensures r.status.WaitingInput? <==> r.tickets != [] && Runs.Last(r).state.Open?
    ensures r.status.WaitingInput? ==>
      r.pending.None? && Runs.Last(r).binding.generation == r.generation && Runs.Last(r).binding.contextRevision == r.contextRevision
  {
    hide IsRun, Runs.RunOk;
    VersionIsOk(run, n, id, i, r);
    Runs.RunShape(r);
  }

  // ---------------------------------------------------------------------
  // Stopped runs
  // ---------------------------------------------------------------------

  lemma {:induction false} StoppedRunStays(e: Evidence, k: Key, h: seq<Record>, i: nat, j: nat, a: Runs.Run)
    requires VersionsOk(e, k, h) && i <= j < |h| && h[i] == RunRec(a) && Runs.Stopped(a)
    ensures h[j].RunRec? && Runs.Stopped(h[j].run) && (h[j].run.status == a.status || h[j].run.status.Cancelled?)
    ensures h[j].run.pending == a.pending && h[j].run.tickets == a.tickets && h[j].run.generation == a.generation
    ensures a.status.Complete? ==> i == j
  {
    hide RecordOk, Runs.AsksNew, Runs.TicketsEvolve, Runs.Finished;
    if i < j {
      StoppedRunStays(e, k, h, i, j - 1, a);
      assert StepOk(e, h, j - 1);
    }
  }

  /**
  A stopped run stays stopped, with the same execution, the same questions and
  the same generation; at most it is relabelled as cancelled. A complete run is
  never even written again.
  */
  lemma StoppedForEver(run: seq<State>, n: nat, id: Text, i: nat, j: nat, a: Runs.Run, b: Runs.Run)
    requires IsRun(run) && n < |run|
    requires var s := run[n]; RunVersion(s, id, i, a) && RunVersion(s, id, j, b) && i <= j
    requires Runs.Stopped(a)
    ensures Runs.Stopped(b) && (b.status == a.status || b.status.Cancelled?)
    ensures b.pending == a.pending && b.tickets == a.tickets && b.generation == a.generation
    ensures a.status.Complete? ==> i == j
  {
    hide IsRun, VersionsOk, CallsOk, PairsOk, ReservedOk, SubmitsOk;
    var s := run[n];
    Reachable(run, n);
    var k := Key(RunKind, id);
    assert VersionsOk(Proof(s), k, s.history[k]);
    StoppedRunStays(Proof(s), k, s.history[k], i, j, a);
  }

  /** A run completes only on the device's own completion, seen uncancelled, whose document says that it is done. */
  lemma CompletionIsReported(run: seq<State>, n: nat, id: Text, i: nat, r: Runs.Run)
    requires IsRun(run) && n < |run| && RunVersion(run[n], id, i, r) && r.status.Complete?
    ensures var s := run[n];
      && i > 0 && PendingOf(s.history[Key(RunKind, id)][i - 1]).Some?
      && var t := PendingOf(s.history[Key(RunKind, id)][i - 1]).value.input.taskId;
      && Runs.Finished(Proof(s), t)
      && exists m :: 0 <= m < n && SeenUncancelled(run[m], t, s.completed[t])
  {
    hide IsRun, CallsOk, PairsOk, ReservedOk, SubmitsOk, SeenUncancelled, Runs.CD.ParseClarification, Runs.AsksNew, Runs.TicketsEvolve;
    var s := run[n];
    Reachable(run, n);
    var k := Key(RunKind, id);
    var h := s.history[k];
    assert VersionsOk(Proof(s), k, h);
    if i > 0 {
      assert StepOk(Proof(s), h, i - 1);
      assert VersionOk(k, h[i - 1]);
      CompletionWasSeen(run, n, PendingOf(h[i - 1]).value.input.taskId);
    }
  }

  /** A new answer is accepted strictly before its question expires, and no question outlives its run. */
  lemma AnsweredInTime(run: seq<State>, n: nat, id: Text, i: nat, r: Runs.Run,
                       p: Runs.Principal, binding: Value, a: Runs.AnswerArgs, now: int)
    requires IsRun(run) && n < |run|
    requires RunVersion(run[n], id, i, r) && Runs.Answer(r, p, binding, a, now).Accepted?
    ensures r.tickets != [] && now < Runs.Last(r).expiresAt <= r.deadline
  {
    hide IsRun, Runs.Answer;
    VersionIsOk(run, n, id, i, r);
    Runs.AnswerAccepts(r, p, binding, a, now);
    assert Runs.TicketOk(Runs.Last(r), |r.tickets| - 1, r.deadline);
  }

  /** What the clock and a stop allow a write that makes `b` of the snapshot, or of nothing. */
  ghost predicate RunTimely(op: Op, base: Option<Snapshot>, b: Runs.Run, now: int)
  {
    if base.None? then now < b.deadline && b.tickets == []
    else base.value.value.RunRec? && RunMoves(op, base.value.value.run, b, now)
  }

  ghost predicate RunMoves(op: Op, r: Runs.Run, b: Runs.Run, now: int)
  {
    && (Sends(r.pending, b.pending) ==> now < r.deadline && !Runs.Stopped(r))
    && (b.status.Expired? && !r.status.Expired? ==>
          !Runs.Stopped(r) && (r.deadline <= now || (r.status.WaitingInput? && r.tickets != [] && Runs.Last(r).expiresAt <= now)))
    && (r.pending.None? && b.pending.Some? ==> op.AnswerRun? && r.tickets != [] && now < Runs.Last(r).expiresAt)
    && (|b.tickets| > |r.tickets| ==> SafeTime(now) && Runs.Last(b).expiresAt == Runs.Min(r.deadline, now + r.questionTtlMs))
    && (Runs.Stopped(r) ==> op.CancelRun?)
  }

  lemma LoadedOnTime(op: Op, row: Snapshot, r: Runs.Run, o: Oracle)
    ensures var eff := DecideRun(op, row, r, o);
      eff.Save? ==> eff.value.RunRec? && RunMoves(op, r, eff.value.run, o.now)
  {
    hide Runs.Digest, Runs.NextInput, Runs.Chosen, Runs.FindReceipt, Canonical, Runs.TextOk;
  }

  lemma SightOnTime(op: Op, row: Snapshot, input: Input, sight: Sight, o: Oracle)
    requires row.value.RunRec? ==> !Runs.Stopped(row.value.run)
    ensures var eff := DecideSight(row, input, sight, o);
      eff.Save? && eff.value.RunRec? ==> RunTimely(op, Some(row), eff.value.run, o.now)
  {
    hide ReadReport, Goals.SettleBtw, Runs.CD.ParseClarification;
  }

  lemma OthersKeepKind(op: Op, row: Snapshot, o: Oracle)
    requires !row.value.RunRec?
    ensures var eff := DecideLoaded(op, row, o); eff.Save? ==> !eff.value.RunRec?
  {
    hide Goals.ReserveStep, Goals.Resume, Goals.Pause, Goals.Cancel;
  }

  lemma BeginOnTime(s: State, op: Op, o: Oracle)
    ensures var eff := DecideBegin(s, op, o);
      eff.Save? && eff.value.RunRec? ==> RunTimely(op, None, eff.value.run, o.now)
  {
    hide ValidTarget, Blank, Goals.Start, Runs.NextInput, Fetch, Goals.ValidBtwArgs;
  }

  /** What the positions of calls say about the runs they hold. */
  ghost predicate RunFits(pc: Pc)
  {
    && (pc.SecondLook? && pc.row.value.RunRec? ==> !Runs.Stopped(pc.row.value.run))
    && (pc.Judging? ==> pc.row.value.GoalRec?)
    && (pc.Acknowledging? ==> WaitingRow(pc.row))
  }

  lemma CallFitsRun(f: Facts, call: Call)
    requires CallOk(f, call)
    ensures RunFits(call.pc)
  {
  }

  lemma DecidedOnTime(s: State, call: Call, o: Oracle)
    requires RunFits(call.pc) && Decide(s, call, o).Save? && Decide(s, call, o).value.RunRec?
    ensures RunTimely(call.op, RowOf(call.pc), Decide(s, call, o).value.run, o.now)
  {
    hide Fetch, ReadOffer, DecideBegin, DecideGoal, DecideRun, DecideBtw, DecideSight, Matches, Goals.ReserveBtw, Goals.Conclude;
    match call.pc
    case Begin => BeginOnTime(s, call.op, o);
    case Loaded(row) =>
      if row.value.RunRec? { LoadedOnTime(call.op, row, row.value.run, o); } else { OthersKeepKind(call.op, row, o); }
    case SecondLook(row, input, terminal) => SightOnTime(call.op, row, input, Observe(s.server, input, terminal), o);
    case _ =>
  }

  /**
  Whatever the call of whatever run, wherever it stands: it starts or sends only
  before the deadline, expires a run only when the run or its open question is
  due, continues it only by an answer given before the question expired, dates a
  new question from its own clock, and writes a stopped run only to cancel it.
  */
  lemma RunOnTime(run: seq<State>, n: nat, c: nat, o: Oracle)
    requires IsRun(run) && n < |run| && c in run[n].calls
    requires Decide(run[n], run[n].calls[c], o).Save? && Decide(run[n], run[n].calls[c], o).value.RunRec?
    ensures RunTimely(run[n].calls[c].op, RowOf(run[n].calls[c].pc), Decide(run[n], run[n].calls[c], o).value.run, o.now)
  {
    hide IsRun, Decide, DataOk, PairsOk, CallOk, RunTimely, RunFits;
    Reachable(run, n);
    assert CallOk(Known(run[n]), run[n].calls[c]);
    CallFitsRun(Known(run[n]), run[n].calls[c]);
    DecidedOnTime(run[n], run[n].calls[c], o);
  }
}
