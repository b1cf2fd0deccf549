/**
A stop whose author crashed can be made good: any later send, reconciliation,
tick or cancellation of the stopped record that returns has cancelled the
execution, provided its attempt was visible when the call was made.
*/
module Repair {
  import opened Json
  import opened Documents
  import opened Executions
  import opened CasStore
  import opened Servers
  import opened Protocol
  import opened Invariants
  import opened Preservation
  import opened Decisions
  import opened Guarantees
  import opened Closing
  import Goals
  import Runs

  /** The calls that chase what a stopped record holds. A goal's tick and reconciliation are not among them. */
  predicate Repairs(op: Op)
  {
    op.Send? || op.ReconcileRun? || op.TickRun? || op.CancelGoal? || op.CancelBtw? || op.CancelRun?
  }

  /** The task is still held by this record, or needs no cancellation any more. */
  ghost predicate Held(f: Facts, r: Record, t: Text)
  {
    Holds(r, t) || t in Settled(f.server)
  }

  ghost predicate PcRepairs(f: Facts, pc: Pc, t: Text)
  {
    match pc
    case Begin => true
    case Loaded(row) => IsStopped(row.value) && Held(f, row.value, t)
    case Done(_) => t in Settled(f.server)
    case Failed => true
    case _ => FlushInput(pc).Some? && (FlushInput(pc).value.taskId == t || t in Settled(f.server))
  }

  ghost predicate Repairing(f: Facts, k: Key, t: Text, call: Call)
  {
    KeyOfOp(call.op) == k && Repairs(call.op) && PcRepairs(f, call.pc, t)
  }

  /** The record was stopped with this task at version `v`, and the attempt is visible. */
  ghost predicate Stopped(f: Facts, k: Key, t: Text, v: int)
  {
    StoppedAt(f.history, k, Mark(t, v)) && t in f.server.attempts
  }

  // ---------------------------------------------------------------------
  // What such a call does next
  // ---------------------------------------------------------------------

  ghost predicate EffectRepairs(f: Facts, call: Call, eff: Effect, t: Text)
  {
    match eff
    case Move(pc) => PcRepairs(f, pc, t)
    case Save(_, value, _, next) => next.ChaseSaved? && Held(f, value, t)
    case RequestCancel(input) => input.taskId == t || t in Settled(f.server)
    case Miss => t in Settled(f.server)
    case _ => false
  }

  /** The latest version of the record is still stopped, and holds the task unless it is settled. */
  lemma LatestRepairs(s: State, k: Key, t: Text, v: int)
    requires DataOk(s) && Stopped(Known(s), k, t, v)
    ensures s.history[k] != [] && PcRepairs(Known(s), Loaded(Snapshot(|s.history[k]| - 1, s.history[k][|s.history[k]| - 1])), t)
  {
    hide TableOk, ReservedOk, SubmitsOk, AcceptedOk, VersionsOk;
    assert VersionsOk(Proof(s), k, s.history[k]);
    StoppedStays(Proof(s), k, s.history[k], v, |s.history[k]| - 1, t);
  }

  lemma LoadRepairs(s: State, call: Call, revision: Option<int>, k: Key, t: Text, v: int)
    requires DataOk(s) && KeyOfOp(call.op) == k && Stopped(Known(s), k, t, v)
    ensures EffectRepairs(Known(s), call, Load(s, call.op, revision), t)
  {
    hide Fetch, HistoryOk, ReservedOk, SubmitsOk, AcceptedOk, Stopped;
    LatestRepairs(s, k, t, v);
    if Fetch(s, k).Some? { Fetched(s, k); }
  }

  lemma LoadedRepairs(f: Facts, call: Call, o: Oracle, t: Text)
    requires Repairs(call.op) && call.pc.Loaded? && PcRepairs(f, call.pc, t)
    ensures EffectRepairs(f, call, DecideLoaded(call.op, call.pc.row, o), t)
  {
    hide Runs.Due, Runs.Last;
  }

  lemma DecideRepairs(s: State, call: Call, o: Oracle, k: Key, t: Text, v: int)
    requires Inv(s) && Repairing(Known(s), k, t, call) && Stopped(Known(s), k, t, v) && !call.pc.Done? && !call.pc.Failed?
    ensures EffectRepairs(Known(s), call, Decide(s, call, o), t)
  {
    hide DataOk, CallsOk, PairsOk, Fetch, ReadOffer, DecideLoaded, DecideSight, DecideJudged, Matches, Load;
    match call.pc
    case Begin => LoadRepairs(s, call, Some(call.op.revision), k, t, v);
    case Loaded(_) => LoadedRepairs(Known(s), call, o, t);
    case _ =>
  }

  /** A write is refused and ends the call, or the call goes on from what it wrote. */
  lemma SaveShape(s: State, c: nat, call: Call, eff: Effect)
    requires eff.Save?
    ensures var u := SaveStep(s, c, call, eff);
      && c in u.calls && u.server == s.server
      && (u.calls[c] == call.(pc := Failed)
          || u.calls[c] == AfterSave(call, Row(NextRevision(eff.expected), IsWaiting(eff.value), eff.value), eff.next))
  {
    hide WaitingOthers, Current, Book, AfterSave;
  }

  lemma ChaseRepairs(f: Facts, call: Call, row: Row<Record>, t: Text)
    requires Held(f, row.value, t)
    ensures AfterSave(call, row, ChaseSaved).op == call.op && PcRepairs(f, AfterSave(call, row, ChaseSaved).pc, t)
  {
  }

  lemma SameServer(f: Facts, g: Facts, pc: Pc, t: Text)
    requires PcRepairs(f, pc, t) && g.server == f.server
    ensures PcRepairs(g, pc, t)
  {
  }

  lemma SavedRepairs(s: State, c: nat, call: Call, eff: Effect, k: Key, t: Text)
    requires eff.Save? && KeyOfOp(call.op) == k && Repairs(call.op) && EffectRepairs(Known(s), call, eff, t)
    ensures var u := SaveStep(s, c, call, eff); c in u.calls && Repairing(Known(u), k, t, u.calls[c])
  {
    hide SaveStep, AfterSave, Held;
    SaveShape(s, c, call, eff);
    var u, row := SaveStep(s, c, call, eff), Row(NextRevision(eff.expected), IsWaiting(eff.value), eff.value);
    ChaseRepairs(Known(s), call, row, t);
    SameServer(Known(s), Known(u), AfterSave(call, row, ChaseSaved).pc, t);
  }

  lemma ApplyRepairs(s: State, c: nat, call: Call, eff: Effect, k: Key, t: Text)
    requires KeyOfOp(call.op) == k && Repairs(call.op) && EffectRepairs(Known(s), call, eff, t)
    ensures var u := Apply(s, c, call, eff); c in u.calls && Repairing(Known(u), k, t, u.calls[c])
  {
    hide SaveStep;
    if eff.Save? { SavedRepairs(s, c, call, eff, k, t); }
  }

  // ---------------------------------------------------------------------
  // Whatever happens in between
  // ---------------------------------------------------------------------

  lemma RepairingStays(s: State, u: State, k: Key, t: Text, v: int, call: Call)
    requires Later(s, u) && Repairing(Known(s), k, t, call) && Stopped(Known(s), k, t, v)
    ensures Repairing(Known(u), k, t, call)
  {
  }

  lemma StoppedPersists(s: State, u: State, k: Key, t: Text, v: int)
    requires Later(s, u) && Stopped(Known(s), k, t, v)
    ensures Stopped(Known(u), k, t, v)
  {
    MarkStable(Known(s), Known(u), k, Mark(t, v));
  }

  lemma ActRepairs(s: State, d: nat, o: Oracle, c: nat, k: Key, t: Text, v: int)
    requires Inv(s) && Live(s, d) && c in s.calls && Repairing(Known(s), k, t, s.calls[c]) && Stopped(Known(s), k, t, v)
    requires Later(s, Act(s, d, o))
    ensures c in Act(s, d, o).calls && Repairing(Known(Act(s, d, o)), k, t, Act(s, d, o).calls[c])
  {
    hide Inv, Decide, Apply, Later, EffectRepairs, Stopped, PcRepairs;
    if d == c {
      DecideRepairs(s, s.calls[c], o, k, t, v);
      ApplyRepairs(s, c, s.calls[c], Decide(s, s.calls[c], o), k, t);
    } else {
      OthersSame(s, d, s.calls[d], Decide(s, s.calls[d], o), c);
      RepairingStays(s, Act(s, d, o), k, t, v, s.calls[c]);
    }
  }

  lemma NotedRepairs(s: State, d: nat, o: Oracle, c: nat, k: Key, t: Text, v: int)
    requires Inv(s) && Live(s, d) && c in s.calls && Repairing(Known(s), k, t, s.calls[c]) && Stopped(Known(s), k, t, v)
    ensures var n := Noted(s, s.calls[d], o);
      && Inv(n) && Live(n, d) && c in n.calls && Repairing(Known(n), k, t, n.calls[c]) && Stopped(Known(n), k, t, v)
      && Later(n, Act(n, d, o))
  {
    hide Inv, Decide, Apply, Later, IsNoted, Repairing, Stopped;
    var n := Noted(s, s.calls[d], o);
    NotedKeeps(s, d, o);
    NotedIsLater(s, d, o);
    RepairingStays(s, n, k, t, v, s.calls[c]);
    StoppedPersists(s, n, k, t, v);
    ActIsLater(n, d, o);
  }

  lemma ActIsLater(s: State, c: nat, o: Oracle)
    requires Inv(s) && c in s.calls
    ensures Later(s, Act(s, c, o))
  {
    hide Decide, Apply, HistoryOk, PairsOk, CallsOk, SubmitsOk, Later;
    ApplyIsLater(s, c, s.calls[c], Decide(s, s.calls[c], o));
  }

  lemma StepRepairs(s: State, a: Action, c: nat, k: Key, t: Text, v: int)
    requires Inv(s) && c in s.calls && Repairing(Known(s), k, t, s.calls[c]) && Stopped(Known(s), k, t, v)
    ensures c in Step(s, a).calls && Repairing(Known(Step(s, a)), k, t, Step(s, a).calls[c])
    ensures Stopped(Known(Step(s, a)), k, t, v)
  {
    hide Inv, Act, Later, Stopped;
    StepIsLater(s, a);
    StoppedPersists(s, Step(s, a), k, t, v);
    match a
    case Advance(d, o) =>
      if Live(s, d) {
        NotedRepairs(s, d, o, c, k, t, v);
        ActRepairs(Noted(s, s.calls[d], o), d, o, c, k, t, v);
      }
    case World(server) => RepairingStays(s, Step(s, a), k, t, v, s.calls[c]);
    case _ =>
  }

  lemma {:induction false} RepairGoesOn(run: seq<State>, n: nat, m: nat, c: nat, k: Key, t: Text, v: int)
    requires IsRun(run) && n <= m < |run|
    requires c in run[n].calls && Repairing(Known(run[n]), k, t, run[n].calls[c]) && Stopped(Known(run[n]), k, t, v)
    ensures c in run[m].calls && Repairing(Known(run[m]), k, t, run[m].calls[c]) && Stopped(Known(run[m]), k, t, v)
  {
    hide Inv, Step, Repairing, Stopped;
    if n < m {
      RepairGoesOn(run, n, m - 1, c, k, t, v);
      Reachable(run, m - 1);
      assert MovesAt(run, m - 1);
      var a :| run[m] == Step(run[m - 1], a);
      StepRepairs(run[m - 1], a, c, k, t, v);
    }
  }

  lemma NoJson(op: Op)
    requires Repairs(op)
    ensures JsonArguments(op)
  {
  }

  /**
  A record is stopped with a task whose attempt is visible, and one of these
  calls is made on it. When the call returns, the task has a cancellation request
  or has ended, whoever stopped the record and whatever became of that call, and
  also after a resume.
  */
  lemma LaterCallRepairs(run: seq<State>, n: nat, m: nat, c: nat, op: Op, k: Key, t: Text)
    requires IsRun(run) && n < m < |run| && StoppedWith(run[n], k, t) && t in run[n].server.attempts
    requires c !in run[n].calls && Repairs(op) && KeyOfOp(op) == k && run[n + 1] == Step(run[n], Invoke(c, op))
    requires c in run[m].calls && run[m].calls[c].pc.Done?
    ensures t in Settled(run[m].server)
  {
    hide IsRun, Decide, JsonArguments;
    var v := |run[n].history[k]| - 1;
    assert Stopped(Known(run[n]), k, t, v);
    assert JsonArguments(op) by { NoJson(op); }
    assert run[n + 1] == Put(run[n], c, NewCall(op));
    RepairGoesOn(run, n + 1, m, c, k, t, v);
  }
}
