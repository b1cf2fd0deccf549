/**
The Hosts never lock themselves out of a record: every version any operation
writes passes the strict validation of the next load.
*/
module Readability {
  import opened Json
  import opened Documents
  import opened Executions
  import opened CasStore
  import opened Servers
  import opened Protocol
  import opened Invariants
  import opened Preservation
  import opened Decisions
  import opened Guarantees
  import Goals
  import Runs

  ghost predicate Good(tenant: Text, r: Record)
  {
    match r
    case GoalRec(g) => Goals.GoodGoal(g)
    case BtwRec(b) => Goals.ReadableBtw(b)
    case RunRec(u) => u.tenantId == tenant
  }

  lemma GoodIsReadable(tenant: Text, r: Record)
    requires Good(tenant, r)
    ensures Readable(r, tenant)
  {
    hide Goals.ReadableGoal, Goals.ReadableBtw, WellFormed;
  }

  /** A successor that reserves nothing is as readable as what it came from. */
  lemma CarriesOver(e: Evidence, tenant: Text, a: Record, b: Record)
    requires Good(tenant, a) && Evolves(e, a, b) && (b.GoalRec? ==> Reserves(PendingOf(a), PendingOf(b), None))
    ensures Good(tenant, b)
  {
    hide Goals.GoodGoal, Goals.ReadableBtw, Goals.Earned, Runs.AsksNew, Runs.TicketsEvolve, Runs.PendingEvolves, Runs.Finished;
    match (a, b)
    case (GoalRec(x), GoalRec(y)) => Goals.ReadableCarriesOver(x, y);
    case (BtwRec(x), BtwRec(y)) => Goals.ReadableBtwCarriesOver(e, x, y);
    case (RunRec(x), RunRec(y)) =>
  }

  // ---------------------------------------------------------------------
  // What a call may write
  // ---------------------------------------------------------------------

  ghost predicate PcGood(call: Call)
  {
    JsonArguments(call.op) && (call.pc.MainSeen? ==> call.op.ReserveBtw? && Goals.ValidBtwArgs(call.op.args))
  }

  /** A write either reserves nothing and follows the loaded version, or is good by construction. */
  ghost predicate Plain(tenant: Text, eff: Effect)
  {
    && (eff.Save? ==> (eff.expected.Some? && (eff.value.GoalRec? ==> eff.newId.None?)) || Good(tenant, eff.value))
  }

  lemma ReservedGood(tenant: Text, row: Snapshot, g: Goals.Goal, taskId: Text, context: Text, o: Oracle)
    requires row.value == GoalRec(g) && Goals.GoodGoal(g)
    ensures Plain(tenant, SaveGoal(row, Goals.ReserveStep(g, taskId, context, o.now), Some(taskId), Finish))
  {
    hide Goals.GoodGoal, Goals.ReserveStep;
    if Goals.ReserveStep(g, taskId, context, o.now).Ok? { Goals.ReserveIsReadable(g, taskId, context, o.now); }
  }

  lemma GoalPlain(tenant: Text, op: Op, row: Snapshot, g: Goals.Goal, o: Oracle)
    requires row.value == GoalRec(g) && Goals.GoodGoal(g)
    ensures Plain(tenant, DecideGoal(op, row, g, o))
  {
    hide Goals.GoodGoal, Good, Goals.ReserveStep, Goals.Resume, Goals.Pause, Goals.Cancel;
    if op.ReserveStep? { ReservedGood(tenant, row, g, op.taskId, op.context, o); }
  }

  lemma LoadedPlain(tenant: Text, op: Op, row: Snapshot, o: Oracle)
    requires Good(tenant, row.value)
    ensures Plain(tenant, DecideLoaded(op, row, o))
  {
    hide Goals.GoodGoal, Goals.ReadableBtw, DecideGoal, Runs.Answer, Runs.Cancel, Runs.ChangeContext, Runs.Close, Runs.Last;
    match row.value
    case GoalRec(g) => GoalPlain(tenant, op, row, g, o);
    case _ =>
  }

  lemma SightPlain(tenant: Text, row: Snapshot, input: Input, sight: Sight, o: Oracle)
    ensures Plain(tenant, DecideSight(row, input, sight, o))
  {
    hide ReadReport, Goals.SettleBtw, Runs.Reconcile, Good;
  }

  lemma BeginPlain(s: State, op: Op, o: Oracle)
    requires JsonArguments(op)
    ensures Plain(s.tenant, DecideBegin(s, op, o))
    ensures DecideBegin(s, op, o).Move? && DecideBegin(s, op, o).pc.MainSeen? ==> op.ReserveBtw? && Goals.ValidBtwArgs(op.args)
  {
    hide Goals.GoodGoal, Goals.Start, Runs.Start, Goals.ValidBtwArgs, Fetch, WellFormed;
    match op
    case StartGoal(id, objective, target, maxSteps, deadline) =>
      if Goals.Start(id, objective, target, maxSteps, deadline, o.now).Ok? {
        Goals.StartIsReadable(id, objective, target, maxSteps, deadline, o.now);
      }
    case StartRun(start, taskId) => StartedTenant(start, s.tenant, taskId, o.now);
    case _ =>
  }

  lemma StartedTenant(a: Runs.RunArgs, tenant: Text, taskId: Text, now: int)
    ensures Runs.Start(a, tenant, taskId, now).Ok? ==> Runs.Start(a, tenant, taskId, now).value.tenantId == tenant
  {
    hide ValidTarget, Blank, Runs.NextInput;
  }

  lemma SidePlain(tenant: Text, args: Goals.BtwArgs, agentId: Text)
    requires WellFormed(args.target) && Goals.ValidBtwArgs(args) && Goals.ReserveBtw(args, agentId).Ok?
    ensures Plain(tenant, Save(None, BtwRec(Goals.ReserveBtw(args, agentId).value), Some(args.taskId), Finish))
  {
    hide Goals.ReadableBtw, Goals.ReserveBtw, Goals.ValidBtwArgs, WellFormed;
    Goals.ReserveBtwIsReadable(args, agentId);
  }

  lemma EveryWriteGood(s: State, call: Call, o: Oracle)
    requires PcGood(call) && (RowOf(call.pc).Some? ==> Good(s.tenant, RowOf(call.pc).value.value))
    ensures Plain(s.tenant, Decide(s, call, o))
  {
    hide Good, Fetch, ReadOffer, DecideBegin, DecideLoaded, DecideSight, Matches, Goals.ReserveBtw, Goals.ValidBtwArgs, Goals.Conclude, WellFormed;
    match call.pc
    case Begin => BeginPlain(s, call.op, o);
    case Loaded(row) => LoadedPlain(s.tenant, call.op, row, o);
    case SecondLook(row, input, terminal) => SightPlain(s.tenant, row, input, Observe(s.server, input, terminal), o);
    case MainSeen(agentId) => if Goals.ReserveBtw(call.op.args, agentId).Ok? { SidePlain(s.tenant, call.op.args, agentId); }
    case _ =>
  }

  // ---------------------------------------------------------------------
  // Every version of every record
  // ---------------------------------------------------------------------

  ghost predicate AllGood(s: State)
  {
    && (forall k, i :: k in s.history && 0 <= i < |s.history[k]| ==> Good(s.tenant, s.history[k][i]))
    && (forall c :: c in s.calls ==> PcGood(s.calls[c]))
  }

  lemma SavedGood(s: State, call: Call, o: Oracle)
    requires Inv(s) && CallOk(Known(s), call) && IsNoted(s, call, o) && AllGood(s) && PcGood(call)
    requires !call.pc.Done? && !call.pc.Failed? && Decide(s, call, o).Save?
    ensures Good(s.tenant, Decide(s, call, o).value)
  {
    hide Decide, DataOk, CallsOk, PairsOk, CallOk, PcOk, Good, PcGood, Evolves;
    var eff := Decide(s, call, o);
    var k := KeyOfOp(call.op);
    if RowOf(call.pc).Some? { RowIsSnap(Known(s), call); }
    EveryWriteGood(s, call, o);
    DecidesWell(s, call, o);
    if eff.expected.Some? && (eff.value.GoalRec? ==> eff.newId.None?) {
      CarriesOver(Proof(s), s.tenant, s.history[k][eff.expected.value], eff.value);
    }
  }

  lemma StaysGood(s: State, call: Call, o: Oracle)
    requires PcGood(call) && !call.pc.Done? && !call.pc.Failed?
    ensures var eff := Decide(s, call, o);
      && (eff.Move? && eff.pc.MainSeen? ==> call.op.ReserveBtw? && Goals.ValidBtwArgs(call.op.args))
      && (eff.Seen? ==> !eff.pc.MainSeen?)
      && (eff.Become? ==> JsonArguments(eff.op))
  {
    hide Fetch, ReadOffer, DecideBegin, DecideLoaded, DecideSight, Goals.Conclude, Matches, Goals.ReserveBtw, Goals.ValidBtwArgs, WellFormed;
    match call.pc
    case Begin => BeginPlain(s, call.op, o); BeginNeverBecomes(s, call.op, o);
    case Loaded(row) => LoadedStays(call.op, row, o);
    case SecondLook(row, input, terminal) => SightStays(row, input, Observe(s.server, input, terminal), o);
    case _ =>
  }

  lemma BeginNeverBecomes(s: State, op: Op, o: Oracle)
    ensures !DecideBegin(s, op, o).Become? && !DecideBegin(s, op, o).Seen?
  {
    hide Goals.Start, Runs.Start, Goals.ValidBtwArgs, Fetch;
  }

  lemma LoadedStays(op: Op, row: Snapshot, o: Oracle)
    ensures var eff := DecideLoaded(op, row, o);
      !eff.Seen? && (eff.Move? ==> !eff.pc.MainSeen?) && (eff.Become? ==> JsonArguments(eff.op))
  {
    hide Goals.ReserveStep, Goals.Resume, Goals.Pause, Goals.Cancel, Runs.Answer, Runs.Cancel, Runs.ChangeContext, Runs.Close, Runs.Last;
  }

  lemma SightStays(row: Snapshot, input: Input, sight: Sight, o: Oracle)
    ensures var eff := DecideSight(row, input, sight, o);
      !eff.Seen? && (eff.Move? ==> !eff.pc.MainSeen?) && !eff.Become?
  {
    hide ReadReport, Goals.SettleBtw, Runs.Reconcile;
  }

  lemma ApplyPcGood(s: State, c: nat, call: Call, eff: Effect)
    requires PcGood(call) && (eff.Move? && eff.pc.MainSeen? ==> call.op.ReserveBtw? && Goals.ValidBtwArgs(call.op.args))
    requires (eff.Seen? ==> !eff.pc.MainSeen?) && (eff.Become? ==> JsonArguments(eff.op))
    ensures c in Apply(s, c, call, eff).calls && PcGood(Apply(s, c, call, eff).calls[c])
    ensures forall d :: d != c ==>
      (d in Apply(s, c, call, eff).calls <==> d in s.calls) && (d in s.calls ==> Apply(s, c, call, eff).calls[d] == s.calls[d])
  {
    hide Commit, Book, Goals.ValidBtwArgs, JsonArguments;
  }

  lemma ApplyHistory(s: State, c: nat, call: Call, eff: Effect)
    ensures Apply(s, c, call, eff).tenant == s.tenant
    ensures var k := KeyOfOp(call.op);
      Apply(s, c, call, eff).history == s.history
      || (eff.Save? && Apply(s, c, call, eff).history == s.history[k := Past(s.history, k) + [eff.value]])
  {
    hide Commit, Book, AfterSave;
  }

  lemma ActGood(s: State, c: nat, o: Oracle)
    requires Inv(s) && AllGood(s) && c in s.calls && IsNoted(s, s.calls[c], o) && !s.calls[c].pc.Done? && !s.calls[c].pc.Failed?
    ensures AllGood(Act(s, c, o))
  {
    hide Decide, Apply, DataOk, PairsOk, CallOk, IsNoted, Good, PcGood, JsonArguments, Goals.ValidBtwArgs;
    var call := s.calls[c];
    assert CallOk(Known(s), call) && PcGood(call);
    StaysGood(s, call, o);
    ApplyPcGood(s, c, call, Decide(s, call, o));
    ApplyHistory(s, c, call, Decide(s, call, o));
    if Decide(s, call, o).Save? { SavedGood(s, call, o); }
  }

  lemma StepGood(s: State, a: Action)
    requires Inv(s) && AllGood(s)
    ensures AllGood(Step(s, a))
  {
    hide Act, Noted, DataOk, CallsOk, PairsOk, IsNoted, Good;
    match a
    case Advance(c, o) =>
      if c in s.calls && !s.calls[c].pc.Done? && !s.calls[c].pc.Failed? {
        NotedKeeps(s, c, o);
        ActGood(Noted(s, s.calls[c], o), c, o);
      }
    case _ =>
  }

  lemma {:induction false} GoodAlways(run: seq<State>, n: nat)
    requires IsRun(run) && n < |run|
    ensures AllGood(run[n])
  {
    hide Step, Inv, Good, PcGood;
    if n > 0 {
      GoodAlways(run, n - 1);
      Reachable(run, n - 1);
      assert MovesAt(run, n - 1);
      var a :| run[n] == Step(run[n - 1], a);
      StepGood(run[n - 1], a);
    }
  }

  /** Every record ever written can be loaded again: a load fails only where nothing was stored. */
  lemma NeverLockedOut(run: seq<State>, n: nat, k: Key)
    requires IsRun(run) && n < |run|
    ensures var s := run[n];
      Fetch(s, k) == Latest(s.history, k)
  {
    hide IsRun, CallsOk, PairsOk, ReservedOk, SubmitsOk, AcceptedOk, StepOk, RecordOk, Good, Readable;
    var s := run[n];
    Reachable(run, n);
    GoodAlways(run, n);
    if k in s.history {
      assert RowOk(s.table.rows[k], s.history[k]) && VersionsOk(Proof(s), k, s.history[k]);
      assert VersionOk(k, s.history[k][|s.history[k]| - 1]);
      GoodIsReadable(s.tenant, s.history[k][|s.history[k]| - 1]);
    }
  }
}
