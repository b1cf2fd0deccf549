/**
Every execution is for its own record: in every version of every record of every
run, the reserved input carries the record's target and its instruction, and so
does everything that is submitted.
*/
module Bindings {
  import opened Json
  import opened Documents
  import opened Executions
  import opened CasStore
  import opened Servers
  import opened Protocol
  import opened Invariants
  import opened Preservation
  import opened Decisions
  import opened Guarantees
  import opened Readability
  import opened GoalMeanings
  import opened RunMeanings
  import GG = GoalGuarantees
  import RG = RunGuarantees
  import Goals
  import Runs

  // ---------------------------------------------------------------------
  // A record and its execution
  // ---------------------------------------------------------------------

  ghost predicate GoalFaithful(g: Goals.Goal)
  {
    && WellFormed(g.target) && ValidTarget(g.target, None)
    && (g.pending.Some? ==> CarriesGoal(g.pending.value.input, g.target, g.objective))
  }

  ghost predicate CarriesGoal(input: Input, target: Value, objective: Text)
  {
    && WellFormed(input.payload)
    && exists context :: Conveys(input, target, Goals.GoalInstruction(objective, context), GOAL_CONTRACT)
  }

  /** The side question's own target, for an agent that is not the main one's. */
  ghost predicate SideFaithful(b: Goals.Btw)
  {
    WellFormed(b.pending.input.payload) && exists a :: SideArgs(b, a)
  }

  ghost predicate SideArgs(b: Goals.Btw, a: Goals.BtwArgs)
  {
    && WellFormed(a.target) && ValidTarget(a.target, None) && !Is(GetIn(Get(a.target, AGENT_REF), AGENT_ID), b.mainAgentId)
    && a.snapshotRevision == b.snapshotRevision && a.taskId == b.pending.input.taskId
    && Conveys(b.pending.input, a.target, Goals.BtwInstruction(a), BTW_CONTRACT)
  }

  ghost predicate RunFaithful(r: Runs.Run)
  {
    && WellFormed(r.target) && ValidTarget(r.target, None)
    && (r.pending.Some? ==> CarriesRun(r.pending.value.input, r))
  }

  /** The instruction is of the run's objective and context, at some revision of it, and with an answer if one was given. */
  ghost predicate CarriesRun(input: Input, r: Runs.Run)
  {
    && WellFormed(input.payload)
    && exists revision, answer ::
         Conveys(input, r.target, Runs.Instruction(r.(contextRevision := revision), answer), Runs.CD.CLARIFICATION_CONTRACT)
  }

  ghost predicate Faithful(r: Record)
  {
    match r
    case GoalRec(g) => GoalFaithful(g)
    case BtwRec(b) => SideFaithful(b)
    case RunRec(u) => RunFaithful(u)
  }

  // A payload repeats no key

  lemma PayloadWellFormed(taskId: Text, target: Value, instruction: Text, contract: Text, schema: Value)
    requires WellFormed(target) && ValidTarget(target, None) && WellFormed(schema)
    ensures WellFormed(BuildInput(taskId, target, instruction, Projection(contract, schema)).payload)
  {
    hide Space, Projection, HostKey, TargetKey, HostFields;
    var ms, fs := Selection(target.members), HostFields(instruction, Projection(contract, schema));
    SelectionDistinct(target.members);
    SelectionKeys(target.members);
    HostFieldsDistinct(instruction, contract, schema);
    forall i | 0 <= i < |ms|
      ensures !HostKey(ms[i].key)
    {
      KeysApart(ms[i].key);
    }
    Disjoint(ms, fs);
  }

  lemma HostFieldsDistinct(instruction: Text, contract: Text, schema: Value)
    requires WellFormed(schema)
    ensures var fs := HostFields(instruction, Projection(contract, schema));
      DistinctKeys(fs) && forall i :: 0 <= i < |fs| ==> HostKey(fs[i].key) && WellFormed(fs[i].val)
  {
    KeysApart(SESSION);
    assert MODE[0] == 109 && CONTRACT[0] == 99 && U("schema")[0] == 115;
    assert WellFormed(Projection(contract, schema));
  }

  lemma Disjoint(ms: seq<Member>, fs: seq<Member>)
    requires DistinctKeys(ms) && DistinctKeys(fs)
    requires forall i :: 0 <= i < |ms| ==> !HostKey(ms[i].key) && WellFormed(ms[i].val)
    requires forall i :: 0 <= i < |fs| ==> HostKey(fs[i].key) && WellFormed(fs[i].val)
    ensures WellFormed(Obj(ms + fs))
  {
    hide HostKey;
  }

  // ---------------------------------------------------------------------
  // What a call may write
  // ---------------------------------------------------------------------

  /** A successor that reserves nothing is as faithful as what it came from. */
  lemma CarriesOver(e: Evidence, a: Record, b: Record)
    requires Faithful(a) && Evolves(e, a, b) && Reserves(PendingOf(a), PendingOf(b), None)
    ensures Faithful(b)
  {
    hide Conveys, WellFormed, ValidTarget, Goals.Earned, Runs.AsksNew, Runs.TicketsEvolve, Runs.Finished, Runs.CD.CLARIFICATION_CONTRACT;
    match (a, b)
    case (GoalRec(x), GoalRec(y)) =>
    case (BtwRec(x), BtwRec(y)) =>
      var args :| SideArgs(x, args);
      assert SideArgs(y, args);
    case (RunRec(x), RunRec(y)) => RunCarriesOver(e, x, y);
  }

  lemma RunCarriesOver(e: Evidence, x: Runs.Run, y: Runs.Run)
    requires RunFaithful(x) && Runs.RunEvolves(e, x, y) && Reserves(x.pending, y.pending, None)
    ensures RunFaithful(y)
  {
    hide Conveys, WellFormed, ValidTarget, Runs.AsksNew, Runs.TicketsEvolve, Runs.Finished, Runs.CD.CLARIFICATION_CONTRACT;
    if y.pending.Some? {
      var input := y.pending.value.input;
      var revision, answer :|
        Conveys(input, x.target, Runs.Instruction(x.(contextRevision := revision), answer), Runs.CD.CLARIFICATION_CONTRACT);
      assert Runs.Instruction(y.(contextRevision := revision), answer) == Runs.Instruction(x.(contextRevision := revision), answer);
    }
  }

  /** A write either reserves nothing and follows the loaded version, or is faithful by construction. */
  ghost predicate Bound(eff: Effect)
  {
    eff.Save? ==> (eff.expected.Some? && eff.newId.None?) || Faithful(eff.value)
  }

  lemma StartBound(id: Text, objective: Text, target: Value, maxSteps: int, deadline: int, now: int)
    requires WellFormed(target) && Goals.Start(id, objective, target, maxSteps, deadline, now).Ok?
    ensures GoalFaithful(Goals.Start(id, objective, target, maxSteps, deadline, now).value)
  {
    hide ValidTarget, WellFormed, Blank;
  }

  lemma StepBound(g: Goals.Goal, taskId: Text, context: Text, now: int)
    requires GoalFaithful(g) && Goals.ReserveStep(g, taskId, context, now).Ok?
    ensures GoalFaithful(Goals.ReserveStep(g, taskId, context, now).value)
  {
    hide ValidTarget, WellFormed, Blank, Conveys;
    ReserveIsExact(g, taskId, context, now);
    var instruction := Goals.GoalInstruction(g.objective, context);
    SchemasWellFormed();
    PayloadWellFormed(taskId, g.target, instruction, GOAL_CONTRACT, Goals.GOAL_SCHEMA);
  }

  lemma SchemasWellFormed()
    ensures WellFormed(Goals.GOAL_SCHEMA) && WellFormed(Goals.BTW_SCHEMA) && WellFormed(Runs.CLARIFICATION_SCHEMA)
  {
  }

  lemma SideBound(a: Goals.BtwArgs, agentId: Text)
    requires WellFormed(a.target) && Goals.ValidBtwArgs(a) && Goals.ReserveBtw(a, agentId).Ok?
    ensures SideFaithful(Goals.ReserveBtw(a, agentId).value)
  {
    hide ValidTarget, WellFormed, Blank, Conveys;
    ReserveBtwIsExact(a, agentId);
    SchemasWellFormed();
    PayloadWellFormed(a.taskId, a.target, Goals.BtwInstruction(a), BTW_CONTRACT, Goals.BTW_SCHEMA);
    assert SideArgs(Goals.ReserveBtw(a, agentId).value, a);
  }

  lemma NextBound(r: Runs.Run, taskId: Text, answer: Option<(Runs.CD.Question, Text)>)
    requires WellFormed(r.target) && ValidTarget(r.target, None) && !Blank(taskId)
    ensures CarriesRun(Runs.NextInput(r, taskId, answer), r)
  {
    hide ValidTarget, WellFormed, Blank, Conveys, Runs.Instruction, Runs.CD.CLARIFICATION_CONTRACT;
    NextInputCarries(r, taskId, answer);
    SchemasWellFormed();
    PayloadWellFormed(taskId, r.target, Runs.Instruction(r, answer), Runs.CD.CLARIFICATION_CONTRACT, Runs.CLARIFICATION_SCHEMA);
    assert r.(contextRevision := r.contextRevision) == r;
  }

  lemma RunStartBound(a: Runs.RunArgs, tenant: Text, taskId: Text, now: int)
    requires WellFormed(a.target) && Runs.Start(a, tenant, taskId, now).Ok?
    ensures RunFaithful(Runs.Start(a, tenant, taskId, now).value)
  {
    hide ValidTarget, WellFormed, CarriesRun, Runs.NextInput, Runs.Start, Space;
    RunMeanings.StartIsExact(a, tenant, taskId, now);
    var r := Runs.Start(a, tenant, taskId, now).value;
    WithoutLimit(a.target, 200);
    NextBound(r, taskId, None);
  }

  lemma AnswerBound(r: Runs.Run, p: Runs.Principal, binding: Value, a: Runs.AnswerArgs, now: int)
    requires RunFaithful(r) && Runs.Answer(r, p, binding, a, now).Accepted?
    ensures RunFaithful(Runs.Answer(r, p, binding, a, now).run)
  {
    hide ValidTarget, WellFormed, Conveys, Runs.NextInput, Runs.Answer, Runs.Digest, Runs.Last, Blank, Runs.CD.CLARIFICATION_CONTRACT;
    AnswerContinues(r, p, binding, a, now);
    AnswerNamed(r, p, binding, a, now);
    var out := Runs.Answer(r, p, binding, a, now).run;
    var at := r.(contextRevision := a.nextContextRevision);
    var given := Some((Runs.Last(r).result, a.value));
    NextBound(at, a.taskId, given);
    SameInstruction(at, out, given, a.taskId);
  }

  lemma AnswerNamed(r: Runs.Run, p: Runs.Principal, binding: Value, a: Runs.AnswerArgs, now: int)
    requires Runs.Answer(r, p, binding, a, now).Accepted?
    ensures !Blank(a.taskId)
  {
    hide Runs.Digest, Runs.NextInput, Runs.Answerable, Runs.Chosen, Runs.FindReceipt, Space;
  }

  lemma SameInstruction(x: Runs.Run, y: Runs.Run, answer: Option<(Runs.CD.Question, Text)>, taskId: Text)
    requires y.target == x.target && y.objective == x.objective && y.context == x.context
    requires CarriesRun(Runs.NextInput(x, taskId, answer), x)
    ensures CarriesRun(Runs.NextInput(x, taskId, answer), y)
  {
    hide Conveys, WellFormed, Runs.CD.CLARIFICATION_CONTRACT;
    var input := Runs.NextInput(x, taskId, answer);
    var revision, given :|
      Conveys(input, x.target, Runs.Instruction(x.(contextRevision := revision), given), Runs.CD.CLARIFICATION_CONTRACT);
    assert Runs.Instruction(y.(contextRevision := revision), given) == Runs.Instruction(x.(contextRevision := revision), given);
  }

  lemma LoadedBound(op: Op, row: Snapshot, o: Oracle)
    requires Faithful(row.value)
    ensures Bound(DecideLoaded(op, row, o))
  {
    hide GoalFaithful, SideFaithful, RunFaithful, Runs.Answer, Runs.Cancel, Runs.ChangeContext, Runs.Close, Runs.Last,
      Goals.ReserveStep, Goals.Resume, Goals.Pause, Goals.Cancel;
    match row.value
    case GoalRec(g) =>
      if op.ReserveStep? && Goals.ReserveStep(g, op.taskId, op.context, o.now).Ok? { StepBound(g, op.taskId, op.context, o.now); }
    case RunRec(r) =>
      if op.AnswerRun? && Runs.Answer(r, op.principal, op.binding, op.answer, o.now).Accepted? {
        AnswerBound(r, op.principal, op.binding, op.answer, o.now);
      }
    case _ =>
  }

  lemma SightBound(row: Snapshot, input: Input, sight: Sight, o: Oracle)
    ensures Bound(DecideSight(row, input, sight, o))
  {
    hide ReadReport, Goals.SettleBtw, Runs.Reconcile, Faithful;
  }

  lemma BeginBound(s: State, op: Op, o: Oracle)
    requires JsonArguments(op)
    ensures Bound(DecideBegin(s, op, o))
  {
    hide GoalFaithful, RunFaithful, Goals.Start, Runs.Start, Goals.ValidBtwArgs, Fetch, WellFormed;
    match op
    case StartGoal(id, objective, target, maxSteps, deadline) =>
      if Goals.Start(id, objective, target, maxSteps, deadline, o.now).Ok? { StartBound(id, objective, target, maxSteps, deadline, o.now); }
    case StartRun(start, taskId) =>
      if Runs.Start(start, s.tenant, taskId, o.now).Ok? { RunStartBound(start, s.tenant, taskId, o.now); }
    case _ =>
  }

  lemma DecideBound(s: State, call: Call, o: Oracle)
    requires PcGood(call) && (RowOf(call.pc).Some? ==> Faithful(RowOf(call.pc).value.value))
    ensures Bound(Decide(s, call, o))
  {
    hide Faithful, Fetch, ReadOffer, DecideBegin, DecideLoaded, DecideSight, Matches, Goals.ReserveBtw, Goals.ValidBtwArgs, Goals.Conclude, WellFormed;
    match call.pc
    case Begin => BeginBound(s, call.op, o);
    case Loaded(row) => LoadedBound(call.op, row, o);
    case SecondLook(row, input, terminal) => SightBound(row, input, Observe(s.server, input, terminal), o);
    case MainSeen(agentId) => if Goals.ReserveBtw(call.op.args, agentId).Ok? { SideWrite(call.op.args, agentId); }
    case _ =>
  }

  lemma SideWrite(a: Goals.BtwArgs, agentId: Text)
    requires WellFormed(a.target) && Goals.ValidBtwArgs(a) && Goals.ReserveBtw(a, agentId).Ok?
    ensures Faithful(BtwRec(Goals.ReserveBtw(a, agentId).value))
  {
    hide SideFaithful, Goals.ReserveBtw, Goals.ValidBtwArgs, WellFormed;
    SideBound(a, agentId);
  }

  // ---------------------------------------------------------------------
  // Every version of every record
  // ---------------------------------------------------------------------

  ghost predicate AllFaithful(s: State)
  {
    forall k, i :: k in s.history && 0 <= i < |s.history[k]| ==> Faithful(s.history[k][i])
  }

  lemma SavedFaithful(s: State, call: Call, o: Oracle)
    requires Inv(s) && CallOk(Known(s), call) && IsNoted(s, call, o) && AllFaithful(s) && PcGood(call)
    requires !call.pc.Done? && !call.pc.Failed? && Decide(s, call, o).Save?
    ensures Faithful(Decide(s, call, o).value)
  {
    hide Decide, DataOk, CallsOk, PairsOk, CallOk, PcOk, Faithful, PcGood, Evolves;
    var eff := Decide(s, call, o);
    var k := KeyOfOp(call.op);
    if RowOf(call.pc).Some? { RowIsSnap(Known(s), call); }
    DecideBound(s, call, o);
    DecidesWell(s, call, o);
    if eff.expected.Some? && eff.newId.None? {
      CarriesOver(Proof(s), s.history[k][eff.expected.value], eff.value);
    }
  }

  lemma ActFaithful(s: State, c: nat, o: Oracle)
    requires Inv(s) && AllGood(s) && AllFaithful(s) && c in s.calls && IsNoted(s, s.calls[c], o)
    requires !s.calls[c].pc.Done? && !s.calls[c].pc.Failed?
    ensures AllFaithful(Act(s, c, o))
  {
    hide Decide, Apply, DataOk, PairsOk, CallOk, IsNoted, Faithful, Good, PcGood;
    var call := s.calls[c];
    assert CallOk(Known(s), call) && PcGood(call);
    ApplyHistory(s, c, call, Decide(s, call, o));
    if Decide(s, call, o).Save? { SavedFaithful(s, call, o); }
  }

  lemma NotedGood(s: State, c: nat, o: Oracle)
    requires c in s.calls && AllGood(s) && AllFaithful(s)
    ensures AllGood(Noted(s, s.calls[c], o)) && AllFaithful(Noted(s, s.calls[c], o))
  {
    hide Noted, Good, PcGood, Faithful;
  }

  lemma StepFaithful(s: State, a: Action)
    requires Inv(s) && AllGood(s) && AllFaithful(s)
    ensures AllFaithful(Step(s, a))
  {
    hide Act, Noted, DataOk, CallsOk, PairsOk, IsNoted, Good, Faithful;
    match a
    case Advance(c, o) =>
      if c in s.calls && !s.calls[c].pc.Done? && !s.calls[c].pc.Failed? {
        NotedKeeps(s, c, o);
        NotedGood(s, c, o);
        ActFaithful(Noted(s, s.calls[c], o), c, o);
      }
    case _ =>
  }

  lemma {:induction false} FaithfulAlways(run: seq<State>, n: nat)
    requires IsRun(run) && n < |run|
    ensures AllFaithful(run[n])
  {
    hide Step, Inv, AllGood, Faithful;
    if n > 0 {
      FaithfulAlways(run, n - 1);
      GoodAlways(run, n - 1);
      Reachable(run, n - 1);
      assert MovesAt(run, n - 1);
      var a :| run[n] == Step(run[n - 1], a);
      StepFaithful(run[n - 1], a);
    }
  }

  /** The execution any version of a run holds was built from the run's own target, objective and context. */
  lemma RunCarriesItsTarget(run: seq<State>, n: nat, id: Text, i: nat, r: Runs.Run)
    requires IsRun(run) && n < |run| && RG.RunVersion(run[n], id, i, r) && r.pending.Some?
    ensures var input := r.pending.value.input;
      SameJson(RebuiltTarget(input), r.target) && Is(Get(r.target, DEVICE_ID), input.deviceId) && CarriesRun(input, r)
  {
    hide IsRun, WellFormed, ValidTarget;
    FaithfulAlways(run, n);
    assert Faithful(run[n].history[Key(RunKind, id)][i]);
  }

  lemma GoalCarriesItsTarget(run: seq<State>, n: nat, id: Text, i: nat, g: Goals.Goal)
    requires IsRun(run) && n < |run| && GG.GoalVersion(run[n], id, i, g) && g.pending.Some?
    ensures var input := g.pending.value.input;
      SameJson(RebuiltTarget(input), g.target) && Is(Get(g.target, DEVICE_ID), input.deviceId) && CarriesGoal(input, g.target, g.objective)
  {
    hide IsRun, WellFormed, ValidTarget;
    FaithfulAlways(run, n);
    assert Faithful(run[n].history[Key(GoalKind, id)][i]);
  }

  /** A side question's execution is for a target of its own, whose agent is not the main one. */
  lemma SideCarriesItsTarget(run: seq<State>, n: nat, id: Text, i: nat, b: Goals.Btw)
    requires IsRun(run) && n < |run| && GG.SideVersion(run[n], id, i, b)
    ensures exists target ::
      && SameJson(RebuiltTarget(b.pending.input), target) && Is(Get(target, DEVICE_ID), b.pending.input.deviceId)
      && !Is(GetIn(Get(target, AGENT_REF), AGENT_ID), b.mainAgentId)
    ensures SideFaithful(b)
  {
    hide IsRun, WellFormed, ValidTarget;
    FaithfulAlways(run, n);
    assert Faithful(run[n].history[Key(BtwKind, id)][i]);
    var a :| SideArgs(b, a);
  }

  /** Whatever is submitted is the execution of a faithful version of its record. */
  lemma SubmissionCarries(run: seq<State>, n: nat, i: nat)
    requires IsRun(run) && n < |run| && i < |run[n].submits|
    ensures var sub := run[n].submits[i];
      && sub.key in run[n].history && 0 <= sub.revision < |run[n].history[sub.key]|
      && HasInput(run[n].history[sub.key][sub.revision], sub.input) && Faithful(run[n].history[sub.key][sub.revision])
  {
    hide IsRun, Faithful, CallsOk, PairsOk, HistoryOk, ReservedOk, TableOk, CompletedOk, AcceptedOk;
    FaithfulAlways(run, n);
    Reachable(run, n);
  }
}
