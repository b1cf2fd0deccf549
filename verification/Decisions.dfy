/**
Whatever a call decides, given a snapshot it once loaded, is an effect that
keeps the invariant.
*/
module Decisions {
  import opened Json
  import opened Documents
  import opened Executions
  import opened CasStore
  import opened Servers
  import opened Protocol
  import opened Invariants
  import opened Preservation
  import Goals
  import Runs

  // ---------------------------------------------------------------------
  // Effects
  // ---------------------------------------------------------------------

  /** An effect of a call that has neither stopped a record nor re-read one. */
  ghost predicate StartsOk(e: Evidence, f: Facts, k: Key, eff: Effect)
  {
    match eff
    case Move(pc) => PcOk(f, k, pc)
    case Become(op) => KeyOfOp(op) == k
    case Save(_, _, _, _) => SaveOk(e, f.history, k, eff)
    case Submit(input, at) => SentFrom(f.history, k, at, input)
    case Seen(mark, pc) => Rereads(f, k, mark, pc)
    case _ => false
  }

  ghost predicate FlushOk(f: Facts, call: Call, eff: Effect)
  {
    match eff
    case Move(pc) => CallOk(f, call.(pc := pc))
    case RequestCancel(input) => call.pc == FlushCancel(input)
    case Miss => call.pc.Flush? && call.pc.input.taskId !in f.server.attempts
    case _ => false
  }

  /** Giving up, and returning without a write, are always fine. */
  lemma LeavesOk(e: Evidence, f: Facts, k: Key)
    ensures StartsOk(e, f, k, Move(Failed)) && StartsOk(e, f, k, Move(Done(None)))
  {
  }

  lemma StartKeeps(s: State, c: nat, eff: Effect)
    requires Inv(s) && c in s.calls && Early(s.calls[c]) && StartsOk(Proof(s), Known(s), KeyOfOp(s.calls[c].op), eff)
    ensures Inv(Apply(s, c, s.calls[c], eff))
  {
    var call := s.calls[c];
    match eff
    case Move(pc) => EarlyPutKeeps(s, c, call.(pc := pc));
    case Become(op) => EarlyPutKeeps(s, c, call.(op := op, pc := Begin));
    case Save(_, _, _, _) => SaveKeeps(s, c, eff);
    case Submit(input, at) =>
      SubmitKeeps(s, c, call.(pc := Awaiting(input, at), sent := Some(input.taskId)), Submission(KeyOfOp(call.op), at, input));
    case Seen(mark, pc) => RereadKeeps(s, c, mark, pc);
  }

  lemma FlushKeeps(s: State, c: nat, eff: Effect)
    requires Inv(s) && c in s.calls && FlushOk(Known(s), s.calls[c], eff)
    ensures Inv(Apply(s, c, s.calls[c], eff))
  {
    match eff
    case Move(pc) => MoveKeeps(s, c, pc);
    case RequestCancel(input) => RequestKeeps(s, c, input);
    case Miss => MissKeeps(s, c);
  }

  // ---------------------------------------------------------------------
  // Goals
  // ---------------------------------------------------------------------

  ghost predicate AtGoal(f: Facts, k: Key, row: Snapshot, g: Goals.Goal)
  {
    Snap(f.history, k, row) && row.value == GoalRec(g) && VersionOk(k, row.value)
  }

  lemma GoalSaved(e: Evidence, f: Facts, k: Key, row: Snapshot, g: Goals.Goal, b: Goals.Goal, newId: Option<Text>, next: Next)
    requires AtGoal(f, k, row, g) && Goals.GoalOk(b) && Goals.GoalEvolves(e, g, b)
    requires Reserves(g.pending, b.pending, newId) && NextOk(GoalRec(b), next)
    ensures StartsOk(e, f, k, SaveGoal(row, Ok(b), newId, next))
  {
  }

  lemma ReserveStepOk(e: Evidence, f: Facts, k: Key, row: Snapshot, g: Goals.Goal, taskId: Text, context: Text, o: Oracle)
    requires AtGoal(f, k, row, g)
    ensures StartsOk(e, f, k, SaveGoal(row, Goals.ReserveStep(g, taskId, context, o.now), Some(taskId), Finish))
  {
    var b := Goals.ReserveStep(g, taskId, context, o.now);
    if b.Ok? {
      Goals.ReserveKeeps(e, g, taskId, context, o.now);
      GoalSaved(e, f, k, row, g, b.value, Some(taskId), Finish);
    }
  }

  lemma PauseOk(e: Evidence, f: Facts, k: Key, row: Snapshot, g: Goals.Goal)
    requires AtGoal(f, k, row, g)
    ensures StartsOk(e, f, k, SaveGoal(row, Goals.Pause(g), None, Finish))
  {
    if Goals.Pause(g).Ok? {
      Goals.PauseKeeps(e, g);
      GoalSaved(e, f, k, row, g, Goals.Pause(g).value, None, Finish);
    }
  }

  lemma ResumeOk(e: Evidence, f: Facts, k: Key, row: Snapshot, g: Goals.Goal, o: Oracle)
    requires AtGoal(f, k, row, g)
    ensures StartsOk(e, f, k, SaveGoal(row, Goals.Resume(g, o.now), None, Finish))
  {
    if Goals.Resume(g, o.now).Ok? {
      Goals.ResumeKeeps(e, g, o.now);
      GoalSaved(e, f, k, row, g, Goals.Resume(g, o.now).value, None, Finish);
    }
  }

  lemma CancelOk(e: Evidence, f: Facts, k: Key, row: Snapshot, g: Goals.Goal)
    requires AtGoal(f, k, row, g)
    ensures StartsOk(e, f, k, SaveGoal(row, Goals.Cancel(g), None, ChaseSaved))
  {
    if Goals.Cancel(g).Ok? {
      Goals.CancelKeeps(e, g);
      GoalSaved(e, f, k, row, g, Goals.Cancel(g).value, None, ChaseSaved);
    }
  }

  lemma ExpireOk(e: Evidence, f: Facts, k: Key, row: Snapshot, g: Goals.Goal)
    requires AtGoal(f, k, row, g) && !g.status.Complete? && !g.status.Cancelled?
    ensures StartsOk(e, f, k, SaveGoal(row, Ok(Goals.Expire(g)), None, ChaseSaved))
  {
    Goals.ExpireKeeps(e, g);
    GoalSaved(e, f, k, row, g, Goals.Expire(g), None, ChaseSaved);
  }

  lemma SendGoalOk(e: Evidence, f: Facts, k: Key, row: Snapshot, g: Goals.Goal, recovery: bool, o: Oracle)
    requires AtGoal(f, k, row, g)
    ensures StartsOk(e, f, k, DecideSendGoal(row, g, recovery, o))
  {
    if g.pending.Some? && g.status.Active? {
      ExpireOk(e, f, k, row, g);
      if g.pending.value.phase.Reserved? {
        Goals.MarkSendingKeeps(e, g);
        GoalSaved(e, f, k, row, g, Goals.MarkSending(g), None, VerifySaved);
      }
    }
  }

  lemma ProbeOk(e: Evidence, f: Facts, k: Key, row: Snapshot, g: Goals.Goal)
    requires AtGoal(f, k, row, g) && g.pending.Some?
    ensures StartsOk(e, f, k, Move(Probe(row, g.pending.value.input)))
  {
  }

  lemma GoalDecided(e: Evidence, f: Facts, k: Key, op: Op, row: Snapshot, g: Goals.Goal, o: Oracle)
    requires AtGoal(f, k, row, g)
    ensures StartsOk(e, f, k, DecideGoal(op, row, g, o))
  {
    hide StartsOk, DecideSendGoal, SaveGoal;
    LeavesOk(e, f, k);
    match op
    case ReserveStep(_, _, taskId, context) => ReserveStepOk(e, f, k, row, g, taskId, context, o);
    case PauseGoal(_, _) => PauseOk(e, f, k, row, g);
    case ResumeGoal(_, _) => ResumeOk(e, f, k, row, g, o);
    case CancelGoal(_, _) => CancelOk(e, f, k, row, g);
    case TickGoal(_, _) => if !(g.status.Complete? || Goals.Stopped(g)) { ExpireOk(e, f, k, row, g); }
    case ReconcileGoal(_, _) => if g.pending.Some? { ProbeOk(e, f, k, row, g); }
    case Send(_, _, recovery) => SendGoalOk(e, f, k, row, g, recovery, o);
    case _ =>
  }

  // ---------------------------------------------------------------------
  // Side questions
  // ---------------------------------------------------------------------

  ghost predicate AtBtw(f: Facts, k: Key, row: Snapshot, b: Goals.Btw)
  {
    Snap(f.history, k, row) && row.value == BtwRec(b) && VersionOk(k, row.value)
  }

  lemma BtwSaved(e: Evidence, f: Facts, k: Key, row: Snapshot, a: Goals.Btw, b: Goals.Btw, next: Next)
    requires AtBtw(f, k, row, a) && Goals.BtwEvolves(e, a, b) && NextOk(BtwRec(b), next)
    ensures StartsOk(e, f, k, Save(Some(row.revision), BtwRec(b), None, next))
  {
  }

  lemma BtwDecided(e: Evidence, f: Facts, k: Key, op: Op, row: Snapshot, b: Goals.Btw)
    requires AtBtw(f, k, row, b)
    ensures StartsOk(e, f, k, DecideBtw(op, row, b))
  {
    if op.CancelBtw? && !b.status.Answered? {
      Goals.BtwCancelKeeps(e, b);
      BtwSaved(e, f, k, row, b, b.(status := Goals.SideCancelled), ChaseSaved);
    }
    if op.Send? && !b.status.SideCancelled? {
      Goals.BtwSendingKeeps(e, b);
      BtwSaved(e, f, k, row, b, b.(pending := b.pending.(phase := Sending)), VerifySaved);
    }
  }

  // ---------------------------------------------------------------------
  // Runs
  // ---------------------------------------------------------------------

  ghost predicate AtRun(f: Facts, k: Key, row: Snapshot, r: Runs.Run)
  {
    Snap(f.history, k, row) && row.value == RunRec(r) && VersionOk(k, row.value)
  }

  lemma RunSaved(e: Evidence, f: Facts, k: Key, row: Snapshot, a: Runs.Run, b: Runs.Run, newId: Option<Text>, next: Next)
    requires AtRun(f, k, row, a) && Runs.RunOk(b) && Runs.RunEvolves(e, a, b)
    requires Reserves(a.pending, b.pending, newId) && NextOk(RunRec(b), next)
    ensures StartsOk(e, f, k, Save(Some(row.revision), RunRec(b), newId, next))
  {
  }

  lemma SendRunOk(e: Evidence, f: Facts, k: Key, row: Snapshot, r: Runs.Run, recovery: bool, o: Oracle)
    requires AtRun(f, k, row, r)
    ensures StartsOk(e, f, k, DecideSendRun(row, r, recovery, o))
  {
    if !Runs.Stopped(r) && r.pending.Some? && r.pending.value.phase.Reserved? {
      Runs.MarkSendingKeeps(e, r);
      RunSaved(e, f, k, row, r, Runs.MarkSending(r), None, VerifySaved);
    }
  }

  lemma CloseOk(e: Evidence, f: Facts, k: Key, row: Snapshot, r: Runs.Run, why: Runs.Closing)
    requires AtRun(f, k, row, r) && !r.status.Complete? && (Runs.Stopped(r) ==> why.ByCancel?)
    ensures StartsOk(e, f, k, SaveRun(row, Ok(Runs.Close(r, why)), ChaseSaved))
  {
    Runs.CloseKeeps(e, r, why);
    RunSaved(e, f, k, row, r, Runs.Close(r, why), None, ChaseSaved);
  }

  lemma ChangeContextOk(e: Evidence, f: Facts, k: Key, row: Snapshot, r: Runs.Run, next: Text)
    requires AtRun(f, k, row, r)
    ensures StartsOk(e, f, k, SaveRun(row, Runs.ChangeContext(r, next), ChaseSaved))
  {
    if Runs.ChangeContext(r, next).Ok? {
      Runs.ChangeContextKeeps(e, r, next);
      RunSaved(e, f, k, row, r, Runs.ChangeContext(r, next).value, None, ChaseSaved);
    }
  }

  lemma AnswerOk(e: Evidence, f: Facts, k: Key, row: Snapshot, r: Runs.Run, p: Runs.Principal, binding: Value, a: Runs.AnswerArgs, o: Oracle)
    requires AtRun(f, k, row, r)
    ensures StartsOk(e, f, k, DecideAnswer(row, r, p, binding, a, o))
  {
    hide Runs.Answer, Runs.RunOk, Runs.RunEvolves, SaveOk;
    var out := Runs.Answer(r, p, binding, a, o.now);
    if out.Accepted? {
      Runs.AnswerAccepts(r, p, binding, a, o.now);
      Runs.ConsumeKeepsOk(r, out.receipt, a.nextContextRevision, out.run.pending.value.input);
      Runs.ConsumeKeeps(e, r, out.receipt, a.nextContextRevision, out.run.pending.value.input);
      Runs.WaitingHoldsNothing(r);
      RunSaved(e, f, k, row, r, out.run, Some(a.taskId), Reply(out.receipt));
    }
  }

  lemma ChaseRunOk(e: Evidence, f: Facts, k: Key, row: Snapshot, r: Runs.Run)
    requires AtRun(f, k, row, r)
    ensures StartsOk(e, f, k, Move(ChasePc(RunRec(r)))) && StartsOk(e, f, k, Become(TickRun(r.id, row.revision)))
  {
  }

  lemma ProbeRunOk(e: Evidence, f: Facts, k: Key, row: Snapshot, r: Runs.Run)
    requires AtRun(f, k, row, r) && r.pending.Some? && !Runs.Stopped(r)
    ensures StartsOk(e, f, k, Move(ProbeOffer(row, r.pending.value.input)))
  {
  }

  lemma NotifyOk(e: Evidence, f: Facts, k: Key, row: Snapshot, r: Runs.Run)
    requires AtRun(f, k, row, r) && r.status.WaitingInput?
    ensures StartsOk(e, f, k, Move(Delivering(row)))
  {
  }

  lemma RunDecided(e: Evidence, f: Facts, k: Key, op: Op, row: Snapshot, r: Runs.Run, o: Oracle)
    requires AtRun(f, k, row, r)
    ensures StartsOk(e, f, k, DecideRun(op, row, r, o))
  {
    hide StartsOk, DecideAnswer, DecideSendRun, Runs.Last, Runs.Due, Runs.Close;
    LeavesOk(e, f, k);
    ChaseRunOk(e, f, k, row, r);
    match op
    case ReconcileRun(_, _) => if r.pending.Some? && !Runs.Stopped(r) { ProbeRunOk(e, f, k, row, r); }
    case Notify(_, _) => if r.status.WaitingInput? { NotifyOk(e, f, k, row, r); }
    case AnswerRun(p, binding, a) => AnswerOk(e, f, k, row, r, p, binding, a, o);
    case CancelRun(_, _) => if !r.status.Complete? { CloseOk(e, f, k, row, r, Runs.ByCancel); }
    case ChangeContext(_, _, next) => ChangeContextOk(e, f, k, row, r, next);
    case TickRun(_, _) => if !Runs.Stopped(r) { CloseOk(e, f, k, row, r, Runs.ByExpiry); }
    case Send(_, _, recovery) => SendRunOk(e, f, k, row, r, recovery, o);
    case _ =>
  }

  // ---------------------------------------------------------------------
  // Reconciliation
  // ---------------------------------------------------------------------

  /** What was seen is on record: the execution is settled, and a completion is the device's. */
  ghost predicate OnRecord(e: Evidence, t: Text, seen: Observed)
  {
    t in e.settled && (seen.SeenComplete? ==> t in e.completed && e.completed[t] == seen.document)
  }

  lemma BlockOk(e: Evidence, f: Facts, k: Key, row: Snapshot, g: Goals.Goal, reason: Goals.Reason)
    requires AtGoal(f, k, row, g) && g.pending.Some? && g.pending.value.input.taskId in e.settled && !Goals.Stopped(g)
    ensures StartsOk(e, f, k, SaveGoal(row, Ok(Goals.Block(Goals.Settle(g), reason)), None, Finish))
  {
    Goals.SettleKeeps(e, g, reason);
    GoalSaved(e, f, k, row, g, Goals.Block(Goals.Settle(g), reason), None, Finish);
  }

  lemma SettleOk(e: Evidence, f: Facts, k: Key, row: Snapshot, g: Goals.Goal)
    requires AtGoal(f, k, row, g) && g.pending.Some? && g.pending.value.input.taskId in e.settled && Goals.Stopped(g)
    ensures StartsOk(e, f, k, SaveGoal(row, Ok(Goals.Settle(g)), None, Finish))
  {
    Goals.SettleKeeps(e, g, Goals.NoReason);
    GoalSaved(e, f, k, row, g, Goals.Settle(g), None, Finish);
  }

  lemma ReportOk(e: Evidence, f: Facts, k: Key, row: Snapshot, g: Goals.Goal, input: Input, document: Option<Value>, d: Result<Decision>)
    requires AtGoal(f, k, row, g) && HasInput(row.value, input) && OnRecord(e, input.taskId, SeenComplete(document)) && !Goals.Stopped(g)
    requires e.settled == Settled(f.server) && e.completed == f.completed && (d.Ok? ==> Reads(document, d.value))
    ensures StartsOk(e, f, k, DecideReport(row, g, input, d))
  {
    hide ParseDecision;
    if d.Err? { BlockOk(e, f, k, row, g, Goals.InvalidResult); }
  }

  lemma ReportReads(document: Option<Value>, o: Oracle)
    ensures ReadReport(document, o).Ok? ==> Reads(document, ReadReport(document, o).value)
  {
    if ReadReport(document, o).Ok? { ReadsNow(document, o.now, ReadReport(document, o).value); }
  }

  lemma SeenGoalOk(e: Evidence, f: Facts, k: Key, row: Snapshot, g: Goals.Goal, input: Input, seen: Observed, o: Oracle)
    requires AtGoal(f, k, row, g) && HasInput(row.value, input) && OnRecord(e, input.taskId, seen)
    requires e.settled == Settled(f.server) && e.completed == f.completed
    ensures StartsOk(e, f, k, DecideSeenGoal(row, g, input, seen, o))
  {
    if Goals.Stopped(g) {
      SettleOk(e, f, k, row, g);
    } else {
      match seen
      case SeenCancelled => BlockOk(e, f, k, row, g, Goals.ExecutionCancelled);
      case SeenFailed => BlockOk(e, f, k, row, g, Goals.ExecutionFailedOrDeclined);
      case SeenComplete(document) =>
        ReportReads(document, o);
        ReportOk(e, f, k, row, g, input, document, ReadReport(document, o));
    }
  }

  lemma VerdictOk(e: Evidence, f: Facts, k: Key, row: Snapshot, g: Goals.Goal, decision: Decision, o: Oracle)
    requires AtGoal(f, k, row, g) && !Goals.Stopped(g) && g.pending.Some? && g.pending.value.input.taskId in e.settled
    requires decision.Complete? ==> Goals.Earned(e, g.pending.value.input.taskId)
    ensures StartsOk(e, f, k, SaveGoal(row, Goals.Conclude(Goals.Settle(g), decision, o.now), None, Finish))
  {
    var b := Goals.Conclude(Goals.Settle(g), decision, o.now);
    if b.Ok? {
      Goals.ConcludeKeeps(e, g, decision, o.now);
      Goals.ConcludeFrame(Goals.Settle(g), decision, o.now);
      GoalSaved(e, f, k, row, g, b.value, None, Finish);
    }
  }

  lemma JudgedOk(e: Evidence, f: Facts, k: Key, row: Snapshot, g: Goals.Goal, input: Input, decision: Decision, o: Oracle)
    requires AtGoal(f, k, row, g) && !Goals.Stopped(g) && HasInput(row.value, input) && input.taskId in e.settled
    requires o.ok ==> input.taskId in e.completed && (input.taskId, decision) in e.accepted
    ensures StartsOk(e, f, k, DecideJudged(row, decision, o))
  {
    if o.ok {
      VerdictOk(e, f, k, row, g, decision, o);
    } else {
      BlockOk(e, f, k, row, g, Goals.ResultNotAccepted);
    }
  }

  lemma SeenBtwOk(e: Evidence, f: Facts, k: Key, row: Snapshot, b: Goals.Btw, seen: Observed)
    requires AtBtw(f, k, row, b) && b.status.Asked? && OnRecord(e, b.pending.input.taskId, seen)
    ensures StartsOk(e, f, k, Save(Some(row.revision), BtwRec(Goals.SettleBtw(b, seen)), None, Finish))
  {
    Goals.BtwSettleKeeps(e, b, seen);
    BtwSaved(e, f, k, row, b, Goals.SettleBtw(b, seen), Finish);
  }

  lemma ReconciledRun(e: Evidence, f: Facts, k: Key, row: Snapshot, r: Runs.Run, b: Result<Runs.Run>)
    requires AtRun(f, k, row, r) && (b.Ok? ==> Runs.Kept(e, r, b.value))
    ensures StartsOk(e, f, k, SaveRun(row, b, Finish))
  {
    if b.Ok? { RunSaved(e, f, k, row, r, b.value, None, Finish); }
  }

  lemma SeenRunOk(e: Evidence, f: Facts, k: Key, row: Snapshot, r: Runs.Run, seen: Observed, o: Oracle)
    requires AtRun(f, k, row, r) && !Runs.Stopped(r) && r.pending.Some? && OnRecord(e, r.pending.value.input.taskId, seen)
    ensures StartsOk(e, f, k, SaveRun(row, Runs.Reconcile(r, seen, o.now, o.freshId), Finish))
  {
    var b := Runs.Reconcile(r, seen, o.now, o.freshId);
    if b.Ok? { Runs.ReconcileKeeps(e, r, seen, o.now, o.freshId); }
    ReconciledRun(e, f, k, row, r, b);
  }

  lemma SeenOk(e: Evidence, f: Facts, k: Key, row: Snapshot, input: Input, seen: Observed, o: Oracle)
    requires Reconciling(f, k, row, input) && VersionOk(k, row.value) && OnRecord(e, input.taskId, seen)
    requires e.settled == Settled(f.server) && e.completed == f.completed
    ensures StartsOk(e, f, k, DecideSeen(row, input, seen, o))
  {
    match row.value
    case GoalRec(g) => SeenGoalOk(e, f, k, row, g, input, seen, o);
    case BtwRec(b) => SeenBtwOk(e, f, k, row, b, seen);
    case RunRec(r) => SeenRunOk(e, f, k, row, r, seen, o);
  }

  // ---------------------------------------------------------------------
  // Every position of a call
  // ---------------------------------------------------------------------

  /** What a load returns is the last version. */
  lemma Fetched(s: State, k: Key)
    requires TableOk(s.table.rows, s.history) && Fetch(s, k).Some?
    ensures k in s.history && s.history[k] != []
    ensures Fetch(s, k).value == Snapshot(|s.history[k]| - 1, s.history[k][|s.history[k]| - 1])
    ensures Snap(s.history, k, Fetch(s, k).value)
  {
    hide Readable;
    assert RowOk(s.table.rows[k], s.history[k]);
  }

  lemma SnapVersion(e: Evidence, history: map<Key, seq<Record>>, k: Key, row: Snapshot)
    requires HistoryOk(e, history) && Snap(history, k, row)
    ensures VersionOk(k, row.value)
  {
    hide RecordOk, Evolves;
    assert VersionsOk(e, k, history[k]);
  }

  lemma LoadOk(s: State, op: Op, revision: Option<int>)
    requires TableOk(s.table.rows, s.history)
    ensures StartsOk(Proof(s), Known(s), KeyOfOp(op), Load(s, op, revision))
  {
    hide Fetch, RowOk;
    if Fetch(s, KeyOfOp(op)).Some? { Fetched(s, KeyOfOp(op)); }
  }

  lemma StartGoalOk(e: Evidence, f: Facts, id: Text, objective: Text, target: Value, maxSteps: int, deadline: int, now: int)
    requires Goals.Start(id, objective, target, maxSteps, deadline, now).Ok?
    ensures StartsOk(e, f, Key(GoalKind, id),
                     Save(None, GoalRec(Goals.Start(id, objective, target, maxSteps, deadline, now).value), None, Finish))
  {
    hide ValidTarget, Blank, Goals.GoalOk;
    Goals.StartKeeps(id, objective, target, maxSteps, deadline, now);
  }

  lemma StartRunOk(e: Evidence, f: Facts, a: Runs.RunArgs, tenant: Text, taskId: Text, now: int)
    requires Runs.Start(a, tenant, taskId, now).Ok?
    ensures StartsOk(e, f, Key(RunKind, a.id), Save(None, RunRec(Runs.Start(a, tenant, taskId, now).value), Some(taskId), Finish))
  {
    hide ValidTarget, Blank, Runs.NextInput, Runs.RunOk;
    Runs.StartKeeps(a, tenant, taskId, now);
  }

  lemma ReserveBtwOk(e: Evidence, f: Facts, a: Goals.BtwArgs, agentId: Text)
    requires Goals.ReserveBtw(a, agentId).Ok?
    ensures StartsOk(e, f, Key(BtwKind, a.id), Save(None, BtwRec(Goals.ReserveBtw(a, agentId).value), Some(a.taskId), Finish))
  {
    hide Goals.BtwInstruction, Projection, Goals.AgentIdOf;
  }

  lemma BeginOk(s: State, op: Op, o: Oracle)
    requires TableOk(s.table.rows, s.history)
    ensures StartsOk(Proof(s), Known(s), KeyOfOp(op), DecideBegin(s, op, o))
  {
    hide Goals.Start, Runs.Start, SaveOk, Goals.ValidBtwArgs, Load;
    match op
    case StartGoal(id, objective, target, maxSteps, deadline) =>
      if Goals.Start(id, objective, target, maxSteps, deadline, o.now).Ok? {
        StartGoalOk(Proof(s), Known(s), id, objective, target, maxSteps, deadline, o.now);
      }
    case StartRun(start, taskId) =>
      if Runs.Start(start, s.tenant, taskId, o.now).Ok? {
        StartRunOk(Proof(s), Known(s), start, s.tenant, taskId, o.now);
      }
    case ReserveBtw(args) =>
    case AnswerRun(_, _, _) => LoadOk(s, op, None);
    case _ => LoadOk(s, op, Some(op.revision));
  }

  lemma LoadedOk(e: Evidence, f: Facts, k: Key, op: Op, row: Snapshot, o: Oracle)
    requires Snap(f.history, k, row) && VersionOk(k, row.value)
    ensures StartsOk(e, f, k, DecideLoaded(op, row, o))
  {
    hide DecideGoal, DecideBtw, DecideRun, StartsOk;
    match row.value
    case GoalRec(g) => GoalDecided(e, f, k, op, row, g, o);
    case BtwRec(b) => BtwDecided(e, f, k, op, row, b);
    case RunRec(r) => RunDecided(e, f, k, op, row, r, o);
  }

  lemma SendingOk(s: State, call: Call, o: Oracle)
    requires DataOk(s) && PcOk(Known(s), KeyOfOp(call.op), call.pc)
    requires call.pc.Verify? || call.pc.Recheck? || call.pc.Submitting? || call.pc.Awaiting? || call.pc.Doubting? || call.pc.Rereading?
    ensures StartsOk(Proof(s), Known(s), KeyOfOp(call.op), Decide(s, call, o))
  {
    hide Fetch, ReadOffer, HistoryOk, ReservedOk, SubmitsOk, AcceptedOk, SaveOk, DecideBegin, DecideLoaded, DecideSeen, DecideJudged, Matches;
    if Fetch(s, KeyOfOp(call.op)).Some? { Fetched(s, KeyOfOp(call.op)); }
    OfferSeen(s.server, call.pc.input);
  }

  lemma OfferSeen(server: Server, input: Input)
    requires Consistent(server)
    ensures ReadOffer(server, input).WasDelivered? ==> input.taskId in server.attempts
  {
    hide Canonical;
  }

  lemma FlushingOk(s: State, call: Call, o: Oracle)
    requires CallOk(Known(s), call) && FlushInput(call.pc).Some?
    ensures FlushOk(Known(s), call, Decide(s, call, o))
  {
    hide Fetch, ReadOffer, DecideBegin, DecideLoaded, DecideSeen, DecideJudged, Matches;
  }

  /** What the terminal read says, given the attempt as it is now. */
  lemma ObservedOk(s: State, input: Input, terminal: Option<Terminal>)
    requires Consistent(s.server) && input.taskId in s.server.attempts && TerminalSeen(Known(s), input.taskId, terminal)
    requires Observe(s.server, input, terminal).Sees?
    ensures var what := Observe(s.server, input, terminal).what;
      && input.taskId in Settled(s.server)
      && (what.SeenComplete? ==> input.taskId in s.server.terminals && s.server.terminals[input.taskId].document == what.document)
  {
  }

  lemma ReconcilingOk(s: State, call: Call, o: Oracle)
    requires DataOk(s) && PcOk(Known(s), KeyOfOp(call.op), call.pc)
    requires call.pc.ProbeOffer? || call.pc.Probe? || call.pc.AtTerminal? || call.pc.Delivering?
    ensures StartsOk(Proof(s), Known(s), KeyOfOp(call.op), Decide(s, call, o))
  {
    hide Fetch, ReadOffer, HistoryOk, ReservedOk, SubmitsOk, AcceptedOk, SaveOk, DecideBegin, DecideLoaded, DecideSeen, DecideJudged, Matches;
  }

  lemma AcknowledgingOk(s: State, call: Call, o: Oracle)
    requires DataOk(s) && PcOk(Known(s), KeyOfOp(call.op), call.pc) && call.pc.Acknowledging?
    ensures StartsOk(Proof(s), Known(s), KeyOfOp(call.op), Decide(s, call, o))
  {
    hide Fetch, ReadOffer, HistoryOk, ReservedOk, SubmitsOk, AcceptedOk, RecordOk, SaveOk, DecideBegin, DecideLoaded, DecideSeen, DecideJudged, Matches;
    SnapVersion(Proof(s), s.history, KeyOfOp(call.op), call.pc.row);
    if call.pc.row.value.run.tickets != [] {
      DeliveredOk(Proof(s), Known(s), KeyOfOp(call.op), call.pc.row, call.pc.row.value.run);
    }
  }

  lemma DeliveredOk(e: Evidence, f: Facts, k: Key, row: Snapshot, r: Runs.Run)
    requires AtRun(f, k, row, r) && r.status.WaitingInput? && r.tickets != []
    ensures StartsOk(e, f, k, SaveRun(row, Ok(Runs.MarkDelivered(r)), Finish))
  {
    Runs.DeliveredIsOk(r);
    Runs.DeliveredEvolves(e, r);
    RunSaved(e, f, k, row, r, Runs.MarkDelivered(r), None, Finish);
  }

  // ---------------------------------------------------------------------
  // Every step
  // ---------------------------------------------------------------------

  /** What the step reveals has been written down. */
  ghost predicate IsNoted(s: State, call: Call, o: Oracle)
  {
    match call.pc
    case SecondLook(_, input, terminal) =>
      var sight := Observe(s.server, input, terminal);
      sight.Sees? && sight.what.SeenComplete? ==> input.taskId in s.completed && s.completed[input.taskId] == sight.what.document
    case Judging(_, input, decision) => o.ok ==> (input.taskId, decision) in s.accepted
    case _ => true
  }

  lemma SightNoted(s: State, call: Call, o: Oracle)
    requires Inv(s) && CallOk(Known(s), call) && call.pc.SecondLook?
    ensures Inv(Noted(s, call, o)) && IsNoted(Noted(s, call, o), call, o)
  {
    hide HistoryOk, ReservedOk, SubmitsOk, AcceptedOk, PairsOk, CallsOk;
    var input := call.pc.input;
    var sight := Observe(s.server, input, call.pc.terminal);
    if sight.Sees? && sight.what.SeenComplete? { CompletionKeeps(s, input.taskId, sight.what.document); }
  }

  lemma VerdictNoted(s: State, call: Call, o: Oracle)
    requires Inv(s) && CallOk(Known(s), call) && call.pc.Judging?
    ensures Inv(Noted(s, call, o)) && IsNoted(Noted(s, call, o), call, o)
  {
    hide HistoryOk, ReservedOk, SubmitsOk, AcceptedOk, PairsOk, CallsOk, Reads;
    if o.ok { VerdictKeeps(s, call.pc.input.taskId, call.pc.decision); }
  }

  lemma NotedKeeps(s: State, c: nat, o: Oracle)
    requires Inv(s) && c in s.calls
    ensures Inv(Noted(s, s.calls[c], o)) && IsNoted(Noted(s, s.calls[c], o), s.calls[c], o)
  {
    hide DataOk, PairsOk, CallOk;
    assert CallOk(Known(s), s.calls[c]);
    if s.calls[c].pc.SecondLook? {
      SightNoted(s, s.calls[c], o);
    } else if s.calls[c].pc.Judging? {
      VerdictNoted(s, s.calls[c], o);
    }
  }

  lemma SightOk(s: State, k: Key, row: Snapshot, input: Input, terminal: Option<Terminal>, o: Oracle)
    requires Consistent(s.server) && HistoryOk(Proof(s), s.history)
    requires Reconciling(Known(s), k, row, input) && input.taskId in s.server.attempts && TerminalSeen(Known(s), input.taskId, terminal)
    requires var sight := Observe(s.server, input, terminal);
      sight.Sees? && sight.what.SeenComplete? ==> input.taskId in s.completed && s.completed[input.taskId] == sight.what.document
    ensures StartsOk(Proof(s), Known(s), k, DecideSight(row, input, Observe(s.server, input, terminal), o))
  {
    hide HistoryOk, RecordOk, SaveOk, DecideSeen;
    SnapVersion(Proof(s), s.history, k, row);
    if Observe(s.server, input, terminal).Sees? {
      ObservedOk(s, input, terminal);
      SeenOk(Proof(s), Known(s), k, row, input, Observe(s.server, input, terminal).what, o);
    }
  }

  lemma SecondLookOk(s: State, call: Call, o: Oracle)
    requires DataOk(s) && PcOk(Known(s), KeyOfOp(call.op), call.pc) && call.pc.SecondLook? && IsNoted(s, call, o)
    ensures StartsOk(Proof(s), Known(s), KeyOfOp(call.op), Decide(s, call, o))
  {
    hide Fetch, ReadOffer, HistoryOk, ReservedOk, SubmitsOk, AcceptedOk, StartsOk, DecideBegin, DecideLoaded, DecideSight, DecideJudged, Matches;
    SightOk(s, KeyOfOp(call.op), call.pc.row, call.pc.input, call.pc.terminal, o);
  }

  lemma JudgingOk(s: State, call: Call, o: Oracle)
    requires DataOk(s) && PcOk(Known(s), KeyOfOp(call.op), call.pc) && call.pc.Judging? && IsNoted(s, call, o)
    ensures StartsOk(Proof(s), Known(s), KeyOfOp(call.op), Decide(s, call, o))
  {
    hide Fetch, ReadOffer, ReservedOk, DecideBegin, DecideLoaded, DecideSeen, DecideJudged, Matches, HistoryOk, ParseDecision;
    var pc := call.pc;
    SnapVersion(Proof(s), s.history, KeyOfOp(call.op), pc.row);
    JudgedOk(Proof(s), Known(s), KeyOfOp(call.op), pc.row, pc.row.value.goal, pc.input, pc.decision, o);
  }

  lemma MainSeenOk(s: State, call: Call, o: Oracle)
    requires call.pc.MainSeen?
    ensures StartsOk(Proof(s), Known(s), KeyOfOp(call.op), Decide(s, call, o))
  {
    hide Fetch, ReadOffer, DecideBegin, DecideLoaded, DecideSeen, DecideJudged, Matches, Goals.ReserveBtw, SaveOk;
    if call.op.ReserveBtw? && Goals.ReserveBtw(call.op.args, call.pc.mainAgentId).Ok? {
      ReserveBtwOk(Proof(s), Known(s), call.op.args, call.pc.mainAgentId);
    }
  }

  lemma StartedOk(s: State, call: Call, o: Oracle)
    requires DataOk(s) && PcOk(Known(s), KeyOfOp(call.op), call.pc) && (call.pc.Begin? || call.pc.Loaded?)
    ensures StartsOk(Proof(s), Known(s), KeyOfOp(call.op), Decide(s, call, o))
  {
    hide Fetch, ReadOffer, DecideBegin, DecideLoaded, DecideSeen, DecideJudged, Matches, HistoryOk, ReservedOk, StartsOk;
    if call.pc.Begin? {
      BeginOk(s, call.op, o);
    } else {
      SnapVersion(Proof(s), s.history, KeyOfOp(call.op), call.pc.row);
      LoadedOk(Proof(s), Known(s), KeyOfOp(call.op), call.op, call.pc.row, o);
    }
  }

  lemma DecideOk(s: State, call: Call, o: Oracle)
    requires DataOk(s) && PcOk(Known(s), KeyOfOp(call.op), call.pc) && IsNoted(s, call, o)
    requires !call.pc.Done? && !call.pc.Failed? && FlushInput(call.pc).None?
    ensures StartsOk(Proof(s), Known(s), KeyOfOp(call.op), Decide(s, call, o))
  {
    hide Decide, StartsOk, DataOk;
    match call.pc
    case Begin => StartedOk(s, call, o);
    case Loaded(_) => StartedOk(s, call, o);
    case MainSeen(_) => MainSeenOk(s, call, o);
    case ProbeOffer(_, _) => ReconcilingOk(s, call, o);
    case Probe(_, _) => ReconcilingOk(s, call, o);
    case AtTerminal(_, _) => ReconcilingOk(s, call, o);
    case SecondLook(_, _, _) => SecondLookOk(s, call, o);
    case Judging(_, _, _) => JudgingOk(s, call, o);
    case Delivering(_) => ReconcilingOk(s, call, o);
    case Acknowledging(_) => AcknowledgingOk(s, call, o);
    case _ => SendingOk(s, call, o);
  }

  /** Whatever its position, a call only saves what may be saved, and only turns into another call on its own record. */
  lemma DecidesWell(s: State, call: Call, o: Oracle)
    requires DataOk(s) && CallOk(Known(s), call) && IsNoted(s, call, o) && !call.pc.Done? && !call.pc.Failed?
    ensures Decide(s, call, o).Save? ==> SaveOk(Proof(s), s.history, KeyOfOp(call.op), Decide(s, call, o))
    ensures Decide(s, call, o).Become? ==> KeyOfOp(Decide(s, call, o).op) == KeyOfOp(call.op)
  {
    hide Decide, DataOk, PcOk, SaveOk;
    if FlushInput(call.pc).Some? {
      FlushingOk(s, call, o);
    } else {
      DecideOk(s, call, o);
    }
  }

  lemma ActKeeps(s: State, c: nat, o: Oracle)
    requires Inv(s) && c in s.calls && IsNoted(s, s.calls[c], o) && !s.calls[c].pc.Done? && !s.calls[c].pc.Failed?
    ensures Inv(Act(s, c, o))
  {
    hide Decide, StartsOk, FlushOk, DataOk, Apply;
    assert CallOk(Known(s), s.calls[c]);
    if FlushInput(s.calls[c].pc).Some? {
      FlushingOk(s, s.calls[c], o);
      FlushKeeps(s, c, Decide(s, s.calls[c], o));
    } else {
      DecideOk(s, s.calls[c], o);
      StartKeeps(s, c, Decide(s, s.calls[c], o));
    }
  }

  lemma StepKeeps(s: State, a: Action)
    requires Inv(s)
    ensures Inv(Step(s, a))
  {
    hide Act, Inv, Noted;
    match a
    case Invoke(c, op) => InvokeKeeps(s, c, op);
    case Advance(c, o) =>
      if c in s.calls && !s.calls[c].pc.Done? && !s.calls[c].pc.Failed? {
        NotedKeeps(s, c, o);
        ActKeeps(Noted(s, s.calls[c], o), c, o);
      }
    case Crash(c) => if c in s.calls && !s.calls[c].pc.Done? { CrashKeeps(s, c); }
    case World(server) => if Grows(s.server, server) { ServerKeeps(s, server); }
  }

  lemma InitOk(tenant: Text, cap: int)
    ensures Inv(Init(tenant, cap))
  {
  }

  /** Every state of every run satisfies the invariant. */
  lemma {:induction false} Reachable(run: seq<State>, n: nat)
    requires IsRun(run) && n < |run|
    ensures Inv(run[n])
  {
    hide Inv, Step;
    if n == 0 {
      InitOk(run[0].tenant, run[0].cap);
    } else {
      Reachable(run, n - 1);
      assert MovesAt(run, n - 1);
      var a :| run[n] == Step(run[n - 1], a);
      StepKeeps(run[n - 1], a);
    }
  }
}
