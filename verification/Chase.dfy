/**
A stop always catches a racing submission: whatever the interleaving of a
sender and a stopper of one record, when both have returned the execution has a
cancellation request or had already ended.
*/
module Chase {
  import opened Json
  import opened Documents
  import opened Executions
  import opened CasStore
  import opened Servers
  import opened Protocol
  import opened Invariants
  import opened Decisions
  import opened Guarantees
  import opened Readability
  import Goals
  import Runs

  // ---------------------------------------------------------------------
  // A sender that returns has re-read the record after its submission
  // ---------------------------------------------------------------------

  function SendingInput(pc: Pc): Option<Input>
  {
    match pc
    case Awaiting(input, _) => Some(input)
    case Doubting(input, _) => Some(input)
    case Rereading(input, _) => Some(input)
    case _ => None
  }

  ghost predicate SentOk(call: Call)
  {
    call.sent.Some? ==>
      || (SendingInput(call.pc).Some? && SendingInput(call.pc).value.taskId == call.sent.value)
      || ((FlushInput(call.pc).Some? || call.pc.Done?) && call.reread.Some? && call.reread.value.taskId == call.sent.value)
      || call.pc.Failed?
  }

  ghost predicate AllSentOk(s: State)
  {
    forall c :: c in s.calls ==> SentOk(s.calls[c])
  }

  /** A call that has sent nothing may do anything. */
  lemma UnsentSent(s: State, c: nat, call: Call, eff: Effect)
    requires AllSentOk(s) && call.sent.None?
    ensures AllSentOk(Apply(s, c, call, eff))
  {
    hide Commit, Book, ChasePc;
  }

  ghost predicate StaysSent(call: Call, eff: Effect)
    requires call.sent.Some?
  {
    match eff
    case Move(pc) => SentOk(call.(pc := pc))
    case RequestCancel(_) => call.reread.Some? && call.reread.value.taskId == call.sent.value
    case Miss => call.reread.Some? && call.reread.value.taskId == call.sent.value
    case Seen(mark, pc) => mark.taskId == call.sent.value && (FlushInput(pc).Some? || pc.Done?)
    case _ => false
  }

  lemma SentStays(s: State, call: Call, o: Oracle)
    requires SentOk(call) && call.sent.Some? && !call.pc.Done? && !call.pc.Failed?
    ensures StaysSent(call, Decide(s, call, o))
  {
    hide Fetch, ReadOffer, DecideBegin, DecideLoaded, DecideSight, DecideJudged, Matches;
  }

  lemma ApplySent(s: State, c: nat, call: Call, eff: Effect)
    requires AllSentOk(s) && call.sent.Some? && StaysSent(call, eff)
    ensures AllSentOk(Apply(s, c, call, eff))
  {
    hide SaveStep;
  }

  lemma ActSent(s: State, c: nat, o: Oracle)
    requires AllSentOk(s) && c in s.calls && !s.calls[c].pc.Done? && !s.calls[c].pc.Failed?
    ensures AllSentOk(Act(s, c, o))
  {
    hide Decide, Apply, StaysSent, SentOk;
    var eff := Decide(s, s.calls[c], o);
    if s.calls[c].sent.None? {
      UnsentSent(s, c, s.calls[c], eff);
    } else {
      SentStays(s, s.calls[c], o);
      ApplySent(s, c, s.calls[c], eff);
    }
  }

  lemma StepSent(s: State, a: Action)
    requires AllSentOk(s)
    ensures AllSentOk(Step(s, a))
  {
    hide Act, Noted;
    match a
    case Advance(c, o) =>
      if c in s.calls && !s.calls[c].pc.Done? && !s.calls[c].pc.Failed? { ActSent(Noted(s, s.calls[c], o), c, o); }
    case _ =>
  }

  lemma {:induction false} SendersReread(run: seq<State>, n: nat)
    requires IsRun(run) && n < |run|
    ensures AllSentOk(run[n])
  {
    hide Step, SentOk;
    if n > 0 {
      SendersReread(run, n - 1);
      assert MovesAt(run, n - 1);
      var a :| run[n] == Step(run[n - 1], a);
      StepSent(run[n - 1], a);
    }
  }

  // ---------------------------------------------------------------------
  // The chase
  // ---------------------------------------------------------------------

  lemma CaughtInOrder(s: State, stopper: Call, sender: Call, t: Text)
    requires Inv(s) && CallOk(Known(s), stopper) && CallOk(Known(s), sender) && InOrder(stopper, sender)
    requires KeyOfOp(stopper.op) == KeyOfOp(sender.op) && stopper.pc.Done? && sender.pc.Done?
    requires stopper.stop.Some? && stopper.stop.value.taskId == t && sender.reread.Some? && sender.reread.value.taskId == t
    ensures t in Settled(s.server)
  {
    hide ReservedOk, SubmitsOk, AcceptedOk, VersionsOk;
    var k := KeyOfOp(sender.op);
    if stopper.missed {
      assert VersionsOk(Proof(s), k, s.history[k]);
      StoppedStays(Proof(s), k, s.history[k], stopper.stop.value.revision, sender.reread.value.revision, t);
    }
  }

  /** The call has returned after re-reading the record for this task: its submission, or an earlier one, took effect. */
  ghost predicate Reread(s: State, c: nat, t: Text)
  {
    c in s.calls && s.calls[c].pc.Done? && s.calls[c].reread.Some? && s.calls[c].reread.value.taskId == t
  }

  /** The call has returned after a write that left the record stopped with this task. */
  ghost predicate Stopper(s: State, c: nat, t: Text)
  {
    c in s.calls && s.calls[c].pc.Done? && s.calls[c].stop.Some? && s.calls[c].stop.value.taskId == t
  }

  /**
  Either the stopper saw the attempt, or the sender saw the stop. The sender may
  be one that submitted, or one that recovered and found its offer delivered.
  */
  lemma StopCatchesSubmission(run: seq<State>, n: nat, stopper: nat, sender: nat, t: Text)
    requires IsRun(run) && n < |run| && Stopper(run[n], stopper, t) && Reread(run[n], sender, t)
    requires KeyOfOp(run[n].calls[stopper].op) == KeyOfOp(run[n].calls[sender].op)
    ensures t in Settled(run[n].server)
  {
    hide IsRun, DataOk, InOrder, CallOk;
    var s := run[n];
    Reachable(run, n);
    assert CallOk(Known(s), s.calls[stopper]) && CallOk(Known(s), s.calls[sender]);
    assert InOrder(s.calls[stopper], s.calls[sender]);
    CaughtInOrder(s, s.calls[stopper], s.calls[sender], t);
  }

  /** A sender needs no stopper: if the version it re-read was stopped with its task, the task is cancelled. */
  lemma SenderSeesStop(run: seq<State>, n: nat, sender: nat, t: Text)
    requires IsRun(run) && n < |run| && Reread(run[n], sender, t)
    requires StoppedAt(run[n].history, KeyOfOp(run[n].calls[sender].op), run[n].calls[sender].reread.value)
    ensures t in Settled(run[n].server)
  {
    hide IsRun, DataOk, PairsOk, PcOk, StopOk;
    var s := run[n];
    Reachable(run, n);
    assert CallOk(Known(s), s.calls[sender]);
  }

  /** A call that submitted and returned is one of these senders. */
  lemma SubmitterRereads(run: seq<State>, n: nat, c: nat, t: Text)
    requires IsRun(run) && n < |run| && c in run[n].calls && run[n].calls[c].pc.Done? && run[n].calls[c].sent == Some(t)
    ensures Reread(run[n], c, t)
  {
    hide IsRun;
    SendersReread(run, n);
    assert SentOk(run[n].calls[c]);
  }

  // ---------------------------------------------------------------------
  // Which stops are followed by a chase
  // ---------------------------------------------------------------------

  /** A write that leaves a record stopped with an execution is followed by a cancellation, unless a goal was resumed. */
  ghost predicate ChasesUnlessResume(op: Op, eff: Effect)
  {
    eff.Save? && IsStopped(eff.value) && PendingOf(eff.value).Some? ==> (eff.next.ChaseSaved? <==> !op.ResumeGoal?)
  }

  lemma GoalChases(op: Op, row: Snapshot, g: Goals.Goal, o: Oracle)
    ensures ChasesUnlessResume(op, DecideGoal(op, row, g, o))
  {
    hide BuildInput, Goals.GoalInstruction, Projection, Blank;
  }

  lemma AnswerIsLive(row: Snapshot, r: Runs.Run, p: Runs.Principal, binding: Value, a: Runs.AnswerArgs, o: Oracle)
    ensures var eff := DecideAnswer(row, r, p, binding, a, o);
      eff.Save? ==> !IsStopped(eff.value)
  {
    hide Runs.Digest, Runs.Answerable, Runs.NextInput, Runs.Chosen, Runs.FindReceipt;
  }

  lemma LoadedChases(op: Op, row: Snapshot, o: Oracle)
    ensures ChasesUnlessResume(op, DecideLoaded(op, row, o))
  {
    hide DecideGoal, DecideAnswer, Runs.Close, Runs.Last, Runs.Due;
    match row.value
    case GoalRec(g) => GoalChases(op, row, g, o);
    case BtwRec(_) =>
    case RunRec(r) => if op.AnswerRun? { AnswerIsLive(row, r, op.principal, op.binding, op.answer, o); }
  }

  lemma SightChases(op: Op, row: Snapshot, input: Input, sight: Sight, o: Oracle)
    requires row.value.BtwRec? ==> row.value.btw.status.Asked?
    ensures ChasesUnlessResume(op, DecideSight(row, input, sight, o))
  {
    hide ReadReport, ParseAnswer, Runs.CD.ParseClarification;
  }

  /** What the positions of calls say about the snapshots that matter here. */
  ghost predicate RowsFit(pc: Pc)
  {
    && (pc.SecondLook? && pc.row.value.BtwRec? ==> pc.row.value.btw.status.Asked?)
    && (pc.Acknowledging? ==> WaitingRow(pc.row))
  }

  lemma CallFits(f: Facts, call: Call)
    requires CallOk(f, call)
    ensures RowsFit(call.pc)
  {
  }

  lemma JudgedChases(op: Op, row: Snapshot, decision: Decision, o: Oracle)
    ensures ChasesUnlessResume(op, DecideJudged(row, decision, o))
  {
    if row.value.GoalRec? && row.value.goal.pending.Some? {
      var settled := Goals.Settle(row.value.goal);
      if Goals.Conclude(settled, decision, o.now).Ok? { Goals.ConcludeFrame(settled, decision, o.now); }
    }
  }

  lemma DecidedChases(s: State, call: Call, o: Oracle)
    requires RowsFit(call.pc)
    ensures ChasesUnlessResume(call.op, Decide(s, call, o))
  {
    hide Fetch, ReadOffer, DecideBegin, DecideLoaded, DecideSight, DecideJudged, Matches, Goals.ReserveBtw;
    match call.pc
    case Begin => BeginIsLive(s, call.op, o);
    case Loaded(row) => LoadedChases(call.op, row, o);
    case SecondLook(row, input, terminal) => SightChases(call.op, row, input, Observe(s.server, input, terminal), o);
    case Judging(row, _, decision) => JudgedChases(call.op, row, decision, o);
    case MainSeen(agentId) => if call.op.ReserveBtw? { SideIsLive(call.op.args, agentId); }
    case _ =>
  }

  lemma BeginIsLive(s: State, op: Op, o: Oracle)
    ensures var eff := DecideBegin(s, op, o);
      eff.Save? ==> !IsStopped(eff.value)
  {
    hide ValidTarget, Blank, Runs.NextInput, Fetch, Goals.ValidBtwArgs;
  }

  lemma SideIsLive(args: Goals.BtwArgs, agentId: Text)
    ensures var b := Goals.ReserveBtw(args, agentId); b.Ok? ==> b.value.status.Asked?
  {
    hide BuildInput, Projection, Goals.AgentIdOf, Goals.BtwInstruction;
  }

  /**
  In every run, every write that leaves a record stopped with an execution
  still pending is followed by the cancellation of that execution by the same
  call, with one exception: resuming a goal whose budget is spent.
  */
  lemma StopsAreChased(run: seq<State>, n: nat, c: nat, o: Oracle)
    requires IsRun(run) && n < |run|
    requires c in run[n].calls
    ensures var s := run[n];
      ChasesUnlessResume(s.calls[c].op, Decide(s, s.calls[c], o))
  {
    hide IsRun, Decide, DataOk, PairsOk, CallOk;
    var s := run[n];
    Reachable(run, n);
    assert CallOk(Known(s), s.calls[c]);
    CallFits(Known(s), s.calls[c]);
    DecidedChases(s, s.calls[c], o);
  }

  // ---------------------------------------------------------------------
  // The exception
  // ---------------------------------------------------------------------

  lemma LoadStep(run: seq<State>, n: nat, c: nat, op: Op, o: Oracle, g: Goals.Goal)
    requires IsRun(run) && n < |run|
    requires var s := run[n];
      && c !in s.calls && op.ResumeGoal? && KeyOfOp(op) in s.table.rows && s.table.rows[KeyOfOp(op)].value == GoalRec(g)
      && s.table.rows[KeyOfOp(op)].revision == op.revision
    ensures Step(Step(run[n], Invoke(c, op)), Advance(c, o)) ==
      Put(run[n], c, NewCall(op).(pc := Loaded(Snapshot(op.revision, GoalRec(g)))))
  {
    hide IsRun, Fetch, TableOk;
    var s := run[n];
    RowIsLatest(run, n, KeyOfOp(op));
    FetchIgnoresCalls(s, c, NewCall(op), KeyOfOp(op));
    var u := Put(s, c, NewCall(op));
    assert Act(u, c, o) == Put(s, c, NewCall(op).(pc := Loaded(Snapshot(op.revision, GoalRec(g)))));
  }

  lemma FetchIgnoresCalls(s: State, c: nat, call: Call, k: Key)
    ensures Fetch(Put(s, c, call), k) == Fetch(s, k)
  {
    hide Readable;
  }

  lemma RowIsLatest(run: seq<State>, n: nat, k: Key)
    requires IsRun(run) && n < |run|
    requires k in run[n].table.rows
    ensures var s := run[n];
      Fetch(s, k) == Some(Snapshot(s.table.rows[k].revision, s.table.rows[k].value))
  {
    hide IsRun, CallsOk, PairsOk, HistoryOk, ReservedOk, SubmitsOk, AcceptedOk, Fetch;
    var s := run[n];
    NeverLockedOut(run, n, k);
    Reachable(run, n);
    assert RowOk(s.table.rows[k], s.history[k]);
  }

  /** The call has returned, and the stopped record holds a running execution nobody asked to cancel. */
  ghost predicate LeftRunning(u: State, c: nat, k: Key, t: Text)
  {
    && c in u.calls && u.calls[c].pc == Done(None)
    && k in u.table.rows && IsStopped(u.table.rows[k].value) && Holds(u.table.rows[k].value, t)
    && t in u.server.attempts && t !in Settled(u.server)
  }

  /** A paused goal that has spent its budget while its execution is still running. */
  ghost predicate SpentWhilePaused(s: State, k: Key, g: Goals.Goal, t: Text, now: int)
  {
    && k in s.table.rows && s.table.rows[k].value == GoalRec(g) && s.table.rows[k].revision < MAX_SAFE
    && g.status.Paused? && Holds(GoalRec(g), t) && (g.steps >= g.maxSteps || (SafeTime(now) && now >= g.deadline))
    && t in s.server.attempts && t !in Settled(s.server)
  }

  lemma ResumeStep(s: State, c: nat, id: Text, g: Goals.Goal, t: Text, o: Oracle)
    requires SpentWhilePaused(s, Key(GoalKind, id), g, t, o.now) && s.table.rows[Key(GoalKind, id)].revision >= 0
    ensures var revision := s.table.rows[Key(GoalKind, id)].revision;
      LeftRunning(Step(Put(s, c, NewCall(ResumeGoal(id, revision)).(pc := Loaded(Snapshot(revision, GoalRec(g))))), Advance(c, o)),
                  c, Key(GoalKind, id), t)
  {
    hide Fetch, Book, WaitingOthers;
  }

  lemma RunExtends(run: seq<State>, u: State)
    requires IsRun(run) && Moves(run[|run| - 1], u)
    ensures IsRun(run + [u])
  {
    hide Moves, Init;
    var longer := run + [u];
    forall i: nat | i + 1 < |longer|
      ensures MovesAt(longer, i)
    {
      if i + 1 < |run| { assert MovesAt(run, i); }
    }
  }

  lemma Prefix(run: seq<State>, n: nat)
    requires IsRun(run) && n < |run|
    ensures IsRun(run[..n + 1])
  {
    hide Moves, Init;
    var shorter := run[..n + 1];
    forall i: nat | i + 1 < |shorter|
      ensures MovesAt(shorter, i)
    {
      assert MovesAt(run, i);
    }
  }

  /**
  Such a goal is resumed: there is a run that goes on from there by this one
  call, in which the call returns, the goal is exhausted and still holds the
  execution, and nothing has asked for its cancellation.
  */
  lemma ResumeLeavesRunning(run: seq<State>, n: nat, c: nat, id: Text, g: Goals.Goal, t: Text, now: int)
    requires IsRun(run) && n < |run| && c !in run[n].calls && SpentWhilePaused(run[n], Key(GoalKind, id), g, t, now)
    ensures exists longer :: IsRun(longer) && run[..n + 1] < longer && LeftRunning(longer[|longer| - 1], c, Key(GoalKind, id), t)
  {
    hide IsRun, Step, LeftRunning;
    var k, o := Key(GoalKind, id), Oracle(now, true, []);
    var op := ResumeGoal(id, run[n].table.rows[k].revision);
    RevisionIsNat(run, n, k);
    LoadStep(run, n, c, op, o, g);
    ResumeStep(run[n], c, id, g, t, o);
    var u := Step(run[n], Invoke(c, op));
    var v := Step(u, Advance(c, o));
    var w := Step(v, Advance(c, o));
    Prefix(run, n);
    RunExtends(run[..n + 1], u);
    RunExtends(run[..n + 1] + [u], v);
    RunExtends(run[..n + 1] + [u] + [v], w);
    var longer := run[..n + 1] + [u] + [v] + [w];
    assert longer[|longer| - 1] == w && run[..n + 1] < longer;
  }

  lemma RevisionIsNat(run: seq<State>, n: nat, k: Key)
    requires IsRun(run) && n < |run|
    requires k in run[n].table.rows
    ensures run[n].table.rows[k].revision >= 0
  {
    hide IsRun, CallsOk, PairsOk, HistoryOk, ReservedOk, SubmitsOk, AcceptedOk;
    var s := run[n];
    Reachable(run, n);
    assert RowOk(s.table.rows[k], s.history[k]);
  }
}
