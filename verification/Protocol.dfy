/**
Both Hosts as one transition system. A state is the store, the server and any
number of calls in progress. Between two steps of a call anything may happen:
another call on the same record, a crash, or news on the server. A store read
and the store write that follows it are separate steps, so a call always works
on a snapshot that may be stale.
*/
module Protocol {
  import opened Json
  import opened Documents
  import opened Executions
  import opened CasStore
  import opened Servers
  import Goals
  import Runs

  // ---------------------------------------------------------------------
  // Records
  // ---------------------------------------------------------------------

  datatype Kind = GoalKind | BtwKind | RunKind
  datatype Key = Key(kind: Kind, id: Text)

  datatype Record = GoalRec(goal: Goals.Goal) | BtwRec(btw: Goals.Btw) | RunRec(run: Runs.Run)

  datatype Snapshot = Snapshot(revision: int, value: Record)

  function KeyOf(r: Record): Key
  {
    match r
    case GoalRec(g) => Key(GoalKind, g.id)
    case BtwRec(b) => Key(BtwKind, b.id)
    case RunRec(u) => Key(RunKind, u.id)
  }

  function PendingOf(r: Record): Option<Pending>
  {
    match r
    case GoalRec(g) => g.pending
    case BtwRec(b) => Some(b.pending)
    case RunRec(u) => u.pending
  }

  predicate IsStopped(r: Record)
  {
    match r
    case GoalRec(g) => Goals.Stopped(g)
    case BtwRec(b) => b.status.SideCancelled?
    case RunRec(u) => Runs.Stopped(u)
  }

  predicate IsWaiting(r: Record)
  {
    r.RunRec? && r.run.status.WaitingInput?
  }

  predicate Readable(r: Record, tenant: Text)
  {
    match r
    case GoalRec(g) => Goals.ReadableGoal(g)
    case BtwRec(b) => Goals.ReadableBtw(b)
    case RunRec(u) => u.tenantId == tenant
  }

  // ---------------------------------------------------------------------
  // Calls
  // ---------------------------------------------------------------------

  datatype Op =
    | StartGoal(gid: Text, objective: Text, target: Value, maxSteps: int, deadline: int)
    | ReserveStep(gid: Text, revision: int, taskId: Text, context: Text)
    | PauseGoal(gid: Text, revision: int)
    | ResumeGoal(gid: Text, revision: int)
    | CancelGoal(gid: Text, revision: int)
    | TickGoal(gid: Text, revision: int)
    | ReconcileGoal(gid: Text, revision: int)
    | ReserveBtw(args: Goals.BtwArgs)
    | ReconcileBtw(bid: Text, revision: int)
    | CancelBtw(bid: Text, revision: int)
    | Send(key: Key, revision: int, recovery: bool)
    | StartRun(start: Runs.RunArgs, taskId: Text)
    | ReconcileRun(rid: Text, revision: int)
    | Notify(rid: Text, revision: int)
    | AnswerRun(principal: Runs.Principal, binding: Value, answer: Runs.AnswerArgs)
    | CancelRun(rid: Text, revision: int)
    | ChangeContext(rid: Text, revision: int, next: Text)
    | TickRun(rid: Text, revision: int)

  function KeyOfOp(op: Op): Key
  {
    match op
    case StartGoal(id, _, _, _, _) => Key(GoalKind, id)
    case ReserveStep(id, _, _, _) => Key(GoalKind, id)
    case PauseGoal(id, _) => Key(GoalKind, id)
    case ResumeGoal(id, _) => Key(GoalKind, id)
    case CancelGoal(id, _) => Key(GoalKind, id)
    case TickGoal(id, _) => Key(GoalKind, id)
    case ReconcileGoal(id, _) => Key(GoalKind, id)
    case ReserveBtw(args) => Key(BtwKind, args.id)
    case ReconcileBtw(id, _) => Key(BtwKind, id)
    case CancelBtw(id, _) => Key(BtwKind, id)
    case Send(key, _, _) => key
    case StartRun(start, _) => Key(RunKind, start.id)
    case ReconcileRun(id, _) => Key(RunKind, id)
    case Notify(id, _) => Key(RunKind, id)
    case AnswerRun(_, binding, _) => Key(RunKind, TextAt(Get(binding, Runs.RUN_ID)))
    case CancelRun(id, _) => Key(RunKind, id)
    case ChangeContext(id, _, _) => Key(RunKind, id)
    case TickRun(id, _) => Key(RunKind, id)
  }

  /** Where a call stands: what it does next, and the snapshot it holds. */
  datatype Pc =
    | Begin
    | Loaded(row: Snapshot)
    | MainSeen(mainAgentId: Text)
    // send and recover
    | Verify(input: Input, at: int)
    | Recheck(input: Input, at: int)
    | Submitting(input: Input, at: int)
    | Awaiting(input: Input, at: int)
    | Doubting(input: Input, at: int)
    | Rereading(input: Input, at: int)
    // cancellation
    | Flush(input: Input)
    | FlushOffer(input: Input)
    | FlushCancel(input: Input)
    // reconcile
    | ProbeOffer(row: Snapshot, input: Input)
    | Probe(row: Snapshot, input: Input)
    | AtTerminal(row: Snapshot, input: Input)
    | SecondLook(row: Snapshot, input: Input, terminal: Option<Terminal>)
    | Judging(row: Snapshot, input: Input, decision: Decision)
    // notify
    | Delivering(row: Snapshot)
    | Acknowledging(row: Snapshot)
    | Done(receipt: Option<Runs.Receipt>)
    | Failed

  datatype Mark = Mark(taskId: Text, revision: int)

  /**
  `sent`: the task whose input this call handed to the server.
  `stop`: the stopped version this call wrote and went on to chase.
  `reread`: the version a sender saw after its submission.
  `missed`: the chase found no attempt to cancel.
  */
  datatype Call = Call(op: Op, pc: Pc, sent: Option<Text>, stop: Option<Mark>, reread: Option<Mark>, missed: bool)

  datatype Reservation = Reservation(key: Key, revision: int, input: Input)
  datatype Submission = Submission(key: Key, revision: int, input: Input)

  /**
  The store, the server and the calls, followed by history: every version of
  every record, what each id was reserved for, every submission, the
  completions seen uncancelled, and the verdicts the Host accepted.
  */
  datatype State = State(
    tenant: Text, cap: int, table: Table<Key, Record>, server: Server, calls: map<nat, Call>,
    history: map<Key, seq<Record>>, reserved: map<Text, Reservation>, submits: seq<Submission>,
    completed: map<Text, Option<Value>>, accepted: set<(Text, Decision)>)

  function Proof(s: State): Evidence
  {
    Evidence(Settled(s.server), s.completed, s.accepted)
  }

  /** What the world supplies to one step: a clock reading, a callback's answer, a fresh id. */
  datatype Oracle = Oracle(now: int, ok: bool, freshId: Text)

  // ---------------------------------------------------------------------
  // The next step of a call
  // ---------------------------------------------------------------------

  datatype Next = Finish | ChaseSaved | VerifySaved | Reply(receipt: Runs.Receipt)

  datatype Effect =
    | Move(pc: Pc)
    | Become(op: Op)
    | Save(expected: Option<int>, value: Record, newId: Option<Text>, next: Next)
    | Submit(input: Input, at: int)
    | RequestCancel(input: Input)
    | Miss
    | Seen(mark: Mark, pc: Pc)

  /** A load validates the record it finds. */
  function Fetch(s: State, key: Key): Option<Snapshot>
  {
    if key !in s.table.rows then None
    else
      var row := s.table.rows[key];
      if KeyOf(row.value) == key && Readable(row.value, s.tenant) then Some(Snapshot(row.revision, row.value)) else None
  }

  function ChasePc(r: Record): Pc
  {
    if PendingOf(r).Some? then Flush(PendingOf(r).value.input) else Done(None)
  }

  /** `checkRevision` after the read; an answer names no revision. */
  function Load(s: State, op: Op, revision: Option<int>): Effect
  {
    var row := Fetch(s, KeyOfOp(op));
    if row.None? || (revision.Some? && row.value.revision != revision.value) then Move(Failed) else Move(Loaded(row.value))
  }

  function SaveGoal(row: Snapshot, g: Result<Goals.Goal>, newId: Option<Text>, next: Next): Effect
  {
    if g.Err? then Move(Failed) else Save(Some(row.revision), GoalRec(g.value), newId, next)
  }

  function SaveRun(row: Snapshot, r: Result<Runs.Run>, next: Next): Effect
  {
    if r.Err? then Move(Failed) else Save(Some(row.revision), RunRec(r.value), None, next)
  }

  function DecideBegin(s: State, op: Op, o: Oracle): Effect
  {
    match op
    case StartGoal(id, objective, target, maxSteps, deadline) =>
      var g := Goals.Start(id, objective, target, maxSteps, deadline, o.now);
      if g.Err? then Move(Failed) else Save(None, GoalRec(g.value), None, Finish)
    case StartRun(start, taskId) =>
      var r := Runs.Start(start, s.tenant, taskId, o.now);
      if r.Err? then Move(Failed) else Save(None, RunRec(r.value), Some(taskId), Finish)
    case ReserveBtw(args) =>
      if !Goals.ValidBtwArgs(args) || args.mainTaskId !in s.server.attempts || args.mainTaskId in s.server.cancels || !o.ok then Move(Failed)
      else
        var agent := s.server.attempts[args.mainTaskId].agentRef;
        if agent.None? then Move(Failed) else Move(MainSeen(TextAt(GetIn(agent, AGENT_ID))))
    case AnswerRun(p, binding, _) =>
      if p.tenantId != s.tenant || Get(binding, Runs.TENANT_ID) != Some(Str(p.tenantId)) then Move(Failed) else Load(s, op, None)
    case _ => Load(s, op, Some(op.revision))
  }

  function DecideSendGoal(row: Snapshot, g: Goals.Goal, recovery: bool, o: Oracle): Effect
  {
    if g.pending.None? then Move(Failed)
    else if Goals.Stopped(g) then Move(ChasePc(GoalRec(g)))
    else if !g.status.Active? || !SafeTime(o.now) then Move(Failed)
    else if o.now >= g.deadline then Save(Some(row.revision), GoalRec(Goals.Expire(g)), None, ChaseSaved)
    else if g.pending.value.phase.Sending? then
      if recovery then Move(Verify(g.pending.value.input, row.revision)) else Move(Failed)
    else Save(Some(row.revision), GoalRec(Goals.MarkSending(g)), None, VerifySaved)
  }

  function DecideSendBtw(row: Snapshot, b: Goals.Btw, recovery: bool): Effect
  {
    if b.status.SideCancelled? then Move(ChasePc(BtwRec(b)))
    else if b.pending.phase.Sending? then
      if recovery then Move(Verify(b.pending.input, row.revision)) else Move(Failed)
    else Save(Some(row.revision), BtwRec(b.(pending := b.pending.(phase := Sending))), None, VerifySaved)
  }

  function DecideSendRun(row: Snapshot, r: Runs.Run, recovery: bool, o: Oracle): Effect
  {
    if Runs.Stopped(r) then Move(ChasePc(RunRec(r)))
    else if !SafeTime(o.now) then Move(Failed)
    else if o.now >= r.deadline then Become(TickRun(r.id, row.revision))
    else if r.pending.None? then Move(Failed)
    else if r.pending.value.phase.Sending? then
      if recovery then Move(Verify(r.pending.value.input, row.revision)) else Move(Failed)
    else Save(Some(row.revision), RunRec(Runs.MarkSending(r)), None, VerifySaved)
  }

  function DecideGoal(op: Op, row: Snapshot, g: Goals.Goal, o: Oracle): Effect
  {
    match op
    case ReserveStep(_, _, taskId, context) => SaveGoal(row, Goals.ReserveStep(g, taskId, context, o.now), Some(taskId), Finish)
    case PauseGoal(_, _) => SaveGoal(row, Goals.Pause(g), None, Finish)
    case ResumeGoal(_, _) => SaveGoal(row, Goals.Resume(g, o.now), None, Finish)
    case CancelGoal(_, _) => SaveGoal(row, Goals.Cancel(g), None, ChaseSaved)
    case TickGoal(_, _) =>
      if g.status.Complete? || Goals.Stopped(g) then Move(Done(None))
      else if !SafeTime(o.now) then Move(Failed)
      else if o.now < g.deadline then Move(Done(None))
      else SaveGoal(row, Ok(Goals.Expire(g)), None, ChaseSaved)
    case ReconcileGoal(_, _) =>
      if g.pending.None? then Move(Done(None)) else Move(Probe(row, g.pending.value.input))
    case Send(_, _, recovery) => DecideSendGoal(row, g, recovery, o)
    case _ => Move(Failed)
  }

  function DecideBtw(op: Op, row: Snapshot, b: Goals.Btw): Effect
  {
    match op
    case ReconcileBtw(_, _) => if b.status.Asked? then Move(Probe(row, b.pending.input)) else Move(Done(None))
    case CancelBtw(_, _) =>
      if b.status.Answered? then Move(Failed)
      else Save(Some(row.revision), BtwRec(b.(status := Goals.SideCancelled)), None, ChaseSaved)
    case Send(_, _, recovery) => DecideSendBtw(row, b, recovery)
    case _ => Move(Failed)
  }

  function DecideAnswer(row: Snapshot, r: Runs.Run, p: Runs.Principal, binding: Value, a: Runs.AnswerArgs, o: Oracle): Effect
  {
    match Runs.Answer(r, p, binding, a, o.now)
    case Refused => Move(Failed)
    case Replayed(receipt) => Move(Done(Some(receipt)))
    case Accepted(next, receipt) => Save(Some(row.revision), RunRec(next), Some(a.taskId), Reply(receipt))
  }

  function DecideRun(op: Op, row: Snapshot, r: Runs.Run, o: Oracle): Effect
  {
    match op
    case ReconcileRun(_, _) =>
      if Runs.Stopped(r) then Move(ChasePc(RunRec(r)))
      else if !SafeTime(o.now) then Move(Failed)
      else if o.now >= r.deadline then Become(TickRun(r.id, row.revision))
      else if r.pending.None? then Move(Done(None))
      else Move(ProbeOffer(row, r.pending.value.input))
    case Notify(_, _) =>
      if !r.status.WaitingInput? || r.tickets == [] then Move(Done(None))
      else if !SafeTime(o.now) then Move(Failed)
      else if o.now >= Runs.Last(r).expiresAt then Become(TickRun(r.id, row.revision))
      else if !Runs.Last(r).notification.ToNotify? then Move(Done(None))
      else Move(Delivering(row))
    case AnswerRun(p, binding, a) => DecideAnswer(row, r, p, binding, a, o)
    case CancelRun(_, _) => SaveRun(row, Runs.Cancel(r), ChaseSaved)
    case ChangeContext(_, _, next) => SaveRun(row, Runs.ChangeContext(r, next), ChaseSaved)
    case TickRun(_, _) =>
      if Runs.Stopped(r) then Move(ChasePc(RunRec(r)))
      else if !SafeTime(o.now) then Move(Failed)
      else if !Runs.Due(r, o.now) then Move(Done(None))
      else SaveRun(row, Ok(Runs.Close(r, Runs.ByExpiry)), ChaseSaved)
    case Send(_, _, recovery) => DecideSendRun(row, r, recovery, o)
    case _ => Move(Failed)
  }

  function DecideLoaded(op: Op, row: Snapshot, o: Oracle): Effect
  {
    match row.value
    case GoalRec(g) => DecideGoal(op, row, g, o)
    case BtwRec(b) => DecideBtw(op, row, b)
    case RunRec(r) => DecideRun(op, row, r, o)
  }

  /** An invalid clock reading counts as an invalid document. */
  function ReadReport(document: Option<Value>, o: Oracle): Result<Decision>
  {
    if SafeTime(o.now) then ParseDecision(document, o.now) else Err
  }

  function DecideReport(row: Snapshot, g: Goals.Goal, input: Input, d: Result<Decision>): Effect
    requires g.pending.Some?
  {
    if d.Err? then SaveGoal(row, Ok(Goals.Block(Goals.Settle(g), Goals.InvalidResult)), None, Finish)
    else Move(Judging(row, input, d.value))
  }

  function DecideSeenGoal(row: Snapshot, g: Goals.Goal, input: Input, seen: Observed, o: Oracle): Effect
  {
    if g.pending.None? then Move(Failed)
    else if Goals.Stopped(g) then SaveGoal(row, Ok(Goals.Settle(g)), None, Finish)
    else
      match seen
      case SeenCancelled => SaveGoal(row, Ok(Goals.Block(Goals.Settle(g), Goals.ExecutionCancelled)), None, Finish)
      case SeenFailed => SaveGoal(row, Ok(Goals.Block(Goals.Settle(g), Goals.ExecutionFailedOrDeclined)), None, Finish)
      case SeenComplete(document) => DecideReport(row, g, input, ReadReport(document, o))
  }

  /** The synchronous part of reconciliation, once something settled was seen. */
  function DecideSeen(row: Snapshot, input: Input, seen: Observed, o: Oracle): Effect
  {
    match row.value
    case GoalRec(g) => DecideSeenGoal(row, g, input, seen, o)
    case BtwRec(b) => Save(Some(row.revision), BtwRec(Goals.SettleBtw(b, seen)), None, Finish)
    case RunRec(r) => if r.pending.None? then Move(Failed) else SaveRun(row, Runs.Reconcile(r, seen, o.now, o.freshId), Finish)
  }

  function DecideSight(row: Snapshot, input: Input, sight: Sight, o: Oracle): Effect
  {
    match sight
    case NothingYet => Move(Done(None))
    case Mismatch => Move(Failed)
    case Sees(what) => DecideSeen(row, input, what, o)
  }

  function DecideJudged(row: Snapshot, decision: Decision, o: Oracle): Effect
  {
    if !row.value.GoalRec? || row.value.goal.pending.None? then Move(Failed)
    else
      var settled := Goals.Settle(row.value.goal);
      if !o.ok then SaveGoal(row, Ok(Goals.Block(settled, Goals.ResultNotAccepted)), None, Finish)
      else SaveGoal(row, Goals.Conclude(settled, decision, o.now), None, Finish)
  }

  predicate Matches(op: Op, a: Attempt, input: Input)
  {
    if KeyOfOp(op).kind.RunKind? then SameAgentText(a, input) else SameAgent(a, input)
  }

  function Decide(s: State, call: Call, o: Oracle): Effect
  {
    var srv := s.server;
    match call.pc
    case Begin => DecideBegin(s, call.op, o)
    case Loaded(row) => DecideLoaded(call.op, row, o)
    case MainSeen(agentId) =>
      if !call.op.ReserveBtw? then Move(Failed)
      else
        var b := Goals.ReserveBtw(call.op.args, agentId);
        if b.Err? then Move(Failed) else Save(None, BtwRec(b.value), Some(call.op.args.taskId), Finish)
    case Verify(input, at) =>
      (match ReadOffer(srv, input)
       case Differs => Move(Failed)
       case WasDelivered => Move(Rereading(input, at))
       case _ => Move(Recheck(input, at)))
    case Recheck(input, at) =>
      var latest := Fetch(s, KeyOfOp(call.op));
      if latest.None? then Move(Failed)
      else if IsStopped(latest.value.value) then Move(ChasePc(latest.value.value))
      else if latest.value.value.GoalRec? && !latest.value.value.goal.status.Active? then Move(Done(None))
      else Move(Submitting(input, at))
    case Submitting(input, at) => Submit(input, at)
    case Awaiting(input, at) =>
      // A submission that is answered has made its attempt visible.
      if o.ok && input.taskId in srv.attempts then Move(Rereading(input, at)) else Move(Doubting(input, at))
    case Doubting(input, at) =>
      if ReadOffer(srv, input).WasDelivered? then Move(Rereading(input, at)) else Move(Failed)
    case Rereading(input, at) =>
      var latest := Fetch(s, KeyOfOp(call.op));
      if latest.None? then Move(Failed)
      else Seen(Mark(input.taskId, latest.value.revision), if IsStopped(latest.value.value) then ChasePc(latest.value.value) else Done(None))
    case Flush(input) =>
      if input.taskId !in srv.attempts then Miss
      else if srv.attempts[input.taskId].taskId != input.taskId || !Matches(call.op, srv.attempts[input.taskId], input) then Move(Failed)
      else Move(FlushOffer(input))
    case FlushOffer(input) => if ReadOffer(srv, input).Differs? then Move(Failed) else Move(FlushCancel(input))
    case FlushCancel(input) => if o.ok then RequestCancel(input) else Move(Failed)
    case ProbeOffer(row, input) => if ReadOffer(srv, input).Differs? then Move(Failed) else Move(Probe(row, input))
    case Probe(row, input) =>
      if input.taskId !in srv.attempts then Move(Done(None))
      else if !Matches(call.op, srv.attempts[input.taskId], input) then Move(Failed)
      else Move(AtTerminal(row, input))
    case AtTerminal(row, input) =>
      Move(SecondLook(row, input, if input.taskId in srv.terminals then Some(srv.terminals[input.taskId]) else None))
    case SecondLook(row, input, terminal) => DecideSight(row, input, Observe(srv, input, terminal), o)
    case Judging(row, _, decision) => DecideJudged(row, decision, o)
    case Delivering(row) => if o.ok then Move(Acknowledging(row)) else Move(Failed)
    case Acknowledging(row) =>
      var latest := Fetch(s, KeyOfOp(call.op));
      if latest.None? then Move(Failed)
      else if latest.value.revision != row.revision then Move(Done(None))
      else if !row.value.RunRec? || row.value.run.tickets == [] then Move(Failed)
      else SaveRun(row, Ok(Runs.MarkDelivered(row.value.run)), Finish)
    case Done(_) => Move(call.pc)
    case Failed => Move(call.pc)
  }

  // ---------------------------------------------------------------------
  // The effect of a step
  // ---------------------------------------------------------------------

  function Put(s: State, c: nat, call: Call): State
  {
    s.(calls := s.calls[c := call])
  }

  function AfterSave(call: Call, row: Row<Record>, next: Next): Call
  {
    match next
    case Finish => call.(pc := Done(None))
    case Reply(receipt) => call.(pc := Done(Some(receipt)))
    case ChaseSaved =>
      var p := PendingOf(row.value);
      call.(pc := ChasePc(row.value), stop := if p.Some? then Some(Mark(p.value.input.taskId, row.revision)) else None)
    case VerifySaved =>
      var p := PendingOf(row.value);
      if p.Some? then call.(pc := Verify(p.value.input, row.revision)) else call.(pc := Failed)
  }

  function Past(history: map<Key, seq<Record>>, k: Key): seq<Record>
  {
    if k in history then history[k] else []
  }

  function Book(reserved: map<Text, Reservation>, k: Key, revision: int, p: Option<Pending>, newId: Option<Text>): map<Text, Reservation>
  {
    if newId.Some? && p.Some? then reserved[newId.value := Reservation(k, revision, p.value.input)] else reserved
  }

  function SaveStep(s: State, c: nat, call: Call, eff: Effect): State
    requires eff.Save?
  {
    var k := KeyOfOp(call.op);
    var (table, r) := Commit(s.table, Some(s.cap), k, eff.expected, eff.value, IsWaiting(eff.value), eff.newId);
    if r.Refused? then Put(s, c, call.(pc := Failed))
    else
      var data := s.(table := table, history := s.history[k := Past(s.history, k) + [eff.value]],
                     reserved := Book(s.reserved, k, r.row.revision, PendingOf(eff.value), eff.newId));
      Put(data, c, AfterSave(call, r.row, eff.next))
  }

  function Apply(s: State, c: nat, call: Call, eff: Effect): State
  {
    match eff
    case Move(pc) => Put(s, c, call.(pc := pc))
    case Become(op) => Put(s, c, call.(op := op, pc := Begin))
    case Save(_, _, _, _) => SaveStep(s, c, call, eff)
    case Submit(input, at) =>
      Put(s.(submits := s.submits + [Submission(KeyOfOp(call.op), at, input)]), c, call.(pc := Awaiting(input, at), sent := Some(input.taskId)))
    case RequestCancel(input) => Put(s.(server := Cancel(s.server, input.taskId)), c, call.(pc := Done(None)))
    case Miss => Put(s, c, call.(pc := Done(None), missed := true))
    case Seen(mark, pc) => Put(s, c, call.(pc := pc, reread := Some(mark)))
  }

  /** What a step reveals: a completion seen without a cancellation, or an accepted verdict. */
  function Noted(s: State, call: Call, o: Oracle): (n: State)
    ensures n == s.(completed := n.completed, accepted := n.accepted)
  {
    match call.pc
    case SecondLook(_, input, terminal) =>
      var sight := Observe(s.server, input, terminal);
      if sight.Sees? && sight.what.SeenComplete? then s.(completed := s.completed[input.taskId := sight.what.document]) else s
    case Judging(_, input, decision) => if o.ok then s.(accepted := s.accepted + {(input.taskId, decision)}) else s
    case _ => s
  }

  /** One step of a call: what it decides, done. */
  function Act(s: State, c: nat, o: Oracle): State
    requires c in s.calls
  {
    Apply(s, c, s.calls[c], Decide(s, s.calls[c], o))
  }

  datatype Action =
    | Invoke(c: nat, op: Op)
    | Advance(c: nat, o: Oracle)
    | Crash(c: nat)
    | World(server: Server)

  /** JavaScript objects repeat no key. */
  ghost predicate JsonArguments(op: Op)
  {
    match op
    case StartGoal(_, _, target, _, _) => WellFormed(target)
    case ReserveBtw(args) => WellFormed(args.target)
    case StartRun(start, _) => WellFormed(start.target)
    case AnswerRun(_, binding, _) => WellFormed(binding)
    case _ => true
  }

  function NewCall(op: Op): Call
  {
    Call(op, Begin, None, None, None, false)
  }

  ghost function Step(s: State, a: Action): State
  {
    match a
    case Invoke(c, op) => if c in s.calls || !JsonArguments(op) then s else Put(s, c, NewCall(op))
    case Advance(c, o) =>
      if c !in s.calls || s.calls[c].pc.Done? || s.calls[c].pc.Failed? then s
      else Act(Noted(s, s.calls[c], o), c, o)
    case Crash(c) => if c !in s.calls || s.calls[c].pc.Done? then s else Put(s, c, s.calls[c].(pc := Failed))
    case World(server) => if Grows(s.server, server) then s.(server := server) else s
  }

  function Init(tenant: Text, cap: int): State
  {
    State(tenant, cap, Table(map[], {}), Server(map[], map[], map[], {}, {}), map[], map[], map[], [], map[], {})
  }

  // ---------------------------------------------------------------------
  // Runs
  // ---------------------------------------------------------------------

  ghost predicate Moves(s: State, u: State)
  {
    exists a :: u == Step(s, a)
  }

  ghost predicate MovesAt(run: seq<State>, i: nat)
    requires i + 1 < |run|
  {
    Moves(run[i], run[i + 1])
  }

  /** The states of a run: an initial one, then each by an action from the one before. */
  ghost predicate IsRun(run: seq<State>)
  {
    && run != [] && run[0] == Init(run[0].tenant, run[0].cap)
    && forall i: nat :: i + 1 < |run| ==> MovesAt(run, i)
  }
}
