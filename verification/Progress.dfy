/**
What a call achieves when nothing disturbs it: for every reachable state, the
steps of one call alone store what its operation is for, submit what was
reserved, cancel what was stopped and record what was reported.
*/
module Progress {
  import opened Json
  import opened Documents
  import opened Executions
  import opened CasStore
  import opened Servers
  import opened Protocol
  import opened Invariants
  import opened Chase
  import opened Ownership
  import Bindings
  import Decisions
  import GM = GoalMeanings
  import L = LoadedRecords
  import RunMeanings
  import Goals
  import Runs

  // ---------------------------------------------------------------------
  // The steps of one call
  // ---------------------------------------------------------------------

  function End(run: seq<State>): State
    requires run != []
  {
    run[|run| - 1]
  }

  ghost function Go(run: seq<State>, a: Action): (longer: seq<State>)
    requires run != []
    ensures longer != [] && run < longer
  {
    run + [Step(End(run), a)]
  }

  /** The run in which this call is made and takes this many steps, with a steady clock and steady answers. */
  ghost function Called(run: seq<State>, c: nat, op: Op, o: Oracle, steps: nat): (longer: seq<State>)
    requires run != []
    ensures longer != [] && run < longer
    decreases steps
  {
    if steps == 0 then Go(run, Invoke(c, op)) else Go(Called(run, c, op, o, steps - 1), Advance(c, o))
  }

  lemma GoIsRun(run: seq<State>, a: Action)
    requires IsRun(run)
    ensures IsRun(Go(run, a))
  {
    hide Step, IsRun;
    NonEmpty(run);
    assert Moves(End(run), Step(End(run), a));
    RunExtends(run, Step(End(run), a));
  }

  lemma NonEmpty(run: seq<State>)
    requires IsRun(run)
    ensures run != []
  {
  }

  /** What the call finds and leaves: everything but the calls and the notes is as before, and it stands here. */
  ghost predicate Quiet(s: State, u: State, c: nat, call: Call)
  {
    && u.table == s.table && u.server == s.server && u.tenant == s.tenant && u.cap == s.cap && u.submits == s.submits
    && c in u.calls && u.calls[c] == call
  }

  lemma Invoked(run: seq<State>, c: nat, op: Op, o: Oracle)
    requires IsRun(run) && c !in End(run).calls && JsonArguments(op)
    ensures IsRun(Called(run, c, op, o, 0)) && Quiet(End(run), End(Called(run, c, op, o, 0)), c, NewCall(op))
  {
    hide IsRun, JsonArguments;
    GoIsRun(run, Invoke(c, op));
  }

  /** A step that only moves the call on. */
  lemma Turns(s: State, run: seq<State>, c: nat, call: Call, o: Oracle, pc: Pc)
    requires IsRun(run) && Quiet(s, End(run), c, call) && !call.pc.Done? && !call.pc.Failed?
    requires Decide(End(run), call, o) == Move(pc)
    ensures IsRun(Go(run, Advance(c, o))) && Quiet(s, End(Go(run, Advance(c, o))), c, call.(pc := pc))
  {
    hide IsRun, Decide;
    NonEmpty(run);
    GoIsRun(run, Advance(c, o));
    var n := Noted(End(run), call, o);
    DecidesSame(End(run), n, call, o);
  }

  lemma DecidesSame(s: State, n: State, call: Call, o: Oracle)
    requires n == s.(completed := n.completed, accepted := n.accepted)
    ensures Decide(n, call, o) == Decide(s, call, o)
  {
    hide DecideLoaded, DecideSight, DecideJudged, ReadOffer, Matches, Readable, Goals.Start, Runs.Start, Goals.ReserveBtw, Goals.ValidBtwArgs;
    assert Fetch(n, KeyOfOp(call.op)) == Fetch(s, KeyOfOp(call.op));
  }

  /** A call that has returned stays so. */
  lemma Rests(s: State, run: seq<State>, c: nat, call: Call, o: Oracle)
    requires IsRun(run) && Quiet(s, End(run), c, call) && (call.pc.Done? || call.pc.Failed?)
    ensures IsRun(Go(run, Advance(c, o))) && Quiet(s, End(Go(run, Advance(c, o))), c, call)
    ensures End(Go(run, Advance(c, o))) == End(run)
  {
    hide IsRun;
    GoIsRun(run, Advance(c, o));
  }

  lemma LatestRow(run: seq<State>, k: Key)
    requires IsRun(run) && k in End(run).table.rows
    ensures var row := End(run).table.rows[k];
      Fetch(End(run), k) == Some(Snapshot(row.revision, row.value)) && row.revision >= 0 && KeyOf(row.value) == k
  {
    hide IsRun, Fetch, Readable;
    NonEmpty(run);
    RowIsLatest(run, |run| - 1, k);
    RevisionIsNat(run, |run| - 1, k);
    FetchedKey(End(run), k);
  }

  lemma FetchedKey(s: State, k: Key)
    requires Fetch(s, k).Some?
    ensures KeyOf(Fetch(s, k).value.value) == k
  {
  }

  ghost predicate NamesRevision(op: Op)
  {
    !op.StartGoal? && !op.StartRun? && !op.ReserveBtw? && !op.AnswerRun?
  }

  /** The call is made on the current version of its record. */
  ghost predicate Fits(run: seq<State>, c: nat, op: Op, v: Record)
  {
    && IsRun(run) && run != [] && c !in End(run).calls
    && KeyOfOp(op) in End(run).table.rows && End(run).table.rows[KeyOfOp(op)].value == v
    && End(run).table.rows[KeyOfOp(op)].revision < MAX_SAFE
    && NamesRevision(op) && op.revision == End(run).table.rows[KeyOfOp(op)].revision
  }

  function Held(op: Op, revision: int, v: Record): Call
  {
    NewCall(op).(pc := Loaded(Snapshot(revision, v)))
  }

  lemma LoadsRow(s: State, run: seq<State>, c: nat, op: Op, o: Oracle)
    requires IsRun(run) && Quiet(s, End(run), c, NewCall(op)) && NamesRevision(op)
    requires KeyOfOp(op) in s.table.rows && s.table.rows[KeyOfOp(op)].revision == op.revision
    ensures IsRun(Go(run, Advance(c, o)))
    ensures var v := s.table.rows[KeyOfOp(op)].value;
      Quiet(s, End(Go(run, Advance(c, o))), c, Held(op, op.revision, v)) && op.revision >= 0 && KeyOf(v) == KeyOfOp(op)
  {
    hide IsRun, Go, Fetch, KeyOfOp, KeyOf, DecideLoaded, DecideSight, DecideJudged;
    NonEmpty(run);
    var v := s.table.rows[KeyOfOp(op)].value;
    LatestRow(run, KeyOfOp(op));
    assert Decide(End(run), NewCall(op), o) == Move(Loaded(Snapshot(op.revision, v)));
    Turns(s, run, c, NewCall(op), o, Loaded(Snapshot(op.revision, v)));
  }

  lemma Loads(run: seq<State>, c: nat, op: Op, o: Oracle, v: Record)
    requires Fits(run, c, op, v)
    ensures IsRun(Called(run, c, op, o, 1)) && Quiet(End(run), End(Called(run, c, op, o, 1)), c, Held(op, op.revision, v))
    ensures op.revision >= 0 && KeyOf(v) == KeyOfOp(op)
  {
    hide IsRun, KeyOfOp, KeyOf, Held, Quiet;
    Invoked(run, c, op, o);
    LoadsRow(End(run), Called(run, c, op, o, 0), c, op, o);
  }

  // ---------------------------------------------------------------------
  // Writing
  // ---------------------------------------------------------------------

  /** The record is this version, one revision on, its task id is taken, and the call goes on from there. */
  ghost predicate Stored(s: State, u: State, c: nat, call: Call, k: Key, revision: int, v: Record, newId: Option<Text>)
  {
    && u.table.rows == s.table.rows[k := Row(revision, IsWaiting(v), v)]
    && u.table.ids == (if newId.Some? then s.table.ids + {newId.value} else s.table.ids)
    && u.server == s.server && u.submits == s.submits && c in u.calls && u.calls[c] == call
  }

  /** The store has room for what is written: its task id is new, and a waiting run is within the cap. */
  ghost predicate Room(s: State, k: Key, v: Record, newId: Option<Text>)
  {
    && (newId.Some? ==> newId.value !in s.table.ids)
    && (IsWaiting(v) ==> |WaitingOthers(s.table.rows, k)| < s.cap)
  }

  lemma Writes(s: State, run: seq<State>, c: nat, call: Call, o: Oracle, expected: Option<int>, v: Record, newId: Option<Text>, next: Next)
    requires IsRun(run) && Quiet(s, End(run), c, call) && !call.pc.Done? && !call.pc.Failed?
    requires Decide(End(run), call, o) == Save(expected, v, newId, next)
    requires Current(s.table.rows, KeyOfOp(call.op), expected) && (expected.Some? ==> 0 <= expected.value < MAX_SAFE)
    requires Room(s, KeyOfOp(call.op), v, newId)
    ensures IsRun(Go(run, Advance(c, o)))
    ensures var k, revision := KeyOfOp(call.op), NextRevision(expected);
      Stored(s, End(Go(run, Advance(c, o))), c, AfterSave(call, Row(revision, IsWaiting(v), v), next), k, revision, v, newId)
  {
    hide IsRun, Decide, KeyOfOp, IsWaiting, AfterSave, Book, WaitingOthers, Current;
    NonEmpty(run);
    GoIsRun(run, Advance(c, o));
    var n := Noted(End(run), call, o);
    DecidesSame(End(run), n, call, o);
    CommitSavesExactly(s.table, Some(s.cap), KeyOfOp(call.op), expected, v, IsWaiting(v), newId);
  }

  /** A call that writes what it makes of the current version. */
  lemma Stores(run: seq<State>, c: nat, op: Op, o: Oracle, v: Record, b: Record, newId: Option<Text>, next: Next)
    requires Fits(run, c, op, v) && Room(End(run), KeyOfOp(op), b, newId)
    requires DecideLoaded(op, Snapshot(op.revision, v), o) == Save(Some(op.revision), b, newId, next)
    ensures IsRun(Called(run, c, op, o, 2))
    ensures Stored(End(run), End(Called(run, c, op, o, 2)), c,
                   AfterSave(Held(op, op.revision, v), Row(op.revision + 1, IsWaiting(b), b), next), KeyOfOp(op), op.revision + 1, b, newId)
  {
    hide IsRun, DecideLoaded, KeyOfOp, IsWaiting, AfterSave, Room, DecideBegin, DecideSight, DecideJudged;
    Loads(run, c, op, o, v);
    var longer := Called(run, c, op, o, 1);
    Writes(End(run), longer, c, Held(op, op.revision, v), o, Some(op.revision), b, newId, next);
  }

  /** A call that only decides: nothing is written. */
  lemma Decides(run: seq<State>, c: nat, op: Op, o: Oracle, v: Record, pc: Pc)
    requires Fits(run, c, op, v) && DecideLoaded(op, Snapshot(op.revision, v), o) == Move(pc)
    ensures IsRun(Called(run, c, op, o, 2)) && Quiet(End(run), End(Called(run, c, op, o, 2)), c, NewCall(op).(pc := pc))
  {
    hide IsRun, DecideLoaded, KeyOfOp, DecideBegin, DecideSight, DecideJudged;
    Loads(run, c, op, o, v);
    Turns(End(run), Called(run, c, op, o, 1), c, Held(op, op.revision, v), o, pc);
  }

  // ---------------------------------------------------------------------
  // Goals
  // ---------------------------------------------------------------------

  /** What a goal operation makes of the goal. */
  function Made(op: Op, g: Goals.Goal, now: int): Result<Goals.Goal>
    requires op.ReserveStep? || op.PauseGoal? || op.ResumeGoal?
  {
    match op
    case ReserveStep(_, _, taskId, context) => Goals.ReserveStep(g, taskId, context, now)
    case PauseGoal(_, _) => Goals.Pause(g)
    case ResumeGoal(_, _) => Goals.Resume(g, now)
  }

  /** Reserving, pausing and resuming on the current version store what the operation makes of the goal, or fail and change nothing. */
  lemma GoalCallStores(run: seq<State>, c: nat, op: Op, o: Oracle, g: Goals.Goal)
    requires Fits(run, c, op, GoalRec(g)) && (op.ReserveStep? || op.PauseGoal? || op.ResumeGoal?)
    requires op.ReserveStep? ==> op.taskId !in End(run).table.ids
    ensures var u := End(Called(run, c, op, o, 2));
      if Made(op, g, o.now).Err? then Quiet(End(run), u, c, NewCall(op).(pc := Failed))
      else Stored(End(run), u, c, NewCall(op).(pc := Done(None)), KeyOfOp(op), op.revision + 1, GoalRec(Made(op, g, o.now).value),
                  if op.ReserveStep? then Some(op.taskId) else None)
  {
    hide IsRun, Goals.ReserveStep, Goals.Pause, Goals.Resume, Called;
    var v := GoalRec(g);
    if Made(op, g, o.now).Err? {
      Decides(run, c, op, o, v, Failed);
    } else {
      Stores(run, c, op, o, v, GoalRec(Made(op, g, o.now).value), if op.ReserveStep? then Some(op.taskId) else None, Finish);
    }
  }

  // ---------------------------------------------------------------------
  // Stopping
  // ---------------------------------------------------------------------

  /** The server shows the execution as it was reserved: an attempt on its device for its agent, and no other offer. */
  ghost predicate Shown(server: Server, kind: Kind, input: Input)
  {
    && input.taskId in server.attempts && server.attempts[input.taskId].taskId == input.taskId
    && IsAttempt(kind, server.attempts[input.taskId], input) && WellFormed(server.attempts[input.taskId].agentRef.value)
    && (input.taskId in server.offers ==> WellFormed(server.offers[input.taskId].payload) && IsInput(server.offers[input.taskId], input))
  }

  /** Such an execution passes every check a Host makes on it. */
  lemma ShownPasses(run: seq<State>, k: Key, op: Op, input: Input)
    requires IsRun(run) && k in End(run).table.rows && HasInput(End(run).table.rows[k].value, input) && KeyOfOp(op) == k
    requires Shown(End(run).server, k.kind, input)
    ensures Matches(op, End(run).server.attempts[input.taskId], input) && !ReadOffer(End(run).server, input).Differs?
  {
    hide IsRun, KeyOfOp, Matches, ReadOffer, IsAttempt, IsInput, WellFormed;
    NonEmpty(run);
    RowPayload(run, k, input);
    MatchesIsExact(op, End(run).server.attempts[input.taskId], input);
    ReadOfferIsExact(End(run).server, input);
  }

  lemma RowPayload(run: seq<State>, k: Key, input: Input)
    requires IsRun(run) && run != [] && k in End(run).table.rows && HasInput(End(run).table.rows[k].value, input)
    ensures WellFormed(input.payload)
  {
    hide IsRun, WellFormed, Bindings.Faithful, CallsOk, PairsOk, HistoryOk, ReservedOk, SubmitsOk, AcceptedOk, CompletedOk;
    var s := End(run);
    Decisions.Reachable(run, |run| - 1);
    Bindings.FaithfulAlways(run, |run| - 1);
    assert RowOk(s.table.rows[k], s.history[k]);
    PayloadOf(s.history[k][|s.history[k]| - 1], input);
  }

  lemma ThreeMore(run: seq<State>, c: nat, op: Op, o: Oracle, n: nat)
    requires run != []
    ensures Called(run, c, op, o, n + 3) == Go(Go(Go(Called(run, c, op, o, n), Advance(c, o)), Advance(c, o)), Advance(c, o))
  {
    hide Go;
    assert Called(run, c, op, o, n + 2) == Go(Called(run, c, op, o, n + 1), Advance(c, o));
  }

  ghost predicate Stands(s: State, c: nat, call: Call)
  {
    c in s.calls && s.calls[c] == call
  }

  lemma Asks(s: State, run: seq<State>, c: nat, call: Call, o: Oracle, input: Input)
    requires IsRun(run) && Quiet(s, End(run), c, call) && call.pc == FlushCancel(input) && o.ok
    ensures var u := End(Go(run, Advance(c, o)));
      u.table == s.table && Stands(u, c, call.(pc := Done(None))) && input.taskId in Settled(u.server)
  {
    hide IsRun, DecideBegin, DecideLoaded, DecideSight, DecideJudged, Fetch, Matches, ReadOffer;
    NonEmpty(run);
  }

  /** A call on its way to cancel a shown execution gets there. */
  lemma Chases(run: seq<State>, c: nat, call: Call, o: Oracle, input: Input)
    requires IsRun(run) && Stands(End(run), c, call) && call.pc == Flush(input) && o.ok
    requires var k := KeyOfOp(call.op);
      k in End(run).table.rows && HasInput(End(run).table.rows[k].value, input) && Shown(End(run).server, k.kind, input)
    ensures var longer := Go(Go(Go(run, Advance(c, o)), Advance(c, o)), Advance(c, o));
      && End(longer).table == End(run).table && Stands(End(longer), c, call.(pc := Done(None)))
      && input.taskId in Settled(End(longer).server)
  {
    hide IsRun, Go, Settled, KeyOfOp, Matches, ReadOffer, DecideBegin, DecideLoaded, DecideSight, DecideJudged, Fetch, IsAttempt, IsInput;
    NonEmpty(run);
    ShownPasses(run, KeyOfOp(call.op), call.op, input);
    var s := End(run);
    Turns(s, run, c, call, o, FlushOffer(input));
    var one := Go(run, Advance(c, o));
    Turns(s, one, c, call.(pc := FlushOffer(input)), o, FlushCancel(input));
    Asks(s, Go(one, Advance(c, o)), c, call.(pc := FlushCancel(input)), o, input);
  }

  /** What stops a record, whatever its kind: a cancellation, a new context, or the time. */
  function Stops(op: Op, v: Record, now: int): Option<Record>
  {
    match (op, v)
    case (CancelGoal(_, _), GoalRec(g)) => if Goals.Cancel(g).Ok? then Some(GoalRec(Goals.Cancel(g).value)) else None
    case (CancelBtw(_, _), BtwRec(b)) => if b.status.Answered? then None else Some(BtwRec(b.(status := Goals.SideCancelled)))
    case (CancelRun(_, _), RunRec(r)) => if Runs.Cancel(r).Ok? then Some(RunRec(Runs.Cancel(r).value)) else None
    case (ChangeContext(_, _, next), RunRec(r)) =>
      if Runs.ChangeContext(r, next).Ok? then Some(RunRec(Runs.ChangeContext(r, next).value)) else None
    case (TickGoal(_, _), GoalRec(g)) =>
      if !g.status.Complete? && !Goals.Stopped(g) && g.deadline <= now <= MAX_SAFE then Some(GoalRec(Goals.Expire(g))) else None
    case (TickRun(_, _), RunRec(r)) =>
      if !Runs.Stopped(r) && 0 <= now <= MAX_SAFE
         && (r.deadline <= now || (r.status.WaitingInput? && r.tickets != [] && Runs.Last(r).expiresAt <= now))
      then Some(RunRec(Runs.Close(r, Runs.ByExpiry))) else None
    case _ => None
  }

  lemma StopsKeeps(op: Op, v: Record, now: int)
    requires Stops(op, v, now).Some?
    ensures PendingOf(Stops(op, v, now).value) == PendingOf(v) && IsStopped(Stops(op, v, now).value) && !IsWaiting(Stops(op, v, now).value)
  {
  }

  lemma StopDecides(op: Op, row: Snapshot, o: Oracle)
    requires Stops(op, row.value, o.now).Some? && (op.TickGoal? ==> o.now >= 0)
    ensures DecideLoaded(op, row, o) == Save(Some(row.revision), Stops(op, row.value, o.now).value, None, ChaseSaved)
  {
    hide Runs.Close, Runs.Cancel, Runs.ChangeContext, Goals.Cancel, Goals.Expire, Runs.Last;
  }

  /**
  A cancellation, a new context or the time stops the record, keeps its
  execution, and asks the server to cancel the execution it shows.
  */
  lemma StopCancels(run: seq<State>, c: nat, op: Op, o: Oracle, v: Record, input: Input)
    requires Fits(run, c, op, v) && Stops(op, v, o.now).Some? && o.now >= 0 && o.ok
    requires HasInput(v, input) && Shown(End(run).server, KeyOfOp(op).kind, input)
    ensures var u := End(Called(run, c, op, o, 5));
      && KeyOfOp(op) in u.table.rows && u.table.rows[KeyOfOp(op)] == Row(op.revision + 1, false, Stops(op, v, o.now).value)
      && IsStopped(Stops(op, v, o.now).value) && HasInput(Stops(op, v, o.now).value, input)
      && input.taskId in Settled(u.server) && c in u.calls && u.calls[c].pc == Done(None)
  {
    hide IsRun, KeyOfOp, Stops, Shown, DecideLoaded, IsStopped, IsWaiting, Settled;
    var b := Stops(op, v, o.now).value;
    StopsKeeps(op, v, o.now);
    StopDecides(op, Snapshot(op.revision, v), o);
    Stores(run, c, op, o, v, b, None, ChaseSaved);
    var two := Called(run, c, op, o, 2);
    var call := AfterSave(Held(op, op.revision, v), Row(op.revision + 1, false, b), ChaseSaved);
    assert call.pc == Flush(input) && call.op == op;
    Chases(two, c, call, o, input);
    ThreeMore(run, c, op, o, 2);
  }

  /** Without an execution there is nothing to chase. */
  lemma StopStores(run: seq<State>, c: nat, op: Op, o: Oracle, v: Record)
    requires Fits(run, c, op, v) && Stops(op, v, o.now).Some? && o.now >= 0 && PendingOf(v).None?
    ensures Stored(End(run), End(Called(run, c, op, o, 2)), c, NewCall(op).(pc := Done(None)), KeyOfOp(op), op.revision + 1,
                   Stops(op, v, o.now).value, None)
  {
    hide IsRun, KeyOfOp, Stops, DecideLoaded, IsStopped, Called;
    var b := Stops(op, v, o.now).value;
    StopsKeeps(op, v, o.now);
    StopDecides(op, Snapshot(op.revision, v), o);
    Stores(run, c, op, o, v, b, None, ChaseSaved);
  }

  /** Before its time a tick changes nothing. */
  lemma EarlyTick(run: seq<State>, c: nat, op: Op, o: Oracle, v: Record)
    requires Fits(run, c, op, v) && (op.TickGoal? || op.TickRun?) && Stops(op, v, o.now).None? && SafeTime(o.now)
    requires !IsStopped(v)
    ensures Quiet(End(run), End(Called(run, c, op, o, 2)), c, NewCall(op).(pc := Done(None)))
  {
    hide IsRun, Called, Runs.Close, Goals.Expire, Runs.Last;
    Loads(run, c, op, o, v);
    Decides(run, c, op, o, v, Done(None));
  }

  // ---------------------------------------------------------------------
  // Sending
  // ---------------------------------------------------------------------

  /** The record is live and in time: what it holds may be sent. */
  ghost predicate MaySend(v: Record, now: int)
  {
    && PendingOf(v).Some?
    && match v
       case GoalRec(g) => g.status.Active? && 0 <= now < g.deadline && now <= MAX_SAFE
       case BtwRec(b) => !b.status.SideCancelled?
       case RunRec(r) => !Runs.Stopped(r) && 0 <= now < r.deadline && now <= MAX_SAFE
  }

  function Sent(v: Record): Record
    requires PendingOf(v).Some?
  {
    match v
    case GoalRec(g) => GoalRec(Goals.MarkSending(g))
    case BtwRec(b) => BtwRec(b.(pending := b.pending.(phase := Sending)))
    case RunRec(r) => RunRec(Runs.MarkSending(r))
  }

  lemma SendDecides(k: Key, row: Snapshot, o: Oracle, recovery: bool)
    requires MaySend(row.value, o.now)
    ensures var p := PendingOf(row.value).value;
      var eff := DecideLoaded(Send(k, row.revision, recovery), row, o);
      && (p.phase.Reserved? ==> eff == Save(Some(row.revision), Sent(row.value), None, VerifySaved))
      && (p.phase.Sending? ==> eff == if recovery then Move(Verify(p.input, row.revision)) else Move(Failed))
  {
  }

  lemma SentKeeps(v: Record, now: int)
    requires MaySend(v, now)
    ensures var b := Sent(v);
      PendingOf(b) == Some(PendingOf(v).value.(phase := Sending)) && !IsStopped(b) && !IsWaiting(b) && (b.GoalRec? ==> b.goal.status.Active?)
  {
  }

  lemma HandsOver(s: State, run: seq<State>, c: nat, call: Call, o: Oracle, input: Input, at: int)
    requires IsRun(run) && Quiet(s, End(run), c, call) && call.pc == Submitting(input, at)
    ensures var u := End(Go(run, Advance(c, o)));
      && u.table == s.table && u.server == s.server && Stands(u, c, call.(pc := Awaiting(input, at), sent := Some(input.taskId)))
      && u.submits == s.submits + [Submission(KeyOfOp(call.op), at, input)]
  {
    hide IsRun, KeyOfOp, DecideBegin, DecideLoaded, DecideSight, DecideJudged, Fetch, Matches, ReadOffer;
    NonEmpty(run);
  }

  /** From the verification of an offer that is not there, on a live record, to the submission. */
  lemma Submits(run: seq<State>, c: nat, call: Call, o: Oracle, input: Input, at: int)
    requires IsRun(run) && Stands(End(run), c, call) && call.pc == Verify(input, at)
    requires var k := KeyOfOp(call.op);
      && k in End(run).table.rows && !IsStopped(End(run).table.rows[k].value)
      && (End(run).table.rows[k].value.GoalRec? ==> End(run).table.rows[k].value.goal.status.Active?)
    requires input.taskId !in End(run).server.offers
    ensures var longer := Go(Go(Go(run, Advance(c, o)), Advance(c, o)), Advance(c, o));
      && End(longer).table == End(run).table && End(longer).server == End(run).server
      && Stands(End(longer), c, call.(pc := Awaiting(input, at), sent := Some(input.taskId)))
      && End(longer).submits == End(run).submits + [Submission(KeyOfOp(call.op), at, input)]
  {
    hide IsRun, Go, KeyOfOp, Matches, DecideBegin, DecideLoaded, DecideSight, DecideJudged, Fetch, IsStopped;
    NonEmpty(run);
    var s := End(run);
    Turns(s, run, c, call, o, Recheck(input, at));
    var one := Go(run, Advance(c, o));
    LatestRow(one, KeyOfOp(call.op));
    Turns(s, one, c, call.(pc := Recheck(input, at)), o, Submitting(input, at));
    HandsOver(s, Go(one, Advance(c, o)), c, call.(pc := Submitting(input, at)), o, input, at);
  }

  lemma SendSaves(run: seq<State>, c: nat, op: Op, o: Oracle, v: Record)
    requires op.Send? && Fits(run, c, op, v) && MaySend(v, o.now) && PendingOf(v).value.phase.Reserved?
    ensures IsRun(Called(run, c, op, o, 2))
    ensures var call := Held(op, op.revision, v).(pc := Verify(PendingOf(v).value.input, op.revision + 1));
      Stored(End(run), End(Called(run, c, op, o, 2)), c, call, op.key, op.revision + 1, Sent(v), None)
  {
    hide IsRun, Sent, DecideLoaded, IsStopped, IsWaiting, Called, Go, Quiet, Stored, KeyOf;
    SentKeeps(v, o.now);
    SendDecides(op.key, Snapshot(op.revision, v), o, op.recovery);
    Stores(run, c, op, o, v, Sent(v), None, VerifySaved);
  }

  /** A reserved execution is marked as being sent, and then submitted. */
  lemma SendSubmits(run: seq<State>, c: nat, op: Op, o: Oracle, v: Record)
    requires op.Send? && Fits(run, c, op, v)
    requires MaySend(v, o.now) && PendingOf(v).value.phase.Reserved? && PendingOf(v).value.input.taskId !in End(run).server.offers
    ensures var u := End(Called(run, c, op, o, 5));
      && op.key in u.table.rows && u.table.rows[op.key] == Row(op.revision + 1, false, Sent(v))
      && u.submits == End(run).submits + [Submission(op.key, op.revision + 1, PendingOf(v).value.input)]
  {
    hide IsRun, Sent, DecideLoaded, IsStopped, IsWaiting, Called, Go, Quiet, NamesRevision, KeyOf;
    var input := PendingOf(v).value.input;
    SentKeeps(v, o.now);
    SendSaves(run, c, op, o, v);
    Submits(Called(run, c, op, o, 2), c, Held(op, op.revision, v).(pc := Verify(input, op.revision + 1)), o, input, op.revision + 1);
    ThreeMore(run, c, op, o, 2);
  }

  /** Recovery submits again what was being sent and left no offer; without recovery nothing is sent twice. */
  lemma RecoverySubmits(run: seq<State>, c: nat, op: Op, o: Oracle, v: Record)
    requires op.Send? && Fits(run, c, op, v)
    requires MaySend(v, o.now) && PendingOf(v).value.phase.Sending? && PendingOf(v).value.input.taskId !in End(run).server.offers
    ensures op.recovery ==>
      var u := End(Called(run, c, op, o, 5));
      u.table == End(run).table && u.submits == End(run).submits + [Submission(op.key, op.revision, PendingOf(v).value.input)]
    ensures !op.recovery ==> Quiet(End(run), End(Called(run, c, op, o, 2)), c, NewCall(op).(pc := Failed))
  {
    hide IsRun, DecideLoaded, Called, Go, IsStopped;
    var input := PendingOf(v).value.input;
    SendDecides(op.key, Snapshot(op.revision, v), o, op.recovery);
    SendableIsLive(v, o.now);
    if op.recovery {
      Decides(run, c, op, o, v, Verify(input, op.revision));
      Submits(Called(run, c, op, o, 2), c, NewCall(op).(pc := Verify(input, op.revision)), o, input, op.revision);
      ThreeMore(run, c, op, o, 2);
    } else {
      Decides(run, c, op, o, v, Failed);
    }
  }

  /** Recovery that finds the offer delivered submits nothing. */
  lemma RecoveryFinds(run: seq<State>, c: nat, op: Op, o: Oracle, v: Record)
    requires op.Send? && op.recovery && Fits(run, c, op, v) && MaySend(v, o.now) && PendingOf(v).value.phase.Sending?
    requires var input := PendingOf(v).value.input;
      Shown(End(run).server, op.key.kind, input) && input.taskId in End(run).server.offers && End(run).server.offers[input.taskId].delivered
    ensures var u := End(Called(run, c, op, o, 4));
      u.table == End(run).table && u.server == End(run).server && u.submits == End(run).submits && c in u.calls && u.calls[c].pc == Done(None)
  {
    hide IsRun, DecideLoaded, DecideBegin, DecideSight, DecideJudged, Fetch, Matches, ReadOffer, IsAttempt, IsInput, IsStopped, KeyOf;
    var input := PendingOf(v).value.input;
    SendDecides(op.key, Snapshot(op.revision, v), o, true);
    SendableIsLive(v, o.now);
    Decides(run, c, op, o, v, Verify(input, op.revision));
    RowPayload(run, op.key, input);
    ReadOfferIsExact(End(run).server, input);
    var two := Called(run, c, op, o, 2);
    Turns(End(run), two, c, NewCall(op).(pc := Verify(input, op.revision)), o, Rereading(input, op.revision));
    Rereads(End(run), Called(run, c, op, o, 3), c, NewCall(op).(pc := Rereading(input, op.revision)), o);
  }

  /** A sender that re-reads a live record returns. */
  lemma Rereads(s: State, run: seq<State>, c: nat, call: Call, o: Oracle)
    requires IsRun(run) && Quiet(s, End(run), c, call) && call.pc.Rereading?
    requires KeyOfOp(call.op) in s.table.rows && !IsStopped(s.table.rows[KeyOfOp(call.op)].value)
    ensures var u := End(Go(run, Advance(c, o)));
      && u.table == s.table && u.server == s.server && u.submits == s.submits && c in u.calls && u.calls[c].pc == Done(None)
  {
    hide IsRun, KeyOfOp, IsStopped, Fetch, DecideBegin, DecideLoaded, DecideSight, DecideJudged, Matches, ReadOffer;
    NonEmpty(run);
    LatestRow(run, KeyOfOp(call.op));
  }

  lemma SendableIsLive(v: Record, now: int)
    requires MaySend(v, now)
    ensures !IsStopped(v)
  {
  }

  /**
  A submission that is answered, or whose offer turns out to have been delivered,
  returns once the record has been re-read; one that is neither fails.
  */
  lemma SubmissionReturns(run: seq<State>, c: nat, call: Call, o: Oracle)
    requires IsRun(run) && run != [] && Stands(End(run), c, call) && call.pc.Awaiting?
    requires KeyOfOp(call.op) in End(run).table.rows && !IsStopped(End(run).table.rows[KeyOfOp(call.op)].value)
    requires call.pc.input.taskId in End(run).server.attempts
    ensures var two := Go(Go(run, Advance(c, o)), Advance(c, o));
      var three := Go(two, Advance(c, o));
      && (o.ok ==> c in End(two).calls && End(two).calls[c].pc == Done(None))
      && (!o.ok && ReadOffer(End(run).server, call.pc.input).WasDelivered? ==> c in End(three).calls && End(three).calls[c].pc == Done(None))
      && (!o.ok && !ReadOffer(End(run).server, call.pc.input).WasDelivered? ==> c in End(two).calls && End(two).calls[c].pc == Failed)
  {
    hide IsRun, KeyOfOp, IsStopped, Fetch, DecideBegin, DecideLoaded, DecideSight, DecideJudged, Matches, ReadOffer, Go;
    var s, input, at := End(run), call.pc.input, call.pc.at;
    var one := Go(run, Advance(c, o));
    if o.ok {
      Turns(s, run, c, call, o, Rereading(input, at));
      Rereads(s, one, c, call.(pc := Rereading(input, at)), o);
    } else {
      Turns(s, run, c, call, o, Doubting(input, at));
      var doubting := call.(pc := Doubting(input, at));
      var found := ReadOffer(s.server, input).WasDelivered?;
      Turns(s, one, c, doubting, o, if found then Rereading(input, at) else Failed);
      if found { Rereads(s, Go(one, Advance(c, o)), c, call.(pc := Rereading(input, at)), o); }
    }
  }

  /** A goal that is sent too late ends there. */
  lemma LateSendExpires(run: seq<State>, c: nat, op: Op, o: Oracle, g: Goals.Goal)
    requires op.Send? && Fits(run, c, op, GoalRec(g)) && g.status.Active? && g.pending.Some? && g.deadline <= o.now <= MAX_SAFE && o.now >= 0
    ensures var u := End(Called(run, c, op, o, 2));
      && op.key in u.table.rows && u.table.rows[op.key] == Row(op.revision + 1, false, GoalRec(Goals.Expire(g)))
      && c in u.calls && u.calls[c].pc == Flush(g.pending.value.input)
  {
    hide IsRun, Called, Go, Goals.Expire;
    ExpireKeeps(g);
    Stores(run, c, op, o, GoalRec(g), GoalRec(Goals.Expire(g)), None, ChaseSaved);
  }

  lemma ExpireKeeps(g: Goals.Goal)
    ensures Goals.Expire(g).pending == g.pending
  {
  }

  /** The call is on a live run whose time is up: its deadline, or for a notification the expiry of its question. */
  ghost predicate Late(op: Op, r: Runs.Run, now: int)
  {
    && (op.Send? || op.ReconcileRun? || op.Notify?) && !Runs.Stopped(r) && SafeTime(now)
    && if op.Notify? then r.status.WaitingInput? && r.tickets != [] && Runs.Last(r).expiresAt <= now else r.deadline <= now
  }

  lemma LateDecides(op: Op, row: Snapshot, r: Runs.Run, o: Oracle)
    requires Late(op, r, o.now) && row.value == RunRec(r)
    ensures DecideLoaded(op, row, o) == Become(TickRun(r.id, row.revision))
    ensures DecideLoaded(TickRun(r.id, row.revision), row, o) == Save(Some(row.revision), RunRec(Runs.Close(r, Runs.ByExpiry)), None, ChaseSaved)
    ensures !IsWaiting(RunRec(Runs.Close(r, Runs.ByExpiry)))
  {
    hide Runs.Last;
  }

  lemma BecomesTick(run: seq<State>, c: nat, op: Op, o: Oracle, r: Runs.Run)
    requires Fits(run, c, op, RunRec(r)) && Late(op, r, o.now)
    ensures var tick := TickRun(r.id, op.revision);
      && KeyOfOp(tick) == KeyOfOp(op) && op.revision >= 0 && IsRun(Called(run, c, op, o, 3))
      && Quiet(End(run), End(Called(run, c, op, o, 3)), c, Held(tick, op.revision, RunRec(r)))
  {
    hide IsRun, Called, Go, Late, DecideLoaded, Quiet;
    var s, tick, v := End(run), TickRun(r.id, op.revision), RunRec(r);
    Loads(run, c, op, o, v);
    LateDecides(op, Snapshot(op.revision, v), r, o);
    assert Decide(End(Called(run, c, op, o, 1)), Held(op, op.revision, v), o) == Become(tick);
    Becomes(s, Called(run, c, op, o, 1), c, Held(op, op.revision, v), o, tick);
    OneMore(run, c, op, o, 1);
    LoadsRow(s, Called(run, c, op, o, 2), c, tick, o);
    OneMore(run, c, op, o, 2);
  }

  /** A run whose time is up expires, whichever call notices it. */
  lemma LateCallExpires(run: seq<State>, c: nat, op: Op, o: Oracle, r: Runs.Run)
    requires Fits(run, c, op, RunRec(r)) && Late(op, r, o.now)
    ensures var u := End(Called(run, c, op, o, 4));
      KeyOfOp(op) in u.table.rows && u.table.rows[KeyOfOp(op)] == Row(op.revision + 1, false, RunRec(Runs.Close(r, Runs.ByExpiry)))
  {
    hide IsRun, Called, Go, Late, DecideLoaded, DecideSight, DecideJudged, Matches, ReadOffer, Runs.Close, KeyOfOp, IsWaiting;
    var tick, v := TickRun(r.id, op.revision), RunRec(r);
    BecomesTick(run, c, op, o, r);
    LateDecides(op, Snapshot(op.revision, v), r, o);
    Writes(End(run), Called(run, c, op, o, 3), c, Held(tick, op.revision, v), o, Some(op.revision), RunRec(Runs.Close(r, Runs.ByExpiry)), None, ChaseSaved);
    OneMore(run, c, op, o, 3);
  }

  lemma Becomes(s: State, run: seq<State>, c: nat, call: Call, o: Oracle, op: Op)
    requires IsRun(run) && Quiet(s, End(run), c, call) && call == NewCall(call.op).(pc := call.pc) && call.pc.Loaded?
    requires Decide(End(run), call, o) == Become(op)
    ensures IsRun(Go(run, Advance(c, o))) && Quiet(s, End(Go(run, Advance(c, o))), c, NewCall(op))
  {
    hide IsRun, Decide;
    NonEmpty(run);
    GoIsRun(run, Advance(c, o));
    DecidesSame(End(run), Noted(End(run), call, o), call, o);
  }

  /** A paused goal that holds an execution is resumed, and then sends it. */
  lemma ResumedGoalSends(run: seq<State>, c: nat, d: nat, op: Op, o: Oracle, g: Goals.Goal)
    requires op.ResumeGoal? && Fits(run, c, op, GoalRec(g)) && g.status.Paused? && GM.HasBudget(g, o.now) && SafeTime(o.now)
    requires g.pending.Some? && g.pending.value.phase.Reserved? && g.pending.value.input.taskId !in End(run).server.offers
    requires op.revision + 1 < MAX_SAFE && d !in End(Called(run, c, op, o, 2)).calls
    ensures var k := KeyOfOp(op);
      var u := End(Called(Called(run, c, op, o, 2), d, Send(k, op.revision + 1, false), o, 5));
      u.submits == End(run).submits + [Submission(k, op.revision + 2, g.pending.value.input)]
  {
    hide IsRun, Called, Goals.Resume;
    GM.ResumeGoesOn(g, [], [], o.now);
    GoalCallStores(run, c, op, o, g);
    StoresRun(run, c, op, o, g);
    var resumed := Called(run, c, op, o, 2);
    var b := Goals.Resume(g, o.now).value;
    GM.ResumeIsExact(g, o.now);
    SendSubmits(resumed, d, Send(KeyOfOp(op), op.revision + 1, false), o, GoalRec(b));
  }

  lemma StoresRun(run: seq<State>, c: nat, op: Op, o: Oracle, g: Goals.Goal)
    requires Fits(run, c, op, GoalRec(g)) && NamesRevision(op)
    ensures IsRun(Called(run, c, op, o, 2))
  {
    hide IsRun, KeyOfOp;
    Loads(run, c, op, o, GoalRec(g));
    GoIsRun(Called(run, c, op, o, 1), Advance(c, o));
  }

  // ---------------------------------------------------------------------
  // Reconciling
  // ---------------------------------------------------------------------

  /** What the server shows of a task: a cancellation first, then the device terminal. */
  function Reported(server: Server, t: Text): Sight
  {
    if t !in server.attempts then NothingYet
    else if t in server.cancels then Sees(SeenCancelled)
    else if t !in server.terminals then NothingYet
    else if server.terminals[t].taskId != t then Mismatch
    else if !server.terminals[t].completed then Sees(SeenFailed)
    else if server.terminals[t].isSealed then Mismatch
    else Sees(SeenComplete(server.terminals[t].document))
  }

  /** From the attempt to the second look, on a server that does not move. */
  lemma Looks(s: State, run: seq<State>, c: nat, call: Call, o: Oracle, row: Snapshot, input: Input)
    requires IsRun(run) && Quiet(s, End(run), c, call) && call.pc == Probe(row, input)
    requires KeyOfOp(call.op) in s.table.rows && HasInput(s.table.rows[KeyOfOp(call.op)].value, input)
    requires Shown(s.server, KeyOfOp(call.op).kind, input)
    ensures var longer := Go(Go(run, Advance(c, o)), Advance(c, o));
      && IsRun(longer)
      && exists terminal :: Quiet(s, End(longer), c, call.(pc := SecondLook(row, input, terminal)))
                            && Observe(s.server, input, terminal) == Reported(s.server, input.taskId)
  {
    hide IsRun, KeyOfOp, Matches, ReadOffer, DecideBegin, DecideLoaded, DecideSight, DecideJudged, Fetch, IsAttempt, IsInput;
    NonEmpty(run);
    ShownPasses(run, KeyOfOp(call.op), call.op, input);
    Turns(s, run, c, call, o, AtTerminal(row, input));
    var one := Go(run, Advance(c, o));
    var terminal := if input.taskId in s.server.terminals then Some(s.server.terminals[input.taskId]) else None;
    Turns(s, one, c, call.(pc := AtTerminal(row, input)), o, SecondLook(row, input, terminal));
  }

  /** An execution that was reported settles the goal as reconciliation says, judged by the Host. */
  lemma GoalReconciles(run: seq<State>, c: nat, op: Op, o: Oracle, g: Goals.Goal)
    requires op.ReconcileGoal? && Fits(run, c, op, GoalRec(g)) && g.pending.Some? && Shown(End(run).server, GoalKind, g.pending.value.input)
    requires Reported(End(run).server, g.pending.value.input.taskId).Sees?
    ensures var seen := Reported(End(run).server, g.pending.value.input.taskId).what;
      var b := L.Reconciled(g, seen, o.now, o.ok, o.now);
      var u := End(Called(run, c, op, o, 6));
      if b.Ok? then Stored(End(run), u, c, NewCall(op).(pc := Done(None)), KeyOfOp(op), op.revision + 1, GoalRec(b.value), None)
      else Quiet(End(run), u, c, NewCall(op).(pc := Failed))
  {
    hide IsRun, L.Reconciled, Called, Go, Shown, Reported, DecideSeenGoal, DecideJudged;
    var input, row := g.pending.value.input, Snapshot(op.revision, GoalRec(g));
    var seen := Reported(End(run).server, input.taskId).what;
    Decides(run, c, op, o, GoalRec(g), Probe(row, input));
    var two := Called(run, c, op, o, 2);
    var call := NewCall(op).(pc := Probe(row, input));
    Looks(End(run), two, c, call, o, row, input);
    var four := Go(Go(two, Advance(c, o)), Advance(c, o));
    var terminal :| Quiet(End(run), End(four), c, call.(pc := SecondLook(row, input, terminal)))
      && Observe(End(run).server, input, terminal) == Sees(seen);
    Loads(run, c, op, o, GoalRec(g));
    GoalSettles(End(run), four, c, call.(pc := SecondLook(row, input, terminal)), o, row, g, seen);
    TwoMore(run, c, op, o, 2);
    TwoMore(run, c, op, o, 4);
  }

  lemma TwoMore(run: seq<State>, c: nat, op: Op, o: Oracle, n: nat)
    requires run != []
    ensures Called(run, c, op, o, n + 2) == Go(Go(Called(run, c, op, o, n), Advance(c, o)), Advance(c, o))
  {
    hide Go;
    assert Called(run, c, op, o, n + 2) == Go(Called(run, c, op, o, n + 1), Advance(c, o));
  }

  /** The last two steps, or one and a rest. */
  lemma GoalSettles(s: State, run: seq<State>, c: nat, call: Call, o: Oracle, row: Snapshot, g: Goals.Goal, seen: Observed)
    requires IsRun(run) && Quiet(s, End(run), c, call) && call.pc.SecondLook? && call.pc.row == row && row.value == GoalRec(g) && g.pending.Some?
    requires Observe(s.server, call.pc.input, call.pc.terminal) == Sees(seen)
    requires Current(s.table.rows, KeyOfOp(call.op), Some(row.revision)) && 0 <= row.revision < MAX_SAFE
    ensures var b := L.Reconciled(g, seen, o.now, o.ok, o.now);
      var u := End(Go(Go(run, Advance(c, o)), Advance(c, o)));
      if b.Ok? then Stored(s, u, c, call.(pc := Done(None)), KeyOfOp(call.op), row.revision + 1, GoalRec(b.value), None)
      else Quiet(s, u, c, call.(pc := Failed))
  {
    hide IsRun, KeyOfOp, L.Reconciled, DecideSeenGoal, DecideJudged, Current, DecideBegin, DecideLoaded, Fetch, Matches, ReadOffer, Goals.ReserveBtw;
    NonEmpty(run);
    L.ReconciledInSteps(row, g, call.pc.input, seen, o, o);
    var b := L.Reconciled(g, seen, o.now, o.ok, o.now);
    var eff := DecideSeenGoal(row, g, call.pc.input, seen, o);
    assert Decide(End(run), call, o) == eff;
    var one := Go(run, Advance(c, o));
    if eff.Move? && eff.pc.Judging? {
      Turns(s, run, c, call, o, eff.pc);
      var judging := call.(pc := eff.pc);
      assert Decide(End(one), judging, o) == DecideJudged(eff.pc.row, eff.pc.decision, o);
      JudgesRow(row, g, call.pc.input, seen, o);
      if b.Ok? {
        Writes(s, one, c, judging, o, Some(row.revision), GoalRec(b.value), None, Finish);
      } else {
        Turns(s, one, c, judging, o, Failed);
      }
    } else if b.Ok? {
      Writes(s, run, c, call, o, Some(row.revision), GoalRec(b.value), None, Finish);
      Rests(End(one), one, c, call.(pc := Done(None)), o);
    } else {
      Turns(s, run, c, call, o, Failed);
      Rests(s, one, c, call.(pc := Failed), o);
    }
  }

  lemma JudgesRow(row: Snapshot, g: Goals.Goal, input: Input, seen: Observed, o: Oracle)
    ensures var eff := DecideSeenGoal(row, g, input, seen, o);
      eff.Move? && eff.pc.Judging? ==> eff.pc.row == row
  {
    hide ReadReport, Goals.Settle, Goals.Block;
  }

  lemma SideSettles(s: State, run: seq<State>, c: nat, call: Call, o: Oracle, row: Snapshot, b: Goals.Btw, seen: Observed)
    requires IsRun(run) && Quiet(s, End(run), c, call) && call.pc.SecondLook? && call.pc.row == row && row.value == BtwRec(b)
    requires Observe(s.server, call.pc.input, call.pc.terminal) == Sees(seen)
    requires Current(s.table.rows, KeyOfOp(call.op), Some(row.revision)) && 0 <= row.revision < MAX_SAFE
    ensures Stored(s, End(Go(run, Advance(c, o))), c, call.(pc := Done(None)), KeyOfOp(call.op), row.revision + 1,
                   BtwRec(Goals.SettleBtw(b, seen)), None)
  {
    hide IsRun, KeyOfOp, Current, Goals.SettleBtw, DecideBegin, DecideLoaded, DecideJudged, Fetch, Matches, ReadOffer, Goals.ReserveBtw, Go;
    NonEmpty(run);
    assert Decide(End(run), call, o) == Save(Some(row.revision), BtwRec(Goals.SettleBtw(b, seen)), None, Finish);
    Writes(s, run, c, call, o, Some(row.revision), BtwRec(Goals.SettleBtw(b, seen)), None, Finish);
  }

  /** An execution that was reported answers or blocks its side question. */
  lemma SideReconciles(run: seq<State>, c: nat, op: Op, o: Oracle, b: Goals.Btw)
    requires op.ReconcileBtw? && Fits(run, c, op, BtwRec(b)) && b.status.Asked? && Shown(End(run).server, BtwKind, b.pending.input)
    requires Reported(End(run).server, b.pending.input.taskId).Sees?
    ensures var seen := Reported(End(run).server, b.pending.input.taskId).what;
      Stored(End(run), End(Called(run, c, op, o, 5)), c, NewCall(op).(pc := Done(None)), KeyOfOp(op), op.revision + 1,
             BtwRec(Goals.SettleBtw(b, seen)), None)
  {
    hide IsRun, Goals.SettleBtw, Called, Go, Shown, Reported;
    var input, row := b.pending.input, Snapshot(op.revision, BtwRec(b));
    var seen := Reported(End(run).server, input.taskId).what;
    Decides(run, c, op, o, BtwRec(b), Probe(row, input));
    var call := NewCall(op).(pc := Probe(row, input));
    Looks(End(run), Called(run, c, op, o, 2), c, call, o, row, input);
    TwoMore(run, c, op, o, 2);
    var four := Called(run, c, op, o, 4);
    var terminal :| Quiet(End(run), End(four), c, call.(pc := SecondLook(row, input, terminal)))
      && Observe(End(run).server, input, terminal) == Sees(seen);
    Loads(run, c, op, o, BtwRec(b));
    SideSettles(End(run), four, c, call.(pc := SecondLook(row, input, terminal)), o, row, b, seen);
    OneMore(run, c, op, o, 4);
  }

  lemma OneMore(run: seq<State>, c: nat, op: Op, o: Oracle, n: nat)
    requires run != []
    ensures Called(run, c, op, o, n + 1) == Go(Called(run, c, op, o, n), Advance(c, o))
  {
    hide Go;
  }

  lemma ProbesRun(run: seq<State>, c: nat, op: Op, o: Oracle, r: Runs.Run)
    requires op.ReconcileRun? && Fits(run, c, op, RunRec(r)) && r.pending.Some? && Shown(End(run).server, RunKind, r.pending.value.input)
    requires !Runs.Stopped(r) && SafeTime(o.now) && o.now < r.deadline
    ensures IsRun(Called(run, c, op, o, 3))
    ensures Quiet(End(run), End(Called(run, c, op, o, 3)), c, NewCall(op).(pc := Probe(Snapshot(op.revision, RunRec(r)), r.pending.value.input)))
  {
    hide IsRun, Called, Go, IsAttempt, IsInput, WellFormed, Matches, ReadOffer, DecideBegin, DecideSight, DecideJudged, Fetch;
    var input, row := r.pending.value.input, Snapshot(op.revision, RunRec(r));
    Decides(run, c, op, o, RunRec(r), ProbeOffer(row, input));
    var two := Called(run, c, op, o, 2);
    ShownPasses(run, KeyOfOp(op), op, input);
    Turns(End(run), two, c, NewCall(op).(pc := ProbeOffer(row, input)), o, Probe(row, input));
    OneMore(run, c, op, o, 2);
  }

  lemma RunSettles(s: State, run: seq<State>, c: nat, call: Call, o: Oracle, row: Snapshot, r: Runs.Run, seen: Observed)
    requires IsRun(run) && Quiet(s, End(run), c, call) && call.pc.SecondLook? && call.pc.row == row && row.value == RunRec(r) && r.pending.Some?
    requires Observe(s.server, call.pc.input, call.pc.terminal) == Sees(seen)
    requires Current(s.table.rows, KeyOfOp(call.op), Some(row.revision)) && 0 <= row.revision < MAX_SAFE
    requires var b := Runs.Reconcile(r, seen, o.now, o.freshId);
      b.Ok? && Room(s, KeyOfOp(call.op), RunRec(b.value), None)
    ensures Stored(s, End(Go(run, Advance(c, o))), c, call.(pc := Done(None)), KeyOfOp(call.op), row.revision + 1,
                   RunRec(Runs.Reconcile(r, seen, o.now, o.freshId).value), None)
  {
    hide IsRun, KeyOfOp, Current, Runs.Reconcile, Room, DecideBegin, DecideLoaded, DecideJudged, Fetch, Matches, ReadOffer, Goals.ReserveBtw, Go;
    NonEmpty(run);
    var b := RunRec(Runs.Reconcile(r, seen, o.now, o.freshId).value);
    assert Decide(End(run), call, o) == Save(Some(row.revision), b, None, Finish);
    Writes(s, run, c, call, o, Some(row.revision), b, None, Finish);
  }

  /** An execution that was reported settles the run, or asks its question if the tenant may wait for one more answer. */
  lemma RunReconciles(run: seq<State>, c: nat, op: Op, o: Oracle, r: Runs.Run)
    requires op.ReconcileRun? && Fits(run, c, op, RunRec(r)) && r.pending.Some? && Shown(End(run).server, RunKind, r.pending.value.input)
    requires !Runs.Stopped(r) && SafeTime(o.now) && o.now < r.deadline && Reported(End(run).server, r.pending.value.input.taskId).Sees?
    requires var b := Runs.Reconcile(r, Reported(End(run).server, r.pending.value.input.taskId).what, o.now, o.freshId);
      b.Ok? && Room(End(run), KeyOfOp(op), RunRec(b.value), None)
    ensures var seen := Reported(End(run).server, r.pending.value.input.taskId).what;
      Stored(End(run), End(Called(run, c, op, o, 6)), c, NewCall(op).(pc := Done(None)), KeyOfOp(op), op.revision + 1,
             RunRec(Runs.Reconcile(r, seen, o.now, o.freshId).value), None)
  {
    hide IsRun, Runs.Reconcile, Called, Go, Shown, Reported, Room, Runs.Stopped;
    var input, row := r.pending.value.input, Snapshot(op.revision, RunRec(r));
    var seen := Reported(End(run).server, input.taskId).what;
    ProbesRun(run, c, op, o, r);
    var call := NewCall(op).(pc := Probe(row, input));
    Looks(End(run), Called(run, c, op, o, 3), c, call, o, row, input);
    TwoMore(run, c, op, o, 3);
    var five := Called(run, c, op, o, 5);
    var terminal :| Quiet(End(run), End(five), c, call.(pc := SecondLook(row, input, terminal)))
      && Observe(End(run).server, input, terminal) == Sees(seen);
    Loads(run, c, op, o, RunRec(r));
    RunSettles(End(run), five, c, call.(pc := SecondLook(row, input, terminal)), o, row, r, seen);
    OneMore(run, c, op, o, 5);
  }

  // ---------------------------------------------------------------------
  // Notifying
  // ---------------------------------------------------------------------

  /** A question whose notification was delivered says so; one that could not be delivered stays to be notified. */
  lemma NotifyMarks(run: seq<State>, c: nat, op: Op, o: Oracle, r: Runs.Run)
    requires op.Notify? && Fits(run, c, op, RunRec(r)) && r.status.WaitingInput? && r.tickets != []
    requires SafeTime(o.now) && o.now < Runs.Last(r).expiresAt && Runs.Last(r).notification.ToNotify?
    requires Room(End(run), KeyOfOp(op), RunRec(Runs.MarkDelivered(r)), None)
    ensures var u := End(Called(run, c, op, o, 4));
      if o.ok then Stored(End(run), u, c, NewCall(op).(pc := Done(None)), KeyOfOp(op), op.revision + 1, RunRec(Runs.MarkDelivered(r)), None)
      else Quiet(End(run), u, c, NewCall(op).(pc := Failed))
  {
    hide IsRun, Called, Go, Room, DecideBegin, DecideSight, DecideJudged, Fetch, Matches, ReadOffer, Runs.MarkDelivered;
    var row := Snapshot(op.revision, RunRec(r));
    Loads(run, c, op, o, RunRec(r));
    Decides(run, c, op, o, RunRec(r), Delivering(row));
    var two := Called(run, c, op, o, 2);
    var call := NewCall(op).(pc := Delivering(row));
    var three := Go(two, Advance(c, o));
    if o.ok {
      Turns(End(run), two, c, call, o, Acknowledging(row));
      LatestRow(three, KeyOfOp(op));
      Writes(End(run), three, c, call.(pc := Acknowledging(row)), o, Some(row.revision), RunRec(Runs.MarkDelivered(r)), None, Finish);
    } else {
      Turns(End(run), two, c, call, o, Failed);
      Rests(End(run), three, c, call.(pc := Failed), o);
    }
    TwoMore(run, c, op, o, 2);
  }

  /** A notification that was overtaken by another write of the run returns and writes nothing. */
  lemma OvertakenNotify(s: State, run: seq<State>, c: nat, call: Call, o: Oracle)
    requires IsRun(run) && Quiet(s, End(run), c, call) && call.pc.Acknowledging?
    requires KeyOfOp(call.op) in s.table.rows && s.table.rows[KeyOfOp(call.op)].revision != call.pc.row.revision
    ensures Quiet(s, End(Go(run, Advance(c, o))), c, call.(pc := Done(None)))
  {
    hide IsRun, KeyOfOp, Fetch, DecideBegin, DecideLoaded, DecideSight, DecideJudged, Matches, ReadOffer, Runs.MarkDelivered, Go;
    NonEmpty(run);
    LatestRow(run, KeyOfOp(call.op));
    Turns(s, run, c, call, o, Done(None));
  }

  // ---------------------------------------------------------------------
  // Starting
  // ---------------------------------------------------------------------

  ghost predicate IsNew(run: seq<State>, c: nat, op: Op)
  {
    IsRun(run) && run != [] && c !in End(run).calls && JsonArguments(op) && KeyOfOp(op) !in End(run).table.rows
  }

  lemma GoalStarts(run: seq<State>, c: nat, op: Op, o: Oracle)
    requires op.StartGoal? && IsNew(run, c, op)
    requires Goals.Start(op.gid, op.objective, op.target, op.maxSteps, op.deadline, o.now).Ok?
    ensures Stored(End(run), End(Called(run, c, op, o, 1)), c, NewCall(op).(pc := Done(None)), KeyOfOp(op), 0,
                   GoalRec(Goals.Start(op.gid, op.objective, op.target, op.maxSteps, op.deadline, o.now).value), None)
  {
    hide IsRun, Called, Go, Goals.Start, JsonArguments, DecideLoaded, DecideSight, DecideJudged;
    Invoked(run, c, op, o);
    var g := GoalRec(Goals.Start(op.gid, op.objective, op.target, op.maxSteps, op.deadline, o.now).value);
    Writes(End(run), Called(run, c, op, o, 0), c, NewCall(op), o, None, g, None, Finish);
    OneMore(run, c, op, o, 0);
  }

  lemma RunStarts(run: seq<State>, c: nat, op: Op, o: Oracle)
    requires op.StartRun? && IsNew(run, c, op) && op.taskId !in End(run).table.ids
    requires Runs.Start(op.start, End(run).tenant, op.taskId, o.now).Ok?
    ensures Stored(End(run), End(Called(run, c, op, o, 1)), c, NewCall(op).(pc := Done(None)), KeyOfOp(op), 0,
                   RunRec(Runs.Start(op.start, End(run).tenant, op.taskId, o.now).value), Some(op.taskId))
  {
    hide IsRun, Called, Go, Runs.Start, JsonArguments, DecideLoaded, DecideSight, DecideJudged;
    Invoked(run, c, op, o);
    var r := Runs.Start(op.start, End(run).tenant, op.taskId, o.now).value;
    StartedRuns(op.start, End(run).tenant, op.taskId, o.now);
    Writes(End(run), Called(run, c, op, o, 0), c, NewCall(op), o, None, RunRec(r), Some(op.taskId), Finish);
    OneMore(run, c, op, o, 0);
  }

  lemma StartedRuns(a: Runs.RunArgs, tenant: Text, taskId: Text, now: int)
    ensures Runs.Start(a, tenant, taskId, now).Ok? ==> Runs.Start(a, tenant, taskId, now).value.status.Running?
  {
    hide ValidTarget, Blank, Runs.NextInput;
  }

  /** A side question is reserved beside a main task that is running uncancelled, under the agent of that task. */
  lemma SideStarts(run: seq<State>, c: nat, op: Op, o: Oracle, mainAgent: Text)
    requires op.ReserveBtw? && IsNew(run, c, op) && Goals.ValidBtwArgs(op.args) && op.args.taskId !in End(run).table.ids && o.ok
    requires op.args.mainTaskId in End(run).server.attempts && op.args.mainTaskId !in End(run).server.cancels
    requires var agent := End(run).server.attempts[op.args.mainTaskId].agentRef;
      agent.Some? && Is(Get(agent.value, AGENT_ID), mainAgent)
    requires Goals.ReserveBtw(op.args, mainAgent).Ok?
    ensures Stored(End(run), End(Called(run, c, op, o, 2)), c, NewCall(op).(pc := Done(None)), KeyOfOp(op), 0,
                   BtwRec(Goals.ReserveBtw(op.args, mainAgent).value), Some(op.args.taskId))
  {
    hide IsRun, Called, Go, Goals.ReserveBtw, Goals.ValidBtwArgs, JsonArguments, DecideLoaded, DecideSight, DecideJudged;
    Invoked(run, c, op, o);
    var zero := Called(run, c, op, o, 0);
    Turns(End(run), zero, c, NewCall(op), o, MainSeen(mainAgent));
    var one := Go(zero, Advance(c, o));
    Writes(End(run), one, c, NewCall(op).(pc := MainSeen(mainAgent)), o, None, BtwRec(Goals.ReserveBtw(op.args, mainAgent).value), Some(op.args.taskId), Finish);
    TwoMore(run, c, op, o, 0);
  }

  // ---------------------------------------------------------------------
  // Answering
  // ---------------------------------------------------------------------

  /** The answer comes from the tenant, and its binding names this run. */
  ghost predicate Answers(run: seq<State>, c: nat, op: Op, r: Runs.Run)
  {
    && op.AnswerRun? && IsRun(run) && run != [] && c !in End(run).calls && WellFormed(op.binding)
    && op.principal.tenantId == End(run).tenant && Get(op.binding, Runs.TENANT_ID) == Some(Str(op.principal.tenantId))
    && KeyOfOp(op) in End(run).table.rows && End(run).table.rows[KeyOfOp(op)].value == RunRec(r)
    && End(run).table.rows[KeyOfOp(op)].revision < MAX_SAFE
  }

  lemma AnswerLoads(run: seq<State>, c: nat, op: Op, o: Oracle, r: Runs.Run)
    requires Answers(run, c, op, r)
    ensures IsRun(Called(run, c, op, o, 1)) && End(run).table.rows[KeyOfOp(op)].revision >= 0
    ensures Quiet(End(run), End(Called(run, c, op, o, 1)), c, Held(op, End(run).table.rows[KeyOfOp(op)].revision, RunRec(r)))
  {
    hide IsRun, Called, Go, KeyOfOp, WellFormed, DecideLoaded, DecideSight, DecideJudged, Fetch, Matches, ReadOffer;
    Invoked(run, c, op, o);
    var zero := Called(run, c, op, o, 0);
    LatestRow(zero, KeyOfOp(op));
    Turns(End(run), zero, c, NewCall(op), o, Loaded(Snapshot(End(run).table.rows[KeyOfOp(op)].revision, RunRec(r))));
    OneMore(run, c, op, o, 0);
  }

  /** An answer of the tenant to a run that accepts it is stored with its receipt, and the receipt is returned. */
  lemma AnswerStores(run: seq<State>, c: nat, op: Op, o: Oracle, r: Runs.Run)
    requires Answers(run, c, op, r)
    requires Runs.Answer(r, op.principal, op.binding, op.answer, o.now).Accepted? && op.answer.taskId !in End(run).table.ids
    ensures var k, out := KeyOfOp(op), Runs.Answer(r, op.principal, op.binding, op.answer, o.now);
      Stored(End(run), End(Called(run, c, op, o, 2)), c, NewCall(op).(pc := Done(Some(out.receipt))), k, End(run).table.rows[k].revision + 1,
             RunRec(out.run), Some(op.answer.taskId))
  {
    hide IsRun, Called, Go, Runs.Answer, KeyOfOp, WellFormed, DecideBegin, DecideSight, DecideJudged, Fetch, Matches, ReadOffer, Runs.Last;
    var k, out := KeyOfOp(op), Runs.Answer(r, op.principal, op.binding, op.answer, o.now);
    var revision := End(run).table.rows[k].revision;
    AnswerLoads(run, c, op, o, r);
    AnsweredRuns(r, op.principal, op.binding, op.answer, o.now);
    Writes(End(run), Called(run, c, op, o, 1), c, Held(op, revision, RunRec(r)), o, Some(revision), RunRec(out.run), Some(op.answer.taskId),
           Reply(out.receipt));
    OneMore(run, c, op, o, 1);
  }

  lemma AnsweredRuns(r: Runs.Run, p: Runs.Principal, binding: Value, a: Runs.AnswerArgs, now: int)
    requires Runs.Answer(r, p, binding, a, now).Accepted?
    ensures Runs.Answer(r, p, binding, a, now).run.status.ContinuationReserved?
  {
    hide Runs.Answer, Runs.NextInput, Runs.Digest;
    RunMeanings.AnswerContinues(r, p, binding, a, now);
  }

  /** A known answer is answered again with its receipt, and a refused one fails; neither writes anything. */
  lemma AnswerReturns(run: seq<State>, c: nat, op: Op, o: Oracle, r: Runs.Run)
    requires Answers(run, c, op, r) && !Runs.Answer(r, op.principal, op.binding, op.answer, o.now).Accepted?
    ensures var out := Runs.Answer(r, op.principal, op.binding, op.answer, o.now);
      Quiet(End(run), End(Called(run, c, op, o, 2)), c, NewCall(op).(pc := if out.Replayed? then Done(Some(out.receipt)) else Failed))
  {
    hide IsRun, Called, Go, Runs.Answer, KeyOfOp, WellFormed, DecideBegin, DecideSight, DecideJudged, Fetch, Matches, ReadOffer, Runs.Last;
    var out := Runs.Answer(r, op.principal, op.binding, op.answer, o.now);
    var revision := End(run).table.rows[KeyOfOp(op)].revision;
    AnswerLoads(run, c, op, o, r);
    Turns(End(run), Called(run, c, op, o, 1), c, Held(op, revision, RunRec(r)), o, if out.Replayed? then Done(Some(out.receipt)) else Failed);
    OneMore(run, c, op, o, 1);
  }

  // ---------------------------------------------------------------------
  // Calls that change nothing
  // ---------------------------------------------------------------------

  /** A cancellation or a new context that the record does not take fails. */
  lemma StopRefused(run: seq<State>, c: nat, op: Op, o: Oracle, v: Record)
    requires (op.CancelGoal? || op.CancelBtw? || op.CancelRun? || op.ChangeContext?) && Fits(run, c, op, v) && Stops(op, v, o.now).None?
    ensures Quiet(End(run), End(Called(run, c, op, o, 2)), c, NewCall(op).(pc := Failed))
  {
    hide IsRun, Called, Go, Runs.Cancel, Runs.ChangeContext, Goals.Cancel;
    Loads(run, c, op, o, v);
    Decides(run, c, op, o, v, Failed);
  }

  /** A live record that may not be sent now, and one that holds nothing to send, fail. */
  lemma SendRefused(run: seq<State>, c: nat, op: Op, o: Oracle, v: Record)
    requires op.Send? && Fits(run, c, op, v) && !IsStopped(v)
    requires match v
      case GoalRec(g) => g.pending.None? || !g.status.Active? || !SafeTime(o.now)
      case BtwRec(_) => false
      case RunRec(r) => !SafeTime(o.now) || (r.pending.None? && o.now < r.deadline)
    ensures Quiet(End(run), End(Called(run, c, op, o, 2)), c, NewCall(op).(pc := Failed))
  {
    hide IsRun, Called, Go;
    Decides(run, c, op, o, v, Failed);
  }

  /** There is nothing to reconcile, or nothing to notify. */
  ghost predicate Idle(op: Op, v: Record, now: int)
  {
    match v
    case GoalRec(g) => op.ReconcileGoal? && g.pending.None?
    case BtwRec(b) => op.ReconcileBtw? && !b.status.Asked?
    case RunRec(r) =>
      || (op.ReconcileRun? && !Runs.Stopped(r) && SafeTime(now) && now < r.deadline && r.pending.None?)
      || (op.Notify? && !r.status.WaitingInput?)
      || (op.Notify? && r.tickets != [] && SafeTime(now) && now < Runs.Last(r).expiresAt && !Runs.Last(r).notification.ToNotify?)
  }

  lemma IdleReturns(run: seq<State>, c: nat, op: Op, o: Oracle, v: Record)
    requires Fits(run, c, op, v) && Idle(op, v, o.now)
    ensures Quiet(End(run), End(Called(run, c, op, o, 2)), c, NewCall(op).(pc := Done(None)))
  {
    hide IsRun, Called, Go, Runs.Last;
    Decides(run, c, op, o, v, Done(None));
  }

  /** The execution of a stopped record is chased again by whichever call finds it. */
  lemma StoppedIsChased(run: seq<State>, c: nat, op: Op, o: Oracle, v: Record, input: Input)
    requires Fits(run, c, op, v) && IsStopped(v) && HasInput(v, input) && Shown(End(run).server, KeyOfOp(op).kind, input) && o.ok
    requires op.Send? || op.ReconcileRun? || op.TickRun?
    ensures var u := End(Called(run, c, op, o, 5));
      && u.table == End(run).table && u.submits == End(run).submits && input.taskId in Settled(u.server)
      && c in u.calls && u.calls[c].pc == Done(None)
  {
    hide IsRun, Called, Go, Shown, Settled, Runs.Last;
    Loads(run, c, op, o, v);
    Decides(run, c, op, o, v, Flush(input));
    var two := Called(run, c, op, o, 2);
    Chases(two, c, NewCall(op).(pc := Flush(input)), o, input);
    ChasesQuietly(two, c, NewCall(op).(pc := Flush(input)), o, input);
    ThreeMore(run, c, op, o, 2);
  }

  lemma ChasesQuietly(run: seq<State>, c: nat, call: Call, o: Oracle, input: Input)
    requires IsRun(run) && Stands(End(run), c, call) && call.pc == Flush(input)
    ensures End(Go(Go(Go(run, Advance(c, o)), Advance(c, o)), Advance(c, o))).submits == End(run).submits
  {
    hide IsRun, Go;
    NonEmpty(run);
    var one := Go(run, Advance(c, o));
    var two := Go(one, Advance(c, o));
    GoIsRun(run, Advance(c, o));
    GoIsRun(one, Advance(c, o));
    FlushesQuietly(run, c, o);
    FlushesQuietly(one, c, o);
    FlushesQuietly(two, c, o);
  }

  lemma FlushDecides(s: State, call: Call, o: Oracle)
    requires FlushInput(call.pc).Some?
    ensures var eff := Decide(s, call, o);
      eff.Miss? || eff.RequestCancel? || (eff.Move? && (FlushInput(eff.pc).Some? || eff.pc.Failed?))
  {
    hide DecideBegin, DecideLoaded, DecideSight, DecideJudged, Fetch, Matches, ReadOffer, Goals.ReserveBtw;
  }

  /** No step on the way to a cancellation submits anything. */
  lemma FlushesQuietly(run: seq<State>, c: nat, o: Oracle)
    requires run != [] && c in End(run).calls
    requires FlushInput(End(run).calls[c].pc).Some? || End(run).calls[c].pc.Done? || End(run).calls[c].pc.Failed?
    ensures var u := End(Go(run, Advance(c, o)));
      && u.submits == End(run).submits && c in u.calls
      && (FlushInput(u.calls[c].pc).Some? || u.calls[c].pc.Done? || u.calls[c].pc.Failed?)
  {
    hide Decide, Noted, IsRun, SaveStep;
    var s := End(run);
    if FlushInput(s.calls[c].pc).Some? { FlushDecides(Noted(s, s.calls[c], o), s.calls[c], o); }
  }

  /** Before the attempt shows, and before anything is reported of it, a reconciliation returns; on a report it cannot read it fails. */
  lemma ReconcileWaits(s: State, run: seq<State>, c: nat, call: Call, o: Oracle, row: Snapshot, input: Input)
    requires IsRun(run) && Quiet(s, End(run), c, call) && call.pc == Probe(row, input)
    requires KeyOfOp(call.op) in s.table.rows && HasInput(s.table.rows[KeyOfOp(call.op)].value, input)
    ensures input.taskId !in s.server.attempts ==> Quiet(s, End(Go(run, Advance(c, o))), c, call.(pc := Done(None)))
    ensures Shown(s.server, KeyOfOp(call.op).kind, input) && !Reported(s.server, input.taskId).Sees? ==>
      Quiet(s, End(Go(Go(Go(run, Advance(c, o)), Advance(c, o)), Advance(c, o))), c,
            call.(pc := if Reported(s.server, input.taskId).NothingYet? then Done(None) else Failed))
  {
    hide IsRun, Go, KeyOfOp, Matches, ReadOffer, DecideBegin, DecideLoaded, DecideJudged, DecideSeen, Fetch, Reported, IsAttempt, IsInput, WellFormed;
    NonEmpty(run);
    if input.taskId !in s.server.attempts {
      Turns(s, run, c, call, o, Done(None));
    } else if Shown(s.server, KeyOfOp(call.op).kind, input) && !Reported(s.server, input.taskId).Sees? {
      Looks(s, run, c, call, o, row, input);
      var two := Go(Go(run, Advance(c, o)), Advance(c, o));
      var terminal :| Quiet(s, End(two), c, call.(pc := SecondLook(row, input, terminal)))
        && Observe(s.server, input, terminal) == Reported(s.server, input.taskId);
      Turns(s, two, c, call.(pc := SecondLook(row, input, terminal)), o,
            if Reported(s.server, input.taskId).NothingYet? then Done(None) else Failed);
    }
  }

  /** A call that names another revision than the current one, or a record that is not there, fails. */
  lemma StaleCallFails(run: seq<State>, c: nat, op: Op, o: Oracle)
    requires IsRun(run) && run != [] && c !in End(run).calls && NamesRevision(op)
    requires KeyOfOp(op) !in End(run).table.rows || End(run).table.rows[KeyOfOp(op)].revision != op.revision
    ensures Quiet(End(run), End(Called(run, c, op, o, 1)), c, NewCall(op).(pc := Failed))
  {
    hide IsRun, Called, Go, KeyOfOp, DecideLoaded, DecideSight, DecideJudged, Fetch, Goals.Start, Runs.Start, Goals.ValidBtwArgs, Matches, ReadOffer;
    Invoked(run, c, op, o);
    var zero := Called(run, c, op, o, 0);
    if KeyOfOp(op) in End(run).table.rows {
      LatestRow(zero, KeyOfOp(op));
    } else {
      NothingFetched(End(zero), KeyOfOp(op));
    }
    Turns(End(run), zero, c, NewCall(op), o, Failed);
    OneMore(run, c, op, o, 0);
  }

  lemma NothingFetched(s: State, k: Key)
    requires k !in s.table.rows
    ensures Fetch(s, k).None?
  {
  }

  /** A write that the store refuses fails the call and changes nothing. */
  lemma Refuses(s: State, run: seq<State>, c: nat, call: Call, o: Oracle, expected: Option<int>, v: Record, newId: Option<Text>, next: Next)
    requires IsRun(run) && Quiet(s, End(run), c, call) && !call.pc.Done? && !call.pc.Failed?
    requires Decide(End(run), call, o) == Save(expected, v, newId, next)
    requires !Current(s.table.rows, KeyOfOp(call.op), expected) || !Room(s, KeyOfOp(call.op), v, newId)
    ensures Quiet(s, End(Go(run, Advance(c, o))), c, call.(pc := Failed))
  {
    hide IsRun, Decide, KeyOfOp, IsWaiting, AfterSave, Book, WaitingOthers, Current;
    NonEmpty(run);
    DecidesSame(End(run), Noted(End(run), call, o), call, o);
    CommitSavesExactly(s.table, Some(s.cap), KeyOfOp(call.op), expected, v, IsWaiting(v), newId);
  }

  /** Nothing is started twice, and no task id is reserved twice. */
  lemma RestartFails(run: seq<State>, c: nat, op: Op, o: Oracle)
    requires (op.StartGoal? || op.StartRun?) && IsRun(run) && run != [] && c !in End(run).calls && JsonArguments(op)
    requires KeyOfOp(op) in End(run).table.rows || (op.StartRun? && op.taskId in End(run).table.ids)
    ensures Quiet(End(run), End(Called(run, c, op, o, 1)), c, NewCall(op).(pc := Failed))
  {
    hide IsRun, Called, Go, Goals.Start, Runs.Start, JsonArguments, DecideLoaded, DecideSight, DecideJudged;
    Invoked(run, c, op, o);
    var zero := Called(run, c, op, o, 0);
    var eff := Decide(End(zero), NewCall(op), o);
    if eff.Move? {
      Turns(End(run), zero, c, NewCall(op), o, Failed);
    } else {
      Refuses(End(run), zero, c, NewCall(op), o, None, eff.value, eff.newId, eff.next);
    }
    OneMore(run, c, op, o, 0);
  }

  /** A task id that was ever reserved reserves no step again. */
  lemma ReusedIdFails(run: seq<State>, c: nat, op: Op, o: Oracle, g: Goals.Goal)
    requires op.ReserveStep? && Fits(run, c, op, GoalRec(g)) && op.taskId in End(run).table.ids
    ensures Quiet(End(run), End(Called(run, c, op, o, 2)), c, NewCall(op).(pc := Failed))
  {
    hide IsRun, Called, Go, Goals.ReserveStep;
    Loads(run, c, op, o, GoalRec(g));
    var one := Called(run, c, op, o, 1);
    var call := Held(op, op.revision, GoalRec(g));
    var made := Goals.ReserveStep(g, op.taskId, op.context, o.now);
    if made.Err? {
      Turns(End(run), one, c, call, o, Failed);
    } else {
      Refuses(End(run), one, c, call, o, Some(op.revision), GoalRec(made.value), Some(op.taskId), Finish);
    }
    OneMore(run, c, op, o, 1);
  }

  /** The call reads the clock before it does anything. */
  ghost predicate ReadsClock(op: Op, v: Record)
  {
    match v
    case GoalRec(g) => op.TickGoal? && !g.status.Complete? && !Goals.Stopped(g)
    case BtwRec(_) => false
    case RunRec(r) => ((op.TickRun? || op.ReconcileRun?) && !Runs.Stopped(r)) || (op.Notify? && r.status.WaitingInput? && r.tickets != [])
  }

  /** On a broken clock it fails. */
  lemma BrokenClockFails(run: seq<State>, c: nat, op: Op, o: Oracle, v: Record)
    requires Fits(run, c, op, v) && ReadsClock(op, v) && !SafeTime(o.now)
    ensures Quiet(End(run), End(Called(run, c, op, o, 2)), c, NewCall(op).(pc := Failed))
  {
    hide IsRun, Called, Go, Runs.Last;
    Decides(run, c, op, o, v, Failed);
  }
}
