/**
Goal and side-question records: what each `GoalBtwHost` operation makes of the
record it loaded, between two awaits, and the strict validation every reload
runs.
*/
module Goals {
  import opened Json
  import opened Documents
  import opened Executions

  datatype GoalStatus = Active | Paused | Waiting | Blocked | Complete | Cancelled | Exhausted

  datatype Reason =
    | NoReason
    | DeadlineReached
    | ExecutionCancelled
    | ExecutionFailedOrDeclined
    | InvalidResult
    | ResultNotAccepted
    | BudgetExhausted
    | SideFailedOrCancelled
    | Told(text: Text)

  datatype Goal = Goal(
    id: Text, objective: Text, target: Value, status: GoalStatus, maxSteps: int, deadline: int, steps: int,
    pending: Option<Pending>, resumeAt: Option<int>, lastTaskId: Option<Text>, reason: Reason)

  datatype BtwStatus = Asked | Answered | SideBlocked | SideCancelled

  datatype Btw = Btw(
    id: Text, mainTaskId: Text, mainAgentId: Text, mainDestination: Text, destination: Text, snapshotRevision: Text,
    status: BtwStatus, pending: Pending, answer: Option<Text>, reason: Reason)

  // The result schemas are opaque: they are carried unchanged.
  const GOAL_SCHEMA: Value := Str(U("goal-result-schema"))
  const BTW_SCHEMA: Value := Str(U("btw-result-schema"))

  predicate Stopped(g: Goal)
  {
    g.status.Cancelled? || g.status.Exhausted?
  }

  // ---------------------------------------------------------------------
  // Goal operations
  // ---------------------------------------------------------------------

  function Start(id: Text, objective: Text, target: Value, maxSteps: int, deadline: int, now: int): Result<Goal>
  {
    if Blank(id) || Blank(objective) || !ValidTarget(target, None) || !SafeTime(deadline) then Err
    else if !(1 <= maxSteps <= MAX_SAFE) || !SafeTime(now) || deadline <= now then Err
    else Ok(Goal(id, objective, target, Active, maxSteps, deadline, 0, None, None, None, NoReason))
  }

  function GoalInstruction(objective: Text, context: Text): Text
  {
    U("Objective:\n") + objective + U("\n\nHost-selected context:\n") + context
  }

  function ReserveStep(g: Goal, taskId: Text, context: Text, now: int): Result<Goal>
  {
    if Blank(taskId) || !SafeTime(now) || g.pending.Some? then Err
    else
      var due := g.status.Waiting? && g.resumeAt.Some? && now >= g.resumeAt.value;
      if !due && !g.status.Active? then Err
      else if g.steps >= g.maxSteps || now >= g.deadline then Err
      else
        var input := BuildInput(taskId, g.target, GoalInstruction(g.objective, context), Projection(GOAL_CONTRACT, GOAL_SCHEMA));
        Ok(g.(status := Active, pending := Some(Pending(input, Reserved)), steps := g.steps + 1, resumeAt := None, reason := NoReason))
  }

  function MarkSending(g: Goal): Goal
    requires g.pending.Some?
  {
    g.(pending := Some(g.pending.value.(phase := Sending)))
  }

  function Expire(g: Goal): Goal
  {
    g.(status := Exhausted, reason := DeadlineReached)
  }

  function Pause(g: Goal): Result<Goal>
  {
    if g.status.Active? || g.status.Waiting? then Ok(g.(status := Paused)) else Err
  }

  function Resume(g: Goal, now: int): Result<Goal>
  {
    if !(g.status.Paused? || g.status.Waiting? || g.status.Blocked?) then Err
    else if g.steps < g.maxSteps && !SafeTime(now) then Err
    else
      var spent := g.steps >= g.maxSteps || now >= g.deadline;
      Ok(g.(status := if spent then Exhausted else Active, reason := NoReason, resumeAt := None))
  }

  function Cancel(g: Goal): Result<Goal>
  {
    if g.status.Complete? || g.status.Exhausted? then Err else Ok(g.(status := Cancelled))
  }

  /** The settled execution leaves the record; what it means comes next. */
  function Settle(g: Goal): Goal
    requires g.pending.Some?
  {
    g.(lastTaskId := Some(g.pending.value.input.taskId), pending := None)
  }

  function Block(g: Goal, reason: Reason): Goal
  {
    g.(status := GoalStatus.Blocked, reason := reason)
  }

  /** After the Host accepted the verdict. The clock is read only where the budget decides. */
  function Conclude(g: Goal, decision: Decision, now: int): Result<Goal>
  {
    match decision
    case Complete => Ok(g.(status := GoalStatus.Complete))
    case Blocked(reason) => Ok(Block(g, Told(reason)))
    case _ =>
      if g.status.Paused? then Ok(g)
      else if g.steps < g.maxSteps && !SafeTime(now) then Err
      else if g.steps >= g.maxSteps || now >= g.deadline then Ok(g.(status := Exhausted, reason := BudgetExhausted))
      else if decision.Wait? then Ok(g.(status := Waiting, reason := Told(decision.reason), resumeAt := decision.resumeAt))
      else Ok(g.(status := Active))
  }

  // ---------------------------------------------------------------------
  // Side questions
  // ---------------------------------------------------------------------

  datatype BtwArgs = BtwArgs(
    id: Text, taskId: Text, mainTaskId: Text, mainDestination: Text, destination: Text,
    snapshotRevision: Text, snapshot: Text, question: Text, target: Value)

  predicate ValidBtwArgs(a: BtwArgs)
  {
    && !Blank(a.id) && !Blank(a.taskId) && !Blank(a.mainTaskId) && !Blank(a.mainDestination) && !Blank(a.destination)
    && !Blank(a.snapshotRevision) && !Blank(a.question) && ValidTarget(a.target, None)
  }

  function AgentIdOf(target: Value): Text
  {
    TextAt(GetIn(Get(target, AGENT_REF), AGENT_ID))
  }

  function BtwInstruction(a: BtwArgs): Text
  {
    U("Host-selected main-thread snapshot (") + a.snapshotRevision + U("):\n") + a.snapshot + U("\n\nSide question:\n") + a.question
  }

  function ReserveBtw(a: BtwArgs, mainAgentId: Text): Result<Btw>
  {
    if AgentIdOf(a.target) == mainAgentId || a.destination == a.mainDestination || a.taskId == a.mainTaskId then Err
    else
      var input := BuildInput(a.taskId, a.target, BtwInstruction(a), Projection(BTW_CONTRACT, BTW_SCHEMA));
      Ok(Btw(a.id, a.mainTaskId, mainAgentId, a.mainDestination, a.destination, a.snapshotRevision,
             Asked, Pending(input, Reserved), None, NoReason))
  }

  function SettleBtw(b: Btw, seen: Observed): Btw
  {
    match seen
    case SeenComplete(document) =>
      var answer := ParseAnswer(document);
      if answer.Ok? then b.(status := Answered, answer := Some(answer.value)) else b.(status := SideBlocked, reason := InvalidResult)
    case _ => b.(status := SideBlocked, reason := SideFailedOrCancelled)
  }

  // ---------------------------------------------------------------------
  // Reload validation
  // ---------------------------------------------------------------------

  predicate ValidPending(p: Pending, contract: Text)
  {
    && !Blank(p.input.taskId)
    && NonBlank(Get(p.input.payload, INSTRUCTION))
    && Is(GetIn(Get(p.input.payload, SESSION), MODE), U("fresh"))
    && ValidTarget(RebuiltTarget(p.input), None)
    && Is(GetIn(Get(p.input.payload, PROJECTION), MODE), U("result-document"))
    && Is(GetIn(Get(p.input.payload, PROJECTION), CONTRACT), contract)
  }

  predicate ReadableGoal(g: Goal)
  {
    && ValidTarget(g.target, None) && SafeTime(g.deadline)
    && 1 <= g.maxSteps <= MAX_SAFE && 0 <= g.steps <= g.maxSteps
    && (g.pending.Some? ==>
          && ValidPending(g.pending.value, GOAL_CONTRACT)
          && Canonical(RebuiltTarget(g.pending.value.input)) == Canonical(g.target))
  }

  predicate ReadableBtw(b: Btw)
  {
    && ValidPending(b.pending, BTW_CONTRACT)
    && AgentIdOf(RebuiltTarget(b.pending.input)) != b.mainAgentId
    && b.destination != b.mainDestination && b.pending.input.taskId != b.mainTaskId
  }

  // ---------------------------------------------------------------------
  // What every write keeps
  // ---------------------------------------------------------------------

  /** Which statuses may hold an execution, and the step budget. */
  ghost predicate GoalOk(g: Goal)
  {
    && 0 <= g.steps <= g.maxSteps
    && (g.status.Waiting? || g.status.Blocked? || g.status.Complete? ==> g.pending.None?)
  }

  /** The pending execution may stay, be marked as sending, leave once settled, or be reserved anew within the budget. */
  ghost predicate PendingEvolves(settled: set<Text>, a: Goal, b: Goal)
  {
    match (a.pending, b.pending)
    case (None, None) => b.steps == a.steps
    case (Some(p), Some(q)) => b.steps == a.steps && q.input == p.input && (q == p || (p.phase.Reserved? && q.phase.Sending? && !Stopped(b)))
    case (Some(p), None) => b.steps == a.steps && p.input.taskId in settled && b.lastTaskId == Some(p.input.taskId)
    case (None, Some(q)) => b.steps == a.steps + 1 && q.phase.Reserved? && b.status.Active? && (a.status.Active? || a.status.Waiting?)
  }

  /** A completion the device reported, whose verdict `complete` the Host accepted. */
  ghost predicate Earned(e: Evidence, t: Text)
  {
    t in e.completed && (t, Decision.Complete) in e.accepted
  }

  ghost predicate GoalEvolves(e: Evidence, a: Goal, b: Goal)
  {
    && b.id == a.id && b.objective == a.objective && b.target == a.target && b.maxSteps == a.maxSteps && b.deadline == a.deadline
    && !a.status.Complete?
    && (a.status.Cancelled? ==> b.status.Cancelled?)
    && (a.status.Exhausted? ==> b.status.Exhausted?)
    && PendingEvolves(e.settled, a, b)
    && (b.status.Complete? ==> a.pending.Some? && Earned(e, a.pending.value.input.taskId))
  }

  lemma EvolvesWithMore(e: Evidence, f: Evidence, a: Goal, b: Goal)
    requires GoalEvolves(e, a, b) && Supports(e, f)
    ensures GoalEvolves(f, a, b)
  {
  }

  // ---------------------------------------------------------------------
  // Each operation keeps it
  // ---------------------------------------------------------------------

  /** A freshly built input passes every reload check, whatever the member order of the target. */
  lemma BuiltIsReadable(taskId: Text, target: Value, instruction: Text, contract: Text, schema: Value, phase: Phase)
    requires WellFormed(target) && ValidTarget(target, None) && !Blank(taskId) && !Blank(instruction)
    ensures var input := BuildInput(taskId, target, instruction, Projection(contract, schema));
      && ValidPending(Pending(input, phase), contract)
      && RebuiltTarget(input) == Reordered(target)
      && Canonical(RebuiltTarget(input)) == Canonical(target)
  {
    HostFieldLookup(target, instruction, Projection(contract, schema));
    ProjectionLookup(contract, schema);
    RebuiltIsReordered(taskId, target, instruction, Projection(contract, schema));
    ReorderedIsValid(target);
    ReorderedWellFormed(target);
    ReorderedIsTarget(target);
    CanonicalDecidesEquality(Reordered(target), target);
    FreshSession();
  }

  lemma FreshSession()
    ensures Get(Obj([Member(MODE, Str(U("fresh")))]), MODE) == Some(Str(U("fresh")))
  {
  }

  lemma InstructionIsText(objective: Text, context: Text)
    ensures !Blank(GoalInstruction(objective, context))
  {
    var t := GoalInstruction(objective, context);
    assert t[0] == U("Objective:\n")[0] == 79;
    assert !Space(t[0]);
  }

  lemma BtwInstructionIsText(a: BtwArgs)
    ensures !Blank(BtwInstruction(a))
  {
    var t := BtwInstruction(a);
    assert t[0] == U("Host-selected main-thread snapshot (")[0] == 72;
    assert !Space(t[0]);
  }

  lemma StartKeeps(id: Text, objective: Text, target: Value, maxSteps: int, deadline: int, now: int)
    requires Start(id, objective, target, maxSteps, deadline, now).Ok?
    ensures GoalOk(Start(id, objective, target, maxSteps, deadline, now).value)
  {
  }

  lemma ReserveKeeps(e: Evidence, g: Goal, taskId: Text, context: Text, now: int)
    requires GoalOk(g) && ReserveStep(g, taskId, context, now).Ok?
    ensures GoalOk(ReserveStep(g, taskId, context, now).value)
    ensures GoalEvolves(e, g, ReserveStep(g, taskId, context, now).value)
  {
  }

  lemma MarkSendingKeeps(e: Evidence, g: Goal)
    requires GoalOk(g) && g.status.Active? && g.pending.Some? && g.pending.value.phase.Reserved?
    ensures GoalOk(MarkSending(g)) && GoalEvolves(e, g, MarkSending(g))
  {
  }

  lemma ExpireKeeps(e: Evidence, g: Goal)
    requires GoalOk(g) && !g.status.Complete? && !g.status.Cancelled?
    ensures GoalOk(Expire(g)) && GoalEvolves(e, g, Expire(g))
  {
  }

  lemma PauseKeeps(e: Evidence, g: Goal)
    requires GoalOk(g) && Pause(g).Ok?
    ensures GoalOk(Pause(g).value) && GoalEvolves(e, g, Pause(g).value)
  {
  }

  lemma ResumeKeeps(e: Evidence, g: Goal, now: int)
    requires GoalOk(g) && Resume(g, now).Ok?
    ensures GoalOk(Resume(g, now).value) && GoalEvolves(e, g, Resume(g, now).value)
  {
  }

  lemma CancelKeeps(e: Evidence, g: Goal)
    requires GoalOk(g) && Cancel(g).Ok?
    ensures GoalOk(Cancel(g).value) && GoalEvolves(e, g, Cancel(g).value)
  {
  }

  lemma SettleKeeps(e: Evidence, g: Goal, reason: Reason)
    requires GoalOk(g) && g.pending.Some? && g.pending.value.input.taskId in e.settled
    ensures Stopped(g) ==> GoalOk(Settle(g)) && GoalEvolves(e, g, Settle(g))
    ensures !Stopped(g) ==> GoalOk(Block(Settle(g), reason)) && GoalEvolves(e, g, Block(Settle(g), reason))
  {
  }

  lemma ConcludeKeeps(e: Evidence, g: Goal, decision: Decision, now: int)
    requires GoalOk(g) && !Stopped(g) && g.pending.Some? && g.pending.value.input.taskId in e.settled
    requires decision.Complete? ==> Earned(e, g.pending.value.input.taskId)
    requires Conclude(Settle(g), decision, now).Ok?
    ensures GoalOk(Conclude(Settle(g), decision, now).value)
    ensures GoalEvolves(e, g, Conclude(Settle(g), decision, now).value)
  {
  }

  lemma ConcludeFrame(g: Goal, decision: Decision, now: int)
    requires Conclude(g, decision, now).Ok?
    ensures var b := Conclude(g, decision, now).value;
      b.(status := g.status, reason := g.reason, resumeAt := g.resumeAt) == g
  {
  }

  /**
  Resuming a goal on its last step, or past its deadline, is the one stop that
  keeps an execution pending without a cancellation following: exactly when the
  paused goal still holds one and its budget is spent.
  */
  lemma ResumeStopsUnchased(g: Goal, now: int)
    requires g.status.Waiting? || g.status.Blocked? ==> g.pending.None?
    requires Resume(g, now).Ok?
    ensures Stopped(Resume(g, now).value) && Resume(g, now).value.pending.Some? <==>
      g.status.Paused? && g.pending.Some? && (g.steps >= g.maxSteps || now >= g.deadline)
  {
  }

  // Side questions

  ghost predicate Reported(e: Evidence, t: Text, answer: Text)
  {
    t in e.completed && ParseAnswer(e.completed[t]) == Ok(answer)
  }

  /** A side question keeps its binding and its reserved input for ever. */
  ghost predicate BtwEvolves(e: Evidence, a: Btw, b: Btw)
  {
    && b.(status := a.status, pending := a.pending, answer := a.answer, reason := a.reason) == a
    && b.pending.input == a.pending.input
    && (b.pending.phase == a.pending.phase || (b.pending.phase.Sending? && !a.status.SideCancelled?))
    && (a.status.SideCancelled? ==> b.status.SideCancelled?)
    && (a.status.Answered? ==> b.status.Answered? && b.answer == a.answer)
    && (a.status.SideBlocked? ==> b.status.SideBlocked? || b.status.SideCancelled?)
    && (b.status.Answered? && !a.status.Answered? ==> b.answer.Some? && Reported(e, a.pending.input.taskId, b.answer.value))
  }

  lemma BtwSendingKeeps(e: Evidence, b: Btw)
    requires !b.status.SideCancelled?
    ensures BtwEvolves(e, b, b.(pending := b.pending.(phase := Sending)))
  {
  }

  lemma BtwCancelKeeps(e: Evidence, b: Btw)
    requires !b.status.Answered?
    ensures BtwEvolves(e, b, b.(status := SideCancelled))
  {
  }

  lemma BtwSettleKeeps(e: Evidence, b: Btw, seen: Observed)
    requires b.status.Asked?
    requires seen.SeenComplete? ==> b.pending.input.taskId in e.completed && e.completed[b.pending.input.taskId] == seen.document
    ensures BtwEvolves(e, b, SettleBtw(b, seen))
  {
  }

  // ---------------------------------------------------------------------
  // Every write can be read back
  // ---------------------------------------------------------------------

  ghost predicate GoodGoal(g: Goal)
  {
    WellFormed(g.target) && ReadableGoal(g)
  }

  lemma StartIsReadable(id: Text, objective: Text, target: Value, maxSteps: int, deadline: int, now: int)
    requires WellFormed(target) && Start(id, objective, target, maxSteps, deadline, now).Ok?
    ensures GoodGoal(Start(id, objective, target, maxSteps, deadline, now).value)
  {
  }

  /** Validation does not look at the status, nor at the phase of the reserved input. */
  lemma ReadableCarriesOver(a: Goal, b: Goal)
    requires GoodGoal(a)
    requires b.target == a.target && b.deadline == a.deadline && b.maxSteps == a.maxSteps && b.steps == a.steps
    requires b.pending.None? || (a.pending.Some? && b.pending.value.input == a.pending.value.input)
    ensures GoodGoal(b)
  {
    if b.pending.Some? {
      assert ValidPending(a.pending.value, GOAL_CONTRACT);
      assert ValidPending(b.pending.value, GOAL_CONTRACT);
    }
  }

  lemma ReserveIsReadable(g: Goal, taskId: Text, context: Text, now: int)
    requires GoodGoal(g) && ReserveStep(g, taskId, context, now).Ok?
    ensures GoodGoal(ReserveStep(g, taskId, context, now).value)
  {
    InstructionIsText(g.objective, context);
    BuiltIsReadable(taskId, g.target, GoalInstruction(g.objective, context), GOAL_CONTRACT, GOAL_SCHEMA, Reserved);
  }

  lemma ReserveBtwIsReadable(a: BtwArgs, mainAgentId: Text)
    requires WellFormed(a.target) && ValidBtwArgs(a) && ReserveBtw(a, mainAgentId).Ok?
    ensures ReadableBtw(ReserveBtw(a, mainAgentId).value)
  {
    BtwInstructionIsText(a);
    BuiltIsReadable(a.taskId, a.target, BtwInstruction(a), BTW_CONTRACT, BTW_SCHEMA, Reserved);
    ReorderedLookup(a.target, AGENT_REF);
  }

  lemma ReadableBtwCarriesOver(e: Evidence, a: Btw, b: Btw)
    requires ReadableBtw(a) && BtwEvolves(e, a, b)
    ensures ReadableBtw(b)
  {
    assert ValidPending(a.pending, BTW_CONTRACT);
  }
}
