/**
A loaded record in the form the Hosts handle it: an object whose fields an
operation changes one after another before it is written back. Each method is
tied to the function of the value that the rest of the model uses; when an
operation is refused the draft is thrown away, so nothing is said about it.
*/
module LoadedRecords {
  import opened Json
  import opened Documents
  import opened Executions
  import Goals
  import Runs
  import CD = ClarificationDocuments
  import P = Protocol

  /** What reconciliation makes of a goal, with the Host's judgement of a parsed decision. */
  function Reconciled(g: Goals.Goal, seen: Observed, now: int, accepts: bool, later: int): Result<Goals.Goal>
    requires g.pending.Some?
  {
    var settled := Goals.Settle(g);
    if Goals.Stopped(g) then Ok(settled)
    else
      match seen
      case SeenCancelled => Ok(Goals.Block(settled, Goals.ExecutionCancelled))
      case SeenFailed => Ok(Goals.Block(settled, Goals.ExecutionFailedOrDeclined))
      case SeenComplete(document) =>
        var d := if SafeTime(now) then ParseDecision(document, now) else Err;
        if d.Err? then Ok(Goals.Block(settled, Goals.InvalidResult))
        else if !accepts then Ok(Goals.Block(settled, Goals.ResultNotAccepted))
        else Goals.Conclude(settled, d.value, later)
  }

  class LoadedGoal {
    const id: Text
    const objective: Text
    const target: Value
    const maxSteps: int
    const deadline: int
    var status: Goals.GoalStatus
    var steps: int
    var pending: Option<Pending>
    var resumeAt: Option<int>
    var lastTaskId: Option<Text>
    var reason: Goals.Reason

    function Value(): Goals.Goal
      reads this
    {
      Goals.Goal(id, objective, target, status, maxSteps, deadline, steps, pending, resumeAt, lastTaskId, reason)
    }

    constructor (g: Goals.Goal)
      ensures Value() == g
    {
      id, objective, target, maxSteps, deadline := g.id, g.objective, g.target, g.maxSteps, g.deadline;
      status, steps, pending := g.status, g.steps, g.pending;
      resumeAt, lastTaskId, reason := g.resumeAt, g.lastTaskId, g.reason;
    }

    method ReserveStep(taskId: Text, context: Text, now: int) returns (ok: bool)
      modifies this
      ensures ok <==> Goals.ReserveStep(old(Value()), taskId, context, now).Ok?
      ensures ok ==> Goals.ReserveStep(old(Value()), taskId, context, now) == Ok(Value())
    {
      if Blank(taskId) || !SafeTime(now) || pending.Some? { return false; }
      if status.Waiting? && resumeAt.Some? && now >= resumeAt.value { status := Goals.Active; }
      if !status.Active? { return false; }
      if steps >= maxSteps || now >= deadline { return false; }
      var instruction := Goals.GoalInstruction(objective, context);
      pending := Some(Pending(BuildInput(taskId, target, instruction, Projection(GOAL_CONTRACT, Goals.GOAL_SCHEMA)), Reserved));
      steps := steps + 1;
      resumeAt := None;
      reason := Goals.NoReason;
      ok := true;
    }

    method Resume(now: int) returns (ok: bool)
      modifies this
      ensures ok <==> Goals.Resume(old(Value()), now).Ok?
      ensures ok ==> Goals.Resume(old(Value()), now) == Ok(Value())
    {
      if !status.Paused? && !status.Waiting? && !status.Blocked? { return false; }
      if steps >= maxSteps {
        status := Goals.Exhausted;
      } else {
        if !SafeTime(now) { return false; }
        status := if now >= deadline then Goals.Exhausted else Goals.Active;
      }
      reason := Goals.NoReason;
      resumeAt := None;
      ok := true;
    }

    /** The pending execution is cleared first; what it means is decided after. */
    method Reconcile(seen: Observed, now: int, accepts: bool, later: int) returns (ok: bool)
      requires pending.Some?
      modifies this
      ensures ok <==> Reconciled(old(Value()), seen, now, accepts, later).Ok?
      ensures ok ==> Reconciled(old(Value()), seen, now, accepts, later) == Ok(Value())
    {
      lastTaskId := Some(pending.value.input.taskId);
      pending := None;
      if status.Cancelled? || status.Exhausted? { return true; }
      if !seen.SeenComplete? {
        status := Goals.GoalStatus.Blocked;
        reason := if seen.SeenCancelled? then Goals.ExecutionCancelled else Goals.ExecutionFailedOrDeclined;
        return true;
      }
      var d := if SafeTime(now) then ParseDecision(seen.document, now) else Err;
      if d.Err? || !accepts {
        status := Goals.GoalStatus.Blocked;
        reason := if d.Err? then Goals.InvalidResult else Goals.ResultNotAccepted;
        return true;
      }
      ok := Judge(d.value, later);
    }

    method Judge(decision: Decision, now: int) returns (ok: bool)
      modifies this
      ensures ok <==> Goals.Conclude(old(Value()), decision, now).Ok?
      ensures ok ==> Goals.Conclude(old(Value()), decision, now) == Ok(Value())
    {
      if decision.Complete? {
        status := Goals.GoalStatus.Complete;
      } else if decision.Blocked? {
        status := Goals.GoalStatus.Blocked;
        reason := Goals.Told(decision.reason);
      } else if !status.Paused? {
        if steps < maxSteps && !SafeTime(now) { return false; }
        if steps >= maxSteps || now >= deadline {
          status := Goals.Exhausted;
          reason := Goals.BudgetExhausted;
        } else if decision.Wait? {
          status := Goals.Waiting;
          reason := Goals.Told(decision.reason);
          resumeAt := decision.resumeAt;
        } else {
          status := Goals.Active;
        }
      }
      ok := true;
    }
  }

  class LoadedRun {
    const start: Runs.Run
    var status: Runs.Status
    var generation: int
    var contextRevision: Text
    var pending: Option<Pending>
    var tickets: seq<Runs.Ticket>
    var reason: Runs.Reason

    function Value(): Runs.Run
      reads this
    {
      start.(status := status, generation := generation, contextRevision := contextRevision, pending := pending,
             tickets := tickets, reason := reason)
    }

    constructor (r: Runs.Run)
      ensures Value() == r
    {
      start := r;
      status, generation, contextRevision := r.status, r.generation, r.contextRevision;
      pending, tickets, reason := r.pending, r.tickets, r.reason;
    }

    /** The last question, if still open, closes with the run. */
    method Close(why: Runs.Closing)
      modifies this
      ensures Value() == Runs.Close(old(Value()), why)
    {
      status := Runs.StatusFor(why);
      reason := Runs.HostStopped(why);
      if tickets != [] {
        var ticket := tickets[|tickets| - 1];
        if ticket.state.Open? {
          tickets := tickets[|tickets| - 1 := ticket.(state := Runs.Closed(why), notification := Runs.Withdrawn)];
        }
      }
    }

    method Reconcile(seen: Observed, now: int, questionId: Text) returns (ok: bool)
      requires pending.Some?
      modifies this
      ensures ok <==> Runs.Reconcile(old(Value()), seen, now, questionId).Ok?
      ensures ok ==> Runs.Reconcile(old(Value()), seen, now, questionId) == Ok(Value())
    {
      if !seen.SeenComplete? {
        status := Runs.Status.Blocked;
        reason := if seen.SeenCancelled? then Runs.ExecutionCancelled else Runs.ExecutionFailedOrDeclined;
      } else {
        var result := CD.ParseClarification(seen.document);
        if result.Err? {
          status, reason := Runs.Status.Blocked, Runs.InvalidResult;
        } else if result.value.Done? {
          status := Runs.Status.Complete;
        } else if result.value.Stuck? {
          status, reason := Runs.Status.Blocked, Runs.Told(result.value.reason);
        } else if generation >= start.maxExecutions {
          status, reason := Runs.Status.Blocked, Runs.BudgetExhausted;
        } else {
          if !SafeTime(now) { return false; }
          tickets := tickets + [Runs.NewTicket(Value(), pending.value.input, result.value.q, now, questionId)];
          status := Runs.WaitingInput;
        }
      }
      pending := None;
      ok := true;
    }

    /** A known answer id replays its receipt; otherwise the answer closes the question and reserves the continuation. */
    method Answer(p: Runs.Principal, binding: Value, a: Runs.AnswerArgs, now: int) returns (r: Option<Runs.Receipt>, writes: bool)
      modifies this
      ensures match Runs.Answer(old(Value()), p, binding, a, now)
        case Refused => r.None?
        case Replayed(receipt) => r == Some(receipt) && !writes && Value() == old(Value())
        case Accepted(run, receipt) => r == Some(receipt) && writes && Value() == run
    {
      hide Runs.Digest, Runs.NextInput, Runs.Chosen, Runs.TextOk, Canonical, Runs.BindingJson;
      if p.userId != start.respondentId || !Runs.TextOk(a.answerId, 200) || !Runs.TextOk(a.value, 4096) { return None, false; }
      var digest := Runs.Digest(binding, a.value);
      var known := Runs.FindReceipt(tickets, a.answerId);
      if known.Some? {
        return if known.value.digest == digest then known else None, false;
      }
      if !Runs.Answerable(Value(), binding, now) { return None, false; }
      var ticket := tickets[|tickets| - 1];
      if !Runs.Chosen(ticket.result, a.value) || !Runs.TextOk(a.nextContextRevision, 200) { return None, false; }
      if a.nextContextRevision == contextRevision || !Runs.TextOk(a.taskId, 200) { return None, false; }
      var receipt := Runs.Receipt(a.answerId, digest, binding, a.taskId);
      var input := Runs.NextInput(Value().(contextRevision := a.nextContextRevision), a.taskId, Some((ticket.result, a.value)));
      tickets := tickets[|tickets| - 1 := ticket.(state := Runs.Answered, notification := Runs.Withdrawn, receipt := Some(receipt))];
      contextRevision := a.nextContextRevision;
      generation := generation + 1;
      status := Runs.ContinuationReserved;
      pending := Some(Pending(input, Reserved));
      return Some(receipt), true;
    }
  }

  /**
  The interleaved form does in two steps, around the Host's judgement, what
  reconciliation does in one: whatever it saves is the reconciled goal.
  */
  lemma ReconciledInSteps(row: P.Snapshot, g: Goals.Goal, input: Input, seen: Observed, o: P.Oracle, judged: P.Oracle)
    requires row.value == P.GoalRec(g) && g.pending.Some?
    ensures var eff := P.DecideSeenGoal(row, g, input, seen, o);
      var goal := Reconciled(g, seen, o.now, judged.ok, judged.now);
      if eff.Move? then eff.pc.Judging? && P.DecideJudged(row, eff.pc.decision, judged) == P.SaveGoal(row, goal, None, P.Finish)
      else eff == P.SaveGoal(row, goal, None, P.Finish)
  {
    hide ParseDecision, Goals.Conclude;
  }

  ghost predicate SaysWait(d: Value, now: int)
  {
    exists x: Decision :: x.Wait? && Says(d, x, now)
  }

  lemma ParsedSays(d: Value, now: int)
    requires WellFormed(d)
    ensures var p := ParseDecision(Some(d), now);
      && (p == Ok(Decision.Complete) <==> Says(d, Decision.Complete, now))
      && (p == Ok(Decision.Continue) <==> Says(d, Decision.Continue, now))
      && (p.Ok? && p.value.Wait? <==> SaysWait(d, now))
  {
    hide ParseDecision, Says;
    var p := ParseDecision(Some(d), now);
    ParseDecisionIsExact(d, Decision.Complete, now);
    ParseDecisionIsExact(d, Decision.Continue, now);
    if p.Ok? { ParseDecisionIsExact(d, p.value, now); }
    if SaysWait(d, now) {
      var x: Decision :| x.Wait? && Says(d, x, now);
      ParseDecisionIsExact(d, x, now);
    }
  }

  /** Only the execution, the status, the reason and the time to resume change; a stopped goal only settles. */
  lemma ReconciledFrame(g: Goals.Goal, seen: Observed, now: int, accepts: bool, later: int)
    requires g.pending.Some? && Reconciled(g, seen, now, accepts, later).Ok?
    ensures var b := Reconciled(g, seen, now, accepts, later).value;
      && b.pending.None? && b.lastTaskId == Some(g.pending.value.input.taskId)
      && b.(status := g.status, reason := g.reason, resumeAt := g.resumeAt, pending := g.pending, lastTaskId := g.lastTaskId) == g
      && (Goals.Stopped(g) ==> b.status == g.status && b.reason == g.reason && b.resumeAt == g.resumeAt)
  {
    hide ParseDecision;
    var settled := Goals.Settle(g);
    if seen.SeenComplete? && SafeTime(now) && ParseDecision(seen.document, now).Ok? {
      var d := ParseDecision(seen.document, now).value;
      if Goals.Conclude(settled, d, later).Ok? { Goals.ConcludeFrame(settled, d, later); }
    }
  }

  /** An execution that did not complete, or completed without a document, blocks the goal and says why. */
  lemma ReconciledWithout(g: Goals.Goal, seen: Observed, now: int, accepts: bool, later: int)
    requires g.pending.Some? && !Goals.Stopped(g) && (seen.SeenComplete? ==> seen.document.None? || !SafeTime(now))
    ensures var b := Reconciled(g, seen, now, accepts, later);
      && b.Ok? && b.value.status.Blocked? && b.value.resumeAt == g.resumeAt
      && b.value.reason == if seen.SeenCancelled? then Goals.ExecutionCancelled
                           else if seen.SeenFailed? then Goals.ExecutionFailedOrDeclined else Goals.InvalidResult
  {
  }

  /**
  What a completed execution makes of a goal that is not stopped, in terms of
  what its document says: pausing keeps a goal paused unless the document ends
  or blocks it, and a spent budget ends what would go on. It fails only where it
  would go on and the clock is broken.
  */
  lemma ReconciledMeans(g: Goals.Goal, d: Value, now: int, accepts: bool, later: int)
    requires g.pending.Some? && !Goals.Stopped(g) && WellFormed(d) && SafeTime(now)
    ensures var r := Reconciled(g, SeenComplete(Some(d)), now, accepts, later);
      var goesOn := accepts && (Says(d, Decision.Continue, now) || SaysWait(d, now));
      var spent := g.steps >= g.maxSteps || later >= g.deadline;
      && (r.Err? <==> goesOn && !g.status.Paused? && g.steps < g.maxSteps && !SafeTime(later))
      && (r.Ok? ==>
            var b := r.value;
            && (b.status.Complete? <==> accepts && Says(d, Decision.Complete, now))
            && (b.status.Paused? <==> goesOn && g.status.Paused?)
            && (b.status.Exhausted? <==> goesOn && !g.status.Paused? && spent)
            && (b.status.Waiting? <==> goesOn && !g.status.Paused? && !spent && SaysWait(d, now))
            && (b.status.Active? <==> goesOn && !g.status.Paused? && !spent && !SaysWait(d, now))
            && (b.status.Blocked? <==> !goesOn && !b.status.Complete?))
  {
    hide ParseDecision, Says, SaysWait;
    ParsedSays(d, now);
  }

  /** The reason and the time to resume are the document's own; a block without one says what was wrong. */
  lemma ReconciledReasons(g: Goals.Goal, d: Value, x: Decision, now: int, accepts: bool, later: int)
    requires g.pending.Some? && !Goals.Stopped(g) && WellFormed(d) && SafeTime(now)
    requires Reconciled(g, SeenComplete(Some(d)), now, accepts, later).Ok?
    ensures var b := Reconciled(g, SeenComplete(Some(d)), now, accepts, later).value;
      && (Says(d, x, now) && !accepts ==> b.reason == Goals.ResultNotAccepted && b.resumeAt == g.resumeAt)
      && (Says(d, x, now) && accepts && x.Blocked? ==> b.reason == Goals.Told(x.reason) && b.resumeAt == g.resumeAt)
      && (Says(d, x, now) && accepts && b.status.Waiting? ==> x.Wait? && b.reason == Goals.Told(x.reason) && b.resumeAt == x.resumeAt)
      && (b.status.Exhausted? ==> b.reason == Goals.BudgetExhausted && b.resumeAt == g.resumeAt)
      && (b.status.Complete? || b.status.Active? || b.status.Paused? ==> b.reason == g.reason && b.resumeAt == g.resumeAt)
  {
    hide ParseDecision, Says;
    ParseDecisionIsExact(d, x, now);
  }

  /** A document that says nothing blocks the goal as invalid. */
  lemma ReconciledInvalid(g: Goals.Goal, d: Value, now: int, accepts: bool, later: int)
    requires g.pending.Some? && !Goals.Stopped(g) && WellFormed(d) && SafeTime(now) && (forall x :: !Says(d, x, now))
    ensures Reconciled(g, SeenComplete(Some(d)), now, accepts, later) == Ok(Goals.Block(Goals.Settle(g), Goals.InvalidResult))
  {
    hide ParseDecision, Says;
    if ParseDecision(Some(d), now).Ok? { ParseDecisionIsExact(d, ParseDecision(Some(d), now).value, now); }
  }
}
