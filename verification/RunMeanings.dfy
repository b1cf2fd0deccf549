/**
What the clarification operations are for: exactly when each is accepted, what
a reserved execution carries, and that a question can be answered by its own
binding.
*/
module RunMeanings {
  import opened Json
  import opened Documents
  import opened Executions
  import opened GoalMeanings
  import opened Runs
  import CD = ClarificationDocuments

  // ---------------------------------------------------------------------
  // The execution a run reserves
  // ---------------------------------------------------------------------

  lemma WithoutLimit(target: Value, max: nat)
    requires ValidTarget(target, Some(max))
    ensures ValidTarget(target, None)
  {
  }

  lemma RunInstructionIsText(r: Run, answer: Option<(CD.Question, Text)>)
    ensures !Blank(Instruction(r, answer))
  {
    hide Quote;
    var t := Instruction(r, answer);
    assert t[0] == U("Objective:\n")[0] == 79;
    assert !Space(t[0]);
  }

  /** Start and answer build the execution from the run's own target, whatever its member order. */
  lemma NextInputCarries(r: Run, taskId: Text, answer: Option<(CD.Question, Text)>)
    requires WellFormed(r.target) && ValidTarget(r.target, None) && !Blank(taskId)
    ensures Conveys(NextInput(r, taskId, answer), r.target, Instruction(r, answer), CD.CLARIFICATION_CONTRACT)
    ensures RebuiltTarget(NextInput(r, taskId, answer)) == Reordered(r.target)
  {
    hide ValidTarget, Blank, WellFormed, Conveys, Instruction, Projection;
    RunInstructionIsText(r, answer);
    BuiltCarries(taskId, r.target, Instruction(r, answer), CD.CLARIFICATION_CONTRACT, CLARIFICATION_SCHEMA);
    RebuiltIsReordered(taskId, r.target, Instruction(r, answer), Projection(CD.CLARIFICATION_CONTRACT, CLARIFICATION_SCHEMA));
  }

  /** The instruction names the objective, the context revision and the context, and then question and answer. */
  lemma InstructionSays(r: Run, answer: Option<(CD.Question, Text)>)
    ensures var t := Instruction(r, answer);
      var o, v, c := |r.objective|, |r.contextRevision|, |r.context|;
      && Contains(t, 11, r.objective) && Contains(t, 35 + o, r.contextRevision) && Contains(t, 38 + o + v, r.context)
      && (answer.None? ==> |t| == 38 + o + v + c)
      && (answer.Some? ==>
            var q := Quote(answer.value.0.question);
            Contains(t, 71 + o + v + c, q) && Contains(t, 71 + o + v + c + |q|, Quote(answer.value.1)))
  {
    hide Quote;
    assert |U("Objective:\n")| == 11 && |U("\nHost-selected context (")| == 24 && |U("):\n")| == 3;
    assert |U("\nValidated clarification answer:\n")| == 33;
  }

  // ---------------------------------------------------------------------
  // Starting
  // ---------------------------------------------------------------------

  /** Which runs start, and that the run is as asked, with its first execution reserved. */
  lemma StartIsExact(a: RunArgs, tenantId: Text, taskId: Text, now: int)
    ensures Start(a, tenantId, taskId, now).Ok? <==>
      && Named(a.id, 4096) && Named(a.sessionId, 4096) && Named(a.respondentId, 4096) && Named(a.destination, 4096)
      && Named(a.contextRevision, 4096) && Named(a.objective, 4096) && Named(a.context, 16384) && Named(taskId, 200)
      && ValidTarget(a.target, Some(200)) && 1 <= a.maxExecutions <= 16 && 1 <= a.questionTtlMs <= MAX_SAFE
      && 0 <= now < a.deadline <= MAX_SAFE
    ensures Start(a, tenantId, taskId, now).Ok? ==>
      var r := Start(a, tenantId, taskId, now).value;
      && r.id == a.id && r.tenantId == tenantId && r.sessionId == a.sessionId && r.respondentId == a.respondentId
      && r.destination == a.destination && r.target == a.target && r.contextRevision == a.contextRevision && r.context == a.context
      && r.objective == a.objective && r.maxExecutions == a.maxExecutions && r.deadline == a.deadline && r.questionTtlMs == a.questionTtlMs
      && r.status.Running? && r.generation == 1 && r.tickets == [] && r.pending == Some(Pending(NextInput(r, taskId, None), Reserved))
  {
    hide ValidTarget, Space, BuildInput, Projection;
  }

  // ---------------------------------------------------------------------
  // Questions
  // ---------------------------------------------------------------------

  /** A new question is bound to its run and to the execution that asked it, open and not yet notified. */
  lemma AskBinds(r: Run, q: CD.Question, now: int, questionId: Text)
    requires r.pending.Some?
    ensures var t := Last(Ask(r, q, now, questionId));
      var input := r.pending.value.input;
      && t.binding.tenantId == r.tenantId && t.binding.runId == r.id && t.binding.sessionId == r.sessionId
      && t.binding.destination == r.destination && t.binding.generation == r.generation && t.binding.contextRevision == r.contextRevision
      && t.binding.sourceTaskId == input.taskId && t.binding.deviceId == input.deviceId
      && t.binding.questionId == questionId && t.binding.questionRevision == 1
      && (forall agent, profile ::
            Is(GetIn(Get(input.payload, AGENT_REF), AGENT_ID), agent) && Is(GetIn(Get(input.payload, AGENT_REF), PROFILE_REVISION), profile)
            ==> t.binding.agentId == agent && t.binding.profileRevision == profile)
      && t.result == q && t.state.Open? && t.notification.ToNotify? && t.receipt.None?
      && t.expiresAt <= r.deadline && t.expiresAt <= now + r.questionTtlMs
      && (t.expiresAt == r.deadline || t.expiresAt == now + r.questionTtlMs)
  {
  }

  lemma BindingSays(b: Binding)
    ensures Get(BindingJson(b), TENANT_ID) == Some(Str(b.tenantId)) && Get(BindingJson(b), RUN_ID) == Some(Str(b.runId))
    ensures Get(BindingJson(b), GENERATION) == Some(Num(b.generation))
    ensures Get(BindingJson(b), CONTEXT_REVISION) == Some(Str(b.contextRevision))
  {
    hide BindingJson;
    BindingMembers(b);
    BindingWellFormed(b);
    var ms := BindingJson(b).members;
    LookupFinds(ms, 0);
    LookupFinds(ms, 1);
    LookupFinds(ms, 4);
    LookupFinds(ms, 5);
  }

  lemma BindingMembers(b: Binding)
    ensures BindingJson(b).Obj? && |BindingJson(b).members| == 12
    ensures var ms := BindingJson(b).members;
      && ms[0] == Member(TENANT_ID, Str(b.tenantId)) && ms[1] == Member(RUN_ID, Str(b.runId))
      && ms[4] == Member(GENERATION, Num(b.generation)) && ms[5] == Member(CONTEXT_REVISION, Str(b.contextRevision))
  {
  }

  /** The open question of a run is answered by its own binding: the respondent's valid answer in time is accepted. */
  lemma QuestionIsAnswerable(r: Run, p: Principal, a: AnswerArgs, now: int)
    requires RunOk(r) && r.status.WaitingInput? && FindReceipt(r.tickets, a.answerId).None?
    requires p.userId == r.respondentId && SafeTime(now) && now < Last(r).expiresAt
    requires Named(a.answerId, 200) && Named(a.value, 4096) && Named(a.taskId, 200)
    requires Named(a.nextContextRevision, 200) && a.nextContextRevision != r.contextRevision && Chosen(Last(r).result, a.value)
    ensures Answer(r, p, BindingJson(Last(r).binding), a, now).Accepted?
  {
    hide Named, BindingJson, WellFormed, SameJson, Answer, RunOk;
    RunShape(r);
    var b := Last(r).binding;
    BindingWellFormed(b);
    BindingSays(b);
    SameJsonReflexive(BindingJson(b));
    AnswerIsExact(r, p, BindingJson(b), a, now);
  }

  /**
  An accepted answer closes its question with the receipt, moves the run to the
  next generation and the new context, and reserves the continuation from the
  run's own target with question and answer in its instruction.
  */
  lemma AnswerContinues(r: Run, p: Principal, binding: Value, a: AnswerArgs, now: int)
    requires Answer(r, p, binding, a, now).Accepted?
    ensures var out := Answer(r, p, binding, a, now);
      && r.tickets != [] && out.run.tickets != []
      && out.receipt == Receipt(a.answerId, Digest(binding, a.value), binding, a.taskId)
      && Last(out.run) == Last(r).(state := Answered, notification := Withdrawn, receipt := Some(out.receipt))
      && out.run.tickets[..|out.run.tickets| - 1] == r.tickets[..|r.tickets| - 1]
      && out.run.pending == Some(Pending(NextInput(r.(contextRevision := a.nextContextRevision), a.taskId, Some((Last(r).result, a.value))), Reserved))
      && out.run == r.(tickets := out.run.tickets, pending := out.run.pending, generation := r.generation + 1,
                       contextRevision := a.nextContextRevision, status := ContinuationReserved)
  {
    hide BuildInput, Instruction, Projection, Digest, TextOk, Answerable, Chosen, FindReceipt;
    AnswerAccepts(r, p, binding, a, now);
  }

  /** A delivered notification is marked on the last question and nowhere else. */
  lemma DeliveredMarks(r: Run)
    requires r.tickets != []
    ensures var b := MarkDelivered(r);
      && b.tickets != [] && Last(b) == Last(r).(notification := Delivered)
      && b.tickets[..|b.tickets| - 1] == r.tickets[..|r.tickets| - 1] && b == r.(tickets := b.tickets)
  {
  }

  // ---------------------------------------------------------------------
  // Reconciliation
  // ---------------------------------------------------------------------

  /** An execution that did not complete, or completed without a document, blocks the run and says why. */
  lemma ReconcileWithout(r: Run, seen: Observed, now: int, questionId: Text)
    requires r.pending.Some? && (seen.SeenComplete? ==> seen.document.None?)
    ensures Reconcile(r, seen, now, questionId) ==
      Ok(r.(status := Status.Blocked, pending := None,
            reason := if seen.SeenCancelled? then ExecutionCancelled else if seen.SeenFailed? then ExecutionFailedOrDeclined else InvalidResult))
  {
    hide CD.Utf8Bytes;
  }

  /** What the document says, exactly, is what the run records. */
  lemma ReconcileRecords(r: Run, d: Value, result: CD.StepResult, now: int, questionId: Text)
    requires r.pending.Some? && WellFormed(d) && Tells(d, result) && Reconcile(r, SeenComplete(Some(d)), now, questionId).Ok?
    ensures var b := Reconcile(r, SeenComplete(Some(d)), now, questionId).value;
      match result
      case Done => b == r.(status := Status.Complete, pending := None)
      case Stuck(reason) => b == r.(status := Status.Blocked, pending := None, reason := Told(reason))
      case NeedsInput(q) =>
        if r.generation >= r.maxExecutions then b == r.(status := Status.Blocked, pending := None, reason := BudgetExhausted)
        else b == Ask(r, q, now, questionId)
  {
    hide CD.ParseClarification, CD.Asks, CD.Utf8Bytes, Canonical, Ask;
    CD.ParseClarificationIsExact(d, result);
  }

  // ---------------------------------------------------------------------
  // Stopping
  // ---------------------------------------------------------------------

  /** A close stops the run for the reason given, keeps its execution, and closes its open question with it. */
  lemma CloseMeans(r: Run, why: Closing)
    requires RunOk(r)
    ensures var b := Close(r, why);
      && b.status == (match why case ByCancel => Cancelled case ByExpiry => Expired case ByContext => Obsolete)
      && b.reason == HostStopped(why) && b == r.(status := b.status, reason := b.reason, tickets := b.tickets)
      && |b.tickets| == |r.tickets|
      && (forall i :: 0 <= i < |r.tickets| ==>
            b.tickets[i] == if r.tickets[i].state.Open? then r.tickets[i].(state := Closed(why), notification := Withdrawn) else r.tickets[i])
  {
  }

  /** Only a complete run cannot be cancelled. */
  lemma CancelIsExact(r: Run)
    ensures Cancel(r).Ok? <==> !r.status.Complete?
    ensures Cancel(r).Ok? ==> Cancel(r).value == Close(r, ByCancel)
  {
  }

  /** The context of a live run changes to a new revision, which makes the run obsolete. */
  lemma ChangeContextIsExact(r: Run, next: Text)
    ensures ChangeContext(r, next).Ok? <==> Named(next, 200) && next != r.contextRevision && !Stopped(r)
    ensures ChangeContext(r, next).Ok? ==>
      ChangeContext(r, next).value.contextRevision == next && ChangeContext(r, next).value.status.Obsolete?
      && ChangeContext(r, next).value == Close(r.(contextRevision := next), ByContext)
  {
    hide Space;
  }

  /** The five statuses in which a run is stopped. */
  lemma StoppedIsExact(r: Run)
    ensures Stopped(r) <==> !r.status.Running? && !r.status.WaitingInput? && !r.status.ContinuationReserved?
  {
  }
}
