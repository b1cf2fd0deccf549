/**
Clarification runs: what each `ClarificationHost` operation makes of the run it
loaded, between two awaits. A run alternates executions and questions; an
answer closes a ticket, leaves a receipt and reserves the next execution.
*/
module Runs {
  import opened Json
  import opened Documents
  import opened Executions
  import CD = ClarificationDocuments

  datatype Status = Running | WaitingInput | ContinuationReserved | Complete | Blocked | Cancelled | Expired | Obsolete

  datatype Binding = Binding(
    tenantId: Text, runId: Text, sessionId: Text, sourceTaskId: Text, generation: int, contextRevision: Text,
    questionId: Text, questionRevision: int, deviceId: Text, agentId: Text, profileRevision: Text, destination: Text)

  datatype Receipt = Receipt(answerId: Text, digest: Text, binding: Value, continuationTaskId: Text)

  datatype TicketState = Open | Answered | Closed(why: Closing)
  datatype Closing = ByCancel | ByExpiry | ByContext
  datatype Notification = ToNotify | Delivered | Withdrawn

  datatype Ticket = Ticket(
    binding: Binding, result: CD.Question, expiresAt: int, state: TicketState, notification: Notification, receipt: Option<Receipt>)

  datatype Reason =
    | NoReason
    | ExecutionCancelled
    | ExecutionFailedOrDeclined
    | InvalidResult
    | BudgetExhausted
    | HostStopped(why: Closing)
    | Told(text: Text)

  datatype Run = Run(
    id: Text, tenantId: Text, sessionId: Text, respondentId: Text, destination: Text, target: Value,
    contextRevision: Text, context: Text, objective: Text, status: Status, generation: int, maxExecutions: int,
    deadline: int, questionTtlMs: int, pending: Option<Pending>, tickets: seq<Ticket>, reason: Reason)

  const CLARIFICATION_SCHEMA: Value := Str(U("clarification-result-schema"))

  predicate Stopped(r: Run)
  {
    r.status.Cancelled? || r.status.Expired? || r.status.Obsolete? || r.status.Blocked? || r.status.Complete?
  }

  predicate TextOk(t: Text, max: nat)
  {
    !Blank(t) && |t| <= max
  }

  function Last(r: Run): Ticket
    requires r.tickets != []
  {
    r.tickets[|r.tickets| - 1]
  }

  function WithLast(r: Run, t: Ticket): Run
    requires r.tickets != []
  {
    r.(tickets := r.tickets[|r.tickets| - 1 := t])
  }

  // ---------------------------------------------------------------------
  // Operations
  // ---------------------------------------------------------------------

  datatype RunArgs = RunArgs(
    id: Text, sessionId: Text, respondentId: Text, destination: Text, target: Value, contextRevision: Text,
    context: Text, objective: Text, maxExecutions: int, deadline: int, questionTtlMs: int)

  /** The answer, when the execution continues one, is frozen into the instruction. */
  function Instruction(r: Run, answer: Option<(CD.Question, Text)>): Text
  {
    U("Objective:\n") + r.objective + U("\nHost-selected context (") + r.contextRevision + U("):\n") + r.context
    + (if answer.Some? then U("\nValidated clarification answer:\n") + Quote(answer.value.0.question) + Quote(answer.value.1) else [])
  }

  function NextInput(r: Run, taskId: Text, answer: Option<(CD.Question, Text)>): (input: Input)
    ensures input.taskId == taskId
  {
    BuildInput(taskId, r.target, Instruction(r, answer), Projection(CD.CLARIFICATION_CONTRACT, CLARIFICATION_SCHEMA))
  }

  function Start(a: RunArgs, tenantId: Text, taskId: Text, now: int): Result<Run>
  {
    if !(TextOk(a.id, 4096) && TextOk(a.sessionId, 4096) && TextOk(a.respondentId, 4096) && TextOk(a.destination, 4096)
         && TextOk(a.contextRevision, 4096) && TextOk(a.objective, 4096) && TextOk(a.context, 16384)) then Err
    else if !ValidTarget(a.target, Some(200)) || !SafeTime(a.deadline) || !SafeTime(a.questionTtlMs) then Err
    else if !(1 <= a.maxExecutions <= 16) || a.questionTtlMs < 1 || !SafeTime(now) || a.deadline <= now then Err
    else if !TextOk(taskId, 200) then Err
    else
      var r := Run(a.id, tenantId, a.sessionId, a.respondentId, a.destination, a.target, a.contextRevision, a.context, a.objective,
                   Running, 1, a.maxExecutions, a.deadline, a.questionTtlMs, None, [], NoReason);
      Ok(r.(pending := Some(Pending(NextInput(r, taskId, None), Reserved))))
  }

  function MarkSending(r: Run): Run
    requires r.pending.Some?
  {
    r.(pending := Some(r.pending.value.(phase := Sending)), status := Running)
  }

  function Settle(r: Run, status: Status, reason: Reason): Run
  {
    r.(status := status, reason := reason, pending := None)
  }

  function Min(a: int, b: int): int
  {
    if a < b then a else b
  }

  function NewTicket(r: Run, input: Input, q: CD.Question, now: int, questionId: Text): Ticket
  {
    var agent := Get(input.payload, AGENT_REF);
    var binding := Binding(r.tenantId, r.id, r.sessionId, input.taskId, r.generation, r.contextRevision, questionId, 1,
                           input.deviceId, TextAt(GetIn(agent, AGENT_ID)), TextAt(GetIn(agent, PROFILE_REVISION)), r.destination);
    Ticket(binding, q, Min(r.deadline, now + r.questionTtlMs), Open, ToNotify, None)
  }

  function Ask(r: Run, q: CD.Question, now: int, questionId: Text): Run
    requires r.pending.Some?
  {
    r.(tickets := r.tickets + [NewTicket(r, r.pending.value.input, q, now, questionId)], status := WaitingInput, pending := None)
  }

  /** What the reported document makes of the run. Only a new question reads the clock. */
  function Conclude(r: Run, result: Result<CD.StepResult>, now: int, questionId: Text): Result<Run>
    requires r.pending.Some?
  {
    match result
    case Err => Ok(Settle(r, Status.Blocked, InvalidResult))
    case Ok(Done) => Ok(Settle(r, Status.Complete, r.reason))
    case Ok(Stuck(reason)) => Ok(Settle(r, Status.Blocked, Told(reason)))
    case Ok(NeedsInput(q)) =>
      if r.generation >= r.maxExecutions then Ok(Settle(r, Status.Blocked, BudgetExhausted))
      else if !SafeTime(now) then Err
      else Ok(Ask(r, q, now, questionId))
  }

  /** What a settled execution makes of the run. */
  function Reconcile(r: Run, seen: Observed, now: int, questionId: Text): Result<Run>
    requires r.pending.Some?
  {
    match seen
    case SeenCancelled => Ok(Settle(r, Status.Blocked, ExecutionCancelled))
    case SeenFailed => Ok(Settle(r, Status.Blocked, ExecutionFailedOrDeclined))
    case SeenComplete(document) => Conclude(r, CD.ParseClarification(document), now, questionId)
  }

  function MarkDelivered(r: Run): Run
    requires r.tickets != []
  {
    WithLast(r, Last(r).(notification := Delivered))
  }

  function StatusFor(why: Closing): Status
  {
    match why case ByCancel => Cancelled case ByExpiry => Expired case ByContext => Obsolete
  }

  function Close(r: Run, why: Closing): Run
  {
    var c := r.(status := StatusFor(why), reason := HostStopped(why));
    if c.tickets != [] && Last(c).state.Open?
    then WithLast(c, Last(c).(state := Closed(why), notification := Withdrawn)) else c
  }

  function Cancel(r: Run): Result<Run>
  {
    if r.status.Complete? then Err else Ok(Close(r, ByCancel))
  }

  function ChangeContext(r: Run, next: Text): Result<Run>
  {
    if !TextOk(next, 200) || next == r.contextRevision || Stopped(r) then Err
    else Ok(Close(r.(contextRevision := next), ByContext))
  }

  predicate Due(r: Run, now: int)
  {
    now >= r.deadline || (r.status.WaitingInput? && r.tickets != [] && now >= Last(r).expiresAt)
  }

  // ---------------------------------------------------------------------
  // Answers
  // ---------------------------------------------------------------------

  datatype Principal = Principal(tenantId: Text, userId: Text)
  datatype AnswerArgs = AnswerArgs(answerId: Text, value: Text, taskId: Text, nextContextRevision: Text)
  datatype AnswerOutcome = Refused | Replayed(receipt: Receipt) | Accepted(run: Run, receipt: Receipt)

  const TENANT_ID: Text := U("tenantId")
  const RUN_ID: Text := U("runId")
  const GENERATION: Text := U("generation")
  const CONTEXT_REVISION: Text := U("contextRevision")

  function BindingJson(b: Binding): Value
  {
    Obj([Member(TENANT_ID, Str(b.tenantId)), Member(RUN_ID, Str(b.runId)), Member(U("sessionId"), Str(b.sessionId)),
         Member(U("sourceTaskId"), Str(b.sourceTaskId)), Member(GENERATION, Num(b.generation)),
         Member(CONTEXT_REVISION, Str(b.contextRevision)), Member(U("questionId"), Str(b.questionId)),
         Member(U("questionRevision"), Num(b.questionRevision)), Member(DEVICE_ID, Str(b.deviceId)),
         Member(AGENT_ID, Str(b.agentId)), Member(PROFILE_REVISION, Str(b.profileRevision)),
         Member(U("destination"), Str(b.destination))])
  }

  function DigestBody(binding: Value, value: Text): Value
  {
    Obj([Member(U("binding"), binding), Member(U("value"), Str(value))])
  }

  /** `canonical({ binding, value })`. */
  function Digest(binding: Value, value: Text): Text
  {
    Canonical(DigestBody(binding, value))
  }

  function FindReceipt(ts: seq<Ticket>, answerId: Text): (r: Option<Receipt>)
    ensures r.Some? ==> exists i :: 0 <= i < |ts| && ts[i].receipt == r && r.value.answerId == answerId
    ensures r.None? ==> forall i :: 0 <= i < |ts| && ts[i].receipt.Some? ==> ts[i].receipt.value.answerId != answerId
  {
    if ts == [] then None
    else if ts[0].receipt.Some? && ts[0].receipt.value.answerId == answerId then ts[0].receipt
    else
      var r := FindReceipt(ts[1..], answerId);
      assert ts == [ts[0]] + ts[1..];
      r
  }

  predicate Chosen(q: CD.Question, value: Text)
  {
    q.options.None? || exists i :: 0 <= i < |q.options.value| && q.options.value[i].id == value
  }

  /** The ticket still takes answers, and this binding is its binding. */
  predicate Answerable(r: Run, binding: Value, now: int)
  {
    && r.status.WaitingInput? && r.tickets != [] && Last(r).state.Open?
    && Canonical(BindingJson(Last(r).binding)) == Canonical(binding)
    && Get(binding, CONTEXT_REVISION) == Some(Str(r.contextRevision))
    && Get(binding, GENERATION) == Some(Num(r.generation))
    && SafeTime(now) && now < Last(r).expiresAt
  }

  /** The answer closes the ticket and reserves the continuation in one record. */
  function Consume(r: Run, receipt: Receipt, nextContext: Text, input: Input): Run
    requires r.tickets != []
  {
    var ticket := Last(r).(state := Answered, notification := Withdrawn, receipt := Some(receipt));
    WithLast(r, ticket).(contextRevision := nextContext, generation := r.generation + 1, status := ContinuationReserved,
                         pending := Some(Pending(input, Reserved)))
  }

  function Answer(r: Run, p: Principal, binding: Value, a: AnswerArgs, now: int): AnswerOutcome
  {
    if p.userId != r.respondentId || !TextOk(a.answerId, 200) || !TextOk(a.value, 4096) then Refused
    else
      var known := FindReceipt(r.tickets, a.answerId);
      if known.Some? then
        if known.value.digest == Digest(binding, a.value) then Replayed(known.value) else Refused
      else if !Answerable(r, binding, now) || !Chosen(Last(r).result, a.value) then Refused
      else if !TextOk(a.nextContextRevision, 200) || a.nextContextRevision == r.contextRevision || !TextOk(a.taskId, 200) then Refused
      else
        var receipt := Receipt(a.answerId, Digest(binding, a.value), binding, a.taskId);
        var input := NextInput(r.(contextRevision := a.nextContextRevision), a.taskId, Some((Last(r).result, a.value)));
        Accepted(Consume(r, receipt, a.nextContextRevision, input), receipt)
  }

  // ---------------------------------------------------------------------
  // What every stored run satisfies
  // ---------------------------------------------------------------------

  predicate AllAnswered(ts: seq<Ticket>)
  {
    forall i :: 0 <= i < |ts| ==> ts[i].state.Answered?
  }

  ghost predicate TicketOk(t: Ticket, i: nat, deadline: int)
  {
    && t.binding.generation == i + 1 && t.expiresAt <= deadline && (t.state.Answered? <==> t.receipt.Some?)
    && (t.state.Open? <==> !t.notification.Withdrawn?)
  }

  ghost predicate ReceiptsDiffer(ts: seq<Ticket>)
  {
    forall i, j :: 0 <= i < j < |ts| && ts[i].receipt.Some? && ts[j].receipt.Some? ==>
      ts[i].receipt.value.answerId != ts[j].receipt.value.answerId
  }

  ghost predicate TicketsOk(ts: seq<Ticket>, deadline: int)
  {
    && (forall i :: 0 <= i < |ts| ==> TicketOk(ts[i], i, deadline))
    && (forall i :: 0 <= i < |ts| - 1 ==> ts[i].state.Answered?)
    && ReceiptsDiffer(ts)
  }

  function CountAnswered(ts: seq<Ticket>): nat
  {
    if ts == [] then 0 else CountAnswered(ts[..|ts| - 1]) + (if ts[|ts| - 1].state.Answered? then 1 else 0)
  }

  ghost predicate RunOk(r: Run)
  {
    && SafeTime(r.deadline) && TicketsOk(r.tickets, r.deadline)
    && 1 <= r.generation <= r.maxExecutions
    && r.generation == (if AllAnswered(r.tickets) then |r.tickets| + 1 else |r.tickets|)
    && (r.status.WaitingInput? <==> r.tickets != [] && Last(r).state.Open?)
    && (r.status.WaitingInput? ==> r.pending.None? && r.generation < r.maxExecutions && Last(r).binding.contextRevision == r.contextRevision)
    && (r.status.Running? || r.status.ContinuationReserved? ==> r.pending.Some? && AllAnswered(r.tickets))
    && (r.status.Complete? || r.status.Blocked? ==> r.pending.None? && AllAnswered(r.tickets))
    && (r.pending.Some? ==> AllAnswered(r.tickets))
  }

  lemma {:induction false} CountsAnswered(ts: seq<Ticket>)
    requires forall i :: 0 <= i < |ts| - 1 ==> ts[i].state.Answered?
    ensures CountAnswered(ts) == if AllAnswered(ts) then |ts| else |ts| - 1
  {
    if ts != [] {
      var init := ts[..|ts| - 1];
      assert forall i :: 0 <= i < |init| ==> init[i] == ts[i];
      CountsAnswered(init);
    }
  }

  /**
  The shape of a run: one generation per answered question plus the first,
  never more than the budget; question i belongs to generation i + 1; the run
  waits exactly when its last question is open, and then no execution is
  pending and the question is of the run's own generation and context.
  */
  lemma RunShape(r: Run)
    requires RunOk(r)
    ensures r.generation == 1 + CountAnswered(r.tickets) <= r.maxExecutions
    ensures forall i :: 0 <= i < |r.tickets| ==> r.tickets[i].binding.generation == i + 1
    ensures r.status.WaitingInput? <==> r.tickets != [] && Last(r).state.Open?
    ensures r.status.WaitingInput? ==>
      r.pending.None? && Last(r).binding.generation == r.generation && Last(r).binding.contextRevision == r.contextRevision
  {
    CountsAnswered(r.tickets);
    assert forall i :: 0 <= i < |r.tickets| ==> TicketOk(r.tickets[i], i, r.deadline);
  }

  // ---------------------------------------------------------------------
  // What every write keeps
  // ---------------------------------------------------------------------

  ghost predicate SameFrame(a: Run, b: Run)
  {
    && b.id == a.id && b.tenantId == a.tenantId && b.sessionId == a.sessionId && b.respondentId == a.respondentId
    && b.destination == a.destination && b.target == a.target && b.context == a.context && b.objective == a.objective
    && b.maxExecutions == a.maxExecutions && b.deadline == a.deadline && b.questionTtlMs == a.questionTtlMs
  }

  /** A ticket keeps its question, its binding, its expiry and any receipt. */
  ghost predicate TicketEvolves(a: Ticket, b: Ticket)
  {
    && b.binding == a.binding && b.result == a.result && b.expiresAt == a.expiresAt
    && (a.receipt.Some? ==> b.receipt == a.receipt && b.state == a.state)
    && (!a.state.Open? ==> b.state == a.state && b.receipt == a.receipt)
  }

  ghost predicate TicketsEvolve(a: seq<Ticket>, b: seq<Ticket>)
  {
    |a| <= |b| && forall i :: 0 <= i < |a| ==> TicketEvolves(a[i], b[i])
  }

  ghost predicate PendingEvolves(settled: set<Text>, a: Run, b: Run)
  {
    match (a.pending, b.pending)
    case (None, None) => true
    case (Some(p), Some(q)) => q.input == p.input && (q == p || (p.phase.Reserved? && q.phase.Sending? && !Stopped(b)))
    case (Some(p), None) => p.input.taskId in settled
    case (None, Some(q)) =>
      && q.phase.Reserved? && a.status.WaitingInput? && b.status.ContinuationReserved? && |b.tickets| == |a.tickets| > 0
      && Last(a).receipt.None? && Last(b).receipt.Some? && Last(b).receipt.value.continuationTaskId == q.input.taskId
  }

  /** A question the device reported and that reads as this question. */
  ghost predicate Raised(e: Evidence, t: Ticket)
  {
    t.binding.sourceTaskId in e.completed
    && CD.ParseClarification(e.completed[t.binding.sourceTaskId]) == Ok(CD.NeedsInput(t.result))
  }

  ghost predicate RunEvolves(e: Evidence, a: Run, b: Run)
  {
    && SameFrame(a, b)
    && !a.status.Complete?
    && (Stopped(a) ==> b.status.Cancelled? && b.pending == a.pending && b.tickets == a.tickets && b.generation == a.generation)
    && PendingEvolves(e.settled, a, b)
    && TicketsEvolve(a.tickets, b.tickets)
    && (|b.tickets| > |a.tickets| ==> AsksNew(e, a, b))
    && (b.status.Complete? ==> a.pending.Some? && Finished(e, a.pending.value.input.taskId))
  }

  ghost predicate AsksNew(e: Evidence, a: Run, b: Run)
    requires b.tickets != []
  {
    && |b.tickets| == |a.tickets| + 1 && a.pending.Some? && b.status.WaitingInput?
    && Last(b).binding.sourceTaskId == a.pending.value.input.taskId && Raised(e, Last(b))
  }

  ghost predicate Finished(e: Evidence, t: Text)
  {
    t in e.completed && CD.ParseClarification(e.completed[t]) == Ok(CD.Done)
  }

  lemma EvolvesWithMore(e: Evidence, f: Evidence, a: Run, b: Run)
    requires RunEvolves(e, a, b) && Supports(e, f)
    ensures RunEvolves(f, a, b)
  {
  }

  // ---------------------------------------------------------------------
  // Each operation keeps it
  // ---------------------------------------------------------------------

  lemma LastReplaced(ts: seq<Ticket>, t: Ticket, deadline: int)
    requires ts != [] && TicketsOk(ts, deadline) && ts[|ts| - 1].receipt.None? && TicketOk(t, |ts| - 1, deadline)
    requires t.receipt.Some? ==> FindReceipt(ts, t.receipt.value.answerId).None?
    ensures TicketsOk(ts[|ts| - 1 := t], deadline)
    ensures AllAnswered(ts[|ts| - 1 := t]) <==> t.state.Answered?
    ensures !AllAnswered(ts)
    ensures TicketEvolves(ts[|ts| - 1], t) ==> TicketsEvolve(ts, ts[|ts| - 1 := t])
  {
    var us := ts[|ts| - 1 := t];
    assert forall i :: 0 <= i < |ts| - 1 ==> us[i] == ts[i];
    assert us[|ts| - 1] == t;
    assert TicketOk(ts[|ts| - 1], |ts| - 1, deadline);
  }

  lemma LastAdded(ts: seq<Ticket>, t: Ticket, deadline: int)
    requires TicketsOk(ts, deadline) && AllAnswered(ts) && t.receipt.None? && TicketOk(t, |ts|, deadline)
    ensures TicketsOk(ts + [t], deadline) && !AllAnswered(ts + [t]) && TicketsEvolve(ts, ts + [t])
  {
    var us := ts + [t];
    assert forall i :: 0 <= i < |ts| ==> us[i] == ts[i];
    assert us[|ts|] == t && !us[|ts|].state.Answered?;
  }

  lemma SameTicketsEvolve(ts: seq<Ticket>)
    ensures TicketsEvolve(ts, ts)
  {
  }

  lemma StartKeeps(a: RunArgs, tenantId: Text, taskId: Text, now: int)
    requires Start(a, tenantId, taskId, now).Ok?
    ensures RunOk(Start(a, tenantId, taskId, now).value)
  {
  }

  lemma MarkSendingKeeps(e: Evidence, r: Run)
    requires RunOk(r) && !Stopped(r) && r.pending.Some? && r.pending.value.phase.Reserved?
    ensures RunOk(MarkSending(r)) && RunEvolves(e, r, MarkSending(r))
  {
    SameTicketsEvolve(r.tickets);
  }

  lemma SettleKeeps(e: Evidence, r: Run, status: Status, reason: Reason)
    requires RunOk(r) && !Stopped(r) && r.pending.Some? && r.pending.value.input.taskId in e.settled
    requires status.Blocked? || (status.Complete? && Finished(e, r.pending.value.input.taskId))
    ensures RunOk(Settle(r, status, reason)) && RunEvolves(e, r, Settle(r, status, reason))
  {
    SameTicketsEvolve(r.tickets);
  }

  lemma AskKeeps(e: Evidence, r: Run, q: CD.Question, now: int, questionId: Text)
    requires RunOk(r) && !Stopped(r) && r.pending.Some? && r.pending.value.input.taskId in e.settled
    requires r.generation < r.maxExecutions && r.pending.value.input.taskId in e.completed
    requires CD.ParseClarification(e.completed[r.pending.value.input.taskId]) == Ok(CD.NeedsInput(q))
    ensures RunOk(Ask(r, q, now, questionId)) && RunEvolves(e, r, Ask(r, q, now, questionId))
  {
    var b := Ask(r, q, now, questionId);
    AskTicket(r, q, now, questionId);
    LastAdded(r.tickets, Last(b), r.deadline);
    assert Raised(e, Last(b));
    AskIsOk(r, b);
  }

  lemma AskTicket(r: Run, q: CD.Question, now: int, questionId: Text)
    requires r.pending.Some? && r.generation == |r.tickets| + 1
    ensures var b := Ask(r, q, now, questionId);
      && b.tickets == r.tickets + [Last(b)] && Last(b).state.Open? && TicketOk(Last(b), |r.tickets|, r.deadline)
      && Last(b).receipt.None? && Last(b).result == q && Last(b).binding.sourceTaskId == r.pending.value.input.taskId
      && Last(b).binding.contextRevision == r.contextRevision
  {
  }

  lemma AskIsOk(r: Run, b: Run)
    requires RunOk(r) && AllAnswered(r.tickets) && r.generation < r.maxExecutions
    requires b == r.(tickets := b.tickets, status := WaitingInput, pending := None)
    requires |b.tickets| == |r.tickets| + 1 && TicketsOk(b.tickets, r.deadline) && !AllAnswered(b.tickets)
    requires Last(b).state.Open? && Last(b).binding.contextRevision == r.contextRevision
    ensures RunOk(b)
  {
  }

  /** A write that leaves the execution alone and reserves nothing. */
  lemma QuietMove(e: Evidence, r: Run, b: Run)
    requires !Stopped(r) && !b.status.Complete?
    requires b == r.(tickets := b.tickets, status := b.status, reason := b.reason, contextRevision := b.contextRevision)
    requires |b.tickets| == |r.tickets| && TicketsEvolve(r.tickets, b.tickets)
    ensures RunEvolves(e, r, b)
  {
  }

  lemma WaitingIsOk(r: Run, b: Run)
    requires RunOk(r) && r.status.WaitingInput?
    requires b == r.(tickets := b.tickets, status := b.status, reason := b.reason, contextRevision := b.contextRevision)
    requires |b.tickets| == |r.tickets| && TicketsOk(b.tickets, r.deadline) && !AllAnswered(b.tickets)
    requires b.status.WaitingInput? || b.status.Cancelled? || b.status.Expired? || b.status.Obsolete?
    requires b.status.WaitingInput? <==> Last(b).state.Open?
    requires b.status.WaitingInput? ==> Last(b).binding.contextRevision == b.contextRevision
    ensures RunOk(b)
  {
  }

  lemma DeliveredIsOk(r: Run)
    requires RunOk(r) && r.status.WaitingInput?
    ensures RunOk(MarkDelivered(r))
  {
    var b := MarkDelivered(r);
    WaitingTicket(r);
    LastReplaced(r.tickets, Last(b), r.deadline);
    WaitingIsOk(r, b);
  }

  lemma DeliveredEvolves(e: Evidence, r: Run)
    requires RunOk(r) && r.status.WaitingInput?
    ensures RunEvolves(e, r, MarkDelivered(r))
  {
    var b := MarkDelivered(r);
    WaitingTicket(r);
    LastReplaced(r.tickets, Last(b), r.deadline);
    QuietMove(e, r, b);
  }

  lemma WaitingTicket(r: Run)
    requires RunOk(r) && r.status.WaitingInput?
    ensures TicketOk(Last(r), |r.tickets| - 1, r.deadline) && Last(r).state.Open? && Last(r).receipt.None?
    ensures Last(r).binding.contextRevision == r.contextRevision && TicketsOk(r.tickets, r.deadline)
  {
  }

  lemma CloseKeeps(e: Evidence, r: Run, why: Closing)
    requires RunOk(r) && !r.status.Complete? && (Stopped(r) ==> why.ByCancel?)
    ensures RunOk(Close(r, why)) && RunEvolves(e, r, Close(r, why))
  {
    if r.status.WaitingInput? {
      assert r.(contextRevision := r.contextRevision) == r;
      CloseWaitingKeeps(e, r, r.contextRevision, why);
    } else {
      CloseIdleKeeps(e, r, r.contextRevision, why);
      assert r.(contextRevision := r.contextRevision) == r;
    }
  }

  lemma CloseIdleKeeps(e: Evidence, r: Run, next: Text, why: Closing)
    requires RunOk(r) && !r.status.Complete? && !r.status.WaitingInput? && (Stopped(r) ==> why.ByCancel?)
    ensures RunOk(Close(r.(contextRevision := next), why)) && RunEvolves(e, r, Close(r.(contextRevision := next), why))
  {
    var b := Close(r.(contextRevision := next), why);
    assert b == r.(status := b.status, reason := b.reason, contextRevision := next);
    SameTicketsEvolve(r.tickets);
    IdleIsOk(r, b);
  }

  lemma IdleIsOk(r: Run, b: Run)
    requires RunOk(r) && !r.status.WaitingInput?
    requires b == r.(status := b.status, reason := b.reason, contextRevision := b.contextRevision)
    requires b.status.Cancelled? || b.status.Expired? || b.status.Obsolete?
    ensures RunOk(b)
  {
  }

  lemma CloseWaitingKeeps(e: Evidence, r: Run, next: Text, why: Closing)
    requires RunOk(r) && r.status.WaitingInput?
    ensures RunOk(Close(r.(contextRevision := next), why)) && RunEvolves(e, r, Close(r.(contextRevision := next), why))
  {
    CloseWaitingIsOk(r, next, why);
    CloseWaitingEvolves(e, r, next, why);
  }

  lemma CloseWaitingIsOk(r: Run, next: Text, why: Closing)
    requires RunOk(r) && r.status.WaitingInput?
    ensures RunOk(Close(r.(contextRevision := next), why))
  {
    var b := Close(r.(contextRevision := next), why);
    WaitingTicket(r);
    LastReplaced(r.tickets, Last(b), r.deadline);
    WaitingIsOk(r, b);
  }

  lemma CloseWaitingEvolves(e: Evidence, r: Run, next: Text, why: Closing)
    requires RunOk(r) && r.status.WaitingInput?
    ensures RunEvolves(e, r, Close(r.(contextRevision := next), why))
  {
    var b := Close(r.(contextRevision := next), why);
    WaitingTicket(r);
    LastReplaced(r.tickets, Last(b), r.deadline);
    QuietMove(e, r, b);
  }

  lemma ChangeContextKeeps(e: Evidence, r: Run, next: Text)
    requires RunOk(r) && ChangeContext(r, next).Ok?
    ensures RunOk(ChangeContext(r, next).value) && RunEvolves(e, r, ChangeContext(r, next).value)
  {
    if r.status.WaitingInput? {
      CloseWaitingKeeps(e, r, next, ByContext);
    } else {
      CloseIdleKeeps(e, r, next, ByContext);
    }
  }

  lemma WaitingHoldsNothing(r: Run)
    requires RunOk(r) && r.status.WaitingInput?
    ensures r.pending.None?
  {
  }

  lemma ConsumeKeepsOk(r: Run, receipt: Receipt, next: Text, input: Input)
    requires RunOk(r) && r.status.WaitingInput? && FindReceipt(r.tickets, receipt.answerId).None?
    ensures RunOk(Consume(r, receipt, next, input))
  {
    var b := Consume(r, receipt, next, input);
    WaitingTicket(r);
    LastReplaced(r.tickets, Last(b), r.deadline);
    ConsumeIsOk(r, b);
  }

  lemma ConsumeKeeps(e: Evidence, r: Run, receipt: Receipt, next: Text, input: Input)
    requires RunOk(r) && r.status.WaitingInput? && FindReceipt(r.tickets, receipt.answerId).None?
    requires input.taskId == receipt.continuationTaskId
    ensures RunEvolves(e, r, Consume(r, receipt, next, input))
  {
    var b := Consume(r, receipt, next, input);
    WaitingTicket(r);
    LastReplaced(r.tickets, Last(b), r.deadline);
    ConsumeEvolves(e, r, b);
  }

  lemma ConsumeEvolves(e: Evidence, r: Run, b: Run)
    requires r.tickets != [] && r.status.WaitingInput? && r.pending.None? && Last(r).receipt.None?
    requires b == r.(tickets := b.tickets, status := ContinuationReserved, generation := r.generation + 1,
                     contextRevision := b.contextRevision, pending := b.pending)
    requires |b.tickets| == |r.tickets| && TicketsEvolve(r.tickets, b.tickets) && Last(b).receipt.Some?
    requires b.pending.Some? && b.pending.value.phase.Reserved? && b.pending.value.input.taskId == Last(b).receipt.value.continuationTaskId
    ensures RunEvolves(e, r, b)
  {
  }

  lemma ConsumeIsOk(r: Run, b: Run)
    requires RunOk(r) && r.status.WaitingInput? && b.pending.Some?
    requires b == r.(tickets := b.tickets, status := ContinuationReserved, generation := r.generation + 1,
                     contextRevision := b.contextRevision, pending := b.pending)
    requires |b.tickets| == |r.tickets| && TicketsOk(b.tickets, r.deadline) && AllAnswered(b.tickets) && !AllAnswered(r.tickets)
    ensures RunOk(b)
  {
  }

  /** An answer is accepted only for the open question of a waiting run, strictly before it expires, under a new id. */
  lemma AnswerAccepts(r: Run, p: Principal, binding: Value, a: AnswerArgs, now: int)
    requires Answer(r, p, binding, a, now).Accepted?
    ensures r.status.WaitingInput? && r.tickets != [] && Last(r).state.Open? && now < Last(r).expiresAt
    ensures FindReceipt(r.tickets, a.answerId).None?
    ensures var out := Answer(r, p, binding, a, now);
      && out.run.pending.Some? && out.run.pending.value.input.taskId == a.taskId
      && out.receipt.answerId == a.answerId && out.receipt.continuationTaskId == a.taskId
      && out.run == Consume(r, out.receipt, a.nextContextRevision, out.run.pending.value.input)
  {
  }

  ghost predicate Kept(e: Evidence, a: Run, b: Run)
  {
    RunOk(b) && RunEvolves(e, a, b) && b.pending.None?
  }

  lemma ConcludeKeeps(e: Evidence, r: Run, result: Result<CD.StepResult>, now: int, questionId: Text)
    requires RunOk(r) && !Stopped(r) && r.pending.Some? && r.pending.value.input.taskId in e.settled
    requires r.pending.value.input.taskId in e.completed
    requires CD.ParseClarification(e.completed[r.pending.value.input.taskId]) == result
    requires Conclude(r, result, now, questionId).Ok?
    ensures Kept(e, r, Conclude(r, result, now, questionId).value)
  {
    if result.Ok? && result.value.NeedsInput? && r.generation < r.maxExecutions {
      AskKeeps(e, r, result.value.q, now, questionId);
    } else {
      var b := Conclude(r, result, now, questionId).value;
      SettleKeeps(e, r, b.status, b.reason);
    }
  }

  lemma ReconcileKeeps(e: Evidence, r: Run, seen: Observed, now: int, questionId: Text)
    requires RunOk(r) && !Stopped(r) && r.pending.Some? && r.pending.value.input.taskId in e.settled
    requires seen.SeenComplete? ==>
      r.pending.value.input.taskId in e.completed && e.completed[r.pending.value.input.taskId] == seen.document
    requires Reconcile(r, seen, now, questionId).Ok?
    ensures Kept(e, r, Reconcile(r, seen, now, questionId).value)
  {
    match seen
    case SeenCancelled => SettleKeeps(e, r, Status.Blocked, ExecutionCancelled);
    case SeenFailed => SettleKeeps(e, r, Status.Blocked, ExecutionFailedOrDeclined);
    case SeenComplete(document) => ConcludeKeeps(e, r, CD.ParseClarification(document), now, questionId);
  }

  // ---------------------------------------------------------------------
  // Digests and receipts
  // ---------------------------------------------------------------------

  lemma PairSame(k: Text, l: Text, a: Value, b: Value, v: Text, w: Text)
    requires k != l
    ensures SameJson(Obj([Member(k, a), Member(l, Str(v))]), Obj([Member(k, b), Member(l, Str(w))])) <==> SameJson(a, b) && v == w
  {
    var x, y := [Member(k, a), Member(l, Str(v))], [Member(k, b), Member(l, Str(w))];
    assert HasSame(x[0], y) <==> SameJson(a, b) by { HasSameFirst(x[0], y, k, b); }
    assert HasSame(x[1], y) <==> v == w by { HasSameSecond(x[1], y, v, w); }
    assert SameJson(Obj(x), Obj(y)) <==> HasSame(x[0], y) && HasSame(x[1], y);
  }

  lemma HasSameFirst(m: Member, ys: seq<Member>, k: Text, b: Value)
    requires |ys| == 2 && m.key == k && ys[0] == Member(k, b) && ys[1].key != k
    ensures HasSame(m, ys) <==> SameJson(m.val, b)
  {
    if SameJson(m.val, b) { assert m.key == ys[0].key && SameJson(m.val, ys[0].val); }
  }

  lemma HasSameSecond(m: Member, ys: seq<Member>, v: Text, w: Text)
    requires |ys| == 2 && m.key != ys[0].key && m.key == ys[1].key && m.val == Str(v) && ys[1].val == Str(w)
    ensures HasSame(m, ys) <==> v == w
  {
    if v == w { assert m.key == ys[1].key && SameJson(m.val, ys[1].val); }
  }

  /** Two answers have the same digest exactly when they answer the same binding with the same value. */
  lemma DigestDecides(b: Value, v: Text, c: Value, w: Text)
    requires WellFormed(b) && WellFormed(c)
    ensures Digest(b, v) == Digest(c, w) <==> SameJson(b, c) && v == w
  {
    hide Canonical;
    assert U("binding")[0] == 98 && U("value")[0] == 118;
    PairWellFormed(U("binding"), U("value"), b, v);
    PairWellFormed(U("binding"), U("value"), c, w);
    CanonicalDecidesEquality(DigestBody(b, v), DigestBody(c, w));
    PairSame(U("binding"), U("value"), b, c, v, w);
  }

  lemma PairWellFormed(k: Text, l: Text, a: Value, v: Text)
    requires k != l && WellFormed(a)
    ensures WellFormed(Obj([Member(k, a), Member(l, Str(v))]))
  {
  }

  ghost predicate HasReceipt(r: Run, receipt: Receipt)
  {
    exists i :: 0 <= i < |r.tickets| && r.tickets[i].receipt == Some(receipt)
  }

  lemma ReceiptStays(e: Evidence, a: Run, b: Run, receipt: Receipt)
    requires RunEvolves(e, a, b) && HasReceipt(a, receipt)
    ensures HasReceipt(b, receipt)
  {
    hide AsksNew, Finished, PendingEvolves;
    var i :| 0 <= i < |a.tickets| && a.tickets[i].receipt == Some(receipt);
    assert TicketEvolves(a.tickets[i], b.tickets[i]);
    assert b.tickets[i].receipt == Some(receipt);
  }

  /** One answer id, one receipt. */
  lemma ReceiptIsUnique(r: Run, a: Receipt, b: Receipt)
    requires RunOk(r) && HasReceipt(r, a) && HasReceipt(r, b) && a.answerId == b.answerId
    ensures a == b
  {
    var i :| 0 <= i < |r.tickets| && r.tickets[i].receipt == Some(a);
    var j :| 0 <= j < |r.tickets| && r.tickets[j].receipt == Some(b);
    assert ReceiptsDiffer(r.tickets);
  }

  lemma ReceiptIsFound(r: Run, receipt: Receipt)
    requires RunOk(r) && HasReceipt(r, receipt)
    ensures FindReceipt(r.tickets, receipt.answerId) == Some(receipt)
  {
    hide RunOk;
    var found := FindReceipt(r.tickets, receipt.answerId);
    if found.Some? { ReceiptIsUnique(r, receipt, found.value); }
  }

  /**
  A recorded answer id is settled: the same respondent gets the stored receipt
  back for the same body, whatever the clock says, and is refused any other.
  */
  lemma RecordedAnswer(r: Run, receipt: Receipt, p: Principal, binding: Value, a: AnswerArgs, now: int)
    requires RunOk(r) && HasReceipt(r, receipt) && a.answerId == receipt.answerId
    requires p.userId == r.respondentId && TextOk(a.answerId, 200) && TextOk(a.value, 4096)
    ensures Answer(r, p, binding, a, now) == if Digest(binding, a.value) == receipt.digest then Replayed(receipt) else Refused
  {
    hide RunOk, Digest, Answerable, NextInput, Chosen;
    ReceiptIsFound(r, receipt);
  }

  // ---------------------------------------------------------------------
  // What a document makes of a run, and which answers count
  // ---------------------------------------------------------------------

  ghost predicate Tells(d: Value, result: CD.StepResult)
  {
    Utf8Size(d) <= CD.MAX_DOCUMENT_BYTES && CD.Asks(d, result)
  }

  function Utf8Size(d: Value): nat
  {
    CD.Utf8Bytes(Canonical(d))
  }

  ghost predicate TellsQuestion(d: Value)
  {
    exists q :: Tells(d, CD.NeedsInput(q))
  }

  lemma ParsedTells(d: Value)
    requires WellFormed(d)
    ensures var p := CD.ParseClarification(Some(d));
      && (p == Ok(CD.Done) <==> Tells(d, CD.Done))
      && (p.Ok? && p.value.NeedsInput? <==> TellsQuestion(d))
  {
    hide CD.ParseClarification, CD.Asks, CD.Utf8Bytes, Canonical;
    var p := CD.ParseClarification(Some(d));
    CD.ParseClarificationIsExact(d, CD.Done);
    if p.Ok? { CD.ParseClarificationIsExact(d, p.value); }
    if TellsQuestion(d) {
      var q :| Tells(d, CD.NeedsInput(q));
      CD.ParseClarificationIsExact(d, CD.NeedsInput(q));
    }
  }

  /**
  A completion finishes the run exactly when its document says so, opens a
  question exactly when it asks one and the budget allows another execution,
  and blocks the run otherwise; only a question can fail, on a broken clock.
  */
  lemma ReconcileMeans(r: Run, d: Value, now: int, questionId: Text)
    requires r.pending.Some? && WellFormed(d)
    ensures var b := Reconcile(r, SeenComplete(Some(d)), now, questionId);
      && (b.Err? <==> TellsQuestion(d) && r.generation < r.maxExecutions && !SafeTime(now))
      && (b.Ok? ==>
            && (b.value.status.Complete? <==> Tells(d, CD.Done))
            && (b.value.status.WaitingInput? <==> TellsQuestion(d) && r.generation < r.maxExecutions)
            && (b.value.status.Blocked? <==> !b.value.status.Complete? && !b.value.status.WaitingInput?)
            && b.value.pending.None?)
  {
    hide CD.ParseClarification, Tells, TellsQuestion, NewTicket;
    ParsedTells(d);
  }

  lemma BindingWellFormed(b: Binding)
    ensures WellFormed(BindingJson(b))
  {
    assert TENANT_ID[0] != DEVICE_ID[0] && GENERATION[0] != U("questionId")[0] && CONTEXT_REVISION[0] != PROFILE_REVISION[0];
  }

  /** A text that survives `trim` and has at most `max` code units. */
  ghost predicate Named(t: Text, max: nat)
  {
    |t| <= max && exists i :: 0 <= i < |t| && !Space(t[i])
  }

  /**
  A new answer is accepted exactly when the respondent answers, in time, the
  open question of a waiting run, by a binding equal to the question's own, with
  one of its options if it has any, and names a new context revision.
  */
  lemma AnswerIsExact(r: Run, p: Principal, binding: Value, a: AnswerArgs, now: int)
    requires WellFormed(binding) && FindReceipt(r.tickets, a.answerId).None?
    ensures Answer(r, p, binding, a, now).Accepted? <==>
      && p.userId == r.respondentId && Named(a.answerId, 200) && Named(a.value, 4096) && Named(a.taskId, 200)
      && r.status.WaitingInput? && r.tickets != [] && Last(r).state.Open? && 0 <= now <= MAX_SAFE && now < Last(r).expiresAt
      && SameJson(BindingJson(Last(r).binding), binding)
      && Get(binding, CONTEXT_REVISION) == Some(Str(r.contextRevision)) && Get(binding, GENERATION) == Some(Num(r.generation))
      && (Last(r).result.options.Some? ==>
            exists i :: 0 <= i < |Last(r).result.options.value| && Last(r).result.options.value[i].id == a.value)
      && Named(a.nextContextRevision, 200) && a.nextContextRevision != r.contextRevision
  {
    hide Space, BindingJson, SameJson, Canonical, Digest, NextInput, WellFormed;
    if r.tickets != [] {
      BindingWellFormed(Last(r).binding);
      CanonicalDecidesEquality(BindingJson(Last(r).binding), binding);
    }
  }
}
