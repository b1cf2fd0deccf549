/**
What the goal and side-question operations are for: exactly when each is
accepted, what the caller can do next, and what a reserved execution carries.
*/
module GoalMeanings {
  import opened Json
  import opened Documents
  import opened Executions
  import opened Goals

  // ---------------------------------------------------------------------
  // Targets
  // ---------------------------------------------------------------------

  ghost predicate Names(v: Option<Value>, max: Option<nat>)
  {
    exists text :: v == Some(Str(text)) && (exists i :: 0 <= i < |text| && !Space(text[i])) && (max.Some? ==> |text| <= max.value)
  }

  /**
  A target names a device, an agent and its profile revision, one of the three
  runtimes and an egress policy, and declares nothing else but toolsets.
  */
  lemma TargetIsExact(target: Value, max: Option<nat>)
    ensures ValidTarget(target, max) <==>
      && target.Obj? && Fields(target) <= {DEVICE_ID, AGENT_REF, RUNTIME, EGRESS_POLICY, REQUIRED_TOOLSETS}
      && Names(Get(target, DEVICE_ID), max)
      && Get(target, AGENT_REF).Some?
      && Names(Get(Get(target, AGENT_REF).value, AGENT_ID), max) && Names(Get(Get(target, AGENT_REF).value, PROFILE_REVISION), max)
      && Get(target, RUNTIME) in {Some(Str(U("pi"))), Some(Str(U("claude"))), Some(Str(U("codex")))}
      && Get(target, EGRESS_POLICY) !in {None, Some(Null), Some(Bool(false)), Some(Num(0)), Some(Str([]))}
  {
    hide Get, Given, Names, Fields, TargetKey, Is, Truthy;
    RuntimeIs(Get(target, RUNTIME));
    PolicyIs(Get(target, EGRESS_POLICY));
    GivenIsNamed(Get(target, DEVICE_ID), max);
    GivenIsNamed(GetIn(Get(target, AGENT_REF), AGENT_ID), max);
    GivenIsNamed(GetIn(Get(target, AGENT_REF), PROFILE_REVISION), max);
    OnlyDeclared(target);
  }

  lemma RuntimeIs(v: Option<Value>)
    ensures Is(v, U("pi")) || Is(v, U("claude")) || Is(v, U("codex")) <==> v in {Some(Str(U("pi"))), Some(Str(U("claude"))), Some(Str(U("codex")))}
  {
  }

  lemma PolicyIs(v: Option<Value>)
    ensures Truthy(v) <==> v !in {None, Some(Null), Some(Bool(false)), Some(Num(0)), Some(Str([]))}
  {
  }

  lemma GivenIsNamed(v: Option<Value>, max: Option<nat>)
    ensures Given(v, max) <==> Names(v, max)
    ensures v.None? ==> !Given(v, max)
  {
  }

  lemma OnlyDeclared(target: Value)
    ensures target.Obj? ==> ((forall i :: 0 <= i < |target.members| ==> TargetKey(target.members[i].key)) <==>
                             Fields(target) <= {DEVICE_ID, AGENT_REF, RUNTIME, EGRESS_POLICY, REQUIRED_TOOLSETS})
  {
    if target.Obj? {
      assert forall i :: 0 <= i < |target.members| ==> KeysOf(target)[i] == target.members[i].key && KeysOf(target)[i] in Fields(target);
    }
  }

  // ---------------------------------------------------------------------
  // The execution a step reserves
  // ---------------------------------------------------------------------

  /** The payload is for a fresh session, asks for a document of this contract and carries this instruction. */
  ghost predicate Conveys(input: Input, target: Value, instruction: Text, contract: Text)
  {
    && SameJson(RebuiltTarget(input), target)
    && Is(Get(target, DEVICE_ID), input.deviceId)
    && Is(Get(input.payload, INSTRUCTION), instruction)
    && Is(GetIn(Get(input.payload, SESSION), MODE), U("fresh"))
    && Is(GetIn(Get(input.payload, PROJECTION), MODE), U("result-document"))
    && Is(GetIn(Get(input.payload, PROJECTION), CONTRACT), contract)
  }

  lemma BuiltCarries(taskId: Text, target: Value, instruction: Text, contract: Text, schema: Value)
    requires WellFormed(target) && ValidTarget(target, None) && !Blank(taskId) && !Blank(instruction)
    ensures Conveys(BuildInput(taskId, target, instruction, Projection(contract, schema)), target, instruction, contract)
  {
    hide ValidTarget, Blank, WellFormed, SameJson;
    BuiltIsReadable(taskId, target, instruction, contract, schema, Reserved);
    HostFieldLookup(target, instruction, Projection(contract, schema));
    ReorderedIsTarget(target);
    DeviceGiven(target);
  }

  lemma DeviceGiven(target: Value)
    requires ValidTarget(target, None)
    ensures Get(target, DEVICE_ID).Some? && Get(target, DEVICE_ID).value.Str?
  {
  }

  /** `part` is in `text`, after its first `from` units. */
  predicate Contains(text: Text, from: nat, part: Text)
  {
    from + |part| <= |text| && text[from..from + |part|] == part
  }

  /** The instruction names the objective, then the context. */
  lemma InstructionNames(objective: Text, context: Text)
    ensures var t := GoalInstruction(objective, context);
      Contains(t, 11, objective) && Contains(t, 36 + |objective|, context) && |t| == 36 + |objective| + |context|
  {
    assert |U("Objective:\n")| == 11 && |U("\n\nHost-selected context:\n")| == 25;
  }

  lemma SideInstructionNames(a: BtwArgs)
    ensures var t := BtwInstruction(a);
      && Contains(t, 36, a.snapshotRevision) && Contains(t, 39 + |a.snapshotRevision|, a.snapshot)
      && Contains(t, 56 + |a.snapshotRevision| + |a.snapshot|, a.question)
  {
    assert |U("Host-selected main-thread snapshot (")| == 36 && |U("):\n")| == 3 && |U("\n\nSide question:\n")| == 17;
  }

  // ---------------------------------------------------------------------
  // Goals
  // ---------------------------------------------------------------------

  /** Which goals start, and that the goal is as asked and has its whole budget. */
  lemma StartIsExact(id: Text, objective: Text, target: Value, maxSteps: int, deadline: int, now: int)
    ensures Start(id, objective, target, maxSteps, deadline, now).Ok? <==>
      !Blank(id) && !Blank(objective) && ValidTarget(target, None) && 1 <= maxSteps <= MAX_SAFE && 0 <= now < deadline <= MAX_SAFE
    ensures Start(id, objective, target, maxSteps, deadline, now).Ok? ==>
      var g := Start(id, objective, target, maxSteps, deadline, now).value;
      && g.id == id && g.objective == objective && g.target == target && g.maxSteps == maxSteps && g.deadline == deadline
      && g.status.Active? && g.steps == 0 && g.pending.None?
  {
    hide ValidTarget, Blank;
  }

  /** A waiting goal is due once its time has come; without a time only a resume wakes it. */
  predicate Admits(g: Goal, now: int)
  {
    g.status.Active? || (g.status.Waiting? && g.resumeAt.Some? && g.resumeAt.value <= now)
  }

  /**
  Which steps are reserved: one at a time, within the budget and before the
  deadline. The reserved execution carries the goal's own target, objective and
  the context given, under the id given.
  */
  lemma ReserveIsExact(g: Goal, taskId: Text, context: Text, now: int)
    requires WellFormed(g.target) && ValidTarget(g.target, None)
    ensures ReserveStep(g, taskId, context, now).Ok? <==>
      !Blank(taskId) && 0 <= now <= MAX_SAFE && g.pending.None? && Admits(g, now) && g.steps < g.maxSteps && now < g.deadline
    ensures ReserveStep(g, taskId, context, now).Ok? ==>
      var b := ReserveStep(g, taskId, context, now).value;
      && b.pending.Some? && b.pending.value.phase.Reserved? && b.pending.value.input.taskId == taskId
      && Conveys(b.pending.value.input, g.target, GoalInstruction(g.objective, context), GOAL_CONTRACT)
      && b == g.(status := Active, steps := g.steps + 1, pending := b.pending, resumeAt := None, reason := NoReason)
  {
    hide ValidTarget, Blank, WellFormed, Conveys, Projection, GoalInstruction, BuildInput;
    if ReserveStep(g, taskId, context, now).Ok? {
      InstructionIsText(g.objective, context);
      BuiltCarries(taskId, g.target, GoalInstruction(g.objective, context), GOAL_CONTRACT, GOAL_SCHEMA);
    }
  }

  /** Only an active or waiting goal is paused, and while it is paused no step is reserved. */
  lemma PauseIsExact(g: Goal, taskId: Text, context: Text, now: int)
    ensures Pause(g).Ok? <==> g.status.Active? || g.status.Waiting?
    ensures Pause(g).Ok? ==> Pause(g).value == g.(status := Paused) && ReserveStep(Pause(g).value, taskId, context, now).Err?
  {
  }

  predicate HasBudget(g: Goal, now: int)
  {
    g.steps < g.maxSteps && now < g.deadline
  }

  /**
  A resumed goal goes on: with steps and time left it is active again, keeps its
  execution if it has one, and takes the next step if it has none.
  */
  lemma ResumeGoesOn(g: Goal, taskId: Text, context: Text, now: int)
    requires g.status.Paused? || g.status.Waiting? || g.status.Blocked?
    requires HasBudget(g, now) && SafeTime(now)
    ensures Resume(g, now).Ok? && Resume(g, now).value.status.Active? && Resume(g, now).value.pending == g.pending
    ensures g.pending.None? && !Blank(taskId) ==> ReserveStep(Resume(g, now).value, taskId, context, now).Ok?
  {
  }

  /** Without them it ends; any other goal is refused. */
  lemma ResumeIsExact(g: Goal, now: int)
    ensures Resume(g, now).Ok? <==>
      (g.status.Paused? || g.status.Waiting? || g.status.Blocked?) && (SafeTime(now) || g.steps >= g.maxSteps)
    ensures Resume(g, now).Ok? ==>
      Resume(g, now).value == g.(status := if HasBudget(g, now) then Active else Exhausted, reason := NoReason, resumeAt := None)
  {
  }

  /** Pausing and resuming an active goal within its budget gives it back. */
  lemma PauseResume(g: Goal, now: int)
    requires g.status.Active? && HasBudget(g, now) && SafeTime(now) && g.reason.NoReason? && g.resumeAt.None?
    ensures Pause(g).Ok? && Resume(Pause(g).value, now) == Ok(g)
  {
  }

  /** Everything but a complete or exhausted goal can be cancelled, and then nothing more is admitted. */
  lemma CancelIsExact(g: Goal, taskId: Text, context: Text, now: int)
    ensures Cancel(g).Ok? <==> !g.status.Complete? && !g.status.Exhausted?
    ensures Cancel(g).Ok? ==>
      var b := Cancel(g).value;
      && b == g.(status := Cancelled)
      && ReserveStep(b, taskId, context, now).Err? && Pause(b).Err? && Resume(b, now).Err? && Cancel(b) == Ok(b)
  {
  }

  // ---------------------------------------------------------------------
  // Side questions
  // ---------------------------------------------------------------------

  /** A side question is independent: another agent, another destination and another task than the main one. */
  lemma ReserveBtwIsExact(a: BtwArgs, mainAgentId: Text)
    requires WellFormed(a.target) && ValidBtwArgs(a)
    ensures ReserveBtw(a, mainAgentId).Ok? <==>
      !Is(GetIn(Get(a.target, AGENT_REF), AGENT_ID), mainAgentId) && a.destination != a.mainDestination && a.taskId != a.mainTaskId
    ensures ReserveBtw(a, mainAgentId).Ok? ==>
      var b := ReserveBtw(a, mainAgentId).value;
      && b.id == a.id && b.mainTaskId == a.mainTaskId && b.mainAgentId == mainAgentId && b.mainDestination == a.mainDestination
      && b.destination == a.destination && b.snapshotRevision == a.snapshotRevision && b.status.Asked? && b.answer.None?
      && b.pending.phase.Reserved? && b.pending.input.taskId == a.taskId
      && Conveys(b.pending.input, a.target, BtwInstruction(a), BTW_CONTRACT)
  {
    hide Blank, WellFormed, Conveys, Projection, BtwInstruction, BuildInput;
    AgentGiven(a.target);
    BtwInstructionIsText(a);
    BuiltCarries(a.taskId, a.target, BtwInstruction(a), BTW_CONTRACT, BTW_SCHEMA);
  }

  lemma AgentGiven(target: Value)
    requires ValidTarget(target, None)
    ensures GetIn(Get(target, AGENT_REF), AGENT_ID).Some? && GetIn(Get(target, AGENT_REF), AGENT_ID).value.Str?
  {
  }

  /** The document is exactly an answer. */
  ghost predicate Gives(d: Value, answer: Text)
  {
    HasExactly(d, [ANSWER, CONTRACT]) && Is(Get(d, CONTRACT), BTW_CONTRACT) && Is(Get(d, ANSWER), answer) && !Blank(answer)
  }

  /** An exact answer answers the question; any other completion, and any other end, blocks it with its reason. */
  lemma SettleBtwMeans(b: Btw, seen: Observed)
    requires seen.SeenComplete? && seen.document.Some? ==> WellFormed(seen.document.value)
    ensures var r := SettleBtw(b, seen);
      && r.(status := b.status, answer := b.answer, reason := b.reason) == b
      && (forall answer :: r.status.Answered? && r.answer == Some(answer) <==>
            seen.SeenComplete? && seen.document.Some? && Gives(seen.document.value, answer))
      && (r.status.Answered? ==> r.answer.Some?)
      && (!r.status.Answered? ==>
            r.status.SideBlocked? && r.answer == b.answer && r.reason == if seen.SeenComplete? then InvalidResult else SideFailedOrCancelled)
  {
    hide ParseAnswer, Gives, WellFormed;
    if seen.SeenComplete? && seen.document.Some? {
      forall answer
        ensures ParseAnswer(seen.document) == Ok(answer) <==> Gives(seen.document.value, answer)
      {
        ParsedGives(seen.document.value, answer);
      }
    } else {
      NothingParsed();
    }
  }

  lemma ParsedGives(d: Value, answer: Text)
    requires WellFormed(d)
    ensures ParseAnswer(Some(d)) == Ok(answer) <==> Gives(d, answer)
  {
    ParseAnswerIsExact(d, answer);
  }

  lemma NothingParsed()
    ensures ParseAnswer(None).Err?
  {
  }

  // ---------------------------------------------------------------------
  // What a reload refuses
  // ---------------------------------------------------------------------

  /** A loaded goal's execution is for the goal's own target; one that was widened is refused. */
  lemma ReadableMeans(g: Goal)
    requires WellFormed(g.target) && ReadableGoal(g)
    ensures 0 <= g.steps <= g.maxSteps && 1 <= g.maxSteps && 0 <= g.deadline <= MAX_SAFE && ValidTarget(g.target, None)
    ensures g.pending.Some? && WellFormed(g.pending.value.input.payload) && WellFormed(RebuiltTarget(g.pending.value.input)) ==>
      var input := g.pending.value.input;
      exists instruction :: !Blank(instruction) && Conveys(input, g.target, instruction, GOAL_CONTRACT)
  {
    hide ValidTarget, Blank, WellFormed, SameJson, Canonical;
    if g.pending.Some? && WellFormed(g.pending.value.input.payload) && WellFormed(RebuiltTarget(g.pending.value.input)) {
      var input := g.pending.value.input;
      CanonicalDecidesEquality(RebuiltTarget(input), g.target);
      SameDevice(input, g.target);
      assert Conveys(input, g.target, Get(input.payload, INSTRUCTION).value.text, GOAL_CONTRACT);
    }
  }

  lemma SameDevice(input: Input, target: Value)
    requires input.payload.Obj? && WellFormed(target) && SameJson(RebuiltTarget(input), target)
    ensures Is(Get(target, DEVICE_ID), input.deviceId)
  {
    var x := RebuiltTarget(input).members;
    assert x[0] == Member(DEVICE_ID, Str(input.deviceId));
    assert HasSame(x[0], target.members);
    var j :| 0 <= j < |target.members| && x[0].key == target.members[j].key && SameJson(x[0].val, target.members[j].val);
    LookupFinds(target.members, j);
  }

  lemma {:induction false} LookupFinds(ms: seq<Member>, j: nat)
    requires DistinctKeys(ms) && j < |ms|
    ensures Lookup(ms, ms[j].key) == Some(ms[j].val)
  {
    if j > 0 { LookupFinds(ms[1..], j - 1); }
  }
}
