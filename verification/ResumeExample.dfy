/**
A run, for every target, that ends in the one stop nobody chases: a goal of one
step is reserved, sent, paused while its execution runs, and resumed.
*/
module ResumeExample {
  import opened Json
  import opened Documents
  import opened Executions
  import opened CasStore
  import opened Servers
  import opened Protocol
  import opened Invariants
  import opened Chase
  import Goals

  function End(run: seq<State>): State
    requires run != []
  {
    run[|run| - 1]
  }

  lemma Go(run: seq<State>, a: Action) returns (longer: seq<State>)
    requires IsRun(run)
    ensures IsRun(longer) && End(longer) == Step(End(run), a)
  {
    hide Step;
    longer := run + [Step(End(run), a)];
    RunExtends(run, Step(End(run), a));
  }

  const CLOCK: Oracle := Oracle(0, true, [])

  /** The calls so far have returned, and this is the goal. */
  ghost predicate Scene(run: seq<State>, calls: nat, id: Text, revision: int, g: Goals.Goal, ids: set<Text>, server: Server)
  {
    && IsRun(run) && var s := End(run);
    && (forall c :: c in s.calls ==> c < calls)
    && Key(GoalKind, id) in s.table.rows && s.table.rows[Key(GoalKind, id)].revision == revision
    && s.table.rows[Key(GoalKind, id)].value == GoalRec(g)
    && s.table.ids == ids && s.server == server
  }

  const NOTHING: Server := Server(map[], map[], map[], {}, {})

  function Fresh(id: Text, target: Value): Goals.Goal
  {
    Goals.Goal(id, id, target, Goals.Active, 1, 10, 0, None, None, None, Goals.NoReason)
  }

  lemma Begins(id: Text, target: Value) returns (run: seq<State>)
    requires !Blank(id) && WellFormed(target) && ValidTarget(target, None)
    ensures Scene(run, 1, id, 0, Fresh(id, target), {}, NOTHING)
  {
    hide ValidTarget, Blank;
    var s := Init([], 0);
    run := Go([s], Invoke(0, StartGoal(id, id, target, 1, 10)));
    run := Go(run, Advance(0, CLOCK));
  }

  /** A call loads the goal and holds it as its snapshot. */
  lemma Loads(run: seq<State>, calls: nat, op: Op, revision: int, g: Goals.Goal, ids: set<Text>, server: Server) returns (longer: seq<State>)
    requires KeyOfOp(op).kind.GoalKind? && Scene(run, calls, KeyOfOp(op).id, revision, g, ids, server)
    requires (op.ReserveStep? || op.PauseGoal? || op.Send?) && op.revision == revision
    ensures Scene(longer, calls + 1, KeyOfOp(op).id, revision, g, ids, server)
    ensures End(longer) == Put(End(run), calls, NewCall(op).(pc := Loaded(Snapshot(revision, GoalRec(g)))))
  {
    hide Fetch, Readable;
    var s := End(run);
    RowIsLatest(run, |run| - 1, KeyOfOp(op));
    FetchIgnoresCalls(s, calls, NewCall(op), KeyOfOp(op));
    longer := Go(run, Invoke(calls, op));
    assert End(longer) == Put(s, calls, NewCall(op));
    longer := Go(longer, Advance(calls, CLOCK));
  }

  /** The call writes what it makes of its snapshot. */
  lemma Saves(run: seq<State>, calls: nat, c: nat, op: Op, revision: int, g: Goals.Goal, ids: set<Text>, server: Server,
              b: Goals.Goal, newId: Option<Text>, next: Next) returns (longer: seq<State>)
    requires KeyOfOp(op).kind.GoalKind? && Scene(run, calls, KeyOfOp(op).id, revision, g, ids, server) && 0 <= revision < 5
    requires c < calls && c in End(run).calls && End(run).calls[c] == NewCall(op).(pc := Loaded(Snapshot(revision, GoalRec(g))))
    requires DecideGoal(op, Snapshot(revision, GoalRec(g)), g, CLOCK) == Save(Some(revision), GoalRec(b), newId, next)
    requires newId.Some? ==> newId.value !in ids
    ensures Scene(longer, calls, KeyOfOp(op).id, revision + 1, b, if newId.Some? then ids + {newId.value} else ids, server)
    ensures c in End(longer).calls
    ensures End(longer).calls[c] ==
      AfterSave(NewCall(op).(pc := Loaded(Snapshot(revision, GoalRec(g)))), Row(revision + 1, false, GoalRec(b)), next)
  {
    hide DecideGoal, Book, AfterSave, WaitingOthers;
    longer := Go(run, Advance(c, CLOCK));
  }

  lemma Reserves(run: seq<State>, id: Text, target: Value, taskId: Text) returns (longer: seq<State>, g: Goals.Goal)
    requires Scene(run, 1, id, 0, Fresh(id, target), {}, NOTHING) && !Blank(taskId)
    ensures Scene(longer, 2, id, 1, g, {taskId}, NOTHING)
    ensures Holds(GoalRec(g), taskId) && g.pending.value.phase.Reserved?
    ensures g == Fresh(id, target).(steps := 1, pending := g.pending)
  {
    hide Scene, BuildInput, Goals.GoalInstruction, Projection, Blank, IsRun;
    var op := ReserveStep(id, 0, taskId, []);
    var g0 := Fresh(id, target);
    longer := Loads(run, 1, op, 0, g0, {}, NOTHING);
    g := Goals.ReserveStep(g0, taskId, [], 0).value;
    longer := Saves(longer, 2, 1, op, 0, g0, {}, NOTHING, g, Some(taskId), Finish);
    assert {} + {taskId} == {taskId};
  }

  lemma Pauses(run: seq<State>, calls: nat, id: Text, revision: int, g: Goals.Goal, ids: set<Text>, server: Server) returns (longer: seq<State>)
    requires Scene(run, calls, id, revision, g, ids, server) && 0 <= revision < 5 && g.status.Active?
    ensures Scene(longer, calls + 1, id, revision + 1, g.(status := Goals.Paused), ids, server)
  {
    hide Scene, IsRun;
    var op := PauseGoal(id, revision);
    longer := Loads(run, calls, op, revision, g, ids, server);
    longer := Saves(longer, calls + 1, calls, op, revision, g, ids, server, g.(status := Goals.Paused), None, Finish);
  }

  /** A step that only moves the call on. */
  lemma MovesOn(run: seq<State>, calls: nat, c: nat, call: Call, id: Text, revision: int, g: Goals.Goal, ids: set<Text>, server: Server,
                pc: Pc) returns (longer: seq<State>)
    requires Scene(run, calls, id, revision, g, ids, server) && c < calls && c in End(run).calls && End(run).calls[c] == call
    requires !call.pc.Done? && !call.pc.Failed? && !call.pc.SecondLook? && !call.pc.Judging?
    requires Decide(End(run), call, CLOCK) == Move(pc)
    ensures Scene(longer, calls, id, revision, g, ids, server)
    ensures c in End(longer).calls && End(longer).calls[c] == call.(pc := pc)
  {
    hide Decide;
    longer := Go(run, Advance(c, CLOCK));
  }

  /** The goal as the sender reads it again. */
  lemma ReadsAgain(run: seq<State>, calls: nat, id: Text, revision: int, g: Goals.Goal, ids: set<Text>, server: Server)
    requires Scene(run, calls, id, revision, g, ids, server)
    ensures Fetch(End(run), Key(GoalKind, id)) == Some(Snapshot(revision, GoalRec(g)))
  {
    hide Fetch;
    RowIsLatest(run, |run| - 1, Key(GoalKind, id));
  }

  lemma Submits(run: seq<State>, calls: nat, c: nat, call: Call, id: Text, revision: int, g: Goals.Goal, ids: set<Text>, input: Input)
    returns (longer: seq<State>)
    requires Scene(run, calls, id, revision, g, ids, NOTHING) && c < calls && c in End(run).calls && End(run).calls[c] == call
    requires call.pc == Submitting(input, revision)
    ensures Scene(longer, calls, id, revision, g, ids, Visible(input.taskId))
    ensures c in End(longer).calls && End(longer).calls[c] == call.(pc := Awaiting(input, revision), sent := Some(input.taskId))
  {
    hide Fetch, DecideBegin, DecideLoaded, DecideSight, DecideJudged, Matches, ReadOffer;
    longer := Go(run, Advance(c, CLOCK));
    longer := Go(longer, World(Visible(input.taskId)));
  }

  function Visible(taskId: Text): Server
  {
    NOTHING.(attempts := map[taskId := Attempt(taskId, [], None)])
  }

  lemma Returns(run: seq<State>, calls: nat, c: nat, call: Call, id: Text, revision: int, g: Goals.Goal, ids: set<Text>, server: Server, input: Input)
    returns (longer: seq<State>)
    requires Scene(run, calls, id, revision, g, ids, server) && c < calls && c in End(run).calls && End(run).calls[c] == call
    requires call.pc == Rereading(input, revision) && KeyOfOp(call.op) == Key(GoalKind, id) && !Goals.Stopped(g)
    ensures Scene(longer, calls, id, revision, g, ids, server)
  {
    hide Fetch, Readable, DecideBegin, DecideLoaded, DecideSight, DecideJudged, Matches, ReadOffer;
    ReadsAgain(run, calls, id, revision, g, ids, server);
    longer := Go(run, Advance(c, CLOCK));
  }

  lemma SavesSending(run: seq<State>, id: Text, g: Goals.Goal, ids: set<Text>) returns (longer: seq<State>, call: Call)
    requires Scene(run, 2, id, 1, g, ids, NOTHING) && g.status.Active? && g.deadline == 10
    requires g.pending.Some? && g.pending.value.phase.Reserved?
    ensures Scene(longer, 3, id, 2, Goals.MarkSending(g), ids, NOTHING)
    ensures 2 in End(longer).calls && End(longer).calls[2] == call && call.op == Send(Key(GoalKind, id), 1, false)
    ensures call.pc == Verify(g.pending.value.input, 2)
  {
    hide Scene, IsRun;
    var op := Send(Key(GoalKind, id), 1, false);
    longer := Loads(run, 2, op, 1, g, ids, NOTHING);
    longer := Saves(longer, 3, 2, op, 1, g, ids, NOTHING, Goals.MarkSending(g), None, VerifySaved);
    call := AfterSave(NewCall(op).(pc := Loaded(Snapshot(1, GoalRec(g)))), Row(2, false, GoalRec(Goals.MarkSending(g))), VerifySaved);
  }

  lemma Sends(run: seq<State>, id: Text, g: Goals.Goal, ids: set<Text>) returns (longer: seq<State>)
    requires Scene(run, 2, id, 1, g, ids, NOTHING) && g.status.Active? && g.deadline == 10
    requires g.pending.Some? && g.pending.value.phase.Reserved?
    ensures Scene(longer, 3, id, 2, Goals.MarkSending(g), ids, Visible(g.pending.value.input.taskId))
  {
    hide Scene, IsRun, Fetch, DecideBegin, DecideLoaded, DecideSight, DecideJudged, Matches;
    var input, b := g.pending.value.input, Goals.MarkSending(g);
    var call: Call;
    longer, call := SavesSending(run, id, g, ids);
    OfferMissing(longer, 3, id, 2, b, ids, input);
    longer := MovesOn(longer, 3, 2, call, id, 2, b, ids, NOTHING, Recheck(input, 2));
    call := call.(pc := Recheck(input, 2));
    ReadsAgain(longer, 3, id, 2, b, ids, NOTHING);
    longer := MovesOn(longer, 3, 2, call, id, 2, b, ids, NOTHING, Submitting(input, 2));
    call := call.(pc := Submitting(input, 2));
    longer := Submits(longer, 3, 2, call, id, 2, b, ids, input);
    call := call.(pc := Awaiting(input, 2), sent := Some(input.taskId));
    AttemptVisible(longer, 3, id, 2, b, ids, input);
    longer := MovesOn(longer, 3, 2, call, id, 2, b, ids, Visible(input.taskId), Rereading(input, 2));
    longer := Returns(longer, 3, 2, call.(pc := Rereading(input, 2)), id, 2, b, ids, Visible(input.taskId), input);
  }

  lemma OfferMissing(run: seq<State>, calls: nat, id: Text, revision: int, g: Goals.Goal, ids: set<Text>, input: Input)
    requires Scene(run, calls, id, revision, g, ids, NOTHING)
    ensures ReadOffer(End(run).server, input).NoOffer?
  {
  }

  lemma AttemptVisible(run: seq<State>, calls: nat, id: Text, revision: int, g: Goals.Goal, ids: set<Text>, input: Input)
    requires Scene(run, calls, id, revision, g, ids, Visible(input.taskId))
    ensures input.taskId in End(run).server.attempts
  {
  }

  /** For every target and every ids there is such a run, of three returned calls on one goal and a fourth that resumes it. */
  lemma StopWithoutChase(id: Text, target: Value, taskId: Text) returns (run: seq<State>)
    requires !Blank(id) && !Blank(taskId) && WellFormed(target) && ValidTarget(target, None)
    ensures IsRun(run) && LeftRunning(End(run), 4, Key(GoalKind, id), taskId)
  {
    hide ValidTarget, Blank, WellFormed, LeftRunning;
    var k := Key(GoalKind, id);
    run := Begins(id, target);
    var g: Goals.Goal;
    run, g := Reserves(run, id, target, taskId);
    run := Sends(run, id, g, {taskId});
    g := Goals.MarkSending(g);
    run := Pauses(run, 3, id, 2, g, {taskId}, Visible(taskId));
    g := g.(status := Goals.Paused);
    assert SpentWhilePaused(End(run), k, g, taskId, 0);
    ResumeLeavesRunning(run, |run| - 1, 4, id, g, taskId, 0);
    var longer :| IsRun(longer) && run[..|run|] < longer && LeftRunning(longer[|longer| - 1], 4, k, taskId);
    run := longer;
  }
}
