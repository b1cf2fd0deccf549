/**
What holds of a goal over whole runs: the step budget, one unsettled execution
at a time, and the lifecycle.
*/
module GoalGuarantees {
  import opened Json
  import opened Documents
  import opened Executions
  import opened CasStore
  import opened Servers
  import opened Protocol
  import opened Invariants
  import opened Decisions
  import opened Guarantees
  import Goals
  import Runs

  // ---------------------------------------------------------------------
  // The step budget
  // ---------------------------------------------------------------------

  function Steps(r: Record): int
  {
    if r.GoalRec? then r.goal.steps else 0
  }

  ghost function ReservedBefore(reserved: map<Text, Reservation>, k: Key, n: int): set<Text>
  {
    set t | t in reserved && reserved[t].key == k && reserved[t].revision < n
  }

  ghost function ReservedFor(reserved: map<Text, Reservation>, k: Key): set<Text>
  {
    set t | t in reserved && reserved[t].key == k
  }

  ghost predicate Reservations(reserved: map<Text, Reservation>, k: Key, h: seq<Record>)
  {
    && AllBound(reserved, k, h)
    && forall t :: t in reserved && reserved[t].key == k ==>
         0 <= reserved[t].revision < |h| && PendingOf(h[reserved[t].revision]) == Some(Pending(reserved[t].input, Reserved))
         && reserved[t].input.taskId == t
  }

  predicate StartsAt(h: seq<Record>, i: nat)
    requires i < |h|
  {
    PendingOf(h[i]).Some? && (i == 0 || PendingOf(h[i - 1]).None?)
  }

  /** The versions at which an execution appears are the versions that reserved one. */
  lemma StartIsReservation(reserved: map<Text, Reservation>, k: Key, h: seq<Record>, i: nat)
    requires Reservations(reserved, k, h) && i < |h|
    ensures StartsAt(h, i) ==>
      var t := PendingOf(h[i]).value.input.taskId;
      t in reserved && reserved[t].key == k && reserved[t].revision == i
    ensures forall t :: t in reserved && reserved[t].key == k && reserved[t].revision == i ==> StartsAt(h, i) && Holds(h[i], t)
  {
    assert BoundAt(reserved, k, h, i);
    if StartsAt(h, i) {
      var input := PendingOf(h[i]).value.input;
      var from := reserved[input.taskId].revision;
      assert forall j :: from <= j <= i ==> HasInput(h[j], input);
    }
  }

  lemma {:induction false} StepsCount(e: Evidence, reserved: map<Text, Reservation>, k: Key, h: seq<Record>, n: nat)
    requires VersionsOk(e, k, h) && k.kind.GoalKind? && Reservations(reserved, k, h) && 1 <= n <= |h|
    ensures |ReservedBefore(reserved, k, n)| == Steps(h[n - 1])
  {
    var i := n - 1;
    StartIsReservation(reserved, k, h, i);
    var before := ReservedBefore(reserved, k, i);
    if i == 0 {
      FirstHasNoSteps(e, k, h);
      assert ReservedBefore(reserved, k, n) == {};
    } else {
      StepsCount(e, reserved, k, h, i);
      StepCounts(e, k, h, i);
      if StartsAt(h, i) {
        assert ReservedBefore(reserved, k, n) == before + {PendingOf(h[i]).value.input.taskId};
      } else {
        assert ReservedBefore(reserved, k, n) == before;
      }
    }
  }

  lemma FirstHasNoSteps(e: Evidence, k: Key, h: seq<Record>)
    requires VersionsOk(e, k, h) && k.kind.GoalKind?
    ensures Steps(h[0]) == 0 && !StartsAt(h, 0)
  {
    assert VersionOk(k, h[0]);
  }

  lemma StepCounts(e: Evidence, k: Key, h: seq<Record>, i: nat)
    requires VersionsOk(e, k, h) && k.kind.GoalKind? && 1 <= i < |h|
    ensures Steps(h[i]) == Steps(h[i - 1]) + if StartsAt(h, i) then 1 else 0
  {
    assert StepOk(e, h, i - 1);
    assert VersionOk(k, h[i]) && VersionOk(k, h[i - 1]);
  }

  /** An execution stays pending until it is settled. */
  lemma {:induction false} HeldUntilSettled(e: Evidence, k: Key, h: seq<Record>, i: nat, j: nat, t: Text)
    requires VersionsOk(e, k, h) && i <= j < |h| && Holds(h[i], t)
    ensures Holds(h[j], t) || t in e.settled
  {
    if i < j {
      HeldUntilSettled(e, k, h, i, j - 1, t);
      StepCarries(e, k, h, j - 1);
    }
  }

  ghost predicate GoalAt(s: State, id: Text, g: Goals.Goal)
  {
    && Key(GoalKind, id) in s.table.rows && s.table.rows[Key(GoalKind, id)].value == GoalRec(g)
  }

  lemma GoalVersions(s: State, id: Text, g: Goals.Goal)
    requires Inv(s) && GoalAt(s, id, g)
    ensures var k := Key(GoalKind, id);
      && k in s.history && s.history[k] != [] && VersionsOk(Proof(s), k, s.history[k]) && s.history[k][|s.history[k]| - 1] == GoalRec(g)
      && Reservations(s.reserved, k, s.history[k]) && Goals.GoalOk(g)
  {
    hide CallsOk, PairsOk, AllBound, StepOk, SubmitsOk, AcceptedOk;
    var k := Key(GoalKind, id);
    assert RowOk(s.table.rows[k], s.history[k]) && VersionsOk(Proof(s), k, s.history[k]) && AllBound(s.reserved, k, s.history[k]);
    assert VersionOk(k, s.history[k][|s.history[k]| - 1]);
    forall t | t in s.reserved && s.reserved[t].key == k
      ensures ReservationOk(s.history, t, s.reserved[t])
    {
    }
  }

  /**
  A goal has reserved exactly `steps` distinct task ids, never more than its
  budget, and every one of them has settled except the one it still holds.
  */
  lemma GoalWithinBudget(run: seq<State>, n: nat, id: Text, g: Goals.Goal)
    requires IsRun(run) && n < |run|
    requires GoalAt(run[n], id, g)
    ensures var s := run[n];
      var ids := ReservedFor(s.reserved, Key(GoalKind, id));
      && |ids| == g.steps <= g.maxSteps
      && forall t :: t in ids ==> t in Settled(s.server) || Holds(GoalRec(g), t)
  {
    hide IsRun, Inv, VersionsOk;
    var s := run[n];
    var k := Key(GoalKind, id);
    Reachable(run, n);
    GoalVersions(s, id, g);
    var h := s.history[k];
    StepsCount(Proof(s), s.reserved, k, h, |h|);
    assert ReservedFor(s.reserved, k) == ReservedBefore(s.reserved, k, |h|);
    forall t | t in ReservedFor(s.reserved, k)
      ensures t in Settled(s.server) || Holds(GoalRec(g), t)
    {
      HeldUntilSettled(Proof(s), k, h, s.reserved[t].revision, |h| - 1, t);
    }
  }

  // ---------------------------------------------------------------------
  // The lifecycle
  // ---------------------------------------------------------------------

  predicate Ended(g: Goals.Goal)
  {
    g.status.Complete? || g.status.Cancelled? || g.status.Exhausted?
  }

  ghost predicate GoalVersion(s: State, id: Text, i: nat, g: Goals.Goal)
  {
    var k := Key(GoalKind, id);
    k in s.history && i < |s.history[k]| && s.history[k][i] == GoalRec(g)
  }

  lemma {:induction false} EndedStays(e: Evidence, k: Key, h: seq<Record>, i: nat, j: nat, a: Goals.Goal)
    requires VersionsOk(e, k, h) && i <= j < |h| && h[i] == GoalRec(a) && Ended(a)
    ensures h[j].GoalRec? && h[j].goal.status == a.status
    ensures a.status.Complete? ==> i == j
  {
    if i < j {
      EndedStays(e, k, h, i, j - 1, a);
      assert StepOk(e, h, j - 1);
    }
  }

  /** `complete`, `cancelled` and `exhausted` are each for ever; a complete goal is never even written again. */
  lemma EndedForEver(run: seq<State>, n: nat, id: Text, i: nat, j: nat, a: Goals.Goal, b: Goals.Goal)
    requires IsRun(run) && n < |run|
    requires var s := run[n]; GoalVersion(s, id, i, a) && GoalVersion(s, id, j, b) && i <= j
    requires Ended(a)
    ensures b.status == a.status && (a.status.Complete? ==> i == j)
  {
    hide IsRun, VersionsOk, CallsOk, PairsOk, ReservedOk, SubmitsOk;
    var s := run[n];
    Reachable(run, n);
    var k := Key(GoalKind, id);
    assert VersionsOk(Proof(s), k, s.history[k]);
    EndedStays(Proof(s), k, s.history[k], i, j, a);
  }

  /** Waiting, blocked and complete goals hold no execution. */
  lemma RestingHoldsNothing(run: seq<State>, n: nat, id: Text, i: nat, g: Goals.Goal)
    requires IsRun(run) && n < |run|
    requires GoalVersion(run[n], id, i, g) && (g.status.Waiting? || g.status.Blocked? || g.status.Complete?)
    ensures g.pending.None?
  {
    hide IsRun, CallsOk, PairsOk, ReservedOk, SubmitsOk, StepOk;
    var s := run[n];
    Reachable(run, n);
    var k := Key(GoalKind, id);
    assert VersionsOk(Proof(s), k, s.history[k]);
    assert VersionOk(k, s.history[k][i]);
  }

  /** The device's own, unsealed completion of this task is there, and no cancellation is requested. */
  ghost predicate SeenUncancelled(s: State, t: Text, document: Option<Value>)
  {
    && t in s.server.attempts && t !in s.server.cancels && t in s.server.terminals
    && s.server.terminals[t] == Terminal(t, true, false, document)
  }

  /** A completion is only noted while no cancellation is requested, from an unsealed terminal of that very task. */
  lemma NotedUncancelled(s: State, c: nat, o: Oracle, t: Text)
    requires Inv(s) && c in s.calls && t !in s.completed && t in Noted(s, s.calls[c], o).completed
    ensures SeenUncancelled(s, t, Noted(s, s.calls[c], o).completed[t])
  {
    hide DataOk, PairsOk, StopOk, RereadOk;
    assert CallOk(Known(s), s.calls[c]);
  }

  lemma ActNotesNothing(s: State, c: nat, o: Oracle)
    requires c in s.calls
    ensures Act(s, c, o).completed == s.completed
  {
    hide Decide, Commit, AfterSave, Book;
  }

  lemma StepNotes(s: State, a: Action, t: Text)
    requires Inv(s) && t !in s.completed && t in Step(s, a).completed
    ensures SeenUncancelled(s, t, Step(s, a).completed[t])
  {
    hide Act, Inv, Noted, SeenUncancelled;
    if a.Advance? && Live(s, a.c) {
      ActNotesNothing(Noted(s, s.calls[a.c], a.o), a.c, a.o);
      NotedUncancelled(s, a.c, a.o, t);
    }
  }

  /** Every completion on record was seen in an earlier state of the run, uncancelled. */
  lemma {:induction false} CompletionWasSeen(run: seq<State>, n: nat, t: Text)
    requires IsRun(run) && n < |run| && t in run[n].completed
    ensures exists m :: 0 <= m < n && SeenUncancelled(run[m], t, run[n].completed[t])
  {
    hide Step, Inv, SeenUncancelled;
    if n > 0 {
      Reachable(run, n - 1);
      if t in run[n - 1].completed {
        RunsGrow(run, n - 1, n);
        CompletionWasSeen(run, n - 1, t);
      } else {
        assert MovesAt(run, n - 1);
        var a :| run[n] == Step(run[n - 1], a);
        StepNotes(run[n - 1], a, t);
      }
    }
  }

  /**
  A goal becomes complete only by settling its pending execution, of which the
  device reported a completion that reads as `complete` and that the Host
  accepted; and it was seen at a moment when no cancellation was requested.
  */
  lemma CompleteIsEarned(run: seq<State>, n: nat, id: Text, i: nat, g: Goals.Goal)
    requires IsRun(run) && n < |run|
    requires GoalVersion(run[n], id, i, g) && g.status.Complete?
    ensures var s := run[n];
      && i > 0 && g.lastTaskId.Some? && var t := g.lastTaskId.value;
      && Holds(s.history[Key(GoalKind, id)][i - 1], t)
      && t in s.completed && t in s.server.terminals && s.server.terminals[t].document == s.completed[t]
      && Reads(s.completed[t], Decision.Complete) && (t, Decision.Complete) in s.accepted
      && exists m :: 0 <= m < n && SeenUncancelled(run[m], t, s.completed[t])
  {
    hide IsRun, CallsOk, PairsOk, ReservedOk, SubmitsOk, Reads, SeenUncancelled;
    var s := run[n];
    Reachable(run, n);
    var k := Key(GoalKind, id);
    var h := s.history[k];
    assert VersionsOk(Proof(s), k, h);
    if i > 0 {
      assert StepOk(Proof(s), h, i - 1);
      assert VersionOk(k, h[i - 1]);
      CompletionWasSeen(run, n, g.lastTaskId.value);
    }
  }

  // ---------------------------------------------------------------------
  // The clock
  // ---------------------------------------------------------------------

  ghost predicate Sends(a: Option<Pending>, b: Option<Pending>)
  {
    a.Some? && b.Some? && a.value.phase.Reserved? && b.value.phase.Sending?
  }

  /** What the clock allows a write that makes `b` of the snapshot, or of nothing. */
  ghost predicate GoalTimely(base: Option<Snapshot>, b: Goals.Goal, now: int)
  {
    if base.None? then now < b.deadline && b.steps == 0 && b.pending.None?
    else base.value.value.GoalRec? && GoalMoves(base.value.value.goal, b, now)
  }

  ghost predicate GoalMoves(g: Goals.Goal, b: Goals.Goal, now: int)
  {
    && (b.pending.Some? && g.pending.None? ==>
          now < g.deadline && g.steps < g.maxSteps && (g.status.Waiting? ==> g.resumeAt.Some? && g.resumeAt.value <= now))
    && (Sends(g.pending, b.pending) ==> now < g.deadline && g.status.Active?)
    && (b.status.Exhausted? && !g.status.Exhausted? ==> now >= g.deadline || g.steps >= g.maxSteps)
  }

  lemma LoadedOnTime(op: Op, row: Snapshot, g: Goals.Goal, o: Oracle)
    ensures var eff := DecideGoal(op, row, g, o);
      eff.Save? ==> eff.value.GoalRec? && GoalMoves(g, eff.value.goal, o.now)
  {
    hide BuildInput, Goals.GoalInstruction, Projection, Blank;
  }

  lemma JudgedOnTime(row: Snapshot, decision: Decision, o: Oracle)
    ensures var eff := DecideJudged(row, decision, o);
      eff.Save? && eff.value.GoalRec? ==> GoalTimely(Some(row), eff.value.goal, o.now)
  {
  }

  lemma SightOnTime(row: Snapshot, input: Input, sight: Sight, o: Oracle)
    ensures var eff := DecideSight(row, input, sight, o);
      eff.Save? && eff.value.GoalRec? ==> GoalTimely(Some(row), eff.value.goal, o.now)
  {
    hide ReadReport, Goals.SettleBtw, Runs.Reconcile;
  }

  lemma BeginOnTime(s: State, op: Op, o: Oracle)
    ensures var eff := DecideBegin(s, op, o);
      eff.Save? && eff.value.GoalRec? ==> GoalTimely(None, eff.value.goal, o.now)
  {
    hide ValidTarget, Blank, Runs.Start, Fetch, Goals.ValidBtwArgs;
  }

  /**
  Whatever the call, wherever it stands and however stale its snapshot: it starts,
  reserves or sends only before the deadline and within the budget, wakes a
  waiting goal only when it is due, and exhausts a goal only when the deadline
  or the budget is reached.
  */
  lemma GoalOnTime(s: State, call: Call, o: Oracle)
    requires Decide(s, call, o).Save? && Decide(s, call, o).value.GoalRec?
    ensures GoalTimely(RowOf(call.pc), Decide(s, call, o).value.goal, o.now)
  {
    hide Fetch, ReadOffer, DecideBegin, DecideGoal, DecideSight, DecideJudged, Matches, Goals.ReserveBtw, GoalMoves, DecideRun, DecideBtw;
    match call.pc
    case Begin => BeginOnTime(s, call.op, o);
    case Loaded(row) =>
      if row.value.GoalRec? { LoadedOnTime(call.op, row, row.value.goal, o); } else { OthersKeepKind(call.op, row, o); }
    case SecondLook(row, input, terminal) => SightOnTime(row, input, Observe(s.server, input, terminal), o);
    case Judging(row, _, decision) => JudgedOnTime(row, decision, o);
    case _ =>
  }

  lemma OthersKeepKind(op: Op, row: Snapshot, o: Oracle)
    requires !row.value.GoalRec?
    ensures var eff := DecideLoaded(op, row, o); eff.Save? ==> !eff.value.GoalRec?
  {
    hide Runs.Answer, Runs.Cancel, Runs.ChangeContext, Runs.Close, Runs.Last;
  }

  // ---------------------------------------------------------------------
  // Side questions
  // ---------------------------------------------------------------------

  ghost predicate SideVersion(s: State, id: Text, i: nat, b: Goals.Btw)
  {
    var k := Key(BtwKind, id);
    k in s.history && i < |s.history[k]| && s.history[k][i] == BtwRec(b)
  }

  ghost predicate SideKept(e: Evidence, a: Goals.Btw, b: Goals.Btw)
  {
    && b.(status := a.status, pending := a.pending, answer := a.answer, reason := a.reason) == a
    && b.pending.input == a.pending.input
    && (a.status.SideCancelled? ==> b.status.SideCancelled?)
    && (a.status.Answered? ==> b.status.Answered? && b.answer == a.answer)
    && (b.status.Answered? && !a.status.Answered? ==> b.answer.Some? && Goals.Reported(e, a.pending.input.taskId, b.answer.value))
  }

  lemma {:induction false} SideStays(e: Evidence, k: Key, h: seq<Record>, i: nat, j: nat, a: Goals.Btw)
    requires VersionsOk(e, k, h) && i <= j < |h| && h[i] == BtwRec(a)
    ensures h[j].BtwRec? && SideKept(e, a, h[j].btw)
  {
    hide ParseAnswer;
    if i < j {
      SideStays(e, k, h, i, j - 1, a);
      assert StepOk(e, h, j - 1);
    }
  }

  /**
  A side question keeps its binding, its destination and its one input for
  ever; a cancelled one stays cancelled, an answered one keeps its answer, and
  an answer is what the device reported for that very execution, seen while no
  cancellation was requested.
  */
  lemma SideQuestionForEver(run: seq<State>, n: nat, id: Text, i: nat, j: nat, a: Goals.Btw, b: Goals.Btw)
    requires IsRun(run) && n < |run|
    requires var s := run[n]; SideVersion(s, id, i, a) && SideVersion(s, id, j, b) && i <= j
    ensures SideKept(Proof(run[n]), a, b)
    ensures b.status.Answered? && !a.status.Answered? ==>
      var t := a.pending.input.taskId;
      t in run[n].completed && exists m :: 0 <= m < n && SeenUncancelled(run[m], t, run[n].completed[t])
  {
    hide IsRun, VersionsOk, CallsOk, PairsOk, ReservedOk, SubmitsOk, SeenUncancelled, ParseAnswer;
    var s := run[n];
    Reachable(run, n);
    var k := Key(BtwKind, id);
    assert VersionsOk(Proof(s), k, s.history[k]);
    SideStays(Proof(s), k, s.history[k], i, j, a);
    if b.status.Answered? && !a.status.Answered? { CompletionWasSeen(run, n, a.pending.input.taskId); }
  }
}
