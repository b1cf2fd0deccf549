/**
What holds over whole runs: one input per task id for ever, no lost update,
failing writes change nothing, the cap on waiting runs.
*/
module Guarantees {
  import opened Json
  import opened Documents
  import opened Executions
  import opened CasStore
  import opened Servers
  import opened Protocol
  import opened Invariants
  import opened Preservation
  import opened Decisions
  import Goals
  import Runs

  // ---------------------------------------------------------------------
  // Nothing recorded is ever taken back
  // ---------------------------------------------------------------------

  ghost predicate Keeps<V>(a: map<Text, V>, b: map<Text, V>)
  {
    forall t :: t in a ==> t in b && b[t] == a[t]
  }

  ghost predicate Later(s: State, u: State)
  {
    && u.tenant == s.tenant && u.cap == s.cap
    && Longer(s.history, u.history) && Keeps(s.reserved, u.reserved) && s.submits <= u.submits
    && Grows(s.server, u.server) && Keeps(s.completed, u.completed) && s.accepted <= u.accepted
  }

  lemma SameIsLater(s: State, u: State)
    requires Consistent(s.server) && u == s.(calls := u.calls)
    ensures Later(s, u)
  {
  }

  lemma LaterStill(s: State, u: State, v: State)
    requires Later(s, u) && Later(u, v)
    ensures Later(s, v)
  {
  }

  lemma SaveIsLater(s: State, c: nat, call: Call, eff: Effect)
    requires eff.Save? && Consistent(s.server) && s.table.ids == s.reserved.Keys
    ensures Later(s, SaveStep(s, c, call, eff))
  {
    hide WaitingOthers, AfterSave, Consistent;
  }

  lemma ApplyIsLater(s: State, c: nat, call: Call, eff: Effect)
    requires Consistent(s.server) && s.table.ids == s.reserved.Keys
    ensures Later(s, Apply(s, c, call, eff))
  {
    hide SaveStep;
    match eff
    case Save(_, _, _, _) => SaveIsLater(s, c, call, eff);
    case RequestCancel(input) => CancelGrows(s.server, input.taskId);
    case _ =>
  }

  lemma NotedIsLater(s: State, c: nat, o: Oracle)
    requires Inv(s) && c in s.calls
    ensures Later(s, Noted(s, s.calls[c], o))
  {
    hide HistoryOk, ReservedOk, SubmitsOk, AcceptedOk, PairsOk;
    assert CallOk(Known(s), s.calls[c]);
  }

  lemma StepIsLater(s: State, a: Action)
    requires Inv(s)
    ensures Later(s, Step(s, a))
  {
    hide Decide, Apply, Later, Noted;
    match a
    case Invoke(c, op) => SameIsLater(s, Step(s, a));
    case Advance(c, o) =>
      if c in s.calls && !s.calls[c].pc.Done? && !s.calls[c].pc.Failed? {
        var n := Noted(s, s.calls[c], o);
        NotedIsLater(s, c, o);
        ApplyIsLater(n, c, n.calls[c], Decide(n, n.calls[c], o));
        LaterStill(s, n, Step(s, a));
      } else {
        SameIsLater(s, Step(s, a));
      }
    case Crash(c) => SameIsLater(s, Step(s, a));
    case World(server) => WorldIsLater(s, server);
  }

  lemma WorldIsLater(s: State, server: Server)
    requires Consistent(s.server)
    ensures Later(s, if Grows(s.server, server) then s.(server := server) else s)
  {
  }

  /** Versions, reservations, submissions and server facts of a run are there in every later state of it. */
  lemma {:induction false} RunsGrow(run: seq<State>, n: nat, m: nat)
    requires IsRun(run) && n <= m < |run|
    ensures Later(run[n], run[m])
  {
    hide Step, Later, DataOk, PairsOk, CallsOk;
    if n == m {
      Reachable(run, n);
      ReflexiveLater(run[n]);
    } else {
      RunsGrow(run, n, m - 1);
      Reachable(run, m - 1);
      assert MovesAt(run, m - 1);
      var a :| run[m] == Step(run[m - 1], a);
      StepIsLater(run[m - 1], a);
      LaterStill(run[n], run[m - 1], run[m]);
    }
  }

  lemma ReflexiveLater(s: State)
    requires Inv(s)
    ensures Later(s, s)
  {
    SameIsLater(s, s);
  }

  // ---------------------------------------------------------------------
  // One input per task id
  // ---------------------------------------------------------------------

  ghost predicate Version(s: State, k: Key, i: int)
  {
    k in s.history && 0 <= i < |s.history[k]|
  }

  lemma Bound(s: State, k: Key, i: nat)
    requires ReservedOk(s.table.ids, s.reserved, s.history) && Version(s, k, i)
    ensures BoundAt(s.reserved, k, s.history[k], i)
  {
    assert AllBound(s.reserved, k, s.history[k]);
  }

  /**
  A submission carries the one input its task id was reserved with. The version
  that reserved it comes first, then a version that says it is being sent; the
  execution was pending in every version between the two.
  */
  lemma SubmissionIsBound(run: seq<State>, n: nat, i: nat)
    requires IsRun(run) && n < |run|
    requires i < |run[n].submits|
    ensures var s := run[n];
      var sub := s.submits[i];
      var t := sub.input.taskId;
      && t in s.table.ids && t in s.reserved && s.reserved[t].input == sub.input && s.reserved[t].key == sub.key
      && s.reserved[t].revision < sub.revision && Version(s, sub.key, sub.revision)
      && HeldSince(s.history[sub.key], s.reserved[t].revision, sub.revision, sub.input)
      && PendingOf(s.history[sub.key][sub.revision]) == Some(Pending(sub.input, Sending))
  {
    hide IsRun, HistoryOk, CallsOk, PairsOk, AcceptedOk;
    var s := run[n];
    Reachable(run, n);
    var sub := s.submits[i];
    assert SentFrom(s.history, sub.key, sub.revision, sub.input);
    Bound(s, sub.key, sub.revision);
  }

  /** Whoever submits under a task id, at whatever time, submits the same input for the same record. */
  lemma OneInputForEver(run: seq<State>, n: nat, m: nat, i: nat, j: nat)
    requires IsRun(run) && n <= m < |run| && i < |run[n].submits| && j < |run[m].submits|
    requires run[n].submits[i].input.taskId == run[m].submits[j].input.taskId
    ensures run[n].submits[i].input == run[m].submits[j].input && run[n].submits[i].key == run[m].submits[j].key
  {
    hide IsRun, HeldSince;
    SubmissionIsBound(run, n, i);
    SubmissionIsBound(run, m, j);
    RunsGrow(run, n, m);
  }

  /** A task id is pending in one record only, over one unbroken stretch of versions, and always with the same input. */
  lemma OneStretchPerTask(run: seq<State>, n: nat, k: Key, i: nat, k': Key, j: nat, t: Text)
    requires IsRun(run) && n < |run|
    requires var s := run[n];
      Version(s, k, i) && Version(s, k', j) && i <= j && Holds(s.history[k][i], t) && Holds(s.history[k'][j], t)
    ensures var s := run[n];
      k == k' && forall m :: i <= m <= j ==> HasInput(s.history[k][m], PendingOf(s.history[k][i]).value.input)
  {
    hide IsRun, HistoryOk, CallsOk, PairsOk, AcceptedOk, SubmitsOk;
    var s := run[n];
    Reachable(run, n);
    Bound(s, k, i);
    Bound(s, k', j);
  }

  // ---------------------------------------------------------------------
  // No lost update
  // ---------------------------------------------------------------------

  /** The stored row is the last of the versions 0, 1, 2, ...; each came from the one just before it. */
  lemma NoLostUpdate(run: seq<State>, n: nat, k: Key)
    requires IsRun(run) && n < |run|
    ensures var s := run[n];
      && (k in s.table.rows <==> k in s.history)
      && (k in s.history ==>
            && RowOk(s.table.rows[k], s.history[k])
            && First(s.history[k][0])
            && forall i: nat :: i + 1 < |s.history[k]| ==> StepOk(Proof(s), s.history[k], i))
  {
    hide IsRun, ReservedOk, CallsOk, PairsOk, AcceptedOk, SubmitsOk, StepOk, First, VersionOk;
    var s := run[n];
    Reachable(run, n);
    assert k in s.history ==> VersionsOk(Proof(s), k, s.history[k]);
  }

  function RowOf(pc: Pc): Option<Snapshot>
  {
    match pc
    case Loaded(row) => Some(row)
    case SecondLook(row, _, _) => Some(row)
    case Judging(row, _, _) => Some(row)
    case Acknowledging(row) => Some(row)
    case _ => None
  }

  /** A write names the revision of the snapshot it was computed from; a first write names none. */
  ghost predicate WritesFrom(row: Option<Snapshot>, eff: Effect)
  {
    eff.Save? ==> eff.expected == (if row.Some? then Some(row.value.revision) else None)
  }

  lemma LoadedWrites(op: Op, row: Snapshot, o: Oracle)
    ensures WritesFrom(Some(row), DecideLoaded(op, row, o))
  {
    hide Goals.ReserveStep, Goals.Resume, Goals.Pause, Goals.Cancel, Runs.Answer, Runs.Cancel, Runs.ChangeContext, Runs.Close, Runs.Last;
  }

  lemma SightWrites(row: Snapshot, input: Input, sight: Sight, o: Oracle)
    ensures WritesFrom(Some(row), DecideSight(row, input, sight, o))
  {
    hide ReadReport, Goals.SettleBtw, Runs.Reconcile;
  }

  lemma BeginWrites(s: State, op: Op, o: Oracle)
    ensures WritesFrom(None, DecideBegin(s, op, o))
  {
    hide Goals.Start, Runs.Start, Goals.ValidBtwArgs, Fetch;
  }

  lemma EveryWrite(s: State, call: Call, o: Oracle)
    ensures WritesFrom(RowOf(call.pc), Decide(s, call, o))
  {
    hide Fetch, ReadOffer, DecideBegin, DecideLoaded, DecideSight, Matches, Goals.ReserveBtw, Goals.Conclude;
    match call.pc
    case Begin => BeginWrites(s, call.op, o);
    case Loaded(row) => LoadedWrites(call.op, row, o);
    case SecondLook(row, input, terminal) => SightWrites(row, input, Observe(s.server, input, terminal), o);
    case _ =>
  }

  lemma SaveWrites(s: State, c: nat, call: Call, eff: Effect)
    requires eff.Save? && TableOk(s.table.rows, s.history) && WritesFrom(RowOf(call.pc), eff)
    requires RowOf(call.pc).Some? ==> Snap(s.history, KeyOfOp(call.op), RowOf(call.pc).value)
    ensures StoredSame(s, SaveStep(s, c, call, eff)) || Wrote(s, SaveStep(s, c, call, eff), call, eff.value)
  {
    hide WaitingOthers, Book, AfterSave;
    var k := KeyOfOp(call.op);
    if k in s.history { assert RowOk(s.table.rows[k], s.history[k]); }
  }

  function Latest(history: map<Key, seq<Record>>, k: Key): Option<Snapshot>
  {
    var h := Past(history, k);
    if h == [] then None else Some(Snapshot(|h| - 1, h[|h| - 1]))
  }

  /** The call's record gained this version, and the call's snapshot was still the latest one. */
  ghost predicate Wrote(s: State, u: State, call: Call, v: Record)
  {
    var k := KeyOfOp(call.op);
    u.history == s.history[k := Past(s.history, k) + [v]] && RowOf(call.pc) == Latest(s.history, k)
  }

  ghost predicate StoredSame(s: State, u: State)
  {
    u.table == s.table && u.history == s.history && u.reserved == s.reserved
  }

  /** The call wrote what it computes from its snapshot and the world's input to this step. */
  ghost predicate WroteComputed(s: State, u: State, c: nat, o: Oracle)
  {
    c in s.calls && Decide(s, s.calls[c], o).Save? && Wrote(s, u, s.calls[c], Decide(s, s.calls[c], o).value)
  }

  ghost predicate SomeCallWrote(s: State, u: State)
  {
    exists c, o :: WroteComputed(s, u, c, o)
  }

  lemma DecideIgnoresNotes(s: State, n: State, call: Call, o: Oracle)
    requires n == s.(completed := n.completed, accepted := n.accepted)
    ensures Decide(n, call, o) == Decide(s, call, o)
  {
    hide ReadOffer, DecideLoaded, DecideSight, DecideJudged, Matches, Goals.ReserveBtw, Goals.Start, Runs.Start, Goals.ValidBtwArgs, Readable;
  }

  lemma StepWrites(s: State, a: Action)
    requires Inv(s) && !StoredSame(s, Step(s, a))
    ensures SomeCallWrote(s, Step(s, a))
  {
    hide Act, Decide, HistoryOk, ReservedOk, SubmitsOk, AcceptedOk, PairsOk;
    if a.Advance? && a.c in s.calls && !s.calls[a.c].pc.Done? && !s.calls[a.c].pc.Failed? {
      var n := Noted(s, s.calls[a.c], a.o);
      NotedKeeps(s, a.c, a.o);
      ActWrites(n, a.c, a.o);
      DecideIgnoresNotes(s, n, s.calls[a.c], a.o);
      assert WroteComputed(s, Step(s, a), a.c, a.o);
    }
  }

  /**
  Whatever happens between two states of a run, at most one record gains one
  version. It was written by a call whose snapshot was still the latest version
  of that record, and it is what the call computes from that snapshot.
  */
  lemma WriteFollowsLast(run: seq<State>, n: nat)
    requires IsRun(run) && n + 1 < |run| && !StoredSame(run[n], run[n + 1])
    ensures SomeCallWrote(run[n], run[n + 1])
  {
    hide Step, Inv, SomeCallWrote, StoredSame;
    Reachable(run, n);
    assert MovesAt(run, n);
    var a :| run[n + 1] == Step(run[n], a);
    StepWrites(run[n], a);
  }

  lemma RowIsSnap(f: Facts, call: Call)
    requires CallOk(f, call) && RowOf(call.pc).Some?
    ensures Snap(f.history, KeyOfOp(call.op), RowOf(call.pc).value)
  {
  }

  lemma ActWrites(s: State, c: nat, o: Oracle)
    requires Inv(s) && c in s.calls
    ensures StoredSame(s, Act(s, c, o)) || WroteComputed(s, Act(s, c, o), c, o)
  {
    hide Decide, HistoryOk, ReservedOk, SubmitsOk, AcceptedOk, PairsOk, SaveStep, CallOk, WritesFrom, TableOk;
    var call := s.calls[c];
    EveryWrite(s, call, o);
    assert CallOk(Known(s), call);
    if RowOf(call.pc).Some? { RowIsSnap(Known(s), call); }
    if Decide(s, call, o).Save? { SaveWrites(s, c, call, Decide(s, call, o)); }
  }

  /** A write that is accepted does not end its call in failure. */
  lemma SavedGoesOn(call: Call, row: Row<Record>, next: Next)
    requires NextOk(row.value, next)
    ensures !AfterSave(call, row, next).pc.Failed?
  {
  }

  ghost predicate Unchanged(s: State, u: State)
  {
    u.table == s.table && u.server == s.server && u.history == s.history && u.reserved == s.reserved && u.submits == s.submits
  }

  lemma FailedSave(s: State, c: nat, call: Call, eff: Effect)
    requires eff.Save? && NextOk(eff.value, eff.next) && SaveStep(s, c, call, eff).calls[c].pc.Failed?
    ensures Unchanged(s, SaveStep(s, c, call, eff))
  {
    hide WaitingOthers, AfterSave, NextOk;
    SavedGoesOn(call, Row(NextRevision(eff.expected), IsWaiting(eff.value), eff.value), eff.next);
  }

  lemma FailedAct(s: State, c: nat, o: Oracle)
    requires Inv(s) && c in s.calls && IsNoted(s, s.calls[c], o) && !s.calls[c].pc.Done? && !s.calls[c].pc.Failed?
    requires c in Act(s, c, o).calls && Act(s, c, o).calls[c].pc.Failed?
    ensures Unchanged(s, Act(s, c, o))
  {
    hide Decide, SaveStep, SaveOk, NextOk, DataOk, CallOk, PairsOk, PcOk, IsNoted, Proof, KeyOfOp;
    var call := s.calls[c];
    assert CallOk(Known(s), call);
    if Decide(s, call, o).Save? {
      DecidesWell(s, call, o);
      SaveGoesOn(Proof(s), s.history, KeyOfOp(call.op), Decide(s, call, o));
      FailedSave(s, c, call, Decide(s, call, o));
    }
  }

  lemma OthersSame(s: State, c: nat, call: Call, eff: Effect, d: nat)
    requires d != c
    ensures d in Apply(s, c, call, eff).calls <==> d in s.calls
    ensures d in s.calls ==> Apply(s, c, call, eff).calls[d] == s.calls[d]
  {
    hide Commit, AfterSave, Book;
  }

  ghost predicate Live(s: State, c: nat)
  {
    c in s.calls && !s.calls[c].pc.Done? && !s.calls[c].pc.Failed?
  }

  ghost predicate HasFailed(s: State, c: nat)
  {
    c in s.calls && s.calls[c].pc.Failed?
  }

  lemma StepFails(s: State, a: Action, c: nat)
    requires Inv(s) && Live(s, c) && HasFailed(Step(s, a), c)
    ensures Unchanged(s, Step(s, a))
  {
    hide Decide, Apply, DataOk, CallsOk, PairsOk, IsNoted;
    if a.Advance? && Live(s, a.c) {
      var n := Noted(s, s.calls[a.c], a.o);
      if a.c == c {
        NotedKeeps(s, c, a.o);
        FailedAct(n, c, a.o);
      } else {
        OthersSame(n, a.c, n.calls[a.c], Decide(n, n.calls[a.c], a.o), c);
      }
    }
  }

  /** When a call fails, on a refused write or on anything else, store and server are exactly as they were. */
  lemma FailureChangesNothing(run: seq<State>, n: nat, c: nat)
    requires IsRun(run) && n + 1 < |run| && Live(run[n], c) && HasFailed(run[n + 1], c)
    ensures Unchanged(run[n], run[n + 1])
  {
    hide Step, Inv, Unchanged, Live, HasFailed;
    Reachable(run, n);
    assert MovesAt(run, n);
    var a :| run[n + 1] == Step(run[n], a);
    StepFails(run[n], a, c);
  }

  // ---------------------------------------------------------------------
  // The cap
  // ---------------------------------------------------------------------

  lemma ActWithinCap(s: State, c: nat, o: Oracle)
    requires c in s.calls && WithinCap(s.table, s.cap)
    ensures WithinCap(Act(s, c, o).table, s.cap) && Act(s, c, o).cap == s.cap
  {
    hide Decide, Commit, WithinCap, AfterSave, Book;
    var call := s.calls[c];
    var eff := Decide(s, call, o);
    if eff.Save? {
      CommitKeepsCap(s.table, s.cap, KeyOfOp(call.op), eff.expected, eff.value, IsWaiting(eff.value), eff.newId);
      RefusedKeepsTable(s, KeyOfOp(call.op), eff);
    }
  }

  lemma RefusedKeepsTable(s: State, k: Key, eff: Effect)
    requires eff.Save?
    ensures var (t, r) := Commit(s.table, Some(s.cap), k, eff.expected, eff.value, IsWaiting(eff.value), eff.newId);
      r.Refused? ==> t == s.table
  {
  }

  lemma StepWithinCap(s: State, a: Action)
    requires WithinCap(s.table, s.cap)
    ensures WithinCap(Step(s, a).table, s.cap) && Step(s, a).cap == s.cap
  {
    hide Act, WithinCap;
    match a
    case Advance(c, o) =>
      if c in s.calls && !s.calls[c].pc.Done? && !s.calls[c].pc.Failed? { ActWithinCap(Noted(s, s.calls[c], o), c, o); }
    case _ =>
  }

  lemma {:induction false} TableWithinCap(run: seq<State>, n: nat)
    requires IsRun(run) && n < |run| && run[0].cap >= 0
    ensures WithinCap(run[n].table, run[n].cap) && run[n].cap == run[0].cap
  {
    hide Step, WithinCap;
    if n == 0 {
      NothingWaits(run[0].tenant, run[0].cap);
    } else {
      TableWithinCap(run, n - 1);
      assert MovesAt(run, n - 1);
      var a :| run[n] == Step(run[n - 1], a);
      StepWithinCap(run[n - 1], a);
    }
  }

  lemma NothingWaits(tenant: Text, cap: nat)
    ensures WithinCap(Init(tenant, cap).table, cap)
  {
    assert WaitingKeys(Init(tenant, cap).table.rows) == {};
  }

  ghost function WaitingRuns(s: State): set<Key>
  {
    set k | k in s.table.rows && IsWaiting(s.table.rows[k].value)
  }

  /** However the writers interleave, at most `cap` runs wait for an answer. */
  lemma WaitingWithinCap(run: seq<State>, n: nat)
    requires IsRun(run) && n < |run| && run[0].cap >= 0
    ensures |WaitingRuns(run[n])| <= run[n].cap
  {
    hide IsRun, HistoryOk, ReservedOk, CallsOk, PairsOk;
    var s := run[n];
    TableWithinCap(run, n);
    Reachable(run, n);
    forall k | k in s.table.rows
      ensures s.table.rows[k].waiting == IsWaiting(s.table.rows[k].value)
    {
      assert RowOk(s.table.rows[k], s.history[k]);
    }
    assert WaitingRuns(s) == WaitingKeys(s.table.rows);
  }

  /**
  A reconciliation that fails, for instance because the tenant is at its cap,
  leaves the run with its source execution still pending and nothing reserved.
  */
  lemma RefusedQuestionStays(run: seq<State>, n: nat, c: nat)
    requires IsRun(run) && n + 1 < |run| && Live(run[n], c) && HasFailed(run[n + 1], c) && run[n].calls[c].pc.SecondLook?
    requires var k := KeyOfOp(run[n].calls[c].op);
      k in run[n].table.rows && run[n].table.rows[k].revision == run[n].calls[c].pc.row.revision
    ensures var k := KeyOfOp(run[n].calls[c].op);
      Unchanged(run[n], run[n + 1]) && k in run[n + 1].table.rows && HasInput(run[n + 1].table.rows[k].value, run[n].calls[c].pc.input)
  {
    hide IsRun, HistoryOk, ReservedOk, PairsOk;
    var s := run[n];
    FailureChangesNothing(run, n, c);
    Reachable(run, n);
    assert CallOk(Known(s), s.calls[c]);
    assert RowOk(s.table.rows[KeyOfOp(s.calls[c].op)], s.history[KeyOfOp(s.calls[c].op)]);
  }
}
