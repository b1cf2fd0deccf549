/**
The invariant of the transition system: what the store, the history, the
reservations and every call in progress satisfy in every reachable state.
*/
module Invariants {
  import opened Json
  import opened Documents
  import opened Executions
  import opened CasStore
  import opened Servers
  import opened Protocol
  import Goals
  import Runs

  // ---------------------------------------------------------------------
  // One record and its successor
  // ---------------------------------------------------------------------

  ghost predicate RecordOk(r: Record)
  {
    match r
    case GoalRec(g) => Goals.GoalOk(g)
    case BtwRec(_) => true
    case RunRec(u) => Runs.RunOk(u)
  }

  ghost predicate First(r: Record)
  {
    match r
    case GoalRec(g) => g.status.Active? && g.steps == 0 && g.pending.None?
    case BtwRec(b) => b.status.Asked? && b.pending.phase.Reserved?
    case RunRec(u) => u.status.Running? && u.generation == 1 && u.tickets == [] && u.pending.Some? && u.pending.value.phase.Reserved?
  }

  ghost predicate Evolves(e: Evidence, a: Record, b: Record)
  {
    match (a, b)
    case (GoalRec(x), GoalRec(y)) => Goals.GoalEvolves(e, x, y)
    case (BtwRec(x), BtwRec(y)) => Goals.BtwEvolves(e, x, y)
    case (RunRec(x), RunRec(y)) => Runs.RunEvolves(e, x, y)
    case _ => false
  }

  /** What a successor does to the reserved execution and to a stop, whatever the kind of record. */
  ghost predicate Carries(settled: set<Text>, a: Record, b: Record)
  {
    && KeyOf(b) == KeyOf(a)
    && (IsStopped(a) ==> IsStopped(b))
    && PendingCarries(settled, PendingOf(a), PendingOf(b), IsStopped(a))
  }

  ghost predicate PendingCarries(settled: set<Text>, a: Option<Pending>, b: Option<Pending>, stopped: bool)
  {
    match (a, b)
    case (Some(p), Some(q)) => q.input == p.input
    case (Some(p), None) => p.input.taskId in settled
    case (None, Some(q)) => q.phase.Reserved? && !stopped
    case (None, None) => true
  }

  lemma EvolvesCarries(e: Evidence, a: Record, b: Record)
    requires Evolves(e, a, b)
    ensures Carries(e.settled, a, b)
  {
  }

  lemma EvolvesWithMore(e: Evidence, f: Evidence, a: Record, b: Record)
    requires Evolves(e, a, b) && Supports(e, f)
    ensures Evolves(f, a, b)
  {
    match (a, b)
    case (GoalRec(x), GoalRec(y)) => Goals.EvolvesWithMore(e, f, x, y);
    case (BtwRec(x), BtwRec(y)) =>
    case (RunRec(x), RunRec(y)) => Runs.EvolvesWithMore(e, f, x, y);
  }

  // ---------------------------------------------------------------------
  // The versions of one record
  // ---------------------------------------------------------------------

  ghost predicate StepOk(e: Evidence, h: seq<Record>, i: nat)
    requires i + 1 < |h|
  {
    Evolves(e, h[i], h[i + 1])
  }

  ghost predicate VersionOk(k: Key, r: Record)
  {
    KeyOf(r) == k && RecordOk(r)
  }

  ghost predicate VersionsOk(e: Evidence, k: Key, h: seq<Record>)
  {
    && h != [] && First(h[0])
    && (forall i :: 0 <= i < |h| ==> VersionOk(k, h[i]))
    && (forall i: nat :: i + 1 < |h| ==> StepOk(e, h, i))
  }

  lemma VersionsWithMore(e: Evidence, f: Evidence, k: Key, h: seq<Record>)
    requires VersionsOk(e, k, h) && Supports(e, f)
    ensures VersionsOk(f, k, h)
  {
    forall i: nat | i + 1 < |h|
      ensures StepOk(f, h, i)
    {
      assert StepOk(e, h, i);
      EvolvesWithMore(e, f, h[i], h[i + 1]);
    }
  }

  lemma FirstVersion(e: Evidence, k: Key, v: Record)
    requires First(v) && VersionOk(k, v)
    ensures VersionsOk(e, k, [v])
  {
  }

  lemma NextVersion(e: Evidence, k: Key, h: seq<Record>, v: Record)
    requires VersionsOk(e, k, h) && VersionOk(k, v) && Evolves(e, h[|h| - 1], v)
    ensures VersionsOk(e, k, h + [v])
  {
    var g := h + [v];
    forall i: nat | i + 1 < |g|
      ensures StepOk(e, g, i)
    {
      if i + 1 < |h| {
        assert StepOk(e, h, i);
      }
    }
  }

  lemma StepCarries(e: Evidence, k: Key, h: seq<Record>, i: nat)
    requires VersionsOk(e, k, h) && i + 1 < |h|
    ensures Carries(e.settled, h[i], h[i + 1])
  {
    assert StepOk(e, h, i);
    EvolvesCarries(e, h[i], h[i + 1]);
  }

  ghost predicate Holds(r: Record, t: Text)
  {
    PendingOf(r).Some? && PendingOf(r).value.input.taskId == t
  }

  /** A stopped record stays stopped, and keeps its execution until that is settled. */
  lemma {:induction false} StoppedStays(e: Evidence, k: Key, h: seq<Record>, i: nat, j: nat, t: Text)
    requires VersionsOk(e, k, h) && i <= j < |h| && IsStopped(h[i]) && Holds(h[i], t)
    ensures IsStopped(h[j]) && (Holds(h[j], t) || t in e.settled)
  {
    if i < j {
      StoppedStays(e, k, h, i, j - 1, t);
      StepCarries(e, k, h, j - 1);
    }
  }

  // ---------------------------------------------------------------------
  // The invariant
  // ---------------------------------------------------------------------

  /** Every row is the last version of its record; its revision counts the writes before it. */
  ghost predicate TableOk(rows: map<Key, Row<Record>>, history: map<Key, seq<Record>>)
  {
    && rows.Keys == history.Keys
    && forall k :: k in history ==> RowOk(rows[k], history[k])
  }

  ghost predicate RowOk(row: Row<Record>, h: seq<Record>)
  {
    h != [] && row.revision == |h| - 1 && row.value == h[|h| - 1] && row.waiting == IsWaiting(row.value)
  }

  ghost predicate HistoryOk(e: Evidence, history: map<Key, seq<Record>>)
  {
    forall k :: k in history ==> VersionsOk(e, k, history[k])
  }

  ghost predicate HasInput(r: Record, input: Input)
  {
    PendingOf(r).Some? && PendingOf(r).value.input == input
  }

  /** This execution has been pending in every version since the one that reserved it. */
  ghost predicate HeldSince(h: seq<Record>, from: int, i: int, input: Input)
  {
    && 0 <= from <= i < |h|
    && (forall j :: from <= j <= i ==> HasInput(h[j], input))
    && PendingOf(h[from]) == Some(Pending(input, Reserved))
    && (from > 0 ==> PendingOf(h[from - 1]).None?)
  }

  ghost predicate BoundAt(reserved: map<Text, Reservation>, k: Key, h: seq<Record>, i: nat)
    requires i < |h|
  {
    PendingOf(h[i]).Some? ==> InputBound(reserved, k, h, i, PendingOf(h[i]).value.input)
  }

  ghost predicate InputBound(reserved: map<Text, Reservation>, k: Key, h: seq<Record>, i: nat, input: Input)
  {
    && input.taskId in reserved
    && reserved[input.taskId].key == k && reserved[input.taskId].input == input
    && HeldSince(h, reserved[input.taskId].revision, i, input)
  }

  ghost predicate AllBound(reserved: map<Text, Reservation>, k: Key, h: seq<Record>)
  {
    forall i: nat :: i < |h| ==> BoundAt(reserved, k, h, i)
  }

  /** The task ids the store refuses are those reserved so far, each with the version that reserved it. */
  ghost predicate ReservedOk(ids: set<Text>, reserved: map<Text, Reservation>, history: map<Key, seq<Record>>)
  {
    && ids == reserved.Keys
    && (forall t :: t in reserved ==> ReservationOk(history, t, reserved[t]))
    && (forall k :: k in history ==> AllBound(reserved, k, history[k]))
  }

  ghost predicate ReservationOk(history: map<Key, seq<Record>>, t: Text, r: Reservation)
  {
    && r.input.taskId == t && r.key in history && 0 <= r.revision < |history[r.key]|
    && PendingOf(history[r.key][r.revision]) == Some(Pending(r.input, Reserved))
  }

  /** This version was written before the input left the Host, by a record that was not stopped. */
  ghost predicate SentFrom(history: map<Key, seq<Record>>, k: Key, at: int, input: Input)
  {
    && k in history && 0 <= at < |history[k]|
    && PendingOf(history[k][at]) == Some(Pending(input, Sending)) && !IsStopped(history[k][at])
  }

  ghost predicate SubmitsOk(history: map<Key, seq<Record>>, submits: seq<Submission>)
  {
    forall i :: 0 <= i < |submits| ==> SentFrom(history, submits[i].key, submits[i].revision, submits[i].input)
  }

  /** A completion that was seen is the device terminal. */
  ghost predicate CompletedOk(server: Server, completed: map<Text, Option<Value>>)
  {
    forall t :: t in completed ==> t in server.terminals && server.terminals[t].document == completed[t]
  }

  /** Every accepted verdict was read from a completion. */
  ghost predicate AcceptedOk(completed: map<Text, Option<Value>>, accepted: set<(Text, Decision)>)
  {
    forall v :: v in accepted ==> v.0 in completed && Reads(completed[v.0], v.1)
  }

  // Calls

  /** What the position of a call refers to. */
  datatype Facts = Facts(history: map<Key, seq<Record>>, server: Server, completed: map<Text, Option<Value>>)

  function Known(s: State): Facts
  {
    Facts(s.history, s.server, s.completed)
  }

  ghost predicate Snap(history: map<Key, seq<Record>>, k: Key, row: Snapshot)
  {
    k in history && 0 <= row.revision < |history[k]| && history[k][row.revision] == row.value
  }

  /** A snapshot whose execution is being reconciled. */
  ghost predicate Reconciling(f: Facts, k: Key, row: Snapshot, input: Input)
  {
    && Snap(f.history, k, row) && HasInput(row.value, input)
    && (row.value.BtwRec? ==> row.value.btw.status.Asked?)
    && (row.value.RunRec? ==> !Runs.Stopped(row.value.run))
  }

  ghost predicate Judged(f: Facts, row: Snapshot, input: Input, decision: Decision)
  {
    && row.value.GoalRec? && !Goals.Stopped(row.value.goal)
    && input.taskId in Settled(f.server) && input.taskId in f.completed
    && Reads(f.completed[input.taskId], decision)
  }

  ghost predicate WaitingRow(row: Snapshot)
  {
    row.value.RunRec? && row.value.run.status.WaitingInput?
  }

  ghost predicate TerminalSeen(f: Facts, t: Text, terminal: Option<Terminal>)
  {
    terminal.Some? ==> t in f.server.terminals && f.server.terminals[t] == terminal.value
  }

  ghost predicate PcOk(f: Facts, k: Key, pc: Pc)
  {
    match pc
    case Loaded(row) => Snap(f.history, k, row)
    case Verify(input, at) => SentFrom(f.history, k, at, input)
    case Recheck(input, at) => SentFrom(f.history, k, at, input)
    case Submitting(input, at) => SentFrom(f.history, k, at, input)
    case Awaiting(input, at) => SentFrom(f.history, k, at, input)
    case Doubting(input, at) => SentFrom(f.history, k, at, input)
    case Rereading(input, at) => SentFrom(f.history, k, at, input) && input.taskId in f.server.attempts
    case ProbeOffer(row, input) => Reconciling(f, k, row, input)
    case Probe(row, input) => Reconciling(f, k, row, input)
    case AtTerminal(row, input) => Reconciling(f, k, row, input) && input.taskId in f.server.attempts
    case SecondLook(row, input, terminal) =>
      Reconciling(f, k, row, input) && input.taskId in f.server.attempts && TerminalSeen(f, input.taskId, terminal)
    case Judging(row, input, decision) => Reconciling(f, k, row, input) && Judged(f, row, input, decision)
    case Delivering(row) => Snap(f.history, k, row) && WaitingRow(row)
    case Acknowledging(row) => Snap(f.history, k, row) && WaitingRow(row)
    case _ => true
  }

  function FlushInput(pc: Pc): Option<Input>
  {
    match pc
    case Flush(input) => Some(input)
    case FlushOffer(input) => Some(input)
    case FlushCancel(input) => Some(input)
    case _ => None
  }

  /** The call is cancelling this task, or has seen to it, or gave up. */
  ghost predicate Chases(f: Facts, pc: Pc, t: Text)
  {
    || (FlushInput(pc).Some? && FlushInput(pc).value.taskId == t)
    || (pc.Done? && t in Settled(f.server))
    || pc.Failed?
  }

  ghost predicate StoppedAt(history: map<Key, seq<Record>>, k: Key, m: Mark)
  {
    && k in history && 0 <= m.revision < |history[k]|
    && IsStopped(history[k][m.revision]) && Holds(history[k][m.revision], m.taskId)
  }

  /** A call that stopped a record holding an execution goes on to cancel it, unless it finds no attempt. */
  ghost predicate StopOk(f: Facts, k: Key, call: Call)
  {
    && (call.stop.Some? ==>
          && StoppedAt(f.history, k, call.stop.value)
          && (if call.missed then call.pc.Done? else Chases(f, call.pc, call.stop.value.taskId)))
  }

  /** A sender that saw a stopped version after its submission cancels what it sent. */
  ghost predicate RereadOk(f: Facts, k: Key, call: Call)
  {
    call.reread.Some? ==>
      && call.reread.value.taskId in f.server.attempts
      && k in f.history && 0 <= call.reread.value.revision < |f.history[k]|
      && (StoppedAt(f.history, k, call.reread.value) ==> Chases(f, call.pc, call.reread.value.taskId))
  }

  ghost predicate Early(call: Call)
  {
    call.stop.None? && call.reread.None? && !call.missed
  }

  ghost predicate CallOk(f: Facts, call: Call)
  {
    && PcOk(f, KeyOfOp(call.op), call.pc)
    && StopOk(f, KeyOfOp(call.op), call)
    && RereadOk(f, KeyOfOp(call.op), call)
    && (FlushInput(call.pc).None? && !call.pc.Done? && !call.pc.Failed? ==> Early(call))
    && (call.missed ==> call.pc.Done?)
  }

  ghost predicate CallsOk(f: Facts, calls: map<nat, Call>)
  {
    forall c :: c in calls ==> CallOk(f, calls[c])
  }

  /** A stopper that missed did so before any sender of that task re-read the record. */
  ghost predicate InOrder(stopper: Call, sender: Call)
  {
    KeyOfOp(stopper.op) == KeyOfOp(sender.op) && stopper.missed && stopper.stop.Some? && sender.reread.Some?
    && stopper.stop.value.taskId == sender.reread.value.taskId
    ==> stopper.stop.value.revision <= sender.reread.value.revision
  }

  ghost predicate PairsOk(calls: map<nat, Call>)
  {
    forall c, d :: c in calls && d in calls ==> InOrder(calls[c], calls[d])
  }

  ghost predicate DataOk(s: State)
  {
    && Consistent(s.server)
    && TableOk(s.table.rows, s.history)
    && HistoryOk(Proof(s), s.history)
    && ReservedOk(s.table.ids, s.reserved, s.history)
    && SubmitsOk(s.history, s.submits)
    && CompletedOk(s.server, s.completed) && AcceptedOk(s.completed, s.accepted)
  }

  ghost predicate Inv(s: State)
  {
    DataOk(s) && CallsOk(Known(s), s.calls) && PairsOk(s.calls)
  }
}
