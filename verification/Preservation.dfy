/**
Each kind of effect keeps the invariant, whatever decided on it.
*/
module Preservation {
  import opened Json
  import opened Documents
  import opened Executions
  import opened CasStore
  import opened Servers
  import opened Protocol
  import opened Invariants
  import Goals
  import Runs

  // ---------------------------------------------------------------------
  // Facts about a call survive whatever else happens
  // ---------------------------------------------------------------------

  ghost predicate Longer(a: map<Key, seq<Record>>, b: map<Key, seq<Record>>)
  {
    forall k :: k in a ==> k in b && a[k] <= b[k]
  }

  ghost predicate Extends(f: Facts, g: Facts)
  {
    && Longer(f.history, g.history) && Grows(f.server, g.server)
    && (forall t :: t in f.completed ==> t in g.completed && g.completed[t] == f.completed[t])
  }

  lemma PcStable(f: Facts, g: Facts, k: Key, pc: Pc)
    requires Extends(f, g) && PcOk(f, k, pc)
    ensures PcOk(g, k, pc)
  {
  }

  lemma MarkStable(f: Facts, g: Facts, k: Key, m: Mark)
    requires Longer(f.history, g.history) && k in f.history && 0 <= m.revision < |f.history[k]|
    ensures StoppedAt(g.history, k, m) == StoppedAt(f.history, k, m)
  {
  }

  lemma CallStable(f: Facts, g: Facts, call: Call)
    requires Extends(f, g) && CallOk(f, call)
    ensures CallOk(g, call)
  {
    var k := KeyOfOp(call.op);
    PcStable(f, g, k, call.pc);
    if call.stop.Some? { MarkStable(f, g, k, call.stop.value); }
    if call.reread.Some? { MarkStable(f, g, k, call.reread.value); }
  }

  lemma CallsStable(f: Facts, g: Facts, calls: map<nat, Call>)
    requires Extends(f, g) && CallsOk(f, calls)
    ensures CallsOk(g, calls)
  {
    forall c | c in calls
      ensures CallOk(g, calls[c])
    {
      CallStable(f, g, calls[c]);
    }
  }

  // ---------------------------------------------------------------------
  // One call moves
  // ---------------------------------------------------------------------

  ghost predicate FitsPairs(calls: map<nat, Call>, call: Call)
  {
    InOrder(call, call) && forall d :: d in calls ==> InOrder(call, calls[d]) && InOrder(calls[d], call)
  }

  lemma PutKeeps(s: State, c: nat, call: Call)
    requires Inv(s) && CallOk(Known(s), call) && FitsPairs(s.calls, call)
    ensures Inv(Put(s, c, call))
  {
    PutKeepsCalls(Known(s), s.calls, c, call);
    assert DataOk(Put(s, c, call));
  }

  lemma PutKeepsCalls(f: Facts, calls: map<nat, Call>, c: nat, call: Call)
    requires CallsOk(f, calls) && PairsOk(calls) && CallOk(f, call) && FitsPairs(calls, call)
    ensures CallsOk(f, calls[c := call]) && PairsOk(calls[c := call])
  {
  }

  /** Only a miss and a re-read matter to the order of calls. */
  lemma SameMarksFit(calls: map<nat, Call>, c: nat, call: Call)
    requires PairsOk(calls) && c in calls
    requires KeyOfOp(call.op) == KeyOfOp(calls[c].op)
    requires call.missed == calls[c].missed && call.stop == calls[c].stop && call.reread == calls[c].reread
    ensures FitsPairs(calls, call)
  {
    assert InOrder(calls[c], calls[c]);
    forall d | d in calls
      ensures InOrder(call, calls[d]) && InOrder(calls[d], call)
    {
      assert InOrder(calls[c], calls[d]) && InOrder(calls[d], calls[c]);
    }
  }

  lemma EarlyFits(calls: map<nat, Call>, call: Call)
    requires !call.missed && call.reread.None?
    ensures FitsPairs(calls, call)
  {
  }

  lemma MoveKeeps(s: State, c: nat, pc: Pc)
    requires Inv(s) && c in s.calls && CallOk(Known(s), s.calls[c].(pc := pc))
    ensures Inv(Put(s, c, s.calls[c].(pc := pc)))
  {
    SameMarksFit(s.calls, c, s.calls[c].(pc := pc));
    PutKeeps(s, c, s.calls[c].(pc := pc));
  }

  lemma InvokeKeeps(s: State, c: nat, op: Op)
    requires Inv(s)
    ensures Inv(Put(s, c, NewCall(op)))
  {
    EarlyFits(s.calls, NewCall(op));
    PutKeeps(s, c, NewCall(op));
  }

  lemma GivesUp(f: Facts, call: Call)
    requires CallOk(f, call) && !call.pc.Done?
    ensures CallOk(f, call.(pc := Failed))
  {
  }

  lemma CrashKeeps(s: State, c: nat)
    requires Inv(s) && c in s.calls && !s.calls[c].pc.Done?
    ensures Inv(Put(s, c, s.calls[c].(pc := Failed)))
  {
    GivesUp(Known(s), s.calls[c]);
    MoveKeeps(s, c, Failed);
  }

  lemma EarlyIsOk(f: Facts, call: Call)
    requires Early(call) && PcOk(f, KeyOfOp(call.op), call.pc)
    ensures CallOk(f, call)
  {
  }

  lemma EarlyPutKeeps(s: State, c: nat, call: Call)
    requires Inv(s) && Early(call) && PcOk(Known(s), KeyOfOp(call.op), call.pc)
    ensures Inv(Put(s, c, call))
  {
    EarlyIsOk(Known(s), call);
    EarlyFits(s.calls, call);
    PutKeeps(s, c, call);
  }

  lemma SubmitKeeps(s: State, c: nat, call: Call, sub: Submission)
    requires Inv(s) && Early(call) && SentFrom(s.history, sub.key, sub.revision, sub.input)
    requires PcOk(Known(s), KeyOfOp(call.op), call.pc)
    ensures Inv(Put(s.(submits := s.submits + [sub]), c, call))
  {
    var u := s.(submits := s.submits + [sub]);
    assert SubmitsOk(u.history, u.submits);
    assert Inv(u);
    EarlyPutKeeps(u, c, call);
  }

  lemma Missed(f: Facts, call: Call)
    requires CallOk(f, call) && call.pc.Flush? && call.pc.input.taskId !in f.server.attempts
    ensures CallOk(f, call.(pc := Done(None), missed := true))
  {
  }

  /** The attempt was not there when the stopper looked, so no sender of that task has re-read the record yet. */
  lemma MissFits(f: Facts, calls: map<nat, Call>, call: Call, d: nat)
    requires CallsOk(f, calls) && d in calls
    requires CallOk(f, call) && call.pc.Flush? && call.pc.input.taskId !in f.server.attempts
    ensures InOrder(call.(missed := true), calls[d])
  {
    assert CallOk(f, calls[d]);
  }

  lemma MissKeeps(s: State, c: nat)
    requires Inv(s) && c in s.calls && s.calls[c].pc.Flush? && s.calls[c].pc.input.taskId !in s.server.attempts
    ensures Inv(Put(s, c, s.calls[c].(pc := Done(None), missed := true)))
  {
    var before := s.calls[c];
    var call := before.(pc := Done(None), missed := true);
    Missed(Known(s), before);
    forall d | d in s.calls
      ensures InOrder(call, s.calls[d]) && InOrder(s.calls[d], call)
    {
      MissFits(Known(s), s.calls, before, d);
      assert InOrder(s.calls[d], before);
    }
    MissFits(Known(s), s.calls, before, c);
    PutKeeps(s, c, call);
  }

  ghost predicate Rereads(f: Facts, k: Key, mark: Mark, pc: Pc)
  {
    && mark.taskId in f.server.attempts && k in f.history && mark.revision == |f.history[k]| - 1 >= 0
    && pc == (if IsStopped(f.history[k][mark.revision]) then ChasePc(f.history[k][mark.revision]) else Done(None))
  }

  lemma RereadIsOk(f: Facts, call: Call, mark: Mark, pc: Pc)
    requires Early(call) && Rereads(f, KeyOfOp(call.op), mark, pc)
    ensures CallOk(f, call.(pc := pc, reread := Some(mark)))
  {
  }

  lemma RereadFits(f: Facts, stopper: Call, sender: Call)
    requires CallOk(f, stopper) && KeyOfOp(sender.op) in f.history
    requires sender.reread.Some? && sender.reread.value.revision == |f.history[KeyOfOp(sender.op)]| - 1
    ensures InOrder(stopper, sender)
  {
  }

  lemma RereadKeeps(s: State, c: nat, mark: Mark, pc: Pc)
    requires Inv(s) && c in s.calls && Early(s.calls[c]) && Rereads(Known(s), KeyOfOp(s.calls[c].op), mark, pc)
    ensures Inv(Put(s, c, s.calls[c].(pc := pc, reread := Some(mark))))
  {
    var call := s.calls[c].(pc := pc, reread := Some(mark));
    RereadIsOk(Known(s), s.calls[c], mark, pc);
    forall d | d in s.calls
      ensures InOrder(call, s.calls[d]) && InOrder(s.calls[d], call)
    {
      RereadFits(Known(s), s.calls[d], call);
    }
    PutKeeps(s, c, call);
  }

  // ---------------------------------------------------------------------
  // The server moves, or a step reveals something
  // ---------------------------------------------------------------------

  lemma HistoryWithMore(e: Evidence, f: Evidence, history: map<Key, seq<Record>>)
    requires HistoryOk(e, history) && Supports(e, f)
    ensures HistoryOk(f, history)
  {
    forall k | k in history
      ensures VersionsOk(f, k, history[k])
    {
      VersionsWithMore(e, f, k, history[k]);
    }
  }

  lemma ServerKeeps(s: State, server: Server)
    requires Inv(s) && Grows(s.server, server)
    ensures Inv(s.(server := server))
  {
    var u := s.(server := server);
    HistoryWithMore(Proof(s), Proof(u), s.history);
    CallsStable(Known(s), Known(u), s.calls);
  }

  lemma CancelGrows(server: Server, t: Text)
    requires Consistent(server)
    ensures Grows(server, Cancel(server, t)) && t in Settled(Cancel(server, t))
  {
  }

  lemma Requested(f: Facts, call: Call)
    requires CallOk(f, call) && call.pc.FlushCancel? && call.pc.input.taskId in Settled(f.server)
    ensures CallOk(f, call.(pc := Done(None)))
  {
  }

  lemma RequestKeeps(s: State, c: nat, input: Input)
    requires Inv(s) && c in s.calls && s.calls[c].pc == FlushCancel(input)
    ensures Inv(Put(s.(server := Cancel(s.server, input.taskId)), c, s.calls[c].(pc := Done(None))))
  {
    var u := s.(server := Cancel(s.server, input.taskId));
    CancelGrows(s.server, input.taskId);
    ServerKeeps(s, u.server);
    Requested(Known(u), u.calls[c]);
    MoveKeeps(u, c, Done(None));
  }

  lemma CompletionKeeps(s: State, t: Text, document: Option<Value>)
    requires Inv(s) && t in s.server.terminals && s.server.terminals[t].document == document
    ensures Inv(s.(completed := s.completed[t := document]))
  {
    var u := s.(completed := s.completed[t := document]);
    HistoryWithMore(Proof(s), Proof(u), s.history);
    CallsStable(Known(s), Known(u), s.calls);
  }

  lemma VerdictKeeps(s: State, t: Text, decision: Decision)
    requires Inv(s) && t in s.completed && Reads(s.completed[t], decision)
    ensures Inv(s.(accepted := s.accepted + {(t, decision)}))
  {
    var u := s.(accepted := s.accepted + {(t, decision)});
    HistoryWithMore(Proof(s), Proof(u), s.history);
  }

  // ---------------------------------------------------------------------
  // A write
  // ---------------------------------------------------------------------

  /** A write names a new task id exactly when it reserves an execution. */
  ghost predicate Reserves(before: Option<Pending>, after: Option<Pending>, newId: Option<Text>)
  {
    if before.None? && after.Some? then newId == Some(after.value.input.taskId) else newId.None?
  }

  ghost predicate NextOk(value: Record, next: Next)
  {
    && (next.ChaseSaved? ==> IsStopped(value))
    && (next.VerifySaved? ==> !IsStopped(value) && PendingOf(value).Some? && PendingOf(value).value.phase.Sending?)
  }

  ghost predicate SaveOk(e: Evidence, history: map<Key, seq<Record>>, k: Key, eff: Effect)
    requires eff.Save?
  {
    && VersionOk(k, eff.value) && NextOk(eff.value, eff.next)
    && match eff.expected
       case None => First(eff.value) && Reserves(None, PendingOf(eff.value), eff.newId)
       case Some(r) => k in history && 0 <= r < |history[k]| && Follows(e, history[k][r], eff.value, eff.newId)
  }

  ghost predicate Follows(e: Evidence, base: Record, value: Record, newId: Option<Text>)
  {
    Evolves(e, base, value) && Reserves(PendingOf(base), PendingOf(value), newId)
  }

  lemma SavedTable(rows: map<Key, Row<Record>>, history: map<Key, seq<Record>>, k: Key, v: Record)
    requires TableOk(rows, history)
    ensures TableOk(rows[k := Row(|Past(history, k)|, IsWaiting(v), v)], history[k := Past(history, k) + [v]])
  {
  }

  lemma SavedLonger(history: map<Key, seq<Record>>, k: Key, v: Record)
    ensures Longer(history, history[k := Past(history, k) + [v]])
  {
  }

  lemma SavedHistory(e: Evidence, history: map<Key, seq<Record>>, k: Key, h: seq<Record>)
    requires HistoryOk(e, history) && VersionsOk(e, k, h)
    ensures HistoryOk(e, history[k := h])
  {
  }

  /** The new version is bound: to the reservation it carries on, or to the one it makes. */
  lemma NextBound(reserved: map<Text, Reservation>, k: Key, h: seq<Record>, v: Record, newId: Option<Text>, settled: set<Text>)
    requires AllBound(reserved, k, h) && (newId.Some? ==> newId.value !in reserved)
    requires h != [] ==> Carries(settled, h[|h| - 1], v) && Reserves(PendingOf(h[|h| - 1]), PendingOf(v), newId)
    requires h == [] ==> Reserves(None, PendingOf(v), newId) && (PendingOf(v).Some? ==> PendingOf(v).value.phase.Reserved?)
    ensures AllBound(Book(reserved, k, |h|, PendingOf(v), newId), k, h + [v])
  {
    var g := h + [v];
    var booked := Book(reserved, k, |h|, PendingOf(v), newId);
    forall i: nat | i < |g|
      ensures BoundAt(booked, k, g, i)
    {
      if i < |h| {
        assert BoundAt(reserved, k, h, i);
        BoundStays(reserved, booked, k, h, g, i);
      } else if h != [] && PendingOf(h[|h| - 1]).Some? {
        assert BoundAt(reserved, k, h, |h| - 1);
      }
    }
  }

  lemma BoundStays(reserved: map<Text, Reservation>, booked: map<Text, Reservation>, k: Key, h: seq<Record>, g: seq<Record>, i: nat)
    requires i < |h| && h <= g && BoundAt(reserved, k, h, i)
    requires forall t :: t in reserved ==> t in booked && booked[t] == reserved[t]
    ensures BoundAt(booked, k, g, i)
  {
    if PendingOf(h[i]).Some? {
      var input := PendingOf(h[i]).value.input;
      assert HeldSince(h, reserved[input.taskId].revision, i, input);
      forall j | reserved[input.taskId].revision <= j <= i
        ensures HasInput(g[j], input)
      {
        assert HasInput(h[j], input);
      }
    }
  }

  lemma AllBoundStays(reserved: map<Text, Reservation>, booked: map<Text, Reservation>, k: Key, h: seq<Record>)
    requires AllBound(reserved, k, h)
    requires forall t :: t in reserved ==> t in booked && booked[t] == reserved[t]
    ensures AllBound(booked, k, h)
  {
    forall i: nat | i < |h|
      ensures BoundAt(booked, k, h, i)
    {
      assert BoundAt(reserved, k, h, i);
      BoundStays(reserved, booked, k, h, h, i);
    }
  }

  lemma SavedReserved(ids: set<Text>, reserved: map<Text, Reservation>, history: map<Key, seq<Record>>, k: Key, v: Record, newId: Option<Text>)
    requires ReservedOk(ids, reserved, history) && (newId.Some? ==> newId.value !in ids)
    requires newId.Some? ==> PendingOf(v).Some? && PendingOf(v).value.phase.Reserved? && PendingOf(v).value.input.taskId == newId.value
    requires AllBound(Book(reserved, k, |Past(history, k)|, PendingOf(v), newId), k, Past(history, k) + [v])
    ensures ReservedOk(if newId.Some? then ids + {newId.value} else ids, Book(reserved, k, |Past(history, k)|, PendingOf(v), newId),
                       history[k := Past(history, k) + [v]])
  {
    var h := Past(history, k) + [v];
    var booked := Book(reserved, k, |Past(history, k)|, PendingOf(v), newId);
    var longer := history[k := h];
    forall x | x in longer
      ensures AllBound(booked, x, longer[x])
    {
      if x != k { AllBoundStays(reserved, booked, x, history[x]); }
    }
    forall t | t in booked
      ensures ReservationOk(longer, t, booked[t])
    {
      if t in reserved { assert ReservationOk(history, t, reserved[t]); }
    }
  }

  lemma SubmitsStable(a: map<Key, seq<Record>>, b: map<Key, seq<Record>>, submits: seq<Submission>)
    requires SubmitsOk(a, submits) && Longer(a, b)
    ensures SubmitsOk(b, submits)
  {
    forall i | 0 <= i < |submits|
      ensures SentFrom(b, submits[i].key, submits[i].revision, submits[i].input)
    {
      assert SentFrom(a, submits[i].key, submits[i].revision, submits[i].input);
    }
  }

  lemma SavedCall(f: Facts, call: Call, row: Row<Record>, next: Next)
    requires Early(call) && NextOk(row.value, next)
    requires KeyOfOp(call.op) in f.history && row.revision == |f.history[KeyOfOp(call.op)]| - 1 >= 0
    requires f.history[KeyOfOp(call.op)][row.revision] == row.value
    ensures CallOk(f, AfterSave(call, row, next))
    ensures !AfterSave(call, row, next).missed && AfterSave(call, row, next).reread.None?
  {
  }

  /** An accepted write starts from the last version, so it extends the history by one step. */
  lemma SavedVersions(e: Evidence, s: State, k: Key, eff: Effect)
    requires eff.Save? && HistoryOk(e, s.history) && TableOk(s.table.rows, s.history)
    requires SaveOk(e, s.history, k, eff) && Current(s.table.rows, k, eff.expected)
    ensures var h := Past(s.history, k);
      && NextRevision(eff.expected) == |h|
      && VersionsOk(e, k, h + [eff.value])
      && (h != [] ==> Carries(e.settled, h[|h| - 1], eff.value) && Reserves(PendingOf(h[|h| - 1]), PendingOf(eff.value), eff.newId))
      && (h == [] ==> First(eff.value) && Reserves(None, PendingOf(eff.value), eff.newId))
  {
    var h := Past(s.history, k);
    if k !in s.history {
      FirstVersion(e, k, eff.value);
      assert h + [eff.value] == [eff.value];
    } else {
      assert RowOk(s.table.rows[k], s.history[k]);
      EvolvesCarries(e, h[|h| - 1], eff.value);
      NextVersion(e, k, h, eff.value);
    }
  }

  function SavedData(s: State, k: Key, eff: Effect): State
    requires eff.Save?
  {
    var h := Past(s.history, k);
    s.(table := Table(s.table.rows[k := Row(|h|, IsWaiting(eff.value), eff.value)],
                      if eff.newId.Some? then s.table.ids + {eff.newId.value} else s.table.ids),
       history := s.history[k := h + [eff.value]],
       reserved := Book(s.reserved, k, |h|, PendingOf(eff.value), eff.newId))
  }

  lemma SavedDataOk(s: State, k: Key, eff: Effect)
    requires eff.Save? && DataOk(s) && SaveOk(Proof(s), s.history, k, eff) && Current(s.table.rows, k, eff.expected)
    requires eff.newId.Some? ==> eff.newId.value !in s.table.ids
    ensures DataOk(SavedData(s, k, eff)) && Longer(s.history, SavedData(s, k, eff).history)
  {
    hide VersionsOk, SubmitsOk, CompletedOk, AcceptedOk, IsStopped, IsWaiting, SaveOk, BoundAt, RowOk, ReservationOk;
    var h := Past(s.history, k);
    var u := SavedData(s, k, eff);
    SavedVersions(Proof(s), s, k, eff);
    SavedTable(s.table.rows, s.history, k, eff.value);
    SavedLonger(s.history, k, eff.value);
    SavedHistory(Proof(s), s.history, k, h + [eff.value]);
    assert k in s.history ==> AllBound(s.reserved, k, s.history[k]);
    NextBound(s.reserved, k, h, eff.value, eff.newId, Settled(s.server));
    SavedReserved(s.table.ids, s.reserved, s.history, k, eff.value, eff.newId);
    SubmitsStable(s.history, u.history, s.submits);
  }

  function OutcomeOf(s: State, k: Key, eff: Effect): Outcome<Record>
    requires eff.Save?
  {
    Commit(s.table, Some(s.cap), k, eff.expected, eff.value, IsWaiting(eff.value), eff.newId).1
  }

  lemma SaveIs(s: State, c: nat, call: Call, eff: Effect)
    requires eff.Save?
    ensures var k := KeyOfOp(call.op);
      if OutcomeOf(s, k, eff).Saved? then
        && Current(s.table.rows, k, eff.expected) && (eff.newId.Some? ==> eff.newId.value !in s.table.ids)
        && (NextRevision(eff.expected) == |Past(s.history, k)| ==>
              SaveStep(s, c, call, eff) ==
              Put(SavedData(s, k, eff), c, AfterSave(call, Row(|Past(s.history, k)|, IsWaiting(eff.value), eff.value), eff.next)))
      else SaveStep(s, c, call, eff) == Put(s, c, call.(pc := Failed))
  {
  }

  lemma SaveGoesOn(e: Evidence, history: map<Key, seq<Record>>, k: Key, eff: Effect)
    requires eff.Save? && SaveOk(e, history, k, eff)
    ensures NextOk(eff.value, eff.next)
  {
  }

  lemma DataIsConsistent(s: State)
    requires DataOk(s)
    ensures Consistent(s.server)
  {
  }

  lemma SavedKeeps(s: State, c: nat, eff: Effect, row: Row<Record>)
    requires Inv(s) && c in s.calls && Early(s.calls[c]) && eff.Save?
    requires SaveOk(Proof(s), s.history, KeyOfOp(s.calls[c].op), eff) && Current(s.table.rows, KeyOfOp(s.calls[c].op), eff.expected)
    requires eff.newId.Some? ==> eff.newId.value !in s.table.ids
    requires row == Row(|Past(s.history, KeyOfOp(s.calls[c].op))|, IsWaiting(eff.value), eff.value)
    ensures Inv(Put(SavedData(s, KeyOfOp(s.calls[c].op), eff), c, AfterSave(s.calls[c], row, eff.next)))
  {
    hide DataOk, SaveOk, CallOk, PairsOk, AfterSave, NextOk;
    var k := KeyOfOp(s.calls[c].op);
    var u := SavedData(s, k, eff);
    assert NextOk(eff.value, eff.next) by { SaveGoesOn(Proof(s), s.history, k, eff); }
    SavedDataOk(s, k, eff);
    DataIsConsistent(s);
    CallsStable(Known(s), Known(u), s.calls);
    SavedCall(Known(u), s.calls[c], row, eff.next);
    EarlyFits(u.calls, AfterSave(s.calls[c], row, eff.next));
    PutKeeps(u, c, AfterSave(s.calls[c], row, eff.next));
  }

  lemma SaveKeeps(s: State, c: nat, eff: Effect)
    requires Inv(s) && c in s.calls && Early(s.calls[c]) && eff.Save?
    requires SaveOk(Proof(s), s.history, KeyOfOp(s.calls[c].op), eff)
    ensures Inv(SaveStep(s, c, s.calls[c], eff))
  {
    var k := KeyOfOp(s.calls[c].op);
    SaveIs(s, c, s.calls[c], eff);
    if OutcomeOf(s, k, eff).Saved? {
      SavedVersions(Proof(s), s, k, eff);
      SavedKeeps(s, c, eff, Row(|Past(s.history, k)|, IsWaiting(eff.value), eff.value));
    } else {
      EarlyPutKeeps(s, c, s.calls[c].(pc := Failed));
    }
  }
}
