/**
A call only acts on its own execution: what it takes as delivered, cancels or
reconciles on the server is what its record reserved, for the same device and
the same agent.
*/
module Ownership {
  import opened Json
  import opened Documents
  import opened Executions
  import opened CasStore
  import opened Servers
  import opened Protocol
  import opened Invariants
  import opened Preservation
  import opened Decisions
  import opened Guarantees
  import opened Readability
  import opened Bindings
  import GM = GoalMeanings
  import Goals
  import Runs

  // ---------------------------------------------------------------------
  // Offers and attempts of an input
  // ---------------------------------------------------------------------

  /** The server shows this input, delivered. Offer bodies are JSON. */
  ghost predicate IsDelivered(server: Server, input: Input)
  {
    && input.taskId in server.offers && server.offers[input.taskId].delivered
    && server.offers[input.taskId].deviceId == input.deviceId
    && (WellFormed(server.offers[input.taskId].payload) ==> SameJson(server.offers[input.taskId].payload, input.payload))
  }

  /** The attempt runs on the input's device, for its agent: by the two identity fields, or by the whole reference for a run. */
  ghost predicate IsAttempt(kind: Kind, a: Attempt, input: Input)
  {
    && a.deviceId == input.deviceId && a.agentRef.Some?
    && (!kind.RunKind? ==>
          && a.taskId == input.taskId
          && Get(a.agentRef.value, AGENT_ID) == GetIn(Get(input.payload, AGENT_REF), AGENT_ID)
          && Get(a.agentRef.value, PROFILE_REVISION) == GetIn(Get(input.payload, AGENT_REF), PROFILE_REVISION))
    && (kind.RunKind? ==>
          && Get(input.payload, AGENT_REF).Some?
          && (WellFormed(a.agentRef.value) ==> SameJson(a.agentRef.value, Get(input.payload, AGENT_REF).value)))
  }

  ghost predicate Own(kind: Kind, server: Server, input: Input)
  {
    input.taskId in server.attempts && IsAttempt(kind, server.attempts[input.taskId], input)
  }

  lemma {:induction false} LookupWellFormed(ms: seq<Member>, key: Text)
    requires WellFormed(Obj(ms)) && Lookup(ms, key).Some?
    ensures WellFormed(Lookup(ms, key).value)
  {
    if ms[0].key != key {
      assert WellFormed(Obj(ms[1..])) by { assert forall i :: 0 <= i < |ms[1..]| ==> ms[1..][i] == ms[i + 1]; }
      LookupWellFormed(ms[1..], key);
    }
  }

  /** The Hosts' comparison of agents is exact. */
  lemma MatchesIsExact(op: Op, a: Attempt, input: Input)
    requires WellFormed(input.payload)
    ensures Matches(op, a, input) ==> IsAttempt(KeyOfOp(op).kind, a, input)
    ensures IsAttempt(KeyOfOp(op).kind, a, input) && WellFormed(a.agentRef.value) ==> Matches(op, a, input)
  {
    hide Canonical, WellFormed, SameJson, KeyOfOp;
    if AgentRefOf(input).Some? {
      LookupWellFormed(input.payload.members, AGENT_REF);
      if a.agentRef.Some? && WellFormed(a.agentRef.value) {
        CanonicalDecidesEquality(a.agentRef.value, AgentRefOf(input).value);
      }
    }
  }

  lemma DeliveredIsInput(server: Server, input: Input)
    requires WellFormed(input.payload) && ReadOffer(server, input).WasDelivered?
    ensures IsDelivered(server, input)
  {
    hide Canonical, WellFormed, SameJson;
    if WellFormed(server.offers[input.taskId].payload) { ReadOfferIsExact(server, input); }
  }

  // ---------------------------------------------------------------------
  // What the position of a call has checked
  // ---------------------------------------------------------------------

  ghost predicate StoppedHolds(history: map<Key, seq<Record>>, k: Key, input: Input)
  {
    exists v :: StoppedWith(history, k, v, input)
  }

  ghost predicate StoppedWith(history: map<Key, seq<Record>>, k: Key, v: int, input: Input)
  {
    k in history && 0 <= v < |history[k]| && IsStopped(history[k][v]) && HasInput(history[k][v], input)
  }

  ghost predicate OwnPc(f: Facts, k: Key, sent: Option<Text>, pc: Pc)
  {
    match pc
    case Awaiting(input, _) => sent == Some(input.taskId)
    case Rereading(input, _) => sent == Some(input.taskId) || IsDelivered(f.server, input)
    case Flush(input) => StoppedHolds(f.history, k, input)
    case FlushOffer(input) => StoppedHolds(f.history, k, input) && Own(k.kind, f.server, input)
    case FlushCancel(input) => StoppedHolds(f.history, k, input) && Own(k.kind, f.server, input)
    case AtTerminal(_, input) => Own(k.kind, f.server, input)
    case SecondLook(_, input, _) => Own(k.kind, f.server, input)
    case Judging(_, input, _) => Own(k.kind, f.server, input)
    case _ => true
  }

  /** What a sender re-read the record for was its own submission, or a delivered offer of the reserved input. */
  ghost predicate OwnMark(s: State, sent: Option<Text>, m: Mark)
  {
    sent == Some(m.taskId) || (m.taskId in s.reserved && IsDelivered(s.server, s.reserved[m.taskId].input))
  }

  ghost predicate OwnCall(s: State, call: Call)
  {
    && OwnPc(Known(s), KeyOfOp(call.op), call.sent, call.pc)
    && (call.reread.Some? ==> OwnMark(s, call.sent, call.reread.value))
  }

  ghost predicate AllOwn(s: State)
  {
    forall c :: c in s.calls ==> OwnCall(s, s.calls[c])
  }

  lemma DeliveredStays(a: Server, b: Server, input: Input)
    requires Grows(a, b) && IsDelivered(a, input)
    ensures IsDelivered(b, input)
  {
    hide WellFormed, SameJson, Consistent;
  }

  lemma OwnStays(s: State, u: State, call: Call)
    requires Later(s, u) && OwnCall(s, call)
    ensures OwnCall(u, call)
  {
    hide IsDelivered, IsAttempt, KeyOfOp, IsStopped, Consistent;
    if call.pc.Rereading? && IsDelivered(s.server, call.pc.input) { DeliveredStays(s.server, u.server, call.pc.input); }
    if call.reread.Some? && call.sent != Some(call.reread.value.taskId) {
      DeliveredStays(s.server, u.server, s.reserved[call.reread.value.taskId].input);
    }
    if FlushInput(call.pc).Some? {
      var input := FlushInput(call.pc).value;
      var v :| StoppedWith(s.history, KeyOfOp(call.op), v, input);
      assert StoppedWith(u.history, KeyOfOp(call.op), v, input);
    }
  }

  // ---------------------------------------------------------------------
  // Every step keeps to it
  // ---------------------------------------------------------------------

  lemma PayloadOf(r: Record, input: Input)
    requires Faithful(r) && HasInput(r, input)
    ensures WellFormed(input.payload)
  {
    hide WellFormed, ValidTarget, GM.Conveys;
  }

  /** Wherever a call looks at the server, the input it looks for has a well-formed payload. */
  lemma InputOf(s: State, call: Call, input: Input)
    requires CallOk(Known(s), call) && AllFaithful(s) && OwnPc(Known(s), KeyOfOp(call.op), call.sent, call.pc)
    requires call.pc in {Verify(input, AtOf(call.pc)), Doubting(input, AtOf(call.pc))} || FlushInput(call.pc) == Some(input)
      || (call.pc.ProbeOffer? && call.pc.input == input) || (call.pc.Probe? && call.pc.input == input)
    ensures WellFormed(input.payload)
  {
    hide WellFormed, Faithful, IsAttempt, StopOk, RereadOk, IsStopped, KeyOfOp;
    var k := KeyOfOp(call.op);
    if FlushInput(call.pc).Some? {
      var v :| StoppedWith(s.history, k, v, input);
      PayloadOf(s.history[k][v], input);
    } else if call.pc.ProbeOffer? || call.pc.Probe? {
      PayloadOf(s.history[k][call.pc.row.revision], input);
    } else {
      PayloadOf(s.history[k][call.pc.at], input);
    }
  }

  function AtOf(pc: Pc): int
  {
    match pc
    case Verify(_, at) => at
    case Doubting(_, at) => at
    case _ => 0
  }

  ghost predicate OwnEffect(s: State, call: Call, eff: Effect)
  {
    match eff
    case Move(pc) => OwnPc(Known(s), KeyOfOp(call.op), call.sent, pc)
    case Seen(mark, pc) => OwnPc(Known(s), KeyOfOp(call.op), call.sent, pc) && OwnMark(s, call.sent, mark)
    case _ => true
  }

  lemma ChaseOwn(s: State, k: Key, row: Snapshot, sent: Option<Text>)
    requires Snap(s.history, k, row) && IsStopped(row.value)
    ensures OwnPc(Known(s), k, sent, ChasePc(row.value))
  {
    hide IsStopped;
    if PendingOf(row.value).Some? { assert StoppedWith(s.history, k, row.revision, PendingOf(row.value).value.input); }
  }

  lemma LoadedOwn(s: State, call: Call, row: Snapshot, o: Oracle)
    requires Snap(s.history, KeyOfOp(call.op), row)
    ensures OwnEffect(s, call, DecideLoaded(call.op, row, o))
  {
    hide StoppedHolds, ChasePc, Snap, KeyOfOp, Own, IsDelivered, Goals.ReserveStep, Goals.Resume, Goals.Pause, Goals.Cancel, Goals.Expire,
      Runs.Answer, Runs.Cancel, Runs.ChangeContext, Runs.Close, Runs.Last, Runs.Due, Goals.MarkSending, Runs.MarkSending;
    if IsStopped(row.value) { ChaseOwn(s, KeyOfOp(call.op), row, call.sent); }
  }

  lemma SightOwn(s: State, call: Call, row: Snapshot, input: Input, sight: Sight, o: Oracle)
    requires Own(KeyOfOp(call.op).kind, s.server, input)
    ensures OwnEffect(s, call, DecideSight(row, input, sight, o))
  {
    hide StoppedHolds, Own, IsDelivered, KeyOfOp, ReadReport, Goals.SettleBtw, Runs.Reconcile, Goals.Settle, Goals.Block;
  }

  lemma BeginOwn(s: State, call: Call, o: Oracle)
    ensures OwnEffect(s, call, DecideBegin(s, call.op, o))
  {
    hide Goals.Start, Runs.Start, Goals.ValidBtwArgs, Fetch, StoppedHolds, Own, IsDelivered, KeyOfOp;
  }

  lemma LookingOwn(s: State, call: Call, o: Oracle)
    requires CallOk(Known(s), call) && AllFaithful(s) && OwnPc(Known(s), KeyOfOp(call.op), call.sent, call.pc)
    requires call.pc.Verify? || call.pc.Doubting? || FlushInput(call.pc).Some? || call.pc.ProbeOffer? || call.pc.Probe?
    ensures OwnEffect(s, call, Decide(s, call, o))
  {
    hide AllFaithful, CallOk, StoppedHolds, IsDelivered, IsAttempt, KeyOfOp, Matches, ReadOffer, WellFormed,
      DecideBegin, DecideLoaded, DecideSight, DecideJudged, Fetch, Goals.ReserveBtw;
    var input := call.pc.input;
    InputOf(s, call, input);
    if input.taskId in s.server.attempts { MatchesIsExact(call.op, s.server.attempts[input.taskId], input); }
    if ReadOffer(s.server, input).WasDelivered? { DeliveredIsInput(s.server, input); }
  }

  lemma RereadingOwn(s: State, call: Call, o: Oracle)
    requires Inv(s) && CallOk(Known(s), call) && OwnPc(Known(s), KeyOfOp(call.op), call.sent, call.pc)
    requires call.pc.Rereading? || call.pc.Recheck?
    ensures OwnEffect(s, call, Decide(s, call, o))
  {
    hide StoppedHolds, IsDelivered, KeyOfOp, Fetch, ChasePc, IsStopped, StopOk, RereadOk, CallsOk, PairsOk, HistoryOk, SubmitsOk, AcceptedOk, CompletedOk,
      Own, DecideBegin, DecideLoaded, DecideSight, DecideJudged, ReadOffer, Matches, Goals.ReserveBtw, HeldSince, ReservationOk, RowOk;
    var k := KeyOfOp(call.op);
    Guarantees.Bound(s, k, call.pc.at);
    if Fetch(s, k).Some? {
      Fetched(s, k);
      if IsStopped(Fetch(s, k).value.value) { ChaseOwn(s, k, Fetch(s, k).value, call.sent); }
    }
  }

  lemma DecideOwn(s: State, call: Call, o: Oracle)
    requires Inv(s) && CallOk(Known(s), call) && AllFaithful(s) && OwnCall(s, call)
    ensures OwnEffect(s, call, Decide(s, call, o))
  {
    hide Inv, AllFaithful, Fetch, ReadOffer, DecideBegin, DecideLoaded, DecideSight, DecideJudged, Goals.ReserveBtw,
      Matches, StoppedHolds, Own, IsDelivered, KeyOfOp, OwnMark, StopOk, RereadOk;
    match call.pc
    case Begin => BeginOwn(s, call, o);
    case Loaded(row) => LoadedOwn(s, call, row, o);
    case SecondLook(row, input, terminal) => SightOwn(s, call, row, input, Observe(s.server, input, terminal), o);
    case Judging(row, _, decision) => JudgedSaves(row, decision, o);
    case Rereading(_, _) => RereadingOwn(s, call, o);
    case Recheck(_, _) => RereadingOwn(s, call, o);
    case Verify(_, _) => LookingOwn(s, call, o);
    case Doubting(_, _) => LookingOwn(s, call, o);
    case Flush(_) => LookingOwn(s, call, o);
    case FlushOffer(_) => LookingOwn(s, call, o);
    case FlushCancel(_) => LookingOwn(s, call, o);
    case ProbeOffer(_, _) => LookingOwn(s, call, o);
    case Probe(_, _) => LookingOwn(s, call, o);
    case _ =>
  }

  lemma JudgedSaves(row: Snapshot, decision: Decision, o: Oracle)
    ensures DecideJudged(row, decision, o).Save? || DecideJudged(row, decision, o) == Move(Failed)
  {
    hide Goals.Conclude, Goals.Settle, Goals.Block;
  }

  lemma SavedOwn(s: State, c: nat, call: Call, eff: Effect)
    requires eff.Save? && NextOk(eff.value, eff.next) && OwnCall(s, call) && Later(s, SaveStep(s, c, call, eff))
    ensures c in SaveStep(s, c, call, eff).calls && OwnCall(SaveStep(s, c, call, eff), SaveStep(s, c, call, eff).calls[c])
  {
    hide SaveStep, Later, OwnMark, IsStopped, KeyOfOp, Own, IsDelivered, PendingOf;
    var u := SaveStep(s, c, call, eff);
    SavedGoes(s, c, call, eff);
    OwnStays(s, u, call);
    var k := KeyOfOp(call.op);
    if u.calls[c].pc.Flush? {
      SavedIsLast(s, c, call, eff);
      assert StoppedWith(u.history, k, |u.history[k]| - 1, u.calls[c].pc.input);
    }
  }

  lemma SavedGoes(s: State, c: nat, call: Call, eff: Effect)
    requires eff.Save?
    ensures var u := SaveStep(s, c, call, eff);
      && c in u.calls && u.calls[c].op == call.op && u.calls[c].sent == call.sent && u.calls[c].reread == call.reread
      && (u.calls[c].pc.Done? || u.calls[c].pc.Failed? || u.calls[c].pc.Verify? || u.calls[c].pc.Flush?)
  {
    hide Commit, Book, KeyOfOp, PendingOf, IsWaiting;
  }

  lemma SavedIsLast(s: State, c: nat, call: Call, eff: Effect)
    requires eff.Save? && SaveStep(s, c, call, eff).calls[c].pc.Flush?
    ensures var u := SaveStep(s, c, call, eff);
      var k := KeyOfOp(call.op);
      && k in u.history && u.history[k] != [] && u.history[k][|u.history[k]| - 1] == eff.value
      && eff.next.ChaseSaved? && HasInput(eff.value, u.calls[c].pc.input)
  {
    hide KeyOfOp, Book, WaitingOthers;
  }

  lemma ApplyOwn(s: State, c: nat, call: Call, eff: Effect)
    requires OwnCall(s, call) && OwnEffect(s, call, eff) && Later(s, Apply(s, c, call, eff))
    requires eff.Save? ==> NextOk(eff.value, eff.next)
    requires eff.Become? ==> KeyOfOp(eff.op) == KeyOfOp(call.op)
    requires eff.Submit? ==> call.reread.None?
    ensures c in Apply(s, c, call, eff).calls && OwnCall(Apply(s, c, call, eff), Apply(s, c, call, eff).calls[c])
  {
    hide SaveStep, Later, NextOk, StoppedHolds, Own, IsDelivered, KeyOfOp;
    var u := Apply(s, c, call, eff);
    match eff
    case Save(_, _, _, _) => SavedOwn(s, c, call, eff);
    case Move(pc) => OwnStays(s, u, call.(pc := pc));
    case Seen(mark, pc) => OwnStays(s, u, call.(pc := pc, reread := Some(mark)));
    case Become(op) => OwnStays(s, u, call.(pc := Begin));
    case Submit(_, _) =>
    case RequestCancel(_) => OwnStays(s, u, call.(pc := Done(None)));
    case Miss => OwnStays(s, u, call.(pc := Done(None)));
  }

  lemma OnlyUnreadSubmit(s: State, call: Call, o: Oracle)
    requires CallOk(Known(s), call) && Decide(s, call, o).Submit?
    ensures call.reread.None? && call.pc == Submitting(Decide(s, call, o).input, Decide(s, call, o).at)
  {
    hide PcOk, StopOk, RereadOk, DecideBegin, DecideLoaded, DecideSight, DecideJudged, Fetch, ReadOffer, Matches, Goals.ReserveBtw;
    match call.pc
    case Begin => BeginGently(s, call.op, o);
    case Loaded(row) => LoadedGently(call.op, row, o);
    case SecondLook(row, input, terminal) => SightGently(row, input, Observe(s.server, input, terminal), o);
    case Judging(row, _, decision) => JudgedSaves(row, decision, o);
    case _ =>
  }

  /** Only a cancelling call touches the server, and only a submitting one submits. */
  ghost predicate Gentle(eff: Effect)
  {
    !eff.Submit? && !eff.RequestCancel?
  }

  lemma BeginGently(s: State, op: Op, o: Oracle)
    ensures Gentle(DecideBegin(s, op, o))
  {
    hide Goals.Start, Runs.Start, Goals.ValidBtwArgs, Fetch;
  }

  lemma LoadedGently(op: Op, row: Snapshot, o: Oracle)
    ensures Gentle(DecideLoaded(op, row, o))
  {
    hide Goals.ReserveStep, Goals.Resume, Goals.Pause, Goals.Cancel, Runs.Answer, Runs.Cancel, Runs.ChangeContext, Runs.Close, Runs.Last;
  }

  lemma SightGently(row: Snapshot, input: Input, sight: Sight, o: Oracle)
    ensures Gentle(DecideSight(row, input, sight, o))
  {
    hide ReadReport, Goals.SettleBtw, Runs.Reconcile;
  }

  lemma ActOwn(s: State, c: nat, o: Oracle)
    requires Inv(s) && AllFaithful(s) && AllOwn(s) && c in s.calls && IsNoted(s, s.calls[c], o)
    requires !s.calls[c].pc.Done? && !s.calls[c].pc.Failed?
    ensures AllOwn(Act(s, c, o))
  {
    hide Decide, Apply, PairsOk, CallOk, IsNoted, AllFaithful, OwnCall, OwnEffect, Later, NextOk, KeyOfOp, HistoryOk, TableOk, SubmitsOk, AcceptedOk, CompletedOk;
    var call := s.calls[c];
    assert CallOk(Known(s), call) && OwnCall(s, call);
    var eff := Decide(s, call, o);
    DecideOwn(s, call, o);
    DecidesWell(s, call, o);
    ApplyIsLater(s, c, call, eff);
    if eff.Submit? { OnlyUnreadSubmit(s, call, o); }
    ApplyOwn(s, c, call, eff);
    forall d | d in Act(s, c, o).calls && d != c
      ensures OwnCall(Act(s, c, o), Act(s, c, o).calls[d])
    {
      OthersSame(s, c, call, eff, d);
      OwnStays(s, Act(s, c, o), s.calls[d]);
    }
  }

  lemma NotedOwn(s: State, c: nat, o: Oracle)
    requires Inv(s) && c in s.calls && AllFaithful(s) && AllOwn(s)
    ensures AllFaithful(Noted(s, s.calls[c], o)) && AllOwn(Noted(s, s.calls[c], o))
  {
    hide Noted, Faithful, OwnCall, Inv, Later;
    var u := Noted(s, s.calls[c], o);
    NotedIsLater(s, c, o);
    forall d | d in u.calls
      ensures OwnCall(u, u.calls[d])
    {
      OwnStays(s, u, s.calls[d]);
    }
  }

  lemma StepOwn(s: State, a: Action)
    requires Inv(s) && AllFaithful(s) && AllOwn(s)
    ensures AllOwn(Step(s, a))
  {
    hide Act, Noted, Inv, IsNoted, AllFaithful, Later, OwnMark, Own, IsDelivered, StoppedHolds;
    match a
    case Advance(c, o) =>
      if c in s.calls && !s.calls[c].pc.Done? && !s.calls[c].pc.Failed? {
        NotedKeeps(s, c, o);
        NotedOwn(s, c, o);
        ActOwn(Noted(s, s.calls[c], o), c, o);
      }
    case _ =>
      var u := Step(s, a);
      StepIsLater(s, a);
      forall c | c in u.calls
        ensures OwnCall(u, u.calls[c])
      {
        if c in s.calls { OwnStays(s, u, s.calls[c].(pc := u.calls[c].pc)); }
      }
  }

  lemma {:induction false} OwnAlways(run: seq<State>, n: nat)
    requires IsRun(run) && n < |run|
    ensures AllOwn(run[n])
  {
    hide Step, Inv, AllFaithful, OwnCall;
    if n > 0 {
      OwnAlways(run, n - 1);
      FaithfulAlways(run, n - 1);
      Reachable(run, n - 1);
      assert MovesAt(run, n - 1);
      var a :| run[n] == Step(run[n - 1], a);
      StepOwn(run[n - 1], a);
    }
  }

  // ---------------------------------------------------------------------
  // What this says of runs
  // ---------------------------------------------------------------------

  /** The input a call looks for is the one its task id was reserved with, for the record of the call. */
  ghost predicate IsReserved(s: State, k: Key, input: Input)
  {
    input.taskId in s.reserved && s.reserved[input.taskId].input == input && s.reserved[input.taskId].key == k
  }

  lemma VersionReserved(s: State, k: Key, v: nat, input: Input)
    requires ReservedOk(s.table.ids, s.reserved, s.history) && Version(s, k, v) && HasInput(s.history[k][v], input)
    ensures IsReserved(s, k, input)
  {
    Guarantees.Bound(s, k, v);
  }

  lemma StaysCalled(s: State, c: nat, call: Call, eff: Effect)
    ensures c in Apply(s, c, call, eff).calls
  {
    hide Commit, Book, AfterSave;
  }

  /** Only its own step, a crash or nothing moves a call. */
  lemma CallMoves(s: State, a: Action, c: nat)
    requires c in s.calls
    ensures c in Step(s, a).calls
    ensures Step(s, a).calls[c] == s.calls[c] || Step(s, a).calls[c].pc.Failed?
      || (a.Advance? && a.c == c && Step(s, a) == Act(Noted(s, s.calls[c], a.o), c, a.o))
  {
    hide Decide, Noted, JsonArguments, Grows, Apply;
    match a
    case Advance(d, o) =>
      if d in s.calls && !s.calls[d].pc.Done? && !s.calls[d].pc.Failed? {
        var n := Noted(s, s.calls[d], o);
        if d != c { OthersSame(n, d, n.calls[d], Decide(n, n.calls[d], o), c); }
        StaysCalled(n, d, n.calls[d], Decide(n, n.calls[d], o));
      }
    case _ =>
  }

  /**
  A sender that goes on without submitting, or after a submission in doubt, has
  seen a delivered offer equal to the input its record reserved.
  */
  lemma DeliveredIsReserved(run: seq<State>, n: nat, c: nat)
    requires IsRun(run) && n + 1 < |run| && c in run[n].calls && c in run[n + 1].calls
    requires (run[n].calls[c].pc.Verify? || run[n].calls[c].pc.Doubting?) && run[n + 1].calls[c].pc.Rereading?
    ensures var input := run[n].calls[c].pc.input;
      IsDelivered(run[n].server, input) && IsReserved(run[n], KeyOfOp(run[n].calls[c].op), input)
  {
    hide IsRun, Step, Inv, OwnPc, OwnMark, IsDelivered, IsReserved, AllFaithful, CallOk, Act;
    var s := run[n];
    Reachable(run, n);
    FaithfulAlways(run, n);
    OwnAlways(run, n);
    assert MovesAt(run, n) by { RunMoves(run, n); }
    var a :| run[n + 1] == Step(s, a);
    CallMoves(s, a, c);
    LooksDelivered(s, c, a);
  }

  lemma RunMoves(run: seq<State>, n: nat)
    requires IsRun(run) && n + 1 < |run|
    ensures MovesAt(run, n)
  {
  }

  lemma LooksDelivered(s: State, c: nat, a: Action)
    requires Inv(s) && AllFaithful(s) && AllOwn(s) && c in s.calls && a.Advance? && a.c == c
    requires s.calls[c].pc.Verify? || s.calls[c].pc.Doubting?
    requires c in Act(Noted(s, s.calls[c], a.o), c, a.o).calls && Act(Noted(s, s.calls[c], a.o), c, a.o).calls[c].pc.Rereading?
    ensures IsDelivered(s.server, s.calls[c].pc.input) && IsReserved(s, KeyOfOp(s.calls[c].op), s.calls[c].pc.input)
  {
    hide AllFaithful, KeyOfOp, ReadOffer, IsDelivered, WellFormed, HistoryOk, TableOk, SubmitsOk, AcceptedOk, CompletedOk, PairsOk,
      StopOk, RereadOk, OwnPc, ReservedOk;
    var call := s.calls[c];
    assert CallOk(Known(s), call) && OwnCall(s, call);
    InputOf(s, call, call.pc.input);
    DeliveredIsInput(s.server, call.pc.input);
    VersionReserved(s, KeyOfOp(call.op), call.pc.at, call.pc.input);
  }

  /** Every sender that re-read the record did so for its own submission or for a delivered offer of the reserved input. */
  lemma RereadIsOwn(run: seq<State>, n: nat, c: nat)
    requires IsRun(run) && n < |run| && c in run[n].calls && run[n].calls[c].reread.Some?
    ensures OwnMark(run[n], run[n].calls[c].sent, run[n].calls[c].reread.value)
  {
    hide IsRun, OwnMark, OwnPc;
    OwnAlways(run, n);
    assert OwnCall(run[n], run[n].calls[c]);
  }

  /** What a call reconciles from is an attempt at the reserved input: same device, same agent. */
  lemma ReconcilesOwn(run: seq<State>, n: nat, c: nat)
    requires IsRun(run) && n < |run| && c in run[n].calls
    requires run[n].calls[c].pc.SecondLook? || run[n].calls[c].pc.Judging?
    ensures var k := KeyOfOp(run[n].calls[c].op);
      Own(k.kind, run[n].server, run[n].calls[c].pc.input) && IsReserved(run[n], k, run[n].calls[c].pc.input)
  {
    hide IsRun, OwnMark, KeyOfOp, HistoryOk, TableOk, SubmitsOk, AcceptedOk, CompletedOk, PairsOk, StopOk, RereadOk, ReservedOk, IsReserved;
    var s, call := run[n], run[n].calls[c];
    Reachable(run, n);
    OwnAlways(run, n);
    assert OwnCall(s, call) && CallOk(Known(s), call);
    VersionReserved(s, KeyOfOp(call.op), call.pc.row.revision, call.pc.input);
  }

  /** A cancellation is requested only for the execution of a stopped version of the call's record, on its own attempt. */
  lemma CancelsOwn(run: seq<State>, n: nat, c: nat, o: Oracle, t: Text)
    requires IsRun(run) && n + 1 < |run| && run[n + 1] == Step(run[n], Advance(c, o))
    requires t in run[n + 1].server.cancels && t !in run[n].server.cancels
    ensures c in run[n].calls && run[n].calls[c].pc.FlushCancel?
    ensures var input := run[n].calls[c].pc.input;
      var k := KeyOfOp(run[n].calls[c].op);
      && input.taskId == t && StoppedHolds(run[n].history, k, input)
      && IsReserved(run[n], k, input) && Own(k.kind, run[n].server, input)
  {
    hide IsRun, Noted, Act, OwnMark, KeyOfOp, HistoryOk, TableOk, SubmitsOk, AcceptedOk, CompletedOk, PairsOk, CallOk, IsReserved, ReservedOk, IsStopped, Own;
    var s := run[n];
    Reachable(run, n);
    OwnAlways(run, n);
    ActCancels(Noted(s, s.calls[c], o), c, o, t);
    assert OwnCall(s, s.calls[c]);
    var input := s.calls[c].pc.input;
    var v :| StoppedWith(s.history, KeyOfOp(s.calls[c].op), v, input);
    VersionReserved(s, KeyOfOp(s.calls[c].op), v, input);
  }

  lemma ActCancels(s: State, c: nat, o: Oracle, t: Text)
    requires c in s.calls && t in Act(s, c, o).server.cancels && t !in s.server.cancels
    ensures s.calls[c].pc.FlushCancel? && s.calls[c].pc.input.taskId == t
  {
    hide DecideBegin, DecideLoaded, DecideSight, DecideJudged, Fetch, ReadOffer, Matches, Goals.ReserveBtw, Commit, Book, AfterSave;
    var call := s.calls[c];
    match call.pc
    case Begin => BeginGently(s, call.op, o);
    case Loaded(row) => LoadedGently(call.op, row, o);
    case SecondLook(row, input, terminal) => SightGently(row, input, Observe(s.server, input, terminal), o);
    case Judging(row, _, decision) => JudgedSaves(row, decision, o);
    case _ =>
  }

  /** A call that finds a foreign offer under its task id stops there; one that finds its own goes on. */
  lemma OfferDecides(run: seq<State>, n: nat, c: nat, o: Oracle)
    requires IsRun(run) && n < |run| && c in run[n].calls
    requires run[n].calls[c].pc.Verify? || run[n].calls[c].pc.FlushOffer? || run[n].calls[c].pc.ProbeOffer?
    requires run[n].calls[c].pc.input.taskId in run[n].server.offers
    requires WellFormed(run[n].server.offers[run[n].calls[c].pc.input.taskId].payload)
    ensures var input := run[n].calls[c].pc.input;
      Decide(run[n], run[n].calls[c], o) == Move(Failed) <==> !IsInput(run[n].server.offers[input.taskId], input)
  {
    hide IsRun, Inv, AllFaithful, CallOk, OwnPc, OwnMark, IsInput, WellFormed, ReadOffer, Matches;
    Reachable(run, n);
    FaithfulAlways(run, n);
    OwnAlways(run, n);
    var call := run[n].calls[c];
    assert CallOk(Known(run[n]), call) && OwnCall(run[n], call) by { CallIsOk(run[n], c); }
    InputOf(run[n], call, call.pc.input);
    ReadOfferIsExact(run[n].server, call.pc.input);
  }

  lemma CallIsOk(s: State, c: nat)
    requires Inv(s) && c in s.calls
    ensures CallOk(Known(s), s.calls[c])
  {
    hide DataOk, PairsOk, CallOk;
  }

  /** A sender that finds its record stopped, or its goal no longer active, does not submit. */
  lemma SubmitsLive(run: seq<State>, n: nat, c: nat)
    requires IsRun(run) && n + 1 < |run| && c in run[n].calls && c in run[n + 1].calls
    requires run[n].calls[c].pc.Recheck? && run[n + 1].calls[c].pc.Submitting?
    ensures var k := KeyOfOp(run[n].calls[c].op);
      && k in run[n].table.rows && !IsStopped(run[n].table.rows[k].value)
      && (run[n].table.rows[k].value.GoalRec? ==> run[n].table.rows[k].value.goal.status.Active?)
  {
    hide IsRun, Step, Act, KeyOfOp, IsStopped;
    RunMoves(run, n);
    var a :| run[n + 1] == Step(run[n], a);
    CallMoves(run[n], a, c);
    RechecksLive(run[n], c, a.o);
  }

  lemma RechecksLive(s: State, c: nat, o: Oracle)
    requires c in s.calls && s.calls[c].pc.Recheck?
    requires var n := Noted(s, s.calls[c], o);
      c in Act(n, c, o).calls && Act(n, c, o).calls[c].pc.Submitting?
    ensures var k := KeyOfOp(s.calls[c].op);
      && k in s.table.rows && !IsStopped(s.table.rows[k].value)
      && (s.table.rows[k].value.GoalRec? ==> s.table.rows[k].value.goal.status.Active?)
  {
    hide KeyOfOp, IsStopped, Readable, DecideBegin, DecideLoaded, DecideSight, DecideJudged, Matches, ReadOffer;
  }

  /** A side question is prepared only beside a main task that is visible, uncancelled and has an agent. */
  lemma MainIsRunning(run: seq<State>, n: nat, c: nat)
    requires IsRun(run) && n + 1 < |run| && c in run[n].calls && c in run[n + 1].calls
    requires run[n].calls[c].pc.Begin? && run[n + 1].calls[c].pc.MainSeen?
    ensures run[n].calls[c].op.ReserveBtw?
    ensures var t := run[n].calls[c].op.args.mainTaskId;
      && t in run[n].server.attempts && t !in run[n].server.cancels && run[n].server.attempts[t].agentRef.Some?
      && run[n + 1].calls[c].pc.mainAgentId == TextAt(Get(run[n].server.attempts[t].agentRef.value, AGENT_ID))
  {
    hide IsRun, Step, Act;
    RunMoves(run, n);
    var a :| run[n + 1] == Step(run[n], a);
    CallMoves(run[n], a, c);
    SeesMain(Noted(run[n], run[n].calls[c], a.o), c, a.o);
  }

  lemma SeesMain(s: State, c: nat, o: Oracle)
    requires c in s.calls && s.calls[c].pc.Begin? && c in Act(s, c, o).calls && Act(s, c, o).calls[c].pc.MainSeen?
    ensures s.calls[c].op.ReserveBtw?
    ensures var t := s.calls[c].op.args.mainTaskId;
      && t in s.server.attempts && t !in s.server.cancels && s.server.attempts[t].agentRef.Some?
      && Act(s, c, o).calls[c].pc.mainAgentId == TextAt(Get(s.server.attempts[t].agentRef.value, AGENT_ID))
  {
    hide DecideBegin, Apply;
    BeginSees(s, s.calls[c].op, o);
    MovedToMain(s, c, s.calls[c], DecideBegin(s, s.calls[c].op, o));
  }

  lemma MovedToMain(s: State, c: nat, call: Call, eff: Effect)
    requires c in Apply(s, c, call, eff).calls && Apply(s, c, call, eff).calls[c].pc.MainSeen? && !eff.Seen?
    ensures eff == Move(Apply(s, c, call, eff).calls[c].pc)
  {
    hide Commit, Book;
  }

  lemma BeginSees(s: State, op: Op, o: Oracle)
    ensures var eff := DecideBegin(s, op, o);
      eff.Move? && eff.pc.MainSeen? ==>
        && op.ReserveBtw? && op.args.mainTaskId in s.server.attempts && op.args.mainTaskId !in s.server.cancels
        && s.server.attempts[op.args.mainTaskId].agentRef.Some?
        && eff.pc.mainAgentId == TextAt(Get(s.server.attempts[op.args.mainTaskId].agentRef.value, AGENT_ID))
    ensures var eff := DecideBegin(s, op, o);
      !eff.Seen? && (eff.Save? ==> !eff.next.VerifySaved?)
  {
    hide Goals.Start, Runs.Start, Goals.ValidBtwArgs, Fetch;
  }
}
