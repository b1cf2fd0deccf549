/**
The chase as a property of states: when a stopped record still holds a task, a
sender of it and whoever stopped the record have returned, the task has a
cancellation request or has ended, unless the stop was a resume.
*/
module Closing {
  import opened Json
  import opened Documents
  import opened Executions
  import opened CasStore
  import opened Servers
  import opened Protocol
  import opened Invariants
  import opened Preservation
  import opened Decisions
  import opened Guarantees
  import opened Chase
  import Goals
  import Runs

  // ---------------------------------------------------------------------
  // What a call leaves behind stays
  // ---------------------------------------------------------------------

  ghost predicate Continues(a: Call, b: Call)
  {
    && KeyOfOp(b.op) == KeyOfOp(a.op)
    && (a.stop.Some? ==> b.stop == a.stop)
    && (a.sent.Some? ==> b.sent == a.sent)
    && (a.op.ResumeGoal? ==> b.op == a.op && (a.pc.Done? ==> b.pc.Done?))
  }

  /** A resume loads, writes and returns. */
  ghost predicate ResumeFits(call: Call)
  {
    call.op.ResumeGoal? ==>
      call.pc.Begin? || (call.pc.Loaded? && call.pc.row.revision == call.op.revision) || call.pc.Done? || call.pc.Failed?
  }

  ghost predicate AllFit(s: State)
  {
    forall c :: c in s.calls ==> ResumeFits(s.calls[c])
  }

  /** Nothing is stopped or sent twice, and a resume stays one. */
  ghost predicate Gentle(call: Call, eff: Effect)
  {
    && (eff.Save? ==> call.stop.None?)
    && (eff.Submit? ==> call.sent.None?)
    && (eff.Become? ==> KeyOfOp(eff.op) == KeyOfOp(call.op) && !call.op.ResumeGoal?)
  }

  lemma ApplyContinues(s: State, c: nat, call: Call, eff: Effect)
    requires Gentle(call, eff) && !call.pc.Done?
    ensures c in Apply(s, c, call, eff).calls && Continues(call, Apply(s, c, call, eff).calls[c])
  {
    hide Commit, Book, ChasePc;
  }

  /** The second version is what a resume makes of the first, at some reading of the clock. */
  ghost predicate ResumesTo(a: Record, b: Record)
  {
    a.GoalRec? && b.GoalRec? && exists now :: Goals.Resume(a.goal, now) == Ok(b.goal)
  }

  /** What a resume saves, from the snapshot it loaded. */
  ghost predicate SavesResumed(call: Call, eff: Effect)
    requires eff.Save?
  {
    && call.op.ResumeGoal? && call.pc.Loaded? && call.pc.row.revision == call.op.revision
    && eff.expected == Some(call.op.revision) && eff.next.Finish? && ResumesTo(call.pc.row.value, eff.value)
  }

  /** What a resume does next. */
  lemma ResumeDecides(s: State, call: Call, o: Oracle)
    requires call.op.ResumeGoal? && ResumeFits(call) && !call.pc.Done? && !call.pc.Failed?
    ensures var eff := Decide(s, call, o);
      || (eff.Move? && (eff.pc.Failed? || (eff.pc.Loaded? && eff.pc.row.revision == call.op.revision)))
      || (eff.Save? && SavesResumed(call, eff))
  {
    hide Fetch, ReadOffer, DecideSight, DecideJudged, Matches, Goals.Resume;
  }

  lemma ResumeStaysFit(s: State, c: nat, call: Call, o: Oracle)
    requires call.op.ResumeGoal? && ResumeFits(call) && !call.pc.Done? && !call.pc.Failed?
    ensures var u := Apply(s, c, call, Decide(s, call, o)); c in u.calls && ResumeFits(u.calls[c])
  {
    hide Decide, Commit, Book;
    ResumeDecides(s, call, o);
  }

  lemma BecomesTick(s: State, call: Call, o: Oracle)
    requires !call.op.ResumeGoal? && Decide(s, call, o).Become?
    ensures !Decide(s, call, o).op.ResumeGoal?
  {
    hide Fetch, ReadOffer, DecideBegin, DecideSight, DecideJudged, Matches, Goals.ReserveBtw;
    OthersNeverBecome(s, call, o);
  }

  lemma OthersNeverBecome(s: State, call: Call, o: Oracle)
    ensures !DecideBegin(s, call.op, o).Become?
    ensures call.pc.SecondLook? ==> !DecideSight(call.pc.row, call.pc.input, Observe(s.server, call.pc.input, call.pc.terminal), o).Become?
    ensures call.pc.Judging? ==> !DecideJudged(call.pc.row, call.pc.decision, o).Become?
  {
    hide Goals.Start, Runs.Start, Goals.ValidBtwArgs, Fetch, ReadReport, Goals.SettleBtw, Runs.Reconcile, Goals.Conclude;
  }

  lemma DecidesGently(s: State, call: Call, o: Oracle)
    requires DataOk(s) && CallOk(Known(s), call) && IsNoted(s, call, o) && SentOk(call) && ResumeFits(call)
    requires !call.pc.Done? && !call.pc.Failed?
    ensures Gentle(call, Decide(s, call, o))
  {
    hide Decide, DataOk, PcOk, SaveOk, IsNoted;
    if call.stop.Some? { FlushingOk(s, call, o); }
    if call.sent.Some? { SentStays(s, call, o); }
    if call.op.ResumeGoal? { ResumeDecides(s, call, o); }
    DecidesWell(s, call, o);
  }

  ghost predicate AllContinue(s: State, u: State)
  {
    forall c :: c in s.calls ==> c in u.calls && Continues(s.calls[c], u.calls[c])
  }

  lemma ActContinues(s: State, c: nat, o: Oracle)
    requires Inv(s) && AllSentOk(s) && AllFit(s) && Live(s, c) && IsNoted(s, s.calls[c], o)
    ensures AllContinue(s, Act(s, c, o)) && AllFit(Act(s, c, o))
  {
    hide Decide, Apply, DataOk, PairsOk, CallOk, IsNoted, SentOk, ResumeFits, Gentle;
    var call := s.calls[c];
    var eff := Decide(s, call, o);
    assert CallOk(Known(s), call) && SentOk(call) && ResumeFits(call);
    DecidesGently(s, call, o);
    ApplyContinues(s, c, call, eff);
    ActFits(s, c, call, o);
    forall d | d in Act(s, c, o).calls
      ensures ResumeFits(Act(s, c, o).calls[d]) && (d in s.calls ==> Continues(s.calls[d], Act(s, c, o).calls[d]))
    {
      if d != c { OthersSame(s, c, call, eff, d); }
    }
    forall d | d in s.calls
      ensures d in Act(s, c, o).calls
    {
      if d != c { OthersSame(s, c, call, eff, d); }
    }
  }

  lemma ActFits(s: State, c: nat, call: Call, o: Oracle)
    requires ResumeFits(call) && !call.pc.Done? && !call.pc.Failed?
    ensures var u := Apply(s, c, call, Decide(s, call, o)); c in u.calls && ResumeFits(u.calls[c])
  {
    hide Decide, Commit, Book;
    if call.op.ResumeGoal? {
      ResumeStaysFit(s, c, call, o);
    } else if Decide(s, call, o).Become? {
      BecomesTick(s, call, o);
    }
  }

  // ---------------------------------------------------------------------
  // Every stop has an author, every submission a sender
  // ---------------------------------------------------------------------

  /** Version `i` stopped a record that holds an execution. */
  ghost predicate StopsHere(h: seq<Record>, i: int)
  {
    0 < i < |h| && IsStopped(h[i]) && !IsStopped(h[i - 1]) && PendingOf(h[i]).Some?
  }

  function TaskAt(h: seq<Record>, i: int): Text
    requires 0 <= i < |h| && PendingOf(h[i]).Some?
  {
    PendingOf(h[i]).value.input.taskId
  }

  /** The call wrote this stop, version `i`, and went on to chase the task, or it is the resume that wrote it. */
  ghost predicate WroteStop(call: Call, k: Key, a: Record, b: Record, i: int, t: Text)
  {
    KeyOfOp(call.op) == k && (call.stop == Some(Mark(t, i)) || Resumed(call, a, b, i))
  }

  /** The call is a resume of version `i - 1` that has returned, and version `i` is what it made of it. */
  ghost predicate Resumed(call: Call, a: Record, b: Record, i: int)
  {
    call.op.ResumeGoal? && call.op.revision == i - 1 && call.pc.Done? && ResumesTo(a, b)
  }

  ghost predicate HasAuthor(calls: map<nat, Call>, k: Key, a: Record, b: Record, i: int, t: Text)
  {
    exists c :: c in calls && WroteStop(calls[c], k, a, b, i, t)
  }

  ghost predicate HasSender(calls: map<nat, Call>, sub: Submission)
  {
    exists c :: c in calls && KeyOfOp(calls[c].op) == sub.key && calls[c].sent == Some(sub.input.taskId)
  }

  ghost predicate StopsAuthored(calls: map<nat, Call>, k: Key, h: seq<Record>)
  {
    forall i :: StopsHere(h, i) ==> HasAuthor(calls, k, h[i - 1], h[i], i, TaskAt(h, i))
  }

  ghost predicate Attributed(s: State)
  {
    && (forall k :: k in s.history ==> StopsAuthored(s.calls, k, s.history[k]))
    && (forall j :: 0 <= j < |s.submits| ==> HasSender(s.calls, s.submits[j]))
  }

  lemma AuthorStays(s: State, u: State, k: Key, a: Record, b: Record, i: int, t: Text)
    requires AllContinue(s, u) && HasAuthor(s.calls, k, a, b, i, t)
    ensures HasAuthor(u.calls, k, a, b, i, t)
  {
    var c :| c in s.calls && WroteStop(s.calls[c], k, a, b, i, t);
    assert Continues(s.calls[c], u.calls[c]);
    assert WroteStop(u.calls[c], k, a, b, i, t);
  }

  lemma SenderStays(s: State, u: State, sub: Submission)
    requires AllContinue(s, u) && HasSender(s.calls, sub)
    ensures HasSender(u.calls, sub)
  {
    var c :| c in s.calls && KeyOfOp(s.calls[c].op) == sub.key && s.calls[c].sent == Some(sub.input.taskId);
    assert Continues(s.calls[c], u.calls[c]);
  }

  lemma StopsStay(s: State, u: State, k: Key, h: seq<Record>)
    requires AllContinue(s, u) && StopsAuthored(s.calls, k, h)
    ensures StopsAuthored(u.calls, k, h)
  {
    hide HasAuthor, AllContinue;
    forall i | StopsHere(h, i)
      ensures HasAuthor(u.calls, k, h[i - 1], h[i], i, TaskAt(h, i))
    {
      AuthorStays(s, u, k, h[i - 1], h[i], i, TaskAt(h, i));
    }
  }

  /** Calls moved on, nothing was stored or sent. */
  lemma SameAttributed(s: State, u: State)
    requires Attributed(s) && AllContinue(s, u) && u.history == s.history && u.submits == s.submits
    ensures Attributed(u)
  {
    hide StopsAuthored, HasSender, AllContinue;
    forall k | k in u.history
      ensures StopsAuthored(u.calls, k, u.history[k])
    {
      StopsStay(s, u, k, s.history[k]);
    }
    forall j | 0 <= j < |u.submits|
      ensures HasSender(u.calls, u.submits[j])
    {
      SenderStays(s, u, s.submits[j]);
    }
  }

  lemma SentAttributed(s: State, u: State, c: nat, sub: Submission)
    requires Attributed(s) && AllContinue(s, u) && u.history == s.history && u.submits == s.submits + [sub]
    requires c in u.calls && KeyOfOp(u.calls[c].op) == sub.key && u.calls[c].sent == Some(sub.input.taskId)
    ensures Attributed(u)
  {
    hide StopsAuthored, AllContinue;
    forall k | k in u.history
      ensures StopsAuthored(u.calls, k, u.history[k])
    {
      StopsStay(s, u, k, s.history[k]);
    }
    forall j | 0 <= j < |u.submits|
      ensures HasSender(u.calls, u.submits[j])
    {
      if j < |s.submits| { SenderStays(s, u, s.submits[j]); }
    }
  }

  lemma SavedAttributed(s: State, u: State, c: nat, k: Key, v: Record)
    requires Attributed(s) && AllContinue(s, u) && u.submits == s.submits
    requires u.history == s.history[k := Past(s.history, k) + [v]] && c in u.calls
    requires var h := Past(s.history, k) + [v];
      StopsHere(h, |h| - 1) ==> WroteStop(u.calls[c], k, h[|h| - 2], v, |h| - 1, TaskAt(h, |h| - 1))
    ensures Attributed(u)
  {
    hide HasSender, AllContinue, WroteStop;
    var h := Past(s.history, k) + [v];
    forall x | x in u.history
      ensures StopsAuthored(u.calls, x, u.history[x])
    {
      if x != k {
        StopsStay(s, u, x, s.history[x]);
      } else {
        NewStop(s, u, c, k, v);
      }
    }
    forall j | 0 <= j < |u.submits|
      ensures HasSender(u.calls, u.submits[j])
    {
      SenderStays(s, u, s.submits[j]);
    }
  }

  lemma NewStop(s: State, u: State, c: nat, k: Key, v: Record)
    requires AllContinue(s, u) && c in u.calls && (k in s.history ==> StopsAuthored(s.calls, k, s.history[k]))
    requires var h := Past(s.history, k) + [v];
      StopsHere(h, |h| - 1) ==> WroteStop(u.calls[c], k, h[|h| - 2], v, |h| - 1, TaskAt(h, |h| - 1))
    ensures StopsAuthored(u.calls, k, Past(s.history, k) + [v])
  {
    hide AllContinue, WroteStop;
    var before, h := Past(s.history, k), Past(s.history, k) + [v];
    forall i | StopsHere(h, i)
      ensures HasAuthor(u.calls, k, h[i - 1], h[i], i, TaskAt(h, i))
    {
      if i < |before| {
        assert StopsHere(before, i) && TaskAt(before, i) == TaskAt(h, i);
        AuthorStays(s, u, k, h[i - 1], h[i], i, TaskAt(h, i));
      }
    }
  }

  /** A write that stops a record is signed by its call: with the mark it goes on to chase, or as a resume. */
  lemma SaveIsSigned(s: State, c: nat, call: Call, eff: Effect)
    requires eff.Save? && TableOk(s.table.rows, s.history) && ChasesUnlessResume(call.op, eff)
    requires call.op.ResumeGoal? ==> SavesResumed(call, eff) && Snap(s.history, KeyOfOp(call.op), call.pc.row)
    ensures var u := SaveStep(s, c, call, eff);
      var k := KeyOfOp(call.op);
      var v := eff.value;
      var h := Past(s.history, k) + [v];
      && c in u.calls && u.submits == s.submits
      && (u.history == s.history
          || (u.history == s.history[k := h] && (StopsHere(h, |h| - 1) ==> WroteStop(u.calls[c], k, h[|h| - 2], v, |h| - 1, TaskAt(h, |h| - 1)))))
  {
    hide WaitingOthers, Book, ResumesTo;
    var k := KeyOfOp(call.op);
    if k in s.history { assert RowOk(s.table.rows[k], s.history[k]); }
  }

  lemma ApplyAttributed(s: State, c: nat, call: Call, eff: Effect)
    requires Attributed(s) && TableOk(s.table.rows, s.history) && AllContinue(s, Apply(s, c, call, eff))
    requires ChasesUnlessResume(call.op, eff)
    requires eff.Save? && call.op.ResumeGoal? ==> SavesResumed(call, eff) && Snap(s.history, KeyOfOp(call.op), call.pc.row)
    ensures Attributed(Apply(s, c, call, eff))
  {
    hide Attributed, AllContinue, SaveStep, ChasesUnlessResume, WroteStop, TableOk, Snap;
    var u := Apply(s, c, call, eff);
    match eff
    case Save(_, value, _, _) =>
      SaveIsSigned(s, c, call, eff);
      if u.history == s.history {
        SameAttributed(s, u);
      } else {
        SavedAttributed(s, u, c, KeyOfOp(call.op), value);
      }
    case Submit(input, at) => SentAttributed(s, u, c, Submission(KeyOfOp(call.op), at, input));
    case _ => SameAttributed(s, u);
  }

  lemma ActAttributed(s: State, c: nat, o: Oracle)
    requires Inv(s) && AllSentOk(s) && AllFit(s) && Attributed(s) && Live(s, c) && IsNoted(s, s.calls[c], o)
    ensures Attributed(Act(s, c, o)) && AllFit(Act(s, c, o))
  {
    hide Decide, Apply, HistoryOk, ReservedOk, SubmitsOk, AcceptedOk, TableOk, PairsOk, CallOk, IsNoted, SentOk, AllContinue, ResumeFits, Attributed, ChasesUnlessResume;
    var call := s.calls[c];
    assert CallOk(Known(s), call) && ResumeFits(call);
    ActContinues(s, c, o);
    CallFits(Known(s), call);
    DecidedChases(s, call, o);
    if call.op.ResumeGoal? { ResumeDecides(s, call, o); }
    if call.pc.Loaded? { RowIsSnap(Known(s), call); }
    ApplyAttributed(s, c, call, Decide(s, call, o));
  }

  lemma InvokedAttributed(s: State, c: nat, call: Call)
    requires Attributed(s) && (c in s.calls ==> Continues(s.calls[c], call))
    ensures Attributed(Put(s, c, call))
  {
    hide Attributed;
    SameAttributed(s, Put(s, c, call));
  }

  lemma StepAttributed(s: State, a: Action)
    requires Inv(s) && AllSentOk(s) && AllFit(s) && Attributed(s)
    ensures Attributed(Step(s, a)) && AllFit(Step(s, a))
  {
    hide Act, Inv, AllSentOk, Attributed, IsNoted;
    match a
    case Invoke(c, op) => if c !in s.calls { InvokedAttributed(s, c, NewCall(op)); }
    case Advance(c, o) =>
      if Live(s, c) {
        var n := Noted(s, s.calls[c], o);
        NotedKeeps(s, c, o);
        NotedSame(s, n);
        ActAttributed(n, c, o);
      }
    case Crash(c) => if c in s.calls && !s.calls[c].pc.Done? { InvokedAttributed(s, c, s.calls[c].(pc := Failed)); }
    case World(server) => NotedSame(s, s.(server := server));
  }

  lemma NotedSame(s: State, n: State)
    requires n.calls == s.calls && n.history == s.history && n.submits == s.submits
    ensures Attributed(s) ==> Attributed(n)
    ensures AllSentOk(s) ==> AllSentOk(n)
  {
  }

  lemma {:induction false} AlwaysAttributed(run: seq<State>, n: nat)
    requires IsRun(run) && n < |run|
    ensures Attributed(run[n]) && AllFit(run[n])
  {
    hide Step, Inv, AllSentOk, StopsAuthored, HasSender, ResumeFits;
    if n > 0 {
      AlwaysAttributed(run, n - 1);
      Reachable(run, n - 1);
      SendersReread(run, n - 1);
      assert MovesAt(run, n - 1);
      var a :| run[n] == Step(run[n - 1], a);
      StepAttributed(run[n - 1], a);
    }
  }

  // ---------------------------------------------------------------------
  // The closing theorem
  // ---------------------------------------------------------------------

  /** A stopped record that holds an execution held it when it was stopped. */
  lemma {:induction false} StopBegan(e: Evidence, k: Key, h: seq<Record>, j: nat, t: Text) returns (i: nat)
    requires VersionsOk(e, k, h) && j < |h| && IsStopped(h[j]) && Holds(h[j], t)
    ensures i <= j && StopsHere(h, i) && TaskAt(h, i) == t
  {
    FirstIsLive(e, k, h);
    if IsStopped(h[j - 1]) {
      StepCarries(e, k, h, j - 1);
      i := StopBegan(e, k, h, j - 1, t);
    } else {
      i := j;
    }
  }

  lemma FirstIsLive(e: Evidence, k: Key, h: seq<Record>)
    requires VersionsOk(e, k, h)
    ensures !IsStopped(h[0])
  {
  }

  /** Version `i` is what a resume, by this call, made of a paused goal that held this task. */
  ghost predicate ResumeWrote(call: Call, k: Key, h: seq<Record>, i: int, t: Text)
  {
    && KeyOfOp(call.op) == k && StopsHere(h, i) && Resumed(call, h[i - 1], h[i], i)
    && h[i - 1].goal.status.Paused? && Holds(h[i - 1], t) && Holds(h[i], t)
  }

  ghost predicate ResumeStoppedIt(s: State, k: Key, t: Text)
  {
    k in s.history && exists c, i :: c in s.calls && ResumeWrote(s.calls[c], k, s.history[k], i, t)
  }

  /** A resume that stops a goal with an execution found it paused on that execution. */
  lemma ResumedWasPaused(a: Record, b: Record, t: Text)
    requires RecordOk(a) && ResumesTo(a, b) && Holds(b, t)
    ensures a.goal.status.Paused? && Holds(a, t)
  {
    var now :| Goals.Resume(a.goal, now) == Ok(b.goal);
  }

  /** The record is stopped and still holds this task. */
  ghost predicate StoppedWith(s: State, k: Key, t: Text)
  {
    var latest := Latest(s.history, k);
    latest.Some? && IsStopped(latest.value.value) && Holds(latest.value.value, t)
  }

  ghost predicate StoppersReturned(s: State, k: Key, t: Text)
  {
    forall c :: c in s.calls && KeyOfOp(s.calls[c].op) == k && s.calls[c].stop.Some? && s.calls[c].stop.value.taskId == t ==>
      s.calls[c].pc.Done?
  }

  /**
  A stopped record still holds a task. A sender of that task has returned, and so
  has whoever stopped the record. Then the task has a cancellation request or has
  ended, unless the stop is the version a returned resume made of a goal that was
  paused on this very task.
  */
  lemma NothingLeftRunning(run: seq<State>, n: nat, k: Key, t: Text, sender: nat)
    requires IsRun(run) && n < |run| && StoppedWith(run[n], k, t) && StoppersReturned(run[n], k, t)
    requires Reread(run[n], sender, t) && KeyOfOp(run[n].calls[sender].op) == k
    ensures t in Settled(run[n].server) || ResumeStoppedIt(run[n], k, t)
  {
    hide IsRun, CallsOk, PairsOk, ReservedOk, SubmitsOk, AcceptedOk, VersionsOk, AllFit, HasSender, ResumesTo;
    var s := run[n];
    var h := s.history[k];
    Reachable(run, n);
    AlwaysAttributed(run, n);
    assert VersionsOk(Proof(s), k, h);
    var i := StopBegan(Proof(s), k, h, |h| - 1, t);
    assert StopsAuthored(s.calls, k, h) && HasAuthor(s.calls, k, h[i - 1], h[i], i, t);
    var c :| c in s.calls && WroteStop(s.calls[c], k, h[i - 1], h[i], i, t);
    if s.calls[c].stop == Some(Mark(t, i)) {
      StopCatchesSubmission(run, n, c, sender, t);
    } else {
      SnapVersion(Proof(s), s.history, k, Snapshot(i - 1, h[i - 1]));
      ResumedWasPaused(h[i - 1], h[i], t);
      assert ResumeWrote(s.calls[c], k, h, i, t);
    }
  }

  ghost predicate Submitted(s: State, t: Text)
  {
    exists j :: 0 <= j < |s.submits| && s.submits[j].input.taskId == t
  }

  ghost predicate SendersReturned(s: State, t: Text)
  {
    forall c :: c in s.calls && s.calls[c].sent == Some(t) ==> s.calls[c].pc.Done?
  }

  /** In particular when the task was submitted and everyone who submitted it or stopped the record for it has returned. */
  lemma SubmittedIsSettled(run: seq<State>, n: nat, k: Key, t: Text)
    requires IsRun(run) && n < |run| && StoppedWith(run[n], k, t)
    requires Submitted(run[n], t) && SendersReturned(run[n], t) && StoppersReturned(run[n], k, t)
    ensures t in Settled(run[n].server) || ResumeStoppedIt(run[n], k, t)
  {
    hide IsRun, HistoryOk, CallsOk, PairsOk, AcceptedOk, StopsAuthored, HeldSince, AllFit, ResumeStoppedIt, StoppersReturned;
    var s := run[n];
    Reachable(run, n);
    AlwaysAttributed(run, n);
    var j :| 0 <= j < |s.submits| && s.submits[j].input.taskId == t;
    SubmissionIsBound(run, n, j);
    Bound(s, k, |s.history[k]| - 1);
    assert HasSender(s.calls, s.submits[j]);
    var c :| c in s.calls && KeyOfOp(s.calls[c].op) == s.submits[j].key && s.calls[c].sent == Some(t);
    SubmitterRereads(run, n, c, t);
    NothingLeftRunning(run, n, k, t, c);
  }
}
