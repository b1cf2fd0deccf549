/**
The approval timeline of a task: a bounded window of observations that always
agrees with the unbounded log on which approval is pending.
*/
module Approvals {
  import opened Json

  datatype Event = Requested(approvalId: Option<Text>) | Resolved(approvalId: Option<Text>)

  /** `bytes` is the size of the serialized observation. */
  datatype Observation = Observation(sourceEnvelopeId: Text, revision: int, event: Event, bytes: nat)

  const MAX_BYTES := 1024 * 1024

  // ---------------------------------------------------------------------
  // The one-slot fold
  // ---------------------------------------------------------------------

  predicate Clears(pending: Observation, entry: Observation)
  {
    entry.event.Resolved? && (pending.event.approvalId.None? || pending.event.approvalId == entry.event.approvalId)
  }

  function Slot(pending: Option<Observation>, entry: Observation): Option<Observation>
  {
    if entry.event.Requested? then Some(entry)
    else if pending.Some? && Clears(pending.value, entry) then None
    else pending
  }

  function Fold(start: Option<Observation>, entries: seq<Observation>): Option<Observation>
    decreases |entries|
  {
    if entries == [] then start else Fold(Slot(start, entries[0]), entries[1..])
  }

  function PendingOf(entries: seq<Observation>): Option<Observation>
  {
    Fold(None, entries)
  }

  lemma {:induction false} FoldAppend(start: Option<Observation>, entries: seq<Observation>, e: Observation)
    ensures Fold(start, entries + [e]) == Slot(Fold(start, entries), e)
    decreases |entries|
  {
    if entries == [] {
      assert [e][1..] == [];
      assert entries + [e] == [e];
    } else {
      assert (entries + [e])[1..] == entries[1..] + [e];
      FoldAppend(Slot(start, entries[0]), entries[1..], e);
    }
  }

  method PendingApproval(entries: seq<Observation>) returns (pending: Option<Observation>)
    ensures pending == PendingOf(entries)
  {
    pending := None;
    for i := 0 to |entries|
      invariant pending == Fold(None, entries[..i])
    {
      assert entries[..i + 1] == entries[..i] + [entries[i]];
      FoldAppend(None, entries[..i], entries[i]);
      var entry := entries[i];
      if entry.event.Requested? {
        pending := Some(entry);
      } else if pending.Some? && (pending.value.event.approvalId.None? || pending.value.event.approvalId == entry.event.approvalId) {
        pending := None;
      }
    }
    assert entries[..|entries|] == entries;
  }

  ghost predicate Unresolved(entries: seq<Observation>, i: nat)
    requires i < |entries|
  {
    && entries[i].event.Requested?
    && (forall j :: i < j < |entries| ==>
          entries[j].event.Resolved? && entries[i].event.approvalId.Some? && entries[j].event.approvalId != entries[i].event.approvalId)
  }

  /** The pending request is the latest request, provided no later resolution names it. */
  lemma {:induction false} PendingIsLatest(entries: seq<Observation>)
    ensures PendingOf(entries).Some? <==> exists i: nat :: i < |entries| && Unresolved(entries, i)
    ensures forall i: nat :: i < |entries| && Unresolved(entries, i) ==> PendingOf(entries) == Some(entries[i])
    decreases |entries|
  {
    if entries != [] {
      var n := |entries| - 1;
      var init, last := entries[..n], entries[n];
      assert entries == init + [last];
      FoldAppend(None, init, last);
      PendingIsLatest(init);
      assert Unresolved(entries, n) <==> last.event.Requested?;
      forall i: nat | i < n
        ensures Unresolved(entries, i) <==> Unresolved(init, i) && last.event.Resolved? && !Clears(init[i], last)
      {
        assert entries[i] == init[i];
      }
      if PendingOf(init).Some? {
        var k: nat :| k < n && Unresolved(init, k);
        assert Unresolved(entries, k) <==> last.event.Resolved? && !Clears(init[k], last);
      }
    }
  }

  /**
  A resolution without an id leaves nothing pending exactly when nothing was
  pending or the pending request has no id either; a request with an id stays.
  */
  lemma UnnamedResolution(entries: seq<Observation>, e: Observation)
    requires e.event == Resolved(None)
    ensures PendingOf(entries + [e]).None? <==> PendingOf(entries).None? || PendingOf(entries).value.event.approvalId.None?
    ensures PendingOf(entries + [e]).Some? ==> PendingOf(entries + [e]) == PendingOf(entries)
  {
    FoldAppend(None, entries, e);
  }

  const ASKED := Observation(U("envelope-1"), 1, Requested(Some(U("approval-1"))), 100)
  const UNNAMED := Observation(U("envelope-2"), 2, Resolved(None), 100)

  /** One request with an id, then a resolution without one: the single outstanding request is not resolved. */
  lemma UnnamedResolutionExample()
    ensures PendingOf([ASKED]) == Some(ASKED) && PendingOf([ASKED, UNNAMED]) == Some(ASKED)
  {
    assert Fold(Slot(None, ASKED), [ASKED][1..]) == Some(ASKED);
    assert [ASKED] + [UNNAMED] == [ASKED, UNNAMED];
    UnnamedResolution([ASKED], UNNAMED);
  }

  // ---------------------------------------------------------------------
  // Bounded retention
  // ---------------------------------------------------------------------

  function Bytes(entries: seq<Observation>): nat
  {
    if entries == [] then 0 else entries[0].bytes + Bytes(entries[1..])
  }

  /** The oldest observation that is not the pending one. Without any, `splice(-1, 1)` takes the last. */
  function Victim(entries: seq<Observation>, pending: Option<Observation>): (i: nat)
    requires entries != []
    ensures i < |entries|
  {
    VictimFrom(entries, pending, 0)
  }

  function VictimFrom(entries: seq<Observation>, pending: Option<Observation>, from: nat): (i: nat)
    requires entries != [] && from <= |entries|
    ensures i < |entries|
    decreases |entries| - from
  {
    if from == |entries| then |entries| - 1
    else if Some(entries[from]) != pending then from
    else VictimFrom(entries, pending, from + 1)
  }

  function Without(entries: seq<Observation>, i: nat): (r: seq<Observation>)
    requires i < |entries|
    ensures |r| == |entries| - 1
  {
    entries[..i] + entries[i + 1..]
  }

  predicate Fits(entries: seq<Observation>, capacity: nat)
  {
    |entries| <= capacity && Bytes(entries) <= MAX_BYTES
  }

  function Evict(entries: seq<Observation>, pending: Option<Observation>, capacity: nat): seq<Observation>
    decreases |entries|
  {
    if Fits(entries, capacity) then entries
    else Evict(Without(entries, Victim(entries, pending)), pending, capacity)
  }

  function Retain(entries: seq<Observation>, e: Observation, capacity: nat): seq<Observation>
  {
    Evict(entries + [e], PendingOf(entries + [e]), capacity)
  }

  lemma {:induction false} BytesWithout(entries: seq<Observation>, i: nat)
    requires i < |entries|
    ensures Bytes(Without(entries, i)) == Bytes(entries) - entries[i].bytes
  {
    if i == 0 {
      assert Without(entries, i) == entries[1..];
    } else {
      BytesWithout(entries[1..], i - 1);
      assert Without(entries, i)[0] == entries[0];
      assert Without(entries, i)[1..] == Without(entries[1..], i - 1);
    }
  }

  /** `retainApprovalObservations`, with its running byte count. */
  method RetainObservations(entries: seq<Observation>, e: Observation, capacity: nat) returns (retained: seq<Observation>, evicted: nat)
    ensures retained == Retain(entries, e, capacity) && evicted == |entries| + 1 - |retained|
  {
    retained := entries + [e];
    var pending := PendingApproval(retained);
    var bytes := Bytes(retained);
    evicted := 0;
    while |retained| > capacity || bytes > MAX_BYTES
      invariant bytes == Bytes(retained)
      invariant Evict(retained, pending, capacity) == Retain(entries, e, capacity)
      invariant evicted == |entries| + 1 - |retained|
      decreases |retained|
    {
      var index := Victim(retained, pending);
      BytesWithout(retained, index);
      bytes := bytes - retained[index].bytes;
      retained := Without(retained, index);
      evicted := evicted + 1;
    }
  }

  // ---------------------------------------------------------------------
  // The window agrees with the log
  // ---------------------------------------------------------------------

  /** Revisions grow along the timeline. */
  ghost predicate InOrder(entries: seq<Observation>)
  {
    forall i, j :: 0 <= i < j < |entries| ==> entries[i].revision < entries[j].revision
  }

  ghost predicate Small(entries: seq<Observation>)
  {
    forall i :: 0 <= i < |entries| ==> 2 * entries[i].bytes <= MAX_BYTES
  }

  /** Once the slot changes, what it held before no longer matters. */
  lemma {:induction false} StartForgotten(x: Observation, entries: seq<Observation>)
    ensures Fold(Some(x), entries) == Some(x) || Fold(Some(x), entries) == Fold(None, entries)
    decreases |entries|
  {
    if entries != [] && Slot(Some(x), entries[0]) == Some(x) && !entries[0].event.Requested? {
      StartForgotten(x, entries[1..]);
    }
  }

  lemma {:induction false} FoldIn(start: Option<Observation>, entries: seq<Observation>)
    ensures Fold(start, entries) == start || Fold(start, entries).None? || Fold(start, entries).value in entries
    decreases |entries|
  {
    if entries != [] {
      FoldIn(Slot(start, entries[0]), entries[1..]);
      assert entries == [entries[0]] + entries[1..];
    }
  }

  /** Dropping the oldest observation, when it is not pending, does not change what is pending. */
  lemma HeadDropped(x: Observation, rest: seq<Observation>)
    requires PendingOf([x] + rest) != Some(x)
    ensures PendingOf(rest) == PendingOf([x] + rest)
  {
    assert ([x] + rest)[1..] == rest;
    StartForgotten(x, rest);
  }

  /** Dropping the observation after a pending request does not change it either. */
  lemma SecondDropped(p: Observation, y: Observation, rest: seq<Observation>)
    requires PendingOf([p, y] + rest) == Some(p) && p != y && p !in rest
    ensures PendingOf([p] + rest) == Some(p)
  {
    assert ([p, y] + rest)[1..] == [y] + rest && ([y] + rest)[1..] == rest && ([p] + rest)[1..] == rest;
    var before := Slot(None, p);
    var after := Slot(before, y);
    assert Fold(None, [p, y] + rest) == Fold(before, [y] + rest);
    assert Fold(before, [y] + rest) == Fold(after, rest);
    assert Fold(None, [p] + rest) == Fold(before, rest);
    FoldIn(after, rest);
  }

  ghost predicate Fresh(entries: seq<Observation>, pending: Option<Observation>)
  {
    pending == PendingOf(entries) && InOrder(entries)
  }

  lemma VictimIsEarly(entries: seq<Observation>, pending: Option<Observation>)
    requires |entries| >= 2 && InOrder(entries)
    ensures var i := Victim(entries, pending);
      i <= 1 && Some(entries[i]) != pending && (i == 1 ==> Some(entries[0]) == pending)
  {
    assert entries[0] != entries[1];
    assert VictimFrom(entries, Some(entries[0]), 1) == 1;
  }

  lemma OrderKept(entries: seq<Observation>, i: nat)
    requires InOrder(entries) && i < |entries|
    ensures InOrder(Without(entries, i))
  {
    var w := Without(entries, i);
    assert forall j :: 0 <= j < |w| ==> w[j] == entries[if j < i then j else j + 1];
  }

  lemma HeadIsUnique(entries: seq<Observation>)
    requires InOrder(entries) && |entries| >= 2
    ensures entries[0] != entries[1] && entries[0] !in entries[2..]
  {
  }

  lemma VictimDropped(entries: seq<Observation>, pending: Option<Observation>)
    requires |entries| >= 2 && Fresh(entries, pending)
    ensures Fresh(Without(entries, Victim(entries, pending)), pending)
  {
    hide Fold, Victim;
    var i := Victim(entries, pending);
    VictimIsEarly(entries, pending);
    OrderKept(entries, i);
    hide InOrder;
    if i == 0 {
      assert entries == [entries[0]] + entries[1..];
      assert Without(entries, 0) == entries[1..];
      HeadDropped(entries[0], entries[1..]);
    } else {
      HeadIsUnique(entries);
      assert entries == [entries[0], entries[1]] + entries[2..];
      assert Without(entries, 1) == [entries[0]] + entries[2..];
      SecondDropped(entries[0], entries[1], entries[2..]);
    }
  }

  /** Two observations always fit. */
  lemma TwoFit(entries: seq<Observation>, capacity: nat)
    requires capacity >= 2 && Small(entries) && |entries| <= 2
    ensures Fits(entries, capacity)
  {
    if |entries| == 2 { assert Bytes(entries[1..]) == entries[1].bytes + Bytes(entries[1..][1..]); }
  }

  lemma LastStays(entries: seq<Observation>, i: nat)
    requires |entries| >= 3 && i <= 1
    ensures Without(entries, i)[|entries| - 2] == entries[|entries| - 1]
  {
  }

  lemma SmallKept(entries: seq<Observation>, i: nat)
    requires Small(entries) && i < |entries|
    ensures Small(Without(entries, i))
  {
    var w := Without(entries, i);
    assert forall j :: 0 <= j < |w| ==> w[j] == entries[if j < i then j else j + 1];
  }

  /** Eviction keeps what is pending, ends within the limits, and keeps the newest observation. */
  lemma {:induction false} EvictKeeps(entries: seq<Observation>, pending: Option<Observation>, capacity: nat)
    requires capacity >= 2 && Fresh(entries, pending) && Small(entries) && entries != []
    ensures var w := Evict(entries, pending, capacity);
      && Fresh(w, pending) && Small(w) && Fits(w, capacity)
      && w != [] && w[|w| - 1] == entries[|entries| - 1]
    decreases |entries|
  {
    hide Fold, Victim, Without, InOrder, Small, Bytes;
    if !Fits(entries, capacity) {
      if |entries| <= 2 { TwoFit(entries, capacity); }
      var i := Victim(entries, pending);
      SmallKept(entries, i);
      VictimIsEarly(entries, pending);
      VictimDropped(entries, pending);
      LastStays(entries, i);
      EvictKeeps(Without(entries, i), pending, capacity);
    }
  }

  // ---------------------------------------------------------------------
  // No more is dropped than must be
  // ---------------------------------------------------------------------

  /** The observations from `m` on, after the pending one if that is older. */
  function KeptFrom(entries: seq<Observation>, pending: Option<Observation>, m: nat): seq<Observation>
    requires m <= |entries|
  {
    (if pending.Some? && pending.value in entries[..m] then [pending.value] else []) + entries[m..]
  }

  /** Everything newer than some point, and the pending observation; with anything more it would not fit. */
  ghost predicate Most(w: seq<Observation>, entries: seq<Observation>, pending: Option<Observation>, capacity: nat)
  {
    exists m :: 0 <= m <= |entries| && w == KeptFrom(entries, pending, m) && NoneFits(entries, pending, capacity, m)
  }

  ghost predicate NoneFits(entries: seq<Observation>, pending: Option<Observation>, capacity: nat, m: nat)
    requires m <= |entries|
  {
    forall i :: 0 <= i < m ==> !Fits(KeptFrom(entries, pending, i), capacity)
  }

  ghost predicate Older(entries: seq<Observation>, pending: Option<Observation>, m: nat)
    requires m <= |entries|
  {
    pending.Some? && pending.value in entries[..m]
  }

  lemma KeptIs(entries: seq<Observation>, pending: Option<Observation>, m: nat)
    requires m < |entries|
    ensures KeptFrom(entries, pending, m) ==
      if Older(entries, pending, m) then [pending.value] + [entries[m]] + entries[m + 1..] else [entries[m]] + entries[m + 1..]
    ensures KeptFrom(entries, pending, m + 1) ==
      if Older(entries, pending, m) || Some(entries[m]) == pending then [pending.value] + entries[m + 1..] else entries[m + 1..]
  {
    assert entries[..m + 1] == entries[..m] + [entries[m]];
    assert entries[m..] == [entries[m]] + entries[m + 1..];
  }

  lemma SecondGone(p: Observation, x: Observation, rest: seq<Observation>)
    ensures Without([p] + [x] + rest, 1) == [p] + rest && Without([x] + rest, 0) == rest
  {
  }

  lemma NextKept(entries: seq<Observation>, pending: Option<Observation>, m: nat)
    requires InOrder(entries) && m <= |entries| && |KeptFrom(entries, pending, m)| >= 2
    ensures m < |entries|
    ensures var w := KeptFrom(entries, pending, m);
      var v := Without(w, Victim(w, pending));
      if Some(entries[m]) != pending then v == KeptFrom(entries, pending, m + 1)
      else m + 2 <= |entries| && KeptFrom(entries, pending, m + 1) == w && v == KeptFrom(entries, pending, m + 2)
  {
    hide Victim, InOrder, Without, KeptFrom;
    KeptShort(entries, pending, m);
    KeptInOrder(entries, pending, m);
    VictimIsEarly(KeptFrom(entries, pending, m), pending);
    if Older(entries, pending, m) {
      KeptOlder(entries, pending, m);
    } else if Some(entries[m]) != pending {
      KeptPlain(entries, pending, m);
    } else {
      KeptPending(entries, pending, m);
    }
  }

  lemma KeptOlder(entries: seq<Observation>, pending: Option<Observation>, m: nat)
    requires m < |entries| && Older(entries, pending, m)
    ensures var w := KeptFrom(entries, pending, m);
      |w| >= 2 && w[0] == pending.value && Without(w, 1) == KeptFrom(entries, pending, m + 1)
  {
    hide Without, KeptFrom;
    KeptIs(entries, pending, m);
    SecondGone(pending.value, entries[m], entries[m + 1..]);
  }

  lemma KeptPlain(entries: seq<Observation>, pending: Option<Observation>, m: nat)
    requires m < |entries| && !Older(entries, pending, m) && Some(entries[m]) != pending
    ensures var w := KeptFrom(entries, pending, m);
      w != [] && w[0] == entries[m] && Without(w, 0) == KeptFrom(entries, pending, m + 1)
  {
    hide Without, KeptFrom, Older;
    KeptIs(entries, pending, m);
    SecondGone(entries[m], entries[m], entries[m + 1..]);
  }

  lemma KeptPending(entries: seq<Observation>, pending: Option<Observation>, m: nat)
    requires m + 2 <= |entries| && !Older(entries, pending, m) && Some(entries[m]) == pending
    ensures var w := KeptFrom(entries, pending, m);
      && |w| >= 2 && w[0] == entries[m] && KeptFrom(entries, pending, m + 1) == w
      && Without(w, 1) == KeptFrom(entries, pending, m + 2)
  {
    hide Without, KeptFrom;
    KeptIs(entries, pending, m);
    KeptIs(entries, pending, m + 1);
    assert entries[..m + 1][m] == entries[m];
    assert entries[m + 1..] == [entries[m + 1]] + entries[m + 2..];
    SecondGone(entries[m], entries[m + 1], entries[m + 2..]);
    assert KeptFrom(entries, pending, m) == [entries[m]] + [entries[m + 1]] + entries[m + 2..];
  }

  lemma KeptShort(entries: seq<Observation>, pending: Option<Observation>, m: nat)
    requires m <= |entries| && |KeptFrom(entries, pending, m)| >= 2
    ensures m < |entries| && (!Older(entries, pending, m) ==> m + 2 <= |entries|)
  {
  }

  lemma KeptInOrder(entries: seq<Observation>, pending: Option<Observation>, m: nat)
    requires InOrder(entries) && m <= |entries|
    ensures InOrder(KeptFrom(entries, pending, m))
    ensures Older(entries, pending, m) && m < |entries| ==> Some(entries[m]) != pending
  {
    if pending.Some? && pending.value in entries[..m] {
      var j :| 0 <= j < m && entries[..m][j] == pending.value;
      assert entries[j] == pending.value;
    }
  }

  lemma KeptSmall(entries: seq<Observation>, pending: Option<Observation>, m: nat)
    requires Small(entries) && m <= |entries|
    ensures Small(KeptFrom(entries, pending, m))
  {
    if pending.Some? && pending.value in entries[..m] {
      var j :| 0 <= j < m && entries[..m][j] == pending.value;
      assert entries[j] == pending.value;
    }
  }

  lemma {:induction false} EvictFrom(entries: seq<Observation>, pending: Option<Observation>, capacity: nat, m: nat)
    requires capacity >= 2 && InOrder(entries) && Small(entries) && m <= |entries| && NoneFits(entries, pending, capacity, m)
    ensures Most(Evict(KeptFrom(entries, pending, m), pending, capacity), entries, pending, capacity)
    decreases |KeptFrom(entries, pending, m)|
  {
    hide InOrder, Small, Victim, Without, KeptFrom, Fits;
    var w := KeptFrom(entries, pending, m);
    if !Fits(w, capacity) {
      if |w| < 2 {
        KeptSmall(entries, pending, m);
        TwoFit(w, capacity);
      }
      NextKept(entries, pending, m);
      EvictFrom(entries, pending, capacity, if Some(entries[m]) != pending then m + 1 else m + 2);
    }
  }

  /**
  The retained observations are all that are newer than some point, and the
  pending one. One observation more would not have fitted.
  */
  lemma RetainsMost(entries: seq<Observation>, e: Observation, capacity: nat)
    requires capacity >= 2 && InOrder(entries + [e]) && Small(entries + [e])
    ensures var all := entries + [e];
      Most(Retain(entries, e, capacity), all, PendingOf(all), capacity) && Fits(Retain(entries, e, capacity), capacity)
  {
    hide InOrder, Small, Fold, Most;
    var all := entries + [e];
    assert KeptFrom(all, PendingOf(all), 0) == all;
    EvictFrom(all, PendingOf(all), capacity, 0);
    EvictKeeps(all, PendingOf(all), capacity);
  }

  /** One admitted observation, and the capacity its append asked for. */
  datatype Append = Append(observation: Observation, capacity: nat)

  function Log(appends: seq<Append>): seq<Observation>
  {
    seq(|appends|, i requires 0 <= i < |appends| => appends[i].observation)
  }

  function Window(appends: seq<Append>): seq<Observation>
  {
    if appends == [] then []
    else Retain(Window(appends[..|appends| - 1]), appends[|appends| - 1].observation, appends[|appends| - 1].capacity)
  }

  /** What validation guarantees: room for two, events of at most half the bytes, growing revisions. */
  ghost predicate Admitted(appends: seq<Append>)
  {
    && InOrder(Log(appends)) && Small(Log(appends))
    && forall i :: 0 <= i < |appends| ==> appends[i].capacity >= 2
  }

  lemma AppendInOrder(entries: seq<Observation>, e: Observation)
    requires InOrder(entries) && (entries != [] ==> entries[|entries| - 1].revision < e.revision)
    ensures InOrder(entries + [e])
  {
  }

  /**
  For every stream of observations and any capacities of at least two, the
  window and the whole log agree on the pending approval, the window is within
  both limits, and it ends with the newest observation.
  */
  lemma {:induction false} WindowAgrees(appends: seq<Append>)
    requires Admitted(appends)
    ensures PendingOf(Window(appends)) == PendingOf(Log(appends))
    ensures InOrder(Window(appends)) && Small(Window(appends))
    ensures appends != [] ==> Fits(Window(appends), appends[|appends| - 1].capacity)
    ensures appends != [] ==> Window(appends) != [] && Window(appends)[|Window(appends)| - 1] == Log(appends)[|appends| - 1]
    decreases |appends|
  {
    if appends != [] {
      var init, last := appends[..|appends| - 1], appends[|appends| - 1];
      var w := Window(init) + [last.observation];
      LogGrows(appends);
      WindowAgrees(init);
      WindowOrder(appends);
      FoldAppend(None, Window(init), last.observation);
      FoldAppend(None, Log(init), last.observation);
      EvictKeeps(w, PendingOf(w), last.capacity);
    }
  }

  lemma LogGrows(appends: seq<Append>)
    requires Admitted(appends) && appends != []
    ensures var init := appends[..|appends| - 1];
      Admitted(init) && Log(appends) == Log(init) + [appends[|appends| - 1].observation]
  {
    var init := appends[..|appends| - 1];
    assert forall i :: 0 <= i < |init| ==> Log(init)[i] == Log(appends)[i];
  }

  lemma WindowOrder(appends: seq<Append>)
    requires Admitted(appends) && appends != []
    requires var w := Window(appends[..|appends| - 1]); InOrder(w) && Small(w)
    requires |appends| > 1 ==> var w := Window(appends[..|appends| - 1]); w != [] && w[|w| - 1] == Log(appends)[|appends| - 2]
    ensures var w := Window(appends[..|appends| - 1]) + [appends[|appends| - 1].observation]; InOrder(w) && Small(w)
  {
    var n := |appends| - 1;
    assert Log(appends)[n] == appends[n].observation;
    AppendInOrder(Window(appends[..n]), appends[n].observation);
  }
}
