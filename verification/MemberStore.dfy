/**
The member store of end-to-end encryption: an append-only chain of entries, the
scope key packages, the scopes the chain shredded and the KEM floors its
rotations raised. Every write is atomic and a device's request is recorded with
its result.
*/
module MemberStore {
  import opened Json

  datatype Meaning = Plain | Shred(scopeId: Text) | Rotate(memberId: Text, kemEpoch: int)

  /** A chain entry and what its bytes say. */
  datatype Entry = Entry(bytes: Text, meaning: Meaning)

  datatype Package = Package(keyId: Text, body: Text)

  datatype PutRow = PutRow(scopeId: Text, epoch: int, recipient: Text, keyId: Text, body: Text, recipientKemEpoch: int)

  datatype Proof = Proof(deviceId: Text, requestId: Text, binding: Text)

  datatype Outcome =
    | Appended(appended: nat, replayed: nat)
    | Conflict(seqNo: int)
    | Gap(seqNo: int, headSeq: int)
    | Stored(stored: nat)
    | ScopeShredded(scopeId: Text)
    | KemEpochStale(recipient: Text, kemEpoch: int, floor: int)
    | KeyIdConflict(scopeId: Text, epoch: int, keyId: Text)
    | RequestConflict

  datatype Recorded = Recorded(binding: Text, result: Outcome)

  type Epoch = (Text, int)
  type PackageKey = (Text, int, Text)

  datatype Members = Members(
    chain: seq<Entry>, epochs: map<Epoch, Text>, packages: map<PackageKey, Package>,
    shredded: map<Text, int>, floors: map<Text, int>, requests: map<(Text, Text), Recorded>)

  const EMPTY := Members([], map[], map[], map[], map[], map[])

  // ---------------------------------------------------------------------
  // Device requests
  // ---------------------------------------------------------------------

  /** The recorded result, a conflict under another binding, or nothing for a new request. */
  function Known(requests: map<(Text, Text), Recorded>, proof: Option<Proof>): Option<Outcome>
  {
    if proof.None? || (proof.value.deviceId, proof.value.requestId) !in requests then None
    else
      var r := requests[(proof.value.deviceId, proof.value.requestId)];
      Some(if r.binding == proof.value.binding then r.result else RequestConflict)
  }

  function Record(requests: map<(Text, Text), Recorded>, proof: Option<Proof>, result: Outcome): map<(Text, Text), Recorded>
  {
    if proof.None? then requests
    else requests[(proof.value.deviceId, proof.value.requestId) := Recorded(proof.value.binding, result)]
  }

  // ---------------------------------------------------------------------
  // Appending to the chain
  // ---------------------------------------------------------------------

  /** How many leading rows are already stored with the same bytes, or the first that differs. */
  datatype Overlap = Differs(seqNo: int) | Same(count: nat)

  function Scan(chain: seq<Entry>, first: int, rows: seq<Entry>, done: nat): (r: Overlap)
    requires done <= |rows|
    ensures r.Same? ==> done <= r.count <= |rows|
    decreases |rows| - done
  {
    if done == |rows| || first + done > |chain| then Same(done)
    else if first + done < 1 || chain[first + done - 1] != rows[done] then Differs(first + done)
    else Scan(chain, first, rows, done + 1)
  }

  function DropEpochs(epochs: map<Epoch, Text>, scope: Text): map<Epoch, Text>
  {
    map k | k in epochs && k.0 != scope :: epochs[k]
  }

  function DropPackages(packages: map<PackageKey, Package>, scope: Text): map<PackageKey, Package>
  {
    map k | k in packages && k.0 != scope :: packages[k]
  }

  /** A shred deletes the scope's packages and epochs; its first seq is remembered. */
  function ShredScope(m: Members, scope: Text, at: int): Members
  {
    m.(packages := DropPackages(m.packages, scope), epochs := DropEpochs(m.epochs, scope),
       shredded := if scope in m.shredded then m.shredded else m.shredded[scope := at])
  }

  function ShredOne(m: Members, e: Entry, at: int): Members
  {
    if e.meaning.Shred? then ShredScope(m, e.meaning.scopeId, at) else m
  }

  function ShredAll(m: Members, entries: seq<Entry>, at: int): Members
    decreases |entries|
  {
    if entries == [] then m else ShredAll(ShredOne(m, entries[0], at), entries[1..], at + 1)
  }

  function FloorOf(floors: map<Text, int>, member: Text): int
  {
    if member in floors then floors[member] else 0
  }

  function RaiseOne(floors: map<Text, int>, e: Entry): map<Text, int>
  {
    if e.meaning.Rotate? && e.meaning.kemEpoch > FloorOf(floors, e.meaning.memberId)
    then floors[e.meaning.memberId := e.meaning.kemEpoch] else floors
  }

  function RaiseAll(floors: map<Text, int>, entries: seq<Entry>): map<Text, int>
    decreases |entries|
  {
    if entries == [] then floors else RaiseAll(RaiseOne(floors, entries[0]), entries[1..])
  }

  /** The new entries, and everything they do, in one atomic write. */
  function Extend(m: Members, entries: seq<Entry>): Members
  {
    var shredded := ShredAll(m, entries, |m.chain| + 1);
    shredded.(chain := m.chain + entries, floors := RaiseAll(m.floors, entries))
  }

  /** Rows `first`, `first + 1`, ... */
  function Append(m: Members, first: int, rows: seq<Entry>, proof: Option<Proof>): (Members, Outcome)
  {
    var known := Known(m.requests, proof);
    if known.Some? then (m, known.value)
    else
      var overlap := Scan(m.chain, first, rows, 0);
      if overlap.Differs? then (m, Conflict(overlap.seqNo))
      else
        var added := rows[overlap.count..];
        if added != [] && first + overlap.count != |m.chain| + 1 then (m, Gap(first + overlap.count, |m.chain|))
        else
          var result := Appended(|added|, overlap.count);
          (Extend(m, added).(requests := Record(m.requests, proof, result)), result)
  }

  // ---------------------------------------------------------------------
  // Putting packages
  // ---------------------------------------------------------------------

  function FirstShredded(rows: seq<PutRow>, shredded: map<Text, int>): Option<Text>
  {
    if rows == [] then None
    else if rows[0].scopeId in shredded then Some(rows[0].scopeId)
    else FirstShredded(rows[1..], shredded)
  }

  predicate Stale(r: PutRow, floors: map<Text, int>)
  {
    r.recipient in floors && r.recipientKemEpoch < floors[r.recipient]
  }

  function FirstStale(rows: seq<PutRow>, floors: map<Text, int>): (r: Option<PutRow>)
    ensures r.Some? ==> Stale(r.value, floors)
  {
    if rows == [] then None else if Stale(rows[0], floors) then Some(rows[0]) else FirstStale(rows[1..], floors)
  }

  /** The first row whose scope epoch already has another key id, counting the rows before it. */
  function FirstClash(rows: seq<PutRow>, known: map<Epoch, Text>): Option<Outcome>
    decreases |rows|
  {
    if rows == [] then None
    else
      var r := rows[0];
      if (r.scopeId, r.epoch) in known && known[(r.scopeId, r.epoch)] != r.keyId
      then Some(KeyIdConflict(r.scopeId, r.epoch, known[(r.scopeId, r.epoch)]))
      else FirstClash(rows[1..], known[(r.scopeId, r.epoch) := r.keyId])
  }

  function WriteRow(m: Members, r: PutRow): Members
  {
    m.(epochs := m.epochs[(r.scopeId, r.epoch) := r.keyId],
       packages := m.packages[(r.scopeId, r.epoch, r.recipient) := Package(r.keyId, r.body)])
  }

  function WriteAll(m: Members, rows: seq<PutRow>): Members
    decreases |rows|
  {
    if rows == [] then m else WriteAll(WriteRow(m, rows[0]), rows[1..])
  }

  function Put(m: Members, rows: seq<PutRow>, proof: Option<Proof>): (Members, Outcome)
  {
    var known := Known(m.requests, proof);
    if known.Some? then (m, known.value)
    else
      var shredded := FirstShredded(rows, m.shredded);
      var stale := FirstStale(rows, m.floors);
      var clash := FirstClash(rows, m.epochs);
      if shredded.Some? then (m, ScopeShredded(shredded.value))
      else if stale.Some? then (m, KemEpochStale(stale.value.recipient, stale.value.recipientKemEpoch, m.floors[stale.value.recipient]))
      else if clash.Some? then (m, clash.value)
      else (WriteAll(m, rows).(requests := Record(m.requests, proof, Stored(|rows|))), Stored(|rows|))
  }

  // ---------------------------------------------------------------------
  // What the chain says
  // ---------------------------------------------------------------------

  /** The seq of the first shred of a scope. */
  function FirstShred(chain: seq<Entry>, scope: Text): (at: Option<int>)
    ensures at.None? <==> forall i :: 0 <= i < |chain| ==> chain[i].meaning != Shred(scope)
    ensures at.Some? ==>
      1 <= at.value <= |chain| && chain[at.value - 1].meaning == Shred(scope)
      && forall i :: 0 <= i < at.value - 1 ==> chain[i].meaning != Shred(scope)
  {
    if chain == [] then None
    else
      var n := |chain| - 1;
      var earlier := FirstShred(chain[..n], scope);
      if earlier.Some? then earlier else if chain[n].meaning == Shred(scope) then Some(n + 1) else None
  }

  /** The highest KEM epoch a member rotated to; 0 without a rotation. */
  function MaxEpoch(chain: seq<Entry>, member: Text): (m: int)
    ensures m >= 0 && forall i, k :: 0 <= i < |chain| && chain[i].meaning == Rotate(member, k) ==> k <= m
    ensures m > 0 ==> exists i :: 0 <= i < |chain| && chain[i].meaning == Rotate(member, m)
  {
    if chain == [] then 0
    else
      var n := |chain| - 1;
      var e := chain[n].meaning;
      var earlier := MaxEpoch(chain[..n], member);
      if e.Rotate? && e.memberId == member && e.kemEpoch > earlier then e.kemEpoch else earlier
  }

  ghost predicate ShredsOk(chain: seq<Entry>, shredded: map<Text, int>)
  {
    forall s :: FirstShred(chain, s) == if s in shredded then Some(shredded[s]) else None
  }

  ghost predicate FloorsOk(chain: seq<Entry>, floors: map<Text, int>)
  {
    forall m :: FloorOf(floors, m) == MaxEpoch(chain, m) && (m in floors ==> floors[m] > 0)
  }

  ghost predicate EpochsOk(m: Members)
  {
    forall k :: k in m.epochs ==> k.0 !in m.shredded
  }

  ghost predicate PackagesOk(m: Members)
  {
    forall k :: k in m.packages ==> (k.0, k.1) in m.epochs && m.epochs[(k.0, k.1)] == m.packages[k].keyId
  }

  ghost predicate Ok(m: Members)
  {
    ShredsOk(m.chain, m.shredded) && FloorsOk(m.chain, m.floors) && EpochsOk(m) && PackagesOk(m)
  }

  lemma ChainGrows(chain: seq<Entry>, e: Entry)
    ensures (chain + [e])[..|chain|] == chain && (chain + [e])[|chain|] == e
  {
  }

  lemma ShredKeeps(m: Members, chain: seq<Entry>, e: Entry)
    requires ShredsOk(chain, m.shredded) && EpochsOk(m) && PackagesOk(m)
    ensures var u := ShredOne(m, e, |chain| + 1);
      ShredsOk(chain + [e], u.shredded) && EpochsOk(u) && PackagesOk(u) && u.floors == m.floors && u.requests == m.requests
  {
    hide ShredsOk, FirstShred;
    var u := ShredOne(m, e, |chain| + 1);
    ShredsGrow(m, chain, e);
    assert EpochsOk(u);
    assert PackagesOk(u);
  }

  lemma ShredsGrow(m: Members, chain: seq<Entry>, e: Entry)
    requires ShredsOk(chain, m.shredded)
    ensures ShredsOk(chain + [e], ShredOne(m, e, |chain| + 1).shredded)
  {
    hide DropPackages, DropEpochs;
    forall s
      ensures FirstShred(chain + [e], s) ==
        if FirstShred(chain, s).Some? then FirstShred(chain, s) else if e.meaning == Shred(s) then Some(|chain| + 1) else None
    {
      ChainGrows(chain, e);
    }
  }

  lemma {:induction false} ShredAllKeeps(m: Members, chain: seq<Entry>, entries: seq<Entry>)
    requires ShredsOk(chain, m.shredded) && EpochsOk(m) && PackagesOk(m)
    ensures var u := ShredAll(m, entries, |chain| + 1);
      ShredsOk(chain + entries, u.shredded) && EpochsOk(u) && PackagesOk(u) && u.floors == m.floors && u.requests == m.requests
    decreases |entries|
  {
    hide ShredsOk, EpochsOk, PackagesOk, ShredOne;
    if entries == [] {
      assert chain + entries == chain;
    } else {
      ShredKeeps(m, chain, entries[0]);
      ShredAllKeeps(ShredOne(m, entries[0], |chain| + 1), chain + [entries[0]], entries[1..]);
      assert chain + [entries[0]] + entries[1..] == chain + entries;
    }
  }

  lemma RaiseKeeps(floors: map<Text, int>, chain: seq<Entry>, e: Entry)
    requires FloorsOk(chain, floors)
    ensures FloorsOk(chain + [e], RaiseOne(floors, e))
  {
    ChainGrows(chain, e);
  }

  lemma {:induction false} RaiseAllKeeps(floors: map<Text, int>, chain: seq<Entry>, entries: seq<Entry>)
    requires FloorsOk(chain, floors)
    ensures FloorsOk(chain + entries, RaiseAll(floors, entries))
    decreases |entries|
  {
    hide FloorsOk, RaiseOne;
    if entries == [] {
      assert chain + entries == chain;
    } else {
      RaiseKeeps(floors, chain, entries[0]);
      RaiseAllKeeps(RaiseOne(floors, entries[0]), chain + [entries[0]], entries[1..]);
      assert chain + [entries[0]] + entries[1..] == chain + entries;
    }
  }

  lemma ExtendKeeps(m: Members, entries: seq<Entry>)
    requires Ok(m)
    ensures Ok(Extend(m, entries)) && Extend(m, entries).requests == m.requests
  {
    hide ShredsOk, FloorsOk;
    ShredAllKeeps(m, m.chain, entries);
    RaiseAllKeeps(m.floors, m.chain, entries);
  }

  lemma {:induction false} WriteAllKeeps(m: Members, rows: seq<PutRow>)
    requires Ok(m) && FirstShredded(rows, m.shredded).None? && FirstClash(rows, m.epochs).None?
    ensures Ok(WriteAll(m, rows)) && WriteAll(m, rows).(epochs := m.epochs, packages := m.packages) == m
    decreases |rows|
  {
    hide ShredsOk, FloorsOk;
    if rows != [] {
      WriteAllKeeps(WriteRow(m, rows[0]), rows[1..]);
    }
  }

  // ---------------------------------------------------------------------
  // Every run
  // ---------------------------------------------------------------------

  datatype Action = DoAppend(first: int, rows: seq<Entry>, proof: Option<Proof>) | DoPut(packages: seq<PutRow>, proof: Option<Proof>)

  function Do(m: Members, a: Action): (Members, Outcome)
  {
    match a
    case DoAppend(first, rows, proof) => Append(m, first, rows, proof)
    case DoPut(rows, proof) => Put(m, rows, proof)
  }

  function Run(acts: seq<Action>): Members
  {
    if acts == [] then EMPTY else Do(Run(acts[..|acts| - 1]), acts[|acts| - 1]).0
  }

  predicate Accepted(o: Outcome)
  {
    o.Appended? || o.Stored?
  }

  ghost predicate Later(m: Members, u: Members)
  {
    && m.chain <= u.chain
    && forall k :: k in m.requests ==> k in u.requests && u.requests[k] == m.requests[k]
  }

  lemma {:induction false} ShredAllFrame(m: Members, entries: seq<Entry>, at: int)
    ensures ShredAll(m, entries, at).requests == m.requests && ShredAll(m, entries, at).chain == m.chain
    decreases |entries|
  {
    if entries != [] { ShredAllFrame(ShredOne(m, entries[0], at), entries[1..], at + 1); }
  }

  lemma {:induction false} WriteAllFrame(m: Members, rows: seq<PutRow>)
    ensures WriteAll(m, rows).(epochs := m.epochs, packages := m.packages) == m
    decreases |rows|
  {
    if rows != [] { WriteAllFrame(WriteRow(m, rows[0]), rows[1..]); }
  }

  /**
  The chain keeps every entry it has and requests keep their results. A refused
  write, and a recorded request made again, change nothing. An append that
  brings nothing new changes nothing but the record of its request.
  */
  lemma DoKeeps(m: Members, a: Action)
    requires Ok(m)
    ensures Ok(Do(m, a).0) && Later(m, Do(m, a).0)
    ensures !Accepted(Do(m, a).1) || Known(m.requests, a.proof).Some? ==> Do(m, a).0 == m
    ensures a.DoAppend? && Do(m, a).1.Appended? && Do(m, a).1.appended == 0 ==> Do(m, a).0.(requests := m.requests) == m
  {
    hide ShredsOk, FloorsOk, Scan, FirstClash, FirstShredded, FirstStale;
    match a
    case DoAppend(first, rows, proof) =>
      var overlap := Scan(m.chain, first, rows, 0);
      if overlap.Same? {
        ExtendKeeps(m, rows[overlap.count..]);
        ShredAllFrame(m, rows[overlap.count..], |m.chain| + 1);
      }
    case DoPut(rows, proof) =>
      if FirstShredded(rows, m.shredded).None? && FirstClash(rows, m.epochs).None? { WriteAllKeeps(m, rows); }
  }

  lemma EmptyIsOk()
    ensures Ok(EMPTY)
  {
  }

  lemma {:induction false} AlwaysOk(acts: seq<Action>)
    ensures Ok(Run(acts))
    decreases |acts|
  {
    hide Ok, Do;
    if acts == [] {
      EmptyIsOk();
    } else {
      AlwaysOk(acts[..|acts| - 1]);
      DoKeeps(Run(acts[..|acts| - 1]), acts[|acts| - 1]);
    }
  }

  /** Over every run, what is stored is what the chain says. */
  lemma StoreFollowsChain(acts: seq<Action>)
    ensures var m := Run(acts);
      && (forall k :: k in m.packages ==> FirstShred(m.chain, k.0).None?)
      && (forall k, l :: k in m.packages && l in m.packages && k.0 == l.0 && k.1 == l.1 ==> m.packages[k].keyId == m.packages[l].keyId)
      && (forall s :: FirstShred(m.chain, s) == if s in m.shredded then Some(m.shredded[s]) else None)
      && (forall who :: FloorOf(m.floors, who) == MaxEpoch(m.chain, who))
  {
    hide Run;
    AlwaysOk(acts);
  }

  lemma {:induction false} ChainOnlyGrows(acts: seq<Action>, more: seq<Action>)
    ensures Later(Run(acts), Run(acts + more))
    decreases |more|
  {
    hide Ok, Do;
    if more == [] {
      assert acts + more == acts;
    } else {
      var n := |more| - 1;
      assert (acts + more)[..|acts + more| - 1] == acts + more[..n];
      ChainOnlyGrows(acts, more[..n]);
      AlwaysOk(acts + more[..n]);
      DoKeeps(Run(acts + more[..n]), more[n]);
    }
  }

  /** Whatever happens in between, a repeated device request gets its first result, and another body under its id is refused. */
  lemma RequestsReplay(acts: seq<Action>, a: Action, more: seq<Action>, again: Action)
    requires a.proof.Some? && again.proof.Some?
    requires a.proof.value.deviceId == again.proof.value.deviceId && a.proof.value.requestId == again.proof.value.requestId
    requires Accepted(Do(Run(acts), a).1)
    ensures var m := Run(acts + [a] + more);
      Do(m, again) == (m, if a.proof.value.binding == again.proof.value.binding then Do(Run(acts), a).1 else RequestConflict)
  {
    hide Ok, Run, Extend, WriteAll, Scan, FirstClash, FirstShredded, FirstStale;
    var before := Run(acts);
    RunOne(acts, a);
    ChainOnlyGrows(acts + [a], more);
    AcceptedIsRecorded(before, a);
  }

  lemma RunOne(acts: seq<Action>, a: Action)
    ensures Run(acts + [a]) == Do(Run(acts), a).0
  {
    hide Do;
    assert (acts + [a])[..|acts + [a]| - 1] == acts;
  }

  lemma AcceptedIsRecorded(m: Members, a: Action)
    requires a.proof.Some? && Accepted(Do(m, a).1)
    ensures var u := Do(m, a).0;
      var k := (a.proof.value.deviceId, a.proof.value.requestId);
      k in u.requests && u.requests[k] == Recorded(a.proof.value.binding, Do(m, a).1)
  {
    hide Extend, WriteAll, Scan, FirstShredded, FirstStale;
    if a.DoPut? { ClashIsRefusal(a.packages, m.epochs); }
  }

  lemma {:induction false} ClashIsRefusal(rows: seq<PutRow>, known: map<Epoch, Text>)
    ensures FirstClash(rows, known).Some? ==> FirstClash(rows, known).value.KeyIdConflict?
    decreases |rows|
  {
    if rows != [] { ClashIsRefusal(rows[1..], known[(rows[0].scopeId, rows[0].epoch) := rows[0].keyId]); }
  }

  // ---------------------------------------------------------------------
  // Exactly which writes are accepted
  // ---------------------------------------------------------------------

  ghost predicate Agrees(chain: seq<Entry>, first: int, rows: seq<Entry>, i: int)
    requires 0 <= i < |rows|
  {
    first + i <= |chain| ==> 1 <= first + i && chain[first + i - 1] == rows[i]
  }

  ghost predicate Holds(chain: seq<Entry>, first: int, rows: seq<Entry>, i: int)
    requires 0 <= i < |rows|
  {
    1 <= first + i <= |chain| && chain[first + i - 1] == rows[i]
  }

  lemma {:induction false} ScanIsExact(chain: seq<Entry>, first: int, rows: seq<Entry>, done: nat)
    requires done <= |rows|
    ensures var r := Scan(chain, first, rows, done);
      && (r.Same? <==> forall i :: done <= i < |rows| ==> Agrees(chain, first, rows, i))
      && (r.Same? ==> r.count == |rows| || first + r.count > |chain|)
      && (r.Same? && r.count > done ==> first + r.count <= |chain| + 1)
      && (r.Differs? ==> first + done <= r.seqNo < first + |rows| && !Agrees(chain, first, rows, r.seqNo - first)
                         && forall i :: done <= i < r.seqNo - first ==> Agrees(chain, first, rows, i))
    decreases |rows| - done
  {
    if done < |rows| && first + done <= |chain| {
      if first + done < 1 || chain[first + done - 1] != rows[done] {
        assert !Agrees(chain, first, rows, done);
      } else {
        assert Agrees(chain, first, rows, done);
        ScanIsExact(chain, first, rows, done + 1);
      }
    }
  }

  /**
  A new append is accepted exactly when its rows agree with every stored entry
  they overlap and leave no gap; then the chain holds every one of them. A refusal
  names the first row that disagrees, or the gap.
  */
  lemma AppendIsExact(m: Members, first: int, rows: seq<Entry>, proof: Option<Proof>)
    requires Known(m.requests, proof).None?
    ensures var (u, o) := Append(m, first, rows, proof);
      && (o.Appended? <==>
            && (forall i :: 0 <= i < |rows| ==> Agrees(m.chain, first, rows, i))
            && (rows != [] ==> first <= |m.chain| + 1))
      && (o.Appended? ==>
            && u.chain == m.chain + rows[o.replayed..] && o.appended + o.replayed == |rows|
            && forall i :: 0 <= i < |rows| ==> Holds(u.chain, first, rows, i))
      && (o.Conflict? ==> first <= o.seqNo < first + |rows| && !Agrees(m.chain, first, rows, o.seqNo - first)
                          && forall i :: 0 <= i < o.seqNo - first ==> Agrees(m.chain, first, rows, i))
      && (o.Gap? ==> o.seqNo == first > |m.chain| + 1 && o.headSeq == |m.chain|)
      && (o.Appended? || o.Conflict? || o.Gap?)
  {
    hide ShredAll, RaiseAll, Record, Scan, Agrees, Holds;
    ScanIsExact(m.chain, first, rows, 0);
    var overlap := Scan(m.chain, first, rows, 0);
    if overlap.Same? && (overlap.count == |rows| || first + overlap.count == |m.chain| + 1) {
      ExtendedHolds(m.chain, first, rows, overlap.count);
      ShredAllFrame(m, rows[overlap.count..], |m.chain| + 1);
    }
  }

  lemma ExtendedHolds(chain: seq<Entry>, first: int, rows: seq<Entry>, count: nat)
    requires count <= |rows| && (forall i :: 0 <= i < |rows| ==> Agrees(chain, first, rows, i))
    requires count > 0 ==> first + count <= |chain| + 1
    requires count == |rows| || first + count == |chain| + 1
    ensures var u := chain + rows[count..];
      forall i :: 0 <= i < |rows| ==> Holds(u, first, rows, i)
  {
    var u := chain + rows[count..];
    forall i | 0 <= i < |rows|
      ensures Holds(u, first, rows, i)
    {
      assert Agrees(chain, first, rows, i);
      if i >= count { assert u[first + i - 1] == rows[count..][i - count]; }
    }
  }

  ghost predicate Unclashing(rows: seq<PutRow>, known: map<Epoch, Text>)
  {
    && (forall i :: 0 <= i < |rows| && (rows[i].scopeId, rows[i].epoch) in known ==> known[(rows[i].scopeId, rows[i].epoch)] == rows[i].keyId)
    && (forall i, j :: 0 <= i < j < |rows| && rows[i].scopeId == rows[j].scopeId && rows[i].epoch == rows[j].epoch ==> rows[i].keyId == rows[j].keyId)
  }

  lemma {:induction false} ClashIsExact(rows: seq<PutRow>, known: map<Epoch, Text>)
    ensures FirstClash(rows, known).None? <==> Unclashing(rows, known)
    decreases |rows|
  {
    if rows != [] {
      var r := rows[0];
      var k := (r.scopeId, r.epoch);
      if !(k in known && known[k] != r.keyId) {
        ClashIsExact(rows[1..], known[k := r.keyId]);
        UnclashingTail(rows, known);
      }
    }
  }

  lemma UnclashingTail(rows: seq<PutRow>, known: map<Epoch, Text>)
    requires rows != [] && var k := (rows[0].scopeId, rows[0].epoch); k in known ==> known[k] == rows[0].keyId
    ensures Unclashing(rows, known) <==> Unclashing(rows[1..], known[(rows[0].scopeId, rows[0].epoch) := rows[0].keyId])
  {
    var tail, more := rows[1..], known[(rows[0].scopeId, rows[0].epoch) := rows[0].keyId];
    assert forall i :: 0 <= i < |tail| ==> tail[i] == rows[i + 1];
    if Unclashing(tail, more) {
      forall i, j | 0 <= i < j < |rows| && rows[i].scopeId == rows[j].scopeId && rows[i].epoch == rows[j].epoch
        ensures rows[i].keyId == rows[j].keyId
      {
        assert rows[j] == tail[j - 1];
        if i > 0 { assert rows[i] == tail[i - 1]; }
      }
      forall i | 0 <= i < |rows| && (rows[i].scopeId, rows[i].epoch) in known
        ensures known[(rows[i].scopeId, rows[i].epoch)] == rows[i].keyId
      {
        if i > 0 { assert rows[i] == tail[i - 1]; }
      }
    }
  }

  lemma {:induction false} ShreddedIsExact(rows: seq<PutRow>, shredded: map<Text, int>)
    ensures FirstShredded(rows, shredded).None? <==> forall i :: 0 <= i < |rows| ==> rows[i].scopeId !in shredded
    ensures FirstShredded(rows, shredded).Some? ==> exists i :: IsFirstShredded(rows, shredded, i, FirstShredded(rows, shredded).value)
    decreases |rows|
  {
    if rows != [] {
      ShreddedIsExact(rows[1..], shredded);
      assert rows == [rows[0]] + rows[1..];
      if rows[0].scopeId in shredded {
        assert IsFirstShredded(rows, shredded, 0, rows[0].scopeId);
      } else if FirstShredded(rows[1..], shredded).Some? {
        var i :| IsFirstShredded(rows[1..], shredded, i, FirstShredded(rows[1..], shredded).value);
        assert forall j :: 1 <= j < |rows| ==> rows[j] == rows[1..][j - 1];
        assert IsFirstShredded(rows, shredded, i + 1, FirstShredded(rows, shredded).value);
      }
    }
  }

  ghost predicate IsFirstShredded(rows: seq<PutRow>, shredded: map<Text, int>, i: int, scope: Text)
  {
    0 <= i < |rows| && rows[i].scopeId == scope && scope in shredded && forall j :: 0 <= j < i ==> rows[j].scopeId !in shredded
  }

  ghost predicate IsFirstStale(rows: seq<PutRow>, floors: map<Text, int>, i: int, r: PutRow)
  {
    0 <= i < |rows| && rows[i] == r && Stale(r, floors) && forall j :: 0 <= j < i ==> !Stale(rows[j], floors)
  }

  /** A row of a scope epoch that the store, or an earlier row, has fixed another key id for. */
  ghost predicate Clashes(rows: seq<PutRow>, known: map<Epoch, Text>, i: int, keyId: Text)
  {
    && 0 <= i < |rows| && rows[i].keyId != keyId
    && (((rows[i].scopeId, rows[i].epoch) in known && known[(rows[i].scopeId, rows[i].epoch)] == keyId)
        || exists j :: 0 <= j < i && rows[j].scopeId == rows[i].scopeId && rows[j].epoch == rows[i].epoch && rows[j].keyId == keyId)
  }

  lemma {:induction false} ClashNames(rows: seq<PutRow>, known: map<Epoch, Text>)
    requires FirstClash(rows, known).Some?
    ensures FirstClash(rows, known).value.KeyIdConflict?
    ensures var c := FirstClash(rows, known).value;
      exists i :: Clashes(rows, known, i, c.keyId) && rows[i].scopeId == c.scopeId && rows[i].epoch == c.epoch
    decreases |rows|
  {
    var k := (rows[0].scopeId, rows[0].epoch);
    if k in known && known[k] != rows[0].keyId {
      assert Clashes(rows, known, 0, known[k]);
    } else {
      var tail, more := rows[1..], known[k := rows[0].keyId];
      ClashNames(tail, more);
      var c := FirstClash(tail, more).value;
      var i :| Clashes(tail, more, i, c.keyId) && tail[i].scopeId == c.scopeId && tail[i].epoch == c.epoch;
      assert forall j :: 0 <= j < |tail| ==> tail[j] == rows[j + 1];
      if (tail[i].scopeId, tail[i].epoch) == k && c.keyId == rows[0].keyId {
        assert rows[0].keyId == c.keyId;
      } else if !((tail[i].scopeId, tail[i].epoch) in more && more[(tail[i].scopeId, tail[i].epoch)] == c.keyId) {
        var j :| 0 <= j < i && tail[j].scopeId == tail[i].scopeId && tail[j].epoch == tail[i].epoch && tail[j].keyId == c.keyId;
        assert rows[j + 1] == tail[j];
      }
      assert Clashes(rows, known, i + 1, c.keyId);
    }
  }

  lemma {:induction false} StaleIsExact(rows: seq<PutRow>, floors: map<Text, int>)
    ensures FirstStale(rows, floors).None? <==> forall i :: 0 <= i < |rows| ==> !Stale(rows[i], floors)
    ensures FirstStale(rows, floors).Some? ==> exists i :: IsFirstStale(rows, floors, i, FirstStale(rows, floors).value)
    decreases |rows|
  {
    hide Stale;
    if rows != [] {
      StaleIsExact(rows[1..], floors);
      assert rows == [rows[0]] + rows[1..];
      if Stale(rows[0], floors) {
        assert IsFirstStale(rows, floors, 0, rows[0]);
      } else if FirstStale(rows[1..], floors).Some? {
        var i :| IsFirstStale(rows[1..], floors, i, FirstStale(rows[1..], floors).value);
        assert forall j :: 1 <= j < |rows| ==> rows[j] == rows[1..][j - 1];
        assert IsFirstStale(rows, floors, i + 1, FirstStale(rows, floors).value);
      }
    }
  }

  function KeyOf(r: PutRow): PackageKey
  {
    (r.scopeId, r.epoch, r.recipient)
  }

  /** The row that decides what is stored under a key: the last one written to it. */
  function LastRow(rows: seq<PutRow>, k: PackageKey): Option<PutRow>
  {
    if rows == [] then None
    else if KeyOf(rows[|rows| - 1]) == k then Some(rows[|rows| - 1])
    else LastRow(rows[..|rows| - 1], k)
  }

  function LastKeyId(rows: seq<PutRow>, e: Epoch): Option<Text>
  {
    if rows == [] then None
    else
      var r := rows[|rows| - 1];
      if (r.scopeId, r.epoch) == e then Some(r.keyId) else LastKeyId(rows[..|rows| - 1], e)
  }

  ghost predicate HoldsRow(before: map<PackageKey, Package>, after: map<PackageKey, Package>, rows: seq<PutRow>, k: PackageKey)
  {
    var r := LastRow(rows, k);
    At(after, k) == if r.Some? then Some(Package(r.value.keyId, r.value.body)) else At(before, k)
  }

  ghost predicate HoldsKeyId(before: map<Epoch, Text>, after: map<Epoch, Text>, rows: seq<PutRow>, e: Epoch)
  {
    At(after, e) == if LastKeyId(rows, e).Some? then LastKeyId(rows, e) else At(before, e)
  }

  /** Each key holds the last row written to it; every other package and epoch, and all else, is as it was. */
  ghost predicate Holding(m: Members, u: Members, rows: seq<PutRow>)
  {
    && (forall k :: HoldsRow(m.packages, u.packages, rows, k))
    && (forall e :: HoldsKeyId(m.epochs, u.epochs, rows, e))
    && u.(packages := m.packages, epochs := m.epochs) == m
  }

  function At<K, V>(m: map<K, V>, k: K): Option<V>
  {
    if k in m then Some(m[k]) else None
  }

  lemma {:induction false} WriteAllSplits(m: Members, rows: seq<PutRow>, r: PutRow)
    ensures WriteAll(m, rows + [r]) == WriteRow(WriteAll(m, rows), r)
    decreases |rows|
  {
    if rows == [] {
      assert rows + [r] == [r] && [r][1..] == [];
    } else {
      assert (rows + [r])[1..] == rows[1..] + [r];
      WriteAllSplits(WriteRow(m, rows[0]), rows[1..], r);
    }
  }

  lemma WriteRowHolds(before: Members, u: Members, rows: seq<PutRow>, r: PutRow, k: PackageKey, e: Epoch)
    requires HoldsRow(before.packages, u.packages, rows, k) && HoldsKeyId(before.epochs, u.epochs, rows, e)
    ensures HoldsRow(before.packages, WriteRow(u, r).packages, rows + [r], k)
    ensures HoldsKeyId(before.epochs, WriteRow(u, r).epochs, rows + [r], e)
  {
    assert (rows + [r])[..|rows|] == rows;
  }

  lemma {:induction false} WriteAllHolds(m: Members, rows: seq<PutRow>)
    ensures Holding(m, WriteAll(m, rows), rows)
    decreases |rows|
  {
    hide HoldsRow, HoldsKeyId, WriteRow, WriteAll;
    WriteAllFrame(m, rows);
    if rows == [] {
      forall k ensures HoldsRow(m.packages, WriteAll(m, rows).packages, rows, k) { NothingWritten(m, k, (k.0, k.1)); }
      forall e ensures HoldsKeyId(m.epochs, WriteAll(m, rows).epochs, rows, e) { NothingWritten(m, (e.0, e.1, []), e); }
    } else {
      var n := |rows| - 1;
      var u := WriteAll(m, rows[..n]);
      WriteAllHolds(m, rows[..n]);
      WriteAllSplits(m, rows[..n], rows[n]);
      assert rows == rows[..n] + [rows[n]];
      forall k ensures HoldsRow(m.packages, WriteAll(m, rows).packages, rows, k) { WriteRowHolds(m, u, rows[..n], rows[n], k, (k.0, k.1)); }
      forall e ensures HoldsKeyId(m.epochs, WriteAll(m, rows).epochs, rows, e) { WriteRowHolds(m, u, rows[..n], rows[n], (e.0, e.1, []), e); }
    }
  }

  lemma NothingWritten(m: Members, k: PackageKey, e: Epoch)
    ensures HoldsRow(m.packages, WriteAll(m, []).packages, [], k) && HoldsKeyId(m.epochs, WriteAll(m, []).epochs, [], e)
  {
  }

  /** The same in terms of what the store keeps of the chain. */
  lemma PutAccepts(m: Members, rows: seq<PutRow>, proof: Option<Proof>)
    requires Known(m.requests, proof).None?
    ensures Put(m, rows, proof).1.Stored? <==>
      && (forall i :: 0 <= i < |rows| ==> rows[i].scopeId !in m.shredded && !Stale(rows[i], m.floors))
      && Unclashing(rows, m.epochs)
    ensures Put(m, rows, proof).1.Stored? ==> Holding(m, Put(m, rows, proof).0.(requests := m.requests), rows)
  {
    hide FirstClash, FirstShredded, FirstStale, Unclashing, WriteAll, Holding;
    ShreddedIsExact(rows, m.shredded);
    StaleIsExact(rows, m.floors);
    ClashIsExact(rows, m.epochs);
    ClashIsRefusal(rows, m.epochs);
    WriteAllFrame(m, rows);
    WriteAllHolds(m, rows);
    assert WriteAll(m, rows).(requests := m.requests) == WriteAll(m, rows);
  }

  /** The recipient has not rotated, or the row is for an epoch at least as high as the highest it rotated to. */
  ghost predicate UpToDate(r: PutRow, chain: seq<Entry>)
  {
    MaxEpoch(chain, r.recipient) > 0 ==> r.recipientKemEpoch >= MaxEpoch(chain, r.recipient)
  }

  lemma StaleSays(m: Members, r: PutRow)
    requires Ok(m)
    ensures r.scopeId in m.shredded <==> FirstShred(m.chain, r.scopeId).Some?
    ensures Stale(r, m.floors) <==> !UpToDate(r, m.chain)
  {
    hide FirstShred, MaxEpoch, EpochsOk, PackagesOk;
    assert FloorOf(m.floors, r.recipient) == MaxEpoch(m.chain, r.recipient);
  }

  /**
  In every run a new put is accepted exactly when the chain has shredded none of
  its scopes, no row is for an older KEM epoch than its recipient rotated to, and
  each scope epoch keeps one key id. Afterwards each key holds the last row
  written to it and nothing else has changed but the record of the request.
  */
  lemma PutIsExact(acts: seq<Action>, rows: seq<PutRow>, proof: Option<Proof>)
    requires Known(Run(acts).requests, proof).None?
    ensures var m := Run(acts);
      && (Put(m, rows, proof).1.Stored? <==>
            && (forall i :: 0 <= i < |rows| ==> FirstShred(m.chain, rows[i].scopeId).None? && UpToDate(rows[i], m.chain))
            && Unclashing(rows, m.epochs))
      && (Put(m, rows, proof).1.Stored? ==> Holding(m, Put(m, rows, proof).0.(requests := m.requests), rows))
  {
    hide Run, Ok, Put, Holding, Unclashing, FirstShred, UpToDate, Stale;
    var m := Run(acts);
    AlwaysOk(acts);
    PutAccepts(m, rows, proof);
    forall i | 0 <= i < |rows|
      ensures rows[i].scopeId in m.shredded <==> FirstShred(m.chain, rows[i].scopeId).Some?
      ensures Stale(rows[i], m.floors) <==> !UpToDate(rows[i], m.chain)
    {
      StaleSays(m, rows[i]);
    }
  }

  /**
  A refused put names why: the first row of a shredded scope; without one the
  first stale row; without either a row whose scope epoch has another key id.
  */
  lemma PutRefusals(m: Members, rows: seq<PutRow>, proof: Option<Proof>)
    requires Known(m.requests, proof).None?
    ensures match Put(m, rows, proof).1
      case ScopeShredded(scope) => exists i :: IsFirstShredded(rows, m.shredded, i, scope)
      case KemEpochStale(recipient, kemEpoch, floor) =>
        && (forall i :: 0 <= i < |rows| ==> rows[i].scopeId !in m.shredded)
        && exists i, r :: IsFirstStale(rows, m.floors, i, r) && r.recipient == recipient && r.recipientKemEpoch == kemEpoch < m.floors[recipient] == floor
      case KeyIdConflict(scope, epoch, keyId) =>
        && (forall i :: 0 <= i < |rows| ==> rows[i].scopeId !in m.shredded && !Stale(rows[i], m.floors))
        && exists i :: Clashes(rows, m.epochs, i, keyId) && rows[i].scopeId == scope && rows[i].epoch == epoch
      case Stored(count) => count == |rows|
      case _ => false
  {
    hide FirstClash, FirstShredded, FirstStale, WriteAll, Clashes, IsFirstShredded;
    ShreddedIsExact(rows, m.shredded);
    StaleIsExact(rows, m.floors);
    if FirstClash(rows, m.epochs).Some? { ClashNames(rows, m.epochs); }
  }

  // ---------------------------------------------------------------------
  // What an append shreds
  // ---------------------------------------------------------------------

  ghost predicate ShredsScope(entries: seq<Entry>, scope: Text)
  {
    exists i :: 0 <= i < |entries| && entries[i].meaning == Shred(scope)
  }

  lemma ShredsFirst(entries: seq<Entry>, scope: Text)
    requires entries != []
    ensures ShredsScope(entries, scope) <==> entries[0].meaning == Shred(scope) || ShredsScope(entries[1..], scope)
  {
    if ShredsScope(entries, scope) && entries[0].meaning != Shred(scope) {
      var i :| 0 <= i < |entries| && entries[i].meaning == Shred(scope);
      assert entries[1..][i - 1] == entries[i];
    }
  }

  lemma {:induction false} ShredAllIsExact(m: Members, entries: seq<Entry>, at: int, k: PackageKey, e: Epoch)
    ensures var u := ShredAll(m, entries, at);
      && At(u.packages, k) == (if ShredsScope(entries, k.0) then None else At(m.packages, k))
      && At(u.epochs, e) == (if ShredsScope(entries, e.0) then None else At(m.epochs, e))
    decreases |entries|
  {
    hide ShredsScope;
    if entries == [] {
      assert !ShredsScope(entries, k.0) && !ShredsScope(entries, e.0) by { NothingShreds(k.0); NothingShreds(e.0); }
    } else {
      ShredsFirst(entries, k.0);
      ShredsFirst(entries, e.0);
      ShredAllIsExact(ShredOne(m, entries[0], at), entries[1..], at + 1, k, e);
    }
  }

  lemma NothingShreds(scope: Text)
    ensures !ShredsScope([], scope)
  {
  }

  /** An accepted append deletes the packages and epochs of exactly the scopes its new entries shred. */
  lemma AppendShreds(m: Members, first: int, rows: seq<Entry>, proof: Option<Proof>, k: PackageKey, e: Epoch)
    requires Known(m.requests, proof).None? && Append(m, first, rows, proof).1.Appended?
    ensures var (u, o) := Append(m, first, rows, proof);
      var added := rows[o.replayed..];
      && At(u.packages, k) == (if ShredsScope(added, k.0) then None else At(m.packages, k))
      && At(u.epochs, e) == (if ShredsScope(added, e.0) then None else At(m.epochs, e))
  {
    hide ShredAll, RaiseAll, Record, Scan, ShredsScope;
    var overlap := Scan(m.chain, first, rows, 0);
    ShredAllIsExact(m, rows[overlap.count..], |m.chain| + 1, k, e);
  }

  // ---------------------------------------------------------------------
  // The store, in place
  // ---------------------------------------------------------------------

  class Store {
    var chain: seq<Entry>
    var epochs: map<Epoch, Text>
    var packages: map<PackageKey, Package>
    var shredded: map<Text, int>
    var floors: map<Text, int>
    var requests: map<(Text, Text), Recorded>

    function Value(): Members
      reads this
    {
      Members(chain, epochs, packages, shredded, floors, requests)
    }

    constructor ()
      ensures Value() == EMPTY
    {
      chain, epochs, packages, shredded, floors, requests := [], map[], map[], map[], map[], map[];
    }

    /** Count the leading rows already stored with the same bytes. */
    method Replayed(first: int, rows: seq<Entry>) returns (r: Overlap)
      ensures r == Scan(chain, first, rows, 0)
    {
      var replayed := 0;
      while replayed < |rows| && first + replayed <= |chain|
        invariant replayed <= |rows|
        invariant Scan(chain, first, rows, replayed) == Scan(chain, first, rows, 0)
      {
        if first + replayed < 1 || chain[first + replayed - 1] != rows[replayed] { return Differs(first + replayed); }
        replayed := replayed + 1;
      }
      r := Same(replayed);
    }

    /** The shreds among the new entries, in order. */
    method ShredScopes(entries: seq<Entry>, at: int)
      modifies this`epochs, this`packages, this`shredded
      ensures Value() == ShredAll(old(Value()), entries, at)
    {
      for i := 0 to |entries|
        invariant ShredAll(Value(), entries[i..], at + i) == ShredAll(old(Value()), entries, at)
      {
        ghost var before := Value();
        var e := entries[i];
        if e.meaning.Shred? {
          packages := DropPackages(packages, e.meaning.scopeId);
          epochs := DropEpochs(epochs, e.meaning.scopeId);
          if e.meaning.scopeId !in shredded { shredded := shredded[e.meaning.scopeId := at + i]; }
        }
        assert Value() == ShredOne(before, entries[i..][0], at + i);
        assert entries[i..][1..] == entries[i + 1..];
      }
      assert entries[|entries|..] == [];
    }

    /** The rotations among the new entries, in order. */
    method RaiseFloors(entries: seq<Entry>)
      modifies this`floors
      ensures floors == RaiseAll(old(floors), entries)
    {
      for i := 0 to |entries|
        invariant RaiseAll(floors, entries[i..]) == RaiseAll(old(floors), entries)
      {
        ghost var before := floors;
        var e := entries[i];
        if e.meaning.Rotate? && e.meaning.kemEpoch > FloorOf(floors, e.meaning.memberId) {
          floors := floors[e.meaning.memberId := e.meaning.kemEpoch];
        }
        assert floors == RaiseOne(before, entries[i..][0]);
        assert entries[i..][1..] == entries[i + 1..];
      }
      assert entries[|entries|..] == [];
    }

    method AppendChainEntries(first: int, rows: seq<Entry>, proof: Option<Proof>) returns (o: Outcome)
      modifies this
      ensures (Value(), o) == Append(old(Value()), first, rows, proof)
    {
      var known := Known(requests, proof);
      if known.Some? { return known.value; }
      var headSeq := |chain|;
      var overlap := Replayed(first, rows);
      if overlap.Differs? { return Conflict(overlap.seqNo); }
      var added := rows[overlap.count..];
      if added != [] && first + overlap.count != headSeq + 1 { return Gap(first + overlap.count, headSeq); }
      ShredScopes(added, headSeq + 1);
      RaiseFloors(added);
      ShredAllFrame(old(Value()), added, headSeq + 1);
      ShredAllFloors(old(Value()), added, headSeq + 1);
      chain := chain + added;
      o := Appended(|added|, overlap.count);
      requests := Record(requests, proof, o);
    }

    method PutScopeKeyPackages(rows: seq<PutRow>, proof: Option<Proof>) returns (o: Outcome)
      modifies this
      ensures (Value(), o) == Put(old(Value()), rows, proof)
    {
      var known := Known(requests, proof);
      if known.Some? { return known.value; }
      var gone := FirstShredded(rows, shredded);
      if gone.Some? { return ScopeShredded(gone.value); }
      var stale := FirstStale(rows, floors);
      if stale.Some? { return KemEpochStale(stale.value.recipient, stale.value.recipientKemEpoch, floors[stale.value.recipient]); }
      var clash := FindClash(rows);
      if clash.Some? { return clash.value; }
      for i := 0 to |rows|
        invariant WriteAll(Value(), rows[i..]) == WriteAll(old(Value()), rows)
      {
        ghost var before := Value();
        var row := rows[i];
        epochs := epochs[(row.scopeId, row.epoch) := row.keyId];
        packages := packages[(row.scopeId, row.epoch, row.recipient) := Package(row.keyId, row.body)];
        assert Value() == WriteRow(before, rows[i..][0]);
        assert rows[i..][1..] == rows[i + 1..];
      }
      assert rows[|rows|..] == [];
      WriteAllFrame(old(Value()), rows);
      requests := Record(requests, proof, Stored(|rows|));
      o := Stored(|rows|);
    }

    /** The first row of a new scope epoch fixes its key id for the rest of the call. */
    method FindClash(rows: seq<PutRow>) returns (clash: Option<Outcome>)
      ensures clash == FirstClash(rows, epochs)
    {
      var fixed: map<Epoch, Text> := map[];
      assert fixed + epochs == epochs && rows[0..] == rows;
      for i := 0 to |rows|
        invariant FirstClash(rows[i..], fixed + epochs) == FirstClash(rows, epochs)
      {
        var row := rows[i];
        var k := (row.scopeId, row.epoch);
        assert rows[i..][0] == row && rows[i..][1..] == rows[i + 1..];
        var keyId := if k in epochs then Some(epochs[k]) else if k in fixed then Some(fixed[k]) else None;
        if keyId.Some? && keyId.value != row.keyId { return Some(KeyIdConflict(row.scopeId, row.epoch, keyId.value)); }
        assert fixed[k := row.keyId] + epochs == (fixed + epochs)[k := row.keyId];
        fixed := fixed[k := row.keyId];
      }
      assert rows[|rows|..] == [];
      clash := None;
    }
  }

  lemma {:induction false} ShredAllFloors(m: Members, entries: seq<Entry>, at: int)
    ensures ShredAll(m, entries, at).floors == m.floors
    decreases |entries|
  {
    if entries != [] { ShredAllFloors(ShredOne(m, entries[0], at), entries[1..], at + 1); }
  }
}
