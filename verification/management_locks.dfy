/**
 The 256 key locks around management credential checks, and the clearing of failures that one request does without
 them.
 */
module ManagementLocks {
  type Bytes = seq<bv8>

  const LOCK_COUNT := 256

  // ---------------------------------------------------------------- which locks a request takes

  /** 32-bit FNV-1a. */
  function Fnv1a(key: Bytes): bv32 {
    if key == [] then 0x811c_9dc5 else FnvStep(Fnv1a(key[..|key| - 1]), key[|key| - 1])
  }

  function FnvStep(hash: bv32, next: bv8): bv32 {
    (hash ^ (next as bv32)) * 0x0100_0193
  }

  lemma FnvMore(key: Bytes, b: bv8)
    ensures Fnv1a(key + [b]) == FnvStep(Fnv1a(key), b)
  {
    assert (key + [b])[..|key|] == key;
  }

  /** The published values for the empty key and for "foobar". */
  lemma FnvExamples()
    ensures Fnv1a([]) == 0x811c_9dc5
    ensures Fnv1a([] + [0x66] + [0x6f] + [0x6f] + [0x62] + [0x61] + [0x72]) == 0xbf9c_f968
  {
    FnvMore([], 0x66);
    assert Fnv1a([] + [0x66]) == 0xe30c_2799;
    FnvMore([] + [0x66], 0x6f);
    assert Fnv1a([] + [0x66] + [0x6f]) == 0x6222_e842;
    FnvMore([] + [0x66] + [0x6f], 0x6f);
    assert Fnv1a([] + [0x66] + [0x6f] + [0x6f]) == 0xa9f3_7ed7;
    FnvMore([] + [0x66] + [0x6f] + [0x6f], 0x62);
    assert Fnv1a([] + [0x66] + [0x6f] + [0x6f] + [0x62]) == 0x3f50_76ef;
    FnvMore([] + [0x66] + [0x6f] + [0x6f] + [0x62], 0x61);
    assert Fnv1a([] + [0x66] + [0x6f] + [0x6f] + [0x62] + [0x61]) == 0x39aa_a18a;
    FnvMore([] + [0x66] + [0x6f] + [0x6f] + [0x62] + [0x61], 0x72);
    assert Fnv1a([] + [0x66] + [0x6f] + [0x6f] + [0x62] + [0x61] + [0x72]) == 0xbf9c_f968;
  }

  function LockOf(key: Bytes): (index: int)
    ensures 0 <= index < LOCK_COUNT
  {
    Fnv1a(key) as int % LOCK_COUNT
  }

  /** "user|", "source|" and "user_source|" as bytes. */
  const USER: Bytes := [0x75, 0x73, 0x65, 0x72, 0x7c]
  const SOURCE: Bytes := [0x73, 0x6f, 0x75, 0x72, 0x63, 0x65, 0x7c]
  const USER_SOURCE: Bytes := [0x75, 0x73, 0x65, 0x72, 0x5f, 0x73, 0x6f, 0x75, 0x72, 0x63, 0x65, 0x7c]

  function LimitKeys(user: Bytes, source: Bytes): seq<Bytes> {
    [USER + user, SOURCE + source, USER_SOURCE + user + [0x7c] + source]
  }

  function LocksOf(keys: seq<Bytes>): set<int> {
    if keys == [] then {} else LocksOf(keys[..|keys| - 1]) + {LockOf(keys[|keys| - 1])}
  }

  lemma {:induction false} LockOfMember(keys: seq<Bytes>, k: nat)
    requires k < |keys|
    ensures LockOf(keys[k]) in LocksOf(keys)
  {
    if k < |keys| - 1 {
      LockOfMember(keys[..|keys| - 1], k);
    }
  }

  lemma {:induction false} LocksInRange(keys: seq<Bytes>)
    ensures forall x :: x in LocksOf(keys) ==> 0 <= x < LOCK_COUNT
  {
    if keys != [] {
      LocksInRange(keys[..|keys| - 1]);
    }
  }

  ghost predicate Ascending(indexes: seq<int>) {
    forall i, j :: 0 <= i < j < |indexes| ==> indexes[i] < indexes[j]
  }

  ghost predicate LockList(indexes: seq<int>, keys: seq<Bytes>) {
    && Ascending(indexes)
    && (forall i :: 0 <= i < |indexes| ==> 0 <= indexes[i] < LOCK_COUNT)
    && (forall x :: x in indexes <==> x in LocksOf(keys))
  }

  /** Hashes every key, drops duplicates, and lists the indexes in ascending order. */
  method ManagementLockIndexes(keys: seq<Bytes>) returns (indexes: seq<int>)
    ensures LockList(indexes, keys)
  {
    var unique: set<int> := {};
    for i := 0 to |keys|
      invariant unique == LocksOf(keys[..i])
    {
      assert keys[..i + 1][..i] == keys[..i];
      unique := unique + {LockOf(keys[i])};
    }
    assert keys[..|keys|] == keys;
    LocksInRange(keys);
    indexes := InOrder(unique);
  }

  method InOrder(unique: set<int>) returns (indexes: seq<int>)
    requires forall x :: x in unique ==> 0 <= x < LOCK_COUNT
    ensures Ascending(indexes) && forall x :: x in indexes <==> x in unique
    ensures forall i :: 0 <= i < |indexes| ==> 0 <= indexes[i] < LOCK_COUNT
  {
    indexes := [];
    for index := 0 to LOCK_COUNT
      invariant forall x :: x in indexes <==> x in unique && 0 <= x < index
      invariant forall i :: 0 <= i < |indexes| ==> 0 <= indexes[i] < index
      invariant Ascending(indexes)
    {
      if index in unique {
        indexes := indexes + [index];
      }
    }
  }

  // ---------------------------------------------------------------- requests under the locks

  type RequestId = nat

  /**
   Taking locks in list order, checking, then recording or clearing under all of them, giving them back in reverse.
   */
  datatype Phase = Acquiring | Unchecked | Checked | Recorded | Cleared | Releasing | Finished

  /**
   A setup request gives its locks back before the rest of its work and clears the failures of its keys at the very
   end; the others clear while they still hold their locks. `owes` says that such a late clearing may still come.
   */
  datatype Request = Request(keys: seq<Bytes>, indexes: seq<int>, setup: bool, held: nat, phase: Phase, owes: bool)

  /** `owners[i]` holds lock `i`. */
  datatype State = State(requests: map<RequestId, Request>, owners: map<int, RequestId>)

  datatype Event =
    | Arrive(id: RequestId, keys: seq<Bytes>, indexes: seq<int>, setup: bool)
    | Lock(id: RequestId)
    | CheckLimit(id: RequestId)      // the limiter is asked
    | RecordAttempt(id: RequestId)   // a wrong credential is recorded
    | ClearInside(id: RequestId)     // the failures are cleared under the locks
    | Leave(id: RequestId)           // refused, verified, recorded or cleared: start giving locks back
    | Unlock(id: RequestId)
    | ClearLate(id: RequestId)       // the failures are cleared without the locks

  function WaitsFor(r: Request): int
    requires r.held < |r.indexes|
  {
    r.indexes[r.held]
  }

  ghost predicate Enabled(s: State, e: Event) {
    match e
    case Arrive(id, keys, indexes, _) => id !in s.requests && LockList(indexes, keys)
    case Lock(id) =>
      id in s.requests && var r := s.requests[id];
      r.phase.Acquiring? && r.held < |r.indexes| && WaitsFor(r) !in s.owners
    case CheckLimit(id) => id in s.requests && s.requests[id].phase.Unchecked?
    case RecordAttempt(id) => id in s.requests && s.requests[id].phase.Checked?
    case ClearInside(id) => id in s.requests && s.requests[id].phase.Checked? && !s.requests[id].setup
    case Leave(id) =>
      id in s.requests
        && (s.requests[id].phase.Checked? || s.requests[id].phase.Recorded? || s.requests[id].phase.Cleared?)
    case Unlock(id) => id in s.requests && s.requests[id].phase.Releasing?
      && 0 < s.requests[id].held <= |s.requests[id].indexes|
    case ClearLate(id) => id in s.requests && s.requests[id].phase.Finished? && s.requests[id].owes
  }

  function Moved(s: State, id: RequestId, r: Request): State {
    s.(requests := s.requests[id := r])
  }

  ghost function Apply(s: State, e: Event): State
    requires Enabled(s, e)
  {
    match e
    case Arrive(id, keys, indexes, setup) =>
      Moved(s, id, Request(keys, indexes, setup, 0, if indexes == [] then Unchecked else Acquiring, false))
    case Lock(id) =>
      var r := s.requests[id];
      Moved(s, id, r.(held := r.held + 1, phase := if r.held + 1 == |r.indexes| then Unchecked else Acquiring))
        .(owners := s.owners[WaitsFor(r) := id])
    case CheckLimit(id) => Moved(s, id, s.requests[id].(phase := Checked))
    case RecordAttempt(id) => Moved(s, id, s.requests[id].(phase := Recorded))
    case ClearInside(id) => Moved(s, id, s.requests[id].(phase := Cleared))
    case Leave(id) =>
      var r := s.requests[id];
      Moved(s, id, r.(phase := if r.held == 0 then Finished else Releasing, owes := r.setup && r.phase.Checked?))
    case Unlock(id) =>
      var r := s.requests[id];
      Moved(s, id, r.(held := r.held - 1, phase := if r.held == 1 then Finished else Releasing))
        .(owners := s.owners - {r.indexes[r.held - 1]})
    case ClearLate(id) => Moved(s, id, s.requests[id].(owes := false))
  }

  /** A request between the limiter check and the end of its section holds every lock of its keys. */
  predicate InSection(r: Request) {
    r.phase.Unchecked? || r.phase.Checked? || r.phase.Recorded? || r.phase.Cleared?
  }

  ghost predicate RequestOk(s: State, id: RequestId)
    requires id in s.requests
  {
    var r := s.requests[id];
    && LockList(r.indexes, r.keys) && r.held <= |r.indexes|
    && (InSection(r) ==> r.held == |r.indexes|)
    && (r.phase.Acquiring? ==> r.held < |r.indexes|)
    && (r.phase.Releasing? ==> r.held > 0)
    && (r.phase.Finished? ==> r.held == 0)
    && (forall i :: 0 <= i < r.held ==> r.indexes[i] in s.owners && s.owners[r.indexes[i]] == id)
  }

  ghost predicate OwnerOk(s: State, lock: int)
    requires lock in s.owners
  {
    var id := s.owners[lock];
    id in s.requests && exists i ::
      0 <= i < s.requests[id].held && i < |s.requests[id].indexes| && s.requests[id].indexes[i] == lock
  }

  ghost predicate Inv(s: State) {
    && (forall id :: id in s.requests ==> RequestOk(s, id))
    && (forall lock :: lock in s.owners ==> OwnerOk(s, lock))
  }

  lemma LockKeepsRequest(s: State, id: RequestId, other: RequestId)
    requires Inv(s) && Enabled(s, Lock(id)) && other in s.requests
    ensures RequestOk(Apply(s, Lock(id)), other)
  {
    assert RequestOk(s, other);
  }

  lemma LockKeepsInv(s: State, id: RequestId)
    requires Inv(s) && Enabled(s, Lock(id))
    ensures Inv(Apply(s, Lock(id)))
  {
    var t := Apply(s, Lock(id));
    forall other | other in t.requests ensures RequestOk(t, other) {
      LockKeepsRequest(s, id, other);
    }
    forall lock | lock in t.owners ensures OwnerOk(t, lock) {
      LockOwner(s, id, lock);
    }
  }

  lemma LockOwner(s: State, id: RequestId, lock: int)
    requires Inv(s) && Enabled(s, Lock(id)) && lock in Apply(s, Lock(id)).owners
    ensures OwnerOk(Apply(s, Lock(id)), lock)
  {
  }

  lemma UnlockOwner(s: State, id: RequestId, lock: int)
    requires Inv(s) && Enabled(s, Unlock(id)) && lock in Apply(s, Unlock(id)).owners
    ensures OwnerOk(Apply(s, Unlock(id)), lock)
  {
  }

  lemma UnlockKeepsInv(s: State, id: RequestId)
    requires Inv(s) && Enabled(s, Unlock(id))
    ensures Inv(Apply(s, Unlock(id)))
  {
    var r, t := s.requests[id], Apply(s, Unlock(id));
    assert RequestOk(s, id);
    forall other | other in t.requests ensures RequestOk(t, other) {
      assert RequestOk(s, other);
      var o := s.requests[other];
      if other != id {
        assert forall i :: 0 <= i < o.held ==> s.owners[o.indexes[i]] == other;
      }
    }
    forall lock | lock in t.owners ensures OwnerOk(t, lock) {
      UnlockOwner(s, id, lock);
    }
  }

  lemma MoveKeepsInv(s: State, id: RequestId, r: Request)
    requires Inv(s)
    requires id !in s.requests ==> r.held == 0
    requires id in s.requests ==> r.held == s.requests[id].held && r.indexes == s.requests[id].indexes
    requires RequestOk(Moved(s, id, r), id)
    ensures Inv(Moved(s, id, r))
  {
    var t := Moved(s, id, r);
    forall other | other in t.requests && other != id ensures RequestOk(t, other) {
      assert RequestOk(s, other);
    }
    forall lock | lock in t.owners ensures OwnerOk(t, lock) {
      assert OwnerOk(s, lock);
    }
  }

  lemma StepKeepsInv(s: State, e: Event)
    requires Inv(s) && Enabled(s, e)
    ensures Inv(Apply(s, e))
  {
    match e
    case Lock(id) => LockKeepsInv(s, id);
    case Unlock(id) => UnlockKeepsInv(s, id);
    case Arrive(id, _, _, _) => MoveKeepsInv(s, id, Apply(s, e).requests[id]);
    case _ =>
      assert RequestOk(s, e.id);
      MoveKeepsInv(s, e.id, Apply(s, e).requests[e.id]);
  }

  ghost predicate Follows(states: seq<State>, events: seq<Event>) {
    && |states| == |events| + 1
    && forall i :: 0 <= i < |events| ==> Enabled(states[i], events[i]) && states[i + 1] == Apply(states[i], events[i])
  }

  ghost predicate IsRun(states: seq<State>, events: seq<Event>) {
    Follows(states, events) && states[0] == State(map[], map[])
  }

  lemma {:induction false} InvHolds(states: seq<State>, events: seq<Event>, n: nat)
    requires IsRun(states, events) && n <= |events|
    ensures Inv(states[n])
  {
    if n > 0 {
      InvHolds(states, events, n - 1);
      StepKeepsInv(states[n - 1], events[n - 1]);
    }
  }

  // ---------------------------------------------------------------- deadlock freedom

  /** The next event of a request that has not finished. */
  function NextEvent(r: Request, id: RequestId): Event {
    match r.phase
    case Acquiring => Lock(id)
    case Unchecked => CheckLimit(id)
    case Checked => Leave(id)
    case Recorded => Leave(id)
    case Cleared => Leave(id)
    case _ => Unlock(id)
  }

  /**
   Following the owner of the lock a request waits for climbs to ever higher locks, so it ends at one that can step.
   */
  lemma {:induction false} SomeoneCanStep(s: State, id: RequestId) returns (mover: RequestId)
    requires Inv(s) && id in s.requests && !s.requests[id].phase.Finished?
    ensures mover in s.requests && !s.requests[mover].phase.Finished?
    ensures Enabled(s, NextEvent(s.requests[mover], mover))
    decreases if s.requests[id].phase.Acquiring? && s.requests[id].held < |s.requests[id].indexes|
              then LOCK_COUNT - WaitsFor(s.requests[id]) + 1 else 0
  {
    var r := s.requests[id];
    assert RequestOk(s, id);
    if r.phase.Acquiring? && WaitsFor(r) in s.owners {
      var lock := WaitsFor(r);
      var holder := s.owners[lock];
      assert OwnerOk(s, lock) && RequestOk(s, holder);
      var h := s.requests[holder];
      var i :| 0 <= i < h.held && h.indexes[i] == lock;
      if h.phase.Acquiring? {
        assert h.indexes[i] < h.indexes[h.held];
        assert LOCK_COUNT - WaitsFor(h) + 1 < LOCK_COUNT - WaitsFor(r) + 1;
        assert WaitsFor(h) < LOCK_COUNT;
      }
      mover := SomeoneCanStep(s, holder);
    } else {
      mover := id;
    }
  }

  /** In every reachable state with an unfinished request, some unfinished request can take its next step. */
  lemma NoDeadlock(states: seq<State>, events: seq<Event>, n: nat, id: RequestId)
    requires IsRun(states, events) && n <= |events|
    requires id in states[n].requests && !states[n].requests[id].phase.Finished?
    ensures exists mover ::
      && mover in states[n].requests && !states[n].requests[mover].phase.Finished?
      && Enabled(states[n], NextEvent(states[n].requests[mover], mover))
  {
    InvHolds(states, events, n);
    var mover := SomeoneCanStep(states[n], id);
  }

  // ---------------------------------------------------------------- progress

  /** The most events a request still takes part in. */
  function Left(r: Request): nat {
    match r.phase
    case Acquiring => (if r.held <= |r.indexes| then |r.indexes| - r.held else 0) + |r.indexes| + 5
    case Unchecked => r.held + 4
    case Checked => r.held + 3
    case Recorded => r.held + 1
    case Cleared => r.held + 1
    case Releasing => r.held + (if r.owes then 1 else 0)
    case Finished => if r.owes then 1 else 0
  }

  ghost function Total(requests: map<RequestId, Request>): nat {
    if requests == map[] then 0 else
      var id :| id in requests;
      Left(requests[id]) + Total(requests - {id})
  }

  lemma {:induction false} TotalWithout(requests: map<RequestId, Request>, id: RequestId)
    requires id in requests
    ensures Total(requests) == Left(requests[id]) + Total(requests - {id})
    decreases requests
  {
    var x :| x in requests && Total(requests) == Left(requests[x]) + Total(requests - {x});
    if x != id {
      TotalWithout(requests - {x}, id);
      TotalWithout(requests - {id}, x);
      assert requests - {x} - {id} == requests - {id} - {x};
    }
  }

  /** Every event but an arrival takes a request forward. */
  lemma EventIsProgress(s: State, e: Event)
    requires Enabled(s, e) && !e.Arrive?
    ensures Total(Apply(s, e).requests) < Total(s.requests)
  {
    var t := Apply(s, e);
    TotalWithout(s.requests, e.id);
    TotalWithout(t.requests, e.id);
    assert t.requests - {e.id} == s.requests - {e.id};
  }

  /** Once arrivals stop, only so many events can follow. */
  lemma {:induction false} RunsEnd(states: seq<State>, events: seq<Event>, i: nat, n: nat)
    requires IsRun(states, events) && i <= n <= |events|
    requires forall k :: i <= k < n ==> !events[k].Arrive?
    ensures n - i + Total(states[n].requests) <= Total(states[i].requests)
  {
    if i < n {
      RunsEnd(states, events, i, n - 1);
      EventIsProgress(states[n - 1], events[n - 1]);
    }
  }

  lemma Extended(states: seq<State>, events: seq<Event>, e: Event)
    requires IsRun(states, events) && Enabled(states[|events|], e)
    ensures IsRun(states + [Apply(states[|events|], e)], events + [e])
  {
  }

  ghost predicate AllFinished(s: State) {
    forall id :: id in s.requests ==> s.requests[id].phase.Finished?
  }

  /** And when nothing more can follow, all requests have finished: every run can be carried on until they have. */
  lemma {:induction false} AllCanFinish(states: seq<State>, events: seq<Event>)
    returns (states': seq<State>, events': seq<Event>)
    requires IsRun(states, events)
    ensures IsRun(states', events') && states <= states' && events <= events' && AllFinished(states'[|events'|])
    ensures forall k :: |events| <= k < |events'| ==> !events'[k].Arrive?
    decreases Total(states[|events|].requests)
  {
    var s := states[|events|];
    if AllFinished(s) {
      states', events' := states, events;
    } else {
      var id :| id in s.requests && !s.requests[id].phase.Finished?;
      InvHolds(states, events, |events|);
      var mover := SomeoneCanStep(s, id);
      var e := NextEvent(s.requests[mover], mover);
      EventIsProgress(s, e);
      Extended(states, events, e);
      states', events' := AllCanFinish(states + [Apply(s, e)], events + [e]);
    }
  }

  // ---------------------------------------------------------------- exclusion

  predicate SharesKey(a: Request, b: Request) {
    exists i, j :: 0 <= i < |a.keys| && 0 <= j < |b.keys| && a.keys[i] == b.keys[j]
  }

  lemma HoldsLockOfKey(s: State, id: RequestId, k: nat)
    requires Inv(s) && id in s.requests && InSection(s.requests[id]) && k < |s.requests[id].keys|
    ensures LockOf(s.requests[id].keys[k]) in s.owners && s.owners[LockOf(s.requests[id].keys[k])] == id
  {
    var r := s.requests[id];
    assert RequestOk(s, id);
    LockOfMember(r.keys, k);
  }

  lemma SectionsExclude(s: State, a: RequestId, b: RequestId)
    requires Inv(s) && a in s.requests && b in s.requests && SharesKey(s.requests[a], s.requests[b])
    requires InSection(s.requests[a]) && InSection(s.requests[b])
    ensures a == b
  {
    var i, j :| 0 <= i < |s.requests[a].keys| && 0 <= j < |s.requests[b].keys|
      && s.requests[a].keys[i] == s.requests[b].keys[j];
    HoldsLockOfKey(s, a, i);
    HoldsLockOfKey(s, b, j);
  }

  lemma SameUserSharesKey(user: Bytes, source: Bytes, user': Bytes, source': Bytes, a: Request, b: Request)
    requires a.keys == LimitKeys(user, source) && b.keys == LimitKeys(user', source')
    requires user == user' || source == source'
    ensures SharesKey(a, b)
  {
    if user == user' {
      assert a.keys[0] == b.keys[0];
    } else {
      assert a.keys[1] == b.keys[1];
    }
  }

  /** Keys of different kinds differ in their first bytes. */
  lemma KindsDiffer(user: Bytes, source: Bytes, user': Bytes, source': Bytes)
    ensures var k, k' := LimitKeys(user, source), LimitKeys(user', source');
      forall i, j :: 0 <= i < 3 && 0 <= j < 3 && k[i] == k'[j] ==> i == j
  {
    var k, k' := LimitKeys(user, source), LimitKeys(user', source');
    assert k[0][0] == k'[0][0] == 0x75 && k[0][4] == k'[0][4] == 0x7c;
    assert k[1][0] == k'[1][0] == 0x73;
    assert k[2][0] == k'[2][0] == 0x75 && k[2][4] == k'[2][4] == 0x5f;
  }

  lemma SamePrefix(prefix: Bytes, a: Bytes, b: Bytes)
    ensures prefix + a == prefix + b <==> a == b
  {
    assert (prefix + a)[|prefix|..] == a && (prefix + b)[|prefix|..] == b;
  }

  predicate SharesJoined(user: Bytes, source: Bytes, user': Bytes, source': Bytes) {
    user + [0x7c] + source == user' + [0x7c] + source'
  }

  /** Two requests share a key exactly if they are of one user, or from one source, or read alike when joined. */
  lemma SharesKeyExactly(user: Bytes, source: Bytes, user': Bytes, source': Bytes, a: Request, b: Request)
    requires a.keys == LimitKeys(user, source) && b.keys == LimitKeys(user', source')
    ensures SharesKey(a, b) <==> user == user' || source == source' || SharesJoined(user, source, user', source')
  {
    var joined, joined' := user + [0x7c] + source, user' + [0x7c] + source';
    KindsDiffer(user, source, user', source');
    SamePrefix(USER, user, user');
    SamePrefix(SOURCE, source, source');
    SamePrefix(USER_SOURCE, joined, joined');
    assert a.keys[2] == USER_SOURCE + joined && b.keys[2] == USER_SOURCE + joined';
    assert a.keys[0] == b.keys[0] <==> user == user';
    assert a.keys[1] == b.keys[1] <==> source == source';
    assert a.keys[2] == b.keys[2] <==> SharesJoined(user, source, user', source');
  }

  /** Different users from different sources share none, as user ids hold no bar. */
  lemma StrangersShareNoKey(user: Bytes, source: Bytes, user': Bytes, source': Bytes, a: Request, b: Request)
    requires a.keys == LimitKeys(user, source) && b.keys == LimitKeys(user', source')
    requires user != user' && source != source' && 0x7c !in user && 0x7c !in user'
    ensures !SharesKey(a, b)
  {
    SharesKeyExactly(user, source, user', source', a, b);
    if SharesJoined(user, source, user', source') {
      BarSplits(user, source, user', source');
    }
  }

  lemma BarSplits(user: Bytes, source: Bytes, user': Bytes, source': Bytes)
    requires 0x7c !in user && 0x7c !in user' && SharesJoined(user, source, user', source')
    ensures user == user'
  {
    var joined := user + [0x7c] + source;
    assert joined[|user|] == 0x7c && joined[|user'|] == 0x7c;
    assert forall i :: 0 <= i < |user| ==> joined[i] == user[i];
    assert forall i :: 0 <= i < |user'| ==> joined[i] == user'[i];
    assert |user| == |user'|;
    assert forall i :: 0 <= i < |user| ==> user[i] == user'[i];
  }

  /** What a request does only if the limiter let it pass: record a failure, or clear under its locks. */
  predicate UsesCheck(e: Event, id: RequestId) {
    e == RecordAttempt(id) || e == ClearInside(id)
  }

  lemma {:induction false} StaysInSection(states: seq<State>, events: seq<Event>, i: nat, j: nat, k: nat, id: RequestId)
    requires Follows(states, events) && i < j <= k < |events|
    requires events[i] == CheckLimit(id) && UsesCheck(events[k], id)
    ensures id in states[j].requests && states[j].requests[id].phase.Checked?
    ensures states[j].requests[id].keys == states[i].requests[id].keys
    decreases j
  {
    if j > i + 1 {
      StaysInSection(states, events, i, j - 1, k, id);
      var e := events[j - 1];
      if UsesCheck(e, id) || e == Leave(id) {
        LeftSectionForGood(states, events, j, k, id);
        assert false;
      }
    }
  }

  predicate PastCheck(s: State, id: RequestId) {
    && id in s.requests
    && var phase := s.requests[id].phase;
       phase.Recorded? || phase.Cleared? || phase.Releasing? || phase.Finished?
  }

  lemma {:induction false} LeftSectionForGood(states: seq<State>, events: seq<Event>, j: nat, k: nat, id: RequestId)
    requires Follows(states, events) && j <= k <= |events| && PastCheck(states[j], id)
    ensures PastCheck(states[k], id)
  {
    if j < k {
      LeftSectionForGood(states, events, j, k - 1, id);
    }
  }

  /** Request `id` asks the limiter, or changes what it holds. */
  predicate TouchesLimiter(e: Event, id: RequestId) {
    e == CheckLimit(id) || e == RecordAttempt(id) || e == ClearInside(id) || e == ClearLate(id)
  }

  /** In step `j` another request with a key in common touches the limiter. */
  predicate Disturbs(states: seq<State>, events: seq<Event>, j: nat, other: RequestId, r: Request)
    requires j < |events| < |states|
  {
    TouchesLimiter(events[j], other) && other in states[j].requests && SharesKey(states[j].requests[other], r)
  }

  lemma OnlyLateClearsDisturb(states: seq<State>, events: seq<Event>, i: nat, j: nat, k: nat, id: RequestId,
                              other: RequestId)
    requires IsRun(states, events) && i < j < k < |events|
    requires events[i] == CheckLimit(id) && events[k] == RecordAttempt(id)
    requires Disturbs(states, events, j, other, states[i].requests[id])
    ensures events[j] == ClearLate(other) && other != id && states[j].requests[other].setup
  {
    InvHolds(states, events, j);
    StaysInSection(states, events, i, j, k, id);
    StaysInSection(states, events, i, j + 1, k, id);
    if events[j] != ClearLate(other) {
      SectionsExclude(states[j], other, id);
      assert false;
    } else {
      OnlySetupOwes(states, events, j, other);
    }
  }

  lemma {:induction false} OnlySetupOwes(states: seq<State>, events: seq<Event>, n: nat, id: RequestId)
    requires IsRun(states, events) && n <= |events| && id in states[n].requests && states[n].requests[id].owes
    ensures states[n].requests[id].setup
  {
    if n > 0 && id in states[n - 1].requests && states[n - 1].requests[id].owes {
      OnlySetupOwes(states, events, n - 1, id);
    }
  }

  /**
   In every interleaving, no request with a key in common asks or changes the limiter between a request's limiter
   check and its recording of a wrong credential, if and only if no setup request with a key in common clears its
   failures there.
   */
  lemma CheckAndRecordAreAtomic(states: seq<State>, events: seq<Event>, i: nat, k: nat, id: RequestId)
    requires IsRun(states, events) && i < k < |events|
    requires events[i] == CheckLimit(id) && events[k] == RecordAttempt(id)
    ensures var r := states[i].requests[id];
      (forall j, other :: i < j < k ==> !Disturbs(states, events, j, other, r)) <==>
      (forall j, other :: i < j < k && events[j] == ClearLate(other) ==>
         !(other in states[j].requests && states[j].requests[other].setup && SharesKey(states[j].requests[other], r)))
  {
    var r := states[i].requests[id];
    forall j, other | i < j < k && Disturbs(states, events, j, other, r)
      ensures events[j] == ClearLate(other) && states[j].requests[other].setup
    {
      OnlyLateClearsDisturb(states, events, i, j, k, id, other);
    }
    if j, other :| i < j < k && events[j] == ClearLate(other)
                   && other in states[j].requests && states[j].requests[other].setup
                      && SharesKey(states[j].requests[other], r) {
      assert Disturbs(states, events, j, other, r);
    }
  }

  // ---------------------------------------------------------------- what the check can promise

  /** Some other request with a key in common may still clear late. */
  predicate CanClearLate(s: State, id: RequestId, r: Request) {
    exists other :: other in s.requests && other != id && s.requests[other].owes && SharesKey(s.requests[other], r)
  }

  /** Only setup requests owe a clearing, and only once they give their locks back. */
  predicate OwesOk(s: State) {
    forall id :: id in s.requests && s.requests[id].owes ==>
      s.requests[id].setup && (s.requests[id].phase.Releasing? || s.requests[id].phase.Finished?)
  }

  lemma {:induction false} OwesHolds(states: seq<State>, events: seq<Event>, n: nat)
    requires IsRun(states, events) && n <= |events|
    ensures OwesOk(states[n])
  {
    if n > 0 {
      OwesHolds(states, events, n - 1);
      OwesStep(states[n - 1], events[n - 1]);
    }
  }

  /**
   Request `id` has passed the check in `s`; whatever follows, nobody with a key in common touches the limiter until
   it records.
   */
  ghost predicate RecordsUndisturbed(s: State, id: RequestId)
    requires id in s.requests
  {
    forall states, events ::
      Follows(states, events) && states[0] == s && |events| > 0 && events[|events| - 1] == RecordAttempt(id) ==>
        forall j, other :: 0 <= j < |events| - 1 ==> !Disturbs(states, events, j, other, s.requests[id])
  }

  ghost predicate QuietlyChecked(s: State, id: RequestId, r: Request) {
    && Inv(s) && OwesOk(s) && id in s.requests && s.requests[id].phase.Checked? && s.requests[id].keys == r.keys
    && !CanClearLate(s, id, r)
  }

  lemma QuietStep(s: State, e: Event, id: RequestId, r: Request)
    requires QuietlyChecked(s, id, r) && Enabled(s, e) && !UsesCheck(e, id) && e != Leave(id)
    ensures QuietlyChecked(Apply(s, e), id, r)
  {
    StepKeepsInv(s, e);
    CheckedStays(s, e, id);
    OwesStep(s, e);
    forall other | other in Apply(s, e).requests && other != id && Apply(s, e).requests[other].owes
      ensures !SharesKey(Apply(s, e).requests[other], r)
    {
      NobodyComesToOwe(s, e, id, r, other);
    }
  }

  lemma CheckedStays(s: State, e: Event, id: RequestId)
    requires Enabled(s, e) && id in s.requests && s.requests[id].phase.Checked? && !UsesCheck(e, id) && e != Leave(id)
    ensures id in Apply(s, e).requests && Apply(s, e).requests[id] == s.requests[id]
  {
  }

  lemma OwesStep(s: State, e: Event)
    requires Enabled(s, e) && OwesOk(s)
    ensures OwesOk(Apply(s, e))
  {
  }

  lemma NobodyComesToOwe(s: State, e: Event, id: RequestId, r: Request, other: RequestId)
    requires QuietlyChecked(s, id, r) && Enabled(s, e)
    requires other in Apply(s, e).requests && other != id && Apply(s, e).requests[other].owes
    ensures !SharesKey(Apply(s, e).requests[other], r)
  {
    if other in s.requests && s.requests[other].owes {
      assert !SharesKey(s.requests[other], r);
    } else {
      assert e == Leave(other) && s.requests[other].phase.Checked?;
      if SharesKey(s.requests[other], s.requests[id]) {
        SectionsExclude(s, other, id);
        assert false;
      }
    }
  }

  lemma QuietInRun(states: seq<State>, events: seq<Event>, j: nat, id: RequestId, r: Request)
    requires Follows(states, events) && j + 1 < |events| && QuietlyChecked(states[j], id, r)
    requires events[|events| - 1] == RecordAttempt(id)
    ensures QuietlyChecked(states[j + 1], id, r)
  {
    var e := events[j];
    if UsesCheck(e, id) || e == Leave(id) {
      LeftSectionForGood(states, events, j + 1, |events| - 1, id);
      assert false;
    }
    QuietStep(states[j], e, id, r);
  }

  lemma {:induction false} QuietStays(states: seq<State>, events: seq<Event>, j: nat, id: RequestId, r: Request)
    requires Follows(states, events) && j < |events| && QuietlyChecked(states[0], id, r)
    requires events[|events| - 1] == RecordAttempt(id)
    ensures QuietlyChecked(states[j], id, r)
  {
    if j > 0 {
      QuietStays(states, events, j - 1, id, r);
      QuietInRun(states, events, j - 1, id, r);
    }
  }

  lemma QuietIsUndisturbed(states: seq<State>, events: seq<Event>, j: nat, id: RequestId, other: RequestId)
    requires Follows(states, events) && j + 1 < |events| && events[|events| - 1] == RecordAttempt(id)
    requires id in states[0].requests && QuietlyChecked(states[0], id, states[0].requests[id])
    ensures !Disturbs(states, events, j, other, states[0].requests[id])
  {
    var r := states[0].requests[id];
    QuietStays(states, events, j, id, r);
    QuietStays(states, events, j + 1, id, r);
    if Disturbs(states, events, j, other, r) && events[j] != ClearLate(other) {
      SectionsExclude(states[j], other, id);
      assert false;
    }
  }

  /** A request giving its locks back can always do so. */
  lemma {:induction false} UnlocksAll(s: State, id: RequestId) returns (states: seq<State>, events: seq<Event>)
    requires Inv(s) && id in s.requests && (s.requests[id].phase.Releasing? || s.requests[id].phase.Finished?)
    ensures Follows(states, events) && states[0] == s
    ensures var r := s.requests[id];
      states[|events|].requests == s.requests[id := r.(held := 0, phase := Finished)]
    decreases s.requests[id].held
  {
    var r := s.requests[id];
    assert RequestOk(s, id);
    if r.phase.Finished? {
      assert s.requests[id := r.(held := 0, phase := Finished)] == s.requests;
      states, events := [s], [];
    } else {
      var next := Apply(s, Unlock(id));
      StepKeepsInv(s, Unlock(id));
      states, events := UnlocksAll(next, id);
      states, events := [s] + states, [Unlock(id)] + events;
    }
  }

  lemma Appended(states: seq<State>, events: seq<Event>, e: Event)
    requires Follows(states, events) && Enabled(states[|events|], e)
    ensures Follows(states + [Apply(states[|events|], e)], events + [e])
  {
  }

  lemma LateClearFollows(s: State, id: RequestId, other: RequestId) returns (states: seq<State>, events: seq<Event>)
    requires Inv(s) && OwesOk(s) && id in s.requests && s.requests[id].phase.Checked?
    requires other in s.requests && other != id && s.requests[other].owes
    requires SharesKey(s.requests[other], s.requests[id])
    ensures Follows(states, events) && states[0] == s && |events| > 1 && events[|events| - 1] == RecordAttempt(id)
    ensures Disturbs(states, events, |events| - 2, other, s.requests[id])
  {
    states, events := UnlocksAll(s, other);
    var released := states[|events|];
    var cleared := Apply(released, ClearLate(other));
    Appended(states, events, ClearLate(other));
    Appended(states + [cleared], events + [ClearLate(other)], RecordAttempt(id));
    states := states + [cleared] + [Apply(cleared, RecordAttempt(id))];
    events := events + [ClearLate(other)] + [RecordAttempt(id)];
  }

  /**
   Already at the check it can be told: whatever follows, the request records its failure undisturbed, if and only if
   at this moment no other request with a key in common owes a late clearing.
   */
  lemma CheckTellsUndisturbed(states: seq<State>, events: seq<Event>, i: nat, id: RequestId)
    requires IsRun(states, events) && i < |events| && events[i] == CheckLimit(id)
    ensures var s := states[i + 1];
      id in s.requests && (RecordsUndisturbed(s, id) <==> !CanClearLate(s, id, s.requests[id]))
  {
    var s := states[i + 1];
    InvHolds(states, events, i + 1);
    OwesHolds(states, events, i + 1);
    if CanClearLate(s, id, s.requests[id]) {
      var other :| other in s.requests && other != id && s.requests[other].owes
        && SharesKey(s.requests[other], s.requests[id]);
      var later, steps := LateClearFollows(s, id, other);
    } else {
      forall later, steps, j, other |
        Follows(later, steps) && later[0] == s && |steps| > 0 && steps[|steps| - 1] == RecordAttempt(id)
          && 0 <= j < |steps| - 1
        ensures !Disturbs(later, steps, j, other, s.requests[id])
      {
        QuietIsUndisturbed(later, steps, j, id, other);
      }
    }
  }

  // ---------------------------------------------------------------- a late clearing in between

  ghost predicate OnlyOwner(s: State, id: RequestId) {
    forall lock :: lock in s.owners ==> s.owners[lock] == id
  }

  lemma {:induction false} LockAll(states: seq<State>, events: seq<Event>, id: RequestId)
    returns (states': seq<State>, events': seq<Event>)
    requires IsRun(states, events) && id in states[|events|].requests && OnlyOwner(states[|events|], id)
    requires states[|events|].requests[id].phase.Acquiring? || states[|events|].requests[id].phase.Unchecked?
    ensures IsRun(states', events') && OnlyOwner(states'[|events'|], id)
    ensures var requests := states[|events|].requests; var r := requests[id];
      states'[|events'|].requests == requests[id := r.(held := |r.indexes|, phase := Unchecked)]
    decreases |states[|events|].requests[id].indexes| - states[|events|].requests[id].held
  {
    var s := states[|events|];
    var r := s.requests[id];
    InvHolds(states, events, |events|);
    assert RequestOk(s, id);
    if r.phase.Unchecked? {
      assert s.requests[id := r.(held := |r.indexes|, phase := Unchecked)] == s.requests;
      states', events' := states, events;
    } else {
      assert WaitsFor(r) in s.owners ==> OwnerOk(s, WaitsFor(r));
      Extended(states, events, Lock(id));
      states', events' := LockAll(states + [Apply(s, Lock(id))], events + [Lock(id)], id);
    }
  }

  lemma NothingHeld(s: State, id: RequestId)
    requires Inv(s) && OnlyOwner(s, id) && id in s.requests && s.requests[id].phase.Finished?
    ensures s.owners == map[]
  {
    assert RequestOk(s, id);
    forall lock ensures lock !in s.owners {
      assert lock in s.owners ==> OwnerOk(s, lock);
    }
  }

  lemma {:induction false} UnlockAll(states: seq<State>, events: seq<Event>, id: RequestId)
    returns (states': seq<State>, events': seq<Event>)
    requires IsRun(states, events) && id in states[|events|].requests && OnlyOwner(states[|events|], id)
    requires states[|events|].requests[id].phase.Releasing? || states[|events|].requests[id].phase.Finished?
    ensures IsRun(states', events') && states'[|events'|].owners == map[]
    ensures var requests := states[|events|].requests; var r := requests[id];
      states'[|events'|].requests == requests[id := r.(held := 0, phase := Finished)]
    decreases states[|events|].requests[id].held
  {
    var s := states[|events|];
    var r := s.requests[id];
    InvHolds(states, events, |events|);
    assert RequestOk(s, id);
    if r.phase.Finished? {
      assert s.requests[id := r.(held := 0, phase := Finished)] == s.requests;
      NothingHeld(s, id);
      states', events' := states, events;
    } else {
      Extended(states, events, Unlock(id));
      states', events' := UnlockAll(states + [Apply(s, Unlock(id))], events + [Unlock(id)], id);
    }
  }

  /** Request `id` arrives when no lock is taken, takes all of its locks and asks the limiter. */
  lemma ArriveAndCheck(states: seq<State>, events: seq<Event>, id: RequestId, keys: seq<Bytes>, indexes: seq<int>,
                       setup: bool)
    returns (states': seq<State>, events': seq<Event>)
    requires IsRun(states, events) && id !in states[|events|].requests && states[|events|].owners == map[]
    requires LockList(indexes, keys)
    ensures IsRun(states', events') && |events'| > 0 && events'[|events'| - 1] == CheckLimit(id)
    ensures OnlyOwner(states'[|events'|], id)
    ensures states'[|events'|].requests
      == states[|events|].requests[id := Request(keys, indexes, setup, |indexes|, Checked, false)]
    ensures id in states'[|events'| - 1].requests && states'[|events'| - 1].requests[id].keys == keys
  {
    var arrive := Arrive(id, keys, indexes, setup);
    Extended(states, events, arrive);
    states', events' := LockAll(states + [Apply(states[|events|], arrive)], events + [arrive], id);
    var s := states'[|events'|];
    Extended(states', events', CheckLimit(id));
    assert Apply(s, CheckLimit(id)).requests
      == states[|events|].requests[id := Request(keys, indexes, setup, |indexes|, Checked, false)];
    states', events' := states' + [Apply(s, CheckLimit(id))], events' + [CheckLimit(id)];
  }

  /** Setup request 0 has been let pass, has verified its password and given its locks back. */
  lemma SetupLeaves(keys: seq<Bytes>, indexes: seq<int>) returns (states: seq<State>, events: seq<Event>)
    requires LockList(indexes, keys)
    ensures IsRun(states, events) && states[|events|].owners == map[]
    ensures states[|events|].requests == map[0 := Request(keys, indexes, true, 0, Finished, true)]
  {
    states, events := [State(map[], map[])], [];
    states, events := ArriveAndCheck(states, events, 0, keys, indexes, true);
    var checked := states[|events|];
    Extended(states, events, Leave(0));
    states, events := UnlockAll(states + [Apply(checked, Leave(0))], events + [Leave(0)], 0);
  }

  lemma ClearThenRecord(states: seq<State>, events: seq<Event>) returns (states': seq<State>)
    requires IsRun(states, events)
    requires Enabled(states[|events|], ClearLate(0)) && Enabled(states[|events|], RecordAttempt(1))
    ensures IsRun(states', events + [ClearLate(0), RecordAttempt(1)]) && states <= states'
  {
    var s := states[|events|];
    var cleared := Apply(s, ClearLate(0));
    Extended(states, events, ClearLate(0));
    Extended(states + [cleared], events + [ClearLate(0)], RecordAttempt(1));
    states' := states + [cleared] + [Apply(cleared, RecordAttempt(1))];
    assert events + [ClearLate(0)] + [RecordAttempt(1)] == events + [ClearLate(0), RecordAttempt(1)];
  }

  /**
   Two requests with the same keys, whatever these are: the setup request 0 has verified its password and given its
   locks back; request 1 finds the limiter willing, request 0 clears the failures, request 1 records one as the first.
   */
  lemma SetupClearsInBetween(keys: seq<Bytes>, indexes: seq<int>)
    returns (states: seq<State>, events: seq<Event>, i: nat)
    requires LockList(indexes, keys) && keys != []
    ensures IsRun(states, events) && |events| == i + 3
    ensures events[i] == CheckLimit(1) && events[i + 1] == ClearLate(0) && events[i + 2] == RecordAttempt(1)
    ensures 1 in states[i].requests && Disturbs(states, events, i + 1, 0, states[i].requests[1])
  {
    states, events := SetupLeaves(keys, indexes);
    states, events := ArriveAndCheck(states, events, 1, keys, indexes, false);
    i := |events| - 1;
    assert states[i + 1].requests[0].keys[0] == states[i].requests[1].keys[0];
    states := ClearThenRecord(states, events);
    events := events + [ClearLate(0), RecordAttempt(1)];
  }
}
