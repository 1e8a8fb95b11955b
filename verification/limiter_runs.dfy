/** What callers see of the limiter over whole runs of calls, on any keys. */
module FailureLimitRuns {
  import opened Wrappers
  import opened FailureLimits

  datatype Call = Ask(key: Key, now: Time) | Fail(key: Key, now: Time) | Clear(key: Key, now: Time)

  /** One call of the bounded limiter; eviction may choose among equally old entries. */
  ghost predicate Next(c: Settings, before: map<Key, Entry>, call: Call, after: map<Key, Entry>) {
    match call
    case Ask(key, now) => after == Put(before, key, AllowEntry(c, Lookup(before, key), now).0)
    case Fail(key, now) =>
      && EvictedTo(c, before - {key}, after - {key}, now)
      && key in after && after[key] == FailEntry(c, Lookup(before, key), now).0
    case Clear(key, _) => after == before - {key}
  }

  function Answer(c: Settings, e: Option<Entry>, call: Call): Verdict {
    match call
    case Ask(_, now) => AllowEntry(c, e, now).1
    case Fail(_, now) => FailEntry(c, e, now).1
    case Clear(_, _) => Verdict(true, 0)
  }

  ghost predicate IsRun(c: Settings, states: seq<map<Key, Entry>>, calls: seq<Call>) {
    && c.Valid() && |states| == |calls| + 1 && states[0] == map[]
    && (forall i :: 0 <= i < |calls| ==> Next(c, states[i], calls[i], states[i + 1]))
    && (forall i, j :: 0 <= i < j < |calls| ==> calls[i].now <= calls[j].now)
  }

  /** Every method of the class is one step of a run. */
  method Perform(limiter: FailureLimiter, call: Call) returns (v: Verdict)
    requires limiter.Valid()
    modifies limiter
    ensures limiter.Valid()
    ensures Next(limiter.settings, old(limiter.entries), call, limiter.entries)
    ensures v == Answer(limiter.settings, Lookup(old(limiter.entries), call.key), call)
  {
    match call
    case Ask(key, now) =>
      var allowed, wait := limiter.Allow(key, now);
      v := Verdict(allowed, wait);
    case Fail(key, now) =>
      var blocked, wait := limiter.RecordFailure(key, now);
      v := Verdict(blocked, wait);
    case Clear(key, _) =>
      limiter.Success(key);
      v := Verdict(true, 0);
  }

  // ---------------------------------------------------------------- the limiter nobody evicts from

  /** What one call makes of one key's own entry. */
  function EntryAfter(c: Settings, e: Option<Entry>, call: Call): Option<Entry> {
    match call
    case Ask(_, now) => AllowEntry(c, e, now).0
    case Fail(_, now) => Some(FailEntry(c, e, now).0)
    case Clear(_, _) => None
  }

  /** One key's entry when there is a limiter of its own for every key. */
  function Reference(c: Settings, calls: seq<Call>, key: Key): Option<Entry> {
    if calls == [] then None
    else
      var e := Reference(c, calls[..|calls| - 1], key);
      var last := calls[|calls| - 1];
      if last.key == key then EntryAfter(c, e, last) else e
  }

  /** An entry that answers every later call as if it were absent. */
  predicate Forgettable(c: Settings, e: Entry, now: Time) {
    e.blockedUntil <= now && e.windowStart + c.window <= now
  }

  lemma ForgettableAnswersAsAbsent(c: Settings, e: Entry, call: Call)
    requires c.Valid() && Forgettable(c, e, call.now)
    ensures Answer(c, Some(e), call) == Answer(c, None, call)
    ensures call.Ask? ==> AllowEntry(c, Some(e), call.now).0 == AllowEntry(c, None, call.now).0
    ensures call.Fail? ==> FailEntry(c, Some(e), call.now).0 == FailEntry(c, None, call.now).0
  {}

  predicate Ordered(e: Entry, now: Time) {
    e.windowStart <= e.lastSeen <= now
  }

  predicate WindowBeforeSeen(entries: map<Key, Entry>, now: Time) {
    forall k :: k in entries ==> Ordered(entries[k], now)
  }

  predicate KeyAgrees(c: Settings, cached: Option<Entry>, reference: Option<Entry>, now: Time) {
    cached == reference || (cached.None? && Forgettable(c, reference.value, now))
  }

  /** The keys that failures were recorded for. */
  function FailedKeys(calls: seq<Call>): set<Key> {
    if calls == [] then {}
    else
      var last := calls[|calls| - 1];
      FailedKeys(calls[..|calls| - 1]) + (if last.Fail? then {last.key} else {})
  }

  lemma {:induction false} FailedKeysGrow(calls: seq<Call>, n: nat)
    requires n <= |calls|
    ensures FailedKeys(calls[..n]) <= FailedKeys(calls)
  {
    if n == |calls| {
      assert calls[..n] == calls;
    } else {
      FailedKeysGrow(calls[..|calls| - 1], n);
      assert calls[..|calls| - 1][..n] == calls[..n];
    }
  }

  function ClockAfter(calls: seq<Call>): Time {
    if calls == [] then 0 else calls[|calls| - 1].now
  }

  lemma EvictionShrinks(c: Settings, before: map<Key, Entry>, after: map<Key, Entry>, now: Time)
    requires c.Valid() && EvictedTo(c, before, after, now)
    ensures Within(after, before) && |after| < c.maxEntries
  {}

  lemma FailTable(c: Settings, before: map<Key, Entry>, key: Key, now: Time, after: map<Key, Entry>)
    requires c.Valid() && Next(c, before, Fail(key, now), after)
    ensures |after| <= c.maxEntries && forall k :: k in after && k != key ==> k in before && after[k] == before[k]
  {
    var others := after - {key};
    EvictionShrinks(c, before - {key}, others, now);
    KeyApart(after, key);
    forall k | k in after && k != key ensures k in before && after[k] == before[k] {
      assert k in others;
    }
  }

  lemma KeyApart(entries: map<Key, Entry>, key: Key)
    requires key in entries
    ensures |entries| == |entries - {key}| + 1
  {
    assert entries.Keys == (entries - {key}).Keys + {key};
    assert |entries.Keys| == |entries| && |(entries - {key}).Keys| == |entries - {key}|;
  }

  lemma TableStep(c: Settings, before: map<Key, Entry>, call: Call, after: map<Key, Entry>)
    requires c.Valid() && Next(c, before, call, after) && |before| <= c.maxEntries
    ensures after.Keys <= before.Keys + (if call.Fail? then {call.key} else {})
    ensures |after| <= c.maxEntries
    ensures Lookup(after, call.key) == EntryAfter(c, Lookup(before, call.key), call)
    ensures forall k :: k in after && k != call.key ==> k in before && after[k] == before[k]
  {
    if call.Fail? {
      FailTable(c, before, call.key, call.now, after);
    } else {
      SubsetSize(after.Keys, before.Keys);
    }
  }

  lemma OrderKept(c: Settings, e: Option<Entry>, call: Call, clock: Time)
    requires e.Some? ==> Ordered(e.value, clock)
    requires clock <= call.now
    ensures EntryAfter(c, e, call).Some? ==> Ordered(EntryAfter(c, e, call).value, call.now)
  {}

  lemma KeysStep(c: Settings, before: map<Key, Entry>, call: Call, after: map<Key, Entry>, calls: seq<Call>)
    requires c.Valid() && Next(c, before, call, after) && |before| <= c.maxEntries && before.Keys <= FailedKeys(calls)
    ensures after.Keys <= FailedKeys(calls + [call]) && |after| <= c.maxEntries
  {
    TableStep(c, before, call, after);
    assert (calls + [call])[..|calls|] == calls;
  }

  lemma SeenStep(c: Settings, before: map<Key, Entry>, call: Call, after: map<Key, Entry>, clock: Time)
    requires c.Valid() && Next(c, before, call, after) && |before| <= c.maxEntries
    requires WindowBeforeSeen(before, clock) && clock <= call.now
    ensures WindowBeforeSeen(after, call.now)
  {
    TableStep(c, before, call, after);
    OrderKept(c, Lookup(before, call.key), call, clock);
  }

  lemma KeysInRun(c: Settings, states: seq<map<Key, Entry>>, calls: seq<Call>, m: nat)
    requires IsRun(c, states, calls) && m < |calls| && |states[m]| <= c.maxEntries
    requires states[m].Keys <= FailedKeys(calls[..m])
    ensures states[m + 1].Keys <= FailedKeys(calls[..m + 1]) && |states[m + 1]| <= c.maxEntries
  {
    assert calls[..m + 1] == calls[..m] + [calls[m]];
    KeysStep(c, states[m], calls[m], states[m + 1], calls[..m]);
  }

  lemma SeenInRun(c: Settings, states: seq<map<Key, Entry>>, calls: seq<Call>, m: nat)
    requires IsRun(c, states, calls) && m < |calls| && |states[m]| <= c.maxEntries
    requires WindowBeforeSeen(states[m], ClockAfter(calls[..m]))
    ensures WindowBeforeSeen(states[m + 1], ClockAfter(calls[..m + 1]))
  {
    ClockStep(c, states, calls, m + 1);
    SeenStep(c, states[m], calls[m], states[m + 1], ClockAfter(calls[..m]));
  }

  ghost predicate TableOk(c: Settings, entries: map<Key, Entry>, calls: seq<Call>) {
    entries.Keys <= FailedKeys(calls) && |entries| <= c.maxEntries && WindowBeforeSeen(entries, ClockAfter(calls))
  }

  lemma TableInRun(c: Settings, states: seq<map<Key, Entry>>, calls: seq<Call>, m: nat)
    requires IsRun(c, states, calls) && m < |calls| && TableOk(c, states[m], calls[..m])
    ensures TableOk(c, states[m + 1], calls[..m + 1])
  {
    KeysInRun(c, states, calls, m);
    SeenInRun(c, states, calls, m);
  }

  /** The entries come from recorded failures only, and there are never more of them than the capacity. */
  lemma {:induction false} EntriesAreFailedKeys(c: Settings, states: seq<map<Key, Entry>>, calls: seq<Call>, n: nat)
    requires IsRun(c, states, calls) && n <= |calls|
    ensures TableOk(c, states[n], calls[..n])
  {
    if n > 0 {
      EntriesAreFailedKeys(c, states, calls, n - 1);
      TableInRun(c, states, calls, n - 1);
    }
  }

  lemma ClockStep(c: Settings, states: seq<map<Key, Entry>>, calls: seq<Call>, n: nat)
    requires IsRun(c, states, calls) && 0 < n <= |calls|
    ensures calls[..n][..n - 1] == calls[..n - 1] && calls[..n][n - 1] == calls[n - 1]
    ensures ClockAfter(calls[..n - 1]) <= calls[n - 1].now == ClockAfter(calls[..n])
    ensures Next(c, states[n - 1], calls[n - 1], states[n])
  {
  }

  lemma SmallTableKeepsLiveEntries(c: Settings, before: map<Key, Entry>, after: map<Key, Entry>, now: Time)
    requires EvictedTo(c, before, after, now) && |WithoutStale(c, before, now)| < c.maxEntries
    ensures after == WithoutStale(c, before, now)
  {
    WithinSameSize(after, WithoutStale(c, before, now));
  }

  /** When a failure is recorded, fewer entries of other keys are still live than the cache can hold. */
  predicate HasRoom(c: Settings, entries: map<Key, Entry>, call: Call) {
    call.Fail? ==> |WithoutStale(c, entries - {call.key}, call.now)| < c.maxEntries
  }

  /** One call, seen from one key, in a table with room for the live entries. */
  lemma StepAgrees(c: Settings, before: map<Key, Entry>, call: Call, after: map<Key, Entry>, k: Key,
                   calls: seq<Call>, clock: Time)
    requires c.Valid() && Next(c, before, call, after) && calls != [] && calls[|calls| - 1] == call
    requires HasRoom(c, before, call)
    requires WindowBeforeSeen(before, clock) && clock <= call.now
    requires KeyAgrees(c, Lookup(before, k), Reference(c, calls[..|calls| - 1], k), clock)
    ensures KeyAgrees(c, Lookup(after, k), Reference(c, calls, k), call.now)
    ensures k == call.key ==>
      Answer(c, Lookup(before, k), call) == Answer(c, Reference(c, calls[..|calls| - 1], k), call)
  {
    var reference := Reference(c, calls[..|calls| - 1], k);
    if k == call.key {
      if Lookup(before, k) != reference {
        ForgettableAnswersAsAbsent(c, reference.value, call);
      }
    } else if call.Fail? {
      SmallTableKeepsLiveEntries(c, before - {call.key}, after - {call.key}, call.now);
      assert k in after <==> k in after - {call.key};
    }
  }

  ghost predicate TableAgrees(c: Settings, entries: map<Key, Entry>, calls: seq<Call>) {
    forall k :: KeyAgrees(c, Lookup(entries, k), Reference(c, calls, k), ClockAfter(calls))
  }

  lemma CacheStep(c: Settings, states: seq<map<Key, Entry>>, calls: seq<Call>, m: nat)
    requires IsRun(c, states, calls) && m < |calls| && HasRoom(c, states[m], calls[m])
    requires TableAgrees(c, states[m], calls[..m])
    ensures TableAgrees(c, states[m + 1], calls[..m + 1]) && AnswersAlike(c, states, calls, m)
  {
    var clock, all := ClockAfter(calls[..m]), calls[..m + 1];
    ClockStep(c, states, calls, m + 1);
    EntriesAreFailedKeys(c, states, calls, m);
    forall k
      ensures KeyAgrees(c, Lookup(states[m + 1], k), Reference(c, all, k), calls[m].now)
      ensures k == calls[m].key ==>
        Answer(c, Lookup(states[m], k), calls[m]) == Answer(c, Reference(c, calls[..m], k), calls[m])
    {
      assert KeyAgrees(c, Lookup(states[m], k), Reference(c, calls[..m], k), clock);
      StepAgrees(c, states[m], calls[m], states[m + 1], k, all, clock);
    }
  }

  /**
   On any run in which every recorded failure finds room among the live entries, the bounded limiter answers every
   call as the limiter that never evicts.
   */
  lemma {:induction false} CacheAnswersAsReference(c: Settings, states: seq<map<Key, Entry>>, calls: seq<Call>, n: nat)
    requires IsRun(c, states, calls) && n <= |calls|
    requires forall i :: 0 <= i < n ==> HasRoom(c, states[i], calls[i])
    ensures TableAgrees(c, states[n], calls[..n])
    ensures forall i :: 0 <= i < n ==> AnswersAlike(c, states, calls, i)
  {
    if n > 0 {
      CacheAnswersAsReference(c, states, calls, n - 1);
      CacheStep(c, states, calls, n - 1);
    }
  }

  /** Call `i` is answered as by the limiter that never evicts. */
  predicate AnswersAlike(c: Settings, states: seq<map<Key, Entry>>, calls: seq<Call>, i: nat)
    requires i < |calls| && i < |states|
  {
    Answer(c, Lookup(states[i], calls[i].key), calls[i]) == Answer(c, Reference(c, calls[..i], calls[i].key), calls[i])
  }

  lemma FewKeysLeaveRoom(c: Settings, states: seq<map<Key, Entry>>, calls: seq<Call>, m: nat)
    requires IsRun(c, states, calls) && m < |calls| && |FailedKeys(calls)| <= c.maxEntries
    ensures HasRoom(c, states[m], calls[m])
  {
    if calls[m].Fail? {
      var key := calls[m].key;
      var others := states[m] - {key};
      EntriesAreFailedKeys(c, states, calls, m);
      FailedKeysGrow(calls, m);
      FailedKeysGrow(calls, m + 1);
      assert calls[..m + 1][..m] == calls[..m];
      assert key in FailedKeys(calls[..m + 1]);
      SubsetSize(others.Keys, FailedKeys(calls) - {key});
      SubsetSize(WithoutStale(c, others, calls[m].now).Keys, others.Keys);
    }
  }

  // ---------------------------------------------------------------- exactly how many keys

  /** Every run that records failures for these keys only is answered as by the limiter that never evicts. */
  ghost predicate ExactFor(c: Settings, keys: set<Key>) {
    forall states, calls :: IsRun(c, states, calls) && FailedKeys(calls) <= keys ==>
      forall i :: 0 <= i < |calls| ==> AnswersAlike(c, states, calls, i)
  }

  /**
   The bounded limiter is indistinguishable from the unbounded one on a set of keys if and only if it has room for
   all of them.
   */
  lemma CapacityIsExact(c: Settings, keys: set<Key>)
    requires c.Valid()
    ensures ExactFor(c, keys) <==> |keys| <= c.maxEntries
  {
    if |keys| <= c.maxEntries {
      forall states, calls | IsRun(c, states, calls) && FailedKeys(calls) <= keys
        ensures forall i :: 0 <= i < |calls| ==> AnswersAlike(c, states, calls, i)
      {
        SubsetSize(FailedKeys(calls), keys);
        forall i | 0 <= i < |calls| ensures HasRoom(c, states[i], calls[i]) {
          FewKeysLeaveRoom(c, states, calls, i);
        }
        CacheAnswersAsReference(c, states, calls, |calls|);
      }
    } else {
      var states, calls, key := OneKeyTooManyForgetsABlock(c, keys, 0);
      var all := calls + [Ask(key, 0)];
      assert all[..|calls|] == calls;
      assert !AnswersAlike(c, states, all, |calls|);
    }
  }

  lemma CallsAndOne(c: Settings, calls: seq<Call>, call: Call, k: Key)
    ensures FailedKeys(calls + [call]) == FailedKeys(calls) + (if call.Fail? then {call.key} else {})
    ensures Reference(c, calls + [call], k)
            == if call.key == k then EntryAfter(c, Reference(c, calls, k), call) else Reference(c, calls, k)
  {
  }

  /** A run with all calls at one reading of the clock that ends with `entries`. */
  ghost predicate EndsWith(c: Settings, states: seq<map<Key, Entry>>, calls: seq<Call>, t: Time,
                           entries: map<Key, Entry>) {
    && c.Valid() && Steps(c, states, calls) && states[0] == map[] && states[|calls|] == entries
    && forall i :: 0 <= i < |calls| ==> calls[i].now == t
  }

  lemma EndsWithIsRun(c: Settings, states: seq<map<Key, Entry>>, calls: seq<Call>, t: Time, entries: map<Key, Entry>)
    requires EndsWith(c, states, calls, t, entries)
    ensures IsRun(c, states, calls)
  {
    forall i | 0 <= i < |calls| ensures Next(c, states[i], calls[i], states[i + 1]) {
      StepAt(c, states, calls, i);
    }
  }

  ghost predicate Steps(c: Settings, states: seq<map<Key, Entry>>, calls: seq<Call>) {
    var n := |calls|;
    && |states| == n + 1
    && (n > 0 ==> Steps(c, states[..n], calls[..n - 1]) && Next(c, states[n - 1], calls[n - 1], states[n]))
  }

  lemma StepsExtended(c: Settings, states: seq<map<Key, Entry>>, calls: seq<Call>, call: Call, after: map<Key, Entry>)
    requires Steps(c, states, calls) && Next(c, states[|calls|], call, after)
    ensures Steps(c, states + [after], calls + [call])
  {
    assert (states + [after])[..|calls| + 1] == states && (calls + [call])[..|calls|] == calls;
  }

  lemma {:induction false} StepAt(c: Settings, states: seq<map<Key, Entry>>, calls: seq<Call>, i: nat)
    requires Steps(c, states, calls) && i < |calls|
    ensures Next(c, states[i], calls[i], states[i + 1])
  {
    var n := |calls|;
    if i < n - 1 {
      StepAt(c, states[..n], calls[..n - 1], i);
    }
  }

  lemma Extended(c: Settings, states: seq<map<Key, Entry>>, calls: seq<Call>, t: Time, before: map<Key, Entry>,
                 call: Call, after: map<Key, Entry>)
    requires EndsWith(c, states, calls, t, before) && call.now == t && Next(c, before, call, after)
    ensures EndsWith(c, states + [after], calls + [call], t, after)
  {
    StepsExtended(c, states, calls, call, after);
    assert forall i :: 0 <= i < |calls| + 1 ==> (calls + [call])[i].now == t;
  }

  function Repeated(c: Settings, n: nat, t: Time): Entry {
    Entry(n, t, if n >= c.maxFailures then t + c.blockFor else 0, t)
  }

  lemma FailsAgain(c: Settings, key: Key, t: Time, n: nat)
    requires c.Valid()
    ensures var before := if n == 0 then map[] else map[key := Repeated(c, n, t)];
      Next(c, before, Fail(key, t), map[key := Repeated(c, n + 1, t)])
  {
  }

  ghost predicate FailedOnly(c: Settings, states: seq<map<Key, Entry>>, calls: seq<Call>, key: Key, t: Time, n: nat) {
    && EndsWith(c, states, calls, t, if n == 0 then map[] else map[key := Repeated(c, n, t)])
    && FailedKeys(calls) == (if n == 0 then {} else {key})
    && Reference(c, calls, key) == if n == 0 then None else Some(Repeated(c, n, t))
  }

  lemma FailNever(c: Settings, key: Key, t: Time) returns (states: seq<map<Key, Entry>>, calls: seq<Call>)
    requires c.Valid()
    ensures FailedOnly(c, states, calls, key, t, 0)
  {
    states, calls := [map[]], [];
  }

  lemma FailOnce(c: Settings, states: seq<map<Key, Entry>>, calls: seq<Call>, key: Key, t: Time, n: nat)
    returns (states': seq<map<Key, Entry>>, calls': seq<Call>)
    requires c.Valid() && FailedOnly(c, states, calls, key, t, n)
    ensures FailedOnly(c, states', calls', key, t, n + 1)
  {
    var before := if n == 0 then map[] else map[key := Repeated(c, n, t)];
    FailsAgain(c, key, t, n);
    CallsAndOne(c, calls, Fail(key, t), key);
    Extended(c, states, calls, t, before, Fail(key, t), map[key := Repeated(c, n + 1, t)]);
    states', calls' := states + [map[key := Repeated(c, n + 1, t)]], calls + [Fail(key, t)];
  }

  /** Only one key's failures, `n` of them at once. */
  lemma {:induction false} FailRepeatedly(c: Settings, key: Key, t: Time, n: nat)
    returns (states: seq<map<Key, Entry>>, calls: seq<Call>)
    requires c.Valid()
    ensures FailedOnly(c, states, calls, key, t, n)
  {
    if n == 0 {
      states, calls := FailNever(c, key, t);
    } else {
      states, calls := FailRepeatedly(c, key, t, n - 1);
      states, calls := FailOnce(c, states, calls, key, t, n - 1);
    }
  }

  /** `key` is blocked, `others` have an entry as well, and all of them were last seen at `t`. */
  ghost predicate Crowd(c: Settings, entries: map<Key, Entry>, key: Key, others: set<Key>, t: Time) {
    && entries.Keys == {key} + others
    && (forall k :: k in entries ==> entries[k].lastSeen == t)
    && entries[key] == Repeated(c, c.maxFailures, t)
  }

  lemma CrowdIsLive(c: Settings, entries: map<Key, Entry>, key: Key, others: set<Key>, t: Time)
    requires c.Valid() && Crowd(c, entries, key, others, t) && key !in others
    ensures WithoutStale(c, entries, t) == entries && |entries| == |others| + 1
  {
  }

  lemma CrowdGrows(c: Settings, before: map<Key, Entry>, key: Key, others: set<Key>, next: Key, t: Time)
    requires Crowd(c, before, key, others, t) && next != key && c.Valid()
    ensures Crowd(c, before[next := Repeated(c, 1, t)], key, others + {next}, t)
  {
    assert before[next := Repeated(c, 1, t)].Keys == {key} + (others + {next});
  }

  lemma OneMoreFits(c: Settings, before: map<Key, Entry>, key: Key, others: set<Key>, next: Key, t: Time)
    requires c.Valid() && Crowd(c, before, key, others, t) && key !in others && next !in others && next != key
    requires |others| + 1 < c.maxEntries
    ensures Next(c, before, Fail(next, t), before[next := Repeated(c, 1, t)])
  {
    var after := before[next := Repeated(c, 1, t)];
    CrowdIsLive(c, before, key, others, t);
    assert before - {next} == before && after - {next} == before;
  }

  ghost predicate Filled(c: Settings, states: seq<map<Key, Entry>>, calls: seq<Call>, entries: map<Key, Entry>,
                         key: Key, others: set<Key>, t: Time) {
    && EndsWith(c, states, calls, t, entries) && Crowd(c, entries, key, others, t)
    && FailedKeys(calls) <= {key} + others && Reference(c, calls, key) == Some(Repeated(c, c.maxFailures, t))
  }

  lemma FillOne(c: Settings, key: Key, others: set<Key>, next: Key, t: Time, states: seq<map<Key, Entry>>,
                calls: seq<Call>, entries: map<Key, Entry>)
    requires c.Valid() && key !in others && next in others && |others| < c.maxEntries
    requires Filled(c, states, calls, entries, key, others - {next}, t)
    ensures var after := entries[next := Repeated(c, 1, t)];
      Filled(c, states + [after], calls + [Fail(next, t)], after, key, others, t)
  {
    var after := entries[next := Repeated(c, 1, t)];
    OneMoreFits(c, entries, key, others - {next}, next, t);
    CrowdGrows(c, entries, key, others - {next}, next, t);
    assert others - {next} + {next} == others;
    CallsAndOne(c, calls, Fail(next, t), key);
    Extended(c, states, calls, t, entries, Fail(next, t), after);
  }

  lemma FillNone(c: Settings, key: Key, t: Time)
    returns (states: seq<map<Key, Entry>>, calls: seq<Call>, entries: map<Key, Entry>)
    requires c.Valid()
    ensures Filled(c, states, calls, entries, key, {}, t)
  {
    states, calls := FailRepeatedly(c, key, t, c.maxFailures);
    entries := map[key := Repeated(c, c.maxFailures, t)];
  }

  lemma {:induction false} Fill(c: Settings, key: Key, others: set<Key>, t: Time)
    returns (states: seq<map<Key, Entry>>, calls: seq<Call>, entries: map<Key, Entry>)
    requires c.Valid() && key !in others && |others| < c.maxEntries
    ensures Filled(c, states, calls, entries, key, others, t)
    decreases others
  {
    if others == {} {
      states, calls, entries := FillNone(c, key, t);
    } else {
      var next :| next in others;
      states, calls, entries := Fill(c, key, others - {next}, t);
      FillOne(c, key, others, next, t, states, calls, entries);
      entries := entries[next := Repeated(c, 1, t)];
      states, calls := states + [entries], calls + [Fail(next, t)];
    }
  }

  /** In a full cache all entries tie for the oldest, so any may make room. */
  lemma OneMoreEvicts(c: Settings, before: map<Key, Entry>, key: Key, others: set<Key>, late: Key, t: Time)
    requires c.Valid() && Crowd(c, before, key, others, t) && key !in others && late !in others && late != key
    requires |others| + 1 == c.maxEntries
    ensures Next(c, before, Fail(late, t), (before - {key})[late := Repeated(c, 1, t)])
  {
    var kept := before - {key};
    var after := kept[late := Repeated(c, 1, t)];
    CrowdIsLive(c, before, key, others, t);
    assert kept.Keys == others;
    assert before - {late} == before && after - {late} == kept;
  }

  /** The last key evicts the block. */
  lemma LateKeyEvicts(c: Settings, states: seq<map<Key, Entry>>, calls: seq<Call>, entries: map<Key, Entry>, key: Key,
                      rest: set<Key>, late: Key, t: Time)
    requires c.Valid() && key !in rest && late !in rest && late != key && |rest| + 1 == c.maxEntries
    requires Filled(c, states, calls, entries, key, rest, t)
    ensures var after := (entries - {key})[late := Repeated(c, 1, t)];
      && EndsWith(c, states + [after], calls + [Fail(late, t)], t, after) && key !in after
      && FailedKeys(calls + [Fail(late, t)]) <= {key} + rest + {late}
      && Reference(c, calls + [Fail(late, t)], key) == Some(Repeated(c, c.maxFailures, t))
  {
    OneMoreEvicts(c, entries, key, rest, late, t);
    CallsAndOne(c, calls, Fail(late, t), key);
    Extended(c, states, calls, t, entries, Fail(late, t), (entries - {key})[late := Repeated(c, 1, t)]);
  }

  lemma AskingForAnAbsentKey(c: Settings, states: seq<map<Key, Entry>>, calls: seq<Call>, entries: map<Key, Entry>,
                             key: Key, t: Time)
    requires EndsWith(c, states, calls, t, entries) && key !in entries
    ensures EndsWith(c, states + [entries], calls + [Ask(key, t)], t, entries)
    ensures FailedKeys(calls + [Ask(key, t)]) == FailedKeys(calls)
  {
    assert Put(entries, key, None) == entries;
    CallsAndOne(c, calls, Ask(key, t), key);
    Extended(c, states, calls, t, entries, Ask(key, t), entries);
  }

  lemma LateThenAsk(c: Settings, states: seq<map<Key, Entry>>, calls: seq<Call>, entries: map<Key, Entry>, key: Key,
                    rest: set<Key>, late: Key, t: Time) returns (states': seq<map<Key, Entry>>, calls': seq<Call>)
    requires c.Valid() && key !in rest && late !in rest && late != key && |rest| + 1 == c.maxEntries
    requires Filled(c, states, calls, entries, key, rest, t)
    ensures IsRun(c, states', calls' + [Ask(key, t)]) && FailedKeys(calls' + [Ask(key, t)]) <= {key} + rest + {late}
    ensures key !in states'[|calls'|] && Reference(c, calls', key) == Some(Repeated(c, c.maxFailures, t))
  {
    var after := (entries - {key})[late := Repeated(c, 1, t)];
    LateKeyEvicts(c, states, calls, entries, key, rest, late, t);
    AskingForAnAbsentKey(c, states + [after], calls + [Fail(late, t)], after, key, t);
    states', calls' := states + [after] + [after], calls + [Fail(late, t)];
    EndsWithIsRun(c, states', calls' + [Ask(key, t)], t, after);
  }

  /**
   With one key more than there is room for, at one reading of the clock: a key is blocked, the others fail once each,
   and with the last of them the block, tied for the oldest entry, is evicted. Asked for then, the key is allowed.
   */
  lemma OneKeyTooManyForgetsABlock(c: Settings, keys: set<Key>, t: Time)
    returns (states: seq<map<Key, Entry>>, calls: seq<Call>, key: Key)
    requires c.Valid() && |keys| > c.maxEntries
    ensures IsRun(c, states, calls + [Ask(key, t)]) && FailedKeys(calls + [Ask(key, t)]) <= keys
    ensures Answer(c, Lookup(states[|calls|], key), Ask(key, t)) == Verdict(true, 0)
    ensures Answer(c, Reference(c, calls, key), Ask(key, t)) == Verdict(false, c.blockFor)
  {
    key :| key in keys;
    var others := SomeOf(keys - {key}, c.maxEntries);
    var late :| late in others;
    var rest := others - {late};
    var entries;
    states, calls, entries := Fill(c, key, rest, t);
    states, calls := LateThenAsk(c, states, calls, entries, key, rest, late, t);
  }

  lemma {:induction false} SomeOf(keys: set<Key>, n: nat) returns (some: set<Key>)
    requires n <= |keys|
    ensures some <= keys && |some| == n
  {
    if n == 0 {
      some := {};
    } else {
      var key :| key in keys;
      some := SomeOf(keys - {key}, n - 1);
      some := some + {key};
    }
  }

  // ---------------------------------------------------------------- what a block proves

  function Failures(calls: seq<Call>, key: Key, from: nat, to: nat): nat
    requires to <= |calls|
  {
    if to <= from then 0
    else Failures(calls, key, from, to - 1) + (if calls[to - 1].Fail? && calls[to - 1].key == key then 1 else 0)
  }

  predicate FailureAt(calls: seq<Call>, key: Key, i: nat) {
    i < |calls| && calls[i].Fail? && calls[i].key == key
  }

  predicate NoClear(calls: seq<Call>, key: Key, from: nat, to: nat)
    requires to <= |calls|
  {
    forall k :: from <= k < to ==> !(calls[k].Clear? && calls[k].key == key)
  }

  /** From call `s` to call `f`: `maxFailures` failures of the key inside one window. */
  predicate Burst(c: Settings, calls: seq<Call>, key: Key, s: nat, f: nat) {
    && s <= f && FailureAt(calls, key, s) && FailureAt(calls, key, f)
    && calls[f].now < calls[s].now + c.window
    && Failures(calls, key, s, f + 1) >= c.maxFailures
  }

  predicate WindowExplained(calls: seq<Call>, n: nat, key: Key, e: Entry, s: nat)
    requires n <= |calls|
  {
    && s < n && FailureAt(calls, key, s) && calls[s].now == e.windowStart
    && Failures(calls, key, s, n) == e.failures && NoClear(calls, key, s, n)
  }

  predicate BlockExplained(c: Settings, calls: seq<Call>, n: nat, key: Key, until: Time, s: nat, f: nat)
    requires n <= |calls|
  {
    f < n && Burst(c, calls, key, s, f) && NoClear(calls, key, s, n) && until == calls[f].now + c.blockFor
  }

  ghost predicate Explained(c: Settings, calls: seq<Call>, n: nat, key: Key, e: Entry)
    requires n <= |calls|
  {
    && (exists s :: WindowExplained(calls, n, key, e, s))
    && (e.blockedUntil != 0 ==> exists s, f :: BlockExplained(c, calls, n, key, e.blockedUntil, s, f))
  }

  lemma {:induction false} EntriesAreExplained(c: Settings, states: seq<map<Key, Entry>>, calls: seq<Call>, n: nat,
                                               key: Key)
    requires IsRun(c, states, calls) && n <= |calls|
    ensures key in states[n] ==> Explained(c, calls, n, key, states[n][key])
  {
    if n > 0 && key in states[n] {
      var m := n - 1;
      EntriesAreExplained(c, states, calls, m, key);
      assert Next(c, states[m], calls[m], states[n]);
      if calls[m].key == key && calls[m].Fail? {
        FailureIsExplained(c, calls, m, key, Lookup(states[m], key));
      } else {
        var before := states[m];
        if calls[m].Fail? {
          assert key in states[n] - {calls[m].key} && states[n][key] == (states[n] - {calls[m].key})[key];
          assert key in before - {calls[m].key};
        }
        assert key in before && states[n][key] == before[key].(lastSeen := states[n][key].lastSeen);
        CarryExplanation(c, calls, m, key, before[key], states[n][key]);
      }
    }
  }

  lemma CarryExplanation(c: Settings, calls: seq<Call>, m: nat, key: Key, e: Entry, e': Entry)
    requires m < |calls| && Explained(c, calls, m, key, e) && e' == e.(lastSeen := e'.lastSeen)
    requires calls[m].key == key ==> calls[m].Ask?
    ensures Explained(c, calls, m + 1, key, e')
  {
    var s :| WindowExplained(calls, m, key, e, s);
    assert WindowExplained(calls, m + 1, key, e', s);
    if e.blockedUntil != 0 {
      var s', f :| BlockExplained(c, calls, m, key, e.blockedUntil, s', f);
      assert BlockExplained(c, calls, m + 1, key, e'.blockedUntil, s', f);
    }
  }

  lemma FailureIsExplained(c: Settings, calls: seq<Call>, m: nat, key: Key, e: Option<Entry>)
    requires c.Valid() && m < |calls| && FailureAt(calls, key, m)
    requires e.Some? ==> Explained(c, calls, m, key, e.value)
    ensures Explained(c, calls, m + 1, key, FailEntry(c, e, calls[m].now).0)
  {
    var now := calls[m].now;
    var entry := FailEntry(c, e, now).0;
    var continues := e.Some? && now < e.value.windowStart + c.window;
    var s := m;
    if continues {
      s :| WindowExplained(calls, m, key, e.value, s);
    }
    assert WindowExplained(calls, m + 1, key, entry, s);
    if entry.failures >= c.maxFailures {
      assert BlockExplained(c, calls, m + 1, key, entry.blockedUntil, s, m);
    } else if entry.blockedUntil != 0 {
      var s', f :| BlockExplained(c, calls, m, key, e.value.blockedUntil, s', f);
      assert BlockExplained(c, calls, m + 1, key, entry.blockedUntil, s', f);
    }
  }

  /**
   Whatever was evicted on the way, a key is found blocked only if `maxFailures` of its failures, with no success
   among or after them, fell inside one window that ended less than `blockFor` ago; the wait is what remains.
   */
  lemma BlockedOnlyAfterBurst(c: Settings, states: seq<map<Key, Entry>>, calls: seq<Call>, n: nat)
    returns (s: nat, f: nat)
    requires IsRun(c, states, calls) && n < |calls| && calls[n].Ask?
    requires !Answer(c, Lookup(states[n], calls[n].key), calls[n]).flag
    ensures f < n && Burst(c, calls, calls[n].key, s, f) && NoClear(calls, calls[n].key, s, n)
    ensures calls[n].now < calls[f].now + c.blockFor
    ensures Answer(c, Lookup(states[n], calls[n].key), calls[n]).wait == calls[f].now + c.blockFor - calls[n].now
  {
    var key := calls[n].key;
    EntriesAreExplained(c, states, calls, n, key);
    s, f :| BlockExplained(c, calls, n, key, states[n][key].blockedUntil, s, f);
  }

  // ---------------------------------------------------------------- the threshold

  function FailTimes(c: Settings, e: Option<Entry>, times: seq<Time>): Option<Entry> {
    if times == [] then e
    else Some(FailEntry(c, FailTimes(c, e, times[..|times| - 1]), times[|times| - 1]).0)
  }

  /**
   Starting from no entry, failures inside one window are let through up to the one before `maxFailures`;
   that one and every later one block for the full time.
   */
  lemma {:induction false} BlocksAtTheThreshold(c: Settings, times: seq<Time>)
    requires c.Valid() && times != []
    requires forall i, j :: 0 <= i <= j < |times| ==> times[i] <= times[j] < times[0] + c.window
    ensures var n := |times|; var last := times[n - 1];
      && FailTimes(c, None, times)
         == Some(Entry(n, times[0], if n >= c.maxFailures then last + c.blockFor else 0, last))
      && FailEntry(c, FailTimes(c, None, times[..n - 1]), last).1 ==
         (if n >= c.maxFailures then Verdict(true, c.blockFor) else Verdict(false, 0))
  {
    var n := |times|;
    if n > 1 {
      BlocksAtTheThreshold(c, times[..n - 1]);
      assert times[..n - 1][0] == times[0];
    }
  }

  /**
   A clearing that slips in before the failure that would block makes that failure count as the first: it does not
   block, although without the clearing it would.
   */
  lemma ClearingUndoesTheThreshold(c: Settings, times: seq<Time>)
    requires c.Valid() && c.maxFailures > 1 && |times| == c.maxFailures
    requires forall i, j :: 0 <= i <= j < |times| ==> times[i] <= times[j] < times[0] + c.window
    ensures var n := |times|; var before := FailTimes(c, None, times[..n - 1]);
      && FailEntry(c, before, times[n - 1]).1 == Verdict(true, c.blockFor)
      && EntryAfter(c, before, Clear("", times[n - 1])) == None
      && FailEntry(c, None, times[n - 1]) == (Entry(1, times[n - 1], 0, times[n - 1]), Verdict(false, 0))
  {
    BlocksAtTheThreshold(c, times);
  }

  // ---------------------------------------------------------------- several keys at once

  function BlockEnd(entries: map<Key, Entry>, key: Key): Time {
    if key in entries then entries[key].blockedUntil else 0
  }

  predicate AllAllowedAt(entries: map<Key, Entry>, keys: seq<Key>, t: Time) {
    forall i :: 0 <= i < |keys| ==> BlockEnd(entries, keys[i]) <= t
  }

  /** Asking changes no block that is still running. */
  lemma AskKeepsBlocks(c: Settings, entries: map<Key, Entry>, key: Key, now: Time, k: Key)
    ensures var after := Put(entries, key, AllowEntry(c, Lookup(entries, key), now).0);
      BlockEnd(after, k) == BlockEnd(entries, k) || (BlockEnd(after, k) <= now && BlockEnd(entries, k) <= now)
  {}

  /**
   Asks for every key, without stopping at the first that is blocked. The wait is exact: all keys are
   allowed from its end on and not a moment before.
   */
  method AllowLoginAttempt(limiter: FailureLimiter, keys: seq<Key>, now: Time) returns (allowed: bool, wait: nat)
    requires limiter.Valid()
    modifies limiter
    ensures limiter.Valid()
    ensures allowed <==> AllAllowedAt(old(limiter.entries), keys, now)
    ensures allowed <==> wait == 0
    ensures forall t :: now <= t ==> (AllAllowedAt(old(limiter.entries), keys, t) <==> now + wait <= t)
  {
    wait, allowed := 0, true;
    ghost var entries := limiter.entries;
    for i := 0 to |keys|
      invariant limiter.Valid()
      invariant forall k :: BlockEnd(limiter.entries, k) == BlockEnd(entries, k)
                         || (BlockEnd(limiter.entries, k) <= now && BlockEnd(entries, k) <= now)
      invariant allowed <==> wait == 0
      invariant forall k :: 0 <= k < i ==> BlockEnd(entries, keys[k]) <= now + wait
      invariant wait > 0 ==> exists k :: 0 <= k < i && BlockEnd(entries, keys[k]) == now + wait
    {
      var key := keys[i];
      ghost var before := limiter.entries;
      var keyAllowed, retryAfter := limiter.Allow(key, now);
      forall k ensures BlockEnd(limiter.entries, k) == BlockEnd(before, k)
                    || (BlockEnd(limiter.entries, k) <= now && BlockEnd(before, k) <= now) {
        AskKeepsBlocks(limiter.settings, before, key, now, k);
      }
      if !keyAllowed {
        allowed := false;
        if retryAfter > wait {
          wait := retryAfter;
        }
      }
    }
  }

  const SECOND := 1_000_000_000

  /** The Retry-After header: whole seconds, rounded up, at least one. */
  function RetryAfterSeconds(wait: nat): nat {
    var seconds := (wait + SECOND - 1) / SECOND;
    if seconds < 1 then 1 else seconds
  }

  /** The header names the least whole number of seconds, at least one, after which every key is allowed. */
  lemma RetryAfterIsLeast(entries: map<Key, Entry>, keys: seq<Key>, now: Time, wait: nat)
    requires forall t :: now <= t ==> (AllAllowedAt(entries, keys, t) <==> now + wait <= t)
    ensures RetryAfterSeconds(wait) >= 1 && AllAllowedAt(entries, keys, now + RetryAfterSeconds(wait) * SECOND)
    ensures forall s :: 1 <= s < RetryAfterSeconds(wait) ==> !AllAllowedAt(entries, keys, now + s * SECOND)
  {
  }
}
