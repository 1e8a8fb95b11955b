/** When the limiter blocks, told from the calls alone: failures fall into windows, each opened by one of them. */
module FailureLimitLaws {
  import opened Wrappers
  import opened FailureLimits
  import opened FailureLimitRuns

  // ---------------------------------------------------------------- windows and blocks

  /** A failure opens a window unless it falls into one that an earlier failure opened, with no clearing in between. */
  ghost predicate Opens(c: Settings, calls: seq<Call>, key: Key, i: nat)
    requires i <= |calls|
    decreases i
  {
    && FailureAt(calls, key, i)
    && forall s: nat :: s < i && Opens(c, calls, key, s) && NoClear(calls, key, s, i) ==>
         calls[s].now + c.window <= calls[i].now
  }

  /** The failure in call `f` falls into the window opened in call `s`, as its `maxFailures`-th or later. */
  ghost predicate Blocks(c: Settings, calls: seq<Call>, key: Key, s: nat, f: nat)
    requires s <= |calls| && f <= |calls|
  {
    && s <= f && Opens(c, calls, key, s) && FailureAt(calls, key, f) && NoClear(calls, key, s, f)
    && calls[f].now < calls[s].now + c.window
    && Failures(calls, key, s, f + 1) >= c.maxFailures
  }

  /** The block that the failure in call `f` began has not been cleared before call `n` and still runs at `t`. */
  ghost predicate BlockRuns(c: Settings, calls: seq<Call>, key: Key, n: nat, t: Time, s: nat, f: nat)
    requires n <= |calls|
  {
    s <= f < n && Blocks(c, calls, key, s, f) && NoClear(calls, key, f, n) && t < calls[f].now + c.blockFor
  }

  ghost predicate BlockedAt(c: Settings, calls: seq<Call>, key: Key, n: nat, t: Time)
    requires n <= |calls|
  {
    exists s: nat, f: nat :: BlockRuns(c, calls, key, n, t, s, f)
  }

  predicate Timely(calls: seq<Call>) {
    forall i, j :: 0 <= i < j < |calls| ==> calls[i].now <= calls[j].now
  }

  function EndOf(e: Option<Entry>): Time {
    if e.Some? then e.value.blockedUntil else 0
  }

  // ---------------------------------------------------------------- the entry and the windows

  /** The window opened in call `s` is the last one, and the entry counts its failures. */
  ghost predicate Counts(c: Settings, calls: seq<Call>, key: Key, n: nat, e: Entry, s: nat)
    requires n <= |calls|
  {
    && s < n && Opens(c, calls, key, s) && NoClear(calls, key, s, n)
    && e.windowStart == calls[s].now && e.failures == Failures(calls, key, s, n)
    && forall i :: s < i < n ==> !Opens(c, calls, key, i)
  }

  ghost predicate NoneRuns(c: Settings, calls: seq<Call>, key: Key, n: nat, t: Time)
    requires n <= |calls|
  {
    forall s: nat :: s < n && Opens(c, calls, key, s) && NoClear(calls, key, s, n) ==> calls[s].now + c.window <= t
  }

  ghost predicate WindowIs(c: Settings, calls: seq<Call>, key: Key, n: nat, e: Option<Entry>, clock: Time)
    requires n <= |calls|
  {
    if e.Some? then exists s: nat :: Counts(c, calls, key, n, e.value, s) else NoneRuns(c, calls, key, n, clock)
  }

  ghost predicate BlockIs(c: Settings, calls: seq<Call>, key: Key, n: nat, e: Option<Entry>, clock: Time)
    requires n <= |calls|
  {
    forall t :: clock <= t ==> (t < EndOf(e) <==> BlockedAt(c, calls, key, n, t))
  }

  /** A window that does not count any more is over. */
  lemma OthersAreOver(c: Settings, calls: seq<Call>, key: Key, n: nat, e: Entry, s: nat, t: Time)
    requires n <= |calls| && Timely(calls) && Counts(c, calls, key, n, e, s) && calls[n - 1].now <= t
    ensures NoneRuns(c, calls, key, n, t) <==> calls[s].now + c.window <= t
    ensures forall x: nat :: x < n && x != s && Opens(c, calls, key, x) && NoClear(calls, key, x, n) ==>
      calls[x].now + c.window <= calls[s].now
  {
    forall x: nat | x < n && x != s && Opens(c, calls, key, x) && NoClear(calls, key, x, n)
      ensures calls[x].now + c.window <= calls[s].now
    {
      assert NoClear(calls, key, x, s);
    }
  }

  lemma OpensExactly(c: Settings, calls: seq<Call>, key: Key, n: nat)
    requires n < |calls| && FailureAt(calls, key, n)
    ensures Opens(c, calls, key, n) <==> NoneRuns(c, calls, key, n, calls[n].now)
  {
  }

  // ---------------------------------------------------------------- one step

  predicate Idle(calls: seq<Call>, key: Key, n: nat)
    requires n < |calls|
  {
    calls[n].key != key || calls[n].Ask?
  }

  lemma IdleKeeps(c: Settings, calls: seq<Call>, key: Key, n: nat)
    requires n < |calls| && Idle(calls, key, n)
    ensures forall s: nat :: s <= n ==> (NoClear(calls, key, s, n + 1) <==> NoClear(calls, key, s, n))
    ensures forall s: nat :: s <= n ==> Failures(calls, key, s, n + 1) == Failures(calls, key, s, n)
    ensures !Opens(c, calls, key, n)
  {
    forall s: nat | s <= n ensures NoClear(calls, key, s, n + 1) <==> NoClear(calls, key, s, n) {
      assert NoClear(calls, key, s, n) ==> forall k :: s <= k < n + 1 ==> !(calls[k].Clear? && calls[k].key == key);
    }
  }

  lemma IdleBlocks(c: Settings, calls: seq<Call>, key: Key, n: nat, t: Time)
    requires n < |calls| && Idle(calls, key, n)
    ensures BlockedAt(c, calls, key, n + 1, t) <==> BlockedAt(c, calls, key, n, t)
  {
    var next := n + 1;
    if s: nat, f: nat :| BlockRuns(c, calls, key, next, t, s, f) {
      assert BlockRuns(c, calls, key, n, t, s, f);
    }
    if s: nat, f: nat :| BlockRuns(c, calls, key, n, t, s, f) {
      assert BlockRuns(c, calls, key, n + 1, t, s, f);
    }
  }

  lemma ClockBefore(calls: seq<Call>, n: nat)
    requires n < |calls| && Timely(calls)
    ensures ClockAfter(calls[..n]) <= calls[n].now
  {
  }

  /** Nothing or an ask: the entry stays but for the time it was seen, or goes once window and block are over. */
  predicate Fades(c: Settings, e: Option<Entry>, after: Option<Entry>, now: Time) {
    if after.Some? then e.Some? && after.value == e.value.(lastSeen := after.value.lastSeen)
    else e.Some? ==> e.value.windowStart + c.window <= now && e.value.blockedUntil <= now
  }

  lemma IdleWindow(c: Settings, calls: seq<Call>, key: Key, n: nat, e: Option<Entry>, after: Option<Entry>, clock: Time)
    requires n < |calls| && Timely(calls) && Idle(calls, key, n) && clock <= calls[n].now
    requires WindowIs(c, calls, key, n, e, clock) && Fades(c, e, after, calls[n].now)
    ensures WindowIs(c, calls, key, n + 1, after, calls[n].now)
  {
    IdleKeeps(c, calls, key, n);
    if e.Some? {
      var s: nat :| Counts(c, calls, key, n, e.value, s);
      if after.Some? {
        assert Counts(c, calls, key, n + 1, after.value, s);
      } else {
        OthersAreOver(c, calls, key, n, e.value, s, calls[n].now);
      }
    }
  }

  lemma IdleBlock(c: Settings, calls: seq<Call>, key: Key, n: nat, e: Option<Entry>, after: Option<Entry>, clock: Time)
    requires n < |calls| && Idle(calls, key, n) && clock <= calls[n].now
    requires BlockIs(c, calls, key, n, e, clock) && Fades(c, e, after, calls[n].now)
    ensures BlockIs(c, calls, key, n + 1, after, calls[n].now)
  {
    var next := n + 1;
    forall t | calls[n].now <= t ensures t < EndOf(after) <==> BlockedAt(c, calls, key, next, t) {
      IdleBlocks(c, calls, key, n, t);
      assert t < EndOf(e) <==> BlockedAt(c, calls, key, n, t);
    }
  }

  lemma ClearStep(c: Settings, calls: seq<Call>, key: Key, n: nat)
    requires n < |calls| && calls[n].Clear? && calls[n].key == key
    ensures WindowIs(c, calls, key, n + 1, None, calls[n].now) && BlockIs(c, calls, key, n + 1, None, calls[n].now)
  {
    var next := n + 1;
    forall s: nat | s <= n ensures !NoClear(calls, key, s, next) {
      assert calls[n].Clear?;
    }
  }

  /** The failure in call `n` goes into the window opened in call `s`, which may be itself. */
  ghost predicate GoesInto(c: Settings, calls: seq<Call>, key: Key, n: nat, s: nat)
    requires n < |calls|
  {
    && s <= n && Opens(c, calls, key, s) && NoClear(calls, key, s, n) && calls[n].now < calls[s].now + c.window
    && forall x: nat :: x <= n && x != s && Opens(c, calls, key, x) && NoClear(calls, key, x, n) ==>
         calls[x].now + c.window <= calls[n].now
  }

  lemma FailureBlocks(c: Settings, calls: seq<Call>, key: Key, n: nat, s: nat, t: Time)
    requires n < |calls| && Timely(calls) && FailureAt(calls, key, n) && GoesInto(c, calls, key, n, s)
    requires calls[n].now <= t
    ensures BlockedAt(c, calls, key, n + 1, t) <==>
      if Failures(calls, key, s, n + 1) >= c.maxFailures then t < calls[n].now + c.blockFor
      else BlockedAt(c, calls, key, n, t)
  {
    var next := n + 1;
    if x: nat, f: nat :| BlockRuns(c, calls, key, next, t, x, f) {
      assert calls[f].now <= calls[n].now;
      assert f < n ==> BlockRuns(c, calls, key, n, t, x, f);
      assert f == n ==> x == s;
    }
    if x: nat, f: nat :| BlockRuns(c, calls, key, n, t, x, f) {
      assert BlockRuns(c, calls, key, n + 1, t, x, f);
    }
    if Failures(calls, key, s, n + 1) >= c.maxFailures && t < calls[n].now + c.blockFor {
      assert BlockRuns(c, calls, key, n + 1, t, s, n);
    }
  }

  lemma FailWindow(c: Settings, calls: seq<Call>, key: Key, n: nat, e: Option<Entry>, clock: Time) returns (s: nat)
    requires n < |calls| && Timely(calls) && FailureAt(calls, key, n) && clock <= calls[n].now
    requires c.Valid() && WindowIs(c, calls, key, n, e, clock)
    ensures GoesInto(c, calls, key, n, s) && Counts(c, calls, key, n + 1, FailEntry(c, e, calls[n].now).0, s)
  {
    var now := calls[n].now;
    s := n;
    if e.Some? {
      var x: nat :| Counts(c, calls, key, n, e.value, x);
      OthersAreOver(c, calls, key, n, e.value, x, now);
      if now < calls[x].now + c.window {
        s := x;
      }
    }
    OpensExactly(c, calls, key, n);
  }

  lemma FailBlock(c: Settings, calls: seq<Call>, key: Key, n: nat, e: Option<Entry>, clock: Time, s: nat)
    requires n < |calls| && Timely(calls) && FailureAt(calls, key, n) && clock <= calls[n].now
    requires BlockIs(c, calls, key, n, e, clock)
    requires GoesInto(c, calls, key, n, s) && Counts(c, calls, key, n + 1, FailEntry(c, e, calls[n].now).0, s)
    ensures BlockIs(c, calls, key, n + 1, Some(FailEntry(c, e, calls[n].now).0), calls[n].now)
  {
    var now, after, next := calls[n].now, Some(FailEntry(c, e, calls[n].now).0), n + 1;
    forall t | now <= t ensures t < EndOf(after) <==> BlockedAt(c, calls, key, next, t) {
      FailureBlocks(c, calls, key, n, s, t);
      assert t < EndOf(e) <==> BlockedAt(c, calls, key, n, t);
    }
  }

  // ---------------------------------------------------------------- whole runs

  lemma {:induction false} ReferenceIs(c: Settings, calls: seq<Call>, key: Key, n: nat)
    requires c.Valid() && n <= |calls| && Timely(calls)
    ensures var e, clock := Reference(c, calls[..n], key), ClockAfter(calls[..n]);
      WindowIs(c, calls, key, n, e, clock) && BlockIs(c, calls, key, n, e, clock)
  {
    if n > 0 {
      var m := n - 1;
      ReferenceIs(c, calls, key, m);
      assert calls[..n][..m] == calls[..m];
      var e, clock := Reference(c, calls[..m], key), ClockAfter(calls[..m]);
      ClockBefore(calls, m);
      if Idle(calls, key, m) {
        var after := Reference(c, calls[..n], key);
        IdleWindow(c, calls, key, m, e, after, clock);
        IdleBlock(c, calls, key, m, e, after, clock);
      } else if calls[m].Clear? {
        ClearStep(c, calls, key, m);
      } else {
        var s := FailWindow(c, calls, key, m, e, clock);
        FailBlock(c, calls, key, m, e, clock, s);
      }
    }
  }

  /** The verdict at `now` says whether a block runs, and the wait is to the end of the last. */
  ghost predicate VerdictIs(c: Settings, calls: seq<Call>, key: Key, n: nat, now: Time, blocked: bool, wait: nat)
    requires n <= |calls|
  {
    && blocked == BlockedAt(c, calls, key, n, now)
    && forall t :: now <= t ==> (t < now + wait <==> BlockedAt(c, calls, key, n, t))
  }

  lemma ReferenceVerdict(c: Settings, calls: seq<Call>, n: nat)
    requires c.Valid() && n < |calls| && Timely(calls) && !calls[n].Clear?
    ensures var key, now := calls[n].key, calls[n].now; var v := Answer(c, Reference(c, calls[..n], key), calls[n]);
      if calls[n].Fail? then VerdictIs(c, calls, key, n + 1, now, v.flag, v.wait)
      else VerdictIs(c, calls, key, n, now, !v.flag, v.wait)
  {
    var key, now := calls[n].key, calls[n].now;
    ReferenceIs(c, calls, key, n);
    ReferenceIs(c, calls, key, n + 1);
    assert calls[..n + 1][..n] == calls[..n];
    var e, counted := Reference(c, calls[..n], key), Reference(c, calls[..n + 1], key);
    assert calls[n].Ask? ==> BlockIs(c, calls, key, n, e, now);
    assert calls[n].Fail? ==> BlockIs(c, calls, key, n + 1, counted, now);
  }

  /**
   On any run with room for the live entries, a key is found blocked exactly while a block runs: for `blockFor` from
   each failure that was at least the `maxFailures`-th of its window, until cleared. The wait reaches to its end.
   */
  lemma BlockedExactly(c: Settings, states: seq<map<Key, Entry>>, calls: seq<Call>, n: nat)
    requires IsRun(c, states, calls) && n < |calls| && !calls[n].Clear?
    requires forall i :: 0 <= i <= n ==> HasRoom(c, states[i], calls[i])
    ensures var key, now := calls[n].key, calls[n].now; var v := Answer(c, Lookup(states[n], key), calls[n]);
      if calls[n].Fail? then VerdictIs(c, calls, key, n + 1, now, v.flag, v.wait)
      else VerdictIs(c, calls, key, n, now, !v.flag, v.wait)
  {
    CacheAnswersAsReference(c, states, calls, n + 1);
    assert AnswersAlike(c, states, calls, n);
    ReferenceVerdict(c, calls, n);
  }

  // ---------------------------------------------------------------- who is evicted

  ghost predicate LastUse(calls: seq<Call>, n: nat, key: Key, j: nat)
    requires n <= |calls|
  {
    && j < n && calls[j].key == key && !calls[j].Clear?
    && forall k :: j < k < n ==> calls[k].key != key
  }

  lemma LastUseMore(calls: seq<Call>, m: nat, key: Key, j: nat)
    requires m < |calls|
    ensures calls[m].key == key && !calls[m].Clear? ==> LastUse(calls, m + 1, key, m)
    ensures calls[m].key != key && LastUse(calls, m, key, j) ==> LastUse(calls, m + 1, key, j)
  {
  }

  /** An entry's time is that of the key's last call, which was no clearing. */
  lemma {:induction false} LastSeenIsLastUse(c: Settings, states: seq<map<Key, Entry>>, calls: seq<Call>, n: nat,
                                             key: Key)
    returns (j: nat)
    requires IsRun(c, states, calls) && n <= |calls| && key in states[n]
    ensures LastUse(calls, n, key, j) && states[n][key].lastSeen == calls[j].now
  {
    var m := n - 1;
    EntriesAreFailedKeys(c, states, calls, m);
    ClockStep(c, states, calls, n);
    TableStep(c, states[m], calls[m], states[n]);
    if calls[m].key == key {
      j := m;
    } else {
      j := LastSeenIsLastUse(c, states, calls, m, key);
      LastUseMore(calls, m, key, j);
    }
  }

  lemma EvictionIsOldest(c: Settings, before: map<Key, Entry>, after: map<Key, Entry>, now: Time, gone: Key, kept: Key)
    requires EvictedTo(c, before, after, now) && gone in before && gone !in after && kept in after
    ensures kept in before && (Stale(c, before[gone], now) || before[gone].lastSeen <= before[kept].lastSeen)
  {
    var live := WithoutStale(c, before, now);
    assert gone in live || Stale(c, before[gone], now);
    assert kept in live && live[kept] == before[kept];
  }

  /** A key loses its entry to another's failure only if it is stale, or was last used no later than any that stays. */
  lemma EvictedWasOldest(c: Settings, states: seq<map<Key, Entry>>, calls: seq<Call>, n: nat, gone: Key, kept: Key)
    returns (g: nat, k: nat)
    requires IsRun(c, states, calls) && n < |calls| && calls[n].Fail? && gone != calls[n].key && kept != calls[n].key
    requires gone in states[n] && gone !in states[n + 1] && kept in states[n + 1]
    ensures kept in states[n] && LastUse(calls, n, gone, g) && LastUse(calls, n, kept, k)
    ensures var now := calls[n].now;
      || (states[n][gone].blockedUntil <= now && calls[g].now + c.window <= now)
      || calls[g].now <= calls[k].now
  {
    var key, now := calls[n].key, calls[n].now;
    ClockStep(c, states, calls, n + 1);
    EvictionIsOldest(c, states[n] - {key}, states[n + 1] - {key}, now, gone, kept);
    g := LastSeenIsLastUse(c, states, calls, n, gone);
    k := LastSeenIsLastUse(c, states, calls, n, kept);
  }
}
