/** The failure limiter under the management locks: what the locks are for. */
module ManagementLimits {
  import opened Wrappers
  import opened FailureLimits
  import opened ManagementLocks

  /** The event is one of a request that has this limit key. */
  predicate Concerns(s: State, e: Event, key: Bytes) {
    e.id in s.requests && key in s.requests[e.id].keys
  }

  /** What an event makes of the key's own entry. */
  function EntryAfter(c: Settings, entry: Option<Entry>, s: State, e: Event, now: Time, key: Bytes): Option<Entry> {
    if !Concerns(s, e, key) then entry
    else match e
      case CheckLimit(_) => AllowEntry(c, entry, now).0
      case RecordAttempt(_) => Some(FailEntry(c, entry, now).0)
      case ClearInside(_) => None
      case ClearLate(_) => None
      case _ => entry
  }

  /** The request was allowed when it asked for this key, at an earlier moment. */
  ghost predicate WasAllowed(c: Settings, events: seq<Event>, clocks: seq<Time>, entries: seq<Option<Entry>>, j: nat,
                             id: RequestId)
    requires j <= |events| <= |clocks| && j <= |entries|
  {
    exists i :: 0 <= i < j && events[i] == CheckLimit(id) && AllowEntry(c, entries[i], clocks[i]).1.flag
  }

  /**
   A run of requests with the clock each event reads and the key's entry before it. A request refused for the key does
   not go on to record a failure or to clear.
   */
  ghost predicate IsLimitedRun(c: Settings, states: seq<State>, events: seq<Event>, clocks: seq<Time>,
                               entries: seq<Option<Entry>>, key: Bytes) {
    && IsRun(states, events) && c.Valid() && |clocks| == |events| && |entries| == |states| && entries[0] == None
    && (forall i, j :: 0 <= i < j < |clocks| ==> clocks[i] <= clocks[j])
    && (forall j :: 0 <= j < |events| ==>
       entries[j + 1] == EntryAfter(c, entries[j], states[j], events[j], clocks[j], key))
    && (forall j :: 0 <= j < |events| && Concerns(states[j], events[j], key) && UsesCheck(events[j], events[j].id) ==>
          WasAllowed(c, events, clocks, entries, j, events[j].id))
  }

  predicate Records(states: seq<State>, events: seq<Event>, key: Bytes, j: nat)
    requires j < |events| <= |states|
  {
    events[j].RecordAttempt? && Concerns(states[j], events[j], key)
  }

  predicate NoLateClear(states: seq<State>, events: seq<Event>, key: Bytes, from: nat, to: nat)
    requires to <= |events| <= |states|
  {
    forall k :: from <= k < to ==> !(events[k].ClearLate? && Concerns(states[k], events[k], key))
  }

  lemma ShareThisKey(a: Request, b: Request, key: Bytes)
    requires key in a.keys && key in b.keys
    ensures SharesKey(a, b)
  {
    var i :| 0 <= i < |a.keys| && a.keys[i] == key;
    var j :| 0 <= j < |b.keys| && b.keys[j] == key;
  }

  /** Nobody who had passed the check before a failure was recorded for the key still goes by that check. */
  lemma ChecksAreNotOutdated(states: seq<State>, events: seq<Event>, key: Bytes, i: nat, k: nat, j: nat)
    requires IsRun(states, events) && k < i < j < |events| && Records(states, events, key, i)
    requires Concerns(states[j], events[j], key) && UsesCheck(events[j], events[j].id)
    ensures events[k] != CheckLimit(events[j].id)
  {
    var a, b := events[i].id, events[j].id;
    if events[k] == CheckLimit(b) {
      StaysInSection(states, events, k, i, j, b);
      StaysInSection(states, events, k, i + 1, j, b);
      StaysInSection(states, events, k, j, j, b);
      InvHolds(states, events, i);
      ShareThisKey(states[i].requests[a], states[i].requests[b], key);
      SectionsExclude(states[i], a, b);
      assert false;
    }
  }

  predicate BlockedUntil(entry: Option<Entry>, until: Time) {
    entry.Some? && until <= entry.value.blockedUntil
  }

  lemma BlockedEntryStays(c: Settings, entry: Option<Entry>, s: State, e: Event, now: Time, key: Bytes, until: Time)
    requires BlockedUntil(entry, until) && now < until
    requires Concerns(s, e, key) ==> !UsesCheck(e, e.id) && !e.ClearLate?
    ensures BlockedUntil(EntryAfter(c, entry, s, e, now, key), until)
  {
  }

  /** While the block stands, no event goes by a check: not by one since, which was refused, nor by one before. */
  lemma NoneGoesByACheck(c: Settings, states: seq<State>, events: seq<Event>, clocks: seq<Time>,
                         entries: seq<Option<Entry>>, key: Bytes, i: nat, x: nat, until: Time)
    requires IsLimitedRun(c, states, events, clocks, entries, key) && i < x < |events|
    requires Records(states, events, key, i)
    requires forall k :: i < k <= x ==> BlockedUntil(entries[k], until) && clocks[k] < until
    requires Concerns(states[x], events[x], key)
    ensures !UsesCheck(events[x], events[x].id)
  {
    if UsesCheck(events[x], events[x].id) {
      assert WasAllowed(c, events, clocks, entries, x, events[x].id);
      var k :| 0 <= k < x && events[k] == CheckLimit(events[x].id) && AllowEntry(c, entries[k], clocks[k]).1.flag;
      assert k <= i;
      if k < i {
        ChecksAreNotOutdated(states, events, key, i, k, x);
      }
      assert false;
    }
  }

  /**
   From a recorded failure that blocks the key until `until`: before that time the block stands, and no failure is
   recorded or cleared under the locks, whatever the other requests had asked before.
   */
  lemma {:induction false} BlockStands(c: Settings, states: seq<State>, events: seq<Event>, clocks: seq<Time>,
                                       entries: seq<Option<Entry>>, key: Bytes, i: nat, m: nat, until: Time)
    requires IsLimitedRun(c, states, events, clocks, entries, key) && i < m <= |events|
    requires Records(states, events, key, i)
    requires BlockedUntil(entries[i + 1], until)
    requires NoLateClear(states, events, key, i + 1, m) && forall x :: i < x < m ==> clocks[x] < until
    ensures forall k :: i < k <= m ==> BlockedUntil(entries[k], until)
    ensures forall x :: i < x < m && Concerns(states[x], events[x], key) ==> !UsesCheck(events[x], events[x].id)
    decreases m
  {
    if m > i + 1 {
      var x := m - 1;
      BlockStands(c, states, events, clocks, entries, key, i, x, until);
      if Concerns(states[x], events[x], key) {
        NoneGoesByACheck(c, states, events, clocks, entries, key, i, x, until);
      }
      BlockedEntryStays(c, entries[x], states[x], events[x], clocks[x], key, until);
      assert entries[m] == EntryAfter(c, entries[x], states[x], events[x], clocks[x], key);
    }
  }

  /**
   In every interleaving without a late clearing of the key: once the failures of a window have reached the threshold,
   no further wrong credential is recorded for the key until the block has passed.
   */
  lemma NothingIsRecordedWhileBlocked(c: Settings, states: seq<State>, events: seq<Event>, clocks: seq<Time>,
                                      entries: seq<Option<Entry>>, key: Bytes, i: nat, j: nat)
    requires IsLimitedRun(c, states, events, clocks, entries, key) && i < j < |events|
    requires Records(states, events, key, i) && Records(states, events, key, j)
    requires entries[i + 1].Some? && entries[i + 1].value.failures >= c.maxFailures
    requires NoLateClear(states, events, key, i + 1, j)
    ensures clocks[i] + c.blockFor <= clocks[j]
  {
    var until := clocks[i] + c.blockFor;
    assert entries[i + 1] == EntryAfter(c, entries[i], states[i], events[i], clocks[i], key);
    if clocks[j] < until {
      assert NoLateClear(states, events, key, i + 1, j + 1);
      BlockStands(c, states, events, clocks, entries, key, i, j + 1, until);
      assert false;
    }
  }

  // ---------------------------------------------------------------- how many failures one window takes

  function Recorded(states: seq<State>, events: seq<Event>, key: Bytes, from: nat, to: nat): nat
    requires to <= |events| <= |states|
  {
    if to <= from then 0
    else Recorded(states, events, key, from, to - 1) + if Records(states, events, key, to - 1) then 1 else 0
  }

  predicate NoClear(states: seq<State>, events: seq<Event>, key: Bytes, from: nat, to: nat)
    requires to <= |events| <= |states|
  {
    forall k :: from <= k < to ==>
      !((events[k].ClearLate? || events[k].ClearInside?) && Concerns(states[k], events[k], key))
  }

  /**
   The failure recorded in step `s` opens a window, and up to step `n` the clock stays in it and within one blocking
   time.
   */
  ghost predicate WindowFrom(c: Settings, states: seq<State>, events: seq<Event>, clocks: seq<Time>,
                             entries: seq<Option<Entry>>, key: Bytes, s: nat, n: nat) {
    && IsLimitedRun(c, states, events, clocks, entries, key) && s < n <= |events|
    && Records(states, events, key, s) && entries[s + 1].Some?
    && entries[s + 1].value.windowStart == clocks[s] && entries[s + 1].value.failures == 1
    && NoClear(states, events, key, s + 1, n)
    && forall x :: s < x < n ==> clocks[x] < clocks[s] + c.window && clocks[x] < clocks[s] + c.blockFor
  }

  /** Two failures less than a blocking time apart: the first had not reached the threshold. */
  lemma BelowThreshold(c: Settings, states: seq<State>, events: seq<Event>, clocks: seq<Time>,
                       entries: seq<Option<Entry>>, key: Bytes, i: nat, j: nat)
    requires IsLimitedRun(c, states, events, clocks, entries, key) && i < j < |events|
    requires Records(states, events, key, i) && Records(states, events, key, j) && entries[i + 1].Some?
    requires NoLateClear(states, events, key, i + 1, j) && clocks[j] < clocks[i] + c.blockFor
    ensures entries[i + 1].value.failures < c.maxFailures
  {
    if entries[i + 1].value.failures >= c.maxFailures {
      NothingIsRecordedWhileBlocked(c, states, events, clocks, entries, key, i, j);
      assert false;
    }
  }

  /** The entry counts the failures recorded since, the last of them in step `last`. */
  ghost predicate Counts(c: Settings, states: seq<State>, events: seq<Event>, clocks: seq<Time>,
                         entries: seq<Option<Entry>>, key: Bytes, s: nat, n: nat, last: nat)
    requires s < n <= |events| <= |states| && |events| < |entries| && |clocks| == |events|
  {
    && s <= last < n && Records(states, events, key, last) && entries[last + 1].Some? && entries[n].Some?
    && var e := entries[n].value;
       && e.windowStart == clocks[s]
          && e.failures == entries[last + 1].value.failures == Recorded(states, events, key, s, n)
       && e.failures <= c.maxFailures
       && (e.failures >= c.maxFailures ==> clocks[s] + c.blockFor <= e.blockedUntil)
  }

  /** One more event leaves the window's entry, or counts one more failure. */
  lemma WindowStep(c: Settings, e: Entry, s: State, event: Event, now: Time, key: Bytes, start: Time)
    requires c.Valid() && e.windowStart == start && now < start + c.window
    requires !((event.ClearLate? || event.ClearInside?) && Concerns(s, event, key))
    ensures var after := EntryAfter(c, Some(e), s, event, now, key);
      && after.Some? && after.value.windowStart == start
      && (if event.RecordAttempt? && Concerns(s, event, key) then
            && after.value.failures == e.failures + 1
            && (e.failures + 1 >= c.maxFailures ==> after.value.blockedUntil == now + c.blockFor)
          else after.value.failures == e.failures && after.value.blockedUntil == e.blockedUntil)
  {
  }

  lemma CountsFirst(c: Settings, states: seq<State>, events: seq<Event>, clocks: seq<Time>,
                    entries: seq<Option<Entry>>, key: Bytes, s: nat)
    requires WindowFrom(c, states, events, clocks, entries, key, s, s + 1)
    ensures Counts(c, states, events, clocks, entries, key, s, s + 1, s)
  {
    assert entries[s + 1] == EntryAfter(c, entries[s], states[s], events[s], clocks[s], key);
    assert Recorded(states, events, key, s, s) == 0;
  }

  lemma CountsAnother(c: Settings, states: seq<State>, events: seq<Event>, clocks: seq<Time>,
                      entries: seq<Option<Entry>>, key: Bytes, s: nat, n: nat, last: nat)
    requires WindowFrom(c, states, events, clocks, entries, key, s, n) && s + 1 < n
    requires Records(states, events, key, n - 1)
    requires Counts(c, states, events, clocks, entries, key, s, n - 1, last)
    ensures Counts(c, states, events, clocks, entries, key, s, n, n - 1)
  {
    var x := n - 1;
    InOrder(c, states, events, clocks, entries, key, s, x, last);
    WindowStep(c, entries[x].value, states[x], events[x], clocks[x], key, clocks[s]);
    BelowThreshold(c, states, events, clocks, entries, key, last, x);
  }

  lemma InOrder(c: Settings, states: seq<State>, events: seq<Event>, clocks: seq<Time>,
                entries: seq<Option<Entry>>, key: Bytes, s: nat, x: nat, last: nat)
    requires IsLimitedRun(c, states, events, clocks, entries, key) && s <= last < x < |events|
    ensures clocks[s] <= clocks[last] && clocks[s] <= clocks[x]
    ensures entries[x + 1] == EntryAfter(c, entries[x], states[x], events[x], clocks[x], key)
  {
  }

  lemma CountsNext(c: Settings, states: seq<State>, events: seq<Event>, clocks: seq<Time>,
                   entries: seq<Option<Entry>>, key: Bytes, s: nat, n: nat, last: nat) returns (next: nat)
    requires WindowFrom(c, states, events, clocks, entries, key, s, n) && s + 1 < n
    requires Counts(c, states, events, clocks, entries, key, s, n - 1, last)
    ensures Counts(c, states, events, clocks, entries, key, s, n, next)
  {
    var x := n - 1;
    if Records(states, events, key, x) {
      CountsAnother(c, states, events, clocks, entries, key, s, n, last);
      next := x;
    } else {
      assert entries[n] == EntryAfter(c, entries[x], states[x], events[x], clocks[x], key);
      WindowStep(c, entries[x].value, states[x], events[x], clocks[x], key, clocks[s]);
      next := last;
    }
  }

  lemma WindowShorter(c: Settings, states: seq<State>, events: seq<Event>, clocks: seq<Time>,
                      entries: seq<Option<Entry>>, key: Bytes, s: nat, n: nat)
    requires WindowFrom(c, states, events, clocks, entries, key, s, n) && s + 1 < n
    ensures WindowFrom(c, states, events, clocks, entries, key, s, n - 1)
  {
  }

  lemma {:induction false} WindowCounts(c: Settings, states: seq<State>, events: seq<Event>, clocks: seq<Time>,
                                        entries: seq<Option<Entry>>, key: Bytes, s: nat, n: nat) returns (last: nat)
    requires WindowFrom(c, states, events, clocks, entries, key, s, n)
    ensures Counts(c, states, events, clocks, entries, key, s, n, last)
  {
    if n == s + 1 {
      CountsFirst(c, states, events, clocks, entries, key, s);
      last := s;
    } else {
      WindowShorter(c, states, events, clocks, entries, key, s, n);
      last := WindowCounts(c, states, events, clocks, entries, key, s, n - 1);
      last := CountsNext(c, states, events, clocks, entries, key, s, n, last);
    }
  }

  /**
   In every interleaving, a window takes at most `maxFailures` wrong credentials for a key, however many requests were
   under way; once it has taken so many, every check for the key is refused, for as long as a block lasts.
   */
  lemma AtMostMaxFailures(c: Settings, states: seq<State>, events: seq<Event>, clocks: seq<Time>,
                          entries: seq<Option<Entry>>, key: Bytes, s: nat, n: nat)
    requires WindowFrom(c, states, events, clocks, entries, key, s, n)
    ensures Recorded(states, events, key, s, n) <= c.maxFailures
    ensures Recorded(states, events, key, s, n) == c.maxFailures ==>
      forall now: Time :: now < clocks[s] + c.blockFor ==> !AllowEntry(c, entries[n], now).1.flag
  {
    var last := WindowCounts(c, states, events, clocks, entries, key, s, n);
  }
}
