/** The bounded failure limiter: the cache as code, and what one key's entry goes through. */
module FailureLimits {
  import opened Wrappers

  type Key = string
  type Time = nat // nanoseconds since the zero instant, which itself is 0

  /** `blockedUntil == 0` is the zero instant of an entry that was never blocked. */
  datatype Entry = Entry(failures: nat, windowStart: Time, blockedUntil: Time, lastSeen: Time)

  datatype Settings = Settings(maxFailures: nat, window: nat, blockFor: nat, maxEntries: nat) {
    predicate Valid() { maxFailures > 0 && window > 0 && blockFor > 0 && maxEntries > 0 }
  }

  /** Allowed and the wait, or blocked and the wait. */
  datatype Verdict = Verdict(flag: bool, wait: nat)

  // ---------------------------------------------------------------- one key without a cache

  function AllowEntry(c: Settings, e: Option<Entry>, now: Time): (Option<Entry>, Verdict) {
    if e.None? then (None, Verdict(true, 0))
    else if now < e.value.blockedUntil
      then (Some(e.value.(lastSeen := now)), Verdict(false, e.value.blockedUntil - now))
    else if now >= e.value.windowStart + c.window then (None, Verdict(true, 0))
    else (Some(e.value.(lastSeen := now)), Verdict(true, 0))
  }

  function FailEntry(c: Settings, e: Option<Entry>, now: Time): (Entry, Verdict) {
    var current :=
      if e.None? then Entry(0, now, 0, now)
      else if now >= e.value.windowStart + c.window
        then Entry(0, now, if now < e.value.blockedUntil then e.value.blockedUntil else 0, now)
      else e.value;
    var counted := current.(failures := current.failures + 1, lastSeen := now);
    var entry := if counted.failures >= c.maxFailures then counted.(blockedUntil := now + c.blockFor) else counted;
    (entry, if now < entry.blockedUntil then Verdict(true, entry.blockedUntil - now) else Verdict(false, 0))
  }

  function Lookup(entries: map<Key, Entry>, key: Key): Option<Entry> {
    if key in entries then Some(entries[key]) else None
  }

  function Put(entries: map<Key, Entry>, key: Key, e: Option<Entry>): map<Key, Entry> {
    match e case None => entries - {key} case Some(v) => entries[key := v]
  }

  // ---------------------------------------------------------------- eviction

  predicate Stale(c: Settings, e: Entry, now: Time) {
    now >= e.blockedUntil && now - e.lastSeen >= c.window
  }

  function WithoutStale(c: Settings, entries: map<Key, Entry>, now: Time): map<Key, Entry> {
    map k | k in entries && !Stale(c, entries[k], now) :: entries[k]
  }

  predicate Within(small: map<Key, Entry>, large: map<Key, Entry>) {
    forall k :: k in small ==> k in large && small[k] == large[k]
  }

  /** All stale entries go; beyond that only the least recently seen, and only as many as make room for one more. */
  predicate EvictedTo(c: Settings, before: map<Key, Entry>, after: map<Key, Entry>, now: Time) {
    var live := WithoutStale(c, before, now);
    && Within(after, live)
    && |after| == (if |live| < c.maxEntries then |live| else c.maxEntries - 1)
    && forall gone, kept :: gone in live && gone !in after && kept in after ==>
       live[gone].lastSeen <= live[kept].lastSeen
  }

  lemma WithinSameSize(small: map<Key, Entry>, large: map<Key, Entry>)
    requires Within(small, large)
    ensures |small| <= |large|
    ensures |small| == |large| ==> small == large
  {
    SubsetSize(small.Keys, large.Keys);
  }

  lemma {:induction false} SubsetSize(a: set<Key>, b: set<Key>)
    requires a <= b
    ensures |a| <= |b| && (|a| == |b| ==> a == b)
  {
    if a != {} {
      var x :| x in a;
      SubsetSize(a - {x}, b - {x});
    }
  }

  /** `entries` is shared by all requests; every method runs under the limiter's own lock. */
  class FailureLimiter {
    const settings: Settings
    var entries: map<Key, Entry>

    ghost predicate Valid()
      reads this
    {
      settings.Valid() && |entries| <= settings.maxEntries
    }

    /** A capacity below one is taken as one; the other limits must be positive. */
    constructor (maxFailures: nat, window: nat, blockFor: nat, maxEntries: int)
      requires maxFailures > 0 && window > 0 && blockFor > 0
      ensures Valid() && entries == map[]
      ensures settings == Settings(maxFailures, window, blockFor, if maxEntries < 1 then 1 else maxEntries)
    {
      settings := Settings(maxFailures, window, blockFor, if maxEntries < 1 then 1 else maxEntries);
      entries := map[];
    }

    method Allow(key: Key, now: Time) returns (allowed: bool, wait: nat)
      requires Valid()
      modifies this
      ensures Valid()
      ensures entries == Put(old(entries), key, AllowEntry(settings, Lookup(old(entries), key), now).0)
      ensures Verdict(allowed, wait) == AllowEntry(settings, Lookup(old(entries), key), now).1
    {
      if key !in entries {
        assert entries - {key} == entries;
        return true, 0;
      }
      var entry := entries[key];
      if now < entry.blockedUntil {
        entries := entries[key := entry.(lastSeen := now)];
        assert entries.Keys == old(entries).Keys;
        return false, entry.blockedUntil - now;
      }
      if !(now < entry.windowStart + settings.window) {
        entries := entries - {key};
        SubsetSize(entries.Keys, old(entries).Keys);
        return true, 0;
      }
      entries := entries[key := entry.(lastSeen := now)];
      assert entries.Keys == old(entries).Keys;
      return true, 0;
    }

    method RecordFailure(key: Key, now: Time) returns (blocked: bool, wait: nat)
      requires Valid()
      modifies this
      ensures Valid()
      ensures EvictedTo(settings, old(entries) - {key}, entries - {key}, now)
      ensures key in entries && entries[key] == FailEntry(settings, Lookup(old(entries), key), now).0
      ensures Verdict(blocked, wait) == FailEntry(settings, Lookup(old(entries), key), now).1
    {
      var found := Lookup(entries, key);
      if found.Some? {
        entries := entries - {key};
      } else {
        assert entries - {key} == entries;
      }
      SubsetSize(entries.Keys, old(entries).Keys);
      Evict(now);
      var entry := Counted(found, now);
      assert key !in entries;
      ghost var kept := entries;
      entries := entries[key := entry];
      assert entries - {key} == kept;
      assert |entries| == |kept| + 1;
      if now < entry.blockedUntil {
        return true, entry.blockedUntil - now;
      }
      return false, 0;
    }

    /** The entry that replaces `found` when a failure is recorded. */
    method Counted(found: Option<Entry>, now: Time) returns (entry: Entry)
      ensures entry == FailEntry(settings, found, now).0
    {
      entry := if found.Some? then found.value else Entry(0, now, 0, 0);
      if found.Some? && !(now < entry.windowStart + settings.window) {
        var blockedUntil := entry.blockedUntil;
        entry := Entry(0, now, 0, 0);
        if now < blockedUntil {
          entry := entry.(blockedUntil := blockedUntil);
        }
      }
      entry := entry.(failures := entry.failures + 1, lastSeen := now);
      if entry.failures >= settings.maxFailures {
        entry := entry.(blockedUntil := now + settings.blockFor);
      }
    }

    method Success(key: Key)
      requires Valid()
      modifies this
      ensures Valid() && entries == old(entries) - {key}
    {
      entries := entries - {key};
      SubsetSize(entries.Keys, old(entries).Keys);
    }

    /** Makes room: first everything stale, then the least recently seen until an entry fits. */
    method Evict(now: Time)
      requires settings.Valid()
      modifies this
      ensures EvictedTo(settings, old(entries), entries, now)
    {
      var keys := entries.Keys;
      while keys != {}
        invariant keys <= old(entries).Keys
        invariant entries == map k | k in old(entries) && (k in keys || !Stale(settings, old(entries)[k], now)) ::
          old(entries)[k]
        decreases keys
      {
        var key :| key in keys;
        keys := keys - {key};
        if now >= entries[key].blockedUntil && now - entries[key].lastSeen >= settings.window {
          entries := entries - {key};
        }
      }
      ghost var live := WithoutStale(settings, old(entries), now);
      assert entries == live;
      while |entries| >= settings.maxEntries
        invariant Within(entries, live)
        invariant |entries| == |live| || |entries| >= settings.maxEntries - 1
        invariant |live| < settings.maxEntries ==> entries == live
        invariant forall gone, kept :: gone in live && gone !in entries && kept in entries ==>
          live[gone].lastSeen <= live[kept].lastSeen
        decreases |entries|
      {
        var oldest := Oldest(entries);
        assert |entries - {oldest}| == |entries| - 1 by {
          assert (entries - {oldest}).Keys == entries.Keys - {oldest};
        }
        entries := entries - {oldest};
      }
      WithinSameSize(entries, live);
    }

    static method Oldest(entries: map<Key, Entry>) returns (oldest: Key)
      requires entries != map[]
      ensures oldest in entries && forall k :: k in entries ==> entries[oldest].lastSeen <= entries[k].lastSeen
    {
      var keys := entries.Keys;
      oldest :| oldest in keys;
      keys := keys - {oldest};
      while keys != {}
        invariant oldest in entries && keys <= entries.Keys
        invariant forall k :: k in entries && k !in keys ==> entries[oldest].lastSeen <= entries[k].lastSeen
        decreases keys
      {
        var key :| key in keys;
        keys := keys - {key};
        if entries[key].lastSeen < entries[oldest].lastSeen {
          oldest := key;
        }
      }
    }
  }
}
