/** Which replies are matched, and that a matched reply is the caller's answer. */
module RequestLaws {
  import opened RequestCorrelation

  // ---------------------------------------------------------------- which replies are matched

  /** The request is no longer waited for: its reply has come, its sending failed, or it has been cleaned up. */
  predicate Settles(e: Event, id: RequestId) {
    || (e.Match? && e.reply.requestId == id)
    || e == SendFails(id)
    || e == Cleanup(id)
  }

  ghost predicate Awaited(states: seq<State>, events: seq<Event>, k: nat, n: nat, id: RequestId)
    requires IsRun(states, events) && n <= |events|
  {
    k < n && events[k] == Register(id) && forall m :: k < m < n ==> !Settles(events[m], id)
  }

  lemma PendingStep(s: State, e: Event, id: RequestId)
    requires Enabled(s, e) && RequestOk(s, id) && (id in s.pending ==> id != "")
    ensures id in Apply(s, e).pending <==> e == Register(id) || (id in s.pending && !Settles(e, id))
    ensures id in Apply(s, e).pending ==> id != ""
  {
  }

  lemma {:induction false} PendingIsAwaited(states: seq<State>, events: seq<Event>, n: nat, id: RequestId)
    requires IsRun(states, events) && n <= |events|
    ensures id in states[n].pending <==> exists k: nat :: Awaited(states, events, k, n, id)
    ensures id in states[n].pending ==> id != ""
  {
    if n > 0 {
      var m := n - 1;
      PendingIsAwaited(states, events, m, id);
      InvHolds(states, events, m);
      PendingStep(states[m], events[m], id);
      if events[m] == Register(id) {
        assert Awaited(states, events, m, n, id);
      } else if id in states[n].pending {
        var k: nat :| Awaited(states, events, k, m, id);
        assert Awaited(states, events, k, n, id);
      } else {
        forall k: nat | Awaited(states, events, k, n, id) ensures Awaited(states, events, k, m, id) {
        }
      }
    }
  }

  /** A reply is matched exactly if its request is awaited: it comes in first, and before the caller gave up. */
  lemma MatchedExactly(states: seq<State>, events: seq<Event>, n: nat)
    requires IsRun(states, events) && n < |events| && events[n].Match?
    ensures var id := events[n].reply.requestId;
      Matches(states[n], events[n], id) <==> exists k: nat :: Awaited(states, events, k, n, id)
  {
    PendingIsAwaited(states, events, n, events[n].reply.requestId);
  }

  // ---------------------------------------------------------------- where a matched reply goes

  predicate OnItsWay(s: State, id: RequestId, reply: Envelope) {
    exists h :: h in HandoffsFor(s, id) && s.handoffs[h] == reply
  }

  /** The reply is being handed over, is in the request's channel, or has been given to the caller. */
  predicate Carries(s: State, id: RequestId, reply: Envelope) {
    && id in s.waiters && id !in s.pending && id in s.channels
    && (OnItsWay(s, id, reply) || s.channels[id] == [reply] || s.waiters[id] == Answered(reply))
  }

  lemma MatchCarries(s: State, e: Event, id: RequestId)
    requires Inv(s) && Enabled(s, e) && Matches(s, e, id)
    ensures Carries(Apply(s, e), id, e.reply)
  {
    assert RequestOk(s, id);
    assert e.handler in HandoffsFor(Apply(s, e), id);
  }

  lemma CarriesStep(s: State, e: Event, id: RequestId, reply: Envelope)
    requires Inv(s) && Enabled(s, e) && Carries(s, id, reply)
    ensures Carries(Apply(s, e), id, reply)
  {
    assert RequestOk(s, id);
    if h :| h in HandoffsFor(s, id) && s.handoffs[h] == reply {
      assert e != Post(h) ==> h in HandoffsFor(Apply(s, e), id);
    }
  }

  lemma {:induction false} MatchedIsCarried(states: seq<State>, events: seq<Event>, m: nat, n: nat, id: RequestId)
    requires IsRun(states, events) && m < n <= |events| && Matches(states[m], events[m], id)
    ensures Carries(states[n], id, events[m].reply)
  {
    InvHolds(states, events, n - 1);
    if m == n - 1 {
      MatchCarries(states[m], events[m], id);
    } else {
      MatchedIsCarried(states, events, m, n - 1, id);
      CarriesStep(states[n - 1], events[n - 1], id, events[m].reply);
    }
  }

  lemma CarriedBefore(s: State, e: Event, id: RequestId, reply: Envelope)
    requires Inv(s) && Enabled(s, e) && Carries(Apply(s, e), id, reply)
    ensures Carries(s, id, reply) || (Matches(s, e, id) && e.reply == reply)
  {
    var t := Apply(s, e);
    assert RequestOk(s, id);
    if h :| h in HandoffsFor(t, id) && t.handoffs[h] == reply {
      assert h in s.handoffs && s.handoffs[h] == t.handoffs[h] ==> h in HandoffsFor(s, id);
    }
    if e.Post? && s.handoffs[e.handler].requestId == id {
      assert e.handler in HandoffsFor(s, id);
      assert t.channels[id] == [s.handoffs[e.handler]];
      assert t.channels[id][0] == s.handoffs[e.handler];
    }
  }

  lemma {:induction false} CarriedWasMatched(states: seq<State>, events: seq<Event>, n: nat, id: RequestId,
                                             reply: Envelope)
    returns (m: nat)
    requires IsRun(states, events) && n <= |events| && Carries(states[n], id, reply)
    ensures m < n && Matches(states[m], events[m], id) && events[m].reply == reply
  {
    m := n - 1;
    InvHolds(states, events, m);
    CarriedBefore(states[m], events[m], id, reply);
    if !(Matches(states[m], events[m], id) && events[m].reply == reply) {
      m := CarriedWasMatched(states, events, m, id, reply);
    }
  }

  /** What a caller is given came in while it was awaited, and was the first reply with its id to do so. */
  lemma AnswerWasMatched(states: seq<State>, events: seq<Event>, n: nat, id: RequestId) returns (k: nat, m: nat)
    requires IsRun(states, events) && n <= |events| && id in states[n].waiters && states[n].waiters[id].Answered?
    ensures m < n && events[m].Match? && events[m].reply == states[n].waiters[id].reply
    ensures events[m].reply.requestId == id
    ensures Awaited(states, events, k, m, id)
  {
    InvHolds(states, events, n);
    assert RequestOk(states[n], id);
    m := CarriedWasMatched(states, events, n, id, states[n].waiters[id].reply);
    MatchedExactly(states, events, m);
    k :| Awaited(states, events, k, m, id);
  }

  /** As long as the caller waits, a matched reply needs its handler's step at most and then the caller's. */
  lemma MatchedReachesItsCaller(states: seq<State>, events: seq<Event>, m: nat, n: nat, id: RequestId)
    returns (h: HandlerId)
    requires IsRun(states, events) && m < n <= |events| && Matches(states[m], events[m], id)
    requires id in states[n].waiters && states[n].waiters[id].Waiting?
    ensures var s := states[n];
      if Enabled(s, Take(id)) then Apply(s, Take(id)).waiters[id] == Answered(events[m].reply)
      else
        && Enabled(s, Post(h)) && Enabled(Apply(s, Post(h)), Take(id))
        && Apply(Apply(s, Post(h)), Take(id)).waiters[id] == Answered(events[m].reply)
  {
    var s := states[n];
    h := 0;
    MatchedIsCarried(states, events, m, n, id);
    InvHolds(states, events, n);
    assert RequestOk(s, id);
    if x :| x in HandoffsFor(s, id) && s.handoffs[x] == events[m].reply {
      h := x;
    }
  }

  // ---------------------------------------------------------------- callers that have given up

  predicate GivesUp(e: Event, id: RequestId) {
    e == Expire(id) || e == SendFails(id)
  }

  lemma GivenUpStep(s: State, e: Event, id: RequestId)
    requires Enabled(s, e) && id in s.waiters
    ensures id in Apply(s, e).waiters
    ensures GivesUp(e, id) || s.waiters[id].Expired? || s.waiters[id].TimedOut? ==>
      Apply(s, e).waiters[id].Expired? || Apply(s, e).waiters[id].TimedOut?
    ensures Apply(s, e).waiters[id].Expired? ==> s.waiters[id].Expired? || e == Expire(id)
    ensures e == Cleanup(id) || e == SendFails(id) || s.waiters[id].TimedOut? ==> Apply(s, e).waiters[id].TimedOut?
  {
  }

  /** A caller whose time is up, or whose request could not be sent, is given no reply any more. */
  lemma {:induction false} GivingUpIsFinal(states: seq<State>, events: seq<Event>, m: nat, n: nat, id: RequestId)
    requires IsRun(states, events) && m < n <= |events| && GivesUp(events[m], id)
    ensures id in states[n].waiters && (states[n].waiters[id].Expired? || states[n].waiters[id].TimedOut?)
  {
    if m < n - 1 {
      GivingUpIsFinal(states, events, m, n - 1, id);
    }
    GivenUpStep(states[n - 1], events[n - 1], id);
  }

  /** It has returned once its request has been cleaned up. */
  lemma {:induction false} CleanedUpHasReturned(states: seq<State>, events: seq<Event>, m: nat, n: nat, id: RequestId)
    requires IsRun(states, events) && m < n <= |events| && (events[m] == Cleanup(id) || events[m] == SendFails(id))
    ensures id in states[n].waiters && states[n].waiters[id] == TimedOut
  {
    if m < n - 1 {
      CleanedUpHasReturned(states, events, m, n - 1, id);
    }
    GivenUpStep(states[n - 1], events[n - 1], id);
  }
}
