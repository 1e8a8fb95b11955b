/**
 Matching agent replies to the callers that wait for them, and the limit on file operations per device.

 A reply is handed over in two steps: taking the waiter out of the table happens under the lock, putting the
 reply into the waiter's channel happens after the lock is released, and anything may run in between.
 */
module RequestCorrelation {
  type RequestId = string
  type HandlerId = nat

  datatype Envelope = Envelope(requestId: RequestId, body: string)

  datatype Waiter = Waiting | Expired | Answered(reply: Envelope) | TimedOut

  /** `pending` has the requests a reply can still be matched to; `handoffs` the replies on their way to a channel. */
  datatype State = State(
    waiters: map<RequestId, Waiter>, pending: set<RequestId>,
    channels: map<RequestId, seq<Envelope>>, handoffs: map<HandlerId, Envelope>)

  datatype Event =
    | Register(id: RequestId)
    | SendFails(id: RequestId)
    | Match(handler: HandlerId, reply: Envelope)
    | Post(handler: HandlerId)
    | Take(id: RequestId)
    | Expire(id: RequestId)
    | Cleanup(id: RequestId)

  const CAPACITY := 1

  predicate Enabled(s: State, e: Event) {
    match e
    case Register(id) => id !in s.waiters && id != ""
    case SendFails(id) => id in s.waiters && s.waiters[id].Waiting?
    case Match(handler, _) => handler !in s.handoffs
    case Post(handler) =>
      handler in s.handoffs && s.handoffs[handler].requestId in s.channels
        && |s.channels[s.handoffs[handler].requestId]| < CAPACITY
    case Take(id) => id in s.waiters && s.waiters[id].Waiting? && id in s.channels && s.channels[id] != []
    case Expire(id) => id in s.waiters && s.waiters[id].Waiting?
    case Cleanup(id) => id in s.waiters && s.waiters[id].Expired?
  }

  function Apply(s: State, e: Event): State
    requires Enabled(s, e)
  {
    match e
    case Register(id) =>
      s.(waiters := s.waiters[id := Waiting], pending := s.pending + {id}, channels := s.channels[id := []])
    case SendFails(id) => s.(waiters := s.waiters[id := TimedOut], pending := s.pending - {id})
    case Match(handler, reply) =>
      if reply.requestId == "" || reply.requestId !in s.pending then s
      else s.(pending := s.pending - {reply.requestId}, handoffs := s.handoffs[handler := reply])
    case Post(handler) =>
      var reply := s.handoffs[handler];
      s.(channels := s.channels[reply.requestId := s.channels[reply.requestId] + [reply]],
        handoffs := s.handoffs - {handler})
    case Take(id) =>
      s.(waiters := s.waiters[id := Answered(s.channels[id][0])], channels := s.channels[id := s.channels[id][1..]])
    case Expire(id) => s.(waiters := s.waiters[id := Expired])
    case Cleanup(id) => s.(waiters := s.waiters[id := TimedOut], pending := s.pending - {id})
  }

  function HandoffsFor(s: State, id: RequestId): set<HandlerId> {
    set h | h in s.handoffs && s.handoffs[h].requestId == id
  }

  /** A request is in the table, or its one reply is being handed over, or it is in the channel, or all that is past. */
  predicate RequestOk(s: State, id: RequestId) {
    if id !in s.waiters then id !in s.pending && id !in s.channels && HandoffsFor(s, id) == {}
    else
      && id in s.channels && |s.channels[id]| <= CAPACITY
      && (s.channels[id] != [] ==> s.channels[id][0].requestId == id)
      && (id in s.pending ==>
         HandoffsFor(s, id) == {} && s.channels[id] == [] && (s.waiters[id].Waiting? || s.waiters[id].Expired?))
      && (HandoffsFor(s, id) != {} ==> s.channels[id] == [])
      && (s.waiters[id].Answered? ==>
         s.waiters[id].reply.requestId == id && s.channels[id] == [] && HandoffsFor(s, id) == {})
      && (forall a, b :: a in HandoffsFor(s, id) && b in HandoffsFor(s, id) ==> a == b)
  }

  ghost predicate Inv(s: State) {
    forall id :: RequestOk(s, id)
  }

  lemma StepKeepsInv(s: State, e: Event)
    requires Inv(s) && Enabled(s, e)
    ensures Inv(Apply(s, e))
  {
    var t := Apply(s, e);
    forall id ensures RequestOk(t, id) {
      assert RequestOk(s, id);
      match e
      case Match(handler, reply) =>
        if t != s {
          assert HandoffsFor(t, id) == HandoffsFor(s, id) + (if reply.requestId == id then {handler} else {});
        }
      case Post(handler) =>
        assert HandoffsFor(t, id) == HandoffsFor(s, id) - {handler};
        assert s.handoffs[handler].requestId == id ==> handler in HandoffsFor(s, id);
      case _ =>
        assert HandoffsFor(t, id) == HandoffsFor(s, id);
    }
  }

  ghost predicate IsRun(states: seq<State>, events: seq<Event>) {
    && |states| == |events| + 1 && states[0] == State(map[], {}, map[], map[])
    && forall i :: 0 <= i < |events| ==> Enabled(states[i], events[i]) && states[i + 1] == Apply(states[i], events[i])
  }

  lemma {:induction false} InvHolds(states: seq<State>, events: seq<Event>, n: nat)
    requires IsRun(states, events) && n <= |events|
    ensures Inv(states[n])
  {
    if n == 0 {
      forall id ensures RequestOk(states[0], id) {
        assert HandoffsFor(states[0], id) == {};
      }
    } else {
      InvHolds(states, events, n - 1);
      StepKeepsInv(states[n - 1], events[n - 1]);
    }
  }

  /** In every interleaving: a handler that took a reply never blocks on the channel of capacity one. */
  lemma PostNeverBlocks(states: seq<State>, events: seq<Event>, n: nat, handler: HandlerId)
    requires IsRun(states, events) && n <= |events| && handler in states[n].handoffs
    ensures Enabled(states[n], Post(handler))
  {
    InvHolds(states, events, n);
    var id := states[n].handoffs[handler].requestId;
    assert RequestOk(states[n], id) && handler in HandoffsFor(states[n], id);
  }

  /** A caller is only ever given the reply that carries its own request id. */
  lemma ReplyReachesItsCaller(states: seq<State>, events: seq<Event>, n: nat, id: RequestId)
    requires IsRun(states, events) && n <= |events|
    requires id in states[n].waiters && states[n].waiters[id].Answered?
    ensures states[n].waiters[id].reply.requestId == id
  {
    InvHolds(states, events, n);
    assert RequestOk(states[n], id);
  }

  /** A request that has returned, with a reply or without, is not left in the table. */
  lemma NothingFinishedStaysPending(states: seq<State>, events: seq<Event>, n: nat, id: RequestId)
    requires IsRun(states, events) && n <= |events|
    requires id in states[n].waiters && (states[n].waiters[id].Answered? || states[n].waiters[id].TimedOut?)
    ensures id !in states[n].pending
  {
    InvHolds(states, events, n);
    assert RequestOk(states[n], id);
  }

  predicate Matches(s: State, e: Event, id: RequestId) {
    e.Match? && e.reply.requestId == id && id != "" && id in s.pending
  }

  predicate Settled(s: State, id: RequestId) {
    id in s.waiters && id !in s.pending
  }

  lemma {:induction false} StaysSettled(states: seq<State>, events: seq<Event>, i: nat, j: nat, id: RequestId)
    requires IsRun(states, events) && i <= j <= |events| && Settled(states[i], id)
    ensures Settled(states[j], id)
  {
    if i < j {
      StaysSettled(states, events, i, j - 1, id);
    }
  }

  /** Of all replies carrying one id, late and repeated ones included, at most one is ever matched. */
  lemma AtMostOneReplyMatches(states: seq<State>, events: seq<Event>, i: nat, j: nat, id: RequestId)
    requires IsRun(states, events) && i < j < |events| && Matches(states[i], events[i], id)
    ensures !Matches(states[j], events[j], id)
  {
    InvHolds(states, events, i);
    assert RequestOk(states[i], id);
    StaysSettled(states, events, i + 1, j, id);
  }

  /** The state under the service's lock, with the two steps of handing a reply over run one after the other. */
  class Correlator {
    var waiters: map<RequestId, Waiter>
    var pending: set<RequestId>
    var channels: map<RequestId, seq<Envelope>>
    var handoffs: map<HandlerId, Envelope>

    function View(): State
      reads this
    {
      State(waiters, pending, channels, handoffs)
    }

    constructor ()
      ensures View() == State(map[], {}, map[], map[])
    {
      waiters, pending, channels, handoffs := map[], {}, map[], map[];
    }

    method Begin(id: RequestId)
      requires Enabled(View(), Register(id))
      modifies this
      ensures View() == Apply(old(View()), Register(id))
    {
      waiters := waiters[id := Waiting];
      channels := channels[id := []];
      pending := pending + {id};
    }

    /** Consumes exactly the replies that someone waits for, and hands each to its own channel and no other. */
    method HandleAgentResponse(handler: HandlerId, reply: Envelope) returns (consumed: bool)
      requires Inv(View()) && handler !in handoffs
      modifies this
      ensures Inv(View())
      ensures consumed <==> reply.requestId != "" && reply.requestId in old(pending)
      ensures !consumed ==> View() == old(View())
      ensures consumed ==>
        && View() == old(View()).(pending := old(pending) - {reply.requestId},
           channels := old(channels)[reply.requestId := [reply]])
    {
      if reply.requestId == "" {
        return false;
      }
      ghost var before := View();
      var id := reply.requestId;
      consumed := id in pending;
      if !consumed {
        return;
      }
      assert RequestOk(before, id);
      StepKeepsInv(before, Match(handler, reply));
      pending := pending - {id};
      handoffs := handoffs[handler := reply];
      ghost var matched := View();
      assert RequestOk(matched, id) && handler in HandoffsFor(matched, id);
      StepKeepsInv(matched, Post(handler));
      assert channels[id] + [reply] == [reply];
      channels := channels[id := channels[id] + [reply]];
      handoffs := handoffs - {handler};
      assert handoffs == before.handoffs;
    }

    method Forget(id: RequestId)
      requires id in waiters && (waiters[id].Waiting? || waiters[id].Expired?)
      modifies this
      ensures View() == Apply(old(View()), if old(waiters)[id].Waiting? then SendFails(id) else Cleanup(id))
    {
      waiters := waiters[id := TimedOut];
      pending := pending - {id};
    }
  }

  // ---------------------------------------------------------------- operations per device

  type DeviceId = string
  type OperationId = nat

  function RunningOn(running: map<OperationId, DeviceId>, device: DeviceId): set<OperationId> {
    set o | o in running && running[o] == device
  }

  /** `active` counts the operations of a device; a device without any has no entry. */
  ghost predicate Counts(active: map<DeviceId, int>, running: map<OperationId, DeviceId>, most: nat) {
    forall d ::
      if d in active then active[d] == |RunningOn(running, d)| && 0 < active[d] <= most
      else RunningOn(running, d) == {}
  }

  lemma CountsAfterAcquire(active: map<DeviceId, int>, running: map<OperationId, DeviceId>, most: nat,
                           device: DeviceId, o: OperationId)
    requires Counts(active, running, most) && o !in running
    requires |RunningOn(running, device)| < most
    ensures Counts(active[device := |RunningOn(running, device)| + 1], running[o := device], most)
  {
    var after := running[o := device];
    assert RunningOn(after, device) == RunningOn(running, device) + {o};
    forall d | d != device ensures RunningOn(after, d) == RunningOn(running, d) {
    }
  }

  lemma CountsAfterRelease(active: map<DeviceId, int>, running: map<OperationId, DeviceId>, most: nat, o: OperationId)
    requires Counts(active, running, most) && o in running
    ensures running[o] in active
    ensures var device, left := running[o], active[running[o]] - 1;
      Counts(if left <= 0 then active - {device} else active[device := left], running - {o}, most)
  {
    var device, after := running[o], running - {o};
    assert o in RunningOn(running, device);
    assert RunningOn(after, device) == RunningOn(running, device) - {o};
    assert |RunningOn(after, device)| == |RunningOn(running, device)| - 1;
    forall d | d != device ensures RunningOn(after, d) == RunningOn(running, d) {
    }
  }

  class Service {
    const maxPerDevice: nat
    var active: map<DeviceId, int>
    ghost var running: map<OperationId, DeviceId>

    ghost predicate Valid()
      reads this
    {
      Counts(active, running, maxPerDevice)
    }

    constructor (maxPerDevice: nat)
      ensures Valid() && running == map[] && this.maxPerDevice == maxPerDevice
    {
      this.maxPerDevice := maxPerDevice;
      active := map[];
      running := map[];
    }

    /** Refuses exactly when the device already has the most operations it may have. */
    method Acquire(device: DeviceId, ghost operation: OperationId) returns (busy: bool)
      requires Valid() && operation !in running
      modifies this
      ensures Valid()
      ensures busy <==> |RunningOn(old(running), device)| >= maxPerDevice
      ensures running == if busy then old(running) else old(running)[operation := device]
    {
      var count := if device in active then active[device] else 0;
      assert count == |RunningOn(running, device)|;
      if count >= maxPerDevice {
        return true;
      }
      CountsAfterAcquire(active, running, maxPerDevice, device, operation);
      active := active[device := count + 1];
      running := running[operation := device];
      busy := false;
    }

    method Release(device: DeviceId, ghost operation: OperationId)
      requires Valid() && operation in running && running[operation] == device
      modifies this
      ensures Valid() && running == old(running) - {operation}
    {
      CountsAfterRelease(active, running, maxPerDevice, operation);
      running := running - {operation};
      active := active[device := active[device] - 1];
      if active[device] <= 0 {
        active := active - {device};
      }
      assert active == if old(active)[device] - 1 <= 0 then old(active) - {device}
        else old(active)[device := old(active)[device] - 1];
    }
  }
}
