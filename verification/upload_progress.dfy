/**
 Every upload comes to an end: left undisturbed once it has begun, among any other uploads, it returns what its body
 and the agent's disk call for.
 */
module UploadProgress {
  import Wrappers
  import opened UploadManagers
  import opened UploadProtocol

  /** One undisturbed exchange: the request arrives, the agent's disk works, and the reply is received. */
  ghost function Exchange(w: World, id: UploadId): World
    requires id in w.tasks && w.tasks[id].wire.Some?
  {
    Apply(Apply(w, Deliver(id, 0, Works)), Receive(id))
  }

  ghost predicate Returns(w: World, id: UploadId, rounds: nat, result: Result)
    decreases rounds
  {
    && id in w.tasks
    && if rounds == 0 then w.tasks[id].phase == Returned(result)
       else w.tasks[id].wire.Some? && Returns(Exchange(w, id), id, rounds - 1, result)
  }

  function ResultOf(job: Job): Result {
    if job.broken then Failed(ReaderFailed) else if |job.body| == job.size then Stored else Failed(Truncated)
  }

  /** No operation makes or removes a directory. */
  lemma DirectoriesStay(a: Agent, op: Op, p: Path)
    requires Inv(a)
    ensures Look(After(a, op).disk, p) == Dir <==> Look(a.disk, p) == Dir
  {
    if op.Close? && op.id in a.uploads {
      assert UploadOk(a, op.id);
    }
  }

  /** The agent has `offset` bytes of the upload, its target is no directory, and the server's next request is sent. */
  ghost predicate ReadTo(a: Agent, id: UploadId, t: Task, offset: nat) {
    && Inv(a) && id in a.uploads && a.uploads[id].written == offset && Look(a.disk, a.uploads[id].target) != Dir
    && t.job.chunkSize > 0 && offset <= |t.job.body| && (t.phase, t.wire) == ReadOn(t.job, offset)
  }

  lemma ChunkTaken(a: Agent, id: UploadId, t: Task, offset: nat)
    requires ReadTo(a, id, t, offset) && offset < |t.job.body|
    ensures var op := OpOf(id, t.job, t.wire.value, 0, Works); var next := OnReply(t.job, t.phase, Answer(a, op));
      ReadTo(After(a, op), id, Task(t.job, next.0, next.1, Wrappers.None), offset + ReadSize(t.job, offset))
  {
    var op := OpOf(id, t.job, t.wire.value, 0, Works);
    StepKeepsInv(a, op);
    DirectoriesStay(a, op, a.uploads[id].target);
  }

  lemma CloseAnswered(a: Agent, id: UploadId, t: Task)
    requires ReadTo(a, id, t, |t.job.body|) && !t.job.broken
    ensures OnReply(t.job, t.phase, Answer(a, OpOf(id, t.job, t.wire.value, 0, Works))).0 == Returned(ResultOf(t.job))
  {
    assert UploadOk(a, id);
  }

  lemma ExchangeIs(w: World, id: UploadId)
    requires id in w.tasks && w.tasks[id].wire.Some?
    ensures var t, w' := w.tasks[id], Exchange(w, id);
      var op := OpOf(id, t.job, t.wire.value, 0, Works); var next := OnReply(t.job, t.phase, Answer(w.agent, op));
      w'.agent == After(w.agent, op) && id in w'.tasks && w'.tasks[id] == Task(t.job, next.0, next.1, Wrappers.None)
  {
  }

  lemma ChunkExchanged(w: World, id: UploadId, offset: nat)
    requires id in w.tasks && ReadTo(w.agent, id, w.tasks[id], offset) && offset < |w.tasks[id].job.body|
    ensures var w', job := Exchange(w, id), w.tasks[id].job;
      && id in w'.tasks && w'.tasks[id].job == job
      && ReadTo(w'.agent, id, w'.tasks[id], offset + ReadSize(job, offset))
  {
    ExchangeIs(w, id);
    ChunkTaken(w.agent, id, w.tasks[id], offset);
  }

  lemma CloseExchanged(w: World, id: UploadId)
    requires id in w.tasks && ReadTo(w.agent, id, w.tasks[id], |w.tasks[id].job.body|) && !w.tasks[id].job.broken
    ensures Returns(w, id, 1, ResultOf(w.tasks[id].job))
  {
    ExchangeIs(w, id);
    CloseAnswered(w.agent, id, w.tasks[id]);
    assert Returns(Exchange(w, id), id, 0, ResultOf(w.tasks[id].job));
  }

  lemma {:induction false} ReadingReturns(w: World, id: UploadId, offset: nat) returns (rounds: nat)
    requires id in w.tasks && ReadTo(w.agent, id, w.tasks[id], offset)
    ensures Returns(w, id, rounds, ResultOf(w.tasks[id].job))
    decreases if id in w.tasks then |w.tasks[id].job.body| - offset else 0
  {
    var t := w.tasks[id];
    if offset < |t.job.body| {
      ChunkExchanged(w, id, offset);
      rounds := ReadingReturns(Exchange(w, id), id, offset + ReadSize(t.job, offset));
      rounds := rounds + 1;
    } else if t.job.broken {
      rounds := 0;
    } else {
      CloseExchanged(w, id);
      rounds := 1;
    }
  }

  lemma OpenAnswered(a: Agent, id: UploadId, t: Task)
    requires Inv(a) && t.job.chunkSize > 0 && id !in a.uploads
    requires t.phase == Opening && t.wire == Wrappers.Some(OpenRequest)
    ensures var op := OpOf(id, t.job, OpenRequest, 0, Works); var next := OnReply(t.job, t.phase, Answer(a, op));
      if Openable(a, id, t.job) then ReadTo(After(a, op), id, Task(t.job, next.0, next.1, Wrappers.None), 0)
      else next.0 == Returned(Failed(AgentRefused))
  {
    var op := OpOf(id, t.job, OpenRequest, 0, Works);
    StepKeepsInv(a, op);
    if Openable(a, id, t.job) {
      DirectoriesStay(a, op, t.job.path.value);
    }
  }

  lemma OpenReturns(w: World, id: UploadId) returns (rounds: nat)
    requires Inv(w.agent) && id in w.tasks && id !in w.agent.uploads && w.tasks[id].job.chunkSize > 0
    requires w.tasks[id].phase == Opening && w.tasks[id].wire == Wrappers.Some(OpenRequest)
    ensures var job := w.tasks[id].job;
      Returns(w, id, rounds, if Openable(w.agent, id, job) then ResultOf(job) else Failed(AgentRefused))
  {
    ExchangeIs(w, id);
    OpenAnswered(w.agent, id, w.tasks[id]);
    if Openable(w.agent, id, w.tasks[id].job) {
      rounds := ReadingReturns(Exchange(w, id), id, 0);
      rounds := rounds + 1;
    } else {
      rounds := 1;
      assert Returns(Exchange(w, id), id, 0, Failed(AgentRefused));
    }
  }

  /**
   Whatever other uploads have done or are doing, an upload whose open is on the way returns if its exchanges are
   left undisturbed: refused if its path cannot be opened, and otherwise stored, truncated or broken as its body is.
   */
  lemma UploadReturns(worlds: seq<World>, events: seq<Event>, n: nat, id: UploadId) returns (rounds: nat)
    requires UploadProtocol.IsRun(worlds, events) && n <= |events| && id in worlds[n].tasks
    requires worlds[n].tasks[id].phase == Opening && worlds[n].tasks[id].wire.Some?
    ensures var job := worlds[n].tasks[id].job;
      Returns(worlds[n], id, rounds,
        if Openable(worlds[n].agent, id, job) then ResultOf(job) else Failed(AgentRefused))
  {
    WorldStaysOk(worlds, events, n);
    assert TaskOk(worlds[n], id);
    rounds := OpenReturns(worlds[n], id);
  }

  // ---------------------------------------------------------------- uploads that are cut short

  /** The server can give up at any moment: it returns at once, with a failure unless it has returned before. */
  lemma GivingUpReturns(w: World, id: UploadId)
    requires Enabled(w, GiveUp(id))
    ensures var before, after := w.tasks[id], Apply(w, GiveUp(id)).tasks[id];
      && (before.phase.Returned? ==> after == before)
      && (before.phase == Closing(false) ==> after.phase == Returned(Failed(Truncated)))
      && (before.phase.Opening? || before.phase.Sending? || before.phase == Closing(true) ==>
            after.phase == Returned(Failed(GaveUp)))
  {
  }

  /** The upload was opened, and the agent has dropped it. */
  predicate CutShort(w: World, id: UploadId) {
    && id in w.tasks && id !in w.agent.uploads && id !in w.committed
    && w.tasks[id].wire != Wrappers.Some(OpenRequest)
  }

  lemma CutShortStep(w: World, start: Disk, e: Event, id: UploadId)
    requires WorldOk(w, start) && Enabled(w, e) && CutShort(w, id)
    ensures CutShort(Apply(w, e), id)
  {
    assert TaskOk(w, id);
    match e
    case Deliver(x, now, io) =>
      if x != id {
        OthersUntouched(w.agent, OpOf(x, w.tasks[x].job, w.tasks[x].wire.value, now, io), id);
      }
    case _ =>
  }

  lemma {:induction false} CutShortStays(worlds: seq<World>, events: seq<Event>, m: nat, n: nat, id: UploadId)
    requires UploadProtocol.IsRun(worlds, events) && m <= n <= |events| && CutShort(worlds[m], id)
    ensures CutShort(worlds[n], id)
  {
    if m < n {
      CutShortStays(worlds, events, m, n - 1, id);
      WorldStaysOk(worlds, events, n - 1);
      CutShortStep(worlds[n - 1], worlds[0].agent.disk, events[n - 1], id);
    }
  }

  /** An upload that a disconnect, a cleanup or an error ends at the agent is never stored, nor reported as stored. */
  lemma DroppedIsNeverStored(worlds: seq<World>, events: seq<Event>, m: nat, n: nat, id: UploadId)
    requires UploadProtocol.IsRun(worlds, events) && m < n <= |events| && id in worlds[m].agent.uploads
    requires events[m] == UploadProtocol.Disconnect
          || (id !in worlds[m + 1].agent.uploads && id !in worlds[m + 1].committed)
    ensures id !in worlds[n].agent.uploads && id !in worlds[n].committed
    ensures id in worlds[n].tasks && worlds[n].tasks[id].phase != Returned(Stored)
  {
    WorldStaysOk(worlds, events, m);
    assert TaskOk(worlds[m], id);
    CutShortStays(worlds, events, m + 1, n, id);
    WorldStaysOk(worlds, events, n);
    assert TaskOk(worlds[n], id);
  }
}
