/**
 An upload from the server's request body to the agent's disk.

 Any number of uploads run at once. Requests and replies may be lost, the server may give up at any moment while its
 request is still on the way, the agent's file system may fail at any call, stale uploads may be aborted between
 any two messages, and the connection may break. Uploads may be sent anywhere, also to each other's temporary paths.
 */
module UploadProtocol {
  import opened Wrappers
  import opened UploadManagers

  datatype Reason = GaveUp | AgentRefused | ReaderFailed | Truncated

  datatype Result = Stored | Failed(reason: Reason)

  /** The request body as the reader delivers it: `body`, then the end of input or, if `broken`, another error. */
  datatype Job = Job(path: Option<Path>, size: nat, overwrite: bool, body: Bytes, broken: bool, chunkSize: nat)

  datatype Phase = Opening | Sending(offset: nat, n: nat) | Closing(complete: bool) | Returned(result: Result)

  datatype Request = OpenRequest | ChunkRequest(offset: nat, data: Bytes) | CloseRequest(total: nat)

  /** One upload: where the server stands, its request on the way, the agent's reply on the way. */
  datatype Task = Task(job: Job, phase: Phase, wire: Option<Request>, reply: Option<Reply>)

  /**
   `committed` and `latest` record which uploads the agent has renamed into place, and whose body each path then
   holds.
   */
  datatype World = World(agent: Agent, tasks: map<UploadId, Task>, committed: set<UploadId>,
                         latest: map<Path, UploadId>)

  datatype Event =
    | Begin(id: UploadId, job: Job)
    | Deliver(id: UploadId, now: Time, io: Io)
    | LoseRequest(id: UploadId)
    | LoseReply(id: UploadId)
    | Receive(id: UploadId)
    | GiveUp(id: UploadId)
    | Clean(now: Time, maxAge: nat)
    | Disconnect

  // ---------------------------------------------------------------- the server's side

  function ReadSize(job: Job, offset: nat): nat {
    if offset >= |job.body| then 0
    else if |job.body| - offset < job.chunkSize then |job.body| - offset else job.chunkSize
  }

  /** The reader is exhausted: an error ends the upload, the end of input closes it with the declared size. */
  function Finish(job: Job, offset: nat): (Phase, Option<Request>) {
    if job.broken then (Returned(Failed(ReaderFailed)), None)
      else (Closing(offset == job.size), Some(CloseRequest(job.size)))
  }

  /** Reads the next buffer and sends it. */
  function ReadOn(job: Job, offset: nat): (Phase, Option<Request>) {
    var n := ReadSize(job, offset);
    if n > 0 then (Sending(offset, n), Some(ChunkRequest(offset, job.body[offset..offset + n])))
      else Finish(job, offset)
  }

  function OnReply(job: Job, phase: Phase, reply: Reply): (Phase, Option<Request>) {
    match phase
    case Opening => if reply.Opened? then ReadOn(job, 0) else (Returned(Failed(AgentRefused)), None)
    case Sending(offset, n) =>
      if !reply.Ack? then (Returned(Failed(AgentRefused)), None)
      else if n < job.chunkSize then Finish(job, offset + n)
      else ReadOn(job, offset + n)
    case Closing(complete) =>
      (Returned(if !complete then Failed(Truncated) else if reply.Written? then Stored else Failed(AgentRefused)), None)
    case Returned(_) => (phase, None)
  }

  function OnGiveUp(phase: Phase): Phase {
    match phase
    case Closing(complete) => Returned(Failed(if complete then GaveUp else Truncated))
    case Returned(_) => phase
    case _ => Returned(Failed(GaveUp))
  }

  // ---------------------------------------------------------------- the world

  function OpOf(id: UploadId, job: Job, request: Request, now: Time, io: Io): Op {
    match request
    case OpenRequest => Open(id, job.path, job.overwrite, now, io)
    case ChunkRequest(offset, data) => Write(id, offset, data, now, io)
    case CloseRequest(total) => Close(id, total, io)
  }

  ghost predicate Enabled(w: World, e: Event) {
    match e
    case Begin(id, job) => id !in w.tasks && job.chunkSize > 0
    case Deliver(id, _, _) => id in w.tasks && w.tasks[id].wire.Some?
    case LoseRequest(id) => id in w.tasks
    case LoseReply(id) => id in w.tasks
    case Receive(id) => id in w.tasks && w.tasks[id].reply.Some?
    case GiveUp(id) => id in w.tasks
    case Clean(_, _) => true
    case Disconnect => true
  }

  ghost function Apply(w: World, e: Event): World
    requires Enabled(w, e)
  {
    match e
    case Begin(id, job) => w.(tasks := w.tasks[id := Task(job, Opening, Some(OpenRequest), None)])
    case Deliver(id, now, io) => Delivered(w, id, now, io)
    case LoseRequest(id) => w.(tasks := w.tasks[id := w.tasks[id].(wire := None)])
    case LoseReply(id) => w.(tasks := w.tasks[id := w.tasks[id].(reply := None)])
    case Receive(id) =>
      var t := w.tasks[id];
      var next := OnReply(t.job, t.phase, t.reply.value);
      w.(tasks := w.tasks[id := Task(t.job, next.0, next.1, None)])
    case GiveUp(id) => w.(tasks := w.tasks[id := w.tasks[id].(phase := OnGiveUp(w.tasks[id].phase))])
    case Clean(now, maxAge) => Acted(w, CleanStale(now, maxAge))
    case Disconnect => Acted(w, DropManager)
  }

  /** Whose body a close puts in place: the upload's own, or that of the last one committed onto its temporary path. */
  function Whole(latest: map<Path, UploadId>, a: Agent, id: UploadId): UploadId
    requires id in a.uploads
  {
    if a.uploads[id].tmp in latest then latest[a.uploads[id].tmp] else id
  }

  /** A temporary path that goes out of use is emptied; a commit puts a body at its target, unless that is the same. */
  function Recorded(latest: map<Path, UploadId>, a: Agent, op: Op): map<Path, UploadId> {
    var rest := latest - (LiveTemporaries(a) - LiveTemporaries(After(a, op)));
    if Puts(a, op) then rest[a.uploads[op.id].target := Whole(latest, a, op.id)] else rest
  }

  predicate Puts(a: Agent, op: Op) {
    op.Close? && CloseError(a, op).None? && a.uploads[op.id].target != a.uploads[op.id].tmp
  }

  function Acted(w: World, op: Op): World {
    w.(agent := After(w.agent, op), latest := Recorded(w.latest, w.agent, op))
  }

  ghost function Delivered(w: World, id: UploadId, now: Time, io: Io): World
    requires id in w.tasks && w.tasks[id].wire.Some?
  {
    var t := w.tasks[id];
    var op := OpOf(id, t.job, t.wire.value, now, io);
    Acted(w, op).(
      tasks := w.tasks[id := t.(wire := None, reply := Some(Answer(w.agent, op)))],
      committed := if op.Close? && CloseError(w.agent, op).None? then w.committed + {id} else w.committed)
  }

  // ---------------------------------------------------------------- what every step keeps

  /** The agent's half of an upload is a prefix of the body. */
  ghost predicate HalfOk(a: Agent, id: UploadId, job: Job) {
    id in a.uploads ==>
      && job.path == Some(a.uploads[id].target) && a.uploads[id].written <= |job.body|
      && Content(a, id) == job.body[..a.uploads[id].written]
  }

  predicate WrittenIs(a: Agent, id: UploadId, n: nat) {
    id in a.uploads ==> a.uploads[id].written == n
  }

  predicate WireOk(a: Agent, id: UploadId, job: Job, request: Request) {
    match request
    case OpenRequest => id !in a.uploads
    case ChunkRequest(offset, data) => offset + |data| <= |job.body| && data == job.body[offset..offset + |data|]
      && WrittenIs(a, id, offset)
    case CloseRequest(total) => total == job.size && !job.broken && WrittenIs(a, id, |job.body|)
  }

  /** What the server's position says about the request, the reply and the agent's half. */
  predicate PhaseOk(a: Agent, committed: set<UploadId>, id: UploadId, t: Task) {
    match t.phase
    case Opening =>
      && (t.wire.Some? ==> t.wire.value == OpenRequest)
      && (t.reply == Some(Opened) ==> WrittenIs(a, id, 0) && id !in committed)
    case Sending(offset, n) =>
      && n == ReadSize(t.job, offset) && 0 < n && offset + n <= |t.job.body| && id !in committed
      && (t.wire.Some? ==> t.wire.value == ChunkRequest(offset, t.job.body[offset..offset + n]))
      && (t.reply.Some? && t.reply.value.Ack? ==> WrittenIs(a, id, offset + n))
    case Closing(complete) => complete ==> |t.job.body| == t.job.size && !t.job.broken
    case Returned(result) => result == Stored ==> id in committed
  }

  predicate CommitOk(a: Agent, committed: set<UploadId>, id: UploadId, t: Task) {
    && (id in committed ==> id !in a.uploads && t.job.path.Some? && |t.job.body| == t.job.size && !t.job.broken)
    && (t.reply == Some(Written) ==> id in committed)
  }

  ghost predicate TaskIs(a: Agent, committed: set<UploadId>, id: UploadId, t: Task) {
    && t.job.chunkSize > 0
    && HalfOk(a, id, t.job)
    && (t.wire.Some? ==> t.reply.None? && WireOk(a, id, t.job, t.wire.value) && id !in committed)
    && CommitOk(a, committed, id, t)
    && PhaseOk(a, committed, id, t)
  }

  ghost predicate TaskOk(w: World, id: UploadId)
    requires id in w.tasks
  {
    TaskIs(w.agent, w.committed, id, w.tasks[id])
  }

  /** What is shown at a path: the body recorded there, or what was there at the start. */
  function Expected(tasks: map<UploadId, Task>, latest: map<Path, UploadId>, start: Disk, p: Path): View {
    if p in latest && latest[p] in tasks then Holds(tasks[latest[p]].job.body) else Look(start, p)
  }

  predicate RecordsOk(tasks: map<UploadId, Task>, committed: set<UploadId>, latest: map<Path, UploadId>) {
    forall p :: p in latest ==> latest[p] in committed && latest[p] in tasks
  }

  /** The disk is as recorded; a temporary path in use was free at the start. */
  ghost predicate DiskOk(a: Agent, tasks: map<UploadId, Task>, latest: map<Path, UploadId>, start: Disk) {
    && (forall p :: Shown(a, p) == Expected(tasks, latest, start, p))
    && (forall p :: p in LiveTemporaries(a) ==> Look(start, p) == Missing)
  }

  ghost predicate WorldOk(w: World, start: Disk) {
    && Inv(w.agent)
    && (forall id :: id in w.agent.uploads || id in w.committed ==> id in w.tasks)
    && (forall id :: id in w.tasks ==> TaskOk(w, id))
    && RecordsOk(w.tasks, w.committed, w.latest) && DiskOk(w.agent, w.tasks, w.latest, start)
  }

  /** An operation that is not about an upload either leaves that upload alone or removes it. */
  lemma OthersUntouched(a: Agent, op: Op, id: UploadId)
    requires Inv(a)
    requires op.Open? || op.Write? || op.Close? ==> op.id != id
    ensures id in After(a, op).uploads ==>
      id in a.uploads && After(a, op).uploads[id] == a.uploads[id] && Content(After(a, op), id) == Content(a, id)
  {
  }

  lemma OthersKeepTaskOk(w: World, w': World, op: Op, id: UploadId)
    requires Inv(w.agent) && id in w.tasks && TaskOk(w, id)
    requires op.Open? || op.Write? || op.Close? ==> op.id != id
    requires w'.agent == After(w.agent, op) && id in w'.tasks && w'.tasks[id] == w.tasks[id]
    requires id in w'.committed <==> id in w.committed
    ensures TaskOk(w', id)
  {
    OthersUntouched(w.agent, op, id);
  }

  lemma CleanupStep(w: World, start: Disk, op: Op)
    requires WorldOk(w, start) && (op.CleanStale? || op.DropManager?)
    ensures WorldOk(Acted(w, op), start)
  {
    var w' := Acted(w, op);
    StepKeepsInv(w.agent, op);
    forall id | id in w'.tasks ensures TaskOk(w', id) {
      OthersKeepTaskOk(w, w', op, id);
    }
    QuietDisk(w.agent, w.tasks, w.latest, start, op);
  }

  lemma DeliverOpen(a: Agent, committed: set<UploadId>, id: UploadId, t: Task, now: Time, io: Io)
    requires Inv(a) && TaskIs(a, committed, id, t) && t.wire == Some(OpenRequest)
    ensures var op := OpOf(id, t.job, t.wire.value, now, io);
      TaskIs(After(a, op), committed, id, t.(wire := None, reply := Some(Answer(a, op))))
  {
  }

  lemma DeliverChunk(a: Agent, committed: set<UploadId>, id: UploadId, t: Task, now: Time, io: Io)
    requires Inv(a) && TaskIs(a, committed, id, t) && t.wire.Some? && t.wire.value.ChunkRequest?
    ensures var op := OpOf(id, t.job, t.wire.value, now, io);
      TaskIs(After(a, op), committed, id, t.(wire := None, reply := Some(Answer(a, op))))
  {
    var op := OpOf(id, t.job, t.wire.value, now, io);
    if id in After(a, op).uploads {
      ContentStep(a, op, id);
    }
  }

  lemma DeliverClose(a: Agent, committed: set<UploadId>, id: UploadId, t: Task, now: Time, io: Io)
    requires Inv(a) && TaskIs(a, committed, id, t) && t.wire.Some? && t.wire.value.CloseRequest?
    ensures var op := OpOf(id, t.job, t.wire.value, now, io);
      TaskIs(After(a, op), if CloseError(a, op).None? then committed + {id} else committed, id,
             t.(wire := None, reply := Some(Answer(a, op))))
    ensures id !in After(a, OpOf(id, t.job, t.wire.value, now, io)).uploads
  {
  }

  lemma DeliverOwnTask(w: World, id: UploadId, now: Time, io: Io)
    requires Inv(w.agent) && id in w.tasks && TaskOk(w, id) && w.tasks[id].wire.Some?
    ensures TaskOk(Delivered(w, id, now, io), id)
  {
    match w.tasks[id].wire.value
    case OpenRequest => DeliverOpen(w.agent, w.committed, id, w.tasks[id], now, io);
    case ChunkRequest(_, _) => DeliverChunk(w.agent, w.committed, id, w.tasks[id], now, io);
    case CloseRequest(_) => DeliverClose(w.agent, w.committed, id, w.tasks[id], now, io);
  }

  lemma DeliverStep(w: World, start: Disk, id: UploadId, now: Time, io: Io)
    requires WorldOk(w, start) && Enabled(w, Deliver(id, now, io))
    ensures WorldOk(Delivered(w, id, now, io), start)
  {
    var t := w.tasks[id];
    var op := OpOf(id, t.job, t.wire.value, now, io);
    var w' := Delivered(w, id, now, io);
    assert TaskOk(w, id);
    StepKeepsInv(w.agent, op);
    DeliverOwnTask(w, id, now, io);
    forall other | other in w'.tasks ensures TaskOk(w', other) {
      if other != id {
        OthersKeepTaskOk(w, w', op, other);
      }
    }
    forall other | other in w'.agent.uploads ensures other in w'.tasks {
      if other != id {
        OthersUntouched(w.agent, op, other);
      }
    }
    DeliverDisk(w, start, id, now, io);
  }

  /** Replacing a task by one with the same job, or adding one that is not committed, changes no record. */
  lemma RecordTask(tasks: map<UploadId, Task>, committed: set<UploadId>, latest: map<Path, UploadId>, id: UploadId,
                   t: Task, start: Disk)
    requires RecordsOk(tasks, committed, latest)
    requires if id in tasks then t.job == tasks[id].job else id !in committed
    ensures RecordsOk(tasks[id := t], committed, latest)
    ensures forall p :: Expected(tasks[id := t], latest, start, p) == Expected(tasks, latest, start, p)
  {
  }

  /** The record tells whether a temporary path in use has been committed onto. */
  lemma RecordedTemporary(a: Agent, tasks: map<UploadId, Task>, committed: set<UploadId>,
                          latest: map<Path, UploadId>, start: Disk, id: UploadId)
    requires Inv(a) && DiskOk(a, tasks, latest, start) && id in a.uploads
    requires RecordsOk(tasks, committed, latest)
    ensures a.uploads[id].tmp in latest <==> !Own(a, id)
    ensures !Own(a, id) ==> AtTemporary(a, id) == tasks[latest[a.uploads[id].tmp]].job.body
  {
    var tmp := a.uploads[id].tmp;
    ShownAtTemporary(a, id);
    assert tmp in LiveTemporaries(a);
    assert Shown(a, tmp) == Expected(tasks, latest, start, tmp);
  }

  /** A path that a step brings into use was free before, on the disk and in the record. */
  lemma NewTemporaryWasFree(a: Agent, tasks: map<UploadId, Task>, latest: map<Path, UploadId>, start: Disk, op: Op,
                            p: Path)
    requires Inv(a) && DiskOk(a, tasks, latest, start) && p in LiveTemporaries(After(a, op)) && p !in LiveTemporaries(a)
    ensures Look(start, p) == Missing
  {
    var b := After(a, op);
    var id :| id in b.uploads && b.uploads[id].tmp == p;
    StepKeepsInv(a, op);
    ContentStep(a, op, id);
    if Opens(a, op, id) {
      OpenedPathWasFree(a, op);
      assert Shown(a, p) == Expected(tasks, latest, start, p);
    }
  }

  /** A step that puts no body anywhere keeps the disk as recorded. */
  lemma QuietDisk(a: Agent, tasks: map<UploadId, Task>, latest: map<Path, UploadId>, start: Disk, op: Op)
    requires Inv(a) && DiskOk(a, tasks, latest, start) && !Puts(a, op)
    ensures DiskOk(After(a, op), tasks, Recorded(latest, a, op), start)
  {
    var b := After(a, op);
    forall p ensures Shown(b, p) == Expected(tasks, Recorded(latest, a, op), start, p) {
      UnputPath(a, tasks, latest, start, op, p);
    }
    forall p | p in LiveTemporaries(b) ensures Look(start, p) == Missing {
      if p !in LiveTemporaries(a) {
        NewTemporaryWasFree(a, tasks, latest, start, op, p);
      }
    }
  }

  lemma UnputPath(a: Agent, tasks: map<UploadId, Task>, latest: map<Path, UploadId>, start: Disk, op: Op, p: Path)
    requires Inv(a) && DiskOk(a, tasks, latest, start) && (Puts(a, op) ==> p != a.uploads[op.id].target)
    ensures Shown(After(a, op), p) == Expected(tasks, Recorded(latest, a, op), start, p)
  {
    assert Shown(a, p) == Expected(tasks, latest, start, p);
    if p in LiveTemporaries(a) && p !in LiveTemporaries(After(a, op)) {
      ReleasedIsMissing(a, op, p);
    } else {
      OnlyOwnCommitIsLeft(a, op, p);
      OthersAreShown(a, op, p);
    }
  }

  /** So does a commit: what it puts at its target is the body it records there. */
  lemma CommitDisk(a: Agent, tasks: map<UploadId, Task>, committed: set<UploadId>, latest: map<Path, UploadId>,
                   start: Disk, op: Op)
    requires Inv(a) && DiskOk(a, tasks, latest, start) && Puts(a, op) && op.id in tasks
    requires RecordsOk(tasks, committed, latest)
    requires Content(a, op.id) == tasks[op.id].job.body
    ensures DiskOk(After(a, op), tasks, Recorded(latest, a, op), start)
  {
    var b, u := After(a, op), a.uploads[op.id];
    forall p ensures Shown(b, p) == Expected(tasks, Recorded(latest, a, op), start, p) {
      if p == u.target {
        CommitIsShown(a, op);
        ShownAtTemporary(a, op.id);
        RecordedTemporary(a, tasks, committed, latest, start, op.id);
        assert UploadOk(a, op.id);
      } else {
        UnputPath(a, tasks, latest, start, op, p);
      }
    }
    forall p | p in LiveTemporaries(b) ensures Look(start, p) == Missing {
      if p !in LiveTemporaries(a) {
        NewTemporaryWasFree(a, tasks, latest, start, op, p);
      }
    }
  }

  lemma DeliverDisk(w: World, start: Disk, id: UploadId, now: Time, io: Io)
    requires WorldOk(w, start) && Enabled(w, Deliver(id, now, io))
    ensures var w' := Delivered(w, id, now, io);
      RecordsOk(w'.tasks, w'.committed, w'.latest) && DiskOk(w'.agent, w'.tasks, w'.latest, start)
  {
    var t := w.tasks[id];
    var op := OpOf(id, t.job, t.wire.value, now, io);
    var w' := Delivered(w, id, now, io);
    assert TaskOk(w, id);
    RecordTask(w.tasks, w.committed, w.latest, id, w'.tasks[id], start);
    if Puts(w.agent, op) {
      assert Content(w.agent, id) == t.job.body;
      CommitDisk(w.agent, w'.tasks, w.committed, w.latest, start, op);
    } else {
      QuietDisk(w.agent, w'.tasks, w.latest, start, op);
    }
  }

  lemma ServerStep(w: World, start: Disk, id: UploadId, t: Task)
    requires WorldOk(w, start) && id in w.tasks && t.job == w.tasks[id].job
    requires TaskOk(w.(tasks := w.tasks[id := t]), id)
    ensures WorldOk(w.(tasks := w.tasks[id := t]), start)
  {
    var w' := w.(tasks := w.tasks[id := t]);
    forall other | other in w'.tasks && other != id ensures TaskOk(w', other) {
      assert TaskOk(w, other);
    }
    RecordTask(w.tasks, w.committed, w.latest, id, t, start);
  }

  lemma ReceiveOwnTask(a: Agent, committed: set<UploadId>, id: UploadId, t: Task)
    requires TaskIs(a, committed, id, t) && t.reply.Some?
    ensures var next := OnReply(t.job, t.phase, t.reply.value);
      TaskIs(a, committed, id, Task(t.job, next.0, next.1, None))
  {
  }

  lemma ReceiveStep(w: World, start: Disk, id: UploadId)
    requires WorldOk(w, start) && Enabled(w, Receive(id))
    ensures WorldOk(Apply(w, Receive(id)), start)
  {
    assert TaskOk(w, id);
    ReceiveOwnTask(w.agent, w.committed, id, w.tasks[id]);
    ServerStep(w, start, id, Apply(w, Receive(id)).tasks[id]);
  }

  lemma StepKeepsWorldOk(w: World, start: Disk, e: Event)
    requires WorldOk(w, start) && Enabled(w, e)
    ensures WorldOk(Apply(w, e), start)
  {
    match e
    case Begin(id, job) => BeginStep(w, start, id, job);
    case Deliver(id, now, io) => DeliverStep(w, start, id, now, io);
    case Clean(now, maxAge) => CleanupStep(w, start, CleanStale(now, maxAge));
    case Disconnect => CleanupStep(w, start, DropManager);
    case Receive(id) => ReceiveStep(w, start, id);
    case _ =>
      assert TaskOk(w, e.id);
      ServerStep(w, start, e.id, Apply(w, e).tasks[e.id]);
  }

  lemma BeginStep(w: World, start: Disk, id: UploadId, job: Job)
    requires WorldOk(w, start) && Enabled(w, Begin(id, job))
    ensures WorldOk(Apply(w, Begin(id, job)), start)
  {
    var w' := Apply(w, Begin(id, job));
    forall other | other in w'.tasks ensures TaskOk(w', other) {
      if other != id {
        assert TaskOk(w, other);
      }
    }
    RecordTask(w.tasks, w.committed, w.latest, id, w'.tasks[id], start);
  }

  // ---------------------------------------------------------------- whole runs

  ghost predicate IsRun(worlds: seq<World>, events: seq<Event>) {
    && |worlds| == |events| + 1
    && worlds[0].tasks == map[] && worlds[0].committed == {} && worlds[0].latest == map[]
    && worlds[0].agent.uploads == map[] && Inv(worlds[0].agent)
    && forall i :: 0 <= i < |events| ==> Enabled(worlds[i], events[i]) && worlds[i + 1] == Apply(worlds[i], events[i])
  }

  lemma {:induction false} WorldStaysOk(worlds: seq<World>, events: seq<Event>, n: nat)
    requires IsRun(worlds, events) && n <= |events|
    ensures WorldOk(worlds[n], worlds[0].agent.disk)
  {
    if n > 0 {
      WorldStaysOk(worlds, events, n - 1);
      StepKeepsWorldOk(worlds[n - 1], worlds[0].agent.disk, events[n - 1]);
    }
  }

  /**
   At every moment the disk, own unfinished files aside, holds at each path what was there at the start or the whole
   body of one committed upload; that one's path it is, if all opens kept targets and temporary paths apart.
   */
  lemma OldOrWholeBody(worlds: seq<World>, events: seq<Event>, n: nat, p: Path)
    requires IsRun(worlds, events) && n <= |events|
    ensures var w := worlds[n];
      if p !in w.latest then Shown(w.agent, p) == Look(worlds[0].agent.disk, p) else
        var id := w.latest[p];
        && id in w.committed && id in w.tasks
        && Shown(w.agent, p) == Holds(w.tasks[id].job.body)
        && |w.tasks[id].job.body| == w.tasks[id].job.size && !w.tasks[id].job.broken
        && (ApartUpTo(worlds, events, n) ==> w.tasks[id].job.path == Some(p))
  {
    WorldStaysOk(worlds, events, n);
    var w := worlds[n];
    assert Shown(w.agent, p) == Expected(w.tasks, w.latest, worlds[0].agent.disk, p);
    if p in w.latest {
      assert TaskOk(w, w.latest[p]);
      if ApartUpTo(worlds, events, n) {
        ApartRecordsHold(worlds, events, n);
      }
    }
  }

  /** No delivered open brought a target together with a temporary path in use. */
  ghost predicate ApartUpTo(worlds: seq<World>, events: seq<Event>, n: nat)
    requires IsRun(worlds, events) && n <= |events|
  {
    forall i :: 0 <= i < n ==> DeliversApart(worlds[i], events[i])
  }

  predicate DeliversApart(w: World, e: Event) {
    e.Deliver? && e.id in w.tasks && w.tasks[e.id].wire.Some? ==>
      TargetsApart(w.agent, OpOf(e.id, w.tasks[e.id].job, w.tasks[e.id].wire.value, e.now, e.io))
  }

  /** Then every record is at the path of its own upload, and every committed upload's path has one. */
  ghost predicate ApartRecords(w: World) {
    && Sound(w.agent)
    && (forall p :: p in w.latest && w.latest[p] in w.tasks ==> w.tasks[w.latest[p]].job.path == Some(p))
    && (forall id :: id in w.committed && id in w.tasks && w.tasks[id].job.path.Some? ==>
       w.tasks[id].job.path.value in w.latest)
  }

  /** Among uploads kept apart no record is at a path that goes out of use. */
  lemma ApartKeepsRecords(w: World, start: Disk, op: Op)
    requires WorldOk(w, start) && Sound(w.agent)
    ensures forall p :: p in w.latest ==> p in Recorded(w.latest, w.agent, op)
    ensures Puts(w.agent, op) ==> Whole(w.latest, w.agent, op.id) == op.id
  {
    forall id | id in w.agent.uploads ensures w.agent.uploads[id].tmp !in w.latest {
      RecordedTemporary(w.agent, w.tasks, w.committed, w.latest, start, id);
    }
  }

  lemma ApartRecordsStep(w: World, start: Disk, e: Event)
    requires WorldOk(w, start) && Enabled(w, e) && DeliversApart(w, e) && ApartRecords(w)
    ensures ApartRecords(Apply(w, e))
  {
    match e
    case Deliver(id, now, io) => ApartRecordsDeliver(w, start, id, now, io);
    case Clean(now, maxAge) =>
      StepKeepsSound(w.agent, CleanStale(now, maxAge));
      ApartKeepsRecords(w, start, CleanStale(now, maxAge));
    case Disconnect =>
      StepKeepsSound(w.agent, DropManager);
      ApartKeepsRecords(w, start, DropManager);
    case _ =>
  }

  lemma ApartRecordsDeliver(w: World, start: Disk, id: UploadId, now: Time, io: Io)
    requires WorldOk(w, start) && Enabled(w, Deliver(id, now, io)) && ApartRecords(w)
    requires DeliversApart(w, Deliver(id, now, io))
    ensures ApartRecords(Delivered(w, id, now, io))
  {
    var op, w' := OpOf(id, w.tasks[id].job, w.tasks[id].wire.value, now, io), Delivered(w, id, now, io);
    assert TaskOk(w, id);
    StepKeepsSound(w.agent, op);
    ApartKeepsRecords(w, start, op);
    PathsStayRecorded(w, w', op, id);
  }

  lemma PathsStayRecorded(w: World, w': World, op: Op, id: UploadId)
    requires ApartRecords(w) && id in w.tasks && HalfOk(w.agent, id, w.tasks[id].job) && Sound(w'.agent)
    requires w'.latest == Recorded(w.latest, w.agent, op) && (op.Close? ==> op.id == id)
    requires w'.tasks.Keys == w.tasks.Keys && forall x :: x in w.tasks ==> w'.tasks[x].job == w.tasks[x].job
    requires w'.committed == if op.Close? && CloseError(w.agent, op).None? then w.committed + {id} else w.committed
    requires forall p :: p in w.latest ==> p in w'.latest
    requires Puts(w.agent, op) ==> Whole(w.latest, w.agent, id) == id
    ensures ApartRecords(w')
  {
    assert op.Close? && CloseError(w.agent, op).None? ==> Puts(w.agent, op);
  }

  lemma {:induction false} ApartRecordsHold(worlds: seq<World>, events: seq<Event>, n: nat)
    requires IsRun(worlds, events) && n <= |events| && ApartUpTo(worlds, events, n)
    ensures ApartRecords(worlds[n])
  {
    if n > 0 {
      ApartRecordsHold(worlds, events, n - 1);
      WorldStaysOk(worlds, events, n - 1);
      assert DeliversApart(worlds[n - 1], events[n - 1]);
      ApartRecordsStep(worlds[n - 1], worlds[0].agent.disk, events[n - 1]);
    }
  }

  /** A short, long or broken body is never committed and never reported as stored. */
  lemma IncompleteBodyIsNeverStored(worlds: seq<World>, events: seq<Event>, n: nat, id: UploadId)
    requires IsRun(worlds, events) && n <= |events| && id in worlds[n].tasks
    requires var job := worlds[n].tasks[id].job; |job.body| != job.size || job.broken
    ensures id !in worlds[n].committed && worlds[n].tasks[id].phase != Returned(Stored)
  {
    WorldStaysOk(worlds, events, n);
    assert TaskOk(worlds[n], id);
  }

  /** The target is not the own temporary path, and that path has not been committed onto. */
  predicate Unspoilt(a: Agent, id: UploadId) {
    id in a.uploads && a.uploads[id].target != a.uploads[id].tmp && Own(a, id)
  }

  /** The step that commits an upload leaves its whole body at its target exactly as a file of its own. */
  lemma CommitStep(w: World, start: Disk, e: Event, id: UploadId)
    requires WorldOk(w, start) && Enabled(w, e) && id !in w.committed && id in Apply(w, e).committed
    ensures e.Deliver? && e.id == id && id in w.tasks && w.tasks[id].job.path.Some?
    ensures Unspoilt(w.agent, id) ==>
      Shown(Apply(w, e).agent, w.tasks[id].job.path.value) == Holds(w.tasks[id].job.body)
  {
    assert TaskOk(w, id);
    var op := OpOf(id, w.tasks[id].job, w.tasks[id].wire.value, e.now, e.io);
    if Unspoilt(w.agent, id) {
      UnspoiltCommit(w.agent, op);
      assert Content(w.agent, id) == w.tasks[id].job.body;
    }
  }

  lemma UnspoiltCommit(a: Agent, op: Op)
    requires Inv(a) && op.Close? && CloseError(a, op).None? && Unspoilt(a, op.id)
    ensures Shown(After(a, op), a.uploads[op.id].target) == Holds(Content(a, op.id))
  {
    CommitIsShown(a, op);
    ShownAtTemporary(a, op.id);
    assert UploadOk(a, op.id);
  }

  lemma JobIsKept(w: World, e: Event, id: UploadId)
    requires Enabled(w, e) && id in w.tasks
    ensures id in Apply(w, e).tasks && Apply(w, e).tasks[id].job == w.tasks[id].job
  {}

  lemma {:induction false} CommitHappened(worlds: seq<World>, events: seq<Event>, n: nat, id: UploadId) returns (k: nat)
    requires IsRun(worlds, events) && n <= |events| && id in worlds[n].committed
    ensures k < n && events[k].Deliver? && events[k].id == id
    ensures id in worlds[n].tasks && worlds[n].tasks[id].job.path.Some?
    ensures Unspoilt(worlds[k].agent, id) ==>
      Shown(worlds[k + 1].agent, worlds[n].tasks[id].job.path.value) == Holds(worlds[n].tasks[id].job.body)
  {
    k := n - 1;
    var w, e := worlds[k], events[k];
    assert Enabled(w, e) && worlds[n] == Apply(w, e);
    if id in w.committed {
      k := CommitHappened(worlds, events, k, id);
    } else {
      WorldStaysOk(worlds, events, k);
      CommitStep(w, worlds[0].agent.disk, e, id);
    }
    JobIsKept(w, e, id);
  }

  /**
   A success return means that the whole body, of the declared size, was committed, and put at the target unless the
   upload was spoilt. If all opens kept targets and temporary paths apart it is still there, unless another upload has
   the same target.
   */
  lemma SuccessMeansStored(worlds: seq<World>, events: seq<Event>, n: nat, id: UploadId) returns (k: nat)
    requires IsRun(worlds, events) && n <= |events| && id in worlds[n].tasks
    requires worlds[n].tasks[id].phase == Returned(Stored)
    ensures var job := worlds[n].tasks[id].job;
      && job.path.Some? && |job.body| == job.size && !job.broken
      && k < n && events[k].Deliver? && events[k].id == id
      && (Unspoilt(worlds[k].agent, id) ==> Shown(worlds[k + 1].agent, job.path.value) == Holds(job.body))
      && (ApartUpTo(worlds, events, n)
          && (forall other :: other in worlds[n].tasks && other != id ==>
             worlds[n].tasks[other].job.path != job.path) ==>
            Shown(worlds[n].agent, job.path.value) == Holds(job.body))
  {
    WorldStaysOk(worlds, events, n);
    var w, path := worlds[n], worlds[n].tasks[id].job.path.value;
    assert TaskOk(w, id);
    k := CommitHappened(worlds, events, n, id);
    if ApartUpTo(worlds, events, n) {
      ApartRecordsHold(worlds, events, n);
      assert Shown(w.agent, path) == Expected(w.tasks, w.latest, worlds[0].agent.disk, path);
    }
  }

  // ---------------------------------------------------------------- the server's loop

  /** The agent has done nothing but take `offset` bytes of the body into this upload's temporary file. */
  ghost predicate Progress(a: Agent, start: Agent, id: UploadId, job: Job, offset: nat) {
    && Inv(a) && HalfOk(a, id, job) && WrittenIs(a, id, offset) && Kept(a, id)
    && forall p :: Visible(a, p) == Visible(start, p)
  }

  /** The upload's temporary path is the one it was opened with, and its own. */
  predicate Kept(a: Agent, id: UploadId) {
    id in a.uploads ==>
      var u := a.uploads[id];
      u.target.Child? && u.tmp == TmpPath(u.target.parent, id) && Own(a, id)
  }

  predicate OwnName(id: UploadId, path: Path) {
    path.Child? && path == TmpPath(path.parent, id)
  }

  /**
   The whole body is at the path, unless that has the name of the upload's own temporary file; nothing else has
   changed.
   */
  ghost predicate Committed(a: Agent, start: Agent, id: UploadId, path: Path, body: Bytes) {
    && Inv(a) && Look(a.disk, path) == (if OwnName(id, path) then Missing else Holds(body))
    && forall p :: p != path ==> Visible(a, p) == Visible(start, p)
  }

  lemma DeliveredChunk(a: Agent, start: Agent, id: UploadId, job: Job, offset: nat, op: Op)
    requires Progress(a, start, id, job, offset) && op.Write? && op.id == id && op.offset == offset
    requires offset + |op.chunk| <= |job.body| && op.chunk == job.body[offset..offset + |op.chunk|]
    ensures Answer(a, op).Ack? ==> Progress(After(a, op), start, id, job, offset + |op.chunk|)
    ensures !Answer(a, op).Ack? ==> Progress(After(a, op), start, id, job, offset)
  {
    StepKeepsInv(a, op);
    if id in After(a, op).uploads {
      ChunkTaken(a, id, op);
    }
  }

  lemma ChunkTaken(a: Agent, id: UploadId, op: Op)
    requires Inv(a) && op.Write? && op.id == id && id in After(a, op).uploads && Kept(a, id)
    ensures Answer(a, op).Ack? && id in a.uploads && Kept(After(a, op), id)
    ensures After(a, op).uploads[id].target == a.uploads[id].target
    ensures After(a, op).uploads[id].written == a.uploads[id].written + |op.chunk|
    ensures Content(After(a, op), id) == Content(a, id) + op.chunk
  {
    ContentStep(a, op, id);
    TemporaryStep(a, op, id);
  }

  lemma DeliveredClose(a: Agent, start: Agent, id: UploadId, job: Job, op: Op)
    requires Progress(a, start, id, job, |job.body|) && op.Close? && op.id == id && op.total == job.size
    ensures Answer(a, op).Written? ==>
      job.path.Some? && |job.body| == job.size && Committed(After(a, op), start, id, job.path.value, job.body)
    ensures !Answer(a, op).Written? ==> Progress(After(a, op), start, id, job, |job.body|)
  {
    StepKeepsInv(a, op);
    if CloseError(a, op).None? {
      CommitNames(a, op);
      assert UploadOk(a, id);
    }
  }

  /**
   Sends one request; the agent may clean up first, the request may never arrive, its reply may never come back.
   `calm` says that nothing of the kind happened and the agent's disk worked.
   */
  method RoundTrip(agent: UploadManager, id: UploadId, job: Job, request: Request)
    returns (reply: Option<Reply>, ghost arrived: Option<Op>, ghost before: Agent, ghost calm: bool)
    modifies agent
    ensures calm ==>
      before == old(agent.State()) && reply.Some? && exists now :: arrived == Some(OpOf(id, job, request, now, Works))
    ensures before == old(agent.State()) || exists now, age :: before == After(old(agent.State()), CleanStale(now, age))
    ensures arrived.Some? ==> exists now, io :: arrived.value == OpOf(id, job, request, now, io)
    ensures agent.State() == if arrived.Some? then After(before, arrived.value) else before
    ensures reply.Some? ==> arrived.Some? && reply.value == Answer(before, arrived.value)
  {
    ghost var cleanedUp := false;
    if * {
      var now: Time, age: nat := *, *;
      var cleaned := agent.CleanupStale(now, age);
      cleanedUp := true;
    }
    before, arrived, reply, calm := agent.State(), None, None, false;
    if * {
      var now: Time, io: Io := *, *;
      arrived := Some(OpOf(id, job, request, now, io));
      var answer;
      match request {
        case OpenRequest => answer := agent.OpenUpload(id, job.path, job.overwrite, now, io);
        case ChunkRequest(offset, data) => answer := agent.WriteChunk(id, offset, data, now, io);
        case CloseRequest(total) => answer := agent.CloseUpload(id, total, io);
      }
      if * {
        reply := Some(answer);
        calm := !cleanedUp && io.Works?;
      }
    }
  }

  lemma CleanedProgress(a: Agent, b: Agent, start: Agent, id: UploadId, job: Job, offset: nat)
    requires Progress(a, start, id, job, offset)
    requires b == a || exists now, age :: b == After(a, CleanStale(now, age))
    ensures Progress(b, start, id, job, offset)
    ensures id !in a.uploads ==> id !in b.uploads
  {
    if b != a {
      var now, age :| b == After(a, CleanStale(now, age));
      var clean := CleanStale(now, age);
      StepKeepsInv(a, clean);
      if id in b.uploads {
        ContentStep(a, clean, id);
        TemporaryStep(a, clean, id);
      }
    }
  }

  /** Nothing that is seen anywhere has changed. */
  ghost predicate Unseen(a: Agent, start: Agent) {
    Inv(a) && forall p :: Visible(a, p) == Visible(start, p)
  }

  /** What the agent finds on its disk lets this upload be opened. */
  predicate Openable(a: Agent, id: UploadId, job: Job) {
    OpenError(a, Open(id, job.path, job.overwrite, 0, Works)).None?
  }

  predicate TargetIsNoDirectory(a: Agent, job: Job) {
    job.path.Some? ==> !Visible(a, job.path.value).Dir?
  }

  lemma OpenedProgress(a: Agent, start: Agent, id: UploadId, job: Job, op: Op)
    requires Progress(a, start, id, job, 0) && id !in a.uploads && op.Open? && op.id == id && op.path == job.path
    ensures Progress(After(a, op), start, id, job, 0)
  {
    StepKeepsInv(a, op);
    if OpenError(a, op).None? {
      CreatedThenReplaced(a, op);
      ContentStep(a, op, id);
      TemporaryStep(a, op, id);
    }
  }

  method SendOpen(agent: UploadManager, id: UploadId, job: Job) returns (reply: Option<Reply>, ghost calm: bool)
    requires Inv(agent.State()) && id !in agent.uploads
    modifies agent
    ensures Progress(agent.State(), old(agent.State()), id, job, 0)
    ensures calm && Openable(old(agent.State()), id, job) ==>
      reply == Some(Opened) && id in agent.uploads && TargetIsNoDirectory(old(agent.State()), job)
    ensures calm && !Openable(old(agent.State()), id, job) ==>
      reply.Some? && reply.value != Opened && id !in agent.uploads
  {
    ghost var start := agent.State();
    ghost var arrived, before;
    reply, arrived, before, calm := RoundTrip(agent, id, job, OpenRequest);
    CleanedProgress(start, before, start, id, job, 0);
    if arrived.Some? {
      OpenedProgress(before, start, id, job, arrived.value);
    }
  }

  method SendChunk(agent: UploadManager, id: UploadId, job: Job, offset: nat, n: nat, ghost start: Agent)
    returns (reply: Option<Reply>, ghost calm: bool)
    requires Progress(agent.State(), start, id, job, offset) && offset + n <= |job.body|
    modifies agent
    ensures Unseen(agent.State(), start)
    ensures reply.Some? && reply.value.Ack? ==> Progress(agent.State(), start, id, job, offset + n)
    ensures calm && id in old(agent.uploads) ==> reply.Some? && reply.value.Ack? && id in agent.uploads
  {
    ghost var sent := agent.State();
    ghost var arrived, before;
    reply, arrived, before, calm := RoundTrip(agent, id, job, ChunkRequest(offset, job.body[offset..offset + n]));
    CleanedProgress(sent, before, start, id, job, offset);
    if arrived.Some? {
      DeliveredChunk(before, start, id, job, offset, arrived.value);
    }
  }

  lemma CloseAccepted(a: Agent, start: Agent, id: UploadId, job: Job)
    requires Progress(a, start, id, job, |job.body|) && id in a.uploads && |job.body| == job.size
    requires TargetIsNoDirectory(start, job)
    ensures CloseError(a, Close(id, job.size, Works)).None?
  {
    var target := job.path.value;
    assert UploadOk(a, id);
    if x :| x in a.uploads && a.uploads[x].tmp == target {
      assert UploadOk(a, x);
    } else {
      assert Visible(a, target) == Visible(start, target);
    }
  }

  method SendClose(agent: UploadManager, id: UploadId, job: Job, ghost start: Agent)
    returns (reply: Option<Reply>, ghost calm: bool)
    requires Progress(agent.State(), start, id, job, |job.body|)
    modifies agent
    ensures Unseen(agent.State(), start)
         || (job.path.Some? && |job.body| == job.size && Committed(agent.State(), start, id, job.path.value, job.body))
    ensures reply.Some? && reply.value.Written? ==>
      job.path.Some? && |job.body| == job.size && Committed(agent.State(), start, id, job.path.value, job.body)
    ensures calm && id in old(agent.uploads) && |job.body| == job.size && TargetIsNoDirectory(start, job) ==>
      reply == Some(Written)
    ensures calm ==> id !in agent.uploads
  {
    ghost var sent := agent.State();
    ghost var arrived, before;
    reply, arrived, before, calm := RoundTrip(agent, id, job, CloseRequest(job.size));
    CleanedProgress(sent, before, start, id, job, |job.body|);
    if arrived.Some? {
      DeliveredClose(before, start, id, job, arrived.value);
      if calm && id in sent.uploads && |job.body| == job.size && TargetIsNoDirectory(start, job) {
        CloseAccepted(sent, start, id, job);
      }
    }
  }

  /**
   The upload loop against one agent, whatever else that holds. The target is replaced whole or not at all, nothing else
   changes, and a success return means it was replaced by the whole body, or emptied if it had the name of the upload's
   own temporary file. If no round trip was disturbed, the result is decided by the agent's disk and the body alone, and
   nothing stays live at the agent unless the reader failed.
   */
  method Upload(agent: UploadManager, id: UploadId, job: Job) returns (result: Result, ghost calm: bool)
    requires Inv(agent.State()) && id !in agent.uploads && job.chunkSize > 0
    modifies agent
    ensures result.Stored? ==>
      && job.path.Some? && |job.body| == job.size && !job.broken
      && Committed(agent.State(), old(agent.State()), id, job.path.value, job.body)
    ensures !result.Stored? ==>
      || Unseen(agent.State(), old(agent.State()))
      || (job.path.Some? && |job.body| == job.size && !job.broken
          && Committed(agent.State(), old(agent.State()), id, job.path.value, job.body))
    ensures calm ==>
      result == if !Openable(old(agent.State()), id, job) then Failed(AgentRefused)
                else if job.broken then Failed(ReaderFailed)
                else if |job.body| == job.size then Stored
                else Failed(Truncated)
    ensures calm ==> (id in agent.uploads <==> result == Failed(ReaderFailed))
  {
    ghost var start := agent.State();
    ghost var openable := Openable(agent.State(), id, job);
    var offset := 0;
    var reply;
    reply, calm := SendOpen(agent, id, job);
    if reply.None? {
      return Failed(GaveUp), calm;
    }
    if !reply.value.Opened? {
      return Failed(AgentRefused), calm;
    }
    while true
      invariant offset <= |job.body| && Progress(agent.State(), start, id, job, offset)
      invariant calm ==> openable && id in agent.uploads && TargetIsNoDirectory(start, job)
      decreases |job.body| - offset
    {
      var n := ReadSize(job, offset);
      if n > 0 {
        ghost var undisturbed;
        reply, undisturbed := SendChunk(agent, id, job, offset, n, start);
        calm := calm && undisturbed;
        if reply.None? {
          return Failed(GaveUp), calm;
        }
        if !reply.value.Ack? {
          return Failed(AgentRefused), calm;
        }
        offset := offset + n;
      }
      if n < job.chunkSize {
        if job.broken {
          return Failed(ReaderFailed), calm;
        }
        break;
      }
    }
    assert offset == |job.body|;
    ghost var undisturbed;
    reply, undisturbed := SendClose(agent, id, job, start);
    calm := calm && undisturbed;
    if offset != job.size {
      return Failed(Truncated), calm;
    }
    if reply.None? {
      return Failed(GaveUp), calm;
    }
    result := if reply.value.Written? then Stored else Failed(AgentRefused);
  }
}
