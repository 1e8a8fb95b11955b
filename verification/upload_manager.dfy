/**
 The agent's side of an upload: chunks go to a temporary file that is renamed over the target on close.

 A path names an inode and an open upload keeps its inode, so renaming a file over another
 upload's temporary file behaves as it does on disk.
 */
module UploadManagers {
  import opened Wrappers

  type Bytes = seq<bv8>
  type UploadId = string
  type Time = nat

  datatype Path = Root | Child(parent: Path, name: string)

  datatype Node = Directory | File(inode: nat) | Special

  datatype Disk = Disk(names: map<Path, Node>, data: seq<Bytes>)

  datatype Upload = Upload(inode: nat, tmp: Path, target: Path, written: nat, lastActivity: Time)

  datatype Agent = Agent(disk: Disk, uploads: map<UploadId, Upload>)

  datatype Error = NotFound | PermissionDenied | NotAFile | NotADirectory | AlreadyExists | InvalidPath
    | InvalidRequest | IoError

  datatype Reply = Opened | Ack(offset: nat) | Written | Refused(error: Error)

  /** What the file system call of an operation does; a failed write may have stored a part of the data. */
  datatype Io = Works | Fails(kept: nat, error: Error)

  datatype Op =
    | Open(id: UploadId, path: Option<Path>, overwrite: bool, now: Time, io: Io)
    | Write(id: UploadId, offset: nat, chunk: Bytes, now: Time, io: Io)
    | Close(id: UploadId, total: nat, io: Io)
    | CleanStale(now: Time, maxAge: nat)
    | DropManager

  const PREFIX := ".vibe-upload-"
  const SUFFIX := ".tmp"

  function TmpPath(parent: Path, id: UploadId): Path {
    Child(parent, PREFIX + id + SUFFIX)
  }

  // ---------------------------------------------------------------- operations as functions

  /** Removing a file; directories and missing names are left alone. */
  function RemoveFile(disk: Disk, p: Path): Disk {
    if p in disk.names && !disk.names[p].Directory? then disk.(names := disk.names - {p}) else disk
  }

  function RemoveFiles(disk: Disk, ps: set<Path>): Disk {
    disk.(names := disk.names - (set p | p in ps && p in disk.names && !disk.names[p].Directory?))
  }

  /** Forgetting an upload removes its temporary file. */
  function Dropped(a: Agent, ids: set<UploadId>): Agent {
    Agent(RemoveFiles(a.disk, set id | id in ids && id in a.uploads :: a.uploads[id].tmp), a.uploads - ids)
  }

  function OpenError(a: Agent, op: Op): Option<Error>
    requires op.Open?
  {
    var names := a.disk.names;
    if op.path.None? || op.path.value.Root? then Some(InvalidPath)
    else
      var target := op.path.value;
      if target.parent !in names then Some(NotFound)
      else if !names[target.parent].Directory? then Some(NotADirectory)
      else if target in names && names[target].Directory? then Some(NotAFile)
      else if !op.overwrite && target in names then Some(AlreadyExists)
      else if TmpPath(target.parent, op.id) in names then Some(IoError)
      else if op.io.Fails? then Some(op.io.error)
      else None
  }

  function AfterOpen(a: Agent, op: Op): Agent
    requires op.Open? && OpenError(a, op).None?
  {
    var target := op.path.value;
    var tmp := TmpPath(target.parent, op.id);
    var inode := |a.disk.data|;
    var created := a.(disk := Disk(a.disk.names[tmp := File(inode)], a.disk.data + [[]]));
    var replaced := Dropped(created, {op.id});
    replaced.(uploads := replaced.uploads[op.id := Upload(inode, tmp, target, 0, op.now)])
  }

  function Appended(disk: Disk, inode: nat, chunk: Bytes): Disk {
    if inode < |disk.data| then disk.(data := disk.data[inode := disk.data[inode] + chunk]) else disk
  }

  function WriteError(a: Agent, op: Op): Option<Error>
    requires op.Write?
  {
    if op.id !in a.uploads then Some(NotFound)
    else if op.offset != a.uploads[op.id].written then Some(InvalidRequest)
    else if op.io.Fails? then Some(IoError)
    else None
  }

  /** The upload after a chunk has been written. */
  function Taken(a: Agent, id: UploadId, chunk: Bytes, now: Time): Agent
    requires id in a.uploads
  {
    var u := a.uploads[id];
    Agent(Appended(a.disk, u.inode, chunk), a.uploads[id := u.(written := u.written + |chunk|, lastActivity := now)])
  }

  function AfterWrite(a: Agent, op: Op): Agent
    requires op.Write?
  {
    if op.id !in a.uploads then a
    else
      var u := a.uploads[op.id];
      if op.offset != u.written then Dropped(a, {op.id})
      else if op.io.Fails? then
        Dropped(a.(disk := Appended(a.disk, u.inode, if op.io.kept < |op.chunk| then op.chunk[..op.io.kept]
          else op.chunk)), {op.id})
      else Taken(a, op.id, op.chunk, op.now)
  }

  function CloseError(a: Agent, op: Op): Option<Error>
    requires op.Close?
  {
    if op.id !in a.uploads then Some(NotFound)
    else
      var u := a.uploads[op.id];
      if u.written != op.total then Some(InvalidRequest)
      else if op.io.Fails? then Some(op.io.error)
      else if u.tmp !in a.disk.names then Some(NotFound)
      else if u.target in a.disk.names && a.disk.names[u.target].Directory? then Some(IoError)
      else None
  }

  /** Renaming a file to itself changes nothing. */
  function Renamed(disk: Disk, from: Path, to: Path): Disk
    requires from in disk.names
  {
    if from == to then disk else disk.(names := (disk.names - {from})[to := disk.names[from]])
  }

  function AfterClose(a: Agent, op: Op): Agent
    requires op.Close?
  {
    if op.id !in a.uploads then a
    else if CloseError(a, op).Some? then Dropped(a, {op.id})
    else
      var u := a.uploads[op.id];
      Dropped(a.(disk := Renamed(a.disk, u.tmp, u.target)), {op.id})
  }

  function StaleIds(a: Agent, now: Time, maxAge: nat): set<UploadId> {
    set id | id in a.uploads && now - a.uploads[id].lastActivity >= maxAge
  }

  function After(a: Agent, op: Op): Agent {
    match op
    case Open(_, _, _, _, _) => if OpenError(a, op).None? then AfterOpen(a, op) else a
    case Write(_, _, _, _, _) => AfterWrite(a, op)
    case Close(_, _, _) => AfterClose(a, op)
    case CleanStale(now, maxAge) => Dropped(a, StaleIds(a, now, maxAge))
    case DropManager => Dropped(a, a.uploads.Keys)
  }

  function Answer(a: Agent, op: Op): Reply {
    match op
    case Open(_, _, _, _, _) => (match OpenError(a, op) case None => Opened case Some(e) => Refused(e))
    case Write(id, offset, chunk, _, _) =>
      (match WriteError(a, op) case None => Ack(offset + |chunk|) case Some(e) => Refused(e))
    case Close(_, _, _) => (match CloseError(a, op) case None => Written case Some(e) => Refused(e))
    case _ => Opened
  }

  // ---------------------------------------------------------------- operations as code

  class UploadManager {
    var disk: Disk
    var uploads: map<UploadId, Upload>

    function State(): Agent
      reads this
    {
      Agent(disk, uploads)
    }

    constructor (disk: Disk)
      ensures State() == Agent(disk, map[])
    {
      this.disk := disk;
      uploads := map[];
    }

    /** Forgets one upload; its destructor removes the temporary file. */
    method Abort(id: UploadId)
      modifies this
      ensures State() == Dropped(old(State()), {id})
    {
      if id in uploads {
        var u := uploads[id];
        uploads := uploads - {id};
        disk := RemoveFile(disk, u.tmp);
      } else {
        assert uploads - {id} == uploads && disk.names - {} == disk.names;
      }
    }

    method OpenUpload(id: UploadId, path: Option<Path>, overwrite: bool, now: Time, io: Io) returns (r: Reply)
      modifies this
      ensures State() == After(old(State()), Open(id, path, overwrite, now, io))
      ensures r == Answer(old(State()), Open(id, path, overwrite, now, io))
    {
      if path.None? || path.value.Root? {
        return Refused(InvalidPath);
      }
      var target := path.value;
      if target.parent !in disk.names {
        return Refused(NotFound);
      }
      if !disk.names[target.parent].Directory? {
        return Refused(NotADirectory);
      }
      if target in disk.names && disk.names[target].Directory? {
        return Refused(NotAFile);
      }
      if !overwrite && target in disk.names {
        return Refused(AlreadyExists);
      }
      var tmp := TmpPath(target.parent, id);
      if tmp in disk.names {
        return Refused(IoError);
      }
      if io.Fails? {
        return Refused(io.error);
      }
      var inode := |disk.data|;
      disk := Disk(disk.names[tmp := File(inode)], disk.data + [[]]);
      if id in uploads {
        Abort(id); // the insert drops the upload it replaces
      } else {
        assert uploads - {id} == uploads && disk.names - {} == disk.names;
      }
      uploads := uploads[id := Upload(inode, tmp, target, 0, now)];
      r := Opened;
    }

    method WriteChunk(id: UploadId, offset: nat, chunk: Bytes, now: Time, io: Io) returns (r: Reply)
      modifies this
      ensures State() == After(old(State()), Write(id, offset, chunk, now, io))
      ensures r == Answer(old(State()), Write(id, offset, chunk, now, io))
    {
      if id !in uploads {
        return Refused(NotFound);
      }
      var u := uploads[id];
      if offset != u.written {
        r := Refused(InvalidRequest);
      } else if io.Fails? {
        disk := Appended(disk, u.inode, if io.kept < |chunk| then chunk[..io.kept] else chunk);
        r := Refused(IoError);
      } else {
        disk := Appended(disk, u.inode, chunk);
        u := u.(written := u.written + |chunk|, lastActivity := now);
        uploads := uploads[id := u];
        r := Ack(u.written);
      }
      if r.Refused? {
        Abort(id);
      }
    }

    method CloseUpload(id: UploadId, total: nat, io: Io) returns (r: Reply)
      modifies this
      ensures State() == After(old(State()), Close(id, total, io))
      ensures r == Answer(old(State()), Close(id, total, io))
    {
      if id !in uploads {
        return Refused(NotFound);
      }
      var u := uploads[id];
      uploads := uploads - {id};
      if u.written != total {
        r := Refused(InvalidRequest);
      } else if io.Fails? {
        r := Refused(io.error);
      } else if u.tmp !in disk.names {
        r := Refused(NotFound);
      } else if u.target in disk.names && disk.names[u.target].Directory? {
        r := Refused(IoError);
      } else {
        disk := Renamed(disk, u.tmp, u.target);
        r := Written;
      }
      disk := RemoveFile(disk, u.tmp); // the destructor runs on every path
    }

    method CleanupStale(now: Time, maxAge: nat) returns (count: nat)
      modifies this
      ensures State() == After(old(State()), CleanStale(now, maxAge))
      ensures count == |StaleIds(old(State()), now, maxAge)|
    {
      var stale := StaleIds(State(), now, maxAge);
      count := |stale|;
      var rest := stale;
      while rest != {}
        invariant rest <= stale <= old(uploads).Keys
        invariant State() == Dropped(old(State()), stale - rest)
        decreases rest
      {
        var id :| id in rest;
        ghost var gone := stale - rest;
        rest := rest - {id};
        DropOneMore(old(State()), gone, id);
        assert gone + {id} == stale - rest;
        Abort(id);
      }
      assert stale - {} == stale;
    }
  }

  lemma DropOneMore(a: Agent, ids: set<UploadId>, id: UploadId)
    ensures Dropped(Dropped(a, ids), {id}) == Dropped(a, ids + {id})
  {
  }

  // ---------------------------------------------------------------- the state of an agent

  /** The name of an upload's temporary file, in whatever directory. */
  predicate NamedFor(p: Path, id: UploadId) {
    p.Child? && p.name == PREFIX + id + SUFFIX
  }

  lemma NamedForOne(p: Path, x: UploadId, y: UploadId)
    requires NamedFor(p, x) && NamedFor(p, y)
    ensures x == y
  {
    assert p.name[|PREFIX|..|p.name| - |SUFFIX|] == x;
    assert p.name[|PREFIX|..|p.name| - |SUFFIX|] == y;
  }

  /**
   A live upload's own file has no name other than its temporary path. That path names a file, but not always its
   own: another upload may have been renamed over it.
   */
  predicate UploadOk(a: Agent, id: UploadId)
    requires id in a.uploads
  {
    var u := a.uploads[id];
    && u.inode < |a.disk.data| && |a.disk.data[u.inode]| == u.written
    && NamedFor(u.tmp, id) && u.tmp in a.disk.names && a.disk.names[u.tmp].File?
    && (forall p :: p in a.disk.names && a.disk.names[p] == File(u.inode) ==> p == u.tmp)
  }

  ghost predicate Inv(a: Agent) {
    && (forall p :: p in a.disk.names && a.disk.names[p].File? ==> a.disk.names[p].inode < |a.disk.data|)
    && (forall id :: id in a.uploads ==> UploadOk(a, id))
    && (forall x, y :: x in a.uploads && y in a.uploads && x != y ==> a.uploads[x].inode != a.uploads[y].inode)
  }

  lemma OneTemporaryEach(a: Agent, x: UploadId, y: UploadId)
    requires x in a.uploads && y in a.uploads && UploadOk(a, x) && UploadOk(a, y)
    requires a.uploads[x].tmp == a.uploads[y].tmp
    ensures x == y
  {
    NamedForOne(a.uploads[x].tmp, x, y);
  }

  datatype View = Missing | Dir | Other | Holds(bytes: Bytes)

  /** What a reader finds at a path. */
  function Look(disk: Disk, p: Path): View {
    if p !in disk.names then Missing
    else match disk.names[p]
      case Directory => Dir
      case Special => Other
      case File(inode) => if inode < |disk.data| then Holds(disk.data[inode]) else Other
  }

  function LiveTemporaries(a: Agent): set<Path> {
    set id | id in a.uploads :: a.uploads[id].tmp
  }

  /** The same, but for temporary files in use. */
  function Visible(a: Agent, p: Path): View {
    if p in LiveTemporaries(a) then Missing else Look(a.disk, p)
  }

  /** The paths a close may change: the target of an upload that closes without an error. */
  predicate Commits(a: Agent, op: Op, p: Path) {
    op.Close? && CloseError(a, op).None? && a.uploads[op.id].target == p
  }

  lemma DropKeepsInv(a: Agent, ids: set<UploadId>)
    requires Inv(a)
    ensures Inv(Dropped(a, ids))
    ensures forall p :: Visible(Dropped(a, ids), p) == Visible(a, p)
  {
    var b := Dropped(a, ids);
    forall id | id in b.uploads ensures UploadOk(b, id) {
      assert UploadOk(a, id);
      forall other | other in ids && other in a.uploads ensures a.uploads[other].tmp != a.uploads[id].tmp {
        if a.uploads[other].tmp == a.uploads[id].tmp {
          OneTemporaryEach(a, other, id);
        }
      }
    }
    forall p ensures Visible(b, p) == Visible(a, p) {
      DropShows(a, ids, p);
    }
  }

  lemma DropShows(a: Agent, ids: set<UploadId>, p: Path)
    requires Inv(a)
    ensures Visible(Dropped(a, ids), p) == Visible(a, p)
  {
    if id :| id in a.uploads && a.uploads[id].tmp == p {
      assert UploadOk(a, id);
      if id !in ids {
        assert id in Dropped(a, ids).uploads;
      }
    }
  }

  lemma NewUpload(a: Agent, id: UploadId, tmp: Path, target: Path, now: Time)
    requires Inv(a) && id !in a.uploads && tmp !in a.disk.names && NamedFor(tmp, id)
    ensures var inode := |a.disk.data|;
      var b := Agent(Disk(a.disk.names[tmp := File(inode)], a.disk.data + [[]]),
        a.uploads[id := Upload(inode, tmp, target, 0, now)]);
      Inv(b) && forall p :: Visible(b, p) == Visible(a, p)
  {
    var inode := |a.disk.data|;
    var b := Agent(Disk(a.disk.names[tmp := File(inode)], a.disk.data + [[]]),
      a.uploads[id := Upload(inode, tmp, target, 0, now)]);
    forall other | other in b.uploads ensures UploadOk(b, other) {
      if other != id {
        assert UploadOk(a, other);
      }
    }
    forall x | x in a.uploads ensures a.uploads[x].inode < inode {
      assert UploadOk(a, x);
    }
    assert LiveTemporaries(b) == LiveTemporaries(a) + {tmp} by {
      assert b.uploads[id].tmp == tmp;
      assert forall x :: x in a.uploads ==> x in b.uploads && b.uploads[x] == a.uploads[x];
    }
    assert tmp !in LiveTemporaries(a) by {
      assert forall x :: x in a.uploads ==> UploadOk(a, x);
    }
  }

  /**
   A replaced upload's temporary file is not the new one, so it makes no difference which is removed or made first.
   */
  lemma CreatedThenReplaced(a: Agent, op: Op)
    requires Inv(a) && op.Open? && OpenError(a, op).None?
    ensures var target, r := op.path.value, Dropped(a, {op.id});
      var tmp, inode := TmpPath(target.parent, op.id), |a.disk.data|;
      AfterOpen(a, op) == Agent(Disk(r.disk.names[tmp := File(inode)], r.disk.data + [[]]),
                                r.uploads[op.id := Upload(inode, tmp, target, 0, op.now)])
  {
  }

  lemma OpenStep(a: Agent, op: Op)
    requires Inv(a) && op.Open?
    ensures Inv(After(a, op))
    ensures forall p :: Visible(After(a, op), p) == Visible(a, p)
  {
    if OpenError(a, op).None? {
      var target := op.path.value;
      DropKeepsInv(a, {op.id});
      CreatedThenReplaced(a, op);
      NewUpload(Dropped(a, {op.id}), op.id, TmpPath(target.parent, op.id), target, op.now);
    }
  }

  lemma AppendStep(a: Agent, id: UploadId, chunk: Bytes, now: Time)
    requires Inv(a) && id in a.uploads
    ensures Inv(Taken(a, id, chunk, now))
    ensures forall p :: Visible(Taken(a, id, chunk, now), p) == Visible(a, p)
  {
    var b := Taken(a, id, chunk, now);
    assert UploadOk(a, id);
    forall other | other in b.uploads ensures UploadOk(b, other) {
      assert UploadOk(a, other);
    }
    forall p ensures Visible(b, p) == Visible(a, p) {
      AppendShows(a, id, chunk, now, p);
    }
  }

  lemma AppendShows(a: Agent, id: UploadId, chunk: Bytes, now: Time, p: Path)
    requires id in a.uploads && UploadOk(a, id)
    ensures Visible(Taken(a, id, chunk, now), p) == Visible(a, p)
  {
    assert LiveTemporaries(Taken(a, id, chunk, now)) == LiveTemporaries(a) by {
      assert forall x :: x in a.uploads ==> Taken(a, id, chunk, now).uploads[x].tmp == a.uploads[x].tmp;
    }
    assert a.uploads[id].tmp in LiveTemporaries(a);
  }

  /** A failed write ends as the upload would after a shorter write, with the upload forgotten. */
  lemma FailedWriteIsShortWriteDropped(a: Agent, op: Op, part: Bytes)
    requires op.Write? && op.id in a.uploads && op.offset == a.uploads[op.id].written && op.io.Fails?
    requires part == if op.io.kept < |op.chunk| then op.chunk[..op.io.kept] else op.chunk
    ensures After(a, op) == Dropped(Taken(a, op.id, part, op.now), {op.id})
  {
  }

  lemma FailedWrite(a: Agent, op: Op)
    requires Inv(a) && op.Write? && op.id in a.uploads && op.offset == a.uploads[op.id].written && op.io.Fails?
    ensures Inv(After(a, op))
    ensures forall p :: Visible(After(a, op), p) == Visible(a, p)
  {
    var part := if op.io.kept < |op.chunk| then op.chunk[..op.io.kept] else op.chunk;
    FailedWriteIsShortWriteDropped(a, op, part);
    AppendStep(a, op.id, part, op.now);
    DropKeepsInv(Taken(a, op.id, part, op.now), {op.id});
  }

  lemma WriteStep(a: Agent, op: Op)
    requires Inv(a) && op.Write?
    ensures Inv(After(a, op))
    ensures forall p :: Visible(After(a, op), p) == Visible(a, p)
  {
    if op.id in a.uploads {
      if op.offset != a.uploads[op.id].written {
        DropKeepsInv(a, {op.id});
      } else if op.io.Fails? {
        FailedWrite(a, op);
      } else {
        AppendStep(a, op.id, op.chunk, op.now);
      }
    }
  }

  /** A commit moves whatever file the temporary path names; renamed onto itself, it is removed. */
  lemma CommitNames(a: Agent, op: Op)
    requires Inv(a) && op.Close? && CloseError(a, op).None?
    ensures var u := a.uploads[op.id];
      After(a, op) == Agent(a.disk.(names := if u.target == u.tmp then a.disk.names - {u.tmp}
                                             else (a.disk.names - {u.tmp})[u.target := a.disk.names[u.tmp]]),
                                               a.uploads - {op.id})
  {
  }

  lemma CommitKeepsUpload(a: Agent, op: Op, id: UploadId)
    requires Inv(a) && op.Close? && CloseError(a, op).None? && id in a.uploads && id != op.id
    ensures UploadOk(After(a, op), id) && a.uploads[id].tmp != a.uploads[op.id].tmp
  {
    var u := a.uploads[op.id];
    assert UploadOk(a, op.id) && UploadOk(a, id);
    if a.uploads[id].tmp == u.tmp {
      OneTemporaryEach(a, id, op.id);
    }
    CommitNames(a, op);
    assert a.disk.names[u.tmp] != File(a.uploads[id].inode);
  }

  lemma CommitShows(a: Agent, op: Op, p: Path)
    requires Inv(a) && op.Close? && CloseError(a, op).None? && p != a.uploads[op.id].target
    ensures Visible(After(a, op), p) == Visible(a, p)
  {
    var u, b := a.uploads[op.id], After(a, op);
    CommitNames(a, op);
    if id :| id in a.uploads && a.uploads[id].tmp == p {
      if id != op.id {
        assert id in b.uploads && b.uploads[id].tmp == p;
      } else {
        forall x | x in b.uploads ensures b.uploads[x].tmp != p {
          CommitKeepsUpload(a, op, x);
        }
      }
    }
  }

  lemma CloseStep(a: Agent, op: Op)
    requires Inv(a) && op.Close?
    ensures Inv(After(a, op))
    ensures forall p :: !Commits(a, op, p) ==> Visible(After(a, op), p) == Visible(a, p)
  {
    if op.id in a.uploads {
      if CloseError(a, op).Some? {
        DropKeepsInv(a, {op.id});
      } else {
        var b := After(a, op);
        CommitNames(a, op);
        forall id | id in b.uploads ensures UploadOk(b, id) {
          CommitKeepsUpload(a, op, id);
        }
        forall p | !Commits(a, op, p) ensures Visible(b, p) == Visible(a, p) {
          CommitShows(a, op, p);
        }
      }
    }
  }

  /**
   What every request, cleanup and disconnect keeps, whatever its target; only a completed close changes what is
   seen at a path.
   */
  lemma StepKeepsInv(a: Agent, op: Op)
    requires Inv(a)
    ensures Inv(After(a, op))
    ensures forall p :: !Commits(a, op, p) ==> Visible(After(a, op), p) == Visible(a, p)
  {
    match op
    case Open(_, _, _, _, _) => OpenStep(a, op);
    case Write(_, _, _, _, _) => WriteStep(a, op);
    case Close(_, _, _) => CloseStep(a, op);
    case CleanStale(now, maxAge) => DropKeepsInv(a, StaleIds(a, now, maxAge));
    case DropManager => DropKeepsInv(a, a.uploads.Keys);
  }

  // ---------------------------------------------------------------- what one upload takes in

  predicate Opens(a: Agent, op: Op, id: UploadId) {
    op.Open? && op.id == id && Answer(a, op).Opened?
  }

  predicate Acknowledges(a: Agent, op: Op, id: UploadId) {
    op.Write? && op.id == id && Answer(a, op).Ack?
  }

  /** What an upload has written into its own file. */
  function Content(a: Agent, id: UploadId): Bytes
    requires id in a.uploads
  {
    var inode := a.uploads[id].inode;
    if inode < |a.disk.data| then a.disk.data[inode] else []
  }

  lemma DroppedContent(a: Agent, ids: set<UploadId>, id: UploadId)
    requires id in Dropped(a, ids).uploads
    ensures id in a.uploads && Dropped(a, ids).uploads[id] == a.uploads[id]
    ensures Content(Dropped(a, ids), id) == Content(a, id)
  {}

  lemma OpenContent(a: Agent, op: Op, id: UploadId)
    requires Inv(a) && op.Open? && id in After(a, op).uploads
    ensures if Opens(a, op, id) then Content(After(a, op), id) == [] && After(a, op).uploads[id].written == 0
            else
              && id in a.uploads
              && Content(After(a, op), id) == Content(a, id) && After(a, op).uploads[id] == a.uploads[id]
  {
  }

  lemma WriteContent(a: Agent, op: Op, id: UploadId)
    requires Inv(a) && op.Write? && id in After(a, op).uploads
    ensures id in a.uploads
    ensures Content(After(a, op), id) == Content(a, id) + (if Acknowledges(a, op, id) then op.chunk else [])
    ensures !Acknowledges(a, op, id) ==> After(a, op).uploads[id] == a.uploads[id]
  {
  }

  predicate SameFile(u: Upload, v: Upload) {
    u.inode == v.inode && u.tmp == v.tmp && u.target == v.target
  }

  /** How one step changes what a live upload has taken in. */
  lemma ContentStep(a: Agent, op: Op, id: UploadId)
    requires Inv(a) && id in After(a, op).uploads
    ensures Opens(a, op, id) ==> Content(After(a, op), id) == []
    ensures !Opens(a, op, id) ==> id in a.uploads && SameFile(After(a, op).uploads[id], a.uploads[id])
    ensures Acknowledges(a, op, id) ==> Content(After(a, op), id) == Content(a, id) + op.chunk
    ensures !Opens(a, op, id) && !Acknowledges(a, op, id) ==>
      Content(After(a, op), id) == Content(a, id) && After(a, op).uploads[id] == a.uploads[id]
  {
    match op
    case Open(_, _, _, _, _) => OpenContent(a, op, id);
    case Write(_, _, _, _, _) => WriteContent(a, op, id);
    case Close(_, _, _) =>
    case CleanStale(now, maxAge) => DroppedContent(a, StaleIds(a, now, maxAge), id);
    case DropManager => DroppedContent(a, a.uploads.Keys, id);
  }

  // ---------------------------------------------------------------- whose file the temporary path names

  /** The temporary path still names the file the upload writes to. */
  predicate Own(a: Agent, id: UploadId)
    requires id in a.uploads
  {
    a.uploads[id].tmp in a.disk.names && a.disk.names[a.uploads[id].tmp] == File(a.uploads[id].inode)
  }

  /** Another upload is committed onto this one's temporary path. */
  predicate Overlays(a: Agent, op: Op, id: UploadId) {
    id in a.uploads && Commits(a, op, a.uploads[id].tmp) && op.id != id
  }

  function BytesAt(disk: Disk, p: Path): Bytes {
    if Look(disk, p).Holds? then Look(disk, p).bytes else []
  }

  function AtTemporary(a: Agent, id: UploadId): Bytes
    requires id in a.uploads
  {
    BytesAt(a.disk, a.uploads[id].tmp)
  }

  /** A file that is not an upload's own is nobody's to write to, so its bytes stay. */
  lemma ForeignFileStays(a: Agent, id: UploadId, other: UploadId)
    requires Inv(a) && id in a.uploads && other in a.uploads && !Own(a, id)
    ensures a.disk.names[a.uploads[id].tmp] != File(a.uploads[other].inode)
  {
    assert UploadOk(a, id) && UploadOk(a, other);
    if a.disk.names[a.uploads[id].tmp] == File(a.uploads[other].inode) {
      OneTemporaryEach(a, id, other);
    }
  }

  predicate SameTemporary(a: Agent, b: Agent, id: UploadId)
    requires id in a.uploads && id in b.uploads
  {
    Own(b, id) == Own(a, id) && (!Own(a, id) ==> AtTemporary(b, id) == AtTemporary(a, id))
  }

  lemma DropTemporary(a: Agent, ids: set<UploadId>, id: UploadId)
    requires Inv(a) && id in Dropped(a, ids).uploads
    ensures SameTemporary(a, Dropped(a, ids), id)
  {
    assert UploadOk(a, id);
    forall other | other in ids && other in a.uploads ensures a.uploads[other].tmp != a.uploads[id].tmp {
      assert UploadOk(a, other);
      if a.uploads[other].tmp == a.uploads[id].tmp {
        OneTemporaryEach(a, other, id);
      }
    }
  }

  lemma OpenTemporary(a: Agent, op: Op, id: UploadId)
    requires Inv(a) && op.Open? && id in After(a, op).uploads
    ensures if Opens(a, op, id) then Own(After(a, op), id) else id in a.uploads && SameTemporary(a, After(a, op), id)
  {
    if OpenError(a, op).None? {
      CreatedThenReplaced(a, op);
      if id != op.id {
        DropTemporary(a, {op.id}, id);
        assert UploadOk(a, id);
      }
    }
  }

  lemma WriteTemporary(a: Agent, op: Op, id: UploadId)
    requires Inv(a) && op.Write? && id in After(a, op).uploads
    ensures id in a.uploads && SameTemporary(a, After(a, op), id)
  {
    assert UploadOk(a, id);
    if op.id in a.uploads {
      if !Own(a, id) {
        ForeignFileStays(a, id, op.id);
      }
      if WriteError(a, op).Some? {
        DropTemporary(a, {op.id}, id);
      }
    }
  }

  lemma CloseTemporary(a: Agent, op: Op, id: UploadId)
    requires Inv(a) && op.Close? && id in After(a, op).uploads
    ensures id in a.uploads
    ensures if Overlays(a, op, id) then !Own(After(a, op), id) && AtTemporary(After(a, op), id) == AtTemporary(a, op.id)
            else SameTemporary(a, After(a, op), id)
  {
    if op.id in a.uploads {
      assert UploadOk(a, id);
      if CloseError(a, op).Some? {
        DropTemporary(a, {op.id}, id);
      } else {
        assert UploadOk(a, op.id);
        CommitNames(a, op);
        CommitKeepsUpload(a, op, id);
      }
    }
  }

  lemma TemporaryStep(a: Agent, op: Op, id: UploadId)
    requires Inv(a) && id in After(a, op).uploads
    ensures Opens(a, op, id) ==> Own(After(a, op), id)
    ensures !Opens(a, op, id) ==> id in a.uploads
    ensures !Opens(a, op, id) && !Overlays(a, op, id) ==> SameTemporary(a, After(a, op), id)
    ensures !Opens(a, op, id) && Overlays(a, op, id) ==>
      !Own(After(a, op), id) && AtTemporary(After(a, op), id) == AtTemporary(a, op.id)
  {
    match op
    case Open(_, _, _, _, _) => OpenTemporary(a, op, id);
    case Write(_, _, _, _, _) => WriteTemporary(a, op, id);
    case Close(_, _, _) => CloseTemporary(a, op, id);
    case CleanStale(now, maxAge) => DropTemporary(a, StaleIds(a, now, maxAge), id);
    case DropManager => DropTemporary(a, a.uploads.Keys, id);
  }

  /** The temporary files in use that are still their uploads' own. */
  function OwnTemporaries(a: Agent): set<Path> {
    set id | id in a.uploads && Own(a, id) :: a.uploads[id].tmp
  }

  /** What is on the disk, but for unfinished uploads: a file committed onto a temporary path in use is shown. */
  function Shown(a: Agent, p: Path): View {
    if p in OwnTemporaries(a) then Missing else Look(a.disk, p)
  }

  lemma ShownAtTemporary(a: Agent, id: UploadId)
    requires Inv(a) && id in a.uploads
    ensures Shown(a, a.uploads[id].tmp) == if Own(a, id) then Missing else Holds(AtTemporary(a, id))
    ensures Look(a.disk, a.uploads[id].tmp) == Holds(AtTemporary(a, id))
  {
    assert UploadOk(a, id);
    if !Own(a, id) {
      forall x | x in a.uploads && Own(a, x) ensures a.uploads[x].tmp != a.uploads[id].tmp {
        assert UploadOk(a, x);
        if a.uploads[x].tmp == a.uploads[id].tmp {
          OneTemporaryEach(a, x, id);
        }
      }
    }
  }

  /** A commit shows the file that was at the temporary path. */
  lemma CommitIsShown(a: Agent, op: Op)
    requires Inv(a) && op.Close? && CloseError(a, op).None? && a.uploads[op.id].target != a.uploads[op.id].tmp
    ensures var u := a.uploads[op.id];
      Shown(After(a, op), u.target) == Look(After(a, op).disk, u.target) == Look(a.disk, u.tmp)
  {
    var u, b := a.uploads[op.id], After(a, op);
    CommitNames(a, op);
    forall x | x in b.uploads && b.uploads[x].tmp == u.target ensures !Own(b, x) {
      assert UploadOk(a, x);
      CloseTemporary(a, op, x);
    }
  }

  /** A path that stays in use, or out of use, is shown as before. */
  lemma OthersAreShown(a: Agent, op: Op, p: Path)
    requires Inv(a) && !Commits(a, op, p) && (p in LiveTemporaries(a) ==> p in LiveTemporaries(After(a, op)))
    ensures Shown(After(a, op), p) == Shown(a, p)
  {
    var b := After(a, op);
    StepKeepsInv(a, op);
    if p in LiveTemporaries(b) {
      var id :| id in b.uploads && b.uploads[id].tmp == p;
      TemporaryStep(a, op, id);
      ContentStep(a, op, id);
      ShownAtTemporary(b, id);
      if Opens(a, op, id) {
        OpenedPathWasFree(a, op);
      } else {
        ShownAtTemporary(a, id);
      }
    } else {
      NotInUse(a, p);
      NotInUse(b, p);
    }
  }

  lemma OpenedPathWasFree(a: Agent, op: Op)
    requires Inv(a) && op.Open? && OpenError(a, op).None?
    ensures var tmp := After(a, op).uploads[op.id].tmp;
      tmp !in a.disk.names && tmp !in LiveTemporaries(a) && Shown(a, tmp) == Missing
  {
    LiveTemporariesExist(a);
  }

  lemma NotInUse(a: Agent, p: Path)
    requires Inv(a) && p !in LiveTemporaries(a)
    ensures Shown(a, p) == Look(a.disk, p) == Visible(a, p)
  {
  }

  /** A path that goes out of use is empty. */
  lemma ReleasedIsMissing(a: Agent, op: Op, p: Path)
    requires Inv(a) && p in LiveTemporaries(a) && p !in LiveTemporaries(After(a, op))
    requires Commits(a, op, p) ==> a.uploads[op.id].target == a.uploads[op.id].tmp
    ensures Shown(After(a, op), p) == Look(After(a, op).disk, p) == Missing
  {
    var b := After(a, op);
    StepKeepsInv(a, op);
    NotInUse(b, p);
    if Commits(a, op, p) {
      CommitNames(a, op);
    }
  }

  lemma LiveTemporariesExist(a: Agent)
    requires Inv(a)
    ensures LiveTemporaries(a) <= a.disk.names.Keys
  {
    forall id | id in a.uploads ensures a.uploads[id].tmp in a.disk.names {
      assert UploadOk(a, id);
    }
  }

  // ---------------------------------------------------------------- whole runs of one agent

  /** Any requests, to any targets, with any faults, cleanups and disconnects between them. */
  ghost predicate Follows(states: seq<Agent>, ops: seq<Op>) {
    |states| == |ops| + 1 && forall i :: 0 <= i < |ops| ==> states[i + 1] == After(states[i], ops[i])
  }

  ghost predicate IsRun(states: seq<Agent>, ops: seq<Op>) {
    Follows(states, ops) && Inv(states[0]) && states[0].uploads == map[]
  }

  lemma {:induction false} InvHolds(states: seq<Agent>, ops: seq<Op>, n: nat)
    requires IsRun(states, ops) && n <= |ops|
    ensures Inv(states[n])
  {
    if n > 0 {
      InvHolds(states, ops, n - 1);
      StepKeepsInv(states[n - 1], ops[n - 1]);
    }
  }

  /** The chunks acknowledged for an upload since it was opened, in order. */
  ghost function Accepted(states: seq<Agent>, ops: seq<Op>, n: nat, id: UploadId): Bytes
    requires IsRun(states, ops) && n <= |ops|
  {
    if n == 0 || Opens(states[n - 1], ops[n - 1], id) then [] else
      var more := if Acknowledges(states[n - 1], ops[n - 1], id) then ops[n - 1].chunk else [];
      Accepted(states, ops, n - 1, id) + more
  }

  /** Since it was opened, another upload has been committed onto its temporary path. */
  ghost predicate Overlaid(states: seq<Agent>, ops: seq<Op>, n: nat, id: UploadId)
    requires IsRun(states, ops) && n <= |ops|
  {
    n > 0 && !Opens(states[n - 1], ops[n - 1], id)
    && (Overlays(states[n - 1], ops[n - 1], id) || Overlaid(states, ops, n - 1, id))
  }

  /**
   What would be put in place: the own chunks, or what the last upload committed onto the temporary path left there.
   */
  ghost function Landing(states: seq<Agent>, ops: seq<Op>, n: nat, id: UploadId): Bytes
    requires IsRun(states, ops) && n <= |ops|
  {
    if !Overlaid(states, ops, n, id) then Accepted(states, ops, n, id)
    else if Overlays(states[n - 1], ops[n - 1], id) then Landing(states, ops, n - 1, ops[n - 1].id)
    else Landing(states, ops, n - 1, id)
  }

  lemma {:induction false} ContentIsAccepted(states: seq<Agent>, ops: seq<Op>, n: nat, id: UploadId)
    requires IsRun(states, ops) && n <= |ops| && id in states[n].uploads
    ensures Content(states[n], id) == Accepted(states, ops, n, id)
  {
    if n > 0 {
      InvHolds(states, ops, n - 1);
      ContentStep(states[n - 1], ops[n - 1], id);
      if !Opens(states[n - 1], ops[n - 1], id) {
        ContentIsAccepted(states, ops, n - 1, id);
      }
    }
  }

  ghost predicate NamesOk(states: seq<Agent>, ops: seq<Op>, n: nat, id: UploadId)
    requires IsRun(states, ops) && n <= |ops| && id in states[n].uploads
  {
    && (Own(states[n], id) <==> !Overlaid(states, ops, n, id))
    && AtTemporary(states[n], id) == Landing(states, ops, n, id)
  }

  lemma OwnNamesOk(states: seq<Agent>, ops: seq<Op>, n: nat, id: UploadId)
    requires IsRun(states, ops) && n <= |ops| && id in states[n].uploads
    requires Own(states[n], id) && !Overlaid(states, ops, n, id)
    ensures NamesOk(states, ops, n, id)
  {
    InvHolds(states, ops, n);
    ContentIsAccepted(states, ops, n, id);
    assert UploadOk(states[n], id);
  }

  lemma ForeignNamesOk(states: seq<Agent>, ops: seq<Op>, m: nat, id: UploadId)
    requires IsRun(states, ops) && m < |ops| && id in states[m + 1].uploads && id in states[m].uploads
    requires !Opens(states[m], ops[m], id) && !Own(states[m], id) && NamesOk(states, ops, m, id)
    requires !Overlays(states[m], ops[m], id)
    ensures NamesOk(states, ops, m + 1, id)
  {
    TemporaryInRun(states, ops, m, id);
  }

  lemma OverlaidNamesOk(states: seq<Agent>, ops: seq<Op>, m: nat, id: UploadId)
    requires IsRun(states, ops) && m < |ops| && id in states[m + 1].uploads
    requires !Opens(states[m], ops[m], id) && Overlays(states[m], ops[m], id)
    requires ops[m].id in states[m].uploads && NamesOk(states, ops, m, ops[m].id)
    ensures NamesOk(states, ops, m + 1, id)
  {
    TemporaryInRun(states, ops, m, id);
  }

  lemma {:induction false} TemporaryNames(states: seq<Agent>, ops: seq<Op>, n: nat, id: UploadId)
    requires IsRun(states, ops) && n <= |ops| && id in states[n].uploads
    ensures NamesOk(states, ops, n, id)
  {
    if n > 0 {
      TemporaryInRun(states, ops, n - 1, id);
      if Opens(states[n - 1], ops[n - 1], id) {
        OwnNamesOk(states, ops, n, id);
      } else if Overlays(states[n - 1], ops[n - 1], id) {
        TemporaryNames(states, ops, n - 1, ops[n - 1].id);
        OverlaidNamesOk(states, ops, n - 1, id);
      } else {
        TemporaryNames(states, ops, n - 1, id);
        if Own(states[n], id) {
          OwnNamesOk(states, ops, n, id);
        } else {
          ForeignNamesOk(states, ops, n - 1, id);
        }
      }
    }
  }

  lemma TemporaryInRun(states: seq<Agent>, ops: seq<Op>, m: nat, id: UploadId)
    requires IsRun(states, ops) && m < |ops| && id in states[m + 1].uploads
    ensures Opens(states[m], ops[m], id) ==> Own(states[m + 1], id)
    ensures !Opens(states[m], ops[m], id) ==>
      && id in states[m].uploads
      && if Overlays(states[m], ops[m], id) then
           !Own(states[m + 1], id) && AtTemporary(states[m + 1], id) == AtTemporary(states[m], ops[m].id)
         else SameTemporary(states[m], states[m + 1], id)
  {
    InvHolds(states, ops, m);
    TemporaryStep(states[m], ops[m], id);
  }

  /**
   A live upload has written exactly its acknowledged chunks, `written` bytes of them, into its own file, and its
   temporary path names that file exactly as long as no other upload was committed onto the path.
   */
  lemma TemporaryHoldsAccepted(states: seq<Agent>, ops: seq<Op>, n: nat, id: UploadId)
    requires IsRun(states, ops) && n <= |ops| && id in states[n].uploads
    ensures var u := states[n].uploads[id];
      && Content(states[n], id) == Accepted(states, ops, n, id) && u.written == |Accepted(states, ops, n, id)|
      && u.tmp in states[n].disk.names
         && (states[n].disk.names[u.tmp] == File(u.inode) <==> !Overlaid(states, ops, n, id))
      && Look(states[n].disk, u.tmp) == Holds(Landing(states, ops, n, id))
  {
    ContentIsAccepted(states, ops, n, id);
    TemporaryNames(states, ops, n, id);
    InvHolds(states, ops, n);
    assert UploadOk(states[n], id);
  }

  /** Upload `id` is closed with success in step `k`. */
  ghost predicate Completes(states: seq<Agent>, ops: seq<Op>, k: nat, id: UploadId)
    requires IsRun(states, ops) && k < |ops|
  {
    ops[k].Close? && ops[k].id == id && Answer(states[k], ops[k]) == Written
      && |Accepted(states, ops, k, id)| == ops[k].total
  }

  lemma WrittenCompletes(states: seq<Agent>, ops: seq<Op>, k: nat)
    requires IsRun(states, ops) && k < |ops| && ops[k].Close? && Answer(states[k], ops[k]) == Written
    ensures Completes(states, ops, k, ops[k].id)
  {
    TemporaryHoldsAccepted(states, ops, k, ops[k].id);
  }

  /** Even then it is one whole upload: the own one, or one closed with success before. */
  lemma {:induction false} LandingIsWhole(states: seq<Agent>, ops: seq<Op>, n: nat, id: UploadId)
    returns (k: nat, whole: UploadId)
    requires IsRun(states, ops) && n <= |ops| && Overlaid(states, ops, n, id)
    ensures k < n && Completes(states, ops, k, whole) && Landing(states, ops, n, id) == Accepted(states, ops, k, whole)
  {
    var m := n - 1;
    if !Overlays(states[m], ops[m], id) {
      k, whole := LandingIsWhole(states, ops, m, id);
    } else if Overlaid(states, ops, m, ops[m].id) {
      k, whole := LandingIsWhole(states, ops, m, ops[m].id);
    } else {
      WrittenCompletes(states, ops, m);
      k, whole := m, ops[m].id;
    }
  }

  /**
   An upload closed with success leaves its own file at its target if and only if the target is not its own
   temporary path and no other upload was committed onto that path while this one was live. In the first case nothing
   is left there, in the second the other upload's bytes.
   */
  lemma WrittenIsStoredExactly(states: seq<Agent>, ops: seq<Op>, n: nat)
    requires IsRun(states, ops) && n < |ops| && ops[n].Close? && Answer(states[n], ops[n]) == Written
    ensures var id, after := ops[n].id, states[n + 1].disk; var u := states[n].uploads[id];
      var kept := u.target != u.tmp && !Overlaid(states, ops, n, id);
      && (u.target in after.names && after.names[u.target] == File(u.inode) <==> kept)
      && (kept ==> Look(after, u.target) == Holds(Accepted(states, ops, n, id)))
      && (!kept && u.target == u.tmp ==> Look(after, u.target) == Missing)
      && (!kept && u.target != u.tmp ==> Look(after, u.target) == Holds(Landing(states, ops, n, id)))
  {
    var id := ops[n].id;
    TemporaryHoldsAccepted(states, ops, n, id);
    InvHolds(states, ops, n);
    CommitNames(states[n], ops[n]);
    assert UploadOk(states[n], id);
  }

  /** A live upload's temporary path shows another upload's file, and goes out of use in step `n`. */
  ghost predicate TakesAway(states: seq<Agent>, ops: seq<Op>, n: nat, id: UploadId, p: Path)
    requires IsRun(states, ops) && n < |ops|
  {
    && id in states[n].uploads && states[n].uploads[id].tmp == p && Overlaid(states, ops, n, id)
    && p !in LiveTemporaries(states[n + 1])
  }

  /**
   Atomic replacement, for any sequence of requests to any targets, faults, cleanups and disconnects. The disk, own
   unfinished files aside, changes at a path in two ways only. A successful close to the path puts there all of one
   upload, of exactly its declared size: the closed one, unless another was committed onto its temporary path. Or the
   path was a temporary one that another upload had been committed onto, and the upload using it ends: it is emptied.
   */
  lemma OnlyWholeUploadsAppear(states: seq<Agent>, ops: seq<Op>, n: nat, p: Path) returns (k: nat, whole: UploadId)
    requires IsRun(states, ops) && n < |ops| && Shown(states[n + 1], p) != Shown(states[n], p)
    ensures Shown(states[n + 1], p) != Missing ==>
      && ops[n].Close? && Answer(states[n], ops[n]) == Written && states[n].uploads[ops[n].id].target == p
      && k <= n && Completes(states, ops, k, whole) && Shown(states[n + 1], p) == Holds(Accepted(states, ops, k, whole))
      && (!Overlaid(states, ops, n, ops[n].id) ==> k == n && whole == ops[n].id)
    ensures Shown(states[n + 1], p) == Missing ==> exists id :: TakesAway(states, ops, n, id, p)
  {
    var a, op, b := states[n], ops[n], states[n + 1];
    k, whole := n, "";
    InvHolds(states, ops, n);
    if Commits(a, op, p) && a.uploads[op.id].target != a.uploads[op.id].tmp {
      CommitIsShown(a, op);
      WrittenIsStoredExactly(states, ops, n);
      whole := op.id;
      if Overlaid(states, ops, n, op.id) {
        k, whole := LandingIsWhole(states, ops, n, op.id);
      } else {
        WrittenCompletes(states, ops, n);
      }
    } else if p in LiveTemporaries(a) && p !in LiveTemporaries(b) {
      ReleasedIsMissing(a, op, p);
      var id :| id in a.uploads && a.uploads[id].tmp == p;
      ShownAtTemporary(a, id);
      TemporaryNames(states, ops, n, id);
      assert TakesAway(states, ops, n, id, p);
    } else {
      OnlyOwnCommitIsLeft(a, op, p);
      OthersAreShown(a, op, p);
    }
  }

  /** An upload closed onto its own temporary path takes it out of use. */
  lemma OnlyOwnCommitIsLeft(a: Agent, op: Op, p: Path)
    requires Inv(a) && !(Commits(a, op, p) && a.uploads[op.id].target != a.uploads[op.id].tmp)
    requires p in LiveTemporaries(a) ==> p in LiveTemporaries(After(a, op))
    ensures !Commits(a, op, p)
  {
    if Commits(a, op, p) {
      var b := After(a, op);
      CommitNames(a, op);
      assert p in LiveTemporaries(a);
      var x :| x in b.uploads && b.uploads[x].tmp == p;
      assert UploadOk(a, x) && UploadOk(a, op.id);
      OneTemporaryEach(a, x, op.id);
    }
  }

  // ---------------------------------------------------------------- how long a stored file stays

  /** Whatever follows, the file at `p` is as it is now until an upload is committed to `p`. */
  ghost predicate StaysUntilCommitted(a: Agent, p: Path) {
    forall states: seq<Agent>, ops: seq<Op> ::
      Follows(states, ops) && states[0] == a && (forall k :: 0 <= k < |ops| ==> !Commits(states[k], ops[k], p)) ==>
        Look(states[|ops|].disk, p) == Look(a.disk, p)
  }

  lemma {:induction false} UncommittedIsSeen(states: seq<Agent>, ops: seq<Op>, n: nat, p: Path)
    requires Follows(states, ops) && n <= |ops| && Inv(states[0])
    requires forall k :: 0 <= k < n ==> !Commits(states[k], ops[k], p)
    ensures Inv(states[n]) && Visible(states[n], p) == Visible(states[0], p)
  {
    if n > 0 {
      UncommittedIsSeen(states, ops, n - 1, p);
      StepKeepsInv(states[n - 1], ops[n - 1]);
    }
  }

  /** A file stays until an upload is committed over it if and only if its path is not a temporary path in use. */
  lemma StoredStaysExactly(a: Agent, p: Path)
    requires Inv(a) && Look(a.disk, p).Holds?
    ensures StaysUntilCommitted(a, p) <==> p !in LiveTemporaries(a)
  {
    if p in LiveTemporaries(a) {
      var gone := After(a, DropManager);
      assert Follows([a, gone], [DropManager]) && !Commits(a, DropManager, p);
      assert Look(gone.disk, p) == Missing;
    } else {
      forall states: seq<Agent>, ops: seq<Op> |
        Follows(states, ops) && states[0] == a && (forall k :: 0 <= k < |ops| ==> !Commits(states[k], ops[k], p))
        ensures Look(states[|ops|].disk, p) == Look(a.disk, p)
      {
        UncommittedIsSeen(states, ops, |ops|, p);
      }
    }
  }

  /**
   An upload closed with success leaves its own file at its target, to stay there until another is committed to it, if
   and only if the target was no temporary path in use, its own included, and it had not been overlaid.
   */
  lemma WrittenStaysExactly(states: seq<Agent>, ops: seq<Op>, n: nat)
    requires IsRun(states, ops) && n < |ops| && ops[n].Close? && Answer(states[n], ops[n]) == Written
    ensures var id, after := ops[n].id, states[n + 1]; var u := states[n].uploads[id];
      (u.target in after.disk.names && after.disk.names[u.target] == File(u.inode)
        && StaysUntilCommitted(after, u.target)) <==>
      (u.target !in LiveTemporaries(states[n]) && !Overlaid(states, ops, n, id))
  {
    var a, after, u := states[n], states[n + 1], states[n].uploads[ops[n].id];
    WrittenIsStoredExactly(states, ops, n);
    InvHolds(states, ops, n);
    InvHolds(states, ops, n + 1);
    TargetInUse(a, ops[n]);
    if u.target != u.tmp {
      TemporaryHoldsAccepted(states, ops, n, ops[n].id);
      StoredStaysExactly(after, u.target);
    }
  }

  /** A close leaves the other uploads' temporary paths in use. */
  lemma TargetInUse(a: Agent, op: Op)
    requires Inv(a) && op.Close? && CloseError(a, op).None?
    ensures var u := a.uploads[op.id];
      && u.tmp in LiveTemporaries(a)
      && (u.target != u.tmp ==> (u.target in LiveTemporaries(After(a, op)) <==> u.target in LiveTemporaries(a)))
  {
    var u, b := a.uploads[op.id], After(a, op);
    CommitNames(a, op);
    assert b.uploads == a.uploads - {op.id};
    if u.target != u.tmp && u.target in LiveTemporaries(a) {
      var x :| x in a.uploads && a.uploads[x].tmp == u.target;
      assert x in b.uploads && b.uploads[x].tmp == u.target;
    }
  }

  // ---------------------------------------------------------------- which names there are

  /** The targets of all successful closes that were not in use as temporary files at that moment. */
  ghost function CommittedPaths(states: seq<Agent>, ops: seq<Op>, n: nat): set<Path>
    requires IsRun(states, ops) && n <= |ops|
  {
    if n == 0 then {}
    else CommittedPaths(states, ops, n - 1) + NewPaths(states[n - 1], ops[n - 1])
  }

  function NewPaths(a: Agent, op: Op): set<Path> {
    if op.Close? && CloseError(a, op).None? then {a.uploads[op.id].target} - LiveTemporaries(a) else {}
  }

  /** Names other than those of live temporary files. */
  function Lasting(a: Agent): set<Path> {
    a.disk.names.Keys - LiveTemporaries(a)
  }

  lemma LastingIsVisible(a: Agent, p: Path)
    requires Inv(a)
    ensures p in Lasting(a) <==> Visible(a, p) != Missing
  {
  }

  lemma LastingStep(a: Agent, op: Op)
    requires Inv(a)
    ensures Lasting(After(a, op)) == Lasting(a) + NewPaths(a, op)
  {
    var b := After(a, op);
    StepKeepsInv(a, op);
    forall p ensures p in Lasting(b) <==> p in Lasting(a) + NewPaths(a, op) {
      LastingIsVisible(a, p);
      LastingIsVisible(b, p);
      if Commits(a, op, p) {
        CommitLasts(a, op);
      }
    }
  }

  lemma CommitLasts(a: Agent, op: Op)
    requires Inv(a) && op.Close? && CloseError(a, op).None?
    ensures var target := a.uploads[op.id].target;
      target in Lasting(After(a, op)) <==> target !in LiveTemporaries(a)
  {
    var u, b := a.uploads[op.id], After(a, op);
    CommitNames(a, op);
    if u.target in LiveTemporaries(a) {
      var x :| x in a.uploads && a.uploads[x].tmp == u.target;
      if x != op.id {
        assert x in b.uploads && b.uploads[x].tmp == u.target;
      }
    }
    if u.target in LiveTemporaries(b) {
      var x :| x in b.uploads && b.uploads[x].tmp == u.target;
      assert x in a.uploads && a.uploads[x].tmp == u.target;
    }
  }

  /**
   At every point of a run the names on the disk are those it began with, the committed targets, and one temporary
   file for each live upload, which is neither of them; dropping the manager leaves no temporary file.
   */
  lemma NoTemporaryIsLeftBehind(states: seq<Agent>, ops: seq<Op>, n: nat)
    requires IsRun(states, ops) && n <= |ops|
    ensures var kept := states[0].disk.names.Keys + CommittedPaths(states, ops, n);
      && states[n].disk.names.Keys == kept + LiveTemporaries(states[n]) && kept !! LiveTemporaries(states[n])
      && (n > 0 && ops[n - 1].DropManager? ==> states[n].disk.names.Keys == kept)
  {
    LastingIsKept(states, ops, n);
    InvHolds(states, ops, n);
    LiveTemporariesExist(states[n]);
    assert n > 0 && ops[n - 1].DropManager? ==> LiveTemporaries(states[n]) == {};
  }

  lemma {:induction false} LastingIsKept(states: seq<Agent>, ops: seq<Op>, n: nat)
    requires IsRun(states, ops) && n <= |ops|
    ensures Lasting(states[n]) == states[0].disk.names.Keys + CommittedPaths(states, ops, n)
  {
    if n > 0 {
      var kept, before, added := states[0].disk.names.Keys, CommittedPaths(states, ops, n - 1),
        NewPaths(states[n - 1], ops[n - 1]);
      LastingIsKept(states, ops, n - 1);
      LastingInRun(states, ops, n - 1);
      assert (kept + before) + added == kept + (before + added);
    }
  }

  lemma LastingInRun(states: seq<Agent>, ops: seq<Op>, n: nat)
    requires IsRun(states, ops) && n < |ops|
    ensures Lasting(states[n + 1]) == Lasting(states[n]) + NewPaths(states[n], ops[n])
  {
    InvHolds(states, ops, n);
    LastingStep(states[n], ops[n]);
  }

  // ---------------------------------------------------------------- targets apart from temporary files

  /** Opening brings no target together with a temporary path in use: not its own, not another's, in neither order. */
  predicate TargetsApart(a: Agent, op: Op) {
    op.Open? && OpenError(a, op).None? ==>
      var target := op.path.value;
      var tmp := TmpPath(target.parent, op.id);
      && target != tmp && target !in LiveTemporaries(a)
      && forall x :: x in a.uploads ==> a.uploads[x].target != tmp
  }

  /** No live upload targets a temporary path in use, and each temporary path names its upload's own file. */
  ghost predicate Apart(a: Agent) {
    && (forall x, y :: x in a.uploads && y in a.uploads ==> a.uploads[x].target != a.uploads[y].tmp)
    && (forall id :: id in a.uploads ==> Own(a, id))
  }

  ghost predicate Sound(a: Agent) {
    Inv(a) && Apart(a)
  }

  lemma StepKeepsSound(a: Agent, op: Op)
    requires Sound(a) && TargetsApart(a, op)
    ensures Sound(After(a, op))
    ensures forall p :: !Commits(a, op, p) ==> Visible(After(a, op), p) == Visible(a, p)
  {
    var b := After(a, op);
    StepKeepsInv(a, op);
    forall id | id in b.uploads ensures Own(b, id) {
      TemporaryStep(a, op, id);
    }
    forall x, y | x in b.uploads && y in b.uploads ensures b.uploads[x].target != b.uploads[y].tmp {
      ContentStep(a, op, x);
      ContentStep(a, op, y);
      if op.Open? && OpenError(a, op).None? {
        assert y in a.uploads ==> a.uploads[y].tmp in LiveTemporaries(a);
      }
    }
  }

  /** When every open keeps them apart, no upload is ever overlaid and every one closed with success is stored. */
  lemma {:induction false} ApartRunsStay(states: seq<Agent>, ops: seq<Op>, n: nat)
    requires IsRun(states, ops) && n <= |ops| && forall i :: 0 <= i < n ==> TargetsApart(states[i], ops[i])
    ensures Sound(states[n])
    ensures forall id :: id in states[n].uploads ==>
      !Overlaid(states, ops, n, id) && states[n].uploads[id].target != states[n].uploads[id].tmp
  {
    if n > 0 {
      ApartRunsStay(states, ops, n - 1);
      StepKeepsSound(states[n - 1], ops[n - 1]);
    }
    forall id | id in states[n].uploads ensures !Overlaid(states, ops, n, id) {
      TemporaryNames(states, ops, n, id);
    }
  }

  // ---------------------------------------------------------------- two runs that lose an upload

  /**
   An upload whose target has the name of its own temporary file is answered as written, yet its file is gone,
   because the destructor removes what the rename left in place.
   */
  lemma TemporaryTargetLosesTheFile() returns (states: seq<Agent>, ops: seq<Op>)
    ensures IsRun(states, ops) && |ops| == 3
    ensures ops[0].Open? && ops[0].path == Some(TmpPath(Root, ops[0].id))
    ensures Answer(states[2], ops[2]) == Written && Look(states[3].disk, ops[0].path.value) == Missing
  {
    var target := TmpPath(Root, "u");
    var a0 := Agent(Disk(map[Root := Directory], []), map[]);
    ops := [Open("u", Some(target), false, 0, Works), Write("u", 0, [1], 0, Works), Close("u", 1, Works)];
    var a1 := After(a0, ops[0]);
    assert a1.disk.names == map[Root := Directory, target := File(0)];
    assert a1.uploads["u"] == Upload(0, target, target, 0, 0)
      && a1.disk == Disk(map[Root := Directory, target := File(0)], [[]]);
    var a2 := After(a1, ops[1]);
    assert a2.uploads["u"].written == 1 && a2.disk.names == a1.disk.names;
    states := [a0, a1, a2, After(a2, ops[2])];
  }

  /** Upload "B" is sent to the temporary path of "A", which is live: "A" then puts the bytes of "B" at its target. */
  lemma OverlaidUploadStoresAnother() returns (states: seq<Agent>, ops: seq<Op>, target: Path)
    ensures IsRun(states, ops) && |ops| == 6
    ensures ops[0].Open? && ops[0].path == Some(target) && target != TmpPath(Root, "A")
    ensures ops[2] == Write("A", 0, [1], 0, Works) && Answer(states[5], ops[5]) == Written
    ensures ops[5] == Close("A", 1, Works)
    ensures Look(states[6].disk, target) == Holds([2])
    ensures ops[4] == Close("B", 1, Works) && Answer(states[4], ops[4]) == Written
    ensures "B" in states[4].uploads
    ensures states[4].uploads["B"].target == TmpPath(Root, "A") != states[4].uploads["B"].tmp
    ensures Own(states[4], "B") && "A" in states[5].uploads && states[5].uploads["A"].target == target
    ensures Look(states[5].disk, TmpPath(Root, "A")) == Holds([2])
    ensures Look(states[6].disk, TmpPath(Root, "A")) == Missing
  {
    target := Child(Root, "x");
    var tmpA, tmpB := TmpPath(Root, "A"), TmpPath(Root, "B");
    NamesApart(target, tmpA, tmpB);
    var uA, uB := Upload(0, tmpA, target, 0, 0), Upload(1, tmpB, tmpA, 0, 0);
    var a0 := Agent(Disk(map[Root := Directory], []), map[]);
    var a1 := Agent(Disk(map[Root := Directory, tmpA := File(0)], [[]]), map["A" := uA]);
    var a2 := Agent(Disk(map[Root := Directory, tmpA := File(0), tmpB := File(1)], [[], []]),
      map["A" := uA, "B" := uB]);
    var wA, wB := Upload(0, tmpA, target, 1, 0), Upload(1, tmpB, tmpA, 1, 0);
    var a3 := Agent(Disk(a2.disk.names, [[1], []]), map["A" := wA, "B" := uB]);
    var a4 := Agent(Disk(a2.disk.names, [[1], [2]]), map["A" := wA, "B" := wB]);
    var a5 := Agent(Disk(map[Root := Directory, tmpA := File(1)], [[1], [2]]), map["A" := wA]);
    var a6 := Agent(Disk(map[Root := Directory, target := File(1)], [[1], [2]]), map[]);
    ops := [Open("A", Some(target), false, 0, Works), Open("B", Some(tmpA), true, 0, Works),
      Write("A", 0, [1], 0, Works),
            Write("B", 0, [2], 0, Works), Close("B", 1, Works), Close("A", 1, Works)];
    states := [a0, a1, a2, a3, a4, a5, a6];
    TwoOpens(target, tmpA, tmpB, a0, a1, a2);
    TwoWrites(uA, uB, wA, wB, a2, a3, a4);
    TwoCloses(target, tmpA, tmpB, a4, a5, a6);
    assert a1 == After(a0, ops[0]) && a2 == After(a1, ops[1]) && a3 == After(a2, ops[2]);
    assert a4 == After(a3, ops[3]) && a5 == After(a4, ops[4]) && a6 == After(a5, ops[5]);
  }

  /**
   In the same run "B" was answered as written, to a path that was not its own temporary one, and its file is gone
   as well.
   */
  lemma StoredUploadCanVanish() returns (states: seq<Agent>, ops: seq<Op>, n: nat)
    ensures IsRun(states, ops) && n + 2 == |ops| && ops[n].Close? && Answer(states[n], ops[n]) == Written
    ensures var u := states[n].uploads[ops[n].id];
      && u.target != u.tmp && !Overlaid(states, ops, n, ops[n].id)
      && Look(states[n + 1].disk, u.target) == Holds(Accepted(states, ops, n, ops[n].id))
      && !Commits(states[n + 1], ops[n + 1], u.target) && Look(states[n + 2].disk, u.target) == Missing
  {
    var target;
    states, ops, target := OverlaidUploadStoresAnother();
    n := 4;
    TemporaryHoldsAccepted(states, ops, n, "B");
    WrittenIsStoredExactly(states, ops, n);
  }

  lemma TwoOpens(target: Path, tmpA: Path, tmpB: Path, a0: Agent, a1: Agent, a2: Agent)
    requires target == Child(Root, "x") && tmpA == TmpPath(Root, "A") && tmpB == TmpPath(Root, "B") && tmpA != tmpB
    requires var uA, uB := Upload(0, tmpA, target, 0, 0), Upload(1, tmpB, tmpA, 0, 0);
      && a0 == Agent(Disk(map[Root := Directory], []), map[])
      && a1 == Agent(Disk(map[Root := Directory, tmpA := File(0)], [[]]), map["A" := uA])
      && a2 == Agent(Disk(map[Root := Directory, tmpA := File(0), tmpB := File(1)], [[], []]),
         map["A" := uA, "B" := uB])
    ensures After(a0, Open("A", Some(target), false, 0, Works)) == a1
    ensures After(a1, Open("B", Some(tmpA), true, 0, Works)) == a2
  {
  }

  lemma TwoWrites(uA: Upload, uB: Upload, wA: Upload, wB: Upload, a2: Agent, a3: Agent, a4: Agent)
    requires uA.written == uB.written == 0 && uA.lastActivity == uB.lastActivity == 0 && uA.inode == 0 && uB.inode == 1
    requires wA == uA.(written := 1) && wB == uB.(written := 1)
    requires a2.disk.data == [[], []] && a2.uploads == map["A" := uA, "B" := uB]
    requires a3 == Agent(Disk(a2.disk.names, [[1], []]), map["A" := wA, "B" := uB])
    requires a4 == Agent(Disk(a2.disk.names, [[1], [2]]), map["A" := wA, "B" := wB])
    ensures After(a2, Write("A", 0, [1], 0, Works)) == a3 && After(a3, Write("B", 0, [2], 0, Works)) == a4
  {
    FirstWrite(a2, a3, "A", "B", [1]);
    FirstWrite(a3, a4, "B", "A", [2]);
  }

  lemma FirstWrite(a: Agent, b: Agent, id: UploadId, other: UploadId, chunk: Bytes)
    requires id in a.uploads && other in a.uploads && id != other && a.uploads.Keys == {id, other}
    requires var u := a.uploads[id];
      && u.written == 0 && u.lastActivity == 0 && u.inode < |a.disk.data| && a.disk.data[u.inode] == []
      && b == Agent(a.disk.(data := a.disk.data[u.inode := chunk]), a.uploads[id := u.(written := |chunk|)])
    ensures After(a, Write(id, 0, chunk, 0, Works)) == b
  {
    assert [] + chunk == chunk;
  }

  lemma TwoCloses(target: Path, tmpA: Path, tmpB: Path, a4: Agent, a5: Agent, a6: Agent)
    requires target != tmpA && target != tmpB && tmpA != tmpB && target != Root && tmpA != Root && tmpB != Root
    requires var uA, uB := Upload(0, tmpA, target, 1, 0), Upload(1, tmpB, tmpA, 1, 0);
      && a4 == Agent(Disk(map[Root := Directory, tmpA := File(0), tmpB := File(1)], [[1], [2]]),
         map["A" := uA, "B" := uB])
      && a5 == Agent(Disk(map[Root := Directory, tmpA := File(1)], [[1], [2]]), map["A" := uA])
      && a6 == Agent(Disk(map[Root := Directory, target := File(1)], [[1], [2]]), map[])
    ensures After(a4, Close("B", 1, Works)) == a5 && After(a5, Close("A", 1, Works)) == a6
    ensures Answer(a5, Close("A", 1, Works)) == Written && Look(a6.disk, target) == Holds([2])
  {
    assert "A"[0] != "B"[0];
    assert After(a4, Close("B", 1, Works)).disk.names == a5.disk.names;
    assert After(a5, Close("A", 1, Works)).disk.names == a6.disk.names;
  }

  lemma NamesApart(target: Path, tmpA: Path, tmpB: Path)
    requires target == Child(Root, "x") && tmpA == TmpPath(Root, "A") && tmpB == TmpPath(Root, "B")
    ensures target != tmpA && target != tmpB && tmpA != tmpB
  {
    assert |target.name| == 1 && |tmpA.name| == |PREFIX| + 1 + |SUFFIX|;
    assert tmpA.name[|PREFIX|] == 'A' && tmpB.name[|PREFIX|] == 'B';
  }
}
