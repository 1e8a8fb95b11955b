/**
 What the agent answers and which uploads are live, told from the requests of the run and from what is on the disk.
 */
module UploadLaws {
  import opened Wrappers
  import opened UploadManagers

  // ---------------------------------------------------------------- opening

  /**
   The path must lie in a directory, be none itself, and have no name at all unless overwriting was asked for; the
   temporary name beside it must be free.
   */
  lemma OpenAnswer(a: Agent, op: Op)
    requires op.Open?
    ensures Answer(a, op) ==
      if op.path.None? || op.path.value.Root? then Refused(InvalidPath)
      else
        var at, parent := Look(a.disk, op.path.value), op.path.value.parent;
        if Look(a.disk, parent) == Missing then Refused(NotFound)
        else if Look(a.disk, parent) != Dir then Refused(NotADirectory)
        else if at == Dir then Refused(NotAFile)
        else if !op.overwrite && at != Missing then Refused(AlreadyExists)
        else if Look(a.disk, Child(parent, ".vibe-upload-" + op.id + ".tmp")) != Missing then Refused(IoError)
        else if op.io.Fails? then Refused(op.io.error)
        else Opened
  {
  }

  // ---------------------------------------------------------------- which uploads are live

  predicate Uses(a: Agent, op: Op, id: UploadId) {
    Opens(a, op, id) || Acknowledges(a, op, id)
  }

  ghost predicate LastUse(states: seq<Agent>, ops: seq<Op>, j: nat, n: nat, id: UploadId)
    requires IsRun(states, ops) && n <= |ops|
  {
    j < n && Uses(states[j], ops[j], id) && forall m :: j < m < n ==> !Uses(states[m], ops[m], id)
  }

  /** A step that ends the upload: its close, a chunk it refuses, a cleanup after `maxAge` idle, a disconnect. */
  ghost predicate Ends(states: seq<Agent>, ops: seq<Op>, m: nat, id: UploadId)
    requires IsRun(states, ops) && m < |ops|
  {
    match ops[m]
    case Open(_, _, _, _, _) => false
    case Write(x, _, _, _, _) => x == id && Answer(states[m], ops[m]).Refused?
    case Close(x, _, _) => x == id
    case CleanStale(now, maxAge) => exists j: nat :: LastUse(states, ops, j, m, id) && now - ops[j].now >= maxAge
    case DropManager => true
  }

  /** Step `k` opened the upload, and since then it has been neither opened again nor ended. */
  ghost predicate StillLive(states: seq<Agent>, ops: seq<Op>, k: nat, n: nat, id: UploadId)
    requires IsRun(states, ops) && n <= |ops|
  {
    && k < n && Opens(states[k], ops[k], id)
    && forall m :: k < m < n ==> !Opens(states[m], ops[m], id) && !Ends(states, ops, m, id)
  }

  predicate EndsIfIdleSince(a: Agent, op: Op, id: UploadId, last: Time) {
    match op
    case Open(_, _, _, _, _) => false
    case Write(x, _, _, _, _) => x == id && Answer(a, op).Refused?
    case Close(x, _, _) => x == id
    case CleanStale(now, maxAge) => now - last >= maxAge
    case DropManager => true
  }

  lemma LiveStep(a: Agent, op: Op, id: UploadId)
    requires Inv(a) && !Opens(a, op, id)
    ensures id in After(a, op).uploads <==>
      id in a.uploads && !EndsIfIdleSince(a, op, id, a.uploads[id].lastActivity)
    ensures id in After(a, op).uploads ==>
      && SameFile(After(a, op).uploads[id], a.uploads[id])
      && After(a, op).uploads[id].lastActivity == if Acknowledges(a, op, id) then op.now else a.uploads[id].lastActivity
  {
    if id in After(a, op).uploads {
      ContentStep(a, op, id);
    }
  }

  lemma OpenedStep(a: Agent, op: Op, id: UploadId)
    requires Inv(a) && Opens(a, op, id)
    ensures id in After(a, op).uploads
    ensures var u := After(a, op).uploads[id];
      u.target == op.path.value && u.tmp == Child(op.path.value.parent, ".vibe-upload-" + id + ".tmp")
      && u.lastActivity == op.now
  {
  }

  /** The upload is live with the target it was opened for, and its clock is that of its last use. */
  ghost predicate IsAsOpened(states: seq<Agent>, ops: seq<Op>, k: nat, n: nat, id: UploadId)
    requires IsRun(states, ops) && n <= |ops|
  {
    && k < n && Opens(states[k], ops[k], id) && id in states[n].uploads
    && var u := states[n].uploads[id];
       && u.target == ops[k].path.value && u.tmp == Child(u.target.parent, ".vibe-upload-" + id + ".tmp")
       && exists j: nat :: LastUse(states, ops, j, n, id) && u.lastActivity == ops[j].now
  }

  lemma OpenedInRun(states: seq<Agent>, ops: seq<Op>, k: nat, id: UploadId)
    requires IsRun(states, ops) && k < |ops| && Opens(states[k], ops[k], id)
    ensures IsAsOpened(states, ops, k, k + 1, id)
  {
    InvHolds(states, ops, k);
    OpenedStep(states[k], ops[k], id);
    assert LastUse(states, ops, k, k + 1, id);
  }

  lemma LastUseMore(states: seq<Agent>, ops: seq<Op>, j: nat, m: nat, id: UploadId)
    requires IsRun(states, ops) && m < |ops| && LastUse(states, ops, j, m, id)
    ensures LastUse(states, ops, if Uses(states[m], ops[m], id) then m else j, m + 1, id)
    ensures forall i: nat :: LastUse(states, ops, i, m, id) ==> i == j
  {
  }

  lemma LiveInRun(states: seq<Agent>, ops: seq<Op>, k: nat, m: nat, id: UploadId)
    requires IsRun(states, ops) && m < |ops| && IsAsOpened(states, ops, k, m, id) && !Opens(states[m], ops[m], id)
    ensures id in states[m + 1].uploads <==> !Ends(states, ops, m, id)
    ensures id in states[m + 1].uploads ==> IsAsOpened(states, ops, k, m + 1, id)
  {
    InvHolds(states, ops, m);
    LiveStep(states[m], ops[m], id);
    var j: nat :| LastUse(states, ops, j, m, id) && states[m].uploads[id].lastActivity == ops[j].now;
    LastUseMore(states, ops, j, m, id);
  }

  lemma {:induction false} OpenedIsLive(states: seq<Agent>, ops: seq<Op>, k: nat, n: nat, id: UploadId)
    requires IsRun(states, ops) && n <= |ops| && StillLive(states, ops, k, n, id)
    ensures IsAsOpened(states, ops, k, n, id)
  {
    if k == n - 1 {
      OpenedInRun(states, ops, k, id);
    } else {
      OpenedIsLive(states, ops, k, n - 1, id);
      LiveInRun(states, ops, k, n - 1, id);
    }
  }

  lemma WasLiveBefore(states: seq<Agent>, ops: seq<Op>, m: nat, id: UploadId)
    requires IsRun(states, ops) && m < |ops| && id in states[m + 1].uploads && !Opens(states[m], ops[m], id)
    ensures id in states[m].uploads
  {
    InvHolds(states, ops, m);
    LiveStep(states[m], ops[m], id);
  }

  lemma {:induction false} LiveWasOpened(states: seq<Agent>, ops: seq<Op>, n: nat, id: UploadId) returns (k: nat)
    requires IsRun(states, ops) && n <= |ops| && id in states[n].uploads
    ensures StillLive(states, ops, k, n, id)
  {
    var m := n - 1;
    if Opens(states[m], ops[m], id) {
      k := m;
    } else {
      WasLiveBefore(states, ops, m, id);
      k := LiveWasOpened(states, ops, m, id);
      OpenedIsLive(states, ops, k, m, id);
      LiveInRun(states, ops, k, m, id);
    }
  }

  /**
   An upload is live exactly if it was opened and since then has not been closed, has refused no chunk, has been cleaned
   up by nothing but cleanups less than `maxAge` after its opening or its last acknowledged chunk, and the connection
   has stayed.
   */
  lemma LiveExactly(states: seq<Agent>, ops: seq<Op>, n: nat, id: UploadId)
    requires IsRun(states, ops) && n <= |ops|
    ensures id in states[n].uploads <==> exists k: nat :: StillLive(states, ops, k, n, id)
    ensures forall k: nat :: StillLive(states, ops, k, n, id) ==> IsAsOpened(states, ops, k, n, id)
  {
    if id in states[n].uploads {
      var k := LiveWasOpened(states, ops, n, id);
    }
    forall k: nat | StillLive(states, ops, k, n, id) ensures IsAsOpened(states, ops, k, n, id) {
      OpenedIsLive(states, ops, k, n, id);
    }
  }

  // ---------------------------------------------------------------- what writes, closes and cleanups do

  ghost predicate Live(states: seq<Agent>, ops: seq<Op>, n: nat, id: UploadId)
    requires IsRun(states, ops) && n <= |ops|
  {
    exists k: nat :: StillLive(states, ops, k, n, id)
  }

  /** A chunk is taken exactly if the upload is live and the chunk follows on from those acknowledged. */
  lemma WriteAnswer(states: seq<Agent>, ops: seq<Op>, n: nat)
    requires IsRun(states, ops) && n < |ops| && ops[n].Write?
    ensures var op := ops[n];
      Answer(states[n], op) ==
        if !Live(states, ops, n, op.id) then Refused(NotFound)
        else if op.offset != |Accepted(states, ops, n, op.id)| then Refused(InvalidRequest)
        else if op.io.Fails? then Refused(IoError)
        else Ack(|Accepted(states, ops, n, op.id) + op.chunk|)
  {
    var id := ops[n].id;
    LiveExactly(states, ops, n, id);
    if id in states[n].uploads {
      TemporaryHoldsAccepted(states, ops, n, id);
    }
  }

  /** The target of the upload that step `k` opened is a directory by now. */
  predicate Blocked(a: Agent, opening: Op) {
    opening.Open? && opening.path.Some? && Look(a.disk, opening.path.value) == Dir
  }

  /** A close succeeds exactly if the upload is live with its declared size and its target is no directory. */
  lemma CloseAnswer(states: seq<Agent>, ops: seq<Op>, n: nat)
    requires IsRun(states, ops) && n < |ops| && ops[n].Close?
    ensures var op := ops[n];
      Answer(states[n], op) ==
        if !Live(states, ops, n, op.id) then Refused(NotFound)
        else if op.total != |Accepted(states, ops, n, op.id)| then Refused(InvalidRequest)
        else if op.io.Fails? then Refused(op.io.error)
        else if exists k: nat :: StillLive(states, ops, k, n, op.id) && Blocked(states[n], ops[k]) then Refused(IoError)
        else Written
  {
    var id := ops[n].id;
    LiveExactly(states, ops, n, id);
    if id in states[n].uploads {
      TemporaryHoldsAccepted(states, ops, n, id);
    }
  }

  /** A cleanup ends the uploads last used `maxAge` ago or longer and no others; every other upload goes on. */
  lemma CleanupTakesStale(states: seq<Agent>, ops: seq<Op>, n: nat, id: UploadId) returns (j: nat)
    requires IsRun(states, ops) && n < |ops| && ops[n].CleanStale? && id in states[n].uploads
    ensures LastUse(states, ops, j, n, id)
    ensures id in states[n + 1].uploads <==> ops[n].now - ops[j].now < ops[n].maxAge
    ensures id in StaleIds(states[n], ops[n].now, ops[n].maxAge) <==> id !in states[n + 1].uploads
  {
    var k := LiveWasOpened(states, ops, n, id);
    OpenedIsLive(states, ops, k, n, id);
    InvHolds(states, ops, n);
    LiveStep(states[n], ops[n], id);
    j :| LastUse(states, ops, j, n, id) && states[n].uploads[id].lastActivity == ops[j].now;
  }

  // ---------------------------------------------------------------- what an open without overwriting protects

  /**
   Every file that a close puts in place was asked for: the upload was opened for that path, and if without overwriting,
   then the path had no name when it was opened.
   */
  lemma CommittedAsOpened(states: seq<Agent>, ops: seq<Op>, n: nat) returns (k: nat)
    requires IsRun(states, ops) && n < |ops| && ops[n].Close? && Answer(states[n], ops[n]) == Written
    ensures StillLive(states, ops, k, n, ops[n].id) && ops[k].path == Some(states[n].uploads[ops[n].id].target)
    ensures !ops[k].overwrite ==> ops[k].path.value !in states[k].disk.names
  {
    k := LiveWasOpened(states, ops, n, ops[n].id);
    OpenedIsLive(states, ops, k, n, ops[n].id);
  }

  ghost predicate StoredAt(states: seq<Agent>, ops: seq<Op>, m: nat, p: Path)
    requires IsRun(states, ops) && m < |ops|
  {
    ops[m].Close? && Answer(states[m], ops[m]) == Written && states[m].uploads[ops[m].id].target == p
  }

  lemma {:induction false} AppearedByStore(states: seq<Agent>, ops: seq<Op>, i: nat, j: nat, p: Path) returns (m: nat)
    requires IsRun(states, ops) && i <= j <= |ops| && Shown(states[i], p) == Missing && Shown(states[j], p) != Missing
    ensures i <= m < j && StoredAt(states, ops, m, p)
  {
    m := j - 1;
    if Shown(states[m], p) == Missing {
      var k, whole := OnlyWholeUploadsAppear(states, ops, m, p);
    } else {
      m := AppearedByStore(states, ops, i, m, p);
    }
  }

  /**
   A close of an upload opened without overwriting replaces nothing but what another upload stored there in between:
   a file that was there at its opening is never replaced.
   */
  lemma NothingIsReplacedUnasked(states: seq<Agent>, ops: seq<Op>, k: nat, n: nat) returns (m: nat)
    requires IsRun(states, ops) && n < |ops| && ops[n].Close? && Answer(states[n], ops[n]) == Written
    requires StillLive(states, ops, k, n, ops[n].id) && !ops[k].overwrite
    requires Shown(states[n], ops[k].path.value) != Missing
    ensures k < m < n && StoredAt(states, ops, m, ops[k].path.value)
  {
    var p := ops[k].path.value;
    assert Shown(states[k], p) == Missing;
    m := AppearedByStore(states, ops, k, n, p);
  }
}
