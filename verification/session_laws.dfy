/** What messages, reports and disconnects leave in the session table, column by column, and how long it lasts. */
module SessionLaws {
  import opened Wrappers
  import opened SessionTables
  import opened SessionRuns

  // ---------------------------------------------------------------- messages

  /**
   What a message leaves behind: a start makes the session running and routes it to the device, output counts as a start
   of one that is starting and otherwise moves the sequence number alone, and an exit ends what is not closed.
   */
  lemma MessageColumns(db: Db, d: DeviceId, m: Message)
    requires Owns(db, d, m.id)
    ensures var row, route, after := db.table[m.id], CellOf(db, m.id).route, CellOf(Handled(db, d, m), m.id);
      match m
      case Started(_, pid, seqNo) =>
        after == Cell(Some(row.(status := "running", agentPid := pid, lastSeq := seqNo)), Some(d))
      case Stdout(_, seqNo) =>
        after == Cell(Some(row.(status := if row.status == "starting" then "running" else row.status,
                                lastSeq := seqNo)), route)
      case Exit(_) => after == Cell(Some(row.(status := if row.status == "closed" then "closed" else "exited")), route)
  {
    var ps := PlanMessage(db, m);
    PerformTwo(db, d, ps[0], ps[|ps| - 1]);
  }

  /** No message changes another session, and none changes anything for a device that does not own its session. */
  lemma MessageLeavesOthers(db: Db, d: DeviceId, m: Message, id: SessionId)
    requires id != m.id || !Owns(db, d, m.id)
    ensures CellOf(Handled(db, d, m), id) == CellOf(db, id)
  {
    if Owns(db, d, m.id) {
      var ps := PlanMessage(db, m);
      PerformTwo(db, d, ps[0], ps[|ps| - 1]);
    }
  }

  // ---------------------------------------------------------------- reports and disconnects

  /** A session not reported keeps its row, except that an alive one of this device becomes lost. */
  lemma UnreportedIsLost(db: Db, d: DeviceId, list: seq<Summary>, id: SessionId)
    requires forall i :: 0 <= i < |list| ==> list[i].id != id
    ensures var c := CellOf(db, id);
      CellOf(Synced(db, d, list), id) ==
        if c.row.Some? && c.row.value.device == d && c.row.value.status in {"running", "starting"}
        then c.(row := Some(c.row.value.(status := "lost"))) else c
  {
    SyncedCell(db, d, list, id);
    UnreportedStays(CellOf(db, id), d, list, id, |list|);
  }

  /** A disconnect is a report of nothing. */
  lemma DisconnectIsEmptyReport(db: Db, d: DeviceId)
    ensures Disconnected(db, d) == Synced(db, d, [])
  {
    assert Ids([]) == {};
  }

  /** Report `n` is the last that counts for its session: the first to say closed, or else the last. */
  predicate Decides(list: seq<Summary>, n: nat) {
    && n < |list|
    && (forall i :: 0 <= i < n && list[i].id == list[n].id ==> list[i].status != "closed")
    && (list[n].status == "closed" || forall i :: n < i < |list| ==> list[i].id != list[n].id)
  }

  lemma {:induction false} OpenUntil(c: Cell, d: DeviceId, list: seq<Summary>, id: SessionId, n: nat)
    requires n <= |list| && !Frozen(c, d)
    requires forall i :: 0 <= i < n && list[i].id == id ==> list[i].status != "closed"
    ensures !Frozen(Reported(c, d, list, id, n), d)
  {
    if n > 0 {
      OpenUntil(c, d, list, id, n - 1);
    }
  }

  lemma {:induction false} DecidedStays(c: Cell, d: DeviceId, list: seq<Summary>, id: SessionId, n: nat, m: nat)
    requires n <= m <= |list|
    requires Frozen(Reported(c, d, list, id, n), d) || forall i :: n <= i < m ==> list[i].id != id
    ensures Reported(c, d, list, id, m) == Reported(c, d, list, id, n)
  {
    if n < m {
      DecidedStays(c, d, list, id, n, m - 1);
    }
  }

  /** A session of this device, or a new one, that is reported ends with what the deciding report says. */
  lemma DecidingReportCounts(db: Db, d: DeviceId, list: seq<Summary>, n: nat)
    requires Decides(list, n) && !Frozen(CellOf(db, list[n].id), d)
    ensures var s, after := list[n], CellOf(Synced(db, d, list), list[n].id);
      && after.row.Some? && after.route == Some(d) && after.row.value.device == d
      && after.row.value.status == (if s.status == "" then "running" else s.status)
      && after.row.value.agentPid == s.agentPid && after.row.value.lastSeq == s.lastSeq
  {
    var id, c := list[n].id, CellOf(db, list[n].id);
    assert id in Ids(list);
    SyncedCell(db, d, list, id);
    OpenUntil(c, d, list, id, n);
    DecidedStays(c, d, list, id, n + 1, |list|);
  }

  lemma {:induction false} ShapeStays(c: Cell, d: DeviceId, list: seq<Summary>, id: SessionId, n: nat, m: nat)
    requires n <= m <= |list| && Reported(c, d, list, id, n).row.Some?
    ensures Reported(c, d, list, id, m).row.Some?
    ensures SameShape(Reported(c, d, list, id, m).row.value, Reported(c, d, list, id, n).row.value)
  {
    if n < m {
      ShapeStays(c, d, list, id, n, m - 1);
    }
  }

  /** No report changes a session's owner, title, shell or directory. */
  lemma SyncKeepsShape(db: Db, d: DeviceId, list: seq<Summary>, id: SessionId)
    requires id in db.table
    ensures id in Synced(db, d, list).table && SameShape(Synced(db, d, list).table[id], db.table[id])
  {
    SyncedCell(db, d, list, id);
    ShapeStays(CellOf(db, id), d, list, id, 0, |list|);
  }

  /** A session first heard of in a report takes these from its first mention, or the defaults. */
  lemma FirstReportNames(db: Db, d: DeviceId, list: seq<Summary>, n: nat)
    requires n < |list| && list[n].id !in db.table && forall i :: 0 <= i < n ==> list[i].id != list[n].id
    ensures var s, t := list[n], Synced(db, d, list).table;
      && s.id in t && t[s.id].device == d
      && t[s.id].title == (if s.title == "" then "shell" else s.title)
      && t[s.id].shellPath == (if s.shellPath == "" then "/bin/bash" else s.shellPath)
      && t[s.id].workingDirectory == (if s.workingDirectory == "" then "$HOME" else s.workingDirectory)
  {
    var id, c := list[n].id, CellOf(db, list[n].id);
    SyncedCell(db, d, list, id);
    DecidedStays(c, d, list, id, 0, n);
    ShapeStays(c, d, list, id, n + 1, |list|);
  }

  // ---------------------------------------------------------------- web requests

  predicate IsWebOn(op: Op, id: SessionId) {
    match op
    case WebCreate(x, _, _, _) => x == id
    case WebBind(x) => x == id
    case WebSent(x, _) => x == id
    case WebClose(x) => x == id
    case WebRename(x, _) => x == id
    case WebSubscribe(x) => x == id
    case _ => false
  }

  /** What a web request leaves of its session, if there is one: only creating it needs none to be there. */
  lemma WebColumns(s: State, op: Op, id: SessionId)
    requires Enabled(s, op) && IsWebOn(op, id) && (id in s.db.table || op.WebCreate?)
    ensures var c, after := CellOf(s.db, id), CellOf(After(s, op).db, id);
      match op
      case WebCreate(_, d, shell, directory) =>
        c.row.None? && after == c.(row := Some(Row(d, "shell", shell, directory, "starting", 0, 0)))
      case WebBind(_) => after == c.(route := Some(s.binding[id]))
      case WebSent(_, delivered) =>
        after == if delivered then c else c.(row := Some(c.row.value.(status := "lost", agentPid := 0, lastSeq := 0)))
      case WebClose(_) => after == c.(row := Some(c.row.value.(status := "closed", agentPid := 0, lastSeq := 0)))
      case WebRename(_, title) => after == c.(row := Some(c.row.value.(title := title)))
      case WebSubscribe(_) => after == c.(route := Some(c.row.value.device))
      case _ => true
  {
  }

  /** No web request changes anything of another session. */
  lemma WebLeavesOthers(s: State, op: Op, id: SessionId, other: SessionId)
    requires Enabled(s, op) && IsWebOn(op, id) && other != id
    ensures CellOf(After(s, op).db, other) == CellOf(s.db, other)
  {
  }

  // ---------------------------------------------------------------- sessions that have ended

  predicate IsAlive(db: Db, id: SessionId) {
    id in db.table && (db.table[id].status == "running" || db.table[id].status == "starting")
  }

  predicate Revives(p: Plan, id: SessionId) {
    p.Update? && p.id == id && (p.status == "running" || p.status == "starting")
  }

  predicate SomeRevives(ps: seq<Plan>, id: SessionId) {
    exists k :: 0 <= k < |ps| && Revives(ps[k], id)
  }

  /** The handler holds a write that makes the session alive, or has still to come to it in a report. */
  predicate MayRevive(t: Task, id: SessionId) {
    match t
    case Writing(ps) => SomeRevives(ps, id)
    case Syncing(list, _) => id in Ids(list)
    case SyncWriting(list, _, ps) => id in Ids(list) || SomeRevives(ps, id)
    case _ => false
  }

  /** The agent says that the session has started, or names it in a report. */
  predicate SaysAlive(op: Op, id: SessionId) {
    SaysStarted(op, id) || (op.Report? && id in Ids(op.list))
  }

  predicate IsDown(s: State, d: DeviceId, id: SessionId) {
    Owns(s.db, d, id) && !IsAlive(s.db, id) && !MayRevive(TaskOf(s, d), id)
  }

  lemma StatusNames()
    ensures "exited" != "running" && "exited" != "starting" && "closed" != "running" && "closed" != "starting"
    ensures "lost" != "running" && "lost" != "starting" && "closed" != "exited"
  {
    assert "exited"[0] == 'e' && "closed"[0] == 'c' && "lost"[0] == 'l';
  }

  lemma PlansStayDown(db: Db, d: DeviceId, ps: seq<Plan>, id: SessionId)
    requires ps != [] && id in db.table && !IsAlive(db, id) && !SomeRevives(ps, id)
    ensures !IsAlive(Perform(db, d, ps[0]), id) && !SomeRevives(ps[1..], id)
  {
    assert !Revives(ps[0], id);
    assert forall k :: 0 <= k < |ps| - 1 ==> ps[1..][k] == ps[k + 1];
  }

  lemma SummaryOfOther(db: Db, d: DeviceId, list: seq<Summary>, n: nat, id: SessionId)
    requires n < |list| && id !in Ids(list)
    ensures !SomeRevives(PlanSummary(db, d, list[n]), id)
  {
    assert list[n].id in Ids(list);
  }

  lemma OwnHandlerStep(db: Db, d: DeviceId, t: Task, pick: SessionId, id: SessionId)
    requires CanContinue(t, pick) && id in db.table && !IsAlive(db, id) && !MayRevive(t, id)
    requires t.Owned? ==> !t.m.Started?
    ensures var (after, next) := Continued(db, d, t, pick);
      !IsAlive(after, id) && !MayRevive(next, id)
  {
    StatusNames();
    match t
    case Writing(ps) => PlansStayDown(db, d, ps, id);
    case SyncWriting(list, next, ps) => PlansStayDown(db, d, ps, id);
    case Syncing(list, next) =>
      if next < |list| {
        SummaryOfOther(db, d, list, next, id);
      }
    case _ =>
  }

  lemma DownStep(s: State, op: Op, d: DeviceId, id: SessionId)
    requires Enabled(s, op) && TasksOk(s.db, s.tasks) && BindingOk(s.db, s.binding) && NoOwnedStarted(s.tasks)
    requires IsDown(s, d, id) && !SaysAlive(op, id)
    ensures IsDown(After(s, op), d, id)
  {
    StatusNames();
    OwnersStep(s, op);
    if op.Continue? && op.d == d {
      OwnHandlerStep(s.db, d, TaskOf(s, d), op.pick, id);
    } else if op.Continue? {
      assert TaskOk(s.db, op.d, s.tasks[op.d]);
      OtherHandlerStep(s.db, op.d, TaskOf(s, op.d), op.pick, id);
    }
  }

  lemma OtherHandlerStep(db: Db, d: DeviceId, t: Task, pick: SessionId, id: SessionId)
    requires CanContinue(t, pick) && TaskOk(db, d, t) && id in db.table && db.table[id].device != d
    ensures var after := Continued(db, d, t, pick).0;
      id in after.table && after.table[id] == db.table[id]
  {
  }

  /**
   However handlers are interleaved, a session that is not alive, and that no handler is about to revive, is not alive
   again before the agent says that it has started or names it in a report.
   */
  lemma {:induction false} DownStaysDown(states: seq<State>, ops: seq<Op>, j: nat, n: nat, d: DeviceId, id: SessionId)
    requires IsRun(states, ops) && j <= n <= |ops| && IsDown(states[j], d, id)
    requires forall k :: j <= k < n ==> !SaysAlive(ops[k], id)
    ensures IsDown(states[n], d, id)
  {
    if j < n {
      DownStaysDown(states, ops, j, n - 1, d, id);
      RunTasksOk(states, ops, n - 1);
      RunNoOwnedStarted(states, ops, n - 1);
      DownStep(states[n - 1], ops[n - 1], d, id);
    }
  }

  /** Where the handling of an exit can be: it has still to be read, to be written, or the session is down. */
  predicate Exiting(s: State, d: DeviceId, id: SessionId) {
    && Owns(s.db, d, id)
    && match TaskOf(s, d)
       case Owned(m) => m == Exit(id)
       case Writing(ps) => |ps| == 1 && ps[0].Update? && ps[0].id == id && !Revives(ps[0], id)
       case Resting => !IsAlive(s.db, id)
       case _ => false
  }

  lemma ExitingStep(s: State, op: Op, d: DeviceId, id: SessionId)
    requires Enabled(s, op) && Exiting(s, d, id) && !TaskOf(s, d).Resting?
    ensures Exiting(After(s, op), d, id)
  {
    StatusNames();
    OwnersStep(s, op);
  }

  lemma {:induction false} ExitLands(states: seq<State>, ops: seq<Op>, i: nat, j: nat, d: DeviceId, id: SessionId)
    requires IsRun(states, ops) && i < j <= |ops| && ops[i] == Arrive(d, Exit(id)) && Owns(states[i].db, d, id)
    requires forall k :: i < k < j ==> !TaskOf(states[k], d).Resting?
    ensures Exiting(states[j], d, id)
  {
    OwnersStep(states[j - 1], ops[j - 1]);
    if i < j - 1 {
      ExitLands(states, ops, i, j - 1, d, id);
      ExitingStep(states[j - 1], ops[j - 1], d, id);
    }
  }

  /**
   An exit message ends the session: from the moment its handler rests the session is not alive, whatever else is going
   on, until the agent says that it has started or names it in a report.
   */
  lemma ExitedStaysDown(states: seq<State>, ops: seq<Op>, i: nat, j: nat, n: nat, d: DeviceId, id: SessionId)
    requires IsRun(states, ops) && i < j <= n <= |ops| && ops[i] == Arrive(d, Exit(id)) && Owns(states[i].db, d, id)
    requires TaskOf(states[j], d).Resting? && forall k :: i < k < j ==> !TaskOf(states[k], d).Resting?
    requires forall k :: j <= k < n ==> !SaysAlive(ops[k], id)
    ensures Owns(states[n].db, d, id) && !IsAlive(states[n].db, id)
  {
    ExitLands(states, ops, i, j, d, id);
    DownStaysDown(states, ops, j, n, d, id);
  }

  /** So does a start request that could not be sent. */
  lemma UnsentStaysDown(states: seq<State>, ops: seq<Op>, j: nat, n: nat, d: DeviceId, id: SessionId)
    requires IsRun(states, ops) && j < n <= |ops| && ops[j] == WebSent(id, false) && Owns(states[j].db, d, id)
    requires !MayRevive(TaskOf(states[j], d), id) && forall k :: j < k < n ==> !SaysAlive(ops[k], id)
    ensures Owns(states[n].db, d, id) && !IsAlive(states[n].db, id)
  {
    StatusNames();
    DownStaysDown(states, ops, j + 1, n, d, id);
  }

  // ---------------------------------------------------------------- a disconnect on its own

  /** A disconnect handled without interruption does what a report of nothing does. */
  lemma UndisturbedDisconnect(states: seq<State>, ops: seq<Op>, d: DeviceId, k: nat)
    requires Follows(states, ops) && 0 < k <= |ops| && ops[0] == Disconnect(d) && TaskOf(states[k], d).Resting?
    requires forall i :: 1 <= i < k ==> ops[i].Continue? && ops[i].d == d
    ensures states[k].db == Disconnected(states[0].db, d)
  {
    var rows := Missing(states[0].db, d, {});
    assert Enabled(states[0], ops[0]) && states[1] == After(states[0], ops[0]);
    if rows == map[] {
      LoseNothing(states[0].db);
    } else {
      UndisturbedSweep(states[1..], ops[1..], d, k - 1);
    }
  }
}
