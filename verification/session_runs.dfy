/**
 Handlers at the granularity of single calls to the store and the hub: what a handler writes was decided by an earlier
 read, and web requests and other agents run in between. Each agent connection handles its messages one after the other.
 Only a subscription reads and binds in one step: what it reads, a session's owner, never changes.
 */
module SessionRuns {
  import opened SessionTables

  /** How far the handler of one connection has come. `Sweeping` holds the rows as they were read. */
  datatype Task =
    | Resting
    | Owned(m: Message)
    | Writing(ps: seq<Plan>)
    | Syncing(list: seq<Summary>, next: nat)
    | SyncWriting(list: seq<Summary>, next: nat, ps: seq<Plan>)
    | Sweeping(rows: map<SessionId, Row>)

  /**
   Sessions that web requests have inserted: `binding` has those still to be bound, `creating` those then still to
   be started.
   */
  datatype State = State(db: Db, tasks: map<DeviceId, Task>, binding: map<SessionId, DeviceId>,
                         creating: set<SessionId>)

  datatype Op =
    | Arrive(d: DeviceId, m: Message)
    | Report(d: DeviceId, list: seq<Summary>)
    | Disconnect(d: DeviceId)
    | Continue(d: DeviceId, pick: SessionId)
    | WebCreate(id: SessionId, d: DeviceId, shellPath: string, workingDirectory: string)
    | WebBind(id: SessionId)
    | WebSent(id: SessionId, delivered: bool)
    | WebClose(id: SessionId)
    | WebRename(id: SessionId, title: string)
    | WebSubscribe(id: SessionId)

  function TaskOf(s: State, d: DeviceId): Task {
    if d in s.tasks then s.tasks[d] else Resting
  }

  predicate Enabled(s: State, op: Op) {
    match op
    case Arrive(d, _) => TaskOf(s, d).Resting?
    case Report(d, _) => TaskOf(s, d).Resting?
    case Disconnect(d) => TaskOf(s, d).Resting?
    case Continue(d, pick) => CanContinue(TaskOf(s, d), pick)
    case WebCreate(id, _, _, _) => id !in s.db.table
    case WebBind(id) => id in s.binding
    case WebSent(id, _) => id in s.creating
    case _ => true
  }

  function SweepTask(rows: map<SessionId, Row>): Task {
    if rows == map[] then Resting else Sweeping(rows)
  }

  function WriteTask(ps: seq<Plan>): Task {
    if ps == [] then Resting else Writing(ps)
  }

  function SyncTask(list: seq<Summary>, next: nat, ps: seq<Plan>): Task {
    if ps == [] then Syncing(list, next + 1) else SyncWriting(list, next, ps)
  }

  predicate CanContinue(t: Task, pick: SessionId) {
    match t
    case Resting => false
    case Owned(_) => true
    case Writing(ps) => ps != []
    case Syncing(list, next) => next <= |list|
    case SyncWriting(list, next, ps) => next < |list| && ps != []
    case Sweeping(rows) => pick in rows
  }

  function Continued(db: Db, d: DeviceId, t: Task, pick: SessionId): (Db, Task)
    requires CanContinue(t, pick)
  {
    match t
    case Owned(m) => (db, WriteTask(PlanMessage(db, m)))
    case Writing(ps) => (Perform(db, d, ps[0]), WriteTask(ps[1..]))
    case Syncing(list, next) =>
      (db, if next == |list| then SweepTask(Missing(db, d, Ids(list)))
        else SyncTask(list, next, PlanSummary(db, d, list[next])))
    case SyncWriting(list, next, ps) => (Perform(db, d, ps[0]), SyncTask(list, next, ps[1..]))
    case Sweeping(rows) => (SetStatus(db, pick, LOST, rows[pick].agentPid, rows[pick].lastSeq),
      SweepTask(rows - {pick}))
  }

  function Renamed(db: Db, id: SessionId, title: string): Db {
    if id in db.table then db.(table := db.table[id := db.table[id].(title := title)]) else db
  }

  function AfterDb(s: State, op: Op): Db
    requires Enabled(s, op)
  {
    match op
    case Continue(d, pick) => Continued(s.db, d, TaskOf(s, d), pick).0
    case WebCreate(id, d, shellPath, workingDirectory) =>
      Perform(s.db, d, Insert(id, Row(d, "shell", shellPath, workingDirectory, STARTING, 0, 0)))
    case WebBind(id) => Bind(s.db, id, s.binding[id])
    case WebSent(id, delivered) => if delivered then s.db else SetStatus(s.db, id, LOST, 0, 0)
    case WebClose(id) => SetStatus(s.db, id, CLOSED, 0, 0)
    case WebRename(id, title) => Renamed(s.db, id, title)
    case WebSubscribe(id) => if id in s.db.table then Bind(s.db, id, s.db.table[id].device) else s.db
    case _ => s.db
  }

  function AfterTasks(s: State, op: Op): map<DeviceId, Task>
    requires Enabled(s, op)
  {
    match op
    case Arrive(d, m) =>
      s.tasks[d := if !Owns(s.db, d, m.id) then Resting else if m.Started? then WriteTask(PlanMessage(s.db, m))
        else Owned(m)]
    case Report(d, list) => s.tasks[d := Syncing(list, 0)]
    case Disconnect(d) => s.tasks[d := SweepTask(Missing(s.db, d, {}))]
    case Continue(d, pick) => s.tasks[d := Continued(s.db, d, TaskOf(s, d), pick).1]
    case _ => s.tasks
  }

  function After(s: State, op: Op): State
    requires Enabled(s, op)
  {
    State(AfterDb(s, op), AfterTasks(s, op),
          match op
          case WebCreate(id, d, _, _) => s.binding[id := d]
          case WebBind(id) => s.binding - {id}
          case _ => s.binding,
          match op
          case WebBind(id) => s.creating + {id}
          case WebSent(id, _) => s.creating - {id}
          case _ => s.creating)
  }

  function Initial(): State {
    State(Db(map[], map[]), map[], map[], {})
  }

  /** Consecutive states; `IsRun` also says where they begin. */
  ghost predicate Follows(states: seq<State>, ops: seq<Op>) {
    && |states| == |ops| + 1
    && forall i :: 0 <= i < |ops| ==> Enabled(states[i], ops[i]) && states[i + 1] == After(states[i], ops[i])
  }

  ghost predicate IsRun(states: seq<State>, ops: seq<Op>) {
    Follows(states, ops) && states[0] == Initial()
  }

  lemma Extended(states: seq<State>, ops: seq<Op>, op: Op, after: State)
    requires IsRun(states, ops) && Enabled(states[|ops|], op) && after == After(states[|ops|], op)
    ensures IsRun(states + [after], ops + [op])
  {
  }

  // ---------------------------------------------------------------- what handlers hold

  /** The five shapes a list of pending calls has. */
  predicate PlansOk(db: Db, d: DeviceId, ps: seq<Plan>) {
    ps == [] ||
    match ps[0]
    case Insert(id, row) => row.device == d && ps[1..] == [BindTo(id)]
    case BindTo(id) => id in db.table
      && (ps[1..] == [] || (Owns(db, d, id) && |ps| == 2 && ps[1].Update? && ps[1].id == id))
    case Update(id, _, _, _) => Owns(db, d, id) && (ps[1..] == [] || ps[1..] == [BindTo(id)])
  }

  /** Every write a handler holds is for its own device's sessions. */
  ghost predicate TaskOk(db: Db, d: DeviceId, t: Task) {
    match t
    case Resting => true
    case Owned(m) => Owns(db, d, m.id)
    case Writing(ps) => PlansOk(db, d, ps)
    case Syncing(list, next) => next <= |list|
    case SyncWriting(list, next, ps) => next < |list| && PlansOk(db, d, ps)
    case Sweeping(rows) => forall id :: id in rows ==> Owns(db, d, id)
  }

  ghost predicate TasksOk(db: Db, tasks: map<DeviceId, Task>) {
    forall d :: d in tasks ==> TaskOk(db, d, tasks[d])
  }

  /** What a web request has still to bind is its own device's. */
  ghost predicate BindingOk(db: Db, binding: map<SessionId, DeviceId>) {
    forall id :: id in binding ==> Owns(db, binding[id], id)
  }

  /** Rows stay and keep their owner. */
  ghost predicate SameOwners(a: Db, b: Db) {
    forall id :: id in a.table ==> id in b.table && b.table[id].device == a.table[id].device
  }

  lemma OwnersStep(s: State, op: Op)
    requires Enabled(s, op)
    ensures SameOwners(s.db, After(s, op).db)
  {
  }

  lemma TaskOkLater(a: Db, b: Db, d: DeviceId, t: Task)
    requires SameOwners(a, b) && TaskOk(a, d, t)
    ensures TaskOk(b, d, t)
  {
  }

  lemma PlansOkAtFirst(db: Db, d: DeviceId, m: Message, s: Summary)
    ensures PlansOk(db, d, PlanSummary(db, d, s))
    ensures Owns(db, d, m.id) ==> PlansOk(db, d, PlanMessage(db, m))
  {
  }

  lemma ContinuedTaskOk(db: Db, d: DeviceId, t: Task, pick: SessionId)
    requires TaskOk(db, d, t) && CanContinue(t, pick)
    ensures var (after, next) := Continued(db, d, t, pick);
      TaskOk(after, d, next)
  {
  }

  lemma StepKeepsTasksOk(s: State, op: Op)
    requires Enabled(s, op) && TasksOk(s.db, s.tasks) && BindingOk(s.db, s.binding)
    ensures TasksOk(After(s, op).db, After(s, op).tasks) && BindingOk(After(s, op).db, After(s, op).binding)
  {
    OwnersStep(s, op);
    var t := After(s, op);
    forall d | d in t.tasks ensures TaskOk(t.db, d, t.tasks[d]) {
      if op.Continue? && op.d == d {
        ContinuedTaskOk(s.db, d, TaskOf(s, d), op.pick);
      } else if op.Arrive? && op.d == d {
        PlansOkAtFirst(s.db, d, op.m, Summary("", "", "", "", "", 0, 0));
      } else if d in s.tasks && t.tasks[d] == s.tasks[d] {
        TaskOkLater(s.db, t.db, d, s.tasks[d]);
      }
    }
  }

  lemma {:induction false} RunTasksOk(states: seq<State>, ops: seq<Op>, n: nat)
    requires IsRun(states, ops) && n <= |ops|
    ensures TasksOk(states[n].db, states[n].tasks) && BindingOk(states[n].db, states[n].binding)
  {
    if n > 0 {
      RunTasksOk(states, ops, n - 1);
      StepKeepsTasksOk(states[n - 1], ops[n - 1]);
    }
  }

  // ---------------------------------------------------------------- owners and isolation

  /** A session never changes its owner, and never disappears. */
  lemma {:induction false} OwnerNeverChanges(states: seq<State>, ops: seq<Op>, i: nat, j: nat, id: SessionId)
    requires Follows(states, ops) && i <= j <= |ops| && id in states[i].db.table
    ensures id in states[j].db.table && states[j].db.table[id].device == states[i].db.table[id].device
  {
    if i < j {
      OwnerNeverChanges(states, ops, i, j - 1, id);
      OwnersInRun(states, ops, j - 1);
    }
  }

  lemma OwnersInRun(states: seq<State>, ops: seq<Op>, j: nat)
    requires Follows(states, ops) && j < |ops|
    ensures SameOwners(states[j].db, states[j + 1].db)
  {
    OwnersStep(states[j], ops[j]);
  }

  /** The step is made for an agent's connection, not for a web request. */
  predicate IsAgentOf(op: Op, d: DeviceId) {
    (op.Arrive? || op.Report? || op.Disconnect? || op.Continue?) && op.d == d
  }

  /** Nothing one device's agent sends changes a session of another device, however handlers are interleaved. */
  lemma OthersUntouched(states: seq<State>, ops: seq<Op>, n: nat, d: DeviceId, id: SessionId)
    requires IsRun(states, ops) && n < |ops| && IsAgentOf(ops[n], d)
    requires id in states[n].db.table && states[n].db.table[id].device != d
    ensures id in states[n + 1].db.table && states[n + 1].db.table[id] == states[n].db.table[id]
  {
    RunTasksOk(states, ops, n);
  }

  // ---------------------------------------------------------------- routes

  predicate RouteOk(db: Db, id: SessionId) {
    id in db.routes ==> id in db.table && db.routes[id] == db.table[id].device
  }

  ghost predicate RoutesOk(db: Db) {
    forall id :: RouteOk(db, id)
  }

  /** The calls a handler holds. */
  function Pending(t: Task): seq<Plan> {
    match t
    case Writing(ps) => ps
    case SyncWriting(_, _, ps) => ps
    case _ => []
  }

  function NextCall(s: State, op: Op): seq<Plan> {
    if op.Continue? && Pending(TaskOf(s, op.d)) != [] then [Pending(TaskOf(s, op.d))[0]] else []
  }

  /** The handler binds a session that belongs to another device. */
  predicate LateBind(s: State, op: Op) {
    NextCall(s, op) != [] && NextCall(s, op)[0].BindTo? && op.Continue?
    && NextCall(s, op)[0].id in s.db.table && s.db.table[NextCall(s, op)[0].id].device != op.d
  }

  /** The handler goes on to insert a session that another device has inserted since it looked. */
  predicate LateInsert(s: State, op: Op) {
    NextCall(s, op) != [] && NextCall(s, op)[0].Insert? && op.Continue?
    && NextCall(s, op)[0].id in s.db.table && s.db.table[NextCall(s, op)[0].id].device != op.d
  }

  lemma RouteStep(s: State, op: Op, id: SessionId)
    requires Enabled(s, op) && TasksOk(s.db, s.tasks) && BindingOk(s.db, s.binding) && RouteOk(s.db, id)
    requires !LateBind(s, op)
    ensures RouteOk(After(s, op).db, id)
  {
  }

  lemma RouteStepBack(s: State, op: Op)
    requires Enabled(s, op) && LateBind(s, op)
    ensures !RouteOk(After(s, op).db, NextCall(s, op)[0].id)
  {
  }

  /** Such a session was inserted too late by the same handler before. */
  lemma {:induction false} LateBindWasLateInsert(states: seq<State>, ops: seq<Op>, n: nat, d: DeviceId, id: SessionId)
    returns (k: nat)
    requires IsRun(states, ops) && n <= |ops| && Pending(TaskOf(states[n], d)) == [BindTo(id)]
    requires !Owns(states[n].db, d, id)
    ensures k < n && LateInsert(states[k], ops[k]) && ops[k].d == d && NextCall(states[k], ops[k])[0].id == id
  {
    k := n - 1;
    var s, op := states[k], ops[k];
    RunTasksOk(states, ops, k);
    OwnersStep(s, op);
    if !(op.Continue? && op.d == d) {
      k := LateBindWasLateInsert(states, ops, k, d, id);
    } else {
      LateBindStep(s, d, op.pick, id);
    }
  }

  lemma LateBindStep(s: State, d: DeviceId, pick: SessionId, id: SessionId)
    requires Enabled(s, Continue(d, pick)) && TasksOk(s.db, s.tasks)
    requires var t := After(s, Continue(d, pick)); Pending(TaskOf(t, d)) == [BindTo(id)] && !Owns(t.db, d, id)
    ensures LateInsert(s, Continue(d, pick)) && NextCall(s, Continue(d, pick))[0].id == id
  {
  }

  lemma {:induction false} RoutesOkUpTo(states: seq<State>, ops: seq<Op>, n: nat)
    requires IsRun(states, ops) && n <= |ops| && forall k :: 0 <= k < n ==> !LateBind(states[k], ops[k])
    ensures RoutesOk(states[n].db)
  {
    if n > 0 {
      RoutesOkUpTo(states, ops, n - 1);
      RunTasksOk(states, ops, n - 1);
      forall id ensures RouteOk(states[n].db, id) {
        assert RouteOk(states[n - 1].db, id);
        RouteStep(states[n - 1], ops[n - 1], id);
      }
    }
  }

  /**
   All routes lead to the stored owner at every moment, if and only if no handler binds a session that another device
   has inserted between the handler's look and its own insert.
   */
  lemma RoutesFollowOwners(states: seq<State>, ops: seq<Op>)
    requires IsRun(states, ops)
    ensures (forall n :: 0 <= n <= |ops| ==> RoutesOk(states[n].db)) <==>
      (forall k :: 0 <= k < |ops| ==> !LateBind(states[k], ops[k]))
  {
    if forall k :: 0 <= k < |ops| ==> !LateBind(states[k], ops[k]) {
      forall n | 0 <= n <= |ops| ensures RoutesOk(states[n].db) {
        RoutesOkUpTo(states, ops, n);
      }
    } else {
      var k :| 0 <= k < |ops| && LateBind(states[k], ops[k]);
      RouteStepBack(states[k], ops[k]);
      assert !RoutesOk(states[k + 1].db);
    }
  }

  lemma SyncGoesOn(s: State, d: DeviceId, list: seq<Summary>, row: Row)
    requires |list| == 1 && list[0].id == "x" && row == NewRow(d, list[0])
    ensures TaskOf(s, d) == Syncing(list, 0) && "x" !in s.db.table ==>
      GoesOn(s, d, s.db, SyncWriting(list, 0, [Insert("x", row), BindTo("x")]))
    ensures TaskOf(s, d) == SyncWriting(list, 0, [Insert("x", row), BindTo("x")]) ==>
      GoesOn(s, d, if "x" in s.db.table then s.db
        else s.db.(table := s.db.table["x" := row]), SyncWriting(list, 0, [BindTo("x")]))
    ensures TaskOf(s, d) == SyncWriting(list, 0, [BindTo("x")]) ==> GoesOn(s, d, Bind(s.db, "x", d), Syncing(list, 1))
  {
  }

  /** The handler's next step leads there. */
  predicate GoesOn(s: State, d: DeviceId, db: Db, t: Task) {
    Enabled(s, Continue(d, "x")) && After(s, Continue(d, "x")) == s.(db := db, tasks := s.tasks[d := t])
  }

  /** Agents "a" and "b" report the same unknown session at the same time: both are about to insert it. */
  lemma TwoSyncsLook(list: seq<Summary>, rowA: Row, rowB: Row) returns (states: seq<State>, ops: seq<Op>)
    requires |list| == 1 && list[0].id == "x" && rowA == NewRow("a", list[0]) && rowB == NewRow("b", list[0])
    ensures IsRun(states, ops)
    ensures states[|ops|] == Initial().(tasks := map["a" := SyncWriting(list, 0, [Insert("x", rowA), BindTo("x")]),
                                                     "b" := SyncWriting(list, 0, [Insert("x", rowB), BindTo("x")])])
  {
    assert "a"[0] != "b"[0];
    var insertA, insertB := SyncWriting(list, 0, [Insert("x", rowA), BindTo("x")]),
      SyncWriting(list, 0, [Insert("x", rowB), BindTo("x")]);
    var s1 := Initial().(tasks := map["a" := Syncing(list, 0)]);
    var s2 := s1.(tasks := s1.tasks["b" := Syncing(list, 0)]);
    var s3 := s2.(tasks := s2.tasks["a" := insertA]);
    var s4 := s3.(tasks := s3.tasks["b" := insertB]);
    SyncGoesOn(s2, "a", list, rowA);
    SyncGoesOn(s3, "b", list, rowB);
    states, ops := [Initial(), s1, s2, s3, s4],
      [Report("a", list), Report("b", list), Continue("a", "x"), Continue("b", "x")];
    assert s1 == After(Initial(), ops[0]) && s2 == After(s1, ops[1]) && s3 == After(s2, ops[2])
      && s4 == After(s3, ops[3]);
  }

  /** Then "a" inserts and binds it, and so does "b": "a" owns it, its input goes to "b". */
  lemma TwoSyncsCanMisroute() returns (states: seq<State>, ops: seq<Op>)
    ensures IsRun(states, ops)
    ensures var db := states[|ops|].db;
      "x" in db.table && db.table["x"].device == "a" && "x" in db.routes && db.routes["x"] == "b"
  {
    var list := [Summary("x", "", "", "", "", 1, 0)];
    var rowA, rowB := NewRow("a", list[0]), NewRow("b", list[0]);
    var a, b, bind, done := Continue("a", "x"), Continue("b", "x"), SyncWriting(list, 0, [BindTo("x")]),
      Syncing(list, 1);
    assert "a"[0] != "b"[0];
    states, ops := TwoSyncsLook(list, rowA, rowB);
    var s4 := states[|ops|];
    var s5 := s4.(db := s4.db.(table := s4.db.table["x" := rowA]), tasks := s4.tasks["a" := bind]);
    var s6 := s5.(db := Bind(s5.db, "x", "a"), tasks := s5.tasks["a" := done]);
    var s7 := s6.(tasks := s6.tasks["b" := bind]);
    var s8 := s7.(db := Bind(s7.db, "x", "b"), tasks := s7.tasks["b" := done]);
    SyncGoesOn(s4, "a", list, rowA);
    Extended(states, ops, a, s5);
    SyncGoesOn(s5, "a", list, rowA);
    Extended(states + [s5], ops + [a], a, s6);
    SyncGoesOn(s6, "b", list, rowB);
    Extended(states + [s5] + [s6], ops + [a] + [a], b, s7);
    SyncGoesOn(s7, "b", list, rowB);
    Extended(states + [s5] + [s6] + [s7], ops + [a] + [a] + [b], b, s8);
    states, ops := states + [s5] + [s6] + [s7] + [s8], ops + [a] + [a] + [b] + [b];
  }

  // ---------------------------------------------------------------- closed sessions

  predicate IsClosed(s: State, id: SessionId) {
    id in s.db.table && s.db.table[id].status == CLOSED
  }

  predicate Reopens(p: Plan, id: SessionId) {
    p.Update? && p.id == id && p.status != CLOSED
  }

  predicate SomeReopens(ps: seq<Plan>, id: SessionId) {
    exists k :: 0 <= k < |ps| && Reopens(ps[k], id)
  }

  /** The handler holds a write, decided before, that gives the session another status than closed. */
  predicate Threatens(t: Task, id: SessionId) {
    match t
    case Writing(ps) => SomeReopens(ps, id)
    case SyncWriting(_, _, ps) => SomeReopens(ps, id)
    case Sweeping(rows) => id in rows
    case _ => false
  }

  predicate Endangered(s: State, id: SessionId) {
    id in s.binding || id in s.creating || exists d :: d in s.tasks && Threatens(s.tasks[d], id)
  }

  predicate SaysStarted(op: Op, id: SessionId) {
    op.Arrive? && op.m.Started? && op.m.id == id
  }

  lemma ContinuedIsHarmless(db: Db, d: DeviceId, t: Task, pick: SessionId, id: SessionId)
    requires id in db.table && db.table[id].status == CLOSED && !Threatens(t, id)
    requires CanContinue(t, pick)
    requires t.Owned? ==> !t.m.Started?
    ensures var (after, next) := Continued(db, d, t, pick);
      id in after.table && after.table[id].status == CLOSED && !Threatens(next, id)
  {
  }

  ghost predicate NoOwnedStarted(tasks: map<DeviceId, Task>) {
    forall d :: d in tasks && tasks[d].Owned? ==> !tasks[d].m.Started?
  }

  lemma SafeStep(s: State, op: Op, id: SessionId)
    requires Enabled(s, op) && NoOwnedStarted(s.tasks)
    requires IsClosed(s, id) && !Endangered(s, id) && !SaysStarted(op, id)
    ensures IsClosed(After(s, op), id) && !Endangered(After(s, op), id) && NoOwnedStarted(After(s, op).tasks)
  {
    StatusesDiffer();
    var t := After(s, op);
    if op.Continue? {
      ContinuedIsHarmless(s.db, op.d, TaskOf(s, op.d), op.pick, id);
    }
    forall d | d in t.tasks ensures !Threatens(t.tasks[d], id) {
      if d in s.tasks {
        assert !Threatens(s.tasks[d], id);
      }
    }
  }

  lemma {:induction false} SafeRun(states: seq<State>, ops: seq<Op>, j: nat, id: SessionId)
    requires Follows(states, ops) && j <= |ops| && NoOwnedStarted(states[0].tasks)
    requires IsClosed(states[0], id) && !Endangered(states[0], id)
    requires forall k :: 0 <= k < j ==> !SaysStarted(ops[k], id)
    ensures IsClosed(states[j], id) && !Endangered(states[j], id) && NoOwnedStarted(states[j].tasks)
  {
    if j > 0 {
      SafeRun(states, ops, j - 1, id);
      SafeStep(states[j - 1], ops[j - 1], id);
    }
  }

  /** Whoever endangers the session need only go on, for one step or two, to reopen it. */
  lemma DangerStrikes(s: State, id: SessionId) returns (states: seq<State>, ops: seq<Op>)
    requires TasksOk(s.db, s.tasks) && BindingOk(s.db, s.binding) && IsClosed(s, id) && Endangered(s, id)
    ensures Follows(states, ops) && states[0] == s && !IsClosed(states[|ops|], id)
    ensures forall k :: 0 <= k < |ops| ==> !SaysStarted(ops[k], id)
  {
    StatusesDiffer();
    if id in s.creating {
      states, ops := [s, After(s, WebSent(id, false))], [WebSent(id, false)];
    } else if id in s.binding {
      var bound := After(s, WebBind(id));
      states, ops := [s, bound, After(bound, WebSent(id, false))], [WebBind(id), WebSent(id, false)];
    } else {
      var d :| d in s.tasks && Threatens(s.tasks[d], id);
      assert TaskOk(s.db, d, s.tasks[d]);
      var go := Continue(d, id);
      var next := After(s, go);
      if IsClosed(next, id) {
        SecondStepStrikes(s, d, id);
        states, ops := [s, next, After(next, go)], [go, go];
      } else {
        states, ops := [s, next], [go];
      }
    }
  }

  lemma SecondStepStrikes(s: State, d: DeviceId, id: SessionId)
    requires TasksOk(s.db, s.tasks) && IsClosed(s, id) && d in s.tasks && Threatens(s.tasks[d], id)
    requires Enabled(s, Continue(d, id)) && IsClosed(After(s, Continue(d, id)), id)
    ensures var next := After(s, Continue(d, id));
      Enabled(next, Continue(d, id)) && !IsClosed(After(next, Continue(d, id)), id)
  {
  }

  ghost predicate StaysClosed(s: State, id: SessionId) {
    forall states, ops ::
      Follows(states, ops) && states[0] == s && (forall k :: 0 <= k < |ops| ==> !SaysStarted(ops[k], id)) ==>
      IsClosed(states[|ops|], id)
  }

  lemma {:induction false} RunNoOwnedStarted(states: seq<State>, ops: seq<Op>, n: nat)
    requires IsRun(states, ops) && n <= |ops|
    ensures NoOwnedStarted(states[n].tasks)
  {
    if n > 0 {
      RunNoOwnedStarted(states, ops, n - 1);
    }
  }

  /**
   A closed session stays closed whatever output, exits, reports, disconnects and web requests follow, short of
   the agent saying that it started, if and only if no handler still holds a write that it decided on before the close.
   */
  lemma ClosedStaysClosed(states: seq<State>, ops: seq<Op>, n: nat, id: SessionId)
    requires IsRun(states, ops) && n <= |ops| && IsClosed(states[n], id)
    ensures StaysClosed(states[n], id) <==> !Endangered(states[n], id)
  {
    RunNoOwnedStarted(states, ops, n);
    RunTasksOk(states, ops, n);
    var s := states[n];
    if Endangered(s, id) {
      var later, steps := DangerStrikes(s, id);
    } else {
      forall later, steps | Follows(later, steps) && later[0] == s
        && (forall k :: 0 <= k < |steps| ==> !SaysStarted(steps[k], id))
        ensures IsClosed(later[|steps|], id)
      {
        SafeRun(later, steps, |steps|, id);
      }
    }
  }

  lemma CreatedSession(row: Row) returns (states: seq<State>, ops: seq<Op>)
    requires row == Row("a", "shell", "", "", STARTING, 0, 0)
    ensures IsRun(states, ops) && states[|ops|] == State(Db(map["x" := row], map["x" := "a"]), map[], map[], {})
  {
    var s1 := Initial().(db := Db(map["x" := row], map[]), binding := map["x" := "a"]);
    var s2 := s1.(db := Bind(s1.db, "x", "a"), binding := s1.binding - {"x"}, creating := s1.creating + {"x"});
    var s3 := s2.(creating := s2.creating - {"x"});
    states, ops := [Initial(), s1, s2, s3], [WebCreate("x", "a", "", ""), WebBind("x"), WebSent("x", true)];
    assert s1 == After(Initial(), ops[0]) && s2 == After(s1, ops[1]) && s3 == After(s2, ops[2]);
  }

  /** Output is being handled while the session is closed: the status read before the close is written after it. */
  lemma OutputCanUndoClose() returns (states: seq<State>, ops: seq<Op>)
    ensures IsRun(states, ops) && |ops| > 2
    ensures ops[|ops| - 2] == WebClose("x") && IsClosed(states[|ops| - 1], "x")
    ensures "x" in states[|ops|].db.table && states[|ops|].db.table["x"].status == RUNNING
  {
    StatusesDiffer();
    var row := Row("a", "shell", "", "", STARTING, 0, 0);
    var message, plan, go := Stdout("x", 1), [Update("x", RUNNING, 0, 1)], Continue("a", "x");
    assert plan[1..] == [];
    states, ops := CreatedSession(row);
    var s3 := states[|ops|];
    var s4 := s3.(tasks := s3.tasks["a" := Owned(message)]);
    var s5 := s4.(tasks := s4.tasks["a" := Writing(plan)]);
    var s6 := s5.(db := SetStatus(s5.db, "x", CLOSED, 0, 0));
    var s7 := s6.(db := SetStatus(s6.db, "x", RUNNING, 0, 1), tasks := s6.tasks["a" := Resting]);
    Extended(states, ops, Arrive("a", message), s4);
    states, ops := states + [s4], ops + [Arrive("a", message)];
    Extended(states, ops, go, s5);
    states, ops := states + [s5], ops + [go];
    Extended(states, ops, WebClose("x"), s6);
    states, ops := states + [s6], ops + [WebClose("x")];
    Extended(states, ops, go, s7);
    states, ops := states + [s7], ops + [go];
  }

  /** With no handler under way, closing a session is final until the agent says that it started. */
  lemma CloseAtRestIsFinal(states: seq<State>, ops: seq<Op>, n: nat, id: SessionId)
    requires IsRun(states, ops) && n < |ops| && ops[n] == WebClose(id) && id in states[n].db.table
    requires id !in states[n].binding && id !in states[n].creating && forall d :: d in states[n].tasks ==>
      states[n].tasks[d].Resting?
    ensures IsClosed(states[n + 1], id) && StaysClosed(states[n + 1], id)
  {
    ClosedStaysClosed(states, ops, n + 1, id);
  }

  // ---------------------------------------------------------------- what undisturbed handlers amount to

  /** Where an uninterrupted report can be: the table is as the loop has it, or will be once the calls held are made. */
  ghost predicate SyncStage(start: Db, d: DeviceId, list: seq<Summary>, db: Db, t: Task) {
    match t
    case Syncing(l, n) => l == list && n <= |list| && db == Applied(start, d, list, n)
    case SyncWriting(l, n, ps) =>
      l == list && n < |list| && ps != [] && PerformAll(db, d, ps) == Applied(start, d, list, n + 1)
    case Sweeping(rows) => rows.Keys <= db.table.Keys && Lose(db, rows) == Synced(start, d, list)
    case Resting => db == Synced(start, d, list)
    case _ => false
  }

  lemma SyncLooks(start: Db, d: DeviceId, list: seq<Summary>, db: Db, n: nat)
    requires n < |list| && db == Applied(start, d, list, n)
    ensures SyncStage(start, d, list, db, SyncTask(list, n, PlanSummary(db, d, list[n])))
  {
  }

  lemma SyncLists(start: Db, d: DeviceId, list: seq<Summary>, db: Db)
    requires db == Applied(start, d, list, |list|)
    ensures SyncStage(start, d, list, db, SweepTask(Missing(db, d, Ids(list))))
  {
    LoseNothing(db);
  }

  lemma LoseNothing(db: Db)
    ensures Lose(db, map[]) == db
  {
    assert Lose(db, map[]).table == db.table;
  }

  lemma SyncWrites(start: Db, d: DeviceId, list: seq<Summary>, db: Db, n: nat, ps: seq<Plan>)
    requires n < |list| && ps != [] && PerformAll(db, d, ps) == Applied(start, d, list, n + 1)
    ensures SyncStage(start, d, list, Perform(db, d, ps[0]), SyncTask(list, n, ps[1..]))
  {
  }

  /** Marking one row of a sweep leaves the others to be marked. */
  lemma LoseOne(db: Db, rows: map<SessionId, Row>, pick: SessionId)
    requires pick in rows && rows.Keys <= db.table.Keys
    ensures var next := SetStatus(db, pick, LOST, rows[pick].agentPid, rows[pick].lastSeq);
      Lose(next, rows - {pick}) == Lose(db, rows) && (rows - {pick}).Keys <= next.table.Keys
  {
    var next := SetStatus(db, pick, LOST, rows[pick].agentPid, rows[pick].lastSeq);
    assert Lose(next, rows - {pick}).table == Lose(db, rows).table;
  }

  lemma SyncSweeps(start: Db, d: DeviceId, list: seq<Summary>, db: Db, rows: map<SessionId, Row>, pick: SessionId)
    requires pick in rows && SyncStage(start, d, list, db, Sweeping(rows))
    ensures var (after, next) := Continued(db, d, Sweeping(rows), pick);
      SyncStage(start, d, list, after, next)
  {
    LoseOne(db, rows, pick);
    LoseNothing(SetStatus(db, pick, LOST, rows[pick].agentPid, rows[pick].lastSeq));
  }

  lemma SyncStageStep(start: Db, d: DeviceId, list: seq<Summary>, db: Db, t: Task, pick: SessionId)
    requires SyncStage(start, d, list, db, t) && CanContinue(t, pick)
    ensures var (after, next) := Continued(db, d, t, pick);
      SyncStage(start, d, list, after, next)
  {
    match t
    case Syncing(_, n) =>
      if n < |list| { SyncLooks(start, d, list, db, n); } else { SyncLists(start, d, list, db); }
    case SyncWriting(_, n, ps) => SyncWrites(start, d, list, db, n, ps);
    case Sweeping(rows) => SyncSweeps(start, d, list, db, rows, pick);
  }

  /**
   A report handled without interruption is always at such a stage; once the handler rests, all is as `Synced` says.
   */
  lemma {:induction false} UndisturbedSync(states: seq<State>, ops: seq<Op>, d: DeviceId, list: seq<Summary>, k: nat)
    requires Follows(states, ops) && 0 < k <= |ops| && ops[0] == Report(d, list)
    requires forall i :: 1 <= i < k ==> ops[i].Continue? && ops[i].d == d
    ensures SyncStage(states[0].db, d, list, states[k].db, TaskOf(states[k], d))
  {
    var before, op := states[k - 1], ops[k - 1];
    assert Enabled(before, op) && states[k] == After(before, op);
    if k > 1 {
      UndisturbedSync(states, ops, d, list, k - 1);
      SyncStageStep(states[0].db, d, list, before.db, TaskOf(before, d), op.pick);
    }
  }

  /** A sweep carried through without interruption marks all its rows, in whatever order. */
  lemma {:induction false} UndisturbedSweep(states: seq<State>, ops: seq<Op>, d: DeviceId, k: nat)
    requires Follows(states, ops) && k <= |ops| && TaskOf(states[0], d).Sweeping?
    requires TaskOf(states[0], d).rows.Keys <= states[0].db.table.Keys
    requires forall i :: 0 <= i < k ==> ops[i].Continue? && ops[i].d == d
    ensures match TaskOf(states[k], d)
      case Sweeping(rows) =>
        rows.Keys <= states[k].db.table.Keys
          && Lose(states[k].db, rows) == Lose(states[0].db, TaskOf(states[0], d).rows)
      case Resting => states[k].db == Lose(states[0].db, TaskOf(states[0], d).rows)
      case _ => false
  {
    if k > 0 {
      var before, op := states[k - 1], ops[k - 1];
      assert Enabled(before, op) && states[k] == After(before, op);
      UndisturbedSweep(states, ops, d, k - 1);
      var rows := TaskOf(before, d).rows;
      LoseOne(before.db, rows, op.pick);
      LoseNothing(SetStatus(before.db, op.pick, LOST, rows[op.pick].agentPid, rows[op.pick].lastSeq));
    }
  }

  /** A message handled without interruption does what `Handled` says. */
  lemma {:induction false} UndisturbedMessage(states: seq<State>, ops: seq<Op>, d: DeviceId, m: Message, k: nat)
    requires Follows(states, ops) && 0 < k <= |ops| && ops[0] == Arrive(d, m)
    requires forall i :: 1 <= i < k ==> ops[i].Continue? && ops[i].d == d
    ensures match TaskOf(states[k], d)
      case Resting => states[k].db == Handled(states[0].db, d, m)
      case Owned(n) => n == m && Owns(states[0].db, d, m.id) && states[k].db == states[0].db
      case Writing(ps) => PerformAll(states[k].db, d, ps) == Handled(states[0].db, d, m)
      case _ => false
  {
    assert states[1] == After(states[0], ops[0]);
    if k > 1 {
      UndisturbedMessage(states, ops, d, m, k - 1);
      assert states[k] == After(states[k - 1], ops[k - 1]);
    }
  }
}
