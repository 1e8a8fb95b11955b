/** The session table and the routing index, and the handlers that change them for one agent connection. */
module SessionTables {
  import opened Wrappers

  type SessionId = string
  type DeviceId = string

  const STARTING := "starting"
  const RUNNING := "running"
  const EXITED := "exited"
  const CLOSED := "closed"
  const LOST := "lost"

  datatype Row = Row(
    device: DeviceId, title: string, shellPath: string, workingDirectory: string, status: string, agentPid: int,
      lastSeq: int)

  /** `routes` says which device the hub sends a session's input to. */
  datatype Db = Db(table: map<SessionId, Row>, routes: map<SessionId, DeviceId>)

  datatype Summary = Summary(
    id: SessionId, title: string, shellPath: string, workingDirectory: string, status: string, agentPid: int,
      lastSeq: int)

  datatype Message =
    | Started(id: SessionId, pid: int, seqNo: int)
    | Stdout(id: SessionId, seqNo: int)
    | Exit(id: SessionId)

  /** One call a handler has decided on, after reading. */
  datatype Plan =
    | Insert(id: SessionId, row: Row)
    | Update(id: SessionId, status: string, pid: int, seqNo: int)
    | BindTo(id: SessionId)

  function ValueOr(value: string, fallback: string): string {
    if value != "" then value else fallback
  }

  lemma StatusesDiffer()
    ensures CLOSED != RUNNING && CLOSED != STARTING && CLOSED != EXITED && CLOSED != LOST
    ensures LOST != RUNNING && LOST != STARTING && LOST != EXITED
  {
  }

  predicate Alive(row: Row) {
    row.status == RUNNING || row.status == STARTING
  }

  // ---------------------------------------------------------------- reading

  predicate Owns(db: Db, d: DeviceId, id: SessionId) {
    id in db.table && db.table[id].device == d
  }

  /** The calls a message leads to, given the row as it was read. */
  function PlanMessage(db: Db, m: Message): seq<Plan> {
    match m
    case Started(id, pid, seqNo) => [Update(id, RUNNING, pid, seqNo), BindTo(id)]
    case Stdout(id, seqNo) =>
      if id !in db.table then [] else
        var row := db.table[id];
        [Update(id, if row.status == STARTING then RUNNING else row.status, row.agentPid, seqNo)]
    case Exit(id) =>
      if id !in db.table then [Update(id, EXITED, 0, 0)] else
        var row := db.table[id];
        [Update(id, if row.status == CLOSED then CLOSED else EXITED, row.agentPid, row.lastSeq)]
  }

  function NewRow(d: DeviceId, s: Summary): Row {
    Row(d, ValueOr(s.title, "shell"), ValueOr(s.shellPath, "/bin/bash"), ValueOr(s.workingDirectory, "$HOME"),
        ValueOr(s.status, RUNNING), s.agentPid, s.lastSeq)
  }

  function PlanSummary(db: Db, d: DeviceId, s: Summary): seq<Plan> {
    if s.id !in db.table then [Insert(s.id, NewRow(d, s)), BindTo(s.id)]
    else if db.table[s.id].device != d || db.table[s.id].status == CLOSED then []
    else [BindTo(s.id), Update(s.id, ValueOr(s.status, RUNNING), s.agentPid, s.lastSeq)]
  }

  function Ids(list: seq<Summary>): set<SessionId> {
    set i | 0 <= i < |list| :: list[i].id
  }

  lemma IdsOfOneMore(list: seq<Summary>, n: nat)
    requires n < |list|
    ensures Ids(list[..n + 1]) == Ids(list[..n]) + {list[n].id}
  {
  }

  /** The rows a sweep will mark as lost: alive, of this device, and not reported. */
  function Missing(db: Db, d: DeviceId, seen: set<SessionId>): map<SessionId, Row> {
    map id | id in db.table && db.table[id].device == d && id !in seen && Alive(db.table[id]) :: db.table[id]
  }

  // ---------------------------------------------------------------- writing

  function SetStatus(db: Db, id: SessionId, status: string, pid: int, seqNo: int): Db {
    if id !in db.table then db
    else db.(table := db.table[id := db.table[id].(status := status, agentPid := pid, lastSeq := seqNo)])
  }

  function Bind(db: Db, id: SessionId, d: DeviceId): Db {
    db.(routes := db.routes[id := d])
  }

  /** The insert of an id that is already there fails, and the handler goes on all the same. */
  function Perform(db: Db, d: DeviceId, p: Plan): Db {
    match p
    case Insert(id, row) => if id in db.table then db else db.(table := db.table[id := row])
    case Update(id, status, pid, seqNo) => SetStatus(db, id, status, pid, seqNo)
    case BindTo(id) => Bind(db, id, d)
  }

  function PerformAll(db: Db, d: DeviceId, ps: seq<Plan>): Db
    decreases |ps|
  {
    if ps == [] then db else PerformAll(Perform(db, d, ps[0]), d, ps[1..])
  }

  lemma PerformTwo(db: Db, d: DeviceId, p: Plan, q: Plan)
    ensures PerformAll(db, d, [p]) == Perform(db, d, p)
    ensures PerformAll(db, d, [p, q]) == Perform(Perform(db, d, p), d, q)
  {
    assert [p][1..] == [] && [p, q][1..] == [q] && [q][1..] == [];
    assert PerformAll(Perform(db, d, p), d, [q]) == Perform(Perform(db, d, p), d, q);
  }

  function Lose(db: Db, rows: map<SessionId, Row>): Db {
    db.(table := map id | id in db.table ::
      if id in rows then db.table[id].(status := LOST, agentPid := rows[id].agentPid, lastSeq := rows[id].lastSeq)
        else db.table[id])
  }

  // ---------------------------------------------------------------- handlers that are not interrupted

  function Handled(db: Db, d: DeviceId, m: Message): Db {
    if Owns(db, d, m.id) then PerformAll(db, d, PlanMessage(db, m)) else db
  }

  function Applied(db: Db, d: DeviceId, list: seq<Summary>, n: nat): Db
    requires n <= |list|
  {
    if n == 0 then db else
      var before := Applied(db, d, list, n - 1);
      PerformAll(before, d, PlanSummary(before, d, list[n - 1]))
  }

  function Synced(db: Db, d: DeviceId, list: seq<Summary>): Db {
    var applied := Applied(db, d, list, |list|);
    Lose(applied, Missing(applied, d, Ids(list)))
  }

  function Disconnected(db: Db, d: DeviceId): Db {
    Lose(db, Missing(db, d, {}))
  }

  class Router {
    var table: map<SessionId, Row>
    var routes: map<SessionId, DeviceId>

    function View(): Db
      reads this
    {
      Db(table, routes)
    }

    method UpdateTerminalSessionStatus(id: SessionId, status: string, pid: int, seqNo: int) returns (found: bool)
      modifies this
      ensures found == (id in old(table)) && View() == SetStatus(old(View()), id, status, pid, seqNo)
    {
      found := id in table;
      if found {
        table := table[id := table[id].(status := status, agentPid := pid, lastSeq := seqNo)];
      }
    }

    method CreateTerminalSession(id: SessionId, row: Row) returns (created: bool)
      modifies this
      ensures created == (id !in old(table)) && routes == old(routes)
      ensures table == if created then old(table)[id := row] else old(table)
    {
      created := id !in table;
      if created {
        table := table[id := row];
      }
    }

    method BindSession(id: SessionId, d: DeviceId)
      modifies this
      ensures View() == Bind(old(View()), id, d)
    {
      routes := routes[id := d];
    }

    method HandleAgentMessage(d: DeviceId, m: Message) returns (forbidden: bool)
      modifies this
      ensures forbidden == !Owns(old(View()), d, m.id)
      ensures View() == Handled(old(View()), d, m)
    {
      forbidden := !(m.id in table && table[m.id].device == d);
      if forbidden {
        return;
      }
      ghost var ps := PlanMessage(View(), m);
      PerformTwo(View(), d, ps[0], ps[|ps| - 1]);
      match m {
        case Started(id, pid, seqNo) =>
          var _ := UpdateTerminalSessionStatus(id, RUNNING, pid, seqNo);
          BindSession(id, d);
        case Stdout(id, seqNo) =>
          var status := table[id].status;
          if status == STARTING {
            status := RUNNING;
          }
          var _ := UpdateTerminalSessionStatus(id, status, table[id].agentPid, seqNo);
        case Exit(id) =>
          var status := EXITED;
          if table[id].status == CLOSED {
            status := CLOSED;
          }
          var _ := UpdateTerminalSessionStatus(id, status, table[id].agentPid, table[id].lastSeq);
      }
    }

    /** Marks the rows one by one, in any order. */
    method MarkLost(rows: map<SessionId, Row>)
      requires forall id :: id in rows ==> id in table && rows[id] == table[id]
      modifies this
      ensures View() == Lose(old(View()), rows)
    {
      var todo := rows.Keys;
      while todo != {}
        invariant todo <= rows.Keys && routes == old(routes) && table.Keys == old(table).Keys
        invariant forall id :: id in table ==>
          table[id] == if id in rows && id !in todo then old(table)[id].(status := LOST) else old(table)[id]
        decreases |todo|
      {
        var id :| id in todo;
        var _ := UpdateTerminalSessionStatus(id, LOST, rows[id].agentPid, rows[id].lastSeq);
        todo := todo - {id};
      }
      assert table == Lose(old(View()), rows).table;
    }

    /** The body of the loop over the report. */
    method SyncOne(d: DeviceId, summary: Summary)
      modifies this
      ensures View() == PerformAll(old(View()), d, PlanSummary(old(View()), d, summary))
    {
      ghost var ps := PlanSummary(View(), d, summary);
      if ps != [] {
        PerformTwo(View(), d, ps[0], ps[1]);
      }
      if summary.id !in table {
        var _ := CreateTerminalSession(summary.id, NewRow(d, summary));
        BindSession(summary.id, d);
        return;
      }
      if table[summary.id].device != d || table[summary.id].status == CLOSED {
        return;
      }
      BindSession(summary.id, d);
      var _ := UpdateTerminalSessionStatus(summary.id, ValueOr(summary.status, RUNNING), summary.agentPid,
        summary.lastSeq);
    }

    method SyncAgentSessions(d: DeviceId, list: seq<Summary>)
      modifies this
      ensures View() == Synced(old(View()), d, list)
    {
      var seen: set<SessionId> := {};
      for n := 0 to |list|
        invariant View() == Applied(old(View()), d, list, n)
        invariant seen == Ids(list[..n])
      {
        IdsOfOneMore(list, n);
        seen := seen + {list[n].id};
        SyncOne(d, list[n]);
      }
      assert list[..|list|] == list;
      Sweep(d, seen);
    }

    method Sweep(d: DeviceId, seen: set<SessionId>)
      modifies this
      ensures View() == Lose(old(View()), Missing(old(View()), d, seen))
    {
      MarkLost(Missing(View(), d, seen));
    }

    method MarkDisconnectedSessionsLost(d: DeviceId)
      modifies this
      ensures View() == Disconnected(old(View()), d)
    {
      Sweep(d, {});
    }
  }

  // ---------------------------------------------------------------- reconciliation

  /** All a session has in the two maps. */
  datatype Cell = Cell(row: Option<Row>, route: Option<DeviceId>)

  function CellOf(db: Db, id: SessionId): Cell {
    Cell(if id in db.table then Some(db.table[id]) else None, if id in db.routes then Some(db.routes[id]) else None)
  }

  lemma CellsDecide(a: Db, b: Db)
    requires forall id :: CellOf(a, id) == CellOf(b, id)
    ensures a == b
  {
    forall id ensures (id in a.table <==> id in b.table) && (id in a.table ==> a.table[id] == b.table[id])
    {
      assert CellOf(a, id) == CellOf(b, id);
    }
    forall id ensures (id in a.routes <==> id in b.routes) && (id in a.routes ==> a.routes[id] == b.routes[id])
    {
      assert CellOf(a, id) == CellOf(b, id);
    }
    assert a.table == b.table && a.routes == b.routes;
  }

  /** One summary for this very session. */
  function Report(c: Cell, d: DeviceId, s: Summary): Cell {
    if c.row.None? then Cell(Some(NewRow(d, s)), Some(d))
    else if c.row.value.device != d || c.row.value.status == CLOSED then c
    else Cell(Some(c.row.value.(status := ValueOr(s.status, RUNNING), agentPid := s.agentPid, lastSeq := s.lastSeq)),
      Some(d))
  }

  function Reported(c: Cell, d: DeviceId, list: seq<Summary>, id: SessionId, n: nat): Cell
    requires n <= |list|
  {
    if n == 0 then c else
      var before := Reported(c, d, list, id, n - 1);
      if list[n - 1].id == id then Report(before, d, list[n - 1]) else before
  }

  lemma {:induction false} AppliedCell(db: Db, d: DeviceId, list: seq<Summary>, id: SessionId, n: nat)
    requires n <= |list|
    ensures CellOf(Applied(db, d, list, n), id) == Reported(CellOf(db, id), d, list, id, n)
  {
    if n > 0 {
      AppliedCell(db, d, list, id, n - 1);
      SummaryCell(Applied(db, d, list, n - 1), d, list[n - 1], id);
    }
  }

  /** One summary, seen from one session. */
  lemma SummaryCell(db: Db, d: DeviceId, s: Summary, id: SessionId)
    ensures CellOf(PerformAll(db, d, PlanSummary(db, d, s)), id)
            == if s.id == id then Report(CellOf(db, id), d, s) else CellOf(db, id)
  {
    var ps := PlanSummary(db, d, s);
    if ps != [] {
      PerformTwo(db, d, ps[0], ps[1]);
    }
  }

  predicate Frozen(c: Cell, d: DeviceId) {
    c.row.Some? && (c.row.value.device != d || c.row.value.status == CLOSED)
  }

  lemma {:induction false} FrozenStays(c: Cell, d: DeviceId, list: seq<Summary>, id: SessionId, n: nat)
    requires n <= |list| && Frozen(c, d)
    ensures Reported(c, d, list, id, n) == c
  {
    if n > 0 {
      FrozenStays(c, d, list, id, n - 1);
    }
  }

  /** The columns no summary rewrites. */
  predicate SameShape(a: Row, b: Row) {
    a.device == b.device && a.title == b.title && a.shellPath == b.shellPath && a.workingDirectory == b.workingDirectory
  }

  /**
   A second pass from the end `r` of the first is, after each prefix, where it started or where the first pass was.
   */
  lemma {:induction false} SecondPass(c: Cell, r: Cell, d: DeviceId, list: seq<Summary>, id: SessionId, n: nat)
    requires n <= |list| && !Frozen(r, d)
    requires var p := Reported(c, d, list, id, n);
      !Frozen(p, d) && (p.row.Some? ==> r.row.Some? && SameShape(p.row.value, r.row.value))
    ensures Reported(r, d, list, id, n) == r || Reported(r, d, list, id, n) == Reported(c, d, list, id, n)
  {
    if n > 0 {
      SecondPass(c, r, d, list, id, n - 1);
    }
  }

  lemma ReportedTwice(c: Cell, d: DeviceId, list: seq<Summary>, id: SessionId)
    ensures var r := Reported(c, d, list, id, |list|);
      Reported(r, d, list, id, |list|) == r
  {
    var r := Reported(c, d, list, id, |list|);
    if Frozen(r, d) {
      FrozenStays(r, d, list, id, |list|);
    } else {
      SecondPass(c, r, d, list, id, |list|);
    }
  }

  lemma {:induction false} UnreportedStays(c: Cell, d: DeviceId, list: seq<Summary>, id: SessionId, n: nat)
    requires n <= |list| && id !in Ids(list)
    ensures Reported(c, d, list, id, n) == c
  {
    if n > 0 {
      assert list[n - 1].id in Ids(list);
      UnreportedStays(c, d, list, id, n - 1);
    }
  }

  /** What the sweep does to one session. */
  function Swept(c: Cell, d: DeviceId, seen: bool): Cell {
    if c.row.Some? && c.row.value.device == d && !seen && Alive(c.row.value)
    then c.(row := Some(c.row.value.(status := LOST))) else c
  }

  lemma SyncedCell(db: Db, d: DeviceId, list: seq<Summary>, id: SessionId)
    ensures CellOf(Synced(db, d, list), id) == Swept(Reported(CellOf(db, id), d, list, id, |list|), d, id in Ids(list))
  {
    AppliedCell(db, d, list, id, |list|);
  }

  /** After a sync every session of this device that counts as alive was reported by the agent. */
  lemma AliveWasReported(db: Db, d: DeviceId, list: seq<Summary>, id: SessionId)
    requires var t := Synced(db, d, list).table;
      id in t && t[id].device == d && Alive(t[id])
    ensures exists i :: 0 <= i < |list| && list[i].id == id
  {
  }

  /** A sync changes no session of another device, and none that is closed. */
  lemma SyncLeavesOthers(db: Db, d: DeviceId, list: seq<Summary>, id: SessionId)
    requires id in db.table && (db.table[id].device != d || db.table[id].status == CLOSED)
    ensures CellOf(Synced(db, d, list), id) == CellOf(db, id)
  {
    SyncedCell(db, d, list, id);
    FrozenStays(CellOf(db, id), d, list, id, |list|);
    StatusesDiffer();
  }

  /** The same report once more changes nothing, whatever it holds: repeated ids, empty or unknown statuses. */
  lemma SyncTwiceIsOnce(db: Db, d: DeviceId, list: seq<Summary>)
    ensures Synced(Synced(db, d, list), d, list) == Synced(db, d, list)
  {
    var once := Synced(db, d, list);
    forall id ensures CellOf(Synced(once, d, list), id) == CellOf(once, id) {
      SyncedCell(db, d, list, id);
      SyncedCell(once, d, list, id);
      if id in Ids(list) {
        ReportedTwice(CellOf(db, id), d, list, id);
      } else {
        UnreportedStays(CellOf(db, id), d, list, id, |list|);
        UnreportedStays(CellOf(once, id), d, list, id, |list|);
        StatusesDiffer();
      }
    }
    CellsDecide(Synced(once, d, list), once);
  }

  /**
   A reported session of this device ends with the values of its last report, unless it was or was reported closed.
   */
  lemma LastReportCounts(db: Db, d: DeviceId, list: seq<Summary>, n: nat)
    requires n < |list| && forall i :: n < i < |list| ==> list[i].id != list[n].id
    ensures var id := list[n].id; var t := Synced(db, d, list).table;
      && id in t
      && (t[id].device == d && t[id].status != CLOSED ==>
            t[id].status == ValueOr(list[n].status, RUNNING) && t[id].agentPid == list[n].agentPid
              && t[id].lastSeq == list[n].lastSeq
            && id in Synced(db, d, list).routes && Synced(db, d, list).routes[id] == d)
  {
    var id := list[n].id;
    assert id in Ids(list);
    SyncedCell(db, d, list, id);
    NoLaterReport(CellOf(db, id), d, list, n, |list|);
  }

  lemma {:induction false} NoLaterReport(c: Cell, d: DeviceId, list: seq<Summary>, n: nat, m: nat)
    requires n < m <= |list| && forall i :: n < i < m ==> list[i].id != list[n].id
    ensures Reported(c, d, list, list[n].id, m) == Reported(c, d, list, list[n].id, n + 1)
  {
    if n + 1 < m {
      NoLaterReport(c, d, list, n, m - 1);
    }
  }
}
