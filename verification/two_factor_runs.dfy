/**
 What the two-factor tables guarantee over whole runs.

 A run is any sequence of transactions in any order, with any arguments. No
 theorem here assumes that ids are fresh: each says instead which earlier or
 later transaction must have reused an id for the guarantee to lapse, and the
 fresh-id forms at the end follow.
 */
module TwoFactorRuns {
  import opened Wrappers
  import opened TwoFactorTables
  import Totp
  import LoginChallenges

  /** `states[i]` is the database before transaction `i`. */
  ghost predicate IsRun(states: seq<Database>, ops: seq<Op>) {
    && |states| == |ops| + 1
    && forall i :: 0 <= i < |ops| ==> StepOf(states, ops, i)
  }

  ghost predicate StepOf(states: seq<Database>, ops: seq<Op>, i: nat)
    requires i < |ops| && |states| == |ops| + 1
  {
    && states[i + 1] == After(states[i], ops[i])
    && (ops[i].CreateChallenge? ==> ops[i].collected <= Expired(states[i].challenges, ops[i].createdAt))
  }

  ghost predicate Succeeds(states: seq<Database>, ops: seq<Op>, i: nat)
    requires IsRun(states, ops) && i < |ops|
  {
    StepError(states[i], ops[i]).None?
  }

  // ---------------------------------------------------------------- login challenges

  predicate Creates(op: Op, jti: Id) {
    op.CreateChallenge? && op.jti == jti
  }

  predicate LogsInWith(op: Op, jti: Id) {
    op.Login? && op.jti == jti
  }

  predicate ChallengeSpent(db: Database, jti: Id) {
    jti in db.challenges ==> db.challenges[jti].consumedAt.Some?
  }

  lemma {:induction false} SpentStaysSpent(states: seq<Database>, ops: seq<Op>, i: nat, j: nat, jti: Id)
    requires IsRun(states, ops) && i <= j <= |ops| && ChallengeSpent(states[i], jti)
    requires forall k :: i <= k < j ==> !(Creates(ops[k], jti) && Succeeds(states, ops, k))
    ensures ChallengeSpent(states[j], jti)
    decreases j - i
  {
    if i < j {
      assert StepOf(states, ops, i);
      assert ChallengeSpent(states[i + 1], jti);
      SpentStaysSpent(states, ops, i + 1, j, jti);
    }
  }

  /** Two logins with one jti are separated by a creation of that jti. */
  lemma ChallengeIsSingleUse(states: seq<Database>, ops: seq<Op>, i: nat, j: nat, jti: Id)
    requires IsRun(states, ops) && i < j < |ops|
    requires LogsInWith(ops[i], jti) && LogsInWith(ops[j], jti)
    requires Succeeds(states, ops, i) && Succeeds(states, ops, j)
    ensures exists k :: i < k < j && Creates(ops[k], jti) && Succeeds(states, ops, k)
  {
    assert StepOf(states, ops, i);
    if forall k :: i < k < j ==> !(Creates(ops[k], jti) && Succeeds(states, ops, k)) {
      SpentStaysSpent(states, ops, i + 1, j, jti);
      assert false;
    }
  }

  // ---------------------------------------------------------------- TOTP counters

  /** The counter an operation presents for a user's configuration, if it presents one. */
  predicate PresentsCounter(op: Op, user: Id, configuration: Id) {
    match op
    case Login(_, u, c, counter, _, _, _) => u == user && c == configuration && counter.Some?
    case Enable(u, c, _, _, _) => u == user && c == configuration
    case ConsumeCounter(u, c, _, _) => u == user && c == configuration
    case Rotate(u, c, _, _, _) => u == user && c == configuration
    case _ => false
  }

  function CounterOf(op: Op): int {
    match op
    case Login(_, _, _, counter, _, _, _) => if counter.Some? then counter.value else 0
    case Enable(_, _, totp, _, _) => totp
    case ConsumeCounter(_, _, totp, _) => totp
    case Rotate(_, _, totp, _, _) => totp
    case _ => 0
  }

  predicate Saves(op: Op, user: Id, configuration: Id) {
    (op.SavePending? || op.SaveIfUnchanged?) && op.user == user && op.configuration == configuration
  }

  ghost predicate Accepts(states: seq<Database>, ops: seq<Op>, i: nat, user: Id, configuration: Id)
    requires IsRun(states, ops) && i < |ops|
  {
    PresentsCounter(ops[i], user, configuration) && Succeeds(states, ops, i)
  }

  ghost predicate NotSavedBetween(states: seq<Database>, ops: seq<Op>, i: nat, j: nat, user: Id, configuration: Id)
    requires IsRun(states, ops) && j <= |ops|
  {
    forall k :: i <= k < j ==> !(Saves(ops[k], user, configuration) && Succeeds(states, ops, k))
  }

  /** Whatever is still stored under the configuration is enabled and has passed `floor`. */
  predicate CounterAtLeast(db: Database, user: Id, configuration: Id, floor: int) {
    user in db.settings && db.settings[user].configuration == configuration ==>
      && db.settings[user].enabledAt.Some?
      && db.settings[user].lastCounter.Some?
      && floor <= db.settings[user].lastCounter.value
  }

  lemma CounterFloorStep(db: Database, op: Op, user: Id, configuration: Id, floor: int)
    requires CounterAtLeast(db, user, configuration, floor)
    requires !(Saves(op, user, configuration) && StepError(db, op).None?)
    ensures CounterAtLeast(After(db, op), user, configuration, floor)
  {}

  lemma {:induction false} CounterFloorHolds(states: seq<Database>, ops: seq<Op>, i: nat, j: nat, user: Id,
                                             configuration: Id, floor: int)
    requires IsRun(states, ops) && i <= j <= |ops| && CounterAtLeast(states[i], user, configuration, floor)
    requires NotSavedBetween(states, ops, i, j, user, configuration)
    ensures CounterAtLeast(states[j], user, configuration, floor)
    decreases j - i
  {
    if i < j {
      assert StepOf(states, ops, i);
      CounterFloorStep(states[i], ops[i], user, configuration, floor);
      CounterFloorHolds(states, ops, i + 1, j, user, configuration, floor);
    }
  }

  /** Section 5.2 of RFC 6238: under one configuration every accepted counter is above all accepted before it. */
  lemma AcceptedCountersIncrease(states: seq<Database>, ops: seq<Op>, i: nat, j: nat, user: Id, configuration: Id)
    requires IsRun(states, ops) && i < j < |ops|
    requires Accepts(states, ops, i, user, configuration) && Accepts(states, ops, j, user, configuration)
    requires NotSavedBetween(states, ops, i + 1, j, user, configuration)
    ensures CounterOf(ops[i]) < CounterOf(ops[j])
  {
    assert StepOf(states, ops, i);
    CounterFloorHolds(states, ops, i + 1, j, user, configuration, CounterOf(ops[i]));
  }

  /** A configuration is confirmed at most once between two saves of it. */
  lemma EnabledOnce(states: seq<Database>, ops: seq<Op>, i: nat, j: nat, user: Id, configuration: Id)
    requires IsRun(states, ops) && i < j < |ops|
    requires Accepts(states, ops, i, user, configuration) && Accepts(states, ops, j, user, configuration)
    requires ops[j].Enable?
    ensures exists k :: i < k < j && Saves(ops[k], user, configuration) && Succeeds(states, ops, k)
  {
    assert StepOf(states, ops, i);
    if NotSavedBetween(states, ops, i + 1, j, user, configuration) {
      CounterFloorHolds(states, ops, i + 1, j, user, configuration, CounterOf(ops[i]));
      assert false;
    }
  }

  // ---------------------------------------------------------------- how many codes fit in a span of time

  function ClockOf(op: Op): Time {
    match op
    case Login(_, _, _, _, _, now, _) => now
    case Enable(_, _, _, _, now) => now
    case ConsumeCounter(_, _, _, now) => now
    case Rotate(_, _, _, _, now) => now
    case _ => 0
  }

  function UnixSeconds(t: Time): int { t / 1_000_000_000 }

  /** Every accepted counter came from matching `codes[i]` against `keys[i]` at the clock the transaction carries. */
  ghost predicate CodesWereMatched(states: seq<Database>, ops: seq<Op>, user: Id, configuration: Id, t0: Time, t1: Time,
                                   mac: Totp.Mac, keys: seq<seq<Totp.Byte>>, codes: seq<string>)
    requires IsRun(states, ops)
  {
    && |keys| == |codes| == |ops|
    && forall i :: 0 <= i < |ops| && Accepts(states, ops, i, user, configuration) ==>
      && t0 <= ClockOf(ops[i]) <= t1 && 0 <= CounterOf(ops[i])
      && Totp.EarliestMatch(mac, keys[i], codes[i], UnixSeconds(ClockOf(ops[i])), CounterOf(ops[i]))
  }

  /** The configuration is not saved again from one acceptance to a later one. */
  ghost predicate SavedBeforeAccepted(states: seq<Database>, ops: seq<Op>, user: Id, configuration: Id)
    requires IsRun(states, ops)
  {
    forall i, j ::
      0 <= i < j < |ops| && Accepts(states, ops, i, user, configuration)
        && Accepts(states, ops, j, user, configuration) ==>
      NotSavedBetween(states, ops, i + 1, j, user, configuration)
  }

  ghost function Acceptances(states: seq<Database>, ops: seq<Op>, n: nat, user: Id, configuration: Id): nat
    requires IsRun(states, ops) && n <= |ops|
  {
    if n == 0 then 0 else
      var more := if Accepts(states, ops, n - 1, user, configuration) then 1 else 0;
      Acceptances(states, ops, n - 1, user, configuration) + more
  }

  /** The latest accepted counter is at least as far above `low` as there were acceptances. */
  lemma {:induction false} AcceptancesClimb(states: seq<Database>, ops: seq<Op>, n: nat, user: Id, configuration: Id,
                                            low: int)
    returns (latest: int)
    requires IsRun(states, ops) && n <= |ops| && SavedBeforeAccepted(states, ops, user, configuration)
    requires forall i :: 0 <= i < n && Accepts(states, ops, i, user, configuration) ==> low <= CounterOf(ops[i])
    ensures Acceptances(states, ops, n, user, configuration) > 0 ==>
      0 <= latest < n && Accepts(states, ops, latest, user, configuration)
      && (forall i :: latest < i < n ==> !Accepts(states, ops, i, user, configuration))
      && low + Acceptances(states, ops, n, user, configuration) - 1 <= CounterOf(ops[latest])
  {
    latest := -1;
    if n > 0 {
      latest := AcceptancesClimb(states, ops, n - 1, user, configuration, low);
      if Accepts(states, ops, n - 1, user, configuration) {
        if Acceptances(states, ops, n - 1, user, configuration) > 0 {
          AcceptedCountersIncrease(states, ops, latest, n - 1, user, configuration);
        }
        latest := n - 1;
      }
    }
  }

  lemma PeriodMonotone(a: int, b: int)
    requires a <= b
    ensures Totp.Period(a) <= Totp.Period(b)
  {}

  /** At most one acceptance per 30-second step, plus the one step of tolerance on either side. */
  lemma AcceptancesBoundedByTime(states: seq<Database>, ops: seq<Op>, user: Id, configuration: Id, t0: Time, t1: Time,
                                 mac: Totp.Mac, keys: seq<seq<Totp.Byte>>, codes: seq<string>)
    requires IsRun(states, ops) && t0 <= t1 && SavedBeforeAccepted(states, ops, user, configuration)
    requires CodesWereMatched(states, ops, user, configuration, t0, t1, mac, keys, codes)
    ensures Acceptances(states, ops, |ops|, user, configuration)
            <= Totp.Period(UnixSeconds(t1)) - Totp.Period(UnixSeconds(t0)) + 3
  {
    PeriodMonotone(UnixSeconds(t0), UnixSeconds(t1));
    forall i | 0 <= i < |ops| && Accepts(states, ops, i, user, configuration)
      ensures Totp.Period(UnixSeconds(t0)) - 1 <= CounterOf(ops[i]) <= Totp.Period(UnixSeconds(t1)) + 1
    {
      PeriodMonotone(UnixSeconds(t0), UnixSeconds(ClockOf(ops[i])));
      PeriodMonotone(UnixSeconds(ClockOf(ops[i])), UnixSeconds(t1));
    }
    var latest := AcceptancesClimb(states, ops, |ops|, user, configuration, Totp.Period(UnixSeconds(t0)) - 1);
  }

  // ---------------------------------------------------------------- the secret a code was checked against

  predicate SecretIs(db: Database, user: Id, configuration: Id, secret: string) {
    user in db.settings && db.settings[user].configuration == configuration ==> db.settings[user].secret == secret
  }

  lemma SecretStep(db: Database, op: Op, user: Id, configuration: Id, secret: string)
    requires SecretIs(db, user, configuration, secret)
    requires !(Saves(op, user, configuration) && StepError(db, op).None?)
    ensures SecretIs(After(db, op), user, configuration, secret)
  {}

  lemma {:induction false} SecretHolds(states: seq<Database>, ops: seq<Op>, i: nat, j: nat, user: Id,
                                       configuration: Id, secret: string)
    requires IsRun(states, ops) && i <= j <= |ops| && SecretIs(states[i], user, configuration, secret)
    requires NotSavedBetween(states, ops, i, j, user, configuration)
    ensures SecretIs(states[j], user, configuration, secret)
    decreases j - i
  {
    if i < j {
      assert StepOf(states, ops, i);
      SecretStep(states[i], ops[i], user, configuration, secret);
      SecretHolds(states, ops, i + 1, j, user, configuration, secret);
    }
  }

  /**
   A handler reads the stored row at `i`, checks the code against the secret it read, and commits at `j` with
   the configuration it read. Whatever ran in between, a commit that succeeds was checked against the secret
   stored at the moment it succeeds.
   */
  lemma CommitUsesTheSecretThatWasChecked(states: seq<Database>, ops: seq<Op>, i: nat, j: nat, user: Id)
    requires IsRun(states, ops) && i <= j < |ops| && user in states[i].settings
    requires Accepts(states, ops, j, user, states[i].settings[user].configuration)
    requires NotSavedBetween(states, ops, i, j, user, states[i].settings[user].configuration)
    ensures user in states[j].settings && states[j].settings[user].secret == states[i].settings[user].secret
  {
    var seen := states[i].settings[user];
    SecretHolds(states, ops, i, j, user, seen.configuration, seen.secret);
  }

  // ---------------------------------------------------------------- recovery codes

  predicate PresentsCode(op: Op, user: Id, hash: string) {
    match op
    case Login(_, u, _, counter, h, _, _) => u == user && counter.None? && h == hash
    case ConsumeCode(u, h, _) => u == user && h == hash
    case _ => false
  }

  predicate Issues(op: Op, user: Id, hash: string) {
    (op.Enable? || op.Rotate?) && op.user == user && exists k :: 0 <= k < |op.codes| && op.codes[k].hash == hash
  }

  predicate HashSpent(db: Database, user: Id, hash: string) {
    forall id :: id in db.codes && db.codes[id].user == user && db.codes[id].hash == hash ==> db.codes[id].usedAt.Some?
  }

  lemma HashSpentStep(db: Database, op: Op, user: Id, hash: string)
    requires HashSpent(db, user, hash)
    requires !(Issues(op, user, hash) && StepError(db, op).None?)
    ensures HashSpent(After(db, op), user, hash)
  {
    var after := After(db, op);
    if StepError(db, op).None? && (op.Enable? || op.Rotate?) {
      forall id | id in after.codes && after.codes[id].user == user && after.codes[id].hash == hash
        ensures after.codes[id].usedAt.Some?
      {
        assert after.codes == Inserted(WithoutCodesOf(db.codes, op.user), op.user, op.codes, op.now);
        var kept := WithoutCodesOf(db.codes, op.user);
        InsertedRow(kept, op.user, op.codes, op.now, id);
        assert id in kept && after.codes[id] == kept[id];
      }
    }
  }

  lemma {:induction false} HashStaysSpent(states: seq<Database>, ops: seq<Op>, i: nat, j: nat, user: Id, hash: string)
    requires IsRun(states, ops) && i <= j <= |ops| && HashSpent(states[i], user, hash)
    requires forall k :: i <= k < j ==> !(Issues(ops[k], user, hash) && Succeeds(states, ops, k))
    ensures HashSpent(states[j], user, hash)
    decreases j - i
  {
    if i < j {
      assert StepOf(states, ops, i);
      HashSpentStep(states[i], ops[i], user, hash);
      HashStaysSpent(states, ops, i + 1, j, user, hash);
    }
  }

  lemma CodeNeedsUsableRow(db: Database, op: Op, user: Id, hash: string)
    requires PresentsCode(op, user, hash) && StepError(db, op).None?
    ensures !HashSpent(db, user, hash)
    ensures HashSpent(After(db, op), user, hash)
  {
  }

  /** Two acceptances of one recovery code are separated by issuing that code again. */
  lemma RecoveryCodeIsSingleUse(states: seq<Database>, ops: seq<Op>, i: nat, j: nat, user: Id, hash: string)
    requires IsRun(states, ops) && i < j < |ops|
    requires PresentsCode(ops[i], user, hash) && PresentsCode(ops[j], user, hash)
    requires Succeeds(states, ops, i) && Succeeds(states, ops, j)
    ensures exists k :: i < k < j && Issues(ops[k], user, hash) && Succeeds(states, ops, k)
  {
    assert StepOf(states, ops, i);
    CodeNeedsUsableRow(states[i], ops[i], user, hash);
    CodeNeedsUsableRow(states[j], ops[j], user, hash);
    if forall k :: i < k < j ==> !(Issues(ops[k], user, hash) && Succeeds(states, ops, k)) {
      HashStaysSpent(states, ops, i + 1, j, user, hash);
      assert false;
    }
  }

  // ---------------------------------------------------------------- codes belong to enabled users

  predicate CodesOnlyWhenEnabled(db: Database) {
    forall id :: id in db.codes ==> Enabled(db, db.codes[id].user)
  }

  lemma {:induction false} CodesStayWithEnabledUsers(states: seq<Database>, ops: seq<Op>, n: nat)
    requires IsRun(states, ops) && n <= |ops| && CodesOnlyWhenEnabled(states[0])
    ensures CodesOnlyWhenEnabled(states[n])
  {
    if n > 0 {
      CodesStayWithEnabledUsers(states, ops, n - 1);
      assert StepOf(states, ops, n - 1);
      CodesOnlyWhenEnabledStep(states[n - 1], ops[n - 1]);
    }
  }

  lemma CodesOnlyWhenEnabledStep(db: Database, op: Op)
    requires CodesOnlyWhenEnabled(db)
    ensures CodesOnlyWhenEnabled(After(db, op))
  {
    var after := After(db, op);
    if StepError(db, op).None? && (op.Enable? || op.Rotate?) {
      assert Enabled(after, op.user);
      forall id | id in after.codes ensures Enabled(after, after.codes[id].user) {
        InsertedRow(WithoutCodesOf(db.codes, op.user), op.user, op.codes, op.now, id);
      }
    }
  }

  /** In every state a run reaches, the joined status is the enabled flag and the plain count of unused codes. */
  lemma StatusIsExact(states: seq<Database>, ops: seq<Op>, n: nat, store: Store, user: Id)
    requires IsRun(states, ops) && n <= |ops| && CodesOnlyWhenEnabled(states[0]) && store.db == states[n]
    ensures store.GetTwoFactorStatus(user) == (Enabled(states[n], user), store.CountRecoveryCodes(user))
  {
    CodesStayWithEnabledUsers(states, ops, n);
    var db := states[n];
    var rows := set u | u in db.settings && u == user && db.settings[u].enabledAt.Some?;
    assert rows == if Enabled(db, user) then {user} else {};
    assert (set id | id in db.codes && db.codes[id].user in rows && db.codes[id].usedAt.None?)
        == (set id | id in db.codes && db.codes[id].user == user && db.codes[id].usedAt.None?);
  }

  // ---------------------------------------------------------------- audit rows

  predicate AuditedLogin(op: Op) {
    op.Login? && op.audit.eventType != ""
  }

  ghost function AuditedLogins(states: seq<Database>, ops: seq<Op>, n: nat): nat
    requires IsRun(states, ops) && n <= |ops|
  {
    if n == 0 then 0
    else AuditedLogins(states, ops, n - 1) + (if AuditedLogin(ops[n - 1]) && Succeeds(states, ops, n - 1) then 1 else 0)
  }

  /** The audit table grows by exactly one row per successful login and keeps every row it had. */
  lemma {:induction false} OneAuditRowPerLogin(states: seq<Database>, ops: seq<Op>, n: nat)
    requires IsRun(states, ops) && n <= |ops|
    ensures |states[n].audits| == |states[0].audits| + AuditedLogins(states, ops, n)
    ensures forall id :: id in states[0].audits ==>
      id in states[n].audits && states[n].audits[id] == states[0].audits[id]
    ensures forall i :: 0 <= i < n && AuditedLogin(ops[i]) && Succeeds(states, ops, i) ==>
      ops[i].audit.id in states[n].audits && states[n].audits[ops[i].audit.id] == ops[i].audit
  {
    if n > 0 {
      OneAuditRowPerLogin(states, ops, n - 1);
      AuditInRun(states, ops, n - 1);
    }
  }

  lemma AuditInRun(states: seq<Database>, ops: seq<Op>, m: nat)
    requires IsRun(states, ops) && m < |ops|
    ensures if AuditedLogin(ops[m]) && Succeeds(states, ops, m) then
              && ops[m].audit.id !in states[m].audits
              && states[m + 1].audits == states[m].audits[ops[m].audit.id := ops[m].audit]
            else states[m + 1].audits == states[m].audits
  {
    assert StepOf(states, ops, m);
    AuditStep(states[m], ops[m]);
  }

  lemma AuditStep(db: Database, op: Op)
    ensures if AuditedLogin(op) && StepError(db, op).None? then
              op.audit.id !in db.audits && After(db, op).audits == db.audits[op.audit.id := op.audit]
            else After(db, op).audits == db.audits
  {
  }

  // ---------------------------------------------------------------- one open challenge per user

  predicate AtMostOneOpen(db: Database, user: Id, t: Time) {
    forall a, b :: a in OpenFor(db, user, t) && b in OpenFor(db, user, t) ==> a == b
  }

  function OpenFor(db: Database, user: Id, t: Time): set<Id> {
    set jti | jti in db.challenges && db.challenges[jti].user == user
      && db.challenges[jti].consumedAt.None? && t <= db.challenges[jti].expiresAt
  }

  predicate CreatesFor(op: Op, user: Id) {
    op.CreateChallenge? && op.user == user
  }

  /** After a challenge is created for a user, at most one of that user's challenges can still be redeemed. */
  lemma {:induction false} OneOpenChallenge(states: seq<Database>, ops: seq<Op>, i: nat, j: nat, user: Id, t: Time)
    requires IsRun(states, ops) && i < j <= |ops|
    requires CreatesFor(ops[i], user) && Succeeds(states, ops, i)
    requires forall k :: i <= k < j && CreatesFor(ops[k], user) ==> ops[k].createdAt <= t
    ensures AtMostOneOpen(states[j], user, t)
  {
    var k := j - 1;
    assert StepOf(states, ops, k);
    if CreatesFor(ops[k], user) && Succeeds(states, ops, k) {
      assert OpenFor(states[j], user, t) <= {ops[k].jti};
    } else {
      OneOpenChallenge(states, ops, i, k, user, t);
      assert OpenFor(states[j], user, t) <= OpenFor(states[k], user, t);
    }
  }

  // ---------------------------------------------------------------- collection of expired challenges

  /** The same transaction without its collection of expired rows. */
  function Uncollected(op: Op): Op {
    if op.CreateChallenge? then op.(collected := {}) else op
  }

  function UncollectedOps(ops: seq<Op>): seq<Op> {
    seq(|ops|, i requires 0 <= i < |ops| => Uncollected(ops[i]))
  }

  /** The row is one that a creation by its user displaces. */
  predicate DisplacedBy(row: Challenge, op: Op)
    requires op.CreateChallenge?
  {
    row.user == op.user && row.consumedAt.None? && op.createdAt <= row.expiresAt
  }

  /**
   The rows that only collection has removed so far: earlier ones that would still be there, and those removed now.
   */
  function StillHidden(hidden: map<Id, Challenge>, lean: Database, op: Op): map<Id, Challenge>
    requires op.CreateChallenge?
  {
    map jti | jti in hidden.Keys + (op.collected * lean.challenges.Keys)
      && !DisplacedBy(if jti in hidden then hidden[jti] else lean.challenges[jti], op)
      :: if jti in hidden then hidden[jti] else lean.challenges[jti]
  }

  /** Before transaction `n`: what the run would still have if it had never collected, told from the run itself. */
  ghost function Hidden(ops: seq<Op>, lean: seq<Database>, n: nat): map<Id, Challenge>
    requires IsRun(lean, ops) && n <= |ops|
  {
    if n == 0 then map[]
    else if ops[n - 1].CreateChallenge? && Succeeds(lean, ops, n - 1)
      then StillHidden(Hidden(ops, lean, n - 1), lean[n - 1], ops[n - 1])
    else Hidden(ops, lean, n - 1)
  }

  /**
   A login presents a hidden row that its own clock still finds open, and the checks before and after that one let it
   through; or a creation draws the jti of a hidden row.
   */
  predicate Notices(op: Op, lean: Database, hidden: map<Id, Challenge>) {
    match op
    case Login(jti, user, configuration, counter, hash, now, _) =>
      && counter.Some? != (hash != "") && jti in hidden
      && hidden[jti].user == user && hidden[jti].configuration == configuration && hidden[jti].consumedAt.None?
         && now <= hidden[jti].expiresAt
      && EnabledUnder(lean, user, configuration)
    case CreateChallenge(jti, user, _, _, _, _) => user in lean.users && jti in StillHidden(hidden, lean, op)
    case _ => false
  }

  /** `full` has the hidden rows on top and is the same otherwise. */
  predicate Hides(lean: Database, full: Database, hidden: map<Id, Challenge>) {
    full == lean.(challenges := lean.challenges + hidden) && hidden.Keys !! lean.challenges.Keys
  }

  /** What is left once a creation has made room: with collection, and without. */
  lemma RoomIsMade(lean: Database, full: Database, hidden: map<Id, Challenge>, op: Op)
    requires Hides(lean, full, hidden) && op.CreateChallenge? && op.collected <= Expired(lean.challenges, op.createdAt)
    ensures var kept, next := lean.challenges - Displaced(lean, op), StillHidden(hidden, lean, op);
      full.challenges - Displaced(full, Uncollected(op)) == kept + next && kept.Keys !! next.Keys
  {
    assert op.collected <= lean.challenges.Keys;
  }

  lemma CreationStep(lean: Database, full: Database, hidden: map<Id, Challenge>, op: Op)
    requires Hides(lean, full, hidden) && op.CreateChallenge? && op.collected <= Expired(lean.challenges, op.createdAt)
    ensures Run(lean, op) == Run(full, Uncollected(op)) <==> !Notices(op, lean, hidden)
    ensures !Notices(op, lean, hidden) && StepError(lean, op).None? ==>
      Hides(After(lean, op), After(full, Uncollected(op)), StillHidden(hidden, lean, op))
  {
    RoomIsMade(lean, full, hidden, op);
    var kept, next := lean.challenges - Displaced(lean, op), StillHidden(hidden, lean, op);
    assert (full.challenges - Displaced(full, Uncollected(op))).Keys
      == full.challenges.Keys - Displaced(full, Uncollected(op));
    assert kept.Keys == lean.challenges.Keys - Displaced(lean, op);
    if StepError(lean, op).None? && !Notices(op, lean, hidden) {
      var row := Challenge(op.user, op.configuration, op.expiresAt, None, op.createdAt);
      assert (kept + next)[op.jti := row] == kept[op.jti := row] + next;
    }
  }

  lemma LoginStep(lean: Database, full: Database, hidden: map<Id, Challenge>, op: Op)
    requires Hides(lean, full, hidden) && op.Login?
    ensures Run(lean, op) == Run(full, op) <==> !Notices(op, lean, hidden)
    ensures !Notices(op, lean, hidden) ==> Hides(After(lean, op), After(full, op), hidden)
  {
    assert op.jti in full.challenges ==>
      full.challenges[op.jti] == if op.jti in hidden then hidden[op.jti] else lean.challenges[op.jti];
    if StepError(lean, op).None? {
      var row := lean.challenges[op.jti].(consumedAt := Some(op.now));
      assert full.challenges[op.jti := row] == lean.challenges[op.jti := row] + hidden;
    }
  }

  lemma CollectionStep(lean: Database, full: Database, hidden: map<Id, Challenge>, op: Op)
    requires Hides(lean, full, hidden)
    requires op.CreateChallenge? ==> op.collected <= Expired(lean.challenges, op.createdAt)
    ensures Run(lean, op) == Run(full, Uncollected(op)) <==> !Notices(op, lean, hidden)
    ensures !Notices(op, lean, hidden) ==>
      Hides(After(lean, op), After(full, Uncollected(op)),
            if op.CreateChallenge? && StepError(lean, op).None? then StillHidden(hidden, lean, op) else hidden)
  {
    if op.CreateChallenge? {
      CreationStep(lean, full, hidden, op);
    } else if op.Login? {
      LoginStep(lean, full, hidden, op);
    }
  }

  ghost predicate SameOutcome(ops: seq<Op>, lean: seq<Database>, full: seq<Database>, i: nat)
    requires i < |ops| && i < |lean| && i < |full|
  {
    Run(lean[i], ops[i]) == Run(full[i], Uncollected(ops[i]))
  }

  ghost predicate NoticedAt(ops: seq<Op>, lean: seq<Database>, i: nat)
    requires IsRun(lean, ops) && i < |ops|
  {
    Notices(ops[i], lean[i], Hidden(ops, lean, i))
  }

  /**
   Two runs of the same transactions, one collecting expired rows and one never collecting, give all transactions the
   same outcomes if and only if none of them notices a row that only collection has removed.
   */
  lemma {:induction false} CollectionShowsExactly(ops: seq<Op>, lean: seq<Database>, full: seq<Database>, n: nat)
    requires IsRun(lean, ops) && IsRun(full, UncollectedOps(ops)) && lean[0] == full[0] && n <= |ops|
    ensures (forall i :: 0 <= i < n ==> SameOutcome(ops, lean, full, i)) <==>
      (forall i :: 0 <= i < n ==> !NoticedAt(ops, lean, i))
    ensures (forall i :: 0 <= i < n ==> !NoticedAt(ops, lean, i)) ==> Hides(lean[n], full[n], Hidden(ops, lean, n))
  {
    if n == 0 {
      assert lean[0].challenges + map[] == lean[0].challenges;
    } else {
      CollectionShowsExactly(ops, lean, full, n - 1);
      if forall i :: 0 <= i < n - 1 ==> !NoticedAt(ops, lean, i) {
        CollectionStepInRun(ops, lean, full, n - 1);
      } else {
        var i :| 0 <= i < n - 1 && NoticedAt(ops, lean, i);
        var k :| 0 <= k < n - 1 && !SameOutcome(ops, lean, full, k);
      }
    }
  }

  lemma CollectionStepInRun(ops: seq<Op>, lean: seq<Database>, full: seq<Database>, m: nat)
    requires IsRun(lean, ops) && IsRun(full, UncollectedOps(ops)) && m < |ops|
    requires Hides(lean[m], full[m], Hidden(ops, lean, m))
    ensures SameOutcome(ops, lean, full, m) <==> !NoticedAt(ops, lean, m)
    ensures !NoticedAt(ops, lean, m) ==> Hides(lean[m + 1], full[m + 1], Hidden(ops, lean, m + 1))
  {
    assert StepOf(lean, ops, m) && StepOf(full, UncollectedOps(ops), m);
    CollectionStep(lean[m], full[m], Hidden(ops, lean, m), ops[m]);
  }

  /** A hidden row was removed as expired by an earlier creation, just as it was then. */
  lemma {:induction false} HiddenWasCollected(ops: seq<Op>, lean: seq<Database>, n: nat, jti: Id) returns (k: nat)
    requires IsRun(lean, ops) && n <= |ops| && jti in Hidden(ops, lean, n)
    ensures k < n && ops[k].CreateChallenge? && Succeeds(lean, ops, k) && jti in ops[k].collected
    ensures jti in lean[k].challenges
    ensures lean[k].challenges[jti] == Hidden(ops, lean, n)[jti]
    ensures Hidden(ops, lean, n)[jti].expiresAt < ops[k].createdAt
  {
    k := n - 1;
    assert StepOf(lean, ops, k);
    if jti in Hidden(ops, lean, k) {
      k := HiddenWasCollected(ops, lean, k, jti);
    }
  }

  /** No creation draws a jti that it or an earlier one collects. */
  predicate DrawsFreshJtis(ops: seq<Op>, n: nat)
    requires n <= |ops|
  {
    forall j, k :: 0 <= k <= j < n && ops[k].CreateChallenge? && ops[j].CreateChallenge? ==>
      ops[j].jti !in ops[k].collected
  }

  /** No transaction notices, if each login reads the clock no earlier than the creations before it. */
  lemma CollectionIsUnobservable(ops: seq<Op>, lean: seq<Database>, full: seq<Database>, n: nat)
    requires IsRun(lean, ops) && IsRun(full, UncollectedOps(ops)) && lean[0] == full[0] && n <= |ops|
    requires DrawsFreshJtis(ops, n)
    requires forall i, j :: 0 <= i < j < n && ops[i].CreateChallenge? && ops[j].Login? ==>
      ops[i].createdAt <= ops[j].now
    ensures forall i :: 0 <= i < n ==> SameOutcome(ops, lean, full, i)
  {
    CollectionShowsExactly(ops, lean, full, n);
    forall j | 0 <= j < n ensures !NoticedAt(ops, lean, j) {
      var op := ops[j];
      if (op.Login? || op.CreateChallenge?) && op.jti in Hidden(ops, lean, j) {
        var k := HiddenWasCollected(ops, lean, j, op.jti);
      }
    }
  }

  /** Created and expiring on whole seconds, a row is noticed as missing only by a clock a full second behind. */
  lemma NoticedAFullSecondEarly(ops: seq<Op>, lean: seq<Database>, j: nat) returns (k: nat)
    requires IsRun(lean, ops) && j < |ops| && ops[j].Login? && NoticedAt(ops, lean, j)
    requires forall i :: 0 <= i < j && ops[i].CreateChallenge? ==> WholeSeconds(ops[i].createdAt)
    requires WholeSeconds(Hidden(ops, lean, j)[ops[j].jti].expiresAt)
    ensures k < j && ops[k].CreateChallenge? && ops[j].jti in ops[k].collected
    ensures ops[j].now + LoginChallenges.SECOND <= ops[k].createdAt
  {
    k := HiddenWasCollected(ops, lean, j, ops[j].jti);
  }

  predicate WholeSeconds(t: Time) {
    t % LoginChallenges.SECOND == 0
  }

  /**
   And a full second is enough, at any time: a login that read its clock at `now` and reaches the database after another
   user's challenge was created at `created` finds its own challenge, which its clock finds open, collected.
   */
  lemma EarlyClockSeesCollection(now: Time, created: Time)
    returns (ops: seq<Op>, lean: seq<Database>, full: seq<Database>)
    requires WholeSeconds(created) && now + LoginChallenges.SECOND <= created
    ensures IsRun(lean, ops) && IsRun(full, UncollectedOps(ops)) && lean[0] == full[0] && |ops| == 2
    ensures ops[0].CreateChallenge? && ops[0].createdAt == created && ops[1].Login? && ops[1].now == now
    ensures forall jti :: jti in lean[0].challenges ==> WholeSeconds(lean[0].challenges[jti].expiresAt)
    ensures Run(lean[1], ops[1]) == Failed(LoginRestartRequired) && Run(full[1], Uncollected(ops[1])) == Done
  {
    var expires := created - LoginChallenges.SECOND;
    var setting := Setting("c", "s", None, Some(0), None, 0, 0);
    var row := Challenge("u", "c", expires, None, expires - 300 * LoginChallenges.SECOND);
    var db := Database({"u", "v"}, map["u" := setting], map["j" := row], map[], map[]);
    var create := CreateChallenge("k", "v", "c", created + 300 * LoginChallenges.SECOND, created, {"j"});
    var login := Login("j", "u", "c", Some(7), "", now, Audit("a", "u", "login", "", "", now));
    ops := [create, login];
    assert UncollectedOps(ops) == [Uncollected(create), login];
    lean := [db, After(db, create), After(After(db, create), login)];
    full := [db, After(db, Uncollected(create)), After(After(db, Uncollected(create)), login)];
    assert "j" in Expired(db.challenges, created);
    assert StepOf(lean, ops, 0) && StepOf(lean, ops, 1);
    assert StepOf(full, UncollectedOps(ops), 0) && StepOf(full, UncollectedOps(ops), 1);
    assert IsRun(lean, ops) && IsRun(full, UncollectedOps(ops));
  }

  // ---------------------------------------------------------------- optimistic setup

  ghost predicate SavedOver(states: seq<Database>, ops: seq<Op>, i: nat, user: Id, previous: Id)
    requires IsRun(states, ops) && i < |ops|
  {
    ops[i].SaveIfUnchanged? && ops[i].user == user && ops[i].previous == previous && Succeeds(states, ops, i)
  }

  predicate ConfigurationIsNot(db: Database, user: Id, configuration: Id) {
    user in db.settings ==> db.settings[user].configuration != configuration
  }

  lemma ConfigurationStep(db: Database, op: Op, user: Id, configuration: Id)
    requires ConfigurationIsNot(db, user, configuration)
    requires !(Saves(op, user, configuration) && StepError(db, op).None?)
    ensures ConfigurationIsNot(After(db, op), user, configuration)
  {}

  lemma {:induction false} OnlySaveBringsConfiguration(states: seq<Database>, ops: seq<Op>, i: nat, j: nat, user: Id,
                                                       configuration: Id)
    requires IsRun(states, ops) && i <= j <= |ops| && ConfigurationIsNot(states[i], user, configuration)
    requires NotSavedBetween(states, ops, i, j, user, configuration)
    ensures ConfigurationIsNot(states[j], user, configuration)
    decreases j - i
  {
    if i < j {
      assert StepOf(states, ops, i);
      ConfigurationStep(states[i], ops[i], user, configuration);
      OnlySaveBringsConfiguration(states, ops, i + 1, j, user, configuration);
    }
  }

  /** Of all saves that observed one configuration id, a second can succeed only after that very id was saved again. */
  lemma OneSavePerObservedConfiguration(states: seq<Database>, ops: seq<Op>, i: nat, j: nat, user: Id, previous: Id)
    requires IsRun(states, ops) && i < j < |ops| && previous != ""
    requires SavedOver(states, ops, i, user, previous) && SavedOver(states, ops, j, user, previous)
    ensures exists k :: i <= k < j && Saves(ops[k], user, previous) && Succeeds(states, ops, k)
  {
    assert StepOf(states, ops, i);
    if NotSavedBetween(states, ops, i, j, user, previous) {
      OnlySaveBringsConfiguration(states, ops, i + 1, j, user, previous);
      assert false;
    }
  }

  lemma {:induction false} OnlyDisableRemovesSetting(states: seq<Database>, ops: seq<Op>, i: nat, j: nat, user: Id)
    requires IsRun(states, ops) && i <= j <= |ops| && user in states[i].settings
    requires forall k :: i <= k < j ==> !(ops[k] == Disable(user) && Succeeds(states, ops, k))
    ensures user in states[j].settings
    decreases j - i
  {
    if i < j {
      assert StepOf(states, ops, i);
      assert user in states[i + 1].settings;
      OnlyDisableRemovesSetting(states, ops, i + 1, j, user);
    }
  }

  /** Two saves that both observed no row are separated by a disable. */
  lemma TwoFirstSavesNeedDisable(states: seq<Database>, ops: seq<Op>, i: nat, j: nat, user: Id)
    requires IsRun(states, ops) && i < j < |ops|
    requires SavedOver(states, ops, i, user, "") && SavedOver(states, ops, j, user, "")
    ensures exists k :: i < k < j && ops[k] == Disable(user) && Succeeds(states, ops, k)
  {
    assert StepOf(states, ops, i);
    if forall k :: i < k < j ==> !(ops[k] == Disable(user) && Succeeds(states, ops, k)) {
      OnlyDisableRemovesSetting(states, ops, i + 1, j, user);
      assert false;
    }
  }

  // ---------------------------------------------------------------- with fresh ids

  /** Every jti and every configuration id is drawn at most once, and no recovery code is issued twice to a user. */
  ghost predicate FreshIds(ops: seq<Op>) {
    && (forall i, j, jti :: 0 <= i < j < |ops| && Creates(ops[i], jti) ==> !Creates(ops[j], jti))
    && (forall i, j, u, c :: 0 <= i < j < |ops| && Saves(ops[i], u, c) ==> !Saves(ops[j], u, c))
    && (forall i, j, u, h :: 0 <= i < j < |ops| && Issues(ops[i], u, h) ==> !Issues(ops[j], u, h))
  }

  predicate StartsEmpty(db: Database) {
    db.settings == map[] && db.challenges == map[] && db.codes == map[]
  }

  lemma {:induction false} LoginNeedsCreation(states: seq<Database>, ops: seq<Op>, n: nat, jti: Id)
    requires IsRun(states, ops) && n <= |ops| && StartsEmpty(states[0]) && jti in states[n].challenges
    ensures exists k :: 0 <= k < n && Creates(ops[k], jti)
  {
    if n > 0 {
      assert StepOf(states, ops, n - 1);
      if jti in states[n - 1].challenges {
        LoginNeedsCreation(states, ops, n - 1, jti);
      } else {
        assert Creates(ops[n - 1], jti);
      }
    }
  }

  /** From an empty database and with fresh ids: no challenge logs in twice. */
  lemma NoChallengeLogsInTwice(states: seq<Database>, ops: seq<Op>, i: nat, j: nat, jti: Id)
    requires IsRun(states, ops) && StartsEmpty(states[0]) && FreshIds(ops) && i < j < |ops|
    requires LogsInWith(ops[i], jti) && LogsInWith(ops[j], jti) && Succeeds(states, ops, i)
    ensures !Succeeds(states, ops, j)
  {
    if Succeeds(states, ops, j) {
      ChallengeIsSingleUse(states, ops, i, j, jti);
      LoginNeedsCreation(states, ops, i, jti);
      assert false;
    }
  }

  lemma {:induction false} SettingNeedsSave(states: seq<Database>, ops: seq<Op>, n: nat, user: Id)
    requires IsRun(states, ops) && n <= |ops| && StartsEmpty(states[0]) && user in states[n].settings
    ensures exists k :: 0 <= k < n && Saves(ops[k], user, states[n].settings[user].configuration)
  {
    if n > 0 {
      assert StepOf(states, ops, n - 1);
      if !Saves(ops[n - 1], user, states[n].settings[user].configuration) {
        SettingStep(states[n - 1], ops[n - 1], user);
        SettingNeedsSave(states, ops, n - 1, user);
      }
    }
  }

  lemma SettingStep(db: Database, op: Op, user: Id)
    requires user in After(db, op).settings && !Saves(op, user, After(db, op).settings[user].configuration)
    ensures user in db.settings && db.settings[user].configuration == After(db, op).settings[user].configuration
  {
  }

  /**
   From an empty database and with fresh ids: counters accepted under a configuration strictly increase, with no
   proviso.
   */
  lemma NoCounterIsReused(states: seq<Database>, ops: seq<Op>, i: nat, j: nat, user: Id, configuration: Id)
    requires IsRun(states, ops) && StartsEmpty(states[0]) && FreshIds(ops) && i < j < |ops|
    requires Accepts(states, ops, i, user, configuration) && Accepts(states, ops, j, user, configuration)
    ensures CounterOf(ops[i]) < CounterOf(ops[j])
  {
    SettingNeedsSave(states, ops, i, user);
    AcceptedCountersIncrease(states, ops, i, j, user, configuration);
  }

  /** From an empty database and with fresh ids: the bound on acceptances holds with no proviso about saves. */
  lemma FewCodesAreAccepted(states: seq<Database>, ops: seq<Op>, user: Id, configuration: Id, t0: Time, t1: Time,
                            mac: Totp.Mac, keys: seq<seq<Totp.Byte>>, codes: seq<string>)
    requires IsRun(states, ops) && StartsEmpty(states[0]) && FreshIds(ops) && t0 <= t1
    requires CodesWereMatched(states, ops, user, configuration, t0, t1, mac, keys, codes)
    ensures Acceptances(states, ops, |ops|, user, configuration)
            <= Totp.Period(UnixSeconds(t1)) - Totp.Period(UnixSeconds(t0)) + 3
  {
    forall i, j | 0 <= i < j < |ops| && Accepts(states, ops, i, user, configuration)
      && Accepts(states, ops, j, user, configuration)
      ensures NotSavedBetween(states, ops, i + 1, j, user, configuration)
    {
      SettingNeedsSave(states, ops, i, user);
    }
    AcceptancesBoundedByTime(states, ops, user, configuration, t0, t1, mac, keys, codes);
  }

  lemma {:induction false} CodeNeedsIssue(states: seq<Database>, ops: seq<Op>, n: nat, id: Id)
    requires IsRun(states, ops) && n <= |ops| && StartsEmpty(states[0]) && id in states[n].codes
    ensures exists k :: 0 <= k < n && Issues(ops[k], states[n].codes[id].user, states[n].codes[id].hash)
  {
    if n > 0 {
      assert StepOf(states, ops, n - 1);
      var before, op := states[n - 1], ops[n - 1];
      var row := states[n].codes[id];
      if id in before.codes && before.codes[id].user == row.user && before.codes[id].hash == row.hash {
        CodeNeedsIssue(states, ops, n - 1, id);
      } else {
        assert states[n].codes == Inserted(WithoutCodesOf(before.codes, op.user), op.user, op.codes, op.now);
        InsertedRow(WithoutCodesOf(before.codes, op.user), op.user, op.codes, op.now, id);
        assert Issues(op, row.user, row.hash);
      }
    }
  }

  /** From an empty database and with codes never issued twice: no recovery code is accepted twice. */
  lemma NoRecoveryCodeIsReused(states: seq<Database>, ops: seq<Op>, i: nat, j: nat, user: Id, hash: string)
    requires IsRun(states, ops) && StartsEmpty(states[0]) && FreshIds(ops) && i < j < |ops|
    requires PresentsCode(ops[i], user, hash) && PresentsCode(ops[j], user, hash) && Succeeds(states, ops, i)
    ensures !Succeeds(states, ops, j)
  {
    if Succeeds(states, ops, j) {
      RecoveryCodeIsSingleUse(states, ops, i, j, user, hash);
      var id :| id in UsableIds(states[i].codes, user, hash);
      CodeNeedsIssue(states, ops, i, id);
      assert false;
    }
  }
}
