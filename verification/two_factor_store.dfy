/**
 The tables behind two-factor login and the transactions on them.

 Every transaction is given twice: as a function of the whole database (what a
 committed or rolled-back transaction amounts to) and as a method of `Store`
 that works statement by statement on a private copy and publishes it on commit.
 */
module TwoFactorTables {
  import opened Wrappers

  type Id = string
  type Time = int // nanoseconds since the Unix epoch

  const COLLECTION_LIMIT := 100

  datatype Setting = Setting(
    configuration: Id, secret: string, setupExpiresAt: Option<Time>, enabledAt: Option<Time>,
    lastCounter: Option<int>, createdAt: Time, updatedAt: Time)

  datatype Challenge = Challenge(
    user: Id, configuration: Id, expiresAt: Time, consumedAt: Option<Time>, createdAt: Time)

  datatype RecoveryCode = RecoveryCode(user: Id, hash: string, usedAt: Option<Time>, createdAt: Time)

  datatype CodeInput = CodeInput(id: Id, hash: string)

  datatype Audit = Audit(id: Id, user: Id, eventType: string, summary: string, metadata: string, createdAt: Time)

  datatype Database = Database(
    users: set<Id>,
    settings: map<Id, Setting>,       // by user
    challenges: map<Id, Challenge>,   // by jti
    codes: map<Id, RecoveryCode>,     // by row id
    audits: map<Id, Audit>)           // by row id

  datatype Error =
    | NotFound
    | Conflict
    | LoginRestartRequired
    | InvalidSecondFactor
    | OneCredentialRequired
    | ConstraintViolated

  datatype Outcome = Done | Failed(error: Error)

  /** One transaction with its arguments. */
  datatype Op =
    | CreateChallenge(jti: Id, user: Id, configuration: Id, expiresAt: Time, createdAt: Time, collected: set<Id>)
    | Login(jti: Id, user: Id, configuration: Id, counter: Option<int>, hash: string, now: Time, audit: Audit)
    | SavePending(user: Id, configuration: Id, secret: string, setupExpiresAt: Option<Time>, createdAt: Time,
      updatedAt: Time)
    | SaveIfUnchanged(user: Id, configuration: Id, secret: string, setupExpiresAt: Option<Time>, createdAt: Time,
      updatedAt: Time, previous: Id)
    | Enable(user: Id, configuration: Id, totp: int, codes: seq<CodeInput>, now: Time)
    | ConsumeCounter(user: Id, configuration: Id, totp: int, now: Time)
    | ConsumeCode(user: Id, hash: string, now: Time)
    | Rotate(user: Id, configuration: Id, totp: int, codes: seq<CodeInput>, now: Time)
    | Disable(user: Id)

  // ---------------------------------------------------------------- row predicates

  predicate Enabled(db: Database, user: Id) {
    user in db.settings && db.settings[user].enabledAt.Some?
  }

  predicate EnabledUnder(db: Database, user: Id, configuration: Id) {
    Enabled(db, user) && db.settings[user].configuration == configuration
  }

  predicate Fresh(last: Option<int>, counter: int) {
    last.None? || last.value < counter
  }

  /** The row filter shared by login, rotation and plain counter consumption. */
  predicate CounterAdvances(db: Database, user: Id, configuration: Id, counter: int) {
    EnabledUnder(db, user, configuration) && Fresh(db.settings[user].lastCounter, counter)
  }

  predicate Consumable(db: Database, jti: Id, user: Id, configuration: Id, now: Time) {
    && jti in db.challenges
    && db.challenges[jti].user == user
    && db.challenges[jti].configuration == configuration
    && db.challenges[jti].consumedAt.None?
    && now <= db.challenges[jti].expiresAt
  }

  predicate CodeUsable(c: RecoveryCode, user: Id, hash: string) {
    c.user == user && c.hash == hash && c.usedAt.None?
  }

  function UsableIds(codes: map<Id, RecoveryCode>, user: Id, hash: string): set<Id> {
    set id | id in codes && CodeUsable(codes[id], user, hash)
  }

  predicate HasUsableCode(db: Database, user: Id, hash: string) {
    UsableIds(db.codes, user, hash) != {}
  }

  function Expired(challenges: map<Id, Challenge>, now: Time): set<Id> {
    set jti | jti in challenges && challenges[jti].expiresAt < now
  }

  // ---------------------------------------------------------------- row updates

  function WithCounter(db: Database, user: Id, counter: int, now: Time): Database
    requires user in db.settings
  {
    db.(settings := db.settings[user := db.settings[user].(lastCounter := Some(counter), updatedAt := now)])
  }

  function MarkUsed(codes: map<Id, RecoveryCode>, user: Id, hash: string, now: Time): map<Id, RecoveryCode> {
    map id | id in codes :: if CodeUsable(codes[id], user, hash) then codes[id].(usedAt := Some(now)) else codes[id]
  }

  function WithoutCodesOf(codes: map<Id, RecoveryCode>, user: Id): map<Id, RecoveryCode> {
    map id | id in codes && codes[id].user != user :: codes[id]
  }

  /** Primary key on the id, unique key on (user, hash). */
  predicate Clashes(codes: map<Id, RecoveryCode>, user: Id, next: CodeInput) {
    next.id in codes || HolderOf(codes, user, next.hash) != {}
  }

  function HolderOf(codes: map<Id, RecoveryCode>, user: Id, hash: string): set<Id> {
    set id | id in codes && codes[id].user == user && codes[id].hash == hash
  }

  /** Every row of the batch goes in, one after the other, without breaking a key. */
  ghost predicate Insertable(codes: map<Id, RecoveryCode>, user: Id, inputs: seq<CodeInput>, now: Time) {
    inputs == [] ||
    var before := inputs[..|inputs| - 1];
    Insertable(codes, user, before, now) && !Clashes(Inserted(codes, user, before, now), user, inputs[|inputs| - 1])
  }

  function Inserted(codes: map<Id, RecoveryCode>, user: Id, inputs: seq<CodeInput>, now: Time): map<Id, RecoveryCode> {
    if inputs == [] then codes
    else
      var last := inputs[|inputs| - 1];
      Inserted(codes, user, inputs[..|inputs| - 1], now)[last.id := RecoveryCode(user, last.hash, None, now)]
  }

  /** A row after the batch was there before, or is a new unused one carrying a hash of the batch. */
  lemma {:induction false} InsertedRow(codes: map<Id, RecoveryCode>, user: Id, inputs: seq<CodeInput>, now: Time,
                                       id: Id)
    requires id in Inserted(codes, user, inputs, now)
    ensures var row := Inserted(codes, user, inputs, now)[id];
      || (id in codes && row == codes[id])
      || (row.user == user && row.usedAt.None? && exists i :: 0 <= i < |inputs| && inputs[i].hash == row.hash)
  {
    if inputs != [] && id != inputs[|inputs| - 1].id {
      InsertedRow(codes, user, inputs[..|inputs| - 1], now, id);
    }
  }

  lemma OneMoreInput(codes: map<Id, RecoveryCode>, user: Id, inputs: seq<CodeInput>, i: nat, now: Time)
    requires i < |inputs|
    ensures Insertable(codes, user, inputs[..i + 1], now) <==>
            Insertable(codes, user, inputs[..i], now)
              && !Clashes(Inserted(codes, user, inputs[..i], now), user, inputs[i])
    ensures Inserted(codes, user, inputs[..i + 1], now) ==
            Inserted(codes, user, inputs[..i], now)[inputs[i].id := RecoveryCode(user, inputs[i].hash, None, now)]
  {
    assert inputs[..i + 1][..i] == inputs[..i] && inputs[..i + 1][i] == inputs[i];
  }

  lemma ClashAfterOne(codes: map<Id, RecoveryCode>, user: Id, one: CodeInput, next: CodeInput, now: Time)
    requires !Clashes(codes, user, one)
    ensures Clashes(codes[one.id := RecoveryCode(user, one.hash, None, now)], user, next) <==>
            Clashes(codes, user, next) || next.id == one.id || next.hash == one.hash
  {
    var more := codes[one.id := RecoveryCode(user, one.hash, None, now)];
    assert HolderOf(more, user, next.hash) ==
           HolderOf(codes, user, next.hash) + (if next.hash == one.hash then {one.id} else {});
  }

  lemma {:induction false} ClashAfterBatch(codes: map<Id, RecoveryCode>, user: Id, inputs: seq<CodeInput>,
                                           next: CodeInput, now: Time)
    requires Insertable(codes, user, inputs, now)
    ensures Clashes(Inserted(codes, user, inputs, now), user, next) <==>
            Clashes(codes, user, next) || exists i ::
              0 <= i < |inputs| && (inputs[i].id == next.id || inputs[i].hash == next.hash)
  {
    if inputs != [] {
      var n := |inputs| - 1;
      ClashAfterBatch(codes, user, inputs[..n], next, now);
      ClashAfterOne(Inserted(codes, user, inputs[..n], now), user, inputs[n], next, now);
    }
  }

  predicate PairwiseDistinct(inputs: seq<CodeInput>) {
    forall i, j :: 0 <= i < j < |inputs| ==> inputs[i].id != inputs[j].id && inputs[i].hash != inputs[j].hash
  }

  predicate NoneTaken(codes: map<Id, RecoveryCode>, user: Id, inputs: seq<CodeInput>) {
    forall i :: 0 <= i < |inputs| ==> !Clashes(codes, user, inputs[i])
  }

  lemma DistinctOneMore(inputs: seq<CodeInput>)
    requires inputs != []
    ensures var n := |inputs| - 1; PairwiseDistinct(inputs) <==> (PairwiseDistinct(inputs[..n])
            && forall i :: 0 <= i < n ==> inputs[..n][i].id != inputs[n].id && inputs[..n][i].hash != inputs[n].hash)
  {
  }

  /** A batch is inserted whole exactly when its ids and hashes are pairwise distinct and none is taken. */
  lemma {:induction false} BatchFits(codes: map<Id, RecoveryCode>, user: Id, inputs: seq<CodeInput>, now: Time)
    ensures Insertable(codes, user, inputs, now) <==>
            NoneTaken(codes, user, inputs) && PairwiseDistinct(inputs)
  {
    if inputs != [] {
      var n := |inputs| - 1;
      var before := inputs[..n];
      BatchFits(codes, user, before, now);
      DistinctOneMore(inputs);
      assert NoneTaken(codes, user, inputs) <==> (NoneTaken(codes, user, before) && !Clashes(codes, user, inputs[n]));
      if Insertable(codes, user, before, now) {
        ClashAfterBatch(codes, user, before, inputs[n], now);
      }
    }
  }

  lemma {:induction false} UninsertablePrefix(codes: map<Id, RecoveryCode>, user: Id, inputs: seq<CodeInput>, n: nat,
                                              now: Time)
    requires n <= |inputs| && !Insertable(codes, user, inputs[..n], now)
    ensures !Insertable(codes, user, inputs, now)
  {
    if n == |inputs| {
      assert inputs[..n] == inputs;
    } else {
      assert inputs[..|inputs| - 1][..n] == inputs[..n];
      UninsertablePrefix(codes, user, inputs[..|inputs| - 1], n, now);
    }
  }

  // ---------------------------------------------------------------- transactions as functions

  /** The rows a user's new challenge displaces: collected expired rows and the user's own open ones. */
  function Displaced(db: Database, op: Op): set<Id>
    requires op.CreateChallenge?
  {
    op.collected + set jti | jti in db.challenges && db.challenges[jti].user == op.user
                   && db.challenges[jti].consumedAt.None? && op.createdAt <= db.challenges[jti].expiresAt
  }

  /** What the login transaction refuses, in the order it looks. */
  ghost function LoginError(db: Database, op: Op): Option<Error>
    requires op.Login?
  {
    if op.counter.Some? == (op.hash != "") then Some(OneCredentialRequired)
    else if !Consumable(db, op.jti, op.user, op.configuration, op.now) then Some(LoginRestartRequired)
    else if !EnabledUnder(db, op.user, op.configuration) then Some(LoginRestartRequired)
    else if op.counter.Some? && !Fresh(db.settings[op.user].lastCounter, op.counter.value)
      then Some(InvalidSecondFactor)
    else if op.counter.None? && !HasUsableCode(db, op.user, op.hash) then Some(InvalidSecondFactor)
    else if op.audit.eventType != "" && op.audit.id in db.audits then Some(ConstraintViolated)
    else None
  }

  function LoginEffect(db: Database, op: Op): Database
    requires op.Login? && op.jti in db.challenges && op.user in db.settings
  {
    var d := if op.counter.Some? then WithCounter(db, op.user, op.counter.value, op.now)
             else db.(codes := MarkUsed(db.codes, op.user, op.hash, op.now));
    d.(challenges := db.challenges[op.jti := db.challenges[op.jti].(consumedAt := Some(op.now))],
       audits := if op.audit.eventType != "" then db.audits[op.audit.id := op.audit] else db.audits)
  }

  function PendingRow(op: Op, createdAt: Time): Setting
    requires op.SavePending? || op.SaveIfUnchanged?
  {
    Setting(op.configuration, op.secret, op.setupExpiresAt, None, None, createdAt, op.updatedAt)
  }

  ghost function SaveError(db: Database, op: Op): Option<Error>
    requires op.SavePending? || op.SaveIfUnchanged?
  {
    if op.SaveIfUnchanged? && op.previous != "" then
      if op.user in db.settings && db.settings[op.user].configuration == op.previous
         && db.settings[op.user].enabledAt.None?
      then None else Some(Conflict)
    else if op.user !in db.settings then
      if op.user in db.users then None else Some(ConstraintViolated)
    else if op.SavePending? && db.settings[op.user].enabledAt.None? then None
    else Some(Conflict)
  }

  function SaveEffect(db: Database, op: Op): Database
    requires op.SavePending? || op.SaveIfUnchanged?
  {
    var createdAt := if op.user in db.settings then db.settings[op.user].createdAt else op.createdAt;
    db.(settings := db.settings[op.user := PendingRow(op, createdAt)])
  }

  predicate Confirmable(db: Database, user: Id, configuration: Id, now: Time) {
    && user in db.settings
    && db.settings[user].configuration == configuration
    && db.settings[user].enabledAt.None?
    && db.settings[user].setupExpiresAt.Some?
    && now < db.settings[user].setupExpiresAt.value
  }

  function Confirmed(s: Setting, counter: int, now: Time): Setting {
    s.(enabledAt := Some(now), setupExpiresAt := None, lastCounter := Some(counter), updatedAt := now)
  }

  function WithNewCodes(db: Database, user: Id, inputs: seq<CodeInput>, now: Time): Database {
    db.(codes := Inserted(WithoutCodesOf(db.codes, user), user, inputs, now))
  }

  ghost function RotateError(db: Database, op: Op): Option<Error>
    requires op.Rotate?
  {
    if !EnabledUnder(db, op.user, op.configuration) then Some(Conflict)
    else if !Fresh(db.settings[op.user].lastCounter, op.totp) then Some(InvalidSecondFactor)
    else if !Insertable(WithoutCodesOf(db.codes, op.user), op.user, op.codes, op.now) then Some(ConstraintViolated)
    else None
  }

  ghost function StepError(db: Database, op: Op): Option<Error> {
    match op
    case CreateChallenge(jti, user, _, _, _, _) =>
      if user !in db.users || jti in db.challenges.Keys - Displaced(db, op) then Some(ConstraintViolated) else None
    case Login(_, _, _, _, _, _, _) => LoginError(db, op)
    case SavePending(_, _, _, _, _, _) => SaveError(db, op)
    case SaveIfUnchanged(_, _, _, _, _, _, _) => SaveError(db, op)
    case Enable(user, configuration, _, codes, now) =>
      if !Confirmable(db, user, configuration, now) then Some(Conflict)
      else if !Insertable(WithoutCodesOf(db.codes, user), user, codes, now) then Some(ConstraintViolated)
      else None
    case ConsumeCounter(user, configuration, totp, _) =>
      if CounterAdvances(db, user, configuration, totp) then None else Some(Conflict)
    case ConsumeCode(user, hash, _) => if HasUsableCode(db, user, hash) then None else Some(NotFound)
    case Rotate(_, _, _, _, _) => RotateError(db, op)
    case Disable(user) => if Enabled(db, user) then None else Some(NotFound)
  }

  ghost function StepEffect(db: Database, op: Op): Database
    requires StepError(db, op).None?
  {
    match op
    case CreateChallenge(jti, user, configuration, expiresAt, createdAt, _) =>
      db.(challenges := (db.challenges - Displaced(db, op))[jti := Challenge(user, configuration, expiresAt, None,
        createdAt)])
    case Login(_, _, _, _, _, _, _) => LoginEffect(db, op)
    case SavePending(_, _, _, _, _, _) => SaveEffect(db, op)
    case SaveIfUnchanged(_, _, _, _, _, _, _) => SaveEffect(db, op)
    case Enable(user, _, totp, codes, now) =>
      WithNewCodes(db.(settings := db.settings[user := Confirmed(db.settings[user], totp, now)]), user, codes, now)
    case ConsumeCounter(user, _, totp, now) => WithCounter(db, user, totp, now)
    case ConsumeCode(user, hash, now) => db.(codes := MarkUsed(db.codes, user, hash, now))
    case Rotate(user, _, totp, codes, now) => WithNewCodes(WithCounter(db, user, totp, now), user, codes, now)
    case Disable(user) => db.(settings := db.settings - {user}, codes := WithoutCodesOf(db.codes, user))
  }

  ghost function Run(db: Database, op: Op): Outcome {
    match StepError(db, op) case None => Done case Some(e) => Failed(e)
  }

  /** A failed transaction leaves the database as it was. */
  ghost function After(db: Database, op: Op): Database {
    if StepError(db, op).None? then StepEffect(db, op) else db
  }

  // ---------------------------------------------------------------- which rows collection takes

  /** Text order of the database: the first difference decides, a prefix comes first. */
  predicate TextBefore(a: string, b: string) {
    if b == "" then false
    else if a == "" then true
    else if a[0] != b[0] then a[0] < b[0]
    else TextBefore(a[1..], b[1..])
  }

  predicate Sooner(challenges: map<Id, Challenge>, a: Id, b: Id)
    requires a in challenges && b in challenges
  {
    challenges[a].expiresAt < challenges[b].expiresAt
    || (challenges[a].expiresAt == challenges[b].expiresAt && TextBefore(a, b))
  }

  lemma {:induction false} TextBeforeTotal(a: string, b: string)
    ensures a == b || TextBefore(a, b) || TextBefore(b, a)
  {
    if a != "" && b != "" && a[0] == b[0] {
      TextBeforeTotal(a[1..], b[1..]);
      assert a == [a[0]] + a[1..] && b == [b[0]] + b[1..];
    }
  }

  lemma {:induction false} TextBeforeTransitive(a: string, b: string, c: string)
    requires TextBefore(a, b) && TextBefore(b, c)
    ensures TextBefore(a, c)
  {
    if a != "" && a[0] == b[0] == c[0] {
      TextBeforeTransitive(a[1..], b[1..], c[1..]);
    }
  }

  lemma SoonerTransitive(challenges: map<Id, Challenge>, a: Id, b: Id, c: Id)
    requires a in challenges && b in challenges && c in challenges
    requires Sooner(challenges, a, b) && Sooner(challenges, b, c)
    ensures Sooner(challenges, a, c)
  {
    if challenges[a].expiresAt == challenges[b].expiresAt == challenges[c].expiresAt {
      TextBeforeTransitive(a, b, c);
    }
  }

  /** At most `COLLECTION_LIMIT` expired rows, those that expired first. */
  ghost predicate OldestExpired(challenges: map<Id, Challenge>, now: Time, collected: set<Id>) {
    && collected <= Expired(challenges, now)
    && |collected| <= COLLECTION_LIMIT
    && (|collected| < COLLECTION_LIMIT ==> collected == Expired(challenges, now))
    && forall a, b :: a in collected && b in Expired(challenges, now) - collected ==> Sooner(challenges, a, b)
  }

  method FirstToExpire(challenges: map<Id, Challenge>, rows: set<Id>) returns (first: Id)
    requires rows != {} && rows <= challenges.Keys
    ensures first in rows
    ensures forall other :: other in rows && other != first ==> Sooner(challenges, first, other)
  {
    first :| first in rows;
    var rest := rows - {first};
    while rest != {}
      invariant first in rows && rest <= rows && first !in rest
      invariant forall other :: other in rows - rest && other != first ==> Sooner(challenges, first, other)
      decreases rest
    {
      var next :| next in rest;
      rest := rest - {next};
      if Sooner(challenges, next, first) {
        forall other | other in rows - rest && other != next && other != first
          ensures Sooner(challenges, next, other)
        {
          SoonerTransitive(challenges, next, first, other);
        }
        first := next;
      } else {
        TextBeforeTotal(next, first);
      }
    }
  }

  method CollectExpired(challenges: map<Id, Challenge>, now: Time) returns (collected: set<Id>)
    ensures OldestExpired(challenges, now, collected)
  {
    collected := {};
    var remaining := set jti | jti in challenges && challenges[jti].expiresAt < now;
    ghost var all := remaining;
    while remaining != {} && |collected| < COLLECTION_LIMIT
      invariant collected + remaining == all && collected !! remaining && |collected| <= COLLECTION_LIMIT
      invariant forall a, b :: a in collected && b in remaining ==> Sooner(challenges, a, b)
      decreases remaining
    {
      var next := FirstToExpire(challenges, remaining);
      collected, remaining := collected + {next}, remaining - {next};
    }
    assert all - collected == remaining;
  }

  // ---------------------------------------------------------------- transactions as code

  /** `db` is the committed database; a transaction changes its own copy and publishes it on commit. */
  class Store {
    var db: Database

    constructor (users: set<Id>)
      ensures db == Database(users, map[], map[], map[], map[])
    {
      db := Database(users, map[], map[], map[], map[]);
    }

    method CreateLoginChallenge(jti: Id, user: Id, configuration: Id, expiresAt: Time, createdAt: Time)
      returns (outcome: Outcome, ghost collected: set<Id>)
      modifies this
      ensures OldestExpired(old(db).challenges, createdAt, collected)
      ensures outcome == Run(old(db), CreateChallenge(jti, user, configuration, expiresAt, createdAt, collected))
      ensures db == After(old(db), CreateChallenge(jti, user, configuration, expiresAt, createdAt, collected))
    {
      var tx := db;
      var expired := CollectExpired(tx.challenges, createdAt);
      collected := expired;
      tx := tx.(challenges := tx.challenges - expired);
      var open := set j | j in tx.challenges && tx.challenges[j].user == user
                  && tx.challenges[j].consumedAt.None? && createdAt <= tx.challenges[j].expiresAt;
      tx := tx.(challenges := tx.challenges - open);
      assert tx.challenges
        == db.challenges - Displaced(db, CreateChallenge(jti, user, configuration, expiresAt, createdAt, collected));
      if jti in tx.challenges || user !in tx.users {
        return Failed(ConstraintViolated), collected;
      }
      tx := tx.(challenges := tx.challenges[jti := Challenge(user, configuration, expiresAt, None, createdAt)]);
      db := tx;
      outcome := Done;
    }

    method ConsumeLoginSecondFactor(jti: Id, user: Id, configuration: Id, counter: Option<int>, hash: string,
                                    now: Time, audit: Audit)
      returns (outcome: Outcome)
      modifies this
      ensures outcome == Run(old(db), Login(jti, user, configuration, counter, hash, now, audit))
      ensures db == After(old(db), Login(jti, user, configuration, counter, hash, now, audit))
    {
      var hasTotp, hasRecovery := counter.Some?, hash != "";
      if hasTotp == hasRecovery {
        return Failed(OneCredentialRequired);
      }
      var tx := db;
      if !Consumable(tx, jti, user, configuration, now) {
        return Failed(LoginRestartRequired);
      }
      tx := tx.(challenges := tx.challenges[jti := tx.challenges[jti].(consumedAt := Some(now))]);
      if !Enabled(tx, user) {
        return Failed(LoginRestartRequired);
      }
      if tx.settings[user].configuration != configuration {
        return Failed(LoginRestartRequired);
      }
      if hasTotp {
        if !CounterAdvances(tx, user, configuration, counter.value) {
          return Failed(InvalidSecondFactor);
        }
        tx := WithCounter(tx, user, counter.value, now);
      } else {
        if UsableIds(tx.codes, user, hash) == {} {
          return Failed(InvalidSecondFactor);
        }
        tx := tx.(codes := MarkUsed(tx.codes, user, hash, now));
      }
      if audit.eventType != "" {
        if audit.id in tx.audits {
          return Failed(ConstraintViolated);
        }
        tx := tx.(audits := tx.audits[audit.id := audit]);
      }
      db := tx;
      outcome := Done;
    }

    method SavePendingTwoFactor(user: Id, configuration: Id, secret: string, setupExpiresAt: Option<Time>,
                                createdAt: Time, updatedAt: Time)
      returns (outcome: Outcome)
      modifies this
      ensures outcome == Run(old(db), SavePending(user, configuration, secret, setupExpiresAt, createdAt, updatedAt))
      ensures db == After(old(db), SavePending(user, configuration, secret, setupExpiresAt, createdAt, updatedAt))
    {
      if user in db.settings {
        var row := db.settings[user];
        if row.enabledAt.Some? {
          return Failed(Conflict);
        }
        row := row.(configuration := configuration, secret := secret, setupExpiresAt := setupExpiresAt,
                    enabledAt := None, lastCounter := None, updatedAt := updatedAt);
        db := db.(settings := db.settings[user := row]);
      } else if user in db.users {
        db := db.(settings := db.settings[user := Setting(configuration, secret, setupExpiresAt, None, None,
          createdAt, updatedAt)]);
      } else {
        return Failed(ConstraintViolated);
      }
      outcome := Done;
    }

    method SavePendingTwoFactorIfUnchanged(user: Id, configuration: Id, secret: string, setupExpiresAt: Option<Time>,
                                           createdAt: Time, updatedAt: Time, previous: Id)
      returns (outcome: Outcome)
      modifies this
      ensures outcome
        == Run(old(db), SaveIfUnchanged(user, configuration, secret, setupExpiresAt, createdAt, updatedAt, previous))
      ensures db == After(old(db),
        SaveIfUnchanged(user, configuration, secret, setupExpiresAt, createdAt, updatedAt, previous))
    {
      if previous == "" {
        if user in db.settings {
          return Failed(Conflict);
        }
        if user !in db.users {
          return Failed(ConstraintViolated);
        }
        db := db.(settings := db.settings[user := Setting(configuration, secret, setupExpiresAt, None, None,
          createdAt, updatedAt)]);
      } else {
        if !(user in db.settings && db.settings[user].configuration == previous && db.settings[user].enabledAt.None?) {
          return Failed(Conflict);
        }
        var row := db.settings[user].(configuration := configuration, secret := secret,
          setupExpiresAt := setupExpiresAt,
                                      enabledAt := None, lastCounter := None, updatedAt := updatedAt);
        db := db.(settings := db.settings[user := row]);
      }
      outcome := Done;
    }

    /** Inserts row by row and stops at the first broken key. */
    static method InsertRecoveryCodes(table: map<Id, RecoveryCode>, user: Id, inputs: seq<CodeInput>, now: Time)
      returns (codes: map<Id, RecoveryCode>, ok: bool)
      ensures ok <==> Insertable(table, user, inputs, now)
      ensures ok ==> codes == Inserted(table, user, inputs, now)
    {
      codes := table;
      for i := 0 to |inputs|
        invariant Insertable(table, user, inputs[..i], now)
        invariant codes == Inserted(table, user, inputs[..i], now)
      {
        var input := inputs[i];
        OneMoreInput(table, user, inputs, i, now);
        if Clashes(codes, user, input) {
          UninsertablePrefix(table, user, inputs, i + 1, now);
          return codes, false;
        }
        codes := codes[input.id := RecoveryCode(user, input.hash, None, now)];
      }
      assert inputs[..|inputs|] == inputs;
      ok := true;
    }

    method EnableTwoFactor(user: Id, configuration: Id, counter: int, inputs: seq<CodeInput>, now: Time)
      returns (outcome: Outcome)
      modifies this
      ensures outcome == Run(old(db), Enable(user, configuration, counter, inputs, now))
      ensures db == After(old(db), Enable(user, configuration, counter, inputs, now))
    {
      var tx := db;
      if !Confirmable(tx, user, configuration, now) {
        return Failed(Conflict);
      }
      tx := tx.(settings := tx.settings[user := Confirmed(tx.settings[user], counter, now)]);
      tx := tx.(codes := WithoutCodesOf(tx.codes, user));
      var codes, ok := InsertRecoveryCodes(tx.codes, user, inputs, now);
      if !ok {
        return Failed(ConstraintViolated);
      }
      db := tx.(codes := codes);
      outcome := Done;
    }

    method ConsumeTOTPCounter(user: Id, configuration: Id, counter: int, now: Time) returns (outcome: Outcome)
      modifies this
      ensures outcome == Run(old(db), ConsumeCounter(user, configuration, counter, now))
      ensures db == After(old(db), ConsumeCounter(user, configuration, counter, now))
    {
      if !CounterAdvances(db, user, configuration, counter) {
        return Failed(Conflict);
      }
      db := WithCounter(db, user, counter, now);
      outcome := Done;
    }

    method ConsumeRecoveryCode(user: Id, hash: string, now: Time) returns (outcome: Outcome)
      modifies this
      ensures outcome == Run(old(db), ConsumeCode(user, hash, now))
      ensures db == After(old(db), ConsumeCode(user, hash, now))
    {
      if UsableIds(db.codes, user, hash) == {} {
        return Failed(NotFound);
      }
      db := db.(codes := MarkUsed(db.codes, user, hash, now));
      outcome := Done;
    }

    /** The last `Conflict` is the fallback the code keeps for a row that changed under it; it is never reached. */
    method ReplaceRecoveryCodesAfterTOTP(user: Id, configuration: Id, counter: int, inputs: seq<CodeInput>, now: Time)
      returns (outcome: Outcome, fallback: bool)
      modifies this
      ensures outcome == Run(old(db), Rotate(user, configuration, counter, inputs, now))
      ensures db == After(old(db), Rotate(user, configuration, counter, inputs, now))
      ensures !fallback
    {
      fallback := false;
      var tx := db;
      if !CounterAdvances(tx, user, configuration, counter) {
        if !Enabled(tx, user) || tx.settings[user].configuration != configuration {
          return Failed(Conflict), false;
        }
        var current := tx.settings[user].lastCounter;
        if current.Some? && current.value >= counter {
          return Failed(InvalidSecondFactor), false;
        }
        return Failed(Conflict), true;
      }
      tx := WithCounter(tx, user, counter, now);
      tx := tx.(codes := WithoutCodesOf(tx.codes, user));
      var codes, ok := InsertRecoveryCodes(tx.codes, user, inputs, now);
      if !ok {
        return Failed(ConstraintViolated), false;
      }
      db := tx.(codes := codes);
      outcome := Done;
    }

    method DisableTwoFactor(user: Id) returns (outcome: Outcome)
      modifies this
      ensures outcome == Run(old(db), Disable(user))
      ensures db == After(old(db), Disable(user))
    {
      var tx := db;
      tx := tx.(codes := WithoutCodesOf(tx.codes, user));
      if !Enabled(tx, user) {
        return Failed(NotFound);
      }
      db := tx.(settings := tx.settings - {user});
      outcome := Done;
    }

    function CountRecoveryCodes(user: Id): nat
      reads this
    {
      |set id | id in db.codes && db.codes[id].user == user && db.codes[id].usedAt.None?|
    }

    /** The join behind the status page: an enabled row, left-joined with its unused codes. */
    function GetTwoFactorStatus(user: Id): (status: (bool, nat))
      reads this
    {
      var rows := set u | u in db.settings && u == user && db.settings[u].enabledAt.Some?;
      var joined := set id | id in db.codes && db.codes[id].user in rows && db.codes[id].usedAt.None?;
      (|rows| != 0, |joined|)
    }
  }
}
