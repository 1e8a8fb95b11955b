/**
 When each transaction succeeds and what the tables hold, told from the operations of the run alone: which came
 before, and which of them succeeded.
 */
module TwoFactorLaws {
  import opened Wrappers
  import opened TwoFactorTables
  import opened TwoFactorRuns

  predicate Blank(db: Database) {
    StartsEmpty(db) && db.audits == map[]
  }

  // ---------------------------------------------------------------- other users

  function UserOf(op: Op): Id {
    op.user
  }

  function CodesOf(codes: map<Id, RecoveryCode>, user: Id): map<Id, RecoveryCode> {
    map id | id in codes && codes[id].user == user :: codes[id]
  }

  function SettingOf(db: Database, user: Id): Option<Setting> {
    if user in db.settings then Some(db.settings[user]) else None
  }

  predicate SameFor(a: Database, b: Database, user: Id) {
    SettingOf(a, user) == SettingOf(b, user) && CodesOf(a.codes, user) == CodesOf(b.codes, user)
  }

  /** A batch that fits keeps every row there was. */
  lemma {:induction false} InsertedKeeps(codes: map<Id, RecoveryCode>, user: Id, inputs: seq<CodeInput>, now: Time,
                                         id: Id)
    requires Insertable(codes, user, inputs, now) && id in codes
    ensures id in Inserted(codes, user, inputs, now) && Inserted(codes, user, inputs, now)[id] == codes[id]
  {
    if inputs != [] {
      InsertedKeeps(codes, user, inputs[..|inputs| - 1], now, id);
    }
  }

  lemma InsertedForOthers(codes: map<Id, RecoveryCode>, user: Id, inputs: seq<CodeInput>, now: Time, other: Id)
    requires Insertable(codes, user, inputs, now) && other != user
    ensures CodesOf(Inserted(codes, user, inputs, now), other) == CodesOf(codes, other)
  {
    var more := Inserted(codes, user, inputs, now);
    forall id ensures id in CodesOf(more, other) <==> id in CodesOf(codes, other) {
      if id in codes {
        InsertedKeeps(codes, user, inputs, now, id);
      }
      if id in more {
        InsertedRow(codes, user, inputs, now, id);
      }
    }
    forall id | id in CodesOf(codes, other) ensures CodesOf(more, other)[id] == CodesOf(codes, other)[id] {
      InsertedKeeps(codes, user, inputs, now, id);
    }
  }

  lemma SettingFrame(db: Database, op: Op, other: Id)
    requires UserOf(op) != other
    ensures SettingOf(After(db, op), other) == SettingOf(db, other)
  {
  }

  lemma ReissueFrame(codes: map<Id, RecoveryCode>, user: Id, inputs: seq<CodeInput>, now: Time, other: Id)
    requires other != user
    ensures CodesOf(WithoutCodesOf(codes, user), other) == CodesOf(codes, other)
    ensures Insertable(WithoutCodesOf(codes, user), user, inputs, now) ==>
      CodesOf(Inserted(WithoutCodesOf(codes, user), user, inputs, now), other) == CodesOf(codes, other)
  {
    if Insertable(WithoutCodesOf(codes, user), user, inputs, now) {
      InsertedForOthers(WithoutCodesOf(codes, user), user, inputs, now, other);
    }
  }

  lemma MarkFrame(codes: map<Id, RecoveryCode>, user: Id, hash: string, now: Time, other: Id)
    requires other != user
    ensures CodesOf(MarkUsed(codes, user, hash, now), other) == CodesOf(codes, other)
  {
  }

  lemma FrameStep(db: Database, op: Op, other: Id)
    requires UserOf(op) != other
    ensures SameFor(db, After(db, op), other)
  {
    SettingFrame(db, op, other);
    if StepError(db, op).None? {
      match op
      case Enable(user, _, _, codes, now) => ReissueFrame(db.codes, user, codes, now, other);
      case Rotate(user, _, _, codes, now) => ReissueFrame(db.codes, user, codes, now, other);
      case Disable(user) => ReissueFrame(db.codes, user, [], 0, other);
      case Login(_, user, _, _, hash, now, _) => MarkFrame(db.codes, user, hash, now, other);
      case ConsumeCode(user, hash, now) => MarkFrame(db.codes, user, hash, now, other);
      case _ =>
    }
  }

  /** Whatever is done for other users, a user's configuration and recovery codes stay as they are. */
  lemma {:induction false} OthersKeepTheirs(states: seq<Database>, ops: seq<Op>, i: nat, j: nat, user: Id)
    requires IsRun(states, ops) && i <= j <= |ops| && forall k :: i <= k < j ==> UserOf(ops[k]) != user
    ensures SameFor(states[i], states[j], user)
  {
    if i < j {
      OthersKeepTheirs(states, ops, i, j - 1, user);
      assert StepOf(states, ops, j - 1);
      FrameStep(states[j - 1], ops[j - 1], user);
    }
  }

  // ---------------------------------------------------------------- challenges

  function RowOf(op: Op): Challenge
    requires op.CreateChallenge?
  {
    Challenge(op.user, op.configuration, op.expiresAt, None, op.createdAt)
  }

  /** The creation collects the challenge, or displaces it as an unexpired one of the same user. */
  predicate Removes(op: Op, jti: Id, user: Id, expiresAt: Time) {
    op.CreateChallenge? && (jti in op.collected || (op.user == user && op.createdAt <= expiresAt))
  }

  predicate Ends(op: Op, jti: Id, user: Id, expiresAt: Time) {
    LogsInWith(op, jti) || Creates(op, jti) || Removes(op, jti, user, expiresAt)
  }

  /** The challenge created in step `k` has been neither consumed nor removed before step `n`. */
  ghost predicate StillOpen(states: seq<Database>, ops: seq<Op>, k: nat, n: nat, jti: Id)
    requires IsRun(states, ops) && n <= |ops|
  {
    && k < n && Creates(ops[k], jti) && Succeeds(states, ops, k)
    && forall m :: k < m < n && Succeeds(states, ops, m) ==> !Ends(ops[m], jti, ops[k].user, ops[k].expiresAt)
  }

  predicate Open(db: Database, jti: Id) {
    jti in db.challenges && db.challenges[jti].consumedAt.None?
  }

  lemma ChallengeStep(db: Database, op: Op, jti: Id)
    requires op.CreateChallenge? ==> op.collected <= Expired(db.challenges, op.createdAt)
    ensures var after := After(db, op);
      if StepError(db, op).None? && Creates(op, jti) then Open(after, jti) && after.challenges[jti] == RowOf(op)
      else if Open(db, jti) then
        if StepError(db, op).None? && Ends(op, jti, db.challenges[jti].user, db.challenges[jti].expiresAt) then
          !Open(after, jti)
        else Open(after, jti) && after.challenges[jti] == db.challenges[jti]
      else !Open(after, jti)
  {
  }

  lemma ChallengeInRun(states: seq<Database>, ops: seq<Op>, m: nat, jti: Id)
    requires IsRun(states, ops) && m < |ops|
    ensures var db, after := states[m], states[m + 1];
      if Succeeds(states, ops, m) && Creates(ops[m], jti) then
        Open(after, jti) && after.challenges[jti] == RowOf(ops[m])
      else if Open(db, jti) then
        if Succeeds(states, ops, m) && Ends(ops[m], jti, db.challenges[jti].user, db.challenges[jti].expiresAt) then
          !Open(after, jti)
        else Open(after, jti) && after.challenges[jti] == db.challenges[jti]
      else !Open(after, jti)
  {
    assert StepOf(states, ops, m);
    ChallengeStep(states[m], ops[m], jti);
  }

  /** An open challenge's row is the one its creation gave: user, configuration and expiry. */
  lemma {:induction false} OpenRowIsAsCreated(states: seq<Database>, ops: seq<Op>, k: nat, n: nat, jti: Id)
    requires IsRun(states, ops) && n <= |ops| && StillOpen(states, ops, k, n, jti)
    ensures Open(states[n], jti) && states[n].challenges[jti] == RowOf(ops[k])
  {
    ChallengeInRun(states, ops, n - 1, jti);
    if k < n - 1 {
      OpenRowIsAsCreated(states, ops, k, n - 1, jti);
    }
  }

  lemma {:induction false} OpenWasCreated(states: seq<Database>, ops: seq<Op>, n: nat, jti: Id) returns (k: nat)
    requires IsRun(states, ops) && n <= |ops| && StartsEmpty(states[0]) && Open(states[n], jti)
    ensures StillOpen(states, ops, k, n, jti)
  {
    k := n - 1;
    ChallengeInRun(states, ops, k, jti);
    if !(Succeeds(states, ops, k) && Creates(ops[k], jti)) {
      k := OpenWasCreated(states, ops, n - 1, jti);
      OpenRowIsAsCreated(states, ops, k, n - 1, jti);
    }
  }

  // ---------------------------------------------------------------- configurations

  predicate SavesFor(op: Op, user: Id) {
    (op.SavePending? || op.SaveIfUnchanged?) && op.user == user
  }

  /** The save in step `k` is the user's last before step `n`, and no disable came after it. */
  ghost predicate Current(states: seq<Database>, ops: seq<Op>, k: nat, n: nat, user: Id)
    requires IsRun(states, ops) && n <= |ops|
  {
    && k < n && SavesFor(ops[k], user) && Succeeds(states, ops, k)
    && forall m :: k < m < n && Succeeds(states, ops, m) ==> !SavesFor(ops[m], user) && ops[m] != Disable(user)
  }

  ghost predicate ConfirmedSince(states: seq<Database>, ops: seq<Op>, k: nat, n: nat, user: Id)
    requires IsRun(states, ops) && n <= |ops|
  {
    exists e :: k < e < n && ops[e].Enable? && ops[e].user == user && Succeeds(states, ops, e)
  }

  /** The counter is above all that were accepted for the user since step `k`. */
  ghost predicate AboveAccepted(states: seq<Database>, ops: seq<Op>, k: nat, n: nat, user: Id, configuration: Id,
                                counter: int)
    requires IsRun(states, ops) && n <= |ops|
  {
    forall i :: k < i < n && Accepts(states, ops, i, user, configuration) ==> CounterOf(ops[i]) < counter
  }

  lemma SettingStep(db: Database, op: Op, user: Id)
    ensures var after := After(db, op); var ok := StepError(db, op).None?;
      if ok && SavesFor(op, user) then
        && user in after.settings
        && after.settings[user] == Setting(op.configuration, op.secret, op.setupExpiresAt, None, None,
             if user in db.settings then db.settings[user].createdAt else op.createdAt, op.updatedAt)
      else if ok && op == Disable(user) then user !in after.settings
      else if user !in db.settings then user !in after.settings
      else
        var s := db.settings[user];
        && user in after.settings
        && after.settings[user] ==
             (if ok && op.Enable? && op.user == user then
                s.(enabledAt := Some(op.now), setupExpiresAt := None, lastCounter := Some(op.totp), updatedAt := op.now)
              else if ok && PresentsCounter(op, user, s.configuration) then
                s.(lastCounter := Some(CounterOf(op)), updatedAt := ClockOf(op))
              else s)
        && (ok && op.Enable? && op.user == user ==> op.configuration == s.configuration && s.enabledAt.None?)
        && (ok && !op.Enable? && PresentsCounter(op, user, s.configuration) ==>
              s.enabledAt.Some? && Fresh(s.lastCounter, CounterOf(op)))
  {
  }

  /** The stored configuration is that of the save, confirmed or not, and its counter is the last accepted since. */
  ghost predicate SettingIs(states: seq<Database>, ops: seq<Op>, k: nat, n: nat, user: Id)
    requires IsRun(states, ops) && n <= |ops|
  {
    && k < n && SavesFor(ops[k], user) && user in states[n].settings
    && var s := states[n].settings[user];
       && s.configuration == ops[k].configuration && s.secret == ops[k].secret
       && (s.enabledAt.Some? <==> ConfirmedSince(states, ops, k, n, user))
       && s.setupExpiresAt == (if s.enabledAt.Some? then None else ops[k].setupExpiresAt)
       && (s.enabledAt.None? ==> s.lastCounter.None?)
       && forall c :: Fresh(s.lastCounter, c) <==> AboveAccepted(states, ops, k, n, user, s.configuration, c)
  }

  lemma SettingAfterSave(states: seq<Database>, ops: seq<Op>, k: nat, user: Id)
    requires IsRun(states, ops) && k < |ops| && SavesFor(ops[k], user) && Succeeds(states, ops, k)
    ensures SettingIs(states, ops, k, k + 1, user)
  {
    assert StepOf(states, ops, k);
    SettingStep(states[k], ops[k], user);
  }

  lemma SettingConfirmed(states: seq<Database>, ops: seq<Op>, k: nat, m: nat, user: Id)
    requires IsRun(states, ops) && m < |ops| && SettingIs(states, ops, k, m, user)
    requires ops[m].Enable? && ops[m].user == user && Succeeds(states, ops, m)
    ensures SettingIs(states, ops, k, m + 1, user)
  {
    assert StepOf(states, ops, m);
    SettingStep(states[m], ops[m], user);
    AcceptedMore(states, ops, k, m, user, states[m].settings[user].configuration);
    assert Accepts(states, ops, m, user, states[m].settings[user].configuration);
    assert ConfirmedSince(states, ops, k, m + 1, user);
    var configuration := states[m].settings[user].configuration;
    var next, now := m + 1, states[m + 1].settings[user];
    forall c ensures Fresh(now.lastCounter, c) <==> AboveAccepted(states, ops, k, next, user, configuration, c) {
      assert Fresh(states[m].settings[user].lastCounter, c);
      assert AboveAccepted(states, ops, k, m, user, configuration, c);
    }
  }

  /** One more step adds its counter to those accepted, if it is accepted. */
  lemma AcceptedMore(states: seq<Database>, ops: seq<Op>, k: nat, m: nat, user: Id, configuration: Id)
    requires IsRun(states, ops) && k < m < |ops|
    ensures forall c :: AboveAccepted(states, ops, k, m + 1, user, configuration, c) <==>
      (AboveAccepted(states, ops, k, m, user, configuration, c)
       && (Accepts(states, ops, m, user, configuration) ==> CounterOf(ops[m]) < c))
  {
  }

  lemma SettingOtherwise(states: seq<Database>, ops: seq<Op>, k: nat, m: nat, user: Id)
    requires IsRun(states, ops) && m < |ops| && SettingIs(states, ops, k, m, user)
    requires Succeeds(states, ops, m) ==>
      !SavesFor(ops[m], user) && ops[m] != Disable(user) && !(ops[m].Enable? && ops[m].user == user)
    ensures SettingIs(states, ops, k, m + 1, user)
  {
    assert StepOf(states, ops, m);
    SettingStep(states[m], ops[m], user);
    AcceptedMore(states, ops, k, m, user, states[m].settings[user].configuration);
    assert ConfirmedSince(states, ops, k, m + 1, user) <==> ConfirmedSince(states, ops, k, m, user);
  }

  lemma {:induction false} CurrentSaveIsStored(states: seq<Database>, ops: seq<Op>, k: nat, n: nat, user: Id)
    requires IsRun(states, ops) && n <= |ops| && Current(states, ops, k, n, user)
    ensures SettingIs(states, ops, k, n, user)
  {
    var m := n - 1;
    if m == k {
      SettingAfterSave(states, ops, k, user);
    } else {
      CurrentSaveIsStored(states, ops, k, m, user);
      if ops[m].Enable? && ops[m].user == user && Succeeds(states, ops, m) {
        SettingConfirmed(states, ops, k, m, user);
      } else {
        SettingOtherwise(states, ops, k, m, user);
      }
    }
  }

  lemma {:induction false} StoredWasSaved(states: seq<Database>, ops: seq<Op>, n: nat, user: Id) returns (k: nat)
    requires IsRun(states, ops) && n <= |ops| && StartsEmpty(states[0]) && user in states[n].settings
    ensures Current(states, ops, k, n, user)
  {
    k := n - 1;
    assert StepOf(states, ops, k);
    SettingStep(states[k], ops[k], user);
    if !(SavesFor(ops[k], user) && Succeeds(states, ops, k)) {
      k := StoredWasSaved(states, ops, n - 1, user);
    }
  }

  /** The configuration was saved last, not disabled since, and confirmed. */
  ghost predicate InForce(states: seq<Database>, ops: seq<Op>, k: nat, n: nat, user: Id, configuration: Id)
    requires IsRun(states, ops) && n <= |ops|
  {
    Current(states, ops, k, n, user) && ops[k].configuration == configuration && ConfirmedSince(states, ops, k, n, user)
  }

  lemma InForceExactly(states: seq<Database>, ops: seq<Op>, n: nat, user: Id, configuration: Id)
    requires IsRun(states, ops) && n <= |ops| && StartsEmpty(states[0])
    ensures EnabledUnder(states[n], user, configuration) <==>
      exists k: nat :: InForce(states, ops, k, n, user, configuration)
    ensures forall k: nat :: InForce(states, ops, k, n, user, configuration) ==>
      forall c :: Fresh(states[n].settings[user].lastCounter, c)
                  <==> AboveAccepted(states, ops, k, n, user, configuration, c)
  {
    if user in states[n].settings {
      var k := StoredWasSaved(states, ops, n, user);
      CurrentSaveIsStored(states, ops, k, n, user);
      assert EnabledUnder(states[n], user, configuration) ==> InForce(states, ops, k, n, user, configuration);
    }
    forall k: nat | InForce(states, ops, k, n, user, configuration)
      ensures SettingIs(states, ops, k, n, user)
    {
      CurrentSaveIsStored(states, ops, k, n, user);
    }
  }

  // ---------------------------------------------------------------- recovery codes

  predicate Reissues(op: Op, user: Id) {
    (op.Enable? || op.Rotate?) && op.user == user
  }

  predicate SpendsOrDrops(op: Op, user: Id, hash: string) {
    Reissues(op, user) || op == Disable(user) || PresentsCode(op, user, hash)
  }

  /** The batch issued in step `k` is the user's last, holds this code, and the code has not been presented since. */
  ghost predicate Unspent(states: seq<Database>, ops: seq<Op>, k: nat, n: nat, user: Id, hash: string)
    requires IsRun(states, ops) && n <= |ops|
  {
    && k < n && Issues(ops[k], user, hash) && Succeeds(states, ops, k)
    && forall m :: k < m < n && Succeeds(states, ops, m) ==> !SpendsOrDrops(ops[m], user, hash)
  }

  lemma UsableById(codes: map<Id, RecoveryCode>, user: Id, hash: string)
    ensures UsableIds(codes, user, hash) != {} <==> exists id :: id in codes && CodeUsable(codes[id], user, hash)
  {
    if id :| id in codes && CodeUsable(codes[id], user, hash) {
      assert id in UsableIds(codes, user, hash);
    }
  }

  /** Every hash of a batch that fits is held by a new, unused row. */
  lemma {:induction false} InsertedHolds(codes: map<Id, RecoveryCode>, user: Id, inputs: seq<CodeInput>, now: Time,
                                         i: nat)
    requires Insertable(codes, user, inputs, now) && i < |inputs|
    ensures inputs[i].id in Inserted(codes, user, inputs, now)
    ensures Inserted(codes, user, inputs, now)[inputs[i].id] == RecoveryCode(user, inputs[i].hash, None, now)
  {
    if i < |inputs| - 1 {
      InsertedHolds(codes, user, inputs[..|inputs| - 1], now, i);
    }
  }

  lemma ReissueStep(codes: map<Id, RecoveryCode>, user: Id, inputs: seq<CodeInput>, now: Time, hash: string)
    requires Insertable(WithoutCodesOf(codes, user), user, inputs, now)
    ensures UsableIds(Inserted(WithoutCodesOf(codes, user), user, inputs, now), user, hash) != {} <==>
      exists i :: 0 <= i < |inputs| && inputs[i].hash == hash
  {
    var kept := WithoutCodesOf(codes, user);
    var more := Inserted(kept, user, inputs, now);
    UsableById(more, user, hash);
    if i :| 0 <= i < |inputs| && inputs[i].hash == hash {
      InsertedHolds(kept, user, inputs, now, i);
      assert CodeUsable(more[inputs[i].id], user, hash);
    }
    forall id | id in more && CodeUsable(more[id], user, hash)
      ensures exists i :: 0 <= i < |inputs| && inputs[i].hash == hash
    {
      InsertedRow(kept, user, inputs, now, id);
    }
  }

  lemma SameCodesSameUse(a: map<Id, RecoveryCode>, b: map<Id, RecoveryCode>, user: Id, hash: string)
    requires CodesOf(a, user) == CodesOf(b, user)
    ensures UsableIds(a, user, hash) == UsableIds(b, user, hash)
  {
    forall id ensures id in UsableIds(a, user, hash) <==> id in UsableIds(b, user, hash) {
      assert id in CodesOf(a, user) <==> id in CodesOf(b, user);
      assert id in CodesOf(a, user) ==> CodesOf(a, user)[id] == a[id] && CodesOf(b, user)[id] == b[id];
    }
  }

  lemma MarkStep(codes: map<Id, RecoveryCode>, user: Id, presented: string, now: Time, hash: string)
    ensures UsableIds(MarkUsed(codes, user, presented, now), user, hash)
            == if hash == presented then {} else UsableIds(codes, user, hash)
  {
  }

  lemma CodeStep(db: Database, op: Op, user: Id, hash: string)
    requires StepError(db, op).None?
    ensures HasUsableCode(After(db, op), user, hash) <==>
      if Reissues(op, user) then Issues(op, user, hash)
      else !SpendsOrDrops(op, user, hash) && HasUsableCode(db, user, hash)
  {
    if UserOf(op) != user {
      FrameStep(db, op, user);
      SameCodesSameUse(db.codes, After(db, op).codes, user, hash);
    } else {
      match op
      case Enable(_, _, _, codes, now) => ReissueStep(db.codes, user, codes, now, hash);
      case Rotate(_, _, _, codes, now) => ReissueStep(db.codes, user, codes, now, hash);
      case Login(_, _, _, _, presented, now, _) => MarkStep(db.codes, user, presented, now, hash);
      case ConsumeCode(_, presented, now) => MarkStep(db.codes, user, presented, now, hash);
      case Disable(_) => assert UsableIds(WithoutCodesOf(db.codes, user), user, hash) == {};
      case _ =>
    }
  }

  lemma CodeInRun(states: seq<Database>, ops: seq<Op>, m: nat, user: Id, hash: string)
    requires IsRun(states, ops) && m < |ops|
    ensures HasUsableCode(states[m + 1], user, hash) <==>
      if !Succeeds(states, ops, m) then HasUsableCode(states[m], user, hash)
      else if Reissues(ops[m], user) then Issues(ops[m], user, hash)
      else !SpendsOrDrops(ops[m], user, hash) && HasUsableCode(states[m], user, hash)
  {
    assert StepOf(states, ops, m);
    if Succeeds(states, ops, m) {
      CodeStep(states[m], ops[m], user, hash);
    }
  }

  lemma {:induction false} UnspentIsUsable(states: seq<Database>, ops: seq<Op>, k: nat, n: nat, user: Id, hash: string)
    requires IsRun(states, ops) && n <= |ops| && Unspent(states, ops, k, n, user, hash)
    ensures HasUsableCode(states[n], user, hash)
  {
    CodeInRun(states, ops, n - 1, user, hash);
    if k < n - 1 {
      UnspentIsUsable(states, ops, k, n - 1, user, hash);
    }
  }

  lemma {:induction false} UsableIsUnspent(states: seq<Database>, ops: seq<Op>, n: nat, user: Id, hash: string)
    returns (k: nat)
    requires IsRun(states, ops) && n <= |ops| && StartsEmpty(states[0]) && HasUsableCode(states[n], user, hash)
    ensures Unspent(states, ops, k, n, user, hash)
  {
    k := n - 1;
    CodeInRun(states, ops, k, user, hash);
    if !(Succeeds(states, ops, k) && Reissues(ops[k], user)) {
      k := UsableIsUnspent(states, ops, n - 1, user, hash);
    }
  }

  /**
   A recovery code can be used exactly if the user's last successful confirmation or rotation issued it, no disable
   followed, and neither a login nor a plain use of it has succeeded since.
   */
  lemma UsableExactly(states: seq<Database>, ops: seq<Op>, n: nat, user: Id, hash: string)
    requires IsRun(states, ops) && n <= |ops| && StartsEmpty(states[0])
    ensures HasUsableCode(states[n], user, hash) <==> exists k: nat :: Unspent(states, ops, k, n, user, hash)
  {
    if HasUsableCode(states[n], user, hash) {
      var k := UsableIsUnspent(states, ops, n, user, hash);
    }
    if k: nat :| Unspent(states, ops, k, n, user, hash) {
      UnspentIsUsable(states, ops, k, n, user, hash);
    }
  }

  // ---------------------------------------------------------------- how many codes are left

  /** The unique key on the user and the hash. */
  ghost predicate OneRowEach(codes: map<Id, RecoveryCode>) {
    forall a, b ::
      a in codes && b in codes && codes[a].user == codes[b].user && codes[a].hash == codes[b].hash ==> a == b
  }

  lemma {:induction false} InsertedOneRowEach(codes: map<Id, RecoveryCode>, user: Id, inputs: seq<CodeInput>, now: Time)
    requires Insertable(codes, user, inputs, now) && OneRowEach(codes)
    ensures OneRowEach(Inserted(codes, user, inputs, now))
  {
    if inputs != [] {
      var n := |inputs| - 1;
      InsertedOneRowEach(codes, user, inputs[..n], now);
      var before, hash := Inserted(codes, user, inputs[..n], now), inputs[n].hash;
      forall id | id in before && before[id].user == user ensures before[id].hash != hash {
        assert before[id].hash == hash ==> id in HolderOf(before, user, hash);
      }
    }
  }

  lemma OneRowEachStep(db: Database, op: Op)
    requires OneRowEach(db.codes)
    ensures OneRowEach(After(db, op).codes)
  {
    if StepError(db, op).None? && (op.Enable? || op.Rotate?) {
      InsertedOneRowEach(WithoutCodesOf(db.codes, op.user), op.user, op.codes, op.now);
    }
  }

  lemma {:induction false} OneRowEachHolds(states: seq<Database>, ops: seq<Op>, n: nat)
    requires IsRun(states, ops) && n <= |ops| && StartsEmpty(states[0])
    ensures OneRowEach(states[n].codes)
  {
    if n > 0 {
      OneRowEachHolds(states, ops, n - 1);
      assert StepOf(states, ops, n - 1);
      OneRowEachStep(states[n - 1], ops[n - 1]);
    }
  }

  function HashesOf(codes: map<Id, RecoveryCode>, ids: set<Id>): set<string> {
    set id | id in ids && id in codes :: codes[id].hash
  }

  lemma {:induction false} AsManyHashes(codes: map<Id, RecoveryCode>, user: Id, ids: set<Id>)
    requires OneRowEach(codes) && forall id :: id in ids ==> id in codes && codes[id].user == user
    ensures |HashesOf(codes, ids)| == |ids|
  {
    if ids != {} {
      var id :| id in ids;
      AsManyHashes(codes, user, ids - {id});
      assert HashesOf(codes, ids) == HashesOf(codes, ids - {id}) + {codes[id].hash};
      assert codes[id].hash !in HashesOf(codes, ids - {id});
    }
  }

  /** The number of codes shown to a user is the number of different codes that can be used. */
  lemma CountIsOfUsableCodes(states: seq<Database>, ops: seq<Op>, n: nat, store: Store, user: Id)
    returns (usable: set<string>)
    requires IsRun(states, ops) && n <= |ops| && StartsEmpty(states[0]) && store.db == states[n]
    ensures store.CountRecoveryCodes(user) == |usable|
    ensures forall hash :: hash in usable <==> exists k: nat :: Unspent(states, ops, k, n, user, hash)
  {
    var codes := states[n].codes;
    var ids := set id | id in codes && codes[id].user == user && codes[id].usedAt.None?;
    usable := HashesOf(codes, ids);
    OneRowEachHolds(states, ops, n);
    AsManyHashes(codes, user, ids);
    forall hash ensures hash in usable <==> exists k: nat :: Unspent(states, ops, k, n, user, hash) {
      UsableById(codes, user, hash);
      UsableExactly(states, ops, n, user, hash);
    }
  }

  // ---------------------------------------------------------------- audit rows

  ghost predicate AuditUsed(states: seq<Database>, ops: seq<Op>, n: nat, id: Id)
    requires IsRun(states, ops) && n <= |ops|
  {
    exists i :: 0 <= i < n && AuditedLogin(ops[i]) && Succeeds(states, ops, i) && ops[i].audit.id == id
  }

  lemma {:induction false} AuditsAreLogins(states: seq<Database>, ops: seq<Op>, n: nat, id: Id)
    requires IsRun(states, ops) && n <= |ops| && Blank(states[0])
    ensures id in states[n].audits <==> AuditUsed(states, ops, n, id)
  {
    if n > 0 {
      AuditsAreLogins(states, ops, n - 1, id);
      AuditInRun(states, ops, n - 1);
    }
  }

  // ---------------------------------------------------------------- what transactions answer

  /** The challenge was created for this user and configuration, is still open, and not past the expiry it was given. */
  ghost predicate ChallengeHolds(states: seq<Database>, ops: seq<Op>, n: nat, op: Op)
    requires IsRun(states, ops) && n <= |ops| && op.Login?
  {
    exists k: nat :: StillOpen(states, ops, k, n, op.jti)
      && ops[k].user == op.user && ops[k].configuration == op.configuration && op.now <= ops[k].expiresAt
  }

  ghost predicate IsInForce(states: seq<Database>, ops: seq<Op>, n: nat, user: Id, configuration: Id)
    requires IsRun(states, ops) && n <= |ops|
  {
    exists k: nat :: InForce(states, ops, k, n, user, configuration)
  }

  /** The counter is above every counter accepted since the configuration in force was saved. */
  ghost predicate IsNewCounter(states: seq<Database>, ops: seq<Op>, n: nat, user: Id, configuration: Id, counter: int)
    requires IsRun(states, ops) && n <= |ops|
  {
    exists k: nat :: InForce(states, ops, k, n, user, configuration)
      && AboveAccepted(states, ops, k, n, user, configuration, counter)
  }

  ghost predicate IsUnspent(states: seq<Database>, ops: seq<Op>, n: nat, user: Id, hash: string)
    requires IsRun(states, ops) && n <= |ops|
  {
    exists k: nat :: Unspent(states, ops, k, n, user, hash)
  }

  lemma ChallengeHoldsExactly(states: seq<Database>, ops: seq<Op>, n: nat, op: Op)
    requires IsRun(states, ops) && n <= |ops| && op.Login? && StartsEmpty(states[0])
    ensures Consumable(states[n], op.jti, op.user, op.configuration, op.now) <==> ChallengeHolds(states, ops, n, op)
  {
    if Open(states[n], op.jti) {
      var k := OpenWasCreated(states, ops, n, op.jti);
      OpenRowIsAsCreated(states, ops, k, n, op.jti);
    }
    forall k: nat | StillOpen(states, ops, k, n, op.jti)
      ensures Open(states[n], op.jti) && states[n].challenges[op.jti] == RowOf(ops[k])
    {
      OpenRowIsAsCreated(states, ops, k, n, op.jti);
    }
  }

  /**
   A login needs one credential, an open challenge of this user and configuration that is not past its expiry, and the
   configuration in force; then a counter above all accepted under it, or a code that can be used; then a new audit id.
   It succeeds exactly if it has all of them, and otherwise names the first that is missing.
   */
  lemma LoginAnswer(states: seq<Database>, ops: seq<Op>, n: nat)
    requires IsRun(states, ops) && n < |ops| && ops[n].Login? && Blank(states[0])
    ensures var op := ops[n];
      Run(states[n], op) ==
        if op.counter.Some? == (op.hash != "") then Failed(OneCredentialRequired)
        else if !ChallengeHolds(states, ops, n, op) || !IsInForce(states, ops, n, op.user, op.configuration)
          then Failed(LoginRestartRequired)
        else if op.counter.Some? && !IsNewCounter(states, ops, n, op.user, op.configuration, op.counter.value)
          then Failed(InvalidSecondFactor)
        else if op.counter.None? && !IsUnspent(states, ops, n, op.user, op.hash) then Failed(InvalidSecondFactor)
        else if op.audit.eventType != "" && AuditUsed(states, ops, n, op.audit.id) then Failed(ConstraintViolated)
        else Done
  {
    var op := ops[n];
    ChallengeHoldsExactly(states, ops, n, op);
    InForceExactly(states, ops, n, op.user, op.configuration);
    UsableExactly(states, ops, n, op.user, op.hash);
    AuditsAreLogins(states, ops, n, op.audit.id);
  }

  /** No row of the batch clashes with another, or with another user's row id. */
  predicate Fits(codes: map<Id, RecoveryCode>, user: Id, inputs: seq<CodeInput>) {
    && PairwiseDistinct(inputs)
    && forall i :: 0 <= i < |inputs| && inputs[i].id in codes ==> codes[inputs[i].id].user == user
  }

  lemma FitsExactly(codes: map<Id, RecoveryCode>, user: Id, inputs: seq<CodeInput>, now: Time)
    ensures Insertable(WithoutCodesOf(codes, user), user, inputs, now) <==> Fits(codes, user, inputs)
  {
    var kept := WithoutCodesOf(codes, user);
    BatchFits(kept, user, inputs, now);
    forall i | 0 <= i < |inputs|
      ensures Clashes(kept, user, inputs[i]) <==> inputs[i].id in codes && codes[inputs[i].id].user != user
    {
      assert HolderOf(kept, user, inputs[i].hash) == {};
    }
  }

  /** The counter law of rotation and of plain use is that of login: any counter above all accepted under it. */
  lemma CounterAnswer(states: seq<Database>, ops: seq<Op>, n: nat)
    requires IsRun(states, ops) && n < |ops| && (ops[n].Rotate? || ops[n].ConsumeCounter?) && StartsEmpty(states[0])
    ensures var op := ops[n];
      Run(states[n], op) ==
        if !IsInForce(states, ops, n, op.user, op.configuration) then Failed(Conflict)
        else if !IsNewCounter(states, ops, n, op.user, op.configuration, op.totp)
          then Failed(if op.Rotate? then InvalidSecondFactor else Conflict)
        else if op.Rotate? && !Fits(states[n].codes, op.user, op.codes) then Failed(ConstraintViolated)
        else Done
  {
    var op := ops[n];
    InForceExactly(states, ops, n, op.user, op.configuration);
    if op.Rotate? {
      FitsExactly(states[n].codes, op.user, op.codes, op.now);
    }
  }

  /** The user's last save has been neither confirmed nor disabled. */
  ghost predicate Pending(states: seq<Database>, ops: seq<Op>, k: nat, n: nat, user: Id)
    requires IsRun(states, ops) && n <= |ops|
  {
    Current(states, ops, k, n, user) && !ConfirmedSince(states, ops, k, n, user)
  }

  ghost predicate HasSetting(states: seq<Database>, ops: seq<Op>, n: nat, user: Id)
    requires IsRun(states, ops) && n <= |ops|
  {
    exists k: nat :: Current(states, ops, k, n, user)
  }

  lemma SettingExactly(states: seq<Database>, ops: seq<Op>, n: nat, user: Id)
    requires IsRun(states, ops) && n <= |ops| && StartsEmpty(states[0])
    ensures user in states[n].settings <==> HasSetting(states, ops, n, user)
    ensures forall k: nat :: Current(states, ops, k, n, user) ==> SettingIs(states, ops, k, n, user)
  {
    if user in states[n].settings {
      var k := StoredWasSaved(states, ops, n, user);
    }
    forall k: nat | Current(states, ops, k, n, user) ensures SettingIs(states, ops, k, n, user) {
      CurrentSaveIsStored(states, ops, k, n, user);
    }
  }

  /** A setup is confirmed exactly if it is the user's pending one, before the expiry it was saved with. */
  lemma EnableAnswer(states: seq<Database>, ops: seq<Op>, n: nat)
    requires IsRun(states, ops) && n < |ops| && ops[n].Enable? && StartsEmpty(states[0])
    ensures var op := ops[n];
      Run(states[n], op) ==
        if !exists k: nat :: Pending(states, ops, k, n, op.user) && ops[k].configuration == op.configuration
             && ops[k].setupExpiresAt.Some? && op.now < ops[k].setupExpiresAt.value
          then Failed(Conflict)
        else if !Fits(states[n].codes, op.user, op.codes) then Failed(ConstraintViolated)
        else Done
  {
    var op := ops[n];
    FitsExactly(states[n].codes, op.user, op.codes, op.now);
    SettingExactly(states, ops, n, op.user);
  }

  /** Plain use takes any code that can be used, and disabling any configuration in force. */
  lemma SpendOrDisableAnswer(states: seq<Database>, ops: seq<Op>, n: nat)
    requires IsRun(states, ops) && n < |ops| && (ops[n].ConsumeCode? || ops[n].Disable?) && StartsEmpty(states[0])
    ensures ops[n].ConsumeCode? ==>
      Run(states[n], ops[n]) == if IsUnspent(states, ops, n, ops[n].user, ops[n].hash) then Done else Failed(NotFound)
    ensures ops[n].Disable? ==>
      Run(states[n], ops[n]) ==
        if exists k: nat :: Current(states, ops, k, n, ops[n].user) && ConfirmedSince(states, ops, k, n, ops[n].user)
          then Done else Failed(NotFound)
  {
    SettingExactly(states, ops, n, ops[n].user);
    if ops[n].ConsumeCode? {
      UsableExactly(states, ops, n, ops[n].user, ops[n].hash);
    }
  }

  lemma {:induction false} UsersStay(states: seq<Database>, ops: seq<Op>, n: nat)
    requires IsRun(states, ops) && n <= |ops|
    ensures states[n].users == states[0].users
  {
    if n > 0 {
      UsersStay(states, ops, n - 1);
      assert StepOf(states, ops, n - 1);
    }
  }

  /**
   A setup is saved exactly if the user exists and has none yet, or over the user's pending one: over any, or in the
   conditional form over the one that was observed, where observing none asks for none.
   */
  lemma SaveAnswer(states: seq<Database>, ops: seq<Op>, n: nat)
    requires IsRun(states, ops) && n < |ops| && (ops[n].SavePending? || ops[n].SaveIfUnchanged?)
    requires StartsEmpty(states[0])
    ensures var op := ops[n];
      Run(states[n], op) ==
        if exists k: nat :: Pending(states, ops, k, n, op.user)
             && (op.SavePending? || (op.previous != "" && ops[k].configuration == op.previous)) then Done
        else if HasSetting(states, ops, n, op.user) || (op.SaveIfUnchanged? && op.previous != "") then Failed(Conflict)
        else if op.user in states[0].users then Done
        else Failed(ConstraintViolated)
  {
    UsersStay(states, ops, n);
    SettingExactly(states, ops, n, ops[n].user);
  }

  /** A challenge whose id was never drawn before is created for every known user. */
  lemma FreshChallengeIsCreated(states: seq<Database>, ops: seq<Op>, n: nat)
    requires IsRun(states, ops) && n < |ops| && ops[n].CreateChallenge? && StartsEmpty(states[0])
    requires forall k :: 0 <= k < n ==> !Creates(ops[k], ops[n].jti)
    ensures Run(states[n], ops[n]) == if ops[n].user in states[0].users then Done else Failed(ConstraintViolated)
  {
    UsersStay(states, ops, n);
    if ops[n].jti in states[n].challenges {
      LoginNeedsCreation(states, ops, n, ops[n].jti);
    }
  }

  // ---------------------------------------------------------------- when rows were spent

  predicate StampOf(db: Database, jti: Id, t: Time) {
    jti in db.challenges && db.challenges[jti].consumedAt == Some(t)
  }

  lemma ConsumingStep(db: Database, op: Op, jti: Id, t: Time)
    requires StampOf(After(db, op), jti, t)
    ensures StampOf(db, jti, t) || (LogsInWith(op, jti) && StepError(db, op).None? && op.now == t)
  {
  }

  /** A consumed challenge carries the clock of the login that consumed it. */
  lemma {:induction false} ConsumedWhen(states: seq<Database>, ops: seq<Op>, n: nat, jti: Id, t: Time) returns (i: nat)
    requires IsRun(states, ops) && n <= |ops| && StartsEmpty(states[0]) && StampOf(states[n], jti, t)
    ensures i < n && LogsInWith(ops[i], jti) && Succeeds(states, ops, i) && ops[i].now == t
  {
    i := n - 1;
    assert StepOf(states, ops, i);
    ConsumingStep(states[i], ops[i], jti, t);
    if StampOf(states[i], jti, t) {
      i := ConsumedWhen(states, ops, i, jti, t);
    }
  }

  predicate SpentAt(db: Database, row: RecoveryCode, t: Time) {
    row.usedAt == Some(t) && exists id :: id in db.codes && db.codes[id] == row
  }

  lemma SpendingStep(db: Database, op: Op, row: RecoveryCode, t: Time)
    requires SpentAt(After(db, op), row, t)
    ensures SpentAt(db, row, t) || (PresentsCode(op, row.user, row.hash) && StepError(db, op).None? && op.now == t)
  {
    var after := After(db, op);
    var id :| id in after.codes && after.codes[id] == row;
    if StepError(db, op).None? && Reissues(op, op.user) {
      InsertedRow(WithoutCodesOf(db.codes, op.user), op.user, op.codes, op.now, id);
    }
  }

  /** A used code carries the clock of the login or the plain use that presented it. */
  lemma {:induction false} SpentWhen(states: seq<Database>, ops: seq<Op>, n: nat, row: RecoveryCode, t: Time)
    returns (i: nat)
    requires IsRun(states, ops) && n <= |ops| && StartsEmpty(states[0]) && SpentAt(states[n], row, t)
    ensures i < n && PresentsCode(ops[i], row.user, row.hash) && Succeeds(states, ops, i) && ops[i].now == t
  {
    i := n - 1;
    assert StepOf(states, ops, i);
    SpendingStep(states[i], ops[i], row, t);
    if SpentAt(states[i], row, t) {
      i := SpentWhen(states, ops, i, row, t);
    }
  }
}
