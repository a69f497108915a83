/** The audit log: what never changes in it, and what can be rebuilt from it. */
module AuditProperties {
  import opened Options
  import opened Records
  import opened Transactions

  /* ---- the log only grows ---- */

  /** `later` continues `log`; of an old entry only the actor may have been set to null. */
  ghost predicate LogExtends(log: seq<AuditEntry>, later: seq<AuditEntry>) {
    && |log| <= |later|
    && forall i :: 0 <= i < |log| ==>
         && later[i].target == log[i].target && later[i].details == log[i].details
         && (later[i].actorId == log[i].actorId || later[i].actorId == None)
  }

  /** A committed step writes one entry, or none for a saved prediction. An actor becomes null exactly when that user is
      deleted, and the entry that records a deletion names its actor. */
  lemma LogStep(db: Db, call: Call)
    requires Tx(db, call).Committed?
    ensures var log, log' := db.audit, Tx(db, call).db.audit;
            && LogExtends(log, log')
            && |log'| == |log| + (if call.SavePrediction? then 0 else 1)
            && (forall i :: 0 <= i < |log| ==>
                  (log'[i].actorId != log[i].actorId <==> call.DeleteUser? && log[i].actorId == Some(call.target)))
            && (call.DeleteUser? ==> log'[|log|].actorId == Some(call.actor.id) && log'[|log|].details.UserDeleted?)
  {
  }

  lemma {:induction false} LogGrows(db: Db, attempts: seq<Attempt>)
    ensures LogExtends(db.audit, DbRun(db, attempts).audit)
  {
    if attempts != [] {
      var front, a := attempts[..|attempts| - 1], attempts[|attempts| - 1];
      LogGrows(db, front);
      if Tx(DbRun(db, front), a.call).Committed? {
        LogStep(DbRun(db, front), a.call);
      }
    }
  }

  /* ---- replay ---- */

  /** What the log determines: the role of every user, status and file count of every batch, and the corrected label
      of every prediction that has one. */
  datatype Shadow = Shadow(roles: map<string, Role>, batches: map<string, (Status, int)>, labels: map<string, string>)

  function Roles(users: map<string, User>): map<string, Role> {
    map id | id in users :: users[id].role
  }

  function BatchFacts(batches: map<string, Batch>): map<string, (Status, int)> {
    map id | id in batches :: (batches[id].status, batches[id].fileCount)
  }

  function Labels(predictions: map<string, Prediction>): map<string, string> {
    map id | id in predictions && predictions[id].relabeledClass.Some? :: predictions[id].relabeledClass.value
  }

  function Project(db: Db): Shadow {
    Shadow(Roles(db.users.rows), BatchFacts(db.batches.rows), Labels(db.predictions.rows))
  }

  /** The identifier in a target. */
  function Subject(prefix: string, target: string): string {
    if prefix <= target then target[|prefix|..] else target
  }

  function SubjectOf(e: AuditEntry): string {
    match e.details
    case UserCreate(_, _) => Subject("user:", e.target)
    case RoleChange(_, _) => Subject("user:", e.target)
    case UserDeleted(_, _) => Subject("user:", e.target)
    case BatchCreated(_) => Subject("batch:", e.target)
    case BatchStateChange(_, _) => Subject("batch:", e.target)
    case RelabelDone(_, _) => Subject("prediction:", e.target)
  }

  /** The effect of one entry, read from its target and payload alone. */
  function Apply(sh: Shadow, e: AuditEntry): Shadow {
    var id := SubjectOf(e);
    match e.details
    case UserCreate(_, role) => sh.(roles := sh.roles[id := role])
    case RoleChange(_, newRole) => sh.(roles := sh.roles[id := newRole])
    case UserDeleted(_, _) => sh.(roles := sh.roles - {id})
    case BatchCreated(n) => sh.(batches := sh.batches[id := (Pending, n)])
    case BatchStateChange(_, to) =>
      if id in sh.batches then sh.(batches := sh.batches[id := (to, sh.batches[id].1)]) else sh
    case RelabelDone(_, toClass) => sh.(labels := sh.labels[id := toClass])
  }

  function Replay(sh: Shadow, log: seq<AuditEntry>): Shadow {
    if log == [] then sh else Apply(Replay(sh, log[..|log| - 1]), log[|log| - 1])
  }

  /** The "old" half of an entry agrees with what has been replayed so far. */
  predicate Fits(sh: Shadow, e: AuditEntry) {
    var id := SubjectOf(e);
    match e.details
    case UserCreate(_, _) => id !in sh.roles
    case RoleChange(oldRole, _) => id in sh.roles && sh.roles[id] == oldRole
    case UserDeleted(_, role) => id in sh.roles && sh.roles[id] == role
    case BatchCreated(_) => id !in sh.batches
    case BatchStateChange(from, to) => id in sh.batches && sh.batches[id].0 == from && from in Allowed(to)
    case RelabelDone(_, _) => true
  }

  ghost predicate Consistent(sh: Shadow, log: seq<AuditEntry>) {
    forall i :: 0 <= i < |log| ==> Fits(Replay(sh, log[..i]), log[i])
  }

  /** Replaying one entry after the last is applying it. */
  lemma ReplayAppend(sh: Shadow, log: seq<AuditEntry>, e: AuditEntry)
    ensures Replay(sh, log + [e]) == Apply(Replay(sh, log), e)
    ensures Consistent(sh, log) && Fits(Replay(sh, log), e) ==> Consistent(sh, log + [e])
  {
    var longer := log + [e];
    assert longer[..|log|] == log;
    if Consistent(sh, log) && Fits(Replay(sh, log), e) {
      forall i | 0 <= i < |longer| ensures Fits(Replay(sh, longer[..i]), longer[i]) {
        assert longer[..i] == log[..i];
      }
    }
  }

  /** Who acted makes no difference to a replay. */
  lemma {:induction false} ReplayIgnoresActors(sh: Shadow, log: seq<AuditEntry>, id: string)
    ensures Replay(sh, WithoutActor(log, id)) == Replay(sh, log)
  {
    if log != [] {
      var n := |log| - 1;
      assert WithoutActor(log, id)[..n] == WithoutActor(log[..n], id);
      ReplayIgnoresActors(sh, log[..n], id);
      ApplyIgnoresActor(Replay(sh, log[..n]), log[n], WithoutActor(log, id)[n]);
    }
  }

  lemma ApplyIgnoresActor(sh: Shadow, e: AuditEntry, e': AuditEntry)
    requires e.target == e'.target && e.details == e'.details
    ensures Apply(sh, e) == Apply(sh, e') && Fits(sh, e) == Fits(sh, e')
  {
  }

  lemma ConsistentIgnoresActors(sh: Shadow, log: seq<AuditEntry>, id: string)
    requires Consistent(sh, log)
    ensures Consistent(sh, WithoutActor(log, id))
  {
    var nulled := WithoutActor(log, id);
    forall i | 0 <= i < |nulled| ensures Fits(Replay(sh, nulled[..i]), nulled[i]) {
      assert nulled[..i] == WithoutActor(log[..i], id);
      ReplayIgnoresActors(sh, log[..i], id);
      ApplyIgnoresActor(Replay(sh, log[..i]), log[i], nulled[i]);
    }
  }

  /** The entry a call writes. */
  function EntryOf(db: Db, call: Call): seq<AuditEntry>
    requires Tx(db, call).Committed?
  {
    match call
    case CreateUser(id, email, role, actor) => [AuditEntry(Some(actor.id), UserTarget(id), UserCreate(email, role))]
    case ChangeRole(id, newRole, actor) =>
      [AuditEntry(Some(actor.id), UserTarget(id), RoleChange(db.users.rows[id].role, newRole))]
    case DeleteUser(id, actor) =>
      [AuditEntry(Some(actor.id), UserTarget(id), UserDeleted(db.users.rows[id].email, db.users.rows[id].role))]
    case CreateBatch(id, fileCount, creator) =>
      [AuditEntry(if creator.Some? then Some(creator.value.id) else None, BatchTarget(id), BatchCreated(fileCount))]
    case Mark(id, status) =>
      [AuditEntry(None, BatchTarget(id), BatchStateChange(db.batches.rows[id].status, status))]
    case SavePrediction(_, _) => []
    case Relabel(id, class_, actor) =>
      var details := RelabelDone(db.predictions.rows[id].data.predictedClass, class_);
      [AuditEntry(Some(actor.id), PredictionTarget(id), details)]
  }

  lemma AuditAfter(db: Db, call: Call)
    requires Tx(db, call).Committed?
    ensures Tx(db, call).db.audit ==
            var log := db.audit + EntryOf(db, call);
            if call.DeleteUser? then WithoutActor(log, call.target) else log
  {
  }

  lemma UserEntryTellsAll(db: Db, call: Call)
    requires Tx(db, call).Committed? && (call.CreateUser? || call.ChangeRole? || call.DeleteUser?)
    ensures var e := EntryOf(db, call)[0];
            Fits(Project(db), e) && Project(Tx(db, call).db) == Apply(Project(db), e)
  {
  }

  lemma BatchEntryTellsAll(db: Db, call: Call)
    requires Tx(db, call).Committed? && (call.CreateBatch? || call.Mark?)
    ensures var e := EntryOf(db, call)[0];
            Fits(Project(db), e) && Project(Tx(db, call).db) == Apply(Project(db), e)
  {
  }

  lemma LabelEntryTellsAll(db: Db, call: Call)
    requires Tx(db, call).Committed? && call.Relabel?
    ensures var e := EntryOf(db, call)[0];
            Fits(Project(db), e) && Project(Tx(db, call).db) == Apply(Project(db), e)
  {
  }

  /** What a call does to the rows is what its entry says. */
  lemma EntryTellsAll(db: Db, call: Call)
    requires Tx(db, call).Committed? && !call.SavePrediction?
    ensures var e := EntryOf(db, call)[0];
            Fits(Project(db), e) && Project(Tx(db, call).db) == Apply(Project(db), e)
  {
    if call.CreateUser? || call.ChangeRole? || call.DeleteUser? {
      UserEntryTellsAll(db, call);
    } else if call.Relabel? {
      LabelEntryTellsAll(db, call);
    } else {
      BatchEntryTellsAll(db, call);
    }
  }

  lemma SavedPredictionUnlabelled(db: Db, call: Call)
    requires Tx(db, call).Committed? && call.SavePrediction?
    ensures Project(Tx(db, call).db) == Project(db)
  {
  }

  /** The entries written since a given length of the log. */
  function Since(db: Db, n: nat): seq<AuditEntry> {
    if n <= |db.audit| then db.audit[n..] else []
  }

  lemma SinceAfter(log: seq<AuditEntry>, e: AuditEntry, id: string, n: nat)
    requires n <= |log|
    ensures (log + [e])[n..] == log[n..] + [e]
    ensures WithoutActor(log + [e], id)[n..] == WithoutActor(log[n..] + [e], id)
  {
  }

  lemma CommittedReplay(sh: Shadow, db: Db, call: Call, n: nat)
    requires Tx(db, call).Committed? && !call.SavePrediction?
    requires n <= |db.audit| && Replay(sh, Since(db, n)) == Project(db) && Consistent(sh, Since(db, n))
    ensures var db' := Tx(db, call).db;
            n <= |db'.audit| && Replay(sh, Since(db', n)) == Project(db') && Consistent(sh, Since(db', n))
  {
    var e, log := EntryOf(db, call)[0], Since(db, n);
    EntryTellsAll(db, call);
    ReplayAppend(sh, log, e);
    AuditAfter(db, call);
    if call.DeleteUser? {
      SinceAfter(db.audit, e, call.target, n);
      ReplayIgnoresActors(sh, log + [e], call.target);
      ConsistentIgnoresActors(sh, log + [e], call.target);
    } else {
      SinceAfter(db.audit, e, "", n);
    }
  }

  lemma ReplayStep(sh: Shadow, db: Db, a: Attempt, n: nat)
    requires n <= |db.audit| && Replay(sh, Since(db, n)) == Project(db) && Consistent(sh, Since(db, n))
    ensures var db' := DbStep(db, a);
            n <= |db'.audit| && Replay(sh, Since(db', n)) == Project(db') && Consistent(sh, Since(db', n))
  {
    if a.commits && Tx(db, a.call).Committed? {
      if a.call.SavePrediction? {
        SavedPredictionUnlabelled(db, a.call);
        assert Tx(db, a.call).db.audit == db.audit;
      } else {
        CommittedReplay(sh, db, a.call, n);
      }
    }
  }

  /** Over every run, replaying the entries written since the start over the starting state rebuilds the current one,
      and each logged old value is the replayed value at that point. */
  lemma {:induction false} AuditReplay(db: Db, attempts: seq<Attempt>)
    ensures var db' := DbRun(db, attempts);
            && |db.audit| <= |db'.audit|
            && Replay(Project(db), db'.audit[|db.audit|..]) == Project(db')
            && Consistent(Project(db), db'.audit[|db.audit|..])
  {
    if attempts == [] {
      assert db.audit[|db.audit|..] == [];
    } else {
      var front := attempts[..|attempts| - 1];
      AuditReplay(db, front);
      ReplayStep(Project(db), DbRun(db, front), attempts[|attempts| - 1], |db.audit|);
    }
  }
}
