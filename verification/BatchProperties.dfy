/** The life of a batch, as its rows and its audit entries tell it. */
module BatchProperties {
  import opened Options
  import opened Records
  import opened Transactions

  /** The status changes the log records for a batch, in order. */
  function Trail(log: seq<AuditEntry>, id: string): seq<(Status, Status)> {
    if log == [] then []
    else
      var e := log[|log| - 1];
      var before := Trail(log[..|log| - 1], id);
      if e.target == BatchTarget(id) && e.details.BatchStateChange? then before + [(e.details.from, e.details.to)]
      else before
  }

  const STARTED := (Pending, Processing)
  const FINISHED := (Processing, Done)

  /** The only histories a batch can have, given its status. */
  predicate LifeOf(status: Status, trail: seq<(Status, Status)>) {
    match status
    case Pending => trail == []
    case Processing => trail == [STARTED]
    case Done => trail == [STARTED, FINISHED]
    case Failed => trail == [(Pending, Failed)] || trail == [STARTED, (Processing, Failed)]
  }

  predicate BatchLifeOk(db: Db, id: string) {
    if id in db.batches.rows then LifeOf(db.batches.rows[id].status, Trail(db.audit, id)) else Trail(db.audit, id) == []
  }

  ghost predicate LivesOk(db: Db) {
    forall id :: BatchLifeOk(db, id)
  }

  lemma {:induction false} TrailIgnoresActors(log: seq<AuditEntry>, user: string, id: string)
    ensures Trail(WithoutActor(log, user), id) == Trail(log, id)
  {
    if log != [] {
      assert WithoutActor(log, user)[..|log| - 1] == WithoutActor(log[..|log| - 1], user);
      TrailIgnoresActors(log[..|log| - 1], user, id);
    }
  }

  lemma TrailLogged(log: seq<AuditEntry>, actorId: Option<string>, target: string, details: Details, id: string)
    ensures Trail(Logged(log, actorId, target, details), id) ==
            if target == BatchTarget(id) && details.BatchStateChange? then Trail(log, id) + [(details.from, details.to)]
            else Trail(log, id)
  {
  }

  lemma BatchTargetInjective(id: string, id': string)
    ensures BatchTarget(id) == BatchTarget(id') <==> id == id'
  {
    assert BatchTarget(id)[6..] == id && BatchTarget(id')[6..] == id';
  }

  /** One committed call: only marking a batch adds to its trail, and only to its own. */
  lemma TrailStep(db: Db, call: Call, id: string)
    requires Tx(db, call).Committed?
    ensures Trail(Tx(db, call).db.audit, id) ==
            if call.Mark? && call.batchId == id then Trail(db.audit, id) + [(db.batches.rows[id].status, call.status)]
            else Trail(db.audit, id)
  {
    match call
    case CreateUser(u, email, role, actor) =>
      TrailLogged(db.audit, Some(actor.id), UserTarget(u), UserCreate(email, role), id);
    case ChangeRole(u, newRole, actor) =>
      TrailLogged(db.audit, Some(actor.id), UserTarget(u), RoleChange(db.users.rows[u].role, newRole), id);
    case DeleteUser(u, actor) =>
      var details := UserDeleted(db.users.rows[u].email, db.users.rows[u].role);
      TrailLogged(db.audit, Some(actor.id), UserTarget(u), details, id);
      TrailIgnoresActors(Logged(db.audit, Some(actor.id), UserTarget(u), details), u, id);
    case CreateBatch(b, n, creator) =>
      var actorId := if creator.Some? then Some(creator.value.id) else None;
      TrailLogged(db.audit, actorId, BatchTarget(b), BatchCreated(n), id);
    case Mark(b, status) =>
      BatchTargetInjective(b, id);
      TrailLogged(db.audit, None, BatchTarget(b), BatchStateChange(db.batches.rows[b].status, status), id);
    case SavePrediction(_, _) =>
    case Relabel(p, class_, actor) =>
      TrailLogged(db.audit, Some(actor.id), PredictionTarget(p),
                  RelabelDone(db.predictions.rows[p].data.predictedClass, class_), id);
  }

  /** Only marking changes an existing batch, and only its own status, along an allowed edge. */
  lemma RowStep(db: Db, call: Call, id: string)
    requires Tx(db, call).Committed?
    ensures var rows, rows' := db.batches.rows, Tx(db, call).db.batches.rows;
            && (id in rows' <==> id in rows || (call.CreateBatch? && call.id == id))
            && (id in rows && call.Mark? && call.batchId == id ==>
                  rows[id].status in Allowed(call.status) && rows'[id] == rows[id].(status := call.status))
            && (id in rows && !(call.Mark? && call.batchId == id) ==> rows'[id] == rows[id])
            && (id !in rows && id in rows' ==> rows'[id].status == Pending)
  {
  }

  lemma CommittedLife(db: Db, call: Call, id: string)
    requires BatchLifeOk(db, id) && Tx(db, call).Committed?
    ensures BatchLifeOk(Tx(db, call).db, id)
  {
    TrailStep(db, call, id);
    RowStep(db, call, id);
    var db' := Tx(db, call).db;
    if call.Mark? && call.batchId == id {
      assert LifeOf(call.status, Trail(db'.audit, id));
    } else {
      assert Trail(db'.audit, id) == Trail(db.audit, id);
    }
  }

  lemma LifeStep(db: Db, a: Attempt, id: string)
    requires BatchLifeOk(db, id)
    ensures BatchLifeOk(DbStep(db, a), id)
  {
    if a.commits && Tx(db, a.call).Committed? {
      CommittedLife(db, a.call, id);
    }
  }

  /** Status history: over every run of calls of any kind, the logged changes of every batch form one of the paths
      from pending to its present status. So there are at most two, and done and failed end them. */
  lemma {:induction false} StatusHistory(db: Db, attempts: seq<Attempt>)
    requires LivesOk(db)
    ensures LivesOk(DbRun(db, attempts))
  {
    if attempts != [] {
      StatusHistory(db, attempts[..|attempts| - 1]);
      var before := DbRun(db, attempts[..|attempts| - 1]);
      forall id ensures BatchLifeOk(DbRun(db, attempts), id) {
        LifeStep(before, attempts[|attempts| - 1], id);
      }
    }
  }

  /** How far a batch has come. */
  function Rank(status: Status): nat {
    match status case Pending => 0 case Processing => 1 case Done => 2 case Failed => 2
  }

  /** A batch is never lost, its file count never changes, its status never goes back, and done and failed are
      final. */
  lemma {:induction false} StatusMonotone(db: Db, attempts: seq<Attempt>, id: string)
    requires id in db.batches.rows
    ensures var rows, rows' := db.batches.rows, DbRun(db, attempts).batches.rows;
            && id in rows' && rows'[id].fileCount == rows[id].fileCount
            && (rows'[id].status == rows[id].status || Rank(rows[id].status) < Rank(rows'[id].status))
  {
    if attempts != [] {
      var front, a := attempts[..|attempts| - 1], attempts[|attempts| - 1];
      StatusMonotone(db, front, id);
      if Tx(DbRun(db, front), a.call).Committed? {
        RowStep(DbRun(db, front), a.call, id);
      }
    }
  }
}
