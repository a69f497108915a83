/** What each service call does to the database, as one atomic transaction, and which cache keys it then has to
    delete. Transactions are taken to be serial. */
module Transactions {
  import opened Options
  import opened Records
  import opened CacheKeys

  /** The caller as the request saw it; the role may be out of date. */
  datatype Actor = Actor(id: string, role: Role)

  datatype Error =
    | PermissionDenied
    | NotFound
    | LastAdmin
    | RelabelNotAllowed
    | InvalidStateTransition
    | ValidationError   // the request model refuses the class
    | IntegrityError    // the database refuses a key
    | DatabaseError     // the transaction could not be carried out
    | CacheError        // the cache could not be reached

  datatype Call =
    | CreateUser(id: string, email: string, role: Role, actor: Actor)
    | ChangeRole(target: string, newRole: Role, actor: Actor)
    | DeleteUser(target: string, actor: Actor)
    | CreateBatch(id: string, fileCount: int, creator: Option<Actor>)
    | Mark(batchId: string, status: Status)
    | SavePrediction(id: string, data: PredictionData)
    | Relabel(predictionId: string, class_: string, actor: Actor)

  datatype Outcome = Committed(db: Db, owed: seq<CacheKey>) | Refused(error: Error)

  predicate EmailTaken(db: Db, email: string) {
    exists id :: id in db.users.rows && db.users.rows[id].email == email
  }

  /** Which statuses a batch may be in to be marked. */
  function Allowed(status: Status): set<Status> {
    match status
    case Pending => {}
    case Processing => {Pending}
    case Done => {Processing}
    case Failed => {Pending, Processing}
  }

  function Logged(log: seq<AuditEntry>, actorId: Option<string>, target: string, details: Details): seq<AuditEntry> {
    log + [AuditEntry(actorId, target, details)]
  }

  /** `ON DELETE SET NULL` on the actor of an audit entry. */
  function WithoutActor(log: seq<AuditEntry>, id: string): (r: seq<AuditEntry>)
    ensures |r| == |log|
  {
    seq(|log|, i requires 0 <= i < |log| => if log[i].actorId == Some(id) then log[i].(actorId := None) else log[i])
  }

  function CreateUserTx(db: Db, id: string, email: string, role: Role, actor: Actor): Outcome {
    if actor.role != Admin then Refused(PermissionDenied)
    else if id in db.users.rows || EmailTaken(db, email) then Refused(IntegrityError)
    else
      var users := db.users.Insert(id, User(id, email, role));
      if actor.id !in users.rows then Refused(IntegrityError)
      else
        var log := Logged(db.audit, Some(actor.id), UserTarget(id), UserCreate(email, role));
        Committed(db.(users := users, audit := log), [UsersList])
  }

  function ChangeRoleTx(db: Db, target: string, newRole: Role, actor: Actor): Outcome {
    if actor.role != Admin then Refused(PermissionDenied)
    else if target !in db.users.rows then Refused(NotFound)
    else
      var user := db.users.rows[target];
      if user.role == Admin && newRole != Admin && |Admins(db.users.rows)| == 1 then Refused(LastAdmin)
      else if actor.id !in db.users.rows then Refused(IntegrityError)
      else
        Committed(db.(users := db.users.Update(target, user.(role := newRole)),
                      audit := Logged(db.audit, Some(actor.id), UserTarget(target), RoleChange(user.role, newRole))),
                  [UserMe(target), UsersList])
  }

  function DeleteUserTx(db: Db, target: string, actor: Actor): Outcome {
    if actor.role != Admin || target == actor.id then Refused(PermissionDenied)
    else if target !in db.users.rows then Refused(NotFound)
    else
      var user := db.users.rows[target];
      if user.role == Admin && |Admins(db.users.rows)| == 1 then Refused(LastAdmin)
      else if actor.id !in db.users.rows then Refused(IntegrityError)
      else
        var log := Logged(db.audit, Some(actor.id), UserTarget(target), UserDeleted(user.email, user.role));
        Committed(db.(users := db.users.Remove(target), audit := WithoutActor(log, target)),
                  [UserMe(target), UsersList])
  }

  function CreateBatchTx(db: Db, id: string, fileCount: int, creator: Option<Actor>): Outcome {
    var actorId := if creator.Some? then Some(creator.value.id) else None;
    if id in db.batches.rows || (actorId.Some? && actorId.value !in db.users.rows) then Refused(IntegrityError)
    else
      Committed(db.(batches := db.batches.Insert(id, Batch(id, Pending, fileCount)),
                    audit := Logged(db.audit, actorId, BatchTarget(id), BatchCreated(fileCount))),
                [BatchesList])
  }

  function MarkTx(db: Db, batchId: string, status: Status): Outcome {
    if batchId !in db.batches.rows then Refused(NotFound)
    else
      var batch := db.batches.rows[batchId];
      if batch.status !in Allowed(status) then Refused(InvalidStateTransition)
      else
        Committed(db.(batches := db.batches.Update(batchId, batch.(status := status)),
                      audit := Logged(db.audit, None, BatchTarget(batchId), BatchStateChange(batch.status, status))),
                  [BatchDetail(batchId), BatchesList])
  }

  function SavePredictionTx(db: Db, id: string, data: PredictionData): Outcome {
    if id in db.predictions.rows || data.batchId !in db.batches.rows then Refused(IntegrityError)
    else
      Committed(db.(predictions := db.predictions.Insert(id, Prediction(id, data, None))),
                [PredictionsRecent, BatchDetail(data.batchId), PredictionsOfBatch(data.batchId)])
  }

  function RelabelTx(db: Db, predictionId: string, class_: string, actor: Actor): Outcome {
    if class_ !in CLASSES then Refused(ValidationError)
    else if actor.role == Auditor then Refused(PermissionDenied)
    else if predictionId !in db.predictions.rows then Refused(NotFound)
    else
      var p := db.predictions.rows[predictionId];
      if actor.role == Reviewer && p.data.confidence >= REVIEW_THRESHOLD then Refused(RelabelNotAllowed)
      else if actor.id !in db.users.rows then Refused(IntegrityError)
      else
        Committed(db.(predictions := db.predictions.Update(predictionId, p.(relabeledClass := Some(class_))),
                      audit := Logged(db.audit, Some(actor.id), PredictionTarget(predictionId),
                                      RelabelDone(p.data.predictedClass, class_))),
                  [PredictionsRecent, BatchDetail(p.data.batchId), PredictionsOfBatch(p.data.batchId)])
  }

  function Tx(db: Db, call: Call): Outcome {
    match call
    case CreateUser(id, email, role, actor) => CreateUserTx(db, id, email, role, actor)
    case ChangeRole(target, newRole, actor) => ChangeRoleTx(db, target, newRole, actor)
    case DeleteUser(target, actor) => DeleteUserTx(db, target, actor)
    case CreateBatch(id, fileCount, creator) => CreateBatchTx(db, id, fileCount, creator)
    case Mark(batchId, status) => MarkTx(db, batchId, status)
    case SavePrediction(id, data) => SavePredictionTx(db, id, data)
    case Relabel(predictionId, class_, actor) => RelabelTx(db, predictionId, class_, actor)
  }

  /* ---- runs of calls ---- */

  /** One call by anyone; `commits` is false when the transaction is rolled back for a reason of its own. */
  datatype Attempt = Attempt(call: Call, commits: bool)

  function DbStep(db: Db, a: Attempt): Db {
    match Tx(db, a.call)
    case Committed(db', _) => if a.commits then db' else db
    case Refused(_) => db
  }

  function DbRun(db: Db, attempts: seq<Attempt>): Db {
    if attempts == [] then db
    else DbStep(DbRun(db, attempts[..|attempts| - 1]), attempts[|attempts| - 1])
  }

  /* ---- integrity of the database ---- */

  ghost predicate ActorsExist(log: seq<AuditEntry>, users: map<string, User>) {
    forall i :: 0 <= i < |log| ==> log[i].actorId.Some? ==> log[i].actorId.value in users
  }

  ghost predicate UsersOk(users: Table<User>) {
    && users.Ok()
    && (forall id :: id in users.rows ==> users.rows[id].id == id)
    && (forall u, v :: u in users.rows && v in users.rows && users.rows[u].email == users.rows[v].email ==> u == v)
  }

  ghost predicate BatchesOk(batches: Table<Batch>) {
    batches.Ok() && forall id :: id in batches.rows ==> batches.rows[id].id == id
  }

  ghost predicate PredictionsOk(predictions: Table<Prediction>, batches: Table<Batch>) {
    && predictions.Ok()
    && forall id :: id in predictions.rows ==>
         predictions.rows[id].id == id && predictions.rows[id].data.batchId in batches.rows
  }

  /** Primary keys, unique e-mail addresses, and the foreign keys of predictions and audit entries. */
  ghost predicate DbOk(db: Db) {
    && UsersOk(db.users) && BatchesOk(db.batches) && PredictionsOk(db.predictions, db.batches)
    && ActorsExist(db.audit, db.users.rows)
  }

  lemma {:induction false} WithoutKeepsOrder(ids: seq<string>, id: string)
    requires forall i, j :: 0 <= i < j < |ids| ==> ids[i] != ids[j]
    ensures forall i, j :: 0 <= i < j < |Without(ids, id)| ==> Without(ids, id)[i] != Without(ids, id)[j]
  {
    if ids != [] {
      var front := ids[..|ids| - 1];
      WithoutKeepsOrder(front, id);
      var kept := Without(front, id);
      assert forall i :: 0 <= i < |kept| ==> kept[i] in front;
    }
  }

  lemma RemoveOk<R>(t: Table<R>, id: string)
    requires t.Ok()
    ensures t.Remove(id).Ok()
  {
    WithoutKeepsOrder(t.order, id);
  }

  lemma CreateUserOk(db: Db, call: Call)
    requires DbOk(db) && call.CreateUser? && Tx(db, call).Committed?
    ensures DbOk(Tx(db, call).db)
  {
  }

  lemma ChangeRoleOk(db: Db, call: Call)
    requires DbOk(db) && call.ChangeRole? && Tx(db, call).Committed?
    ensures DbOk(Tx(db, call).db)
  {
  }

  lemma DeleteUserOk(db: Db, call: Call)
    requires DbOk(db) && call.DeleteUser? && Tx(db, call).Committed?
    ensures DbOk(Tx(db, call).db)
  {
    RemoveOk(db.users, call.target);
  }

  lemma CreateBatchOk(db: Db, call: Call)
    requires DbOk(db) && call.CreateBatch? && Tx(db, call).Committed?
    ensures DbOk(Tx(db, call).db)
  {
  }

  lemma MarkOk(db: Db, call: Call)
    requires DbOk(db) && call.Mark? && Tx(db, call).Committed?
    ensures DbOk(Tx(db, call).db)
  {
  }

  lemma SavePredictionOk(db: Db, call: Call)
    requires DbOk(db) && call.SavePrediction? && Tx(db, call).Committed?
    ensures DbOk(Tx(db, call).db)
  {
  }

  lemma RelabelOk(db: Db, call: Call)
    requires DbOk(db) && call.Relabel? && Tx(db, call).Committed?
    ensures DbOk(Tx(db, call).db)
  {
  }

  lemma StepOk(db: Db, a: Attempt)
    requires DbOk(db)
    ensures DbOk(DbStep(db, a))
  {
    if Tx(db, a.call).Committed? {
      match a.call
      case CreateUser(_, _, _, _) => CreateUserOk(db, a.call);
      case ChangeRole(_, _, _) => ChangeRoleOk(db, a.call);
      case DeleteUser(_, _) => DeleteUserOk(db, a.call);
      case CreateBatch(_, _, _) => CreateBatchOk(db, a.call);
      case Mark(_, _) => MarkOk(db, a.call);
      case SavePrediction(_, _) => SavePredictionOk(db, a.call);
      case Relabel(_, _, _) => RelabelOk(db, a.call);
    }
  }

  /** Every run of calls keeps the database consistent; in particular every audit actor is null or an existing
      user. */
  lemma {:induction false} RunKeepsIntegrity(db: Db, attempts: seq<Attempt>)
    requires DbOk(db)
    ensures DbOk(DbRun(db, attempts))
  {
    if attempts != [] {
      RunKeepsIntegrity(db, attempts[..|attempts| - 1]);
      StepOk(DbRun(db, attempts[..|attempts| - 1]), attempts[|attempts| - 1]);
    }
  }
}
