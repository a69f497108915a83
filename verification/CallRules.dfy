/** When each call commits, why it is refused, and what it leaves behind: rows, order, log entry, and cache keys to
    delete. */
module CallRules {
  import opened Options
  import opened Records
  import opened CacheKeys
  import opened Transactions

  /* ---- users ---- */

  /** The only difference between two tables is the row of one identifier. */
  ghost predicate SameButFor<R>(rows: map<string, R>, rows': map<string, R>, id: string) {
    forall x :: x != id ==> (x in rows <==> x in rows') && (x in rows ==> rows'[x] == rows[x])
  }

  /** Only admins create users: exactly their calls get past the permission test. The call commits if besides the id is
      new, the e-mail address is free, and the actor is there to be logged. */
  lemma CreateUserRule(db: Db, id: string, email: string, role: Role, actor: Actor)
    ensures var o := Tx(db, CreateUser(id, email, role, actor));
            && (o.Committed? <==>
                  && actor.role == Admin && (actor.id in db.users.rows || actor.id == id) && id !in db.users.rows
                  && forall u :: u in db.users.rows ==> db.users.rows[u].email != email)
            && (o == Refused(PermissionDenied) <==> actor.role != Admin)
            && (o.Refused? && actor.role == Admin ==> o.error == IntegrityError)
            && (o.Committed? ==>
                  && id in o.db.users.rows && o.db.users.rows[id] == User(id, email, role)
                  && SameButFor(db.users.rows, o.db.users.rows, id)
                  && o.db.batches == db.batches && o.db.predictions == db.predictions)
  {
  }

  /** Only admins change roles. The target must exist, and the only admin must not be demoted. */
  lemma ChangeRoleRule(db: Db, target: string, newRole: Role, actor: Actor)
    ensures var o, rows := Tx(db, ChangeRole(target, newRole, actor)), db.users.rows;
            && (o == Refused(PermissionDenied) <==> actor.role != Admin)
            && (o == Refused(NotFound) <==> actor.role == Admin && target !in rows)
            && (o == Refused(Error.LastAdmin) <==>
                  && actor.role == Admin && target in rows && newRole != Admin
                  && rows[target].role == Admin && |Admins(rows)| == 1)
            && (o.Committed? <==>
                  && actor.role == Admin && actor.id in rows && target in rows
                  && (newRole == Admin || rows[target].role != Admin || |Admins(rows)| != 1))
            && (o.Committed? ==>
                  && target in o.db.users.rows
                  && o.db.users.rows[target] == User(rows[target].id, rows[target].email, newRole)
                  && SameButFor(rows, o.db.users.rows, target)
                  && o.db.batches == db.batches && o.db.predictions == db.predictions)
  {
  }

  /** Only admins delete users, and never themselves. The target must exist and not be the only admin. */
  lemma DeleteUserRule(db: Db, target: string, actor: Actor)
    ensures var o, rows := Tx(db, DeleteUser(target, actor)), db.users.rows;
            && (o == Refused(PermissionDenied) <==> actor.role != Admin || target == actor.id)
            && (o == Refused(NotFound) <==> actor.role == Admin && target != actor.id && target !in rows)
            && (o == Refused(Error.LastAdmin) <==>
                  && actor.role == Admin && target != actor.id && target in rows
                  && rows[target].role == Admin && |Admins(rows)| == 1)
            && (o.Committed? <==>
                  && actor.role == Admin && actor.id in rows && target in rows && target != actor.id
                  && (rows[target].role != Admin || |Admins(rows)| != 1))
            && (o.Committed? ==>
                  && target !in o.db.users.rows && SameButFor(rows, o.db.users.rows, target)
                  && o.db.batches == db.batches && o.db.predictions == db.predictions)
  {
  }

  /* ---- batches ---- */

  /** A batch can be created by anyone who exists, and without a creator. It starts pending. */
  lemma CreateBatchRule(db: Db, id: string, fileCount: int, creator: Option<Actor>)
    ensures var o := Tx(db, CreateBatch(id, fileCount, creator));
            && (o.Committed? <==> id !in db.batches.rows && (creator.Some? ==> creator.value.id in db.users.rows))
            && (o.Refused? ==> o.error == IntegrityError)
            && (o.Committed? ==>
                  && id in o.db.batches.rows && o.db.batches.rows[id] == Batch(id, Pending, fileCount)
                  && SameButFor(db.batches.rows, o.db.batches.rows, id)
                  && o.db.users == db.users && o.db.predictions == db.predictions)
  {
  }

  /** The four ways a batch moves, and no other: pending to processing, processing to done, and either to failed. */
  lemma MarkRule(db: Db, id: string, status: Status)
    ensures var o, rows := Tx(db, Mark(id, status)), db.batches.rows;
            && (o == Refused(NotFound) <==> id !in rows)
            && (o == Refused(InvalidStateTransition) <==> id in rows && !o.Committed?)
            && (o.Committed? <==>
                  && id in rows
                  && (rows[id].status, status) in {(Pending, Processing), (Processing, Done), (Pending, Failed),
                                                   (Processing, Failed)})
            && (o.Committed? ==>
                  && id in o.db.batches.rows && o.db.batches.rows[id] == Batch(rows[id].id, status, rows[id].fileCount)
                  && SameButFor(rows, o.db.batches.rows, id)
                  && o.db.users == db.users && o.db.predictions == db.predictions)
  {
  }

  /* ---- predictions ---- */

  lemma SavePredictionRule(db: Db, id: string, data: PredictionData)
    ensures var o := Tx(db, SavePrediction(id, data));
            && (o.Committed? <==> id !in db.predictions.rows && data.batchId in db.batches.rows)
            && (o.Refused? ==> o.error == IntegrityError)
            && (o.Committed? ==>
                  && id in o.db.predictions.rows && o.db.predictions.rows[id] == Prediction(id, data, None)
                  && SameButFor(db.predictions.rows, o.db.predictions.rows, id)
                  && o.db.users == db.users && o.db.batches == db.batches && o.db.audit == db.audit)
  {
  }

  /** The sixteen labels. */
  predicate IsLabel(c: string) {
    || c == "letter" || c == "form" || c == "email" || c == "handwritten" || c == "advertisement"
    || c == "scientific report" || c == "scientific publication" || c == "specification" || c == "file folder"
    || c == "news article" || c == "budget" || c == "invoice" || c == "presentation" || c == "questionnaire"
    || c == "resume" || c == "memo"
  }

  lemma SixteenLabels(c: string)
    ensures c in CLASSES <==> IsLabel(c)
    ensures |CLASSES| == 16
  {
  }

  /** Admins may relabel any prediction, reviewers those the model was less than 70% sure of, auditors none. The tests
      come in this order: the label, the role, the prediction, its confidence. */
  lemma RelabelRule(db: Db, p: string, class_: string, actor: Actor)
    ensures var o, rows := Tx(db, Relabel(p, class_, actor)), db.predictions.rows;
            && (o == Refused(ValidationError) <==> !IsLabel(class_))
            && (o == Refused(PermissionDenied) <==> IsLabel(class_) && actor.role == Auditor)
            && (o == Refused(NotFound) <==> IsLabel(class_) && actor.role != Auditor && p !in rows)
            && (o == Refused(RelabelNotAllowed) <==>
                  IsLabel(class_) && actor.role == Reviewer && p in rows && rows[p].data.confidence >= 0.7)
            && (o.Committed? <==>
                  && IsLabel(class_) && p in rows && actor.id in db.users.rows
                  && (actor.role == Admin || (actor.role == Reviewer && rows[p].data.confidence < 0.7)))
            && (o.Committed? ==>
                  && p in o.db.predictions.rows
                  && o.db.predictions.rows[p] == Prediction(rows[p].id, rows[p].data, Some(class_))
                  && SameButFor(rows, o.db.predictions.rows, p)
                  && o.db.users == db.users && o.db.batches == db.batches)
  {
    SixteenLabels(class_);
  }

  /* ---- the log ---- */

  /** The entry a committed call leaves at the end of the log: who, what, and about whom. */
  lemma EntryRule(db: Db, call: Call)
    requires Tx(db, call).Committed? && !call.SavePrediction?
    ensures var log, log' := db.audit, Tx(db, call).db.audit;
            && |log'| == |log| + 1
            && var e := log'[|log|];
               match call
               case CreateUser(id, email, role, actor) =>
                 e == AuditEntry(Some(actor.id), "user:" + id, UserCreate(email, role))
               case ChangeRole(id, newRole, actor) =>
                 e == AuditEntry(Some(actor.id), "user:" + id, RoleChange(db.users.rows[id].role, newRole))
               case DeleteUser(id, actor) =>
                 && e.actorId == Some(actor.id) && e.target == "user:" + id
                 && e.details == UserDeleted(db.users.rows[id].email, db.users.rows[id].role)
               case CreateBatch(id, fileCount, creator) =>
                 && e.target == "batch:" + id && e.details == BatchCreated(fileCount)
                 && (creator.None? ==> e.actorId == None)
                 && (creator.Some? ==> e.actorId == Some(creator.value.id))
               case Mark(id, status) =>
                 e == AuditEntry(None, "batch:" + id, BatchStateChange(db.batches.rows[id].status, status))
               case Relabel(id, class_, actor) =>
                 && e.actorId == Some(actor.id) && e.target == "prediction:" + id
                 && e.details == RelabelDone(db.predictions.rows[id].data.predictedClass, class_)
               case _ => false
  {
  }

  /* ---- the cache keys ---- */

  /** The batch whose predictions a call changes. */
  function PredictionsTouched(db: Db, call: Call): Option<string> {
    match call
    case SavePrediction(_, data) => Some(data.batchId)
    case Relabel(p, _, _) => if p in db.predictions.rows then Some(db.predictions.rows[p].data.batchId) else None
    case _ => None
  }

  /** Key by key, which calls have to delete it. */
  lemma OwedRule(db: Db, call: Call, k: CacheKey)
    requires Tx(db, call).Committed?
    ensures var aboutUsers := call.CreateUser? || call.ChangeRole? || call.DeleteUser?;
            k in Tx(db, call).owed <==>
            match k
            case UsersList => aboutUsers
            case UserMe(id) => (call.ChangeRole? || call.DeleteUser?) && call.target == id
            case BatchesList => call.CreateBatch? || call.Mark?
            case BatchDetail(id) => (call.Mark? && call.batchId == id) || PredictionsTouched(db, call) == Some(id)
            case PredictionsRecent => call.SavePrediction? || call.Relabel?
            case PredictionsOfBatch(id) => PredictionsTouched(db, call) == Some(id)
  {
  }

  /** The deletions come in this order, each once. */
  lemma OwedOrder(db: Db, call: Call)
    requires Tx(db, call).Committed?
    ensures var owed := Tx(db, call).owed;
            && (forall i, j :: 0 <= i < j < |owed| ==> owed[i] != owed[j])
            && (call.ChangeRole? || call.DeleteUser? ==> owed != [] && owed[0] == UserMe(call.target))
            && (call.Mark? ==> owed != [] && owed[0] == BatchDetail(call.batchId))
            && (call.SavePrediction? || call.Relabel? ==>
                  |owed| > 1 && owed[0] == PredictionsRecent && owed[1].BatchDetail?)
  {
  }

  /* ---- the order of rows ---- */

  /** Rows that stay keep their order; a new row comes last. */
  lemma {:induction false} WithoutKeepsRelativeOrder(ids: seq<string>, more: seq<string>, id: string)
    ensures Without(ids + more, id) == Without(ids, id) + Without(more, id)
  {
    if more == [] {
      assert ids + more == ids;
    } else {
      var front, last := more[..|more| - 1], more[|more| - 1];
      WithoutKeepsRelativeOrder(ids, front, id);
      assert (ids + more)[..|ids + more| - 1] == ids + front;
    }
  }

  lemma OrderRule(db: Db, call: Call)
    requires Tx(db, call).Committed?
    ensures var db' := Tx(db, call).db;
            && db'.users.order == (if call.CreateUser? then db.users.order + [call.id]
                                   else if call.DeleteUser? then Without(db.users.order, call.target)
                                   else db.users.order)
            && db'.batches.order == (if call.CreateBatch? then db.batches.order + [call.id] else db.batches.order)
            && db'.predictions.order ==
               if call.SavePrediction? then db.predictions.order + [call.id] else db.predictions.order
  {
  }
}
