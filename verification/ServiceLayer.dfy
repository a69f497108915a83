/** The services: each call runs one transaction on the database and then deletes its cache keys one by one. */
module ServiceLayer {
  import opened Options
  import opened Records
  import opened CacheKeys
  import opened Transactions

  datatype Result<+T> = Ok(value: T) | Err(error: Error)

  /** How the outside treats a call: whether its transaction commits, and how many cache deletions get through. */
  datatype CallEnv = CallEnv(commits: bool, deletes: nat)

  /** The cache after the first `n` of the deletions a call owes. */
  function Dropped(entries: map<string, View>, owed: seq<CacheKey>, n: nat): map<string, View>
    decreases |owed|
  {
    if n == 0 || owed == [] then entries else Dropped(entries - {Render(owed[0])}, owed[1..], n - 1)
  }

  datatype Served = Served(db: Db, entries: map<string, View>, error: Option<Error>)

  /** What a call does when nothing runs beside it. */
  function Serve(db: Db, entries: map<string, View>, call: Call, env: CallEnv): Served {
    match Tx(db, call)
    case Refused(error) => Served(db, entries, Some(error))
    case Committed(db', owed) =>
      if !env.commits then Served(db, entries, Some(DatabaseError))
      else Served(db', Dropped(entries, owed, env.deletes), if env.deletes < |owed| then Some(CacheError) else None)
  }

  lemma CountedOneMore(all: set<string>, rest: set<string>, id: string)
    requires id in rest
    ensures |all - (rest - {id})| == |all - rest| + if id in all then 1 else 0
  {
    assert all - (rest - {id}) == (all - rest) + if id in all then {id} else {};
  }

  /** Deletion row by row and entry by entry is removal of the row and of the actor. */
  lemma DeletedUser(table: Table<User>, table': Table<User>, log: seq<AuditEntry>, log': seq<AuditEntry>, id: string)
    requires forall u :: u in table'.rows <==> u in table.rows && u != id
    requires forall u :: u in table'.rows ==> table'.rows[u] == table.rows[u]
    requires table'.order == Without(table.order, id) && |log'| == |log|
    requires forall i :: 0 <= i < |log| ==>
               && log'[i].target == log[i].target && log'[i].details == log[i].details
               && log'[i].actorId == if log[i].actorId == Some(id) then None else log[i].actorId
    ensures table' == table.Remove(id) && log' == WithoutActor(log, id)
  {
    assert table'.rows == table.rows - {id};
  }

  function ErrorOf<T>(r: Result<T>): Option<Error> {
    if r.Err? then Some(r.error) else None
  }

  lemma DroppedOne(entries: map<string, View>, a: CacheKey, n: nat)
    ensures Dropped(entries, [a], n) == if n == 0 then entries else entries - {Render(a)}
  {
  }

  lemma DroppedTwo(entries: map<string, View>, a: CacheKey, b: CacheKey, n: nat)
    ensures Dropped(entries, [a, b], n) ==
            if n == 0 then entries else if n == 1 then entries - {Render(a)} else entries - {Render(a)} - {Render(b)}
  {
    assert [a, b][1..] == [b];
    if n > 0 {
      DroppedOne(entries - {Render(a)}, b, n - 1);
    }
  }

  lemma DroppedThree(entries: map<string, View>, a: CacheKey, b: CacheKey, c: CacheKey, n: nat)
    ensures Dropped(entries, [a, b, c], n) ==
            if n == 0 then entries
            else if n == 1 then entries - {Render(a)}
            else if n == 2 then entries - {Render(a)} - {Render(b)}
            else entries - {Render(a)} - {Render(b)} - {Render(c)}
  {
    assert [a, b, c][1..] == [b, c];
    if n > 0 {
      DroppedTwo(entries - {Render(a)}, b, c, n - 1);
    }
  }

  /** The session's tables, with the operations of the repositories. */
  class Database {
    var users: Table<User>
    var batches: Table<Batch>
    var predictions: Table<Prediction>
    var audit: seq<AuditEntry>

    constructor (db: Db)
      ensures View() == db
    {
      users, batches, predictions, audit := db.users, db.batches, db.predictions, db.audit;
    }

    function View(): Db
      reads this
    {
      Db(users, batches, predictions, audit)
    }

    /** Leaves a transaction without a trace. */
    method Rollback(saved: Db)
      modifies this
      ensures View() == saved
    {
      users, batches, predictions, audit := saved.users, saved.batches, saved.predictions, saved.audit;
    }

    /** Fails on an identifier or an e-mail address in use. */
    method CreateUser(id: string, email: string, role: Role) returns (ok: bool)
      modifies this`users
      ensures ok <==> id !in old(users).rows && !EmailTaken(old(View()), email)
      ensures users == if ok then old(users).Insert(id, User(id, email, role)) else old(users)
    {
      ok := id !in users.rows && !(exists u :: u in users.rows && users.rows[u].email == email);
      if ok {
        users := users.Insert(id, User(id, email, role));
      }
    }

    /** `SELECT COUNT`: one pass over the rows. */
    method CountByRole(role: Role) returns (n: nat)
      ensures n == |HavingRole(users.rows, role)|
    {
      var rest := users.rows.Keys;
      n := 0;
      while rest != {}
        invariant rest <= users.rows.Keys
        invariant n == |HavingRole(users.rows, role) - rest|
        decreases |rest|
      {
        var id :| id in rest;
        CountedOneMore(HavingRole(users.rows, role), rest, id);
        rest := rest - {id};
        if users.rows[id].role == role {
          n := n + 1;
        }
      }
      assert HavingRole(users.rows, role) - {} == HavingRole(users.rows, role);
    }

    method UpdateRole(id: string, role: Role) returns (updated: Option<User>)
      modifies this`users
      ensures updated == if id in old(users).rows then Some(old(users).rows[id].(role := role)) else None
      ensures users == if updated.Some? then old(users).Update(id, updated.value) else old(users)
    {
      if id !in users.rows {
        return None;
      }
      users := users.Update(id, users.rows[id].(role := role));
      return Some(users.rows[id]);
    }

    /** Deletes a user row and no other; of the audit entries, those of that user lose their actor and nothing else. */
    method DeleteUser(id: string)
      modifies this`users, this`audit
      ensures forall u :: u in users.rows <==> u in old(users).rows && u != id
      ensures forall u :: u in users.rows ==> users.rows[u] == old(users).rows[u]
      ensures users.order == Without(old(users).order, id)
      ensures |audit| == |old(audit)|
      ensures forall i :: 0 <= i < |audit| ==>
                var e, e' := old(audit)[i], audit[i];
                && e'.target == e.target && e'.details == e.details
                && e'.actorId == if e.actorId == Some(id) then None else e.actorId
    {
      users := users.Remove(id);
      audit := WithoutActor(audit, id);
    }

    method CreateBatch(id: string, fileCount: int) returns (ok: bool)
      modifies this`batches
      ensures ok == (id !in old(batches).rows)
      ensures batches == if ok then old(batches).Insert(id, Batch(id, Pending, fileCount)) else old(batches)
    {
      ok := id !in batches.rows;
      if ok {
        batches := batches.Insert(id, Batch(id, Pending, fileCount));
      }
    }

    method UpdateStatus(id: string, status: Status) returns (updated: Option<Batch>)
      modifies this`batches
      ensures updated == if id in old(batches).rows then Some(old(batches).rows[id].(status := status)) else None
      ensures batches == if updated.Some? then old(batches).Update(id, updated.value) else old(batches)
    {
      if id !in batches.rows {
        return None;
      }
      batches := batches.Update(id, batches.rows[id].(status := status));
      return Some(batches.rows[id]);
    }

    /** Fails on an identifier in use and on a batch that does not exist. */
    method CreatePrediction(id: string, data: PredictionData) returns (ok: bool)
      modifies this`predictions
      ensures ok == (id !in old(predictions).rows && data.batchId in batches.rows)
      ensures predictions == if ok then old(predictions).Insert(id, Prediction(id, data, None)) else old(predictions)
    {
      ok := id !in predictions.rows && data.batchId in batches.rows;
      if ok {
        predictions := predictions.Insert(id, Prediction(id, data, None));
      }
    }

    method RelabelPrediction(id: string, class_: string) returns (updated: Option<Prediction>)
      modifies this`predictions
      ensures updated ==
              if id !in old(predictions).rows then None
              else Some(old(predictions).rows[id].(relabeledClass := Some(class_)))
      ensures predictions == if updated.Some? then old(predictions).Update(id, updated.value) else old(predictions)
    {
      if id !in predictions.rows {
        return None;
      }
      predictions := predictions.Update(id, predictions.rows[id].(relabeledClass := Some(class_)));
      return Some(predictions.rows[id]);
    }

    /** Appends to the log; fails if the actor is not a user. */
    method AppendAudit(actorId: Option<string>, target: string, details: Details) returns (ok: bool)
      modifies this`audit
      ensures ok == (actorId.Some? ==> actorId.value in users.rows)
      ensures audit == if ok then Logged(old(audit), actorId, target, details) else old(audit)
    {
      ok := actorId.None? || actorId.value in users.rows;
      if ok {
        audit := audit + [AuditEntry(actorId, target, details)];
      }
    }
  }

  class Cache {
    var entries: map<string, View>

    constructor ()
      ensures entries == map[]
    {
      entries := map[];
    }

    /** One deletion; `reachable` is false when the call to the store raises. */
    method Delete(key: CacheKey, reachable: bool) returns (ok: bool)
      modifies this
      ensures ok == reachable
      ensures entries == if reachable then old(entries) - {Render(key)} else old(entries)
    {
      ok := reachable;
      if reachable {
        entries := entries - {Render(key)};
      }
    }
  }

  class UserService {
    const db: Database
    const cache: Cache

    constructor (db: Database, cache: Cache)
      ensures this.db == db && this.cache == cache
    {
      this.db, this.cache := db, cache;
    }

    method CreateUser(id: string, email: string, role: Role, actor: Actor, env: CallEnv) returns (r: Result<User>)
      modifies db, cache
      ensures Served(db.View(), cache.entries, ErrorOf(r)) ==
              Serve(old(db.View()), old(cache.entries), Call.CreateUser(id, email, role, actor), env)
      ensures r.Ok? ==> r.value == User(id, email, role)
    {
      if actor.role != Admin {
        return Err(PermissionDenied);
      }
      var saved := db.View();
      var ok := db.CreateUser(id, email, role);
      if ok {
        ok := db.AppendAudit(Some(actor.id), UserTarget(id), UserCreate(email, role));
      }
      if !ok || !env.commits {
        db.Rollback(saved);
        return Err(if ok then DatabaseError else IntegrityError);
      }
      DroppedOne(cache.entries, UsersList, env.deletes);
      var reached := cache.Delete(UsersList, env.deletes > 0);
      if !reached {
        return Err(CacheError);
      }
      return Ok(User(id, email, role));
    }

    method ChangeRole(target: string, role: Role, actor: Actor, env: CallEnv) returns (r: Result<User>)
      modifies db, cache
      ensures Served(db.View(), cache.entries, ErrorOf(r)) ==
              Serve(old(db.View()), old(cache.entries), Call.ChangeRole(target, role, actor), env)
      ensures r.Ok? ==> target in db.users.rows && r.value == db.users.rows[target]
    {
      if actor.role != Admin {
        return Err(PermissionDenied);
      }
      if target !in db.users.rows {
        return Err(NotFound);
      }
      var saved := db.View();
      var user := db.users.rows[target];
      if user.role == Admin && role != Admin {
        var admins := db.CountByRole(Admin);
        if admins == 1 {
          return Err(LastAdmin);
        }
      }
      var updated := db.UpdateRole(target, role);
      var ok := db.AppendAudit(Some(actor.id), UserTarget(target), RoleChange(user.role, role));
      if !ok || !env.commits {
        db.Rollback(saved);
        return Err(if ok then DatabaseError else IntegrityError);
      }
      DroppedTwo(cache.entries, UserMe(target), UsersList, env.deletes);
      var reached := cache.Delete(UserMe(target), env.deletes > 0);
      if reached {
        reached := cache.Delete(UsersList, env.deletes > 1);
      }
      if !reached {
        return Err(CacheError);
      }
      return Ok(updated.value);
    }

    method DeleteUser(target: string, actor: Actor, env: CallEnv) returns (r: Result<()>)
      modifies db, cache
      ensures Served(db.View(), cache.entries, ErrorOf(r)) ==
              Serve(old(db.View()), old(cache.entries), Call.DeleteUser(target, actor), env)
    {
      if actor.role != Admin || target == actor.id {
        return Err(PermissionDenied);
      }
      if target !in db.users.rows {
        return Err(NotFound);
      }
      var saved := db.View();
      var user := db.users.rows[target];
      if user.role == Admin {
        var admins := db.CountByRole(Admin);
        if admins == 1 {
          return Err(LastAdmin);
        }
      }
      var ok := db.AppendAudit(Some(actor.id), UserTarget(target), UserDeleted(user.email, user.role));
      if ok {
        ghost var log, table := db.audit, db.users;
        db.DeleteUser(target);
        DeletedUser(table, db.users, log, db.audit, target);
      }
      if !ok || !env.commits {
        db.Rollback(saved);
        return Err(if ok then DatabaseError else IntegrityError);
      }
      DroppedTwo(cache.entries, UserMe(target), UsersList, env.deletes);
      var reached := cache.Delete(UserMe(target), env.deletes > 0);
      if reached {
        reached := cache.Delete(UsersList, env.deletes > 1);
      }
      return if reached then Ok(()) else Err(CacheError);
    }
  }

  class BatchService {
    const db: Database
    const cache: Cache

    constructor (db: Database, cache: Cache)
      ensures this.db == db && this.cache == cache
    {
      this.db, this.cache := db, cache;
    }

    method CreateBatch(id: string, fileCount: int, actor: Option<Actor>, env: CallEnv) returns (r: Result<Batch>)
      modifies db, cache
      ensures Served(db.View(), cache.entries, ErrorOf(r)) ==
              Serve(old(db.View()), old(cache.entries), Call.CreateBatch(id, fileCount, actor), env)
      ensures r.Ok? ==> r.value == Batch(id, Pending, fileCount)
    {
      var saved := db.View();
      var actorId := if actor.Some? then Some(actor.value.id) else None;
      var ok := db.CreateBatch(id, fileCount);
      if ok {
        ok := db.AppendAudit(actorId, BatchTarget(id), BatchCreated(fileCount));
      }
      if !ok || !env.commits {
        db.Rollback(saved);
        return Err(if ok then DatabaseError else IntegrityError);
      }
      DroppedOne(cache.entries, BatchesList, env.deletes);
      var reached := cache.Delete(BatchesList, env.deletes > 0);
      if !reached {
        return Err(CacheError);
      }
      return Ok(Batch(id, Pending, fileCount));
    }

    method Transition(batchId: string, status: Status, allowed: set<Status>, env: CallEnv) returns (r: Result<Batch>)
      requires allowed == Allowed(status)
      modifies db, cache
      ensures Served(db.View(), cache.entries, ErrorOf(r)) ==
              Serve(old(db.View()), old(cache.entries), Mark(batchId, status), env)
      ensures r.Ok? ==> batchId in db.batches.rows && r.value == db.batches.rows[batchId]
    {
      if batchId !in db.batches.rows {
        return Err(NotFound);
      }
      var saved := db.View();
      var batch := db.batches.rows[batchId];
      if batch.status !in allowed {
        return Err(InvalidStateTransition);
      }
      var updated := db.UpdateStatus(batchId, status);
      var ok := db.AppendAudit(None, BatchTarget(batchId), BatchStateChange(batch.status, status));
      if !env.commits {
        db.Rollback(saved);
        return Err(DatabaseError);
      }
      DroppedTwo(cache.entries, BatchDetail(batchId), BatchesList, env.deletes);
      var reached := cache.Delete(BatchDetail(batchId), env.deletes > 0);
      if reached {
        reached := cache.Delete(BatchesList, env.deletes > 1);
      }
      if !reached {
        return Err(CacheError);
      }
      return Ok(updated.value);
    }

    method MarkProcessing(batchId: string, env: CallEnv) returns (r: Result<Batch>)
      modifies db, cache
      ensures Served(db.View(), cache.entries, ErrorOf(r)) ==
              Serve(old(db.View()), old(cache.entries), Mark(batchId, Processing), env)
    {
      r := Transition(batchId, Processing, {Pending}, env);
    }

    method MarkDone(batchId: string, env: CallEnv) returns (r: Result<Batch>)
      modifies db, cache
      ensures Served(db.View(), cache.entries, ErrorOf(r)) ==
              Serve(old(db.View()), old(cache.entries), Mark(batchId, Done), env)
    {
      r := Transition(batchId, Done, {Processing}, env);
    }

    method MarkFailed(batchId: string, env: CallEnv) returns (r: Result<Batch>)
      modifies db, cache
      ensures Served(db.View(), cache.entries, ErrorOf(r)) ==
              Serve(old(db.View()), old(cache.entries), Mark(batchId, Failed), env)
    {
      r := Transition(batchId, Failed, {Pending, Processing}, env);
    }
  }

  class PredictionService {
    const db: Database
    const cache: Cache

    constructor (db: Database, cache: Cache)
      ensures this.db == db && this.cache == cache
    {
      this.db, this.cache := db, cache;
    }

    method SavePrediction(id: string, data: PredictionData, env: CallEnv) returns (r: Result<Prediction>)
      modifies db, cache
      ensures Served(db.View(), cache.entries, ErrorOf(r)) ==
              Serve(old(db.View()), old(cache.entries), Call.SavePrediction(id, data), env)
      ensures r.Ok? ==> r.value == Prediction(id, data, None)
    {
      var saved := db.View();
      var ok := db.CreatePrediction(id, data);
      if !ok || !env.commits {
        db.Rollback(saved);
        return Err(if ok then DatabaseError else IntegrityError);
      }
      var ended := DeletePredictionKeys(data.batchId, env);
      if !ended {
        return Err(CacheError);
      }
      return Ok(Prediction(id, data, None));
    }

    method Relabel(predictionId: string, class_: string, actor: Actor, env: CallEnv) returns (r: Result<Prediction>)
      modifies db, cache
      ensures Served(db.View(), cache.entries, ErrorOf(r)) ==
              Serve(old(db.View()), old(cache.entries), Call.Relabel(predictionId, class_, actor), env)
      ensures r.Ok? ==> predictionId in db.predictions.rows && r.value == db.predictions.rows[predictionId]
    {
      if class_ !in CLASSES {
        return Err(ValidationError);
      }
      if actor.role !in {Admin, Reviewer} {
        return Err(PermissionDenied);
      }
      if predictionId !in db.predictions.rows {
        return Err(NotFound);
      }
      var saved := db.View();
      var p := db.predictions.rows[predictionId];
      if actor.role == Reviewer && p.data.confidence >= REVIEW_THRESHOLD {
        return Err(RelabelNotAllowed);
      }
      var updated := db.RelabelPrediction(predictionId, class_);
      var details := RelabelDone(p.data.predictedClass, class_);
      var ok := db.AppendAudit(Some(actor.id), PredictionTarget(predictionId), details);
      if !ok || !env.commits {
        db.Rollback(saved);
        return Err(if ok then DatabaseError else IntegrityError);
      }
      var ended := DeletePredictionKeys(p.data.batchId, env);
      if !ended {
        return Err(CacheError);
      }
      return Ok(updated.value);
    }

    /** The three deletions that saving and relabelling share. */
    method DeletePredictionKeys(batchId: string, env: CallEnv) returns (ended: bool)
      modifies cache
      ensures ended == (env.deletes >= 3)
      ensures cache.entries ==
              Dropped(old(cache.entries), [PredictionsRecent, BatchDetail(batchId), PredictionsOfBatch(batchId)],
                      env.deletes)
    {
      DroppedThree(cache.entries, PredictionsRecent, BatchDetail(batchId), PredictionsOfBatch(batchId), env.deletes);
      ended := cache.Delete(PredictionsRecent, env.deletes > 0);
      if ended {
        ended := cache.Delete(BatchDetail(batchId), env.deletes > 1);
      }
      if ended {
        ended := cache.Delete(PredictionsOfBatch(batchId), env.deletes > 2);
      }
    }
  }

  /** What a cached read returns and leaves in the cache. */
  function ReadThrough(db: Db, entries: map<string, View>, key: CacheKey, pages: Pages)
    : (Option<View>, map<string, View>)
  {
    if Render(key) in entries then (Some(entries[Render(key)]), entries)
    else
      match Fresh(db, key, pages)
      case Some(view) => (Some(view), entries[Render(key) := view])
      case None => (None, entries)
  }

  /** The cached GET endpoints: the entry if there is one, otherwise a database read whose result is stored. Nothing is
      stored when the read finds nothing. */
  class CachedReads {
    const db: Database
    const cache: Cache

    constructor (db: Database, cache: Cache)
      ensures this.db == db && this.cache == cache
    {
      this.db, this.cache := db, cache;
    }

    method Get(key: CacheKey, pages: Pages) returns (view: Option<View>)
      modifies cache
      ensures (view, cache.entries) == ReadThrough(db.View(), old(cache.entries), key, pages)
    {
      if Render(key) in cache.entries {
        return Some(cache.entries[Render(key)]);
      }
      view := Fresh(db.View(), key, pages);
      if view.Some? {
        cache.entries := cache.entries[Render(key) := view.value];
      }
    }
  }
}
