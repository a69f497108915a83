/** The inference worker: one job from the queue to the database. */
module Worker {
  import opened Options
  import opened BlobKeys
  import opened Validators
  import opened Records
  import opened CacheKeys
  import opened Transactions
  import opened ServiceLayer
  import Backend
  import Protocol

  /** The classifier and the overlay painter, about which nothing is assumed. */
  datatype Model = Model(predict: Bytes -> (string, real), draw: (Bytes, string, real) -> Bytes)

  /** How the steps before the first call end: each may raise, for a reason of its own. `downloads` is about an
      object that is there. */
  datatype ImageEnv = ImageEnv(downloads: bool, predicts: bool, draws: bool, overlay: Backend.Put)

  /** The three calls of a job: mark as processing, save, mark as done. */
  datatype JobEnv = JobEnv(processing: CallEnv, save: CallEnv, done: CallEnv)

  /** A refused transition does not stop a job. */
  predicate EndsJob(error: Option<Error>) {
    error.Some? && error.value != InvalidStateTransition
  }

  /** The three calls in a row, with nothing beside them. */
  function Persisted(db: Db, entries: map<string, View>, data: PredictionData, id: string, env: JobEnv): Served {
    var r1 := Serve(db, entries, Mark(data.batchId, Processing), env.processing);
    if EndsJob(r1.error) then r1
    else
      var r2 := Serve(r1.db, r1.entries, SavePrediction(id, data), env.save);
      if r2.error.Some? then r2
      else
        var r3 := Serve(r2.db, r2.entries, Mark(data.batchId, Done), env.done);
        if EndsJob(r3.error) then r3 else r3.(error := None)
  }

  /** What the worker stores about a file: the name and the overlay key come from the key of the job. */
  function DataFor(batchId: string, blobKey: string, image: Bytes, model: Model): PredictionData {
    var filename := FilenameOf(blobKey);
    var (class_, confidence) := model.predict(image);
    PredictionData(batchId, filename, blobKey, OverlayKey(batchId, filename), class_, confidence)
  }

  /** Field by field. */
  lemma DataFields(batchId: string, blobKey: string, image: Bytes, model: Model)
    ensures var data := DataFor(batchId, blobKey, image, model);
            && data.batchId == batchId && data.blobKey == blobKey && data.filename == FilenameOf(blobKey)
            && data.overlayKey == OverlayKey(batchId, FilenameOf(blobKey))
            && (data.predictedClass, data.confidence) == model.predict(image)
  {
  }

  class InferenceWorker {
    const blob: Backend.Stores
    const db: Database
    const cache: Cache

    constructor (blob: Backend.Stores, db: Database, cache: Cache)
      ensures this.blob == blob && this.db == db && this.cache == cache
    {
      this.blob, this.db, this.cache := blob, db, cache;
    }

    method PersistAsync(data: PredictionData, id: string, env: JobEnv) returns (error: Option<Error>)
      modifies db, cache
      ensures Served(db.View(), cache.entries, error) == Persisted(old(db.View()), old(cache.entries), data, id, env)
    {
      var batches := new BatchService(db, cache);
      var predictions := new PredictionService(db, cache);

      var marked := batches.MarkProcessing(data.batchId, env.processing);
      if marked.Err? && marked.error != InvalidStateTransition {
        return Some(marked.error);
      }

      var saved := predictions.SavePrediction(id, data, env.save);
      if saved.Err? {
        return Some(saved.error);
      }

      marked := batches.MarkDone(data.batchId, env.done);
      if marked.Err? && marked.error != InvalidStateTransition {
        return Some(marked.error);
      }
      return None;
    }

    /** Download, predict, draw, upload the overlay, persist. A failing step ends the job without the later ones; the
        object store only ever gets the overlay. */
    method Classify(batchId: string, blobKey: string, model: Model, steps: ImageEnv, id: string, env: JobEnv)
      returns (finished: bool)
      modifies blob`blobs, db, cache
      ensures !(blobKey in old(blob.blobs) && steps.downloads && steps.predicts && steps.draws) ==>
                && !finished && blob.blobs == old(blob.blobs)
                && db.View() == old(db.View()) && cache.entries == old(cache.entries)
      ensures blobKey in old(blob.blobs) && steps.downloads && steps.predicts && steps.draws ==>
                var image, filename := old(blob.blobs)[blobKey], FilenameOf(blobKey);
                var (class_, confidence) := model.predict(image);
                var picture, overlayKey := model.draw(image, class_, confidence), OverlayKey(batchId, filename);
                var data := PredictionData(batchId, filename, blobKey, overlayKey, class_, confidence);
                && blob.blobs == Backend.Uploaded(old(blob.blobs), overlayKey, picture, steps.overlay)
                && (if Backend.UploadReturns(picture, steps.overlay) then
                      var r := Persisted(old(db.View()), old(cache.entries), data, id, env);
                      db.View() == r.db && cache.entries == r.entries && finished == (r.error == None)
                    else
                      !finished && db.View() == old(db.View()) && cache.entries == old(cache.entries))
    {
      if blobKey !in blob.blobs || !steps.downloads {
        return false;
      }
      var image := blob.blobs[blobKey];
      if !steps.predicts {
        return false;
      }
      var (class_, confidence) := model.predict(image);
      var filename := FilenameOf(blobKey);
      var overlayKey := OverlayKey(batchId, filename);
      if !steps.draws {
        return false;
      }
      var ok := blob.Upload(overlayKey, model.draw(image, class_, confidence), steps.overlay);
      if !ok {
        return false;
      }
      var error := PersistAsync(PredictionData(batchId, filename, blobKey, overlayKey, class_, confidence), id, env);
      return error == None;
    }
  }

  /* ---- the job alone is a run of the protocol ---- */

  /** One call of a job is one step of the protocol: the same database. The worker goes on only if the job does, and
      stops where the job would go on only because a cache deletion raised. */
  lemma CallIsJobStep(s: Protocol.State, i: nat, id: string, env: CallEnv, pages: Pages)
    requires Protocol.Runnable(s, i)
    ensures var s' := Protocol.Step(s, Protocol.JobStep(i, id, env.commits), pages);
            var r := Serve(s.db, s.cache, Protocol.JobCall(s.jobs[i], id), env);
            var stops := if s.jobs[i].pc.Saving? then r.error.Some? else EndsJob(r.error);
            && s'.db == r.db && |s'.jobs| == |s.jobs|
            && s'.jobs[i] ==
               Protocol.JobAfter(s.jobs[i], id, Tx(s.db, Protocol.JobCall(s.jobs[i], id)), env.commits)
            && (s'.jobs[i].pc.Crashed? ==> stops)
            && (stops ==> s'.jobs[i].pc.Crashed? || r.error == Some(CacheError))
  {
  }

  /** The first calls of a job, with nothing beside them. */
  function FirstSteps(s: Protocol.State, i: nat, id: string, env: JobEnv, pages: Pages, made: nat): Protocol.State
    requires made <= 3
  {
    if made == 0 then s
    else
      var commits := if made == 1 then env.processing.commits
                     else if made == 2 then env.save.commits
                     else env.done.commits;
      Protocol.Step(FirstSteps(s, i, id, env, pages, made - 1), Protocol.JobStep(i, id, commits), pages)
  }

  /** The number of calls the worker makes before it stops. */
  function CallsMade(db: Db, entries: map<string, View>, data: PredictionData, id: string, env: JobEnv): (made: nat)
    ensures 1 <= made <= 3
  {
    var r1 := Serve(db, entries, Mark(data.batchId, Processing), env.processing);
    if EndsJob(r1.error) then 1
    else if Serve(r1.db, r1.entries, SavePrediction(id, data), env.save).error.Some? then 2
    else 3
  }

  /** A worker that is not disturbed does to the database what the first steps of its job do in the interleaved
      protocol. If it reports no error these are all three and the job has ended; if it does, the job has crashed or a
      cache deletion has raised after a commit. */
  lemma PersistIsThreeSteps(s: Protocol.State, i: nat, id: string, env: JobEnv, entries: map<string, View>,
                            pages: Pages)
    requires i < |s.jobs| && s.jobs[i].pc.Marking?
    ensures var made := CallsMade(s.db, entries, s.jobs[i].data, id, env);
            var t := FirstSteps(s, i, id, env, pages, made);
            var r := Persisted(s.db, entries, s.jobs[i].data, id, env);
            && t.db == r.db && |t.jobs| == |s.jobs|
            && (r.error == None ==> made == 3 && t.jobs[i].pc.Ended?)
            && (r.error != None ==> t.jobs[i].pc.Crashed? || r.error == Some(CacheError))
  {
    var r1 := Serve(s.db, entries, Mark(s.jobs[i].data.batchId, Processing), env.processing);
    var s1 := FirstSteps(s, i, id, env, pages, 1);
    FirstCall(s, i, id, env, entries, pages);
    if !EndsJob(r1.error) {
      SecondCall(s1, i, id, env, r1.entries, pages);
      var r2 := Serve(r1.db, r1.entries, SavePrediction(id, s.jobs[i].data), env.save);
      if r2.error == None {
        var s2 := Protocol.Step(s1, Protocol.JobStep(i, id, env.save.commits), pages);
        assert s2 == FirstSteps(s, i, id, env, pages, 2);
        ThirdCall(s2, i, id, env, r2.entries, pages);
      }
    }
  }

  lemma FirstCall(s: Protocol.State, i: nat, id: string, env: JobEnv, entries: map<string, View>, pages: Pages)
    requires i < |s.jobs| && s.jobs[i].pc.Marking?
    ensures var r1 := Serve(s.db, entries, Mark(s.jobs[i].data.batchId, Processing), env.processing);
            var s1 := FirstSteps(s, i, id, env, pages, 1);
            && s1.db == r1.db && |s1.jobs| == |s.jobs| && s1.jobs[i].data == s.jobs[i].data
            && (if EndsJob(r1.error) then s1.jobs[i].pc.Crashed? || r1.error == Some(CacheError)
                else s1.jobs[i].pc.Saving?)
  {
    assert FirstSteps(s, i, id, env, pages, 0) == s;
    ServeIgnoresEntries(s.db, s.cache, entries, Protocol.JobCall(s.jobs[i], id), env.processing);
    CallIsJobStep(s, i, id, env.processing, pages);
  }

  lemma SecondCall(s1: Protocol.State, i: nat, id: string, env: JobEnv, entries: map<string, View>, pages: Pages)
    requires i < |s1.jobs| && s1.jobs[i].pc.Saving?
    ensures var r2 := Serve(s1.db, entries, SavePrediction(id, s1.jobs[i].data), env.save);
            var s2 := Protocol.Step(s1, Protocol.JobStep(i, id, env.save.commits), pages);
            && s2.db == r2.db && |s2.jobs| == |s1.jobs| && s2.jobs[i].data == s1.jobs[i].data
            && (if r2.error.Some? then s2.jobs[i].pc.Crashed? || r2.error == Some(CacheError)
                else s2.jobs[i].pc.Finishing?)
  {
    ServeIgnoresEntries(s1.db, s1.cache, entries, Protocol.JobCall(s1.jobs[i], id), env.save);
    CallIsJobStep(s1, i, id, env.save, pages);
  }

  lemma ThirdCall(s2: Protocol.State, i: nat, id: string, env: JobEnv, entries: map<string, View>, pages: Pages)
    requires i < |s2.jobs| && s2.jobs[i].pc.Finishing?
    ensures var r3 := Serve(s2.db, entries, Mark(s2.jobs[i].data.batchId, Done), env.done);
            var s3 := Protocol.Step(s2, Protocol.JobStep(i, id, env.done.commits), pages);
            && s3.db == r3.db && |s3.jobs| == |s2.jobs|
            && (if EndsJob(r3.error) then s3.jobs[i].pc.Crashed? || r3.error == Some(CacheError)
                else s3.jobs[i].pc.Ended?)
  {
    ServeIgnoresEntries(s2.db, s2.cache, entries, Protocol.JobCall(s2.jobs[i], id), env.done);
    CallIsJobStep(s2, i, id, env.done, pages);
  }

  /** The cache has no say in what a call does to the database. */
  lemma ServeIgnoresEntries(db: Db, entries: map<string, View>, entries': map<string, View>, call: Call,
                            env: CallEnv)
    ensures Serve(db, entries, call, env).db == Serve(db, entries', call, env).db
    ensures Serve(db, entries, call, env).error == Serve(db, entries', call, env).error
  {
  }
}
