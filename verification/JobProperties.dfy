/** Many jobs racing on one batch: the order of their transactions does not matter. */
module JobProperties {
  import opened Options
  import opened Records
  import opened CacheKeys
  import opened Transactions
  import opened BatchProperties
  import opened Protocol
  import PredictionProperties

  predicate HasSaved(job: RunningJob) {
    job.pc.Finishing? || job.pc.Ended?
  }

  /** The job at its place in the protocol: a prediction of its own exactly when it has passed the save, a batch that
      has left pending once it has marked it, and a closed batch when it has ended. */
  ghost predicate JobOk(db: Db, job: RunningJob, base: set<string>) {
    && (HasSaved(job) ==> job.saved.Some?)
    && (job.pc.Marking? || job.pc.Saving? ==> job.saved == None)
    && (job.saved.Some? ==>
          var p := job.saved.value;
          p in db.predictions.rows && db.predictions.rows[p].data == job.data && p !in base)
    && (job.pc.Saving? || HasSaved(job) ==>
          job.data.batchId in db.batches.rows && db.batches.rows[job.data.batchId].status != Pending)
    && (job.pc.Ended? ==> Rank(db.batches.rows[job.data.batchId].status) == 2)
  }

  ghost predicate SavedBy(s: State, p: string) {
    exists i :: 0 <= i < |s.jobs| && s.jobs[i].saved == Some(p)
  }

  ghost predicate SavedFor(s: State, b: string) {
    exists i :: 0 <= i < |s.jobs| && s.jobs[i].data.batchId == b && s.jobs[i].saved.Some?
  }

  /** What every interleaving keeps. `base` are the predictions, and `closed` the done batches, of the start. */
  ghost predicate JobsOk(s: State, base: set<string>, closed: set<string>) {
    && (forall i :: 0 <= i < |s.jobs| ==> JobOk(s.db, s.jobs[i], base))
    && (forall i, j :: 0 <= i < j < |s.jobs| && s.jobs[i].saved.Some? ==> s.jobs[i].saved != s.jobs[j].saved)
    && (forall p :: p in s.db.predictions.rows ==> p in base || SavedBy(s, p))
    && (forall b :: b in s.db.batches.rows && s.db.batches.rows[b].status == Done ==> b in closed || SavedFor(s, b))
  }

  /* ---- steps ---- */

  /** What any committed call leaves of the facts about jobs. */
  lemma CallKeepsJob(db: Db, call: Call, job: RunningJob, base: set<string>)
    requires Tx(db, call).Committed? && JobOk(db, job, base)
    ensures JobOk(Tx(db, call).db, job, base)
  {
  }

  /** An API call neither saves predictions nor finishes batches. */
  lemma ApiCallKeeps(db: Db, call: Call)
    requires Tx(db, call).Committed? && ApiCall(call)
    ensures var db' := Tx(db, call).db;
            && db'.predictions.rows.Keys == db.predictions.rows.Keys
            && forall b :: b in db'.batches.rows && db'.batches.rows[b].status == Done ==>
                 b in db.batches.rows && db.batches.rows[b].status == Done
  {
  }

  lemma RequestKeeps(s: State, call: Call, commits: bool, pages: Pages, base: set<string>, closed: set<string>)
    requires JobsOk(s, base, closed)
    ensures JobsOk(Step(s, Request(call, commits), pages), base, closed)
  {
    var s' := Step(s, Request(call, commits), pages);
    if ApiCall(call) && commits && Tx(s.db, call).Committed? {
      ApiCallKeeps(s.db, call);
      forall i | 0 <= i < |s'.jobs| ensures JobOk(s'.db, s'.jobs[i], base) {
        CallKeepsJob(s.db, call, s.jobs[i], base);
      }
      forall p | p in s'.db.predictions.rows ensures p in base || SavedBy(s', p) {
        if p !in base {
          var i :| 0 <= i < |s.jobs| && s.jobs[i].saved == Some(p);
          assert s'.jobs[i].saved == Some(p);
        }
      }
    }
  }

  /** The job that moves, seen on its own. */
  lemma MoverOk(s: State, i: nat, predictionId: string, commits: bool, pages: Pages, base: set<string>)
    requires Runnable(s, i) && JobOk(s.db, s.jobs[i], base) && base <= s.db.predictions.rows.Keys
    ensures var s' := Step(s, JobStep(i, predictionId, commits), pages);
            JobOk(s'.db, s'.jobs[i], base)
  {
  }

  /** How the tables change when a job moves. */
  lemma MoverEffect(s: State, i: nat, predictionId: string, commits: bool, pages: Pages)
    requires Runnable(s, i) && (s.jobs[i].pc.Saving? ==> s.jobs[i].saved == None)
    ensures var s', job := Step(s, JobStep(i, predictionId, commits), pages), s.jobs[i];
            var job' := s'.jobs[i];
            && |s'.jobs| == |s.jobs| && (forall j :: 0 <= j < |s.jobs| && j != i ==> s'.jobs[j] == s.jobs[j])
            && job'.data == job.data
            && (if job'.saved == job.saved then s'.db.predictions == s.db.predictions
                else job.pc.Saving? && job'.saved == Some(predictionId) && predictionId !in s.db.predictions.rows
                     && s'.db.predictions.rows.Keys == s.db.predictions.rows.Keys + {predictionId})
            && (forall b :: b in s'.db.batches.rows && s'.db.batches.rows[b].status == Done ==>
                  || (b in s.db.batches.rows && s.db.batches.rows[b].status == Done)
                  || (b == job.data.batchId && job.pc.Finishing?))
  {
  }

  lemma JobStepKeeps(s: State, i: nat, predictionId: string, commits: bool, pages: Pages, base: set<string>,
                     closed: set<string>)
    requires JobsOk(s, base, closed) && base <= s.db.predictions.rows.Keys && Runnable(s, i)
    ensures JobsOk(Step(s, JobStep(i, predictionId, commits), pages), base, closed)
  {
    var s', job := Step(s, JobStep(i, predictionId, commits), pages), s.jobs[i];
    assert JobOk(s.db, job, base);
    MoverEffect(s, i, predictionId, commits, pages);
    MoverOk(s, i, predictionId, commits, pages, base);
    var call := JobCall(job, predictionId);
    forall j | 0 <= j < |s'.jobs| ensures JobOk(s'.db, s'.jobs[j], base) {
      if j != i && commits && Tx(s.db, call).Committed? {
        CallKeepsJob(s.db, call, s.jobs[j], base);
      }
    }
    assert JobOk(s.db, job, base);
    MoverAccounts(s, i, predictionId, commits, pages, base, closed);
    SavedStaysDistinct(s, s', i, predictionId, base);
  }

  /** Every prediction and every finished batch is still accounted for after a job has moved. */
  lemma MoverAccounts(s: State, i: nat, predictionId: string, commits: bool, pages: Pages, base: set<string>,
                      closed: set<string>)
    requires JobsOk(s, base, closed) && Runnable(s, i)
    ensures var s' := Step(s, JobStep(i, predictionId, commits), pages);
            && (forall p :: p in s'.db.predictions.rows ==> p in base || SavedBy(s', p))
            && (forall b :: b in s'.db.batches.rows && s'.db.batches.rows[b].status == Done ==>
                  b in closed || SavedFor(s', b))
  {
    var s' := Step(s, JobStep(i, predictionId, commits), pages);
    assert JobOk(s.db, s.jobs[i], base);
    MoverEffect(s, i, predictionId, commits, pages);
    forall p | p in s'.db.predictions.rows ensures p in base || SavedBy(s', p) {
      if p in s.db.predictions.rows && p !in base {
        var j :| 0 <= j < |s.jobs| && s.jobs[j].saved == Some(p);
        assert s'.jobs[j].saved == Some(p);
      } else if p !in base {
        assert s'.jobs[i].saved == Some(p);
      }
    }
    forall b | b in s'.db.batches.rows && s'.db.batches.rows[b].status == Done ensures b in closed || SavedFor(s', b) {
      if b in s.db.batches.rows && s.db.batches.rows[b].status == Done {
        if b !in closed {
          var j :| 0 <= j < |s.jobs| && s.jobs[j].data.batchId == b && s.jobs[j].saved.Some?;
          assert s'.jobs[j].data.batchId == b && s'.jobs[j].saved.Some?;
        }
      } else {
        assert s'.jobs[i].data.batchId == b && s'.jobs[i].saved.Some?;
      }
    }
  }

  lemma SavedStaysDistinct(s: State, s': State, i: nat, predictionId: string, base: set<string>)
    requires |s'.jobs| == |s.jobs| && i < |s.jobs|
    requires forall j :: 0 <= j < |s.jobs| ==> JobOk(s.db, s.jobs[j], base)
    requires forall j, k :: 0 <= j < k < |s.jobs| && s.jobs[j].saved.Some? ==> s.jobs[j].saved != s.jobs[k].saved
    requires forall j :: 0 <= j < |s.jobs| && j != i ==> s'.jobs[j] == s.jobs[j]
    requires s'.jobs[i].saved == s.jobs[i].saved
             || (s'.jobs[i].saved == Some(predictionId) && predictionId !in s.db.predictions.rows)
    ensures forall j, k :: 0 <= j < k < |s'.jobs| && s'.jobs[j].saved.Some? ==> s'.jobs[j].saved != s'.jobs[k].saved
  {
  }

  /** Steps that leave the database alone and at most start a job. */
  lemma QuietStepKeeps(s: State, s': State, base: set<string>, closed: set<string>)
    requires JobsOk(s, base, closed) && s'.db == s.db && s.jobs <= s'.jobs
    requires forall i :: |s.jobs| <= i < |s'.jobs| ==> s'.jobs[i].pc.Marking? && s'.jobs[i].saved == None
    ensures JobsOk(s', base, closed)
  {
  }

  lemma QuietSteps(s: State, e: Event, pages: Pages)
    requires !e.Request? && (e.JobStep? ==> !Runnable(s, e.job))
    ensures var s' := Step(s, e, pages);
            && s'.db == s.db && s.jobs <= s'.jobs
            && forall i :: |s.jobs| <= i < |s'.jobs| ==> s'.jobs[i].pc.Marking? && s'.jobs[i].saved == None
  {
  }

  lemma {:induction false} StepKeepsJobs(s: State, e: Event, pages: Pages, base: set<string>, closed: set<string>)
    requires JobsOk(s, base, closed) && base <= s.db.predictions.rows.Keys
    ensures JobsOk(Step(s, e, pages), base, closed)
    ensures base <= Step(s, e, pages).db.predictions.rows.Keys
  {
    if e.Request? {
      RequestKeeps(s, e.call, e.commits, pages, base, closed);
      if ApiCall(e.call) && Tx(s.db, e.call).Committed? {
        ApiCallKeeps(s.db, e.call);
      }
    } else if e.JobStep? && Runnable(s, e.job) {
      assert JobOk(s.db, s.jobs[e.job], base);
      JobStepKeeps(s, e.job, e.predictionId, e.commits, pages, base, closed);
      MoverEffect(s, e.job, e.predictionId, e.commits, pages);
    } else {
      QuietSteps(s, e, pages);
      QuietStepKeeps(s, Step(s, e, pages), base, closed);
    }
  }

  /* ---- runs ---- */

  function DoneBatches(db: Db): set<string> {
    set b | b in db.batches.rows && db.batches.rows[b].status == Done
  }

  /** From a start without jobs, every interleaving of any number of jobs, requests, readers and crashes keeps every
      job in step with the database: predictions are exactly the old ones and one for each job past its save, and a
      batch that became done has the prediction of some job. */
  lemma {:induction false} JobsStayInStep(s: State, events: seq<Event>, pages: Pages)
    requires s.jobs == []
    ensures JobsOk(Run(s, events, pages), s.db.predictions.rows.Keys, DoneBatches(s.db))
    ensures s.db.predictions.rows.Keys <= Run(s, events, pages).db.predictions.rows.Keys
  {
    if events != [] {
      var front := events[..|events| - 1];
      JobsStayInStep(s, front, pages);
      StepKeepsJobs(Run(s, front, pages), events[|events| - 1], pages, s.db.predictions.rows.Keys, DoneBatches(s.db));
    }
  }

  /** The jobs of a batch. */
  function JobsOn(jobs: seq<RunningJob>, b: string): seq<RunningJob> {
    if jobs == [] then []
    else
      var last := jobs[|jobs| - 1];
      JobsOn(jobs[..|jobs| - 1], b) + if last.data.batchId == b then [last] else []
  }

  function PredictionsOn(db: Db, b: string): set<string> {
    set p | p in db.predictions.rows && db.predictions.rows[p].data.batchId == b
  }

  function SavedIds(jobs: seq<RunningJob>): set<string> {
    set i | 0 <= i < |jobs| && jobs[i].saved.Some? :: jobs[i].saved.value
  }

  lemma {:induction false} JobsOnMembers(jobs: seq<RunningJob>, b: string)
    ensures forall i :: 0 <= i < |JobsOn(jobs, b)| ==>
              JobsOn(jobs, b)[i] in jobs && JobsOn(jobs, b)[i].data.batchId == b
    ensures forall i :: 0 <= i < |jobs| && jobs[i].data.batchId == b ==> jobs[i] in JobsOn(jobs, b)
  {
    if jobs != [] {
      JobsOnMembers(jobs[..|jobs| - 1], b);
    }
  }

  ghost predicate DistinctSaves(jobs: seq<RunningJob>) {
    forall i, j :: 0 <= i < j < |jobs| && jobs[i].saved.Some? ==> jobs[i].saved != jobs[j].saved
  }

  lemma {:induction false} JobsOnDistinct(jobs: seq<RunningJob>, b: string)
    requires DistinctSaves(jobs)
    ensures DistinctSaves(JobsOn(jobs, b))
  {
    if jobs != [] {
      var front := jobs[..|jobs| - 1];
      JobsOnDistinct(front, b);
      JobsOnMembers(front, b);
      var on := JobsOn(front, b);
      forall i | 0 <= i < |on| && on[i].saved.Some? ensures on[i].saved != jobs[|jobs| - 1].saved {
        var j :| 0 <= j < |front| && front[j] == on[i];
        assert jobs[j].saved != jobs[|jobs| - 1].saved;
      }
    }
  }

  lemma SavedIdsLast(jobs: seq<RunningJob>)
    requires jobs != []
    ensures var front, last := jobs[..|jobs| - 1], jobs[|jobs| - 1];
            SavedIds(jobs) == SavedIds(front) + if last.saved.Some? then {last.saved.value} else {}
  {
    var front, last := jobs[..|jobs| - 1], jobs[|jobs| - 1];
    forall p | p in SavedIds(front) ensures p in SavedIds(jobs) {
      var i :| 0 <= i < |front| && front[i].saved == Some(p);
      assert jobs[i].saved == Some(p);
    }
    forall p | p in SavedIds(jobs) ensures p in SavedIds(front) || last.saved == Some(p) {
      var i :| 0 <= i < |jobs| && jobs[i].saved == Some(p);
      if i < |front| {
        assert front[i].saved == Some(p);
      }
    }
  }

  ghost predicate AllSaved(jobs: seq<RunningJob>) {
    forall job :: job in jobs ==> job.saved.Some?
  }

  lemma AllSavedLast(jobs: seq<RunningJob>)
    requires jobs != []
    ensures AllSaved(jobs) <==> AllSaved(jobs[..|jobs| - 1]) && jobs[|jobs| - 1].saved.Some?
  {
    assert jobs == jobs[..|jobs| - 1] + [jobs[|jobs| - 1]];
  }

  /** Jobs have as many predictions as they are only if each has saved one. */
  lemma {:induction false} SavedIdsCount(jobs: seq<RunningJob>)
    requires DistinctSaves(jobs)
    ensures |SavedIds(jobs)| <= |jobs|
    ensures |SavedIds(jobs)| == |jobs| <==> AllSaved(jobs)
  {
    if jobs != [] {
      var front, last := jobs[..|jobs| - 1], jobs[|jobs| - 1];
      SavedIdsCount(front);
      SavedIdsLast(jobs);
      AllSavedLast(jobs);
      if last.saved.Some? {
        assert last.saved.value !in SavedIds(front);
      }
    }
  }

  /** The predictions of a batch that had none are those its jobs have saved. */
  lemma PredictionsAreTheJobs(s: State, b: string, base: set<string>, closed: set<string>)
    requires JobsOk(s, base, closed) && PredictionsOn(s.db, b) !! base
    ensures PredictionsOn(s.db, b) == SavedIds(JobsOn(s.jobs, b))
  {
    var on := JobsOn(s.jobs, b);
    JobsOnMembers(s.jobs, b);
    forall p | p in PredictionsOn(s.db, b) ensures p in SavedIds(on) {
      assert p !in base;
      var i :| 0 <= i < |s.jobs| && s.jobs[i].saved == Some(p);
      assert JobOk(s.db, s.jobs[i], base);
      var k :| 0 <= k < |on| && on[k] == s.jobs[i];
      assert on[k].saved == Some(p);
    }
    forall p | p in SavedIds(on) ensures p in PredictionsOn(s.db, b) {
      var k :| 0 <= k < |on| && on[k].saved == Some(p);
      var i :| 0 <= i < |s.jobs| && s.jobs[i] == on[k];
      assert JobOk(s.db, s.jobs[i], base);
    }
  }

  /** Event `i` of a run marks `b` as failed, and takes effect. */
  predicate Fails(s: State, events: seq<Event>, pages: Pages, b: string, i: nat)
    requires i < |events|
  {
    && events[i] == Request(Mark(b, Failed), true)
    && Tx(Run(s, events[..i], pages).db, Mark(b, Failed)).Committed?
  }

  ghost predicate WasFailed(s: State, events: seq<Event>, pages: Pages, b: string) {
    exists i :: 0 <= i < |events| && Fails(s, events, pages, b, i)
  }

  lemma WasFailedStep(s: State, events: seq<Event>, pages: Pages, b: string)
    requires events != []
    ensures WasFailed(s, events, pages, b) <==>
            WasFailed(s, events[..|events| - 1], pages, b) || Fails(s, events, pages, b, |events| - 1)
  {
    var front := events[..|events| - 1];
    forall i | 0 <= i < |front| ensures Fails(s, events, pages, b, i) == Fails(s, front, pages, b, i) {
      assert front[..i] == events[..i];
    }
    if i :| 0 <= i < |front| && Fails(s, front, pages, b, i) {
      assert Fails(s, events, pages, b, i);
    }
  }

  lemma FailStep(s: State, e: Event, pages: Pages, b: string)
    ensures var rows, rows' := s.db.batches.rows, Step(s, e, pages).db.batches.rows;
            (b in rows' && rows'[b].status == Failed) <==>
            || (b in rows && rows[b].status == Failed)
            || (e == Request(Mark(b, Failed), true) && Tx(s.db, Mark(b, Failed)).Committed?)
  {
  }

  /** A batch is failed exactly when a request to mark it so took effect; no worker ever does it. */
  lemma {:induction false} OnlyRequestsFail(s: State, events: seq<Event>, pages: Pages, b: string)
    requires b in s.db.batches.rows ==> s.db.batches.rows[b].status != Failed
    ensures var rows := Run(s, events, pages).db.batches.rows;
            (b in rows && rows[b].status == Failed) <==> WasFailed(s, events, pages, b)
  {
    if events != [] {
      OnlyRequestsFail(s, events[..|events| - 1], pages, b);
      FailStep(Run(s, events[..|events| - 1], pages), events[|events| - 1], pages, b);
      WasFailedStep(s, events, pages, b);
    }
  }

  /** A start from which the whole life of a batch can be told: no job has begun, and the batch, if it exists already,
      has no prediction and has not failed. */
  ghost predicate Untouched(s: State, b: string) {
    && LivesOk(s.db) && s.jobs == [] && PredictionsOn(s.db, b) == {}
    && (b in s.db.batches.rows ==> s.db.batches.rows[b].status != Failed)
  }

  /** Interleaving independence: when all `n >= 1` jobs of a batch have run to their end, in whatever order their
      transactions came and whatever else went on (the batch may be created on the way, and jobs of other batches be at
      work), the batch has exactly `n` predictions, one for each job. Unless a request to mark it as failed took effect,
      it is done and its log shows exactly the two changes that lead there. */
  lemma {:induction false} InterleavingIndependence(s: State, events: seq<Event>, pages: Pages, b: string)
    requires Untouched(s, b)
    requires var on := JobsOn(Run(s, events, pages).jobs, b); on != [] && forall job :: job in on ==> job.pc.Ended?
    ensures var t := Run(s, events, pages);
            var on := JobsOn(t.jobs, b);
            && PredictionsOn(t.db, b) == SavedIds(on) && |PredictionsOn(t.db, b)| == |on|
            && b in t.db.batches.rows
            && (if WasFailed(s, events, pages, b) then t.db.batches.rows[b].status == Failed
                else t.db.batches.rows[b].status == Done && Trail(t.db.audit, b) == [STARTED, FINISHED])
  {
    var t := Run(s, events, pages);
    var on, base := JobsOn(t.jobs, b), s.db.predictions.rows.Keys;
    JobsStayInStep(s, events, pages);
    LivesInRuns(s, events, pages);
    OnlyRequestsFail(s, events, pages, b);
    JobsOnMembers(t.jobs, b);
    OldPredictionsElsewhere(s, events, pages, b);
    PredictionsAreTheJobs(t, b, base, DoneBatches(s.db));
    JobsOnDistinct(t.jobs, b);
    forall k | 0 <= k < |on|
      ensures on[k].saved.Some? && b in t.db.batches.rows && Rank(t.db.batches.rows[b].status) == 2
    {
      var j :| 0 <= j < |t.jobs| && t.jobs[j] == on[k];
      assert JobOk(t.db, t.jobs[j], base);
      assert on[k] in on;
    }
    SavedIdsCount(on);
    assert on[0] in on;
    assert BatchLifeOk(t.db, b);
  }

  lemma {:induction false} LivesInRuns(s: State, events: seq<Event>, pages: Pages)
    requires LivesOk(s.db)
    ensures LivesOk(Run(s, events, pages).db)
  {
    RunIsRunOfCalls(s, events, pages);
    StatusHistory(s.db, Calls(s, events, pages));
  }

  lemma OldPredictionsElsewhere(s: State, events: seq<Event>, pages: Pages, b: string)
    requires PredictionsOn(s.db, b) == {}
    ensures PredictionsOn(Run(s, events, pages).db, b) !! s.db.predictions.rows.Keys
  {
    RunIsRunOfCalls(s, events, pages);
    forall p | p in s.db.predictions.rows ensures p !in PredictionsOn(Run(s, events, pages).db, b) {
      assert p !in PredictionsOn(s.db, b);
      PredictionProperties.DataNeverChanges(s.db, Calls(s, events, pages), p);
    }
  }

  /** At any moment, not only at the end, the predictions of a batch are those of its jobs that are past their save. */
  lemma PredictionsAtAnyTime(s: State, events: seq<Event>, pages: Pages, b: string)
    requires s.jobs == [] && PredictionsOn(s.db, b) == {}
    ensures var t := Run(s, events, pages); PredictionsOn(t.db, b) == SavedIds(JobsOn(t.jobs, b))
  {
    JobsStayInStep(s, events, pages);
    OldPredictionsElsewhere(s, events, pages, b);
    PredictionsAreTheJobs(Run(s, events, pages), b, s.db.predictions.rows.Keys, DoneBatches(s.db));
  }

  /** Done does not mean that every file has a prediction; it means that at least one has. */
  lemma DoneHasAPrediction(s: State, events: seq<Event>, pages: Pages, b: string)
    requires s.jobs == [] && b !in DoneBatches(s.db)
    ensures var t := Run(s, events, pages);
            b in t.db.batches.rows && t.db.batches.rows[b].status == Done ==> PredictionsOn(t.db, b) != {}
  {
    JobsStayInStep(s, events, pages);
    var t := Run(s, events, pages);
    if b in t.db.batches.rows && t.db.batches.rows[b].status == Done {
      var i :| 0 <= i < |t.jobs| && t.jobs[i].data.batchId == b && t.jobs[i].saved.Some?;
      assert JobOk(t.db, t.jobs[i], s.db.predictions.rows.Keys);
      assert t.jobs[i].saved.value in PredictionsOn(t.db, b);
    }
  }

  /** At any moment a batch has as many predictions as it has jobs if and only if each of them is past its save. */
  lemma CompleteIffAllSaved(s: State, events: seq<Event>, pages: Pages, b: string)
    requires s.jobs == [] && PredictionsOn(s.db, b) == {}
    ensures var t := Run(s, events, pages);
            |PredictionsOn(t.db, b)| == |JobsOn(t.jobs, b)| <==> AllSaved(JobsOn(t.jobs, b))
  {
    var t := Run(s, events, pages);
    PredictionsAtAnyTime(s, events, pages, b);
    JobsStayInStep(s, events, pages);
    JobsOnDistinct(t.jobs, b);
    SavedIdsCount(JobsOn(t.jobs, b));
  }

  predicate IsDone(s: State, b: string) {
    b in s.db.batches.rows && s.db.batches.rows[b].status == Done
  }

  /** Only a job's last call closes a batch. */
  lemma OnlyJobsClose(s: State, e: Event, pages: Pages, b: string, base: set<string>, closed: set<string>)
    requires JobsOk(s, base, closed) && !IsDone(s, b) && IsDone(Step(s, e, pages), b)
    ensures e.JobStep? && Runnable(s, e.job) && s.jobs[e.job].pc.Finishing? && s.jobs[e.job].data.batchId == b
    ensures var s' := Step(s, e, pages); |s'.jobs| == |s.jobs| && s'.jobs[e.job].saved.Some?
  {
    if e.JobStep? && Runnable(s, e.job) {
      assert JobOk(s.db, s.jobs[e.job], base);
      MoverEffect(s, e.job, e.predictionId, e.commits, pages);
    } else if e.Request? && ApiCall(e.call) && Tx(s.db, e.call).Committed? {
      ApiCallKeeps(s.db, e.call);
    }
  }

  /** The exact condition under which done means complete: at the step that closes a batch, it has a prediction of each
      of its jobs if and only if every job other than the one that closes it is past its save too. */
  lemma DoneIsCompleteIff(s: State, events: seq<Event>, pages: Pages, b: string)
    requires s.jobs == [] && PredictionsOn(s.db, b) == {} && events != []
    requires !IsDone(Run(s, events[..|events| - 1], pages), b) && IsDone(Run(s, events, pages), b)
    ensures var t, e := Run(s, events, pages), events[|events| - 1];
            && e.JobStep? && e.job < |t.jobs| && t.jobs[e.job].data.batchId == b && t.jobs[e.job].saved.Some?
            && (|PredictionsOn(t.db, b)| == |JobsOn(t.jobs, b)| <==>
                forall j :: 0 <= j < |t.jobs| && j != e.job && t.jobs[j].data.batchId == b ==> t.jobs[j].saved.Some?)
  {
    var front, e := events[..|events| - 1], events[|events| - 1];
    var t := Run(s, events, pages);
    JobsStayInStep(s, front, pages);
    OnlyJobsClose(Run(s, front, pages), e, pages, b, s.db.predictions.rows.Keys, DoneBatches(s.db));
    CompleteIffAllSaved(s, events, pages, b);
    JobsOnMembers(t.jobs, b);
  }

  /** The condition can fail: the first of two jobs to get through closes the batch while the other has not begun. */
  lemma FirstJobClosesBatch(s: State, data: PredictionData, other: PredictionData, p: string, pages: Pages)
    requires data.batchId in s.db.batches.rows && s.db.batches.rows[data.batchId].status == Pending
    requires PredictionsOn(s.db, data.batchId) == {}
    requires other.batchId == data.batchId && p !in s.db.predictions.rows
    ensures var s0 := s.(jobs := [RunningJob(data, Marking, None), RunningJob(other, Marking, None)]);
            var s1 := Step(s0, JobStep(0, p, true), pages);
            var s2 := Step(s1, JobStep(0, p, true), pages);
            var s3 := Step(s2, JobStep(0, p, true), pages);
            && data.batchId in s3.db.batches.rows && s3.db.batches.rows[data.batchId].status == Done
            && |s3.jobs| == 2 && s3.jobs[1].pc.Marking? && PredictionsOn(s3.db, data.batchId) == {p}
  {
  }

  /* ---- nothing stands in a job's way ---- */

  /** Whatever the status of its batch, and so however far sibling jobs have got, a job whose batch exists and whose
      transactions can be carried out gets through its three calls, and its prediction is stored. */
  lemma JobGetsThrough(s: State, i: nat, p: string, pages: Pages)
    requires i < |s.jobs| && s.jobs[i].pc.Marking? && s.jobs[i].data.batchId in s.db.batches.rows
    requires p !in s.db.predictions.rows
    ensures var e := JobStep(i, p, true);
            var t := Step(Step(Step(s, e, pages), e, pages), e, pages);
            && |t.jobs| == |s.jobs| && t.jobs[i].pc.Ended? && t.jobs[i].saved == Some(p)
            && p in t.db.predictions.rows && t.db.predictions.rows[p] == Prediction(p, s.jobs[i].data, None)
  {
  }

  /** Requests for the calls of the API take effect when they can and commit. */
  lemma RequestTakesEffect(s: State, call: Call, pages: Pages)
    requires call.CreateUser? || call.ChangeRole? || call.DeleteUser? || call.CreateBatch? || call.Relabel?
             || (call.Mark? && call.status == Failed)
    ensures var s' := Step(s, Request(call, true), pages);
            match Tx(s.db, call)
            case Committed(db, owed) => s'.db == db && s'.calls == s.calls + [Names(owed)]
            case Refused(_) => s' == s
  {
  }
}
