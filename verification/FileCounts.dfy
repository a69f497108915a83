/** A batch never has more jobs than files. */
module FileCounts {
  import opened Backend
  import opened Ingestion
  import opened Watcher
  import U = UploadEndpoint

  /** The places in the queue of a batch's jobs. */
  function PlacesOf(jobs: seq<Job>, b: string): set<nat> {
    set k | 0 <= k < |jobs| && jobs[k].batchId == b
  }

  /** Every task has queued at most the files it has dealt with, and a batch is the work of one task. */
  ghost predicate CountsOk(s: State) {
    && (forall b :: b in s.world.batches ==> |PlacesOf(s.world.jobs, b)| <= s.world.batches[b])
    && (s.poll.Some? ==>
          var t := s.poll.value;
          && t.batchId in s.world.batches && |t.names| == s.world.batches[t.batchId]
          && |PlacesOf(s.world.jobs, t.batchId)| <= t.next)
    && (forall k :: 0 <= k < |s.uploads| ==>
          var u := s.uploads[k];
          && u.batchId in s.world.batches && |u.files| == s.world.batches[u.batchId]
          && |PlacesOf(s.world.jobs, u.batchId)| <= u.next)
    && (forall i, j :: 0 <= i < j < |s.uploads| ==> s.uploads[i].batchId != s.uploads[j].batchId)
  }

  lemma PlacesAppend(jobs: seq<Job>, job: Job, b: string)
    ensures |PlacesOf(jobs + [job], b)| == |PlacesOf(jobs, b)| + if job.batchId == b then 1 else 0
  {
    if job.batchId == b {
      assert PlacesOf(jobs + [job], b) == PlacesOf(jobs, b) + {|jobs|};
    } else {
      assert PlacesOf(jobs + [job], b) == PlacesOf(jobs, b);
    }
  }

  lemma NoPlaces(w: World, b: string)
    requires WorldOk(w) && b !in w.batches
    ensures |PlacesOf(w.jobs, b)| == 0
  {
    forall k | 0 <= k < |w.jobs| ensures w.jobs[k].batchId != b {
      assert JobBacked(w, w.jobs[k]);
    }
    assert PlacesOf(w.jobs, b) == {};
  }

  /** The same tasks, none of them further back. */
  predicate GoneOn(s: State, s': State) {
    && (s'.poll.Some? ==>
          && s.poll.Some? && s'.poll.value.batchId == s.poll.value.batchId && s'.poll.value.names == s.poll.value.names
          && s.poll.value.next <= s'.poll.value.next)
    && |s'.uploads| == |s.uploads|
    && (forall k :: 0 <= k < |s.uploads| ==>
          && s'.uploads[k].batchId == s.uploads[k].batchId && s'.uploads[k].files == s.uploads[k].files
          && s.uploads[k].next <= s'.uploads[k].next)
  }

  lemma WatcherGoesOn(s: State, env: FileEnv)
    ensures GoneOn(s, Step(s, WatcherCall(env))) && Step(s, WatcherCall(env)).world.batches == s.world.batches
  {
  }

  lemma RequestGoesOn(s: State, k: nat, answers: U.StoreEnv)
    requires k < |s.uploads| ==> s.uploads[k].next <= |s.uploads[k].files|
    ensures var s' := Step(s, RequestCall(k, answers)); GoneOn(s, s') && s'.world.batches == s.world.batches
  {
  }

  lemma CallsGoOn(s: State, e: Event)
    requires StateOk(s) && !e.StartPoll? && !e.StartRequest?
    ensures GoneOn(s, Step(s, e)) && Step(s, e).world.batches == s.world.batches
  {
    match e
    case WatcherCall(env) => WatcherGoesOn(s, env);
    case RequestCall(k, answers) =>
      if k < |s.uploads| {
        assert UploadOk(s, s.uploads[k]);
      }
      RequestGoesOn(s, k, answers);
    case _ =>
  }

  lemma GoneOnCounts(s: State, s': State)
    requires CountsOk(s) && GoneOn(s, s')
    requires s'.world.jobs == s.world.jobs && s'.world.batches == s.world.batches
    ensures CountsOk(s')
  {
  }

  lemma StartPollCounts(s: State, e: Event)
    requires StateOk(s) && CountsOk(s) && e.StartPoll?
    ensures CountsOk(Step(s, e))
  {
    var id := CommittedId(s.world.batches, e.create);
    if id.Some? {
      NoPlaces(s.world, id.value);
    }
  }

  lemma StartRequestCounts(s: State, e: Event)
    requires StateOk(s) && CountsOk(s) && e.StartRequest?
    ensures CountsOk(Step(s, e))
  {
    var id := CommittedId(s.world.batches, e.create);
    if id.Some? {
      NoPlaces(s.world, id.value);
    }
  }

  /** Task `b` has dealt with one more file, and queued a job for it. */
  lemma QueuesCounts(s: State, s': State, job: Job)
    requires CountsOk(s) && GoneOn(s, s') && s'.world.batches == s.world.batches
    requires s'.world.jobs == s.world.jobs + [job]
    requires |PlacesOf(s.world.jobs, job.batchId)| < if job.batchId in s.world.batches
                                                     then s.world.batches[job.batchId] else 0
    requires s'.poll.Some? && s.poll.value.batchId == job.batchId ==> s.poll.value.next < s'.poll.value.next
    requires forall k :: 0 <= k < |s.uploads| && s.uploads[k].batchId == job.batchId ==>
               s.uploads[k].next < s'.uploads[k].next
    ensures CountsOk(s')
  {
    forall b ensures |PlacesOf(s'.world.jobs, b)| == |PlacesOf(s.world.jobs, b)| + if job.batchId == b then 1 else 0 {
      PlacesAppend(s.world.jobs, job, b);
    }
  }

  lemma QueueingGoesOn(s: State, env: FileEnv)
    requires StateOk(s) && s.poll.Some? && Step(s, WatcherCall(env)).world.jobs != s.world.jobs
    ensures var s', t := Step(s, WatcherCall(env)), s.poll.value;
            && s'.world.jobs == s.world.jobs + [QueuedBy(t)] && t.next < |t.names|
            && (s'.poll.Some? ==> s'.poll.value.next == t.next + 1)
  {
  }

  /** A step that queues a job of the poll under way. */
  lemma PollQueuesCounts(s: State, env: FileEnv)
    requires StateOk(s) && CountsOk(s) && s.poll.Some? && Step(s, WatcherCall(env)).world.jobs != s.world.jobs
    ensures CountsOk(Step(s, WatcherCall(env)))
  {
    NoUploadFor(s, s.poll.value.batchId);
    WatcherGoesOn(s, env);
    QueueingGoesOn(s, env);
    QueuesCounts(s, Step(s, WatcherCall(env)), QueuedBy(s.poll.value));
  }

  /** A step that queues a job of a request under way. */
  lemma RequestQueuesCounts(s: State, i: nat, answers: U.StoreEnv)
    requires StateOk(s) && CountsOk(s) && Step(s, RequestCall(i, answers)).world.jobs != s.world.jobs
    ensures CountsOk(Step(s, RequestCall(i, answers)))
  {
    var u := s.uploads[i];
    assert UploadOk(s, u);
    CallsGoOn(s, RequestCall(i, answers));
    JobsOfStep(s, RequestCall(i, answers));
    QueuesCounts(s, Step(s, RequestCall(i, answers)), Job(u.batchId, KeyAt(u), u.requestId));
  }

  lemma CountsStep(s: State, e: Event)
    requires StateOk(s) && CountsOk(s) && EventOk(e)
    ensures CountsOk(Step(s, e))
  {
    if e.StartPoll? {
      StartPollCounts(s, e);
    } else if e.StartRequest? {
      StartRequestCounts(s, e);
    } else if Step(s, e).world.jobs == s.world.jobs {
      CallsGoOn(s, e);
      GoneOnCounts(s, Step(s, e));
    } else if e.WatcherCall? {
      PollQueuesCounts(s, e.env);
    } else {
      RequestQueuesCounts(s, e.index, e.answers);
    }
  }

  /** In every run of single calls, no batch gets more jobs than its row counts files. */
  lemma {:induction false} NeverMoreJobsThanFiles(s: State, events: seq<Event>)
    requires StateOk(s) && CountsOk(s) && EventsOk(events)
    ensures CountsOk(Run(s, events))
  {
    if events != [] {
      var front, e := events[..|events| - 1], events[|events| - 1];
      assert e in events;
      NeverMoreJobsThanFiles(s, front);
      RunKeeps(s, front);
      CountsStep(Run(s, front), e);
    }
  }
}
