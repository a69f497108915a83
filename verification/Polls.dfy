/** Whole polls and whole requests: they are runs of single calls with nothing in between, and a watcher that keeps
    polling comes to rest. */
module Polls {
  import opened Options
  import opened BlobKeys
  import opened Validators
  import opened Backend
  import opened Watcher
  import opened WatcherProperties
  import opened Ingestion
  import U = UploadEndpoint

  lemma LastOf<T>(xs: seq<T>, x: T)
    ensures (xs + [x])[..|xs + [x]| - 1] == xs && (xs + [x])[|xs + [x]| - 1] == x
  {
  }

  lemma RunLast(s: State, events: seq<Event>, e: Event)
    ensures Run(s, events + [e]) == Step(Run(s, events), e)
  {
    LastOf(events, e);
  }

  lemma RunOne(s: State, e: Event)
    ensures Run(s, [e]) == Step(s, e)
  {
    RunLast(s, [], e);
    assert [] + [e] == [e];
  }

  lemma RunPair(s: State, a: Event, b: Event)
    ensures Run(s, [a, b]) == Step(Step(s, a), b)
  {
    RunOne(s, a);
    RunLast(s, [a], b);
    assert [a] + [b] == [a, b];
  }

  lemma RegroupLast<T>(xs: seq<T>, ys: seq<T>)
    requires ys != []
    ensures var front, last := ys[..|ys| - 1], ys[|ys| - 1]; ys == front + [last] && xs + ys == xs + front + [last]
  {
  }

  lemma {:induction false} RunConcat(s: State, events: seq<Event>, more: seq<Event>)
    ensures Run(s, events + more) == Run(Run(s, events), more)
  {
    if more == [] {
      assert events + more == events;
    } else {
      var front, e := more[..|more| - 1], more[|more| - 1];
      RegroupLast(events, more);
      RunConcat(s, events, front);
      RunLast(s, events + front, e);
      RunLast(Run(s, events), front, e);
    }
  }

  /* ---- a poll is a run of calls ---- */

  /** How many calls the pipeline makes for a file. */
  function CallsFor(o: FileOutcome): nat {
    match o
    case AlreadyPresent => 1
    case Aborted => 1
    case DownloadFailed => 2
    case Rejected => 3
    case UploadFailed => 3
    case EnqueueRaised(_) => 4
    case Dispatched => 4
    case Unreached => 0
  }

  function Repeated(s: State, env: FileEnv, n: nat): State {
    if n == 0 then s else Step(Repeated(s, env, n - 1), WatcherCall(env))
  }

  lemma {:induction false} RepeatedIsRun(s: State, env: FileEnv, n: nat)
    ensures Run(s, seq(n, _ => WatcherCall(env))) == Repeated(s, env, n)
  {
    if n > 0 {
      RepeatedIsRun(s, env, n - 1);
      RunLast(s, seq(n - 1, _ => WatcherCall(env)), WatcherCall(env));
      assert seq(n, _ => WatcherCall(env)) == seq(n - 1, _ => WatcherCall(env)) + [WatcherCall(env)];
    }
  }

  /** What the pipeline makes of a file, and where the poll goes from there. */
  function AfterPipeline(s: State, t: PollTask, env: FileEnv): State
    requires t.next < |t.names|
  {
    var after := AfterFile(Session(s.world, s.seen), t.names[t.next], t.batchId, t.requestId, env);
    var o := OutcomeOf(s.world, t.names[t.next], t.batchId, env);
    s.(world := after.world, seen := after.seen, poll := if Stops(o) then None else Advance(t))
  }

  lemma OneOrTwoCalls(s: State, t: PollTask, env: FileEnv)
    requires s.poll == Some(t) && t.next < |t.names| && t.stage.Checking?
    ensures var o := OutcomeOf(s.world, t.names[t.next], t.batchId, env);
            var s1 := Step(s, WatcherCall(env));
            && (CallsFor(o) == 1 ==> s1 == AfterPipeline(s, t, env))
            && (CallsFor(o) == 2 ==> Step(s1, WatcherCall(env)) == AfterPipeline(s, t, env))
            && (CallsFor(o) >= 3 ==>
                  var data := Downloaded(env.download).value;
                  var stage := if o.Rejected? then Quarantining(data) else Storing(data);
                  Step(s1, WatcherCall(env)) == s.(poll := Some(t.(stage := stage))))
  {
  }

  /** A rejected file that has been put away. */
  function PutAside(s: State, t: PollTask, data: Bytes, put: Put): State
    requires t.next < |t.names|
  {
    var name := t.names[t.next];
    var blobs := Uploaded(s.world.blobs, QuarantineKey(t.batchId, name), data, put);
    s.(world := s.world.(blobs := blobs), seen := s.seen + {name}, poll := Advance(t))
  }

  lemma PipelinePutsAside(s: State, t: PollTask, env: FileEnv)
    requires t.next < |t.names| && OutcomeOf(s.world, t.names[t.next], t.batchId, env).Rejected?
    ensures Downloaded(env.download).Some?
    ensures AfterPipeline(s, t, env) == PutAside(s, t, Downloaded(env.download).value, env.quarantine)
  {
  }

  lemma CallPutsAside(s: State, t: PollTask, data: Bytes, env: FileEnv)
    requires t.next < |t.names|
    ensures Step(s.(poll := Some(t.(stage := Quarantining(data)))), WatcherCall(env)) ==
            PutAside(s, t, data, env.quarantine)
  {
  }

  lemma StoreAndQueueCalls(s: State, t: PollTask, env: FileEnv)
    requires t.next < |t.names|
    requires var o := OutcomeOf(s.world, t.names[t.next], t.batchId, env); CallsFor(o) >= 3 && !o.Rejected?
    ensures var o := OutcomeOf(s.world, t.names[t.next], t.batchId, env);
            var s3 := Step(s.(poll := Some(t.(stage := Storing(Downloaded(env.download).value)))), WatcherCall(env));
            && (CallsFor(o) == 3 ==> s3 == AfterPipeline(s, t, env))
            && (CallsFor(o) == 4 ==> Step(s3, WatcherCall(env)) == AfterPipeline(s, t, env))
  {
  }

  /** The calls for one file do together what the pipeline does. */
  lemma FileIsCalls(s: State, t: PollTask, env: FileEnv)
    requires s.poll == Some(t) && t.next < |t.names| && t.stage.Checking?
    ensures Repeated(s, env, CallsFor(OutcomeOf(s.world, t.names[t.next], t.batchId, env))) == AfterPipeline(s, t, env)
  {
    var n := CallsFor(OutcomeOf(s.world, t.names[t.next], t.batchId, env));
    RepeatedFour(s, env);
    OneOrTwoCalls(s, t, env);
    if n >= 3 {
      if OutcomeOf(s.world, t.names[t.next], t.batchId, env).Rejected? {
        PipelinePutsAside(s, t, env);
        CallPutsAside(s, t, Downloaded(env.download).value, env);
      } else {
        StoreAndQueueCalls(s, t, env);
      }
    }
  }

  lemma RepeatedFour(s: State, env: FileEnv)
    ensures var c := WatcherCall(env);
            && Repeated(s, env, 1) == Step(s, c) && Repeated(s, env, 2) == Step(Step(s, c), c)
            && Repeated(s, env, 3) == Step(Repeated(s, env, 2), c)
            && Repeated(s, env, 4) == Step(Repeated(s, env, 3), c)
  {
    assert Repeated(s, env, 0) == s;
  }

  /** The calls of the first `n` files of a poll. */
  function FileCalls(q: Session, names: seq<string>, batchId: string, requestId: string, files: nat -> FileEnv, n: nat)
    : seq<Event>
    requires n <= |names|
  {
    if n == 0 then []
    else
      var o := AfterFiles(q, names, batchId, requestId, files, n).outcomes[n - 1];
      FileCalls(q, names, batchId, requestId, files, n - 1) + seq(CallsFor(o), _ => WatcherCall(files(n - 1)))
  }

  /** Where a poll is after its first `n` files. */
  function PollAfter(names: seq<string>, batchId: string, requestId: string, outcomes: seq<FileOutcome>, n: nat)
    : Option<PollTask>
    requires |outcomes| == n <= |names|
  {
    if (n > 0 && Stops(outcomes[n - 1])) || n == |names| then None
    else Some(PollTask(batchId, requestId, names, n, Checking))
  }

  /** A poll that has dealt with its first `n` files. */
  function AfterNames(s: State, names: seq<string>, batchId: string, requestId: string, files: nat -> FileEnv, n: nat)
    : State
    requires n <= |names|
  {
    var p := AfterFiles(Session(s.world, s.seen), names, batchId, requestId, files, n);
    s.(world := p.session.world, seen := p.session.seen, poll := PollAfter(names, batchId, requestId, p.outcomes, n))
  }

  lemma NextName(s: State, names: seq<string>, batchId: string, requestId: string, files: nat -> FileEnv, n: nat)
    requires 0 < n <= |names|
    ensures var o := AfterFiles(Session(s.world, s.seen), names, batchId, requestId, files, n).outcomes[n - 1];
            Repeated(AfterNames(s, names, batchId, requestId, files, n - 1), files(n - 1), CallsFor(o)) ==
            AfterNames(s, names, batchId, requestId, files, n)
  {
    var p := AfterFiles(Session(s.world, s.seen), names, batchId, requestId, files, n - 1);
    var before := AfterNames(s, names, batchId, requestId, files, n - 1);
    if n == 1 || !Stops(p.outcomes[n - 2]) {
      FileIsCalls(before, PollTask(batchId, requestId, names, n - 1, Checking), files(n - 1));
    }
  }

  lemma {:induction false} FilesAreCalls(s: State, names: seq<string>, batchId: string, requestId: string,
                                         files: nat -> FileEnv, n: nat)
    requires n <= |names| && names != [] && s.poll == Some(PollTask(batchId, requestId, names, 0, Checking))
    ensures Run(s, FileCalls(Session(s.world, s.seen), names, batchId, requestId, files, n)) ==
            AfterNames(s, names, batchId, requestId, files, n)
  {
    if n > 0 {
      var q := Session(s.world, s.seen);
      var o := AfterFiles(q, names, batchId, requestId, files, n).outcomes[n - 1];
      FilesAreCalls(s, names, batchId, requestId, files, n - 1);
      RunConcat(s, FileCalls(q, names, batchId, requestId, files, n - 1),
                seq(CallsFor(o), _ => WatcherCall(files(n - 1))));
      RepeatedIsRun(AfterNames(s, names, batchId, requestId, files, n - 1), files(n - 1), CallsFor(o));
      NextName(s, names, batchId, requestId, files, n);
    }
  }

  /** The events of a poll with nothing in between. */
  function PollEvents(q: Session, env: PollEnv): seq<Event> {
    var r := Poll(q, env);
    var start := [StartPoll(env.listing, env.requestId, env.create)];
    if r.batch.Some? && env.create.Created? then
      var q1 := q.(world := q.world.(batches := q.world.batches[r.batch.value := |r.names|]));
      start + FileCalls(q1, r.names, r.batch.value, env.requestId, env.files, |r.names|)
    else start
  }

  /** A poll that is not disturbed, as `SFTPWatcher.PollOnce` carries it out, is the run of its calls. */
  lemma PollIsCalls(s: State, env: PollEnv)
    requires s.poll.None?
    ensures var q := Session(s.world, s.seen);
            var r := Poll(q, env);
            Run(s, PollEvents(q, env)) ==
            s.(world := r.session.world, seen := r.session.seen,
               scanned := s.scanned + if r.batch.Some? then {r.batch.value} else {})
  {
    var q := Session(s.world, s.seen);
    var r, start := Poll(q, env), [StartPoll(env.listing, env.requestId, env.create)];
    var s1 := Run(s, start);
    RunOne(s, start[0]);
    if r.batch.Some? && env.create.Created? {
      FilesAreCalls(s1, r.names, r.batch.value, env.requestId, env.files, |r.names|);
      RunConcat(s, start, PollEvents(q, env)[1..]);
      assert PollEvents(q, env) == start + PollEvents(q, env)[1..];
    }
  }

  /* ---- a request is a run of calls ---- */

  function RequestCalls(k: nat, env: nat -> U.StoreEnv, n: nat): seq<Event> {
    if n == 0 then [] else RequestCalls(k, env, n - 1) + [RequestCall(k, env(n - 1)), RequestCall(k, env(n - 1))]
  }

  /** A request, the `k`-th, that has dealt with its first `n` files. */
  function AfterUploads(s: State, k: nat, env: nat -> U.StoreEnv, n: nat): State
    requires k < |s.uploads| && n <= |s.uploads[k].files|
  {
    var u := s.uploads[k];
    var p := U.AfterFiles(s.world, u.files, u.batchId, u.requestId, env, n);
    var next := if p.interrupted.Some? then |u.files| else n;
    s.(world := World(p.blobs, p.jobs, s.world.batches), uploads := s.uploads[k := u.(next := next)])
  }

  lemma NextUpload(s: State, k: nat, env: nat -> U.StoreEnv, n: nat)
    requires k < |s.uploads| && !s.uploads[k].stored && 0 < n <= |s.uploads[k].files|
    ensures var call := RequestCall(k, env(n - 1));
            Step(Step(AfterUploads(s, k, env, n - 1), call), call) == AfterUploads(s, k, env, n)
  {
    var u, call, before := s.uploads[k], RequestCall(k, env(n - 1)), AfterUploads(s, k, env, n - 1);
    var mid := Step(before, call);
    if before.uploads[k].next == |u.files| {
      assert mid == before;
    } else if !UploadReturns(u.files[n - 1].content, env(n - 1).upload) {
      assert Step(mid, call) == mid;
      assert mid.uploads == s.uploads[k := u.(next := |u.files|)];
    } else {
      assert mid.uploads == s.uploads[k := u.(next := n - 1, stored := true)];
      assert Step(mid, call).uploads == AfterUploads(s, k, env, n).uploads;
    }
  }

  lemma {:induction false} FilesAreRequestCalls(s: State, k: nat, env: nat -> U.StoreEnv, n: nat)
    requires k < |s.uploads| && s.uploads[k].next == 0 && !s.uploads[k].stored && n <= |s.uploads[k].files|
    ensures Run(s, RequestCalls(k, env, n)) == AfterUploads(s, k, env, n)
  {
    if n == 0 {
      assert s.uploads[k := s.uploads[k]] == s.uploads;
    } else {
      var call := RequestCall(k, env(n - 1));
      FilesAreRequestCalls(s, k, env, n - 1);
      RunConcat(s, RequestCalls(k, env, n - 1), [call, call]);
      RunPair(AfterUploads(s, k, env, n - 1), call, call);
      NextUpload(s, k, env, n);
    }
  }

  function RequestEvents(w: World, k: nat, r: U.Request): seq<Event> {
    var start := [StartRequest(r.permitted, r.files, r.requestId, r.create)];
    if r.permitted && U.Refusal(r.files) == None && CreateReturns(w.batches, r.create) then
      start + RequestCalls(k, r.env, |r.files|)
    else start
  }

  /** A request that is not disturbed, as `Uploader.UploadDocuments` carries it out, is the run of its calls. */
  lemma RequestIsCalls(s: State, r: U.Request)
    ensures var t := Run(s, RequestEvents(s.world, |s.uploads|, r));
            && t.world == U.AfterRequest(s.world, r).0
            && t.seen == s.seen && t.scanned == s.scanned && t.poll == s.poll && s.uploads <= t.uploads
  {
    var start, k := [StartRequest(r.permitted, r.files, r.requestId, r.create)], |s.uploads|;
    var s1 := Run(s, start);
    RunOne(s, start[0]);
    if r.permitted && U.Refusal(r.files) == None && CreateReturns(s.world.batches, r.create) {
      FilesAreRequestCalls(s1, k, r.env, |r.files|);
      RunConcat(s, start, RequestCalls(k, r.env, |r.files|));
    }
  }

  /* ---- what others do in between makes no difference to a poll ---- */

  /** The jobs of one batch, in order. */
  function BatchJobs(jobs: seq<Job>, b: string): seq<Job> {
    if jobs == [] then []
    else
      var last := jobs[|jobs| - 1];
      BatchJobs(jobs[..|jobs| - 1], b) + if last.batchId == b then [last] else []
  }

  lemma BatchJobsAppend(jobs: seq<Job>, more: seq<Job>, b: string)
    requires |more| <= 1
    ensures BatchJobs(jobs + more, b) ==
            BatchJobs(jobs, b) + if more != [] && more[0].batchId == b then more else []
  {
    if more == [] {
      assert jobs + more == jobs;
    } else {
      assert (jobs + more)[..|jobs|] == jobs && more == [more[0]];
    }
  }

  /** Two states are the same to the watcher and to one of its batches. */
  predicate SameView(s: State, t: State, b: string) {
    s.poll == t.poll && s.seen == t.seen && BatchJobs(s.world.jobs, b) == BatchJobs(t.world.jobs, b)
  }

  /** The existence check would find nothing. */
  predicate NothingThere(s: State) {
    s.poll.Some? ==>
      var t := s.poll.value;
      t.next < |t.names| && (t.stage.Checking? ==> OriginalKey(t.batchId, t.names[t.next]) !in s.world.blobs)
  }

  lemma SamePollAfterCall(s: State, t: State, env: FileEnv)
    requires s.poll == t.poll && s.seen == t.seen && NothingThere(s) && NothingThere(t)
    ensures var s', t', e := Step(s, WatcherCall(env)), Step(t, WatcherCall(env)), WatcherCall(env);
            s'.poll == t'.poll && s'.seen == t'.seen && JobsQueued(s, e) == JobsQueued(t, e)
  {
  }

  lemma BatchJobsStep(s: State, e: Event, b: string)
    ensures BatchJobs(Step(s, e).world.jobs, b) ==
            BatchJobs(s.world.jobs, b)
            + if JobsQueued(s, e) != [] && JobsQueued(s, e)[0].batchId == b then JobsQueued(s, e) else []
  {
    JobsOfStep(s, e);
    BatchJobsAppend(s.world.jobs, JobsQueued(s, e), b);
  }

  lemma CallSeesTheSame(s: State, t: State, env: FileEnv, b: string)
    requires SameView(s, t, b) && NothingThere(s) && NothingThere(t)
    ensures SameView(Step(s, WatcherCall(env)), Step(t, WatcherCall(env)), b)
  {
    SamePollAfterCall(s, t, env);
    BatchJobsStep(s, WatcherCall(env), b);
    BatchJobsStep(t, WatcherCall(env), b);
  }

  /** Neither the watcher's own doing nor its end. */
  predicate Foreign(e: Event) {
    !e.WatcherCall? && !e.StartPoll? && !e.Restart?
  }

  lemma ForeignKeepsTask(s: State, e: Event)
    requires Foreign(e)
    ensures Step(s, e).poll == s.poll && Step(s, e).seen == s.seen
  {
  }

  lemma ForeignJobs(s: State, e: Event)
    requires StateOk(s) && Foreign(e)
    ensures forall job :: job in JobsQueued(s, e) ==> job.batchId !in s.scanned
  {
    if e.RequestCall? {
      RequestJobsNotScanned(s, e.index, e.answers);
    }
  }

  lemma OthersUnseen(s: State, e: Event, b: string)
    requires StateOk(s) && Foreign(e) && b in s.scanned
    ensures SameView(s, Step(s, e), b)
  {
    ForeignKeepsTask(s, e);
    ForeignJobs(s, e);
    BatchJobsStep(s, e, b);
    assert JobsQueued(s, e) != [] ==> JobsQueued(s, e)[0] in JobsQueued(s, e);
  }

  /** The watcher's own events. */
  function OwnEvents(events: seq<Event>): seq<Event> {
    if events == [] then []
    else
      var last := events[|events| - 1];
      OwnEvents(events[..|events| - 1]) + if Foreign(last) then [] else [last]
  }

  /** A run of the watcher's calls with events of others in between looks to the watcher like its calls alone. */
  lemma {:induction false} OthersMakeNoDifference(s: State, events: seq<Event>, b: string)
    requires StateOk(s) && EventsOk(events) && b in s.scanned
    requires forall e :: e in events ==> e.WatcherCall? || Foreign(e)
    ensures SameView(Run(s, events), Run(s, OwnEvents(events)), b)
    ensures EventsOk(OwnEvents(events)) && StateOk(Run(s, events)) && StateOk(Run(s, OwnEvents(events)))
    ensures b in Run(s, events).scanned
  {
    if events != [] {
      var front, e := events[..|events| - 1], events[|events| - 1];
      assert e in events;
      OthersMakeNoDifference(s, front, b);
      var t, own := Run(s, front), Run(s, OwnEvents(front));
      StateStep(t, e);
      ScannedGrows(t, e);
      if Foreign(e) {
        OthersUnseen(t, e, b);
        assert OwnEvents(events) == OwnEvents(front);
      } else {
        CallSeesTheSame(t, own, e.env, b);
        StateStep(own, e);
        RunLast(s, OwnEvents(front), e);
      }
    }
  }

  lemma NoBatchJobs(w: World, b: string, n: nat)
    requires WorldOk(w) && b !in w.batches && n <= |w.jobs|
    ensures BatchJobs(w.jobs[..n], b) == []
  {
    if n > 0 {
      NoBatchJobs(w, b, n - 1);
      JobsBatch(w, n - 1);
      assert w.jobs[..n][..n - 1] == w.jobs[..n - 1];
    }
  }

  lemma {:induction false} BatchJobsFor(jobs: seq<Job>, more: seq<Job>, b: string)
    requires forall job :: job in more ==> job.batchId == b
    ensures BatchJobs(jobs + more, b) == BatchJobs(jobs, b) + more
  {
    if more == [] {
      assert jobs + more == jobs;
    } else {
      var front, last := more[..|more| - 1], more[|more| - 1];
      BatchJobsFor(jobs, front, b);
      BatchJobsAppend(jobs + front, [last], b);
      assert jobs + more == jobs + front + [last] && last in more;
    }
  }

  /** A poll that runs alone: the jobs of its batch, and its row. */
  lemma PollAlone(s: State, env: PollEnv)
    requires StateOk(s) && s.poll.None? && Poll(Session(s.world, s.seen), env).batch.Some?
    ensures var q := Session(s.world, s.seen);
            var r, t := Poll(q, env), Run(s, PollEvents(q, env));
            && t.poll == None && t.seen == r.session.seen && |r.outcomes| == |r.names|
            && BatchJobs(t.world.jobs, r.batch.value) ==
               JobsFor(QueuedNames(r.names, r.outcomes), r.batch.value, env.requestId)
  {
    var q := Session(s.world, s.seen);
    var r := Poll(q, env);
    PollIsCalls(s, env);
    PollEffect(q, env);
    NoBatchJobs(s.world, r.batch.value, |s.world.jobs|);
    assert s.world.jobs[..|s.world.jobs|] == s.world.jobs;
    BatchJobsFor(s.world.jobs, JobsFor(QueuedNames(r.names, r.outcomes), r.batch.value, env.requestId), r.batch.value);
  }

  lemma StartOfPoll(s: State, env: PollEnv)
    requires s.poll.None? && Poll(Session(s.world, s.seen), env).batch.Some?
    ensures var r := Poll(Session(s.world, s.seen), env);
            var s1 := Step(s, StartPoll(env.listing, env.requestId, env.create));
            && r.batch.value in s1.scanned && r.batch.value in s1.world.batches
            && s1.world.batches[r.batch.value] == |r.names|
  {
  }

  /** A poll among other events: from its start on, whatever others do between its calls, it comes to the same end as
      if it ran alone. Its names are settled or left, and its batch gets its jobs, as the closed form of a poll says. */
  lemma PollAmongOthers(s: State, env: PollEnv, rest: seq<Event>)
    requires StateOk(s) && s.poll.None? && IdOk(env.create) && ListingOk(env) && EventsOk(rest)
    requires Poll(Session(s.world, s.seen), env).batch.Some?
    requires forall e :: e in rest ==> e.WatcherCall? || Foreign(e)
    requires OwnEvents(rest) == PollEvents(Session(s.world, s.seen), env)[1..]
    ensures var r := Poll(Session(s.world, s.seen), env);
            var t := Run(Step(s, StartPoll(env.listing, env.requestId, env.create)), rest);
            && t.poll == None && t.seen == r.session.seen && |r.outcomes| == |r.names|
            && r.batch.value in t.world.batches && t.world.batches[r.batch.value] == |r.names|
            && BatchJobs(t.world.jobs, r.batch.value) ==
               JobsFor(QueuedNames(r.names, r.outcomes), r.batch.value, env.requestId)
  {
    var q, start := Session(s.world, s.seen), StartPoll(env.listing, env.requestId, env.create);
    var s1, own := Step(s, start), OwnEvents(rest);
    StateStep(s, start);
    StartOfPoll(s, env);
    OthersMakeNoDifference(s1, rest, Poll(q, env).batch.value);
    RunKeeps(s1, rest);
    RunOne(s, start);
    RunConcat(s, [start], own);
    assert PollEvents(q, env) == [start] + own;
    PollAlone(s, env);
  }

  /* ---- after a restart ---- */

  /** No call for the file raises. */
  predicate Smooth(env: FileEnv) {
    env.stat.Answers? && Downloaded(env.download).Some? && env.upload == Stored && env.enqueue == Enqueue.Queued
  }

  function BytesFetched(env: FileEnv): Bytes {
    if Downloaded(env.download).Some? then Downloaded(env.download).value else []
  }

  /** The pipeline of a file for which no call raises and nothing is stored. */
  lemma SmoothFile(w: World, name: string, batchId: string, env: FileEnv)
    requires Smooth(env) && OriginalKey(batchId, name) !in w.blobs
    ensures OutcomeOf(w, name, batchId, env) ==
            if WatcherAccepts(name, BytesFetched(env)) then Dispatched else Rejected
  {
  }

  /** Whatever a poll has done so far, nothing is stored for its next file. */
  lemma NothingStoredYet(s: State, names: seq<string>, batchId: string, requestId: string, files: nat -> FileEnv,
                         n: nat)
    requires StateOk(s) && n < |names| && s.poll == Some(PollTask(batchId, requestId, names, 0, Checking))
    requires var p := AfterFiles(Session(s.world, s.seen), names, batchId, requestId, files, n);
             n > 0 ==> !Stops(p.outcomes[n - 1])
    ensures var p := AfterFiles(Session(s.world, s.seen), names, batchId, requestId, files, n);
            OriginalKey(batchId, names[n]) !in p.session.world.blobs
  {
    var q := Session(s.world, s.seen);
    FilesAreCalls(s, names, batchId, requestId, files, n);
    OnlyWatcherCalls(q, names, batchId, requestId, files, n);
    RunKeeps(s, FileCalls(q, names, batchId, requestId, files, n));
    assert PollOk(AfterNames(s, names, batchId, requestId, files, n), PollTask(batchId, requestId, names, n, Checking));
  }

  /** The last of the first `n` outcomes. */
  lemma LastOutcome(q: Session, names: seq<string>, batchId: string, requestId: string, files: nat -> FileEnv, n: nat)
    requires 0 < n <= |names|
    ensures var p, before := AfterFiles(q, names, batchId, requestId, files, n),
                             AfterFiles(q, names, batchId, requestId, files, n - 1);
            && p.outcomes[..n - 1] == before.outcomes
            && (n == 1 || !Stops(before.outcomes[n - 2]) ==>
                  p.outcomes[n - 1] == OutcomeOf(before.session.world, names[n - 1], batchId, files(n - 1)))
  {
  }

  /** In a poll whose calls do not raise, every file is dispatched or rejected. */
  lemma {:induction false} SmoothFiles(s: State, names: seq<string>, batchId: string, requestId: string,
                                       files: nat -> FileEnv, n: nat, i: nat)
    requires StateOk(s) && i < n <= |names| && s.poll == Some(PollTask(batchId, requestId, names, 0, Checking))
    requires forall j: nat :: j < n ==> Smooth(files(j))
    ensures AfterFiles(Session(s.world, s.seen), names, batchId, requestId, files, n).outcomes[i] ==
            if WatcherAccepts(names[i], BytesFetched(files(i))) then Dispatched else Rejected
    decreases n - 1, 1
  {
    var q := Session(s.world, s.seen);
    LastOutcome(q, names, batchId, requestId, files, n);
    if i < n - 1 {
      SmoothFiles(s, names, batchId, requestId, files, n - 1, i);
    } else {
      SmoothNext(s, names, batchId, requestId, files, i);
    }
  }

  lemma SmoothNext(s: State, names: seq<string>, batchId: string, requestId: string, files: nat -> FileEnv, i: nat)
    requires StateOk(s) && i < |names| && s.poll == Some(PollTask(batchId, requestId, names, 0, Checking))
    requires forall j: nat :: j <= i ==> Smooth(files(j))
    ensures var p := AfterFiles(Session(s.world, s.seen), names, batchId, requestId, files, i);
            && (i > 0 ==> !Stops(p.outcomes[i - 1]))
            && OutcomeOf(p.session.world, names[i], batchId, files(i)) ==
               if WatcherAccepts(names[i], BytesFetched(files(i))) then Dispatched else Rejected
    decreases i, 0
  {
    var p := AfterFiles(Session(s.world, s.seen), names, batchId, requestId, files, i);
    if i > 0 {
      SmoothFiles(s, names, batchId, requestId, files, i, i - 1);
    }
    NothingStoredYet(s, names, batchId, requestId, files, i);
    SmoothFile(p.session.world, names[i], batchId, files(i));
  }

  lemma {:induction false} OnlyWatcherCalls(q: Session, names: seq<string>, batchId: string, requestId: string,
                                            files: nat -> FileEnv, n: nat)
    requires n <= |names|
    ensures EventsOk(FileCalls(q, names, batchId, requestId, files, n))
  {
    if n > 0 {
      OnlyWatcherCalls(q, names, batchId, requestId, files, n - 1);
    }
  }

  /** A file that a poll queues has its job among those the poll adds. */
  lemma PollAddsJob(q: Session, env: PollEnv, i: nat)
    requires i < |Poll(q, env).outcomes| == |Poll(q, env).names| && HasJob(Poll(q, env).outcomes[i])
    ensures var r := Poll(q, env);
            && r.batch.Some? && q.world.jobs <= r.session.world.jobs
            && Job(r.batch.value, OriginalKey(r.batch.value, r.names[i]), env.requestId)
               in r.session.world.jobs[|q.world.jobs|..]
  {
    var r := Poll(q, env);
    PollEffect(q, env);
    QueuedMember(r.names, r.outcomes, i);
    var queued := QueuedNames(r.names, r.outcomes);
    var k :| 0 <= k < |queued| && queued[k] == r.names[i];
    var added := JobsFor(queued, r.batch.value, env.requestId);
    assert added[k] in added;
    assert r.session.world.jobs[|q.world.jobs|..] == added;
  }

  /** The poll of a session that has seen nothing, when no call raises. */
  lemma SmoothPoll(s: State, env: PollEnv, i: nat)
    requires StateOk(s) && s.poll.None? && s.seen == {}
    requires IdOk(env.create) && ListingOk(env) && env.listing.Some? && i < |env.listing.value|
    requires CreateReturns(s.world.batches, env.create)
    requires forall j: nat :: j < |env.listing.value| ==> Smooth(env.files(j))
    ensures var r := Poll(Session(s.world, {}), env);
            && r.batch == Some(env.create.id) && r.names == env.listing.value && |r.outcomes| == |r.names|
            && r.outcomes[i] == if WatcherAccepts(r.names[i], BytesFetched(env.files(i))) then Dispatched else Rejected
  {
    var names, start := env.listing.value, StartPoll(env.listing, env.requestId, env.create);
    AllNew(names);
    StateStep(s, start);
    SmoothFiles(Step(s, start), names, env.create.id, env.requestId, env.files, |names|, i);
  }

  /** The other half of at-most-once: it is not kept across sessions. After a restart, a poll whose calls do not raise
      queues every file again that it lists and accepts, whatever is already queued for it. */
  lemma RestartQueuesAgain(s: State, env: PollEnv, i: nat)
    requires StateOk(s) && IdOk(env.create) && ListingOk(env) && env.listing.Some? && i < |env.listing.value|
    requires CreateReturns(s.world.batches, env.create)
    requires forall j: nat :: j < |env.listing.value| ==> Smooth(env.files(j))
    requires WatcherAccepts(env.listing.value[i], BytesFetched(env.files(i)))
    ensures var q := Session(s.world, {});
            var t := Run(Step(s, Restart), PollEvents(q, env));
            var job := Job(env.create.id, OriginalKey(env.create.id, env.listing.value[i]), env.requestId);
            && s.world.jobs <= t.world.jobs && job in t.world.jobs[|s.world.jobs|..]
            && job.batchId in t.scanned && FileOf(job) == env.listing.value[i]
  {
    var q := Session(s.world, {});
    StateStep(s, Restart);
    SmoothPoll(Step(s, Restart), env, i);
    PollIsCalls(Step(s, Restart), env);
    PollAddsJob(q, env, i);
    FileOfKey(env.create.id, env.listing.value[i], env.requestId);
  }

  lemma {:induction false} AllNew(listing: seq<string>)
    ensures NewNames(listing, {}) == listing
  {
    if listing != [] {
      AllNew(listing[1..]);
    }
  }

  /* ---- progress ---- */

  /** A poll, and the world it finds: between two polls anything may have happened to it. */
  datatype Turn = Turn(world: World, env: PollEnv)

  function TurnResult(seen: set<string>, turn: Turn): PollResult {
    Poll(Session(turn.world, seen), turn.env)
  }

  /** A poll suffers a failure when some call it made left a file unsettled. */
  predicate Suffers(r: PollResult) {
    exists o :: o in r.outcomes && !Settled(o)
  }

  function BatchesMade(seen: set<string>, turns: seq<Turn>): nat
    decreases |turns|
  {
    if turns == [] then 0
    else
      var r := TurnResult(seen, turns[0]);
      (if r.batch.Some? then 1 else 0) + BatchesMade(r.session.seen, turns[1..])
  }

  function Failures(seen: set<string>, turns: seq<Turn>): nat
    decreases |turns|
  {
    if turns == [] then 0
    else
      var r := TurnResult(seen, turns[0]);
      (if Suffers(r) then 1 else 0) + Failures(r.session.seen, turns[1..])
  }

  /** A call that the poll makes for its `i`-th file raises, if the poll gets that far. */
  predicate CallRaises(env: PollEnv, i: nat) {
    env.files(i).stat.Raises? || Downloaded(env.files(i).download) == None || env.files(i).upload != Stored
  }

  lemma {:induction false} UnsettledFile(q: Session, names: seq<string>, batchId: string, requestId: string,
                                         files: nat -> FileEnv, n: nat, i: nat)
    requires i < n <= |names| && !Settled(AfterFiles(q, names, batchId, requestId, files, n).outcomes[i])
    ensures exists j: nat :: j <= i && CallRaises(PollEnv(None, "", RaisedBefore, files), j)
  {
    var p := AfterFiles(q, names, batchId, requestId, files, n - 1);
    if i < n - 1 {
      UnsettledFile(q, names, batchId, requestId, files, n - 1, i);
    } else if n > 1 && Stops(p.outcomes[n - 2]) {
      UnsettledFile(q, names, batchId, requestId, files, n - 1, n - 2);
    } else {
      assert CallRaises(PollEnv(None, "", RaisedBefore, files), i);
    }
  }

  /** A poll only suffers if one of its calls raised: the create call after the row was committed, or a stat, a download
      or an upload. */
  lemma SuffersOnlyFromACall(seen: set<string>, turn: Turn)
    requires Suffers(TurnResult(seen, turn))
    ensures || turn.env.create.RaisedAfter?
            || exists i: nat :: i < |TurnResult(seen, turn).names| && CallRaises(turn.env, i)
  {
    var r, q := TurnResult(seen, turn), Session(turn.world, seen);
    if turn.env.create.Created? {
      var o :| o in r.outcomes && !Settled(o);
      var i :| 0 <= i < |r.outcomes| && r.outcomes[i] == o;
      var q1 := q.(world := q.world.(batches := q.world.batches[r.batch.value := |r.names|]));
      UnsettledFile(q1, r.names, r.batch.value, turn.env.requestId, turn.env.files, |r.names|, i);
      var j: nat :| j <= i && CallRaises(PollEnv(None, "", RaisedBefore, turn.env.files), j);
      assert CallRaises(turn.env, j);
    }
  }

  /** Every poll lists the same directory, or cannot list it. */
  ghost predicate FixedDirectory(turns: seq<Turn>, dir: seq<string>) {
    forall i :: 0 <= i < |turns| ==> turns[i].env.listing == None || turns[i].env.listing == Some(dir)
  }

  lemma CleanPollSettles(seen: set<string>, turn: Turn)
    requires TurnResult(seen, turn).batch.Some? && !Suffers(TurnResult(seen, turn))
    ensures turn.env.listing.Some?
    ensures forall f :: f in turn.env.listing.value ==> f in TurnResult(seen, turn).session.seen
  {
    var r := TurnResult(seen, turn);
    PollEffect(Session(turn.world, seen), turn.env);
    forall f | f in turn.env.listing.value ensures f in r.session.seen {
      if f !in seen {
        assert f in r.names;
        var i :| 0 <= i < |r.names| && r.names[i] == f;
        assert r.outcomes[i] in r.outcomes;
        assert f in SettledNames(r.names, r.outcomes);
      }
    }
  }

  lemma {:induction false} NothingNew(listing: seq<string>, seen: set<string>)
    requires forall f :: f in listing ==> f in seen
    ensures NewNames(listing, seen) == []
  {
    if listing != [] {
      NothingNew(listing[1..], seen);
    }
  }

  /** Once every listed name is settled, polls change nothing. */
  lemma {:induction false} SettledDirectoryIsQuiet(seen: set<string>, turns: seq<Turn>, dir: seq<string>)
    requires FixedDirectory(turns, dir) && forall f :: f in dir ==> f in seen
    ensures BatchesMade(seen, turns) == 0
    ensures forall i :: 0 <= i < |turns| ==> TurnResult(seen, turns[i]).session == Session(turns[i].world, seen)
  {
    NothingNew(dir, seen);
    if turns != [] {
      assert turns[0].env.listing == None || turns[0].env.listing == Some(dir);
      SettledDirectoryIsQuiet(seen, turns[1..], dir);
      forall i | 0 < i < |turns| ensures TurnResult(seen, turns[i]).session == Session(turns[i].world, seen) {
        assert turns[i] == turns[1..][i - 1];
      }
    }
  }

  /** Over a fixed directory, polls that suffer `k` failures make at most `k + 1` batches. */
  lemma {:induction false} ProgressBound(seen: set<string>, turns: seq<Turn>, dir: seq<string>)
    requires FixedDirectory(turns, dir)
    ensures BatchesMade(seen, turns) <= Failures(seen, turns) + 1
    decreases |turns|
  {
    if turns != [] {
      var r := TurnResult(seen, turns[0]);
      if r.batch.Some? && !Suffers(r) {
        CleanPollSettles(seen, turns[0]);
        assert turns[0].env.listing == Some(dir);
        SettledDirectoryIsQuiet(r.session.seen, turns[1..], dir);
      } else {
        ProgressBound(r.session.seen, turns[1..], dir);
      }
    }
  }
}
