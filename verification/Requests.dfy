/** Upload requests among everything else: what others do between the calls of a request makes no difference to its jobs
    and its files. */
module Requests {
  import opened Options
  import opened PyStrings
  import opened BlobKeys
  import opened Validators
  import opened Backend
  import opened Ingestion
  import opened FileCounts
  import opened Polls
  import U = UploadEndpoint
  import Watcher

  /* ---- one request, and everyone else ---- */

  predicate Own(e: Event, k: nat) {
    e.RequestCall? && e.index == k
  }

  lemma WatcherTouchesScanned(s: State, env: Watcher.FileEnv)
    requires StateOk(s)
    ensures var e := WatcherCall(env);
            && (Touched(s, e).Some? ==> Touched(s, e).value.batch in s.scanned)
            && (forall job :: job in JobsQueued(s, e) ==> job.batchId in s.scanned)
  {
  }

  lemma RequestTouchesItsBatch(s: State, i: nat, answers: U.StoreEnv)
    requires i < |s.uploads|
    ensures var e := RequestCall(i, answers);
            && (Touched(s, e).Some? ==> Touched(s, e).value.batch == s.uploads[i].batchId)
            && (forall job :: job in JobsQueued(s, e) ==> job.batchId == s.uploads[i].batchId)
  {
  }

  lemma RequestBatch(s: State, k: nat)
    requires StateOk(s) && k < |s.uploads|
    ensures s.uploads[k].batchId !in s.scanned && s.uploads[k].batchId in s.world.batches
    ensures SlashFree(s.uploads[k].batchId)
  {
    assert UploadOk(s, s.uploads[k]);
  }

  /** A batch that an upload request has made is the work of that request alone. */
  lemma OthersTouchOtherBatches(s: State, e: Event, k: nat)
    requires StateOk(s) && CountsOk(s) && k < |s.uploads| && !Own(e, k)
    ensures Touched(s, e).Some? ==> Touched(s, e).value.batch != s.uploads[k].batchId
    ensures forall job :: job in JobsQueued(s, e) ==> job.batchId != s.uploads[k].batchId
  {
    RequestBatch(s, k);
    match e
    case WatcherCall(env) => WatcherTouchesScanned(s, env);
    case RequestCall(i, answers) =>
      if i < |s.uploads| {
        RequestTouchesItsBatch(s, i, answers);
      }
    case _ =>
  }

  /** Two states are the same to request `k`: its progress, the jobs of its batch, and the originals of its batch. */
  ghost predicate SameRequest(s: State, t: State, k: nat) {
    && k < |s.uploads| && k < |t.uploads| && s.uploads[k] == t.uploads[k]
    && BatchJobs(s.world.jobs, s.uploads[k].batchId) == BatchJobs(t.world.jobs, s.uploads[k].batchId)
    && forall f :: SameAt(s.world.blobs, t.world.blobs, KeyOf(Original(s.uploads[k].batchId, f)))
  }

  lemma OthersUnseenByRequest(s: State, e: Event, k: nat)
    requires StateOk(s) && CountsOk(s) && k < |s.uploads| && !Own(e, k)
    ensures SameRequest(s, Step(s, e), k)
  {
    var b := s.uploads[k].batchId;
    OthersTouchOtherBatches(s, e, k);
    UploadTasks(s, e);
    BatchJobsStep(s, e, b);
    assert JobsQueued(s, e) != [] ==> JobsQueued(s, e)[0] in JobsQueued(s, e);
    RequestBatch(s, k);
    forall f ensures SameAt(s.world.blobs, Step(s, e).world.blobs, KeyOf(Original(b, f))) {
      StepFrame(s, e, Original(b, f));
    }
  }

  lemma FilesKept(s: State, e: Event, k: nat)
    requires k < |s.uploads|
    ensures var s' := Step(s, e);
            && k < |s'.uploads| && s'.uploads[k].batchId == s.uploads[k].batchId
            && s'.uploads[k].files == s.uploads[k].files
  {
  }

  lemma SameTaskAfterCall(s: State, t: State, k: nat, answers: U.StoreEnv)
    requires k < |s.uploads| && k < |t.uploads| && s.uploads[k] == t.uploads[k]
    ensures var e := RequestCall(k, answers);
            && |Step(s, e).uploads| == |s.uploads| && |Step(t, e).uploads| == |t.uploads|
            && Step(s, e).uploads[k] == Step(t, e).uploads[k]
            && JobsQueued(s, e) == JobsQueued(t, e) && Touched(s, e) == Touched(t, e)
  {
  }

  lemma SameSlotAfterCall(s: State, t: State, k: nat, answers: U.StoreEnv, slot: Slot)
    requires StateOk(s) && StateOk(t) && SlashFree(slot.batch)
    requires k < |s.uploads| && k < |t.uploads| && s.uploads[k] == t.uploads[k]
    requires SameAt(s.world.blobs, t.world.blobs, KeyOf(slot))
    ensures var e := RequestCall(k, answers);
            SameAt(Step(s, e).world.blobs, Step(t, e).world.blobs, KeyOf(slot))
  {
    var e := RequestCall(k, answers);
    if Touched(s, e) != Some(slot) {
      StepFrame(s, e, slot);
      StepFrame(t, e, slot);
    }
  }

  lemma SameJobsAfterCall(s: State, t: State, k: nat, answers: U.StoreEnv, b: string)
    requires k < |s.uploads| && k < |t.uploads| && s.uploads[k] == t.uploads[k]
    requires BatchJobs(s.world.jobs, b) == BatchJobs(t.world.jobs, b)
    ensures var e := RequestCall(k, answers);
            BatchJobs(Step(s, e).world.jobs, b) == BatchJobs(Step(t, e).world.jobs, b)
  {
    SameTaskAfterCall(s, t, k, answers);
    BatchJobsStep(s, RequestCall(k, answers), b);
    BatchJobsStep(t, RequestCall(k, answers), b);
  }

  lemma OwnCallSeesTheSame(s: State, t: State, k: nat, answers: U.StoreEnv)
    requires StateOk(s) && StateOk(t) && SameRequest(s, t, k)
    ensures SameRequest(Step(s, RequestCall(k, answers)), Step(t, RequestCall(k, answers)), k)
  {
    var b, s', t' := s.uploads[k].batchId, Step(s, RequestCall(k, answers)), Step(t, RequestCall(k, answers));
    SameTaskAfterCall(s, t, k, answers);
    SameJobsAfterCall(s, t, k, answers, b);
    FilesKept(s, RequestCall(k, answers), k);
    RequestBatch(s, k);
    forall f ensures SameAt(s'.world.blobs, t'.world.blobs, KeyOf(Original(b, f))) {
      SameSlotAfterCall(s, t, k, answers, Original(b, f));
    }
  }

  /** The calls of request `k` itself. */
  function OwnCalls(events: seq<Event>, k: nat): seq<Event> {
    if events == [] then []
    else
      var last := events[|events| - 1];
      OwnCalls(events[..|events| - 1], k) + if Own(last, k) then [last] else []
  }

  lemma SameRequestTransitive(s: State, t: State, u: State, k: nat)
    requires SameRequest(s, t, k) && SameRequest(t, u, k)
    ensures SameRequest(s, u, k) && SameRequest(u, s, k)
  {
    forall f ensures SameAt(s.world.blobs, u.world.blobs, KeyOf(Original(s.uploads[k].batchId, f))) {
      assert SameAt(s.world.blobs, t.world.blobs, KeyOf(Original(s.uploads[k].batchId, f)));
      assert SameAt(t.world.blobs, u.world.blobs, KeyOf(Original(s.uploads[k].batchId, f)));
    }
  }

  /** A run with the calls of a request in it looks to the request like its own calls alone. */
  lemma {:induction false} OthersMakeNoDifferenceToRequest(s: State, events: seq<Event>, k: nat)
    requires StateOk(s) && CountsOk(s) && EventsOk(events) && k < |s.uploads|
    ensures SameRequest(Run(s, events), Run(s, OwnCalls(events, k)), k)
    ensures StateOk(Run(s, events)) && CountsOk(Run(s, events)) && StateOk(Run(s, OwnCalls(events, k)))
  {
    if events != [] {
      var front, e := events[..|events| - 1], events[|events| - 1];
      assert e in events;
      OthersMakeNoDifferenceToRequest(s, front, k);
      var t, own := Run(s, front), Run(s, OwnCalls(front, k));
      StateStep(t, e);
      CountsStep(t, e);
      if Own(e, k) {
        OwnCallSeesTheSame(t, own, k, e.answers);
        StateStep(own, e);
        RunLast(s, OwnCalls(front, k), e);
      } else {
        OthersUnseenByRequest(t, e, k);
        SameRequestTransitive(own, t, Step(t, e), k);
        assert OwnCalls(events, k) == OwnCalls(front, k);
      }
    }
  }

  /* ---- the order of its jobs ---- */

  function StartOf(r: U.Request): Event {
    StartRequest(r.permitted, r.files, r.requestId, r.create)
  }

  /** A request that gets as far as its batch. */
  predicate Starting(s: State, r: U.Request) {
    r.permitted && U.Refusal(r.files) == None && CreateReturns(s.world.batches, r.create)
  }

  /** The world in which its files are dealt with. */
  function WithBatch(w: World, r: U.Request): World
    requires r.create.Created?
  {
    w.(batches := w.batches[r.create.id := |r.files|])
  }

  lemma StartOfRequest(s: State, r: U.Request)
    requires Starting(s, r)
    ensures Step(s, StartOf(r)) ==
            s.(world := WithBatch(s.world, r),
               uploads := s.uploads + [UploadTask(r.create.id, r.requestId, r.files, 0, false)])
  {
  }

  /** The state that a request comes to when its first `n` files have been dealt with, and what others have done. */
  lemma RequestSeenFromOutside(s: State, r: U.Request, rest: seq<Event>, n: nat)
    requires StateOk(s) && CountsOk(s) && IdOk(r.create) && EventsOk(rest) && Starting(s, r) && n <= |r.files|
    requires OwnCalls(rest, |s.uploads|) == RequestCalls(|s.uploads|, r.env, n)
    ensures var s1, k := Step(s, StartOf(r)), |s.uploads|;
            && StateOk(s1) && CountsOk(s1) && StateOk(Run(s1, rest)) && CountsOk(Run(s1, rest))
            && k < |s1.uploads| && s1.uploads[k].files == r.files
            && SameRequest(Run(s1, rest), AfterUploads(s1, k, r.env, n), k)
  {
    var s1, k := Step(s, StartOf(r)), |s.uploads|;
    StateStep(s, StartOf(r));
    CountsStep(s, StartOf(r));
    StartOfRequest(s, r);
    OthersMakeNoDifferenceToRequest(s1, rest, k);
    FilesAreRequestCalls(s1, k, r.env, n);
  }

  /** The jobs of a batch whose request has dealt with its first `n` files alone. */
  lemma JobsOfRequestAlone(s: State, r: U.Request, n: nat)
    requires StateOk(s) && Starting(s, r) && n <= |r.files| && U.Refusal(r.files) == None
    ensures var w, b := WithBatch(s.world, r), r.create.id;
            var p := U.AfterFiles(w, r.files, b, r.requestId, r.env, n);
            && (p.interrupted.None? ==> BatchJobs(p.jobs, b) == U.JobsOf(r.files, b, r.requestId, n))
            && (p.interrupted.Some? ==>
                  var k := p.interrupted.value;
                  && k < n
                  && BatchJobs(p.jobs, b) ==
                     U.JobsOf(r.files, b, r.requestId,
                              if r.env(k).upload == Stored && r.env(k).enqueue == RaisedQueued then k + 1 else k))
  {
    var w, b := WithBatch(s.world, r), r.create.id;
    var p := U.AfterFiles(w, r.files, b, r.requestId, r.env, n);
    U.RefusalMeaning(r.files);
    U.AcceptableContent(r.files);
    U.JobsInOrder(w, r.files, b, r.requestId, r.env, n);
    var m := if p.interrupted.None? then n
             else
               var k := p.interrupted.value;
               if r.env(k).upload == Stored && r.env(k).enqueue == RaisedQueued then k + 1 else k;
    var jobs := U.JobsOf(r.files, b, r.requestId, m);
    assert p.jobs == s.world.jobs + jobs;
    assert s.world.jobs[..|s.world.jobs|] == s.world.jobs;
    NoBatchJobs(s.world, b, |s.world.jobs|);
    BatchJobsFor(s.world.jobs, jobs, b);
  }

  /** A request among other events: from its start on, whatever others do between its calls, its row counts its files,
      and when the first `n` of them have been dealt with, exactly these have jobs, in order and each with the key of
      its own name; if a call for file `k` raised, exactly the first `k`. (A queue call that raises after queueing
      leaves one job more.) */
  lemma RequestAmongOthers(s: State, r: U.Request, rest: seq<Event>, n: nat)
    requires StateOk(s) && CountsOk(s) && IdOk(r.create) && EventsOk(rest) && Starting(s, r) && n <= |r.files|
    requires OwnCalls(rest, |s.uploads|) == RequestCalls(|s.uploads|, r.env, n)
    ensures var t, b := Run(Step(s, StartOf(r)), rest), r.create.id;
            var p := U.AfterFiles(WithBatch(s.world, r), r.files, b, r.requestId, r.env, n);
            && b in t.world.batches && t.world.batches[b] == |r.files|
            && (p.interrupted.None? ==> BatchJobs(t.world.jobs, b) == U.JobsOf(r.files, b, r.requestId, n))
            && (p.interrupted.Some? ==>
                  var k := p.interrupted.value;
                  && k < n
                  && BatchJobs(t.world.jobs, b) ==
                     U.JobsOf(r.files, b, r.requestId,
                              if r.env(k).upload == Stored && r.env(k).enqueue == RaisedQueued then k + 1 else k))
  {
    var s1 := Step(s, StartOf(r));
    RequestSeenFromOutside(s, r, rest, n);
    StartOfRequest(s, r);
    RunKeeps(s1, rest);
    JobsOfRequestAlone(s, r, n);
  }

  /* ---- what its jobs find ---- */

  /** From the call that stores it on, a file that no later file of its request has the name of is under its key in
      every later state. */
  lemma RequestByteIntegrity(s: State, k: nat, put: U.StoreEnv, later: seq<Event>)
    requires StateOk(s) && CountsOk(s) && EventsOk(later) && put.upload != RaisedUnstored
    requires k < |s.uploads| && s.uploads[k].next < |s.uploads[k].files| && !s.uploads[k].stored
    requires var u := s.uploads[k];
             forall j :: u.next < j < |u.files| ==> U.NameOf(u.files[j]) != U.NameOf(u.files[u.next])
    ensures var u, blobs := s.uploads[k], Run(Step(s, RequestCall(k, put)), later).world.blobs;
            KeyAt(u) in blobs && blobs[KeyAt(u)] == u.files[u.next].content
  {
    var u, s1 := s.uploads[k], Step(s, RequestCall(k, put));
    var slot := Original(u.batchId, U.NameOf(u.files[u.next]));
    StateStep(s, RequestCall(k, put));
    RequestBatch(s, k);
    RequestStores(s, k, put);
    assert Sealed(s1, slot) by {
      SealedAfterStore(s, k, put);
    }
    SealedForEver(s1, slot, later);
  }

  lemma RequestStores(s: State, k: nat, put: U.StoreEnv)
    requires StateOk(s) && put.upload != RaisedUnstored
    requires k < |s.uploads| && s.uploads[k].next < |s.uploads[k].files| && !s.uploads[k].stored
    ensures var u, blobs := s.uploads[k], Step(s, RequestCall(k, put)).world.blobs;
            KeyAt(u) in blobs && blobs[KeyAt(u)] == u.files[u.next].content
  {
    assert UploadOk(s, s.uploads[k]) && U.Acceptable(s.uploads[k].files[s.uploads[k].next]);
  }

  /** Only the request itself stores originals for its batch. */
  lemma SealedByRequest(s: State, k: nat, f: string)
    requires CountsOk(s) && k < |s.uploads| && s.uploads[k].batchId !in s.scanned
    requires s.poll.Some? ==> s.poll.value.batchId in s.scanned
    requires forall j :: UploadFrom(s.uploads[k]) <= j < |s.uploads[k].files| ==> U.NameOf(s.uploads[k].files[j]) != f
    ensures Sealed(s, Original(s.uploads[k].batchId, f))
  {
  }

  lemma StoreMovesOn(s: State, k: nat, put: U.StoreEnv)
    requires k < |s.uploads| && s.uploads[k].next < |s.uploads[k].files| && !s.uploads[k].stored
    ensures var u, s1 := s.uploads[k], Step(s, RequestCall(k, put));
            && |s1.uploads| == |s.uploads| && s1.uploads[k].batchId == u.batchId && s1.uploads[k].files == u.files
            && u.next < UploadFrom(s1.uploads[k]) && s1.poll == s.poll && s1.scanned == s.scanned
  {
  }

  lemma SealedAfterStore(s: State, k: nat, put: U.StoreEnv)
    requires StateOk(s) && CountsOk(s)
    requires k < |s.uploads| && s.uploads[k].next < |s.uploads[k].files| && !s.uploads[k].stored
    requires var u := s.uploads[k];
             forall j :: u.next < j < |u.files| ==> U.NameOf(u.files[j]) != U.NameOf(u.files[u.next])
    ensures var u := s.uploads[k];
            Sealed(Step(s, RequestCall(k, put)), Original(u.batchId, U.NameOf(u.files[u.next])))
  {
    var s1, u := Step(s, RequestCall(k, put)), s.uploads[k];
    RequestBatch(s, k);
    StoreMovesOn(s, k, put);
    CountsStep(s, RequestCall(k, put));
    SealedByRequest(s1, k, U.NameOf(u.files[u.next]));
  }

  /** When a request has come to its end, nothing is stored for its batch any more. */
  lemma EndedIsSealed(s: State, k: nat, f: string)
    requires StateOk(s) && CountsOk(s) && k < |s.uploads| && s.uploads[k].next == |s.uploads[k].files|
    ensures Sealed(s, Original(s.uploads[k].batchId, f))
  {
    RequestBatch(s, k);
    SealedByRequest(s, k, f);
  }

  lemma SameContents(r: U.Request, b: string, blobs: map<string, Bytes>, blobs': map<string, Bytes>)
    requires forall f :: SameAt(blobs, blobs', KeyOf(Original(b, f)))
    ensures U.OwnContents(r, b, blobs) <==> U.OwnContents(r, b, blobs')
  {
    forall i | 0 <= i < |r.files| ensures SameAt(blobs, blobs', OriginalKey(b, U.NameOf(r.files[i]))) {
      assert SameAt(blobs, blobs', KeyOf(Original(b, U.NameOf(r.files[i]))));
    }
  }

  /** After an accepted request among other events, in every later state, every job finds its own file's content if and
      only if files of one name have one content. */
  lemma OwnContentAmongOthers(s: State, r: U.Request, rest: seq<Event>, later: seq<Event>)
    requires StateOk(s) && CountsOk(s) && IdOk(r.create) && EventsOk(rest) && EventsOk(later) && Starting(s, r)
    requires OwnCalls(rest, |s.uploads|) == RequestCalls(|s.uploads|, r.env, |r.files|)
    requires U.AfterRequest(s.world, r).1.Accepted?
    ensures var t := Run(Run(Step(s, StartOf(r)), rest), later);
            U.OwnContents(r, r.create.id, t.world.blobs) <==> U.NamesakesAreCopies(r.files)
  {
    var s1, k, n, b := Step(s, StartOf(r)), |s.uploads|, |r.files|, r.create.id;
    var t, alone := Run(s1, rest), AfterUploads(s1, k, r.env, n);
    RequestSeenFromOutside(s, r, rest, n);
    StartOfRequest(s, r);
    U.OwnContentIngested(s.world, r);
    assert alone.world.blobs == U.Ingested(s.world, r).0.blobs;
    SameContents(r, b, t.world.blobs, alone.world.blobs);
    RequestBatch(t, k);
    forall f ensures SameAt(t.world.blobs, Run(t, later).world.blobs, KeyOf(Original(b, f))) {
      EndedIsSealed(t, k, f);
      SealedForEver(t, Original(b, f), later);
    }
    SameContents(r, b, t.world.blobs, Run(t, later).world.blobs);
  }

  /* ---- what was sent ---- */

  /** A request has sent a file of that name and with those bytes for the batch. */
  ghost predicate Sent(s: State, b: string, name: string, bytes: Bytes) {
    exists k, j :: SentAt(s, b, name, bytes, k, j)
  }

  predicate SentAt(s: State, b: string, name: string, bytes: Bytes, k: nat, j: nat) {
    && k < |s.uploads| && j < |s.uploads[k].files| && s.uploads[k].batchId == b
    && s.uploads[k].files[j].content == bytes && U.NameOf(s.uploads[k].files[j]) == name
  }

  /** What a request has just stored is what it was sent. */
  predicate StoredAsSent(s: State, u: UploadTask) {
    u.stored ==>
      u.next < |u.files| && KeyAt(u) in s.world.blobs && s.world.blobs[KeyAt(u)] == u.files[u.next].content
  }

  /** A job that is not the watcher's names bytes that were sent under the name of its file. */
  ghost predicate JobSent(s: State, job: Job) {
    job.batchId !in s.scanned ==>
      job.blobKey in s.world.blobs && Sent(s, job.batchId, FileOf(job), s.world.blobs[job.blobKey])
  }

  ghost predicate SentOk(s: State) {
    && (forall k :: 0 <= k < |s.uploads| ==> StoredAsSent(s, s.uploads[k]))
    && (forall i :: 0 <= i < |s.world.jobs| ==> JobSent(s, s.world.jobs[i]))
  }

  /** What has been sent stays sent. */
  lemma SentStays(s: State, e: Event, b: string, name: string, bytes: Bytes)
    requires Sent(s, b, name, bytes)
    ensures Sent(Step(s, e), b, name, bytes)
  {
    var k, j :| SentAt(s, b, name, bytes, k, j);
    FilesKept(s, e, k);
    assert SentAt(Step(s, e), b, name, bytes, k, j);
  }

  lemma StoredAsSentStays(s: State, e: Event, k: nat)
    requires StateOk(s) && CountsOk(s) && k < |s.uploads| && !Own(e, k) && StoredAsSent(s, s.uploads[k])
    ensures StoredAsSent(Step(s, e), s.uploads[k])
  {
    var u := s.uploads[k];
    OthersUnseenByRequest(s, e, k);
    if u.stored {
      assert SameAt(s.world.blobs, Step(s, e).world.blobs, KeyOf(Original(u.batchId, U.NameOf(u.files[u.next]))));
    }
  }

  lemma OwnCallStoresAsSent(s: State, k: nat, answers: U.StoreEnv)
    requires k < |s.uploads| && StoredAsSent(s, s.uploads[k])
    ensures var s' := Step(s, RequestCall(k, answers)); k < |s'.uploads| && StoredAsSent(s', s'.uploads[k])
  {
  }

  lemma TasksStoreAsSent(s: State, e: Event)
    requires StateOk(s) && CountsOk(s) && SentOk(s)
    ensures var s' := Step(s, e); forall k :: 0 <= k < |s'.uploads| ==> StoredAsSent(s', s'.uploads[k])
  {
    var s' := Step(s, e);
    UploadTasks(s, e);
    forall k | 0 <= k < |s'.uploads| ensures StoredAsSent(s', s'.uploads[k]) {
      if k < |s.uploads| {
        if Own(e, k) {
          OwnCallStoresAsSent(s, k, e.answers);
        } else {
          StoredAsSentStays(s, e, k);
        }
      }
    }
  }

  /** A request that stores a file again stores what it was sent under that name. */
  lemma OverwrittenBySent(s: State, e: Event, slot: Slot)
    requires StateOk(s) && Touched(s, e) == Some(slot) && slot.batch !in s.scanned && KeyOf(slot) in s.world.blobs
    requires Sent(s, slot.batch, slot.name, s.world.blobs[KeyOf(slot)])
    ensures var blobs' := Step(s, e).world.blobs;
            KeyOf(slot) in blobs' && Sent(s, slot.batch, slot.name, blobs'[KeyOf(slot)])
  {
    if e.WatcherCall? {
      WatcherTouchesScanned(s, e.env);
    } else {
      var u := s.uploads[e.index];
      assert SentAt(s, slot.batch, slot.name, u.files[u.next].content, e.index, u.next);
    }
  }

  lemma OldJobSent(s: State, e: Event, i: nat)
    requires StateOk(s) && EventOk(e) && i < |s.world.jobs| && JobSent(s, s.world.jobs[i])
    ensures JobSent(Step(s, e), s.world.jobs[i])
  {
    var job := s.world.jobs[i];
    ScannedGrows(s, e);
    if job.batchId !in s.scanned {
      var slot, s' := Original(job.batchId, FileOf(job)), Step(s, e);
      assert JobBacked(s.world, job);
      if Touched(s, e) == Some(slot) {
        OverwrittenBySent(s, e, slot);
      } else {
        StepFrame(s, e, slot);
      }
      SentStays(s, e, job.batchId, FileOf(job), s'.world.blobs[job.blobKey]);
    }
  }

  lemma NewJobSent(s: State, e: Event, job: Job)
    requires StateOk(s) && EventOk(e) && SentOk(s) && JobsQueued(s, e) == [job]
    ensures JobSent(Step(s, e), job)
  {
    if e.RequestCall? {
      var u := s.uploads[e.index];
      var name := U.NameOf(u.files[u.next]);
      FileOfKey(u.batchId, name, u.requestId);
      assert StoredAsSent(s, u);
      assert SentAt(s, u.batchId, name, u.files[u.next].content, e.index, u.next);
      SentStays(s, e, u.batchId, name, u.files[u.next].content);
    }
  }

  lemma SentStep(s: State, e: Event)
    requires StateOk(s) && CountsOk(s) && SentOk(s) && EventOk(e)
    ensures SentOk(Step(s, e))
  {
    var jobs, s' := s.world.jobs + JobsQueued(s, e), Step(s, e);
    TasksStoreAsSent(s, e);
    JobsOfStep(s, e);
    forall i | 0 <= i < |jobs| ensures JobSent(s', jobs[i]) {
      if i < |s.world.jobs| {
        OldJobSent(s, e, i);
      } else {
        NewJobSent(s, e, jobs[i]);
      }
    }
  }

  /** In every run, a job that is not the watcher's names bytes that its request was sent under the name of its file. */
  lemma {:induction false} JobsNameWhatWasSent(s: State, events: seq<Event>)
    requires StateOk(s) && CountsOk(s) && SentOk(s) && EventsOk(events)
    ensures SentOk(Run(s, events))
  {
    if events != [] {
      var front, e := events[..|events| - 1], events[|events| - 1];
      assert e in events;
      JobsNameWhatWasSent(s, front);
      RunKeeps(s, front);
      NeverMoreJobsThanFiles(s, front);
      SentStep(Run(s, front), e);
    }
  }
}
