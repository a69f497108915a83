/** The whole pipeline: watcher, upload endpoint, object store, queue, workers, database, cache and readers as one
    machine. There is one batch table; workers draw their jobs from the queue and their images from the store. */
module EndToEnd {
  import opened Options
  import opened PyStrings
  import opened BlobKeys
  import opened Validators
  import opened Records
  import opened CacheKeys
  import opened Transactions
  import opened Backend
  import opened Worker
  import opened FileCounts
  import opened Requests
  import opened BatchProperties
  import I = Ingestion
  import P = Protocol
  import J = JobProperties
  import U = UploadEndpoint
  import Interleavings
  import Watcher

  /** `taken[i]` is the place in the queue of the job that worker job `i` carries out. */
  datatype System = System(store: I.State, api: P.State, taken: seq<nat>)

  /** `Ingest`: a call of the watcher or the endpoint, or an overlay upload; `creator` is the caller of an upload
      request. `Take`: a worker takes a job from the queue, and gets as far as its first call. */
  datatype Event =
    | Ingest(step: I.Event, creator: Option<Actor>)
    | Api(event: P.Event)
    | Take(place: nat)

  /** What the machine runs with: the pages of the list readers, and the classifier. */
  datatype Setup = Setup(pages: Pages, model: Model)

  /** The batch row an ingestion event inserts. */
  function RowOf(s: I.State, e: I.Event): Option<(string, nat)> {
    match e
    case StartPoll(listing, _, create) =>
      var names := if listing.Some? then Watcher.NewNames(listing.value, s.seen) else [];
      var id := CommittedId(s.world.batches, create);
      if s.poll.Some? || names == [] || id == None then None else Some((id.value, |names|))
    case StartRequest(permitted, files, _, create) =>
      var id := CommittedId(s.world.batches, create);
      if !permitted || U.Refusal(files).Some? || id == None then None else Some((id.value, |files|))
    case _ => None
  }

  /** The call that inserts it; the watcher's batches have no creator. */
  function CreateCall(row: (string, nat), e: I.Event, creator: Option<Actor>): Call {
    CreateBatch(row.0, row.1, if e.StartPoll? then None else creator)
  }

  /** What a worker makes of a job and the bytes it has read for it. */
  type Reading = (Job, Bytes) -> PredictionData

  function ReadingOf(model: Model): Reading {
    (job: Job, image) => DataFor(job.batchId, job.blobKey, image, model)
  }

  /** The data of the job at a place in the queue, as a worker finds it. */
  function DataAt(w: World, place: nat, read: Reading): PredictionData
    requires place < |w.jobs| && w.jobs[place].blobKey in w.blobs
  {
    read(w.jobs[place], w.blobs[w.jobs[place].blobKey])
  }

  /** What an event is to the store and to the protocol; a row that the database refuses makes the event void. */
  function StoreEvent(s: System, e: Event): seq<I.Event> {
    if !e.Ingest? then []
    else
      match RowOf(s.store, e.step)
      case None => [e.step]
      case Some(row) => if Tx(s.api.db, CreateCall(row, e.step, e.creator)).Committed? then [e.step] else []
  }

  function ApiEvent(s: System, e: Event, setup: Setup): seq<P.Event> {
    match e
    case Ingest(step, creator) =>
      (match RowOf(s.store, step)
       case None => []
       case Some(row) =>
         var call := CreateCall(row, step, creator);
         if Tx(s.api.db, call).Committed? then [P.Request(call, true)] else [])
    case Api(event) => if event.Spawn? || (event.Request? && event.call.CreateBatch?) then [] else [event]
    case Take(place) =>
      if CanTake(s, place) then [P.Spawn(DataAt(s.store.world, place, ReadingOf(setup.model)))] else []
  }

  /** A job is taken once. */
  predicate CanTake(s: System, place: nat) {
    var w := s.store.world;
    place < |w.jobs| && place !in s.taken && w.jobs[place].blobKey in w.blobs
  }

  function Step(s: System, e: Event, setup: Setup): System {
    var store := StoreEvent(s, e);
    var api := ApiEvent(s, e, setup);
    System(if store == [] then s.store else I.Step(s.store, store[0]),
           if api == [] then s.api else P.Step(s.api, api[0], setup.pages),
           if e.Take? && CanTake(s, e.place) then s.taken + [e.place] else s.taken)
  }

  function Run(s: System, events: seq<Event>, setup: Setup): System {
    if events == [] then s else Step(Run(s, events[..|events| - 1], setup), events[|events| - 1], setup)
  }

  ghost predicate EventsOk(events: seq<Event>) {
    forall e :: e in events && e.Ingest? ==> I.EventOk(e.step)
  }

  /* ---- the two halves ---- */

  function StoreEvents(s: System, events: seq<Event>, setup: Setup): seq<I.Event> {
    if events == [] then []
    else
      var front := events[..|events| - 1];
      StoreEvents(s, front, setup) + StoreEvent(Run(s, front, setup), events[|events| - 1])
  }

  function ApiEvents(s: System, events: seq<Event>, setup: Setup): seq<P.Event> {
    if events == [] then []
    else
      var front := events[..|events| - 1];
      ApiEvents(s, front, setup) + ApiEvent(Run(s, front, setup), events[|events| - 1], setup)
  }

  lemma StoreRunAppend(s: I.State, events: seq<I.Event>, more: seq<I.Event>)
    requires |more| <= 1
    ensures I.Run(s, events + more) == if more == [] then I.Run(s, events) else I.Step(I.Run(s, events), more[0])
  {
    if more == [] {
      assert events + more == events;
    } else {
      assert (events + more)[..|events + more| - 1] == events;
    }
  }

  lemma ApiRunAppend(s: P.State, events: seq<P.Event>, more: seq<P.Event>, pages: Pages)
    requires |more| <= 1
    ensures P.Run(s, events + more, pages) ==
            if more == [] then P.Run(s, events, pages) else P.Step(P.Run(s, events, pages), more[0], pages)
  {
    if more == [] {
      assert events + more == events;
    } else {
      assert (events + more)[..|events + more| - 1] == events;
    }
  }

  /** Seen from the store, a run of the pipeline is a run of the store's machine; seen from the database, a run of the
      protocol. So whatever holds of those holds here. */
  lemma {:induction false} RunHasHalves(s: System, events: seq<Event>, setup: Setup)
    requires EventsOk(events)
    ensures Run(s, events, setup).store == I.Run(s.store, StoreEvents(s, events, setup))
    ensures I.EventsOk(StoreEvents(s, events, setup))
    ensures Run(s, events, setup).api == P.Run(s.api, ApiEvents(s, events, setup), setup.pages)
  {
    if events != [] {
      var front, e := events[..|events| - 1], events[|events| - 1];
      var t := Run(s, front, setup);
      RunHasHalves(s, front, setup);
      StoreRunAppend(s.store, StoreEvents(s, front, setup), StoreEvent(t, e));
      ApiRunAppend(s.api, ApiEvents(s, front, setup), ApiEvent(t, e, setup), setup.pages);
      assert e in events;
    }
  }

  /* ---- what links the halves ---- */

  /** The two machines have one batch table. */
  ghost predicate OneTable(s: System) {
    var batches, rows := s.store.world.batches, s.api.db.batches.rows;
    forall b :: (b in batches <==> b in rows) && (b in rows ==> batches[b] == rows[b].fileCount)
  }

  /** The bytes have passed validation as the job's file, and if the job is not the watcher's, they are the content of a
      file of that name that a request has sent for the batch. */
  ghost predicate BytesOf(store: I.State, job: Job, image: Bytes) {
    && I.Validated(I.FileOf(job), image)
    && (job.batchId !in store.scanned ==> Sent(store, job.batchId, I.FileOf(job), image))
  }

  ghost predicate OfSomeBytes(store: I.State, job: Job, data: PredictionData, read: Reading) {
    exists image :: BytesOf(store, job, image) && data == read(job, image)
  }

  /** What a worker records about a job of the queue: the class the model gives to such bytes; for a file of the
      watcher, to the very bytes under the job's key. */
  ghost predicate Recorded(store: I.State, place: nat, data: PredictionData, read: Reading)
    requires place < |store.world.jobs|
  {
    var w, job := store.world, store.world.jobs[place];
    && OfSomeBytes(store, job, data, read)
    && (job.batchId in store.scanned ==>
          && job.blobKey in w.blobs && WatcherAccepts(I.FileOf(job), w.blobs[job.blobKey])
          && data == read(job, w.blobs[job.blobKey]))
  }

  /** Every worker's job is as recorded. */
  ghost predicate AllRecorded(store: I.State, taken: seq<nat>, jobs: seq<P.RunningJob>, read: Reading)
    requires |taken| == |jobs|
  {
    forall i :: 0 <= i < |taken| ==>
      taken[i] < |store.world.jobs| && Recorded(store, taken[i], jobs[i].data, read)
  }

  ghost predicate TakenOk(store: I.State, taken: seq<nat>, jobs: seq<P.RunningJob>, read: Reading) {
    && |taken| == |jobs|
    && (forall i, j :: 0 <= i < j < |taken| ==> taken[i] != taken[j])
    && AllRecorded(store, taken, jobs, read)
  }

  ghost predicate Linked(s: System, read: Reading) {
    && I.StateOk(s.store) && CountsOk(s.store) && SentOk(s.store)
    && OneTable(s) && TakenOk(s.store, s.taken, s.api.jobs, read)
  }

  /** What was recorded stays right, whatever is stored later. */
  lemma RecordedStays(store: I.State, e: I.Event, place: nat, data: PredictionData, read: Reading)
    requires I.StateOk(store) && I.EventOk(e) && place < |store.world.jobs| && Recorded(store, place, data, read)
    ensures place < |I.Step(store, e).world.jobs| && Recorded(I.Step(store, e), place, data, read)
  {
    var job := store.world.jobs[place];
    I.StateStep(store, e);
    I.ScannedGrows(store, e);
    assert I.JobBacked(store.world, job) && I.ScannedJobOk(store, job);
    if job.batchId in store.scanned {
      I.SealedStays(store, e, Original(job.batchId, I.FileOf(job)));
    }
    BytesStay(store, e, job, data, read);
  }

  lemma BytesStay(store: I.State, e: I.Event, job: Job, data: PredictionData, read: Reading)
    requires store.scanned <= I.Step(store, e).scanned && OfSomeBytes(store, job, data, read)
    ensures OfSomeBytes(I.Step(store, e), job, data, read)
  {
    var image :| BytesOf(store, job, image) && data == read(job, image);
    if job.batchId !in store.scanned {
      SentStays(store, e, job.batchId, I.FileOf(job), image);
    }
    assert BytesOf(I.Step(store, e), job, image);
  }

  /** No event of the protocol but `Spawn` starts a job, and none changes what a job is about. */
  lemma JobsKeepData(s: P.State, e: P.Event, pages: Pages)
    requires !e.Spawn?
    ensures var s' := P.Step(s, e, pages);
            |s'.jobs| == |s.jobs| && forall i :: 0 <= i < |s.jobs| ==> s'.jobs[i].data == s.jobs[i].data
  {
  }

  /** Only creating a batch adds a row, and nothing changes a file count. */
  lemma TableKept(s: P.State, e: P.Event, pages: Pages)
    requires !(e.Request? && e.call.CreateBatch?)
    ensures var rows, rows' := s.db.batches.rows, P.Step(s, e, pages).db.batches.rows;
            rows'.Keys == rows.Keys && forall b :: b in rows ==> rows'[b].fileCount == rows[b].fileCount
  {
    P.StepIsCall(s, e, pages);
    var calls := P.CallOf(s, e);
    if calls != [] && Tx(s.db, calls[0].call).Committed? {
      forall b ensures b in Tx(s.db, calls[0].call).db.batches.rows <==> b in s.db.batches.rows {
        RowStep(s.db, calls[0].call, b);
      }
      forall b | b in s.db.batches.rows
        ensures Tx(s.db, calls[0].call).db.batches.rows[b].fileCount == s.db.batches.rows[b].fileCount
      {
        RowStep(s.db, calls[0].call, b);
      }
    }
  }

  /** The rows an ingestion event adds to the store's table. */
  lemma RowsOfStep(s: I.State, e: I.Event)
    ensures I.Step(s, e).world.batches ==
            if RowOf(s, e).Some? then s.world.batches[RowOf(s, e).value.0 := RowOf(s, e).value.1] else s.world.batches
  {
  }

  /** A poll or a request that makes a batch makes one pending row with the number of its files, and its log entry names
      the caller of the request, or nobody for the watcher. */
  lemma IngestCreatesRow(s: System, e: Event, setup: Setup)
    requires e.Ingest? && RowOf(s.store, e.step).Some?
    requires Tx(s.api.db, CreateCall(RowOf(s.store, e.step).value, e.step, e.creator)).Committed?
    ensures var (id, n) := RowOf(s.store, e.step).value;
            var db, db' := s.api.db, Step(s, e, setup).api.db;
            && id !in db.batches.rows && id in db'.batches.rows && db'.batches.rows[id] == Batch(id, Pending, n)
            && |db'.audit| == |db.audit| + 1 && db'.audit[|db.audit|].target == "batch:" + id
            && db'.audit[|db.audit|].actorId ==
               if e.step.StartRequest? && e.creator.Some? then Some(e.creator.value.id) else None
  {
  }

  lemma IngestKeepsTable(s: System, e: Event, setup: Setup)
    requires OneTable(s) && e.Ingest?
    ensures OneTable(Step(s, e, setup))
  {
    RowsOfStep(s.store, e.step);
  }

  lemma IngestKeepsLink(s: System, e: Event, setup: Setup)
    requires Linked(s, ReadingOf(setup.model)) && e.Ingest? && I.EventOk(e.step)
    ensures Linked(Step(s, e, setup), ReadingOf(setup.model))
  {
    var s' := Step(s, e, setup);
    IngestKeepsTable(s, e, setup);
    if StoreEvent(s, e) != [] {
      I.StateStep(s.store, e.step);
      CountsStep(s.store, e.step);
      SentStep(s.store, e.step);
      forall i | 0 <= i < |s.taken|
        ensures s.taken[i] < |s'.store.world.jobs|
        ensures Recorded(s'.store, s.taken[i], s.api.jobs[i].data, ReadingOf(setup.model))
      {
        RecordedStays(s.store, e.step, s.taken[i], s.api.jobs[i].data, ReadingOf(setup.model));
      }
    }
    assert s'.api.jobs == s.api.jobs;
  }

  lemma ApiKeepsLink(s: System, e: Event, setup: Setup)
    requires Linked(s, ReadingOf(setup.model)) && e.Api?
    ensures Linked(Step(s, e, setup), ReadingOf(setup.model))
  {
    if ApiEvent(s, e, setup) != [] {
      JobsKeepData(s.api, e.event, setup.pages);
      TableKept(s.api, e.event, setup.pages);
    }
  }

  lemma RecordedAppend(store: I.State, taken: seq<nat>, jobs: seq<P.RunningJob>, place: nat, job: P.RunningJob,
                       read: Reading)
    requires |taken| == |jobs| && AllRecorded(store, taken, jobs, read)
    requires place < |store.world.jobs| && Recorded(store, place, job.data, read)
    ensures AllRecorded(store, taken + [place], jobs + [job], read)
  {
  }

  /** What a worker reads from the queue and the store. */
  lemma DataIsRecorded(store: I.State, place: nat, read: Reading)
    requires I.StateOk(store) && SentOk(store)
    requires place < |store.world.jobs| && store.world.jobs[place].blobKey in store.world.blobs
    ensures Recorded(store, place, DataAt(store.world, place, read), read)
  {
    var job := store.world.jobs[place];
    assert I.JobBacked(store.world, job) && I.ScannedJobOk(store, job) && JobSent(store, job);
    assert BytesOf(store, job, store.world.blobs[job.blobKey]);
  }

  lemma TakeStep(s: System, e: Event, setup: Setup)
    requires e.Take?
    ensures var s' := Step(s, e, setup);
            && s'.store == s.store && s'.api.db == s.api.db
            && (if CanTake(s, e.place) then
                  && s'.taken == s.taken + [e.place]
                  && s'.api.jobs == s.api.jobs + [P.RunningJob(DataAt(s.store.world, e.place, ReadingOf(setup.model)),
                                                               P.Marking, None)]
                else s' == s)
  {
  }

  lemma TakenAppend(store: I.State, taken: seq<nat>, jobs: seq<P.RunningJob>, place: nat, read: Reading)
    requires I.StateOk(store) && SentOk(store) && TakenOk(store, taken, jobs, read) && place !in taken
    requires place < |store.world.jobs| && store.world.jobs[place].blobKey in store.world.blobs
    ensures var job := P.RunningJob(DataAt(store.world, place, read), P.Marking, None);
            TakenOk(store, taken + [place], jobs + [job], read)
  {
    var job := P.RunningJob(DataAt(store.world, place, read), P.Marking, None);
    DataIsRecorded(store, place, read);
    RecordedAppend(store, taken, jobs, place, job, read);
  }

  lemma TakeKeepsLink(s: System, e: Event, setup: Setup)
    requires Linked(s, ReadingOf(setup.model)) && e.Take?
    ensures Linked(Step(s, e, setup), ReadingOf(setup.model))
  {
    TakeStep(s, e, setup);
    if CanTake(s, e.place) {
      TakenAppend(s.store, s.taken, s.api.jobs, e.place, ReadingOf(setup.model));
    }
  }

  lemma {:induction false} RunKeepsLink(s: System, events: seq<Event>, setup: Setup)
    requires Linked(s, ReadingOf(setup.model)) && EventsOk(events)
    ensures Linked(Run(s, events, setup), ReadingOf(setup.model))
  {
    if events != [] {
      var front, e := events[..|events| - 1], events[|events| - 1];
      var t := Run(s, front, setup);
      assert e in events;
      RunKeepsLink(s, front, setup);
      if e.Ingest? {
        IngestKeepsLink(t, e, setup);
      } else if e.Api? {
        ApiKeepsLink(t, e, setup);
      } else {
        TakeKeepsLink(t, e, setup);
      }
    }
  }

  /* ---- from the file to the prediction ---- */

  /** A start of the pipeline: the link holds, no job has been taken, and the batch, if it is there, has no prediction
      and has not failed. */
  ghost predicate Start(s: System, read: Reading, b: string) {
    Linked(s, read) && J.Untouched(s.api, b)
  }

  /** A new deployment is such a start, for every batch there will be. */
  lemma NewDeployment(id: string, email: string, read: Reading, b: string)
    ensures var store := I.State(World(map[], [], map[]), {}, {}, None, []);
            Start(System(store, Interleavings.SeededState(id, email), []), read, b)
  {
    I.StartOk();
    Interleavings.SeededIsOk(id, email);
  }

  /** Every prediction of a batch is of a job of that batch that the watcher or the endpoint queued, and records what
      the model says of bytes that passed validation, under the file's own name and key. For a batch of the watcher
      these are the bytes that are still under that key; for a batch of a request, the content of a file of that name
      that the request has sent. */
  lemma PredictionOfAValidatedFile(s: System, events: seq<Event>, setup: Setup, b: string, p: string)
    returns (place: nat)
    requires Start(s, ReadingOf(setup.model), b) && EventsOk(events)
    requires p in J.PredictionsOn(Run(s, events, setup).api.db, b)
    ensures var t := Run(s, events, setup);
            && place in t.taken && place < |t.store.world.jobs|
            && var job, data := t.store.world.jobs[place], t.api.db.predictions.rows[p].data;
               && job.batchId == b && job.blobKey == OriginalKey(b, I.FileOf(job))
               && data.batchId == b && data.blobKey == job.blobKey && data.filename == FilenameOf(job.blobKey)
               && data.overlayKey == OverlayKey(b, FilenameOf(job.blobKey))
               && (exists image :: BytesOf(t.store, job, image)
                                   && (data.predictedClass, data.confidence) == setup.model.predict(image))
               && (b in t.store.scanned ==>
                     && job.blobKey in t.store.world.blobs
                     && WatcherAccepts(I.FileOf(job), t.store.world.blobs[job.blobKey])
                     && (data.predictedClass, data.confidence) ==
                        setup.model.predict(t.store.world.blobs[job.blobKey]))
               && (SlashFree(I.FileOf(job)) ==> data.filename == I.FileOf(job))
  {
    var t := Run(s, events, setup);
    var i := JobOfPrediction(s, events, setup, b, p);
    RunKeepsLink(s, events, setup);
    place := t.taken[i];
    RecordedMeans(t, i, setup.model);
    FilenameRoundTrip(b, I.FileOf(t.store.world.jobs[place]));
  }

  /** If files of one name in a request are copies, in particular if its names are distinct, a prediction of its batch
      records what the model says of the content of that very file. */
  lemma PredictionOfTheSentFile(s: System, events: seq<Event>, setup: Setup, b: string, p: string, k: nat, j: nat)
    requires Start(s, ReadingOf(setup.model), b) && EventsOk(events)
    requires p in J.PredictionsOn(Run(s, events, setup).api.db, b)
    requires var uploads := Run(s, events, setup).store.uploads;
             && k < |uploads| && uploads[k].batchId == b && j < |uploads[k].files|
             && U.NamesakesAreCopies(uploads[k].files)
    ensures var t := Run(s, events, setup);
            var file, data := t.store.uploads[k].files[j], t.api.db.predictions.rows[p].data;
            data.blobKey == OriginalKey(b, U.NameOf(file)) ==>
              (data.predictedClass, data.confidence) == setup.model.predict(file.content)
  {
    var t := Run(s, events, setup);
    var place := PredictionOfAValidatedFile(s, events, setup, b, p);
    var job, data := t.store.world.jobs[place], t.api.db.predictions.rows[p].data;
    var file := t.store.uploads[k].files[j];
    RunKeepsLink(s, events, setup);
    RequestBatch(t.store, k);
    var image :| BytesOf(t.store, job, image)
                 && (data.predictedClass, data.confidence) == setup.model.predict(image);
    if data.blobKey == OriginalKey(b, U.NameOf(file)) {
      OriginalKeyInjective(b, I.FileOf(job), b, U.NameOf(file));
      OnlySentContent(t.store, b, U.NameOf(file), image, k, j);
    }
  }

  /** What was sent under a name is one content, if namesakes are copies. */
  lemma OnlySentContent(store: I.State, b: string, name: string, bytes: Bytes, k: nat, j: nat)
    requires CountsOk(store) && Sent(store, b, name, bytes)
    requires k < |store.uploads| && store.uploads[k].batchId == b && j < |store.uploads[k].files|
    requires U.NamesakesAreCopies(store.uploads[k].files) && U.NameOf(store.uploads[k].files[j]) == name
    ensures store.uploads[k].files[j].content == bytes
  {
    var k': nat, j': nat :| SentAt(store, b, name, bytes, k', j');
    assert !(k' < k) && !(k < k');
    assert j' < j || j < j' || j' == j;
  }

  lemma RecordedMeans(t: System, i: nat, model: Model)
    requires Linked(t, ReadingOf(model)) && i < |t.taken|
    ensures i < |t.api.jobs| && t.taken[i] < |t.store.world.jobs|
    ensures var w, job, data := t.store.world, t.store.world.jobs[t.taken[i]], t.api.jobs[i].data;
            && job.blobKey == OriginalKey(job.batchId, I.FileOf(job)) && data.batchId == job.batchId
            && data.blobKey == job.blobKey && data.filename == FilenameOf(job.blobKey)
            && data.overlayKey == OverlayKey(job.batchId, FilenameOf(job.blobKey))
            && (exists image :: BytesOf(t.store, job, image)
                                && (data.predictedClass, data.confidence) == model.predict(image))
            && (job.batchId in t.store.scanned ==>
                  && job.blobKey in w.blobs && WatcherAccepts(I.FileOf(job), w.blobs[job.blobKey])
                  && (data.predictedClass, data.confidence) == model.predict(w.blobs[job.blobKey]))
  {
    var job, data := t.store.world.jobs[t.taken[i]], t.api.jobs[i].data;
    assert Recorded(t.store, t.taken[i], data, ReadingOf(model));
    assert I.JobBacked(t.store.world, job);
    var image :| BytesOf(t.store, job, image) && data == ReadingOf(model)(job, image);
    DataFields(job.batchId, job.blobKey, image, model);
    assert (data.predictedClass, data.confidence) == model.predict(image);
    if job.batchId in t.store.scanned {
      DataFields(job.batchId, job.blobKey, t.store.world.blobs[job.blobKey], model);
    }
  }

  lemma JobOfPrediction(s: System, events: seq<Event>, setup: Setup, b: string, p: string) returns (i: nat)
    requires Start(s, ReadingOf(setup.model), b) && EventsOk(events)
    requires p in J.PredictionsOn(Run(s, events, setup).api.db, b)
    ensures var t := Run(s, events, setup);
            && i < |t.api.jobs| && t.api.jobs[i].saved == Some(p) && t.api.jobs[i].data.batchId == b
            && t.api.db.predictions.rows[p].data == t.api.jobs[i].data
  {
    var t, api := Run(s, events, setup), ApiEvents(s, events, setup);
    RunHasHalves(s, events, setup);
    J.PredictionsAtAnyTime(s.api, api, setup.pages, b);
    J.JobsStayInStep(s.api, api, setup.pages);
    i := SaverOf(t.api, b, p, s.api.db.predictions.rows.Keys, J.DoneBatches(s.api.db));
  }

  lemma SaverOf(api: P.State, b: string, p: string, base: set<string>, closed: set<string>) returns (i: nat)
    requires J.JobsOk(api, base, closed) && p in J.SavedIds(J.JobsOn(api.jobs, b))
    ensures i < |api.jobs| && api.jobs[i].saved == Some(p) && api.jobs[i].data.batchId == b
    ensures p in api.db.predictions.rows && api.db.predictions.rows[p].data == api.jobs[i].data
  {
    var on := J.JobsOn(api.jobs, b);
    J.JobsOnMembers(api.jobs, b);
    var k :| 0 <= k < |on| && on[k].saved == Some(p);
    i :| 0 <= i < |api.jobs| && api.jobs[i] == on[k];
    assert J.JobOk(api.db, api.jobs[i], base);
  }

  /* ---- a worker at a job ---- */

  lemma OverlayLeavesSlots(s: I.State, place: nat, picture: Bytes, put: Put)
    requires I.StateOk(s) && place < |s.world.jobs|
    ensures var job := s.world.jobs[place];
            var blobs := Uploaded(s.world.blobs, OverlayKey(job.batchId, FilenameOf(job.blobKey)), picture, put);
            && (forall slot: Slot :: SlashFree(slot.batch) ==> I.SameAt(s.world.blobs, blobs, KeyOf(slot)))
            && I.SameAt(s.world.blobs, blobs, job.blobKey)
  {
    var job := s.world.jobs[place];
    var own := Original(job.batchId, I.FileOf(job));
    I.JobsBatch(s.world, place);
    forall slot: Slot | SlashFree(slot.batch)
      ensures I.SameAt(s.world.blobs,
                       Uploaded(s.world.blobs, OverlayKey(job.batchId, FilenameOf(job.blobKey)), picture, put),
                       KeyOf(slot))
    {
      I.OverlayElsewhere(s.world.blobs, picture, put, slot, job.batchId, FilenameOf(job.blobKey));
    }
    assert I.JobBacked(s.world, job) && KeyOf(own) == job.blobKey;
  }

  lemma OverlayEvent(s: I.State, place: nat, picture: Bytes, put: Put)
    requires place < |s.world.jobs|
    ensures var job := s.world.jobs[place];
            var blobs := Uploaded(s.world.blobs, OverlayKey(job.batchId, FilenameOf(job.blobKey)), picture, put);
            I.Step(s, I.StoreOverlay(place, picture, put)) == s.(world := s.world.(blobs := blobs))
  {
  }

  lemma JobObject(s: I.State, place: nat)
    requires I.StateOk(s) && place < |s.world.jobs|
    ensures s.world.jobs[place].blobKey in s.world.blobs
  {
    assert I.JobBacked(s.world, s.world.jobs[place]);
  }

  /** What `Classify` does to the store for a queued job is the overlay event of that job: it leaves the originals and
      the quarantined files of all batches as they are, the job's own original too. */
  lemma ClassifyStoresTheOverlay(s: I.State, place: nat, model: Model, put: Put)
    requires I.StateOk(s) && place < |s.world.jobs|
    ensures s.world.jobs[place].blobKey in s.world.blobs
    ensures var job := s.world.jobs[place];
            var image := s.world.blobs[job.blobKey];
            var (class_, confidence) := model.predict(image);
            var picture := model.draw(image, class_, confidence);
            var blobs := Uploaded(s.world.blobs, OverlayKey(job.batchId, FilenameOf(job.blobKey)), picture, put);
            && I.Step(s, I.StoreOverlay(place, picture, put)) == s.(world := s.world.(blobs := blobs))
            && (forall slot: Slot :: SlashFree(slot.batch) ==> I.SameAt(s.world.blobs, blobs, KeyOf(slot)))
            && I.SameAt(s.world.blobs, blobs, job.blobKey)
  {
    JobObject(s, place);
    var image := s.world.blobs[s.world.jobs[place].blobKey];
    var picture := model.draw(image, model.predict(image).0, model.predict(image).1);
    OverlayEvent(s, place, picture, put);
    OverlayLeavesSlots(s, place, picture, put);
  }

  lemma TakeIsSpawn(s: System, place: nat, setup: Setup)
    requires place < |s.store.world.jobs| && place !in s.taken
    requires s.store.world.jobs[place].blobKey in s.store.world.blobs
    ensures var s', job := Step(s, Take(place), setup), s.store.world.jobs[place];
            && s'.taken == s.taken + [place] && |s'.api.jobs| == |s.api.jobs| + 1
            && var w := s'.api.jobs[|s.api.jobs|];
               w.pc.Marking? && w.data.batchId == job.batchId && w.data.blobKey == job.blobKey
  {
    TakeStep(s, Take(place), setup);
  }

  /** Every queued job that has not been taken can be: its object is there, and a job of its batch starts with it. */
  lemma EveryQueuedJobCanBeTaken(s: System, place: nat, setup: Setup)
    requires Linked(s, ReadingOf(setup.model)) && place < |s.store.world.jobs| && place !in s.taken
    ensures var s', job := Step(s, Take(place), setup), s.store.world.jobs[place];
            && s'.taken == s.taken + [place] && |s'.api.jobs| == |s.api.jobs| + 1
            && var w := s'.api.jobs[|s.api.jobs|];
               w.pc.Marking? && w.data.batchId == job.batchId && w.data.blobKey == job.blobKey
  {
    JobObject(s.store, place);
    TakeIsSpawn(s, place, setup);
  }

  /* ---- how many ---- */

  /** The worker jobs of a batch that have saved a prediction. */
  function Savers(jobs: seq<P.RunningJob>, b: string): set<nat> {
    set i | 0 <= i < |jobs| && jobs[i].data.batchId == b && jobs[i].saved.Some?
  }

  lemma {:induction false} ImageSize<A>(indices: set<nat>, f: nat -> A)
    requires forall i, j :: i in indices && j in indices && f(i) == f(j) ==> i == j
    ensures |set i | i in indices :: f(i)| == |indices|
    decreases |indices|
  {
    if indices != {} {
      var x :| x in indices;
      ImageSize(indices - {x}, f);
      assert (set i | i in indices :: f(i)) == (set i | i in indices - {x} :: f(i)) + {f(x)};
    }
  }

  /** The places in the queue of the jobs of a batch that have been taken and have saved a prediction. */
  function SavedPlaces(taken: seq<nat>, jobs: seq<P.RunningJob>, b: string): set<nat>
    requires |taken| == |jobs|
  {
    set i | i in Savers(jobs, b) :: taken[i]
  }

  function SavedOf(jobs: seq<P.RunningJob>, i: nat): string {
    if i < |jobs| && jobs[i].saved.Some? then jobs[i].saved.value else ""
  }

  lemma SavedIdsAreSavers(jobs: seq<P.RunningJob>, b: string)
    ensures J.SavedIds(J.JobsOn(jobs, b)) == set i | i in Savers(jobs, b) :: SavedOf(jobs, i)
  {
    var savers, on := Savers(jobs, b), J.JobsOn(jobs, b);
    J.JobsOnMembers(jobs, b);
    forall p | p in J.SavedIds(on) ensures exists i :: i in savers && SavedOf(jobs, i) == p {
      var k :| 0 <= k < |on| && on[k].saved == Some(p);
      var i :| 0 <= i < |jobs| && jobs[i] == on[k];
      assert i in savers && SavedOf(jobs, i) == p;
    }
    forall i | i in savers ensures SavedOf(jobs, i) in J.SavedIds(on) {
      var k :| 0 <= k < |on| && on[k] == jobs[i];
      assert on[k].saved == Some(SavedOf(jobs, i));
    }
  }

  lemma SavedIdsSize(jobs: seq<P.RunningJob>, b: string)
    requires J.DistinctSaves(jobs)
    ensures |J.SavedIds(J.JobsOn(jobs, b))| == |Savers(jobs, b)|
  {
    var savers := Savers(jobs, b);
    var id: nat -> string := (i: nat) => SavedOf(jobs, i);
    SavedIdsAreSavers(jobs, b);
    forall i, j | i in savers && j in savers && id(i) == id(j) ensures i == j {
      assert jobs[i].saved == jobs[j].saved;
    }
    ImageSize(savers, id);
    assert (set i | i in savers :: SavedOf(jobs, i)) == (set i | i in savers :: id(i));
  }

  lemma SavedPlacesSize(taken: seq<nat>, jobs: seq<P.RunningJob>, b: string)
    requires |taken| == |jobs| && forall i, j :: 0 <= i < j < |taken| ==> taken[i] != taken[j]
    ensures |SavedPlaces(taken, jobs, b)| == |Savers(jobs, b)|
  {
    var savers := Savers(jobs, b);
    var place: nat -> nat := (i: nat) => if i < |taken| then taken[i] else 0;
    ImageSize(savers, place);
    assert SavedPlaces(taken, jobs, b) == (set i | i in savers :: place(i));
  }

  /** A worker's job is about the batch of the job it took. */
  predicate SameBatches(queue: seq<Job>, taken: seq<nat>, jobs: seq<P.RunningJob>) {
    && |taken| == |jobs|
    && forall i :: 0 <= i < |taken| ==> taken[i] < |queue| && jobs[i].data.batchId == queue[taken[i]].batchId
  }

  lemma TakenBatches(t: System, model: Model)
    requires Linked(t, ReadingOf(model))
    ensures SameBatches(t.store.world.jobs, t.taken, t.api.jobs)
  {
    forall i | 0 <= i < |t.taken|
      ensures t.taken[i] < |t.store.world.jobs|
      ensures t.api.jobs[i].data.batchId == t.store.world.jobs[t.taken[i]].batchId
    {
      RecordedMeans(t, i, model);
    }
  }

  lemma SavedPlacesAreQueued(queue: seq<Job>, taken: seq<nat>, jobs: seq<P.RunningJob>, b: string)
    requires SameBatches(queue, taken, jobs)
    ensures SavedPlaces(taken, jobs, b) <= PlacesOf(queue, b)
  {
  }

  lemma SubsetSize<A>(small: set<A>, large: set<A>)
    requires small <= large
    ensures |small| <= |large| && (|small| == |large| <==> small == large)
  {
    assert large == small + (large - small);
    assert |large| == |small| + |large - small|;
  }

  /** At any moment a batch has at most as many predictions as queued jobs, and at most as many of these as files. It
      has a prediction for each of its files if and only if a job was queued for each of them, and every one has been
      taken and is past its save. */
  lemma CompleteIffAllQueuedAndSaved(s: System, events: seq<Event>, setup: Setup, b: string)
    requires Start(s, ReadingOf(setup.model), b) && EventsOk(events)
    requires b in Run(s, events, setup).api.db.batches.rows
    ensures var t := Run(s, events, setup);
            |t.taken| == |t.api.jobs| && b in t.store.world.batches
    ensures var t := Run(s, events, setup);
            var made, queued, files := |J.PredictionsOn(t.api.db, b)|, PlacesOf(t.store.world.jobs, b),
                                       t.api.db.batches.rows[b].fileCount;
            && made <= |queued| <= files
            && (made == |queued| <==> queued == SavedPlaces(t.taken, t.api.jobs, b))
            && (made == files <==> |queued| == files && queued == SavedPlaces(t.taken, t.api.jobs, b))
  {
    var t, api := Run(s, events, setup), ApiEvents(s, events, setup);
    RunKeepsLink(s, events, setup);
    RunHasHalves(s, events, setup);
    J.PredictionsAtAnyTime(s.api, api, setup.pages, b);
    J.JobsStayInStep(s.api, api, setup.pages);
    SavedIdsSize(t.api.jobs, b);
    SavedPlacesSize(t.taken, t.api.jobs, b);
    TakenBatches(t, setup.model);
    SavedPlacesAreQueued(t.store.world.jobs, t.taken, t.api.jobs, b);
    SubsetSize(SavedPlaces(t.taken, t.api.jobs, b), PlacesOf(t.store.world.jobs, b));
  }

  /** For a batch of one file done does mean complete: it has its one prediction. */
  lemma DoneIsCompleteForOneFile(s: System, events: seq<Event>, setup: Setup, b: string)
    requires Start(s, ReadingOf(setup.model), b) && EventsOk(events) && b !in J.DoneBatches(s.api.db)
    requires var t := Run(s, events, setup); J.IsDone(t.api, b) && t.api.db.batches.rows[b].fileCount == 1
    ensures var t := Run(s, events, setup);
            |J.PredictionsOn(t.api.db, b)| == 1 && |PlacesOf(t.store.world.jobs, b)| == 1
  {
    var t := Run(s, events, setup);
    RunHasHalves(s, events, setup);
    J.DoneHasAPrediction(s.api, ApiEvents(s, events, setup), setup.pages, b);
    CompleteIffAllQueuedAndSaved(s, events, setup, b);
    assert |J.PredictionsOn(t.api.db, b)| != 0;
  }

  /** Every queued job of the batch has been taken, and its worker has ended. */
  ghost predicate AllEnded(queue: seq<Job>, taken: seq<nat>, jobs: seq<P.RunningJob>, b: string) {
    forall k :: k in PlacesOf(queue, b) ==> EndedAt(taken, jobs, k)
  }

  ghost predicate EndedAt(taken: seq<nat>, jobs: seq<P.RunningJob>, place: nat) {
    exists i :: 0 <= i < |taken| && i < |jobs| && taken[i] == place && jobs[i].pc.Ended?
  }

  lemma EndedJobsOn(queue: seq<Job>, taken: seq<nat>, jobs: seq<P.RunningJob>, b: string)
    requires SameBatches(queue, taken, jobs) && AllEnded(queue, taken, jobs, b) && PlacesOf(queue, b) != {}
    requires forall i, j :: 0 <= i < j < |taken| ==> taken[i] != taken[j]
    ensures var on := J.JobsOn(jobs, b); on != [] && forall job :: job in on ==> job.pc.Ended?
  {
    var on := J.JobsOn(jobs, b);
    J.JobsOnMembers(jobs, b);
    forall k | 0 <= k < |on| ensures on[k].pc.Ended? {
      assert on[k] in jobs;
      var i :| 0 <= i < |jobs| && jobs[i] == on[k];
      assert taken[i] in PlacesOf(queue, b) && EndedAt(taken, jobs, taken[i]);
    }
    var place :| place in PlacesOf(queue, b);
    assert EndedAt(taken, jobs, place);
    var i :| 0 <= i < |taken| && taken[i] == place;
    assert jobs[i] in on;
  }

  lemma EndedPlacesSaved(queue: seq<Job>, taken: seq<nat>, api: P.State, b: string, base: set<string>,
                         closed: set<string>)
    requires SameBatches(queue, taken, api.jobs) && AllEnded(queue, taken, api.jobs, b) && J.JobsOk(api, base, closed)
    ensures PlacesOf(queue, b) == SavedPlaces(taken, api.jobs, b)
  {
    forall k | k in PlacesOf(queue, b) ensures k in SavedPlaces(taken, api.jobs, b) {
      assert EndedAt(taken, api.jobs, k);
      var i :| 0 <= i < |taken| && i < |api.jobs| && taken[i] == k && api.jobs[i].pc.Ended?;
      assert J.JobOk(api.db, api.jobs[i], base);
      assert i in Savers(api.jobs, b);
    }
    SavedPlacesAreQueued(queue, taken, api.jobs, b);
  }

  /** End to end: when every queued job of a batch has been taken and has ended, in whatever order, with polls,
      requests, other jobs and readers in between, the batch has exactly one prediction for each queued job. It is done,
      with the two logged changes that lead there, unless a request to mark it as failed took effect. */
  lemma EveryQueuedJobPredicted(s: System, events: seq<Event>, setup: Setup, b: string)
    requires Start(s, ReadingOf(setup.model), b) && EventsOk(events)
    requires var t := Run(s, events, setup);
             AllEnded(t.store.world.jobs, t.taken, t.api.jobs, b) && PlacesOf(t.store.world.jobs, b) != {}
    ensures var t := Run(s, events, setup);
            var rows := t.api.db.batches.rows;
            && |J.PredictionsOn(t.api.db, b)| == |PlacesOf(t.store.world.jobs, b)|
            && b in rows && |PlacesOf(t.store.world.jobs, b)| <= rows[b].fileCount
            && (if J.WasFailed(s.api, ApiEvents(s, events, setup), setup.pages, b) then rows[b].status == Failed
                else rows[b].status == Done && Trail(t.api.db.audit, b) == [STARTED, FINISHED])
  {
    var t, api := Run(s, events, setup), ApiEvents(s, events, setup);
    RunKeepsLink(s, events, setup);
    RunHasHalves(s, events, setup);
    J.JobsStayInStep(s.api, api, setup.pages);
    TakenBatches(t, setup.model);
    EndedJobsOn(t.store.world.jobs, t.taken, t.api.jobs, b);
    EndedPlacesSaved(t.store.world.jobs, t.taken, t.api, b, s.api.db.predictions.rows.Keys,
                     J.DoneBatches(s.api.db));
    J.InterleavingIndependence(s.api, api, setup.pages, b);
    CompleteIffAllQueuedAndSaved(s, events, setup, b);
  }
}
