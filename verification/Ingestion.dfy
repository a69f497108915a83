/** The watcher, the upload endpoint and the overlay uploads of the inference workers over one object store, one call
    at a time: between any two calls of a poll or of a request, anything else may happen. */
module Ingestion {
  import opened Options
  import opened PyStrings
  import opened BlobKeys
  import opened Validators
  import opened Backend
  import opened Watcher
  import opened WatcherProperties
  import U = UploadEndpoint

  /** The call a poll makes next for its current file. */
  datatype Stage = Checking | Fetching | Quarantining(data: Bytes) | Storing(data: Bytes) | Queueing(data: Bytes)

  /** A poll under way, at file `next` of its batch. */
  datatype PollTask = PollTask(batchId: string, requestId: string, names: seq<string>, next: nat, stage: Stage)

  /** A request under way, at file `next` of its batch; `stored` when that file is in the store and has to be queued.
      A request that has ended or been interrupted has come to the end of its files. */
  datatype UploadTask =
    UploadTask(batchId: string, requestId: string, files: seq<U.UploadFile>, next: nat, stored: bool)

  /** `scanned` are the batches the watcher has made; it is there to state properties, the program does not keep it. */
  datatype State = State(world: World, seen: set<string>, scanned: set<string>, poll: Option<PollTask>,
                         uploads: seq<UploadTask>)

  /** `Restart`: the watcher's process ends, wherever it is, and a new one begins. `StoreOverlay`: a worker uploads the
      overlay of a queued job. */
  datatype Event =
    | StartPoll(listing: Option<seq<string>>, requestId: string, create: Create)
    | WatcherCall(env: FileEnv)
    | Restart
    | StartRequest(permitted: bool, files: seq<U.UploadFile>, requestId: string, create: Create)
    | RequestCall(index: nat, answers: U.StoreEnv)
    | StoreOverlay(job: nat, overlay: Bytes, put: Put)

  function Advance(t: PollTask): Option<PollTask> {
    if t.next + 1 < |t.names| then Some(t.(next := t.next + 1, stage := Checking)) else None
  }

  /** One call of a poll. What it adds to `seen` only the watcher itself looks at, so it may come with the call. */
  function AfterCall(s: State, t: PollTask, env: FileEnv): State
    requires t.next < |t.names|
  {
    var name, w := t.names[t.next], s.world;
    var key := OriginalKey(t.batchId, name);
    match t.stage
    case Checking =>
      (match Exists(w.blobs, key, env.stat)
       case None => s.(poll := None)
       case Some(true) => s.(seen := s.seen + {name}, poll := Advance(t))
       case Some(false) => s.(poll := Some(t.(stage := Fetching))))
    case Fetching =>
      (match Downloaded(env.download)
       case None => s.(poll := Advance(t))
       case Some(data) =>
         var stage := if RejectReason(name, data).Some? then Quarantining(data) else Storing(data);
         s.(poll := Some(t.(stage := stage))))
    case Quarantining(data) =>
      var blobs := Uploaded(w.blobs, QuarantineKey(t.batchId, name), data, env.quarantine);
      s.(world := w.(blobs := blobs), seen := s.seen + {name}, poll := Advance(t))
    case Storing(data) =>
      var next := if UploadReturns(data, env.upload) then Some(t.(stage := Queueing(data))) else Advance(t);
      s.(world := w.(blobs := Uploaded(w.blobs, key, data, env.upload)), poll := next)
    case Queueing(data) =>
      var jobs := Enqueued(w.jobs, Job(t.batchId, key, t.requestId), env.enqueue);
      s.(world := w.(jobs := jobs), seen := s.seen + {name}, poll := Advance(t))
  }

  function KeyAt(u: UploadTask): string
    requires u.next < |u.files|
  {
    OriginalKey(u.batchId, U.NameOf(u.files[u.next]))
  }

  /** One call of request `k`. */
  function AfterRequestCall(s: State, k: nat, answers: U.StoreEnv): State
    requires k < |s.uploads| && s.uploads[k].next < |s.uploads[k].files|
  {
    var u, w := s.uploads[k], s.world;
    var over := u.(next := |u.files|, stored := false);
    if !u.stored then
      var content := u.files[u.next].content;
      s.(world := w.(blobs := Uploaded(w.blobs, KeyAt(u), content, answers.upload)),
         uploads := s.uploads[k := if UploadReturns(content, answers.upload) then u.(stored := true) else over])
    else
      s.(world := w.(jobs := Enqueued(w.jobs, Job(u.batchId, KeyAt(u), u.requestId), answers.enqueue)),
         uploads := s.uploads[k := if answers.enqueue == Queued then u.(next := u.next + 1, stored := false) else over])
  }

  function Step(s: State, e: Event): State {
    match e
    case StartPoll(listing, requestId, create) =>
      var names := if listing.Some? then NewNames(listing.value, s.seen) else [];
      var id := CommittedId(s.world.batches, create);
      if s.poll.Some? || names == [] || id == None then s
      else
        s.(world := s.world.(batches := s.world.batches[id.value := |names|]), scanned := s.scanned + {id.value},
           poll := if create.Created? then Some(PollTask(id.value, requestId, names, 0, Checking)) else None)
    case WatcherCall(env) =>
      if s.poll.Some? && s.poll.value.next < |s.poll.value.names| then AfterCall(s, s.poll.value, env) else s
    case Restart => s.(seen := {}, poll := None)
    case StartRequest(permitted, files, requestId, create) =>
      if !permitted || U.Refusal(files).Some? then s
      else
        var s1 := s.(world := s.world.(batches := BatchInserted(s.world.batches, |files|, create)));
        if !CreateReturns(s.world.batches, create) then s1
        else s1.(uploads := s.uploads + [UploadTask(create.id, requestId, files, 0, false)])
    case RequestCall(k, answers) =>
      if k < |s.uploads| && s.uploads[k].next < |s.uploads[k].files| then AfterRequestCall(s, k, answers) else s
    case StoreOverlay(i, overlay, put) =>
      if i >= |s.world.jobs| then s
      else
        var key := OverlayKey(s.world.jobs[i].batchId, FilenameOf(s.world.jobs[i].blobKey));
        s.(world := s.world.(blobs := Uploaded(s.world.blobs, key, overlay, put)))
  }

  function Run(s: State, events: seq<Event>): State {
    if events == [] then s else Step(Run(s, events[..|events| - 1]), events[|events| - 1])
  }

  /** Row identifiers are UUIDs; all that matters is that they hold no slash. */
  predicate IdOk(create: Create) {
    create.RaisedBefore? || SlashFree(create.id)
  }

  ghost predicate EventOk(e: Event) {
    match e
    case StartPoll(listing, _, create) => IdOk(create) && (listing.Some? ==> Distinct(listing.value))
    case StartRequest(_, _, _, create) => IdOk(create)
    case _ => true
  }

  ghost predicate EventsOk(events: seq<Event>) {
    forall e :: e in events ==> EventOk(e)
  }

  /* ---- what holds of the store, the queue and the table ---- */

  /** Two stores agree about one key. */
  predicate SameAt(blobs: map<string, Bytes>, blobs': map<string, Bytes>, key: string) {
    (key in blobs <==> key in blobs') && (key in blobs ==> blobs[key] == blobs'[key])
  }

  ghost predicate Capped(blobs: map<string, Bytes>) {
    forall key :: key in blobs ==> |blobs[key]| <= MAX_FILE_BYTES
  }

  /** The file name in the key of a job. */
  function FileOf(job: Job): string {
    var prefix := OriginalKey(job.batchId, "");
    if prefix <= job.blobKey then job.blobKey[|prefix|..] else ""
  }

  lemma FileOfKey(batchId: string, filename: string, requestId: string)
    ensures FileOf(Job(batchId, OriginalKey(batchId, filename), requestId)) == filename
  {
    assert OriginalKey(batchId, filename) == OriginalKey(batchId, "") + filename;
  }

  predicate Validated(filename: string, data: Bytes) {
    WatcherAccepts(filename, data) || UploadAccepts(filename, data)
  }

  /** A job belongs to a batch, and the object it names is there and has passed validation. */
  predicate JobBacked(w: World, job: Job) {
    && job.batchId in w.batches && job.blobKey == OriginalKey(job.batchId, FileOf(job))
    && job.blobKey in w.blobs && Validated(FileOf(job), w.blobs[job.blobKey])
  }

  /** Files are only kept for batches that have a row, and nothing in the store is over the cap. */
  ghost predicate WorldOk(w: World) {
    && (forall b :: b in w.batches ==> SlashFree(b))
    && (forall slot: Slot :: SlashFree(slot.batch) && KeyOf(slot) in w.blobs ==> slot.batch in w.batches)
    && Capped(w.blobs)
    && (forall i :: 0 <= i < |w.jobs| ==> JobBacked(w, w.jobs[i]))
  }

  /** Rows, jobs and objects are only added. */
  ghost predicate Grows(w: World, w': World) {
    && (forall b :: b in w.batches ==> b in w'.batches && w'.batches[b] == w.batches[b])
    && w.jobs <= w'.jobs && w.blobs.Keys <= w'.blobs.Keys
  }

  /** A queued job belongs to a batch. */
  lemma JobsBatch(w: World, i: nat)
    requires WorldOk(w) && i < |w.jobs|
    ensures w.jobs[i].batchId in w.batches
  {
    assert JobBacked(w, w.jobs[i]);
  }

  /** Storing under another slot's key leaves a slot alone. */
  lemma SlotUntouched(blobs: map<string, Bytes>, data: Bytes, slot: Slot, own: Slot)
    requires SlashFree(slot.batch) && SlashFree(own.batch) && own != slot
    ensures SameAt(blobs, blobs[KeyOf(own) := data], KeyOf(slot))
  {
    SlotsApart(slot, own, "");
  }

  /** So does storing an overlay. */
  lemma OverlayElsewhere(blobs: map<string, Bytes>, data: Bytes, put: Put, slot: Slot, b: string, f: string)
    requires SlashFree(slot.batch) && SlashFree(b)
    ensures SameAt(blobs, Uploaded(blobs, OverlayKey(b, f), data, put), KeyOf(slot))
  {
    SlotsApart(slot, Original(b, ""), f);
  }

  lemma PutKeeps(w: World, own: Slot, data: Bytes, put: Put)
    requires WorldOk(w) && own.batch in w.batches && (own.Original? ==> Validated(own.name, data))
    ensures var w' := w.(blobs := Uploaded(w.blobs, KeyOf(own), data, put)); WorldOk(w') && Grows(w, w')
  {
    var w' := w.(blobs := Uploaded(w.blobs, KeyOf(own), data, put));
    forall slot: Slot | SlashFree(slot.batch) && KeyOf(slot) in w'.blobs ensures slot.batch in w'.batches {
      if slot != own {
        SlotUntouched(w.blobs, data, slot, own);
      }
    }
    forall i | 0 <= i < |w'.jobs| ensures JobBacked(w', w'.jobs[i]) {
      var slot := Original(w.jobs[i].batchId, FileOf(w.jobs[i]));
      assert JobBacked(w, w.jobs[i]);
      if slot != own {
        SlotUntouched(w.blobs, data, slot, own);
      }
    }
  }

  lemma OverlayKeeps(w: World, b: string, f: string, overlay: Bytes, put: Put)
    requires WorldOk(w) && b in w.batches
    ensures var w' := w.(blobs := Uploaded(w.blobs, OverlayKey(b, f), overlay, put)); WorldOk(w') && Grows(w, w')
  {
    var w' := w.(blobs := Uploaded(w.blobs, OverlayKey(b, f), overlay, put));
    forall slot: Slot | SlashFree(slot.batch) ensures SameAt(w.blobs, w'.blobs, KeyOf(slot)) {
      OverlayElsewhere(w.blobs, overlay, put, slot, b, f);
    }
    forall i | 0 <= i < |w'.jobs| ensures JobBacked(w', w'.jobs[i]) {
      assert JobBacked(w, w.jobs[i]);
      assert KeyOf(Original(w.jobs[i].batchId, FileOf(w.jobs[i]))) == w.jobs[i].blobKey;
    }
  }

  lemma EnqueueKeeps(w: World, job: Job, e: Enqueue)
    requires WorldOk(w) && JobBacked(w, job)
    ensures var w' := w.(jobs := Enqueued(w.jobs, job, e)); WorldOk(w') && Grows(w, w')
  {
    var w' := w.(jobs := Enqueued(w.jobs, job, e));
    forall i | 0 <= i < |w'.jobs| ensures JobBacked(w', w'.jobs[i]) {
      assert i < |w.jobs| ==> JobBacked(w, w.jobs[i]);
    }
  }

  lemma InsertKeeps(w: World, id: string, fileCount: nat)
    requires WorldOk(w) && SlashFree(id) && id !in w.batches
    ensures var w' := w.(batches := w.batches[id := fileCount]); WorldOk(w') && Grows(w, w')
  {
    var w' := w.(batches := w.batches[id := fileCount]);
    forall i | 0 <= i < |w'.jobs| ensures JobBacked(w', w'.jobs[i]) {
      assert JobBacked(w, w.jobs[i]);
    }
  }

  /* ---- what holds of polls and requests under way ---- */

  /** The first file whose original a task may still store. */
  function PollFrom(t: PollTask): nat {
    if t.stage.Queueing? then t.next + 1 else t.next
  }

  function UploadFrom(u: UploadTask): nat {
    if u.stored then u.next + 1 else u.next
  }

  /** No task under way will store anything under the key of the slot. */
  ghost predicate Sealed(s: State, slot: Slot) {
    && (s.poll.Some? && s.poll.value.batchId == slot.batch ==>
          forall j :: PollFrom(s.poll.value) <= j < |s.poll.value.names| ==> s.poll.value.names[j] != slot.name)
    && (forall k, j :: 0 <= k < |s.uploads| && s.uploads[k].batchId == slot.batch
                       && UploadFrom(s.uploads[k]) <= j < |s.uploads[k].files| ==>
          slot.Quarantined? || U.NameOf(s.uploads[k].files[j]) != slot.name)
  }

  predicate StageOk(stage: Stage, name: string, key: string, blobs: map<string, Bytes>) {
    match stage
    case Checking => true
    case Fetching => true
    case Quarantining(data) => !WatcherAccepts(name, data)
    case Storing(data) => WatcherAccepts(name, data)
    case Queueing(data) => WatcherAccepts(name, data) && key in blobs && blobs[key] == data
  }

  /** The files a poll has still to deal with have not been seen, and nothing is stored for them. */
  ghost predicate PollOk(s: State, t: PollTask) {
    && t.batchId in s.scanned && t.next < |t.names| && Distinct(t.names)
    && StageOk(t.stage, t.names[t.next], OriginalKey(t.batchId, t.names[t.next]), s.world.blobs)
    && (forall j :: t.next <= j < |t.names| ==> t.names[j] !in s.seen)
    && (forall j :: t.next <= j < |t.names| ==> QuarantineKey(t.batchId, t.names[j]) !in s.world.blobs)
    && (forall j :: PollFrom(t) <= j < |t.names| ==> OriginalKey(t.batchId, t.names[j]) !in s.world.blobs)
  }

  ghost predicate UploadOk(s: State, u: UploadTask) {
    && u.batchId in s.world.batches && u.batchId !in s.scanned && u.next <= |u.files|
    && (forall j :: 0 <= j < |u.files| ==> U.Acceptable(u.files[j]))
    && (u.stored ==>
          && u.next < |u.files| && KeyAt(u) in s.world.blobs
          && UploadAccepts(U.NameOf(u.files[u.next]), s.world.blobs[KeyAt(u)]))
  }

  /** A job of the watcher: what it names has passed the watcher's check and will not change any more. */
  ghost predicate ScannedJobOk(s: State, job: Job) {
    job.batchId in s.scanned ==>
      && job.blobKey in s.world.blobs && WatcherAccepts(FileOf(job), s.world.blobs[job.blobKey])
      && Sealed(s, Original(job.batchId, FileOf(job)))
  }

  ghost predicate StateOk(s: State) {
    && WorldOk(s.world) && s.scanned <= s.world.batches.Keys
    && (s.poll.Some? ==> PollOk(s, s.poll.value))
    && (forall k :: 0 <= k < |s.uploads| ==> UploadOk(s, s.uploads[k]))
    && (forall i :: 0 <= i < |s.world.jobs| ==> ScannedJobOk(s, s.world.jobs[i]))
  }

  /* ---- one step ---- */

  /** The slot an event may write. */
  function Touched(s: State, e: Event): Option<Slot> {
    match e
    case WatcherCall(_) =>
      if s.poll.None? || s.poll.value.next >= |s.poll.value.names| then None
      else
        var b, name := s.poll.value.batchId, s.poll.value.names[s.poll.value.next];
        (match s.poll.value.stage
         case Quarantining(_) => Some(Quarantined(b, name))
         case Storing(_) => Some(Original(b, name))
         case _ => None)
    case RequestCall(k, _) =>
      if k >= |s.uploads| || s.uploads[k].next >= |s.uploads[k].files| || s.uploads[k].stored then None
      else Some(Original(s.uploads[k].batchId, U.NameOf(s.uploads[k].files[s.uploads[k].next])))
    case _ => None
  }

  lemma WatcherFrame(s: State, env: FileEnv, slot: Slot)
    requires StateOk(s) && SlashFree(slot.batch) && Touched(s, WatcherCall(env)) != Some(slot)
    ensures SameAt(s.world.blobs, Step(s, WatcherCall(env)).world.blobs, KeyOf(slot))
  {
    var own := Touched(s, WatcherCall(env));
    if own.Some? {
      SlotUntouched(s.world.blobs, s.poll.value.stage.data, slot, own.value);
    }
  }

  lemma RequestFrame(s: State, k: nat, answers: U.StoreEnv, slot: Slot)
    requires StateOk(s) && SlashFree(slot.batch) && Touched(s, RequestCall(k, answers)) != Some(slot)
    ensures SameAt(s.world.blobs, Step(s, RequestCall(k, answers)).world.blobs, KeyOf(slot))
  {
    var own := Touched(s, RequestCall(k, answers));
    if own.Some? {
      var u := s.uploads[k];
      assert UploadOk(s, u);
      SlotUntouched(s.world.blobs, u.files[u.next].content, slot, own.value);
    }
  }

  lemma OverlayFrame(s: State, i: nat, overlay: Bytes, put: Put, slot: Slot)
    requires SlashFree(slot.batch) && (i < |s.world.jobs| ==> SlashFree(s.world.jobs[i].batchId))
    ensures SameAt(s.world.blobs, Step(s, StoreOverlay(i, overlay, put)).world.blobs, KeyOf(slot))
  {
    if i < |s.world.jobs| {
      var job := s.world.jobs[i];
      OverlayElsewhere(s.world.blobs, overlay, put, slot, job.batchId, FilenameOf(job.blobKey));
    }
  }

  lemma StepFrame(s: State, e: Event, slot: Slot)
    requires StateOk(s) && SlashFree(slot.batch) && Touched(s, e) != Some(slot)
    ensures SameAt(s.world.blobs, Step(s, e).world.blobs, KeyOf(slot))
  {
    match e
    case WatcherCall(env) => WatcherFrame(s, env, slot);
    case RequestCall(k, answers) => RequestFrame(s, k, answers, slot);
    case StoreOverlay(i, overlay, put) =>
      if i < |s.world.jobs| {
        JobsBatch(s.world, i);
      }
      OverlayFrame(s, i, overlay, put, slot);
    case _ =>
  }

  lemma WatcherWorld(s: State, env: FileEnv)
    requires StateOk(s) && s.poll.Some?
    ensures var w' := Step(s, WatcherCall(env)).world; WorldOk(w') && Grows(s.world, w')
  {
    var t := s.poll.value;
    var name := t.names[t.next];
    match t.stage
    case Quarantining(data) => PutKeeps(s.world, Quarantined(t.batchId, name), data, env.quarantine);
    case Storing(data) => PutKeeps(s.world, Original(t.batchId, name), data, env.upload);
    case Queueing(data) =>
      FileOfKey(t.batchId, name, t.requestId);
      EnqueueKeeps(s.world, Job(t.batchId, OriginalKey(t.batchId, name), t.requestId), env.enqueue);
    case _ =>
  }

  lemma RequestWorld(s: State, k: nat, answers: U.StoreEnv)
    requires StateOk(s)
    ensures var w' := Step(s, RequestCall(k, answers)).world; WorldOk(w') && Grows(s.world, w')
  {
    if k < |s.uploads| && s.uploads[k].next < |s.uploads[k].files| {
      var u := s.uploads[k];
      assert UploadOk(s, u);
      var name := U.NameOf(u.files[u.next]);
      if u.stored {
        FileOfKey(u.batchId, name, u.requestId);
        EnqueueKeeps(s.world, Job(u.batchId, KeyAt(u), u.requestId), answers.enqueue);
      } else {
        PutKeeps(s.world, Original(u.batchId, name), u.files[u.next].content, answers.upload);
      }
    }
  }

  lemma StartWorld(s: State, e: Event)
    requires StateOk(s) && EventOk(e) && (e.StartPoll? || e.StartRequest?)
    ensures WorldOk(Step(s, e).world) && Grows(s.world, Step(s, e).world)
  {
    if CommittedId(s.world.batches, e.create).Some? {
      if e.StartPoll? {
        InsertKeeps(s.world, e.create.id, |if e.listing.Some? then NewNames(e.listing.value, s.seen) else []|);
      } else {
        InsertKeeps(s.world, e.create.id, |e.files|);
      }
    }
  }

  lemma OverlayWorld(s: State, i: nat, overlay: Bytes, put: Put)
    requires StateOk(s)
    ensures var w' := Step(s, StoreOverlay(i, overlay, put)).world; WorldOk(w') && Grows(s.world, w')
  {
    if i < |s.world.jobs| {
      var b, f := s.world.jobs[i].batchId, FilenameOf(s.world.jobs[i].blobKey);
      var w' := s.world.(blobs := Uploaded(s.world.blobs, OverlayKey(b, f), overlay, put));
      assert Step(s, StoreOverlay(i, overlay, put)).world == w';
      assert WorldOk(w') && Grows(s.world, w') by {
        JobsBatch(s.world, i);
        OverlayKeeps(s.world, b, f, overlay, put);
      }
    }
  }

  lemma WorldStep(s: State, e: Event)
    requires StateOk(s) && EventOk(e)
    ensures WorldOk(Step(s, e).world) && Grows(s.world, Step(s, e).world)
  {
    match e
    case WatcherCall(env) =>
      if s.poll.Some? {
        WatcherWorld(s, env);
      }
    case RequestCall(k, answers) => RequestWorld(s, k, answers);
    case StoreOverlay(i, overlay, put) => OverlayWorld(s, i, overlay, put);
    case Restart =>
    case _ => StartWorld(s, e);
  }

  lemma SealedUntouched(s: State, e: Event, slot: Slot)
    requires Sealed(s, slot)
    ensures Touched(s, e) != Some(slot)
  {
  }

  lemma SealedThroughCall(s: State, env: FileEnv, slot: Slot)
    requires Sealed(s, slot)
    ensures Sealed(Step(s, WatcherCall(env)), slot)
  {
  }

  lemma SealedThroughRequest(s: State, k: nat, answers: U.StoreEnv, slot: Slot)
    requires Sealed(s, slot)
    ensures Sealed(Step(s, RequestCall(k, answers)), slot)
  {
    var s' := Step(s, RequestCall(k, answers));
    forall i, j | 0 <= i < |s'.uploads| && s'.uploads[i].batchId == slot.batch
                  && UploadFrom(s'.uploads[i]) <= j < |s'.uploads[i].files|
      ensures slot.Quarantined? || U.NameOf(s'.uploads[i].files[j]) != slot.name
    {
      assert s'.uploads[i].files == s.uploads[i].files && UploadFrom(s.uploads[i]) <= j;
    }
  }

  lemma SealedThroughStart(s: State, e: Event, slot: Slot)
    requires Sealed(s, slot) && slot.batch in s.world.batches && !e.WatcherCall? && !e.RequestCall?
    ensures Sealed(Step(s, e), slot)
  {
  }

  /** A sealed slot is left alone, and stays sealed. */
  lemma SealedStays(s: State, e: Event, slot: Slot)
    requires StateOk(s) && slot.batch in s.world.batches && Sealed(s, slot)
    ensures SameAt(s.world.blobs, Step(s, e).world.blobs, KeyOf(slot)) && Sealed(Step(s, e), slot)
  {
    SealedUntouched(s, e, slot);
    StepFrame(s, e, slot);
    match e
    case WatcherCall(env) => SealedThroughCall(s, env, slot);
    case RequestCall(k, answers) => SealedThroughRequest(s, k, answers, slot);
    case _ => SealedThroughStart(s, e, slot);
  }

  /** A poll that has just begun: all its files are new, and nothing is stored for its batch. */
  lemma StartPollOk(s: State, e: Event)
    requires StateOk(s) && EventOk(e) && e.StartPoll? && s.poll.None?
    ensures var s' := Step(s, e); s'.poll.Some? ==> PollOk(s', s'.poll.value)
  {
    var s' := Step(s, e);
    if s'.poll.Some? {
      var t := s'.poll.value;
      NewNamesDistinct(e.listing.value, s.seen);
      forall j | 0 <= j < |t.names|
        ensures t.names[j] !in s.seen
        ensures OriginalKey(t.batchId, t.names[j]) !in s.world.blobs
        ensures QuarantineKey(t.batchId, t.names[j]) !in s.world.blobs
      {
        assert t.names[j] in t.names;
        assert KeyOf(Original(t.batchId, t.names[j])) == OriginalKey(t.batchId, t.names[j]);
        assert KeyOf(Quarantined(t.batchId, t.names[j])) == QuarantineKey(t.batchId, t.names[j]);
      }
    }
  }

  /** Going on to the next file, when nothing has been stored for those to come. */
  lemma AdvanceOk(s: State, s': State, t: PollTask)
    requires PollOk(s, t) && s'.poll == Advance(t) && s'.scanned == s.scanned && s'.seen <= s.seen + {t.names[t.next]}
    requires forall j :: t.next < j < |t.names| ==>
               && SameAt(s.world.blobs, s'.world.blobs, OriginalKey(t.batchId, t.names[j]))
               && SameAt(s.world.blobs, s'.world.blobs, QuarantineKey(t.batchId, t.names[j]))
    ensures s'.poll.Some? ==> PollOk(s', s'.poll.value)
  {
    assert forall j :: t.next < j < |t.names| ==> t.names[j] != t.names[t.next];
  }

  lemma NextSlotsUntouched(s: State, env: FileEnv, j: nat)
    requires StateOk(s) && s.poll.Some? && s.poll.value.next < j < |s.poll.value.names|
    ensures var b, name, blobs' := s.poll.value.batchId, s.poll.value.names[j], Step(s, WatcherCall(env)).world.blobs;
            && SameAt(s.world.blobs, blobs', OriginalKey(b, name))
            && SameAt(s.world.blobs, blobs', QuarantineKey(b, name))
  {
    var t := s.poll.value;
    StepFrame(s, WatcherCall(env), Original(t.batchId, t.names[j]));
    StepFrame(s, WatcherCall(env), Quarantined(t.batchId, t.names[j]));
  }

  /** Going on to the next call for the same file. */
  lemma NextStageOk(s: State, s': State, t: PollTask, stage: Stage)
    requires PollOk(s, t) && s'.scanned == s.scanned && s'.seen == s.seen && (t.stage.Queueing? ==> stage.Queueing?)
    requires StageOk(stage, t.names[t.next], OriginalKey(t.batchId, t.names[t.next]), s'.world.blobs)
    requires forall j :: t.next < j < |t.names| ==>
               && SameAt(s.world.blobs, s'.world.blobs, OriginalKey(t.batchId, t.names[j]))
               && SameAt(s.world.blobs, s'.world.blobs, QuarantineKey(t.batchId, t.names[j]))
    requires SameAt(s.world.blobs, s'.world.blobs, QuarantineKey(t.batchId, t.names[t.next]))
    requires stage.Queueing? || SameAt(s.world.blobs, s'.world.blobs, OriginalKey(t.batchId, t.names[t.next]))
    ensures PollOk(s', t.(stage := stage))
  {
  }

  lemma SameStage(s: State, env: FileEnv)
    requires StateOk(s) && s.poll.Some?
    ensures var t, s' := s.poll.value, Step(s, WatcherCall(env));
            s'.poll == Advance(t) || s'.poll.None?
            || (&& s'.poll == Some(t.(stage := s'.poll.value.stage)) && s'.scanned == s.scanned && s'.seen == s.seen
                && StageOk(s'.poll.value.stage, t.names[t.next], OriginalKey(t.batchId, t.names[t.next]),
                           s'.world.blobs)
                && !t.stage.Queueing? && !t.stage.Quarantining?
                && (if s'.poll.value.stage.Queueing? then t.stage.Storing? else s'.world == s.world))
  {
  }

  lemma WatcherCallOk(s: State, env: FileEnv)
    requires StateOk(s) && s.poll.Some?
    ensures var s' := Step(s, WatcherCall(env)); s'.poll.Some? ==> PollOk(s', s'.poll.value)
  {
    var e, t := WatcherCall(env), s.poll.value;
    var s' := Step(s, e);
    forall j | t.next < j < |t.names|
      ensures SameAt(s.world.blobs, s'.world.blobs, OriginalKey(t.batchId, t.names[j]))
      ensures SameAt(s.world.blobs, s'.world.blobs, QuarantineKey(t.batchId, t.names[j]))
    {
      NextSlotsUntouched(s, env, j);
    }
    SameStage(s, env);
    if s'.poll == Advance(t) {
      CallChanges(s, env);
      AdvanceOk(s, s', t);
    } else if s'.poll.Some? {
      StepFrame(s, e, Quarantined(t.batchId, t.names[t.next]));
      NextStageOk(s, s', t, s'.poll.value.stage);
    }
  }

  lemma CallChanges(s: State, env: FileEnv)
    requires s.poll.Some? && s.poll.value.next < |s.poll.value.names|
    ensures var s' := Step(s, WatcherCall(env));
            s'.scanned == s.scanned && s'.seen <= s.seen + {s.poll.value.names[s.poll.value.next]}
  {
  }

  /** What others do does not touch the slots of the poll under way. */
  lemma OthersTouchElsewhere(s: State, e: Event)
    requires StateOk(s) && !e.WatcherCall? && s.poll.Some?
    ensures Touched(s, e).Some? ==> Touched(s, e).value.batch != s.poll.value.batchId
  {
    if Touched(s, e).Some? {
      assert UploadOk(s, s.uploads[e.index]);
    }
  }

  lemma SamePollOk(s: State, s': State, t: PollTask)
    requires PollOk(s, t) && s.scanned <= s'.scanned && s'.seen == s.seen
    requires forall j :: t.next <= j < |t.names| ==>
               && SameAt(s.world.blobs, s'.world.blobs, OriginalKey(t.batchId, t.names[j]))
               && SameAt(s.world.blobs, s'.world.blobs, QuarantineKey(t.batchId, t.names[j]))
    ensures PollOk(s', t)
  {
  }

  lemma OthersKeepTask(s: State, e: Event)
    requires !e.WatcherCall? && s.poll.Some?
    ensures var s' := Step(s, e); s'.poll.Some? ==> s'.poll == s.poll && s'.seen == s.seen && s'.scanned == s.scanned
  {
  }

  /** What others do leaves the poll under way as it is. */
  lemma OthersKeepPoll(s: State, e: Event)
    requires StateOk(s) && !e.WatcherCall? && s.poll.Some?
    ensures var s' := Step(s, e); s'.poll.Some? ==> s'.poll == s.poll && PollOk(s', s'.poll.value)
  {
    var t, s' := s.poll.value, Step(s, e);
    OthersTouchElsewhere(s, e);
    OthersKeepTask(s, e);
    forall j | t.next <= j < |t.names|
      ensures SameAt(s.world.blobs, s'.world.blobs, OriginalKey(t.batchId, t.names[j]))
      ensures SameAt(s.world.blobs, s'.world.blobs, QuarantineKey(t.batchId, t.names[j]))
    {
      StepFrame(s, e, Original(t.batchId, t.names[j]));
      StepFrame(s, e, Quarantined(t.batchId, t.names[j]));
    }
    if s'.poll.Some? {
      SamePollOk(s, s', t);
    }
  }

  lemma PollStays(s: State, e: Event)
    requires StateOk(s) && EventOk(e)
    ensures var s' := Step(s, e); s'.poll.Some? ==> PollOk(s', s'.poll.value)
  {
    if s.poll.None? {
      if e.StartPoll? {
        StartPollOk(s, e);
      }
    } else if e.WatcherCall? {
      WatcherCallOk(s, e.env);
    } else {
      OthersKeepPoll(s, e);
    }
  }

  lemma ScannedGrows(s: State, e: Event)
    requires StateOk(s) && EventOk(e)
    ensures s.scanned <= Step(s, e).scanned <= Step(s, e).world.batches.Keys
    ensures forall b :: b in Step(s, e).scanned && b !in s.scanned ==> b !in s.world.batches
  {
    WorldStep(s, e);
  }

  /** A request that moves on: what it has stored has passed the endpoint's check. */
  lemma RequestCallOk(s: State, k: nat, answers: U.StoreEnv)
    requires StateOk(s) && k < |s.uploads| && s.uploads[k].next < |s.uploads[k].files|
    ensures var s' := Step(s, RequestCall(k, answers)); UploadOk(s', s'.uploads[k])
  {
    assert UploadOk(s, s.uploads[k]);
  }

  lemma PutOfAcceptable(blobs: map<string, Bytes>, key: string, f: U.UploadFile, put: Put)
    requires U.Acceptable(f) && key in blobs && UploadAccepts(U.NameOf(f), blobs[key])
    ensures var blobs' := Uploaded(blobs, key, f.content, put); key in blobs' && UploadAccepts(U.NameOf(f), blobs'[key])
  {
  }

  lemma RequestStoresAccepted(s: State, k: nat, answers: U.StoreEnv, own: Slot)
    requires StateOk(s) && Touched(s, RequestCall(k, answers)) == Some(own)
    requires KeyOf(own) in s.world.blobs && UploadAccepts(own.name, s.world.blobs[KeyOf(own)])
    ensures var blobs' := Step(s, RequestCall(k, answers)).world.blobs;
            KeyOf(own) in blobs' && UploadAccepts(own.name, blobs'[KeyOf(own)])
  {
    var u := s.uploads[k];
    assert UploadOk(s, u) && U.Acceptable(u.files[u.next]);
    PutOfAcceptable(s.world.blobs, KeyOf(own), u.files[u.next], answers.upload);
  }

  /** What is stored for a request under way stays acceptable, also if another event stores it again. */
  lemma StoredStaysAccepted(s: State, e: Event, u: UploadTask)
    requires StateOk(s) && UploadOk(s, u) && u.stored
    ensures KeyAt(u) in Step(s, e).world.blobs
    ensures UploadAccepts(U.NameOf(u.files[u.next]), Step(s, e).world.blobs[KeyAt(u)])
  {
    var own := Original(u.batchId, U.NameOf(u.files[u.next]));
    if Touched(s, e) != Some(own) {
      StepFrame(s, e, own);
    } else if e.RequestCall? {
      RequestStoresAccepted(s, e.index, e.answers, own);
    }
  }

  lemma UploadStays(s: State, e: Event, k: nat)
    requires StateOk(s) && EventOk(e) && k < |s.uploads| && !(e.RequestCall? && e.index == k)
    ensures UploadOk(Step(s, e), s.uploads[k])
  {
    var u := s.uploads[k];
    assert UploadOk(s, u);
    WorldStep(s, e);
    ScannedGrows(s, e);
    if u.stored {
      StoredStaysAccepted(s, e, u);
    }
  }

  lemma UploadTasks(s: State, e: Event)
    ensures var s' := Step(s, e);
            && |s.uploads| <= |s'.uploads|
            && (forall k :: 0 <= k < |s.uploads| && !(e.RequestCall? && e.index == k) ==> s'.uploads[k] == s.uploads[k])
            && (|s.uploads| < |s'.uploads| ==> e.StartRequest?)
  {
  }

  lemma NewUploadOk(s: State, e: Event)
    requires StateOk(s) && e.StartRequest? && |s.uploads| < |Step(s, e).uploads|
    ensures |Step(s, e).uploads| == |s.uploads| + 1 && UploadOk(Step(s, e), Step(s, e).uploads[|s.uploads|])
  {
    U.RefusalMeaning(e.files);
    assert forall j :: 0 <= j < |e.files| ==> e.files[j] in e.files;
  }

  lemma UploadsStay(s: State, e: Event)
    requires StateOk(s) && EventOk(e)
    ensures var s' := Step(s, e); forall k :: 0 <= k < |s'.uploads| ==> UploadOk(s', s'.uploads[k])
  {
    var s' := Step(s, e);
    UploadTasks(s, e);
    forall k | 0 <= k < |s'.uploads| ensures UploadOk(s', s'.uploads[k]) {
      if k >= |s.uploads| {
        NewUploadOk(s, e);
      } else if !(e.RequestCall? && e.index == k) {
        UploadStays(s, e, k);
      } else if s.uploads[k].next < |s.uploads[k].files| {
        RequestCallOk(s, k, e.answers);
      } else {
        assert UploadOk(s, s.uploads[k]);
      }
    }
  }

  /** The job a poll queues for its current file. */
  function QueuedBy(t: PollTask): Job
    requires t.next < |t.names|
  {
    Job(t.batchId, OriginalKey(t.batchId, t.names[t.next]), t.requestId)
  }

  /** The jobs an event adds to the queue. */
  function JobsQueued(s: State, e: Event): (jobs: seq<Job>)
    ensures |jobs| <= 1
  {
    match e
    case WatcherCall(env) =>
      if s.poll.Some? && s.poll.value.next < |s.poll.value.names| && s.poll.value.stage.Queueing?
         && env.enqueue != RaisedUnqueued then [QueuedBy(s.poll.value)]
      else []
    case RequestCall(k, answers) =>
      if k < |s.uploads| && s.uploads[k].next < |s.uploads[k].files| && s.uploads[k].stored
         && answers.enqueue != RaisedUnqueued
      then [Job(s.uploads[k].batchId, KeyAt(s.uploads[k]), s.uploads[k].requestId)]
      else []
    case _ => []
  }

  lemma JobsOfStep(s: State, e: Event)
    ensures Step(s, e).world.jobs == s.world.jobs + JobsQueued(s, e)
  {
  }

  lemma NewWatcherJobOk(s: State, env: FileEnv)
    requires StateOk(s) && s.poll.Some? && s.poll.value.stage.Queueing?
    ensures ScannedJobOk(Step(s, WatcherCall(env)), QueuedBy(s.poll.value))
  {
    var t := s.poll.value;
    FileOfKey(t.batchId, t.names[t.next], t.requestId);
    NoUploadFor(s, t.batchId);
  }

  lemma NoUploadFor(s: State, b: string)
    requires StateOk(s) && b in s.scanned
    ensures b in s.world.batches && forall k :: 0 <= k < |s.uploads| ==> s.uploads[k].batchId != b
  {
    forall k | 0 <= k < |s.uploads| ensures s.uploads[k].batchId != b {
      assert UploadOk(s, s.uploads[k]);
    }
  }

  lemma OldJobStays(s: State, e: Event, i: nat)
    requires StateOk(s) && EventOk(e) && i < |s.world.jobs|
    ensures ScannedJobOk(Step(s, e), s.world.jobs[i])
  {
    var job := s.world.jobs[i];
    assert JobBacked(s.world, job) && ScannedJobOk(s, job);
    ScannedGrows(s, e);
    if job.batchId in s.scanned {
      SealedStays(s, e, Original(job.batchId, FileOf(job)));
    }
  }

  lemma NewJobStays(s: State, e: Event, job: Job)
    requires StateOk(s) && EventOk(e) && JobsQueued(s, e) == [job]
    ensures ScannedJobOk(Step(s, e), job)
  {
    if e.WatcherCall? {
      NewWatcherJobOk(s, e.env);
    } else {
      assert UploadOk(s, s.uploads[e.index]);
      assert Step(s, e).scanned == s.scanned;
    }
  }

  lemma ScannedJobsStay(s: State, e: Event)
    requires StateOk(s) && EventOk(e)
    ensures var s' := Step(s, e); forall i :: 0 <= i < |s'.world.jobs| ==> ScannedJobOk(s', s'.world.jobs[i])
  {
    JobsOfStep(s, e);
    var jobs, s' := s.world.jobs + JobsQueued(s, e), Step(s, e);
    forall i | 0 <= i < |jobs| ensures ScannedJobOk(s', jobs[i]) {
      if i < |s.world.jobs| {
        OldJobStays(s, e, i);
      } else {
        NewJobStays(s, e, jobs[i]);
      }
    }
  }

  lemma StateStep(s: State, e: Event)
    requires StateOk(s) && EventOk(e)
    ensures StateOk(Step(s, e)) && Grows(s.world, Step(s, e).world)
  {
    WorldStep(s, e);
    ScannedGrows(s, e);
    PollStays(s, e);
    UploadsStay(s, e);
    ScannedJobsStay(s, e);
  }

  /* ---- runs ---- */

  lemma StartOk()
    ensures StateOk(State(World(map[], [], map[]), {}, {}, None, []))
  {
  }

  /** In every run of single calls, rows, jobs and objects are only added, and every job names an object that is there
      and has passed validation: the watcher's check if the watcher queued it, one of the two otherwise. Nothing over
      the size cap is ever stored, so an oversized file is never quarantined. */
  lemma {:induction false} RunKeeps(s: State, events: seq<Event>)
    requires StateOk(s) && EventsOk(events)
    ensures StateOk(Run(s, events)) && Grows(s.world, Run(s, events).world)
  {
    if events != [] {
      var front, e := events[..|events| - 1], events[|events| - 1];
      assert e in events;
      RunKeeps(s, front);
      StateStep(Run(s, front), e);
    }
  }

  /** A slot that no task under way will write keeps its content for ever. */
  lemma {:induction false} SealedForEver(s: State, slot: Slot, later: seq<Event>)
    requires StateOk(s) && EventsOk(later) && slot.batch in s.world.batches && Sealed(s, slot)
    ensures SameAt(s.world.blobs, Run(s, later).world.blobs, KeyOf(slot)) && Sealed(Run(s, later), slot)
  {
    if later != [] {
      var front := later[..|later| - 1];
      SealedForEver(s, slot, front);
      RunKeeps(s, front);
      SealedStays(Run(s, front), later[|later| - 1], slot);
    }
  }

  /** Neither a call of the watcher nor its end. */
  predicate ByOthers(events: seq<Event>) {
    forall e :: e in events ==> !e.WatcherCall? && !e.Restart?
  }

  lemma {:induction false} PollWaits(s: State, events: seq<Event>)
    requires StateOk(s) && EventsOk(events) && ByOthers(events) && s.poll.Some?
    ensures Run(s, events).poll == s.poll && Run(s, events).seen == s.seen
  {
    if events != [] {
      var front, e := events[..|events| - 1], events[|events| - 1];
      assert e in events;
      PollWaits(s, front);
      RunKeeps(s, front);
    }
  }

  /** The state after the watcher has made one call, others have done what they will, and the watcher has made its next
      call. */
  function TwoCalls(s: State, first: FileEnv, between: seq<Event>, second: FileEnv): State {
    Step(Run(Step(s, WatcherCall(first)), between), WatcherCall(second))
  }

  lemma TwoCallsOk(s: State, first: FileEnv, between: seq<Event>, second: FileEnv)
    requires StateOk(s) && EventsOk(between) && ByOthers(between)
    requires s.poll.Some? && Step(s, WatcherCall(first)).poll.Some?
    ensures var s2 := Run(Step(s, WatcherCall(first)), between);
            && s2.poll == Step(s, WatcherCall(first)).poll && StateOk(s2) && StateOk(Step(s2, WatcherCall(second)))
            && s2.seen == Step(s, WatcherCall(first)).seen
  {
    StateStep(s, WatcherCall(first));
    PollWaits(Step(s, WatcherCall(first)), between);
    RunKeeps(Step(s, WatcherCall(first)), between);
    StateStep(Run(Step(s, WatcherCall(first)), between), WatcherCall(second));
  }

  /** End-to-end byte integrity: once a download has returned bytes that pass validation and their upload has taken
      effect, whether it said so or raised, they are under the file's key in every later state, from the next call on,
      whatever polls, requests and workers do. */
  lemma ByteIntegrity(s: State, fetch: FileEnv, between: seq<Event>, put: FileEnv, later: seq<Event>)
    requires StateOk(s) && EventsOk(between) && ByOthers(between) && EventsOk(later)
    requires s.poll.Some? && s.poll.value.stage.Fetching? && Downloaded(fetch.download).Some?
    requires WatcherAccepts(s.poll.value.names[s.poll.value.next], Downloaded(fetch.download).value)
    requires put.upload != RaisedUnstored
    ensures var t, blobs := s.poll.value, Run(TwoCalls(s, fetch, between, put), later).world.blobs;
            var key := OriginalKey(t.batchId, t.names[t.next]);
            && key in blobs && blobs[key] == Downloaded(fetch.download).value
            && (SlashFree(t.names[t.next]) ==> FilenameOf(key) == t.names[t.next])
  {
    var t := s.poll.value;
    var slot, s3 := Original(t.batchId, t.names[t.next]), TwoCalls(s, fetch, between, put);
    TwoCallsOk(s, fetch, between, put);
    NoUploadFor(s3, t.batchId);
    SealedForEver(s3, slot, later);
    FilenameRoundTrip(t.batchId, t.names[t.next]);
  }

  /** From the call that queues it on, a job of the watcher stays in the queue and names bytes that passed the watcher's
      check and never change. */
  lemma JobIntegrity(s: State, i: nat, later: seq<Event>)
    requires StateOk(s) && EventsOk(later) && i < |s.world.jobs| && s.world.jobs[i].batchId in s.scanned
    ensures var w, w', job := s.world, Run(s, later).world, s.world.jobs[i];
            && i < |w'.jobs| && w'.jobs[i] == job
            && job.blobKey == OriginalKey(job.batchId, FileOf(job))
            && job.blobKey in w.blobs && job.blobKey in w'.blobs && w'.blobs[job.blobKey] == w.blobs[job.blobKey]
            && WatcherAccepts(FileOf(job), w'.blobs[job.blobKey])
  {
    var job := s.world.jobs[i];
    assert JobBacked(s.world, job) && ScannedJobOk(s, job);
    RunKeeps(s, later);
    SealedForEver(s, Original(job.batchId, FileOf(job)), later);
  }

  /** The call that puts a rejected file away. */
  lemma PutAway(s: State, put: FileEnv)
    requires StateOk(s) && s.poll.Some? && s.poll.value.stage.Quarantining?
    ensures var t, s' := s.poll.value, Step(s, WatcherCall(put));
            var b, name, data, blobs := t.batchId, t.names[t.next], t.stage.data, s'.world.blobs;
            && (QuarantineKey(b, name) in blobs <==> |data| <= MAX_FILE_BYTES && put.quarantine != RaisedUnstored)
            && (QuarantineKey(b, name) in blobs ==> blobs[QuarantineKey(b, name)] == data)
            && OriginalKey(b, name) !in blobs && b in s'.world.batches
            && Sealed(s', Original(b, name)) && Sealed(s', Quarantined(b, name))
  {
    var t := s.poll.value;
    NoUploadFor(s, t.batchId);
    StepFrame(s, WatcherCall(put), Original(t.batchId, t.names[t.next]));
  }

  lemma NoJobWithout(w: World, key: string)
    requires WorldOk(w) && key !in w.blobs
    ensures forall j :: 0 <= j < |w.jobs| ==> w.jobs[j].blobKey != key
  {
    forall j | 0 <= j < |w.jobs| ensures w.jobs[j].blobKey != key {
      assert JobBacked(w, w.jobs[j]);
    }
  }

  /** A download that does not pass validation: in every later state its bytes are under its quarantine key, exactly if
      they fit the cap and that upload took effect; nothing is ever under its original key, so no worker ever has a job
      for it. */
  lemma QuarantineIntegrity(s: State, fetch: FileEnv, between: seq<Event>, put: FileEnv, later: seq<Event>)
    requires StateOk(s) && EventsOk(between) && ByOthers(between) && EventsOk(later)
    requires s.poll.Some? && s.poll.value.stage.Fetching? && Downloaded(fetch.download).Some?
    requires !WatcherAccepts(s.poll.value.names[s.poll.value.next], Downloaded(fetch.download).value)
    ensures var t, data, w := s.poll.value, Downloaded(fetch.download).value,
                              Run(TwoCalls(s, fetch, between, put), later).world;
            var b, name := t.batchId, t.names[t.next];
            && (QuarantineKey(b, name) in w.blobs <==> |data| <= MAX_FILE_BYTES && put.quarantine != RaisedUnstored)
            && (QuarantineKey(b, name) in w.blobs ==> w.blobs[QuarantineKey(b, name)] == data)
            && OriginalKey(b, name) !in w.blobs
            && forall j :: 0 <= j < |w.jobs| ==> w.jobs[j].blobKey != OriginalKey(b, name)
  {
    var t, s3 := s.poll.value, TwoCalls(s, fetch, between, put);
    var b, name := t.batchId, t.names[t.next];
    TwoCallsOk(s, fetch, between, put);
    PutAway(Run(Step(s, WatcherCall(fetch)), between), put);
    SealedForEver(s3, Original(b, name), later);
    SealedForEver(s3, Quarantined(b, name), later);
    RunKeeps(s3, later);
    NoJobWithout(Run(s3, later).world, OriginalKey(b, name));
  }

  /* ---- the existence check ---- */

  /** The existence check before each upload never finds anything: the batch is new, so no original of it can be in
      the store. It recognises no file of an earlier poll, restart or not. */
  lemma ExistenceCheckNeverHits(s: State, events: seq<Event>, stat: Stat)
    requires StateOk(s) && EventsOk(events)
    ensures var t := Run(s, events);
            t.poll.Some? && t.poll.value.stage.Checking? ==>
              var p := t.poll.value;
              && p.next < |p.names|
              && Exists(t.world.blobs, OriginalKey(p.batchId, p.names[p.next]), stat) != Some(true)
  {
    RunKeeps(s, events);
  }

  /* ---- at most once ---- */

  /** The jobs that the watcher has queued since the queue was `from` long are for different files, none of them seen
      before. */
  ghost predicate QueuedOnce(jobs: seq<Job>, scanned: set<string>, seen: set<string>, before: set<string>, from: nat) {
    && (forall i :: from <= i < |jobs| && jobs[i].batchId in scanned ==>
          FileOf(jobs[i]) in seen && FileOf(jobs[i]) !in before)
    && (forall i, j :: from <= i < j < |jobs| && jobs[i].batchId in scanned && jobs[j].batchId in scanned ==>
          FileOf(jobs[i]) != FileOf(jobs[j]))
  }

  lemma RequestJobsNotScanned(s: State, k: nat, answers: U.StoreEnv)
    requires StateOk(s)
    ensures forall job :: job in JobsQueued(s, RequestCall(k, answers)) ==> job.batchId !in s.scanned
  {
    if k < |s.uploads| {
      assert UploadOk(s, s.uploads[k]);
    }
  }

  /** A job the watcher queues is for a file it had not seen. */
  lemma NewJobUnseen(s: State, e: Event)
    requires StateOk(s)
    ensures forall job :: job in JobsQueued(s, e) && job.batchId in s.scanned ==>
              FileOf(job) !in s.seen && FileOf(job) in Step(s, e).seen
  {
    if e.RequestCall? {
      RequestJobsNotScanned(s, e.index, e.answers);
    } else if e.WatcherCall? && s.poll.Some? {
      var t := s.poll.value;
      FileOfKey(t.batchId, t.names[t.next], t.requestId);
    }
  }

  lemma SeenGrows(s: State, e: Event)
    requires !e.Restart?
    ensures s.seen <= Step(s, e).seen
  {
  }

  lemma JobsOfKnownBatches(s: State, e: Event, i: nat)
    requires StateOk(s) && EventOk(e) && i < |Step(s, e).world.jobs|
    requires Step(s, e).world.jobs[i].batchId in Step(s, e).scanned
    ensures Step(s, e).world.jobs[i].batchId in s.scanned
  {
    ScannedGrows(s, e);
    JobsOfStep(s, e);
    if i < |s.world.jobs| {
      assert JobBacked(s.world, s.world.jobs[i]);
    }
  }

  lemma QueuedOnceAppend(jobs: seq<Job>, more: seq<Job>, scanned: set<string>, seen: set<string>, seen': set<string>,
                         before: set<string>, from: nat)
    requires QueuedOnce(jobs, scanned, seen, before, from) && from <= |jobs| && seen <= seen' && before <= seen
    requires |more| <= 1
    requires more != [] && more[0].batchId in scanned ==> FileOf(more[0]) !in seen && FileOf(more[0]) in seen'
    ensures QueuedOnce(jobs + more, scanned, seen', before, from)
  {
    var jobs' := jobs + more;
    forall i, j | from <= i < j < |jobs'| && jobs'[i].batchId in scanned && jobs'[j].batchId in scanned
      ensures FileOf(jobs'[i]) != FileOf(jobs'[j])
    {
      assert jobs'[i] == jobs[i] && FileOf(jobs[i]) in seen;
    }
  }

  lemma QueuedOnceStep(s: State, e: Event, before: set<string>, from: nat)
    requires StateOk(s) && EventOk(e) && !e.Restart? && before <= s.seen && from <= |s.world.jobs|
    requires QueuedOnce(s.world.jobs, s.scanned, s.seen, before, from)
    ensures var s' := Step(s, e); before <= s'.seen && QueuedOnce(s'.world.jobs, s'.scanned, s'.seen, before, from)
  {
    var s', more := Step(s, e), JobsQueued(s, e);
    SeenGrows(s, e);
    JobsOfStep(s, e);
    NewJobUnseen(s, e);
    assert more != [] ==> more[0] in more;
    QueuedOnceAppend(s.world.jobs, more, s.scanned, s.seen, s'.seen, before, from);
    forall i | 0 <= i < |s'.world.jobs| && s'.world.jobs[i].batchId in s'.scanned
      ensures s'.world.jobs[i].batchId in s.scanned
    {
      JobsOfKnownBatches(s, e, i);
    }
  }

  /** Within one session of the watcher, whatever fails and whatever else goes on, no file is queued twice, and none
      that was seen before. */
  lemma {:induction false} AtMostOnce(s: State, events: seq<Event>)
    requires StateOk(s) && EventsOk(events) && forall e :: e in events ==> !e.Restart?
    ensures var t := Run(s, events);
            s.seen <= t.seen && QueuedOnce(t.world.jobs, t.scanned, t.seen, s.seen, |s.world.jobs|)
  {
    if events != [] {
      var front, e := events[..|events| - 1], events[|events| - 1];
      assert e in events;
      AtMostOnce(s, front);
      RunKeeps(s, front);
      QueuedOnceStep(Run(s, front), e, s.seen, |s.world.jobs|);
    }
  }

  /* ---- files that are never fetched ---- */

  /** The watcher is at the download of `f`. */
  predicate FetchingFile(s: State, f: string) {
    s.poll.Some? && s.poll.value.stage.Fetching? && s.poll.value.next < |s.poll.value.names|
    && s.poll.value.names[s.poll.value.next] == f
  }

  /** Every download of `f` in the run raises. */
  ghost predicate NeverFetched(s: State, events: seq<Event>, f: string) {
    forall i :: 0 <= i < |events| && events[i].WatcherCall? && FetchingFile(Run(s, events[..i]), f) ==>
      Downloaded(events[i].env.download) == None
  }

  /** `f` has not been seen, and no download of it is in hand. */
  predicate Unsettled(s: State, f: string) {
    && f !in s.seen
    && (s.poll.Some? && s.poll.value.next < |s.poll.value.names| && s.poll.value.names[s.poll.value.next] == f ==>
          s.poll.value.stage.Checking? || s.poll.value.stage.Fetching?)
  }

  lemma UnsettledStays(s: State, e: Event, f: string)
    requires StateOk(s) && EventOk(e) && Unsettled(s, f)
    requires e.WatcherCall? && FetchingFile(s, f) ==> Downloaded(e.env.download) == None
    ensures Unsettled(Step(s, e), f)
  {
  }

  /** A file whose download always raises is never settled: in every later state it has not been seen, and every poll
      that lists it, and can insert its row, makes one more batch that counts it. A file over the size cap is of this
      kind, because the remote size is tested inside the download. */
  lemma {:induction false} OversizedNeverSettles(s: State, events: seq<Event>, f: string, poll: Event)
    requires StateOk(s) && EventsOk(events) && Unsettled(s, f) && NeverFetched(s, events, f)
    requires poll.StartPoll? && EventOk(poll) && poll.listing.Some? && f in poll.listing.value
    ensures var t := Run(s, events);
            && Unsettled(t, f)
            && (t.poll.None? && CommittedId(t.world.batches, poll.create).Some? ==>
                  Step(t, poll).scanned == t.scanned + {poll.create.id} && poll.create.id !in t.world.batches)
  {
    if events != [] {
      var front, e := events[..|events| - 1], events[|events| - 1];
      assert e in events;
      assert forall i :: 0 <= i < |front| ==> front[..i] == events[..i];
      OversizedNeverSettles(s, front, f, poll);
      RunKeeps(s, front);
      UnsettledStays(Run(s, front), e, f);
    }
  }
}
