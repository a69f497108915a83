/** `POST /upload/`: two validation passes, one batch, then one upload and one job per file. */
module UploadEndpoint {
  import opened Options
  import opened PyStrings
  import opened BlobKeys
  import opened Validators
  import opened Backend

  datatype UploadFile = UploadFile(filename: Option<string>, content: Bytes)

  datatype StoreEnv = StoreEnv(upload: Put, enqueue: Enqueue)

  /** `permitted` is the verdict of the permission check; `files(i)` tells how the calls for file `i` end. */
  datatype Request =
    Request(permitted: bool, files: seq<UploadFile>, requestId: string, create: Create, env: nat -> StoreEnv)

  datatype Response =
    | Forbidden
    | NoFiles
    | BadExtension(index: nat)
    | Empty(index: nat)
    | Oversized(index: nat)
    | BatchFailed
    | Interrupted(index: nat)
    | Accepted(batchId: string, jobs: seq<Job>)

  function NameOf(f: UploadFile): string {
    if f.filename.Some? then f.filename.value else ""
  }

  predicate NameOk(f: UploadFile) {
    ExtensionAccepted(NameOf(f))
  }

  predicate ContentOk(f: UploadFile) {
    ContentAccepted(f.content)
  }

  predicate Acceptable(f: UploadFile) {
    UploadAccepts(NameOf(f), f.content)
  }

  /** The first file that fails a test, if there is one. */
  function FirstBad(files: seq<UploadFile>, ok: UploadFile -> bool): (bad: Option<nat>)
    ensures bad == None ==> forall f :: f in files ==> ok(f)
    ensures bad.Some? ==>
              bad.value < |files| && !ok(files[bad.value]) && forall j :: 0 <= j < bad.value ==> ok(files[j])
  {
    if files == [] then None
    else if !ok(files[0]) then Some(0)
    else
      match FirstBad(files[1..], ok)
      case None => None
      case Some(i) => Some(i + 1)
  }

  /** The refusal a list of files earns: the first bad name, or else the first bad content. */
  function Refusal(files: seq<UploadFile>): Option<Response> {
    if files == [] then Some(NoFiles)
    else
      match FirstBad(files, NameOk)
      case Some(i) => Some(BadExtension(i))
      case None =>
        match FirstBad(files, ContentOk)
        case Some(i) => Some(if files[i].content == [] then Empty(i) else Oversized(i))
        case None => None
  }

  datatype LoopState = LoopState(blobs: map<string, Bytes>, jobs: seq<Job>, entries: seq<Job>, interrupted: Option<nat>)

  /** The first `n` files of an accepted request; the first raising call ends it. */
  function AfterFiles(w: World, files: seq<UploadFile>, batchId: string, requestId: string, env: nat -> StoreEnv,
                      n: nat): LoopState
    requires n <= |files|
  {
    if n == 0 then LoopState(w.blobs, w.jobs, [], None)
    else
      var p := AfterFiles(w, files, batchId, requestId, env, n - 1);
      var f, e := files[n - 1], env(n - 1);
      var key := OriginalKey(batchId, NameOf(f));
      var job := Job(batchId, key, requestId);
      if p.interrupted.Some? then p
      else
        var blobs := Uploaded(p.blobs, key, f.content, e.upload);
        if !UploadReturns(f.content, e.upload) then LoopState(blobs, p.jobs, p.entries, Some(n - 1))
        else
          var jobs := Enqueued(p.jobs, job, e.enqueue);
          if e.enqueue != Queued then LoopState(blobs, jobs, p.entries, Some(n - 1))
          else LoopState(blobs, jobs, p.entries + [job], None)
  }

  /** What follows the validation. */
  function Ingested(w: World, r: Request): (World, Response) {
    var w1 := w.(batches := BatchInserted(w.batches, |r.files|, r.create));
    if !CreateReturns(w.batches, r.create) then (w1, BatchFailed)
    else
      var p := AfterFiles(w1, r.files, r.create.id, r.requestId, r.env, |r.files|);
      (World(p.blobs, p.jobs, w1.batches),
       if p.interrupted.Some? then Interrupted(p.interrupted.value) else Accepted(r.create.id, p.entries))
  }

  function AfterRequest(w: World, r: Request): (World, Response) {
    if !r.permitted then (w, Forbidden)
    else
      match Refusal(r.files)
      case Some(refusal) => (w, refusal)
      case None => Ingested(w, r)
  }

  lemma {:induction false} InterruptedStays(w: World, files: seq<UploadFile>, batchId: string, requestId: string,
                                            env: nat -> StoreEnv, m: nat, n: nat)
    requires m <= n <= |files|
    requires AfterFiles(w, files, batchId, requestId, env, m).interrupted.Some?
    ensures AfterFiles(w, files, batchId, requestId, env, n) == AfterFiles(w, files, batchId, requestId, env, m)
  {
    if m < n {
      InterruptedStays(w, files, batchId, requestId, env, m, n - 1);
    }
  }

  /** The endpoint. */
  class Uploader {
    const backend: Stores

    constructor (backend: Stores)
      ensures this.backend == backend
    {
      this.backend := backend;
    }

    /** One validation loop over the files. */
    method Scan(files: seq<UploadFile>, ok: UploadFile -> bool) returns (bad: Option<nat>)
      ensures bad == FirstBad(files, ok)
    {
      var i := 0;
      while i < |files|
        invariant 0 <= i <= |files|
        invariant forall j :: 0 <= j < i ==> ok(files[j])
      {
        if !ok(files[i]) {
          assert files[i] in files;
          return Some(i);
        }
        i := i + 1;
      }
      return None;
    }

    /** Names of all files first, contents of all files second. */
    method Validate(files: seq<UploadFile>) returns (refusal: Option<Response>)
      ensures refusal == Refusal(files)
    {
      if files == [] {
        return Some(NoFiles);
      }
      var bad := Scan(files, NameOk);
      if bad.Some? {
        return Some(BadExtension(bad.value));
      }
      bad := Scan(files, ContentOk);
      if bad.Some? {
        return Some(if files[bad.value].content == [] then Empty(bad.value) else Oversized(bad.value));
      }
      return None;
    }

    /** Stores and queues the files in order, up to the first raising call. */
    method StoreAndQueue(files: seq<UploadFile>, batchId: string, requestId: string, env: nat -> StoreEnv)
      returns (jobs: seq<Job>, interrupted: Option<nat>)
      modifies backend`blobs, backend`jobs
      ensures AfterFiles(old(backend.View()), files, batchId, requestId, env, |files|) ==
              LoopState(backend.blobs, backend.jobs, jobs, interrupted)
    {
      ghost var w := backend.View();
      jobs := [];
      var i := 0;
      while i < |files|
        invariant 0 <= i <= |files|
        invariant AfterFiles(w, files, batchId, requestId, env, i) == LoopState(backend.blobs, backend.jobs, jobs, None)
      {
        var blobKey := OriginalKey(batchId, NameOf(files[i]));
        var ok := backend.Upload(blobKey, files[i].content, env(i).upload);
        if ok {
          ok := backend.EnqueueClassify(batchId, blobKey, requestId, env(i).enqueue);
        }
        if !ok {
          InterruptedStays(w, files, batchId, requestId, env, i + 1, |files|);
          return jobs, Some(i);
        }
        jobs := jobs + [Job(batchId, blobKey, requestId)];
        i := i + 1;
      }
      return jobs, None;
    }

    method UploadDocuments(r: Request) returns (response: Response)
      modifies backend
      ensures (backend.View(), response) == AfterRequest(old(backend.View()), r)
    {
      if !r.permitted {
        return Forbidden;
      }
      var refusal := Validate(r.files);
      if refusal.Some? {
        return refusal.value;
      }
      var ok := backend.CreateBatch(|r.files|, r.create);
      if !ok {
        return BatchFailed;
      }
      var jobs, interrupted := StoreAndQueue(r.files, r.create.id, r.requestId, r.env);
      return if interrupted.Some? then Interrupted(interrupted.value) else Accepted(r.create.id, jobs);
    }
  }

  /* ---- properties ---- */

  /** The jobs of the first `k` files, in order. */
  function JobsOf(files: seq<UploadFile>, batchId: string, requestId: string, k: nat): (jobs: seq<Job>)
    requires k <= |files|
    ensures |jobs| == k
  {
    seq(k, i requires 0 <= i < k => Job(batchId, OriginalKey(batchId, NameOf(files[i])), requestId))
  }

  /** Validation passes exactly when there is a file and every file is acceptable. */
  lemma RefusalMeaning(files: seq<UploadFile>)
    ensures Refusal(files) == None <==> files != [] && forall f :: f in files ==> Acceptable(f)
  {
    if Refusal(files) == None {
      forall f | f in files ensures Acceptable(f) {
        var i :| 0 <= i < |files| && files[i] == f;
      }
    } else if files != [] {
      assert exists i :: 0 <= i < |files| && !Acceptable(files[i]);
    }
  }

  /** One bad file, or none at all, and nothing is created, stored or queued. */
  lemma AllOrNothing(w: World, r: Request)
    requires r.files == [] || exists f :: f in r.files && !Acceptable(f)
    ensures AfterRequest(w, r).0 == w
    ensures var response := AfterRequest(w, r).1;
            response.Forbidden? || response.NoFiles? || response.BadExtension? || response.Empty? || response.Oversized?
  {
  }

  lemma {:induction false} JobsInOrder(w: World, files: seq<UploadFile>, batchId: string, requestId: string,
                                       env: nat -> StoreEnv, n: nat)
    requires n <= |files|
    ensures var p := AfterFiles(w, files, batchId, requestId, env, n);
            var k := if p.interrupted.Some? then p.interrupted.value else n;
            && k <= n
            && p.entries == JobsOf(files, batchId, requestId, k)
            && (p.interrupted.None? ==> p.jobs == w.jobs + p.entries)
            && (p.interrupted.Some? ==>
                  && k < n
                  && var queued := UploadReturns(files[k].content, env(k).upload) && env(k).enqueue == RaisedQueued;
                     p.jobs == w.jobs + if queued then JobsOf(files, batchId, requestId, k + 1) else p.entries)
  {
    if n > 0 {
      JobsInOrder(w, files, batchId, requestId, env, n - 1);
      var p := AfterFiles(w, files, batchId, requestId, env, n - 1);
      if p.interrupted.None? {
        var job := Job(batchId, OriginalKey(batchId, NameOf(files[n - 1])), requestId);
        assert JobsOf(files, batchId, requestId, n) == JobsOf(files, batchId, requestId, n - 1) + [job];
        assert w.jobs + p.entries + [job] == w.jobs + (p.entries + [job]);
      }
    }
  }

  /** A permitted request with acceptable files whose batch can be created: the batch records the number of files,
      and if a call for file `k` raises, exactly the first `k` files have jobs, in order and each with the key of its
      own name. (A queue call that raises after queueing leaves one job more.) */
  lemma OrderedEffect(w: World, r: Request)
    requires r.permitted && Refusal(r.files) == None && CreateReturns(w.batches, r.create)
    ensures var (w', response) := AfterRequest(w, r);
            && w'.batches == w.batches[r.create.id := |r.files|]
            && (response.Accepted? || response.Interrupted?)
            && (response.Accepted? ==>
                  && response == Accepted(r.create.id, JobsOf(r.files, r.create.id, r.requestId, |r.files|))
                  && w'.jobs == w.jobs + response.jobs)
            && (response.Interrupted? ==>
                  var k := response.index;
                  && k < |r.files|
                  && w'.jobs == w.jobs + JobsOf(r.files, r.create.id, r.requestId,
                                                if r.env(k).upload == Stored && r.env(k).enqueue == RaisedQueued
                                                then k + 1 else k))
  {
    assert AfterRequest(w, r) == Ingested(w, r);
    RefusalMeaning(r.files);
    AcceptableContent(r.files);
    JobsInOrder(w.(batches := w.batches[r.create.id := |r.files|]), r.files, r.create.id, r.requestId, r.env,
                |r.files|);
  }

  lemma AcceptableContent(files: seq<UploadFile>)
    requires forall f :: f in files ==> Acceptable(f)
    ensures forall i :: 0 <= i < |files| ==> |files[i].content| <= MAX_FILE_BYTES
  {
    forall i | 0 <= i < |files| ensures |files[i].content| <= MAX_FILE_BYTES {
      assert files[i] in files;
    }
  }

  /** If nothing raises for the files, the request is accepted. */
  lemma {:induction false} Uninterrupted(w: World, files: seq<UploadFile>, batchId: string, requestId: string,
                                         env: nat -> StoreEnv, n: nat)
    requires n <= |files|
    requires forall i :: 0 <= i < n ==> UploadReturns(files[i].content, env(i).upload) && env(i).enqueue == Queued
    ensures AfterFiles(w, files, batchId, requestId, env, n).interrupted.None?
  {
    if n > 0 {
      Uninterrupted(w, files, batchId, requestId, env, n - 1);
    }
  }

  /** After an uninterrupted pass each key holds the content of the last file of its name. */
  lemma {:induction false} LastOneWins(w: World, files: seq<UploadFile>, batchId: string, requestId: string,
                                       env: nat -> StoreEnv, n: nat, i: nat)
    requires i < n <= |files| && SlashFree(batchId)
    requires AfterFiles(w, files, batchId, requestId, env, n).interrupted.None?
    requires forall j :: i < j < n ==> NameOf(files[j]) != NameOf(files[i])
    ensures var p, key := AfterFiles(w, files, batchId, requestId, env, n), OriginalKey(batchId, NameOf(files[i]));
            key in p.blobs && p.blobs[key] == files[i].content
  {
    if i < n - 1 {
      LastOneWins(w, files, batchId, requestId, env, n - 1, i);
      OriginalKeyInjective(batchId, NameOf(files[i]), batchId, NameOf(files[n - 1]));
    }
  }

  /** The index of the last file, before `n`, with the name of file `i`. */
  function LastNamesake(files: seq<UploadFile>, i: nat, n: nat): (k: nat)
    requires i < n <= |files|
    ensures i <= k < n && NameOf(files[k]) == NameOf(files[i])
    ensures forall j :: k < j < n ==> NameOf(files[j]) != NameOf(files[i])
  {
    if NameOf(files[n - 1]) == NameOf(files[i]) then n - 1 else LastNamesake(files, i, n - 1)
  }

  lemma KeysHoldLastNamesakes(w: World, r: Request)
    requires CreateReturns(w.batches, r.create) && SlashFree(r.create.id) && Ingested(w, r).1.Accepted?
    ensures forall i :: 0 <= i < |r.files| ==>
              var key, blobs := OriginalKey(r.create.id, NameOf(r.files[i])), Ingested(w, r).0.blobs;
              key in blobs && blobs[key] == r.files[LastNamesake(r.files, i, |r.files|)].content
  {
    var files, id := r.files, r.create.id;
    var w1 := w.(batches := w.batches[id := |files|]);
    forall i | 0 <= i < |files|
      ensures var key, blobs := OriginalKey(id, NameOf(files[i])), Ingested(w, r).0.blobs;
              key in blobs && blobs[key] == files[LastNamesake(files, i, |files|)].content
    {
      LastOneWins(w1, files, id, r.requestId, r.env, |files|, LastNamesake(files, i, |files|));
    }
  }

  /** Whether every file of a request is found under the key of its job. */
  ghost predicate OwnContents(r: Request, batchId: string, blobs: map<string, Bytes>) {
    forall i :: 0 <= i < |r.files| ==>
      var key := OriginalKey(batchId, NameOf(r.files[i]));
      key in blobs && blobs[key] == r.files[i].content
  }

  ghost predicate NamesakesAreCopies(files: seq<UploadFile>) {
    forall i, j :: 0 <= i < j < |files| && NameOf(files[i]) == NameOf(files[j]) ==> files[i].content == files[j].content
  }

  lemma OwnContentIngested(w: World, r: Request)
    requires CreateReturns(w.batches, r.create) && SlashFree(r.create.id) && Ingested(w, r).1.Accepted?
    ensures OwnContents(r, r.create.id, Ingested(w, r).0.blobs) <==> NamesakesAreCopies(r.files)
  {
    var files, blobs, id := r.files, Ingested(w, r).0.blobs, r.create.id;
    KeysHoldLastNamesakes(w, r);
    if OwnContents(r, id, blobs) {
      forall i, j | 0 <= i < j < |files| && NameOf(files[i]) == NameOf(files[j])
        ensures files[i].content == files[j].content
      {
        assert blobs[OriginalKey(id, NameOf(files[i]))] == files[i].content;
        assert blobs[OriginalKey(id, NameOf(files[j]))] == files[j].content;
      }
    }
  }

  lemma AcceptedMeansIngested(w: World, r: Request)
    requires AfterRequest(w, r).1.Accepted?
    ensures AfterRequest(w, r) == Ingested(w, r) && CreateReturns(w.batches, r.create)
    ensures AfterRequest(w, r).1.batchId == r.create.id
  {
  }

  /** Every job of an accepted request finds its own file's content under its key if and only if files of one name
      have one content. The endpoint does not look for repeated names. */
  lemma OwnContent(w: World, r: Request)
    requires AfterRequest(w, r).1.Accepted? && SlashFree(AfterRequest(w, r).1.batchId)
    ensures OwnContents(r, AfterRequest(w, r).1.batchId, AfterRequest(w, r).0.blobs) <==> NamesakesAreCopies(r.files)
  {
    AcceptedMeansIngested(w, r);
    OwnContentIngested(w, r);
  }

  /* ---- which answer, and where a request stops ---- */

  /** The first file of a list that fails a test. */
  predicate FirstFailing(files: seq<UploadFile>, ok: UploadFile -> bool, i: nat) {
    i < |files| && !ok(files[i]) && forall j :: 0 <= j < i ==> ok(files[j])
  }

  /** Without permission the answer is 403 and nothing happens. Otherwise all names are tested before any content; a bad
      content is called empty if there is nothing in it and too large if it has more than 104857600 bytes. */
  lemma AnswerOrder(w: World, r: Request)
    ensures var answer := AfterRequest(w, r).1;
            && (answer == Forbidden <==> !r.permitted) && (!r.permitted ==> AfterRequest(w, r).0 == w)
            && (r.permitted ==>
                  && (answer == NoFiles <==> r.files == [])
                  && (forall i: nat :: answer == BadExtension(i) <==> FirstFailing(r.files, NameOk, i))
                  && ((forall f :: f in r.files ==> NameOk(f)) ==>
                        forall i: nat ::
                          && (answer == Empty(i) <==>
                                FirstFailing(r.files, ContentOk, i) && |r.files[i].content| == 0)
                          && (answer == Oversized(i) <==>
                                FirstFailing(r.files, ContentOk, i) && |r.files[i].content| > 104857600)))
  {
  }

  /** A file without a name is refused for its extension; any other is judged and stored by its own name. */
  lemma NamelessRefused(f: UploadFile)
    ensures f.filename == None || f.filename == Some("") ==> !NameOk(f)
    ensures f.filename.Some? ==> NameOf(f) == f.filename.value
  {
  }

  /** A call for the file raises. */
  predicate CallRaises(f: UploadFile, e: StoreEnv) {
    !UploadReturns(f.content, e.upload) || e.enqueue != Queued
  }

  /** A request stops at the first file for which a call raises, and only there. */
  lemma {:induction false} StopsAtFirstRaise(w: World, files: seq<UploadFile>, batchId: string, requestId: string,
                                             env: nat -> StoreEnv, n: nat)
    requires n <= |files|
    ensures var p := AfterFiles(w, files, batchId, requestId, env, n);
            && (p.interrupted.None? ==> forall i: nat :: i < n ==> !CallRaises(files[i], env(i)))
            && (p.interrupted.Some? ==>
                  var k := p.interrupted.value;
                  && k < n && CallRaises(files[k], env(k)) && forall i: nat :: i < k ==> !CallRaises(files[i], env(i)))
  {
    if n > 0 {
      StopsAtFirstRaise(w, files, batchId, requestId, env, n - 1);
    }
  }

  /** If the batch row cannot be made or the call that makes it raises, nothing is stored or queued; a row that was
      committed before the call raised stays. */
  lemma FailedCreation(w: World, r: Request)
    requires r.permitted && Refusal(r.files) == None && !CreateReturns(w.batches, r.create)
    ensures var (w', answer) := AfterRequest(w, r);
            && answer == BatchFailed && w'.blobs == w.blobs && w'.jobs == w.jobs
            && w'.batches ==
               if r.create.RaisedAfter? && r.create.id !in w.batches then w.batches[r.create.id := |r.files|]
               else w.batches
  {
  }
}
