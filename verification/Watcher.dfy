/** The SFTP watcher: one poll, and the loop over its files. */
module Watcher {
  import opened Options
  import opened BlobKeys
  import opened Validators
  import opened Backend

  /** The download of one file: a size gate on the remote size, then the bytes read, or an exception. */
  datatype Download = Fetched(remoteSize: Option<nat>, data: Bytes) | DownloadRaises

  /** How the external calls made for one file end. */
  datatype FileEnv = FileEnv(stat: Stat, download: Download, quarantine: Put, upload: Put, enqueue: Enqueue)

  datatype FileOutcome =
    | AlreadyPresent
    | DownloadFailed
    | Rejected
    | UploadFailed
    | EnqueueRaised(queued: bool)
    | Dispatched
    | Aborted    // the existence check raised, which ends the poll
    | Unreached  // an earlier call of the poll raised

  /** `seen` lives as long as the process. */
  datatype Session = Session(world: World, seen: set<string>)

  datatype Progress = Progress(session: Session, outcomes: seq<FileOutcome>)

  /** `listing` is `None` when the server cannot be listed; `files(i)` is about the `i`-th new file. */
  datatype PollEnv = PollEnv(listing: Option<seq<string>>, requestId: string, create: Create, files: nat -> FileEnv)

  /** `batch` is the batch row this poll committed, if any, and `names` its new files. */
  datatype PollResult =
    PollResult(session: Session, batch: Option<string>, names: seq<string>, outcomes: seq<FileOutcome>)

  /** The bytes a download call returns; `None` if it raises, as it does for a remote file over the cap. */
  function Downloaded(d: Download): Option<Bytes> {
    if d.DownloadRaises? then None
    else if d.remoteSize.Some? && d.remoteSize.value > MAX_FILE_BYTES then None
    else Some(d.data)
  }

  /** Outcomes after which the file is in `seen`. */
  predicate Settled(o: FileOutcome) {
    o.AlreadyPresent? || o.Rejected? || o.EnqueueRaised? || o.Dispatched?
  }

  predicate Stops(o: FileOutcome) {
    o.Aborted? || o.Unreached?
  }

  /** Outcomes that put a job in the queue. */
  predicate HasJob(o: FileOutcome) {
    o.Dispatched? || (o.EnqueueRaised? && o.queued)
  }

  /** What becomes of one file. */
  function OutcomeOf(w: World, filename: string, batchId: string, env: FileEnv): FileOutcome {
    match Exists(w.blobs, OriginalKey(batchId, filename), env.stat)
    case None => Aborted
    case Some(true) => AlreadyPresent
    case Some(false) =>
      match Downloaded(env.download)
      case None => DownloadFailed
      case Some(data) =>
        if RejectReason(filename, data).Some? then Rejected
        else if !UploadReturns(data, env.upload) then UploadFailed
        else if env.enqueue == Queued then Dispatched
        else EnqueueRaised(env.enqueue == RaisedQueued)
  }

  /** The session after one file, by its outcome. */
  function AfterFile(s: Session, filename: string, batchId: string, requestId: string, env: FileEnv): Session {
    var w, key := s.world, OriginalKey(batchId, filename);
    var o := OutcomeOf(w, filename, batchId, env);
    var data := if Downloaded(env.download).Some? then Downloaded(env.download).value else [];
    var blobs :=
      match o
      case Rejected => Uploaded(w.blobs, QuarantineKey(batchId, filename), data, env.quarantine)
      case UploadFailed => Uploaded(w.blobs, key, data, env.upload)
      case Dispatched => w.blobs[key := data]
      case EnqueueRaised(_) => w.blobs[key := data]
      case _ => w.blobs;
    var jobs := if HasJob(o) then w.jobs + [Job(batchId, key, requestId)] else w.jobs;
    Session(World(blobs, jobs, w.batches), if Settled(o) then s.seen + {filename} else s.seen)
  }

  /** The first `n` files of a poll, in order; nothing happens any more once a call has raised. */
  function AfterFiles(s: Session, names: seq<string>, batchId: string, requestId: string, files: nat -> FileEnv,
                      n: nat): (p: Progress)
    requires n <= |names|
    ensures |p.outcomes| == n
  {
    if n == 0 then Progress(s, [])
    else
      var p := AfterFiles(s, names, batchId, requestId, files, n - 1);
      if n > 1 && Stops(p.outcomes[n - 2]) then Progress(p.session, p.outcomes + [Unreached])
      else
        Progress(AfterFile(p.session, names[n - 1], batchId, requestId, files(n - 1)),
                 p.outcomes + [OutcomeOf(p.session.world, names[n - 1], batchId, files(n - 1))])
  }

  /** The entries of a listing that have not been seen, in order. */
  function NewNames(listing: seq<string>, seen: set<string>): (names: seq<string>)
    ensures forall f :: f in names <==> f in listing && f !in seen
  {
    if listing == [] then []
    else (if listing[0] !in seen then [listing[0]] else []) + NewNames(listing[1..], seen)
  }

  /** One poll. */
  function Poll(s: Session, env: PollEnv): PollResult {
    var names := if env.listing.Some? then NewNames(env.listing.value, s.seen) else [];
    var id := CommittedId(s.world.batches, env.create);
    if names == [] || id == None then PollResult(s, None, [], [])
    else
      var s1 := s.(world := s.world.(batches := s.world.batches[id.value := |names|]));
      if env.create.Created? then
        var p := AfterFiles(s1, names, id.value, env.requestId, env.files, |names|);
        PollResult(p.session, id, names, p.outcomes)
      else PollResult(s1, id, names, seq(|names|, _ => Unreached))
  }

  lemma {:induction false} StoppedStays(s: Session, names: seq<string>, batchId: string, requestId: string,
                                        files: nat -> FileEnv, m: nat, n: nat)
    requires 0 < m <= n <= |names|
    requires Stops(AfterFiles(s, names, batchId, requestId, files, m).outcomes[m - 1])
    ensures var p := AfterFiles(s, names, batchId, requestId, files, n);
            && Stops(p.outcomes[n - 1])
            && p.session == AfterFiles(s, names, batchId, requestId, files, m).session
  {
    if m < n {
      StoppedStays(s, names, batchId, requestId, files, m, n - 1);
    }
  }

  class SFTPWatcher {
    const backend: Stores
    var seen: set<string>

    constructor (backend: Stores)
      ensures this.backend == backend && seen == {}
    {
      this.backend := backend;
      seen := {};
    }

    function View(): Session
      reads this, backend
    {
      Session(backend.View(), seen)
    }

    /** The pipeline of one file. Returns whether it ran to its end; only the existence check can raise. */
    method ProcessFile(filename: string, batchId: string, requestId: string, env: FileEnv) returns (ended: bool)
      modifies this, backend
      ensures View() == AfterFile(old(View()), filename, batchId, requestId, env)
      ensures ended == !Stops(OutcomeOf(old(backend.View()), filename, batchId, env))
    {
      var blobKey := OriginalKey(batchId, filename);

      var present := Exists(backend.blobs, blobKey, env.stat);
      if present.None? {
        return false;
      }
      if present.value {
        seen := seen + {filename};
        return true;
      }

      var data := Downloaded(env.download);
      if data.None? {
        return true;
      }

      var reason := RejectReason(filename, data.value);
      if reason.Some? {
        var _ := backend.Upload(QuarantineKey(batchId, filename), data.value, env.quarantine);
        seen := seen + {filename};
        return true;
      }

      var ok := backend.Upload(blobKey, data.value, env.upload);
      if !ok {
        return true;
      }

      ok := backend.EnqueueClassify(batchId, blobKey, requestId, env.enqueue);
      seen := seen + {filename};
      return true;
    }

    method ListNewFiles(listing: Option<seq<string>>) returns (names: seq<string>)
      ensures names == if listing.Some? then NewNames(listing.value, seen) else []
    {
      if listing.None? {
        return [];
      }
      names := NewNames(listing.value, seen);
    }

    /** One poll; an exception inside it is logged by the loop around it, so it only ends the poll. */
    method PollOnce(env: PollEnv)
      modifies this, backend
      ensures View() == Poll(old(View()), env).session
    {
      ghost var s := View();
      var names := ListNewFiles(env.listing);
      if names == [] {
        return;
      }
      var ok := backend.CreateBatch(|names|, env.create);
      if !ok {
        return;
      }
      var batchId := env.create.id;
      ghost var s1 := View();
      var i := 0;
      while i < |names|
        invariant 0 <= i <= |names|
        invariant View() == AfterFiles(s1, names, batchId, env.requestId, env.files, i).session
        invariant i > 0 ==> !Stops(AfterFiles(s1, names, batchId, env.requestId, env.files, i).outcomes[i - 1])
      {
        var ended := ProcessFile(names[i], batchId, env.requestId, env.files(i));
        i := i + 1;
        if !ended {
          StoppedStays(s1, names, batchId, env.requestId, env.files, i, |names|);
          return;
        }
      }
    }
  }

  /* ---- what becomes of a file, call by call ---- */

  /** A download returns bytes unless it raises, and it does so for a remote file of more than 104857600 bytes. */
  lemma SizeGate(d: Download)
    ensures Downloaded(d) == None <==>
            d.DownloadRaises? || (d.remoteSize.Some? && d.remoteSize.value > 104857600)
    ensures Downloaded(d).Some? ==> Downloaded(d) == Some(d.data)
  {
  }

  /** A file that is not there yet. It is seen, and so never tried again, exactly if the download returned and the file
      was either rejected or stored without an error; whether the quarantine upload and the queue call raise does not
      matter. A job is queued exactly if it was stored without an error and the queue call took effect. A storage error
      in the existence check counts as absent; any other exception there ends the poll and changes nothing. */
  lemma FateOfAbsentFile(s: Session, name: string, batchId: string, requestId: string, env: FileEnv)
    requires OriginalKey(batchId, name) !in s.world.blobs && name !in s.seen
    ensures var s' := AfterFile(s, name, batchId, requestId, env);
            var data := if Downloaded(env.download).Some? then Downloaded(env.download).value else [];
            var tried := !env.stat.Raises? && Downloaded(env.download).Some?;
            var accepted := tried && WatcherAccepts(name, data);
            && (name in s'.seen <==> tried && (accepted ==> env.upload == Stored))
            && s'.seen <= s.seen + {name} && s.seen <= s'.seen
            && s'.world.jobs == s.world.jobs
                                + (if accepted && env.upload == Stored && env.enqueue != RaisedUnqueued
                                   then [Job(batchId, OriginalKey(batchId, name), requestId)] else [])
            && (accepted && env.upload != RaisedUnstored ==>
                  s'.world.blobs == s.world.blobs[OriginalKey(batchId, name) := data])
            && (tried && !accepted && env.quarantine != RaisedUnstored && |data| <= 104857600 ==>
                  s'.world.blobs == s.world.blobs[QuarantineKey(batchId, name) := data])
            && (!tried || (accepted && env.upload == RaisedUnstored)
                || (!accepted && (env.quarantine == RaisedUnstored || |data| > 104857600)) ==>
                  s'.world.blobs == s.world.blobs)
            && s'.world.batches == s.world.batches
            && (OutcomeOf(s.world, name, batchId, env) == Aborted <==> env.stat.Raises?)
  {
  }

  /** A file that is there already is only marked as seen, if the check gets an answer. */
  lemma FateOfPresentFile(s: Session, name: string, batchId: string, requestId: string, env: FileEnv)
    requires OriginalKey(batchId, name) in s.world.blobs && env.stat.Answers?
    ensures AfterFile(s, name, batchId, requestId, env) == s.(seen := s.seen + {name})
  {
  }

  /** New names keep the order of the listing. */
  lemma {:induction false} NewNamesKeepOrder(listing: seq<string>, more: seq<string>, seen: set<string>)
    ensures NewNames(listing + more, seen) == NewNames(listing, seen) + NewNames(more, seen)
    ensures |more| == 1 ==> NewNames(more, seen) == if more[0] in seen then [] else more
  {
    if listing == [] {
      assert listing + more == more;
    } else {
      assert (listing + more)[1..] == listing[1..] + more;
      NewNamesKeepOrder(listing[1..], more, seen);
    }
  }
}
