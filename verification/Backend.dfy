/** What the ingestion paths act on: the object store, the job queue and the batch table, with the ways in which a
    call to each of them can end. */
module Backend {
  import opened Options
  import opened Validators

  /** A raising call may have taken effect before it raised. */
  datatype Put = Stored | RaisedUnstored | RaisedStored

  datatype Enqueue = Queued | RaisedUnqueued | RaisedQueued

  /** `id` is the identifier drawn for the new row. `RaisedAfter`: the row is committed, a later step raised. */
  datatype Create = Created(id: string) | RaisedBefore | RaisedAfter(id: string)

  /** The store's answer to a stat call, a storage error, or any other exception. */
  datatype Stat = Answers | StorageError | Raises

  datatype Job = Job(batchId: string, blobKey: string, requestId: string)

  /** `batches` maps a batch to its file count. */
  datatype World = World(blobs: map<string, Bytes>, jobs: seq<Job>, batches: map<string, nat>)

  /** The store after an upload; data over the cap raises before the store is touched. */
  function Uploaded(blobs: map<string, Bytes>, key: string, data: Bytes, put: Put): (r: map<string, Bytes>)
    ensures r == blobs || (|data| <= MAX_FILE_BYTES && r == blobs[key := data])
  {
    if |data| > MAX_FILE_BYTES || put == RaisedUnstored then blobs else blobs[key := data]
  }

  predicate UploadReturns(data: Bytes, put: Put) {
    |data| <= MAX_FILE_BYTES && put == Stored
  }

  /** `exists` turns a storage error into "absent" and lets any other exception through. */
  function Exists(blobs: map<string, Bytes>, key: string, stat: Stat): Option<bool> {
    match stat
    case Answers => Some(key in blobs)
    case StorageError => Some(false)
    case Raises => None
  }

  function Enqueued(jobs: seq<Job>, job: Job, e: Enqueue): seq<Job> {
    if e == RaisedUnqueued then jobs else jobs + [job]
  }

  /** The identifier of the row a create call commits; an identifier in use violates the primary key. */
  function CommittedId(batches: map<string, nat>, create: Create): Option<string> {
    if create == RaisedBefore || create.id in batches then None else Some(create.id)
  }

  function BatchInserted(batches: map<string, nat>, fileCount: nat, create: Create): map<string, nat> {
    match CommittedId(batches, create)
    case None => batches
    case Some(id) => batches[id := fileCount]
  }

  predicate CreateReturns(batches: map<string, nat>, create: Create) {
    create.Created? && create.id !in batches
  }

  class Stores {
    var blobs: map<string, Bytes>
    var jobs: seq<Job>
    var batches: map<string, nat>

    function View(): World
      reads this
    {
      World(blobs, jobs, batches)
    }

    constructor (w: World)
      ensures View() == w
    {
      blobs, jobs, batches := w.blobs, w.jobs, w.batches;
    }

    method Upload(key: string, data: Bytes, put: Put) returns (ok: bool)
      modifies this`blobs
      ensures blobs == Uploaded(old(blobs), key, data, put)
      ensures ok == UploadReturns(data, put)
    {
      if |data| > MAX_FILE_BYTES {
        return false;
      }
      if put != RaisedUnstored {
        blobs := blobs[key := data];
      }
      ok := put == Stored;
    }

    method EnqueueClassify(batchId: string, blobKey: string, requestId: string, e: Enqueue) returns (ok: bool)
      modifies this`jobs
      ensures jobs == Enqueued(old(jobs), Job(batchId, blobKey, requestId), e)
      ensures ok == (e == Queued)
    {
      if e != RaisedUnqueued {
        jobs := jobs + [Job(batchId, blobKey, requestId)];
      }
      ok := e == Queued;
    }

    method CreateBatch(fileCount: nat, create: Create) returns (ok: bool)
      modifies this`batches
      ensures batches == BatchInserted(old(batches), fileCount, create)
      ensures ok == CreateReturns(old(batches), create)
    {
      if create.RaisedBefore? || create.id in batches {
        return false;
      }
      batches := batches[create.id := fileCount];
      ok := create.Created?;
    }
  }
}
