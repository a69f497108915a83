/** API requests, inference jobs and cached readers, interleaved. A call is one atomic transaction; the cache deletions
    it owes follow one by one, and may stop short if the cache fails. A cached read on a miss is a database read and a
    later store into the cache. */
module Protocol {
  import opened Options
  import opened Records
  import opened CacheKeys
  import opened Transactions

  /** Where a job stands in its three calls. */
  datatype Pc = Marking | Saving | Finishing | Ended | Crashed

  /** `saved` is the identifier of the prediction the job has stored. */
  datatype RunningJob = RunningJob(data: PredictionData, pc: Pc, saved: Option<string>)

  /** A read that missed the cache; `view` is what it got from the database, until it has been stored. */
  datatype Read = Read(key: CacheKey, view: Option<View>)

  /** `calls` holds, for each committed call, the names it still has to delete; `lost` the names that a failed call
      will never delete. */
  datatype State = State(db: Db, cache: map<string, View>, calls: seq<seq<string>>, lost: set<string>,
                         pending: seq<Read>, jobs: seq<RunningJob>)

  datatype Event =
    | Request(call: Call, commits: bool)
    | Spawn(data: PredictionData)
    | JobStep(job: nat, predictionId: string, commits: bool)
    | Delete(index: nat)
    | Abandon(index: nat)
    | Miss(key: CacheKey)
    | Fill(read: nat)
    | Expire(name: string)

  function Names(keys: seq<CacheKey>): (names: seq<string>)
    ensures |names| == |keys|
  {
    seq(|keys|, i requires 0 <= i < |keys| => Render(keys[i]))
  }

  /** Only the workers save predictions and mark batches as processing or done. */
  predicate ApiCall(call: Call) {
    !call.SavePrediction? && !(call.Mark? && call.status != Failed)
  }

  function Perform(s: State, call: Call, commits: bool): State {
    match Tx(s.db, call)
    case Committed(db', owed) => if commits then s.(db := db', calls := s.calls + [Names(owed)]) else s
    case Refused(_) => s
  }

  /** The call a job makes next. */
  function JobCall(job: RunningJob, predictionId: string): Call
    requires job.pc.Marking? || job.pc.Saving? || job.pc.Finishing?
  {
    match job.pc
    case Marking => Mark(job.data.batchId, Processing)
    case Saving => SavePrediction(predictionId, job.data)
    case Finishing => Mark(job.data.batchId, Done)
  }

  /** A refused transition is swallowed; any other failure ends the job. */
  function JobAfter(job: RunningJob, predictionId: string, outcome: Outcome, commits: bool): RunningJob
    requires job.pc.Marking? || job.pc.Saving? || job.pc.Finishing?
  {
    var passed := if outcome.Committed? then commits else !job.pc.Saving? && outcome.error == InvalidStateTransition;
    if !passed then job.(pc := Crashed)
    else
      match job.pc
      case Marking => job.(pc := Saving)
      case Saving => job.(pc := Finishing, saved := Some(predictionId))
      case Finishing => job.(pc := Ended)
  }

  predicate Runnable(s: State, i: nat) {
    i < |s.jobs| && !s.jobs[i].pc.Ended? && !s.jobs[i].pc.Crashed?
  }

  function Step(s: State, e: Event, pages: Pages): State {
    match e
    case Request(call, commits) => if ApiCall(call) then Perform(s, call, commits) else s
    case Spawn(data) => s.(jobs := s.jobs + [RunningJob(data, Marking, None)])
    case JobStep(i, predictionId, commits) =>
      if !Runnable(s, i) then s
      else
        var call := JobCall(s.jobs[i], predictionId);
        var job := JobAfter(s.jobs[i], predictionId, Tx(s.db, call), commits);
        Perform(s, call, commits).(jobs := s.jobs[i := job])
    case Delete(i) =>
      if i >= |s.calls| || s.calls[i] == [] then s
      else
        var name := s.calls[i][0];
        s.(cache := s.cache - {name}, calls := s.calls[i := s.calls[i][1..]], lost := s.lost - {name})
    case Abandon(i) =>
      if i >= |s.calls| then s
      else s.(calls := s.calls[i := []], lost := s.lost + set name | name in s.calls[i])
    case Miss(key) =>
      if Render(key) in s.cache then s else s.(pending := s.pending + [Read(key, Fresh(s.db, key, pages))])
    case Fill(r) =>
      if r >= |s.pending| || s.pending[r].view == None then s
      else
        var read := s.pending[r];
        s.(cache := s.cache[Render(read.key) := read.view.value], pending := s.pending[r := read.(view := None)])
    case Expire(name) => s.(cache := s.cache - {name}, lost := s.lost - {name})
  }

  function Run(s: State, events: seq<Event>, pages: Pages): State {
    if events == [] then s
    else Step(Run(s, events[..|events| - 1], pages), events[|events| - 1], pages)
  }

  /* ---- every run of the protocol is a run of calls ---- */

  /** The call an event makes, if it makes one. */
  function CallOf(s: State, e: Event): seq<Attempt> {
    if e.Request? && ApiCall(e.call) then [Attempt(e.call, e.commits)]
    else if e.JobStep? && Runnable(s, e.job) then [Attempt(JobCall(s.jobs[e.job], e.predictionId), e.commits)]
    else []
  }

  function Calls(s: State, events: seq<Event>, pages: Pages): seq<Attempt> {
    if events == [] then []
    else
      var front := events[..|events| - 1];
      Calls(s, front, pages) + CallOf(Run(s, front, pages), events[|events| - 1])
  }

  lemma StepIsCall(s: State, e: Event, pages: Pages)
    ensures Step(s, e, pages).db == if CallOf(s, e) == [] then s.db else DbStep(s.db, CallOf(s, e)[0])
  {
  }

  /** So whatever holds of all runs of calls holds of the database in every interleaving. */
  lemma {:induction false} RunIsRunOfCalls(s: State, events: seq<Event>, pages: Pages)
    ensures Run(s, events, pages).db == DbRun(s.db, Calls(s, events, pages))
  {
    if events != [] {
      var front, e := events[..|events| - 1], events[|events| - 1];
      RunIsRunOfCalls(s, front, pages);
      StepIsCall(Run(s, front, pages), e, pages);
      var before, now := Calls(s, front, pages), CallOf(Run(s, front, pages), e);
      if now == [] {
        assert before + now == before;
      } else {
        DbRunAppend(s.db, before, now[0]);
        assert now == [now[0]];
      }
    }
  }

  lemma DbRunAppend(db: Db, attempts: seq<Attempt>, a: Attempt)
    ensures DbRun(db, attempts + [a]) == DbStep(DbRun(db, attempts), a)
  {
  }

  lemma {:induction false} DbOkInRuns(s: State, events: seq<Event>, pages: Pages)
    requires DbOk(s.db)
    ensures DbOk(Run(s, events, pages).db)
  {
    RunIsRunOfCalls(s, events, pages);
    RunKeepsIntegrity(s.db, Calls(s, events, pages));
  }
}
