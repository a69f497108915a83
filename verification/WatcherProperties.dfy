/** What a poll accounts for, and what a whole session of polls guarantees. */
module WatcherProperties {
  import opened Options
  import opened PyStrings
  import opened BlobKeys
  import opened Backend
  import opened Watcher

  ghost predicate Distinct(names: seq<string>) {
    forall i, j :: 0 <= i < j < |names| ==> names[i] != names[j]
  }

  /** A directory does not list a name twice. */
  ghost predicate ListingOk(env: PollEnv) {
    env.listing.Some? ==> Distinct(env.listing.value)
  }

  /** How many outcomes are of a kind. */
  function Count(outcomes: seq<FileOutcome>, kind: FileOutcome -> bool): nat {
    if outcomes == [] then 0 else (if kind(outcomes[0]) then 1 else 0) + Count(outcomes[1..], kind)
  }

  function SettledNames(names: seq<string>, outcomes: seq<FileOutcome>): set<string>
    requires |outcomes| <= |names|
  {
    set i | 0 <= i < |outcomes| && Settled(outcomes[i]) :: names[i]
  }

  /** The names that got a job, in order. */
  function QueuedNames(names: seq<string>, outcomes: seq<FileOutcome>): seq<string>
    requires |outcomes| <= |names|
  {
    if outcomes == [] then []
    else
      var n := |outcomes| - 1;
      QueuedNames(names, outcomes[..n]) + if HasJob(outcomes[n]) then [names[n]] else []
  }

  function JobsFor(names: seq<string>, batchId: string, requestId: string): (jobs: seq<Job>)
    ensures |jobs| == |names|
  {
    seq(|names|, i requires 0 <= i < |names| => Job(batchId, OriginalKey(batchId, names[i]), requestId))
  }

  lemma {:induction false} SeenAfter(s: Session, names: seq<string>, batchId: string, requestId: string,
                                     files: nat -> FileEnv, n: nat)
    requires n <= |names|
    ensures var p := AfterFiles(s, names, batchId, requestId, files, n);
            && p.session.seen == s.seen + SettledNames(names, p.outcomes)
            && p.session.world.batches == s.world.batches
  {
    if n > 0 {
      var p := AfterFiles(s, names, batchId, requestId, files, n);
      var q := AfterFiles(s, names, batchId, requestId, files, n - 1);
      SeenAfter(s, names, batchId, requestId, files, n - 1);
      FileStep(s, names, batchId, requestId, files, n);
      SettledNamesStep(names, q.outcomes, p.outcomes[n - 1]);
      assert p.outcomes == q.outcomes + [p.outcomes[n - 1]];
    }
  }

  /** One more outcome: one more job, or none. */
  lemma JobsForStep(names: seq<string>, outcomes: seq<FileOutcome>, o: FileOutcome, batchId: string, requestId: string)
    requires |outcomes| < |names|
    ensures JobsFor(QueuedNames(names, outcomes + [o]), batchId, requestId) ==
            JobsFor(QueuedNames(names, outcomes), batchId, requestId)
            + if HasJob(o) then [Job(batchId, OriginalKey(batchId, names[|outcomes|]), requestId)] else []
  {
    QueuedStep(names, outcomes, o);
    if HasJob(o) {
      JobsForAppend(QueuedNames(names, outcomes), names[|outcomes|], batchId, requestId);
    }
  }

  lemma {:induction false} JobsAfter(s: Session, names: seq<string>, batchId: string, requestId: string,
                                     files: nat -> FileEnv, n: nat)
    requires n <= |names|
    ensures var p := AfterFiles(s, names, batchId, requestId, files, n);
            p.session.world.jobs == s.world.jobs + JobsFor(QueuedNames(names, p.outcomes), batchId, requestId)
  {
    if n > 0 {
      var p := AfterFiles(s, names, batchId, requestId, files, n);
      var q := AfterFiles(s, names, batchId, requestId, files, n - 1);
      JobsAfter(s, names, batchId, requestId, files, n - 1);
      FileStep(s, names, batchId, requestId, files, n);
      assert p.outcomes == q.outcomes + [p.outcomes[n - 1]];
      JobsForStep(names, q.outcomes, p.outcomes[n - 1], batchId, requestId);
    }
  }

  /** `seen` grows by exactly the settled names, and the queue by exactly one job for each queued name. */
  lemma SeenAndJobs(s: Session, names: seq<string>, batchId: string, requestId: string, files: nat -> FileEnv, n: nat)
    requires n <= |names|
    ensures var p := AfterFiles(s, names, batchId, requestId, files, n);
            && p.session.seen == s.seen + SettledNames(names, p.outcomes)
            && p.session.world.jobs == s.world.jobs + JobsFor(QueuedNames(names, p.outcomes), batchId, requestId)
            && p.session.world.batches == s.world.batches
  {
    SeenAfter(s, names, batchId, requestId, files, n);
    JobsAfter(s, names, batchId, requestId, files, n);
  }

  /** One more file, seen from outside. */
  lemma FileStep(s: Session, names: seq<string>, batchId: string, requestId: string, files: nat -> FileEnv, n: nat)
    requires 0 < n <= |names|
    ensures var q, p := AfterFiles(s, names, batchId, requestId, files, n - 1),
                        AfterFiles(s, names, batchId, requestId, files, n);
            var o := p.outcomes[n - 1];
            && p.session.seen == q.session.seen + (if Settled(o) then {names[n - 1]} else {})
            && p.session.world.batches == q.session.world.batches
            && p.session.world.jobs ==
               if HasJob(o) then q.session.world.jobs + [Job(batchId, OriginalKey(batchId, names[n - 1]), requestId)]
               else q.session.world.jobs
  {
  }

  lemma SettledNamesStep(names: seq<string>, outcomes: seq<FileOutcome>, o: FileOutcome)
    requires |outcomes| < |names|
    ensures SettledNames(names, outcomes + [o]) ==
            SettledNames(names, outcomes) + if Settled(o) then {names[|outcomes|]} else {}
  {
  }

  lemma QueuedStep(names: seq<string>, outcomes: seq<FileOutcome>, o: FileOutcome)
    requires |outcomes| < |names|
    ensures QueuedNames(names, outcomes + [o]) ==
            if HasJob(o) then QueuedNames(names, outcomes) + [names[|outcomes|]] else QueuedNames(names, outcomes)
  {
  }

  lemma JobsForAppend(names: seq<string>, name: string, batchId: string, requestId: string)
    ensures JobsFor(names + [name], batchId, requestId) ==
            JobsFor(names, batchId, requestId) + [Job(batchId, OriginalKey(batchId, name), requestId)]
  {
  }

  lemma {:induction false} QueuedCount(names: seq<string>, outcomes: seq<FileOutcome>)
    requires |outcomes| <= |names|
    ensures |QueuedNames(names, outcomes)| == Count(outcomes, HasJob)
  {
    if outcomes != [] {
      var n := |outcomes| - 1;
      QueuedCount(names, outcomes[..n]);
      CountAppend(outcomes[..n], outcomes[n], HasJob);
      assert outcomes == outcomes[..n] + [outcomes[n]];
    }
  }

  lemma {:induction false} CountAppend(outcomes: seq<FileOutcome>, o: FileOutcome, kind: FileOutcome -> bool)
    ensures Count(outcomes + [o], kind) == Count(outcomes, kind) + if kind(o) then 1 else 0
  {
    if outcomes != [] {
      assert (outcomes + [o])[1..] == outcomes[1..] + [o];
      CountAppend(outcomes[1..], o, kind);
    }
  }

  lemma {:induction false} KindsCover(outcomes: seq<FileOutcome>)
    ensures |outcomes| == Count(outcomes, (o: FileOutcome) => o.Dispatched?)
                          + Count(outcomes, (o: FileOutcome) => o.EnqueueRaised?)
                          + Count(outcomes, (o: FileOutcome) => o.Rejected?)
                          + Count(outcomes, (o: FileOutcome) => o.AlreadyPresent?)
                          + Count(outcomes, o => !Settled(o))
  {
    if outcomes != [] {
      KindsCover(outcomes[1..]);
    }
  }

  /** The names a poll does not settle are exactly the ones the next poll of the same names would pick up. */
  lemma {:induction false} UnsettledAreLeft(names: seq<string>, outcomes: seq<FileOutcome>, seen: set<string>)
    requires Distinct(names) && |outcomes| == |names| && forall f :: f in names ==> f !in seen
    ensures |NewNames(names, seen + SettledNames(names, outcomes))| == Count(outcomes, o => !Settled(o))
  {
    if names != [] {
      var rest, os := names[1..], outcomes[1..];
      var seen' := if Settled(outcomes[0]) then seen + {names[0]} else seen;
      SettledFirst(names, outcomes);
      assert seen + SettledNames(names, outcomes) == seen' + SettledNames(rest, os);
      assert forall i :: 0 <= i < |rest| ==> rest[i] == names[i + 1];
      assert names[0] !in rest;
      UnsettledAreLeft(rest, os, seen');
      assert names[0] !in SettledNames(rest, os);
    }
  }

  lemma SettledFirst(names: seq<string>, outcomes: seq<FileOutcome>)
    requires |outcomes| == |names| > 0
    ensures SettledNames(names, outcomes) ==
            (if Settled(outcomes[0]) then {names[0]} else {}) + SettledNames(names[1..], outcomes[1..])
  {
  }

  lemma {:induction false} NewNamesDistinct(listing: seq<string>, seen: set<string>)
    requires Distinct(listing)
    ensures Distinct(NewNames(listing, seen))
  {
    if listing != [] {
      var rest := listing[1..];
      assert forall i :: 0 <= i < |rest| ==> rest[i] == listing[i + 1];
      NewNamesDistinct(rest, seen);
      assert listing[0] !in rest;
      var news := NewNames(rest, seen);
      assert forall i :: 0 <= i < |news| ==> news[i] in rest;
    }
  }

  lemma {:induction false} AllUnreached(names: seq<string>, n: nat)
    requires n <= |names|
    ensures QueuedNames(names, seq(n, _ => Unreached)) == []
    ensures SettledNames(names, seq(n, _ => Unreached)) == {}
  {
    var os := seq(n, _ => Unreached);
    if n > 0 {
      assert os[..n - 1] == seq(n - 1, _ => Unreached);
      AllUnreached(names, n - 1);
    }
  }

  /** A poll in closed form. */
  lemma PollEffect(s: Session, env: PollEnv)
    ensures var r := Poll(s, env);
            && |r.outcomes| == |r.names|
            && r.session.seen == s.seen + SettledNames(r.names, r.outcomes)
            && (r.batch == None ==> r.session == s && r.names == [])
            && (r.batch.Some? ==>
                  && r.batch.value !in s.world.batches
                  && r.names != [] && env.listing.Some? && r.names == NewNames(env.listing.value, s.seen)
                  && r.session.world.batches == s.world.batches[r.batch.value := |r.names|]
                  && r.session.world.jobs ==
                     s.world.jobs + JobsFor(QueuedNames(r.names, r.outcomes), r.batch.value, env.requestId))
  {
    var r := Poll(s, env);
    if r.batch.Some? {
      var s1 := s.(world := s.world.(batches := s.world.batches[r.batch.value := |r.names|]));
      if env.create.Created? {
        SeenAndJobs(s1, r.names, r.batch.value, env.requestId, env.files, |r.names|);
      } else {
        AllUnreached(r.names, |r.names|);
        assert s.world.jobs + [] == s.world.jobs;
      }
    }
  }

  /** Conservation: the file count of a poll's batch is dispatched + queue-call-raised + rejected + already-present
      + left for a later poll; the jobs added are the ones queued; and no name left over has a job of this batch. */
  lemma PollAccounts(s: Session, env: PollEnv)
    requires ListingOk(env) && Poll(s, env).batch.Some? && SlashFree(Poll(s, env).batch.value)
    ensures s.world.jobs <= Poll(s, env).session.world.jobs
    ensures Poll(s, env).batch.value in Poll(s, env).session.world.batches
    ensures var r := Poll(s, env);
            var left := NewNames(r.names, r.session.seen);
            var added := r.session.world.jobs[|s.world.jobs|..];
            && r.session.world.batches[r.batch.value] ==
               Count(r.outcomes, (o: FileOutcome) => o.Dispatched?)
               + Count(r.outcomes, (o: FileOutcome) => o.EnqueueRaised?)
               + Count(r.outcomes, (o: FileOutcome) => o.Rejected?)
               + Count(r.outcomes, (o: FileOutcome) => o.AlreadyPresent?)
               + |left|
            && |added| == Count(r.outcomes, HasJob)
            && forall f, j :: f in left && j in added ==> j.blobKey != OriginalKey(r.batch.value, f)
  {
    var r := Poll(s, env);
    PollEffect(s, env);
    NewNamesDistinct(env.listing.value, s.seen);
    UnsettledAreLeft(r.names, r.outcomes, s.seen);
    KindsCover(r.outcomes);
    QueuedCount(r.names, r.outcomes);
    var queued, b := QueuedNames(r.names, r.outcomes), r.batch.value;
    QueuedAreSettled(r.names, r.outcomes);
    forall f, j | f in NewNames(r.names, r.session.seen) && j in JobsFor(queued, b, env.requestId)
      ensures j.blobKey != OriginalKey(b, f)
    {
      var i :| 0 <= i < |queued| && j == Job(b, OriginalKey(b, queued[i]), env.requestId);
      assert queued[i] in queued;
      OriginalKeyInjective(b, queued[i], b, f);
    }
  }

  lemma {:induction false} QueuedAreSettled(names: seq<string>, outcomes: seq<FileOutcome>)
    requires |outcomes| <= |names|
    ensures forall f :: f in QueuedNames(names, outcomes) ==> f in SettledNames(names, outcomes)
  {
    if outcomes != [] {
      var n := |outcomes| - 1;
      QueuedAreSettled(names, outcomes[..n]);
      SettledNamesStep(names, outcomes[..n], outcomes[n]);
      assert outcomes == outcomes[..n] + [outcomes[n]];
    }
  }

  lemma {:induction false} QueuedDistinct(names: seq<string>, outcomes: seq<FileOutcome>)
    requires |outcomes| <= |names| && Distinct(names)
    ensures Distinct(QueuedNames(names, outcomes))
    ensures forall f :: f in QueuedNames(names, outcomes) ==> f in names[..|outcomes|]
  {
    if outcomes != [] {
      var n := |outcomes| - 1;
      var queued := QueuedNames(names, outcomes[..n]);
      QueuedDistinct(names, outcomes[..n]);
      assert forall i :: 0 <= i < |queued| ==> queued[i] in names[..n];
      assert names[n] !in names[..n];
      assert names[..n + 1] == names[..n] + [names[n]];
    }
  }

  lemma {:induction false} QueuedMember(names: seq<string>, outcomes: seq<FileOutcome>, i: nat)
    requires i < |outcomes| <= |names| && HasJob(outcomes[i])
    ensures names[i] in QueuedNames(names, outcomes)
  {
    var n := |outcomes| - 1;
    if i < n {
      QueuedMember(names, outcomes[..n], i);
    }
  }
}
