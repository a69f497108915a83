/** When cached reads agree with the database. */
module CacheAgreement {
  import opened Options
  import opened Records
  import opened CacheKeys
  import opened Transactions
  import opened Protocol

  /** Some committed call still in flight has to delete the name. */
  ghost predicate Owed(s: State, name: string) {
    exists i :: 0 <= i < |s.calls| && name in s.calls[i]
  }

  /** Every entry that differs from a fresh read is owed a deletion, or was by a call whose deletions failed. */
  ghost predicate Agrees(s: State, pages: Pages) {
    forall k :: Render(k) in s.cache ==> AgreesAt(s, k, pages)
  }

  ghost predicate AgreesAt(s: State, k: CacheKey, pages: Pages)
    requires Render(k) in s.cache
  {
    Fresh(s.db, k, pages) == Some(s.cache[Render(k)]) || Owed(s, Render(k)) || Render(k) in s.lost
  }

  /* ---- a transaction only changes what it owes ---- */

  /** Relabelling a prediction does not show in another batch. */
  lemma {:induction false} OtherBatchUnchanged(t: Table<Prediction>, id: string, p: Prediction, ids: seq<string>,
                                               b: string)
    requires id in t.rows && t.rows[id].data.batchId != b && p.data.batchId != b
    ensures OfBatch(t.Update(id, p).NewestOf(ids), b) == OfBatch(t.NewestOf(ids), b)
  {
    if ids != [] {
      var last := ids[|ids| - 1];
      OtherBatchUnchanged(t, id, p, ids[..|ids| - 1], b);
      if last in t.rows {
        var rest, rest' := t.NewestOf(ids[..|ids| - 1]), t.Update(id, p).NewestOf(ids[..|ids| - 1]);
        assert ([t.rows[last]] + rest)[1..] == rest;
        assert ([t.Update(id, p).rows[last]] + rest')[1..] == rest';
      } else {
        assert t.NewestOf(ids) == t.NewestOf(ids[..|ids| - 1]);
        assert t.Update(id, p).NewestOf(ids) == t.Update(id, p).NewestOf(ids[..|ids| - 1]);
      }
    }
  }

  lemma SavedElsewhere(db: Db, call: Call, b: string)
    requires DbOk(db) && call.SavePrediction? && Tx(db, call).Committed? && b != call.data.batchId
    ensures OfBatch(Tx(db, call).db.predictions.Newest(), b) == OfBatch(db.predictions.Newest(), b)
  {
    var p := Prediction(call.id, call.data, None);
    NewestInsert(db.predictions, call.id, p);
    assert ([p] + db.predictions.Newest())[1..] == db.predictions.Newest();
  }

  lemma RelabelledElsewhere(db: Db, call: Call, b: string)
    requires call.Relabel? && Tx(db, call).Committed? && b != db.predictions.rows[call.predictionId].data.batchId
    ensures OfBatch(Tx(db, call).db.predictions.Newest(), b) == OfBatch(db.predictions.Newest(), b)
  {
    var p := db.predictions.rows[call.predictionId];
    var p' := p.(relabeledClass := Some(call.class_));
    OtherBatchUnchanged(db.predictions, call.predictionId, p', db.predictions.order, b);
  }

  lemma UserCallOwes(db: Db, call: Call, k: CacheKey, pages: Pages)
    requires Tx(db, call).Committed? && (call.CreateUser? || call.ChangeRole? || call.DeleteUser?)
    ensures || Fresh(db, k, pages) == None || k in Tx(db, call).owed
            || Fresh(Tx(db, call).db, k, pages) == Fresh(db, k, pages)
  {
  }

  lemma BatchCallOwes(db: Db, call: Call, k: CacheKey, pages: Pages)
    requires Tx(db, call).Committed? && (call.CreateBatch? || call.Mark?)
    ensures || Fresh(db, k, pages) == None || k in Tx(db, call).owed
            || Fresh(Tx(db, call).db, k, pages) == Fresh(db, k, pages)
  {
  }

  lemma PredictionCallOwes(db: Db, call: Call, k: CacheKey, pages: Pages)
    requires DbOk(db) && Tx(db, call).Committed? && (call.SavePrediction? || call.Relabel?)
    ensures || Fresh(db, k, pages) == None || k in Tx(db, call).owed
            || Fresh(Tx(db, call).db, k, pages) == Fresh(db, k, pages)
  {
    var db' := Tx(db, call).db;
    assert db'.users == db.users && db'.batches == db.batches;
    if k.PredictionsOfBatch? {
      if call.SavePrediction? {
        if k.id != call.data.batchId {
          SavedElsewhere(db, call, k.id);
        }
      } else if k.id != db.predictions.rows[call.predictionId].data.batchId {
        RelabelledElsewhere(db, call, k.id);
      }
    }
  }

  /** A committed call owes a deletion for every key whose fresh read it changes, unless that read had found nothing
      before. */
  lemma OwesWhatItChanges(db: Db, call: Call, k: CacheKey, pages: Pages)
    requires DbOk(db) && Tx(db, call).Committed?
    ensures || Fresh(db, k, pages) == None || k in Tx(db, call).owed
            || Fresh(Tx(db, call).db, k, pages) == Fresh(db, k, pages)
  {
    if call.CreateUser? || call.ChangeRole? || call.DeleteUser? {
      UserCallOwes(db, call, k, pages);
    } else if call.CreateBatch? || call.Mark? {
      BatchCallOwes(db, call, k, pages);
    } else {
      PredictionCallOwes(db, call, k, pages);
    }
  }

  /* ---- steps ---- */

  lemma OwedStays(s: State, call: Call, commits: bool, name: string)
    requires Owed(s, name)
    ensures Owed(Perform(s, call, commits), name)
  {
    var i :| 0 <= i < |s.calls| && name in s.calls[i];
    assert name in Perform(s, call, commits).calls[i];
  }

  lemma PerformAgrees(s: State, call: Call, commits: bool, pages: Pages)
    requires DbOk(s.db) && Agrees(s, pages)
    ensures Agrees(Perform(s, call, commits), pages)
  {
    var s' := Perform(s, call, commits);
    if Tx(s.db, call).Committed? && commits {
      forall k | Render(k) in s'.cache ensures AgreesAt(s', k, pages) {
        assert AgreesAt(s, k, pages);
        OwesWhatItChanges(s.db, call, k, pages);
        if Owed(s, Render(k)) {
          OwedStays(s, call, commits, Render(k));
        } else if k in Tx(s.db, call).owed {
          var owed := Tx(s.db, call).owed;
          var i :| 0 <= i < |owed| && owed[i] == k;
          assert Names(owed)[i] == Render(k);
          assert Render(k) in s'.calls[|s.calls|];
        }
      }
    }
  }

  lemma DeleteAgrees(s: State, i: nat, pages: Pages)
    requires Agrees(s, pages)
    ensures Agrees(Step(s, Delete(i), pages), pages)
  {
    var s' := Step(s, Delete(i), pages);
    if i < |s.calls| && s.calls[i] != [] {
      var name := s.calls[i][0];
      forall k | Render(k) in s'.cache ensures AgreesAt(s', k, pages) {
        assert AgreesAt(s, k, pages);
        if j :| 0 <= j < |s.calls| && Render(k) in s.calls[j] {
          assert Render(k) in s'.calls[j];
        }
      }
    }
  }

  lemma AbandonAgrees(s: State, i: nat, pages: Pages)
    requires Agrees(s, pages)
    ensures Agrees(Step(s, Abandon(i), pages), pages)
  {
    var s' := Step(s, Abandon(i), pages);
    if i < |s.calls| {
      forall k | Render(k) in s'.cache ensures AgreesAt(s', k, pages) {
        assert AgreesAt(s, k, pages);
        if j :| 0 <= j < |s.calls| && Render(k) in s.calls[j] {
          assert j != i ==> Render(k) in s'.calls[j];
        }
      }
    }
  }

  /** A read is timely if storing it now stores the current value, or a value some call is still about to delete. */
  ghost predicate Timely(s: State, r: nat, pages: Pages) {
    r < |s.pending| && s.pending[r].view.Some? ==>
      var k := s.pending[r].key;
      Fresh(s.db, k, pages) == s.pending[r].view || Owed(s, Render(k)) || Render(k) in s.lost
  }

  /** Storing a read keeps agreement exactly when the read is timely. */
  lemma FillAgreesIffTimely(s: State, r: nat, pages: Pages)
    requires Agrees(s, pages)
    ensures Agrees(Step(s, Fill(r), pages), pages) <==> Timely(s, r, pages)
  {
    var s' := Step(s, Fill(r), pages);
    if r < |s.pending| && s.pending[r].view.Some? {
      var k0 := s.pending[r].key;
      assert forall name :: Owed(s', name) <==> Owed(s, name);
      if Timely(s, r, pages) {
        forall k | Render(k) in s'.cache ensures AgreesAt(s', k, pages) {
          KeysDoNotCollide(k, k0);
          assert k != k0 ==> Render(k) in s.cache && AgreesAt(s, k, pages);
        }
      } else {
        assert !AgreesAt(s', k0, pages);
      }
    }
  }

  lemma StepAgrees(s: State, e: Event, pages: Pages)
    requires DbOk(s.db) && Agrees(s, pages) && (e.Fill? ==> Timely(s, e.read, pages))
    ensures Agrees(Step(s, e, pages), pages)
  {
    match e
    case Request(call, commits) => PerformAgrees(s, call, commits, pages);
    case JobStep(i, predictionId, commits) =>
      if Runnable(s, i) {
        var call := JobCall(s.jobs[i], predictionId);
        PerformAgrees(s, call, commits, pages);
        var p, s' := Perform(s, call, commits), Step(s, e, pages);
        forall k | Render(k) in s'.cache ensures AgreesAt(s', k, pages) {
          assert AgreesAt(p, k, pages);
          assert Owed(p, Render(k)) ==> Owed(s', Render(k));
        }
      }
    case Delete(i) => DeleteAgrees(s, i, pages);
    case Abandon(i) => AbandonAgrees(s, i, pages);
    case Fill(r) => FillAgreesIffTimely(s, r, pages);
    case _ =>
      var s' := Step(s, e, pages);
      forall k | Render(k) in s'.cache ensures AgreesAt(s', k, pages) {
        assert AgreesAt(s, k, pages);
        assert Owed(s, Render(k)) ==> Owed(s', Render(k));
      }
  }

  /** The step deletes the entry of a name, or lets it expire. */
  predicate Drops(s: State, e: Event, name: string) {
    match e
    case Delete(i) => i < |s.calls| && s.calls[i] != [] && s.calls[i][0] == name
    case Expire(n) => n == name
    case _ => false
  }

  /** The step commits a call that has to delete the entry of a key. */
  predicate Owes(s: State, e: Event, k: CacheKey) {
    var calls := CallOf(s, e);
    calls != [] && calls[0].commits && Tx(s.db, calls[0].call).Committed? && k in Tx(s.db, calls[0].call).owed
  }

  /** What a read has found stays current through every step that does not owe its deletion. */
  lemma UnowedReadUnchanged(s: State, e: Event, k: CacheKey, pages: Pages)
    requires DbOk(s.db) && !Owes(s, e, k) && Fresh(s.db, k, pages).Some?
    ensures Fresh(Step(s, e, pages).db, k, pages) == Fresh(s.db, k, pages)
  {
    var calls := CallOf(s, e);
    StepIsCall(s, e, pages);
    if calls != [] && calls[0].commits && Tx(s.db, calls[0].call).Committed? {
      OwesWhatItChanges(s.db, calls[0].call, k, pages);
    }
  }

  lemma TimelyThroughCall(s: State, call: Call, commits: bool, r: nat, pages: Pages)
    requires DbOk(s.db) && r < |s.pending| && Timely(s, r, pages)
    ensures Timely(Perform(s, call, commits), r, pages)
  {
    var k, s' := s.pending[r].key, Perform(s, call, commits);
    if Tx(s.db, call).Committed? && commits && s.pending[r].view.Some? {
      OwesWhatItChanges(s.db, call, k, pages);
      if Owed(s, Render(k)) {
        OwedStays(s, call, commits, Render(k));
      } else if k in Tx(s.db, call).owed {
        var owed := Tx(s.db, call).owed;
        var i :| 0 <= i < |owed| && owed[i] == k;
        assert Names(owed)[i] == Render(k);
        assert Render(k) in s'.calls[|s.calls|];
      }
    }
  }

  /** A read in waiting stays timely through every step that does not drop the entry of its name. */
  lemma TimelyStays(s: State, e: Event, r: nat, pages: Pages)
    requires DbOk(s.db) && r < |s.pending| && Timely(s, r, pages) && !Drops(s, e, Render(s.pending[r].key))
    ensures var s' := Step(s, e, pages);
            r < |s'.pending| && s'.pending[r].key == s.pending[r].key && Timely(s', r, pages)
  {
    var name, s' := Render(s.pending[r].key), Step(s, e, pages);
    match e
    case Request(call, commits) => TimelyThroughCall(s, call, commits, r, pages);
    case JobStep(i, predictionId, commits) =>
      if Runnable(s, i) {
        var call := JobCall(s.jobs[i], predictionId);
        TimelyThroughCall(s, call, commits, r, pages);
        assert forall n :: Owed(Perform(s, call, commits), n) ==> Owed(s', n);
      }
    case Delete(i) =>
      if i < |s.calls| && s.calls[i] != [] {
        if j :| 0 <= j < |s.calls| && name in s.calls[j] {
          assert name in s'.calls[j];
        }
      }
    case Abandon(i) =>
      if i < |s.calls| {
        if j :| 0 <= j < |s.calls| && name in s.calls[j] {
          assert j != i ==> name in s'.calls[j];
        }
      }
    case _ => assert forall n :: Owed(s, n) ==> Owed(s', n);
  }

  /* ---- runs ---- */

  /** The state before event `i` of a run. */
  function Before(s: State, events: seq<Event>, i: nat, pages: Pages): State
    requires i <= |events|
  {
    Run(s, events[..i], pages)
  }

  lemma BeforeNext(s: State, events: seq<Event>, i: nat, pages: Pages)
    requires i < |events|
    ensures Before(s, events, i + 1, pages) == Step(Before(s, events, i, pages), events[i], pages)
  {
    assert events[..i + 1][..i] == events[..i];
  }

  /** Event `m` of a run is the miss that starts read `r`. */
  predicate Starts(s: State, events: seq<Event>, m: nat, r: nat, pages: Pages)
    requires m < |events|
  {
    var t := Before(s, events, m, pages);
    events[m].Miss? && Render(events[m].key) !in t.cache && r == |t.pending|
  }

  /** Event `i` of a run stores a read. */
  predicate StoresRead(s: State, events: seq<Event>, i: nat, pages: Pages)
    requires i < |events|
  {
    var t := Before(s, events, i, pages);
    events[i].Fill? && events[i].read < |t.pending| && t.pending[events[i].read].view.Some?
  }

  /** The read that event `m` starts is overtaken before event `n`: a commit that owes the entry of its name a deletion
      is followed by a deletion or an expiry of that entry. */
  ghost predicate Overtaken(s: State, events: seq<Event>, m: nat, n: nat, pages: Pages)
    requires m < n <= |events| && events[m].Miss?
  {
    exists j, d :: m < j < d < n && Owes(Before(s, events, j, pages), events[j], events[m].key)
                   && Drops(Before(s, events, d, pages), events[d], Render(events[m].key))
  }

  /** The condition on a schedule: no read that is stored has been overtaken by then. */
  ghost predicate NoneOvertaken(s: State, events: seq<Event>, pages: Pages) {
    forall m, i :: 0 <= m < i < |events| && StoresRead(s, events, i, pages)
                   && Starts(s, events, m, events[i].read, pages) ==>
      !Overtaken(s, events, m, i, pages)
  }

  /** Reads that are one step: what stores a read follows directly on the miss that starts it. */
  predicate AtomicReads(s: State, events: seq<Event>, pages: Pages) {
    forall i :: 0 <= i < |events| && events[i].Fill? ==>
      i > 0 && events[i - 1].Miss? && events[i].read == |Before(s, events, i - 1, pages).pending|
  }

  lemma {:induction false} ReadHasStart(s: State, events: seq<Event>, n: nat, r: nat, pages: Pages) returns (m: nat)
    requires n <= |events| && s.pending == [] && r < |Before(s, events, n, pages).pending|
    ensures m < n && Starts(s, events, m, r, pages)
  {
    if n == 0 {
      assert false;
    } else {
      BeforeNext(s, events, n - 1, pages);
      if r < |Before(s, events, n - 1, pages).pending| {
        m := ReadHasStart(s, events, n - 1, r, pages);
      } else {
        m := n - 1;
      }
    }
  }

  lemma NewReadIsTimely(s: State, events: seq<Event>, m: nat, r: nat, pages: Pages)
    requires m < |events| && Starts(s, events, m, r, pages)
    ensures var t := Before(s, events, m + 1, pages);
            r < |t.pending| && t.pending[r].key == events[m].key && Timely(t, r, pages)
  {
    BeforeNext(s, events, m, pages);
  }

  /** Until it is stored, a read keeps what it found when it started. */
  lemma {:induction false} ReadKeepsView(s: State, events: seq<Event>, m: nat, n: nat, r: nat, pages: Pages)
    requires m < n <= |events| && Starts(s, events, m, r, pages)
    ensures var t := Before(s, events, n, pages);
            && r < |t.pending| && t.pending[r].key == events[m].key
            && (t.pending[r].view.Some? ==>
                  t.pending[r].view == Fresh(Before(s, events, m, pages).db, events[m].key, pages))
  {
    BeforeNext(s, events, n - 1, pages);
    if m < n - 1 {
      ReadKeepsView(s, events, m, n - 1, r, pages);
    }
  }

  /** As long as no commit owes its key a deletion, what a read found is current. */
  lemma {:induction false} UnowedUntil(s: State, events: seq<Event>, m: nat, n: nat, k: CacheKey, pages: Pages)
    requires DbOk(s.db) && m <= n <= |events| && Fresh(Before(s, events, m, pages).db, k, pages).Some?
    requires forall j :: m <= j < n ==> !Owes(Before(s, events, j, pages), events[j], k)
    ensures Fresh(Before(s, events, n, pages).db, k, pages) == Fresh(Before(s, events, m, pages).db, k, pages)
  {
    if m < n {
      UnowedUntil(s, events, m, n - 1, k, pages);
      DbOkInRuns(s, events[..n - 1], pages);
      UnowedReadUnchanged(Before(s, events, n - 1, pages), events[n - 1], k, pages);
      BeforeNext(s, events, n - 1, pages);
    }
  }

  lemma CommitThenDrop(s: State, events: seq<Event>, m: nat, j: nat, d: nat, pages: Pages)
    requires m < j < d < |events| && events[m].Miss?
    ensures Owes(Before(s, events, j, pages), events[j], events[m].key)
            && Drops(Before(s, events, d, pages), events[d], Render(events[m].key)) ==>
              Overtaken(s, events, m, d + 1, pages)
  {
  }

  lemma NothingOwedBeforeDrop(s: State, events: seq<Event>, m: nat, n: nat, pages: Pages)
    requires m < n < |events| && events[m].Miss? && !Overtaken(s, events, m, n + 1, pages)
    requires Drops(Before(s, events, n, pages), events[n], Render(events[m].key))
    ensures forall j :: m <= j < n + 1 ==> !Owes(Before(s, events, j, pages), events[j], events[m].key)
  {
    forall j | m < j < n ensures !Owes(Before(s, events, j, pages), events[j], events[m].key) {
      CommitThenDrop(s, events, m, j, n, pages);
    }
  }

  /** A read whose name has been dropped but that has not been overtaken is current: no commit came before the drop. */
  lemma DroppedButCurrent(s: State, events: seq<Event>, m: nat, n: nat, r: nat, pages: Pages)
    requires DbOk(s.db) && m < n < |events| && Starts(s, events, m, r, pages)
    requires !Overtaken(s, events, m, n + 1, pages)
    requires Drops(Before(s, events, n, pages), events[n], Render(events[m].key))
    ensures r < |Before(s, events, n + 1, pages).pending| && Timely(Before(s, events, n + 1, pages), r, pages)
  {
    ReadKeepsView(s, events, m, n + 1, r, pages);
    if Before(s, events, n + 1, pages).pending[r].view.Some? {
      NothingOwedBeforeDrop(s, events, m, n, pages);
      UnowedUntil(s, events, m, n + 1, events[m].key, pages);
    }
  }

  lemma StaysOvertaken(s: State, events: seq<Event>, m: nat, n: nat, pages: Pages)
    requires m < n < |events| && events[m].Miss?
    ensures Overtaken(s, events, m, n, pages) ==> Overtaken(s, events, m, n + 1, pages)
  {
  }

  /** A read that has not been overtaken is timely. */
  lemma {:induction false} NotOvertakenIsTimely(s: State, events: seq<Event>, m: nat, n: nat, r: nat, pages: Pages)
    requires DbOk(s.db) && m < n <= |events| && Starts(s, events, m, r, pages)
    requires !Overtaken(s, events, m, n, pages)
    ensures r < |Before(s, events, n, pages).pending| && Timely(Before(s, events, n, pages), r, pages)
  {
    if m == n - 1 {
      BeforeNext(s, events, m, pages);
    } else if Drops(Before(s, events, n - 1, pages), events[n - 1], Render(events[m].key)) {
      DroppedButCurrent(s, events, m, n - 1, r, pages);
    } else {
      StaysOvertaken(s, events, m, n - 1, pages);
      NotOvertakenIsTimely(s, events, m, n - 1, r, pages);
      ReadKeepsView(s, events, m, n - 1, r, pages);
      DbOkInRuns(s, events[..n - 1], pages);
      TimelyStays(Before(s, events, n - 1, pages), events[n - 1], r, pages);
      BeforeNext(s, events, n - 1, pages);
    }
  }

  /** The store of a read that has been overtaken, whose value has changed, and whose name nobody is going to delete. */
  ghost predicate StaleStore(s: State, events: seq<Event>, m: nat, i: nat, pages: Pages)
    requires m < i < |events| && events[m].Miss?
  {
    var k, t := events[m].key, Before(s, events, i, pages);
    && StoresRead(s, events, i, pages) && Starts(s, events, m, events[i].read, pages)
    && Overtaken(s, events, m, i, pages)
    && Fresh(t.db, k, pages) != Fresh(Before(s, events, m, pages).db, k, pages)
    && !Owed(t, Render(k)) && Render(k) !in t.lost
  }

  /** A stored read puts what it found into the cache, and keeps agreement if and only if it is not such a store. */
  lemma StoreAgreesIff(s: State, events: seq<Event>, m: nat, i: nat, pages: Pages)
    requires DbOk(s.db) && m < i < |events|
    requires StoresRead(s, events, i, pages) && Starts(s, events, m, events[i].read, pages)
    ensures var k, t := events[m].key, Before(s, events, i + 1, pages);
            && Render(k) in t.cache
            && Some(t.cache[Render(k)]) == Fresh(Before(s, events, m, pages).db, k, pages)
            && (StaleStore(s, events, m, i, pages) ==> !AgreesAt(t, k, pages))
    ensures Agrees(Before(s, events, i, pages), pages) ==>
              (Agrees(Before(s, events, i + 1, pages), pages) <==> !StaleStore(s, events, m, i, pages))
  {
    var t, r := Before(s, events, i, pages), events[i].read;
    BeforeNext(s, events, i, pages);
    ReadKeepsView(s, events, m, i, r, pages);
    if !Overtaken(s, events, m, i, pages) {
      NotOvertakenIsTimely(s, events, m, i, r, pages);
    }
    assert Timely(t, r, pages) <==> !StaleStore(s, events, m, i, pages);
    assert forall name :: Owed(Before(s, events, i + 1, pages), name) <==> Owed(t, name);
    if Agrees(t, pages) {
      FillAgreesIffTimely(t, r, pages);
    }
  }

  ghost predicate AgreesThroughout(s: State, events: seq<Event>, n: nat, pages: Pages)
    requires n <= |events|
  {
    forall i :: 0 <= i <= n ==> Agrees(Before(s, events, i, pages), pages)
  }

  ghost predicate NoStaleStore(s: State, events: seq<Event>, n: nat, pages: Pages)
    requires n <= |events|
  {
    forall m, i :: 0 <= m < i < n && events[m].Miss? ==> !StaleStore(s, events, m, i, pages)
  }

  lemma NextAgrees(s: State, events: seq<Event>, n: nat, pages: Pages)
    requires DbOk(s.db) && s.pending == [] && n < |events| && NoStaleStore(s, events, n + 1, pages)
    requires Agrees(Before(s, events, n, pages), pages)
    ensures Agrees(Before(s, events, n + 1, pages), pages)
  {
    if StoresRead(s, events, n, pages) {
      var m := ReadHasStart(s, events, n, events[n].read, pages);
      StoreAgreesIff(s, events, m, n, pages);
    } else {
      DbOkInRuns(s, events[..n], pages);
      StepAgrees(Before(s, events, n, pages), events[n], pages);
      BeforeNext(s, events, n, pages);
    }
  }

  lemma {:induction false} NoStaleStoreAgrees(s: State, events: seq<Event>, n: nat, pages: Pages)
    requires DbOk(s.db) && Agrees(s, pages) && s.pending == [] && n <= |events| && NoStaleStore(s, events, n, pages)
    ensures AgreesThroughout(s, events, n, pages)
  {
    if n > 0 {
      NoStaleStoreAgrees(s, events, n - 1, pages);
      NextAgrees(s, events, n - 1, pages);
    }
  }

  /** The exact condition: agreement holds throughout a run if and only if the run has no such store. */
  lemma AgreesIffNoStaleStore(s: State, events: seq<Event>, pages: Pages)
    requires DbOk(s.db) && Agrees(s, pages) && s.pending == []
    ensures AgreesThroughout(s, events, |events|, pages) <==> NoStaleStore(s, events, |events|, pages)
  {
    if NoStaleStore(s, events, |events|, pages) {
      NoStaleStoreAgrees(s, events, |events|, pages);
    } else {
      var m, i :| 0 <= m < i < |events| && events[m].Miss? && StaleStore(s, events, m, i, pages);
      StoreAgreesIff(s, events, m, i, pages);
      assert !Agrees(Before(s, events, i + 1, pages), pages);
    }
  }

  lemma NoneOvertakenNoneStale(s: State, events: seq<Event>, pages: Pages)
    requires NoneOvertaken(s, events, pages)
    ensures NoStaleStore(s, events, |events|, pages)
  {
  }

  /** In every interleaving of writers, workers and readers in which no read is overtaken before it is stored, an entry
      that differs from a fresh read has its name among the deletions still owed, or lost to a cache failure. */
  lemma CacheAgrees(s: State, events: seq<Event>, pages: Pages)
    requires DbOk(s.db) && Agrees(s, pages) && s.pending == [] && NoneOvertaken(s, events, pages)
    ensures Agrees(Run(s, events, pages), pages)
  {
    NoneOvertakenNoneStale(s, events, pages);
    AgreesIffNoStaleStore(s, events, pages);
    assert Agrees(Before(s, events, |events|, pages), pages);
    assert events[..|events|] == events;
  }

  lemma {:induction false} PendingGrows(s: State, events: seq<Event>, m: nat, n: nat, pages: Pages)
    requires m <= n <= |events|
    ensures |Before(s, events, m, pages).pending| <= |Before(s, events, n, pages).pending|
  {
    if m < n {
      PendingGrows(s, events, m, n - 1, pages);
      BeforeNext(s, events, n - 1, pages);
    }
  }

  lemma AtomicReadsAreAdjacent(s: State, events: seq<Event>, m: nat, i: nat, pages: Pages)
    requires AtomicReads(s, events, pages) && m < i < |events| && events[i].Fill?
    requires Starts(s, events, m, events[i].read, pages)
    ensures i == m + 1
  {
    BeforeNext(s, events, m, pages);
    PendingGrows(s, events, m + 1, if m < i - 1 then i - 1 else i, pages);
  }

  lemma AtomicReadsNotOvertaken(s: State, events: seq<Event>, pages: Pages)
    requires AtomicReads(s, events, pages)
    ensures NoneOvertaken(s, events, pages)
  {
    forall m, i | 0 <= m < i < |events| && StoresRead(s, events, i, pages)
                  && Starts(s, events, m, events[i].read, pages)
      ensures i == m + 1
    {
      AtomicReadsAreAdjacent(s, events, m, i, pages);
    }
  }

  /** With readers that read and store in one step, agreement holds in every reachable state, whatever the schedule. */
  lemma AtomicReadersAgree(s: State, events: seq<Event>, pages: Pages)
    requires DbOk(s.db) && Agrees(s, pages) && s.pending == [] && AtomicReads(s, events, pages)
    ensures Agrees(Run(s, events, pages), pages)
  {
    AtomicReadsNotOvertaken(s, events, pages);
    CacheAgrees(s, events, pages);
  }

  /** Only a call whose deletions fail loses any. */
  lemma {:induction false} LostByFailureOnly(s: State, events: seq<Event>, pages: Pages)
    requires forall e :: e in events ==> !e.Abandon?
    ensures Run(s, events, pages).lost <= s.lost
  {
    if events != [] {
      LostByFailureOnly(s, events[..|events| - 1], pages);
      assert events[|events| - 1] in events;
    }
  }

  predicate Quiescent(s: State) {
    forall i :: 0 <= i < |s.calls| ==> s.calls[i] == []
  }

  /** Once no call is in flight and no deletion was lost, every entry is what a fresh read returns. */
  lemma QuiescentCacheIsFresh(s: State, events: seq<Event>, pages: Pages, k: CacheKey)
    requires DbOk(s.db) && Agrees(s, pages) && s.pending == [] && NoneOvertaken(s, events, pages)
    ensures var t := Run(s, events, pages);
            Quiescent(t) && t.lost == {} && Render(k) in t.cache ==> Fresh(t.db, k, pages) == Some(t.cache[Render(k)])
  {
    CacheAgrees(s, events, pages);
    assert Render(k) in Run(s, events, pages).cache ==> AgreesAt(Run(s, events, pages), k, pages);
  }

  /** A read that is stored at once keeps agreement, and what it stores is current. */
  lemma AtomicReadAgrees(s: State, k: CacheKey, pages: Pages)
    requires Agrees(s, pages) && Render(k) !in s.cache && Fresh(s.db, k, pages).Some?
    ensures var t := Step(Step(s, Miss(k), pages), Fill(|s.pending|), pages);
            t.cache == s.cache[Render(k) := Fresh(s.db, k, pages).value] && t.db == s.db && Agrees(t, pages)
  {
    var s1 := Step(s, Miss(k), pages);
    MissAgrees(s, k, pages);
    FillAgreesIffTimely(s1, |s.pending|, pages);
  }

  lemma MissAgrees(s: State, k: CacheKey, pages: Pages)
    requires Agrees(s, pages)
    ensures Agrees(Step(s, Miss(k), pages), pages)
  {
  }

  /** What the five events of a raced read do. */
  lemma RacedSteps(s: State, b: string, pages: Pages)
    requires b in s.db.batches.rows && s.db.batches.rows[b].status == Pending
    requires Render(BatchDetail(b)) !in s.cache && s.calls == [] && s.pending == []
    ensures var s1 := Step(s, Miss(BatchDetail(b)), pages);
            var s2 := Step(s1, Request(Mark(b, Failed), true), pages);
            var s4 := Step(Step(s2, Delete(0), pages), Delete(0), pages);
            var t := Step(s4, Fill(0), pages);
            && s2.calls == [[Render(BatchDetail(b)), Render(BatchesList)]]
            && Owes(s1, Request(Mark(b, Failed), true), BatchDetail(b))
            && s4.calls == [[]] && Render(BatchDetail(b)) !in s4.lost && s4.db == t.db
            && |s4.pending| == 1 && s4.pending[0].view.Some?
            && t.calls == [[]] && Render(BatchDetail(b)) in t.cache
            && t.cache[Render(BatchDetail(b))] == BatchView(s.db.batches.rows[b])
            && Fresh(t.db, BatchDetail(b), pages) == Some(BatchView(s.db.batches.rows[b].(status := Failed)))
  {
    var s1 := Step(s, Miss(BatchDetail(b)), pages);
    var s2 := Step(s1, Request(Mark(b, Failed), true), pages);
    var owed := [BatchDetail(b), BatchesList];
    assert Tx(s1.db, Mark(b, Failed)).owed == owed;
    assert Names(owed) == [Render(BatchDetail(b)), Render(BatchesList)];
    assert s2.calls == [Names(owed)];
    assert Step(s2, Delete(0), pages).calls == [[Render(BatchesList)]];
    assert [Render(BatchesList)][1..] == [];
  }

  lemma FiveSteps(s: State, events: seq<Event>, pages: Pages)
    requires |events| == 5
    ensures Before(s, events, 0, pages) == s
    ensures forall i :: 0 <= i < 5 ==>
              Before(s, events, i + 1, pages) == Step(Before(s, events, i, pages), events[i], pages)
    ensures Before(s, events, 5, pages) == Run(s, events, pages)
  {
    forall i | 0 <= i < 5
      ensures Before(s, events, i + 1, pages) == Step(Before(s, events, i, pages), events[i], pages)
    {
      BeforeNext(s, events, i, pages);
    }
    assert events[..0] == [] && events[..5] == events;
  }

  /** The race the protocol does not exclude: read, commit, delete, store. Nothing is owed any more and the entry is
      out of date. */
  lemma RacedFillIsStale(s: State, b: string, pages: Pages)
    requires b in s.db.batches.rows && s.db.batches.rows[b].status == Pending
    requires Render(BatchDetail(b)) !in s.cache && s.calls == [] && s.pending == []
    ensures var events := [Miss(BatchDetail(b)), Request(Mark(b, Failed), true), Delete(0), Delete(0), Fill(0)];
            var t := Run(s, events, pages);
            && t.calls == [[]] && Render(BatchDetail(b)) in t.cache
            && t.cache[Render(BatchDetail(b))] == BatchView(s.db.batches.rows[b])
            && Fresh(t.db, BatchDetail(b), pages) == Some(BatchView(s.db.batches.rows[b].(status := Failed)))
            && StaleStore(s, events, 0, 4, pages)
  {
    var events := [Miss(BatchDetail(b)), Request(Mark(b, Failed), true), Delete(0), Delete(0), Fill(0)];
    FiveSteps(s, events, pages);
    RacedSteps(s, b, pages);
    assert Starts(s, events, 0, 0, pages);
    assert Before(s, events, 2, pages) == Step(Before(s, events, 1, pages), events[1], pages);
    assert Before(s, events, 4, pages) == Step(Before(s, events, 3, pages), events[3], pages);
    assert StoresRead(s, events, 4, pages);
    assert Owes(Before(s, events, 1, pages), events[1], BatchDetail(b));
    assert Drops(Before(s, events, 2, pages), events[2], Render(BatchDetail(b)));
  }
}
