/** Predictions and their corrections over runs. */
module PredictionProperties {
  import opened Options
  import opened Records
  import opened Transactions
  import opened AuditProperties

  /** Attempt `i` of a run is a relabel of `p` that took effect. */
  predicate Relabels(db: Db, attempts: seq<Attempt>, i: nat, p: string)
    requires i < |attempts|
  {
    var a := attempts[i];
    a.call.Relabel? && a.call.predictionId == p && a.commits && Tx(DbRun(db, attempts[..i]), a.call).Committed?
  }

  lemma PredictionStep(db: Db, call: Call, p: string)
    requires Tx(db, call).Committed?
    ensures var rows, rows' := db.predictions.rows, Tx(db, call).db.predictions.rows;
            && (p in rows' <==> p in rows || (call.SavePrediction? && call.id == p))
            && (p in rows && call.Relabel? && call.predictionId == p ==>
                  rows'[p] == rows[p].(relabeledClass := Some(call.class_)))
            && (p in rows && !(call.Relabel? && call.predictionId == p) ==> rows'[p] == rows[p])
            && (p !in rows && p in rows' ==> rows'[p].relabeledClass == None)
  {
  }

  /** What the model said never changes after it is saved. */
  lemma {:induction false} DataNeverChanges(db: Db, attempts: seq<Attempt>, p: string)
    requires p in db.predictions.rows
    ensures p in DbRun(db, attempts).predictions.rows
    ensures DbRun(db, attempts).predictions.rows[p].data == db.predictions.rows[p].data
  {
    if attempts != [] {
      var front, a := attempts[..|attempts| - 1], attempts[|attempts| - 1];
      DataNeverChanges(db, front, p);
      if Tx(DbRun(db, front), a.call).Committed? {
        PredictionStep(DbRun(db, front), a.call, p);
      }
    }
  }

  lemma RunSplits(db: Db, attempts: seq<Attempt>, i: nat)
    requires i <= |attempts|
    ensures DbRun(DbRun(db, attempts[..i]), attempts[i..]) == DbRun(db, attempts)
    decreases |attempts|
  {
    if i < |attempts| {
      var front := attempts[..|attempts| - 1];
      RunSplits(db, front, i);
      assert front[..i] == attempts[..i] && attempts[i..][..|attempts| - i - 1] == front[i..];
    } else {
      assert attempts[..i] == attempts && attempts[i..] == [];
    }
  }

  /** Every relabel that takes effect gives one of the classes, and if the model's confidence is not below the review
      threshold it was made by an admin, whatever happens before and after it. */
  lemma RelabelDiscipline(db: Db, attempts: seq<Attempt>, i: nat, p: string)
    requires i < |attempts| && Relabels(db, attempts, i, p)
    ensures var rows := DbRun(db, attempts).predictions.rows;
            && p in rows && attempts[i].call.class_ in CLASSES
            && attempts[i].call.actor.role != Auditor
            && (rows[p].data.confidence >= 0.7 ==> attempts[i].call.actor.role == Admin)
  {
    var before := DbRun(db, attempts[..i]);
    RunSplits(db, attempts, i);
    DataNeverChanges(before, attempts[i..], p);
  }

  /** The last of the first `n` attempts that is a relabel of `p` and took effect. */
  function LastRelabel(db: Db, attempts: seq<Attempt>, p: string, n: nat): (last: Option<nat>)
    requires n <= |attempts|
    ensures last.Some? ==> last.value < n && Relabels(db, attempts, last.value, p)
    ensures forall j :: (if last.Some? then last.value + 1 else 0) <= j < n ==> !Relabels(db, attempts, j, p)
  {
    if n == 0 then None
    else if Relabels(db, attempts, n - 1, p) then Some(n - 1)
    else LastRelabel(db, attempts, p, n - 1)
  }

  /** The label a prediction has when it has come into being and been relabelled as `last` says. */
  function LabelAfter(db: Db, attempts: seq<Attempt>, p: string, last: Option<nat>): Option<string>
    requires last.Some? ==> last.value < |attempts| && attempts[last.value].call.Relabel?
  {
    if last.Some? then Some(attempts[last.value].call.class_)
    else if p in db.predictions.rows then db.predictions.rows[p].relabeledClass
    else None
  }

  /** A label is the one of the last relabel that took effect; a prediction nobody relabelled has the label it had, or
      none if it is new. */
  lemma {:induction false} LabelHasAuthor(db: Db, attempts: seq<Attempt>, p: string, n: nat)
    requires n <= |attempts| && p in DbRun(db, attempts[..n]).predictions.rows
    ensures DbRun(db, attempts[..n]).predictions.rows[p].relabeledClass ==
            LabelAfter(db, attempts, p, LastRelabel(db, attempts, p, n))
  {
    if n > 0 {
      assert attempts[..n][..n - 1] == attempts[..n - 1];
      var before := DbRun(db, attempts[..n - 1]);
      if Tx(before, attempts[n - 1].call).Committed? {
        PredictionStep(before, attempts[n - 1].call, p);
      }
      if p in before.predictions.rows {
        LabelHasAuthor(db, attempts, p, n - 1);
      } else {
        NeverThere(db, attempts[..n - 1], p);
        forall i | 0 <= i < n - 1 ensures !Relabels(db, attempts, i, p) {
          assert !Relabels(db, attempts[..n - 1], i, p);
          assert attempts[..n - 1][..i] == attempts[..i];
        }
      }
    }
  }

  /** A prediction that does not exist at the end of a run never did, so nothing relabelled it. */
  lemma NeverThere(db: Db, attempts: seq<Attempt>, p: string)
    requires p !in DbRun(db, attempts).predictions.rows
    ensures p !in db.predictions.rows
    ensures forall i :: 0 <= i < |attempts| ==> !Relabels(db, attempts, i, p)
  {
    if p in db.predictions.rows {
      DataNeverChanges(db, attempts, p);
    }
    forall i | 0 <= i < |attempts| ensures !Relabels(db, attempts, i, p) {
      RunSplits(db, attempts, i);
      if p in DbRun(db, attempts[..i]).predictions.rows {
        DataNeverChanges(DbRun(db, attempts[..i]), attempts[i..], p);
      }
    }
  }

  /* ---- what the log says about corrections ---- */

  predicate RelabelEntryOk(e: AuditEntry, predictions: map<string, Prediction>) {
    e.details.RelabelDone? ==>
      var p := SubjectOf(e);
      && p in predictions && e.details.fromClass == predictions[p].data.predictedClass
      && e.details.toClass in CLASSES
  }

  /** Every relabel entry is about an existing prediction, goes to one of the classes, and has as its "from" what the
      model predicted. */
  ghost predicate RelabelLogOk(db: Db) {
    forall i :: 0 <= i < |db.audit| ==> RelabelEntryOk(db.audit[i], db.predictions.rows)
  }

  lemma RelabelLogStep(db: Db, call: Call)
    requires RelabelLogOk(db) && Tx(db, call).Committed?
    ensures RelabelLogOk(Tx(db, call).db)
  {
    var db' := Tx(db, call).db;
    AuditAfter(db, call);
    forall i | 0 <= i < |db'.audit| ensures RelabelEntryOk(db'.audit[i], db'.predictions.rows) {
      if i < |db.audit| {
        assert RelabelEntryOk(db.audit[i], db.predictions.rows);
        if db.audit[i].details.RelabelDone? {
          PredictionStep(db, call, SubjectOf(db.audit[i]));
        }
      }
    }
  }

  /** Over every run; so after a second relabel the log still names the model's class, not the first correction. */
  lemma {:induction false} RelabelLogNamesModel(db: Db, attempts: seq<Attempt>)
    requires RelabelLogOk(db)
    ensures RelabelLogOk(DbRun(db, attempts))
  {
    if attempts != [] {
      var front, a := attempts[..|attempts| - 1], attempts[|attempts| - 1];
      RelabelLogNamesModel(db, front);
      if Tx(DbRun(db, front), a.call).Committed? {
        RelabelLogStep(DbRun(db, front), a.call);
      }
    }
  }
}
