/** What the cached reads return on a consistent database, when they read it. */
module Reads {
  import opened Options
  import opened Records
  import opened CacheKeys
  import opened Transactions
  import opened ServiceLayer
  import J = JobProperties

  /** Without an entry in the cache, a reader gets what `Fresh` says; with one, the entry. */
  lemma MissReadsFresh(db: Db, entries: map<string, View>, k: CacheKey, pages: Pages)
    ensures Render(k) !in entries ==> ReadThrough(db, entries, k, pages).0 == Fresh(db, k, pages)
    ensures Render(k) in entries ==> ReadThrough(db, entries, k, pages) == (Some(entries[Render(k)]), entries)
    ensures forall name :: name != Render(k) ==>
              var entries' := ReadThrough(db, entries, k, pages).1;
              (name in entries <==> name in entries') && (name in entries ==> entries'[name] == entries[name])
  {
  }

  /* ---- lists ---- */

  lemma {:induction false} NewestOfAt<R>(t: Table<R>, ids: seq<string>)
    requires forall id :: id in ids ==> id in t.rows
    ensures |t.NewestOf(ids)| == |ids|
    ensures forall i :: 0 <= i < |ids| ==>
              ids[|ids| - 1 - i] in t.rows && t.NewestOf(ids)[i] == t.rows[ids[|ids| - 1 - i]]
  {
    if ids != [] {
      var front := ids[..|ids| - 1];
      assert forall id :: id in front ==> id in ids;
      NewestOfAt(t, front);
      assert ids[|ids| - 1] in ids;
      forall i | 0 <= i < |ids|
        ensures ids[|ids| - 1 - i] in t.rows && t.NewestOf(ids)[i] == t.rows[ids[|ids| - 1 - i]]
      {
        if i > 0 {
          assert t.NewestOf(ids)[i] == t.NewestOf(front)[i - 1];
          assert ids[|ids| - 1 - i] == front[|front| - 1 - (i - 1)];
        }
      }
    }
  }

  /** Row `i` of a page is the row inserted `skip + i` before the newest. */
  ghost predicate IsPage<R>(t: Table<R>, page: seq<R>, skip: nat, limit: nat) {
    var n := |t.order|;
    && |page| == (if n <= skip then 0 else if n - skip < limit then n - skip else limit)
    && forall i :: 0 <= i < |page| ==>
         skip + i < n && t.order[n - 1 - (skip + i)] in t.rows && page[i] == t.rows[t.order[n - 1 - (skip + i)]]
  }

  /** A page is a slice. */
  lemma PageIsSlice<R>(rows: seq<R>, skip: nat, limit: nat)
    ensures var page, n := Page(rows, skip, limit), |rows|;
            && |page| == (if n <= skip then 0 else if n - skip < limit then n - skip else limit)
            && forall i :: 0 <= i < |page| ==> skip + i < n && page[i] == rows[skip + i]
  {
  }

  lemma PageOfTable<R>(t: Table<R>, skip: nat, limit: nat)
    requires t.Ok()
    ensures IsPage(t, Page(t.Newest(), skip, limit), skip, limit)
  {
    NewestOfAt(t, t.order);
    PageIsSlice(t.Newest(), skip, limit);
  }

  /** The list endpoints return the page asked for, the newest row first. */
  lemma ListPages(db: Db, pages: Pages)
    requires DbOk(db)
    ensures var v := Fresh(db, UsersList, pages);
            v.Some? && v.value.UsersView? && IsPage(db.users, v.value.users, pages.userSkip, pages.userLimit)
    ensures var v := Fresh(db, BatchesList, pages);
            v.Some? && v.value.BatchesView? && IsPage(db.batches, v.value.batches, pages.batchSkip, pages.batchLimit)
    ensures var v := Fresh(db, PredictionsRecent, pages);
            v.Some? && v.value.PredictionsView? && IsPage(db.predictions, v.value.predictions, 0, pages.recentLimit)
  {
    PageOfTable(db.users, pages.userSkip, pages.userLimit);
    PageOfTable(db.batches, pages.batchSkip, pages.batchLimit);
    PageOfTable(db.predictions, 0, pages.recentLimit);
  }

  /* ---- single rows ---- */

  /** The detail endpoints return the row of the identifier asked for, and nothing if there is none. */
  lemma DetailViews(db: Db, id: string, pages: Pages)
    requires DbOk(db)
    ensures var v := Fresh(db, UserMe(id), pages);
            && (v.Some? <==> id in db.users.rows)
            && (v.Some? ==> v.value.UserView? && v.value.user == db.users.rows[id] && v.value.user.id == id)
    ensures var v := Fresh(db, BatchDetail(id), pages);
            && (v.Some? <==> id in db.batches.rows)
            && (v.Some? ==> v.value.BatchView? && v.value.batch == db.batches.rows[id] && v.value.batch.id == id)
  {
  }

  /* ---- the predictions of a batch ---- */

  /** One element comes somewhere before another. */
  ghost predicate InOrder<T>(xs: seq<T>, a: T, c: T) {
    exists x, y :: 0 <= x < y < |xs| && xs[x] == a && xs[y] == c
  }

  lemma InOrderFirst<T>(xs: seq<T>, c: T)
    requires xs != [] && c in xs[1..]
    ensures InOrder(xs, xs[0], c)
  {
    var y :| 0 <= y < |xs[1..]| && xs[1..][y] == c;
    assert xs[y + 1] == c;
  }

  lemma InOrderRest<T>(xs: seq<T>, a: T, c: T)
    requires xs != [] && InOrder(xs[1..], a, c)
    ensures InOrder(xs, a, c)
  {
    var x, y :| 0 <= x < y < |xs[1..]| && xs[1..][x] == a && xs[1..][y] == c;
    assert xs[x + 1] == a && xs[y + 1] == c;
  }

  /** Choosing those of a batch keeps all of them. */
  lemma {:induction false} OfBatchChooses(ps: seq<Prediction>, b: string)
    ensures forall p :: p in OfBatch(ps, b) <==> p in ps && p.data.batchId == b
  {
    if ps != [] {
      OfBatchChooses(ps[1..], b);
      assert ps == [ps[0]] + ps[1..];
    }
  }

  /** It also keeps their order. */
  lemma {:induction false} OfBatchKeepsOrder(ps: seq<Prediction>, b: string)
    ensures forall i, j :: 0 <= i < j < |OfBatch(ps, b)| ==> InOrder(ps, OfBatch(ps, b)[i], OfBatch(ps, b)[j])
  {
    if ps != [] {
      var tail, chosen := OfBatch(ps[1..], b), OfBatch(ps, b);
      var shift := if ps[0].data.batchId == b then 1 else 0;
      OfBatchKeepsOrder(ps[1..], b);
      OfBatchChooses(ps[1..], b);
      assert chosen[shift..] == tail;
      forall i, j | 0 <= i < j < |chosen| ensures InOrder(ps, chosen[i], chosen[j]) {
        assert chosen[j] == tail[j - shift] && tail[j - shift] in tail;
        if i < shift {
          InOrderFirst(ps, chosen[j]);
        } else {
          assert chosen[i] == tail[i - shift];
          InOrderRest(ps, chosen[i], chosen[j]);
        }
      }
    }
  }

  lemma NewestIds(db: Db)
    requires DbOk(db)
    ensures var newest, n := db.predictions.Newest(), |db.predictions.order|;
            && |newest| == n
            && (forall i :: 0 <= i < n ==>
                  && db.predictions.order[n - 1 - i] in db.predictions.rows
                  && newest[i] == db.predictions.rows[db.predictions.order[n - 1 - i]]
                  && newest[i].id == db.predictions.order[n - 1 - i])
  {
    NewestOfAt(db.predictions, db.predictions.order);
  }

  lemma NewestPredictions(db: Db)
    requires DbOk(db)
    ensures forall p :: p in db.predictions.Newest() <==>
              p.id in db.predictions.rows && db.predictions.rows[p.id] == p
  {
    var newest, n := db.predictions.Newest(), |db.predictions.order|;
    NewestIds(db);
    forall p: Prediction | p.id in db.predictions.rows && db.predictions.rows[p.id] == p ensures p in newest {
      var x :| 0 <= x < n && db.predictions.order[x] == p.id;
      assert newest[n - 1 - x] == p;
    }
    forall p | p in newest ensures p.id in db.predictions.rows && db.predictions.rows[p.id] == p {
      var i :| 0 <= i < n && newest[i] == p;
    }
  }

  /** A prediction was inserted before another. */
  ghost predicate InsertedBefore(db: Db, earlier: string, later: string) {
    InOrder(db.predictions.order, earlier, later)
  }

  lemma NewestBackwards(db: Db, p: Prediction, q: Prediction)
    requires DbOk(db) && InOrder(db.predictions.Newest(), p, q)
    ensures p.id != q.id && InsertedBefore(db, q.id, p.id)
  {
    var newest, n := db.predictions.Newest(), |db.predictions.order|;
    NewestIds(db);
    var x, y :| 0 <= x < y < |newest| && newest[x] == p && newest[y] == q;
    assert db.predictions.order[n - 1 - y] == q.id && db.predictions.order[n - 1 - x] == p.id;
  }

  /** Predictions from the newest to the oldest, each once. */
  ghost predicate NewestFirst(db: Db, ps: seq<Prediction>) {
    && (forall i, j :: 0 <= i < j < |ps| ==> ps[i].id != ps[j].id)
    && (forall i, j :: 0 <= i < j < |ps| ==> InsertedBefore(db, ps[j].id, ps[i].id))
  }

  /** The predictions of a batch come from the newest to the oldest. */
  lemma BatchNewestFirst(db: Db, b: string)
    requires DbOk(db)
    ensures NewestFirst(db, OfBatch(db.predictions.Newest(), b))
  {
    var ps := OfBatch(db.predictions.Newest(), b);
    OfBatchKeepsOrder(db.predictions.Newest(), b);
    forall i, j | 0 <= i < j < |ps| ensures ps[i].id != ps[j].id && InsertedBefore(db, ps[j].id, ps[i].id) {
      NewestBackwards(db, ps[i], ps[j]);
    }
  }

  lemma {:induction false} IdsCount(ps: seq<Prediction>)
    requires forall i, j :: 0 <= i < j < |ps| ==> ps[i].id != ps[j].id
    ensures |set p | p in ps :: p.id| == |ps|
  {
    if ps != [] {
      var front, last := ps[..|ps| - 1], ps[|ps| - 1];
      IdsCount(front);
      assert ps == front + [last];
      assert (set p | p in ps :: p.id) == (set p | p in front :: p.id) + {last.id};
    }
  }

  /** The predictions endpoint of a batch returns each prediction of the batch exactly once and no other, the newest
      first. */
  lemma PredictionsOfOneBatch(db: Db, b: string, pages: Pages)
    requires DbOk(db)
    ensures var v := Fresh(db, PredictionsOfBatch(b), pages);
            && v.Some? && v.value.PredictionsView?
            && var ps := v.value.predictions;
               && |ps| == |J.PredictionsOn(db, b)|
               && (forall p :: p in ps <==>
                     p.id in db.predictions.rows && db.predictions.rows[p.id] == p && p.data.batchId == b)
               && NewestFirst(db, ps)
  {
    var ps := OfBatch(db.predictions.Newest(), b);
    NewestPredictions(db);
    OfBatchChooses(db.predictions.Newest(), b);
    BatchNewestFirst(db, b);
    IdsCount(ps);
    assert (set p | p in ps :: p.id) == J.PredictionsOn(db, b) by {
      forall id | id in J.PredictionsOn(db, b) ensures exists p :: p in ps && p.id == id {
        assert db.predictions.rows[id] in ps;
      }
    }
  }
}
