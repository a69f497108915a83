/** Two readers of one list who ask for different pages: the key of the list does not tell them apart. */
module ListPages {
  import opened Options
  import opened Records
  import opened CacheKeys
  import opened Transactions
  import opened ServiceLayer

  /** What a reader gets when the only read since the cache was empty was one with other page parameters. */
  function SecondReader(db: Db, key: CacheKey, first: Pages, second: Pages): Option<View> {
    ReadThrough(db, ReadThrough(db, map[], key, first).1, key, second).0
  }

  /** The endpoints refuse a limit of zero. */
  predicate LimitsOk(pages: Pages) {
    pages.userLimit > 0 && pages.batchLimit > 0 && pages.recentLimit > 0
  }

  /** Whether two readers of a key ask for the same page. */
  predicate SamePage(key: CacheKey, p: Pages, q: Pages) {
    match key
    case UsersList => p.userSkip == q.userSkip && p.userLimit == q.userLimit
    case BatchesList => p.batchSkip == q.batchSkip && p.batchLimit == q.batchLimit
    case PredictionsRecent => p.recentLimit == q.recentLimit
    case _ => true
  }

  /* ---- a database with many rows ---- */

  /** Identifiers for rows: one more character for each. */
  function Tally(n: nat): string {
    seq(n, _ => 'x')
  }

  function Tallies(n: nat): set<string> {
    set i | 0 <= i < n :: Tally(i)
  }

  /** The rows `row(0)` to `row(n - 1)`, inserted in this order. */
  function Numbered<R>(n: nat, row: nat -> R): Table<R> {
    Table(map id | id in Tallies(n) :: row(|id|), seq(n, i requires 0 <= i < n => Tally(i)))
  }

  function UserRow(i: nat): User {
    User(Tally(i), Tally(i), Admin)
  }

  function BatchRow(i: nat): Batch {
    Batch(Tally(i), Pending, 1)
  }

  function PredictionRow(i: nat): Prediction {
    Prediction(Tally(i), PredictionData("", "", "", "", CLASSES[0], 0.0), None)
  }

  /** `n` users, batches and predictions; the predictions belong to the first batch. */
  function Filled(n: nat): Db {
    Db(Numbered(n, UserRow), Numbered(n, BatchRow), Numbered(n, PredictionRow), [])
  }

  lemma TalliesAre(n: nat)
    ensures forall id :: id in Tallies(n) ==> |id| < n && id == Tally(|id|)
    ensures forall i :: 0 <= i < n ==> Tally(i) in Tallies(n) && |Tally(i)| == i
  {
  }

  lemma NumberedOk<R>(n: nat, row: nat -> R)
    ensures Numbered(n, row).Ok()
  {
    TalliesAre(n);
    var t := Numbered(n, row);
    forall id | id in t.rows ensures id in t.order {
      assert t.order[|id|] == id;
    }
  }

  lemma RowAt<R>(n: nat, row: nat -> R, i: nat)
    requires i < n
    ensures var t := Numbered(n, row); i < |t.order| && t.order[i] in t.rows && t.rows[t.order[i]] == row(i)
  {
    TalliesAre(n);
  }

  /** The newest rows of a list of identifiers, one identifier more. */
  lemma NewestLast<R>(t: Table<R>, ids: seq<string>, k: nat)
    requires 0 < k <= |ids| && ids[k - 1] in t.rows
    ensures t.NewestOf(ids[..k]) == [t.rows[ids[k - 1]]] + t.NewestOf(ids[..k - 1])
  {
    assert ids[..k][..k - 1] == ids[..k - 1] && ids[..k][k - 1] == ids[k - 1];
  }

  lemma {:induction false} NumberedNewest<R>(n: nat, row: nat -> R, k: nat)
    requires k <= n
    ensures var t := Numbered(n, row);
            var newest := t.NewestOf(t.order[..k]);
            |newest| == k && forall i :: 0 <= i < k ==> newest[i] == row(k - 1 - i)
  {
    if k > 0 {
      var t := Numbered(n, row);
      NumberedNewest(n, row, k - 1);
      RowAt(n, row, k - 1);
      NewestLast(t, t.order, k);
    }
  }

  lemma NewestOfNumbered<R>(n: nat, row: nat -> R)
    ensures var newest := Numbered(n, row).Newest();
            |newest| == n && forall i :: 0 <= i < n ==> newest[i] == row(n - 1 - i)
  {
    NumberedNewest(n, row, n);
    assert Numbered(n, row).order[..n] == Numbered(n, row).order;
  }

  lemma FilledUsersOk(n: nat)
    ensures UsersOk(Numbered(n, UserRow))
  {
    NumberedOk(n, UserRow);
    TalliesAre(n);
  }

  lemma FilledBatchesOk(n: nat)
    ensures BatchesOk(Numbered(n, BatchRow))
  {
    NumberedOk(n, BatchRow);
    TalliesAre(n);
  }

  lemma FilledPredictionsOk(n: nat)
    ensures PredictionsOk(Numbered(n, PredictionRow), Numbered(n, BatchRow))
  {
    NumberedOk(n, PredictionRow);
    TalliesAre(n);
    assert n > 0 ==> Tally(0) == "";
  }

  lemma FilledOk(n: nat)
    ensures DbOk(Filled(n))
  {
    FilledUsersOk(n);
    FilledBatchesOk(n);
    FilledPredictionsOk(n);
  }

  /* ---- pages ---- */

  /** On a list that is long enough, a page tells its offset and its limit. */
  lemma PageTells<R>(n: nat, row: nat -> R, skip: nat, limit: nat, skip': nat, limit': nat)
    requires limit > 0 && limit' > 0 && n == skip + limit + skip' + limit'
    requires forall i: nat, j: nat :: row(i) == row(j) ==> i == j
    requires var rows := Numbered(n, row).Newest(); Page(rows, skip, limit) == Page(rows, skip', limit')
    ensures skip == skip' && limit == limit'
  {
    NewestOfNumbered(n, row);
    var rows := Numbered(n, row).Newest();
    assert |Page(rows, skip, limit)| == limit && |Page(rows, skip', limit')| == limit';
    assert Page(rows, skip, limit)[0] == row(n - 1 - skip) && Page(rows, skip', limit')[0] == row(n - 1 - skip');
  }

  /** A database on which readers of different pages get different rows. */
  function PartingDb(p: Pages, q: Pages, key: CacheKey): Db {
    Filled(RowsToPart(p, q, key))
  }

  function RowsToPart(p: Pages, q: Pages, key: CacheKey): nat {
    match key
    case UsersList => p.userSkip + p.userLimit + q.userSkip + q.userLimit
    case BatchesList => p.batchSkip + p.batchLimit + q.batchSkip + q.batchLimit
    case _ => p.recentLimit + q.recentLimit
  }

  lemma DistinctRows()
    ensures forall i: nat, j: nat :: UserRow(i) == UserRow(j) ==> i == j
    ensures forall i: nat, j: nat :: BatchRow(i) == BatchRow(j) ==> i == j
    ensures forall i: nat, j: nat :: PredictionRow(i) == PredictionRow(j) ==> i == j
  {
    assert forall i: nat :: |UserRow(i).id| == i;
    assert forall i: nat :: |BatchRow(i).id| == i;
    assert forall i: nat :: |PredictionRow(i).id| == i;
  }

  lemma ReadersPart(key: CacheKey, p: Pages, q: Pages)
    requires LimitsOk(p) && LimitsOk(q) && !SamePage(key, p, q)
    ensures Fresh(PartingDb(p, q, key), key, p) != Fresh(PartingDb(p, q, key), key, q)
  {
    var db, n := PartingDb(p, q, key), RowsToPart(p, q, key);
    DistinctRows();
    if Fresh(db, key, p) == Fresh(db, key, q) {
      match key
      case UsersList => PageTells(n, UserRow, p.userSkip, p.userLimit, q.userSkip, q.userLimit);
      case BatchesList => PageTells(n, BatchRow, p.batchSkip, p.batchLimit, q.batchSkip, q.batchLimit);
      case PredictionsRecent => PageTells(n, PredictionRow, 0, p.recentLimit, 0, q.recentLimit);
    }
  }

  lemma SecondReaderGets(db: Db, key: CacheKey, first: Pages, second: Pages)
    ensures SecondReader(db, key, first, second) ==
            if Fresh(db, key, first).Some? then Fresh(db, key, first) else Fresh(db, key, second)
    ensures SamePage(key, first, second) ==> Fresh(db, key, first) == Fresh(db, key, second)
  {
  }

  ghost predicate SecondReadersServed(key: CacheKey, first: Pages, second: Pages) {
    forall db :: DbOk(db) ==> SecondReader(db, key, first, second) == Fresh(db, key, second)
  }

  /** The second reader of a list gets the page of the first. For every consistent database this is the page asked for
      if and only if both ask for the same one; otherwise `PartingDb` is a database on which it is not. */
  lemma PagesDiffer(key: CacheKey, first: Pages, second: Pages)
    requires LimitsOk(first) && LimitsOk(second)
    ensures SecondReadersServed(key, first, second) <==> SamePage(key, first, second)
    ensures !SamePage(key, first, second) ==>
              var db := PartingDb(first, second, key);
              DbOk(db) && SecondReader(db, key, first, second) == Fresh(db, key, first) != Fresh(db, key, second)
  {
    if SamePage(key, first, second) {
      forall db | DbOk(db) ensures SecondReader(db, key, first, second) == Fresh(db, key, second) {
        SecondReaderGets(db, key, first, second);
      }
    } else {
      var db := PartingDb(first, second, key);
      FilledOk(RowsToPart(first, second, key));
      ReadersPart(key, first, second);
      SecondReaderGets(db, key, first, second);
    }
  }
}
