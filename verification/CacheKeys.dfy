/** The six kinds of cache key, what a fresh read of each returns, and why no two keys collide. */
module CacheKeys {
  import opened Options
  import opened PyStrings
  import opened Records

  datatype CacheKey =
    | UsersList
    | BatchesList
    | PredictionsRecent
    | UserMe(id: string)
    | BatchDetail(id: string)
    | PredictionsOfBatch(id: string)

  /** The key in the store. */
  function Render(k: CacheKey): string {
    match k
    case UsersList => "users:list"
    case BatchesList => "batches:list"
    case PredictionsRecent => "predictions:recent"
    case UserMe(id) => "user:me:" + id
    case BatchDetail(id) => "batch:" + id
    case PredictionsOfBatch(id) => "predictions:batch:" + id
  }

  datatype View =
    | UserView(user: User)
    | UsersView(users: seq<User>)
    | BatchView(batch: Batch)
    | BatchesView(batches: seq<Batch>)
    | PredictionsView(predictions: seq<Prediction>)

  /** The page that the readers of each list ask for. The list keys do not mention it. */
  datatype Pages = Pages(userSkip: nat, userLimit: nat, batchSkip: nat, batchLimit: nat, recentLimit: nat)

  function OfBatch(predictions: seq<Prediction>, batchId: string): seq<Prediction> {
    if predictions == [] then []
    else (if predictions[0].data.batchId == batchId then [predictions[0]] else []) + OfBatch(predictions[1..], batchId)
  }

  /** What the endpoint behind a key reads from the database; `None` when it raises "not found", which is not
      cached. */
  function Fresh(db: Db, k: CacheKey, pages: Pages): Option<View> {
    match k
    case UsersList => Some(UsersView(Page(db.users.Newest(), pages.userSkip, pages.userLimit)))
    case BatchesList => Some(BatchesView(Page(db.batches.Newest(), pages.batchSkip, pages.batchLimit)))
    case PredictionsRecent => Some(PredictionsView(Page(db.predictions.Newest(), 0, pages.recentLimit)))
    case UserMe(id) => if id in db.users.rows then Some(UserView(db.users.rows[id])) else None
    case BatchDetail(id) => if id in db.batches.rows then Some(BatchView(db.batches.rows[id])) else None
    case PredictionsOfBatch(id) => Some(PredictionsView(OfBatch(db.predictions.Newest(), id)))
  }

  /** Length and a few characters tell the kinds apart. */
  lemma KindOfRendered(k: CacheKey)
    ensures var s := Render(k);
            match k
            case UsersList => |s| == 10 && s[0] == 'u' && s[4] == 's'
            case UserMe(_) => |s| >= 8 && s[0] == 'u' && s[4] == ':'
            case BatchesList => |s| == 12 && s[0] == 'b' && s[5] == 'e'
            case BatchDetail(_) => |s| >= 6 && s[0] == 'b' && s[5] == ':'
            case PredictionsRecent => |s| == 18 && s[0] == 'p' && s[12] == 'r'
            case PredictionsOfBatch(_) => |s| >= 18 && s[0] == 'p' && s[12] == 'b'
  {
  }

  /** Distinct keys have distinct names, whatever the identifiers are. */
  lemma KeysDoNotCollide(k: CacheKey, k': CacheKey)
    ensures Render(k) == Render(k') <==> k == k'
  {
    KindOfRendered(k);
    KindOfRendered(k');
    if Render(k) == Render(k') {
      match k
      case UserMe(id) => CommonPrefix("user:me:", id, k'.id);
      case BatchDetail(id) => CommonPrefix("batch:", id, k'.id);
      case PredictionsOfBatch(id) => CommonPrefix("predictions:batch:", id, k'.id);
      case _ =>
    }
  }

  /** The names written out. */
  lemma RenderedNames(id: string)
    ensures Render(UsersList) == "users:list" && Render(BatchesList) == "batches:list"
    ensures Render(PredictionsRecent) == "predictions:recent" && Render(UserMe(id)) == "user:me:" + id
    ensures Render(BatchDetail(id)) == "batch:" + id && Render(PredictionsOfBatch(id)) == "predictions:batch:" + id
  {
  }
}
