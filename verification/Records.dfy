/** The database: its rows, its tables, and the audit log. */
module Records {
  import opened Options

  datatype Role = Admin | Reviewer | Auditor

  datatype Status = Pending | Processing | Done | Failed

  datatype User = User(id: string, email: string, role: Role)

  datatype Batch = Batch(id: string, status: Status, fileCount: int)

  datatype PredictionData = PredictionData(batchId: string, filename: string, blobKey: string, overlayKey: string,
                                           predictedClass: string, confidence: real)

  datatype Prediction = Prediction(id: string, data: PredictionData, relabeledClass: Option<string>)

  /** The payload of an audit entry; its constructor is the entry's action. */
  datatype Details =
    | UserCreate(email: string, role: Role)
    | RoleChange(oldRole: Role, newRole: Role)
    | UserDeleted(email: string, role: Role)
    | BatchCreated(fileCount: int)
    | BatchStateChange(from: Status, to: Status)
    | RelabelDone(fromClass: string, toClass: string)

  datatype AuditEntry = AuditEntry(actorId: Option<string>, target: string, details: Details)

  /** Rows by identifier, and the identifiers in the order in which the rows were inserted. */
  datatype Table<R> = Table(rows: map<string, R>, order: seq<string>) {
    function Insert(id: string, row: R): Table<R> {
      Table(rows[id := row], order + [id])
    }

    function Update(id: string, row: R): Table<R> {
      Table(rows[id := row], order)
    }

    function Remove(id: string): Table<R> {
      Table(rows - {id}, Without(order, id))
    }

    /** All rows, the newest first. */
    function Newest(): seq<R> {
      NewestOf(order)
    }

    function NewestOf(ids: seq<string>): seq<R> {
      if ids == [] then []
      else
        var last := ids[|ids| - 1];
        (if last in rows then [rows[last]] else []) + NewestOf(ids[..|ids| - 1])
    }

    ghost predicate Ok() {
      && (forall i, j :: 0 <= i < j < |order| ==> order[i] != order[j])
      && (forall id :: id in order <==> id in rows)
    }
  }

  function Without(ids: seq<string>, id: string): (r: seq<string>)
    ensures forall x :: x in r <==> x in ids && x != id
  {
    if ids == [] then []
    else Without(ids[..|ids| - 1], id) + if ids[|ids| - 1] == id then [] else [ids[|ids| - 1]]
  }

  lemma {:induction false} NewestUnchanged<R>(t: Table<R>, t': Table<R>, ids: seq<string>)
    requires forall id :: id in ids ==>
               (id in t.rows <==> id in t'.rows) && (id in t.rows ==> t.rows[id] == t'.rows[id])
    ensures t.NewestOf(ids) == t'.NewestOf(ids)
  {
    if ids != [] {
      NewestUnchanged(t, t', ids[..|ids| - 1]);
    }
  }

  /** A new row comes first and moves no other. */
  lemma NewestInsert<R>(t: Table<R>, id: string, row: R)
    requires t.Ok() && id !in t.rows
    ensures t.Insert(id, row).Newest() == [row] + t.Newest()
  {
    var t' := t.Insert(id, row);
    assert t'.order[..|t.order|] == t.order;
    NewestUnchanged(t, t', t.order);
  }

  datatype Db = Db(users: Table<User>, batches: Table<Batch>, predictions: Table<Prediction>, audit: seq<AuditEntry>)

  function UserTarget(id: string): string {
    "user:" + id
  }

  function BatchTarget(id: string): string {
    "batch:" + id
  }

  function PredictionTarget(id: string): string {
    "prediction:" + id
  }

  /** `OFFSET skip LIMIT limit`. */
  function Page<R>(rows: seq<R>, skip: nat, limit: nat): (page: seq<R>)
    ensures |page| <= limit
  {
    if skip >= |rows| then []
    else if skip + limit <= |rows| then rows[skip..skip + limit]
    else rows[skip..]
  }

  function HavingRole(users: map<string, User>, role: Role): set<string> {
    set id | id in users && users[id].role == role
  }

  function Admins(users: map<string, User>): set<string> {
    HavingRole(users, Admin)
  }

  /** The labels a prediction may be corrected to. */
  const CLASSES: seq<string> := [
    "letter", "form", "email", "handwritten", "advertisement", "scientific report", "scientific publication",
    "specification", "file folder", "news article", "budget", "invoice", "presentation", "questionnaire", "resume",
    "memo"
  ]

  const REVIEW_THRESHOLD: real := 0.7
}
