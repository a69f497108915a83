/** What holds of all runs of calls, said of every interleaving of requests, jobs, readers and cache failures. */
module Interleavings {
  import opened Records
  import opened CacheKeys
  import opened Transactions
  import opened Protocol
  import opened UserProperties
  import opened AuditProperties
  import opened BatchProperties
  import opened JobProperties

  /** The state a deployment starts from: an empty database and one seeded admin. */
  function Seeded(id: string, email: string): Db {
    Db(Table(map[id := User(id, email, Admin)], [id]), Table(map[], []), Table(map[], []), [])
  }

  lemma SeededIsOk(id: string, email: string)
    ensures var db := Seeded(id, email); DbOk(db) && LivesOk(db) && Admins(db.users.rows) == {id}
  {
  }

  function SeededState(id: string, email: string): State {
    State(Seeded(id, email), map[], [], {}, [], [])
  }

  /** A run of the whole system, from the start: for every batch it creates, whatever else it does beside, once the
      batch's jobs have ended it has one prediction for each of them, and its log shows the two changes to done, or it
      was failed by request. */
  lemma EveryBatchOfTheSystem(id: string, email: string, events: seq<Event>, pages: Pages, b: string)
    requires var on := JobsOn(Run(SeededState(id, email), events, pages).jobs, b);
             on != [] && forall job :: job in on ==> job.pc.Ended?
    ensures var s := SeededState(id, email);
            var t := Run(s, events, pages);
            && |PredictionsOn(t.db, b)| == |JobsOn(t.jobs, b)| && b in t.db.batches.rows
            && (if WasFailed(s, events, pages, b) then t.db.batches.rows[b].status == Failed
                else t.db.batches.rows[b].status == Done && Trail(t.db.audit, b) == [STARTED, FINISHED])
  {
    SeededIsOk(id, email);
    InterleavingIndependence(SeededState(id, email), events, pages, b);
  }

  /** An admin stays, the log is only extended, replaying what it gained rebuilds the present state, every batch has one
      of the possible histories, and the database stays consistent. */
  lemma {:induction false} EveryInterleaving(s: State, events: seq<Event>, pages: Pages)
    requires DbOk(s.db) && LivesOk(s.db) && Admins(s.db.users.rows) != {}
    ensures var db := Run(s, events, pages).db;
            && Admins(db.users.rows) != {}
            && LogExtends(s.db.audit, db.audit)
            && Replay(Project(s.db), db.audit[|s.db.audit|..]) == Project(db)
            && Consistent(Project(s.db), db.audit[|s.db.audit|..])
            && LivesOk(db) && DbOk(db)
  {
    var attempts := Calls(s, events, pages);
    RunIsRunOfCalls(s, events, pages);
    AdminStays(s.db, attempts);
    LogGrows(s.db, attempts);
    AuditReplay(s.db, attempts);
    StatusHistory(s.db, attempts);
    RunKeepsIntegrity(s.db, attempts);
  }
}
