/** The last-admin rule over runs. */
module UserProperties {
  import opened Records
  import opened Transactions

  lemma SingletonSet<T>(s: set<T>, x: T)
    requires x in s && |s| == 1
    ensures s == {x}
  {
    assert |s - {x}| == 0;
  }

  lemma AnotherMember<T>(s: set<T>, x: T) returns (y: T)
    requires x in s && |s| != 1
    ensures y in s && y != x
  {
    assert |s - {x}| == |s| - 1;
    assert |s - {x}| != 0 by {
      assert |s| != 0;
    }
    y :| y in s - {x};
  }

  /** An admin who may act and still exists can take the role of another admin, or delete that account, exactly when
      that admin is not the only one. */
  lemma DemotionRule(db: Db, target: string, newRole: Role, actor: Actor)
    requires actor.role == Admin && actor.id in db.users.rows
    requires target in db.users.rows && db.users.rows[target].role == Admin && newRole != Admin
    ensures Tx(db, ChangeRole(target, newRole, actor)).Committed? <==> Admins(db.users.rows) != {target}
    ensures target != actor.id ==>
              (Tx(db, DeleteUser(target, actor)).Committed? <==> Admins(db.users.rows) != {target})
  {
    var admins := Admins(db.users.rows);
    assert target in admins;
    if |admins| == 1 {
      SingletonSet(admins, target);
    }
  }

  lemma AdminStaysStep(db: Db, a: Attempt)
    requires Admins(db.users.rows) != {}
    ensures Admins(DbStep(db, a).users.rows) != {}
  {
    var admins := Admins(db.users.rows);
    var db' := DbStep(db, a);
    var x :| x in admins;
    if x !in Admins(db'.users.rows) {
      assert a.call.ChangeRole? || a.call.DeleteUser?;
      assert a.call.target == x;
      assert |admins| != 1;
      var y := AnotherMember(admins, x);
      assert y in Admins(db'.users.rows);
    }
  }

  /** From any state with an admin, every sequence of calls by any actors, accepted, refused or rolled back, keeps an
      admin. */
  lemma {:induction false} AdminStays(db: Db, attempts: seq<Attempt>)
    requires Admins(db.users.rows) != {}
    ensures Admins(DbRun(db, attempts).users.rows) != {}
  {
    if attempts != [] {
      AdminStays(db, attempts[..|attempts| - 1]);
      AdminStaysStep(DbRun(db, attempts[..|attempts| - 1]), attempts[|attempts| - 1]);
    }
  }
}
