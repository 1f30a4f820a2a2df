/**
 Concrete runs. They show what goes wrong when a rule the theorems rely on is dropped, and
 one way a DbUser gets stuck for good.
 */
module OperatorRuns {
  import opened ObjectStore
  import opened Finalizers
  import opened Operator
  import opened OperatorInvariants
  import opened OperatorGuards
  import opened OperatorTheorems

  lemma {:induction false} RunSnoc(r: Rules, s: Sys, steps: seq<Step>, step: Step)
    requires Legal(r, s, steps) && Enabled(r, Run(r, s, steps), step)
    ensures Legal(r, s, steps + [step])
    ensures Run(r, s, steps + [step]) == Apply(r, Run(r, s, steps), step)
    decreases steps
  {
    if steps == [] {
      assert steps + [step] == [step];
    } else {
      assert (steps + [step])[1..] == steps[1..] + [step];
      RunSnoc(r, Apply(r, s, steps[0]), steps[1..], step);
    }
  }

  lemma Starts(r: Rules)
    ensures Reachable(r, Init())
  {
    assert Legal(r, Init(), []) && Run(r, Init(), []) == Init();
  }

  lemma Next(r: Rules, s: Sys, step: Step)
    requires Reachable(r, s) && Enabled(r, s, step)
    ensures Reachable(r, Apply(r, s, step))
  {
    var steps :| Legal(r, Init(), steps) && Run(r, Init(), steps) == s;
    RunSnoc(r, Init(), steps, step);
  }

  function NewDbBody(inst: string): DbBody {
    DbBody(DbSpec(inst, false, 0), false, Missing, NoSum, false, 0)
  }

  /** A new Database up to the point where its SQL work is done. */
  lemma StartDatabase(r: Rules, s: Sys, d: string, main: bool) returns (t: Sys)
    requires Reachable(r, s) && s.dw.DIdle? && d !in s.dbs.live && (r.sessionReads ==> d !in s.dbSeen)
    ensures Reachable(r, t)
    ensures t.dw.DSql? && t.dw.n == d && t.dw.creds == map[]
    ensures d in t.dbs.live && t.dbs.live[d] == t.dw.c && (d, t.dw.c) in t.dbs.past
    ensures t.dw.c.finalizers == [] && !t.dw.c.marked && t.dw.c.body == NewDbBody("inst")
    ensures forall k :: k != d && k in s.dbs.live ==> k in t.dbs.live && t.dbs.live[k] == s.dbs.live[k]
    ensures s.dbs.past <= t.dbs.past
    ensures forall k :: k in t.dbs.live && k !in s.dbs.live ==> k == d
    ensures t == s.(dbs := t.dbs, sqlDbs := s.sqlDbs + {r.dbName(d)}, roles := t.roles, dw := t.dw,
                    dbSeen := s.dbSeen[d := t.dw.c.uid])
    ensures t.roles == if main then s.roles + {r.roleName(d)} else s.roles
  {
    var s1 := Apply(r, s, World(NewDb(d, [], NewDbBody("inst"))));
    Next(r, s, World(NewDb(d, [], NewDbBody("inst"))));
    var o := s1.dbs.live[d];
    var s2 := Apply(r, s1, Database(DGet(d, o)));
    Next(r, s1, Database(DGet(d, o)));
    var s3 := Apply(r, s2, Database(DDecide(true, NotFound)));
    Next(r, s2, Database(DDecide(true, NotFound)));
    Next(r, s3, Database(DCreateSql(map[], main)));
    t := Apply(r, s3, Database(DCreateSql(map[], main)));
  }

  /** The rest of that reconcile: nothing but writes to the Database object. */
  const FINISH: seq<Step> := [Database(DGrants(true, 0)), Database(DRecord), Database(DRewrite), Database(DStatus(0))]

  ghost predicate FreshlyRecorded(s: Sys) {
    && s.dw.DSql? && s.dw.n in s.dbs.live && s.dbs.live[s.dw.n] == s.dw.c
    && s.dw.c.finalizers == [] && !s.dw.c.marked && s.dw.c.body == NewDbBody("inst")
  }

  lemma RecordDatabase(r: Rules, s: Sys) returns (t: Sys)
    requires FreshlyRecorded(s)
    ensures Legal(r, s, FINISH[..2]) && t == Run(r, s, FINISH[..2])
    ensures t.dw.DRecorded? && t.dw.n == s.dw.n && s.dw.n in t.dbs.live && t.dw.c == t.dbs.live[s.dw.n]
    ensures t.dw.c.finalizers == [DbFin(s.dw.n)] && !t.dw.c.marked
    ensures t.dw.c.body == s.dw.c.body.(specSum := SumOf(s.dw.c.body.spec), secretSum := SecretSumOf(s.dw.creds))
    ensures forall k :: k != s.dw.n && k in s.dbs.live ==> k in t.dbs.live && t.dbs.live[k] == s.dbs.live[k]
    ensures t.dbs.live.Keys == s.dbs.live.Keys && s.dbs.past <= t.dbs.past
    ensures t == s.(dbs := t.dbs, dw := t.dw, records := t.records)
  {
    var s1 := Apply(r, s, Database(DGrants(true, 0)));
    assert s1.dbs.live == s.dbs.live && s1.dw == DGranted(s.dw.n, s.dw.c, s.dw.from, s.dw.creds);
    t := Apply(r, s1, Database(DRecord));
    assert FINISH[..2][1..] == [Database(DRecord)];
    assert Legal(r, s1, [Database(DRecord)]) && Run(r, s1, [Database(DRecord)]) == t;
  }

  lemma FinishDatabase(r: Rules, s: Sys) returns (t: Sys)
    requires FreshlyRecorded(s)
    ensures Legal(r, s, FINISH) && t == Run(r, s, FINISH) && t.dw.DIdle? && s.dw.n in t.dbs.live
    ensures var o := t.dbs.live[s.dw.n];
            && (s.dw.n, o) in t.dbs.past && o.finalizers == [DbFin(s.dw.n)] && !o.marked && o.body.ready
            && !IsDbChanged(o.body, s.dw.creds) && o.body.spec == s.dw.c.body.spec
    ensures forall k :: k != s.dw.n && k in s.dbs.live ==> k in t.dbs.live && t.dbs.live[k] == s.dbs.live[k]
    ensures t.dbs.live.Keys == s.dbs.live.Keys && s.dbs.past <= t.dbs.past
    ensures t == s.(dbs := t.dbs, dw := DIdle, records := t.records)
  {
    var s2 := RecordDatabase(r, s);
    RunSnoc(r, s, FINISH[..2], Database(DRewrite));
    var s3 := Apply(r, s2, Database(DRewrite));
    assert s3.dbs.live == s2.dbs.live && s3.dw == DReady(s.dw.n, s2.dw.c);
    RunSnoc(r, s, FINISH[..2] + [Database(DRewrite)], Database(DStatus(0)));
    t := Apply(r, s3, Database(DStatus(0)));
    assert FINISH[..2] + [Database(DRewrite)] + [Database(DStatus(0))] == FINISH;
  }

  lemma {:induction false} Then(r: Rules, s: Sys, steps: seq<Step>)
    requires Reachable(r, s) && Legal(r, s, steps)
    ensures Reachable(r, Run(r, s, steps))
    decreases steps
  {
    if steps != [] {
      Next(r, s, steps[0]);
      Then(r, Apply(r, s, steps[0]), steps[1..]);
    }
  }

  /**
   A reconcile that did its SQL work before a broadcast and had not yet recorded a checksum
   slips through: the broadcast goes through its whole list, the reconcile then only writes
   to the Database object, and the Database ends up ready and unchanged.
   */
  lemma FirstReconcileSlipsThrough(r: Rules) returns (s: Sys)
    ensures Reachable(r, s) && s.dw.DSql? && s.iw.IList?
    ensures s.iw.items == [(s.dw.n, s.dw.c)] && s.iw.i == 1 && s.dw.c.body.spec.instance == s.iw.inst
    ensures Legal(r, s, FINISH) && s.dw.n in Run(r, s, FINISH).dbs.live
    ensures var o := Run(r, s, FINISH).dbs.live[s.dw.n]; o.body.ready && !IsDbChanged(o.body, s.dw.creds)
  {
    Starts(r);
    var s1 := StartDatabase(r, Init(), "d", false);
    var items := [("d", s1.dw.c)];
    var s2 := Apply(r, s1, Instance(IStart("inst", items)));
    Next(r, s1, Instance(IStart("inst", items)));
    s := Apply(r, s2, Instance(IItem));
    Next(r, s2, Instance(IItem));
    var t := FinishDatabase(r, s);
  }

  /**
   A broadcast over a stale list passes a Database by: the listed copy is from before the first
   checksum write, so nothing is written, although the stored Database is ready, has a checksum
   and looks unchanged, and no reconcile is in flight.
   */
  lemma StaleListIsPassedOver(r: Rules) returns (s: Sys)
    ensures Reachable(r, s) && s.iw.IList? && s.iw.i == |s.iw.items| == 1 && s.iw.items[0].0 == "d"
    ensures "d" in s.iw.base && "d" in s.dbs.live && s.dbs.live["d"] == s.iw.base["d"]
    ensures var b := s.dbs.live["d"].body;
            b.spec.instance == s.iw.inst && b.ready && b.specSum.SumOf? && !IsDbChanged(b, map[])
    ensures s.dw.DIdle? && s.clears == {}
  {
    Starts(r);
    var s1 := StartDatabase(r, Init(), "d", false);
    var s2 := FinishDatabase(r, s1);
    Then(r, s1, FINISH);
    s := PassOver(r, s2, "inst", "d", s1.dw.c);
  }

  lemma PassOver(r: Rules, s: Sys, inst: string, d: string, c: DbObj) returns (t: Sys)
    requires Reachable(r, s) && s.iw.IIdle? && (d, c) in s.dbs.past && !Addressed(inst, c)
    ensures Reachable(r, t) && t == s.(iw := IList(inst, [(d, c)], 1, s.dbs.live))
  {
    var items := [(d, c)];
    t := s.(iw := IList(inst, items, 1, s.dbs.live));
    var steps := ListOnce(r, s, inst, d, c);
    Then(r, s, steps);
  }

  lemma ListOnce(r: Rules, s: Sys, inst: string, d: string, c: DbObj) returns (steps: seq<Step>)
    requires s.iw.IIdle? && (d, c) in s.dbs.past && !Addressed(inst, c)
    ensures Legal(r, s, steps) && Run(r, s, steps) == s.(iw := IList(inst, [(d, c)], 1, s.dbs.live))
  {
    var items := [(d, c)];
    var s1 := Apply(r, s, Instance(IStart(inst, items)));
    steps := [Instance(IStart(inst, items)), Instance(IItem)];
    assert steps[1..] == [Instance(IItem)];
    assert Legal(r, s1, [Instance(IItem)]);
  }

  // ---- Bringing up and taking down whole objects -----------------------------------------------------

  /** A Database in service, with only its own finalizer on it. */
  ghost predicate InService(s: Sys, d: string) {
    && d in s.dbs.live && (d, s.dbs.live[d]) in s.dbs.past && !s.dbs.live[d].body.spec.protected
    && s.dbs.live[d].finalizers == [DbFin(d)] && !s.dbs.live[d].marked && s.dbs.live[d].body.ready
  }

  lemma Finish(r: Rules, s: Sys) returns (t: Sys)
    requires Reachable(r, s) && FreshlyRecorded(s)
    ensures Reachable(r, t) && t.dw.DIdle? && InService(t, s.dw.n)
    ensures forall k :: k != s.dw.n && k in s.dbs.live ==> k in t.dbs.live && t.dbs.live[k] == s.dbs.live[k]
    ensures t.dbs.live.Keys == s.dbs.live.Keys && s.dbs.past <= t.dbs.past
    ensures t == s.(dbs := t.dbs, dw := DIdle, records := t.records)
  {
    t := FinishDatabase(r, s);
    Then(r, s, FINISH);
  }

  /** `main` says whether the Database has a user of its own, and so a role on the server. */
  lemma BringUp(r: Rules, s: Sys, d: string, main: bool) returns (t: Sys)
    requires Reachable(r, s) && s.dw.DIdle? && d !in s.dbs.live && (r.sessionReads ==> d !in s.dbSeen)
    ensures Reachable(r, t) && InService(t, d) && s.dbs.past <= t.dbs.past
    ensures forall k :: k != d && InService(s, k) ==> InService(t, k)
    ensures t.dbSeen.Keys == s.dbSeen.Keys + {d} && t.dbs.live.Keys == s.dbs.live.Keys + {d}
    ensures t == s.(dbs := t.dbs, sqlDbs := s.sqlDbs + {r.dbName(d)}, roles := t.roles, dbSeen := t.dbSeen,
                    records := t.records)
    ensures t.roles == if main then s.roles + {r.roleName(d)} else s.roles
  {
    var s1 := StartDatabase(r, s, d, main);
    t := Finish(r, s1);
  }

  /** DbUser `n` of Database `d`, created and reported so. */
  ghost predicate Settled(s: Sys, n: string, d: string) {
    && n in s.users.live && (n, s.users.live[n]) in s.users.past
    && s.users.live[n].finalizers == [UserFin(n)] && !s.users.live[n].marked
    && s.users.live[n].body == UserBody(d, false, true, 0)
    && d in s.dbs.live && (d, s.dbs.live[d]) in s.dbs.past
    && s.dbs.live[d].finalizers == [DbFin(d), UserFin(n)] && !s.dbs.live[d].marked && s.dbs.live[d].body.ready
    && !s.dbs.live[d].body.spec.protected
  }

  lemma StartUser(r: Rules, s: Sys, n: string, d: string) returns (t: Sys)
    requires Reachable(r, s) && s.uw.UIdle? && n !in s.users.live && r.roleName(n) !in s.roles && InService(s, d)
    requires r.sessionReads ==> n !in s.userSeen
    ensures Reachable(r, t) && t.uw.UMade? && t.uw.n == n && t.uw.d == s.dbs.live[d]
    ensures n in t.users.live && t.users.live[n] == t.uw.u
    ensures t.uw.u.finalizers == [] && !t.uw.u.marked && t.uw.u.body == UserBody(d, false, false, 0)
    ensures t == s.(users := t.users, uw := t.uw, roles := s.roles + {r.roleName(n)},
                    userSeen := s.userSeen[n := t.uw.u.uid])
    ensures t.users.past == s.users.past + {(n, t.uw.u)}
  {
    var s1 := Apply(r, s, World(NewUser(n, [], UserBody(d, false, false, 0))));
    Next(r, s, World(NewUser(n, [], UserBody(d, false, false, 0))));
    var u := s1.users.live[n];
    var s2 := Apply(r, s1, User(UGet(n, u)));
    Next(r, s1, User(UGet(n, u)));
    var s3 := Apply(r, s2, User(UGetDb(s.dbs.live[d])));
    Next(r, s2, User(UGetDb(s.dbs.live[d])));
    t := Apply(r, s3, User(USql));
    Next(r, s3, User(USql));
  }

  const ADD_BOTH: seq<Step> := [User(UAddToUser), User(UAddToDb)]

  /** addFinalizers: the DbUser first, then the Database. */
  lemma AddBoth(r: Rules, s: Sys) returns (t: Sys)
    requires s.uw.UMade? && s.uw.n in s.users.live && s.users.live[s.uw.n] == s.uw.u
    requires s.uw.u.finalizers == [] && !s.uw.u.marked && InService(s, s.uw.u.body.ref)
    requires s.dbs.live[s.uw.u.body.ref] == s.uw.d
    ensures Legal(r, s, ADD_BOTH) && t == Run(r, s, ADD_BOTH)
    ensures t.uw.UBoth? && t.uw.n == s.uw.n && s.uw.n in t.users.live && t.users.live[s.uw.n] == t.uw.u
    ensures t.uw.u == s.uw.u.(version := t.uw.u.version, finalizers := [UserFin(s.uw.n)])
    ensures s.uw.u.body.ref in t.dbs.live
    ensures var o := t.dbs.live[s.uw.u.body.ref];
            && (s.uw.u.body.ref, o) in t.dbs.past && !o.marked && o.body == s.uw.d.body
            && o.finalizers == [DbFin(s.uw.u.body.ref), UserFin(s.uw.n)]
    ensures forall k :: k != s.uw.u.body.ref && InService(s, k) ==> InService(t, k)
    ensures t == s.(users := t.users, dbs := t.dbs, uw := t.uw)
    ensures s.users.past <= t.users.past && s.dbs.past <= t.dbs.past
  {
    var UMade(n, u, d) := s.uw;
    UserFinIsNotDbFin(n, u.body.ref);
    var s1 := Apply(r, s, User(UAddToUser));
    var u1 := s1.users.live[n];
    assert s1.uw == UNamed(n, u1, d) && u1.finalizers == [UserFin(n)] && s1.dbs == s.dbs;
    t := Apply(r, s1, User(UAddToDb));
    assert ADD_BOTH[1..] == [User(UAddToDb)];
    assert Legal(r, s1, [User(UAddToDb)]) && Run(r, s1, [User(UAddToDb)]) == t;
  }

  lemma FinishUser(r: Rules, s: Sys) returns (t: Sys)
    requires Reachable(r, s) && s.uw.UMade? && s.uw.n in s.users.live && s.users.live[s.uw.n] == s.uw.u
    requires s.uw.u.finalizers == [] && !s.uw.u.marked && s.uw.u.body == UserBody(s.uw.u.body.ref, false, false, 0)
    requires InService(s, s.uw.u.body.ref) && s.dbs.live[s.uw.u.body.ref] == s.uw.d
    ensures Reachable(r, t) && t.uw.UIdle? && Settled(t, s.uw.n, s.uw.u.body.ref)
    ensures forall k :: k != s.uw.u.body.ref && InService(s, k) ==> InService(t, k)
    ensures t == s.(users := t.users, dbs := t.dbs, uw := UIdle)
    ensures s.users.past <= t.users.past && s.dbs.past <= t.dbs.past && t.users.live[s.uw.n].uid == s.uw.u.uid
  {
    var s1 := AddBoth(r, s);
    Then(r, s, ADD_BOTH);
    Next(r, s1, User(UStatus(0)));
    t := Apply(r, s1, User(UStatus(0)));
  }

  lemma BringUpUser(r: Rules, s: Sys, n: string, d: string) returns (t: Sys)
    requires Reachable(r, s) && s.uw.UIdle? && n !in s.users.live && r.roleName(n) !in s.roles && InService(s, d)
    requires r.sessionReads ==> n !in s.userSeen
    ensures Reachable(r, t) && Settled(t, n, d) && t.userSeen == s.userSeen[n := t.users.live[n].uid]
    ensures forall k :: k != d && InService(s, k) ==> InService(t, k)
    ensures t == s.(users := t.users, dbs := t.dbs, roles := s.roles + {r.roleName(n)}, userSeen := t.userSeen)
    ensures s.users.past <= t.users.past && s.dbs.past <= t.dbs.past
  {
    var s1 := StartUser(r, s, n, d);
    t := FinishUser(r, s1);
  }

  /** DbUser `n` is deleted; the worker reads it and Database `d` and gets the server side done. */
  lemma StartTeardown(r: Rules, s: Sys, n: string, d: string) returns (t: Sys)
    requires Reachable(r, s) && s.uw.UIdle? && n in s.users.live && !s.users.live[n].marked
    requires s.users.live[n].finalizers == [UserFin(n)]
    requires s.users.live[n].body.ref == d && !s.users.live[n].body.existing
    requires d in s.dbs.live && (d, s.dbs.live[d]) in s.dbs.past
    requires n in s.userSeen && s.userSeen[n] == s.users.live[n].uid
    ensures Reachable(r, t) && t.uw.UGone? && t.uw.n == n && t.uw.d == s.dbs.live[d]
    ensures n in t.users.live && t.users.live[n] == t.uw.u && (n, t.uw.u) in t.users.past
    ensures t.uw.u.marked && t.uw.u.finalizers == [UserFin(n)] && t.uw.u.body == s.users.live[n].body
    ensures t == s.(users := t.users, uw := t.uw, roles := s.roles - {r.roleName(n)})
  {
    var s1 := Apply(r, s, World(MarkUser(n)));
    Next(r, s, World(MarkUser(n)));
    var u := s1.users.live[n];
    var s2 := Apply(r, s1, User(UGet(n, u)));
    Next(r, s1, User(UGet(n, u)));
    assert s2.userSeen == s.userSeen;
    var s3 := Apply(r, s2, User(UGetDb(s.dbs.live[d])));
    Next(r, s2, User(UGetDb(s.dbs.live[d])));
    t := Apply(r, s3, User(UDropRole(false)));
    Next(r, s3, User(UDropRole(false)));
  }

  lemma FinishTeardown(r: Rules, s: Sys) returns (t: Sys)
    requires Reachable(r, s) && s.uw.UGone? && s.uw.n in s.users.live && s.users.live[s.uw.n] == s.uw.u
    requires s.uw.u.marked && s.uw.u.finalizers == [UserFin(s.uw.n)]
    requires s.uw.u.body.ref in s.dbs.live && s.dbs.live[s.uw.u.body.ref] == s.uw.d && !s.uw.d.marked
    ensures Reachable(r, t) && t.uw.UIdle? && s.uw.n !in t.users.live && t.users.past >= s.users.past
    ensures t == s.(users := t.users, dbs := t.dbs, uw := UIdle)
    ensures s.uw.u.body.ref in t.dbs.live
    ensures var o := t.dbs.live[s.uw.u.body.ref];
            && (s.uw.u.body.ref, o) in t.dbs.past && !o.marked && o.body == s.uw.d.body
            && o.finalizers == Removed(s.uw.d.finalizers, UserFin(s.uw.n))
    ensures forall k :: k != s.uw.u.body.ref && k in s.dbs.live ==> k in t.dbs.live && t.dbs.live[k] == s.dbs.live[k]
  {
    var UGone(n, u, d) := s.uw;
    var s1 := Apply(r, s, User(UOffDb));
    Next(r, s, User(UOffDb));
    assert s1.uw == UOff(n, u);
    assert Removed([UserFin(n)], UserFin(n)) == [];
    t := Apply(r, s1, User(UOffUser));
    Next(r, s1, User(UOffUser));
  }

  // ---- Why the rules are needed ------------------------------------------------------------------------

  const DB := "d"
  const USER := "u"

  /** A DbUser is created, deleted and created again under the same name. */
  lemma TwoLives(r: Rules) returns (t: Sys, former: UserObj)
    requires !r.sessionReads
    ensures Reachable(r, t) && t.uw.UIdle? && Settled(t, USER, DB)
    ensures (USER, former) in t.users.past && former.marked && UserFin(USER) in former.finalizers
    ensures former.body.ref == DB
  {
    Starts(r);
    var s1 := BringUp(r, Init(), DB, false);
    var s2 := BringUpUser(r, s1, USER, DB);
    var s3 := StartTeardown(r, s2, USER, DB);
    former := s3.uw.u;
    var s4 := FinishTeardown(r, s3);
    UserFinIsNotDbFin(USER, DB);
    assert Removed([DbFin(DB), UserFin(USER)], UserFin(USER)) == [DbFin(DB)] by {
      RemovedOfConcat([DbFin(DB)], [UserFin(USER)], UserFin(USER));
      assert [DbFin(DB)] + [UserFin(USER)] == [DbFin(DB), UserFin(USER)];
    }
    assert InService(s4, DB);
    t := BringUpUser(r, s4, USER, DB);
  }

  /**
   Without session reads a created DbUser can lose its Database: a worker handed a copy of
   the DbUser's previous life tears it down and takes the finalizer off the Database that
   the present life depends on.
   */
  lemma StaleLifeBreaksTheLink(r: Rules) returns (t: Sys)
    requires !r.sessionReads
    ensures Reachable(r, t)
    ensures USER in t.users.live && t.users.live[USER].body.created && !t.users.live[USER].marked
    ensures DB in t.dbs.live && t.users.live[USER].body.ref == DB
    ensures UserFin(USER) !in t.dbs.live[DB].finalizers
  {
    var s, former := TwoLives(r);
    var s1 := Apply(r, s, User(UGet(USER, former)));
    Next(r, s, User(UGet(USER, former)));
    var s2 := Apply(r, s1, User(UGetDb(s.dbs.live[DB])));
    Next(r, s1, User(UGetDb(s.dbs.live[DB])));
    var s3 := Apply(r, s2, User(UDropRole(true)));
    Next(r, s2, User(UDropRole(true)));
    t := Apply(r, s3, User(UOffDb));
    Next(r, s3, User(UOffDb));
  }

  /** A Database in service is deleted: the worker reads it, drops the SQL database and lets it go. */
  lemma TakeDown(r: Rules, s: Sys, d: string) returns (t: Sys, former: DbObj)
    requires Reachable(r, s) && s.dw.DIdle? && InService(s, d) && !Contains(d, USER_PREFIX)
    ensures Reachable(r, t) && t.dw.DIdle? && d !in t.dbs.live && s.dbs.past <= t.dbs.past
    ensures (d, former) in t.dbs.past && former.marked && former.finalizers == [DbFin(d)]
    ensures t == s.(dbs := t.dbs, sqlDbs := s.sqlDbs - {r.dbName(d)}, dbSeen := t.dbSeen)
    ensures forall k :: k != d && k in s.dbs.live ==> k in t.dbs.live && t.dbs.live[k] == s.dbs.live[k]
  {
    assert Session(r, s.dbSeen, d, s.dbs.live[d].uid) by {
      ReachableInv(r, s);
      if d in s.dbSeen {
        CurrentIsReadable(s.dbs, s.dbSeen, d);
      }
    }
    var s1 := Apply(r, s, World(MarkDb(d)));
    Next(r, s, World(MarkDb(d)));
    former := s1.dbs.live[d];
    var s2 := PassGuard(r, s1, d, former);
    var s3 := Apply(r, s2, Database(DDropSql(false, false)));
    Next(r, s2, Database(DDropSql(false, false)));
    t := LetGo(r, s3);
  }

  lemma LetGo(r: Rules, s: Sys) returns (t: Sys)
    requires Reachable(r, s) && s.dw.DDropped? && s.dw.n in s.dbs.live && s.dbs.live[s.dw.n] == s.dw.c
    requires s.dw.c.marked && s.dw.c.finalizers == [DbFin(s.dw.n)]
    ensures Reachable(r, t) && t.dw.DIdle? && s.dw.n !in t.dbs.live && s.dbs.past <= t.dbs.past
    ensures t == s.(dbs := t.dbs, dw := DIdle)
    ensures forall k :: k != s.dw.n && k in s.dbs.live ==> k in t.dbs.live && t.dbs.live[k] == s.dbs.live[k]
  {
    assert Removed([DbFin(s.dw.n)], DbFin(s.dw.n)) == [];
    var s1 := Apply(r, s, Database(DOffDb));
    Next(r, s, Database(DOffDb));
    t := Apply(r, s1, Database(DStop(false, 0)));
    Next(r, s1, Database(DStop(false, 0)));
  }

  /**
   Without session reads the drop guard can be passed on a copy of the Database's previous
   life: the worker is about to drop the SQL database while the present Database is ready and
   carries the finalizer of a created DbUser.
   */
  lemma FormerDatabaseIsDropped(r: Rules) returns (t: Sys)
    requires !r.sessionReads
    ensures Reachable(r, t) && t.dw.DDrop? && t.dw.n == DB && DB in t.dbs.live && t.dbs.live[DB].uid != t.dw.c.uid
    ensures t.dbs.live[DB].body.ready && !t.dbs.live[DB].marked && UserFin(USER) in t.dbs.live[DB].finalizers
    ensures USER in t.users.live && t.users.live[USER].body.created && !t.users.live[USER].marked
  {
    Starts(r);
    var s1 := BringUp(r, Init(), DB, false);
    assert !Contains(DB, USER_PREFIX);
    var s2, former := TakeDown(r, s1, DB);
    var s3 := BringUp(r, s2, DB, false);
    var s4 := BringUpUser(r, s3, USER, DB);
    ReachableInv(r, s4);
    assert Follows(former, s4.dbs.live[DB]);
    t := PassGuard(r, s4, DB, former);
  }

  /** A marked copy with no other finalizer than the Database's own gets through to the drop. */
  lemma PassGuard(r: Rules, s: Sys, d: string, c: DbObj) returns (t: Sys)
    requires Reachable(r, s) && s.dw.DIdle? && (d, c) in s.dbs.past && Session(r, s.dbSeen, d, c.uid)
    requires c.marked && c.finalizers == [DbFin(d)] && !Contains(d, USER_PREFIX)
    ensures Reachable(r, t) && t == s.(dw := DDrop(d, c), dbSeen := s.dbSeen[d := c.uid])
  {
    ContainsIgnoresDbPrefix(d);
    var s1 := Apply(r, s, Database(DGet(d, c)));
    Next(r, s, Database(DGet(d, c)));
    t := Apply(r, s1, Database(DGuard));
    Next(r, s1, Database(DGuard));
  }

  const OTHER_DB := "e"

  /**
   Two Databases that come to the same name on the server: deleting one takes the SQL database
   away from the other, which is ready and has a created DbUser.
   */
  lemma SharedNameLosesTheDatabase(r: Rules, a: string, b: string) returns (t: Sys)
    requires a != b && r.dbName(a) == r.dbName(b) && !Contains(a, USER_PREFIX)
    ensures Reachable(r, t) && Settled(t, USER, b) && r.dbName(b) !in t.sqlDbs
  {
    Starts(r);
    var s1 := BringUp(r, Init(), a, false);
    var s2 := BringUp(r, s1, b, false);
    var s3 := BringUpUser(r, s2, USER, b);
    var former;
    t, former := TakeDown(r, s3, a);
  }

  /** Every Database in use exists on the server, in every run. */
  ghost predicate NoneLost(r: Rules) {
    forall s, d :: Reachable(r, s) && InUse(s, d) ==> r.dbName(d) in s.sqlDbs
  }

  /**
   With session reads that is so if and only if no Database that can be dropped at all shares
   its name on the server with another.
   */
  lemma NoneIsLostIff(r: Rules)
    requires r.sessionReads
    ensures NoneLost(r) <==> forall a, b :: a != b && !Contains(a, USER_PREFIX) ==> r.dbName(a) != r.dbName(b)
  {
    if a, b :| a != b && !Contains(a, USER_PREFIX) && r.dbName(a) == r.dbName(b) {
      var t := SharedNameLosesTheDatabase(r, a, b);
      assert InUse(t, b);
    } else {
      forall s, d | Reachable(r, s) && InUse(s, d)
        ensures r.dbName(d) in s.sqlDbs
      {
        DatabaseInUseExists(r, s, d);
      }
    }
  }

  /**
   If `databaseRef` may be edited, a Database can be held back for good: the DbUser moves to
   another Database, is deleted there, and its finalizer stays on the first one.
   */
  lemma MovedReferenceOrphansTheFinalizer(r: Rules) returns (t: Sys)
    requires !r.fixedRef
    ensures Reachable(r, t)
    ensures DB in t.dbs.live && UserFin(USER) in t.dbs.live[DB].finalizers
    ensures USER !in t.users.live
  {
    Starts(r);
    var s1 := BringUp(r, Init(), DB, false);
    var s2 := BringUp(r, s1, OTHER_DB, false);
    var s3 := BringUpUser(r, s2, USER, DB);
    assert InService(s3, OTHER_DB);
    var u := s3.users.live[USER];
    var step := World(EditUser(USER, u.finalizers, u.body.(ref := OTHER_DB)));
    var s4 := Apply(r, s3, step);
    Next(r, s3, step);
    var s5 := StartTeardown(r, s4, USER, OTHER_DB);
    t := FinishTeardown(r, s5);
  }

  // ---- A creation that was interrupted ---------------------------------------------------------------

  /** The role exists on the server, but nothing stored says that the operator made it. */
  ghost predicate RoleLeft(r: Rules, s: Sys, n: string) {
    && r.roleName(n) in s.roles
    && (forall o :: (n, o) in s.users.past ==>
          !o.body.existing && !o.body.created && UserFin(n) !in o.finalizers)
    && (s.uw.UIdle? || s.uw.n != n || s.uw.UHave? || s.uw.UDb?)
  }

  /**
   The step neither turns `n` into a DbUser for an existing role nor drops its role on behalf of
   another object of the same role name.
   */
  predicate LeavesAlone(r: Rules, s: Sys, step: Step, n: string)
    requires Enabled(r, s, step)
  {
    && (step.World? && step.w.NewUser? && step.w.n == n ==> !step.w.ub.existing)
    && (step.World? && step.w.EditUser? && step.w.n == n ==> !step.w.ub.existing)
    && (r.roleName(n) in s.roles && r.roleName(n) !in Apply(r, s, step).roles ==>
          step.User? && !s.uw.UIdle? && s.uw.n == n)
  }

  predicate LeftAlone(r: Rules, s: Sys, steps: seq<Step>, n: string)
    requires Legal(r, s, steps)
    decreases steps
  {
    steps == [] || (LeavesAlone(r, s, steps[0], n) && LeftAlone(r, Apply(r, s, steps[0]), steps[1..], n))
  }

  lemma WorldKeepsRoleLeft(r: Rules, s: Sys, step: WorldStep, n: string)
    requires Copies(s) && RoleLeft(r, s, n) && WorldEnabled(r, s, step) && LeavesAlone(r, s, World(step), n)
    ensures RoleLeft(r, WorldApply(r, s, step), n)
  {
  }

  lemma UserKeepsRoleLeft(r: Rules, s: Sys, step: UserStep, n: string)
    requires Copies(s) && RoleLeft(r, s, n) && UserEnabled(r, s, step) && LeavesAlone(r, s, User(step), n)
    ensures RoleLeft(r, UserApply(r, s, step), n)
  {
    if !s.uw.UIdle? {
      assert (s.uw.n, s.uw.u) in s.users.past;
      UserFinIsInjective(s.uw.n, n);
    }
  }

  lemma {:induction false} RoleLeftForGood(r: Rules, s: Sys, n: string, steps: seq<Step>)
    requires Inv(r, s) && RoleLeft(r, s, n) && Legal(r, s, steps) && LeftAlone(r, s, steps, n)
    ensures RoleLeft(r, Run(r, s, steps), n)
    decreases steps
  {
    if steps != [] {
      StepKeepsRoleLeft(r, s, steps[0], n);
      StepKeepsInv(r, s, steps[0]);
      RoleLeftForGood(r, Apply(r, s, steps[0]), n, steps[1..]);
    }
  }

  /** The other two controllers leave DbUsers alone. */
  lemma OtherWorkersKeepUsers(r: Rules, s: Sys, step: Step)
    requires Enabled(r, s, step) && (step.Database? || step.Instance?)
    ensures SameUsers(s, Apply(r, s, step))
  {
    if step.Database? {
      DbKeepsUsers(r, s, step.d);
    }
  }

  ghost predicate SameUsers(s: Sys, t: Sys) {
    t.users == s.users && t.uw == s.uw && t.userSeen == s.userSeen
  }

  lemma DbKeepsUsers(r: Rules, s: Sys, step: DbStep)
    requires DbEnabled(r, s, step)
    ensures SameUsers(s, DbApply(r, s, step))
  {
  }

  lemma StepKeepsRoleLeft(r: Rules, s: Sys, step: Step, n: string)
    requires Copies(s) && RoleLeft(r, s, n) && Enabled(r, s, step) && LeavesAlone(r, s, step, n)
    ensures RoleLeft(r, Apply(r, s, step), n)
  {
    match step {
      case World(w) => WorldKeepsRoleLeft(r, s, w, n);
      case User(u) => UserKeepsRoleLeft(r, s, u, n);
      case Database(d) => OtherWorkersKeepUsers(r, s, step);
      case Instance(i) => OtherWorkersKeepUsers(r, s, step);
    }
  }

  /**
   A worker that stops between creating the role and storing the finalizer leaves the DbUser
   stuck: CreateUser refuses an existing role, so in every continuation that does not switch
   the DbUser to `existingUser`, and in which nobody else gives up a role of that name, the role
   stays and the DbUser is never reported created.
   */
  lemma InterruptedCreationIsNeverCompleted(r: Rules) returns (s: Sys)
    ensures Reachable(r, s) && USER in s.users.live && s.uw.UIdle?
    ensures forall steps :: Legal(r, s, steps) && LeftAlone(r, s, steps, USER) ==>
      var t := Run(r, s, steps);
      r.roleName(USER) in t.roles && (USER in t.users.live ==> !t.users.live[USER].body.created)
  {
    Starts(r);
    var s1 := BringUp(r, Init(), DB, false);
    var s2 := StartUser(r, s1, USER, DB);
    Next(r, s2, User(UStop(false, 0)));
    s := Apply(r, s2, User(UStop(false, 0)));
    ReachableInv(r, s);
    assert RoleLeft(r, s, USER);
    forall steps | Legal(r, s, steps) && LeftAlone(r, s, steps, USER)
      ensures var t := Run(r, s, steps);
              r.roleName(USER) in t.roles && (USER in t.users.live ==> !t.users.live[USER].body.created)
    {
      RoleLeftForGood(r, s, USER, steps);
      RunKeepsInv(r, s, steps);
      var t := Run(r, s, steps);
      if USER in t.users.live {
        assert (USER, t.users.live[USER]) in t.users.past;
      }
    }
  }
}
