/**
 What each controller brings about when nothing comes in between: a DbUser and a Database are
 brought up, a DbUser is torn down, a Database is deleted, from every state in which the
 controller reads what is stored and is let through.
 */
module OperatorUndisturbed {
  import opened ObjectStore
  import opened Finalizers
  import opened Operator
  import opened OperatorInvariants
  import opened OperatorProgress

  lemma {:induction false} RunCons(r: Rules, s: Sys, x: Step, rest: seq<Step>)
    requires Enabled(r, s, x) && Legal(r, Apply(r, s, x), rest)
    ensures Legal(r, s, [x] + rest) && Run(r, s, [x] + rest) == Run(r, Apply(r, s, x), rest)
  {
    assert ([x] + rest)[1..] == rest;
  }

  lemma {:induction false} RunOne(r: Rules, s: Sys, x: Step)
    requires Enabled(r, s, x)
    ensures Legal(r, s, [x]) && Run(r, s, [x]) == Apply(r, s, x)
  {
    assert Legal(r, Apply(r, s, x), []) && Run(r, Apply(r, s, x), []) == Apply(r, s, x);
    assert [x][1..] == [];
  }

  // ---- Stores --------------------------------------------------------------------------------------------

  /** Nothing but object `n` differs. */
  ghost predicate OnlyAt<B(!new)>(st: Store<B>, st': Store<B>, n: string) {
    && (forall k :: k != n ==> (k in st'.live <==> k in st.live))
    && (forall k :: k != n && k in st.live ==> st'.live[k] == st.live[k])
  }

  /** Object `n` has lost finalizer `f`, and is gone if it was marked and carried no other. */
  ghost predicate Struck<B(!new)>(st: Store<B>, st': Store<B>, n: string, f: string)
    requires n in st.live
  {
    var o := st.live[n];
    && OnlyAt(st, st', n)
    && (n !in st'.live <==> o.marked && forall g :: g in o.finalizers ==> g == f)
    && (n in st'.live ==>
          && st'.live[n].uid == o.uid && st'.live[n].marked == o.marked && st'.live[n].body == o.body
          && forall g :: g in st'.live[n].finalizers <==> g in o.finalizers && g != f)
  }

  lemma {:induction false} PutStrikes<B(!new)>(st: Store<B>, n: string, f: string)
    requires n in st.live
    ensures Accepts(st, n, st.live[n].version, Removed(st.live[n].finalizers, f))
    ensures Struck(st, Put(st, n, Removed(st.live[n].finalizers, f), st.live[n].body), n, f)
  {
    var o := st.live[n];
    var fs := Removed(o.finalizers, f);
    if fs == [] {
      assert forall g :: g in o.finalizers ==> g == f;
    } else {
      assert fs[0] in o.finalizers && fs[0] != f;
    }
  }

  // ---- Tearing down a DbUser -------------------------------------------------------------------------------

  function TeardownSteps(n: string, u: UserObj, d: DbObj): seq<Step> {
    [User(UGet(n, u))] + ([User(UGetDb(d))] + ([User(UDropRole(false))] + ([User(UOffDb)] + [User(UOffUser)])))
  }

  /** A marked DbUser: its role goes unless it existed before, and its finalizer comes off both objects. */
  lemma {:induction false} UndisturbedTeardown(r: Rules, s: Sys, n: string)
    requires Copies(s) && s.uw.UIdle? && n in s.users.live && s.users.live[n].body.ref in s.dbs.live
    requires s.users.live[n].marked && UserFin(n) in s.users.live[n].finalizers
    requires Session(r, s.userSeen, n, s.users.live[n].uid)
    ensures var u := s.users.live[n];
            var steps := TeardownSteps(n, u, s.dbs.live[u.body.ref]);
            && Legal(r, s, steps)
            && var t := Run(r, s, steps);
               && Struck(s.users, t.users, n, UserFin(n)) && Struck(s.dbs, t.dbs, u.body.ref, UserFin(n))
               && t.roles == (if u.body.existing then s.roles else s.roles - {r.roleName(n)})
               && t.uw.UIdle? && t.sqlDbs == s.sqlDbs && t.dw == s.dw
  {
    var u := s.users.live[n];
    var d := s.dbs.live[u.body.ref];
    assert (n, u) in s.users.past && (u.body.ref, d) in s.dbs.past;
    var s1 := Apply(r, s, User(UGet(n, u)));
    var s2 := Apply(r, s1, User(UGetDb(d)));
    var s3 := Apply(r, s2, User(UDropRole(false)));
    assert s3.uw == UGone(n, u, d) && s3.users == s.users && s3.dbs == s.dbs;
    PutStrikes(s.dbs, u.body.ref, UserFin(n));
    var s4 := Apply(r, s3, User(UOffDb));
    assert s4.uw == UOff(n, u) && s4.users == s.users;
    PutStrikes(s.users, n, UserFin(n));
    RunOne(r, s4, User(UOffUser));
    RunCons(r, s3, User(UOffDb), [User(UOffUser)]);
    RunCons(r, s2, User(UDropRole(false)), [User(UOffDb)] + [User(UOffUser)]);
    RunCons(r, s1, User(UGetDb(d)), [User(UDropRole(false))] + ([User(UOffDb)] + [User(UOffUser)]));
    RunCons(r, s, User(UGet(n, u)),
            [User(UGetDb(d))] + ([User(UDropRole(false))] + ([User(UOffDb)] + [User(UOffUser)])));
  }

  // ---- Deleting a Database -----------------------------------------------------------------------------------

  function DeletionSteps(n: string, c: DbObj, main: bool): seq<Step> {
    [Database(DGet(n, c))] + ([Database(DGuard)] + ([Database(DDropSql(main, false))] + [Database(DOffDb)]))
  }

  /** A marked Database that nothing holds back: what it has on the server goes unless protected, then its finalizer. */
  lemma {:induction false} UndisturbedDeletion(r: Rules, s: Sys, n: string, main: bool)
    requires Copies(s) && s.dw.DIdle? && n in s.dbs.live && Session(r, s.dbSeen, n, s.dbs.live[n].uid)
    requires var c := s.dbs.live[n];
             c.marked && DbFin(n) in c.finalizers && !AnyContains(c.finalizers, "dbuser.")
    ensures var c := s.dbs.live[n];
            var steps := DeletionSteps(n, c, main);
            && Legal(r, s, steps)
            && var t := Run(r, s, steps);
               && Struck(s.dbs, t.dbs, n, DbFin(n))
               && t.sqlDbs == (if c.body.spec.protected then s.sqlDbs else s.sqlDbs - {r.dbName(n)})
               && t.roles == (if c.body.spec.protected || !main then s.roles else s.roles - {r.roleName(n)})
               && t.users == s.users && t.uw == s.uw && t.dw.DTail?
  {
    var c := s.dbs.live[n];
    assert (n, c) in s.dbs.past;
    var s1 := Apply(r, s, Database(DGet(n, c)));
    DropStartsIff(r, s1);
    var s2 := Apply(r, s1, Database(DGuard));
    var s3 := Apply(r, s2, Database(DDropSql(main, false)));
    assert s3.dw == DDropped(n, c) && s3.dbs == s.dbs;
    PutStrikes(s.dbs, n, DbFin(n));
    RunOne(r, s3, Database(DOffDb));
    RunCons(r, s2, Database(DDropSql(main, false)), [Database(DOffDb)]);
    RunCons(r, s1, Database(DGuard), [Database(DDropSql(main, false))] + [Database(DOffDb)]);
    RunCons(r, s, Database(DGet(n, c)),
            [Database(DGuard)] + ([Database(DDropSql(main, false))] + [Database(DOffDb)]));
  }

  // ---- Bringing up a Database ----------------------------------------------------------------------------------

  /** The copy in hand is stored and not marked, so a write that goes on from it is accepted. */
  ghost predicate InHand(s: Sys, n: string) {
    !s.dw.DIdle? && s.dw.n == n && n in s.dbs.live && s.dbs.live[n] == s.dw.c && !s.dw.c.marked
  }

  /** Object `n` has finalizers `fs` and body `b` now. */
  ghost predicate Stored(s: Sys, t: Sys, n: string, fs: seq<string>, b: DbBody)
    requires n in s.dbs.live
  {
    && OnlyAt(s.dbs, t.dbs, n) && n in t.dbs.live && !t.dbs.live[n].marked && t.dbs.live[n].uid == s.dbs.live[n].uid
    && t.dbs.live[n].finalizers == fs && t.dbs.live[n].body == b
    && t.users == s.users && t.uw == s.uw && t.sqlDbs == s.sqlDbs && t.roles == s.roles
  }

  /** One step of the Database controller that only writes the object. */
  lemma WriteIsStored(s: Sys, n: string, fs: seq<string>, b: DbBody, next: DbObj -> DbPc)
    requires InHand(s, n)
    ensures var t := DbWrite(s, fs, b, next);
            Stored(s, t, n, fs, b) && t.dw == next(t.dbs.live[n])
  {
  }

  /** The recording step: the finalizer and both checksums. */
  lemma RecordIsStored(r: Rules, s: Sys, n: string)
    requires s.dw.DGranted? && InHand(s, n)
    ensures var b, t := s.dw.c.body, DbApply(r, s, DRecord);
            && t.dw == DRecorded(n, t.dbs.live[n])
            && Stored(s, t, n, Appended(s.dw.c.finalizers, DbFin(n)),
                      b.(specSum := SumOf(b.spec), secretSum := SecretSumOf(s.dw.creds)))
  {
    var b := s.dw.c.body.(specSum := SumOf(s.dw.c.body.spec), secretSum := SecretSumOf(s.dw.creds));
    WriteIsStored(s, n, Appended(s.dw.c.finalizers, DbFin(n)), b, o => DRecorded(n, o));
  }

  function RecordSteps(misc: nat): seq<Step> {
    [Database(DGrants(true, misc))] + ([Database(DRecord)] + ([Database(DRewrite)] + [Database(DStatus(misc))]))
  }

  /** What is recorded of a pass that went through. */
  function Recorded(b: DbBody, creds: Creds, misc: nat): DbBody {
    b.(specSum := SumOf(b.spec), secretSum := SecretSumOf(creds), ready := true, misc := misc)
  }

  lemma {:induction false} RecordsAreStored(r: Rules, s: Sys, n: string, misc: nat)
    requires s.dw.DSql? && InHand(s, n)
    ensures Legal(r, s, RecordSteps(misc))
    ensures var t := Run(r, s, RecordSteps(misc));
            t.dw.DIdle? &&
            Stored(s, t, n, Appended(s.dw.c.finalizers, DbFin(n)), Recorded(s.dw.c.body, s.dw.creds, misc))
  {
    var DSql(_, c, from, creds) := s.dw;
    var fs, b0 := Appended(c.finalizers, DbFin(n)), Noted(c.body, true, misc);
    var b1 := b0.(specSum := SumOf(b0.spec), secretSum := SecretSumOf(creds));
    var s1 := Apply(r, s, Database(DGrants(true, misc)));
    WriteIsStored(s, n, c.finalizers, b0, o => DGranted(n, o, from, creds));
    var s2 := Apply(r, s1, Database(DRecord));
    RecordIsStored(r, s1, n);
    var s3 := Apply(r, s2, Database(DRewrite));
    WriteIsStored(s2, n, fs, b1, o => DReady(n, o));
    WriteIsStored(s3, n, fs, b1.(ready := true), o => DIdle);
    RunOne(r, s3, Database(DStatus(misc)));
    RunCons(r, s2, Database(DRewrite), [Database(DStatus(misc))]);
    RunCons(r, s1, Database(DRecord), [Database(DRewrite)] + [Database(DStatus(misc))]);
    RunCons(r, s, Database(DGrants(true, misc)),
            [Database(DRecord)] + ([Database(DRewrite)] + [Database(DStatus(misc))]));
  }

  lemma WorkIsDue(r: Rules, s: Sys, n: string, healthy: bool, secret: SecretRead)
    requires s.dw.DHave? && InHand(s, n) && (s.dw.c.body.force || !UpToDate(r, s.dw.c, healthy, secret))
    ensures var t := DbApply(r, s, DDecide(healthy, secret));
            && t.dw.DFull? && InHand(t, n)
            && Stored(s, t, n, s.dw.c.finalizers, s.dw.c.body.(force := false))
  {
    if s.dw.c.body.force {
      WriteIsStored(s, n, s.dw.c.finalizers, s.dw.c.body.(force := false), o => DFull(n, o, s.dw.c.version));
    } else {
      SkipsIff(r, s, healthy, secret);
    }
  }

  function PassSteps(n: string, c: DbObj, healthy: bool, secret: SecretRead, creds: Creds, main: bool,
                     misc: nat): seq<Step> {
    [Database(DGet(n, c))] +
    ([Database(DDecide(healthy, secret))] + ([Database(DCreateSql(creds, main))] + RecordSteps(misc)))
  }

  /**
   A Database that is not up to date, or forced: it ends up on the server, ready, with its finalizer,
   unforced, and with the checksums of its spec and of the credentials the work was done with.
   */
  lemma {:induction false} UndisturbedPass(r: Rules, s: Sys, n: string, healthy: bool, secret: SecretRead,
                                           creds: Creds, main: bool, misc: nat)
    requires Copies(s) && s.dw.DIdle? && n in s.dbs.live && Session(r, s.dbSeen, n, s.dbs.live[n].uid)
    requires var c := s.dbs.live[n];
             !c.marked && (c.body.force || !UpToDate(r, c, healthy, secret))
    ensures var c := s.dbs.live[n];
            var steps := PassSteps(n, c, healthy, secret, creds, main, misc);
            && Legal(r, s, steps)
            && var t := Run(r, s, steps);
               && t.sqlDbs == s.sqlDbs + {r.dbName(n)} && t.dw.DIdle?
               && t.roles == (if main then s.roles + {r.roleName(n)} else s.roles)
               && Stored(s, t.(sqlDbs := s.sqlDbs, roles := s.roles), n, Appended(c.finalizers, DbFin(n)),
                         Recorded(c.body, creds, misc).(force := false))
  {
    var c := s.dbs.live[n];
    assert (n, c) in s.dbs.past;
    var s1 := Apply(r, s, Database(DGet(n, c)));
    var s2 := Apply(r, s1, Database(DDecide(healthy, secret)));
    WorkIsDue(r, s1, n, healthy, secret);
    var s3 := Apply(r, s2, Database(DCreateSql(creds, main)));
    RecordsAreStored(r, s3, n, misc);
    RunCons(r, s2, Database(DCreateSql(creds, main)), RecordSteps(misc));
    RunCons(r, s1, Database(DDecide(healthy, secret)), [Database(DCreateSql(creds, main))] + RecordSteps(misc));
    RunCons(r, s, Database(DGet(n, c)),
            [Database(DDecide(healthy, secret))] + ([Database(DCreateSql(creds, main))] + RecordSteps(misc)));
  }

  /** And the next pass on it, with the Database healthy and the Secret the same, skips the SQL work. */
  lemma {:induction false} NextPassSkips(r: Rules, s: Sys, n: string, healthy: bool, secret: SecretRead, creds: Creds,
                                         main: bool, misc: nat)
    requires Copies(s) && s.dw.DIdle? && n in s.dbs.live && Session(r, s.dbSeen, n, s.dbs.live[n].uid)
    requires var c := s.dbs.live[n];
             !c.marked && (c.body.force || !UpToDate(r, c, healthy, secret))
    requires r.checkChanges
    ensures var steps := PassSteps(n, s.dbs.live[n], healthy, secret, creds, main, misc);
            && Legal(r, s, steps) && n in Run(r, s, steps).dbs.live
            && var t := Run(r, s, steps);
               var next := t.(dw := DHave(n, t.dbs.live[n]));
               && DbEnabled(r, next, DDecide(true, Found(creds)))
               && DbApply(r, next, DDecide(true, Found(creds))) == next.(dw := DReady(n, t.dbs.live[n]))
  {
    UndisturbedPass(r, s, n, healthy, secret, creds, main, misc);
  }

  // ---- Bringing up a DbUser --------------------------------------------------------------------------------------

  function CreationSteps(n: string, u: UserObj, d: DbObj, misc: nat): seq<Step> {
    [User(UGet(n, u))] + ([User(UGetDb(d))] + ([User(USql)] + StoreSteps(misc)))
  }

  function StoreSteps(misc: nat): seq<Step> {
    [User(UAddToUser)] + ([User(UAddToDb)] + [User(UStatus(misc))])
  }

  /** Object `n` carries finalizer `f` besides its own, and has body `b`. */
  ghost predicate Tied<B(!new)>(st: Store<B>, st': Store<B>, n: string, f: string, b: B)
    requires n in st.live
  {
    && OnlyAt(st, st', n) && n in st'.live && st'.live[n].uid == st.live[n].uid
    && st'.live[n].finalizers == Appended(st.live[n].finalizers, f) && st'.live[n].body == b
  }

  lemma {:induction false} BothAreTied(r: Rules, s: Sys, misc: nat)
    requires s.uw.UMade? && s.uw.n in s.users.live && s.users.live[s.uw.n] == s.uw.u && !s.uw.u.marked
    requires s.uw.u.body.ref in s.dbs.live && s.dbs.live[s.uw.u.body.ref] == s.uw.d && !s.uw.d.marked
    ensures Legal(r, s, StoreSteps(misc))
    ensures var n, u, t := s.uw.n, s.uw.u, Run(r, s, StoreSteps(misc));
            && Tied(s.users, t.users, n, UserFin(n), u.body.(created := true, misc := misc))
            && Tied(s.dbs, t.dbs, u.body.ref, UserFin(n), s.uw.d.body)
            && t.roles == s.roles && t.sqlDbs == s.sqlDbs && t.uw.UIdle? && t.dw == s.dw
  {
    var UMade(n, u, d) := s.uw;
    var fs := Appended(u.finalizers, UserFin(n));
    var s1 := Apply(r, s, User(UAddToUser));
    var o := s1.users.live[n];
    assert s1.uw == UNamed(n, o, d) && s1.dbs == s.dbs;
    assert o == u.(version := o.version, finalizers := fs);
    var s2 := Apply(r, s1, User(UAddToDb));
    assert s2.uw == UBoth(n, o) && s2.users == s1.users;
    RunOne(r, s2, User(UStatus(misc)));
    RunCons(r, s1, User(UAddToDb), [User(UStatus(misc))]);
    RunCons(r, s, User(UAddToUser), [User(UAddToDb)] + [User(UStatus(misc))]);
  }

  /** A new DbUser of a ready Database, or one with an existing role: created, and both objects carry its finalizer. */
  lemma {:induction false} UndisturbedCreation(r: Rules, s: Sys, n: string, misc: nat)
    requires Copies(s) && s.uw.UIdle? && n in s.users.live && Session(r, s.userSeen, n, s.users.live[n].uid)
    requires var u := s.users.live[n];
             && !u.marked && u.body.ref in s.dbs.live && s.dbs.live[u.body.ref].body.ready
             && !s.dbs.live[u.body.ref].marked
             && (u.body.existing || (!u.body.created && r.roleName(n) !in s.roles))
    ensures var u := s.users.live[n];
            var d := s.dbs.live[u.body.ref];
            var steps := CreationSteps(n, u, d, misc);
            && Legal(r, s, steps)
            && var t := Run(r, s, steps);
               && Tied(s.users, t.users, n, UserFin(n), u.body.(created := true, misc := misc))
               && Tied(s.dbs, t.dbs, u.body.ref, UserFin(n), d.body)
               && t.roles == (if u.body.existing then s.roles else s.roles + {r.roleName(n)})
               && t.sqlDbs == s.sqlDbs && t.uw.UIdle? && t.dw == s.dw
  {
    var u := s.users.live[n];
    var d := s.dbs.live[u.body.ref];
    assert (n, u) in s.users.past && (u.body.ref, d) in s.dbs.past;
    var s1 := Apply(r, s, User(UGet(n, u)));
    var s2 := Apply(r, s1, User(UGetDb(d)));
    UserSqlIff(r, s2);
    var s3 := Apply(r, s2, User(USql));
    assert s3.uw == UMade(n, u, d) && s3.users == s.users && s3.dbs == s.dbs;
    BothAreTied(r, s3, misc);
    RunCons(r, s2, User(USql), StoreSteps(misc));
    RunCons(r, s1, User(UGetDb(d)), [User(USql)] + StoreSteps(misc));
    RunCons(r, s, User(UGet(n, u)), [User(UGetDb(d))] + ([User(USql)] + StoreSteps(misc)));
  }
}
