/**
 The `dbuser.` finalizers on Databases are nested inside those on DbUsers. Nothing here
 depends on how stale reads are; it does need `databaseRef` to stay put while a DbUser carries
 its finalizer.
 */
module OperatorNesting {
  import opened ObjectStore
  import opened Finalizers
  import opened Operator
  import opened OperatorInvariants

  /** Stored Database `d` carries the finalizer of DbUser `n`. */
  ghost predicate Carries(dbs: Store<DbBody>, d: string, n: string) {
    d in dbs.live && UserFin(n) in dbs.live[d].finalizers
  }

  /** Stored DbUser `n` refers to `d` and carries its own finalizer. */
  ghost predicate Holds(users: Store<UserBody>, n: string, d: string) {
    n in users.live && UserFin(n) in users.live[n].finalizers && users.live[n].body.ref == d
  }

  ghost predicate Nested(users: Store<UserBody>, dbs: Store<DbBody>) {
    forall d, n :: Carries(dbs, d, n) ==> Holds(users, n, d)
  }

  ghost predicate WorkerNested(uw: UserPc, users: Store<UserBody>, dbs: Store<DbBody>) {
    match uw
    case UDb(n, u, d) => !u.marked
    case UMade(n, u, d) => !u.marked
    case UNamed(n, u, d) => Holds(users, n, u.body.ref)
    case UBoth(n, u) => Carries(dbs, u.body.ref, n)
    case UDel(n, u, d) => u.marked && UserFin(n) in u.finalizers
    case UGone(n, u, d) => u.marked && UserFin(n) in u.finalizers
    case UOff(n, u) => u.marked && !Carries(dbs, u.body.ref, n)
    case _ => true
  }

  ghost predicate Nesting(s: Sys) {
    Nested(s.users, s.dbs) && WorkerNested(s.uw, s.users, s.dbs)
  }

  // ---- How the two stores may move -------------------------------------------------------------

  ghost predicate SameCarries(dbs: Store<DbBody>, dbs': Store<DbBody>) {
    forall d, n :: Carries(dbs', d, n) <==> Carries(dbs, d, n)
  }

  ghost predicate KeepsHolds(users: Store<UserBody>, users': Store<UserBody>) {
    forall n, d :: Holds(users, n, d) ==> Holds(users', n, d)
  }

  lemma DbWriteKeepsCarries(dbs: Store<DbBody>, dbs': Store<DbBody>, n: string, o: DbObj)
    requires n in dbs.live && Grows(dbs, dbs', n, o)
    requires forall u :: UserFin(u) in o.finalizers <==> UserFin(u) in dbs.live[n].finalizers
    ensures SameCarries(dbs, dbs')
  {
  }

  lemma OursKept(a: seq<string>, b: seq<string>)
    requires SameOurs(a, b)
    ensures forall u :: UserFin(u) in a <==> UserFin(u) in b
  {
  }

  lemma UserWriteKeepsHolds(users: Store<UserBody>, users': Store<UserBody>, n: string, o: UserObj)
    requires n in users.live && Grows(users, users', n, o)
    requires UserFin(n) in users.live[n].finalizers ==> UserFin(n) in o.finalizers
    requires UserFin(n) in users.live[n].finalizers ==> o.body.ref == users.live[n].body.ref
    ensures KeepsHolds(users, users')
  {
  }

  lemma CarriesKeepNesting(s: Sys, dbs': Store<DbBody>)
    requires Nesting(s) && SameCarries(s.dbs, dbs')
    ensures Nesting(s.(dbs := dbs'))
  {
  }

  lemma HoldsKeepNesting(s: Sys, users': Store<UserBody>)
    requires Nesting(s) && KeepsHolds(s.users, users')
    ensures Nesting(s.(users := users'))
  {
  }

  // ---- Steps -----------------------------------------------------------------------------------

  lemma NewUserKeepsNesting(s: Sys, n: string, fs: seq<string>, b: UserBody)
    requires Copies(s) && Nesting(s) && n !in s.users.live
    ensures Nesting(s.(users := Create(s.users, n, fs, b)))
  {
  }

  lemma NewDbKeepsNesting(s: Sys, n: string, fs: seq<string>, b: DbBody)
    requires Copies(s) && Nesting(s) && n !in s.dbs.live && NoneOurs(fs)
    ensures Nesting(s.(dbs := Create(s.dbs, n, fs, b)))
  {
  }

  lemma WorldKeepsNesting(r: Rules, s: Sys, step: WorldStep)
    requires r.fixedRef && Copies(s) && Nesting(s) && WorldEnabled(r, s, step)
    ensures Nesting(WorldApply(r, s, step))
  {
    var s' := WorldApply(r, s, step);
    match step
    case NewUser(n, fs, b) => NewUserKeepsNesting(s, n, fs, b);
    case NewDb(n, fs, b) => NewDbKeepsNesting(s, n, fs, b);
    case EditUser(n, fs, b) =>
      PutIsValid(s.users, n, fs, b);
      OursKept(fs, s.users.live[n].finalizers);
      UserWriteKeepsHolds(s.users, s'.users, n, Written(s.users, n, fs, b));
      HoldsKeepNesting(s, s'.users);
    case EditDb(n, fs, b) =>
      PutIsValid(s.dbs, n, fs, b);
      OursKept(fs, s.dbs.live[n].finalizers);
      DbWriteKeepsCarries(s.dbs, s'.dbs, n, Written(s.dbs, n, fs, b));
      CarriesKeepNesting(s, s'.dbs);
    case MarkUser(n) =>
      MarkIsValid(s.users, n);
      if !s.users.live[n].marked {
        UserWriteKeepsHolds(s.users, s'.users, n, s.users.live[n].(version := s.users.rev + 1, marked := true));
        HoldsKeepNesting(s, s'.users);
      }
    case MarkDb(n) =>
      MarkIsValid(s.dbs, n);
      if !s.dbs.live[n].marked {
        DbWriteKeepsCarries(s.dbs, s'.dbs, n, s.dbs.live[n].(version := s.dbs.rev + 1, marked := true));
        CarriesKeepNesting(s, s'.dbs);
      }
  }

  /**
   Without that rule, an edit of a DbUser keeps the finalizers nested exactly if the reference
   stays or the Database it pointed to does not carry the DbUser's finalizer.
   */
  lemma EditKeepsNestedIff(r: Rules, s: Sys, n: string, fs: seq<string>, b: UserBody)
    requires Copies(s) && Nested(s.users, s.dbs) && WorldEnabled(r, s, EditUser(n, fs, b))
    ensures Nested(WorldApply(r, s, EditUser(n, fs, b)).users, s.dbs) <==>
              b.ref == s.users.live[n].body.ref || !Carries(s.dbs, s.users.live[n].body.ref, n)
  {
    var users', d := WorldApply(r, s, EditUser(n, fs, b)).users, s.users.live[n].body.ref;
    PutIsValid(s.users, n, fs, b);
    OursKept(fs, s.users.live[n].finalizers);
    forall k, m | Carries(s.dbs, k, m)
      ensures Holds(users', m, k) <==> m != n || b.ref == d
    {
      assert Holds(s.users, m, k);
    }
  }

  lemma InstKeepsNesting(s: Sys, step: InstStep)
    requires Copies(s) && Nesting(s) && InstEnabled(s, step)
    ensures Nesting(InstApply(s, step)) && SameCarries(s.dbs, InstApply(s, step).dbs)
  {
    if step.IItem? {
      var n, c := s.iw.items[s.iw.i].0, s.iw.items[s.iw.i].1;
      assert s.iw.items[s.iw.i] == (n, c);
      if Addressed(s.iw.inst, c) && Accepts(s.dbs, n, c.version, c.finalizers) {
        var b := c.body.(specSum := Blank);
        AcceptedCopyIsCurrent(s.dbs, n, c, c.finalizers);
        PutIsValid(s.dbs, n, c.finalizers, b);
        DbWriteKeepsCarries(s.dbs, Put(s.dbs, n, c.finalizers, b), n, Written(s.dbs, n, c.finalizers, b));
        CarriesKeepNesting(s, Put(s.dbs, n, c.finalizers, b));
      }
    }
  }

  lemma DbWriteKeepsNesting(s: Sys, fs: seq<string>, b: DbBody, next: DbObj -> DbPc)
    requires Copies(s) && Nesting(s) && !s.dw.DIdle?
    requires Accepts(s.dbs, s.dw.n, s.dw.c.version, fs) ==>
      var o, pc := Written(s.dbs, s.dw.n, fs, b), next(Written(s.dbs, s.dw.n, fs, b));
      pc.DIdle? || (pc.n == s.dw.n && pc.c == o)
    requires fs == s.dw.c.finalizers || fs == Appended(s.dw.c.finalizers, DbFin(s.dw.n))
          || fs == Removed(s.dw.c.finalizers, DbFin(s.dw.n))
    ensures Nesting(DbWrite(s, fs, b, next)) && SameCarries(s.dbs, DbWrite(s, fs, b, next).dbs)
  {
    var n := s.dw.n;
    DbWriteKeepsCopies(s, fs, b, next);
    if Accepts(s.dbs, n, s.dw.c.version, fs) {
      forall u ensures UserFin(u) in fs <==> UserFin(u) in s.dw.c.finalizers { UserFinIsNotDbFin(u, n); }
      DbWriteKeepsCarries(s.dbs, Put(s.dbs, n, fs, b), n, Written(s.dbs, n, fs, b));
      CarriesKeepNesting(s, Put(s.dbs, n, fs, b));
    }
  }

  /** No write of the Database controller gains or loses a DbUser's entry: a stale copy conflicts. */
  lemma DbKeepsNesting(r: Rules, s: Sys, step: DbStep)
    requires Copies(s) && Nesting(s) && DbEnabled(r, s, step)
    ensures Nesting(DbApply(r, s, step)) && SameCarries(s.dbs, DbApply(r, s, step).dbs)
  {
    match step
    case DGet(n, c) =>
    case DGuard =>
    case DDropSql(_, _) =>
    case DOffDb =>
      var DDropped(n, c) := s.dw;
      DbWriteKeepsNesting(s, Removed(c.finalizers, DbFin(n)), c.body, o => DTail(n, o));
    case DDecide(healthy, secret) =>
      var DHave(n, c) := s.dw;
      if c.body.force {
        DbWriteKeepsNesting(s, c.finalizers, c.body.(force := false), o => DFull(n, o, c.version));
      }
    case DTouch(healthy, misc) =>
      var DFull(n, c, from) := s.dw;
      DbWriteKeepsNesting(s, c.finalizers, Noted(c.body, healthy, misc), o => DFull(n, o, from));
    case DCreateSql(creds, main) =>
    case DGrants(healthy, misc) =>
      var DSql(n, c, from, creds) := s.dw;
      DbWriteKeepsNesting(s, c.finalizers, Noted(c.body, healthy, misc), o => DGranted(n, o, from, creds));
    case DRecord =>
      var DGranted(n, c, from, creds) := s.dw;
      var b := c.body.(specSum := SumOf(c.body.spec), secretSum := SecretSumOf(creds));
      DbWriteKeepsNesting(s, Appended(c.finalizers, DbFin(n)), b, o => DRecorded(n, o));
    case DRewrite =>
      var DRecorded(n, c) := s.dw;
      DbWriteKeepsNesting(s, c.finalizers, c.body, o => DReady(n, o));
    case DStatus(misc) =>
      var ready := s.dw.DReady? || s.dw.c.body.ready;
      DbWriteKeepsNesting(s, s.dw.c.finalizers, s.dw.c.body.(ready := ready, misc := misc), o => DIdle);
    case DStop(write, misc) =>
      if write {
        DbWriteKeepsNesting(s, s.dw.c.finalizers, s.dw.c.body.(ready := false, misc := misc), o => DIdle);
      }
  }

  /** A status write of the DbUser worker. */
  lemma StatusKeepsNesting(s: Sys, b: UserBody)
    requires Copies(s) && Nesting(s) && !s.uw.UIdle? && b.ref == s.uw.u.body.ref
    ensures Nesting(UserWrite(s, s.uw.u.finalizers, b, o => UIdle))
  {
    var n, u := s.uw.n, s.uw.u;
    UserWriteKeepsCopies(s, u.finalizers, b, o => UIdle);
    if Accepts(s.users, n, u.version, u.finalizers) {
      UserWriteKeepsHolds(s.users, Put(s.users, n, u.finalizers, b), n, Written(s.users, n, u.finalizers, b));
      HoldsKeepNesting(s.(uw := UIdle), Put(s.users, n, u.finalizers, b));
    }
  }

  lemma AddToUserKeepsNesting(r: Rules, s: Sys)
    requires Copies(s) && Nesting(s) && s.uw.UMade?
    ensures Nesting(UserApply(r, s, UAddToUser))
  {
    var UMade(n, u, d) := s.uw;
    var fs := Appended(u.finalizers, UserFin(n));
    UserWriteKeepsCopies(s, fs, u.body, o => UNamed(n, o, d));
    if Accepts(s.users, n, u.version, fs) {
      UserWriteKeepsHolds(s.users, Put(s.users, n, fs, u.body), n, Written(s.users, n, fs, u.body));
      HoldsKeepNesting(s.(uw := UIdle), Put(s.users, n, fs, u.body));
    }
  }

  lemma AddToDbKeepsNesting(r: Rules, s: Sys)
    requires Copies(s) && Nesting(s) && s.uw.UNamed?
    ensures Nesting(UserApply(r, s, UAddToDb))
  {
    var UNamed(n, u, d) := s.uw;
    var fs := Appended(d.finalizers, UserFin(n));
    RefWriteKeepsCopies(s, d, fs, UBoth(n, u));
    if Accepts(s.dbs, u.body.ref, d.version, fs) {
      var dbs' := Put(s.dbs, u.body.ref, fs, d.body);
      forall k, m | Carries(dbs', k, m)
        ensures Holds(s.users, m, k)
      {
        UserFinIsInjective(m, n);
        assert Carries(s.dbs, k, m) || (k == u.body.ref && m == n);
      }
    }
  }

  lemma OffDbKeepsNesting(r: Rules, s: Sys)
    requires Copies(s) && Nesting(s) && s.uw.UGone?
    ensures Nesting(UserApply(r, s, UOffDb))
  {
    var UGone(n, u, d) := s.uw;
    var k, fs := u.body.ref, Removed(d.finalizers, UserFin(n));
    if Accepts(s.dbs, k, d.version, fs) {
      var dbs', o := Put(s.dbs, k, fs, d.body), Written(s.dbs, k, fs, d.body);
      assert s.dbs.live[k] == d && Grows(s.dbs, dbs', k, o) by {
        RefWriteKeepsCopies(s, d, fs, UOff(n, u));
      }
      assert forall j, m :: Carries(dbs', j, m) ==> Carries(s.dbs, j, m);
      assert !Carries(dbs', k, n);
      assert UserApply(r, s, UOffDb) == s.(dbs := dbs', uw := UOff(n, u));
    }
  }

  /** The DbUser lets go of its finalizer only once no Database carries it. */
  lemma OffUserKeepsNesting(r: Rules, s: Sys)
    requires Copies(s) && Nesting(s) && s.uw.UOff?
    ensures Nesting(UserApply(r, s, UOffUser))
  {
    var UOff(n, u) := s.uw;
    var fs := Removed(u.finalizers, UserFin(n));
    if Accepts(s.users, n, u.version, fs) {
      var users', o := Put(s.users, n, fs, u.body), Written(s.users, n, fs, u.body);
      assert s.users.live[n] == u && Grows(s.users, users', n, o) by {
        UserWriteKeepsCopies(s, fs, u.body, o => UIdle);
      }
      forall k, m | Carries(s.dbs, k, m)
        ensures Holds(users', m, k)
      {
        assert Holds(s.users, m, k) && m != n;
      }
      assert UserApply(r, s, UOffUser) == s.(users := users', uw := UIdle);
    }
  }

  lemma UserKeepsNesting(r: Rules, s: Sys, step: UserStep)
    requires Copies(s) && Nesting(s) && UserEnabled(r, s, step)
    ensures Nesting(UserApply(r, s, step))
  {
    match step
    case UGet(n, u) =>
    case UGetDb(d) =>
    case USql =>
    case UAddToUser => AddToUserKeepsNesting(r, s);
    case UAddToDb => AddToDbKeepsNesting(r, s);
    case UStatus(misc) =>
      StatusKeepsNesting(s, s.uw.u.body.(created := s.uw.UBoth? || s.uw.u.body.created, misc := misc));
    case UDropRole(refused) =>
    case UOffDb => OffDbKeepsNesting(r, s);
    case UOffUser => OffUserKeepsNesting(r, s);
    case UStop(write, misc) =>
      if write {
        StatusKeepsNesting(s, s.uw.u.body.(misc := misc));
      }
  }
}
