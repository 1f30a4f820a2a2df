/**
 A DbUser that was created and is not being deleted keeps its Database, and the Database
 keeps its SQL database. This layer relies on session reads: without them a worker may act
 on a copy of an object that was deleted and created anew since. It relies on names, too: what
 is dropped for one Database must not be the SQL database of another.
 */
module OperatorSafety {
  import opened ObjectStore
  import opened Finalizers
  import opened Operator
  import opened OperatorInvariants
  import opened OperatorGuards
  import opened OperatorNesting

  /** Only the DbUser worker marks a DbUser created, and only after reading it. */
  ghost predicate UsersSeen(users: Store<UserBody>, seen: map<string, nat>) {
    forall n :: n in users.live && users.live[n].body.created ==> n in seen && seen[n] >= users.live[n].uid
  }

  /** The same of Databases that are ready or carry a DbUser's finalizer. */
  ghost predicate DbsSeen(dbs: Store<DbBody>, seen: map<string, nat>) {
    && (forall d :: d in dbs.live && dbs.live[d].body.ready ==> d in seen && seen[d] >= dbs.live[d].uid)
    && (forall d, n :: Carries(dbs, d, n) ==> d in seen && seen[d] >= dbs.live[d].uid)
  }

  /** Created and not marked: the Database it refers to is there and carries the finalizer. */
  ghost predicate Linked(users: Store<UserBody>, dbs: Store<DbBody>) {
    forall n :: n in users.live && users.live[n].body.created && !users.live[n].marked ==>
      Carries(dbs, users.live[n].body.ref, n)
  }

  /** The SQL database is there while somebody counts on it. */
  ghost predicate HasSql(dbName: string -> string, dbs: Store<DbBody>, sqlDbs: set<string>) {
    && (forall d, n :: Carries(dbs, d, n) ==> dbName(d) in sqlDbs)
    && (forall d :: d in dbs.live && dbs.live[d].body.ready && !dbs.live[d].marked ==> dbName(d) in sqlDbs)
  }

  ghost predicate UserWorkerSafe(uw: UserPc, seen: map<string, nat>) {
    && (!uw.UIdle? ==> uw.n in seen && seen[uw.n] == uw.u.uid)
    && (uw.UMade? || uw.UNamed? ==> uw.d.body.ready)
  }

  ghost predicate DbWorkerSafe(dw: DbPc, seen: map<string, nat>) {
    && (!dw.DIdle? ==> dw.n in seen && seen[dw.n] == dw.c.uid)
    && (dw.DFull? || dw.DSql? || dw.DGranted? || dw.DRecorded? || dw.DReady? ==> !dw.c.marked)
  }

  ghost predicate DbWorkerSql(dbName: string -> string, dw: DbPc, sqlDbs: set<string>) {
    && (dw.DSql? || dw.DGranted? || dw.DRecorded? ==> dbName(dw.n) in sqlDbs)
    && (dw.DReady? ==> dw.c.body.ready || dbName(dw.n) in sqlDbs)
  }

  /** The names of all objects that were ever stored. */
  ghost function Names<B(!new)>(past: set<(string, Obj<B>)>): set<string> {
    set p | p in past :: p.0
  }

  /** Of different Databases, one that can be dropped shares its name on the server with no other. */
  ghost predicate Apart(dbName: string -> string, names: set<string>) {
    forall a, b :: a in names && b in names && a != b && !Contains(a, USER_PREFIX) ==> dbName(a) != dbName(b)
  }

  /** Links hold only while references are fixed, and SQL databases only while names are apart. */
  ghost predicate Safety(r: Rules, apart: bool, s: Sys) {
    && UsersSeen(s.users, s.userSeen) && DbsSeen(s.dbs, s.dbSeen)
    && (r.fixedRef ==> Linked(s.users, s.dbs)) && (apart ==> HasSql(r.dbName, s.dbs, s.sqlDbs))
    && UserWorkerSafe(s.uw, s.userSeen) && DbWorkerSafe(s.dw, s.dbSeen)
    && (apart ==> DbWorkerSql(r.dbName, s.dw, s.sqlDbs))
  }

  // ---- Session reads ----------------------------------------------------------------------------

  /** A created DbUser is the very incarnation the worker is working on. */
  lemma CreatedIsCurrent(r: Rules, q: bool, s: Sys)
    requires Copies(s) && Safety(r, q, s) && !s.uw.UIdle?
    requires s.uw.n in s.users.live && s.users.live[s.uw.n].body.created
    ensures s.users.live[s.uw.n].uid == s.uw.u.uid
    ensures s.uw.u.marked ==> s.users.live[s.uw.n].marked
  {
  }

  /** A Database that is ready or carried is the very incarnation the worker is working on. */
  lemma SeenIsCurrent(s: Sys)
    requires Copies(s) && DbWorkerSafe(s.dw, s.dbSeen) && !s.dw.DIdle? && s.dw.n in s.dbs.live
    requires s.dw.n in s.dbSeen && s.dbSeen[s.dw.n] >= s.dbs.live[s.dw.n].uid
    ensures s.dbs.live[s.dw.n].uid == s.dw.c.uid
    ensures s.dw.c.marked ==> s.dbs.live[s.dw.n].marked && Sub(s.dbs.live[s.dw.n].finalizers, s.dw.c.finalizers)
  {
  }

  /** With session reads a drop concerns no Database that anybody counts on, of whatever incarnation. */
  lemma DropIsHarmless(r: Rules, q: bool, s: Sys)
    requires Copies(s) && Guards(s) && Safety(r, q, s) && s.dw.DDrop?
    ensures forall n :: !Carries(s.dbs, s.dw.n, n)
    ensures s.dw.n in s.dbs.live && s.dbs.live[s.dw.n].body.ready ==> s.dbs.live[s.dw.n].marked
  {
    forall n
      ensures !Carries(s.dbs, s.dw.n, n)
    {
      if Carries(s.dbs, s.dw.n, n) {
        SeenIsCurrent(s);
        DropIsSafe(s, n);
      }
    }
    if s.dw.n in s.dbs.live && s.dbs.live[s.dw.n].body.ready {
      SeenIsCurrent(s);
      DropIsSafe(s, "");
    }
  }

  // ---- How the stores may move --------------------------------------------------------------------

  /** A write to a Database that reports nothing new. */
  ghost predicate Tame(dbs: Store<DbBody>, n: string, o: DbObj) {
    && n in dbs.live && o.uid == dbs.live[n].uid && (dbs.live[n].marked ==> o.marked)
    && (o.body.ready ==> dbs.live[n].body.ready)
  }

  lemma TameWriteKeepsDbs(r: Rules, dbs: Store<DbBody>, dbs': Store<DbBody>, seen: map<string, nat>,
                          sqlDbs: set<string>, n: string, o: DbObj)
    requires DbsSeen(dbs, seen) && Grows(dbs, dbs', n, o) && Tame(dbs, n, o)
    requires forall d, u :: Carries(dbs', d, u) ==> Carries(dbs, d, u)
    ensures DbsSeen(dbs', seen) && (HasSql(r.dbName, dbs, sqlDbs) ==> HasSql(r.dbName, dbs', sqlDbs))
  {
  }

  lemma SameCarriesKeepLinked(users: Store<UserBody>, dbs: Store<DbBody>, dbs': Store<DbBody>)
    requires SameCarries(dbs, dbs')
    ensures Linked(users, dbs) ==> Linked(users, dbs')
  {
  }

  lemma TameWriteKeepsSafety(r: Rules, q: bool, s: Sys, dbs': Store<DbBody>, n: string, o: DbObj)
    requires Safety(r, q, s) && Grows(s.dbs, dbs', n, o) && Tame(s.dbs, n, o)
    requires forall u :: UserFin(u) in o.finalizers <==> UserFin(u) in s.dbs.live[n].finalizers
    ensures Safety(r, q, s.(dbs := dbs'))
  {
    DbWriteKeepsCarries(s.dbs, dbs', n, o);
    TameWriteKeepsDbs(r, s.dbs, dbs', s.dbSeen, s.sqlDbs, n, o);
    SameCarriesKeepLinked(s.users, s.dbs, dbs');
  }

  /** A write to a DbUser that leaves status and reference alone. */
  lemma UserWriteKeepsSafety(r: Rules, q: bool, s: Sys, users': Store<UserBody>, n: string, o: UserObj)
    requires Safety(r, q, s) && Grows(s.users, users', n, o)
    requires n in s.users.live && o.uid == s.users.live[n].uid && (s.users.live[n].marked ==> o.marked)
    requires o.body.created == s.users.live[n].body.created
    requires r.fixedRef && o.body.created && !o.marked ==> o.body.ref == s.users.live[n].body.ref
    ensures Safety(r, q, s.(users := users'))
  {
  }

  // ---- Steps -------------------------------------------------------------------------------------

  lemma NewKeepsSafety(r: Rules, q: bool, s: Sys, step: WorldStep)
    requires Copies(s) && Safety(r, q, s) && WorldEnabled(r, s, step) && (step.NewUser? || step.NewDb?)
    ensures Safety(r, q, WorldApply(r, s, step))
  {
    match step
    case NewUser(n, fs, b) =>
      CreateIsValid(s.users, n, fs, b);
    case NewDb(n, fs, b) =>
      CreateIsValid(s.dbs, n, fs, b);
      forall u ensures UserFin(u) !in fs { UserFinIsOurs(u); }
      SameCarriesKeepLinked(s.users, s.dbs, Create(s.dbs, n, fs, b));
  }

  lemma WorldKeepsSafety(r: Rules, q: bool, s: Sys, step: WorldStep)
    requires Copies(s) && Guards(s) && Safety(r, q, s) && WorldEnabled(r, s, step)
    ensures Safety(r, q, WorldApply(r, s, step))
  {
    var s' := WorldApply(r, s, step);
    match step
    case NewUser(n, fs, b) => NewKeepsSafety(r, q, s, step);
    case NewDb(n, fs, b) => NewKeepsSafety(r, q, s, step);
    case EditUser(n, fs, b) =>
      assert (n, s.users.live[n]) in s.users.past;
      PutIsValid(s.users, n, fs, b);
      UserWriteKeepsSafety(r, q, s, s'.users, n, Written(s.users, n, fs, b));
    case EditDb(n, fs, b) =>
      PutIsValid(s.dbs, n, fs, b);
      OursKept(fs, s.dbs.live[n].finalizers);
      TameWriteKeepsSafety(r, q, s, s'.dbs, n, Written(s.dbs, n, fs, b));
    case MarkUser(n) => MarkKeepsSafety(r, q, s, step);
    case MarkDb(n) => MarkKeepsSafety(r, q, s, step);
  }

  lemma MarkKeepsSafety(r: Rules, q: bool, s: Sys, step: WorldStep)
    requires Copies(s) && Safety(r, q, s)
    requires WorldEnabled(r, s, step) && (step.MarkUser? || step.MarkDb?)
    ensures Safety(r, q, WorldApply(r, s, step))
  {
    var s', n := WorldApply(r, s, step), step.n;
    if step.MarkUser? && !s.users.live[n].marked {
      MarkIsValid(s.users, n);
      UserWriteKeepsSafety(r, q, s, s'.users, n, s.users.live[n].(version := s.users.rev + 1, marked := true));
    }
    if step.MarkDb? && !s.dbs.live[n].marked {
      MarkIsValid(s.dbs, n);
      TameWriteKeepsSafety(r, q, s, s'.dbs, n, s.dbs.live[n].(version := s.dbs.rev + 1, marked := true));
    }
  }

  lemma InstKeepsSafety(r: Rules, q: bool, s: Sys, step: InstStep)
    requires Copies(s) && Safety(r, q, s) && InstEnabled(s, step)
    ensures Safety(r, q, InstApply(s, step))
  {
    if step.IItem? {
      var n, c := s.iw.items[s.iw.i].0, s.iw.items[s.iw.i].1;
      assert s.iw.items[s.iw.i] == (n, c);
      if Addressed(s.iw.inst, c) && Accepts(s.dbs, n, c.version, c.finalizers) {
        var b := c.body.(specSum := Blank);
        AcceptedCopyIsCurrent(s.dbs, n, c, c.finalizers);
        PutIsValid(s.dbs, n, c.finalizers, b);
        TameWriteKeepsSafety(r, q, s, Put(s.dbs, n, c.finalizers, b), n, Written(s.dbs, n, c.finalizers, b));
      }
    }
  }

  // The DbUser worker

  /** Reporting a DbUser created: the Database carries its finalizer by then. */
  lemma CreatedKeepsSafety(r: Rules, q: bool, s: Sys, users': Store<UserBody>, n: string, o: UserObj)
    requires Safety(r, q, s) && Grows(s.users, users', n, o) && n in s.users.live
    requires o.uid == s.users.live[n].uid && (r.fixedRef ==> Carries(s.dbs, o.body.ref, n))
    requires n in s.userSeen && s.userSeen[n] >= o.uid
    ensures Safety(r, q, s.(users := users'))
  {
  }

  lemma StatusKeepsSafety(r: Rules, q: bool, s: Sys, b: UserBody)
    requires Copies(s) && (r.fixedRef ==> Nesting(s)) && Safety(r, q, s) && !s.uw.UIdle? && b.ref == s.uw.u.body.ref
    requires b.created == s.uw.u.body.created || (b.created && s.uw.UBoth?)
    ensures Safety(r, q, UserWrite(s, s.uw.u.finalizers, b, o => UIdle))
  {
    var n, u := s.uw.n, s.uw.u;
    UserWriteKeepsCopies(s, u.finalizers, b, o => UIdle);
    if Accepts(s.users, n, u.version, u.finalizers) {
      var users', o := Put(s.users, n, u.finalizers, b), Written(s.users, n, u.finalizers, b);
      if s.uw.UBoth? {
        CreatedKeepsSafety(r, q, s, users', n, o);
      } else {
        UserWriteKeepsSafety(r, q, s, users', n, o);
      }
    }
  }

  lemma AddToUserKeepsSafety(r: Rules, q: bool, s: Sys)
    requires Copies(s) && Safety(r, q, s) && s.uw.UMade?
    ensures Safety(r, q, UserApply(r, s, UAddToUser))
  {
    var UMade(n, u, d) := s.uw;
    var fs := Appended(u.finalizers, UserFin(n));
    UserWriteKeepsCopies(s, fs, u.body, o => UNamed(n, o, d));
    if Accepts(s.users, n, u.version, fs) {
      UserWriteKeepsSafety(r, q, s, Put(s.users, n, fs, u.body), n, Written(s.users, n, fs, u.body));
    }
  }

  lemma OffUserKeepsSafety(r: Rules, q: bool, s: Sys)
    requires Copies(s) && Safety(r, q, s) && s.uw.UOff?
    ensures Safety(r, q, UserApply(r, s, UOffUser))
  {
    var UOff(n, u) := s.uw;
    var fs := Removed(u.finalizers, UserFin(n));
    UserWriteKeepsCopies(s, fs, u.body, o => UIdle);
    if Accepts(s.users, n, u.version, fs) {
      UserWriteKeepsSafety(r, q, s, Put(s.users, n, fs, u.body), n, Written(s.users, n, fs, u.body));
    }
  }

  lemma CarriedMoreKeepsSafety(r: Rules, q: bool, s: Sys, dbs': Store<DbBody>, k: string, o: DbObj)
    requires Safety(r, q, s) && Grows(s.dbs, dbs', k, o) && Tame(s.dbs, k, o) && o.finalizers != []
    requires forall f :: f in s.dbs.live[k].finalizers ==> f in o.finalizers
    requires (q ==> r.dbName(k) in s.sqlDbs) && k in s.dbSeen && s.dbSeen[k] >= o.uid
    ensures Safety(r, q, s.(dbs := dbs'))
  {
    assert forall j, m :: Carries(s.dbs, j, m) ==> Carries(dbs', j, m);
    assert forall j, m :: Carries(dbs', j, m) ==> j == k || Carries(s.dbs, j, m);
  }

  /** The Database accepts a DbUser's finalizer only while it is ready and not marked. */
  lemma AddToDbKeepsSafety(r: Rules, q: bool, s: Sys)
    requires Copies(s) && Safety(r, q, s) && s.uw.UNamed?
    ensures Safety(r, q, UserApply(r, s, UAddToDb))
  {
    var UNamed(n, u, d) := s.uw;
    var k, fs := u.body.ref, Appended(d.finalizers, UserFin(n));
    RefWriteKeepsCopies(s, d, fs, UBoth(n, u));
    if Accepts(s.dbs, k, d.version, fs) {
      assert (q ==> r.dbName(k) in s.sqlDbs) && s.dbSeen[k] >= d.uid by {
        if d.marked {
          assert Carries(s.dbs, k, n);
        }
      }
      CarriedMoreKeepsSafety(r, q, s, Put(s.dbs, k, fs, d.body), k, Written(s.dbs, k, fs, d.body));
    }
  }

  /** Teardown takes the finalizer off the Database of a DbUser that is on its way out. */
  lemma OffDbKeepsSafety(r: Rules, q: bool, s: Sys)
    requires Copies(s) && Guards(s) && Safety(r, q, s) && s.uw.UGone?
    ensures Safety(r, q, UserApply(r, s, UOffDb))
  {
    var UGone(n, u, d) := s.uw;
    var k, fs := u.body.ref, Removed(d.finalizers, UserFin(n));
    if Accepts(s.dbs, k, d.version, fs) {
      var dbs', o := Put(s.dbs, k, fs, d.body), Written(s.dbs, k, fs, d.body);
      assert s.dbs.live[k] == d && Grows(s.dbs, dbs', k, o) by {
        RefWriteKeepsCopies(s, d, fs, UOff(n, u));
      }
      assert n in s.users.live && s.users.live[n].body.created ==> s.users.live[n].marked by {
        if n in s.users.live && s.users.live[n].body.created {
          CreatedIsCurrent(r, q, s);
        }
      }
      assert o.finalizers == fs && o == d.(version := o.version, finalizers := fs);
      FewerNamesKeepSafety(r, q, s, dbs', n, k, o);
      assert UserApply(r, s, UOffDb) == s.(dbs := dbs', uw := UOff(n, u));
    }
  }

  /** Taking the finalizer of a DbUser that is on its way out off a Database unlinks nobody. */
  lemma FewerNamesKeepSafety(r: Rules, q: bool, s: Sys, dbs': Store<DbBody>, n: string, k: string, o: DbObj)
    requires Safety(r, q, s) && Grows(s.dbs, dbs', k, o) && Tame(s.dbs, k, o)
    requires forall x :: x in o.finalizers <==> x in s.dbs.live[k].finalizers && x != UserFin(n)
    requires n in s.users.live && s.users.live[n].body.created ==> s.users.live[n].marked
    ensures Safety(r, q, s.(dbs := dbs'))
  {
    assert forall j, m :: Carries(dbs', j, m) ==> Carries(s.dbs, j, m);
    TameWriteKeepsDbs(r, s.dbs, dbs', s.dbSeen, s.sqlDbs, k, o);
    forall m | r.fixedRef && m in s.users.live && s.users.live[m].body.created && !s.users.live[m].marked
      ensures Carries(dbs', s.users.live[m].body.ref, m)
    {
      assert Carries(s.dbs, s.users.live[m].body.ref, m);
      UserFinIsInjective(m, n);
    }
  }

  /**
   What a teardown's write to the Database does when reads are not session reads: it keeps
   every created DbUser linked unless the copy being torn down is from a former life of a
   DbUser that has since been created anew on the same Database.
   */
  lemma TeardownKeepsLinksIff(r: Rules, s: Sys)
    requires Copies(s) && Nesting(s) && Linked(s.users, s.dbs) && s.uw.UGone?
    requires UserApply(r, s, UOffDb).uw.UOff?
    ensures Linked(s.users, UserApply(r, s, UOffDb).dbs) <==>
            !(&& s.uw.n in s.users.live && s.users.live[s.uw.n].uid != s.uw.u.uid
              && s.users.live[s.uw.n].body.created && !s.users.live[s.uw.n].marked
              && s.users.live[s.uw.n].body.ref == s.uw.u.body.ref)
  {
    var UGone(n, u, d) := s.uw;
    var k, fs := u.body.ref, Removed(d.finalizers, UserFin(n));
    RefWriteKeepsCopies(s, d, fs, UOff(n, u));
    var dbs' := Put(s.dbs, k, fs, d.body);
    assert !Carries(dbs', k, n);
    forall j, m | Carries(s.dbs, j, m) && !(j == k && m == n)
      ensures Carries(dbs', j, m)
    {
      UserFinIsInjective(m, n);
    }
  }

  lemma UserKeepsSafety(r: Rules, q: bool, s: Sys, step: UserStep)
    requires r.sessionReads && Copies(s) && Guards(s) && (r.fixedRef ==> Nesting(s)) && Safety(r, q, s)
    requires UserEnabled(r, s, step)
    ensures Safety(r, q, UserApply(r, s, step))
  {
    match step
    case UGet(n, u) =>
    case UGetDb(d) =>
    case USql =>
    case UAddToUser => AddToUserKeepsSafety(r, q, s);
    case UAddToDb => AddToDbKeepsSafety(r, q, s);
    case UStatus(misc) =>
      StatusKeepsSafety(r, q, s, s.uw.u.body.(created := s.uw.UBoth? || s.uw.u.body.created, misc := misc));
    case UDropRole(refused) =>
    case UOffDb => OffDbKeepsSafety(r, q, s);
    case UOffUser => OffUserKeepsSafety(r, q, s);
    case UStop(write, misc) =>
      if write {
        StatusKeepsSafety(r, q, s, s.uw.u.body.(misc := misc));
      }
  }

  // The Database worker

  lemma DbWriteKeepsSafety(r: Rules, q: bool, s: Sys, fs: seq<string>, b: DbBody, next: DbObj -> DbPc)
    requires Copies(s) && Safety(r, q, s) && !s.dw.DIdle?
    requires Accepts(s.dbs, s.dw.n, s.dw.c.version, fs) ==>
      var o, pc := Written(s.dbs, s.dw.n, fs, b), next(Written(s.dbs, s.dw.n, fs, b));
      && (pc.DIdle? || (pc.n == s.dw.n && pc.c == o)) && DbWorkerSafe(pc, s.dbSeen)
      && (q ==> DbWorkerSql(r.dbName, pc, s.sqlDbs))
    requires fs == s.dw.c.finalizers || fs == Appended(s.dw.c.finalizers, DbFin(s.dw.n))
          || fs == Removed(s.dw.c.finalizers, DbFin(s.dw.n))
    requires b.ready ==> s.dw.c.body.ready
    ensures Safety(r, q, DbWrite(s, fs, b, next))
  {
    var n := s.dw.n;
    DbWriteKeepsCopies(s, fs, b, next);
    if Accepts(s.dbs, n, s.dw.c.version, fs) {
      forall u ensures UserFin(u) in fs <==> UserFin(u) in s.dw.c.finalizers { UserFinIsNotDbFin(u, n); }
      TameWriteKeepsSafety(r, q, s, Put(s.dbs, n, fs, b), n, Written(s.dbs, n, fs, b));
    }
  }

  /** A drop takes away nobody else's SQL database either, as long as names on the server are apart. */
  lemma DropKeepsSafety(r: Rules, q: bool, s: Sys, main: bool, refused: bool)
    requires Copies(s) && Guards(s) && Safety(r, q, s) && s.dw.DDrop?
    requires q ==> Apart(r.dbName, Names(s.dbs.past))
    ensures Safety(r, q, DbApply(r, s, DDropSql(main, refused)))
  {
    var n, s' := s.dw.n, DbApply(r, s, DDropSql(main, refused));
    if q {
      assert HasSql(r.dbName, s.dbs, s.sqlDbs - {r.dbName(n)}) by {
        StoredNamesDiffer(r, s);
        DropIsHarmless(r, q, s);
        OneLessKeepsSql(r.dbName, s.dbs, s.sqlDbs, n);
      }
    }
    assert s' == s.(sqlDbs := s'.sqlDbs, roles := s'.roles, dw := DDropped(n, s.dw.c));
  }

  lemma StoredNamesDiffer(r: Rules, s: Sys)
    requires Copies(s) && Guards(s) && s.dw.DDrop? && Apart(r.dbName, Names(s.dbs.past))
    ensures forall d :: d in s.dbs.live && d != s.dw.n ==> r.dbName(d) != r.dbName(s.dw.n)
  {
    DropIsPlain(s);
    assert (s.dw.n, s.dw.c) in s.dbs.past && s.dw.n in Names(s.dbs.past);
    forall d | d in s.dbs.live && d != s.dw.n
      ensures r.dbName(d) != r.dbName(s.dw.n)
    {
      assert (d, s.dbs.live[d]) in s.dbs.past && d in Names(s.dbs.past);
    }
  }

  /** Taking away the SQL database of a Database that nobody counts on. */
  lemma OneLessKeepsSql(dbName: string -> string, dbs: Store<DbBody>, sqlDbs: set<string>, n: string)
    requires HasSql(dbName, dbs, sqlDbs) && forall u :: !Carries(dbs, n, u)
    requires n in dbs.live && dbs.live[n].body.ready ==> dbs.live[n].marked
    requires forall d :: d in dbs.live && d != n ==> dbName(d) != dbName(n)
    ensures HasSql(dbName, dbs, sqlDbs - {dbName(n)})
  {
  }

  /** Reporting ready. */
  lemma ReadyKeepsSafety(r: Rules, q: bool, s: Sys, misc: nat)
    requires Copies(s) && Safety(r, q, s) && s.dw.DReady?
    ensures Safety(r, q, DbWrite(s, s.dw.c.finalizers, s.dw.c.body.(ready := true, misc := misc), o => DIdle))
  {
    var DReady(n, c) := s.dw;
    var b := c.body.(ready := true, misc := misc);
    DbWriteKeepsCopies(s, c.finalizers, b, o => DIdle);
    if Accepts(s.dbs, n, c.version, c.finalizers) {
      var dbs' := Put(s.dbs, n, c.finalizers, b);
      DbWriteKeepsCarries(s.dbs, dbs', n, Written(s.dbs, n, c.finalizers, b));
      SameCarriesKeepLinked(s.users, s.dbs, dbs');
    }
  }

  lemma ReadKeepsSafety(r: Rules, q: bool, s: Sys, n: string, c: DbObj)
    requires r.sessionReads && Safety(r, q, s) && DbEnabled(r, s, DGet(n, c))
    ensures Safety(r, q, DbApply(r, s, DGet(n, c)))
  {
  }

  lemma CreateSqlKeepsSafety(r: Rules, q: bool, s: Sys, creds: Creds, main: bool)
    requires Safety(r, q, s) && s.dw.DFull?
    ensures Safety(r, q, DbApply(r, s, DCreateSql(creds, main)))
  {
  }

  lemma DbDeleteKeepsSafety(r: Rules, q: bool, s: Sys, step: DbStep)
    requires r.sessionReads && Copies(s) && Guards(s) && Safety(r, q, s) && DbEnabled(r, s, step)
    requires q ==> Apart(r.dbName, Names(s.dbs.past))
    requires step.DGet? || step.DGuard? || step.DDropSql? || step.DOffDb? || step.DStop?
    ensures Safety(r, q, DbApply(r, s, step))
  {
    match step
    case DGet(n, c) => ReadKeepsSafety(r, q, s, n, c);
    case DGuard =>
    case DDropSql(main, refused) => DropKeepsSafety(r, q, s, main, refused);
    case DOffDb =>
      var DDropped(n, c) := s.dw;
      DbWriteKeepsSafety(r, q, s, Removed(c.finalizers, DbFin(n)), c.body, o => DTail(n, o));
    case DStop(write, misc) =>
      if write {
        DbWriteKeepsSafety(r, q, s, s.dw.c.finalizers, s.dw.c.body.(ready := false, misc := misc), o => DIdle);
      }
  }

  lemma DbCreateKeepsSafety(r: Rules, q: bool, s: Sys, step: DbStep)
    requires Copies(s) && Safety(r, q, s) && DbEnabled(r, s, step)
    requires step.DDecide? || step.DTouch? || step.DCreateSql? || step.DGrants? || step.DRecord? || step.DRewrite?
    ensures Safety(r, q, DbApply(r, s, step))
  {
    match step
    case DDecide(healthy, secret) => DecideKeepsSafety(r, q, s, step);
    case DTouch(healthy, misc) =>
      var DFull(n, c, from) := s.dw;
      DbWriteKeepsSafety(r, q, s, c.finalizers, Noted(c.body, healthy, misc), o => DFull(n, o, from));
    case DCreateSql(creds, main) => CreateSqlKeepsSafety(r, q, s, creds, main);
    case DGrants(healthy, misc) =>
      var DSql(n, c, from, creds) := s.dw;
      DbWriteKeepsSafety(r, q, s, c.finalizers, Noted(c.body, healthy, misc), o => DGranted(n, o, from, creds));
    case DRecord =>
      var DGranted(n, c, from, creds) := s.dw;
      var b := c.body.(specSum := SumOf(c.body.spec), secretSum := SecretSumOf(creds));
      DbWriteKeepsSafety(r, q, s, Appended(c.finalizers, DbFin(n)), b, o => DRecorded(n, o));
    case DRewrite =>
      var DRecorded(n, c) := s.dw;
      DbWriteKeepsSafety(r, q, s, c.finalizers, c.body, o => DReady(n, o));
  }

  lemma DecideKeepsSafety(r: Rules, q: bool, s: Sys, step: DbStep)
    requires Copies(s) && Safety(r, q, s) && DbEnabled(r, s, step) && step.DDecide?
    ensures Safety(r, q, DbApply(r, s, step))
  {
    var DHave(n, c) := s.dw;
    if c.body.force {
      DbWriteKeepsSafety(r, q, s, c.finalizers, c.body.(force := false), o => DFull(n, o, c.version));
    }
  }

  lemma DbStatusKeepsSafety(r: Rules, q: bool, s: Sys, misc: nat)
    requires Copies(s) && Safety(r, q, s) && DbEnabled(r, s, DStatus(misc))
    ensures Safety(r, q, DbApply(r, s, DStatus(misc)))
  {
    if s.dw.DReady? {
      ReadyKeepsSafety(r, q, s, misc);
    } else {
      DbWriteKeepsSafety(r, q, s, s.dw.c.finalizers, s.dw.c.body.(misc := misc), o => DIdle);
    }
  }

  lemma DbKeepsSafety(r: Rules, q: bool, s: Sys, step: DbStep)
    requires r.sessionReads && Copies(s) && Guards(s) && Safety(r, q, s) && DbEnabled(r, s, step)
    requires q ==> Apart(r.dbName, Names(s.dbs.past))
    ensures Safety(r, q, DbApply(r, s, step))
  {
    if step.DStatus? {
      DbStatusKeepsSafety(r, q, s, step.misc);
    } else if step.DGet? || step.DGuard? || step.DDropSql? || step.DOffDb? || step.DStop? {
      DbDeleteKeepsSafety(r, q, s, step);
    } else {
      DbCreateKeepsSafety(r, q, s, step);
    }
  }
}
