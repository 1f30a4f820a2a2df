/**
 The three controllers as one step system.

 The state holds the stored DbUsers and Databases, what exists on the SQL server, and for
 each controller (one worker each) the local copies and the program counter of the
 reconcile in flight. A step is one call to the API server or to the SQL server, or
 something the outside world does in between. Any call can fail and any worker can stop
 after any call; reads may be stale.
 */
module Operator {
  import opened ObjectStore
  import opened Finalizers

  // ---- Stored objects ------------------------------------------------------------------

  /** What matters of a DbUser; `misc` stands for every other field of spec and status. */
  datatype UserBody = UserBody(ref: string, existing: bool, created: bool, misc: nat)

  datatype DbSpec = DbSpec(instance: string, protected: bool, misc: nat)

  type Creds = map<string, string>

  /**
   The annotation `checksum/spec`: missing, emptied by a broadcast, or the checksum of a
   spec. Checksums are collision free, so the checksum of a spec is the spec.
   */
  datatype SpecSum = Missing | Blank | SumOf(spec: DbSpec)
  datatype SecretSum = NoSum | SecretSumOf(creds: Creds)

  datatype DbBody = DbBody(spec: DbSpec, force: bool, specSum: SpecSum, secretSum: SecretSum,
                           ready: bool, misc: nat)

  type UserObj = Obj<UserBody>
  type DbObj = Obj<DbBody>

  // ---- Workers ---------------------------------------------------------------------------

  datatype UserPc =
    | UIdle
    | UHave(n: string, u: UserObj)            // read the DbUser
    | UDb(n: string, u: UserObj, d: DbObj)    // not marked; read its Database too
    | UMade(n: string, u: UserObj, d: DbObj)  // user created, or permissions set, on the server
    | UNamed(n: string, u: UserObj, d: DbObj) // finalizer stored on the DbUser
    | UBoth(n: string, u: UserObj)            // finalizer stored on the Database as well
    | UKept(n: string, u: UserObj)            // already created before; updated on the server
    | UDel(n: string, u: UserObj, d: DbObj)   // marked and carrying the finalizer: tear down
    | UGone(n: string, u: UserObj, d: DbObj)  // server side done, Secret released
    | UOff(n: string, u: UserObj)             // finalizer removed from the Database

  datatype DbPc =
    | DIdle
    | DHave(n: string, c: DbObj)                               // read the Database
    | DDrop(n: string, c: DbObj)                               // marked, guard passed
    | DDropped(n: string, c: DbObj)                            // database dropped on the server
    | DTail(n: string, c: DbObj)                               // own finalizer gone
    | DFull(n: string, c: DbObj, from: nat)                    // SQL work is due
    | DSql(n: string, c: DbObj, from: nat, creds: Creds)       // SQL work done
    | DGranted(n: string, c: DbObj, from: nat, creds: Creds)   // grants recorded in status
    | DRecorded(n: string, c: DbObj)                           // finalizer and checksums stored
    | DReady(n: string, c: DbObj)                              // about to report ready

  datatype InstPc =
    | IIdle
    // broadcasting, i items done; `base` remembers what was stored when the list was taken
    | IList(inst: string, items: seq<(string, DbObj)>, i: nat, base: map<string, DbObj>)

  /**
   A checksum write: the Database, the version it produced, the version of the copy the
   recording reconcile had read to begin with, and what the SQL work had used.
   */
  datatype Rec = Rec(db: string, version: nat, from: nat, spec: DbSpec, creds: Creds)

  datatype Sys = Sys(
    users: Store<UserBody>, dbs: Store<DbBody>,
    // on the server, by the names they have there
    sqlDbs: set<string>, roles: set<string>,
    uw: UserPc, dw: DbPc, iw: InstPc,
    // the incarnation each worker last read, per name
    userSeen: map<string, nat>, dbSeen: map<string, nat>,
    // history: checksum writes, and versions at which a broadcast emptied a checksum
    records: set<Rec>, clears: set<(string, nat)>)

  function Init(): Sys {
    Sys(Empty(), Empty(), {}, {}, UIdle, DIdle, IIdle, map[], map[], {}, {})
  }

  /**
   What a run may rely on.
    - checkChanges: the operator flag that lets unchanged Databases skip SQL work.
    - sessionReads: a worker that has read one incarnation of an object is never handed an
      older one of the same name (copies of one incarnation may be arbitrarily old).
    - fixedRef: nobody edits `databaseRef` of a DbUser that carries its finalizer.
    - dbName, roleName: the names the server knows a Database, and the user generated for a
      DbUser or a Database, by. Different objects may come to the same name.
   */
  datatype Rules = Rules(checkChanges: bool, sessionReads: bool, fixedRef: bool,
                         dbName: string -> string, roleName: string -> string)

  // ---- Change detection ------------------------------------------------------------------

  predicate IsDbChanged(b: DbBody, creds: Creds) {
    b.specSum != SumOf(b.spec) || b.secretSum != SecretSumOf(creds)
  }

  datatype SecretRead = Found(creds: Creds) | NotFound

  predicate IsFullReconcile(checkChanges: bool, b: DbBody, healthy: bool, secret: SecretRead) {
    || b.force
    || !checkChanges
    || !(b.ready && healthy)
    || secret.NotFound?
    || IsDbChanged(b, secret.creds)
  }

  // ---- The outside world -----------------------------------------------------------------

  /**
   Users create, edit and delete objects. Objects come without the operator's finalizers,
   status and checksums, and edits leave those alone.
   */
  datatype WorldStep =
    | NewUser(n: string, fs: seq<string>, ub: UserBody)
    | NewDb(n: string, fs: seq<string>, db: DbBody)
    | EditUser(n: string, fs: seq<string>, ub: UserBody)
    | EditDb(n: string, fs: seq<string>, db: DbBody)
    | MarkUser(n: string)
    | MarkDb(n: string)

  predicate SameOurs(a: seq<string>, b: seq<string>) {
    && (forall f :: f in a && Ours(f) ==> f in b)
    && (forall f :: f in b && Ours(f) ==> f in a)
  }

  predicate NoneOurs(a: seq<string>) {
    forall f :: f in a ==> !Ours(f)
  }

  predicate WorldEnabled(r: Rules, s: Sys, step: WorldStep) {
    match step
    case NewUser(n, fs, b) => n !in s.users.live && NoneOurs(fs) && !b.created
    case NewDb(n, fs, b) =>
      n !in s.dbs.live && NoneOurs(fs) && !b.ready && b.specSum == Missing && b.secretSum == NoSum
    case EditUser(n, fs, b) =>
      && n in s.users.live && SameOurs(fs, s.users.live[n].finalizers)
      && Accepts(s.users, n, s.users.live[n].version, fs)
      && b.created == s.users.live[n].body.created
      && (r.fixedRef ==> b.ref == s.users.live[n].body.ref || UserFin(n) !in s.users.live[n].finalizers)
    case EditDb(n, fs, b) =>
      && n in s.dbs.live && SameOurs(fs, s.dbs.live[n].finalizers)
      && Accepts(s.dbs, n, s.dbs.live[n].version, fs)
      && b.ready == s.dbs.live[n].body.ready
      && b.specSum == s.dbs.live[n].body.specSum && b.secretSum == s.dbs.live[n].body.secretSum
    case MarkUser(n) => n in s.users.live
    case MarkDb(n) => n in s.dbs.live
  }

  function WorldApply(r: Rules, s: Sys, step: WorldStep): Sys
    requires WorldEnabled(r, s, step)
  {
    match step
    case NewUser(n, fs, b) => s.(users := Create(s.users, n, fs, b))
    case NewDb(n, fs, b) => s.(dbs := Create(s.dbs, n, fs, b))
    case EditUser(n, fs, b) => s.(users := Put(s.users, n, fs, b))
    case EditDb(n, fs, b) => s.(dbs := Put(s.dbs, n, fs, b))
    case MarkUser(n) => s.(users := Mark(s.users, n))
    case MarkDb(n) => s.(dbs := Mark(s.dbs, n))
  }

  predicate Session(r: Rules, seen: map<string, nat>, n: string, uid: nat) {
    r.sessionReads && n in seen ==> seen[n] <= uid
  }

  // ---- DbUser controller -------------------------------------------------------------------

  datatype UserStep =
    | UGet(n: string, u: UserObj)
    | UGetDb(d: DbObj)
    | USql                          // CreateUser, UpdateUser or SetPermissions
    | UAddToUser                    // addFinalizers, first write
    | UAddToDb                      // addFinalizers, second write
    | UStatus(misc: nat)            // deferred status write of a pass that got through
    | UDropRole(refused: bool)      // DeleteUser or RevokePermissions, and the Secret
    | UOffDb                        // teardown, first write
    | UOffUser                      // teardown, second write
    | UStop(write: bool, misc: nat) // an error, with or without the deferred status write

  predicate UserEnabled(r: Rules, s: Sys, step: UserStep) {
    match step
    case UGet(n, u) => s.uw.UIdle? && (n, u) in s.users.past && Session(r, s.userSeen, n, u.uid)
    case UGetDb(d) => s.uw.UHave? && (s.uw.u.body.ref, d) in s.dbs.past
    case USql =>
      && s.uw.UDb? && s.uw.d.body.ready
      && (!s.uw.u.body.existing ==> (s.uw.u.body.created <==> r.roleName(s.uw.n) in s.roles))
    case UAddToUser => s.uw.UMade?
    case UAddToDb => s.uw.UNamed?
    case UStatus(_) => s.uw.UBoth? || s.uw.UKept?
    case UDropRole(_) => s.uw.UDel?
    case UOffDb => s.uw.UGone?
    case UOffUser => s.uw.UOff?
    case UStop(_, _) => !s.uw.UIdle?
  }

  function UserApply(r: Rules, s: Sys, step: UserStep): Sys
    requires UserEnabled(r, s, step)
  {
    match step
    case UGet(n, u) => s.(uw := UHave(n, u), userSeen := s.userSeen[n := u.uid])
    case UGetDb(d) =>
      var UHave(n, u) := s.uw;
      s.(uw := if !u.marked then UDb(n, u, d)
               else if UserFin(n) in u.finalizers then UDel(n, u, d)
               else UIdle)
    case USql =>
      var UDb(n, u, d) := s.uw;
      if u.body.existing then s.(uw := UMade(n, u, d))
      else if u.body.created then s.(uw := UKept(n, u))
      else s.(roles := s.roles + {r.roleName(n)}, uw := UMade(n, u, d))
    case UAddToUser =>
      var UMade(n, u, d) := s.uw;
      UserWrite(s, Appended(u.finalizers, UserFin(n)), u.body, o => UNamed(n, o, d))
    case UAddToDb =>
      var UNamed(n, u, d) := s.uw;
      RefWrite(s, d, Appended(d.finalizers, UserFin(n)), UBoth(n, u))
    case UStatus(misc) =>
      var created := s.uw.UBoth? || s.uw.u.body.created;
      UserWrite(s, s.uw.u.finalizers, s.uw.u.body.(created := created, misc := misc), o => UIdle)
    case UDropRole(refused) =>
      var UDel(n, u, d) := s.uw;
      s.(roles := if u.body.existing || refused then s.roles else s.roles - {r.roleName(n)}, uw := UGone(n, u, d))
    case UOffDb =>
      var UGone(n, u, d) := s.uw;
      RefWrite(s, d, Removed(d.finalizers, UserFin(n)), UOff(n, u))
    case UOffUser =>
      var UOff(n, u) := s.uw;
      UserWrite(s, Removed(u.finalizers, UserFin(n)), u.body, o => UIdle)
    case UStop(write, misc) =>
      if write then UserWrite(s, s.uw.u.finalizers, s.uw.u.body.(misc := misc), o => UIdle)
      else s.(uw := UIdle)
  }

  /** The worker writes its DbUser: on success the local copy becomes the server's reply. */
  function UserWrite(s: Sys, fs: seq<string>, b: UserBody, next: UserObj -> UserPc): Sys
    requires !s.uw.UIdle?
  {
    if Accepts(s.users, s.uw.n, s.uw.u.version, fs)
    then s.(users := Put(s.users, s.uw.n, fs, b), uw := next(Written(s.users, s.uw.n, fs, b)))
    else s.(uw := UIdle)
  }

  /** The worker writes the finalizers of the Database its DbUser refers to. */
  function RefWrite(s: Sys, d: DbObj, fs: seq<string>, next: UserPc): Sys
    requires !s.uw.UIdle?
  {
    if Accepts(s.dbs, s.uw.u.body.ref, d.version, fs)
    then s.(dbs := Put(s.dbs, s.uw.u.body.ref, fs, d.body), uw := next)
    else s.(uw := UIdle)
  }

  // ---- Database controller -----------------------------------------------------------------

  datatype DbStep =
    | DGet(n: string, c: DbObj)
    | DGuard                                    // handleDbDelete lets the copy through
    | DDropSql(main: bool, refused: bool)       // deleteDatabase, with its own user if it has one
    | DOffDb                                    // own finalizer removed
    | DDecide(healthy: bool, secret: SecretRead)
    | DTouch(healthy: bool, misc: nat)          // setEngine, status write
    | DCreateSql(creds: Creds, main: bool)      // createDatabase, SQL part
    | DGrants(healthy: bool, misc: nat)         // createDatabase, status write
    | DRecord                                   // createDatabase, finalizer and checksums
    | DRewrite                                  // createDatabase, second Update
    | DStatus(misc: nat)                        // final status write
    | DStop(write: bool, misc: nat)             // an error, with or without the status write

  predicate DbEnabled(r: Rules, s: Sys, step: DbStep) {
    match step
    case DGet(n, c) => s.dw.DIdle? && (n, c) in s.dbs.past && Session(r, s.dbSeen, n, c.uid)
    case DGuard => s.dw.DHave? && s.dw.c.marked && !Guarded(s.dw.c.finalizers)
    case DDropSql(_, _) => s.dw.DDrop?
    case DOffDb => s.dw.DDropped?
    case DDecide(_, _) => s.dw.DHave? && !s.dw.c.marked
    case DTouch(_, _) => s.dw.DFull?
    case DCreateSql(_, _) => s.dw.DFull?
    case DGrants(_, _) => s.dw.DSql?
    case DRecord => s.dw.DGranted?
    case DRewrite => s.dw.DRecorded?
    case DStatus(_) => s.dw.DReady? || s.dw.DTail?
    case DStop(_, _) => !s.dw.DIdle?
  }

  function DbApply(r: Rules, s: Sys, step: DbStep): Sys
    requires DbEnabled(r, s, step)
  {
    match step
    case DGet(n, c) => s.(dw := DHave(n, c), dbSeen := s.dbSeen[n := c.uid])
    case DGuard =>
      var DHave(n, c) := s.dw;
      s.(dw := if DbFin(n) in c.finalizers then DDrop(n, c) else DTail(n, c))
    case DDropSql(main, refused) =>
      var DDrop(n, c) := s.dw;
      if c.body.spec.protected then s.(dw := DDropped(n, c))
      else
        s.(sqlDbs := s.sqlDbs - {r.dbName(n)},
           roles := if main && !refused then s.roles - {r.roleName(n)} else s.roles,
           dw := DDropped(n, c))
    case DOffDb =>
      var DDropped(n, c) := s.dw;
      DbWrite(s, Removed(c.finalizers, DbFin(n)), c.body, o => DTail(n, o))
    case DDecide(healthy, secret) =>
      var DHave(n, c) := s.dw;
      if c.body.force then
        DbWrite(s, c.finalizers, c.body.(force := false), o => DFull(n, o, c.version))
      else if IsFullReconcile(r.checkChanges, c.body, healthy, secret) then
        s.(dw := DFull(n, c, c.version))
      else
        s.(dw := DReady(n, c))
    case DTouch(healthy, misc) =>
      var DFull(n, c, from) := s.dw;
      DbWrite(s, c.finalizers, Noted(c.body, healthy, misc), o => DFull(n, o, from))
    case DCreateSql(creds, main) =>
      var DFull(n, c, from) := s.dw;
      s.(sqlDbs := s.sqlDbs + {r.dbName(n)},
         roles := if main then s.roles + {r.roleName(n)} else s.roles,
         dw := DSql(n, c, from, creds))
    case DGrants(healthy, misc) =>
      var DSql(n, c, from, creds) := s.dw;
      DbWrite(s, c.finalizers, Noted(c.body, healthy, misc), o => DGranted(n, o, from, creds))
    case DRecord =>
      var DGranted(n, c, from, creds) := s.dw;
      var fs := Appended(c.finalizers, DbFin(n));
      var b := c.body.(specSum := SumOf(c.body.spec), secretSum := SecretSumOf(creds));
      var s' := DbWrite(s, fs, b, o => DRecorded(n, o));
      if Accepts(s.dbs, n, c.version, fs)
      then s'.(records := s.records + {Rec(n, Written(s.dbs, n, fs, b).version, from, c.body.spec, creds)})
      else s'
    case DRewrite =>
      var DRecorded(n, c) := s.dw;
      DbWrite(s, c.finalizers, c.body, o => DReady(n, o))
    case DStatus(misc) =>
      var ready := s.dw.DReady? || s.dw.c.body.ready;
      DbWrite(s, s.dw.c.finalizers, s.dw.c.body.(ready := ready, misc := misc), o => DIdle)
    case DStop(write, misc) =>
      if write then DbWrite(s, s.dw.c.finalizers, s.dw.c.body.(ready := false, misc := misc), o => DIdle)
      else s.(dw := DIdle)
  }

  /** A status write on the way; a failed health check has taken `ready` back in memory. */
  function Noted(b: DbBody, healthy: bool, misc: nat): DbBody {
    b.(ready := b.ready && healthy, misc := misc)
  }

  /** The worker writes its Database: on success the local copy becomes the server's reply. */
  function DbWrite(s: Sys, fs: seq<string>, b: DbBody, next: DbObj -> DbPc): Sys
    requires !s.dw.DIdle?
  {
    if Accepts(s.dbs, s.dw.n, s.dw.c.version, fs)
    then s.(dbs := Put(s.dbs, s.dw.n, fs, b), dw := next(Written(s.dbs, s.dw.n, fs, b)))
    else s.(dw := DIdle)
  }

  // ---- DbInstance controller, broadcast ----------------------------------------------------

  datatype InstStep =
    | IStart(inst: string, items: seq<(string, DbObj)>) // the List call
    | IItem                                            // one turn of the loop
    | IStop

  predicate InstEnabled(s: Sys, step: InstStep) {
    match step
    case IStart(_, items) => s.iw.IIdle? && forall k :: 0 <= k < |items| ==> items[k] in s.dbs.past
    case IItem => s.iw.IList? && s.iw.i < |s.iw.items|
    case IStop => s.iw.IList?
  }

  function InstApply(s: Sys, step: InstStep): Sys
    requires InstEnabled(s, step)
  {
    match step
    case IStart(inst, items) => s.(iw := IList(inst, items, 0, s.dbs.live))
    case IItem =>
      var IList(inst, items, i, base) := s.iw;
      var n, c := items[i].0, items[i].1;
      if !Addressed(inst, c) then s.(iw := IList(inst, items, i + 1, base))
      else if !Accepts(s.dbs, n, c.version, c.finalizers) then s.(iw := IIdle)
      else
        var b := c.body.(specSum := Blank);
        s.(dbs := Put(s.dbs, n, c.finalizers, b),
           iw := IList(inst, items, i + 1, base),
           clears := if c.body.specSum.SumOf?
                     then s.clears + {(n, Written(s.dbs, n, c.finalizers, b).version)} else s.clears)
    case IStop => s.(iw := IIdle)
  }

  /** The broadcast acts on copies of its instance that have the annotation, empty or not. */
  predicate Addressed(inst: string, c: DbObj) {
    c.body.spec.instance == inst && !c.body.specSum.Missing?
  }

  // ---- The whole system --------------------------------------------------------------------

  datatype Step = World(w: WorldStep) | User(u: UserStep) | Database(d: DbStep) | Instance(i: InstStep)

  predicate Enabled(r: Rules, s: Sys, step: Step) {
    match step
    case World(w) => WorldEnabled(r, s, w)
    case User(u) => UserEnabled(r, s, u)
    case Database(d) => DbEnabled(r, s, d)
    case Instance(i) => InstEnabled(s, i)
  }

  function Apply(r: Rules, s: Sys, step: Step): Sys
    requires Enabled(r, s, step)
  {
    match step
    case World(w) => WorldApply(r, s, w)
    case User(u) => UserApply(r, s, u)
    case Database(d) => DbApply(r, s, d)
    case Instance(i) => InstApply(s, i)
  }

  // ---- Runs ----------------------------------------------------------------------------------

  predicate Legal(r: Rules, s: Sys, steps: seq<Step>)
    decreases steps
  {
    steps == [] || (Enabled(r, s, steps[0]) && Legal(r, Apply(r, s, steps[0]), steps[1..]))
  }

  function Run(r: Rules, s: Sys, steps: seq<Step>): Sys
    requires Legal(r, s, steps)
    decreases steps
  {
    if steps == [] then s else Run(r, Apply(r, s, steps[0]), steps[1..])
  }

  ghost predicate Reachable(r: Rules, s: Sys) {
    exists steps :: Legal(r, Init(), steps) && Run(r, Init(), steps) == s
  }
}
