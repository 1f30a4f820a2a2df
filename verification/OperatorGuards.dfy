/**
 What the finalizers protect in every run, with no rule on reads or references: what is
 reported ready or created carries its own finalizer, and a Database is dropped only on a
 copy that was marked and free of DbUser finalizers.
 */
module OperatorGuards {
  import opened ObjectStore
  import opened Finalizers
  import opened Operator
  import opened OperatorInvariants

  /** Created and not marked: the DbUser carries its own finalizer, and always did. */
  ghost predicate UsersGuarded(users: Store<UserBody>) {
    forall n, o :: (n, o) in users.past && o.body.created && !o.marked ==> UserFin(n) in o.finalizers
  }

  /** Ready and not marked: the Database carries its own finalizer, and always did. */
  ghost predicate DbsGuarded(dbs: Store<DbBody>) {
    forall n, o :: (n, o) in dbs.past && o.body.ready && !o.marked ==> DbFin(n) in o.finalizers
  }

  /** The only `db.` finalizer a Database ever carries is its own. */
  ghost predicate OwnNames(dbs: Store<DbBody>) {
    forall d, o :: (d, o) in dbs.past ==> OnlyOwn(d, o.finalizers)
  }

  ghost predicate UserWorkerGuards(uw: UserPc) {
    && (uw.UNamed? || uw.UBoth? ==> UserFin(uw.n) in uw.u.finalizers)
    && (uw.UDel? || uw.UGone? || uw.UOff? ==> uw.u.marked)
    && (uw.UKept? ==> uw.u.body.created)
  }

  ghost predicate DbWorkerGuards(dw: DbPc) {
    && (dw.DDrop? || dw.DDropped? ==> dw.c.marked && !Guarded(dw.c.finalizers) && DbFin(dw.n) in dw.c.finalizers)
    && (dw.DRecorded? || dw.DReady? ==> DbFin(dw.n) in dw.c.finalizers)
  }

  /** `uid` is an incarnation `n` has had. */
  ghost predicate WasUid<B(!new)>(past: set<(string, Obj<B>)>, n: string, uid: nat) {
    exists o :: (n, o) in past && o.uid == uid
  }

  /** Workers have read what was there. */
  ghost predicate Seen<B(!new)>(seen: map<string, nat>, past: set<(string, Obj<B>)>) {
    forall n :: n in seen ==> WasUid(past, n, seen[n])
  }

  ghost predicate Guards(s: Sys) {
    && UsersGuarded(s.users) && DbsGuarded(s.dbs) && OwnNames(s.dbs)
    && UserWorkerGuards(s.uw) && DbWorkerGuards(s.dw)
    && Seen(s.userSeen, s.users.past) && Seen(s.dbSeen, s.dbs.past)
  }

  // ---- How the stores may move ---------------------------------------------------------------------

  lemma SeenGrows<B(!new)>(seen: map<string, nat>, past: set<(string, Obj<B>)>, more: set<(string, Obj<B>)>)
    requires Seen(seen, past) && past <= more
    ensures Seen(seen, more)
  {
    forall n | n in seen
      ensures WasUid(more, n, seen[n])
    {
      var o :| (n, o) in past && o.uid == seen[n];
      assert (n, o) in more;
    }
  }

  lemma UserPutKeepsGuards(s: Sys, users': Store<UserBody>, n: string, o: UserObj)
    requires Guards(s) && Grows(s.users, users', n, o)
    requires o.body.created && !o.marked ==> UserFin(n) in o.finalizers
    ensures Guards(s.(users := users'))
  {
    SeenGrows(s.userSeen, s.users.past, users'.past);
  }

  lemma DbPutKeepsGuards(s: Sys, dbs': Store<DbBody>, n: string, o: DbObj)
    requires Guards(s) && Grows(s.dbs, dbs', n, o)
    requires o.body.ready && !o.marked ==> DbFin(n) in o.finalizers
    requires OnlyOwn(n, o.finalizers)
    ensures Guards(s.(dbs := dbs'))
  {
    SeenGrows(s.dbSeen, s.dbs.past, dbs'.past);
  }

  // ---- Steps -----------------------------------------------------------------------------------------

  lemma WorldKeepsGuards(r: Rules, s: Sys, step: WorldStep)
    requires Copies(s) && Guards(s) && WorldEnabled(r, s, step)
    ensures Guards(WorldApply(r, s, step))
  {
    var s', n := WorldApply(r, s, step), step.n;
    match step
    case NewUser(_, fs, b) =>
      CreateIsValid(s.users, n, fs, b);
      UserPutKeepsGuards(s, s'.users, n, Obj(s.users.rev + 1, s.users.rev + 1, fs, false, b));
    case NewDb(_, fs, b) =>
      CreateIsValid(s.dbs, n, fs, b);
      DbPutKeepsGuards(s, s'.dbs, n, Obj(s.dbs.rev + 1, s.dbs.rev + 1, fs, false, b));
    case EditUser(_, fs, b) => EditKeepsGuards(r, s, step);
    case EditDb(_, fs, b) => EditKeepsGuards(r, s, step);
    case MarkUser(_) =>
      MarkIsValid(s.users, n);
      if !s.users.live[n].marked {
        UserPutKeepsGuards(s, s'.users, n, s.users.live[n].(version := s.users.rev + 1, marked := true));
      }
    case MarkDb(_) =>
      MarkIsValid(s.dbs, n);
      if !s.dbs.live[n].marked {
        DbPutKeepsGuards(s, s'.dbs, n, s.dbs.live[n].(version := s.dbs.rev + 1, marked := true));
      }
  }

  lemma EditKeepsGuards(r: Rules, s: Sys, step: WorldStep)
    requires Copies(s) && Guards(s) && WorldEnabled(r, s, step) && (step.EditUser? || step.EditDb?)
    ensures Guards(WorldApply(r, s, step))
  {
    var s', n, fs := WorldApply(r, s, step), step.n, step.fs;
    if step.EditUser? {
      assert (n, s.users.live[n]) in s.users.past;
      UserFinIsOurs(n);
      PutIsValid(s.users, n, fs, step.ub);
      UserPutKeepsGuards(s, s'.users, n, Written(s.users, n, fs, step.ub));
    } else {
      assert (n, s.dbs.live[n]) in s.dbs.past;
      assert Ours(DbFin(n));
      PutIsValid(s.dbs, n, fs, step.db);
      DbPutKeepsGuards(s, s'.dbs, n, Written(s.dbs, n, fs, step.db));
    }
  }

  /** A write of the DbUser worker to its DbUser. */
  lemma UserWriteKeepsGuards(s: Sys, fs: seq<string>, b: UserBody, next: UserObj -> UserPc)
    requires Copies(s) && Guards(s) && !s.uw.UIdle?
    requires b.created && !s.uw.u.marked ==> UserFin(s.uw.n) in fs
    requires Accepts(s.users, s.uw.n, s.uw.u.version, fs) ==>
               UserWorkerGuards(next(Written(s.users, s.uw.n, fs, b)))
    ensures Guards(UserWrite(s, fs, b, next))
  {
    var n := s.uw.n;
    if Accepts(s.users, n, s.uw.u.version, fs) {
      AcceptedCopyIsCurrent(s.users, n, s.uw.u, fs);
      PutIsValid(s.users, n, fs, b);
      UserPutKeepsGuards(s, Put(s.users, n, fs, b), n, Written(s.users, n, fs, b));
    }
  }

  /** Its write to the Database changes DbUser finalizers only. */
  lemma RefWriteKeepsGuards(s: Sys, d: DbObj, fs: seq<string>, next: UserPc)
    requires Copies(s) && Guards(s) && !s.uw.UIdle? && (s.uw.u.body.ref, d) in s.dbs.past
    requires DbFin(s.uw.u.body.ref) in d.finalizers ==> DbFin(s.uw.u.body.ref) in fs
    requires OnlyOwn(s.uw.u.body.ref, fs)
    requires UserWorkerGuards(next)
    ensures Guards(RefWrite(s, d, fs, next))
  {
    var k := s.uw.u.body.ref;
    if Accepts(s.dbs, k, d.version, fs) {
      AcceptedCopyIsCurrent(s.dbs, k, d, fs);
      PutIsValid(s.dbs, k, fs, d.body);
      DbPutKeepsGuards(s, Put(s.dbs, k, fs, d.body), k, Written(s.dbs, k, fs, d.body));
    }
  }

  lemma UserKeepsGuards(r: Rules, s: Sys, step: UserStep)
    requires Copies(s) && Guards(s) && UserEnabled(r, s, step)
    ensures Guards(UserApply(r, s, step))
  {
    match step
    case UGet(n, u) =>
    case UGetDb(d) =>
    case USql =>
    case UAddToUser =>
      var UMade(n, u, d) := s.uw;
      UserWriteKeepsGuards(s, Appended(u.finalizers, UserFin(n)), u.body, o => UNamed(n, o, d));
    case UAddToDb =>
      var UNamed(n, u, d) := s.uw;
      ListEditsKeepOwn(u.body.ref, d.finalizers, n);
      RefWriteKeepsGuards(s, d, Appended(d.finalizers, UserFin(n)), UBoth(n, u));
    case UStatus(misc) =>
      var created := s.uw.UBoth? || s.uw.u.body.created;
      UserWriteKeepsGuards(s, s.uw.u.finalizers, s.uw.u.body.(created := created, misc := misc), o => UIdle);
    case UDropRole(refused) =>
    case UOffDb =>
      var UGone(n, u, d) := s.uw;
      UserFinIsNotDbFin(n, u.body.ref);
      ListEditsKeepOwn(u.body.ref, d.finalizers, n);
      RefWriteKeepsGuards(s, d, Removed(d.finalizers, UserFin(n)), UOff(n, u));
    case UOffUser =>
      var UOff(n, u) := s.uw;
      UserWriteKeepsGuards(s, Removed(u.finalizers, UserFin(n)), u.body, o => UIdle);
    case UStop(write, misc) =>
      if write {
        UserWriteKeepsGuards(s, s.uw.u.finalizers, s.uw.u.body.(misc := misc), o => UIdle);
      }
  }

  /** A write of the Database worker. */
  lemma DbWriteKeepsGuards(s: Sys, fs: seq<string>, b: DbBody, next: DbObj -> DbPc)
    requires Copies(s) && Guards(s) && !s.dw.DIdle?
    requires (b.ready && !s.dw.c.marked ==> DbFin(s.dw.n) in fs) && OnlyOwn(s.dw.n, fs)
    requires Accepts(s.dbs, s.dw.n, s.dw.c.version, fs) ==> DbWorkerGuards(next(Written(s.dbs, s.dw.n, fs, b)))
    ensures Guards(DbWrite(s, fs, b, next))
  {
    var n := s.dw.n;
    if Accepts(s.dbs, n, s.dw.c.version, fs) {
      AcceptedCopyIsCurrent(s.dbs, n, s.dw.c, fs);
      PutIsValid(s.dbs, n, fs, b);
      DbPutKeepsGuards(s, Put(s.dbs, n, fs, b), n, Written(s.dbs, n, fs, b));
    }
  }

  lemma DbKeepsGuards(r: Rules, s: Sys, step: DbStep)
    requires Copies(s) && Guards(s) && DbEnabled(r, s, step)
    ensures Guards(DbApply(r, s, step))
  {
    match step
    case DGet(n, c) =>
    case DGuard =>
    case DDropSql(_, _) =>
    case DOffDb =>
      var DDropped(n, c) := s.dw;
      ListEditsKeepOwn(n, c.finalizers, n);
      DbWriteKeepsGuards(s, Removed(c.finalizers, DbFin(n)), c.body, o => DTail(n, o));
    case DDecide(healthy, secret) =>
      var DHave(n, c) := s.dw;
      if c.body.force {
        DbWriteKeepsGuards(s, c.finalizers, c.body.(force := false), o => DFull(n, o, c.version));
      }
    case DCreateSql(creds, main) =>
    case DStatus(misc) =>
      var ready := s.dw.DReady? || s.dw.c.body.ready;
      DbWriteKeepsGuards(s, s.dw.c.finalizers, s.dw.c.body.(ready := ready, misc := misc), o => DIdle);
    case DStop(write, misc) =>
      if write {
        DbWriteKeepsGuards(s, s.dw.c.finalizers, s.dw.c.body.(ready := false, misc := misc), o => DIdle);
      }
    case _ => DbWritesKeepGuards(r, s, step);
  }

  /** The writes of createDatabase. */
  lemma DbWritesKeepGuards(r: Rules, s: Sys, step: DbStep)
    requires Copies(s) && Guards(s) && DbEnabled(r, s, step)
    requires step.DTouch? || step.DGrants? || step.DRecord? || step.DRewrite?
    ensures Guards(DbApply(r, s, step))
  {
    match step
    case DTouch(healthy, misc) =>
      var DFull(n, c, from) := s.dw;
      DbWriteKeepsGuards(s, c.finalizers, Noted(c.body, healthy, misc), o => DFull(n, o, from));
    case DGrants(healthy, misc) =>
      var DSql(n, c, from, creds) := s.dw;
      DbWriteKeepsGuards(s, c.finalizers, Noted(c.body, healthy, misc), o => DGranted(n, o, from, creds));
    case DRecord =>
      var DGranted(n, c, from, creds) := s.dw;
      var b := c.body.(specSum := SumOf(c.body.spec), secretSum := SecretSumOf(creds));
      ListEditsKeepOwn(n, c.finalizers, n);
      DbWriteKeepsGuards(s, Appended(c.finalizers, DbFin(n)), b, o => DRecorded(n, o));
    case DRewrite =>
      var DRecorded(n, c) := s.dw;
      DbWriteKeepsGuards(s, c.finalizers, c.body, o => DReady(n, o));
  }

  lemma InstKeepsGuards(s: Sys, step: InstStep)
    requires Copies(s) && Guards(s) && InstEnabled(s, step)
    ensures Guards(InstApply(s, step))
  {
    if step.IItem? {
      var n, c := s.iw.items[s.iw.i].0, s.iw.items[s.iw.i].1;
      assert s.iw.items[s.iw.i] == (n, c);
      if Addressed(s.iw.inst, c) && Accepts(s.dbs, n, c.version, c.finalizers) {
        var b := c.body.(specSum := Blank);
        AcceptedCopyIsCurrent(s.dbs, n, c, c.finalizers);
        PutIsValid(s.dbs, n, c.finalizers, b);
        DbPutKeepsGuards(s, Put(s.dbs, n, c.finalizers, b), n, Written(s.dbs, n, c.finalizers, b));
      }
    }
  }

  // ---- The drop guard --------------------------------------------------------------------------------

  /**
   The drop guard is safe against stale copies of the same incarnation: the stored Database is
   marked and carries no DbUser finalizer, however old the copy that passed the guard.
   */
  lemma DropIsSafe(s: Sys, n: string)
    requires Copies(s) && Guards(s) && s.dw.DDrop?
    requires s.dw.n in s.dbs.live && s.dbs.live[s.dw.n].uid == s.dw.c.uid
    ensures s.dbs.live[s.dw.n].marked && UserFin(n) !in s.dbs.live[s.dw.n].finalizers
  {
    assert Follows(s.dw.c, s.dbs.live[s.dw.n]);
    if UserFin(n) in s.dbs.live[s.dw.n].finalizers {
      UserFinGuards(s.dw.c.finalizers, n);
    }
  }

  /** What is about to be dropped does not have "dbuser." in its name. */
  lemma DropIsPlain(s: Sys)
    requires Guards(s) && s.dw.DDrop?
    ensures !Contains(s.dw.n, USER_PREFIX)
  {
    ContainsIgnoresDbPrefix(s.dw.n);
    var k :| 0 <= k < |s.dw.c.finalizers| && s.dw.c.finalizers[k] == DbFin(s.dw.n);
    assert !Contains(s.dw.c.finalizers[k], USER_PREFIX);
  }

  /** What holds a stored Database back. */
  lemma StoredGuardIff(s: Sys, d: string)
    requires Copies(s) && Guards(s) && d in s.dbs.live
    ensures var fs := s.dbs.live[d].finalizers;
            Guarded(fs) <==>
              || (exists u :: UserFin(u) in fs)
              || (DbFin(d) in fs && Contains(d, USER_PREFIX))
              || (exists f :: f in fs && Lookalike(f))
  {
    assert (d, s.dbs.live[d]) in s.dbs.past;
    GuardIsExact(s.dbs.live[d].finalizers);
  }

  /** A worker's earlier reads do not keep it from reading what is stored now. */
  lemma CurrentIsReadable<B(!new)>(st: Store<B>, seen: map<string, nat>, n: string)
    requires ObjectStore.Valid(st) && Seen(seen, st.past) && n in st.live && n in seen
    ensures seen[n] <= st.live[n].uid
  {
    assert WasUid(st.past, n, seen[n]);
  }
}
