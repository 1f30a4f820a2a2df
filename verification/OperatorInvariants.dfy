/**
 What every step of the operator keeps. The invariants come in layers:

  - `Copies`, `Sums` and `Guards` hold of every run: versions, checksum provenance and
    broadcasts, and what an object's own finalizer protects.
  - `Nesting` needs `databaseRef` to stay fixed.
  - `Safety` needs session reads, and for links between objects a fixed `databaseRef` too.
 */
module OperatorInvariants {
  import opened ObjectStore
  import opened Finalizers
  import opened Operator

  // ---- Base --------------------------------------------------------------------------------

  ghost predicate UserCopies(uw: UserPc, users: Store<UserBody>, dbs: Store<DbBody>) {
    && (!uw.UIdle? ==> (uw.n, uw.u) in users.past)
    && (uw.UDb? || uw.UMade? || uw.UNamed? || uw.UDel? || uw.UGone? ==> (uw.u.body.ref, uw.d) in dbs.past)
  }

  ghost predicate DbCopies(dw: DbPc, dbs: Store<DbBody>) {
    !dw.DIdle? ==> (dw.n, dw.c) in dbs.past
  }

  ghost predicate InstCopies(iw: InstPc, dbs: Store<DbBody>) {
    iw.IList? ==>
      && iw.i <= |iw.items| && (forall k :: 0 <= k < |iw.items| ==> iw.items[k] in dbs.past)
      && (forall d :: d in iw.base ==> (d, iw.base[d]) in dbs.past)
      && (forall k :: 0 <= k < |iw.items| && iw.items[k].0 in iw.base ==>
            iw.items[k].1.version <= iw.base[iw.items[k].0].version)
  }

  /** Every local copy is a value the object once had. */
  ghost predicate Copies(s: Sys) {
    && Valid(s.users) && Valid(s.dbs)
    && UserCopies(s.uw, s.users, s.dbs) && DbCopies(s.dw, s.dbs) && InstCopies(s.iw, s.dbs)
  }

  lemma WorldKeepsCopies(r: Rules, s: Sys, step: WorldStep)
    requires Copies(s) && WorldEnabled(r, s, step)
    ensures Copies(WorldApply(r, s, step))
  {
    match step
    case NewUser(n, fs, b) => CreateIsValid(s.users, n, fs, b);
    case NewDb(n, fs, b) => CreateIsValid(s.dbs, n, fs, b);
    case EditUser(n, fs, b) => PutIsValid(s.users, n, fs, b);
    case EditDb(n, fs, b) => PutIsValid(s.dbs, n, fs, b);
    case MarkUser(n) => MarkIsValid(s.users, n);
    case MarkDb(n) => MarkIsValid(s.dbs, n);
  }

  lemma UserWriteKeepsCopies(s: Sys, fs: seq<string>, b: UserBody, next: UserObj -> UserPc)
    requires Copies(s) && !s.uw.UIdle?
    requires Accepts(s.users, s.uw.n, s.uw.u.version, fs) ==>
      var o, pc := Written(s.users, s.uw.n, fs, b), next(Written(s.users, s.uw.n, fs, b));
      pc.UIdle? || (s.uw.UMade? && pc == UNamed(s.uw.n, o, s.uw.d) && b.ref == s.uw.u.body.ref)
    ensures Copies(UserWrite(s, fs, b, next))
    ensures Accepts(s.users, s.uw.n, s.uw.u.version, fs) ==>
      && s.users.live[s.uw.n] == s.uw.u
      && Grows(s.users, Put(s.users, s.uw.n, fs, b), s.uw.n, Written(s.users, s.uw.n, fs, b))
  {
    if Accepts(s.users, s.uw.n, s.uw.u.version, fs) {
      AcceptedCopyIsCurrent(s.users, s.uw.n, s.uw.u, fs);
      PutIsValid(s.users, s.uw.n, fs, b);
    }
  }

  lemma RefWriteKeepsCopies(s: Sys, d: DbObj, fs: seq<string>, next: UserPc)
    requires Copies(s) && !s.uw.UIdle? && (s.uw.u.body.ref, d) in s.dbs.past
    requires next == UBoth(s.uw.n, s.uw.u) || next == UOff(s.uw.n, s.uw.u)
    ensures Copies(RefWrite(s, d, fs, next))
    ensures Accepts(s.dbs, s.uw.u.body.ref, d.version, fs) ==>
      var n := s.uw.u.body.ref;
      s.dbs.live[n] == d && Grows(s.dbs, Put(s.dbs, n, fs, d.body), n, Written(s.dbs, n, fs, d.body))
  {
    if Accepts(s.dbs, s.uw.u.body.ref, d.version, fs) {
      AcceptedCopyIsCurrent(s.dbs, s.uw.u.body.ref, d, fs);
      PutIsValid(s.dbs, s.uw.u.body.ref, fs, d.body);
    }
  }

  lemma UserKeepsCopies(r: Rules, s: Sys, step: UserStep)
    requires Copies(s) && UserEnabled(r, s, step)
    ensures Copies(UserApply(r, s, step))
  {
    match step
    case UGet(n, u) =>
    case UGetDb(d) =>
    case USql =>
    case UAddToUser =>
      var UMade(n, u, d) := s.uw;
      UserWriteKeepsCopies(s, Appended(u.finalizers, UserFin(n)), u.body, o => UNamed(n, o, d));
    case UAddToDb =>
      var UNamed(n, u, d) := s.uw;
      RefWriteKeepsCopies(s, d, Appended(d.finalizers, UserFin(n)), UBoth(n, u));
    case UStatus(misc) =>
      var created := s.uw.UBoth? || s.uw.u.body.created;
      UserWriteKeepsCopies(s, s.uw.u.finalizers, s.uw.u.body.(created := created, misc := misc), o => UIdle);
    case UDropRole(refused) =>
    case UOffDb =>
      var UGone(n, u, d) := s.uw;
      RefWriteKeepsCopies(s, d, Removed(d.finalizers, UserFin(n)), UOff(n, u));
    case UOffUser =>
      var UOff(n, u) := s.uw;
      UserWriteKeepsCopies(s, Removed(u.finalizers, UserFin(n)), u.body, o => UIdle);
    case UStop(write, misc) =>
      if write {
        UserWriteKeepsCopies(s, s.uw.u.finalizers, s.uw.u.body.(misc := misc), o => UIdle);
      }
  }

  lemma DbWriteKeepsCopies(s: Sys, fs: seq<string>, b: DbBody, next: DbObj -> DbPc)
    requires Copies(s) && !s.dw.DIdle?
    requires Accepts(s.dbs, s.dw.n, s.dw.c.version, fs) ==>
      var o, pc := Written(s.dbs, s.dw.n, fs, b), next(Written(s.dbs, s.dw.n, fs, b));
      pc.DIdle? || (pc.n == s.dw.n && pc.c == o)
    ensures Copies(DbWrite(s, fs, b, next))
    ensures Accepts(s.dbs, s.dw.n, s.dw.c.version, fs) ==>
      && s.dbs.live[s.dw.n] == s.dw.c
      && Grows(s.dbs, Put(s.dbs, s.dw.n, fs, b), s.dw.n, Written(s.dbs, s.dw.n, fs, b))
  {
    if Accepts(s.dbs, s.dw.n, s.dw.c.version, fs) {
      AcceptedCopyIsCurrent(s.dbs, s.dw.n, s.dw.c, fs);
      PutIsValid(s.dbs, s.dw.n, fs, b);
    }
  }

  lemma DbKeepsCopies(r: Rules, s: Sys, step: DbStep)
    requires Copies(s) && DbEnabled(r, s, step)
    ensures Copies(DbApply(r, s, step))
  {
    match step
    case DGet(n, c) =>
    case DGuard =>
    case DDropSql(_, _) =>
    case DOffDb =>
      var DDropped(n, c) := s.dw;
      DbWriteKeepsCopies(s, Removed(c.finalizers, DbFin(n)), c.body, o => DTail(n, o));
    case DDecide(healthy, secret) =>
      var DHave(n, c) := s.dw;
      if c.body.force {
        DbWriteKeepsCopies(s, c.finalizers, c.body.(force := false), o => DFull(n, o, c.version));
      }
    case DTouch(healthy, misc) =>
      var DFull(n, c, from) := s.dw;
      DbWriteKeepsCopies(s, c.finalizers, Noted(c.body, healthy, misc), o => DFull(n, o, from));
    case DCreateSql(creds, main) =>
    case DGrants(healthy, misc) =>
      var DSql(n, c, from, creds) := s.dw;
      DbWriteKeepsCopies(s, c.finalizers, Noted(c.body, healthy, misc), o => DGranted(n, o, from, creds));
    case DRecord =>
      var DGranted(n, c, from, creds) := s.dw;
      var b := c.body.(specSum := SumOf(c.body.spec), secretSum := SecretSumOf(creds));
      DbWriteKeepsCopies(s, Appended(c.finalizers, DbFin(n)), b, o => DRecorded(n, o));
    case DRewrite =>
      var DRecorded(n, c) := s.dw;
      DbWriteKeepsCopies(s, c.finalizers, c.body, o => DReady(n, o));
    case DStatus(misc) =>
      var ready := s.dw.DReady? || s.dw.c.body.ready;
      DbWriteKeepsCopies(s, s.dw.c.finalizers, s.dw.c.body.(ready := ready, misc := misc), o => DIdle);
    case DStop(write, misc) =>
      if write {
        DbWriteKeepsCopies(s, s.dw.c.finalizers, s.dw.c.body.(ready := false, misc := misc), o => DIdle);
      }
  }

  lemma InstKeepsCopies(s: Sys, step: InstStep)
    requires Copies(s) && InstEnabled(s, step)
    ensures Copies(InstApply(s, step))
  {
    match step
    case IStart(inst, items) => ListingKeepsCopies(s, inst, items);
    case IItem =>
      var n, c := s.iw.items[s.iw.i].0, s.iw.items[s.iw.i].1;
      assert s.iw.items[s.iw.i] == (n, c);
      if Addressed(s.iw.inst, c) && Accepts(s.dbs, n, c.version, c.finalizers) {
        var dbs' := Put(s.dbs, n, c.finalizers, c.body.(specSum := Blank));
        PutIsValid(s.dbs, n, c.finalizers, c.body.(specSum := Blank));
        assert InstCopies(s.iw.(i := s.iw.i + 1), dbs');
      }
    case IStop =>
  }

  lemma ListingKeepsCopies(s: Sys, inst: string, items: seq<(string, DbObj)>)
    requires Copies(s) && InstEnabled(s, IStart(inst, items))
    ensures Copies(InstApply(s, IStart(inst, items)))
  {
    forall k | 0 <= k < |items| && items[k].0 in s.dbs.live
      ensures items[k].1.version <= s.dbs.live[items[k].0].version
    {
      assert items[k] == (items[k].0, items[k].1);
      assert Follows(items[k].1, s.dbs.live[items[k].0]);
    }
  }

  // ---- Base: where a stored checksum comes from ------------------------------------------------

  /**
   `rec` accounts for the checksums on `o`: same spec, same credentials, and the recording
   reconcile had read its copy after every broadcast that `o` has been through.
   */
  ghost predicate Backs(rec: Rec, clears: set<(string, nat)>, n: string, o: DbObj) {
    && rec.db == n && o.body.specSum == SumOf(rec.spec) && o.body.secretSum == SecretSumOf(rec.creds)
    && rec.version <= o.version
    && forall w :: (n, w) in clears && w <= o.version ==> w <= rec.from
  }

  ghost predicate Backed(records: set<Rec>, clears: set<(string, nat)>, n: string, o: DbObj) {
    o.body.specSum.SumOf? ==> exists rec :: rec in records && Backs(rec, clears, n, o)
  }

  ghost predicate Provenance(dbs: Store<DbBody>, records: set<Rec>, clears: set<(string, nat)>) {
    && (forall n, o :: (n, o) in dbs.past ==> Backed(records, clears, n, o))
    && (forall n, w :: (n, w) in clears ==> w <= dbs.rev && (n in dbs.live ==> w <= dbs.live[n].version))
  }

  /** No broadcast has hit the Database between the worker's read and its latest copy. */
  ghost predicate UnbrokenCopy(dw: DbPc, clears: set<(string, nat)>) {
    dw.DFull? || dw.DSql? || dw.DGranted? ==>
      forall w :: (dw.n, w) in clears && w <= dw.c.version ==> w <= dw.from
  }

  /** The listed checksum of `n` has been emptied since it was listed. */
  ghost predicate Emptied(clears: set<(string, nat)>, inst: string, n: string, listed: DbObj) {
    listed.body.spec.instance == inst && listed.body.specSum.SumOf? ==>
      exists w :: (n, w) in clears && w > listed.version
  }

  /** One of the first `i` listed copies is an addressed copy of `d`. */
  ghost predicate Reached(iw: InstPc, i: nat, d: string)
    requires iw.IList?
  {
    exists k :: 0 <= k < i && k < |iw.items| && iw.items[k].0 == d && Addressed(iw.inst, iw.items[k].1)
  }

  /** A broadcast has emptied the checksum of `d` since the list was taken. */
  ghost predicate Hit(clears: set<(string, nat)>, base: map<string, DbObj>, d: string)
    requires d in base
  {
    exists w :: (d, w) in clears && w > base[d].version
  }

  /**
   What the broadcast in flight has achieved so far. Of the Databases stored with a checksum
   when the list was taken, it has emptied exactly those it has reached.
   */
  ghost predicate Broadcasting(iw: InstPc, clears: set<(string, nat)>) {
    iw.IList? ==>
      && (forall k :: 0 <= k < iw.i && k < |iw.items| ==> Emptied(clears, iw.inst, iw.items[k].0, iw.items[k].1))
      && (forall d :: d in iw.base && iw.base[d].body.specSum.SumOf? && Reached(iw, iw.i, d) ==>
          Hit(clears, iw.base, d))
      && (forall d :: d in iw.base && Hit(clears, iw.base, d) ==> Reached(iw, iw.i, d))
  }

  ghost predicate Sums(s: Sys) {
    && Provenance(s.dbs, s.records, s.clears)
    && UnbrokenCopy(s.dw, s.clears)
    && Broadcasting(s.iw, s.clears)
  }

  /** A write that leaves the checksums alone keeps their provenance. */
  lemma SameSums(dbs: Store<DbBody>, dbs': Store<DbBody>, records: set<Rec>, clears: set<(string, nat)>, n: string,
                 o: DbObj)
    requires Valid(dbs) && Provenance(dbs, records, clears)
    requires n in dbs.live && Grows(dbs, dbs', n, o) && o.version >= dbs.live[n].version
    requires o.body.specSum == dbs.live[n].body.specSum && o.body.secretSum == dbs.live[n].body.secretSum
    ensures Provenance(dbs', records, clears)
  {
  }

  lemma FreshSums(dbs: Store<DbBody>, dbs': Store<DbBody>, records: set<Rec>, clears: set<(string, nat)>, n: string,
                  o: DbObj)
    requires Provenance(dbs, records, clears)
    requires Grows(dbs, dbs', n, o) && o.version >= dbs.rev && o.body.specSum.Missing?
    ensures Provenance(dbs', records, clears)
  {
  }

  lemma WorldKeepsSums(r: Rules, s: Sys, step: WorldStep)
    requires Copies(s) && Sums(s) && WorldEnabled(r, s, step)
    ensures Sums(WorldApply(r, s, step))
  {
    match step
    case NewUser(n, fs, b) =>
    case NewDb(n, fs, b) =>
      CreateIsValid(s.dbs, n, fs, b);
      var o := Obj(s.dbs.rev + 1, s.dbs.rev + 1, fs, false, b);
      FreshSums(s.dbs, Create(s.dbs, n, fs, b), s.records, s.clears, n, o);
    case EditUser(n, fs, b) =>
    case EditDb(n, fs, b) =>
      PutIsValid(s.dbs, n, fs, b);
      SameSums(s.dbs, Put(s.dbs, n, fs, b), s.records, s.clears, n, Written(s.dbs, n, fs, b));
    case MarkUser(n) =>
    case MarkDb(n) =>
      MarkIsValid(s.dbs, n);
      if !s.dbs.live[n].marked {
        var o := s.dbs.live[n].(version := s.dbs.rev + 1, marked := true);
        SameSums(s.dbs, Mark(s.dbs, n), s.records, s.clears, n, o);
      }
  }

  lemma RefWriteKeepsSums(s: Sys, d: DbObj, fs: seq<string>, next: UserPc)
    requires Copies(s) && Sums(s) && !s.uw.UIdle? && (s.uw.u.body.ref, d) in s.dbs.past
    requires next == UBoth(s.uw.n, s.uw.u) || next == UOff(s.uw.n, s.uw.u)
    ensures Sums(RefWrite(s, d, fs, next))
  {
    RefWriteKeepsCopies(s, d, fs, next);
    var n := s.uw.u.body.ref;
    if Accepts(s.dbs, n, d.version, fs) {
      SameSums(s.dbs, Put(s.dbs, n, fs, d.body), s.records, s.clears, n, Written(s.dbs, n, fs, d.body));
    }
  }

  lemma UserKeepsSums(r: Rules, s: Sys, step: UserStep)
    requires Copies(s) && Sums(s) && UserEnabled(r, s, step)
    ensures Sums(UserApply(r, s, step))
  {
    match step
    case UAddToDb =>
      var UNamed(n, u, d) := s.uw;
      RefWriteKeepsSums(s, d, Appended(d.finalizers, UserFin(n)), UBoth(n, u));
    case UOffDb =>
      var UGone(n, u, d) := s.uw;
      RefWriteKeepsSums(s, d, Removed(d.finalizers, UserFin(n)), UOff(n, u));
    case _ =>
  }

  /** A write of the Database worker that leaves the checksums alone. */
  lemma DbWriteKeepsSums(s: Sys, fs: seq<string>, b: DbBody, next: DbObj -> DbPc)
    requires Copies(s) && Sums(s) && !s.dw.DIdle?
    requires Accepts(s.dbs, s.dw.n, s.dw.c.version, fs) ==>
      var o, pc := Written(s.dbs, s.dw.n, fs, b), next(Written(s.dbs, s.dw.n, fs, b));
      && (pc.DIdle? || (pc.n == s.dw.n && pc.c == o))
      && (pc.DFull? ==> (s.dw.DHave? && pc.from == s.dw.c.version) || (s.dw.DFull? && pc.from == s.dw.from))
      && (pc.DGranted? ==> s.dw.DSql? && pc.from == s.dw.from)
      && !pc.DSql?
    requires b.specSum == s.dw.c.body.specSum && b.secretSum == s.dw.c.body.secretSum
    ensures Sums(DbWrite(s, fs, b, next))
  {
  }

  lemma RecordedSums(dbs: Store<DbBody>, dbs': Store<DbBody>, records: set<Rec>, clears: set<(string, nat)>,
                     n: string, o: DbObj, rec: Rec)
    requires Provenance(dbs, records, clears) && Grows(dbs, dbs', n, o)
    requires n in dbs.live && o.version >= dbs.live[n].version && Backs(rec, clears, n, o)
    ensures Provenance(dbs', records + {rec}, clears)
  {
  }

  lemma RecordKeepsSums(r: Rules, s: Sys)
    requires Copies(s) && Sums(s) && s.dw.DGranted?
    ensures Sums(DbApply(r, s, DRecord))
  {
    var DGranted(n, c, from, creds) := s.dw;
    var fs := Appended(c.finalizers, DbFin(n));
    var b := c.body.(specSum := SumOf(c.body.spec), secretSum := SecretSumOf(creds));
    DbWriteKeepsCopies(s, fs, b, o => DRecorded(n, o));
    if Accepts(s.dbs, n, c.version, fs) {
      var o := Written(s.dbs, n, fs, b);
      var rec := Rec(n, o.version, from, c.body.spec, creds);
      assert Backs(rec, s.clears, n, o);
      RecordedSums(s.dbs, Put(s.dbs, n, fs, b), s.records, s.clears, n, o, rec);
    }
  }

  lemma DbKeepsSums(r: Rules, s: Sys, step: DbStep)
    requires Copies(s) && Sums(s) && DbEnabled(r, s, step)
    ensures Sums(DbApply(r, s, step))
  {
    match step
    case DGet(n, c) =>
    case DGuard =>
    case DDropSql(_, _) =>
    case DOffDb =>
      var DDropped(n, c) := s.dw;
      DbWriteKeepsSums(s, Removed(c.finalizers, DbFin(n)), c.body, o => DTail(n, o));
    case DDecide(healthy, secret) =>
      var DHave(n, c) := s.dw;
      if c.body.force {
        DbWriteKeepsSums(s, c.finalizers, c.body.(force := false), o => DFull(n, o, c.version));
      }
    case DTouch(healthy, misc) =>
      var DFull(n, c, from) := s.dw;
      DbWriteKeepsSums(s, c.finalizers, Noted(c.body, healthy, misc), o => DFull(n, o, from));
    case DCreateSql(creds, main) =>
    case DGrants(healthy, misc) =>
      var DSql(n, c, from, creds) := s.dw;
      DbWriteKeepsSums(s, c.finalizers, Noted(c.body, healthy, misc), o => DGranted(n, o, from, creds));
    case DRecord => RecordKeepsSums(r, s);
    case DRewrite =>
      var DRecorded(n, c) := s.dw;
      DbWriteKeepsSums(s, c.finalizers, c.body, o => DReady(n, o));
    case DStatus(misc) =>
      var ready := s.dw.DReady? || s.dw.c.body.ready;
      DbWriteKeepsSums(s, s.dw.c.finalizers, s.dw.c.body.(ready := ready, misc := misc), o => DIdle);
    case DStop(write, misc) =>
      if write {
        DbWriteKeepsSums(s, s.dw.c.finalizers, s.dw.c.body.(ready := false, misc := misc), o => DIdle);
      }
  }

  lemma EmptiedSums(dbs: Store<DbBody>, dbs': Store<DbBody>, records: set<Rec>, clears: set<(string, nat)>, n: string,
                    o: DbObj)
    requires Valid(dbs) && Provenance(dbs, records, clears) && Grows(dbs, dbs', n, o)
    requires o.version == dbs.rev + 1 == dbs'.rev && o.body.specSum.Blank?
    ensures Provenance(dbs', records, clears + {(n, o.version)})
  {
  }

  /** Emptying the checksum of a listed copy that is still current. */
  lemma ItemKeepsSums(s: Sys, n: string, c: DbObj)
    requires Copies(s) && Sums(s) && InstEnabled(s, IItem) && s.iw.items[s.iw.i] == (n, c)
    requires Addressed(s.iw.inst, c) && c.body.specSum.SumOf? && Accepts(s.dbs, n, c.version, c.finalizers)
    ensures Sums(InstApply(s, IItem))
  {
    var b := c.body.(specSum := Blank);
    var s', o := InstApply(s, IItem), Written(s.dbs, n, c.finalizers, b);
    AcceptedCopyIsCurrent(s.dbs, n, c, c.finalizers);
    assert o.version == s.dbs.rev + 1;
    assert s' == s.(dbs := Put(s.dbs, n, c.finalizers, b), iw := s.iw.(i := s.iw.i + 1),
                    clears := s.clears + {(n, o.version)});
    assert Provenance(s'.dbs, s'.records, s'.clears) by {
      PutIsValid(s.dbs, n, c.finalizers, b);
      EmptiedSums(s.dbs, s'.dbs, s.records, s.clears, n, o);
    }
    ClearsGrow(s, n, o.version);
  }

  /** Emptying one that is empty already. */
  lemma BlankItemKeepsSums(s: Sys, n: string, c: DbObj)
    requires Copies(s) && Sums(s) && InstEnabled(s, IItem) && s.iw.items[s.iw.i] == (n, c)
    requires Addressed(s.iw.inst, c) && c.body.specSum.Blank? && Accepts(s.dbs, n, c.version, c.finalizers)
    ensures Sums(InstApply(s, IItem))
  {
    var s' := InstApply(s, IItem);
    AcceptedCopyIsCurrent(s.dbs, n, c, c.finalizers);
    assert Written(s.dbs, n, c.finalizers, c.body.(specSum := Blank)) == c;
    assert s' == s.(dbs := Put(s.dbs, n, c.finalizers, c.body), iw := s.iw.(i := s.iw.i + 1));
    assert Provenance(s'.dbs, s'.records, s'.clears) by {
      PutIsValid(s.dbs, n, c.finalizers, c.body);
      SameSums(s.dbs, s'.dbs, s.records, s.clears, n, c);
    }
    ItemPassedOver(s, n, c);
  }

  lemma ReachedNext(iw: InstPc, d: string)
    requires iw.IList? && iw.i < |iw.items|
    ensures Reached(iw.(i := iw.i + 1), iw.i + 1, d) <==>
              Reached(iw, iw.i, d) || (iw.items[iw.i].0 == d && Addressed(iw.inst, iw.items[iw.i].1))
  {
  }

  /** One more cleared version above everything stored so far disturbs neither worker. */
  lemma ClearsGrow(s: Sys, n: string, w: nat)
    requires Copies(s) && Sums(s) && w > s.dbs.rev && s.iw.IList? && s.iw.i < |s.iw.items|
    requires s.iw.items[s.iw.i].0 == n && Addressed(s.iw.inst, s.iw.items[s.iw.i].1)
    ensures UnbrokenCopy(s.dw, s.clears + {(n, w)})
    ensures Broadcasting(s.iw.(i := s.iw.i + 1), s.clears + {(n, w)})
  {
    var iw, clears := s.iw.(i := s.iw.i + 1), s.clears + {(n, w)};
    forall k | 0 <= k < iw.i
      ensures Emptied(clears, iw.inst, iw.items[k].0, iw.items[k].1)
    {
      assert iw.items[k] in s.dbs.past;
    }
    forall d | d in iw.base
      ensures Hit(clears, iw.base, d) <==> Hit(s.clears, iw.base, d) || d == n
      ensures Reached(iw, iw.i, d) <==> Reached(s.iw, s.iw.i, d) || d == n
    {
      assert (d, w) in clears <== d == n;
      ReachedNext(s.iw, d);
    }
  }

  /** An item that changes no checksum: not addressed, or stored with an empty one. */
  lemma ItemPassedOver(s: Sys, n: string, c: DbObj)
    requires Copies(s) && Sums(s) && InstEnabled(s, IItem) && s.iw.items[s.iw.i] == (n, c)
    requires !Addressed(s.iw.inst, c) || (!c.body.specSum.SumOf? && n in s.dbs.live && s.dbs.live[n] == c)
    ensures Broadcasting(s.iw.(i := s.iw.i + 1), s.clears)
  {
    var iw := s.iw.(i := s.iw.i + 1);
    forall d | d in iw.base
      ensures Reached(iw, iw.i, d) && iw.base[d].body.specSum.SumOf? ==> Reached(s.iw, s.iw.i, d)
      ensures Reached(s.iw, s.iw.i, d) ==> Reached(iw, iw.i, d)
    {
      ReachedNext(s.iw, d);
      if d == n && Addressed(s.iw.inst, c) {
        assert Follows(iw.base[d], c);
      }
    }
  }

  lemma InstKeepsSums(s: Sys, step: InstStep)
    requires Copies(s) && Sums(s) && InstEnabled(s, step)
    ensures Sums(InstApply(s, step))
  {
    if step.IItem? {
      var n, c := s.iw.items[s.iw.i].0, s.iw.items[s.iw.i].1;
      assert s.iw.items[s.iw.i] == (n, c);
      if Addressed(s.iw.inst, c) && Accepts(s.dbs, n, c.version, c.finalizers) {
        if c.body.specSum.SumOf? {
          ItemKeepsSums(s, n, c);
        } else {
          BlankItemKeepsSums(s, n, c);
        }
      } else if !Addressed(s.iw.inst, c) {
        ItemPassedOver(s, n, c);
      }
    }
  }
}
