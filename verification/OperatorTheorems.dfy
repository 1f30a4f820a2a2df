/**
 What holds in every state the operator can reach.
 */
module OperatorTheorems {
  import opened ObjectStore
  import opened Finalizers
  import opened Operator
  import opened OperatorInvariants
  import opened OperatorGuards
  import opened OperatorNesting
  import opened OperatorSafety

  ghost predicate Inv(r: Rules, s: Sys) {
    && Copies(s) && Sums(s) && Guards(s)
    && (r.fixedRef ==> Nesting(s))
    && (r.sessionReads ==> Safety(r, NamesApart(r, s), s))
  }

  /** No two Databases ever stored get in each other's way on the server. */
  ghost predicate NamesApart(r: Rules, s: Sys) {
    Apart(r.dbName, Names(s.dbs.past))
  }

  lemma NamesStayApart(r: Rules, s: Sys, step: Step)
    requires Enabled(r, s, step) && NamesApart(r, Apply(r, s, step))
    ensures NamesApart(r, s)
  {
    PastGrows(r, s, step);
    forall a | a in Names(s.dbs.past)
      ensures a in Names(Apply(r, s, step).dbs.past)
    {
      var p :| p in s.dbs.past && p.0 == a;
      assert p in Apply(r, s, step).dbs.past;
    }
  }

  lemma PastGrows(r: Rules, s: Sys, step: Step)
    requires Enabled(r, s, step)
    ensures s.dbs.past <= Apply(r, s, step).dbs.past
  {
    if step.Database? {
      DbPastGrows(r, s, step.d);
    }
  }

  lemma DbPastGrows(r: Rules, s: Sys, step: DbStep)
    requires DbEnabled(r, s, step)
    ensures s.dbs.past <= DbApply(r, s, step).dbs.past
  {
  }

  lemma StepKeepsInv(r: Rules, s: Sys, step: Step)
    requires Inv(r, s) && Enabled(r, s, step)
    ensures Inv(r, Apply(r, s, step))
  {
    var q := NamesApart(r, Apply(r, s, step));
    if q { NamesStayApart(r, s, step); }
    match step
    case World(w) =>
      WorldKeepsCopies(r, s, w);
      WorldKeepsSums(r, s, w);
      WorldKeepsGuards(r, s, w);
      if r.fixedRef { WorldKeepsNesting(r, s, w); }
      if r.sessionReads { WorldKeepsSafety(r, q, s, w); }
    case User(u) =>
      UserKeepsCopies(r, s, u);
      UserKeepsSums(r, s, u);
      UserKeepsGuards(r, s, u);
      if r.fixedRef { UserKeepsNesting(r, s, u); }
      if r.sessionReads { UserKeepsSafety(r, q, s, u); }
    case Database(d) =>
      DbKeepsCopies(r, s, d);
      DbKeepsSums(r, s, d);
      DbKeepsGuards(r, s, d);
      if r.fixedRef { DbKeepsNesting(r, s, d); }
      if r.sessionReads { DbKeepsSafety(r, q, s, d); }
    case Instance(i) =>
      InstKeepsCopies(s, i);
      InstKeepsSums(s, i);
      InstKeepsGuards(s, i);
      if r.fixedRef { InstKeepsNesting(s, i); }
      if r.sessionReads { InstKeepsSafety(r, q, s, i); }
  }

  lemma {:induction false} RunKeepsInv(r: Rules, s: Sys, steps: seq<Step>)
    requires Inv(r, s) && Legal(r, s, steps)
    ensures Inv(r, Run(r, s, steps))
    decreases steps
  {
    if steps != [] {
      StepKeepsInv(r, s, steps[0]);
      RunKeepsInv(r, Apply(r, s, steps[0]), steps[1..]);
    }
  }

  lemma InitInv(r: Rules)
    ensures Inv(r, Init())
  {
  }

  lemma ReachableInv(r: Rules, s: Sys)
    requires Reachable(r, s)
    ensures Inv(r, s)
  {
    InitInv(r);
    var steps :| Legal(r, Init(), steps) && Run(r, Init(), steps) == s;
    RunKeepsInv(r, Init(), steps);
  }

  // ---- Finalizers -----------------------------------------------------------------------------------

  /** No Database is ever held back by a DbUser that is gone, however stale the reads. */
  lemma FinalizersAreNested(r: Rules, s: Sys, d: string, n: string)
    requires r.fixedRef && Reachable(r, s)
    requires d in s.dbs.live && UserFin(n) in s.dbs.live[d].finalizers
    ensures n in s.users.live && UserFin(n) in s.users.live[n].finalizers
    ensures s.users.live[n].body.ref == d
  {
    ReachableInv(r, s);
    assert Carries(s.dbs, d, n);
  }

  /** A created DbUser that is not being deleted carries its own finalizer, in every run. */
  lemma CreatedUserIsGuarded(r: Rules, s: Sys, n: string)
    requires Reachable(r, s)
    requires n in s.users.live && s.users.live[n].body.created && !s.users.live[n].marked
    ensures UserFin(n) in s.users.live[n].finalizers
  {
    ReachableInv(r, s);
    assert (n, s.users.live[n]) in s.users.past;
  }

  /**
   A created DbUser that is not being deleted still has everything it was given; the SQL database
   as long as names on the server are apart.
   */
  lemma CreatedUserKeepsItsDatabase(r: Rules, s: Sys, n: string)
    requires r.fixedRef && r.sessionReads && Reachable(r, s)
    requires n in s.users.live && s.users.live[n].body.created && !s.users.live[n].marked
    ensures UserFin(n) in s.users.live[n].finalizers
    ensures s.users.live[n].body.ref in s.dbs.live
    ensures UserFin(n) in s.dbs.live[s.users.live[n].body.ref].finalizers
    ensures NamesApart(r, s) ==> r.dbName(s.users.live[n].body.ref) in s.sqlDbs
  {
    ReachableInv(r, s);
    assert (n, s.users.live[n]) in s.users.past;
    assert Carries(s.dbs, s.users.live[n].body.ref, n);
  }

  /** A ready Database that is not being deleted carries its own finalizer, in every run. */
  lemma ReadyDatabaseIsGuarded(r: Rules, s: Sys, d: string)
    requires Reachable(r, s)
    requires d in s.dbs.live && s.dbs.live[d].body.ready && !s.dbs.live[d].marked
    ensures DbFin(d) in s.dbs.live[d].finalizers
  {
    ReachableInv(r, s);
    assert (d, s.dbs.live[d]) in s.dbs.past;
  }

  /** Ready and not marked, or carrying the finalizer of a DbUser. */
  ghost predicate InUse(s: Sys, d: string) {
    && d in s.dbs.live
    && ((s.dbs.live[d].body.ready && !s.dbs.live[d].marked) || exists n :: UserFin(n) in s.dbs.live[d].finalizers)
  }

  /** With session reads and names apart, a Database in use exists on the server. */
  lemma DatabaseInUseExists(r: Rules, s: Sys, d: string)
    requires r.sessionReads && Reachable(r, s) && NamesApart(r, s) && InUse(s, d)
    ensures r.dbName(d) in s.sqlDbs
  {
    ReachableInv(r, s);
    if n :| UserFin(n) in s.dbs.live[d].finalizers {
      assert Carries(s.dbs, d, n);
    }
  }

  // ---- Drops ----------------------------------------------------------------------------------------

  /**
   Whenever the Database controller is about to drop a SQL database whose Database is stored in
   the incarnation it has a copy of, that Database is marked and carries no DbUser finalizer,
   in every run and however old the copy.
   */
  lemma DropsSpareTheirOwn(r: Rules, s: Sys, n: string)
    requires Reachable(r, s) && s.dw.DDrop?
    requires s.dw.n in s.dbs.live && s.dbs.live[s.dw.n].uid == s.dw.c.uid
    ensures s.dbs.live[s.dw.n].marked && UserFin(n) !in s.dbs.live[s.dw.n].finalizers
  {
    ReachableInv(r, s);
    DropIsSafe(s, n);
  }

  /**
   With session reads nobody needs what is about to be dropped, of whatever incarnation: the
   stored Database carries no DbUser finalizer and is not in service, and no created DbUser
   that is not being deleted refers to it.
   */
  lemma DropsHurtNobody(r: Rules, s: Sys, n: string)
    requires r.sessionReads && Reachable(r, s) && s.dw.DDrop?
    ensures s.dw.n in s.dbs.live ==> UserFin(n) !in s.dbs.live[s.dw.n].finalizers
    ensures s.dw.n in s.dbs.live && s.dbs.live[s.dw.n].body.ready ==> s.dbs.live[s.dw.n].marked
    ensures r.fixedRef && n in s.users.live && s.users.live[n].body.created && !s.users.live[n].marked ==>
              s.users.live[n].body.ref != s.dw.n
  {
    ReachableInv(r, s);
    DropIsHarmless(r, NamesApart(r, s), s);
    assert !Carries(s.dbs, s.dw.n, n);
  }

  /** Handed this copy, the worker goes on to take the SQL database away. */
  predicate DropsOn(r: Rules, s: Sys, d: string, c: DbObj) {
    && DbEnabled(r, s, DGet(d, c))
    && var have := DbApply(r, s, DGet(d, c));
       && DbEnabled(r, have, DGuard) && DbApply(r, have, DGuard).dw.DDrop?
       && r.dbName(d) !in DbApply(r, DbApply(r, have, DGuard), DDropSql(false, false)).sqlDbs
  }

  /**
   An idle worker can be led to take away the SQL database of a Database that is stored unmarked
   exactly if it can still be handed an unprotected copy from a former life that had passed the
   guard.
   */
  lemma LiveDatabaseIsDroppedIff(r: Rules, s: Sys, d: string)
    requires Reachable(r, s) && s.dw.DIdle? && d in s.dbs.live && !s.dbs.live[d].marked && r.dbName(d) in s.sqlDbs
    ensures (exists c :: DropsOn(r, s, d, c)) <==>
              exists c :: && (d, c) in s.dbs.past && c.uid != s.dbs.live[d].uid && Session(r, s.dbSeen, d, c.uid)
                          && c.marked && !Guarded(c.finalizers) && DbFin(d) in c.finalizers && !c.body.spec.protected
  {
    ReachableInv(r, s);
    forall c
      ensures DropsOn(r, s, d, c) <==>
                && (d, c) in s.dbs.past && Session(r, s.dbSeen, d, c.uid)
                && c.marked && !Guarded(c.finalizers) && DbFin(d) in c.finalizers && !c.body.spec.protected
    {
      DropsOnIff(r, s, d, c);
    }
    assert forall c :: (d, c) in s.dbs.past ==> Follows(c, s.dbs.live[d]);
  }

  lemma DropsOnIff(r: Rules, s: Sys, d: string, c: DbObj)
    requires s.dw.DIdle? && r.dbName(d) in s.sqlDbs
    ensures DropsOn(r, s, d, c) <==>
              && (d, c) in s.dbs.past && Session(r, s.dbSeen, d, c.uid)
              && c.marked && !Guarded(c.finalizers) && DbFin(d) in c.finalizers && !c.body.spec.protected
  {
  }

  /** A drop takes away the SQL database of exactly those Databases that share the name on the server. */
  lemma DropTakesAwayIff(r: Rules, s: Sys, d: string, main: bool, refused: bool)
    requires s.dw.DDrop? && r.dbName(d) in s.sqlDbs
    ensures r.dbName(d) !in DbApply(r, s, DDropSql(main, refused)).sqlDbs <==>
              r.dbName(d) == r.dbName(s.dw.n) && !s.dw.c.body.spec.protected
  {
  }

  /** A Database whose name contains "dbuser." is never dropped. */
  lemma DroppedNamesArePlain(r: Rules, s: Sys)
    requires Reachable(r, s) && s.dw.DDrop?
    ensures !Contains(s.dw.n, USER_PREFIX)
  {
    ReachableInv(r, s);
    DropIsPlain(s);
  }

  /** Exactly what holds a stored Database back, in every reachable state. */
  lemma HeldBackIff(r: Rules, s: Sys, d: string)
    requires Reachable(r, s) && d in s.dbs.live
    ensures var fs := s.dbs.live[d].finalizers;
            Guarded(fs) <==>
              || (exists u :: UserFin(u) in fs)
              || (DbFin(d) in fs && Contains(d, USER_PREFIX))
              || (exists f :: f in fs && Lookalike(f))
  {
    ReachableInv(r, s);
    StoredGuardIff(s, d);
  }

  // ---- Checksums ------------------------------------------------------------------------------------

  /**
   SQL work is skipped only on the strength of an earlier reconcile that ran all of it, on
   the same spec and the same credentials, and had read its copy after every broadcast the
   skipping copy has been through.
   */
  lemma SkipsAreSound(r: Rules, s: Sys, healthy: bool, secret: SecretRead)
    requires Reachable(r, s) && DbEnabled(r, s, DDecide(healthy, secret))
    requires DbApply(r, s, DDecide(healthy, secret)).dw.DReady?
    ensures r.checkChanges && secret.Found? && s.dw.c.body.ready && healthy
    ensures exists rec :: rec in s.records
                       && rec.db == s.dw.n && rec.spec == s.dw.c.body.spec && rec.creds == secret.creds
                       && rec.version <= s.dw.c.version
                       && forall w :: (s.dw.n, w) in s.clears && w <= s.dw.c.version ==> w <= rec.from
  {
    ReachableInv(r, s);
    assert (s.dw.n, s.dw.c) in s.dbs.past;
    var rec :| rec in s.records && Backs(rec, s.clears, s.dw.n, s.dw.c);
  }

  /** Every copy of `n` from version `w` on looks changed, or was recorded by a later read. */
  ghost predicate InvalidatedFrom(s: Sys, n: string, w: nat) {
    forall o, creds :: (n, o) in s.dbs.past && o.version >= w && !IsDbChanged(o.body, creds) ==>
      exists rec :: rec in s.records && rec.db == n && rec.spec == o.body.spec && rec.creds == creds && w <= rec.from
  }

  lemma ClearedVersionsInvalidate(r: Rules, s: Sys, n: string, w: nat)
    requires Inv(r, s) && (n, w) in s.clears
    ensures InvalidatedFrom(s, n, w)
  {
  }

  lemma {:induction false} ClearsPersist(r: Rules, s: Sys, steps: seq<Step>)
    requires Legal(r, s, steps)
    ensures s.clears <= Run(r, s, steps).clears
    decreases steps
  {
    if steps != [] {
      ClearsPersist(r, Apply(r, s, steps[0]), steps[1..]);
    }
  }

  /**
   Once a broadcast has gone through its whole list, each listed Database whose checksum
   was not empty has been invalidated at some version `w`; and however the run continues,
   a copy from `w` on that looks unchanged owes its checksum to a reconcile that started
   from a copy read at `w` or later.
   */
  lemma {:induction false} InvalidationIsNotLost(r: Rules, s: Sys, k: nat, later: seq<Step>)
    requires Reachable(r, s) && s.iw.IList? && s.iw.i == |s.iw.items| && k < |s.iw.items|
    requires s.iw.items[k].1.body.spec.instance == s.iw.inst && s.iw.items[k].1.body.specSum.SumOf?
    requires Legal(r, s, later)
    ensures exists w :: (s.iw.items[k].0, w) in s.clears && w > s.iw.items[k].1.version
                     && InvalidatedFrom(Run(r, s, later), s.iw.items[k].0, w)
  {
    ReachableInv(r, s);
    var n, listed := s.iw.items[k].0, s.iw.items[k].1;
    assert Emptied(s.clears, s.iw.inst, n, listed);
    var w :| (n, w) in s.clears && w > listed.version;
    ClearsPersist(r, s, later);
    RunKeepsInv(r, s, later);
    ClearedVersionsInvalidate(r, Run(r, s, later), n, w);
  }

  /**
   Of the Databases stored with a checksum when the list was taken, a complete broadcast has
   invalidated exactly those of which the list holds a copy of this instance with the annotation:
   a listed copy from before the first checksum write is passed over.
   */
  lemma {:induction false} BroadcastInvalidatesIff(r: Rules, s: Sys, d: string, later: seq<Step>)
    requires Reachable(r, s) && s.iw.IList? && s.iw.i == |s.iw.items| && Legal(r, s, later)
    requires d in s.iw.base && s.iw.base[d].body.specSum.SumOf?
    ensures (exists k :: 0 <= k < |s.iw.items| && s.iw.items[k].0 == d && Addressed(s.iw.inst, s.iw.items[k].1)) <==>
            exists w :: (d, w) in s.clears && w > s.iw.base[d].version && InvalidatedFrom(Run(r, s, later), d, w)
  {
    ReachableInv(r, s);
    ClearsPersist(r, s, later);
    RunKeepsInv(r, s, later);
    assert Reached(s.iw, |s.iw.items|, d) <==> Hit(s.clears, s.iw.base, d);
    forall w | (d, w) in s.clears
      ensures InvalidatedFrom(Run(r, s, later), d, w)
    {
      ClearedVersionsInvalidate(r, Run(r, s, later), d, w);
    }
  }

  /**
   A reconcile that was in flight on the current copy when a broadcast reached the Database
   is turned away exactly when the stored checksum was not already empty: emptying an empty
   checksum is a no-op and issues no new version.
   */
  lemma InFlightReconcileIsDefeatedIff(r: Rules, s: Sys, fs: seq<string>)
    requires Reachable(r, s) && InstEnabled(s, IItem) && !s.dw.DIdle?
    requires s.iw.items[s.iw.i] == (s.dw.n, s.dw.c) && s.dw.c.body.spec.instance == s.iw.inst
    requires Accepts(s.dbs, s.dw.n, s.dw.c.version, s.dw.c.finalizers)
    requires Accepts(s.dbs, s.dw.n, s.dw.c.version, fs)
    ensures Accepts(InstApply(s, IItem).dbs, s.dw.n, s.dw.c.version, fs) <==> !s.dw.c.body.specSum.SumOf?
  {
    assert && s.dbs.live[s.dw.n] == s.dw.c && s.dw.c.version <= s.dbs.rev
           && !(s.dw.c.marked && s.dw.c.finalizers == []) by {
      ReachableInv(r, s);
      assert (s.dw.n, s.dw.c) in s.dbs.past;
      AcceptedCopyIsCurrent(s.dbs, s.dw.n, s.dw.c, fs);
    }
  }
}
