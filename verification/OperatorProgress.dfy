/**
 What single steps promise the runs they are part of: when SQL work is skipped and when it is
 due again, what a failed pass leaves behind, and who changes what on the server.
 */
module OperatorProgress {
  import opened ObjectStore
  import opened Finalizers
  import opened Operator
  import opened OperatorInvariants
  import opened OperatorGuards
  import opened OperatorTheorems
  import opened OperatorRuns

  // ---- Skipping --------------------------------------------------------------------------------------

  /** Nothing calls for SQL work on this copy. */
  predicate UpToDate(r: Rules, c: DbObj, healthy: bool, secret: SecretRead) {
    && r.checkChanges && c.body.ready && healthy && secret.Found?
    && c.body.specSum == SumOf(c.body.spec) && c.body.secretSum == SecretSumOf(secret.creds)
  }

  /** SQL work is skipped if and only if the copy is up to date and not forced; otherwise it is due. */
  lemma SkipsIff(r: Rules, s: Sys, healthy: bool, secret: SecretRead)
    requires DbEnabled(r, s, DDecide(healthy, secret)) && !s.dw.c.body.force
    ensures var s' := DbApply(r, s, DDecide(healthy, secret));
            && (s'.dw.DReady? <==> UpToDate(r, s.dw.c, healthy, secret))
            && (s'.dw.DFull? <==> !UpToDate(r, s.dw.c, healthy, secret))
            && s'.dbs == s.dbs && s'.dw.n == s.dw.n && s'.dw.c == s.dw.c
  {
  }

  /** A forced copy is never skipped: the annotation comes off and SQL work is due, or the write conflicts. */
  lemma ForceIsObeyed(r: Rules, s: Sys, healthy: bool, secret: SecretRead)
    requires Reachable(r, s) && DbEnabled(r, s, DDecide(healthy, secret)) && s.dw.c.body.force
    ensures var s' := DbApply(r, s, DDecide(healthy, secret));
            if Current(s) then
              && s'.dw.DFull? && s.dw.n in s'.dbs.live && s'.dw.c == s'.dbs.live[s.dw.n]
              && s'.dw.c.body == s.dw.c.body.(force := false) && s'.dw.c.finalizers == s.dw.c.finalizers
            else s'.dw.DIdle? && s'.dbs == s.dbs
  {
    CurrentIsAccepted(r, s);
  }

  /** The worker's copy is the stored Database. */
  ghost predicate Current(s: Sys)
    requires !s.dw.DIdle?
  {
    s.dw.n in s.dbs.live && s.dbs.live[s.dw.n] == s.dw.c
  }

  /** A write that leaves the finalizers alone goes through exactly from a current copy. */
  lemma CurrentIsAccepted(r: Rules, s: Sys)
    requires Reachable(r, s) && !s.dw.DIdle?
    ensures Accepts(s.dbs, s.dw.n, s.dw.c.version, s.dw.c.finalizers) <==> Current(s)
    ensures Current(s) ==> !(s.dw.c.marked && s.dw.c.finalizers == [])
  {
    ReachableInv(r, s);
    if Accepts(s.dbs, s.dw.n, s.dw.c.version, s.dw.c.finalizers) {
      AcceptedCopyIsCurrent(s.dbs, s.dw.n, s.dw.c, s.dw.c.finalizers);
    }
  }

  // ---- A pass that failed ------------------------------------------------------------------------------

  /** Status writes of a pass that has failed or found the Database unhealthy. */
  predicate TakesBack(step: DbStep) {
    (step.DStop? && step.write) || (step.DTouch? && !step.healthy) || (step.DGrants? && !step.healthy)
  }

  /** They leave the stored Database not ready, and otherwise as it was but for unrelated status fields. */
  lemma FailedPassIsNotReady(r: Rules, s: Sys, step: DbStep)
    requires Reachable(r, s) && DbEnabled(r, s, step) && TakesBack(step) && Current(s)
    ensures var s', n := DbApply(r, s, step), s.dw.n;
            && n in s'.dbs.live && !s'.dbs.live[n].body.ready
            && s'.dbs.live[n].finalizers == s.dw.c.finalizers && s'.dbs.live[n].uid == s.dw.c.uid
            && s'.dbs.live[n].body == s.dw.c.body.(ready := false, misc := s'.dbs.live[n].body.misc)
  {
    CurrentIsAccepted(r, s);
  }

  /** Whatever a step adds to the Databases' history is newer than everything before. */
  lemma NewerOnly(r: Rules, s: Sys, step: Step)
    requires Copies(s) && Enabled(r, s, step)
    ensures var s' := Apply(r, s, step);
            && s.dbs.rev <= s'.dbs.rev
            && forall n, o :: (n, o) in s'.dbs.past && o.version <= s.dbs.rev ==> (n, o) in s.dbs.past
  {
    match step {
      case Database(d) => DbNewerOnly(r, s, d);
      case User(u) => UserNewerOnly(r, s, u);
      case _ => assert forall n :: n in s.dbs.live ==> (n, s.dbs.live[n]) in s.dbs.past;
    }
  }

  ghost predicate Newer(dbs: Store<DbBody>, dbs': Store<DbBody>) {
    dbs.rev <= dbs'.rev && forall n, o :: (n, o) in dbs'.past && o.version <= dbs.rev ==> (n, o) in dbs.past
  }

  lemma PutIsNewer(dbs: Store<DbBody>, n: string, fs: seq<string>, b: DbBody)
    requires Valid(dbs) && n in dbs.live
    ensures Newer(dbs, Put(dbs, n, fs, b))
  {
    assert (n, dbs.live[n]) in dbs.past;
  }

  lemma UserNewerOnly(r: Rules, s: Sys, step: UserStep)
    requires Copies(s) && UserEnabled(r, s, step)
    ensures Newer(s.dbs, UserApply(r, s, step).dbs)
  {
    if step.UAddToDb? && s.uw.u.body.ref in s.dbs.live {
      PutIsNewer(s.dbs, s.uw.u.body.ref, Appended(s.uw.d.finalizers, UserFin(s.uw.n)), s.uw.d.body);
    }
    if step.UOffDb? && s.uw.u.body.ref in s.dbs.live {
      PutIsNewer(s.dbs, s.uw.u.body.ref, Removed(s.uw.d.finalizers, UserFin(s.uw.n)), s.uw.d.body);
    }
  }

  lemma DbNewerOnly(r: Rules, s: Sys, step: DbStep)
    requires Copies(s) && DbEnabled(r, s, step)
    ensures Newer(s.dbs, DbApply(r, s, step).dbs)
  {
    if !s.dw.DIdle? && s.dw.n in s.dbs.live {
      forall fs, b
        ensures Newer(s.dbs, Put(s.dbs, s.dw.n, fs, b))
      {
        PutIsNewer(s.dbs, s.dw.n, fs, b);
      }
    }
  }

  lemma {:induction false} RunNewerOnly(r: Rules, s: Sys, steps: seq<Step>)
    requires Inv(r, s) && Legal(r, s, steps)
    ensures var t := Run(r, s, steps);
            && s.dbs.rev <= t.dbs.rev
            && forall n, o :: (n, o) in t.dbs.past && o.version <= s.dbs.rev ==> (n, o) in s.dbs.past
    decreases steps
  {
    if steps != [] {
      NewerOnly(r, s, steps[0]);
      StepKeepsInv(r, s, steps[0]);
      RunNewerOnly(r, Apply(r, s, steps[0]), steps[1..]);
    }
  }

  /** A later pass that has read the stored version has read the stored Database. */
  lemma {:induction false} LaterReadIsSame(r: Rules, s: Sys, later: seq<Step>, n: string)
    requires Inv(r, s) && Legal(r, s, later) && n in s.dbs.live
    ensures var t := Run(r, s, later);
            !t.dw.DIdle? && t.dw.n == n && t.dw.c.version == s.dbs.live[n].version ==> t.dw.c == s.dbs.live[n]
  {
    RunKeepsInv(r, s, later);
    RunNewerOnly(r, s, later);
    SameVersionIsSame(s, Run(r, s, later), n);
  }

  lemma SameVersionIsSame(s: Sys, t: Sys, n: string)
    requires Copies(s) && Copies(t) && n in s.dbs.live
    requires forall m, o :: (m, o) in t.dbs.past && o.version <= s.dbs.rev ==> (m, o) in s.dbs.past
    ensures !t.dw.DIdle? && t.dw.n == n && t.dw.c.version == s.dbs.live[n].version ==> t.dw.c == s.dbs.live[n]
  {
    assert (n, s.dbs.live[n]) in s.dbs.past;
  }

  /** A copy that is not ready is not skipped. */
  ghost predicate GoesFull(r: Rules, t: Sys, healthy: bool, secret: SecretRead)
    requires DbEnabled(r, t, DDecide(healthy, secret))
  {
    && !DbApply(r, t, DDecide(healthy, secret)).dw.DReady?
    && (!t.dw.c.body.force ==> DbApply(r, t, DDecide(healthy, secret)).dw.DFull?)
  }

  lemma UnreadyGoesFull(r: Rules, t: Sys, healthy: bool, secret: SecretRead)
    requires DbEnabled(r, t, DDecide(healthy, secret)) && !t.dw.c.body.ready
    ensures GoesFull(r, t, healthy, secret)
  {
  }

  /** The step is a pass's decision, on the copy of `n` with this version. */
  ghost predicate ReadsVersion(r: Rules, t: Sys, n: string, version: nat, step: DbStep) {
    DbEnabled(r, t, step) && step.DDecide? && t.dw.n == n && t.dw.c.version == version
  }

  /**
   A failed pass is retried: once its status write has gone through, over any continuation, no
   pass that reads the version it left skips the SQL work.
   */
  lemma {:induction false} FailedPassIsRetried(r: Rules, s: Sys, step: DbStep, later: seq<Step>, healthy: bool,
                                               secret: SecretRead)
    requires Reachable(r, s) && DbEnabled(r, s, step) && TakesBack(step) && Current(s)
    requires Legal(r, DbApply(r, s, step), later)
    ensures var s' := DbApply(r, s, step);
            var t := Run(r, s', later);
            && s.dw.n in s'.dbs.live
            && (ReadsVersion(r, t, s.dw.n, s'.dbs.live[s.dw.n].version, DDecide(healthy, secret)) ==>
                  GoesFull(r, t, healthy, secret))
  {
    var s', n := DbApply(r, s, step), s.dw.n;
    assert n in s'.dbs.live && !s'.dbs.live[n].body.ready by {
      FailedPassIsNotReady(r, s, step);
    }
    assert Inv(r, s') by {
      ReachableInv(r, s);
      StepKeepsInv(r, s, Database(step));
    }
    LaterReadIsSame(r, s', later, n);
    var t := Run(r, s', later);
    if DbEnabled(r, t, DDecide(healthy, secret)) && !t.dw.c.body.ready {
      UnreadyGoesFull(r, t, healthy, secret);
    }
  }

  /**
   A forced pass that stops after the annotation is off: the work it was to do is skipped by the next
   pass exactly if the status write did not get through and the Database is otherwise up to date.
   */
  lemma ForcedWorkIsLostIff(r: Rules, s: Sys, write: bool, misc: nat, healthy: bool, secret: SecretRead)
    requires Reachable(r, s) && s.dw.DFull? && Current(s) && !s.dw.c.body.force && !s.dw.c.marked
    ensures var s' := DbApply(r, s, DStop(write, misc));
            && s.dw.n in s'.dbs.live
            && var next := s'.(dw := DHave(s.dw.n, s'.dbs.live[s.dw.n]));
               && DbEnabled(r, next, DDecide(healthy, secret))
               && (DbApply(r, next, DDecide(healthy, secret)).dw.DReady? <==>
                     !write && UpToDate(r, s.dw.c, healthy, secret))
  {
    CurrentIsAccepted(r, s);
  }

  // ---- Who starts what -------------------------------------------------------------------------------------

  /** A DbUser is torn down exactly if it is marked and carries its own finalizer. */
  lemma TeardownStartsIff(r: Rules, s: Sys, d: DbObj)
    requires UserEnabled(r, s, UGetDb(d))
    ensures var s' := UserApply(r, s, UGetDb(d));
            && (s'.uw.UDel? <==> s.uw.u.marked && UserFin(s.uw.n) in s.uw.u.finalizers)
            && (s'.uw.UDb? <==> !s.uw.u.marked)
            && (s'.uw.UIdle? <==> s.uw.u.marked && UserFin(s.uw.n) !in s.uw.u.finalizers)
            && s' == s.(uw := s'.uw)
  {
  }

  /** A marked Database goes on to be dropped exactly if nothing holds it back and its own finalizer is on. */
  lemma DropStartsIff(r: Rules, s: Sys)
    requires s.dw.DHave?
    ensures DbEnabled(r, s, DGuard) <==> s.dw.c.marked && !AnyContains(s.dw.c.finalizers, "dbuser.")
    ensures DbEnabled(r, s, DGuard) ==>
              (DbApply(r, s, DGuard).dw.DDrop? <==> DbFin(s.dw.n) in s.dw.c.finalizers) &&
              (DbApply(r, s, DGuard).dw.DTail? <==> DbFin(s.dw.n) !in s.dw.c.finalizers)
  {
  }

  /** The server side of a DbUser waits for its Database, and for a role that is there or not, as the case may be. */
  lemma UserSqlIff(r: Rules, s: Sys)
    requires s.uw.UDb?
    ensures UserEnabled(r, s, USql) <==>
              && s.uw.d.body.ready
              && (s.uw.u.body.existing
                  || (s.uw.u.body.created && r.roleName(s.uw.n) in s.roles)
                  || (!s.uw.u.body.created && r.roleName(s.uw.n) !in s.roles))
    ensures UserEnabled(r, s, USql) ==>
              (UserApply(r, s, USql).uw.UKept? <==> s.uw.u.body.created && !s.uw.u.body.existing)
  {
  }

  // ---- Who changes what on the server ------------------------------------------------------------------------

  /** The DbUser controller makes a role only for a new DbUser and drops one only for a DbUser of its own. */
  lemma UserStepsOnRoles(r: Rules, s: Sys, step: UserStep)
    requires UserEnabled(r, s, step)
    ensures var s' := UserApply(r, s, step);
            && s'.sqlDbs == s.sqlDbs
            && s'.roles ==
                 if step.USql? && !s.uw.u.body.existing && !s.uw.u.body.created then s.roles + {r.roleName(s.uw.n)}
                 else if step.UDropRole? && !step.refused && !s.uw.u.body.existing then s.roles - {r.roleName(s.uw.n)}
                 else s.roles
  {
  }

  /** The Database controller changes the server in two steps, and a protected Database in one. */
  lemma DbStepsOnServer(r: Rules, s: Sys, step: DbStep)
    requires DbEnabled(r, s, step)
    ensures var s' := DbApply(r, s, step);
            && s'.sqlDbs ==
                 (if step.DCreateSql? then s.sqlDbs + {r.dbName(s.dw.n)}
                  else if step.DDropSql? && !s.dw.c.body.spec.protected then s.sqlDbs - {r.dbName(s.dw.n)}
                  else s.sqlDbs)
            && s'.roles ==
                 (if step.DCreateSql? && step.main then s.roles + {r.roleName(s.dw.n)}
                  else if step.DDropSql? && !s.dw.c.body.spec.protected && step.main && !step.refused
                  then s.roles - {r.roleName(s.dw.n)}
                  else s.roles)
  {
  }

  // ---- What is kept ------------------------------------------------------------------------------------------

  /** Once reported created, a DbUser stays so for life. */
  lemma CreatedIsKept(r: Rules, s: Sys, step: Step, n: string)
    requires Reachable(r, s) && Enabled(r, s, step) && n in s.users.live && s.users.live[n].body.created
    ensures var s' := Apply(r, s, step);
            n in s'.users.live && s'.users.live[n].uid == s.users.live[n].uid ==> s'.users.live[n].body.created
  {
    match step {
      case World(w) =>
      case User(u) =>
        assert Copies(s) by { ReachableInv(r, s); }
        UserKeepsCreated(r, s, u, n);
      case _ => OtherWorkersKeepUsers(r, s, step);
    }
  }

  lemma UserKeepsCreated(r: Rules, s: Sys, step: UserStep, n: string)
    requires Copies(s) && UserEnabled(r, s, step) && n in s.users.live && s.users.live[n].body.created
    ensures n in UserApply(r, s, step).users.live ==> UserApply(r, s, step).users.live[n].body.created
  {
    if !s.uw.UIdle? && s.uw.n == n && s.users.live[n].version == s.uw.u.version {
      assert Follows(s.uw.u, s.users.live[n]);
    }
  }
}
