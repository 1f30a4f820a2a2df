/**
 Stopping a DbUser's teardown anywhere and starting over reaches the same end, exactly when
 the Secret can be taken back.
 */
module TeardownTheorems {
  import opened Acl
  import opened Postgres
  import opened PostgresTheorems
  import opened PostgresCoverage
  import opened PostgresOwned
  import opened Finalizers
  import opened Labels
  import opened Options
  import opened Ownership
  import opened Teardown

  // ---- The setting -------------------------------------------------------------------------------------

  /** Entries that are the user's business and may go during its teardown. */
  predicate Touched(env: DeletionEnv, e: Entry) {
    var u := env.user.name;
    || PrivilegeOf(e, u) || e in Memberships(env.user, env.user.extra) || e == Member(u, env.admin)
    || (!env.existing && e.Member? && (e.of == u || e.role == u))
  }

  function Residue(env: DeletionEnv, acl: set<Entry>): set<Entry> {
    set e | e in acl && !Touched(env, e)
  }

  /**
   A user that owns nothing; without schemas, where nothing is granted or revoked, it holds
   nothing either; and a role the server does not know holds nothing.
   */
  ghost predicate Unpropertied(env: DeletionEnv, srv: Server) {
    && env.user.access != MAIN && env.user.name != env.admin
    && (Schemas(env.c) == [] ==> NoPrivileges(srv, env.user.name))
    && OwnsNothing(srv, env.user.name)
    && (env.user.name !in srv.roles ==> Residue(env, srv.acl) == srv.acl)
  }

  /** Nobody else has the Secret. */
  predicate Takeable(env: DeletionEnv, ls: Labels) {
    Paired(ls) && (IsUsedByAny(ls) ==> IsUsedByCaller(ls, env.caller))
  }

  /** The Secret can be taken back on every attempt. */
  predicate Recoverable(env: DeletionEnv, s: State) {
    s.secret.None? || (s.configMap && env.parses && Takeable(env, s.secret.value.labels))
  }

  // ---- The end, and the way there ------------------------------------------------------------------------

  predicate SecretDone(env: DeletionEnv, before: Option<Body>, after: Option<Body>) {
    if before.None? then after.None?
    else after == Some(Body(Unclaimed(before.value.labels), Owned(before.value.owners, env.caller), before.value.data))
  }

  /** A dropped role leaves no trace; a user that was there before keeps its role but no rights. */
  predicate RightsDone(env: DeletionEnv, before: Server, after: Server) {
    if env.existing
    then
      && after == before.(acl := after.acl)
      && Residue(env, before.acl) <= after.acl <= Residue(env, before.acl) + {Member(env.user.name, env.admin)}
    else after == before.(acl := Residue(env, before.acl), roles := before.roles - {env.user.name})
  }

  predicate Done(env: DeletionEnv, before: State, after: State) {
    && SecretDone(env, before.secret, after.secret) && RightsDone(env, before.srv, after.srv)
    && after.configMap == before.configMap
    && after.dbFins == Removed(before.dbFins, env.fin) && after.userFins == Removed(before.userFins, env.fin)
  }

  predicate SecretOnTheWay(env: DeletionEnv, before: Option<Body>, now: Option<Body>) {
    && before.Some? == now.Some?
    && (before.Some? ==>
          && Unclaimed(now.value.labels) == Unclaimed(before.value.labels) && Takeable(env, now.value.labels)
          && Owned(now.value.owners, env.caller) == Owned(before.value.owners, env.caller)
          && now.value.data == before.value.data)
  }

  predicate RightsOnTheWay(env: DeletionEnv, before: Server, now: Server) {
    && Residue(env, now.acl) == Residue(env, before.acl)
    && now == Server(now.acl, before.tables, before.seqs, now.roles)
    && (now.roles == before.roles || (!env.existing && now.roles == before.roles - {env.user.name}))
  }

  ghost predicate OnTheWay(env: DeletionEnv, before: State, now: State) {
    && SecretOnTheWay(env, before.secret, now.secret)
    && RightsOnTheWay(env, before.srv, now.srv) && Unpropertied(env, now.srv)
    && now.configMap == before.configMap
    && Removed(now.dbFins, env.fin) == Removed(before.dbFins, env.fin)
    && now.userFins == before.userFins
  }

  // ---- The Secret ----------------------------------------------------------------------------------------

  lemma UnclaimedClaimed(ls: Labels, c: Caller)
    requires Paired(ls) && !IsUsedByAny(ls)
    ensures Unclaimed(Claimed(ls, c)) == Unclaimed(ls) && Unclaimed(ls) == ls
  {
  }

  /** Putting the Secret in order: on the way whatever fails, and the caller's own in the end. */
  lemma UpdateStays(env: DeletionEnv, b: Body, faults: seq<bool>)
    requires Takeable(env, b.labels)
    ensures var h := Updated(b, env.caller, faults);
            && SecretOnTheWay(env, Some(b), Some(h.body))
            && (h.ok ==> IsUsedByCaller(h.body.labels, env.caller) && h.body.owners == Owned(b.owners, env.caller))
            && (faults == [] ==> h.ok && h.faults == [])
  {
    if !IsUsedByAny(b.labels) {
      ReleaseUndoesClaim(b.labels, env.caller);
      UnclaimedClaimed(b.labels, env.caller);
    }
    OwnershipFollowsCleanup(b.owners, env.caller, env.caller);
  }

  lemma ReleaseStays(env: DeletionEnv, b: Body, faults: seq<bool>)
    requires Paired(b.labels) && IsUsedByCaller(b.labels, env.caller)
    ensures var h := Released(b, env.caller, faults);
            && SecretOnTheWay(env, Some(b), Some(h.body)) && h.body.owners == b.owners
            && (h.ok ==> h.body.labels == Unclaimed(b.labels))
            && (faults == [] ==> h.ok && h.faults == [])
  {
  }

  // ---- The role ------------------------------------------------------------------------------------------

  lemma RevokeStays(env: DeletionEnv, srv: Server, faults: seq<bool>)
    requires Unpropertied(env, srv)
    ensures var o := Revoke(env.c, env.admin, env.user, srv, faults);
            && RightsOnTheWay(env, srv, o.srv) && o.srv.roles == srv.roles && Unpropertied(env, o.srv)
            && (o.ok && env.existing ==> RightsDone(env, srv, o.srv))
            && (o.ok ==> NoPrivileges(o.srv, env.user.name))
            && (faults == [] ==> o.ok && o.faults == [])
  {
    if env.user.name in srv.roles {
      RevokeEffect(env.c, env.admin, env.user, srv, faults);
      NoFaultsRun(srv, RevokeCalls(env.c, env.admin, env.user));
    }
  }

  lemma DropStays(env: DeletionEnv, srv: Server, faults: seq<bool>)
    requires Unpropertied(env, srv) && !env.existing && NoPrivileges(srv, env.user.name)
    ensures var o := DropUser(env.user, srv, faults);
            && RightsOnTheWay(env, srv, o.srv) && Unpropertied(env, o.srv)
            && (o.ok ==> RightsDone(env, srv, o.srv))
            && (faults == [] ==> o.ok && o.faults == [])
  {
  }

  lemma DropRightsStays(env: DeletionEnv, s: State, faults: seq<bool>)
    requires Unpropertied(env, s.srv)
    ensures var r := DropRights(env, s, faults);
            && r.s == s.(srv := r.s.srv) && RightsOnTheWay(env, s.srv, r.s.srv) && Unpropertied(env, r.s.srv)
            && (r.ok ==> RightsDone(env, s.srv, r.s.srv))
            && (faults == [] ==> r.ok && r.faults == [])
  {
    RevokeStays(env, s.srv, faults);
    var o := Revoke(env.c, env.admin, env.user, s.srv, faults);
    if !env.existing && o.ok {
      DropStays(env, o.srv, o.faults);
    }
  }

  // ---- A whole attempt -----------------------------------------------------------------------------------

  lemma RightsChain(env: DeletionEnv, a: Server, b: Server, c: Server)
    requires RightsOnTheWay(env, a, b)
    ensures RightsOnTheWay(env, b, c) ==> RightsOnTheWay(env, a, c)
    ensures RightsDone(env, b, c) ==> RightsDone(env, a, c)
  {
  }

  /** An attempt that fails anywhere stays on the way; one that gets through arrives. */
  lemma AttemptStays(env: DeletionEnv, before: State, now: State, faults: seq<bool>)
    requires OnTheWay(env, before, now) && Recoverable(env, before) && env.fin in before.userFins
    ensures var r := Attempt(env, now, faults);
            && (if r.ok then Done(env, before, r.s) else OnTheWay(env, before, r.s))
            && (faults == [] ==> r.ok)
  {
    var r1 := Templated(env, now, Rest(faults));
    if !Fails(faults) {
      if now.secret.Some? && !Fails(Rest(faults)) {
        UpdateStays(env, now.secret.value, Rest(Rest(faults)));
      }
      assert OnTheWay(env, before, r1.s) && (faults == [] ==> r1.ok && r1.faults == []);
      if r1.ok {
        AttemptGoesOn(env, before, r1.s, r1.faults);
      }
    }
  }

  /** The Secret is the caller's own and in order. */
  predicate SecretReady(env: DeletionEnv, before: Option<Body>, now: Option<Body>) {
    now.Some? && before.Some? ==>
      IsUsedByCaller(now.value.labels, env.caller) && now.value.owners == Owned(before.value.owners, env.caller)
  }

  /** The same from the point where the Secret is in order. */
  lemma AttemptGoesOn(env: DeletionEnv, before: State, now: State, faults: seq<bool>)
    requires OnTheWay(env, before, now) && env.fin in before.userFins && SecretReady(env, before.secret, now.secret)
    ensures var r2 := DropRights(env, now, faults);
            var r3 := if r2.ok then ReleaseSecret(env, r2.s, r2.faults) else r2;
            var r := if r3.ok then Unguard(env, r3.s, r3.faults) else r3;
            && (if r.ok then Done(env, before, r.s) else OnTheWay(env, before, r.s))
            && (faults == [] ==> r.ok)
  {
    DropRightsStays(env, now, faults);
    var r2 := DropRights(env, now, faults);
    RightsChain(env, before.srv, now.srv, r2.s.srv);
    if r2.ok {
      ReleaseGoesOn(env, before, r2.s, r2.faults);
      var r3 := ReleaseSecret(env, r2.s, r2.faults);
      if r3.ok {
        UnguardEnds(env, before, r3.s, r3.faults);
      }
    }
  }

  lemma ReleaseGoesOn(env: DeletionEnv, before: State, now: State, faults: seq<bool>)
    requires OnTheWay(env, before, now) && SecretReady(env, before.secret, now.secret)
    ensures var r := ReleaseSecret(env, now, faults);
            && OnTheWay(env, before, r.s) && r.s == now.(secret := r.s.secret)
            && (r.ok ==> SecretDone(env, before.secret, r.s.secret))
            && (faults == [] ==> r.ok && r.faults == [])
  {
    if now.secret.Some? {
      ReleaseStays(env, now.secret.value, faults);
    }
  }

  lemma UnguardEnds(env: DeletionEnv, before: State, now: State, faults: seq<bool>)
    requires OnTheWay(env, before, now)
    requires SecretDone(env, before.secret, now.secret) && RightsDone(env, before.srv, now.srv)
    ensures var r := Unguard(env, now, faults);
            && (if r.ok then Done(env, before, r.s) else OnTheWay(env, before, r.s))
            && (faults == [] ==> r.ok)
  {
  }

  /** Attempts one after the other, each with its own faults. */
  function Attempts(env: DeletionEnv, s: State, runs: seq<seq<bool>>): State
    decreases |runs|
  {
    if runs == [] then s else Attempts(env, Attempt(env, s, runs[0]).s, runs[1..])
  }

  /** An undisturbed attempt after these succeeds. */
  predicate Finishes(env: DeletionEnv, s: State, runs: seq<seq<bool>>) { Attempt(env, Attempts(env, s, runs), []).ok }

  /** What it leaves. */
  function Final(env: DeletionEnv, s: State, runs: seq<seq<bool>>): State { Attempt(env, Attempts(env, s, runs), []).s }

  lemma {:induction false} AttemptsStay(env: DeletionEnv, before: State, now: State, runs: seq<seq<bool>>)
    requires OnTheWay(env, before, now) || Done(env, before, now)
    requires Recoverable(env, before) && env.fin in before.userFins
    ensures var s := Attempts(env, now, runs); OnTheWay(env, before, s) || Done(env, before, s)
    decreases |runs|
  {
    if runs != [] {
      if OnTheWay(env, before, now) {
        AttemptStays(env, before, now, runs[0]);
      }
      AttemptsStay(env, before, Attempt(env, now, runs[0]).s, runs[1..]);
    }
  }

  /** Retry safety for a user that owns nothing. */
  lemma UnpropertiedIsRetrySafe(env: DeletionEnv, s: State, runs: seq<seq<bool>>)
    requires Unpropertied(env, s.srv) && Recoverable(env, s) && env.fin in s.userFins
    ensures Finishes(env, s, runs) && Done(env, s, Final(env, s, runs))
  {
    assert OnTheWay(env, s, s);
    AttemptsStay(env, s, s, runs);
    var t := Attempts(env, s, runs);
    if OnTheWay(env, s, t) {
      AttemptStays(env, s, t, []);
    }
  }

  // ---- When the Secret cannot be taken back ----------------------------------------------------------------

  /** The Secret is somebody else's, unreadable, or released with no ConfigMap to bring it back. */
  predicate Irrecoverable(env: DeletionEnv, s: State) {
    && env.fin in s.userFins && s.secret.Some?
    && var ls := s.secret.value.labels;
       if s.configMap then !env.parses || (IsUsedByAny(ls) && !IsUsedByCaller(ls, env.caller))
       else !IsUsedByCaller(ls, env.caller)
  }

  lemma {:induction false} IrrecoverableForGood(env: DeletionEnv, s: State, runs: seq<seq<bool>>, faults: seq<bool>)
    requires Irrecoverable(env, s)
    ensures var t := Attempts(env, s, runs);
            !Attempt(env, t, faults).ok && t.secret == s.secret && t.userFins == s.userFins && t.dbFins == s.dbFins
    decreases |runs|
  {
    if runs != [] {
      IrrecoverableForGood(env, Attempt(env, s, runs[0]).s, runs[1..], faults);
    }
  }

  function Zeros(n: nat): seq<bool> {
    if n == 0 then [] else [false] + Zeros(n - 1)
  }

  lemma {:induction false} ZerosRun(srv: Server, calls: seq<Call>, more: seq<bool>)
    ensures var o := RunCalls(srv, calls, Zeros(|calls|) + more); o.ok && o.faults == more
    decreases |calls|
  {
    if calls != [] {
      var faults := Zeros(|calls|) + more;
      assert faults == [false] + (Zeros(|calls[1..]|) + more);
      assert !Fails(faults) && Rest(faults) == Zeros(|calls[1..]|) + more;
      ZerosRun(Exec(srv, calls[0].stmt), calls[1..], more);
    } else {
      assert Zeros(0) + more == more;
    }
  }

  /** The faults under which everything on the server goes through and the rest of them is left. */
  lemma RightsGoThrough(env: DeletionEnv, s: State, more: seq<bool>) returns (faults: seq<bool>)
    requires Unpropertied(env, s.srv)
    ensures var r := DropRights(env, s, faults); r.ok && r.faults == more
  {
    if env.user.name !in s.srv.roles {
      faults := more;
    } else {
      var calls := RevokeCalls(env.c, env.admin, env.user);
      var last := if env.existing then more else [false] + more;
      faults := Zeros(|calls|) + last;
      ZerosRun(s.srv, calls, last);
      var o := Revoke(env.c, env.admin, env.user, s.srv, faults);
      assert !env.existing ==> Rest(last) == more && !Fails(last);
      RevokeStays(env, s.srv, faults);
    }
  }

  lemma RightsSucceed(env: DeletionEnv, s: State)
    ensures var r := DropRights(env, s, []);
            r.ok && r.faults == [] && r.s == s.(srv := r.s.srv)
  {
    NoFaultsRun(s.srv, RevokeCalls(env.c, env.admin, env.user));
  }

  /** Putting the Secret in order and releasing it later, with nothing failing. */
  lemma SecretSucceedsIff(env: DeletionEnv, s: State, srv: Server)
    requires env.caller.name != "" && (s.secret.Some? ==> Paired(s.secret.value.labels))
    ensures var r := Templated(env, s, []);
            && r.s == s.(secret := r.s.secret) && r.faults == []
            && (r.ok && ReleaseSecret(env, r.s.(srv := srv), []).ok <==>
                  || s.secret.None?
                  || (!s.configMap && IsUsedByCaller(s.secret.value.labels, env.caller))
                  || (&& s.configMap && env.parses
                      && (IsUsedByCaller(s.secret.value.labels, env.caller) || !IsUsedByAny(s.secret.value.labels))))
  {
    if s.secret.Some? && !IsUsedByAny(s.secret.value.labels) {
      ReleaseUndoesClaim(s.secret.value.labels, env.caller);
    }
  }

  /**
   An undisturbed attempt on its own. It succeeds exactly if there is nothing to do, or there is no
   Secret, or the Secret is the DbUser's or, with the ConfigMap there, readable and free or its own.
   Without the ConfigMap that is enough for one attempt, though not for another one after it.
   */
  lemma AttemptSucceedsIff(env: DeletionEnv, s: State)
    requires env.caller.name != "" && (s.secret.Some? ==> Paired(s.secret.value.labels))
    ensures Attempt(env, s, []).ok <==>
              || env.fin !in s.userFins || s.secret.None?
              || (!s.configMap && IsUsedByCaller(s.secret.value.labels, env.caller))
              || (&& s.configMap && env.parses
                  && (IsUsedByCaller(s.secret.value.labels, env.caller) || !IsUsedByAny(s.secret.value.labels)))
    ensures Attempt(env, s, []).ok ==> env.fin !in Attempt(env, s, []).s.userFins
  {
    var r1 := Templated(env, s, []);
    RightsSucceed(env, r1.s);
    var r2 := DropRights(env, r1.s, []);
    SecretSucceedsIff(env, s, r2.s.srv);
    var r3 := ReleaseSecret(env, r2.s, []);
    assert r3.faults == [] && r3.s.userFins == s.userFins;
  }

  /** Without the ConfigMap, a failure right after the release of the Secret is one too many. */
  lemma ReleasedTooEarly(env: DeletionEnv, s: State) returns (faults: seq<bool>)
    requires Unpropertied(env, s.srv) && env.fin in s.userFins && env.caller.name != ""
    requires s.secret.Some? && !s.configMap && IsUsedByCaller(s.secret.value.labels, env.caller)
    ensures Irrecoverable(env, Attempt(env, s, faults).s)
  {
    var f := RightsGoThrough(env, s, [false, false, true]);
    faults := [false, false] + f;
    assert Rest(faults) == [false] + f && Rest(Rest(faults)) == f;
    assert Templated(env, s, Rest(faults)) == Report(s, f, true);
    var r := DropRights(env, s, f);
    assert Rest([false, false, true]) == [false, true] && Rest([false, true]) == [true];
  }

  lemma UnpropertiedRetrySafeIff(env: DeletionEnv, s: State)
    requires Unpropertied(env, s.srv) && env.fin in s.userFins && env.caller.name != ""
    requires s.secret.Some? ==> Paired(s.secret.value.labels)
    ensures Recoverable(env, s) <==> forall runs :: Finishes(env, s, runs)
  {
    if Recoverable(env, s) {
      forall runs
        ensures Finishes(env, s, runs)
      {
        UnpropertiedIsRetrySafe(env, s, runs);
      }
    } else if Irrecoverable(env, s) {
      IrrecoverableForGood(env, s, [], []);
      assert !Finishes(env, s, []);
    } else {
      var f := ReleasedTooEarly(env, s);
      IrrecoverableForGood(env, Attempt(env, s, f).s, [], []);
      assert Attempts(env, s, [f]) == Attempts(env, Attempt(env, s, f).s, []);
      assert !Finishes(env, s, [f]);
    }
  }

  // ---- A user with tables of its own -----------------------------------------------------------------------

  /**
   Any user but the main one. Without schemas nothing is revoked, so then nothing may stand in
   the way of dropping the role; and a role the server does not know has nothing.
   */
  ghost predicate Ordinary(env: DeletionEnv, srv: Server) {
    && env.user.access != MAIN && env.user.name != env.admin
    && (Schemas(env.c) == [] ==> !HasDependents(srv, env.user.name))
    && (env.user.name !in srv.roles ==> Residue(env, srv.acl) == srv.acl && Ownerless({env.user.name}, srv))
  }

  /** The state as if the user had never owned anything. */
  function Unowned(env: DeletionEnv, s: State): State { s.(srv := Trim({env.user.name}, s.srv)) }

  function UnownedReport(env: DeletionEnv, r: Report): Report { r.(s := Unowned(env, r.s)) }

  /** Where nothing is going to be dropped any more, there is nothing left to drop. */
  predicate Tidy(env: DeletionEnv, s: State) {
    Schemas(env.c) == [] || env.user.name !in s.srv.roles || env.fin !in s.userFins ==>
      Ownerless({env.user.name}, s.srv)
  }

  lemma OrdinaryUnowned(env: DeletionEnv, s: State)
    requires Ordinary(env, s.srv) && env.fin in s.userFins
    ensures Unpropertied(env, Unowned(env, s).srv) && Tidy(env, s)
  {
    OwnerlessMeans({env.user.name}, s.srv);
  }

  /** What the server does is the same with and without the user's own objects, which are gone in the end. */
  lemma DropRightsUnowned(env: DeletionEnv, s: State, faults: seq<bool>)
    requires env.user.access != MAIN && env.fin in s.userFins && Tidy(env, s)
    ensures var r := DropRights(env, s, faults);
            && DropRights(env, Unowned(env, s), faults) == UnownedReport(env, r)
            && Tidy(env, r.s) && (r.ok ==> Ownerless({env.user.name}, r.s.srv))
  {
    var u := {env.user.name};
    RevokeTrims(u, env.c, env.admin, env.user, s.srv, faults);
    var o := Revoke(env.c, env.admin, env.user, s.srv, faults);
    if o.ok && env.user.name in s.srv.roles && Schemas(env.c) != [] {
      RevokeLeavesNothing(env.c, env.admin, env.user, s.srv, faults);
    }
    assert o.ok ==> Ownerless(u, o.srv);
    RevokeKeepsRoles(env.c, env.admin, env.user, s.srv, faults);
    ExecTrims(u, o.srv, DropRole(env.user.name));
  }

  /** The other parts of an attempt do not look at the server at all. */
  lemma PartsUnowned(env: DeletionEnv, s: State, faults: seq<bool>)
    ensures Templated(env, Unowned(env, s), faults) == UnownedReport(env, Templated(env, s, faults))
    ensures ReleaseSecret(env, Unowned(env, s), faults) == UnownedReport(env, ReleaseSecret(env, s, faults))
    ensures Unguard(env, Unowned(env, s), faults) == UnownedReport(env, Unguard(env, s, faults))
    ensures Templated(env, s, faults).s.srv == s.srv && Templated(env, s, faults).s.userFins == s.userFins
    ensures ReleaseSecret(env, s, faults).s.srv == s.srv && ReleaseSecret(env, s, faults).s.userFins == s.userFins
    ensures Unguard(env, s, faults).s.srv == s.srv
  {
  }

  /** From the server on. */
  function Remainder(env: DeletionEnv, s: State, faults: seq<bool>): Report {
    var r2 := DropRights(env, s, faults);
    var r3 := if r2.ok then ReleaseSecret(env, r2.s, r2.faults) else r2;
    if r3.ok then Unguard(env, r3.s, r3.faults) else r3
  }

  lemma RemainderUnowned(env: DeletionEnv, s: State, faults: seq<bool>)
    requires env.user.access != MAIN && env.fin in s.userFins && Tidy(env, s)
    ensures Remainder(env, Unowned(env, s), faults) == UnownedReport(env, Remainder(env, s, faults))
    ensures Tidy(env, Remainder(env, s, faults).s)
  {
    DropRightsUnowned(env, s, faults);
    var r2 := DropRights(env, s, faults);
    if r2.ok {
      PartsUnowned(env, r2.s, r2.faults);
      var r3 := ReleaseSecret(env, r2.s, r2.faults);
      PartsUnowned(env, r3.s, r3.faults);
    }
  }

  lemma AttemptUnowned(env: DeletionEnv, s: State, faults: seq<bool>)
    requires env.user.access != MAIN && Tidy(env, s)
    ensures Attempt(env, Unowned(env, s), faults) == UnownedReport(env, Attempt(env, s, faults))
    ensures Tidy(env, Attempt(env, s, faults).s)
  {
    PartsUnowned(env, s, Rest(faults));
    var r := Templated(env, s, Rest(faults));
    if env.fin in s.userFins && !Fails(faults) && r.ok {
      RemainderUnowned(env, r.s, r.faults);
      assert Attempt(env, s, faults) == Remainder(env, r.s, r.faults);
      assert Attempt(env, Unowned(env, s), faults) == Remainder(env, Unowned(env, r.s), r.faults);
    }
  }

  lemma {:induction false} AttemptsUnowned(env: DeletionEnv, s: State, runs: seq<seq<bool>>)
    requires env.user.access != MAIN && Tidy(env, s)
    ensures Attempts(env, Unowned(env, s), runs) == Unowned(env, Attempts(env, s, runs))
    ensures Tidy(env, Attempts(env, s, runs))
    decreases |runs|
  {
    if runs != [] {
      AttemptUnowned(env, s, runs[0]);
      AttemptsUnowned(env, Attempt(env, s, runs[0]).s, runs[1..]);
    }
  }

  /** Attempts that succeed without the user's own objects succeed with them, and end the same. */
  lemma FinalUnowned(env: DeletionEnv, s: State, runs: seq<seq<bool>>)
    requires env.user.access != MAIN && Tidy(env, s)
    ensures Finishes(env, s, runs) == Finishes(env, Unowned(env, s), runs)
    ensures Final(env, Unowned(env, s), runs) == Unowned(env, Final(env, s, runs))
    ensures Tidy(env, Final(env, s, runs))
  {
    AttemptsUnowned(env, s, runs);
    AttemptUnowned(env, Attempts(env, s, runs), []);
  }

  /**
   Teardown is retry-safe: after any number of attempts that stopped anywhere, an undisturbed
   one succeeds, and it ends as if it had been the only one. The role, all its rights and
   everything it owned are gone (for a user that was there before, all but the role), the Secret
   is released and the finalizer is off both objects.
   */
  lemma TeardownIsRetrySafe(env: DeletionEnv, s: State, runs: seq<seq<bool>>)
    requires Ordinary(env, s.srv) && Recoverable(env, s) && env.fin in s.userFins
    ensures Finishes(env, s, runs) && Done(env, Unowned(env, s), Final(env, s, runs))
    ensures !env.existing ==> Final(env, s, runs) == Final(env, s, [])
  {
    OrdinaryUnowned(env, s);
    forall rs
      ensures Finishes(env, s, rs) && Done(env, Unowned(env, s), Final(env, s, rs))
    {
      FinalUnowned(env, s, rs);
      UnpropertiedIsRetrySafe(env, Unowned(env, s), rs);
    }
    DoneIsUnique(env, Unowned(env, s), Final(env, s, runs), Final(env, s, []));
  }

  lemma DoneIsUnique(env: DeletionEnv, before: State, a: State, b: State)
    requires Done(env, before, a) && Done(env, before, b)
    ensures !env.existing ==> a == b
  {
  }

  /** Every history of interrupted attempts can be finished if and only if the Secret is recoverable. */
  lemma RetrySafeIff(env: DeletionEnv, s: State)
    requires Ordinary(env, s.srv) && env.fin in s.userFins && env.caller.name != ""
    requires s.secret.Some? ==> Paired(s.secret.value.labels)
    ensures Recoverable(env, s) <==> forall runs :: Finishes(env, s, runs)
  {
    OrdinaryUnowned(env, s);
    UnpropertiedRetrySafeIff(env, Unowned(env, s));
    forall runs
      ensures Finishes(env, s, runs) == Finishes(env, Unowned(env, s), runs)
    {
      FinalUnowned(env, s, runs);
    }
  }
}
