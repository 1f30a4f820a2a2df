/**
 The extra-grant part of createDatabase: grants recorded in status but no longer in the spec
 are revoked, grants in the spec but not in status are set, and then status is brought up
 to date. Any call may fail, and then the pass is retried from the start.
 */
module ExtraGrants {
  import opened Acl
  import opened Postgres
  import opened PostgresTheorems
  import opened PostgresCoverage
  import opened PostgresOwned

  datatype Grant = Grant(user: string, access: string)

  datatype GrantEnv = GrantEnv(c: Config, admin: string, grantToAdmin: bool, grantOnDelete: bool)

  function AsUser(env: GrantEnv, g: Grant): DbUser {
    DbUser(g.user, g.access, [], env.grantToAdmin, env.grantOnDelete)
  }

  /** Grants are compared by user and access type. */
  method IsExtraGrant(g: Grant, gs: seq<Grant>) returns (r: bool)
    ensures r == (g in gs)
  {
    for i := 0 to |gs|
      invariant g !in gs[..i]
    {
      if gs[i].user == g.user && gs[i].access == g.access {
        return true;
      }
    }
    return false;
  }

  // ---- One pass --------------------------------------------------------------------------------------

  function RevokeLoop(env: GrantEnv, srv: Server, todo: seq<Grant>, spec: seq<Grant>, faults: seq<bool>): Outcome
    decreases |todo|
  {
    if todo == [] then Outcome(srv, faults, true)
    else if todo[0] in spec then RevokeLoop(env, srv, todo[1..], spec, faults)
    else
      var o := Revoke(env.c, env.admin, AsUser(env, todo[0]), srv, faults);
      if o.ok then RevokeLoop(env, o.srv, todo[1..], spec, o.faults) else o
  }

  function SetLoop(env: GrantEnv, srv: Server, todo: seq<Grant>, status: seq<Grant>, faults: seq<bool>): Outcome
    decreases |todo|
  {
    if todo == [] then Outcome(srv, faults, true)
    else if todo[0] in status then SetLoop(env, srv, todo[1..], status, faults)
    else
      var o := SetPermission(env.c, env.admin, AsUser(env, todo[0]), srv, faults);
      if o.ok then SetLoop(env, o.srv, todo[1..], status, o.faults) else o
  }

  datatype Pass = Pass(srv: Server, status: seq<Grant>, faults: seq<bool>, ok: bool)

  /** Both loops, then the status write. */
  function Diff(env: GrantEnv, allowed: bool, srv: Server, status: seq<Grant>, spec: seq<Grant>,
                faults: seq<bool>): Pass {
    if status != [] && !allowed then Pass(srv, status, faults, false)
    else
      var o1 := if allowed then RevokeLoop(env, srv, status, spec, faults) else Outcome(srv, faults, true);
      var o2 := if allowed && o1.ok then SetLoop(env, o1.srv, spec, status, o1.faults) else o1;
      if !o2.ok then Pass(o2.srv, status, o2.faults, false)
      else if Fails(o2.faults) then Pass(o2.srv, status, Rest(o2.faults), false)
      else Pass(o2.srv, spec, Rest(o2.faults), true)
  }

  class DatabaseGrants {
    const server: PgServer
    var status: seq<Grant>

    constructor (server: PgServer, status: seq<Grant>)
      ensures this.server == server && this.status == status
    {
      this.server := server;
      this.status := status;
    }

    method RevokeObsolete(env: GrantEnv, spec: seq<Grant>) returns (ok: bool)
      modifies server
      ensures Outcome(server.srv, server.faults, ok) ==
                RevokeLoop(env, old(server.srv), status, spec, old(server.faults))
    {
      for i := 0 to |status|
        invariant RevokeLoop(env, old(server.srv), status, spec, old(server.faults)) ==
                    RevokeLoop(env, server.srv, status[i..], spec, server.faults)
      {
        assert status[i..][1..] == status[i + 1..];
        var wanted := IsExtraGrant(status[i], spec);
        if !wanted {
          ok := server.RevokePermissions(env.c, env.admin, AsUser(env, status[i]));
          if !ok { return; }
        }
      }
      return true;
    }

    method SetMissing(env: GrantEnv, spec: seq<Grant>) returns (ok: bool)
      modifies server
      ensures Outcome(server.srv, server.faults, ok) == SetLoop(env, old(server.srv), spec, status, old(server.faults))
    {
      for i := 0 to |spec|
        invariant SetLoop(env, old(server.srv), spec, status, old(server.faults)) ==
                    SetLoop(env, server.srv, spec[i..], status, server.faults)
      {
        assert spec[i..][1..] == spec[i + 1..];
        var present := IsExtraGrant(spec[i], status);
        if !present {
          ok := server.SetUserPermission(env.c, env.admin, AsUser(env, spec[i]));
          if !ok { return; }
        }
      }
      return true;
    }

    method Reconcile(env: GrantEnv, allowed: bool, spec: seq<Grant>) returns (ok: bool)
      modifies this, server
      ensures Pass(server.srv, status, server.faults, ok) ==
                Diff(env, allowed, old(server.srv), old(status), spec, old(server.faults))
    {
      if |status| > 0 && !allowed {
        return false;
      }
      if allowed {
        ok := RevokeObsolete(env, spec);
        if !ok { return; }
        ok := SetMissing(env, spec);
        if !ok { return; }
      }
      ok := !Fails(server.faults);
      server.faults := Rest(server.faults);
      if ok {
        status := spec;
      }
    }
  }

  // ---- The setting -------------------------------------------------------------------------------------

  /** One entry per user, readOnly or readWrite. */
  ghost predicate OnePerUser(gs: seq<Grant>) {
    && (forall g, h :: g in gs && h in gs && g.user == h.user ==> g == h)
    && (forall g :: g in gs ==> g.access == READ_ONLY || g.access == READ_WRITE)
  }

  /** Users the server knows that hold nothing and are not the operator's own. */
  ghost predicate Guests(env: GrantEnv, base: Server, gs: seq<Grant>) {
    forall g :: g in gs ==>
      g.user in base.roles && g.user != env.admin && g.user != env.c.mainUser && NoPrivileges(base, g.user)
  }

  /** Those whose grant is to be revoked own nothing, where there is a schema to revoke it on. */
  ghost predicate Bare(env: GrantEnv, base: Server, status: seq<Grant>, spec: seq<Grant>) {
    Schemas(env.c) != [] ==> forall g :: g in status && g !in spec ==> OwnsNothing(base, g.user)
  }

  ghost predicate Setting(env: GrantEnv, base: Server, status: seq<Grant>, spec: seq<Grant>) {
    OnePerUser(status) && OnePerUser(spec) && Guests(env, base, status) && Guests(env, base, spec)
  }

  /** Membership of the admin in somebody; granted on the way and never revoked. */
  predicate AdminMember(env: GrantEnv, e: Entry) { e.Member? && e.role == env.admin }

  predicate GrantEntry(env: GrantEnv, base: Server, g: Grant, e: Entry) {
    exists s :: s in Schemas(env.c) && SchemaEntry(env.c, AsUser(env, g), base, s, e)
  }

  ghost predicate Grants(env: GrantEnv, base: Server, gs: seq<Grant>, e: Entry) {
    exists g :: g in gs && GrantEntry(env, base, g, e)
  }

  /** Apart from the admin's memberships, the server holds `base` and exactly the grants `gs`. */
  ghost predicate Matches(env: GrantEnv, base: Server, srv: Server, gs: seq<Grant>) {
    && srv == base.(acl := srv.acl)
    && forall e :: !AdminMember(env, e) ==> (e in srv.acl <==> e in base.acl || Grants(env, base, gs, e))
  }

  // ---- On the way ----------------------------------------------------------------------------------------

  /** Some user's extra grant. */
  ghost predicate GrantLike(env: GrantEnv, base: Server, e: Entry) {
    exists g :: GrantEntry(env, base, g, e)
  }

  /** `base` and any number of pieces of extra grants, whoever they were for. */
  ghost predicate Origin(env: GrantEnv, base: Server, srv: Server) {
    && srv == base.(acl := srv.acl)
    && (forall e :: e in base.acl && !AdminMember(env, e) ==> e in srv.acl)
    && (forall e :: e in srv.acl && !AdminMember(env, e) ==> e in base.acl || GrantLike(env, base, e))
  }

  /** A recorded grant of this user is to be revoked. */
  ghost predicate Obsolete(status: seq<Grant>, spec: seq<Grant>, u: string) {
    exists g :: g in status && g !in spec && g.user == u
  }

  /** The entry belongs to a user who is to be stripped. */
  ghost predicate Gone(status: seq<Grant>, spec: seq<Grant>, e: Entry) {
    !e.Member? && Obsolete(status, spec, e.role)
  }

  /** The entry is part of a grant that is to be set. */
  ghost predicate Due(env: GrantEnv, base: Server, status: seq<Grant>, spec: seq<Grant>, e: Entry) {
    exists g :: g in spec && g !in status && GrantEntry(env, base, g, e)
  }

  /** Nothing but what was there or is due, and all of what was there and is not to go. */
  ghost predicate OnTheWay(env: GrantEnv, base: Server, from: Server, srv: Server, status: seq<Grant>,
                           spec: seq<Grant>) {
    && srv == base.(acl := srv.acl)
    && (forall e :: e in srv.acl && !AdminMember(env, e) ==> e in from.acl || Due(env, base, status, spec, e))
    && (forall e :: e in from.acl && !AdminMember(env, e) && !Gone(status, spec, e) ==> e in srv.acl)
  }

  /** Nothing is left that is to go. */
  ghost predicate Pruned(env: GrantEnv, base: Server, from: Server, srv: Server, status: seq<Grant>, spec: seq<Grant>) {
    forall e :: e in srv.acl && !AdminMember(env, e) ==>
      (e in from.acl && !Gone(status, spec, e)) || Due(env, base, status, spec, e)
  }

  ghost predicate Arrived(env: GrantEnv, base: Server, from: Server, srv: Server, status: seq<Grant>,
                          spec: seq<Grant>) {
    && srv == base.(acl := srv.acl)
    && forall e :: !AdminMember(env, e) ==>
         (e in srv.acl <==> (e in from.acl && !Gone(status, spec, e)) || Due(env, base, status, spec, e))
  }

  lemma EntryBelongs(env: GrantEnv, base: Server, g: Grant, e: Entry)
    requires GrantEntry(env, base, g, e)
    ensures PrivilegeOf(e, g.user)
  {
  }

  // ---- One grant ---------------------------------------------------------------------------------------

  lemma SetEntries(env: GrantEnv, base: Server, srv: Server, g: Grant, faults: seq<bool>)
    requires (g.access == READ_ONLY || g.access == READ_WRITE) && srv == base.(acl := srv.acl)
    ensures var o := SetPermission(env.c, env.admin, AsUser(env, g), srv, faults);
            && o.srv == base.(acl := o.srv.acl) && srv.acl <= o.srv.acl
            && (forall e :: e in o.srv.acl && e !in srv.acl && !AdminMember(env, e) ==> GrantEntry(env, base, g, e))
            && (o.ok ==> forall e :: GrantEntry(env, base, g, e) ==> e in o.srv.acl)
  {
    var u := AsUser(env, g);
    SetPermissionAdds(env.c, env.admin, u, srv, faults);
    forall e
      ensures e in Gain(srv, GrantCalls(env.c, env.admin, u)) <==> GrantEntry(env, base, g, e)
    {
      FullGain(env.c, env.admin, u, srv, e);
      assert forall s :: SchemaEntry(env.c, u, srv, s, e) <==> SchemaEntry(env.c, u, base, s, e);
    }
  }

  lemma StillOwnsNothing(env: GrantEnv, base: Server, srv: Server, gs: seq<Grant>, g: Grant)
    requires Guests(env, base, gs) && Origin(env, base, srv) && g in gs && OwnsNothing(base, g.user)
    ensures OwnsNothing(srv, g.user)
  {
    forall e | e in srv.acl && OwnedDefault(e, g.user)
      ensures PrivilegeOf(e, g.user)
    {
      assert e in base.acl || GrantLike(env, base, e);
    }
  }

  lemma OnTheWayIsOrigin(env: GrantEnv, base: Server, from: Server, srv: Server, status: seq<Grant>, spec: seq<Grant>)
    requires Setting(env, base, status, spec) && Origin(env, base, from)
    requires OnTheWay(env, base, from, srv, status, spec)
    ensures Origin(env, base, srv)
  {
    forall e | e in base.acl && !AdminMember(env, e)
      ensures e in srv.acl
    {
      assert !Gone(status, spec, e);
    }
  }

  /** Revoking touches the privileges of its user and the admin's memberships only. */
  lemma RevokeEntries(env: GrantEnv, srv: Server, g: Grant, faults: seq<bool>)
    requires g.access != MAIN && g.user in srv.roles && g.user != env.admin
    requires Schemas(env.c) != [] ==> OwnsNothing(srv, g.user)
    ensures var o := Revoke(env.c, env.admin, AsUser(env, g), srv, faults);
            && o.srv == srv.(acl := o.srv.acl)
            && (forall e :: e in o.srv.acl && !AdminMember(env, e) ==> e in srv.acl)
            && (forall e :: e in srv.acl && !PrivilegeOf(e, g.user) ==> e in o.srv.acl)
            && (o.ok && Schemas(env.c) != [] ==> NoPrivileges(o.srv, g.user))
  {
    var u := AsUser(env, g);
    if Schemas(env.c) != [] {
      RevokeEffect(env.c, env.admin, u, srv, faults);
    } else {
      assert RevokeCalls(env.c, env.admin, u) == AdminOnDeleteCalls(env.admin, u);
      RunSingle(srv, Call(GrantRole(u.name, env.admin), false), faults);
    }
  }

  lemma RevokeStep(env: GrantEnv, base: Server, from: Server, srv: Server, status: seq<Grant>, spec: seq<Grant>,
                   g: Grant, faults: seq<bool>)
    requires Setting(env, base, status, spec) && Bare(env, base, status, spec) && Origin(env, base, from)
    requires OnTheWay(env, base, from, srv, status, spec) && g in status && g !in spec
    ensures var o := Revoke(env.c, env.admin, AsUser(env, g), srv, faults);
            && OnTheWay(env, base, from, o.srv, status, spec)
            && (forall e :: e in o.srv.acl && !AdminMember(env, e) ==> e in srv.acl)
            && (o.ok ==> NoPrivileges(o.srv, g.user))
  {
    var o := Revoke(env.c, env.admin, AsUser(env, g), srv, faults);
    OnTheWayIsOrigin(env, base, from, srv, status, spec);
    if Schemas(env.c) != [] {
      StillOwnsNothing(env, base, srv, status, g);
    }
    RevokeEntries(env, srv, g, faults);
    assert Obsolete(status, spec, g.user);
    if Schemas(env.c) == [] {
      assert forall e :: !GrantLike(env, base, e);
    }
  }

  lemma SetStep(env: GrantEnv, base: Server, from: Server, srv: Server, status: seq<Grant>, spec: seq<Grant>,
                g: Grant, faults: seq<bool>)
    requires Setting(env, base, status, spec) && OnTheWay(env, base, from, srv, status, spec)
    requires Pruned(env, base, from, srv, status, spec) && g in spec && g !in status
    ensures var o := SetPermission(env.c, env.admin, AsUser(env, g), srv, faults);
            && OnTheWay(env, base, from, o.srv, status, spec) && Pruned(env, base, from, o.srv, status, spec)
            && srv.acl <= o.srv.acl
            && (o.ok ==> forall e :: GrantEntry(env, base, g, e) ==> e in o.srv.acl)
  {
    SetEntries(env, base, srv, g, faults);
  }

  // ---- A whole pass ------------------------------------------------------------------------------------

  /** Of the users to be stripped, only those still on the list have anything. */
  ghost predicate LeftTo(env: GrantEnv, srv: Server, status: seq<Grant>, spec: seq<Grant>, todo: seq<Grant>) {
    forall e :: e in srv.acl && !AdminMember(env, e) && Gone(status, spec, e) ==> Obsolete(todo, spec, e.role)
  }

  lemma {:induction false} RevokeLoopGoes(env: GrantEnv, base: Server, from: Server, srv: Server, status: seq<Grant>,
                                          spec: seq<Grant>, todo: seq<Grant>, faults: seq<bool>)
    requires Setting(env, base, status, spec) && Bare(env, base, status, spec) && Origin(env, base, from)
    requires OnTheWay(env, base, from, srv, status, spec)
    requires (forall g :: g in todo ==> g in status) && LeftTo(env, srv, status, spec, todo)
    ensures var o := RevokeLoop(env, srv, todo, spec, faults);
            OnTheWay(env, base, from, o.srv, status, spec) && (o.ok ==> LeftTo(env, o.srv, status, spec, []))
    decreases |todo|
  {
    if todo != [] {
      var rest := todo[1..];
      forall u | Obsolete(todo, spec, u) && !(todo[0] !in spec && todo[0].user == u)
        ensures Obsolete(rest, spec, u)
      {
        var g :| g in todo && g !in spec && g.user == u;
        assert g in rest;
      }
      if todo[0] in spec {
        RevokeLoopGoes(env, base, from, srv, status, spec, rest, faults);
      } else {
        RevokeStep(env, base, from, srv, status, spec, todo[0], faults);
        var o := Revoke(env.c, env.admin, AsUser(env, todo[0]), srv, faults);
        if o.ok {
          RevokeLoopGoes(env, base, from, o.srv, status, spec, rest, o.faults);
        }
      }
    }
  }

  lemma {:induction false} SetLoopGoes(env: GrantEnv, base: Server, from: Server, srv: Server, status: seq<Grant>,
                                       spec: seq<Grant>, todo: seq<Grant>, faults: seq<bool>)
    requires Setting(env, base, status, spec) && OnTheWay(env, base, from, srv, status, spec)
    requires Pruned(env, base, from, srv, status, spec) && forall g :: g in todo ==> g in spec
    ensures var o := SetLoop(env, srv, todo, status, faults);
            && OnTheWay(env, base, from, o.srv, status, spec) && Pruned(env, base, from, o.srv, status, spec)
            && srv.acl <= o.srv.acl
            && (o.ok ==> forall g, e :: g in todo && g !in status && GrantEntry(env, base, g, e) ==> e in o.srv.acl)
    decreases |todo|
  {
    if todo != [] && todo[0] in status {
      SetLoopGoes(env, base, from, srv, status, spec, todo[1..], faults);
    } else if todo != [] {
      SetStep(env, base, from, srv, status, spec, todo[0], faults);
      var o := SetPermission(env.c, env.admin, AsUser(env, todo[0]), srv, faults);
      if o.ok {
        SetLoopGoes(env, base, from, o.srv, status, spec, todo[1..], o.faults);
      }
    }
  }

  /** A pass that fails anywhere stays on the way; one that gets through arrives. */
  lemma PassGoes(env: GrantEnv, base: Server, from: Server, srv: Server, status: seq<Grant>, spec: seq<Grant>,
                 faults: seq<bool>)
    requires Setting(env, base, status, spec) && Bare(env, base, status, spec) && Origin(env, base, from)
    requires OnTheWay(env, base, from, srv, status, spec)
    ensures var p := Diff(env, true, srv, status, spec, faults);
            if p.ok then p.status == spec && Arrived(env, base, from, p.srv, status, spec)
            else p.status == status && OnTheWay(env, base, from, p.srv, status, spec)
  {
    RevokeLoopGoes(env, base, from, srv, status, spec, status, faults);
    var o := RevokeLoop(env, srv, status, spec, faults);
    if o.ok {
      assert Pruned(env, base, from, o.srv, status, spec);
      SetLoopGoes(env, base, from, o.srv, status, spec, spec, o.faults);
    }
  }

  // ---- Any number of passes ----------------------------------------------------------------------------

  /** Passes on the same spec, each with its own faults. */
  function Retried(env: GrantEnv, srv: Server, status: seq<Grant>, spec: seq<Grant>, runs: seq<seq<bool>>): Pass
    decreases |runs|
  {
    if runs == [] then Pass(srv, status, [], false)
    else
      var p := Diff(env, true, srv, status, spec, runs[0]);
      var q := Retried(env, p.srv, p.status, spec, runs[1..]);
      q.(ok := p.ok || q.ok)
  }

  lemma {:induction false} RetriedGoes(env: GrantEnv, base: Server, from: Server, srv: Server, status: seq<Grant>,
                                       spec: seq<Grant>, runs: seq<seq<bool>>)
    requires Setting(env, base, status, spec) && Bare(env, base, status, spec) && Origin(env, base, from)
    requires OnTheWay(env, base, from, srv, status, spec)
    ensures var p := Retried(env, srv, status, spec, runs);
            if p.ok then p.status == spec && Arrived(env, base, from, p.srv, status, spec)
            else p.status == status && OnTheWay(env, base, from, p.srv, status, spec)
    decreases |runs|
  {
    if runs != [] {
      PassGoes(env, base, from, srv, status, spec, runs[0]);
      var p := Diff(env, true, srv, status, spec, runs[0]);
      if p.ok {
        RecordedIsNotRevisited(env, p.srv, spec, runs[1..]);
      } else {
        RetriedGoes(env, base, from, p.srv, status, spec, runs[1..]);
      }
    }
  }

  lemma {:induction false} NothingToDo(env: GrantEnv, srv: Server, gs: seq<Grant>, todo: seq<Grant>, faults: seq<bool>)
    requires forall g :: g in todo ==> g in gs
    ensures RevokeLoop(env, srv, todo, gs, faults) == Outcome(srv, faults, true)
    ensures SetLoop(env, srv, todo, gs, faults) == Outcome(srv, faults, true)
    decreases |todo|
  {
    if todo != [] {
      NothingToDo(env, srv, gs, todo[1..], faults);
    }
  }

  /** What is recorded is never looked at again: no later pass on that spec changes the server. */
  lemma {:induction false} RecordedIsNotRevisited(env: GrantEnv, srv: Server, spec: seq<Grant>, runs: seq<seq<bool>>)
    ensures Retried(env, srv, spec, spec, runs).srv == srv && Retried(env, srv, spec, spec, runs).status == spec
    decreases |runs|
  {
    if runs != [] {
      NothingToDo(env, srv, spec, spec, runs[0]);
      RecordedIsNotRevisited(env, srv, spec, runs[1..]);
    }
  }

  // ---- Exactly when the server ends up right -------------------------------------------------------------

  /**
   Before the pass, whoever is not going to be stripped has no more than the spec gives, and
   whoever is not going to be set, being recorded already, has all of it.
   */
  ghost predicate Repairable(env: GrantEnv, base: Server, srv: Server, status: seq<Grant>, spec: seq<Grant>) {
    && (forall e :: e in srv.acl && !AdminMember(env, e) && !Gone(status, spec, e) ==>
          e in base.acl || Grants(env, base, spec, e))
    && (forall g, e :: g in status && g in spec && GrantEntry(env, base, g, e) ==> e in srv.acl)
  }

  lemma ArrivedMatchesIff(env: GrantEnv, base: Server, from: Server, srv: Server, status: seq<Grant>, spec: seq<Grant>)
    requires Setting(env, base, status, spec) && Origin(env, base, from)
    requires Arrived(env, base, from, srv, status, spec)
    ensures Matches(env, base, srv, spec) <==> Repairable(env, base, from, status, spec)
  {
    forall g, e | g in spec && g in status && GrantEntry(env, base, g, e)
      ensures !AdminMember(env, e) && Grants(env, base, spec, e)
      ensures !Gone(status, spec, e) && !Due(env, base, status, spec, e)
    {
      EntryBelongs(env, base, g, e);
      DueBelongs(env, base, status, spec, e);
    }
    forall e | e in base.acl && !AdminMember(env, e)
      ensures e in from.acl && !Gone(status, spec, e)
    {
    }
    assert forall e :: Due(env, base, status, spec, e) ==> Grants(env, base, spec, e);
    assert forall e :: Grants(env, base, spec, e) ==>
      Due(env, base, status, spec, e) || exists g :: g in status && g in spec && GrantEntry(env, base, g, e);
  }

  lemma DueBelongs(env: GrantEnv, base: Server, status: seq<Grant>, spec: seq<Grant>, e: Entry)
    ensures Due(env, base, status, spec, e) ==> exists g :: g in spec && g !in status && PrivilegeOf(e, g.user)
  {
    if g :| g in spec && g !in status && GrantEntry(env, base, g, e) {
      EntryBelongs(env, base, g, e);
    }
  }

  lemma {:induction false} BareRepairedIff(env: GrantEnv, base: Server, srv: Server, status: seq<Grant>,
                                           spec: seq<Grant>, runs: seq<seq<bool>>)
    requires Setting(env, base, status, spec) && Bare(env, base, status, spec) && Origin(env, base, srv)
    requires Retried(env, srv, status, spec, runs).ok
    ensures var p := Retried(env, srv, status, spec, runs);
            p.status == spec && (Matches(env, base, p.srv, spec) <==> Repairable(env, base, srv, status, spec))
  {
    RetriedGoes(env, base, srv, srv, status, spec, runs);
    ArrivedMatchesIff(env, base, srv, Retried(env, srv, status, spec, runs).srv, status, spec);
  }

  lemma MatchingIsRepairable(env: GrantEnv, base: Server, srv: Server, status: seq<Grant>, spec: seq<Grant>)
    requires Setting(env, base, status, spec) && Matches(env, base, srv, status)
    ensures Origin(env, base, srv) && Repairable(env, base, srv, status, spec)
  {
    forall g, e | g in status && GrantEntry(env, base, g, e)
      ensures !AdminMember(env, e) && Grants(env, base, status, e) && (g !in spec ==> Gone(status, spec, e))
    {
      EntryBelongs(env, base, g, e);
    }
  }

  // ---- Users with tables of their own --------------------------------------------------------------------

  function Users(gs: seq<Grant>): set<string> { set g | g in gs :: g.user }

  /** The users whose recorded grant is to be revoked. */
  function Obsoletes(status: seq<Grant>, spec: seq<Grant>): set<string> {
    set g | g in status && g !in spec :: g.user
  }

  /** What a complete pass leaves of the server: not the tables and sequences of users it revokes a grant of. */
  function Left(env: GrantEnv, us: set<string>, srv: Server): Server {
    if Schemas(env.c) == [] then srv else Trim(us, srv)
  }

  function TrimmedPass(us: set<string>, p: Pass): Pass { p.(srv := Trim(us, p.srv)) }

  lemma {:induction false} LoopsTrim(env: GrantEnv, us: set<string>, srv: Server, todo: seq<Grant>, gs: seq<Grant>,
                                     faults: seq<bool>)
    requires env.c.mainUser !in us
    ensures RevokeLoop(env, Trim(us, srv), todo, gs, faults) == Trimmed(us, RevokeLoop(env, srv, todo, gs, faults))
    ensures SetLoop(env, Trim(us, srv), todo, gs, faults) == Trimmed(us, SetLoop(env, srv, todo, gs, faults))
    decreases |todo|
  {
    if todo != [] {
      var u := AsUser(env, todo[0]);
      RevokeTrims(us, env.c, env.admin, u, srv, faults);
      SetTrims(us, env.c, env.admin, u, srv, faults);
      var o, p := Revoke(env.c, env.admin, u, srv, faults), SetPermission(env.c, env.admin, u, srv, faults);
      LoopsTrim(env, us, srv, todo[1..], gs, faults);
      LoopsTrim(env, us, o.srv, todo[1..], gs, o.faults);
      LoopsTrim(env, us, p.srv, todo[1..], gs, p.faults);
    }
  }

  lemma DiffTrims(env: GrantEnv, us: set<string>, allowed: bool, srv: Server, status: seq<Grant>, spec: seq<Grant>,
                  faults: seq<bool>)
    requires env.c.mainUser !in us
    ensures Diff(env, allowed, Trim(us, srv), status, spec, faults) ==
              TrimmedPass(us, Diff(env, allowed, srv, status, spec, faults))
  {
    LoopsTrim(env, us, srv, status, spec, faults);
    var o := RevokeLoop(env, srv, status, spec, faults);
    LoopsTrim(env, us, o.srv, spec, status, o.faults);
  }

  lemma {:induction false} RetriedTrims(env: GrantEnv, us: set<string>, srv: Server, status: seq<Grant>,
                                        spec: seq<Grant>, runs: seq<seq<bool>>)
    requires env.c.mainUser !in us
    ensures Retried(env, Trim(us, srv), status, spec, runs) == TrimmedPass(us, Retried(env, srv, status, spec, runs))
    decreases |runs|
  {
    if runs != [] {
      DiffTrims(env, us, true, srv, status, spec, runs[0]);
      var p := Diff(env, true, srv, status, spec, runs[0]);
      RetriedTrims(env, us, p.srv, p.status, spec, runs[1..]);
    }
  }

  /** After a complete revoke loop its users own nothing any more. */
  lemma {:induction false} RevokeLoopLeavesNothing(env: GrantEnv, srv: Server, todo: seq<Grant>, spec: seq<Grant>,
                                                   faults: seq<bool>, g: Grant)
    requires Schemas(env.c) != [] && RevokeLoop(env, srv, todo, spec, faults).ok && g in todo && g !in spec
    requires forall h :: h in todo ==> h.access != MAIN && h.user in srv.roles && h.user != env.c.mainUser
    ensures Ownerless({g.user}, RevokeLoop(env, srv, todo, spec, faults).srv)
    decreases |todo|
  {
    var u := AsUser(env, todo[0]);
    if todo[0] in spec {
      RevokeLoopLeavesNothing(env, srv, todo[1..], spec, faults, g);
    } else {
      var o := Revoke(env.c, env.admin, u, srv, faults);
      RevokeKeepsRoles(env.c, env.admin, u, srv, faults);
      if todo[0] == g {
        RevokeLeavesNothing(env.c, env.admin, u, srv, faults);
        LoopsTrim(env, {g.user}, o.srv, todo[1..], spec, o.faults);
      } else {
        RevokeLoopLeavesNothing(env, o.srv, todo[1..], spec, o.faults, g);
      }
    }
  }

  lemma DiffLeavesNothing(env: GrantEnv, base: Server, srv: Server, status: seq<Grant>, spec: seq<Grant>,
                          faults: seq<bool>)
    requires Setting(env, base, status, spec) && srv.roles == base.roles && Schemas(env.c) != []
    requires Diff(env, true, srv, status, spec, faults).ok
    ensures Ownerless(Obsoletes(status, spec), Diff(env, true, srv, status, spec, faults).srv)
  {
    var us, p := Obsoletes(status, spec), Diff(env, true, srv, status, spec, faults);
    var o := RevokeLoop(env, srv, status, spec, faults);
    forall u | u in us
      ensures Ownerless({u}, p.srv)
    {
      var g :| g in status && g !in spec && g.user == u;
      RevokeLoopLeavesNothing(env, srv, status, spec, faults, g);
      LoopsTrim(env, {u}, o.srv, spec, status, o.faults);
    }
    OwnerlessTogether(us, p.srv);
  }

  lemma {:induction false} LoopsKeepRoles(env: GrantEnv, srv: Server, todo: seq<Grant>, gs: seq<Grant>,
                                          faults: seq<bool>)
    ensures RevokeLoop(env, srv, todo, gs, faults).srv.roles == srv.roles
    ensures SetLoop(env, srv, todo, gs, faults).srv.roles == srv.roles
    decreases |todo|
  {
    if todo != [] {
      var u := AsUser(env, todo[0]);
      RevokeKeepsRoles(env.c, env.admin, u, srv, faults);
      SetPermissionAdds(env.c, env.admin, u, srv, faults);
      var o, p := Revoke(env.c, env.admin, u, srv, faults), SetPermission(env.c, env.admin, u, srv, faults);
      LoopsKeepRoles(env, srv, todo[1..], gs, faults);
      LoopsKeepRoles(env, o.srv, todo[1..], gs, o.faults);
      LoopsKeepRoles(env, p.srv, todo[1..], gs, p.faults);
    }
  }

  lemma {:induction false} RetriedLeavesNothing(env: GrantEnv, base: Server, srv: Server, status: seq<Grant>,
                                                spec: seq<Grant>, runs: seq<seq<bool>>)
    requires Setting(env, base, status, spec) && srv.roles == base.roles && Schemas(env.c) != []
    requires Retried(env, srv, status, spec, runs).ok
    ensures Ownerless(Obsoletes(status, spec), Retried(env, srv, status, spec, runs).srv)
    decreases |runs|
  {
    var p := Diff(env, true, srv, status, spec, runs[0]);
    if p.ok {
      DiffLeavesNothing(env, base, srv, status, spec, runs[0]);
      RecordedIsNotRevisited(env, p.srv, spec, runs[1..]);
    } else {
      var o := RevokeLoop(env, srv, status, spec, runs[0]);
      LoopsKeepRoles(env, srv, status, spec, runs[0]);
      LoopsKeepRoles(env, o.srv, spec, status, o.faults);
      RetriedLeavesNothing(env, base, p.srv, p.status, spec, runs[1..]);
    }
  }

  /** Whoever has a grant revoked, or changed to another access type, loses all tables; nobody else loses any. */
  lemma RevokedUsersLoseTheirTables(env: GrantEnv, base: Server, srv: Server, status: seq<Grant>, spec: seq<Grant>,
                                    faults: seq<bool>, t: string)
    requires Setting(env, base, status, spec) && srv.roles == base.roles && Schemas(env.c) != []
    requires Diff(env, true, srv, status, spec, faults).ok && t in srv.tables
    ensures t in Diff(env, true, srv, status, spec, faults).srv.tables <==>
              srv.tables[t].owner !in Obsoletes(status, spec)
  {
    var us, p := Obsoletes(status, spec), Diff(env, true, srv, status, spec, faults);
    DiffLeavesNothing(env, base, srv, status, spec, faults);
    DiffTrims(env, us, true, srv, status, spec, faults);
    DiffKeepsOthers(env, us, srv, status, spec, faults);
  }

  lemma DiffKeepsOthers(env: GrantEnv, us: set<string>, srv: Server, status: seq<Grant>, spec: seq<Grant>,
                        faults: seq<bool>)
    requires us == Obsoletes(status, spec)
    ensures Others(Diff(env, true, srv, status, spec, faults).srv.tables, us) == Others(srv.tables, us)
  {
    LoopsKeepOthers(env, us, srv, status, spec, faults);
    var o := RevokeLoop(env, srv, status, spec, faults);
    SetLoopKeepsTables(env, o.srv, spec, status, o.faults);
  }

  lemma {:induction false} SetLoopKeepsTables(env: GrantEnv, srv: Server, todo: seq<Grant>, status: seq<Grant>,
                                              faults: seq<bool>)
    ensures SetLoop(env, srv, todo, status, faults).srv.tables == srv.tables
    decreases |todo|
  {
    if todo != [] {
      SetPermissionAdds(env.c, env.admin, AsUser(env, todo[0]), srv, faults);
      var o := SetPermission(env.c, env.admin, AsUser(env, todo[0]), srv, faults);
      SetLoopKeepsTables(env, srv, todo[1..], status, faults);
      SetLoopKeepsTables(env, o.srv, todo[1..], status, o.faults);
    }
  }

  lemma {:induction false} LoopsKeepOthers(env: GrantEnv, us: set<string>, srv: Server, todo: seq<Grant>,
                                           spec: seq<Grant>, faults: seq<bool>)
    requires forall g :: g in todo && g !in spec ==> g.user in us
    ensures Others(RevokeLoop(env, srv, todo, spec, faults).srv.tables, us) == Others(srv.tables, us)
    decreases |todo|
  {
    if todo != [] {
      if todo[0] in spec {
        LoopsKeepOthers(env, us, srv, todo[1..], spec, faults);
      } else {
        var u := AsUser(env, todo[0]);
        RevokeKeepsOthers(us, env.c, env.admin, u, srv, faults);
        var o := Revoke(env.c, env.admin, u, srv, faults);
        LoopsKeepOthers(env, us, o.srv, todo[1..], spec, o.faults);
      }
    }
  }

  // ---- Seen without them ---------------------------------------------------------------------------------

  lemma LeftSetting(env: GrantEnv, base: Server, status: seq<Grant>, spec: seq<Grant>, us: set<string>)
    requires Setting(env, base, status, spec) && Obsoletes(status, spec) <= us <= Users(status)
    ensures Setting(env, Left(env, us, base), status, spec) && Bare(env, Left(env, us, base), status, spec)
    ensures env.c.mainUser !in us
  {
  }

  lemma LeftEntry(env: GrantEnv, us: set<string>, base: Server, srv: Server, g: Grant, e: Entry)
    requires srv == base.(acl := srv.acl) && env.c.mainUser !in us && e in Left(env, us, srv).acl
    ensures GrantEntry(env, base, g, e) <==> GrantEntry(env, Left(env, us, base), g, e)
  {
    assert forall s :: SchemaEntry(env.c, AsUser(env, g), base, s, e) <==>
                         SchemaEntry(env.c, AsUser(env, g), Left(env, us, base), s, e);
  }

  lemma LeftOrigin(env: GrantEnv, us: set<string>, base: Server, srv: Server)
    requires Origin(env, base, srv) && env.c.mainUser !in us
    ensures Origin(env, Left(env, us, base), Left(env, us, srv))
  {
    var b, s := Left(env, us, base), Left(env, us, srv);
    forall e | e in s.acl && !AdminMember(env, e)
      ensures e in b.acl || GrantLike(env, b, e)
    {
      if e !in base.acl {
        var g :| GrantEntry(env, base, g, e);
        LeftEntry(env, us, base, srv, g, e);
      }
    }
  }

  lemma LeftMatches(env: GrantEnv, us: set<string>, base: Server, srv: Server, gs: seq<Grant>)
    requires Matches(env, base, srv, gs) && env.c.mainUser !in us
    ensures Matches(env, Left(env, us, base), Left(env, us, srv), gs)
  {
    var b, s := Left(env, us, base), Left(env, us, srv);
    forall e | !AdminMember(env, e)
      ensures e in s.acl <==> e in b.acl || Grants(env, b, gs, e)
    {
      if e in s.acl && e !in base.acl {
        var g :| g in gs && GrantEntry(env, base, g, e);
        LeftEntry(env, us, base, srv, g, e);
      }
      if g :| g in gs && GrantEntry(env, b, g, e) {
        LeftGranted(env, us, base, srv, g, e);
      }
    }
  }

  lemma LeftGranted(env: GrantEnv, us: set<string>, base: Server, srv: Server, g: Grant, e: Entry)
    requires srv == base.(acl := srv.acl) && env.c.mainUser !in us && GrantEntry(env, Left(env, us, base), g, e)
    ensures GrantEntry(env, base, g, e) && (e in srv.acl ==> e in Left(env, us, srv).acl)
  {
    var s :| s in Schemas(env.c) && SchemaEntry(env.c, AsUser(env, g), Left(env, us, base), s, e);
    assert SchemaEntry(env.c, AsUser(env, g), base, s, e);
  }

  /** Passes on the server and on what is left of it run side by side. */
  lemma {:induction false} LeftRetried(env: GrantEnv, us: set<string>, srv: Server, status: seq<Grant>,
                                       spec: seq<Grant>, runs: seq<seq<bool>>)
    requires env.c.mainUser !in us
    ensures var p := Retried(env, srv, status, spec, runs);
            Retried(env, Left(env, us, srv), status, spec, runs) == p.(srv := Left(env, us, p.srv))
  {
    RetriedTrims(env, us, srv, status, spec, runs);
  }

  /**
   Whatever pieces of whichever grants the server holds to begin with, once passes on a spec
   get through, server and record both equal the spec exactly if the server was repairable. The
   tables and sequences of users whose grant was revoked, or only changed, are gone.
   */
  lemma {:induction false} RepairedIff(env: GrantEnv, base: Server, srv: Server, status: seq<Grant>, spec: seq<Grant>,
                                       runs: seq<seq<bool>>)
    requires Setting(env, base, status, spec) && Origin(env, base, srv)
    requires Retried(env, srv, status, spec, runs).ok
    ensures var p, us := Retried(env, srv, status, spec, runs), Obsoletes(status, spec);
            && p.status == spec
            && (Matches(env, Left(env, us, base), p.srv, spec) <==>
                  Repairable(env, Left(env, us, base), Left(env, us, srv), status, spec))
  {
    var us := Obsoletes(status, spec);
    LeftSetting(env, base, status, spec, us);
    LeftOrigin(env, us, base, srv);
    LeftRetried(env, us, srv, status, spec, runs);
    BareRepairedIff(env, Left(env, us, base), Left(env, us, srv), status, spec, runs);
    if Schemas(env.c) != [] {
      RetriedLeavesNothing(env, base, srv, status, spec, runs);
    }
  }

  /**
   Convergence: when the server holds what status says, any number of passes failing anywhere
   and then retried, one of which gets through, leave the server's grants and status both
   equal to the spec, and nothing of what users with a revoked or changed grant owned.
   */
  lemma {:induction false} ExtraGrantsConverge(env: GrantEnv, base: Server, srv: Server, status: seq<Grant>,
                                               spec: seq<Grant>, runs: seq<seq<bool>>)
    requires Setting(env, base, status, spec) && Matches(env, base, srv, status)
    ensures var p, us := Retried(env, srv, status, spec, runs), Obsoletes(status, spec);
            && (p.ok ==> p.status == spec && Matches(env, Left(env, us, base), p.srv, spec))
            && (!p.ok ==>
                  && p.status == status
                  && OnTheWay(env, Left(env, us, base), Left(env, us, srv), Left(env, us, p.srv), status, spec))
  {
    var us := Obsoletes(status, spec);
    LeftSetting(env, base, status, spec, us);
    LeftMatches(env, us, base, srv, status);
    var b, s := Left(env, us, base), Left(env, us, srv);
    MatchingIsRepairable(env, b, s, status, spec);
    if Retried(env, srv, status, spec, runs).ok {
      MatchesIsOrigin(env, base, srv, status);
      RepairedIff(env, base, srv, status, spec, runs);
    } else {
      LeftRetried(env, us, srv, status, spec, runs);
      RetriedGoes(env, b, s, s, status, spec, runs);
    }
  }

  lemma MatchesIsOrigin(env: GrantEnv, base: Server, srv: Server, status: seq<Grant>)
    requires Matches(env, base, srv, status)
    ensures Origin(env, base, srv)
  {
  }

  // ---- Where the record and the server part ------------------------------------------------------------

  /** Without permission the server is left alone, and the spec is recorded unless there is a record already. */
  lemma NotAllowed(env: GrantEnv, srv: Server, status: seq<Grant>, spec: seq<Grant>, faults: seq<bool>)
    ensures var p := Diff(env, false, srv, status, spec, faults);
            && p.srv == srv
            && p.ok == (status == [] && !Fails(faults))
            && p.status == if p.ok then spec else status
  {
  }

  /** Whether the admin ends up a member of an extra grant's user goes by the instance's two settings. */
  lemma AdminJoins(env: GrantEnv, g: Grant, srv: Server)
    requires g.access == "readOnly" || g.access == "readWrite"
    ensures SetPermission(env.c, env.admin, AsUser(env, g), srv, []).ok
    ensures Member(g.user, env.admin) in SetPermission(env.c, env.admin, AsUser(env, g), srv, []).srv.acl <==>
              Member(g.user, env.admin) in srv.acl || env.grantToAdmin
    ensures g.user in srv.roles && OwnsNothing(srv, g.user) && g.user != env.admin ==>
              (Member(g.user, env.admin) in Revoke(env.c, env.admin, AsUser(env, g), srv, []).srv.acl <==>
                 Member(g.user, env.admin) in srv.acl || (!env.grantToAdmin && env.grantOnDelete))
  {
    var u, e := AsUser(env, g), Member(g.user, env.admin);
    NoFaultsStay(env.c, env.admin, u, srv);
    SetPermissionAdds(env.c, env.admin, u, srv, []);
    FullGain(env.c, env.admin, u, srv, e);
    if g.user in srv.roles && OwnsNothing(srv, g.user) && g.user != env.admin {
      NoFaultsRun(srv, RevokeCalls(env.c, env.admin, u));
      RevokeEffect(env.c, env.admin, u, srv, []);
    }
  }

  /**
   A successful pass leaves the server as recorded exactly if grants are allowed or there is
   nothing to grant: without permission the spec is recorded all the same.
   */
  lemma RecordIsTrueIff(env: GrantEnv, base: Server, srv: Server, allowed: bool, status: seq<Grant>, spec: seq<Grant>,
                        faults: seq<bool>)
    requires Setting(env, base, status, spec) && Matches(env, base, srv, status)
    requires Diff(env, allowed, srv, status, spec, faults).ok
    ensures var p, us := Diff(env, allowed, srv, status, spec, faults), Obsoletes(status, spec);
            Matches(env, Left(env, us, base), p.srv, p.status) <==> allowed || spec == [] || Schemas(env.c) == []
  {
    var p := Diff(env, allowed, srv, status, spec, faults);
    if allowed {
      ExtraGrantsConverge(env, base, srv, status, spec, [faults]);
      assert [faults][1..] == [] && Retried(env, srv, status, spec, [faults]).srv == p.srv;
    } else {
      assert status == [] && Obsoletes(status, spec) == {};
      NothingTrimmed(env, base);
      if spec != [] && Schemas(env.c) != [] {
        var s, g := Schemas(env.c)[0], spec[0];
        var e := SchemaPriv(s, g.user, Usage);
        assert SchemaEntry(env.c, AsUser(env, g), base, s, e);
        assert GrantEntry(env, base, g, e) && g in spec && Grants(env, base, spec, e);
        assert e !in base.acl by {
          assert PrivilegeOf(e, g.user);
        }
        assert !Grants(env, base, status, e);
      }
    }
  }

  lemma NothingTrimmed(env: GrantEnv, srv: Server)
    ensures Left(env, {}, srv) == srv
  {
    OwnerlessMeans({}, srv);
  }

  // ---- Specs that were given up --------------------------------------------------------------------------

  /** A pass on some spec, with its faults. */
  datatype Attempt = Attempt(spec: seq<Grant>, faults: seq<bool>)

  /** One failed pass after another, each on a spec of its own; the record stays what it was. */
  function Attempted(env: GrantEnv, srv: Server, status: seq<Grant>, tries: seq<Attempt>): Server
    decreases |tries|
  {
    if tries == [] then srv
    else Attempted(env, Diff(env, true, srv, status, tries[0].spec, tries[0].faults).srv, status, tries[1..])
  }

  ghost predicate AllFail(env: GrantEnv, base: Server, srv: Server, status: seq<Grant>, tries: seq<Attempt>)
    decreases |tries|
  {
    tries == [] ||
    (&& Setting(env, base, status, tries[0].spec)
     && var p := Diff(env, true, srv, status, tries[0].spec, tries[0].faults);
        !p.ok && AllFail(env, base, p.srv, status, tries[1..]))
  }

  /** Without what recorded users own, none of which is safe while specs come and go. */
  function LeftOver(env: GrantEnv, status: seq<Grant>, srv: Server): Server { Left(env, Users(status), srv) }

  lemma {:induction false} AttemptedIsOrigin(env: GrantEnv, base: Server, srv: Server, status: seq<Grant>,
                                             tries: seq<Attempt>)
    requires Origin(env, base, srv) && AllFail(env, base, srv, status, tries)
    requires forall g :: g in status ==> OwnsNothing(base, g.user)
    ensures Origin(env, base, Attempted(env, srv, status, tries))
    decreases |tries|
  {
    if tries != [] {
      var spec := tries[0].spec;
      PassGoes(env, base, srv, srv, status, spec, tries[0].faults);
      var p := Diff(env, true, srv, status, spec, tries[0].faults);
      OnTheWayIsOrigin(env, base, srv, p.srv, status, spec);
      AttemptedIsOrigin(env, base, p.srv, status, tries[1..]);
    }
  }

  lemma {:induction false} LeftAttempted(env: GrantEnv, base: Server, srv: Server, status: seq<Grant>,
                                         tries: seq<Attempt>)
    requires AllFail(env, base, srv, status, tries) && Guests(env, base, status)
    ensures AllFail(env, LeftOver(env, status, base), LeftOver(env, status, srv), status, tries)
    ensures Attempted(env, LeftOver(env, status, srv), status, tries) ==
              LeftOver(env, status, Attempted(env, srv, status, tries))
    decreases |tries|
  {
    if tries != [] {
      var us := Users(status);
      LeftSetting(env, base, status, tries[0].spec, us);
      DiffTrims(env, us, true, srv, status, tries[0].spec, tries[0].faults);
      var p := Diff(env, true, srv, status, tries[0].spec, tries[0].faults);
      LeftAttempted(env, base, p.srv, status, tries[1..]);
    }
  }

  lemma LeftOverOwnsNothing(env: GrantEnv, base: Server, status: seq<Grant>, g: Grant)
    requires g in status && Schemas(env.c) != []
    ensures OwnsNothing(LeftOver(env, status, base), g.user)
  {
  }

  /**
   The same spec has to be retried. After failed passes on any specs, a spec that then gets
   through is what the server ends up with, apart from what recorded users owned, exactly if the
   server was still repairable.
   */
  lemma {:induction false} AbandonedSpecsAreRepairedIff(env: GrantEnv, base: Server, srv: Server, status: seq<Grant>,
                                                        tries: seq<Attempt>, spec: seq<Grant>, runs: seq<seq<bool>>)
    requires Matches(env, base, srv, status) && AllFail(env, base, srv, status, tries)
    requires Setting(env, base, status, spec) && Retried(env, Attempted(env, srv, status, tries), status, spec, runs).ok
    ensures var left, b := Attempted(env, srv, status, tries), LeftOver(env, status, base);
            Matches(env, b, LeftOver(env, status, Retried(env, left, status, spec, runs).srv), spec) <==>
              Repairable(env, b, LeftOver(env, status, left), status, spec)
  {
    var us, left := Users(status), Attempted(env, srv, status, tries);
    var b, s := LeftOver(env, status, base), LeftOver(env, status, srv);
    LeftSetting(env, base, status, spec, us);
    LeftMatches(env, us, base, srv, status);
    MatchesIsOrigin(env, b, s, status);
    LeftAttempted(env, base, srv, status, tries);
    AttemptedStaysOrigin(env, base, srv, status, tries);
    LeftRetried(env, us, left, status, spec, runs);
    BareRepairedIff(env, b, LeftOver(env, status, left), status, spec, runs);
  }

  lemma {:induction false} AttemptedStaysOrigin(env: GrantEnv, base: Server, srv: Server, status: seq<Grant>,
                                                tries: seq<Attempt>)
    requires Origin(env, LeftOver(env, status, base), LeftOver(env, status, srv)) && Guests(env, base, status)
    requires AllFail(env, base, srv, status, tries)
    ensures Origin(env, LeftOver(env, status, base), LeftOver(env, status, Attempted(env, srv, status, tries)))
  {
    LeftAttempted(env, base, srv, status, tries);
    if Schemas(env.c) != [] {
      forall g | g in status
        ensures OwnsNothing(LeftOver(env, status, base), g.user)
      {
        LeftOverOwnsNothing(env, base, status, g);
      }
      AttemptedIsOrigin(env, LeftOver(env, status, base), LeftOver(env, status, srv), status, tries);
    } else {
      AttemptedOnNoSchemas(env, base, srv, status, tries);
    }
  }

  lemma {:induction false} AttemptedOnNoSchemas(env: GrantEnv, base: Server, srv: Server, status: seq<Grant>,
                                                tries: seq<Attempt>)
    requires Schemas(env.c) == [] && Origin(env, base, srv) && AllFail(env, base, srv, status, tries)
    ensures Origin(env, base, Attempted(env, srv, status, tries))
    decreases |tries|
  {
    if tries != [] {
      var spec := tries[0].spec;
      PassGoes(env, base, srv, srv, status, spec, tries[0].faults);
      var p := Diff(env, true, srv, status, spec, tries[0].faults);
      OnTheWayIsOrigin(env, base, srv, p.srv, status, spec);
      AttemptedOnNoSchemas(env, base, p.srv, status, tries[1..]);
    }
  }

  /**
   Whatever a user has who is in neither the record nor the spec, stays through any passes, except
   on tables and sequences of users whose grant is revoked.
   */
  lemma {:induction false} AbandonedGrantStays(env: GrantEnv, base: Server, srv: Server, status: seq<Grant>,
                                               spec: seq<Grant>, runs: seq<seq<bool>>, e: Entry)
    requires Setting(env, base, status, spec) && Origin(env, base, srv)
    requires !e.Member? && forall g :: g in status || g in spec ==> g.user != e.role
    ensures var us := Obsoletes(status, spec);
            e in Left(env, us, Retried(env, srv, status, spec, runs).srv).acl <==> e in Left(env, us, srv).acl
  {
    var us := Obsoletes(status, spec);
    var b, s := Left(env, us, base), Left(env, us, srv);
    LeftSetting(env, base, status, spec, us);
    LeftOrigin(env, us, base, srv);
    LeftRetried(env, us, srv, status, spec, runs);
    RetriedGoes(env, b, s, s, status, spec, runs);
    DueBelongs(env, b, status, spec, e);
  }

  /** A grant half set and then given up is beyond repair: the first call goes through, the second fails. */
  lemma HalfAGrant(env: GrantEnv, base: Server, g: Grant)
    requires Setting(env, base, [], [g]) && Schemas(env.c) != [] && !env.grantToAdmin
    ensures var p := Diff(env, true, base, [], [g], [false, true]);
            && !p.ok && SchemaPriv(Schemas(env.c)[0], g.user, Usage) in p.srv.acl
            && !Repairable(env, base, p.srv, [], [])
  {
    var u, s := AsUser(env, g), Schemas(env.c)[0];
    assert g in [g] && [g][1..] == [];
    var calls := GrantCalls(env.c, env.admin, u);
    assert calls[0] == Must(GrantSchema(s, u.name, {Usage}));
    assert calls[1] == Must(GrantTables(s, u.name, TablePrivs(u.access)));
    var faults := [false, true];
    assert Rest(faults) == [true] && Fails([true]) && !Fails(faults);
    var next := Exec(base, calls[0].stmt);
    assert RunCalls(base, calls, faults) == RunCalls(next, calls[1..], [true]);
    assert calls[1..][0] == calls[1];
    assert !RunCalls(next, calls[1..], [true]).ok;
    var e := SchemaPriv(s, g.user, Usage);
    assert PrivilegeOf(e, g.user) && e !in base.acl;
  }

  /** So is a grant half revoked and then put back into the spec. */
  lemma HalfARevoke(env: GrantEnv, base: Server, srv: Server, g: Grant)
    requires Setting(env, base, [g], []) && Matches(env, base, srv, [g]) && Schemas(env.c) != []
    requires env.grantToAdmin || !env.grantOnDelete
    ensures var p := Diff(env, true, srv, [g], [], [false, false, true]);
            && !p.ok && SchemaPriv(Schemas(env.c)[0], g.user, Usage) !in p.srv.acl
            && !Repairable(env, base, p.srv, [g], [g])
  {
    var u, s := AsUser(env, g), Schemas(env.c)[0];
    assert g in [g] && [g][1..] == [];
    RevokeCutShort(env.c, env.admin, u, srv);
    var e := SchemaPriv(s, g.user, Usage);
    assert SchemaEntry(env.c, u, base, s, e);
    assert GrantEntry(env, base, g, e);
  }

  /** The first two calls of a revocation go through and the third fails. */
  lemma RevokeCutShort(c: Config, admin: string, u: DbUser, srv: Server)
    requires u.access != MAIN && u.name in srv.roles && u.extra == [] && (u.grantToAdmin || !u.grantOnDelete)
    requires Schemas(c) != []
    ensures var o := Revoke(c, admin, u, srv, [false, false, true]);
            && !o.ok && SchemaPriv(Schemas(c)[0], u.name, Usage) !in o.srv.acl
            && forall p :: TableDefault(c.mainUser, Schemas(c)[0], u.name, p) !in o.srv.acl
  {
    var s, rest := Schemas(c)[0], RevokeAllSchemas(c, u, Schemas(c)[1..]);
    var a, b, d := RevokeDefaults(c.mainUser, s, u.name), RevokeSchema(s, u.name), DropOwned(u.name);
    var faults := [false, false, true];
    assert RevokeCalls(c, admin, u) == [Must(a)] + ([Must(b)] + ([Must(d)] + rest));
    assert Rest(faults) == [false, true] && Rest([false, true]) == [true];
    var s1 := Exec(srv, a);
    RunConcat(srv, [Must(a)], [Must(b)] + ([Must(d)] + rest), faults);
    RunSingle(srv, Must(a), faults);
    RunConcat(s1, [Must(b)], [Must(d)] + rest, [false, true]);
    RunSingle(s1, Must(b), [false, true]);
    RunConcat(Exec(s1, b), [Must(d)], rest, [true]);
    RunSingle(Exec(s1, b), Must(d), [true]);
  }
}
