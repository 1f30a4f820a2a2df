/**
 What users own. DROP OWNED BY, which is part of revoking, takes a user's tables and sequences
 away. Seen without them, revoking and granting work as if the user had never owned any.
 */
module PostgresOwned {
  import opened Acl
  import opened Postgres

  /** The entry is about an object of one of these users, or one of their default privileges. */
  predicate Theirs(srv: Server, us: set<string>, e: Entry) {
    || ((e.TableDefault? || e.SeqDefault?) && e.owner in us)
    || (e.TablePriv? && e.table in srv.tables && srv.tables[e.table].owner in us)
    || (e.SeqPriv? && e.seqn in srv.seqs && srv.seqs[e.seqn].owner in us)
  }

  function Others(rels: map<string, Rel>, us: set<string>): map<string, Rel> {
    map t | t in rels && rels[t].owner !in us :: rels[t]
  }

  /** The server without what these users own. */
  function Trim(us: set<string>, srv: Server): Server {
    Server((set e | e in srv.acl && !Theirs(srv, us, e)), Others(srv.tables, us), Others(srv.seqs, us), srv.roles)
  }

  /** These users own nothing. */
  predicate Ownerless(us: set<string>, srv: Server) { Trim(us, srv) == srv }

  predicate Trimmable(us: set<string>, s: Stmt) {
    && !s.CreateTable? && !s.CreateSeq?
    && ((s.DefaultTables? || s.DefaultSeqs?) ==> s.owner !in us)
  }

  predicate AllTrimmable(us: set<string>, calls: seq<Call>) {
    forall k :: 0 <= k < |calls| ==> Trimmable(us, calls[k].stmt)
  }

  lemma DropTrims(us: set<string>, srv: Server, u: string)
    ensures Trim(us, Exec(srv, DropOwned(u))) == Exec(Trim(us, srv), DropOwned(u))
  {
    var a, b := Trim(us, Exec(srv, DropOwned(u))), Exec(Trim(us, srv), DropOwned(u));
    assert a.tables == b.tables && a.seqs == b.seqs;
    assert a.acl == b.acl;
  }

  lemma GrantTrims(us: set<string>, srv: Server, s: Stmt)
    requires IsGrant(s) && Trimmable(us, s)
    ensures Trim(us, Exec(srv, s)) == Exec(Trim(us, srv), s)
  {
    assert Trim(us, Exec(srv, s)).acl == Exec(Trim(us, srv), s).acl;
  }

  /** Trimming before a statement or after it makes no difference. */
  lemma ExecTrims(us: set<string>, srv: Server, s: Stmt)
    requires Trimmable(us, s)
    ensures Trim(us, Exec(srv, s)) == Exec(Trim(us, srv), s)
  {
    if s.DropOwned? {
      DropTrims(us, srv, s.role);
    } else if IsGrant(s) {
      GrantTrims(us, srv, s);
    } else {
      assert Trim(us, Exec(srv, s)).acl == Exec(Trim(us, srv), s).acl;
    }
  }

  function Trimmed(us: set<string>, o: Outcome): Outcome { o.(srv := Trim(us, o.srv)) }

  lemma {:induction false} RunTrims(us: set<string>, srv: Server, calls: seq<Call>, faults: seq<bool>)
    requires AllTrimmable(us, calls)
    ensures RunCalls(Trim(us, srv), calls, faults) == Trimmed(us, RunCalls(srv, calls, faults))
    decreases |calls|
  {
    if calls != [] {
      assert Trimmable(us, calls[0].stmt) && AllTrimmable(us, calls[1..]);
      if !Fails(faults) {
        ExecTrims(us, srv, calls[0].stmt);
        RunTrims(us, Exec(srv, calls[0].stmt), calls[1..], Rest(faults));
      } else {
        RunTrims(us, srv, calls[1..], Rest(faults));
      }
    }
  }

  // ---- Revoking and granting -----------------------------------------------------------------------------

  lemma {:induction false} RevokeCallsTrim(us: set<string>, c: Config, u: DbUser, roles: seq<string>, ss: seq<string>)
    ensures AllTrimmable(us, RevokeRoleCalls(u, roles)) && AllTrimmable(us, RevokeAllSchemas(c, u, ss))
    decreases |roles| + |ss|
  {
    if roles != [] {
      RevokeCallsTrim(us, c, u, roles[1..], ss);
    }
    if ss != [] {
      RevokeCallsTrim(us, c, u, roles, ss[1..]);
    }
  }

  lemma RevokeTrims(us: set<string>, c: Config, admin: string, u: DbUser, srv: Server, faults: seq<bool>)
    ensures Revoke(c, admin, u, Trim(us, srv), faults) == Trimmed(us, Revoke(c, admin, u, srv, faults))
  {
    RevokeCallsTrim(us, c, u, u.extra, Schemas(c));
    RunTrims(us, srv, RevokeCalls(c, admin, u), faults);
  }

  lemma {:induction false} GrantCallsTrim(us: set<string>, c: Config, admin: string, u: DbUser, roles: seq<string>,
                                          ss: seq<string>)
    requires c.mainUser !in us
    ensures AllTrimmable(us, RoleCalls(u, roles)) && AllTrimmable(us, AllSchemas(c, admin, u, ss))
    decreases |roles| + |ss|
  {
    if roles != [] {
      GrantCallsTrim(us, c, admin, u, roles[1..], ss);
    }
    if ss != [] {
      GrantCallsTrim(us, c, admin, u, roles, ss[1..]);
    }
  }

  lemma SetTrims(us: set<string>, c: Config, admin: string, u: DbUser, srv: Server, faults: seq<bool>)
    requires c.mainUser !in us
    ensures SetPermission(c, admin, u, Trim(us, srv), faults) == Trimmed(us, SetPermission(c, admin, u, srv, faults))
  {
    GrantCallsTrim(us, c, admin, u, u.extra, Schemas(c));
    RunTrims(us, srv, AdminCalls(admin, u), faults);
    var o := RunCalls(srv, AdminCalls(admin, u), faults);
    RunTrims(us, o.srv, GrantCalls(c, admin, u), o.faults);
  }

  lemma DropLeavesNothing(srv: Server, u: string)
    ensures Ownerless({u}, Exec(srv, DropOwned(u)))
  {
    var s := Exec(srv, DropOwned(u));
    assert Trim({u}, s).tables == s.tables && Trim({u}, s).seqs == s.seqs;
    assert Trim({u}, s).acl == s.acl;
  }

  lemma {:induction false} SchemasLeaveNothing(c: Config, u: DbUser, srv: Server, ss: seq<string>, faults: seq<bool>)
    requires ss != [] && RunCalls(srv, RevokeAllSchemas(c, u, ss), faults).ok
    ensures Ownerless({u.name}, RunCalls(srv, RevokeAllSchemas(c, u, ss), faults).srv)
    decreases |ss|
  {
    var first, rest := RevokeSchemaCalls(c, u, ss[0]), RevokeAllSchemas(c, u, ss[1..]);
    RunConcat(srv, first, rest, faults);
    var o := RunCalls(srv, first, faults);
    if ss[1..] != [] {
      SchemasLeaveNothing(c, u, o.srv, ss[1..], o.faults);
    } else {
      assert first == first[..2] + [Must(DropOwned(u.name))];
      RunConcat(srv, first[..2], [Must(DropOwned(u.name))], faults);
      var p := RunCalls(srv, first[..2], faults);
      RunSingle(p.srv, Must(DropOwned(u.name)), p.faults);
      DropLeavesNothing(p.srv, u.name);
    }
  }

  /** A complete revocation leaves the user without tables, sequences and default privileges of its own. */
  lemma RevokeLeavesNothing(c: Config, admin: string, u: DbUser, srv: Server, faults: seq<bool>)
    requires u.access != MAIN && u.name in srv.roles && Schemas(c) != [] && Revoke(c, admin, u, srv, faults).ok
    ensures Ownerless({u.name}, Revoke(c, admin, u, srv, faults).srv)
  {
    var before := RevokeRoleCalls(u, u.extra) + AdminOnDeleteCalls(admin, u);
    RunConcat(srv, before, RevokeAllSchemas(c, u, Schemas(c)), faults);
    var o := RunCalls(srv, before, faults);
    SchemasLeaveNothing(c, u, o.srv, Schemas(c), o.faults);
  }

  predicate NoRoleCalls(calls: seq<Call>) {
    forall k :: 0 <= k < |calls| ==> !calls[k].stmt.CreateRole? && !calls[k].stmt.DropRole?
  }

  lemma {:induction false} RevokeTouchesNoRole(c: Config, u: DbUser, roles: seq<string>, ss: seq<string>)
    ensures NoRoleCalls(RevokeRoleCalls(u, roles)) && NoRoleCalls(RevokeAllSchemas(c, u, ss))
    decreases |roles| + |ss|
  {
    if roles != [] {
      RevokeTouchesNoRole(c, u, roles[1..], ss);
    }
    if ss != [] {
      RevokeTouchesNoRole(c, u, roles, ss[1..]);
    }
  }

  lemma {:induction false} RunKeepsRoles(srv: Server, calls: seq<Call>, faults: seq<bool>)
    requires NoRoleCalls(calls)
    ensures RunCalls(srv, calls, faults).srv.roles == srv.roles
    decreases |calls|
  {
    if calls != [] {
      RunKeepsRoles(Exec(srv, calls[0].stmt), calls[1..], Rest(faults));
      RunKeepsRoles(srv, calls[1..], Rest(faults));
    }
  }

  lemma RevokeKeepsRoles(c: Config, admin: string, u: DbUser, srv: Server, faults: seq<bool>)
    ensures Revoke(c, admin, u, srv, faults).srv.roles == srv.roles
  {
    RevokeTouchesNoRole(c, u, u.extra, Schemas(c));
    RunKeepsRoles(srv, RevokeCalls(c, admin, u), faults);
  }

  /** Calls that take tables away from nobody outside `us`. */
  predicate Sparing(us: set<string>, calls: seq<Call>) {
    forall k :: 0 <= k < |calls| ==> var s := calls[k].stmt;
      !s.CreateTable? && !s.CreateSeq? && (s.DropOwned? ==> s.role in us)
  }

  lemma {:induction false} RevokeSpares(us: set<string>, c: Config, u: DbUser, roles: seq<string>, ss: seq<string>)
    requires u.name in us
    ensures Sparing(us, RevokeRoleCalls(u, roles)) && Sparing(us, RevokeAllSchemas(c, u, ss))
    decreases |roles| + |ss|
  {
    if roles != [] {
      RevokeSpares(us, c, u, roles[1..], ss);
    }
    if ss != [] {
      RevokeSpares(us, c, u, roles, ss[1..]);
    }
  }

  lemma {:induction false} RunKeepsOthers(us: set<string>, srv: Server, calls: seq<Call>, faults: seq<bool>)
    requires Sparing(us, calls)
    ensures Others(RunCalls(srv, calls, faults).srv.tables, us) == Others(srv.tables, us)
    decreases |calls|
  {
    if calls != [] {
      var next := Exec(srv, calls[0].stmt);
      assert Others(next.tables, us) == Others(srv.tables, us);
      RunKeepsOthers(us, next, calls[1..], Rest(faults));
      RunKeepsOthers(us, srv, calls[1..], Rest(faults));
    }
  }

  /** Revoking takes tables away from its own user only. */
  lemma RevokeKeepsOthers(us: set<string>, c: Config, admin: string, u: DbUser, srv: Server, faults: seq<bool>)
    requires u.name in us
    ensures Others(Revoke(c, admin, u, srv, faults).srv.tables, us) == Others(srv.tables, us)
  {
    RevokeSpares(us, c, u, u.extra, Schemas(c));
    RunKeepsOthers(us, srv, RevokeCalls(c, admin, u), faults);
  }

  lemma OwnerlessMeans(us: set<string>, srv: Server)
    ensures Ownerless(us, srv) <==>
              && (forall t :: t in srv.tables ==> srv.tables[t].owner !in us)
              && (forall q :: q in srv.seqs ==> srv.seqs[q].owner !in us)
              && (forall e :: e in srv.acl ==> !Theirs(srv, us, e))
  {
    var s := Trim(us, srv);
    assert forall t :: t in s.tables <==> t in srv.tables && srv.tables[t].owner !in us;
    assert forall q :: q in s.seqs <==> q in srv.seqs && srv.seqs[q].owner !in us;
    assert forall e :: e in s.acl <==> e in srv.acl && !Theirs(srv, us, e);
  }

  /** Owning nothing one by one is owning nothing together. */
  lemma OwnerlessTogether(us: set<string>, srv: Server)
    requires forall u :: u in us ==> Ownerless({u}, srv)
    ensures Ownerless(us, srv)
  {
    forall u | u in us
      ensures forall t :: t in srv.tables ==> srv.tables[t].owner != u
      ensures forall q :: q in srv.seqs ==> srv.seqs[q].owner != u
      ensures forall e :: e in srv.acl ==> !Theirs(srv, {u}, e)
    {
      OwnerlessMeans({u}, srv);
    }
    assert forall e :: e in srv.acl && (e.TableDefault? || e.SeqDefault?) && e.owner in us ==>
                         Theirs(srv, {e.owner}, e);
    OwnerlessMeans(us, srv);
  }
}
