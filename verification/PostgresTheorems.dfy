/**
 What granting and revoking on Postgres amount to, whichever calls fail on the way.
 */
module PostgresTheorems {
  import opened Acl
  import opened Postgres

  // ---- Granting ------------------------------------------------------------------------------------

  /** Did the optional grant of the user to the admin go through? */
  predicate AdminGranted(u: DbUser, faults: seq<bool>) {
    u.grantToAdmin && !Fails(faults)
  }

  function AdminPart(admin: string, u: DbUser, granted: bool): set<Entry> {
    if granted then {Member(u.name, admin)} else {}
  }

  /** The server after a complete setUserPermission. */
  function Full(c: Config, admin: string, u: DbUser, srv: Server, granted: bool): Server {
    srv.(acl := srv.acl + AdminPart(admin, u, granted) + Gain(srv, GrantCalls(c, admin, u)))
  }

  lemma {:induction false} AllSchemasAreGrants(c: Config, admin: string, u: DbUser, ss: seq<string>)
    ensures AllGrants(AllSchemas(c, admin, u, ss))
  {
    if ss != [] {
      AllSchemasAreGrants(c, admin, u, ss[1..]);
    }
  }

  lemma {:induction false} RoleCallsAreGrants(u: DbUser, roles: seq<string>)
    ensures AllGrants(RoleCalls(u, roles))
  {
    if roles != [] {
      RoleCallsAreGrants(u, roles[1..]);
    }
  }

  lemma GrantCallsAreGrants(c: Config, admin: string, u: DbUser)
    ensures AllGrants(GrantCalls(c, admin, u))
  {
    AllSchemasAreGrants(c, admin, u, Schemas(c));
    RoleCallsAreGrants(u, u.extra);
  }

  /** However far it gets, setUserPermission only adds entries, and only its own. */
  lemma SetPermissionAdds(c: Config, admin: string, u: DbUser, srv: Server, faults: seq<bool>)
    ensures var o, g := SetPermission(c, admin, u, srv, faults), AdminGranted(u, faults);
            && o.srv == srv.(acl := o.srv.acl)
            && srv.acl + AdminPart(admin, u, g) <= o.srv.acl <= Full(c, admin, u, srv, g).acl
            && (o.ok ==> o.srv == Full(c, admin, u, srv, g))
  {
    var o := RunCalls(srv, AdminCalls(admin, u), faults);
    RunSingle(srv, Call(GrantRole(u.name, admin), false), faults);
    assert o.ok && o.srv == srv.(acl := srv.acl + AdminPart(admin, u, AdminGranted(u, faults)));
    GrantCallsAreGrants(c, admin, u);
    GrantsOnlyAdd(o.srv, GrantCalls(c, admin, u), o.faults);
    GainIgnoresAcl(srv, o.srv.acl, GrantCalls(c, admin, u));
  }

  /** Any number of passes, each cut short or not by its own faults. */
  function Passes(c: Config, admin: string, u: DbUser, srv: Server, runs: seq<seq<bool>>): Server
    decreases |runs|
  {
    if runs == [] then srv
    else Passes(c, admin, u, SetPermission(c, admin, u, srv, runs[0]).srv, runs[1..])
  }

  predicate AnyGranted(u: DbUser, runs: seq<seq<bool>>) {
    exists k :: 0 <= k < |runs| && AdminGranted(u, runs[k])
  }

  lemma {:induction false} PassesOnlyAdd(c: Config, admin: string, u: DbUser, srv: Server, runs: seq<seq<bool>>)
    ensures var s, g := Passes(c, admin, u, srv, runs), AnyGranted(u, runs);
            && s == srv.(acl := s.acl)
            && srv.acl + AdminPart(admin, u, g) <= s.acl <= Full(c, admin, u, srv, g).acl
    decreases |runs|
  {
    if runs != [] {
      SetPermissionAdds(c, admin, u, srv, runs[0]);
      var o := SetPermission(c, admin, u, srv, runs[0]);
      PassesOnlyAdd(c, admin, u, o.srv, runs[1..]);
      GainIgnoresAcl(srv, o.srv.acl, GrantCalls(c, admin, u));
      assert AnyGranted(u, runs) <==> AdminGranted(u, runs[0]) || AnyGranted(u, runs[1..]) by {
        if AnyGranted(u, runs) {
          var k :| 0 <= k < |runs| && AdminGranted(u, runs[k]);
          if k > 0 {
            assert runs[k] == runs[1..][k - 1];
          }
        }
        if AnyGranted(u, runs[1..]) {
          var k :| 0 <= k < |runs[1..]| && AdminGranted(u, runs[1..][k]);
          assert runs[k + 1] == runs[1..][k];
        }
      }
    }
  }

  /**
   Interrupted granting converges: after any number of passes that stopped anywhere, one that
   gets through leaves exactly what a single uninterrupted pass leaves.
   */
  lemma {:induction false} InterruptedGrantingConverges(c: Config, admin: string, u: DbUser, srv: Server,
                                                        runs: seq<seq<bool>>, last: seq<bool>)
    requires SetPermission(c, admin, u, Passes(c, admin, u, srv, runs), last).ok
    ensures SetPermission(c, admin, u, Passes(c, admin, u, srv, runs), last).srv ==
              Full(c, admin, u, srv, AnyGranted(u, runs) || AdminGranted(u, last))
  {
    var s := Passes(c, admin, u, srv, runs);
    PassesOnlyAdd(c, admin, u, srv, runs);
    SetPermissionAdds(c, admin, u, s, last);
    GainIgnoresAcl(srv, s.acl, GrantCalls(c, admin, u));
  }

  /** Two complete applications are one. */
  lemma GrantingTwiceIsOnce(c: Config, admin: string, u: DbUser, srv: Server, f1: seq<bool>, f2: seq<bool>)
    requires SetPermission(c, admin, u, srv, f1).ok
    requires SetPermission(c, admin, u, SetPermission(c, admin, u, srv, f1).srv, f2).ok
    ensures SetPermission(c, admin, u, SetPermission(c, admin, u, srv, f1).srv, f2).srv ==
              Full(c, admin, u, srv, AdminGranted(u, f1) || AdminGranted(u, f2))
  {
    SetPermissionAdds(c, admin, u, srv, f1);
    var o := SetPermission(c, admin, u, srv, f1);
    SetPermissionAdds(c, admin, u, o.srv, f2);
    GainIgnoresAcl(srv, o.srv.acl, GrantCalls(c, admin, u));
  }

  /** createOrUpdateUser applies the permissions twice; once would do, on either branch. */
  lemma CreateOrUpdateGrantsOnce(c: Config, admin: string, u: DbUser, srv: Server, faults: seq<bool>)
    requires CreateOrUpdateUser(c, admin, u, srv, faults).ok
    ensures exists g :: CreateOrUpdateUser(c, admin, u, srv, faults).srv ==
                          Full(c, admin, u, srv.(roles := srv.roles + {u.name}), g)
    ensures faults == [] ==> CreateOrUpdateUser(c, admin, u, srv, faults).srv ==
                               SetPermission(c, admin, u, srv.(roles := srv.roles + {u.name}), []).srv
  {
    var s := srv.(roles := srv.roles + {u.name});
    var first := if u.name !in srv.roles then CreateRole(u.name) else AlterRole(u.name);
    RunSingle(srv, Must(first), faults);
    assert Exec(srv, first) == s by {
      assert u.name in srv.roles ==> srv.roles + {u.name} == srv.roles && srv.acl + {} == srv.acl;
    }
    var o := SetPermission(c, admin, u, s, Rest(faults));
    GrantingTwiceIsOnce(c, admin, u, s, Rest(faults), o.faults);
    if faults == [] {
      SetPermissionAdds(c, admin, u, s, []);
      NoFaultsStay(c, admin, u, s);
    }
  }

  lemma {:induction false} NoFaultsRun(srv: Server, calls: seq<Call>)
    ensures RunCalls(srv, calls, []).faults == [] && RunCalls(srv, calls, []).ok
    decreases |calls|
  {
    if calls != [] {
      NoFaultsRun(Exec(srv, calls[0].stmt), calls[1..]);
    }
  }

  lemma NoFaultsStay(c: Config, admin: string, u: DbUser, srv: Server)
    ensures SetPermission(c, admin, u, srv, []).faults == []
    ensures SetPermission(c, admin, u, srv, []).ok == KnownAccess(u.access)
  {
    NoFaultsRun(srv, AdminCalls(admin, u));
    NoFaultsRun(RunCalls(srv, AdminCalls(admin, u), []).srv, GrantCalls(c, admin, u));
  }

  // ---- What exactly is granted ---------------------------------------------------------------------

  lemma {:induction false} GainMember(srv: Server, calls: seq<Call>, e: Entry)
    ensures e in Gain(srv, calls) <==> exists k :: 0 <= k < |calls| && e in Added(srv, calls[k].stmt)
  {
    if calls != [] {
      GainMember(srv, calls[1..], e);
      if e in Gain(srv, calls) && e !in Added(srv, calls[0].stmt) {
        var k :| 0 <= k < |calls[1..]| && e in Added(srv, calls[1..][k].stmt);
        assert calls[k + 1] == calls[1..][k];
      }
      if k :| 0 < k < |calls| && e in Added(srv, calls[k].stmt) {
        assert calls[1..][k - 1] == calls[k];
      }
    }
  }

  /** The entries a readOnly or readWrite user gets for one schema. */
  predicate SchemaEntry(c: Config, u: DbUser, srv: Server, s: string, e: Entry) {
    match e
    case SchemaPriv(sc, r, p) => sc == s && r == u.name && p == Usage
    case TablePriv(t, r, p) => r == u.name && t in srv.tables && srv.tables[t].schema == s && p in TablePrivs(u.access)
    case SeqPriv(q, r, p) => r == u.name && q in srv.seqs && srv.seqs[q].schema == s && p in SeqPrivs(u.access)
    case TableDefault(o, sc, r, p) => o == c.mainUser && sc == s && r == u.name && p in TablePrivs(u.access)
    case SeqDefault(o, sc, r, p) => o == c.mainUser && sc == s && r == u.name && p in SeqPrivs(u.access)
    case _ => false
  }

  lemma {:induction false} OneSchemaGain(c: Config, admin: string, u: DbUser, srv: Server, s: string, e: Entry)
    requires u.access != MAIN
    ensures e in Gain(srv, SchemaCalls(c, admin, u, s)) <==> SchemaEntry(c, u, srv, s, e)
  {
    var calls := SchemaCalls(c, admin, u, s);
    GainMember(srv, calls, e);
    var t, q := if c.rds then 4 else 3, if c.rds then 6 else 4;
    assert calls[0] == Must(GrantSchema(s, u.name, {Usage}));
    assert calls[1] == Must(GrantTables(s, u.name, TablePrivs(u.access)));
    assert calls[2] == Must(GrantSeqs(s, u.name, SeqPrivs(u.access)));
    assert calls[t] == Must(DefaultTables(c.mainUser, s, u.name, TablePrivs(u.access)));
    assert calls[q] == Must(DefaultSeqs(c.mainUser, s, u.name, SeqPrivs(u.access)));
    assert forall k :: 0 <= k < |calls| && k != 0 && k != 1 && k != 2 && k != t && k != q ==> calls[k].stmt.SetRole?;
  }

  lemma {:induction false} AllSchemasGain(c: Config, admin: string, u: DbUser, srv: Server, ss: seq<string>, e: Entry)
    requires u.access != MAIN
    ensures e in Gain(srv, AllSchemas(c, admin, u, ss)) <==> exists s :: s in ss && SchemaEntry(c, u, srv, s, e)
  {
    if ss != [] {
      GainConcat(srv, SchemaCalls(c, admin, u, ss[0]), AllSchemas(c, admin, u, ss[1..]));
      OneSchemaGain(c, admin, u, srv, ss[0], e);
      AllSchemasGain(c, admin, u, srv, ss[1..], e);
    }
  }

  /** The entries the main user of a database gets, and one for the admin. */
  predicate MainEntry(c: Config, admin: string, u: DbUser, e: Entry) {
    match e
    case DbPriv(d, r, p) => d == c.db && ((r == u.name && p in {Make, Connect, Temp}) || (r == admin && p == Make))
    case SchemaPriv(s, r, p) => s in Schemas(c) && r == u.name && p in {Usage, Make}
    case Member(of, r) => r == u.name && of in u.extra
    case _ => false
  }

  lemma {:induction false} MainSchemasGain(c: Config, admin: string, u: DbUser, srv: Server, ss: seq<string>, e: Entry)
    requires u.access == MAIN
    ensures e in Gain(srv, AllSchemas(c, admin, u, ss)) <==>
              e.SchemaPriv? && e.schema in ss && e.role == u.name && e.p in {Usage, Make}
  {
    if ss != [] {
      var calls := SchemaCalls(c, admin, u, ss[0]);
      GainConcat(srv, calls, AllSchemas(c, admin, u, ss[1..]));
      assert calls == [Must(GrantSchema(ss[0], u.name, {Usage, Make}))] && calls[1..] == [];
      MainSchemasGain(c, admin, u, srv, ss[1..], e);
    }
  }

  /** A complete setUserPermission for the main user adds exactly those. */
  lemma {:induction false} MainGain(c: Config, admin: string, u: DbUser, srv: Server, e: Entry)
    requires u.access == MAIN
    ensures e in Gain(srv, GrantCalls(c, admin, u)) <==> MainEntry(c, admin, u, e)
  {
    var m, a, b := MainCalls(c, admin, u), AllSchemas(c, admin, u, Schemas(c)), RoleCalls(u, u.extra);
    GainConcat(srv, m + a, b);
    GainConcat(srv, m, a);
    GainMember(srv, m, e);
    assert |m| == 2 && m[0] == Must(GrantDb(c.db, u.name, {Make, Connect, Temp}));
    assert m[1] == Must(GrantDb(c.db, admin, {Make}));
    MainSchemasGain(c, admin, u, srv, Schemas(c), e);
    RoleGain(srv, u, u.extra, e);
  }

  lemma {:induction false} RoleGain(srv: Server, u: DbUser, roles: seq<string>, e: Entry)
    ensures e in Gain(srv, RoleCalls(u, roles)) <==> e.Member? && e.role == u.name && e.of in roles
  {
    if roles != [] {
      RoleGain(srv, u, roles[1..], e);
    }
  }

  /** The entries of a complete setUserPermission, besides the admin's membership. */
  predicate UserEntry(c: Config, u: DbUser, srv: Server, e: Entry) {
    || (exists s :: s in Schemas(c) && SchemaEntry(c, u, srv, s, e))
    || (e.Member? && e.role == u.name && e.of in u.extra)
  }

  lemma {:induction false} FullGain(c: Config, admin: string, u: DbUser, srv: Server, e: Entry)
    requires u.access != MAIN
    ensures e in Gain(srv, GrantCalls(c, admin, u)) <==> UserEntry(c, u, srv, e)
  {
    var a, b := AllSchemas(c, admin, u, Schemas(c)), RoleCalls(u, u.extra);
    assert MainCalls(c, admin, u) + a == a;
    GainConcat(srv, a, b);
    AllSchemasGain(c, admin, u, srv, Schemas(c), e);
    RoleGain(srv, u, u.extra, e);
  }

  // ---- What the operations refuse ------------------------------------------------------------------

  /** CreateUser wants a new role, UpdateUser an existing one; refused, they make no call. */
  lemma UsersAreGated(c: Config, admin: string, u: DbUser, srv: Server, faults: seq<bool>)
    ensures u.name in srv.roles ==> CreateUser(c, admin, u, srv, faults) == Outcome(srv, faults, false)
    ensures u.name !in srv.roles ==> UpdateUser(c, admin, u, srv, faults) == Outcome(srv, faults, false)
    ensures u.name !in srv.roles ==>
              CreateUser(c, admin, u, srv, faults).srv.roles ==
              if Fails(faults) then srv.roles else srv.roles + {u.name}
    ensures u.name in srv.roles ==> UpdateUser(c, admin, u, srv, faults).srv.roles == srv.roles
  {
    var first := if u.name in srv.roles then AlterRole(u.name) else CreateRole(u.name);
    RunSingle(srv, Must(first), faults);
    SetPermissionAdds(c, admin, u, Exec(srv, first), Rest(faults));
  }

  /** An access type nobody knows is refused; by then the admin may have been made a member. */
  lemma AccessIsGated(c: Config, admin: string, u: DbUser, srv: Server, faults: seq<bool>)
    requires u.access != "main" && u.access != "readWrite" && u.access != "readOnly"
    ensures var o := SetPermission(c, admin, u, srv, faults);
            && !o.ok && o.srv == srv.(acl := o.srv.acl)
            && o.srv.acl == if u.grantToAdmin && !Fails(faults) then srv.acl + {Member(u.name, admin)} else srv.acl
  {
    RunSingle(srv, Call(GrantRole(u.name, admin), false), faults);
  }

  /** The main user keeps its permissions, and a role that is not there has nothing to revoke or drop. */
  lemma RevokingIsGated(c: Config, admin: string, u: DbUser, srv: Server, faults: seq<bool>)
    ensures u.access == "main" || u.name !in srv.roles ==>
              Revoke(c, admin, u, srv, faults) == Outcome(srv, faults, true)
    ensures u.name !in srv.roles ==> DropUser(u, srv, faults) == Outcome(srv, faults, true)
    ensures u.name !in srv.roles ==> DeleteUser(c, admin, u, srv, faults) == Outcome(srv, faults, true)
  {
  }

  /**
   Dropping a role that is there: a failing call is an error, a refusal on account of dependents
   is not, and otherwise the role goes with its memberships and nothing else.
   */
  lemma DroppingIsExact(u: DbUser, srv: Server, faults: seq<bool>)
    requires u.name in srv.roles
    ensures var o := DropUser(u, srv, faults);
            && o.faults == Rest(faults) && o.ok == !Fails(faults)
            && (u.name in o.srv.roles <==>
                  || Fails(faults)
                  || (exists e :: e in srv.acl && !e.Member? && e.role == u.name)
                  || (exists e :: e in srv.acl && (e.TableDefault? || e.SeqDefault?) && e.owner == u.name)
                  || (exists t :: t in srv.tables && srv.tables[t].owner == u.name)
                  || (exists q :: q in srv.seqs && srv.seqs[q].owner == u.name))
            && (u.name in o.srv.roles ==> o.srv == srv)
            && o.srv.tables == srv.tables && o.srv.seqs == srv.seqs && o.srv.roles + {u.name} == srv.roles
            && (forall e :: e in srv.acl && !(e.Member? && (e.of == u.name || e.role == u.name)) ==> e in o.srv.acl)
            && (u.name !in o.srv.roles ==>
                  forall e :: e in o.srv.acl ==> !e.Member? || (e.of != u.name && e.role != u.name))
  {
  }

  predicate IsDefault(s: Stmt) { s.DefaultTables? || s.DefaultSeqs? }

  /** Who default privileges are set as on RDS: the admin if it is a member of the user, else the user. */
  predicate ActsAs(c: Config, admin: string, u: DbUser, calls: seq<Call>, k: nat)
    requires k < |calls| && IsDefault(calls[k].stmt)
  {
    k > 0 && calls[k - 1].stmt == SetRole(if u.grantToAdmin then admin else u.name)
  }

  /** On RDS every default privilege is set after a SET ROLE; elsewhere there is none. */
  lemma {:induction false} DefaultsActAs(c: Config, admin: string, u: DbUser, ss: seq<string>, k: nat)
    requires u.access != MAIN && k < |AllSchemas(c, admin, u, ss)|
    ensures var calls := AllSchemas(c, admin, u, ss);
            && (c.rds && IsDefault(calls[k].stmt) ==> ActsAs(c, admin, u, calls, k))
            && (calls[k].stmt.SetRole? ==> c.rds)
    decreases |ss|
  {
    var first, rest := SchemaCalls(c, admin, u, ss[0]), AllSchemas(c, admin, u, ss[1..]);
    var calls := AllSchemas(c, admin, u, ss);
    assert calls == first + rest;
    if k < |first| {
      assert first[0] == Must(GrantSchema(ss[0], u.name, {Usage}));
      assert first[1] == Must(GrantTables(ss[0], u.name, TablePrivs(u.access)));
      assert first[2] == Must(GrantSeqs(ss[0], u.name, SeqPrivs(u.access)));
    } else {
      DefaultsActAs(c, admin, u, ss[1..], k - |first|);
      assert calls[k] == rest[k - |first|];
      if k > |first| {
        assert calls[k - 1] == rest[k - 1 - |first|];
      }
    }
  }
}
