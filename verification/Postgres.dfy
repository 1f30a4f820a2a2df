/**
 User management on Postgres: setUserPermission, revokePermissions and the operations built
 on them, as sequences of calls to the server any of which may fail.
 */
module Postgres {
  import opened Acl

  const MAIN := "main"
  const READ_WRITE := "readWrite"
  const READ_ONLY := "readOnly"

  datatype Config = Config(db: string, schemas: seq<string>, dropPublic: bool, mainUser: string, rds: bool)

  datatype DbUser = DbUser(name: string, access: string, extra: seq<string>, grantToAdmin: bool, grantOnDelete: bool)

  // ---- The calls each operation makes ------------------------------------------------------------

  function Schemas(c: Config): seq<string> {
    c.schemas + if c.dropPublic then [] else ["public"]
  }

  function Must(s: Stmt): Call { Call(s, true) }

  function AdminCalls(admin: string, u: DbUser): seq<Call> {
    if u.grantToAdmin then [Call(GrantRole(u.name, admin), false)] else []
  }

  function TablePrivs(access: string): set<Priv> {
    if access == READ_WRITE then {Select, Insert, Delete, Update, Truncate}
    else if access == READ_ONLY then {Select}
    else {}
  }

  function SeqPrivs(access: string): set<Priv> {
    if access == READ_WRITE then {Update, Usage, Select}
    else if access == READ_ONLY then {Usage, Select}
    else {}
  }

  function ActingUser(admin: string, u: DbUser): string {
    if u.grantToAdmin then admin else u.name
  }

  /** On the schema and what is in it. */
  function ObjectCalls(u: DbUser, s: string): seq<Call> {
    [Must(GrantSchema(s, u.name, {Usage})),
     Must(GrantTables(s, u.name, TablePrivs(u.access))),
     Must(GrantSeqs(s, u.name, SeqPrivs(u.access)))]
  }

  /** On what is going to be in it. */
  function DefaultCalls(c: Config, admin: string, u: DbUser, s: string): seq<Call> {
    var tables := Must(DefaultTables(c.mainUser, s, u.name, TablePrivs(u.access)));
    var seqs := Must(DefaultSeqs(c.mainUser, s, u.name, SeqPrivs(u.access)));
    var actor := Must(SetRole(ActingUser(admin, u)));
    if c.rds then [actor, tables, actor, seqs] else [tables, seqs]
  }

  function SchemaCalls(c: Config, admin: string, u: DbUser, s: string): seq<Call> {
    if u.access == MAIN then [Must(GrantSchema(s, u.name, {Usage, Make}))]
    else ObjectCalls(u, s) + DefaultCalls(c, admin, u, s)
  }

  function AllSchemas(c: Config, admin: string, u: DbUser, ss: seq<string>): seq<Call> {
    if ss == [] then [] else SchemaCalls(c, admin, u, ss[0]) + AllSchemas(c, admin, u, ss[1..])
  }

  function RoleCalls(u: DbUser, roles: seq<string>): seq<Call> {
    if roles == [] then [] else [Must(GrantRole(roles[0], u.name))] + RoleCalls(u, roles[1..])
  }

  function MainCalls(c: Config, admin: string, u: DbUser): seq<Call> {
    if u.access == MAIN
    then [Must(GrantDb(c.db, u.name, {Make, Connect, Temp})), Must(GrantDb(c.db, admin, {Make}))]
    else []
  }

  /** Everything after the optional grant to the admin. */
  function GrantCalls(c: Config, admin: string, u: DbUser): seq<Call> {
    MainCalls(c, admin, u) + AllSchemas(c, admin, u, Schemas(c)) + RoleCalls(u, u.extra)
  }

  predicate KnownAccess(access: string) {
    access == MAIN || access == READ_WRITE || access == READ_ONLY
  }

  function SetPermission(c: Config, admin: string, u: DbUser, srv: Server, faults: seq<bool>): Outcome {
    var o := RunCalls(srv, AdminCalls(admin, u), faults);
    if !KnownAccess(u.access) then o.(ok := false)
    else RunCalls(o.srv, GrantCalls(c, admin, u), o.faults)
  }

  function RevokeRoleCalls(u: DbUser, roles: seq<string>): seq<Call> {
    if roles == [] then [] else [Must(RevokeRole(roles[0], u.name))] + RevokeRoleCalls(u, roles[1..])
  }

  function AdminOnDeleteCalls(admin: string, u: DbUser): seq<Call> {
    if !u.grantToAdmin && u.grantOnDelete then [Call(GrantRole(u.name, admin), false)] else []
  }

  function RevokeSchemaCalls(c: Config, u: DbUser, s: string): seq<Call> {
    [Must(RevokeDefaults(c.mainUser, s, u.name)), Must(RevokeSchema(s, u.name)), Must(DropOwned(u.name))]
  }

  function RevokeAllSchemas(c: Config, u: DbUser, ss: seq<string>): seq<Call> {
    if ss == [] then [] else RevokeSchemaCalls(c, u, ss[0]) + RevokeAllSchemas(c, u, ss[1..])
  }

  function RevokeCalls(c: Config, admin: string, u: DbUser): seq<Call> {
    RevokeRoleCalls(u, u.extra) + AdminOnDeleteCalls(admin, u) + RevokeAllSchemas(c, u, Schemas(c))
  }

  /** The main user keeps its permissions, and a role that does not exist has none. */
  function Revoke(c: Config, admin: string, u: DbUser, srv: Server, faults: seq<bool>): Outcome {
    if u.access == MAIN || u.name !in srv.roles then Outcome(srv, faults, true)
    else RunCalls(srv, RevokeCalls(c, admin, u), faults)
  }

  /** Objects or privileges that make the server refuse to drop the role. */
  predicate HasDependents(srv: Server, u: string) {
    || (exists e :: e in srv.acl && (PrivilegeOf(e, u) || OwnedDefault(e, u)))
    || (exists t :: t in srv.tables && srv.tables[t].owner == u)
    || (exists q :: q in srv.seqs && srv.seqs[q].owner == u)
  }

  /** DROP USER; a refusal on account of dependents is logged and passed over. */
  function DropUser(u: DbUser, srv: Server, faults: seq<bool>): Outcome {
    if u.name !in srv.roles then Outcome(srv, faults, true)
    else if Fails(faults) then Outcome(srv, Rest(faults), false)
    else if HasDependents(srv, u.name) then Outcome(srv, Rest(faults), true)
    else Outcome(Exec(srv, DropRole(u.name)), Rest(faults), true)
  }

  function DeleteUser(c: Config, admin: string, u: DbUser, srv: Server, faults: seq<bool>): Outcome {
    var o := Revoke(c, admin, u, srv, faults);
    if o.ok then DropUser(u, o.srv, o.faults) else o
  }

  /** One statement that has to go through, then setUserPermission. */
  function WithPermission(c: Config, admin: string, u: DbUser, s: Stmt, srv: Server, faults: seq<bool>): Outcome {
    var o := RunCalls(srv, [Must(s)], faults);
    if o.ok then SetPermission(c, admin, u, o.srv, o.faults) else o
  }

  function CreateUser(c: Config, admin: string, u: DbUser, srv: Server, faults: seq<bool>): Outcome {
    if u.name in srv.roles then Outcome(srv, faults, false)
    else WithPermission(c, admin, u, CreateRole(u.name), srv, faults)
  }

  function UpdateUser(c: Config, admin: string, u: DbUser, srv: Server, faults: seq<bool>): Outcome {
    if u.name !in srv.roles then Outcome(srv, faults, false)
    else WithPermission(c, admin, u, AlterRole(u.name), srv, faults)
  }

  function CreateOrUpdateUser(c: Config, admin: string, u: DbUser, srv: Server, faults: seq<bool>): Outcome {
    var o := if u.name !in srv.roles then CreateUser(c, admin, u, srv, faults)
             else UpdateUser(c, admin, u, srv, faults);
    if o.ok then SetPermission(c, admin, u, o.srv, o.faults) else o
  }

  // ---- The operations as the operator runs them ----------------------------------------------------

  lemma {:induction false} AllSchemasConcat(c: Config, admin: string, u: DbUser, a: seq<string>, b: seq<string>)
    ensures AllSchemas(c, admin, u, a + b) == AllSchemas(c, admin, u, a) + AllSchemas(c, admin, u, b)
  {
    if a == [] {
      assert a + b == b;
    } else {
      assert (a + b)[1..] == a[1..] + b;
      AllSchemasConcat(c, admin, u, a[1..], b);
    }
  }

  lemma {:induction false} RoleCallsConcat(u: DbUser, a: seq<string>, b: seq<string>)
    ensures RoleCalls(u, a + b) == RoleCalls(u, a) + RoleCalls(u, b)
    ensures RevokeRoleCalls(u, a + b) == RevokeRoleCalls(u, a) + RevokeRoleCalls(u, b)
  {
    if a == [] {
      assert a + b == b;
    } else {
      assert (a + b)[1..] == a[1..] + b;
      RoleCallsConcat(u, a[1..], b);
    }
  }

  lemma {:induction false} RevokeAllSchemasConcat(c: Config, u: DbUser, a: seq<string>, b: seq<string>)
    ensures RevokeAllSchemas(c, u, a + b) == RevokeAllSchemas(c, u, a) + RevokeAllSchemas(c, u, b)
  {
    if a == [] {
      assert a + b == b;
    } else {
      assert (a + b)[1..] == a[1..] + b;
      RevokeAllSchemasConcat(c, u, a[1..], b);
    }
  }

  lemma SplitAt(xs: seq<string>, i: nat)
    requires i < |xs|
    ensures xs[..i + 1] == xs[..i] + [xs[i]] && xs == xs[..i + 1] + xs[i + 1..]
  {
  }

  /** One turn of a loop: what has run so far, then this item, then the rest. */
  lemma {:induction false} LoopTurn(srv: Server, faults: seq<bool>, before: seq<Call>, item: seq<Call>,
                                    after: seq<Call>, now: Outcome)
    requires RunCalls(srv, before, faults) == now && now.ok
    ensures RunCalls(srv, before + item, faults) == RunCalls(now.srv, item, now.faults)
    ensures !RunCalls(now.srv, item, now.faults).ok ==>
              RunCalls(srv, (before + item) + after, faults) == RunCalls(now.srv, item, now.faults)
  {
    RunConcat(srv, before, item, faults);
    RunConcat(srv, before + item, after, faults);
  }

  class PgServer {
    var srv: Server
    var faults: seq<bool>

    constructor (srv: Server, faults: seq<bool>)
      ensures this.srv == srv && this.faults == faults
    {
      this.srv := srv;
      this.faults := faults;
    }

    /** One call to the server: the `k`-th of `calls`, all of which the caller is going to make. */
    method Do(s: Stmt, ghost calls: seq<Call>, ghost k: nat) returns (ok: bool)
      requires k < |calls| && calls[k] == Must(s)
      modifies this
      ensures RunCalls(old(srv), calls[k..], old(faults)) ==
                if ok then RunCalls(srv, calls[k + 1..], faults) else Outcome(srv, faults, false)
    {
      assert calls[k..][1..] == calls[k + 1..];
      ok := !Fails(faults);
      if ok {
        srv := Exec(srv, s);
      }
      faults := Rest(faults);
    }

    /** A call whose failure is only logged. */
    method Attempt(s: Stmt)
      modifies this
      ensures Outcome(srv, faults, true) == RunCalls(old(srv), [Call(s, false)], old(faults))
    {
      if !Fails(faults) {
        srv := Exec(srv, s);
      }
      faults := Rest(faults);
    }

    method GrantOnSchema(c: Config, admin: string, u: DbUser, s: string) returns (ok: bool)
      modifies this
      ensures Outcome(srv, faults, ok) == RunCalls(old(srv), SchemaCalls(c, admin, u, s), old(faults))
    {
      if u.access == MAIN {
        ghost var calls := SchemaCalls(c, admin, u, s);
        assert calls[0..] == calls && calls[1..] == [];
        ok := Do(GrantSchema(s, u.name, {Usage, Make}), calls, 0);
        return;
      }
      RunConcat(srv, ObjectCalls(u, s), DefaultCalls(c, admin, u, s), faults);
      ok := GrantOnObjects(u, s);
      if !ok { return; }
      ok := DefaultsOnSchema(c, admin, u, s);
    }

    method GrantOnObjects(u: DbUser, s: string) returns (ok: bool)
      modifies this
      ensures Outcome(srv, faults, ok) == RunCalls(old(srv), ObjectCalls(u, s), old(faults))
    {
      ghost var calls := ObjectCalls(u, s);
      assert calls[0..] == calls && calls[3..] == [];
      ok := Do(GrantSchema(s, u.name, {Usage}), calls, 0);
      if !ok { return; }
      ok := Do(GrantTables(s, u.name, TablePrivs(u.access)), calls, 1);
      if !ok { return; }
      ok := Do(GrantSeqs(s, u.name, SeqPrivs(u.access)), calls, 2);
    }

    /** Default privileges, set directly or, as a workaround on RDS, after a SET ROLE. */
    method DefaultsOnSchema(c: Config, admin: string, u: DbUser, s: string) returns (ok: bool)
      modifies this
      ensures Outcome(srv, faults, ok) == RunCalls(old(srv), DefaultCalls(c, admin, u, s), old(faults))
    {
      ghost var calls := DefaultCalls(c, admin, u, s);
      assert calls[0..] == calls && calls[|calls|..] == [];
      if c.rds {
        ok := Do(SetRole(ActingUser(admin, u)), calls, 0);
        if !ok { return; }
        ok := Do(DefaultTables(c.mainUser, s, u.name, TablePrivs(u.access)), calls, 1);
        if !ok { return; }
        ok := Do(SetRole(ActingUser(admin, u)), calls, 2);
        if !ok { return; }
        ok := Do(DefaultSeqs(c.mainUser, s, u.name, SeqPrivs(u.access)), calls, 3);
      } else {
        ok := Do(DefaultTables(c.mainUser, s, u.name, TablePrivs(u.access)), calls, 0);
        if !ok { return; }
        ok := Do(DefaultSeqs(c.mainUser, s, u.name, SeqPrivs(u.access)), calls, 1);
      }
    }

    /** The loop over schemas, for any access type. */
    method GrantOnSchemas(c: Config, admin: string, u: DbUser) returns (ok: bool)
      modifies this
      ensures Outcome(srv, faults, ok) == RunCalls(old(srv), AllSchemas(c, admin, u, Schemas(c)), old(faults))
    {
      var ss := Schemas(c);
      for i := 0 to |ss|
        invariant Outcome(srv, faults, true) == RunCalls(old(srv), AllSchemas(c, admin, u, ss[..i]), old(faults))
      {
        ghost var item := SchemaCalls(c, admin, u, ss[i]);
        assert AllSchemas(c, admin, u, [ss[i]]) == item + [] == item;
        SplitAt(ss, i);
        AllSchemasConcat(c, admin, u, ss[..i], [ss[i]]);
        AllSchemasConcat(c, admin, u, ss[..i + 1], ss[i + 1..]);
        LoopTurn(old(srv), old(faults), AllSchemas(c, admin, u, ss[..i]), item, AllSchemas(c, admin, u, ss[i + 1..]),
                 Outcome(srv, faults, true));
        ok := GrantOnSchema(c, admin, u, ss[i]);
        if !ok { return; }
      }
      assert ss[..|ss|] == ss;
      return true;
    }

    method GrantRoles(u: DbUser) returns (ok: bool)
      modifies this
      ensures Outcome(srv, faults, ok) == RunCalls(old(srv), RoleCalls(u, u.extra), old(faults))
    {
      var rs := u.extra;
      for i := 0 to |rs|
        invariant Outcome(srv, faults, true) == RunCalls(old(srv), RoleCalls(u, rs[..i]), old(faults))
      {
        ghost var item := [Must(GrantRole(rs[i], u.name))];
        assert RoleCalls(u, [rs[i]]) == item;
        SplitAt(rs, i);
        RoleCallsConcat(u, rs[..i], [rs[i]]);
        RoleCallsConcat(u, rs[..i + 1], rs[i + 1..]);
        LoopTurn(old(srv), old(faults), RoleCalls(u, rs[..i]), item, RoleCalls(u, rs[i + 1..]),
                 Outcome(srv, faults, true));
        assert item[0..] == item && item[1..] == [];
        ok := Do(GrantRole(rs[i], u.name), item, 0);
        if !ok { return; }
      }
      assert rs[..|rs|] == rs;
      return true;
    }

    method SetUserPermission(c: Config, admin: string, u: DbUser) returns (ok: bool)
      modifies this
      ensures Outcome(srv, faults, ok) == SetPermission(c, admin, u, old(srv), old(faults))
    {
      if u.grantToAdmin {
        Attempt(GrantRole(u.name, admin));
      }
      if !KnownAccess(u.access) {
        return false;
      }
      ghost var main, schemas := MainCalls(c, admin, u), AllSchemas(c, admin, u, Schemas(c));
      ghost var roles := RoleCalls(u, u.extra);
      ghost var start := Outcome(srv, faults, true);
      RunConcat(srv, main + schemas, roles, faults);
      RunConcat(srv, main, schemas, faults);
      if u.access == MAIN {
        assert main[0..] == main && main[2..] == [];
        ok := Do(GrantDb(c.db, u.name, {Make, Connect, Temp}), main, 0);
        if !ok { return; }
        ok := Do(GrantDb(c.db, admin, {Make}), main, 1);
        if !ok { return; }
      }
      assert Outcome(srv, faults, true) == RunCalls(start.srv, main, start.faults);
      ok := GrantOnSchemas(c, admin, u);
      if !ok { return; }
      ok := GrantRoles(u);
    }

    method RevokeRoles(u: DbUser) returns (ok: bool)
      modifies this
      ensures Outcome(srv, faults, ok) == RunCalls(old(srv), RevokeRoleCalls(u, u.extra), old(faults))
    {
      var rs := u.extra;
      for i := 0 to |rs|
        invariant Outcome(srv, faults, true) == RunCalls(old(srv), RevokeRoleCalls(u, rs[..i]), old(faults))
      {
        ghost var item := [Must(RevokeRole(rs[i], u.name))];
        assert RevokeRoleCalls(u, [rs[i]]) == item;
        SplitAt(rs, i);
        RoleCallsConcat(u, rs[..i], [rs[i]]);
        RoleCallsConcat(u, rs[..i + 1], rs[i + 1..]);
        LoopTurn(old(srv), old(faults), RevokeRoleCalls(u, rs[..i]), item, RevokeRoleCalls(u, rs[i + 1..]),
                 Outcome(srv, faults, true));
        assert item[0..] == item && item[1..] == [];
        ok := Do(RevokeRole(rs[i], u.name), item, 0);
        if !ok { return; }
      }
      assert rs[..|rs|] == rs;
      return true;
    }

    method RevokeOnSchema(c: Config, u: DbUser, s: string) returns (ok: bool)
      modifies this
      ensures Outcome(srv, faults, ok) == RunCalls(old(srv), RevokeSchemaCalls(c, u, s), old(faults))
    {
      ghost var calls := RevokeSchemaCalls(c, u, s);
      assert calls[0..] == calls && calls[3..] == [];
      ok := Do(RevokeDefaults(c.mainUser, s, u.name), calls, 0);
      if !ok { return; }
      ok := Do(RevokeSchema(s, u.name), calls, 1);
      if !ok { return; }
      ok := Do(DropOwned(u.name), calls, 2);
    }

    method RevokeOnSchemas(c: Config, u: DbUser) returns (ok: bool)
      modifies this
      ensures Outcome(srv, faults, ok) == RunCalls(old(srv), RevokeAllSchemas(c, u, Schemas(c)), old(faults))
    {
      var ss := Schemas(c);
      for i := 0 to |ss|
        invariant Outcome(srv, faults, true) == RunCalls(old(srv), RevokeAllSchemas(c, u, ss[..i]), old(faults))
      {
        ghost var item := RevokeSchemaCalls(c, u, ss[i]);
        assert RevokeAllSchemas(c, u, [ss[i]]) == item + [] == item;
        SplitAt(ss, i);
        RevokeAllSchemasConcat(c, u, ss[..i], [ss[i]]);
        RevokeAllSchemasConcat(c, u, ss[..i + 1], ss[i + 1..]);
        LoopTurn(old(srv), old(faults), RevokeAllSchemas(c, u, ss[..i]), item, RevokeAllSchemas(c, u, ss[i + 1..]),
                 Outcome(srv, faults, true));
        ok := RevokeOnSchema(c, u, ss[i]);
        if !ok { return; }
      }
      assert ss[..|ss|] == ss;
      return true;
    }

    method RevokePermissions(c: Config, admin: string, u: DbUser) returns (ok: bool)
      modifies this
      ensures Outcome(srv, faults, ok) == Revoke(c, admin, u, old(srv), old(faults))
    {
      if u.access == MAIN || u.name !in srv.roles {
        return true;
      }
      ghost var roles, grant, schemas :=
        RevokeRoleCalls(u, u.extra), AdminOnDeleteCalls(admin, u), RevokeAllSchemas(c, u, Schemas(c));
      RunConcat(srv, roles + grant, schemas, faults);
      RunConcat(srv, roles, grant, faults);
      ok := RevokeRoles(u);
      if !ok { return; }
      if !u.grantToAdmin && u.grantOnDelete {
        Attempt(GrantRole(u.name, admin));
      }
      ok := RevokeOnSchemas(c, u);
    }

    method Drop(u: DbUser) returns (ok: bool)
      modifies this
      ensures Outcome(srv, faults, ok) == DropUser(u, old(srv), old(faults))
    {
      if u.name !in srv.roles {
        return true;
      }
      ok := !Fails(faults);
      faults := Rest(faults);
      if ok && !HasDependents(srv, u.name) {
        srv := Exec(srv, DropRole(u.name));
      }
    }

    method Delete(c: Config, admin: string, u: DbUser) returns (ok: bool)
      modifies this
      ensures Outcome(srv, faults, ok) == DeleteUser(c, admin, u, old(srv), old(faults))
    {
      ok := RevokePermissions(c, admin, u);
      if !ok { return; }
      ok := Drop(u);
    }

    method DoThenPermit(c: Config, admin: string, u: DbUser, s: Stmt) returns (ok: bool)
      modifies this
      ensures Outcome(srv, faults, ok) == WithPermission(c, admin, u, s, old(srv), old(faults))
    {
      assert [Must(s)][0..] == [Must(s)] && [Must(s)][1..] == [];
      ok := Do(s, [Must(s)], 0);
      if !ok { return; }
      ok := SetUserPermission(c, admin, u);
    }

    method Create(c: Config, admin: string, u: DbUser) returns (ok: bool)
      modifies this
      ensures Outcome(srv, faults, ok) == CreateUser(c, admin, u, old(srv), old(faults))
    {
      if u.name in srv.roles {
        return false;
      }
      ok := DoThenPermit(c, admin, u, CreateRole(u.name));
    }

    method Update(c: Config, admin: string, u: DbUser) returns (ok: bool)
      modifies this
      ensures Outcome(srv, faults, ok) == UpdateUser(c, admin, u, old(srv), old(faults))
    {
      if u.name !in srv.roles {
        return false;
      }
      ok := DoThenPermit(c, admin, u, AlterRole(u.name));
    }

    method CreateOrUpdate(c: Config, admin: string, u: DbUser) returns (ok: bool)
      modifies this
      ensures Outcome(srv, faults, ok) == CreateOrUpdateUser(c, admin, u, old(srv), old(faults))
    {
      if u.name !in srv.roles {
        ok := Create(c, admin, u);
      } else {
        ok := Update(c, admin, u);
      }
      if !ok { return; }
      ok := SetUserPermission(c, admin, u);
    }
  }
}
