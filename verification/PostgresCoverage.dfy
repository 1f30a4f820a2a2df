/**
 Consequences for a readOnly or readWrite user: which tables it can use, now and later, and
 that revoking undoes granting.
 */
module PostgresCoverage {
  import opened Acl
  import opened Postgres
  import opened PostgresTheorems

  // ---- Coverage of tables ----------------------------------------------------------------------------

  function TableAcl(srv: Server, u: string, t: string): set<Priv> {
    set p: Priv | TablePriv(t, u, p) in srv.acl
  }

  ghost predicate NoPrivileges(srv: Server, u: string) {
    forall e :: e in srv.acl ==> !PrivilegeOf(e, u)
  }

  datatype NewTable = NewTable(name: string, schema: string, owner: string)

  function CreateTables(srv: Server, ts: seq<NewTable>): Server
    decreases |ts|
  {
    if ts == [] then srv
    else CreateTables(Exec(srv, CreateTable(ts[0].name, ts[0].schema, ts[0].owner)), ts[1..])
  }

  ghost predicate Unmentioned(srv: Server, t: string) {
    forall e :: e in srv.acl && e.TablePriv? ==> e.table != t
  }

  ghost predicate FreshNames(srv: Server, ts: seq<NewTable>) {
    && (forall i :: 0 <= i < |ts| ==> ts[i].name !in srv.tables && Unmentioned(srv, ts[i].name))
    && (forall i, j :: 0 <= i < j < |ts| ==> ts[i].name != ts[j].name)
  }

  /** What `u` may do by default with new tables of `owner` in `schema`. */
  ghost predicate DefaultsAre(srv: Server, u: string, owner: string, schema: string, ps: set<Priv>) {
    forall p :: TableDefault(owner, schema, u, p) in srv.acl <==> p in ps
  }

  /** Creating tables gives each new one its owner's defaults and changes nothing else. */
  lemma {:induction false} NewTablesGetDefaults(srv: Server, ts: seq<NewTable>, u: string)
    requires FreshNames(srv, ts)
    ensures forall t :: t in srv.tables ==> TableAcl(CreateTables(srv, ts), u, t) == TableAcl(srv, u, t)
    ensures forall i, ps :: 0 <= i < |ts| && DefaultsAre(srv, u, ts[i].owner, ts[i].schema, ps) ==>
              TableAcl(CreateTables(srv, ts), u, ts[i].name) == ps
    decreases |ts|
  {
    if ts != [] {
      var t := ts[0];
      var next := Exec(srv, CreateTable(t.name, t.schema, t.owner));
      assert forall e :: e in next.acl && e !in srv.acl ==> e.TablePriv? && e.table == t.name;
      assert FreshNames(next, ts[1..]) by {
        forall i | 0 <= i < |ts[1..]|
          ensures ts[1..][i].name !in next.tables && Unmentioned(next, ts[1..][i].name)
        {
          assert ts[1..][i] == ts[i + 1];
        }
      }
      NewTablesGetDefaults(next, ts[1..], u);
      forall k | k in srv.tables
        ensures TableAcl(CreateTables(srv, ts), u, k) == TableAcl(srv, u, k)
      {
        assert TableAcl(next, u, k) == TableAcl(srv, u, k);
      }
      forall i, ps | 0 <= i < |ts| && DefaultsAre(srv, u, ts[i].owner, ts[i].schema, ps)
        ensures TableAcl(CreateTables(srv, ts), u, ts[i].name) == ps
      {
        if i == 0 {
          FirstTableGetsDefaults(srv, t, u, ps);
        } else {
          assert ts[i] == ts[1..][i - 1];
          assert DefaultsAre(next, u, ts[i].owner, ts[i].schema, ps);
        }
      }
    }
  }

  lemma FirstTableGetsDefaults(srv: Server, t: NewTable, u: string, ps: set<Priv>)
    requires DefaultsAre(srv, u, t.owner, t.schema, ps)
    requires forall e :: e in srv.acl && e.TablePriv? ==> e.table != t.name
    ensures TableAcl(Exec(srv, CreateTable(t.name, t.schema, t.owner)), u, t.name) == ps
  {
  }

  /** The schemas permissions are set on: the configured ones, and `public` unless it is dropped. */
  predicate Listed(c: Config, schema: string) {
    schema in c.schemas || (schema == "public" && !c.dropPublic)
  }

  /**
   From a clean start, a readOnly user holds exactly SELECT and a readWrite user exactly
   SELECT, INSERT, DELETE, UPDATE and TRUNCATE on every table of every listed schema, and
   nothing on other tables. Of the tables created after the call that goes for those created
   by the configured main user, and for no others.
   */
  lemma {:induction false} CoverageOfTables(c: Config, admin: string, u: DbUser, srv: Server, faults: seq<bool>,
                                            later: seq<NewTable>)
    requires (u.access == "readOnly" || u.access == "readWrite") && NoPrivileges(srv, u.name)
    requires SetPermission(c, admin, u, srv, faults).ok
    requires FreshNames(SetPermission(c, admin, u, srv, faults).srv, later)
    ensures var s := CreateTables(SetPermission(c, admin, u, srv, faults).srv, later);
            var ps := if u.access == "readOnly" then {Select} else {Select, Insert, Delete, Update, Truncate};
            && (forall t :: t in srv.tables ==>
                  TableAcl(s, u.name, t) == if Listed(c, srv.tables[t].schema) then ps else {})
            && (forall i :: 0 <= i < |later| ==>
                  TableAcl(s, u.name, later[i].name) ==
                    if Listed(c, later[i].schema) && later[i].owner == c.mainUser then ps else {})
  {
    var o, ps := SetPermission(c, admin, u, srv, faults), TablePrivs(u.access);
    assert forall s :: s in Schemas(c) <==> Listed(c, s);
    GrantedExactly(c, admin, u, srv, faults);
    NewTablesGetDefaults(o.srv, later, u.name);
    forall t | t in srv.tables
      ensures TableAcl(o.srv, u.name, t) == if Listed(c, srv.tables[t].schema) then ps else {}
    {
      PresentTables(c, u, srv, o.srv, t);
    }
    forall i | 0 <= i < |later|
      ensures DefaultsAre(o.srv, u.name, later[i].owner, later[i].schema,
                              if Listed(c, later[i].schema) && later[i].owner == c.mainUser then ps else {})
    {
      LaterDefaults(c, u, srv, o.srv, later[i]);
    }
  }

  /** The user's privileges are exactly what setUserPermission gives. */
  ghost predicate HoldsExactly(c: Config, u: DbUser, srv: Server, after: Server) {
    forall e :: PrivilegeOf(e, u.name) ==> (e in after.acl <==> UserEntry(c, u, srv, e))
  }

  lemma GrantedExactly(c: Config, admin: string, u: DbUser, srv: Server, faults: seq<bool>)
    requires u.access != MAIN && NoPrivileges(srv, u.name) && SetPermission(c, admin, u, srv, faults).ok
    ensures var o := SetPermission(c, admin, u, srv, faults);
            HoldsExactly(c, u, srv, o.srv) && o.srv == srv.(acl := o.srv.acl)
  {
    SetPermissionAdds(c, admin, u, srv, faults);
    forall e
      ensures e in Gain(srv, GrantCalls(c, admin, u)) <==> UserEntry(c, u, srv, e)
    {
      FullGain(c, admin, u, srv, e);
    }
  }

  lemma PresentTables(c: Config, u: DbUser, srv: Server, after: Server, t: string)
    requires HoldsExactly(c, u, srv, after) && t in srv.tables
    ensures TableAcl(after, u.name, t) == if srv.tables[t].schema in Schemas(c) then TablePrivs(u.access) else {}
  {
  }

  lemma LaterDefaults(c: Config, u: DbUser, srv: Server, after: Server, t: NewTable)
    requires HoldsExactly(c, u, srv, after)
    ensures DefaultsAre(after, u.name, t.owner, t.schema,
                        if t.schema in Schemas(c) && t.owner == c.mainUser then TablePrivs(u.access) else {})
  {
  }

  /**
   A DbUser is its own main user (the configuration is built from its own credentials), so
   it gets nothing on tables that anybody else creates later.
   */
  lemma DbUsersMissLaterTables(c: Config, admin: string, u: DbUser, srv: Server, faults: seq<bool>, t: NewTable)
    requires c.mainUser == u.name && t.owner != u.name
    requires (u.access == READ_ONLY || u.access == READ_WRITE) && NoPrivileges(srv, u.name)
    requires SetPermission(c, admin, u, srv, faults).ok && FreshNames(SetPermission(c, admin, u, srv, faults).srv, [t])
    ensures TableAcl(CreateTables(SetPermission(c, admin, u, srv, faults).srv, [t]), u.name, t.name) == {}
  {
    CoverageOfTables(c, admin, u, srv, faults, [t]);
    assert [t][0] == t;
  }

  // ---- Coverage of sequences --------------------------------------------------------------------------

  function SeqAcl(srv: Server, u: string, q: string): set<Priv> {
    set p: Priv | SeqPriv(q, u, p) in srv.acl
  }

  function CreateSeqs(srv: Server, qs: seq<NewTable>): Server
    decreases |qs|
  {
    if qs == [] then srv
    else CreateSeqs(Exec(srv, CreateSeq(qs[0].name, qs[0].schema, qs[0].owner)), qs[1..])
  }

  ghost predicate SeqUnmentioned(srv: Server, q: string) {
    forall e :: e in srv.acl && e.SeqPriv? ==> e.seqn != q
  }

  ghost predicate FreshSeqs(srv: Server, qs: seq<NewTable>) {
    && (forall i :: 0 <= i < |qs| ==> qs[i].name !in srv.seqs && SeqUnmentioned(srv, qs[i].name))
    && (forall i, j :: 0 <= i < j < |qs| ==> qs[i].name != qs[j].name)
  }

  ghost predicate SeqDefaultsAre(srv: Server, u: string, owner: string, schema: string, ps: set<Priv>) {
    forall p :: SeqDefault(owner, schema, u, p) in srv.acl <==> p in ps
  }

  lemma FirstSeqGetsDefaults(srv: Server, q: NewTable, u: string, ps: set<Priv>)
    requires SeqDefaultsAre(srv, u, q.owner, q.schema, ps) && SeqUnmentioned(srv, q.name)
    ensures SeqAcl(Exec(srv, CreateSeq(q.name, q.schema, q.owner)), u, q.name) == ps
  {
  }

  lemma {:induction false} NewSeqsGetDefaults(srv: Server, qs: seq<NewTable>, u: string)
    requires FreshSeqs(srv, qs)
    ensures forall q :: q in srv.seqs ==> SeqAcl(CreateSeqs(srv, qs), u, q) == SeqAcl(srv, u, q)
    ensures forall i, ps :: 0 <= i < |qs| && SeqDefaultsAre(srv, u, qs[i].owner, qs[i].schema, ps) ==>
              SeqAcl(CreateSeqs(srv, qs), u, qs[i].name) == ps
    decreases |qs|
  {
    if qs != [] {
      var q := qs[0];
      var next := Exec(srv, CreateSeq(q.name, q.schema, q.owner));
      assert forall e :: e in next.acl && e !in srv.acl ==> e.SeqPriv? && e.seqn == q.name;
      assert FreshSeqs(next, qs[1..]) by {
        forall i | 0 <= i < |qs[1..]|
          ensures qs[1..][i].name !in next.seqs && SeqUnmentioned(next, qs[1..][i].name)
        {
          assert qs[1..][i] == qs[i + 1];
        }
      }
      NewSeqsGetDefaults(next, qs[1..], u);
      forall k | k in srv.seqs
        ensures SeqAcl(CreateSeqs(srv, qs), u, k) == SeqAcl(srv, u, k)
      {
        assert SeqAcl(next, u, k) == SeqAcl(srv, u, k);
      }
      forall i, ps | 0 <= i < |qs| && SeqDefaultsAre(srv, u, qs[i].owner, qs[i].schema, ps)
        ensures SeqAcl(CreateSeqs(srv, qs), u, qs[i].name) == ps
      {
        if i == 0 {
          FirstSeqGetsDefaults(srv, q, u, ps);
        } else {
          assert qs[i] == qs[1..][i - 1];
          assert SeqDefaultsAre(next, u, qs[i].owner, qs[i].schema, ps);
        }
      }
    }
  }

  lemma PresentSeqs(c: Config, u: DbUser, srv: Server, after: Server, q: string)
    requires HoldsExactly(c, u, srv, after) && q in srv.seqs
    ensures SeqAcl(after, u.name, q) == if srv.seqs[q].schema in Schemas(c) then SeqPrivs(u.access) else {}
  {
  }

  lemma LaterSeqDefaults(c: Config, u: DbUser, srv: Server, after: Server, q: NewTable)
    requires HoldsExactly(c, u, srv, after)
    ensures SeqDefaultsAre(after, u.name, q.owner, q.schema,
                           if q.schema in Schemas(c) && q.owner == c.mainUser then SeqPrivs(u.access) else {})
  {
  }

  /** The same of sequences, with USAGE and SELECT, and UPDATE besides for a readWrite user. */
  lemma {:induction false} CoverageOfSequences(c: Config, admin: string, u: DbUser, srv: Server, faults: seq<bool>,
                                               later: seq<NewTable>)
    requires (u.access == "readOnly" || u.access == "readWrite") && NoPrivileges(srv, u.name)
    requires SetPermission(c, admin, u, srv, faults).ok
    requires FreshSeqs(SetPermission(c, admin, u, srv, faults).srv, later)
    ensures var s := CreateSeqs(SetPermission(c, admin, u, srv, faults).srv, later);
            var ps := if u.access == "readOnly" then {Usage, Select} else {Update, Usage, Select};
            && (forall q :: q in srv.seqs ==>
                  SeqAcl(s, u.name, q) == if Listed(c, srv.seqs[q].schema) then ps else {})
            && (forall i :: 0 <= i < |later| ==>
                  SeqAcl(s, u.name, later[i].name) ==
                    if Listed(c, later[i].schema) && later[i].owner == c.mainUser then ps else {})
  {
    var o, ps := SetPermission(c, admin, u, srv, faults), SeqPrivs(u.access);
    assert forall s :: s in Schemas(c) <==> Listed(c, s);
    GrantedExactly(c, admin, u, srv, faults);
    NewSeqsGetDefaults(o.srv, later, u.name);
    forall q | q in srv.seqs
      ensures SeqAcl(o.srv, u.name, q) == if Listed(c, srv.seqs[q].schema) then ps else {}
    {
      PresentSeqs(c, u, srv, o.srv, q);
    }
    forall i | 0 <= i < |later|
      ensures SeqDefaultsAre(o.srv, u.name, later[i].owner, later[i].schema,
                                 if Listed(c, later[i].schema) && later[i].owner == c.mainUser then ps else {})
    {
      LaterSeqDefaults(c, u, srv, o.srv, later[i]);
    }
  }

  /** And on schemas: USAGE on every listed one, nothing on others. */
  lemma CoverageOfSchemas(c: Config, admin: string, u: DbUser, srv: Server, faults: seq<bool>, s: string, p: Priv)
    requires (u.access == "readOnly" || u.access == "readWrite") && NoPrivileges(srv, u.name)
    requires SetPermission(c, admin, u, srv, faults).ok
    ensures SchemaPriv(s, u.name, p) in SetPermission(c, admin, u, srv, faults).srv.acl <==> Listed(c, s) && p == Usage
  {
    GrantedExactly(c, admin, u, srv, faults);
    assert PrivilegeOf(SchemaPriv(s, u.name, p), u.name);
    assert SchemaEntry(c, u, srv, s, SchemaPriv(s, u.name, p)) <==> p == Usage;
  }

  // ---- Changing the access type ------------------------------------------------------------------------

  /** Whatever the user had before, it keeps, and gets the table privileges of its access type besides. */
  lemma GrantingAddsToTables(c: Config, admin: string, u: DbUser, srv: Server, faults: seq<bool>, t: string)
    requires (u.access == READ_ONLY || u.access == READ_WRITE) && SetPermission(c, admin, u, srv, faults).ok
    requires t in srv.tables
    ensures TableAcl(SetPermission(c, admin, u, srv, faults).srv, u.name, t) ==
              TableAcl(srv, u.name, t) + if srv.tables[t].schema in Schemas(c) then TablePrivs(u.access) else {}
  {
    SetPermissionAdds(c, admin, u, srv, faults);
    forall p
      ensures TablePriv(t, u.name, p) in Gain(srv, GrantCalls(c, admin, u)) <==>
                srv.tables[t].schema in Schemas(c) && p in TablePrivs(u.access)
    {
      var e := TablePriv(t, u.name, p);
      FullGain(c, admin, u, srv, e);
      assert SchemaEntry(c, u, srv, srv.tables[t].schema, e) <==> p in TablePrivs(u.access);
    }
  }

  /** So a user made readOnly is read-only on a listed table exactly if it held no more than SELECT before. */
  lemma ReadOnlyIsExactIff(c: Config, admin: string, u: DbUser, srv: Server, faults: seq<bool>, t: string)
    requires u.access == READ_ONLY && SetPermission(c, admin, u, srv, faults).ok
    requires t in srv.tables && srv.tables[t].schema in Schemas(c)
    ensures TableAcl(SetPermission(c, admin, u, srv, faults).srv, u.name, t) == {Select} <==>
              TableAcl(srv, u.name, t) <= {Select}
  {
    GrantingAddsToTables(c, admin, u, srv, faults, t);
  }

  /** In particular, a change from readWrite to readOnly takes nothing away. */
  lemma ReadWriteSurvivesReadOnly(c: Config, admin: string, u: DbUser, srv: Server, f1: seq<bool>, f2: seq<bool>,
                                  t: string)
    requires u.access == READ_WRITE && SetPermission(c, admin, u, srv, f1).ok
    requires var s := SetPermission(c, admin, u, srv, f1).srv;
             SetPermission(c, admin, u.(access := READ_ONLY), s, f2).ok
    requires NoPrivileges(srv, u.name) && t in srv.tables && srv.tables[t].schema in Schemas(c)
    ensures var s := SetPermission(c, admin, u, srv, f1).srv;
            TableAcl(SetPermission(c, admin, u.(access := READ_ONLY), s, f2).srv, u.name, t) ==
              {Select, Insert, Delete, Update, Truncate}
  {
    SetPermissionAdds(c, admin, u, srv, f1);
    GrantingAddsToTables(c, admin, u, srv, f1, t);
    GrantingAddsToTables(c, admin, u.(access := READ_ONLY), SetPermission(c, admin, u, srv, f1).srv, f2, t);
  }

  // ---- Revoking ----------------------------------------------------------------------------------------

  ghost predicate OwnsNothing(srv: Server, u: string) {
    && (forall t :: t in srv.tables ==> srv.tables[t].owner != u)
    && (forall q :: q in srv.seqs ==> srv.seqs[q].owner != u)
    && (forall e :: e in srv.acl && OwnedDefault(e, u) ==> PrivilegeOf(e, u))
  }

  /** What is left of the entries once the privileges of `u` are gone. */
  function Stripped(acl: set<Entry>, u: string): set<Entry> {
    set e | e in acl && !PrivilegeOf(e, u)
  }

  lemma DropOwnedStrips(srv: Server, u: string)
    requires OwnsNothing(srv, u)
    ensures Exec(srv, DropOwned(u)) == srv.(acl := Stripped(srv.acl, u))
  {
  }

  /** Between what was there and what is left after stripping, with everything else untouched. */
  ghost predicate Stripping(srv: Server, s: Server, u: string) {
    s == srv.(acl := s.acl) && Stripped(srv.acl, u) <= s.acl <= srv.acl
  }

  lemma StrippingAgain(srv: Server, s: Server, u: string)
    requires Stripping(srv, s, u) && OwnsNothing(srv, u)
    ensures OwnsNothing(s, u) && Stripped(s.acl, u) == Stripped(srv.acl, u)
  {
  }

  lemma {:induction false} RevokeOneSchema(c: Config, u: DbUser, srv: Server, sc: string, faults: seq<bool>)
    requires OwnsNothing(srv, u.name)
    ensures var o := RunCalls(srv, RevokeSchemaCalls(c, u, sc), faults);
            Stripping(srv, o.srv, u.name) && (o.ok ==> o.srv == srv.(acl := Stripped(srv.acl, u.name)))
  {
    var a, b, d := RevokeDefaults(c.mainUser, sc, u.name), RevokeSchema(sc, u.name), DropOwned(u.name);
    var s1 := Exec(srv, a);
    var s2 := Exec(s1, b);
    assert [Must(a), Must(b), Must(d)] == [Must(a)] + ([Must(b)] + [Must(d)]);
    RunConcat(srv, [Must(a)], [Must(b)] + [Must(d)], faults);
    RunSingle(srv, Must(a), faults);
    RunConcat(s1, [Must(b)], [Must(d)], Rest(faults));
    RunSingle(s1, Must(b), Rest(faults));
    RunSingle(s2, Must(d), Rest(Rest(faults)));
    assert Stripping(srv, s1, u.name) && Stripping(srv, s2, u.name);
    StrippingAgain(srv, s2, u.name);
    DropOwnedStrips(s2, u.name);
  }

  lemma {:induction false} RevokeSchemasStrip(c: Config, u: DbUser, srv: Server, ss: seq<string>, faults: seq<bool>)
    requires OwnsNothing(srv, u.name)
    ensures var o := RunCalls(srv, RevokeAllSchemas(c, u, ss), faults);
            Stripping(srv, o.srv, u.name) && (o.ok && ss != [] ==> o.srv == srv.(acl := Stripped(srv.acl, u.name)))
    decreases |ss|
  {
    if ss != [] {
      RunConcat(srv, RevokeSchemaCalls(c, u, ss[0]), RevokeAllSchemas(c, u, ss[1..]), faults);
      RevokeOneSchema(c, u, srv, ss[0], faults);
      var o := RunCalls(srv, RevokeSchemaCalls(c, u, ss[0]), faults);
      StrippingAgain(srv, o.srv, u.name);
      RevokeSchemasStrip(c, u, o.srv, ss[1..], o.faults);
    }
  }

  function Memberships(u: DbUser, roles: seq<string>): set<Entry> {
    set r | r in roles :: Member(r, u.name)
  }

  lemma {:induction false} RevokeRolesStrip(u: DbUser, srv: Server, roles: seq<string>, faults: seq<bool>)
    ensures var o := RunCalls(srv, RevokeRoleCalls(u, roles), faults);
            && o.srv == srv.(acl := o.srv.acl)
            && srv.acl - Memberships(u, roles) <= o.srv.acl <= srv.acl
            && (o.ok ==> o.srv.acl == srv.acl - Memberships(u, roles))
    decreases |roles|
  {
    if roles != [] {
      var call, rest := Must(RevokeRole(roles[0], u.name)), roles[1..];
      RunConcat(srv, [call], RevokeRoleCalls(u, rest), faults);
      RunSingle(srv, call, faults);
      var next := Exec(srv, call.stmt);
      RevokeRolesStrip(u, next, rest, Rest(faults));
      assert Memberships(u, roles) == {Member(roles[0], u.name)} + Memberships(u, rest);
    }
  }

  /** What the optional grant on deletion adds, if it is made and goes through. */
  function OnDeletePart(admin: string, u: DbUser, srv: Server, faults: seq<bool>): set<Entry> {
    var later := RunCalls(srv, RevokeRoleCalls(u, u.extra), faults).faults;
    if !u.grantToAdmin && u.grantOnDelete && !Fails(later) then {Member(u.name, admin)} else {}
  }

  /**
   However far revokePermissions gets, it touches nothing but the user's privileges, its
   listed roles and the admin's membership in it; complete, it leaves exactly the rest.
   */
  lemma RevokeEffect(c: Config, admin: string, u: DbUser, srv: Server, faults: seq<bool>)
    requires u.access != MAIN && u.name in srv.roles && u.name != admin && OwnsNothing(srv, u.name)
    ensures var o, m := Revoke(c, admin, u, srv, faults), Memberships(u, u.extra);
            var g := OnDeletePart(admin, u, srv, faults);
            && o.srv == srv.(acl := o.srv.acl)
            && Stripped(srv.acl, u.name) - m <= o.srv.acl <= srv.acl + g
            && (o.ok ==> o.srv.acl == (if Schemas(c) == [] then srv.acl else Stripped(srv.acl, u.name)) - m + g)
  {
    var roles, grant := RevokeRoleCalls(u, u.extra), AdminOnDeleteCalls(admin, u);
    var schemas := RevokeAllSchemas(c, u, Schemas(c));
    RunConcat(srv, roles + grant, schemas, faults);
    RunConcat(srv, roles, grant, faults);
    RevokeRolesEffect(admin, u, srv, faults);
    RevokeRolesStrip(u, srv, u.extra, faults);
    var o := RunCalls(srv, roles + grant, faults);
    if o.ok {
      RevokeSchemasStrip(c, u, o.srv, Schemas(c), o.faults);
    }
  }

  /** The part before the schemas. */
  lemma {:induction false} RevokeRolesEffect(admin: string, u: DbUser, srv: Server, faults: seq<bool>)
    requires OwnsNothing(srv, u.name)
    ensures var o := RunCalls(srv, RevokeRoleCalls(u, u.extra) + AdminOnDeleteCalls(admin, u), faults);
            var m, g := Memberships(u, u.extra), OnDeletePart(admin, u, srv, faults);
            o.ok ==>
              && o.srv == srv.(acl := srv.acl - m + g) && OwnsNothing(o.srv, u.name)
              && Stripped(o.srv.acl, u.name) == Stripped(srv.acl, u.name) - m + g
  {
    var roles, grant := RevokeRoleCalls(u, u.extra), AdminOnDeleteCalls(admin, u);
    RunConcat(srv, roles, grant, faults);
    RevokeRolesStrip(u, srv, u.extra, faults);
    var o := RunCalls(srv, roles, faults);
    if o.ok {
      RunSingle(o.srv, Call(GrantRole(u.name, admin), false), o.faults);
    }
  }

  /** A user the server knows, holding nothing that setUserPermission would give it. */
  ghost predicate CleanSlate(srv: Server, u: DbUser) {
    && u.name in srv.roles && NoPrivileges(srv, u.name) && OwnsNothing(srv, u.name)
    && srv.acl !! Memberships(u, u.extra)
  }

  lemma GrantedStillOwnsNothing(c: Config, admin: string, u: DbUser, srv: Server, faults: seq<bool>)
    requires u.access != MAIN && OwnsNothing(srv, u.name)
    ensures OwnsNothing(SetPermission(c, admin, u, srv, faults).srv, u.name)
  {
    SetPermissionAdds(c, admin, u, srv, faults);
    var o := SetPermission(c, admin, u, srv, faults);
    forall e | e in o.srv.acl && OwnedDefault(e, u.name)
      ensures PrivilegeOf(e, u.name)
    {
      FullGain(c, admin, u, srv, e);
    }
  }

  /**
   Revoking undoes granting, complete or cut short: the server is back where it was, except
   that the admin may have become a member of the user on the way.
   */
  lemma RevokeUndoesGrant(c: Config, admin: string, u: DbUser, srv: Server, f1: seq<bool>, f2: seq<bool>)
    requires (u.access == READ_ONLY || u.access == READ_WRITE) && u.name != admin && CleanSlate(srv, u)
    requires Revoke(c, admin, u, SetPermission(c, admin, u, srv, f1).srv, f2).ok
    ensures var o := Revoke(c, admin, u, SetPermission(c, admin, u, srv, f1).srv, f2);
            && (o.srv == srv || o.srv == srv.(acl := srv.acl + {Member(u.name, admin)}))
            && (!u.grantToAdmin && !u.grantOnDelete ==> o.srv == srv)
  {
    GrantedStillOwnsNothing(c, admin, u, srv, f1);
    GrantIsStrippable(c, admin, u, srv, f1);
    SetPermissionAdds(c, admin, u, srv, f1);
    RevokeEffect(c, admin, u, SetPermission(c, admin, u, srv, f1).srv, f2);
  }

  /** Taking away the privileges and the listed roles takes away all that was granted. */
  lemma GrantIsStrippable(c: Config, admin: string, u: DbUser, srv: Server, faults: seq<bool>)
    requires u.access != MAIN && u.name != admin && CleanSlate(srv, u)
    ensures var acl := SetPermission(c, admin, u, srv, faults).srv.acl;
            (if Schemas(c) == [] then acl else Stripped(acl, u.name)) - Memberships(u, u.extra) ==
              srv.acl + AdminPart(admin, u, AdminGranted(u, faults))
  {
    var m, a := Memberships(u, u.extra), AdminPart(admin, u, AdminGranted(u, faults));
    SetPermissionAdds(c, admin, u, srv, faults);
    forall e
      ensures e in Gain(srv, GrantCalls(c, admin, u)) ==> e in m || (PrivilegeOf(e, u.name) && Schemas(c) != [])
    {
      FullGain(c, admin, u, srv, e);
    }
    forall e | e in m
      ensures e !in srv.acl + a && !PrivilegeOf(e, u.name)
    {
    }
  }

  /** Neither operation, however far it gets, changes an entry that is not the user's own business. */
  lemma OthersAreUntouched(c: Config, admin: string, u: DbUser, srv: Server, faults: seq<bool>, e: Entry)
    requires u.access != MAIN && u.name != admin && OwnsNothing(srv, u.name)
    requires !PrivilegeOf(e, u.name) && e !in Memberships(u, u.extra) && e != Member(u.name, admin)
    ensures e in SetPermission(c, admin, u, srv, faults).srv.acl <==> e in srv.acl
    ensures e in Revoke(c, admin, u, srv, faults).srv.acl <==> e in srv.acl
  {
    SetPermissionAdds(c, admin, u, srv, faults);
    FullGain(c, admin, u, srv, e);
    if u.name in srv.roles {
      RevokeEffect(c, admin, u, srv, faults);
    }
  }
}
