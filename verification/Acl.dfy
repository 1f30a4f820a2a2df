/**
 What SQL statements do to a Postgres server, as far as the operator is concerned: roles,
 tables and sequences, and who may do what with them. The access control state is one set
 of entries, so a GRANT adds entries and a REVOKE takes some away.
 */
module Acl {

  datatype Priv = Select | Insert | Delete | Update | Truncate | Usage | Make | Connect | Temp

  datatype Entry =
    | DbPriv(db: string, role: string, p: Priv)
    | SchemaPriv(schema: string, role: string, p: Priv)
    | TablePriv(table: string, role: string, p: Priv)
    | SeqPriv(seqn: string, role: string, p: Priv)
    | TableDefault(owner: string, schema: string, role: string, p: Priv)
    | SeqDefault(owner: string, schema: string, role: string, p: Priv)
    | Member(of: string, role: string)

  /** A table or a sequence. */
  datatype Rel = Rel(schema: string, owner: string)

  datatype Server = Server(acl: set<Entry>, tables: map<string, Rel>, seqs: map<string, Rel>, roles: set<string>)

  datatype Stmt =
    | GrantDb(db: string, role: string, ps: set<Priv>)
    | GrantSchema(schema: string, role: string, ps: set<Priv>)
    | GrantTables(schema: string, role: string, ps: set<Priv>)  // ON ALL TABLES IN SCHEMA
    | GrantSeqs(schema: string, role: string, ps: set<Priv>)    // ON ALL SEQUENCES IN SCHEMA
    | DefaultTables(owner: string, schema: string, role: string, ps: set<Priv>)
    | DefaultSeqs(owner: string, schema: string, role: string, ps: set<Priv>)
    | GrantRole(of: string, role: string)
    | SetRole(role: string)
    | AlterRole(role: string)
    | RevokeRole(of: string, role: string)
    | RevokeDefaults(owner: string, schema: string, role: string)
    | RevokeSchema(schema: string, role: string)
    | DropOwned(role: string)
    | CreateRole(role: string)
    | DropRole(role: string)
    | CreateTable(name: string, schema: string, owner: string)
    | CreateSeq(name: string, schema: string, owner: string)

  predicate IsGrant(s: Stmt) {
    || s.GrantDb? || s.GrantSchema? || s.GrantTables? || s.GrantSeqs? || s.DefaultTables?
    || s.DefaultSeqs? || s.GrantRole? || s.SetRole? || s.AlterRole?
  }

  /** The entries a granting statement adds. */
  function Added(srv: Server, s: Stmt): set<Entry> {
    match s
    case GrantDb(db, u, ps) => set p | p in ps :: DbPriv(db, u, p)
    case GrantSchema(sc, u, ps) => set p | p in ps :: SchemaPriv(sc, u, p)
    case GrantTables(sc, u, ps) =>
      set t, p | t in srv.tables && srv.tables[t].schema == sc && p in ps :: TablePriv(t, u, p)
    case GrantSeqs(sc, u, ps) =>
      set q, p | q in srv.seqs && srv.seqs[q].schema == sc && p in ps :: SeqPriv(q, u, p)
    case DefaultTables(o, sc, u, ps) => set p | p in ps :: TableDefault(o, sc, u, p)
    case DefaultSeqs(o, sc, u, ps) => set p | p in ps :: SeqDefault(o, sc, u, p)
    case GrantRole(of, u) => {Member(of, u)}
    case _ => {}
  }

  /** Privileges on database objects, as opposed to role memberships. */
  predicate PrivilegeOf(e: Entry, u: string) { !e.Member? && e.role == u }

  predicate OwnedDefault(e: Entry, u: string) { (e.TableDefault? || e.SeqDefault?) && e.owner == u }

  /** The entry is about a table or sequence that `u` owns. */
  predicate OnOwned(srv: Server, e: Entry, u: string) {
    || (e.TablePriv? && e.table in srv.tables && srv.tables[e.table].owner == u)
    || (e.SeqPriv? && e.seqn in srv.seqs && srv.seqs[e.seqn].owner == u)
  }

  function Exec(srv: Server, s: Stmt): Server {
    match s
    case RevokeRole(of, u) => srv.(acl := srv.acl - {Member(of, u)})
    case RevokeDefaults(o, sc, u) =>
      srv.(acl := set e | e in srv.acl && !(e.TableDefault? && e.owner == o && e.schema == sc && e.role == u))
    case RevokeSchema(sc, u) =>
      srv.(acl := set e | e in srv.acl && !(e.SchemaPriv? && e.schema == sc && e.role == u))
    // Drops what `u` owns and revokes what was granted to `u`; memberships stay.
    case DropOwned(u) =>
      Server((set e | e in srv.acl && !PrivilegeOf(e, u) && !OwnedDefault(e, u) && !OnOwned(srv, e, u)),
             map t | t in srv.tables && srv.tables[t].owner != u :: srv.tables[t],
             map q | q in srv.seqs && srv.seqs[q].owner != u :: srv.seqs[q],
             srv.roles)
    case CreateRole(u) => srv.(roles := srv.roles + {u})
    case DropRole(u) =>
      srv.(acl := (set e | e in srv.acl && !(e.Member? && (e.of == u || e.role == u))), roles := srv.roles - {u})
    // A new object gets the default privileges of its owner in that schema.
    case CreateTable(t, sc, o) =>
      var defaults := set e | e in srv.acl && e.TableDefault? && e.owner == o && e.schema == sc;
      srv.(acl := srv.acl + (set e | e in defaults :: TablePriv(t, e.role, e.p)),
           tables := srv.tables[t := Rel(sc, o)])
    case CreateSeq(q, sc, o) =>
      var defaults := set e | e in srv.acl && e.SeqDefault? && e.owner == o && e.schema == sc;
      srv.(acl := srv.acl + (set e | e in defaults :: SeqPriv(q, e.role, e.p)),
           seqs := srv.seqs[q := Rel(sc, o)])
    case _ => srv.(acl := srv.acl + Added(srv, s))
  }

  // ---- Running statements that may fail ----------------------------------------------------------

  /** One call to the server. A failing call ends the operation unless it is optional. */
  datatype Call = Call(stmt: Stmt, must: bool)

  /** `faults` says of the calls to come which ones fail; when it is used up all succeed. */
  datatype Outcome = Outcome(srv: Server, faults: seq<bool>, ok: bool)

  function Fails(faults: seq<bool>): bool { faults != [] && faults[0] }
  function Rest(faults: seq<bool>): seq<bool> { if faults == [] then [] else faults[1..] }

  function RunCalls(srv: Server, calls: seq<Call>, faults: seq<bool>): Outcome
    decreases |calls|
  {
    if calls == [] then Outcome(srv, faults, true)
    else if !Fails(faults) then RunCalls(Exec(srv, calls[0].stmt), calls[1..], Rest(faults))
    else if calls[0].must then Outcome(srv, Rest(faults), false)
    else RunCalls(srv, calls[1..], Rest(faults))
  }

  /** One call on its own. */
  lemma {:induction false} RunSingle(srv: Server, call: Call, faults: seq<bool>)
    ensures RunCalls(srv, [call], faults) ==
              Outcome(if Fails(faults) then srv else Exec(srv, call.stmt), Rest(faults), !Fails(faults) || !call.must)
  {
  }

  lemma {:induction false} RunConcat(srv: Server, a: seq<Call>, b: seq<Call>, faults: seq<bool>)
    ensures RunCalls(srv, a + b, faults) ==
              var o := RunCalls(srv, a, faults);
              if o.ok then RunCalls(o.srv, b, o.faults) else o
    decreases |a|
  {
    if a == [] {
      assert a + b == b;
    } else {
      assert (a + b)[1..] == a[1..] + b;
      if !Fails(faults) {
        RunConcat(Exec(srv, a[0].stmt), a[1..], b, Rest(faults));
      } else if !a[0].must {
        RunConcat(srv, a[1..], b, Rest(faults));
      }
    }
  }

  /** Everything a list of granting calls adds when all of them succeed. */
  function Gain(srv: Server, calls: seq<Call>): set<Entry> {
    if calls == [] then {} else Added(srv, calls[0].stmt) + Gain(srv, calls[1..])
  }

  lemma {:induction false} GainConcat(srv: Server, a: seq<Call>, b: seq<Call>)
    ensures Gain(srv, a + b) == Gain(srv, a) + Gain(srv, b)
  {
    if a == [] {
      assert a + b == b;
    } else {
      assert (a + b)[1..] == a[1..] + b;
      GainConcat(srv, a[1..], b);
    }
  }

  /** Adding entries does not change what further grants would add. */
  lemma {:induction false} GainIgnoresAcl(srv: Server, acl: set<Entry>, calls: seq<Call>)
    ensures Gain(srv.(acl := acl), calls) == Gain(srv, calls)
  {
    if calls != [] {
      GainIgnoresAcl(srv, acl, calls[1..]);
    }
  }

  predicate AllGrants(calls: seq<Call>) {
    forall k :: 0 <= k < |calls| ==> IsGrant(calls[k].stmt) && calls[k].must
  }

  /** However far a run of grants gets, it adds nothing else and loses nothing. */
  lemma {:induction false} GrantsOnlyAdd(srv: Server, calls: seq<Call>, faults: seq<bool>)
    requires AllGrants(calls)
    ensures var o := RunCalls(srv, calls, faults);
            && o.srv == srv.(acl := o.srv.acl)
            && srv.acl <= o.srv.acl <= srv.acl + Gain(srv, calls)
            && (o.ok ==> o.srv.acl == srv.acl + Gain(srv, calls))
    decreases |calls|
  {
    if calls != [] && !Fails(faults) {
      var next := Exec(srv, calls[0].stmt);
      assert IsGrant(calls[0].stmt);
      assert AllGrants(calls[1..]);
      GrantsOnlyAdd(next, calls[1..], Rest(faults));
      GainIgnoresAcl(srv, next.acl, calls[1..]);
    }
  }
}
