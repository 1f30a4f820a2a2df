/**
 handleDbUserDelete: the templated Secret is put back in order, the role is revoked and
 dropped, the Secret released, and the finalizer taken off the Database and then off the
 DbUser. Any call may fail, which ends the attempt; the next one starts from the beginning.
 */
module Teardown {
  import opened Acl
  import opened Postgres
  import opened Finalizers
  import opened Labels
  import opened Options
  import opened Ownership

  /** What stays fixed: the server's settings, the resolved user, and how the Secret parses. */
  datatype DeletionEnv = DeletionEnv(c: Config, admin: string, user: DbUser, existing: bool, caller: Caller,
                                     parses: bool, fin: string)

  datatype State = State(srv: Server, secret: Option<Body>, configMap: bool, dbFins: seq<string>, userFins: seq<string>)

  datatype Report = Report(s: State, faults: seq<bool>, ok: bool)

  datatype Handled = Handled(body: Body, faults: seq<bool>, ok: bool)

  // ---- KubeHelper, with nobody interfering -------------------------------------------------------------

  function Edited(b: Body, c: Caller, faults: seq<bool>): Handled {
    if !IsUsedByCaller(b.labels, c) then Handled(b, faults, false)
    else if Fails(faults) then Handled(b, Rest(faults), false)
    else Handled(b.(owners := Owned(b.owners, c)), Rest(faults), true)
  }

  function Updated(b: Body, c: Caller, faults: seq<bool>): Handled {
    if IsUsedByAny(b.labels) then Edited(b, c, faults)
    else if Fails(faults) then Handled(b, Rest(faults), false)
    else Edited(b.(labels := Claimed(b.labels, c)), c, Rest(faults))
  }

  function Released(b: Body, c: Caller, faults: seq<bool>): Handled {
    if Fails(faults) then Handled(b, Rest(faults), false)
    else if !IsUsedByCaller(b.labels, c) then Handled(b, Rest(faults), false)
    else if Fails(Rest(faults)) then Handled(b, Rest(Rest(faults)), false)
    else Handled(b.(labels := Unclaimed(b.labels)), Rest(Rest(faults)), true)
  }

  // ---- One attempt -------------------------------------------------------------------------------------

  /** handleTemplatedCredentials; a missing ConfigMap is passed over. */
  function Templated(env: DeletionEnv, s: State, faults: seq<bool>): Report {
    if s.secret.None? then Report(s, faults, true)
    else if Fails(faults) then Report(s, Rest(faults), false)
    else if !s.configMap then Report(s, Rest(faults), true)
    else if !env.parses then Report(s, Rest(faults), false)
    else
      var h := Updated(s.secret.value, env.caller, Rest(faults));
      Report(s.(secret := Some(h.body)), h.faults, h.ok)
  }

  function DropRights(env: DeletionEnv, s: State, faults: seq<bool>): Report {
    var o := if env.existing then Revoke(env.c, env.admin, env.user, s.srv, faults)
             else DeleteUser(env.c, env.admin, env.user, s.srv, faults);
    Report(s.(srv := o.srv), o.faults, o.ok)
  }

  function ReleaseSecret(env: DeletionEnv, s: State, faults: seq<bool>): Report {
    if s.secret.None? then Report(s, faults, true)
    else
      var h := Released(s.secret.value, env.caller, faults);
      Report(s.(secret := Some(h.body)), h.faults, h.ok)
  }

  function Unguard(env: DeletionEnv, s: State, faults: seq<bool>): Report {
    if Fails(faults) then Report(s, Rest(faults), false)
    else
      var s1 := s.(dbFins := Removed(s.dbFins, env.fin));
      if Fails(Rest(faults)) then Report(s1, Rest(Rest(faults)), false)
      else Report(s1.(userFins := Removed(s.userFins, env.fin)), Rest(Rest(faults)), true)
  }

  /** The first fault stands for the reads (Secret, DbInstance, admin Secret) that come before any change. */
  function Attempt(env: DeletionEnv, s: State, faults: seq<bool>): Report {
    if env.fin !in s.userFins then Report(s, faults, true)
    else if Fails(faults) then Report(s, Rest(faults), false)
    else
      var r1 := Templated(env, s, Rest(faults));
      var r2 := if r1.ok then DropRights(env, r1.s, r1.faults) else r1;
      var r3 := if r2.ok then ReleaseSecret(env, r2.s, r2.faults) else r2;
      if r3.ok then Unguard(env, r3.s, r3.faults) else r3
  }

  class DbUserDeletion {
    const server: PgServer
    var secret: Option<Body>
    var configMap: bool
    var dbFins: seq<string>
    var userFins: seq<string>

    ghost function Now(): State
      reads this, server
    {
      State(server.srv, secret, configMap, dbFins, userFins)
    }

    constructor (server: PgServer, secret: Option<Body>, configMap: bool, dbFins: seq<string>, userFins: seq<string>)
      ensures Now() == State(server.srv, secret, configMap, dbFins, userFins)
      ensures this.server == server
    {
      this.server := server;
      this.secret := secret;
      this.configMap := configMap;
      this.dbFins := dbFins;
      this.userFins := userFins;
    }

    method Fault() returns (fails: bool)
      modifies server
      ensures fails == Fails(old(server.faults)) && server.faults == Rest(old(server.faults))
      ensures server.srv == old(server.srv)
    {
      fails := Fails(server.faults);
      server.faults := Rest(server.faults);
    }

    method UpdateSecret(env: DeletionEnv) returns (ok: bool)
      requires secret.Some?
      modifies this`secret, server
      ensures var h := Updated(old(secret.value), env.caller, old(server.faults));
              Report(Now(), server.faults, ok) == Report(old(Now()).(secret := Some(h.body)), h.faults, h.ok)
    {
      var b := secret.value;
      if !IsUsedByAny(b.labels) {
        b := b.(labels := Claimed(b.labels, env.caller));
        var fails := Fault();
        if fails { return false; }
        secret := Some(b);
      }
      if !IsUsedByCaller(b.labels, env.caller) {
        return false;
      }
      var refs := SetOwnerReference(b.owners, env.caller);
      var fails := Fault();
      if fails { return false; }
      secret := Some(b.(owners := refs));
      return true;
    }

    method HandleDelete(env: DeletionEnv) returns (ok: bool)
      requires secret.Some?
      modifies this`secret, server
      ensures var h := Released(old(secret.value), env.caller, old(server.faults));
              Report(Now(), server.faults, ok) == Report(old(Now()).(secret := Some(h.body)), h.faults, h.ok)
    {
      var fails := Fault();
      if fails { return false; }
      var b := secret.value;
      if !IsUsedByCaller(b.labels, env.caller) {
        return false;
      }
      fails := Fault();
      if fails { return false; }
      secret := Some(b.(labels := Unclaimed(b.labels)));
      return true;
    }

    method HandleTemplatedCredentials(env: DeletionEnv) returns (ok: bool)
      requires secret.Some?
      modifies this`secret, server
      ensures Report(Now(), server.faults, ok) == Templated(env, old(Now()), old(server.faults))
    {
      var fails := Fault();
      if fails { return false; }
      if !configMap { return true; }
      if !env.parses { return false; }
      ok := UpdateSecret(env);
    }

    method RemoveFinalizers(env: DeletionEnv) returns (ok: bool)
      modifies this`dbFins, this`userFins, server
      ensures Report(Now(), server.faults, ok) == Unguard(env, old(Now()), old(server.faults))
    {
      var fins := RemoveItem(dbFins, env.fin);
      var fails := Fault();
      if fails { return false; }
      dbFins := fins;
      fins := RemoveItem(userFins, env.fin);
      fails := Fault();
      if fails { return false; }
      userFins := fins;
      return true;
    }

    method HandleDbUserDelete(env: DeletionEnv) returns (ok: bool)
      modifies this, server
      ensures Report(Now(), server.faults, ok) == Attempt(env, old(Now()), old(server.faults))
    {
      if env.fin !in userFins {
        return true;
      }
      var fails := Fault();
      if fails { return false; }
      if secret.Some? {
        ok := HandleTemplatedCredentials(env);
        if !ok { return; }
      }
      if env.existing {
        ok := server.RevokePermissions(env.c, env.admin, env.user);
      } else {
        ok := server.Delete(env.c, env.admin, env.user);
      }
      if !ok { return; }
      if secret.Some? {
        ok := HandleDelete(env);
        if !ok { return; }
      }
      ok := RemoveFinalizers(env);
    }
  }
}
