/**
 handleDbDelete: the Database's finalizer comes off before its Secret and ConfigMap are
 released. When no other finalizer is left the object is gone by then, and nothing comes back
 for what was not released.
 */
module DatabaseDeletion {
  import opened Acl
  import opened Finalizers
  import opened Labels
  import opened Options
  import opened Ownership
  import opened Teardown

  /** `templated`: the Database uses templates and not secretsTemplates. */
  datatype DbEnv = DbEnv(fin: string, caller: Caller, parses: bool, templated: bool, protected: bool)

  /** The object is gone once its list is empty; `sql` says whether its SQL database is there. */
  datatype DbState = DbState(fins: seq<string>, sql: bool, secret: Option<Body>, config: Option<Body>)

  datatype DbReport = DbReport(s: DbState, faults: seq<bool>, ok: bool)

  // ---- One attempt ---------------------------------------------------------------------------------------

  /** deleteDatabase and the write that takes the finalizer off. */
  function DropAndLetGo(env: DbEnv, s: DbState, faults: seq<bool>): DbReport {
    if env.fin !in s.fins then DbReport(s, faults, true)
    else if env.protected then LetGo(env, s, faults)
    else if Fails(faults) then DbReport(s, Rest(faults), false)
    else LetGo(env, s.(sql := false), Rest(faults))
  }

  function LetGo(env: DbEnv, s: DbState, faults: seq<bool>): DbReport {
    if Fails(faults) then DbReport(s, Rest(faults), false)
    else DbReport(s.(fins := Removed(s.fins, env.fin)), Rest(faults), true)
  }

  /** handleTemplatedCredentials: both objects must be there, and are claimed and put in order. */
  function PutInOrder(env: DbEnv, s: DbState, faults: seq<bool>): DbReport {
    if !env.templated then DbReport(s, faults, true)
    else if Fails(faults) || s.secret.None? || s.config.None? || !env.parses then DbReport(s, Rest(faults), false)
    else
      var h := Updated(s.secret.value, env.caller, Rest(faults));
      var s1 := s.(secret := Some(h.body));
      if !h.ok then DbReport(s1, h.faults, false)
      else
        var k := Updated(s.config.value, env.caller, h.faults);
        DbReport(s1.(config := Some(k.body)), k.faults, k.ok)
  }

  /** handleInfoConfigMap; a missing ConfigMap is an error. */
  function FreeConfig(env: DbEnv, s: DbState, faults: seq<bool>): DbReport {
    if s.config.None? then DbReport(s, faults, false)
    else
      var h := Released(s.config.value, env.caller, faults);
      DbReport(s.(config := Some(h.body)), h.faults, h.ok)
  }

  function FreeSecret(env: DbEnv, s: DbState, faults: seq<bool>): DbReport {
    if s.secret.None? then DbReport(s, faults, true)
    else
      var h := Released(s.secret.value, env.caller, faults);
      DbReport(s.(secret := Some(h.body)), h.faults, h.ok)
  }

  /** An object that is gone is not reconciled. */
  function DeleteAttempt(env: DbEnv, s: DbState, faults: seq<bool>): DbReport {
    if s.fins == [] then DbReport(s, faults, true)
    else if Guarded(s.fins) then DbReport(s, faults, false)
    else
      var r := DropAndLetGo(env, s, faults);
      if r.ok then ReleaseAll(env, r.s, r.faults) else r
  }

  /** What comes after the finalizer. */
  function ReleaseAll(env: DbEnv, s: DbState, faults: seq<bool>): DbReport {
    var r1 := PutInOrder(env, s, faults);
    var r2 := if r1.ok then FreeConfig(env, r1.s, r1.faults) else r1;
    if r2.ok then FreeSecret(env, r2.s, r2.faults) else r2
  }

  class Deletion {
    var s: DbState
    var faults: seq<bool>

    constructor (s: DbState, faults: seq<bool>)
      ensures this.s == s && this.faults == faults
    {
      this.s := s;
      this.faults := faults;
    }

    method Fault() returns (fails: bool)
      modifies this`faults
      ensures fails == Fails(old(faults)) && faults == Rest(old(faults))
    {
      fails := Fails(faults);
      faults := Rest(faults);
    }

    method Update(c: Caller, b: Body) returns (r: Body, ok: bool)
      modifies this`faults
      ensures Handled(r, faults, ok) == Updated(b, c, old(faults))
    {
      r := b;
      if !IsUsedByAny(r.labels) {
        var fails := Fault();
        if fails { return r, false; }
        r := r.(labels := Claimed(r.labels, c));
      }
      if !IsUsedByCaller(r.labels, c) { return r, false; }
      var refs := SetOwnerReference(r.owners, c);
      var fails := Fault();
      if fails { return r, false; }
      return r.(owners := refs), true;
    }

    method Release(c: Caller, b: Body) returns (r: Body, ok: bool)
      modifies this`faults
      ensures Handled(r, faults, ok) == Released(b, c, old(faults))
    {
      var fails := Fault();
      if fails || !IsUsedByCaller(b.labels, c) { return b, false; }
      fails := Fault();
      if fails { return b, false; }
      return b.(labels := Unclaimed(b.labels)), true;
    }

    method HandleTemplatedCredentials(env: DbEnv) returns (ok: bool)
      requires env.templated
      modifies this
      ensures DbReport(s, faults, ok) == PutInOrder(env, old(s), old(faults))
    {
      var fails := Fault();
      if fails || s.secret.None? || s.config.None? || !env.parses { return false; }
      var b;
      b, ok := Update(env.caller, s.secret.value);
      s := s.(secret := Some(b));
      if !ok { return; }
      b, ok := Update(env.caller, s.config.value);
      s := s.(config := Some(b));
    }

    method HandleDbDelete(env: DbEnv) returns (ok: bool)
      modifies this
      ensures DbReport(s, faults, ok) == DeleteAttempt(env, old(s), old(faults))
      ensures AnyContains(old(s).fins, "dbuser.") ==> !ok && s == old(s)
    {
      if s.fins == [] { return true; }
      var guarded := SliceContainsSubString(s.fins, USER_PREFIX);
      if guarded { return false; }
      if env.fin in s.fins {
        if !env.protected {
          var fails := Fault();
          if fails { return false; }
          s := s.(sql := false);
        }
        var fins := RemoveItem(s.fins, env.fin);
        var fails := Fault();
        if fails { return false; }
        s := s.(fins := fins);
      }
      if env.templated {
        ok := HandleTemplatedCredentials(env);
        if !ok { return; }
      }
      if s.config.None? { return false; }
      var b;
      b, ok := Release(env.caller, s.config.value);
      s := s.(config := Some(b));
      if !ok { return; }
      if s.secret.Some? {
        b, ok := Release(env.caller, s.secret.value);
        s := s.(secret := Some(b));
      }
    }
  }

  // ---- What an attempt does --------------------------------------------------------------------------------

  /** While the guard holds, no attempt changes anything. */
  lemma {:induction false} HeldBackIsUntouched(env: DbEnv, s: DbState, runs: seq<seq<bool>>, faults: seq<bool>)
    requires AnyContains(s.fins, "dbuser.")
    ensures DeleteAttempt(env, s, faults) == DbReport(s, faults, false) && DeleteAttempts(env, s, runs) == s
    decreases |runs|
  {
    if runs != [] {
      HeldBackIsUntouched(env, s, runs[1..], runs[0]);
    }
  }

  /** In particular while it carries the finalizer of a DbUser. */
  lemma {:induction false} NamedIsUntouched(env: DbEnv, s: DbState, user: string, runs: seq<seq<bool>>)
    requires UserFin(user) in s.fins
    ensures DeleteAttempts(env, s, runs) == s
  {
    UserFinGuards(s.fins, user);
    HeldBackIsUntouched(env, s, runs, []);
  }

  /** The finalizer comes off only after the SQL database is gone, unless it is protected, and then it stays. */
  lemma {:induction false} FinalizerOutlivesSql(env: DbEnv, s: DbState, runs: seq<seq<bool>>)
    requires env.fin in s.fins
    ensures var t := DeleteAttempts(env, s, runs);
            && (env.fin !in t.fins && !env.protected ==> !t.sql)
            && (env.protected ==> t.sql == s.sql)
            && (t.sql != s.sql ==> !t.sql && !Guarded(s.fins))
    decreases |runs|
  {
    if runs != [] {
      var r := DeleteAttempt(env, s, runs[0]);
      AttemptKeepsOrder(env, s, runs[0]);
      if env.fin in r.s.fins {
        FinalizerOutlivesSql(env, r.s, runs[1..]);
      } else {
        SqlStays(env, r.s, runs[1..]);
      }
    }
  }

  lemma AttemptKeepsOrder(env: DbEnv, s: DbState, faults: seq<bool>)
    ensures var r := DeleteAttempt(env, s, faults);
            && (env.fin in s.fins && env.fin !in r.s.fins && !env.protected ==> !r.s.sql)
            && (env.protected || env.fin !in s.fins || Guarded(s.fins) ==> r.s.sql == s.sql)
            && (r.s.sql ==> s.sql)
            && (r.s.fins == s.fins || r.s.fins == Removed(s.fins, env.fin))
  {
    var r := DropAndLetGo(env, s, faults);
    ReleaseKeepsRest(env, r.s, r.faults);
  }

  lemma ReleaseKeepsRest(env: DbEnv, s: DbState, faults: seq<bool>)
    ensures ReleaseAll(env, s, faults).s.fins == s.fins && ReleaseAll(env, s, faults).s.sql == s.sql
  {
  }

  lemma {:induction false} SqlStays(env: DbEnv, s: DbState, runs: seq<seq<bool>>)
    requires env.fin !in s.fins
    ensures DeleteAttempts(env, s, runs).sql == s.sql && env.fin !in DeleteAttempts(env, s, runs).fins
    decreases |runs|
  {
    if runs != [] {
      AttemptKeepsOrder(env, s, runs[0]);
      SqlStays(env, DeleteAttempt(env, s, runs[0]).s, runs[1..]);
    }
  }

  /** The caller's own, or free for it to claim. */
  predicate Claimable(ls: Labels, c: Caller) {
    IsUsedByCaller(ls, c) || (!IsUsedByAny(ls) && (NAME_KEY !in ls || ls[NAME_KEY] == c.name))
  }

  lemma UpdateSucceedsIff(b: Body, c: Caller)
    ensures var h := Updated(b, c, []);
            && h.faults == [] && (h.ok <==> Claimable(b.labels, c))
            && (h.ok ==>
                  && h.body.owners == Owned(b.owners, c) && h.body.data == b.data
                  && IsUsedByCaller(h.body.labels, c))
            && Unclaimed(h.body.labels) == Unclaimed(b.labels)
  {
    if !IsUsedByAny(b.labels) {
      ClaimTakesIff(b.labels, c);
    }
  }

  /** The labels are off and nothing else has changed, except for the owner reference where it is put in order. */
  predicate Freed(env: DbEnv, before: Body, after: Body) {
    after == Body(Unclaimed(before.labels),
                  if env.templated then Owned(before.owners, env.caller) else before.owners, before.data)
  }

  /** What an undisturbed attempt needs of the Secret and the ConfigMap. */
  predicate Releasable(env: DbEnv, s: DbState) {
    && s.config.Some?
    && (if env.templated
        then
          && s.secret.Some? && env.parses
          && Claimable(s.secret.value.labels, env.caller) && Claimable(s.config.value.labels, env.caller)
        else
          && IsUsedByCaller(s.config.value.labels, env.caller)
          && (s.secret.Some? ==> IsUsedByCaller(s.secret.value.labels, env.caller)))
  }

  lemma ReleaseSucceedsIff(env: DbEnv, s: DbState)
    ensures var r := ReleaseAll(env, s, []);
            && (r.ok <==> Releasable(env, s))
            && (r.ok ==>
                  && r.s.config.Some? && Freed(env, s.config.value, r.s.config.value)
                  && (s.secret.None? ==> r.s.secret.None?)
                  && (s.secret.Some? ==> r.s.secret.Some? && Freed(env, s.secret.value, r.s.secret.value)))
  {
    if s.secret.Some? { UpdateSucceedsIff(s.secret.value, env.caller); }
    if s.config.Some? { UpdateSucceedsIff(s.config.value, env.caller); }
  }

  /**
   An undisturbed attempt goes through exactly if nothing holds the Database back and both objects
   can be released; then the finalizer is off, the SQL database gone unless it is protected, and
   both objects are free.
   */
  lemma UndisturbedDeletion(env: DbEnv, s: DbState)
    requires s.fins != []
    ensures var r := DeleteAttempt(env, s, []);
            && (r.ok <==> !AnyContains(s.fins, "dbuser.") && Releasable(env, s))
            && (r.ok ==>
                  && r.s.fins == Removed(s.fins, env.fin)
                  && r.s.sql == (s.sql && (env.protected || env.fin !in s.fins))
                  && r.s.config.Some? && Freed(env, s.config.value, r.s.config.value)
                  && (s.secret.Some? ==> r.s.secret.Some? && Freed(env, s.secret.value, r.s.secret.value)))
  {
    var r := DropAndLetGo(env, s, []);
    ReleaseSucceedsIff(env, r.s);
    ReleaseKeepsRest(env, r.s, []);
  }

  // ---- Any number of attempts ----------------------------------------------------------------------------

  function DeleteAttempts(env: DbEnv, s: DbState, runs: seq<seq<bool>>): DbState
    decreases |runs|
  {
    if runs == [] then s else DeleteAttempts(env, DeleteAttempt(env, s, runs[0]).s, runs[1..])
  }

  /** Some attempt that found the object went through to the end. */
  predicate AnyThrough(env: DbEnv, s: DbState, runs: seq<seq<bool>>)
    decreases |runs|
  {
    runs != [] &&
    var r := DeleteAttempt(env, s, runs[0]);
    (s.fins != [] && r.ok) || AnyThrough(env, r.s, runs[1..])
  }

  predicate Holds(env: DbEnv, s: DbState) {
    s.secret.Some? && IsUsedByCaller(s.secret.value.labels, env.caller)
  }

  lemma UpdateHolds(b: Body, c: Caller, faults: seq<bool>)
    requires IsUsedByCaller(b.labels, c) && c.name != ""
    ensures IsUsedByCaller(Updated(b, c, faults).body.labels, c)
  {
    UseIsExclusive(b.labels, c, c);
    if !IsUsedByAny(b.labels) {
      ClaimTakesIff(b.labels, c);
    }
  }

  /** Up to the last part the Secret stays labelled. */
  lemma PartsHold(env: DbEnv, s: DbState, faults: seq<bool>)
    requires Holds(env, s) && env.caller.name != ""
    ensures Holds(env, FreeConfig(env, s, faults).s) && Holds(env, PutInOrder(env, s, faults).s)
    ensures FreeConfig(env, s, faults).s.fins == s.fins && PutInOrder(env, s, faults).s.fins == s.fins
  {
    UpdateHolds(s.secret.value, env.caller, Rest(faults));
  }

  /** The last part releases it, or fails. */
  lemma ReleaseHolds(env: DbEnv, s: DbState, faults: seq<bool>)
    requires Holds(env, s) && env.caller.name != ""
    ensures var r := ReleaseAll(env, s, faults); (Holds(env, r.s) <==> !r.ok) && r.s.fins == s.fins
  {
    PartsHold(env, s, faults);
    var r1 := PutInOrder(env, s, faults);
    PartsHold(env, r1.s, r1.faults);
  }

  lemma DropLeavesSecret(env: DbEnv, s: DbState, faults: seq<bool>)
    requires s.fins == [env.fin]
    ensures var r := DropAndLetGo(env, s, faults);
            r.s.secret == s.secret && (if r.ok then r.s.fins == [] else r.s.fins == [env.fin])
  {
    assert Removed([env.fin], env.fin) == [];
  }

  lemma AttemptHolds(env: DbEnv, s: DbState, faults: seq<bool>)
    requires Holds(env, s) && env.caller.name != "" && s.fins == [env.fin]
    ensures var r := DeleteAttempt(env, s, faults);
            (Holds(env, r.s) <==> !r.ok) && (r.ok ==> r.s.fins == []) && (r.s.fins == [env.fin] || r.s.fins == [])
  {
    DropLeavesSecret(env, s, faults);
    var r := DropAndLetGo(env, s, faults);
    ReleaseHolds(env, r.s, r.faults);
    assert DeleteAttempt(env, s, faults) ==
             if Guarded(s.fins) then DbReport(s, faults, false) else if r.ok then ReleaseAll(env, r.s, r.faults) else r;
  }

  lemma {:induction false} GoneStays(env: DbEnv, s: DbState, runs: seq<seq<bool>>)
    requires s.fins == []
    ensures DeleteAttempts(env, s, runs) == s && !AnyThrough(env, s, runs)
    decreases |runs|
  {
    if runs != [] {
      GoneStays(env, s, runs[1..]);
    }
  }

  /**
   With no other finalizer on the Database, its Secret stays labelled for it exactly if no attempt
   went through to the end. The object may be gone by then, and if it is, that is for good.
   */
  lemma {:induction false} SecretIsOrphanedIff(env: DbEnv, s: DbState, runs: seq<seq<bool>>)
    requires Holds(env, s) && env.caller.name != "" && s.fins == [env.fin]
    ensures Holds(env, DeleteAttempts(env, s, runs)) <==> !AnyThrough(env, s, runs)
    decreases |runs|
  {
    if runs != [] {
      AttemptHolds(env, s, runs[0]);
      var r := DeleteAttempt(env, s, runs[0]);
      if r.s.fins == [] {
        GoneStays(env, r.s, runs[1..]);
      } else {
        SecretIsOrphanedIff(env, r.s, runs[1..]);
      }
    }
  }

  /** It happens: the finalizer comes off and the next call fails. */
  lemma SecretIsOrphaned(env: DbEnv, s: DbState, runs: seq<seq<bool>>)
    requires Holds(env, s) && s.fins == [env.fin] && !Guarded(s.fins)
    ensures var t := DeleteAttempt(env, s, if env.protected then [false, true] else [false, false, true]).s;
            t.fins == [] && Holds(env, DeleteAttempts(env, t, runs))
  {
    assert Removed([env.fin], env.fin) == [];
    var faults := if env.protected then [false, true] else [false, false, true];
    assert Rest([false, false, true]) == [false, true] && Rest([false, true]) == [true];
    GoneStays(env, DeleteAttempt(env, s, faults).s, runs);
  }
}
