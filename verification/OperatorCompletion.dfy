/**
 When the creation of a DbUser can still be completed. The role is made on the server before
 anything is stored, and CreateUser refuses a role that exists; so after an interruption
 anywhere before the DbUser is reported created, its fate hangs on the role alone.
 */
module OperatorCompletion {
  import opened ObjectStore
  import opened Finalizers
  import opened Operator
  import opened OperatorInvariants
  import opened OperatorGuards
  import opened OperatorTheorems
  import opened OperatorRuns

  /** Nobody deletes `n`, declares its role existing or drops its role on behalf of another object. */
  ghost predicate Spared(r: Rules, s: Sys, steps: seq<Step>, n: string)
    requires Legal(r, s, steps)
  {
    LeftAlone(r, s, steps, n) && World(MarkUser(n)) !in steps
  }

  /** The run reports `n` created. */
  ghost predicate Completes(r: Rules, s: Sys, n: string, steps: seq<Step>) {
    && Legal(r, s, steps) && Spared(r, s, steps, n)
    && n in Run(r, s, steps).users.live && Run(r, s, steps).users.live[n].body.created
  }

  /** A DbUser waiting to be created: stored, not marked, for a role of its own. */
  ghost predicate Waiting(users: Store<UserBody>, n: string) {
    n in users.live && !users.live[n].marked && !users.live[n].body.existing && !users.live[n].body.created
  }

  /** Its Database is ready and not marked. */
  ghost predicate Served(s: Sys, n: string)
    requires n in s.users.live
  {
    var d := s.users.live[n].body.ref;
    d in s.dbs.live && s.dbs.live[d].body.ready && !s.dbs.live[d].marked
  }

  /** A copy from a former life that the worker may still be handed and would tear the role down on. */
  ghost predicate TearsDown(r: Rules, past: set<(string, UserObj)>, seen: map<string, nat>, n: string, o: UserObj) {
    && (n, o) in past && Session(r, seen, n, o.uid)
    && o.marked && UserFin(n) in o.finalizers && !o.body.existing
  }

  ghost predicate FormerLife(r: Rules, past: set<(string, UserObj)>, seen: map<string, nat>, n: string) {
    exists o :: TearsDown(r, past, seen, n, o)
  }

  // ---- Blocked ---------------------------------------------------------------------------------------

  ghost predicate WorkerBlocked(uw: UserPc, n: string) {
    uw.UIdle? || uw.n != n ||
    match uw
    case UHave(_, u) => !(u.marked && UserFin(n) in u.finalizers && !u.body.existing)
    case UDb(_, u, _) => true
    case UMade(_, u, _) => u.body.existing
    case UNamed(_, _, _) => false
    case UBoth(_, _) => false
    case UKept(_, u) => u.body.created
    case UDel(_, u, _) => u.body.existing
    case UGone(_, u, _) => u.marked
    case UOff(_, u) => u.marked
  }

  /** The role is there, and neither the worker nor any copy it may be handed can change that. */
  ghost predicate Blocked(r: Rules, s: Sys, n: string) {
    && r.roleName(n) in s.roles && Waiting(s.users, n) && WorkerBlocked(s.uw, n)
    && !FormerLife(r, s.users.past, s.userSeen, n)
  }

  /** Writes to other DbUsers and writes that leave this one waiting. */
  lemma WriteKeepsWaiting(r: Rules, users: Store<UserBody>, users': Store<UserBody>, seen: map<string, nat>,
                          n: string, m: string, o: UserObj)
    requires Waiting(users, n) && !FormerLife(r, users.past, seen, n) && Grows(users, users', m, o)
    requires m == n ==> !o.marked && !o.body.existing && !o.body.created
    ensures Waiting(users', n) && !FormerLife(r, users'.past, seen, n)
  {
    forall x | TearsDown(r, users'.past, seen, n, x)
      ensures TearsDown(r, users.past, seen, n, x)
    {
    }
  }

  lemma WorldKeepsBlocked(r: Rules, s: Sys, step: WorldStep, n: string)
    requires Copies(s) && Blocked(r, s, n) && WorldEnabled(r, s, step)
    requires LeavesAlone(r, s, World(step), n) && step != MarkUser(n)
    ensures Blocked(r, WorldApply(r, s, step), n)
  {
    var s' := WorldApply(r, s, step);
    match step
    case NewUser(m, fs, b) =>
      CreateIsValid(s.users, m, fs, b);
      WriteKeepsWaiting(r, s.users, s'.users, s.userSeen, n, m, Obj(s.users.rev + 1, s.users.rev + 1, fs, false, b));
    case EditUser(m, fs, b) =>
      PutIsValid(s.users, m, fs, b);
      WriteKeepsWaiting(r, s.users, s'.users, s.userSeen, n, m, Written(s.users, m, fs, b));
    case MarkUser(m) =>
      if !s.users.live[m].marked {
        MarkIsValid(s.users, m);
        var o := s.users.live[m].(version := s.users.rev + 1, marked := true);
        WriteKeepsWaiting(r, s.users, s'.users, s.userSeen, n, m, o);
      }
    case _ =>
  }

  /** A write of the worker to its DbUser; on `n` itself only a current copy goes through. */
  lemma UserWriteKeepsBlocked(r: Rules, s: Sys, fs: seq<string>, b: UserBody, next: UserObj -> UserPc, n: string)
    requires Copies(s) && Blocked(r, s, n) && !s.uw.UIdle?
    requires s.uw.n == n ==>
               || s.uw.u.marked || s.uw.u.body.existing || s.uw.u.body.created
               || (!b.existing && !b.created && forall o :: next(o).UIdle?)
    requires s.uw.n != n ==> forall o :: WorkerBlocked(next(o), n)
    ensures Blocked(r, UserWrite(s, fs, b, next), n)
  {
    var m := s.uw.n;
    if Accepts(s.users, m, s.uw.u.version, fs) {
      AcceptedCopyIsCurrent(s.users, m, s.uw.u, fs);
      PutIsValid(s.users, m, fs, b);
      WriteKeepsWaiting(r, s.users, Put(s.users, m, fs, b), s.userSeen, n, m, Written(s.users, m, fs, b));
    }
  }

  lemma UserKeepsBlocked(r: Rules, s: Sys, step: UserStep, n: string)
    requires Copies(s) && Guards(s) && Blocked(r, s, n) && UserEnabled(r, s, step) && LeavesAlone(r, s, User(step), n)
    ensures Blocked(r, UserApply(r, s, step), n)
  {
    match step
    case UGet(m, u) => ReadKeepsBlocked(r, s, m, u, n);
    case UGetDb(d) =>
    case USql =>
    case UDropRole(refused) =>
    case UOffDb =>
    case UAddToUser =>
      var UMade(m, u, d) := s.uw;
      UserWriteKeepsBlocked(r, s, Appended(u.finalizers, UserFin(m)), u.body, o => UNamed(m, o, d), n);
    case UAddToDb =>
    case UStatus(misc) =>
      var b := s.uw.u.body.(created := s.uw.UBoth? || s.uw.u.body.created, misc := misc);
      UserWriteKeepsBlocked(r, s, s.uw.u.finalizers, b, o => UIdle, n);
    case UOffUser =>
      UserWriteKeepsBlocked(r, s, Removed(s.uw.u.finalizers, UserFin(s.uw.n)), s.uw.u.body, o => UIdle, n);
    case UStop(write, misc) =>
      if write {
        UserWriteKeepsBlocked(r, s, s.uw.u.finalizers, s.uw.u.body.(misc := misc), o => UIdle, n);
      }
  }

  lemma ReadKeepsBlocked(r: Rules, s: Sys, m: string, u: UserObj, n: string)
    requires Blocked(r, s, n) && UserEnabled(r, s, UGet(m, u))
    ensures Blocked(r, UserApply(r, s, UGet(m, u)), n)
  {
    if m == n {
      assert !TearsDown(r, s.users.past, s.userSeen, n, u);
    }
    var seen := s.userSeen[m := u.uid];
    forall o | TearsDown(r, s.users.past, seen, n, o)
      ensures TearsDown(r, s.users.past, s.userSeen, n, o)
    {
    }
  }

  lemma StepKeepsBlocked(r: Rules, s: Sys, step: Step, n: string)
    requires Copies(s) && Guards(s) && Blocked(r, s, n) && Enabled(r, s, step)
    requires LeavesAlone(r, s, step, n) && step != World(MarkUser(n))
    ensures Blocked(r, Apply(r, s, step), n)
  {
    match step {
      case World(w) => WorldKeepsBlocked(r, s, w, n);
      case User(u) => UserKeepsBlocked(r, s, u, n);
      case Database(d) => OtherWorkersKeepUsers(r, s, step);
      case Instance(i) => OtherWorkersKeepUsers(r, s, step);
    }
  }

  lemma {:induction false} BlockedForGood(r: Rules, s: Sys, n: string, steps: seq<Step>)
    requires Inv(r, s) && Blocked(r, s, n) && Legal(r, s, steps) && Spared(r, s, steps, n)
    ensures Blocked(r, Run(r, s, steps), n)
    decreases steps
  {
    if steps != [] {
      StepKeepsBlocked(r, s, steps[0], n);
      StepKeepsInv(r, s, steps[0]);
      BlockedForGood(r, Apply(r, s, steps[0]), n, steps[1..]);
    }
  }

  // ---- Completing --------------------------------------------------------------------------------------

  /** The server side of a pass on the current copies. */
  lemma MakeRole(r: Rules, s: Sys, n: string) returns (t: Sys, steps: seq<Step>)
    requires Inv(r, s) && s.uw.UIdle? && Waiting(s.users, n) && Served(s, n) && r.roleName(n) !in s.roles
    ensures Legal(r, s, steps) && Spared(r, s, steps, n) && t == Run(r, s, steps)
    ensures t.users == s.users && t.dbs == s.dbs
    ensures t.uw == UMade(n, s.users.live[n], s.dbs.live[s.users.live[n].body.ref])
  {
    var u := s.users.live[n];
    var d := s.dbs.live[u.body.ref];
    assert Session(r, s.userSeen, n, u.uid) by {
      if n in s.userSeen {
        CurrentIsReadable(s.users, s.userSeen, n);
      }
    }
    assert (n, u) in s.users.past && (u.body.ref, d) in s.dbs.past;
    var s1 := Apply(r, s, User(UGet(n, u)));
    var s2 := Apply(r, s1, User(UGetDb(d)));
    t := Apply(r, s2, User(USql));
    steps := [User(UGet(n, u)), User(UGetDb(d)), User(USql)];
    assert steps[1..] == [User(UGetDb(d)), User(USql)] && steps[1..][1..] == [User(USql)];
    assert Legal(r, s2, [User(USql)]) && Run(r, s2, [User(USql)]) == t && LeftAlone(r, s2, [User(USql)], n);
    assert Legal(r, s1, steps[1..]) && Run(r, s1, steps[1..]) == t && LeftAlone(r, s1, steps[1..], n);
  }

  const STORE: seq<Step> := [User(UAddToUser), User(UAddToDb), User(UStatus(0))]

  /** The three writes that follow all go through. */
  lemma {:induction false} StoreAll(r: Rules, s: Sys)
    requires s.uw.UMade? && s.uw.n in s.users.live && s.users.live[s.uw.n] == s.uw.u && !s.uw.u.marked
    requires s.uw.u.body.ref in s.dbs.live && s.dbs.live[s.uw.u.body.ref] == s.uw.d && !s.uw.d.marked
    ensures Legal(r, s, STORE) && Spared(r, s, STORE, s.uw.n)
    ensures s.uw.n in Run(r, s, STORE).users.live && Run(r, s, STORE).users.live[s.uw.n].body.created
  {
    var UMade(n, u, d) := s.uw;
    var s1 := Apply(r, s, User(UAddToUser));
    var u1 := s1.users.live[n];
    assert s1.uw == UNamed(n, u1, d) && u1 == u.(version := u1.version, finalizers := u1.finalizers) && s1.dbs == s.dbs;
    var s2 := Apply(r, s1, User(UAddToDb));
    assert s2.uw == UBoth(n, u1) && s2.users == s1.users;
    var t := Apply(r, s2, User(UStatus(0)));
    assert STORE[1..] == [User(UAddToDb), User(UStatus(0))] && STORE[1..][1..] == [User(UStatus(0))];
    assert Legal(r, s2, [User(UStatus(0))]) && Run(r, s2, [User(UStatus(0))]) == t;
    assert s1.roles == s.roles && s2.roles == s.roles && t.roles == s.roles;
    assert LeftAlone(r, s2, [User(UStatus(0))], n);
    assert Legal(r, s1, STORE[1..]) && Run(r, s1, STORE[1..]) == t && LeftAlone(r, s1, STORE[1..], n);
  }

  lemma {:induction false} RunConcat(r: Rules, s: Sys, a: seq<Step>, b: seq<Step>, n: string)
    requires Legal(r, s, a) && Legal(r, Run(r, s, a), b)
    ensures Legal(r, s, a + b) && Run(r, s, a + b) == Run(r, Run(r, s, a), b)
    ensures LeftAlone(r, s, a, n) && LeftAlone(r, Run(r, s, a), b, n) ==> LeftAlone(r, s, a + b, n)
    decreases a
  {
    if a == [] {
      assert a + b == b;
    } else {
      assert (a + b)[1..] == a[1..] + b && (a + b)[0] == a[0];
      RunConcat(r, Apply(r, s, a[0]), a[1..], b, n);
    }
  }

  lemma CompleteFromNoRole(r: Rules, s: Sys, n: string) returns (steps: seq<Step>)
    requires Inv(r, s) && s.uw.UIdle? && Waiting(s.users, n) && Served(s, n) && r.roleName(n) !in s.roles
    ensures Completes(r, s, n, steps)
  {
    var t, first := MakeRole(r, s, n);
    StoreAll(r, t);
    RunConcat(r, s, first, STORE, n);
    steps := first + STORE;
  }

  /** A pass on the copy from a former life takes the role away and stops. */
  lemma DropOnFormerLife(r: Rules, s: Sys, n: string, o: UserObj, d: DbObj) returns (t: Sys, steps: seq<Step>)
    requires s.uw.UIdle? && TearsDown(r, s.users.past, s.userSeen, n, o) && (o.body.ref, d) in s.dbs.past
    ensures Legal(r, s, steps) && Spared(r, s, steps, n) && t == Run(r, s, steps)
    ensures t == s.(roles := s.roles - {r.roleName(n)}, userSeen := s.userSeen[n := o.uid])
  {
    var s1 := Apply(r, s, User(UGet(n, o)));
    var s2 := Apply(r, s1, User(UGetDb(d)));
    var s3 := Apply(r, s2, User(UDropRole(false)));
    t := Apply(r, s3, User(UStop(false, 0)));
    var tail := [User(UDropRole(false)), User(UStop(false, 0))];
    steps := [User(UGet(n, o)), User(UGetDb(d))] + tail;
    assert tail[1..] == [User(UStop(false, 0))] && steps[1..] == [User(UGetDb(d))] + tail && steps[1..][1..] == tail;
    assert [User(UStop(false, 0))][1..] == [] && Legal(r, t, []) && Run(r, t, []) == t;
    assert Legal(r, s3, tail[1..]) && Run(r, s3, tail[1..]) == t && LeftAlone(r, s3, tail[1..], n);
    assert Legal(r, s2, tail) && Run(r, s2, tail) == t && LeftAlone(r, s2, tail, n);
    assert Legal(r, s1, steps[1..]) && Run(r, s1, steps[1..]) == t && LeftAlone(r, s1, steps[1..], n);
  }

  /** If the Database the former life referred to never existed, somebody may create it. */
  lemma SomeCopy(r: Rules, s: Sys, n: string, k: string) returns (t: Sys, d: DbObj, steps: seq<Step>)
    requires Inv(r, s)
    ensures Legal(r, s, steps) && Spared(r, s, steps, n) && t == Run(r, s, steps) && t == s.(dbs := t.dbs)
    ensures (k, d) in t.dbs.past
    ensures forall j :: j in s.dbs.live ==> j in t.dbs.live && t.dbs.live[j] == s.dbs.live[j]
  {
    if d' :| (k, d') in s.dbs.past {
      t, d, steps := s, d', [];
    } else {
      assert forall j :: j in s.dbs.live ==> (j, s.dbs.live[j]) in s.dbs.past;
      var step := World(NewDb(k, [], NewDbBody("")));
      t := Apply(r, s, step);
      d, steps := t.dbs.live[k], [step];
      assert steps[1..] == [] && Legal(r, t, []) && Run(r, t, []) == t;
    }
  }

  lemma CompleteAfterFormerLife(r: Rules, s: Sys, n: string, o: UserObj) returns (steps: seq<Step>)
    requires Inv(r, s) && s.uw.UIdle? && Waiting(s.users, n) && Served(s, n)
    requires TearsDown(r, s.users.past, s.userSeen, n, o)
    ensures Completes(r, s, n, steps)
  {
    var t1, d, first := SomeCopy(r, s, n, o.body.ref);
    var t2, second := DropOnFormerLife(r, t1, n, o, d);
    RunConcat(r, s, first, second, n);
    RunKeepsInv(r, s, first + second);
    var third := CompleteFromNoRole(r, t2, n);
    RunConcat(r, s, first + second, third, n);
    steps := first + second + third;
  }

  // ---- Exactly when --------------------------------------------------------------------------------------

  /**
   Some continuation in which nobody deletes the DbUser, declares its role existing or drops the
   role on behalf of another object reports it created if and only if the role is not there, or
   the worker can still be handed a copy from a former life on which it drops the role.
   */
  lemma CreationCompletesIff(r: Rules, s: Sys, n: string)
    requires Reachable(r, s) && s.uw.UIdle? && Waiting(s.users, n) && Served(s, n)
    ensures (exists steps :: Completes(r, s, n, steps)) <==>
              r.roleName(n) !in s.roles || FormerLife(r, s.users.past, s.userSeen, n)
  {
    ReachableInv(r, s);
    if r.roleName(n) !in s.roles {
      var steps := CompleteFromNoRole(r, s, n);
    } else if o :| TearsDown(r, s.users.past, s.userSeen, n, o) {
      var steps := CompleteAfterFormerLife(r, s, n, o);
    } else {
      forall steps | Completes(r, s, n, steps)
        ensures false
      {
        BlockedForGood(r, s, n, steps);
      }
    }
  }

  /** With session reads, once the worker has read the DbUser, it hangs on the role alone. */
  lemma ReadUserCompletesIff(r: Rules, s: Sys, n: string)
    requires r.sessionReads && Reachable(r, s) && s.uw.UIdle? && Waiting(s.users, n) && Served(s, n)
    requires n in s.userSeen && s.userSeen[n] == s.users.live[n].uid
    ensures (exists steps :: Completes(r, s, n, steps)) <==> r.roleName(n) !in s.roles
  {
    ReachableInv(r, s);
    CreationCompletesIff(r, s, n);
    assert forall o :: (n, o) in s.users.past ==> Follows(o, s.users.live[n]);
  }

  /**
   Both interruptions happen: before the DbUser's finalizer is stored, and between the two
   writes of addFinalizers. Either way the DbUser cannot be completed any more.
   */
  lemma InterruptedCreationsAreBlocked(r: Rules, named: bool) returns (s: Sys)
    ensures Reachable(r, s) && s.uw.UIdle? && Waiting(s.users, USER) && Served(s, USER)
    ensures r.roleName(USER) in s.roles
    ensures UserFin(USER) in s.users.live[USER].finalizers <==> named
    ensures !exists steps :: Completes(r, s, USER, steps)
  {
    Starts(r);
    var s1 := BringUp(r, Init(), DB, false);
    var s2 := StartUser(r, s1, USER, DB);
    s := s2;
    if named {
      Next(r, s2, User(UAddToUser));
      s := Apply(r, s2, User(UAddToUser));
    }
    assert forall o :: (USER, o) in s.users.past ==> !o.marked;
    Next(r, s, User(UStop(false, 0)));
    s := Apply(r, s, User(UStop(false, 0)));
    CreationCompletesIff(r, s, USER);
  }

  /**
   So does a DbUser whose role name is taken to begin with, by the main user of a Database: one
   that is called like a Database is never created.
   */
  lemma NamesakeOfADatabaseIsBlocked(r: Rules, d: string) returns (s: Sys)
    ensures Reachable(r, s) && s.uw.UIdle? && Waiting(s.users, d) && Served(s, d)
    ensures !exists steps :: Completes(r, s, d, steps)
  {
    Starts(r);
    var s1 := BringUp(r, Init(), d, true);
    var step := World(NewUser(d, [], UserBody(d, false, false, 0)));
    Next(r, s1, step);
    s := Apply(r, s1, step);
    assert forall o :: (d, o) in s.users.past ==> !o.marked;
    CreationCompletesIff(r, s, d);
  }
}
