/**
 What holds of DbInstances over all runs: phases tell how far the recording pass got, skipping
 is sound, and a ready instance starts over exactly when its inputs have changed.
 */
module DbInstanceTheorems {
  import opened ObjectStore
  import opened Options
  import opened InstanceInputs
  import opened DbInstance
  import Operator
  import OperatorInvariants
  import OperatorTheorems

  // ---- The broadcast -------------------------------------------------------------------------------------

  /** Every listed copy of the instance with a checksum has been emptied since it was listed. */
  ghost predicate AllEmptied(clears: set<(string, nat)>, inst: string, items: seq<Listed>) {
    forall k :: 0 <= k < |items| ==> OperatorInvariants.Emptied(clears, inst, items[k].0, items[k].1)
  }

  lemma TurnKeepsList(op: Databases)
    requires Operator.InstEnabled(op, Operator.IItem)
    ensures var op' := Operator.InstApply(op, Operator.IItem);
            && op.clears <= op'.clears
            && (op'.iw.IList? ==> op'.iw.inst == op.iw.inst && op'.iw.items == op.iw.items)
  {
  }

  lemma {:induction false} TellKeepsInv(r: Operator.Rules, op: Databases, budget: nat)
    requires OperatorTheorems.Inv(r, op)
    ensures var op' := Tell(op, budget);
            && OperatorTheorems.Inv(r, op') && op.clears <= op'.clears
            && (op'.iw.IList? ==> op.iw.IList? && op'.iw.inst == op.iw.inst && op'.iw.items == op.iw.items)
    decreases budget
  {
    if budget > 0 && Operator.InstEnabled(op, Operator.IItem) {
      OperatorTheorems.StepKeepsInv(r, op, Operator.Instance(Operator.IItem));
      TurnKeepsList(op);
      TellKeepsInv(r, Operator.InstApply(op, Operator.IItem), budget - 1);
    }
  }

  /** The broadcast of a pass is a run of the other step system, and a complete one reaches the whole list. */
  lemma {:induction false} BroadcastIsARun(r: Operator.Rules, op: Databases, inst: string, items: seq<Listed>,
                                           budget: nat)
    requires OperatorTheorems.Inv(r, op) && CanList(op, inst, items)
    ensures var op' := Tell(Listing(op, inst, items), budget);
            && OperatorTheorems.Inv(r, op'.(iw := Operator.IIdle)) && op.clears <= op'.clears
            && (Complete(op') ==> AllEmptied(op'.clears, inst, items))
  {
    OperatorTheorems.StepKeepsInv(r, op, Operator.Instance(Operator.IStart(inst, items)));
    TellKeepsInv(r, Listing(op, inst, items), budget);
    var op' := Tell(Listing(op, inst, items), budget);
    if op'.iw.IList? {
      OperatorTheorems.StepKeepsInv(r, op', Operator.Instance(Operator.IStop));
    }
  }

  // ---- Invariant -----------------------------------------------------------------------------------------

  /** The entry is what a pass on its inputs would do. */
  predicate Honest(h: Hash, e: Entry) {
    && Fetch(e.trip.k, e.spec).Ok? && e.sums == Checksums(h, e.spec, Fetch(e.trip.k, e.spec).value)
    && (e.created ==> Build(e.trip.again, e.spec, Fetch(e.trip.k, e.spec).value).Ok?)
  }

  /** The phase tells how far the pass got that recorded the stored checksums. */
  predicate StatusOk(log: seq<Entry>, n: string, s: Status) {
    && (s.ready <==> s.phase.Broadcasting? || s.phase.ProxyCreating? || s.phase.Running?)
    && (s.phase.Creating? || s.ready ==>
          s.pass < |log| && log[s.pass].inst == n && log[s.pass].sums == s.sums && s.phase == PhaseOf(log[s.pass]))
  }

  ghost predicate AllOk(past: set<(string, Obj<Body>)>, log: seq<Entry>) {
    forall n, o :: (n, o) in past ==> StatusOk(log, n, o.body.status)
  }

  ghost predicate AllHonest(h: Hash, log: seq<Entry>) {
    forall i :: 0 <= i < |log| ==> Honest(h, log[i])
  }

  ghost predicate AllTold(log: seq<Entry>, clears: set<(string, nat)>) {
    forall i :: 0 <= i < |log| && log[i].told ==> AllEmptied(clears, log[i].inst, log[i].trip.items)
  }

  ghost predicate Inv(h: Hash, r: Operator.Rules, s: Sys) {
    && Valid(s.st) && AllOk(s.st.past, s.log) && AllHonest(h, s.log)
    && OperatorTheorems.Inv(r, s.op) && AllTold(s.log, s.op.clears)
  }

  lemma ToldStays(log: seq<Entry>, clears: set<(string, nat)>, more: set<(string, nat)>)
    requires AllTold(log, clears) && clears <= more
    ensures AllTold(log, more)
  {
    forall i, k | 0 <= i < |log| && log[i].told && 0 <= k < |log[i].trip.items|
      ensures OperatorInvariants.Emptied(more, log[i].inst, log[i].trip.items[k].0, log[i].trip.items[k].1)
    {
      assert OperatorInvariants.Emptied(clears, log[i].inst, log[i].trip.items[k].0, log[i].trip.items[k].1);
    }
  }

  lemma PassIsOk(h: Hash, n: string, b: Body, t: Trip, op: Databases, log: seq<Entry>)
    requires StatusOk(log, n, b.status) && CanList(op, n, t.items)
    ensures var more := if Starts(h, b, t) then log + [Did(h, n, b, t, op)] else log;
            StatusOk(more, n, Pass(h, n, b, t, op, |log|))
  {
  }

  /** The part of a pass that concerns the Databases. */
  lemma PassKeepsDatabases(h: Hash, r: Operator.Rules, s: Sys, n: string, b: Body, t: Trip)
    requires Inv(h, r, s) && CanList(s.op, n, t.items)
    ensures var op' := OpAfter(h, n, b, t, s.op);
            && OperatorTheorems.Inv(r, op') && AllTold(s.log, op'.clears)
            && (Starts(h, b, t) ==> AllTold(s.log + [Did(h, n, b, t, s.op)], op'.clears))
  {
    BroadcastIsARun(r, s.op, n, t.items, t.budget);
    ToldStays(s.log, s.op.clears, OpAfter(h, n, b, t, s.op).clears);
  }

  /** The part that concerns the stored instances and the record. */
  lemma PassKeepsInstances(h: Hash, r: Operator.Rules, s: Sys, step: Step)
    requires Valid(s.st) && AllOk(s.st.past, s.log) && AllHonest(h, s.log) && Enabled(r, s, step) && step.Reconciled?
    ensures var s' := Apply(h, r, s, step); Valid(s'.st) && AllOk(s'.st.past, s'.log) && AllHonest(h, s'.log)
  {
    var Reconciled(n, copy, t, writes) := step;
    var b, s' := copy.body, Apply(h, r, s, step);
    PassIsOk(h, n, b, t, s.op, s.log);
    assert AllOk(s.st.past, s'.log);
    if writes && Accepts(s.st, n, copy.version, copy.finalizers) {
      PutIsValid(s.st, n, copy.finalizers, Body(b.spec, Pass(h, n, b, t, s.op, |s.log|)));
    }
  }

  lemma ReconcileKeepsInv(h: Hash, r: Operator.Rules, s: Sys, step: Step)
    requires Inv(h, r, s) && Enabled(r, s, step) && step.Reconciled?
    ensures Inv(h, r, Apply(h, r, s, step))
  {
    PassKeepsDatabases(h, r, s, step.n, step.copy.body, step.t);
    PassKeepsInstances(h, r, s, step);
  }

  lemma StepKeepsInv(h: Hash, r: Operator.Rules, s: Sys, step: Step)
    requires Inv(h, r, s) && Enabled(r, s, step)
    ensures Inv(h, r, Apply(h, r, s, step))
  {
    match step {
      case Appear(n, fs, spec) => CreateIsValid(s.st, n, fs, Body(spec, New));
      case Edit(n, fs, spec) =>
        assert (n, s.st.live[n]) in s.st.past;
        PutIsValid(s.st, n, fs, Body(spec, s.st.live[n].body.status));
      case Vanish(n) =>
        assert (n, s.st.live[n]) in s.st.past;
        MarkIsValid(s.st, n);
      case Reconciled(_, _, _, _) => ReconcileKeepsInv(h, r, s, step);
      case Elsewhere(o) => ElsewhereKeepsInv(h, r, s, o);
    }
  }

  lemma ElsewhereKeepsInv(h: Hash, r: Operator.Rules, s: Sys, o: Operator.Step)
    requires Inv(h, r, s) && Enabled(r, s, Elsewhere(o))
    ensures Inv(h, r, Apply(h, r, s, Elsewhere(o)))
  {
    OperatorTheorems.StepKeepsInv(r, s.op, o);
    OthersClearNothing(r, s.op, o);
  }

  lemma OthersClearNothing(r: Operator.Rules, op: Databases, o: Operator.Step)
    requires Operator.Enabled(r, op, o) && !o.Instance?
    ensures Operator.Apply(r, op, o).clears == op.clears
  {
  }

  lemma {:induction false} RunKeepsInv(h: Hash, r: Operator.Rules, s: Sys, steps: seq<Step>)
    requires Inv(h, r, s) && Legal(h, r, s, steps)
    ensures Inv(h, r, Run(h, r, s, steps))
    decreases |steps|
  {
    if steps != [] {
      StepKeepsInv(h, r, s, steps[0]);
      RunKeepsInv(h, r, Apply(h, r, s, steps[0]), steps[1..]);
    }
  }

  lemma ReachableInv(h: Hash, r: Operator.Rules, s: Sys)
    requires Reachable(h, r, s)
    ensures Inv(h, r, s)
  {
    var steps :| Legal(h, r, Start(), steps) && Run(h, r, Start(), steps) == s;
    OperatorTheorems.InitInv(r);
    RunKeepsInv(h, r, Start(), steps);
  }

  // ---- What holds in every reachable state -----------------------------------------------------------------

  /** Listed with a checksum, then emptied at some version, from which on it looks changed until recorded anew. */
  ghost predicate Invalidated(op: Databases, inst: string, item: Listed) {
    item.1.body.spec.instance == inst && item.1.body.specSum.SumOf? ==>
      exists w :: (item.0, w) in op.clears && w > item.1.version && OperatorTheorems.InvalidatedFrom(op, item.0, w)
  }

  /**
   Not ready means no phase, Validating or Creating; ready means Broadcasting, ProxyCreating
   or Running. Running means that creating, broadcasting and making the proxy all succeeded in
   the very pass that recorded the stored checksums, and that every Database which that pass
   had listed with a checksum has been invalidated since.
   */
  lemma PhasesTellTheTruth(h: Hash, r: Operator.Rules, s: Sys, n: string)
    requires Reachable(h, r, s) && n in s.st.live
    ensures var st := s.st.live[n].body.status;
            && (!st.ready ==> st.phase.NoPhase? || st.phase.Validating? || st.phase.Creating?)
            && (st.ready ==> st.phase.Broadcasting? || st.phase.ProxyCreating? || st.phase.Running?)
            && (st.phase.Running? ==>
                  && st.pass < |s.log|
                  && var e := s.log[st.pass];
                     && e.inst == n && e.sums == st.sums && e.created && e.told && e.proxied
                     && forall k :: 0 <= k < |e.trip.items| ==> Invalidated(s.op, n, e.trip.items[k]))
  {
    ReachableInv(h, r, s);
    assert (n, s.st.live[n]) in s.st.past;
    var st := s.st.live[n].body.status;
    if st.phase.Running? {
      var e := s.log[st.pass];
      forall k | 0 <= k < |e.trip.items|
        ensures Invalidated(s.op, n, e.trip.items[k])
      {
        EmptiedIsInvalidated(r, s.op, n, e.trip.items[k]);
      }
    }
  }

  lemma EmptiedIsInvalidated(r: Operator.Rules, op: Databases, inst: string, item: Listed)
    requires OperatorTheorems.Inv(r, op) && OperatorInvariants.Emptied(op.clears, inst, item.0, item.1)
    ensures Invalidated(op, inst, item)
  {
    if item.1.body.spec.instance == inst && item.1.body.specSum.SumOf? {
      var w :| (item.0, w) in op.clears && w > item.1.version;
      OperatorTheorems.ClearedVersionsInvalidate(r, op, item.0, w);
    }
  }

  /**
   When a pass finds a ready instance unchanged, what it would build is what was built in the
   pass that recorded the checksums exactly if nobody had edited a referenced value between
   that pass's fetch and its `create`.
   */
  lemma UnchangedMeansSameBackendIff(h: Hash, r: Operator.Rules, s: Sys, n: string, k: Cluster)
    requires CollisionFree(h) && Reachable(h, r, s) && n in s.st.live
    requires var b := s.st.live[n].body;
             b.status.ready && Fetch(k, b.spec).Ok? && Checksums(h, b.spec, Fetch(k, b.spec).value) == b.status.sums
    ensures var b := s.st.live[n].body;
            && b.status.pass < |s.log|
            && var e := s.log[b.status.pass];
               && e.created && Fetch(e.trip.k, e.spec).Ok?
               && var built := Build(e.trip.again, e.spec, Fetch(e.trip.k, e.spec).value);
                  && built.Ok?
                  && (Build(k, b.spec, Fetch(k, b.spec).value) == built <==>
                        ReadsOf(e.trip.again, e.spec) == ReadsOf(e.trip.k, e.spec))
  {
    ReachableInv(h, r, s);
    var b := s.st.live[n].body;
    assert (n, s.st.live[n]) in s.st.past;
    var e := s.log[b.status.pass];
    assert Honest(h, e);
    ChecksumsCoverReads(h, k, b.spec, e.trip.k, e.spec);
    ChecksumsCoverBuild(h, k, b.spec, k, e.trip.k, e.spec, e.trip.again);
  }

  // ---- When a ready instance starts over ---------------------------------------------------------------------

  /** A pass on the stored instance whose status write goes through and which finds other checksums. */
  predicate Disturbs(h: Hash, s: Sys, step: Step, n: string)
    requires n in s.st.live
  {
    step.Reconciled? && step.n == n && step.writes && step.copy == s.st.live[n] && Changed(h, step.copy.body, step.t)
  }

  /** The status of a ready instance changes in exactly those steps, in whatever phase it stopped. */
  lemma ReadyStatusChangesIff(h: Hash, r: Operator.Rules, s: Sys, step: Step, n: string)
    requires Valid(s.st) && Enabled(r, s, step)
    requires n in s.st.live && s.st.live[n].body.status.ready && n in Apply(h, r, s, step).st.live
    ensures Apply(h, r, s, step).st.live[n].body.status != s.st.live[n].body.status <==> Disturbs(h, s, step, n)
  {
    if step.Reconciled? && step.n == n && Accepts(s.st, n, step.copy.version, step.copy.finalizers) {
      AcceptedCopyIsCurrent(s.st, n, step.copy, step.copy.finalizers);
    }
  }

  /** `n` stays stored, and no step of the run finds its inputs changed. */
  predicate Undisturbed(h: Hash, r: Operator.Rules, s: Sys, steps: seq<Step>, n: string)
    requires Legal(h, r, s, steps)
    decreases |steps|
  {
    && n in s.st.live
    && (steps == [] ||
        (!Disturbs(h, s, steps[0], n) && Undisturbed(h, r, Apply(h, r, s, steps[0]), steps[1..], n)))
  }

  /**
   So a pass whose broadcast or proxy failed is not made up for while the inputs stay the same:
   the instance keeps its status, whatever passes run.
   */
  lemma {:induction false} FailedBroadcastIsNotRetried(h: Hash, r: Operator.Rules, s: Sys, steps: seq<Step>, n: string)
    requires Inv(h, r, s) && Legal(h, r, s, steps) && Undisturbed(h, r, s, steps, n)
    requires n in s.st.live && s.st.live[n].body.status.ready
    ensures n in Run(h, r, s, steps).st.live
    ensures Run(h, r, s, steps).st.live[n].body.status == s.st.live[n].body.status
    decreases |steps|
  {
    if steps != [] {
      StepKeepsInv(h, r, s, steps[0]);
      ReadyStatusChangesIff(h, r, s, steps[0], n);
      FailedBroadcastIsNotRetried(h, r, Apply(h, r, s, steps[0]), steps[1..], n);
    }
  }

  /**
   A pass on the stored copy of a ready instance starts over if and only if everything can be
   fetched and labelled, the spec is valid and the checksums differ from the stored ones; and
   if it then gets through its list, everything listed with a checksum has been emptied.
   */
  lemma ReadyInstanceStartsOverIff(h: Hash, r: Operator.Rules, s: Sys, n: string, t: Trip, writes: bool)
    requires Inv(h, r, s) && n in s.st.live && s.st.live[n].body.status.ready
    requires Enabled(r, s, Reconciled(n, s.st.live[n], t, writes))
    ensures var b, s' := s.st.live[n].body, Apply(h, r, s, Reconciled(n, s.st.live[n], t, writes));
            && (s'.log != s.log <==>
                  && Fetch(t.k, b.spec).Ok? && t.labelled && ValidSpec(b.spec)
                  && Checksums(h, b.spec, Fetch(t.k, b.spec).value) != b.status.sums)
            && (s'.log != s.log && s'.log[|s.log|].told ==> AllEmptied(s'.op.clears, n, t.items))
  {
    PassKeepsDatabases(h, r, s, n, s.st.live[n].body, t);
  }

  /**
   An instance that is not ready starts over on every pass that can fetch and label everything
   and finds the spec valid, whether or not the checksums differ: a failed create is retried.
   */
  lemma UnreadyInstanceStartsOverIff(h: Hash, r: Operator.Rules, s: Sys, n: string, copy: Obj<Body>, t: Trip,
                                     writes: bool)
    requires !copy.body.status.ready && Enabled(r, s, Reconciled(n, copy, t, writes))
    ensures Apply(h, r, s, Reconciled(n, copy, t, writes)).log != s.log <==>
              Fetch(t.k, copy.body.spec).Ok? && t.labelled && ValidSpec(copy.body.spec)
  {
  }

  /** Every call of the pass succeeds. */
  predicate AllWell(n: string, spec: Spec, t: Trip, op: Databases)
    requires CanList(op, n, t.items)
  {
    && Fetch(t.k, spec).Ok? && t.labelled && ValidSpec(spec)
    && Build(t.again, spec, Fetch(t.k, spec).value).Ok? && t.works
    && t.lists && Complete(Tell(Listing(op, n, t.items), t.budget)) && t.proxied
  }

  /**
   Whatever has failed before, a pass on the stored copy whose calls all succeed leaves the instance
   Running, with the checksums of what it fetched, if it was not ready or its inputs have changed;
   and if it was ready and they have not, it leaves the status alone.
   */
  lemma GoodPassEndsRunning(h: Hash, r: Operator.Rules, s: Sys, n: string, t: Trip)
    requires Reachable(h, r, s) && n in s.st.live && Enabled(r, s, Reconciled(n, s.st.live[n], t, true))
    requires AllWell(n, s.st.live[n].body.spec, t, s.op)
    ensures var b, s' := s.st.live[n].body, Apply(h, r, s, Reconciled(n, s.st.live[n], t, true));
            var sums := Checksums(h, b.spec, Fetch(t.k, b.spec).value);
            && n in s'.st.live
            && s'.st.live[n].body.status ==
                 if b.status.ready && b.status.sums == sums then b.status else Status(true, Running, sums, |s.log|)
  {
    assert !(s.st.live[n].marked && s.st.live[n].finalizers == []) by {
      ReachableInv(h, r, s);
    }
    WrittenStatus(h, r, s, n, t);
    GoodPassStatus(h, n, s.st.live[n].body, t, s.op, |s.log|);
  }

  /** A status write from the stored copy goes through. */
  lemma WrittenStatus(h: Hash, r: Operator.Rules, s: Sys, n: string, t: Trip)
    requires n in s.st.live && Enabled(r, s, Reconciled(n, s.st.live[n], t, true))
    requires !(s.st.live[n].marked && s.st.live[n].finalizers == [])
    ensures var s' := Apply(h, r, s, Reconciled(n, s.st.live[n], t, true));
            n in s'.st.live && s'.st.live[n].body.status == Pass(h, n, s.st.live[n].body, t, s.op, |s.log|)
  {
  }

  lemma GoodPassStatus(h: Hash, n: string, b: Body, t: Trip, op: Databases, i: nat)
    requires CanList(op, n, t.items) && AllWell(n, b.spec, t, op)
    ensures var sums := Checksums(h, b.spec, Fetch(t.k, b.spec).value);
            Pass(h, n, b, t, op, i) ==
              if b.status.ready && b.status.sums == sums then b.status else Status(true, Running, sums, i)
  {
  }

  /** A pass that starts stops in the phase of the first call that fails, with the new checksums recorded. */
  lemma PassStopsAtFirstFailure(h: Hash, n: string, b: Body, t: Trip, op: Databases, i: nat)
    requires CanList(op, n, t.items) && Fetch(t.k, b.spec).Ok? && t.labelled && ValidSpec(b.spec)
    requires !b.status.ready || Checksums(h, b.spec, Fetch(t.k, b.spec).value) != b.status.sums
    ensures var st, d := Pass(h, n, b, t, op, i), Fetch(t.k, b.spec).value;
            && st.sums == Checksums(h, b.spec, d) && st.pass == i
            && (st.phase == Creating <==> Build(t.again, b.spec, d).Err? || !t.works)
            && (st.phase == Creating <==> !st.ready)
            && (st.ready ==>
                  && (st.phase == Broadcasting <==> !t.lists || !Complete(Tell(Listing(op, n, t.items), t.budget)))
                  && (st.phase == Running <==> st.phase != Broadcasting && t.proxied)
                  && (st.phase == ProxyCreating <==> st.phase != Broadcasting && !t.proxied))
  {
  }

  /** A changed instance whose spec is not valid is taken out of service and keeps its old checksums. */
  lemma InvalidSpecIsNotReady(h: Hash, n: string, b: Body, t: Trip, op: Databases, i: nat)
    requires CanList(op, n, t.items) && Fetch(t.k, b.spec).Ok? && t.labelled && !ValidSpec(b.spec)
    ensures Pass(h, n, b, t, op, i) ==
              if Checksums(h, b.spec, Fetch(t.k, b.spec).value) == b.status.sums then b.status
              else Status(false, Validating, b.status.sums, b.status.pass)
  {
  }

  /** A spec is valid if it names one backend and an engine that is supported. */
  lemma ValidSpecIff(s: Spec)
    ensures ValidSpec(s) <==>
              (s.google.Some? <==> s.generic.None?) && (s.engine == "mysql" || s.engine == "postgres")
  {
  }

  // ---- Witnesses -------------------------------------------------------------------------------------------

  /** The first pass of a new instance. */
  lemma FirstPass(h: Hash, r: Operator.Rules, n: string, spec: Spec, t: Trip) returns (s: Sys)
    requires t.items == [] && Starts(h, Body(spec, New), t)
    ensures Reachable(h, r, s) && n in s.st.live
    ensures s.st.live[n].body == Body(spec, Pass(h, n, Body(spec, New), t, Operator.Init(), 0))
    ensures s.log == [Did(h, n, Body(spec, New), t, Operator.Init())]
  {
    var s1 := Apply(h, r, Start(), Appear(n, [], spec));
    var o := s1.st.live[n];
    var step := Reconciled(n, o, t, true);
    s := Apply(h, r, s1, step);
    var steps := [Appear(n, [], spec), step];
    assert steps[1..] == [step] && [step][1..] == [] && Legal(h, r, s, []) && Run(h, r, s, []) == s;
    assert Legal(h, r, s1, [step]) && Run(h, r, s1, [step]) == s;
    assert Legal(h, r, Start(), steps) && Run(h, r, Start(), steps) == s;
  }

  const ADMIN := Name("ns", "admin")
  const HOST := Name("ns", "host")

  /** A cluster with an admin Secret and a ConfigMap that holds the host. */
  function Sample(host: string): Cluster {
    Cluster(map[ADMIN := map["password" := "x"]], map[HOST := map["host" := host]])
  }

  const SERVER := Generic("", 5432, "", Some(FromRef("ConfigMap", HOST, "host")), None, None)
  const SPEC := Spec("postgres", ADMIN, None, Some(SERVER), false, false, "")

  /** Ready and stuck: the broadcast fails on the List call, or the proxy fails after an empty list. */
  lemma FailedBroadcastIsReached(h: Hash, r: Operator.Rules, n: string, told: bool) returns (s: Sys)
    ensures Reachable(h, r, s) && n in s.st.live && s.st.live[n].body.status.ready
    ensures s.st.live[n].body.status.phase == if told then ProxyCreating else Broadcasting
  {
    var t := Trip(Sample("a"), Sample("a"), true, true, told, [], 0, false);
    assert Fetch(t.k, SPEC).Ok?;
    assert Build(t.again, SPEC, Fetch(t.k, SPEC).value).Ok?;
    s := FirstPass(h, r, n, SPEC, t);
  }

  /** An edit between fetch and `create` that is taken back afterwards goes unnoticed. */
  lemma EditDuringCreateGoesUnnoticed(h: Hash, r: Operator.Rules, n: string) returns (s: Sys)
    ensures Reachable(h, r, s) && n in s.st.live && s.st.live[n].body.status.phase == Running && |s.log| == 1
    ensures var b, k := s.st.live[n].body, Sample("a");
            && Fetch(k, b.spec).Ok? && Checksums(h, b.spec, Fetch(k, b.spec).value) == b.status.sums
            && Build(k, b.spec, Fetch(k, b.spec).value) !=
                 Build(s.log[0].trip.again, b.spec, Fetch(k, b.spec).value)
  {
    var t := Trip(Sample("a"), Sample("b"), true, true, true, [], 0, true);
    assert Fetch(t.k, SPEC).Ok?;
    assert Build(t.again, SPEC, Fetch(t.k, SPEC).value).Ok?;
    s := FirstPass(h, r, n, SPEC, t);
    assert Build(t.k, SPEC, Fetch(t.k, SPEC).value).value.host == "a";
    assert Build(t.again, SPEC, Fetch(t.k, SPEC).value).value.host == "b";
  }
}
