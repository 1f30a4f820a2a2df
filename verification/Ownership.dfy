/**
 KubeHelper: any number of callers claim, edit and release shared objects (Secrets,
 ConfigMaps) by labelling them. Several calls make up one operation, they interleave
 freely, reads may be stale and any call may fail; compare-and-swap on the version is all
 that keeps callers apart.
 */
module Ownership {
  import opened ObjectStore
  import opened Labels
  import opened Options

  datatype Body = Body(labels: Labels, owners: seq<Ref>, data: string)

  /** The object as the operation holds it; without a version it has not been read. */
  datatype Local = Local(target: string, version: Option<nat>, body: Body)

  datatype Pc = Idle | Creating | Refreshing | Claiming | Editing | Fetching | Releasing

  datatype Proc = Proc(caller: Caller, pc: Pc, local: Local)

  datatype Sys = Sys(st: Store<Body>, procs: map<nat, Proc>)

  // ---- Steps -----------------------------------------------------------------------------------------

  datatype Step =
    | Begin(i: nat, caller: Caller, local: Local, deleted: bool) // ModifyObject
    | CallCreate(i: nat, fails: bool)
    | CallGet(i: nat, read: Option<Obj<Body>>)
    | CallUpdate(i: nat, fails: bool)
    | Appear(n: string, fs: seq<string>, body: Body)             // the rest: others create, edit
    | Edit(n: string, fs: seq<string>, body: Body)               // and delete objects
    | Vanish(n: string)

  /**
   What callers hand to KubeHelper: a new object without used-by labels, or one that was
   read at some time and whose used-by labels were left alone.
   */
  ghost predicate Prepared(st: Store<Body>, l: Local) {
    if l.version.None? then KIND_KEY !in l.body.labels && NAME_KEY !in l.body.labels else Backed(st.past, l)
  }

  ghost predicate Backed(past: set<(string, Obj<Body>)>, l: Local) {
    exists o :: (l.target, o) in past && l.version == Some(o.version) && SameUse(o.body.labels, l.body.labels)
  }

  ghost predicate Enabled(s: Sys, step: Step) {
    match step
    case Begin(i, c, l, _) => (i in s.procs ==> s.procs[i].pc.Idle?) && c.name != "" && Prepared(s.st, l)
    case CallCreate(i, _) => i in s.procs && s.procs[i].pc.Creating?
    case CallGet(i, read) =>
      && i in s.procs && (s.procs[i].pc.Refreshing? || s.procs[i].pc.Fetching?)
      && (read.Some? ==> (s.procs[i].local.target, read.value) in s.st.past)
    case CallUpdate(i, _) =>
      i in s.procs && (s.procs[i].pc.Claiming? || s.procs[i].pc.Editing? || s.procs[i].pc.Releasing?)
    case Appear(n, _, b) => n !in s.st.live && Paired(b.labels)
    case Edit(n, fs, b) =>
      && n in s.st.live && Accepts(s.st, n, s.st.live[n].version, fs)
      && SameUse(b.labels, s.st.live[n].body.labels)
    case Vanish(n) => n in s.st.live
  }

  /** The body the next Update call of the operation carries, if it makes one. */
  function Wanted(p: Proc): Option<Body> {
    var b := p.local.body;
    match p.pc
    case Claiming => if IsUsedByAny(b.labels) then None else Some(b.(labels := Claimed(b.labels, p.caller)))
    case Editing => if IsUsedByCaller(b.labels, p.caller) then Some(b.(owners := Owned(b.owners, p.caller))) else None
    case Releasing => if IsUsedByCaller(b.labels, p.caller) then Some(b.(labels := Unclaimed(b.labels))) else None
    case _ => None
  }

  /** An Update without a version is not checked against the stored object. */
  predicate Goes(st: Store<Body>, l: Local) {
    l.target in st.live && (l.version.Some? ==> st.live[l.target].version == l.version.value)
  }

  function Write(st: Store<Body>, l: Local, b: Body): Store<Body>
    requires l.target in st.live
  {
    Put(st, l.target, st.live[l.target].finalizers, b)
  }

  function Stop(p: Proc): Proc { p.(pc := Idle) }

  ghost function Apply(s: Sys, step: Step): Sys
    requires Enabled(s, step)
  {
    match step
    case Begin(i, c, l, deleted) =>
      var pc := if deleted then Fetching else if l.version.None? then Creating else Claiming;
      s.(procs := s.procs[i := Proc(c, pc, l)])
    case CallCreate(i, fails) =>
      var p := s.procs[i];
      if fails then s.(procs := s.procs[i := Stop(p)])
      else Sys(if p.local.target in s.st.live then s.st else Create(s.st, p.local.target, [], p.local.body),
               s.procs[i := p.(pc := Refreshing)])
    case CallGet(i, read) =>
      var p := s.procs[i];
      if read.None? then s.(procs := s.procs[i := Stop(p)])
      else
        var l := Local(p.local.target, Some(read.value.version), read.value.body);
        s.(procs := s.procs[i := Proc(p.caller, if p.pc.Refreshing? then Claiming else Releasing, l)])
    case CallUpdate(i, fails) =>
      var p, w := s.procs[i], Wanted(s.procs[i]);
      if w.None? then s.(procs := s.procs[i := if p.pc.Claiming? then p.(pc := Editing) else Stop(p)])
      else if fails || !Goes(s.st, p.local) then s.(procs := s.procs[i := Stop(p)])
      else
        var st := Write(s.st, p.local, w.value);
        var n := p.local.target;
        Sys(st, s.procs[i := if p.pc.Claiming? && n in st.live
                             then Proc(p.caller, Editing, Local(n, Some(st.live[n].version), w.value))
                             else Stop(p)])
    case Appear(n, fs, b) => s.(st := Create(s.st, n, fs, b))
    case Edit(n, fs, b) => s.(st := Put(s.st, n, fs, b))
    case Vanish(n) => s.(st := Mark(s.st, n))
  }

  /** The operation that writes to object `n` in this step, if one does. */
  ghost predicate Writes(s: Sys, step: Step, n: string)
    requires Enabled(s, step)
  {
    && step.CallUpdate? && !step.fails && s.procs[step.i].local.target == n
    && Wanted(s.procs[step.i]).Some? && Goes(s.st, s.procs[step.i].local)
  }

  // ---- Invariant -------------------------------------------------------------------------------------

  ghost predicate ProcOk(past: set<(string, Obj<Body>)>, p: Proc) {
    && p.caller.name != ""
    && match p.pc
       case Creating => KIND_KEY !in p.local.body.labels && NAME_KEY !in p.local.body.labels
       case Claiming | Editing | Releasing => Backed(past, p.local)
       case _ => true
  }

  ghost predicate AllPaired(past: set<(string, Obj<Body>)>) {
    forall n, o :: (n, o) in past ==> Paired(o.body.labels)
  }

  ghost predicate Inv(s: Sys) {
    Valid(s.st) && AllPaired(s.st.past) && forall i :: i in s.procs ==> ProcOk(s.st.past, s.procs[i])
  }

  /** An accepted write finds the used-by labels the operation has been looking at. */
  lemma AcceptedSeesLabels(st: Store<Body>, l: Local)
    requires Valid(st) && AllPaired(st.past) && Backed(st.past, l) && Goes(st, l)
    ensures l.version.Some? && SameUse(st.live[l.target].body.labels, l.body.labels) && Paired(l.body.labels)
  {
    var o :| (l.target, o) in st.past && l.version == Some(o.version) && SameUse(o.body.labels, l.body.labels);
    AcceptedCopyIsCurrent(st, l.target, o, st.live[l.target].finalizers);
  }

  lemma BackedGrows(past: set<(string, Obj<Body>)>, more: set<(string, Obj<Body>)>, p: Proc)
    requires past <= more && ProcOk(past, p)
    ensures ProcOk(more, p)
  {
    var l := p.local;
    if o :| (l.target, o) in past && l.version == Some(o.version) && SameUse(o.body.labels, l.body.labels) {
      assert (l.target, o) in more;
    }
  }

  /** A step that extends the store with one paired value and replaces at most one operation. */
  lemma Extended(s: Sys, s': Sys, n: string, o: Obj<Body>, i: nat)
    requires Inv(s) && Valid(s'.st) && Paired(o.body.labels)
    requires s'.st.past == s.st.past || s'.st.past == s.st.past + {(n, o)}
    requires i in s'.procs ==> s'.procs == s.procs[i := s'.procs[i]] && ProcOk(s'.st.past, s'.procs[i])
    requires i !in s'.procs ==> s'.procs == s.procs
    ensures Inv(s')
  {
    forall k | k in s'.procs
      ensures ProcOk(s'.st.past, s'.procs[k])
    {
      if k != i {
        BackedGrows(s.st.past, s'.st.past, s.procs[k]);
      }
    }
  }

  /**
   The heart of the matter. Every Update KubeHelper gets through to an existing object carries
   the version of the stored object; a claim goes to a free object and makes it the caller's,
   an edit goes to the caller's own object and leaves it the caller's, and a release goes to
   the caller's own object and frees it.
   */
  lemma WritesAreOwned(s: Sys, i: nat)
    requires Inv(s) && i in s.procs && Wanted(s.procs[i]).Some? && Goes(s.st, s.procs[i].local)
    ensures var p := s.procs[i];
            var was, now := s.st.live[p.local.target].body.labels, Wanted(p).value.labels;
            && p.local.version == Some(s.st.live[p.local.target].version)
            && Paired(now)
            && (p.pc.Claiming? ==> !IsUsedByAny(was) && NAME_KEY !in was && IsUsedByCaller(now, p.caller))
            && (p.pc.Editing? ==> IsUsedByCaller(was, p.caller) && SameUse(was, now))
            && (p.pc.Releasing? ==> IsUsedByCaller(was, p.caller) && !IsUsedByAny(now))
  {
    var p := s.procs[i];
    AcceptedSeesLabels(s.st, p.local);
    if p.pc.Claiming? {
      ReleaseUndoesClaim(p.local.body.labels, p.caller);
    }
  }

  lemma UpdateKeepsInv(s: Sys, step: Step)
    requires Inv(s) && Enabled(s, step) && step.CallUpdate?
    ensures Inv(Apply(s, step))
  {
    var i, p := step.i, s.procs[step.i];
    var s', w := Apply(s, step), Wanted(p);
    if w.Some? && !step.fails && Goes(s.st, p.local) {
      var n := p.local.target;
      WritesAreOwned(s, i);
      PutIsValid(s.st, n, s.st.live[n].finalizers, w.value);
      var o := Written(s.st, n, s.st.live[n].finalizers, w.value);
      assert (n, o) in s'.st.past;
      if p.pc.Claiming? {
        assert o.body == w.value && s'.st.live[n] == o;
        assert SameUse(o.body.labels, s'.procs[i].local.body.labels);
        assert Backed(s'.st.past, s'.procs[i].local);
      }
      Extended(s, s', n, o, i);
    } else {
      assert s'.st == s.st;
      assert forall k :: k in s'.procs ==> ProcOk(s.st.past, s'.procs[k]);
    }
  }

  lemma CallsKeepInv(s: Sys, step: Step)
    requires Inv(s) && Enabled(s, step) && (step.CallCreate? || step.CallGet?)
    ensures Inv(Apply(s, step))
  {
    var i, p, s' := step.i, s.procs[step.i], Apply(s, step);
    if step.CallCreate? && !step.fails && p.local.target !in s.st.live {
      CreateIsValid(s.st, p.local.target, [], p.local.body);
      Extended(s, s', p.local.target, Obj(s.st.rev + 1, s.st.rev + 1, [], false, p.local.body), i);
    } else if step.CallGet? && step.read.Some? {
      assert SameUse(step.read.value.body.labels, s'.procs[i].local.body.labels);
      assert Backed(s'.st.past, s'.procs[i].local);
      Extended(s, s', p.local.target, step.read.value, i);
    }
  }

  lemma OthersKeepInv(s: Sys, step: Step)
    requires Inv(s) && Enabled(s, step) && (step.Appear? || step.Edit? || step.Vanish?)
    ensures Inv(Apply(s, step))
  {
    var n, s' := step.n, Apply(s, step);
    if step.Appear? {
      CreateIsValid(s.st, n, step.fs, step.body);
      Grown(s, s', n, Obj(s.st.rev + 1, s.st.rev + 1, step.fs, false, step.body));
    } else if step.Edit? {
      PutIsValid(s.st, n, step.fs, step.body);
      Grown(s, s', n, Written(s.st, n, step.fs, step.body));
    } else if !s.st.live[n].marked {
      MarkIsValid(s.st, n);
      Grown(s, s', n, s.st.live[n].(version := s.st.rev + 1, marked := true));
    }
  }

  lemma Grown(s: Sys, s': Sys, n: string, o: Obj<Body>)
    requires Inv(s) && Valid(s'.st) && Paired(o.body.labels)
    requires s'.st.past == s.st.past + {(n, o)} && s'.procs == s.procs
    ensures Inv(s')
  {
    forall k | k in s'.procs
      ensures ProcOk(s'.st.past, s'.procs[k])
    {
      BackedGrows(s.st.past, s'.st.past, s.procs[k]);
    }
  }

  lemma StepKeepsInv(s: Sys, step: Step)
    requires Inv(s) && Enabled(s, step)
    ensures Inv(Apply(s, step))
  {
    match step {
      case Begin(_, _, _, _) =>
      case CallCreate(_, _) => CallsKeepInv(s, step);
      case CallGet(_, _) => CallsKeepInv(s, step);
      case CallUpdate(_, _) => UpdateKeepsInv(s, step);
      case _ => OthersKeepInv(s, step);
    }
  }

  // ---- Over whole runs -------------------------------------------------------------------------------

  ghost predicate Legal(s: Sys, steps: seq<Step>)
    decreases |steps|
  {
    steps == [] || (Enabled(s, steps[0]) && Legal(Apply(s, steps[0]), steps[1..]))
  }

  ghost function Run(s: Sys, steps: seq<Step>): Sys
    requires Legal(s, steps)
    decreases |steps|
  {
    if steps == [] then s else Run(Apply(s, steps[0]), steps[1..])
  }

  predicate SameCaller(c: Caller, d: Caller) { c.kind == d.kind && c.name == d.name }

  ghost predicate HeldBy(st: Store<Body>, n: string, c: Caller) {
    n in st.live && IsUsedByCaller(st.live[n].body.labels, c)
  }

  /** The hold on `n` ends: the holder releases it, or the object goes. */
  ghost predicate Ends(s: Sys, step: Step, n: string, c: Caller)
    requires Enabled(s, step)
  {
    || n !in Apply(s, step).st.live
    || (Writes(s, step, n) && s.procs[step.i].pc.Releasing? && SameCaller(s.procs[step.i].caller, c))
  }

  ghost predicate NeverEnds(s: Sys, steps: seq<Step>, n: string, c: Caller)
    requires Legal(s, steps)
    decreases |steps|
  {
    steps == [] || (!Ends(s, steps[0], n, c) && NeverEnds(Apply(s, steps[0]), steps[1..], n, c))
  }

  /** All of KubeHelper's writes to `n` are the holder's, and every one carries a version. */
  ghost predicate OnlyBy(s: Sys, steps: seq<Step>, n: string, c: Caller)
    requires Legal(s, steps)
    decreases |steps|
  {
    || steps == []
    || (&& (Writes(s, steps[0], n) ==>
              SameCaller(s.procs[steps[0].i].caller, c) && s.procs[steps[0].i].local.version.Some?)
        && OnlyBy(Apply(s, steps[0]), steps[1..], n, c))
  }

  lemma StepKeepsHold(s: Sys, step: Step, n: string, c: Caller)
    requires Inv(s) && Enabled(s, step) && HeldBy(s.st, n, c) && c.name != "" && !Ends(s, step, n, c)
    ensures HeldBy(Apply(s, step).st, n, c)
    ensures Writes(s, step, n) ==> SameCaller(s.procs[step.i].caller, c) && s.procs[step.i].local.version.Some?
  {
    if step.CallUpdate? && !step.fails && Wanted(s.procs[step.i]).Some? && Goes(s.st, s.procs[step.i].local) {
      WritesAreOwned(s, step.i);
      assert (n, s.st.live[n]) in s.st.past;
      UseIsExclusive(s.st.live[n].body.labels, c, s.procs[step.i].caller);
    }
  }

  /**
   Ownership exclusion: from an object labelled for one caller, over every run of any number
   of callers, with stale reads, failures and crashes, the object stays that caller's and is
   written by nobody else, until the caller itself releases it or the object goes.
   */
  lemma {:induction false} OwnershipIsExclusive(s: Sys, steps: seq<Step>, n: string, c: Caller)
    requires Inv(s) && Legal(s, steps) && HeldBy(s.st, n, c) && c.name != "" && NeverEnds(s, steps, n, c)
    ensures HeldBy(Run(s, steps).st, n, c) && OnlyBy(s, steps, n, c)
    decreases |steps|
  {
    if steps != [] {
      StepKeepsInv(s, steps[0]);
      StepKeepsHold(s, steps[0], n, c);
      OwnershipIsExclusive(Apply(s, steps[0]), steps[1..], n, c);
    }
  }

  /** No operation in flight, and every object with both used-by labels or neither. */
  ghost predicate Initial(s: Sys) {
    Valid(s.st) && AllPaired(s.st.past) && s.procs == map[]
  }

  lemma {:induction false} RunKeepsInv(s: Sys, steps: seq<Step>)
    requires Inv(s) && Legal(s, steps)
    ensures Inv(Run(s, steps))
    decreases |steps|
  {
    if steps != [] {
      StepKeepsInv(s, steps[0]);
      RunKeepsInv(Apply(s, steps[0]), steps[1..]);
    }
  }

  /** The same from the start: at any point of any run, a caller that holds an object holds it alone. */
  lemma {:induction false} HolderIsAlone(start: Sys, before: seq<Step>, steps: seq<Step>, n: string, c: Caller)
    requires Initial(start) && Legal(start, before) && Legal(Run(start, before), steps)
    requires HeldBy(Run(start, before).st, n, c) && c.name != "" && NeverEnds(Run(start, before), steps, n, c)
    ensures HeldBy(Run(Run(start, before), steps).st, n, c) && OnlyBy(Run(start, before), steps, n, c)
  {
    RunKeepsInv(start, before);
    OwnershipIsExclusive(Run(start, before), steps, n, c);
  }

  /** There is such a start: an empty cluster. */
  lemma EmptyIsInitial()
    ensures Initial(Sys(Empty(), map[]))
  {
  }

  /** Two operations of different callers never both get a claim through on the same free object. */
  lemma RivalClaimsConflict(s: Sys, i: nat, j: nat)
    requires Inv(s) && i in s.procs && j in s.procs && s.procs[i].pc.Claiming? && s.procs[j].pc.Claiming?
    requires i != j && s.procs[i].local.target == s.procs[j].local.target
    requires Enabled(s, CallUpdate(i, false)) && Writes(s, CallUpdate(i, false), s.procs[i].local.target)
    requires Wanted(s.procs[j]).Some?
    ensures !Goes(Apply(s, CallUpdate(i, false)).st, s.procs[j].local)
  {
    var s', n := Apply(s, CallUpdate(i, false)), s.procs[i].local.target;
    StepKeepsInv(s, CallUpdate(i, false));
    WritesAreOwned(s, i);
    if Goes(s'.st, s.procs[j].local) {
      assert s'.procs[j] == s.procs[j];
      WritesAreOwned(s', j);
    }
  }

  // ---- Undisturbed operations ------------------------------------------------------------------------

  /** The references of others stay, and the caller's own is there exactly if it wants cleanup. */
  ghost predicate OwnersAre(refs: seq<Ref>, was: seq<Ref>, c: Caller) {
    forall r :: r in refs <==> if r.uid == c.uid then c.cleanup && r == Ref(c.kind, c.name, c.uid) else r in was
  }

  lemma OwnedAre(was: seq<Ref>, c: Caller)
    ensures OwnersAre(Owned(was, c), was, c)
  {
    forall r
      ensures r in WithoutUid(was, c.uid) <==> r in was && r.uid != c.uid
    {
      WithoutUidMembers(was, c.uid, r);
    }
  }

  /** Object `n` is the caller's, with the data, labels and owners of `b` otherwise. */
  ghost predicate Taken(st: Store<Body>, n: string, b: Body, c: Caller) {
    && n in st.live && st.live[n].body.data == b.data
    && st.live[n].body.labels == b.labels[KIND_KEY := c.kind][NAME_KEY := c.name]
    && OwnersAre(st.live[n].body.owners, b.owners, c)
  }

  lemma {:induction false} RunTwo(s: Sys, x: Step, y: Step)
    requires Enabled(s, x) && Enabled(Apply(s, x), y)
    ensures Legal(s, [x, y]) && Run(s, [x, y]) == Apply(Apply(s, x), y)
  {
    var s1 := Apply(s, x);
    assert [x, y][1..] == [y] && [y][1..] == [];
    assert Legal(Apply(s1, y), []);
    assert Run(s1, [y]) == Run(Apply(s1, y), []);
  }

  lemma {:induction false} RunNext(s: Sys, x: Step, rest: seq<Step>)
    requires Enabled(s, x) && Legal(Apply(s, x), rest)
    ensures Legal(s, [x] + rest) && Run(s, [x] + rest) == Run(Apply(s, x), rest)
  {
    assert ([x] + rest)[1..] == rest;
  }

  /** The edit: an object of the caller's own gets what the caller asked for, any other stays as it is. */
  lemma EditTakes(s: Sys, i: nat)
    requires Inv(s) && i in s.procs && s.procs[i].pc.Editing? && Goes(s.st, s.procs[i].local)
    ensures var p, s' := s.procs[i], Apply(s, CallUpdate(i, false));
            if IsUsedByCaller(p.local.body.labels, p.caller) then Taken(s'.st, p.local.target, p.local.body, p.caller)
            else s'.st == s.st
  {
    var p := s.procs[i];
    if IsUsedByCaller(p.local.body.labels, p.caller) {
      OwnedAre(p.local.body.owners, p.caller);
      assert (p.local.target, s.st.live[p.local.target]) in s.st.past;
      AcceptedSeesLabels(s.st, p.local);
      assert p.local.body.labels == p.local.body.labels[KIND_KEY := p.caller.kind][NAME_KEY := p.caller.name];
    }
  }

  /** The claim: the next step is the edit, on the stored version, with the caller's labels if it was free. */
  lemma ClaimLeadsToEdit(s: Sys, i: nat)
    requires Inv(s) && i in s.procs && s.procs[i].pc.Claiming? && Goes(s.st, s.procs[i].local)
    ensures var p, s' := s.procs[i], Apply(s, CallUpdate(i, false));
            var b, p' := p.local.body, s'.procs[i];
            && p'.pc.Editing? && p'.caller == p.caller && Goes(s'.st, p'.local) && p'.local.target == p.local.target
            && p'.local.body.(labels := b.labels) == b
            && (if IsUsedByAny(b.labels) then s'.st == s.st && p'.local == p.local
                else p'.local.body.labels == b.labels[KIND_KEY := p.caller.kind][NAME_KEY := p.caller.name])
  {
    var p := s.procs[i];
    AcceptedSeesLabels(s.st, p.local);
    assert (p.local.target, s.st.live[p.local.target]) in s.st.past;
  }

  /**
   The claim and the edit of an operation that holds the stored version: an object that is free or
   the caller's own ends up the caller's, with what the caller asked for; any other stays as it is.
   */
  lemma {:induction false} ClaimAndEdit(s: Sys, i: nat)
    requires Inv(s) && i in s.procs && s.procs[i].pc.Claiming? && Goes(s.st, s.procs[i].local)
    ensures var p, steps := s.procs[i], [CallUpdate(i, false), CallUpdate(i, false)];
            var held := s.st.live[p.local.target].body.labels;
            && Legal(s, steps)
            && if IsUsedByAny(held) && !IsUsedByCaller(held, p.caller) then Run(s, steps).st == s.st
               else Taken(Run(s, steps).st, p.local.target, p.local.body, p.caller)
  {
    var p, step := s.procs[i], CallUpdate(i, false);
    AcceptedSeesLabels(s.st, p.local);
    ClaimLeadsToEdit(s, i);
    StepKeepsInv(s, step);
    EditTakes(Apply(s, step), i);
    RunTwo(s, step, step);
  }

  /** HandleCreateOrUpdate, alone, on the stored copy with the caller's changes. */
  lemma {:induction false} UndisturbedUpdate(s: Sys, i: nat, c: Caller, n: string, b: Body)
    requires Inv(s) && n in s.st.live && SameUse(s.st.live[n].body.labels, b.labels)
    requires c.name != "" && (i in s.procs ==> s.procs[i].pc.Idle?)
    ensures var l := Local(n, Some(s.st.live[n].version), b);
            var steps := [Begin(i, c, l, false)] + [CallUpdate(i, false), CallUpdate(i, false)];
            && Legal(s, steps)
            && var held := s.st.live[n].body.labels;
               if IsUsedByAny(held) && !IsUsedByCaller(held, c) then Run(s, steps).st == s.st
               else Taken(Run(s, steps).st, n, b, c)
  {
    var l := Local(n, Some(s.st.live[n].version), b);
    var step := Begin(i, c, l, false);
    assert (l.target, s.st.live[n]) in s.st.past;
    StepKeepsInv(s, step);
    ClaimAndEdit(Apply(s, step), i);
    RunNext(s, step, [CallUpdate(i, false), CallUpdate(i, false)]);
  }

  /** HandleCreateOrUpdate, alone, on a new object: it is created and ends up the caller's. */
  lemma UndisturbedCreation(s: Sys, i: nat, c: Caller, n: string, b: Body)
    requires Inv(s) && n !in s.st.live && KIND_KEY !in b.labels && NAME_KEY !in b.labels
    requires c.name != "" && (i in s.procs ==> s.procs[i].pc.Idle?)
    ensures var steps := [Begin(i, c, Local(n, None, b), false)] + ([CallCreate(i, false)] +
                         ([CallGet(i, Some(Obj(s.st.rev + 1, s.st.rev + 1, [], false, b)))] +
                          [CallUpdate(i, false), CallUpdate(i, false)]));
            Legal(s, steps) && Taken(Run(s, steps).st, n, b, c)
  {
    var o := Obj(s.st.rev + 1, s.st.rev + 1, [], false, b);
    var x, y, z := Begin(i, c, Local(n, None, b), false), CallCreate(i, false), CallGet(i, Some(o));
    var rest := [CallUpdate(i, false), CallUpdate(i, false)];
    StepKeepsInv(s, x);
    var s1 := Apply(s, x);
    StepKeepsInv(s1, y);
    var s2 := Apply(s1, y);
    assert s2.st.live[n] == o && (n, o) in s2.st.past;
    StepKeepsInv(s2, z);
    ClaimAndEdit(Apply(s2, z), i);
    RunNext(s2, z, rest);
    RunNext(s1, y, [z] + rest);
    RunNext(s, x, [y] + ([z] + rest));
  }

  /** Object `n` has lost its used-by labels and nothing else. */
  ghost predicate LetGo(st: Store<Body>, n: string, o: Obj<Body>) {
    && n in st.live && st.live[n].finalizers == o.finalizers
    && st.live[n].body.data == o.body.data && st.live[n].body.owners == o.body.owners
    && st.live[n].body.labels == map k | k in o.body.labels && k != KIND_KEY && k != NAME_KEY :: o.body.labels[k]
  }

  lemma ReleaseFrees(s: Sys, i: nat)
    requires Inv(s) && i in s.procs && s.procs[i].pc.Releasing? && Goes(s.st, s.procs[i].local)
    requires s.procs[i].local.body == s.st.live[s.procs[i].local.target].body
    ensures var n, s' := s.procs[i].local.target, Apply(s, CallUpdate(i, false));
            if IsUsedByCaller(s.st.live[n].body.labels, s.procs[i].caller) then LetGo(s'.st, n, s.st.live[n])
            else s'.st == s.st
  {
    assert (s.procs[i].local.target, s.st.live[s.procs[i].local.target]) in s.st.past;
  }

  /** HandleDelete, alone: the caller's own object loses exactly its used-by labels, any other stays as it is. */
  lemma {:induction false} UndisturbedRelease(s: Sys, i: nat, c: Caller, l: Local)
    requires Inv(s) && l.target in s.st.live && Prepared(s.st, l)
    requires c.name != "" && (i in s.procs ==> s.procs[i].pc.Idle?)
    ensures var o := s.st.live[l.target];
            var steps := [Begin(i, c, l, true)] + [CallGet(i, Some(o)), CallUpdate(i, false)];
            && Legal(s, steps)
            && if IsUsedByCaller(o.body.labels, c) then LetGo(Run(s, steps).st, l.target, o)
               else Run(s, steps).st == s.st
  {
    var o := s.st.live[l.target];
    var x, y, z := Begin(i, c, l, true), CallGet(i, Some(o)), CallUpdate(i, false);
    assert (l.target, o) in s.st.past;
    var s1 := Apply(s, x);
    var s2 := Apply(s1, y);
    assert s2.st == s.st && s2.procs[i] == Proc(c, Releasing, Local(l.target, Some(o.version), o.body));
    StepKeepsInv(s, x);
    StepKeepsInv(s1, y);
    ReleaseFrees(s2, i);
    RunTwo(s1, y, z);
    RunNext(s, x, [y, z]);
  }
}
