/**
 The DbInstance controller: one pass walks the instance through its phases, any call may
 fail, and the status the pass arrived at is written when it returns. The status remembers
 the checksums of the inputs, and a later pass that finds them unchanged does nothing.

 The broadcast of a pass is the one of the step system of the three controllers, which runs
 beside it.
 */
module DbInstance {
  import opened ObjectStore
  import opened Options
  import opened InstanceInputs
  import Operator

  datatype Phase = NoPhase | Validating | Creating | Broadcasting | ProxyCreating | Running

  /** `pass` is the number of the pass that recorded the checksums; nothing depends on it. */
  datatype Status = Status(ready: bool, phase: Phase, sums: Sums, pass: nat)

  datatype Body = Body(spec: Spec, status: Status)

  const New := Status(false, NoPhase, map[], 0)

  type Databases = Operator.Sys
  type Listed = (string, Operator.DbObj)

  // ---- Broadcast -----------------------------------------------------------------------------------------

  /** The loop over the list: at most `budget` turns, and it ends at the first conflict. */
  function Tell(op: Databases, budget: nat): Databases
    decreases budget
  {
    if budget == 0 || !Operator.InstEnabled(op, Operator.IItem) then op
    else Tell(Operator.InstApply(op, Operator.IItem), budget - 1)
  }

  predicate Complete(op: Databases) {
    op.iw.IList? && op.iw.i == |op.iw.items|
  }

  predicate CanList(op: Databases, inst: string, items: seq<Listed>) {
    Operator.InstEnabled(op, Operator.IStart(inst, items))
  }

  function Listing(op: Databases, inst: string, items: seq<Listed>): Databases
    requires CanList(op, inst, items)
  {
    Operator.InstApply(op, Operator.IStart(inst, items))
  }

  // ---- One pass ------------------------------------------------------------------------------------------

  /**
   What a pass meets with: the cluster when it fetches and when `create` reads once more,
   whether labelling and the backend work, the list and how far the broadcast gets along it,
   and whether the proxy works.
   */
  datatype Trip = Trip(k: Cluster, again: Cluster, labelled: bool, works: bool,
                       lists: bool, items: seq<Listed>, budget: nat, proxied: bool)

  /** What a pass that got as far as creating did. */
  datatype Entry = Entry(inst: string, spec: Spec, trip: Trip, sums: Sums, created: bool, told: bool, proxied: bool)

  predicate ValidSpec(s: Spec) { !GetBackendType(s).Invalid? && ValidEngine(s) }

  /** The pass gets as far as comparing checksums, and they differ from the stored ones. */
  predicate Changed(h: Hash, b: Body, t: Trip) {
    && Fetch(t.k, b.spec).Ok? && t.labelled
    && Checksums(h, b.spec, Fetch(t.k, b.spec).value) != b.status.sums
  }

  predicate Starts(h: Hash, b: Body, t: Trip) {
    Fetch(t.k, b.spec).Ok? && t.labelled && ValidSpec(b.spec) && (Changed(h, b, t) || !b.status.ready)
  }

  predicate Creates(h: Hash, b: Body, t: Trip) {
    Starts(h, b, t) && Build(t.again, b.spec, Fetch(t.k, b.spec).value).Ok? && t.works
  }

  /** The Databases after the pass. */
  function OpAfter(h: Hash, n: string, b: Body, t: Trip, op: Databases): Databases
    requires CanList(op, n, t.items)
  {
    if Creates(h, b, t) && t.lists then Tell(Listing(op, n, t.items), t.budget).(iw := Operator.IIdle) else op
  }

  function Did(h: Hash, n: string, b: Body, t: Trip, op: Databases): Entry
    requires Starts(h, b, t) && CanList(op, n, t.items)
  {
    var created := Creates(h, b, t);
    var told := created && t.lists && Complete(Tell(Listing(op, n, t.items), t.budget));
    Entry(n, b.spec, t, Checksums(h, b.spec, Fetch(t.k, b.spec).value), created, told, told && t.proxied)
  }

  /** How far the pass got. */
  function PhaseOf(e: Entry): Phase {
    if !e.created then Creating else if !e.told then Broadcasting else if !e.proxied then ProxyCreating else Running
  }

  /** The status a pass ends with, if it is the `i`-th. */
  function Pass(h: Hash, n: string, b: Body, t: Trip, op: Databases, i: nat): Status
    requires CanList(op, n, t.items)
  {
    if Starts(h, b, t) then
      var e := Did(h, n, b, t, op);
      Status(e.created, PhaseOf(e), e.sums, i)
    else if Changed(h, b, t) then b.status.(ready := false, phase := Validating)
    else b.status
  }

  class Reconciler {
    var status: Status
    var op: Databases

    constructor (status: Status, op: Databases)
      ensures this.status == status && this.op == op
    {
      this.status := status;
      this.op := op;
    }

    method Broadcast(inst: string, items: seq<Listed>, budget: nat) returns (ok: bool)
      requires CanList(op, inst, items)
      modifies this`op
      ensures op == Tell(Listing(old(op), inst, items), budget).(iw := Operator.IIdle)
      ensures ok == Complete(Tell(Listing(old(op), inst, items), budget))
    {
      op := Listing(op, inst, items);
      var left := budget;
      while left > 0 && Operator.InstEnabled(op, Operator.IItem)
        invariant Tell(op, left) == Tell(Listing(old(op), inst, items), budget)
      {
        op := Operator.InstApply(op, Operator.IItem);
        left := left - 1;
      }
      ok := Complete(op);
      op := op.(iw := Operator.IIdle);
    }

    method Reconcile(h: Hash, n: string, spec: Spec, t: Trip, i: nat)
      requires CanList(op, n, t.items)
      modifies this
      ensures status == Pass(h, n, Body(spec, old(status)), t, old(op), i)
      ensures op == OpAfter(h, n, Body(spec, old(status)), t, old(op))
    {
      var data := Fetch(t.k, spec);
      if data.Err? || !t.labelled { return; }
      var sums := GenerateChecksums(h, spec, data.value);
      if sums != status.sums {
        status := status.(ready := false, phase := Validating);
      }
      if !status.ready {
        if GetBackendType(spec).Invalid? || !ValidEngine(spec) { return; }
        status := status.(sums := sums, pass := i, phase := Creating);
        if Build(t.again, spec, data.value).Err? || !t.works { return; }
        status := status.(ready := true, phase := Broadcasting);
        if !t.lists { return; }
        var told := Broadcast(n, t.items, t.budget);
        if !told { return; }
        status := status.(phase := ProxyCreating);
        if !t.proxied { return; }
        status := status.(phase := Running);
      }
    }
  }

  // ---- All runs ------------------------------------------------------------------------------------------

  /** The stored instances, a record of what every pass so far did, and the other controllers. */
  datatype Sys = Sys(st: Store<Body>, log: seq<Entry>, op: Databases)

  /**
   Passes work on a copy that may be old, and their status write may fail. Others create,
   edit and delete instances without touching the status. The other controllers and their
   surroundings take steps of their own in between.
   */
  datatype Step =
    | Appear(n: string, fs: seq<string>, spec: Spec)
    | Edit(n: string, fs: seq<string>, spec: Spec)
    | Vanish(n: string)
    | Reconciled(n: string, copy: Obj<Body>, t: Trip, writes: bool)
    | Elsewhere(o: Operator.Step)

  predicate Enabled(r: Operator.Rules, s: Sys, step: Step) {
    match step
    case Appear(n, _, _) => n !in s.st.live
    case Edit(n, fs, _) => n in s.st.live && Accepts(s.st, n, s.st.live[n].version, fs)
    case Vanish(n) => n in s.st.live
    case Reconciled(n, copy, t, _) => (n, copy) in s.st.past && CanList(s.op, n, t.items)
    case Elsewhere(o) => !o.Instance? && Operator.Enabled(r, s.op, o)
  }

  function Apply(h: Hash, r: Operator.Rules, s: Sys, step: Step): Sys
    requires Enabled(r, s, step)
  {
    match step
    case Appear(n, fs, spec) => s.(st := Create(s.st, n, fs, Body(spec, New)))
    case Edit(n, fs, spec) => s.(st := Put(s.st, n, fs, Body(spec, s.st.live[n].body.status)))
    case Vanish(n) => s.(st := Mark(s.st, n))
    case Reconciled(n, copy, t, writes) =>
      var status := Pass(h, n, copy.body, t, s.op, |s.log|);
      Sys(if writes && Accepts(s.st, n, copy.version, copy.finalizers)
          then Put(s.st, n, copy.finalizers, Body(copy.body.spec, status)) else s.st,
          if Starts(h, copy.body, t) then s.log + [Did(h, n, copy.body, t, s.op)] else s.log,
          OpAfter(h, n, copy.body, t, s.op))
    case Elsewhere(o) => s.(op := Operator.Apply(r, s.op, o))
  }

  predicate Legal(h: Hash, r: Operator.Rules, s: Sys, steps: seq<Step>)
    decreases |steps|
  {
    steps == [] || (Enabled(r, s, steps[0]) && Legal(h, r, Apply(h, r, s, steps[0]), steps[1..]))
  }

  function Run(h: Hash, r: Operator.Rules, s: Sys, steps: seq<Step>): Sys
    requires Legal(h, r, s, steps)
    decreases |steps|
  {
    if steps == [] then s else Run(h, r, Apply(h, r, s, steps[0]), steps[1..])
  }

  function Start(): Sys {
    Sys(Empty(), [], Operator.Init())
  }

  ghost predicate Reachable(h: Hash, r: Operator.Rules, s: Sys) {
    exists steps :: Legal(h, r, Start(), steps) && Run(h, r, Start(), steps) == s
  }
}
