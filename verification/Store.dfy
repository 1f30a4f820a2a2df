/**
 The Kubernetes API server as the controllers see it: named objects with a
 `resourceVersion`, a finalizer list and a deletion mark.

  - A write names the version it was computed from and is refused when the stored
    object has moved on (compare-and-swap).
  - A write that changes nothing succeeds without issuing a new version.
  - A deletion mark is never cleared; a marked object accepts no finalizer it does not
    already carry, and disappears once its finalizer list is empty.
  - Reads come from a cache and may return any value the object ever had, so the store
    remembers all of them in `past`.

 A name may be reused after its object is gone; the new object gets a new `uid`.
 */
module ObjectStore {

  datatype Obj<B> = Obj(uid: nat, version: nat, finalizers: seq<string>, marked: bool, body: B)

  datatype Store<B(==)> = Store(rev: nat, live: map<string, Obj<B>>, past: set<(string, Obj<B>)>)

  predicate Sub(a: seq<string>, b: seq<string>) {
    forall f :: f in a ==> f in b
  }

  function Empty<B>(): Store<B> {
    Store(0, map[], {})
  }

  /** Does the API server accept a write of finalizer list `fs` computed from `version`? */
  predicate Accepts<B>(st: Store<B>, n: string, version: nat, fs: seq<string>) {
    && n in st.live
    && st.live[n].version == version
    && (st.live[n].marked ==> Sub(fs, st.live[n].finalizers))
  }

  /** The object an accepted write leaves behind: the very same one when nothing changed. */
  function Written<B(==)>(st: Store<B>, n: string, fs: seq<string>, body: B): Obj<B>
    requires n in st.live
  {
    var o := st.live[n];
    if o.finalizers == fs && o.body == body then o
    else o.(version := st.rev + 1, finalizers := fs, body := body)
  }

  /** Replace the stored value of `n` by `o` and remember it. */
  function Record<B(==)>(st: Store<B>, n: string, o: Obj<B>): Store<B>
  {
    Store(
      if o.version > st.rev then o.version else st.rev,
      if o.marked && o.finalizers == [] then st.live - {n} else st.live[n := o],
      st.past + {(n, o)})
  }

  /** An accepted write. */
  function Put<B(==)>(st: Store<B>, n: string, fs: seq<string>, body: B): Store<B>
    requires n in st.live
  {
    Record(st, n, Written(st, n, fs, body))
  }

  function Create<B(==)>(st: Store<B>, n: string, fs: seq<string>, body: B): Store<B>
    requires n !in st.live
  {
    Record(st, n, Obj(st.rev + 1, st.rev + 1, fs, false, body))
  }

  /** `kubectl delete`: sets the mark; an object without finalizers goes at once. */
  function Mark<B(==)>(st: Store<B>, n: string): Store<B>
    requires n in st.live
  {
    if st.live[n].marked then st
    else Record(st, n, st.live[n].(version := st.rev + 1, marked := true))
  }

  /** What one later value of the same object may look like, given an earlier one. */
  predicate Follows<B(==)>(early: Obj<B>, late: Obj<B>) {
    && early.uid <= late.uid
    && early.version <= late.version
    && (early.version == late.version ==> early == late)
    && (early.uid == late.uid && early.marked ==> late.marked && Sub(late.finalizers, early.finalizers))
  }

  ghost predicate Valid<B(!new)>(st: Store<B>) {
    && (forall n :: n in st.live ==>
          (n, st.live[n]) in st.past && !(st.live[n].marked && st.live[n].finalizers == []))
    && (forall n, o :: (n, o) in st.past ==> o.uid <= o.version <= st.rev)
    && (forall n, o :: (n, o) in st.past && n in st.live ==> Follows(o, st.live[n]))
  }

  /** Compare-and-swap is sound: an accepted version means the copy is the stored object. */
  lemma AcceptedCopyIsCurrent<B(!new)>(st: Store<B>, n: string, copy: Obj<B>, fs: seq<string>)
    requires Valid(st) && (n, copy) in st.past && Accepts(st, n, copy.version, fs)
    ensures st.live[n] == copy
  {
    assert (n, st.live[n]) in st.past;
  }

  /** The step relation every store operation obeys. */
  ghost predicate Grows<B(!new)>(st: Store<B>, st': Store<B>, n: string, o: Obj<B>) {
    && st'.past == st.past + {(n, o)}
    && st'.rev >= st.rev
    && (n in st'.live <==> !(o.marked && o.finalizers == []))
    && (n in st'.live ==> st'.live[n] == o)
    && (forall k :: k != n ==> (k in st'.live <==> k in st.live))
    && (forall k :: k != n && k in st.live ==> st'.live[k] == st.live[k])
  }

  lemma RecordIsValid<B(!new)>(st: Store<B>, n: string, o: Obj<B>)
    requires Valid(st)
    requires (n, o) in st.past || (o.version == st.rev + 1 && o.uid <= o.version)
    requires forall p :: (n, p) in st.past ==> Follows(p, o)
    ensures Valid(Record(st, n, o)) && Grows(st, Record(st, n, o), n, o)
  {
  }

  lemma PutIsValid<B(!new)>(st: Store<B>, n: string, fs: seq<string>, body: B)
    requires Valid(st) && n in st.live
    requires st.live[n].marked ==> Sub(fs, st.live[n].finalizers)
    ensures Valid(Put(st, n, fs, body))
    ensures Grows(st, Put(st, n, fs, body), n, Written(st, n, fs, body))
  {
    assert (n, st.live[n]) in st.past;
    RecordIsValid(st, n, Written(st, n, fs, body));
  }

  lemma CreateIsValid<B(!new)>(st: Store<B>, n: string, fs: seq<string>, body: B)
    requires Valid(st) && n !in st.live
    ensures Valid(Create(st, n, fs, body))
    ensures Grows(st, Create(st, n, fs, body), n, Obj(st.rev + 1, st.rev + 1, fs, false, body))
  {
    RecordIsValid(st, n, Obj(st.rev + 1, st.rev + 1, fs, false, body));
  }

  lemma MarkIsValid<B(!new)>(st: Store<B>, n: string)
    requires Valid(st) && n in st.live
    ensures Valid(Mark(st, n))
    ensures !st.live[n].marked ==>
              Grows(st, Mark(st, n), n, st.live[n].(version := st.rev + 1, marked := true))
  {
    assert (n, st.live[n]) in st.past;
    if !st.live[n].marked {
      RecordIsValid(st, n, st.live[n].(version := st.rev + 1, marked := true));
    }
  }
}
