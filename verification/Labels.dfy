/**
 The metadata KubeHelper writes on objects it manages: the two used-by labels that say whose
 the object is, and the owner reference that makes it go away with its owner.
 */
module Labels {

  const KIND_KEY := "kinda.rocks/used-by-kind"
  const NAME_KEY := "kinda.rocks/used-by-name"

  type Labels = map<string, string>

  datatype Caller = Caller(kind: string, name: string, uid: nat, cleanup: bool)

  datatype Ref = Ref(kind: string, name: string, uid: nat)

  // ---- Used-by labels --------------------------------------------------------------------------------

  /** A missing label reads as the empty string. */
  function Value(ls: Labels, key: string): string {
    if key in ls then ls[key] else ""
  }

  predicate IsUsedByAny(ls: Labels) { KIND_KEY in ls }

  predicate IsUsedByCaller(ls: Labels, c: Caller) {
    Value(ls, KIND_KEY) == c.kind && Value(ls, NAME_KEY) == c.name
  }

  /** Labels that are already there win. */
  function Claimed(ls: Labels, c: Caller): Labels {
    map[KIND_KEY := c.kind, NAME_KEY := c.name] + ls
  }

  function Unclaimed(ls: Labels): Labels {
    ls - {KIND_KEY, NAME_KEY}
  }

  /** Both used-by labels or neither. */
  predicate Paired(ls: Labels) { KIND_KEY in ls <==> NAME_KEY in ls }

  predicate SameUse(a: Labels, b: Labels) {
    && (KIND_KEY in a <==> KIND_KEY in b) && (NAME_KEY in a <==> NAME_KEY in b)
    && Value(a, KIND_KEY) == Value(b, KIND_KEY) && Value(a, NAME_KEY) == Value(b, NAME_KEY)
  }

  /** Releasing undoes claiming, and a released object is free for anyone. */
  lemma ReleaseUndoesClaim(ls: Labels, c: Caller)
    requires Paired(ls) && !IsUsedByAny(ls)
    ensures IsUsedByCaller(Claimed(ls, c), c) && Paired(Claimed(ls, c))
    ensures Unclaimed(Claimed(ls, c)) == ls
  {
  }

  /**
   A claim takes effect for the caller exactly if no name label of somebody else is lying
   around: only the kind label is looked at before the claim is written.
   */
  lemma ClaimTakesIff(ls: Labels, c: Caller)
    requires !IsUsedByAny(ls)
    ensures IsUsedByCaller(Claimed(ls, c), c) <==> NAME_KEY !in ls || ls[NAME_KEY] == c.name
    ensures NAME_KEY in ls ==> IsUsedByCaller(Claimed(ls, c), c.(name := ls[NAME_KEY]))
  {
  }

  /** At most one caller has the object, and a caller with a name does not own unlabelled objects. */
  lemma UseIsExclusive(ls: Labels, c: Caller, d: Caller)
    requires IsUsedByCaller(ls, c) && c.name != ""
    ensures NAME_KEY in ls
    ensures IsUsedByCaller(ls, d) ==> d.kind == c.kind && d.name == c.name
  {
  }

  // ---- Owner references ------------------------------------------------------------------------------

  function WithoutUid(refs: seq<Ref>, uid: nat): seq<Ref> {
    if refs == [] then []
    else (if refs[0].uid != uid then [refs[0]] else []) + WithoutUid(refs[1..], uid)
  }

  function OwnRefs(c: Caller): seq<Ref> {
    if c.cleanup then [Ref(c.kind, c.name, c.uid)] else []
  }

  /** The references of others in their order, then the caller's own if it wants cleanup. */
  function Owned(refs: seq<Ref>, c: Caller): seq<Ref> {
    WithoutUid(refs, c.uid) + OwnRefs(c)
  }

  lemma {:induction false} WithoutUidConcat(a: seq<Ref>, b: seq<Ref>, uid: nat)
    ensures WithoutUid(a + b, uid) == WithoutUid(a, uid) + WithoutUid(b, uid)
  {
    if a == [] {
      assert a + b == b;
    } else {
      assert (a + b)[1..] == a[1..] + b;
      WithoutUidConcat(a[1..], b, uid);
    }
  }

  lemma {:induction false} WithoutUidMembers(refs: seq<Ref>, uid: nat, r: Ref)
    ensures r in WithoutUid(refs, uid) <==> r in refs && r.uid != uid
  {
    if refs != [] {
      WithoutUidMembers(refs[1..], uid, r);
    }
  }

  lemma {:induction false} WithoutUidFixed(refs: seq<Ref>, uid: nat)
    requires forall r :: r in refs ==> r.uid != uid
    ensures WithoutUid(refs, uid) == refs
  {
    if refs != [] {
      WithoutUidFixed(refs[1..], uid);
    }
  }

  method SetOwnerReference(refs: seq<Ref>, c: Caller) returns (r: seq<Ref>)
    ensures r == Owned(refs, c)
  {
    r := [];
    for i := 0 to |refs|
      invariant r == WithoutUid(refs[..i], c.uid)
    {
      WithoutUidConcat(refs[..i], [refs[i]], c.uid);
      assert refs[..i + 1] == refs[..i] + [refs[i]];
      if refs[i].uid != c.uid {
        r := r + [refs[i]];
      }
    }
    assert refs[..|refs|] == refs;
    if c.cleanup {
      r := r + [Ref(c.kind, c.name, c.uid)];
    }
  }

  /**
   Repeating it changes nothing, and turning cleanup off takes back what cleanup had added,
   leaving the references of others as they were.
   */
  lemma OwnershipFollowsCleanup(refs: seq<Ref>, c: Caller, d: Caller)
    requires c.uid == d.uid
    ensures Owned(Owned(refs, c), d) == Owned(refs, d)
    ensures (forall r :: r in refs ==> r.uid != c.uid) ==> Owned(Owned(refs, c), c.(cleanup := false)) == refs
    ensures c.cleanup <==> exists r :: r in Owned(refs, c) && r.uid == c.uid
  {
    forall r
      ensures r in WithoutUid(refs, c.uid) <==> r in refs && r.uid != c.uid
    {
      WithoutUidMembers(refs, c.uid, r);
    }
    WithoutUidConcat(WithoutUid(refs, c.uid), OwnRefs(c), c.uid);
    WithoutUidFixed(WithoutUid(refs, c.uid), c.uid);
    if forall r :: r in refs ==> r.uid != c.uid {
      WithoutUidFixed(refs, c.uid);
    }
    if c.cleanup {
      assert Ref(c.kind, c.name, c.uid) in Owned(refs, c);
    }
  }
}
