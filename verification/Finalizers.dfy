/**
 Finalizer lists: the slice helpers in pkg/utils/kci, and the guard that keeps a Database
 from being dropped while a DbUser still refers to it.
 */
module Finalizers {

  // ---- What the slice helpers compute -------------------------------------------------

  function Appended(xs: seq<string>, s: string): (r: seq<string>)
    ensures forall f :: f in r <==> f in xs || f == s
    ensures xs <= r
  {
    if s in xs then xs else xs + [s]
  }

  function Removed(xs: seq<string>, s: string): (r: seq<string>)
    ensures forall f :: f in r <==> f in xs && f != s
    ensures s !in xs ==> r == xs
  {
    if xs == [] then []
    else (if xs[0] == s then [] else [xs[0]]) + Removed(xs[1..], s)
  }

  predicate OccursAt(item: string, i: int, s: string) {
    0 <= i <= |item| - |s| && item[i..i + |s|] == s
  }

  predicate Contains(item: string, s: string) {
    exists i | 0 <= i <= |item| :: OccursAt(item, i, s)
  }

  predicate AnyContains(xs: seq<string>, s: string) {
    exists k :: 0 <= k < |xs| && Contains(xs[k], s)
  }

  // ---- The helpers as the operator runs them ------------------------------------------

  method AppendIfMissing(xs: seq<string>, s: string) returns (r: seq<string>)
    ensures r == Appended(xs, s)
  {
    if |xs| == 0 {
      return [s];
    }
    for i := 0 to |xs|
      invariant s !in xs[..i]
    {
      if xs[i] == s {
        return xs;
      }
    }
    return xs + [s];
  }

  lemma {:induction false} RemovedOfConcat(a: seq<string>, b: seq<string>, s: string)
    ensures Removed(a + b, s) == Removed(a, s) + Removed(b, s)
  {
    if a == [] {
      assert a + b == b;
    } else {
      var rest, first := Removed(a[1..], s), if a[0] == s then [] else [a[0]];
      calc {
        Removed(a + b, s);
      ==  { assert (a + b)[1..] == a[1..] + b && (a + b)[0] == a[0]; }
        first + Removed(a[1..] + b, s);
      ==  { RemovedOfConcat(a[1..], b, s); }
        first + (rest + Removed(b, s));
      ==
        (first + rest) + Removed(b, s);
      ==
        Removed(a, s) + Removed(b, s);
      }
    }
  }

  method RemoveItem(xs: seq<string>, s: string) returns (r: seq<string>)
    ensures r == Removed(xs, s)
  {
    r := [];
    for i := 0 to |xs|
      invariant r == Removed(xs[..i], s)
    {
      RemovedOfConcat(xs[..i], [xs[i]], s);
      assert xs[..i + 1] == xs[..i] + [xs[i]];
      if xs[i] != s {
        r := r + [xs[i]];
      }
    }
    assert xs[..|xs|] == xs;
  }

  method SliceContainsSubString(xs: seq<string>, s: string) returns (r: bool)
    ensures r == AnyContains(xs, s)
  {
    for k := 0 to |xs|
      invariant forall j :: 0 <= j < k ==> !Contains(xs[j], s)
    {
      var i := 0;
      while i <= |xs[k]| - |s|
        invariant 0 <= i
        invariant forall j :: 0 <= j < i ==> !OccursAt(xs[k], j, s)
      {
        if OccursAt(xs[k], i, s) {
          return true;
        }
        i := i + 1;
      }
    }
    return false;
  }

  /** Adding a missing finalizer and removing it again restores the list, order included. */
  lemma {:induction false} RemoveUndoesAppend(xs: seq<string>, s: string)
    requires s !in xs
    ensures Removed(Appended(xs, s), s) == xs
  {
    RemovedOfConcat(xs, [s], s);
  }

  /** The metadata object whose finalizer list the controllers edit in place. */
  class ObjectMeta {
    var finalizers: seq<string>

    constructor (fs: seq<string>)
      ensures finalizers == fs
    {
      finalizers := fs;
    }

    method AddFinalizer(item: string)
      modifies this
      ensures finalizers == Appended(old(finalizers), item)
    {
      finalizers := AppendIfMissing(finalizers, item);
    }

    method RemoveFinalizer(item: string)
      modifies this
      ensures finalizers == Removed(old(finalizers), item)
    {
      finalizers := RemoveItem(finalizers, item);
    }
  }

  // ---- The two kinds of finalizer the operator uses -----------------------------------

  const USER_PREFIX := "dbuser."
  const DB_PREFIX := "db."

  function UserFin(user: string): string { USER_PREFIX + user }
  function DbFin(db: string): string { DB_PREFIX + db }

  /** Finalizers the operator manages; everything else belongs to somebody else. */
  predicate Ours(f: string) { USER_PREFIX <= f || DB_PREFIX <= f }

  /** handleDbDelete refuses while this holds of the finalizers on its copy. */
  predicate Guarded(fs: seq<string>) { AnyContains(fs, USER_PREFIX) }

  lemma UserFinIsInjective(a: string, b: string)
    ensures UserFin(a) == UserFin(b) ==> a == b
  {
    assert UserFin(a)[|USER_PREFIX|..] == a && UserFin(b)[|USER_PREFIX|..] == b;
  }

  /** Of the `db.` finalizers, the list carries no other than that of `d`. */
  ghost predicate OnlyOwn(d: string, fs: seq<string>) {
    forall x :: DbFin(x) in fs ==> x == d
  }

  lemma {:induction false} ListEditsKeepOwn(d: string, fs: seq<string>, u: string)
    requires OnlyOwn(d, fs)
    ensures OnlyOwn(d, Appended(fs, UserFin(u))) && OnlyOwn(d, Removed(fs, UserFin(u)))
    ensures OnlyOwn(d, Appended(fs, DbFin(d))) && OnlyOwn(d, Removed(fs, DbFin(d)))
  {
    forall x
      ensures DbFin(x) != UserFin(u) && (DbFin(x) == DbFin(d) ==> x == d)
    {
      UserFinIsNotDbFin(u, x);
      assert DbFin(x)[|DB_PREFIX|..] == x && DbFin(d)[|DB_PREFIX|..] == d;
    }
  }

  lemma UserFinIsNotDbFin(a: string, b: string)
    ensures UserFin(a) != DbFin(b)
  {
    assert UserFin(a)[2] == 'u' && DbFin(b)[2] == '.';
  }

  lemma UserFinIsOurs(a: string)
    ensures Ours(UserFin(a)) && Contains(UserFin(a), USER_PREFIX)
  {
    assert OccursAt(UserFin(a), 0, USER_PREFIX);
  }

  /** A list naming a DbUser is guarded, whatever else is on it. */
  lemma UserFinGuards(fs: seq<string>, user: string)
    requires UserFin(user) in fs
    ensures Guarded(fs)
  {
    UserFinIsOurs(user);
    var k :| 0 <= k < |fs| && fs[k] == UserFin(user);
    assert Contains(fs[k], USER_PREFIX);
  }

  lemma ContainsIgnoresDbPrefix(db: string)
    ensures Contains(DbFin(db), USER_PREFIX) <==> Contains(db, USER_PREFIX)
  {
    var f, p := DbFin(db), USER_PREFIX;
    assert |p| == 7 && p[0] == 'd' && p[2] == 'u';
    if Contains(db, p) {
      var i :| 0 <= i <= |db| && OccursAt(db, i, p);
      assert f[i + 3..i + 3 + |p|] == db[i..i + |p|];
      assert OccursAt(f, i + 3, p);
    }
    if Contains(f, p) {
      var i :| 0 <= i <= |f| && OccursAt(f, i, p);
      assert f[i] == f[i..i + |p|][0] && f[i + 2] == f[i..i + |p|][2];
      assert f[0] == 'd' && f[1] == 'b' && f[2] == '.';
      assert db[i - 3..i - 3 + |p|] == f[i..i + |p|];
      assert OccursAt(db, i - 3, p);
    }
  }

  /** A Database called "dbuser.x" is held back by its own finalizer. */
  lemma GuardMistakesOwnFinalizer()
    ensures Guarded([DbFin("dbuser.x")])
  {
    assert OccursAt("dbuser.x", 0, USER_PREFIX);
    ContainsIgnoresDbPrefix("dbuser.x");
    assert Contains([DbFin("dbuser.x")][0], USER_PREFIX);
  }

  lemma PrefixedIsNamed(f: string)
    ensures USER_PREFIX <= f ==> f == UserFin(f[|USER_PREFIX|..])
    ensures DB_PREFIX <= f ==> f == DbFin(f[|DB_PREFIX|..])
  {
  }

  /** A finalizer of somebody else's that happens to contain "dbuser.". */
  predicate Lookalike(f: string) { !Ours(f) && Contains(f, USER_PREFIX) }

  /**
   The substring test refuses exactly when some DbUser finalizer is present, or the finalizer of
   a Database whose own name contains "dbuser.", or a foreign finalizer that contains it.
   */
  lemma GuardIsExact(fs: seq<string>)
    ensures Guarded(fs) <==>
              || (exists u :: UserFin(u) in fs)
              || (exists d :: DbFin(d) in fs && Contains(d, USER_PREFIX))
              || (exists f :: f in fs && Lookalike(f))
  {
    if Guarded(fs) {
      var k :| 0 <= k < |fs| && Contains(fs[k], USER_PREFIX);
      PrefixedIsNamed(fs[k]);
      if DB_PREFIX <= fs[k] {
        ContainsIgnoresDbPrefix(fs[k][|DB_PREFIX|..]);
      } else {
        assert fs[k] in fs;
      }
    }
    forall u | UserFin(u) in fs
      ensures Guarded(fs)
    {
      UserFinGuards(fs, u);
    }
    forall d | DbFin(d) in fs && Contains(d, USER_PREFIX)
      ensures Guarded(fs)
    {
      ContainsIgnoresDbPrefix(d);
      ContainedGuards(fs, DbFin(d));
    }
    forall f | f in fs && Lookalike(f)
      ensures Guarded(fs)
    {
      ContainedGuards(fs, f);
    }
  }

  lemma ContainedGuards(fs: seq<string>, f: string)
    requires f in fs && Contains(f, USER_PREFIX)
    ensures Guarded(fs)
  {
    var k :| 0 <= k < |fs| && fs[k] == f;
    assert Contains(fs[k], USER_PREFIX);
  }

  /** A foreign finalizer trips the guard with no DbUser in sight. */
  lemma GuardMistakesForeignFinalizer()
    ensures Lookalike("x/dbuser.y") && Guarded(["x/dbuser.y"])
  {
    assert OccursAt("x/dbuser.y", 2, USER_PREFIX) && "x/dbuser.y"[0] != 'd';
    ContainedGuards(["x/dbuser.y"], "x/dbuser.y");
  }
}
