/** The kernel-side registrations a character-device driver acquires in probe
    and gives back in remove, recorded as an ordered log of acquire and
    release events. What is currently held is a multiset computed from the
    log, so both "nothing leaks" and "released in reverse order" can be
    stated about it. */
module KernelRegistry {

  /** A registration record the kernel keeps on the driver's behalf. */
  datatype Resource =
    | ChrdevRegion(dev: nat)                // alloc_chrdev_region
    | CharDevice(dev: nat)                  // cdev_add
    | DeviceClass(name: string)             // class_create
    | DeviceNode(dev: nat, name: string)    // device_create

  datatype Event = Acquire(r: Resource) | Release(r: Resource)

  function Apply(held: multiset<Resource>, e: Event): (after: multiset<Resource>)
  {
    match e
    case Acquire(r) => held + multiset{r}
    case Release(r) => held - multiset{r}
  }

  /** The registrations held after replaying a log from `held`. */
  function Replay(held: multiset<Resource>, log: seq<Event>): (after: multiset<Resource>)
    decreases |log|
  {
    if log == [] then held else Replay(Apply(held, log[0]), log[1..])
  }

  /** The registrations held after a whole log, starting from none. */
  function Held(log: seq<Event>): (held: multiset<Resource>)
  {
    Replay(multiset{}, log)
  }

  function Acquires(rs: seq<Resource>): (log: seq<Event>)
    ensures |log| == |rs|
    ensures forall i :: 0 <= i < |rs| ==> log[i] == Acquire(rs[i])
  {
    seq(|rs|, i requires 0 <= i < |rs| => Acquire(rs[i]))
  }

  function Releases(rs: seq<Resource>): (log: seq<Event>)
    ensures |log| == |rs|
    ensures forall i :: 0 <= i < |rs| ==> log[i] == Release(rs[i])
  {
    seq(|rs|, i requires 0 <= i < |rs| => Release(rs[i]))
  }

  function Reverse<T>(s: seq<T>): (r: seq<T>)
    ensures |r| == |s|
    ensures forall i :: 0 <= i < |s| ==> r[i] == s[|s| - 1 - i]
  {
    if s == [] then [] else [s[|s| - 1]] + Reverse(s[..|s| - 1])
  }

  /** Replaying two logs in a row is replaying their concatenation. */
  lemma {:induction false} ReplayAppend(held: multiset<Resource>, a: seq<Event>, b: seq<Event>)
    ensures Replay(held, a + b) == Replay(Replay(held, a), b)
    decreases |a|
  {
    if a == [] {
      assert a + b == b;
    } else {
      assert (a + b)[0] == a[0];
      assert (a + b)[1..] == a[1..] + b;
      ReplayAppend(Apply(held, a[0]), a[1..], b);
    }
  }

  /** Acquiring one registration and releasing it at once changes nothing. */
  lemma AcquireReleaseCancel(held: multiset<Resource>, x: Resource, rest: seq<Event>)
    ensures Replay(held, [Acquire(x), Release(x)] + rest) == Replay(held, rest)
  {
    var pair := [Acquire(x), Release(x)];
    ReplayAppend(held, pair, rest);
    assert pair[1..] == [Release(x)];
    assert [Release(x)][1..] == [];
    assert Replay(held, pair) == Replay(held + multiset{x}, [Release(x)]);
    assert Replay(held + multiset{x}, [Release(x)]) == held + multiset{x} - multiset{x};
    assert held + multiset{x} - multiset{x} == held;
  }

  lemma AcquiresSnoc(p: seq<Resource>, x: Resource)
    ensures Acquires(p + [x]) == Acquires(p) + [Acquire(x)]
  {
  }

  lemma ReleasesCons(x: Resource, p: seq<Resource>)
    ensures Releases([x] + p) == [Release(x)] + Releases(p)
  {
  }

  lemma ReverseSnoc<T>(p: seq<T>, x: T)
    ensures Reverse(p + [x]) == [x] + Reverse(p)
  {
    assert (p + [x])[..|p|] == p;
  }

  /** How the acquire log and the reversed release log of p + [x] split
      around x. */
  lemma SplitLast(p: seq<Resource>, x: Resource)
    ensures Acquires(p + [x]) + Releases(Reverse(p + [x]))
      == Acquires(p) + ([Acquire(x), Release(x)] + Releases(Reverse(p)))
  {
    AcquiresSnoc(p, x);
    ReverseSnoc(p, x);
    ReleasesCons(x, Reverse(p));
  }

  /** Acquiring a list of registrations and then releasing them in reverse
      order gives back exactly what was held before. */
  lemma {:induction false} AcquireThenReleaseReversed(held: multiset<Resource>, rs: seq<Resource>)
    ensures Replay(held, Acquires(rs) + Releases(Reverse(rs))) == held
    decreases |rs|
  {
    if rs == [] {
      assert Acquires(rs) + Releases(Reverse(rs)) == [];
    } else {
      var n := |rs| - 1;
      var p, x := rs[..n], rs[n];
      var mid := Replay(held, Acquires(p));
      assert rs == p + [x];
      SplitLast(p, x);
      ReplayAppend(held, Acquires(p), [Acquire(x), Release(x)] + Releases(Reverse(p)));
      AcquireReleaseCancel(mid, x, Releases(Reverse(p)));
      ReplayAppend(held, Acquires(p), Releases(Reverse(p)));
      AcquireThenReleaseReversed(held, p);
    }
  }

  /** Acquiring a list of registrations adds exactly those registrations. */
  lemma {:induction false} AcquiresAdd(held: multiset<Resource>, rs: seq<Resource>)
    ensures Replay(held, Acquires(rs)) == held + multiset(rs)
    decreases |rs|
  {
    if rs != [] {
      assert Acquires(rs)[0] == Acquire(rs[0]);
      assert Acquires(rs)[1..] == Acquires(rs[1..]);
      AcquiresAdd(held + multiset{rs[0]}, rs[1..]);
      assert rs == [rs[0]] + rs[1..];
    }
  }
}
