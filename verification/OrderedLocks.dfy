/**
  Why acquiring locks in ascending order cannot deadlock.

  `waits` says which lock each blocked agent asks for, `holder` who holds each lock.
  The one fact needed of a locking discipline is `Ascending`: an agent that holds a lock
  and waits for another waits for a greater one.  Row locks in Postgres and the promise
  mutexes of the browser engine both instantiate it.
*/
module OrderedLocks {

  ghost predicate StrictOrder<I(!new)>(less: (I, I) -> bool) {
    && (forall x :: !less(x, x))
    && (forall x, y, z :: less(x, y) && less(y, z) ==> less(x, z))
  }

  ghost predicate Ascending<A(!new), I(!new)>(waits: map<A, I>, holder: map<I, A>, less: (I, I) -> bool) {
    forall x :: x in holder && holder[x] in waits ==> less(x, waits[holder[x]])
  }

  /** a is blocked by b. */
  ghost predicate WaitsFor<A, I>(waits: map<A, I>, holder: map<I, A>, a: A, b: A) {
    a in waits && waits[a] in holder && holder[waits[a]] == b
  }

  /** Follow the holders from a: the chain ends in a live agent that no other agent blocks. */
  lemma {:induction false} FollowHolders<A(!new), I(!new)>(
    a: A, live: set<A>, waits: map<A, I>, holder: map<I, A>, less: (I, I) -> bool)
    returns (m: A)
    requires StrictOrder(less) && Ascending(waits, holder, less)
    requires a in live && forall x :: x in holder ==> holder[x] in live
    ensures m in live && (m !in waits || waits[m] !in holder)
    decreases if a in waits then set x | x in waits.Values && less(waits[a], x) else {}, a in waits
  {
    if a in waits && waits[a] in holder {
      var b := holder[waits[a]];
      if b in waits {
        assert less(waits[a], waits[b]) && waits[b] in waits.Values;
        var above := set x | x in waits.Values && less(waits[a], x);
        var beyond := set x | x in waits.Values && less(waits[b], x);
        assert beyond <= above && waits[b] in above && waits[b] !in beyond;
        assert beyond < above;
      }
      m := FollowHolders(b, live, waits, holder, less);
    } else {
      m := a;
    }
  }

  /** Along a chain of blocked agents the awaited locks strictly increase. */
  lemma {:induction false} ChainAscends<A(!new), I(!new)>(
    path: seq<A>, waits: map<A, I>, holder: map<I, A>, less: (I, I) -> bool)
    requires StrictOrder(less) && Ascending(waits, holder, less)
    requires |path| >= 2
    requires forall i :: 0 <= i < |path| - 1 ==> WaitsFor(waits, holder, path[i], path[i + 1])
    requires path[|path| - 1] in waits
    ensures path[0] in waits && less(waits[path[0]], waits[path[|path| - 1]])
  {
    assert WaitsFor(waits, holder, path[0], path[1]);
    if |path| > 2 {
      var rest := path[1..];
      forall i | 0 <= i < |rest| - 1 ensures WaitsFor(waits, holder, rest[i], rest[i + 1]) {
        assert WaitsFor(waits, holder, path[i + 1], path[i + 2]);
      }
      assert WaitsFor(waits, holder, path[1], path[2]);
      ChainAscends(rest, waits, holder, less);
    }
  }

  /** The waits-for graph has no cycle. */
  lemma {:induction false} Acyclic<A(!new), I(!new)>(
    path: seq<A>, waits: map<A, I>, holder: map<I, A>, less: (I, I) -> bool)
    requires StrictOrder(less) && Ascending(waits, holder, less)
    requires |path| >= 2
    requires forall i :: 0 <= i < |path| - 1 ==> WaitsFor(waits, holder, path[i], path[i + 1])
    ensures path[0] != path[|path| - 1]
  {
    if path[0] == path[|path| - 1] {
      assert WaitsFor(waits, holder, path[0], path[1]);
      ChainAscends(path, waits, holder, less);
    }
  }
}
