/**
  withLocks: the distinct lock names of a call, sorted, acquired one by one in that order.
  Strings compare by their code units, as Array.prototype.sort does by default.
*/
module SimLocks {
  import opened OrderedLocks
  import opened SimMutex

  predicate Before(a: string, b: string)
    decreases |b|
  {
    b != "" && (a == "" || a[0] < b[0] || (a[0] == b[0] && Before(a[1..], b[1..])))
  }

  lemma {:induction false} BeforeIrreflexive(a: string)
    ensures !Before(a, a)
  {
    if a == "" {
    } else {
      BeforeIrreflexive(a[1..]);
    }
  }

  lemma {:induction false} BeforeTransitive(a: string, b: string, c: string)
    requires Before(a, b) && Before(b, c)
    ensures Before(a, c)
    decreases |b|
  {
    if a != "" && a[0] == b[0] && b[0] == c[0] {
      BeforeTransitive(a[1..], b[1..], c[1..]);
    }
  }

  lemma {:induction false} BeforeTotal(a: string, b: string)
    ensures a == b || Before(a, b) || Before(b, a)
    decreases |a|
  {
    if a != "" && b != "" && a[0] == b[0] {
      BeforeTotal(a[1..], b[1..]);
      assert a == [a[0]] + a[1..] && b == [b[0]] + b[1..];
    }
  }

  lemma {:induction false} BeforeIsStrictOrder()
    ensures StrictOrder(Before)
  {
    forall a ensures !Before(a, a) {
      BeforeIrreflexive(a);
    }
    forall a, b, c | Before(a, b) && Before(b, c) ensures Before(a, c) {
      BeforeTransitive(a, b, c);
    }
  }

  predicate Ascends(names: seq<string>) {
    forall i, j :: 0 <= i < j < |names| ==> Before(names[i], names[j])
  }

  function Insert(name: string, names: seq<string>): seq<string> {
    if names == [] then [name]
    else if name == names[0] then names
    else if Before(name, names[0]) then [name] + names
    else [names[0]] + Insert(name, names[1..])
  }

  /** [...new Set(names)].sort() */
  function Sorted(names: seq<string>): seq<string> {
    if names == [] then [] else Insert(names[0], Sorted(names[1..]))
  }

  lemma {:induction false} InsertAscends(name: string, names: seq<string>)
    requires Ascends(names)
    ensures Ascends(Insert(name, names))
    ensures forall x :: x in Insert(name, names) <==> x == name || x in names
  {
    if names != [] && name != names[0] {
      BeforeTotal(name, names[0]);
      if Before(name, names[0]) {
        forall j | 0 <= j < |names| ensures Before(name, names[j]) {
          if j > 0 {
            BeforeTransitive(name, names[0], names[j]);
          }
        }
      } else {
        InsertAscends(name, names[1..]);
        var rest := Insert(name, names[1..]);
        forall j | 0 <= j < |rest| ensures Before(names[0], rest[j]) {
          if rest[j] != name {
            assert rest[j] in names[1..];
          }
        }
        assert names == [names[0]] + names[1..];
      }
    }
  }

  /** The sorted list is strictly ascending and has exactly the given names. */
  lemma {:induction false} SortedAscends(names: seq<string>)
    ensures Ascends(Sorted(names))
    ensures forall x :: x in Sorted(names) <==> x in names
  {
    if names == [] {
    } else {
      SortedAscends(names[1..]);
      InsertAscends(names[0], Sorted(names[1..]));
      assert names == [names[0]] + names[1..];
    }
  }

  lemma {:induction false} AscendingDistinct(names: seq<string>, i: nat, j: nat)
    requires Ascends(names) && i < j < |names|
    ensures names[i] != names[j]
  {
    BeforeIrreflexive(names[i]);
  }

  // ---------------------------------------------------------------- the locks map

  /** By lock name: the calls that hold or await it, in order. */
  type Lines = map<string, seq<nat>>

  function Line(lines: Lines, lock: string): seq<nat> {
    if lock in lines then lines[lock] else []
  }

  function Enqueue(lines: Lines, lock: string, id: nat): Lines {
    lines[lock := Line(lines, lock) + [id]]
  }

  /** The head of each of these lines leaves. */
  function Leave(lines: Lines, locks: seq<string>): Lines {
    map l | l in lines :: if l in locks && lines[l] != [] then lines[l][1..] else lines[l]
  }

  lemma {:induction false} EnqueuedLine(lines: Lines, at: string, id: nat, lock: string)
    ensures Line(Enqueue(lines, at, id), lock) == if lock == at then Line(lines, lock) + [id] else Line(lines, lock)
  {
  }

  /** Leaving some lines after leaving others. */
  lemma {:induction false} LeaveConcat(lines: Lines, xs: seq<string>, x: string)
    requires x !in xs
    ensures Leave(Leave(lines, xs), [x]) == Leave(lines, [x] + xs)
  {
  }

  lemma {:induction false} LeaveOne(lines: Lines, name: string, lock: string)
    ensures Line(Leave(lines, [name]), lock) ==
            if lock == name && Line(lines, lock) != [] then Line(lines, lock)[1..] else Line(lines, lock)
  {
  }

  /** lockFor, lock and release over the engine's map of mutexes, made on demand. */
  class LockTable {
    var locks: map<string, Mutex>
    ghost var lines: Lines

    /** Each mutex is a different object, and its line by caller is the one on record. */
    ghost predicate Valid()
      reads this, locks.Values
    {
      && lines.Keys <= locks.Keys
      && OneToOne(locks)
      && (forall l :: l in locks ==> locks[l].Valid() && Line(lines, l) == locks[l].People())
    }

    static ghost predicate OneToOne(locks: map<string, Mutex>) {
      forall a, b :: a in locks && b in locks && a != b ==> locks[a] != locks[b]
    }

    constructor ()
      ensures Valid() && lines == map[]
    {
      locks, lines := map[], map[];
    }

    method LockFor(name: string) returns (m: Mutex)
      requires Valid()
      modifies this`locks
      ensures Valid() && name in locks && locks[name] == m
      ensures if name in old(locks) then locks == old(locks) else fresh(m) && locks == old(locks)[name := m]
    {
      if name !in locks {
        m := new Mutex();
        locks := locks[name := m];
      }
      m := locks[name];
    }

    /** This numbered call of the mutex is the caller's. */
    ghost predicate CallOf(name: string, ticket: nat, caller: nat)
      reads this`locks, if name in locks then {locks[name]} else {}
    {
      name in locks && ticket < |locks[name].callers| && locks[name].callers[ticket] == caller
    }

    /** What a call awaits is over exactly when it heads the line: the guard of a grant. */
    lemma {:induction false} TurnIffHead(name: string, ticket: nat, caller: nat)
      requires Valid() && CallOf(name, ticket, caller) && ticket in locks[name].Line()
      requires var line := Line(lines, name); forall i, j :: 0 <= i < j < |line| ==> line[i] != line[j]
      ensures Line(lines, name) != []
      ensures Fulfilled(ChainOf(ticket), locks[name].released) <==> Line(lines, name)[0] == caller
    {
      locks[name].TurnIffHead(ticket);
    }

    /** this.lockFor(name).lock(): the caller joins the end of the line. */
    method Lock(name: string, ghost caller: nat) returns (ticket: nat, turn: Chain)
      requires Valid()
      modifies this, locks.Values
      ensures Valid() && lines == Enqueue(old(lines), name, caller)
      ensures name in locks && ticket in locks[name].Line() && turn == ChainOf(ticket)
      ensures CallOf(name, ticket, caller)
    {
      var m := LockFor(name);
      ticket, turn := Join(m, name, caller);
    }

    method Join(m: Mutex, name: string, ghost caller: nat) returns (ticket: nat, turn: Chain)
      requires Valid() && name in locks && locks[name] == m
      modifies m, this`lines
      ensures Valid() && lines == Enqueue(old(lines), name, caller)
      ensures ticket in m.Line() && turn == ChainOf(ticket)
      ensures CallOf(name, ticket, caller)
    {
      hide Mutex.Valid, Mutex.People, Enqueue, Line;
      ticket, turn := m.Lock(caller);
      ghost var before := lines;
      lines := Enqueue(before, name, caller);
      forall l | l in locks ensures Line(lines, l) == locks[l].People() {
        EnqueuedLine(before, name, caller, l);
      }
      EnqueuedKeys(before, name, caller);
    }

    /** The caller's call of this mutex has been granted and not released. */
    ghost predicate IsHeld(name: string, ticket: nat, caller: nat)
      reads this`locks, if name in locks then {locks[name]} else {}
    {
      CallOf(name, ticket, caller) && ticket in locks[name].Line() && Granted(locks[name].released, ticket)
    }

    /** The granted caller leaves the head of the line. */
    method Release(name: string, ticket: nat, ghost caller: nat)
      requires Valid() && name in locks && IsHeld(name, ticket, caller)
      modifies locks[name], this`lines
      ensures Valid() && lines == Leave(old(lines), [name])
      ensures Heads(old(lines), name, caller)
      ensures forall l, t, c :: l != name && old(IsHeld(l, t, c)) ==> IsHeld(l, t, c)
    {
      FreeMutex(locks[name], name, ticket, caller);
      Strike(name);
    }

    /** The head of one line is taken off the record. */
    ghost method Strike(name: string)
      requires lines.Keys <= locks.Keys && OneToOne(locks) && name in locks && Line(lines, name) != []
      requires forall l :: l in locks ==> locks[l].Valid()
      requires forall l :: l in locks ==>
                 locks[l].People() == if l == name then Line(lines, l)[1..] else Line(lines, l)
      modifies this`lines
      ensures Valid() && lines == Leave(old(lines), [name])
    {
      hide Line, Leave, OneToOne;
      ghost var before := lines;
      lines := Leave(before, [name]);
      forall l | l in locks ensures Line(lines, l) == locks[l].People() {
        LeaveOne(before, name, l);
      }
      LeftKeys(before, [name]);
    }

    /** The mutexes' own part of a release; their lines then differ from those on record by the head that left. */
    method FreeMutex(m: Mutex, name: string, ticket: nat, ghost caller: nat)
      requires Valid() && name in locks && locks[name] == m && IsHeld(name, ticket, caller)
      modifies m
      ensures Heads(lines, name, caller)
      ensures forall l :: l in locks ==> locks[l].Valid()
      ensures forall l :: l in locks ==>
                locks[l].People() == if l == name then Line(lines, l)[1..] else Line(lines, l)
      ensures forall l, t, c :: l != name && old(IsHeld(l, t, c)) ==> IsHeld(l, t, c)
    {
      WaitingIff(m.calls, m.released, ticket);
      hide Line, Mutex.Valid, Mutex.People;
      m.Release(ticket);
    }

    /** The first n of these locks are held by the caller, with these tickets. */
    ghost predicate AreHeld(order: seq<string>, tickets: seq<nat>, caller: nat, n: nat)
      reads this, locks.Values
    {
      n <= |order| && n <= |tickets| && forall i :: 0 <= i < n ==> IsHeld(order[i], tickets[i], caller)
    }

    method ReleaseLast(order: seq<string>, tickets: seq<nat>, ghost caller: nat, n: nat, ghost before: Lines)
      requires Valid() && Ascends(order) && n < |order| && AreHeld(order, tickets, caller, n + 1)
      requires lines == Leave(before, order[n + 1..])
      modifies this`lines, locks.Values
      ensures Valid() && AreHeld(order, tickets, caller, n) && lines == Leave(before, order[n..])
      ensures Heads(before, order[n], caller)
    {
      OneByOne(before, order, n);
      HeadsEarlier(before, order, n, caller);
      assert IsHeld(order[n], tickets[n], caller);
      hide Leave, Ascends, Valid, Heads;
      Release(order[n], tickets[n], caller);
    }

    /** The finally block: the caller leaves the head of each of its lines, last lock first. */
    method ReleaseAll(order: seq<string>, tickets: seq<nat>, ghost caller: nat)
      requires Valid() && Ascends(order) && AreHeld(order, tickets, caller, |order|)
      modifies this`lines, locks.Values
      ensures Valid() && lines == Leave(old(lines), order)
      ensures forall i :: 0 <= i < |order| ==> Heads(old(lines), order[i], caller)
    {
      LeaveNone(lines);
      assert order[|order|..] == [];
      hide Leave, Ascends, Valid, AreHeld, Heads;
      var n := |order|;
      while n > 0
        invariant 0 <= n <= |order|
        invariant Valid() && AreHeld(order, tickets, caller, n)
        invariant lines == Leave(old(lines), order[n..])
        invariant forall i :: n <= i < |order| ==> Heads(old(lines), order[i], caller)
      {
        n := n - 1;
        ReleaseLast(order, tickets, caller, n, old(lines));
      }
      assert order[0..] == order;
    }
  }

  /** The caller is first in line. */
  predicate Heads(lines: Lines, name: string, caller: nat) {
    Line(lines, name) != [] && Line(lines, name)[0] == caller
  }

  /** Leaving later locks does not change who heads an earlier one. */
  lemma {:induction false} HeadsEarlier(lines: Lines, order: seq<string>, n: nat, caller: nat)
    requires Ascends(order) && n < |order|
    ensures Heads(Leave(lines, order[n + 1..]), order[n], caller) <==> Heads(lines, order[n], caller)
  {
    forall j | n < j < |order| ensures order[j] != order[n] {
      AscendingDistinct(order, n, j);
    }
    assert order[n] !in order[n + 1..];
  }

  lemma {:induction false} LeaveNone(lines: Lines)
    ensures Leave(lines, []) == lines
  {
  }

  lemma {:induction false} OneByOne(lines: Lines, order: seq<string>, i: nat)
    requires Ascends(order) && i < |order|
    ensures Leave(Leave(lines, order[i + 1..]), [order[i]]) == Leave(lines, order[i..])
    ensures forall j :: 0 <= j < i ==> order[j] != order[i]
  {
    forall j | 0 <= j < |order| && j != i ensures order[j] != order[i] {
      AscendingDistinct(order, if i < j then i else j, if i < j then j else i);
    }
    assert order[i] !in order[i + 1..];
    LeaveConcat(lines, order[i + 1..], order[i]);
    assert order[i..] == [order[i]] + order[i + 1..];
  }

  lemma {:induction false} EnqueuedKeys(lines: Lines, name: string, id: nat)
    ensures Enqueue(lines, name, id).Keys == lines.Keys + {name}
  {
  }

  lemma {:induction false} LeftKeys(lines: Lines, names: seq<string>)
    ensures Leave(lines, names).Keys == lines.Keys
  {
  }
}
