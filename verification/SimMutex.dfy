/**
  The browser engine's mutex: a chain of promises.

  Every call of `lock` appends its own promise, which `release` resolves, to the chain in
  field q, and waits for the chain as it was before.  Calls are numbered; number k also
  names the promise that call k releases.
*/
module SimMutex {

  /** Promise.resolve(), or prev.then(() => next). */
  datatype Chain = Resolved | Then(prev: Chain, next: nat)

  predicate Fulfilled(c: Chain, released: set<nat>) {
    match c
    case Resolved => true
    case Then(prev, next) => Fulfilled(prev, released) && next in released
  }

  /** The chain after n calls. */
  function ChainOf(n: nat): Chain {
    if n == 0 then Resolved else Then(ChainOf(n - 1), n - 1)
  }

  /** Call k has been handed its release function. */
  predicate Granted(released: set<nat>, k: nat) {
    Fulfilled(ChainOf(k), released)
  }

  /** The calls not yet released, in call order. */
  function Waiting(calls: nat, released: set<nat>): seq<nat> {
    if calls == 0 then []
    else Waiting(calls - 1, released) + if calls - 1 in released then [] else [calls - 1]
  }

  /** Only granted calls have released. */
  ghost predicate Orderly(calls: nat, released: set<nat>) {
    forall k :: k in released ==> k < calls && Granted(released, k)
  }

  /** A call is granted exactly when every call before it has released. */
  lemma {:induction false} GrantedIff(released: set<nat>, k: nat)
    ensures Granted(released, k) <==> forall j :: 0 <= j < k ==> j in released
  {
    if k == 0 {
    } else {
      GrantedIff(released, k - 1);
      assert Granted(released, k) <==> Granted(released, k - 1) && k - 1 in released;
    }
  }

  /** Grants come in call order, and at most one grant is out. */
  lemma {:induction false} OneGrant(released: set<nat>, j: nat, k: nat)
    requires Granted(released, k) && k !in released && j != k && j !in released
    ensures j > k && !Granted(released, j)
  {
    GrantedIff(released, j);
    GrantedIff(released, k);
  }

  lemma {:induction false} WaitingIff(calls: nat, released: set<nat>, k: nat)
    ensures k in Waiting(calls, released) <==> k < calls && k !in released
  {
    if calls == 0 {
    } else {
      WaitingIff(calls - 1, released, k);
    }
  }

  lemma {:induction false} WaitingAscends(calls: nat, released: set<nat>)
    ensures forall i, j :: 0 <= i < j < |Waiting(calls, released)| ==>
                           Waiting(calls, released)[i] < Waiting(calls, released)[j]
  {
    if calls == 0 {
    } else {
      WaitingAscends(calls - 1, released);
      var before := Waiting(calls - 1, released);
      forall i | 0 <= i < |before| ensures before[i] < calls - 1 {
        WaitingIff(calls - 1, released, before[i]);
      }
    }
  }

  /** The mutex is a FIFO queue: of the calls that wait, the granted one is the head. */
  lemma {:induction false} GrantedIsHead(calls: nat, released: set<nat>, k: nat)
    requires Orderly(calls, released) && k in Waiting(calls, released)
    ensures Granted(released, k) <==> k == Waiting(calls, released)[0]
  {
    var head := Waiting(calls, released)[0];
    WaitingIff(calls, released, k);
    WaitingIff(calls, released, head);
    WaitingAscends(calls, released);
    GrantedIff(released, k);
    forall j: nat | j < head ensures j in released {
      WaitingIff(calls, released, j);
    }
    GrantedIff(released, head);
  }

  lemma {:induction false} WaitingWithoutHead(calls: nat, released: set<nat>)
    requires Waiting(calls, released) != []
    ensures var head := Waiting(calls, released)[0];
            Waiting(calls, released + {head}) == Waiting(calls, released)[1..]
  {
    var head := Waiting(calls, released)[0];
    WaitingIff(calls, released, head);
    if Waiting(calls - 1, released) == [] {
      WaitingUnaffected(calls - 1, released, head);
    } else {
      assert head == Waiting(calls - 1, released)[0];
      WaitingIff(calls - 1, released, head);
      WaitingWithoutHead(calls - 1, released);
    }
  }

  lemma {:induction false} WaitingUnaffected(calls: nat, released: set<nat>, k: nat)
    requires k >= calls
    ensures Waiting(calls, released + {k}) == Waiting(calls, released)
  {
    if calls == 0 {
    } else {
      WaitingUnaffected(calls - 1, released, k);
    }
  }

  /** The callers behind call numbers. */
  function Who(callers: seq<nat>, tickets: seq<nat>): seq<nat>
    requires forall i :: 0 <= i < |tickets| ==> tickets[i] < |callers|
  {
    seq(|tickets|, i requires 0 <= i < |tickets| => callers[tickets[i]])
  }

  lemma {:induction false} TicketsKnown(calls: nat, released: set<nat>)
    ensures forall i :: 0 <= i < |Waiting(calls, released)| ==> Waiting(calls, released)[i] < calls
  {
    var tickets := Waiting(calls, released);
    forall i | 0 <= i < |tickets| ensures tickets[i] < calls {
      WaitingIff(calls, released, tickets[i]);
    }
  }

  class Mutex {
    var q: Chain
    var calls: nat
    var released: set<nat>
    ghost var callers: seq<nat>   // who made each call

    ghost predicate Valid()
      reads this
    {
      q == ChainOf(calls) && Orderly(calls, released) && |callers| == calls
    }

    /** The line by caller. */
    ghost function People(): seq<nat>
      requires Valid()
      reads this
    {
      TicketsKnown(calls, released);
      Who(callers, Line())
    }

    /** The callers that hold or await the mutex; the first one holds it. */
    ghost function Line(): seq<nat>
      reads this
    {
      Waiting(calls, released)
    }

    constructor ()
      ensures Valid() && Line() == [] && People() == []
    {
      q := Resolved;
      calls := 0;
      released := {};
      callers := [];
    }

    /** The promise a caller awaits is fulfilled exactly while the caller heads the line. */
    lemma {:induction false} TurnIffHead(ticket: nat)
      requires Valid() && ticket in Line()
      requires forall i, j :: 0 <= i < j < |People()| ==> People()[i] != People()[j]
      ensures ticket < |callers| && |People()| > 0
      ensures Fulfilled(ChainOf(ticket), released) <==> People()[0] == callers[ticket]
    {
      TicketsKnown(calls, released);
      GrantedIsHead(calls, released, ticket);
      var i :| 0 <= i < |Line()| && Line()[i] == ticket;
      assert People()[i] == callers[ticket] && People()[0] == callers[Line()[0]];
    }

    /** Returns the call's number and the promise it has to await. */
    method Lock(ghost caller: nat) returns (ticket: nat, turn: Chain)
      requires Valid()
      modifies this
      ensures Valid() && released == old(released)
      ensures Line() == old(Line()) + [ticket] && People() == old(People()) + [caller]
      ensures turn == ChainOf(ticket) && ticket !in old(Line())
      ensures ticket == |old(callers)| && callers == old(callers) + [caller]
    {
      WaitingIff(calls, released, calls);
      TicketsKnown(calls, released);
      ticket := calls;
      calls := calls + 1;
      turn := q;
      q := Then(turn, ticket);
      callers := callers + [caller];
    }

    /** Resolving a promise twice does nothing the second time. */
    method Release(ticket: nat)
      requires Valid() && ticket < calls && Granted(released, ticket)
      modifies this`released
      ensures Valid()
      ensures Line() == if ticket in old(Line()) then old(Line())[1..] else old(Line())
      ensures ticket in old(Line()) ==> old(Line())[0] == ticket
      ensures ticket in old(Line()) ==>
                |old(People())| > 0 && People() == old(People())[1..] && old(People())[0] == callers[ticket]
    {
      TicketsKnown(calls, released);
      WaitingIff(calls, released, ticket);
      if ticket in Waiting(calls, released) {
        GrantedIsHead(calls, released, ticket);
        WaitingWithoutHead(calls, released);
      } else {
        assert released + {ticket} == released;
      }
      forall k | k in released + {ticket} ensures Granted(released + {ticket}, k) {
        GrantedIff(released, k);
        GrantedIff(released + {ticket}, k);
      }
      released := released + {ticket};
    }
  }
}
