/**
  Any number of database transactions, interleaved step by step.

  A transaction locks the rows it names in ascending order, then applies its operations one
  by one to a private overlay of the *current* committed balances, then commits the overlay.
  It can fail, or be killed, at any point.  The module proves that every interleaving is
  equivalent to running the transactions one at a time in the order they ended, that it
  cannot deadlock, and that it terminates.
*/
module Transactions {
  import opened Prelude
  import opened Ledger
  import opened OrderedLocks

  // ---------------------------------------------------------------- lock order

  function Insert(id: int, ids: seq<int>): seq<int> {
    if ids == [] || id < ids[0] then [id] + ids
    else if id == ids[0] then ids
    else [ids[0]] + Insert(id, ids[1..])
  }

  /** SELECT DISTINCT ... ORDER BY: the named ids, each once, ascending. */
  function LockOrder(ops: seq<Op>): seq<int> {
    if ops == [] then []
    else
      var rest := LockOrder(ops[1..]);
      match ops[0]
      case Move(f, t, _) => Insert(f, Insert(t, rest))
      case Credit(w, _) => Insert(w, rest)
      case Debit(w, _) => Insert(w, rest)
  }

  predicate Ascends(ids: seq<int>) {
    forall i, j :: 0 <= i < j < |ids| ==> ids[i] < ids[j]
  }

  lemma {:induction false} InsertAscends(id: int, ids: seq<int>)
    requires Ascends(ids)
    ensures Ascends(Insert(id, ids))
    ensures forall x :: x in Insert(id, ids) <==> x == id || x in ids
  {
    if ids == [] || id < ids[0] {
    } else if id == ids[0] {
    } else {
      InsertAscends(id, ids[1..]);
      var tail := Insert(id, ids[1..]);
      assert forall x :: x in tail ==> ids[0] < x;
      assert forall x :: x in ids <==> x == ids[0] || x in ids[1..];
    }
  }

  lemma {:induction false} LockOrderSorted(ops: seq<Op>)
    ensures Ascends(LockOrder(ops))
    ensures forall x :: x in LockOrder(ops) <==> x in AllNames(ops)
  {
    if ops == [] {
    } else {
      var rest := LockOrder(ops[1..]);
      LockOrderSorted(ops[1..]);
      AllNamesHead(ops);
      match ops[0] {
        case Move(f, t, _) =>
          InsertAscends(t, rest);
          InsertAscends(f, Insert(t, rest));
        case Credit(w, _) => InsertAscends(w, rest);
        case Debit(w, _) => InsertAscends(w, rest);
      }
    }
  }

  // ---------------------------------------------------------------- states and steps

  datatype Verdict = Finished(error: Option<SqlError>) | Killed

  datatype Phase =
    | Locking(next: nat)                                          // rows up to next are locked or missing
    | Working(done: nat, local: Balances, rows: seq<Row>)         // uncommitted work
    | Ended(verdict: Verdict)

  datatype Event = Event(txn: nat, verdict: Verdict)

  datatype State = State(store: Store, owner: map<int, nat>, phases: seq<Phase>, log: seq<Event>)

  datatype Step = Lock(t: nat) | Begin(t: nat) | Apply(t: nat) | Commit(t: nat) | Insertion(t: nat) | Kill(t: nat)

  function Order(p: Program): seq<int> {
    LockOrder(Ops(p))
  }

  /** Deposit and Withdraw report a missing wallet when they lock it; a batch does not. */
  predicate Strict(p: Program) {
    p.Wallet? && !p.op.Move?
  }

  /** The rows whose lock step is behind the transaction. */
  function Passed(p: Program, phase: Phase): seq<int> {
    match phase
    case Locking(n) => if n <= |Order(p)| then Order(p)[..n] else []
    case Working(_, _, _) => Order(p)
    case Ended(_) => []
  }

  /** The wallet does not come into existence under a transaction that found it missing. */
  ghost predicate Unclaimed(ps: seq<Program>, s: State, id: int)
    requires |s.phases| == |ps|
  {
    forall t :: 0 <= t < |ps| ==> id !in Passed(ps[t], s.phases[t])
  }

  ghost predicate Enabled(ps: seq<Program>, s: State, step: Step)
    requires |s.phases| == |ps|
  {
    && step.t < |ps|
    && var p, phase := ps[step.t], s.phases[step.t];
       match step
       case Lock(t) => phase.Locking? && phase.next < |Order(p)| && Order(p)[phase.next] !in s.owner
       case Begin(t) => phase.Locking? && phase.next == |Order(p)| && !p.Create?
       case Apply(t) => phase.Working? && phase.done < |Ops(p)|
       case Commit(t) => phase.Working? && phase.done == |Ops(p)|
       case Insertion(t) => phase.Locking? && p.Create? && Unclaimed(ps, s, p.id)
       case Kill(t) => !phase.Ended?
  }

  /** Release the locks and record the verdict. */
  function End(s: State, t: nat, store: Store, verdict: Verdict): State
    requires t < |s.phases|
  {
    State(store,
          map id | id in s.owner && s.owner[id] != t :: s.owner[id],
          s.phases[t := Ended(verdict)],
          s.log + [Event(t, verdict)])
  }

  ghost function Do(ps: seq<Program>, s: State, step: Step): State
    requires |s.phases| == |ps| && Enabled(ps, s, step)
  {
    var t := step.t;
    var p, phase := ps[t], s.phases[t];
    match step
    case Lock(_) =>
      var id := Order(p)[phase.next];
      if id in s.store.wallets then
        s.(owner := s.owner[id := t], phases := s.phases[t := Locking(phase.next + 1)])
      else if Strict(p) then End(s, t, s.store, Finished(Some(MissingWallet(id))))
      else s.(phases := s.phases[t := Locking(phase.next + 1)])
    case Begin(_) => s.(phases := s.phases[t := Working(0, map[], [])])
    case Apply(_) =>
      var op := Ops(p)[phase.done];
      (match ApplyOp(s.store.wallets + phase.local, op)
       case Failure(e) => End(s, t, s.store, Finished(Some(e)))
       case Success(b) =>
         var written := map w | w in Names(op) && w in b :: b[w];
         s.(phases := s.phases[t := Working(phase.done + 1, phase.local + written, phase.rows + [RowOf(op)])]))
    case Commit(_) =>
      End(s, t, Store(s.store.wallets + phase.local, s.store.rows + phase.rows), Finished(None))
    case Insertion(_) =>
      var o := Exec(s.store, p);
      End(s, t, o.store, Finished(o.error))
    case Kill(_) => End(s, t, s.store, Killed)
  }

  function Start(ps: seq<Program>, store: Store): State {
    State(store, map[], seq(|ps|, i => Locking(0)), [])
  }

  // ---------------------------------------------------------------- the serial run

  /** Run the ended transactions one at a time; a killed one has no effect. */
  function Replay(ps: seq<Program>, init: Store, log: seq<Event>): Store {
    if log == [] then init
    else
      var last := log[|log| - 1];
      var before := Replay(ps, init, log[..|log| - 1]);
      if last.verdict.Killed? || last.txn >= |ps| then before else Exec(before, ps[last.txn]).store
  }

  /** Each verdict is the one the serial run gives at that point. */
  ghost predicate Agrees(ps: seq<Program>, init: Store, log: seq<Event>) {
    forall i :: 0 <= i < |log| ==>
      && log[i].txn < |ps|
      && (log[i].verdict.Finished? ==>
            Exec(Replay(ps, init, log[..i]), ps[log[i].txn]).error == log[i].verdict.error)
  }

  lemma {:induction false} AgreesSnoc(ps: seq<Program>, init: Store, log: seq<Event>, e: Event)
    requires Agrees(ps, init, log) && e.txn < |ps|
    requires e.verdict.Finished? ==> Exec(Replay(ps, init, log), ps[e.txn]).error == e.verdict.error
    ensures Agrees(ps, init, log + [e])
    ensures Replay(ps, init, log + [e]) ==
            if e.verdict.Killed? then Replay(ps, init, log) else Exec(Replay(ps, init, log), ps[e.txn]).store
  {
    var log' := log + [e];
    assert log'[..|log|] == log;
    forall i | 0 <= i < |log'|
      ensures log'[i].txn < |ps|
      ensures log'[i].verdict.Finished? ==>
                Exec(Replay(ps, init, log'[..i]), ps[log'[i].txn]).error == log'[i].verdict.error
    {
      if i < |log| {
        assert log'[..i] == log[..i] && log'[i] == log[i];
      }
    }
  }

  lemma {:induction false} ReplayKeepsBooks(ps: seq<Program>, init: Store, log: seq<Event>)
    requires Books(init)
    ensures Books(Replay(ps, init, log))
  {
    if log == [] {
    } else {
      var last := log[|log| - 1];
      ReplayKeepsBooks(ps, init, log[..|log| - 1]);
      if last.txn < |ps| {
        ExecKeepsBooks(Replay(ps, init, log[..|log| - 1]), ps[last.txn]);
      }
    }
  }

  // ---------------------------------------------------------------- the invariant

  /** Locks are held exactly on the existing rows behind each transaction. */
  ghost predicate LocksHeld(ps: seq<Program>, s: State)
    requires |s.phases| == |ps|
  {
    && (forall id :: id in s.owner ==>
          && s.owner[id] < |ps|
          && id in s.store.wallets
          && id in Passed(ps[s.owner[id]], s.phases[s.owner[id]]))
    && (forall t, id :: 0 <= t < |ps| && id in Passed(ps[t], s.phases[t]) && id in s.store.wallets ==>
          id in s.owner && s.owner[id] == t)
  }

  /** The overlay is what the finished operations give on the balances committed *now*. */
  ghost predicate Sane(p: Program, phase: Phase, store: Store) {
    match phase
    case Locking(n) => n <= |Order(p)|
    case Working(done, local, rows) =>
      && !p.Create?
      && done <= |Ops(p)|
      && rows == RowsOf(Ops(p)[..done])
      && local.Keys <= AllNames(Ops(p)) * store.wallets.Keys
      && RunOps(store.wallets, Ops(p)[..done]) == Success(store.wallets + local)
    case Ended(_) => true
  }

  ghost predicate AllSane(ps: seq<Program>, s: State)
    requires |s.phases| == |ps|
  {
    forall t :: 0 <= t < |ps| ==> Sane(ps[t], s.phases[t], s.store)
  }

  /** The log records each ended transaction, once. */
  ghost predicate Logged(phases: seq<Phase>, log: seq<Event>) {
    && (forall t, v :: 0 <= t < |phases| ==> (phases[t] == Ended(v) <==> Event(t, v) in log))
    && (forall i, j :: 0 <= i < j < |log| ==> log[i].txn != log[j].txn)
  }

  ghost predicate Inv(ps: seq<Program>, init: Store, s: State) {
    && |s.phases| == |ps|
    && s.store == Replay(ps, init, s.log)
    && Agrees(ps, init, s.log)
    && LocksHeld(ps, s)
    && AllSane(ps, s)
    && Logged(s.phases, s.log)
  }

  lemma {:induction false} PassedInOrder(p: Program, phase: Phase, id: int)
    requires id in Passed(p, phase)
    ensures id in AllNames(Ops(p))
  {
    LockOrderSorted(Ops(p));
    assert id in Order(p);
  }

  /** Balances a transaction has not locked may change without disturbing its work. */
  lemma {:induction false} SaneFrame(p: Program, phase: Phase, store: Store, x: Balances, rows: seq<Row>)
    requires Sane(p, phase, store)
    requires phase.Working? ==> AllNames(Ops(p)) !! x.Keys
    ensures Sane(p, phase, Store(store.wallets + x, rows))
  {
    if phase.Working? {
      var ops := Ops(p)[..phase.done];
      assert AllNames(ops) <= AllNames(Ops(p)) by {
        forall w | w in AllNames(ops) ensures w in AllNames(Ops(p)) {
          var i :| 0 <= i < |ops| && w in Names(ops[i]);
          assert w in Names(Ops(p)[i]);
        }
      }
      RunOpsFrame(store.wallets, ops, x);
      assert (store.wallets + phase.local) + x == (store.wallets + x) + phase.local;
    }
  }

  lemma {:induction false} LoggedEnd(phases: seq<Phase>, log: seq<Event>, t: nat, verdict: Verdict)
    requires Logged(phases, log) && t < |phases| && !phases[t].Ended?
    ensures Logged(phases[t := Ended(verdict)], log + [Event(t, verdict)])
  {
    var phases', log' := phases[t := Ended(verdict)], log + [Event(t, verdict)];
    assert forall v :: Event(t, v) !in log;
    forall i | 0 <= i < |log| ensures log[i].txn != t {
      assert log[i] in log && log[i] == Event(log[i].txn, log[i].verdict);
    }
    forall u, v | 0 <= u < |phases'| ensures phases'[u] == Ended(v) <==> Event(u, v) in log' {
      assert phases[u] == Ended(v) <==> Event(u, v) in log;
    }
  }

  lemma {:induction false} LoggedMove(phases: seq<Phase>, log: seq<Event>, t: nat, phase: Phase)
    requires Logged(phases, log) && t < |phases| && !phases[t].Ended? && !phase.Ended?
    ensures Logged(phases[t := phase], log)
  {
    var phases' := phases[t := phase];
    forall u, v | 0 <= u < |phases'| ensures phases'[u] == Ended(v) <==> Event(u, v) in log {
      assert phases[u] == Ended(v) <==> Event(u, v) in log;
    }
  }

  /** Rows the others are past have not been changed, so their owners stay. */
  lemma {:induction false} OthersKeepLocks(
    ps: seq<Program>, s: State, t: nat, store: Store, verdict: Verdict, x: Balances, u: nat, id: int)
    requires |s.phases| == |ps| && t < |ps| && LocksHeld(ps, s) && u < |ps| && u != t
    requires store.wallets == s.store.wallets + x && id !in x
    requires id in Passed(ps[u], s.phases[u]) && id in store.wallets
    ensures var s' := End(s, t, store, verdict); id in s'.owner && s'.owner[id] == u
  {
    hide Passed;
    assert id in s.store.wallets;
  }

  lemma {:induction false} OwnersStay(
    ps: seq<Program>, s: State, t: nat, store: Store, verdict: Verdict, x: Balances, id: int)
    requires |s.phases| == |ps| && t < |ps| && LocksHeld(ps, s)
    requires store.wallets == s.store.wallets + x && id in End(s, t, store, verdict).owner
    ensures var s' := End(s, t, store, verdict);
            && s'.owner[id] < |ps| && s'.owner[id] != t && id in s'.store.wallets
            && id in Passed(ps[s'.owner[id]], s'.phases[s'.owner[id]])
  {
    hide Passed;
    assert id in s.owner;
  }

  lemma {:induction false} LocksAfterEnd(
    ps: seq<Program>, s: State, t: nat, store: Store, verdict: Verdict, x: Balances)
    requires |s.phases| == |ps| && t < |ps| && LocksHeld(ps, s)
    requires store.wallets == s.store.wallets + x
    requires forall u :: 0 <= u < |ps| && u != t ==> forall id :: id in x ==> id !in Passed(ps[u], s.phases[u])
    ensures LocksHeld(ps, End(s, t, store, verdict))
  {
    var s' := End(s, t, store, verdict);
    assert Passed(ps[t], s'.phases[t]) == [];
    assert s'.store == store && forall u :: 0 <= u < |ps| && u != t ==> s'.phases[u] == s.phases[u];
    hide Passed, End;
    forall u, id | 0 <= u < |ps| && id in Passed(ps[u], s'.phases[u]) && id in s'.store.wallets
      ensures id in s'.owner && s'.owner[id] == u
    {
      assert u != t && id in Passed(ps[u], s.phases[u]);
      OthersKeepLocks(ps, s, t, store, verdict, x, u, id);
    }
    forall id | id in s'.owner
      ensures s'.owner[id] < |ps| && id in s'.store.wallets && id in Passed(ps[s'.owner[id]], s'.phases[s'.owner[id]])
    {
      OwnersStay(ps, s, t, store, verdict, x, id);
    }
  }

  lemma {:induction false} SaneAfterEnd(ps: seq<Program>, s: State, t: nat, store: Store, verdict: Verdict, x: Balances)
    requires |s.phases| == |ps| && t < |ps| && AllSane(ps, s)
    requires store.wallets == s.store.wallets + x
    requires forall u :: 0 <= u < |ps| && u != t ==> forall id :: id in x ==> id !in Passed(ps[u], s.phases[u])
    ensures AllSane(ps, End(s, t, store, verdict))
  {
    forall u | 0 <= u < |ps| && u != t ensures Sane(ps[u], s.phases[u], store) {
      if s.phases[u].Working? {
        LockOrderSorted(Ops(ps[u]));
      }
      SaneFrame(ps[u], s.phases[u], s.store, x, store.rows);
    }
  }

  lemma {:induction false} EndKeepsInv(
    ps: seq<Program>, init: Store, s: State, t: nat, store: Store, verdict: Verdict, x: Balances)
    requires Inv(ps, init, s) && t < |ps| && !s.phases[t].Ended?
    requires store.wallets == s.store.wallets + x
    requires verdict.Killed? ==> store == s.store
    requires verdict.Finished? ==> Exec(s.store, ps[t]) == Outcome(store, verdict.error)
    requires forall u :: 0 <= u < |ps| && u != t ==> forall id :: id in x ==> id !in Passed(ps[u], s.phases[u])
    ensures Inv(ps, init, End(s, t, store, verdict))
  {
    AgreesSnoc(ps, init, s.log, Event(t, verdict));
    LoggedEnd(s.phases, s.log, t, verdict);
    LocksAfterEnd(ps, s, t, store, verdict, x);
    SaneAfterEnd(ps, s, t, store, verdict, x);
  }

  /** Steps that change no committed data only need the mover's own part of the invariant. */
  lemma {:induction false} MoveKeepsInv(ps: seq<Program>, init: Store, s: State, s': State, t: nat, phase: Phase)
    requires Inv(ps, init, s) && t < |ps| && !s.phases[t].Ended? && !phase.Ended?
    requires s' == s.(owner := s'.owner, phases := s.phases[t := phase])
    requires Sane(ps[t], phase, s.store) && LocksHeld(ps, s')
    ensures Inv(ps, init, s')
  {
    LoggedMove(s.phases, s.log, t, phase);
  }

  lemma {:induction false} LockKeepsInv(ps: seq<Program>, init: Store, s: State, t: nat)
    requires Inv(ps, init, s) && Enabled(ps, s, Lock(t))
    ensures Inv(ps, init, Do(ps, s, Lock(t)))
  {
    var p, n := ps[t], s.phases[t].next;
    var id := Order(p)[n];
    var s' := Do(ps, s, Lock(t));
    if id !in s.store.wallets && Strict(p) {
      MissingIsTheVerdict(s.store, p, id);
      assert s.store.wallets == s.store.wallets + map[];
      EndKeepsInv(ps, init, s, t, s.store, Finished(Some(MissingWallet(id))), map[]);
    } else {
      LocksAfterLock(ps, s, t);
      MoveKeepsInv(ps, init, s, s', t, Locking(n + 1));
    }
  }

  /** A missing wallet ends a deposit or withdrawal when it is to be locked; a batch goes on to its next lock. */
  lemma {:induction false} MissingAtLock(ps: seq<Program>, init: Store, s: State, t: nat)
    requires Inv(ps, init, s) && Enabled(ps, s, Lock(t))
    requires Order(ps[t])[s.phases[t].next] !in s.store.wallets
    ensures var s' := Do(ps, s, Lock(t));
            && s'.store == s.store
            && (ps[t].Batch? ==> s'.phases[t] == Locking(s.phases[t].next + 1) && s'.owner == s.owner)
            && (forall w, a :: ps[t] == Wallet(Credit(w, a)) || ps[t] == Wallet(Debit(w, a)) ==>
                  s'.phases[t] == Ended(Finished(Some(MissingWallet(w)))))
  {
    LockOrderSorted(Ops(ps[t]));
    if ps[t].Wallet? {
      AllNamesHead([ps[t].op]);
      assert AllNames([ps[t].op][1..]) == {};
      assert Order(ps[t])[s.phases[t].next] in Names(ps[t].op);
    }
  }

  lemma {:induction false} LocksAfterLock(ps: seq<Program>, s: State, t: nat)
    requires |s.phases| == |ps| && LocksHeld(ps, s) && Enabled(ps, s, Lock(t))
    requires var id := Order(ps[t])[s.phases[t].next]; id in s.store.wallets || !Strict(ps[t])
    ensures LocksHeld(ps, Do(ps, s, Lock(t)))
  {
    var p, n := ps[t], s.phases[t].next;
    var id := Order(p)[n];
    var s' := Do(ps, s, Lock(t));
    assert Order(p)[..n + 1] == Order(p)[..n] + [id];
    forall u, x | 0 <= u < |ps| && x in Passed(ps[u], s'.phases[u]) && x in s'.store.wallets
      ensures x in s'.owner && s'.owner[x] == u
    {
      if u != t || x != id {
        assert x in Passed(ps[u], s.phases[u]);
      }
    }
  }

  lemma {:induction false} MissingIsTheVerdict(store: Store, p: Program, id: int)
    requires Strict(p) && id in Order(p) && id !in store.wallets
    ensures Exec(store, p) == Outcome(store, Some(MissingWallet(id)))
  {
    LockOrderSorted(Ops(p));
    AllNamesHead([p.op]);
    assert AllNames([p.op][1..]) == {};
    assert RunOps(store.wallets, [p.op]) == Failure(MissingWallet(id));
  }

  lemma {:induction false} SameLocks(ps: seq<Program>, s: State, s': State)
    requires |s.phases| == |s'.phases| == |ps| && LocksHeld(ps, s)
    requires s'.owner == s.owner && s'.store == s.store
    requires forall u :: 0 <= u < |ps| ==> Passed(ps[u], s'.phases[u]) == Passed(ps[u], s.phases[u])
    ensures LocksHeld(ps, s')
  {
    hide Passed;
    forall id | id in s'.owner ensures id in Passed(ps[s.owner[id]], s'.phases[s.owner[id]]) {
      assert id in Passed(ps[s.owner[id]], s.phases[s.owner[id]]);
    }
    forall t, id | 0 <= t < |ps| && id in Passed(ps[t], s'.phases[t]) && id in s'.store.wallets
      ensures id in s'.owner && s'.owner[id] == t
    {
      assert id in Passed(ps[t], s.phases[t]);
    }
  }

  lemma {:induction false} BeginKeepsInv(ps: seq<Program>, init: Store, s: State, t: nat)
    requires Inv(ps, init, s) && Enabled(ps, s, Begin(t))
    ensures Inv(ps, init, Do(ps, s, Begin(t)))
  {
    var s' := Do(ps, s, Begin(t));
    var p := ps[t];
    assert Order(p)[..|Order(p)|] == Order(p);
    SameLocks(ps, s, s');
    assert s.store.wallets == s.store.wallets + map[];
    assert Ops(p)[..0] == [];
    MoveKeepsInv(ps, init, s, s', t, Working(0, map[], []));
  }

  lemma {:induction false} ApplyKeepsInv(ps: seq<Program>, init: Store, s: State, t: nat)
    requires Inv(ps, init, s) && Enabled(ps, s, Apply(t))
    ensures Inv(ps, init, Do(ps, s, Apply(t)))
  {
    hide RunOps, ApplyOp, Order, LocksHeld, Logged, Agrees, Replay;
    var p, phase := ps[t], s.phases[t];
    assert Sane(p, phase, s.store);
    var s' := Do(ps, s, Apply(t));
    RunOpsStep(s.store.wallets, Ops(p), phase.done);
    match ApplyOp(s.store.wallets + phase.local, Ops(p)[phase.done]) {
      case Failure(e) =>
        assert s.store.wallets == s.store.wallets + map[];
        EndKeepsInv(ps, init, s, t, s.store, Finished(Some(e)), map[]);
      case Success(m) =>
        SaneApply(p, phase, s.store, m);
        SameLocks(ps, s, s');
        MoveKeepsInv(ps, init, s, s', t, s'.phases[t]);
    }
  }

  lemma {:induction false} SaneApply(p: Program, phase: Phase, store: Store, m: Balances)
    requires Sane(p, phase, store) && phase.Working? && phase.done < |Ops(p)|
    requires ApplyOp(store.wallets + phase.local, Ops(p)[phase.done]) == Success(m)
    ensures var op := Ops(p)[phase.done];
            var written := map w | w in Names(op) && w in m :: m[w];
            Sane(p, Working(phase.done + 1, phase.local + written, phase.rows + [RowOf(op)]), store)
  {
    hide RunOps, ApplyOp, Order, RowOf;
    var b, ops, i := store.wallets, Ops(p), phase.done;
    var written := map w | w in Names(ops[i]) && w in m :: m[w];
    ApplyTouches(b + phase.local, ops[i]);
    forall w | w in m ensures w in b && m[w] == (b + (phase.local + written))[w] {
      if w !in Names(ops[i]) {
        assert m[w] == (b + phase.local)[w];
      }
    }
    assert m == b + (phase.local + written);
    RunOpsStep(b, ops, i);
    assert ops[..i + 1] == ops[..i] + [ops[i]];
    assert RowsOf(ops[..i + 1]) == RowsOf(ops[..i]) + [RowOf(ops[i])];
    assert Names(ops[i]) <= AllNames(ops);
  }

  lemma {:induction false} ApplyTouches(b: Balances, op: Op)
    requires ApplyOp(b, op).Success?
    ensures ApplyOp(b, op).value.Keys == b.Keys && Names(op) <= b.Keys
    ensures forall w :: w in b && w !in Names(op) ==> ApplyOp(b, op).value[w] == b[w]
  {
  }

  lemma {:induction false} CommitKeepsInv(ps: seq<Program>, init: Store, s: State, t: nat)
    requires Inv(ps, init, s) && Enabled(ps, s, Commit(t))
    ensures Inv(ps, init, Do(ps, s, Commit(t)))
  {
    var p, phase := ps[t], s.phases[t];
    assert Sane(p, phase, s.store);
    assert Ops(p)[..phase.done] == Ops(p);
    LockOrderSorted(Ops(p));
    forall u | 0 <= u < |ps| && u != t
      ensures forall id :: id in phase.local ==> id !in Passed(ps[u], s.phases[u])
    {
      forall id | id in phase.local ensures id !in Passed(ps[u], s.phases[u]) {
        assert id in Passed(p, phase);
        assert s.owner[id] == t;
      }
    }
    var store := Store(s.store.wallets + phase.local, s.store.rows + phase.rows);
    EndKeepsInv(ps, init, s, t, store, Finished(None), phase.local);
  }

  lemma {:induction false} InsertionKeepsInv(ps: seq<Program>, init: Store, s: State, t: nat)
    requires Inv(ps, init, s) && Enabled(ps, s, Insertion(t))
    ensures Inv(ps, init, Do(ps, s, Insertion(t)))
  {
    var p := ps[t];
    var o := Exec(s.store, p);
    var x: Balances := if o.error == None then map[p.id := p.balance] else map[];
    assert o.store.wallets == s.store.wallets + x;
    EndKeepsInv(ps, init, s, t, o.store, Finished(o.error), x);
  }

  lemma {:induction false} StepKeepsInv(ps: seq<Program>, init: Store, s: State, step: Step)
    requires Inv(ps, init, s) && Enabled(ps, s, step)
    ensures Inv(ps, init, Do(ps, s, step))
  {
    match step {
      case Lock(t) => LockKeepsInv(ps, init, s, t);
      case Begin(t) => BeginKeepsInv(ps, init, s, t);
      case Apply(t) => ApplyKeepsInv(ps, init, s, t);
      case Commit(t) => CommitKeepsInv(ps, init, s, t);
      case Insertion(t) => InsertionKeepsInv(ps, init, s, t);
      case Kill(t) =>
        assert s.store.wallets == s.store.wallets + map[];
        EndKeepsInv(ps, init, s, t, s.store, Killed, map[]);
    }
  }

  // ---------------------------------------------------------------- termination

  function Remaining(p: Program, phase: Phase): nat {
    match phase
    case Locking(n) => (if n <= |Order(p)| then |Order(p)| - n else 0) + |Ops(p)| + 2
    case Working(done, _, _) => (if done <= |Ops(p)| then |Ops(p)| - done else 0) + 1
    case Ended(_) => 0
  }

  /** Lock steps and operations still ahead. */
  function Measure(ps: seq<Program>, phases: seq<Phase>): nat
    requires |ps| == |phases|
  {
    if ps == [] then 0 else Remaining(ps[0], phases[0]) + Measure(ps[1..], phases[1..])
  }

  lemma {:induction false} MeasureUpdate(ps: seq<Program>, phases: seq<Phase>, t: nat, phase: Phase)
    requires |ps| == |phases| && t < |ps|
    ensures Measure(ps, phases[t := phase]) + Remaining(ps[t], phases[t]) ==
            Measure(ps, phases) + Remaining(ps[t], phase)
  {
    if t == 0 {
      assert phases[0 := phase][1..] == phases[1..];
    } else {
      assert phases[t := phase][1..] == phases[1..][t - 1 := phase];
      MeasureUpdate(ps[1..], phases[1..], t - 1, phase);
    }
  }

  lemma {:induction false} StepDecreases(ps: seq<Program>, init: Store, s: State, step: Step)
    requires Inv(ps, init, s) && Enabled(ps, s, step)
    ensures Measure(ps, Do(ps, s, step).phases) < Measure(ps, s.phases)
  {
    var s' := Do(ps, s, step);
    var t := step.t;
    assert s'.phases == s.phases[t := s'.phases[t]];
    MeasureUpdate(ps, s.phases, t, s'.phases[t]);
    assert Sane(ps[t], s.phases[t], s.store);
  }

  // ---------------------------------------------------------------- whole runs

  ghost predicate CanRun(ps: seq<Program>, s: State, steps: seq<Step>)
    requires |s.phases| == |ps|
    decreases |steps|
  {
    steps != [] ==> Enabled(ps, s, steps[0]) && CanRun(ps, Do(ps, s, steps[0]), steps[1..])
  }

  ghost function RunAll(ps: seq<Program>, s: State, steps: seq<Step>): State
    requires |s.phases| == |ps| && CanRun(ps, s, steps)
    decreases |steps|
  {
    if steps == [] then s else RunAll(ps, Do(ps, s, steps[0]), steps[1..])
  }

  lemma {:induction false} RunKeepsInv(ps: seq<Program>, init: Store, s: State, steps: seq<Step>)
    requires Inv(ps, init, s) && CanRun(ps, s, steps)
    ensures Inv(ps, init, RunAll(ps, s, steps))
    ensures |steps| + Measure(ps, RunAll(ps, s, steps).phases) <= Measure(ps, s.phases)
    decreases |steps|
  {
    if steps == [] {
    } else {
      StepKeepsInv(ps, init, s, steps[0]);
      StepDecreases(ps, init, s, steps[0]);
      RunKeepsInv(ps, init, Do(ps, s, steps[0]), steps[1..]);
    }
  }

  lemma {:induction false} StartInv(ps: seq<Program>, init: Store)
    ensures Inv(ps, init, Start(ps, init))
  {
  }

  /**
    Serializability.  Whatever the interleaving, the committed tables and every
    transaction's verdict are those of running the transactions one at a time in the order
    in which they ended; each transaction ends at most once; no run is longer than the work
    there is to do.
  */
  lemma {:induction false} Serializable(ps: seq<Program>, init: Store, steps: seq<Step>)
    requires CanRun(ps, Start(ps, init), steps)
    ensures var s := RunAll(ps, Start(ps, init), steps);
            && |s.phases| == |ps|
            && s.store == Replay(ps, init, s.log)
            && Agrees(ps, init, s.log)
            && Logged(s.phases, s.log)
            && (Books(init) ==> Books(s.store))
            && |steps| <= Measure(ps, Start(ps, init).phases)
  {
    StartInv(ps, init);
    RunKeepsInv(ps, init, Start(ps, init), steps);
    var s := RunAll(ps, Start(ps, init), steps);
    if Books(init) {
      ReplayKeepsBooks(ps, init, s.log);
    }
  }

  // ---------------------------------------------------------------- deadlock freedom

  /** Blocked transactions and the row each one asks for. */
  function Waits(ps: seq<Program>, s: State): map<nat, int>
    requires |s.phases| == |ps|
  {
    map t: nat | t < |ps| && s.phases[t].Locking? && s.phases[t].next < |Order(ps[t])|
                 && Order(ps[t])[s.phases[t].next] in s.owner
      :: Order(ps[t])[s.phases[t].next]
  }

  predicate Below(x: int, y: int) {
    x < y
  }

  lemma {:induction false} RowsAscend(ps: seq<Program>, init: Store, s: State)
    requires Inv(ps, init, s)
    ensures StrictOrder(Below)
    ensures Ascending(Waits(ps, s), s.owner, Below)
    ensures forall t :: t in Waits(ps, s) ==> Waits(ps, s)[t] in s.owner
  {
    forall id | id in s.owner && s.owner[id] in Waits(ps, s) ensures Below(id, Waits(ps, s)[s.owner[id]]) {
      LockOrderSorted(Ops(ps[s.owner[id]]));
    }
  }

  /** The waits-for graph of a reachable state has no cycle. */
  lemma {:induction false} NoWaitCycle(ps: seq<Program>, init: Store, s: State, path: seq<nat>)
    requires Inv(ps, init, s) && |path| >= 2
    requires forall i :: 0 <= i < |path| - 1 ==> WaitsFor(Waits(ps, s), s.owner, path[i], path[i + 1])
    ensures path[0] != path[|path| - 1]
  {
    RowsAscend(ps, init, s);
    Acyclic(path, Waits(ps, s), s.owner, Below);
  }

  lemma {:induction false} UnblockedCanStep(ps: seq<Program>, init: Store, s: State, t: nat) returns (step: Step)
    requires Inv(ps, init, s) && Live(ps, s, t) && t !in Waits(ps, s)
    ensures Enabled(ps, s, step) && !step.Kill?
  {
    assert Sane(ps[t], s.phases[t], s.store);
    match s.phases[t] {
      case Locking(n) => step := if n < |Order(ps[t])| then Lock(t) else Begin(t);
      case Working(done, _, _) => step := if done < |Ops(ps[t])| then Apply(t) else Commit(t);
    }
  }

  ghost predicate Live(ps: seq<Program>, s: State, t: nat) {
    t < |ps| && t < |s.phases| && !s.phases[t].Ended? && !ps[t].Create?
  }

  /** FollowHolders for row ids. */
  lemma {:induction false} FollowOwners(
    t: nat, live: set<nat>, waits: map<nat, int>, owner: map<int, nat>) returns (m: nat)
    requires StrictOrder(Below) && Ascending(waits, owner, Below)
    requires t in live && forall id :: id in owner ==> owner[id] in live
    ensures m in live && (m !in waits || waits[m] !in owner)
  {
    m := FollowHolders(t, live, waits, owner, Below);
  }

  lemma {:induction false} UnblockedFrom(ps: seq<Program>, init: Store, s: State, t: nat) returns (m: nat)
    requires Inv(ps, init, s) && Live(ps, s, t)
    ensures Live(ps, s, m) && m !in Waits(ps, s)
  {
    RowsAscend(ps, init, s);
    OwnersAreLive(ps, init, s);
    var live := set u: nat | u < |ps| && Live(ps, s, u);
    m := FollowOwners(t, live, Waits(ps, s), s.owner);
  }

  lemma {:induction false} MoverFrom(ps: seq<Program>, init: Store, s: State, t: nat) returns (step: Step)
    requires Inv(ps, init, s) && Live(ps, s, t)
    ensures Enabled(ps, s, step) && !step.Kill?
  {
    var m := UnblockedFrom(ps, init, s, t);
    step := UnblockedCanStep(ps, init, s, m);
  }

  lemma {:induction false} OwnersAreLive(ps: seq<Program>, init: Store, s: State)
    requires Inv(ps, init, s)
    ensures forall id :: id in s.owner ==> Live(ps, s, s.owner[id])
  {
    forall id | id in s.owner ensures Live(ps, s, s.owner[id]) {
      PassedInOrder(ps[s.owner[id]], s.phases[s.owner[id]], id);
    }
  }

  /** As long as a transaction has not ended, some transaction can move of its own accord. */
  lemma {:induction false} NoDeadlock(ps: seq<Program>, init: Store, s: State, t: nat) returns (step: Step)
    requires Inv(ps, init, s) && t < |ps| && !s.phases[t].Ended?
    ensures Enabled(ps, s, step) && !step.Kill?
  {
    if !ps[t].Create? {
      step := MoverFrom(ps, init, s, t);
    } else if Unclaimed(ps, s, ps[t].id) {
      assert Sane(ps[t], s.phases[t], s.store);
      step := Insertion(t);
    } else {
      var u: nat :| u < |ps| && ps[t].id in Passed(ps[u], s.phases[u]);
      PassedInOrder(ps[u], s.phases[u], ps[t].id);
      step := MoverFrom(ps, init, s, u);
    }
  }
}
