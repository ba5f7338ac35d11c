/**
  Any number of `money` calls in flight at once in the browser engine.

  Between two awaits a call runs undisturbed; `Next` gives the effect of each such stretch,
  and a run is an arbitrary interleaving.  A lock is the line of the calls that hold or
  await it, as `SimLocks.LockTable` keeps it.  Nothing is assumed of a run: no leases, no
  patience.
*/
module SimCalls {
  import opened Prelude
  import opened SimBook
  import opened SimMoney
  import opened SimLocks
  import opened OrderedLocks

  datatype Pc =
    | Acquiring(n: nat)   // holds the first n locks, stands in line for the next
    | Asleep              // holds every lock, checks passed
    | Done(res: Res)      // holds every lock, answer decided
    | Settled(res: Res)   // locks released, promise resolved

  datatype Call = Call(r: Request, pc: Pc)

  datatype State = State(book: Book, idem: Idem, lines: Lines, calls: map<nat, Call>)

  datatype Event =
    | Start(id: nat, kind: Kind, key: Option<string>, body: Body)
    | Grant(id: nat)                      // the awaited lock is handed over
    | Wake(id: nat, txId: string)         // the hold time is over
    | Finish(id: nat)                     // the finally block
    | Open(wallet: string, currency: string)

  datatype Env = Env(fnv: Hasher, digest: Digest)

  function Order(r: Request): seq<string> {
    Sorted(LockNames(r))
  }

  predicate AtHead(s: State, id: nat)
    requires id in s.calls && s.calls[id].pc.Acquiring?
  {
    var c := s.calls[id];
    c.pc.n < |Order(c.r)| && Line(s.lines, Order(c.r)[c.pc.n]) != [] && Line(s.lines, Order(c.r)[c.pc.n])[0] == id
  }

  predicate Enabled(s: State, e: Event) {
    match e
    case Start(id, _, _, _) => id !in s.calls
    case Grant(id) => id in s.calls && s.calls[id].pc.Acquiring? && AtHead(s, id)
    case Wake(id, _) =>
      && id in s.calls && s.calls[id].pc.Asleep?
      && SideKnown(s.book.wallets, s.calls[id].r.from) && SideKnown(s.book.wallets, s.calls[id].r.to)
    case Finish(id) => id in s.calls && s.calls[id].pc.Done?
    case Open(wallet, _) => wallet !in s.book.wallets && wallet != SYSTEM_ACCOUNT
  }

  function Move(s: State, id: nat, pc: Pc): State
    requires id in s.calls
  {
    s.(calls := s.calls[id := s.calls[id].(pc := pc)])
  }

  function Next(env: Env, s: State, e: Event): State
    requires Enabled(s, e)
  {
    match e
    case Start(id, kind, key, body) =>
      (match Validate(env.digest, kind, key, body)
       case Failure(_) => s
       case Success(r) =>
         OrderNotEmpty(r);
         s.(calls := s.calls[id := Call(r, Acquiring(0))], lines := Enqueue(s.lines, Order(r)[0], id)))
    case Grant(id) =>
      var c := s.calls[id];
      if c.pc.n + 1 < |Order(c.r)| then
        Move(s, id, Acquiring(c.pc.n + 1)).(lines := Enqueue(s.lines, Order(c.r)[c.pc.n + 1], id))
      else
        (match OnLocked(s.book.wallets, s.idem, c.r)
         case Some(res) => Move(s, id, Done(res))
         case None => Move(s, id, Asleep))
    case Wake(id, txId) =>
      var w := OnWake(env.fnv, s.book, s.idem, s.calls[id].r, txId);
      Move(s, id, Done(w.res)).(book := w.book, idem := w.idem)
    case Finish(id) =>
      Move(s, id, Settled(s.calls[id].pc.res)).(lines := Leave(s.lines, Order(s.calls[id].r)))
    case Open(wallet, currency) =>
      s.(book := s.book.(wallets := s.book.wallets[wallet := Wallet(currency, 0, 0)]))
  }

  /** An engine that no call has reached yet. */
  function Boot(b: Book): State {
    State(b, map[], map[], map[])
  }

  predicate CanRun(env: Env, s: State, es: seq<Event>)
    decreases |es|
  {
    es != [] ==> Enabled(s, es[0]) && CanRun(env, Next(env, s, es[0]), es[1..])
  }

  function Run(env: Env, s: State, es: seq<Event>): State
    requires CanRun(env, s, es)
    decreases |es|
  {
    if es == [] then s else Run(env, Next(env, s, es[0]), es[1..])
  }

  lemma {:induction false} OrderNotEmpty(r: Request)
    ensures |Order(r)| > 0 && KeyLock(r.key) in Order(r) && Ascends(Order(r))
  {
    SortedAscends(LockNames(r));
    assert LockNames(r)[0] == KeyLock(r.key);
  }

  // ---------------------------------------------------------------- the lines

  /** The locks a call holds. */
  function Held(c: Call): seq<string> {
    match c.pc
    case Acquiring(n) => if n <= |Order(c.r)| then Order(c.r)[..n] else []
    case Settled(_) => []
    case _ => Order(c.r)
  }

  /** The locks in whose lines a call stands. */
  function Queued(c: Call): seq<string> {
    match c.pc
    case Acquiring(n) => if n < |Order(c.r)| then Order(c.r)[..n + 1] else []
    case Settled(_) => []
    case _ => Order(c.r)
  }

  predicate Distinct(line: seq<nat>) {
    forall i, j :: 0 <= i < j < |line| ==> line[i] != line[j]
  }

  /** A line holds exactly the calls that queue there, once each; holders are at its head. */
  ghost predicate LineOk(s: State, lock: string) {
    var line := Line(s.lines, lock);
    && Distinct(line)
    && (forall id :: id in line ==> id in s.calls && lock in Queued(s.calls[id]))
    && (forall id :: id in s.calls && lock in Queued(s.calls[id]) ==> id in line)
    && (forall id :: id in s.calls && lock in Held(s.calls[id]) ==> line != [] && line[0] == id)
  }

  ghost predicate LinesOk(s: State) {
    && (forall lock :: LineOk(s, lock))
    && (forall id :: id in s.calls && s.calls[id].pc.Acquiring? ==> s.calls[id].pc.n < |Order(s.calls[id].r)|)
  }

  /** No lock has two holders. */
  lemma {:induction false} OneHolder(s: State, a: nat, b: nat, lock: string)
    requires LinesOk(s) && a in s.calls && b in s.calls
    requires lock in Held(s.calls[a]) && lock in Held(s.calls[b])
    ensures a == b
  {
    assert LineOk(s, lock);
  }

  /** Only call id differs between the two states. */
  ghost predicate OnlyCall(s: State, s': State, id: nat) {
    id in s'.calls && s'.calls == s.calls[id := s'.calls[id]]
  }

  lemma {:induction false} LineGrows(s: State, s': State, id: nat, lock: string)
    requires LineOk(s, lock) && OnlyCall(s, s', id)
    requires Line(s'.lines, lock) == Line(s.lines, lock) + [id]
    requires id in s.calls ==> lock !in Queued(s.calls[id])
    requires lock in Queued(s'.calls[id]) && lock !in Held(s'.calls[id])
    ensures LineOk(s', lock)
  {
    hide Held, Queued, Line;
  }

  lemma {:induction false} LineStays(s: State, s': State, id: nat, lock: string)
    requires LineOk(s, lock) && OnlyCall(s, s', id)
    requires Line(s'.lines, lock) == Line(s.lines, lock)
    requires lock in Queued(s'.calls[id]) <==> id in s.calls && lock in Queued(s.calls[id])
    requires lock in Held(s'.calls[id]) ==> Line(s.lines, lock) != [] && Line(s.lines, lock)[0] == id
    ensures LineOk(s', lock)
  {
    hide Held, Queued, Line;
  }

  lemma {:induction false} LineShrinks(s: State, s': State, id: nat, lock: string)
    requires LineOk(s, lock) && OnlyCall(s, s', id) && id in s.calls
    requires lock in Held(s.calls[id])
    requires Line(s'.lines, lock) == Line(s.lines, lock)[1..]
    requires lock !in Queued(s'.calls[id]) && lock !in Held(s'.calls[id])
    ensures LineOk(s', lock)
  {
    var line := Line(s.lines, lock);
    hide Held, Queued, Line;
    assert line == [id] + line[1..];
  }

  lemma {:induction false} StartKeepsLine(env: Env, s: State, e: Event, lock: string)
    requires LinesOk(s) && e.Start? && Enabled(s, e)
    ensures LineOk(Next(env, s, e), lock)
  {
    assert LineOk(s, lock);
    match Validate(env.digest, e.kind, e.key, e.body) {
      case Failure(_) =>
      case Success(r) =>
        OrderNotEmpty(r);
        var c := Call(r, Acquiring(0));
        var s' := Next(env, s, e);
        hide Order, Validate;
        assert Held(c) == [] && Queued(c) == [Order(r)[0]];
        assert OnlyCall(s, s', e.id) && s'.calls[e.id] == c;
        EnqueuedLine(s.lines, Order(r)[0], e.id, lock);
        hide Held, Queued, LineOk, Next, OnlyCall, Line;
        if lock == Order(r)[0] {
          LineGrows(s, s', e.id, lock);
        } else {
          LineStays(s, s', e.id, lock);
        }
    }
  }

  lemma {:induction false} NewLock(order: seq<string>, n: nat)
    requires Ascends(order) && n < |order|
    ensures order[n] !in order[..n]
  {
    forall i | 0 <= i < n ensures order[i] != order[n] {
      AscendingDistinct(order, i, n);
    }
  }

  lemma {:induction false} OneMore(order: seq<string>, n: nat, lock: string)
    requires n < |order|
    ensures lock in order[..n + 1] <==> lock in order[..n] || lock == order[n]
  {
    assert order[..n + 1] == order[..n] + [order[n]];
  }

  /** A grant adds the awaited lock to those held and the next one, if any, to the lines stood in. */
  lemma {:induction false} NextLock(c: Call, lock: string)
    requires c.pc.Acquiring? && c.pc.n + 1 < |Order(c.r)|
    ensures var n, c' := c.pc.n, c.(pc := Acquiring(c.pc.n + 1));
            && (lock in Queued(c') <==> lock in Queued(c) || lock == Order(c.r)[n + 1])
            && (lock in Held(c') <==> lock in Queued(c))
            && (lock in Held(c') ==> lock in Held(c) || lock == Order(c.r)[n])
            && Order(c.r)[n + 1] !in Queued(c)
  {
    var n, order := c.pc.n, Order(c.r);
    OrderNotEmpty(c.r);
    OneMore(order, n, lock);
    OneMore(order, n + 1, lock);
    NewLock(order, n + 1);
    hide Order, Ascends;
  }

  lemma {:induction false} LastLock(c: Call, pc: Pc, lock: string)
    requires c.pc.Acquiring? && c.pc.n + 1 == |Order(c.r)| && (pc.Asleep? || pc.Done?)
    ensures lock in Queued(c.(pc := pc)) <==> lock in Queued(c)
    ensures lock in Held(c.(pc := pc)) ==> lock in Held(c) || lock == Order(c.r)[c.pc.n]
  {
    var n, order := c.pc.n, Order(c.r);
    hide Order;
    assert order == order[..n] + [order[n]] && order[..n + 1] == order;
  }

  lemma {:induction false} JoinsNextLine(s: State, s': State, id: nat, lock: string)
    requires LineOk(s, lock) && Enabled(s, Grant(id)) && s.calls[id].pc.n + 1 < |Order(s.calls[id].r)|
    requires var c := s.calls[id];
             && s'.calls == s.calls[id := c.(pc := Acquiring(c.pc.n + 1))]
             && s'.lines == Enqueue(s.lines, Order(c.r)[c.pc.n + 1], id)
    ensures LineOk(s', lock)
  {
    var c := s.calls[id];
    var next := Order(c.r)[c.pc.n + 1];
    NextLock(c, lock);
    EnqueuedLine(s.lines, next, id, lock);
    HeldAtHead(s, id, lock);
    hide *;
    if lock == next {
      LineGrows(s, s', id, lock);
    } else {
      LineStays(s, s', id, lock);
    }
  }

  lemma {:induction false} HeldAtHead(s: State, id: nat, lock: string)
    requires LineOk(s, lock) && Enabled(s, Grant(id))
    ensures lock in Held(s.calls[id]) || lock == Order(s.calls[id].r)[s.calls[id].pc.n] ==>
              Line(s.lines, lock) != [] && Line(s.lines, lock)[0] == id
  {
    hide Order, Held, Queued;
  }

  lemma {:induction false} LastLockKeepsLine(env: Env, s: State, id: nat, lock: string)
    requires LineOk(s, lock) && Enabled(s, Grant(id)) && s.calls[id].pc.n + 1 == |Order(s.calls[id].r)|
    ensures LineOk(Next(env, s, Grant(id)), lock)
  {
    var s', c := Next(env, s, Grant(id)), s.calls[id];
    hide Order, OnLocked, Held, Queued, LineOk;
    LastLock(c, s'.calls[id].pc, lock);
    HeldAtHead(s, id, lock);
    assert s'.lines == s.lines && OnlyCall(s, s', id) && s'.calls[id] == c.(pc := s'.calls[id].pc);
    hide Line, Next, OnlyCall;
    LineStays(s, s', id, lock);
  }

  lemma {:induction false} FinishKeepsLine(env: Env, s: State, id: nat, lock: string)
    requires LinesOk(s) && Enabled(s, Finish(id))
    ensures LineOk(Next(env, s, Finish(id)), lock)
  {
    var s', c := Next(env, s, Finish(id)), s.calls[id];
    hide Order;
    assert LineOk(s, lock);
    assert Held(c) == Order(c.r) == Queued(c) && Held(s'.calls[id]) == [] == Queued(s'.calls[id]);
    hide Held, Queued;
    if lock in Order(c.r) {
      LineShrinks(s, s', id, lock);
    } else {
      LineStays(s, s', id, lock);
    }
  }

  lemma {:induction false} OtherKeepsLine(env: Env, s: State, e: Event, lock: string)
    requires LinesOk(s) && (e.Wake? || e.Open?) && Enabled(s, e)
    ensures LineOk(Next(env, s, e), lock)
  {
    hide Order, OnWake;
    assert LineOk(s, lock);
    if e.Wake? {
      LineStays(s, Next(env, s, e), e.id, lock);
    }
  }

  lemma {:induction false} NextKeepsLines(env: Env, s: State, e: Event)
    requires LinesOk(s) && Enabled(s, e)
    ensures LinesOk(Next(env, s, e))
  {
    forall lock ensures LineOk(Next(env, s, e), lock) {
      match e {
        case Start(_, _, _, _) => StartKeepsLine(env, s, e, lock);
        case Grant(id) =>
          assert LineOk(s, lock);
          if s.calls[id].pc.n + 1 < |Order(s.calls[id].r)| {
            JoinsNextLine(s, Next(env, s, e), id, lock);
          } else {
            LastLockKeepsLine(env, s, id, lock);
          }
        case Finish(id) => FinishKeepsLine(env, s, id, lock);
        case _ => OtherKeepsLine(env, s, e, lock);
      }
    }
    if e.Start? {
      match Validate(env.digest, e.kind, e.key, e.body) {
        case Failure(_) =>
        case Success(r) => OrderNotEmpty(r);
      }
    }
    hide Order, Validate, OnLocked, OnWake, LineOk;
  }

  // ---------------------------------------------------------------- keys, records, commits

  /** An answer that speaks of a key agrees with what is recorded under it. */
  ghost predicate AnswerOk(idem: Idem, r: Request, res: Res) {
    match res
    case Created(tx, fingerprint, _) =>
      && r.key in idem && fingerprint == r.fingerprint
      && idem[r.key] == IdemRecord(fingerprint, Created(tx, fingerprint, false))
    case KeyReused(fingerprint) =>
      r.key in idem && idem[r.key].fingerprint == fingerprint && fingerprint != r.fingerprint
    case _ => true
  }

  ghost predicate CallOk(s: State, c: Call) {
    && c.r.amount > 0
    && (c.pc.Asleep? ==>
          c.r.key !in s.idem && SideKnown(s.book.wallets, c.r.from) && SideKnown(s.book.wallets, c.r.to))
    && (c.pc.Done? || c.pc.Settled? ==> AnswerOk(s.idem, c.r, c.pc.res))
  }

  /** The key of every record belongs to one committed transaction, which the record answers with. */
  ghost predicate RecordOk(s: State, base: nat, key: string)
    requires key in s.idem && base <= |s.book.txs|
  {
    && s.idem[key].response.Created?
    && s.idem[key].response == Created(s.idem[key].response.tx, s.idem[key].fingerprint, false)
    && s.idem[key].response.tx.key == key
    && s.idem[key].response.tx in s.book.txs[base..]
  }

  /** Every commit since the start is on record under its key. */
  ghost predicate CommitOk(s: State, j: nat)
    requires j < |s.book.txs|
  {
    var key := s.book.txs[j].key;
    key in s.idem && s.idem[key].response.Created? && s.idem[key].response.tx == s.book.txs[j]
  }

  ghost predicate CallsOk(s: State) {
    forall id :: id in s.calls ==> CallOk(s, s.calls[id])
  }

  ghost predicate RecordsOk(s: State, base: nat) {
    && base <= |s.book.txs|
    && (forall k :: k in s.idem ==> RecordOk(s, base, k))
    && (forall j :: base <= j < |s.book.txs| ==> CommitOk(s, j))
  }

  /** No key has two commits. */
  ghost predicate KeysUnique(s: State, base: nat) {
    forall i, j :: base <= i < j < |s.book.txs| ==> s.book.txs[i].key != s.book.txs[j].key
  }

  predicate Fresh(c: Call) {
    (c.pc.Done? || c.pc.Settled?) && c.pc.res.Created? && !c.pc.res.replayed
  }

  /** No key has two calls that were answered as the original. */
  ghost predicate OriginalUnique(s: State) {
    forall a, b ::
      a in s.calls && b in s.calls && Fresh(s.calls[a]) && Fresh(s.calls[b]) && s.calls[a].r.key == s.calls[b].r.key ==>
        a == b
  }

  ghost predicate BookOk(env: Env, s: State) {
    Sound(env.fnv, s.book) && Solvent(s.book.wallets)
  }

  ghost predicate Inv(env: Env, base: nat, s: State) {
    LinesOk(s) && BookOk(env, s) && CallsOk(s) && RecordsOk(s, base) && KeysUnique(s, base) && OriginalUnique(s)
  }

  /** While a call sleeps no other call with its key does. */
  lemma {:induction false} SleepsAlone(s: State, a: nat, b: nat)
    requires LinesOk(s) && a in s.calls && b in s.calls
    requires s.calls[a].pc.Asleep? && s.calls[b].pc.Asleep? && s.calls[a].r.key == s.calls[b].r.key
    ensures a == b
  {
    OrderNotEmpty(s.calls[a].r);
    OrderNotEmpty(s.calls[b].r);
    hide Order;
    OneHolder(s, a, b, KeyLock(s.calls[a].r.key));
  }

  /** Records are never changed. */
  lemma {:induction false} RecordsStay(env: Env, base: nat, s: State, e: Event, key: string)
    requires CallsOk(s) && Enabled(s, e) && key in s.idem
    ensures key in Next(env, s, e).idem && Next(env, s, e).idem[key] == s.idem[key]
  {
    hide Order, Commit, TxOf, OnLocked, Validate;
    if e.Wake? {
      assert CallOk(s, s.calls[e.id]);
    }
  }

  lemma {:induction false} NextKeepsBook(env: Env, s: State, e: Event)
    requires BookOk(env, s) && CallsOk(s) && Enabled(s, e)
    ensures BookOk(env, Next(env, s, e)) && s.book.wallets.Keys <= Next(env, s, e).book.wallets.Keys
  {
    match e {
      case Wake(id, txId) =>
        assert CallOk(s, s.calls[id]);
        hide Sound, Solvent, OnWake;
        WakeKeepsBook(env.fnv, s.book, s.idem, s.calls[id].r, txId);
      case Open(w, currency) =>
        hide Sound;
        NewWalletKeepsSound(env.fnv, s.book, w, currency);
      case _ => hide Sound, Order, Validate, OnLocked;
    }
  }

  /** The step is call id's own. */
  predicate Steps(e: Event, id: nat) {
    (e.Grant? || e.Wake? || e.Finish?) && e.id == id
  }

  /** A call that a step does not concern. */
  lemma {:induction false} BystanderOk(s: State, s': State, c: Call)
    requires CallOk(s, c)
    requires forall w :: w in s.book.wallets ==> w in s'.book.wallets
    requires c.r.key in s.idem ==> c.r.key in s'.idem && s'.idem[c.r.key] == s.idem[c.r.key]
    requires c.pc.Asleep? ==> c.r.key !in s'.idem
    ensures CallOk(s', c)
  {
  }

  lemma {:induction false} GrantedCallOk(env: Env, base: nat, s: State, id: nat)
    requires CallsOk(s) && RecordsOk(s, base) && Enabled(s, Grant(id))
    ensures CallOk(Next(env, s, Grant(id)), Next(env, s, Grant(id)).calls[id])
  {
    var c := s.calls[id];
    assert CallOk(s, c);
    if c.r.key in s.idem {
      assert RecordOk(s, base, c.r.key);
    }
    hide Order, CallsOk, RecordsOk;
  }

  lemma {:induction false} WokenCallOk(env: Env, s: State, id: nat, txId: string)
    requires CallsOk(s) && Enabled(s, Wake(id, txId))
    ensures CallOk(Next(env, s, Wake(id, txId)), Next(env, s, Wake(id, txId)).calls[id])
  {
    assert CallOk(s, s.calls[id]);
    hide Order, Commit, TxOf, CallsOk;
  }

  /** A step changes the record of no key but that of the call it concerns. */
  lemma {:induction false} IdemStep(env: Env, s: State, e: Event, key: string)
    requires Enabled(s, e) && key in Next(env, s, e).idem && key !in s.idem
    ensures e.Wake? && s.calls[e.id].r.key == key
  {
    hide Order, Commit, TxOf, Validate, OnLocked;
  }

  lemma {:induction false} StepConcerns(env: Env, s: State, e: Event, id: nat)
    requires Enabled(s, e) && id in s.calls && !Steps(e, id)
    ensures id in Next(env, s, e).calls && Next(env, s, e).calls[id] == s.calls[id]
  {
    hide Order, OnWake, Validate, OnLocked;
  }

  lemma {:induction false} BystanderStep(env: Env, base: nat, s: State, e: Event, id: nat)
    requires LinesOk(s) && BookOk(env, s) && CallsOk(s) && Enabled(s, e)
    requires id in s.calls && !Steps(e, id)
    ensures id in Next(env, s, e).calls && CallOk(Next(env, s, e), Next(env, s, e).calls[id])
  {
    var s', c := Next(env, s, e), s.calls[id];
    assert CallOk(s, c);
    NextKeepsBook(env, s, e);
    StepConcerns(env, s, e, id);
    if c.r.key in s.idem {
      RecordsStay(env, base, s, e, c.r.key);
    } else if c.pc.Asleep? && c.r.key in s'.idem {
      IdemStep(env, s, e, c.r.key);
      SleepsAlone(s, id, e.id);
      assert false;
    }
    hide Next, LinesOk, BookOk, CallsOk, CallOk;
    BystanderOk(s, s', c);
  }

  /** What becomes of a call in one step. */
  lemma {:induction false} NextKeepsCall(env: Env, base: nat, s: State, e: Event, id: nat)
    requires LinesOk(s) && BookOk(env, s) && CallsOk(s) && RecordsOk(s, base) && Enabled(s, e)
    requires id in s.calls
    ensures id in Next(env, s, e).calls && CallOk(Next(env, s, e), Next(env, s, e).calls[id])
  {
    if e.Grant? && e.id == id {
      GrantedCallOk(env, base, s, id);
    } else if e.Wake? && e.id == id {
      WokenCallOk(env, s, id, e.txId);
    } else if e.Finish? && e.id == id {
      hide LinesOk, BookOk, RecordsOk, Order, Leave;
      assert CallOk(s, s.calls[id]);
    } else {
      BystanderStep(env, base, s, e, id);
    }
  }

  lemma {:induction false} NewCallOk(env: Env, s: State, e: Event)
    requires e.Start? && Enabled(s, e) && e.id in Next(env, s, e).calls
    ensures CallOk(Next(env, s, e), Next(env, s, e).calls[e.id]) && !Fresh(Next(env, s, e).calls[e.id])
  {
    hide Order;
  }

  lemma {:induction false} NextKeepsCalls(env: Env, base: nat, s: State, e: Event)
    requires LinesOk(s) && BookOk(env, s) && CallsOk(s) && RecordsOk(s, base) && Enabled(s, e)
    ensures CallsOk(Next(env, s, e))
  {
    var s' := Next(env, s, e);
    forall id | id in s'.calls ensures CallOk(s', s'.calls[id]) {
      if id in s.calls {
        NextKeepsCall(env, base, s, e, id);
      } else {
        NewCallOk(env, s, e);
      }
    }
  }

  lemma {:induction false} SameRecords(s: State, s': State, base: nat)
    requires RecordsOk(s, base) && KeysUnique(s, base) && s'.book.txs == s.book.txs && s'.idem == s.idem
    ensures RecordsOk(s', base) && KeysUnique(s', base)
  {
    forall k | k in s'.idem ensures RecordOk(s', base, k) {
      assert RecordOk(s, base, k);
    }
    forall j | base <= j < |s'.book.txs| ensures CommitOk(s', j) {
      assert CommitOk(s, j);
    }
  }

  /** A commit adds the transaction and its record, under a key that had neither. */
  lemma {:induction false} MoreRecords(s: State, s': State, base: nat, tx: Tx, fingerprint: string)
    requires RecordsOk(s, base) && KeysUnique(s, base) && tx.key !in s.idem
    requires s'.book.txs == s.book.txs + [tx]
    requires s'.idem == s.idem[tx.key := IdemRecord(fingerprint, Created(tx, fingerprint, false))]
    ensures RecordsOk(s', base) && KeysUnique(s', base)
  {
    var n := |s.book.txs|;
    assert s'.book.txs[base..] == s.book.txs[base..] + [tx];
    forall k | k in s'.idem ensures RecordOk(s', base, k) {
      if k != tx.key {
        assert RecordOk(s, base, k);
      }
    }
    forall j | base <= j < |s'.book.txs| ensures CommitOk(s', j) && (j < n ==> s'.book.txs[j].key != tx.key) {
      if j < n {
        assert CommitOk(s, j);
      }
    }
  }

  lemma {:induction false} CommitKeepsRecords(env: Env, base: nat, s: State, id: nat, txId: string)
    requires CallsOk(s) && RecordsOk(s, base) && KeysUnique(s, base) && Enabled(s, Wake(id, txId))
    ensures RecordsOk(Next(env, s, Wake(id, txId)), base) && KeysUnique(Next(env, s, Wake(id, txId)), base)
  {
    var s', r := Next(env, s, Wake(id, txId)), s.calls[id].r;
    assert CallOk(s, s.calls[id]);
    hide RecordsOk, KeysUnique, CallsOk, Order;
    if s'.calls[id].pc.res.Created? {
      var tx := s'.calls[id].pc.res.tx;
      CommitAddsTx(env.fnv, s.book, tx);
      hide Commit;
      MoreRecords(s, s', base, tx, r.fingerprint);
    } else {
      SameRecords(s, s', base);
    }
  }

  lemma {:induction false} CommitAddsTx(h: Hasher, b: Book, tx: Tx)
    requires SideKnown(b.wallets, tx.from) && SideKnown(b.wallets, tx.to)
    ensures Commit(h, b, tx).txs == b.txs + [tx]
  {
  }

  lemma {:induction false} NextKeepsRecords(env: Env, base: nat, s: State, e: Event)
    requires CallsOk(s) && RecordsOk(s, base) && KeysUnique(s, base) && Enabled(s, e)
    ensures RecordsOk(Next(env, s, e), base) && KeysUnique(Next(env, s, e), base)
  {
    if e.Wake? {
      CommitKeepsRecords(env, base, s, e.id, e.txId);
    } else {
      var s' := Next(env, s, e);
      hide Order, Validate, OnLocked, RecordsOk, KeysUnique;
      SameRecords(s, s', base);
    }
  }

  /** A step that makes a call the original one finds its key unrecorded. */
  lemma {:induction false} FreshStep(env: Env, base: nat, s: State, e: Event, id: nat)
    requires CallsOk(s) && RecordsOk(s, base) && Enabled(s, e)
    requires id in Next(env, s, e).calls && Fresh(Next(env, s, e).calls[id])
    ensures id in s.calls && s.calls[id].r == Next(env, s, e).calls[id].r
    ensures Fresh(s.calls[id]) || (e.Wake? && e.id == id && s.calls[id].r.key !in s.idem)
  {
    if e.Start? && e.id == id {
      NewCallOk(env, s, e);
      assert false;
    }
    if e.Grant? && e.id == id {
      hide Order, RecordOk, CommitOk;
      assert s.calls[id].r.key in s.idem ==> RecordOk(s, base, s.calls[id].r.key);
      NotFreshOnGrant(env, base, s, id);
      assert false;
    } else if e.Wake? && e.id == id {
      assert CallOk(s, s.calls[id]);
    }
    hide Order, Commit, TxOf, Validate, AnswerOk, OnLocked, OnWake, CallsOk, RecordsOk;
  }

  /** A call answered from a record is marked as a replay. */
  lemma {:induction false} NotFreshOnGrant(env: Env, base: nat, s: State, id: nat)
    requires RecordsOk(s, base) && Enabled(s, Grant(id))
    ensures !Fresh(Next(env, s, Grant(id)).calls[id])
  {
    if s.calls[id].r.key in s.idem {
      assert RecordOk(s, base, s.calls[id].r.key);
    }
    hide Order;
  }

  lemma {:induction false} NextKeepsOriginals(env: Env, base: nat, s: State, e: Event)
    requires CallsOk(s) && RecordsOk(s, base) && OriginalUnique(s) && Enabled(s, e)
    ensures OriginalUnique(Next(env, s, e))
  {
    var s' := Next(env, s, e);
    forall a, b | a in s'.calls && b in s'.calls && Fresh(s'.calls[a]) && Fresh(s'.calls[b])
                  && s'.calls[a].r.key == s'.calls[b].r.key
      ensures a == b
    {
      FreshStep(env, base, s, e, a);
      FreshStep(env, base, s, e, b);
      hide Next;
      assert CallOk(s, s.calls[a]) && CallOk(s, s.calls[b]);
    }
  }

  lemma {:induction false} NextKeepsInv(env: Env, base: nat, s: State, e: Event)
    requires Inv(env, base, s) && Enabled(s, e)
    ensures Inv(env, base, Next(env, s, e))
  {
    hide Next, LinesOk, BookOk, CallsOk, RecordsOk, KeysUnique, OriginalUnique;
    NextKeepsLines(env, s, e);
    NextKeepsBook(env, s, e);
    NextKeepsCalls(env, base, s, e);
    NextKeepsRecords(env, base, s, e);
    NextKeepsOriginals(env, base, s, e);
  }

  lemma {:induction false} RunKeepsInv(env: Env, base: nat, s: State, es: seq<Event>)
    requires Inv(env, base, s) && CanRun(env, s, es)
    ensures Inv(env, base, Run(env, s, es))
    decreases |es|
  {
    if es == [] {
    } else {
      NextKeepsInv(env, base, s, es[0]);
      hide Next, Inv;
      RunKeepsInv(env, base, Next(env, s, es[0]), es[1..]);
    }
  }

  // ---------------------------------------------------------------- what follows

  lemma {:induction false} BootOk(env: Env, b: Book)
    requires Sound(env.fnv, b) && Solvent(b.wallets)
    ensures Inv(env, |b.txs|, Boot(b))
  {
  }

  /**
    Every run over a sound book: the book stays sound and no wallet is overdrawn; each commit
    is recorded under its key and no key has two; every 201 and every key-reuse 422 agrees with
    the record of its key; and no key has two calls answered as the original.
  */
  lemma {:induction false} EveryRun(env: Env, b: Book, es: seq<Event>)
    requires Sound(env.fnv, b) && Solvent(b.wallets) && CanRun(env, Boot(b), es)
    ensures var s := Run(env, Boot(b), es);
            && BookOk(env, s) && CallsOk(s) && RecordsOk(s, |b.txs|) && KeysUnique(s, |b.txs|) && OriginalUnique(s)
            && s.book.txs[..|b.txs|] == b.txs
  {
    BootOk(env, b);
    RunKeepsInv(env, |b.txs|, Boot(b), es);
    TxsGrow(env, Boot(b), es);
    hide Run, CanRun;
  }

  lemma {:induction false} TxsStep(env: Env, s: State, e: Event)
    requires Enabled(s, e)
    ensures |s.book.txs| <= |Next(env, s, e).book.txs| && Next(env, s, e).book.txs[..|s.book.txs|] == s.book.txs
  {
    hide Order, Validate, OnLocked;
  }

  /** Transactions are only ever appended. */
  lemma {:induction false} TxsGrow(env: Env, s: State, es: seq<Event>)
    requires CanRun(env, s, es)
    ensures |s.book.txs| <= |Run(env, s, es).book.txs| && Run(env, s, es).book.txs[..|s.book.txs|] == s.book.txs
    decreases |es|
  {
    if es == [] {
    } else {
      TxsStep(env, s, es[0]);
      TxsGrow(env, Next(env, s, es[0]), es[1..]);
      hide Next;
      var n, m := |s.book.txs|, |Next(env, s, es[0]).book.txs|;
      assert Run(env, s, es).book.txs[..m][..n] == Run(env, s, es).book.txs[..n];
    }
  }

  /** `money` commits at most one transaction per key, in every interleaving. */
  lemma {:induction false} AtMostOnce(env: Env, b: Book, es: seq<Event>, i: nat, j: nat)
    requires Sound(env.fnv, b) && Solvent(b.wallets) && CanRun(env, Boot(b), es)
    requires |b.txs| <= i && |b.txs| <= j
    requires var txs := Run(env, Boot(b), es).book.txs; i < |txs| && j < |txs| && txs[i].key == txs[j].key
    ensures i == j
  {
    EveryRun(env, b, es);
  }

  /** Once a key is recorded, no step of a call with that key touches the book or the records. */
  lemma {:induction false} RepeatMovesNothing(env: Env, base: nat, s: State, e: Event, id: nat)
    requires Inv(env, base, s) && Enabled(s, e) && Steps(e, id) && s.calls[id].r.key in s.idem
    ensures Next(env, s, e).book == s.book && Next(env, s, e).idem == s.idem
  {
    assert CallOk(s, s.calls[id]);
    hide Order, OnLocked, OnWake;
  }

  /** A later call's answer: the original response, marked as a replay, or 422 for a different payload. */
  ghost predicate Repeated(s: State, record: IdemRecord, key: string, c: nat) {
    c in s.calls && s.calls[c].r.key == key ==>
      match s.calls[c].pc
      case Acquiring(_) => true
      case Asleep => false
      case Done(res) => res == AnswerFrom(record, s.calls[c].r)
      case Settled(res) => res == AnswerFrom(record, s.calls[c].r)
  }

  lemma {:induction false} RepeatStep(env: Env, base: nat, s: State, e: Event, key: string, c: nat)
    requires Inv(env, base, s) && Enabled(s, e) && key in s.idem && Repeated(s, s.idem[key], key, c)
    ensures Repeated(Next(env, s, e), s.idem[key], key, c)
  {
    hide LinesOk, BookOk, CallsOk, RecordsOk, KeysUnique, OriginalUnique, AnswerFrom;
    if c !in s.calls {
      if e.Start? && e.id == c {
        OnlyAcquiring(env, s, e);
      }
    }
    hide Order, Validate, OnWake;
  }

  lemma {:induction false} OnlyAcquiring(env: Env, s: State, e: Event)
    requires e.Start? && Enabled(s, e)
    ensures e.id in Next(env, s, e).calls ==> Next(env, s, e).calls[e.id].pc.Acquiring?
  {
    hide Order;
  }

  /** Whatever else happens, every call that reaches its critical section after the commit repeats its answer. */
  lemma {:induction false} LaterCallsRepeat(env: Env, base: nat, s: State, es: seq<Event>, key: string, c: nat)
    requires Inv(env, base, s) && CanRun(env, s, es) && key in s.idem
    requires c in s.calls ==> s.calls[c].pc.Acquiring?
    ensures key in Run(env, s, es).idem && Run(env, s, es).idem[key] == s.idem[key]
    ensures Repeated(Run(env, s, es), s.idem[key], key, c)
  {
    KeepsRepeating(env, base, s, es, key, c);
  }

  lemma {:induction false} KeepsRepeating(env: Env, base: nat, s: State, es: seq<Event>, key: string, c: nat)
    requires Inv(env, base, s) && CanRun(env, s, es) && key in s.idem && Repeated(s, s.idem[key], key, c)
    ensures key in Run(env, s, es).idem && Run(env, s, es).idem[key] == s.idem[key]
    ensures Repeated(Run(env, s, es), s.idem[key], key, c)
    decreases |es|
  {
    if es == [] {
    } else {
      NextKeepsInv(env, base, s, es[0]);
      RepeatStep(env, base, s, es[0], key, c);
      assert CallsOk(s);
      RecordsStay(env, base, s, es[0], key);
      hide Next, Inv, Repeated;
      KeepsRepeating(env, base, Next(env, s, es[0]), es[1..], key, c);
    }
  }

  lemma {:induction false} RequestStays(env: Env, s: State, es: seq<Event>, id: nat)
    requires CanRun(env, s, es) && id in s.calls
    ensures id in Run(env, s, es).calls && Run(env, s, es).calls[id].r == s.calls[id].r
    decreases |es|
  {
    if es == [] {
    } else {
      StepKeepsRequest(env, s, es[0], id);
      hide Next, Enabled;
      RequestStays(env, Next(env, s, es[0]), es[1..], id);
    }
  }

  lemma {:induction false} StepKeepsRequest(env: Env, s: State, e: Event, id: nat)
    requires Enabled(s, e) && id in s.calls
    ensures id in Next(env, s, e).calls && Next(env, s, e).calls[id].r == s.calls[id].r
  {
    hide Order, OnLocked, OnWake, Validate;
  }

  lemma {:induction false} StartedCall(env: Env, s: State, e: Event)
    requires e.Start? && Enabled(s, e) && Validate(env.digest, e.kind, e.key, e.body).Success?
    ensures e.id in Next(env, s, e).calls
    ensures Next(env, s, e).calls[e.id].r == Validate(env.digest, e.kind, e.key, e.body).value
  {
    hide Order, Validate;
  }

  /** The effect of a call and its answer, on the fields of its body. */
  ghost predicate AsAsked(kind: Kind, body: Body, ws: Wallets, ws': Wallets, pc: Pc) {
    && body.amount.Some? && pc.Done?
    && var amount, created := body.amount.value, pc.res.Created?;
       && (!created ==> ws' == ws)
       && match kind
          case Deposit =>
            Truthy(body.wallet) ==>
              && created && Moved(ws, ws', body.wallet.id, amount)
              && ws' - {body.wallet.id} == ws - {body.wallet.id}
          case Withdrawal =>
            Truthy(body.wallet) ==>
              && body.wallet.id in ws && (created <==> ws[body.wallet.id].balance >= amount)
              && (created ==> Moved(ws, ws', body.wallet.id, -amount))
              && ws' - {body.wallet.id} == ws - {body.wallet.id}
          case Transfer =>
            Truthy(body.from) && Truthy(body.to) ==>
              && body.from.id in ws && (created <==> ws[body.from.id].balance >= amount)
              && (created ==> Moved(ws, ws', body.from.id, -amount) && Moved(ws, ws', body.to.id, amount))
              && ws' - {body.from.id, body.to.id} == ws - {body.from.id, body.to.id}
  }

  lemma {:induction false} NotCreatedNotMoved(h: Hasher, b: Book, idem: Idem, r: Request, txId: string)
    requires SideKnown(b.wallets, r.from) && SideKnown(b.wallets, r.to)
    ensures OnWake(h, b, idem, r, txId).res.Created? || OnWake(h, b, idem, r, txId).book == b
  {
    hide Commit, TxOf;
  }

  lemma {:induction false} WakesAsAsked(
    env: Env, base: nat, s: State, kind: Kind, key: Option<string>, body: Body, id: nat, txId: string)
    requires Inv(env, base, s) && Enabled(s, Wake(id, txId))
    requires Validate(env.digest, kind, key, body) == Success(s.calls[id].r)
    ensures var s' := Next(env, s, Wake(id, txId));
            AsAsked(kind, body, s.book.wallets, s'.book.wallets, s'.calls[id].pc)
  {
    var s', r := Next(env, s, Wake(id, txId)), s.calls[id].r;
    var w := OnWake(env.fnv, s.book, s.idem, r, txId);
    hide OnWake;
    assert s'.book == w.book && s'.calls[id].pc == Done(w.res);
    assert CallOk(s, s.calls[id]);
    NotCreatedNotMoved(env.fnv, s.book, s.idem, r, txId);
    hide Next, Enabled, LinesOk, BookOk, CallsOk, RecordsOk, KeysUnique, OriginalUnique, OnLocked;
    match kind {
      case Deposit =>
        if Truthy(body.wallet) {
          DepositRaises(env.fnv, env.digest, key, body, r, s.book, s.idem, txId);
        }
      case Withdrawal =>
        if Truthy(body.wallet) {
          WithdrawalIff(env.fnv, env.digest, key, body, r, s.book, s.idem, txId);
        }
      case Transfer =>
        if Truthy(body.from) && Truthy(body.to) {
          TransferMoves(env.fnv, env.digest, key, body, r, s.book, s.idem, txId);
        }
    }
  }

  /**
    What a call that was started with a body does when it wakes, however many others run
    meanwhile: a deposit raises the wallet it names, a withdrawal lowers it if it holds the
    amount, a transfer moves the amount if the sender holds it; no other wallet is touched.
  */
  lemma {:induction false} CallDoesAsAsked(env: Env, base: nat, s: State, e: Event, es: seq<Event>, txId: string)
    requires Inv(env, base, s) && e.Start? && Enabled(s, e)
    requires Validate(env.digest, e.kind, e.key, e.body).Success?
    requires CanRun(env, Next(env, s, e), es) && Enabled(Run(env, Next(env, s, e), es), Wake(e.id, txId))
    ensures var s2 := Run(env, Next(env, s, e), es);
            var s3 := Next(env, s2, Wake(e.id, txId));
            AsAsked(e.kind, e.body, s2.book.wallets, s3.book.wallets, s3.calls[e.id].pc)
  {
    var s1 := Next(env, s, e);
    var s2 := Run(env, s1, es);
    StartedCall(env, s, e);
    NextKeepsInv(env, base, s, e);
    hide Next, Inv;
    RunKeepsInv(env, base, s1, es);
    RequestStays(env, s1, es, e.id);
    WakesAsAsked(env, base, s2, e.kind, e.key, e.body, e.id, txId);
  }

  predicate NamesWallet(r: Request, w: string) {
    w != "" && (r.from == Str(w) || r.to == Str(w))
  }

  /** A call locks its key, under a prefix of its own, and exactly the wallets it names. */
  lemma {:induction false} LocksOfCall(r: Request, lock: string)
    ensures lock in Order(r) <==> lock == "idem:" + r.key || NamesWallet(r, lock)
  {
    SortedAscends(LockNames(r));
    assert lock in SideLock(r.from) <==> Truthy(r.from) && r.from.id == lock;
    assert lock in SideLock(r.to) <==> Truthy(r.to) && r.to.id == lock;
  }

  /** In every run, calls between their checks and their commit share neither key nor wallet. */
  lemma {:induction false} SleepersAreApart(env: Env, b: Book, es: seq<Event>, x: nat, y: nat)
    requires Sound(env.fnv, b) && Solvent(b.wallets) && CanRun(env, Boot(b), es) && x != y
    requires var calls := Run(env, Boot(b), es).calls;
             x in calls && y in calls && calls[x].pc.Asleep? && calls[y].pc.Asleep?
    ensures var calls := Run(env, Boot(b), es).calls;
            && calls[x].r.key != calls[y].r.key
            && forall w :: NamesWallet(calls[x].r, w) ==> !NamesWallet(calls[y].r, w)
  {
    var s := Run(env, Boot(b), es);
    BootOk(env, b);
    RunKeepsInv(env, |b.txs|, Boot(b), es);
    hide Run, CanRun, Order;
    if s.calls[x].r.key == s.calls[y].r.key {
      SleepsAlone(s, x, y);
      assert false;
    }
    forall w | NamesWallet(s.calls[x].r, w) ensures !NamesWallet(s.calls[y].r, w) {
      if NamesWallet(s.calls[y].r, w) {
        LocksOfCall(s.calls[x].r, w);
        LocksOfCall(s.calls[y].r, w);
        OneHolder(s, x, y, w);
        assert false;
      }
    }
  }

  // ---------------------------------------------------------------- progress

  /** The lock each blocked call asks for. */
  ghost function Waits(s: State): map<nat, string> {
    map id | id in s.calls && s.calls[id].pc.Acquiring? && s.calls[id].pc.n < |Order(s.calls[id].r)| && !AtHead(s, id)
      :: Order(s.calls[id].r)[s.calls[id].pc.n]
  }

  ghost function Heads(s: State): map<string, nat> {
    map lock | lock in s.lines && s.lines[lock] != [] :: s.lines[lock][0]
  }

  lemma {:induction false} HeadsAscend(s: State)
    requires LinesOk(s)
    ensures StrictOrder(Before) && Ascending(Waits(s), Heads(s), Before)
  {
    BeforeIsStrictOrder();
    forall lock | lock in Heads(s) && Heads(s)[lock] in Waits(s) ensures Before(lock, Waits(s)[Heads(s)[lock]]) {
      HeadAscends(s, lock);
    }
  }

  lemma {:induction false} EarlierIsBefore(order: seq<string>, n: nat, lock: string)
    requires Ascends(order) && n < |order| && lock in order[..n + 1] && lock != order[n]
    ensures Before(lock, order[n])
  {
    var i :| 0 <= i < n + 1 && order[..n + 1][i] == lock;
  }

  lemma {:induction false} HeadAscends(s: State, lock: string)
    requires LinesOk(s) && lock in Heads(s) && Heads(s)[lock] in Waits(s)
    ensures Before(lock, Waits(s)[Heads(s)[lock]])
  {
    var id := Heads(s)[lock];
    var c := s.calls[id];
    OrderNotEmpty(c.r);
    hide Order, Held, Distinct;
    assert LineOk(s, lock) && id in Line(s.lines, lock);
    assert lock in Order(c.r)[..c.pc.n + 1] && lock != Order(c.r)[c.pc.n];
    hide LineOk, Line, Queued;
    EarlierIsBefore(Order(c.r), c.pc.n, lock);
  }

  /** In no reachable state do calls wait for each other in a circle. */
  lemma {:induction false} NoWaitCycle(env: Env, base: nat, s: State, path: seq<nat>)
    requires Inv(env, base, s) && |path| >= 2
    requires forall i :: 0 <= i < |path| - 1 ==> WaitsFor(Waits(s), Heads(s), path[i], path[i + 1])
    ensures path[0] != path[|path| - 1]
  {
    HeadsAscend(s);
    Acyclic(path, Waits(s), Heads(s), Before);
  }

  /** FollowHolders for lock names. */
  lemma {:induction false} FollowHeads(
    id: nat, live: set<nat>, waits: map<nat, string>, heads: map<string, nat>) returns (m: nat)
    requires StrictOrder(Before) && Ascending(waits, heads, Before)
    requires id in live && forall lock :: lock in heads ==> heads[lock] in live
    ensures m in live && (m !in waits || waits[m] !in heads)
  {
    m := FollowHolders(id, live, waits, heads, Before);
  }

  lemma {:induction false} UnblockedFrom(s: State, id: nat) returns (m: nat)
    requires LinesOk(s) && id in s.calls && !s.calls[id].pc.Settled?
    ensures m in s.calls && !s.calls[m].pc.Settled? && m !in Waits(s)
  {
    HeadsAscend(s);
    var live := set k | k in s.calls && !s.calls[k].pc.Settled?;
    forall lock | lock in Heads(s) ensures Heads(s)[lock] in live {
      assert LineOk(s, lock);
      assert Heads(s)[lock] in Line(s.lines, lock);
    }
    m := FollowHeads(id, live, Waits(s), Heads(s));
    if m in Waits(s) {
      WaitedLockHasHead(s, m);
      assert false;
    }
  }

  lemma {:induction false} WaitedLockHasHead(s: State, id: nat)
    requires LinesOk(s) && id in Waits(s)
    ensures Waits(s)[id] in Heads(s)
  {
    var c := s.calls[id];
    hide Order;
    var lock := Order(c.r)[c.pc.n];
    assert lock == Order(c.r)[..c.pc.n + 1][c.pc.n];
    assert LineOk(s, lock) && id in Line(s.lines, lock);
  }

  /** As long as a call is unfinished, some call can go on without outside help. */
  lemma {:induction false} NoDeadlock(env: Env, base: nat, s: State, id: nat, txId: string) returns (e: Event)
    requires Inv(env, base, s) && id in s.calls && !s.calls[id].pc.Settled?
    ensures Enabled(s, e) && exists m :: Steps(e, m)
  {
    var m := UnblockedFrom(s, id);
    assert CallOk(s, s.calls[m]);
    match s.calls[m].pc {
      case Acquiring(_) => e := Grant(m);
      case Asleep => e := Wake(m, txId);
      case Done(_) => e := Finish(m);
    }
    assert Steps(e, m);
  }

  /** The steps a call still has before it. */
  function Left(c: Call): nat {
    match c.pc
    case Acquiring(n) => if n < |Order(c.r)| then |Order(c.r)| - n + 2 else 0
    case Asleep => 2
    case Done(_) => 1
    case Settled(_) => 0
  }

  ghost function AllLeft(calls: map<nat, Call>): nat
    decreases |calls.Keys|
  {
    if id :| id in calls then Left(calls[id]) + AllLeft(calls - {id}) else 0
  }

  lemma {:induction false} AllLeftRemove(calls: map<nat, Call>, id: nat)
    requires id in calls
    ensures AllLeft(calls) == Left(calls[id]) + AllLeft(calls - {id})
    decreases |calls.Keys|
  {
    var k :| k in calls && AllLeft(calls) == Left(calls[k]) + AllLeft(calls - {k});
    if k != id {
      AllLeftRemove(calls - {k}, id);
      AllLeftRemove(calls - {id}, k);
      assert calls - {k} - {id} == calls - {id} - {k};
    }
  }

  lemma {:induction false} OwnStepDecreases(env: Env, s: State, e: Event, id: nat)
    requires Enabled(s, e) && Steps(e, id)
    ensures Left(Next(env, s, e).calls[id]) < Left(s.calls[id])
    ensures Next(env, s, e).calls == s.calls[id := Next(env, s, e).calls[id]]
  {
    hide Order, OnLocked, OnWake;
  }

  /** Every step of a call brings all calls closer to their end; with NoDeadlock, every call ends. */
  lemma {:induction false} StepDecreases(env: Env, s: State, e: Event, id: nat)
    requires Enabled(s, e) && Steps(e, id)
    ensures AllLeft(Next(env, s, e).calls) < AllLeft(s.calls)
  {
    var s' := Next(env, s, e);
    OwnStepDecreases(env, s, e, id);
    hide Next, Left;
    AllLeftRemove(s.calls, id);
    AllLeftRemove(s'.calls, id);
    hide AllLeft;
    assert s'.calls - {id} == s.calls - {id};
  }
}
