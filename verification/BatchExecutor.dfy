/**
  executeBatch: one database call for a whole batch, or one call per job when that fails.

  A ticket is a job together with what its surroundings do to it: whether its context has
  ended when the batch is filtered (`early`), whether it has ended when the fallback reaches
  it (`late`), whether the database is unreachable for its own call (`fault`), and what other
  connections commit or abort just before the fallback reaches it (`others`).  A database
  fault means rollback.  The reference is `Fold`: the jobs in FIFO order, each by itself,
  skipping over failures.
*/
module BatchExecutor {
  import opened Prelude
  import opened Ledger
  import opened Database

  datatype ErrorClass = InvalidInput | NotFound | InsufficientFunds | Internal

  datatype CtxError = Canceled | DeadlineExceeded

  datatype Reply = Completed | Rejected(kind: ErrorClass) | Cancelled(cause: CtxError)

  datatype Job = Job(id: nat, from: int, to: int, amount: int)

  datatype Weather = Weather(early: Option<CtxError>, late: Option<CtxError>, fault: bool, others: seq<Program>)

  datatype Ticket = Ticket(job: Job, weather: Weather)

  /** Committed data and the messages sent on the jobs' result channels. */
  datatype Settled = Settled(store: Store, mail: map<nat, Reply>)

  datatype Fate = Runs | Gone(cause: CtxError) | Faults

  function Classify(e: SqlError): ErrorClass {
    match e
    case SelfTransfer => InvalidInput
    case BadAmount => InvalidInput
    case MissingWallet(_) => NotFound
    case Insufficient(_, _) => InsufficientFunds
    case OutOfRange => Internal
    case ConstraintViolation => Internal
  }

  function ReplyOf(error: Option<SqlError>): Reply {
    if error.None? then Completed else Rejected(Classify(error.value))
  }

  function OpOf(job: Job): Op {
    Move(job.from, job.to, job.amount)
  }

  function OpsOf(ts: seq<Ticket>): seq<Op> {
    if ts == [] then [] else [OpOf(ts[0].job)] + OpsOf(ts[1..])
  }

  /** What becomes of a job; `fast` says that its whole batch went through. */
  function FateOf(w: Weather, fast: bool): Fate {
    if w.early.Some? then Gone(w.early.value)
    else if fast then Runs
    else if w.late.Some? then Gone(w.late.value)
    else if w.fault then Faults
    else Runs
  }

  /** Transactions of other connections, in order. */
  function Meanwhile(st: Store, others: seq<Program>): Store
    decreases |others|
  {
    if others == [] then st else Meanwhile(Exec(st, others[0]).store, others[1..])
  }

  /** The data a job finds; only the calls of the fallback leave room for other writers. */
  function Found(st: Store, w: Weather, fast: bool): Store {
    if w.early.Some? || fast then st else Meanwhile(st, w.others)
  }

  /** One job by itself: its effect and its single message. */
  function Settle(s: Settled, t: Ticket, fast: bool): Settled {
    var st := Found(s.store, t.weather, fast);
    match FateOf(t.weather, fast)
    case Gone(cause) => Settled(st, s.mail[t.job.id := Cancelled(cause)])
    case Faults => Settled(st, s.mail[t.job.id := Rejected(Internal)])
    case Runs =>
      var o := Exec(st, Batch([OpOf(t.job)]));
      Settled(o.store, s.mail[t.job.id := ReplyOf(o.error)])
  }

  function Fold(s: Settled, ts: seq<Ticket>, fast: bool): Settled
    decreases |ts|
  {
    if ts == [] then s else Fold(Settle(s, ts[0], fast), ts[1..], fast)
  }

  /** The jobs whose context is still alive when the batch is filtered. */
  function Kept(ts: seq<Ticket>): seq<Ticket> {
    if ts == [] then []
    else (if ts[0].weather.early.Some? then [] else [ts[0]]) + Kept(ts[1..])
  }

  /** The messages of the filter loop. */
  function EarlyMail(ts: seq<Ticket>): map<nat, Reply> {
    if ts == [] then map[]
    else
      var rest := EarlyMail(ts[1..]);
      var w := ts[0].weather;
      if w.early.Some? then map[ts[0].job.id := Cancelled(w.early.value)] + rest else rest
  }

  /** Whether the one database call for the surviving jobs succeeds. */
  predicate Fast(store: Store, ts: seq<Ticket>, batchFault: bool) {
    !batchFault && RunOps(store.wallets, OpsOf(Kept(ts))).Success?
  }

  /** The meaning of executeBatch. */
  function Flush(s: Settled, ts: seq<Ticket>, batchFault: bool): Settled {
    Fold(s, ts, Fast(s.store, ts, batchFault))
  }

  function Ids(ts: seq<Ticket>): set<nat> {
    set i | 0 <= i < |ts| :: ts[i].job.id
  }

  ghost predicate Distinct(ts: seq<Ticket>) {
    forall i, j :: 0 <= i < j < |ts| ==> ts[i].job.id != ts[j].job.id
  }

  // ---------------------------------------------------------------- laws of the fold

  lemma {:induction false} FoldConcat(s: Settled, xs: seq<Ticket>, ys: seq<Ticket>, fast: bool)
    ensures Fold(s, xs + ys, fast) == Fold(Fold(s, xs, fast), ys, fast)
    decreases |xs|
  {
    if xs == [] {
      assert xs + ys == ys;
    } else {
      assert (xs + ys)[1..] == xs[1..] + ys;
      FoldConcat(Settle(s, xs[0], fast), xs[1..], ys, fast);
    }
  }

  lemma {:induction false} FoldStep(s: Settled, ts: seq<Ticket>, i: nat, fast: bool)
    requires i < |ts|
    ensures Fold(s, ts[..i + 1], fast) == Settle(Fold(s, ts[..i], fast), ts[i], fast)
  {
    assert ts[..i + 1] == ts[..i] + [ts[i]];
    FoldConcat(s, ts[..i], [ts[i]], fast);
    assert [ts[i]][1..] == [];
  }

  lemma {:induction false} KeptConcat(xs: seq<Ticket>, ys: seq<Ticket>)
    ensures Kept(xs + ys) == Kept(xs) + Kept(ys)
    ensures EarlyMail(xs + ys) == EarlyMail(xs) + EarlyMail(ys)
  {
    if xs == [] {
      assert xs + ys == ys;
    } else {
      assert (xs + ys)[1..] == xs[1..] + ys;
      KeptConcat(xs[1..], ys);
    }
  }

  lemma {:induction false} KeptStep(ts: seq<Ticket>, i: nat)
    requires i < |ts|
    ensures ts[i].weather.early.Some? ==>
              Kept(ts[..i + 1]) == Kept(ts[..i])
              && EarlyMail(ts[..i + 1]) == EarlyMail(ts[..i])[ts[i].job.id := Cancelled(ts[i].weather.early.value)]
    ensures ts[i].weather.early.None? ==>
              Kept(ts[..i + 1]) == Kept(ts[..i]) + [ts[i]] && EarlyMail(ts[..i + 1]) == EarlyMail(ts[..i])
  {
    assert ts[..i + 1] == ts[..i] + [ts[i]];
    KeptConcat(ts[..i], [ts[i]]);
    assert [ts[i]][1..] == [];
    assert Kept([ts[i]]) == if ts[i].weather.early.Some? then [] else [ts[i]];
  }

  lemma {:induction false} DistinctHead(ts: seq<Ticket>)
    requires ts != [] && Distinct(ts)
    ensures ts[0].job.id !in Ids(ts[1..]) && Distinct(ts[1..])
  {
  }

  lemma {:induction false} KeptTickets(ts: seq<Ticket>)
    ensures forall t :: t in Kept(ts) ==> t in ts && t.weather.early.None?
  {
    if ts == [] {
    } else {
      KeptTickets(ts[1..]);
    }
  }

  lemma {:induction false} KeptIds(ts: seq<Ticket>)
    ensures EarlyMail(ts).Keys + Ids(Kept(ts)) == Ids(ts)
  {
    if ts == [] {
    } else {
      KeptIds(ts[1..]);
      IdsHead(ts);
      KeptHead(ts);
      if ts[0].weather.early.None? {
        IdsHead(Kept(ts));
      }
    }
  }

  lemma {:induction false} KeptHead(ts: seq<Ticket>)
    requires ts != []
    ensures if ts[0].weather.early.Some? then Kept(ts) == Kept(ts[1..])
            else Kept(ts) != [] && Kept(ts)[0] == ts[0] && Kept(ts)[1..] == Kept(ts[1..])
  {
    if ts[0].weather.early.Some? {
      assert Kept(ts) == [] + Kept(ts[1..]);
    } else {
      assert Kept(ts) == [ts[0]] + Kept(ts[1..]);
    }
  }

  lemma {:induction false} KeptDistinct(ts: seq<Ticket>)
    requires Distinct(ts)
    ensures Distinct(Kept(ts)) && EarlyMail(ts).Keys !! Ids(Kept(ts))
  {
    if ts == [] {
    } else {
      DistinctHead(ts);
      KeptDistinct(ts[1..]);
      KeptIds(ts[1..]);
      KeptHead(ts);
      if ts[0].weather.early.None? {
        IdsHead(Kept(ts));
        DistinctCons(ts[0], Kept(ts[1..]));
      }
    }
  }

  lemma {:induction false} DistinctCons(t: Ticket, ts: seq<Ticket>)
    requires Distinct(ts) && t.job.id !in Ids(ts)
    ensures Distinct([t] + ts)
  {
    assert forall i :: 0 <= i < |ts| ==> ts[i].job.id in Ids(ts);
  }

  lemma {:induction false} IdsHead(ts: seq<Ticket>)
    requires ts != []
    ensures Ids(ts) == {ts[0].job.id} + Ids(ts[1..])
  {
    forall k | k in Ids(ts) ensures k in {ts[0].job.id} + Ids(ts[1..]) {
      var i :| 0 <= i < |ts| && ts[i].job.id == k;
      if i > 0 {
        assert ts[1..][i - 1].job.id == k;
      }
    }
    forall k | k in Ids(ts[1..]) ensures k in Ids(ts) {
      var i :| 0 <= i < |ts[1..]| && ts[1..][i].job.id == k;
      assert ts[i + 1].job.id == k;
    }
  }

  /** Answering the cancelled jobs first makes no difference. */
  lemma {:induction false} FilterFirst(s: Settled, ts: seq<Ticket>, fast: bool)
    requires Distinct(ts)
    ensures Fold(s, ts, fast) == Fold(s.(mail := s.mail + EarlyMail(ts)), Kept(ts), fast)
    decreases |ts|
  {
    if ts == [] {
      assert s.mail + EarlyMail(ts) == s.mail;
    } else {
      DistinctHead(ts);
      KeptHead(ts);
      FilterHead(s, ts, fast);
      hide Settle, Distinct, Kept, EarlyMail;
      FilterFirst(Settle(s, ts[0], fast), ts[1..], fast);
    }
  }

  /** The filter answers a dead head at once and leaves a live one for later. */
  lemma {:induction false} FilterHead(s: Settled, ts: seq<Ticket>, fast: bool)
    requires ts != [] && Distinct(ts)
    ensures var s1 := Settle(s, ts[0], fast);
            var s2 := s.(mail := s.mail + EarlyMail(ts));
            s1.(mail := s1.mail + EarlyMail(ts[1..])) ==
            if ts[0].weather.early.Some? then s2 else Settle(s2, ts[0], fast)
  {
    var t, rest := ts[0], ts[1..];
    DistinctHead(ts);
    KeptIds(rest);
    hide Kept, Distinct, Ids, Exec, Meanwhile;
    if t.weather.early.Some? {
      assert Settle(s, t, fast).mail + EarlyMail(rest) == s.mail + EarlyMail(ts);
    } else {
      SettleFrame(s, t, fast, EarlyMail(rest));
    }
  }

  lemma {:induction false} SettleFrame(s: Settled, t: Ticket, fast: bool, other: map<nat, Reply>)
    requires t.job.id !in other
    ensures Settle(s.(mail := s.mail + other), t, fast) ==
            Settle(s, t, fast).(mail := Settle(s, t, fast).mail + other)
  {
    var m := Settle(s, t, fast).mail[t.job.id];
    assert (s.mail + other)[t.job.id := m] == s.mail[t.job.id := m] + other;
  }

  /** When the one call succeeds it does what the jobs do one by one, and all succeed. */
  lemma {:induction false} FastIsFold(s: Settled, ts: seq<Ticket>)
    requires forall t :: t in ts ==> t.weather.early.None?
    requires RunOps(s.store.wallets, OpsOf(ts)).Success?
    ensures Fold(s, ts, true).store == Exec(s.store, Batch(OpsOf(ts))).store
    ensures forall k :: k in Fold(s, ts, true).mail ==>
              Fold(s, ts, true).mail[k] == Completed || (k in s.mail && Fold(s, ts, true).mail[k] == s.mail[k])
    decreases |ts|
  {
    if ts == [] {
      assert s.store.rows + RowsOf(OpsOf(ts)) == s.store.rows;
    } else {
      FirstOfBatch(s, ts);
      var s1 := Settle(s, ts[0], true);
      assert ts[0] in ts;
      FastIsFold(s1, ts[1..]);
      assert Fold(s, ts, true) == Fold(s1, ts[1..], true);
      RowsOfHead(s.store.rows, OpsOf(ts));
    }
  }

  lemma {:induction false} RowsOfHead(rows: seq<Row>, ops: seq<Op>)
    requires ops != []
    ensures rows + RowsOf(ops) == rows + [RowOf(ops[0])] + RowsOf(ops[1..])
  {
    assert RowsOf(ops) == [RowOf(ops[0])] + RowsOf(ops[1..]);
  }

  lemma {:induction false} FirstOfBatch(s: Settled, ts: seq<Ticket>)
    requires ts != [] && ts[0].weather.early.None?
    requires RunOps(s.store.wallets, OpsOf(ts)).Success?
    ensures var b := ApplyOp(s.store.wallets, OpOf(ts[0].job)).value;
            && ApplyOp(s.store.wallets, OpOf(ts[0].job)).Success?
            && RunOps(s.store.wallets, OpsOf(ts)) == RunOps(b, OpsOf(ts[1..]))
            && OpsOf(ts)[1..] == OpsOf(ts[1..]) && OpsOf(ts)[0] == OpOf(ts[0].job)
            && Settle(s, ts[0], true) ==
               Settled(Store(b, s.store.rows + [RowOf(OpOf(ts[0].job))]), s.mail[ts[0].job.id := Completed])
  {
    SingleOp(s.store.wallets, OpOf(ts[0].job));
    assert OpsOf(ts)[1..] == OpsOf(ts[1..]);
  }

  lemma {:induction false} OpsOfPrefix(ts: seq<Ticket>, i: nat)
    requires i <= |ts|
    ensures |OpsOf(ts)| == |ts| && OpsOf(ts[..i]) == OpsOf(ts)[..i]
    ensures i < |ts| ==> OpsOf(ts)[i] == OpOf(ts[i].job)
  {
    if ts != [] && i > 0 {
      assert ts[..i][1..] == ts[1..][..i - 1];
      OpsOfPrefix(ts[1..], i - 1);
    } else if ts != [] {
      OpsOfPrefix(ts[1..], 0);
    }
  }

  /** In a batch that goes through, every surviving job is answered with success. */
  lemma {:induction false} FastReply(s: Settled, ts: seq<Ticket>, i: nat)
    requires forall t :: t in ts ==> t.weather.early.None?
    requires RunOps(s.store.wallets, OpsOf(ts)).Success? && i < |ts|
    ensures Fold(s, ts[..i + 1], true).mail == Fold(s, ts[..i], true).mail[ts[i].job.id := Completed]
  {
    FoldStep(s, ts, i, true);
    OpsOfPrefix(ts, i);
    var ops := OpsOf(ts);
    assert ops == ops[..i] + ops[i..];
    RunOpsConcat(s.store.wallets, ops[..i], ops[i..]);
    FastIsFold(s, ts[..i]);
    var b := RunOps(s.store.wallets, ops[..i]).value;
    RunOpsStep(s.store.wallets, ops, i);
    SingleOp(b, ops[i]);
    assert ts[i] in ts;
  }

  // ---------------------------------------------------------------- batching is invisible

  /** Contexts do not change under way, the database is reachable and nobody else writes. */
  ghost predicate Calm(ts: seq<Ticket>) {
    forall t :: t in ts ==> t.weather.late == t.weather.early && !t.weather.fault && t.weather.others == []
  }

  lemma {:induction false} CalmFold(s: Settled, ts: seq<Ticket>, fast: bool)
    requires Calm(ts)
    ensures Fold(s, ts, fast) == Fold(s, ts, false)
    decreases |ts|
  {
    if ts == [] {
    } else {
      assert ts[0] in ts;
      CalmFold(Settle(s, ts[0], fast), ts[1..], fast);
    }
  }

  function Flatten(chunks: seq<seq<Ticket>>): seq<Ticket> {
    if chunks == [] then [] else chunks[0] + Flatten(chunks[1..])
  }

  /** Flush one batch after the other; `faults` says which batch calls are lost. */
  function FlushAll(s: Settled, chunks: seq<seq<Ticket>>, faults: seq<bool>): Settled
    requires |faults| == |chunks|
    decreases |chunks|
  {
    if chunks == [] then s else FlushAll(Flush(s, chunks[0], faults[0]), chunks[1..], faults[1..])
  }

  lemma {:induction false} FlushAllIsFold(s: Settled, chunks: seq<seq<Ticket>>, faults: seq<bool>)
    requires |faults| == |chunks| && Calm(Flatten(chunks))
    ensures FlushAll(s, chunks, faults) == Fold(s, Flatten(chunks), false)
    decreases |chunks|
  {
    if chunks == [] {
    } else {
      var fast := Fast(s.store, chunks[0], faults[0]);
      assert forall t :: t in chunks[0] ==> t in Flatten(chunks);
      assert forall t :: t in Flatten(chunks[1..]) ==> t in Flatten(chunks);
      CalmFold(s, chunks[0], fast);
      FoldConcat(s, chunks[0], Flatten(chunks[1..]), false);
      FlushAllIsFold(Flush(s, chunks[0], faults[0]), chunks[1..], faults[1..]);
    }
  }

  /**
    However a job stream is cut into batches, and whichever batch calls are lost, the
    committed data and every reply are the same.
  */
  lemma {:induction false} BatchingIsInvisible(
    s: Settled, xs: seq<seq<Ticket>>, xfaults: seq<bool>, ys: seq<seq<Ticket>>, yfaults: seq<bool>)
    requires |xfaults| == |xs| && |yfaults| == |ys|
    requires Flatten(xs) == Flatten(ys) && Calm(Flatten(xs))
    ensures FlushAll(s, xs, xfaults) == FlushAll(s, ys, yfaults)
  {
    FlushAllIsFold(s, xs, xfaults);
    FlushAllIsFold(s, ys, yfaults);
  }

  /** A job the contexts and the database let through is answered as if it ran alone, in turn. */
  lemma {:induction false} ReplyIsItsOwn(s: Settled, ts: seq<Ticket>, batchFault: bool, i: nat)
    requires Distinct(ts) && i < |ts|
    ensures var before := Fold(s, ts[..i], Fast(s.store, ts, batchFault));
            ts[i].job.id in Flush(s, ts, batchFault).mail
            && Flush(s, ts, batchFault).mail[ts[i].job.id] ==
               Settle(before, ts[i], Fast(s.store, ts, batchFault)).mail[ts[i].job.id]
  {
    var fast := Fast(s.store, ts, batchFault);
    FoldStep(s, ts, i, fast);
    var after := Fold(s, ts[..i + 1], fast);
    assert ts == ts[..i + 1] + ts[i + 1..];
    FoldConcat(s, ts[..i + 1], ts[i + 1..], fast);
    FoldMail(after, ts[i + 1..], fast);
    assert ts[i].job.id !in Ids(ts[i + 1..]);
  }

  /** A run over distinct jobs writes to exactly their mailboxes. */
  lemma {:induction false} FoldMail(s: Settled, ts: seq<Ticket>, fast: bool)
    ensures Fold(s, ts, fast).mail.Keys == s.mail.Keys + Ids(ts)
    ensures forall k :: k in s.mail && k !in Ids(ts) ==> Fold(s, ts, fast).mail[k] == s.mail[k]
    decreases |ts|
  {
    if ts == [] {
    } else {
      IdsHead(ts);
      FoldMail(Settle(s, ts[0], fast), ts[1..], fast);
    }
  }

  lemma {:induction false} StoreIgnoresMail(s: Settled, mail: map<nat, Reply>, ts: seq<Ticket>, fast: bool)
    ensures Fold(s.(mail := mail), ts, fast).store == Fold(s, ts, fast).store
    decreases |ts|
  {
    if ts == [] {
    } else {
      var s1, s2 := Settle(s, ts[0], fast), Settle(s.(mail := mail), ts[0], fast);
      assert s2 == s1.(mail := s2.mail);
      hide Settle;
      StoreIgnoresMail(s1, s2.mail, ts[1..], fast);
    }
  }

  lemma {:induction false} DistinctWithout(ts: seq<Ticket>, i: nat)
    requires Distinct(ts) && i < |ts|
    ensures Distinct(ts[..i] + ts[i + 1..])
  {
  }

  lemma {:induction false} KeptWithout(ts: seq<Ticket>, i: nat)
    requires i < |ts| && ts[i].weather.early.Some?
    ensures Kept(ts[..i] + ts[i + 1..]) == Kept(ts)
  {
    assert ts == ts[..i + 1] + ts[i + 1..];
    KeptConcat(ts[..i + 1], ts[i + 1..]);
    KeptStep(ts, i);
    KeptConcat(ts[..i], ts[i + 1..]);
  }

  /**
    A job whose context ends before the filter is told so and never executed: the batch does
    to the data what it would do without the job.
  */
  lemma {:induction false} EarlyIsCancelled(s: Settled, ts: seq<Ticket>, batchFault: bool, i: nat)
    requires Distinct(ts) && i < |ts| && ts[i].weather.early.Some?
    ensures ts[i].job.id in Flush(s, ts, batchFault).mail
    ensures Flush(s, ts, batchFault).mail[ts[i].job.id] == Cancelled(ts[i].weather.early.value)
    ensures Flush(s, ts, batchFault).store == Flush(s, ts[..i] + ts[i + 1..], batchFault).store
  {
    var rest := ts[..i] + ts[i + 1..];
    var fast := Fast(s.store, ts, batchFault);
    KeptWithout(ts, i);
    DistinctWithout(ts, i);
    assert Fast(s.store, rest, batchFault) == fast;
    hide Fold, Fast, Kept, EarlyMail;
    ReplyIsItsOwn(s, ts, batchFault, i);
    hide Distinct;
    FilterFirst(s, ts, fast);
    FilterFirst(s, rest, fast);
    StoreIgnoresMail(s, s.mail + EarlyMail(ts), Kept(ts), fast);
    StoreIgnoresMail(s, s.mail + EarlyMail(rest), Kept(ts), fast);
  }

  // ---------------------------------------------------------------- each job's answer and effect

  /** What a transfer is told that runs by itself on these balances. */
  function AnswerTo(b: Balances, job: Job): Reply {
    if job.from == job.to || job.amount <= 0 then Rejected(InvalidInput)
    else if job.from !in b || job.to !in b then Rejected(NotFound)
    else if b[job.from] < job.amount then Rejected(InsufficientFunds)
    else if b[job.to] + job.amount > 0x7FFF_FFFF_FFFF_FFFF then Rejected(Internal)
    else Completed
  }

  /** The ledger after it: both balances moved and one row more, or nothing changed. */
  function Paid(st: Store, job: Job): Store {
    var b := st.wallets;
    if AnswerTo(b, job) != Completed then st
    else
      Store(b[job.from := b[job.from] - job.amount][job.to := b[job.to] + job.amount],
            st.rows + [Row(Transfer, job.from, Some(job.to), job.amount)])
  }

  lemma {:induction false} AloneIsAnswered(st: Store, job: Job)
    ensures var o := Exec(st, Batch([OpOf(job)]));
            ReplyOf(o.error) == AnswerTo(st.wallets, job) && o.store == Paid(st, job)
  {
    SingleOp(st.wallets, OpOf(job));
  }

  /** The one call for the jobs that were alive at the filter does not go through. */
  ghost predicate FallsBack(s: Settled, ts: seq<Ticket>, batchFault: bool) {
    batchFault || RunOps(s.store.wallets, OpsOf(Kept(ts))).Failure?
  }

  /** A job whose context ends while the fallback runs is told so, and moves nothing. */
  lemma {:induction false} LateIsCancelled(s: Settled, ts: seq<Ticket>, batchFault: bool, i: nat, cause: CtxError)
    requires Distinct(ts) && i < |ts| && FallsBack(s, ts, batchFault)
    requires ts[i].weather.early.None? && ts[i].weather.late == Some(cause)
    ensures ts[i].job.id in Flush(s, ts, batchFault).mail
    ensures Flush(s, ts, batchFault).mail[ts[i].job.id] == Cancelled(cause)
    ensures Fold(s, ts[..i + 1], false).store == Meanwhile(Fold(s, ts[..i], false).store, ts[i].weather.others)
  {
    FoldStep(s, ts, i, false);
    ReplyIsItsOwn(s, ts, batchFault, i);
    hide Fold, Meanwhile;
  }

  /**
    A job that the fallback reaches alive runs by itself on what it finds: the data left by
    the jobs before it, and by the other writers.  If its call is lost it changes nothing.
  */
  lemma {:induction false} FallbackRunsAlone(s: Settled, ts: seq<Ticket>, batchFault: bool, i: nat)
    requires Distinct(ts) && i < |ts| && FallsBack(s, ts, batchFault)
    requires ts[i].weather.early.None? && ts[i].weather.late.None?
    ensures ts[i].job.id in Flush(s, ts, batchFault).mail
    ensures var job, reply := ts[i].job, Flush(s, ts, batchFault).mail[ts[i].job.id];
            var found := Meanwhile(Fold(s, ts[..i], false).store, ts[i].weather.others);
            var after := Fold(s, ts[..i + 1], false).store;
            if ts[i].weather.fault then reply == Rejected(Internal) && after == found
            else reply == AnswerTo(found.wallets, job) && after == Paid(found, job)
  {
    FoldStep(s, ts, i, false);
    ReplyIsItsOwn(s, ts, batchFault, i);
    AloneIsAnswered(Meanwhile(Fold(s, ts[..i], false).store, ts[i].weather.others), ts[i].job);
    hide Fold, Meanwhile, Exec, AnswerTo, Paid;
  }

  lemma {:induction false} FirstIsCompleted(s: Settled, ts: seq<Ticket>)
    requires ts != [] && RunOps(s.store.wallets, OpsOf(Kept(ts))).Success?
    ensures var s1 := Settle(s, ts[0], true);
            && RunOps(s1.store.wallets, OpsOf(Kept(ts[1..]))).Success?
            && (ts[0].weather.early.None? ==> s1.mail == s.mail[ts[0].job.id := Completed])
  {
    KeptHead(ts);
    if ts[0].weather.early.None? {
      FirstOfBatch(s, Kept(ts));
    }
  }

  lemma {:induction false} AliveIsCompleted(s: Settled, ts: seq<Ticket>, i: nat)
    requires Distinct(ts) && i < |ts| && ts[i].weather.early.None?
    requires RunOps(s.store.wallets, OpsOf(Kept(ts))).Success?
    ensures ts[i].job.id in Fold(s, ts, true).mail && Fold(s, ts, true).mail[ts[i].job.id] == Completed
    decreases |ts|
  {
    DistinctHead(ts);
    FirstIsCompleted(s, ts);
    hide Settle, Kept, OpsOf, RunOps;
    if i == 0 {
      FoldMail(Settle(s, ts[0], true), ts[1..], true);
    } else {
      AliveIsCompleted(Settle(s, ts[0], true), ts[1..], i - 1);
    }
  }

  /**
    When the one call goes through nothing else counts: every job alive at the filter is told
    success, and the data change by that call alone.
  */
  lemma {:induction false} FastIgnoresWeather(s: Settled, ts: seq<Ticket>, batchFault: bool, i: nat)
    requires Distinct(ts) && i < |ts| && ts[i].weather.early.None? && !FallsBack(s, ts, batchFault)
    ensures ts[i].job.id in Flush(s, ts, batchFault).mail
    ensures Flush(s, ts, batchFault).mail[ts[i].job.id] == Completed
    ensures Flush(s, ts, batchFault).store == Exec(s.store, Batch(OpsOf(Kept(ts)))).store
  {
    AliveIsCompleted(s, ts, i);
    FilterFirst(s, ts, true);
    KeptTickets(ts);
    FastIsFold(s.(mail := s.mail + EarlyMail(ts)), Kept(ts));
    hide Fold, Kept, EarlyMail, Distinct;
  }

  /** The rows that a foreign program adds. */
  function PostedRows(st: Store, p: Program): seq<Row> {
    if Exec(st, p).error.Some? then []
    else if p.Create? then (if p.balance == 0 then [] else [Row(Deposit, p.id, None, p.balance)])
    else RowsOf(Ops(p))
  }

  function PostedMeanwhile(st: Store, others: seq<Program>): seq<Row>
    decreases |others|
  {
    if others == [] then []
    else PostedRows(st, others[0]) + PostedMeanwhile(Exec(st, others[0]).store, others[1..])
  }

  lemma {:induction false} ExecPosts(st: Store, p: Program)
    ensures Exec(st, p).store.rows == st.rows + PostedRows(st, p)
  {
  }

  lemma {:induction false} MeanwhilePosts(st: Store, others: seq<Program>)
    ensures Meanwhile(st, others).rows == st.rows + PostedMeanwhile(st, others)
    decreases |others|
  {
    if others == [] {
    } else {
      var first, after := others[0], Exec(st, others[0]).store;
      ExecPosts(st, first);
      MeanwhilePosts(after, others[1..]);
      InThree(st.rows, PostedRows(st, first), PostedMeanwhile(after, others[1..]));
      hide Exec, PostedRows;
    }
  }

  /** The rows between a job and the one before it, and the job's own. */
  function WonBy(s: Settled, mail: map<nat, Reply>, t: Ticket, fast: bool): seq<Row> {
    (if t.weather.early.Some? || fast then [] else PostedMeanwhile(s.store, t.weather.others))
    + if t.job.id in mail && mail[t.job.id] == Completed
      then [Row(Transfer, t.job.from, Some(t.job.to), t.job.amount)] else []
  }

  /** What a flush posts: one row per job answered with success, in job order, and the rows of other writers. */
  function Won(s: Settled, mail: map<nat, Reply>, ts: seq<Ticket>, fast: bool): seq<Row>
    decreases |ts|
  {
    if ts == [] then []
    else
      WonBy(s, mail, ts[0], fast) + Won(Settle(s, ts[0], fast), mail, ts[1..], fast)
  }

  lemma {:induction false} RowsAreWins(s: Settled, ts: seq<Ticket>, fast: bool)
    requires Distinct(ts)
    ensures Fold(s, ts, fast).store.rows == s.store.rows + Won(s, Fold(s, ts, fast).mail, ts, fast)
    decreases |ts|
  {
    if ts != [] {
      var s1 := Settle(s, ts[0], fast);
      var mail := Fold(s, ts, fast).mail;
      WonFirst(s, ts, fast);
      DistinctHead(ts);
      hide Settle, Distinct, WonBy, Ids, Fold, Won;
      RowsAreWins(s1, ts[1..], fast);
      InThree(s.store.rows, WonBy(s, mail, ts[0], fast), Won(s1, mail, ts[1..], fast));
    } else {
      assert s.store.rows + [] == s.store.rows;
    }
  }

  lemma {:induction false} InThree(a: seq<Row>, b: seq<Row>, c: seq<Row>)
    ensures (a + b) + c == a + (b + c)
  {
  }

  lemma {:induction false} WonFirst(s: Settled, ts: seq<Ticket>, fast: bool)
    requires ts != [] && Distinct(ts)
    ensures var s1, mail := Settle(s, ts[0], fast), Fold(s, ts, fast).mail;
            && s1.store.rows == s.store.rows + WonBy(s, mail, ts[0], fast)
            && Won(s, mail, ts, fast) == WonBy(s, mail, ts[0], fast) + Won(s1, mail, ts[1..], fast)
            && Fold(s, ts, fast) == Fold(s1, ts[1..], fast)
  {
    var s1 := Settle(s, ts[0], fast);
    DistinctHead(ts);
    FoldMail(s1, ts[1..], fast);
    RowIsWin(s, ts[0], fast);
    hide Settle, Distinct, Ids;
  }

  lemma {:induction false} RowIsWin(s: Settled, t: Ticket, fast: bool)
    ensures var s1 := Settle(s, t, fast);
            t.job.id in s1.mail && s1.store.rows == s.store.rows + WonBy(s, s1.mail, t, fast)
  {
    MeanwhilePosts(s.store, t.weather.others);
    SingleOp(Found(s.store, t.weather, fast).wallets, OpOf(t.job));
    hide Meanwhile, PostedMeanwhile;
  }

  lemma {:induction false} MeanwhileKeepsBooks(st: Store, others: seq<Program>)
    requires Books(st)
    ensures Books(Meanwhile(st, others))
    decreases |others|
  {
    if others == [] {
    } else {
      ExecKeepsBooks(st, others[0]);
      MeanwhileKeepsBooks(Exec(st, others[0]).store, others[1..]);
    }
  }

  lemma {:induction false} FoldKeepsBooks(s: Settled, ts: seq<Ticket>, fast: bool)
    requires Books(s.store)
    ensures Books(Fold(s, ts, fast).store)
    decreases |ts|
  {
    if ts == [] {
    } else {
      MeanwhileKeepsBooks(s.store, ts[0].weather.others);
      ExecKeepsBooks(Found(s.store, ts[0].weather, fast), Batch([OpOf(ts[0].job)]));
      hide Books, Exec, Meanwhile;
      FoldKeepsBooks(Settle(s, ts[0], fast), ts[1..], fast);
    }
  }

  // ---------------------------------------------------------------- the code

  lemma {:induction false} UnansweredAt(ts: seq<Ticket>, i: nat)
    requires Distinct(ts) && i < |ts|
    ensures ts[i].job.id in Ids(ts) && ts[i].job.id !in Ids(ts[..i]) && ts[i].job.id !in EarlyMail(ts[..i])
  {
    KeptIds(ts[..i]);
  }

  class TransferRepository {
    const db: Db

    constructor (db: Db)
      ensures this.db == db
    {
      this.db := db;
    }

    /** ExecuteBatch: nothing to do for no items, else one statement and its error class. */
    method ExecuteBatch(lost: bool, from: seq<int>, to: seq<int>, amounts: seq<int>)
      returns (err: Option<ErrorClass>)
      requires db.Valid() && |from| == |to| == |amounts|
      modifies db`wallets, db`transactions, db`entries, db`txSeq
      ensures db.Valid()
      ensures var o := Exec(old(db.View()), Batch(Moves(from, to, amounts)));
              if lost && |from| > 0 then err == Some(Internal) && db.View() == old(db.View())
              else db.View() == o.store
                   && err == if o.error.None? then None else Some(Classify(o.error.value))
    {
      if |from| == 0 {
        assert Moves(from, to, amounts) == [];
        assert old(db.View()).rows + [] == old(db.View()).rows;
        return None;
      }
      if lost {
        return Some(Internal);
      }
      var e := db.ProcessTransferBatch(from, to, amounts);
      err := if e.None? then None else Some(Classify(e.value));
    }

    /** ExecuteTransfer: a batch of one. */
    method ExecuteTransfer(lost: bool, from: int, to: int, amount: int) returns (err: Option<ErrorClass>)
      requires db.Valid()
      modifies db`wallets, db`transactions, db`entries, db`txSeq
      ensures db.Valid()
      ensures var o := Exec(old(db.View()), Batch([Move(from, to, amount)]));
              if lost then err == Some(Internal) && db.View() == old(db.View())
              else db.View() == o.store
                   && err == if o.error.None? then None else Some(Classify(o.error.value))
    {
      assert Moves([from], [to], [amount]) == [Move(from, to, amount)];
      err := ExecuteBatch(lost, [from], [to], [amount]);
    }
  }

  class Executor {
    const repo: TransferRepository
    var mailbox: map<nat, Reply>   // every message ever sent on a job's one-slot channel

    constructor (repo: TransferRepository)
      ensures this.repo == repo && mailbox == map[]
    {
      this.repo := repo;
      mailbox := map[];
    }

    function State(): Settled
      reads this, repo.db
    {
      Settled(repo.db.View(), mailbox)
    }

    /** A send on a one-slot channel: it needs the slot never to have been used. */
    method Send(id: nat, reply: Reply)
      requires id !in mailbox
      modifies this`mailbox
      ensures mailbox == old(mailbox)[id := reply]
    {
      mailbox := mailbox[id := reply];
    }

    /** The filter loop: answer the jobs whose context has ended, keep the others. */
    method Filter(batch: seq<Ticket>) returns (valid: seq<Ticket>)
      requires Distinct(batch) && Ids(batch) !! mailbox.Keys
      modifies this`mailbox
      ensures valid == Kept(batch)
      ensures mailbox == old(mailbox) + EarlyMail(batch)
    {
      valid := [];
      for i := 0 to |batch|
        invariant valid == Kept(batch[..i])
        invariant mailbox == old(mailbox) + EarlyMail(batch[..i])
      {
        KeptStep(batch, i);
        UnansweredAt(batch, i);
        hide Kept, EarlyMail, Distinct;
        if batch[i].weather.early.Some? {
          Send(batch[i].job.id, Cancelled(batch[i].weather.early.value));
        } else {
          valid := valid + [batch[i]];
        }
      }
      assert batch[..|batch|] == batch;
    }

    /** The argument arrays of the one call. */
    method Columns(valid: seq<Ticket>) returns (from: seq<int>, to: seq<int>, amounts: seq<int>)
      ensures |from| == |to| == |amounts| == |valid|
      ensures Moves(from, to, amounts) == OpsOf(valid)
    {
      from, to, amounts := [], [], [];
      for i := 0 to |valid|
        invariant |from| == |to| == |amounts| == i
        invariant Moves(from, to, amounts) == OpsOf(valid[..i])
      {
        OpsOfPrefix(valid, i);
        OpsOfPrefix(valid, i + 1);
        from := from + [valid[i].job.from];
        to := to + [valid[i].job.to];
        amounts := amounts + [valid[i].job.amount];
        assert Moves(from, to, amounts) == OpsOf(valid[..i]) + [OpOf(valid[i].job)];
      }
      assert valid[..|valid|] == valid;
    }

    /** Fast path: tell every job that it went through. */
    method AnswerAll(valid: seq<Ticket>, ghost s: Settled)
      requires Distinct(valid) && Ids(valid) !! mailbox.Keys
      requires forall t :: t in valid ==> t.weather.early.None?
      requires s.mail == mailbox && RunOps(s.store.wallets, OpsOf(valid)).Success?
      modifies this`mailbox
      ensures mailbox == Fold(s, valid, true).mail
    {
      for i := 0 to |valid|
        invariant mailbox == Fold(s, valid[..i], true).mail
      {
        FoldMail(s, valid[..i], true);
        FastReply(s, valid, i);
        UnansweredAt(valid, i);
        hide Fold, Distinct;
        Send(valid[i].job.id, Completed);
      }
      assert valid[..|valid|] == valid;
    }

    /** What other connections do while the fallback runs. */
    method WriteMeanwhile(others: seq<Program>)
      requires repo.db.Valid()
      modifies repo.db
      ensures repo.db.Valid() && repo.db.View() == Meanwhile(old(repo.db.View()), others)
    {
      ghost var st := repo.db.View();
      for i := 0 to |others|
        invariant repo.db.Valid()
        invariant Meanwhile(repo.db.View(), others[i..]) == Meanwhile(st, others)
      {
        assert others[i..][1..] == others[i + 1..];
        repo.db.RunForeign(others[i]);
      }
    }

    /** One job of the fallback. */
    method OneAlone(t: Ticket)
      requires repo.db.Valid() && t.weather.early.None? && t.job.id !in mailbox
      modifies this`mailbox, repo.db
      ensures repo.db.Valid() && State() == Settle(old(State()), t, false)
    {
      WriteMeanwhile(t.weather.others);
      if t.weather.late.Some? {
        Send(t.job.id, Cancelled(t.weather.late.value));
      } else {
        var e := repo.ExecuteTransfer(t.weather.fault, t.job.from, t.job.to, t.job.amount);
        Send(t.job.id, if e.None? then Completed else Rejected(e.value));
      }
    }

    /** Slow path: each job by itself. */
    method OneByOne(valid: seq<Ticket>)
      requires repo.db.Valid()
      requires Distinct(valid) && Ids(valid) !! mailbox.Keys
      requires forall t :: t in valid ==> t.weather.early.None?
      modifies this`mailbox, repo.db
      ensures repo.db.Valid()
      ensures State() == Fold(old(State()), valid, false)
    {
      ghost var s := State();
      for i := 0 to |valid|
        invariant repo.db.Valid()
        invariant State() == Fold(s, valid[..i], false)
      {
        FoldMail(s, valid[..i], false);
        FoldStep(s, valid, i, false);
        assert valid[i] in valid;
        UnansweredAt(valid, i);
        hide Fold, Settle, Distinct, Ids;
        OneAlone(valid[i]);
      }
      assert valid[..|valid|] == valid;
    }

    /** executeBatch refines the FIFO fold; every job gets exactly one message. */
    method ExecuteBatch(batch: seq<Ticket>, batchFault: bool)
      requires repo.db.Valid()
      requires Distinct(batch) && Ids(batch) !! mailbox.Keys
      modifies this`mailbox, repo.db
      ensures repo.db.Valid()
      ensures State() == Flush(old(State()), batch, batchFault)
      ensures mailbox.Keys == old(mailbox).Keys + Ids(batch)
    {
      ghost var s := State();
      ghost var fast := Fast(s.store, batch, batchFault);
      KeptIds(batch);
      KeptDistinct(batch);
      KeptTickets(batch);
      FilterFirst(s, batch, fast);
      FoldMail(s, batch, fast);
      var valid := Filter(batch);
      ghost var s1 := State();
      if |valid| == 0 {
        return;
      }
      var from, to, amounts := Columns(valid);
      var err := repo.ExecuteBatch(batchFault, from, to, amounts);
      if err.None? {
        FastIsFold(s1, valid);
        AnswerAll(valid, s1);
      } else {
        OneByOne(valid);
      }
    }
  }
}
