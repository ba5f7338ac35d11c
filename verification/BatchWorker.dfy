/**
  The micro-batching worker: a bounded queue, a buffer of fewer than 50 jobs, a one-shot
  timer and a stop signal.  `Next` gives the effect of each event; a run is an arbitrary
  sequence of enabled events.  What the surroundings do is fixed by an `Env`: the weather of
  each job, by id, and which batch calls are lost, by flush number.
*/
module BatchWorker {
  import opened Ledger
  import opened BatchExecutor

  const BATCH_SIZE := 50

  datatype Timer = Stopped | Armed | Fired

  datatype Phase = Selecting | Draining | Exited

  datatype Env = Env(weather: nat -> Weather, lost: nat -> bool)

  /** What happened to the committed data and the mailboxes, in order. */
  datatype Action = Flushed(tickets: seq<Ticket>, lost: bool) | Posted(program: Program)

  datatype State = State(
    capacity: nat, queue: seq<Job>, batch: seq<Job>, timer: Timer, stopping: bool, phase: Phase,
    accepted: seq<Job>, finished: seq<Job>, settled: Settled, log: seq<Action>)

  datatype Event =
    | Submit(job: Job)      // ProcessTransfer up to its wait
    | Receive               // case job := <-s.jobQueue
    | Fire                  // the 2 ms elapse
    | Tick                  // case <-timer.C
    | RequestStop           // close(s.stopChan)
    | BeginDrain            // case <-s.stopChan
    | DrainReceive          // inner select, a job is there
    | DrainEnd              // inner select, default
    | External(p: Program)  // another writer commits or aborts

  datatype Submission = Accepted | Invalid | QueueFull

  function Tickets(env: Env, jobs: seq<Job>): seq<Ticket> {
    seq(|jobs|, i requires 0 <= i < |jobs| => Ticket(jobs[i], env.weather(jobs[i].id)))
  }

  predicate Acceptable(job: Job) {
    job.from > 0 && job.to > 0 && job.amount > 0 && job.from != job.to
  }

  function Admit(s: State, job: Job): Submission {
    if !Acceptable(job) then Invalid
    else if |s.queue| >= s.capacity then QueueFull
    else Accepted
  }

  function JobIds(jobs: seq<Job>): set<nat> {
    set i | 0 <= i < |jobs| :: jobs[i].id
  }

  ghost predicate DistinctJobs(jobs: seq<Job>) {
    forall i, j :: 0 <= i < j < |jobs| ==> jobs[i].id != jobs[j].id
  }

  function FlushBatch(env: Env, s: State): State {
    if s.batch == [] then s
    else
      var ts, lost := Tickets(env, s.batch), env.lost(|s.log|);
      s.(batch := [], finished := s.finished + s.batch,
         settled := Flush(s.settled, ts, lost), log := s.log + [Flushed(ts, lost)])
  }

  /** Move the head of the queue to the batch; flush a full batch. */
  function TakeJob(env: Env, s: State): State
    requires s.queue != []
  {
    var s1 := s.(queue := s.queue[1..], batch := s.batch + [s.queue[0]]);
    if |s1.batch| >= BATCH_SIZE then FlushBatch(env, s1) else s1
  }

  predicate Enabled(s: State, e: Event) {
    match e
    case Submit(job) => job.id !in JobIds(s.accepted)
    case Receive => s.phase == Selecting && s.queue != []
    case Fire => s.timer == Armed
    case Tick => s.phase == Selecting && s.timer == Fired
    case RequestStop => !s.stopping
    case BeginDrain => s.phase == Selecting && s.stopping
    case DrainReceive => s.phase == Draining && s.queue != []
    case DrainEnd => s.phase == Draining && s.queue == []
    case External(_) => true
  }

  function Next(env: Env, s: State, e: Event): State
    requires Enabled(s, e)
  {
    match e
    case Submit(job) =>
      if Admit(s, job) == Accepted then s.(queue := s.queue + [job], accepted := s.accepted + [job]) else s
    case Receive =>
      var s1 := TakeJob(env, s);
      s1.(timer := if |s.batch| + 1 >= BATCH_SIZE then Stopped
                   else if s.batch == [] then Armed else s.timer)
    case Fire => s.(timer := Fired)
    case Tick => FlushBatch(env, s.(timer := Stopped))
    case RequestStop => s.(stopping := true)
    case BeginDrain => s.(phase := Draining)
    case DrainReceive => TakeJob(env, s)
    case DrainEnd => FlushBatch(env, s).(phase := Exited)
    case External(p) =>
      s.(settled := s.settled.(store := Exec(s.settled.store, p).store), log := s.log + [Posted(p)])
  }

  function Boot(capacity: nat, store: Store): State {
    State(capacity, [], [], Stopped, false, Selecting, [], [], Settled(store, map[]), [])
  }

  // ---------------------------------------------------------------- the invariant

  ghost predicate Inv(s: State) {
    // every accepted job is in exactly one of finished, batch and queue, in FIFO order
    && s.accepted == s.finished + s.batch + s.queue
    && DistinctJobs(s.accepted)
    && (forall i :: 0 <= i < |s.accepted| ==> Acceptable(s.accepted[i]))
    // exactly the finished jobs have been answered, each once
    && s.settled.mail.Keys == JobIds(s.finished)
    && |s.queue| <= s.capacity
    && |s.batch| < BATCH_SIZE
    // no buffered job waits without a timer, and no timer runs for nothing
    && (s.phase == Selecting ==> (s.batch != [] <==> s.timer != Stopped))
    && (s.phase == Exited ==> s.batch == [])
  }

  /** The data and the answers are those of the logged flushes and writes, one after the other. */
  function ReplayLog(init: Settled, log: seq<Action>): Settled {
    if log == [] then init
    else
      var before := ReplayLog(init, log[..|log| - 1]);
      match log[|log| - 1]
      case Flushed(ts, lost) => Flush(before, ts, lost)
      case Posted(p) => before.(store := Exec(before.store, p).store)
  }

  function FlushedJobs(log: seq<Action>): seq<Job> {
    if log == [] then []
    else
      FlushedJobs(log[..|log| - 1]) +
      match log[|log| - 1]
      case Flushed(ts, _) => seq(|ts|, i requires 0 <= i < |ts| => ts[i].job)
      case Posted(_) => []
  }

  ghost predicate Explained(init: Settled, s: State) {
    && s.settled == ReplayLog(init, s.log)
    && s.finished == FlushedJobs(s.log)
    && (forall i :: 0 <= i < |s.log| && s.log[i].Flushed? ==> 1 <= |s.log[i].tickets| <= BATCH_SIZE)
  }

  function FlushedRows(before: Settled, mail: map<nat, Reply>, ts: seq<Ticket>, lost: bool): seq<Row> {
    Won(before, mail, ts, Fast(before.store, ts, lost))
  }

  /**
    What the log put into the ledger: for each flush, one row per job answered with success
    and those of writers that came in between.
  */
  function LogRows(init: Settled, mail: map<nat, Reply>, log: seq<Action>): seq<Row> {
    if log == [] then []
    else
      var before := log[..|log| - 1];
      LogRows(init, mail, before) +
      match log[|log| - 1]
      case Flushed(ts, lost) => FlushedRows(ReplayLog(init, before), mail, ts, lost)
      case Posted(p) => PostedRows(ReplayLog(init, before).store, p)
  }

  /** The ledger holds one row per job answered with success, those of the foreign writes, and no others. */
  ghost predicate LedgerExplained(init: Settled, s: State) {
    s.settled.store.rows == init.store.rows + LogRows(init, s.settled.mail, s.log)
  }

  lemma {:induction false} TicketIds(env: Env, jobs: seq<Job>)
    ensures Ids(Tickets(env, jobs)) == JobIds(jobs)
    ensures DistinctJobs(jobs) ==> Distinct(Tickets(env, jobs))
  {
    var ts := Tickets(env, jobs);
    assert forall i :: 0 <= i < |jobs| ==> ts[i].job == jobs[i];
  }

  lemma {:induction false} JobIdsConcat(xs: seq<Job>, ys: seq<Job>)
    ensures JobIds(xs + ys) == JobIds(xs) + JobIds(ys)
  {
    forall k | k in JobIds(xs) + JobIds(ys) ensures k in JobIds(xs + ys) {
      if i :| 0 <= i < |xs| && xs[i].id == k {
        assert (xs + ys)[i].id == k;
      } else {
        var i :| 0 <= i < |ys| && ys[i].id == k;
        assert (xs + ys)[|xs| + i].id == k;
      }
    }
  }

  lemma {:induction false} SplitDistinct(xs: seq<Job>, ys: seq<Job>, zs: seq<Job>)
    requires DistinctJobs(xs + ys + zs)
    ensures DistinctJobs(ys) && JobIds(xs) !! JobIds(ys)
  {
    var all := xs + ys + zs;
    forall i, j | 0 <= i < j < |ys| ensures ys[i].id != ys[j].id {
      assert all[|xs| + i] == ys[i] && all[|xs| + j] == ys[j];
    }
    forall k | k in JobIds(xs) ensures k !in JobIds(ys) {
      var i :| 0 <= i < |xs| && xs[i].id == k;
      forall j | 0 <= j < |ys| ensures ys[j].id != k {
        assert all[i] == xs[i] && all[|xs| + j] == ys[j];
      }
    }
  }

  /** A flush keeps the bookkeeping, whatever the timer and phase. */
  lemma {:induction false} FlushKeepsBooks(env: Env, s: State)
    requires s.accepted == s.finished + s.batch + s.queue && DistinctJobs(s.accepted)
    requires s.settled.mail.Keys == JobIds(s.finished)
    ensures var s' := FlushBatch(env, s);
            && s'.accepted == s'.finished + s'.batch + s'.queue
            && s'.batch == []
            && s'.settled.mail.Keys == JobIds(s'.finished)
            && s' == s.(batch := [], finished := s'.finished, settled := s'.settled, log := s'.log)
  {
    var s' := FlushBatch(env, s);
    if s.batch != [] {
      var ts, lost := Tickets(env, s.batch), env.lost(|s.log|);
      TicketIds(env, s.batch);
      FoldMail(s.settled, ts, Fast(s.settled.store, ts, lost));
      JobIdsConcat(s.finished, s.batch);
      assert (s.finished + s.batch) + [] + s.queue == s.finished + s.batch + s.queue;
    }
  }

  lemma {:induction false} FlushExplained(env: Env, init: Settled, s: State)
    requires Explained(init, s) && |s.batch| <= BATCH_SIZE
    ensures Explained(init, FlushBatch(env, s))
  {
    if s.batch != [] {
      var ts, lost := Tickets(env, s.batch), env.lost(|s.log|);
      var log' := s.log + [Flushed(ts, lost)];
      assert log'[..|s.log|] == s.log;
      assert seq(|ts|, i requires 0 <= i < |ts| => ts[i].job) == s.batch;
    }
  }

  lemma {:induction false} TakeKeepsBooks(env: Env, s: State)
    requires Inv(s) && s.queue != []
    ensures var s' := TakeJob(env, s);
            && s'.accepted == s'.finished + s'.batch + s'.queue
            && s'.settled.mail.Keys == JobIds(s'.finished)
            && s'.queue == s.queue[1..]
            && s'.batch == (if |s.batch| + 1 >= BATCH_SIZE then [] else s.batch + [s.queue[0]])
            && s' == s.(queue := s'.queue, batch := s'.batch, finished := s'.finished,
                        settled := s'.settled, log := s'.log)
  {
    var s1 := s.(queue := s.queue[1..], batch := s.batch + [s.queue[0]]);
    assert s1.finished + s1.batch + s1.queue == s.finished + s.batch + s.queue;
    FlushKeepsBooks(env, s1);
  }

  lemma {:induction false} SubmitKeepsInv(env: Env, s: State, job: Job)
    requires Inv(s) && Enabled(s, Submit(job))
    ensures Inv(Next(env, s, Submit(job)))
  {
    var s' := Next(env, s, Submit(job));
    if Admit(s, job) == Accepted {
      assert s'.finished + s'.batch + s'.queue == (s.finished + s.batch + s.queue) + [job];
      forall i | 0 <= i < |s.accepted| ensures s.accepted[i].id != job.id {
        assert s.accepted[i].id in JobIds(s.accepted);
      }
    }
  }

  lemma {:induction false} NextKeepsInv(env: Env, s: State, e: Event)
    requires Inv(s) && Enabled(s, e)
    ensures Inv(Next(env, s, e))
  {
    match e {
      case Submit(job) => SubmitKeepsInv(env, s, job);
      case Receive => TakeKeepsBooks(env, s);
      case DrainReceive => TakeKeepsBooks(env, s);
      case Tick => FlushKeepsBooks(env, s.(timer := Stopped));
      case DrainEnd => FlushKeepsBooks(env, s);
      case _ =>
    }
  }

  lemma {:induction false} TakeExplained(env: Env, init: Settled, s: State)
    requires Explained(init, s) && s.queue != [] && |s.batch| < BATCH_SIZE
    ensures Explained(init, TakeJob(env, s))
  {
    FlushExplained(env, init, s.(queue := s.queue[1..], batch := s.batch + [s.queue[0]]));
    hide FlushBatch, ReplayLog, FlushedJobs;
  }

  lemma {:induction false} PostExplained(env: Env, init: Settled, s: State, p: Program)
    requires Explained(init, s)
    ensures Explained(init, Next(env, s, External(p)))
  {
    assert (s.log + [Posted(p)])[..|s.log|] == s.log;
    hide Exec;
  }

  lemma {:induction false} NextExplained(env: Env, init: Settled, s: State, e: Event)
    requires Inv(s) && Explained(init, s) && Enabled(s, e)
    ensures Explained(init, Next(env, s, e))
  {
    hide ReplayLog, FlushedJobs;
    match e {
      case Receive =>
        TakeExplained(env, init, s);
        hide TakeJob;
      case DrainReceive =>
        TakeExplained(env, init, s);
        hide TakeJob;
      case Tick =>
        FlushExplained(env, init, s.(timer := Stopped));
        hide FlushBatch;
      case DrainEnd =>
        FlushExplained(env, init, s);
        hide FlushBatch;
      case External(p) => PostExplained(env, init, s, p);
      case _ =>
    }
  }

  // ---------------------------------------------------------------- replies and rows

  predicate Agree(mail: map<nat, Reply>, mail': map<nat, Reply>, id: nat) {
    (id in mail <==> id in mail') && (id in mail ==> mail'[id] == mail[id])
  }

  lemma {:induction false} WonAgrees(
    s: Settled, mail: map<nat, Reply>, mail': map<nat, Reply>, ts: seq<Ticket>, fast: bool)
    requires forall i :: 0 <= i < |ts| ==> Agree(mail, mail', ts[i].job.id)
    ensures Won(s, mail, ts, fast) == Won(s, mail', ts, fast)
    decreases |ts|
  {
    if ts == [] {
    } else {
      assert Agree(mail, mail', ts[0].job.id);
      hide Settle;
      WonAgrees(Settle(s, ts[0], fast), mail, mail', ts[1..], fast);
    }
  }

  lemma {:induction false} LogRowsAgree(init: Settled, mail: map<nat, Reply>, mail': map<nat, Reply>, log: seq<Action>)
    requires forall id :: id in JobIds(FlushedJobs(log)) ==> Agree(mail, mail', id)
    ensures LogRows(init, mail, log) == LogRows(init, mail', log)
  {
    if log == [] {
    } else {
      var n := |log| - 1;
      match log[n] {
        case Flushed(ts, lost) =>
          var jobs := seq(|ts|, i requires 0 <= i < |ts| => ts[i].job);
          assert FlushedJobs(log) == FlushedJobs(log[..n]) + jobs;
          JobIdsConcat(FlushedJobs(log[..n]), jobs);
          assert forall i :: 0 <= i < |ts| ==> jobs[i].id == ts[i].job.id;
          var before := ReplayLog(init, log[..n]);
          WonAgrees(before, mail, mail', ts, Fast(before.store, ts, lost));
        case Posted(_) =>
          assert FlushedJobs(log) == FlushedJobs(log[..n]);
      }
      hide Won, ReplayLog, Fast;
      LogRowsAgree(init, mail, mail', log[..n]);
    }
  }

  lemma {:induction false} LogRowsSnoc(init: Settled, mail: map<nat, Reply>, log: seq<Action>, a: Action)
    ensures LogRows(init, mail, log + [a]) ==
            LogRows(init, mail, log) +
            match a
            case Flushed(ts, lost) => FlushedRows(ReplayLog(init, log), mail, ts, lost)
            case Posted(p) => PostedRows(ReplayLog(init, log).store, p)
  {
    assert (log + [a])[..|log|] == log;
  }

  lemma {:induction false} FlushRows(init: Settled, s: Settled, log: seq<Action>, ts: seq<Ticket>, lost: bool)
    requires s == ReplayLog(init, log) && s.store.rows == init.store.rows + LogRows(init, s.mail, log)
    requires Distinct(ts) && JobIds(FlushedJobs(log)) !! Ids(ts)
    ensures Flush(s, ts, lost).store.rows ==
            init.store.rows + LogRows(init, Flush(s, ts, lost).mail, log + [Flushed(ts, lost)])
  {
    var fast := Fast(s.store, ts, lost);
    hide Fold, Won, LogRows, Fast, FlushedJobs, JobIds, Ids, Distinct, ReplayLog;
    RowsAreWins(s, ts, fast);
    EarlierRowsStay(init, s, log, ts, fast);
    LogRowsSnoc(init, Fold(s, ts, fast).mail, log, Flushed(ts, lost));
  }

  lemma {:induction false} EarlierRowsStay(init: Settled, s: Settled, log: seq<Action>, ts: seq<Ticket>, fast: bool)
    requires JobIds(FlushedJobs(log)) !! Ids(ts)
    ensures LogRows(init, Fold(s, ts, fast).mail, log) == LogRows(init, s.mail, log)
  {
    FoldMail(s, ts, fast);
    hide Fold, LogRows, FlushedJobs, JobIds, Ids;
    LogRowsAgree(init, s.mail, Fold(s, ts, fast).mail, log);
  }

  lemma {:induction false} FlushLedger(env: Env, init: Settled, s: State)
    requires LedgerExplained(init, s) && s.finished == FlushedJobs(s.log) && s.settled == ReplayLog(init, s.log)
    requires DistinctJobs(s.finished + s.batch + s.queue)
    ensures LedgerExplained(init, FlushBatch(env, s))
  {
    SplitDistinct(s.finished, s.batch, s.queue);
    TicketIds(env, s.batch);
    hide LogRows, Flush, FlushedJobs, JobIds, Ids, Distinct, DistinctJobs, Tickets, ReplayLog;
    if s.batch != [] {
      FlushRows(init, s.settled, s.log, Tickets(env, s.batch), env.lost(|s.log|));
    }
  }

  lemma {:induction false} PostLedger(env: Env, init: Settled, s: State, p: Program)
    requires Explained(init, s) && LedgerExplained(init, s)
    ensures LedgerExplained(init, Next(env, s, External(p)))
  {
    LogRowsSnoc(init, s.settled.mail, s.log, Posted(p));
    ExecPosts(s.settled.store, p);
    hide LogRows, ReplayLog, Exec, PostedRows;
  }

  lemma {:induction false} TakeLedger(env: Env, init: Settled, s: State)
    requires Inv(s) && Explained(init, s) && LedgerExplained(init, s) && s.queue != []
    ensures LedgerExplained(init, TakeJob(env, s))
  {
    var taken := s.(queue := s.queue[1..], batch := s.batch + [s.queue[0]]);
    assert taken.finished + taken.batch + taken.queue == s.accepted;
    hide LogRows, FlushedJobs, ReplayLog, FlushBatch;
    FlushLedger(env, init, taken);
  }

  lemma {:induction false} NextLedger(env: Env, init: Settled, s: State, e: Event)
    requires Inv(s) && Explained(init, s) && LedgerExplained(init, s) && Enabled(s, e)
    ensures LedgerExplained(init, Next(env, s, e))
  {
    match e {
      case Receive =>
        TakeLedger(env, init, s);
        hide LogRows, TakeJob;
      case DrainReceive =>
        TakeLedger(env, init, s);
        hide LogRows, TakeJob;
      case Tick =>
        FlushLedger(env, init, s.(timer := Stopped));
        hide LogRows, FlushBatch;
      case DrainEnd =>
        FlushLedger(env, init, s);
        hide LogRows, FlushBatch;
      case External(p) => PostLedger(env, init, s, p);
      case _ => hide LogRows;
    }
  }

  // ---------------------------------------------------------------- whole runs

  predicate CanRun(env: Env, s: State, es: seq<Event>)
    decreases |es|
  {
    es != [] ==> Enabled(s, es[0]) && CanRun(env, Next(env, s, es[0]), es[1..])
  }

  function Run(env: Env, s: State, es: seq<Event>): State
    requires CanRun(env, s, es)
    decreases |es|
  {
    if es == [] then s else Run(env, Next(env, s, es[0]), es[1..])
  }

  lemma {:induction false} RunKeepsInv(env: Env, init: Settled, s: State, es: seq<Event>)
    requires Inv(s) && Explained(init, s) && LedgerExplained(init, s) && CanRun(env, s, es)
    ensures Inv(Run(env, s, es)) && Explained(init, Run(env, s, es)) && LedgerExplained(init, Run(env, s, es))
    decreases |es|
  {
    if es == [] {
    } else {
      NextLedger(env, init, s, es[0]);
      NextKeepsInv(env, s, es[0]);
      NextExplained(env, init, s, es[0]);
      RunKeepsInv(env, init, Next(env, s, es[0]), es[1..]);
    }
  }

  /**
    Every run: the accepted jobs are, in FIFO order, those finished, those in the batch and
    those in the queue; exactly the finished ones have their one message; every flush has 1
    to 50 jobs; data and answers are those of the flushes and foreign writes in order; and
    the ledger has grown by one row per job answered with success, in order, besides the
    rows of other writers, who may come in between the calls of a fallback too.
  */
  lemma {:induction false} EveryRun(env: Env, capacity: nat, store: Store, es: seq<Event>)
    requires CanRun(env, Boot(capacity, store), es)
    ensures Inv(Run(env, Boot(capacity, store), es))
    ensures Explained(Settled(store, map[]), Run(env, Boot(capacity, store), es))
    ensures LedgerExplained(Settled(store, map[]), Run(env, Boot(capacity, store), es))
  {
    assert Inv(Boot(capacity, store));
    hide Run, CanRun, Next, Inv;
    RunKeepsInv(env, Settled(store, map[]), Boot(capacity, store), es);
  }

  lemma {:induction false} LogKeepsBooks(init: Settled, log: seq<Action>)
    requires Books(init.store)
    ensures Books(ReplayLog(init, log).store)
  {
    if log == [] {
    } else {
      var n := |log| - 1;
      LogKeepsBooks(init, log[..n]);
      var before := ReplayLog(init, log[..n]);
      hide Books;
      match log[n] {
        case Flushed(ts, lost) => FoldKeepsBooks(before, ts, Fast(before.store, ts, lost));
        case Posted(p) => ExecKeepsBooks(before.store, p);
      }
    }
  }

  /** Whatever the worker and the other writers do, every balance stays the sum of its wallet's entries. */
  lemma {:induction false} EveryRunKeepsBooks(env: Env, capacity: nat, store: Store, es: seq<Event>)
    requires Books(store) && CanRun(env, Boot(capacity, store), es)
    ensures Books(Run(env, Boot(capacity, store), es).settled.store)
  {
    EveryRun(env, capacity, store, es);
    LogKeepsBooks(Settled(store, map[]), Run(env, Boot(capacity, store), es).log);
  }

  /** A job that was answered stays answered, with the same message. */
  lemma {:induction false} AnswersAreFinal(env: Env, s: State, e: Event, id: nat)
    requires Inv(s) && Enabled(s, e) && id in s.settled.mail
    ensures id in Next(env, s, e).settled.mail
    ensures Next(env, s, e).settled.mail[id] == s.settled.mail[id]
  {
    var s1 := if e.Receive? || e.DrainReceive? then s.(queue := s.queue[1..], batch := s.batch + [s.queue[0]]) else s;
    assert s1.finished + s1.batch + s1.queue == s.accepted;
    SplitDistinct(s1.finished, s1.batch, s1.queue);
    var ts, lost := Tickets(env, s1.batch), env.lost(|s.log|);
    TicketIds(env, s1.batch);
    FoldMail(s.settled, ts, Fast(s.settled.store, ts, lost));
  }

  /** A flush tells the jobs whose context has ended so. */
  lemma {:induction false} FlushCancels(env: Env, s: State, id: nat)
    requires DistinctJobs(s.batch) && id !in s.settled.mail && env.weather(id).early.Some?
    requires id in FlushBatch(env, s).settled.mail
    ensures FlushBatch(env, s).settled.mail[id].Cancelled?
  {
    if s.batch != [] {
      var ts, lost := Tickets(env, s.batch), env.lost(|s.log|);
      TicketIds(env, s.batch);
      FoldMail(s.settled, ts, Fast(s.settled.store, ts, lost));
      assert id in Ids(ts);
      var i :| 0 <= i < |ts| && ts[i].job.id == id;
      hide Flush;
      EarlyIsCancelled(s.settled, ts, lost, i);
    }
  }

  lemma {:induction false} TakeCancels(env: Env, s: State, id: nat)
    requires Inv(s) && s.queue != [] && id !in s.settled.mail && env.weather(id).early.Some?
    requires id in TakeJob(env, s).settled.mail
    ensures TakeJob(env, s).settled.mail[id].Cancelled?
  {
    var s1 := s.(queue := s.queue[1..], batch := s.batch + [s.queue[0]]);
    assert s1.finished + s1.batch + s1.queue == s.accepted;
    SplitDistinct(s1.finished, s1.batch, s1.queue);
    hide Inv, FlushBatch, DistinctJobs;
    if |s1.batch| >= BATCH_SIZE {
      FlushCancels(env, s1, id);
    }
  }

  /** A caller who leaves before its job is reached keeps the job from being executed. */
  lemma {:induction false} LeaversAreCancelled(env: Env, s: State, e: Event, id: nat)
    requires Inv(s) && Enabled(s, e) && id !in s.settled.mail && env.weather(id).early.Some?
    requires id in Next(env, s, e).settled.mail
    ensures Next(env, s, e).settled.mail[id].Cancelled?
  {
    SplitDistinct(s.finished, s.batch, s.queue);
    hide Inv, DistinctJobs;
    match e {
      case Receive => TakeCancels(env, s, id);
      case DrainReceive => TakeCancels(env, s, id);
      case Tick => FlushCancels(env, s.(timer := Stopped), id);
      case DrainEnd => FlushCancels(env, s, id);
      case _ =>
    }
    hide FlushBatch, TakeJob;
  }

  // ---------------------------------------------------------------- nothing is stranded

  /** A buffered job is at most a tick away from its answer. */
  lemma {:induction false} TimerReachesBatch(env: Env, s: State)
    requires Inv(s) && s.phase == Selecting && s.batch != []
    ensures var es := if s.timer == Armed then [Fire, Tick] else [Tick];
            && CanRun(env, s, es)
            && Run(env, s, es).batch == []
            && Run(env, s, es).finished == s.finished + s.batch
            && JobIds(s.batch) <= Run(env, s, es).settled.mail.Keys
  {
    var s1 := s.(timer := Fired);
    var s2 := Next(env, s1, Tick);
    FlushKeepsBooks(env, s1.(timer := Stopped));
    JobIdsConcat(s.finished, s.batch);
    assert CanRun(env, s2, []);
    if s.timer == Armed {
      assert [Fire, Tick][1..] == [Tick] && [Tick][1..] == [];
      assert CanRun(env, s1, [Tick]);
    } else {
      assert s1 == s && [Tick][1..] == [];
    }
  }

  lemma {:induction false} AcceptedGrows(env: Env, s: State, e: Event)
    requires Enabled(s, e)
    ensures s.accepted <= Next(env, s, e).accepted
    ensures !e.Submit? ==> Next(env, s, e).accepted == s.accepted
  {
    hide Flush, Tickets;
  }

  lemma {:induction false} FlushAnswersBatch(env: Env, s: State, job: Job)
    requires s.accepted == s.finished + s.batch + s.queue && DistinctJobs(s.accepted)
    requires s.settled.mail.Keys == JobIds(s.finished) && job in s.batch
    ensures job.id in FlushBatch(env, s).settled.mail
  {
    FlushKeepsBooks(env, s);
    JobIdsConcat(s.finished, s.batch);
    var i :| 0 <= i < |s.batch| && s.batch[i] == job;
    assert job.id in JobIds(s.batch);
    assert FlushBatch(env, s).finished == s.finished + s.batch;
  }

  lemma {:induction false} StepKeepsBuffered(env: Env, s: State, e: Event, job: Job)
    requires Inv(s) && Enabled(s, e) && job in s.batch
    ensures job.id in Next(env, s, e).settled.mail || (job in Next(env, s, e).batch && !e.Tick? && !e.DrainEnd?)
  {
    match e {
      case Tick => FlushAnswersBatch(env, s.(timer := Stopped), job);
      case DrainEnd => FlushAnswersBatch(env, s, job);
      case Receive => TakeKeepsBuffered(env, s, job);
      case DrainReceive => TakeKeepsBuffered(env, s, job);
      case _ =>
    }
    hide FlushBatch, TakeJob;
  }

  lemma {:induction false} TakeKeepsBuffered(env: Env, s: State, job: Job)
    requires Inv(s) && s.queue != [] && job in s.batch
    ensures job.id in TakeJob(env, s).settled.mail || job in TakeJob(env, s).batch
  {
    var s1 := s.(queue := s.queue[1..], batch := s.batch + [s.queue[0]]);
    assert s1.finished + s1.batch + s1.queue == s.accepted;
    FlushAnswersBatch(env, s1, job);
    hide FlushBatch;
  }

  /** A message, once there, is there at the end of every run. */
  lemma {:induction false} AnsweredStaysAnswered(env: Env, s: State, es: seq<Event>, id: nat)
    requires Inv(s) && CanRun(env, s, es) && id in s.settled.mail
    ensures id in Run(env, s, es).settled.mail && Run(env, s, es).settled.mail[id] == s.settled.mail[id]
    decreases |es|
  {
    if es == [] {
    } else {
      NextKeepsInv(env, s, es[0]);
      AnswersAreFinal(env, s, es[0], id);
      hide Next, Inv;
      AnsweredStaysAnswered(env, Next(env, s, es[0]), es[1..], id);
    }
  }

  /**
    In every run a buffered job is answered, at the latest by the first tick or the end of
    the drain; until then the timer is armed or fired, or the worker is draining.
  */
  lemma {:induction false} BufferedUntilFlush(env: Env, s: State, es: seq<Event>, job: Job)
    requires Inv(s) && CanRun(env, s, es) && job in s.batch
    ensures var s' := Run(env, s, es);
            || job.id in s'.settled.mail
            || (&& job in s'.batch && s'.phase != Exited
                && (forall i :: 0 <= i < |es| ==> !es[i].Tick? && !es[i].DrainEnd?)
                && (s'.phase == Selecting ==> s'.timer != Stopped))
    decreases |es|
  {
    if es == [] {
    } else {
      var s1 := Next(env, s, es[0]);
      NextKeepsInv(env, s, es[0]);
      StepKeepsBuffered(env, s, es[0], job);
      hide Next, Inv;
      if job.id in s1.settled.mail {
        AnsweredStaysAnswered(env, s1, es[1..], job.id);
      } else {
        BufferedUntilFlush(env, s1, es[1..], job);
      }
    }
  }

  /** The drain loop: receive until the queue is empty, then flush and return. */
  function DrainAll(env: Env, s: State): State
    requires s.phase == Draining
    decreases |s.queue|
  {
    if s.queue == [] then Next(env, s, DrainEnd)
    else DrainAll(env, Next(env, s, DrainReceive))
  }

  /** With no new submissions the drain ends, and every accepted job has its answer. */
  lemma {:induction false} DrainAnswersAll(env: Env, s: State)
    requires Inv(s) && s.phase == Draining
    ensures var s' := DrainAll(env, s);
            && Inv(s') && s'.phase == Exited
            && s'.queue == [] && s'.batch == []
            && s'.finished == s'.accepted == s.accepted
            && s'.settled.mail.Keys == JobIds(s.accepted)
    decreases |s.queue|
  {
    if s.queue == [] {
      NextKeepsInv(env, s, DrainEnd);
      FlushKeepsBooks(env, s);
      var s' := Next(env, s, DrainEnd);
      assert s'.finished + [] + [] == s'.finished;
    } else {
      NextKeepsInv(env, s, DrainReceive);
      TakeKeepsBooks(env, s);
      DrainAnswersAll(env, Next(env, s, DrainReceive));
    }
  }

  /** Once the worker has returned, nobody is answered any more. */
  lemma {:induction false} ExitIsFinal(env: Env, s: State, es: seq<Event>)
    requires s.phase == Exited && CanRun(env, s, es)
    ensures Run(env, s, es).phase == Exited
    ensures Run(env, s, es).finished == s.finished && Run(env, s, es).settled.mail == s.settled.mail
    decreases |es|
  {
    if es == [] {
    } else {
      ExitIsFinal(env, Next(env, s, es[0]), es[1..]);
    }
  }

  predicate Answers(env: Env, s: State, es: seq<Event>, id: nat) {
    CanRun(env, s, es) && id in Run(env, s, es).settled.mail
  }

  lemma {:induction false} LastStepAnswersAll(env: Env, s: State, job: Job)
    requires Inv(s) && Enabled(s, DrainEnd) && job in s.accepted
    ensures job.id in Next(env, s, DrainEnd).settled.mail
  {
    FlushKeepsBooks(env, s);
    assert s.finished + s.batch + [] == s.finished + s.batch;
    var i :| 0 <= i < |s.accepted| && s.accepted[i] == job;
    assert job.id in JobIds(s.accepted);
  }

  /** Whatever is submitted or written meanwhile, a worker that returns has answered all it had accepted. */
  lemma {:induction false} ExitAnswersAll(env: Env, s: State, es: seq<Event>, job: Job)
    requires Inv(s) && CanRun(env, s, es) && job in s.accepted
    requires s.phase != Exited && Run(env, s, es).phase == Exited
    ensures job.id in Run(env, s, es).settled.mail
    decreases |es|
  {
    var s1 := Next(env, s, es[0]);
    NextKeepsInv(env, s, es[0]);
    AcceptedGrows(env, s, es[0]);
    if es[0].DrainEnd? {
      LastStepAnswersAll(env, s, job);
      AnsweredStaysAnswered(env, s1, es[1..], job.id);
    } else {
      assert s1.phase != Exited;
      hide Next, Inv;
      ExitAnswersAll(env, s1, es[1..], job);
    }
  }

  /**
    Stop does not answer every accepted job: a job can be accepted after the worker has
    returned.  In every run that ends with the worker gone, a job accepted by now is answered
    exactly if it has been already or the worker has not returned yet.
  */
  lemma {:induction false} AnsweredIff(env: Env, s: State, es: seq<Event>, job: Job)
    requires Inv(s) && CanRun(env, s, es) && job in s.accepted && Run(env, s, es).phase == Exited
    ensures job.id in Run(env, s, es).settled.mail <==> s.phase != Exited || job.id in s.settled.mail
  {
    if s.phase == Exited {
      ExitIsFinal(env, s, es);
    } else {
      ExitAnswersAll(env, s, es, job);
    }
  }

  /** From every state with the worker alive a schedule leads to the answer; none does afterwards. */
  lemma {:induction false} AnswerableIff(env: Env, s: State, job: Job)
    requires Inv(s) && job in s.accepted
    ensures (exists es :: Answers(env, s, es, job.id)) <==> s.phase != Exited || job.id in s.settled.mail
  {
    if job.id in s.settled.mail {
      assert Answers(env, s, [], job.id);
    } else if s.phase == Exited {
      forall es | CanRun(env, s, es) ensures !Answers(env, s, es, job.id) {
        ExitIsFinal(env, s, es);
      }
    } else {
      var es := AnsweringRun(env, s, job);
      assert Answers(env, s, es, job.id);
    }
  }

  /** A submission the worker never sees, although the queue takes it. */
  lemma {:induction false} AcceptedButNeverAnswered(env: Env, s: State, job: Job, es: seq<Event>)
    requires Inv(s) && s.phase == Exited && |s.queue| < s.capacity
    requires Acceptable(job) && Enabled(s, Submit(job))
    requires CanRun(env, Next(env, s, Submit(job)), es)
    ensures job in Next(env, s, Submit(job)).accepted
    ensures job.id !in Run(env, Next(env, s, Submit(job)), es).settled.mail
  {
    var s1 := Next(env, s, Submit(job));
    assert s1.accepted[|s.accepted|] == job;
    JobIdsConcat(s.finished + s.batch, s.queue);
    JobIdsConcat(s.finished, s.batch);
    ExitIsFinal(env, s1, es);
  }

  lemma {:induction false} AnsweringRun(env: Env, s: State, job: Job) returns (es: seq<Event>)
    requires Inv(s) && job in s.accepted && s.phase != Exited
    ensures CanRun(env, s, es) && job.id in Run(env, s, es).settled.mail
    decreases s.phase == Selecting, !s.stopping, |s.queue|
  {
    var e := if s.phase == Draining then (if s.queue == [] then DrainEnd else DrainReceive)
             else if s.stopping then BeginDrain else RequestStop;
    var s1 := Next(env, s, e);
    NextKeepsInv(env, s, e);
    var rest;
    if s1.phase == Exited {
      DrainAnswersAll(env, s);
      var i :| 0 <= i < |s.accepted| && s.accepted[i] == job;
      assert job.id in JobIds(s.accepted);
      rest := [];
    } else {
      if e == DrainReceive {
        TakeKeepsBooks(env, s);
      }
      rest := AnsweringRun(env, s1, job);
    }
    es := [e] + rest;
    assert es[1..] == rest;
  }
}
