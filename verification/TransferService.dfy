/**
  The transfer service as an object: the queue, the batch slice, the timer and the worker's
  loops, each proved to take the step of BatchWorker that it stands for.
*/
module TransferService {
  import opened Ledger
  import opened BatchExecutor
  import opened BatchWorker

  class Service {
    const capacity: nat
    const executor: Executor
    var queue: seq<Job>
    var batch: seq<Job>
    var timer: Timer
    var stopping: bool
    var phase: Phase
    var actions: nat   // flushes and foreign writes so far; which flushes are lost is the environment's choice
    ghost var accepted: seq<Job>
    ghost var finished: seq<Job>
    ghost var log: seq<Action>

    ghost function Snapshot(): State
      reads this, executor, executor.repo.db
    {
      State(capacity, queue, batch, timer, stopping, phase, accepted, finished, executor.State(), log)
    }

    ghost predicate Valid()
      reads this, executor, executor.repo.db
    {
      executor.repo.db.Valid() && Inv(Snapshot()) && actions == |log|
    }

    /** NewTransferServiceWithCapacity: a capacity that is not positive becomes 5000. */
    constructor (capacity: int, executor: Executor)
      requires executor.repo.db.Valid() && executor.mailbox == map[]
      ensures Valid() && this.executor == executor
      ensures Snapshot() == Boot(if capacity <= 0 then 5000 else capacity, executor.repo.db.View())
    {
      this.capacity := if capacity <= 0 then 5000 else capacity;
      this.executor := executor;
      queue, batch := [], [];
      timer, stopping, phase := Stopped, false, Selecting;
      actions := 0;
      accepted, finished, log := [], [], [];
    }

    /** ProcessTransfer up to its wait: validate, then a send that never blocks. */
    method Enqueue(ghost env: Env, job: Job) returns (r: Submission)
      requires Valid() && Enabled(Snapshot(), Submit(job))
      modifies this`queue, this`accepted
      ensures Valid() && Snapshot() == Next(env, old(Snapshot()), Submit(job))
      ensures r == Admit(old(Snapshot()), job)
      ensures r == Invalid <==> job.from <= 0 || job.to <= 0 || job.amount <= 0 || job.from == job.to
      ensures r != Invalid ==> (r == QueueFull <==> |old(queue)| >= capacity)
      ensures queue == old(queue) + if r == Accepted then [job] else []
    {
      NextKeepsInv(env, Snapshot(), Submit(job));
      if job.from <= 0 || job.to <= 0 {
        return Invalid;
      }
      if job.amount <= 0 {
        return Invalid;
      }
      if job.from == job.to {
        return Invalid;
      }
      if |queue| < capacity {
        queue := queue + [job];
        accepted := accepted + [job];
        return Accepted;
      }
      return QueueFull;
    }

    /** flush: hand the batch to executeBatch and reset it. */
    method Flush(env: Env)
      requires executor.repo.db.Valid() && actions == |log|
      requires DistinctJobs(batch) && JobIds(batch) !! executor.mailbox.Keys
      modifies this`batch, this`actions, this`finished, this`log, executor`mailbox
      modifies executor.repo.db
      ensures executor.repo.db.Valid()
      ensures Snapshot() == FlushBatch(env, old(Snapshot())) && actions == |log|
      ensures batch == [] && executor.mailbox.Keys == old(executor.mailbox).Keys + JobIds(old(batch))
    {
      if |batch| == 0 {
        return;
      }
      var tickets := Tickets(env, batch);
      TicketIds(env, batch);
      executor.ExecuteBatch(tickets, env.lost(actions));
      finished := finished + batch;
      log := log + [Flushed(tickets, env.lost(actions))];
      actions := actions + 1;
      batch := [];
    }

    /** The jobs of the batch are distinct and unanswered. */
    lemma {:induction false} BatchUnanswered(jobs: seq<Job>, rest: seq<Job>)
      requires Inv(Snapshot())
      requires finished + jobs + rest == accepted
      ensures DistinctJobs(jobs) && JobIds(jobs) !! executor.mailbox.Keys
    {
      SplitDistinct(finished, jobs, rest);
    }

    /** Add a job to the batch; a full batch stops the timer and is flushed. */
    method Append(env: Env, job: Job)
      requires executor.repo.db.Valid() && actions == |log|
      requires DistinctJobs(batch + [job]) && JobIds(batch + [job]) !! executor.mailbox.Keys
      modifies this`batch, this`timer, this`actions, this`finished, this`log, executor`mailbox
      modifies executor.repo.db
      ensures executor.repo.db.Valid() && actions == |log|
      ensures var full := |old(batch)| + 1 >= BATCH_SIZE;
              var s1 := old(Snapshot()).(batch := old(batch) + [job], timer := if full then Stopped else old(timer));
              Snapshot() == if full then FlushBatch(env, s1) else s1
      ensures if |old(batch)| + 1 < BATCH_SIZE then executor.mailbox == old(executor.mailbox)
              else batch == [] && executor.mailbox.Keys == old(executor.mailbox).Keys + JobIds(old(batch) + [job])
    {
      hide FlushBatch, JobIds, DistinctJobs;
      batch := batch + [job];
      if |batch| >= BATCH_SIZE {
        timer := Stopped;
        Flush(env);
      }
    }

    /** The timer is set before the flush, which does not look at it. */
    static lemma {:induction false} ReceiveEffect(env: Env, s: State)
      requires Enabled(s, Receive)
      ensures var taken := s.batch + [s.queue[0]];
              var timer := if |taken| >= BATCH_SIZE then Stopped else if s.batch == [] then Armed else s.timer;
              var s1 := s.(queue := s.queue[1..], batch := taken, timer := timer);
              Next(env, s, Receive) == if |taken| >= BATCH_SIZE then FlushBatch(env, s1) else s1
    {
      hide BatchExecutor.Flush;
    }

    /** case job := <-s.jobQueue */
    method OnJob(env: Env)
      requires Valid() && Enabled(Snapshot(), Receive)
      modifies this`queue, this`batch, this`timer, this`actions, this`finished, this`log, executor`mailbox
      modifies executor.repo.db
      ensures Valid() && Snapshot() == Next(env, old(Snapshot()), Receive)
      ensures queue == old(queue)[1..]
      ensures var taken := old(batch) + [old(queue)[0]];
              if |taken| < 50 then
                && batch == taken && executor.mailbox == old(executor.mailbox)
                && timer == if old(batch) == [] then Armed else old(timer)
              else
                && batch == [] && timer == Stopped
                && executor.mailbox.Keys == old(executor.mailbox).Keys + JobIds(taken)
    {
      NextKeepsInv(env, Snapshot(), Receive);
      BatchUnanswered(batch + [queue[0]], queue[1..]);
      ReceiveEffect(env, Snapshot());
      hide Inv, JobIds, DistinctJobs, FlushBatch, Next;
      var job := queue[0];
      queue := queue[1..];
      if |batch| == 0 {
        timer := Armed;
      }
      assert Snapshot() == old(Snapshot()).(queue := queue, timer := timer);
      Append(env, job);
    }

    /** case <-timer.C */
    method OnTick(env: Env)
      requires Valid() && Enabled(Snapshot(), Tick)
      modifies this`batch, this`timer, this`actions, this`finished, this`log, executor`mailbox
      modifies executor.repo.db
      ensures Valid() && Snapshot() == Next(env, old(Snapshot()), Tick)
      ensures batch == [] && timer == Stopped
      ensures executor.mailbox.Keys == old(executor.mailbox).Keys + JobIds(old(batch))
    {
      NextKeepsInv(env, Snapshot(), Tick);
      BatchUnanswered(batch, queue);
      timer := Stopped;
      Flush(env);
    }

    /** One turn of the drain loop that finds a job. */
    method OnDrainJob(env: Env)
      requires Valid() && Enabled(Snapshot(), DrainReceive)
      modifies this`queue, this`batch, this`actions, this`finished, this`log, executor`mailbox
      modifies executor.repo.db
      ensures Valid() && Snapshot() == Next(env, old(Snapshot()), DrainReceive)
    {
      ghost var before := Snapshot();
      NextKeepsInv(env, before, DrainReceive);
      assert Next(env, before, DrainReceive) == TakeJob(env, before);
      BatchUnanswered(batch + [queue[0]], queue[1..]);
      hide Inv, FlushBatch, JobIds, DistinctJobs, Next;
      batch := batch + [queue[0]];
      queue := queue[1..];
      if |batch| >= BATCH_SIZE {
        assert Snapshot() == before.(queue := queue, batch := batch);
        Flush(env);
      }
    }

    /** The default case of the drain loop. */
    method OnDrained(env: Env)
      requires Valid() && Enabled(Snapshot(), DrainEnd)
      modifies this`batch, this`phase, this`actions, this`finished, this`log, executor`mailbox
      modifies executor.repo.db
      ensures Valid() && Snapshot() == Next(env, old(Snapshot()), DrainEnd)
    {
      NextKeepsInv(env, Snapshot(), DrainEnd);
      BatchUnanswered(batch, queue);
      Flush(env);
      phase := Exited;
    }

    /** case <-s.stopChan, when nobody submits any more: drain, flush, return. */
    method Drain(env: Env)
      requires Valid() && Enabled(Snapshot(), BeginDrain)
      modifies this, executor`mailbox
      modifies executor.repo.db
      ensures Valid() && Snapshot() == DrainAll(env, Next(env, old(Snapshot()), BeginDrain))
      ensures phase == Exited && queue == batch == [] && finished == accepted == old(accepted)
      ensures executor.mailbox.Keys == JobIds(old(accepted))
    {
      NextKeepsInv(env, Snapshot(), BeginDrain);
      DrainAnswersAll(env, Next(env, Snapshot(), BeginDrain));
      phase := Draining;
      while |queue| > 0
        invariant Valid() && phase == Draining
        invariant DrainAll(env, Snapshot()) == DrainAll(env, Next(env, old(Snapshot()), BeginDrain))
        decreases |queue|
      {
        TakeKeepsBooks(env, Snapshot());
        OnDrainJob(env);
      }
      OnDrained(env);
    }

    /** Another connection's transaction between two flushes. */
    method OnForeignWrite(env: Env, p: Program)
      requires Valid()
      modifies this`actions, this`log, executor.repo.db
      ensures Valid() && Snapshot() == Next(env, old(Snapshot()), External(p))
    {
      NextKeepsInv(env, Snapshot(), External(p));
      executor.repo.db.RunForeign(p);
      log := log + [Posted(p)];
      actions := actions + 1;
    }

    /** One iteration of the worker's loop, or one thing that happens around it. */
    method Turn(env: Env, e: Event)
      requires Valid() && Enabled(Snapshot(), e)
      modifies this, executor`mailbox
      modifies executor.repo.db
      ensures Valid() && Snapshot() == Next(env, old(Snapshot()), e)
    {
      NextKeepsInv(env, Snapshot(), e);
      match e {
        case Submit(job) => var _ := Enqueue(env, job);
        case Receive => OnJob(env);
        case Fire => timer := Fired;
        case Tick => OnTick(env);
        case RequestStop => stopping := true;
        case BeginDrain => phase := Draining;
        case DrainReceive => OnDrainJob(env);
        case DrainEnd => OnDrained(env);
        case External(p) => OnForeignWrite(env, p);
      }
    }

    /** The worker under any schedule: `events` is what the scheduler and the outside choose. */
    method Work(env: Env, events: seq<Event>)
      requires Valid() && CanRun(env, Snapshot(), events)
      modifies this, executor`mailbox
      modifies executor.repo.db
      ensures Valid() && Snapshot() == Run(env, old(Snapshot()), events)
    {
      var i := 0;
      while i < |events|
        invariant 0 <= i <= |events| && Valid()
        invariant CanRun(env, Snapshot(), events[i..])
        invariant Run(env, Snapshot(), events[i..]) == Run(env, old(Snapshot()), events)
      {
        assert events[i..][1..] == events[i + 1..];
        Turn(env, events[i]);
        i := i + 1;
      }
    }
  }
}
