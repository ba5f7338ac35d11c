/**
  POST /transfers from the middleware to the ledger and back: the idempotency protocol and
  the batch worker side by side.  A request's id is also the id of its job.

  Assumed of a run: no request dies in its handler and the middleware's database calls
  succeed.  Callers may leave at any time; the database may lose any call of the worker and
  serve other writers in between.  A theorem about a key may assume that the requests under
  that key keep their leases (`KeepsLease`).
*/
module EndToEnd {
  import opened Prelude
  import opened Ledger
  import opened Database
  import opened BatchExecutor
  import opened IdempotencyStore
  import P = IdempotencyProtocol
  import W = BatchWorker

  datatype State = State(
    idem: P.State,
    worker: W.State,
    payload: map<nat, Job>,
    era: map<string, nat>,   // how often the key's row has been swept
    born: map<nat, nat>)     // era of its key when a request arrived

  datatype Event =
    | Arrive(id: nat, key: string, path: string, hash: string, job: Job)
    | Probe(id: nat)
    | Submit(id: nat, body: Body)
    | Work(e: W.Event)
    | Collect(id: nat, body: Body)   // the reply reaches the waiting caller
    | Abandon(id: nat, body: Body)   // the caller's context ends while it waits
    | Settle(id: nat)
    | Elapse(ms: nat)
    | Sweep

  /** ErrorMiddleware's status for what ProcessTransfer returned. */
  function StatusOf(r: Reply): int {
    match r
    case Completed => 200
    case Rejected(InvalidInput) => 400
    case Rejected(NotFound) => 404
    case Rejected(InsufficientFunds) => 400
    case Rejected(Internal) => 500
    case Cancelled(_) => 500
  }

  function Era(era: map<string, nat>, key: string): nat {
    if key in era then era[key] else 0
  }

  predicate IsAccepted(s: State, id: nat) {
    id in W.JobIds(s.worker.accepted)
  }

  predicate IsRunning(s: State, id: nat) {
    id in s.idem.requests && s.idem.requests[id].phase.Running?
  }

  /**
    The context a caller waits on is the one its job carries.  So a caller who leaves before
    its job is answered leaves a job whose context has ended when the filter looks at it.
  */
  predicate MayLeave(env: W.Env, s: State, id: nat) {
    id in s.worker.settled.mail || env.weather(id).early.Some?
  }

  predicate Enabled(env: W.Env, s: State, e: Event) {
    match e
    case Arrive(id, key, path, hash, job) =>
      P.Enabled(s.idem, P.Arrive(id, key, path, hash)) && job.id == id
    case Probe(id) => P.Enabled(s.idem, P.Probe(id))
    case Submit(id, _) => IsRunning(s, id) && id in s.payload && s.payload[id].id == id && !IsAccepted(s, id)
    case Work(e) => !e.Submit? && W.Enabled(s.worker, e)
    case Collect(id, _) => IsRunning(s, id) && IsAccepted(s, id) && id in s.worker.settled.mail
    case Abandon(id, _) => IsRunning(s, id) && IsAccepted(s, id) && MayLeave(env, s, id)
    case Settle(id) => P.Enabled(s.idem, P.Settle(id))
    case Elapse(_) => true
    case Sweep => true
  }

  function Next(env: W.Env, s: State, e: Event): State
    requires Enabled(env, s, e)
  {
    match e
    case Arrive(id, key, path, hash, job) =>
      s.(idem := P.Next(s.idem, P.Arrive(id, key, path, hash)),
         payload := s.payload[id := job],
         born := s.born[id := Era(s.era, key)])
    case Probe(id) => s.(idem := P.Next(s.idem, P.Probe(id)))
    case Submit(id, body) =>
      var job := s.payload[id];
      var worker := W.Next(env, s.worker, W.Submit(job));
      (match W.Admit(s.worker, job)
       case Accepted => s.(worker := worker)
       case Invalid => s.(idem := P.Next(s.idem, P.Return(id, 400, body)))
       case QueueFull => s.(idem := P.Next(s.idem, P.Return(id, 503, body))))
    case Work(e) => s.(worker := W.Next(env, s.worker, e))
    case Collect(id, body) =>
      s.(idem := P.Next(s.idem, P.Return(id, StatusOf(s.worker.settled.mail[id]), body)))
    case Abandon(id, body) => s.(idem := P.Next(s.idem, P.Return(id, 500, body)))
    case Settle(id) => s.(idem := P.Next(s.idem, P.Settle(id)))
    case Elapse(ms) => s.(idem := P.Next(s.idem, P.Elapse(ms)))
    case Sweep =>
      var idem := P.Next(s.idem, P.Sweep);
      s.(idem := idem,
         era := map k | k in s.era.Keys + s.idem.rows.Keys ::
                  Era(s.era, k) + if k in s.idem.rows && k !in idem.rows then 1 else 0)
  }

  function Boot(now: int, capacity: nat, store: Store): State {
    State(P.Boot(now), W.Boot(capacity, store), map[], map[], map[])
  }

  ghost predicate CanRun(env: W.Env, s: State, es: seq<Event>)
    decreases |es|
  {
    es != [] ==> Enabled(env, s, es[0]) && CanRun(env, Next(env, s, es[0]), es[1..])
  }

  ghost function Run(env: W.Env, s: State, es: seq<Event>): State
    requires CanRun(env, s, es)
    decreases |es|
  {
    if es == [] then s else Run(env, Next(env, s, es[0]), es[1..])
  }

  ghost predicate InLease(s: State, e: Event, key: string) {
    e.Elapse? ==> P.InLease(s.idem, P.Elapse(e.ms), key)
  }

  /** No live holder of this key outlives its lease. */
  ghost predicate KeepsLease(env: W.Env, s: State, es: seq<Event>, key: string)
    requires CanRun(env, s, es)
    decreases |es|
  {
    es != [] ==> InLease(s, es[0], key) && KeepsLease(env, Next(env, s, es[0]), es[1..], key)
  }

  ghost predicate IsPatient(s: State, e: Event, key: string) {
    e.Abandon? && e.id in s.idem.requests ==> s.idem.requests[e.id].key != key
  }

  /** No caller under this key leaves after enqueueing. */
  ghost predicate Patient(env: W.Env, s: State, es: seq<Event>, key: string)
    requires CanRun(env, s, es)
    decreases |es|
  {
    es != [] ==> IsPatient(s, es[0], key) && Patient(env, Next(env, s, es[0]), es[1..], key)
  }

  /** The transfer of this request was committed. */
  predicate Committed(s: State, id: nat) {
    id in s.worker.settled.mail && s.worker.settled.mail[id] == Completed
  }

  predicate EndedWith(r: P.Request, code: int) {
    match r.phase
    case Finishing(_, _, c, _) => c == code
    case Answered(Fresh(c, _)) => c == code
    case _ => false
  }

  /** It was committed, and its caller, who had left, got the 500 of a dead context. */
  predicate Deserted(s: State, id: nat) {
    Committed(s, id) && id in s.idem.requests && EndedWith(s.idem.requests[id], 500)
  }

  // ---------------------------------------------------------------- what requests are told

  /** The status of the reply, or 500 to a caller who left: after the reply, or before the filter. */
  ghost predicate Heard(env: W.Env, s: State, id: nat, code: int) {
    || (id in s.worker.settled.mail && code == StatusOf(s.worker.settled.mail[id]))
    || (code == 500 && MayLeave(env, s, id))
  }

  predicate Malformed(job: Job) {
    job.from <= 0 || job.to <= 0 || job.amount <= 0 || job.from == job.to
  }

  /** 400 to a malformed transfer, 503 to one that found the queue full. */
  ghost predicate Refused(s: State, id: nat, code: int) {
    id in s.payload && code == if Malformed(s.payload[id]) then 400 else 503
  }

  ghost predicate Told(env: W.Env, s: State, id: nat)
    requires id in s.idem.requests
  {
    var phase := s.idem.requests[id].phase;
    if IsAccepted(s, id) then
      match phase
      case Running(_, _) => true
      case Finishing(_, _, code, _) => Heard(env, s, id, code)
      case Answered(Fresh(code, _)) => Heard(env, s, id, code)
      case _ => false
    else
      match phase
      case Finishing(_, _, code, _) => Refused(s, id, code)
      case Answered(Fresh(code, _)) => Refused(s, id, code)
      case _ => true
  }

  ghost predicate Linked(env: W.Env, s: State) {
    && (forall id :: id in W.JobIds(s.worker.accepted) ==> id in s.idem.requests)
    && (forall id :: id in s.idem.requests ==> Told(env, s, id) && id in s.born)
  }

  /** What holds in every run, leases or not. */
  ghost predicate Loose(env: W.Env, s: State) {
    P.Guarded(s.idem) && W.Inv(s.worker) && Linked(env, s)
  }

  // ---------------------------------------------------------------- the invariant of one key

  /** A commit still stands: its request holds the key or wrote the row. */
  ghost predicate Stands(s: State, id: nat)
    requires id in s.idem.requests
  {
    var r := s.idem.requests[id];
    || P.Holds(r)
    || (r.key in s.idem.rows && s.idem.rows[r.key].status == COMPLETED
        && r.key in s.idem.writer && s.idem.writer[r.key] == id)
  }

  ghost predicate EraOfRequest(s: State, id: nat)
    requires id in s.idem.requests && id in s.born
  {
    var era := Era(s.era, s.idem.requests[id].key);
    s.born[id] <= era && (P.Holds(s.idem.requests[id]) ==> s.born[id] == era)
  }

  ghost predicate EraOfRow(s: State, key: string)
    requires key in s.idem.rows
  {
    s.idem.rows[key].status == COMPLETED && key in s.idem.writer && s.idem.writer[key] in s.born ==>
      s.born[s.idem.writer[key]] == Era(s.era, key)
  }

  ghost predicate IsUnder(s: State, id: nat, key: string) {
    id in s.idem.requests && id in s.born && s.idem.requests[id].key == key
  }

  ghost predicate Eras(s: State, key: string) {
    && (forall id :: IsUnder(s, id, key) ==> EraOfRequest(s, id))
    && (key in s.idem.rows ==> EraOfRow(s, key))
  }

  /** Committed under the key since the key was last swept. */
  ghost predicate CommittedUnder(s: State, key: string, id: nat) {
    IsUnder(s, id, key) && s.born[id] == Era(s.era, key) && Committed(s, id)
  }

  /** Such a commit whose caller did not desert it. */
  ghost predicate Acknowledged(s: State, key: string, id: nat) {
    CommittedUnder(s, key, id) && !Deserted(s, id)
  }

  ghost predicate CommitsStand(s: State, key: string) {
    forall id :: Acknowledged(s, key, id) ==> Stands(s, id)
  }

  /** Two committed transfers under one key, with no sweep of that key between them. */
  ghost predicate BothCommitted(s: State, key: string, a: nat, b: nat) {
    IsUnder(s, a, key) && IsUnder(s, b, key) && Committed(s, a) && Committed(s, b) && s.born[a] == s.born[b]
  }

  ghost predicate CommitsUnique(s: State, key: string) {
    forall a, b :: BothCommitted(s, key, a, b) && !Deserted(s, a) && !Deserted(s, b) ==> a == b
  }

  ghost predicate Inv(env: W.Env, s: State, key: string) {
    && P.Inv(s.idem, key)
    && W.Inv(s.worker)
    && Linked(env, s)
    && Eras(s, key)
    && CommitsStand(s, key)
    && CommitsUnique(s, key)
  }

  lemma {:induction false} AnsweredIsAccepted(s: W.State, id: nat)
    requires W.Inv(s) && id in s.settled.mail
    ensures id in W.JobIds(s.accepted)
  {
    W.JobIdsConcat(s.finished + s.batch, s.queue);
    W.JobIdsConcat(s.finished, s.batch);
  }

  // ---------------------------------------------------------------- steps of the worker

  /** Answers only grow, and beyond cancellations only for requests still in their handler. */
  lemma {:induction false} WorkAnswers(env: W.Env, s: State, e: W.Event, id: nat)
    requires W.Inv(s.worker) && Linked(env, s) && !e.Submit? && W.Enabled(s.worker, e)
    ensures var mail := W.Next(env, s.worker, e).settled.mail;
            && (id in s.worker.settled.mail ==> id in mail && mail[id] == s.worker.settled.mail[id])
            && (id in mail && id !in s.worker.settled.mail ==> IsRunning(s, id) || mail[id].Cancelled?)
  {
    var w := W.Next(env, s.worker, e);
    W.AcceptedGrows(env, s.worker, e);
    W.NextKeepsInv(env, s.worker, e);
    hide W.Next, W.Inv;
    if id in s.worker.settled.mail {
      W.AnswersAreFinal(env, s.worker, e, id);
    } else if id in w.settled.mail {
      AnsweredIsAccepted(w, id);
      assert Told(env, s, id);
      if env.weather(id).early.Some? {
        W.LeaversAreCancelled(env, s.worker, e, id);
      }
    }
  }

  /** A key held by a live request has no standing commit of another request. */
  lemma {:induction false} HolderIsAlone(s: State, key: string, holder: nat, id: nat)
    requires P.HoldersOwn(s.idem, key) && id in s.idem.requests && s.idem.requests[id].key == key
    requires Stands(s, id) && P.HoldsKey(s.idem, holder, key)
    ensures id == holder
  {
    assert P.OwnsRow(s.idem, holder);
    if P.Holds(s.idem.requests[id]) {
      assert P.HoldsKey(s.idem, id, key);
      P.OneHolder(s.idem, holder, id, key);
    }
  }

  lemma {:induction false} WorkKeepsLinked(env: W.Env, s: State, e: W.Event)
    requires W.Inv(s.worker) && Linked(env, s) && Enabled(env, s, Work(e))
    ensures Linked(env, Next(env, s, Work(e)))
  {
    W.AcceptedGrows(env, s.worker, e);
    var s' := Next(env, s, Work(e));
    forall id | id in s.idem.requests ensures Told(env, s', id) {
      WorkAnswers(env, s, e, id);
      hide W.Next;
      assert Told(env, s, id);
    }
  }

  lemma {:induction false} WorkCommits(env: W.Env, s: State, e: W.Event, id: nat)
    requires W.Inv(s.worker) && Linked(env, s) && Enabled(env, s, Work(e))
    requires Committed(Next(env, s, Work(e)), id)
    ensures Committed(s, id) || IsRunning(s, id)
  {
    WorkAnswers(env, s, e, id);
  }

  lemma {:induction false} RunningIsAlone(env: W.Env, s: State, key: string, a: nat, b: nat)
    requires Inv(env, s, key) && IsUnder(s, a, key) && IsUnder(s, b, key) && s.born[a] == s.born[b]
    requires IsRunning(s, a) && (IsRunning(s, b) || (Committed(s, b) && !Deserted(s, b)))
    ensures a == b
  {
    hide W.Inv, Linked, CommitsUnique, P.RowFaithful, P.AnswersExplained;
    assert P.HoldsKey(s.idem, a, key) && EraOfRequest(s, a);
    if IsRunning(s, b) {
      assert P.HoldsKey(s.idem, b, key);
      P.OneHolder(s.idem, a, b, key);
    } else {
      assert Acknowledged(s, key, b);
      HolderIsAlone(s, key, a, b);
    }
  }

  /** The request whose job has just been committed still holds its key, so nothing else stands there. */
  lemma {:induction false} WorkKeepsUnique(env: W.Env, s: State, e: W.Event, key: string, a: nat, b: nat)
    requires Inv(env, s, key) && Enabled(env, s, Work(e))
    requires var s' := Next(env, s, Work(e)); BothCommitted(s', key, a, b) && !Deserted(s', a) && !Deserted(s', b)
    ensures a == b
  {
    WorkCommits(env, s, e, a);
    WorkCommits(env, s, e, b);
    WorkAnswers(env, s, e, a);
    WorkAnswers(env, s, e, b);
    hide W.Next, W.Inv, P.Inv, Linked, Eras, CommitsStand;
    if IsRunning(s, a) {
      RunningIsAlone(env, s, key, a, b);
    } else if IsRunning(s, b) {
      RunningIsAlone(env, s, key, b, a);
    } else {
      assert BothCommitted(s, key, a, b);
    }
  }

  lemma {:induction false} WorkKeepsStanding(env: W.Env, s: State, e: W.Event, key: string, id: nat)
    requires Inv(env, s, key) && Enabled(env, s, Work(e))
    requires Acknowledged(Next(env, s, Work(e)), key, id)
    ensures Stands(Next(env, s, Work(e)), id)
  {
    WorkCommits(env, s, e, id);
    WorkAnswers(env, s, e, id);
    hide W.Next, W.Inv, P.Inv, Linked, Eras, CommitsUnique;
    if Committed(s, id) {
      assert Acknowledged(s, key, id);
    }
  }

  lemma {:induction false} SameEras(s: State, s': State, key: string)
    requires Eras(s, key) && s'.idem == s.idem && s'.born == s.born && s'.era == s.era
    ensures Eras(s', key)
  {
    forall id | IsUnder(s', id, key) ensures EraOfRequest(s', id) {
      assert IsUnder(s, id, key);
    }
  }

  lemma {:induction false} WorkKeepsInv(env: W.Env, s: State, e: W.Event, key: string)
    requires Inv(env, s, key) && Enabled(env, s, Work(e))
    ensures Inv(env, Next(env, s, Work(e)), key)
  {
    var s' := Next(env, s, Work(e));
    W.NextKeepsInv(env, s.worker, e);
    WorkKeepsLinked(env, s, e);
    SameEras(s, s', key);
    forall id | Acknowledged(s', key, id) ensures Stands(s', id) {
      WorkKeepsStanding(env, s, e, key, id);
    }
    forall a, b | BothCommitted(s', key, a, b) && !Deserted(s', a) && !Deserted(s', b) ensures a == b {
      WorkKeepsUnique(env, s, e, key, a, b);
    }
    hide W.Inv, W.Next, P.Inv, Linked, Eras, Acknowledged, BothCommitted, Deserted, Stands;
  }

  // ---------------------------------------------------------------- steps of the protocol

  lemma {:induction false} SubmitEffect(env: W.Env, s: W.State, job: Job)
    requires W.Enabled(s, W.Submit(job))
    ensures var s' := W.Next(env, s, W.Submit(job));
            && s'.settled == s.settled
            && W.JobIds(s'.accepted) == W.JobIds(s.accepted) + if W.Admit(s, job).Accepted? then {job.id} else {}
  {
    W.JobIdsConcat(s.accepted, [job]);
    assert W.JobIds([job]) == {job.id} by {
      assert [job][0].id == job.id;
    }
  }

  /** What the protocol's part of a step is: the worker sees nothing of it but a submission. */
  lemma {:induction false} ProtocolEffect(env: W.Env, s: State, e: Event)
    requires Enabled(env, s, e) && !e.Work?
    ensures var s' := Next(env, s, e);
            && s'.worker.settled == s.worker.settled
            && (if e.Submit? && W.Admit(s.worker, s.payload[e.id]).Accepted?
                then s'.idem == s.idem && W.JobIds(s'.worker.accepted) == W.JobIds(s.worker.accepted) + {e.id}
                else W.JobIds(s'.worker.accepted) == W.JobIds(s.worker.accepted))
  {
    if e.Submit? {
      SubmitEffect(env, s.worker, s.payload[e.id]);
    }
  }

  /** The protocol's event behind a step, if there is one. */
  function Projection(env: W.Env, s: State, e: Event): Option<P.Event>
    requires Enabled(env, s, e)
  {
    match e
    case Arrive(id, key, path, hash, _) => Some(P.Arrive(id, key, path, hash))
    case Probe(id) => Some(P.Probe(id))
    case Submit(id, body) =>
      (match W.Admit(s.worker, s.payload[id])
       case Accepted => None
       case Invalid => Some(P.Return(id, 400, body))
       case QueueFull => Some(P.Return(id, 503, body)))
    case Work(_) => None
    case Collect(id, body) => Some(P.Return(id, StatusOf(s.worker.settled.mail[id]), body))
    case Abandon(id, body) => Some(P.Return(id, 500, body))
    case Settle(id) => Some(P.Settle(id))
    case Elapse(ms) => Some(P.Elapse(ms))
    case Sweep => Some(P.Sweep)
  }

  lemma {:induction false} ProjectionIsStep(env: W.Env, s: State, e: Event)
    requires Enabled(env, s, e)
    ensures match Projection(env, s, e)
            case Some(p) =>
              && P.Enabled(s.idem, p) && Next(env, s, e).idem == P.Next(s.idem, p)
              && (p.Elapse? ==> e == Elapse(p.ms)) && (p.Sweep? <==> e.Sweep?) && !p.Crash?
            case None => Next(env, s, e).idem == s.idem
    ensures Next(env, s, e).born == if e.Arrive? then s.born[e.id := Era(s.era, e.key)] else s.born
  {
    hide W.Next;
  }

  lemma {:induction false} PartsKeepInv(env: W.Env, s: State, e: Event, key: string)
    requires P.Inv(s.idem, key) && W.Inv(s.worker) && Enabled(env, s, e) && InLease(s, e, key) && !e.Work?
    ensures P.Inv(Next(env, s, e).idem, key) && W.Inv(Next(env, s, e).worker)
  {
    ProjectionIsStep(env, s, e);
    WorkerKeepsInv(env, s, e);
    hide W.Inv, P.Inv, W.Next, P.Next, Next;
    match Projection(env, s, e) {
      case Some(p) => P.NextKeepsInv(s.idem, p, key);
      case None =>
    }
  }

  lemma {:induction false} WorkerKeepsInv(env: W.Env, s: State, e: Event)
    requires W.Inv(s.worker) && Enabled(env, s, e)
    ensures W.Inv(Next(env, s, e).worker)
  {
    if e.Work? {
      W.NextKeepsInv(env, s.worker, e.e);
    } else if e.Submit? {
      W.SubmitKeepsInv(env, s.worker, s.payload[e.id]);
    }
    hide W.Inv, W.Next;
  }

  /** How the protocol moves one request. */
  predicate Moved(r: P.Request, r': P.Request, p: P.Event, id: nat) {
    && r'.key == r.key
    && (r' == r ||
        match r.phase
        case Probing => r'.phase.Answered? && !r'.phase.response.Fresh?
        case Running(_, _) => p.Return? && p.id == id && r'.phase.Finishing? && r'.phase.code == p.code
        case Finishing(_, _, code, body) => p.Settle? && p.id == id && r'.phase == P.Answered(Fresh(code, body))
        case _ => false)
  }

  lemma {:induction false} RequestMoves(s: P.State, p: P.Event, id: nat)
    requires P.Guarded(s) && P.Enabled(s, p) && !p.Crash? && id in P.Next(s, p).requests
    ensures if id in s.requests then Moved(s.requests[id], P.Next(s, p).requests[id], p, id)
            else p.Arrive? && p.id == id && P.Next(s, p).requests[id].key == p.key
                 && (P.Next(s, p).requests[id].phase.Probing? || P.Next(s, p).requests[id].phase.Running?)
  {
  }

  /** A row is kept with its writer, or freshly locked, or just completed by its holder. */
  lemma {:induction false} RowMoves(s: P.State, p: P.Event, key: string)
    requires P.Enabled(s, p) && key in P.Next(s, p).rows
    ensures var s' := P.Next(s, p);
            || (s'.rows[key].status != COMPLETED)
            || (key in s.rows && s'.rows[key] == s.rows[key] && (key in s.writer <==> key in s'.writer)
                && (key in s.writer ==> s'.writer[key] == s.writer[key]))
            || (p.Settle? && key == s.requests[p.id].key && s'.writer == s.writer)
  {
  }

  lemma {:induction false} StepMoves(env: W.Env, s: State, e: Event, id: nat)
    requires P.Guarded(s.idem) && Enabled(env, s, e) && id in Next(env, s, e).idem.requests
    ensures if id in s.idem.requests then
              match Projection(env, s, e)
              case Some(p) => Moved(s.idem.requests[id], Next(env, s, e).idem.requests[id], p, id)
              case None => Next(env, s, e).idem.requests[id] == s.idem.requests[id]
            else e.Arrive? && e.id == id && Next(env, s, e).idem.requests[id].key == e.key
                 && (Next(env, s, e).idem.requests[id].phase.Probing?
                     || Next(env, s, e).idem.requests[id].phase.Running?)
  {
    ProjectionIsStep(env, s, e);
    hide Next, P.Next, P.Guarded;
    match Projection(env, s, e) {
      case Some(p) => RequestMoves(s.idem, p, id);
      case None =>
    }
  }

  lemma {:induction false} NewcomerIsTold(env: W.Env, s: State, e: Event, id: nat)
    requires P.Guarded(s.idem) && Linked(env, s) && Enabled(env, s, e) && !e.Work?
    requires id !in s.idem.requests && id in Next(env, s, e).idem.requests
    ensures Told(env, Next(env, s, e), id) && id in Next(env, s, e).born
  {
    ProtocolEffect(env, s, e);
    ProjectionIsStep(env, s, e);
    StepMoves(env, s, e, id);
    hide Next, W.JobIds, P.Guarded, Heard, Projection;
  }

  lemma {:induction false} PayloadStays(env: W.Env, s: State, e: Event, id: nat)
    requires Enabled(env, s, e) && id in s.idem.requests && id in s.payload
    ensures id in Next(env, s, e).payload && Next(env, s, e).payload[id] == s.payload[id]
  {
    hide W.Next;
  }

  /** What a request was told stays true while its answer, its job and its reply stay as they are. */
  lemma {:induction false} StillTold(env: W.Env, s: State, s': State, id: nat)
    requires id in s.idem.requests && id in s'.idem.requests && Told(env, s, id)
    requires s'.worker.settled == s.worker.settled && (IsAccepted(s', id) <==> IsAccepted(s, id))
    requires id in s.payload ==> id in s'.payload && s'.payload[id] == s.payload[id]
    requires var phase, phase' := s.idem.requests[id].phase, s'.idem.requests[id].phase;
             || phase' == phase
             || (phase.Probing? && phase'.Answered? && !phase'.response.Fresh?)
             || (phase.Finishing? && phase' == P.Answered(Fresh(phase.code, phase.body)))
    ensures Told(env, s', id)
  {
    hide IsAccepted, StatusOf, Malformed;
  }

  lemma {:induction false} ProtocolKeepsTold(env: W.Env, s: State, e: Event, id: nat)
    requires P.Guarded(s.idem) && Linked(env, s) && Enabled(env, s, e) && !e.Work?
    requires id in s.idem.requests && id in Next(env, s, e).idem.requests
    ensures Told(env, Next(env, s, e), id) && id in Next(env, s, e).born
  {
    ProtocolEffect(env, s, e);
    ProjectionIsStep(env, s, e);
    StepMoves(env, s, e, id);
    assert Told(env, s, id);
    if id in s.payload {
      PayloadStays(env, s, e, id);
    }
    hide Next, P.Next, W.Next, W.JobIds, P.Guarded, W.Admit, Linked, Malformed;
    if (e.Submit? || e.Collect? || e.Abandon?) && e.id == id {
      ReturnIsTold(env, s, e);
    } else {
      hide Told;
      StillTold(env, s, Next(env, s, e), id);
    }
  }

  /** A handler returns with its job's status, a refusal's, or 500 to a caller who may leave. */
  lemma {:induction false} ReturnIsTold(env: W.Env, s: State, e: Event)
    requires P.Guarded(s.idem) && Linked(env, s) && Enabled(env, s, e) && (e.Submit? || e.Collect? || e.Abandon?)
    requires e.id in Next(env, s, e).idem.requests
    ensures Told(env, Next(env, s, e), e.id)
  {
    ProtocolEffect(env, s, e);
    ProjectionIsStep(env, s, e);
    StepMoves(env, s, e, e.id);
    if e.Submit? {
      PayloadStays(env, s, e, e.id);
    }
    hide Next, P.Next, W.Next, W.JobIds, P.Guarded, Linked, StatusOf;
  }

  lemma {:induction false} RequestsStay(env: W.Env, s: State, e: Event, id: nat)
    requires Enabled(env, s, e) && id in s.idem.requests
    ensures id in Next(env, s, e).idem.requests
  {
    ProjectionIsStep(env, s, e);
    hide Next, W.Next, Projection, Finished, Without;
  }

  lemma {:induction false} ProtocolKeepsRequests(env: W.Env, s: State, e: Event, id: nat)
    requires Linked(env, s) && Enabled(env, s, e) && !e.Work?
    requires id in s.idem.requests || id in W.JobIds(Next(env, s, e).worker.accepted)
    ensures id in Next(env, s, e).idem.requests
  {
    ProtocolEffect(env, s, e);
    hide W.JobIds, Told, Next, W.Admit;
    if id in s.idem.requests {
      RequestsStay(env, s, e, id);
    }
  }

  lemma {:induction false} ProtocolKeepsLinked(env: W.Env, s: State, e: Event)
    requires P.Guarded(s.idem) && Linked(env, s) && Enabled(env, s, e) && !e.Work?
    ensures Linked(env, Next(env, s, e))
  {
    var s' := Next(env, s, e);
    forall id | id in s'.idem.requests ensures Told(env, s', id) && id in s'.born {
      if id in s.idem.requests {
        ProtocolKeepsTold(env, s, e, id);
      } else {
        NewcomerIsTold(env, s, e, id);
      }
    }
    forall id | id in W.JobIds(s'.worker.accepted) ensures id in s'.idem.requests {
      ProtocolKeepsRequests(env, s, e, id);
    }
    hide Next, W.JobIds, P.Guarded, Told;
  }

  /** Commits are the worker's doing: every other step finds them and leaves them. */
  lemma {:induction false} ProtocolKeepsCommits(env: W.Env, s: State, e: Event, id: nat)
    requires P.Guarded(s.idem) && W.Inv(s.worker) && Linked(env, s) && Enabled(env, s, e) && !e.Work?
    requires Committed(Next(env, s, e), id)
    ensures Committed(s, id) && id in s.idem.requests && id in s.born
    ensures id in Next(env, s, e).idem.requests && Next(env, s, e).idem.requests[id].key == s.idem.requests[id].key
    ensures Next(env, s, e).born[id] == s.born[id]
    ensures Deserted(s, id) ==> Deserted(Next(env, s, e), id)
  {
    ProtocolEffect(env, s, e);
    ProjectionIsStep(env, s, e);
    AnsweredIsAccepted(s.worker, id);
    ProtocolKeepsRequests(env, s, e, id);
    StepMoves(env, s, e, id);
    hide Next, P.Next, W.Next, W.JobIds, W.Inv, W.Admit, Told;
  }

  lemma {:induction false} EraStep(env: W.Env, s: State, e: Event, key: string)
    requires Enabled(env, s, e)
    ensures Era(Next(env, s, e).era, key) ==
            Era(s.era, key) + if e.Sweep? && key in s.idem.rows && key !in Next(env, s, e).idem.rows then 1 else 0
  {
    hide W.Next;
  }

  /** A held row is at most a minute old, so the sweep spares it. */
  lemma {:induction false} HeldKeyKeepsItsEra(env: W.Env, s: State, e: Event, key: string, id: nat)
    requires P.HoldersOwn(s.idem, key) && P.HoldsKey(s.idem, id, key) && Enabled(env, s, e)
    ensures Era(Next(env, s, e).era, key) == Era(s.era, key)
  {
    EraStep(env, s, e, key);
    assert P.OwnsRow(s.idem, id);
    if e.Sweep? {
      ProjectionIsStep(env, s, e);
    }
    hide Next, P.HoldersOwn;
  }

  lemma {:induction false} ProtocolKeepsEra(env: W.Env, s: State, e: Event, key: string, id: nat)
    requires P.Inv(s.idem, key) && Eras(s, key) && Enabled(env, s, e) && !e.Work?
    requires IsUnder(s, id, key) && IsUnder(Next(env, s, e), id, key)
    ensures EraOfRequest(Next(env, s, e), id)
  {
    StepMoves(env, s, e, id);
    EraStep(env, s, e, key);
    ProjectionIsStep(env, s, e);
    if P.Holds(s.idem.requests[id]) {
      assert P.HoldsKey(s.idem, id, key);
      HeldKeyKeepsItsEra(env, s, e, key, id);
    }
    assert EraOfRequest(s, id);
    hide Next, P.Next, P.Inv, Eras, Era;
    assert Next(env, s, e).born[id] == s.born[id];
    assert P.Holds(Next(env, s, e).idem.requests[id]) ==> P.Holds(s.idem.requests[id]);
  }

  lemma {:induction false} NewcomersEra(env: W.Env, s: State, e: Event, id: nat)
    requires P.Guarded(s.idem) && Enabled(env, s, e) && !e.Work?
    requires id !in s.idem.requests && id in Next(env, s, e).idem.requests && id in Next(env, s, e).born
    ensures EraOfRequest(Next(env, s, e), id)
  {
    StepMoves(env, s, e, id);
    EraStep(env, s, e, e.key);
  }

  lemma {:induction false} ProtocolKeepsRowEra(env: W.Env, s: State, e: Event, key: string)
    requires P.Inv(s.idem, key) && Linked(env, s) && Eras(s, key) && Enabled(env, s, e) && !e.Work?
    requires key in Next(env, s, e).idem.rows
    ensures EraOfRow(Next(env, s, e), key)
  {
    ProjectionIsStep(env, s, e);
    EraStep(env, s, e, key);
    if key in s.idem.rows && s.idem.rows[key].status == COMPLETED {
      assert P.Faithful(s.idem, key);
    }
    if e.Settle? && s.idem.requests[e.id].key == key {
      assert P.HoldsKey(s.idem, e.id, key);
      assert P.OwnsRow(s.idem, e.id);
      assert IsUnder(s, e.id, key) && EraOfRequest(s, e.id);
    }
    match Projection(env, s, e) {
      case Some(p) => RowMoves(s.idem, p, key);
      case None =>
    }
    hide Next, P.Next, W.Next, W.JobIds, W.Inv, W.Admit, Told, P.HoldersOwn, P.RowFaithful, P.AnswersExplained;
  }

  lemma {:induction false} ProtocolKeepsEras(env: W.Env, s: State, e: Event, key: string)
    requires P.Inv(s.idem, key) && Linked(env, s) && Eras(s, key) && Enabled(env, s, e) && !e.Work?
    ensures Eras(Next(env, s, e), key)
  {
    var s' := Next(env, s, e);
    forall id | IsUnder(s', id, key) ensures EraOfRequest(s', id) {
      if id in s.idem.requests {
        StepMoves(env, s, e, id);
        assert IsUnder(s, id, key);
        ProtocolKeepsEra(env, s, e, key, id);
      } else {
        NewcomersEra(env, s, e, id);
      }
    }
    if key in s'.idem.rows {
      ProtocolKeepsRowEra(env, s, e, key);
    }
    hide Next, P.Next, P.HoldersOwn, P.RowFaithful, P.AnswersExplained, P.Guarded, Told, EraOfRequest, EraOfRow;
  }

  /** A request that settles after its commit, and was not deserted, stores 200 under its own name. */
  lemma {:induction false} SettleKeepsStanding(env: W.Env, s: State, e: Event, key: string, id: nat)
    requires P.Inv(s.idem, key) && W.Inv(s.worker) && Linked(env, s) && Enabled(env, s, e) && e.Settle?
    requires id in s.idem.requests && s.idem.requests[id].key == key
    requires Committed(s, id) && !Deserted(s, id) && Stands(s, id)
    ensures Stands(Next(env, s, e), id)
  {
    AnsweredIsAccepted(s.worker, id);
    hide W.Inv, W.JobIds, P.RowFaithful, P.AnswersExplained;
    if s.idem.requests[e.id].key == key {
      assert P.HoldsKey(s.idem, e.id, key);
      assert P.OwnsRow(s.idem, e.id);
      HolderIsAlone(s, key, e.id, id);
      assert Told(env, s, id);
    }
  }

  /** The writer of a completed row stays on record as long as the row does. */
  lemma {:induction false} WriterStays(s: P.State, p: P.Event, key: string)
    requires P.Inv(s, key) && P.Enabled(s, p)
    requires key in s.rows && s.rows[key].status == COMPLETED && key in s.writer
    ensures key in P.Next(s, p).writer && P.Next(s, p).writer[key] == s.writer[key]
    ensures if key in P.Next(s, p).rows then P.Next(s, p).rows[key] == s.rows[key] else p.Sweep?
  {
    P.CompletedRowIsFrozen(s, p, key);
    hide P.RowFaithful, P.HoldersOwn, P.AnswersExplained;
  }

  lemma {:induction false} ProtocolKeepsStanding(env: W.Env, s: State, e: Event, key: string, id: nat)
    requires P.Inv(s.idem, key) && W.Inv(s.worker) && Linked(env, s) && Enabled(env, s, e) && !e.Work?
    requires id in s.idem.requests && s.idem.requests[id].key == key
    requires Committed(s, id) && !Deserted(s, id) && Stands(s, id) && id in Next(env, s, e).idem.requests
    requires Era(Next(env, s, e).era, key) == Era(s.era, key)
    ensures Stands(Next(env, s, e), id)
  {
    if e.Settle? {
      SettleKeepsStanding(env, s, e, key, id);
    } else {
      ProjectionIsStep(env, s, e);
      EraStep(env, s, e, key);
      StepMoves(env, s, e, id);
      if !P.Holds(s.idem.requests[id]) && Projection(env, s, e).Some? {
        WriterStays(s.idem, Projection(env, s, e).value, key);
      }
      hide Next, P.Next, W.Next, W.Inv, W.JobIds, W.Admit, Told, P.Inv, Linked;
    }
  }

  lemma {:induction false} ProtocolKeepsCommitsStanding(env: W.Env, s: State, e: Event, key: string, id: nat)
    requires Inv(env, s, key) && Enabled(env, s, e) && !e.Work?
    requires Acknowledged(Next(env, s, e), key, id)
    ensures Stands(Next(env, s, e), id)
  {
    ProtocolKeepsCommits(env, s, e, id);
    EraStep(env, s, e, key);
    hide Next, P.Inv, W.Inv, Stands, Committed, Told, Deserted;
    assert IsUnder(s, id, key) && EraOfRequest(s, id);
    assert Acknowledged(s, key, id);
    ProtocolKeepsStanding(env, s, e, key, id);
  }

  lemma {:induction false} ProtocolKeepsUnique(env: W.Env, s: State, e: Event, key: string, a: nat, b: nat)
    requires Inv(env, s, key) && Enabled(env, s, e) && !e.Work?
    requires var s' := Next(env, s, e); BothCommitted(s', key, a, b) && !Deserted(s', a) && !Deserted(s', b)
    ensures a == b
  {
    ProtocolKeepsCommits(env, s, e, a);
    ProtocolKeepsCommits(env, s, e, b);
    hide Next, P.Inv, W.Inv, Linked, Eras, CommitsStand, Committed, Deserted;
    assert BothCommitted(s, key, a, b);
  }

  lemma {:induction false} ProtocolKeepsInv(env: W.Env, s: State, e: Event, key: string)
    requires Inv(env, s, key) && Enabled(env, s, e) && InLease(s, e, key) && !e.Work?
    ensures Inv(env, Next(env, s, e), key)
  {
    var s' := Next(env, s, e);
    PartsKeepInv(env, s, e, key);
    ProtocolKeepsLinked(env, s, e);
    ProtocolKeepsEras(env, s, e, key);
    forall id | Acknowledged(s', key, id) ensures Stands(s', id) {
      ProtocolKeepsCommitsStanding(env, s, e, key, id);
    }
    forall a, b | BothCommitted(s', key, a, b) && !Deserted(s', a) && !Deserted(s', b) ensures a == b {
      ProtocolKeepsUnique(env, s, e, key, a, b);
    }
    hide Next, P.HoldersOwn, P.RowFaithful, P.AnswersExplained, W.Inv, Linked, Eras, Stands, Committed, Deserted;
  }

  lemma {:induction false} NextKeepsInv(env: W.Env, s: State, e: Event, key: string)
    requires Inv(env, s, key) && Enabled(env, s, e) && InLease(s, e, key)
    ensures Inv(env, Next(env, s, e), key)
  {
    hide Inv, Next;
    match e {
      case Work(e) => WorkKeepsInv(env, s, e, key);
      case _ => ProtocolKeepsInv(env, s, e, key);
    }
  }

  lemma {:induction false} RunKeepsInv(env: W.Env, s: State, es: seq<Event>, key: string)
    requires Inv(env, s, key) && CanRun(env, s, es) && KeepsLease(env, s, es, key)
    ensures Inv(env, Run(env, s, es), key)
    decreases |es|
  {
    if es == [] {
    } else {
      NextKeepsInv(env, s, es[0], key);
      hide Inv, Next, InLease, Enabled;
      RunKeepsInv(env, Next(env, s, es[0]), es[1..], key);
    }
  }

  lemma {:induction false} NextKeepsLoose(env: W.Env, s: State, e: Event)
    requires Loose(env, s) && Enabled(env, s, e)
    ensures Loose(env, Next(env, s, e))
  {
    ProjectionIsStep(env, s, e);
    WorkerKeepsInv(env, s, e);
    if e.Work? {
      WorkKeepsLinked(env, s, e.e);
    } else {
      ProtocolKeepsLinked(env, s, e);
    }
    match Projection(env, s, e) {
      case Some(p) => P.NextGuarded(s.idem, p);
      case None =>
    }
    hide Next, P.Next, W.Inv, Linked, P.Guarded;
  }

  lemma {:induction false} BootInv(env: W.Env, now: int, capacity: nat, store: Store, key: string)
    ensures Inv(env, Boot(now, capacity, store), key) && Loose(env, Boot(now, capacity, store))
  {
  }

  // ---------------------------------------------------------------- at most once

  /**
    Two commits under one key have a sweep of that key between them, or one of them was
    deserted: committed, and then answered 500 because its caller had left.
  */
  lemma {:induction false} DoubleCommitMeansDesertion(
    env: W.Env, now: int, capacity: nat, store: Store, es: seq<Event>, key: string, a: nat, b: nat)
    requires CanRun(env, Boot(now, capacity, store), es) && KeepsLease(env, Boot(now, capacity, store), es, key)
    requires BothCommitted(Run(env, Boot(now, capacity, store), es), key, a, b) && a != b
    ensures var s := Run(env, Boot(now, capacity, store), es); Deserted(s, a) || Deserted(s, b)
  {
    BootInv(env, now, capacity, store, key);
    hide Run, CanRun, KeepsLease, BothCommitted, Deserted, P.Inv, W.Inv, Linked, Eras, CommitsStand, Boot;
    RunKeepsInv(env, Boot(now, capacity, store), es, key);
  }

  lemma {:induction false} DesertedSettleFreesKey(env: W.Env, s: State, key: string, a: nat)
    requires Inv(env, s, key) && IsUnder(s, a, key) && Deserted(s, a) && Enabled(env, s, Settle(a))
    ensures var s1 := Next(env, s, Settle(a));
            && key !in s1.idem.rows && Era(s1.era, key) == s.born[a]
            && IsUnder(s1, a, key) && s1.born == s.born && Deserted(s1, a)
            && s1.idem.requests.Keys == s.idem.requests.Keys
  {
    assert P.HoldsKey(s.idem, a, key) && EraOfRequest(s, a);
    hide Inv, Linked, Eras, P.HoldersOwn, Stored;
  }

  lemma {:induction false} FreeKeyIsTaken(
    env: W.Env, s: State, key: string, b: nat, path: string, hash: string, job: Job)
    requires key !in s.idem.rows && b !in s.idem.requests && hash != "" && job.id == b
    ensures Enabled(env, s, Arrive(b, key, path, hash, job))
    ensures var s' := Next(env, s, Arrive(b, key, path, hash, job));
            && IsRunning(s', b) && IsUnder(s', b, key) && s'.born == s.born[b := Era(s.era, key)]
            && s'.worker == s.worker && s'.idem.requests == s.idem.requests[b := s'.idem.requests[b]]
  {
  }

  /**
    The converse: whenever a deserted request settles, its key is free again in the same era,
    and the next request under it goes to its handler, whatever its payload.
  */
  lemma {:induction false} DesertionReopensKey(
    env: W.Env, s: State, key: string, a: nat, b: nat, path: string, hash: string, job: Job)
    requires Inv(env, s, key) && IsUnder(s, a, key) && Deserted(s, a) && Enabled(env, s, Settle(a))
    requires b !in s.idem.requests && hash != "" && job.id == b
    ensures var s1 := Next(env, s, Settle(a));
            && Enabled(env, s1, Arrive(b, key, path, hash, job))
            && var s2 := Next(env, s1, Arrive(b, key, path, hash, job));
               IsRunning(s2, b) && IsUnder(s2, b, key) && s2.born[b] == s2.born[a] && Deserted(s2, a)
  {
    DesertedSettleFreesKey(env, s, key, a);
    hide Inv;
    FreeKeyIsTaken(env, Next(env, s, Settle(a)), key, b, path, hash, job);
    hide Next, Enabled, Era;
  }

  ghost predicate NoneDeserted(s: State, key: string) {
    forall id :: id in s.idem.requests && s.idem.requests[id].key == key ==> !Deserted(s, id)
  }

  /** Only leaving deserts a commit. */
  lemma {:induction false} DesertionNeedsLeaving(env: W.Env, s: State, e: Event, id: nat)
    requires Loose(env, s) && Enabled(env, s, e) && Deserted(Next(env, s, e), id)
    ensures id in s.idem.requests && Next(env, s, e).idem.requests[id].key == s.idem.requests[id].key
    ensures Deserted(s, id) || (e.Abandon? && e.id == id)
  {
    if e.Work? {
      WorkCommits(env, s, e.e, id);
      WorkAnswers(env, s, e.e, id);
      hide W.Next, W.Inv, Linked;
    } else {
      ProtocolKeepsCommits(env, s, e, id);
      ProtocolEffect(env, s, e);
      StepMoves(env, s, e, id);
      hide Next, W.Next, P.Next, W.Inv, W.JobIds, W.Admit, Linked, P.Guarded;
    }
  }

  lemma {:induction false} PatientRunsDesertNobody(env: W.Env, s: State, es: seq<Event>, key: string)
    requires Loose(env, s) && NoneDeserted(s, key) && CanRun(env, s, es) && Patient(env, s, es, key)
    ensures NoneDeserted(Run(env, s, es), key)
    decreases |es|
  {
    if es == [] {
    } else {
      var s' := Next(env, s, es[0]);
      NextKeepsLoose(env, s, es[0]);
      forall id | id in s'.idem.requests && s'.idem.requests[id].key == key ensures !Deserted(s', id) {
        if Deserted(s', id) {
          DesertionNeedsLeaving(env, s, es[0], id);
          assert false;
        }
      }
      hide Next, Loose, Deserted, Enabled, IsPatient;
      PatientRunsDesertNobody(env, s', es[1..], key);
    }
  }

  /** At most once: if no caller under the key leaves, it commits once until it is swept. */
  lemma {:induction false} AtMostOnce(
    env: W.Env, now: int, capacity: nat, store: Store, es: seq<Event>, key: string, a: nat, b: nat)
    requires CanRun(env, Boot(now, capacity, store), es) && KeepsLease(env, Boot(now, capacity, store), es, key)
    requires Patient(env, Boot(now, capacity, store), es, key)
    requires BothCommitted(Run(env, Boot(now, capacity, store), es), key, a, b)
    ensures a == b
  {
    var s := Run(env, Boot(now, capacity, store), es);
    BootInv(env, now, capacity, store, key);
    PatientRunsDesertNobody(env, Boot(now, capacity, store), es, key);
    hide Run, CanRun, KeepsLease, Deserted, Patient, Loose, Boot, Inv;
    if a != b {
      DoubleCommitMeansDesertion(env, now, capacity, store, es, key, a, b);
      assert false;
    }
  }

  lemma {:induction false} RunKeepsLoose(env: W.Env, s: State, es: seq<Event>)
    requires Loose(env, s) && CanRun(env, s, es)
    ensures Loose(env, Run(env, s, es))
    decreases |es|
  {
    if es == [] {
    } else {
      NextKeepsLoose(env, s, es[0]);
      hide Next, Loose, Enabled;
      RunKeepsLoose(env, Next(env, s, es[0]), es[1..]);
    }
  }

  /** Only requests that went through the middleware commit, leases kept or not. */
  lemma {:induction false} CommitsHaveRequests(
    env: W.Env, now: int, capacity: nat, store: Store, es: seq<Event>, id: nat)
    requires CanRun(env, Boot(now, capacity, store), es)
    requires Committed(Run(env, Boot(now, capacity, store), es), id)
    ensures var s := Run(env, Boot(now, capacity, store), es);
            id in s.idem.requests && id in s.born && (IsRunning(s, id) || Told(env, s, id))
  {
    BootInv(env, now, capacity, store, "");
    hide Run, CanRun, Boot, Told;
    RunKeepsLoose(env, Boot(now, capacity, store), es);
    AnsweredIsAccepted(Run(env, Boot(now, capacity, store), es).worker, id);
  }

  // ---------------------------------------------------------------- what an answer is worth

  /** The handler has returned. */
  predicate Ended(s: State, id: nat) {
    id in s.idem.requests && (s.idem.requests[id].phase.Finishing? || s.idem.requests[id].phase.Answered?)
  }

  lemma {:induction false} EndedStays(env: W.Env, s: State, e: Event, id: nat)
    requires Loose(env, s) && Enabled(env, s, e) && Ended(s, id)
    ensures Ended(Next(env, s, e), id)
    ensures forall code :: EndedWith(s.idem.requests[id], code) ==> EndedWith(Next(env, s, e).idem.requests[id], code)
  {
    RequestsStay(env, s, e, id);
    StepMoves(env, s, e, id);
    hide Next, Projection, Linked, W.Inv, P.Guarded;
  }

  lemma {:induction false} FateStep(env: W.Env, s: State, e: Event, id: nat)
    requires Loose(env, s) && Enabled(env, s, e) && Ended(s, id)
    ensures Committed(Next(env, s, e), id) <==> Committed(s, id)
  {
    if e.Work? {
      WorkAnswers(env, s, e.e, id);
      hide W.Next, W.Inv, Linked;
    } else {
      ProtocolEffect(env, s, e);
      hide Next, W.Inv, Linked;
    }
  }

  /** Once its handler has returned, a request that has not committed never will. */
  lemma {:induction false} FateIsSealed(env: W.Env, s: State, es: seq<Event>, id: nat)
    requires Loose(env, s) && CanRun(env, s, es) && Ended(s, id)
    ensures Committed(Run(env, s, es), id) <==> Committed(s, id)
    decreases |es|
  {
    if es == [] {
    } else {
      NextKeepsLoose(env, s, es[0]);
      EndedStays(env, s, es[0], id);
      FateStep(env, s, es[0], id);
      hide Next, Loose, Enabled, Committed, Ended;
      FateIsSealed(env, Next(env, s, es[0]), es[1..], id);
    }
  }

  lemma {:induction false} CodesMeanCommits(env: W.Env, s: State, id: nat, code: int)
    requires Loose(env, s) && id in s.idem.requests && EndedWith(s.idem.requests[id], code)
    ensures code == 200 ==> Committed(s, id)
    ensures Committed(s, id) ==> code == 200 || (code == 500 && Deserted(s, id))
  {
    assert Told(env, s, id);
    if Committed(s, id) {
      AnsweredIsAccepted(s.worker, id);
    }
    hide W.Inv, W.JobIds;
  }

  /** What each code means of a request that was answered. */
  ghost predicate CodeExplained(s: State, id: nat, code: int) {
    if IsAccepted(s, id) then
      code == 500 ||
      (&& id in s.worker.settled.mail
       && match s.worker.settled.mail[id]
          case Completed => code == 200
          case Rejected(NotFound) => code == 404
          case Rejected(InvalidInput) => code == 400
          case Rejected(InsufficientFunds) => code == 400
          case _ => false)
    else Refused(s, id, code)
  }

  lemma {:induction false} CodesAreExplained(env: W.Env, s: State, id: nat, code: int)
    requires Loose(env, s) && id in s.idem.requests && EndedWith(s.idem.requests[id], code)
    ensures CodeExplained(s, id, code)
  {
    assert Told(env, s, id);
    hide W.Inv, W.JobIds;
  }

  /**
    What a caller may conclude, in every run, leases kept or not: a request told 200 has
    committed; one that commits, now or in any continuation, was told 200, or 500 because its
    caller had left; so one told anything else never commits.  A job that was not accepted was
    told 400 if it was malformed and 503 otherwise; one that was accepted and not told 500 was
    told the status of its reply.
  */
  lemma {:induction false} AnswersTellTheTruth(
    env: W.Env, now: int, capacity: nat, store: Store, es: seq<Event>, later: seq<Event>, id: nat, code: int)
    requires CanRun(env, Boot(now, capacity, store), es)
    requires CanRun(env, Run(env, Boot(now, capacity, store), es), later)
    requires var s := Run(env, Boot(now, capacity, store), es);
             id in s.idem.requests && EndedWith(s.idem.requests[id], code)
    ensures var s := Run(env, Boot(now, capacity, store), es);
            && (code == 200 ==> Committed(s, id))
            && (Committed(Run(env, s, later), id) ==>
                  Committed(s, id) && (code == 200 || (code == 500 && Deserted(s, id))))
            && CodeExplained(s, id, code)
  {
    BootInv(env, now, capacity, store, "");
    hide Run, CanRun, Boot, Loose, Inv, Committed, Deserted;
    RunKeepsLoose(env, Boot(now, capacity, store), es);
    var s := Run(env, Boot(now, capacity, store), es);
    CodesMeanCommits(env, s, id, code);
    CodesAreExplained(env, s, id, code);
    FateIsSealed(env, s, later, id);
  }

  // ---------------------------------------------------------------- refusals

  /**
    ProcessTransfer up to its wait: 400 exactly to a malformed transfer, 503 exactly to a
    well-formed one that finds the queue at capacity; any other job is enqueued.
  */
  lemma {:induction false} SubmitIsAnswered(env: W.Env, s: State, id: nat, body: Body)
    requires Enabled(env, s, Submit(id, body))
    ensures var s1, job := Next(env, s, Submit(id, body)), s.payload[id];
            var malformed := job.from <= 0 || job.to <= 0 || job.amount <= 0 || job.from == job.to;
            var full := |s.worker.queue| >= s.worker.capacity;
            && id in s1.idem.requests && s1.idem.rows == s.idem.rows
            && (EndedWith(s1.idem.requests[id], 400) <==> malformed)
            && (EndedWith(s1.idem.requests[id], 503) <==> !malformed && full)
            && (IsRunning(s1, id) <==> !malformed && !full)
            && s1.worker.queue == s.worker.queue + if malformed || full then [] else [job]
  {
  }

  lemma {:induction false} EndedStaysEnded(env: W.Env, s: State, es: seq<Event>, id: nat, code: int)
    requires Loose(env, s) && CanRun(env, s, es) && id in s.idem.requests && EndedWith(s.idem.requests[id], code)
    ensures id in Run(env, s, es).idem.requests && EndedWith(Run(env, s, es).idem.requests[id], code)
    ensures Run(env, s, es).idem.requests[id].key == s.idem.requests[id].key
    decreases |es|
  {
    if es == [] {
    } else {
      NextKeepsLoose(env, s, es[0]);
      EndedStays(env, s, es[0], id);
      StepMoves(env, s, es[0], id);
      hide Next, Loose, Enabled, Projection;
      EndedStaysEnded(env, Next(env, s, es[0]), es[1..], id, code);
    }
  }

  /** What the settling of a request leaves of its key, while the leases are kept. */
  lemma {:induction false} SettleByCode(env: W.Env, s: State, key: string, id: nat, code: int)
    requires Inv(env, s, key) && Enabled(env, s, Settle(id))
    requires s.idem.requests[id].key == key && EndedWith(s.idem.requests[id], code)
    ensures var rows := Next(env, s, Settle(id)).idem.rows;
            if code >= 500 then key !in rows
            else
              && key in rows && rows[key].status == "completed" && rows[key].code == Some(code)
              && rows[key].hash == s.idem.requests[id].hash
  {
    assert P.HoldsKey(s.idem, id, key) && P.OwnsRow(s.idem, id);
    hide Linked, Eras, CommitsStand, CommitsUnique, W.Inv, P.RowFaithful, P.AnswersExplained, Stored;
  }

  /**
    What a refusal does to its key, whatever happens until it settles: after a 400 the row is
    completed with that code, which every retry is then told; after a 503 the key is free and
    the next request under it runs.
  */
  lemma {:induction false} RefusalsSettle(
    env: W.Env, now: int, capacity: nat, store: Store, es: seq<Event>, id: nat, body: Body, later: seq<Event>)
    requires CanRun(env, Boot(now, capacity, store), es)
    requires Enabled(env, Run(env, Boot(now, capacity, store), es), Submit(id, body))
    requires CanRun(env, Next(env, Run(env, Boot(now, capacity, store), es), Submit(id, body)), later)
    requires var s := Run(env, Boot(now, capacity, store), es);
             var s1 := Next(env, s, Submit(id, body));
             && KeepsLease(env, Boot(now, capacity, store), es, s.idem.requests[id].key)
             && KeepsLease(env, s1, later, s.idem.requests[id].key)
             && !IsRunning(s1, id) && Enabled(env, Run(env, s1, later), Settle(id))
    ensures var s := Run(env, Boot(now, capacity, store), es);
            var job, key := s.payload[id], s.idem.requests[id].key;
            var s3 := Next(env, Run(env, Next(env, s, Submit(id, body)), later), Settle(id));
            if job.from <= 0 || job.to <= 0 || job.amount <= 0 || job.from == job.to then
              key in s3.idem.rows && s3.idem.rows[key].status == "completed" && s3.idem.rows[key].code == Some(400)
            else
              && key !in s3.idem.rows
              && forall b, path, hash, retry: Job :: b !in s3.idem.requests && hash != "" && retry.id == b ==>
                   && Enabled(env, s3, Arrive(b, key, path, hash, retry))
                   && IsRunning(Next(env, s3, Arrive(b, key, path, hash, retry)), b)
  {
    var s := Run(env, Boot(now, capacity, store), es);
    var key, e := s.idem.requests[id].key, Submit(id, body);
    var s1 := Next(env, s, e);
    var s2 := Run(env, s1, later);
    BootInv(env, now, capacity, store, key);
    SubmitIsAnswered(env, s, id, body);
    var code := if EndedWith(s1.idem.requests[id], 400) then 400 else 503;
    hide Inv, Loose, CanRun, KeepsLease, Boot, EndedWith;
    RunKeepsInv(env, Boot(now, capacity, store), es, key);
    RunKeepsLoose(env, Boot(now, capacity, store), es);
    StepMoves(env, s, e, id);
    hide Next, Projection, Run;
    NextKeepsInv(env, s, e, key);
    NextKeepsLoose(env, s, e);
    RunKeepsInv(env, s1, later, key);
    EndedStaysEnded(env, s1, later, id, code);
    SettleByCode(env, s2, key, id, code);
    var s3 := Next(env, s2, Settle(id));
    forall b, path, hash, retry: Job | key !in s3.idem.rows && b !in s3.idem.requests && hash != "" && retry.id == b
      ensures Enabled(env, s3, Arrive(b, key, path, hash, retry))
      ensures IsRunning(Next(env, s3, Arrive(b, key, path, hash, retry)), b)
    {
      FreeKeyIsTaken(env, s3, key, b, path, hash, retry);
    }
  }

  // ---------------------------------------------------------------- stored responses

  /** Of a completed row: the request that wrote it committed exactly if it was answered 200. */
  lemma {:induction false} WriterCommitted(env: W.Env, s: State, key: string)
    requires Inv(env, s, key) && key in s.idem.rows && s.idem.rows[key].status == COMPLETED
    ensures key in s.idem.writer && !Deserted(s, s.idem.writer[key])
    ensures s.idem.rows[key].code == Some(200) <==> CommittedUnder(s, key, s.idem.writer[key])
  {
    assert P.Faithful(s.idem, key) && EraOfRow(s, key);
    var w := s.idem.writer[key];
    assert Told(env, s, w);
    if w in s.worker.settled.mail {
      AnsweredIsAccepted(s.worker, w);
    }
    hide W.Inv, W.JobIds, CommitsStand, CommitsUnique;
  }

  /** Under a completed key the only standing commit is the writer's. */
  lemma {:induction false} StandingIsWriter(env: W.Env, s: State, key: string, id: nat)
    requires Inv(env, s, key) && key in s.idem.rows && s.idem.rows[key].status == COMPLETED
    requires Acknowledged(s, key, id)
    ensures key in s.idem.writer && id == s.idem.writer[key]
  {
    hide W.Inv, Linked, Eras, P.RowFaithful, P.AnswersExplained, Deserted;
    assert Stands(s, id);
    if P.Holds(s.idem.requests[id]) {
      assert P.HoldsKey(s.idem, id, key);
      assert P.OwnsRow(s.idem, id);
    }
  }

  /**
    A stored 200 stands for exactly one committed transfer whose caller was told so; any other
    stored code for none.  If no commit under the key was deserted these are all its commits.
  */
  lemma {:induction false} StoredCodeTellsTheTruth(
    env: W.Env, now: int, capacity: nat, store: Store, es: seq<Event>, key: string)
    requires CanRun(env, Boot(now, capacity, store), es) && KeepsLease(env, Boot(now, capacity, store), es, key)
    requires var s := Run(env, Boot(now, capacity, store), es);
             key in s.idem.rows && s.idem.rows[key].status == COMPLETED
    ensures var s := Run(env, Boot(now, capacity, store), es);
            && (s.idem.rows[key].code == Some(200) <==> exists id :: Acknowledged(s, key, id))
            && (forall a, b :: Acknowledged(s, key, a) && Acknowledged(s, key, b) ==> a == b)
            && (NoneDeserted(s, key) ==>
                  (s.idem.rows[key].code == Some(200) <==> exists id :: CommittedUnder(s, key, id)))
  {
    BootInv(env, now, capacity, store, key);
    hide Run, CanRun, KeepsLease, Boot, Inv;
    RunKeepsInv(env, Boot(now, capacity, store), es, key);
    TruthAbout(env, Run(env, Boot(now, capacity, store), es), key);
  }

  lemma {:induction false} TruthAbout(env: W.Env, s: State, key: string)
    requires Inv(env, s, key) && key in s.idem.rows && s.idem.rows[key].status == COMPLETED
    ensures s.idem.rows[key].code == Some(200) <==> exists id :: Acknowledged(s, key, id)
    ensures forall a, b :: Acknowledged(s, key, a) && Acknowledged(s, key, b) ==> a == b
    ensures NoneDeserted(s, key) ==>
              (s.idem.rows[key].code == Some(200) <==> exists id :: CommittedUnder(s, key, id))
  {
    WriterCommitted(env, s, key);
    assert s.idem.rows[key].code == Some(200) ==> Acknowledged(s, key, s.idem.writer[key]);
    forall id | Acknowledged(s, key, id) ensures id == s.idem.writer[key] {
      StandingIsWriter(env, s, key, id);
    }
    assert NoneDeserted(s, key) ==> forall id :: CommittedUnder(s, key, id) ==> Acknowledged(s, key, id);
    hide Inv, Deserted;
  }

  // ---------------------------------------------------------------- when leases are broken

  /** The state after the first i events. */
  ghost function StateAt(env: W.Env, s: State, es: seq<Event>, i: nat): State
    requires CanRun(env, s, es) && i <= |es|
    decreases |es|
  {
    if i == 0 then s else StateAt(env, Next(env, s, es[0]), es[1..], i - 1)
  }

  /** At some moment of the run a live request under the key is past its lease. */
  ghost predicate SomeoneOverstays(env: W.Env, s: State, es: seq<Event>, key: string)
    requires CanRun(env, s, es)
  {
    exists i :: 0 <= i <= |es| && P.Overstays(StateAt(env, s, es, i).idem, key)
  }

  lemma {:induction false} BrokenStep(env: W.Env, s: State, e: Event, key: string)
    requires Enabled(env, s, e) && !InLease(s, e, key)
    ensures P.Overstays(Next(env, s, e).idem, key)
  {
    var id :| P.HoldsKey(s.idem, id, key) && s.idem.now + e.ms > s.idem.requests[id].phase.since + LEASE;
    assert P.HoldsKey(Next(env, s, e).idem, id, key);
  }

  lemma {:induction false} BrokenLease(env: W.Env, s: State, es: seq<Event>, key: string) returns (i: nat)
    requires CanRun(env, s, es) && !KeepsLease(env, s, es, key)
    ensures i <= |es| && P.Overstays(StateAt(env, s, es, i).idem, key)
    decreases |es|
  {
    hide Next, InLease, Enabled, P.Overstays;
    var s1 := Next(env, s, es[0]);
    if InLease(s, es[0], key) {
      var j := BrokenLease(env, s1, es[1..], key);
      i := j + 1;
    } else {
      BrokenStep(env, s, es[0], key);
      i := 1;
      assert StateAt(env, s1, es[1..], 0) == s1;
    }
  }

  lemma {:induction false} KeptOrOverstayed(env: W.Env, s: State, es: seq<Event>, key: string)
    requires CanRun(env, s, es)
    ensures KeepsLease(env, s, es, key) || SomeoneOverstays(env, s, es, key)
  {
    if !KeepsLease(env, s, es, key) {
      var i := BrokenLease(env, s, es, key);
      hide StateAt, P.Overstays;
    }
  }

  /** In any run: two commits under a key, neither deserted and no sweep between them, mean an overstay. */
  lemma {:induction false} DoubleCommitMeansOverstay(
    env: W.Env, now: int, capacity: nat, store: Store, es: seq<Event>, key: string, a: nat, b: nat)
    requires CanRun(env, Boot(now, capacity, store), es)
    requires var s := Run(env, Boot(now, capacity, store), es);
             BothCommitted(s, key, a, b) && a != b && !Deserted(s, a) && !Deserted(s, b)
    ensures SomeoneOverstays(env, Boot(now, capacity, store), es, key)
  {
    KeptOrOverstayed(env, Boot(now, capacity, store), es, key);
    hide Run, CanRun, KeepsLease, SomeoneOverstays, BothCommitted, Deserted, Boot;
    if KeepsLease(env, Boot(now, capacity, store), es, key) {
      DoubleCommitMeansDesertion(env, now, capacity, store, es, key, a, b);
      assert false;
    }
  }

  /** In any run: a stored code that is not the truth about the key's commits means an overstay. */
  lemma {:induction false} FalseCodeMeansOverstay(
    env: W.Env, now: int, capacity: nat, store: Store, es: seq<Event>, key: string)
    requires CanRun(env, Boot(now, capacity, store), es)
    requires var s := Run(env, Boot(now, capacity, store), es);
             && key in s.idem.rows && s.idem.rows[key].status == COMPLETED
             && !(s.idem.rows[key].code == Some(200) <==> exists id :: Acknowledged(s, key, id))
    ensures SomeoneOverstays(env, Boot(now, capacity, store), es, key)
  {
    KeptOrOverstayed(env, Boot(now, capacity, store), es, key);
    hide Run, CanRun, KeepsLease, SomeoneOverstays, Acknowledged, Boot;
    if KeepsLease(env, Boot(now, capacity, store), es, key) {
      StoredCodeTellsTheTruth(env, now, capacity, store, es, key);
      assert false;
    }
  }

  // ---------------------------------------------------------------- commits and the ledger

  /** The worker explains its ledger: one row per job answered with success, in order. */
  ghost predicate Posts(init: Settled, w: W.State) {
    W.Inv(w) && W.Explained(init, w) && W.LedgerExplained(init, w)
  }

  lemma {:induction false} WorkerKeepsPosts(env: W.Env, init: Settled, w: W.State, e: W.Event)
    requires Posts(init, w) && W.Enabled(w, e)
    ensures Posts(init, W.Next(env, w, e))
  {
    W.NextKeepsInv(env, w, e);
    W.NextExplained(env, init, w, e);
    W.NextLedger(env, init, w, e);
    hide W.Next, W.Inv, W.Explained, W.LedgerExplained;
  }

  lemma {:induction false} NextKeepsPosts(env: W.Env, init: Settled, s: State, e: Event)
    requires Posts(init, s.worker) && Enabled(env, s, e)
    ensures Posts(init, Next(env, s, e).worker)
  {
    hide W.Next, W.Inv, W.Explained, W.LedgerExplained;
    if e.Work? {
      WorkerKeepsPosts(env, init, s.worker, e.e);
    } else if e.Submit? {
      WorkerKeepsPosts(env, init, s.worker, W.Submit(s.payload[e.id]));
    }
  }

  lemma {:induction false} RunKeepsPosts(env: W.Env, init: Settled, s: State, es: seq<Event>)
    requires Posts(init, s.worker) && CanRun(env, s, es)
    ensures Posts(init, Run(env, s, es).worker)
    decreases |es|
  {
    if es == [] {
    } else {
      NextKeepsPosts(env, init, s, es[0]);
      hide Next, Posts, Enabled;
      RunKeepsPosts(env, init, Next(env, s, es[0]), es[1..]);
    }
  }

  lemma {:induction false} BootPosts(capacity: nat, store: Store)
    ensures Posts(Settled(store, map[]), W.Boot(capacity, store))
  {
  }

  lemma {:induction false} PostsKeepBooks(init: Settled, w: W.State)
    requires Books(init.store) && W.Explained(init, w)
    ensures Books(w.settled.store)
  {
    W.LogKeepsBooks(init, w.log);
  }

  /**
    What a commit is: in every run the ledger is the initial one plus one transaction for each
    job answered with success, in the order of the jobs, plus those of the other writers; and
    its books balance if they did.
  */
  lemma {:induction false} CommitsArePosted(env: W.Env, now: int, capacity: nat, store: Store, es: seq<Event>)
    requires CanRun(env, Boot(now, capacity, store), es)
    ensures var w := Run(env, Boot(now, capacity, store), es).worker;
            && W.LedgerExplained(Settled(store, map[]), w)
            && W.Explained(Settled(store, map[]), w)
            && (Books(store) ==> Books(w.settled.store))
  {
    var init := Settled(store, map[]);
    BootPosts(capacity, store);
    assert Boot(now, capacity, store).worker == W.Boot(capacity, store);
    hide Run, CanRun, Books, Next, Boot, W.LedgerExplained, W.Explained, W.Inv, W.Boot;
    RunKeepsPosts(env, init, Boot(now, capacity, store), es);
    if Books(store) {
      PostsKeepBooks(init, Run(env, Boot(now, capacity, store), es).worker);
    }
  }

  // ---------------------------------------------------------------- a caller who leaves

  lemma {:induction false} RunStep(env: W.Env, s: State, e: Event, es: seq<Event>)
    requires Enabled(env, s, e) && CanRun(env, Next(env, s, e), es)
    ensures CanRun(env, s, [e] + es) && Run(env, s, [e] + es) == Run(env, Next(env, s, e), es)
  {
    assert ([e] + es)[1..] == es;
  }

  lemma {:induction false} RunConcat(env: W.Env, s: State, xs: seq<Event>, ys: seq<Event>)
    requires CanRun(env, s, xs) && CanRun(env, Run(env, s, xs), ys)
    ensures CanRun(env, s, xs + ys) && Run(env, s, xs + ys) == Run(env, Run(env, s, xs), ys)
    decreases |xs|
  {
    if xs == [] {
      assert xs + ys == ys;
    } else {
      hide Next, Enabled;
      RunConcat(env, Next(env, s, xs[0]), xs[1..], ys);
      RunStep(env, s, xs[0], xs[1..] + ys);
      assert xs + ys == [xs[0]] + (xs[1..] + ys);
    }
  }

  ghost predicate Timeless(es: seq<Event>) {
    forall i :: 0 <= i < |es| ==> !es[i].Elapse?
  }

  lemma {:induction false} TimelessKeepsLease(env: W.Env, s: State, es: seq<Event>, key: string)
    requires CanRun(env, s, es) && Timeless(es)
    ensures KeepsLease(env, s, es, key)
    decreases |es|
  {
    if es == [] {
    } else {
      hide Next, Enabled;
      TimelessKeepsLease(env, Next(env, s, es[0]), es[1..], key);
    }
  }

  /** Nothing interferes with this job. */
  predicate Fair(w: Weather) {
    w.early.None? && w.late.None? && !w.fault && w.others == []
  }

  /** The worker is alive, with nothing to do and room in its queue. */
  ghost predicate Resting(w: W.State) {
    w.phase == W.Selecting && w.timer == W.Stopped && w.batch == [] && w.queue == [] && w.capacity >= 1
  }

  /** A lone job has its own answer and effect, whether or not its batch call is lost. */
  lemma {:induction false} ServesOne(s: Settled, t: Ticket, lost: bool)
    requires Fair(t.weather)
    ensures var s' := Flush(s, [t], lost);
            s'.mail == s.mail[t.job.id := AnswerTo(s.store.wallets, t.job)] && s'.store == Paid(s.store, t.job)
  {
    var ts := [t];
    assert ts[1..] == [];
    AloneIsAnswered(s.store, t.job);
    var fast := Fast(s.store, ts, lost);
    assert Found(s.store, t.weather, fast) == s.store;
    assert Fold(s, ts, fast) == BatchExecutor.Settle(s, t, fast);
    hide Exec, AnswerTo, Paid, Fold, Fast, Kept;
  }

  /** The worker takes the one queued job, waits out its timer and executes it. */
  lemma {:induction false} WorkerServes(env: W.Env, w: W.State, job: Job)
    requires Resting(w.(queue := [])) && w.queue == [job] && Fair(env.weather(job.id))
    ensures W.Enabled(w, W.Receive)
    ensures var w1 := W.Next(env, w, W.Receive);
            && W.Enabled(w1, W.Fire)
            && var w2 := W.Next(env, w1, W.Fire);
               && W.Enabled(w2, W.Tick)
               && var w3 := W.Next(env, w2, W.Tick);
                  && Resting(w3) && w3.accepted == w.accepted
                  && w3.settled.mail == w.settled.mail[job.id := AnswerTo(w.settled.store.wallets, job)]
                  && w3.settled.store == Paid(w.settled.store, job)
  {
    var t, lost := Ticket(job, env.weather(job.id)), env.lost(|w.log|);
    ServesOne(w.settled, t, lost);
    assert W.Tickets(env, [job]) == [t];
    hide Flush, W.Tickets, AnswerTo, Paid;
    assert w.queue[1..] == [];
    var w1 := W.Next(env, w, W.Receive);
    assert w1 == w.(queue := [], batch := [job], timer := W.Armed);
    var w2 := W.Next(env, w1, W.Fire);
    assert w2 == w1.(timer := W.Fired);
    var w3 := W.Next(env, w2, W.Tick);
    assert w3.settled == Flush(w.settled, [t], lost);
  }

  lemma {:induction false} WorkServes(env: W.Env, s: State, job: Job) returns (es: seq<Event>)
    requires Resting(s.worker.(queue := [])) && s.worker.queue == [job] && Fair(env.weather(job.id))
    ensures CanRun(env, s, es) && Timeless(es)
    ensures var s' := Run(env, s, es);
            && s' == s.(worker := s'.worker)
            && Resting(s'.worker) && s'.worker.accepted == s.worker.accepted
            && s'.worker.settled.mail == s.worker.settled.mail[job.id := AnswerTo(s.worker.settled.store.wallets, job)]
            && s'.worker.settled.store == Paid(s.worker.settled.store, job)
  {
    WorkerServes(env, s.worker, job);
    hide W.Next, Resting, AnswerTo, Paid;
    var e1, e2, e3 := Work(W.Receive), Work(W.Fire), Work(W.Tick);
    var s1 := Next(env, s, e1);
    var s2 := Next(env, s1, e2);
    var s3 := Next(env, s2, e3);
    RunStep(env, s2, e3, []);
    RunStep(env, s1, e2, [e3]);
    RunStep(env, s, e1, [e2] + [e3]);
    es := [e1] + ([e2] + [e3]);
  }

  /** A new request under a free key takes it and enqueues its job. */
  lemma {:induction false} Enters(env: W.Env, s: State, key: string, path: string, hash: string, job: Job, body: Body)
    returns (es: seq<Event>)
    requires job.id !in s.idem.requests && key !in s.idem.rows && hash != "" && !IsAccepted(s, job.id)
    requires Resting(s.worker) && W.Acceptable(job)
    ensures CanRun(env, s, es) && Timeless(es)
    ensures var s' := Run(env, s, es);
            && s'.worker == s.worker.(queue := [job], accepted := s.worker.accepted + [job])
            && Entered(s, s', key, path, hash, job.id)
  {
    hide W.JobIds;
    var e1, e2 := Arrive(job.id, key, path, hash, job), Submit(job.id, body);
    assert Enabled(env, s, e1);
    var s1 := Next(env, s, e1);
    assert Entered(s, s1, key, path, hash, job.id);
    assert Enabled(env, s1, e2);
    var s2 := Next(env, s1, e2);
    assert s2.worker == s.worker.(queue := [job], accepted := s.worker.accepted + [job]);
    assert s2 == s1.(worker := s2.worker);
    hide Next, Enabled, Resting, IsAccepted;
    RunStep(env, s1, e2, []);
    RunStep(env, s, e1, [e2]);
    es := [e1] + [e2];
  }

  /** The request has taken the free key and is in its handler. */
  ghost predicate Entered(s: State, s': State, key: string, path: string, hash: string, id: nat) {
    && s'.idem.rows == s.idem.rows[key := KeyRow(path, hash, None, None, STARTED, s.idem.now)]
    && s'.idem.requests == s.idem.requests[id := P.Request(key, path, hash, P.Running(s.idem.now, true))]
    && s'.idem.now == s.idem.now && s'.era == s.era && s'.born == s.born[id := Era(s.era, key)]
  }

  /** One request under a free key, executed by the resting worker. */
  lemma {:induction false} RunsOnce(env: W.Env, s: State, key: string, path: string, hash: string, job: Job, body: Body)
    returns (es: seq<Event>)
    requires job.id !in s.idem.requests && key !in s.idem.rows && hash != "" && !IsAccepted(s, job.id)
    requires Resting(s.worker) && W.Acceptable(job) && Fair(env.weather(job.id))
    ensures CanRun(env, s, es) && Timeless(es)
    ensures var s' := Run(env, s, es);
            && Entered(s, s', key, path, hash, job.id)
            && Resting(s'.worker) && s'.worker.accepted == s.worker.accepted + [job]
            && s'.worker.settled.mail == s.worker.settled.mail[job.id := AnswerTo(s.worker.settled.store.wallets, job)]
            && s'.worker.settled.store == Paid(s.worker.settled.store, job)
  {
    var xs := Enters(env, s, key, path, hash, job, body);
    var s1 := Run(env, s, xs);
    assert Resting(s1.worker.(queue := []));
    hide CanRun, Run, Resting, IsAccepted, AnswerTo, Paid;
    var ys := WorkServes(env, s1, job);
    RunConcat(env, s, xs, ys);
    es := xs + ys;
  }

  /** The handler has the reply in hand: it answers, and the middleware settles. */
  lemma {:induction false} AnswersAndSettles(env: W.Env, s: State, key: string, id: nat, body: Body)
    returns (es: seq<Event>)
    requires id in s.idem.requests && s.idem.requests[id].key == key && s.idem.requests[id].phase.Running?
    requires IsAccepted(s, id) && id in s.worker.settled.mail && key in s.idem.rows
    ensures CanRun(env, s, es) && Timeless(es)
    ensures var s', code := Run(env, s, es), StatusOf(s.worker.settled.mail[id]);
            && s'.worker == s.worker && id in s'.idem.requests
            && s'.idem.requests[id].phase == P.Answered(Fresh(code, body))
            && s'.idem.rows == IdempotencyStore.Settled(s.idem.rows, key, code, body)
  {
    hide StatusOf, IdempotencyStore.Settled, IsAccepted;
    var e1, e2 := Collect(id, body), Settle(id);
    var s1 := Next(env, s, e1);
    RunStep(env, s1, e2, []);
    RunStep(env, s, e1, [e2]);
    es := [e1] + [e2];
  }

  lemma {:induction false} RunsAndSettles(
    env: W.Env, s: State, key: string, path: string, hash: string, job: Job, body: Body) returns (es: seq<Event>)
    requires job.id !in s.idem.requests && key !in s.idem.rows && hash != "" && !IsAccepted(s, job.id)
    requires Resting(s.worker) && Fair(env.weather(job.id)) && W.Acceptable(job)
    ensures CanRun(env, s, es) && Timeless(es)
    ensures var s', st := Run(env, s, es), s.worker.settled.store;
            var row, code := KeyRow(path, hash, None, None, STARTED, s.idem.now), StatusOf(AnswerTo(st.wallets, job));
            && job.id in s'.idem.requests
            && s'.idem.requests[job.id].phase == P.Answered(Fresh(code, body))
            && s'.worker.settled.store == Paid(st, job)
            && s'.idem.rows == IdempotencyStore.Settled(s.idem.rows[key := row], key, code, body)
  {
    var xs := RunsOnce(env, s, key, path, hash, job, body);
    var s1 := Run(env, s, xs);
    hide CanRun, Run, Resting, AnswerTo, Paid, StatusOf, IdempotencyStore.Settled, Fair, W.Acceptable;
    assert IsAccepted(s1, job.id) by {
      assert s1.worker.accepted[|s.worker.accepted|] == job;
    }
    assert s1.idem.requests[job.id] == P.Request(key, path, hash, P.Running(s.idem.now, true));
    hide IsAccepted, Entered;
    var ys := AnswersAndSettles(env, s1, key, job.id, body);
    RunConcat(env, s, xs, ys);
    es := xs + ys;
  }

  lemma {:induction false} CodeFromBalances(st: Store, job: Job)
    requires job.amount > 0 && job.from != job.to
    ensures var b, from, to, amount := st.wallets, job.from, job.to, job.amount;
            var code := StatusOf(AnswerTo(b, job));
            && code == (if from !in b || to !in b then 404
                        else if b[from] < amount then 400
                        else if b[to] + amount > 0x7FFF_FFFF_FFFF_FFFF then 500
                        else 200)
            && Paid(st, job) ==
               if code != 200 then st
               else Store(b[from := b[from] - amount][to := b[to] + amount],
                          st.rows + [Row(Transfer, from, Some(to), amount)])
  {
  }

  lemma {:induction false} RowFromCode(rows: Keys, key: string, row: KeyRow, code: int, body: Body)
    ensures var rows' := IdempotencyStore.Settled(rows[key := row], key, code, body);
            if code >= 500 then key !in rows'
            else
              && key in rows' && rows'[key].status == "completed"
              && rows'[key].code == Some(code) && rows'[key].hash == row.hash
  {
  }

  /**
    A transfer on its way through the resting service and back: what the caller is told, what
    the ledger does and what is kept under the key, from the arguments and the balances alone.
  */
  lemma {:induction false} QuietServiceAnswers(
    env: W.Env, s: State, key: string, path: string, hash: string, job: Job, body: Body) returns (es: seq<Event>)
    requires job.id !in s.idem.requests && key !in s.idem.rows && hash != "" && !IsAccepted(s, job.id)
    requires Resting(s.worker) && Fair(env.weather(job.id))
    requires job.from > 0 && job.to > 0 && job.amount > 0 && job.from != job.to
    ensures CanRun(env, s, es) && Timeless(es)
    ensures var s', st, from, to, amount := Run(env, s, es), s.worker.settled.store, job.from, job.to, job.amount;
            var b := st.wallets;
            var code :=
              if from !in b || to !in b then 404
              else if b[from] < amount then 400
              else if b[to] + amount > 0x7FFF_FFFF_FFFF_FFFF then 500
              else 200;
            && job.id in s'.idem.requests
            && s'.idem.requests[job.id].phase == P.Answered(Fresh(code, body))
            && s'.worker.settled.store ==
               (if code != 200 then st
                else Store(b[from := b[from] - amount][to := b[to] + amount],
                           st.rows + [Row(Transfer, from, Some(to), amount)]))
            && (if code == 500 then key !in s'.idem.rows
                else key in s'.idem.rows && s'.idem.rows[key].status == "completed"
                     && s'.idem.rows[key].code == Some(code) && s'.idem.rows[key].hash == hash)
  {
    var st, row := s.worker.settled.store, KeyRow(path, hash, None, None, STARTED, s.idem.now);
    CodeFromBalances(st, job);
    RowFromCode(s.idem.rows, key, row, StatusOf(AnswerTo(st.wallets, job)), body);
    hide CanRun, Run, Resting, IsAccepted, AnswerTo, Paid, StatusOf, IdempotencyStore.Settled, Fair;
    es := RunsAndSettles(env, s, key, path, hash, job, body);
  }

  lemma {:induction false} NewcomerIsFresh(env: W.Env, s: State, key: string, a: nat, id: nat)
    requires Inv(env, s, key) && Enabled(env, s, Settle(a)) && id !in s.idem.requests
    ensures var s1 := Next(env, s, Settle(a));
            s1.worker == s.worker && id !in s1.idem.requests && !IsAccepted(s1, id)
  {
    hide Eras, CommitsStand, CommitsUnique, P.Inv, W.Inv, W.JobIds;
  }

  /**
    Desertion costs: whenever a deserted request settles while the worker rests, any retry
    under its key that the ledger can serve commits a second time in the same era.
  */
  lemma {:induction false} DesertionAllowsSecondCommit(
    env: W.Env, s: State, key: string, a: nat, path: string, hash: string, job: Job, body: Body)
    returns (es: seq<Event>)
    requires Inv(env, s, key) && IsUnder(s, a, key) && Deserted(s, a) && Enabled(env, s, Settle(a))
    requires job.id !in s.idem.requests && hash != "" && W.Acceptable(job) && Resting(s.worker)
    requires AnswerTo(s.worker.settled.store.wallets, job) == Completed && Fair(env.weather(job.id))
    ensures CanRun(env, s, es) && Timeless(es)
    ensures var s' := Run(env, s, es); BothCommitted(s', key, a, job.id) && Deserted(s', a) && !Deserted(s', job.id)
  {
    var s1 := Next(env, s, Settle(a));
    DesertedSettleFreesKey(env, s, key, a);
    NewcomerIsFresh(env, s, key, a, job.id);
    hide Inv, Resting, AnswerTo, Paid, IsAccepted, Deserted, BothCommitted, W.Acceptable, Entered, Next, Enabled, Fair,
      Era;
    var xs := RunsOnce(env, s1, key, path, hash, job, body);
    SecondCommit(s1, Run(env, s1, xs), key, a, path, hash, job);
    hide Run, CanRun, Timeless;
    es := FirstThen(env, s, Settle(a), xs);
  }

  lemma {:induction false} FirstThen(env: W.Env, s: State, e: Event, xs: seq<Event>) returns (es: seq<Event>)
    requires Enabled(env, s, e) && CanRun(env, Next(env, s, e), xs) && Timeless(xs) && !e.Elapse?
    ensures CanRun(env, s, es) && Timeless(es) && Run(env, s, es) == Run(env, Next(env, s, e), xs)
  {
    hide Next, Enabled;
    RunStep(env, s, e, xs);
    es := [e] + xs;
  }

  lemma {:induction false} SecondCommit(
    s: State, s': State, key: string, a: nat, path: string, hash: string, job: Job)
    requires IsUnder(s, a, key) && Deserted(s, a) && s.born[a] == Era(s.era, key) && job.id !in s.idem.requests
    requires Entered(s, s', key, path, hash, job.id)
    requires s'.worker.settled.mail == s.worker.settled.mail[job.id := Completed]
    ensures BothCommitted(s', key, a, job.id) && Deserted(s', a) && !Deserted(s', job.id)
  {
  }

  const CALM := W.Env((_: nat) => Weather(None, None, false, []), (_: nat) => false)

  /** Five units from wallet 1 to wallet 2. */
  function Pay(id: nat): Job {
    Job(id, 1, 2, 5)
  }

  const PURSE := Store(map[1 := 10, 2 := 0], [])

  /** The first caller's transfer is committed while it waits. */
  lemma {:induction false} FirstPays(body: Body) returns (es: seq<Event>)
    ensures CanRun(CALM, Boot(0, 2, PURSE), es) && Timeless(es)
    ensures var s := Run(CALM, Boot(0, 2, PURSE), es);
            && Resting(s.worker) && s.worker.accepted == [Pay(0)] && s.worker.settled.mail == map[0 := Completed]
            && s.worker.settled.store.wallets == map[1 := 5, 2 := 5] && s.born == map[0 := 0]
            && s.idem.requests == map[0 := P.Request("k", "/p", "h", P.Running(0, true))]
  {
    var s := Boot(0, 2, PURSE);
    assert PURSE.wallets[1 := 5][2 := 5] == map[1 := 5, 2 := 5];
    assert Paid(PURSE, Pay(0)).wallets == map[1 := 5, 2 := 5] && AnswerTo(PURSE.wallets, Pay(0)) == Completed;
    es := RunsOnce(CALM, s, "k", "/p", "h", Pay(0), body);
    hide CanRun, Run, Resting, AnswerTo, Paid;
  }

  /** It leaves before it reads the reply. */
  lemma {:induction false} FirstLeaves(s: State, body: Body)
    requires s.worker.accepted == [Pay(0)] && s.worker.settled.mail == map[0 := Completed] && s.born == map[0 := 0]
    requires s.idem.requests == map[0 := P.Request("k", "/p", "h", P.Running(0, true))]
    ensures Enabled(CALM, s, Abandon(0, body))
    ensures var s' := Next(CALM, s, Abandon(0, body));
            && s'.worker == s.worker && IsUnder(s', 0, "k") && Deserted(s', 0) && Enabled(CALM, s', Settle(0))
            && 1 !in s'.idem.requests
  {
    assert [Pay(0)][0].id == 0;
  }

  lemma {:induction false} FirstDeserts(body: Body) returns (es: seq<Event>)
    ensures CanRun(CALM, Boot(0, 2, PURSE), es) && Timeless(es)
    ensures var s := Run(CALM, Boot(0, 2, PURSE), es);
            && Resting(s.worker) && s.worker.settled.store.wallets == map[1 := 5, 2 := 5]
            && IsUnder(s, 0, "k") && Deserted(s, 0) && Enabled(CALM, s, Settle(0)) && 1 !in s.idem.requests
  {
    var xs := FirstPays(body);
    var s1 := Run(CALM, Boot(0, 2, PURSE), xs);
    FirstLeaves(s1, body);
    var leave := Abandon(0, body);
    RunStep(CALM, s1, leave, []);
    hide CanRun, Run, Next, Enabled, Resting, Deserted, Boot;
    RunConcat(CALM, Boot(0, 2, PURSE), xs, [leave] + []);
    es := xs + ([leave] + []);
  }

  /**
    Desertion happens, with every lease kept: a caller leaves just after its transfer was
    committed, is told 500, retries with the same key, and pays a second time.
  */
  lemma {:induction false} DesertedCommitsTwice(body: Body)
    ensures exists es ::
              && CanRun(CALM, Boot(0, 2, PURSE), es) && KeepsLease(CALM, Boot(0, 2, PURSE), es, "k")
              && var s := Run(CALM, Boot(0, 2, PURSE), es);
                 BothCommitted(s, "k", 0, 1) && Deserted(s, 0) && !Deserted(s, 1)
  {
    var boot := Boot(0, 2, PURSE);
    var xs := FirstDeserts(body);
    BootInv(CALM, 0, 2, PURSE, "k");
    assert AnswerTo(map[1 := 5, 2 := 5], Pay(1)) == Completed;
    hide CanRun, Run, Next, Enabled, Inv, Resting, BothCommitted, Deserted, Boot, AnswerTo, IsUnder;
    TimelessKeepsLease(CALM, boot, xs, "k");
    RunKeepsInv(CALM, boot, xs, "k");
    var ys := DesertionAllowsSecondCommit(CALM, Run(CALM, boot, xs), "k", 0, "/p", "h", Pay(1), body);
    RunConcat(CALM, boot, xs, ys);
    TimelessKeepsLease(CALM, boot, xs + ys, "k");
  }
}
