/**
  Any number of requests going through the middleware at once, against a logical clock.

  Requests arrive, look rows up, run their handler, settle, or crash at any point; keys are
  swept; time passes.  Where a theorem about a key needs it, `KeepsLease` says that time did
  not run past the 60 s of a request that was alive and held that key.
*/
module IdempotencyProtocol {
  import opened Prelude
  import opened IdempotencyStore

  datatype Phase =
    | Probing                                                  // not locked; about to read the row
    | Running(since: int, locked: bool)                        // in the handler
    | Finishing(since: int, locked: bool, code: int, body: Body) // handler done, row not yet settled
    | Answered(response: Response)
    | Crashed

  datatype Request = Request(key: string, path: string, hash: string, phase: Phase)

  /** `writer` remembers which request last took each key. */
  datatype State = State(now: int, rows: Keys, requests: map<nat, Request>, writer: map<string, nat>)

  datatype Event =
    | Arrive(id: nat, key: string, path: string, hash: string)
    | Probe(id: nat)
    | Return(id: nat, code: int, body: Body)
    | Settle(id: nat)
    | Crash(id: nat)
    | Elapse(ms: nat)
    | Sweep

  predicate Holds(r: Request) {
    r.phase.Running? || r.phase.Finishing?
  }

  predicate Enabled(s: State, e: Event) {
    match e
    case Arrive(id, key, path, hash) => id !in s.requests && hash != ""
    case Probe(id) => id in s.requests && s.requests[id].phase.Probing?
    case Return(id, _, _) => id in s.requests && s.requests[id].phase.Running?
    case Settle(id) => id in s.requests && s.requests[id].phase.Finishing?
    case Crash(id) => id in s.requests && !s.requests[id].phase.Answered?
    case Elapse(_) => true
    case Sweep => true
  }

  function Move(s: State, id: nat, phase: Phase): State
    requires id in s.requests
  {
    s.(requests := s.requests[id := s.requests[id].(phase := phase)])
  }

  function Next(s: State, e: Event): State
    requires Enabled(s, e)
  {
    match e
    case Arrive(id, key, path, hash) =>
      if Lockable(s.rows, s.now, key) then
        s.(rows := Locked(s.rows, s.now, key, path, hash),
           requests := s.requests[id := Request(key, path, hash, Running(s.now, true))],
           writer := s.writer[key := id])
      else s.(requests := s.requests[id := Request(key, path, hash, Probing)])
    case Probe(id) =>
      var r := s.requests[id];
      (match Judge(s.rows, r.key, r.hash)
       case Reply(response) => Move(s, id, Answered(response))
       case FallThrough => Move(s, id, Running(s.now, false)))
    case Return(id, code, body) =>
      var phase := s.requests[id].phase;
      Move(s, id, Finishing(phase.since, phase.locked, code, body))
    case Settle(id) =>
      var r := s.requests[id];
      Move(s, id, Answered(Fresh(r.phase.code, r.phase.body)))
        .(rows := Settled(s.rows, r.key, r.phase.code, r.phase.body))
    case Crash(id) => Move(s, id, Crashed)
    case Elapse(ms) => s.(now := s.now + ms)
    case Sweep => s.(rows := Swept(s.rows, s.now))
  }

  function Boot(now: int): State {
    State(now, map[], map[], map[])
  }

  ghost predicate CanRun(s: State, es: seq<Event>)
    decreases |es|
  {
    es != [] ==> Enabled(s, es[0]) && CanRun(Next(s, es[0]), es[1..])
  }

  ghost function Run(s: State, es: seq<Event>): State
    requires CanRun(s, es)
    decreases |es|
  {
    if es == [] then s else Run(Next(s, es[0]), es[1..])
  }

  /** The state after the first i events. */
  ghost function StateAt(s: State, es: seq<Event>, i: nat): State
    requires CanRun(s, es) && i <= |es|
    decreases |es|
  {
    if i == 0 then s else StateAt(Next(s, es[0]), es[1..], i - 1)
  }

  ghost predicate HoldsKey(s: State, id: nat, key: string) {
    id in s.requests && s.requests[id].key == key && Holds(s.requests[id])
  }

  /** The step leaves every live holder of the key inside its lease. */
  ghost predicate InLease(s: State, e: Event, key: string) {
    e.Elapse? ==> forall id :: HoldsKey(s, id, key) ==> s.now + e.ms <= s.requests[id].phase.since + LEASE
  }

  /** In the whole run no live holder of the key outlives its lease. */
  ghost predicate KeepsLease(s: State, es: seq<Event>, key: string)
    requires CanRun(s, es)
    decreases |es|
  {
    es != [] ==> InLease(s, es[0], key) && KeepsLease(Next(s, es[0]), es[1..], key)
  }

  /** A live holder of the key is past its lease. */
  ghost predicate Overstays(s: State, key: string) {
    exists id :: HoldsKey(s, id, key) && s.now > s.requests[id].phase.since + LEASE
  }

  // ---------------------------------------------------------------- the handler guard

  /** Only two statuses are ever written, so only the lock lets a request reach its handler. */
  ghost predicate Guarded(s: State) {
    && (forall k :: k in s.rows ==> s.rows[k].status == STARTED || s.rows[k].status == COMPLETED)
    && (forall id :: id in s.requests && Holds(s.requests[id]) ==> s.requests[id].phase.locked)
  }

  lemma {:induction false} NextGuarded(s: State, e: Event)
    requires Guarded(s) && Enabled(s, e)
    ensures Guarded(Next(s, e))
  {
  }

  /** In every run, even one that outlives its leases, the handler runs under the lock only. */
  lemma {:induction false} HandlerNeedsLock(s: State, es: seq<Event>)
    requires Guarded(s) && CanRun(s, es)
    ensures Guarded(Run(s, es))
    decreases |es|
  {
    if es == [] {
    } else {
      NextGuarded(s, es[0]);
      HandlerNeedsLock(Next(s, es[0]), es[1..]);
    }
  }

  // ---------------------------------------------------------------- the invariant of one key

  /** A holder's row is its own, started, and inside the lease. */
  ghost predicate OwnsRow(s: State, id: nat)
    requires id in s.requests && Holds(s.requests[id])
  {
    var r := s.requests[id];
    && r.phase.locked
    && r.phase.since <= s.now <= r.phase.since + LEASE
    && r.key in s.rows
    && s.rows[r.key] == KeyRow(r.path, r.hash, None, None, STARTED, r.phase.since)
    && r.key in s.writer && s.writer[r.key] == id
  }

  /** What retries see of a body: the JSON that was written, or null if it is empty or no JSON. */
  ghost predicate SeenAs(body: Body, json: string) {
    json == if body.isJson && body.text != "" then body.text else "null"
  }

  /** A completed row holds the response and the hash of one and the same request. */
  ghost predicate Faithful(s: State, key: string)
    requires key in s.rows
  {
    && key in s.writer && s.writer[key] in s.requests
    && var r := s.requests[s.writer[key]];
       && r.key == key && r.hash == s.rows[key].hash
       && r.phase.Answered? && r.phase.response.Fresh?
       && r.phase.response.code < 500
       && s.rows[key].code == Some(r.phase.response.code)
       && s.rows[key].body.Some? && SeenAs(r.phase.response.body, s.rows[key].body.value)
  }

  /** Request o ran under this key and its response was stored. */
  ghost predicate Original(s: State, o: nat, key: string) {
    && o in s.requests && s.requests[o].key == key
    && s.requests[o].phase.Answered? && s.requests[o].phase.response.Fresh?
    && s.requests[o].phase.response.code < 500
  }

  /** A replay repeats the response of a request with the same key and hash; a 422 means a different hash. */
  ghost predicate AnswerExplained(s: State, r: Request) {
    r.phase.Answered? ==>
      match r.phase.response
      case Replayed(code, json) =>
        exists o :: Original(s, o, r.key) && s.requests[o].hash == r.hash
                    && s.requests[o].phase.response.code == code
                    && SeenAs(s.requests[o].phase.response.body, json)
      case Mismatch => exists o :: Original(s, o, r.key) && s.requests[o].hash != r.hash
      case _ => true
  }

  ghost predicate HoldersOwn(s: State, key: string) {
    forall id :: HoldsKey(s, id, key) ==> OwnsRow(s, id)
  }

  ghost predicate RowFaithful(s: State, key: string) {
    key in s.rows ==> s.rows[key].created <= s.now && (s.rows[key].status == COMPLETED ==> Faithful(s, key))
  }

  ghost predicate AnswersExplained(s: State, key: string) {
    forall id :: id in s.requests && s.requests[id].key == key ==> AnswerExplained(s, s.requests[id])
  }

  ghost predicate Inv(s: State, key: string) {
    && Guarded(s)
    && HoldersOwn(s, key)
    && RowFaithful(s, key)
    && AnswersExplained(s, key)
    && (forall id :: id in s.requests ==> s.requests[id].hash != "")
  }

  /** Answers do not change, so what explained an answer goes on explaining it. */
  lemma {:induction false} StillExplained(s: State, s': State, r: Request)
    requires AnswerExplained(s, r)
    requires forall o :: o in s.requests && s.requests[o].phase.Answered? ==>
                           o in s'.requests && s'.requests[o] == s.requests[o]
    ensures AnswerExplained(s', r)
  {
    if r.phase.Answered? {
      match r.phase.response {
        case Replayed(code, json) =>
          var o :| Original(s, o, r.key) && s.requests[o].hash == r.hash
                   && s.requests[o].phase.response.code == code
                   && SeenAs(s.requests[o].phase.response.body, json);
          assert Original(s', o, r.key);
        case Mismatch =>
          var o :| Original(s, o, r.key) && s.requests[o].hash != r.hash;
          assert Original(s', o, r.key);
        case _ =>
      }
    }
  }

  lemma {:induction false} AnswersKept(s: State, e: Event)
    requires Enabled(s, e)
    ensures forall o :: o in s.requests && s.requests[o].phase.Answered? ==>
                          o in Next(s, e).requests && Next(s, e).requests[o] == s.requests[o]
  {
  }

  lemma {:induction false} NewAnswerExplained(s: State, e: Event, id: nat)
    requires Enabled(s, e) && id in Next(s, e).requests && Inv(s, Next(s, e).requests[id].key)
    requires id !in s.requests || Next(s, e).requests[id] != s.requests[id]
    ensures AnswerExplained(Next(s, e), Next(s, e).requests[id])
  {
    var s' := Next(s, e);
    if e.Probe? {
      var r := s.requests[e.id];
      if r.key in s.rows && s.rows[r.key].status == COMPLETED {
        assert Faithful(s, r.key);
        var o := s.writer[r.key];
        assert Original(s, o, r.key);
        assert Original(s', o, r.key);
        StoredNotEmpty(s.requests[o].phase.response.body);
      }
    }
  }

  lemma {:induction false} StoredNotEmpty(body: Body)
    ensures Stored(body) != ""
  {
  }

  lemma {:induction false} NextExplained(s: State, e: Event, key: string)
    requires Inv(s, key) && Enabled(s, e)
    ensures AnswersExplained(Next(s, e), key)
  {
    AnswersKept(s, e);
    forall id | id in Next(s, e).requests && Next(s, e).requests[id].key == key
      ensures AnswerExplained(Next(s, e), Next(s, e).requests[id])
    {
      if id in s.requests && Next(s, e).requests[id] == s.requests[id] {
        StillExplained(s, Next(s, e), s.requests[id]);
      } else {
        NewAnswerExplained(s, e, id);
      }
    }
  }

  /** Two live holders of one key are the same request. */
  lemma {:induction false} OneHolder(s: State, a: nat, b: nat, key: string)
    requires HoldersOwn(s, key) && HoldsKey(s, a, key) && HoldsKey(s, b, key)
    ensures a == b
  {
    assert OwnsRow(s, a) && OwnsRow(s, b);
  }

  lemma {:induction false} NextHolders(s: State, e: Event, key: string)
    requires Inv(s, key) && Enabled(s, e) && InLease(s, e, key)
    ensures HoldersOwn(Next(s, e), key)
  {
    forall id | HoldsKey(Next(s, e), id, key) ensures OwnsRow(Next(s, e), id) {
      if HoldsKey(s, id, key) {
        OldHolderOwns(s, e, key, id);
      }
    }
  }

  lemma {:induction false} OldHolderOwns(s: State, e: Event, key: string, id: nat)
    requires Guarded(s) && HoldersOwn(s, key) && Enabled(s, e) && InLease(s, e, key)
    requires HoldsKey(s, id, key) && HoldsKey(Next(s, e), id, key)
    ensures OwnsRow(Next(s, e), id)
  {
    assert OwnsRow(s, id);
    if e.Settle? && e.id != id && s.requests[e.id].key == key {
      OneHolder(s, id, e.id, key);
      assert false;
    }
  }

  lemma {:induction false} NextRow(s: State, e: Event, key: string)
    requires Inv(s, key) && Enabled(s, e)
    ensures RowFaithful(Next(s, e), key)
  {
    var s' := Next(s, e);
    AnswersKept(s, e);
    if key in s'.rows {
      if key in s.rows && s'.rows[key] == s.rows[key] {
        if s.rows[key].status == COMPLETED {
          assert Faithful(s, key);
        }
      } else if e.Settle? {
        assert HoldsKey(s, e.id, key) && OwnsRow(s, e.id);
        StoredNotEmpty(s.requests[e.id].phase.body);
      }
    }
  }

  lemma {:induction false} NextKeepsInv(s: State, e: Event, key: string)
    requires Inv(s, key) && Enabled(s, e) && InLease(s, e, key)
    ensures Inv(Next(s, e), key)
  {
    NextGuarded(s, e);
    NextHolders(s, e, key);
    NextRow(s, e, key);
    NextExplained(s, e, key);
    hide HoldersOwn, RowFaithful, AnswersExplained, Guarded;
  }

  lemma {:induction false} RunKeepsInv(s: State, es: seq<Event>, key: string)
    requires Inv(s, key) && CanRun(s, es) && KeepsLease(s, es, key)
    ensures Inv(Run(s, es), key)
    decreases |es|
  {
    if es == [] {
    } else {
      NextKeepsInv(s, es[0], key);
      hide Next, Inv, InLease;
      RunKeepsInv(Next(s, es[0]), es[1..], key);
    }
  }

  // ---------------------------------------------------------------- what follows, key by key

  /**
    In every run that keeps the leases of a key: its holders own its row, the completed row
    holds the hash and the response of one request, every replay under it repeats such a
    response to a request with the same hash, and every 422 goes to a request with a
    different one.
  */
  lemma {:induction false} EveryRun(now: int, es: seq<Event>, key: string)
    requires CanRun(Boot(now), es) && KeepsLease(Boot(now), es, key)
    ensures var s := Run(Boot(now), es);
            Guarded(s) && HoldersOwn(s, key) && RowFaithful(s, key) && AnswersExplained(s, key)
  {
    RunKeepsInv(Boot(now), es, key);
  }

  /** Mutual exclusion: in a run that keeps the leases of a key it never has two live holders. */
  lemma {:induction false} MutualExclusion(now: int, es: seq<Event>, key: string, a: nat, b: nat)
    requires CanRun(Boot(now), es) && KeepsLease(Boot(now), es, key)
    requires HoldsKey(Run(Boot(now), es), a, key) && HoldsKey(Run(Boot(now), es), b, key)
    ensures a == b
  {
    RunKeepsInv(Boot(now), es, key);
    OneHolder(Run(Boot(now), es), a, b, key);
  }

  /**
    While a request runs under a key inside its lease, whoever else comes with the key does not
    get it, and is told 409 if it looks the row up by then.
  */
  lemma {:induction false} BusyKeyIsRefused(now: int, es: seq<Event>, key: string, holder: nat, e: Event)
    requires CanRun(Boot(now), es) && KeepsLease(Boot(now), es, key)
    requires HoldsKey(Run(Boot(now), es), holder, key) && Enabled(Run(Boot(now), es), e)
    requires (e.Arrive? && e.key == key) || (e.Probe? && Run(Boot(now), es).requests[e.id].key == key)
    ensures var s := Run(Boot(now), es);
            && Next(s, e).rows == s.rows && HoldsKey(Next(s, e), holder, key)
            && Next(s, e).requests[e.id].phase == if e.Arrive? then Probing else Answered(InProgress)
  {
    RunKeepsInv(Boot(now), es, key);
    assert OwnsRow(Run(Boot(now), es), holder);
    hide Run, CanRun, KeepsLease;
  }

  /** A run that breaks a lease passes through a state where a live holder is past it. */
  lemma {:induction false} BrokenLease(s: State, es: seq<Event>, key: string) returns (i: nat)
    requires CanRun(s, es) && !KeepsLease(s, es, key)
    ensures i <= |es| && Overstays(StateAt(s, es, i), key)
    decreases |es|
  {
    if InLease(s, es[0], key) {
      hide Next, InLease;
      var j := BrokenLease(Next(s, es[0]), es[1..], key);
      i := j + 1;
    } else {
      i := 1;
      var id :| HoldsKey(s, id, key) && s.now + es[0].ms > s.requests[id].phase.since + LEASE;
      assert HoldsKey(Next(s, es[0]), id, key);
    }
  }

  /** Two live holders of a key, in any run: some request under that key was still live past its lease. */
  lemma {:induction false} TwoHoldersMeanOverstay(now: int, es: seq<Event>, key: string, a: nat, b: nat)
    requires CanRun(Boot(now), es) && a != b
    requires HoldsKey(Run(Boot(now), es), a, key) && HoldsKey(Run(Boot(now), es), b, key)
    ensures exists i :: 0 <= i <= |es| && Overstays(StateAt(Boot(now), es, i), key)
  {
    if KeepsLease(Boot(now), es, key) {
      MutualExclusion(now, es, key, a, b);
      assert false;
    } else {
      var i := BrokenLease(Boot(now), es, key);
    }
  }

  /**
    When a newcomer displaces a live holder, in any run: exactly if the key has no row or a
    started one older than a minute.  While the row is the holder's own that is the end of the
    holder's lease; otherwise another request under the key had overstayed before.
  */
  lemma {:induction false} TakeoverIff(
    now: int, es: seq<Event>, key: string, holder: nat, id: nat, path: string, hash: string)
    requires CanRun(Boot(now), es) && HoldsKey(Run(Boot(now), es), holder, key)
    requires Enabled(Run(Boot(now), es), Arrive(id, key, path, hash))
    ensures var s := Run(Boot(now), es);
            var taken := HoldsKey(Next(s, Arrive(id, key, path, hash)), id, key);
            && (taken <==> key !in s.rows || (s.rows[key].status == STARTED && s.rows[key].created < s.now - LEASE))
            && (OwnRow(s, holder, key) ==> (taken <==> s.now > s.requests[holder].phase.since + LEASE))
            && (taken ==> exists i :: 0 <= i <= |es| && Overstays(StateAt(Boot(now), es, i), key))
  {
    var s := Run(Boot(now), es);
    if KeepsLease(Boot(now), es, key) {
      RunKeepsInv(Boot(now), es, key);
      assert OwnsRow(s, holder);
    } else {
      var i := BrokenLease(Boot(now), es, key);
    }
    hide Run, CanRun, KeepsLease, Overstays;
  }

  /** The key's row is still the one this request locked. */
  ghost predicate OwnRow(s: State, id: nat, key: string)
    requires HoldsKey(s, id, key)
  {
    key in s.rows && s.rows[key].status == STARTED && s.rows[key].created == s.requests[id].phase.since
  }

  /** Without the lease condition exclusion fails: a slow request and its retry both run. */
  lemma {:induction false} ExclusionNeedsLease()
    ensures exists es ::
              && CanRun(Boot(0), es)
              && HoldsKey(Run(Boot(0), es), 0, "k") && HoldsKey(Run(Boot(0), es), 1, "k")
  {
    var es := SlowAndRetry("h");
    assert CanRun(Boot(0), es);
  }

  lemma {:induction false} RunStep(s: State, e: Event, es: seq<Event>)
    requires Enabled(s, e) && CanRun(Next(s, e), es)
    ensures CanRun(s, [e] + es) && Run(s, [e] + es) == Run(Next(s, e), es)
  {
    assert ([e] + es)[1..] == es;
  }

  lemma {:induction false} SlowAndRetry(hash: string) returns (es: seq<Event>)
    requires hash != ""
    ensures CanRun(Boot(0), es)
    ensures Run(Boot(0), es) == Contended(hash)
  {
    var a, t, b := Arrive(0, "k", "/transfers", "h"), Elapse(LEASE + 1), Arrive(1, "k", "/transfers", hash);
    var s1 := Next(Boot(0), a);
    var s2 := Next(s1, t);
    var s3 := Next(s2, b);
    assert s3 == Contended(hash);
    RunStep(s2, b, []);
    RunStep(s1, t, [b]);
    RunStep(Boot(0), a, [t] + [b]);
    es := [a] + ([t] + [b]);
  }

  /** A slow request and a second one under its key, both in their handlers. */
  function Contended(hash: string): State {
    var now := LEASE + 1;
    State(now, Locked(map[], now, "k", "/transfers", hash),
          map[0 := Request("k", "/transfers", "h", Running(0, true)),
              1 := Request("k", "/transfers", hash, Running(now, true))],
          map["k" := 1])
  }

  /**
    A holder can lose its key inside its own lease: the slow predecessor's late server error
    deletes the row by key, whoever holds it.
  */
  lemma {:induction false} LateSettleOpensKey(body: Body)
    ensures exists es ::
              && CanRun(Boot(0), es)
              && var s := Run(Boot(0), es);
                 && HoldsKey(s, 1, "k") && HoldsKey(s, 2, "k")
                 && s.requests[1].phase.since == s.now == s.requests[2].phase.since
  {
    var es := SlowAndRetry("h");
    var s := Contended("h");
    var e1, e2, e3 := Return(0, 500, body), Settle(0), Arrive(2, "k", "/transfers", "h");
    var s1 := Next(s, e1);
    var s2 := Next(s1, e2);
    var s3 := Next(s2, e3);
    RunStep(s2, e3, []);
    RunStep(s1, e2, [e3]);
    RunStep(s, e1, [e2] + [e3]);
    RunConcat(Boot(0), es, [e1] + ([e2] + [e3]));
    assert CanRun(Boot(0), es + ([e1] + ([e2] + [e3])));
  }

  lemma {:induction false} RunConcat(s: State, xs: seq<Event>, ys: seq<Event>)
    requires CanRun(s, xs) && CanRun(Run(s, xs), ys)
    ensures CanRun(s, xs + ys) && Run(s, xs + ys) == Run(Run(s, xs), ys)
    decreases |xs|
  {
    if xs == [] {
      assert xs + ys == ys;
    } else {
      assert (xs + ys)[1..] == xs[1..] + ys;
      hide Next, Enabled;
      RunConcat(Next(s, xs[0]), xs[1..], ys);
    }
  }

  /** An unexplained replay or refusal, in any run: some request under that key had overstayed. */
  lemma {:induction false} UnexplainedMeansOverstay(now: int, es: seq<Event>, key: string, id: nat)
    requires CanRun(Boot(now), es)
    requires var s := Run(Boot(now), es);
             id in s.requests && s.requests[id].key == key && !AnswerExplained(s, s.requests[id])
    ensures exists i :: 0 <= i <= |es| && Overstays(StateAt(Boot(now), es, i), key)
  {
    if KeepsLease(Boot(now), es, key) {
      EveryRun(now, es, key);
      assert false;
    } else {
      var i := BrokenLease(Boot(now), es, key);
    }
  }

  /**
    And it happens: a slow request's late response completes the row that a later one with a
    different payload has locked, and is replayed to requests with the later payload.
  */
  lemma {:induction false} ReplayNeedsLease(body: Body)
    ensures exists es ::
              && CanRun(Boot(0), es)
              && var s := Run(Boot(0), es);
                 && 2 in s.requests && s.requests[2].key == "k" && s.requests[2].hash == "h1"
                 && s.requests[2].phase.Answered? && s.requests[2].phase.response.Replayed?
                 && s.requests[2].phase.response.code == 200 && SeenAs(body, s.requests[2].phase.response.json)
                 && !AnswerExplained(s, s.requests[2])
  {
    var es := SlowAndRetry("h1");
    var s := Contended("h1");
    var e1, e2, e3, e4 := Return(0, 200, body), Settle(0), Arrive(2, "k", "/transfers", "h1"), Probe(2);
    StoredNotEmpty(body);
    var s1 := Next(s, e1);
    var s2 := Next(s1, e2);
    var s3 := Next(s2, e3);
    var s4 := Next(s3, e4);
    OnlyTheSlowOne(s4, body);
    RunStep(s3, e4, []);
    RunStep(s2, e3, [e4]);
    RunStep(s1, e2, [e3] + [e4]);
    RunStep(s, e1, [e2] + ([e3] + [e4]));
    RunConcat(Boot(0), es, [e1] + ([e2] + ([e3] + [e4])));
    assert CanRun(Boot(0), es + ([e1] + ([e2] + ([e3] + [e4]))));
  }

  lemma {:induction false} OnlyTheSlowOne(s: State, body: Body)
    requires s.requests.Keys == {0, 1, 2}
    requires s.requests[0].hash == "h" && s.requests[1].phase.Running?
    requires s.requests[2] == Request("k", "/transfers", "h1", Answered(Replayed(200, Stored(body))))
    ensures !AnswerExplained(s, s.requests[2])
  {
  }

  // ---------------------------------------------------------------- after a crash

  ghost predicate NoHolder(s: State, key: string) {
    forall id :: !HoldsKey(s, id, key)
  }

  ghost predicate NoArrival(es: seq<Event>, key: string) {
    forall i :: 0 <= i < |es| ==> !(es[i].Arrive? && es[i].key == key)
  }

  lemma {:induction false} NotHeldByOthers(s: State, key: string)
    requires HoldersOwn(s, key) && key in s.writer
    requires s.writer[key] in s.requests && !Holds(s.requests[s.writer[key]])
    ensures NoHolder(s, key)
  {
  }

  lemma {:induction false} NotHeldWhenCompleted(s: State, key: string)
    requires HoldersOwn(s, key) && key in s.rows && s.rows[key].status == COMPLETED
    ensures NoHolder(s, key)
  {
  }

  lemma {:induction false} OrphanStep(s: State, e: Event, key: string)
    requires Guarded(s) && NoHolder(s, key) && Enabled(s, e) && !(e.Arrive? && e.key == key)
    ensures NoHolder(Next(s, e), key) && s.now <= Next(s, e).now
    ensures if key in Next(s, e).rows then key in s.rows && Next(s, e).rows[key] == s.rows[key]
            else key !in s.rows || s.now > s.rows[key].created + RETENTION
  {
    var s' := Next(s, e);
    assert forall id :: HoldsKey(s', id, key) ==> HoldsKey(s, id, key);
    assert e.Settle? && s.requests[e.id].key == key ==> HoldsKey(s, e.id, key);
  }

  lemma {:induction false} OrphanRow(s: State, es: seq<Event>, key: string)
    requires Guarded(s) && NoHolder(s, key) && CanRun(s, es) && NoArrival(es, key)
    ensures var s' := Run(s, es);
            && s.now <= s'.now
            && if key in s'.rows then key in s.rows && s'.rows[key] == s.rows[key]
               else key !in s.rows || s'.now > s.rows[key].created + RETENTION
    decreases |es|
  {
    if es == [] {
    } else {
      NextGuarded(s, es[0]);
      OrphanStep(s, es[0], key);
      hide Next, NoHolder, Guarded;
      OrphanRow(Next(s, es[0]), es[1..], key);
    }
  }

  /**
    The key of a crashed holder: until somebody else asks for it, its row stays, or is swept a
    day later; and the first to ask gets it exactly if the crashed holder's lease is over.
  */
  lemma {:induction false} CrashedKeyComesBack(
    s: State, es: seq<Event>, key: string, c: nat, id: nat, path: string, hash: string)
    requires Inv(s, key) && c in s.requests && s.requests[c].phase.Crashed?
    requires key in s.rows && s.rows[key].status == STARTED && key in s.writer && s.writer[key] == c
    requires CanRun(s, es) && NoArrival(es, key) && Enabled(Run(s, es), Arrive(id, key, path, hash))
    ensures var s' := Run(s, es);
            && (if key in s'.rows then s'.rows[key] == s.rows[key] else s'.now > s.rows[key].created + RETENTION)
            && (HoldsKey(Next(s', Arrive(id, key, path, hash)), id, key) <==> s'.now > s.rows[key].created + LEASE)
  {
    NotHeldByOthers(s, key);
    OrphanRow(s, es, key);
    hide Run, CanRun, Inv;
  }

  // ---------------------------------------------------------------- completed rows

  /** A completed row never changes; only the sweep removes it, a day after it was locked. */
  lemma {:induction false} CompletedRowIsFrozen(s: State, e: Event, key: string)
    requires Inv(s, key) && Enabled(s, e)
    requires key in s.rows && s.rows[key].status == COMPLETED
    ensures if key in Next(s, e).rows then Next(s, e).rows[key] == s.rows[key]
            else e == Sweep && s.now > s.rows[key].created + RETENTION
  {
    NotHeldWhenCompleted(s, key);
    assert e.Settle? && s.requests[e.id].key == key ==> HoldsKey(s, e.id, key);
  }

  /**
    Every later request under a completed key is answered from the row: the stored code and
    value if the hash is the one that was stored, 422 otherwise.
  */
  lemma {:induction false} ReplayOrRefuse(s: State, id: nat)
    requires Enabled(s, Probe(id)) && Inv(s, s.requests[id].key)
    requires s.requests[id].key in s.rows && s.rows[s.requests[id].key].status == COMPLETED
    ensures var key := s.requests[id].key;
            var r := s.requests[s.writer[key]];
            && Faithful(s, key)
            && Next(s, Probe(id)).rows == s.rows
            && Next(s, Probe(id)).requests[id].phase.Answered?
            && (if r.hash != s.requests[id].hash then Next(s, Probe(id)).requests[id].phase.response == Mismatch
                else
                  && Next(s, Probe(id)).requests[id].phase.response.Replayed?
                  && Next(s, Probe(id)).requests[id].phase.response.code == r.phase.response.code
                  && SeenAs(r.phase.response.body, Next(s, Probe(id)).requests[id].phase.response.json))
  {
    var key := s.requests[id].key;
    assert Faithful(s, key);
    StoredNotEmpty(s.requests[s.writer[key]].phase.response.body);
  }

  lemma {:induction false} TimeGrows(s: State, es: seq<Event>)
    requires CanRun(s, es)
    ensures s.now <= Run(s, es).now
    decreases |es|
  {
    if es == [] {
    } else {
      assert s.now <= Next(s, es[0]).now;
      hide Next;
      TimeGrows(Next(s, es[0]), es[1..]);
    }
  }

  /** What a row answers to a request with the given hash. */
  function AnswerOf(row: KeyRow, hash: string): Response {
    if row.hash != "" && row.hash != hash then Mismatch
    else
      Replayed(if row.code.Some? then row.code.value else 200,
               if row.body.None? || row.body.value == "" then "null" else row.body.value)
  }

  /** A request under the row's key waits, died waiting, or was answered from the row. */
  ghost predicate Repeats(s: State, row: KeyRow, key: string, id: nat) {
    id in s.requests && s.requests[id].key == key ==>
      match s.requests[id].phase
      case Probing => true
      case Crashed => true
      case Answered(response) => response == AnswerOf(row, s.requests[id].hash)
      case _ => false
  }

  lemma {:induction false} RepeatsStep(s: State, e: Event, key: string, id: nat)
    requires Enabled(s, e) && key in s.rows && s.rows[key].status == COMPLETED && Repeats(s, s.rows[key], key, id)
    ensures Repeats(Next(s, e), s.rows[key], key, id)
  {
  }

  lemma {:induction false} KeepsRepeating(s: State, es: seq<Event>, key: string, id: nat)
    requires Inv(s, key) && CanRun(s, es) && KeepsLease(s, es, key)
    requires key in s.rows && s.rows[key].status == COMPLETED && Repeats(s, s.rows[key], key, id)
    requires Run(s, es).now <= s.rows[key].created + RETENTION
    ensures key in Run(s, es).rows && Run(s, es).rows[key] == s.rows[key]
    ensures Repeats(Run(s, es), s.rows[key], key, id)
    decreases |es|
  {
    if es == [] {
    } else {
      NextKeepsInv(s, es[0], key);
      CompletedRowIsFrozen(s, es[0], key);
      RepeatsStep(s, es[0], key, id);
      TimeGrows(s, es);
      hide Next, Inv, Repeats, Enabled, InLease;
      KeepsRepeating(Next(s, es[0]), es[1..], key, id);
    }
  }

  /** A completed key has no live holder, so it has no lease to keep. */
  lemma {:induction false} CompletedKeepsLease(s: State, es: seq<Event>, key: string)
    requires Inv(s, key) && CanRun(s, es) && key in s.rows && s.rows[key].status == COMPLETED
    requires Run(s, es).now <= s.rows[key].created + RETENTION
    ensures KeepsLease(s, es, key)
    decreases |es|
  {
    if es == [] {
    } else {
      NotHeldWhenCompleted(s, key);
      NextKeepsInv(s, es[0], key);
      CompletedRowIsFrozen(s, es[0], key);
      TimeGrows(s, es);
      hide Next, Inv, Enabled;
      CompletedKeepsLease(Next(s, es[0]), es[1..], key);
    }
  }

  /**
    For a day after its key was locked a completed row stays as it is, and a request that
    arrives after the completion never reaches its handler: it is answered from the row.
    From the completion on this needs no lease.
  */
  lemma {:induction false} RepeatsForADay(s: State, es: seq<Event>, key: string, id: nat)
    requires Inv(s, key) && CanRun(s, es) && id !in s.requests
    requires key in s.rows && s.rows[key].status == COMPLETED
    requires Run(s, es).now <= s.rows[key].created + RETENTION
    ensures key in Run(s, es).rows && Run(s, es).rows[key] == s.rows[key]
    ensures Repeats(Run(s, es), s.rows[key], key, id)
  {
    CompletedKeepsLease(s, es, key);
    KeepsRepeating(s, es, key, id);
  }
}
