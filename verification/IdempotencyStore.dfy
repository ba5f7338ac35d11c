/**
  The idempotency_keys table and the middleware's stages around it.  Times are in
  milliseconds of the database clock.  Hashes are opaque strings.
*/
module IdempotencyStore {
  import opened Prelude

  const LEASE := 60_000
  const RETENTION := 86_400_000

  const STARTED := "started"
  const COMPLETED := "completed"

  /** A response body as written by the handler: its bytes, and whether they are JSON. */
  datatype Body = Body(text: string, isJson: bool)

  datatype KeyRow = KeyRow(
    path: string, hash: string, code: Option<int>, body: Option<string>, status: string, created: int)

  type Keys = map<string, KeyRow>

  datatype Response =
    | Fresh(code: int, body: Body)         // the handler's own response
    | Replayed(code: int, json: string)
    | InProgress                           // 409
    | Mismatch                             // 422
    | LookupFailed                         // 500, the row vanished before it was read

  /** What a request that did not get the lock does with the row it finds. */
  datatype Verdict = Reply(response: Response) | FallThrough

  /** The value stored for a body: JSON as it is, anything else as null. */
  function Stored(body: Body): string {
    if body.text == "" || !body.isJson then "null" else body.text
  }

  predicate Lockable(rows: Keys, now: int, key: string) {
    key !in rows || (rows[key].status == STARTED && rows[key].created < now - LEASE)
  }

  function Locked(rows: Keys, now: int, key: string, path: string, hash: string): Keys {
    rows[key := KeyRow(path, hash, None, None, STARTED, now)]
  }

  function Finished(rows: Keys, key: string, code: int, json: string): Keys {
    if key in rows then
      rows[key := rows[key].(status := COMPLETED, code := Some(code),
                             body := Some(if json == "" then "null" else json))]
    else rows
  }

  function Without(rows: Keys, key: string): Keys {
    rows - {key}
  }

  predicate Expired(row: KeyRow, now: int) {
    row.created < now - RETENTION
  }

  function Swept(rows: Keys, now: int): Keys {
    map k | k in rows && !Expired(rows[k], now) :: rows[k]
  }

  function Judge(rows: Keys, key: string, hash: string): Verdict {
    if key !in rows then Reply(LookupFailed)
    else
      var row := rows[key];
      if row.status == STARTED then Reply(InProgress)
      else if row.status == COMPLETED then
        if row.hash != "" && row.hash != hash then Reply(Mismatch)
        else
          Reply(Replayed(if row.code.Some? then row.code.value else 200,
                         if row.body.None? || row.body.value == "" then "null" else row.body.value))
      else FallThrough
  }

  /** The row a finished handler leaves behind: none after a server error. */
  function Settled(rows: Keys, key: string, code: int, body: Body): Keys {
    if code >= 500 then Without(rows, key) else Finished(rows, key, code, Stored(body))
  }

  class Repository {
    var rows: map<string, KeyRow>

    constructor ()
      ensures rows == map[]
    {
      rows := map[];
    }

    /** INSERT ... ON CONFLICT DO UPDATE ... WHERE started and older than the lease. */
    method TryLock(now: int, key: string, path: string, hash: string) returns (locked: bool)
      modifies this
      ensures locked <==>
                key !in old(rows) || (old(rows)[key].status == "started" && old(rows)[key].created < now - 60_000)
      ensures rows == if locked then old(rows)[key := KeyRow(path, hash, None, None, "started", now)] else old(rows)
      ensures locked == Lockable(old(rows), now, key)
      ensures rows == if locked then Locked(old(rows), now, key, path, hash) else old(rows)
    {
      if key !in rows {
        rows := rows[key := KeyRow(path, hash, None, None, STARTED, now)];
        return true;
      }
      if rows[key].status == STARTED && rows[key].created < now - LEASE {
        rows := rows[key := rows[key].(path := path, hash := hash, status := STARTED, code := None, body := None,
                                       created := now)];
        return true;
      }
      return false;
    }

    method Update(key: string, code: int, body: string)
      modifies this
      ensures rows == Finished(old(rows), key, code, body)
      ensures rows ==
              if key !in old(rows) then old(rows)
              else old(rows)[key := old(rows)[key].(status := "completed", code := Some(code),
                                                    body := Some(if body == "" then "null" else body))]
    {
      var value := if |body| == 0 then "null" else body;
      if key in rows {
        rows := rows[key := rows[key].(status := COMPLETED, code := Some(code), body := Some(value))];
      }
    }

    method Delete(key: string)
      modifies this
      ensures rows == Without(old(rows), key)
    {
      rows := rows - {key};
    }

    method SweepExpiredKeys(now: int) returns (deleted: nat)
      modifies this
      ensures rows == Swept(old(rows), now)
      ensures forall k :: k in rows <==> k in old(rows) && old(rows)[k].created >= now - 86_400_000
      ensures forall k :: k in rows ==> rows[k] == old(rows)[k]
      ensures deleted == |old(rows)| - |rows|
    {
      var kept := map k | k in rows && !(rows[k].created < now - RETENTION) :: rows[k];
      CardinalityOfPart(kept, rows);
      deleted := |rows| - |kept|;
      rows := kept;
    }
  }

  lemma {:induction false} CardinalityOfPart(part: Keys, whole: Keys)
    requires part.Keys <= whole.Keys
    ensures |part| <= |whole|
  {
    Subset(part.Keys, whole.Keys);
    assert |part.Keys| == |part| && |whole.Keys| == |whole|;
  }

  lemma {:induction false} Subset(a: set<string>, b: set<string>)
    requires a <= b
    ensures |a| <= |b|
    decreases |a|
  {
    if x :| x in a {
      Subset(a - {x}, b - {x});
    }
  }

  /** The middleware, cut where other requests can run: lock, look up, settle. */
  class Middleware {
    const repo: Repository

    constructor (repo: Repository)
      ensures this.repo == repo
    {
      this.repo := repo;
    }

    method Lock(now: int, key: string, path: string, hash: string) returns (proceed: bool)
      modifies repo
      ensures proceed == Lockable(old(repo.rows), now, key)
      ensures repo.rows == if proceed then Locked(old(repo.rows), now, key, path, hash) else old(repo.rows)
    {
      proceed := repo.TryLock(now, key, path, hash);
    }

    /** Reads only; `None` means that control falls through to the handler. */
    method LookUp(key: string, hash: string) returns (answer: Option<Response>)
      ensures answer == match Judge(repo.rows, key, hash) case Reply(r) => Some(r) case FallThrough => None
      ensures
        if key !in repo.rows then answer == Some(LookupFailed)
        else
          var row := repo.rows[key];
          match row.status
          case "started" => answer == Some(InProgress)
          case "completed" =>
            if row.hash != "" && row.hash != hash then answer == Some(Mismatch)
            else
              && answer.Some? && answer.value.Replayed?
              && answer.value.code == (if row.code == None then 200 else row.code.value)
              && answer.value.json == (if row.body in {None, Some("")} then "null" else row.body.value)
          case _ => answer == None
    {
      if key !in repo.rows {
        return Some(LookupFailed);
      }
      var record := repo.rows[key];
      if record.status == STARTED {
        return Some(InProgress);
      }
      if record.status == COMPLETED {
        if record.hash != "" && record.hash != hash {
          return Some(Mismatch);
        }
        var code := 200;
        if record.code.Some? {
          code := record.code.value;
        }
        var body := "";
        if record.body.Some? {
          body := record.body.value;
        }
        if |body| == 0 {
          body := "null";
        }
        return Some(Replayed(code, body));
      }
      return None;
    }

    /** After the handler: delete the row on a server error, else store the response. */
    method Settle(key: string, code: int, body: Body)
      modifies repo
      ensures repo.rows == Settled(old(repo.rows), key, code, body)
      ensures code >= 500 || key !in old(repo.rows) ==> repo.rows == old(repo.rows) - {key}
      ensures code < 500 && key in old(repo.rows) ==>
                var json := if body.isJson && body.text != "" then body.text else "null";
                var row := old(repo.rows)[key];
                repo.rows == old(repo.rows)[key := row.(status := "completed", code := Some(code), body := Some(json))]
    {
      if code >= 500 {
        repo.Delete(key);
        return;
      }
      var bytes := body.text;
      if |bytes| == 0 || !body.isJson {
        bytes := "null";
      }
      repo.Update(key, code, bytes);
    }
  }
}
