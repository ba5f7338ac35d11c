/**
  The browser engine's `money` call, cut at its awaits: validation and lock set, the checks
  made as soon as all locks are held, and the commit after the simulated hold time.  The
  class keeps the engine's fields and is proved against the functions.
*/
module SimMoney {
  import opened Prelude
  import opened SimBook

  /** The JSON body; an amount that is not an integer is `None`. */
  datatype Body = Body(amount: Option<int>, wallet: JsId, from: JsId, to: JsId, reference: string)

  /** A call that passed validation. */
  datatype Request = Request(
    kind: Kind, key: string, from: JsId, to: JsId, amount: int, reference: string, fingerprint: string)

  datatype Res =
    | KeyRequired                                              // 400
    | BadAmount                                                // 400
    | SameWallet                                               // 400
    | KeyReused(fingerprint: string)                           // 422
    | WalletMissing                                            // 404
    | InsufficientFunds(wallet: string, balance: int, amount: int) // 422
    | Created(tx: Tx, fingerprint: string, replayed: bool)     // 201
    | Thrown                                                   // TypeError: no wallet on either side

  datatype IdemRecord = IdemRecord(fingerprint: string, response: Res)

  type Idem = map<string, IdemRecord>

  type Digest = (Kind, Body) -> string

  function From(kind: Kind, body: Body): JsId {
    match kind
    case Transfer => body.from
    case Withdrawal => body.wallet
    case Deposit => Null
  }

  function To(kind: Kind, body: Body): JsId {
    match kind
    case Transfer => body.to
    case Withdrawal => Null
    case Deposit => body.wallet
  }

  function Validate(digest: Digest, kind: Kind, key: Option<string>, body: Body): Result<Request, Res> {
    if key.None? || key.value == "" then Failure(KeyRequired)
    else if body.amount.None? || body.amount.value <= 0 then Failure(BadAmount)
    else
      var from, to := From(kind, body), To(kind, body);
      if kind == Transfer && from == to then Failure(SameWallet)
      else Success(Request(kind, key.value, from, to, body.amount.value, body.reference, digest(kind, body)))
  }

  function KeyLock(key: string): string {
    "idem:" + key
  }

  function SideLock(side: JsId): seq<string> {
    if Truthy(side) then [side.id] else []
  }

  /** What a call locks: its key and the wallets it names. */
  function LockNames(r: Request): seq<string> {
    [KeyLock(r.key)] + SideLock(r.from) + SideLock(r.to)
  }

  predicate SideKnown(ws: Wallets, side: JsId) {
    Truthy(side) ==> side.id in ws
  }

  function Replay(record: IdemRecord): Res {
    match record.response
    case Created(tx, fingerprint, _) => Created(tx, fingerprint, true)
    case other => other
  }

  /** What a call answers when its key is known. */
  function AnswerFrom(record: IdemRecord, r: Request): Res {
    if record.fingerprint != r.fingerprint then KeyReused(record.fingerprint) else Replay(record)
  }

  /** The part before the sleep: an answer, or None to go on. */
  function OnLocked(ws: Wallets, idem: Idem, r: Request): Option<Res> {
    if r.key in idem then Some(AnswerFrom(idem[r.key], r))
    else if !SideKnown(ws, r.from) || !SideKnown(ws, r.to) then Some(WalletMissing)
    else None
  }

  datatype Woken = Woken(book: Book, idem: Idem, res: Res)

  function TxOf(r: Request, ws: Wallets, txId: string): Tx
    requires SideKnown(ws, r.from) && SideKnown(ws, r.to) && (Truthy(r.from) || Truthy(r.to))
  {
    var currency := if Truthy(r.from) then ws[r.from.id].currency else ws[r.to.id].currency;
    Tx(txId, r.kind, r.amount, currency, r.from, r.to, r.key, r.reference)
  }

  /** The part after the sleep. */
  function OnWake(h: Hasher, b: Book, idem: Idem, r: Request, txId: string): Woken
    requires SideKnown(b.wallets, r.from) && SideKnown(b.wallets, r.to)
  {
    if Truthy(r.from) && b.wallets[r.from.id].balance < r.amount then
      Woken(b, idem, InsufficientFunds(r.from.id, b.wallets[r.from.id].balance, r.amount))
    else if !Truthy(r.from) && !Truthy(r.to) then Woken(b, idem, Thrown)
    else
      var tx := TxOf(r, b.wallets, txId);
      var res := Created(tx, r.fingerprint, false);
      Woken(Commit(h, b, tx), idem[r.key := IdemRecord(r.fingerprint, res)], res)
  }

  ghost predicate Solvent(ws: Wallets) {
    forall w :: w in ws ==> ws[w].balance >= 0
  }

  /** Waking up keeps the book sound and every wallet out of the red. */
  lemma {:induction false} WakeKeepsBook(h: Hasher, b: Book, idem: Idem, r: Request, txId: string)
    requires Sound(h, b) && Solvent(b.wallets) && r.amount > 0
    requires SideKnown(b.wallets, r.from) && SideKnown(b.wallets, r.to)
    ensures var w := OnWake(h, b, idem, r, txId);
            Sound(h, w.book) && Solvent(w.book.wallets) && w.book.wallets.Keys == b.wallets.Keys
  {
    var w := OnWake(h, b, idem, r, txId);
    if w.res.Created? {
      CommitKeepsSound(h, b, w.res.tx);
      forall x | x in w.book.wallets ensures w.book.wallets[x].balance >= 0 {
        CommitMoves(h, b, w.res.tx, x);
      }
    }
  }

  /** A transfer that goes through conserves money exactly when it names a wallet on both sides. */
  lemma {:induction false} TransferConservesIff(h: Hasher, b: Book, idem: Idem, r: Request, txId: string)
    requires r.kind == Transfer && r.amount > 0
    requires SideKnown(b.wallets, r.from) && SideKnown(b.wallets, r.to)
    requires OnWake(h, b, idem, r, txId).res.Created?
    ensures Money(OnWake(h, b, idem, r, txId).book.wallets) == Money(b.wallets) <==> Truthy(r.from) && Truthy(r.to)
  {
    ConservedIff(h, b, TxOf(r, b.wallets, txId));
  }

  /** The other case occurs: a transfer from the empty id passes every check and creates money. */
  lemma {:induction false} TransferFromNobody(h: Hasher, digest: Digest)
    ensures var body := Body(Some(5), Undefined, Str(""), Str("w"), "");
            var b := Book(map["w" := Wallet("USD", 0, 0)], [], [], 0, GENESIS);
            && Validate(digest, Transfer, Some("k"), body).Success?
            && var r := Validate(digest, Transfer, Some("k"), body).value;
               && OnLocked(b.wallets, map[], r) == None
               && OnWake(h, b, map[], r, "t").res.Created?
               && Money(OnWake(h, b, map[], r, "t").book.wallets) != Money(b.wallets)
  {
    var body := Body(Some(5), Undefined, Str(""), Str("w"), "");
    var b := Book(map["w" := Wallet("USD", 0, 0)], [], [], 0, GENESIS);
    var r := Validate(digest, Transfer, Some("k"), body).value;
    assert r.from == Str("") && r.to == Str("w");
    assert OnWake(h, b, map[], r, "t").res.Created?;
    hide OnWake, Money;
    TransferConservesIff(h, b, map[], r, "t");
  }

  // ---------------------------------------------------------------- what a call does to its body

  /** A wallet after one more entry. */
  predicate Moved(ws: Wallets, ws': Wallets, w: string, delta: int) {
    && w in ws && w in ws' && ws'[w] == Wallet(ws[w].currency, ws[w].balance + delta, ws[w].version + 1)
  }

  /** Validation, on the body's own fields: the first thing wrong decides. */
  lemma {:induction false} ValidateIff(digest: Digest, kind: Kind, key: Option<string>, body: Body)
    ensures var r := Validate(digest, kind, key, body);
            var keyless, amountless := key in {None, Some("")}, body.amount.None? || body.amount.value <= 0;
            var toItself := kind == Transfer && body.from == body.to;
            && (r == Failure(KeyRequired) <==> keyless)
            && (r == Failure(BadAmount) <==> !keyless && amountless)
            && (r == Failure(SameWallet) <==> !keyless && !amountless && toItself)
            && (r.Success? <==> !keyless && !amountless && !toItself)
  {
  }

  /** A deposit is never refused for funds, and raises exactly the wallet it names. */
  lemma {:induction false} DepositRaises(
    h: Hasher, digest: Digest, key: Option<string>, body: Body, r: Request, b: Book, idem: Idem, txId: string)
    requires Validate(digest, Deposit, key, body) == Success(r) && r.key !in idem && Truthy(body.wallet)
    ensures body.wallet.id !in b.wallets ==> OnLocked(b.wallets, idem, r) == Some(WalletMissing)
    ensures body.wallet.id in b.wallets ==>
              && OnLocked(b.wallets, idem, r) == None
              && var w := OnWake(h, b, idem, r, txId);
                 && w.res.Created? && !w.res.replayed
                 && Moved(b.wallets, w.book.wallets, body.wallet.id, body.amount.value)
                 && w.book.wallets - {body.wallet.id} == b.wallets - {body.wallet.id}
                 && w.res.tx == Tx(txId, Deposit, body.amount.value, b.wallets[body.wallet.id].currency, Null,
                                   body.wallet, key.value, body.reference)
  {
    if body.wallet.id in b.wallets {
      assert OnWake(h, b, idem, r, txId).book.wallets - {body.wallet.id} == b.wallets - {body.wallet.id};
    }
  }

  /** A withdrawal goes through exactly if the wallet it names holds the amount, and lowers only that wallet. */
  lemma {:induction false} WithdrawalIff(
    h: Hasher, digest: Digest, key: Option<string>, body: Body, r: Request, b: Book, idem: Idem, txId: string)
    requires Validate(digest, Withdrawal, key, body) == Success(r) && r.key !in idem && Truthy(body.wallet)
    ensures body.wallet.id !in b.wallets ==> OnLocked(b.wallets, idem, r) == Some(WalletMissing)
    ensures body.wallet.id in b.wallets ==>
              && OnLocked(b.wallets, idem, r) == None
              && var w, id, amount := OnWake(h, b, idem, r, txId), body.wallet.id, body.amount.value;
                 if b.wallets[id].balance < amount then
                   w == Woken(b, idem, InsufficientFunds(id, b.wallets[id].balance, amount))
                 else
                   && w.res.Created? && !w.res.replayed
                   && Moved(b.wallets, w.book.wallets, id, -amount)
                   && w.book.wallets - {id} == b.wallets - {id}
                   && w.res.tx == Tx(txId, Withdrawal, amount, b.wallets[id].currency, body.wallet, Null, key.value,
                                     body.reference)
  {
    if body.wallet.id in b.wallets {
      var w := OnWake(h, b, idem, r, txId);
      assert w.res.Created? ==> w.book.wallets - {body.wallet.id} == b.wallets - {body.wallet.id};
    }
  }

  /**
    A transfer between two wallets goes through exactly if the sender holds the amount, moves
    it from the one to the other, and touches no third wallet.
  */
  lemma {:induction false} TransferMoves(
    h: Hasher, digest: Digest, key: Option<string>, body: Body, r: Request, b: Book, idem: Idem, txId: string)
    requires Validate(digest, Transfer, key, body) == Success(r) && r.key !in idem
    requires Truthy(body.from) && Truthy(body.to)
    ensures body.from.id !in b.wallets || body.to.id !in b.wallets ==>
              OnLocked(b.wallets, idem, r) == Some(WalletMissing)
    ensures body.from.id in b.wallets && body.to.id in b.wallets ==>
              && OnLocked(b.wallets, idem, r) == None
              && var w, from, to, amount := OnWake(h, b, idem, r, txId), body.from.id, body.to.id, body.amount.value;
                 if b.wallets[from].balance < amount then
                   w == Woken(b, idem, InsufficientFunds(from, b.wallets[from].balance, amount))
                 else
                   && w.res.Created? && !w.res.replayed && from != to
                   && Moved(b.wallets, w.book.wallets, from, -amount)
                   && Moved(b.wallets, w.book.wallets, to, amount)
                   && w.book.wallets - {from, to} == b.wallets - {from, to}
                   && w.res.tx == Tx(txId, Transfer, amount, b.wallets[from].currency, body.from, body.to, key.value,
                                     body.reference)
  {
    if body.from.id in b.wallets && body.to.id in b.wallets {
      var w := OnWake(h, b, idem, r, txId);
      assert w.res.Created? ==> w.book.wallets - {body.from.id, body.to.id} == b.wallets - {body.from.id, body.to.id};
    }
  }

  /** A call with no wallet on either side passes every check, then throws and leaves no trace. */
  lemma {:induction false} NobodyThrows(
    h: Hasher, digest: Digest, kind: Kind, key: Option<string>, body: Body, r: Request, b: Book, idem: Idem,
    txId: string)
    requires Validate(digest, kind, key, body) == Success(r) && r.key !in idem
    requires if kind == Transfer then !Truthy(body.from) && !Truthy(body.to) else !Truthy(body.wallet)
    ensures OnLocked(b.wallets, idem, r) == None && OnWake(h, b, idem, r, txId) == Woken(b, idem, Thrown)
  {
  }

  datatype Reconciliation = Reconciliation(
    wallet: string, cached: int, ledger: int, entryCount: nat, balanced: bool, chainValid: bool)

  class SimEngine {
    const fnv: Hasher
    var wallets: map<string, Wallet>
    var txs: seq<Tx>
    var entries: seq<Entry>
    var idem: map<string, IdemRecord>
    var seqNo: nat
    var lastHash: string

    function TheBook(): Book
      reads this
    {
      Book(wallets, txs, entries, seqNo, lastHash)
    }

    ghost predicate Valid()
      reads this
    {
      Sound(fnv, TheBook()) && Solvent(wallets)
    }

    constructor (fnv: Hasher)
      ensures Valid() && this.fnv == fnv
      ensures TheBook() == Book(map[], [], [], 0, GENESIS) && idem == map[]
    {
      this.fnv := fnv;
      wallets, txs, entries, idem, seqNo, lastHash := map[], [], [], map[], 0, GENESIS;
    }

    method Post(tx: string, wallet: string, direction: Direction, amount: int, balanceAfter: int)
      modifies this`seqNo, this`lastHash, this`entries
      ensures TheBook() == SimBook.Post(fnv, old(TheBook()), tx, wallet, direction, amount, balanceAfter)
      ensures seqNo == old(seqNo) + 1
      ensures lastHash == fnv(old(lastHash), seqNo, tx, wallet, direction, amount, balanceAfter)
      ensures entries ==
              old(entries) + [Entry(seqNo, tx, wallet, direction, amount, balanceAfter, old(lastHash), lastHash)]
    {
      seqNo := seqNo + 1;
      var prevHash := lastHash;
      var hash := fnv(prevHash, seqNo, tx, wallet, direction, amount, balanceAfter);
      lastHash := hash;
      entries := entries + [Entry(seqNo, tx, wallet, direction, amount, balanceAfter, prevHash, hash)];
    }

    method Commit(tx: Tx)
      requires SideKnown(wallets, tx.from) && SideKnown(wallets, tx.to)
      modifies this`wallets, this`txs, this`entries, this`seqNo, this`lastHash
      ensures TheBook() == SimBook.Commit(fnv, old(TheBook()), tx)
    {
      hide SimBook.Post;
      ghost var before := TheBook();
      if Truthy(tx.from) {
        var from := wallets[tx.from.id];
        from := from.(balance := from.balance - tx.amount);
        from := from.(version := from.version + 1);
        wallets := wallets[tx.from.id := from];
        Post(tx.id, tx.from.id, Debit, tx.amount, from.balance);
      } else {
        Post(tx.id, SYSTEM_ACCOUNT, Debit, tx.amount, 0);
      }
      ghost var middle := TheBook();
      assert middle == PostSide(fnv, before, tx.id, tx.from, Debit, tx.amount);
      if Truthy(tx.to) {
        var to := wallets[tx.to.id];
        to := to.(balance := to.balance + tx.amount);
        to := to.(version := to.version + 1);
        wallets := wallets[tx.to.id := to];
        Post(tx.id, tx.to.id, Credit, tx.amount, to.balance);
      } else {
        Post(tx.id, SYSTEM_ACCOUNT, Credit, tx.amount, 0);
      }
      assert TheBook() == PostSide(fnv, middle, tx.id, tx.to, Credit, tx.amount);
      txs := txs + [tx];
    }

    /** POST /wallets, with the id that was drawn for it. */
    method Open(id: string, currency: string)
      requires Valid() && id !in wallets && id != SYSTEM_ACCOUNT
      modifies this`wallets
      ensures Valid() && wallets == old(wallets)[id := Wallet(currency, 0, 0)]
    {
      NewWalletKeepsSound(fnv, TheBook(), id, currency);
      wallets := wallets[id := Wallet(currency, 0, 0)];
    }

    /** `money` once every lock is held, up to its sleep. */
    method Enter(r: Request) returns (answer: Option<Res>)
      ensures answer == OnLocked(wallets, idem, r)
    {
      if r.key in idem {
        var prior := idem[r.key];
        if prior.fingerprint != r.fingerprint {
          return Some(KeyReused(prior.fingerprint));
        }
        return Some(Replay(prior));
      }
      if (Truthy(r.from) && r.from.id !in wallets) || (Truthy(r.to) && r.to.id !in wallets) {
        return Some(WalletMissing);
      }
      return None;
    }

    /** `money` after its sleep. */
    method Wake(r: Request, txId: string) returns (res: Res)
      requires Valid() && SideKnown(wallets, r.from) && SideKnown(wallets, r.to) && r.amount > 0
      modifies this
      ensures Valid()
      ensures Woken(TheBook(), idem, res) == OnWake(fnv, old(TheBook()), old(idem), r, txId)
    {
      WakeKeepsBook(fnv, TheBook(), idem, r, txId);
      if Truthy(r.from) && wallets[r.from.id].balance < r.amount {
        return InsufficientFunds(r.from.id, wallets[r.from.id].balance, r.amount);
      }
      if !Truthy(r.from) && !Truthy(r.to) {
        return Thrown;
      }
      var tx := TxOf(r, wallets, txId);
      Commit(tx);
      res := Created(tx, r.fingerprint, false);
      idem := idem[r.key := IdemRecord(r.fingerprint, res)];
    }

    method EntriesOf(w: string) returns (es: seq<Entry>)
      ensures es == Of(entries, w)
    {
      es := [];
      for i := 0 to |entries|
        invariant es == Of(entries[..i], w)
      {
        assert entries[..i + 1][..i] == entries[..i];
        if entries[i].wallet == w {
          es := es + [entries[i]];
        }
      }
      assert entries[..|entries|] == entries;
    }

    method CheckChain() returns (chain: bool)
      ensures chain == Joined(entries)
    {
      chain := true;
      var i := 1;
      while i < |entries|
        invariant 1 <= i
        invariant chain <==> forall j :: 1 <= j < i && j < |entries| ==> entries[j].prevHash == entries[j - 1].hash
      {
        if entries[i].prevHash != entries[i - 1].hash {
          chain := false;
        }
        i := i + 1;
      }
    }

    /** GET /wallets/:id/reconcile: a valid book is always reported balanced, with a valid chain. */
    method Reconcile(w: string) returns (r: Option<Reconciliation>)
      ensures r.None? <==> w !in wallets
      ensures r.Some? ==>
        && r.value.wallet == w && r.value.cached == wallets[w].balance
        && r.value.ledger == Sum(entries, w) && r.value.entryCount == Count(entries, w)
        && r.value.balanced == (Sum(entries, w) == wallets[w].balance)
        && r.value.chainValid == Joined(entries)
      ensures r.Some? && Valid() ==> r.value.balanced && r.value.chainValid
    {
      hide Sound, Joined;
      if w !in wallets {
        return None;
      }
      var es := EntriesOf(w);
      OfAddsUp(entries, w);
      var ledger := 0;
      for i := 0 to |es|
        invariant ledger == Total(es[..i])
      {
        assert es[..i + 1][..i] == es[..i];
        ledger := ledger + if es[i].direction == Credit then es[i].amount else -es[i].amount;
      }
      assert es[..|es|] == es;
      var chain := CheckChain();
      r := Some(Reconciliation(w, wallets[w].balance, ledger, |es|, ledger == wallets[w].balance, chain));
      if Valid() {
        SoundBookReconciles(fnv, TheBook(), w);
      }
    }
  }
}
