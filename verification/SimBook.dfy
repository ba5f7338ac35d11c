/**
  The browser engine's double-entry book: wallets, transactions and a chained entry list.

  Hashing is a parameter; nothing is assumed about collisions.  Amounts and balances are
  exact integers.  Timestamps, owners and entry ids are not modelled.
*/
module SimBook {
  const SYSTEM_ACCOUNT := "wal_external_settlement"

  /** '0'.repeat(64) */
  const GENESIS := "0000000000000000000000000000000000000000000000000000000000000000"

  datatype Direction = Debit | Credit

  datatype Kind = Deposit | Withdrawal | Transfer

  /** A JSON field that should hold a wallet id. */
  datatype JsId = Undefined | Null | Str(id: string)

  datatype Wallet = Wallet(currency: string, balance: int, version: nat)

  datatype Tx = Tx(
    id: string, kind: Kind, amount: int, currency: string, from: JsId, to: JsId, key: string, reference: string)

  datatype Entry = Entry(
    seqNo: nat, tx: string, wallet: string, direction: Direction, amount: int, balanceAfter: int,
    prevHash: string, hash: string)

  /** prev_hash, seq, transaction, wallet, direction, amount, balance_after */
  type Hasher = (string, nat, string, string, Direction, int, int) -> string

  type Wallets = map<string, Wallet>

  datatype Book = Book(wallets: Wallets, txs: seq<Tx>, entries: seq<Entry>, seqNo: nat, lastHash: string)

  /** A side of a transaction that names a wallet; empty and missing ids are falsy. */
  predicate Truthy(id: JsId) {
    id.Str? && id.id != ""
  }

  function Post(
    h: Hasher, b: Book, tx: string, wallet: string, direction: Direction, amount: int, balanceAfter: int): Book
  {
    var seqNo := b.seqNo + 1;
    var hash := h(b.lastHash, seqNo, tx, wallet, direction, amount, balanceAfter);
    b.(seqNo := seqNo, lastHash := hash,
       entries := b.entries + [Entry(seqNo, tx, wallet, direction, amount, balanceAfter, b.lastHash, hash)])
  }

  function Adjust(w: Wallet, delta: int): Wallet {
    w.(balance := w.balance + delta, version := w.version + 1)
  }

  function Signed(direction: Direction, amount: int): int {
    if direction == Credit then amount else -amount
  }

  /** One side of a transaction: a wallet moves, or the external account stands in for it. */
  function PostSide(h: Hasher, b: Book, tx: string, side: JsId, direction: Direction, amount: int): Book
    requires Truthy(side) ==> side.id in b.wallets
  {
    if Truthy(side) then
      var w := Adjust(b.wallets[side.id], Signed(direction, amount));
      Post(h, b.(wallets := b.wallets[side.id := w]), tx, side.id, direction, amount, w.balance)
    else Post(h, b, tx, SYSTEM_ACCOUNT, direction, amount, 0)
  }

  function Commit(h: Hasher, b: Book, tx: Tx): Book
    requires Truthy(tx.from) ==> tx.from.id in b.wallets
    requires Truthy(tx.to) ==> tx.to.id in b.wallets
  {
    var b2 := PostSide(h, PostSide(h, b, tx.id, tx.from, Debit, tx.amount), tx.id, tx.to, Credit, tx.amount);
    b2.(txs := b2.txs + [tx])
  }

  // ---------------------------------------------------------------- sums over entries

  function Change(e: Entry): int {
    Signed(e.direction, e.amount)
  }

  /** What the entries of one wallet add up to. */
  function Sum(entries: seq<Entry>, wallet: string): int {
    if entries == [] then 0
    else
      var last := entries[|entries| - 1];
      Sum(entries[..|entries| - 1], wallet) + if last.wallet == wallet then Change(last) else 0
  }

  function Count(entries: seq<Entry>, wallet: string): nat {
    if entries == [] then 0
    else
      var last := entries[|entries| - 1];
      Count(entries[..|entries| - 1], wallet) + if last.wallet == wallet then 1 else 0
  }

  function Total(entries: seq<Entry>): int {
    if entries == [] then 0 else Total(entries[..|entries| - 1]) + Change(entries[|entries| - 1])
  }

  // ---------------------------------------------------------------- the book invariant

  ghost predicate Numbered(b: Book) {
    b.seqNo == |b.entries| && forall i :: 0 <= i < |b.entries| ==> b.entries[i].seqNo == i + 1
  }

  function HashBefore(entries: seq<Entry>, i: nat): string
    requires i <= |entries|
  {
    if i == 0 then GENESIS else entries[i - 1].hash
  }

  /** An entry carries its predecessor's hash and the hash of its own contents. */
  ghost predicate LinkedAt(h: Hasher, entries: seq<Entry>, i: nat)
    requires i < |entries|
  {
    var e := entries[i];
    && e.prevHash == HashBefore(entries, i)
    && e.hash == h(e.prevHash, e.seqNo, e.tx, e.wallet, e.direction, e.amount, e.balanceAfter)
  }

  ghost predicate Chained(h: Hasher, b: Book) {
    && b.lastHash == HashBefore(b.entries, |b.entries|)
    && forall i :: 0 <= i < |b.entries| ==> LinkedAt(h, b.entries, i)
  }

  /** balance_after is the wallet's running sum; the external account always shows 0. */
  ghost predicate RunningAt(ws: Wallets, entries: seq<Entry>, i: nat)
    requires i < |entries|
  {
    var e := entries[i];
    if e.wallet == SYSTEM_ACCOUNT then e.balanceAfter == 0
    else e.wallet in ws && e.balanceAfter == Sum(entries[..i + 1], e.wallet)
  }

  ghost predicate Running(b: Book) {
    forall i :: 0 <= i < |b.entries| ==> RunningAt(b.wallets, b.entries, i)
  }

  ghost predicate Balanced(b: Book) {
    && SYSTEM_ACCOUNT !in b.wallets
    && forall w :: w in b.wallets ==>
         b.wallets[w].balance == Sum(b.entries, w) && b.wallets[w].version == Count(b.entries, w)
  }

  /** Entry e is the given side of a transaction. */
  predicate IsSide(e: Entry, tx: Tx, side: JsId, direction: Direction) {
    && e.tx == tx.id && e.direction == direction && e.amount == tx.amount
    && e.wallet == (if Truthy(side) then side.id else SYSTEM_ACCOUNT)
  }

  /** Each transaction posts one debit and one credit of its amount, in this order. */
  ghost predicate PairAt(b: Book, k: nat)
    requires k < |b.txs| && 2 * k + 1 < |b.entries|
  {
    && IsSide(b.entries[2 * k], b.txs[k], b.txs[k].from, Debit)
    && IsSide(b.entries[2 * k + 1], b.txs[k], b.txs[k].to, Credit)
  }

  ghost predicate Paired(b: Book) {
    && |b.entries| == 2 * |b.txs|
    && forall k :: 0 <= k < |b.txs| ==> PairAt(b, k)
  }

  ghost predicate Sound(h: Hasher, b: Book) {
    Numbered(b) && Chained(h, b) && Running(b) && Balanced(b) && Paired(b)
  }

  // ---------------------------------------------------------------- commits keep it

  /** All of it but the pairing, which is broken between the two halves of a commit. */
  ghost predicate Posted(h: Hasher, b: Book) {
    Numbered(b) && Chained(h, b) && Running(b) && Balanced(b)
  }

  lemma {:induction false} SumOfNone(entries: seq<Entry>, wallet: string)
    requires forall i :: 0 <= i < |entries| ==> entries[i].wallet != wallet
    ensures Sum(entries, wallet) == 0 && Count(entries, wallet) == 0
  {
    if entries == [] {
    } else {
      SumOfNone(entries[..|entries| - 1], wallet);
    }
  }

  lemma {:induction false} PostNumbered(
    h: Hasher, b: Book, tx: string, wallet: string, direction: Direction, amount: int, after: int)
    requires Numbered(b) && Chained(h, b)
    ensures Numbered(Post(h, b, tx, wallet, direction, amount, after))
    ensures Chained(h, Post(h, b, tx, wallet, direction, amount, after))
  {
    var b' := Post(h, b, tx, wallet, direction, amount, after);
    forall i | 0 <= i < |b'.entries| ensures LinkedAt(h, b'.entries, i) {
      if i < |b.entries| {
        assert LinkedAt(h, b.entries, i);
      }
    }
  }

  lemma {:induction false} PostSideRunning(
    h: Hasher, b: Book, tx: string, side: JsId, direction: Direction, amount: int)
    requires Posted(h, b) && (Truthy(side) ==> side.id in b.wallets)
    ensures Running(PostSide(h, b, tx, side, direction, amount))
  {
    var b' := PostSide(h, b, tx, side, direction, amount);
    var n := |b.entries|;
    assert b'.entries[..n] == b.entries;
    assert b'.entries[..n + 1] == b'.entries;
    forall i | 0 <= i < |b'.entries| ensures RunningAt(b'.wallets, b'.entries, i) {
      if i < n {
        assert RunningAt(b.wallets, b.entries, i);
        assert b'.entries[..i + 1] == b.entries[..i + 1];
      }
    }
  }

  lemma {:induction false} SumOneMore(entries: seq<Entry>, e: Entry, wallet: string)
    ensures Sum(entries + [e], wallet) == Sum(entries, wallet) + if e.wallet == wallet then Change(e) else 0
    ensures Count(entries + [e], wallet) == Count(entries, wallet) + if e.wallet == wallet then 1 else 0
  {
    assert (entries + [e])[..|entries|] == entries;
  }

  lemma {:induction false} PostSideBalanced(
    h: Hasher, b: Book, tx: string, side: JsId, direction: Direction, amount: int)
    requires Balanced(b) && (Truthy(side) ==> side.id in b.wallets)
    ensures Balanced(PostSide(h, b, tx, side, direction, amount))
  {
    hide Sum, Count;
    var b' := PostSide(h, b, tx, side, direction, amount);
    forall w | w in b'.wallets
      ensures b'.wallets[w].balance == Sum(b'.entries, w) && b'.wallets[w].version == Count(b'.entries, w)
    {
      SumOneMore(b.entries, b'.entries[|b.entries|], w);
    }
  }

  lemma {:induction false} PostSideKeeps(h: Hasher, b: Book, tx: string, side: JsId, direction: Direction, amount: int)
    requires Posted(h, b) && (Truthy(side) ==> side.id in b.wallets)
    ensures Posted(h, PostSide(h, b, tx, side, direction, amount))
    ensures PostSide(h, b, tx, side, direction, amount).wallets.Keys == b.wallets.Keys
  {
    PostSideRunning(h, b, tx, side, direction, amount);
    PostSideBalanced(h, b, tx, side, direction, amount);
    if Truthy(side) {
      var w := Adjust(b.wallets[side.id], Signed(direction, amount));
      PostNumbered(h, b.(wallets := b.wallets[side.id := w]), tx, side.id, direction, amount, w.balance);
    } else {
      PostNumbered(h, b, tx, SYSTEM_ACCOUNT, direction, amount, 0);
    }
  }

  /** A commit keeps the whole invariant. */
  lemma {:induction false} CommitKeepsSound(h: Hasher, b: Book, tx: Tx)
    requires Sound(h, b)
    requires (Truthy(tx.from) ==> tx.from.id in b.wallets) && (Truthy(tx.to) ==> tx.to.id in b.wallets)
    ensures Sound(h, Commit(h, b, tx))
  {
    var b1 := PostSide(h, b, tx.id, tx.from, Debit, tx.amount);
    PostSideKeeps(h, b, tx.id, tx.from, Debit, tx.amount);
    PostSideKeeps(h, b1, tx.id, tx.to, Credit, tx.amount);
    CommitPaired(h, b, tx);
  }

  lemma {:induction false} CommitPaired(h: Hasher, b: Book, tx: Tx)
    requires Paired(b)
    requires (Truthy(tx.from) ==> tx.from.id in b.wallets) && (Truthy(tx.to) ==> tx.to.id in b.wallets)
    ensures Paired(Commit(h, b, tx))
  {
    var b' := Commit(h, b, tx);
    var n := |b.txs|;
    assert |b'.entries| == |b.entries| + 2;
    forall k | 0 <= k < |b'.txs| ensures PairAt(b', k) {
      if k < n {
        assert PairAt(b, k);
      }
    }
  }

  lemma {:induction false} NewWalletKeepsSound(h: Hasher, b: Book, id: string, currency: string)
    requires Sound(h, b) && id !in b.wallets && id != SYSTEM_ACCOUNT
    ensures Sound(h, b.(wallets := b.wallets[id := Wallet(currency, 0, 0)]))
  {
    var b' := b.(wallets := b.wallets[id := Wallet(currency, 0, 0)]);
    forall i | 0 <= i < |b.entries| ensures RunningAt(b'.wallets, b'.entries, i) && b.entries[i].wallet != id {
      assert RunningAt(b.wallets, b.entries, i);
    }
    SumOfNone(b.entries, id);
    forall k | 0 <= k < |b.txs| ensures PairAt(b', k) {
      assert PairAt(b, k);
    }
  }

  // ---------------------------------------------------------------- what a commit moves

  /** What wallet w gains when an amount moves from one side to the other. */
  function Flow(from: JsId, to: JsId, amount: int, w: string): int {
    (if Truthy(to) && to.id == w then amount else 0) - (if Truthy(from) && from.id == w then amount else 0)
  }

  /** Each wallet moves by what the transaction says and no other wallet moves. */
  lemma {:induction false} CommitMoves(h: Hasher, b: Book, tx: Tx, w: string)
    requires (Truthy(tx.from) ==> tx.from.id in b.wallets) && (Truthy(tx.to) ==> tx.to.id in b.wallets)
    requires w in b.wallets
    ensures var b' := Commit(h, b, tx);
            && b'.wallets.Keys == b.wallets.Keys
            && b'.wallets[w].balance == b.wallets[w].balance + Flow(tx.from, tx.to, tx.amount, w)
  {
  }

  /** All the money in the wallets. */
  ghost function Money(ws: Wallets): int
    decreases |ws.Keys|
  {
    if w :| w in ws then ws[w].balance + Money(ws - {w}) else 0
  }

  /** Money does not depend on the order in which the wallets are visited. */
  lemma {:induction false} MoneyRemove(ws: Wallets, w: string)
    requires w in ws
    ensures Money(ws) == ws[w].balance + Money(ws - {w})
    decreases |ws.Keys|
  {
    var v :| v in ws && Money(ws) == ws[v].balance + Money(ws - {v});
    if v != w {
      MoneyRemove(ws - {v}, w);
      MoneyRemove(ws - {w}, v);
      assert ws - {v} - {w} == ws - {w} - {v};
    }
  }

  lemma {:induction false} MoneyUpdate(ws: Wallets, w: string, wallet: Wallet)
    requires w in ws
    ensures Money(ws[w := wallet]) == Money(ws) - ws[w].balance + wallet.balance
  {
    MoneyRemove(ws, w);
    MoneyRemove(ws[w := wallet], w);
    assert ws[w := wallet] - {w} == ws - {w};
  }

  lemma {:induction false} PostSideMoney(h: Hasher, b: Book, tx: string, side: JsId, direction: Direction, amount: int)
    requires Truthy(side) ==> side.id in b.wallets
    ensures Money(PostSide(h, b, tx, side, direction, amount).wallets) ==
            Money(b.wallets) + if Truthy(side) then Signed(direction, amount) else 0
  {
    if Truthy(side) {
      MoneyUpdate(b.wallets, side.id, Adjust(b.wallets[side.id], Signed(direction, amount)));
    }
  }

  /** Money in wallets is conserved exactly when both sides, or neither, name a wallet. */
  lemma {:induction false} ConservedIff(h: Hasher, b: Book, tx: Tx)
    requires (Truthy(tx.from) ==> tx.from.id in b.wallets) && (Truthy(tx.to) ==> tx.to.id in b.wallets)
    requires tx.amount > 0
    ensures Money(Commit(h, b, tx).wallets) == Money(b.wallets) <==> (Truthy(tx.from) <==> Truthy(tx.to))
  {
    var b1 := PostSide(h, b, tx.id, tx.from, Debit, tx.amount);
    PostSideMoney(h, b, tx.id, tx.from, Debit, tx.amount);
    PostSideMoney(h, b1, tx.id, tx.to, Credit, tx.amount);
  }

  lemma {:induction false} OneMoreEntry(entries: seq<Entry>, e: Entry)
    ensures Total(entries + [e]) == Total(entries) + Change(e)
  {
    assert (entries + [e])[..|entries|] == entries;
  }

  lemma {:induction false} TwoMoreEntries(entries: seq<Entry>, m: nat)
    requires m + 2 <= |entries|
    ensures Total(entries[..m + 2]) == Total(entries[..m]) + Change(entries[m]) + Change(entries[m + 1])
  {
    assert entries[..m + 1] == entries[..m] + [entries[m]];
    assert entries[..m + 2] == entries[..m + 1] + [entries[m + 1]];
    hide Total, Change;
    OneMoreEntry(entries[..m], entries[m]);
    OneMoreEntry(entries[..m + 1], entries[m + 1]);
  }

  lemma {:induction false} PairCancels(b: Book, k: nat)
    requires Paired(b) && k < |b.txs|
    ensures Change(b.entries[2 * k]) + Change(b.entries[2 * k + 1]) == 0
  {
    assert PairAt(b, k);
  }

  lemma {:induction false} PairsAddUpToZero(b: Book, n: nat)
    requires Paired(b) && n <= |b.txs|
    ensures Total(b.entries[..2 * n]) == 0
  {
    if n == 0 {
      assert b.entries[..0] == [];
    } else {
      PairsAddUpToZero(b, n - 1);
      PairCancels(b, n - 1);
      hide Total, Change, PairAt;
      TwoMoreEntries(b.entries, 2 * (n - 1));
    }
  }

  /** With the external account counted in, the entries always add up to zero. */
  lemma {:induction false} EntriesAddUpToZero(b: Book)
    requires Paired(b)
    ensures Total(b.entries) == 0
  {
    PairsAddUpToZero(b, |b.txs|);
    assert b.entries[..2 * |b.txs|] == b.entries;
  }

  /** The wallets as the entries alone account for them. */
  function Accounted(names: set<string>, entries: seq<Entry>): Wallets {
    map w | w in names :: Wallet("", Sum(entries, w), 0)
  }

  /** Money looks at balances only. */
  lemma {:induction false} SameBalancesSameMoney(a: Wallets, b: Wallets)
    requires a.Keys == b.Keys && forall w :: w in a ==> a[w].balance == b[w].balance
    ensures Money(a) == Money(b)
    decreases |a.Keys|
  {
    if w :| w in a {
      MoneyRemove(a, w);
      MoneyRemove(b, w);
      SameBalancesSameMoney(a - {w}, b - {w});
    }
  }

  lemma {:induction false} MoneyOfNothing(names: set<string>)
    ensures Money(Accounted(names, [])) == 0
    decreases |names|
  {
    if w :| w in names {
      MoneyRemove(Accounted(names, []), w);
      assert Accounted(names, []) - {w} == Accounted(names - {w}, []);
      MoneyOfNothing(names - {w});
    }
  }

  /** Summing wallet by wallet, the external account included, or entry by entry gives the same. */
  lemma {:induction false} MoneyAccounted(names: set<string>, entries: seq<Entry>)
    requires SYSTEM_ACCOUNT !in names
    requires forall i :: 0 <= i < |entries| ==> entries[i].wallet in names || entries[i].wallet == SYSTEM_ACCOUNT
    ensures Money(Accounted(names, entries)) + Sum(entries, SYSTEM_ACCOUNT) == Total(entries)
  {
    if entries == [] {
      MoneyOfNothing(names);
    } else {
      var init, last := entries[..|entries| - 1], entries[|entries| - 1];
      MoneyAccounted(names, init);
      if last.wallet in names {
        var before := Accounted(names, init);
        var w := Wallet("", Sum(init, last.wallet) + Change(last), 0);
        assert Accounted(names, entries) == before[last.wallet := w];
        MoneyUpdate(before, last.wallet, w);
      } else {
        assert Accounted(names, entries) == Accounted(names, init);
      }
    }
  }

  /** All the money there is came in from outside: the wallets hold what the external account gave. */
  lemma {:induction false} MoneyCameFromOutside(h: Hasher, b: Book)
    requires Sound(h, b)
    ensures Money(b.wallets) == -Sum(b.entries, SYSTEM_ACCOUNT)
  {
    EntriesAddUpToZero(b);
    SameBalancesSameMoney(b.wallets, Accounted(b.wallets.Keys, b.entries));
    forall i | 0 <= i < |b.entries|
      ensures b.entries[i].wallet in b.wallets || b.entries[i].wallet == SYSTEM_ACCOUNT
    {
      assert RunningAt(b.wallets, b.entries, i);
    }
    MoneyAccounted(b.wallets.Keys, b.entries);
  }

  // ---------------------------------------------------------------- what reconcile looks at

  /** The entries of one wallet. */
  function Of(entries: seq<Entry>, wallet: string): seq<Entry> {
    if entries == [] then []
    else
      var last := entries[|entries| - 1];
      Of(entries[..|entries| - 1], wallet) + if last.wallet == wallet then [last] else []
  }

  lemma {:induction false} OfAddsUp(entries: seq<Entry>, wallet: string)
    ensures Total(Of(entries, wallet)) == Sum(entries, wallet) && |Of(entries, wallet)| == Count(entries, wallet)
  {
    if entries == [] {
    } else {
      var init, last := entries[..|entries| - 1], entries[|entries| - 1];
      OfAddsUp(init, wallet);
      if last.wallet == wallet {
        assert (Of(init, wallet) + [last])[..|Of(init, wallet)|] == Of(init, wallet);
      } else {
        assert Of(entries, wallet) == Of(init, wallet);
      }
    }
  }

  /** chain_valid: neighbouring entries agree on a hash.  Nothing is hashed again. */
  ghost predicate Joined(entries: seq<Entry>) {
    forall i :: 1 <= i < |entries| ==> entries[i].prevHash == entries[i - 1].hash
  }

  /** A sound book passes both checks for every wallet. */
  lemma {:induction false} SoundBookReconciles(h: Hasher, b: Book, w: string)
    requires Sound(h, b) && w in b.wallets
    ensures Sum(b.entries, w) == b.wallets[w].balance && Joined(b.entries)
  {
    forall i | 1 <= i < |b.entries| ensures b.entries[i].prevHash == b.entries[i - 1].hash {
      assert LinkedAt(h, b.entries, i);
    }
  }

  lemma {:induction false} SumOfUpdate(entries: seq<Entry>, i: nat, e: Entry, w: string)
    requires i < |entries| && e.wallet == entries[i].wallet
    ensures Sum(entries[i := e], w) ==
            Sum(entries, w) + if e.wallet == w then Change(e) - Change(entries[i]) else 0
  {
    var n := |entries| - 1;
    if i < n {
      assert entries[i := e][..n] == entries[..n][i := e];
      SumOfUpdate(entries[..n], i, e, w);
    } else {
      assert entries[i := e][..n] == entries[..n];
    }
  }

  /** The chain check overlooks a falsified amount; the balance check of that wallet never does. */
  lemma {:induction false} FalsifiedAmount(h: Hasher, b: Book, i: nat, amount: int)
    requires Sound(h, b) && i < |b.entries| && b.entries[i].wallet in b.wallets
    ensures var entries := b.entries[i := b.entries[i].(amount := amount)];
            var w := b.entries[i].wallet;
            && Joined(entries)
            && (Sum(entries, w) == b.wallets[w].balance <==> amount == b.entries[i].amount)
  {
    SoundBookReconciles(h, b, b.entries[i].wallet);
    SumOfUpdate(b.entries, i, b.entries[i].(amount := amount), b.entries[i].wallet);
  }
}
