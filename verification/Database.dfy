/**
  The three tables with their generated ids, the procedures that change them, and the
  queries that audit them.  Every change is proved against the id-free rules of Ledger.
*/
module Database {
  import opened Prelude
  import opened Ledger

  datatype Transaction = Transaction(id: int, row: Row)

  datatype Entry = Entry(tx: int, line: Line)

  datatype Tables = Tables(wallets: Balances, transactions: seq<Transaction>, entries: seq<Entry>)

  function Rows(ts: seq<Transaction>): seq<Row> {
    seq(|ts|, i requires 0 <= i < |ts| => ts[i].row)
  }

  function LinesOf(es: seq<Entry>): seq<Line> {
    seq(|es|, i requires 0 <= i < |es| => es[i].line)
  }

  /** The entries that one transaction posts. */
  function EntriesOf(t: Transaction): seq<Entry> {
    var ls := Lines(t.row);
    seq(|ls|, i requires 0 <= i < |ls| => Entry(t.id, ls[i]))
  }

  function Expand(ts: seq<Transaction>): seq<Entry> {
    if ts == [] then [] else Expand(ts[..|ts| - 1]) + EntriesOf(ts[|ts| - 1])
  }

  /** The content of the tables once ids are erased. */
  function Erase(t: Tables): Store {
    Store(t.wallets, Rows(t.transactions))
  }

  ghost predicate Increasing(ts: seq<Transaction>) {
    forall i, j :: 0 <= i < j < |ts| ==> ts[i].id < ts[j].id
  }

  /** The entries are exactly the postings of the transactions, whose ids are unique. */
  ghost predicate WellFormed(t: Tables) {
    t.entries == Expand(t.transactions) && Increasing(t.transactions)
  }

  lemma {:induction false} RowsConcat(a: seq<Transaction>, b: seq<Transaction>)
    ensures Rows(a + b) == Rows(a) + Rows(b)
  {
  }

  lemma {:induction false} RowsOfStep(rows: seq<Row>, ops: seq<Op>, i: nat)
    requires i < |ops|
    ensures rows + RowsOf(ops[..i + 1]) == (rows + RowsOf(ops[..i])) + [RowOf(ops[i])]
  {
  }

  lemma {:induction false} ExpandSnoc(ts: seq<Transaction>, t: Transaction)
    ensures Expand(ts + [t]) == Expand(ts) + EntriesOf(t)
  {
    assert (ts + [t])[..|ts|] == ts;
  }

  lemma {:induction false} ExpandLines(ts: seq<Transaction>)
    ensures LinesOf(Expand(ts)) == AllLines(Rows(ts))
  {
    if ts == [] {
    } else {
      var n := |ts| - 1;
      ExpandLines(ts[..n]);
      assert Rows(ts)[..n] == Rows(ts[..n]);
      assert LinesOf(EntriesOf(ts[n])) == Lines(ts[n].row);
      assert LinesOf(Expand(ts)) == LinesOf(Expand(ts[..n])) + LinesOf(EntriesOf(ts[n]));
    }
  }

  // ---------------------------------------------------------------- renaming of ids

  /** Equal tables but for a one-to-one renaming of transaction ids. */
  ghost predicate SameUpToIds(a: Tables, b: Tables) {
    && a.wallets == b.wallets
    && Rows(a.transactions) == Rows(b.transactions)
    && LinesOf(a.entries) == LinesOf(b.entries)
    && |a.transactions| == |b.transactions|
    && |a.entries| == |b.entries|
    && (forall i, k :: 0 <= i < |a.transactions| && 0 <= k < |a.entries| ==>
          (a.entries[k].tx == a.transactions[i].id <==> b.entries[k].tx == b.transactions[i].id))
  }

  lemma {:induction false} ExpandIdsBelow(ts: seq<Transaction>, k: nat)
    requires k < |Expand(ts)|
    ensures exists i :: 0 <= i < |ts| && ts[i].id == Expand(ts)[k].tx
  {
    var n := |ts| - 1;
    if k < |Expand(ts[..n])| {
      ExpandIdsBelow(ts[..n], k);
      var i :| 0 <= i < n && ts[..n][i].id == Expand(ts[..n])[k].tx;
      assert ts[i].id == Expand(ts)[k].tx;
    } else {
      assert ts[n].id == Expand(ts)[k].tx;
    }
  }

  lemma {:induction false} ExpandAligned(s: seq<Transaction>, t: seq<Transaction>)
    requires Increasing(s) && Increasing(t) && Rows(s) == Rows(t)
    ensures |s| == |t| && |Expand(s)| == |Expand(t)|
    ensures forall i, k :: 0 <= i < |s| && 0 <= k < |Expand(s)| ==>
              (Expand(s)[k].tx == s[i].id <==> Expand(t)[k].tx == t[i].id)
  {
    hide Lines;
    assert |Rows(s)| == |s| && |Rows(t)| == |t|;
    if s == [] {
    } else {
      var n := |s| - 1;
      assert Rows(s[..n]) == Rows(s)[..n] && Rows(t[..n]) == Rows(t)[..n];
      assert s[n].row == Rows(s)[n] == t[n].row;
      hide Rows;
      ExpandAligned(s[..n], t[..n]);
      assert |Expand(s)| == |Expand(s[..n])| + |Lines(s[n].row)| == |Expand(t)|;
      assert forall i :: 0 <= i < n ==> s[..n][i] == s[i] && t[..n][i] == t[i];
      hide Expand, EntriesOf;
      forall i, k | 0 <= i < |s| && 0 <= k < |Expand(s)|
        ensures Expand(s)[k].tx == s[i].id <==> Expand(t)[k].tx == t[i].id
      {
        AlignedAt(s, t, i, k);
      }
    }
  }

  /** Entry k belongs to transaction i on both sides or on neither. */
  lemma {:induction false} AlignedAt(s: seq<Transaction>, t: seq<Transaction>, i: nat, k: nat)
    requires |s| == |t| && i < |s| && k < |Expand(s)| && |Expand(s)| == |Expand(t)|
    requires Increasing(s) && Increasing(t)
    requires var n := |s| - 1;
             && |Expand(s[..n])| == |Expand(t[..n])|
             && (i < n && k < |Expand(s[..n])| ==>
                   (Expand(s[..n])[k].tx == s[i].id <==> Expand(t[..n])[k].tx == t[i].id))
    ensures Expand(s)[k].tx == s[i].id <==> Expand(t)[k].tx == t[i].id
  {
    hide Lines;
    var n := |s| - 1;
    if k < |Expand(s[..n])| && i == n {
      OldEntryOldId(s, k);
      OldEntryOldId(t, k);
    }
  }

  lemma {:induction false} OldEntryOldId(ts: seq<Transaction>, k: nat)
    requires ts != [] && Increasing(ts) && k < |Expand(ts[..|ts| - 1])|
    ensures Expand(ts)[k].tx < ts[|ts| - 1].id
  {
    ExpandIdsBelow(ts[..|ts| - 1], k);
    var i :| 0 <= i < |ts| - 1 && ts[..|ts| - 1][i].id == Expand(ts[..|ts| - 1])[k].tx;
    assert ts[i].id < ts[|ts| - 1].id;
  }

  /** Well-formed tables have the same erased content exactly when they differ in ids only. */
  lemma {:induction false} EraseMeansRenaming(a: Tables, b: Tables)
    requires WellFormed(a) && WellFormed(b)
    ensures Erase(a) == Erase(b) <==> SameUpToIds(a, b)
  {
    if Erase(a) == Erase(b) {
      ExpandAligned(a.transactions, b.transactions);
      ExpandLines(a.transactions);
      ExpandLines(b.transactions);
    }
  }

  // ---------------------------------------------------------------- audits

  datatype Reconciliation = Reconciliation(wallet: int, cached: int, ledger: int, entries: nat)

  function CountLines(ls: seq<Line>, w: int): nat {
    if ls == [] then 0
    else CountLines(ls[..|ls| - 1], w) + if ls[|ls| - 1].wallet == w then 1 else 0
  }

  /** SELECT balance, SUM(amount), COUNT(id) of one wallet; no row means not found. */
  function ReconcileWallet(t: Tables, w: int): Option<Reconciliation> {
    if w !in t.wallets then None
    else
      var ls := LinesOf(t.entries);
      Some(Reconciliation(w, t.wallets[w], SumLines(ls, w), CountLines(ls, w)))
  }

  function Hits(ls: seq<Line>, w: int): set<int> {
    set i | 0 <= i < |ls| && ls[i].wallet == w
  }

  lemma {:induction false} HitsLast(ls: seq<Line>, w: int)
    requires ls != []
    ensures var n := |ls| - 1;
            Hits(ls, w) == Hits(ls[..n], w) + (if ls[n].wallet == w then {n} else {}) && n !in Hits(ls[..n], w)
  {
  }

  lemma {:induction false} CountIsCardinality(ls: seq<Line>, w: int)
    ensures CountLines(ls, w) == |Hits(ls, w)|
  {
    if ls == [] {
      assert Hits(ls, w) == {};
    } else {
      HitsLast(ls, w);
      hide Hits;
      CountIsCardinality(ls[..|ls| - 1], w);
    }
  }

  /** A wallet's report gives its balance as it is and the number and sum of its own entries. */
  lemma {:induction false} WalletReport(t: Tables, w: int)
    ensures ReconcileWallet(t, w).Some? <==> w in t.wallets
    ensures w in t.wallets ==>
              var r := ReconcileWallet(t, w).value;
              && r.wallet == w && r.cached == t.wallets[w]
              && r.entries == |set i | 0 <= i < |t.entries| && t.entries[i].line.wallet == w|
              && (Books(Erase(t)) && WellFormed(t) ==> r.ledger == t.wallets[w])
  {
    CountIsCardinality(LinesOf(t.entries), w);
    assert Hits(LinesOf(t.entries), w) == set i | 0 <= i < |t.entries| && t.entries[i].line.wallet == w;
    if WellFormed(t) {
      ExpandLines(t.transactions);
    }
  }

  /** SUM(balance) = SUM(amount). */
  ghost predicate ReconcileAll(t: Tables) {
    Total(t.wallets) == TotalLines(LinesOf(t.entries))
  }

  /** SELECT ... WHERE transaction_id = id ORDER BY id. */
  function ListByTransaction(es: seq<Entry>, id: int): seq<Entry> {
    if es == [] then []
    else
      var l := es[|es| - 1];
      ListByTransaction(es[..|es| - 1], id) + if l.tx == id then [l] else []
  }

  /** If each wallet reconciles and no line is orphaned, the global check passes. */
  lemma {:induction false} LocalAuditsImplyGlobal(t: Tables)
    requires forall w :: w in t.wallets ==>
               ReconcileWallet(t, w).Some?
               && ReconcileWallet(t, w).value.cached == ReconcileWallet(t, w).value.ledger
    requires forall l :: l in LinesOf(t.entries) ==> l.wallet in t.wallets
    ensures ReconcileAll(t)
  {
    GlobalSum(t.wallets.Keys, LinesOf(t.entries));
    assert t.wallets == Posted(t.wallets.Keys, LinesOf(t.entries)) by {
      forall w | w in t.wallets ensures t.wallets[w] == SumLines(LinesOf(t.entries), w) {
        assert ReconcileWallet(t, w).value.cached == t.wallets[w];
      }
    }
  }

  /** What a wallet's balance is off by. */
  function Drift(t: Tables, w: int): int
    requires w in t.wallets
  {
    var r := ReconcileWallet(t, w).value;
    r.cached - r.ledger
  }

  function Drifts(t: Tables): Balances {
    map w | w in t.wallets :: Drift(t, w)
  }

  /** Totals of maps with the same wallets subtract wallet by wallet. */
  lemma {:induction false} TotalDifference(a: Balances, b: Balances)
    requires a.Keys == b.Keys
    ensures Total(a) - Total(b) == Total(map w | w in a :: a[w] - b[w])
    decreases |a|
  {
    var d := map w | w in a :: a[w] - b[w];
    if k :| k in a {
      MapShrinks(a, k);
      TotalRemove(a, k);
      TotalRemove(b, k);
      TotalRemove(d, k);
      TotalDifference(a - {k}, b - {k});
      assert d - {k} == map w | w in a - {k} :: (a - {k})[w] - (b - {k})[w];
    }
  }

  /** The global audit passes exactly when the wallets' drifts cancel. */
  lemma {:induction false} GlobalAuditIff(t: Tables)
    requires forall l :: l in LinesOf(t.entries) ==> l.wallet in t.wallets
    ensures ReconcileAll(t) <==> Total(Drifts(t)) == 0
  {
    var posted := Posted(t.wallets.Keys, LinesOf(t.entries));
    GlobalSum(t.wallets.Keys, LinesOf(t.entries));
    TotalDifference(t.wallets, posted);
    assert Drifts(t) == map w | w in t.wallets :: t.wallets[w] - posted[w];
  }

  /** A deposit whose money was moved to another wallet by hand passes the global audit. */
  lemma {:induction false} GlobalAuditMissesDrift()
    ensures exists t: Tables ::
              WellFormed(t) && (forall l :: l in LinesOf(t.entries) ==> l.wallet in t.wallets)
              && ReconcileAll(t) && 1 in t.wallets && Drift(t, 1) != 0
  {
    var deposit := Transaction(1, Row(Deposit, 1, None, 5));
    var t := Tables(map[1 := 1, 2 := 4], [deposit], [Entry(1, Line(1, 5))]);
    assert t.transactions[..0] == [];
    assert EntriesOf(deposit) == [Entry(1, Line(1, 5))];
    assert WellFormed(t);
    var ls := LinesOf(t.entries);
    assert ls == [Line(1, 5)] && ls[..0] == [];
    assert SumLines(ls, 1) == 5 && SumLines(ls, 2) == 0;
    assert Drifts(t) == map[1 := -4, 2 := 4];
    TotalRemove(Drifts(t), 1);
    assert Drifts(t) - {1} == map[2 := 4];
    TotalRemove(Drifts(t) - {1}, 2);
    assert (Drifts(t) - {1}) - {2} == map[];
    ZeroTotal(map[]);
    GlobalAuditIff(t);
  }

  /** In tables that keep the books, both audits always pass. */
  lemma {:induction false} AuditsPass(t: Tables)
    requires WellFormed(t) && Books(Erase(t))
    ensures forall w :: w in t.wallets ==>
              ReconcileWallet(t, w).Some?
              && ReconcileWallet(t, w).value.cached == ReconcileWallet(t, w).value.ledger
    ensures ReconcileAll(t)
  {
    ExpandLines(t.transactions);
    LocalAuditsImplyGlobal(t);
  }

  lemma {:induction false} ListConcat(a: seq<Entry>, b: seq<Entry>, id: int)
    ensures ListByTransaction(a + b, id) == ListByTransaction(a, id) + ListByTransaction(b, id)
  {
    if b == [] {
      assert a + b == a;
    } else {
      var n := |b| - 1;
      assert (a + b)[..|a + b| - 1] == a + b[..n];
      assert (a + b)[|a + b| - 1] == b[n];
      ListConcat(a, b[..n], id);
    }
  }

  lemma {:induction false} ListOwn(es: seq<Entry>, id: int)
    requires forall e :: e in es ==> e.tx == id
    ensures ListByTransaction(es, id) == es
  {
    if es == [] {
    } else {
      assert es[|es| - 1] in es;
      ListOwn(es[..|es| - 1], id);
    }
  }

  lemma {:induction false} ListForeign(es: seq<Entry>, id: int)
    requires forall e :: e in es ==> e.tx != id
    ensures ListByTransaction(es, id) == []
  {
    if es == [] {
    } else {
      assert es[|es| - 1] in es;
      ListForeign(es[..|es| - 1], id);
    }
  }

  lemma {:induction false} ListLast(ts: seq<Transaction>, id: int)
    requires ts != []
    ensures ListByTransaction(Expand(ts), id) ==
            ListByTransaction(Expand(ts[..|ts| - 1]), id)
            + if ts[|ts| - 1].id == id then EntriesOf(ts[|ts| - 1]) else []
  {
    var own := EntriesOf(ts[|ts| - 1]);
    ListConcat(Expand(ts[..|ts| - 1]), own, id);
    if ts[|ts| - 1].id == id {
      ListOwn(own, id);
    } else {
      ListForeign(own, id);
    }
  }

  /** Looking up a transaction's entries returns its own posting, nothing else. */
  lemma {:induction false} EntriesOfTransaction(ts: seq<Transaction>, i: nat)
    requires Increasing(ts) && i < |ts|
    ensures ListByTransaction(Expand(ts), ts[i].id) == EntriesOf(ts[i])
  {
    hide ListByTransaction, EntriesOf;
    var front, last := ts[..|ts| - 1], ts[|ts| - 1];
    ListLast(ts, ts[i].id);
    if i < |front| {
      assert front[i] == ts[i] && ts[i].id < last.id;
      EntriesOfTransaction(front, i);
      calc {
        ListByTransaction(Expand(ts), ts[i].id);
        ListByTransaction(Expand(front), front[i].id) + [];
        EntriesOf(ts[i]);
      }
    } else {
      NewIdUnlisted(ts);
    }
  }

  lemma {:induction false} NewIdUnlisted(ts: seq<Transaction>)
    requires ts != [] && Increasing(ts)
    ensures ListByTransaction(Expand(ts[..|ts| - 1]), ts[|ts| - 1].id) == []
  {
    var n := |ts| - 1;
    forall e | e in Expand(ts[..n]) ensures e.tx != ts[n].id {
      var k :| 0 <= k < |Expand(ts[..n])| && Expand(ts[..n])[k] == e;
      OldEntryOldId(ts, k);
    }
    ListForeign(Expand(ts[..n]), ts[n].id);
  }

  /** The entries of one transactions row: two for a transfer, one otherwise. */
  ghost predicate PostedFor(tx: Transaction, posted: seq<Entry>) {
    match tx.row.kind
    case Transfer =>
      tx.row.to.Some? ==>
        posted == [Entry(tx.id, Line(tx.row.wallet, -tx.row.amount)),
                   Entry(tx.id, Line(tx.row.to.value, tx.row.amount))]
    case Deposit => posted == [Entry(tx.id, Line(tx.row.wallet, tx.row.amount))]
    case Withdrawal => posted == [Entry(tx.id, Line(tx.row.wallet, -tx.row.amount))]
  }

  lemma {:induction false} EntriesArePosted(tx: Transaction)
    ensures PostedFor(tx, EntriesOf(tx)) && LinesOf(EntriesOf(tx)) == Lines(tx.row)
  {
  }

  lemma {:induction false} TotalOfRow(row: Row)
    ensures TotalLines(Lines(row)) ==
            match row.kind case Transfer => 0 case Deposit => row.amount case Withdrawal => -row.amount
  {
    var ls := Lines(row);
    if |ls| == 2 {
      assert ls[..1] == [ls[0]] && ls[..1][..0] == [];
      assert TotalLines(ls[..1]) == ls[0].amount;
    } else if |ls| == 1 {
      assert ls[..0] == [];
    }
  }

  /**
    Transfers post two entries that cancel; deposits and withdrawals post a single entry, so
    a transaction sums to zero exactly if it is a transfer or moves nothing.
  */
  lemma {:induction false} TransactionBalance(t: Tables, i: nat)
    requires WellFormed(t) && i < |t.transactions|
    ensures var tx := t.transactions[i];
            var posted := ListByTransaction(t.entries, tx.id);
            && PostedFor(tx, posted)
            && (TotalLines(LinesOf(posted)) == 0 <==> tx.row.kind == Transfer || tx.row.amount == 0)
  {
    EntriesOfTransaction(t.transactions, i);
    EntriesArePosted(t.transactions[i]);
    TotalOfRow(t.transactions[i].row);
    hide Lines, EntriesOf, LinesOf, TotalLines, PostedFor, Increasing, Expand;
  }

  // ---------------------------------------------------------------- the procedures

  /** The array arguments of a batch, item by item. */
  function Moves(from: seq<int>, to: seq<int>, amounts: seq<int>): seq<Op>
    requires |from| == |to| == |amounts|
  {
    seq(|from|, i requires 0 <= i < |from| => Move(from[i], to[i], amounts[i]))
  }

  /** Two's complement negation of an int64. */
  function Negate64(a: int): int {
    if a == -MAX_BIGINT - 1 then a else -a
  }

  /**
    From one state of the tables to the next: one transfer of each amount, in order, under
    consecutive ids, each with its debit entry and then its credit entry, and nothing else.
  */
  ghost predicate Recorded(
    before: Tables, after: Tables, id: int, from: seq<int>, to: seq<int>, amounts: seq<int>)
    requires |from| == |to| == |amounts|
  {
    var n, m := |before.transactions|, |before.entries|;
    && before.transactions <= after.transactions && |after.transactions| == n + |from|
    && before.entries <= after.entries && |after.entries| == m + 2 * |from|
    && forall i :: 0 <= i < |from| ==>
         && after.transactions[n + i] == Transaction(id + i, Row(Transfer, from[i], Some(to[i]), amounts[i]))
         && after.entries[m + 2 * i] == Entry(id + i, Line(from[i], -amounts[i]))
         && after.entries[m + 2 * i + 1] == Entry(id + i, Line(to[i], amounts[i]))
  }

  lemma {:induction false} RecordedStep(
    before: Tables, middle: Tables, after: Tables, id: int, from: seq<int>, to: seq<int>, amounts: seq<int>, k: nat)
    requires |from| == |to| == |amounts| && k < |from|
    requires Recorded(before, middle, id, from[..k], to[..k], amounts[..k])
    requires after.transactions ==
             middle.transactions + [Transaction(id + k, Row(Transfer, from[k], Some(to[k]), amounts[k]))]
    requires after.entries ==
             middle.entries + [Entry(id + k, Line(from[k], -amounts[k])), Entry(id + k, Line(to[k], amounts[k]))]
    ensures Recorded(before, after, id, from[..k + 1], to[..k + 1], amounts[..k + 1])
  {
  }

  /** The loop is through with these items. */
  ghost predicate Through(
    before: Tables, after: Tables, id: int, from: seq<int>, to: seq<int>, amounts: seq<int>)
    requires |from| == |to| == |amounts|
  {
    && RunOps(before.wallets, Moves(from, to, amounts)) == Success(after.wallets)
    && Rows(after.transactions) == Rows(before.transactions) + RowsOf(Moves(from, to, amounts))
    && Recorded(before, after, id, from, to, amounts)
  }

  lemma {:induction false} ThroughNone(t: Tables, id: int, from: seq<int>, to: seq<int>, amounts: seq<int>)
    requires |from| == |to| == |amounts|
    ensures Through(t, t, id, from[..0], to[..0], amounts[..0])
  {
    assert Moves(from[..0], to[..0], amounts[..0]) == [];
    assert Rows(t.transactions) + RowsOf([]) == Rows(t.transactions);
  }

  lemma {:induction false} ThroughStep(
    before: Tables, middle: Tables, after: Tables, id: int, from: seq<int>, to: seq<int>, amounts: seq<int>, k: nat)
    requires |from| == |to| == |amounts| && k < |from|
    requires Through(before, middle, id, from[..k], to[..k], amounts[..k])
    requires ApplyOp(middle.wallets, Move(from[k], to[k], amounts[k])) == Success(after.wallets)
    requires after.transactions ==
             middle.transactions + [Transaction(id + k, Row(Transfer, from[k], Some(to[k]), amounts[k]))]
    requires after.entries ==
             middle.entries + [Entry(id + k, Line(from[k], -amounts[k])), Entry(id + k, Line(to[k], amounts[k]))]
    ensures Through(before, after, id, from[..k + 1], to[..k + 1], amounts[..k + 1])
  {
    var ops, tx := Moves(from, to, amounts), Transaction(id + k, Row(Transfer, from[k], Some(to[k]), amounts[k]));
    assert Moves(from[..k], to[..k], amounts[..k]) == ops[..k];
    assert Moves(from[..k + 1], to[..k + 1], amounts[..k + 1]) == ops[..k + 1];
    assert tx.row == RowOf(ops[k]);
    RecordedStep(before, middle, after, id, from, to, amounts, k);
    hide Recorded, Moves, RowOf;
    RunOpsStep(before.wallets, ops, k);
    RowsOfStep(Rows(before.transactions), ops, k);
    RowsConcat(middle.transactions, [tx]);
    assert Rows([tx]) == [tx.row];
    hide Rows, RowsOf, ApplyOp, RunOps;
  }

  lemma {:induction false} ThroughFails(
    before: Tables, middle: Tables, id: int, from: seq<int>, to: seq<int>, amounts: seq<int>, k: nat, e: SqlError)
    requires |from| == |to| == |amounts| && k < |from|
    requires Through(before, middle, id, from[..k], to[..k], amounts[..k])
    requires ApplyOp(middle.wallets, Move(from[k], to[k], amounts[k])) == Failure(e)
    ensures RunOps(before.wallets, Moves(from, to, amounts)) == Failure(e)
  {
    var ops := Moves(from, to, amounts);
    assert Moves(from[..k], to[..k], amounts[..k]) == ops[..k];
    hide Recorded, Moves;
    RunOpsStep(before.wallets, ops, k);
  }

  /** process_transfer looks for the lower id first, the batch for the sender. */
  function Blamed(b: Balances, from: int, to: int, e: SqlError): SqlError {
    var first, second := if from < to then from else to, if from < to then to else from;
    if e.MissingWallet? then MissingWallet(if first !in b then first else second) else e
  }

  class Db {
    var wallets: map<int, int>
    var transactions: seq<Transaction>
    var entries: seq<Entry>
    var txSeq: int       // transactions_id_seq; an abort does not rewind it
    var walletSeq: int   // wallets_id_seq

    function Content(): Tables
      reads this
    {
      Tables(wallets, transactions, entries)
    }

    function View(): Store
      reads this
    {
      Erase(Content())
    }

    /** The tables agree with each other and the next id is unused. */
    ghost predicate Sound()
      reads this
    {
      && WellFormed(Content())
      && (forall i :: 0 <= i < |transactions| ==> transactions[i].id < txSeq)
    }

    ghost predicate Valid()
      reads this
    {
      && Sound()
      && Books(View())
      && (forall w :: w in wallets ==> w < walletSeq)
    }

    constructor ()
      ensures Valid() && View() == Store(map[], []) && txSeq == walletSeq == 1
    {
      wallets, transactions, entries := map[], [], [];
      txSeq, walletSeq := 1, 1;
    }

    /** INSERT INTO transactions ... RETURNING id, then INSERT INTO ledger_entries. */
    method Post(row: Row, lines: seq<Line>) returns (id: int)
      requires lines == Lines(row) && Sound()
      modifies this`transactions, this`entries, this`txSeq
      ensures Sound()
      ensures id == old(txSeq) && txSeq == old(txSeq) + 1
      ensures transactions == old(transactions) + [Transaction(id, row)]
      ensures entries == old(entries) + seq(|lines|, i requires 0 <= i < |lines| => Entry(id, lines[i]))
      ensures View() == Store(wallets, old(View()).rows + [row])
    {
      hide Lines, Expand;
      id := txSeq;
      txSeq := txSeq + 1;
      ExpandSnoc(transactions, Transaction(id, row));
      RowsConcat(transactions, [Transaction(id, row)]);
      assert Rows([Transaction(id, row)]) == [row];
      transactions := transactions + [Transaction(id, row)];
      entries := entries + seq(|lines|, i requires 0 <= i < |lines| => Entry(id, lines[i]));
    }

    /** One turn of the loop.  After an exception the balances may be half updated. */
    method ProcessItem(f: int, t: int, a: int) returns (err: Option<SqlError>)
      requires Sound()
      modifies this`wallets, this`transactions, this`entries, this`txSeq
      ensures match ApplyOp(old(wallets), Move(f, t, a))
              case Failure(e) =>
                err == Some(e) && txSeq == old(txSeq)
              case Success(b) =>
                && err == None && wallets == b && Sound()
                && txSeq == old(txSeq) + 1
                && Rows(transactions) == old(Rows(transactions)) + [RowOf(Move(f, t, a))]
      ensures err == None ==>
                && f in old(wallets) && t in old(wallets)
                && wallets == old(wallets)[f := old(wallets)[f] - a][t := old(wallets)[t] + a]
                && transactions == old(transactions) + [Transaction(old(txSeq), Row(Transfer, f, Some(t), a))]
                && entries == old(entries) + [Entry(old(txSeq), Line(f, -a)), Entry(old(txSeq), Line(t, a))]
    {
      if f == t {
        return Some(SelfTransfer);
      }
      if a <= 0 {
        return Some(BadAmount);
      }
      if f !in wallets {
        return Some(MissingWallet(f));
      }
      if t !in wallets {
        return Some(MissingWallet(t));
      }
      if wallets[f] < a {
        return Some(Insufficient(wallets[f], a));
      }
      wallets := wallets[f := wallets[f] - a];
      if wallets[t] + a > MAX_BIGINT {
        return Some(OutOfRange);
      }
      wallets := wallets[t := wallets[t] + a];
      hide Expand, Increasing;
      var _ := Post(Row(Transfer, f, Some(t), a), [Line(f, -a), Line(t, a)]);
      return None;
    }

    /** Item k of a loop that is through with those before it. */
    method OneMoreItem(
      ghost before: Tables, ghost id: int, from: seq<int>, to: seq<int>, amounts: seq<int>, k: nat)
      returns (err: Option<SqlError>)
      requires Sound() && |from| == |to| == |amounts| && k < |from| && txSeq == id + k
      requires Through(before, Content(), id, from[..k], to[..k], amounts[..k])
      modifies this`wallets, this`transactions, this`entries, this`txSeq
      ensures match err
              case Some(e) => RunOps(before.wallets, Moves(from, to, amounts)) == Failure(e) && txSeq == old(txSeq)
              case None =>
                && Sound() && txSeq == id + k + 1
                && Through(before, Content(), id, from[..k + 1], to[..k + 1], amounts[..k + 1])
    {
      hide Through, WellFormed, RunOps, ApplyOp, Rows, RowOf, Moves;
      err := ProcessItem(from[k], to[k], amounts[k]);
      if err.Some? {
        ThroughFails(before, old(Content()), id, from, to, amounts, k, err.value);
      } else {
        ThroughStep(before, old(Content()), Content(), id, from, to, amounts, k);
      }
    }

    /** The body of process_transfer_batch, up to its end or its first exception. */
    method ProcessItems(from: seq<int>, to: seq<int>, amounts: seq<int>)
      returns (err: Option<SqlError>)
      requires Sound() && |from| == |to| == |amounts|
      modifies this`wallets, this`transactions, this`entries, this`txSeq
      ensures old(txSeq) <= txSeq
      ensures match err
              case Some(e) => RunOps(old(wallets), Moves(from, to, amounts)) == Failure(e)
              case None => Sound() && Through(old(Content()), Content(), old(txSeq), from, to, amounts)
    {
      ThroughNone(Content(), txSeq, from, to, amounts);
      for i := 0 to |from|
        invariant Sound()
        invariant txSeq == old(txSeq) + i
        invariant Through(old(Content()), Content(), old(txSeq), from[..i], to[..i], amounts[..i])
      {
        hide Through, WellFormed, RunOps, Moves;
        err := OneMoreItem(old(Content()), old(txSeq), from, to, amounts, i);
        if err.Some? {
          return;
        }
      }
      assert from[..|from|] == from && to[..|from|] == to && amounts[..|from|] == amounts;
      return None;
    }

    /** process_transfer_batch as one statement: an exception restores the tables. */
    method ProcessTransferBatch(from: seq<int>, to: seq<int>, amounts: seq<int>)
      returns (err: Option<SqlError>)
      requires Valid() && |from| == |to| == |amounts|
      modifies this`wallets, this`transactions, this`entries, this`txSeq
      ensures Valid()
      ensures var o := Exec(old(View()), Batch(Moves(from, to, amounts)));
              View() == o.store && err == o.error
      ensures err == None ==> Recorded(old(Content()), Content(), old(txSeq), from, to, amounts)
      ensures err != None ==> Content() == old(Content())
      ensures old(txSeq) <= txSeq
    {
      ghost var ops := Moves(from, to, amounts);
      var savedWallets, savedTransactions, savedEntries := wallets, transactions, entries;
      err := ProcessItems(from, to, amounts);
      if err.Some? {
        wallets, transactions, entries := savedWallets, savedTransactions, savedEntries;
      } else {
        RunOpsTouches(savedWallets, ops);
      }
      ExecKeepsBooks(old(View()), Batch(ops));
    }

    /** Create: a wallet, and for a positive opening balance its first deposit. */
    method Create(balance: int) returns (r: Result<int, SqlError>)
      requires Valid()
      modifies this
      ensures Valid()
      ensures var o := Exec(old(View()), Ledger.Create(old(walletSeq), balance));
              View() == o.store && (match r
                                    case Success(id) => o.error == None && id == old(walletSeq)
                                    case Failure(e) => o.error == Some(e) && Content() == old(Content()))
      ensures match r
              case Success(id) =>
                var tx := if balance == 0 then [] else [Transaction(old(txSeq), Row(Kind.Deposit, id, None, balance))];
                var entry := if balance == 0 then [] else [Entry(old(txSeq), Line(id, balance))];
                && id !in old(wallets) && wallets == old(wallets)[id := balance]
                && transactions == old(transactions) + tx && entries == old(entries) + entry
              case Failure(e) =>
                if balance < 0 then e == BadAmount else e == OutOfRange && balance > 0x7FFF_FFFF_FFFF_FFFF
      ensures old(txSeq) <= txSeq && old(walletSeq) <= walletSeq
    {
      hide Books, Expand, Increasing, RunOps;
      if balance < 0 {
        return Failure(BadAmount);
      }
      var id := walletSeq;
      walletSeq := walletSeq + 1;
      if balance > MAX_BIGINT {
        return Failure(OutOfRange);
      }
      CreateKeepsBooks(View(), id, balance);
      wallets := wallets[id := balance];
      if balance != 0 {
        var _ := Post(Row(Kind.Deposit, id, None, balance), [Line(id, balance)]);
      }
      r := Success(id);
    }

    /** Deposit at the repository: the service in front of it refuses amounts <= 0. */
    method Deposit(w: int, amount: int) returns (r: Result<Transaction, SqlError>)
      requires Valid()
      modifies this`wallets, this`transactions, this`entries, this`txSeq
      ensures Valid()
      ensures var o := Exec(old(View()), Wallet(Credit(w, amount)));
              View() == o.store && (match r
                                    case Success(t) =>
                                      o.error == None && transactions == old(transactions) + [t]
                                    case Failure(e) => o.error == Some(e) && Content() == old(Content()))
      ensures match r
              case Success(t) =>
                && t == Transaction(old(txSeq), Row(Kind.Deposit, w, None, amount))
                && w in old(wallets) && wallets == old(wallets)[w := old(wallets)[w] + amount]
                && entries == old(entries) + [Entry(old(txSeq), Line(w, amount))]
              case Failure(e) =>
                if w !in old(wallets) then e == MissingWallet(w)
                else if 0 <= old(wallets)[w] + amount + 0x8000_0000_0000_0000 < 0x1_0000_0000_0000_0000
                then e == ConstraintViolation && old(wallets)[w] + amount < 0
                else e == OutOfRange
      ensures old(txSeq) <= txSeq
    {
      hide Books, Expand, Increasing, RunOps;
      ExecKeepsBooks(View(), Wallet(Credit(w, amount)));
      SingleOp(wallets, Credit(w, amount));
      if w !in wallets {
        return Failure(MissingWallet(w));
      }
      var v := wallets[w] + amount;
      if v > MAX_BIGINT || v < -MAX_BIGINT - 1 {
        return Failure(OutOfRange);
      }
      if v < 0 {
        return Failure(ConstraintViolation);
      }
      wallets := wallets[w := v];
      var id := Post(Row(Kind.Deposit, w, None, amount), [Line(w, amount)]);
      return Success(Transaction(id, Row(Kind.Deposit, w, None, amount)));
    }

    /** Withdraw at the repository, with Go's int64 negation of the posted amount. */
    method Withdraw(w: int, amount: int) returns (r: Result<Transaction, SqlError>)
      requires Valid()
      modifies this`wallets, this`transactions, this`entries, this`txSeq
      ensures Valid()
      ensures var o := Exec(old(View()), Wallet(Debit(w, amount)));
              View() == o.store && (match r
                                    case Success(t) =>
                                      o.error == None && transactions == old(transactions) + [t]
                                    case Failure(e) => o.error == Some(e) && Content() == old(Content()))
      ensures match r
              case Success(t) =>
                && t == Transaction(old(txSeq), Row(Withdrawal, w, None, amount))
                && w in old(wallets) && wallets == old(wallets)[w := old(wallets)[w] - amount]
                && entries == old(entries) + [Entry(old(txSeq), Line(w, -amount))]
              case Failure(e) =>
                if w !in old(wallets) then e == MissingWallet(w)
                else if old(wallets)[w] < amount then e == Insufficient(old(wallets)[w], amount)
                else e == OutOfRange && old(wallets)[w] - amount > 0x7FFF_FFFF_FFFF_FFFF
      ensures old(txSeq) <= txSeq
    {
      hide Books, Expand, Increasing, RunOps;
      NonNegative(View(), w);
      ExecKeepsBooks(View(), Wallet(Debit(w, amount)));
      SingleOp(wallets, Debit(w, amount));
      if w !in wallets {
        return Failure(MissingWallet(w));
      }
      if wallets[w] < amount {
        return Failure(Insufficient(wallets[w], amount));
      }
      var v := wallets[w] - amount;
      if v > MAX_BIGINT {
        return Failure(OutOfRange);
      }
      wallets := wallets[w := v];
      // -2^63 would negate to itself, but then v was out of range.
      var id := Post(Row(Withdrawal, w, None, amount), [Line(w, Negate64(amount))]);
      return Success(Transaction(id, Row(Withdrawal, w, None, amount)));
    }

    /** A transaction of another connection, by its specification. */
    method RunForeign(p: Program)
      requires Valid()
      modifies this
      ensures Valid() && View() == Exec(old(View()), p).store
    {
      hide Books, Expand, Increasing;
      ExecKeepsBooks(View(), p);
      if p.Create? {
        if p.balance >= 0 && p.id !in wallets && p.balance <= MAX_BIGINT {
          wallets := wallets[p.id := p.balance];
          walletSeq := if walletSeq <= p.id then p.id + 1 else walletSeq;
          if p.balance != 0 {
            var _ := Post(Row(Kind.Deposit, p.id, None, p.balance), [Line(p.id, p.balance)]);
          }
        }
      } else {
        var r := RunOps(wallets, Ops(p));
        if r.Success? {
          RunOpsTouches(wallets, Ops(p));
          wallets := r.value;
          PostAll(Ops(p));
        }
      }
    }

    /** Post one transactions row per operation. */
    method PostAll(ops: seq<Op>)
      requires Sound()
      modifies this`transactions, this`entries, this`txSeq
      ensures Sound() && View() == Store(wallets, old(View()).rows + RowsOf(ops))
    {
      hide Expand, Increasing, Lines;
      ghost var rows := View().rows;
      for i := 0 to |ops|
        invariant Sound() && View() == Store(wallets, rows + RowsOf(ops[..i]))
      {
        var _ := Post(RowOf(ops[i]), Lines(RowOf(ops[i])));
        RowsOfStep(rows, ops, i);
      }
      assert ops[..|ops|] == ops;
    }

    /** process_transfer: the one-transfer procedure, which checks existence in lock order. */
    method ProcessTransfer(from: int, to: int, amount: int) returns (r: Result<int, SqlError>)
      requires Valid()
      modifies this`wallets, this`transactions, this`entries, this`txSeq
      ensures Valid()
      ensures var o := Exec(old(View()), Batch([Move(from, to, amount)]));
              View() == o.store && (r.Success? <==> o.error == None)
      ensures r.Failure? ==> Content() == old(Content())
      ensures r.Failure? ==>
                var e := Exec(old(View()), Batch([Move(from, to, amount)])).error;
                e.Some? && r.error == Blamed(old(wallets), from, to, e.value)
      ensures r.Success? ==>
                && r.value == old(txSeq) && from in old(wallets) && to in old(wallets)
                && wallets == old(wallets)[from := old(wallets)[from] - amount][to := old(wallets)[to] + amount]
                && Recorded(old(Content()), Content(), old(txSeq), [from], [to], [amount])
      ensures r.Failure? && r.error.MissingWallet? ==>
                && r.error.id in {from, to} - old(wallets).Keys
                && forall id :: id in {from, to} - old(wallets).Keys ==> r.error.id <= id
    {
      hide Books, Expand, Increasing, RunOps;
      var op := Move(from, to, amount);
      ExecKeepsBooks(View(), Batch([op]));
      SingleOp(wallets, op);
      if from == to {
        return Failure(SelfTransfer);
      }
      if amount <= 0 {
        return Failure(BadAmount);
      }
      var first, second := if from < to then from else to, if from < to then to else from;
      if first !in wallets {
        return Failure(MissingWallet(first));
      }
      if second !in wallets {
        return Failure(MissingWallet(second));
      }
      var balance := wallets[from];
      if balance < amount {
        return Failure(Insufficient(balance, amount));
      }
      var saved := wallets;
      wallets := wallets[from := wallets[from] - amount];
      if wallets[to] + amount > MAX_BIGINT {
        wallets := saved;
        return Failure(OutOfRange);
      }
      wallets := wallets[to := wallets[to] + amount];
      var id := Post(Row(Transfer, from, Some(to), amount), [Line(from, -amount), Line(to, amount)]);
      return Success(id);
    }
  }

  lemma {:induction false} SingleOp(b: Balances, op: Op)
    ensures RunOps(b, [op]) == ApplyOp(b, op)
    ensures RowsOf([op]) == [RowOf(op)]
  {
    assert [op][1..] == [];
  }
}
