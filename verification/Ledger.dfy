/**
  The money-movement rules of the SQL layer, without generated ids.

  A `Store` is what the wallets, transactions and ledger_entries tables say once the
  serial transaction ids are erased: balances by wallet id and the posted transaction rows
  in commit order.  The entry lines are a function of the rows (`AllLines`).  The class in
  Database.dfy keeps the three tables with their ids and is proved against this module.
*/
module Ledger {
  import opened Prelude

  /** Largest value of a BIGINT column. */
  const MAX_BIGINT := 0x7FFF_FFFF_FFFF_FFFF

  type Balances = map<int, int>

  datatype SqlError =
    | SelfTransfer                          // 22023
    | BadAmount                             // 22023
    | MissingWallet(id: int)                // P0002
    | Insufficient(balance: int, amount: int) // P0001
    | OutOfRange                            // 22003, raised by BIGINT arithmetic
    | ConstraintViolation                   // 23514 (balance >= 0) or 23505 (duplicate id)

  /** One elementary change of balances, made under row locks. */
  datatype Op =
    | Move(from: int, to: int, amount: int)
    | Credit(wallet: int, amount: int)
    | Debit(wallet: int, amount: int)

  datatype Kind = Transfer | Deposit | Withdrawal

  /** A transactions row without its id. */
  datatype Row = Row(kind: Kind, wallet: int, to: Option<int>, amount: int)

  /** A ledger_entries row without its ids. */
  datatype Line = Line(wallet: int, amount: int)

  datatype Store = Store(wallets: Balances, rows: seq<Row>)

  // ---------------------------------------------------------------- one operation

  /** UPDATE wallets SET balance = v: the column type and the CHECK constraint. */
  function SetBalance(b: Balances, w: int, v: int): Result<Balances, SqlError> {
    if v > MAX_BIGINT || v < -MAX_BIGINT - 1 then Failure(OutOfRange)
    else if v < 0 then Failure(ConstraintViolation)
    else Success(b[w := v])
  }

  function ApplyOp(b: Balances, op: Op): Result<Balances, SqlError> {
    match op
    case Move(f, t, a) =>
      if f == t then Failure(SelfTransfer)
      else if a <= 0 then Failure(BadAmount)
      else if f !in b then Failure(MissingWallet(f))
      else if t !in b then Failure(MissingWallet(t))
      else if b[f] < a then Failure(Insufficient(b[f], a))
      else if b[t] + a > MAX_BIGINT then Failure(OutOfRange)
      else Success(b[f := b[f] - a][t := b[t] + a])
    case Credit(w, a) =>
      if w !in b then Failure(MissingWallet(w)) else SetBalance(b, w, b[w] + a)
    case Debit(w, a) =>
      if w !in b then Failure(MissingWallet(w))
      else if b[w] < a then Failure(Insufficient(b[w], a))
      else SetBalance(b, w, b[w] - a)
  }

  function RowOf(op: Op): Row {
    match op
    case Move(f, t, a) => Row(Transfer, f, Some(t), a)
    case Credit(w, a) => Row(Deposit, w, None, a)
    case Debit(w, a) => Row(Withdrawal, w, None, a)
  }

  function RowsOf(ops: seq<Op>): seq<Row> {
    seq(|ops|, i requires 0 <= i < |ops| => RowOf(ops[i]))
  }

  /** The ledger entries inserted together with a transactions row. */
  function Lines(row: Row): seq<Line> {
    match row.kind
    case Transfer =>
      if row.to.Some? then [Line(row.wallet, -row.amount), Line(row.to.value, row.amount)] else []
    case Deposit => [Line(row.wallet, row.amount)]
    case Withdrawal => [Line(row.wallet, -row.amount)]
  }

  function AllLines(rows: seq<Row>): seq<Line> {
    if rows == [] then [] else AllLines(rows[..|rows| - 1]) + Lines(rows[|rows| - 1])
  }

  /** The wallets an operation names. */
  function Names(op: Op): set<int> {
    match op
    case Move(f, t, _) => {f, t}
    case Credit(w, _) => {w}
    case Debit(w, _) => {w}
  }

  function AllNames(ops: seq<Op>): set<int> {
    set i, w | 0 <= i < |ops| && w in Names(ops[i]) :: w
  }

  lemma {:induction false} AllNamesHead(ops: seq<Op>)
    requires ops != []
    ensures AllNames(ops) == Names(ops[0]) + AllNames(ops[1..])
  {
    forall w | w in AllNames(ops[1..]) ensures w in AllNames(ops) {
      var i :| 0 <= i < |ops[1..]| && w in Names(ops[1..][i]);
      assert w in Names(ops[i + 1]);
    }
    forall w | w in AllNames(ops) ensures w in Names(ops[0]) + AllNames(ops[1..]) {
      var i :| 0 <= i < |ops| && w in Names(ops[i]);
      if i > 0 {
        assert w in Names(ops[1..][i - 1]);
      }
    }
  }

  // ---------------------------------------------------------------- many operations

  /** Run the operations in order; the first failure stops the run. */
  function RunOps(b: Balances, ops: seq<Op>): Result<Balances, SqlError> {
    if ops == [] then Success(b)
    else
      match ApplyOp(b, ops[0])
      case Failure(e) => Failure(e)
      case Success(b') => RunOps(b', ops[1..])
  }

  /** A database transaction. */
  datatype Program =
    | Batch(ops: seq<Op>)             // process_transfer_batch
    | Wallet(op: Op)                  // Deposit or Withdraw
    | Create(id: int, balance: int)   // Create, with the id its sequence handed out

  datatype Outcome = Outcome(store: Store, error: Option<SqlError>)

  function Ops(p: Program): seq<Op> {
    match p
    case Batch(ops) => ops
    case Wallet(op) => [op]
    case Create(_, _) => []
  }

  /** All or nothing: a failing program leaves the store as it was. */
  function Exec(st: Store, p: Program): Outcome {
    if p.Create? then
      if p.balance < 0 then Outcome(st, Some(BadAmount))
      else if p.id in st.wallets then Outcome(st, Some(ConstraintViolation))
      else if p.balance > MAX_BIGINT then Outcome(st, Some(OutOfRange))
      else
        Outcome(
          Store(st.wallets[p.id := p.balance],
                if p.balance == 0 then st.rows else st.rows + [Row(Deposit, p.id, None, p.balance)]),
          None)
    else
      match RunOps(st.wallets, Ops(p))
      case Failure(e) => Outcome(st, Some(e))
      case Success(b) => Outcome(Store(b, st.rows + RowsOf(Ops(p))), None)
  }

  lemma {:induction false} RunOpsConcat(b: Balances, xs: seq<Op>, ys: seq<Op>)
    ensures RunOps(b, xs + ys) ==
            match RunOps(b, xs) case Failure(e) => Failure(e) case Success(m) => RunOps(m, ys)
  {
    if xs == [] {
      assert xs + ys == ys;
    } else {
      assert (xs + ys)[1..] == xs[1..] + ys;
      match ApplyOp(b, xs[0]) {
        case Failure(_) =>
        case Success(m) => RunOpsConcat(m, xs[1..], ys);
      }
    }
  }

  lemma {:induction false} RunOpsSnoc(b: Balances, xs: seq<Op>, op: Op)
    ensures RunOps(b, xs + [op]) ==
            match RunOps(b, xs) case Failure(e) => Failure(e) case Success(m) => ApplyOp(m, op)
  {
    RunOpsConcat(b, xs, [op]);
    match RunOps(b, xs) {
      case Failure(_) =>
      case Success(m) =>
        assert [op][1..] == [];
    }
  }

  /** One more item of a longer run: it goes through, or it settles the whole run. */
  lemma {:induction false} RunOpsStep(b: Balances, ops: seq<Op>, i: nat)
    requires i < |ops| && RunOps(b, ops[..i]).Success?
    ensures var r := ApplyOp(RunOps(b, ops[..i]).value, ops[i]);
            RunOps(b, ops[..i + 1]) == r && (r.Failure? ==> RunOps(b, ops) == r)
  {
    assert ops[..i] + [ops[i]] == ops[..i + 1];
    RunOpsSnoc(b, ops[..i], ops[i]);
    assert ops == ops[..i + 1] + ops[i + 1..];
    RunOpsConcat(b, ops[..i + 1], ops[i + 1..]);
  }

  /** When a run fails, one item is to blame: everything before it went through. */
  lemma {:induction false} FirstFailure(b: Balances, ops: seq<Op>) returns (i: nat)
    requires RunOps(b, ops).Failure?
    ensures i < |ops| && RunOps(b, ops[..i]).Success?
    ensures ApplyOp(RunOps(b, ops[..i]).value, ops[i]) == Failure(RunOps(b, ops).error)
  {
    match ApplyOp(b, ops[0]) {
      case Failure(_) => i := 0;
      case Success(m) =>
        var j := FirstFailure(m, ops[1..]);
        i := j + 1;
        assert ops[..i][1..] == ops[1..][..j];
    }
  }

  // ---------------------------------------------------------------- frame

  /** Balances outside the names of the operations are neither read nor written. */
  lemma {:induction false} RunOpsFrame(b: Balances, ops: seq<Op>, x: Balances)
    requires AllNames(ops) !! x.Keys
    ensures RunOps(b + x, ops) ==
            match RunOps(b, ops) case Failure(e) => Failure(e) case Success(m) => Success(m + x)
  {
    if ops == [] {
    } else {
      AllNamesHead(ops);
      ApplyOpFrame(b, ops[0], x);
      match ApplyOp(b, ops[0]) {
        case Failure(_) =>
        case Success(m) => RunOpsFrame(m, ops[1..], x);
      }
    }
  }

  lemma {:induction false} ApplyOpFrame(b: Balances, op: Op, x: Balances)
    requires Names(op) !! x.Keys
    ensures ApplyOp(b + x, op) ==
            match ApplyOp(b, op) case Failure(e) => Failure(e) case Success(m) => Success(m + x)
  {
    match ApplyOp(b, op) {
      case Failure(_) =>
      case Success(m) =>
        match op {
          case Move(f, t, a) =>
            assert (b + x)[f := b[f] - a][t := b[t] + a] == b[f := b[f] - a][t := b[t] + a] + x;
          case Credit(w, a) => assert (b + x)[w := b[w] + a] == b[w := b[w] + a] + x;
          case Debit(w, a) => assert (b + x)[w := b[w] - a] == b[w := b[w] - a] + x;
        }
    }
  }

  /** Only named, existing rows are written. */
  lemma {:induction false} RunOpsTouches(b: Balances, ops: seq<Op>)
    requires RunOps(b, ops).Success?
    ensures RunOps(b, ops).value.Keys == b.Keys
    ensures forall w :: w in b && w !in AllNames(ops) ==> RunOps(b, ops).value[w] == b[w]
  {
    if ops == [] {
    } else {
      var m := ApplyOp(b, ops[0]).value;
      assert m.Keys == b.Keys;
      RunOpsTouches(m, ops[1..]);
      AllNamesHead(ops);
    }
  }

  // ---------------------------------------------------------------- closed form of a batch

  function Delta(op: Op, w: int): int {
    match op
    case Move(f, t, a) => (if w == t then a else 0) - (if w == f then a else 0)
    case Credit(v, a) => if w == v then a else 0
    case Debit(v, a) => if w == v then -a else 0
  }

  /** Credits minus debits of wallet w. */
  function Net(ops: seq<Op>, w: int): int {
    if ops == [] then 0 else Delta(ops[0], w) + Net(ops[1..], w)
  }

  ghost predicate InRange(b: Balances) {
    forall w :: w in b ==> 0 <= b[w] <= MAX_BIGINT
  }

  /** Item i is acceptable against start + credits - debits of the items before it. */
  ghost predicate Admissible(b: Balances, ops: seq<Op>, i: nat)
    requires i < |ops|
  {
    var before := ops[..i];
    match ops[i]
    case Move(f, t, a) =>
      f != t && a > 0 && f in b && t in b
      && a <= b[f] + Net(before, f) && b[t] + Net(before, t) + a <= MAX_BIGINT
    case Credit(w, a) => w in b && 0 <= b[w] + Net(before, w) + a <= MAX_BIGINT
    case Debit(w, a) => w in b && a <= b[w] + Net(before, w) && b[w] + Net(before, w) - a <= MAX_BIGINT
  }

  /** A successful run leaves every wallet at start + credits - debits, and in range. */
  lemma {:induction false} RunOpsNet(b: Balances, ops: seq<Op>)
    requires InRange(b) && RunOps(b, ops).Success?
    ensures InRange(RunOps(b, ops).value) && RunOps(b, ops).value.Keys == b.Keys
    ensures forall w :: w in b ==> RunOps(b, ops).value[w] == b[w] + Net(ops, w)
  {
    if ops == [] {
    } else {
      ApplyOpDelta(b, ops[0]);
      RunOpsNet(ApplyOp(b, ops[0]).value, ops[1..]);
    }
  }

  lemma {:induction false} ApplyOpDelta(b: Balances, op: Op)
    requires InRange(b) && ApplyOp(b, op).Success?
    ensures InRange(ApplyOp(b, op).value)
    ensures ApplyOp(b, op).value == map w | w in b :: b[w] + Delta(op, w)
  {
  }

  lemma {:induction false} AdmissibleShift(b: Balances, m: Balances, ops: seq<Op>, i: nat)
    requires i + 1 < |ops| && m.Keys == b.Keys
    requires forall w :: w in b ==> m[w] == b[w] + Delta(ops[0], w)
    ensures Admissible(b, ops, i + 1) <==> Admissible(m, ops[1..], i)
  {
    assert ops[..i + 1][1..] == ops[1..][..i];
  }

  /** The batch loop succeeds exactly when every item is acceptable in turn. */
  lemma {:induction false} RunOpsIff(b: Balances, ops: seq<Op>)
    requires InRange(b)
    ensures RunOps(b, ops).Success? <==> forall i: nat :: i < |ops| ==> Admissible(b, ops, i)
  {
    if ops == [] {
    } else {
      assert ops[..0] == [];
      assert ApplyOp(b, ops[0]).Success? <==> Admissible(b, ops, 0);
      if ApplyOp(b, ops[0]).Success? {
        var m := ApplyOp(b, ops[0]).value;
        RunOpsIff(m, ops[1..]);
        assert InRange(m) && m.Keys == b.Keys;
        forall i: nat | i + 1 < |ops|
          ensures Admissible(b, ops, i + 1) <==> Admissible(m, ops[1..], i)
        {
          AdmissibleShift(b, m, ops, i);
        }
        if forall i: nat :: i < |ops| ==> Admissible(b, ops, i) {
          forall i: nat | i < |ops[1..]| ensures Admissible(m, ops[1..], i) {
            assert Admissible(b, ops, i + 1);
          }
        } else {
          var i: nat :| i < |ops| && !Admissible(b, ops, i);
          assert i > 0;
          assert !Admissible(m, ops[1..], i - 1);
        }
      }
    }
  }

  /**
    Every balance seen on the way, in a batch that fails later too, is in [0, 2^63): after
    whole items, and between the two updates of the next transfer once its sender is covered.
  */
  lemma {:induction false} IntermediateBalancesInRange(b: Balances, ops: seq<Op>, i: nat)
    requires InRange(b) && i <= |ops| && RunOps(b, ops[..i]).Success?
    ensures var m := RunOps(b, ops[..i]).value;
            && InRange(m)
            && (i < |ops| && ops[i].Move? && ops[i].from in m && 0 < ops[i].amount <= m[ops[i].from] ==>
                  InRange(m[ops[i].from := m[ops[i].from] - ops[i].amount]))
  {
    RunOpsNet(b, ops[..i]);
  }

  lemma {:induction false} PrefixSucceeds(b: Balances, ops: seq<Op>, i: nat)
    requires i <= |ops| && RunOps(b, ops).Success?
    ensures RunOps(b, ops[..i]).Success?
  {
    assert ops == ops[..i] + ops[i..];
    RunOpsConcat(b, ops[..i], ops[i..]);
  }

  /**
    In a batch of transfers that goes through, every state is in range: after each item, and
    between the two updates of each.
  */
  lemma {:induction false} SuccessfulBatchInRange(b: Balances, ops: seq<Op>, i: nat)
    requires InRange(b) && RunOps(b, ops).Success? && i < |ops| && ops[i].Move?
    ensures RunOps(b, ops[..i]).Success?
    ensures var m := RunOps(b, ops[..i]).value;
            InRange(m) && ops[i].from in m && InRange(m[ops[i].from := m[ops[i].from] - ops[i].amount])
  {
    PrefixSucceeds(b, ops, i);
    PrefixSucceeds(b, ops, i + 1);
    RunOpsStep(b, ops, i);
    IntermediateBalancesInRange(b, ops, i);
  }

  /**
    The error of a failing batch of transfers, from its arguments and the balances at its
    start: one item is to blame, judged against start + credits - debits of those before it.
  */
  lemma {:induction false} BlamedItem(b: Balances, ops: seq<Op>) returns (i: nat)
    requires InRange(b) && RunOps(b, ops).Failure? && forall k :: 0 <= k < |ops| ==> ops[k].Move?
    ensures i < |ops| && RunOps(b, ops[..i]).Success?
    ensures var from, to, amount, before := ops[i].from, ops[i].to, ops[i].amount, ops[..i];
            RunOps(b, ops).error ==
            if from == to then SelfTransfer
            else if amount <= 0 then BadAmount
            else if from !in b then MissingWallet(from)
            else if to !in b then MissingWallet(to)
            else if b[from] + Net(before, from) < amount then Insufficient(b[from] + Net(before, from), amount)
            else OutOfRange
    ensures RunOps(b, ops).error == OutOfRange ==>
              ops[i].to in b && b[ops[i].to] + Net(ops[..i], ops[i].to) + ops[i].amount > 0x7FFF_FFFF_FFFF_FFFF
  {
    i := FirstFailure(b, ops);
    RunOpsNet(b, ops[..i]);
  }

  // ---------------------------------------------------------------- sums

  /** SUM(balance) over the wallets. */
  ghost function Total(b: Balances): int {
    if k :| k in b then b[k] + Total(b - {k}) else 0
  }

  lemma {:induction false} TotalRemove(b: Balances, k: int)
    requires k in b
    ensures Total(b) == b[k] + Total(b - {k})
    decreases |b|
  {
    var j :| j in b && Total(b) == b[j] + Total(b - {j});
    if j != k {
      assert |b - {j}| < |b| by { MapShrinks(b, j); }
      assert |b - {k}| < |b| by { MapShrinks(b, k); }
      TotalRemove(b - {j}, k);
      TotalRemove(b - {k}, j);
      assert b - {j} - {k} == b - {k} - {j};
    }
  }

  lemma {:induction false} MapShrinks(b: Balances, k: int)
    requires k in b
    ensures |b - {k}| < |b|
  {
    assert (b - {k}).Keys == b.Keys - {k};
    assert |(b - {k}).Keys| == |b - {k}|;
    assert |b.Keys| == |b|;
  }

  lemma {:induction false} TotalUpdate(b: Balances, k: int, v: int)
    ensures Total(b[k := v]) == Total(b) + v - (if k in b then b[k] else 0)
  {
    TotalRemove(b[k := v], k);
    if k in b {
      TotalRemove(b, k);
      assert b[k := v] - {k} == b - {k};
    } else {
      assert b[k := v] - {k} == b;
    }
  }

  function DeltaTotal(op: Op): int {
    match op
    case Move(_, _, _) => 0
    case Credit(_, a) => a
    case Debit(_, a) => -a
  }

  function NetTotal(ops: seq<Op>): int {
    if ops == [] then 0 else DeltaTotal(ops[0]) + NetTotal(ops[1..])
  }

  lemma {:induction false} ApplyOpTotal(b: Balances, op: Op)
    requires ApplyOp(b, op).Success?
    ensures Total(ApplyOp(b, op).value) == Total(b) + DeltaTotal(op)
  {
    match op {
      case Move(f, t, a) =>
        TotalUpdate(b, f, b[f] - a);
        TotalUpdate(b[f := b[f] - a], t, b[t] + a);
      case Credit(w, a) => TotalUpdate(b, w, b[w] + a);
      case Debit(w, a) => TotalUpdate(b, w, b[w] - a);
    }
  }

  /** Money in the system changes by deposits minus withdrawals only; transfers conserve it. */
  lemma {:induction false} RunOpsTotal(b: Balances, ops: seq<Op>)
    requires RunOps(b, ops).Success?
    ensures Total(RunOps(b, ops).value) == Total(b) + NetTotal(ops)
  {
    if ops == [] {
    } else {
      ApplyOpTotal(b, ops[0]);
      RunOpsTotal(ApplyOp(b, ops[0]).value, ops[1..]);
    }
  }

  /** A batch of transfers neither creates nor destroys money, whether it commits or aborts. */
  lemma {:induction false} TransfersConserve(st: Store, ops: seq<Op>)
    requires forall i :: 0 <= i < |ops| ==> ops[i].Move?
    ensures Total(Exec(st, Batch(ops)).store.wallets) == Total(st.wallets)
  {
    if RunOps(st.wallets, ops).Success? {
      RunOpsTotal(st.wallets, ops);
      NoNetTotal(ops);
    }
  }

  lemma {:induction false} NoNetTotal(ops: seq<Op>)
    requires forall i :: 0 <= i < |ops| ==> ops[i].Move?
    ensures NetTotal(ops) == 0
  {
    if ops == [] {
    } else {
      NoNetTotal(ops[1..]);
    }
  }

  function SumLines(ls: seq<Line>, w: int): int {
    if ls == [] then 0
    else
      var l := ls[|ls| - 1];
      SumLines(ls[..|ls| - 1], w) + if l.wallet == w then l.amount else 0
  }

  function TotalLines(ls: seq<Line>): int {
    if ls == [] then 0 else TotalLines(ls[..|ls| - 1]) + ls[|ls| - 1].amount
  }

  lemma {:induction false} SumLinesConcat(a: seq<Line>, b: seq<Line>, w: int)
    ensures SumLines(a + b, w) == SumLines(a, w) + SumLines(b, w)
  {
    if b == [] {
      assert a + b == a;
    } else {
      var n := |b| - 1;
      assert (a + b)[..|a + b| - 1] == a + b[..n];
      SumLinesConcat(a, b[..n], w);
    }
  }

  lemma {:induction false} AllLinesConcat(a: seq<Row>, b: seq<Row>)
    ensures AllLines(a + b) == AllLines(a) + AllLines(b)
  {
    hide Lines;
    if b == [] {
      assert a + b == a;
    } else {
      var n := |b| - 1;
      assert (a + b)[..|a + b| - 1] == a + b[..n];
      assert (a + b)[|a + b| - 1] == b[n];
      AllLinesConcat(a, b[..n]);
      calc {
        AllLines(a + b);
        AllLines(a + b[..n]) + Lines(b[n]);
        AllLines(a) + AllLines(b[..n]) + Lines(b[n]);
        AllLines(a) + (AllLines(b[..n]) + Lines(b[n]));
      }
    }
  }

  // ---------------------------------------------------------------- the book invariant

  /** Every balance is in range and equals the sum of its wallet's ledger lines. */
  ghost predicate Books(st: Store) {
    && InRange(st.wallets)
    && (forall w :: w in st.wallets ==> st.wallets[w] == SumLines(AllLines(st.rows), w))
    && (forall l :: l in AllLines(st.rows) ==> l.wallet in st.wallets)
  }

  lemma {:induction false} NonNegative(st: Store, w: int)
    requires Books(st)
    ensures w in st.wallets ==> 0 <= st.wallets[w] <= MAX_BIGINT
  {
  }

  lemma {:induction false} LinesOfOp(op: Op, w: int)
    ensures SumLines(Lines(RowOf(op)), w) == Delta(op, w)
    ensures forall l :: l in Lines(RowOf(op)) ==> l.wallet in Names(op)
  {
    match op {
      case Move(f, t, a) =>
        var ls := [Line(f, -a), Line(t, a)];
        assert ls[..1] == [Line(f, -a)] && ls[..1][..0] == [];
        assert Lines(RowOf(op)) == ls;
        assert SumLines(ls[..1], w) == if f == w then -a else 0;
        assert SumLines(ls, w) == SumLines(ls[..1], w) + if t == w then a else 0;
      case Credit(v, a) => assert [Line(v, a)][..0] == [];
      case Debit(v, a) => assert [Line(v, -a)][..0] == [];
    }
  }

  lemma {:induction false} LinesOfFirst(ops: seq<Op>)
    requires ops != []
    ensures AllLines(RowsOf(ops)) == Lines(RowOf(ops[0])) + AllLines(RowsOf(ops[1..]))
  {
    var first := [RowOf(ops[0])];
    assert RowsOf(ops) == first + RowsOf(ops[1..]);
    assert first[..0] == [];
    assert AllLines(first) == Lines(RowOf(ops[0]));
    hide Lines, RowsOf, AllLines;
    AllLinesConcat(first, RowsOf(ops[1..]));
  }

  lemma {:induction false} LinesOfOps(ops: seq<Op>, w: int)
    ensures SumLines(AllLines(RowsOf(ops)), w) == Net(ops, w)
    ensures forall l :: l in AllLines(RowsOf(ops)) ==> l.wallet in AllNames(ops)
  {
    if ops == [] {
    } else {
      LinesOfFirst(ops);
      LinesOfOp(ops[0], w);
      AllNamesHead(ops);
      hide Lines, RowsOf, AllLines, SumLines, AllNames, Names, Delta;
      LinesOfOps(ops[1..], w);
      SumLinesConcat(Lines(RowOf(ops[0])), AllLines(RowsOf(ops[1..])), w);
    }
  }

  lemma {:induction false} RunOpsNamesExist(b: Balances, ops: seq<Op>)
    requires RunOps(b, ops).Success?
    ensures AllNames(ops) <= b.Keys
  {
    if ops == [] {
    } else {
      var m := ApplyOp(b, ops[0]).value;
      RunOpsNamesExist(m, ops[1..]);
      AllNamesHead(ops);
    }
  }

  /** Create, deposit, withdraw and batch, committed or aborted, keep the books. */
  lemma {:induction false} ExecKeepsBooks(st: Store, p: Program)
    requires Books(st)
    ensures Books(Exec(st, p).store)
  {
    var st' := Exec(st, p).store;
    if p.Create? {
      if p.balance >= 0 && p.id !in st.wallets && p.balance <= MAX_BIGINT {
        CreateKeepsBooks(st, p.id, p.balance);
      }
    } else if RunOps(st.wallets, Ops(p)).Success? {
      var ops := Ops(p);
      RunOpsNet(st.wallets, ops);
      RunOpsNamesExist(st.wallets, ops);
      AllLinesConcat(st.rows, RowsOf(ops));
      forall w | w in st'.wallets ensures st'.wallets[w] == SumLines(AllLines(st'.rows), w) {
        SumLinesConcat(AllLines(st.rows), AllLines(RowsOf(ops)), w);
        LinesOfOps(ops, w);
      }
      LinesOfOps(ops, 0);
    }
  }

  lemma {:induction false} DepositLine(rows: seq<Row>, id: int, balance: int)
    ensures AllLines(rows + [Row(Deposit, id, None, balance)]) == AllLines(rows) + [Line(id, balance)]
  {
    var row := Row(Deposit, id, None, balance);
    assert (rows + [row])[..|rows|] == rows;
    assert Lines(row) == [Line(id, balance)];
  }

  lemma {:induction false} OneMoreLine(ls: seq<Line>, l: Line, w: int)
    ensures SumLines(ls + [l], w) == SumLines(ls, w) + if l.wallet == w then l.amount else 0
  {
    assert (ls + [l])[..|ls|] == ls;
  }

  lemma {:induction false} CreateKeepsBooks(st: Store, id: int, balance: int)
    requires Books(st) && id !in st.wallets && 0 <= balance <= MAX_BIGINT
    ensures Books(Exec(st, Create(id, balance)).store)
  {
    NoLinesNoSum(AllLines(st.rows), id);
    if balance != 0 {
      DepositKeepsBooks(st, id, balance);
      assert Exec(st, Create(id, balance)).store ==
             Store(st.wallets[id := balance], st.rows + [Row(Deposit, id, None, balance)]);
      hide Books, Exec;
    }
  }

  lemma {:induction false} DepositKeepsBooks(st: Store, id: int, balance: int)
    requires Books(st) && id !in st.wallets && 0 <= balance <= MAX_BIGINT
    ensures Books(Store(st.wallets[id := balance], st.rows + [Row(Deposit, id, None, balance)]))
  {
    var wallets, ls := st.wallets[id := balance], AllLines(st.rows);
    NoLinesNoSum(ls, id);
    DepositLine(st.rows, id, balance);
    hide AllLines, SumLines;
    forall w | w in wallets ensures wallets[w] == SumLines(ls + [Line(id, balance)], w) {
      OneMoreLine(ls, Line(id, balance), w);
    }
  }

  lemma {:induction false} NoLinesNoSum(ls: seq<Line>, w: int)
    requires forall l :: l in ls ==> l.wallet != w
    ensures SumLines(ls, w) == 0
  {
    if ls == [] {
    } else {
      assert ls[|ls| - 1] in ls;
      NoLinesNoSum(ls[..|ls| - 1], w);
    }
  }

  /** The balances that the ledger lines alone account for. */
  function Posted(keys: set<int>, ls: seq<Line>): Balances {
    map w | w in keys :: SumLines(ls, w)
  }

  /** Summing wallet by wallet or line by line gives the same total. */
  lemma {:induction false} GlobalSum(keys: set<int>, ls: seq<Line>)
    requires forall l :: l in ls ==> l.wallet in keys
    ensures Total(Posted(keys, ls)) == TotalLines(ls)
  {
    if ls == [] {
      ZeroTotal(Posted(keys, ls));
    } else {
      var l := ls[|ls| - 1];
      var front := ls[..|ls| - 1];
      assert l in ls;
      GlobalSum(keys, front);
      var before := Posted(keys, front);
      assert Posted(keys, ls) == before[l.wallet := before[l.wallet] + l.amount];
      TotalUpdate(before, l.wallet, before[l.wallet] + l.amount);
    }
  }

  lemma {:induction false} ZeroTotal(b: Balances)
    requires forall w :: w in b ==> b[w] == 0
    ensures Total(b) == 0
    decreases |b|
  {
    if k :| k in b {
      MapShrinks(b, k);
      TotalRemove(b, k);
      ZeroTotal(b - {k});
    }
  }
}
