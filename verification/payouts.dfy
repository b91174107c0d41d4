/** Paying drivers: a batch moves every payable wallet into the clearing account, and a
    payment the bank rejects is moved back. */
module Payouts {
  import opened Basics
  import opened Ledger

  datatype BatchStatus = BatchPending | Exported | Completed

  datatype Batch = Batch(status: BatchStatus, total: int, count: nat)

  datatype ItemStatus = Pending | Paid | Failed

  datatype Item = Item(batch: nat, driver: nat, amount: int, status: ItemStatus)

  datatype State = State(book: Book, batches: seq<Batch>, items: seq<Item>)

  const MIN_PAYOUT := 500

  // ------------------------------------------------------------------- sums

  /** Amounts of the items that are with the bank or paid out. */
  function Outstanding(items: seq<Item>): int {
    if items == [] then 0
    else
      var it := items[|items| - 1];
      Outstanding(items[..|items| - 1]) + (if it.status != Failed then it.amount else 0)
  }

  function BatchTotal(items: seq<Item>, k: nat): int {
    if items == [] then 0
    else BatchTotal(items[..|items| - 1], k) + (if items[|items| - 1].batch == k then items[|items| - 1].amount else 0)
  }

  function BatchCount(items: seq<Item>, k: nat): nat {
    if items == [] then 0
    else BatchCount(items[..|items| - 1], k) + (if items[|items| - 1].batch == k then 1 else 0)
  }

  predicate HasPending(items: seq<Item>, k: nat) {
    exists i :: 0 <= i < |items| && items[i].batch == k && items[i].status == Pending
  }

  // ------------------------------------------------------------- transactions

  function PayoutTx(k: nat, d: nat, amount: int): Transaction {
    Transaction("driver_payout", "payout_item", Payout(k, d), "EUR",
      [Debit(DriverWallet(d), amount), Credit(PayoutClearing, amount)])
  }

  function ReversalTx(i: nat, d: nat, amount: int): Transaction {
    Transaction("driver_payout_reversal", "payout_item", PayoutReversal(i), "EUR",
      [Debit(PayoutClearing, amount), Credit(DriverWallet(d), amount)])
  }

  /** An unknown wallet counts as empty. */
  function WalletOf(b: Book, d: nat): int {
    if DriverWallet(d) in b.accounts then Balance(b.entries, DriverWallet(d)) else 0
  }

  /** One candidate of a batch; None when the ledger refuses the payout. */
  function PayOne(s: State, k: nat, d: nat): Option<State> {
    var amount := WalletOf(s.book, d);
    if amount < MIN_PAYOUT then Some(s)
    else if Postable(s.book, PayoutTx(k, d, amount)) then
      Some(s.(book := PostTo(s.book, PayoutTx(k, d, amount)), items := s.items + [Item(k, d, amount, Pending)]))
    else None
  }

  function PayAll(s: State, k: nat, drivers: seq<nat>): Option<State> {
    if drivers == [] then Some(s)
    else
      var before := PayAll(s, k, drivers[..|drivers| - 1]);
      if before.None? then None else PayOne(before.value, k, drivers[|drivers| - 1])
  }

  function WithBatch(s: State): State { s.(batches := s.batches + [Batch(BatchPending, 0, 0)]) }

  /** A whole batch; None when a payout was refused half way. */
  function Create(s: State, drivers: seq<nat>): Option<State> {
    var k := |s.batches|;
    var paid := PayAll(WithBatch(s), k, drivers);
    if paid.None? || k >= |paid.value.batches| then None
    else
      var t := paid.value;
      Some(t.(batches :=
        t.batches[k := t.batches[k].(total := BatchTotal(t.items, k), count := BatchCount(t.items, k))]))
  }

  /** Closes the batch when nothing in it is pending. */
  function CloseIfDone(batches: seq<Batch>, items: seq<Item>, k: nat): seq<Batch> {
    if k < |batches| && !HasPending(items, k) then batches[k := batches[k].(status := Completed)] else batches
  }

  function Settle(s: State, i: nat, failed: bool): State {
    if i >= |s.items| || s.items[i].status != Pending then s
    else
      var it := s.items[i];
      var items := s.items[i := it.(status := if failed then Failed else Paid)];
      var tx := ReversalTx(i, it.driver, it.amount);
      if failed && !Postable(s.book, tx) then s.(items := items)
      else State(if failed then PostTo(s.book, tx) else s.book, CloseIfDone(s.batches, items, it.batch), items)
  }

  function Export(s: State, k: nat): State {
    if k < |s.batches| && HasPending(s.items, k) && s.batches[k].status != Completed
    then s.(batches := s.batches[k := s.batches[k].(status := Exported)]) else s
  }

  datatype Reply = Created(batch: nat) | Done | InvalidPeriod | NotFound | Refused(error: Error)

  class Desk {
    const ledger: Store
    var batches: seq<Batch>
    var items: seq<Item>

    ghost function Contents(): State
      reads this, ledger
    {
      State(ledger.Contents(), batches, items)
    }

    constructor (ledger: Store)
      ensures Contents() == State(ledger.Contents(), [], []) && this.ledger == ledger
    {
      this.ledger, batches, items := ledger, [], [];
    }

    /** Opens a batch, pays each candidate holding the minimum, then records the totals.
        A refused payout ends the call with the candidates before it paid. */
    method CreateBatch(periodStart: int, periodEnd: int, drivers: seq<nat>) returns (r: Reply)
      requires ItemsKnown(Contents())
      modifies this`batches, this`items, ledger`rows, ledger`entries
      ensures periodEnd <= periodStart <==> r == InvalidPeriod
      ensures r == InvalidPeriod ==> Contents() == old(Contents())
      ensures periodEnd > periodStart ==> (r.Created? <==> Create(old(Contents()), drivers).Some?)
      ensures r.Created? ==> r.batch == |old(batches)| && Some(Contents()) == Create(old(Contents()), drivers)
      ensures r == InvalidPeriod || r.Created? || r.Refused?
      ensures r.Refused? ==>
        exists c :: 0 <= c <= |drivers|
          && PayAll(WithBatch(old(Contents())), |old(batches)|, drivers[..c]) == Some(Contents())
    {
      if periodEnd <= periodStart {
        return InvalidPeriod;
      }
      var k := |batches|;
      batches := batches + [Batch(BatchPending, 0, 0)];
      ghost var start := Contents();
      var total, count := 0, 0;
      NothingInBatch(items, k);
      for c := 0 to |drivers|
        invariant PayAll(start, k, drivers[..c]) == Some(Contents())
        invariant batches == start.batches
        invariant total == BatchTotal(items, k) && count == BatchCount(items, k)
      {
        var d := drivers[c];
        assert drivers[..c + 1][..c] == drivers[..c];
        var held := ledger.BalanceOf(DriverWallet(d));
        var amount := if held.Ok? then held.value else 0;
        if amount < MIN_PAYOUT {
          continue;
        }
        var posted := ledger.Post(PayoutTx(k, d, amount));
        if posted.Err? {
          PayAllStops(start, k, drivers, c + 1);
          return Refused(posted.error);
        }
        var item := Item(k, d, amount, Pending);
        assert (items + [item])[..|items|] == items;
        items := items + [item];
        total := total + amount;
        count := count + 1;
      }
      assert drivers[..|drivers|] == drivers;
      batches := batches[k := batches[k].(total := total, count := count)];
      return Created(k);
    }

    /** The bank's answer for one item; a rejected payment goes back to the wallet. */
    method SettleItem(i: nat, failed: bool) returns (r: Reply)
      modifies this`batches, this`items, ledger`rows, ledger`entries
      ensures Contents() == Settle(old(Contents()), i, failed)
      ensures r == NotFound <==> i >= |old(items)| || old(items)[i].status != Pending
      ensures r == NotFound ==> Contents() == old(Contents())
    {
      if i >= |items| || items[i].status != Pending {
        return NotFound;
      }
      var it := items[i];
      items := items[i := it.(status := if failed then Failed else Paid)];
      if failed {
        var posted := ledger.Post(ReversalTx(i, it.driver, it.amount));
        if posted.Err? {
          return Refused(posted.error);
        }
      }
      var pending := exists k :: 0 <= k < |items| && items[k].batch == it.batch && items[k].status == Pending;
      if !pending && it.batch < |batches| {
        batches := batches[it.batch := batches[it.batch].(status := Completed)];
      }
      return Done;
    }

    /** Marks the batch exported, unless it has nothing pending or is already complete. */
    method ExportCSV(k: nat) returns (rows: seq<Item>)
      modifies this`batches
      ensures Contents() == Export(old(Contents()), k)
      ensures rows == PendingOf(items, k)
      ensures items == old(items)
      ensures forall it :: it in rows <==> it in items && it.batch == k && it.status == Pending
      ensures batches ==
        if rows != [] && k < |old(batches)| && old(batches)[k].status != Completed
        then old(batches)[k := old(batches)[k].(status := Exported)] else old(batches)
    {
      rows := [];
      for i := 0 to |items|
        invariant rows == PendingOf(items[..i], k)
      {
        assert items[..i + 1][..i] == items[..i];
        if items[i].batch == k && items[i].status == Pending {
          rows := rows + [items[i]];
        }
      }
      assert items[..|items|] == items;
      PendingOfEmpty(items, k);
      PendingOfIs(items, k);
      if |rows| > 0 && k < |batches| && batches[k].status != Completed {
        batches := batches[k := batches[k].(status := Exported)];
      }
    }
  }

  function PendingOf(items: seq<Item>, k: nat): seq<Item> {
    if items == [] then []
    else
      var it := items[|items| - 1];
      PendingOf(items[..|items| - 1], k) + (if it.batch == k && it.status == Pending then [it] else [])
  }

  lemma {:induction false} PendingOfIs(items: seq<Item>, k: nat)
    ensures forall it :: it in PendingOf(items, k) <==> it in items && it.batch == k && it.status == Pending
    ensures multiset(PendingOf(items, k)) <= multiset(items)
  {
    if items != [] {
      var init, last := items[..|items| - 1], items[|items| - 1];
      PendingOfIs(init, k);
      assert items == init + [last];
    }
  }

  lemma {:induction false} PendingOfEmpty(items: seq<Item>, k: nat)
    ensures PendingOf(items, k) == [] <==> !HasPending(items, k)
  {
    if items != [] {
      var init := items[..|items| - 1];
      PendingOfEmpty(init, k);
      if HasPending(items, k) {
        var i :| 0 <= i < |items| && items[i].batch == k && items[i].status == Pending;
        if i < |init| { assert init[i].status == Pending; }
      }
      if HasPending(init, k) {
        var i :| 0 <= i < |init| && init[i].batch == k && init[i].status == Pending;
        assert items[i].status == Pending;
      }
    }
  }

  /** The foreign key from items to batches. */
  ghost predicate ItemsKnown(s: State) {
    forall i :: 0 <= i < |s.items| ==> s.items[i].batch < |s.batches|
  }

  lemma {:induction false} NothingInBatch(items: seq<Item>, k: nat)
    requires forall i :: 0 <= i < |items| ==> items[i].batch != k
    ensures BatchTotal(items, k) == 0 && BatchCount(items, k) == 0
  {
    if items != [] { NothingInBatch(items[..|items| - 1], k); }
  }

  lemma {:induction false} PayAllStops(s: State, k: nat, drivers: seq<nat>, c: nat)
    requires c <= |drivers| && PayAll(s, k, drivers[..c]) == None
    ensures PayAll(s, k, drivers) == None
    decreases |drivers|
  {
    if c == |drivers| {
      assert drivers[..c] == drivers;
    } else {
      assert drivers[..|drivers| - 1][..c] == drivers[..c];
      PayAllStops(s, k, drivers[..|drivers| - 1], c);
    }
  }
}

/** Reconciliation over every run of the payout desk. */
module PayoutProofs {
  import opened Basics
  import opened Ledger
  import opened LedgerProofs
  import opened Payouts

  ghost predicate Reconciled(s: State) {
    Balance(s.book.entries, PayoutClearing) == Outstanding(s.items)
  }

  ghost predicate TotalsMatch(s: State) {
    forall k :: 0 <= k < |s.batches| ==>
      s.batches[k].total == BatchTotal(s.items, k) && s.batches[k].count == BatchCount(s.items, k)
  }

  ghost predicate CompletedAreDone(s: State) {
    forall k :: 0 <= k < |s.batches| && s.batches[k].status == Completed ==> !HasPending(s.items, k)
  }

  ghost predicate ItemsSound(s: State) {
    forall i :: 0 <= i < |s.items| ==>
      s.items[i].amount >= MIN_PAYOUT && DriverWallet(s.items[i].driver) in s.book.accounts
  }

  /** Which payout keys the ledger already knows. */
  ghost predicate KeysMatch(s: State) {
    && (forall i :: 0 <= i < |s.book.rows| && s.book.rows[i].key.Payout? ==> s.book.rows[i].key.batch < |s.batches|)
    && (forall i :: 0 <= i < |s.book.rows| && s.book.rows[i].key.PayoutReversal? ==>
          s.book.rows[i].key.item < |s.items| && s.items[s.book.rows[i].key.item].status == Failed)
  }

  ghost predicate Inv(s: State) {
    && Sound(s.book) && AllEuro(s.book) && PayoutClearing in s.book.accounts && ItemsKnown(s) && ItemsSound(s)
        && KeysMatch(s)
    && Reconciled(s) && TotalsMatch(s) && CompletedAreDone(s)
  }

  datatype Op =
    | NewBatch(drivers: seq<nat>)
    | SettleOne(item: nat, failed: bool)
    | ExportOne(batch: nat)
    | Elsewhere(op: Operation)

  /** The rest of the system opens euro accounts and posts under its own keys, and
      leaves the clearing account alone. */
  ghost predicate Foreign(op: Operation) {
    match op
    case EnsureAccount(_, currency) => currency == "EUR"
    case Post(tx) => !tx.key.Payout? && !tx.key.PayoutReversal? && Delta(tx.postings, PayoutClearing) == 0
  }

  ghost predicate Allowed(op: Op) { op.Elsewhere? ==> Foreign(op.op) }

  function Do(s: State, op: Op): State {
    match op
    case NewBatch(drivers) => if Create(s, drivers).Some? then Create(s, drivers).value else s
    case SettleOne(i, failed) => Settle(s, i, failed)
    case ExportOne(k) => Export(s, k)
    case Elsewhere(op) => s.(book := Apply(s.book, op))
  }

  function Run(s: State, ops: seq<Op>): State
    decreases |ops|
  {
    if ops == [] then s else Run(Do(s, ops[0]), ops[1..])
  }

  // ------------------------------------------------------------ one candidate

  /** The invariant while batch k is being filled: its totals are still zero, and whoever
      it has paid has an empty wallet. */
  ghost predicate Filling(s: State, k: nat) {
    && Sound(s.book) && AllEuro(s.book) && PayoutClearing in s.book.accounts && ItemsKnown(s) && ItemsSound(s)
        && KeysMatch(s) && Reconciled(s) && k < |s.batches|
    && (forall i :: 0 <= i < |s.book.rows| && s.book.rows[i].key.Payout? && s.book.rows[i].key.batch == k ==>
          WalletOf(s.book, s.book.rows[i].key.driver) == 0)
    && (forall i :: 0 <= i < |s.items| && s.items[i].batch == k ==> WalletOf(s.book, s.items[i].driver) == 0)
  }

  /** Whoever holds the minimum has not been paid in this batch. */
  lemma PayoutIsFresh(s: State, k: nat, d: nat)
    requires Filling(s, k) && WalletOf(s.book, d) >= MIN_PAYOUT
    ensures Fresh(s.book, PayoutTx(k, d, WalletOf(s.book, d)))
  {
    TransferPosts(s.book, PayoutTx(k, d, WalletOf(s.book, d)), DriverWallet(d), PayoutClearing, WalletOf(s.book, d));
  }

  /** A payout empties one wallet into the clearing account and touches no other. */
  lemma PayoutBook(b: Book, k: nat, d: nat)
    requires Sound(b) && AllEuro(b) && PayoutClearing in b.accounts && WalletOf(b, d) >= MIN_PAYOUT
    requires Fresh(b, PayoutTx(k, d, WalletOf(b, d)))
    ensures var tx := PayoutTx(k, d, WalletOf(b, d));
      var c := PostTo(b, tx);
      && Sound(c) && c.accounts == b.accounts && c.rows == b.rows + [Row(tx.kind, tx.reference, tx.key, "EUR")]
      && WalletOf(c, d) == 0 && (forall x: nat :: x != d ==> WalletOf(c, x) == WalletOf(b, x))
      && Balance(c.entries, PayoutClearing) == Balance(b.entries, PayoutClearing) + WalletOf(b, d)
  {
    var tx, amount := PayoutTx(k, d, WalletOf(b, d)), WalletOf(b, d);
    PostKeepsSound(b, tx);
    TransferBalance(b, tx, DriverWallet(d), PayoutClearing, amount, PayoutClearing);
    forall x: nat
      ensures Balance(PostTo(b, tx).entries, DriverWallet(x)) == Balance(b.entries, DriverWallet(x))
        - (if x == d then amount else 0)
    {
      TransferBalance(b, tx, DriverWallet(d), PayoutClearing, amount, DriverWallet(x));
    }
  }

  lemma PayOneFills(s: State, k: nat, d: nat)
    requires Filling(s, k)
    ensures PayOne(s, k, d).Some? && Filling(PayOne(s, k, d).value, k)
    ensures var t := PayOne(s, k, d).value;
      && t.batches == s.batches
      && WalletOf(t.book, d) == (if WalletOf(s.book, d) >= MIN_PAYOUT then 0 else WalletOf(s.book, d))
      && (forall x: nat :: x != d ==> WalletOf(t.book, x) == WalletOf(s.book, x))
      && t.items == s.items
          + (if WalletOf(s.book, d) >= MIN_PAYOUT then [Item(k, d, WalletOf(s.book, d), Pending)] else [])
  {
    if WalletOf(s.book, d) >= MIN_PAYOUT {
      PayoutIsFresh(s, k, d);
      PayoutBook(s.book, k, d);
      assert PayOne(s, k, d).value.items[..|s.items|] == s.items;
    }
  }

  lemma {:induction false} PayAllFills(s: State, k: nat, drivers: seq<nat>)
    requires Filling(s, k)
    ensures PayAll(s, k, drivers).Some? && Filling(PayAll(s, k, drivers).value, k)
    ensures var t := PayAll(s, k, drivers).value;
      && t.batches == s.batches && s.items <= t.items
      && (forall i :: |s.items| <= i < |t.items| ==> t.items[i].batch == k && t.items[i].status == Pending)
  {
    if drivers != [] {
      var init, d := drivers[..|drivers| - 1], drivers[|drivers| - 1];
      PayAllFills(s, k, init);
      PayOneFills(PayAll(s, k, init).value, k, d);
    }
  }

  lemma {:induction false} PayAllEmpties(s: State, k: nat, drivers: seq<nat>, x: nat)
    requires Filling(s, k)
    ensures PayAll(s, k, drivers).Some?
    ensures WalletOf(PayAll(s, k, drivers).value.book, x) ==
      if x in drivers && WalletOf(s.book, x) >= MIN_PAYOUT then 0 else WalletOf(s.book, x)
  {
    PayAllFills(s, k, drivers);
    if drivers != [] {
      var init, d := drivers[..|drivers| - 1], drivers[|drivers| - 1];
      PayAllFills(s, k, init);
      PayAllEmpties(s, k, init, x);
      PayOneFills(PayAll(s, k, init).value, k, d);
      assert drivers == init + [d];
    }
  }

  // ------------------------------------------------------------------- batches

  lemma {:induction false} TotalsIgnoreOthers(before: seq<Item>, after: seq<Item>, k: nat)
    requires before <= after && forall i :: |before| <= i < |after| ==> after[i].batch != k
    ensures BatchTotal(after, k) == BatchTotal(before, k) && BatchCount(after, k) == BatchCount(before, k)
    decreases |after|
  {
    if |after| > |before| {
      TotalsIgnoreOthers(before, after[..|after| - 1], k);
    } else {
      assert before == after;
    }
  }

  lemma OpeningFills(s: State)
    requires Inv(s)
    ensures Filling(WithBatch(s), |s.batches|)
  {
  }

  /** A batch goes through whole: everyone listed who held the minimum is paid out to the
      last cent, nobody else is touched. */
  lemma BatchEmptiesWallets(s: State, drivers: seq<nat>)
    requires Inv(s)
    ensures Create(s, drivers).Some?
    ensures var t := Create(s, drivers).value;
      && (forall d: nat ::
          WalletOf(t.book, d) == if d in drivers && WalletOf(s.book, d) >= 500 then 0 else WalletOf(s.book, d))
      && s.items <= t.items
      && (forall i :: |s.items| <= i < |t.items| ==>
          t.items[i].batch == |s.batches| && t.items[i].status == Pending && WalletOf(t.book, t.items[i].driver) == 0)
  {
    OpeningFills(s);
    PayAllFills(WithBatch(s), |s.batches|, drivers);
    forall d: nat ensures WalletOf(Create(s, drivers).value.book, d) ==
      if d in drivers && WalletOf(s.book, d) >= MIN_PAYOUT then 0 else WalletOf(s.book, d) {
      PayAllEmpties(WithBatch(s), |s.batches|, drivers, d);
    }
  }

  lemma CreateKeepsInv(s: State, drivers: seq<nat>)
    requires Inv(s)
    ensures Create(s, drivers).Some? && Inv(Create(s, drivers).value)
  {
    var k := |s.batches|;
    OpeningFills(s);
    PayAllFills(WithBatch(s), k, drivers);
    var t := Create(s, drivers).value;
    forall j | 0 <= j < |t.batches| ensures t.batches[j].total == BatchTotal(t.items, j)
      && t.batches[j].count == BatchCount(t.items, j) {
      if j < k { TotalsIgnoreOthers(s.items, t.items, j); }
    }
    forall j | 0 <= j < |t.batches| && t.batches[j].status == Completed ensures !HasPending(t.items, j) {
      assert s.batches[j].status == Completed && !HasPending(s.items, j);
      forall i | 0 <= i < |t.items| && t.items[i].batch == j ensures t.items[i].status != Pending {
        assert i < |s.items| && t.items[i] == s.items[i];
      }
    }
  }

  /** Calling it again at once pays nobody. */
  lemma RepeatPaysNobody(s: State, drivers: seq<nat>)
    requires Inv(s)
    ensures Create(s, drivers).Some? && Create(Create(s, drivers).value, drivers).Some?
    ensures var t := Create(s, drivers).value;
      Create(t, drivers).value.items == t.items && Create(t, drivers).value.book == t.book
  {
    CreateKeepsInv(s, drivers);
    BatchEmptiesWallets(s, drivers);
    var t := Create(s, drivers).value;
    OpeningFills(t);
    PayAllIdle(WithBatch(t), |t.batches|, drivers);
  }

  lemma {:induction false} PayAllIdle(s: State, k: nat, drivers: seq<nat>)
    requires forall d :: d in drivers ==> WalletOf(s.book, d) < MIN_PAYOUT
    ensures PayAll(s, k, drivers) == Some(s)
  {
    if drivers != [] {
      PayAllIdle(s, k, drivers[..|drivers| - 1]);
    }
  }

  // ------------------------------------------------------------------ settling

  lemma {:induction false} SettledItems(items: seq<Item>, i: nat, status: ItemStatus, k: nat)
    requires i < |items| && items[i].status == Pending
    ensures var after := items[i := items[i].(status := status)];
      && Outstanding(after) == Outstanding(items) - (if status == Failed then items[i].amount else 0)
      && BatchTotal(after, k) == BatchTotal(items, k) && BatchCount(after, k) == BatchCount(items, k)
    decreases |items|
  {
    var n := |items| - 1;
    var after := items[i := items[i].(status := status)];
    if i < n {
      SettledItems(items[..n], i, status, k);
      assert after[..n] == items[..n][i := items[..n][i].(status := status)];
    } else {
      assert after[..n] == items[..n];
    }
  }

  lemma ReversalMoves(s: State, i: nat)
    requires Inv(s) && i < |s.items| && s.items[i].status == Pending
    ensures var it := s.items[i]; var tx := ReversalTx(i, it.driver, it.amount);
      && Postable(s.book, tx) && Sound(PostTo(s.book, tx))
      && (forall x ::
          Balance(PostTo(s.book, tx).entries, x) ==
            Balance(s.book.entries, x) + Moved(PayoutClearing, DriverWallet(it.driver), it.amount, x))
  {
    var it := s.items[i];
    var tx := ReversalTx(i, it.driver, it.amount);
    TransferPosts(s.book, tx, PayoutClearing, DriverWallet(it.driver), it.amount);
    forall x: Account ensures Balance(PostTo(s.book, tx).entries, x) == Balance(s.book.entries, x)
      + Moved(PayoutClearing, DriverWallet(it.driver), it.amount, x) {
      TransferBalance(s.book, tx, PayoutClearing, DriverWallet(it.driver), it.amount, x);
    }
  }

  /** A rejected payment is moved back in full, and only the first answer counts. */
  lemma SettleRestores(s: State, i: nat, failed: bool, again: bool)
    requires Inv(s) && i < |s.items| && s.items[i].status == Pending
    ensures var t := Settle(s, i, failed); var it := s.items[i];
      && t.items == s.items[i := it.(status := if failed then Failed else Paid)]
      && (forall x :: Balance(t.book.entries, x) == Balance(s.book.entries, x)
                        + (if failed then Moved(PayoutClearing, DriverWallet(it.driver), it.amount, x) else 0))
      && Settle(t, i, again) == t
  {
    if failed {
      ReversalMoves(s, i);
    }
  }

  lemma SettleKeepsSums(s: State, i: nat, failed: bool)
    requires Inv(s) && i < |s.items| && s.items[i].status == Pending
    ensures Reconciled(Settle(s, i, failed)) && TotalsMatch(Settle(s, i, failed))
  {
    SettleRestores(s, i, failed, false);
    var t := Settle(s, i, failed);
    SettledItems(s.items, i, if failed then Failed else Paid, 0);
    forall k | 0 <= k < |t.batches|
      ensures t.batches[k].total == BatchTotal(t.items, k) && t.batches[k].count == BatchCount(t.items, k)
    {
      SettledItems(s.items, i, if failed then Failed else Paid, k);
    }
  }

  lemma SettleKeepsInv(s: State, i: nat, failed: bool)
    requires Inv(s)
    ensures Inv(Settle(s, i, failed))
  {
    if i < |s.items| && s.items[i].status == Pending {
      SettleKeepsSums(s, i, failed);
      SettleClosesRight(s, i, failed);
      SettleKeepsKeys(s, i, failed);
    }
  }

  lemma SettleClosesRight(s: State, i: nat, failed: bool)
    requires Inv(s) && i < |s.items| && s.items[i].status == Pending
    ensures CompletedAreDone(Settle(s, i, failed))
  {
    var t := Settle(s, i, failed);
    SettleRestores(s, i, failed, false);
    forall k | 0 <= k < |t.batches| && t.batches[k].status == Completed ensures !HasPending(t.items, k) {
      if s.batches[k].status == Completed {
        forall n | 0 <= n < |t.items| && t.items[n].batch == k ensures t.items[n].status != Pending {
          assert s.items[n].batch == k;
        }
      }
    }
  }

  lemma SettleKeepsKeys(s: State, i: nat, failed: bool)
    requires Inv(s) && i < |s.items| && s.items[i].status == Pending
    ensures KeysMatch(Settle(s, i, failed)) && Sound(Settle(s, i, failed).book) && AllEuro(Settle(s, i, failed).book)
  {
    if failed {
      ReversalMoves(s, i);
    }
  }

  lemma ExportKeepsInv(s: State, k: nat)
    requires Inv(s)
    ensures Inv(Export(s, k))
  {
  }

  lemma ForeignBook(b: Book, op: Operation)
    requires Sound(b) && AllEuro(b) && PayoutClearing in b.accounts && Foreign(op)
    ensures var c := Apply(b, op);
      && Sound(c) && AllEuro(c) && (forall a :: a in b.accounts ==> a in c.accounts)
      && Balance(c.entries, PayoutClearing) == Balance(b.entries, PayoutClearing)
  {
    match op
    case EnsureAccount(a, currency) => assert EnsureIn(b, a, currency).entries == b.entries;
    case Post(tx) =>
      PostKeepsSound(b, tx);
      PostMoves(b, tx, PayoutClearing);
  }

  lemma ForeignRows(b: Book, op: Operation)
    requires Foreign(op)
    ensures var c := Apply(b, op);
      forall i :: 0 <= i < |c.rows| && (c.rows[i].key.Payout? || c.rows[i].key.PayoutReversal?) ==>
        i < |b.rows| && c.rows[i] == b.rows[i]
  {
  }

  lemma ElsewhereKeepsInv(s: State, op: Operation)
    requires Inv(s) && Foreign(op)
    ensures Inv(s.(book := Apply(s.book, op)))
  {
    ForeignBook(s.book, op);
    ForeignRows(s.book, op);
  }

  lemma DoKeepsInv(s: State, op: Op)
    requires Inv(s) && Allowed(op)
    ensures Inv(Do(s, op))
  {
    match op
    case NewBatch(drivers) => CreateKeepsInv(s, drivers);
    case SettleOne(i, failed) => SettleKeepsInv(s, i, failed);
    case ExportOne(k) => ExportKeepsInv(s, k);
    case Elsewhere(o) => ElsewhereKeepsInv(s, o);
  }

  lemma {:induction false} RunKeepsInv(s: State, ops: seq<Op>)
    requires Inv(s) && forall i :: 0 <= i < |ops| ==> Allowed(ops[i])
    ensures Inv(Run(s, ops))
    decreases |ops|
  {
    if ops != [] {
      DoKeepsInv(s, ops[0]);
      RunKeepsInv(Do(s, ops[0]), ops[1..]);
    }
  }

  /** Between calls, in every run: the clearing account holds exactly what is pending or
      paid, every batch's figures are the sums over its items, and a completed batch has
      nothing pending. */
  lemma PayoutsReconcile(accounts: map<Account, string>, ops: seq<Op>)
    requires AllEuro(Book(accounts, [], [])) && PayoutClearing in accounts
      && forall i :: 0 <= i < |ops| ==> Allowed(ops[i])
    ensures var s := Run(State(Book(accounts, [], []), [], []), ops);
      && Balance(s.book.entries, PayoutClearing) == Outstanding(s.items)
      && (forall k :: 0 <= k < |s.batches| ==>
          s.batches[k].total == BatchTotal(s.items, k) && s.batches[k].count == BatchCount(s.items, k))
      && (forall k :: 0 <= k < |s.batches| && s.batches[k].status == Completed ==> !HasPending(s.items, k))
  {
    RunKeepsInv(State(Book(accounts, [], []), [], []), ops);
  }

  lemma StepKeepsCompleted(s: State, op: Op, k: nat)
    requires Inv(s) && Allowed(op) && k < |s.batches| && s.batches[k].status == Completed
    ensures var t := Do(s, op);
      k < |t.batches| && t.batches[k].status == Completed && t.batches[k].total == s.batches[k].total
  {
    if op.NewBatch? {
      OpeningFills(s);
      PayAllFills(WithBatch(s), |s.batches|, op.drivers);
    }
  }

  /** A completed batch stays completed and takes no more items. */
  lemma {:induction false} CompletedIsFinal(s: State, ops: seq<Op>, k: nat)
    requires Inv(s) && (forall i :: 0 <= i < |ops| ==> Allowed(ops[i]))
    requires k < |s.batches| && s.batches[k].status == Completed
    ensures var t := Run(s, ops);
      && k < |t.batches| && t.batches[k].status == Completed
      && t.batches[k].total == s.batches[k].total && !HasPending(t.items, k)
    decreases |ops|
  {
    if ops != [] {
      StepKeepsCompleted(s, ops[0], k);
      DoKeepsInv(s, ops[0]);
      CompletedIsFinal(Do(s, ops[0]), ops[1..], k);
    }
  }
}
