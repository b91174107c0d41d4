/** Payouts while a batch is still being filled: the balance is read in one transaction and paid out
    in another, and items may be settled before the last one is in. */
module PayoutRaces {
  import opened Basics
  import opened Ledger
  import opened LedgerProofs
  import opened Payouts
  import opened PayoutProofs

  // ------------------------------------------------- between balance and payout

  /** The payout takes what was read, whatever has happened to the wallet since: it ends at zero
      exactly when its balance is again what was read, and in debt exactly when it is less. */
  lemma PaidLater(b: Book, meanwhile: seq<Operation>, k: nat, d: nat)
    requires DriverWallet(d) in b.accounts && WalletOf(b, d) >= MIN_PAYOUT
    requires Fresh(LedgerProofs.Run(b, meanwhile), PayoutTx(k, d, WalletOf(b, d)))
    ensures var amount, c := WalletOf(b, d), LedgerProofs.Run(b, meanwhile);
      var t := PostTo(c, PayoutTx(k, d, amount));
      && WalletOf(t, d) == WalletOf(c, d) - amount
      && (WalletOf(t, d) == 0 <==> WalletOf(c, d) == amount)
      && (WalletOf(t, d) < 0 <==> WalletOf(c, d) < amount)
  {
    var c, amount := LedgerProofs.Run(b, meanwhile), WalletOf(b, d);
    TransferBalance(c, PayoutTx(k, d, amount), DriverWallet(d), PayoutClearing, amount, DriverWallet(d));
    assert PayoutTx(k, d, amount).postings[0].account in c.accounts;
  }

  /** Two batches that both read a wallet before either pays it pay it twice. */
  lemma TwoBatchesPayTwice(b: Book, k: nat, l: nat, d: nat)
    requires Sound(b) && AllEuro(b) && PayoutClearing in b.accounts && DriverWallet(d) in b.accounts
    requires WalletOf(b, d) >= MIN_PAYOUT && k != l && !Posted(b, Payout(k, d)) && !Posted(b, Payout(l, d))
    ensures var amount := WalletOf(b, d);
      var t := PostTo(PostTo(b, PayoutTx(k, d, amount)), PayoutTx(l, d, amount));
      && WalletOf(t, d) == -amount
      && Balance(t.entries, PayoutClearing) == Balance(b.entries, PayoutClearing) + 2 * amount
  {
    var amount := WalletOf(b, d);
    var first, second := PayoutTx(k, d, amount), PayoutTx(l, d, amount);
    var c := PostTo(b, first);
    TransferPosts(b, first, DriverWallet(d), PayoutClearing, amount);
    OtherKeysStay(b, first);
    TransferPosts(c, second, DriverWallet(d), PayoutClearing, amount);
    TransferBalance(b, first, DriverWallet(d), PayoutClearing, amount, DriverWallet(d));
    TransferBalance(b, first, DriverWallet(d), PayoutClearing, amount, PayoutClearing);
    TransferBalance(c, second, DriverWallet(d), PayoutClearing, amount, DriverWallet(d));
    TransferBalance(c, second, DriverWallet(d), PayoutClearing, amount, PayoutClearing);
  }

  // ------------------------------------------------ settled while being filled

  datatype Move =
    | Open                       // a batch's row
    | Fill(batch: nat, driver: nat)
    | Total(batch: nat)
    | Call(op: Op)               // anything but a whole batch

  predicate IsMove(m: Move) { m.Call? ==> !m.op.NewBatch? }

  function Make(s: State, m: Move): State {
    match m
    case Open => WithBatch(s)
    case Fill(k, d) => if k < |s.batches| && PayOne(s, k, d).Some? then PayOne(s, k, d).value else s
    case Total(k) =>
      if k < |s.batches|
      then s.(batches :=
        s.batches[k := s.batches[k].(total := BatchTotal(s.items, k), count := BatchCount(s.items, k))]) else s
    case Call(op) => Do(s, op)
  }

  /** A batch that is complete already is paid one more item. */
  predicate Late(s: State, m: Move) {
    && m.Fill? && m.batch < |s.batches| && s.batches[m.batch].status == Completed
    && WalletOf(s.book, m.driver) >= MIN_PAYOUT && PayOne(s, m.batch, m.driver).Some?
  }

  lemma FillDone(s: State, k: nat, d: nat)
    requires CompletedAreDone(s) && k < |s.batches|
    ensures CompletedAreDone(Make(s, Fill(k, d))) <==> !Late(s, Fill(k, d))
  {
    var t := Make(s, Fill(k, d));
    if WalletOf(s.book, d) >= MIN_PAYOUT && PayOne(s, k, d).Some? {
      assert t.items[|s.items|].batch == k && t.items[|s.items|].status == Pending;
      assert HasPending(t.items, k);
      forall j | 0 <= j < |t.batches| && j != k && t.batches[j].status == Completed
        ensures !HasPending(t.items, j)
      {
        assert !HasPending(s.items, j);
      }
    }
  }

  lemma SettleDone(s: State, i: nat, failed: bool)
    requires CompletedAreDone(s)
    ensures CompletedAreDone(Settle(s, i, failed))
  {
    var t := Settle(s, i, failed);
    forall j | 0 <= j < |t.batches| && t.batches[j].status == Completed
      ensures !HasPending(t.items, j)
    {
      if s.batches[j].status == Completed {
        forall n | 0 <= n < |t.items| && t.items[n].batch == j
          ensures t.items[n].status != Pending
        {
          assert s.items[n].batch == j;
        }
      }
    }
  }

  /** One step: completed batches stay without pending items exactly when none is paid a late item. */
  lemma DoneKeptExactly(s: State, m: Move)
    requires CompletedAreDone(s) && ItemsKnown(s) && IsMove(m)
    ensures CompletedAreDone(Make(s, m)) <==> !Late(s, m)
    ensures ItemsKnown(Make(s, m))
  {
    match m
    case Open =>
    case Fill(k, d) => if k < |s.batches| { FillDone(s, k, d); }
    case Total(k) =>
    case Call(op) => if op.SettleOne? { SettleDone(s, op.item, op.failed); }
  }

  function MakeAll(s: State, moves: seq<Move>): State
    decreases |moves|
  {
    if moves == [] then s else MakeAll(Make(s, moves[0]), moves[1..])
  }

  predicate NeverLate(s: State, moves: seq<Move>)
    decreases |moves|
  {
    moves != [] ==> !Late(s, moves[0]) && NeverLate(Make(s, moves[0]), moves[1..])
  }

  ghost predicate DoneThroughout(s: State, moves: seq<Move>)
    decreases |moves|
  {
    CompletedAreDone(s) && (moves != [] ==> DoneThroughout(Make(s, moves[0]), moves[1..]))
  }

  /** Over every run in which batches are filled, settled and exported at once: a completed batch
      never has a pending item exactly when no completed batch is paid one. */
  lemma {:induction false} DoneExactly(s: State, moves: seq<Move>)
    requires CompletedAreDone(s) && ItemsKnown(s) && forall i :: 0 <= i < |moves| ==> IsMove(moves[i])
    ensures DoneThroughout(s, moves) <==> NeverLate(s, moves)
    decreases |moves|
  {
    if moves != [] {
      DoneKeptExactly(s, moves[0]);
      if !Late(s, moves[0]) { DoneExactly(Make(s, moves[0]), moves[1..]); }
    }
  }

  lemma FillSettleFill(s1: State, k: nat, d: nat, e: nat, n: nat)
    requires Filling(s1, k) && d != e && WalletOf(s1.book, d) >= MIN_PAYOUT && WalletOf(s1.book, e) >= MIN_PAYOUT
    requires n == |s1.items| && forall i :: 0 <= i < n ==> s1.items[i].batch < k
    ensures var t := Make(Make(Make(s1, Fill(k, d)), Call(SettleOne(n, false))), Fill(k, e));
      k < |t.batches| && t.batches[k].status == Completed && HasPending(t.items, k)
  {
    PayOneFills(s1, k, d);
    var s2 := PayOne(s1, k, d).value;
    var s3 := Settle(s2, n, false);
    ClosesAtOnce(s1, s2, k, d);
    PayOneAgain(s2, s3, k, e);
    assert PayOne(s3, k, e).value.items[|s3.items|] == Item(k, e, WalletOf(s2.book, e), Pending);
  }

  /** It happens: the first driver's item is settled before the second driver is paid. */
  lemma SettledTooEarly(s: State, d: nat, e: nat)
    requires Inv(s) && d != e && WalletOf(s.book, d) >= MIN_PAYOUT && WalletOf(s.book, e) >= MIN_PAYOUT
    ensures var k := |s.batches|;
      var t := MakeAll(s, [Open, Fill(k, d), Call(SettleOne(|s.items|, false)), Fill(k, e)]);
      k < |t.batches| && t.batches[k].status == Completed && HasPending(t.items, k)
  {
    OpeningFills(s);
    FillSettleFill(WithBatch(s), |s.batches|, d, e, |s.items|);
    FourMoves(s, Open, Fill(|s.batches|, d), Call(SettleOne(|s.items|, false)), Fill(|s.batches|, e));
  }

  lemma FourMoves(s: State, a: Move, b: Move, c: Move, d: Move)
    ensures MakeAll(s, [a, b, c, d]) == Make(Make(Make(Make(s, a), b), c), d)
  {
    var t := Make(Make(Make(Make(s, a), b), c), d);
    assert [a, b, c, d][1..] == [b, c, d] && [b, c, d][1..] == [c, d] && [c, d][1..] == [d] && [d][1..] == [];
    assert MakeAll(t, []) == t;
    assert MakeAll(Make(Make(Make(s, a), b), c), [d]) == t;
    assert MakeAll(Make(Make(s, a), b), [c, d]) == t;
    assert MakeAll(Make(s, a), [b, c, d]) == t;
  }

  lemma ClosesAtOnce(s: State, s2: State, k: nat, d: nat)
    requires (forall i :: 0 <= i < |s.items| ==> s.items[i].batch < k) && k < |s2.batches|
      && s2.items == s.items + [Item(k, d, WalletOf(s.book, d), Pending)]
    ensures var s3 := Settle(s2, |s.items|, false);
      s3.book == s2.book && k < |s3.batches| && s3.batches[k].status == Completed && |s3.items| == |s2.items|
  {
    var items := s2.items[|s.items| := s2.items[|s.items|].(status := Paid)];
    assert forall i :: 0 <= i < |s.items| ==> items[i] == s.items[i];
    assert !HasPending(items, k);
  }

  lemma PayOneAgain(s2: State, s3: State, k: nat, e: nat)
    requires Filling(s2, k) && s3.book == s2.book && WalletOf(s2.book, e) >= MIN_PAYOUT
    ensures PayOne(s3, k, e).Some? && PayOne(s3, k, e).value.batches == s3.batches
    ensures PayOne(s3, k, e).value.items == s3.items + [Item(k, e, WalletOf(s2.book, e), Pending)]
  {
    PayOneFills(s2, k, e);
  }
}
