/** The balance check and the post as the program has them, in two transactions: what may happen
    in between, and how much a check must leave for those before it. */
module WalletRaces {
  import opened Basics
  import opened Ledger
  import opened LedgerProofs
  import opened Dispatch
  import opened Settlement
  import opened Wallets
  import Charging

  /** In the program the balance check and the post are two transactions; what has passed its check
      waits in `cleared` until it is posted. */
  datatype Split = Split(book: Book, cleared: seq<Transaction>)

  datatype SplitOp =
    | Check(plan: Plan)                                      // a settlement
    | CheckRefund(refund: nat, user: nat, amount: int)       // a refund of a card top-up
    | PostCleared(index: nat)
    | Whole(op: MoneyOp)

  function RefundTx(refund: nat, user: nat, amount: int): Transaction {
    Pair("wallet_topup_refund", Refund(refund), UserWallet(user), CardClearing, amount)
  }

  function SplitDo(s: Split, op: SplitOp): Split {
    match op
    case Check(p) =>
      var b := Settlement.Opened(s.book, p);
      if Covered(s.book, p) && p.postings != [] then Split(b, s.cleared + [TransactionOf(p)]) else s.(book := b)
    case CheckRefund(r, u, amount) =>
      if Balance(s.book.entries, UserWallet(u)) >= amount then s.(cleared := s.cleared + [RefundTx(r, u, amount)])
        else s
    case PostCleared(i) => if i < |s.cleared| then s.(book := PostTo(s.book, s.cleared[i])) else s
    case Whole(op) => s.(book := Do(s.book, op))
  }

  function SplitRun(s: Split, ops: seq<SplitOp>): Split
    decreases |ops|
  {
    if ops == [] then s else SplitRun(SplitDo(s, ops[0]), ops[1..])
  }

  /** What a post needs at the moment it is written: a cancellation fee only debits, and for
      anything else the wallet and its fees still cover the debit. */
  predicate StillCovers(b: Book, tx: Transaction, u: nat) {
    Fresh(b, tx) ==>
      var d := Delta(tx.postings, UserWallet(u));
      if tx.key.RideCancelFee? then Fees(b, u) >= d else Balance(b.entries, UserWallet(u)) + Fees(b, u) + d >= 0
  }

  /** One post keeps the floor exactly when it is covered at the moment it is written. */
  lemma FloorKeptExactly(b: Book, tx: Transaction, u: nat)
    requires EntriesSound(b) && Floor(b, u)
    ensures Floor(PostTo(b, tx), u) <==> StillCovers(b, tx, u)
  {
    FeesMove(b, tx, u);
    PostMoves(b, tx, UserWallet(u));
  }

  /** Every post of the run is covered when it is written, however long ago its check was. */
  ghost predicate CoveredWhenPosted(s: Split, ops: seq<SplitOp>, u: nat)
    decreases |ops|
  {
    ops != [] ==>
      && (ops[0].PostCleared? && ops[0].index < |s.cleared| ==> StillCovers(s.book, s.cleared[ops[0].index], u))
      && CoveredWhenPosted(SplitDo(s, ops[0]), ops[1..], u)
  }

  lemma SplitStepKeepsFloor(s: Split, op: SplitOp, u: nat)
    requires Sound(s.book) && Floor(s.book, u)
    ensures Sound(SplitDo(s, op).book)
    ensures Floor(SplitDo(s, op).book, u) <==>
      (op.PostCleared? && op.index < |s.cleared| ==> StillCovers(s.book, s.cleared[op.index], u))
  {
    match op
    case Check(p) => assert SplitDo(s, op).book.entries == s.book.entries && SplitDo(s, op).book.rows == s.book.rows;
    case PostCleared(i) =>
      if i < |s.cleared| {
        PostKeepsSound(s.book, s.cleared[i]);
        FloorKeptExactly(s.book, s.cleared[i], u);
      }
    case CheckRefund(_, _, _) =>
    case Whole(m) => DoKeepsFloor(s.book, m, u);
  }

  ghost predicate FloorThroughout(s: Split, ops: seq<SplitOp>, u: nat)
    decreases |ops|
  {
    Floor(s.book, u) && (ops != [] ==> FloorThroughout(SplitDo(s, ops[0]), ops[1..], u))
  }

  /** With checks and posts apart, the floor holds throughout a run exactly when each of its posts is
      still covered when it is written. */
  lemma {:induction false} SplitFloor(s: Split, ops: seq<SplitOp>, u: nat)
    requires Sound(s.book) && Floor(s.book, u)
    ensures FloorThroughout(s, ops, u) <==> CoveredWhenPosted(s, ops, u)
    ensures CoveredWhenPosted(s, ops, u) ==> Floor(SplitRun(s, ops).book, u)
    decreases |ops|
  {
    if ops != [] {
      SplitStepKeepsFloor(s, ops[0], u);
      if Floor(SplitDo(s, ops[0]).book, u) { SplitFloor(SplitDo(s, ops[0]), ops[1..], u); }
    }
  }

  // ------------------------------------------------------------- reservations

  /** What a transaction takes from a user beyond the cancellation fees. */
  function Owes(tx: Transaction, u: nat): nat {
    if tx.key.RideCancelFee? || Delta(tx.postings, UserWallet(u)) >= 0 then 0 else -Delta(tx.postings, UserWallet(u))
  }

  /** What has passed its check and is not yet posted, in all. */
  function Outstanding(b: Book, cleared: seq<Transaction>, u: nat): nat {
    if cleared == [] then 0
    else
      var tx := cleared[|cleared| - 1];
      Outstanding(b, cleared[..|cleared| - 1], u) + if Posted(b, tx.key) then 0 else Owes(tx, u)
  }

  /** Wallet and fees cover everything outstanding. */
  ghost predicate Reserve(s: Split, u: nat) {
    Fees(s.book, u) >= 0 && Balance(s.book.entries, UserWallet(u))
      + Fees(s.book, u) >= Outstanding(s.book, s.cleared, u)
  }

  /** Cancellation fees are never credited. */
  ghost predicate FeesDebit(cleared: seq<Transaction>, u: nat) {
    forall k :: 0 <= k < |cleared| && cleared[k].key.RideCancelFee? ==> Delta(cleared[k].postings, UserWallet(u)) <= 0
  }

  lemma {:induction false} OutstandingFalls(b: Book, c: Book, cleared: seq<Transaction>, u: nat)
    requires forall key :: Posted(b, key) ==> Posted(c, key)
    ensures Outstanding(c, cleared, u) <= Outstanding(b, cleared, u)
    decreases |cleared|
  {
    if cleared != [] { OutstandingFalls(b, c, cleared[..|cleared| - 1], u); }
  }

  lemma {:induction false} OutstandingLoses(b: Book, c: Book, cleared: seq<Transaction>, i: nat, u: nat)
    requires forall key :: Posted(b, key) ==> Posted(c, key)
    requires i < |cleared| && !Posted(b, cleared[i].key) && Posted(c, cleared[i].key)
    ensures Outstanding(c, cleared, u) + Owes(cleared[i], u) <= Outstanding(b, cleared, u)
    decreases |cleared|
  {
    var init := cleared[..|cleared| - 1];
    if i == |init| { OutstandingFalls(b, c, init, u); } else { OutstandingLoses(b, c, init, i, u); }
  }

  lemma OutstandingGrows(b: Book, cleared: seq<Transaction>, tx: Transaction, u: nat)
    ensures Outstanding(b, cleared + [tx], u) == Outstanding(b, cleared, u) + if Posted(b, tx.key) then 0
      else Owes(tx, u)
  {
    assert (cleared + [tx])[..|cleared|] == cleared;
  }

  /** A reserved post needs no further check. */
  lemma PostKeepsReserve(s: Split, i: nat, u: nat)
    requires EntriesSound(s.book) && Reserve(s, u) && FeesDebit(s.cleared, u) && i < |s.cleared|
    ensures Reserve(SplitDo(s, PostCleared(i)), u)
  {
    var b, tx := s.book, s.cleared[i];
    var c := PostTo(b, tx);
    PostMoves(b, tx, UserWallet(u));
    FeesMove(b, tx, u);
    if Fresh(b, tx) {
      assert c.rows[|b.rows|].key == tx.key;
      OtherKeysStay(b, tx);
      OutstandingLoses(b, c, s.cleared, i, u);
    }
  }

  /** What a caller sees before the step: a check counts on no more than the others leave, and an
      operation in one piece leaves them enough. */
  ghost predicate Prudent(s: Split, op: SplitOp, u: nat) {
    var t := SplitDo(s, op);
    match op
    case PostCleared(_) => true
    case Whole(m) => Balance(t.book.entries, UserWallet(u)) + Fees(t.book, u) >= Outstanding(t.book, s.cleared, u)
    case _ =>
      |t.cleared| > |s.cleared| && !Posted(s.book, t.cleared[|s.cleared|].key) ==>
        Balance(s.book.entries, UserWallet(u)) + Fees(s.book, u) >= Outstanding(s.book, s.cleared, u)
          + Owes(t.cleared[|s.cleared|], u)
  }

  lemma {:induction false} SameOutstanding(b: Book, c: Book, cleared: seq<Transaction>, u: nat)
    requires c.rows == b.rows
    ensures Outstanding(c, cleared, u) == Outstanding(b, cleared, u)
    decreases |cleared|
  {
    if cleared != [] {
      SameOutstanding(b, c, cleared[..|cleared| - 1], u);
      assert Posted(c, cleared[|cleared| - 1].key) == Posted(b, cleared[|cleared| - 1].key);
    }
  }

  /** A check changes nothing but what is outstanding. */
  lemma CheckReserves(s: Split, op: SplitOp, u: nat)
    requires Reserve(s, u) && (op.Check? || op.CheckRefund?)
    ensures Reserve(SplitDo(s, op), u) <==> Prudent(s, op, u)
  {
    var t := SplitDo(s, op);
    assert t.book.entries == s.book.entries && t.book.rows == s.book.rows;
    SameOutstanding(s.book, t.book, s.cleared, u);
    if |t.cleared| > |s.cleared| {
      var tx := t.cleared[|s.cleared|];
      assert t.cleared == s.cleared + [tx];
      assert Posted(t.book, tx.key) == Posted(s.book, tx.key);
      OutstandingGrows(t.book, s.cleared, tx, u);
    }
  }

  /** One step: everything outstanding stays covered exactly when the step is prudent. */
  lemma ReserveKeptExactly(s: Split, op: SplitOp, u: nat)
    requires Sound(s.book) && Reserve(s, u) && FeesDebit(s.cleared, u)
    ensures Reserve(SplitDo(s, op), u) <==> Prudent(s, op, u)
  {
    match op
    case PostCleared(i) => if i < |s.cleared| { PostKeepsReserve(s, i, u); }
    case Whole(m) => DoKeepsFloor(s.book, m, u);
    case _ => CheckReserves(s, op, u);
  }

  ghost predicate PrudentRun(s: Split, ops: seq<SplitOp>, u: nat)
    decreases |ops|
  {
    ops != [] ==>
      && Prudent(s, ops[0], u)
      && (ops[0].Check? ==> DebitsWhatItChecks(ops[0].plan))
      && PrudentRun(SplitDo(s, ops[0]), ops[1..], u)
  }

  lemma ClearedStay(s: Split, op: SplitOp, u: nat)
    requires FeesDebit(s.cleared, u) && (op.Check? ==> DebitsWhatItChecks(op.plan))
    ensures FeesDebit(SplitDo(s, op).cleared, u)
  {
  }

  /** Over every run: if each check counts on no more than the wallet holds beyond everything
      outstanding, the floor holds throughout, however late the posts come. */
  lemma {:induction false} PrudentRunKeepsFloor(s: Split, ops: seq<SplitOp>, u: nat)
    requires Sound(s.book) && Reserve(s, u) && FeesDebit(s.cleared, u) && PrudentRun(s, ops, u)
    ensures FloorThroughout(s, ops, u)
    decreases |ops|
  {
    if ops != [] {
      ReserveKeptExactly(s, ops[0], u);
      SplitStepKeepsFloor(s, ops[0], u);
      ClearedStay(s, ops[0], u);
      PrudentRunKeepsFloor(SplitDo(s, ops[0]), ops[1..], u);
    }
  }

  /** In particular, once everything outstanding is covered, it may be posted in any order. */
  lemma {:induction false} PostsAlone(s: Split, ops: seq<SplitOp>, u: nat)
    requires Sound(s.book) && Reserve(s, u) && FeesDebit(s.cleared, u)
      && forall k :: 0 <= k < |ops| ==> ops[k].PostCleared?
    ensures FloorThroughout(s, ops, u)
    decreases |ops|
  {
    if ops != [] {
      ReserveKeptExactly(s, ops[0], u);
      SplitStepKeepsFloor(s, ops[0], u);
      PostsAlone(SplitDo(s, ops[0]), ops[1..], u);
    }
  }

  // ---------------------------------------------------------------- two charges

  /** Two charges of one wallet, both checked before either is posted, keep the floor exactly when
      the wallet and its fees cover them together. */
  lemma TwoChecksThenTwoPosts(b: Book, p: Plan, q: Plan, u: nat)
    requires Sound(b) && Floor(b, u) && p.worker in b.accounts && q.worker in b.accounts && p.key != q.key
    requires p.payer == q.payer == Some(UserWallet(u)) && DebitsWhatItChecks(p) && DebitsWhatItChecks(q)
    requires Covered(b, p) && Covered(b, q) && Fresh(b, TransactionOf(p)) && Fresh(b, TransactionOf(q))
    requires p.owed >= 0 && !p.key.RideCancelFee? && !q.key.RideCancelFee?
    ensures Floor(SplitRun(Split(b, []), [Check(p), Check(q), PostCleared(0), PostCleared(1)]).book, u)
      <==> Balance(b.entries, UserWallet(u)) + Fees(b, u) >= p.owed + q.owed
  {
    var b1 := PostTo(b, TransactionOf(p));
    OtherKeysStay(b, TransactionOf(p));
    PostMoves(b, TransactionOf(p), UserWallet(u));
    FeesMove(b, TransactionOf(p), u);
    PostKeepsSound(b, TransactionOf(p));
    FloorKeptExactly(b, TransactionOf(p), u);
    FloorKeptExactly(b1, TransactionOf(q), u);
    FourSplits(b, p, q);
  }

  lemma FourSplits(b: Book, p: Plan, q: Plan)
    requires p.worker in b.accounts && q.worker in b.accounts && Covered(b, p) && Covered(b, q) && p.postings != []
      && q.postings != []
    ensures SplitRun(Split(b, []), [Check(p), Check(q), PostCleared(0), PostCleared(1)]).book
      == PostTo(PostTo(b, TransactionOf(p)), TransactionOf(q))
  {
    var x, y := TransactionOf(p), TransactionOf(q);
    var s0, s2, s3 := Split(b, []), Split(b, [x, y]), Split(PostTo(b, x), [x, y]);
    var s4 := Split(PostTo(s3.book, y), [x, y]);
    assert [] + [x] == [x] && [x] + [y] == [x, y];
    assert SplitDo(SplitDo(s0, Check(p)), Check(q)) == s2;
    assert SplitRun(s4, []) == s4;
    assert SplitRun(s3, [PostCleared(1)]) == s4;
    assert [PostCleared(0), PostCleared(1)][1..] == [PostCleared(1)];
    assert SplitRun(s2, [PostCleared(0), PostCleared(1)]) == s4;
    assert [Check(q), PostCleared(0), PostCleared(1)][1..] == [PostCleared(0), PostCleared(1)];
    assert [Check(p), Check(q), PostCleared(0), PostCleared(1)][1..] == [Check(q), PostCleared(0), PostCleared(1)];
  }

  /** A ride for twenty, next to the one for ten. */
  function TwentyRide(): Plan {
    Plan(DriverWallet(2), Some(UserWallet(1)), 20, "ride_fare", "ride", RideFare(1), "EUR",
         FareList(UserWallet(1), DriverWallet(2), 20, 0), Paid)
  }

  /** A charge of customer 1 for the benefit of driver 2. */
  predicate SimpleRide(p: Plan, ride: nat, owed: int) {
    && p.worker == DriverWallet(2) && p.payer == Some(UserWallet(1)) && p.owed == owed > 0 && p.key == RideFare(ride)
    && p.postings == [Debit(UserWallet(1), owed), Credit(DriverWallet(2), owed)]
    && p.currency == "EUR" && p.kind != "" && p.reference != ""
  }

  lemma SimpleRideIsClear(b: Book, p: Plan, ride: nat, owed: int)
    requires Sound(b) && AllEuro(b) && UserWallet(1) in b.accounts && DriverWallet(2) in b.accounts
      && !Posted(b, RideFare(ride))
    requires SimpleRide(p, ride, owed) && Balance(b.entries, UserWallet(1)) >= owed
    ensures Covered(b, p) && Fresh(b, TransactionOf(p)) && DebitsWhatItChecks(p)
  {
    TransferPosts(b, TransactionOf(p), UserWallet(1), DriverWallet(2), owed);
    TransferDebitsWhatItChecks(p);
  }

  /** With twenty in the wallet both rides pass their checks, and posting both overdraws it. */
  lemma TwoRidesOverdraw(b: Book, p: Plan, q: Plan)
    requires Sound(b) && AllEuro(b) && UserWallet(1) in b.accounts && DriverWallet(2) in b.accounts
    requires Balance(b.entries, UserWallet(1)) == 20 && forall i :: 0 <= i < |b.rows| ==> b.rows[i].key == TopUp(0)
    requires SimpleRide(p, 0, 10) && SimpleRide(q, 1, 20)
    ensures Floor(b, 1) && Covered(b, p) && Covered(b, q)
    ensures !Floor(SplitRun(Split(b, []), [Check(p), Check(q), PostCleared(0), PostCleared(1)]).book, 1)
  {
    SimpleRideIsClear(b, p, 0, 10);
    SimpleRideIsClear(b, q, 1, 20);
    NoFeesYet(b, 1);
    TwoChecksThenTwoPosts(b, p, q, 1);
  }

  lemma PurseOverdrawn()
    ensures Sound(Charging.Purse()) && Floor(Charging.Purse(), 1)
    ensures Covered(Charging.Purse(), Charging.TenRide()) && Covered(Charging.Purse(), TwentyRide())
    ensures !Floor(SplitRun(Split(Charging.Purse(), []),
      [Check(Charging.TenRide()), Check(TwentyRide()), PostCleared(0), PostCleared(1)]).book, 1)
  {
    Charging.PurseIs();
    TwoRidesOverdraw(Charging.Purse(), Charging.TenRide(), TwentyRide());
  }

  lemma TransferDebitsWhatItChecks(p: Plan)
    requires p.postings == [Debit(UserWallet(1), p.owed), Credit(DriverWallet(2), p.owed)]
      && p.payer == Some(UserWallet(1))
    requires !p.key.RideCancelFee?
    ensures DebitsWhatItChecks(p)
  {
    forall u: nat
      ensures Delta(p.postings, UserWallet(u)) == if p.payer == Some(UserWallet(u)) then -p.owed else 0
    {
      DeltaOfTwo(Debit(UserWallet(1), p.owed), Credit(DriverWallet(2), p.owed), UserWallet(u));
    }
  }

  lemma NoFeesYet(b: Book, u: nat)
    requires forall i :: 0 <= i < |b.rows| ==> !b.rows[i].key.RideCancelFee?
    ensures Fees(b, u) == 0
  {
    NetOfNone(b.entries, OfFees(b.rows, UserWallet(u)));
  }
}
