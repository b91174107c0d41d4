/** No customer wallet is overdrawn by more than the cancellation fees charged to it, over every run
    in which each balance check and its post are one step. */
module Wallets {
  import opened Basics
  import opened Ledger
  import opened LedgerProofs
  import opened Dispatch
  import opened Settlement
  import opened SettlementProofs
  import Charging

  /** Each operation checks the balance and posts in one step. */
  datatype MoneyOp =
    | TopUpCard(intent: nat, user: nat, amount: int)
    | RefundCard(refund: nat, user: nat, amount: int)
    | ReverseRefund(refund: nat, user: nat, amount: int)
    | ChargeRide(id: nat, ride: Job, currency: string)
    | ChargeParcel(parcel: ParcelRow)
    | ChargeOrder(order: OrderRow)
    | ChargeService(request: ServiceRow)
    | PayDriver(batch: nat, driver: nat)
    | ReversePayout(item: nat, driver: nat, amount: int)
    | OpenAccount(account: Account, currency: string)

  function Pair(kind: string, key: Key, from: Account, to: Account, amount: int): Transaction {
    Transaction(kind, "ref", key, "EUR", [Debit(from, amount), Credit(to, amount)])
  }

  function ChargePlan(b: Book, p: Option<Plan>): Book { if p.None? then b else Settled(b, p.value) }

  function Do(b: Book, op: MoneyOp): Book {
    match op
    case TopUpCard(i, u, amount) =>
      PostTo(EnsureIn(b, UserWallet(u), "EUR"),
        Pair("wallet_topup_card", TopUp(i), CardClearing, UserWallet(u), amount))
    case RefundCard(r, u, amount) =>
      if Balance(b.entries, UserWallet(u)) < amount then b
      else PostTo(b, Pair("wallet_topup_refund", Refund(r), UserWallet(u), CardClearing, amount))
    case ReverseRefund(r, u, amount) =>
      PostTo(b, Pair("wallet_topup_refund_reversal", RefundReversal(r), CardClearing, UserWallet(u), amount))
    case ChargeRide(id, ride, currency) => ChargePlan(b, RidePlan(id, ride, currency))
    case ChargeParcel(p) => ChargePlan(b, ParcelPlan(p))
    case ChargeOrder(o) => ChargePlan(b, OrderPlan(o))
    case ChargeService(r) => ChargePlan(b, ServicePlan(r))
    case PayDriver(batch, d) =>
      PostTo(b,
        Pair("driver_payout", Payout(batch, d), DriverWallet(d), PayoutClearing, Balance(b.entries, DriverWallet(d))))
    case ReversePayout(i, d, amount) =>
      PostTo(b, Pair("driver_payout_reversal", PayoutReversal(i), PayoutClearing, DriverWallet(d), amount))
    case OpenAccount(a, currency) => EnsureIn(b, a, currency)
  }

  function Run(b: Book, ops: seq<MoneyOp>): Book
    decreases |ops|
  {
    if ops == [] then b else Run(Do(b, ops[0]), ops[1..])
  }

  function OfFees(rows: seq<Row>, a: Account): Entry -> bool {
    (e: Entry) => e.tx < |rows| && rows[e.tx].key.RideCancelFee? && e.account == a
  }

  /** The cancellation fees charged to a user's wallet. */
  function Fees(b: Book, u: nat): int { -Net(b.entries, OfFees(b.rows, UserWallet(u))) }

  ghost predicate Floor(b: Book, u: nat) {
    Fees(b, u) >= 0 && Balance(b.entries, UserWallet(u)) + Fees(b, u) >= 0
  }

  // -------------------------------------------------------------- one post

  lemma AddedFees(b: Book, tx: Transaction, a: Account)
    requires Fresh(b, tx)
    ensures Net(EntriesOf(|b.rows|, tx.postings, CurrencyOf(tx)), OfFees(PostTo(b, tx).rows, a)) ==
      if tx.key.RideCancelFee? then Delta(tx.postings, a) else 0
  {
    var n := |b.rows|;
    var added := EntriesOf(n, tx.postings, CurrencyOf(tx));
    var f := OfFees(PostTo(b, tx).rows, a);
    assert PostTo(b, tx).rows[n].key == tx.key;
    if tx.key.RideCancelFee? {
      Charging.SameCount(added, f, OnAccount(a));
      BalanceOfPostings(tx.postings, n, CurrencyOf(tx), a);
    } else {
      NetOfNone(added, f);
    }
  }

  lemma FeesMove(b: Book, tx: Transaction, u: nat)
    requires EntriesSound(b)
    ensures Fees(PostTo(b, tx), u) == Fees(b, u)
      - (if Fresh(b, tx) && tx.key.RideCancelFee? then Delta(tx.postings, UserWallet(u)) else 0)
  {
    if Fresh(b, tx) {
      var a := UserWallet(u);
      var f := OfFees(PostTo(b, tx).rows, a);
      NetAppends(b.entries, EntriesOf(|b.rows|, tx.postings, CurrencyOf(tx)), f);
      Charging.SameCount(b.entries, f, OfFees(b.rows, a));
      AddedFees(b, tx, a);
    }
  }

  /** A post respects the floor when it credits the wallet, when the balance covers the
      debit, or when it is itself a cancellation fee. */
  lemma PostKeepsFloor(b: Book, tx: Transaction, u: nat)
    requires EntriesSound(b) && Floor(b, u)
    requires var d := Delta(tx.postings, UserWallet(u));
      if tx.key.RideCancelFee? then d <= 0 || !Fresh(b, tx)
      else d >= 0 || !Fresh(b, tx) || Balance(b.entries, UserWallet(u)) + d >= 0
    ensures Floor(PostTo(b, tx), u)
  {
    PostMoves(b, tx, UserWallet(u));
    FeesMove(b, tx, u);
  }

  // ------------------------------------------------------ what each list debits

  /** The plan takes from a user's wallet exactly what it checked for, except the
      cancellation fee, which it takes unchecked. */
  ghost predicate DebitsWhatItChecks(p: Plan) {
    forall u: nat ::
      if p.key.RideCancelFee? then Delta(p.postings, UserWallet(u)) <= 0
      else Delta(p.postings, UserWallet(u)) == (if p.payer == Some(UserWallet(u)) then -p.owed else 0)
  }

  lemma FeeDebits(p: Plan, x: Account, fee: int)
    requires p.key.RideCancelFee? && p.postings == [Debit(x, fee), Credit(Ledger.Commission, fee)] && fee > 0
    ensures DebitsWhatItChecks(p)
  {
    forall u: nat
      ensures Delta(p.postings, UserWallet(u)) <= 0
    {
      DeltaOfTwo(Debit(x, fee), Credit(Ledger.Commission, fee), UserWallet(u));
    }
  }

  lemma FareDebits(p: Plan, payer: Account, worker: Account, commission: int)
    requires !p.key.RideCancelFee? && worker.DriverWallet? && p.payer == Some(payer)
    requires p.postings == FareList(payer, worker, p.owed, commission)
    ensures DebitsWhatItChecks(p)
  {
    forall u: nat
      ensures Delta(p.postings, UserWallet(u)) == if p.payer == Some(UserWallet(u)) then -p.owed else 0
    {
      FareListMoves(payer, worker, p.owed, commission, UserWallet(u));
    }
  }

  lemma CommissionDebits(p: Plan, worker: Account, commission: int)
    requires !p.key.RideCancelFee? && worker.DriverWallet? && p.payer == None
    requires p.postings == CashCommissionList(worker, commission)
    ensures DebitsWhatItChecks(p)
  {
    forall u: nat
      ensures Delta(p.postings, UserWallet(u)) == 0
    {
      DeltaOfTwo(Debit(worker, commission), Credit(Ledger.Commission, commission), UserWallet(u));
    }
  }

  lemma RidePlanDebits(id: nat, r: Job, currency: string)
    ensures RidePlan(id, r, currency).Some? ==> DebitsWhatItChecks(RidePlan(id, r, currency).value)
  {
    if RidePlan(id, r, currency).Some? {
      var p, commission := RidePlan(id, r, currency).value, ValueOr(r.commission, 0);
      if p.key.RideCancelFee? {
        FeeDebits(p, UserWallet(r.customer), r.chargedFee);
      } else if p.payer.Some? {
        FareDebits(p, p.payer.value, p.worker, commission);
      } else {
        CommissionDebits(p, p.worker, commission);
      }
    }
  }

  lemma ParcelListsDebit(r: ParcelRow, worker: Account, x: Account)
    requires x.UserWallet? && worker.DriverWallet?
    ensures Delta(ParcelWalletList(r, worker), x) == if x == UserWallet(r.customer) then -(r.price - r.discount) else 0
    ensures Delta(ParcelCashList(r, worker), x) == 0
  {
    var base := [Debit(UserWallet(r.customer), r.price - r.discount), Credit(worker, r.price - r.commission)];
    DeltaOfTwo(base[0], base[1], x);
    DeltaExtendsOne(base, r.commission > 0, Credit(Ledger.Commission, r.commission), x);
    DeltaExtendsOne(base + Only(r.commission > 0, [Credit(Ledger.Commission, r.commission)]), r.discount > 0,
      Debit(Marketing, r.discount), x);
    DeltaOfTwo(Debit(worker, r.commission), Credit(Ledger.Commission, r.commission), x);
    DeltaExtendsTwo(CashCommissionList(worker, r.commission), r.discount > 0, Credit(worker, r.discount),
      Debit(Marketing, r.discount), x);
  }

  lemma ParcelPlanDebits(r: ParcelRow)
    ensures ParcelPlan(r).Some? ==> DebitsWhatItChecks(ParcelPlan(r).value)
  {
    if ParcelPlan(r).Some? {
      var p := ParcelPlan(r).value;
      forall u: nat ensures Delta(p.postings, UserWallet(u)) ==
        (if p.payer == Some(UserWallet(u)) then -p.owed else 0) {
        ParcelListsDebit(r, p.worker, UserWallet(u));
      }
    }
  }

  lemma WalletPartsDebit(user: Account, merchant: Account, total: int, items: int, c: int, fee: int, discount: int,
      x: Account)
    requires x.UserWallet? && merchant.MerchantWallet?
    ensures Delta(OrderWalletParts(user, merchant, total, items, c, fee, discount), x) ==
      if x == user then -total else 0
  {
    var l0 := [Debit(user, total), Credit(merchant, items - c)];
    DeltaOfTwo(l0[0], l0[1], x);
    DeltaExtendsOne(l0, c > 0, Credit(Ledger.Commission, c), x);
    var l1 := l0 + Only(c > 0, [Credit(Ledger.Commission, c)]);
    DeltaExtendsOne(l1, fee > 0, Credit(DeliveryFees, fee), x);
    DeltaExtendsOne(l1 + Only(fee > 0, [Credit(DeliveryFees, fee)]), discount > 0, Debit(Marketing, discount), x);
  }

  lemma CashPartsDebit(merchant: Account, c: int, fee: int, discount: int, x: Account)
    requires x.UserWallet? && merchant.MerchantWallet?
    ensures Delta(OrderCashParts(merchant, c, fee, discount), x) == 0
  {
    var k0 := Only(c + fee > 0, [Debit(merchant, c + fee)]);
    DeltaOfOne(Debit(merchant, c + fee), x);
    DeltaExtendsOne(k0, c > 0, Credit(Ledger.Commission, c), x);
    var k1 := k0 + Only(c > 0, [Credit(Ledger.Commission, c)]);
    DeltaExtendsOne(k1, fee > 0, Credit(DeliveryFees, fee), x);
    DeltaExtendsTwo(k1 + Only(fee > 0, [Credit(DeliveryFees, fee)]), discount > 0, Credit(merchant, discount),
      Debit(Marketing, discount), x);
  }

  lemma OrderPlanDebits(o: OrderRow)
    ensures OrderPlan(o).Some? ==> DebitsWhatItChecks(OrderPlan(o).value)
  {
    if OrderPlan(o).Some? {
      var p := OrderPlan(o).value;
      forall u: nat ensures Delta(p.postings, UserWallet(u)) ==
        (if p.payer == Some(UserWallet(u)) then -p.owed else 0) {
        var merchant, c := MerchantWallet(o.merchant), OrderCommission(o);
        WalletPartsDebit(UserWallet(o.customer), merchant, o.total, o.items, c, o.fee, o.discount, UserWallet(u));
        CashPartsDebit(merchant, c, o.fee, o.discount, UserWallet(u));
      }
    }
  }

  lemma ServicePlanDebits(r: ServiceRow)
    ensures ServicePlan(r).Some? ==> DebitsWhatItChecks(ServicePlan(r).value)
  {
    if ServicePlan(r).Some? {
      var p := ServicePlan(r).value;
      forall u: nat ensures Delta(p.postings, UserWallet(u)) ==
        (if p.payer == Some(UserWallet(u)) then -p.owed else 0) {
        var x := UserWallet(u);
        var base := [Debit(UserWallet(r.customer), r.price.value), Credit(p.worker, r.price.value - r.commission)];
        DeltaOfTwo(base[0], base[1], x);
        DeltaExtendsOne(base, r.commission > 0, Credit(Ledger.Commission, r.commission), x);
        DeltaOfTwo(Debit(p.worker, r.commission), Credit(Ledger.Commission, r.commission), x);
      }
    }
  }

  // ------------------------------------------------------------------ runs

  lemma PlanKeepsFloor(b: Book, p: Plan, u: nat)
    requires Sound(b) && Floor(b, u) && DebitsWhatItChecks(p)
    ensures Sound(Settled(b, p)) && Floor(Settled(b, p), u)
  {
    var b1 := Opened(b, p);
    assert b1.entries == b.entries && b1.rows == b.rows;
    assert EntriesSound(b1);
    if Covered(b, p) && p.postings != [] {
      PostKeepsSound(b1, TransactionOf(p));
      PostKeepsFloor(b1, TransactionOf(p), u);
    }
  }

  /** Charging a ride, parcel, order or service. */
  lemma ChargeKeepsFloor(b: Book, op: MoneyOp, u: nat)
    requires Sound(b) && Floor(b, u) && (op.ChargeRide? || op.ChargeParcel? || op.ChargeOrder? || op.ChargeService?)
    ensures Sound(Do(b, op)) && Floor(Do(b, op), u)
  {
    var plan := match op
      case ChargeRide(id, ride, currency) => RidePlan(id, ride, currency)
      case ChargeParcel(p) => ParcelPlan(p)
      case ChargeOrder(o) => OrderPlan(o)
      case ChargeService(r) => ServicePlan(r)
      case _ => None;
    match op {
      case ChargeRide(id, ride, currency) => RidePlanDebits(id, ride, currency);
      case ChargeParcel(p) => ParcelPlanDebits(p);
      case ChargeOrder(o) => OrderPlanDebits(o);
      case ChargeService(r) => ServicePlanDebits(r);
      case _ =>
    }
    if plan.Some? { PlanKeepsFloor(b, plan.value, u); }
  }

  lemma OpeningKeepsFloor(b: Book, a: Account, currency: string, u: nat)
    requires Sound(b) && Floor(b, u)
    ensures Sound(EnsureIn(b, a, currency)) && Floor(EnsureIn(b, a, currency), u)
  {
    assert EnsureIn(b, a, currency).entries == b.entries && EnsureIn(b, a, currency).rows == b.rows;
  }

  /** Card payments and their refunds. */
  lemma CardKeepsFloor(b: Book, op: MoneyOp, u: nat)
    requires Sound(b) && Floor(b, u) && (op.TopUpCard? || op.RefundCard? || op.ReverseRefund?)
    ensures Sound(Do(b, op)) && Floor(Do(b, op), u)
  {
    match op {
      case TopUpCard(i, user, amount) =>
        OpeningKeepsFloor(b, UserWallet(user), "EUR", u);
        PairKeepsFloor(EnsureIn(b, UserWallet(user), "EUR"),
          Pair("wallet_topup_card", TopUp(i), CardClearing, UserWallet(user), amount), u);
      case RefundCard(r, user, amount) =>
        if Balance(b.entries, UserWallet(user)) >= amount {
          PairKeepsFloor(b, Pair("wallet_topup_refund", Refund(r), UserWallet(user), CardClearing, amount), u);
        }
      case ReverseRefund(r, user, amount) =>
        PairKeepsFloor(b,
          Pair("wallet_topup_refund_reversal", RefundReversal(r), CardClearing, UserWallet(user), amount), u);
      case _ =>
    }
  }

  lemma DoKeepsFloor(b: Book, op: MoneyOp, u: nat)
    requires Sound(b) && Floor(b, u)
    ensures Sound(Do(b, op)) && Floor(Do(b, op), u)
  {
    match op
    case OpenAccount(a, currency) => OpeningKeepsFloor(b, a, currency, u);
    case PayDriver(batch, d) =>
      var held := Balance(b.entries, DriverWallet(d));
      PairKeepsFloor(b, Pair("driver_payout", Payout(batch, d), DriverWallet(d), PayoutClearing, held), u);
    case ReversePayout(i, d, amount) =>
      PairKeepsFloor(b, Pair("driver_payout_reversal", PayoutReversal(i), PayoutClearing, DriverWallet(d), amount), u);
    case TopUpCard(_, _, _) => CardKeepsFloor(b, op, u);
    case RefundCard(_, _, _) => CardKeepsFloor(b, op, u);
    case ReverseRefund(_, _, _) => CardKeepsFloor(b, op, u);
    case _ => ChargeKeepsFloor(b, op, u);
  }

  lemma PairKeepsFloor(b: Book, tx: Transaction, u: nat)
    requires Sound(b) && Floor(b, u) && !tx.key.RideCancelFee? && |tx.postings| == 2
    requires tx.postings[0].credit == 0 && tx.postings[1].debit == 0
    requires tx.postings[0].account == UserWallet(u) ==>
      Balance(b.entries, UserWallet(u)) >= tx.postings[0].debit && tx.postings[1].account != UserWallet(u)
    ensures Sound(PostTo(b, tx)) && Floor(PostTo(b, tx), u)
  {
    PostKeepsSound(b, tx);
    assert tx.postings == [tx.postings[0], tx.postings[1]];
    DeltaOfTwo(tx.postings[0], tx.postings[1], UserWallet(u));
    if Fresh(b, tx) { assert WellFormed(tx.postings[1]); }
    PostKeepsFloor(b, tx, u);
  }

  lemma {:induction false} RunKeepsFloor(b: Book, ops: seq<MoneyOp>, u: nat)
    requires Sound(b) && Floor(b, u)
    ensures Sound(Run(b, ops)) && Floor(Run(b, ops), u)
    decreases |ops|
  {
    if ops != [] {
      DoKeepsFloor(b, ops[0], u);
      RunKeepsFloor(Do(b, ops[0]), ops[1..], u);
    }
  }

  /** With each check and its post in one step: from an empty ledger, every user's balance plus the
      cancellation fees charged to it stays at or above zero, whatever is posted and in whatever order. */
  lemma WalletFloor(accounts: map<Account, string>, ops: seq<MoneyOp>, u: nat)
    ensures var b := Run(Book(accounts, [], []), ops);
      Balance(b.entries, UserWallet(u)) + Fees(b, u) >= 0 && Fees(b, u) >= 0
  {
    RunKeepsFloor(Book(accounts, [], []), ops, u);
  }
}
