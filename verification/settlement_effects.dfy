/** What a settlement does to the books and under which key, in the columns of the row it settles:
    whose wallet pays, who earns, and when it is refused for lack of money. */
module SettlementEffects {
  import opened Basics
  import opened Ledger
  import opened LedgerProofs
  import opened Dispatch
  import opened Settlement
  import opened SettlementProofs

  /** What has come onto account x between two books. */
  function Gained(b: Book, c: Book, x: Account): int { Balance(c.entries, x) - Balance(b.entries, x) }

  /** From b to c nothing was posted but one transaction under this key, if any. */
  ghost predicate OnlyUnder(b: Book, c: Book, key: Key) {
    forall other :: other != key ==> Posted(c, other) == Posted(b, other)
  }

  lemma PlanEffect(b: Book, p: Plan, x: Account)
    requires Answer(b, p) == Some(p.status) && p.status != Failed && !Posted(b, p.key)
    ensures Gained(b, Settled(b, p), x) == Delta(p.postings, x)
    ensures OnlyUnder(b, Settled(b, p), p.key) && (Posted(Settled(b, p), p.key) <==> p.postings != [])
  {
    var b1 := Opened(b, p);
    assert b1.entries == b.entries && b1.rows == b.rows;
    if p.postings != [] { FirstPost(b1, TransactionOf(p), x); }
  }

  lemma FirstPost(b: Book, tx: Transaction, x: Account)
    requires Postable(b, tx) && !Posted(b, tx.key)
    ensures Gained(b, PostTo(b, tx), x) == Delta(tx.postings, x)
    ensures OnlyUnder(b, PostTo(b, tx), tx.key) && Posted(PostTo(b, tx), tx.key)
  {
    PostMoves(b, tx, x);
    OtherKeysStay(b, tx);
    assert PostTo(b, tx).rows[|b.rows|].key == tx.key;
  }

  /** Refused for lack of money: nothing is posted. */
  lemma PlanRefused(b: Book, p: Plan)
    requires p.status != Failed
    ensures Answer(b, p) == Some(Failed) <==>
      p.payer.Some? && p.payer.value in Opened(b, p).accounts && Balance(b.entries, p.payer.value) < p.owed
    ensures Answer(b, p) == Some(Failed) ==> Settled(b, p).entries == b.entries && Settled(b, p).rows == b.rows
  {
  }

  // ------------------------------------------------------------------- rides

  /** A finished ride: a personal or business wallet pays the price, the driver earns it less the
      commission; in cash the driver, who has been paid, owes the commission. */
  lemma RideEffect(b: Book, id: nat, r: Job, currency: string, x: Account)
    requires r.state == Completed && r.driver.Some? && r.finalPrice.Some? && ValueOr(r.commission, 0) >= 0
    requires !Posted(b, RideFare(id)) && Charge(b, RidePlan(id, r, currency)).1 in {Some(Paid), Some(PaidCash)}
    ensures var c, price, commission := Charge(b, RidePlan(id, r, currency)).0, r.finalPrice.value,
      ValueOr(r.commission, 0);
      var earned := On(DriverWallet(r.driver.value), x, price - commission) + On(Ledger.Commission, x, commission);
      && (r.terms.payBy == Wallet ==> Gained(b, c, x) == earned - On(UserWallet(r.customer), x, price))
      && (r.terms.payBy.Business? ==> Gained(b, c, x) == earned - On(BusinessWallet(r.terms.payBy.business), x, price))
      && (r.terms.payBy == Cash ==>
            Gained(b, c, x) == On(Ledger.Commission, x, commission) - On(DriverWallet(r.driver.value), x, commission))
      && OnlyUnder(b, c, RideFare(id)) && (Posted(c, RideFare(id)) <==> r.terms.payBy != Cash || commission > 0)
    ensures Charge(b, RidePlan(id, r, currency)).1 == Some(if r.terms.payBy == Cash then PaidCash else Paid)
  {
    var p, commission := RidePlan(id, r, currency).value, ValueOr(r.commission, 0);
    PlanEffect(b, p, x);
    if r.terms.payBy == Cash {
      CashCommissionMoves(p.worker, commission, x);
    } else {
      FareListMoves(p.payer.value, p.worker, r.finalPrice.value, commission, x);
    }
  }

  /** It fails exactly when the wallet that pays holds less than the price, and then nothing moves. */
  lemma RideRefused(b: Book, id: nat, r: Job, currency: string)
    requires r.state == Completed && r.driver.Some? && r.finalPrice.Some?
    ensures var (c, status) := Charge(b, RidePlan(id, r, currency));
      && (status == Some(Failed) <==>
            || (r.terms.payBy == Wallet && Short(b, UserWallet(r.customer), r.finalPrice.value))
            || (r.terms.payBy.Business? && Short(b, BusinessWallet(r.terms.payBy.business), r.finalPrice.value)))
      && (status == Some(Failed) ==> c.entries == b.entries && c.rows == b.rows)
  {
    PlanRefused(b, RidePlan(id, r, currency).value);
  }

  /** A known account that holds less. */
  predicate Short(b: Book, a: Account, amount: int) { a in b.accounts && Balance(b.entries, a) < amount }

  /** A cancelled ride: its fee goes from the customer's wallet to the platform, unchecked. */
  lemma CancelledRideEffect(b: Book, id: nat, r: Job, currency: string, x: Account)
    requires r.state == Cancelled && r.chargedFee > 0 && r.terms.payBy == Wallet
    requires !Posted(b, RideCancelFee(id)) && Charge(b, RidePlan(id, r, currency)).1.Some?
    ensures var (c, status) := Charge(b, RidePlan(id, r, currency));
      && status == Some(Paid)
      && Gained(b, c, x) == On(Ledger.Commission, x, r.chargedFee) - On(UserWallet(r.customer), x, r.chargedFee)
      && OnlyUnder(b, c, RideCancelFee(id)) && Posted(c, RideCancelFee(id))
  {
    var p := RidePlan(id, r, currency).value;
    PlanEffect(b, p, x);
    DeltaOfTwo(Debit(UserWallet(r.customer), r.chargedFee), Credit(Ledger.Commission, r.chargedFee), x);
  }

  // ----------------------------------------------------------------- parcels

  /** A delivered parcel: the customer pays the price less the coupon, which marketing bears, and the
      courier earns the price less the commission. */
  lemma ParcelEffect(b: Book, p: ParcelRow, x: Account)
    requires p.state == Completed && p.payment == Pending && p.courier.Some? && p.commission >= 0 && p.discount >= 0
    requires !Posted(b, ParcelFare(p.id)) && Charge(b, ParcelPlan(p)).1 in {Some(Paid), Some(PaidCash)}
    ensures var (c, status) := Charge(b, ParcelPlan(p));
      var shared := On(Ledger.Commission, x, p.commission) - On(Marketing, x, p.discount);
      && (p.payBy == Wallet ==>
            && status == Some(Paid)
            && Gained(b, c, x) == shared + On(DriverWallet(p.courier.value), x, p.price - p.commission)
                 - On(UserWallet(p.customer), x, p.price - p.discount))
      && (p.payBy != Wallet ==>
            && status == Some(PaidCash)
            && Gained(b, c, x) == shared + On(DriverWallet(p.courier.value), x, p.discount - p.commission))
      && OnlyUnder(b, c, ParcelFare(p.id))
      && (Posted(c, ParcelFare(p.id)) <==> p.payBy == Wallet || p.commission > 0 || p.discount > 0)
  {
    PlanEffect(b, ParcelPlan(p).value, x);
    if p.payBy == Wallet {
      ParcelWalletMoves(p, DriverWallet(p.courier.value), x);
    } else {
      ParcelCashMoves(p, DriverWallet(p.courier.value), x);
    }
  }

  lemma ParcelRefused(b: Book, p: ParcelRow)
    requires p.state == Completed && p.payment == Pending && p.courier.Some?
    ensures var (c, status) := Charge(b, ParcelPlan(p));
      && (status == Some(Failed) <==> p.payBy == Wallet && Short(b, UserWallet(p.customer), p.price - p.discount))
      && (status == Some(Failed) ==> c.entries == b.entries && c.rows == b.rows)
  {
    PlanRefused(b, ParcelPlan(p).value);
  }

  // ------------------------------------------------------------------ orders

  /** The merchant's rate of the goods, the half cent going up. */
  predicate RateOf(o: OrderRow, commission: int) {
    10000 * commission <= o.items * o.commissionBP + 5000 < 10000 * commission + 10000
  }

  /** A delivered order: the customer pays the total, the merchant earns the goods less the commission,
      the delivery fee is the platform's, and marketing bears the coupon. */
  lemma OrderEffect(b: Book, o: OrderRow, commission: int, x: Account)
    requires o.delivered && o.payment == Pending && Consistent(o) && RateOf(o, commission)
    requires !Posted(b, OrderSettle(o.id)) && Charge(b, OrderPlan(o)).1 in {Some(Paid), Some(PaidCash)}
    ensures var (c, status) := Charge(b, OrderPlan(o));
      var shared := On(Ledger.Commission, x, commission) + On(DeliveryFees, x, o.fee) - On(Marketing, x, o.discount);
      && (o.payBy == Wallet ==>
            && status == Some(Paid)
            && Gained(b, c, x) == shared + On(MerchantWallet(o.merchant), x, o.items - commission)
                 - On(UserWallet(o.customer), x, o.total))
      && (o.payBy != Wallet ==>
            && status == Some(PaidCash)
            && Gained(b, c, x) == shared + On(MerchantWallet(o.merchant), x, o.discount - commission - o.fee))
      && OnlyUnder(b, c, OrderSettle(o.id))
      && (Posted(c, OrderSettle(o.id)) <==> o.payBy == Wallet || commission + o.fee > 0 || o.discount > 0)
  {
    CommissionIsRate(o, commission);
    PlanEffect(b, OrderPlan(o).value, x);
    if o.payBy == Wallet {
      OrderWalletPartsMove(UserWallet(o.customer), MerchantWallet(o.merchant), o.total, o.items, commission, o.fee,
        o.discount, x);
    } else {
      OrderCashPartsMove(MerchantWallet(o.merchant), commission, o.fee, o.discount, x);
    }
  }

  lemma CommissionIsRate(o: OrderRow, commission: int)
    requires Consistent(o) && RateOf(o, commission)
    ensures OrderCommission(o) == commission >= 0
  {
    NonNegativeCommission(o);
    var v := o.items * o.commissionBP + 5000;
    assert v >= 0 && GoDiv(v, 10000) == v / 10000;
  }

  lemma OrderRefused(b: Book, o: OrderRow)
    requires o.delivered && o.payment == Pending
    ensures var (c, status) := Charge(b, OrderPlan(o));
      && (status == Some(Failed) <==> o.payBy == Wallet && Short(b, UserWallet(o.customer), o.total))
      && (status == Some(Failed) ==> c.entries == b.entries && c.rows == b.rows)
  {
    PlanRefused(b, OrderPlan(o).value);
  }

  // ---------------------------------------------------------------- services

  lemma ServiceEffect(b: Book, r: ServiceRow, x: Account)
    requires r.completed && r.payment == Pending && r.provider.Some? && r.price.Some? && r.commission >= 0
    requires !Posted(b, ServiceFee(r.id)) && Charge(b, ServicePlan(r)).1 in {Some(Paid), Some(PaidCash)}
    ensures var (c, status) := Charge(b, ServicePlan(r));
      && (r.payBy == Wallet ==>
            && status == Some(Paid)
            && Gained(b, c, x) == On(DriverWallet(r.provider.value), x, r.price.value - r.commission)
                 + On(Ledger.Commission, x, r.commission) - On(UserWallet(r.customer), x, r.price.value))
      && (r.payBy != Wallet ==>
            && status == Some(PaidCash)
            && Gained(b, c, x) == On(Ledger.Commission, x, r.commission)
                - On(DriverWallet(r.provider.value), x, r.commission))
      && OnlyUnder(b, c, ServiceFee(r.id)) && (Posted(c, ServiceFee(r.id)) <==> r.payBy == Wallet || r.commission > 0)
  {
    var p := ServicePlan(r).value;
    PlanEffect(b, p, x);
    if r.payBy == Wallet {
      ServiceListIsFareList(UserWallet(r.customer), p.worker, r.price.value, r.commission);
      FareListMoves(UserWallet(r.customer), p.worker, r.price.value, r.commission, x);
    } else {
      CashCommissionMoves(p.worker, r.commission, x);
    }
  }

  lemma ServiceRefused(b: Book, r: ServiceRow)
    requires r.completed && r.payment == Pending && r.provider.Some? && r.price.Some?
    ensures var (c, status) := Charge(b, ServicePlan(r));
      && (status == Some(Failed) <==> r.payBy == Wallet && Short(b, UserWallet(r.customer), r.price.value))
      && (status == Some(Failed) ==> c.entries == b.entries && c.rows == b.rows)
  {
    PlanRefused(b, ServicePlan(r).value);
  }

  // ------------------------------------------------------------- nothing due

  /** What is not finished, not pending or nobody's is left alone; of a ride, whatever is neither a
      finished one nor a cancellation charged to a wallet. */
  lemma NothingDue(id: nat, ride: Job, currency: string, p: ParcelRow, o: OrderRow, r: ServiceRow)
    ensures RidePlan(id, ride, currency).Some? <==>
      || (ride.state == Completed && ride.driver.Some? && ride.finalPrice.Some?)
      || (ride.state == Cancelled && ride.chargedFee > 0 && ride.terms.payBy == Wallet)
    ensures ParcelPlan(p).Some? <==> p.state == Completed && p.payment == Pending && p.courier.Some?
    ensures OrderPlan(o).Some? <==> o.delivered && o.payment == Pending
    ensures ServicePlan(r).Some? <==> r.completed && r.payment == Pending && r.provider.Some? && r.price.Some?
  {
  }

  // ------------------------------------------------------------ distinct jobs

  /** Two parcels of one customer are both charged: settling the first leaves the second unposted. */
  lemma NextParcelIsCharged(b: Book, p: ParcelRow, q: ParcelRow)
    requires p.id != q.id && !Posted(b, ParcelFare(q.id)) && ParcelPlan(q).Some?
    ensures !Posted(Charge(b, ParcelPlan(p)).0, ParcelPlan(q).value.key)
  {
    if ParcelPlan(p).Some? {
      OtherKeysStay(Opened(b, ParcelPlan(p).value), TransactionOf(ParcelPlan(p).value));
      assert Opened(b, ParcelPlan(p).value).rows == b.rows;
    }
  }
}
