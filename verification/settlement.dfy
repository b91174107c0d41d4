/** How finished rides, parcels, orders and service requests are charged: the posting
    list each one sends to the ledger, and the routine that checks the balance, posts
    the list and answers with the payment status to write. */
module Settlement {
  import opened Basics
  import opened Ledger
  import opened Dispatch

  /** What one settlement will do: check that `payer` holds `owed`, post the list under
      the key, and write `status`.  `worker` is the wallet opened beforehand. */
  datatype Plan = Plan(
    worker: Account, payer: Option<Account>, owed: int,
    kind: string, reference: string, key: Key, currency: string,
    postings: seq<Posting>, status: PaymentStatus)

  datatype ParcelRow = ParcelRow(id: nat, customer: nat, courier: Option<nat>, state: JobState, payBy: PaymentMethod,
    payment: PaymentStatus, price: int, commission: int, discount: int, currency: string)

  datatype OrderRow = OrderRow(id: nat, customer: nat, merchant: nat, delivered: bool, payBy: PaymentMethod,
    payment: PaymentStatus, items: int, fee: int, discount: int, total: int, commissionBP: int, currency: string)

  datatype ServiceRow = ServiceRow(id: nat, customer: nat, provider: Option<nat>, completed: bool, payBy: PaymentMethod,
    payment: PaymentStatus, price: Option<int>, commission: int, currency: string)

  function Only(condition: bool, postings: seq<Posting>): seq<Posting> { if condition then postings else [] }

  function ValueOr(x: Option<int>, otherwise: int): int { if x.Some? then x.value else otherwise }

  // ------------------------------------------------------------ posting lists

  function FareList(payer: Account, worker: Account, price: int, commission: int): seq<Posting> {
    [Debit(payer, price), Credit(worker, price - commission)]
      + Only(commission != 0, [Credit(Ledger.Commission, commission)])
  }

  function CashCommissionList(worker: Account, commission: int): seq<Posting> {
    Only(commission > 0, [Debit(worker, commission), Credit(Ledger.Commission, commission)])
  }

  function ServiceWalletList(payer: Account, worker: Account, price: int, commission: int): seq<Posting> {
    [Debit(payer, price), Credit(worker, price - commission)]
      + Only(commission > 0, [Credit(Ledger.Commission, commission)])
  }

  function ParcelWalletList(p: ParcelRow, worker: Account): seq<Posting> {
    [Debit(UserWallet(p.customer), p.price - p.discount), Credit(worker, p.price - p.commission)]
    + Only(p.commission > 0, [Credit(Ledger.Commission, p.commission)])
    + Only(p.discount > 0, [Debit(Marketing, p.discount)])
  }

  function ParcelCashList(p: ParcelRow, worker: Account): seq<Posting> {
    CashCommissionList(worker, p.commission)
      + Only(p.discount > 0, [Credit(worker, p.discount), Debit(Marketing, p.discount)])
  }

  function OrderCommission(o: OrderRow): int { GoDiv(o.items * o.commissionBP + 5000, 10000) }

  function OrderWalletList(o: OrderRow): seq<Posting> {
    OrderWalletParts(UserWallet(o.customer), MerchantWallet(o.merchant), o.total, o.items, OrderCommission(o), o.fee,
      o.discount)
  }

  function OrderWalletParts(user: Account, merchant: Account, total: int, items: int, commission: int, fee: int,
      discount: int): seq<Posting> {
    [Debit(user, total), Credit(merchant, items - commission)]
    + Only(commission > 0, [Credit(Ledger.Commission, commission)])
    + Only(fee > 0, [Credit(DeliveryFees, fee)])
    + Only(discount > 0, [Debit(Marketing, discount)])
  }

  function OrderCashList(o: OrderRow): seq<Posting> {
    OrderCashParts(MerchantWallet(o.merchant), OrderCommission(o), o.fee, o.discount)
  }

  function OrderCashParts(merchant: Account, commission: int, fee: int, discount: int): seq<Posting> {
    if commission + fee > 0 || discount > 0 then
      CashFees(merchant, commission, fee) + Only(discount > 0, [Credit(merchant, discount), Debit(Marketing, discount)])
    else []
  }

  /** What the merchant, who took the cash, owes the platform. */
  function CashFees(merchant: Account, commission: int, fee: int): seq<Posting> {
    Only(commission + fee > 0, [Debit(merchant, commission + fee)])
    + Only(commission > 0, [Credit(Ledger.Commission, commission)])
    + Only(fee > 0, [Credit(DeliveryFees, fee)])
  }

  // -------------------------------------------------------------------- plans

  /** None is the settlement switch's error branch. */
  function RidePlan(id: nat, r: Job, currency: string): Option<Plan> {
    if r.state == Cancelled && r.chargedFee > 0 && r.terms.payBy == Wallet then
      Some(Plan(NoAccount, None, 0, "ride_cancellation_fee", "ride", RideCancelFee(id), currency,
        [Debit(UserWallet(r.customer), r.chargedFee), Credit(Ledger.Commission, r.chargedFee)], Paid))
    else if r.state == Completed && r.driver.Some? && r.finalPrice.Some? then
      var price, commission, worker := r.finalPrice.value, ValueOr(r.commission, 0), DriverWallet(r.driver.value);
      if r.terms.payBy == Cash then
        Some(Plan(worker, None, 0, "ride_cash_commission", "ride", RideFare(id), currency,
          CashCommissionList(worker, commission), PaidCash))
      else
        var payer := if r.terms.payBy.Business? then BusinessWallet(r.terms.payBy.business) else UserWallet(r.customer);
        Some(Plan(worker, Some(payer), price, "ride_fare", "ride", RideFare(id), currency,
          FareList(payer, worker, price, commission), Paid))
    else None
  }

  /** None: nothing to settle, answered without an error. */
  function ParcelPlan(p: ParcelRow): Option<Plan> {
    if p.state != Completed || p.payment != Pending || p.courier.None? then None
    else
      var worker := DriverWallet(p.courier.value);
      if p.payBy == Wallet then
        Some(Plan(worker, Some(UserWallet(p.customer)), p.price - p.discount, "parcel_fare", "parcel",
          ParcelFare(p.id), p.currency,
          ParcelWalletList(p, worker), Paid))
      else
        Some(Plan(worker, None, 0, "parcel_cash_commission", "parcel", ParcelFare(p.id), p.currency,
          ParcelCashList(p, worker), PaidCash))
  }

  function OrderPlan(o: OrderRow): Option<Plan> {
    if !o.delivered || o.payment != Pending then None
    else if o.payBy == Wallet then
      Some(Plan(MerchantWallet(o.merchant), Some(UserWallet(o.customer)), o.total, "order_payment", "order",
        OrderSettle(o.id), o.currency,
        OrderWalletList(o), Paid))
    else
      Some(Plan(MerchantWallet(o.merchant), None, 0, "order_cash_fees", "order", OrderSettle(o.id), o.currency,
        OrderCashList(o), PaidCash))
  }

  function ServicePlan(r: ServiceRow): Option<Plan> {
    if !r.completed || r.payment != Pending || r.provider.None? || r.price.None? then None
    else
      var worker := DriverWallet(r.provider.value);
      if r.payBy == Wallet then
        Some(Plan(worker, Some(UserWallet(r.customer)), r.price.value, "service_fee", "service", ServiceFee(r.id),
          r.currency,
          ServiceWalletList(UserWallet(r.customer), worker, r.price.value, r.commission), Paid))
      else
        Some(Plan(worker, None, 0, "service_cash_commission", "service", ServiceFee(r.id), r.currency,
          CashCommissionList(worker, r.commission), PaidCash))
  }

  // --------------------------------------------------------------- settlement

  function TransactionOf(p: Plan): Transaction { Transaction(p.kind, p.reference, p.key, p.currency, p.postings) }

  /** The book once the worker's wallet has been opened. */
  function Opened(b: Book, p: Plan): Book {
    if p.worker == NoAccount then b else EnsureIn(b, p.worker, p.currency)
  }

  /** The check before the post: the payer, when there is one, holds the sum owed. */
  predicate Covered(b: Book, p: Plan) {
    p.payer.Some? ==> p.payer.value in Opened(b, p).accounts && Balance(Opened(b, p).entries, p.payer.value) >= p.owed
  }

  /** The payment status the settlement writes; None when it stops with an error. */
  function Answer(b: Book, p: Plan): Option<PaymentStatus> {
    var b1 := Opened(b, p);
    if p.payer.Some? && p.payer.value !in b1.accounts then None
    else if !Covered(b, p) then Some(Failed)
    else if p.postings == [] || Postable(b1, TransactionOf(p)) then Some(p.status)
    else None
  }

  /** The book afterwards. */
  function Settled(b: Book, p: Plan): Book {
    var b1 := Opened(b, p);
    if Covered(b, p) && p.postings != [] then PostTo(b1, TransactionOf(p)) else b1
  }

  function Charge(b: Book, p: Option<Plan>): (Book, Option<PaymentStatus>) {
    if p.None? then (b, None) else (Settled(b, p.value), Answer(b, p.value))
  }

  /** Rides: personal wallet, business wallet, cash, or a cancellation fee. `unexpected`
      is the error for a ride in any other condition. */
  method SettleRide(store: Store, id: nat, r: Job, currency: string)
      returns (status: Option<PaymentStatus>, unexpected: bool)
    modifies store`accounts, store`rows, store`entries
    ensures (store.Contents(), status) == Charge(old(store.Contents()), RidePlan(id, r, currency))
    ensures unexpected <==> !Settleable(r.(kind := Ride))
    ensures unexpected <==>
      && !(r.state == Cancelled && r.chargedFee > 0 && r.terms.payBy == Wallet)
      && !(r.state == Completed && r.driver.Some? && r.finalPrice.Some?)
  {
    if r.state == Cancelled && r.chargedFee > 0 && r.terms.payBy == Wallet {
      var fee := r.chargedFee;
      var posted := store.Post(Transaction("ride_cancellation_fee", "ride", RideCancelFee(id), currency,
        [Debit(UserWallet(r.customer), fee), Credit(Ledger.Commission, fee)]));
      return if posted.Ok? then Some(Paid) else None, false;
    }
    if r.state == Completed && r.driver.Some? && r.finalPrice.Some? {
      var price := r.finalPrice.value;
      var commission := 0;
      if r.commission.Some? {
        commission := r.commission.value;
      }
      var worker := DriverWallet(r.driver.value);
      store.EnsureAccount(worker, currency);
      var postings: seq<Posting> := [];
      var kind, answer := "ride_cash_commission", PaidCash;
      if r.terms.payBy == Cash {
        if commission > 0 {
          postings := [Debit(worker, commission), Credit(Ledger.Commission, commission)];
        }
      } else {
        var payer := UserWallet(r.customer);
        if r.terms.payBy.Business? {
          payer := BusinessWallet(r.terms.payBy.business);
        }
        var held := store.BalanceOf(payer);
        if held.Err? {
          return None, false;
        }
        if held.value < price {
          return Some(Failed), false;
        }
        kind, answer := "ride_fare", Paid;
        postings := [Debit(payer, price), Credit(worker, price - commission), Credit(Ledger.Commission, commission)];
        if commission == 0 {
          postings := postings[..2];
        }
        assert postings == FareList(payer, worker, price, commission);
      }
      status := PostAll(store, Transaction(kind, "ride", RideFare(id), currency, postings), answer);
      return status, false;
    }
    return None, true;
  }

  /** Nothing is due unless the parcel is delivered, pending and has a courier; `failed` is the error. */
  method SettleParcel(store: Store, p: ParcelRow) returns (status: Option<PaymentStatus>, failed: bool)
    modifies store`accounts, store`rows, store`entries
    ensures (store.Contents(), status) == Charge(old(store.Contents()), ParcelPlan(p))
    ensures failed <==> ParcelPlan(p).Some? && status.None?
  {
    if p.state != Completed || p.payment != Pending || p.courier.None? {
      return None, false;
    }
    var worker := DriverWallet(p.courier.value);
    store.EnsureAccount(worker, p.currency);
    var postings: seq<Posting> := [];
    var kind, answer := "parcel_cash_commission", PaidCash;
    if p.payBy == Wallet {
      var held := store.BalanceOf(UserWallet(p.customer));
      if held.Err? {
        return None, true;
      }
      if held.value < p.price - p.discount {
        return Some(Failed), false;
      }
      kind, answer := "parcel_fare", Paid;
      postings := [Debit(UserWallet(p.customer), p.price - p.discount), Credit(worker, p.price - p.commission)];
      if p.commission > 0 {
        postings := postings + [Credit(Ledger.Commission, p.commission)];
      }
      if p.discount > 0 {
        postings := postings + [Debit(Marketing, p.discount)];
      }
      assert postings == ParcelWalletList(p, worker);
    } else if p.commission > 0 || p.discount > 0 {
      if p.commission > 0 {
        postings := postings + [Debit(worker, p.commission), Credit(Ledger.Commission, p.commission)];
      }
      if p.discount > 0 {
        postings := postings + [Credit(worker, p.discount), Debit(Marketing, p.discount)];
      }
      assert postings == ParcelCashList(p, worker);
    }
    status := PostAll(store, Transaction(kind, "parcel", ParcelFare(p.id), p.currency, postings), answer);
    failed := status.None?;
  }

  method WalletPostings(o: OrderRow, commission: int) returns (postings: seq<Posting>)
    requires commission == OrderCommission(o)
    ensures postings == OrderWalletList(o)
  {
    postings := [Debit(UserWallet(o.customer), o.total), Credit(MerchantWallet(o.merchant), o.items - commission)];
    if commission > 0 {
      postings := postings + [Credit(Ledger.Commission, commission)];
    }
    if o.fee > 0 {
      postings := postings + [Credit(DeliveryFees, o.fee)];
    }
    if o.discount > 0 {
      postings := postings + [Debit(Marketing, o.discount)];
    }
  }

  method CashPostings(o: OrderRow, commission: int) returns (postings: seq<Posting>)
    requires commission == OrderCommission(o)
    ensures postings == OrderCashList(o)
  {
    postings := [];
    var merchant, owed := MerchantWallet(o.merchant), commission + o.fee;
    if owed > 0 || o.discount > 0 {
      if owed > 0 {
        postings := postings + [Debit(merchant, owed)];
      }
      if commission > 0 {
        postings := postings + [Credit(Ledger.Commission, commission)];
      }
      if o.fee > 0 {
        postings := postings + [Credit(DeliveryFees, o.fee)];
      }
      if o.discount > 0 {
        postings := postings + [Credit(merchant, o.discount), Debit(Marketing, o.discount)];
      }
    }
  }

  method SettleOrder(store: Store, o: OrderRow) returns (status: Option<PaymentStatus>, failed: bool)
    modifies store`accounts, store`rows, store`entries
    ensures (store.Contents(), status) == Charge(old(store.Contents()), OrderPlan(o))
    ensures failed <==> OrderPlan(o).Some? && status.None?
  {
    if !o.delivered || o.payment != Pending {
      return None, false;
    }
    var commission := GoDiv(o.items * o.commissionBP + 5000, 10000);
    var merchant := MerchantWallet(o.merchant);
    store.EnsureAccount(merchant, o.currency);
    var postings: seq<Posting> := [];
    var kind, answer := "order_cash_fees", PaidCash;
    if o.payBy == Wallet {
      var held := store.BalanceOf(UserWallet(o.customer));
      if held.Err? {
        return None, true;
      }
      if held.value < o.total {
        return Some(Failed), false;
      }
      kind, answer := "order_payment", Paid;
      postings := WalletPostings(o, commission);
    } else {
      postings := CashPostings(o, commission);
    }
    status := PostAll(store, Transaction(kind, "order", OrderSettle(o.id), o.currency, postings), answer);
    failed := status.None?;
  }

  method SettleService(store: Store, r: ServiceRow) returns (status: Option<PaymentStatus>, failed: bool)
    modifies store`accounts, store`rows, store`entries
    ensures (store.Contents(), status) == Charge(old(store.Contents()), ServicePlan(r))
    ensures failed <==> ServicePlan(r).Some? && status.None?
  {
    if !r.completed || r.payment != Pending || r.provider.None? || r.price.None? {
      return None, false;
    }
    var price, worker := r.price.value, DriverWallet(r.provider.value);
    store.EnsureAccount(worker, r.currency);
    var postings: seq<Posting> := [];
    var kind, answer := "service_cash_commission", PaidCash;
    if r.payBy == Wallet {
      var held := store.BalanceOf(UserWallet(r.customer));
      if held.Err? {
        return None, true;
      }
      if held.value < price {
        return Some(Failed), false;
      }
      kind, answer := "service_fee", Paid;
      postings := [Debit(UserWallet(r.customer), price), Credit(worker, price - r.commission)];
      if r.commission > 0 {
        postings := postings + [Credit(Ledger.Commission, r.commission)];
      }
      assert postings == ServiceWalletList(UserWallet(r.customer), worker, price, r.commission);
    } else if r.commission > 0 {
      postings := [Debit(worker, r.commission), Credit(Ledger.Commission, r.commission)];
    }
    status := PostAll(store, Transaction(kind, "service", ServiceFee(r.id), r.currency, postings), answer);
    failed := status.None?;
  }

  /** The common tail: post the list unless it is empty. */
  method PostAll(store: Store, tx: Transaction, answer: PaymentStatus) returns (status: Option<PaymentStatus>)
    modifies store`rows, store`entries
    ensures store.Contents() == if tx.postings == [] then old(store.Contents()) else PostTo(old(store.Contents()), tx)
    ensures status == if tx.postings == [] || Postable(old(store.Contents()), tx) then Some(answer) else None
  {
    if |tx.postings| > 0 {
      var posted := store.Post(tx);
      if posted.Err? {
        return None;
      }
    }
    return Some(answer);
  }
}
