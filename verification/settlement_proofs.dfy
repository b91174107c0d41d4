/** When a posting list can be charged at all, and who ends up with what. */
module SettlementProofs {
  import opened Basics
  import opened Ledger
  import opened LedgerProofs
  import opened Dispatch
  import opened Settlement
  import Pricing

  // ------------------------------------------------- which lists can be posted

  /** A list and its extension: sums add, and both parts must be well formed. */
  lemma Extends(a: seq<Posting>, b: seq<Posting>)
    ensures Debits(a + b) == Debits(a) + Debits(b) && Credits(a + b) == Credits(a) + Credits(b)
    ensures AllWellFormed(a + b) <==> AllWellFormed(a) && AllWellFormed(b)
  {
    SumsAppend(a, b);
    if AllWellFormed(a + b) {
      forall i | 0 <= i < |a| ensures WellFormed(a[i]) { assert (a + b)[i] == a[i]; }
      forall i | 0 <= i < |b| ensures WellFormed(b[i]) { assert (a + b)[|a| + i] == b[i]; }
    }
  }

  predicate AllWellFormed(postings: seq<Posting>) {
    forall i :: 0 <= i < |postings| ==> WellFormed(postings[i])
  }

  lemma ExtendsOne(a: seq<Posting>, condition: bool, p: Posting)
    ensures Debits(a + Only(condition, [p])) == Debits(a) + (if condition then p.debit else 0)
    ensures Credits(a + Only(condition, [p])) == Credits(a) + (if condition then p.credit else 0)
    ensures AllWellFormed(a + Only(condition, [p])) <==> AllWellFormed(a) && (condition ==> WellFormed(p))
  {
    Extends(a, Only(condition, [p]));
    SumsOfOne(p);
    if condition { assert [p][0] == p; }
  }

  lemma ExtendsTwo(a: seq<Posting>, condition: bool, p: Posting, q: Posting)
    ensures Debits(a + Only(condition, [p, q])) == Debits(a) + (if condition then p.debit + q.debit else 0)
    ensures Credits(a + Only(condition, [p, q])) == Credits(a) + (if condition then p.credit + q.credit else 0)
    ensures AllWellFormed(a + Only(condition, [p, q])) <==>
      AllWellFormed(a) && (condition ==> WellFormed(p) && WellFormed(q))
  {
    Extends(a, Only(condition, [p, q]));
    SumsOfTwo(p, q);
    if condition { assert [p, q][0] == p && [p, q][1] == q; }
  }

  lemma PairSums(p: Posting, q: Posting)
    ensures Debits([p, q]) == p.debit + q.debit && Credits([p, q]) == p.credit + q.credit
    ensures AllWellFormed([p, q]) <==> WellFormed(p) && WellFormed(q)
  {
    SumsOfTwo(p, q);
    assert [p, q][0] == p && [p, q][1] == q;
  }

  /** A ride fare or service fee can be posted exactly when the commission is below the
      price: at commission = price the worker's line would be zero. */
  lemma FareListValid(payer: Account, worker: Account, price: int, commission: int)
    requires payer != NoAccount && worker != NoAccount && commission >= 0
    ensures Balanced(FareList(payer, worker, price, commission)) <==> commission < price
    ensures Balanced(ServiceWalletList(payer, worker, price, commission)) <==> commission < price
  {
    PairSums(Debit(payer, price), Credit(worker, price - commission));
    ExtendsOne([Debit(payer, price), Credit(worker, price - commission)], commission != 0,
      Credit(Ledger.Commission, commission));
  }

  /** A parcel paid from the wallet can be charged exactly when neither the coupon nor the
      commission takes the whole price. */
  lemma ParcelWalletListValid(p: ParcelRow, worker: Account)
    requires worker != NoAccount && p.commission >= 0 && p.discount >= 0
    ensures Balanced(ParcelWalletList(p, worker)) <==> p.discount < p.price && p.commission < p.price
  {
    var base := [Debit(UserWallet(p.customer), p.price - p.discount), Credit(worker, p.price - p.commission)];
    PairSums(base[0], base[1]);
    ExtendsOne(base, p.commission > 0, Credit(Ledger.Commission, p.commission));
    ExtendsOne(base + Only(p.commission > 0, [Credit(Ledger.Commission, p.commission)]), p.discount > 0,
      Debit(Marketing, p.discount));
  }

  /** What the ledger can say to a plan's list: it was posted before, or its accounts are there. */
  predicate LedgerKnows(b: Book, p: Plan) {
    Posted(b, p.key) || AccountsExist(Opened(b, p), TransactionOf(p))
  }

  /** In a book that covers it, a charge goes through exactly when its list is balanced, and
      otherwise ends in an error that leaves the job pending. */
  lemma PaidExactly(b: Book, p: Plan)
    requires Covered(b, p) && LedgerKnows(b, p) && p.postings != [] && HasFields(TransactionOf(p))
    ensures Answer(b, p) == if Balanced(p.postings) then Some(p.status) else None
  {
    assert Opened(b, p).rows == b.rows;
  }

  /** Wallet and business rides: paid exactly when the commission is below the price. */
  lemma RidePaidExactly(b: Book, id: nat, r: Job, currency: string)
    requires r.state == Completed && r.driver.Some? && r.finalPrice.Some? && r.terms.payBy != Cash
      && ValueOr(r.commission, 0) >= 0
    requires var p := RidePlan(id, r, currency).value; Covered(b, p) && LedgerKnows(b, p)
    ensures Answer(b, RidePlan(id, r, currency).value) ==
      if ValueOr(r.commission, 0) < r.finalPrice.value then Some(Paid) else None
  {
    var p := RidePlan(id, r, currency).value;
    FareListValid(p.payer.value, p.worker, r.finalPrice.value, ValueOr(r.commission, 0));
    PaidExactly(b, p);
  }

  /** Wallet services likewise. */
  lemma ServicePaidExactly(b: Book, r: ServiceRow)
    requires r.completed && r.payment == Pending && r.provider.Some? && r.price.Some? && r.payBy == Wallet
      && r.commission >= 0
    requires var p := ServicePlan(r).value; Covered(b, p) && LedgerKnows(b, p)
    ensures Answer(b, ServicePlan(r).value) == if r.commission < r.price.value then Some(Paid) else None
  {
    var p := ServicePlan(r).value;
    FareListValid(p.payer.value, p.worker, r.price.value, r.commission);
    PaidExactly(b, p);
  }

  /** Wallet parcels: paid exactly when neither the coupon nor the commission takes the price. */
  lemma ParcelPaidExactly(b: Book, p: ParcelRow)
    requires p.state == Completed && p.payment == Pending && p.courier.Some? && p.payBy == Wallet
    requires p.commission >= 0 && p.discount >= 0
    requires Covered(b, ParcelPlan(p).value) && LedgerKnows(b, ParcelPlan(p).value)
    ensures Answer(b, ParcelPlan(p).value) ==
      if p.discount < p.price && p.commission < p.price then Some(Paid) else None
  {
    ParcelWalletListValid(p, ParcelPlan(p).value.worker);
    PaidExactly(b, ParcelPlan(p).value);
  }

  /** Wallet orders: paid exactly when something is left to pay and the commission is below the goods. */
  lemma OrderPaidExactly(b: Book, o: OrderRow)
    requires o.delivered && o.payment == Pending && o.payBy == Wallet && Consistent(o)
    requires Covered(b, OrderPlan(o).value) && LedgerKnows(b, OrderPlan(o).value)
    ensures Answer(b, OrderPlan(o).value) == if o.total > 0 && OrderCommission(o) < o.items then Some(Paid) else None
  {
    OrderListsValid(o);
    PaidExactly(b, OrderPlan(o).value);
  }

  /** A new ledger in which the parcel's customer has topped up just what is owed. */
  function FundedFor(p: ParcelRow, worker: Account, amount: int): Book {
    var c := if p.currency == "" then "EUR" else p.currency;
    PostTo(Book(map[UserWallet(p.customer) := c, worker := c, Ledger.Commission := c, Marketing := c,
      CardClearing := c], [], []), Funding(p, amount))
  }

  function Funding(p: ParcelRow, amount: int): Transaction {
    Transaction("wallet_topup_card", "payment_intent", TopUp(0), p.currency,
      [Debit(CardClearing, amount), Credit(UserWallet(p.customer), amount)])
  }

  lemma FundingMoves(b: Book, p: ParcelRow, amount: int)
    requires amount > 0 && Sound(b) && !Posted(b, TopUp(0))
    requires forall a :: a in {UserWallet(p.customer), CardClearing} ==>
      a in b.accounts && b.accounts[a] == CurrencyOf(Funding(p, amount))
    ensures Fresh(b, Funding(p, amount)) && Sound(PostTo(b, Funding(p, amount)))
    ensures Balance(PostTo(b, Funding(p, amount)).entries, UserWallet(p.customer)) ==
      Balance(b.entries, UserWallet(p.customer)) + amount
  {
    PairSums(Debit(CardClearing, amount), Credit(UserWallet(p.customer), amount));
    PostKeepsSound(b, Funding(p, amount));
    PostMoves(b, Funding(p, amount), UserWallet(p.customer));
    DeltaOfTwo(Debit(CardClearing, amount), Credit(UserWallet(p.customer), amount), UserWallet(p.customer));
  }

  lemma FundedCovers(p: ParcelRow, worker: Account, amount: int)
    requires amount > 0 && worker.DriverWallet?
    ensures var b := FundedFor(p, worker, amount);
      && Sound(b) && Balance(b.entries, UserWallet(p.customer)) == amount
      && (forall a :: a in {UserWallet(p.customer), worker, Ledger.Commission, Marketing} ==>
          a in b.accounts && b.accounts[a] == CurrencyOf(Funding(p, amount)))
  {
    var c := CurrencyOf(Funding(p, amount));
    FundingMoves(Book(map[UserWallet(p.customer) := c, worker := c, Ledger.Commission := c, Marketing := c,
      CardClearing := c], [], []), p, amount);
  }

  lemma ParcelAccountsExist(b: Book, p: ParcelRow, worker: Account, tx: Transaction)
    requires tx.postings == ParcelWalletList(p, worker)
    requires forall a :: a in {UserWallet(p.customer), worker, Ledger.Commission, Marketing} ==>
      a in b.accounts && b.accounts[a] == CurrencyOf(tx)
    ensures AccountsExist(b, tx)
  {
    ParcelAccounts(p, worker);
  }

  lemma FundedKnows(b: Book, p: ParcelRow, plan: Plan)
    requires Some(plan) == ParcelPlan(p) && p.payBy == Wallet
    requires Balance(b.entries, UserWallet(p.customer)) == p.price - p.discount
    requires forall a :: a in {UserWallet(p.customer), plan.worker, Ledger.Commission, Marketing} ==>
      a in b.accounts && b.accounts[a] == CurrencyOf(TransactionOf(plan))
    ensures Covered(b, plan) && LedgerKnows(b, plan)
  {
    assert Settlement.Opened(b, plan) == b;
    ParcelAccountsExist(b, p, plan.worker, TransactionOf(plan));
  }

  /** So a delivered wallet parcel can never be paid, in any sound book that covers it, exactly
      when the coupon or the commission takes the whole price. */
  lemma ParcelStuck(p: ParcelRow)
    requires p.state == Completed && p.payment == Pending && p.courier.Some? && p.payBy == Wallet
    requires p.commission >= 0 && p.discount >= 0
    ensures (forall b :: Sound(b) && Covered(b, ParcelPlan(p).value) ==> Answer(b, ParcelPlan(p).value) == None)
      <==> p.discount >= p.price || p.commission >= p.price
  {
    ParcelWalletListValid(p, ParcelPlan(p).value.worker);
    if p.discount < p.price && p.commission < p.price {
      var plan := ParcelPlan(p).value;
      var b := FundedFor(p, plan.worker, p.price - p.discount);
      FundedCovers(p, plan.worker, p.price - p.discount);
      FundedKnows(b, p, plan);
      ParcelPaidExactly(b, p);
    }
  }

  lemma ParcelAccounts(p: ParcelRow, worker: Account)
    ensures forall i :: 0 <= i < |ParcelWalletList(p, worker)| ==>
      ParcelWalletList(p, worker)[i].account in {UserWallet(p.customer), worker, Ledger.Commission, Marketing}
  {
  }

  lemma ParcelCashListValid(p: ParcelRow, worker: Account)
    requires worker != NoAccount
    ensures ParcelCashList(p, worker) == [] || Balanced(ParcelCashList(p, worker))
  {
    CashCommissionListValid(worker, p.commission);
    ExtendsTwo(CashCommissionList(worker, p.commission), p.discount > 0, Credit(worker, p.discount),
      Debit(Marketing, p.discount));
  }

  lemma CashCommissionListValid(worker: Account, commission: int)
    requires worker != NoAccount
    ensures CashCommissionList(worker, commission) == [] || Balanced(CashCommissionList(worker, commission))
  {
    PairSums(Debit(worker, commission), Credit(Ledger.Commission, commission));
  }

  /** The figures checkout stores. */
  predicate Consistent(o: OrderRow) {
    && o.items >= 0 && o.fee >= 0 && 0 <= o.discount <= o.items && 0 <= o.commissionBP <= 10000
    && o.total == o.items + o.fee - o.discount
  }

  lemma OrderWalletPartsValid(user: Account, merchant: Account, total: int, items: int, c: int, fee: int, discount: int)
    requires user != NoAccount && merchant != NoAccount && c >= 0 && fee >= 0 && discount >= 0
      && total == items + fee - discount
    ensures Balanced(OrderWalletParts(user, merchant, total, items, c, fee, discount)) <==> total > 0 && c < items
  {
    var l0 := [Debit(user, total), Credit(merchant, items - c)];
    PairSums(l0[0], l0[1]);
    ExtendsOne(l0, c > 0, Credit(Ledger.Commission, c));
    var l1 := l0 + Only(c > 0, [Credit(Ledger.Commission, c)]);
    ExtendsOne(l1, fee > 0, Credit(DeliveryFees, fee));
    var l2 := l1 + Only(fee > 0, [Credit(DeliveryFees, fee)]);
    ExtendsOne(l2, discount > 0, Debit(Marketing, discount));
  }

  lemma AddsDebit(postings: seq<Posting>, a: Account, amount: nat)
    requires AllWellFormed(postings) && a != NoAccount
    ensures var r := postings + Only(amount > 0, [Debit(a, amount)]);
      AllWellFormed(r) && Debits(r) == Debits(postings) + amount && Credits(r) == Credits(postings)
  {
    ExtendsOne(postings, amount > 0, Debit(a, amount));
  }

  lemma AddsCredit(postings: seq<Posting>, a: Account, amount: nat)
    requires AllWellFormed(postings) && a != NoAccount
    ensures var r := postings + Only(amount > 0, [Credit(a, amount)]);
      AllWellFormed(r) && Debits(r) == Debits(postings) && Credits(r) == Credits(postings) + amount
  {
    ExtendsOne(postings, amount > 0, Credit(a, amount));
  }

  lemma CashFeesValid(merchant: Account, c: nat, fee: nat)
    requires merchant != NoAccount
    ensures var l := CashFees(merchant, c, fee);
      AllWellFormed(l) && Debits(l) == Credits(l) && (l == [] <==> c + fee == 0)
  {
    var l0 := Only(c + fee > 0, [Debit(merchant, c + fee)]);
    AddsDebit([], merchant, c + fee);
    assert [] + l0 == l0;
    AddsCredit(l0, Ledger.Commission, c);
    AddsCredit(l0 + Only(c > 0, [Credit(Ledger.Commission, c)]), DeliveryFees, fee);
  }

  lemma OrderCashPartsValid(merchant: Account, c: int, fee: int, discount: int)
    requires merchant != NoAccount && c >= 0 && fee >= 0
    ensures var l := OrderCashParts(merchant, c, fee, discount); l == [] || Balanced(l)
  {
    CashFeesValid(merchant, c, fee);
    ExtendsTwo(CashFees(merchant, c, fee), discount > 0, Credit(merchant, discount), Debit(Marketing, discount));
  }

  lemma NonNegativeCommission(o: OrderRow)
    requires Consistent(o)
    ensures OrderCommission(o) >= 0
  {
    assert o.items * o.commissionBP >= 0;
  }

  /** An order paid from the wallet can be charged exactly when something is left to pay
      and the commission is below the goods' price; one paid in cash always can. */
  lemma OrderListsValid(o: OrderRow)
    requires Consistent(o)
    ensures Balanced(OrderWalletList(o)) <==> o.total > 0 && OrderCommission(o) < o.items
    ensures OrderCashList(o) == [] || Balanced(OrderCashList(o))
  {
    var c := OrderCommission(o);
    NonNegativeCommission(o);
    OrderWalletPartsValid(UserWallet(o.customer), MerchantWallet(o.merchant), o.total, o.items, c, o.fee, o.discount);
    OrderCashPartsValid(MerchantWallet(o.merchant), c, o.fee, o.discount);
  }

  /** In terms of the rate: the half-up commission stays below the price exactly when the
      platform's complement is worth more than half a cent. */
  lemma CommissionBelowPrice(price: nat, bp: nat)
    requires bp <= 10000
    ensures Pricing.Commission(price, bp) < price <==> price * (10000 - bp) > 5000
  {
    assert price * (10000 - bp) == price * 10000 - price * bp;
  }

  // -------------------------------------------------------------- neutrality

  lemma DeltaExtendsOne(a: seq<Posting>, condition: bool, p: Posting, x: Account)
    ensures Delta(a + Only(condition, [p]), x) == Delta(a, x) + (if condition && p.account == x then p.Net() else 0)
  {
    DeltaAppends(a, Only(condition, [p]), x);
    DeltaOfOne(p, x);
  }

  lemma DeltaExtendsTwo(a: seq<Posting>, condition: bool, p: Posting, q: Posting, x: Account)
    ensures Delta(a + Only(condition, [p, q]), x) ==
      Delta(a, x) + (if condition && p.account == x then p.Net() else 0)
        + (if condition && q.account == x then q.Net() else 0)
  {
    DeltaAppends(a, Only(condition, [p, q]), x);
    DeltaOfTwo(p, q, x);
  }

  /** The hand-over of `amount` from the payer to the receiver, seen from account x. */
  function HandOver(from: Account, to: Account, amount: int, x: Account): int {
    (if x == to then amount else 0) - (if x == from then amount else 0)
  }

  lemma FareListMoves(payer: Account, worker: Account, price: int, commission: int, x: Account)
    ensures Delta(FareList(payer, worker, price, commission), x) ==
      HandOver(payer, worker, price, x) + HandOver(worker, Ledger.Commission, commission, x)
  {
    DeltaOfTwo(Debit(payer, price), Credit(worker, price - commission), x);
    DeltaExtendsOne([Debit(payer, price), Credit(worker, price - commission)], commission != 0,
      Credit(Ledger.Commission, commission), x);
  }

  lemma CashCommissionMoves(worker: Account, commission: int, x: Account)
    requires commission >= 0
    ensures Delta(CashCommissionList(worker, commission), x) == HandOver(worker, Ledger.Commission, commission, x)
  {
    DeltaOfTwo(Debit(worker, commission), Credit(Ledger.Commission, commission), x);
  }

  lemma ServiceListIsFareList(payer: Account, worker: Account, price: int, commission: int)
    requires commission >= 0
    ensures ServiceWalletList(payer, worker, price, commission) == FareList(payer, worker, price, commission)
  {
  }

  /** Rides and services: on every account, paying from a wallet comes to the same as
      handing the price over in cash and posting the cash list. */
  lemma FareNeutral(payer: Account, worker: Account, price: int, commission: int, x: Account)
    requires commission >= 0
    ensures Delta(FareList(payer, worker, price, commission), x) ==
      HandOver(payer, worker, price, x) + Delta(CashCommissionList(worker, commission), x)
    ensures Delta(ServiceWalletList(payer, worker, price, commission), x) ==
      HandOver(payer, worker, price, x) + Delta(CashCommissionList(worker, commission), x)
  {
    FareListMoves(payer, worker, price, commission, x);
    CashCommissionMoves(worker, commission, x);
    ServiceListIsFareList(payer, worker, price, commission);
  }

  /** What an amount booked on account `a` does to account `x`. */
  function On(a: Account, x: Account, amount: int): int { if a == x then amount else 0 }

  lemma DebitsOne(postings: seq<Posting>, a: Account, amount: nat, x: Account)
    ensures Delta(postings + Only(amount > 0, [Debit(a, amount)]), x) == Delta(postings, x) - On(a, x, amount)
  {
    DeltaExtendsOne(postings, amount > 0, Debit(a, amount), x);
  }

  lemma CreditsOne(postings: seq<Posting>, a: Account, amount: nat, x: Account)
    ensures Delta(postings + Only(amount > 0, [Credit(a, amount)]), x) == Delta(postings, x) + On(a, x, amount)
  {
    DeltaExtendsOne(postings, amount > 0, Credit(a, amount), x);
  }

  lemma StartsWith(payer: Account, paid: int, worker: Account, earned: int, x: Account)
    ensures Delta([Debit(payer, paid), Credit(worker, earned)], x) == On(worker, x, earned) - On(payer, x, paid)
  {
    DeltaOfTwo(Debit(payer, paid), Credit(worker, earned), x);
  }

  lemma ParcelWalletMoves(p: ParcelRow, worker: Account, x: Account)
    requires p.commission >= 0 && p.discount >= 0
    ensures Delta(ParcelWalletList(p, worker), x) ==
      On(worker, x, p.price - p.commission) - On(UserWallet(p.customer), x, p.price - p.discount)
      + On(Ledger.Commission, x, p.commission) - On(Marketing, x, p.discount)
  {
    var base := [Debit(UserWallet(p.customer), p.price - p.discount), Credit(worker, p.price - p.commission)];
    StartsWith(UserWallet(p.customer), p.price - p.discount, worker, p.price - p.commission, x);
    CreditsOne(base, Ledger.Commission, p.commission, x);
    DebitsOne(base + Only(p.commission > 0, [Credit(Ledger.Commission, p.commission)]), Marketing, p.discount, x);
  }

  lemma ParcelCashMoves(p: ParcelRow, worker: Account, x: Account)
    requires p.commission >= 0 && p.discount >= 0
    ensures Delta(ParcelCashList(p, worker), x) ==
      On(worker, x, p.discount - p.commission) + On(Ledger.Commission, x, p.commission) - On(Marketing, x, p.discount)
  {
    CashCommissionMoves(worker, p.commission, x);
    DeltaExtendsTwo(CashCommissionList(worker, p.commission), p.discount > 0, Credit(worker, p.discount),
      Debit(Marketing, p.discount), x);
  }

  lemma ParcelNeutral(p: ParcelRow, worker: Account, x: Account)
    requires p.commission >= 0 && p.discount >= 0
    ensures Delta(ParcelWalletList(p, worker), x) ==
      HandOver(UserWallet(p.customer), worker, p.price - p.discount, x) + Delta(ParcelCashList(p, worker), x)
  {
    ParcelWalletMoves(p, worker, x);
    ParcelCashMoves(p, worker, x);
  }

  lemma OrderWalletPartsMove(user: Account, merchant: Account, total: int, items: int, c: int, fee: int,
      discount: int, x: Account)
    requires c >= 0 && fee >= 0 && discount >= 0 && total == items + fee - discount
    ensures Delta(OrderWalletParts(user, merchant, total, items, c, fee, discount), x) ==
      On(merchant, x, items - c) - On(user, x, total) + On(Ledger.Commission, x, c) + On(DeliveryFees, x, fee)
        - On(Marketing, x, discount)
  {
    var l0 := [Debit(user, total), Credit(merchant, items - c)];
    StartsWith(user, total, merchant, items - c, x);
    CreditsOne(l0, Ledger.Commission, c, x);
    var l1 := l0 + Only(c > 0, [Credit(Ledger.Commission, c)]);
    CreditsOne(l1, DeliveryFees, fee, x);
    var l2 := l1 + Only(fee > 0, [Credit(DeliveryFees, fee)]);
    DebitsOne(l2, Marketing, discount, x);
  }

  lemma CashFeesMove(merchant: Account, c: nat, fee: nat, x: Account)
    ensures Delta(CashFees(merchant, c, fee), x) ==
      On(Ledger.Commission, x, c) + On(DeliveryFees, x, fee) - On(merchant, x, c + fee)
  {
    var l0 := Only(c + fee > 0, [Debit(merchant, c + fee)]);
    DebitsOne([], merchant, c + fee, x);
    assert [] + l0 == l0;
    CreditsOne(l0, Ledger.Commission, c, x);
    CreditsOne(l0 + Only(c > 0, [Credit(Ledger.Commission, c)]), DeliveryFees, fee, x);
  }

  lemma OnAdds(a: Account, x: Account, m: int, n: int)
    ensures On(a, x, m) + On(a, x, n) == On(a, x, m + n)
  {
  }

  lemma CashPartsAre(merchant: Account, c: nat, fee: nat, discount: nat)
    ensures OrderCashParts(merchant, c, fee, discount) ==
      CashFees(merchant, c, fee) + Only(discount > 0, [Credit(merchant, discount), Debit(Marketing, discount)])
  {
  }

  lemma CouponMoves(postings: seq<Posting>, merchant: Account, discount: nat, x: Account)
    ensures Delta(postings + Only(discount > 0, [Credit(merchant, discount), Debit(Marketing, discount)]), x) ==
      Delta(postings, x) + On(merchant, x, discount) - On(Marketing, x, discount)
  {
    DeltaExtendsTwo(postings, discount > 0, Credit(merchant, discount), Debit(Marketing, discount), x);
  }

  lemma OrderCashPartsMove(merchant: Account, c: int, fee: int, discount: int, x: Account)
    requires c >= 0 && fee >= 0 && discount >= 0
    ensures Delta(OrderCashParts(merchant, c, fee, discount), x) ==
      On(merchant, x, discount - c - fee) + On(Ledger.Commission, x, c) + On(DeliveryFees, x, fee)
        - On(Marketing, x, discount)
  {
    CashPartsAre(merchant, c, fee, discount);
    CashFeesMove(merchant, c, fee, x);
    CouponMoves(CashFees(merchant, c, fee), merchant, discount, x);
    OnAdds(merchant, x, discount - c - fee, c + fee);
  }

  lemma OrderWalletMoves(o: OrderRow, x: Account)
    requires Consistent(o)
    ensures Delta(OrderWalletList(o), x) ==
      HandOver(UserWallet(o.customer), MerchantWallet(o.merchant), o.total, x)
      + HandOver(Marketing, MerchantWallet(o.merchant), o.discount, x)
      + HandOver(MerchantWallet(o.merchant), Ledger.Commission, OrderCommission(o), x)
      + HandOver(MerchantWallet(o.merchant), DeliveryFees, o.fee, x)
  {
    NonNegativeCommission(o);
    OrderWalletPartsMove(UserWallet(o.customer), MerchantWallet(o.merchant), o.total, o.items, OrderCommission(o),
      o.fee, o.discount, x);
  }

  lemma OrderCashMoves(o: OrderRow, x: Account)
    requires Consistent(o)
    ensures Delta(OrderCashList(o), x) ==
      HandOver(Marketing, MerchantWallet(o.merchant), o.discount, x)
      + HandOver(MerchantWallet(o.merchant), Ledger.Commission, OrderCommission(o), x)
      + HandOver(MerchantWallet(o.merchant), DeliveryFees, o.fee, x)
  {
    NonNegativeCommission(o);
    OrderCashPartsMove(MerchantWallet(o.merchant), OrderCommission(o), o.fee, o.discount, x);
  }

  /** What a party of an order ends up with, however it was paid; `cash` is what the
      party holds in hand after a cash payment. */
  lemma OrderPositions(o: OrderRow, x: Account, cash: int)
    requires Consistent(o) && cash == HandOver(UserWallet(o.customer), MerchantWallet(o.merchant), o.total, x)
    ensures Delta(OrderWalletList(o), x) == cash + Delta(OrderCashList(o), x)
    ensures x == MerchantWallet(o.merchant) ==> Delta(OrderWalletList(o), x) == o.items - OrderCommission(o)
    ensures x == UserWallet(o.customer) ==> Delta(OrderWalletList(o), x) == -o.total && Delta(OrderCashList(o), x) == 0
    ensures x == Marketing ==> Delta(OrderCashList(o), x) == -o.discount
    ensures x == DeliveryFees ==> Delta(OrderCashList(o), x) == o.fee
    ensures x == Ledger.Commission ==> Delta(OrderCashList(o), x) == OrderCommission(o)
  {
    OrderWalletMoves(o, x);
    OrderCashMoves(o, x);
  }

  /** A coupon moves money between the customer and marketing only. */
  lemma OrderCouponNeutral(o: OrderRow, x: Account)
    requires Consistent(o)
    ensures var plain := o.(discount := 0, total := o.items + o.fee);
      && Delta(OrderWalletList(o), x) == Delta(OrderWalletList(plain), x)
          + HandOver(Marketing, UserWallet(o.customer), o.discount, x)
      && Delta(OrderCashList(o), x) == Delta(OrderCashList(plain), x)
          + HandOver(Marketing, MerchantWallet(o.merchant), o.discount, x)
  {
    var plain := o.(discount := 0, total := o.items + o.fee);
    OrderWalletMoves(o, x);
    OrderWalletMoves(plain, x);
    OrderCashMoves(o, x);
    OrderCashMoves(plain, x);
  }

  lemma ParcelCouponNeutral(p: ParcelRow, worker: Account, x: Account)
    requires p.commission >= 0 && p.discount >= 0
    ensures var plain := p.(discount := 0);
      Delta(ParcelWalletList(p, worker), x) == Delta(ParcelWalletList(plain, worker), x)
        + HandOver(Marketing, UserWallet(p.customer), p.discount, x)
  {
    ParcelWalletMoves(p, worker, x);
    ParcelWalletMoves(p.(discount := 0), worker, x);
  }
}
