/** Turning a cart into a quote, and a quote into an order. */
module Checkout {
  import opened Basics
  import opened CatalogPricing
  import Dispatch
  import Promos
  import PromoProofs
  import Settlement
  import SettlementProofs

  datatype Merchant = Merchant(active: bool, accepting: bool, fulfillment: string, minOrder: int, deliveryFee: int,
    commissionBP: int)

  datatype Cart = Cart(customer: nat, merchant: nat, items: seq<Selection>, payBy: string, fulfillment: string,
    addressed: bool, coupon: string)

  datatype Quote = Quote(lines: seq<Line>, items: int, fee: int, discount: int, coupon: string, total: int,
    minOrder: int, currency: string, open: bool)

  datatype CheckoutError =
    | InvalidCart
    | UnknownMerchant
    | Closed
    | BadLine(line: PriceError)
    | BadCoupon(coupon: Promos.CouponError)
    | CardNotTaken
    | BelowMinimum
    | AddressRequired
    | Insufficient

  datatype Quoted = Priced(quote: Quote) | Rejected(error: CheckoutError)

  function ItemsTotal(lines: seq<Line>): int {
    if lines == [] then 0 else ItemsTotal(lines[..|lines| - 1]) + lines[|lines| - 1].total
  }

  function Mode(m: Merchant, cart: Cart): string { if cart.fulfillment == "" then m.fulfillment else cart.fulfillment }

  function Fee(m: Merchant, cart: Cart): int { if Mode(m, cart) == "pickup" then 0 else m.deliveryFee }

  ghost predicate LinesPriced(t: Tables, merchant: nat, items: seq<Selection>, lines: seq<Line>) {
    |lines| == |items| && forall i :: 0 <= i < |items| ==> PriceOf(t, merchant, items[i]) == Ok(lines[i])
  }

  ghost predicate AllSellable(t: Tables, merchant: nat, items: seq<Selection>) {
    forall i :: 0 <= i < |items| ==> Sellable(t, merchant, items[i])
  }

  /** The lines of a cart whose items can all be sold. */
  ghost function LinesOf(t: Tables, merchant: nat, items: seq<Selection>): (lines: seq<Line>)
    requires AllSellable(t, merchant, items)
    ensures LinesPriced(t, merchant, items, lines)
  {
    seq(|items|, i requires 0 <= i < |items| => PriceOf(t, merchant, items[i]).line)
  }

  lemma LinesAreOne(t: Tables, merchant: nat, items: seq<Selection>, lines: seq<Line>)
    requires LinesPriced(t, merchant, items, lines)
    ensures AllSellable(t, merchant, items) && lines == LinesOf(t, merchant, items)
  {
    forall i | 0 <= i < |items|
      ensures Sellable(t, merchant, items[i])
    {
      assert PriceOf(t, merchant, items[i]) == Ok(lines[i]);
    }
    forall i | 0 <= i < |items|
      ensures lines[i] == LinesOf(t, merchant, items)[i]
    {
      assert PriceOf(t, merchant, items[i]) == Ok(lines[i]);
    }
  }

  ghost predicate Selling(merchants: map<nat, Merchant>, cart: Cart) {
    && 1 <= |cart.items| <= 50
    && cart.merchant in merchants && merchants[cart.merchant].active && merchants[cart.merchant].accepting
  }

  /** The coupon, if any, that applies to this cart. */
  ghost predicate CouponApplies(b: Promos.Books, cart: Cart, items: int, now: int) {
    cart.coupon != "" ==>
      && |cart.coupon| <= 32 && cart.coupon in b.coupons
      && Promos.Check(b.coupons[cart.coupon], Promos.SCOPE_FOOD,
          Promos.CountFor(b.redemptions, cart.coupon, cart.customer), now).None?
      && items >= b.coupons[cart.coupon].minOrder
  }

  /** The cart can be quoted. */
  ghost predicate Quotable(t: Tables, merchants: map<nat, Merchant>, b: Promos.Books, cart: Cart, now: int) {
    && Selling(merchants, cart) && AllSellable(t, cart.merchant, cart.items)
    && CouponApplies(b, cart, ItemsTotal(LinesOf(t, cart.merchant, cart.items)), now)
  }

  function DiscountOf(b: Promos.Books, cart: Cart, items: int): int {
    if cart.coupon != "" && cart.coupon in b.coupons then Promos.Discount(b.coupons[cart.coupon], items) else 0
  }

  ghost predicate FirstBadLine(t: Tables, merchant: nat, items: seq<Selection>, lines: seq<Line>, e: PriceError) {
    var i := |lines|;
    i < |items| && LinesPriced(t, merchant, items[..i], lines) && PriceOf(t, merchant, items[i]) == Err(e)
  }

  lemma OneMoreLine(t: Tables, merchant: nat, items: seq<Selection>, i: nat, lines: seq<Line>, line: Line)
    requires i < |items| && LinesPriced(t, merchant, items[..i], lines) && PriceOf(t, merchant, items[i]) == Ok(line)
    ensures LinesPriced(t, merchant, items[..i + 1], lines + [line])
    ensures ItemsTotal(lines + [line]) == ItemsTotal(lines) + line.total
  {
    assert (lines + [line])[..i] == lines;
    forall k | 0 <= k < i
      ensures PriceOf(t, merchant, items[..i + 1][k]) == Ok((lines + [line])[k])
    {
      assert items[..i + 1][k] == items[..i][k];
    }
  }

  lemma BadLineNotSellable(t: Tables, merchant: nat, items: seq<Selection>, lines: seq<Line>, e: PriceError)
    requires FirstBadLine(t, merchant, items, lines, e)
    ensures !AllSellable(t, merchant, items)
  {
    assert !Sellable(t, merchant, items[|lines|]);
  }

  /** One line per item, or the first item's error. */
  method PriceLines(t: Tables, merchant: nat, items: seq<Selection>)
      returns (error: Option<PriceError>, lines: seq<Line>, total: int)
    requires Schema(t)
    ensures error.None? ==> LinesPriced(t, merchant, items, lines) && total == ItemsTotal(lines)
    ensures error.Some? ==> FirstBadLine(t, merchant, items, lines, error.value)
  {
    lines, total := [], 0;
    for i := 0 to |items|
      invariant |lines| == i && LinesPriced(t, merchant, items[..i], lines) && total == ItemsTotal(lines)
    {
      var r := Price(t, merchant, items[i]);
      if r.Err? { return Some(r.error), lines, total; }
      OneMoreLine(t, merchant, items, i, lines, r.line);
      lines, total := lines + [r.line], total + r.line.total;
    }
    assert items[..|items|] == items;
    error := None;
  }

  /** Every line, and so their sum, is non-negative. */
  lemma {:induction false} ItemsNeverNegative(t: Tables, merchant: nat, items: seq<Selection>, lines: seq<Line>)
    requires LinesPriced(t, merchant, items, lines)
    ensures ItemsTotal(lines) >= 0
  {
    if lines != [] {
      var n := |lines| - 1;
      ItemsNeverNegative(t, merchant, items[..n], lines[..n]);
      assert PriceOf(t, merchant, items[n]) == Ok(lines[n]);
      assert lines[n].total == lines[n].unit * lines[n].quantity;
    }
  }

  /** The quote: item totals, plus the delivery fee, less the coupon. */
  method PriceCart(t: Tables, merchants: map<nat, Merchant>, open: bool, promos: Promos.Service, cart: Cart, now: int)
    returns (r: Quoted)
    requires Schema(t)
    ensures r.Priced? <==> Quotable(t, merchants, promos.Now(), cart, now)
    ensures r.Priced? ==>
      var m := merchants[cart.merchant];
      && r.quote.lines == LinesOf(t, cart.merchant, cart.items)
      && r.quote.items == ItemsTotal(r.quote.lines) && r.quote.fee == Fee(m, cart)
      && r.quote.discount == DiscountOf(promos.Now(), cart, r.quote.items)
      && r.quote.total == r.quote.items + r.quote.fee - r.quote.discount
      && r.quote.coupon == cart.coupon && r.quote.minOrder == m.minOrder && r.quote.open == open
    ensures r.Priced? ==> 0 <= r.quote.discount <= r.quote.items && r.quote.total >= r.quote.fee
  {
    if |cart.items| == 0 || |cart.items| > 50 { return Rejected(InvalidCart); }
    if cart.merchant !in merchants { return Rejected(UnknownMerchant); }
    var m := merchants[cart.merchant];
    if !m.active || !m.accepting { return Rejected(Closed); }
    var error, lines, items := PriceLines(t, cart.merchant, cart.items);
    if error.Some? {
      BadLineNotSellable(t, cart.merchant, cart.items, lines, error.value);
      return Rejected(BadLine(error.value));
    }
    LinesAreOne(t, cart.merchant, cart.items, lines);
    ItemsNeverNegative(t, cart.merchant, cart.items, lines);
    var discount := 0;
    if cart.coupon != "" {
      var applied := promos.Apply(cart.coupon, cart.customer, Promos.SCOPE_FOOD, items, now);
      if applied.Refused? { return Rejected(BadCoupon(applied.error)); }
      discount := applied.discount;
      PromoProofs.DiscountWithinBase(promos.coupons[cart.coupon], items);
    }
    var currency := lines[|lines| - 1].currency;
    return Priced(Quote(lines, items, Fee(m, cart), discount, cart.coupon, items + Fee(m, cart) - discount,
      m.minOrder, currency, open));
  }

  // ---------------------------------------------------------------- the orders

  /** Everything a new order needs beyond a well-formed request. */
  ghost predicate Placeable(t: Tables, merchants: map<nat, Merchant>, open: bool, b: Promos.Books, cart: Cart,
      balance: int, now: int) {
    && Quotable(t, merchants, b, cart, now) && open
    && var m, items := merchants[cart.merchant], ItemsTotal(LinesOf(t, cart.merchant, cart.items));
    && items >= m.minOrder && (Mode(m, cart) == "pickup" || cart.addressed)
    && (cart.payBy == "wallet" ==> balance >= items + Fee(m, cart) - DiscountOf(b, cart, items))
  }

  datatype Placed = Placed(order: Settlement.OrderRow) | Refused(error: CheckoutError)

  class Orders {
    var rows: seq<Settlement.OrderRow>
    var keys: map<(nat, string), nat>    // (customer, idempotency key) -> row

    ghost predicate Valid()
      reads this
    {
      && (forall k :: k in keys ==> keys[k] < |rows|)
      && (forall i :: 0 <= i < |rows| ==> rows[i].id == i && SettlementProofs.Consistent(rows[i]))
    }

    /** Redemptions are of orders already placed, so a new order's reference is always fresh. */
    ghost predicate ReferencesOf(b: Promos.Books)
      reads this
    {
      forall i :: 0 <= i < |b.redemptions| && b.redemptions[i].reference.OrderReference? ==>
        b.redemptions[i].reference.id < |rows|
    }

    constructor ()
      ensures Valid() && rows == [] && keys == map[]
    {
      rows, keys := [], map[];
    }

    /** The transaction of a checkout: the order's row, its key, and the coupon consumed with it. */
    method Insert(promos: Promos.Service, o: Settlement.OrderRow, key: string, coupon: string, now: int)
      returns (error: Option<Promos.CouponError>)
      requires Valid() && ReferencesOf(promos.Now()) && o.id == |rows| && SettlementProofs.Consistent(o)
      modifies this, promos
      ensures Valid() && ReferencesOf(promos.Now())
      ensures error.None? <==>
        coupon == ""
          || Promos.RedeemError(old(promos.Now()), coupon, o.customer, Promos.OrderReference(o.id), o.discount,
            now).None?
      ensures error.Some? ==> rows == old(rows) && keys == old(keys) && promos.Now() == old(promos.Now())
      ensures error.None? ==>
        && rows == old(rows) + [o] && keys == old(keys)[(o.customer, key) := |old(rows)|]
        && promos.Now() == AfterCheckout(old(promos.Now()), coupon, o, now)
        && (coupon != "" ==> |promos.redemptions| == |old(promos.redemptions)| + 1)
    {
      if coupon != "" {
        var redeemed := promos.Redeem(coupon, o.customer, Promos.OrderReference(o.id), o.discount, now);
        if redeemed.Failed? { return Some(redeemed.error); }
      }
      rows, keys := rows + [o], keys[(o.customer, key) := |rows|];
      return None;
    }

    /** Checkout. `balance` is the customer's wallet, zero when there is none. */
    method Create(t: Tables, merchants: map<nat, Merchant>, open: bool, promos: Promos.Service, cart: Cart, key: string,
        balance: int, now: int)
      returns (r: Placed)
      requires Valid() && Schema(t) && ReferencesOf(promos.Now())
      requires forall m :: m in merchants ==> merchants[m].deliveryFee >= 0 && 0 <= merchants[m].commissionBP <= 5000
      modifies this, promos
      ensures Valid() && ReferencesOf(promos.Now())
      ensures r.Placed? <==>
        && cart.payBy in ["cash", "wallet"] && 1 <= |key| <= 100
        && ((cart.customer, key) in old(keys) || Placeable(t, merchants, open, old(promos.Now()), cart, balance, now))
      ensures r.Placed? ==> SettlementProofs.Consistent(r.order)
      ensures r.Refused? ==> rows == old(rows) && keys == old(keys) && promos.Now() == old(promos.Now())
      ensures r.Placed? && (cart.customer, key) in old(keys) ==>
        && rows == old(rows) && keys == old(keys) && promos.Now() == old(promos.Now())
        && r.order == rows[keys[(cart.customer, key)]]
      ensures r.Placed? && (cart.customer, key) !in old(keys) ==>
        && rows == old(rows) + [r.order] && keys == old(keys)[(cart.customer, key) := |old(rows)|]
        && promos.Now() == AfterCheckout(old(promos.Now()), cart.coupon, r.order, now)
        && (cart.coupon != "" ==> |promos.redemptions| == |old(promos.redemptions)| + 1)
        && r.order.items == ItemsTotal(LinesOf(t, cart.merchant, cart.items))
        && r.order.fee == Fee(merchants[cart.merchant], cart)
        && r.order.discount == DiscountOf(old(promos.Now()), cart, r.order.items)
        && r.order.payBy == (if cart.payBy == "wallet" then Dispatch.Wallet else Dispatch.Cash)
        && r.order.customer == cart.customer && r.order.merchant == cart.merchant && r.order.id == |old(rows)|
        && !r.order.delivered && r.order.payment == Dispatch.Pending
        && r.order.total == r.order.items + r.order.fee - r.order.discount
        && r.order.commissionBP == merchants[cart.merchant].commissionBP
    {
      if cart.payBy == "card" { return Refused(CardNotTaken); }
      if key == "" || |key| > 100 || cart.payBy !in ["cash", "wallet"] { return Refused(InvalidCart); }
      if (cart.customer, key) in keys { return Placed.Placed(rows[keys[(cart.customer, key)]]); }
      var quoted := PriceCart(t, merchants, open, promos, cart, now);
      if quoted.Rejected? { return Refused(quoted.error); }
      var q, m := quoted.quote, merchants[cart.merchant];
      if !q.open { return Refused(Closed); }
      if q.items < m.minOrder { return Refused(BelowMinimum); }
      if Mode(m, cart) != "pickup" && !cart.addressed { return Refused(AddressRequired); }
      if cart.payBy == "wallet" && balance < q.total { return Refused(Insufficient); }
      var o := Settlement.OrderRow(|rows|, cart.customer, cart.merchant, false,
        if cart.payBy == "wallet" then Dispatch.Wallet else Dispatch.Cash,
        Dispatch.Pending, q.items, q.fee, q.discount, q.total, m.commissionBP, q.currency);
      OfferIsTaken(promos.Now(), cart, q.items, o.id, now);
      var error := Insert(promos, o, key, q.coupon, now);
      if error.Some? { return Refused(BadCoupon(error.value)); }
      return Placed.Placed(o);
    }
  }

  /** The redemption cannot refuse what the quote accepted on the same tables. */
  lemma OfferIsTaken(b: Promos.Books, cart: Cart, items: int, id: nat, now: int)
    requires CouponApplies(b, cart, items, now) && !Promos.Referenced(b.redemptions, Promos.OrderReference(id))
    ensures cart.coupon != "" ==>
      Promos.RedeemError(b, cart.coupon, cart.customer, Promos.OrderReference(id), DiscountOf(b, cart, items),
        now).None?
  {
    if cart.coupon != "" {
      PromoProofs.OfferCanBeTaken(b, cart.coupon, cart.customer, Promos.SCOPE_FOOD, items, Promos.OrderReference(id),
        now);
    }
  }

  /** The coupon tables after an order is placed. */
  ghost function AfterCheckout(b: Promos.Books, coupon: string, o: Settlement.OrderRow, now: int): Promos.Books {
    if coupon == "" then b
    else Promos.Next(b, Promos.Change.Redeem(coupon, o.customer, Promos.OrderReference(o.id), o.discount, now))
  }
}
