/** When a cart can be quoted and an order placed, what the delivery fee is and what a coupon's use
    leaves, in the columns of the tables. */
module CheckoutTerms {
  import opened Basics
  import opened CatalogPricing
  import opened Checkout
  import Promos
  import Settlement

  /** Only what is picked up pays no delivery fee; the cart decides, or else the merchant. */
  lemma FeeIs(m: Merchant, cart: Cart)
    ensures Fee(m, cart) ==
      if cart.fulfillment == "pickup" || (cart.fulfillment == "" && m.fulfillment == "pickup") then 0 else m.deliveryFee
  {
  }

  /** The items add up. */
  lemma {:induction false} TotalsAdd(a: seq<Line>, b: seq<Line>)
    ensures ItemsTotal(a + b) == ItemsTotal(a) + ItemsTotal(b)
  {
    if b == [] {
      assert a + b == a;
    } else {
      assert (a + b)[..|a + b| - 1] == a + b[..|b| - 1];
      TotalsAdd(a, b[..|b| - 1]);
    }
  }

  lemma TotalOfOne(line: Line)
    ensures ItemsTotal([]) == 0 && ItemsTotal([line]) == line.total
  {
    assert [line][..0] == [];
  }

  /** The coupon of a cart may be used: it is active, meant for food or for everything, in date, not
      used up, and the goods reach its minimum. */
  predicate Usable(b: Promos.Books, code: string, customer: nat, items: int, now: int) {
    && |code| <= 32 && code in b.coupons
    && var c := b.coupons[code];
       && c.active && c.scope in {"all", "food"} && items >= c.minOrder
       && (c.startsAt.Some? ==> c.startsAt.value <= now) && (c.endsAt.Some? ==> now <= c.endsAt.value)
       && (c.maxUses.Some? ==> c.usesCount < c.maxUses.value)
       && (c.maxUsesPerUser.Some? ==> Promos.CountFor(b.redemptions, code, customer) < c.maxUsesPerUser.value)
  }

  /** A cart can be quoted exactly when it has one to fifty items that can all be sold, the merchant is
      there and takes orders, and its coupon, if any, may be used. */
  lemma QuotableIs(t: Tables, merchants: map<nat, Merchant>, b: Promos.Books, cart: Cart, now: int)
    ensures Quotable(t, merchants, b, cart, now) <==>
      && 1 <= |cart.items| <= 50
      && cart.merchant in merchants && merchants[cart.merchant].active && merchants[cart.merchant].accepting
      && AllSellable(t, cart.merchant, cart.items)
      && (cart.coupon != "" ==>
            Usable(b, cart.coupon, cart.customer, ItemsTotal(LinesOf(t, cart.merchant, cart.items)), now))
  {
  }

  /** An order can be placed exactly when its cart can be quoted, the merchant is open, the goods reach
      his minimum, there is an address to deliver to, and a wallet that pays holds the total. */
  lemma PlaceableIs(t: Tables, merchants: map<nat, Merchant>, open: bool, b: Promos.Books, cart: Cart, balance: int,
      now: int)
    ensures Placeable(t, merchants, open, b, cart, balance, now) <==>
      && Quotable(t, merchants, b, cart, now) && open
      && var m, items := merchants[cart.merchant], ItemsTotal(LinesOf(t, cart.merchant, cart.items));
         var pickup := cart.fulfillment == "pickup" || (cart.fulfillment == "" && m.fulfillment == "pickup");
         var fee := if pickup then 0 else m.deliveryFee;
         var discount := if cart.coupon == "" then 0 else Promos.Discount(b.coupons[cart.coupon], items);
         && items >= m.minOrder && (pickup || cart.addressed)
         && (cart.payBy == "wallet" ==> balance >= items + fee - discount)
  {
  }

  /** Placing an order uses its coupon once, for that order and its discount. */
  lemma CouponUsedOnce(b: Promos.Books, coupon: string, o: Settlement.OrderRow, now: int)
    requires coupon != "" ==>
      Promos.RedeemError(b, coupon, o.customer, Promos.OrderReference(o.id), o.discount, now).None?
    ensures AfterCheckout(b, coupon, o, now) ==
      if coupon == "" then b
      else Promos.Books(
        b.coupons[coupon := b.coupons[coupon].(usesCount := b.coupons[coupon].usesCount + 1)],
        b.redemptions + [Promos.Redemption(coupon, o.customer, Promos.OrderReference(o.id), o.discount)])
  {
  }
}
