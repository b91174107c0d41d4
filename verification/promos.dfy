/** Discount coupons: what one takes off, who may use it, and how its uses are counted. */
module Promos {
  import opened Basics

  datatype Coupon = Coupon(
    kind: string, percentBP: int, amount: int, minOrder: int, scope: string,
    startsAt: Option<int>, endsAt: Option<int>, maxUses: Option<int>, maxUsesPerUser: Option<int>,
    usesCount: int, active: bool)

  /** What a redemption is for; unique in the table. */
  datatype Reference = OrderReference(id: nat) | ParcelReference(id: nat)

  datatype Redemption = Redemption(code: string, user: nat, reference: Reference, discount: int)

  datatype Books = Books(coupons: map<string, Coupon>, redemptions: seq<Redemption>)

  datatype CouponError = Invalid | NotApplicable | Expired | UsedUp | MinOrder | NotFound | Validation | Constraint

  datatype Reply = Done | Failed(error: CouponError)

  datatype Applied = Applied(kind: string, discount: int) | Refused(error: CouponError)

  const SCOPE_ALL := "all"
  const SCOPE_FOOD := "food"
  const SCOPE_PARCELS := "parcels"

  function Discount(c: Coupon, base: int): int {
    if base <= 0 then 0
    else
      var d :=
        if c.kind == "percent" then GoDiv(base * c.percentBP + 5000, 10000)
        else if c.kind == "fixed" then c.amount
        else 0;
      var capped := if d > base then base else d;
      if capped < 0 then 0 else capped
  }

  /** A percent coupon takes its share of the base, the half cent going up; a fixed one its amount, but
      no more than the base; no other kind takes anything. */
  lemma DiscountIs(c: Coupon, base: int)
    requires base >= 0
    ensures c.kind == "percent" && 0 <= c.percentBP <= 10000 ==>
      10000 * Discount(c, base) <= base * c.percentBP + 5000 < 10000 * Discount(c, base) + 10000
    ensures c.kind == "fixed" && c.amount >= 0 ==> Discount(c, base) == if c.amount < base then c.amount else base
    ensures c.kind !in {"percent", "fixed"} ==> Discount(c, base) == 0
  {
    if c.kind == "percent" && 0 <= c.percentBP <= 10000 && base > 0 {
      var share := base * c.percentBP;
      PartOfBase(base, c.percentBP);
      HalfUp(share, base);
    }
  }

  lemma PartOfBase(base: nat, bp: nat)
    requires bp <= 10000
    ensures 0 <= base * bp <= base * 10000
  {
  }

  lemma HalfUp(share: int, base: int)
    requires 0 <= share <= base * 10000
    ensures var d := GoDiv(share + 5000, 10000); 10000 * d <= share + 5000 < 10000 * d + 10000 && 0 <= d <= base
  {
  }

  /** The first rule the coupon breaks, in the order they are tried. */
  function Check(c: Coupon, scope: string, userUses: int, now: int): Option<CouponError> {
    if !c.active then Some(Invalid)
    else if c.scope != SCOPE_ALL && c.scope != scope then Some(NotApplicable)
    else if c.startsAt.Some? && now < c.startsAt.value then Some(Expired)
    else if c.endsAt.Some? && now > c.endsAt.value then Some(Expired)
    else if c.maxUses.Some? && c.usesCount >= c.maxUses.value then Some(UsedUp)
    else if c.maxUsesPerUser.Some? && userUses >= c.maxUsesPerUser.value then Some(UsedUp)
    else None
  }

  function CountOf(rs: seq<Redemption>, code: string): nat {
    if rs == [] then 0
    else CountOf(rs[..|rs| - 1], code) + if rs[|rs| - 1].code == code then 1 else 0
  }

  function CountFor(rs: seq<Redemption>, code: string, user: nat): nat {
    if rs == [] then 0
    else CountFor(rs[..|rs| - 1], code, user) + if rs[|rs| - 1].code == code && rs[|rs| - 1].user == user then 1 else 0
  }

  predicate Referenced(rs: seq<Redemption>, reference: Reference) {
    exists i :: 0 <= i < |rs| && rs[i].reference == reference
  }

  // ----------------------------------------------------------------- the steps

  datatype Change =
    | Redeem(code: string, user: nat, reference: Reference, discount: int, now: int)
    | Upsert(code: string, terms: Coupon)
    | SetActive(code: string, active: bool)

  /** Why a redemption is refused: the same check as when applying, for the scope of all
      orders, except that a coupon of a narrower scope passes unexamined. */
  function RedeemError(b: Books, code: string, user: nat, reference: Reference, discount: int,
      now: int): Option<CouponError> {
    if code !in b.coupons then Some(Invalid)
    else
      var e := Check(b.coupons[code], SCOPE_ALL, CountFor(b.redemptions, code, user), now);
      if e.Some? && e != Some(NotApplicable) then e
      else if discount < 0 || Referenced(b.redemptions, reference) then Some(Constraint)
      else None
  }

  /** What an administrator's input must satisfy, and then the table's own checks. */
  function UpsertError(code: string, t: Coupon): Option<CouponError> {
    if || !(3 <= |code| <= 32)
       || !(if t.kind == "percent" then 0 < t.percentBP <= 10000 else t.kind == "fixed" && t.amount > 0)
       || t.scope !in ["", SCOPE_ALL, SCOPE_FOOD, SCOPE_PARCELS]
       || t.minOrder < 0
       || (t.startsAt.Some? && t.endsAt.Some? && t.endsAt.value < t.startsAt.value)
    then Some(Validation)
    else if !(0 <= t.percentBP <= 10000) || t.amount < 0 then Some(Constraint)
    else None
  }

  /** The row an upsert leaves: the given terms, but the count of uses it already had. */
  function Row(b: Books, code: string, t: Coupon): Coupon {
    t.(scope := if t.scope == "" then SCOPE_ALL else t.scope,
       usesCount := if code in b.coupons then b.coupons[code].usesCount else 0)
  }

  function Refusal(b: Books, c: Change): Option<CouponError> {
    match c
    case Redeem(code, user, reference, discount, now) => RedeemError(b, code, user, reference, discount, now)
    case Upsert(code, t) => UpsertError(code, t)
    case SetActive(code, _) => if code in b.coupons then None else Some(NotFound)
  }

  function Next(b: Books, c: Change): Books {
    if Refusal(b, c).Some? then b
    else match c
      case Redeem(code, user, reference, discount, _) =>
        Books(b.coupons[code := b.coupons[code].(usesCount := b.coupons[code].usesCount + 1)],
              b.redemptions + [Redemption(code, user, reference, discount)])
      case Upsert(code, t) => b.(coupons := b.coupons[code := Row(b, code, t)])
      case SetActive(code, active) => b.(coupons := b.coupons[code := b.coupons[code].(active := active)])
  }

  function Run(b: Books, changes: seq<Change>): Books {
    if changes == [] then b else Next(Run(b, changes[..|changes| - 1]), changes[|changes| - 1])
  }

  // ----------------------------------------------------------------- the tables

  class Service {
    var coupons: map<string, Coupon>
    var redemptions: seq<Redemption>

    function Now(): Books
      reads this
    {
      Books(coupons, redemptions)
    }

    constructor ()
      ensures Now() == Books(map[], [])
    {
      coupons, redemptions := map[], [];
    }

    /** How often the user has redeemed the code. */
    method UserUses(code: string, user: nat) returns (n: nat)
      ensures n == CountFor(redemptions, code, user)
    {
      n := 0;
      for i := 0 to |redemptions|
        invariant n == CountFor(redemptions[..i], code, user)
      {
        assert redemptions[..i + 1][..i] == redemptions[..i];
        if redemptions[i].code == code && redemptions[i].user == user { n := n + 1; }
      }
      assert redemptions[..|redemptions|] == redemptions;
    }

    /** Offers a discount without consuming the coupon. */
    method Apply(code: string, user: nat, scope: string, base: int, now: int) returns (r: Applied)
      ensures r.Applied? <==>
        && 1 <= |code| <= 32 && code in coupons
        && Check(coupons[code], scope, CountFor(redemptions, code, user), now).None?
        && base >= coupons[code].minOrder
      ensures r.Applied? <==>
        && 1 <= |code| <= 32 && code in coupons
        && var c := coupons[code];
           && c.active && c.scope in {"all", scope} && base >= c.minOrder
           && (c.startsAt.Some? ==> c.startsAt.value <= now) && (c.endsAt.Some? ==> now <= c.endsAt.value)
           && (c.maxUses.Some? ==> c.usesCount < c.maxUses.value)
           && (c.maxUsesPerUser.Some? ==> CountFor(redemptions, code, user) < c.maxUsesPerUser.value)
      ensures r.Applied? ==> r.kind == coupons[code].kind && r.discount == Discount(coupons[code], base)
      ensures r.Applied? && base >= 0 ==>
        var c := coupons[code];
        && (c.kind == "percent" && 0 <= c.percentBP <= 10000 ==>
              10000 * r.discount <= base * c.percentBP + 5000 < 10000 * r.discount + 10000)
        && (c.kind == "fixed" && c.amount >= 0 ==> r.discount == if c.amount < base then c.amount else base)
        && (c.kind !in {"percent", "fixed"} ==> r.discount == 0)
      ensures r == Refused(Invalid) <==> |code| == 0 || |code| > 32 || code !in coupons || !coupons[code].active
      ensures r == Refused(MinOrder) ==> base < coupons[code].minOrder
    {
      if code == "" || |code| > 32 || code !in coupons { return Refused(Invalid); }
      var c := coupons[code];
      var uses := UserUses(code, user);
      var error := Check(c, scope, uses, now);
      if error.Some? { return Refused(error.value); }
      if base < c.minOrder { return Refused(MinOrder); }
      if base >= 0 { DiscountIs(c, base); }
      return Applied.Applied(c.kind, Discount(c, base));
    }

    /** Consumes the coupon, inside the transaction that creates the order or parcel. */
    method Redeem(code: string, user: nat, reference: Reference, discount: int, now: int) returns (r: Reply)
      modifies this
      ensures var c := Change.Redeem(code, user, reference, discount, now);
        && Now() == Next(old(Now()), c)
        && r == (if Refusal(old(Now()), c).Some? then Failed(Refusal(old(Now()), c).value) else Done)
      ensures r == Done <==>
        && code in old(coupons) && old(coupons)[code].active && discount >= 0
        && (forall i :: 0 <= i < |old(redemptions)| ==> old(redemptions)[i].reference != reference)
        && var c := old(coupons)[code];
           c.scope == "all" ==>
             && (c.startsAt.Some? ==> c.startsAt.value <= now) && (c.endsAt.Some? ==> now <= c.endsAt.value)
             && (c.maxUses.Some? ==> c.usesCount < c.maxUses.value)
             && (c.maxUsesPerUser.Some? ==> CountFor(old(redemptions), code, user) < c.maxUsesPerUser.value)
      ensures r == Done ==>
        && coupons == old(coupons)[code := old(coupons)[code].(usesCount := old(coupons)[code].usesCount + 1)]
        && redemptions == old(redemptions) + [Redemption(code, user, reference, discount)]
      ensures r != Done ==> coupons == old(coupons) && redemptions == old(redemptions)
    {
      if code !in coupons { return Failed(Invalid); }
      var c := coupons[code];
      var uses := UserUses(code, user);
      var error := Check(c, SCOPE_ALL, uses, now);
      if error.Some? && error.value != NotApplicable { return Failed(error.value); }
      if discount < 0 || Referenced(redemptions, reference) { return Failed(Constraint); }
      redemptions := redemptions + [Redemption(code, user, reference, discount)];
      coupons := coupons[code := c.(usesCount := c.usesCount + 1)];
      return Done;
    }

    method Upsert(code: string, terms: Coupon) returns (r: Reply)
      modifies this
      ensures Now() == Next(old(Now()), Change.Upsert(code, terms))
      ensures r == (if UpsertError(code, terms).Some? then Failed(UpsertError(code, terms).value) else Done)
      ensures r == Done <==>
        && 3 <= |code| <= 32 && terms.scope in {"", "all", "food", "parcels"} && terms.minOrder >= 0
        && 0 <= terms.percentBP <= 10000 && terms.amount >= 0
        && ((terms.kind == "percent" && terms.percentBP > 0) || (terms.kind == "fixed" && terms.amount > 0))
        && (terms.startsAt.Some? && terms.endsAt.Some? ==> terms.startsAt.value <= terms.endsAt.value)
      ensures redemptions == old(redemptions) && (r != Done ==> coupons == old(coupons))
      ensures r == Done ==>
        coupons == old(coupons)[code := terms.(scope := if terms.scope == "" then "all" else terms.scope,
          usesCount := if code in old(coupons) then old(coupons)[code].usesCount else 0)]
    {
      var error := UpsertError(code, terms);
      if error.Some? { return Failed(error.value); }
      coupons := coupons[code := Row(Now(), code, terms)];
      return Done;
    }

    method SetActive(code: string, active: bool) returns (r: Reply)
      modifies this
      ensures Now() == Next(old(Now()), Change.SetActive(code, active))
      ensures r == if code in old(coupons) then Done else Failed(NotFound)
    {
      if code !in coupons { return Failed(NotFound); }
      coupons := coupons[code := coupons[code].(active := active)];
      return Done;
    }
  }
}

module PromoProofs {
  import opened Basics
  import opened Promos

  // --------------------------------------------------------------- the discount

  /** Never negative, never above the base. */
  lemma DiscountWithinBase(c: Coupon, base: int)
    ensures 0 <= Discount(c, base) && (base >= 0 ==> Discount(c, base) <= base)
  {
  }

  lemma QuotientGrowsSlower(x: int, y: int, more: int)
    requires 0 <= x <= y <= x + more * 10000 && 0 <= more
    ensures x / 10000 <= y / 10000 <= x / 10000 + more
  {
  }

  lemma PercentGrowsSlower(a: int, b: int, bp: int)
    requires 0 <= a <= b && 0 <= bp <= 10000
    ensures (a * bp + 5000) / 10000 <= (b * bp + 5000) / 10000 <= (a * bp + 5000) / 10000 + (b - a)
  {
    MoreBase(a, b, bp);
    QuotientGrowsSlower(a * bp + 5000, b * bp + 5000, b - a);
  }

  lemma Times(x: int, y: int, low: int, high: int)
    requires x >= 0 && low <= y <= high
    ensures x * low <= x * y <= x * high
  {
  }

  lemma MoreBase(a: int, b: int, bp: int)
    requires 0 <= a <= b && 0 <= bp <= 10000
    ensures 0 <= a * bp <= b * bp <= a * bp + (b - a) * 10000
  {
    Times(a, bp, 0, 10000);
    Times(b - a, bp, 0, 10000);
    assert b * bp == a * bp + (b - a) * bp;
  }

  /** A larger order never gets a smaller discount, nor does it ever end up costing less. */
  lemma LargerOrderNeverPaysLess(c: Coupon, a: int, b: int)
    requires 0 <= a <= b && 0 <= c.percentBP <= 10000 && c.amount >= 0
    ensures Discount(c, a) <= Discount(c, b) && a - Discount(c, a) <= b - Discount(c, b)
  {
    PercentGrowsSlower(a, b, c.percentBP);
    MoreBase(0, a, c.percentBP);
    MoreBase(a, b, c.percentBP);
  }

  // ----------------------------------------------------------- counting the uses

  /** Each coupon's counter is the number of its redemptions, and no reference redeems twice. */
  ghost predicate Counted(b: Books) {
    && (forall code :: code in b.coupons ==> b.coupons[code].usesCount == CountOf(b.redemptions, code))
    && (forall code :: code !in b.coupons ==> CountOf(b.redemptions, code) == 0)
    && (forall i, k :: 0 <= i < k < |b.redemptions| ==> b.redemptions[i].reference != b.redemptions[k].reference)
  }

  lemma CountsOfOneMore(rs: seq<Redemption>, r: Redemption, code: string, user: nat)
    ensures CountOf(rs + [r], code) == CountOf(rs, code) + if r.code == code then 1 else 0
    ensures CountFor(rs + [r], code, user) ==
      CountFor(rs, code, user) + if r.code == code && r.user == user then 1 else 0
  {
    assert (rs + [r])[..|rs|] == rs;
  }

  lemma CountedKept(b: Books, c: Change)
    requires Counted(b)
    ensures Counted(Next(b, c))
  {
    var after := Next(b, c);
    if c.Redeem? && Refusal(b, c).None? {
      var r := Redemption(c.code, c.user, c.reference, c.discount);
      forall code: string
        ensures CountOf(after.redemptions, code) == CountOf(b.redemptions, code) + if c.code == code then 1 else 0
      {
        CountsOfOneMore(b.redemptions, r, code, 0);
      }
    }
  }

  /** In every run the counter equals the number of redemption rows. */
  lemma {:induction false} UsesAreRedemptions(changes: seq<Change>)
    ensures Counted(Run(Books(map[], []), changes))
  {
    if changes != [] {
      UsesAreRedemptions(changes[..|changes| - 1]);
      CountedKept(Run(Books(map[], []), changes[..|changes| - 1]), changes[|changes| - 1]);
    }
  }

  // ------------------------------------------------------------------- the caps

  /** A cap that can be reached at all; the column admits negative ones. */
  function AtLeastZero(cap: int): int { if cap < 0 then 0 else cap }

  /** No more uses than the coupon's caps allow, in all and by each user. */
  ghost predicate Within(b: Books, code: string) {
    code in b.coupons ==>
      var c := b.coupons[code];
      && (c.maxUses.Some? ==> CountOf(b.redemptions, code) <= AtLeastZero(c.maxUses.value))
      && (c.maxUsesPerUser.Some? ==>
            forall user :: CountFor(b.redemptions, code, user) <= AtLeastZero(c.maxUsesPerUser.value))
  }

  /** The redemption goes to a coupon with no use left, in all or for this user. */
  predicate Exhausted(b: Books, c: Change)
    requires c.Redeem? && c.code in b.coupons
  {
    var row := b.coupons[c.code];
    || (row.maxUses.Some? && CountOf(b.redemptions, c.code) >= AtLeastZero(row.maxUses.value))
    || (row.maxUsesPerUser.Some? && CountFor(b.redemptions, c.code, c.user) >= AtLeastZero(row.maxUsesPerUser.value))
  }

  /** The new caps lie below what has been used already. */
  ghost predicate LoweredBelowUse(b: Books, c: Change)
    requires c.Upsert?
  {
    || (c.terms.maxUses.Some? && CountOf(b.redemptions, c.code) > AtLeastZero(c.terms.maxUses.value))
    || (c.terms.maxUsesPerUser.Some?
        && exists user :: CountFor(b.redemptions, c.code, user) > AtLeastZero(c.terms.maxUsesPerUser.value))
  }

  /** A change that can break the caps of its coupon: an exhausted coupon of a narrower scope is
      redeemed, or an administrator lowers a cap below the use made of it. */
  ghost predicate Breaks(b: Books, c: Change) {
    && Refusal(b, c).None?
    && match c
       case Redeem(code, _, _, _, _) => b.coupons[code].scope != SCOPE_ALL && Exhausted(b, c)
       case Upsert(_, _) => LoweredBelowUse(b, c)
       case SetActive(_, _) => false
  }

  /** A step keeps the caps exactly when it does not break them. */
  lemma CapsKeptExactly(b: Books, c: Change)
    requires Counted(b) && Within(b, c.code)
    ensures Within(Next(b, c), c.code) <==> !Breaks(b, c)
  {
    if Refusal(b, c).None? && c.Redeem? {
      RedeemCounts(b, c);
    }
  }

  lemma RedeemCounts(b: Books, c: Change)
    requires Counted(b) && Within(b, c.code) && c.Redeem? && Refusal(b, c).None?
    ensures Within(Next(b, c), c.code) <==> !Exhausted(b, c)
    ensures b.coupons[c.code].scope == SCOPE_ALL ==> !Exhausted(b, c)
  {
    var after, row := Next(b, c), b.coupons[c.code];
    var r := Redemption(c.code, c.user, c.reference, c.discount);
    forall user: nat
      ensures CountOf(after.redemptions, c.code) == CountOf(b.redemptions, c.code) + 1
      ensures CountFor(after.redemptions, c.code, user) == CountFor(b.redemptions, c.code, user)
        + if user == c.user then 1 else 0
    {
      CountsOfOneMore(b.redemptions, r, c.code, user);
    }
    assert CountOf(after.redemptions, c.code) == CountOf(b.redemptions, c.code) + 1 by {
      CountsOfOneMore(b.redemptions, r, c.code, c.user);
    }
    assert CountFor(after.redemptions, c.code, c.user) == CountFor(b.redemptions, c.code, c.user) + 1;
  }

  /** Other coupons' caps do not move. */
  lemma OtherCapsStay(b: Books, c: Change, code: string)
    requires code != c.code
    ensures Within(Next(b, c), code) <==> Within(b, code)
  {
    if c.Redeem? && Refusal(b, c).None? {
      var r := Redemption(c.code, c.user, c.reference, c.discount);
      forall user: nat
        ensures CountOf(b.redemptions + [r], code) == CountOf(b.redemptions, code)
        ensures CountFor(b.redemptions + [r], code, user) == CountFor(b.redemptions, code, user)
      {
        CountsOfOneMore(b.redemptions, r, code, user);
      }
      CountsOfOneMore(b.redemptions, r, code, 0);
    }
  }

  /** Administrators keep the coupon at scope "all" and its caps at or above the use made. */
  ghost predicate Administered(b: Books, changes: seq<Change>, code: string) {
    forall i :: 0 <= i < |changes| && changes[i].code == code && changes[i].Upsert? ==>
      && changes[i].terms.scope in ["", SCOPE_ALL]
      && !LoweredBelowUse(Run(b, changes[..i]), changes[i])
  }

  lemma ScopeStaysAll(b: Books, c: Change, code: string)
    requires code in b.coupons ==> b.coupons[code].scope == SCOPE_ALL
    requires c.Upsert? && c.code == code ==> c.terms.scope in ["", SCOPE_ALL]
    ensures code in Next(b, c).coupons ==> Next(b, c).coupons[code].scope == SCOPE_ALL
  {
  }

  /** Under any interleaving of redemptions with administration that never narrows the scope nor
      lowers a cap below its use, neither cap is ever exceeded. */
  lemma {:induction false} CapsHold(changes: seq<Change>, code: string)
    requires Administered(Books(map[], []), changes, code)
    ensures var b := Run(Books(map[], []), changes);
      Within(b, code) && (code in b.coupons ==> b.coupons[code].scope == SCOPE_ALL)
  {
    if changes != [] {
      var n, start := |changes| - 1, Books(map[], []);
      forall i | 0 <= i < n && changes[..n][i].code == code && changes[..n][i].Upsert?
        ensures changes[..n][i].terms.scope in ["", SCOPE_ALL]
          && !LoweredBelowUse(Run(start, changes[..n][..i]), changes[..n][i])
      {
        assert changes[..n][..i] == changes[..i] && changes[i].code == code;
      }
      CapsHold(changes[..n], code);
      UsesAreRedemptions(changes[..n]);
      var b, c := Run(start, changes[..n]), changes[n];
      ScopeStaysAll(b, c, code);
      if c.code == code {
        if c.Redeem? && Refusal(b, c).None? { RedeemCounts(b, c); }
        CapsKeptExactly(b, c);
      } else {
        OtherCapsStay(b, c, code);
      }
    }
  }

  /** The dates and caps of an active coupon bind exactly when its scope is "all": one of a
      narrower scope is redeemed whatever they say. */
  lemma LimitsBindOnlyScopeAll(b: Books, c: Change)
    requires c.Redeem? && c.code in b.coupons && b.coupons[c.code].active
    requires c.discount >= 0 && !Referenced(b.redemptions, c.reference)
    ensures Refusal(b, c).None? <==>
      || b.coupons[c.code].scope != SCOPE_ALL
      || (InDate(b.coupons[c.code], c.now) && !Reached(b, c))
  {
  }

  predicate InDate(c: Coupon, now: int) {
    (c.startsAt.Some? ==> c.startsAt.value <= now) && (c.endsAt.Some? ==> now <= c.endsAt.value)
  }

  /** A cap is reached, as the check reads it off the coupon's counter. */
  predicate Reached(b: Books, c: Change)
    requires c.Redeem? && c.code in b.coupons
  {
    var row := b.coupons[c.code];
    || (row.maxUses.Some? && row.usesCount >= row.maxUses.value)
    || (row.maxUsesPerUser.Some? && CountFor(b.redemptions, c.code, c.user) >= row.maxUsesPerUser.value)
  }

  /** For every scope: a redemption that passes the coupon's own check on the same tables keeps both
      caps, so they can only be lost between the offer and the redemption. */
  lemma CheckedRedemptionKeepsCaps(b: Books, c: Change)
    requires Counted(b) && Within(b, c.code) && c.Redeem? && Refusal(b, c).None?
    requires Check(b.coupons[c.code], b.coupons[c.code].scope, CountFor(b.redemptions, c.code, c.user), c.now).None?
    ensures Within(Next(b, c), c.code)
  {
    RedeemCounts(b, c);
  }

  /** Two checkouts that are both offered a food coupon good for a single use, before either redeems
      it, both redeem it; had the second asked after the first redemption, it would have been refused. */
  lemma FoodCouponOverspent(b: Books, t: Coupon)
    requires b == Books(map["PIZZA" := t], [])
      && t == Coupon("fixed", 0, 100, 0, SCOPE_FOOD, None, None, Some(1), None, 0, true)
    ensures Check(t, SCOPE_FOOD, CountFor(b.redemptions, "PIZZA", 7), 0).None?
    ensures var once := Next(b, Redeem("PIZZA", 7, OrderReference(1), 100, 0));
      && Refusal(b, Redeem("PIZZA", 7, OrderReference(1), 100, 0)).None?
      && Refusal(once, Redeem("PIZZA", 7, OrderReference(2), 100, 0)).None?
      && Check(once.coupons["PIZZA"], SCOPE_FOOD, CountFor(once.redemptions, "PIZZA", 7), 0) == Some(UsedUp)
      && !Within(Next(once, Redeem("PIZZA", 7, OrderReference(2), 100, 0)), "PIZZA")
  {
    var r1, r2 := Redemption("PIZZA", 7, OrderReference(1), 100), Redemption("PIZZA", 7, OrderReference(2), 100);
    var once := Next(b, Redeem("PIZZA", 7, OrderReference(1), 100, 0));
    LimitsBindOnlyScopeAll(b, Redeem("PIZZA", 7, OrderReference(1), 100, 0));
    assert once.redemptions == [] + [r1];
    LimitsBindOnlyScopeAll(once, Redeem("PIZZA", 7, OrderReference(2), 100, 0));
    CountsOfOneMore([], r1, "PIZZA", 7);
    CountsOfOneMore([] + [r1], r2, "PIZZA", 7);
  }

  /** What was offered can be taken: an applied coupon is redeemed under a fresh reference if
      nothing changed since. */
  lemma OfferCanBeTaken(b: Books, code: string, user: nat, scope: string, base: int, reference: Reference, now: int)
    requires code in b.coupons && Check(b.coupons[code], scope, CountFor(b.redemptions, code, user), now).None?
    requires !Referenced(b.redemptions, reference)
    ensures Refusal(b, Redeem(code, user, reference, Discount(b.coupons[code], base), now)).None?
  {
  }

  /** The rows of a code, and those of one user among them. */
  ghost function RowsOf(rs: seq<Redemption>, code: string): set<nat> { set i: nat | i < |rs| && rs[i].code == code }

  ghost function RowsFor(rs: seq<Redemption>, code: string, user: nat): set<nat> {
    set i: nat | i < |rs| && rs[i].code == code && rs[i].user == user
  }

  lemma RowsOneMore(rs: seq<Redemption>, code: string, user: nat)
    requires rs != []
    ensures var n := |rs| - 1;
      && RowsOf(rs, code) == RowsOf(rs[..n], code) + (if rs[n].code == code then {n} else {})
      && RowsFor(rs, code, user) == RowsFor(rs[..n], code, user)
          + (if rs[n].code == code && rs[n].user == user then {n} else {})
      && n !in RowsOf(rs[..n], code) && n !in RowsFor(rs[..n], code, user)
  {
  }

  /** The counts are numbers of rows. */
  lemma {:induction false} CountsAreSizes(rs: seq<Redemption>, code: string, user: nat)
    ensures CountOf(rs, code) == |RowsOf(rs, code)| && CountFor(rs, code, user) == |RowsFor(rs, code, user)|
  {
    if rs != [] {
      RowsOneMore(rs, code, user);
      CountsAreSizes(rs[..|rs| - 1], code, user);
    }
  }
}
