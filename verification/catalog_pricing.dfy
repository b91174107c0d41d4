/** Pricing a customer's choice from the catalogue, never from what the client says. */
module CatalogPricing {
  import opened Basics
  import opened Catalog
  import opened CatalogLoading

  datatype Product = Product(merchant: nat, name: string, price: int, currency: string, available: bool)

  /** The products that are not deleted, and the joined rows of each. */
  datatype Tables = Tables(products: map<nat, Product>, joined: map<nat, seq<Row>>)

  datatype Selection = Selection(product: nat, optionIds: seq<nat>, quantity: int)

  function Chosen(sel: Selection): set<nat> { set id | id in sel.optionIds }

  datatype Line = Line(product: nat, optionIds: seq<nat>, unit: int, quantity: int, total: int, currency: string)

  datatype PriceError = InvalidQuantity | NotFound | WrongMerchant | Unavailable | BadModifiers

  datatype Priced = Ok(line: Line) | Err(error: PriceError)

  function Joined(t: Tables, product: nat): seq<Row> {
    if product in t.joined then t.joined[product] else []
  }

  /** Option ids are a primary key. */
  ghost predicate UniqueIds(options: multiset<Choice>) {
    && (forall o :: o in options ==> options[o] == 1)
    && (forall a, b :: a in options && b in options && a.id == b.id ==> a == b)
  }

  ghost predicate Schema(t: Tables) {
    forall p :: p in t.joined ==>
      && Ordered(t.joined[p]) && OneRowPerGroup(t.joined[p])
      && (forall r :: r in t.joined[p] ==> r.product == p)
      && UniqueIds(multiset(AllOptions(t.joined[p], p)))
  }

  function Menus(t: Tables, product: nat): seq<Group> { Groups(Joined(t, product), product) }

  /** The options that were chosen, in menu order. */
  function Picked(options: seq<Choice>, chosen: set<nat>): seq<Choice> {
    if options == [] then []
    else
      var n := |options| - 1;
      Picked(options[..n], chosen) + (if options[n].id in chosen then [options[n]] else [])
  }

  function Deltas(options: seq<Choice>): int {
    if options == [] then 0 else Deltas(options[..|options| - 1]) + options[|options| - 1].delta
  }

  function Ids(options: seq<Choice>): seq<nat> {
    if options == [] then [] else Ids(options[..|options| - 1]) + [options[|options| - 1].id]
  }

  ghost function IdSet(options: seq<Choice>): set<nat> {
    if options == [] then {} else IdSet(options[..|options| - 1]) + {options[|options| - 1].id}
  }

  ghost predicate AllAvailable(options: seq<Choice>, chosen: set<nat>) {
    forall o :: o in options && o.id in chosen ==> o.available
  }

  ghost predicate Fits(g: Group, chosen: set<nat>) {
    AllAvailable(g.options, chosen) && g.minSelect <= |Picked(g.options, chosen)| <= g.maxSelect
  }

  ghost predicate AllFit(groups: seq<Group>, chosen: set<nat>) {
    forall g :: 0 <= g < |groups| ==> Fits(groups[g], chosen)
  }

  /** The choice can be sold: what the customer must get right, in any order. */
  ghost predicate Sellable(t: Tables, merchant: nat, sel: Selection) {
    && 1 <= sel.quantity <= 50
    && sel.product in t.products && t.products[sel.product].merchant == merchant && t.products[sel.product].available
    && AllFit(Menus(t, sel.product), Chosen(sel))
    && Chosen(sel) <= IdSet(Flat(Menus(t, sel.product)))
  }

  /** The first group that does not fit fails on an unavailable option rather than on its count. */
  ghost predicate UnavailableFirst(groups: seq<Group>, chosen: set<nat>) {
    exists g :: 0 <= g < |groups| && !AllAvailable(groups[g].options, chosen) && AllFit(groups[..g], chosen)
  }

  lemma {:induction false} PickedAppends(a: seq<Choice>, b: seq<Choice>, chosen: set<nat>)
    ensures Picked(a + b, chosen) == Picked(a, chosen) + Picked(b, chosen)
  {
    if b == [] {
      assert a + b == a;
    } else {
      var n := |b| - 1;
      assert (a + b)[..|a + b| - 1] == a + b[..n];
      PickedAppends(a, b[..n], chosen);
    }
  }

  /** With unique ids, as many options are picked as chosen ids belong to the menu: the count
      equals the number of chosen ids exactly when every one of them belongs. */
  lemma {:induction false} IdSetIs(options: seq<Choice>, id: nat)
    requires id in IdSet(options)
    ensures exists o :: o in options && o.id == id
  {
    var n := |options| - 1;
    if options[n].id != id {
      IdSetIs(options[..n], id);
      var o :| o in options[..n] && o.id == id;
      assert o in options;
    } else {
      assert options[n] in options;
    }
  }

  lemma UniqueButLast(options: seq<Choice>)
    requires options != [] && UniqueIds(multiset(options))
    ensures UniqueIds(multiset(options[..|options| - 1]))
    ensures options[|options| - 1].id !in IdSet(options[..|options| - 1])
  {
    var front, last := options[..|options| - 1], options[|options| - 1];
    assert options == front + [last];
    assert multiset(options) == multiset(front) + multiset{last};
    forall o: Choice | o in multiset(front)
      ensures multiset(front)[o] == 1 && o.id != last.id
    {
      assert o in multiset(options) && last in multiset(options);
    }
    assert forall o :: o in front ==> o in multiset(front) && o.id != last.id;
    if last.id in IdSet(front) {
      IdSetIs(front, last.id);
      assert false;
    }
  }

  lemma OneMoreInCommon(chosen: set<nat>, ids: set<nat>, id: nat)
    requires id !in ids
    ensures |chosen * (ids + {id})| == |chosen * ids| + if id in chosen then 1 else 0
  {
    if id in chosen {
      assert chosen * (ids + {id}) == chosen * ids + {id};
    } else {
      assert chosen * (ids + {id}) == chosen * ids;
    }
  }

  /** With unique ids, as many options are picked as chosen ids belong to the menu. */
  lemma {:induction false} PickedCounts(options: seq<Choice>, chosen: set<nat>)
    requires UniqueIds(multiset(options))
    ensures |Picked(options, chosen)| == |chosen * IdSet(options)|
  {
    if options == [] {
      assert chosen * IdSet(options) == {};
    } else {
      var n := |options| - 1;
      UniqueButLast(options);
      PickedCounts(options[..n], chosen);
      OneMoreInCommon(chosen, IdSet(options[..n]), options[n].id);
    }
  }

  /** The final count check is the test that every chosen option belongs to the product. */
  lemma CountIsBelonging(options: seq<Choice>, chosen: set<nat>)
    requires UniqueIds(multiset(options))
    ensures |Picked(options, chosen)| == |chosen| <==> chosen <= IdSet(options)
  {
    PickedCounts(options, chosen);
    assert chosen == chosen * IdSet(options) + (chosen - IdSet(options));
    assert |chosen| == |chosen * IdSet(options)| + |chosen - IdSet(options)|;
    assert chosen <= IdSet(options) <==> chosen - IdSet(options) == {};
  }

  /** The error one group raises. */
  ghost function GroupError(g: Group, chosen: set<nat>): Option<PriceError> {
    if !AllAvailable(g.options, chosen) then Some(Unavailable)
    else if !Fits(g, chosen) then Some(BadModifiers)
    else None
  }

  ghost function FirstError(groups: seq<Group>, chosen: set<nat>): Option<PriceError> {
    if groups == [] then None
    else
      var earlier := FirstError(groups[..|groups| - 1], chosen);
      if earlier.Some? then earlier else GroupError(groups[|groups| - 1], chosen)
  }

  lemma {:induction false} FirstErrorIs(groups: seq<Group>, chosen: set<nat>)
    ensures FirstError(groups, chosen).None? <==> AllFit(groups, chosen)
    ensures FirstError(groups, chosen) == Some(Unavailable) <==> UnavailableFirst(groups, chosen)
    ensures FirstError(groups, chosen).Some? ==> FirstError(groups, chosen).value in {Unavailable, BadModifiers}
  {
    if groups != [] {
      var n := |groups| - 1;
      FirstErrorIs(groups[..n], chosen);
      assert AllFit(groups, chosen) <==> AllFit(groups[..n], chosen) && Fits(groups[n], chosen);
      if UnavailableFirst(groups[..n], chosen) {
        var g :| 0 <= g < n && !AllAvailable(groups[..n][g].options, chosen) && AllFit(groups[..n][..g], chosen);
        assert groups[..n][..g] == groups[..g] && !AllAvailable(groups[g].options, chosen);
      }
      if UnavailableFirst(groups, chosen) {
        var g :| 0 <= g < |groups| && !AllAvailable(groups[g].options, chosen) && AllFit(groups[..g], chosen);
        if g < n {
          assert groups[..n][..g] == groups[..g] && !AllAvailable(groups[..n][g].options, chosen);
        }
      }
    }
  }

  lemma {:induction false} DeltasAppend(a: seq<Choice>, b: seq<Choice>)
    ensures Deltas(a + b) == Deltas(a) + Deltas(b) && Ids(a + b) == Ids(a) + Ids(b)
  {
    if b == [] {
      assert a + b == a;
    } else {
      assert (a + b)[..|a + b| - 1] == a + b[..|b| - 1];
      DeltasAppend(a, b[..|b| - 1]);
    }
  }

  lemma AvailableOneMore(options: seq<Choice>, k: nat, chosen: set<nat>)
    requires k < |options| && AllAvailable(options[..k], chosen)
    ensures AllAvailable(options[..k + 1], chosen) <==> (options[k].id in chosen ==> options[k].available)
    ensures options[k].id in chosen && !options[k].available ==> !AllAvailable(options, chosen)
  {
    assert options[..k + 1] == options[..k] + [options[k]];
    assert options[k] in options[..k + 1] && options[k] in options;
  }

  /** The running totals of a line. */
  datatype Totals = Totals(matched: int, unit: int, optionIds: seq<nat>)

  ghost function Tally(price: int, picked: seq<Choice>): Totals {
    Totals(|picked|, price + Deltas(picked), Ids(picked))
  }

  lemma PickedOneMore(options: seq<Choice>, k: nat, chosen: set<nat>)
    requires k < |options|
    ensures var before, after := Picked(options[..k], chosen), Picked(options[..k + 1], chosen);
      if options[k].id !in chosen then after == before
      else |after| == |before| + 1 && Deltas(after) == Deltas(before) + options[k].delta
           && Ids(after) == Ids(before) + [options[k].id]
  {
    assert options[..k + 1][..k] == options[..k];
    var before, after := Picked(options[..k], chosen), Picked(options[..k + 1], chosen);
    if options[k].id in chosen { assert after[..|before|] == before; }
  }

  lemma TallyOfGroup(price: int, groups: seq<Group>, g: nat, chosen: set<nat>)
    requires g < |groups|
    ensures var before, picked := Tally(price, Picked(Flat(groups[..g]), chosen)), Picked(groups[g].options, chosen);
      Tally(price, Picked(Flat(groups[..g + 1]), chosen)) ==
      Totals(before.matched + |picked|, before.unit + Deltas(picked), before.optionIds + Ids(picked))
  {
    assert groups[..g + 1][..g] == groups[..g];
    PickedAppends(Flat(groups[..g]), groups[g].options, chosen);
    DeltasAppend(Picked(Flat(groups[..g]), chosen), Picked(groups[g].options, chosen));
  }

  /** One group: the inner loop, up to the first chosen option that is unavailable, then the count. */
  method PickFromGroup(g: Group, chosen: set<nat>, line: Totals) returns (error: Option<PriceError>, line': Totals)
    ensures error == GroupError(g, chosen)
    ensures error.None? ==>
      var picked := Picked(g.options, chosen);
      line' == Totals(line.matched + |picked|, line.unit + Deltas(picked), line.optionIds + Ids(picked))
  {
    var count, options := 0, g.options;
    line' := line;
    for k := 0 to |options|
      invariant AllAvailable(options[..k], chosen)
      invariant count == |Picked(options[..k], chosen)|
      invariant line'.matched == line.matched + count
      invariant line'.unit == line.unit + Deltas(Picked(options[..k], chosen))
      invariant line'.optionIds == line.optionIds + Ids(Picked(options[..k], chosen))
    {
      AvailableOneMore(options, k, chosen);
      PickedOneMore(options, k, chosen);
      if options[k].id in chosen {
        if !options[k].available { return Some(Unavailable), line'; }
        count := count + 1;
        line' := Totals(line'.matched + 1, line'.unit + options[k].delta, line'.optionIds + [options[k].id]);
      }
    }
    assert options[..|options|] == options;
    error := if count < g.minSelect || count > g.maxSelect then Some(BadModifiers) else None;
  }

  /** All groups: the first that does not fit decides the error. */
  method PickFromMenu(groups: seq<Group>, chosen: set<nat>, price: int)
      returns (error: Option<PriceError>, line: Totals)
    requires UniqueIds(multiset(Flat(groups)))
    ensures error ==
      if FirstError(groups, chosen).Some? then FirstError(groups, chosen)
      else if chosen <= IdSet(Flat(groups)) then None else Some(BadModifiers)
    ensures error.None? ==> line == Tally(price, Picked(Flat(groups), chosen))
  {
    line := Totals(0, price, []);
    for g := 0 to |groups|
      invariant line == Tally(price, Picked(Flat(groups[..g]), chosen))
      invariant FirstError(groups[..g], chosen) == None
    {
      TallyOfGroup(price, groups, g, chosen);
      FirstErrorOneMore(groups, g, chosen);
      error, line := PickFromGroup(groups[g], chosen, line);
      if error.Some? { return; }
    }
    assert groups[..|groups|] == groups;
    CountIsBelonging(Flat(groups), chosen);
    error := if line.matched != |chosen| then Some(BadModifiers) else None;   // an option of another product
  }

  lemma {:induction false} FirstErrorOneMore(groups: seq<Group>, g: nat, chosen: set<nat>)
    requires g < |groups| && FirstError(groups[..g], chosen) == None
    ensures FirstError(groups[..g + 1], chosen) == GroupError(groups[g], chosen)
    ensures GroupError(groups[g], chosen).Some? ==> FirstError(groups, chosen) == GroupError(groups[g], chosen)
    decreases |groups|
  {
    assert groups[..g + 1][..g] == groups[..g];
    if g == |groups| - 1 {
      assert groups[..g + 1] == groups;
    } else {
      var front := groups[..|groups| - 1];
      assert front[..g] == groups[..g];
      FirstErrorOneMore(front, g, chosen);
    }
  }

  method MenuOf(t: Tables, product: nat) returns (groups: seq<Group>)
    requires Schema(t)
    ensures groups == Menus(t, product) && UniqueIds(multiset(Flat(groups)))
  {
    var modifiers := LoadModifiers([product], Joined(t, product));
    assert product in IdsOf([product]) by { assert product in [product]; }
    groups := modifiers[product];
    NoOptionLost(Joined(t, product), product);
  }

  /** What the chosen options add to the price; the lemmas of `CatalogTerms` say what that is. */
  function Extras(options: seq<Choice>, chosen: set<nat>): int { Deltas(Picked(options, chosen)) }

  /** What a choice costs, or what is wrong with it. */
  ghost function PriceOf(t: Tables, merchant: nat, sel: Selection): Priced {
    if !(1 <= sel.quantity <= 50) then Err(InvalidQuantity)
    else if sel.product !in t.products then Err(NotFound)
    else
      var p := t.products[sel.product];
      if p.merchant != merchant then Err(WrongMerchant)
      else if !p.available || UnavailableFirst(Menus(t, sel.product), Chosen(sel)) then Err(Unavailable)
      else if !Sellable(t, merchant, sel) then Err(BadModifiers)
      else
        var picked := Picked(Flat(Menus(t, sel.product)), Chosen(sel));
        var sum := p.price + Deltas(picked);
        var unit := if sum < 0 then 0 else sum;
        Ok(Line(sel.product, Ids(picked), unit, sel.quantity, unit * sel.quantity, p.currency))
  }

  method Price(t: Tables, merchant: nat, sel: Selection) returns (r: Priced)
    requires Schema(t)
    ensures r.Ok? <==> Sellable(t, merchant, sel)
    ensures r == PriceOf(t, merchant, sel)
    ensures r.Ok? ==>
      var p := t.products[sel.product];
      var sum := p.price + Extras(Flat(Menus(t, sel.product)), Chosen(sel));
      && r.line.product == sel.product && r.line.quantity == sel.quantity && r.line.currency == p.currency
      && r.line.unit == (if sum < 0 then 0 else sum) && r.line.total == r.line.unit * sel.quantity
    ensures r == Err(InvalidQuantity) <==> !(1 <= sel.quantity <= 50)
    ensures r == Err(NotFound) <==> 1 <= sel.quantity <= 50 && sel.product !in t.products
    ensures r == Err(WrongMerchant) <==>
      1 <= sel.quantity <= 50 && sel.product in t.products && t.products[sel.product].merchant != merchant
  {
    if sel.quantity < 1 || sel.quantity > 50 { return Err(InvalidQuantity); }
    if sel.product !in t.products { return Err(NotFound); }
    var p := t.products[sel.product];
    if p.merchant != merchant { return Err(WrongMerchant); }
    if !p.available { return Err(Unavailable); }
    var groups := MenuOf(t, sel.product);
    FirstErrorIs(groups, Chosen(sel));
    var error, line := PickFromMenu(groups, Chosen(sel), p.price);
    if error.Some? { return Err(error.value); }
    var unit := if line.unit < 0 then 0 else line.unit;
    return Ok(Line(sel.product, line.optionIds, unit, sel.quantity, unit * sel.quantity, p.currency));
  }
}
