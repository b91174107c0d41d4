/** What a choice costs and when it can be sold, option by option. */
module CatalogTerms {
  import opened Basics
  import opened Catalog
  import opened CatalogPricing

  /** The ids of the options. */
  function Offered(options: seq<Choice>): set<nat> { set o | o in options :: o.id }

  lemma {:induction false} IdSetIsOffered(options: seq<Choice>)
    ensures IdSet(options) == Offered(options)
  {
    if options != [] {
      var front, last := options[..|options| - 1], options[|options| - 1];
      IdSetIsOffered(front);
      assert options == front + [last];
    }
  }

  /** One option after the other. */
  lemma ExtrasOneMore(options: seq<Choice>, chosen: set<nat>)
    requires options != []
    ensures var front, last := options[..|options| - 1], options[|options| - 1];
      Extras(options, chosen) == Extras(front, chosen) + if last.id in chosen then last.delta else 0
  {
    var before, last := Picked(options[..|options| - 1], chosen), options[|options| - 1];
    assert before + [] == before;
    LastDelta(before, last);
  }

  lemma LastDelta(picked: seq<Choice>, o: Choice)
    ensures Deltas(picked + [o]) == Deltas(picked) + o.delta
  {
    assert (picked + [o])[..|picked|] == picked;
  }

  lemma {:induction false} NothingChosen(options: seq<Choice>)
    ensures Extras(options, {}) == 0
  {
    if options != [] {
      ExtrasOneMore(options, {});
      NothingChosen(options[..|options| - 1]);
    }
  }

  /** An id the menu does not have changes nothing. */
  lemma {:induction false} UnknownOption(options: seq<Choice>, chosen: set<nat>, id: nat)
    requires id !in Offered(options)
    ensures Extras(options, chosen + {id}) == Extras(options, chosen)
  {
    if options != [] {
      var n := |options| - 1;
      assert options[n] in options && forall o :: o in options[..n] ==> o in options;
      ExtrasOneMore(options, chosen);
      ExtrasOneMore(options, chosen + {id});
      UnknownOption(options[..n], chosen, id);
    }
  }

  /** Choosing one more option of the menu adds exactly its delta. */
  lemma {:induction false} OneMoreOption(options: seq<Choice>, chosen: set<nat>, o: Choice)
    requires UniqueIds(multiset(options)) && o in options && o.id !in chosen
    ensures Extras(options, chosen + {o.id}) == Extras(options, chosen) + o.delta
  {
    var front, last := options[..|options| - 1], options[|options| - 1];
    ExtrasOneMore(options, chosen);
    ExtrasOneMore(options, chosen + {o.id});
    LastIsAlone(options, o);
    if last == o {
      UnknownOption(front, chosen, o.id);
    } else {
      OneMoreOption(front, chosen, o);
    }
  }

  lemma LastIsAlone(options: seq<Choice>, o: Choice)
    requires options != [] && UniqueIds(multiset(options)) && o in options
    ensures var front, last := options[..|options| - 1], options[|options| - 1];
      && UniqueIds(multiset(front)) && last.id !in Offered(front) && (o == last || (o in front && o.id != last.id))
  {
    var front, last := options[..|options| - 1], options[|options| - 1];
    UniqueButLast(options);
    IdSetIsOffered(front);
    assert options == front + [last];
  }

  /** A line names the chosen options of the menu, each as often as the menu has it. */
  lemma {:induction false} LineNames(options: seq<Choice>, chosen: set<nat>)
    ensures |Ids(Picked(options, chosen))| == |Picked(options, chosen)|
    ensures forall id :: id in Ids(Picked(options, chosen)) <==> id in chosen && id in Offered(options)
  {
    if options != [] {
      var front, last := options[..|options| - 1], options[|options| - 1];
      LineNames(front, chosen);
      assert options == front + [last];
      var before := Picked(front, chosen);
      assert (before + [last])[..|before|] == before && before + [] == before;
    }
  }

  /** Order and repetition of the option ids do not matter. */
  lemma SameChoice(t: Tables, merchant: nat, a: Selection, b: Selection)
    requires a.product == b.product && a.quantity == b.quantity
    requires forall id :: id in a.optionIds <==> id in b.optionIds
    ensures PriceOf(t, merchant, a) == PriceOf(t, merchant, b)
  {
    assert Chosen(a) == Chosen(b);
  }

  /** Every group has between its least and its greatest number of chosen options, all of them to be
      had, and no option of another product is chosen. */
  ghost predicate Complete(groups: seq<Group>, chosen: set<nat>) {
    && (forall g :: 0 <= g < |groups| ==> GroupComplete(groups[g], chosen))
    && forall id :: id in chosen ==> exists g :: 0 <= g < |groups| && id in Offered(groups[g].options)
  }

  lemma {:induction false} FlatHas(groups: seq<Group>, o: Choice)
    ensures o in Flat(groups) <==> exists g :: 0 <= g < |groups| && o in groups[g].options
  {
    if groups != [] {
      var n := |groups| - 1;
      FlatHas(groups[..n], o);
      if o in Flat(groups[..n]) {
        var g :| 0 <= g < n && o in groups[..n][g].options;
        assert o in groups[g].options;
      }
      if g :| 0 <= g < |groups| && o in groups[g].options && o !in groups[n].options {
        assert o in groups[..n][g].options;
      }
    }
  }

  lemma {:induction false} GroupIsUnique(groups: seq<Group>, g: nat)
    requires g < |groups| && UniqueIds(multiset(Flat(groups)))
    ensures UniqueIds(multiset(groups[g].options))
    decreases |groups|
  {
    var n := |groups| - 1;
    PartsAreUnique(Flat(groups[..n]), groups[n].options, Flat(groups));
    if g < n { GroupIsUnique(groups[..n], g); }
  }

  lemma PartsAreUnique(a: seq<Choice>, b: seq<Choice>, all: seq<Choice>)
    requires all == a + b && UniqueIds(multiset(all))
    ensures UniqueIds(multiset(a)) && UniqueIds(multiset(b))
  {
    assert multiset(all) == multiset(a) + multiset(b);
    PartIsUnique(multiset(a), multiset(all));
    PartIsUnique(multiset(b), multiset(all));
  }

  lemma PartIsUnique(part: multiset<Choice>, all: multiset<Choice>)
    requires part <= all && UniqueIds(all)
    ensures UniqueIds(part)
  {
    forall o | o in part
      ensures part[o] == 1
    {
      assert o in all;
    }
  }

  ghost predicate GroupComplete(g: Group, chosen: set<nat>) {
    && (forall o :: o in g.options && o.id in chosen ==> o.available)
    && g.minSelect <= |chosen * Offered(g.options)| <= g.maxSelect
  }

  lemma FitsIs(groups: seq<Group>, g: nat, chosen: set<nat>)
    requires g < |groups| && UniqueIds(multiset(Flat(groups)))
    ensures Fits(groups[g], chosen) <==> GroupComplete(groups[g], chosen)
  {
    GroupIsUnique(groups, g);
    PickedCounts(groups[g].options, chosen);
    IdSetIsOffered(groups[g].options);
  }

  lemma AllFitIs(groups: seq<Group>, chosen: set<nat>)
    requires UniqueIds(multiset(Flat(groups)))
    ensures AllFit(groups, chosen) <==> forall g :: 0 <= g < |groups| ==> GroupComplete(groups[g], chosen)
  {
    forall g | 0 <= g < |groups|
      ensures Fits(groups[g], chosen) <==> GroupComplete(groups[g], chosen)
    {
      FitsIs(groups, g, chosen);
    }
  }

  /** A choice can be sold exactly when it is complete. */
  lemma SellableIs(t: Tables, merchant: nat, sel: Selection)
    requires Schema(t)
    ensures Sellable(t, merchant, sel) <==>
      && 1 <= sel.quantity <= 50 && sel.product in t.products && t.products[sel.product].merchant == merchant
      && t.products[sel.product].available && Complete(Menus(t, sel.product), Chosen(sel))
  {
    MenuIsUnique(t, sel.product);
    CompleteIs(Menus(t, sel.product), Chosen(sel));
  }

  lemma MenuIsUnique(t: Tables, product: nat)
    requires Schema(t)
    ensures UniqueIds(multiset(Flat(Menus(t, product))))
  {
    var rows := Joined(t, product);
    NoOptionLost(rows, product);
    if product !in t.joined { assert AllOptions(rows, product) == []; }
  }

  lemma CompleteIs(groups: seq<Group>, chosen: set<nat>)
    requires UniqueIds(multiset(Flat(groups)))
    ensures AllFit(groups, chosen) && chosen <= IdSet(Flat(groups)) <==> Complete(groups, chosen)
  {
    AllFitIs(groups, chosen);
    BelongsSomewhere(groups, chosen);
  }

  /** What cannot be sold is unavailable when the product is, or when the first group that does not fit
      has an unavailable choice; anything else is a bad choice. */
  lemma UnavailableIs(t: Tables, merchant: nat, sel: Selection)
    ensures PriceOf(t, merchant, sel) == Err(Unavailable) <==>
      && 1 <= sel.quantity <= 50 && sel.product in t.products && t.products[sel.product].merchant == merchant
      && (!t.products[sel.product].available || UnavailableFirst(Menus(t, sel.product), Chosen(sel)))
    ensures PriceOf(t, merchant, sel) == Err(BadModifiers) ==>
      t.products[sel.product].available && !Sellable(t, merchant, sel)
  {
  }

  lemma BelongsSomewhere(groups: seq<Group>, chosen: set<nat>)
    ensures chosen <= IdSet(Flat(groups)) <==>
      forall id :: id in chosen ==> exists g :: 0 <= g < |groups| && id in Offered(groups[g].options)
  {
    IdSetIsOffered(Flat(groups));
    forall id: nat
      ensures id in Offered(Flat(groups)) <==> exists g :: 0 <= g < |groups| && id in Offered(groups[g].options)
    {
      if id in Offered(Flat(groups)) {
        var o :| o in Flat(groups) && o.id == id;
        FlatHas(groups, o);
        var g :| 0 <= g < |groups| && o in groups[g].options;
        assert id in Offered(groups[g].options);
      }
      if g :| 0 <= g < |groups| && id in Offered(groups[g].options) {
        var o :| o in groups[g].options && o.id == id;
        FlatHas(groups, o);
      }
    }
  }
}
