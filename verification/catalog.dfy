/** Reading a product's modifier groups out of the joined rows, and pricing a choice. */
module Catalog {
  import opened Basics

  datatype Choice = Choice(id: nat, name: string, delta: int, available: bool, sort: int)

  datatype Group = Group(id: nat, name: string, minSelect: int, maxSelect: int, sort: int, options: seq<Choice>)

  /** One row of groups left-joined with options. */
  datatype Row = Row(product: nat, group: Group, option: Option<Choice>)

  // ------------------------------------------------------------- the grouping

  function IndexOf(groups: seq<Group>, id: nat): (at: Option<nat>)
    ensures at.Some? ==> at.value < |groups|
  {
    if groups == [] then None
    else if groups[|groups| - 1].id == id then Some(|groups| - 1)
    else IndexOf(groups[..|groups| - 1], id)
  }

  function OptionOf(r: Row): seq<Choice> { if r.option.Some? then [r.option.value] else [] }

  function With(g: Group, options: seq<Choice>): (r: Group)
    ensures options == [] ==> r == g
  {
    g.(options := g.options + options)
  }

  ghost function Seen(rows: seq<Row>): set<nat> {
    if rows == [] then {} else Seen(rows[..|rows| - 1]) + {rows[|rows| - 1].group.id}
  }

  /** Group-by in row order: the product's groups as they first appear, each with its
      options as they come. */
  function Groups(rows: seq<Row>, product: nat): seq<Group> {
    if rows == [] then []
    else
      var before, r := Groups(rows[..|rows| - 1], product), rows[|rows| - 1];
      if r.product != product then before
      else match IndexOf(before, r.group.id)
        case None => before + [With(r.group.(options := []), OptionOf(r))]
        case Some(k) => before[k := With(before[k], OptionOf(r))]
  }

  function OptionsOf(rows: seq<Row>, product: nat, group: nat): seq<Choice> {
    if rows == [] then []
    else
      var r := rows[|rows| - 1];
      OptionsOf(rows[..|rows| - 1], product, group)
        + (if r.product == product && r.group.id == group then OptionOf(r) else [])
  }

  // ------------------------------------------------------------- the ordering

  predicate Before(a: Row, b: Row) {
    || a.product < b.product
    || (a.product == b.product && a.group.sort < b.group.sort)
    || (a.product == b.product && a.group.sort == b.group.sort && a.group.id <= b.group.id)
  }

  /** ORDER BY product, group sort, group id (then option sort, which plays no part here). */
  predicate Ordered(rows: seq<Row>) {
    forall i, k :: 0 <= i < k < |rows| ==> Before(rows[i], rows[k])
  }

  /** A group is one table row: all its joined rows agree on its product and columns. */
  predicate OneRowPerGroup(rows: seq<Row>) {
    forall i, k :: 0 <= i < k < |rows| && rows[i].group.id == rows[k].group.id ==>
      rows[i].product == rows[k].product && rows[i].group == rows[k].group
  }

  /** The ordering keeps the rows of a group together. */
  lemma Contiguous(rows: seq<Row>, i: nat, j: nat, k: nat)
    requires Ordered(rows) && OneRowPerGroup(rows) && i < j < k < |rows| && rows[i].group.id == rows[k].group.id
    ensures rows[j].group.id == rows[i].group.id
  {
    assert Before(rows[i], rows[j]) && Before(rows[j], rows[k]);
  }

  // -------------------------------------------------- slices and their backing

  /** A slice of groups: a backing array and how much of it is in use. */
  datatype Slice = Slice(data: array<Group>, len: nat)

  /** The address of one element of a backing array; it goes stale when the slice that
      grew past the array moves on to a larger one. */
  datatype Pointer = Pointer(data: array<Group>, index: nat)

  method Append(s: Slice, g: Group) returns (t: Slice)
    requires s.len <= s.data.Length
    modifies s.data
    ensures t.len == s.len + 1 <= t.data.Length
    ensures t.data[..t.len] == old(s.data[..s.len]) + [g]
    ensures t.data == s.data || fresh(t.data)
    ensures t.data != s.data ==> unchanged(s.data)
    ensures t.data.Length > 0
  {
    if s.len < s.data.Length {
      s.data[s.len] := g;
      return Slice(s.data, s.len + 1);
    }
    var capacity: nat :| capacity > s.len;   // however much the runtime grows it
    var larger := new Group[capacity];
    for i := 0 to s.len
      invariant larger[..i] == s.data[..i]
      invariant unchanged(s.data)
    {
      larger[i] := s.data[i];
    }
    larger[s.len] := g;
    return Slice(larger, s.len + 1);
  }

  /** No write to one product's groups can reach another's. */
  ghost predicate Apart(slices: map<nat, Slice>) {
    forall p, q :: p in slices && q in slices && p != q ==> slices[p].data != slices[q].data
  }

  ghost predicate Holds(s: Slice, groups: seq<Group>)
    reads s.data
  {
    s.len <= s.data.Length && s.data[..s.len] == groups
  }

  /** The group of the last row read is the last of its product, and its pointer is not stale. */
  ghost predicate LastIsLive(slices: map<nat, Slice>, groups: map<nat, Pointer>, rows: seq<Row>, i: nat)
    requires i <= |rows|
  {
    i > 0 ==>
      var product, group := rows[i - 1].product, rows[i - 1].group.id;
      && product in slices && group in groups && slices[product].len > 0
      && groups[group] == Pointer(slices[product].data, slices[product].len - 1)
  }

  /** Adding an option to the group a pointer designates. */
  method Push(grp: Pointer, o: Choice)
    requires grp.index < grp.data.Length
    modifies grp.data
    ensures grp.data[..] == old(grp.data[..])[grp.index := With(old(grp.data[grp.index]), [o])]
  {
    grp.data[grp.index] := grp.data[grp.index].(options := grp.data[grp.index].options + [o]);
  }

  /** The product's groups once the row's group is among them. */
  ghost function Opened(groups: seq<Group>, g: Group): seq<Group> {
    if IndexOf(groups, g.id).Some? then groups else groups + [g.(options := [])]
  }

  /** Find the row's group, or append it and remember where it went. */
  method FindOrAdd(slices: map<nat, Slice>, groups: map<nat, Pointer>, rows: seq<Row>, i: nat)
    returns (t: Slice, groups': map<nat, Pointer>)
    requires i < |rows| && Ordered(rows) && OneRowPerGroup(rows)
    requires rows[i].product in slices
    requires Holds(slices[rows[i].product], Groups(rows[..i], rows[i].product))
    requires groups.Keys == Seen(rows[..i])
    requires LastIsLive(slices, groups, rows, i)
    modifies slices[rows[i].product].data
    ensures t.data == slices[rows[i].product].data || fresh(t.data)
    ensures Holds(t, Opened(Groups(rows[..i], rows[i].product), rows[i].group))
    ensures groups'.Keys == groups.Keys + {rows[i].group.id}
    ensures t.len > 0 && groups'[rows[i].group.id] == Pointer(t.data, t.len - 1)
  {
    var r := rows[i];
    t, groups' := slices[r.product], groups;
    if r.group.id !in groups {
      UnseenHasNoIndex(rows[..i], r.product, r.group.id);
      t := Append(t, r.group.(options := []));
      groups' := groups[r.group.id := Pointer(t.data, t.len - 1)];
    } else {
      SeenIsLast(rows, i);
    }
  }

  /** The row's group, then its option through the group's pointer. */
  method Fill(slices: map<nat, Slice>, groups: map<nat, Pointer>, rows: seq<Row>, i: nat)
    returns (t: Slice, groups': map<nat, Pointer>)
    requires i < |rows| && Ordered(rows) && OneRowPerGroup(rows)
    requires rows[i].product in slices
    requires Holds(slices[rows[i].product], Groups(rows[..i], rows[i].product))
    requires groups.Keys == Seen(rows[..i])
    requires LastIsLive(slices, groups, rows, i)
    modifies slices[rows[i].product].data
    ensures t.data == slices[rows[i].product].data || fresh(t.data)
    ensures Holds(t, Groups(rows[..i + 1], rows[i].product))
    ensures groups'.Keys == groups.Keys + {rows[i].group.id}
    ensures t.len > 0 && groups'[rows[i].group.id] == Pointer(t.data, t.len - 1)
  {
    var r := rows[i];
    t, groups' := FindOrAdd(slices, groups, rows, i);
    ghost var open := t.data[..t.len];
    if r.option.Some? {
      Push(groups'[r.group.id], r.option.value);
    }
    assert t.data[..t.len] == open[t.len - 1 := With(open[t.len - 1], OptionOf(r))];
    OpenedGroupIsLast(rows, i);
    assert rows[..i + 1] == rows[..i] + [r];
    GroupsOfOneMore(rows[..i], r, r.product);
  }

  /** Each product's slice holds its groups, and no two share a backing array. */
  ghost predicate Loaded(slices: map<nat, Slice>, menu: map<nat, seq<Group>>)
    reads set p | p in slices :: slices[p].data
  {
    slices.Keys == menu.Keys && Apart(slices) && forall p :: p in slices ==> Holds(slices[p], menu[p])
  }

  ghost function Menu(products: set<nat>, rows: seq<Row>): map<nat, seq<Group>> {
    map p | p in products :: Groups(rows, p)
  }

  lemma MenuOfOneMore(products: set<nat>, rows: seq<Row>, i: nat)
    requires i < |rows| && rows[i].product in products
    ensures Menu(products, rows[..i + 1]) ==
      Menu(products, rows[..i])[rows[i].product := Groups(rows[..i + 1], rows[i].product)]
  {
    assert rows[..i + 1] == rows[..i] + [rows[i]];
    forall p | p in products && p != rows[i].product
      ensures Groups(rows[..i + 1], p) == Groups(rows[..i], p)
    {
      GroupsOfOneMore(rows[..i], rows[i], p);
    }
  }

  /** One row: only its own product's slice changes. */
  method Take(slices: map<nat, Slice>, groups: map<nat, Pointer>, rows: seq<Row>, i: nat,
      ghost menu: map<nat, seq<Group>>)
    returns (slices': map<nat, Slice>, groups': map<nat, Pointer>)
    requires i < |rows| && Ordered(rows) && OneRowPerGroup(rows)
    requires Loaded(slices, menu) && rows[i].product in menu
      && menu[rows[i].product] == Groups(rows[..i], rows[i].product)
    requires groups.Keys == Seen(rows[..i]) && LastIsLive(slices, groups, rows, i)
    modifies slices[rows[i].product].data
    ensures Loaded(slices', menu[rows[i].product := Groups(rows[..i + 1], rows[i].product)])
    ensures var p := rows[i].product;
      slices' == slices[p := slices'[p]] && (slices'[p].data == slices[p].data || fresh(slices'[p].data))
    ensures groups'.Keys == Seen(rows[..i + 1]) && LastIsLive(slices', groups', rows, i + 1)
  {
    var product := rows[i].product;
    var t;
    t, groups' := Fill(slices, groups, rows, i);
    slices' := slices[product := t];
    ApartKept(slices, product, t);
    assert rows[..i + 1][..i] == rows[..i];
  }

  lemma ApartKept(slices: map<nat, Slice>, product: nat, t: Slice)
    requires Apart(slices) && product in slices
    requires t.data == slices[product].data || forall p :: p in slices ==> slices[p].data != t.data
    ensures Apart(slices[product := t])
  {
  }

  /** What the loader holds: the groups of each product, the groups it has a pointer to, and whether
      the last of them is live. */
  datatype Holding = Holding(menu: map<nat, seq<Group>>, seen: set<nat>, live: bool)

  ghost function View(slices: map<nat, Slice>): map<nat, seq<Group>>
    requires forall p :: p in slices ==> slices[p].len <= slices[p].data.Length
    reads set p | p in slices :: slices[p].data
  {
    map p | p in slices :: slices[p].data[..slices[p].len]
  }

  /** None when slices share a backing array, or use one outside `repr`. */
  ghost function HeldBy(slices: map<nat, Slice>, groups: map<nat, Pointer>, repr: set<object>, rows: seq<Row>,
      i: nat): Option<Holding>
    requires i <= |rows|
    reads repr
  {
    if Apart(slices) && forall p :: p in slices ==>
      slices[p].data in repr && slices[p].len <= slices[p].data.Length then
      Some(Holding(View(slices), groups.Keys, LastIsLive(slices, groups, rows, i)))
    else None
  }

  /** The loader holds exactly what the first `i` rows say. */
  ghost predicate Progress(slices: map<nat, Slice>, groups: map<nat, Pointer>, repr: set<object>, products: set<nat>,
      rows: seq<Row>, i: nat)
    requires i <= |rows|
    reads repr
  {
    HeldBy(slices, groups, repr, rows, i) == Some(Holding(Menu(products, rows[..i]), Seen(rows[..i]), true))
  }

  /** The same, slice by slice. */
  ghost predicate SliceBySlice(slices: map<nat, Slice>, groups: map<nat, Pointer>, repr: set<object>,
      products: set<nat>, rows: seq<Row>, i: nat)
    requires i <= |rows|
    reads repr, set p | p in slices :: slices[p].data
  {
    && (forall p :: p in slices ==> slices[p].data in repr)
    && Loaded(slices, Menu(products, rows[..i])) && groups.Keys == Seen(rows[..i])
        && LastIsLive(slices, groups, rows, i)
  }

  lemma ProgressIs(slices: map<nat, Slice>, groups: map<nat, Pointer>, repr: set<object>, products: set<nat>,
      rows: seq<Row>, i: nat)
    requires i <= |rows|
    ensures Progress(slices, groups, repr, products, rows, i) <==> SliceBySlice(slices, groups, repr, products, rows, i)
  {
    var menu := Menu(products, rows[..i]);
    if Progress(slices, groups, repr, products, rows, i) {
      assert menu == View(slices) && menu.Keys == slices.Keys;
      assert forall p :: p in slices ==> p in menu && menu[p] == slices[p].data[..slices[p].len];
    }
    if SliceBySlice(slices, groups, repr, products, rows, i) {
      assert View(slices) == menu;
    }
  }

  method TakeWithin(slices: map<nat, Slice>, groups: map<nat, Pointer>, ghost repr: set<object>,
      ghost products: set<nat>, rows: seq<Row>, i: nat)
    returns (slices': map<nat, Slice>, groups': map<nat, Pointer>, ghost repr': set<object>)
    requires i < |rows| && Ordered(rows) && OneRowPerGroup(rows)
    requires SliceBySlice(slices, groups, repr, products, rows, i) && rows[i].product in products
    modifies slices[rows[i].product].data
    ensures SliceBySlice(slices', groups', repr', products, rows, i + 1)
    ensures repr <= repr' && fresh(repr' - repr)
  {
    MenuOfOneMore(products, rows, i);
    slices', groups' := Take(slices, groups, rows, i, Menu(products, rows[..i]));
    repr' := repr + {slices'[rows[i].product].data};
  }

  /** One row more. */
  method Step(slices: map<nat, Slice>, groups: map<nat, Pointer>, ghost repr: set<object>, ghost products: set<nat>,
              rows: seq<Row>, i: nat)
    returns (slices': map<nat, Slice>, groups': map<nat, Pointer>, ghost repr': set<object>)
    requires i < |rows| && Ordered(rows) && OneRowPerGroup(rows)
    requires Progress(slices, groups, repr, products, rows, i) && rows[i].product in products
    modifies repr
    ensures Progress(slices', groups', repr', products, rows, i + 1)
    ensures repr <= repr' && fresh(repr' - repr)
  {
    ProgressIs(slices, groups, repr, products, rows, i);
    slices', groups', repr' := TakeWithin(slices, groups, repr, products, rows, i);
    ProgressIs(slices', groups', repr', products, rows, i + 1);
  }

  ghost function IdsOf(products: seq<nat>): set<nat> { set p | p in products }

  /** Every product starts with no groups, in a slice of its own. */
  method Start(products: seq<nat>, ghost rows: seq<Row>) returns (slices: map<nat, Slice>, ghost repr: set<object>)
    ensures fresh(repr) && Progress(slices, map[], repr, IdsOf(products), rows, 0)
  {
    slices, repr := map[], {};
    for i := 0 to |products|
      invariant slices.Keys == IdsOf(products[..i]) && Apart(slices) && fresh(repr)
      invariant forall p :: p in slices ==> slices[p].data in repr && Holds(slices[p], [])
    {
      var none := new Group[0];
      slices, repr := slices[products[i] := Slice(none, 0)], repr + {none};
    }
    assert products[..|products|] == products && rows[..0] == [];
    assert SliceBySlice(slices, map[], repr, IdsOf(products), rows, 0);
    ProgressIs(slices, map[], repr, IdsOf(products), rows, 0);
  }

  /** What the slices hold once all is loaded. */
  function Contents(slices: map<nat, Slice>, ghost groups: map<nat, Pointer>, ghost repr: set<object>,
      ghost ids: set<nat>, ghost rows: seq<Row>)
    : (r: map<nat, seq<Group>>)
    requires Progress(slices, groups, repr, ids, rows, |rows|)
    reads repr
    ensures r == Menu(ids, rows)
  {
    assert rows[..|rows|] == rows;
    ProgressIs(slices, groups, repr, ids, rows, |rows|);
    map p | p in slices :: slices[p].data[..slices[p].len]
  }

  lemma {:induction false} SeenIs(rows: seq<Row>, g: nat)
    ensures g in Seen(rows) <==> exists k :: 0 <= k < |rows| && rows[k].group.id == g
  {
    if rows != [] {
      var n := |rows| - 1;
      SeenIs(rows[..n], g);
      if g in Seen(rows[..n]) {
        var k :| 0 <= k < n && rows[..n][k].group.id == g;
        assert rows[k].group.id == g;
      }
      if k :| 0 <= k < n && rows[k].group.id == g {
        assert rows[..n][k].group.id == g;
      }
    }
  }

  /** A row's options go to its opened group and to no other. */
  lemma GroupsOfOneMore(rows: seq<Row>, r: Row, product: nat)
    ensures r.product != product ==> Groups(rows + [r], product) == Groups(rows, product)
    ensures r.product == product ==>
      var open := Opened(Groups(rows, product), r.group);
      var k := IndexOf(open, r.group.id);
      k.Some? && Groups(rows + [r], product) == open[k.value := With(open[k.value], OptionOf(r))]
  {
    assert (rows + [r])[..|rows|] == rows;
  }

  lemma OpenedGroupIsLast(rows: seq<Row>, i: nat)
    requires i < |rows| && Ordered(rows) && OneRowPerGroup(rows)
    ensures var open := Opened(Groups(rows[..i], rows[i].product), rows[i].group);
      |open| > 0 && IndexOf(open, rows[i].group.id) == Some(|open| - 1)
  {
    if rows[i].group.id in Seen(rows[..i]) {
      SeenIsLast(rows, i);
    } else {
      UnseenHasNoIndex(rows[..i], rows[i].product, rows[i].group.id);
    }
  }

  lemma {:induction false} IndexOfIs(groups: seq<Group>, id: nat)
    ensures match IndexOf(groups, id)
      case None => forall k :: 0 <= k < |groups| ==> groups[k].id != id
      case Some(k) => k < |groups| && groups[k].id == id
  {
    if groups != [] { IndexOfIs(groups[..|groups| - 1], id); }
  }

  lemma {:induction false} GroupsComeFromRows(rows: seq<Row>, product: nat, k: nat)
    requires k < |Groups(rows, product)|
    ensures exists i :: 0 <= i < |rows| && rows[i].product == product && rows[i].group.id == Groups(rows, product)[k].id
  {
    var n := |rows| - 1;
    var before := Groups(rows[..n], product);
    IndexOfIs(before, rows[n].group.id);
    if k < |before| {
      GroupsComeFromRows(rows[..n], product, k);
      var i :| 0 <= i < n && rows[..n][i].product == product && rows[..n][i].group.id == before[k].id;
      assert rows[i].group.id == Groups(rows, product)[k].id;
    } else {
      assert rows[n].group.id == Groups(rows, product)[k].id;
    }
  }

  lemma UnseenHasNoIndex(rows: seq<Row>, product: nat, id: nat)
    requires id !in Seen(rows)
    ensures IndexOf(Groups(rows, product), id) == None
  {
    SeenIs(rows, id);
    IndexOfIs(Groups(rows, product), id);
    if IndexOf(Groups(rows, product), id).Some? {
      GroupsComeFromRows(rows, product, IndexOf(Groups(rows, product), id).value);
    }
  }

  /** A group seen before is the one of the row just read. */
  lemma SeenIsPrevious(rows: seq<Row>, i: nat)
    requires i < |rows| && Ordered(rows) && OneRowPerGroup(rows) && rows[i].group.id in Seen(rows[..i])
    ensures i > 0 && rows[i - 1].group.id == rows[i].group.id && rows[i - 1].product == rows[i].product
  {
    SeenIs(rows[..i], rows[i].group.id);
    var k :| 0 <= k < i && rows[..i][k].group.id == rows[i].group.id;
    if k < i - 1 { Contiguous(rows, k, i - 1, i); }
  }

  /** The latest row's group stands last among its product's. */
  lemma {:induction false} LatestIsLast(rows: seq<Row>, i: nat)
    requires 0 < i <= |rows| && Ordered(rows) && OneRowPerGroup(rows)
    ensures EndsWith(Groups(rows[..i], rows[i - 1].product), rows[i - 1].group.id)
    decreases i
  {
    var r := rows[i - 1];
    assert rows[..i] == rows[..i - 1] + [r];
    GroupsOfOneMore(rows[..i - 1], r, r.product);
    if r.group.id in Seen(rows[..i - 1]) {
      SeenIsPrevious(rows, i - 1);
      LatestIsLast(rows, i - 1);
    } else {
      UnseenHasNoIndex(rows[..i - 1], r.product, r.group.id);
    }
  }

  ghost predicate EndsWith(groups: seq<Group>, id: nat) {
    |groups| > 0 && groups[|groups| - 1].id == id
  }

  lemma SeenIsLast(rows: seq<Row>, i: nat)
    requires i < |rows| && Ordered(rows) && OneRowPerGroup(rows) && rows[i].group.id in Seen(rows[..i])
    ensures i > 0 && rows[i - 1].group.id == rows[i].group.id && rows[i - 1].product == rows[i].product
    ensures var gs := Groups(rows[..i], rows[i].product); IndexOf(gs, rows[i].group.id) == Some(|gs| - 1)
  {
    SeenIsPrevious(rows, i);
    LatestIsLast(rows, i);
  }

  // ------------------------------------------------------ what the group-by is

  ghost predicate DistinctGroups(gs: seq<Group>) {
    forall i, k :: 0 <= i < k < |gs| ==> gs[i].id != gs[k].id
  }

  /** The group-by, said without its recursion: each group appears once. */
  lemma {:induction false} GroupsAreDistinct(rows: seq<Row>, product: nat)
    ensures DistinctGroups(Groups(rows, product))
  {
    if rows != [] {
      var before, gs := Groups(rows[..|rows| - 1], product), Groups(rows, product);
      GroupsAreDistinct(rows[..|rows| - 1], product);
      IndexOfIs(before, rows[|rows| - 1].group.id);
      assert |gs| <= |before| + 1 && forall k :: 0 <= k < |before| ==> gs[k].id == before[k].id;
      forall i, k | 0 <= i < k < |gs|
        ensures gs[i].id != gs[k].id
      {
        assert gs[i].id == before[i].id;
        if k < |before| {
          assert before[i].id != before[k].id;
        } else {
          assert gs[k].id == rows[|rows| - 1].group.id;
        }
      }
    }
  }

  lemma KeepsIndex(before: seq<Group>, after: seq<Group>, id: nat)
    requires |before| <= |after| && forall k :: 0 <= k < |before| ==> before[k].id == after[k].id
    requires IndexOf(before, id).Some?
    ensures IndexOf(after, id).Some?
  {
    IndexOfIs(before, id);
    IndexOfIs(after, id);
  }

  /** No row's group is missing. */
  lemma {:induction false} NoGroupMissing(rows: seq<Row>, product: nat, i: nat)
    requires i < |rows| && rows[i].product == product
    ensures IndexOf(Groups(rows, product), rows[i].group.id).Some?
  {
    var n := |rows| - 1;
    assert rows == rows[..n] + [rows[n]];
    GroupsOfOneMore(rows[..n], rows[n], product);
    if i < n {
      NoGroupMissing(rows[..n], product, i);
      KeepsIndex(Groups(rows[..n], product), Groups(rows, product), rows[i].group.id);
    } else {
      KeepsIndex(Opened(Groups(rows[..n], product), rows[n].group), Groups(rows, product), rows[i].group.id);
    }
  }

  lemma {:induction false} NoOptionsUnlessSeen(rows: seq<Row>, product: nat, id: nat)
    requires IndexOf(Groups(rows, product), id).None?
    ensures OptionsOf(rows, product, id) == []
  {
    if rows != [] {
      var n := |rows| - 1;
      if rows[n].product == product && rows[n].group.id == id { NoGroupMissing(rows, product, n); }
      if IndexOf(Groups(rows[..n], product), id).Some? {
        KeepsIndex(Groups(rows[..n], product), Groups(rows, product), id);
      }
      NoOptionsUnlessSeen(rows[..n], product, id);
    }
  }

  /** Each group has its own options: all of them, in row order, and no other. */
  lemma {:induction false} GroupsHaveTheirOptions(rows: seq<Row>, product: nat, k: nat)
    requires k < |Groups(rows, product)|
    ensures Groups(rows, product)[k].options == OptionsOf(rows, product, Groups(rows, product)[k].id)
  {
    var n := |rows| - 1;
    var before, r := Groups(rows[..n], product), rows[n];
    IndexOfIs(before, r.group.id);
    GroupsAreDistinct(rows[..n], product);
    if k < |before| {
      GroupsHaveTheirOptions(rows[..n], product, k);
    } else {
      NoOptionsUnlessSeen(rows[..n], product, r.group.id);
    }
  }

  function Flat(groups: seq<Group>): seq<Choice> {
    if groups == [] then [] else Flat(groups[..|groups| - 1]) + groups[|groups| - 1].options
  }

  function AllOptions(rows: seq<Row>, product: nat): seq<Choice> {
    if rows == [] then []
    else
      var r := rows[|rows| - 1];
      AllOptions(rows[..|rows| - 1], product) + (if r.product == product then OptionOf(r) else [])
  }

  lemma FlatOfLast(gs: seq<Group>, front: seq<Group>, last: Group)
    requires gs == front + [last]
    ensures multiset(Flat(gs)) == multiset(Flat(front)) + multiset(last.options)
  {
    assert gs[..|gs| - 1] == front;
  }

  lemma {:induction false} FlatOfUpdate(gs: seq<Group>, k: nat, options: seq<Choice>)
    requires k < |gs|
    ensures multiset(Flat(gs[k := With(gs[k], options)])) == multiset(Flat(gs)) + multiset(options)
  {
    var n := |gs| - 1;
    var front, last := gs[..n], gs[n];
    FlatOfLast(gs, front, last);
    if k < n {
      FlatOfUpdate(front, k, options);
      FlatOfLast(gs[k := With(gs[k], options)], front[k := With(front[k], options)], last);
    } else {
      FlatOfLast(gs[k := With(gs[k], options)], front, With(last, options));
    }
  }

  lemma OptionsOfOneMore(rows: seq<Row>, r: Row, product: nat)
    ensures AllOptions(rows + [r], product) == AllOptions(rows, product) + if r.product == product then OptionOf(r)
      else []
  {
    assert (rows + [r])[..|rows|] == rows;
  }

  lemma FlatOfOpened(groups: seq<Group>, g: Group)
    ensures Flat(Opened(groups, g)) == Flat(groups)
  {
    if IndexOf(groups, g.id).None? {
      var none := g.(options := []);
      assert (groups + [none])[..|groups|] == groups;
      assert Flat(groups + [none]) == Flat(groups) + none.options;
    }
  }

  lemma FlatOfOneMore(groups: seq<Group>, r: Row, k: nat)
    requires k < |Opened(groups, r.group)|
    ensures var open := Opened(groups, r.group);
      multiset(Flat(open[k := With(open[k], OptionOf(r))])) == multiset(Flat(groups)) + multiset(OptionOf(r))
  {
    FlatOfOpened(groups, r.group);
    FlatOfUpdate(Opened(groups, r.group), k, OptionOf(r));
  }

  /** No option is lost, doubled or invented by the grouping. */
  lemma {:induction false} NoOptionLost(rows: seq<Row>, product: nat)
    ensures multiset(Flat(Groups(rows, product))) == multiset(AllOptions(rows, product))
  {
    if rows != [] {
      var front, r := rows[..|rows| - 1], rows[|rows| - 1];
      NoOptionLost(front, product);
      assert rows == front + [r];
      GroupsOfOneMore(front, r, product);
      OptionsOfOneMore(front, r, product);
      if r.product == product {
        FlatOfOneMore(Groups(front, product), r, IndexOf(Opened(Groups(front, product), r.group), r.group.id).value);
      }
    }
  }
}
