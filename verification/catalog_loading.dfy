/** The one pass that reads all products' modifier groups. */
module CatalogLoading {
  import opened Catalog

  /** Row by row, through pointers into slices that go on growing. */
  method ReadRows(slices: map<nat, Slice>, ghost repr: set<object>, ghost products: set<nat>, rows: seq<Row>)
    returns (slices': map<nat, Slice>, ghost groups': map<nat, Pointer>, ghost repr': set<object>)
    requires Ordered(rows) && OneRowPerGroup(rows)
    requires forall i :: 0 <= i < |rows| ==> rows[i].product in products
    requires Progress(slices, map[], repr, products, rows, 0)
    modifies repr
    ensures Progress(slices', groups', repr', products, rows, |rows|)
  {
    var groups: map<nat, Pointer> := map[];
    slices', repr' := slices, repr;
    for i := 0 to |rows|
      invariant fresh(repr' - repr) && Progress(slices', groups, repr', products, rows, i)
    {
      slices', groups, repr' := Step(slices', groups, repr', products, rows, i);
    }
    groups' := groups;
  }

  /** Although options are appended through pointers that reallocation can leave stale, the
      result is exactly the group-by. */
  method LoadModifiers(products: seq<nat>, rows: seq<Row>) returns (modifiers: map<nat, seq<Group>>)
    requires Ordered(rows) && OneRowPerGroup(rows)
    requires forall i :: 0 <= i < |rows| ==> rows[i].product in IdsOf(products)
    ensures modifiers == Menu(IdsOf(products), rows)
  {
    var slices;
    ghost var groups, repr;
    slices, repr := Start(products, rows);
    slices, groups, repr := ReadRows(slices, repr, IdsOf(products), rows);
    modifiers := Contents(slices, groups, repr, IdsOf(products), rows);
  }
}
