/** Supplier fan-out (`OrdenVentaProveedorService.generarOrdenesVentaDesdePedido`):
    an order's lines are grouped by the supplier of each line's article, and
    one supplier sales order (`OrdenVentaProveedor`) is created per supplier,
    with one detail (`DetalleOvp`) per order line of that supplier. */
module SupplierOrders {
  import opened Wrappers
  import opened Catalog
  import opened OrderLines

  /** A supplier-order detail: article, quantity and unit price. */
  datatype SupplierDetail = SupplierDetail(article: ArticleId, quantity: int, unitPrice: Money)

  /** A supplier order as the fan-out saves it. The order number, the status
      and the link to the customer order are never set by the fan-out. */
  datatype SupplierOrder = SupplierOrder(
    supplier: SupplierId,
    createdAt: int,
    orderNumber: Option<string>,
    status: Option<string>,
    customerOrder: Option<int>,
    details: seq<SupplierDetail>)

  /** Every line's article is in the catalog, so it has a supplier and a price. */
  predicate Priced(lines: seq<OrderLine>, catalog: map<ArticleId, Article>) {
    forall i :: 0 <= i < |lines| ==> lines[i].article in catalog
  }

  function SupplierOf(catalog: map<ArticleId, Article>, line: OrderLine): SupplierId
    requires line.article in catalog
  {
    catalog[line.article].supplier
  }

  /** The group `computeIfAbsent(s, ...).add(...)` builds for supplier `s`:
      the lines whose article `s` supplies, in order. */
  function LinesOf(lines: seq<OrderLine>, catalog: map<ArticleId, Article>, s: SupplierId): (r: seq<OrderLine>)
    requires Priced(lines, catalog)
    ensures forall i :: 0 <= i < |r| ==> r[i].article in catalog && SupplierOf(catalog, r[i]) == s
    ensures |r| <= |lines|
  {
    if lines == [] then []
    else
      var last := lines[|lines| - 1];
      LinesOf(lines[..|lines| - 1], catalog, s) + (if SupplierOf(catalog, last) == s then [last] else [])
  }

  /** The distinct suppliers of the lines' articles. */
  function Suppliers(lines: seq<OrderLine>, catalog: map<ArticleId, Article>): set<SupplierId>
    requires Priced(lines, catalog)
  {
    if lines == [] then {}
    else Suppliers(lines[..|lines| - 1], catalog) + {SupplierOf(catalog, lines[|lines| - 1])}
  }

  /** The detail made for one order line: its article and quantity, priced
      at the article's current catalog price rather than the price paid. */
  function DetailFor(catalog: map<ArticleId, Article>, line: OrderLine): SupplierDetail
    requires line.article in catalog
  {
    SupplierDetail(line.article, line.quantity, catalog[line.article].price)
  }

  function DetailsFor(catalog: map<ArticleId, Article>, lines: seq<OrderLine>): seq<SupplierDetail>
    requires Priced(lines, catalog)
  {
    seq(|lines|, i requires 0 <= i < |lines| => DetailFor(catalog, lines[i]))
  }

  /** A supplier is among the lines' suppliers exactly when its group is
      not empty: no supplier order is ever created without details. */
  lemma {:induction false} SupplierHasLines(lines: seq<OrderLine>, catalog: map<ArticleId, Article>, s: SupplierId)
    requires Priced(lines, catalog)
    ensures s in Suppliers(lines, catalog) <==> LinesOf(lines, catalog, s) != []
    decreases |lines|
  {
    if lines != [] {
      SupplierHasLines(lines[..|lines| - 1], catalog, s);
    }
  }

  /** Grouping distributes over concatenation, so each group keeps the
      relative order of the order's lines. */
  lemma {:induction false} LinesOfAppend(a: seq<OrderLine>, b: seq<OrderLine>, catalog: map<ArticleId, Article>, s: SupplierId)
    requires Priced(a, catalog) && Priced(b, catalog)
    ensures Priced(a + b, catalog)
    ensures LinesOf(a + b, catalog, s) == LinesOf(a, catalog, s) + LinesOf(b, catalog, s)
    decreases |b|
  {
    if b == [] {
      assert a + b == a;
    } else {
      var b' := b[..|b| - 1];
      assert (a + b)[..|a + b| - 1] == a + b';
      LinesOfAppend(a, b', catalog, s);
    }
  }

  /** The groups partition the order's lines: every occurrence of a line is
      in the group of its article's supplier, and a line is in no other
      group. */
  lemma {:induction false} GroupsPartitionLines(lines: seq<OrderLine>, catalog: map<ArticleId, Article>, x: OrderLine, s: SupplierId)
    requires Priced(lines, catalog) && x.article in catalog
    ensures s == SupplierOf(catalog, x) ==> multiset(LinesOf(lines, catalog, s))[x] == multiset(lines)[x]
    ensures s != SupplierOf(catalog, x) ==> multiset(LinesOf(lines, catalog, s))[x] == 0
    decreases |lines|
  {
    if lines != [] {
      var init, last := lines[..|lines| - 1], lines[|lines| - 1];
      GroupsPartitionLines(init, catalog, x, s);
      assert lines == init + [last];
      assert multiset(lines) == multiset(init) + multiset{last};
      var tail := if SupplierOf(catalog, last) == s then [last] else [];
      assert multiset(LinesOf(lines, catalog, s)) == multiset(LinesOf(init, catalog, s)) + multiset(tail);
    }
  }

  /** One step of the grouping loop: appending line `i` to the group of its
      supplier (a new group when the supplier has none yet) turns the groups
      of the first `i` lines into the groups of the first `i + 1`. */
  lemma GroupStep(lines: seq<OrderLine>, i: nat, catalog: map<ArticleId, Article>,
                  groups: map<SupplierId, seq<OrderLine>>)
    requires Priced(lines, catalog) && i < |lines|
    requires groups.Keys == Suppliers(lines[..i], catalog)
    requires forall s :: s in groups ==> groups[s] == LinesOf(lines[..i], catalog, s)
    ensures var s := SupplierOf(catalog, lines[i]);
      var next := groups[s := (if s in groups then groups[s] else []) + [lines[i]]];
      && next.Keys == Suppliers(lines[..i + 1], catalog)
      && forall t :: t in next ==> next[t] == LinesOf(lines[..i + 1], catalog, t)
  {
    assert lines[..i + 1][..i] == lines[..i];
    SupplierHasLines(lines[..i], catalog, SupplierOf(catalog, lines[i]));
  }

  /** The grouping loop of `generarOrdenesVentaDesdePedido`: a map from each
      supplier of the lines to the lines of that supplier, in line order. */
  method GroupBySupplier(lines: seq<OrderLine>, catalog: map<ArticleId, Article>)
    returns (groups: map<SupplierId, seq<OrderLine>>)
    requires Priced(lines, catalog)
    ensures groups.Keys == Suppliers(lines, catalog)
    ensures forall s :: s in groups ==> groups[s] == LinesOf(lines, catalog, s)
  {
    groups := map[];
    var i := 0;
    while i < |lines|
      invariant 0 <= i <= |lines|
      invariant groups.Keys == Suppliers(lines[..i], catalog)
      invariant forall s :: s in groups ==> groups[s] == LinesOf(lines[..i], catalog, s)
    {
      var s := catalog[lines[i].article].supplier;
      var group := if s in groups then groups[s] else [];
      GroupStep(lines, i, catalog, groups);
      groups := groups[s := group + [lines[i]]];
      i := i + 1;
    }
    assert lines[..i] == lines;
  }

  /** The detail loop for one supplier: one detail per line, in order. */
  method MakeDetails(group: seq<OrderLine>, catalog: map<ArticleId, Article>)
    returns (details: seq<SupplierDetail>)
    requires Priced(group, catalog)
    ensures details == DetailsFor(catalog, group)
  {
    details := [];
    var j := 0;
    while j < |group|
      invariant 0 <= j <= |group|
      invariant details == DetailsFor(catalog, group[..j])
    {
      assert DetailsFor(catalog, group[..j + 1]) == DetailsFor(catalog, group[..j]) + [DetailFor(catalog, group[j])];
      details := details + [DetailFor(catalog, group[j])];
      j := j + 1;
    }
    assert group[..j] == group;
  }

  /** The suppliers of a sequence of supplier orders. */
  function Served(created: seq<SupplierOrder>): set<SupplierId> {
    if created == [] then {}
    else Served(created[..|created| - 1]) + {created[|created| - 1].supplier}
  }

  /** No supplier orders serve no supplier, and some serve at least one. */
  lemma ServedEmpty(created: seq<SupplierOrder>)
    ensures Served(created) == {} <==> created == []
  {
    if created != [] {
      assert created[|created| - 1].supplier in Served(created);
    }
  }

  /** A non-empty set has a member to pick. */
  lemma NonEmptyHasMember(xs: set<SupplierId>)
    requires xs != {}
    ensures exists x :: x in xs
  {
    if forall x :: x !in xs {
      assert false;
    }
  }

  /** The emission loop of `generarOrdenesVentaDesdePedido`: one supplier
      order per group, in the map's iteration order, which is unspecified
      and so chosen arbitrarily here. */
  method EmitOrders(groups: map<SupplierId, seq<OrderLine>>, catalog: map<ArticleId, Article>, now: int)
    returns (created: seq<SupplierOrder>)
    requires forall s :: s in groups ==> Priced(groups[s], catalog)
    ensures Served(created) == groups.Keys
    ensures forall j, k :: 0 <= j < k < |created| ==> created[j].supplier != created[k].supplier
    ensures forall k :: 0 <= k < |created| ==>
      && created[k].supplier in groups
      && created[k] == SupplierOrder(created[k].supplier, now, None, None, None, DetailsFor(catalog, groups[created[k].supplier]))
  {
    created := [];
    var pending := groups.Keys;
    while pending != {}
      invariant pending <= groups.Keys
      invariant Served(created) + pending == groups.Keys
      invariant forall k :: 0 <= k < |created| ==> created[k].supplier in groups && created[k].supplier !in pending
      invariant forall j, k :: 0 <= j < k < |created| ==> created[j].supplier != created[k].supplier
      invariant forall k :: 0 <= k < |created| ==>
        created[k] == SupplierOrder(created[k].supplier, now, None, None, None, DetailsFor(catalog, groups[created[k].supplier]))
      decreases |pending|
    {
      NonEmptyHasMember(pending);
      var s :| s in pending;
      var details := MakeDetails(groups[s], catalog);
      var order := SupplierOrder(s, now, None, None, None, details);
      assert (created + [order])[..|created|] == created;
      created := created + [order];
      pending := pending - {s};
    }
  }

  /** `generarOrdenesVentaDesdePedido`: one supplier order per distinct
      supplier of the lines, each dated `now`, with no number, status or
      customer-order link, and holding the details of that supplier's lines
      in line order. An order without lines gives no supplier order. */
  method GenerateSupplierOrders(lines: seq<OrderLine>, catalog: map<ArticleId, Article>, now: int)
    returns (created: seq<SupplierOrder>)
    requires Priced(lines, catalog)
    ensures lines == [] ==> created == []
    ensures Served(created) == Suppliers(lines, catalog)
    ensures forall j, k :: 0 <= j < k < |created| ==> created[j].supplier != created[k].supplier
    ensures forall k :: 0 <= k < |created| ==>
      created[k] == SupplierOrder(created[k].supplier, now, None, None, None,
                                  DetailsFor(catalog, LinesOf(lines, catalog, created[k].supplier)))
  {
    var groups := GroupBySupplier(lines, catalog);
    created := EmitOrders(groups, catalog, now);
    ServedEmpty(created);
  }
}
