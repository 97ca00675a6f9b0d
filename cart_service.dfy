/** The cart store (`CarritoService`): one cart per client, the catalog's
    per-article stock counters, and the four operations add, decrement,
    view and clear. Each operation is one atomic step: a call that fails
    changes nothing, as the transaction around it is rolled back. */
module CartService {
  import opened Wrappers
  import opened Catalog
  import opened CartLines
  import opened Carts

  datatype CartError =
    | InvalidQuantity     // quantity <= 0
    | ArticleNotFound     // unknown article id
    | InsufficientStock   // the stock checks failed
    | CartNotFound        // the client has no cart
    | ItemNotFound        // the article is not in the client's cart

  /** What the operations return (`CarritoResponseDTO`): the lines and the totals. */
  datatype CartView = CartView(items: seq<CartLine>, totals: Totals)

  function ViewOf(cart: Carts.Carrito): CartView
    reads cart
  {
    CartView(cart.lines, cart.CurrentTotals())
  }

  // ---------------------------------------------------------------------
  // Line-sequence specifications

  /** `stream().filter(d -> d.article == a).findFirst()`: the index of the
      first line for article `a`, if any. */
  function FindLine(lines: seq<CartLine>, a: ArticleId): (r: Option<nat>)
    ensures r.Some? ==> r.value < |lines| && lines[r.value].article == a
    ensures r.Some? ==> forall j :: 0 <= j < r.value ==> lines[j].article != a
    ensures r.None? ==> forall j :: 0 <= j < |lines| ==> lines[j].article != a
  {
    if lines == [] then None
    else match FindLine(lines[..|lines| - 1], a)
      case Some(i) => Some(i)
      case None => if lines[|lines| - 1].article == a then Some(|lines| - 1) else None
  }

  /** Units of article `a` that line `line` holds. */
  function Held(line: CartLine, a: ArticleId): int {
    if line.article == a then line.quantity else 0
  }

  /** Units of article `a` held by a cart with these lines. */
  function CartQty(lines: seq<CartLine>, a: ArticleId): int {
    if lines == [] then 0 else CartQty(lines[..|lines| - 1], a) + Held(lines[|lines| - 1], a)
  }

  /** The invariant every stored cart keeps: each line has a positive
      quantity, a known article, a price and a settled total, and no two
      lines share an article. */
  predicate WellFormed(lines: seq<CartLine>, known: set<ArticleId>) {
    && (forall i :: 0 <= i < |lines| ==>
          lines[i].quantity >= 1 && lines[i].article in known && lines[i].unitPrice.Some? && lines[i].Settled())
    && (forall i, j :: 0 <= i < j < |lines| ==> lines[i].article != lines[j].article)
  }

  /** A line after `setCantidad(old + q)`, `setPrecioUnitario(price)` and
      `calcularTotalLinea()`. */
  function Merge(line: CartLine, q: int, price: Money): CartLine {
    line.(quantity := line.quantity + q, unitPrice := Some(price)).WithLineTotal()
  }

  /** The lines after a successful add of `q` units of `a` at `price`: the
      existing line is merged in place, or a new line (created with
      quantity 0 and the article's price) is appended and merged. */
  function AddToLines(lines: seq<CartLine>, a: ArticleId, q: int, price: Money): seq<CartLine> {
    match FindLine(lines, a)
    case Some(i) => lines[i := Merge(lines[i], q, price)]
    case None => lines + [Merge(CartLine(a, 0, Some(price), 0.0), q, price)]
  }

  /** The lines after a successful decrement of `a`: a line at quantity 1
      is removed, any other loses one unit and is recomputed. */
  function DecrementLines(lines: seq<CartLine>, a: ArticleId): seq<CartLine> {
    match FindLine(lines, a)
    case None => lines
    case Some(i) =>
      if lines[i].quantity == 1 then lines[..i] + lines[i + 1..]
      else lines[i := lines[i].(quantity := lines[i].quantity - 1).WithLineTotal()]
  }

  /** The catalog after `vaciarCarrito`'s loop has returned each line's
      quantity to its article's stock, line by line. */
  function Restock(articles: map<ArticleId, Article>, lines: seq<CartLine>): (r: map<ArticleId, Article>)
    requires forall i :: 0 <= i < |lines| ==> lines[i].article in articles
    ensures r.Keys == articles.Keys
  {
    if lines == [] then articles
    else
      var prev := Restock(articles, lines[..|lines| - 1]);
      var last := lines[|lines| - 1];
      prev[last.article := WithStockDelta(prev[last.article], last.quantity)]
  }

  // ---------------------------------------------------------------------
  // Lemmas about the line specifications

  lemma {:induction false} CartQtyAppend(x: seq<CartLine>, y: seq<CartLine>, a: ArticleId)
    ensures CartQty(x + y, a) == CartQty(x, a) + CartQty(y, a)
    decreases |y|
  {
    if y == [] {
      assert x + y == x;
    } else {
      var y' := y[..|y| - 1];
      assert (x + y)[..|x + y| - 1] == x + y';
      CartQtyAppend(x, y', a);
    }
  }

  /** Splitting a cart at line `i`. */
  lemma CartQtySplit(lines: seq<CartLine>, i: nat, a: ArticleId)
    requires i < |lines|
    ensures CartQty(lines, a) == CartQty(lines[..i], a) + Held(lines[i], a) + CartQty(lines[i + 1..], a)
  {
    assert lines == lines[..i] + ([lines[i]] + lines[i + 1..]);
    CartQtyAppend(lines[..i], [lines[i]] + lines[i + 1..], a);
    CartQtyAppend([lines[i]], lines[i + 1..], a);
    assert [lines[i]][..0] == [];
  }

  lemma {:induction false} CartQtyAbsent(lines: seq<CartLine>, a: ArticleId)
    requires forall j :: 0 <= j < |lines| ==> lines[j].article != a
    ensures CartQty(lines, a) == 0
    decreases |lines|
  {
    if lines != [] {
      CartQtyAbsent(lines[..|lines| - 1], a);
    }
  }

  /** In a well-formed cart the units held of `a` are the quantity of its
      one line for `a`, and zero when there is none. */
  lemma CartQtyOfWellFormed(lines: seq<CartLine>, known: set<ArticleId>, a: ArticleId)
    requires WellFormed(lines, known)
    ensures FindLine(lines, a).Some? ==> CartQty(lines, a) == lines[FindLine(lines, a).value].quantity
    ensures FindLine(lines, a).None? ==> CartQty(lines, a) == 0
    ensures CartQty(lines, a) >= 0
  {
    match FindLine(lines, a)
    case None =>
      CartQtyAbsent(lines, a);
    case Some(i) =>
      CartQtySplit(lines, i, a);
      CartQtyAbsent(lines[..i], a);
      CartQtyAbsent(lines[i + 1..], a);
  }

  /** Replacing line `i` changes the units held by exactly the difference. */
  lemma CartQtyUpdate(lines: seq<CartLine>, i: nat, x: CartLine, a: ArticleId)
    requires i < |lines|
    ensures CartQty(lines[i := x], a) == CartQty(lines, a) - Held(lines[i], a) + Held(x, a)
  {
    var u := lines[i := x];
    CartQtySplit(lines, i, a);
    CartQtySplit(u, i, a);
    assert u[..i] == lines[..i];
    assert u[i + 1..] == lines[i + 1..];
  }

  /** An add of `q` units of `a` to a well-formed cart keeps it well-formed,
      holds `q` more units of `a` and the same of every other article,
      leaves exactly one line for `a` (old quantity plus `q`, price
      refreshed) and every other line where and as it was. */
  lemma AddToLinesEffect(lines: seq<CartLine>, known: set<ArticleId>, a: ArticleId, q: int, price: Money)
    requires WellFormed(lines, known) && a in known && q >= 1
    ensures WellFormed(AddToLines(lines, a, q, price), known)
    ensures forall b :: CartQty(AddToLines(lines, a, q, price), b) == CartQty(lines, b) + (if b == a then q else 0)
    ensures var r := AddToLines(lines, a, q, price);
      exists i :: 0 <= i < |r| && r[i].article == a && r[i].quantity == CartQty(lines, a) + q && r[i].unitPrice == Some(price)
    ensures var r := AddToLines(lines, a, q, price);
      forall j :: 0 <= j < |lines| && lines[j].article != a ==> j < |r| && r[j] == lines[j]
  {
    var r := AddToLines(lines, a, q, price);
    CartQtyOfWellFormed(lines, known, a);
    match FindLine(lines, a)
    case Some(i) =>
      forall b ensures CartQty(r, b) == CartQty(lines, b) + (if b == a then q else 0) {
        CartQtyUpdate(lines, i, Merge(lines[i], q, price), b);
      }
      assert r[i].article == a && r[i].quantity == CartQty(lines, a) + q;
    case None =>
      var n := Merge(CartLine(a, 0, Some(price), 0.0), q, price);
      forall b ensures CartQty(r, b) == CartQty(lines, b) + (if b == a then q else 0) {
        CartQtyAppend(lines, [n], b);
        assert [n][..0] == [];
      }
      assert r[|lines|].article == a && r[|lines|].quantity == CartQty(lines, a) + q;
  }

  /** Removing the line at index `i` (quantity 1) of a well-formed cart. */
  lemma RemoveLineEffect(lines: seq<CartLine>, known: set<ArticleId>, i: nat)
    requires WellFormed(lines, known) && i < |lines|
    ensures var r := lines[..i] + lines[i + 1..];
      && WellFormed(r, known)
      && (forall b :: CartQty(r, b) == CartQty(lines, b) - Held(lines[i], b))
      && (forall j :: 0 <= j < |r| ==> r[j].article != lines[i].article)
  {
    var r := lines[..i] + lines[i + 1..];
    forall b ensures CartQty(r, b) == CartQty(lines, b) - Held(lines[i], b) {
      CartQtySplit(lines, i, b);
      CartQtyAppend(lines[..i], lines[i + 1..], b);
    }
    forall j, k | 0 <= j < k < |r| ensures r[j].article != r[k].article {
      var j' := if j < i then j else j + 1;
      var k' := if k < i then k else k + 1;
      assert r[j] == lines[j'] && r[k] == lines[k'] && j' < k';
    }
    forall j | 0 <= j < |r| ensures r[j] == lines[if j < i then j else j + 1] {
    }
  }

  /** Taking one unit off the line at index `i` (quantity above 1) of a
      well-formed cart. */
  lemma LowerLineEffect(lines: seq<CartLine>, known: set<ArticleId>, i: nat)
    requires WellFormed(lines, known) && i < |lines| && lines[i].quantity > 1
    ensures var r := lines[i := lines[i].(quantity := lines[i].quantity - 1).WithLineTotal()];
      && WellFormed(r, known)
      && (forall b :: CartQty(r, b) == CartQty(lines, b) - (if b == lines[i].article then 1 else 0))
  {
    var x := lines[i].(quantity := lines[i].quantity - 1).WithLineTotal();
    forall b ensures CartQty(lines[i := x], b) == CartQty(lines, b) - (if b == lines[i].article then 1 else 0) {
      CartQtyUpdate(lines, i, x, b);
    }
  }

  /** A decrement of an article the cart holds keeps the cart well-formed,
      holds one unit less of that article and the same of every other; a
      line at quantity 1 disappears, leaving the other lines in order, and
      any other line loses exactly one unit. */
  lemma DecrementLinesEffect(lines: seq<CartLine>, known: set<ArticleId>, a: ArticleId)
    requires WellFormed(lines, known) && FindLine(lines, a).Some?
    ensures WellFormed(DecrementLines(lines, a), known)
    ensures forall b :: CartQty(DecrementLines(lines, a), b) == CartQty(lines, b) - (if b == a then 1 else 0)
    ensures CartQty(lines, a) == 1 ==> FindLine(DecrementLines(lines, a), a).None?
    ensures CartQty(lines, a) == 1 ==>
      DecrementLines(lines, a) == lines[..FindLine(lines, a).value] + lines[FindLine(lines, a).value + 1..]
    ensures CartQty(lines, a) > 1 ==> |DecrementLines(lines, a)| == |lines|
    ensures var r := DecrementLines(lines, a);
      CartQty(lines, a) > 1 ==> forall j :: 0 <= j < |lines| && lines[j].article != a ==> r[j] == lines[j]
  {
    var i := FindLine(lines, a).value;
    CartQtyOfWellFormed(lines, known, a);
    if lines[i].quantity == 1 {
      RemoveLineEffect(lines, known, i);
    } else {
      LowerLineEffect(lines, known, i);
    }
  }

  /** Moving `delta` units into one article's stock while the cart's
      holding of that article drops by `delta` (and of no other article
      changes) keeps stock plus held units of every article. */
  lemma ShiftConserves(before: map<ArticleId, Article>, a: ArticleId, delta: int,
                       oldLines: seq<CartLine>, newLines: seq<CartLine>)
    requires a in before
    requires forall b :: CartQty(newLines, b) == CartQty(oldLines, b) - (if b == a then delta else 0)
    ensures var after := before[a := WithStockDelta(before[a], delta)];
      forall b :: b in after ==> after[b].stock + CartQty(newLines, b) == before[b].stock + CartQty(oldLines, b)
  {
  }

  /** Clearing returns each article exactly the units the cart held of it,
      and touches nothing else of the article. */
  lemma {:induction false} RestockReturnsHeldUnits(articles: map<ArticleId, Article>, lines: seq<CartLine>, b: ArticleId)
    requires forall i :: 0 <= i < |lines| ==> lines[i].article in articles
    requires b in articles
    ensures Restock(articles, lines)[b] == WithStockDelta(articles[b], CartQty(lines, b))
    decreases |lines|
  {
    if lines == [] {
    } else {
      var init := lines[..|lines| - 1];
      var last := lines[|lines| - 1];
      RestockReturnsHeldUnits(articles, init, b);
    }
  }

  // ---------------------------------------------------------------------
  // The store

  class CartStore {
    /** `CarritoRepository`: at most one cart per client. */
    var carts: map<ClientId, Carts.Carrito>
    /** `ArticulosRepository`: the catalog with its stock counters. */
    var articles: map<ArticleId, Article>
    /** The cart objects the store holds. */
    ghost var Repr: set<Carts.Carrito>

    /** A stored cart is sound: its lines are well formed over the catalog
        and its totals are those of its lines, or all zero for a cart that
        was created empty and never recalculated. */
    ghost predicate SoundCart(cart: Carts.Carrito, known: set<ArticleId>)
      reads cart
    {
      && WellFormed(cart.lines, known)
      && (cart.CurrentTotals() == TotalsOf(cart.lines) || (cart.lines == [] && cart.CurrentTotals() == ZeroTotals))
    }

    ghost predicate Valid()
      reads this, Repr
    {
      && (forall a :: a in articles ==> articles[a].stock >= 0)
      && (forall k :: k in carts ==> carts[k] in Repr && carts[k].client == k && SoundCart(carts[k], articles.Keys))
    }

    /** The lines an add merges into: a finalized cart counts as empty,
        since the add resets it first. */
    ghost function LiveLines(client: ClientId): seq<CartLine>
      requires Valid()
      reads this, Repr
    {
      if client in carts && !carts[client].finalized then carts[client].lines else []
    }

    /** The lines stored for `client`, empty when it has no cart. */
    ghost function StoredLines(client: ClientId): seq<CartLine>
      requires Valid()
      reads this, Repr
    {
      if client in carts then carts[client].lines else []
    }

    constructor (catalog: map<ArticleId, Article>)
      requires forall a :: a in catalog ==> catalog[a].stock >= 0
      ensures Valid() && carts == map[] && articles == catalog
      ensures fresh(Repr)
    {
      carts := map[];
      articles := catalog;
      Repr := {};
    }

    /** `agregarACarrito`. */
    method AddToCart(client: ClientId, article: ArticleId, quantity: int) returns (r: Result<CartView, CartError>)
      requires Valid()
      modifies this, if client in carts then {carts[client]} else {}
      ensures Valid() && fresh(Repr - old(Repr))
      ensures quantity <= 0 ==> r == Failure(InvalidQuantity)
      ensures quantity > 0 && article !in old(articles) ==> r == Failure(ArticleNotFound)
      ensures quantity > 0 && article in old(articles) ==>
        (r.Success? <==> CartQty(old(LiveLines(client)), article) + quantity <= old(articles[article].stock))
      ensures quantity > 0 && article in old(articles) && r.Failure? ==> r.error == InsufficientStock
      ensures r.Failure? ==> carts == old(carts) && articles == old(articles) && unchanged(this) && unchanged(Repr)
      ensures r.Success? ==>
        && carts.Keys == old(carts.Keys) + {client}
        && (client in old(carts) ==> carts[client] == old(carts[client]))
        && (client !in old(carts) ==> fresh(carts[client]))
        && carts[client].lines == AddToLines(old(LiveLines(client)), article, quantity, old(articles[article].price))
        && carts[client].CurrentTotals() == TotalsOf(carts[client].lines)
        && !carts[client].finalized
        && articles == old(articles)[article := WithStockDelta(old(articles)[article], -quantity)]
        && r.value == ViewOf(carts[client])
      ensures r.Success? ==> forall b :: b in articles ==>
        articles[b].stock + CartQty(carts[client].lines, b) == old(articles[b].stock) + CartQty(old(LiveLines(client)), b)
      ensures forall k :: k in old(carts) && k != client ==> k in carts && carts[k] == old(carts[k]) && unchanged(carts[k])
    {
      if quantity <= 0 {
        return Failure(InvalidQuantity);
      }
      if article !in articles {
        return Failure(ArticleNotFound);
      }
      var stocked := articles[article];
      var live := if client in carts && !carts[client].finalized then carts[client].lines else [];
      CartQtyOfWellFormed(live, articles.Keys, article);
      if stocked.stock < quantity {
        return Failure(InsufficientStock);
      }
      var held := match FindLine(live, article) case Some(i) => live[i].quantity case None => 0;
      if stocked.stock < held + quantity {
        return Failure(InsufficientStock);
      }
      var view := CommitAdd(client, article, quantity);
      r := Success(view);
    }

    /** The changes of a successful add: the live cart gets the merged line
        and is recalculated, and the article's stock drops by `quantity`. */
    method CommitAdd(client: ClientId, article: ArticleId, quantity: int) returns (view: CartView)
      requires Valid() && quantity > 0 && article in articles
      requires CartQty(LiveLines(client), article) + quantity <= articles[article].stock
      modifies this, if client in carts then {carts[client]} else {}
      ensures Valid() && fresh(Repr - old(Repr))
      ensures client in carts && carts == old(carts)[client := carts[client]]
      ensures client in old(carts) ==> carts[client] == old(carts[client])
      ensures client !in old(carts) ==> fresh(carts[client])
      ensures carts[client].lines == AddToLines(old(LiveLines(client)), article, quantity, old(articles[article].price))
      ensures carts[client].CurrentTotals() == TotalsOf(carts[client].lines)
      ensures !carts[client].finalized
      ensures articles == old(articles)[article := WithStockDelta(old(articles)[article], -quantity)]
      ensures view == ViewOf(carts[client])
      ensures forall b :: b in articles ==>
        articles[b].stock + CartQty(carts[client].lines, b) == old(articles[b].stock) + CartQty(old(LiveLines(client)), b)
    {
      var catalog := articles;
      var cart := LiveCart(client);
      ApplyAdd(client, cart.lines, catalog, article, quantity);
      view := ViewOf(cart);
    }

    /** The cart an add works on: the client's cart, reset to empty and
        not finalized if it was finalized, or a new one. */
    method LiveCart(client: ClientId) returns (cart: Carts.Carrito)
      requires Valid()
      modifies this, if client in carts then {carts[client]} else {}
      ensures Valid() && fresh(Repr - old(Repr))
      ensures articles == old(articles)
      ensures carts == old(carts)[client := cart]
      ensures client in old(carts) ==> cart == old(carts[client])
      ensures client !in old(carts) ==> fresh(cart)
      ensures cart.lines == old(LiveLines(client)) && !cart.finalized
    {
      if client in carts {
        cart := carts[client];
        if cart.finalized {
          cart.finalized := false;
          cart.lines := [];
          cart.subtotal, cart.tax, cart.shipping, cart.total := 0.0, 0.0, 0.0, 0.0;
        }
      } else {
        cart := new Carts.Carrito(client);
        carts := carts[client := cart];
        Repr := Repr + {cart};
      }
    }

    /** Stores well-formed lines in `client`'s cart and recalculates it. */
    method SetLines(client: ClientId, lines: seq<CartLine>)
      requires Valid() && client in carts && WellFormed(lines, articles.Keys)
      modifies carts[client]
      ensures Valid()
      ensures carts[client].lines == lines && carts[client].CurrentTotals() == TotalsOf(lines)
      ensures carts[client].finalized == old(carts[client].finalized)
    {
      var cart := carts[client];
      RecalculatedSettles(lines);
      cart.lines := lines;
      cart.RecalculateTotals();
    }

    /** `carrito.recalcularTotales()` on a stored cart, as checkout does:
        the lines stay as they are (they are already settled) and the totals
        become those of the lines. */
    method RefreshTotals(client: ClientId)
      requires Valid() && client in carts
      modifies carts[client]
      ensures Valid()
      ensures carts[client].lines == old(carts[client].lines)
      ensures carts[client].CurrentTotals() == TotalsOf(carts[client].lines)
      ensures carts[client].finalized == old(carts[client].finalized)
    {
      var cart := carts[client];
      RecalculatedSettles(cart.lines);
      cart.RecalculateTotals();
    }

    /** The writes of a successful add on the live cart of `client`: the
        merged lines are stored and recalculated, and the article's stock
        drops by `quantity`, so that every article's stock plus the units
        the cart holds of it stays as it was. */
    method ApplyAdd(client: ClientId, live: seq<CartLine>, catalog: map<ArticleId, Article>,
                    article: ArticleId, quantity: int)
      requires Valid() && client in carts && carts[client].lines == live && articles == catalog
      requires quantity > 0 && article in catalog
      requires CartQty(live, article) + quantity <= catalog[article].stock
      modifies `articles, carts[client]
      ensures Valid()
      ensures carts[client].lines == AddToLines(live, article, quantity, catalog[article].price)
      ensures carts[client].CurrentTotals() == TotalsOf(carts[client].lines)
      ensures carts[client].finalized == old(carts[client].finalized)
      ensures articles == catalog[article := WithStockDelta(catalog[article], -quantity)]
      ensures forall b :: b in articles ==>
        articles[b].stock + CartQty(carts[client].lines, b) == catalog[b].stock + CartQty(live, b)
    {
      var lines := AddToLines(live, article, quantity, catalog[article].price);
      CartQtyOfWellFormed(live, catalog.Keys, article);
      AddToLinesEffect(live, catalog.Keys, article, quantity, catalog[article].price);
      ShiftConserves(catalog, article, -quantity, live, lines);
      SetLines(client, lines);
      ShiftStock(article, -quantity);
    }

    /** Adds `delta` units to one article's stock counter. */
    method ShiftStock(article: ArticleId, delta: int)
      requires Valid() && article in articles && articles[article].stock + delta >= 0
      modifies `articles
      ensures Valid()
      ensures articles == old(articles)[article := WithStockDelta(old(articles[article]), delta)]
    {
      articles := articles[article := WithStockDelta(articles[article], delta)];
      assert articles.Keys == old(articles.Keys);
    }

    /** `decrementarArticulo`. It looks the cart up whether or not it is
        finalized. */
    method DecrementItem(client: ClientId, article: ArticleId) returns (r: Result<CartView, CartError>)
      requires Valid()
      modifies this, if client in carts then {carts[client]} else {}
      ensures Valid() && Repr == old(Repr)
      ensures client !in old(carts) ==> r == Failure(CartNotFound)
      ensures client in old(carts) ==> (r.Success? <==> CartQty(old(carts[client].lines), article) > 0)
      ensures client in old(carts) && r.Failure? ==> r.error == ItemNotFound
      ensures r.Failure? ==> carts == old(carts) && articles == old(articles) && unchanged(this) && unchanged(Repr)
      ensures articles.Keys == old(articles.Keys)
      ensures r.Success? ==> article in old(articles)
      ensures r.Success? ==>
        && carts == old(carts)
        && carts[client].lines == DecrementLines(old(carts[client].lines), article)
        && carts[client].CurrentTotals() == TotalsOf(carts[client].lines)
        && carts[client].finalized == old(carts[client].finalized)
        && articles == old(articles)[article := WithStockDelta(old(articles[article]), 1)]
        && r.value == ViewOf(carts[client])
      ensures r.Success? ==> forall b :: b in articles ==>
        articles[b].stock + CartQty(carts[client].lines, b) == old(articles[b].stock) + CartQty(old(carts[client].lines), b)
      ensures forall k :: k in old(carts) && k != client ==> k in carts && carts[k] == old(carts[k]) && unchanged(carts[k])
    {
      if client !in carts {
        return Failure(CartNotFound);
      }
      var cart := carts[client];
      CartQtyOfWellFormed(cart.lines, articles.Keys, article);
      if FindLine(cart.lines, article).None? {
        return Failure(ItemNotFound);
      }
      var lines := DecrementLines(cart.lines, article);
      DecrementLinesEffect(cart.lines, articles.Keys, article);
      ShiftConserves(articles, article, 1, cart.lines, lines);
      SetLines(client, lines);
      ShiftStock(article, 1);
      r := Success(ViewOf(cart));
    }

    /** `verCarrito`: never fails; a client without a cart gets a new one
        with every total zero (shipping included). */
    method ViewCart(client: ClientId) returns (v: CartView)
      requires Valid()
      modifies this
      ensures Valid() && fresh(Repr - old(Repr))
      ensures articles == old(articles)
      ensures carts.Keys == old(carts.Keys) + {client}
      ensures v == ViewOf(carts[client])
      ensures client in old(carts) ==> carts == old(carts)
      ensures client !in old(carts) ==>
        && fresh(carts[client])
        && carts[client].client == client
        && carts[client].lines == []
        && carts[client].CurrentTotals() == ZeroTotals
        && !carts[client].finalized
        && v == CartView([], ZeroTotals)
      ensures forall k :: k in old(carts) ==> carts[k] == old(carts[k])
    {
      if client in carts {
        v := ViewOf(carts[client]);
      } else {
        var cart := new Carts.Carrito(client);
        carts := carts[client := cart];
        Repr := Repr + {cart};
        v := ViewOf(cart);
      }
    }

    /** `vaciarCarrito`: returns every line's units to stock, then empties
        the cart and recalculates it, which leaves shipping at 4.99. A
        missing or already empty cart is left alone. */
    method ClearCart(client: ClientId)
      requires Valid()
      modifies this, Repr
      ensures Valid()
      ensures carts == old(carts) && Repr == old(Repr)
      ensures articles == Restock(old(articles), old(StoredLines(client)))
      ensures forall b :: b in articles ==> articles[b].stock == old(articles[b].stock) + CartQty(old(StoredLines(client)), b)
      ensures old(StoredLines(client)) != [] ==>
        && carts[client].lines == []
        && carts[client].CurrentTotals() == Totals(0.0, 0.0, FlatShipping, FlatShipping)
        && carts[client].finalized == old(carts[client].finalized)
      ensures old(StoredLines(client)) == [] ==> unchanged(Repr)
      ensures forall k :: k in carts && k != client ==> unchanged(carts[k])
    {
      if client in carts && carts[client].lines != [] {
        var cart := carts[client];
        var lines := cart.lines;
        ReturnUnits(lines);
        cart.lines := [];
        cart.RecalculateTotals();
        EmptyCartTotals();
        forall b | b in articles
          ensures articles[b].stock == old(articles[b].stock) + CartQty(lines, b)
          ensures CartQty(lines, b) >= 0
        {
          RestockReturnsHeldUnits(old(articles), lines, b);
          CartQtyOfWellFormed(lines, articles.Keys, b);
        }
      }
    }

    /** The loop of `vaciarCarrito` that adds each line's quantity back to
        its article's stock. */
    method ReturnUnits(lines: seq<CartLine>)
      requires forall i :: 0 <= i < |lines| ==> lines[i].article in articles
      modifies `articles
      ensures articles == Restock(old(articles), lines)
    {
      var i := 0;
      while i < |lines|
        invariant 0 <= i <= |lines|
        invariant articles == Restock(old(articles), lines[..i])
      {
        assert lines[..i + 1][..i] == lines[..i];
        var line := lines[i];
        articles := articles[line.article := WithStockDelta(articles[line.article], line.quantity)];
        i := i + 1;
      }
      assert lines[..i] == lines;
    }
  }

  /** The merge check counts the units already in the cart against the
      stock they were already taken from: on a fresh store with 10 units,
      adding 6 succeeds and leaves 4 in stock, and then adding 3 more is
      refused although 4 units remain. */
  method MergeCheckCountsHeldUnitsTwice(client: ClientId, a: ArticleId, price: Money, supplier: SupplierId)
    returns (first: Result<CartView, CartError>, second: Result<CartView, CartError>, stockLeft: int)
    ensures first.Success?
    ensures second == Failure(InsufficientStock)
    ensures stockLeft == 4 && 3 <= stockLeft
  {
    var store := new CartStore(map[a := Article(price, 10, supplier)]);
    first := store.AddToCart(client, a, 6);
    second := store.AddToCart(client, a, 3);
    stockLeft := store.articles[a].stock;
  }
}
