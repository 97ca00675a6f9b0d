/** Checkout and order listing (`PedidoService`): a client's cart becomes an
    order with status PENDIENTE whose lines copy the cart's lines one to
    one, and the cart is then cleared through the cart store, which puts the
    units back into stock. */
module OrderService {
  import opened Wrappers
  import opened Catalog
  import opened CartLines
  import opened Carts
  import opened CartService
  import opened OrderLines
  import opened Orders

  datatype OrderError =
    | ClientNotFound   // no client for the user id
    | CartNotFound     // the client has no cart
    | EmptyCart        // the cart has no lines

  /** The status every new order gets. */
  const Pending: string := "PENDIENTE"

  /** One order line copied from one cart line: article, quantity, unit
      price and line total. */
  function CopyLine(line: CartLine): OrderLine {
    OrderLine(line.article, line.quantity, line.unitPrice, line.lineTotal)
  }

  /** The order lines checkout builds from the cart lines, in cart order. */
  function Snapshot(lines: seq<CartLine>): seq<OrderLine> {
    seq(|lines|, i requires 0 <= i < |lines| => CopyLine(lines[i]))
  }

  /** The copied lines carry the same stored totals, so their sum is the
      cart's subtotal sum. */
  lemma {:induction false} SnapshotKeepsSum(lines: seq<CartLine>)
    ensures SumOrderLines(Snapshot(lines)) == SumLineTotals(lines)
    decreases |lines|
  {
    if lines != [] {
      var init := lines[..|lines| - 1];
      SnapshotKeepsSum(init);
      assert Snapshot(lines)[..|lines| - 1] == Snapshot(init);
    }
  }

  /** The decimal digits of a non-negative number, most significant first
      (`Long.toString` of a millisecond timestamp). */
  function DecimalString(n: nat): (s: string)
    ensures 1 <= |s|
    ensures forall i :: 0 <= i < |s| ==> '0' <= s[i] <= '9'
    ensures n < 10 <==> |s| == 1
  {
    var digit := "0123456789"[n % 10];
    if n < 10 then [digit] else DecimalString(n / 10) + [digit]
  }

  /** Different numbers have different decimal strings. */
  lemma {:induction false} DecimalStringInjective(a: nat, b: nat)
    ensures DecimalString(a) == DecimalString(b) ==> a == b
    decreases a
  {
    if DecimalString(a) == DecimalString(b) {
      var s := DecimalString(a);
      assert "0123456789"[a % 10] == s[|s| - 1] == "0123456789"[b % 10];
      assert a % 10 == b % 10;
      if 10 <= a {
        assert 10 <= b;
        assert DecimalString(a / 10) == s[..|s| - 1] == DecimalString(b / 10);
        DecimalStringInjective(a / 10, b / 10);
      }
    }
  }

  /** The simulated transaction id, `"TX-"` followed by the timestamp. */
  function TransactionId(now: nat): string {
    "TX-" + DecimalString(now)
  }

  /** Transaction ids are unique exactly as far as the timestamps are: two
      checkouts in the same millisecond get the same id. */
  lemma TransactionIdsDistinct(a: nat, b: nat)
    ensures TransactionId(a) == TransactionId(b) <==> a == b
  {
    if TransactionId(a) == TransactionId(b) {
      assert DecimalString(a) == TransactionId(a)[3..] == TransactionId(b)[3..] == DecimalString(b);
      DecimalStringInjective(a, b);
    }
  }

  /** `pedidoRepository.findByCliente`: the client's orders, in stored order. */
  function ClientOrders(orders: seq<Pedido>, c: ClientId): (r: seq<Pedido>)
    ensures forall i :: 0 <= i < |r| ==> r[i] in orders && r[i].client == c
    ensures forall i :: 0 <= i < |orders| && orders[i].client == c ==> orders[i] in r
    ensures |r| <= |orders|
  {
    if orders == [] then []
    else
      var last := orders[|orders| - 1];
      ClientOrders(orders[..|orders| - 1], c) + (if last.client == c then [last] else [])
  }

  /** Filtering distributes over concatenation, so the listing keeps the
      stored order: no sorting takes place. */
  lemma {:induction false} ClientOrdersAppend(a: seq<Pedido>, b: seq<Pedido>, c: ClientId)
    ensures ClientOrders(a + b, c) == ClientOrders(a, c) + ClientOrders(b, c)
    decreases |b|
  {
    if b == [] {
      assert a + b == a;
    } else {
      var b' := b[..|b| - 1];
      assert (a + b)[..|a + b| - 1] == a + b';
      ClientOrdersAppend(a, b', c);
    }
  }

  /** The new order of `crearPedido`, before it is saved: status PENDIENTE,
      the cart's freshly recalculated totals, the payment method, the
      transaction id and one order line per cart line, in order. */
  method BuildOrder(c: ClientId, now: nat, paymentMethod: string, t: Totals, lines: seq<CartLine>)
    returns (order: Pedido)
    ensures fresh(order)
    ensures order.client == c && order.placedAt == now && order.status == Some(Pending)
    ensures order.subtotal == Some(t.subtotal) && order.iva == Some(t.tax)
    ensures order.shipping == Some(t.shipping) && order.total == Some(t.total)
    ensures order.paymentMethod == Some(paymentMethod) && order.transactionId == Some(TransactionId(now))
    ensures order.lines == Snapshot(lines)
  {
    order := new Pedido(c, now);
    order.status := Some(Pending);
    order.subtotal, order.iva, order.shipping, order.total := Some(t.subtotal), Some(t.tax), Some(t.shipping), Some(t.total);
    order.paymentMethod := Some(paymentMethod);
    order.transactionId := Some(TransactionId(now));

    var i := 0;
    while i < |lines|
      invariant 0 <= i <= |lines|
      invariant order.lines == Snapshot(lines[..i])
      invariant order.client == c && order.status == Some(Pending) && order.placedAt == now
      invariant order.subtotal == Some(t.subtotal) && order.iva == Some(t.tax)
      invariant order.shipping == Some(t.shipping) && order.total == Some(t.total)
      invariant order.paymentMethod == Some(paymentMethod) && order.transactionId == Some(TransactionId(now))
    {
      assert Snapshot(lines[..i + 1]) == Snapshot(lines[..i]) + [CopyLine(lines[i])];
      order.lines := order.lines + [CopyLine(lines[i])];
      i := i + 1;
    }
    assert lines[..i] == lines;
  }

  class OrderDesk {
    /** `CarritoService` and the cart repository. */
    const store: CartStore
    /** `clienteRepository.findByUsuario_IdUsuario`: user id to client id. */
    var clients: map<UserId, ClientId>
    /** `PedidoRepository`: the saved orders, oldest first. */
    var orders: seq<Pedido>

    constructor (store: CartStore, clients: map<UserId, ClientId>)
      ensures this.store == store && this.clients == clients && orders == []
    {
      this.store := store;
      this.clients := clients;
      orders := [];
    }

    /** `listarPorCliente`: not found for an unknown user, otherwise every
        order of the client, possibly none, in stored order. */
    function ListOrders(userId: UserId): (r: Result<seq<Pedido>, OrderError>)
      reads this
      ensures r.Failure? <==> userId !in clients
      ensures r.Failure? ==> r.error == ClientNotFound
      ensures r.Success? ==> forall i :: 0 <= i < |r.value| ==> r.value[i] in orders && r.value[i].client == clients[userId]
      ensures r.Success? ==> forall i :: 0 <= i < |orders| && orders[i].client == clients[userId] ==> orders[i] in r.value
    {
      if userId !in clients then Failure(ClientNotFound)
      else Success(ClientOrders(orders, clients[userId]))
    }

    /** `crearPedido`. */
    method PlaceOrder(userId: UserId, paymentMethod: string, now: nat) returns (r: Result<Pedido, OrderError>)
      requires store.Valid()
      modifies this, store, store.Repr
      ensures store.Valid() && store.Repr == old(store.Repr)
      ensures clients == old(clients)
      ensures userId !in clients ==> r == Failure(ClientNotFound)
      ensures userId in clients && clients[userId] !in old(store.carts) ==> r == Failure(OrderError.CartNotFound)
      ensures userId in clients && clients[userId] in old(store.carts) ==>
        (r.Success? <==> old(store.carts[clients[userId]].lines) != [])
      ensures r.Failure? && userId in clients && clients[userId] in old(store.carts) ==> r.error == EmptyCart
      ensures r.Failure? ==> orders == old(orders) && unchanged(store) && unchanged(old(store.Repr))
      ensures r.Success? ==> userId in clients && clients[userId] in old(store.carts)
      ensures r.Success? ==>
        var c := clients[userId];
        var cartLines := old(store.carts[c].lines);
        var t := TotalsOf(cartLines);
        && fresh(r.value)
        && orders == old(orders) + [r.value]
        && r.value.client == c
        && r.value.placedAt == now
        && r.value.status == Some(Pending)
        && r.value.paymentMethod == Some(paymentMethod)
        && r.value.transactionId == Some(TransactionId(now))
        && r.value.lines == Snapshot(cartLines)
        && r.value.subtotal == Some(t.subtotal) && r.value.iva == Some(t.tax)
        && r.value.shipping == Some(t.shipping) && r.value.total == Some(t.total)
        && r.value.subtotal == Some(SumOrderLines(r.value.lines))
        && store.carts == old(store.carts)
        && store.carts[c].lines == []
        && store.carts[c].CurrentTotals() == Totals(0.0, 0.0, FlatShipping, FlatShipping)
        && store.articles == Restock(old(store.articles), cartLines)
        && ListOrders(userId).value == old(ListOrders(userId)).value + [r.value]
        && store.carts[c].finalized == old(store.carts[c].finalized)
        && (forall k :: k in old(store.carts) && k != c ==>
              store.carts[k] == old(store.carts[k]) && unchanged(store.carts[k]))
    {
      if userId !in clients {
        return Failure(ClientNotFound);
      }
      var c := clients[userId];
      if c !in store.carts {
        return Failure(OrderError.CartNotFound);
      }
      var cart := store.carts[c];
      if cart.lines == [] {
        return Failure(EmptyCart);
      }

      var order := Checkout(c, paymentMethod, now);
      r := Success(order);
    }

    /** The steps of `crearPedido` after the checks: recalculate the cart,
        build the order from it, save it, and clear the cart. */
    method Checkout(c: ClientId, paymentMethod: string, now: nat) returns (order: Pedido)
      requires store.Valid() && c in store.carts && store.carts[c].lines != []
      modifies this, store, store.Repr
      ensures store.Valid() && store.Repr == old(store.Repr)
      ensures clients == old(clients)
      ensures
        var cartLines := old(store.carts[c].lines);
        var t := TotalsOf(cartLines);
        && fresh(order)
        && orders == old(orders) + [order]
        && ClientOrders(orders, c) == ClientOrders(old(orders), c) + [order]
        && order.client == c
        && order.placedAt == now
        && order.status == Some(Pending)
        && order.paymentMethod == Some(paymentMethod)
        && order.transactionId == Some(TransactionId(now))
        && order.lines == Snapshot(cartLines)
        && order.subtotal == Some(t.subtotal) && order.iva == Some(t.tax)
        && order.shipping == Some(t.shipping) && order.total == Some(t.total)
        && order.subtotal == Some(SumOrderLines(order.lines))
        && store.carts == old(store.carts)
        && store.carts[c].lines == []
        && store.carts[c].CurrentTotals() == Totals(0.0, 0.0, FlatShipping, FlatShipping)
        && store.articles == Restock(old(store.articles), cartLines)
        && store.carts[c].finalized == old(store.carts[c].finalized)
        && (forall k :: k in old(store.carts) && k != c ==>
              store.carts[k] == old(store.carts[k]) && unchanged(store.carts[k]))
    {
      var cart := store.carts[c];
      store.RefreshTotals(c);
      var t := cart.CurrentTotals();

      order := BuildOrder(c, now, paymentMethod, t, cart.lines);
      SnapshotKeepsSum(cart.lines);

      ClientOrdersAppend(orders, [order], c);
      assert ClientOrders([order], c) == [order] by {
        assert [order][..0] == [];
      }
      orders := orders + [order];

      store.ClearCart(c);
    }
  }

  /** A checkout on a store the caller builds itself: 3 of 10 units go into
      the cart, the order is placed, and then the order holds one line, the
      cart is empty and the 3 units are back in stock. */
  method CheckoutRestocksScenario(u: UserId, c: ClientId, a: ArticleId, s: SupplierId)
    returns (r: Result<Pedido, OrderError>, stock: int, left: seq<CartLine>)
    ensures r.Success? && |r.value.lines| == 1
    ensures stock == 10 && left == []
  {
    var store := new CartStore(map[a := Article(2.0, 10, s)]);
    var added := store.AddToCart(c, a, 3);
    ghost var held := store.carts[c].lines;
    ghost var shelf := store.articles;
    var desk := new OrderDesk(store, map[u := c]);
    r := desk.PlaceOrder(u, "card", 5);
    RestockReturnsHeldUnits(shelf, held, a);
    stock := store.articles[a].stock;
    left := store.carts[c].lines;
  }
}
