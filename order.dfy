/** The order entity (`Pedido`): the client, the placing time, the status,
    the lines and the nullable money and payment fields. */
module Orders {
  import opened Wrappers
  import opened Catalog
  import opened OrderLines

  /** The stream reduction of the lines' stored totals, from the left. */
  function SumOrderLines(lines: seq<OrderLine>): Money
  {
    if lines == [] then 0.0 else SumOrderLines(lines[..|lines| - 1]) + lines[|lines| - 1].lineTotal
  }

  /** The stored-total sum splits over concatenation. */
  lemma {:induction false} SumOrderLinesAppend(a: seq<OrderLine>, b: seq<OrderLine>)
    ensures SumOrderLines(a + b) == SumOrderLines(a) + SumOrderLines(b)
    decreases |b|
  {
    if b == [] {
      assert a + b == a;
    } else {
      var b' := b[..|b| - 1];
      assert (a + b)[..|a + b| - 1] == a + b';
      SumOrderLinesAppend(a, b');
    }
  }

  class Pedido {
    const client: ClientId
    var placedAt: int
    var status: Option<string>
    var lines: seq<OrderLine>
    var subtotal: Option<Money>
    var iva: Option<Money>
    var shipping: Option<Money>
    var total: Option<Money>
    var paymentMethod: Option<string>
    var transactionId: Option<string>

    /** `new Pedido()` for a client: placed now, no lines, every nullable
        field unset. */
    constructor (client: ClientId, now: int)
      ensures this.client == client && placedAt == now && lines == []
      ensures status == None && paymentMethod == None && transactionId == None
      ensures subtotal == None && iva == None && shipping == None && total == None
    {
      this.client := client;
      placedAt := now;
      status := None;
      lines := [];
      subtotal, iva, shipping, total := None, None, None, None;
      paymentMethod, transactionId := None, None;
    }

    /** `recalcularTotales`: the subtotal becomes the sum of the lines' totals
        and the total adds the tax and the shipping, each counted as zero
        when unset. Only `subtotal` and `total` are assigned, and they
        depend only on fields the method leaves alone, so a second call
        changes nothing. */
    method RecalculateTotals()
      modifies this
      ensures subtotal == Some(SumOrderLines(lines))
      ensures total == Some(SumOrderLines(lines) + iva.GetOr(0.0) + shipping.GetOr(0.0))
      ensures lines == old(lines) && iva == old(iva) && shipping == old(shipping)
      ensures placedAt == old(placedAt) && status == old(status)
      ensures paymentMethod == old(paymentMethod) && transactionId == old(transactionId)
    {
      var s := SumOrderLines(lines);
      subtotal := Some(s);
      total := Some(s + (if iva.Some? then iva.value else 0.0) + (if shipping.Some? then shipping.value else 0.0));
    }
  }
}
