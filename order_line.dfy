/** The order line (`DetallePedido`): one article, a quantity, the unit
    price and the line total copied from the cart at checkout. */
module OrderLines {
  import opened Wrappers
  import opened Catalog

  /** An order line. `unitPrice` is a nullable `BigDecimal` in the entity. */
  datatype OrderLine = OrderLine(article: ArticleId, quantity: int, unitPrice: Option<Money>, lineTotal: Money)
  {
    /** `calcularTotalLinea`: price times quantity, with no guard on the
        quantity (unlike the cart line). A missing price makes the entity
        throw, so the price is required here. */
    function WithLineTotal(): (r: OrderLine)
      requires unitPrice.Some?
      ensures r.lineTotal == unitPrice.value * quantity as real
      ensures r.article == article && r.quantity == quantity && r.unitPrice == unitPrice
    {
      this.(lineTotal := unitPrice.value * quantity as real)
    }
  }

  /** Recomputing an order line twice gives what recomputing it once gives;
      with no quantity guard, a zero quantity gives a zero total and a
      negative quantity a total of the opposite sign to the price. */
  lemma OrderLineTotalFacts(line: OrderLine)
    requires line.unitPrice.Some?
    ensures line.WithLineTotal().WithLineTotal() == line.WithLineTotal()
    ensures line.quantity == 0 ==> line.WithLineTotal().lineTotal == 0.0
    ensures line.quantity < 0 && line.unitPrice.value > 0.0 ==> line.WithLineTotal().lineTotal < 0.0
  {
    if line.quantity < 0 && line.unitPrice.value > 0.0 {
      var p := line.unitPrice.value;
      var q := line.quantity as real;
      assert p * (-q) > 0.0;
    }
  }
}
