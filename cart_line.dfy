/** The cart line (`DetalleCarrito`): one article, a quantity, the unit price
    snapshot and the line total derived from them. */
module CartLines {
  import opened Wrappers
  import opened Catalog

  /** A cart line. `unitPrice` is nullable in the entity; `quantity` is a
      Java `int` and is not constrained by the entity itself. */
  datatype CartLine = CartLine(article: ArticleId, quantity: int, unitPrice: Option<Money>, lineTotal: Money)
  {
    /** `calcularTotalLinea`: the same line with `lineTotal` recomputed from
        the unit price and the quantity, guarded against a missing price and
        a non-positive quantity. */
    function WithLineTotal(): (r: CartLine)
      ensures r.article == article && r.quantity == quantity && r.unitPrice == unitPrice
      ensures unitPrice.Some? && quantity > 0 ==> r.lineTotal == unitPrice.value * quantity as real
      ensures unitPrice.None? || quantity <= 0 ==> r.lineTotal == 0.0
    {
      this.(lineTotal := LineAmount(quantity, unitPrice))
    }

    /** The line's stored total is the one its price and quantity give. */
    predicate Settled() {
      lineTotal == LineAmount(quantity, unitPrice)
    }
  }

  /** Reference amount of a line: price times quantity, or zero. */
  function LineAmount(quantity: int, unitPrice: Option<Money>): Money {
    if unitPrice.Some? && quantity > 0 then unitPrice.value * quantity as real else 0.0
  }

  /** Recomputing a line twice gives what recomputing it once gives, and a
      recomputed line is settled. */
  lemma WithLineTotalIdempotent(line: CartLine)
    ensures line.WithLineTotal().WithLineTotal() == line.WithLineTotal()
    ensures line.WithLineTotal().Settled()
    ensures line.Settled() <==> line.WithLineTotal() == line
  {
  }
}
