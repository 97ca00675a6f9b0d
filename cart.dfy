/** The cart entity (`Carrito`): its lines, the derived subtotal, tax,
    shipping and total, and the `finalizado` flag. */
module Carts {
  import opened Wrappers
  import opened Catalog
  import opened CartLines

  /** VAT rate applied to the subtotal. */
  const TaxRate: Money := 0.21
  /** Flat shipping fee charged unless the subtotal exceeds the threshold. */
  const FlatShipping: Money := 4.99
  /** Shipping is free for a subtotal strictly above this amount. */
  const FreeShippingAbove: Money := 50.0

  datatype Totals = Totals(subtotal: Money, tax: Money, shipping: Money, total: Money)

  /** The totals a cart is created with. */
  const ZeroTotals: Totals := Totals(0.0, 0.0, 0.0, 0.0)

  /** The stream reduction of the lines' stored totals, from the left. */
  function SumLineTotals(lines: seq<CartLine>): Money
  {
    if lines == [] then 0.0 else SumLineTotals(lines[..|lines| - 1]) + lines[|lines| - 1].lineTotal
  }

  /** Every line recomputed, as the `forEach(calcularTotalLinea)` leaves them. */
  function Recalculated(lines: seq<CartLine>): seq<CartLine>
  {
    seq(|lines|, i requires 0 <= i < |lines| => lines[i].WithLineTotal())
  }

  /** The totals `recalcularTotales` assigns once the lines are recomputed. */
  function TotalsOf(lines: seq<CartLine>): (t: Totals)
    ensures t.tax == TaxRate * t.subtotal
    ensures t.shipping == 0.0 <==> t.subtotal > FreeShippingAbove
    ensures t.subtotal <= FreeShippingAbove ==> t.shipping == FlatShipping
    ensures t.total == t.subtotal + t.tax + t.shipping
  {
    var s := SumLineTotals(lines);
    var shipping := if s > FreeShippingAbove then 0.0 else FlatShipping;
    Totals(s, s * TaxRate, shipping, s + s * TaxRate + shipping)
  }

  /** Reference definition of the subtotal: the sum of price times quantity
      over the lines, each guarded as the line entity guards it. */
  function AmountSum(lines: seq<CartLine>): Money
  {
    if lines == [] then 0.0 else LineAmount(lines[0].quantity, lines[0].unitPrice) + AmountSum(lines[1..])
  }

  /** Every line's stored total agrees with its price and quantity. */
  predicate AllSettled(lines: seq<CartLine>)
  {
    forall i :: 0 <= i < |lines| ==> lines[i].Settled()
  }

  /** The stored-total sum splits over concatenation. */
  lemma {:induction false} SumLineTotalsAppend(a: seq<CartLine>, b: seq<CartLine>)
    ensures SumLineTotals(a + b) == SumLineTotals(a) + SumLineTotals(b)
    decreases |b|
  {
    if b == [] {
      assert a + b == a;
    } else {
      var b' := b[..|b| - 1];
      assert (a + b)[..|a + b| - 1] == a + b';
      SumLineTotalsAppend(a, b');
    }
  }

  /** After recalculation the subtotal is the sum of price times quantity
      over the cart's lines, whatever their stored totals were before. */
  lemma {:induction false} SubtotalIsSumOfLineAmounts(lines: seq<CartLine>)
    ensures TotalsOf(Recalculated(lines)).subtotal == AmountSum(lines)
    decreases |lines|
  {
    if lines != [] {
      var rest := lines[1..];
      SubtotalIsSumOfLineAmounts(rest);
      assert Recalculated(lines) == [lines[0].WithLineTotal()] + Recalculated(rest);
      SumLineTotalsAppend([lines[0].WithLineTotal()], Recalculated(rest));
      assert SumLineTotals([lines[0].WithLineTotal()]) == lines[0].WithLineTotal().lineTotal by {
        assert [lines[0].WithLineTotal()][..0] == [];
      }
    }
  }

  /** Recalculating settled lines leaves them as they are; recalculating
      any lines settles them, so a second recalculation changes nothing. */
  lemma RecalculatedSettles(lines: seq<CartLine>)
    ensures AllSettled(Recalculated(lines))
    ensures Recalculated(Recalculated(lines)) == Recalculated(lines)
    ensures AllSettled(lines) ==> Recalculated(lines) == lines
  {
    forall i | 0 <= i < |lines| ensures Recalculated(lines)[i].Settled() && Recalculated(Recalculated(lines))[i] == Recalculated(lines)[i] {
      WithLineTotalIdempotent(lines[i]);
    }
    if AllSettled(lines) {
      forall i | 0 <= i < |lines| ensures Recalculated(lines)[i] == lines[i] {
        WithLineTotalIdempotent(lines[i]);
      }
    }
  }

  /** An emptied cart is charged the flat shipping fee: its total is 4.99,
      not zero. */
  lemma EmptyCartTotals()
    ensures TotalsOf(Recalculated([])) == Totals(0.0, 0.0, FlatShipping, FlatShipping)
  {
    assert Recalculated([]) == [];
  }

  /** Three units at 5.00: subtotal 15, tax 3.15, shipping 4.99, total 23.14. */
  lemma ThreeAtFiveExample(article: ArticleId)
    ensures TotalsOf(Recalculated([CartLine(article, 3, Some(5.0), 0.0)])) == Totals(15.0, 3.15, 4.99, 23.14)
  {
    var lines := [CartLine(article, 3, Some(5.0), 0.0)];
    var settled := [CartLine(article, 3, Some(5.0), 15.0)];
    assert Recalculated(lines) == settled;
    assert settled[..0] == [];
    assert SumLineTotals(settled) == 15.0;
  }

  /** The cart entity. Its lines are values held in the `detalleList`
      sequence; the totals are plain fields that only `RecalculateTotals`
      (and the service's resets) assign. */
  class Carrito {
    const client: ClientId
    var lines: seq<CartLine>
    var subtotal: Money
    var tax: Money
    var shipping: Money
    var total: Money
    var finalized: bool

    /** A new cart: no lines, every total zero, not finalized. */
    constructor (client: ClientId)
      ensures this.client == client
      ensures lines == [] && CurrentTotals() == ZeroTotals && !finalized
    {
      this.client := client;
      lines := [];
      subtotal, tax, shipping, total := 0.0, 0.0, 0.0, 0.0;
      finalized := false;
    }

    function CurrentTotals(): Totals
      reads this
    {
      Totals(subtotal, tax, shipping, total)
    }

    /** `recalcularTotales`: recompute every line, then the subtotal, the
        21% tax, the shipping fee and the total. Nothing else changes. */
    method RecalculateTotals()
      modifies this
      ensures lines == Recalculated(old(lines))
      ensures CurrentTotals() == TotalsOf(lines)
      ensures finalized == old(finalized)
    {
      var i := 0;
      while i < |lines|
        invariant 0 <= i <= |lines| == |old(lines)|
        invariant forall k :: 0 <= k < i ==> lines[k] == old(lines)[k].WithLineTotal()
        invariant forall k :: i <= k < |lines| ==> lines[k] == old(lines)[k]
        invariant finalized == old(finalized)
      {
        lines := lines[i := lines[i].WithLineTotal()];
        i := i + 1;
      }
      subtotal := SumLineTotals(lines);
      tax := subtotal * TaxRate;
      shipping := if subtotal > FreeShippingAbove then 0.0 else FlatShipping;
      total := subtotal + tax + shipping;
    }
  }
}
