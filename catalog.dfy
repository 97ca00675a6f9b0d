/** Identifiers, money and the catalog article (`Articulos`) shared by the
    cart, order and supplier-order modules. */
module Catalog {

  /** Database identities (`Long` primary keys). */
  type ArticleId = int
  type SupplierId = int
  type ClientId = int
  type UserId = int

  /** Amounts are exact decimals (`BigDecimal`); `real` is exact too. */
  type Money = real

  /** A catalog article as the core sees it: its current price, its on-hand
      stock counter and the supplier that owns it. */
  datatype Article = Article(price: Money, stock: int, supplier: SupplierId)

  /** `article` with `delta` units added to its stock and nothing else changed. */
  function WithStockDelta(article: Article, delta: int): (r: Article)
    ensures r.stock - article.stock == delta
    ensures r.price == article.price && r.supplier == article.supplier
  {
    article.(stock := article.stock + delta)
  }
}
