# Beer shop cart, checkout and supplier orders — a Dafny model

This project models the core of a Spring e-commerce back end (the
"beerstar" shop and its "ecommerce" sibling), with proofs about the model.

- **Cart entity** (`Carrito`, `DetalleCarrito`). Each line total is
  price × quantity. It is guarded against a missing price and against a
  quantity that is not positive. The cart's subtotal is the sum of its line
  totals. Tax is 21 % of the subtotal. Shipping costs 4.99 unless the
  subtotal is strictly above 50. The total is the sum of the three.
- **Cart store** (`CarritoService`). It keeps one cart per client and the
  stock counter of every catalog article. Adding to the cart takes units
  out of stock. Decrementing a line puts one unit back. Clearing the cart
  puts every held unit back.
- **Checkout** (`PedidoService.crearPedido`). The client's cart becomes a
  PENDIENTE order with one order line per cart line and a `"TX-"`
  transaction id. The cart is then cleared.
- **Order listing** (`PedidoService.listarPorCliente`).
- **Order entity** (`Pedido`, `DetallePedido`) and its totals.
- **Supplier fan-out**
  (`OrdenVentaProveedorService.generarOrdenesVentaDesdePedido`). An order's
  lines are grouped by the supplier of each article. One supplier sales
  order is made per supplier, with one detail per line, priced at the
  article's current catalog price.
- **User registration and seeding** (`UsuarioService.crearUsuario`,
  `crearSuperAdmin`). Registration covers email normalisation, the
  duplicate check, the user-type and role defaults, and the Cliente or
  Proveedor companion record.
- **The security principal** (`UserDetailsImpl`). This covers the
  authorities derived from role and type, the username, `equals` and
  `hashCode`, and the four account-status checks.
- **Token extraction** (`AuthTokenFilter.parseJwt`).

## How it is modelled

**Money.** Amounts are `real`, which is exact like `BigDecimal`.

**Entities and lines.** `Carrito` and `Pedido` are classes whose
`recalcularTotales` update their fields in place. Cart lines and order lines
are values held in a `seq` field of their cart or order.

**Cart store.** `CarritoService` is the class `CartService.CartStore`. Its
`carts` field maps a client to that client's cart object. Its `articles`
field maps an article to its price, stock counter and supplier. Every
service call is one atomic step. A call that fails changes nothing, which
matches the rollback of the transaction around it. Error precedence
follows the order of the checks in the code.

**Loops.** Loops in the code are loops in the model, each proved against a
specification function:

- `forEach(calcularTotalLinea)` is proved against `Recalculated`.
- The restocking loop of `vaciarCarrito` is proved against `Restock`.
- The line-copy loop of `crearPedido` is proved against `Snapshot`.
- The grouping and emission loops of the fan-out are proved against
  `LinesOf`, `Suppliers` and `DetailsFor`.

**Stock conservation.** For every article, stock plus the units the cart
holds (`CartQty`) is preserved by add, decrement and clear. This is part
of the contract of each of those methods.

**Behaviours of the code that the model keeps as written:**

- **Stock check on add** (CarritoService.java:88-95, 122). When the cart
  already holds the article, the check compares held + requested units
  against the stock those held units were already taken from. A second add
  can therefore be refused while enough units remain
  (`MergeCheckCountsHeldUnitsTwice` performs the two adds).
- **Checkout restocks** (PedidoService.java:84, CarritoService.java:205-209).
  Checkout empties the cart with `vaciarCarrito`, which puts every unit in
  the cart back into stock, the purchased ones included. The model's
  checkout states this: the catalog afterwards is `Restock` of the catalog
  before.
- **Emptied cart shipping** (Carrito.java:82-86). An emptied cart keeps a
  4.99 shipping charge and a 4.99 total, because `recalcularTotales`
  charges shipping on a zero subtotal. A cart created by `verCarrito` has
  every total at zero (CarritoService.java:186-189).
- **Order line totals** (PedidoService.java:70-78). An order line copies
  the cart line's stored total; it is not recomputed from price and
  quantity.
- **Transaction ids** (PedidoService.java:66-67). The comment calls the id
  unique, but it is `"TX-"` plus the millisecond clock, so two checkouts
  in the same millisecond get the same id (`TransactionIdsDistinct`).
- **Fan-out** (PedidoService.java:39-87). Checkout does not call the
  supplier fan-out; it is modelled as an operation of its own. The
  supplier orders it makes get no order number, no status and no link to
  the customer order (OrdenVentaProveedorService.java:68-71).
- **Listing order** (PedidoService.java:89-96). The controller's comment
  on the order listing (ecommerce PedidoController.java:130-131) promises
  the newest orders first, but the service applies no sorting: orders come
  in the repository's row order, which the model takes to be the order in
  which they were saved. A client with no orders gets an empty list, not the
  error that comment announces (ecommerce PedidoController.java:138).
- **Decrement without a cart** (CarritoService.java:145-146). It fails with
  its own "cart not found" error (`CartNotFound`), distinct from the
  "article not in cart" error (CarritoService.java:149-152).

## Model

| member | source | states |
|---|---|---|
| Catalog.WithStockDelta | src/main/java/com/tfc/beerstar/service/CarritoService.java:122-123 | changing an article's stock moves the counter by exactly the delta and keeps its price and supplier |
| CartLines.CartLine.WithLineTotal | src/main/java/com/tfc/beerstar/model/DetalleCarrito.java:59-65 | with a price and a positive quantity the line total is price × quantity, otherwise 0; article, quantity and price are unchanged |
| CartLines.WithLineTotalIdempotent | src/main/java/com/tfc/beerstar/model/DetalleCarrito.java:59-65 | recomputing twice equals recomputing once; a recomputed line is settled; a line is settled iff recomputing leaves it unchanged |
| Carts.TotalsOf | src/main/java/com/tfc/beerstar/model/Carrito.java:73-86 | tax is 0.21 × subtotal; shipping is 0 iff subtotal > 50 and 4.99 otherwise; total = subtotal + tax + shipping |
| Carts.SumLineTotalsAppend | src/main/java/com/tfc/beerstar/model/Carrito.java:74-76 | the line-total sum splits over concatenation of line lists |
| Carts.SubtotalIsSumOfLineAmounts | src/main/java/com/tfc/beerstar/model/Carrito.java:69-76 | after recalculation the subtotal is the sum of the guarded price × quantity of every line, whatever the stored totals were |
| Carts.RecalculatedSettles | src/main/java/com/tfc/beerstar/model/Carrito.java:69-72 | recomputing all lines settles them, a second recomputation changes nothing, and settled lines are left as they are |
| Carts.EmptyCartTotals | src/main/java/com/tfc/beerstar/model/Carrito.java:74-86 | an empty cart recalculates to subtotal 0, tax 0, shipping 4.99, total 4.99 |
| Carts.ThreeAtFiveExample | src/main/java/com/tfc/beerstar/model/Carrito.java:69-87 | 3 units at 5.00 give subtotal 15, tax 3.15, shipping 4.99, total 23.14 |
| Carts.Carrito.constructor | src/main/java/com/tfc/beerstar/model/Carrito.java:44-59 | a new cart has no lines, every total zero and is not finalized |
| Carts.Carrito.RecalculateTotals | src/main/java/com/tfc/beerstar/model/Carrito.java:69-87 | every line is recomputed in place, the totals become those of the recomputed lines, the finalized flag is kept |
| CartService.FindLine | src/main/java/com/tfc/beerstar/service/CarritoService.java:72-75 | the index found is the first line for the article, and none means no line holds it |
| CartService.CartQtyOfWellFormed | src/main/java/com/tfc/beerstar/service/CarritoService.java:72-95 | in a cart with one line per article, the units held of an article are that line's quantity, or 0 without a line |
| CartService.AddToLinesEffect | src/main/java/com/tfc/beerstar/service/CarritoService.java:72-99 | an add keeps the cart well formed, holds exactly q more units of the article and the same of every other, leaves one line for the article with old + q units at the refreshed price, and keeps every other line where it was |
| CartService.DecrementLinesEffect | src/main/java/com/tfc/beerstar/service/CarritoService.java:149-165 | a decrement keeps the cart well formed (all quantities ≥ 1) and holds one unit less of the article and the same of others; a line at quantity 1 is removed and the remaining lines are the old ones in order; otherwise every other line stays where it was |
| CartService.RestockReturnsHeldUnits | src/main/java/com/tfc/beerstar/service/CarritoService.java:205-209 | clearing returns to each article exactly the units the cart held of it and changes nothing else of the article |
| CartService.CartStore.constructor | src/main/java/com/tfc/beerstar/service/CarritoService.java:32-37 | a new store holds no carts and the given catalog, and every cart object it owns is new |
| CartService.MergeCheckCountsHeldUnitsTwice | src/main/java/com/tfc/beerstar/service/CarritoService.java:88-95 | on a fresh store with 10 units, adding 6 succeeds and leaves 4 in stock; adding 3 more then fails with insufficient stock although 3 ≤ 4 |
| CartService.CartStore.AddToCart | src/main/java/com/tfc/beerstar/service/CarritoService.java:40-128 | quantity ≤ 0 fails first, then an unknown article; otherwise success iff held + requested ≤ current stock; a failure changes nothing; a success merges the line, recalculates the cart, lowers the stock by the quantity, conserves stock + held units per article, and leaves other clients' carts alone |
| CartService.CartStore.CommitAdd | src/main/java/com/tfc/beerstar/service/CarritoService.java:97-125 | the successful part of an add: merged lines, recalculated totals, stock lowered by the quantity, stock + held units conserved |
| CartService.CartStore.ApplyAdd | src/main/java/com/tfc/beerstar/service/CarritoService.java:97-125 | the writes of an add on the live cart: the cart holds the merged lines with their totals, the article's stock drops by the quantity, and every article's stock plus the units the cart holds of it stays as it was |
| CartService.CartStore.LiveCart | src/main/java/com/tfc/beerstar/service/CarritoService.java:46-60 | the add works on the client's cart, reset to empty and not finalized if it was finalized, or on a new cart |
| CartService.CartStore.RefreshTotals | src/main/java/com/rlp/ecommerce/service/PedidoService.java:53 | recalculating a stored cart keeps its lines and sets its totals to those of its lines |
| CartService.CartStore.ShiftStock | src/main/java/com/tfc/beerstar/service/CarritoService.java:121-123 | one article's stock moves by the delta and the rest of the catalog is unchanged |
| CartService.CartStore.DecrementItem | src/main/java/com/tfc/beerstar/service/CarritoService.java:143-178 | no cart fails with CartNotFound; otherwise success iff the cart holds the article, else ItemNotFound; a success decrements the line, recalculates the cart, returns one unit to stock and conserves stock + held units |
| CartService.CartStore.ViewCart | src/main/java/com/tfc/beerstar/service/CarritoService.java:180-194 | never fails and returns the stored cart's view; an existing cart is left as it is; a missing one is created and stored for the client with no lines, every total zero (shipping included) and not finalized; any cart object the store gains is new |
| CartService.CartStore.ClearCart | src/main/java/com/tfc/beerstar/service/CarritoService.java:197-220 | every held unit returns to stock; a cart with lines ends with no lines and totals 0, 0, 4.99, 4.99; a missing or empty cart is left alone |
| CartService.CartStore.ReturnUnits | src/main/java/com/tfc/beerstar/service/CarritoService.java:205-209 | the restocking loop leaves the catalog equal to the line-by-line restock of the lines |
| OrderLines.OrderLine.WithLineTotal | src/main/java/com/rlp/ecommerce/model/DetallePedido.java:53-55 | the line total is price × quantity with no quantity guard; article, quantity and price are unchanged |
| OrderLines.OrderLineTotalFacts | src/main/java/com/rlp/ecommerce/model/DetallePedido.java:53-55 | recomputing is idempotent; quantity 0 gives total 0; a negative quantity at a positive price gives a negative total |
| Orders.SumOrderLinesAppend | src/main/java/com/tfc/beerstar/model/Pedido.java:68-70 | the order-line total sum splits over concatenation |
| Orders.Pedido.constructor | src/main/java/com/tfc/beerstar/model/Pedido.java:37-64 | a new order has no lines and every nullable field unset |
| Orders.Pedido.RecalculateTotals | src/main/java/com/tfc/beerstar/model/Pedido.java:66-76 | subtotal is the sum of the line totals, total adds iva and shipping counted as 0 when unset, and nothing else changes |
| OrderService.SnapshotKeepsSum | src/main/java/com/rlp/ecommerce/service/PedidoService.java:69-78 | the copied order lines sum to the same amount as the cart lines |
| OrderService.DecimalString | src/main/java/com/rlp/ecommerce/service/PedidoService.java:67 | the timestamp's decimal text is non-empty digits, a single digit exactly below 10 |
| OrderService.DecimalStringInjective | src/main/java/com/rlp/ecommerce/service/PedidoService.java:67 | different timestamps have different decimal text |
| OrderService.TransactionIdsDistinct | src/main/java/com/rlp/ecommerce/service/PedidoService.java:67 | two transaction ids are equal iff their timestamps are |
| OrderService.ClientOrders | src/main/java/com/rlp/ecommerce/service/PedidoService.java:92 | the listing holds exactly the client's orders among the stored ones |
| OrderService.ClientOrdersAppend | src/main/java/com/rlp/ecommerce/service/PedidoService.java:89-96 | the listing distributes over concatenation, so it keeps stored order and is not sorted |
| OrderService.BuildOrder | src/main/java/com/rlp/ecommerce/service/PedidoService.java:55-78 | the new order is PENDIENTE, carries the cart's totals, the payment method and "TX-" + timestamp, and its lines copy the cart lines one to one in order |
| OrderService.OrderDesk.ListOrders | src/main/java/com/rlp/ecommerce/service/PedidoService.java:89-96 | an unknown user fails with ClientNotFound; otherwise the result holds exactly the client's orders |
| OrderService.OrderDesk.PlaceOrder | src/main/java/com/rlp/ecommerce/service/PedidoService.java:39-87 | an unknown client fails, then a missing cart, then an empty cart, with nothing changed; a success saves one new order as above, whose subtotal is its lines' sum, empties the cart to totals 0, 0, 4.99, 4.99 keeping its finalized flag, restocks the cart's units, appends the order to the client's listing, and leaves every other client's cart as it was; the store owns the same cart objects as before |
| OrderService.CheckoutRestocksScenario | src/main/java/com/rlp/ecommerce/service/PedidoService.java:40-87 | on a store a caller builds itself, 3 of 10 units added to the cart and an order placed give a one-line order, an empty cart and 10 units back in stock |
| OrderService.OrderDesk.Checkout | src/main/java/com/rlp/ecommerce/service/PedidoService.java:52-84 | the steps after the checks: recalculate, build, save, clear, with the resulting order, cart and catalog; the cart keeps its finalized flag, every other client's cart is unchanged and the store owns the same cart objects |
| SupplierOrders.LinesOf | src/main/java/com/rlp/ecommerce/service/OrdenVentaProveedorService.java:55-62 | every line in a supplier's group is an article of that supplier |
| SupplierOrders.SupplierHasLines | src/main/java/com/rlp/ecommerce/service/OrdenVentaProveedorService.java:55-66 | a supplier gets an order iff its group is non-empty |
| SupplierOrders.LinesOfAppend | src/main/java/com/rlp/ecommerce/service/OrdenVentaProveedorService.java:55-62 | grouping distributes over concatenation, so each group keeps the lines' relative order |
| SupplierOrders.GroupsPartitionLines | src/main/java/com/rlp/ecommerce/service/OrdenVentaProveedorService.java:53-62 | each occurrence of a line is in its own supplier's group and in no other: the groups partition the lines |
| SupplierOrders.ServedEmpty | src/main/java/com/rlp/ecommerce/service/OrdenVentaProveedorService.java:64 | a list of supplier orders serves no supplier iff it is empty |
| SupplierOrders.GroupBySupplier | src/main/java/com/rlp/ecommerce/service/OrdenVentaProveedorService.java:52-62 | the map's keys are the distinct suppliers of the lines and each value is that supplier's lines in order |
| SupplierOrders.MakeDetails | src/main/java/com/rlp/ecommerce/service/OrdenVentaProveedorService.java:73-80 | one detail per line, in order, with the line's article and quantity and the catalog price |
| SupplierOrders.EmitOrders | src/main/java/com/rlp/ecommerce/service/OrdenVentaProveedorService.java:64-81 | one supplier order per map key, no supplier twice, each dated now with no number, status or customer order, holding its group's details |
| SupplierOrders.GenerateSupplierOrders | src/main/java/com/tfc/beerstar/service/OrdenVentaProveedorService.java:50-82 | exactly one supplier order per distinct supplier, none for an order without lines, each holding the details of that supplier's lines in line order at catalog prices |
| JavaStrings.Trim | src/main/java/com/tfc/beerstar/security/AuthTokenFilter.java:141 | the result is no longer than the input and neither starts nor ends with a char ≤ U+0020 |
| JavaStrings.TrimIsTheCut | src/main/java/com/tfc/beerstar/security/AuthTokenFilter.java:141 | any cut whose outside is all ≤ U+0020 and whose inside has kept ends is the cut trim makes |
| JavaStrings.TrimDropsOnlyPadding | src/main/java/com/tfc/beerstar/security/AuthTokenFilter.java:141 | the trimmed text is a contiguous slice of the input, and everything outside it is ≤ U+0020 |
| JavaStrings.TrimIdempotent | src/main/java/com/tfc/beerstar/service/UsuarioService.java:82 | trimming twice equals trimming once |
| JavaStrings.TrimIgnoresPadding | src/main/java/com/tfc/beerstar/service/UsuarioService.java:82 | padding of chars ≤ U+0020 around a trimmed text is removed exactly |
| JavaStrings.ToLower | src/main/java/com/tfc/beerstar/service/UsuarioService.java:82 | lower-casing keeps the length, leaves no capital letter and keeps which chars are ≤ U+0020 |
| JavaStrings.ToLowerIdempotent | src/main/java/com/tfc/beerstar/service/UsuarioService.java:82 | lower-casing twice equals lower-casing once |
| JavaStrings.NormalizeEmail | src/main/java/com/tfc/beerstar/service/UsuarioService.java:82 | a normalised email is no longer than the input, has no padding at its ends and no capital letter |
| JavaStrings.NormalizeEmailIdempotent | src/main/java/com/tfc/beerstar/service/UsuarioService.java:82-84 | normalising a normalised email changes nothing, so stored emails are found again |
| JavaStrings.NormalizeEmailExample | src/main/java/com/tfc/beerstar/service/UsuarioService.java:82-84 | " A@b" followed by a tab normalises to "a@b" |
| AuthToken.ParseJwt | src/main/java/com/tfc/beerstar/security/AuthTokenFilter.java:137-145 | a token is returned iff the header has text and starts with "Bearer "; it is at most the rest of the header and has no padding at its ends |
| AuthToken.ParseJwtRoundTrip | src/main/java/com/tfc/beerstar/security/AuthTokenFilter.java:140-141 | "Bearer " + a token without padding at its ends, surrounded by any chars `trim` removes, gives back exactly that token |
| AuthToken.BearerOnlySpacesGivesEmptyToken | src/main/java/com/tfc/beerstar/security/AuthTokenFilter.java:140-141 | "Bearer " followed only by spaces gives the empty token, not none |
| AuthToken.OtherSchemesRejected | src/main/java/com/tfc/beerstar/security/AuthTokenFilter.java:140 | a lower-case "bearer " prefix, and "Bearer" without the space, give no token |
| AuthToken.WideSpaceSurvivesTrim | src/main/java/com/tfc/beerstar/security/AuthTokenFilter.java:141 | an ideographic space after the prefix is kept as the token, since trim only removes chars ≤ U+0020 |
| Users.FindByEmail | src/main/java/com/tfc/beerstar/service/UsuarioService.java:84 | a found user is stored with that email, and none is found iff no stored user has it |
| Users.ResolveType | src/main/java/com/tfc/beerstar/service/UsuarioService.java:89-94 | a missing type means CLIENTE; CLIENTE and PROVEEDOR are accepted exactly and case-sensitively; anything else is InvalidUserType |
| Users.SuperAdminEmailIsNormal | src/main/java/com/tfc/beerstar/service/UsuarioService.java:198-202 | the seeded address is already normalised |
| Users.UserStore.SaveUser | src/main/java/com/tfc/beerstar/service/UsuarioService.java:106 | saving appends the user with the next id, keeps the store valid and leaves the companion tables alone |
| Users.UserStore.AddCompanion | src/main/java/com/tfc/beerstar/service/UsuarioService.java:109-129 | exactly one record is added to the client table or the supplier table, and the users are unchanged |
| Users.UserStore.CreateUser | src/main/java/com/tfc/beerstar/service/UsuarioService.java:80-132 | a taken normalised email fails first, then an invalid type; a failure stores nothing; a success stores the normalised email, the encoded password, the role or USER and the resolved type, plus exactly one companion of that type carrying the request's data |
| Users.UserStore.CreateSuperAdmin | src/main/java/com/tfc/beerstar/service/UsuarioService.java:196-211 | the address exists afterwards; if it existed nothing changes, otherwise a PROVEEDOR user with role SUPERADMIN and the encoded default password is added without a companion; so seeding is idempotent |
| UserDetails.Build | src/main/java/com/tfc/beerstar/security/UserDetailsImpl.java:77-95 | id, email, password and type are copied; ROLE_ + role is granted iff the role is present and not blank, TYPE_ + type likewise; nothing else is granted; one authority per granted condition, so no duplicates and at most two, role first; all status checks pass |
| UserDetails.PrincipalAlwaysActive | src/main/java/com/tfc/beerstar/security/UserDetailsImpl.java:128-155 | the username is the email and the four account-status checks always pass |
| UserDetails.Equals | src/main/java/com/tfc/beerstar/security/UserDetailsImpl.java:157-163 | two principals are equal iff their ids are, and equal principals have equal hash codes |
| UserDetails.ToInt32 | src/main/java/com/tfc/beerstar/security/UserDetailsImpl.java:165-168 | a 32-bit pattern read as a signed int lies in the int range and differs from the pattern by 0 or 2^32 |
| UserDetails.LongHash | src/main/java/com/tfc/beerstar/security/UserDetailsImpl.java:165-168 | the hash of a long lies in the int range |
| UserDetails.HashCode | src/main/java/com/tfc/beerstar/security/UserDetailsImpl.java:165-168 | the hash lies in the int range and is 31 + the id's hash, wrapped at most once |
| UserDetails.EqualsAgreesWithHashCode | src/main/java/com/tfc/beerstar/security/UserDetailsImpl.java:157-168 | equal principals have equal hashes, equality is symmetric, and it ignores every field but the id |
| UserDetails.HashCollisionExample | src/main/java/com/tfc/beerstar/security/UserDetailsImpl.java:165-168 | ids 1 and 2^32 both hash to 32 but are not equal |

## Left out

- Controllers, the security configuration, JWT signing and validation, the
  authentication entry point, the user-details lookup service, the filter
  chain and logging of `AuthTokenFilter.doFilterInternal`, DTO mapping and
  the catalog CRUD services are outside the model.
- Repositories become maps and sequences. Generated entity ids other than
  user ids, and the separate saves of the supplier-order details, are not
  modelled.
- Transactions, locking and concurrent requests are not modelled. Each
  service call is one atomic step.
- Timestamps are parameters. Password encoding is a function parameter
  `encode`.
- Quantities, stock counters and ids are unbounded integers. Java `int` and
  `long` overflow in them is not modelled, except in `hashCode`, where the
  32-bit arithmetic is written out.
- The article price is a `Double` in the entity. It is treated as an exact
  decimal; floating-point rounding is not modelled.
- CartLines.CartLine.WithLineTotal: a cart line is a value updated by copy,
  not a line object updated in place. A line belongs to one cart, so no
  aliasing is lost.
- OrderLines.OrderLine.WithLineTotal: an order line is a value updated by
  copy. The price is required: the exception a missing price raises is not
  modelled.
- JavaStrings.ToLower: only ASCII letters are lower-cased. Locale rules and
  the full Unicode case mapping are not modelled.
- The `catch` fallback branches of `agregarACarrito`
  (CarritoService.java:102-120) cannot be reached and are not modelled.
- The ecommerce `CarritoService`, `Carrito` and `Pedido` are not part of
  this model. Checkout uses the beerstar cart store and the beerstar
  entity shapes, with the cart cleared by client.
- The finalized-cart reset of an add drops the old lines without returning
  their units to stock, exactly as the code does. Stock conservation is
  therefore stated against the lines the add starts from (`LiveLines`).
- OrderService.OrderDesk.ListOrders: `findByCliente`
  (PedidoRepository.java:21) has no ordering clause, so the database may
  return a client's orders in any order. The model lists them in the order
  they were saved; `PlaceOrder`'s promise that a new order is listed last
  holds only under that reading.
- Users.SoundUsers: stored emails are in normal form only because
  `actualizarUsuario` is not part of this model. It stores the new email as
  given, without trimming or lower-casing (UsuarioService.java:174), so
  after an update `crearUsuario`'s duplicate check could miss a taken
  address that differs only in case or padding.
- SupplierOrders.GenerateSupplierOrders: all supplier orders get the same
  creation time `now`. The order across suppliers follows the hash map's
  iteration order, which is unspecified and chosen arbitrarily here.
