# Order accumulator ("comanda") of a single-page order-entry widget

The widget loads a product catalogue once, lets the user pick a product and a
quantity, and accumulates order lines `{produto, quantidade, total}` in an
in-memory list (`comandaItens`). Adding a product that is already in the order
merges into its line (quantity and subtotal grow); adding a new product appends a
line; a line can be removed by its position; the grand total is recomputed from
scratch after every change. This project models that core in Dafny:

- `catalog.dfy`, module `Catalog`: products (prices in whole cents), the
  first-match lookup `find(p => p.id === id)` and the unit price the selection
  panel shows.
- `order.dfy`, module `Order`: order lines, the line lookup `findIndex`, the
  grand total (`reduce`), the add and remove operations as functions on values,
  the order invariant (one line per product id; each subtotal is quantity times
  the catalogue price) and the lemmas that the operations keep it and move the
  total by exactly the added or removed amount.
- `comanda.dfy`, module `Comanda`: class `Comanda` holding the read-only
  catalogue, the order lines and the shown total; its methods `Add` and `Remove`
  are the two click handlers, which update the state in place and are proved
  against the functions of `Order`. A few client methods replay sessions
  (two products, a merge, a removal, rejected adds, an empty catalogue) against
  the methods' contracts alone.

Where the code and its design description differ, the model follows the code:

- The add handler has two distinct rejections: an empty selection or a
  non-positive quantity (script.js:57-60), and an id the catalogue lacks
  (script.js:64-67). The model keeps them apart as `InvalidInput` and
  `ProductNotFound`.
- The unit-price handler looks up the empty selection like any other id
  (script.js:43-44); the price is 0 only because no product normally has the
  empty id. `UnitPrice` does the same.

## Model

| member | source | states |
|---|---|---|
| Catalog.FindProduct | script.js:62-67 | Nothing is found exactly when no catalogue entry has the id; a found product has that id and is in the catalogue. |
| Catalog.FindProductFirst | script.js:62 | The product found is the first catalogue entry with the id. |
| Catalog.FindProductIsFirstMatch | script.js:44 | Conversely, the first catalogue entry with the id is what the lookup returns. |
| Catalog.UnitPrice | script.js:42-50 | The shown unit price is the price of the first catalogue entry with the selected id, and 0 when no entry has it. |
| Order.FindLine | script.js:71 | The line index is -1 exactly when no line has the product id; otherwise it is the first line with that id. |
| Order.Total | script.js:109-112 | The grand total is a natural number at least as large as every line's subtotal. |
| Order.TotalConcat | script.js:110 | The total of two orders placed one after the other is the sum of their totals (so the empty order totals 0). |
| Order.TotalUpdate | script.js:75-76 | Replacing one line changes the total by the difference of the old and new subtotals. |
| Order.AddToOrder | script.js:53-84 | A non-positive quantity or empty id is rejected as invalid input, an unknown id as not found, and nothing else is rejected; an accepted add keeps the length or adds one line. |
| Order.AddMergesExistingLine | script.js:71-76 | If the order has a line for the product, that line's quantity grows by q and its subtotal by q times the price; the length and every other line are unchanged. |
| Order.AddAppendsNewLine | script.js:77-84 | If no line has the product, exactly one line with quantity q and subtotal q times the price is appended after the unchanged earlier lines. |
| Order.AddPreservesValid | script.js:69-84 | An accepted add keeps at most one line per product id and every subtotal equal to quantity times the catalogue price. |
| Order.AddTotal | script.js:69-87 | After an accepted add of q units the grand total is the old total plus q times the product's price. |
| Order.RemoveAt | script.js:118 | `splice(i, 1)`: the order is one line shorter, lines before i are kept and later lines shift down by one. |
| Order.RemovePreservesValid | script.js:115-122 | Removing a line keeps the order invariant. |
| Order.RemoveTotal | script.js:117-120 | After a removal the grand total drops by exactly the removed line's subtotal. |
| Order.RepeatedAdds | script.js:71-84 | Repeated adds of one product to an empty order give a single line whose quantity is the sum of the added quantities and whose subtotal is that sum times the price. |
| Comanda.Comanda.constructor | script.js:9-10 | A new controller holds the given catalogue, an empty order and a shown total of 0. |
| Comanda.Comanda.Add | script.js:53-87 | The handler returns the rejection reason and changes nothing, or returns no error with the order replaced by the accepted result; the invariant and the shown total equal to the grand total are kept. |
| Comanda.Comanda.Remove | script.js:115-122 | The order becomes the spliced order, the invariant is kept, and the shown total drops by the removed line's subtotal. |
| Comanda.Session | script.js:53-87 | Adding 2 coffees and 1 tea to an empty order gives two lines and a total of 13.50. |

## Left out

- Catalogue fetch (script.js:13-28): network I/O, JSON parsing and the failure
  alert. The catalogue is a constructor parameter; a failed load is the empty
  catalogue (see `EmptyCatalogSession`).
- DOM work: filling the dropdown (script.js:31-39), rendering the table
  (script.js:95-106), writing the formatted total and unit price into the page,
  and resetting the form after an add (script.js:89-91). The shown total is
  modelled as the field `shownTotal`; the unit price as the function `UnitPrice`.
- Currency formatting with `toFixed(2)` and decimal commas, and floating-point
  arithmetic on `preco`: prices and subtotals are whole cents (`nat`), so the
  model has no rounding and no upper bound (JavaScript numbers are exact only up
  to 2^53).
- `parseInt` of the quantity and of the row index (script.js:54, 117), including
  a `NaN` quantity, which passes the `<= 0` test in the source. Quantity and
  index are taken as integers.
- Out-of-range or negative `splice` indices: rows only carry indices of rendered
  lines, so `Remove` requires `0 <= index < |items|`.
- The `alert` messages: a rejection is returned as an `AddError` value instead.
- Order lines are JavaScript objects updated in place; nothing else refers to
  them, so they are modelled as values in a sequence field that the methods
  reassign.
- Comanda.Comanda.Add: does not repeat in its own contract how much the shown
  total grows; that is `Order.AddTotal`, which together with `Add`'s contract
  gives the new total.
