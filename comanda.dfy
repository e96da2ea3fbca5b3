/**
 The page's controller state: the read-only catalogue, the list of order lines it
 updates in place, and the grand total it shows, recomputed after every change.
 The click handlers for "add" and "remove" are the methods Add and Remove.
 */
module Comanda {
  import opened Catalog
  import opened Order

  class Comanda {
    /** The products loaded at start-up; never changed afterwards. */
    const catalog: seq<Product>
    /** The lines of the current order, in insertion order. */
    var items: seq<Line>
    /** The grand total the summary element shows, in cents. */
    var shownTotal: nat

    /** The object invariant: the order is well formed and the shown total is its grand total. */
    ghost predicate Valid()
      reads this
    {
      OrderValid(catalog, items) && shownTotal == Total(items)
    }

    /** An empty order over the given catalogue (empty too when loading it failed). */
    constructor (catalog: seq<Product>)
      ensures Valid()
      ensures this.catalog == catalog && items == [] && shownTotal == 0
    {
      this.catalog := catalog;
      items := [];
      shownTotal := 0;
    }

    /**
     The add-to-order click handler. On rejection it returns the reason and changes
     nothing; otherwise it merges into or appends a line and recomputes the total.
     */
    method Add(productId: string, quantity: int) returns (error: Option<AddError>)
      requires Valid()
      modifies this
      ensures Valid()
      ensures var r := AddToOrder(catalog, old(items), productId, quantity);
        match r
        case Added(o) => error == None && items == o
        case Rejected(why) => error == Some(why) && items == old(items) && shownTotal == old(shownTotal)
    {
      ghost var r := AddToOrder(catalog, items, productId, quantity);
      if quantity <= 0 || productId == "" {
        return Some(InvalidInput);
      }
      var found := FindProduct(catalog, productId);
      if found.None? {
        return Some(ProductNotFound);
      }
      var product := found.value;
      var subtotal := quantity * product.price;
      AddPreservesValid(catalog, items, productId, quantity);
      var k := FindLine(items, productId);
      if k > -1 {
        var line := items[k];
        items := items[k := Line(line.product, line.quantity + quantity, line.total + subtotal)];
      } else {
        items := items + [Line(product, quantity, subtotal)];
      }
      assert r == Added(items);
      shownTotal := Total(items);
      error := None;
    }

    /**
     The remove click handler: `splice(index, 1)` on the order, then the total is
     recomputed. The index always comes from a rendered row, so it is in range.
     */
    method Remove(index: int)
      requires Valid()
      requires 0 <= index < |items|
      modifies this
      ensures Valid()
      ensures items == RemoveAt(old(items), index)
      ensures shownTotal == old(shownTotal) - old(items)[index].total
    {
      RemovePreservesValid(catalog, items, index);
      RemoveTotal(items, index);
      items := items[..index] + items[index + 1..];
      shownTotal := Total(items);
    }
  }

  /** Total of a two-line order. */
  lemma TotalPair(a: Line, b: Line)
    ensures Total([a, b]) == a.total + b.total
  {
    assert [a, b][..1] == [a];
    TotalSingle(a);
  }

  /** The first two adds of a session over a coffee-and-tea catalogue: two new lines. */
  method Session() returns (c: Comanda)
    ensures fresh(c) && c.Valid() && c.catalog == [Product("1", "Coffee", 500), Product("2", "Tea", 350)]
    ensures c.items == [Line(Product("1", "Coffee", 500), 2, 1000), Line(Product("2", "Tea", 350), 1, 350)]
    ensures c.shownTotal == 1350
  {
    var coffee := Product("1", "Coffee", 500);
    var tea := Product("2", "Tea", 350);
    c := new Comanda([coffee, tea]);
    assert FindProduct(c.catalog, "1") == Some(coffee);
    assert FindProduct(c.catalog, "2") == Some(tea);
    var e := c.Add("1", 2);
    TotalSingle(Line(coffee, 2, 1000));
    assert e == None && c.items == [Line(coffee, 2, 1000)] && c.shownTotal == 1000;
    e := c.Add("2", 1);
    TotalPair(Line(coffee, 2, 1000), Line(tea, 1, 350));
    assert e == None;
  }

  /** The session continued: a repeated product is merged into its line, then the first line is removed. */
  method SessionContinued()
  {
    var c := Session();
    var coffee, tea := c.catalog[0], c.catalog[1];
    assert FindProduct(c.catalog, "1") == Some(coffee);
    var e := c.Add("1", 1);
    TotalPair(Line(coffee, 3, 1500), Line(tea, 1, 350));
    assert e == None && c.items == [Line(coffee, 3, 1500), Line(tea, 1, 350)] && c.shownTotal == 1850;
    c.Remove(0);
    assert c.items == [Line(tea, 1, 350)] && c.shownTotal == 350;
  }

  /** Rejected adds leave the order and its total as they were. */
  method RejectedSession()
  {
    var tea := Product("2", "Tea", 350);
    var c := new Comanda([tea]);
    var e := c.Add("", 1);
    assert e == Some(InvalidInput) && c.items == [];
    e := c.Add("2", 0);
    assert e == Some(InvalidInput) && c.items == [];
    e := c.Add("3", 1);
    assert e == Some(ProductNotFound) && c.items == [] && c.shownTotal == 0;
  }

  /** With the catalogue left empty by a failed load, every add is rejected. */
  method EmptyCatalogSession(id: string, quantity: int)
  {
    var c := new Comanda([]);
    var e := c.Add(id, quantity);
    assert e.Some? && c.items == [];
  }
}
