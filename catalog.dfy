/**
 The product catalogue of the order-entry page: the read-only list of products
 loaded at start-up, the lookup of a product by its id, and the unit price the
 selection panel shows for the selected id.
 Prices are whole cents, so no floating-point rounding enters the model.
 */
module Catalog {

  datatype Option<T> = None | Some(value: T)

  /** One catalogue entry: its id, its display name and its unit price in cents. */
  datatype Product = Product(id: string, name: string, price: nat)

  /** True when no product of the catalogue carries the id. */
  predicate Unknown(catalog: seq<Product>, id: string)
  {
    forall k :: 0 <= k < |catalog| ==> catalog[k].id != id
  }

  /** True when catalog[k] is the first product of the catalogue whose id is `id`. */
  predicate FirstMatch(catalog: seq<Product>, id: string, k: int)
  {
    0 <= k < |catalog| && catalog[k].id == id &&
    forall j :: 0 <= j < k ==> catalog[j].id != id
  }

  /**
   The lookup `find(p => p.id === id)`: the first product whose id is `id`,
   or nothing when no product has that id.
   */
  function FindProduct(catalog: seq<Product>, id: string): (r: Option<Product>)
    ensures r.None? <==> Unknown(catalog, id)
    ensures r.Some? ==> r.value.id == id && r.value in catalog
  {
    if |catalog| == 0 then None
    else if catalog[0].id == id then Some(catalog[0])
    else FindProduct(catalog[1..], id)
  }

  /** What FindProduct finds is the first entry of the catalogue with the id. */
  lemma {:induction false} FindProductFirst(catalog: seq<Product>, id: string)
    requires FindProduct(catalog, id).Some?
    ensures exists k :: FirstMatch(catalog, id, k) && catalog[k] == FindProduct(catalog, id).value
  {
    if catalog[0].id == id {
      assert FirstMatch(catalog, id, 0);
    } else {
      FindProductFirst(catalog[1..], id);
      var k :| FirstMatch(catalog[1..], id, k) && catalog[1..][k] == FindProduct(catalog[1..], id).value;
      assert FirstMatch(catalog, id, k + 1);
    }
  }

  /** There is at most one first match: FindProduct's answer is determined by the catalogue. */
  lemma FirstMatchUnique(catalog: seq<Product>, id: string, k: int, k': int)
    requires FirstMatch(catalog, id, k) && FirstMatch(catalog, id, k')
    ensures k == k'
  {
  }

  /** FindProduct yields exactly the first matching entry of the catalogue. */
  lemma FindProductIsFirstMatch(catalog: seq<Product>, id: string, k: int)
    requires FirstMatch(catalog, id, k)
    ensures FindProduct(catalog, id) == Some(catalog[k])
  {
    var r := FindProduct(catalog, id);
    assert !Unknown(catalog, id) by { assert catalog[k].id == id; }
    FindProductFirst(catalog, id);
    var k0 :| FirstMatch(catalog, id, k0) && catalog[k0] == r.value;
    FirstMatchUnique(catalog, id, k, k0);
  }

  /**
   The unit price the selection panel shows when the selection changes to `selection`:
   the price of the first product with that id, or 0 when there is none.
   The empty selection is looked up like any other id.
   */
  function UnitPrice(catalog: seq<Product>, selection: string): (price: nat)
    ensures Unknown(catalog, selection) ==> price == 0
    ensures forall k :: FirstMatch(catalog, selection, k) ==> price == catalog[k].price
  {
    var found := FindProduct(catalog, selection);
    assert forall k :: FirstMatch(catalog, selection, k) ==> found == Some(catalog[k]) by {
      forall k | FirstMatch(catalog, selection, k) ensures found == Some(catalog[k]) {
        FindProductIsFirstMatch(catalog, selection, k);
      }
    }
    if found.Some? then found.value.price else 0
  }
}
