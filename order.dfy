/**
 The order ("comanda") as a value: a sequence of order lines, the lookup of a
 line by product id, the grand total, and the effect of adding and removing
 lines. The class in module Comanda updates its state exactly as these
 functions say.
 */
module Order {
  import opened Catalog

  /** One line of the order: the catalogue product, its accumulated quantity and subtotal (cents). */
  datatype Line = Line(product: Product, quantity: nat, total: nat)

  /** Why an add request was turned down: no product or a non-positive quantity, or an id the catalogue lacks. */
  datatype AddError = InvalidInput | ProductNotFound

  /** The answer of an add request: the new order, or the reason the order stays as it was. */
  datatype AddResult = Added(order: seq<Line>) | Rejected(reason: AddError)

  /** At most one line per product id. */
  predicate UniqueProducts(order: seq<Line>)
  {
    forall j, k :: 0 <= j < k < |order| ==> order[j].product.id != order[k].product.id
  }

  /**
   A line is well formed for the catalogue: a positive quantity, a subtotal equal to
   quantity times unit price, and a product that is the catalogue's entry for its id.
   */
  predicate LineValid(catalog: seq<Product>, line: Line)
  {
    line.quantity > 0 &&
    line.total == line.quantity * line.product.price &&
    FindProduct(catalog, line.product.id) == Some(line.product)
  }

  /** The invariant every reachable order keeps. */
  predicate OrderValid(catalog: seq<Product>, order: seq<Line>)
  {
    UniqueProducts(order) &&
    forall k :: 0 <= k < |order| ==> LineValid(catalog, order[k])
  }

  /**
   The lookup `findIndex(item => item.produto.id === id)`: the index of the first
   line for product `id`, or -1 when there is none.
   */
  function FindLine(order: seq<Line>, id: string): (r: int)
    ensures -1 <= r < |order|
    ensures r == -1 <==> forall k :: 0 <= k < |order| ==> order[k].product.id != id
    ensures r >= 0 ==> order[r].product.id == id
    ensures r >= 0 ==> forall j :: 0 <= j < r ==> order[j].product.id != id
  {
    if |order| == 0 then -1
    else if order[0].product.id == id then 0
    else
      var r := FindLine(order[1..], id);
      if r == -1 then -1 else r + 1
  }

  /** The grand total, folded from the left as `reduce((sum, item) => sum + item.total, 0)` does. */
  function Total(order: seq<Line>): (sum: nat)
    ensures forall k :: 0 <= k < |order| ==> order[k].total <= sum
  {
    if |order| == 0 then 0
    else Total(order[..|order| - 1]) + order[|order| - 1].total
  }

  /** The total of two orders placed one after the other is the sum of their totals. */
  lemma {:induction false} TotalConcat(a: seq<Line>, b: seq<Line>)
    ensures Total(a + b) == Total(a) + Total(b)
  {
    if |b| == 0 {
      assert a + b == a;
    } else {
      var b' := b[..|b| - 1];
      assert (a + b)[..|a + b| - 1] == a + b';
      TotalConcat(a, b');
    }
  }

  /** Total of a one-line order. */
  lemma TotalSingle(line: Line)
    ensures Total([line]) == line.total
  {
    assert [line][..0] == [];
  }

  /** Replacing the line at index k changes the total by the difference of the two subtotals. */
  lemma TotalUpdate(order: seq<Line>, k: int, line: Line)
    requires 0 <= k < |order|
    ensures Total(order[k := line]) == Total(order) - order[k].total + line.total
  {
    var pre, post := order[..k], order[k + 1..];
    assert order == pre + [order[k]] + post;
    assert order[k := line] == pre + [line] + post;
    TotalConcat(pre + [order[k]], post);
    TotalConcat(pre + [line], post);
    TotalConcat(pre, [order[k]]);
    TotalConcat(pre, [line]);
    TotalSingle(order[k]);
    TotalSingle(line);
  }

  /**
   The add-to-order handler on a value: reject a non-positive quantity or an empty id,
   reject an id the catalogue lacks, otherwise merge into the product's line or append one.
   */
  function AddToOrder(catalog: seq<Product>, order: seq<Line>, id: string, q: int): (r: AddResult)
    ensures r == Rejected(InvalidInput) <==> q <= 0 || id == ""
    ensures r == Rejected(ProductNotFound) <==> q > 0 && id != "" && Unknown(catalog, id)
    ensures r.Added? ==> |order| <= |r.order| <= |order| + 1
  {
    if q <= 0 || id == "" then Rejected(InvalidInput)
    else
      match FindProduct(catalog, id)
      case None => Rejected(ProductNotFound)
      case Some(p) =>
        var subtotal := q * p.price;
        var k := FindLine(order, id);
        if k > -1 then
          var line := order[k];
          Added(order[k := Line(line.product, line.quantity + q, line.total + subtotal)])
        else
          Added(order + [Line(p, q, subtotal)])
  }

  /**
   Merge case: when the order already has a line for the product, that line's quantity
   grows by q and its subtotal by q times the unit price; the length and all other lines stay.
   */
  lemma AddMergesExistingLine(catalog: seq<Product>, order: seq<Line>, id: string, q: int, k: int)
    requires OrderValid(catalog, order)
    requires q > 0 && id != ""
    requires 0 <= k < |order| && order[k].product.id == id
    ensures AddToOrder(catalog, order, id, q).Added?
    ensures var o := AddToOrder(catalog, order, id, q).order;
      |o| == |order| &&
      o[k] == Line(order[k].product, order[k].quantity + q, order[k].total + q * order[k].product.price) &&
      forall j :: 0 <= j < |order| && j != k ==> o[j] == order[j]
  {
    assert LineValid(catalog, order[k]);
    assert FindLine(order, id) == k;
  }

  /**
   Append case: when no line has the product, exactly one new line with quantity q and
   subtotal q times the unit price is appended after the unchanged earlier lines.
   */
  lemma AddAppendsNewLine(catalog: seq<Product>, order: seq<Line>, id: string, q: int, p: Product)
    requires q > 0 && id != ""
    requires FindProduct(catalog, id) == Some(p)
    requires forall k :: 0 <= k < |order| ==> order[k].product.id != id
    ensures AddToOrder(catalog, order, id, q) == Added(order + [Line(p, q, q * p.price)])
  {
  }

  /** Distributivity of the subtotal over merged quantities. */
  lemma MergedSubtotal(a: nat, b: nat, price: nat)
    ensures (a + b) * price == a * price + b * price
  {
  }

  /** Replacing a line by a valid line for the same product keeps the order invariant. */
  lemma UpdateKeepsValid(catalog: seq<Product>, order: seq<Line>, k: int, line: Line)
    requires OrderValid(catalog, order) && 0 <= k < |order|
    requires line.product == order[k].product && LineValid(catalog, line)
    ensures OrderValid(catalog, order[k := line])
  {
    var o := order[k := line];
    forall i, j | 0 <= i < j < |o| ensures o[i].product.id != o[j].product.id {
      assert o[i].product.id == order[i].product.id && o[j].product.id == order[j].product.id;
    }
  }

  /** Appending a valid line for a product the order lacks keeps the order invariant. */
  lemma AppendKeepsValid(catalog: seq<Product>, order: seq<Line>, line: Line)
    requires OrderValid(catalog, order) && LineValid(catalog, line)
    requires forall k :: 0 <= k < |order| ==> order[k].product.id != line.product.id
    ensures OrderValid(catalog, order + [line])
  {
    var o := order + [line];
    forall j | 0 <= j < |o| ensures LineValid(catalog, o[j]) {
      if j < |order| { assert o[j] == order[j]; }
    }
  }

  /** A successful add keeps the order invariant: one line per product, subtotals equal quantity times price. */
  lemma AddPreservesValid(catalog: seq<Product>, order: seq<Line>, id: string, q: int)
    requires OrderValid(catalog, order)
    ensures AddToOrder(catalog, order, id, q).Added? ==> OrderValid(catalog, AddToOrder(catalog, order, id, q).order)
  {
    if q > 0 && id != "" && FindProduct(catalog, id).Some? {
      var p := FindProduct(catalog, id).value;
      var k := FindLine(order, id);
      if k > -1 {
        var line := order[k];
        assert LineValid(catalog, line);
        var merged := Line(line.product, line.quantity + q, line.total + q * p.price);
        MergedSubtotal(line.quantity, q, p.price);
        UpdateKeepsValid(catalog, order, k, merged);
      } else {
        AppendKeepsValid(catalog, order, Line(p, q, q * p.price));
      }
    }
  }

  /** A successful add of q units of product p raises the grand total by exactly q times p's price. */
  lemma AddTotal(catalog: seq<Product>, order: seq<Line>, id: string, q: int)
    requires AddToOrder(catalog, order, id, q).Added?
    ensures var p := FindProduct(catalog, id).value;
      Total(AddToOrder(catalog, order, id, q).order) == Total(order) + q * p.price
  {
    var p := FindProduct(catalog, id).value;
    var k := FindLine(order, id);
    var o := AddToOrder(catalog, order, id, q).order;
    if k > -1 {
      var line := order[k];
      TotalUpdate(order, k, Line(line.product, line.quantity + q, line.total + q * p.price));
    } else {
      TotalConcat(order, [Line(p, q, q * p.price)]);
      TotalSingle(Line(p, q, q * p.price));
    }
  }

  /** The remove handler's `splice(i, 1)`: later lines shift down by one, their order kept. */
  function RemoveAt(order: seq<Line>, i: int): (r: seq<Line>)
    requires 0 <= i < |order|
    ensures |r| == |order| - 1
    ensures forall k :: 0 <= k < i ==> r[k] == order[k]
    ensures forall k :: i <= k < |r| ==> r[k] == order[k + 1]
  {
    order[..i] + order[i + 1..]
  }

  /** Removing a line keeps the order invariant. */
  lemma RemovePreservesValid(catalog: seq<Product>, order: seq<Line>, i: int)
    requires OrderValid(catalog, order) && 0 <= i < |order|
    ensures OrderValid(catalog, RemoveAt(order, i))
  {
    var r := RemoveAt(order, i);
    forall j | 0 <= j < |r| ensures LineValid(catalog, r[j]) {
      if j < i { assert r[j] == order[j]; } else { assert r[j] == order[j + 1]; }
    }
    forall a, b | 0 <= a < b < |r| ensures r[a].product.id != r[b].product.id {
      var a', b' := if a < i then a else a + 1, if b < i then b else b + 1;
      assert r[a] == order[a'] && r[b] == order[b'] && a' < b';
    }
  }

  /** Removing a line lowers the grand total by exactly that line's subtotal. */
  lemma RemoveTotal(order: seq<Line>, i: int)
    requires 0 <= i < |order|
    ensures Total(RemoveAt(order, i)) == Total(order) - order[i].total
  {
    var pre, post := order[..i], order[i + 1..];
    assert order == (pre + [order[i]]) + post;
    TotalConcat(pre + [order[i]], post);
    TotalConcat(pre, [order[i]]);
    TotalConcat(pre, post);
    TotalSingle(order[i]);
  }

  /** The sum of a sequence of quantities, folded from the left. */
  function Sum(qs: seq<int>): int
  {
    if |qs| == 0 then 0 else Sum(qs[..|qs| - 1]) + qs[|qs| - 1]
  }

  /** The order after a series of add requests for the same product id, one per quantity in qs. */
  function AddAll(catalog: seq<Product>, order: seq<Line>, id: string, qs: seq<int>): seq<Line>
  {
    if |qs| == 0 then order
    else
      var prev := AddAll(catalog, order, id, qs[..|qs| - 1]);
      match AddToOrder(catalog, prev, id, qs[|qs| - 1])
      case Added(o) => o
      case Rejected(_) => prev
  }

  /**
   Repeated adds of one product to an empty order give one line whose quantity is the sum
   of the added quantities and whose subtotal is that sum times the unit price.
   */
  lemma {:induction false} RepeatedAdds(catalog: seq<Product>, id: string, qs: seq<int>, p: Product)
    requires id != "" && FindProduct(catalog, id) == Some(p)
    requires forall k :: 0 <= k < |qs| ==> qs[k] > 0
    ensures Sum(qs) >= |qs|
    ensures AddAll(catalog, [], id, qs) == if |qs| == 0 then [] else [Line(p, Sum(qs), Sum(qs) * p.price)]
  {
    if |qs| > 0 {
      var init, q := qs[..|qs| - 1], qs[|qs| - 1];
      RepeatedAdds(catalog, id, init, p);
      var prev := AddAll(catalog, [], id, init);
      if |init| == 0 {
        AddAppendsNewLine(catalog, prev, id, q, p);
      } else {
        var s := Sum(init);
        assert prev == [Line(p, s, s * p.price)];
        assert OrderValid(catalog, prev) by { assert LineValid(catalog, prev[0]); }
        AddMergesExistingLine(catalog, prev, id, q, 0);
        MergedSubtotal(s, q, p.price);
      }
    }
  }
}
