/**
 * The cart store: an ordered sequence of cart lines, the four operations
 * that change it, and the two totals derived from it.
 *
 * Each operation is first defined as a function from the old line sequence
 * to the new one (Added, Removed, Updated); the class CartStore at the end
 * holds the sequence in a field and applies those functions to it.
 */
module Cart {
  import opened Types

  // ---------------------------------------------------------------------
  // The cart invariant
  // ---------------------------------------------------------------------

  /** Some line of the cart holds the product with this id. */
  predicate HasLine(items: seq<CartLine>, id: int)
  {
    exists i | 0 <= i < |items| :: items[i].product.id == id
  }

  /** At most one line per product id, and every quantity is at least 1. */
  predicate WellFormed(items: seq<CartLine>)
  {
    && (forall i, j | 0 <= i < j < |items| :: items[i].product.id != items[j].product.id)
    && (forall i | 0 <= i < |items| :: items[i].quantity >= 1)
  }

  // ---------------------------------------------------------------------
  // The operations, on values
  // ---------------------------------------------------------------------

  /** Every line holding product `id` with its quantity raised by one; the others as they were. */
  function Incremented(items: seq<CartLine>, id: int): seq<CartLine>
  {
    seq(|items|, i requires 0 <= i < |items| =>
      if items[i].product.id == id then items[i].(quantity := items[i].quantity + 1) else items[i])
  }

  /** Every line holding product `id` with its quantity set to `quantity`; the others as they were. */
  function WithQuantity(items: seq<CartLine>, id: int, quantity: int): seq<CartLine>
  {
    seq(|items|, i requires 0 <= i < |items| =>
      if items[i].product.id == id then items[i].(quantity := quantity) else items[i])
  }

  /** Two line sequences holding the same products position by position hold the same ids. */
  lemma SameIds(a: seq<CartLine>, b: seq<CartLine>)
    requires |a| == |b| && forall i | 0 <= i < |a| :: a[i].product == b[i].product
    ensures forall id :: HasLine(a, id) <==> HasLine(b, id)
  {
  }

  /** Appending a line adds its id and keeps every id already there. */
  lemma AppendedIds(items: seq<CartLine>, line: CartLine)
    ensures forall id :: HasLine(items + [line], id) <==> HasLine(items, id) || id == line.product.id
  {
    var s := items + [line];
    assert s[|items|] == line;
    forall id | HasLine(s, id) ensures HasLine(items, id) || id == line.product.id {
      var i :| 0 <= i < |s| && s[i].product.id == id;
      if i < |items| {
        assert items[i] == s[i];
      }
    }
    forall id | HasLine(items, id) ensures HasLine(s, id) {
      var i :| 0 <= i < |items| && items[i].product.id == id;
      assert s[i] == items[i];
    }
  }

  /** addItem: bump the product's line if there is one, else append a fresh line of quantity 1. */
  function Added(items: seq<CartLine>, product: Product): (r: seq<CartLine>)
    ensures |r| == if HasLine(items, product.id) then |items| else |items| + 1
    ensures forall id :: HasLine(r, id) <==> HasLine(items, id) || id == product.id
  {
    SameIds(items, Incremented(items, product.id));
    AppendedIds(items, CartLine(product, 1));
    if HasLine(items, product.id) then Incremented(items, product.id)
    else items + [CartLine(product, 1)]
  }

  /** removeItem: keep, in order, exactly the lines whose product id differs from `id`. */
  function Removed(items: seq<CartLine>, id: int): (r: seq<CartLine>)
    ensures |r| <= |items|
    ensures forall l :: l in r <==> l in items && l.product.id != id
  {
    if items == [] then []
    else if items[0].product.id == id then Removed(items[1..], id)
    else [items[0]] + Removed(items[1..], id)
  }

  /** The ids left after removeItem are exactly the other ids that were there. */
  lemma RemovedIds(items: seq<CartLine>, id: int)
    ensures !HasLine(Removed(items, id), id)
    ensures forall j :: j != id ==> (HasLine(Removed(items, id), j) <==> HasLine(items, j))
  {
  }

  /** updateQuantity: a quantity of zero or less removes the line, any other sets it outright. */
  function Updated(items: seq<CartLine>, id: int, quantity: int): (r: seq<CartLine>)
    ensures quantity > 0 ==> |r| == |items|
    ensures quantity <= 0 ==> !HasLine(r, id)
    ensures forall j :: j != id ==> (HasLine(r, j) <==> HasLine(items, j))
  {
    RemovedIds(items, id);
    SameIds(items, WithQuantity(items, id, quantity));
    if quantity <= 0 then Removed(items, id) else WithQuantity(items, id, quantity)
  }

  /** One call on the cart store's mutating interface. */
  datatype CartOp =
    | AddItem(product: Product)
    | RemoveItem(id: int)
    | UpdateQuantity(id: int, quantity: int)
    | ClearCart

  function Apply(items: seq<CartLine>, op: CartOp): seq<CartLine>
  {
    match op
    case AddItem(p) => Added(items, p)
    case RemoveItem(id) => Removed(items, id)
    case UpdateQuantity(id, q) => Updated(items, id, q)
    case ClearCart => []
  }

  /** The cart after the calls `ops`, made one after the other. */
  function Run(items: seq<CartLine>, ops: seq<CartOp>): seq<CartLine>
    decreases |ops|
  {
    if ops == [] then items else Run(Apply(items, ops[0]), ops[1..])
  }

  /** The cart after `n` successive addItem calls with the same product. */
  function AddedTimes(items: seq<CartLine>, product: Product, n: nat): seq<CartLine>
  {
    if n == 0 then items else Added(AddedTimes(items, product, n - 1), product)
  }

  /** The cart after one addItem call per product of `ps`, in order. */
  function AddedAll(items: seq<CartLine>, ps: seq<Product>): seq<CartLine>
    decreases |ps|
  {
    if ps == [] then items else Added(AddedAll(items, ps[..|ps| - 1]), ps[|ps| - 1])
  }

  // ---------------------------------------------------------------------
  // The totals
  // ---------------------------------------------------------------------

  function LinePrice(line: CartLine): real
  {
    line.product.price * line.quantity as real
  }

  /** The price reduction as the store runs it: an accumulator folded from the first line on. */
  function ReducePrice(items: seq<CartLine>, acc: real): real
    decreases |items|
  {
    if items == [] then acc else ReducePrice(items[1..], acc + LinePrice(items[0]))
  }

  /** The quantity reduction as the store runs it. */
  function ReduceQuantity(items: seq<CartLine>, acc: int): int
    decreases |items|
  {
    if items == [] then acc else ReduceQuantity(items[1..], acc + items[0].quantity)
  }

  /** Reference definition: the sum of price times quantity over the lines. */
  function PriceSum(items: seq<CartLine>): real
  {
    if items == [] then 0.0 else LinePrice(items[0]) + PriceSum(items[1..])
  }

  /** Reference definition: the sum of the quantities over the lines. */
  function QuantitySum(items: seq<CartLine>): int
  {
    if items == [] then 0 else items[0].quantity + QuantitySum(items[1..])
  }

  lemma {:induction false} ReducePriceIsSum(items: seq<CartLine>, acc: real)
    ensures ReducePrice(items, acc) == acc + PriceSum(items)
    decreases |items|
  {
    if items != [] {
      ReducePriceIsSum(items[1..], acc + LinePrice(items[0]));
    }
  }

  lemma {:induction false} ReduceQuantityIsSum(items: seq<CartLine>, acc: int)
    ensures ReduceQuantity(items, acc) == acc + QuantitySum(items)
    decreases |items|
  {
    if items != [] {
      ReduceQuantityIsSum(items[1..], acc + items[0].quantity);
    }
  }

  /** getTotalPrice: the reduction started at 0 is the sum of price times quantity. */
  function TotalPriceOf(items: seq<CartLine>): (r: real)
    ensures r == PriceSum(items)
  {
    ReducePriceIsSum(items, 0.0);
    ReducePrice(items, 0.0)
  }

  /** getTotalItems: the reduction started at 0 is the sum of the quantities. */
  function TotalItemsOf(items: seq<CartLine>): (r: int)
    ensures r == QuantitySum(items)
  {
    ReduceQuantityIsSum(items, 0);
    ReduceQuantity(items, 0)
  }

  lemma {:induction false} PriceSumConcat(a: seq<CartLine>, b: seq<CartLine>)
    ensures PriceSum(a + b) == PriceSum(a) + PriceSum(b)
    decreases |a|
  {
    if a == [] {
      assert a + b == b;
    } else {
      assert (a + b)[1..] == a[1..] + b;
      PriceSumConcat(a[1..], b);
    }
  }

  lemma {:induction false} QuantitySumConcat(a: seq<CartLine>, b: seq<CartLine>)
    ensures QuantitySum(a + b) == QuantitySum(a) + QuantitySum(b)
    decreases |a|
  {
    if a == [] {
      assert a + b == b;
    } else {
      assert (a + b)[1..] == a[1..] + b;
      QuantitySumConcat(a[1..], b);
    }
  }

  /** Replacing one line changes each sum by exactly that line's difference. */
  lemma SumsReplaceLine(items: seq<CartLine>, k: int, line: CartLine)
    requires 0 <= k < |items|
    ensures PriceSum(items[k := line]) == PriceSum(items) - LinePrice(items[k]) + LinePrice(line)
    ensures QuantitySum(items[k := line]) == QuantitySum(items) - items[k].quantity + line.quantity
  {
    var pre, post := items[..k], items[k + 1..];
    assert items == pre + ([items[k]] + post);
    assert items[k := line] == pre + ([line] + post);
    PriceSumConcat(pre, [items[k]] + post);
    PriceSumConcat(pre, [line] + post);
    PriceSumConcat([items[k]], post);
    PriceSumConcat([line], post);
    QuantitySumConcat(pre, [items[k]] + post);
    QuantitySumConcat(pre, [line] + post);
    QuantitySumConcat([items[k]], post);
    QuantitySumConcat([line], post);
  }

  // ---------------------------------------------------------------------
  // Properties of the operations
  // ---------------------------------------------------------------------

  /** In a well-formed cart the line for an id is unique, so only it can match. */
  lemma UniqueLine(items: seq<CartLine>, k: int, i: int)
    requires WellFormed(items) && 0 <= k < |items| && 0 <= i < |items|
    requires items[i].product.id == items[k].product.id
    ensures i == k
  {
  }

  /** addItem on a product already in the cart raises that line by exactly 1 and leaves the rest. */
  lemma AddedExisting(items: seq<CartLine>, k: int, product: Product)
    requires WellFormed(items) && 0 <= k < |items| && items[k].product.id == product.id
    ensures Added(items, product) == items[k := items[k].(quantity := items[k].quantity + 1)]
  {
    assert HasLine(items, product.id);
    var r := Added(items, product);
    forall i | 0 <= i < |items| && i != k
      ensures r[i] == items[i]
    {
      if items[i].product.id == product.id {
        UniqueLine(items, k, i);
      }
    }
  }

  /** n addItem calls for a product not yet in the cart give one new last line of quantity n. */
  lemma {:induction false} AddedTimesNew(items: seq<CartLine>, product: Product, n: nat)
    requires !HasLine(items, product.id) && n >= 1
    ensures AddedTimes(items, product, n) == items + [CartLine(product, n)]
  {
    if n == 1 {
      assert AddedTimes(items, product, 0) == items;
    } else {
      AddedTimesNew(items, product, n - 1);
      var s := items + [CartLine(product, n - 1)];
      assert s[|items|].product.id == product.id;
      assert HasLine(s, product.id);
      forall i | 0 <= i < |s|
        ensures Incremented(s, product.id)[i] == (items + [CartLine(product, n)])[i]
      {
        if i < |items| {
          assert s[i] == items[i];
          assert items[i].product.id != product.id;
        }
      }
    }
  }

  /**
   * Successive addItem calls with product values that share one id, not yet
   * in the cart, give one new last line: it keeps the fields of the first
   * value (its price included) and counts every call.
   */
  lemma {:induction false} AddedAllSameId(items: seq<CartLine>, ps: seq<Product>)
    requires |ps| >= 1 && !HasLine(items, ps[0].id)
    requires forall i | 0 <= i < |ps| :: ps[i].id == ps[0].id
    ensures AddedAll(items, ps) == items + [CartLine(ps[0], |ps|)]
    decreases |ps|
  {
    var n := |ps|;
    if n == 1 {
      assert ps[..0] == [];
    } else {
      var front := ps[..n - 1];
      assert front[0] == ps[0];
      AddedAllSameId(items, front);
      var s := items + [CartLine(ps[0], n - 1)];
      assert s[|items|].product.id == ps[n - 1].id;
      assert HasLine(s, ps[n - 1].id);
      forall i | 0 <= i < |s|
        ensures Incremented(s, ps[0].id)[i] == (items + [CartLine(ps[0], n)])[i]
      {
        if i < |items| {
          assert s[i] == items[i];
          assert items[i].product.id != ps[0].id;
        }
      }
    }
  }

  /** removeItem on an absent id changes nothing. */
  lemma {:induction false} RemovedAbsent(items: seq<CartLine>, id: int)
    requires !HasLine(items, id)
    ensures Removed(items, id) == items
    decreases |items|
  {
    if items != [] {
      assert items[0].product.id != id;
      forall i | 0 <= i < |items[1..]|
        ensures items[1..][i].product.id != id
      {
        assert items[1..][i] == items[i + 1];
      }
      RemovedAbsent(items[1..], id);
      assert items == [items[0]] + items[1..];
    }
  }

  /** Removing distributes over concatenation: remaining lines keep their relative order. */
  lemma {:induction false} RemovedConcat(a: seq<CartLine>, b: seq<CartLine>, id: int)
    ensures Removed(a + b, id) == Removed(a, id) + Removed(b, id)
    decreases |a|
  {
    if a == [] {
      assert a + b == b;
    } else {
      assert (a + b)[0] == a[0];
      assert (a + b)[1..] == a[1..] + b;
      RemovedConcat(a[1..], b, id);
    }
  }

  /** In a well-formed cart no line before or after line k shares its id. */
  lemma OnlyLineWithId(items: seq<CartLine>, k: int)
    requires WellFormed(items) && 0 <= k < |items|
    ensures !HasLine(items[..k], items[k].product.id)
    ensures !HasLine(items[k + 1..], items[k].product.id)
  {
    var pre, post := items[..k], items[k + 1..];
    forall i | 0 <= i < |pre| ensures pre[i].product.id != items[k].product.id {
      assert pre[i] == items[i];
    }
    forall i | 0 <= i < |post| ensures post[i].product.id != items[k].product.id {
      assert post[i] == items[k + 1 + i];
    }
  }

  /** Removing the id of a line that sits between two parts without that id leaves the two parts. */
  lemma RemovedMiddle(pre: seq<CartLine>, line: CartLine, post: seq<CartLine>)
    requires !HasLine(pre, line.product.id) && !HasLine(post, line.product.id)
    ensures Removed(pre + [line] + post, line.product.id) == pre + post
  {
    var id := line.product.id;
    RemovedAbsent(pre, id);
    RemovedAbsent(post, id);
    assert pre + [line] + post == pre + ([line] + post);
    RemovedConcat(pre, [line] + post, id);
    RemovedConcat([line], post, id);
    assert Removed([line], id) == [];
  }

  /** removeItem on the id of line k drops exactly that line and keeps the others in order. */
  lemma RemovedPresent(items: seq<CartLine>, k: int)
    requires WellFormed(items) && 0 <= k < |items|
    ensures Removed(items, items[k].product.id) == items[..k] + items[k + 1..]
  {
    OnlyLineWithId(items, k);
    assert items == items[..k] + [items[k]] + items[k + 1..];
    RemovedMiddle(items[..k], items[k], items[k + 1..]);
  }

  /** updateQuantity with a positive quantity on the id of line k sets that one quantity outright. */
  lemma UpdatedPresent(items: seq<CartLine>, k: int, quantity: int)
    requires WellFormed(items) && 0 <= k < |items| && quantity > 0
    ensures Updated(items, items[k].product.id, quantity) == items[k := items[k].(quantity := quantity)]
  {
    var r := Updated(items, items[k].product.id, quantity);
    forall i | 0 <= i < |items| && i != k
      ensures r[i] == items[i]
    {
      if items[i].product.id == items[k].product.id {
        UniqueLine(items, k, i);
      }
    }
  }

  /** updateQuantity on an absent id changes nothing, whatever the quantity. */
  lemma UpdatedAbsent(items: seq<CartLine>, id: int, quantity: int)
    requires !HasLine(items, id)
    ensures Updated(items, id, quantity) == items
  {
    if quantity <= 0 {
      RemovedAbsent(items, id);
    } else {
      forall i | 0 <= i < |items| ensures WithQuantity(items, id, quantity)[i] == items[i] {
        assert items[i].product.id != id;
      }
    }
  }

  // ---------------------------------------------------------------------
  // The invariant is preserved
  // ---------------------------------------------------------------------

  lemma AddedWellFormed(items: seq<CartLine>, product: Product)
    requires WellFormed(items)
    ensures WellFormed(Added(items, product))
  {
    if !HasLine(items, product.id) {
      var r := Added(items, product);
      forall i, j | 0 <= i < j < |r| ensures r[i].product.id != r[j].product.id {
        if j == |items| {
          assert r[i] == items[i];
        }
      }
    }
  }

  /** Dropping one line from a well-formed cart leaves a well-formed cart. */
  lemma DropLineWellFormed(items: seq<CartLine>, k: int)
    requires WellFormed(items) && 0 <= k < |items|
    ensures WellFormed(items[..k] + items[k + 1..])
  {
    var r := items[..k] + items[k + 1..];
    assert forall i | 0 <= i < |r| :: r[i] == items[if i < k then i else i + 1];
  }

  lemma RemovedWellFormed(items: seq<CartLine>, id: int)
    requires WellFormed(items)
    ensures WellFormed(Removed(items, id))
  {
    if HasLine(items, id) {
      var k :| 0 <= k < |items| && items[k].product.id == id;
      RemovedPresent(items, k);
      DropLineWellFormed(items, k);
    } else {
      RemovedAbsent(items, id);
    }
  }

  lemma UpdatedWellFormed(items: seq<CartLine>, id: int, quantity: int)
    requires WellFormed(items)
    ensures WellFormed(Updated(items, id, quantity))
  {
    if quantity <= 0 {
      RemovedWellFormed(items, id);
    }
  }

  lemma ApplyWellFormed(items: seq<CartLine>, op: CartOp)
    requires WellFormed(items)
    ensures WellFormed(Apply(items, op))
  {
    match op
    case AddItem(p) => AddedWellFormed(items, p);
    case RemoveItem(id) => RemovedWellFormed(items, id);
    case UpdateQuantity(id, q) => UpdatedWellFormed(items, id, q);
    case ClearCart =>
  }

  /** Any sequence of add/remove/update/clear calls keeps the cart invariant. */
  lemma {:induction false} RunWellFormed(items: seq<CartLine>, ops: seq<CartOp>)
    requires WellFormed(items)
    ensures WellFormed(Run(items, ops))
    decreases |ops|
  {
    if ops != [] {
      ApplyWellFormed(items, ops[0]);
      RunWellFormed(Apply(items, ops[0]), ops[1..]);
    }
  }

  // ---------------------------------------------------------------------
  // How the operations move the totals
  // ---------------------------------------------------------------------

  /** In a well-formed cart the item count is at least the number of lines, and 0 only when empty. */
  lemma {:induction false} TotalItemsCountsLines(items: seq<CartLine>)
    requires WellFormed(items)
    ensures TotalItemsOf(items) >= |items|
    ensures TotalItemsOf(items) == 0 <==> items == []
    decreases |items|
  {
    if items != [] {
      var tail := items[1..];
      assert WellFormed(tail) by {
        forall i | 0 <= i < |tail| ensures tail[i] == items[i + 1] { }
      }
      TotalItemsCountsLines(tail);
    }
  }

  /** With non-negative prices the total price is non-negative. */
  lemma {:induction false} TotalPriceNonNegative(items: seq<CartLine>)
    requires WellFormed(items)
    requires forall i | 0 <= i < |items| :: items[i].product.price >= 0.0
    ensures TotalPriceOf(items) >= 0.0
    decreases |items|
  {
    if items != [] {
      var tail := items[1..];
      assert WellFormed(tail) && forall i | 0 <= i < |tail| :: tail[i].product.price >= 0.0 by {
        forall i | 0 <= i < |tail| ensures tail[i] == items[i + 1] { }
      }
      TotalPriceNonNegative(tail);
    }
  }

  /** addItem of a new product adds one item and that product's price. */
  lemma AddedTotalsNew(items: seq<CartLine>, product: Product)
    requires !HasLine(items, product.id)
    ensures TotalItemsOf(Added(items, product)) == TotalItemsOf(items) + 1
    ensures TotalPriceOf(Added(items, product)) == TotalPriceOf(items) + product.price
  {
    PriceSumConcat(items, [CartLine(product, 1)]);
    QuantitySumConcat(items, [CartLine(product, 1)]);
  }

  /** addItem of a product already on line k adds one item at the price stored on that line. */
  lemma AddedTotalsExisting(items: seq<CartLine>, k: int, product: Product)
    requires WellFormed(items) && 0 <= k < |items| && items[k].product.id == product.id
    ensures TotalItemsOf(Added(items, product)) == TotalItemsOf(items) + 1
    ensures TotalPriceOf(Added(items, product)) == TotalPriceOf(items) + items[k].product.price
  {
    AddedExisting(items, k, product);
    SumsReplaceLine(items, k, items[k].(quantity := items[k].quantity + 1));
  }

  /** Dropping line k takes exactly its price and its quantity out of the sums. */
  lemma SumsDropLine(items: seq<CartLine>, k: int)
    requires 0 <= k < |items|
    ensures PriceSum(items[..k] + items[k + 1..]) == PriceSum(items) - LinePrice(items[k])
    ensures QuantitySum(items[..k] + items[k + 1..]) == QuantitySum(items) - items[k].quantity
  {
    var pre, post := items[..k], items[k + 1..];
    assert items == pre + ([items[k]] + post);
    PriceSumConcat(pre, [items[k]] + post);
    PriceSumConcat([items[k]], post);
    PriceSumConcat(pre, post);
    QuantitySumConcat(pre, [items[k]] + post);
    QuantitySumConcat([items[k]], post);
    QuantitySumConcat(pre, post);
  }

  /** removeItem of line k takes away exactly that line's quantity and price. */
  lemma RemovedTotals(items: seq<CartLine>, k: int)
    requires WellFormed(items) && 0 <= k < |items|
    ensures TotalItemsOf(Removed(items, items[k].product.id)) == TotalItemsOf(items) - items[k].quantity
    ensures TotalPriceOf(Removed(items, items[k].product.id)) == TotalPriceOf(items) - LinePrice(items[k])
  {
    RemovedPresent(items, k);
    SumsDropLine(items, k);
  }

  /** updateQuantity(id of line k, q) with q > 0 moves the item count from that line's quantity to q. */
  lemma UpdatedTotals(items: seq<CartLine>, k: int, quantity: int)
    requires WellFormed(items) && 0 <= k < |items| && quantity > 0
    ensures TotalItemsOf(Updated(items, items[k].product.id, quantity))
         == TotalItemsOf(items) - items[k].quantity + quantity
    ensures TotalPriceOf(Updated(items, items[k].product.id, quantity))
         == TotalPriceOf(items) + items[k].product.price * (quantity - items[k].quantity) as real
  {
    UpdatedPresent(items, k, quantity);
    SumsReplaceLine(items, k, items[k].(quantity := quantity));
  }

  // ---------------------------------------------------------------------
  // The store
  // ---------------------------------------------------------------------

  /** The cart store: one field, `items`, that every mutation replaces. */
  class CartStore {
    var items: seq<CartLine>

    constructor ()
      ensures items == [] && WellFormed(items)
    {
      items := [];
    }

    method AddItem(product: Product)
      modifies this
      ensures items == Added(old(items), product)
      ensures WellFormed(old(items)) ==> WellFormed(items)
      ensures WellFormed(old(items)) ==> TotalItemsOf(items) == TotalItemsOf(old(items)) + 1
    {
      if WellFormed(items) {
        AddedWellFormed(items, product);
        if HasLine(items, product.id) {
          var k :| 0 <= k < |items| && items[k].product.id == product.id;
          AddedTotalsExisting(items, k, product);
        } else {
          AddedTotalsNew(items, product);
        }
      }
      items := Added(items, product);
    }

    method RemoveItem(id: int)
      modifies this
      ensures items == Removed(old(items), id)
      ensures !HasLine(items, id)
      ensures WellFormed(old(items)) ==> WellFormed(items)
    {
      if WellFormed(items) {
        RemovedWellFormed(items, id);
      }
      items := Removed(items, id);
    }

    /** A quantity of zero or less hands over to RemoveItem, as the store does. */
    method UpdateQuantity(id: int, quantity: int)
      modifies this
      ensures items == Updated(old(items), id, quantity)
      ensures quantity <= 0 ==> items == Removed(old(items), id)
      ensures WellFormed(old(items)) ==> WellFormed(items)
    {
      if quantity <= 0 {
        RemoveItem(id);
        return;
      }
      items := WithQuantity(items, id, quantity);
    }

    method ClearCart()
      modifies this
      ensures items == [] && WellFormed(items)
      ensures TotalItemsOf(items) == 0 && TotalPriceOf(items) == 0.0
    {
      items := [];
    }

    /** getTotalPrice, recomputed from the current lines on every call. */
    function TotalPrice(): (r: real)
      reads this
      ensures r == PriceSum(items)
      ensures items == [] ==> r == 0.0
    {
      TotalPriceOf(items)
    }

    /** getTotalItems, recomputed from the current lines on every call. */
    function TotalItems(): (r: int)
      reads this
      ensures r == QuantitySum(items)
      ensures items == [] ==> r == 0
    {
      TotalItemsOf(items)
    }
  }
}
