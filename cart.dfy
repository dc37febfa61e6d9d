/** The shopping-cart page: a list of cart lines held in the `cartItems` state field,
    the `updateQuantity` and `removeItem` handlers that replace it, and the `total`
    computed from it. Prices are integers in minor units (cents). */
module CartPage {
  import opened Seqs

  datatype CartItem = CartItem(id: int, name: string, price: int, quantity: int, image: string)

  function LineTotal(item: CartItem): int
  {
    item.price * item.quantity
  }

  /** Reference definition of the cart total: the sum of price × quantity over the lines. */
  function Sum(items: seq<CartItem>): int
  {
    if items == [] then 0 else LineTotal(items[0]) + Sum(items[1..])
  }

  /** `items.reduce((sum, item) => sum + item.price * item.quantity, acc)`, folding from the left. */
  function Reduce(acc: int, items: seq<CartItem>): (r: int)
    ensures r == acc + Sum(items)
    decreases |items|
  {
    if items == [] then acc else Reduce(acc + LineTotal(items[0]), items[1..])
  }

  /** `total`, the reduce started at 0. */
  function Total(items: seq<CartItem>): int
  {
    Reduce(0, items)
  }

  lemma {:induction false} SumAppend(a: seq<CartItem>, b: seq<CartItem>)
    ensures Sum(a + b) == Sum(a) + Sum(b)
  {
    if a == [] {
      assert a + b == b;
    } else {
      assert (a + b)[1..] == a[1..] + b;
      SumAppend(a[1..], b);
    }
  }

  /** The quantity `Math.max(1, quantity + change)` a matched line gets. */
  function ClampedQuantity(quantity: int, change: int): (q: int)
    ensures q >= 1
    ensures q >= quantity + change
    ensures q == quantity + change || q == 1
  {
    if quantity + change > 1 then quantity + change else 1
  }

  /** The list `updateQuantity(id, change)` produces: every line with that id gets the
      clamped quantity and keeps its other fields; every other line, the length and the
      order are unchanged. */
  function UpdatedQuantities(items: seq<CartItem>, id: int, change: int): (r: seq<CartItem>)
    ensures |r| == |items|
    ensures forall i :: 0 <= i < |items| && items[i].id != id ==> r[i] == items[i]
    ensures forall i :: 0 <= i < |items| && items[i].id == id ==>
      r[i] == items[i].(quantity := ClampedQuantity(items[i].quantity, change))
  {
    seq(|items|, i requires 0 <= i < |items| =>
      if items[i].id == id
      then items[i].(quantity := ClampedQuantity(items[i].quantity, change))
      else items[i])
  }

  /** The list `removeItem(id)` produces: `items.filter(item => item.id !== id)`. */
  function WithoutId(items: seq<CartItem>, id: int): seq<CartItem>
  {
    Filter(items, (item: CartItem) => item.id != id)
  }

  /** Every line of the cart has a quantity of at least 1. */
  predicate QuantitiesPositive(items: seq<CartItem>)
  {
    forall i :: 0 <= i < |items| ==> items[i].quantity >= 1
  }

  /** Pressing minus on a line whose quantity is 1 leaves it at 1. */
  lemma DecrementAtOneStays(items: seq<CartItem>, k: int)
    requires 0 <= k < |items| && items[k].quantity == 1
    ensures UpdatedQuantities(items, items[k].id, -1)[k] == items[k]
  {
  }

  /** Pressing plus and then minus on the same id restores every line, provided every
      quantity was at least 1. */
  lemma IncrementThenDecrement(items: seq<CartItem>, id: int)
    requires QuantitiesPositive(items)
    ensures UpdatedQuantities(UpdatedQuantities(items, id, 1), id, -1) == items
  {
    var once := UpdatedQuantities(items, id, 1);
    var twice := UpdatedQuantities(once, id, -1);
    forall i | 0 <= i < |items| ensures twice[i] == items[i] {
      if items[i].id == id {
        assert once[i].quantity == items[i].quantity + 1;
      }
    }
  }

  /** `updateQuantity` keeps every quantity at 1 or more. */
  lemma UpdateKeepsQuantitiesPositive(items: seq<CartItem>, id: int, change: int)
    requires QuantitiesPositive(items)
    ensures QuantitiesPositive(UpdatedQuantities(items, id, change))
  {
  }

  /** `removeItem(id)` drops every line with that id and nothing else, keeping the order. */
  lemma RemoveDropsExactlyId(items: seq<CartItem>, id: int, x: CartItem)
    ensures IsSubsequence(WithoutId(items, id), items)
    ensures multiset(WithoutId(items, id))[x] == if x.id != id then multiset(items)[x] else 0
  {
    FilterIsSubsequence(items, (item: CartItem) => item.id != id);
    FilterCount(items, (item: CartItem) => item.id != id, x);
  }

  /** Removing twice is removing once; an id not in the cart changes nothing. */
  lemma RemoveIdempotentAndAbsent(items: seq<CartItem>, id: int)
    ensures WithoutId(WithoutId(items, id), id) == WithoutId(items, id)
    ensures (forall i :: 0 <= i < |items| ==> items[i].id != id) ==> WithoutId(items, id) == items
  {
    FilterIdempotent(items, (item: CartItem) => item.id != id);
    if forall i :: 0 <= i < |items| ==> items[i].id != id {
      FilterKeepsAll(items, (item: CartItem) => item.id != id);
    }
  }

  /** The total is the sum of the line totals; an empty cart totals 0. */
  lemma TotalIsSum(items: seq<CartItem>)
    ensures Total(items) == Sum(items)
    ensures items == [] ==> Total(items) == 0
  {
  }

  /** Removing the only line with a given id leaves the lines before and after it. */
  lemma RemoveUniqueId(items: seq<CartItem>, k: int)
    requires 0 <= k < |items|
    requires forall j :: 0 <= j < |items| && j != k ==> items[j].id != items[k].id
    ensures WithoutId(items, items[k].id) == items[..k] + items[k + 1..]
  {
    var id := items[k].id;
    FilterDropsOne(items, (item: CartItem) => item.id != id, k);
  }

  /** Removing the only line with a given id lowers the total by exactly that line's
      price × quantity. */
  lemma RemoveUniqueLowersTotal(items: seq<CartItem>, k: int)
    requires 0 <= k < |items|
    requires forall j :: 0 <= j < |items| && j != k ==> items[j].id != items[k].id
    ensures Total(WithoutId(items, items[k].id)) == Total(items) - LineTotal(items[k])
  {
    var before, after := items[..k], items[k + 1..];
    RemoveUniqueId(items, k);
    assert items == (before + [items[k]]) + after;
    SumAppend(before, after);
    SumAppend(before, [items[k]]);
    SumAppend(before + [items[k]], after);
    assert Sum([items[k]]) == LineTotal(items[k]);
  }

  /** The three demonstration lines `cartItems` starts with. */
  const InitialItems: seq<CartItem> := [
    CartItem(1, "Handmade Wall Decor", 14999, 2, "/api/placeholder/100/100"),
    CartItem(2, "Decorative Vase", 8999, 1, "/api/placeholder/100/100"),
    CartItem(3, "Crafted Jewelry Box", 19999, 1, "/api/placeholder/100/100")
  ]

  /** The page's `cartItems` state. */
  class Cart {
    var items: seq<CartItem>

    ghost predicate Valid()
      reads this
    {
      QuantitiesPositive(items)
    }

    /** The three demonstration lines the page starts with. */
    constructor ()
      ensures items == InitialItems
      ensures Valid()
      ensures |items| == 3 && Total(items) == 2 * 14999 + 8999 + 19999
    {
      items := InitialItems;
    }

    /** `updateQuantity(id, change)` */
    method UpdateQuantity(id: int, change: int)
      requires Valid()
      modifies this
      ensures Valid()
      ensures items == UpdatedQuantities(old(items), id, change)
    {
      UpdateKeepsQuantitiesPositive(items, id, change);
      items := UpdatedQuantities(items, id, change);
    }

    /** `removeItem(id)` */
    method RemoveItem(id: int)
      requires Valid()
      modifies this
      ensures Valid()
      ensures items == WithoutId(old(items), id)
    {
      items := WithoutId(items, id);
    }

    /** `total` as rendered for the current state. */
    function CurrentTotal(): (t: int)
      reads this
      ensures t == Sum(items)
    {
      Total(items)
    }
  }
}
