/** The shopping cart: a list of lines, one per product, each with a quantity.
    Money is in integer cents, so the threshold for free delivery is 2000 and
    the delivery fee 500. */
module Cart {

  const MinOrderValue: int := 2000
  const DeliveryFeeAmount: int := 500

  datatype Product = Product(
    id: int,
    name: string,
    description: string,
    price: int,
    imageUrl: string,
    category: string)

  datatype CartItem = CartItem(product: Product, quantity: int)

  // ---------------------------------------------------------- table shape

  predicate HasProduct(items: seq<CartItem>, id: int) {
    exists i :: 0 <= i < |items| && items[i].product.id == id
  }

  /** No two lines carry the same product id. */
  predicate UniqueIds(items: seq<CartItem>) {
    forall i, j :: 0 <= i < j < |items| ==> items[i].product.id != items[j].product.id
  }

  /** The invariant the cart operations keep: one line per product, each bought at least once. */
  predicate WellFormed(items: seq<CartItem>) {
    && UniqueIds(items)
    && (forall i :: 0 <= i < |items| ==> items[i].quantity >= 1)
  }

  // ------------------------------------------------------------ updaters

  /** The `map` that raises by one the quantity of every line with product `id`. */
  function Increment(items: seq<CartItem>, id: int): (r: seq<CartItem>)
    ensures |r| == |items|
    ensures forall i :: 0 <= i < |r| ==> r[i].product == items[i].product
  {
    seq(|items|, i requires 0 <= i < |items| =>
      if items[i].product.id == id then items[i].(quantity := items[i].quantity + 1) else items[i])
  }

  /** `addToCart`'s updater: a product already in the cart gets one more unit,
      a new one is appended with quantity 1. */
  function AddItem(items: seq<CartItem>, product: Product): (r: seq<CartItem>)
    ensures HasProduct(r, product.id)
    ensures |r| == if HasProduct(items, product.id) then |items| else |items| + 1
  {
    if HasProduct(items, product.id) then Increment(items, product.id)
    else
      var r := items + [CartItem(product, 1)];
      assert r[|items|].product.id == product.id;
      r
  }

  /** `decrementQuantity`'s updater: lower by one, but only a quantity above 1. */
  function Decrement(items: seq<CartItem>, id: int): (r: seq<CartItem>)
    ensures |r| == |items|
  {
    seq(|items|, i requires 0 <= i < |items| =>
      if items[i].product.id == id && items[i].quantity > 1
      then items[i].(quantity := items[i].quantity - 1)
      else items[i])
  }

  /** `removeFromCart`'s updater: the `filter` keeping the lines of other products. */
  function Remove(items: seq<CartItem>, id: int): (r: seq<CartItem>)
    ensures |r| <= |items|
    ensures forall i :: 0 <= i < |r| ==> r[i].product.id != id && r[i] in items
  {
    if items == [] then []
    else (if items[0].product.id != id then [items[0]] else []) + Remove(items[1..], id)
  }

  // ------------------------------------------------------- derived values

  function LineTotal(item: CartItem): int {
    item.product.price * item.quantity
  }

  /** `total`: the `reduce` summing price times quantity. */
  function Total(items: seq<CartItem>): int {
    if items == [] then 0 else LineTotal(items[0]) + Total(items[1..])
  }

  /** `deliveryFee`: free from the minimum order value up, otherwise the flat fee. */
  function DeliveryFee(total: int): (fee: int)
    ensures fee == 0 <==> total >= MinOrderValue
    ensures fee == 0 || fee == DeliveryFeeAmount
  {
    if total >= MinOrderValue then 0 else DeliveryFeeAmount
  }

  /** `finalTotal`. */
  function FinalTotal(items: seq<CartItem>): int {
    Total(items) + DeliveryFee(Total(items))
  }

  /** The number on the cart badge: the units in the cart, summed over the lines. */
  function ItemCount(items: seq<CartItem>): (n: int)
    ensures (forall i :: 0 <= i < |items| ==> items[i].quantity >= 1) ==> n >= |items|
  {
    if items == [] then 0 else items[0].quantity + ItemCount(items[1..])
  }

  // ------------------------------------------------------ add, decrement

  /** Adding a product already in a well-formed cart raises only its line by one:
      same length, same product object on that line, every other line untouched. */
  lemma AddPresent(items: seq<CartItem>, product: Product, k: nat)
    requires WellFormed(items)
    requires k < |items| && items[k].product.id == product.id
    ensures var r := AddItem(items, product);
            && r == items[k := items[k].(quantity := items[k].quantity + 1)]
            && |r| == |items|
            && r[k].product == items[k].product
            && r[k].quantity == items[k].quantity + 1
            && (forall j :: 0 <= j < |items| && j != k ==> r[j] == items[j])
  {
    assert HasProduct(items, product.id);
  }

  /** Adding a product not in the cart appends a line with quantity 1 at the end. */
  lemma AddAbsent(items: seq<CartItem>, product: Product)
    requires !HasProduct(items, product.id)
    ensures AddItem(items, product) == items + [CartItem(product, 1)]
  {
  }

  /** Decrementing changes at most the line with that id, and only when its
      quantity is above 1; no line is ever dropped. */
  lemma DecrementEffect(items: seq<CartItem>, id: int, k: nat)
    requires WellFormed(items)
    requires k < |items| && items[k].product.id == id
    ensures var r := Decrement(items, id);
            && (items[k].quantity > 1 ==> r == items[k := items[k].(quantity := items[k].quantity - 1)])
            && (items[k].quantity == 1 ==> r == items)
  {
  }

  /** Decrementing a product not in the cart changes nothing. */
  lemma DecrementAbsent(items: seq<CartItem>, id: int)
    requires !HasProduct(items, id)
    ensures Decrement(items, id) == items
  {
    assert forall i :: 0 <= i < |items| ==> items[i].product.id != id;
  }

  // --------------------------------------------------------------- remove

  /** Removing a product not in the cart changes nothing. */
  lemma {:induction false} RemoveAbsent(items: seq<CartItem>, id: int)
    requires !HasProduct(items, id)
    ensures Remove(items, id) == items
  {
    if items != [] {
      assert !HasProduct(items[1..], id) by {
        forall i | 0 <= i < |items[1..]|
          ensures items[1..][i].product.id != id
        {
          assert items[1..][i] == items[i + 1];
        }
      }
      RemoveAbsent(items[1..], id);
      assert [items[0]] + items[1..] == items;
    }
  }

  /** Filtering distributes over concatenation, so the kept lines stay in order. */
  lemma {:induction false} RemoveAppend(a: seq<CartItem>, b: seq<CartItem>, id: int)
    ensures Remove(a + b, id) == Remove(a, id) + Remove(b, id)
  {
    if a == [] {
      assert a + b == b;
    } else {
      assert (a + b)[0] == a[0] && (a + b)[1..] == a[1..] + b;
      RemoveAppend(a[1..], b, id);
    }
  }

  /** In a well-formed cart, removing a product present on line k deletes exactly
      that line, whatever its quantity, and keeps the rest in order. */
  lemma {:induction false} RemovePresent(items: seq<CartItem>, id: int, k: nat)
    requires UniqueIds(items)
    requires k < |items| && items[k].product.id == id
    ensures Remove(items, id) == items[..k] + items[k + 1..]
  {
    var rest := items[1..];
    assert Remove(items, id)
        == (if items[0].product.id != id then [items[0]] else []) + Remove(rest, id);
    if k == 0 {
      assert !HasProduct(rest, id) by {
        assert forall i :: 0 <= i < |rest| ==> rest[i] == items[i + 1];
      }
      RemoveAbsent(rest, id);
    } else {
      assert UniqueIds(rest) by {
        assert forall i :: 0 <= i < |rest| ==> rest[i] == items[i + 1];
      }
      RemovePresent(rest, id, k - 1);
      assert [items[0]] + (rest[..k - 1] + rest[k..]) == items[..k] + items[k + 1..];
    }
  }

  // ----------------------------------------------------------- invariant

  /** Every operation keeps the cart well-formed. */
  lemma AddKeepsWellFormed(items: seq<CartItem>, product: Product)
    requires WellFormed(items)
    ensures WellFormed(AddItem(items, product))
  {
    if !HasProduct(items, product.id) {
      var r := items + [CartItem(product, 1)];
      forall i, j | 0 <= i < j < |r|
        ensures r[i].product.id != r[j].product.id
      {
        if j == |items| {
          assert r[i] == items[i];
        }
      }
    }
  }

  lemma DecrementKeepsWellFormed(items: seq<CartItem>, id: int)
    requires WellFormed(items)
    ensures WellFormed(Decrement(items, id))
  {
  }

  lemma {:induction false} RemoveKeepsWellFormed(items: seq<CartItem>, id: int)
    requires WellFormed(items)
    ensures WellFormed(Remove(items, id))
  {
    if items != [] {
      var rest := items[1..];
      assert WellFormed(rest) by {
        assert forall i :: 0 <= i < |rest| ==> rest[i] == items[i + 1];
      }
      RemoveKeepsWellFormed(rest, id);
      var tail := Remove(rest, id);
      if items[0].product.id != id {
        assert Remove(items, id) == [items[0]] + tail;
        forall j | 0 <= j < |tail|
          ensures tail[j].product.id != items[0].product.id
        {
          assert tail[j] in rest;
          var m :| 0 <= m < |rest| && rest[m] == tail[j];
          assert items[m + 1] == tail[j];
        }
        ConsKeepsWellFormed(items[0], tail);
      } else {
        assert Remove(items, id) == tail;
      }
    }
  }

  /** A line in use whose product is on no line of a well-formed cart may be put in front. */
  lemma ConsKeepsWellFormed(head: CartItem, tail: seq<CartItem>)
    requires WellFormed(tail) && head.quantity >= 1
    requires forall j :: 0 <= j < |tail| ==> tail[j].product.id != head.product.id
    ensures WellFormed([head] + tail)
  {
    var r := [head] + tail;
    forall i, j | 0 <= i < j < |r|
      ensures r[i].product.id != r[j].product.id
    {
      assert r[j] == tail[j - 1];
      if i > 0 {
        assert r[i] == tail[i - 1];
      }
    }
  }

  lemma ClearKeepsWellFormed()
    ensures WellFormed([])
  {
  }

  // --------------------------------------------------------------- totals

  lemma {:induction false} TotalAppend(a: seq<CartItem>, b: seq<CartItem>)
    ensures Total(a + b) == Total(a) + Total(b)
  {
    if a == [] {
      assert a + b == b;
    } else {
      assert (a + b)[0] == a[0] && (a + b)[1..] == a[1..] + b;
      TotalAppend(a[1..], b);
    }
  }

  /** Replacing one line changes the total by the difference of the two line totals. */
  lemma TotalUpdate(items: seq<CartItem>, k: nat, line: CartItem)
    requires k < |items|
    ensures Total(items[k := line]) == Total(items) - LineTotal(items[k]) + LineTotal(line)
  {
    var before, after := items[..k], items[k + 1..];
    assert items == before + [items[k]] + after;
    assert items[k := line] == before + [line] + after;
    TotalAppend(before + [items[k]], after);
    TotalAppend(before, [items[k]]);
    TotalAppend(before + [line], after);
    TotalAppend(before, [line]);
  }

  /** One unit more or less on a line moves its line total by one price. */
  lemma LineTotalStep(item: CartItem, delta: int)
    ensures LineTotal(item.(quantity := item.quantity + delta))
         == LineTotal(item) + delta * item.product.price
  {
    var p, q := item.product.price, item.quantity;
    assert p * (q + delta) == p * q + delta * p;
  }

  /** Adding one unit of a product already on line k raises the total by that
      line's price. */
  lemma AddPresentRaisesTotal(items: seq<CartItem>, product: Product, k: nat)
    requires WellFormed(items)
    requires k < |items| && items[k].product.id == product.id
    ensures Total(AddItem(items, product)) == Total(items) + items[k].product.price
  {
    var line := items[k].(quantity := items[k].quantity + 1);
    calc {
      Total(AddItem(items, product));
      { AddPresent(items, product, k); }
      Total(items[k := line]);
      { TotalUpdate(items, k, line); }
      Total(items) - LineTotal(items[k]) + LineTotal(line);
      { LineTotalStep(items[k], 1); }
      Total(items) + items[k].product.price;
    }
  }

  /** Adding a new product raises the total by its price. */
  lemma AddAbsentRaisesTotal(items: seq<CartItem>, product: Product)
    requires !HasProduct(items, product.id)
    ensures Total(AddItem(items, product)) == Total(items) + product.price
  {
    TotalAppend(items, [CartItem(product, 1)]);
    assert Total([CartItem(product, 1)]) == product.price;
  }

  /** Decrementing line k lowers the total by its price when the quantity was above 1. */
  lemma DecrementLowersTotal(items: seq<CartItem>, id: int, k: nat)
    requires WellFormed(items)
    requires k < |items| && items[k].product.id == id
    ensures Total(Decrement(items, id))
         == if items[k].quantity > 1 then Total(items) - items[k].product.price else Total(items)
  {
    DecrementEffect(items, id, k);
    if items[k].quantity > 1 {
      TotalUpdate(items, k, items[k].(quantity := items[k].quantity - 1));
      LineTotalStep(items[k], -1);
    }
  }

  /** Removing line k takes its whole line total off. */
  lemma RemoveLowersTotal(items: seq<CartItem>, id: int, k: nat)
    requires UniqueIds(items)
    requires k < |items| && items[k].product.id == id
    ensures Total(Remove(items, id)) == Total(items) - LineTotal(items[k])
  {
    RemovePresent(items, id, k);
    assert items == items[..k] + [items[k]] + items[k + 1..];
    TotalAppend(items[..k] + [items[k]], items[k + 1..]);
    TotalAppend(items[..k], [items[k]]);
    TotalAppend(items[..k], items[k + 1..]);
  }

  /** The amount charged: never below the subtotal, at most one fee above it,
      and exactly the subtotal from the minimum order value up. */
  lemma FinalTotalBounds(items: seq<CartItem>)
    ensures Total(items) <= FinalTotal(items) <= Total(items) + DeliveryFeeAmount
    ensures FinalTotal(items) == Total(items) <==> Total(items) >= MinOrderValue
  {
  }

  /** A well-formed cart holds at least one unit per line, so the badge count is
      at least the number of lines, and adding a product adds one unit. */
  lemma {:induction false} ItemCountAtLeastLines(items: seq<CartItem>)
    requires WellFormed(items)
    ensures ItemCount(items) >= |items|
  {
    if items != [] {
      assert WellFormed(items[1..]);
      ItemCountAtLeastLines(items[1..]);
    }
  }

  lemma {:induction false} ItemCountAppend(a: seq<CartItem>, b: seq<CartItem>)
    ensures ItemCount(a + b) == ItemCount(a) + ItemCount(b)
  {
    if a == [] {
      assert a + b == b;
    } else {
      assert (a + b)[0] == a[0] && (a + b)[1..] == a[1..] + b;
      ItemCountAppend(a[1..], b);
    }
  }

  lemma AddRaisesItemCount(items: seq<CartItem>, product: Product)
    requires WellFormed(items)
    ensures ItemCount(AddItem(items, product)) == ItemCount(items) + 1
  {
    if HasProduct(items, product.id) {
      var k :| 0 <= k < |items| && items[k].product.id == product.id;
      var line := items[k].(quantity := items[k].quantity + 1);
      calc {
        ItemCount(AddItem(items, product));
        { AddPresent(items, product, k); }
        ItemCount(items[k := line]);
        { ItemCountUpdate(items, k, line); }
        ItemCount(items) + 1;
      }
    } else {
      ItemCountAppend(items, [CartItem(product, 1)]);
    }
  }

  /** Replacing one line changes the badge count by the difference of the two quantities. */
  lemma ItemCountUpdate(items: seq<CartItem>, k: nat, line: CartItem)
    requires k < |items|
    ensures ItemCount(items[k := line]) == ItemCount(items) - items[k].quantity + line.quantity
  {
    var before, after := items[..k], items[k + 1..];
    assert items == before + [items[k]] + after;
    assert items[k := line] == before + [line] + after;
    ItemCountAppend(before + [items[k]], after);
    ItemCountAppend(before, [items[k]]);
    ItemCountAppend(before + [line], after);
    ItemCountAppend(before, [line]);
  }

  // ---------------------------------------------------------------- store

  /** The cart provider: the `items` state, replaced by each operation and
      mirrored to storage after every change (`stored`). */
  class CartStore {
    var items: seq<CartItem>
    ghost var stored: seq<CartItem>

    /** Starts from what storage held. */
    constructor(loaded: seq<CartItem>)
      ensures items == loaded && stored == loaded
    {
      items := loaded;
      stored := loaded;
    }

    function Subtotal(): (t: int)
      reads this
      ensures t == Total(items)
      ensures items == [] ==> t == 0
    {
      Total(items)
    }

    function Fee(): (fee: int)
      reads this
      ensures fee == DeliveryFee(Total(items))
      ensures fee == 0 <==> Total(items) >= MinOrderValue
      ensures fee != 0 ==> fee == DeliveryFeeAmount
    {
      DeliveryFee(Total(items))
    }

    function Charged(): (t: int)
      reads this
      ensures Total(items) <= t <= Total(items) + DeliveryFeeAmount
      ensures t == Total(items) <==> Total(items) >= MinOrderValue
      ensures t == Total(items) + Fee()
    {
      FinalTotal(items)
    }

    method AddToCart(product: Product)
      modifies this
      ensures items == AddItem(old(items), product) && stored == items
      ensures old(WellFormed(items)) ==> WellFormed(items)
    {
      ghost var before := items;
      if old(WellFormed(items)) {
        AddKeepsWellFormed(before, product);
      }
      items := AddItem(items, product);
      stored := items;
    }

    method DecrementQuantity(productId: int)
      modifies this
      ensures items == Decrement(old(items), productId) && stored == items
      ensures old(WellFormed(items)) ==> WellFormed(items)
    {
      if WellFormed(items) {
        DecrementKeepsWellFormed(items, productId);
      }
      items := Decrement(items, productId);
      stored := items;
    }

    method RemoveFromCart(productId: int)
      modifies this
      ensures items == Remove(old(items), productId) && stored == items
      ensures old(WellFormed(items)) ==> WellFormed(items)
    {
      if WellFormed(items) {
        RemoveKeepsWellFormed(items, productId);
      }
      items := Remove(items, productId);
      stored := items;
    }

    method ClearCart()
      modifies this
      ensures items == [] && stored == []
    {
      items := [];
      stored := items;
    }
  }
}
