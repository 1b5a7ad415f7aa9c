/** The header's cart badge: the item count and when it is shown. */
module Header {
  import opened Shop

  /** `cartItems.reduce((total, item) => total + item.quantity, 0)`
      from the given starting total: a left fold. */
  function FoldQuantity(total: int, items: seq<CartItem>): int
    decreases |items|
  {
    if items == [] then total else FoldQuantity(total + items[0].quantity, items[1..])
  }

  function CartCount(items: seq<CartItem>): int
  {
    FoldQuantity(0, items)
  }

  /** Reference definition: the sum of the quantities, first line first. */
  function SumQuantities(items: seq<CartItem>): int
  {
    if items == [] then 0 else items[0].quantity + SumQuantities(items[1..])
  }

  lemma {:induction false} FoldIsSum(total: int, items: seq<CartItem>)
    ensures FoldQuantity(total, items) == total + SumQuantities(items)
    decreases |items|
  {
    if items != [] {
      FoldIsSum(total + items[0].quantity, items[1..]);
    }
  }

  /** The header count is the sum of the quantities; an empty cart counts 0. */
  lemma CartCountIsSum(items: seq<CartItem>)
    ensures CartCount(items) == SumQuantities(items)
    ensures items == [] ==> CartCount(items) == 0
  {
    FoldIsSum(0, items);
  }

  lemma {:induction false} SumAppend(items: seq<CartItem>, x: CartItem)
    ensures SumQuantities(items + [x]) == SumQuantities(items) + x.quantity
  {
    if items == [] {
      assert items + [x] == [x];
    } else {
      assert (items + [x])[1..] == items[1..] + [x];
      SumAppend(items[1..], x);
    }
  }

  /** The fold step: one more line adds its quantity to the count. */
  lemma CartCountAppend(items: seq<CartItem>, x: CartItem)
    ensures CartCount(items + [x]) == CartCount(items) + x.quantity
  {
    CartCountIsSum(items);
    CartCountIsSum(items + [x]);
    SumAppend(items, x);
  }

  /** The badge: present exactly when the summed quantity is positive, and
      then showing that sum. */
  function Badge(items: seq<CartItem>): (shown: Option<int>)
    ensures shown.Some? <==> SumQuantities(items) > 0
    ensures shown.Some? ==> shown.value == SumQuantities(items)
  {
    var cartCount := CartCount(items);
    CartCountIsSum(items);
    if cartCount > 0 then Some(cartCount) else None
  }

  lemma {:induction false} PositiveSum(items: seq<CartItem>)
    requires forall i :: 0 <= i < |items| ==> items[i].quantity >= 1
    ensures SumQuantities(items) >= |items|
  {
    if items != [] {
      PositiveSum(items[1..]);
    }
  }

  /** Assuming every line has quantity one or more (nothing in this model
      establishes that; it is up to the cart store), the badge is shown exactly for a non-empty cart. */
  lemma BadgeShownIffCartNonEmpty(items: seq<CartItem>)
    requires forall i :: 0 <= i < |items| ==> items[i].quantity >= 1
    ensures Badge(items).Some? <==> items != []
  {
    PositiveSum(items);
  }
}
