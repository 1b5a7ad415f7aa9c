/** The checkout form's submit handler as a transition of the page's world:
    the form, the cart, the stored order log, the last alert and the route.
    The handler is modelled as the list of effects it performs, in order;
    running them over the page gives the page after submission. */
module Checkout {
  import opened Shop

  datatype CustomerInfo = CustomerInfo(name: string, email: string, address: string)

  /** An order as written to the log. `id` comes from the clock and `date`
      is the ISO timestamp; both are inputs here. */
  datatype Order = Order(id: int, customer: CustomerInfo, items: seq<CartItem>, total: real, date: string)

  /** What the page sees: the form, the cart store's lines, the value under
      the `orders` storage key (None when the key is absent), the last alert
      shown and the route the router was sent to. */
  datatype Page = Page(
    form: CustomerInfo,
    cartItems: seq<CartItem>,
    storedOrders: Option<seq<Order>>,
    alert: Option<string>,
    navigatedTo: Option<string>)

  /** One observable effect of the handler. */
  datatype Effect =
    | Alert(message: string)
    | WriteOrders(log: seq<Order>)
    | ClearCart
    | Navigate(path: string)

  const FillAllFields := "Please fill all fields"
  const CartIsEmpty := "Your cart is empty"
  const SuccessRoute := "/success"

  function Apply(p: Page, e: Effect): Page
  {
    match e
    case Alert(m) => p.(alert := Some(m))
    case WriteOrders(log) => p.(storedOrders := Some(log))
    case ClearCart => p.(cartItems := [])
    case Navigate(path) => p.(navigatedTo := Some(path))
  }

  /** The page after the effects, performed first to last. */
  function Run(p: Page, effects: seq<Effect>): Page
    decreases |effects|
  {
    if effects == [] then p else Run(Apply(p, effects[0]), effects[1..])
  }

  lemma RunOne(p: Page, e: Effect)
    ensures Run(p, [e]) == Apply(p, e)
  {
    assert [e][1..] == [];
  }

  lemma RunThree(p: Page, e0: Effect, e1: Effect, e2: Effect)
    ensures Run(p, [e0, e1, e2]) == Apply(Apply(Apply(p, e0), e1), e2)
  {
    assert [e0, e1, e2][1..] == [e1, e2];
    assert [e1, e2][1..] == [e2];
    RunOne(Apply(Apply(p, e0), e1), e2);
  }

  /** Every form field is non-empty (an empty string is falsy). */
  predicate Filled(form: CustomerInfo)
  {
    form.name != "" && form.email != "" && form.address != ""
  }

  /** The submission passes both checks. */
  predicate Accepts(p: Page)
  {
    Filled(p.form) && |p.cartItems| != 0
  }

  /** `JSON.parse(localStorage.getItem('orders') || '[]')`: an absent key
      reads as the empty log. */
  function ExistingOrders(stored: Option<seq<Order>>): seq<Order>
  {
    if stored.Some? then stored.value else []
  }

  /** The order a successful submission records. */
  function NewOrder(p: Page, getTotalPrice: seq<CartItem> -> real, now: int, isoDate: string): Order
  {
    Order(now, p.form, p.cartItems, getTotalPrice(p.cartItems), isoDate)
  }

  /** handleSubmit, as the effects it performs. `getTotalPrice` is the cart
      store's total, `now` is Date.now() and `isoDate` the ISO date string. */
  function HandleSubmit(p: Page, getTotalPrice: seq<CartItem> -> real, now: int, isoDate: string): (effects: seq<Effect>)
    ensures |effects| >= 1
    ensures !Filled(p.form) ==> effects == [Alert(FillAllFields)]
    ensures Filled(p.form) && p.cartItems == [] ==> effects == [Alert(CartIsEmpty)]
    ensures (exists i :: 0 <= i < |effects| && effects[i] == Navigate(SuccessRoute)) <==> Accepts(p)
    ensures (exists i :: 0 <= i < |effects| && effects[i] == ClearCart) <==> Accepts(p)
    ensures forall i, j :: 0 <= i < |effects| && 0 <= j < |effects| && effects[i].WriteOrders? && effects[j] == ClearCart ==> i < j
  {
    if !Filled(p.form) then
      [Alert(FillAllFields)]
    else if |p.cartItems| == 0 then
      [Alert(CartIsEmpty)]
    else
      var existingOrders := ExistingOrders(p.storedOrders);
      var updated := existingOrders + [NewOrder(p, getTotalPrice, now, isoDate)];
      var effects := [WriteOrders(updated), ClearCart, Navigate(SuccessRoute)];
      assert effects[1] == ClearCart && effects[2] == Navigate(SuccessRoute);
      effects
  }

  /** The page after submission. */
  function Submit(p: Page, getTotalPrice: seq<CartItem> -> real, now: int, isoDate: string): Page
  {
    Run(p, HandleSubmit(p, getTotalPrice, now, isoDate))
  }

  /** A missing field is reported first, even when the cart is empty too,
      and nothing but the alert changes: no order, no cleared cart, no
      navigation. */
  lemma MissingFieldRejected(p: Page, getTotalPrice: seq<CartItem> -> real, now: int, isoDate: string)
    requires !Filled(p.form)
    ensures Submit(p, getTotalPrice, now, isoDate) == p.(alert := Some(FillAllFields))
  {
    RunOne(p, Alert(FillAllFields));
  }

  /** With the form filled and the cart empty only the empty-cart alert
      appears. */
  lemma EmptyCartRejected(p: Page, getTotalPrice: seq<CartItem> -> real, now: int, isoDate: string)
    requires Filled(p.form) && p.cartItems == []
    ensures Submit(p, getTotalPrice, now, isoDate) == p.(alert := Some(CartIsEmpty))
  {
    RunOne(p, Alert(CartIsEmpty));
  }

  /** A successful submission appends exactly one order to the log (an
      absent key counting as the empty log), keeps the earlier entries in
      order, records the form, the cart lines and the total taken before
      the cart is cleared, then empties the cart and goes to /success. */
  lemma AcceptedOrderRecorded(p: Page, getTotalPrice: seq<CartItem> -> real, now: int, isoDate: string)
    requires Accepts(p)
    ensures var r := Submit(p, getTotalPrice, now, isoDate);
            var before := ExistingOrders(p.storedOrders);
            && r.storedOrders.Some?
            && |r.storedOrders.value| == |before| + 1
            && r.storedOrders.value[..|before|] == before
            && r.storedOrders.value[|before|] == Order(now, p.form, p.cartItems, getTotalPrice(p.cartItems), isoDate)
            && (p.storedOrders.None? ==> r.storedOrders == Some([NewOrder(p, getTotalPrice, now, isoDate)]))
            && r.cartItems == []
            && r.navigatedTo == Some(SuccessRoute)
            && r.form == p.form
            && r.alert == p.alert
  {
    var before := ExistingOrders(p.storedOrders);
    var o := NewOrder(p, getTotalPrice, now, isoDate);
    assert HandleSubmit(p, getTotalPrice, now, isoDate) == [WriteOrders(before + [o]), ClearCart, Navigate(SuccessRoute)];
    RunThree(p, WriteOrders(before + [o]), ClearCart, Navigate(SuccessRoute));
    assert (before + [o])[..|before|] == before;
  }

  /** The log only grows: whatever the outcome, the stored log afterwards
      starts with the log before. */
  lemma LogAppendOnly(p: Page, getTotalPrice: seq<CartItem> -> real, now: int, isoDate: string)
    ensures var r := Submit(p, getTotalPrice, now, isoDate);
            var before := ExistingOrders(p.storedOrders);
            var after := ExistingOrders(r.storedOrders);
            |before| <= |after| && after[..|before|] == before
  {
    if Accepts(p) {
      AcceptedOrderRecorded(p, getTotalPrice, now, isoDate);
    } else if !Filled(p.form) {
      MissingFieldRejected(p, getTotalPrice, now, isoDate);
    } else {
      EmptyCartRejected(p, getTotalPrice, now, isoDate);
    }
  }

  lemma {:induction false} RunAppend(p: Page, a: seq<Effect>, b: seq<Effect>)
    ensures Run(p, a + b) == Run(Run(p, a), b)
    decreases |a|
  {
    if a == [] {
      assert a + b == b;
    } else {
      assert (a + b)[0] == a[0];
      assert (a + b)[1..] == a[1..] + b;
      RunAppend(Apply(p, a[0]), a[1..], b);
    }
  }

  /** Write before clear: if the handler is interrupted after any number of
      its effects and the cart has been emptied by then, the new order is
      already in the stored log. An order is never lost together with the
      cart that produced it. */
  lemma {:induction false} CrashSafe(p: Page, getTotalPrice: seq<CartItem> -> real, now: int, isoDate: string, k: nat)
    requires p.cartItems != []
    requires k <= |HandleSubmit(p, getTotalPrice, now, isoDate)|
    ensures var mid := Run(p, HandleSubmit(p, getTotalPrice, now, isoDate)[..k]);
            mid.cartItems == [] ==>
              mid.storedOrders.Some? && NewOrder(p, getTotalPrice, now, isoDate) in mid.storedOrders.value
  {
    var effects := HandleSubmit(p, getTotalPrice, now, isoDate);
    if Accepts(p) {
      var o := NewOrder(p, getTotalPrice, now, isoDate);
      var log := ExistingOrders(p.storedOrders) + [o];
      assert effects == [WriteOrders(log), ClearCart, Navigate(SuccessRoute)];
      assert log[|log| - 1] == o;
      if k >= 1 {
        RunAppend(p, [effects[0]], effects[1..k]);
        assert effects[..k] == [effects[0]] + effects[1..k];
        var w := Apply(p, WriteOrders(log));
        assert Run(p, [effects[0]]) == w;
        assert forall e <- effects[1..k] :: e == ClearCart || e.Navigate?;
        OtherEffectsKeepLog(w, effects[1..k]);
      }
    } else {
      assert forall e <- effects[..k] :: e.Alert?;
      AlertsKeepCart(p, effects[..k]);
    }
  }

  lemma {:induction false} OtherEffectsKeepLog(p: Page, effects: seq<Effect>)
    requires forall e <- effects :: e == ClearCart || e.Navigate?
    ensures Run(p, effects).storedOrders == p.storedOrders
    decreases |effects|
  {
    if effects != [] {
      assert effects[0] in effects;
      OtherEffectsKeepLog(Apply(p, effects[0]), effects[1..]);
    }
  }

  lemma {:induction false} AlertsKeepCart(p: Page, effects: seq<Effect>)
    requires forall e <- effects :: e.Alert?
    ensures Run(p, effects).cartItems == p.cartItems
    decreases |effects|
  {
    if effects != [] {
      assert effects[0] in effects;
      AlertsKeepCart(Apply(p, effects[0]), effects[1..]);
    }
  }

  /** Submitting again after a success records nothing more: the cart is
      now empty, so the second submission only alerts. */
  lemma ResubmitRecordsNothing(p: Page, getTotalPrice: seq<CartItem> -> real, now: int, now2: int, isoDate: string, isoDate2: string)
    requires Accepts(p)
    ensures var r := Submit(p, getTotalPrice, now, isoDate);
            var r2 := Submit(r, getTotalPrice, now2, isoDate2);
            r2 == r.(alert := Some(CartIsEmpty))
  {
    AcceptedOrderRecorded(p, getTotalPrice, now, isoDate);
    var r := Submit(p, getTotalPrice, now, isoDate);
    EmptyCartRejected(r, getTotalPrice, now2, isoDate2);
  }
}
