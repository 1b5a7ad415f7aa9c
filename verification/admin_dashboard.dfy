/** The admin dashboard: the login gate and the three summary figures
    computed from the untyped product and order API payloads. */
module AdminDashboard {
  import opened Shop

  // ---------------------------------------------------------------------
  // Login gate
  // ---------------------------------------------------------------------

  const LoginRoute := "/admin/login"

  /** The gate effect: the value stored under `adminLoggedIn` (None when the
      key is absent) decides whether the router is sent to the login page.
      The empty string is falsy, so it redirects too. */
  function Gate(adminLoggedIn: Option<string>): (redirect: Option<string>)
    ensures redirect.Some? <==> (adminLoggedIn.None? || adminLoggedIn.value == "")
    ensures redirect.Some? ==> redirect.value == LoginRoute
  {
    var loggedIn := if adminLoggedIn.Some? then adminLoggedIn.value else "";
    if loggedIn == "" then Some(LoginRoute) else None
  }

  // ---------------------------------------------------------------------
  // Payloads
  // ---------------------------------------------------------------------

  /** A parsed JSON value. Numbers are exact reals. */
  datatype Json =
    | Null
    | Bool(b: bool)
    | Num(n: real)
    | Str(s: string)
    | Arr(elems: seq<Json>)
    | Obj(fields: map<string, Json>)

  /** `value?.key` on a parsed payload: None stands for `undefined`. Only an
      object has own properties; on null, `?.` yields undefined. */
  function Member(value: Json, key: string): Option<Json>
  {
    if value.Obj? && key in value.fields then Some(value.fields[key]) else None
  }

  /** `Array.isArray(payload?.data) ? payload.data.length : 0` */
  function DataLength(payload: Json): nat
  {
    match Member(payload, "data")
    case Some(Arr(elems)) => |elems|
    case _ => 0
  }

  // ---------------------------------------------------------------------
  // Revenue
  // ---------------------------------------------------------------------

  /** The running value of the revenue reduction. JavaScript's `+` stays
      numeric for numbers and booleans and turns into string concatenation
      for a string, array or object operand; Text is that string. */
  datatype Revenue = Amount(value: real) | Text

  /** The number `order.total || 0` adds to a numeric sum, for an order that
      is not null. Falsy totals (absent, null, false, 0, "") add 0, true adds
      1, a number adds itself; None when the operand is a non-empty string,
      an array or an object, which makes `+` concatenate. */
  function TotalOf(order: Json): Option<real>
  {
    match Member(order, "total")
    case None => Some(0.0)
    case Some(Null) => Some(0.0)
    case Some(Bool(b)) => Some(if b then 1.0 else 0.0)
    case Some(Num(n)) => Some(n)
    case Some(Str(s)) => if s == "" then Some(0.0) else None
    case Some(Arr(_)) => None
    case Some(Obj(_)) => None
  }

  /** `sum + (order.total || 0)`; None when reading `.total` of null throws. */
  function Step(sum: Revenue, order: Json): Option<Revenue>
  {
    if order.Null? then None
    else if sum.Text? then Some(Text)
    else match TotalOf(order)
      case Some(x) => Some(Amount(sum.value + x))
      case None => Some(Text)
  }

  /** `orders.reduce(step, sum)`: a left fold that stops at the first throw. */
  function Reduce(sum: Revenue, orders: seq<Json>): Option<Revenue>
    decreases |orders|
  {
    if orders == [] then Some(sum)
    else match Step(sum, orders[0])
      case None => None
      case Some(next) => Reduce(next, orders[1..])
  }

  /** The revenue computed from the order payload; None when it throws. */
  function RevenueOf(orderData: Json): Option<Revenue>
  {
    match Member(orderData, "data")
    case Some(Arr(orders)) => Reduce(Amount(0.0), orders)
    case _ => Some(Amount(0.0))
  }

  predicate HasNullOrder(orders: seq<Json>)
  {
    exists i :: 0 <= i < |orders| && orders[i].Null?
  }

  predicate AllNumeric(orders: seq<Json>)
  {
    forall i :: 0 <= i < |orders| ==> TotalOf(orders[i]).Some?
  }

  /** Reference definition of the revenue: the sum of the order totals, a
      missing or falsy total counting 0. */
  function SumTotals(orders: seq<Json>): real
  {
    if orders == [] then 0.0
    else (if TotalOf(orders[0]).Some? then TotalOf(orders[0]).value else 0.0) + SumTotals(orders[1..])
  }

  /** What the reduction yields from a running value: a null order makes it
      throw, wherever it sits; otherwise the result is numeric exactly when
      the start is numeric and every total is, and then it is the start plus
      the sum of the totals. */
  lemma {:induction false} ReduceMeaning(sum: Revenue, orders: seq<Json>)
    ensures Reduce(sum, orders) ==
      if HasNullOrder(orders) then None
      else if sum.Text? || !AllNumeric(orders) then Some(Text)
      else Some(Amount(sum.value + SumTotals(orders)))
    decreases |orders|
  {
    if orders != [] {
      var rest := orders[1..];
      assert HasNullOrder(orders) <==> orders[0].Null? || HasNullOrder(rest) by {
        if HasNullOrder(rest) {
          var i :| 0 <= i < |rest| && rest[i].Null?;
          assert orders[i + 1].Null?;
        }
        if HasNullOrder(orders) && !orders[0].Null? {
          var i :| 0 <= i < |orders| && orders[i].Null?;
          assert rest[i - 1].Null?;
        }
      }
      assert AllNumeric(orders) <==> TotalOf(orders[0]).Some? && AllNumeric(rest) by {
        if TotalOf(orders[0]).Some? && AllNumeric(rest) {
          forall i | 0 <= i < |orders|
            ensures TotalOf(orders[i]).Some?
          {
            if i > 0 {
              assert orders[i] == rest[i - 1];
            }
          }
        }
        if AllNumeric(orders) {
          forall i | 0 <= i < |rest|
            ensures TotalOf(rest[i]).Some?
          {
            assert rest[i] == orders[i + 1];
          }
        }
      }
      if !orders[0].Null? {
        ReduceMeaning(Step(sum, orders[0]).value, rest);
      }
    }
  }

  /** Revenue as the dashboard promises it: zero for a payload whose `data`
      is not an array; the sum of the totals when every order is a non-null
      value with a numeric total; a throw exactly when some order is null. */
  lemma RevenueIsSumOfTotals(orderData: Json)
    ensures (match Member(orderData, "data") case Some(Arr(_)) => false case _ => true)
              ==> RevenueOf(orderData) == Some(Amount(0.0))
    ensures Member(orderData, "data").Some? && Member(orderData, "data").value.Arr? ==>
              var orders := Member(orderData, "data").value.elems;
              && (RevenueOf(orderData).None? <==> HasNullOrder(orders))
              && (!HasNullOrder(orders) && AllNumeric(orders) ==>
                    RevenueOf(orderData) == Some(Amount(SumTotals(orders))))
  {
    if Member(orderData, "data").Some? && Member(orderData, "data").value.Arr? {
      ReduceMeaning(Amount(0.0), Member(orderData, "data").value.elems);
    }
  }

  // ---------------------------------------------------------------------
  // fetchData
  // ---------------------------------------------------------------------

  /** The dashboard's three figures. */
  datatype Dashboard = Dashboard(productsCount: nat, ordersCount: nat, totalRevenue: Revenue)

  const Initial := Dashboard(0, 0, Amount(0.0))

  /** fetchData. `prodData` and `orderData` are the parsed responses, None
      when the request or its parse threw. A throw skips every setter that
      has not run yet: a failed fetch sets nothing, and a throw inside the
      revenue reduction comes after both counts were set. */
  function FetchData(d: Dashboard, prodData: Option<Json>, orderData: Option<Json>): (r: Dashboard)
    ensures prodData.None? || orderData.None? ==> r == d
    ensures prodData.Some? && orderData.Some? ==>
              && r.productsCount == DataLength(prodData.value)
              && r.ordersCount == DataLength(orderData.value)
              && r.totalRevenue == (if RevenueOf(orderData.value).Some? then RevenueOf(orderData.value).value else d.totalRevenue)
  {
    if prodData.None? || orderData.None? then d
    else
      var d1 := d.(productsCount := DataLength(prodData.value));
      var d2 := d1.(ordersCount := DataLength(orderData.value));
      match RevenueOf(orderData.value)
      case None => d2
      case Some(revenue) => d2.(totalRevenue := revenue)
  }

  /** From the initial figures: if either fetch fails all three stay 0; an
      order payload whose `data` is not an array gives zero orders and zero
      revenue; a well-formed one gives its length and the sum of its
      totals. */
  lemma FetchFromInitial(prodData: Option<Json>, orderData: Option<Json>)
    ensures prodData.None? || orderData.None? ==> FetchData(Initial, prodData, orderData) == Initial
    ensures prodData.Some? && orderData.Some? && DataLength(orderData.value) == 0 ==>
              FetchData(Initial, prodData, orderData).totalRevenue == Amount(0.0)
    ensures prodData.Some? && orderData.Some? && Member(orderData.value, "data").Some? && Member(orderData.value, "data").value.Arr? ==>
              var orders := Member(orderData.value, "data").value.elems;
              !HasNullOrder(orders) && AllNumeric(orders) ==>
                && FetchData(Initial, prodData, orderData).ordersCount == |orders|
                && FetchData(Initial, prodData, orderData).totalRevenue == Amount(SumTotals(orders))
  {
    if orderData.Some? {
      RevenueIsSumOfTotals(orderData.value);
      if Member(orderData.value, "data").Some? && Member(orderData.value, "data").value.Arr? {
        var orders := Member(orderData.value, "data").value.elems;
        if |orders| == 0 {
          assert !HasNullOrder(orders);
          assert AllNumeric(orders);
        }
      }
    }
  }

  /** A null entry in the order list makes reading its `total` throw after
      both counts were set: the counts change, the revenue keeps its old
      value. */
  lemma NullOrderKeepsRevenue(d: Dashboard, prod: Json, order: Json)
    requires Member(order, "data").Some? && Member(order, "data").value.Arr?
    requires HasNullOrder(Member(order, "data").value.elems)
    ensures FetchData(d, Some(prod), Some(order)) ==
              d.(productsCount := DataLength(prod), ordersCount := |Member(order, "data").value.elems|)
  {
    RevenueIsSumOfTotals(order);
  }
}
