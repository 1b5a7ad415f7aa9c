# Storefront page logic, modelled in Dafny

This project models the decision logic in the pages of a small Next.js
storefront (mini-ecommerce). Almost all of the code is rendering. What is left is:

- the checkout form's submit handler, which validates the customer form and
  the cart, appends one order to the `orders` log in browser storage, clears
  the cart and navigates to `/success`;
- the product card helpers: the add-to-cart payload, the star row drawn for a
  rating, description truncation, and the category badge colour;
- the header's cart badge, which sums item quantities;
- the admin dashboard, with its `adminLoggedIn` gate and the product count,
  order count and revenue it computes from two untyped API payloads;
- the admin login handler, which checks fixed credentials.

Each page is a module with immutable datatypes and pure functions:

| file | module | page |
|---|---|---|
| shop.dfy | `Shop` | shared `Option`, `Product` and `CartItem` types |
| product_display.dfy | `ProductDisplay` | components/ProductDisplay.tsx |
| header.dfy | `Header` | components/Header.tsx |
| checkout.dfy | `Checkout` | app/checkout/page.tsx |
| admin_dashboard.dfy | `AdminDashboard` | app/admin/dashboard/page.tsx |
| admin_login.dfy | `AdminLogin` | app/admin/login/page.tsx |

Browser I/O is explicit data:

- Storage keys are `Option` fields of a page record, with `None` meaning the key is absent.
- Alerts and router pushes are fields of the record as well.
- Fetched payloads are `Option<Json>` inputs, with `None` meaning the request or its parse threw.
- The clock is two inputs: `now` stands for `Date.now()` and `isoDate` for the ISO date string.
- The checkout handler is modelled as the list of effects it performs, in order (alert, write the log, clear the cart, navigate). Running that list over the page gives the page after submission. This makes "the log is written before the cart is cleared" a statement about every prefix of the list.

The cart store lives in context/cart-context, which is not part of this model.
The model gives it only the two things the shown pages use:

- the cart is a `seq<CartItem>`, and `clearCart` makes it empty;
- `getTotalPrice` is a function parameter about which nothing is assumed.

## Behaviour worth noting

The storefront is meant to keep a cart with one line per product, record
orders robustly and show whatever the admin APIs return. The pages do less
than that, and the model follows the code:

- Merge-on-add, decrease-to-removal and the total as the sum of price times quantity would belong to the cart store. None of that is in the modelled files, so none of it is asserted. The recorded total is whatever `getTotalPrice` returns for the cart at submission.
- A corrupt stored log does not fall back to an empty log. The code calls `JSON.parse` with no recovery, so a corrupt log throws. Only an absent key (or the empty string, via `|| '[]'`) reads as the empty log.
- The admin gate is not a boolean flag. It redirects whenever the stored value is falsy: an absent key or the empty string. Any non-empty string passes, not just `"true"`.
- The dashboard does not always show what the APIs return. A `null` entry in the order list makes `order.total` throw after both counts are already set. The two counts change and the revenue keeps its earlier value (`AdminDashboard.NullOrderKeepsRevenue`).

## Model

| member | source | states |
|---|---|---|
| ProductDisplay.AddToCartPayload | components/ProductDisplay.tsx:62-64 | the line handed to the cart store carries every field of the product and quantity 1 |
| ProductDisplay.AddToCartPayloadInjective | components/ProductDisplay.tsx:62-64 | two cards produce the same cart line exactly when they show the same product |
| ProductDisplay.HalfStarTest | components/ProductDisplay.tsx:69 | JavaScript's `rating % 1 !== 0` (a remainder that keeps the sign) holds exactly for ratings that are not whole numbers, negative ones included |
| ProductDisplay.RenderStars | components/ProductDisplay.tsx:66-91 | the three push loops produce floor(rating) full stars if that is positive, then one half star iff the rating is fractional, then 5 - ceil(rating) empty stars if that is positive, in that order |
| ProductDisplay.StarCounts | components/ProductDisplay.tsx:68-88 | the row holds max(0, floor r) full stars, one half star iff r is not whole and none otherwise, and max(0, 5 - ceil r) empty stars |
| ProductDisplay.FiveStarsInRange | components/ProductDisplay.tsx:68-88 | for a rating between 0 and 5 the row has exactly five stars |
| ProductDisplay.Truncate | components/ProductDisplay.tsx:93-95 | with the text measured in UTF-16 code units as `length` and `substring` measure it, a text no longer than the limit is returned unchanged; a longer one becomes its first max(limit, 0) code units followed by "...", max(limit, 0) + 3 units in all (a cut may split a surrogate pair) |
| ProductDisplay.CardDescription | components/ProductDisplay.tsx:238 | a card shows a description of at most 80 code units unchanged, and a longer one as its first 80 units followed by "..."; at most 83 units in all |
| ProductDisplay.TruncateBounds | components/ProductDisplay.tsx:93-95 | the result is at most max(limit, 0) + 3 long and begins with the text's first min(length, limit) code units |
| ProductDisplay.TruncateIdempotent | components/ProductDisplay.tsx:93-95 | truncating a truncated text again changes nothing |
| ProductDisplay.CategoryColor | components/ProductDisplay.tsx:97-105 | each of the four categories gets its fixed class string and any other category gets the gray default |
| ProductDisplay.CategoryColorDistinct | components/ProductDisplay.tsx:97-105 | the gray default is returned exactly for unknown categories, and the four known categories get four different colours |
| Header.FoldIsSum | components/Header.tsx:11 | the reduce from any starting total equals that total plus the sum of the quantities |
| Header.CartCountIsSum | components/Header.tsx:11 | the header count equals the sum of the item quantities, and it is 0 for an empty cart |
| Header.CartCountAppend | components/Header.tsx:11 | appending a line adds exactly its quantity to the count |
| Header.Badge | components/Header.tsx:37-41 | the badge is shown iff the summed quantity is positive, and then it displays that sum |
| Header.BadgeShownIffCartNonEmpty | components/Header.tsx:37-41 | when every line has quantity at least 1, the badge is shown exactly for a non-empty cart |
| Checkout.HandleSubmit | app/checkout/page.tsx:22-56 | a missing field yields only the fill-fields alert; a filled form with an empty cart yields only the empty-cart alert; navigation to /success and the cart clear happen iff both checks pass; every log write precedes the cart clear |
| Checkout.MissingFieldRejected | app/checkout/page.tsx:24-27 | with any field empty (even with an empty cart too) the page afterwards differs only by the "Please fill all fields" alert: log, cart and route untouched |
| Checkout.EmptyCartRejected | app/checkout/page.tsx:28-31 | with the form filled and the cart empty the page differs only by the "Your cart is empty" alert |
| Checkout.AcceptedOrderRecorded | app/checkout/page.tsx:33-55 | on success the log grows by one, earlier entries keep their order, and the last entry holds the clock id, the form, the cart lines, the total taken before clearing, and the date; an absent key gives a one-order log; the cart is empty and the route is /success |
| Checkout.LogAppendOnly | app/checkout/page.tsx:42-49 | whatever the outcome, the stored log afterwards begins with the log before |
| Checkout.CrashSafe | app/checkout/page.tsx:48-52 | after any prefix of the handler's effects, if the cart has been emptied then the new order is already in the stored log |
| Checkout.ResubmitRecordsNothing | app/checkout/page.tsx:22-56 | submitting again after a success changes nothing but the alert, which becomes the empty-cart message: log, cart, form and route stay as the first submission left them |
| AdminDashboard.Gate | app/admin/dashboard/page.tsx:20-25 | the dashboard redirects to /admin/login iff `adminLoggedIn` is absent or empty; any non-empty value passes |
| AdminDashboard.ReduceMeaning | app/admin/dashboard/page.tsx:43-45 | the revenue reduce throws iff some order is null; otherwise it is numeric exactly when every total is numeric, and then it is the start plus the sum of the totals |
| AdminDashboard.RevenueIsSumOfTotals | app/admin/dashboard/page.tsx:42-45 | a payload whose `data` is not an array gives revenue 0; for an array, the computation throws iff an order is null, and with numeric totals it is their sum, missing or falsy totals counting 0 |
| AdminDashboard.FetchData | app/admin/dashboard/page.tsx:28-51 | a failed fetch changes none of the three figures; otherwise both counts are the `data` array lengths (0 when `data` is not an array), and the revenue is set unless its computation threw |
| AdminDashboard.FetchFromInitial | app/admin/dashboard/page.tsx:16-51 | starting from zeros, a failed fetch leaves all three at 0, a non-array order payload gives revenue 0, and a well-formed one gives its order count and the sum of its totals |
| AdminDashboard.NullOrderKeepsRevenue | app/admin/dashboard/page.tsx:36-49 | a null order sets both counts but leaves the revenue as it was |
| AdminLogin.HandleSubmit | app/admin/login/page.tsx:13-27 | the error is empty iff email and password match exactly; a rejection changes only the error, to "Invalid email or password"; an acceptance navigates to /admin/dashboard and, with a window present, stores `adminLoggedIn = "true"` |
| AdminLogin.ErrorResetOnSubmit | app/admin/login/page.tsx:15-26 | after any submission the error is either empty or exactly the invalid-credentials message; no earlier error survives |
| AdminLogin.NoNormalisation | app/admin/login/page.tsx:18 | the handler's comparison does no trimming or case folding: a value delivered to the handler with any non-empty text before or after either credential (spaces included) is rejected, and so is any other e-mail of the same length (a different letter case among them) |
| AdminLogin.LoginOpensDashboard | app/admin/login/page.tsx:18-23 | a successful login in the browser makes the dashboard gate let the admin through; a rejected one leaves the gate's decision unchanged |

## Left out

- The cart store (`addToCart`, `removeFromCart`, `increaseQuantity`, `decreaseQuantity`, `getTotalPrice`, `clearCart`) lives in context/cart-context, which is not part of this model. Its total is a parameter, and clearing it means the cart becomes empty.
- Real I/O is left out: `fetch`, `response.json()`, `localStorage`, `router.push` and `alert` appear only as inputs and record fields. The dashboard's `console.error` call is dropped.
- The order id and date come from `Date.now()` and `new Date()`, and they are inputs here. The source comments the id as unique, but nothing makes it so, and no uniqueness is claimed.
- A corrupt `orders` value makes `JSON.parse` throw, and a value that parses to something other than an array (`null`, `{}`, `0`) makes `existingOrders.push` throw. The source recovers from neither. The model stores parsed order logs, so neither case can be expressed.
- The browser's constraint validation and value sanitisation run before both form handlers and are not modelled. This covers `required` on every checkout field, and `type="email"` on the checkout and login e-mail inputs, which strips surrounding whitespace. The page records hold field values as `onChange` delivers them. So `Checkout.MissingFieldRejected` describes the handler when a submission with an empty field reaches it, which a browser normally prevents. Likewise `AdminLogin.NoNormalisation` is about the handler's comparison, not about what the user typed.
- Prices, totals and ratings are IEEE doubles in the source and exact reals here. NaN, infinities, rounding and `toFixed` formatting are not modelled.
- The category lookup is a finite map. Inherited prototype keys of a JavaScript object (such as `constructor`) are not modelled.
- In the revenue reduce, a total that is a non-empty string, an array or an object makes JavaScript's `+` concatenate. The model records that outcome as `Revenue.Text` and does not model the string itself.
- The dashboard runs its gate and `fetchData` as independent effects on mount. Rendering what they produce is not modelled.
- These are pure view or navigation logic and are left out:
  - the checkout form's `handleChange`;
  - the card's `handleViewProduct` and `fetchProducts` loading/error state;
  - hover state, and all JSX and styling;
  - the sign-in, sign-up, footer, success, home, cart, product-detail and admin list pages.
