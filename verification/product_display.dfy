/** The pure helpers of the product card grid: the add-to-cart payload, the
    star row, description truncation and the category badge colour. */
module ProductDisplay {
  import opened Shop

  // ---------------------------------------------------------------------
  // Add to cart
  // ---------------------------------------------------------------------

  /** The cart line a card's "Add to Cart" button hands to the cart store:
      the product spread out with the quantity fixed at one. */
  function AddToCartPayload(product: Product): (item: CartItem)
    ensures item.quantity == 1
    ensures ProductOf(item) == product
  {
    CartItem(product.id, product.title, product.price, product.description,
             product.category, product.image, product.rating, 1)
  }

  /** The payload depends on nothing but the product: two cards produce the
      same line exactly when they show the same product. */
  lemma AddToCartPayloadInjective(p: Product, q: Product)
    ensures AddToCartPayload(p) == AddToCartPayload(q) <==> p == q
  {
    if AddToCartPayload(p) == AddToCartPayload(q) {
      assert ProductOf(AddToCartPayload(p)) == ProductOf(AddToCartPayload(q));
    }
  }

  // ---------------------------------------------------------------------
  // Star row
  // ---------------------------------------------------------------------

  datatype Star = Full | Half | Empty

  /** Math.floor */
  function Floor(x: real): int
  {
    x.Floor
  }

  /** Math.ceil */
  function Ceil(x: real): int
  {
    -((-x).Floor)
  }

  /** Math.trunc: rounds toward zero. */
  function Trunc(x: real): int
  {
    if x >= 0.0 then x.Floor else -((-x).Floor)
  }

  /** JavaScript's `x % 1`: the remainder keeps the sign of x. */
  function JsRemainderOne(x: real): real
  {
    x - Trunc(x) as real
  }

  predicate IsWhole(x: real)
  {
    x.Floor as real == x
  }

  function Max0(n: int): nat
  {
    if n < 0 then 0 else n
  }

  function Repeat(s: Star, n: nat): (r: seq<Star>)
    ensures |r| == n
    ensures forall i :: 0 <= i < n ==> r[i] == s
  {
    if n == 0 then [] else Repeat(s, n - 1) + [s]
  }

  function CountOf(row: seq<Star>, s: Star): nat
  {
    if row == [] then 0
    else CountOf(row[..|row| - 1], s) + (if row[|row| - 1] == s then 1 else 0)
  }

  /** The row the card shows for a rating: the full stars, at most one half
      star, then the empty stars. A loop with a non-positive bound draws
      nothing, hence Max0. */
  function Stars(rating: real): seq<Star>
  {
    Repeat(Full, Max0(Floor(rating)))
      + (if IsWhole(rating) then [] else [Half])
      + Repeat(Empty, Max0(5 - Ceil(rating)))
  }

  /** The half-star test `rating % 1 !== 0` holds exactly for ratings that
      are not whole numbers, negative ones included. */
  lemma HalfStarTest(x: real)
    ensures JsRemainderOne(x) != 0.0 <==> !IsWhole(x)
  {
    if x < 0.0 {
      var y := -x;
      assert Trunc(x) == -(y.Floor);
      assert JsRemainderOne(x) == y.Floor as real - y;
      assert IsWhole(y) <==> IsWhole(x) by {
        if IsWhole(y) {
          assert x == (-(y.Floor)) as real;
        }
        if IsWhole(x) {
          assert y == (-(x.Floor)) as real;
        }
      }
    }
  }

  /** renderStars, with the component's three pushes as three loops. */
  method RenderStars(rating: real) returns (stars: seq<Star>)
    ensures stars == Stars(rating)
  {
    stars := [];
    var fullStars := Floor(rating);
    HalfStarTest(rating);
    var hasHalfStar := JsRemainderOne(rating) != 0.0;

    var i := 0;
    while i < fullStars
      invariant 0 <= i <= Max0(fullStars)
      invariant stars == Repeat(Full, i)
    {
      stars := stars + [Full];
      i := i + 1;
    }

    if hasHalfStar {
      stars := stars + [Half];
    }
    ghost var head := stars;

    var emptyStars := 5 - Ceil(rating);
    var j := 0;
    while j < emptyStars
      invariant 0 <= j <= Max0(emptyStars)
      invariant stars == head + Repeat(Empty, j)
    {
      stars := stars + [Empty];
      j := j + 1;
    }
  }

  lemma {:induction false} CountOfAppend(a: seq<Star>, b: seq<Star>, s: Star)
    ensures CountOf(a + b, s) == CountOf(a, s) + CountOf(b, s)
    decreases |b|
  {
    if b == [] {
      assert a + b == a;
    } else {
      var b' := b[..|b| - 1];
      assert (a + b)[..|a + b| - 1] == a + b';
      CountOfAppend(a, b', s);
    }
  }

  lemma {:induction false} CountOfRepeat(t: Star, n: nat, s: Star)
    ensures CountOf(Repeat(t, n), s) == (if t == s then n else 0)
  {
    if n > 0 {
      assert Repeat(t, n)[..n - 1] == Repeat(t, n - 1);
      CountOfRepeat(t, n - 1, s);
    }
  }

  /** The counts the component draws: floor(rating) full stars, one half
      star exactly when the rating is fractional, max(0, 5 - ceil(rating))
      empty stars. */
  lemma StarCounts(rating: real)
    ensures CountOf(Stars(rating), Full) == Max0(Floor(rating))
    ensures CountOf(Stars(rating), Half) == (if IsWhole(rating) then 0 else 1)
    ensures CountOf(Stars(rating), Empty) == Max0(5 - Ceil(rating))
  {
    var a := Repeat(Full, Max0(Floor(rating)));
    var h: seq<Star> := if IsWhole(rating) then [] else [Half];
    var e := Repeat(Empty, Max0(5 - Ceil(rating)));
    forall s: Star
      ensures CountOf(Stars(rating), s) == CountOf(a, s) + CountOf(h, s) + CountOf(e, s)
    {
      CountOfAppend(a + h, e, s);
      CountOfAppend(a, h, s);
    }
    CountOfRepeat(Full, Max0(Floor(rating)), Full);
    CountOfRepeat(Full, Max0(Floor(rating)), Half);
    CountOfRepeat(Full, Max0(Floor(rating)), Empty);
    CountOfRepeat(Empty, Max0(5 - Ceil(rating)), Full);
    CountOfRepeat(Empty, Max0(5 - Ceil(rating)), Half);
    CountOfRepeat(Empty, Max0(5 - Ceil(rating)), Empty);
    assert CountOf([Half], Half) == 1 by { assert [Half][..0] == []; }
    assert CountOf([Half], Full) == 0 by { assert [Half][..0] == []; }
    assert CountOf([Half], Empty) == 0 by { assert [Half][..0] == []; }
  }

  /** The ceiling is one above the floor exactly for fractional values. */
  lemma CeilFloor(x: real)
    ensures Ceil(x) == Floor(x) + (if IsWhole(x) then 0 else 1)
  {
  }

  /** A rating on the API's 0..5 scale always draws exactly five stars. */
  lemma FiveStarsInRange(rating: real)
    requires 0.0 <= rating <= 5.0
    ensures |Stars(rating)| == 5
  {
    CeilFloor(rating);
  }

  // ---------------------------------------------------------------------
  // Description truncation
  // ---------------------------------------------------------------------

  /** "..." as three full stops, U+002E. */
  const Ellipsis: Utf16 := [0x2E, 0x2E, 0x2E]

  /** truncateText: a text (a product description, in `Utf16` code units;
      a cut may split a surrogate pair) longer than maxLength code units is cut to its
      first maxLength units (String.prototype.substring clamps a negative
      end to 0) and given an ellipsis. */
  function Truncate(text: Utf16, maxLength: int): (r: Utf16)
    ensures |text| <= maxLength ==> r == text
    ensures |text| > maxLength ==> r == text[..Max0(maxLength)] + Ellipsis && |r| == Max0(maxLength) + 3
  {
    if |text| > maxLength then text[..Max0(maxLength)] + Ellipsis else text
  }

  /** The description line of a card: the product's description cut at 80
      code units. */
  function CardDescription(product: Product): (r: Utf16)
    ensures |product.description| <= 80 ==> r == product.description
    ensures |product.description| > 80 ==> r == product.description[..80] + Ellipsis
    ensures |r| <= 83
  {
    Truncate(product.description, 80)
  }

  /** What the card can show: the result is never longer than
      max(maxLength, 0) + 3, and it always begins with the text's first
      min(|text|, maxLength) code units. */
  lemma TruncateBounds(text: Utf16, maxLength: int)
    ensures |Truncate(text, maxLength)| <= Max0(maxLength) + 3
    ensures var k := if |text| <= maxLength then |text| else Max0(maxLength);
            Truncate(text, maxLength)[..k] == text[..k]
  {
  }

  /** Truncating an already truncated text changes nothing. */
  lemma TruncateIdempotent(text: Utf16, maxLength: int)
    ensures Truncate(Truncate(text, maxLength), maxLength) == Truncate(text, maxLength)
  {
    var r := Truncate(text, maxLength);
    if |text| > maxLength {
      var n := Max0(maxLength);
      assert |r| == n + 3;
      assert r[..n] == text[..n];
    }
  }

  // ---------------------------------------------------------------------
  // Category badge colour
  // ---------------------------------------------------------------------

  const DefaultColor := "bg-gray-100 text-gray-800 border-gray-200"

  const CategoryColors: map<string, string> := map[
    "men's clothing" := "bg-blue-100 text-blue-800 border-blue-200",
    "women's clothing" := "bg-pink-100 text-pink-800 border-pink-200",
    "jewelery" := "bg-purple-100 text-purple-800 border-purple-200",
    "electronics" := "bg-green-100 text-green-800 border-green-200"
  ]

  /** getCategoryColor: the fixed colour of a known category, gray for
      every other category. */
  function CategoryColor(category: string): (color: string)
    ensures category == "men's clothing" ==> color == "bg-blue-100 text-blue-800 border-blue-200"
    ensures category == "women's clothing" ==> color == "bg-pink-100 text-pink-800 border-pink-200"
    ensures category == "jewelery" ==> color == "bg-purple-100 text-purple-800 border-purple-200"
    ensures category == "electronics" ==> color == "bg-green-100 text-green-800 border-green-200"
    ensures category !in {"men's clothing", "women's clothing", "jewelery", "electronics"} ==> color == DefaultColor
  {
    if category in CategoryColors && CategoryColors[category] != "" then CategoryColors[category]
    else DefaultColor
  }

  /** The gray default appears exactly for unknown categories, and the four
      known categories get four different colours. */
  lemma CategoryColorDistinct(c: string, d: string)
    ensures CategoryColor(c) == DefaultColor <==> c !in CategoryColors
    ensures c in CategoryColors && d in CategoryColors && c != d ==> CategoryColor(c) != CategoryColor(d)
  {
  }
}
