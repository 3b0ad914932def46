/** The customer storefront's listing transforms (user/app.js): the
    listing URL built from category and sort, the `limit` slice, one card
    per product, the five-per-slide carousel of new arrivals, the image a
    card shows, the detail page's slides and controls, and the category
    filter bar. */
module Storefront {
  import opened Js
  import opened Text

  const ProductsApi := "http://localhost:3000/api/products"
  const UploadsBase := "http://localhost:3000/uploads/"
  const CardPlaceholder := "https://placehold.co/400x300"
  const CategoryPlaceholder := "https://placehold.co/100x100"

  // ---------------------------------------------------------------------
  // The listing URL

  /** `categoryId && categoryId !== 'all'`. */
  predicate CategoryChosen(categoryId: Option<string>)
  {
    TruthyText(categoryId) && categoryId.value != "all"
  }

  /** The URLSearchParams loadProducts fills, in append order. */
  function ListingParams(categoryId: Option<string>, sort: Option<string>): (ps: seq<(string, string)>)
    ensures CategoryChosen(categoryId) && TruthyText(sort) ==>
              ps == [("category_id", categoryId.value), ("sort", sort.value)]
    ensures CategoryChosen(categoryId) && !TruthyText(sort) ==> ps == [("category_id", categoryId.value)]
    ensures !CategoryChosen(categoryId) && TruthyText(sort) ==> ps == [("sort", sort.value)]
    ensures !CategoryChosen(categoryId) && !TruthyText(sort) ==> ps == []
  {
    (if CategoryChosen(categoryId) then [("category_id", categoryId.value)] else []) +
    (if TruthyText(sort) then [("sort", sort.value)] else [])
  }

  /** The bytes application/x-www-form-urlencoded keeps as they are. */
  predicate IsUnreservedByte(b: int)
  {
    b == 0x2A || b == 0x2D || b == 0x2E || b == 0x5F ||
    (0x30 <= b <= 0x39) || (0x41 <= b <= 0x5A) || (0x61 <= b <= 0x7A)
  }

  /** The UTF-8 encoding of one Unicode scalar value. */
  function Utf8(c: char): (bytes: seq<int>)
    ensures 1 <= |bytes| <= 4
    ensures forall i :: 0 <= i < |bytes| ==> 0 <= bytes[i] < 256
    ensures (c as int) < 0x80 <==> bytes == [c as int]
    ensures |bytes| > 1 ==> forall i :: 0 <= i < |bytes| ==> bytes[i] >= 0x80
  {
    var cp := c as int;
    if cp < 0x80 then [cp]
    else if cp < 0x800 then [0xC0 + cp / 64, 0x80 + cp % 64]
    else if cp < 0x10000 then [0xE0 + cp / 4096, 0x80 + (cp / 64) % 64, 0x80 + cp % 64]
    else [0xF0 + cp / 262144, 0x80 + (cp / 4096) % 64, 0x80 + (cp / 64) % 64, 0x80 + cp % 64]
  }

  function HexDigit(n: int): (d: char)
    requires 0 <= n < 16
    ensures ('0' <= d <= '9') || ('A' <= d <= 'F')
  {
    if n < 10 then (('0' as int) + n) as char else (('A' as int) + n - 10) as char
  }

  /** One byte as the urlencoded serializer writes it: space as `+`, an
      unreserved byte as its character, anything else as `%XX`. */
  function EncodeByte(b: int): (r: string)
    requires 0 <= b < 256
    ensures '&' !in r && '=' !in r && '?' !in r && '#' !in r
    ensures |r| >= 1
  {
    if b == 0x20 then "+"
    else if IsUnreservedByte(b) then [b as char]
    else ['%', HexDigit(b / 16), HexDigit(b % 16)]
  }

  function EncodeBytes(bytes: seq<int>): (r: string)
    requires forall i :: 0 <= i < |bytes| ==> 0 <= bytes[i] < 256
    ensures '&' !in r && '=' !in r && '?' !in r && '#' !in r
    ensures bytes != [] ==> r != ""
  {
    if bytes == [] then "" else EncodeByte(bytes[0]) + EncodeBytes(bytes[1..])
  }

  /** The application/x-www-form-urlencoded serializer URLSearchParams uses
      for one name or value. What it writes never holds the characters that
      delimit a URL's query. */
  function FormUrlEncode(s: string): (r: string)
    ensures '&' !in r && '=' !in r && '?' !in r && '#' !in r
    ensures s == "" <==> r == ""
  {
    if s == "" then "" else EncodeChar(s[0]) + FormUrlEncode(s[1..])
  }

  /** One character: the encodings of its UTF-8 bytes. An unreserved
      character is a single byte written as itself. */
  function EncodeChar(c: char): (r: string)
    ensures '&' !in r && '=' !in r && '?' !in r && '#' !in r
    ensures r != ""
    ensures IsUnreservedByte(c as int) ==> r == [c]
  {
    if IsUnreservedByte(c as int) then [c] else EncodeBytes(Utf8(c))
  }

  /** Characters that pass through the serializer unchanged. */
  predicate IsPlain(s: string)
  {
    forall i :: 0 <= i < |s| ==> IsUnreservedByte(s[i] as int)
  }

  lemma {:induction false} PlainEncodesToItself(s: string)
    requires IsPlain(s)
    ensures FormUrlEncode(s) == s
  {
    if s != "" {
      PlainEncodesToItself(s[1..]);
      assert s == [s[0]] + s[1..];
    }
  }

  /** `params.toString()`: `name=value` pairs joined with `&`. */
  function SerializeParams(ps: seq<(string, string)>): (r: string)
    ensures ps == [] <==> r == ""
  {
    if ps == [] then ""
    else
      var first := FormUrlEncode(ps[0].0) + "=" + FormUrlEncode(ps[0].1);
      assert first[|FormUrlEncode(ps[0].0)|] == '=';
      if |ps| == 1 then first else first + "&" + SerializeParams(ps[1..])
  }

  lemma {:induction false} SerializeHasNoQuestionMark(ps: seq<(string, string)>)
    ensures '?' !in SerializeParams(ps)
  {
    if ps != [] {
      SerializeHasNoQuestionMark(ps[1..]);
    }
  }

  /** The URL loadProducts fetches. */
  function ListingUrl(categoryId: Option<string>, sort: Option<string>): (url: string)
    ensures |ProductsApi| <= |url| && url[..|ProductsApi|] == ProductsApi
    ensures ListingParams(categoryId, sort) == [] ==> url == ProductsApi
  {
    var query := SerializeParams(ListingParams(categoryId, sort));
    if query != "" then
      PrefixOfAppend(ProductsApi, "?", query);
      ProductsApi + "?" + query
    else ProductsApi
  }

  lemma PrefixOfAppend(a: string, b: string, c: string)
    ensures |a| <= |a + b + c| && (a + b + c)[..|a|] == a
  {
    assert forall i :: 0 <= i < |a| ==> (a + b + c)[i] == a[i];
  }

  lemma ApiHasNoQuestionMark()
    ensures '?' !in ProductsApi
  {
    assert forall i :: 0 <= i < |ProductsApi| ==> ProductsApi[i] != '?';
  }

  /** The URL gets a `?` exactly when some parameter is present, and all of
      the query follows that one `?`. */
  lemma ListingUrlHasQueryIffParams(categoryId: Option<string>, sort: Option<string>)
    ensures var ps := ListingParams(categoryId, sort);
            && ('?' in ListingUrl(categoryId, sort) <==> ps != [])
            && (ps == [] ==> ListingUrl(categoryId, sort) == ProductsApi)
            && (ps != [] ==> ListingUrl(categoryId, sort) == ProductsApi + "?" + SerializeParams(ps))
  {
    var ps := ListingParams(categoryId, sort);
    var query := SerializeParams(ps);
    ApiHasNoQuestionMark();
    if ps != [] {
      var url := ProductsApi + "?" + query;
      assert url[|ProductsApi|] == '?';
    }
  }

  lemma UrlOfQuery(categoryId: Option<string>, sort: Option<string>, q: string)
    requires SerializeParams(ListingParams(categoryId, sort)) == q && q != ""
    ensures ListingUrl(categoryId, sort) == ProductsApi + "?" + q
  {
  }

  /** One pair of plain texts serializes as `name=value`. */
  lemma PairText(k: string, v: string)
    requires IsPlain(k) && IsPlain(v)
    ensures SerializeParams([(k, v)]) == k + "=" + v
  {
    PlainEncodesToItself(k);
    PlainEncodesToItself(v);
  }

  /** Two pairs of plain texts serialize as `name=value&name=value`. */
  lemma TwoPairsText(k1: string, v1: string, k2: string, v2: string)
    requires IsPlain(k1) && IsPlain(v1) && IsPlain(k2) && IsPlain(v2)
    ensures SerializeParams([(k1, v1), (k2, v2)]) == k1 + "=" + v1 + "&" + (k2 + "=" + v2)
  {
    var both := [(k1, v1), (k2, v2)];
    assert both[1..] == [(k2, v2)];
    PairText(k2, v2);
    PlainEncodesToItself(k1);
    PlainEncodesToItself(v1);
  }

  lemma KeysArePlain()
    ensures IsPlain("category_id") && IsPlain("sort")
  {
  }

  /** With plain ids and sort options the URL reads literally, category
      first: for instance `...?category_id=3&sort=price_asc`. */
  lemma ListingUrlLiteral(categoryId: string, sort: string)
    requires categoryId != "" && categoryId != "all" && sort != ""
    requires IsPlain(categoryId) && IsPlain(sort)
    ensures ListingUrl(Some(categoryId), Some(sort)) ==
            ProductsApi + "?" + ("category_id" + "=" + categoryId + "&" + ("sort" + "=" + sort))
    ensures ListingUrl(Some(categoryId), None) == ProductsApi + "?" + ("category_id" + "=" + categoryId)
    ensures ListingUrl(None, Some(sort)) == ProductsApi + "?" + ("sort" + "=" + sort)
  {
    KeysArePlain();
    TwoPairsText("category_id", categoryId, "sort", sort);
    UrlOfQuery(Some(categoryId), Some(sort), "category_id" + "=" + categoryId + "&" + ("sort" + "=" + sort));
    PairText("category_id", categoryId);
    UrlOfQuery(Some(categoryId), None, "category_id" + "=" + categoryId);
    PairText("sort", sort);
    UrlOfQuery(None, Some(sort), "sort" + "=" + sort);
  }

  // ---------------------------------------------------------------------
  // Listing cards

  /** A product of the API envelope, as far as the storefront reads it. */
  datatype ProductView = ProductView(id: int, name: string, image: Option<string>)

  /** `limit ? data.data.slice(0, limit) : data.data`. */
  function ApplyLimit(products: seq<ProductView>, limit: Option<int>): (shown: seq<ProductView>)
    ensures |shown| <= |products| && shown == products[..|shown|]
  {
    if limit.Some? && limit.value != 0 then Slice(products, 0, limit.value) else products
  }

  /** A positive limit keeps the first min(limit, n) products in order; no
      limit (or 0) keeps them all; a negative one drops that many from the
      end, as `slice` does. */
  lemma LimitKeepsPrefix(products: seq<ProductView>, limit: Option<int>)
    ensures limit.None? || limit.value == 0 ==> ApplyLimit(products, limit) == products
    ensures limit.Some? && limit.value > 0 ==>
      ApplyLimit(products, limit) == products[..if limit.value < |products| then limit.value else |products|]
    ensures limit.Some? && limit.value < 0 ==>
      ApplyLimit(products, limit) == products[..if |products| + limit.value > 0 then |products| + limit.value else 0]
  {
  }

  /** The image a card shows: the first comma-separated name, trimmed, or
      the placeholder when the image field is null or empty. */
  function CardImage(image: Option<string>): (url: string)
    ensures !TruthyText(image) ==> url == CardPlaceholder
    ensures TruthyText(image) ==> url == UploadsBase + Trim(Split(image.value, ',')[0])
    ensures TruthyText(image) && ',' !in image.value ==> url == UploadsBase + Trim(image.value)
  {
    if !TruthyText(image) then CardPlaceholder
    else
      var first := Split(image.value, ',')[0];
      assert ',' !in image.value ==> first == image.value by {
        if ',' !in image.value {
          SplitJoin([image.value], ',');
        }
      }
      UploadsBase + Trim(first)
  }

  /** What a product card shows: its detail link target, its name and its
      image (the price, printed with toFixed(2), is not modelled). */
  datatype Card = Card(productId: int, name: string, imageUrl: string)

  function CardOf(p: ProductView): Card
  {
    Card(p.id, p.name, CardImage(p.image))
  }

  function CardsOf(products: seq<ProductView>): (cards: seq<Card>)
    ensures |cards| == |products|
    ensures forall i :: 0 <= i < |products| ==> cards[i] == CardOf(products[i])
  {
    seq(|products|, i requires 0 <= i < |products| => CardOf(products[i]))
  }

  /** The `products.forEach` of the plain listing: one card per product,
      in order. */
  method ListingCards(products: seq<ProductView>) returns (cards: seq<Card>)
    ensures cards == CardsOf(products)
  {
    cards := [];
    for i := 0 to |products|
      invariant |cards| == i
      invariant forall k :: 0 <= k < i ==> cards[k] == CardOf(products[k])
    {
      cards := cards + [CardOf(products[i])];
    }
  }

  // ---------------------------------------------------------------------
  // The new-arrivals carousel

  const SlideSize: nat := 5

  /** Consecutive groups of five, the last one possibly shorter. */
  function Chunks<T>(s: seq<T>): seq<seq<T>>
    decreases |s|
  {
    if s == [] then []
    else if |s| <= SlideSize then [s]
    else [s[..SlideSize]] + Chunks(s[SlideSize..])
  }

  function Flatten<T>(groups: seq<seq<T>>): seq<T>
  {
    if groups == [] then [] else groups[0] + Flatten(groups[1..])
  }

  function Min(a: int, b: int): int
  {
    if a <= b then a else b
  }

  /** There are ceil(n/5) groups, group k being s[5k .. min(5k+5, n)]. */
  lemma {:induction false} ChunkAt<T>(s: seq<T>)
    ensures |Chunks(s)| == (|s| + 4) / 5
    ensures forall k :: 0 <= k < |Chunks(s)| ==>
              5 * k < |s| && Chunks(s)[k] == s[5 * k .. Min(5 * k + 5, |s|)]
    decreases |s|
  {
    if |s| > SlideSize {
      var rest := s[SlideSize..];
      ChunkAt(rest);
      forall k | 1 <= k < |Chunks(s)|
        ensures 5 * k < |s| && Chunks(s)[k] == s[5 * k .. Min(5 * k + 5, |s|)]
      {
        assert Chunks(s)[k] == Chunks(rest)[k - 1];
        assert rest[5 * (k - 1) .. Min(5 * (k - 1) + 5, |rest|)] == s[5 * k .. Min(5 * k + 5, |s|)];
      }
    }
  }

  /** Every group but the last holds five items, the last from one to five. */
  lemma ChunkSizes<T>(s: seq<T>)
    ensures forall k :: 0 <= k < |Chunks(s)| - 1 ==> |Chunks(s)[k]| == SlideSize
    ensures s != [] ==> 1 <= |Chunks(s)[|Chunks(s)| - 1]| <= SlideSize
  {
    ChunkAt(s);
    forall k | 0 <= k < |Chunks(s)| - 1
      ensures |Chunks(s)[k]| == SlideSize
    {
      assert 5 * k + 5 <= |s|;
    }
  }

  /** The groups, concatenated, give back the input. */
  lemma {:induction false} FlattenChunks<T>(s: seq<T>)
    ensures Flatten(Chunks(s)) == s
    decreases |s|
  {
    if |s| > SlideSize {
      FlattenChunks(s[SlideSize..]);
      assert s == s[..SlideSize] + s[SlideSize..];
    } else if s != [] {
      assert Flatten([s]) == s + [];
    }
  }

  /** One carousel slide: its cards and whether it is the active one. */
  datatype CarouselItem = CarouselItem(active: bool, cards: seq<Card>)

  /** The slides the new-arrivals carousel shows. */
  function CarouselOf(products: seq<ProductView>): (items: seq<CarouselItem>)
    ensures |items| == |Chunks(products)|
  {
    var groups := Chunks(products);
    seq(|groups|, k requires 0 <= k < |groups| => CarouselItem(k == 0, CardsOf(groups[k])))
  }

  /** Only the first slide is active, there are ceil(n/5) slides of five
      cards (the last one from one to five), and read slide after slide the
      cards are the products' cards in order. */
  lemma CarouselShape(products: seq<ProductView>)
    ensures var items := CarouselOf(products);
            && |items| == (|products| + 4) / 5
            && (forall k :: 0 <= k < |items| ==> (items[k].active <==> k == 0))
            && (forall k :: 0 <= k < |items| - 1 ==> |items[k].cards| == SlideSize)
            && (items != [] ==> 1 <= |items[|items| - 1].cards| <= SlideSize)
            && FlattenCards(items) == CardsOf(products)
  {
    ChunkAt(products);
    ChunkSizes(products);
    FlattenChunks(products);
    CarouselCards(Chunks(products), 0);
  }

  function FlattenCards(items: seq<CarouselItem>): seq<Card>
  {
    if items == [] then [] else items[0].cards + FlattenCards(items[1..])
  }

  lemma CardsOfAppend(a: seq<ProductView>, b: seq<ProductView>)
    ensures CardsOf(a + b) == CardsOf(a) + CardsOf(b)
  {
  }

  /** Flattening slides built from groups gives the cards of the flattened
      groups (stated from slide `from` on, to carry the induction). */
  lemma {:induction false} CarouselCards(groups: seq<seq<ProductView>>, from: nat)
    requires from <= |groups|
    ensures var items := seq(|groups|, k requires 0 <= k < |groups| => CarouselItem(k == 0, CardsOf(groups[k])));
            FlattenCards(items[from..]) == CardsOf(Flatten(groups[from..]))
    decreases |groups| - from
  {
    var items := seq(|groups|, k requires 0 <= k < |groups| => CarouselItem(k == 0, CardsOf(groups[k])));
    if from < |groups| {
      CarouselCards(groups, from + 1);
      assert items[from..][1..] == items[from + 1..];
      assert groups[from..][1..] == groups[from + 1..];
      CardsOfAppend(groups[from], Flatten(groups[from + 1..]));
    } else {
      assert items[from..] == [];
      assert groups[from..] == [];
    }
  }

  /** Slide `k` as the loops build it: the cards of products 5k to
      min(5k+5, n), active when k is 0. */
  function SlideAt(products: seq<ProductView>, k: nat): CarouselItem
    requires 5 * k <= |products|
  {
    CarouselItem(k == 0, CardsOf(products[5 * k .. Min(5 * k + 5, |products|)]))
  }

  lemma CarouselFromSlides(products: seq<ProductView>, items: seq<CarouselItem>)
    requires |items| == (|products| + 4) / 5
    requires forall k :: 0 <= k < |items| ==> 5 * k <= |products| && items[k] == SlideAt(products, k)
    ensures items == CarouselOf(products)
  {
    ChunkAt(products);
    var groups := Chunks(products);
    forall k | 0 <= k < |items|
      ensures items[k] == CarouselOf(products)[k]
    {
      assert groups[k] == products[5 * k .. Min(5 * k + 5, |products|)];
    }
  }

  /** The nested loops of the carousel branch: slides start every five
      products, each takes up to five, and only the one at index 0 is
      active. */
  method CarouselItems(products: seq<ProductView>) returns (items: seq<CarouselItem>)
    ensures items == CarouselOf(products)
  {
    var n := |products|;
    items := [];
    var i := 0;
    while i < n
      invariant i == 5 * |items| && i < n + 5
      invariant forall k :: 0 <= k < |items| ==> 5 * k <= n && items[k] == SlideAt(products, k)
    {
      var row: seq<Card> := [];
      var j := i;
      while j < i + 5 && j < n
        invariant i <= j <= n && j <= i + 5
        invariant row == CardsOf(products[i..j])
      {
        assert products[i..j + 1] == products[i..j] + [products[j]];
        row := row + [CardOf(products[j])];
        j := j + 1;
      }
      assert j == Min(i + 5, n);
      assert CarouselItem(i == 0, row) == SlideAt(products, |items|);
      items := items + [CarouselItem(i == 0, row)];
      i := i + 5;
    }
    CarouselFromSlides(products, items);
  }

  // ---------------------------------------------------------------------
  // The product detail page

  /** One slide of the detail carousel: its image, whether it is active, and
      the number in its alt text ("Image 1", "Image 2", ...). */
  datatype Slide = Slide(imageUrl: string, active: bool, number: nat)

  /** What loadProductDetail renders: "Product not found." when the reply
      has no product; nothing (the TypeError of `null.split`) when the
      product's image is null; otherwise the slides and whether the
      prev/next controls are shown. */
  datatype DetailView =
    | NotFound
    | Failed
    | Detail(slides: seq<Slide>, controls: bool)

  /** `product.image.split(',').map(...)`: one slide per segment, the first
      one active. */
  function DetailSlides(image: string): (slides: seq<Slide>)
    ensures |slides| == |Split(image, ',')| && |slides| >= 1
    ensures slides[0].active
    ensures forall i :: 0 <= i < |slides| ==>
              slides[i].imageUrl == UploadsBase + Trim(Split(image, ',')[i]) &&
              slides[i].number == i + 1 &&
              (slides[i].active <==> i == 0)
  {
    var parts := Split(image, ',');
    seq(|parts|, i requires 0 <= i < |parts| => Slide(UploadsBase + Trim(parts[i]), i == 0, i + 1))
  }

  function DetailOf(product: Option<ProductView>): (v: DetailView)
    ensures product.None? <==> v.NotFound?
    ensures v.Failed? <==> product.Some? && product.value.image.None?
    ensures v.Detail? ==> v.slides == DetailSlides(product.value.image.value)
    ensures v.Detail? ==> (v.controls <==> |v.slides| > 1)
  {
    if product.None? then NotFound
    else if product.value.image.None? then Failed
    else
      var slides := DetailSlides(product.value.image.value);
      Detail(slides, |Split(product.value.image.value, ',')| > 1)
  }

  /** A product without images (its image field is the empty join) shows a
      single slide whose source is the uploads directory itself, and no
      controls. */
  lemma DetailOfImagelessProduct(id: int, name: string)
    ensures DetailOf(Some(ProductView(id, name, Some("")))) == Detail([Slide(UploadsBase, true, 1)], false)
  {
    assert Split("", ',') == [""];
    assert TrimStart("") == "";
    assert UploadsBase + "" == UploadsBase;
  }

  // ---------------------------------------------------------------------
  // The category filter bar and the category cards

  /** A category of the API envelope. */
  datatype CategoryView = CategoryView(id: nat, name: string, image: Option<string>)

  /** The `data-category-id` a filter button carries. */
  datatype FilterKey = AllProducts | CategoryKey(id: nat)

  datatype FilterButton = FilterButton(key: FilterKey, caption: string, active: bool)

  /** loadCategories' filter bar: "All Products", active, then one inactive
      button per category, in order. */
  method FilterButtons(categories: seq<CategoryView>) returns (buttons: seq<FilterButton>)
    ensures |buttons| == |categories| + 1
    ensures buttons[0] == FilterButton(AllProducts, "All Products", true)
    ensures forall i :: 0 <= i < |categories| ==>
              buttons[i + 1] == FilterButton(CategoryKey(categories[i].id), categories[i].name, false)
    ensures forall i :: 0 <= i < |buttons| ==> (buttons[i].active <==> i == 0)
  {
    buttons := [FilterButton(AllProducts, "All Products", true)];
    for i := 0 to |categories|
      invariant |buttons| == i + 1
      invariant buttons[0] == FilterButton(AllProducts, "All Products", true)
      invariant forall k :: 0 <= k < i ==>
                  buttons[k + 1] == FilterButton(CategoryKey(categories[k].id), categories[k].name, false)
      invariant forall k :: 0 <= k < |buttons| ==> (buttons[k].active <==> k == 0)
    {
      buttons := buttons + [FilterButton(CategoryKey(categories[i].id), categories[i].name, false)];
    }
  }

  /** `${n}` for a non-negative integer. */
  function DecimalText(n: nat): (s: string)
    ensures s != "" && IsPlain(s)
    ensures forall i :: 0 <= i < |s| ==> '0' <= s[i] <= '9'
  {
    var d := [(('0' as int) + n % 10) as char];
    if n < 10 then d else DecimalText(n / 10) + d
  }

  /** The attribute text a button's key is written as. */
  function KeyText(key: FilterKey): string
  {
    match key
    case AllProducts => "all"
    case CategoryKey(id) => DecimalText(id)
  }

  /** The URL a button click loads: the "all" button loads the unfiltered
      listing, a category button that category's. */
  function FilterClickUrl(key: FilterKey): (url: string)
    ensures key.AllProducts? ==> url == ProductsApi
    ensures key.CategoryKey? ==> url == ListingUrl(Some(DecimalText(key.id)), None)
  {
    if KeyText(key) == "all" then ListingUrl(None, None) else ListingUrl(Some(KeyText(key)), None)
  }

  /** The URL a sort menu entry loads: the active button's key and the
      entry's sort option. */
  function SortClickUrl(activeKey: FilterKey, sort: Option<string>): (url: string)
    ensures activeKey.AllProducts? ==> url == ListingUrl(None, sort)
    ensures activeKey.CategoryKey? ==> url == ListingUrl(Some(DecimalText(activeKey.id)), sort)
  {
    ListingUrl(Some(KeyText(activeKey)), sort)
  }

  /** Sorting while "All Products" is active fetches no category filter,
      and sorting keeps the active category's filter in front of the sort. */
  lemma SortKeepsActiveFilter(id: nat, sort: string)
    requires sort != "" && IsPlain(sort)
    ensures SortClickUrl(AllProducts, Some(sort)) == ProductsApi + "?" + ("sort" + "=" + sort)
    ensures SortClickUrl(CategoryKey(id), Some(sort)) ==
            ProductsApi + "?" + ("category_id" + "=" + DecimalText(id) + "&" + ("sort" + "=" + sort))
    ensures FilterClickUrl(CategoryKey(id)) == ProductsApi + "?" + ("category_id" + "=" + DecimalText(id))
    ensures FilterClickUrl(AllProducts) == ProductsApi
  {
    var t := DecimalText(id);
    assert t != "all" by {
      assert '0' <= t[0] <= '9';
    }
    ListingUrlLiteral(t, sort);
  }

  /** A category card of the home page: the link's category, the image and
      the name. */
  datatype CategoryCard = CategoryCard(linkId: nat, imageUrl: string, name: string)

  function CategoryCardOf(c: CategoryView): CategoryCard
  {
    CategoryCard(c.id, if TruthyText(c.image) then UploadsBase + c.image.value else CategoryPlaceholder, c.name)
  }

  /** The `data.data.forEach` filling the category section: one card per
      category, in order. */
  method CategoryCards(categories: seq<CategoryView>) returns (cards: seq<CategoryCard>)
    ensures |cards| == |categories|
    ensures forall i :: 0 <= i < |categories| ==> cards[i] == CategoryCardOf(categories[i])
  {
    cards := [];
    for i := 0 to |categories|
      invariant |cards| == i
      invariant forall k :: 0 <= k < i ==> cards[k] == CategoryCardOf(categories[k])
    {
      cards := cards + [CategoryCardOf(categories[i])];
    }
  }
}
