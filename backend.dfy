/** The Flask backend's product-listing query builder and pagination
    arithmetic, the image-list encoding of product uploads, and the
    image-preserving update rules for products and categories
    (backend/app.py). The sqlite tables are maps held by a `Database`
    object; a query is represented by its SQL text and parameter list. */
module Backend {
  import opened Js
  import opened Text

  /** The price column is a REAL; prices are opaque integers here. */
  type Price = int

  /** A row of the `products` table (the id is the key of the map). */
  datatype Product = Product(
    name: string,
    description: Option<string>,
    price: Price,
    image: Option<string>,
    category: Option<string>)

  /** A row of the `categories` table. */
  datatype Category = Category(name: string, image: Option<string>)

  // ---------------------------------------------------------------------
  // GET /api/products

  const DefaultPage: int := 1
  const DefaultPerPage: int := 10

  const ProductsQuery := "SELECT * FROM products"
  const CountQuery := "SELECT COUNT(*) FROM products"
  const CategoryClause := " WHERE category = ?"
  const PageClause := " LIMIT ? OFFSET ?"

  /** The query-string arguments of a listing request. `page` and `perPage`
      hold what `request.args.get(..., type=int)` converted, and are None
      when the argument is absent or not an integer. */
  datatype ListingArgs = ListingArgs(
    categoryId: Option<string>,
    sort: Option<string>,
    page: Option<int>,
    perPage: Option<int>)

  function PageArg(args: ListingArgs): (page: int)
    ensures args.page.None? ==> page == DefaultPage
    ensures args.page.Some? ==> page == args.page.value
  {
    if args.page.Some? then args.page.value else DefaultPage
  }

  function PerPageArg(args: ListingArgs): (perPage: int)
    ensures args.perPage.None? ==> perPage == DefaultPerPage
    ensures args.perPage.Some? ==> perPage == args.perPage.value
  {
    if args.perPage.Some? then args.perPage.value else DefaultPerPage
  }

  /** A category filter is asked for: the id is a non-empty string other
      than 'all'. */
  predicate FiltersByCategory(args: ListingArgs)
  {
    TruthyText(args.categoryId) && args.categoryId.value != "all"
  }

  const SortOptions: set<string> := {"price_asc", "price_desc", "newest"}

  /** The ORDER BY clause a sort option adds to the data query. */
  function OrderClause(sort: Option<string>): (clause: string)
    ensures sort == Some("price_asc") ==> clause == " ORDER BY price ASC"
    ensures sort == Some("price_desc") ==> clause == " ORDER BY price DESC"
    ensures sort == Some("newest") ==> clause == " ORDER BY id DESC"
    ensures clause == "" <==> !(sort.Some? && sort.value in SortOptions)
  {
    if sort == Some("price_asc") then " ORDER BY price ASC"
    else if sort == Some("price_desc") then " ORDER BY price DESC"
    else if sort == Some("newest") then " ORDER BY id DESC"
    else ""
  }

  /** Python's `//` on integers: the floor of the quotient, for either sign of
      the divisor (Dafny's `/` is Euclidean and differs for b < 0). */
  function FloorDiv(a: int, b: int): (q: int)
    requires b != 0
    ensures b > 0 ==> q * b <= a < q * b + b
    ensures b < 0 ==> q * b + b < a <= q * b
  {
    if b > 0 then a / b else (-a) / (-b)
  }

  /** `total_pages = (total_products + per_page - 1) // per_page`. */
  function PageCount(total: int, perPage: int): (pages: int)
    requires perPage != 0
    ensures perPage > 0 ==> (pages - 1) * perPage < total <= pages * perPage
  {
    FloorDiv(total + perPage - 1, perPage)
  }

  /** For a positive page size the page count is the ceiling of total over
      page size: enough pages for every product, and no page left empty. */
  lemma PageCountIsCeiling(total: nat, perPage: int)
    requires perPage > 0
    ensures var pages := PageCount(total, perPage);
            && pages >= 0
            && pages * perPage >= total
            && (pages - 1) * perPage < total
            && (total == 0 <==> pages == 0)
  {
    var pages := PageCount(total, perPage);
    assert pages * perPage <= total + perPage - 1 < pages * perPage + perPage;
    assert (pages - 1) * perPage == pages * perPage - perPage;
  }

  lemma MulMonotone(a: int, b: int, c: int)
    requires a <= b && c > 0
    ensures a * c <= b * c
  {
    assert b * c - a * c == (b - a) * c;
  }

  /** `(page - 1) * per_page`, the OFFSET of the data query. */
  function Offset(page: int, perPage: int): (offset: int)
    ensures perPage > 0 ==> (offset >= 0 <==> page >= 1)
  {
    (page - 1) * perPage
  }

  /** Pages 1 to total_pages start inside the matching rows; any later page
      starts past them and so comes back empty. */
  lemma OffsetWithinPages(total: nat, perPage: int, page: int)
    requires perPage > 0
    ensures 1 <= page <= PageCount(total, perPage) ==> 0 <= Offset(page, perPage) < total
    ensures page > PageCount(total, perPage) ==> Offset(page, perPage) >= total
  {
    PageCountIsCeiling(total, perPage);
    var pages := PageCount(total, perPage);
    if 1 <= page <= pages {
      MulMonotone(0, page - 1, perPage);
      MulMonotone(page - 1, pages - 1, perPage);
    }
    if page > pages {
      MulMonotone(pages, page - 1, perPage);
    }
  }

  datatype SqlParam = TextParam(text: string) | IntParam(n: int)

  /** The two statements get_products runs: the count query with the
      parameters bound at that point, then the data query. */
  datatype QueryPlan = QueryPlan(
    countQuery: string,
    countParams: seq<SqlParam>,
    query: string,
    params: seq<SqlParam>)

  /** The outcomes of GET /api/products. `NoSuchCategory` is the early
      reply `{"data": [], "total_pages": 0, "current_page": page}`;
      `PerPageZero` is the ZeroDivisionError (an HTTP 500) a `per_page` of 0
      raises. */
  datatype ListingResponse =
    | NoSuchCategory(currentPage: int)
    | Listing(plan: QueryPlan, totalPages: int, currentPage: int)
    | PerPageZero

  /** The INTEGER id sqlite matches against a text argument: here, exactly
      the non-empty strings of ASCII digits. */
  function CategoryIdValue(text: string): (r: Option<nat>)
    ensures r.Some? <==> text != "" && forall i :: 0 <= i < |text| ==> '0' <= text[i] <= '9'
  {
    if text != "" && forall i :: 0 <= i < |text| ==> '0' <= text[i] <= '9'
    then Some(DecimalValue(text))
    else None
  }

  function DecimalValue(text: string): nat
    requires forall i :: 0 <= i < |text| ==> '0' <= text[i] <= '9'
  {
    if text == "" then 0
    else DecimalValue(text[..|text| - 1]) * 10 + (text[|text| - 1] as int - '0' as int)
  }

  // ---------------------------------------------------------------------
  // Uploaded images

  /** A part of a multipart upload together with the uuid4 text the server
      draws for it. */
  datatype Upload = Upload(file: File, uuid: string)

  /** posixpath.rfind: the last index of `c` in `s`, or -1. */
  function LastIndexOf(s: string, c: char): (k: int)
    ensures -1 <= k < |s|
    ensures k >= 0 ==> s[k] == c
    ensures forall i :: k < i < |s| ==> s[i] != c
  {
    if s == [] then -1
    else if s[|s| - 1] == c then |s| - 1
    else LastIndexOf(s[..|s| - 1], c)
  }

  /** `os.path.splitext(name)[1]` on POSIX: from the last dot of the last
      path component, unless everything before that dot in the component is
      dots; otherwise empty. */
  function Extension(name: string): (ext: string)
    ensures ext == "" || (ext[0] == '.' && '/' !in ext)
    ensures |ext| <= |name| && ext == name[|name| - |ext|..]
  {
    var sepIndex := LastIndexOf(name, '/');
    var dotIndex := LastIndexOf(name, '.');
    if dotIndex > sepIndex && exists k :: sepIndex + 1 <= k < dotIndex && name[k] != '.'
    then name[dotIndex..]
    else ""
  }

  /** The name an uploaded file is stored under: its uuid followed by the
      extension of the name the client sent. */
  function StoredName(u: Upload): (name: string)
    ensures |u.uuid| <= |name| && name[..|u.uuid|] == u.uuid
    ensures var ext := name[|u.uuid|..];
            && |ext| <= |u.file.filename| && ext == u.file.filename[|u.file.filename| - |ext|..]
            && (ext == "" || ext[0] == '.')
  {
    u.uuid + Extension(u.file.filename)
  }

  /** The text `str(uuid.uuid4())` gives: lower-case hex digits and dashes. */
  predicate IsUuidText(s: string)
  {
    s != "" && forall i :: 0 <= i < |s| ==> ('0' <= s[i] <= '9' || 'a' <= s[i] <= 'f' || s[i] == '-')
  }

  /** An upload whose stored name can go into the comma-separated image
      field: a uuid text and a client extension with no comma and no
      whitespace at its end. */
  predicate SafeUpload(u: Upload)
  {
    var ext := Extension(u.file.filename);
    IsUuidText(u.uuid) && ',' !in ext && (ext == "" || !IsJsWhitespace(ext[|ext| - 1]))
  }

  /** A safe upload's stored name survives the image field: it holds no
      comma and starts and ends with a non-blank character. */
  lemma StoredNameListSafe(u: Upload)
    requires SafeUpload(u)
    ensures IsListSafe(StoredName(u))
  {
    var ext := Extension(u.file.filename);
    var name := StoredName(u);
    assert name == u.uuid + ext;
    assert name[0] == u.uuid[0];
    if ext == "" {
      assert name[|name| - 1] == u.uuid[|u.uuid| - 1];
    } else {
      assert name[|name| - 1] == ext[|ext| - 1];
    }
    assert forall i :: 0 <= i < |name| ==> name[i] != ',' by {
      forall i | 0 <= i < |name|
        ensures name[i] != ','
      {
        if i >= |u.uuid| {
          assert name[i] == ext[i - |u.uuid|];
        }
      }
    }
  }

  /** The extension is kept as the client sent it, so a file named
      `a.p,ng` is stored under a name holding a comma, and one named
      `a.png ` under a name ending in a blank. */
  lemma ClientExtensionKept(uuid: string)
    ensures ',' in StoredName(Upload(File("a.p,ng"), uuid))
    ensures StoredName(Upload(File("a.png "), uuid)) == uuid + ".png "
  {
    var n1 := "a.p,ng";
    assert LastIndexOf(n1, '/') == -1;
    assert n1[1] == '.' && forall i :: 0 <= i < |n1| && i != 1 ==> n1[i] != '.';
    assert LastIndexOf(n1, '.') == 1;
    assert n1[0] != '.';
    assert Extension(n1) == ".p,ng";
    assert StoredName(Upload(File(n1), uuid))[|uuid| + 2] == ',';
    var n2 := "a.png ";
    assert LastIndexOf(n2, '/') == -1;
    assert n2[1] == '.' && forall i :: 0 <= i < |n2| && i != 1 ==> n2[i] != '.';
    assert LastIndexOf(n2, '.') == 1;
    assert n2[0] != '.';
    assert Extension(n2) == ".png ";
  }

  /** The stored names of the uploads that carry a file name, in upload
      order; uploads with an empty file name are skipped. */
  function StoredNames(uploads: seq<Upload>): (names: seq<string>)
    ensures |names| <= |uploads|
  {
    if uploads == [] then []
    else
      var last := uploads[|uploads| - 1];
      StoredNames(uploads[..|uploads| - 1]) +
        (if last.file.filename != "" then [StoredName(last)] else [])
  }

  lemma {:induction false} StoredNamesAppend(a: seq<Upload>, b: seq<Upload>)
    ensures StoredNames(a + b) == StoredNames(a) + StoredNames(b)
    decreases |b|
  {
    if b == [] {
      assert a + b == a;
    } else {
      var b' := b[..|b| - 1];
      assert (a + b)[..|a + b| - 1] == a + b';
      StoredNamesAppend(a, b');
    }
  }

  /** Every upload with a file name yields exactly one stored name, at the
      position given by the named uploads before it. */
  lemma {:induction false} StoredNamesInOrder(uploads: seq<Upload>, i: nat)
    requires i < |uploads| && uploads[i].file.filename != ""
    ensures var before := StoredNames(uploads[..i]);
            |before| < |StoredNames(uploads)| &&
            StoredNames(uploads)[|before|] == StoredName(uploads[i])
  {
    assert uploads == uploads[..i] + ([uploads[i]] + uploads[i + 1..]);
    StoredNamesAppend(uploads[..i], [uploads[i]] + uploads[i + 1..]);
    StoredNamesAppend([uploads[i]], uploads[i + 1..]);
    assert StoredNames([uploads[i]]) == StoredNames([]) + [StoredName(uploads[i])];
  }

  /** No stored name at all exactly when every upload had an empty file
      name. */
  lemma {:induction false} StoredNamesEmpty(uploads: seq<Upload>)
    ensures StoredNames(uploads) == [] <==> forall i :: 0 <= i < |uploads| ==> uploads[i].file.filename == ""
  {
    if uploads != [] {
      var init := uploads[..|uploads| - 1];
      StoredNamesEmpty(init);
      if StoredNames(uploads) == [] {
        forall i | 0 <= i < |uploads|
          ensures uploads[i].file.filename == ""
        {
          if i < |init| {
            assert uploads[i] == init[i];
          }
        }
      }
    }
  }

  /** When every upload is safe, every name of the image field is. */
  lemma {:induction false} StoredNamesListSafe(uploads: seq<Upload>)
    requires forall i :: 0 <= i < |uploads| ==> SafeUpload(uploads[i])
    ensures forall i :: 0 <= i < |StoredNames(uploads)| ==> IsListSafe(StoredNames(uploads)[i])
  {
    if uploads != [] {
      var init := uploads[..|uploads| - 1];
      var last := uploads[|uploads| - 1];
      StoredNamesListSafe(init);
      StoredNameListSafe(last);
    }
  }

  /** The `for file in request.files.getlist('images')` loop of add_product
      and update_product: the names the kept files are stored under. */
  method CollectImages(uploads: seq<Upload>) returns (names: seq<string>)
    ensures names == StoredNames(uploads)
    ensures |names| <= |uploads|
  {
    names := [];
    var i := 0;
    while i < |uploads|
      invariant 0 <= i <= |uploads|
      invariant names == StoredNames(uploads[..i])
      invariant |names| <= i
    {
      var u := uploads[i];
      assert uploads[..i + 1][..i] == uploads[..i];
      if u.file.filename != "" {
        names := names + [StoredName(u)];
      }
      i := i + 1;
    }
    assert uploads[..i] == uploads;
  }

  /** The value of the image column: the `", "`-join of the stored names. */
  function ImageField(names: seq<string>): (field: string)
    ensures names == [] ==> field == ""
    ensures |names| >= 1 && (forall i :: 0 <= i < |names| ==> IsListSafe(names[i])) ==>
              TrimAll(Split(field, ',')) == names
  {
    assert |names| >= 1 && (forall i :: 0 <= i < |names| ==> IsListSafe(names[i])) ==>
             TrimAll(Split(Join(names, ", "), ',')) == names by {
      if |names| >= 1 && (forall i :: 0 <= i < |names| ==> IsListSafe(names[i])) {
        SplitTrimJoin(names);
      }
    }
    Join(names, ", ")
  }

  // ---------------------------------------------------------------------
  // Form fields of POST/PUT /api/products

  /** `float(request.form['price'])`: missing (HTTP 400), not a number
      (ValueError, HTTP 500) or a value. */
  datatype PriceField = PriceMissing | PriceMalformed | PriceValue(p: Price)

  datatype ProductForm = ProductForm(
    name: Option<string>,
    description: Option<string>,
    price: PriceField,
    category: Option<string>)

  datatype Status = Created(id: int) | Changed | BadRequest | ServerError

  /** The failure a product form raises before anything is stored: a missing
      name or price is a 400 (read in that order), a malformed price a 500. */
  function ProductFormError(form: ProductForm): (r: Option<Status>)
    ensures r.None? <==> form.name.Some? && form.price.PriceValue?
    ensures form.name.None? ==> r == Some(BadRequest)
    ensures form.name.Some? && form.price.PriceMissing? ==> r == Some(BadRequest)
    ensures form.name.Some? && form.price.PriceMalformed? ==> r == Some(ServerError)
  {
    if form.name.None? then Some(BadRequest)
    else match form.price
      case PriceMissing => Some(BadRequest)
      case PriceMalformed => Some(ServerError)
      case PriceValue(_) => None
  }

  /** The row add_product inserts. The image column always holds the join,
      the empty string when no file was kept. */
  function NewProduct(form: ProductForm, names: seq<string>): (row: Product)
    requires ProductFormError(form).None?
    ensures row.image == Some(ImageField(names))
    ensures row.name == form.name.value && row.price == form.price.p
    ensures row.description == form.description && row.category == form.category
  {
    Product(form.name.value, form.description, form.price.p, Some(ImageField(names)), form.category)
  }

  /** The row update_product leaves: name, description, price and category
      from the form; the image replaced only when new names were stored. */
  function UpdatedProduct(row: Product, form: ProductForm, names: seq<string>): (r: Product)
    requires ProductFormError(form).None?
    ensures names == [] ==> r.image == row.image
    ensures names != [] ==> r.image == Some(ImageField(names))
    ensures r.name == form.name.value && r.price == form.price.p
    ensures r.description == form.description && r.category == form.category
  {
    Product(form.name.value, form.description, form.price.p,
            if names != [] then Some(ImageField(names)) else row.image,
            form.category)
  }

  /** An update without a kept upload leaves the image as it was; one with a
      kept upload replaces it by the join of the new names. Every other
      column comes from the form either way. */
  lemma UpdateKeepsImageUnlessUploaded(row: Product, form: ProductForm, uploads: seq<Upload>)
    requires ProductFormError(form).None?
    ensures var r := UpdatedProduct(row, form, StoredNames(uploads));
            && ((forall i :: 0 <= i < |uploads| ==> uploads[i].file.filename == "") ==> r.image == row.image)
            && ((exists i :: 0 <= i < |uploads| && uploads[i].file.filename != "") ==>
                  r.image == Some(ImageField(StoredNames(uploads))))
            && r.name == form.name.value && r.description == form.description
            && r.price == form.price.p && r.category == form.category
  {
    StoredNamesEmpty(uploads);
  }

  /** The image name update_category computes: present only when a file part
      was sent with a non-empty file name. */
  function CategoryImage(upload: Option<Upload>): (r: Option<string>)
    ensures r.Some? <==> upload.Some? && upload.value.file.filename != ""
    ensures r.Some? ==> r.value == StoredName(upload.value)
  {
    if upload.Some? && upload.value.file.filename != "" then Some(StoredName(upload.value)) else None
  }

  /** The row update_category leaves: the new name, and the new image only
      when one was stored under a non-empty name (`if image_filename:`). */
  function UpdatedCategory(row: Category, name: string, image: Option<string>): (r: Category)
    ensures r.name == name
    ensures TruthyText(image) ==> r.image == image
    ensures !TruthyText(image) ==> r.image == row.image
  {
    if TruthyText(image) then Category(name, image) else Category(name, row.image)
  }

  /** The sqlite database: the products and categories tables, keyed by id,
      and the next AUTOINCREMENT product id. */
  class Database {
    var products: map<int, Product>
    var categories: map<int, Category>
    var nextProductId: int

    /** The AUTOINCREMENT counter is past every product id, and no two
        categories share a name (`name TEXT NOT NULL UNIQUE`). */
    ghost predicate Valid()
      reads this
    {
      && (forall id :: id in products ==> id < nextProductId)
      && UniqueNames(categories)
    }

    constructor (products0: map<int, Product>, categories0: map<int, Category>, next: int)
      requires forall id :: id in products0 ==> id < next
      requires UniqueNames(categories0)
      ensures Valid()
      ensures products == products0 && categories == categories0 && nextProductId == next
    {
      products, categories, nextProductId := products0, categories0, next;
    }

    /** `SELECT name FROM categories WHERE id = ?` with the text argument. */
    function LookupCategory(idText: string): (r: Option<Category>)
      reads this
      ensures r.Some? <==> CategoryIdValue(idText).Some? && CategoryIdValue(idText).value in categories
      ensures r.Some? ==> r.value == categories[CategoryIdValue(idText).value]
    {
      var id := CategoryIdValue(idText);
      if id.Some? && id.value in categories then Some(categories[id.value]) else None
    }

    /** The category name get_products filters on: present when a filter is
        asked for and the category exists. */
    function FilterName(args: ListingArgs): (r: Option<string>)
      reads this
      ensures r.Some? <==> FiltersByCategory(args) && LookupCategory(args.categoryId.value).Some?
    {
      if FiltersByCategory(args) && LookupCategory(args.categoryId.value).Some?
      then Some(LookupCategory(args.categoryId.value).value.name)
      else None
    }

    /** What `SELECT COUNT(*) FROM products [WHERE category = ?]` counts. */
    function MatchingCount(name: Option<string>): (n: nat)
      reads this
      ensures n <= |products|
    {
      var ids := set id | id in products && (name.None? || products[id].category == name);
      assert ids <= products.Keys;
      assert |ids| <= |products.Keys| by {
        SubsetCard(ids, products.Keys);
      }
      |ids|
    }

    /** get_products: builds the count and data queries and their parameter
        lists step by step, as the handler does. */
    method GetProducts(args: ListingArgs) returns (r: ListingResponse)
      ensures r.NoSuchCategory? <==> FiltersByCategory(args) && LookupCategory(args.categoryId.value).None?
      ensures r.NoSuchCategory? ==> r.currentPage == PageArg(args)
      ensures r.PerPageZero? <==> !r.NoSuchCategory? && PerPageArg(args) == 0
      ensures r.Listing? ==>
        var name := FilterName(args);
        var whereClause := if name.Some? then CategoryClause else "";
        var nameParams := if name.Some? then [TextParam(name.value)] else [];
        && r.plan.countQuery == CountQuery + whereClause
        && r.plan.countParams == nameParams
        && r.plan.query == ProductsQuery + whereClause + OrderClause(args.sort) + PageClause
        && r.plan.params == nameParams + [IntParam(PerPageArg(args)), IntParam(Offset(PageArg(args), PerPageArg(args)))]
        && r.totalPages == PageCount(MatchingCount(name), PerPageArg(args))
        && r.currentPage == PageArg(args)
    {
      var page := PageArg(args);
      var perPage := PerPageArg(args);
      var query := ProductsQuery;
      var countQuery := CountQuery;
      var params: seq<SqlParam> := [];
      var name: Option<string> := None;

      if FiltersByCategory(args) {
        var row := LookupCategory(args.categoryId.value);
        if row.Some? {
          name := Some(row.value.name);
          query := query + CategoryClause;
          countQuery := countQuery + CategoryClause;
          params := params + [TextParam(row.value.name)];
        } else {
          return NoSuchCategory(page);
        }
      }

      if args.sort == Some("price_asc") {
        query := query + " ORDER BY price ASC";
      } else if args.sort == Some("price_desc") {
        query := query + " ORDER BY price DESC";
      } else if args.sort == Some("newest") {
        query := query + " ORDER BY id DESC";
      }

      var total := MatchingCount(name);
      if perPage == 0 {
        return PerPageZero;
      }
      var totalPages := FloorDiv(total + perPage - 1, perPage);
      var countParams := params;

      query := query + PageClause;
      params := params + [IntParam(perPage)];
      params := params + [IntParam((page - 1) * perPage)];
      r := Listing(QueryPlan(countQuery, countParams, query, params), totalPages, page);
    }

    /** add_product: a valid form inserts one row under the next id, whose
        image column is the join of the kept uploads' stored names. */
    method AddProduct(form: ProductForm, uploads: seq<Upload>) returns (status: Status)
      requires Valid()
      modifies this
      ensures Valid()
      ensures categories == old(categories)
      ensures ProductFormError(form).Some? ==>
        status == ProductFormError(form).value &&
        products == old(products) && nextProductId == old(nextProductId)
      ensures ProductFormError(form).None? ==>
        && status == Created(old(nextProductId))
        && old(nextProductId) !in old(products)
        && products == old(products)[old(nextProductId) := NewProduct(form, StoredNames(uploads))]
        && nextProductId == old(nextProductId) + 1
    {
      var err := ProductFormError(form);
      if err.Some? {
        return err.value;
      }
      var names := CollectImages(uploads);
      var id := nextProductId;
      products := products[id := NewProduct(form, names)];
      nextProductId := id + 1;
      status := Created(id);
    }

    /** update_product: with a valid form, the row under `productId` (if
        any) becomes UpdatedProduct of itself; the reply is the same whether
        or not a row matched. */
    method UpdateProduct(productId: int, form: ProductForm, uploads: seq<Upload>) returns (status: Status)
      requires Valid()
      modifies this
      ensures Valid()
      ensures categories == old(categories) && nextProductId == old(nextProductId)
      ensures ProductFormError(form).Some? ==> status == ProductFormError(form).value && products == old(products)
      ensures ProductFormError(form).None? ==> status == Changed
      ensures ProductFormError(form).None? && productId in old(products) ==>
        products == old(products)[productId := UpdatedProduct(old(products)[productId], form, StoredNames(uploads))]
      ensures productId !in old(products) ==> products == old(products)
    {
      var err := ProductFormError(form);
      if err.Some? {
        return err.value;
      }
      var names := CollectImages(uploads);
      if productId in products {
        products := products[productId := UpdatedProduct(products[productId], form, names)];
      }
      status := Changed;
    }

    /** update_category: a missing name is a 400. A rename onto a name
        another category holds violates UNIQUE(name): the UPDATE raises
        IntegrityError, the reply is a 500 and nothing is committed.
        Otherwise the row under `categoryId` (if any) takes the new name
        and, when a file was stored, the new image. */
    method UpdateCategory(categoryId: int, name: Option<string>, upload: Option<Upload>) returns (status: Status)
      requires Valid()
      modifies this
      ensures Valid()
      ensures products == old(products) && nextProductId == old(nextProductId)
      ensures name.None? ==> status == BadRequest && categories == old(categories)
      ensures name.Some? && categoryId in old(categories) && NameHeldElsewhere(old(categories), categoryId, name.value) ==>
        status == ServerError && categories == old(categories)
      ensures name.Some? && !(categoryId in old(categories) && NameHeldElsewhere(old(categories), categoryId, name.value)) ==>
        status == Changed
      ensures name.Some? && categoryId in old(categories) && !NameHeldElsewhere(old(categories), categoryId, name.value) ==>
        categories == old(categories)[categoryId := UpdatedCategory(old(categories)[categoryId], name.value, CategoryImage(upload))]
      ensures categoryId !in old(categories) ==> categories == old(categories)
    {
      if name.None? {
        return BadRequest;
      }
      var image := CategoryImage(upload);
      if categoryId in categories {
        if NameHeldElsewhere(categories, categoryId, name.value) {
          return ServerError;
        }
        RenameKeepsNamesUnique(categories, categoryId, name.value, image);
        categories := categories[categoryId := UpdatedCategory(categories[categoryId], name.value, image)];
      }
      status := Changed;
    }
  }

  /** No two categories share a name. */
  predicate UniqueNames(categories: map<int, Category>)
  {
    forall a, b :: a in categories && b in categories && categories[a].name == categories[b].name ==> a == b
  }

  /** Some category other than `id` already holds `name`. */
  predicate NameHeldElsewhere(categories: map<int, Category>, id: int, name: string)
  {
    exists other :: other in categories && other != id && categories[other].name == name
  }

  /** Renaming an existing category keeps the names unique exactly when no
      other category holds the new name, which is when sqlite allows the
      UPDATE. */
  lemma RenameKeepsNamesUnique(categories: map<int, Category>, id: int, name: string, image: Option<string>)
    requires UniqueNames(categories) && id in categories
    ensures UniqueNames(categories[id := UpdatedCategory(categories[id], name, image)]) <==>
            !NameHeldElsewhere(categories, id, name)
  {
    var updated := categories[id := UpdatedCategory(categories[id], name, image)];
    if NameHeldElsewhere(categories, id, name) {
      var other :| other in categories && other != id && categories[other].name == name;
      assert updated[other].name == updated[id].name;
    }
  }

  lemma SubsetCard<T>(a: set<T>, b: set<T>)
    requires a <= b
    ensures |a| <= |b|
  {
    assert b == a + (b - a);
  }
}
