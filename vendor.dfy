/** The vendor panel script: which page handler runs, the session check and
    logout, the dashboard banner, the product table and the add-product
    form. */
module VendorPanel {
  import opened Js
  import opened Text

  const TokenKey := "token"
  const UserKey := "user"
  const LoginUrl := "/vendor/login.html"
  const UploadsBase := "http://localhost:3000/uploads/"

  // ---------------------------------------------------------------------
  // Dispatch

  datatype PageHandler = RegisterForm | LoginForm | ProductsPage | DashboardPage

  /** Which elements the loaded page holds. */
  datatype PageElements = PageElements(
    registerForm: bool,
    loginForm: bool,
    productsTable: bool,
    dashboardContainer: bool)

  /** The DOMContentLoaded if-chain: the first element present, in the
      order register form, login form, products table, dashboard
      container, picks the one handler that runs. */
  function Dispatch(page: PageElements): (h: Option<PageHandler>)
    ensures h == Some(RegisterForm) <==> page.registerForm
    ensures h == Some(LoginForm) <==> !page.registerForm && page.loginForm
    ensures h == Some(ProductsPage) <==> !page.registerForm && !page.loginForm && page.productsTable
    ensures h == Some(DashboardPage) <==>
              !page.registerForm && !page.loginForm && !page.productsTable && page.dashboardContainer
    ensures h.None? <==>
              !page.registerForm && !page.loginForm && !page.productsTable && !page.dashboardContainer
  {
    if page.registerForm then Some(RegisterForm)
    else if page.loginForm then Some(LoginForm)
    else if page.productsTable then Some(ProductsPage)
    else if page.dashboardContainer then Some(DashboardPage)
    else None
  }

  /** The products page also carries the dashboard container, and it still
      runs only the products handler; an element of higher precedence
      overrides every later one. */
  lemma DispatchPrecedence(page: PageElements)
    ensures page.productsTable && !page.registerForm && !page.loginForm ==>
              Dispatch(page) == Some(ProductsPage)
    ensures Dispatch(page).Some? ==>
              Dispatch(page) == Dispatch(page.(dashboardContainer := true))
  {
  }

  // ---------------------------------------------------------------------
  // Session

  /** What checkAuth ends in: `JSON.parse` threw, the browser was sent to
      the login page (null returned), or the session pair it returns. */
  datatype AuthOutcome = ParseThrew | RedirectToLogin | Session(token: string, user: Json)

  /** `JSON.parse(localStorage.getItem('user'))`: a missing item is parsed
      as the text "null". `parse` stands for JSON.parse on a present text,
      with None for a SyntaxError. */
  function StoredUser(user: Option<string>, parse: string -> Option<Json>): Option<Json>
  {
    if user.None? then Some(JNull) else parse(user.value)
  }

  /** checkAuth, read against the browser's storage. The user text is
      parsed before the token is looked at, so malformed user text throws
      even without a token. Both a truthy token and a truthy user are needed
      for a session, which then holds both unchanged. */
  function CheckAuth(storage: LocalStorage, parse: string -> Option<Json>): (r: AuthOutcome)
    reads storage
    ensures r.ParseThrew? <==> UserKey in storage.items && parse(storage.items[UserKey]).None?
    ensures r.Session? <==>
              && TokenKey in storage.items && storage.items[TokenKey] != ""
              && UserKey in storage.items && parse(storage.items[UserKey]).Some?
              && Truthy(parse(storage.items[UserKey]).value)
    ensures r.Session? ==>
              r.token == storage.items[TokenKey] && Some(r.user) == parse(storage.items[UserKey])
  {
    var token := storage.GetItem(TokenKey);
    var user := StoredUser(storage.GetItem(UserKey), parse);
    if user.None? then ParseThrew
    else if !TruthyText(token) || !Truthy(user.value) then RedirectToLogin
    else Session(token.value, user.value)
  }

  /** The logout button: exactly the token and the user go, and the browser
      leaves for the vendor login page. */
  method Logout(storage: LocalStorage) returns (target: string)
    modifies storage
    ensures storage.items == old(storage.items) - {TokenKey, UserKey}
    ensures target == LoginUrl
  {
    storage.RemoveItem(TokenKey);
    storage.RemoveItem(UserKey);
    target := LoginUrl;
    assert old(storage.items) - {TokenKey} - {UserKey} == old(storage.items) - {TokenKey, UserKey};
  }

  /** After logout every later checkAuth sends the browser to the login
      page, whatever JSON.parse does. */
  lemma LoggedOutRedirects(storage: LocalStorage, parse: string -> Option<Json>)
    requires TokenKey !in storage.items && UserKey !in storage.items
    ensures CheckAuth(storage, parse) == RedirectToLogin
  {
  }

  // ---------------------------------------------------------------------
  // Dashboard

  /** A fetch response as far as the script reads it: `response.ok` and the
      result of `response.json()` (None when that throws). */
  datatype Reply = Reply(ok: bool, json: Option<Json>)

  /** A property read on a parsed value: None stands for undefined; null
      has no properties. The last duplicate key wins, as in JSON.parse. */
  function Property(v: Json, key: string): Option<Json>
    requires v != JNull
  {
    match v
    case JObj(fields) => LastValue(fields, key)
    case _ => None
  }

  function LastValue(fields: seq<(string, Json)>, key: string): (r: Option<Json>)
    ensures r.Some? ==> (key, r.value) in fields
    ensures r.None? ==> forall i :: 0 <= i < |fields| ==> fields[i].0 != key
  {
    if fields == [] then None
    else if fields[|fields| - 1].0 == key then Some(fields[|fields| - 1].1)
    else LastValue(fields[..|fields| - 1], key)
  }

  /** undefined and null are both falsy. */
  predicate TruthyProperty(p: Option<Json>)
  {
    p.Some? && Truthy(p.value)
  }

  const ApprovedBanner := "status-banner approved"
  const PendingBanner := "status-banner pending"

  datatype Dashboard = NotRendered | Banner(className: string)

  /** handleDashboardPage after the fetch: a non-ok response, a body that
      does not parse, or a null body throws before anything is shown (the
      error is only logged); otherwise the banner is the approved one
      exactly when `is_approved` is truthy. */
  function DashboardOf(reply: Reply): (d: Dashboard)
    ensures d.Banner? <==> reply.ok && reply.json.Some? && reply.json.value != JNull
    ensures d.Banner? ==>
              (d.className == ApprovedBanner <==> TruthyProperty(Property(reply.json.value, "is_approved")))
    ensures d.Banner? ==> d.className in {ApprovedBanner, PendingBanner}
  {
    if !reply.ok || reply.json.None? || reply.json.value == JNull then NotRendered
    else if TruthyProperty(Property(reply.json.value, "is_approved")) then Banner(ApprovedBanner)
    else Banner(PendingBanner)
  }

  // ---------------------------------------------------------------------
  // The product table

  /** A product of the vendor's listing; a null image is None. */
  datatype VendorProduct = VendorProduct(name: string, image: Option<string>, quantity: int)

  datatype ProductRow = ProductRow(imageUrl: string, name: string, quantity: int)

  datatype ProductTable = ErrorRow | Rows(rows: seq<ProductRow>)

  /** The row markup's image: the first segment of the field, untrimmed. */
  function RowImage(image: string): (url: string)
    ensures |UploadsBase| <= |url| && url[..|UploadsBase|] == UploadsBase
    ensures ',' !in url[|UploadsBase|..]
    ensures ',' !in image ==> url == UploadsBase + image
  {
    var first := Split(image, ',')[0];
    assert ',' !in image ==> first == image by {
      if ',' !in image {
        SplitJoin([image], ',');
      }
    }
    assert (UploadsBase + first)[|UploadsBase|..] == first;
    UploadsBase + first
  }

  /** loadProducts' `result.data.map(...).join('')`: a non-ok response or a
      product whose image is null (`split` on null throws) leaves only the
      error row; otherwise one row per product, in order. */
  function ProductTableOf(ok: bool, products: seq<VendorProduct>): (t: ProductTable)
    ensures t.ErrorRow? <==> !ok || exists i :: 0 <= i < |products| && products[i].image.None?
    ensures t.Rows? ==> |t.rows| == |products|
    ensures t.Rows? ==> forall i :: 0 <= i < |products| ==>
              t.rows[i] == ProductRow(RowImage(products[i].image.value), products[i].name, products[i].quantity)
  {
    if !ok || exists i :: 0 <= i < |products| && products[i].image.None? then ErrorRow
    else Rows(seq(|products|, i requires 0 <= i < |products| =>
                    ProductRow(RowImage(products[i].image.value), products[i].name, products[i].quantity)))
  }

  /** The row image keeps the leading blank of a segment and everything up
      to the first comma, and it is the whole field when there is no comma. */
  lemma RowImageIsFirstSegment(first: string, rest: string)
    requires ',' !in first
    ensures RowImage(first) == UploadsBase + first
    ensures RowImage(first + "," + rest) == UploadsBase + first
  {
    SplitPrefix(first, "", ',');
    assert first + "" == first;
    SplitAtSeparator(first, rest, ',');
    assert first + "," + rest == first + [','] + rest;
  }

  // ---------------------------------------------------------------------
  // The add-product form

  /** The text fields of the form, in the order they are appended. */
  function TextFields(name: string, description: string, price: string, quantity: string): seq<FormEntry>
  {
    [TextEntry("name", name), TextEntry("description", description),
     TextEntry("price", price), TextEntry("quantity", quantity)]
  }

  /** The submit handler's FormData: the four text fields, then one
      `images` entry per selected file, in selection order. */
  method AssembleProductForm(name: string, description: string, price: string, quantity: string,
                             files: seq<File>)
    returns (form: seq<FormEntry>)
    ensures |form| == 4 + |files|
    ensures form[..4] == TextFields(name, description, price, quantity)
    ensures forall i :: 0 <= i < |files| ==> form[4 + i] == FileEntry("images", files[i])
  {
    form := [];
    form := form + [TextEntry("name", name)];
    form := form + [TextEntry("description", description)];
    form := form + [TextEntry("price", price)];
    form := form + [TextEntry("quantity", quantity)];
    for i := 0 to |files|
      invariant |form| == 4 + i
      invariant form[..4] == TextFields(name, description, price, quantity)
      invariant forall k :: 0 <= k < i ==> form[4 + k] == FileEntry("images", files[k])
    {
      form := form + [FileEntry("images", files[i])];
    }
  }

  /** What the server reads from that form: each text field as entered, no
      category at all, and exactly the selected files, in order, under
      `images`. */
  lemma {:induction false} ProductFormFields(name: string, description: string, price: string, quantity: string,
                                             files: seq<File>, form: seq<FormEntry>)
    requires |form| == 4 + |files|
    requires form[..4] == TextFields(name, description, price, quantity)
    requires forall i :: 0 <= i < |files| ==> form[4 + i] == FileEntry("images", files[i])
    ensures FirstText(form, "name") == Some(name)
    ensures FirstText(form, "description") == Some(description)
    ensures FirstText(form, "price") == Some(price)
    ensures FirstText(form, "quantity") == Some(quantity)
    ensures FirstText(form, "category") == None
    ensures FilesUnder(form, "images") == files
  {
    assert form[0] == TextEntry("name", name);
    assert form[1] == TextEntry("description", description);
    assert form[2] == TextEntry("price", price);
    assert form[3] == TextEntry("quantity", quantity);
    assert forall j :: 4 <= j < |form| ==> form[j].FileEntry? by {
      forall j | 4 <= j < |form|
        ensures form[j].FileEntry?
      {
        assert form[4 + (j - 4)] == FileEntry("images", files[j - 4]);
      }
    }
    FirstTextAt(form, "name", 0);
    FirstTextAt(form, "description", 1);
    FirstTextAt(form, "price", 2);
    FirstTextAt(form, "quantity", 3);
    FirstTextAbsent(form, "category");
    FilesOnly(files, form[4..]);
    FilesUnderSkipsText(form, 4);
  }

  /** A run of `images` entries holds no text and yields its files in order. */
  lemma {:induction false} FilesOnly(files: seq<File>, entries: seq<FormEntry>)
    requires |entries| == |files|
    requires forall i :: 0 <= i < |files| ==> entries[i] == FileEntry("images", files[i])
    ensures FilesUnder(entries, "images") == files
  {
    if files != [] {
      FilesOnly(files[1..], entries[1..]);
    }
  }

  /** Text entries in front add no files. */
  lemma {:induction false} FilesUnderSkipsText(form: seq<FormEntry>, n: nat)
    requires n <= |form|
    requires forall i :: 0 <= i < n ==> form[i].TextEntry?
    ensures FilesUnder(form, "images") == FilesUnder(form[n..], "images")
  {
    if n > 0 {
      FilesUnderSkipsText(form[1..], n - 1);
      assert form[1..][n - 1..] == form[n..];
    }
  }
}
