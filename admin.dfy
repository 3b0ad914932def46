/** The admin panel script: the page name it routes on, the session
    redirect, the authenticated request helper and its 401/403 handling,
    the route table, the category form and the vendor table. */
module AdminPanel {
  import opened Js
  import opened Text

  const TokenKey := "adminToken"
  const LoginPage := "login.html"
  const IndexPage := "index.html"
  const ApiOrigin := "http://localhost:3000"
  const TokenHeader := "x-access-token"
  const ContentType := "Content-Type"
  const JsonMediaType := "application/json"

  // ---------------------------------------------------------------------
  // The page and the session

  /** `window.location.pathname.split("/").pop()`: the last path segment,
      which is "" for a directory such as `/admin/`. */
  function CurrentPage(pathname: string): (page: string)
    ensures '/' !in page
  {
    var segments := Split(pathname, '/');
    segments[|segments| - 1]
  }

  /** The page name of any path ending in `/name` is `name`. */
  lemma CurrentPageOfPath(dir: string, name: string)
    requires '/' !in name
    ensures CurrentPage(dir + "/" + name) == name
  {
    LastSegment(dir, name, '/');
  }

  /** checkAuth: where it sends the browser, if anywhere. Without a token
      every page but the login page goes to the login page; with one the
      login page goes to the dashboard. */
  function AuthRedirect(token: Option<string>, page: string): (target: Option<string>)
    ensures target == Some(LoginPage) <==> !TruthyText(token) && page != LoginPage
    ensures target == Some(IndexPage) <==> TruthyText(token) && page == LoginPage
    ensures target.None? <==> (TruthyText(token) <==> page != LoginPage)
  {
    if !TruthyText(token) && page != LoginPage then Some(LoginPage)
    else if TruthyText(token) && page == LoginPage then Some(IndexPage)
    else None
  }

  /** The redirect settles: the page it leads to (a sibling of the current
      one) redirects no further for the same token. */
  lemma RedirectSettles(token: Option<string>, dir: string, page: string)
    requires AuthRedirect(token, page).Some?
    ensures var next := CurrentPage(dir + "/" + AuthRedirect(token, page).value);
            AuthRedirect(token, next).None?
  {
    var target := AuthRedirect(token, page).value;
    assert '/' !in target by {
      assert target == LoginPage || target == IndexPage;
    }
    CurrentPageOfPath(dir, target);
  }

  /** logout: drops the admin token and leaves for the login page. */
  method Logout(storage: LocalStorage) returns (target: string)
    modifies storage
    ensures storage.items == old(storage.items) - {TokenKey}
    ensures target == LoginPage
  {
    storage.RemoveItem(TokenKey);
    target := LoginPage;
  }

  // ---------------------------------------------------------------------
  // fetchAPI

  /** The body a caller hands to fetchAPI. */
  datatype Body = NoBody | FormBody(entries: seq<FormEntry>) | ValueBody(value: Json)

  datatype Options = Options(httpMethod: Option<string>, headers: map<string, string>, body: Body)

  /** The body fetch sends: the form as multipart, the JSON text of a value
      (`JSON.stringify`, kept symbolic), or a falsy value as it is. */
  datatype SentBody = NothingSent | SentForm(entries: seq<FormEntry>) | SentJson(value: Json) | SentRaw(value: Json)

  datatype Request = Request(url: string, httpMethod: Option<string>, headers: map<string, string>, body: SentBody)

  datatype Response = Response(status: int, payload: Json)

  /** `options.body && !(options.body instanceof FormData)`. */
  predicate SerializesBody(body: Body)
  {
    body.ValueBody? && Truthy(body.value)
  }

  /** What fetchAPI's request is, for the captured token, the path and the
      caller's options: the origin prefixed to the path, the caller's method,
      every caller header kept unless overridden, the token header exactly
      when a token is held, the JSON content type exactly when a truthy
      non-form body is serialized, and the body serialized exactly then. */
  ghost predicate PreparedFrom(token: Option<string>, path: string, options: Options, req: Request)
  {
    && req.url == ApiOrigin + path
    && req.httpMethod == options.httpMethod
    && req.headers.Keys ==
         options.headers.Keys
         + (if TruthyText(token) then {TokenHeader} else {})
         + (if SerializesBody(options.body) then {ContentType} else {})
    && (forall k :: k in options.headers && k != TokenHeader && k != ContentType ==>
          req.headers[k] == options.headers[k])
    && (TruthyText(token) ==> req.headers[TokenHeader] == token.value)
    && (!TruthyText(token) && TokenHeader in options.headers ==>
          req.headers[TokenHeader] == options.headers[TokenHeader])
    && (SerializesBody(options.body) ==> req.headers[ContentType] == JsonMediaType)
    && (!SerializesBody(options.body) && ContentType in options.headers ==>
          req.headers[ContentType] == options.headers[ContentType])
    && req.body == match options.body
                   case NoBody => NothingSent
                   case FormBody(entries) => SentForm(entries)
                   case ValueBody(v) => if Truthy(v) then SentJson(v) else SentRaw(v)
  }

  /** fetchAPI's request assembly: copy the caller's headers, add the token,
      and serialize a non-form body. */
  method PrepareRequest(token: Option<string>, path: string, options: Options) returns (req: Request)
    ensures PreparedFrom(token, path, options, req)
  {
    var headers := options.headers;
    if TruthyText(token) {
      headers := headers[TokenHeader := token.value];
    }
    var body: SentBody;
    match options.body {
      case NoBody => body := NothingSent;
      case FormBody(entries) => body := SentForm(entries);
      case ValueBody(v) =>
        if Truthy(v) {
          headers := headers[ContentType := JsonMediaType];
          body := SentJson(v);
        } else {
          body := SentRaw(v);
        }
    }
    req := Request(ApiOrigin + path, options.httpMethod, headers, body);
  }

  /** fetchAPI: the request goes out through `network`, which stands for the
      server; 401 and 403 end the session and give null, every other status
      (errors included) gives the response itself and touches nothing. */
  method FetchApi(storage: LocalStorage, token: Option<string>, path: string, options: Options,
                  network: Request -> Response)
    returns (req: Request, result: Option<Response>, target: Option<string>)
    modifies storage
    ensures PreparedFrom(token, path, options, req)
    ensures network(req).status in {401, 403} ==>
              && result.None?
              && target == Some(LoginPage)
              && storage.items == old(storage.items) - {TokenKey}
    ensures network(req).status !in {401, 403} ==>
              && result == Some(network(req))
              && target.None?
              && storage.items == old(storage.items)
  {
    req := PrepareRequest(token, path, options);
    var response := network(req);
    if response.status == 401 || response.status == 403 {
      var page := Logout(storage);
      result, target := None, Some(page);
    } else {
      result, target := Some(response), None;
    }
  }

  // ---------------------------------------------------------------------
  // The route table

  datatype Handler = LoginForm | Dashboard | Vendors | Products | Orders | Categories

  /** `routes`: the handler each page name runs. */
  const Routes: map<string, Handler> := map[
    LoginPage := LoginForm,
    IndexPage := Dashboard,
    "" := Dashboard,
    "vendors.html" := Vendors,
    "products.html" := Products,
    "orders.html" := Orders,
    "categories.html" := Categories
  ]

  /** `if (routes[path]) routes[path]()`. */
  function Route(page: string): (h: Option<Handler>)
    ensures h.Some? <==> page in Routes
    ensures h.Some? ==> page in PagesOf(h.value)
  {
    if page in Routes then Some(Routes[page]) else None
  }

  /** The page names each handler serves: the dashboard serves the
      directory path and index.html, every other handler one page. */
  function PagesOf(h: Handler): set<string>
  {
    match h
    case LoginForm => {LoginPage}
    case Dashboard => {IndexPage, ""}
    case Vendors => {"vendors.html"}
    case Products => {"products.html"}
    case Orders => {"orders.html"}
    case Categories => {"categories.html"}
  }

  /** A page runs handler `h` exactly when it is one of `h`'s pages, and a
      page that is no handler's runs nothing. */
  lemma RouteServesPages(page: string, h: Handler)
    ensures Route(page) == Some(h) <==> page in PagesOf(h)
    ensures Route(page).None? <==> forall g: Handler :: page !in PagesOf(g)
  {
    if Route(page).None? {
      forall g: Handler
        ensures page !in PagesOf(g)
      {
      }
    } else {
      assert page in PagesOf(Route(page).value);
    }
  }

  /** The root path of the panel and index.html both load the dashboard. */
  lemma RootIsDashboard(dir: string)
    ensures Route(CurrentPage(dir + "/")) == Some(Dashboard)
    ensures Route(CurrentPage(dir + "/" + IndexPage)) == Some(Dashboard)
  {
    CurrentPageOfPath(dir, "");
    assert dir + "/" + "" == dir + "/";
    CurrentPageOfPath(dir, IndexPage);
  }

  // ---------------------------------------------------------------------
  // The category form

  datatype CategorySubmission = NameRequired | Submit(entries: seq<FormEntry>)

  /** The FormData of a category: the name as typed, then the first picked
      file, if any, as `image`. */
  function CategoryForm(name: string, files: seq<File>): (entries: seq<FormEntry>)
    ensures FirstText(entries, "name") == Some(name)
    ensures FilesUnder(entries, "image") == (if |files| > 0 then [files[0]] else [])
  {
    var image := if |files| > 0 then [FileEntry("image", files[0])] else [];
    var entries := [TextEntry("name", name)] + image;
    FirstTextAt(entries, "name", 0);
    assert entries[1..] == image;
    entries
  }

  /** The add-category submit handler: a name that is blank once trimmed is
      refused before any request; otherwise the category form is sent. */
  function SubmitCategory(name: string, files: seq<File>): (r: CategorySubmission)
    ensures r.NameRequired? <==> Trim(name) == ""
    ensures r.Submit? ==> r.entries == CategoryForm(name, files)
  {
    if Trim(name) == "" then NameRequired else Submit(CategoryForm(name, files))
  }

  /** A form request goes out as multipart: the form itself, and no JSON
      content type, whatever token is held. */
  lemma CategoryRequestIsMultipart(token: Option<string>, entries: seq<FormEntry>, req: Request)
    requires PreparedFrom(token, "/api/categories", Options(Some("POST"), map[], FormBody(entries)), req)
    ensures ContentType !in req.headers
    ensures req.body == SentForm(entries)
    ensures req.url == ApiOrigin + "/api/categories"
  {
    assert ContentType != TokenHeader;
  }

  // ---------------------------------------------------------------------
  // The vendor table

  /** A vendor of the admin listing. */
  datatype VendorView = VendorView(
    id: int,
    storeName: string,
    storeDescription: Option<string>,
    storeLocation: Option<string>,
    name: string,
    email: Option<string>,
    phone: string,
    isApproved: Json)

  /** One table cell: its text and the Approve buttons appended to it, each
      approving the vendor it names. */
  datatype Cell = Cell(text: string, approveButtons: seq<int>)

  /** The columns of a vendor row, in order. */
  const Columns: seq<string> := ["store", "description", "location", "name", "email", "phone", "status", "actions"]
  const PhoneColumn := 5
  const ActionsColumn := 7

  /** `${value || 'N/A'}`. */
  function OrNotAvailable(value: Option<string>): string
  {
    if TruthyText(value) then value.value else "N/A"
  }

  /** The eight cells the row's markup writes, before any button. */
  function VendorCells(v: VendorView): (cells: seq<Cell>)
    ensures |cells| == |Columns|
    ensures forall i :: 0 <= i < |cells| ==> cells[i].approveButtons == []
  {
    [Cell(v.storeName, []), Cell(OrNotAvailable(v.storeDescription), []),
     Cell(OrNotAvailable(v.storeLocation), []), Cell(v.name, []),
     Cell(OrNotAvailable(v.email), []), Cell(v.phone, []),
     Cell(if Truthy(v.isApproved) then "Approved" else "Pending", []), Cell("", [])]
  }

  /** Appends an Approve button for the vendor to cell `column` of the row
      when the vendor is not approved. */
  function WithApprove(cells: seq<Cell>, column: nat, v: VendorView): seq<Cell>
    requires column < |cells|
  {
    if Truthy(v.isApproved) then cells
    else cells[column := Cell(cells[column].text, cells[column].approveButtons + [v.id])]
  }

  /** The row as loadVendors builds it: the button goes to `row.cells[5]`. */
  function VendorRowAsWritten(v: VendorView): (cells: seq<Cell>)
    ensures |cells| == |Columns|
    ensures cells[PhoneColumn].approveButtons == (if Truthy(v.isApproved) then [] else [v.id])
    ensures forall i :: 0 <= i < |Columns| && i != PhoneColumn ==> cells[i] == VendorCells(v)[i]
    ensures cells[PhoneColumn].text == VendorCells(v)[PhoneColumn].text
  {
    WithApprove(VendorCells(v), PhoneColumn, v)
  }

  /** The row with the button in the actions cell, the one left empty for it. */
  function VendorRow(v: VendorView): (cells: seq<Cell>)
    ensures |cells| == |Columns|
    ensures cells[ActionsColumn].approveButtons == (if Truthy(v.isApproved) then [] else [v.id])
    ensures forall i :: 0 <= i < |Columns| && i != ActionsColumn ==> cells[i] == VendorCells(v)[i]
    ensures cells[ActionsColumn].text == ""
  {
    WithApprove(VendorCells(v), ActionsColumn, v)
  }

  /** The buttons of a whole row, cell by cell. */
  function RowButtons(cells: seq<Cell>): seq<int>
  {
    if cells == [] then [] else cells[0].approveButtons + RowButtons(cells[1..])
  }

  lemma {:induction false} RowButtonsUpdate(cells: seq<Cell>, column: nat, c: Cell)
    requires column < |cells|
    requires forall i :: 0 <= i < |cells| ==> cells[i].approveButtons == []
    ensures RowButtons(cells[column := c]) == c.approveButtons
  {
    if column == 0 {
      RowButtonsNone(cells[1..]);
      assert cells[column := c][1..] == cells[1..];
    } else {
      RowButtonsUpdate(cells[1..], column - 1, c);
      assert cells[column := c][1..] == cells[1..][column - 1 := c];
    }
  }

  lemma {:induction false} RowButtonsNone(cells: seq<Cell>)
    requires forall i :: 0 <= i < |cells| ==> cells[i].approveButtons == []
    ensures RowButtons(cells) == []
  {
    if cells != [] {
      RowButtonsNone(cells[1..]);
    }
  }

  /** In either row there is one Approve button, for this vendor, exactly
      when the vendor is not approved, and no button otherwise. */
  lemma ApproveOnlyUnapproved(v: VendorView)
    ensures RowButtons(VendorRow(v)) == (if Truthy(v.isApproved) then [] else [v.id])
    ensures RowButtons(VendorRowAsWritten(v)) == (if Truthy(v.isApproved) then [] else [v.id])
  {
    var cells := VendorCells(v);
    if Truthy(v.isApproved) {
      RowButtonsNone(cells);
    } else {
      assert cells[ActionsColumn].approveButtons + [v.id] == [v.id];
      assert cells[PhoneColumn].approveButtons + [v.id] == [v.id];
      RowButtonsUpdate(cells, ActionsColumn, Cell(cells[ActionsColumn].text, [v.id]));
      RowButtonsUpdate(cells, PhoneColumn, Cell(cells[PhoneColumn].text, [v.id]));
    }
  }

  /** As written, a pending vendor's Approve button lands in the phone cell
      and the actions cell stays empty. */
  lemma ApproveLandsInPhoneCell(v: VendorView)
    requires !Truthy(v.isApproved)
    ensures Columns[PhoneColumn] == "phone"
    ensures VendorRowAsWritten(v)[PhoneColumn] == Cell(v.phone, [v.id])
    ensures VendorRowAsWritten(v)[ActionsColumn] == Cell("", [])
  {
  }

  /** In the corrected row every button sits in the actions cell, and the
      other cells hold the markup's text alone. */
  lemma ApproveInActionsCell(v: VendorView)
    ensures Columns[ActionsColumn] == "actions"
    ensures VendorRow(v)[ActionsColumn].approveButtons == (if Truthy(v.isApproved) then [] else [v.id])
    ensures forall i :: 0 <= i < |Columns| && i != ActionsColumn ==> VendorRow(v)[i] == VendorCells(v)[i]
  {
  }

  /** loadVendors' `data.forEach`: one row per vendor, in order. */
  method VendorTable(vendors: seq<VendorView>) returns (rows: seq<seq<Cell>>)
    ensures |rows| == |vendors|
    ensures forall i :: 0 <= i < |vendors| ==> rows[i] == VendorRow(vendors[i])
  {
    rows := [];
    for i := 0 to |vendors|
      invariant |rows| == i
      invariant forall k :: 0 <= k < i ==> rows[k] == VendorRow(vendors[k])
    {
      rows := rows + [VendorRow(vendors[i])];
    }
  }
}
