# seefirst_app — a verified model of its listing, image and session rules

seefirst_app is a small marketplace with four parts. A Flask/sqlite backend
serves products and categories. A customer storefront (`user/`) lists
products, and two panels manage the shop, one for admins (`admin/`) and one
for vendors (`vendor/`). This project models the decision and
transformation rules inside that glue and proves what they guarantee:

- **Backend** (`backend.dfy`). `GET /api/products` builds its count query,
  its data query and their parameter lists. It works out the page count by
  ceiling division and the offset. It stops early on an unknown category.
  `add_product` stores the uploaded image names as a `", "`-join.
  `update_product` and `update_category` keep the old image unless a new
  one was stored. The sqlite tables are maps in a `Database` class, and
  the handlers are methods that update them.
- **Storefront** (`storefront.dfy`). The listing URL is built from category
  and sort. The listing applies the `limit` slice and shows one card per
  product. New arrivals go to a carousel of five cards per slide, with only
  the first slide active. A card shows the first image of the
  comma-separated field. The detail page has its slides and prev/next
  controls. The filter bar and the category cards are modelled too.
- **Admin panel** (`admin.dfy`). It covers the page name,
  the `checkAuth` redirect, `logout`, and `fetchAPI`'s request assembly
  with its 401/403 rule. It also covers the route table, the category form
  and the vendor table's Approve button.
- **Vendor panel** (`vendor.dfy`). Page dispatch follows a fixed
  precedence. `checkAuth` needs both the token and the user. Logout removes
  exactly two keys. It also covers the dashboard banner, the product table
  and the add-product form.
- **Data flow** (`flow.dfy`). It connects the join the backend writes
  with the three readers of that field. It also connects the category id a
  storefront filter button sends with the backend's category lookup.
- **Shared pieces** (`text.dfy`, `js.dfy`). They model Python's
  `str.join` and JavaScript's `split` and `trim`. They also model
  truthiness, `Array.prototype.slice`, FormData and localStorage.

The browser's storage is a `LocalStorage` class whose `items` map the
logout methods update. A fetch is a function parameter standing for the
server, or a reply value. Page navigation is returned as a target string.

## Model

| member | source | states |
|---|---|---|
| Backend.PageArg | backend/app.py:89 | a missing `page` is 1, a given one is kept |
| Backend.PerPageArg | backend/app.py:90 | a missing `per_page` is 10, a given one is kept |
| Backend.OrderClause | backend/app.py:107-112 | `price_asc`, `price_desc` and `newest` give their ORDER BY clauses; no clause exactly when the option is none of the three |
| Backend.FloorDiv | backend/app.py:116 | Python's `//`: the floor of the quotient for either sign of the divisor |
| Backend.PageCount | backend/app.py:116 | for a positive page size, `pages` pages hold every product and `pages - 1` pages do not |
| Backend.PageCountIsCeiling | backend/app.py:115-116 | for a positive page size the page count covers every product (`pages*pp >= total`), leaves no empty page (`(pages-1)*pp < total`), and is 0 exactly when there are no products |
| Backend.Offset | backend/app.py:121 | for a positive page size the offset is non-negative exactly from page 1 on |
| Backend.OffsetWithinPages | backend/app.py:116-121 | pages 1 to total_pages start inside the matching rows; later pages start past them |
| Backend.CategoryIdValue | backend/app.py:97 | the category id text matches an INTEGER id exactly when it is a non-empty string of digits |
| Backend.Database.LookupCategory | backend/app.py:97-98 | a row is found exactly when the id text denotes an existing category id, and it is that row |
| Backend.Database.FilterName | backend/app.py:96-99 | the filter name exists exactly when `category_id` is truthy, is not `'all'` and names an existing category |
| Backend.Database.MatchingCount | backend/app.py:115 | the count never exceeds the number of products |
| Backend.Database.GetProducts | backend/app.py:85-125 | an unknown category gives the empty reply with `current_page = page` and nothing else. `per_page` 0 raises after the count. Otherwise the count and data queries share the WHERE clause. ORDER BY goes only on the data query, and LIMIT/OFFSET comes after it. The parameters are [name] + [per_page, offset], and `total_pages` is the page count of the matching rows |
| Backend.LastIndexOf | backend/app.py:138 | the last index of the character, or -1 when absent |
| Backend.Extension | backend/app.py:138 | `splitext(...)[1]`: empty, or a suffix of the name that starts with a dot and holds no `/` |
| Backend.StoredName | backend/app.py:138 | the stored name is the uuid followed by a suffix of the client's file name that is empty or starts with a dot |
| Backend.StoredNameListSafe | backend/app.py:138 | a stored name holds no comma and no surrounding blank when the extension the client sent has no comma and no trailing blank |
| Backend.ClientExtensionKept | backend/app.py:138 | the client's extension is kept verbatim: `a.p,ng` is stored under a name holding a comma, `a.png ` under one ending in a blank |
| Backend.StoredNames | backend/app.py:134-143 | at most one stored name per upload |
| Backend.StoredNamesListSafe | backend/app.py:134-143 | when every upload is safe, every stored name is list-safe |
| Backend.StoredNamesAppend | backend/app.py:135-143 | the stored names of two upload runs are the stored names of each, concatenated |
| Backend.StoredNamesInOrder | backend/app.py:135-143 | every upload with a file name yields its stored name, in upload order |
| Backend.StoredNamesEmpty | backend/app.py:137-144 | no stored name at all exactly when every upload had an empty file name |
| Backend.CollectImages | backend/app.py:134-143 | the loop yields exactly the stored names of the uploads with a file name, in order |
| Backend.ProductFormError | backend/app.py:128-130 | a missing name or price is a 400, a malformed price a 500, and the form is accepted exactly when both are given and the price parses |
| Backend.ImageField | backend/app.py:144 | no names give the empty field; list-safe names are recovered by the readers' split-on-comma and trim |
| Backend.NewProduct | backend/app.py:144-146 | the new row's image is the `", "`-join of the stored names; every other column comes from the form |
| Backend.UpdatedProduct | backend/app.py:180-192 | no new names keep the old image; new names replace it by their join; name, description, price and category come from the form |
| Backend.UpdateKeepsImageUnlessUploaded | backend/app.py:181-192 | without a kept upload the image stays as it was; with one it is replaced by the join of the new names; the other columns come from the form either way |
| Backend.CategoryImage | backend/app.py:234-239 | a new image name exists exactly when a file part with a non-empty name was sent, and it is that upload's stored name |
| Backend.UpdatedCategory | backend/app.py:246-249 | the name is always replaced; the image only when a truthy new one was stored |
| Backend.Database.AddProduct | backend/app.py:127-150 | a bad form changes nothing and returns its error. A good form inserts NewProduct under the next id, which was unused, and returns that id. Categories are untouched |
| Backend.Database.UpdateProduct | backend/app.py:163-193 | a bad form changes nothing. Otherwise the matching row (if any) becomes UpdatedProduct of itself and nothing else changes |
| Backend.RenameKeepsNamesUnique | backend/app.py:52-57 | renaming an existing category keeps the names unique exactly when no other category holds the new name |
| Backend.Database.UpdateCategory | backend/app.py:231-252 | a missing name is a 400. Renaming an existing category onto a name another category holds is a 500 (the UNIQUE constraint) and changes nothing. Otherwise the reply is success and the matching category (if any) becomes UpdatedCategory of itself; names stay unique and nothing else changes |
| Storefront.ListingParams | user/app.js:7-13 | `category_id` only when truthy and not `'all'`, `sort` only when truthy, in that order |
| Storefront.Utf8 | user/app.js:14 | one to four bytes; one byte exactly for ASCII, and every byte of a longer encoding has its high bit set |
| Storefront.FormUrlEncode | user/app.js:14 | the encoded text never holds `&`, `=`, `?` or `#`, and it is empty exactly when the input is |
| Storefront.PlainEncodesToItself | user/app.js:14 | text of unreserved characters is written unchanged |
| Storefront.SerializeParams | user/app.js:14 | `toString()` is empty exactly when there are no parameters |
| Storefront.SerializeHasNoQuestionMark | user/app.js:14 | a serialized query holds no `?` |
| Storefront.ListingUrl | user/app.js:6-16 | the URL always starts with the products API URL, and is exactly it when there are no parameters |
| Storefront.ListingUrlHasQueryIffParams | user/app.js:6-16 | the URL holds a `?` exactly when some parameter is present. Then it is the API URL, `?` and the query; otherwise the bare API URL |
| Storefront.PairText | user/app.js:9-14 | a pair of plain texts serializes as `name=value` |
| Storefront.TwoPairsText | user/app.js:9-14 | two pairs of plain texts serialize as `name=value&name=value` |
| Storefront.ListingUrlLiteral | user/app.js:6-16 | with plain values the URL is `...?category_id=c&sort=s`, `...?category_id=c` or `...?sort=s` |
| Storefront.ApplyLimit | user/app.js:19 | the products shown are always a prefix of the listing |
| Storefront.LimitKeepsPrefix | user/app.js:19 | a positive limit keeps the first min(limit, n) products in order. No limit or 0 keeps them all. A negative limit drops that many from the end, as `slice` does |
| Storefront.CardImage | user/app.js:59 | a null or empty image field shows the placeholder. Otherwise the card shows the first comma segment, trimmed, which is the whole trimmed field when it holds no comma |
| Storefront.CardsOf | user/app.js:58-59 | one card per product, in order |
| Storefront.ListingCards | user/app.js:58-73 | the loop emits exactly CardsOf of the products |
| Storefront.ChunkAt | user/app.js:26-32 | ceil(n/5) groups; group k is products 5k to min(5k+5, n) |
| Storefront.ChunkSizes | user/app.js:26-32 | every group but the last has five items, the last from one to five |
| Storefront.FlattenChunks | user/app.js:26-32 | the groups concatenated give back the input |
| Storefront.CarouselOf | user/app.js:25-54 | one slide per group |
| Storefront.CarouselShape | user/app.js:25-54 | ceil(n/5) slides. Only slide 0 is active. Every slide but the last has five cards and the last one to five. Read in order, the cards are the products' cards |
| Storefront.CarouselFromSlides | user/app.js:26-33 | slides built one by one as the loops do are the carousel |
| Storefront.CarouselItems | user/app.js:25-54 | the nested loops produce exactly CarouselOf of the products |
| Storefront.DetailSlides | user/app.js:156-160 | one slide per comma segment; slide i shows the trimmed segment, is numbered i+1, and is active exactly when i is 0 |
| Storefront.DetailOf | user/app.js:146-192 | no product means "not found" and a null image fails. Otherwise the slides are DetailSlides of the image field, and the controls appear exactly when there is more than one slide |
| Storefront.DetailOfImagelessProduct | user/app.js:156-171 | an empty image field gives one active slide pointing at the uploads directory, and no controls |
| Storefront.FilterButtons | user/app.js:86-90 | "All Products" (key `all`) first and active, then one inactive button per category in order; only button 0 is active |
| Storefront.DecimalText | user/app.js:88 | a category id is written as a non-empty string of digits |
| Storefront.FilterClickUrl | user/app.js:98-103 | the "All Products" button loads the bare products URL; a category button loads the listing filtered by its id |
| Storefront.SortClickUrl | user/app.js:110-112 | under "All Products" a sort sends no category id; under a category it sends that category's id with the sort |
| Storefront.SortKeepsActiveFilter | user/app.js:93-113 | sorting under "All Products" sends only `sort`. Sorting under a category sends its id first, then `sort`. A category click sends its id, and "All Products" sends no parameters |
| Storefront.CategoryCards | user/app.js:117-137 | one category card per category, in order, with the image or the placeholder |
| AdminPanel.CurrentPage | admin/app.js:2 | the page name holds no `/` |
| AdminPanel.CurrentPageOfPath | admin/app.js:2 | the page name of a path ending in `/name` is `name`, and "" for a directory |
| AdminPanel.AuthRedirect | admin/app.js:6-12 | without a token every page but login.html goes to login.html. With a token, login.html goes to index.html. Otherwise nothing happens |
| AdminPanel.RedirectSettles | admin/app.js:6-12 | the page a redirect leads to redirects no further for the same token |
| AdminPanel.Logout | admin/app.js:37-40 | exactly `adminToken` is removed and the target is login.html |
| AdminPanel.PrepareRequest | admin/app.js:42-51 | the URL is the origin plus the path. Every caller header is kept unless overridden. The token header is present exactly when a token is held, and the JSON content type exactly when a truthy non-form body is serialized. A form body passes unchanged |
| AdminPanel.FetchApi | admin/app.js:37-57 | 401 and 403 remove `adminToken`, go to login.html and yield null. Every other status yields the response and leaves storage unchanged |
| AdminPanel.Route | admin/app.js:73 | a handler runs exactly when the page is a key of the route table, and the page is one of that handler's pages |
| AdminPanel.RouteServesPages | admin/app.js:60-73 | a page runs handler h exactly when it is one of h's pages; a page that is no handler's runs nothing |
| AdminPanel.RootIsDashboard | admin/app.js:60-73 | the panel's directory path and index.html both run the dashboard loader |
| AdminPanel.CategoryForm | admin/app.js:197-210 | the form carries the name as typed, plus the first file as `image` only when one was picked |
| AdminPanel.SubmitCategory | admin/app.js:198-210 | a name that is blank after trim is refused before any request; otherwise the category form is sent |
| AdminPanel.CategoryRequestIsMultipart | admin/app.js:47-51 | a form request sends the form itself and sets no JSON content type, whatever token is held |
| AdminPanel.VendorCells | admin/app.js:84-91 | eight cells, none holding a button yet |
| AdminPanel.VendorRowAsWritten | admin/app.js:84-97 | as written: the phone cell gets the vendor's Approve button exactly when `is_approved` is falsy, and every other cell is the markup alone |
| AdminPanel.VendorRow | admin/app.js:84-97 | corrected: the actions cell gets the vendor's Approve button exactly when `is_approved` is falsy, and every other cell is the markup alone |
| AdminPanel.ApproveOnlyUnapproved | admin/app.js:92-97 | a row holds one Approve button, for that vendor, exactly when `is_approved` is falsy |
| AdminPanel.ApproveLandsInPhoneCell | admin/app.js:89-96 | as written, a pending vendor's button goes into the phone cell and the actions cell stays empty |
| AdminPanel.ApproveInActionsCell | admin/app.js:91-96 | in the corrected row the button sits in the actions cell and every other cell is the markup alone |
| AdminPanel.VendorTable | admin/app.js:82-98 | one corrected row (VendorRow, the button in the actions cell) per vendor, in order; the as-written row is VendorRowAsWritten |
| VendorPanel.Dispatch | vendor/app.js:3-12 | the first present element, in the order register form, login form, products table, dashboard container, picks the only handler; none runs when none is present |
| VendorPanel.DispatchPrecedence | vendor/app.js:7-11 | the products page runs only the products handler even though it carries the dashboard container |
| VendorPanel.CheckAuth | vendor/app.js:16-36 | malformed user text throws even without a token. A session needs a truthy token and a truthy user, and it returns both unchanged. Anything else redirects |
| VendorPanel.Logout | vendor/app.js:30-34 | exactly `token` and `user` are removed and the target is /vendor/login.html |
| VendorPanel.LoggedOutRedirects | vendor/app.js:16-34 | after logout, checkAuth redirects |
| VendorPanel.LastValue | vendor/app.js:58-61 | a property read finds the key's value, or undefined when no field has it |
| VendorPanel.DashboardOf | vendor/app.js:53-75 | a non-ok response, an unparsable body or a null body shows nothing. Otherwise the banner is `status-banner approved` exactly when `is_approved` is truthy, and `status-banner pending` otherwise |
| VendorPanel.ProductTableOf | vendor/app.js:87-106 | a non-ok response or a product with a null image leaves only the error row. Otherwise there is one row per product in order, whose image is the first comma segment, untrimmed |
| VendorPanel.RowImage | vendor/app.js:96 | the row image is the uploads URL followed by comma-free text, and the whole field when the field holds no comma |
| VendorPanel.RowImageIsFirstSegment | vendor/app.js:96 | the row image is everything before the first comma, with no trimming, or the whole field when there is no comma |
| VendorPanel.AssembleProductForm | vendor/app.js:115-124 | name, description, price and quantity in that order, then one `images` entry per selected file in selection order |
| VendorPanel.ProductFormFields | vendor/app.js:115-124 | the server reads each text field as entered and no category, and `getlist('images')` gives exactly the selected files |
| DataFlow.CardShowsFirstStoredImage | user/app.js:34-59 | a product saved with list-safe images shows its first stored name on its card |
| DataFlow.NoUploadShowsPlaceholder | backend/app.py:134-144 | without a kept upload the image field is empty, and the card shows the placeholder |
| DataFlow.DetailShowsEveryStoredImage | user/app.js:156-171 | the detail page shows every stored image in upload order, with controls exactly when more than one was stored |
| DataFlow.VendorRowAgreesWithCard | vendor/app.js:96 | the vendor table's untrimmed first image equals the storefront card's trimmed one for a backend-written field |
| DataFlow.CardShowsFirstUpload | backend/app.py:134-144 | a product saved from safe uploads whose first was kept shows that upload's stored name on its card |
| DataFlow.DetailShowsEveryUpload | backend/app.py:134-144 | a product saved from safe uploads, one of them kept, has one detail slide per stored name, in upload order |
| DataFlow.DecimalRoundTrip | user/app.js:88 | the id a filter button writes reads back as the same INTEGER id |
| DataFlow.DecimalValueOfText | user/app.js:88 | the decimal value of `${n}` is n |
| DataFlow.CategoryButtonSelectsItsCategory | backend/app.py:96-102 | a category button's id finds that category, and the listing filters on its name |
| DataFlow.VendorFormFilesAreStored | vendor/app.js:121-124 | the vendor's selected files reach `getlist('images')`, and a named first file is stored first |
| Text.Join | backend/app.py:144 | no parts give the empty string, and one part gives that part |
| Text.Trim | user/app.js:34 | the result has no whitespace at either end and is no longer than the input |
| Text.Split | user/app.js:34 | at least one segment, and no segment holds the separator |
| Text.TrimIdempotent | user/app.js:34 | trimming twice is trimming once |
| Text.TrimStartDropsWhitespace | user/app.js:34 | everything `trim` drops at the front is whitespace |
| Text.TrimEndDropsWhitespace | user/app.js:34 | everything `trim` drops at the back is whitespace |
| Text.JoinSplit | user/app.js:156 | joining the segments with the separator gives the string back |
| Text.SplitJoin | user/app.js:156 | splitting a join of separator-free parts gives the parts back |
| Text.SplitTrimJoin | user/app.js:156-158 | splitting the backend's `", "`-join on `,` and trimming each segment recovers the names, for names with no comma and no surrounding blanks |
| Text.FirstSegmentOfJoin | user/app.js:34 | the first segment of a `", "`-join is the first name |
| Text.SplitCount | user/app.js:162 | the number of segments is one more than the number of commas |
| Text.SplitAppend | admin/app.js:2 | splitting at a separator splits the two sides independently |
| Js.Slice | user/app.js:19 | `slice` takes the elements between the resolved start and end, or none |
| Js.FilesUnder | vendor/app.js:122-124 | `getlist` gives only files appended under that key |
| Js.FirstText | admin/app.js:207 | `form.get` gives a text appended under that key, or null when there is none |
| Js.FirstTextAt | admin/app.js:207 | `form.get` finds the first text appended under that key |
| Js.LocalStorage.GetItem | admin/app.js:3 | an item is present exactly when its key is stored, with that value |

## Left out

- SQL execution is not modelled. The queries are modelled as strings with parameter lists. The rows come from the `Database` maps, and the count is the number of matching rows.
- Flask routing, sqlite connections, schema creation and migration are not modelled. Nor are the endpoints beyond the core: the uploads route, get_product, delete_product, get_categories, add_category, delete_category and the three order endpoints. The admin and vendor login and registration endpoints the panels call are not in backend/app.py; that server is not part of this model.
- Backend.Database.UpdateCategory: the image file is saved before the UPDATE fails, so a rejected rename leaves a stored upload behind. File storage is not modelled.
- Uploads keep the extension as the client sent it (Backend.ClientExtensionKept), so a file name whose extension holds a comma or ends in a blank breaks the comma-separated image field. The readers' lemmas assume safe uploads (Backend.SafeUpload).
- Backend.Database.GetProducts: a `per_page` or offset outside sqlite's 64-bit integers makes the data query's parameter binding raise OverflowError. The model's integers are unbounded and it returns a Listing there.
- AdminPanel.PrepareRequest: header names are case-sensitive map keys, whereas fetch's Headers merges names that differ only in case, such as `content-type` and `Content-Type`.
- AdminPanel.VendorTable: the table is built from the corrected row. The as-written placement is VendorRowAsWritten (see Findings).
- Backend.CategoryIdValue: sqlite's text-to-integer conversion is modelled only for plain digit strings. Other numeric forms such as `" 3"` or `"3.0"` are treated as not matching.
- `request.args.get(..., type=int)` is modelled as a typed argument. It is None when absent or not an integer.
- Image resizing with PIL, the `uuid4` call and the file save and remove are left out, because they are library calls and filesystem I/O. The uuid is a parameter of each upload.
- The price is an integer, not a float. `float(...)` parsing is modelled only in the outcomes absent, malformed and value. `toFixed(2)` formatting is not modelled.
- The quantity field of the vendor form is modelled as sent. The backend's add_product never reads it.
- `JSON.stringify` and `JSON.parse` are library calls. The serialized body is kept symbolic, and parsing is a function parameter.
- `fetch`, `response.json()` and the async ordering of page loads are network I/O and event-loop concurrency. A response is a value, or a function parameter standing for the server.
- The DOM, `innerHTML` markup, CSS classes other than the active and banner decisions, `console`, `confirm` and `alert` are not modelled. Navigation is a returned target.
- AdminPanel.FetchApi: `fetchAPI` also overwrites the caller's `options.body` with the serialized text. That aliasing of the caller's object is not modelled.
- AdminPanel.FetchApi: the token is read once at page load, so a later call still sends that token after a 401 has cleared storage. The model takes the token as a parameter and leaves this read-once behaviour implicit.
- AdminPanel.Route: the route table is modelled as a map, so names inherited from `Object.prototype`, such as `constructor`, are not handlers here.
- The admin panel calls `checkAuth` both inside the categories handler and at the end of loading. The second call repeats the first decision, so it is not modelled separately.
- The stub handlers hold no logic and are left out. These are the vendor register and login handlers, admin addProduct, and loadDashboardSummary.
- The admin login handler is not modelled. On a successful reply it stores `adminToken` (the token AuthRedirect and FetchApi read) and goes to index.html; otherwise it shows the error text. The model takes the stored token as given.
- Some admin code only sends a fixed request and copies fields into markup: loadProducts, loadOrders, approveVendor and the category table of the categories page. It lies outside the modelled rules and is left out.
- Storefront.FormUrlEncode: lone surrogates are not modelled, because Dafny's `char` is a Unicode scalar value.
- VendorPanel.ProductTableOf: a `null` price or a non-array `data` would also throw. Prices are integers here and `data` is a list.

## Findings

| source | as written | input that shows it | evidently intended | confidence | as-written member | corrected member |
|---|---|---|---|---|---|---|
| admin/app.js:96 | the Approve button is appended to `row.cells[5]`, the phone column | any vendor with `is_approved` 0: the button sits beside the phone number and the `actions` cell (index 7) stays empty | append it to the `actions` cell, `row.cells[7]`, which the row markup leaves empty for it | medium, not executed | AdminPanel.VendorRowAsWritten (AdminPanel.ApproveLandsInPhoneCell) | AdminPanel.VendorRow (AdminPanel.ApproveInActionsCell, used by AdminPanel.VendorTable) |
