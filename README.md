# Dolomon admin user list, modelled in Dafny

This project models the client-side view-model of the Dolomon admin console's
user list (`themes/default/public/js/dolomon-admin.js`), the page that lists
registered users in a sortable, searchable, paginated table. Three pieces of
logic live there, each in a module of its own, and a fourth module wires them
into the page's event handlers:

- `UserRequest` (`request.dfy`): `getUserData` builds the request object
  `{page, nb, sort_by, dir}` and adds `search` only when the search argument is
  not `undefined`, `null` or `''`. The object is a `map<string, JsValue>`, and
  `JsValue` (`js.dfy`) distinguishes `undefined`, `null`, numbers and strings.
- `Pagination` (`pagination.dfy`): the success callback renders the pagination
  bar from the page number and the page count the server returns. The bar is a
  sequence of `Item`s: Prev, an optional leading `???` marker, the numbered
  links, an optional trailing `???` marker, and Next. `BuildBar` is the
  callback's loop, proved equal to the reference `Bar`. The lemmas state the
  bar's shape: where Prev and Next point, which pages are linked, where the
  markers go, and which page is active.
- `SortHeaders` (`sorting.dfy`): the eight column headers. One of them holds
  the caret, and any number of them carry the `dropup` class. `Toggle` is what
  a click on a header does. The other handlers derive the direction as "ASC iff
  any header has `dropup`" (`ListedDir`). Switching columns leaves the old
  `dropup` in place, so that derived direction can disagree with what the click
  just sent. The lemmas state this exactly.
- `UserList` (`view.dfy`): the class `UserListView` holds the page's mutable
  state: caret, `dropup` set, rendered bar, search-box text, and the log of
  requests issued. Its methods are the page's handlers: document ready,
  rendering a response, a header click, typing in the search box, the clear
  button, and a click on a pagination anchor.

Three behaviours of the code are worth knowing, and the model keeps them as
written:

- The trailing marker is not the mirror of the leading one: it appears iff
  `page < 3 && nb_pages > 5` (`BarGaps`, `TrailingGapAsymmetric`).
- Reselecting a column that kept its `dropup` from earlier sends DESC, and the
  next click on it removes the flag and sends DESC again
  (`ReselectSendsDescTwice`).
- With `nb_pages == 0` and `page == 1`, there are no numbered links and Next is
  enabled toward page 2 (`BarEnds`).

## Model

| member | source | states |
|---|---|---|
| `UserRequest.GetUserData` | themes/default/public/js/dolomon-admin.js:36-40 | the request always carries `page`, `nb`, `sort_by`, `dir` with the given values, and carries `search`, with the given value, iff the argument is not undefined, null or the empty string |
| `Pagination.BuildBar` | themes/default/public/js/dolomon-admin.js:101-134 | the loop over pages 1..nb_pages, keeping those within two of the current page, yields exactly the reference bar `Bar(page, nbPages)` |
| `Pagination.LinksShape` | themes/default/public/js/dolomon-admin.js:114-122 | the numbered window from lo to hi has hi-lo+1 links (none if lo > hi), and the k-th one is page lo+k, active iff it is the current page |
| `Pagination.WindowStep` | themes/default/public/js/dolomon-admin.js:114-122 | one iteration of the scan over page i adds the link for i, active iff i is the current page, exactly when i is within two of the current page, and leaves the window unchanged otherwise |
| `Pagination.BarAt` | themes/default/public/js/dolomon-admin.js:102-134 | the bar's length and the item at each position: Prev, the leading marker, the k-th page of the window, the trailing marker, Next |
| `Pagination.BarEnds` | themes/default/public/js/dolomon-admin.js:105-128 | Prev is first and disabled iff page == 1, otherwise it targets page-1; Next is last and disabled iff page == nb_pages, otherwise it targets page+1; every item in between is a marker or a link |
| `Pagination.BarLinks` | themes/default/public/js/dolomon-admin.js:114-122 | the linked pages are exactly the i with 1 <= i <= nb_pages and page-2 <= i <= page+2, strictly increasing, and a link is active iff it is the current page |
| `Pagination.BarGaps` | themes/default/public/js/dolomon-admin.js:111-125 | the leading and trailing markers never both appear; the leading one sits right after Prev iff page > 4 && nb_pages > 5; the trailing one sits right before Next iff page < 3 && nb_pages > 5; there is no other `???` |
| `Pagination.TrailingGapAsymmetric` | themes/default/public/js/dolomon-admin.js:111-125 | the rendered bars for page 1 of 10 (trailing marker for pages 4-10) and page 5 of 10 (leading marker for pages 1-2, no marker for the hidden pages 8-10) |
| `Pagination.FirstActive` | themes/default/public/js/dolomon-admin.js:168 | the page read from the active link is None iff no link is active, and otherwise it is the page of the first active link in the bar |
| `Pagination.ActiveOfBar` | themes/default/public/js/dolomon-admin.js:117 | reading the active link back from a rendered bar gives the current page if 1 <= page <= nb_pages, and nothing otherwise |
| `SortHeaders.ColumnNamed` | themes/default/public/js/dolomon-admin.js:174-180 | a header is found for a name iff one of the eight headers has that id, and it is that header |
| `SortHeaders.InitialHeaders` | themes/default/public/js/dolomon-admin.js:174-177 | after page load the caret is on the settings' column, and only that column carries `dropup`, iff the settings' direction is ASC |
| `SortHeaders.Toggle` | themes/default/public/js/dolomon-admin.js:153-167 | after a click the caret is on the clicked header; on the caret header its `dropup` flips; on another header no `dropup` changes; ASC is sent iff the caret header gained `dropup`, and DESC otherwise |
| `SortHeaders.ToggleKeepsAgreement` | themes/default/public/js/dolomon-admin.js:153-169 | while only the caret header may carry `dropup`, a click that does not switch away from a `dropup` column keeps that so, and the derived direction equals the one sent |
| `SortHeaders.SwitchKeepsStaleDropup` | themes/default/public/js/dolomon-admin.js:164-167 | switching columns while some header has `dropup` sends DESC, but later search, clear and pagination requests derive ASC |
| `SortHeaders.ToggleTwice` | themes/default/public/js/dolomon-admin.js:157-163 | two clicks on the caret header restore the header state and send opposite directions |
| `SortHeaders.ReselectSendsDescTwice` | themes/default/public/js/dolomon-admin.js:155-167 | returning to a column that kept its `dropup` sends DESC, and the next click on it sends DESC again |
| `UserList.UserListView.Ready` | themes/default/public/js/dolomon-admin.js:171-177 | page load issues one request with the settings' page, size, column and direction and the search box's text, and sets the headers as `InitialHeaders` says |
| `UserList.UserListView.Render` | themes/default/public/js/dolomon-admin.js:101-136 | a response replaces the bar with `Bar(page, nb_pages)`, whose active page is the current page if it exists |
| `UserList.UserListView.ToggleSort` | themes/default/public/js/dolomon-admin.js:153-169 | a header click updates the headers as `Toggle` says and requests the active page, 10 rows, the clicked column and the direction sent, and the search text if it is not empty |
| `UserList.UserListView.SearchInput` | themes/default/public/js/dolomon-admin.js:183-191 | typing requests page 1, 10 rows, the caret column and ASC iff some header has `dropup`, and passes the text iff it is not empty |
| `UserList.UserListView.Clear` | themes/default/public/js/dolomon-admin.js:193-202 | clearing empties the box and requests page 1, 10 rows, the caret column, the derived direction, and no search |
| `UserList.UserListView.ClickPage` | themes/default/public/js/dolomon-admin.js:137-147 | a pagination click requests the anchor's data-page (undefined for disabled anchors and markers), 10 rows, the caret column, the derived direction, and no search |

## Left out

- `removeUser` and `impersonateUser` (dolomon-admin.js:1-34): AJAX calls whose outcome the server decides, followed by a row removal or a redirect.
- The HTTP transport of `getUserData` and jQuery's serialisation of the parameter object: the model stops at the object handed to `$.ajax`.
- The user rows (dolomon-admin.js:52-98): HTML templating into the DOM. The rows follow the order of the server's `users` array. Date formatting with `moment` uses a foreign library and floating point.
- `parseInt(data.page)`: the page and the page count are taken to be integers.
- The `active` class the pagination click adds to the clicked anchor (dolomon-admin.js:140-141). Nothing reads it, because `toggleSort` looks for `li.active`.
- `$('.dropup')` counts every element of the document with that class. The model counts only the eight headers.
- `$('#' + settings.sortBy)`: a settings column that is not one of the eight headers leaves no caret. The model does not represent other elements with that id, or selector syntax in the name.
- Ordering between overlapping requests: the code has none, and responses are applied in the order they arrive. The model has no asynchrony.
- `themes/default/public/js/dolomon.js` (the link, category, tag and application dialogs) is not part of this model.
