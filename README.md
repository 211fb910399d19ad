# My Library widget: a Dafny model

This project models the core of the Sakai OAE "My Library" dashboard widget
(`devwidgets/mylibrary/javascript/mylibrary.js`). The widget lists a user's
content items with paging, sorting, a live text filter and bulk removal. Two
parts of it carry logic, and both are modelled:

- **The result-to-view-item mapper** (module `LibraryItems`). It covers the
  helpers nested in `getLibraryItems`: `formatTags`, `getNumComments`,
  `getNumPeopleUsing`, `getNumGroupsUsing`, and the item record
  `handleLibraryItems` builds for each search result. A raw result is a
  datatype whose properties may each be missing. The push loops of
  `formatTags`, `getNumComments` and the `$.each` over the results are methods
  with loops. Each is proved against a specification function, or against the
  field-by-field predicate `Describes`.
- **The list-state controller** (module `Controller`). The widget's single
  `mylibrary` record is the class `MyLibrary`. The class also holds the page
  state the handlers switch: rendered items, row checkboxes, "select all",
  the remove button's enabled flag, the visible panels and the pager. Each
  handler is a method whose `modifies` clause names exactly the fields it
  may change. Its `ensures` clauses state the new values of those fields.

`JsValues` holds the JavaScript semantics the widget depends on:

- properties that may be undefined
- `"..." + undefined`
- string truthiness and `||`
- `indexOf`
- `split(sep)[1]`
- jQuery's `$.trim`

`Paging` holds the `Math.ceil` page count.

The listing fetch is asynchronous in the widget. In the model, a handler that
starts a fetch returns the `ListRequest` it would send. `FetchCompleted` models
the response arriving, with the response passed in as a value.

Other services the widget calls are parameters that the model does not
interpret (the `Env` datatype and `Render`'s `checkboxId` parameter):

- the i18n lookup `sakai.api.i18n.General.getValueForKey`
- `sakai.api.Content.getMimeTypeData`
- `$.timeago`
- the list template's checkbox ids

In some places the code behaves in ways one might not expect. The model
follows the code in each of them:

- An empty `sakai:tags` array is truthy in JavaScript. `formatTags` therefore
  returns an empty list for it, not null. Only a missing tag list gives null.
- Changing the sort keeps the current page. `reset()` does not touch
  `currentPagenum`.
- `reset()` carries no query. A page change, a sort change, a delete or an
  upload therefore requests `q = "*"`, which drops any live-filter text
  (`ShowPage` and `SortChanged` state `req.q == "*"`).
- `showPager` never hides the pager. When there is at most one page it leaves
  the previous pager as it was.
- `getNumComments` counts every key of the `<jcr:path>/comments` object that
  contains `/comments/`. It does not check that the key lies under the item's
  own path.
- After "select all" is checked while no rows are listed (the list is
  reloading), the remove button is enabled with no row checked. "Remove
  enabled ⇔ some row checked" (`SelectionConsistent`) therefore holds only
  conditionally, as the contracts of `CheckAllChanged` and `Render` state.

## Model

| member | source | states |
|---|---|---|
| `JsValues.IndexOf` | devwidgets/mylibrary/javascript/mylibrary.js:287 | `indexOf` yields the first position where the text occurs, or none when it occurs nowhere |
| `JsValues.SplitSecondAfterSeparator` | devwidgets/mylibrary/javascript/mylibrary.js:157 | splitting `sep + x` on `sep` and taking piece 1 gives `x` back when `x` does not contain `sep` |
| `JsValues.TrimEmpty` | devwidgets/mylibrary/javascript/mylibrary.js:186 | `$.trim(s)` is empty exactly when `s` is all white space |
| `LibraryItems.FormatEach` | devwidgets/mylibrary/javascript/mylibrary.js:241-248 | one tag per name, in order, with `name` the tag and `link` = `/search#tag=/tags/` + tag |
| `LibraryItems.FormatTags` | devwidgets/mylibrary/javascript/mylibrary.js:237-249 | a missing tag list gives a missing result, otherwise one entry per tag in order with that name and search link |
| `LibraryItems.CommentCount` | devwidgets/mylibrary/javascript/mylibrary.js:279-293 | 0 for a missing item or one without a `<jcr:path>/comments` object; otherwise at most the number of keys of that object |
| `LibraryItems.GetNumComments` | devwidgets/mylibrary/javascript/mylibrary.js:279-293 | the counting loop returns the number of keys of the comments object that contain `/comments/` (`CommentCount`) |
| `LibraryItems.NumPeopleUsing` | devwidgets/mylibrary/javascript/mylibrary.js:257-260 | the number of people using an item is always 0 (the feed does not supply it) |
| `LibraryItems.NumGroupsUsing` | devwidgets/mylibrary/javascript/mylibrary.js:268-271 | the number of groups using an item is always 0 (the feed does not supply it) |
| `LibraryItems.MimeTypeOf` | devwidgets/mylibrary/javascript/mylibrary.js:323 | `_mimeType` when it is present and not empty, else `sakai:custom-mimetype` |
| `LibraryItems.OwnerName` | devwidgets/mylibrary/javascript/mylibrary.js:315-318 | the translated "YOU" when the owner id equals the viewer id, otherwise the raw owner id |
| `LibraryItems.BuildItem` | devwidgets/mylibrary/javascript/mylibrary.js:307-325 | the built item satisfies `Describes`: id = `jcr:path`, link = `/content#content_path=/p/` + path, type label and icon from the mimetype lookup, owner label, formatted tags, people and group counts 0, comment count, raw record kept |
| `LibraryItems.MapResults` | devwidgets/mylibrary/javascript/mylibrary.js:306-326 | one item per result, in server order, each described by `Describes` |
| `Paging.PageCount` | devwidgets/mylibrary/javascript/mylibrary.js:101-104 | the result is the ceiling of total / page size: `(n-1)*size < total <= n*size` |
| `Paging.MoreThanOnePage` | devwidgets/mylibrary/javascript/mylibrary.js:101 | more than one page exactly when total > page size |
| `Controller.SortFor` | devwidgets/mylibrary/javascript/mylibrary.js:170-181 | the field is always `_lastModified`; the order is `asc` exactly for `lastModified_asc`, and `desc` for every other value |
| `Controller.FilterGate` | devwidgets/mylibrary/javascript/mylibrary.js:185-192 | the live filter fires exactly when the key is not Shift and the text has a non-space character |
| `Controller.DeletePath` | devwidgets/mylibrary/javascript/mylibrary.js:157 | every delete path starts with `/p/` |
| `Controller.DeletePathOfRow` | devwidgets/mylibrary/javascript/mylibrary.js:157 | a checkbox id `mylibrary_check_<x>` deletes `/p/<x>` when `x` does not contain the prefix |
| `Controller.CheckedPaths` | devwidgets/mylibrary/javascript/mylibrary.js:153-158 | at most one path per row; non-empty exactly when some row is checked; every path starts with `/p/`; the paths are exactly those of the checked rows (`CheckedRowSent`, `SentPathOfCheckedRow`) |
| `Controller.CheckedRowSent` | devwidgets/mylibrary/javascript/mylibrary.js:153-158 | the delete path of every checked row is among the paths sent |
| `Controller.SentPathOfCheckedRow` | devwidgets/mylibrary/javascript/mylibrary.js:153-158 | every path sent is the delete path of some checked row |
| `Controller.MyLibrary.constructor` | devwidgets/mylibrary/javascript/mylibrary.js:41-49 | initial record: 0 items, page 1, sort `_lastModified` `desc`, not owner viewing; page size 8 |
| `Controller.MyLibrary.GetLibraryItems` | devwidgets/mylibrary/javascript/mylibrary.js:339-348 | built from the state without changing it: page = current page - 1, 8 items, current sort field and order, `q` the query when truthy else `*` (never empty) |
| `Controller.MyLibrary.DoInit` | devwidgets/mylibrary/javascript/mylibrary.js:403-420 | without a library user id nothing changes and nothing is fetched; otherwise owner-viewing becomes true when that id is the viewer's, page 1, and a fetch with `q = *` |
| `Controller.MyLibrary.Reset` | devwidgets/mylibrary/javascript/mylibrary.js:75-81 | clears the list and rows, unchecks select-all, disables remove (selection consistent), and requests the given query |
| `Controller.MyLibrary.ShowPager` | devwidgets/mylibrary/javascript/mylibrary.js:99-108 | sets the page; draws the pager with page count = ceiling exactly when total > 8, otherwise leaves it |
| `Controller.MyLibrary.ShowPage` | devwidgets/mylibrary/javascript/mylibrary.js:88-92 | sets the page to n, updates the pager, resets, and requests page n - 1 with `q = *` |
| `Controller.MyLibrary.CheckChanged` | devwidgets/mylibrary/javascript/mylibrary.js:134-140 | checking a row enables remove; unchecking disables it only when no row stays checked; keeps remove-enabled ⇔ some row checked |
| `Controller.MyLibrary.CheckAllChanged` | devwidgets/mylibrary/javascript/mylibrary.js:142-150 | sets every row and remove to the select-all value; consistent whenever rows exist |
| `Controller.MyLibrary.RemoveClicked` | devwidgets/mylibrary/javascript/mylibrary.js:152-160 | sends a non-empty path list exactly when some row is checked, namely `CheckedPaths` of the rows; changes nothing |
| `Controller.MyLibrary.DeleteCompleted` | devwidgets/mylibrary/javascript/mylibrary.js:161-166 | success sets page 1 and resets; failure changes nothing and fetches nothing |
| `Controller.MyLibrary.SortChanged` | devwidgets/mylibrary/javascript/mylibrary.js:170-183 | sort state = `SortFor(selection)`; page and total unchanged; resets |
| `Controller.MyLibrary.LiveFilterKeyUp` | devwidgets/mylibrary/javascript/mylibrary.js:185-192 | when the gate fires: working style on, reset, request with the trimmed text; otherwise nothing changes |
| `Controller.MyLibrary.HandleLibraryItems` | devwidgets/mylibrary/javascript/mylibrary.js:298-336 | failure or no `results`: `(false, null)` and total unchanged; total 0: `(true, [])`; otherwise total recorded and one described item per result in order |
| `Controller.MyLibrary.Render` | devwidgets/mylibrary/javascript/mylibrary.js:357-392 | a non-empty list is shown with fresh rows, none checked, admin actions only for the owner, and the pager; otherwise the empty panel is shown, the admin actions are hidden, and add-content is shown only for the owner |
| `Controller.MyLibrary.FetchCompleted` | devwidgets/mylibrary/javascript/mylibrary.js:298-392 | the page is unchanged. The total is kept on failure and recorded otherwise. The empty panel shows exactly when the fetch failed, the total was 0 or there were no results; then chrome and admin actions are hidden, add-content is shown only for the owner, and list, rows, pager and working style are kept. Otherwise the list holds one described item per result with fresh unchecked rows, the chrome is shown, the working style is cleared, admin actions are shown for the owner, and the pager is drawn when total > 8 |
| `Controller.MyLibrary.UploadCompleted` | devwidgets/mylibrary/javascript/mylibrary.js:427-430 | sets page 1, resets, and requests page 0 |
| `Controller.MyLibrary.UserIsManager` | devwidgets/mylibrary/javascript/mylibrary.js:365-368 | an item is managed exactly when its owner id is the viewer's; on the owner's own page that means it belongs to the library's user |
| `Controller.MyLibrary.UserIsOwner` | devwidgets/mylibrary/javascript/mylibrary.js:361-364 | implies `user_is_manager`; under the class invariant, an item counts as owned only if it belongs to the library's own user |

## Left out

- DOM work the model does not represent: template output, the empty-state
  text, `getPersonalizedText` with its `${firstname}` substitution and bundle
  lookups, and `default_search_text`.
- The live filter's focus and blur placeholder handling (lines 194-208) and
  the add-content button (lines 210-213), which only trigger window events.
- The network, `sakai.api.Server.loadJSON`, and the race in which a slow
  earlier response renders after a newer one. Each response is handled as a
  value, in the order given.
- `debug.error` and `debug.warn` logging, and `widgetLoader.informOnLoad`.
- The "select all" handler selects `.mylibrary_check` across the whole page,
  not just this widget. The model has one widget instance.
- The library's user id (`sakai_global.profile.main.data.homePath`, read on
  every `reset`) and the viewer's id (`sakai.data.me.user.userid`, read on
  every response and template call) are read once, when `MyLibrary` is
  created. A change of either during the widget's lifetime is not modelled.
- The initial HTML is not part of this model. The constructor starts with
  every panel hidden, no rows, and remove disabled.
- `data.total` is an integer here. A response without `total` (undefined in
  JavaScript) is not modelled.
- `IsSpace` covers the ES5 white-space and line-terminator characters. It
  does not follow every browser's regular-expression engine.
