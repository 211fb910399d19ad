/**
 * The list-state controller of the "My Library" dashboard widget: the widget's
 * single `mylibrary` record, the parts of the page its handlers switch on and
 * off, and the handlers themselves.
 *
 * The listing fetch is asynchronous in the widget. Here a handler that starts a
 * fetch returns the request it sends; `FetchCompleted` is the arrival of the
 * response, given as a value.
 */
module Controller {
  import opened JsValues
  import opened LibraryItems
  import Paging

  const SearchUrl := "/var/search/pool/manager-viewer.json"
  /** The only sort field the widget ever uses. */
  const SortField := "_lastModified"
  /** Key code of Shift, which the live filter ignores. */
  const ShiftKeyCode := 16
  /** The id of a row's checkbox is this prefix followed by the row's content id. */
  const CheckboxPrefix := "mylibrary_check_"
  const DeletePathPrefix := "/p/"

  /** The query parameters of a listing request. */
  datatype ListRequest = ListRequest(
    url: string,
    userid: Option<string>,
    page: int,
    items: int,
    sortOn: string,
    sortOrder: string,
    q: string)

  /** A listing response: the total count and, when well formed, the results. */
  datatype Response = Response(total: int, results: Option<seq<RawResult>>)

  /** What the pager widget was last asked to draw. */
  datatype Pager = Pager(pageNumber: int, pageCount: int)

  /** A rendered row's checkbox. */
  datatype Row = Row(checkboxId: string, checked: bool)

  /** The `(sortBy, sortOrder)` pair the sort selector sets for a selected option. */
  function SortFor(selection: string): (r: (string, string))
    ensures r.0 == SortField
    ensures r.1 == "asc" <==> selection == "lastModified_asc"
    ensures r.1 == "asc" || r.1 == "desc"
  {
    if selection == "lastModified_asc" then (SortField, "asc") else (SortField, "desc")
  }

  /** The live filter refetches on a key-up when the trimmed text is not empty and the key is not Shift. */
  predicate FilterFires(value: string, keyCode: int)
  {
    Trim(value) != "" && keyCode != ShiftKeyCode
  }

  lemma FilterGate(value: string, keyCode: int)
    ensures FilterFires(value, keyCode) <==> keyCode != ShiftKeyCode && !AllSpace(value)
  {
    TrimEmpty(value);
  }

  /** doInit's owner decision: the library's user id is set and is the viewer's own. */
  predicate OwnsLibrary(profileUserId: Option<string>, viewerId: Option<string>)
  {
    Truthy(profileUserId) && profileUserId == viewerId
  }

  predicate SomeChecked(rows: seq<Row>)
  {
    exists i :: 0 <= i < |rows| && rows[i].checked
  }

  /** The content path the remove button sends for a checked row. */
  function DeletePath(checkboxId: string): (path: string)
    ensures DeletePathPrefix <= path
  {
    DeletePathPrefix + Text(SplitSecond(checkboxId, CheckboxPrefix))
  }

  /** A row rendered with checkbox id `mylibrary_check_<x>` deletes the content `/p/<x>`. */
  lemma DeletePathOfRow(x: string)
    requires !Contains(x, CheckboxPrefix)
    ensures DeletePath(CheckboxPrefix + x) == DeletePathPrefix + x
  {
    SplitSecondAfterSeparator(CheckboxPrefix, x);
  }

  /** The paths of the checked rows, in page order. */
  function CheckedPaths(rows: seq<Row>): (paths: seq<string>)
    ensures |paths| <= |rows|
    ensures SomeChecked(rows) <==> paths != []
    ensures forall p :: p in paths ==> DeletePathPrefix <= p
  {
    if rows == [] then []
    else
      var init, last := rows[..|rows| - 1], rows[|rows| - 1];
      assert SomeChecked(rows) <==> SomeChecked(init) || last.checked by {
        if SomeChecked(init) {
          var i :| 0 <= i < |init| && init[i].checked;
          assert rows[i] == init[i];
        }
        if SomeChecked(rows) && !last.checked {
          var i :| 0 <= i < |rows| && rows[i].checked;
          assert init[i] == rows[i];
        }
      }
      CheckedPaths(init) + if last.checked then [DeletePath(last.checkboxId)] else []
  }

  /** Every checked row's delete path is among the paths the remove button sends. */
  lemma {:induction false} CheckedRowSent(rows: seq<Row>, i: int)
    requires 0 <= i < |rows| && rows[i].checked
    ensures DeletePath(rows[i].checkboxId) in CheckedPaths(rows)
  {
    var init := rows[..|rows| - 1];
    if i < |rows| - 1 {
      assert init[i] == rows[i];
      CheckedRowSent(init, i);
    }
  }

  /** Every path the remove button sends is the delete path of a checked row. */
  lemma {:induction false} SentPathOfCheckedRow(rows: seq<Row>, p: string)
    requires p in CheckedPaths(rows)
    ensures exists i :: 0 <= i < |rows| && rows[i].checked && p == DeletePath(rows[i].checkboxId)
  {
    var init, last := rows[..|rows| - 1], rows[|rows| - 1];
    if p in CheckedPaths(init) {
      SentPathOfCheckedRow(init, p);
      var i :| 0 <= i < |init| && init[i].checked && p == DeletePath(init[i].checkboxId);
      assert rows[i] == init[i];
    } else {
      assert last.checked && p == DeletePath(last.checkboxId);
    }
  }

  /** The rows the list template draws for `items`: one unchecked checkbox each. */
  function RowsFor(items: seq<LibraryItem>, checkboxId: LibraryItem -> string): seq<Row>
  {
    seq(|items|, i requires 0 <= i < |items| => Row(checkboxId(items[i]), false))
  }

  /** A fetch outcome that renders the list rather than the empty state. */
  predicate Populated(success: bool, items: Option<seq<LibraryItem>>)
  {
    success && items.Some? && |items.value| > 0
  }

  class MyLibrary {
    const itemsPerPage: int := 8
    /** The user whose library the page shows (from the profile's home path). */
    const profileUserId: Option<string>
    /** The signed-in viewer. */
    const viewerId: Option<string>

    // The `mylibrary` record.
    var totalItems: int
    var currentPagenum: int
    var sortBy: string
    var sortOrder: string
    var isOwnerViewing: bool

    // The parts of the page the handlers change.
    var listed: seq<LibraryItem>   // the rendered item list
    var rows: seq<Row>             // the rendered rows' checkboxes
    var checkAll: bool             // the "select all" checkbox
    var removeEnabled: bool        // the remove button is enabled
    var filterWorking: bool        // the live filter shows its "working" style
    var chromeShown: bool          // live filter, sort area and title bar are shown
    var emptyShown: bool           // the empty-library panel is shown
    var adminActionsShown: bool
    var addContentShown: bool
    var pager: Option<Pager>

    ghost predicate Valid()
      reads this
    {
      && sortBy == SortField
      && (sortOrder == "asc" || sortOrder == "desc")
      && (isOwnerViewing ==> OwnsLibrary(profileUserId, viewerId))
      && (adminActionsShown ==> isOwnerViewing)
      && (addContentShown ==> isOwnerViewing)
      && |rows| == |listed|
    }

    /** The remove button is enabled exactly when some row is checked. */
    predicate SelectionConsistent()
      reads this
    {
      removeEnabled <==> SomeChecked(rows)
    }

    constructor (profileUserId: Option<string>, viewerId: Option<string>)
      ensures Valid()
      ensures this.profileUserId == profileUserId && this.viewerId == viewerId
      ensures totalItems == 0 && currentPagenum == 1
      ensures sortBy == SortField && sortOrder == "desc" && !isOwnerViewing
      ensures listed == [] && rows == [] && !checkAll && !removeEnabled && !filterWorking
      ensures !chromeShown && !emptyShown && !adminActionsShown && !addContentShown && pager.None?
    {
      this.profileUserId := profileUserId;
      this.viewerId := viewerId;
      totalItems := 0;
      currentPagenum := 1;
      sortBy := SortField;
      sortOrder := "desc";
      isOwnerViewing := false;
      listed := [];
      rows := [];
      checkAll := false;
      removeEnabled := false;
      filterWorking := false;
      chromeShown := false;
      emptyShown := false;
      adminActionsShown := false;
      addContentShown := false;
      pager := None;
    }

    /** The listing request for `userid`; reading the state only. */
    function GetLibraryItems(userid: Option<string>, query: Option<string>): (req: ListRequest)
      reads this
      ensures req.url == SearchUrl && req.userid == userid
      ensures req.page + 1 == currentPagenum
      ensures req.items == itemsPerPage == 8
      ensures req.sortOn == sortBy && req.sortOrder == sortOrder
      ensures req.q != ""
      ensures Truthy(query) ==> req.q == query.value
      ensures !Truthy(query) ==> req.q == "*"
    {
      ListRequest(SearchUrl, userid, currentPagenum - 1, itemsPerPage, sortBy, sortOrder,
                  if Truthy(query) then query.value else "*")
    }

    method DoInit() returns (req: Option<ListRequest>)
      requires Valid()
      modifies this`isOwnerViewing, this`currentPagenum
      ensures Valid()
      ensures !Truthy(profileUserId) ==>
                req.None? && isOwnerViewing == old(isOwnerViewing) && currentPagenum == old(currentPagenum)
      ensures Truthy(profileUserId) ==>
                && isOwnerViewing == (old(isOwnerViewing) || profileUserId == viewerId)
                && currentPagenum == 1
                && req == Some(GetLibraryItems(profileUserId, None))
    {
      if Truthy(profileUserId) {
        if profileUserId == viewerId {
          isOwnerViewing := true;
        }
        currentPagenum := 1;
        req := Some(GetLibraryItems(profileUserId, None));
      } else {
        req := None;
      }
    }

    method Reset(query: Option<string>) returns (req: ListRequest)
      requires Valid()
      modifies this`listed, this`rows, this`checkAll, this`removeEnabled
      ensures Valid()
      ensures listed == [] && rows == [] && !checkAll && !removeEnabled
      ensures SelectionConsistent()
      ensures req == GetLibraryItems(profileUserId, query)
    {
      listed := [];
      rows := [];
      checkAll := false;
      removeEnabled := false;
      req := GetLibraryItems(profileUserId, query);
    }

    method ShowPager(pagenum: int)
      requires Valid()
      modifies this`currentPagenum, this`pager
      ensures Valid()
      ensures currentPagenum == pagenum
      ensures totalItems > itemsPerPage ==>
                pager == Some(Pager(pagenum, Paging.PageCount(totalItems, itemsPerPage)))
      ensures totalItems <= itemsPerPage ==> pager == old(pager)
    {
      currentPagenum := pagenum;
      var pageCount := Paging.PageCount(totalItems, itemsPerPage);
      Paging.MoreThanOnePage(totalItems, itemsPerPage);
      if pageCount > 1 {
        pager := Some(Pager(pagenum, pageCount));
      }
    }

    method ShowPage(pagenum: int) returns (req: ListRequest)
      requires Valid()
      modifies this`currentPagenum, this`pager, this`listed, this`rows, this`checkAll, this`removeEnabled
      ensures Valid()
      ensures currentPagenum == pagenum
      ensures totalItems > itemsPerPage ==>
                pager == Some(Pager(pagenum, Paging.PageCount(totalItems, itemsPerPage)))
      ensures totalItems <= itemsPerPage ==> pager == old(pager)
      ensures listed == [] && rows == [] && !checkAll && !removeEnabled
      ensures req == GetLibraryItems(profileUserId, None) && req.page == pagenum - 1 && req.q == "*"
    {
      ShowPager(pagenum);
      currentPagenum := pagenum;
      req := Reset(None);
    }

    method CheckChanged(i: int, isChecked: bool)
      requires Valid()
      requires 0 <= i < |rows|
      modifies this`rows, this`removeEnabled
      ensures Valid()
      ensures rows == old(rows)[i := Row(old(rows)[i].checkboxId, isChecked)]
      ensures isChecked ==> removeEnabled
      ensures !isChecked ==> removeEnabled == (old(removeEnabled) && SomeChecked(rows))
      ensures old(SelectionConsistent()) ==> SelectionConsistent()
    {
      rows := rows[i := Row(rows[i].checkboxId, isChecked)];
      if isChecked {
        removeEnabled := true;
        assert rows[i].checked;
      } else if !SomeChecked(rows) {
        removeEnabled := false;
      }
      if old(SelectionConsistent()) && !isChecked && SomeChecked(rows) {
        var j :| 0 <= j < |rows| && rows[j].checked;
        assert old(rows)[j].checked;
      }
    }

    method CheckAllChanged(isChecked: bool)
      requires Valid()
      modifies this`rows, this`checkAll, this`removeEnabled
      ensures Valid()
      ensures |rows| == |old(rows)|
      ensures forall j :: 0 <= j < |rows| ==> rows[j] == Row(old(rows)[j].checkboxId, isChecked)
      ensures checkAll == isChecked && removeEnabled == isChecked
      ensures |rows| > 0 ==> SelectionConsistent()
    {
      var before := rows;
      rows := seq(|before|, j requires 0 <= j < |before| => Row(before[j].checkboxId, isChecked));
      checkAll := isChecked;
      removeEnabled := isChecked;
      if |rows| > 0 && isChecked {
        assert rows[0].checked;
      }
    }

    /** The remove button: the paths sent to the delete dialog, or nothing when no row is checked. */
    method RemoveClicked() returns (paths: Option<seq<string>>)
      ensures paths.Some? <==> SomeChecked(rows)
      ensures paths.Some? ==> paths.value == CheckedPaths(rows) && paths.value != []
    {
      if !SomeChecked(rows) {
        return None;
      }
      var acc: seq<string> := [];
      var i := 0;
      while i < |rows|
        invariant 0 <= i <= |rows|
        invariant acc == CheckedPaths(rows[..i])
      {
        assert rows[..i + 1][..i] == rows[..i];
        if rows[i].checked {
          acc := acc + [DeletePath(rows[i].checkboxId)];
        }
        i := i + 1;
      }
      assert rows[..|rows|] == rows;
      paths := Some(acc);
    }

    /** The delete dialog's completion: a successful delete reloads from page 1. */
    method DeleteCompleted(success: bool) returns (req: Option<ListRequest>)
      requires Valid()
      modifies this`currentPagenum, this`listed, this`rows, this`checkAll, this`removeEnabled
      ensures Valid()
      ensures success ==>
                && currentPagenum == 1
                && listed == [] && rows == [] && !checkAll && !removeEnabled
                && req == Some(GetLibraryItems(profileUserId, None))
      ensures !success ==> req.None? && unchanged(this)
    {
      if success {
        currentPagenum := 1;
        var r := Reset(None);
        req := Some(r);
      } else {
        req := None;
      }
    }

    method SortChanged(selection: string) returns (req: ListRequest)
      requires Valid()
      modifies this`sortBy, this`sortOrder, this`listed, this`rows, this`checkAll, this`removeEnabled
      ensures Valid()
      ensures (sortBy, sortOrder) == SortFor(selection)
      ensures currentPagenum == old(currentPagenum) && totalItems == old(totalItems)
      ensures listed == [] && rows == [] && !checkAll && !removeEnabled
      ensures req == GetLibraryItems(profileUserId, None) && req.q == "*"
    {
      var (field, order) := SortFor(selection);
      sortBy := field;
      sortOrder := order;
      req := Reset(None);
    }

    method LiveFilterKeyUp(value: string, keyCode: int) returns (req: Option<ListRequest>)
      requires Valid()
      modifies this`filterWorking, this`listed, this`rows, this`checkAll, this`removeEnabled
      ensures Valid()
      ensures FilterFires(value, keyCode) ==>
                && filterWorking
                && listed == [] && rows == [] && !checkAll && !removeEnabled
                && req == Some(GetLibraryItems(profileUserId, Some(Trim(value))))
      ensures !FilterFires(value, keyCode) ==> req.None? && unchanged(this)
    {
      var q := Trim(value);
      if q != "" && keyCode != ShiftKeyCode {
        filterWorking := true;
        var r := Reset(Some(q));
        req := Some(r);
      } else {
        req := None;
      }
    }

    /** The response of a listing request: records the total and hands the mapped items on. */
    method HandleLibraryItems(success: bool, data: Option<Response>, env: Env)
      returns (ok: bool, items: Option<seq<LibraryItem>>)
      requires Valid()
      modifies this`totalItems
      ensures Valid()
      ensures ok <==> items.Some?
      ensures ok <==> success && data.Some? && data.value.results.Some?
      ensures !ok ==> totalItems == old(totalItems)
      ensures ok ==> totalItems == data.value.total
      ensures ok && data.value.total == 0 ==> items.value == []
      ensures ok && data.value.total != 0 ==>
                && |items.value| == |data.value.results.value|
                && forall i :: 0 <= i < |items.value| ==>
                     Describes(items.value[i], data.value.results.value[i], viewerId, env)
    {
      if success && data.Some? && data.value.results.Some? {
        totalItems := data.value.total;
        if totalItems == 0 {
          return true, Some([]);
        }
        var mapped := MapResults(data.value.results.value, viewerId, env);
        ok, items := true, Some(mapped);
      } else {
        ok, items := false, None;
      }
    }

    method Render(success: bool, items: Option<seq<LibraryItem>>, checkboxId: LibraryItem -> string)
      requires Valid()
      requires success <==> items.Some?
      modifies this`listed, this`rows, this`chromeShown, this`emptyShown, this`adminActionsShown,
               this`addContentShown, this`pager, this`currentPagenum, this`filterWorking
      ensures Valid()
      ensures currentPagenum == old(currentPagenum)
      ensures Populated(success, items) ==>
                && listed == items.value
                && rows == RowsFor(items.value, checkboxId)
                && chromeShown && !emptyShown
                && adminActionsShown == (old(adminActionsShown) || isOwnerViewing)
                && addContentShown == old(addContentShown)
                && (totalItems > itemsPerPage ==>
                      pager == Some(Pager(currentPagenum, Paging.PageCount(totalItems, itemsPerPage))))
                && (totalItems <= itemsPerPage ==> pager == old(pager))
                && !filterWorking
                && !SomeChecked(rows)
      ensures !Populated(success, items) ==>
                && listed == old(listed) && rows == old(rows)
                && !chromeShown && emptyShown && !adminActionsShown
                && addContentShown == (old(addContentShown) || isOwnerViewing)
                && pager == old(pager) && filterWorking == old(filterWorking)
    {
      if Populated(success, items) {
        if isOwnerViewing {
          adminActionsShown := true;
        }
        chromeShown := true;
        emptyShown := false;
        listed := items.value;
        rows := RowsFor(items.value, checkboxId);
        ShowPager(currentPagenum);
        filterWorking := false;
      } else {
        adminActionsShown := false;
        chromeShown := false;
        emptyShown := true;
        if isOwnerViewing {
          addContentShown := true;
        }
      }
    }

    /** A listing response arriving: `HandleLibraryItems` followed by its callback, `Render`. */
    method FetchCompleted(success: bool, data: Option<Response>, env: Env, checkboxId: LibraryItem -> string)
      requires Valid()
      modifies this`totalItems, this`listed, this`rows, this`chromeShown, this`emptyShown,
               this`adminActionsShown, this`addContentShown, this`pager, this`currentPagenum, this`filterWorking
      ensures Valid()
      ensures currentPagenum == old(currentPagenum)
      ensures !(success && data.Some? && data.value.results.Some?) ==> totalItems == old(totalItems)
      ensures success && data.Some? && data.value.results.Some? ==> totalItems == data.value.total
      ensures emptyShown <==>
                !(success && data.Some? && data.value.results.Some?
                  && data.value.total != 0 && |data.value.results.value| > 0)
      ensures emptyShown ==>
                && !chromeShown && !adminActionsShown
                && addContentShown == (old(addContentShown) || isOwnerViewing)
                && listed == old(listed) && rows == old(rows)
                && pager == old(pager) && filterWorking == old(filterWorking)
      ensures !emptyShown ==>
                && rows == RowsFor(listed, checkboxId) && !SomeChecked(rows)
                && chromeShown && !filterWorking
                && adminActionsShown == (old(adminActionsShown) || isOwnerViewing)
                && addContentShown == old(addContentShown)
                && (totalItems > itemsPerPage ==>
                      pager == Some(Pager(currentPagenum, Paging.PageCount(totalItems, itemsPerPage))))
                && (totalItems <= itemsPerPage ==> pager == old(pager))
      ensures !emptyShown ==>
                && totalItems == data.value.total
                && |listed| == |data.value.results.value|
                && forall i :: 0 <= i < |listed| ==> Describes(listed[i], data.value.results.value[i], viewerId, env)
    {
      var ok, items := HandleLibraryItems(success, data, env);
      Render(ok, items, checkboxId);
    }

    /** The upload widget's completion event reloads from page 1. */
    method UploadCompleted() returns (req: ListRequest)
      requires Valid()
      modifies this`currentPagenum, this`listed, this`rows, this`checkAll, this`removeEnabled
      ensures Valid()
      ensures currentPagenum == 1
      ensures listed == [] && rows == [] && !checkAll && !removeEnabled
      ensures req == GetLibraryItems(profileUserId, None) && req.page == 0
    {
      currentPagenum := 1;
      req := Reset(None);
    }

    /** The template's `user_is_manager`: the viewer owns the item. */
    function UserIsManager(item: LibraryItem): (r: bool)
      reads this
      ensures r <==> item.ownerId == viewerId
      ensures Valid() && isOwnerViewing ==> (r <==> item.ownerId == profileUserId)
    {
      viewerId == item.ownerId
    }

    /** The template's `user_is_owner`: the viewer owns the item and the library shown is the viewer's. */
    function UserIsOwner(item: LibraryItem): (r: bool)
      reads this
      ensures r ==> UserIsManager(item)
      ensures Valid() && r ==> item.ownerId == profileUserId && Truthy(profileUserId)
    {
      viewerId == item.ownerId && isOwnerViewing
    }
  }
}
