/**
 * The result-to-view-item mapper nested in `getLibraryItems`: it turns the raw
 * records of the pool search into the items the list template renders
 * (`formatTags`, `getNumComments`, `getNumPeopleUsing`, `getNumGroupsUsing` and
 * the record built for each result in `handleLibraryItems`).
 */
module LibraryItems {
  import opened JsValues

  /** The link prefix of a tag: a search for that tag. */
  const TagSearchPrefix := "/search#tag=/tags/"
  /** The link prefix of an item: its content profile page. */
  const ContentLinkPrefix := "/content#content_path=/p/"
  /** Keys of a comment sub-object that hold a comment contain this. */
  const CommentMarker := "/comments/"

  /**
   * One record of the server's `results` array. Every property may be missing.
   * `nested` holds the record's nested objects by property name, each given by
   * the names of its own properties (their values play no part here).
   */
  datatype RawResult = RawResult(
    path: Option<string>,           // jcr:path
    fileName: Option<string>,       // sakai:pooled-content-file-name
    lastModified: Option<int>,      // _lastModified
    mimeType: Option<string>,       // _mimeType
    customMimeType: Option<string>, // sakai:custom-mimetype
    createdFor: Option<string>,     // sakai:pool-content-created-for
    tags: Option<seq<string>>,      // sakai:tags
    nested: map<string, set<string>>)

  datatype Tag = Tag(name: string, link: string)

  /** What the mimetype lookup returns: an i18n key for the label and an icon URL. */
  datatype MimeTypeData = MimeTypeData(description: string, url: string)

  /** The portal services the mapper calls and this model does not interpret. */
  datatype Env = Env(
    translate: string -> string,                // sakai.api.i18n.General.getValueForKey
    mimeTypeData: Option<string> -> MimeTypeData, // sakai.api.Content.getMimeTypeData
    timeago: Option<int> -> string)             // $.timeago(new Date(...))

  /** The item handed to the list template. */
  datatype LibraryItem = LibraryItem(
    id: Option<string>,
    filename: Option<string>,
    link: string,
    lastUpdated: string,
    typeLabel: string,
    typeIcon: string,
    ownerId: Option<string>,
    ownerName: Option<string>,
    tags: Option<seq<Tag>>,
    numPeopleUsing: nat,
    numGroupsUsing: nat,
    numComments: nat,
    mimeType: Option<string>,
    fullResult: RawResult)

  // ---------------------------------------------------------------------------
  // formatTags

  function TagFor(name: string): Tag
  {
    Tag(name, TagSearchPrefix + name)
  }

  /** The formatted tags of a tag list, one per name, in order. */
  function FormatEach(names: seq<string>): (r: seq<Tag>)
    ensures |r| == |names|
    ensures forall i :: 0 <= i < |r| ==> r[i].name == names[i] && r[i].link == TagSearchPrefix + names[i]
  {
    if names == [] then [] else FormatEach(names[..|names| - 1]) + [TagFor(names[|names| - 1])]
  }

  /** `formatTags`: a missing tag list stays missing; an empty one becomes an empty list. */
  function FormattedTags(tags: Option<seq<string>>): Option<seq<Tag>>
  {
    match tags
    case None => None
    case Some(names) => Some(FormatEach(names))
  }

  method FormatTags(tags: Option<seq<string>>) returns (formatted: Option<seq<Tag>>)
    ensures formatted == FormattedTags(tags)
    ensures formatted.None? <==> tags.None?
    ensures formatted.Some? ==> |formatted.value| == |tags.value|
    ensures formatted.Some? ==> forall i :: 0 <= i < |tags.value| ==>
              formatted.value[i].name == tags.value[i] &&
              formatted.value[i].link == TagSearchPrefix + tags.value[i]
  {
    if tags.None? {
      return None;
    }
    var names := tags.value;
    var list: seq<Tag> := [];
    var i := 0;
    while i < |names|
      invariant 0 <= i <= |names|
      invariant list == FormatEach(names[..i])
    {
      assert names[..i + 1][..i] == names[..i];
      list := list + [TagFor(names[i])];
      i := i + 1;
    }
    assert names[..|names|] == names;
    formatted := Some(list);
  }

  // ---------------------------------------------------------------------------
  // getNumComments

  /** The property of a record that holds its comments: `<jcr:path>/comments`. */
  function CommentsKey(r: RawResult): string
  {
    Text(r.path) + "/comments"
  }

  predicate IsCommentKey(k: string)
  {
    Contains(k, CommentMarker)
  }

  function CommentKeys(keys: set<string>): set<string>
  {
    set k | k in keys && IsCommentKey(k)
  }

  lemma {:induction false} SubsetSize(a: set<string>, b: set<string>)
    requires a <= b
    ensures |a| <= |b|
    decreases |b|
  {
    if a != {} {
      var x :| x in a;
      SubsetSize(a - {x}, b - {x});
    }
  }

  /** The number of comments `getNumComments` reports for an item. */
  function CommentCount(item: Option<RawResult>): (n: nat)
    ensures item.None? ==> n == 0
    ensures item.Some? && CommentsKey(item.value) !in item.value.nested ==> n == 0
    ensures item.Some? && CommentsKey(item.value) in item.value.nested ==>
              n <= |item.value.nested[CommentsKey(item.value)]|
  {
    if item.None? || CommentsKey(item.value) !in item.value.nested then 0
    else
      var props := item.value.nested[CommentsKey(item.value)];
      SubsetSize(CommentKeys(props), props);
      |CommentKeys(props)|
  }

  method GetNumComments(item: Option<RawResult>) returns (count: nat)
    ensures count == CommentCount(item)
  {
    count := 0;
    if item.None? {
      return;
    }
    var key := CommentsKey(item.value);
    if key in item.value.nested {
      var props := item.value.nested[key];
      var remaining := props;
      while remaining != {}
        invariant remaining <= props
        invariant count == |CommentKeys(props - remaining)|
        decreases |remaining|
      {
        var p :| p in remaining;
        ghost var before := CommentKeys(props - remaining);
        if IsCommentKey(p) {
          assert CommentKeys(props - (remaining - {p})) == before + {p};
          count := count + 1;
        } else {
          assert CommentKeys(props - (remaining - {p})) == before;
        }
        remaining := remaining - {p};
      }
      assert props - remaining == props;
    }
  }

  // ---------------------------------------------------------------------------
  // The per-result record

  /** `getNumPeopleUsing`: not available from the feed yet, always 0. */
  function NumPeopleUsing(r: RawResult): (n: nat)
    ensures n == 0
  {
    0
  }

  /** `getNumGroupsUsing`: not available from the feed yet, always 0. */
  function NumGroupsUsing(r: RawResult): (n: nat)
    ensures n == 0
  {
    0
  }

  /** `_mimeType || sakai:custom-mimetype`. */
  function MimeTypeOf(r: RawResult): (m: Option<string>)
    ensures Truthy(r.mimeType) ==> m == r.mimeType
    ensures !Truthy(r.mimeType) ==> m == r.customMimeType
    ensures m.Some? ==> m == r.mimeType || m == r.customMimeType
  {
    Or(r.mimeType, r.customMimeType)
  }

  /** The owner label: the translated "YOU" for the viewer's own items, else the raw owner id. */
  function OwnerName(viewer: Option<string>, r: RawResult, env: Env): (name: Option<string>)
    ensures r.createdFor == viewer ==> name == Some(env.translate("YOU"))
    ensures r.createdFor != viewer ==> name == r.createdFor
  {
    if viewer == r.createdFor then Some(env.translate("YOU")) else r.createdFor
  }

  /** `item` is the record `handleLibraryItems` builds for result `r`, field by field. */
  predicate Describes(item: LibraryItem, r: RawResult, viewer: Option<string>, env: Env)
  {
    var mime := MimeTypeOf(r);
    && item.id == r.path
    && item.filename == r.fileName
    && item.link == ContentLinkPrefix + Text(r.path)
    && item.lastUpdated == env.timeago(r.lastModified)
    && item.typeLabel == env.translate(env.mimeTypeData(mime).description)
    && item.typeIcon == env.mimeTypeData(mime).url
    && item.ownerId == r.createdFor
    && item.ownerName == OwnerName(viewer, r, env)
    && item.tags == FormattedTags(r.tags)
    && item.numPeopleUsing == 0
    && item.numGroupsUsing == 0
    && item.numComments == CommentCount(Some(r))
    && item.mimeType == mime
    && item.fullResult == r
  }

  method BuildItem(r: RawResult, viewer: Option<string>, env: Env) returns (item: LibraryItem)
    ensures Describes(item, r, viewer, env)
  {
    var mime := MimeTypeOf(r);
    var mimeData := env.mimeTypeData(mime);
    var tags := FormatTags(r.tags);
    var comments := GetNumComments(Some(r));
    item := LibraryItem(
      id := r.path,
      filename := r.fileName,
      link := ContentLinkPrefix + Text(r.path),
      lastUpdated := env.timeago(r.lastModified),
      typeLabel := env.translate(mimeData.description),
      typeIcon := mimeData.url,
      ownerId := r.createdFor,
      ownerName := OwnerName(viewer, r, env),
      tags := tags,
      numPeopleUsing := NumPeopleUsing(r),
      numGroupsUsing := NumGroupsUsing(r),
      numComments := comments,
      mimeType := mime,
      fullResult := r);
  }

  /** The `$.each` over `data.results`: one item per result, in the server's order. */
  method MapResults(results: seq<RawResult>, viewer: Option<string>, env: Env) returns (items: seq<LibraryItem>)
    ensures |items| == |results|
    ensures forall i :: 0 <= i < |results| ==> Describes(items[i], results[i], viewer, env)
  {
    items := [];
    var i := 0;
    while i < |results|
      invariant 0 <= i <= |results|
      invariant |items| == i
      invariant forall j :: 0 <= j < i ==> Describes(items[j], results[j], viewer, env)
    {
      var item := BuildItem(results[i], viewer, env);
      items := items + [item];
      i := i + 1;
    }
  }
}
