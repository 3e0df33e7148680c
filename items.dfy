/**
 * The Firestore `items` collection as the items service sees it: the record
 * `createItem` writes, the empty case of `uploadItemImages`, and how
 * `getItems` turns fetched documents into records, re-sorting them newest
 * first when the ordered query is refused for want of an index.
 * Query evaluation, uploads and server timestamps belong to the SDKs; their
 * outcomes arrive here as parameters.
 */
module ItemsService {
  import opened Wrappers
  import opened Seqs

  /** `reportedBy`: who filed the report. */
  datatype Reporter = Reporter(uid: string, name: string, email: string, identifier: string, role: string)

  /**
   * An item report. `createdAt` is milliseconds since the epoch, `None` when
   * the document has no timestamp; `lastTimeSeen` and `matchedWith` are
   * `None` for `null`.
   */
  datatype Item = Item(
    id: string,
    itemType: string,
    title: string,
    category: string,
    location: string,
    lastTimeSeen: Option<string>,
    color: string,
    description: string,
    images: seq<string>,
    reportedBy: Reporter,
    status: string,
    createdAt: Option<int>,
    updatedAt: Option<int>,
    views: int,
    matchedWith: Option<string>)

  /** What the report wizard submits; `""` and `None` stand for a missing field. */
  datatype ItemData = ItemData(
    itemType: string,
    title: string,
    category: string,
    location: string,
    lastTimeSeen: string,
    color: string,
    description: string,
    images: Option<seq<string>>)

  /** The fields of the reporter's profile that `createItem` copies. */
  datatype UserProfile = UserProfile(uid: string, name: string, email: string, personalEmail: string, identifier: string, role: string)

  /** The `reportedBy` summary: the contact address is `email`, or `personalEmail` when that is missing. */
  function ReporterOf(p: UserProfile): (r: Reporter)
    ensures r.email == if p.email != "" then p.email else p.personalEmail
    ensures r.uid == p.uid && r.name == p.name && r.identifier == p.identifier && r.role == p.role
  {
    Reporter(p.uid, p.name, if p.email != "" then p.email else p.personalEmail, p.identifier, p.role)
  }

  /**
   * The record `createItem` stores under the new document id `docId`;
   * `serverTime` is the value the server gives to both timestamps.
   */
  function NewItem(docId: string, data: ItemData, profile: UserProfile, serverTime: int): (r: Item)
    ensures r.id == docId && r.status == "active" && r.views == 0 && r.matchedWith == None
    ensures r.lastTimeSeen == if data.lastTimeSeen == "" then None else Some(data.lastTimeSeen)
    ensures data.images.None? ==> r.images == []
    ensures data.images.Some? ==> r.images == data.images.value
    ensures r.itemType == data.itemType && r.title == data.title && r.category == data.category
    ensures r.location == data.location && r.color == data.color && r.description == data.description
    ensures r.reportedBy == ReporterOf(profile)
    ensures r.createdAt == r.updatedAt == Some(serverTime)
  {
    Item(
      docId, data.itemType, data.title, data.category, data.location,
      if data.lastTimeSeen == "" then None else Some(data.lastTimeSeen),
      data.color, data.description,
      if data.images.Some? then data.images.value else [],
      ReporterOf(profile), "active", Some(serverTime), Some(serverTime), 0, None)
  }

  /** `{ success: true, itemId, item }` */
  datatype Created = Created(itemId: string, item: Item)

  /** The documents of the `items` collection, by document id. */
  class ItemsCollection {
    var docs: map<string, Item>

    constructor (initial: map<string, Item>)
      ensures docs == initial
    {
      docs := initial;
    }

    /**
     * `createItem`: writes the new record under `docId` with `setDoc`. When the
     * write is refused (`writeError`), nothing is stored and the error is
     * rethrown with the prefix `Failed to create item report: `.
     */
    method CreateItem(data: ItemData, profile: UserProfile, docId: string, serverTime: int, writeError: Option<string>)
      returns (r: Result<Created, string>)
      modifies this
      ensures writeError.None? ==> r == Ok(Created(docId, NewItem(docId, data, profile, serverTime)))
      ensures writeError.None? ==> docs == old(docs)[docId := NewItem(docId, data, profile, serverTime)]
      ensures writeError.Some? ==> r == Err("Failed to create item report: " + writeError.value) && docs == old(docs)
    {
      if writeError.Some? {
        return Err("Failed to create item report: " + writeError.value);
      }
      var item := NewItem(docId, data, profile, serverTime);
      docs := docs[docId := item];
      r := Ok(Created(docId, item));
    }
  }

  /**
   * `uploadItemImages`: with no files, or an empty list, the answer is `[]`
   * and `upload` (the Cloudinary call) is not consulted; otherwise the URLs it
   * returns, or its failure with the prefix `Failed to upload images: `.
   */
  function UploadItemImages(files: Option<seq<string>>, upload: seq<string> -> Result<seq<string>, string>): (r: Result<seq<string>, string>)
    ensures files.None? || files.value == [] ==> r == Ok([])
    ensures files.Some? && files.value != [] && upload(files.value).Ok? ==> r == upload(files.value)
    ensures files.Some? && files.value != [] && upload(files.value).Err? ==> r == Err("Failed to upload images: " + upload(files.value).error)
  {
    if files.None? || files.value == [] then Ok([])
    else
      match upload(files.value)
      case Ok(urls) => Ok(urls)
      case Err(m) => Err("Failed to upload images: " + m)
  }

  /** No uploader is involved when there is nothing to upload. */
  lemma UploadNothing(files: Option<seq<string>>, u1: seq<string> -> Result<seq<string>, string>, u2: seq<string> -> Result<seq<string>, string>)
    requires files.None? || files.value == []
    ensures UploadItemImages(files, u1) == UploadItemImages(files, u2) == Ok([])
  {
  }

  /**
   * A fetched document: its id and its stored fields. `hasOwnId` says whether
   * the stored fields include an `id` of their own (records written by
   * `createItem` do, with the same value).
   */
  datatype Doc = Doc(docId: string, data: Item, hasOwnId: bool)

  /** A Firestore error: its `code` (such as `failed-precondition`) and message. */
  datatype FetchError = FetchError(code: string, message: string)

  /** `{ id: doc.id, ...doc.data() }`: a stored `id` field wins over the document id. */
  function Record(d: Doc): (r: Item)
    ensures !d.hasOwnId ==> r.id == d.docId
    ensures d.hasOwnId ==> r == d.data
    ensures r.(id := d.data.id) == d.data
  {
    if d.hasOwnId then d.data else d.data.(id := d.docId)
  }

  /** The records of a query snapshot, one per document, in snapshot order. */
  function Records(docs: seq<Doc>): (r: seq<Item>)
    ensures |r| == |docs|
    ensures forall i :: 0 <= i < |docs| ==> r[i] == Record(docs[i])
  {
    seq(|docs|, i requires 0 <= i < |docs| => Record(docs[i]))
  }

  /** The sort key of the fallback: `createdAt`, or the epoch when there is none. */
  function CreatedKey(item: Item): int
  {
    if item.createdAt.Some? then item.createdAt.value else 0
  }

  /**
   * What `getItems` returns for the outcome of the ordered query and, when
   * that is refused with `failed-precondition`, of the unordered one.
   */
  function GetItemsResult(ordered: Result<seq<Doc>, FetchError>, unordered: Result<seq<Doc>, FetchError>): (r: Result<seq<Item>, string>)
    ensures r.Err? ==> r.error == "Failed to fetch items"
    ensures r.Ok? && ordered.Ok? ==> |r.value| == |ordered.value|
    ensures r.Ok? && ordered.Err? ==> ordered.error.code == "failed-precondition" && unordered.Ok? && |r.value| == |unordered.value|
  {
    match ordered
    case Ok(docs) => Ok(Records(docs))
    case Err(e) =>
      if e.code != "failed-precondition" then Err("Failed to fetch items")
      else match unordered
        case Ok(docs) => Ok(SortDesc(Records(docs), CreatedKey))
        case Err(_) => Err("Failed to fetch items")
  }

  /**
   * `getItems`: one record per fetched document, pushed in snapshot order, then
   * sorted newest first when the database could not sort.
   */
  method GetItems(ordered: Result<seq<Doc>, FetchError>, unordered: Result<seq<Doc>, FetchError>) returns (r: Result<seq<Item>, string>)
    ensures r == GetItemsResult(ordered, unordered)
  {
    var snapshot: seq<Doc>;
    var sortedByDb := true;
    if ordered.Ok? {
      snapshot := ordered.value;
    } else if ordered.error.code == "failed-precondition" {
      if unordered.Err? {
        return Err("Failed to fetch items");
      }
      snapshot := unordered.value;
      sortedByDb := false;
    } else {
      return Err("Failed to fetch items");
    }
    var items: seq<Item> := [];
    var i := 0;
    while i < |snapshot|
      invariant 0 <= i <= |snapshot|
      invariant items == Records(snapshot[..i])
    {
      items := items + [Record(snapshot[i])];
      i := i + 1;
    }
    assert snapshot[..i] == snapshot;
    if !sortedByDb {
      items := SortDesc(items, CreatedKey);
    }
    r := Ok(items);
  }

  /** When the ordered query succeeds, the records come in fetch order, one per document, each with its id. */
  lemma GetItemsOrdered(docs: seq<Doc>, unordered: Result<seq<Doc>, FetchError>)
    ensures GetItemsResult(Ok(docs), unordered).Ok?
    ensures var items := GetItemsResult(Ok(docs), unordered).value;
      |items| == |docs| &&
      forall i :: 0 <= i < |docs| ==> items[i] == Record(docs[i]) && (!docs[i].hasOwnId ==> items[i].id == docs[i].docId)
  {
  }

  /**
   * On the fallback path the records are newest first (a missing `createdAt`
   * counting as the epoch), they are exactly the fetched records, and
   * records with equal timestamps keep their fetch order.
   */
  lemma GetItemsFallback(e: FetchError, docs: seq<Doc>)
    requires e.code == "failed-precondition"
    ensures GetItemsResult(Err(e), Ok(docs)).Ok?
    ensures var items := GetItemsResult(Err(e), Ok(docs)).value;
      SortedDesc(items, CreatedKey) &&
      multiset(items) == multiset(Records(docs)) &&
      forall t :: WithKey(items, CreatedKey, t) == WithKey(Records(docs), CreatedKey, t)
  {
    var items := SortDesc(Records(docs), CreatedKey);
    SortDescSorted(Records(docs), CreatedKey);
    SortDescPermutes(Records(docs), CreatedKey);
    forall t
      ensures WithKey(items, CreatedKey, t) == WithKey(Records(docs), CreatedKey, t)
    {
      SortDescStable(Records(docs), CreatedKey, t);
    }
  }

  /** Any failure other than a missing index, or a failing fallback query, surfaces as `Failed to fetch items`. */
  lemma GetItemsErrors(e: FetchError, unordered: Result<seq<Doc>, FetchError>)
    requires e.code != "failed-precondition" || unordered.Err?
    ensures GetItemsResult(Err(e), unordered) == Err("Failed to fetch items")
  {
  }
}
