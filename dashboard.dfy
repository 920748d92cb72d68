/** The dashboard: four headline counts and a three-entry activity feed merged from the
    document and folder lists, newest first. */
module Dashboard {
  import opened Common
  import opened Records
  import opened Sorting

  /** What a feed entry came from: the spread document or folder record. */
  datatype Entry = DocEntry(doc: Document) | FolderEntry(folder: Folder)

  /** One feed entry: its source record, its action text and its time (ms since the epoch). */
  datatype FeedItem = FeedItem(entry: Entry, action: string, time: int)

  const DocumentProcessed: string := "Document processed"
  const DocumentAdded: string := "New document added"
  const FolderCreated: string := "New folder created"

  /** The `type` tag of an entry. */
  function TypeTag(e: Entry): (r: string)
    ensures r == "document" <==> e.DocEntry?
    ensures r == "folder" <==> e.FolderEntry?
  {
    if e.DocEntry? then "document" else "folder"
  }

  /** A document's feed entry: "Document processed" for a ready document, otherwise "New
      document added". */
  function DocItem(d: Document): (r: FeedItem)
    ensures r.entry == DocEntry(d) && r.time == d.createdAt
    ensures r.action == DocumentProcessed <==> d.status == "ready"
    ensures r.action == DocumentAdded <==> d.status != "ready"
  {
    FeedItem(DocEntry(d), if d.status == "ready" then DocumentProcessed else DocumentAdded, d.createdAt)
  }

  function FolderItem(f: Folder): (r: FeedItem)
    ensures r.entry == FolderEntry(f) && r.action == FolderCreated && r.time == f.createdAt
  {
    FeedItem(FolderEntry(f), FolderCreated, f.createdAt)
  }

  function Time(item: FeedItem): int {
    item.time
  }

  /** The merged list before sorting: the documents' entries, then the folders'. */
  function Feed(docs: seq<Document>, folders: seq<Folder>): seq<FeedItem> {
    seq(|docs|, i requires 0 <= i < |docs| => DocItem(docs[i]))
    + seq(|folders|, j requires 0 <= j < |folders| => FolderItem(folders[j]))
  }

  /** The two `forEach` loops: every document, then every folder, each pushed once. */
  method BuildFeed(docs: seq<Document>, folders: seq<Folder>) returns (items: seq<FeedItem>)
    ensures items == Feed(docs, folders)
    ensures |items| == |docs| + |folders|
    ensures forall i :: 0 <= i < |docs| ==> items[i] == DocItem(docs[i])
    ensures forall j :: 0 <= j < |folders| ==> items[|docs| + j] == FolderItem(folders[j])
  {
    items := [];
    for i := 0 to |docs|
      invariant |items| == i
      invariant forall k :: 0 <= k < i ==> items[k] == DocItem(docs[k])
    {
      items := items + [DocItem(docs[i])];
    }
    for j := 0 to |folders|
      invariant |items| == |docs| + j
      invariant forall k :: 0 <= k < |docs| ==> items[k] == DocItem(docs[k])
      invariant forall k :: 0 <= k < j ==> items[|docs| + k] == FolderItem(folders[k])
    {
      items := items + [FolderItem(folders[j])];
    }
  }

  /** `allItems.sort(byTimeDesc).slice(0, 3)`. */
  function TopThree(items: seq<FeedItem>): seq<FeedItem> {
    Take(SortDesc(items, Time), 3)
  }

  /** The feed shows `min(3, n)` entries of the merged list, newest first, and no entry left out
      is newer than one shown. */
  lemma TopThreeSpec(items: seq<FeedItem>)
    ensures |TopThree(items)| == Min(3, |items|)
    ensures Descending(TopThree(items), Time)
    ensures multiset(TopThree(items)) <= multiset(items)
    ensures forall x, y :: x in multiset(items) - multiset(TopThree(items)) && y in TopThree(items) ==> x.time <= y.time
  {
    var top := TopThree(items);
    TopN(items, Time, 3);
    forall x, y | x in multiset(items) - multiset(top) && y in top ensures x.time <= y.time {
      assert Time(x) <= Time(y);
    }
  }

  datatype Stats = Stats(totalDocuments: nat, totalFolders: nat, processingDocuments: nat, readyDocuments: nat)

  const ZeroStats: Stats := Stats(0, 0, 0, 0)

  class DashboardPage {
    var stats: Stats
    var recentActivity: seq<FeedItem>

    constructor ()
      ensures stats == ZeroStats && recentActivity == []
    {
      stats := ZeroStats;
      recentActivity := [];
    }

    /** `fetchStats`, given the settled pair of list requests: the counts and the three newest
        entries, or zeros and an empty feed when either request fails. */
    method FetchStats(reply: Result<(seq<Document>, seq<Folder>)>)
      modifies this
      ensures reply.Err? ==> stats == ZeroStats && recentActivity == []
      ensures reply.Ok? ==>
        var (docs, folders) := reply.value;
        && stats.totalDocuments == |docs| && stats.totalFolders == |folders|
        && stats.processingDocuments == |Filter(docs, StatusIs("processing"))|
        && stats.readyDocuments == |Filter(docs, StatusIs("ready"))|
        && recentActivity == TopThree(Feed(docs, folders))
    {
      match reply {
        case Err(_) =>
          stats := ZeroStats;
          recentActivity := [];
        case Ok((docs, folders)) =>
          CountStatusIsFilter(docs, "processing");
          CountStatusIsFilter(docs, "ready");
          stats := Stats(|docs|, |folders|, CountStatus(docs, "processing"), CountStatus(docs, "ready"));
          var items := BuildFeed(docs, folders);
          recentActivity := TopThree(items);
      }
    }
  }
}
