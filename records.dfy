/** The folder and document records the REST API returns. Timestamps are milliseconds since the
    epoch: parsing the API's date strings is not modelled. */
module Records {
  import opened Common

  datatype Folder = Folder(id: string, name: string, parentId: Option<string>, createdAt: int)

  /** `folderName` is the optional `folder.name` the list endpoint joins in. */
  datatype Document = Document(
    id: string,
    title: string,
    filePath: string,
    status: string,
    createdAt: int,
    folderId: Option<string>,
    folderName: Option<string>)

  function Statuses(docs: seq<Document>): (r: seq<string>)
    ensures |r| == |docs|
    ensures forall i :: 0 <= i < |docs| ==> r[i] == docs[i].status
  {
    seq(|docs|, i requires 0 <= i < |docs| => docs[i].status)
  }

  /** `documents.filter(doc => doc.processing_status === s).length`. */
  function CountStatus(docs: seq<Document>, s: string): (r: nat)
    ensures r <= |docs|
    ensures r > 0 <==> exists i :: 0 <= i < |docs| && docs[i].status == s
  {
    OccurrencesBound(Statuses(docs), s);
    Occurrences(Statuses(docs), s)
  }

  /** `doc => doc.processing_status === s`. */
  function StatusIs(s: string): Document -> bool {
    (d: Document) => d.status == s
  }

  /** The count is the length of the filtered list. */
  lemma {:induction false} CountStatusIsFilter(docs: seq<Document>, s: string)
    ensures CountStatus(docs, s) == |Filter(docs, StatusIs(s))|
    decreases |docs|
  {
    if docs != [] {
      var init := docs[..|docs| - 1];
      var last := docs[|docs| - 1];
      var p := StatusIs(s);
      CountStatusIsFilter(init, s);
      var st := Statuses(docs);
      assert st[..|st| - 1] == Statuses(init);
      assert CountStatus(docs, s) == CountStatus(init, s) + (if last.status == s then 1 else 0);
      assert docs == init + [last];
      FilterAppend(init, [last], p);
      assert |Filter([last], p)| == if p(last) then 1 else 0;
    }
  }
}
