/** The REST client every page goes through (`src/lib/api-client.ts`): URL composition, the
    default JSON content type, the normalisation of a failed reply into an error message, and the
    query strings of the list endpoints. `fetch` itself is not modelled: what the server answered
    is an input. */
module Api {
  import opened Common
  import opened Text
  import opened JsonValues
  import opened FormUrlEncoding

  const DefaultBackend: string := "http://localhost:5001"

  /** `${baseUrl}/api${endpoint}`. */
  function Url(baseUrl: string, endpoint: string): (r: string) {
    baseUrl + "/api" + endpoint
  }

  /** Every URL lies under the API root, and different endpoints never share a URL. */
  lemma UrlSpec(baseUrl: string, e1: string, e2: string)
    ensures Url(baseUrl, e1)[..|baseUrl| + 4] == baseUrl + "/api"
    ensures Url(baseUrl, e1)[|baseUrl| + 4..] == e1
    ensures Url(baseUrl, e1) == Url(baseUrl, e2) ==> e1 == e2
  {
    var p := baseUrl + "/api";
    assert Url(baseUrl, e1) == p + e1;
    assert Url(baseUrl, e2) == p + e2;
    assert (p + e1)[|p|..] == e1;
    assert (p + e2)[|p|..] == e2;
  }

  type Headers = map<string, string>

  /** `{ 'Content-Type': 'application/json', ...options.headers }`. */
  function MergeHeaders(caller: Headers): (r: Headers)
    ensures r.Keys == caller.Keys + {"Content-Type"}
    ensures forall k :: k in caller ==> r[k] == caller[k]
    ensures "Content-Type" !in caller ==> r["Content-Type"] == "application/json"
  {
    map["Content-Type" := "application/json"] + caller
  }

  /** What came back from `fetch`: it rejected (or an OK body was not JSON), an OK status with a
      JSON body, or another status with a body that parsed (`Some`) or did not (`None`). */
  datatype Reply =
    | Rejected(message: string)
    | Success(body: Json)
    | Failure(status: nat, errorBody: Option<Json>)

  const HttpErrorPrefix: string := "HTTP error! status: "

  /** The `error` string of a failed reply's body, when it has a non-empty one. Other truthy
      values of `error` are not modelled. */
  function ErrorField(body: Option<Json>): Option<string> {
    match body
    case Some(JObj(m)) =>
      if "error" in m && m["error"].JStr? && m["error"].s != "" then Some(m["error"].s) else None
    case _ => None
  }

  /** The `TypeError` that reading `errorData.error` raises when the body is JSON `null`. */
  const NullBodyError: string := "Cannot read properties of null (reading 'error')"

  /** `errorData.error || \`HTTP error! status: ${response.status}\``, where a `null` body makes
      the property read itself throw. */
  function HttpErrorMessage(status: nat, body: Option<Json>): (r: string)
    ensures r != ""
    ensures body == Some(JNull) ==> r == NullBodyError
    ensures body != Some(JNull) && ErrorField(body).Some? ==> r == ErrorField(body).value
    ensures body != Some(JNull) && ErrorField(body).None? ==>
              |r| > |HttpErrorPrefix| && r[..|HttpErrorPrefix|] == HttpErrorPrefix
  {
    if body == Some(JNull) then NullBodyError
    else match ErrorField(body)
      case Some(e) => e
      case None => HttpErrorPrefix + Decimal(status)
  }

  /** `request` and the two upload calls: resolve with the body on success, otherwise reject with
      the message built above, or with whatever `fetch` rejected with. */
  function Settle(reply: Reply): Result<Json> {
    match reply
    case Rejected(m) => Err(m)
    case Success(b) => Ok(b)
    case Failure(status, body) => Err(HttpErrorMessage(status, body))
  }

  /** A call succeeds exactly when the server answered OK with JSON; a non-OK answer always
      carries a non-empty message, which is the body's `error` when there is one, and otherwise
      names the status so that the status can be read back from it. */
  lemma SettleSpec(reply: Reply)
    ensures Settle(reply).Ok? <==> reply.Success?
    ensures reply.Success? ==> Settle(reply).value == reply.body
    ensures reply.Rejected? ==> Settle(reply).message == reply.message
    ensures reply.Failure? ==> Settle(reply).message != ""
    ensures reply.Failure? && reply.errorBody == Some(JNull) ==> Settle(reply).message == NullBodyError
    ensures reply.Failure? && reply.errorBody != Some(JNull) && ErrorField(reply.errorBody).Some? ==>
              Settle(reply).message == ErrorField(reply.errorBody).value
    ensures reply.Failure? && reply.errorBody != Some(JNull) && ErrorField(reply.errorBody).None? ==>
              var m := Settle(reply).message;
              && |m| > |HttpErrorPrefix|
              && m[..|HttpErrorPrefix|] == HttpErrorPrefix
              && (forall i :: |HttpErrorPrefix| <= i < |m| ==> '0' <= m[i] <= '9')
              && DigitsValue(m[|HttpErrorPrefix|..]) == reply.status
  {
    if reply.Failure? && reply.errorBody != Some(JNull) && ErrorField(reply.errorBody).None? {
      var m := Settle(reply).message;
      assert m == HttpErrorPrefix + Decimal(reply.status);
      assert m[|HttpErrorPrefix|..] == Decimal(reply.status);
      DecimalRoundTrip(reply.status);
    }
  }

  /** The pairs a `URLSearchParams` holds, in the order they were appended. */
  type Query = seq<(string, string)>

  /** `params.k` of an optional-string parameter object; a missing key is `undefined`. */
  function Param(params: map<string, string>, k: string): Option<string> {
    if k in params then Some(params[k]) else None
  }

  /** The pair appended for key `k`: one when its value is truthy, none otherwise. */
  function Appended(params: map<string, string>, k: string): Query {
    if Present(Param(params, k)) then [(k, params[k])] else []
  }

  /** The pairs the builders append for `keys`, in that order. */
  function QueryFor(params: map<string, string>, keys: seq<string>): Query
    decreases |keys|
  {
    if keys == [] then []
    else QueryFor(params, keys[..|keys| - 1]) + Appended(params, keys[|keys| - 1])
  }

  function KeysOf(q: Query): (r: seq<string>)
    ensures |r| == |q|
    ensures forall i :: 0 <= i < |q| ==> r[i] == q[i].0
  {
    seq(|q|, i requires 0 <= i < |q| => q[i].0)
  }

  /** The keys of the built query are exactly the keys whose value is truthy, in the builder's
      order; each carries the value the caller gave. */
  /** `value => !!value` on a parameter: the key is present with a non-empty value. */
  function IsSetIn(params: map<string, string>): string -> bool {
    k => k in params && params[k] != ""
  }

  lemma QueryForSpec(params: map<string, string>, keys: seq<string>)
    ensures KeysOf(QueryFor(params, keys)) == Filter(keys, IsSetIn(params))
    ensures forall i :: 0 <= i < |QueryFor(params, keys)| ==>
              QueryFor(params, keys)[i].0 in params
              && QueryFor(params, keys)[i].1 == params[QueryFor(params, keys)[i].0]
              && QueryFor(params, keys)[i].1 != ""
  {
    QueryKeys(params, keys);
    QueryValues(params, keys);
  }

  lemma {:induction false} QueryKeys(params: map<string, string>, keys: seq<string>)
    ensures KeysOf(QueryFor(params, keys)) == Filter(keys, IsSetIn(params))
    decreases |keys|
  {
    if keys != [] {
      var p := IsSetIn(params);
      var init, last := keys[..|keys| - 1], keys[|keys| - 1];
      QueryKeys(params, init);
      var q0 := QueryFor(params, init);
      var a := Appended(params, last);
      assert KeysOf(a) == Filter([last], p);
      assert KeysOf(q0 + a) == KeysOf(q0) + KeysOf(a);
      assert keys == init + [last];
      FilterAppend(init, [last], p);
    }
  }

  lemma {:induction false} QueryValues(params: map<string, string>, keys: seq<string>)
    ensures forall i :: 0 <= i < |QueryFor(params, keys)| ==>
              QueryFor(params, keys)[i].0 in params
              && QueryFor(params, keys)[i].1 == params[QueryFor(params, keys)[i].0]
              && QueryFor(params, keys)[i].1 != ""
    decreases |keys|
  {
    if keys != [] {
      var init, last := keys[..|keys| - 1], keys[|keys| - 1];
      QueryValues(params, init);
      var q0 := QueryFor(params, init);
      var a := Appended(params, last);
      var q := q0 + a;
      forall i | 0 <= i < |q| ensures q[i].0 in params && q[i].1 == params[q[i].0] && q[i].1 != "" {
        if i < |q0| {
          assert q[i] == q0[i];
        }
      }
    }
  }

  /** Two parameter objects that agree on the listed keys give the same query. */
  lemma {:induction false} QueryIgnoresOtherKeys(p1: map<string, string>, p2: map<string, string>, keys: seq<string>)
    requires forall i :: 0 <= i < |keys| ==> Param(p1, keys[i]) == Param(p2, keys[i])
    ensures QueryFor(p1, keys) == QueryFor(p2, keys)
    decreases |keys|
  {
    if keys != [] {
      QueryIgnoresOtherKeys(p1, p2, keys[..|keys| - 1]);
    }
  }

  /** A key outside the builder's list never reaches the query: adding it, with any value,
      leaves the query as it was. */
  lemma UnknownKeyIgnored(params: map<string, string>, keys: seq<string>, k: string, v: string)
    requires k !in keys
    ensures QueryFor(params[k := v], keys) == QueryFor(params, keys)
  {
    QueryIgnoresOtherKeys(params[k := v], params, keys);
  }

  /** `queryParams.append` for each key in turn, when its value is truthy. */
  method BuildQuery(params: map<string, string>, keys: seq<string>) returns (query: Query)
    ensures query == QueryFor(params, keys)
  {
    query := [];
    for i := 0 to |keys|
      invariant query == QueryFor(params, keys[..i])
    {
      assert keys[..i + 1][..i] == keys[..i];
      if Present(Param(params, keys[i])) {
        query := query + [(keys[i], params[keys[i]])];
      }
    }
    assert keys[..|keys|] == keys;
  }

  /** The `?...` part: present exactly when some parameter was appended, and then the
      form-urlencoded pairs, which parse back into every name and value in order. */
  function QuerySuffix(q: Query): (r: string)
    ensures r == "" <==> q == []
    ensures q != [] ==> r[0] == '?' && r[1..] == Serialize(q)
    ensures q != [] ==> Parse(r[1..]) == Utf8Pairs(q)
  {
    SerializeEmpty(q);
    ParseSerialize(q);
    var s := Serialize(q);
    if s != "" then "?" + s else ""
  }

  const DocumentKeys: seq<string> := ["folderId", "status", "limit", "offset"]

  const SearchKeys: seq<string> := [
    "q", "folderId", "status", "startDate", "endDate", "firNumber",
    "policeStation", "district", "acts", "sections", "limit", "offset"]

  /** The text fields of an upload's form, after the file: `folderId` and `title` when truthy. */
  function UploadFields(folderId: Option<string>, title: Option<string>): (r: seq<(string, string)>)
    ensures |r| <= 2
    ensures ("folderId", OrDefault(folderId, "")) in r <==> Present(folderId)
    ensures ("title", OrDefault(title, "")) in r <==> Present(title)
  {
    (if Present(folderId) then [("folderId", folderId.value)] else [])
    + (if Present(title) then [("title", title.value)] else [])
  }

  /** One request as sent: its URL and headers (none for the multipart uploads). */
  datatype Sent = Sent(url: string, headers: Headers)

  class ApiClient {
    const baseUrl: string

    /** `NEXT_PUBLIC_BACKEND_URL || 'http://localhost:5001'`. */
    constructor (backendUrl: Option<string>)
      ensures Present(backendUrl) ==> baseUrl == backendUrl.value
      ensures !Present(backendUrl) ==> baseUrl == DefaultBackend
    {
      baseUrl := OrDefault(backendUrl, DefaultBackend);
    }

    /** `request`: the URL is the endpoint under the API root, the headers are the defaults
        overridden by the caller's, and the outcome is the settled reply. */
    method Request(endpoint: string, headers: Headers, reply: Reply) returns (sent: Sent, r: Result<Json>)
      ensures sent.url == Url(baseUrl, endpoint)
      ensures sent.headers == MergeHeaders(headers)
      ensures r == Settle(reply)
    {
      sent := Sent(Url(baseUrl, endpoint), MergeHeaders(headers));
      r := Settle(reply);
    }

    /** `folders.getAll`: `?parentId=` only for a truthy id, inserted as given. */
    method FoldersGetAll(parentId: Option<string>) returns (url: string)
      ensures Present(parentId) ==> url == Url(baseUrl, "/folders?parentId=" + parentId.value)
      ensures !Present(parentId) ==> url == Url(baseUrl, "/folders")
    {
      var endpoint := "/folders";
      if Present(parentId) {
        endpoint := endpoint + "?parentId=" + parentId.value;
      }
      url := Url(baseUrl, endpoint);
    }

    /** `documents.getAll`: one `append` per truthy parameter, in the builder's key order. */
    method DocumentsGetAll(params: map<string, string>) returns (url: string)
      ensures url == Url(baseUrl, "/documents" + QuerySuffix(QueryFor(params, DocumentKeys)))
    {
      var query := BuildQuery(params, DocumentKeys);
      url := Url(baseUrl, "/documents" + QuerySuffix(query));
    }

    /** `search.get`: one `append` per truthy value of its twelve keys, in order. */
    method SearchGet(params: map<string, string>) returns (url: string)
      ensures url == Url(baseUrl, "/search" + QuerySuffix(QueryFor(params, SearchKeys)))
    {
      var query := BuildQuery(params, SearchKeys);
      url := Url(baseUrl, "/search" + QuerySuffix(query));
    }

    /** `documents.upload` and `documents.uploadTemp`: a multipart POST without the JSON header,
        settled like every other request. */
    method Upload(temp: bool, folderId: Option<string>, title: Option<string>, reply: Reply)
      returns (sent: Sent, fields: seq<(string, string)>, r: Result<Json>)
      ensures sent.url == Url(baseUrl, if temp then "/documents/upload-temp" else "/documents/upload")
      ensures sent.headers == map[]
      ensures fields == UploadFields(folderId, title)
      ensures r == Settle(reply)
    {
      var endpoint := if temp then "/documents/upload-temp" else "/documents/upload";
      sent := Sent(Url(baseUrl, endpoint), map[]);
      fields := UploadFields(folderId, title);
      r := Settle(reply);
    }
  }
}
