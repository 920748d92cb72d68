/** The analytics page: headline counts and chart data, taken from the analytics endpoint's
    precomputed payload when it has one, and otherwise computed in the browser from the document
    and folder lists. */
module Analytics {
  import opened Common
  import opened Text
  import opened JsonValues
  import opened Records
  import opened Sorting

  // ---------------------------------------------------------------------------------------
  // Tallies: `counts[k] = (counts[k] || 0) + 1` over a list of keys.

  /** Sum of the tallies of `keys` in `xs`. */
  function SumCounts<T(==)>(keys: seq<T>, xs: seq<T>): nat
    decreases |keys|
  {
    if keys == [] then 0 else Occurrences(xs, keys[0]) + SumCounts(keys[1..], xs)
  }

  lemma {:induction false} SumCountsSnoc<T>(keys: seq<T>, init: seq<T>, x: T)
    requires NoDuplicates(keys)
    ensures SumCounts(keys, init + [x]) == SumCounts(keys, init) + (if x in keys then 1 else 0)
    decreases |keys|
  {
    if keys != [] {
      assert (init + [x])[..|init|] == init;
      SumCountsSnoc(keys[1..], init, x);
      assert x in keys <==> x == keys[0] || x in keys[1..];
      assert keys[0] !in keys[1..];
    }
  }

  lemma {:induction false} SumCountsAppend<T>(keys: seq<T>, y: T, xs: seq<T>)
    ensures SumCounts(keys + [y], xs) == SumCounts(keys, xs) + Occurrences(xs, y)
    decreases |keys|
  {
    if keys == [] {
      assert [] + [y] == [y];
      assert [y][1..] == [];
    } else {
      assert (keys + [y])[1..] == keys[1..] + [y];
      SumCountsAppend(keys[1..], y, xs);
    }
  }

  /** The tallies of a list's distinct values add up to the list's length: every element is
      counted once. */
  lemma {:induction false} TalliesCoverAll<T>(xs: seq<T>)
    ensures SumCounts(Distinct(xs), xs) == |xs|
    decreases |xs|
  {
    if xs != [] {
      var init := xs[..|xs| - 1];
      var x := xs[|xs| - 1];
      assert xs == init + [x];
      TalliesCoverAll(init);
      DistinctSpec(init);
      var d := Distinct(init);
      SumCountsSnoc(d, init, x);
      if x !in d {
        SumCountsAppend(d, x, xs);
        OccurrencesBound(init, x);
        assert xs[..|xs| - 1] == init;
      }
    }
  }

  /** The tallies of distinct keys never add up to more than the list's length: no element is
      counted twice. */
  lemma {:induction false} TalliesWithinLength<T>(keys: seq<T>, xs: seq<T>)
    requires NoDuplicates(keys)
    ensures SumCounts(keys, xs) <= |xs|
    decreases |xs|, |keys|
  {
    if xs == [] {
      if keys != [] {
        assert NoDuplicates(keys[1..]);
        TalliesWithinLength(keys[1..], xs);
      }
    } else {
      var init := xs[..|xs| - 1];
      assert xs == init + [xs[|xs| - 1]];
      TalliesWithinLength(keys, init);
      SumCountsSnoc(keys, init, xs[|xs| - 1]);
    }
  }

  /** The status tally: its keys in order of first appearance, and each key's count. */
  method TallyStatuses(statuses: seq<string>) returns (keys: seq<string>, counts: map<string, nat>)
    ensures keys == Distinct(statuses)
    ensures forall k :: k in counts <==> k in statuses
    ensures forall k :: k in counts ==> counts[k] == Occurrences(statuses, k)
  {
    keys := [];
    counts := map[];
    for i := 0 to |statuses|
      invariant keys == Distinct(statuses[..i])
      invariant forall k :: k in counts <==> k in statuses[..i]
      invariant forall k :: k in counts ==> counts[k] == Occurrences(statuses[..i], k)
    {
      var s := statuses[i];
      assert statuses[..i + 1][..i] == statuses[..i];
      DistinctSpec(statuses[..i]);
      if s in counts {
        counts := counts[s := counts[s] + 1];
      } else {
        OccurrencesBound(statuses[..i], s);
        keys := keys + [s];
        counts := counts[s := 1];
      }
      assert forall k :: k in statuses[..i + 1] <==> k in statuses[..i] || k == s;
    }
    assert statuses[..|statuses|] == statuses;
  }

  /** `status.charAt(0).toUpperCase() + status.slice(1)`. */
  function Capitalize(s: string): string {
    if s == [] then [] else [UpperChar(s[0])] + s[1..]
  }

  /** One slice of the status chart. */
  datatype Slice = Slice(name: string, value: nat)

  /** The status chart computed from a document list: one slice per distinct status, in order
      of first appearance, with its number of documents. */
  function StatusChart(statuses: seq<string>): seq<Slice> {
    var keys := Distinct(statuses);
    seq(|keys|, i requires 0 <= i < |keys| => Slice(Capitalize(keys[i]), Occurrences(statuses, keys[i])))
  }

  function SliceValues(slices: seq<Slice>): nat
    decreases |slices|
  {
    if slices == [] then 0 else slices[0].value + SliceValues(slices[1..])
  }

  lemma {:induction false} SliceValuesAreCounts(keys: seq<string>, statuses: seq<string>, slices: seq<Slice>)
    requires |slices| == |keys|
    requires forall i :: 0 <= i < |keys| ==> slices[i].value == Occurrences(statuses, keys[i])
    ensures SliceValues(slices) == SumCounts(keys, statuses)
    decreases |keys|
  {
    if keys != [] {
      SliceValuesAreCounts(keys[1..], statuses, slices[1..]);
    }
  }

  /** The status chart accounts for every document exactly once: one slice per distinct
      status, none empty, and the slice sizes add up to the number of documents. */
  lemma StatusChartSpec(statuses: seq<string>)
    ensures |StatusChart(statuses)| == |Distinct(statuses)|
    ensures forall i :: 0 <= i < |StatusChart(statuses)| ==> StatusChart(statuses)[i].value > 0
    ensures SliceValues(StatusChart(statuses)) == |statuses|
  {
    var keys := Distinct(statuses);
    var chart := StatusChart(statuses);
    DistinctSpec(statuses);
    forall i | 0 <= i < |chart| ensures chart[i].value > 0 {
      OccurrencesBound(statuses, keys[i]);
    }
    SliceValuesAreCounts(keys, statuses, chart);
    TalliesCoverAll(statuses);
  }

  /** The status chart as the page builds it, from the tally. */
  method StatusSlices(statuses: seq<string>) returns (slices: seq<Slice>)
    ensures slices == StatusChart(statuses)
  {
    var keys, counts := TallyStatuses(statuses);
    DistinctSpec(statuses);
    slices := seq(|keys|, i requires 0 <= i < |keys| => Slice(Capitalize(keys[i]), counts[keys[i]]));
  }

  // ---------------------------------------------------------------------------------------
  // Monthly buckets.

  datatype MonthBucket = MonthBucket(documents: nat, cases: nat)

  /** The monthly tally: every document adds one to both its month's documents and cases. */
  method TallyMonths(months: seq<string>) returns (keys: seq<string>, buckets: map<string, MonthBucket>)
    ensures keys == Distinct(months)
    ensures forall k :: k in buckets <==> k in months
    ensures forall k :: k in buckets ==>
      buckets[k].documents == Occurrences(months, k) && buckets[k].cases == Occurrences(months, k)
  {
    keys := [];
    buckets := map[];
    for i := 0 to |months|
      invariant keys == Distinct(months[..i])
      invariant forall k :: k in buckets <==> k in months[..i]
      invariant forall k :: k in buckets ==>
        buckets[k].documents == Occurrences(months[..i], k) && buckets[k].cases == Occurrences(months[..i], k)
    {
      var m := months[i];
      assert months[..i + 1][..i] == months[..i];
      DistinctSpec(months[..i]);
      if m !in buckets {
        OccurrencesBound(months[..i], m);
        keys := keys + [m];
        buckets := buckets[m := MonthBucket(0, 0)];
      }
      buckets := buckets[m := MonthBucket(buckets[m].documents + 1, buckets[m].cases + 1)];
      assert forall k :: k in months[..i + 1] <==> k in months[..i] || k == m;
    }
    assert months[..|months|] == months;
  }

  /** `s.slice(-n)`: the last `n` entries, or all of them when there are fewer. */
  function TakeLast<T>(s: seq<T>, n: nat): (r: seq<T>)
    ensures |r| == Min(n, |s|)
    ensures r == s[|s| - |r|..]
  {
    if |s| <= n then s else s[|s| - n..]
  }

  /** One row of the monthly chart. */
  datatype MonthRow = MonthRow(month: string, documents: nat, cases: nat)

  /** The months shown: `Object.keys(monthlyMap).sort().slice(-6)`. */
  function ShownMonths(months: seq<string>): seq<string> {
    TakeLast(SortAsc(Distinct(months)), 6)
  }

  /** The months shown are the (up to) six latest distinct months with documents, oldest first:
      at most six, strictly ascending, each one a month some document falls in, and every other
      such month earlier than all of them. None are shown exactly when there are no documents. */
  lemma ShownMonthsSpec(months: seq<string>)
    ensures |ShownMonths(months)| == Min(6, |Distinct(months)|)
    ensures StrictlyAscending(ShownMonths(months))
    ensures forall m :: m in ShownMonths(months) ==> m in months
    ensures forall m, n :: m in months && m !in ShownMonths(months) && n in ShownMonths(months) ==> LexLess(m, n)
    ensures ShownMonths(months) == [] <==> months == []
  {
    var sorted := SortAsc(Distinct(months));
    SortedMonths(months);
    LastAreGreatest(sorted, Min(6, |sorted|));
    if months != [] {
      assert months[0] in sorted;
    }
  }

  /** The sorted keys of the monthly tally: one per distinct month, ascending. */
  lemma SortedMonths(months: seq<string>)
    ensures |SortAsc(Distinct(months))| == |Distinct(months)|
    ensures StrictlyAscending(SortAsc(Distinct(months)))
    ensures forall m :: m in SortAsc(Distinct(months)) <==> m in months
  {
    var d := Distinct(months);
    DistinctSpec(months);
    SortAscSpec(d);
    var sorted := SortAsc(d);
    assert |multiset(sorted)| == |multiset(d)|;
    forall m ensures m in sorted <==> m in months {
      assert m in sorted <==> m in multiset(d);
    }
  }

  function EmptyMonths(monthsBack: nat -> string): seq<MonthRow> {
    seq(6, j requires 0 <= j < 6 => MonthRow(monthsBack(5 - j), 0, 0))
  }

  /** The six empty months the chart falls back to, oldest first; `monthsBack(i)` names the
      month `i` months before the current one. */
  method ZeroMonths(monthsBack: nat -> string) returns (rows: seq<MonthRow>)
    ensures |rows| == 6
    ensures forall j :: 0 <= j < 6 ==> rows[j] == MonthRow(monthsBack(5 - j), 0, 0)
    ensures rows == EmptyMonths(monthsBack)
  {
    rows := [];
    for i := 6 downto 0
      invariant |rows| == 6 - i
      invariant forall j :: 0 <= j < |rows| ==> rows[j] == MonthRow(monthsBack(5 - j), 0, 0)
    {
      rows := rows + [MonthRow(monthsBack(i), 0, 0)];
    }
  }

  /** The monthly chart computed from the documents' months: one row per shown month, both
      columns the month's number of documents. */
  function MonthlyChart(months: seq<string>, monthName: string -> string): (rows: seq<MonthRow>) {
    var shown := ShownMonths(months);
    seq(|shown|, i requires 0 <= i < |shown| =>
      MonthRow(monthName(shown[i]), Occurrences(months, shown[i]), Occurrences(months, shown[i])))
  }

  /** The monthly chart as the page builds it: the tally, the shown months, and the six empty
      months when there is nothing to show. */
  method MonthlyRows(months: seq<string>, monthName: string -> string, monthsBack: nat -> string)
    returns (rows: seq<MonthRow>)
    ensures months != [] ==> rows == MonthlyChart(months, monthName)
    ensures months == [] ==> rows == EmptyMonths(monthsBack)
  {
    var keys, buckets := TallyMonths(months);
    var shown := TakeLast(SortAsc(keys), 6);
    ShownMonthsSpec(months);
    rows := seq(|shown|, i requires 0 <= i < |shown| =>
      MonthRow(monthName(shown[i]), buckets[shown[i]].documents, buckets[shown[i]].cases));
    if |rows| == 0 {
      rows := ZeroMonths(monthsBack);
    }
  }

  // ---------------------------------------------------------------------------------------
  // Recent activity.

  function CreatedAt(d: Document): int {
    d.createdAt
  }

  /** One row of the recent activity list. */
  datatype Activity = Activity(action: string, document: string, time: string)

  const DocumentAdded: string := "Document Added"

  /** The five newest documents, newest first, as activity rows. */
  function RecentActivity(docs: seq<Document>, dateLabel: int -> string): (r: seq<Activity>) {
    var recent := Take(SortDesc(docs, CreatedAt), 5);
    seq(|recent|, i requires 0 <= i < |recent| => Activity(DocumentAdded, recent[i].title, dateLabel(recent[i].createdAt)))
  }

  /** The five newest documents: `min(5, n)` of them, newest first, taken from the list, and
      no document left out is newer than one shown. */
  lemma NewestFive(docs: seq<Document>)
    ensures var recent := Take(SortDesc(docs, CreatedAt), 5);
      && |recent| == Min(5, |docs|)
      && Descending(recent, CreatedAt)
      && multiset(recent) <= multiset(docs)
      && (forall x, y :: x in multiset(docs) - multiset(recent) && y in recent ==> CreatedAt(x) <= CreatedAt(y))
  {
    TopN(docs, CreatedAt, 5);
  }

  /** The activity list has one "Document Added" row per document of `NewestFive`, in order. */
  lemma RecentActivitySpec(docs: seq<Document>, dateLabel: int -> string)
    ensures var recent := Take(SortDesc(docs, CreatedAt), 5);
      && |RecentActivity(docs, dateLabel)| == Min(5, |docs|)
      && forall i :: 0 <= i < |recent| ==>
           RecentActivity(docs, dateLabel)[i] == Activity(DocumentAdded, recent[i].title, dateLabel(recent[i].createdAt))
  {
    NewestFive(docs);
  }

  // ---------------------------------------------------------------------------------------
  // The page.

  /** The headline numbers. They stay JSON values: the payload's fields are shown as they come. */
  datatype Stats = Stats(
    totalDocuments: Json,
    totalFolders: Json,
    processingDocuments: Json,
    readyDocuments: Json,
    errorDocuments: Json,
    totalCases: Json,
    avgProcessingTime: Json)

  const Zero: Json := JNum(0)
  const ZeroStats: Stats := Stats(Zero, Zero, Zero, Zero, Zero, Zero, Zero)

  /** `s.status === status` for an entry that is an object. */
  predicate HasStatus(e: Json, status: string) {
    e.JObj? && Get(e.fields, "status") == Some(JStr(status))
  }

  /** The callback of `find` ends the search at `e`: it matches, or it throws on `null`. */
  predicate StopsFind(e: Json, status: string) {
    e == JNull || HasStatus(e, status)
  }

  /** None of the first `i` entries ends the search. */
  predicate NoStopBefore(entries: seq<Json>, status: string, i: nat)
    requires i <= |entries|
  {
    forall j :: 0 <= j < i ==> !StopsFind(entries[j], status)
  }

  /** `processingStatuses.find(s => s.status === status)`: the first entry with that status; a
      `null` entry met before it makes the callback throw. */
  function FindStatus(entries: seq<Json>, status: string): (r: Result<Option<Json>>)
    ensures r.Ok? && r.value.Some? ==> r.value.value in entries && HasStatus(r.value.value, status)
    ensures r == Ok(None) ==> NoStopBefore(entries, status, |entries|)
    ensures r.Err? ==> JNull in entries
    decreases |entries|
  {
    if entries == [] then Ok(None)
    else match entries[0]
      case JNull => Err("Cannot read properties of null (reading 'status')")
      case JObj(m) =>
        if Get(m, "status") == Some(JStr(status)) then Ok(Some(entries[0])) else FindStatus(entries[1..], status)
      case _ => FindStatus(entries[1..], status)
  }

  /** The search ends at the first entry that stops it: the first matching entry is found,
      unless a `null` comes before it, which throws; with neither, nothing is found. */
  lemma {:induction false} FindStatusFirstStop(entries: seq<Json>, status: string, i: nat)
    requires i <= |entries| && NoStopBefore(entries, status, i)
    ensures i == |entries| ==> FindStatus(entries, status) == Ok(None)
    ensures i < |entries| && entries[i] == JNull ==> FindStatus(entries, status).Err?
    ensures i < |entries| && HasStatus(entries[i], status) ==> FindStatus(entries, status) == Ok(Some(entries[i]))
    decreases i
  {
    if i > 0 {
      assert !StopsFind(entries[0], status);
      var rest := entries[1..];
      assert FindStatus(entries, status) == FindStatus(rest, status);
      forall j | 0 <= j < i - 1
        ensures !StopsFind(rest[j], status)
      {
        assert rest[j] == entries[j + 1];
      }
      FindStatusFirstStop(rest, status, i - 1);
    }
  }

  /** `payload.processingStatuses?.find(…)?.count || 0`. A `processingStatuses` that is neither
      missing, `null` nor an array makes `find` throw. */
  function StatusCount(payload: Object, status: string): (r: Result<Json>)
    ensures var v := Get(payload, "processingStatuses");
      && (v.None? || v == Some(JNull) ==> r == Ok(Zero))
      && (r.Err? <==> v.Some? && v.value != JNull && (v.value.JArr? ==> FindStatus(v.value.items, status).Err?))
      && (v.Some? && v.value.JArr? && FindStatus(v.value.items, status) == Ok(None) ==> r == Ok(Zero))
      && (v.Some? && v.value.JArr? && FindStatus(v.value.items, status).Ok? && FindStatus(v.value.items, status).value.Some? ==>
            r == Ok(Or(Get(FindStatus(v.value.items, status).value.value.fields, "count"), Zero)))
  {
    match Get(payload, "processingStatuses")
    case None => Ok(Zero)
    case Some(JNull) => Ok(Zero)
    case Some(JArr(entries)) =>
      (match FindStatus(entries, status)
       case Err(m) => Err(m)
       case Ok(None) => Ok(Zero)
       case Ok(Some(e)) => Ok(Or(Get(e.fields, "count"), Zero)))
    case Some(_) => Err("processingStatuses.find is not a function")
  }

  /** The headline numbers from a payload: each field or 0, total cases falling back to the
      total documents; an error when one of the status lookups throws. */
  function PayloadStats(p: Object): (r: Result<Stats>)
    ensures r.Ok? <==> StatusCount(p, "processing").Ok? && StatusCount(p, "ready").Ok? && StatusCount(p, "error").Ok?
    ensures r.Ok? ==>
      && r.value.totalDocuments == Or(Get(p, "totalDocuments"), Zero)
      && r.value.totalFolders == Or(Get(p, "totalFolders"), Zero)
      && r.value.processingDocuments == StatusCount(p, "processing").value
      && r.value.readyDocuments == StatusCount(p, "ready").value
      && r.value.errorDocuments == StatusCount(p, "error").value
      && r.value.totalCases == Or(Get(p, "totalCases"), Or(Get(p, "totalDocuments"), Zero))
      && r.value.avgProcessingTime == Or(Get(p, "avgProcessingTime"), Zero)
  {
    var processing := StatusCount(p, "processing");
    var ready := StatusCount(p, "ready");
    var error := StatusCount(p, "error");
    if processing.Err? then Err(processing.message)
    else if ready.Err? then Err(ready.message)
    else if error.Err? then Err(error.message)
    else Ok(Stats(
      Or(Get(p, "totalDocuments"), Zero),
      Or(Get(p, "totalFolders"), Zero),
      processing.value, ready.value, error.value,
      Or(Get(p, "totalCases"), Or(Get(p, "totalDocuments"), Zero)),
      Or(Get(p, "avgProcessingTime"), Zero)))
  }

  /** How the analytics reply is used. */
  datatype Primary = UsePayload(stats: Stats, payload: Object) | NoPayload | Threw

  /** The first row's `payload` is neither missing nor `null`, so reading its fields does not
      throw. */
  predicate HasPayload(row: Object) {
    "payload" in row && row["payload"] != JNull
  }

  /** `analyticsData && analyticsData.length > 0` chooses the payload, `analyticsData[0].payload`;
      a first row without a payload, or a failing status lookup, throws. A non-empty string has a
      length too, and its first character has no payload. */
  function ReadPrimary(reply: Result<Json>): (r: Primary)
    ensures reply.Err? ==> r == Threw
    ensures r.UsePayload? <==>
      && reply.Ok? && reply.value.JArr? && reply.value.items != [] && reply.value.items[0].JObj?
      && HasPayload(reply.value.items[0].fields)
      && PayloadStats(Spread(Get(reply.value.items[0].fields, "payload"))).Ok?
    ensures r.UsePayload? ==>
      && r.payload == Spread(Get(reply.value.items[0].fields, "payload"))
      && PayloadStats(r.payload) == Ok(r.stats)
    ensures r == NoPayload <==>
      reply.Ok? && !(reply.value.JArr? && reply.value.items != []) && !(reply.value.JStr? && reply.value.s != "")
  {
    match reply
    case Err(_) => Threw
    case Ok(JArr(rows)) =>
      if rows == [] then NoPayload
      else if !rows[0].JObj? || !HasPayload(rows[0].fields) then Threw
      else
        var p := Spread(Get(rows[0].fields, "payload"));
        (match PayloadStats(p)
         case Ok(s) => UsePayload(s, p)
         case Err(_) => Threw)
    case Ok(JStr(s)) => if s != "" then Threw else NoPayload
    case Ok(_) => NoPayload
  }

  /** The two lists the page computes from, fetched together. */
  datatype Lists = Lists(documents: seq<Document>, folderCount: nat)

  /** The headline numbers computed from the lists. */
  function ComputedStats(l: Lists): (r: Stats)
    ensures r.totalDocuments == JNum(|l.documents|) && r.totalCases == JNum(|l.documents|)
    ensures r.totalFolders == JNum(l.folderCount) && r.avgProcessingTime == Zero
    ensures r.processingDocuments == JNum(CountStatus(l.documents, "processing"))
    ensures r.readyDocuments == JNum(CountStatus(l.documents, "ready"))
    ensures r.errorDocuments == JNum(CountStatus(l.documents, "error"))
  {
    Stats(
      JNum(|l.documents|), JNum(l.folderCount),
      JNum(CountStatus(l.documents, "processing")),
      JNum(CountStatus(l.documents, "ready")),
      JNum(CountStatus(l.documents, "error")),
      JNum(|l.documents|), Zero)
  }

  /** The processing, ready and error counts together never exceed the number of documents. */
  lemma StatusCountsWithinTotal(docs: seq<Document>)
    ensures CountStatus(docs, "processing") + CountStatus(docs, "ready") + CountStatus(docs, "error") <= |docs|
  {
    var keys := ["processing", "ready", "error"];
    var st := Statuses(docs);
    assert SumCounts(keys, st) == CountStatus(docs, "processing") + SumCounts(keys[1..], st);
    assert SumCounts(keys[1..], st) == CountStatus(docs, "ready") + SumCounts(keys[2..], st);
    assert SumCounts(keys[2..], st) == CountStatus(docs, "error") + SumCounts(keys[3..], st);
    TalliesWithinLength(keys, st);
  }

  /** The calendar: the `YYYY-MM` key of a timestamp, a key's short month name, the short name of
      the month `i` months back, and a timestamp's date label, all in the browser's locale and
      time zone. */
  datatype Calendar = Calendar(
    monthKey: int -> string,
    monthName: string -> string,
    monthsBack: nat -> string,
    dateLabel: int -> string)

  function MonthKeys(docs: seq<Document>, monthKey: int -> string): (r: seq<string>)
    ensures |r| == |docs|
    ensures forall i :: 0 <= i < |docs| ==> r[i] == monthKey(docs[i].createdAt)
  {
    seq(|docs|, i requires 0 <= i < |docs| => monthKey(docs[i].createdAt))
  }

  function SliceJson(s: Slice): Json {
    JObj(map["name" := JStr(s.name), "value" := JNum(s.value)])
  }

  function MonthJson(m: MonthRow): Json {
    JObj(map["month" := JStr(m.month), "documents" := JNum(m.documents), "cases" := JNum(m.cases)])
  }

  function ActivityJson(a: Activity): Json {
    JObj(map["action" := JStr(a.action), "document" := JStr(a.document), "time" := JStr(a.time)])
  }

  function Each<T>(xs: seq<T>, f: T -> Json): (r: Json)
    ensures r.JArr? && |r.items| == |xs|
    ensures forall i :: 0 <= i < |xs| ==> r.items[i] == f(xs[i])
  {
    JArr(seq(|xs|, i requires 0 <= i < |xs| => f(xs[i])))
  }

  const Empty: Json := JArr([])

  class AnalyticsPage {
    var stats: Stats
    var documentStatusData: Json
    var monthlyData: Json
    var topStationsData: Json
    var topSectionsData: Json
    var caseTypesData: Json
    var topAccusedData: Json
    var recentActivity: Json

    constructor ()
      ensures stats == ZeroStats
      ensures documentStatusData == Empty && monthlyData == Empty && topStationsData == Empty
      ensures topSectionsData == Empty && caseTypesData == Empty && topAccusedData == Empty
      ensures recentActivity == Empty
    {
      stats := ZeroStats;
      documentStatusData := Empty;
      monthlyData := Empty;
      topStationsData := Empty;
      topSectionsData := Empty;
      caseTypesData := Empty;
      topAccusedData := Empty;
      recentActivity := Empty;
    }

    /** The page shows the payload: its headline numbers, and each chart `|| []`. */
    predicate PayloadShown(s: Stats, p: Object)
      reads this
    {
      && stats == s
      && documentStatusData == Or(Get(p, "documentStatusData"), Empty)
      && monthlyData == Or(Get(p, "monthlyData"), Empty)
      && topStationsData == Or(Get(p, "topStationsData"), Empty)
      && topSectionsData == Or(Get(p, "topSectionsData"), Empty)
      && caseTypesData == Or(Get(p, "caseTypesData"), Empty)
      && topAccusedData == Or(Get(p, "topAccusedData"), Empty)
      && recentActivity == Or(Get(p, "recentActivityData"), Empty)
    }

    /** The page shows what it computed from the lists: the headline numbers, the status chart,
        the five newest documents, and the months of the list sorted newest first (six empty
        months when there are no documents). */
    predicate ComputedShown(l: Lists, cal: Calendar)
      reads this
    {
      && stats == ComputedStats(l)
      && documentStatusData == Each(StatusChart(Statuses(l.documents)), SliceJson)
      && recentActivity == Each(RecentActivity(l.documents, cal.dateLabel), ActivityJson)
      && var months := MonthKeys(SortDesc(l.documents, CreatedAt), cal.monthKey);
        && (l.documents != [] ==> monthlyData == Each(MonthlyChart(months, cal.monthName), MonthJson))
        && (l.documents == [] ==> monthlyData == Each(EmptyMonths(cal.monthsBack), MonthJson))
    }

    /** Every number 0 and every chart empty. */
    predicate NothingShown()
      reads this
    {
      && stats == ZeroStats
      && documentStatusData == Empty && monthlyData == Empty && topStationsData == Empty
      && topSectionsData == Empty && caseTypesData == Empty && topAccusedData == Empty
      && recentActivity == Empty
    }

    /** Everything the payload carries: the headline numbers and each chart, `[]` when
        missing. */
    method ShowPayload(s: Stats, p: Object)
      modifies this
      ensures PayloadShown(s, p)
    {
      stats := s;
      documentStatusData := Or(Get(p, "documentStatusData"), Empty);
      monthlyData := Or(Get(p, "monthlyData"), Empty);
      topStationsData := Or(Get(p, "topStationsData"), Empty);
      topSectionsData := Or(Get(p, "topSectionsData"), Empty);
      caseTypesData := Or(Get(p, "caseTypesData"), Empty);
      topAccusedData := Or(Get(p, "topAccusedData"), Empty);
      recentActivity := Or(Get(p, "recentActivityData"), Empty);
    }

    /** The computation from the lists: the headline numbers, the status chart, the five newest
        documents, and the monthly chart. The list is sorted newest first in place before the
        months are tallied. The four top-N charts are left as they were. */
    method ShowComputed(l: Lists, cal: Calendar)
      modifies this`stats, this`documentStatusData, this`recentActivity, this`monthlyData
      ensures ComputedShown(l, cal)
    {
      var slices := StatusSlices(Statuses(l.documents));
      var sorted := SortDesc(l.documents, CreatedAt);
      var months := MonthKeys(sorted, cal.monthKey);
      var rows := MonthlyRows(months, cal.monthName, cal.monthsBack);
      SortDescLength(l.documents, CreatedAt);
      stats := ComputedStats(l);
      documentStatusData := Each(slices, SliceJson);
      recentActivity := Each(RecentActivity(l.documents, cal.dateLabel), ActivityJson);
      monthlyData := Each(rows, MonthJson);
    }

    /** Everything empty: the last resort when both attempts fail. */
    method ShowNothing()
      modifies this
      ensures NothingShown()
    {
      stats := ZeroStats;
      documentStatusData := Empty;
      monthlyData := Empty;
      topStationsData := Empty;
      topSectionsData := Empty;
      caseTypesData := Empty;
      topAccusedData := Empty;
      recentActivity := Empty;
    }

    /** `fetchAnalyticsData`. The payload is used when the analytics endpoint has one. With no
        payload the lists are fetched (`first`) and computed from; if that fetch fails, the
        fallback fetches them again (`second`). When the analytics request or the payload throws,
        the fallback fetches the lists once (`first`). When the fallback's fetch fails too,
        everything is emptied. */
    method FetchAnalytics(analytics: Result<Json>, first: Result<Lists>, second: Result<Lists>, cal: Calendar)
      returns (used: Option<Lists>)
      modifies this
      ensures var primary := ReadPrimary(analytics);
        && (primary.UsePayload? ==> used.None? && PayloadShown(primary.stats, primary.payload))
        && (primary.NoPayload? ==> used == (if first.Ok? then Some(first.value) else if second.Ok? then Some(second.value) else None))
        && (primary.Threw? ==> used == (if first.Ok? then Some(first.value) else None))
        && (used.Some? ==> ComputedShown(used.value, cal))
        && (used.Some? ==> topStationsData == old(topStationsData) && topSectionsData == old(topSectionsData))
        && (used.Some? ==> caseTypesData == old(caseTypesData) && topAccusedData == old(topAccusedData))
        && (!primary.UsePayload? && used.None? ==> NothingShown())
    {
      var primary := ReadPrimary(analytics);
      match primary {
        case UsePayload(s, p) =>
          ShowPayload(s, p);
          return None;
        case NoPayload =>
          if first.Ok? {
            used := Some(first.value);
          } else if second.Ok? {
            used := Some(second.value);
          } else {
            used := None;
          }
        case Threw =>
          used := if first.Ok? then Some(first.value) else None;
      }
      if used.Some? {
        ShowComputed(used.value, cal);
      } else {
        ShowNothing();
      }
    }
  }
}
