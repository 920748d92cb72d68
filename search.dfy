/** The search page: a free-text query plus ten filter fields, turned into the parameters of
    the search endpoint. */
module Search {
  import opened Common
  import opened Text
  import opened Records
  import opened Api

  /** The filter fields, in the page's order. */
  const FilterKeys: seq<string> := [
    "folderId", "status", "startDate", "endDate", "firNumber",
    "policeStation", "district", "accusedName", "victimName", "ipcSections"]

  type Filters = map<string, string>

  /** All ten filters empty: the initial value and what Clear restores. */
  function EmptyFilters(): (r: Filters)
    ensures forall k :: k in r <==> k in FilterKeys
    ensures forall k :: k in r ==> r[k] == ""
  {
    map k | k in FilterKeys :: ""
  }

  /** `Object.values(filters).some(value => value !== "")`. */
  predicate HasActiveFilters(f: Filters) {
    exists k :: k in f && f[k] != ""
  }

  /** `filters[k]`, `undefined` read as `""`. */
  function FilterValue(f: Filters, k: string): string {
    if k in f then f[k] else ""
  }

  /** The parameter names the page sends. */
  const ParamKeys: set<string> := {
    "q", "folderId", "status", "startDate", "endDate", "firNumber",
    "policeStation", "district", "accusedName", "victimName", "sections"}

  /** The value behind each parameter: the query for `q`, the IPC sections filter for
      `sections`, the filter of the same name otherwise. */
  function Source(query: string, f: Filters, k: string): string {
    if k == "q" then query
    else if k == "sections" then FilterValue(f, "ipcSections")
    else FilterValue(f, k)
  }

  /** The parameter object of `handleSearch`: every `x || undefined` with `undefined` left out.
      The query is sent untrimmed, the IPC sections filter (the last of `FilterKeys`) is sent as
      `sections` and never under its own name, and every other filter is sent under its own name
      exactly when it is not empty. */
  function SearchParams(query: string, f: Filters): (r: map<string, string>)
    ensures forall k :: k in r <==> k in ParamKeys && Source(query, f, k) != ""
    ensures forall k :: k in r ==> r[k] == Source(query, f, k)
    ensures "q" in r <==> query != ""
    ensures "q" in r ==> r["q"] == query
    ensures "sections" in r <==> FilterValue(f, "ipcSections") != ""
    ensures "ipcSections" !in r
    ensures forall i :: 0 <= i < |FilterKeys| - 1 ==> (FilterKeys[i] in r <==> FilterValue(f, FilterKeys[i]) != "")
  {
    assert "q" in ParamKeys && "sections" in ParamKeys && "ipcSections" !in ParamKeys;
    map k | k in ParamKeys && Source(query, f, k) != "" :: Source(query, f, k)
  }

  /** The accused and victim names never reach the request: the search endpoint's builder does
      not know those keys, so the query is the same whatever they hold. */
  lemma NamesNeverSent(query: string, f: Filters, accused: string, victim: string)
    ensures QueryFor(SearchParams(query, f), SearchKeys)
      == QueryFor(SearchParams(query, f["accusedName" := accused]["victimName" := victim]), SearchKeys)
  {
    var g := f["accusedName" := accused]["victimName" := victim];
    forall i | 0 <= i < |SearchKeys|
      ensures Param(SearchParams(query, f), SearchKeys[i]) == Param(SearchParams(query, g), SearchKeys[i])
    {
      var k := SearchKeys[i];
      assert k != "accusedName" && k != "victimName";
      assert FilterValue(g, k) == FilterValue(f, k);
      assert FilterValue(g, "ipcSections") == FilterValue(f, "ipcSections");
      SameSourceSameParam(query, f, g, k);
    }
    QueryIgnoresOtherKeys(SearchParams(query, f), SearchParams(query, g), SearchKeys);
  }

  /** A parameter is sent the same way from two filter sets that agree on its source. */
  lemma SameSourceSameParam(query: string, f: Filters, g: Filters, k: string)
    requires Source(query, f, k) == Source(query, g, k)
    ensures Param(SearchParams(query, f), k) == Param(SearchParams(query, g), k)
  {
  }

  class SearchPage {
    var searchQuery: string
    var results: seq<Document>
    var loading: bool
    var filtersOpen: bool
    var filters: Filters
    var folders: seq<Folder>

    constructor ()
      ensures searchQuery == "" && results == [] && !loading && !filtersOpen
      ensures filters == EmptyFilters() && folders == []
    {
      searchQuery := "";
      results := [];
      loading := false;
      filtersOpen := false;
      filters := EmptyFilters();
      folders := [];
    }

    /** `fetchFolders`: the folder list for the folder filter; a failure keeps the old one. */
    method FetchFolders(reply: Result<seq<Folder>>)
      modifies this`folders
      ensures reply.Ok? ==> folders == reply.value
      ensures reply.Err? ==> folders == old(folders)
    {
      if reply.Ok? {
        folders := reply.value;
      }
    }

    method SetQuery(value: string)
      modifies this`searchQuery
      ensures searchQuery == value
    {
      searchQuery := value;
    }

    method ToggleFilters()
      modifies this`filtersOpen
      ensures filtersOpen == !old(filtersOpen)
    {
      filtersOpen := !filtersOpen;
    }

    /** `handleSearch` up to its request: nothing when the query is blank and no filter is
        set; otherwise loading starts and the parameters are sent. */
    method BeginSearch() returns (params: Option<map<string, string>>)
      modifies this`loading
      ensures Trim(searchQuery) == "" && !HasActiveFilters(filters) ==> params.None? && loading == old(loading)
      ensures !(Trim(searchQuery) == "" && !HasActiveFilters(filters)) ==>
        params == Some(SearchParams(searchQuery, filters)) && loading
    {
      var blank := Trim(searchQuery) == "" && !HasActiveFilters(filters);
      if blank {
        return None;
      }
      var sent := SearchParams(searchQuery, filters);
      loading := true;
      params := Some(sent);
    }

    /** `handleSearch` after the reply: the results are replaced on success and kept on
        failure; loading ends either way. */
    method EndSearch(reply: Result<seq<Document>>)
      modifies this`results, this`loading
      ensures !loading
      ensures reply.Ok? ==> results == reply.value
      ensures reply.Err? ==> results == old(results)
    {
      if reply.Ok? {
        results := reply.value;
      }
      loading := false;
    }

    /** `clearFilters`: every filter and the query emptied, the results cleared. A search right
        after does nothing. */
    method ClearFilters()
      modifies this`filters, this`searchQuery, this`results
      ensures filters == EmptyFilters() && searchQuery == "" && results == []
      ensures !HasActiveFilters(filters) && Trim(searchQuery) == ""
    {
      filters := EmptyFilters();
      searchQuery := "";
      results := [];
    }

    /** `handleFilterChange(key, value)`: that filter takes the value, the others are kept. */
    method FilterChange(key: string, value: string)
      modifies this`filters
      ensures filters == old(filters)[key := value]
      ensures forall k :: k in old(filters) && k != key ==> k in filters && filters[k] == old(filters)[k]
      ensures HasActiveFilters(filters) <==> value != "" || exists k :: k in old(filters) && k != key && old(filters)[k] != ""
    {
      filters := filters[key := value];
      if value != "" {
        assert filters[key] != "";
      }
      if exists k :: k in old(filters) && k != key && old(filters)[k] != "" {
        var k :| k in old(filters) && k != key && old(filters)[k] != "";
        assert filters[k] != "";
      }
    }
  }

  /** A search on the accused name alone goes ahead (the filter counts as active) but sends no
      parameter at all: the request is the unfiltered search. */
  lemma NameOnlySearchIsUnfiltered(name: string)
    requires name != ""
    ensures var f := EmptyFilters()["accusedName" := name];
      && HasActiveFilters(f)
      && QueryFor(SearchParams("", f), SearchKeys) == []
  {
    var f := EmptyFilters()["accusedName" := name];
    assert f["accusedName"] != "";
    var p := SearchParams("", f);
    assert forall k :: k in p <==> k == "accusedName";
    assert p == map[]["accusedName" := name];
    UnknownKeyIgnored(map[], SearchKeys, "accusedName", name);
    FilterNothing(SearchKeys);
  }

  lemma {:induction false} FilterNothing(keys: seq<string>)
    ensures QueryFor(map[], keys) == []
    decreases |keys|
  {
    if keys != [] {
      FilterNothing(keys[..|keys| - 1]);
    }
  }
}
