/** The listing page's client of `components/ArticlesClient.tsx`: the filters
    it reads from the address bar, the parameter rewrites behind "apply" and
    the page buttons, and the flag that skips the first fetch. The router is
    represented by the address it is asked to show. */
module ArticlesClient {
  import opened Wrappers
  import opened Text
  import opened JsArray
  import opened Params
  import opened ArticleTypes
  import opened Filtering
  import opened ArticlesService
  import opened ArticlesRoute
  import opened FiltersBar

  // ---------------------------------------------------------------- reading

  /** `v` is what `get(k)` reads: absent exactly when no pair has the key,
      and otherwise the first value given for it. */
  predicate FirstValue(ps: seq<Pair>, k: string, v: Option<string>) {
    && (v.None? <==> !HasKey(ps, k))
    && (v.Some? ==> GetAll(ps, k) != [] && v.value == GetAll(ps, k)[0])
  }

  /** `currentFilters`: scalars with `get`, topics with `getAll`. */
  function CurrentFilters(ps: seq<Pair>): (r: FiltersState)
    ensures r.topics == Some(GetAll(ps, "topics"))
    ensures FirstValue(ps, "query", r.query) && FirstValue(ps, "sport", r.sport)
    ensures FirstValue(ps, "organisation_type", r.organisation_type)
    ensures FirstValue(ps, "country", r.country)
    ensures FirstValue(ps, "content_type", r.content_type)
    ensures FirstValue(ps, "language", r.language)
  {
    GetAllEmpty(ps, "query");
    GetAllEmpty(ps, "sport");
    GetAllEmpty(ps, "organisation_type");
    GetAllEmpty(ps, "country");
    GetAllEmpty(ps, "content_type");
    GetAllEmpty(ps, "language");
    FiltersState(
      Get(ps, "query"),
      Get(ps, "sport"),
      Get(ps, "organisation_type"),
      Get(ps, "country"),
      Get(ps, "content_type"),
      Get(ps, "language"),
      Some(GetAll(ps, "topics")))
  }

  /** `(searchParams.get("sort") as SortOption) ?? "date_desc"` */
  function CurrentSort(ps: seq<Pair>): (r: SortOption)
    ensures !HasKey(ps, "sort") ==> r == DateDesc
    ensures HasKey(ps, "sort") ==> GetAll(ps, "sort") != [] && r == ParseSort(GetAll(ps, "sort")[0])
  {
    GetAllEmpty(ps, "sort");
    match Get(ps, "sort")
    case Some(s) => ParseSort(s)
    case None => DateDesc
  }

  // ---------------------------------------------------------------- updateParams

  /** A value of the record `updateParams` receives. */
  datatype EntryValue = Scalar(Option<string>) | Many(seq<string>)

  datatype Entry = Entry(key: string, value: EntryValue)

  /** The values one entry leaves under its key: the non-empty elements of an
      array, a truthy scalar, or nothing. */
  function EntryValues(v: EntryValue): seq<string> {
    match v
    case Many(vs) => NonEmpty(vs)
    case Scalar(s) => if s.Some? && s.value != "" then [s.value] else []
  }

  /** One step of the `forEach`: delete the key, then append the non-empty
      array elements or set a truthy scalar. */
  function ApplyEntry(ps: seq<Pair>, e: Entry): seq<Pair> {
    var cleared := Deleted(ps, e.key);
    match e.value
    case Many(vs) => cleared + ListPairs(vs, e.key)
    case Scalar(s) => if s.Some? && s.value != "" then SetParam(cleared, e.key, s.value) else cleared
  }

  function ApplyEntries(ps: seq<Pair>, entries: seq<Entry>): seq<Pair> {
    if entries == [] then ps
    else ApplyEntry(ApplyEntries(ps, entries[..|entries| - 1]), entries[|entries| - 1])
  }

  /** The parameters `updateParams` navigates to: every entry applied, then
      `page` removed. */
  function UpdatedParams(ps: seq<Pair>, entries: seq<Entry>): seq<Pair> {
    Deleted(ApplyEntries(ps, entries), "page")
  }

  /** The value of the last entry with key `k`, if any. */
  function Lookup(entries: seq<Entry>, k: string): Option<EntryValue> {
    if entries == [] then None
    else if entries[|entries| - 1].key == k then Some(entries[|entries| - 1].value)
    else Lookup(entries[..|entries| - 1], k)
  }

  lemma LookupSnoc(entries: seq<Entry>, e: Entry, k: string)
    ensures Lookup(entries + [e], k) == if e.key == k then Some(e.value) else Lookup(entries, k)
  {
    assert (entries + [e])[..|entries|] == entries;
  }

  lemma ApplyEntryGetAll(ps: seq<Pair>, e: Entry, k: string)
    ensures GetAll(ApplyEntry(ps, e), k) == if k == e.key then EntryValues(e.value) else GetAll(ps, k)
  {
    var cleared := Deleted(ps, e.key);
    DeleteGetAll(ps, e.key, k);
    match e.value
    case Many(vs) =>
      GetAllConcat(cleared, ListPairs(vs, e.key), k);
      ListPairsGetAll(vs, e.key, k);
    case Scalar(s) =>
      if s.Some? && s.value != "" {
        SetGetAll(cleared, e.key, s.value, k);
      }
  }

  lemma {:induction false} ApplyEntriesGetAll(ps: seq<Pair>, entries: seq<Entry>, k: string)
    ensures GetAll(ApplyEntries(ps, entries), k) ==
      match Lookup(entries, k)
      case Some(v) => EntryValues(v)
      case None => GetAll(ps, k)
  {
    if entries != [] {
      ApplyEntriesGetAll(ps, entries[..|entries| - 1], k);
      ApplyEntryGetAll(ApplyEntries(ps, entries[..|entries| - 1]), entries[|entries| - 1], k);
    }
  }

  /** Each mentioned key holds exactly the values of its (last) entry, `page`
      is gone, and every other key keeps its values in order. */
  lemma UpdatedParamsGetAll(ps: seq<Pair>, entries: seq<Entry>, k: string)
    ensures GetAll(UpdatedParams(ps, entries), k) ==
      if k == "page" then []
      else match Lookup(entries, k)
        case Some(v) => EntryValues(v)
        case None => GetAll(ps, k)
  {
    ApplyEntriesGetAll(ps, entries, k);
    DeleteGetAll(ApplyEntries(ps, entries), "page", k);
  }

  /** `updateParams` on a `URLSearchParams` copy of the current parameters. */
  method UpdateParams(current: seq<Pair>, entries: seq<Entry>) returns (next: seq<Pair>)
    ensures next == UpdatedParams(current, entries)
  {
    var search := new SearchParams(current);
    var i := 0;
    while i < |entries|
      invariant 0 <= i <= |entries|
      invariant search.pairs == ApplyEntries(current, entries[..i])
    {
      assert entries[..i + 1][..i] == entries[..i];
      var e := entries[i];
      search.Delete(e.key);
      match e.value {
        case Many(vs) =>
          AppendEach(search, Some(vs), e.key);
        case Scalar(s) =>
          if s.Some? && s.value != "" {
            search.Set(e.key, s.value);
          }
      }
      i := i + 1;
    }
    assert entries[..|entries|] == entries;
    search.Delete("page");
    next := search.pairs;
  }

  // ---------------------------------------------------------------- addresses

  /** `key=value`; percent-encoding is not modelled. */
  function PairText(p: Pair): string {
    p.key + "=" + p.value
  }

  /** `URLSearchParams.toString()` without percent-encoding. */
  function Serialize(ps: seq<Pair>): (r: string)
    ensures ps == [] <==> r == ""
  {
    if ps == [] then ""
    else if |ps| == 1 then PairText(ps[0])
    else PairText(ps[0]) + "&" + Serialize(ps[1..])
  }

  /** `query ? `${pathname}?${query}` : pathname` */
  function Address(pathname: string, ps: seq<Pair>): string {
    var query := Serialize(ps);
    if query != "" then pathname + "?" + query else pathname
  }

  /** The address is the bare path exactly when no parameter is left;
      otherwise it is the path, `?`, and the serialised parameters. */
  lemma AddressMeaning(pathname: string, ps: seq<Pair>)
    ensures Address(pathname, ps) == pathname <==> ps == []
    ensures ps != [] ==> Address(pathname, ps) == pathname + "?" + Serialize(ps)
  {
    if ps != [] {
      assert |Address(pathname, ps)| > |pathname|;
    }
  }

  // ---------------------------------------------------------------- handlers

  /** `filters.query?.trim() || undefined` */
  function TrimmedQuery(q: Option<string>): (r: Option<string>)
    ensures r.Some? ==> r.value != "" && q.Some? && r.value == Trim(q.value)
    ensures r.None? ==> q.None? || Trim(q.value) == ""
  {
    match q
    case None => None
    case Some(s) => if Trim(s) == "" then None else Some(Trim(s))
  }

  /** `filters.topics?.length ? filters.topics : undefined` */
  function TopicsEntry(topics: Option<seq<string>>): EntryValue {
    if topics.Some? && |topics.value| > 0 then Many(topics.value) else Scalar(None)
  }

  /** The record `handleApplyFilters` passes to `updateParams`, in its order. */
  function ApplyFiltersEntries(filters: FiltersState, nextSort: SortOption, perPage: int): seq<Entry> {
    [ Entry("query", Scalar(TrimmedQuery(filters.query))),
      Entry("sport", Scalar(filters.sport)),
      Entry("organisation_type", Scalar(filters.organisation_type)),
      Entry("country", Scalar(filters.country)),
      Entry("content_type", Scalar(filters.content_type)),
      Entry("language", Scalar(filters.language)),
      Entry("topics", TopicsEntry(filters.topics)),
      Entry("sort", Scalar(Some(SortName(nextSort)))),
      Entry("limit", Scalar(Some(IntToString(perPage)))) ]
  }

  /** `handleApplyFilters(filters, nextSort)`: the address the router is sent to. */
  method HandleApplyFilters(current: seq<Pair>, pathname: string, filters: FiltersState,
                            nextSort: SortOption, perPage: int)
    returns (address: string)
    ensures address == Address(pathname, UpdatedParams(current, ApplyFiltersEntries(filters, nextSort, perPage)))
  {
    var next := UpdateParams(current, ApplyFiltersEntries(filters, nextSort, perPage));
    address := Address(pathname, next);
  }

  /** The topics entry leaves the non-empty selected topics. */
  lemma TopicsEntryValues(topics: Option<seq<string>>)
    ensures EntryValues(TopicsEntry(topics)) == NonEmpty(topics.GetOr([]))
  {
  }

  /** Which entry of the "apply" record names each key. */
  lemma ApplyFiltersLookup(filters: FiltersState, nextSort: SortOption, perPage: int, k: string)
    ensures Lookup(ApplyFiltersEntries(filters, nextSort, perPage), k) ==
      if k == "limit" then Some(Scalar(Some(IntToString(perPage))))
      else if k == "sort" then Some(Scalar(Some(SortName(nextSort))))
      else if k == "topics" then Some(TopicsEntry(filters.topics))
      else if k == "language" then Some(Scalar(filters.language))
      else if k == "content_type" then Some(Scalar(filters.content_type))
      else if k == "country" then Some(Scalar(filters.country))
      else if k == "organisation_type" then Some(Scalar(filters.organisation_type))
      else if k == "sport" then Some(Scalar(filters.sport))
      else if k == "query" then Some(Scalar(TrimmedQuery(filters.query)))
      else None
  {
    var es := ApplyFiltersEntries(filters, nextSort, perPage);
    assert es == es[..8] + [es[8]];
    LookupSnoc(es[..8], es[8], k);
    assert es[..8] == es[..7] + [es[7]];
    LookupSnoc(es[..7], es[7], k);
    assert es[..7] == es[..6] + [es[6]];
    LookupSnoc(es[..6], es[6], k);
    assert es[..6] == es[..5] + [es[5]];
    LookupSnoc(es[..5], es[5], k);
    assert es[..5] == es[..4] + [es[4]];
    LookupSnoc(es[..4], es[4], k);
    assert es[..4] == es[..3] + [es[3]];
    LookupSnoc(es[..3], es[3], k);
    assert es[..3] == es[..2] + [es[2]];
    LookupSnoc(es[..2], es[2], k);
    assert es[..2] == es[..1] + [es[1]];
    LookupSnoc(es[..1], es[1], k);
    assert es[..1] == [] + [es[0]];
    LookupSnoc([], es[0], k);
  }

  /** After "apply", the trimmed query, the sort and the page size are set,
      and the page is back to the first. */
  lemma ApplyFiltersQuery(current: seq<Pair>, filters: FiltersState, nextSort: SortOption, perPage: int)
    ensures var ps := UpdatedParams(current, ApplyFiltersEntries(filters, nextSort, perPage));
      && GetAll(ps, "query") == EntryValues(Scalar(TrimmedQuery(filters.query)))
      && GetAll(ps, "sort") == [SortName(nextSort)]
      && GetAll(ps, "limit") == [IntToString(perPage)]
      && GetAll(ps, "page") == []
  {
    var es := ApplyFiltersEntries(filters, nextSort, perPage);
    ApplyFiltersLookup(filters, nextSort, perPage, "query");
    ApplyFiltersLookup(filters, nextSort, perPage, "sort");
    ApplyFiltersLookup(filters, nextSort, perPage, "limit");
    UpdatedParamsGetAll(current, es, "query");
    UpdatedParamsGetAll(current, es, "sort");
    UpdatedParamsGetAll(current, es, "limit");
    UpdatedParamsGetAll(current, es, "page");
  }

  /** After "apply", each facet holds the chosen value if any and the topics
      hold the non-empty selected topics. */
  lemma ApplyFiltersFacets(current: seq<Pair>, filters: FiltersState, nextSort: SortOption, perPage: int)
    ensures var ps := UpdatedParams(current, ApplyFiltersEntries(filters, nextSort, perPage));
      && GetAll(ps, "sport") == EntryValues(Scalar(filters.sport))
      && GetAll(ps, "organisation_type") == EntryValues(Scalar(filters.organisation_type))
      && GetAll(ps, "country") == EntryValues(Scalar(filters.country))
      && GetAll(ps, "content_type") == EntryValues(Scalar(filters.content_type))
      && GetAll(ps, "language") == EntryValues(Scalar(filters.language))
      && GetAll(ps, "topics") == NonEmpty(filters.topics.GetOr([]))
  {
    var es := ApplyFiltersEntries(filters, nextSort, perPage);
    ApplyFiltersLookup(filters, nextSort, perPage, "sport");
    ApplyFiltersLookup(filters, nextSort, perPage, "organisation_type");
    ApplyFiltersLookup(filters, nextSort, perPage, "country");
    ApplyFiltersLookup(filters, nextSort, perPage, "content_type");
    ApplyFiltersLookup(filters, nextSort, perPage, "language");
    ApplyFiltersLookup(filters, nextSort, perPage, "topics");
    UpdatedParamsGetAll(current, es, "sport");
    UpdatedParamsGetAll(current, es, "organisation_type");
    UpdatedParamsGetAll(current, es, "country");
    UpdatedParamsGetAll(current, es, "content_type");
    UpdatedParamsGetAll(current, es, "language");
    UpdatedParamsGetAll(current, es, "topics");
  }

  /** The listing request that follows "apply": first page, the chosen sort,
      the current page size (capped at 50), and the trimmed query. */
  lemma ApplyFiltersRequest(current: seq<Pair>, filters: FiltersState, nextSort: SortOption, perPage: int)
    requires perPage != 0
    ensures var args := ArgsFromRequest(UpdatedParams(current, ApplyFiltersEntries(filters, nextSort, perPage)));
      && args.page == Some(1)
      && args.sort == Some(nextSort)
      && args.limit == Some(Min(perPage, MAX_LIMIT))
      && args.filters.query == TrimmedQuery(filters.query)
  {
    ApplyFiltersQuery(current, filters, nextSort, perPage);
    NumberOfIntToString(perPage);
    ParseSortName(nextSort);
  }

  /** A parameter none of the nine entries names keeps its values. */
  lemma ApplyFiltersKeepsOthers(current: seq<Pair>, filters: FiltersState, nextSort: SortOption,
                                perPage: int, k: string)
    requires k !in ["query", "sport", "organisation_type", "country", "content_type",
                    "language", "topics", "sort", "limit", "page"]
    ensures GetAll(UpdatedParams(current, ApplyFiltersEntries(filters, nextSort, perPage)), k) ==
      GetAll(current, k)
  {
    ApplyFiltersLookup(filters, nextSort, perPage, k);
    UpdatedParamsGetAll(current, ApplyFiltersEntries(filters, nextSort, perPage), k);
  }

  /** The parameters `handlePageChange(page)` navigates to. */
  function PageParams(ps: seq<Pair>, page: int): seq<Pair> {
    SetParam(ps, "page", IntToString(page))
  }

  /** `handlePageChange(page)`: the address always carries the parameters. */
  method HandlePageChange(current: seq<Pair>, pathname: string, page: int) returns (address: string)
    ensures address == pathname + "?" + Serialize(PageParams(current, page))
  {
    var next := new SearchParams(current);
    next.Set("page", IntToString(page));
    address := pathname + "?" + Serialize(next.pairs);
  }

  /** Changing page sets `page` alone: every other parameter keeps its values. */
  lemma PageChangeOnlyPage(ps: seq<Pair>, page: int, k: string)
    ensures GetAll(PageParams(ps, page), k) == if k == "page" then [IntToString(page)] else GetAll(ps, k)
  {
    SetGetAll(ps, "page", IntToString(page), k);
  }

  /** The route reads the same request from both parameter lists, except
      possibly the page. */
  lemma SameRequestButPage(ps: seq<Pair>, qs: seq<Pair>)
    requires GetAll(qs, "query") == GetAll(ps, "query")
    requires GetAll(qs, "sport") == GetAll(ps, "sport")
    requires GetAll(qs, "organisation_type") == GetAll(ps, "organisation_type")
    requires GetAll(qs, "country") == GetAll(ps, "country")
    requires GetAll(qs, "content_type") == GetAll(ps, "content_type")
    requires GetAll(qs, "language") == GetAll(ps, "language")
    requires GetAll(qs, "topics") == GetAll(ps, "topics")
    requires GetAll(qs, "limit") == GetAll(ps, "limit")
    requires GetAll(qs, "sort") == GetAll(ps, "sort")
    ensures ArgsFromRequest(qs) == ArgsFromRequest(ps).(page := ArgsFromRequest(qs).page)
  {
  }

  /** After a page change the route reads the same request with the new page. */
  lemma PageChangeRequest(ps: seq<Pair>, page: int)
    requires page != 0
    ensures ArgsFromRequest(PageParams(ps, page)) == ArgsFromRequest(ps).(page := Some(page))
  {
    var qs := PageParams(ps, page);
    PageChangeOnlyPage(ps, page, "query");
    PageChangeOnlyPage(ps, page, "sport");
    PageChangeOnlyPage(ps, page, "organisation_type");
    PageChangeOnlyPage(ps, page, "country");
    PageChangeOnlyPage(ps, page, "content_type");
    PageChangeOnlyPage(ps, page, "language");
    PageChangeOnlyPage(ps, page, "topics");
    PageChangeOnlyPage(ps, page, "limit");
    PageChangeOnlyPage(ps, page, "sort");
    PageChangeOnlyPage(ps, page, "page");
    SameRequestButPage(ps, qs);
    NumberOfIntToString(page);
  }

  // ---------------------------------------------------------------- first fetch

  /** `initializedRef` together with the server-rendered parameters. */
  class FetchGate {
    const initialParams: string
    var initialized: bool

    constructor (initialParams: string)
      ensures this.initialParams == initialParams && !initialized
    {
      this.initialParams := initialParams;
      initialized := false;
    }

    /** One run of the fetching effect for the query string `qs`: the first
        run on the server's own parameters is skipped, every other run fetches. */
    method Run(qs: string) returns (fetch: bool)
      modifies this
      ensures fetch <==> old(initialized) || qs != initialParams
      ensures initialized <==> old(initialized) || qs == initialParams
    {
      if !initialized && qs == initialParams {
        initialized := true;
        return false;
      }
      fetch := true;
    }
  }

  /** Run `i` is the first run on the server's parameters. */
  predicate FirstOnInitial(runs: seq<string>, initialParams: string, i: int)
    requires 0 <= i < |runs|
  {
    runs[i] == initialParams && forall j :: 0 <= j < i ==> runs[j] != initialParams
  }

  /** The fetch decisions of the effect over a run of query strings: exactly
      the first run on the server's parameters is skipped, wherever it comes
      in the series, so at most one run is skipped, and the gate ends
      initialised exactly when such a run happened. */
  method RunEffects(gate: FetchGate, runs: seq<string>) returns (fetches: seq<bool>)
    requires !gate.initialized
    modifies gate
    ensures |fetches| == |runs|
    ensures forall i :: 0 <= i < |runs| ==> (!fetches[i] <==> FirstOnInitial(runs, gate.initialParams, i))
    ensures forall i, j :: 0 <= i < j < |fetches| ==> fetches[i] || fetches[j]
    ensures forall i :: 0 <= i < |runs| && runs[i] != gate.initialParams ==> fetches[i]
    ensures gate.initialized <==> gate.initialParams in runs
  {
    fetches := [];
    var i := 0;
    while i < |runs|
      invariant 0 <= i <= |runs|
      invariant |fetches| == i
      invariant gate.initialized <==> gate.initialParams in runs[..i]
      invariant forall a :: 0 <= a < i ==> (!fetches[a] <==> FirstOnInitial(runs, gate.initialParams, a))
      invariant forall a, b :: 0 <= a < b < i ==> fetches[a] || fetches[b]
    {
      assert runs[..i + 1] == runs[..i] + [runs[i]];
      var f := gate.Run(runs[i]);
      fetches := fetches + [f];
      i := i + 1;
    }
    assert runs[..i] == runs;
  }
}
