/** `lib/filtering.ts`: the filter engine, the sort engine, the paginator and
    the query-string serialiser/parser pair. */
module Filtering {
  import opened Wrappers
  import opened Text
  import opened JsArray
  import opened ArticleTypes
  import opened Params

  const DEFAULT_PER_PAGE: int := 12
  const MAX_LIMIT: int := 50

  // ================================================================ filter

  /** `textIncludes`: case-insensitive substring test. */
  predicate TextIncludes(value: string, query: string) {
    ContainsIgnoreCase(value, query)
  }

  /** One facet list: absent or empty imposes nothing, otherwise exact membership. */
  predicate FacetAllows(list: Option<seq<string>>, value: string) {
    match list
    case None => true
    case Some(vs) => vs == [] || value in vs
  }

  /** The topics facet: absent or empty imposes nothing, otherwise some topic
      of the article must be in the list. */
  predicate TopicsAllow(list: Option<seq<string>>, topics: seq<string>) {
    match list
    case None => true
    case Some(vs) => vs == [] || exists t :: t in topics && t in vs
  }

  /** A non-empty `query` must occur in one of the five searched fields. */
  predicate QueryAllows(query: Option<string>, a: Article) {
    match query
    case None => true
    case Some(q) =>
      q == ""
      || TextIncludes(a.title, q) || TextIncludes(a.summary, q)
      || TextIncludes(a.source_name, q) || TextIncludes(a.sport, q)
      || TextIncludes(a.country, q)
  }

  /** The conjunction `applyFilters` keeps an article for. */
  predicate Matches(a: Article, f: ArticleFilters) {
    && QueryAllows(f.query, a)
    && FacetAllows(f.sports, a.sport)
    && FacetAllows(f.organisationTypes, a.organisation_type)
    && FacetAllows(f.countries, a.country)
    && FacetAllows(f.contentTypes, a.content_type)
    && FacetAllows(f.languages, a.language)
    && TopicsAllow(f.topics, a.topics)
    && FacetAllows(f.statuses, a.status)
  }

  /** `applyFilters`: the articles that satisfy every constraint, in input
      order, each as often as it occurs in the input. */
  function ApplyFilters(items: seq<Article>, filters: ArticleFilters): (r: seq<Article>)
    ensures IsSubsequence(r, items)
    ensures forall a :: a in r <==> a in items && Matches(a, filters)
    ensures forall a :: multiset(r)[a] == if Matches(a, filters) then multiset(items)[a] else 0
  {
    Filter(items, a => Matches(a, filters))
  }

  /** With every constraint absent, `applyFilters` returns its input unchanged. */
  lemma ApplyNoFilters(items: seq<Article>)
    ensures ApplyFilters(items, NoFilters) == items
  {
    FilterAll(items, a => Matches(a, NoFilters));
  }

  /** The topics constraint holds exactly when the two topic lists share an element. */
  lemma TopicsAllowOverlap(vs: seq<string>, topics: seq<string>)
    requires vs != []
    ensures TopicsAllow(Some(vs), topics) <==> (set t | t in topics) * (set t | t in vs) != {}
  {
    if TopicsAllow(Some(vs), topics) {
      var t :| t in topics && t in vs;
      assert t in (set t | t in topics) * (set t | t in vs);
    }
  }

  /** The search ignores the case of the query. */
  lemma QueryIgnoresCase(q: string, a: Article)
    ensures QueryAllows(Some(q), a) <==> QueryAllows(Some(Lower(q)), a)
  {
    LowerIdempotent(q);
    assert q == "" <==> Lower(q) == "";
  }

  // ================================================================ sort

  /** `a` may precede `b` under `sort`: the comparator of `sortItems` is not
      positive for the pair. */
  predicate InOrder(sort: SortOption, a: Article, b: Article) {
    match sort
    case OfficialDesc =>
      a.official_weight > b.official_weight
      || (a.official_weight == b.official_weight && a.published_at >= b.published_at)
    case DateAsc => a.published_at <= b.published_at
    case DateDesc => a.published_at >= b.published_at
  }

  predicate Sorted(sort: SortOption, s: seq<Article>) {
    forall i, j :: 0 <= i < j < |s| ==> InOrder(sort, s[i], s[j])
  }

  lemma InOrderTotal(sort: SortOption, a: Article, b: Article)
    ensures InOrder(sort, a, b) || InOrder(sort, b, a)
  {
  }

  lemma InOrderTransitive(sort: SortOption, a: Article, b: Article, c: Article)
    requires InOrder(sort, a, b) && InOrder(sort, b, c)
    ensures InOrder(sort, a, c)
  {
  }

  /** Exchanges `a[i - 1]` and `a[i]`. */
  method Swap(a: array<Article>, i: nat)
    requires 0 < i < a.Length
    modifies a
    ensures a[..] == old(a[..])[i - 1 := old(a[i])][i := old(a[i - 1])]
    ensures multiset(a[..]) == multiset(old(a[..]))
  {
    a[i - 1], a[i] := a[i], a[i - 1];
  }

  /** Moves `a[i]` left into the sorted prefix `a[..i]`. */
  method Insert(a: array<Article>, i: nat, sort: SortOption)
    requires i < a.Length
    requires Sorted(sort, a[..i])
    modifies a
    ensures Sorted(sort, a[..i + 1])
    ensures multiset(a[..]) == multiset(old(a[..]))
    ensures a[i + 1..] == old(a[i + 1..])
  {
    var j := i;
    while j > 0 && !InOrder(sort, a[j - 1], a[j])
      invariant 0 <= j <= i
      invariant multiset(a[..]) == multiset(old(a[..]))
      invariant a[i + 1..] == old(a[i + 1..])
      invariant forall p, q :: 0 <= p < q <= i && p != j && q != j ==> InOrder(sort, a[p], a[q])
      invariant forall q :: j < q <= i ==> InOrder(sort, a[j], a[q])
    {
      InOrderTotal(sort, a[j - 1], a[j]);
      Swap(a, j);
      j := j - 1;
    }
    forall p | 0 <= p < j ensures InOrder(sort, a[p], a[j]) {
      InOrderTransitive(sort, a[p], a[j - 1], a[j]);
    }
  }

  /** `sorted.sort(comparator)` on the copy. */
  method SortInPlace(a: array<Article>, sort: SortOption)
    modifies a
    ensures Sorted(sort, a[..])
    ensures multiset(a[..]) == multiset(old(a[..]))
  {
    var i := 0;
    while i < a.Length
      invariant 0 <= i <= a.Length
      invariant Sorted(sort, a[..i])
      invariant multiset(a[..]) == multiset(old(a[..]))
    {
      Insert(a, i, sort);
      i := i + 1;
    }
    assert a[..a.Length] == a[..];
  }

  /** `sortItems`: sorts a fresh copy, so the input is left as it was. The
      result is a permutation of the input ordered by `sort`; under
      `official_desc` equal weights put the later `published_at` first. */
  method SortItems(items: seq<Article>, sort: SortOption) returns (sorted: seq<Article>)
    ensures multiset(sorted) == multiset(items)
    ensures Sorted(sort, sorted)
  {
    var copy := new Article[|items|](i requires 0 <= i < |items| => items[i]);
    assert copy[..] == items;
    SortInPlace(copy, sort);
    sorted := copy[..];
  }

  /** What `Sorted` means for each option, spelled out. */
  lemma SortedMeaning(sort: SortOption, s: seq<Article>, i: nat, j: nat)
    requires Sorted(sort, s) && i < j < |s|
    ensures sort == DateAsc ==> s[i].published_at <= s[j].published_at
    ensures sort == DateDesc ==> s[i].published_at >= s[j].published_at
    ensures sort == OfficialDesc ==>
      s[i].official_weight >= s[j].official_weight
      && (s[i].official_weight == s[j].official_weight ==> s[i].published_at >= s[j].published_at)
  {
  }

  // ================================================================ paginate

  /** `paginate`: clamps page and page size to at least 1, returns the slice
      `[(page - 1) * perPage, page * perPage)` and its metadata. */
  function Paginate(items: seq<Article>, page: int, perPage: int): (r: PaginatedArticles)
    ensures r.page == Max(page, 1) && r.perPage == Max(1, perPage) && r.total == |items|
    ensures r.hasMore <==> r.page * r.perPage < |items|
  {
    var validPage := Max(page, 1);
    var validPerPage := Max(1, perPage);
    var start := (validPage - 1) * validPerPage;
    var end := start + validPerPage;
    PageBounds(validPage, validPerPage);
    PaginatedArticles(Slice(items, start, end), |items|, validPage, validPerPage, end < |items|)
  }

  lemma SliceWindow(items: seq<Article>, start: int, n: int)
    requires start >= 0 && n >= 1
    ensures var r := Slice(items, start, start + n);
      && |r| == (if start >= |items| then 0 else Min(n, |items| - start))
      && forall k :: 0 <= k < |r| ==> r[k] == items[start + k]
  {
  }

  lemma PageBounds(page: int, perPage: int)
    requires page >= 1 && perPage >= 1
    ensures (page - 1) * perPage >= 0
    ensures (page - 1) * perPage + perPage == page * perPage
  {
  }

  /** The page holds the articles from index `(page - 1) * perPage` on, as
      many as fit in a page and no more than remain. */
  lemma PaginateItems(items: seq<Article>, page: int, perPage: int)
    ensures var r := Paginate(items, page, perPage);
      var start := (r.page - 1) * r.perPage;
      && |r.items| == (if start >= |items| then 0 else Min(r.perPage, |items| - start))
      && forall k :: 0 <= k < |r.items| ==> r.items[k] == items[start + k]
  {
    var r := Paginate(items, page, perPage);
    PageBounds(r.page, r.perPage);
    SliceWindow(items, (r.page - 1) * r.perPage, r.perPage);
  }

  /** Every article appears on the page its index determines. */
  lemma PageOfIndex(items: seq<Article>, perPage: int, i: nat)
    requires perPage >= 1 && i < |items|
    ensures var r := Paginate(items, i / perPage + 1, perPage);
      i % perPage < |r.items| && r.items[i % perPage] == items[i]
  {
    var p := i / perPage + 1;
    var r := Paginate(items, p, perPage);
    PaginateItems(items, p, perPage);
    var q, m := i / perPage, i % perPage;
    DivisionParts(i, perPage);
    assert (r.page - 1) * r.perPage == q * perPage;
    assert q * perPage + m == i;
  }

  lemma DivisionParts(i: nat, n: int)
    requires n >= 1
    ensures (i / n) * n + i % n == i && 0 <= i % n < n
  {
  }

  /** A page that starts past the end is empty and has nothing after it. */
  lemma PagePastEnd(items: seq<Article>, page: int, perPage: int)
    requires page >= 1 && perPage >= 1 && (page - 1) * perPage >= |items|
    ensures Paginate(items, page, perPage).items == []
    ensures !Paginate(items, page, perPage).hasMore
  {
    PaginateItems(items, page, perPage);
    PageBounds(page, perPage);
  }

  // ================================================================ query string

  datatype QueryStringArgs = QueryStringArgs(
    filters: ArticleFilters,
    limit: Option<int>,
    page: Option<int>,
    sort: Option<SortOption>)

  /** `values.filter(Boolean)` on strings. */
  function NonEmpty(vs: seq<string>): (r: seq<string>)
    ensures forall v :: v in r <==> v in vs && v != ""
  {
    if vs == [] then []
    else
      var last := vs[|vs| - 1];
      assert vs == vs[..|vs| - 1] + [last];
      NonEmpty(vs[..|vs| - 1]) + (if last != "" then [last] else [])
  }

  /** One `append(key, value)` per non-empty value, in order. */
  function ListPairs(vs: seq<string>, key: string): seq<Pair> {
    if vs == [] then []
    else
      var last := vs[|vs| - 1];
      ListPairs(vs[..|vs| - 1], key) + (if last != "" then [Pair(key, last)] else [])
  }

  predicate QueryActive(q: Option<string>) {
    q.Some? && q.value != ""
  }

  /** The pairs after the `query` step. */
  function QueryStep(args: QueryStringArgs): seq<Pair> {
    var q := args.filters.query;
    if QueryActive(q) then SetParam([], "query", q.value) else []
  }

  /** The pairs after the six `mapArray` calls, each appending one pair per
      non-empty value. */
  function FacetStep(args: QueryStringArgs): seq<Pair> {
    var f := args.filters;
    QueryStep(args)
    + ListPairs(f.sports.GetOr([]), "sport")
    + ListPairs(f.organisationTypes.GetOr([]), "organisation_type")
    + ListPairs(f.countries.GetOr([]), "country")
    + ListPairs(f.contentTypes.GetOr([]), "content_type")
    + ListPairs(f.languages.GetOr([]), "language")
    + ListPairs(f.topics.GetOr([]), "topics")
  }

  function SortStep(args: QueryStringArgs): seq<Pair> {
    var p := FacetStep(args);
    if args.sort.Some? then SetParam(p, "sort", SortName(args.sort.value)) else p
  }

  /** `page` is written only past the first page. */
  function PageStep(args: QueryStringArgs): seq<Pair> {
    var p := SortStep(args);
    if args.page.Some? && args.page.value > 1 then SetParam(p, "page", IntToString(args.page.value)) else p
  }

  /** The pairs `buildQueryString` leaves in its `URLSearchParams`: a truthy
      limit is written capped at 50. */
  function QueryPairs(args: QueryStringArgs): seq<Pair> {
    var p := PageStep(args);
    if args.limit.Some? && args.limit.value != 0
    then SetParam(p, "limit", IntToString(Min(args.limit.value, MAX_LIMIT)))
    else p
  }

  /** The `mapArray` helper: appends one pair per non-empty value. */
  method AppendEach(params: SearchParams, values: Option<seq<string>>, key: string)
    modifies params
    ensures params.pairs == old(params.pairs) + ListPairs(values.GetOr([]), key)
  {
    var vs := values.GetOr([]);
    var i := 0;
    while i < |vs|
      invariant 0 <= i <= |vs|
      invariant params.pairs == old(params.pairs) + ListPairs(vs[..i], key)
    {
      assert vs[..i + 1][..i] == vs[..i];
      if vs[i] != "" {
        params.Append(key, vs[i]);
      }
      i := i + 1;
    }
    assert vs[..|vs|] == vs;
  }

  /** `buildQueryString` */
  method BuildQueryString(args: QueryStringArgs) returns (pairs: seq<Pair>)
    ensures pairs == QueryPairs(args)
  {
    var f := args.filters;
    var params := new SearchParams([]);
    if QueryActive(f.query) {
      params.Set("query", f.query.value);
    }
    AppendEach(params, f.sports, "sport");
    AppendEach(params, f.organisationTypes, "organisation_type");
    AppendEach(params, f.countries, "country");
    AppendEach(params, f.contentTypes, "content_type");
    AppendEach(params, f.languages, "language");
    AppendEach(params, f.topics, "topics");
    if args.sort.Some? {
      params.Set("sort", SortName(args.sort.value));
    }
    if args.page.Some? && args.page.value > 1 {
      params.Set("page", IntToString(args.page.value));
    }
    if args.limit.Some? && args.limit.value != 0 {
      params.Set("limit", IntToString(Min(args.limit.value, MAX_LIMIT)));
    }
    pairs := params.pairs;
  }

  /** `getAll(key).filter(Boolean)`, with an empty list read as absent. */
  function ListParam(ps: seq<Pair>, key: string): (r: Option<seq<string>>)
    ensures r.Some? ==> r.value != [] && "" !in r.value
  {
    var vs := NonEmpty(GetAll(ps, key));
    if vs == [] then None else Some(vs)
  }

  /** `filtersFromParams`: reads the keys `buildQueryString` writes. The sort
      defaults to `date_desc`, the page to 1, and an unreadable or zero limit
      is absent. */
  function FiltersFromParams(ps: seq<Pair>): (r: QueryStringArgs)
    ensures r.sort.Some? && r.page.Some? && r.page.value != 0
    ensures r.limit.Some? ==> r.limit.value != 0
    ensures r.filters.statuses.None?
    ensures r.filters.query == Get(ps, "query")
    ensures r.filters.topics.Some? ==> r.filters.topics.value != [] && "" !in r.filters.topics.value
  {
    var limit := ParseNumber(Get(ps, "limit").GetOr(""));
    QueryStringArgs(
      ArticleFilters(
        Get(ps, "query"),
        ListParam(ps, "sport"),
        ListParam(ps, "organisation_type"),
        ListParam(ps, "country"),
        ListParam(ps, "content_type"),
        ListParam(ps, "language"),
        ListParam(ps, "topics"),
        None),
      if limit.Some? && limit.value != 0 then limit else None,
      Some(NumberOr(Get(ps, "page").GetOr(""), 1)),
      Some(match Get(ps, "sort") case Some(s) => ParseSort(s) case None => DateDesc))
  }

  // ---------------------------------------------------------------- round trip

  lemma {:induction false} ListPairsGetAll(vs: seq<string>, key: string, k: string)
    ensures GetAll(ListPairs(vs, key), k) == if k == key then NonEmpty(vs) else []
  {
    if vs != [] {
      var last := vs[|vs| - 1];
      ListPairsGetAll(vs[..|vs| - 1], key, k);
      GetAllConcat(ListPairs(vs[..|vs| - 1], key),
        if last != "" then [Pair(key, last)] else [], k);
    }
  }

  lemma {:induction false} NonEmptyIdempotent(vs: seq<string>)
    ensures NonEmpty(NonEmpty(vs)) == NonEmpty(vs)
  {
    if vs != [] {
      var init := NonEmpty(vs[..|vs| - 1]);
      NonEmptyIdempotent(vs[..|vs| - 1]);
      var last := vs[|vs| - 1];
      if last != "" {
        var r := init + [last];
        assert r[..|r| - 1] == init && r[|r| - 1] == last;
        assert NonEmpty(vs) == r;
        assert NonEmpty(r) == NonEmpty(init) + [last];
      } else {
        assert NonEmpty(vs) == init + [];
        assert init + [] == init;
      }
    }
  }

  /** The list a facet takes after a trip through the query string. */
  function Relisted(list: Option<seq<string>>): Option<seq<string>> {
    var vs := NonEmpty(list.GetOr([]));
    if vs == [] then None else Some(vs)
  }

  /** What `filtersFromParams(buildQueryString(args))` gives back: the query
      when non-empty, each facet list without its empty values (absent when
      nothing is left), no statuses, the limit capped at 50, the page when
      above 1 (else 1), and the sort (else `date_desc`). */
  function Reparsed(args: QueryStringArgs): QueryStringArgs {
    var f := args.filters;
    QueryStringArgs(
      ArticleFilters(
        if QueryActive(f.query) then f.query else None,
        Relisted(f.sports), Relisted(f.organisationTypes), Relisted(f.countries),
        Relisted(f.contentTypes), Relisted(f.languages), Relisted(f.topics),
        None),
      if args.limit.Some? && args.limit.value != 0 then Some(Min(args.limit.value, MAX_LIMIT)) else None,
      Some(if args.page.Some? && args.page.value > 1 then args.page.value else 1),
      Some(args.sort.GetOr(DateDesc)))
  }

  /** The values of each key after the `mapArray` calls. */
  function FacetValues(args: QueryStringArgs, k: string): seq<string> {
    var f := args.filters;
    if k == "query" then (if QueryActive(f.query) then [f.query.value] else [])
    else if k == "sport" then NonEmpty(f.sports.GetOr([]))
    else if k == "organisation_type" then NonEmpty(f.organisationTypes.GetOr([]))
    else if k == "country" then NonEmpty(f.countries.GetOr([]))
    else if k == "content_type" then NonEmpty(f.contentTypes.GetOr([]))
    else if k == "language" then NonEmpty(f.languages.GetOr([]))
    else if k == "topics" then NonEmpty(f.topics.GetOr([]))
    else []
  }

  lemma AppendListGetAll(p: seq<Pair>, vs: seq<string>, key: string, k: string)
    ensures k != key ==> GetAll(p + ListPairs(vs, key), k) == GetAll(p, k)
    ensures k == key ==> GetAll(p + ListPairs(vs, key), k) == GetAll(p, k) + NonEmpty(vs)
  {
    GetAllConcat(p, ListPairs(vs, key), k);
    ListPairsGetAll(vs, key, k);
  }

  lemma FacetStepGetAll(args: QueryStringArgs, k: string)
    ensures GetAll(FacetStep(args), k) == FacetValues(args, k)
  {
    var f := args.filters;
    var p0 := QueryStep(args);
    var p1 := p0 + ListPairs(f.sports.GetOr([]), "sport");
    var p2 := p1 + ListPairs(f.organisationTypes.GetOr([]), "organisation_type");
    var p3 := p2 + ListPairs(f.countries.GetOr([]), "country");
    var p4 := p3 + ListPairs(f.contentTypes.GetOr([]), "content_type");
    var p5 := p4 + ListPairs(f.languages.GetOr([]), "language");
    if QueryActive(f.query) { SetGetAll([], "query", f.query.value, k); }
    assert k != "query" ==> GetAll(p0, k) == [];
    AppendListGetAll(p0, f.sports.GetOr([]), "sport", k);
    AppendListGetAll(p1, f.organisationTypes.GetOr([]), "organisation_type", k);
    AppendListGetAll(p2, f.countries.GetOr([]), "country", k);
    AppendListGetAll(p3, f.contentTypes.GetOr([]), "content_type", k);
    AppendListGetAll(p4, f.languages.GetOr([]), "language", k);
    AppendListGetAll(p5, f.topics.GetOr([]), "topics", k);
  }

  /** The values each key carries in the serialised query string. */
  function QueryValues(args: QueryStringArgs, k: string): seq<string> {
    if k == "sort" then (if args.sort.Some? then [SortName(args.sort.value)] else [])
    else if k == "page" then
      (if args.page.Some? && args.page.value > 1 then [IntToString(args.page.value)] else [])
    else if k == "limit" then
      (if args.limit.Some? && args.limit.value != 0
       then [IntToString(Min(args.limit.value, MAX_LIMIT))] else [])
    else FacetValues(args, k)
  }

  /** The facet keys carry nothing but facet values. */
  lemma NotFacetKeys(args: QueryStringArgs)
    ensures FacetValues(args, "sort") == [] && FacetValues(args, "page") == []
    ensures FacetValues(args, "limit") == []
  {
  }

  lemma SortStepGetAll(args: QueryStringArgs, k: string)
    ensures GetAll(SortStep(args), k) ==
      if k == "sort" then (if args.sort.Some? then [SortName(args.sort.value)] else [])
      else FacetValues(args, k)
  {
    FacetStepGetAll(args, k);
    NotFacetKeys(args);
    if args.sort.Some? { SetGetAll(FacetStep(args), "sort", SortName(args.sort.value), k); }
  }

  lemma PageStepGetAll(args: QueryStringArgs, k: string)
    ensures GetAll(PageStep(args), k) ==
      if k == "page" then
        (if args.page.Some? && args.page.value > 1 then [IntToString(args.page.value)] else [])
      else GetAll(SortStep(args), k)
  {
    SortStepGetAll(args, k);
    NotFacetKeys(args);
    if args.page.Some? && args.page.value > 1 {
      SetGetAll(SortStep(args), "page", IntToString(args.page.value), k);
    }
  }

  lemma QueryPairsGetAll(args: QueryStringArgs, k: string)
    ensures GetAll(QueryPairs(args), k) == QueryValues(args, k)
  {
    PageStepGetAll(args, k);
    SortStepGetAll(args, k);
    NotFacetKeys(args);
    if args.limit.Some? && args.limit.value != 0 {
      SetGetAll(PageStep(args), "limit", IntToString(Min(args.limit.value, MAX_LIMIT)), k);
    }
  }


  lemma ListParamRoundTrip(args: QueryStringArgs, list: Option<seq<string>>, k: string)
    requires k in ["sport", "organisation_type", "country", "content_type", "language", "topics"]
    requires FacetValues(args, k) == NonEmpty(list.GetOr([]))
    ensures ListParam(QueryPairs(args), k) == Relisted(list)
  {
    QueryPairsGetAll(args, k);
    NonEmptyIdempotent(list.GetOr([]));
  }

  /** `filtersFromParams` reads back what `buildQueryString` wrote. */
  lemma QueryStringRoundTrip(args: QueryStringArgs)
    ensures FiltersFromParams(QueryPairs(args)) == Reparsed(args)
  {
    FiltersRoundTrip(args);
    LimitRoundTrip(args);
    PageRoundTrip(args);
    SortRoundTrip(args);
  }

  lemma FiltersRoundTrip(args: QueryStringArgs)
    ensures FiltersFromParams(QueryPairs(args)).filters == Reparsed(args).filters
  {
    var f := args.filters;
    var ps := QueryPairs(args);
    var r := FiltersFromParams(ps).filters;
    assert r.query == Reparsed(args).filters.query by { QueryPairsGetAll(args, "query"); }
    assert r.sports == Relisted(f.sports) by { ListParamRoundTrip(args, f.sports, "sport"); }
    assert r.organisationTypes == Relisted(f.organisationTypes) by {
      ListParamRoundTrip(args, f.organisationTypes, "organisation_type");
    }
    assert r.countries == Relisted(f.countries) by { ListParamRoundTrip(args, f.countries, "country"); }
    assert r.contentTypes == Relisted(f.contentTypes) by {
      ListParamRoundTrip(args, f.contentTypes, "content_type");
    }
    assert r.languages == Relisted(f.languages) by { ListParamRoundTrip(args, f.languages, "language"); }
    assert r.topics == Relisted(f.topics) by { ListParamRoundTrip(args, f.topics, "topics"); }
  }

  lemma LimitRoundTrip(args: QueryStringArgs)
    ensures FiltersFromParams(QueryPairs(args)).limit == Reparsed(args).limit
  {
    QueryPairsGetAll(args, "limit");
    if args.limit.Some? && args.limit.value != 0 {
      NumberOfIntToString(Min(args.limit.value, MAX_LIMIT));
    } else {
      assert Trim("") == "";
    }
  }

  lemma PageRoundTrip(args: QueryStringArgs)
    ensures FiltersFromParams(QueryPairs(args)).page == Reparsed(args).page
  {
    QueryPairsGetAll(args, "page");
    if args.page.Some? && args.page.value > 1 {
      NumberOfIntToString(args.page.value);
    } else {
      assert Trim("") == "";
    }
  }

  lemma SortRoundTrip(args: QueryStringArgs)
    ensures FiltersFromParams(QueryPairs(args)).sort == Reparsed(args).sort
  {
    QueryPairsGetAll(args, "sort");
    if args.sort.Some? { ParseSortName(args.sort.value); }
  }
}
