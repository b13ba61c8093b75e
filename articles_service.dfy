/** `lib/articlesService.ts`: the article query orchestrator. Locally it runs
    filter, cutoff, sort and paginate over the bundled articles; against the
    store it builds a query plan (clauses, orders and a row range) and maps
    the store's answer to a page. The store itself is a parameter: a function
    from the plan to the response it gives. */
module ArticlesService {
  import opened Wrappers
  import opened Text
  import opened JsArray
  import opened ArticleTypes
  import opened Filtering
  import opened FakeLoader

  /** `ArticleQueryArgs`; `publishedAfter` is the cutoff's timestamp, present
      only when the caller passed a non-empty date. */
  datatype ArticleQueryArgs = ArticleQueryArgs(
    filters: ArticleFilters,
    limit: Option<int>,
    page: Option<int>,
    sort: Option<SortOption>,
    publishedAfter: Option<int>)

  /** `Math.min(args.limit ?? DEFAULT_PER_PAGE, MAX_LIMIT)`, used by both paths. */
  function PageSize(limit: Option<int>): (r: int)
    ensures r <= MAX_LIMIT
    ensures limit.None? ==> r == DEFAULT_PER_PAGE
    ensures limit.Some? ==> r == Min(limit.value, MAX_LIMIT)
  {
    Min(limit.GetOr(DEFAULT_PER_PAGE), MAX_LIMIT)
  }

  // ================================================================ local path

  /** The filters of the local path: the caller's, with statuses defaulting
      to `["published"]` when the caller gives none. */
  function LocalFilters(args: ArticleQueryArgs): ArticleFilters {
    args.filters.(statuses := if args.filters.statuses.Some? then args.filters.statuses else Some([PUBLISHED]))
  }

  /** The articles of the local path before sorting: `applyFilters`, then the
      inclusive `publishedAfter` cutoff. */
  function LocalMatches(items: seq<Article>, args: ArticleQueryArgs): (r: seq<Article>)
    ensures IsSubsequence(r, items)
    ensures forall a :: a in r <==>
      && a in items
      && Matches(a, LocalFilters(args))
      && (args.publishedAfter.Some? ==> a.published_at >= args.publishedAfter.value)
  {
    var base := ApplyFilters(items, LocalFilters(args));
    if args.publishedAfter.Some?
    then
      var r := Filter(base, (a: Article) => a.published_at >= args.publishedAfter.value);
      SubsequenceTransitive(r, base, items);
      r
    else base
  }

  /** Without caller statuses the local path returns only published articles;
      with them it uses exactly the caller's list. */
  lemma LocalStatuses(items: seq<Article>, args: ArticleQueryArgs, a: Article)
    requires a in LocalMatches(items, args)
    ensures args.filters.statuses.None? ==> a.status == PUBLISHED
    ensures args.filters.statuses.Some? ==> FacetAllows(args.filters.statuses, a.status)
  {
    assert Matches(a, LocalFilters(args));
  }

  // ================================================================ remote plan

  /** The text columns of `v_widget_articles` the plan filters on. */
  datatype TextColumn = Status | Sport | OrganisationType | Country | ContentType
                      | Language | Title | Summary | SourceName

  function ColumnText(a: Article, c: TextColumn): string {
    match c
    case Status => a.status
    case Sport => a.sport
    case OrganisationType => a.organisation_type
    case Country => a.country
    case ContentType => a.content_type
    case Language => a.language
    case Title => a.title
    case Summary => a.summary
    case SourceName => a.source_name
  }

  /** The clauses the query builder chains: `eq`, `in`, `overlaps("topics")`,
      `gte("published_at")` and an `or` of `ilike`s. */
  datatype Clause =
    | Eq(column: TextColumn, value: string)
    | In(column: TextColumn, values: seq<string>)
    | TopicsOverlap(topics: seq<string>)
    | PublishedSince(cutoff: int)
    | IlikeAny(columns: seq<TextColumn>, pattern: string)

  datatype SortKey = OfficialWeight | PublishedAt
  datatype Order = Order(key: SortKey, ascending: bool)

  datatype RemoteQuery = RemoteQuery(clauses: seq<Clause>, orders: seq<Order>, from: int, to: int)

  /** SQL `ILIKE`: `%` matches any run of characters, `_` any one character,
      and other characters match regardless of (ASCII) case. */
  function LikeMatch(s: string, p: string): bool
    decreases |s| + |p|
  {
    if p == [] then s == []
    else if p[0] == '%' then LikeMatch(s, p[1..]) || (s != [] && LikeMatch(s[1..], p))
    else if p[0] == '_' then s != [] && LikeMatch(s[1..], p[1..])
    else s != [] && LowerChar(s[0]) == LowerChar(p[0]) && LikeMatch(s[1..], p[1..])
  }

  predicate Satisfies(a: Article, c: Clause) {
    match c
    case Eq(col, v) => ColumnText(a, col) == v
    case In(col, vs) => ColumnText(a, col) in vs
    case TopicsOverlap(ts) => exists t :: t in a.topics && t in ts
    case PublishedSince(cutoff) => a.published_at >= cutoff
    case IlikeAny(cols, p) => exists col :: col in cols && LikeMatch(ColumnText(a, col), p)
  }

  predicate SatisfiesAll(a: Article, cs: seq<Clause>) {
    forall i :: 0 <= i < |cs| ==> Satisfies(a, cs[i])
  }

  /** `args.query.replace(/[%]/g, "")` */
  function StripPercent(q: string): (r: string)
    ensures '%' !in r
  {
    Filter(q, c => c != '%')
  }

  /** `applyInFilter`: an `in` clause for a non-empty list. */
  function InClause(column: TextColumn, values: Option<seq<string>>): seq<Clause> {
    if values.Some? && values.value != [] then [In(column, values.value)] else []
  }

  /** The five `applyInFilter` calls. */
  function FacetClauses(f: ArticleFilters): seq<Clause> {
    InClause(Sport, f.sports) + InClause(OrganisationType, f.organisationTypes)
    + InClause(Country, f.countries) + InClause(ContentType, f.contentTypes)
    + InClause(Language, f.languages)
  }

  function SearchClause(query: Option<string>): seq<Clause> {
    if QueryActive(query)
    then [IlikeAny([Title, Summary, SourceName, Sport], "%" + StripPercent(query.value) + "%")]
    else []
  }

  /** The order mapping: `official_desc` orders by weight then date, both
      descending; `date_asc` by date ascending; anything else by date descending. */
  function RemoteOrders(sort: Option<SortOption>): seq<Order> {
    if sort == Some(OfficialDesc) then [Order(OfficialWeight, false), Order(PublishedAt, false)]
    else if sort == Some(DateAsc) then [Order(PublishedAt, true)]
    else [Order(PublishedAt, false)]
  }

  function RemotePage(args: ArticleQueryArgs): int {
    Max(args.page.GetOr(1), 1)
  }

  /** The plan `fetchArticlesFromSupabase` sends. */
  function RemotePlan(args: ArticleQueryArgs): RemoteQuery {
    var f := args.filters;
    var limit := PageSize(args.limit);
    var from := (RemotePage(args) - 1) * limit;
    RemoteQuery(
      PlanClauses(args),
      RemoteOrders(args.sort),
      from,
      from + limit - 1)
  }

  /** The query builder of `fetchArticlesFromSupabase`, one chained call at a time. */
  method BuildRemoteQuery(args: ArticleQueryArgs) returns (q: RemoteQuery)
    ensures q == RemotePlan(args)
  {
    var f := args.filters;
    var limit := PageSize(args.limit);
    var page := Max(args.page.GetOr(1), 1);
    var from := (page - 1) * limit;
    var to := from + limit - 1;
    var clauses := [Eq(Status, PUBLISHED)];
    var facets := InClause(Sport, f.sports);
    facets := facets + InClause(OrganisationType, f.organisationTypes);
    facets := facets + InClause(Country, f.countries);
    facets := facets + InClause(ContentType, f.contentTypes);
    facets := facets + InClause(Language, f.languages);
    clauses := clauses + facets;
    if f.topics.Some? && f.topics.value != [] {
      clauses := clauses + [TopicsOverlap(f.topics.value)];
    }
    if args.publishedAfter.Some? {
      clauses := clauses + [PublishedSince(args.publishedAfter.value)];
    }
    if QueryActive(f.query) {
      var pattern := "%" + StripPercent(f.query.value) + "%";
      clauses := clauses + [IlikeAny([Title, Summary, SourceName, Sport], pattern)];
    }
    var orders: seq<Order>;
    if args.sort == Some(OfficialDesc) {
      orders := [Order(OfficialWeight, false), Order(PublishedAt, false)];
    } else if args.sort == Some(DateAsc) {
      orders := [Order(PublishedAt, true)];
    } else {
      orders := [Order(PublishedAt, false)];
    }
    q := RemoteQuery(clauses, orders, from, to);
  }

  // ---------------------------------------------------------------- ILIKE

  lemma {:induction false} LikeAnything(s: string)
    ensures LikeMatch(s, "%")
    decreases |s|
  {
    if s != [] {
      LikeAnything(s[1..]);
    }
  }

  /** A search text the model reads literally. `_` is a wildcard of `ILIKE`,
      `*` is PostgREST's alias of `%`, `\` is the escape character of `ILIKE`,
      and `,`, `(`, `)` and `"` are delimiters of the `or(...)` filter string
      the query is pasted into; none of them is modelled. */
  predicate PlainSearch(q: string) {
    && '_' !in q && '*' !in q && '\\' !in q
    && ',' !in q && '(' !in q && ')' !in q && '"' !in q
  }

  /** A pattern piece without wildcards: every character stands for itself. */
  predicate Literal(w: string) {
    '%' !in w && PlainSearch(w)
  }

  /** A literal followed by `%` matches exactly the strings it begins, ignoring case. */
  lemma {:induction false} LikeLiteralPrefix(s: string, w: string)
    requires Literal(w)
    ensures LikeMatch(s, w + "%") <==> |w| <= |s| && Lower(s[..|w|]) == Lower(w)
    decreases |w|
  {
    if w == [] {
      assert w + "%" == "%";
      LikeAnything(s);
    } else {
      assert (w + "%")[1..] == w[1..] + "%";
      assert (w + "%")[0] == w[0];
      if s != [] {
        LikeLiteralPrefix(s[1..], w[1..]);
        if |w| <= |s| {
          assert Lower(s[..|w|]) == [LowerChar(s[0])] + Lower(s[1..][..|w| - 1]);
          assert Lower(w) == [LowerChar(w[0])] + Lower(w[1..]);
        }
      }
    }
  }

  /** A leading `%` lets the rest of the pattern match any suffix. */
  lemma {:induction false} LikeLeadingPercent(s: string, r: string)
    ensures LikeMatch(s, "%" + r) <==> exists k :: 0 <= k <= |s| && LikeMatch(s[k..], r)
    decreases |s|
  {
    assert ("%" + r)[1..] == r;
    assert s[0..] == s;
    if s != [] {
      LikeLeadingPercent(s[1..], r);
      if exists k :: 0 <= k <= |s| && LikeMatch(s[k..], r) {
        var k :| 0 <= k <= |s| && LikeMatch(s[k..], r);
        if k > 0 {
          assert s[1..][k - 1..] == s[k..];
        }
      }
      if exists k :: 0 <= k <= |s[1..]| && LikeMatch(s[1..][k..], r) {
        var k :| 0 <= k <= |s[1..]| && LikeMatch(s[1..][k..], r);
        assert s[k + 1..] == s[1..][k..];
      }
    }
  }

  /** `ilike '%w%'` for a literal `w` is the case-insensitive substring test. */
  lemma LikeContains(s: string, w: string)
    requires Literal(w)
    ensures LikeMatch(s, "%" + w + "%") <==> TextIncludes(s, w)
  {
    assert "%" + w + "%" == "%" + (w + "%");
    LikeLeadingPercent(s, w + "%");
    if LikeMatch(s, "%" + w + "%") {
      var k :| 0 <= k <= |s| && LikeMatch(s[k..], w + "%");
      LikeLiteralPrefix(s[k..], w);
      assert Lower(s)[k..][..|w|] == Lower(s[k..][..|w|]);
      assert IsPrefix(Lower(w), Lower(s)[k..]);
    }
    if TextIncludes(s, w) {
      var k :| 0 <= k <= |Lower(s)| && IsPrefix(Lower(w), Lower(s)[k..]);
      assert Lower(s)[k..][..|w|] == Lower(s[k..][..|w|]);
      LikeLiteralPrefix(s[k..], w);
    }
  }

  /** An underscore in the query is not stripped and matches any character,
      so the store finds "abc" for "a_c" where the local search does not. */
  lemma UnderscoreIsWildcard()
    ensures LikeMatch("abc", "%" + StripPercent("a_c") + "%")
    ensures !TextIncludes("abc", "a_c")
  {
    UnderscoreStrip();
    UnderscoreLike();
    UnderscoreNotIncluded();
  }

  lemma UnderscoreStrip()
    ensures "%" + StripPercent("a_c") + "%" == "%a_c%"
  {
    FilterAll("a_c", c => c != '%');
  }

  lemma UnderscoreLike()
    ensures LikeMatch("abc", "%a_c%")
  {
    assert LikeMatch("", "%") by { assert "%"[1..] == ""; }
    assert LikeMatch("c", "c%") by { assert "c"[1..] == "" && "c%"[1..] == "%"; }
    assert LikeMatch("bc", "_c%") by { assert "bc"[1..] == "c" && "_c%"[1..] == "c%"; }
    assert LikeMatch("abc", "a_c%") by { assert "abc"[1..] == "bc" && "a_c%"[1..] == "_c%"; }
    assert "%a_c%"[1..] == "a_c%";
  }

  lemma UnderscoreNotIncluded()
    ensures !TextIncludes("abc", "a_c")
  {
    assert Lower("abc") == "abc";
    assert Lower("a_c") == "a_c";
    forall k | 0 <= k <= 3 ensures !IsPrefix("a_c", "abc"[k..]) {
      if k == 0 { assert "abc"[0..][..3][1] != "a_c"[1]; }
    }
  }

  // ---------------------------------------------------------------- plan meaning

  /** What the store returns rows for, stated with the local predicates:
      published (whatever `statuses` says), each non-empty facet, topic
      overlap, the cutoff, and the query, stripped of `%`, in title, summary,
      source name or sport (not country). */
  predicate RemoteMatches(a: Article, args: ArticleQueryArgs) {
    var f := args.filters;
    && a.status == PUBLISHED
    && FacetAllows(f.sports, a.sport)
    && FacetAllows(f.organisationTypes, a.organisation_type)
    && FacetAllows(f.countries, a.country)
    && FacetAllows(f.contentTypes, a.content_type)
    && FacetAllows(f.languages, a.language)
    && TopicsAllow(f.topics, a.topics)
    && (args.publishedAfter.Some? ==> a.published_at >= args.publishedAfter.value)
    && SearchAllows(f.query, a)
  }

  /** A non-empty query, stripped of `%`, must occur in a searched field. */
  predicate SearchAllows(query: Option<string>, a: Article) {
    QueryActive(query) ==> SearchHit(a, StripPercent(query.value))
  }

  /** The four fields the store searches. */
  predicate SearchHit(a: Article, w: string) {
    TextIncludes(a.title, w) || TextIncludes(a.summary, w)
    || TextIncludes(a.source_name, w) || TextIncludes(a.sport, w)
  }

  lemma SatisfiesAllConcat(a: Article, x: seq<Clause>, y: seq<Clause>)
    ensures SatisfiesAll(a, x + y) <==> SatisfiesAll(a, x) && SatisfiesAll(a, y)
  {
    if SatisfiesAll(a, x) && SatisfiesAll(a, y) {
      forall i | 0 <= i < |x + y| ensures Satisfies(a, (x + y)[i]) {
        if i >= |x| { assert (x + y)[i] == y[i - |x|]; }
      }
    }
    if SatisfiesAll(a, x + y) {
      forall i | 0 <= i < |x| ensures Satisfies(a, x[i]) {
        assert (x + y)[i] == x[i];
      }
      forall i | 0 <= i < |y| ensures Satisfies(a, y[i]) {
        assert (x + y)[|x| + i] == y[i];
      }
    }
  }

  lemma InClauseMeaning(a: Article, col: TextColumn, values: Option<seq<string>>)
    ensures SatisfiesAll(a, InClause(col, values)) <==> FacetAllows(values, ColumnText(a, col))
  {
    if values.Some? && values.value != [] {
      assert InClause(col, values)[0] == In(col, values.value);
    }
  }

  lemma IlikeFour(a: Article, p: string)
    ensures Satisfies(a, IlikeAny([Title, Summary, SourceName, Sport], p)) <==>
      LikeMatch(a.title, p) || LikeMatch(a.summary, p)
      || LikeMatch(a.source_name, p) || LikeMatch(a.sport, p)
  {
    var cols := [Title, Summary, SourceName, Sport];
    if LikeMatch(a.title, p) { assert LikeMatch(ColumnText(a, cols[0]), p); }
    if LikeMatch(a.summary, p) { assert LikeMatch(ColumnText(a, cols[1]), p); }
    if LikeMatch(a.source_name, p) { assert LikeMatch(ColumnText(a, cols[2]), p); }
    if LikeMatch(a.sport, p) { assert LikeMatch(ColumnText(a, cols[3]), p); }
    if Satisfies(a, IlikeAny(cols, p)) {
      var col :| col in cols && LikeMatch(ColumnText(a, col), p);
      assert col == Title || col == Summary || col == SourceName || col == Sport;
    }
  }

  lemma LikeFour(a: Article, w: string)
    requires Literal(w)
    ensures SearchHit(a, w) <==>
      var p := "%" + w + "%";
      LikeMatch(a.title, p) || LikeMatch(a.summary, p)
      || LikeMatch(a.source_name, p) || LikeMatch(a.sport, p)
  {
    LikeContains(a.title, w);
    LikeContains(a.summary, w);
    LikeContains(a.source_name, w);
    LikeContains(a.sport, w);
  }

  lemma SearchClauseMeaning(a: Article, query: Option<string>)
    requires query.Some? ==> PlainSearch(query.value)
    ensures SatisfiesAll(a, SearchClause(query)) <==> SearchAllows(query, a)
  {
    if QueryActive(query) {
      var w := StripPercent(query.value);
      var p := "%" + w + "%";
      assert SearchClause(query) == [IlikeAny([Title, Summary, SourceName, Sport], p)];
      assert Literal(w);
      IlikeFour(a, p);
      LikeFour(a, w);
      assert SatisfiesAll(a, SearchClause(query)) <==> Satisfies(a, SearchClause(query)[0]);
    }
  }

  lemma FacetClausesMeaning(a: Article, f: ArticleFilters)
    ensures SatisfiesAll(a, FacetClauses(f)) <==>
      && FacetAllows(f.sports, a.sport)
      && FacetAllows(f.organisationTypes, a.organisation_type)
      && FacetAllows(f.countries, a.country)
      && FacetAllows(f.contentTypes, a.content_type)
      && FacetAllows(f.languages, a.language)
  {
    var c1 := InClause(Sport, f.sports);
    var c2 := InClause(OrganisationType, f.organisationTypes);
    var c3 := InClause(Country, f.countries);
    var c4 := InClause(ContentType, f.contentTypes);
    var c5 := InClause(Language, f.languages);
    SatisfiesAllConcat(a, c1, c2);
    SatisfiesAllConcat(a, c1 + c2, c3);
    SatisfiesAllConcat(a, c1 + c2 + c3, c4);
    SatisfiesAllConcat(a, c1 + c2 + c3 + c4, c5);
    InClauseMeaning(a, Sport, f.sports);
    InClauseMeaning(a, OrganisationType, f.organisationTypes);
    InClauseMeaning(a, Country, f.countries);
    InClauseMeaning(a, ContentType, f.contentTypes);
    InClauseMeaning(a, Language, f.languages);
  }

  /** The clauses of the plan. */
  function PlanClauses(args: ArticleQueryArgs): seq<Clause> {
    var f := args.filters;
    [Eq(Status, PUBLISHED)]
    + FacetClauses(f)
    + (if f.topics.Some? && f.topics.value != [] then [TopicsOverlap(f.topics.value)] else [])
    + (if args.publishedAfter.Some? then [PublishedSince(args.publishedAfter.value)] else [])
    + SearchClause(f.query)
  }

  /** For a plain query, a row satisfies the plan's clauses exactly when it
      satisfies `RemoteMatches`. */
  lemma RemotePlanMeaning(args: ArticleQueryArgs, a: Article)
    requires args.filters.query.Some? ==> PlainSearch(args.filters.query.value)
    ensures SatisfiesAll(a, RemotePlan(args).clauses) <==> RemoteMatches(a, args)
  {
    var f := args.filters;
    var c0 := [Eq(Status, PUBLISHED)];
    var c1 := FacetClauses(f);
    var c6 := if f.topics.Some? && f.topics.value != [] then [TopicsOverlap(f.topics.value)] else [];
    var c7 := if args.publishedAfter.Some? then [PublishedSince(args.publishedAfter.value)] else [];
    var c8 := SearchClause(f.query);
    assert RemotePlan(args).clauses == PlanClauses(args) == c0 + c1 + c6 + c7 + c8;
    assert SatisfiesAll(a, PlanClauses(args)) <==>
      SatisfiesAll(a, c0) && SatisfiesAll(a, c1) && SatisfiesAll(a, c6)
      && SatisfiesAll(a, c7) && SatisfiesAll(a, c8)
    by {
      SatisfiesAllConcat(a, c0, c1);
      SatisfiesAllConcat(a, c0 + c1, c6);
      SatisfiesAllConcat(a, c0 + c1 + c6, c7);
      SatisfiesAllConcat(a, c0 + c1 + c6 + c7, c8);
    }
    assert SatisfiesAll(a, c0) <==> a.status == PUBLISHED by {
      assert SatisfiesAll(a, c0) <==> Satisfies(a, c0[0]);
    }
    assert SatisfiesAll(a, c6) <==> TopicsAllow(f.topics, a.topics) by {
      if f.topics.Some? && f.topics.value != [] {
        assert SatisfiesAll(a, c6) <==> Satisfies(a, c6[0]);
      }
    }
    assert SatisfiesAll(a, c7) <==> (args.publishedAfter.Some? ==> a.published_at >= args.publishedAfter.value) by {
      if args.publishedAfter.Some? {
        assert SatisfiesAll(a, c7) <==> Satisfies(a, c7[0]);
      }
    }
    FacetClausesMeaning(a, f);
    SearchClauseMeaning(a, f.query);
  }

  /** A row the store returns also passes the local filter of the same
      arguments when they name no statuses and the query is plain and holds no `%`. */
  lemma RemoteMatchImpliesLocal(args: ArticleQueryArgs, a: Article)
    requires args.filters.statuses.None?
    requires args.filters.query.Some? ==> Literal(args.filters.query.value)
    requires RemoteMatches(a, args)
    ensures Matches(a, LocalFilters(args))
  {
    if QueryActive(args.filters.query) {
      FilterAll(args.filters.query.value, c => c != '%');
    }
  }

  function CountryOnlyArticle(): Article {
    Article("x", "src", "IF", "Rowing", "Japan", "EN", "news", "t", "s", 0, "u", "i", [], 1.0, PUBLISHED)
  }

  function CountryOnlyArgs(): ArticleQueryArgs {
    ArticleQueryArgs(NoFilters.(query := Some("japan")), None, None, None, None)
  }

  lemma CountryOnlyLocal()
    ensures Matches(CountryOnlyArticle(), LocalFilters(CountryOnlyArgs()))
  {
    assert Lower("Japan") == "japan" && Lower("japan") == "japan";
    assert IsPrefix(Lower("japan"), Lower("Japan")[0..]);
  }

  lemma LacksJ(value: string)
    requires 'j' !in value && 'J' !in value
    ensures !TextIncludes(value, "japan")
  {
    forall i | 0 <= i < |value| ensures LowerChar(value[i]) != LowerChar("japan"[0]) {
      assert value[i] != 'j' && value[i] != 'J';
    }
    MissingFirstLetter(value, "japan");
  }

  lemma CountryOnlyNoHit()
    ensures !SearchHit(CountryOnlyArticle(), "japan")
  {
    var a := CountryOnlyArticle();
    LacksJ(a.title);
    LacksJ(a.summary);
    LacksJ(a.source_name);
    LacksJ(a.sport);
  }

  lemma CountryOnlyRemote()
    ensures !RemoteMatches(CountryOnlyArticle(), CountryOnlyArgs())
  {
    FilterAll("japan", c => c != '%');
    assert StripPercent("japan") == "japan";
    CountryOnlyNoHit();
  }

  /** The converse fails: the local search also looks at `country`, so a
      query found only there is a local match and not a store match. */
  lemma CountryOnlyMatch()
    ensures Matches(CountryOnlyArticle(), LocalFilters(CountryOnlyArgs()))
    ensures !RemoteMatches(CountryOnlyArticle(), CountryOnlyArgs())
  {
    CountryOnlyLocal();
    CountryOnlyRemote();
  }

  // ---------------------------------------------------------------- orders

  function KeyValue(a: Article, k: SortKey): real {
    match k
    case OfficialWeight => a.official_weight
    case PublishedAt => a.published_at as real
  }

  /** `a` may precede `b` under the lexicographic `order(...)` chain. */
  predicate OrdersAllow(orders: seq<Order>, a: Article, b: Article) {
    if orders == [] then true
    else
      var ka, kb := KeyValue(a, orders[0].key), KeyValue(b, orders[0].key);
      if ka == kb then OrdersAllow(orders[1..], a, b)
      else if orders[0].ascending then ka < kb else ka > kb
  }

  /** The store orders rows exactly as the sort engine does. */
  lemma RemoteOrderAgrees(sort: Option<SortOption>, a: Article, b: Article)
    ensures OrdersAllow(RemoteOrders(sort), a, b) <==> InOrder(sort.GetOr(DateDesc), a, b)
  {
    var o := RemoteOrders(sort);
    if sort == Some(OfficialDesc) {
      assert o[1..] == [Order(PublishedAt, false)];
      assert o[1..][1..] == [];
      assert OrdersAllow(o[1..], a, b) <==> a.published_at >= b.published_at;
    } else {
      assert o[1..] == [];
    }
  }

  // ---------------------------------------------------------------- response

  /** What the query builder resolves to: rows, an error, and the exact count. */
  datatype StoreResponse = StoreResponse(data: Option<seq<Article>>, error: Option<string>, count: Option<int>)

  /** The page `fetchArticlesFromSupabase` builds from the response; an error
      is rethrown with the store's message. */
  function RemoteOutcome(args: ArticleQueryArgs, resp: StoreResponse): (r: Result<PaginatedArticles>)
    ensures r.Failure? <==> resp.error.Some?
    ensures r.Failure? ==> r.message == resp.error.value
    ensures r.Success? ==> r.value.page >= 1 && r.value.perPage == PageSize(args.limit)
  {
    if resp.error.Some? then Failure(resp.error.value)
    else
      var data := resp.data.GetOr([]);
      var q := RemotePlan(args);
      Success(PaginatedArticles(
        data,
        if resp.count.Some? then resp.count.value else |data|,
        RemotePage(args),
        PageSize(args.limit),
        resp.count.Some? && resp.count.value != 0 && q.to + 1 < resp.count.value))
  }

  /** The plan asks for exactly `limit` rows, starting where page `page` starts. */
  lemma RangeSize(args: ArticleQueryArgs)
    ensures var q := RemotePlan(args);
      q.to - q.from + 1 == PageSize(args.limit)
      && q.from == (RemotePage(args) - 1) * PageSize(args.limit)
  {
  }

  /** A store that answers with the requested range of the sorted matches and
      their exact count yields the same page as `paginate`. */
  lemma RemoteAgreesWithPaginate(args: ArticleQueryArgs, sorted: seq<Article>)
    requires PageSize(args.limit) >= 1
    ensures var q := RemotePlan(args);
      RemoteOutcome(args, StoreResponse(Some(Slice(sorted, q.from, q.to + 1)), None, Some(|sorted|)))
        == Success(Paginate(sorted, args.page.GetOr(1), PageSize(args.limit)))
  {
    var q := RemotePlan(args);
    var n := PageSize(args.limit);
    var p := RemotePage(args);
    assert q.from == (p - 1) * n >= 0;
    assert q.to + 1 == q.from + n;
    assert p * n == q.from + n;
  }

  /** A limit of at most 0 (the route forwards `?limit=-5` as -5) splits the
      paths. The store is asked for a reversed row range and its page reports
      that limit as `perPage`, and on the first page any positive count reads
      as more to come. `paginate` raises the page size to 1 instead. So no
      answer of the store equals the local page. */
  lemma NonPositiveLimitDiverges(args: ArticleQueryArgs, sorted: seq<Article>, resp: StoreResponse)
    requires args.limit.Some? && args.limit.value <= 0
    requires resp.error.None?
    ensures RemotePlan(args).to < RemotePlan(args).from
    ensures RemoteOutcome(args, resp).value.perPage == args.limit.value
    ensures Paginate(sorted, args.page.GetOr(1), PageSize(args.limit)).perPage == 1
    ensures RemoteOutcome(args, resp) != Success(Paginate(sorted, args.page.GetOr(1), PageSize(args.limit)))
    ensures RemotePage(args) == 1 && resp.count.Some? && resp.count.value > 0 ==>
      RemoteOutcome(args, resp).value.hasMore
  {
  }

  // ================================================================ queryArticles

  /** `queryArticles`: the store when it is configured, the bundled articles
      otherwise. */
  method QueryArticles(configured: bool, loader: DataLoader, file: seq<Article>,
                       store: RemoteQuery -> StoreResponse, args: ArticleQueryArgs)
    returns (r: Result<PaginatedArticles>, ghost sorted: seq<Article>)
    modifies loader
    ensures configured ==> r == RemoteOutcome(args, store(RemotePlan(args)))
    ensures configured ==> loader.articlesCache == old(loader.articlesCache)
    ensures !configured ==>
      && loader.articlesCache.Some?
      && loader.articlesCache == (if old(loader.articlesCache).Some? then old(loader.articlesCache) else Some(file))
      && multiset(sorted) == multiset(LocalMatches(loader.articlesCache.value, args))
      && Sorted(args.sort.GetOr(DateDesc), sorted)
      && r == Success(Paginate(sorted, args.page.GetOr(1), PageSize(args.limit)))
    ensures loader.widgetsCache == old(loader.widgetsCache)
  {
    if configured {
      var q := BuildRemoteQuery(args);
      r := RemoteOutcome(args, store(q));
      sorted := [];
    } else {
      var limit := PageSize(args.limit);
      var items := loader.LoadFakeArticles(file);
      var filtered := LocalMatches(items, args);
      var s := SortItems(filtered, args.sort.GetOr(DateDesc));
      sorted := s;
      r := Success(Paginate(s, args.page.GetOr(1), limit));
    }
  }

  // ================================================================ widget row

  /** A row of the `widgets` table, as far as the mapping reads it. */
  datatype WidgetRow = WidgetRow(
    slug: string,
    name: string,
    description: Option<string>,
    limit: int,
    sort: Option<string>,
    filters: Option<WidgetFilters>,
    allowed_domains: Option<seq<string>>)

  function RowToConfig(row: WidgetRow): WidgetConfig {
    WidgetConfig(row.slug, row.name, row.description, row.limit,
      match row.sort case Some(s) => ParseSort(s) case None => DateDesc,
      row.filters.GetOr(NoWidgetFilters), row.allowed_domains)
  }

  /** `fetchWidgetFromSupabase`: nothing when the store is not configured or
      holds no row with the slug, the store's message on error, and otherwise
      every column of the row, with the sort read by `ParseSort` and `date_desc`
      and `{}` for a missing sort and filters. */
  function FetchWidget(configured: bool, response: Result<Option<WidgetRow>>): (r: Result<Option<WidgetConfig>>)
    ensures !configured ==> r == Success(None)
    ensures configured && response.Failure? ==> r == Failure(response.message)
    ensures configured && response == Success(None) ==> r == Success(None)
    ensures configured && response.Success? && response.value.Some? ==>
      var row := response.value.value;
      && r.Success? && r.value.Some?
      && r.value.value.slug == row.slug && r.value.value.name == row.name
      && r.value.value.limit == row.limit
      && r.value.value.description == row.description
      && r.value.value.allowed_domains == row.allowed_domains
      && (row.sort.None? ==> r.value.value.sort == DateDesc)
      && (row.sort.Some? ==> r.value.value.sort == ParseSort(row.sort.value))
      && (row.filters.None? ==> r.value.value.filters == NoWidgetFilters)
      && (row.filters.Some? ==> r.value.value.filters == row.filters.value)
  {
    if !configured then Success(None)
    else match response
      case Failure(m) => Failure(m)
      case Success(None) => Success(None)
      case Success(Some(row)) => Success(Some(RowToConfig(row)))
  }
}
