/** The `GET /api/articles` handler of `app/api/articles/route.ts`: the query
    parameters of the request become `ArticleQueryArgs`, the service answers,
    and a thrown error becomes a 500 response carrying its message. */
module ArticlesRoute {
  import opened Wrappers
  import opened Text
  import opened Params
  import opened JsArray
  import opened ArticleTypes
  import opened Filtering
  import opened FakeLoader
  import opened ArticlesService

  /** The argument record the handler builds from the query parameters. */
  function ArgsFromRequest(ps: seq<Pair>): (r: ArticleQueryArgs)
    ensures r.filters == FiltersFromParams(ps).filters
    ensures r.page == FiltersFromParams(ps).page
    ensures r.sort == FiltersFromParams(ps).sort
    ensures r.limit == Some(Min(FiltersFromParams(ps).limit.GetOr(DEFAULT_PER_PAGE), MAX_LIMIT))
    ensures r.publishedAfter.None?
  {
    var limitParam := NumberOr(Get(ps, "limit").GetOr(""), DEFAULT_PER_PAGE);
    var sort := match Get(ps, "sort") case Some(s) => ParseSort(s) case None => DateDesc;
    ArticleQueryArgs(
      ArticleFilters(
        Get(ps, "query"),
        ListParam(ps, "sport"),
        ListParam(ps, "organisation_type"),
        ListParam(ps, "country"),
        ListParam(ps, "content_type"),
        ListParam(ps, "language"),
        ListParam(ps, "topics"),
        None),
      Some(Min(limitParam, MAX_LIMIT)),
      Some(NumberOr(Get(ps, "page").GetOr(""), 1)),
      Some(sort),
      None)
  }

  /** The limit the handler forwards: a missing, zero or non-numeric value
      stands for 12, anything else is capped at 50 and never 0. The service's
      own cap then leaves it as it is. */
  lemma RouteLimit(ps: seq<Pair>)
    ensures var n := ParseNumber(Get(ps, "limit").GetOr(""));
      ArgsFromRequest(ps).limit.value ==
        if n.Some? && n.value != 0 then Min(n.value, MAX_LIMIT) else DEFAULT_PER_PAGE
    ensures ArgsFromRequest(ps).limit.value != 0
    ensures PageSize(ArgsFromRequest(ps).limit) == ArgsFromRequest(ps).limit.value
  {
  }

  /** A missing, zero or non-numeric page is page 1; a missing sort is `date_desc`. */
  lemma RouteDefaults(ps: seq<Pair>)
    ensures var n := ParseNumber(Get(ps, "page").GetOr(""));
      ArgsFromRequest(ps).page == Some(if n.Some? && n.value != 0 then n.value else 1)
    ensures !HasKey(ps, "sort") ==> ArgsFromRequest(ps).sort == Some(DateDesc)
  {
    GetAllEmpty(ps, "sort");
  }

  predicate Present(v: string) { v != "" }

  lemma {:induction false} NonEmptyIsFilter(vs: seq<string>)
    ensures NonEmpty(vs) == Filter(vs, Present)
  {
    if vs != [] {
      var init, last := vs[..|vs| - 1], vs[|vs| - 1];
      NonEmptyIsFilter(init);
      assert vs == init + [last];
      FilterConcat(init, [last], Present);
      FilterOne(last, Present);
    }
  }

  /** `toList`: the values of a repeated key with empty strings dropped, in
      their original order, or nothing when no value is left. */
  lemma ToListMeaning(ps: seq<Pair>, k: string)
    ensures ListParam(ps, k).None? <==> forall v :: v in GetAll(ps, k) ==> v == ""
    ensures ListParam(ps, k).Some? ==>
      && IsSubsequence(ListParam(ps, k).value, GetAll(ps, k))
      && forall v :: v in ListParam(ps, k).value <==> v in GetAll(ps, k) && v != ""
  {
    var vs := NonEmpty(GetAll(ps, k));
    if vs != [] { assert vs[0] in vs; }
    NonEmptyIsFilter(GetAll(ps, k));
  }

  // ---------------------------------------------------------------- response

  datatype Body = PageBody(page: PaginatedArticles) | MessageBody(message: string)

  datatype Response = Response(status: int, body: Body)

  /** `NextResponse.json(result)`, or the error's message with status 500. */
  function Respond(r: Result<PaginatedArticles>): (resp: Response)
    ensures resp.status == 500 <==> r.Failure?
    ensures r.Failure? ==> resp.body == MessageBody(r.message)
    ensures r.Success? ==> resp.status == 200 && resp.body == PageBody(r.value)
  {
    match r
    case Success(page) => Response(200, PageBody(page))
    case Failure(message) => Response(500, MessageBody(message))
  }

  /** The whole handler: parse, query, respond. */
  method HandleGet(configured: bool, loader: DataLoader, file: seq<Article>,
                   store: RemoteQuery -> StoreResponse, ps: seq<Pair>)
    returns (resp: Response, ghost sorted: seq<Article>)
    modifies loader
    ensures var args := ArgsFromRequest(ps);
      configured ==> resp == Respond(RemoteOutcome(args, store(RemotePlan(args))))
    ensures var args := ArgsFromRequest(ps);
      !configured ==>
        && loader.articlesCache.Some?
        && multiset(sorted) == multiset(LocalMatches(loader.articlesCache.value, args))
        && Sorted(args.sort.value, sorted)
        && resp == Respond(Success(Paginate(sorted, args.page.value, args.limit.value)))
  {
    var args := ArgsFromRequest(ps);
    RouteLimit(ps);
    var r;
    r, sorted := QueryArticles(configured, loader, file, store, args);
    resp := Respond(r);
  }

  // ---------------------------------------------------------------- examples

  /** `?limit=-5`: `Number("-5") || 12` is -5, and the cap of 50 leaves it, so
      the handler forwards a negative limit. */
  lemma NegativeRequestLimit()
    ensures ArgsFromRequest([Pair("limit", "-5")]).limit == Some(-5)
  {
    NumberOfNegative("5");
    assert Get([Pair("limit", "-5")], "limit") == Some("-5");
  }

  function CappedRequest(): seq<Pair> {
    [Pair("limit", "999"), Pair("topics", "gouvernance"), Pair("topics", "calendrier")]
  }

  /** `?limit=999&topics=gouvernance&topics=calendrier` forwards limit 50 ... */
  lemma CappedRequestLimit()
    ensures ArgsFromRequest(CappedRequest()).limit == Some(50)
  {
    var ps := CappedRequest();
    assert Get(ps, "limit") == Some("999");
    assert NatToString(999) == "999" by {
      assert NatToString(99) == "99";
    }
    NumberOfNatToString(999);
  }

  /** ... and both topics, in request order. */
  lemma CappedRequestTopics()
    ensures ArgsFromRequest(CappedRequest()).filters.topics == Some(["gouvernance", "calendrier"])
  {
    var ps := CappedRequest();
    assert GetAll(ps, "topics") == ["gouvernance", "calendrier"];
    assert NonEmpty(["gouvernance", "calendrier"]) == ["gouvernance", "calendrier"] by {
      assert ["gouvernance", "calendrier"][..1] == ["gouvernance"];
    }
  }

  /** `?sort=official_desc&sport=Athletics` forwards that sort and one sport. */
  lemma OfficialSortRequest()
    ensures var args := ArgsFromRequest([Pair("sort", "official_desc"), Pair("sport", "Athletics")]);
      args.sort == Some(OfficialDesc) && args.filters.sports == Some(["Athletics"])
  {
    var ps := [Pair("sort", "official_desc"), Pair("sport", "Athletics")];
    assert GetAll(ps, "sport") == ["Athletics"];
    assert NonEmpty(["Athletics"]) == ["Athletics"];
    assert Get(ps, "sort") == Some("official_desc");
  }
}
