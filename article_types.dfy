/** The records and enumerations of `types/articles.ts`. Timestamps are
    integers (milliseconds); facet values are strings, as the source casts
    query-string values to its string unions without checking them. */
module ArticleTypes {
  import opened Wrappers

  /** The three orders of the sort engine. */
  datatype SortOption = DateDesc | DateAsc | OfficialDesc

  function SortName(s: SortOption): string {
    match s
    case DateDesc => "date_desc"
    case DateAsc => "date_asc"
    case OfficialDesc => "official_desc"
  }

  /** Reads a sort name. Every consumer of an unrecognised name (the sort
      engine, the remote order mapping) treats it as `date_desc`. */
  function ParseSort(s: string): (r: SortOption)
    ensures SortName(r) == s || r == DateDesc
  {
    if s == "official_desc" then OfficialDesc
    else if s == "date_asc" then DateAsc
    else DateDesc
  }

  /** Reading a written sort name gives the option back. */
  lemma ParseSortName(o: SortOption)
    ensures ParseSort(SortName(o)) == o
  {
  }

  const PUBLISHED: string := "published"

  datatype Article = Article(
    id: string,
    source_name: string,
    organisation_type: string,
    sport: string,
    country: string,
    language: string,
    content_type: string,
    title: string,
    summary: string,
    published_at: int,
    source_url: string,
    image_url: string,
    topics: seq<string>,
    official_weight: real,
    status: string)

  /** Facet constraints; an absent or empty list imposes nothing. */
  datatype ArticleFilters = ArticleFilters(
    query: Option<string>,
    sports: Option<seq<string>>,
    organisationTypes: Option<seq<string>>,
    countries: Option<seq<string>>,
    contentTypes: Option<seq<string>>,
    languages: Option<seq<string>>,
    topics: Option<seq<string>>,
    statuses: Option<seq<string>>)

  const NoFilters: ArticleFilters :=
    ArticleFilters(None, None, None, None, None, None, None, None)

  datatype PaginatedArticles = PaginatedArticles(
    items: seq<Article>,
    total: int,
    page: int,
    perPage: int,
    hasMore: bool)

  datatype WidgetFilters = WidgetFilters(
    sport: Option<seq<string>>,
    organisation_type: Option<seq<string>>,
    country: Option<seq<string>>,
    content_type: Option<seq<string>>,
    language: Option<seq<string>>,
    topics: Option<seq<string>>)

  const NoWidgetFilters: WidgetFilters := WidgetFilters(None, None, None, None, None, None)

  datatype WidgetConfig = WidgetConfig(
    slug: string,
    name: string,
    description: Option<string>,
    limit: int,
    sort: SortOption,
    filters: WidgetFilters,
    allowed_domains: Option<seq<string>>)
}
