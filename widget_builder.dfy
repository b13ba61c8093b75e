/** The widget builder of `components/WidgetBuilderClient.tsx`: a form whose
    state is replaced field by field, the preview parameters it sends to
    `/api/articles`, the embed parameters and link it offers for copying, and
    the limit input. */
module WidgetBuilder {
  import opened Wrappers
  import opened Text
  import opened Params
  import opened JsArray
  import opened ArticleTypes
  import opened Filtering
  import TopicSet
  import opened ArticlesService
  import opened ArticlesRoute

  const DEFAULT_TITLE: string := "Widget Olympic News Hub"
  const DEFAULT_DESCRIPTION: string := "Flux officiel filtré."
  const DEFAULT_LIMIT: int := 8

  datatype BuilderForm = BuilderForm(
    title: string,
    description: string,
    query: string,
    sport: string,
    organisation_type: string,
    country: string,
    content_type: string,
    language: string,
    topics: seq<string>,
    sort: SortOption,
    limit: int)

  /** `defaultForm` */
  const DefaultForm: BuilderForm := BuilderForm(
    DEFAULT_TITLE, DEFAULT_DESCRIPTION, "", "", "", "", "", "", [], DateDesc, DEFAULT_LIMIT)

  // ---------------------------------------------------------------- fields

  datatype FieldName =
    | TitleField | DescriptionField | QueryField | SportField | OrganisationTypeField
    | CountryField | ContentTypeField | LanguageField | TopicsField | SortField | LimitField

  /** A key of the form together with a value of that key's type: the two
      arguments of `updateField`. */
  datatype Field =
    | TitleValue(string) | DescriptionValue(string) | QueryValue(string) | SportValue(string)
    | OrganisationTypeValue(string) | CountryValue(string) | ContentTypeValue(string) | LanguageValue(string)
    | TopicsValue(seq<string>) | SortValue(SortOption) | LimitValue(int)

  function NameOf(f: Field): FieldName {
    match f
    case TitleValue(_) => TitleField
    case DescriptionValue(_) => DescriptionField
    case QueryValue(_) => QueryField
    case SportValue(_) => SportField
    case OrganisationTypeValue(_) => OrganisationTypeField
    case CountryValue(_) => CountryField
    case ContentTypeValue(_) => ContentTypeField
    case LanguageValue(_) => LanguageField
    case TopicsValue(_) => TopicsField
    case SortValue(_) => SortField
    case LimitValue(_) => LimitField
  }

  /** `form[key]`, as a field. */
  function Read(form: BuilderForm, n: FieldName): (f: Field)
    ensures NameOf(f) == n
  {
    match n
    case TitleField => TitleValue(form.title)
    case DescriptionField => DescriptionValue(form.description)
    case QueryField => QueryValue(form.query)
    case SportField => SportValue(form.sport)
    case OrganisationTypeField => OrganisationTypeValue(form.organisation_type)
    case CountryField => CountryValue(form.country)
    case ContentTypeField => ContentTypeValue(form.content_type)
    case LanguageField => LanguageValue(form.language)
    case TopicsField => TopicsValue(form.topics)
    case SortField => SortValue(form.sort)
    case LimitField => LimitValue(form.limit)
  }

  /** `{ ...prev, [key]: value }` */
  function Updated(form: BuilderForm, f: Field): BuilderForm {
    match f
    case TitleValue(v) => form.(title := v)
    case DescriptionValue(v) => form.(description := v)
    case QueryValue(v) => form.(query := v)
    case SportValue(v) => form.(sport := v)
    case OrganisationTypeValue(v) => form.(organisation_type := v)
    case CountryValue(v) => form.(country := v)
    case ContentTypeValue(v) => form.(content_type := v)
    case LanguageValue(v) => form.(language := v)
    case TopicsValue(v) => form.(topics := v)
    case SortValue(v) => form.(sort := v)
    case LimitValue(v) => form.(limit := v)
  }

  /** A form is nothing but the values of its eleven fields. */
  lemma FieldsDetermineForm(a: BuilderForm, b: BuilderForm)
    requires forall n :: Read(a, n) == Read(b, n)
    ensures a == b
  {
    assert Read(a, TitleField) == Read(b, TitleField);
    assert Read(a, DescriptionField) == Read(b, DescriptionField);
    assert Read(a, QueryField) == Read(b, QueryField);
    assert Read(a, SportField) == Read(b, SportField);
    assert Read(a, OrganisationTypeField) == Read(b, OrganisationTypeField);
    assert Read(a, CountryField) == Read(b, CountryField);
    assert Read(a, ContentTypeField) == Read(b, ContentTypeField);
    assert Read(a, LanguageField) == Read(b, LanguageField);
    assert Read(a, TopicsField) == Read(b, TopicsField);
    assert Read(a, SortField) == Read(b, SortField);
    assert Read(a, LimitField) == Read(b, LimitField);
  }

  /** `updateField(key, value)` gives the named field its new value and
      leaves every other field as it was. */
  lemma UpdateFieldOnly(form: BuilderForm, f: Field)
    ensures Read(Updated(form, f), NameOf(f)) == f
    ensures forall n :: n != NameOf(f) ==> Read(Updated(form, f), n) == Read(form, n)
  {
  }

  // ---------------------------------------------------------------- limit

  /** `Math.min(Math.max(limit, 1), MAX_LIMIT)` */
  function ClampLimit(limit: int): (r: int)
    ensures 1 <= r <= MAX_LIMIT
    ensures 1 <= limit <= MAX_LIMIT ==> r == limit
    ensures limit < 1 ==> r == 1
    ensures limit > MAX_LIMIT ==> r == MAX_LIMIT
  {
    Min(Max(limit, 1), MAX_LIMIT)
  }

  /** The limit input's `onChange`: `Number(value) || 1`, clamped to [1, 50]. */
  function LimitInput(value: string): (r: int)
    ensures 1 <= r <= MAX_LIMIT
  {
    ClampLimit(NumberOr(value, 1))
  }

  /** A non-numeric, zero or negative entry gives 1, a larger one is capped
      at 50, and anything in between is kept. */
  lemma LimitInputMeaning(value: string)
    ensures var n := ParseNumber(value);
      LimitInput(value) == if n.Some? && n.value >= 1 then Min(n.value, MAX_LIMIT) else 1
  {
  }

  /** Typing back the number the input displays leaves the limit unchanged. */
  lemma LimitInputRoundTrip(limit: int)
    requires 1 <= limit <= MAX_LIMIT
    ensures LimitInput(IntToString(limit)) == limit
  {
    NumberOfIntToString(limit);
  }

  // ---------------------------------------------------------------- preview

  /** `if (value) search.set(key, value)` */
  function SetIfPresent(ps: seq<Pair>, key: string, value: string): seq<Pair> {
    if value != "" then SetParam(ps, key, value) else ps
  }

  /** The query and the five scalar facets, each written only when non-empty. */
  function ScalarPairs(form: BuilderForm): seq<Pair> {
    var p0 := SetIfPresent([], "query", form.query);
    var p1 := SetIfPresent(p0, "sport", form.sport);
    var p2 := SetIfPresent(p1, "organisation_type", form.organisation_type);
    var p3 := SetIfPresent(p2, "country", form.country);
    var p4 := SetIfPresent(p3, "content_type", form.content_type);
    SetIfPresent(p4, "language", form.language)
  }

  /** One `append("topics", topic)` per selected topic. */
  function TopicPairs(topics: seq<string>): (r: seq<Pair>)
    ensures |r| == |topics|
    ensures forall i :: 0 <= i < |r| ==> r[i] == Pair("topics", topics[i])
  {
    seq(|topics|, i requires 0 <= i < |topics| => Pair("topics", topics[i]))
  }

  /** The `params` memo: the parameters of the preview request. */
  function PreviewPairs(form: BuilderForm): seq<Pair> {
    var withTopics := ScalarPairs(form) + TopicPairs(form.topics);
    var withLimit := SetParam(withTopics, "limit", IntToString(ClampLimit(form.limit)));
    SetParam(withLimit, "sort", SortName(form.sort))
  }

  /** The six `if (value) search.set(key, value)` lines, on fresh parameters. */
  method SetScalars(search: SearchParams, form: BuilderForm)
    requires search.pairs == []
    modifies search
    ensures search.pairs == ScalarPairs(form)
  {
    if form.query != "" { search.Set("query", form.query); }
    if form.sport != "" { search.Set("sport", form.sport); }
    if form.organisation_type != "" { search.Set("organisation_type", form.organisation_type); }
    if form.country != "" { search.Set("country", form.country); }
    if form.content_type != "" { search.Set("content_type", form.content_type); }
    if form.language != "" { search.Set("language", form.language); }
  }

  /** `form.topics.forEach((topic) => search.append("topics", topic))` */
  method AppendTopics(search: SearchParams, topics: seq<string>)
    modifies search
    ensures search.pairs == old(search.pairs) + TopicPairs(topics)
  {
    var i := 0;
    while i < |topics|
      invariant 0 <= i <= |topics|
      invariant search.pairs == old(search.pairs) + TopicPairs(topics[..i])
    {
      assert TopicPairs(topics[..i + 1]) == TopicPairs(topics[..i]) + [Pair("topics", topics[i])];
      search.Append("topics", topics[i]);
      i := i + 1;
    }
    assert topics[..|topics|] == topics;
  }

  method BuildPreview(form: BuilderForm) returns (pairs: seq<Pair>)
    ensures pairs == PreviewPairs(form)
  {
    var search := new SearchParams([]);
    SetScalars(search, form);
    if |form.topics| > 0 {
      AppendTopics(search, form.topics);
    } else {
      assert ScalarPairs(form) + TopicPairs(form.topics) == ScalarPairs(form);
    }
    search.Set("limit", IntToString(ClampLimit(form.limit)));
    search.Set("sort", SortName(form.sort));
    pairs := search.pairs;
  }

  /** The value list of a conditionally written parameter. */
  function Given(value: string): seq<string> {
    if value != "" then [value] else []
  }

  function ScalarValues(form: BuilderForm, k: string): seq<string> {
    if k == "query" then Given(form.query)
    else if k == "sport" then Given(form.sport)
    else if k == "organisation_type" then Given(form.organisation_type)
    else if k == "country" then Given(form.country)
    else if k == "content_type" then Given(form.content_type)
    else if k == "language" then Given(form.language)
    else []
  }

  /** What `getAll(k)` reads from the preview parameters. */
  function PreviewValues(form: BuilderForm, k: string): seq<string> {
    if k == "limit" then [IntToString(ClampLimit(form.limit))]
    else if k == "sort" then [SortName(form.sort)]
    else if k == "topics" then form.topics
    else ScalarValues(form, k)
  }

  lemma SetIfPresentGetAll(ps: seq<Pair>, key: string, value: string, k: string)
    ensures GetAll(SetIfPresent(ps, key, value), k) ==
      if k == key then (if value != "" then [value] else GetAll(ps, key)) else GetAll(ps, k)
  {
    if value != "" { SetGetAll(ps, key, value, k); }
  }

  lemma ScalarPairsGetAll(form: BuilderForm, k: string)
    ensures GetAll(ScalarPairs(form), k) == ScalarValues(form, k)
  {
    var p0 := SetIfPresent([], "query", form.query);
    var p1 := SetIfPresent(p0, "sport", form.sport);
    var p2 := SetIfPresent(p1, "organisation_type", form.organisation_type);
    var p3 := SetIfPresent(p2, "country", form.country);
    var p4 := SetIfPresent(p3, "content_type", form.content_type);
    SetIfPresentGetAll([], "query", form.query, k);
    SetIfPresentGetAll(p0, "sport", form.sport, k);
    SetIfPresentGetAll(p1, "organisation_type", form.organisation_type, k);
    SetIfPresentGetAll(p2, "country", form.country, k);
    SetIfPresentGetAll(p3, "content_type", form.content_type, k);
    SetIfPresentGetAll(p4, "language", form.language, k);
  }

  lemma {:induction false} TopicPairsGetAll(topics: seq<string>, k: string)
    ensures GetAll(TopicPairs(topics), k) == if k == "topics" then topics else []
  {
    if topics != [] {
      var ps := TopicPairs(topics);
      assert ps[1..] == TopicPairs(topics[1..]);
      TopicPairsGetAll(topics[1..], k);
      assert topics == [topics[0]] + topics[1..];
    }
  }

  /** The preview parameters hold each non-empty scalar once, every selected
      topic in selection order, the clamped limit, and the sort. */
  lemma PreviewGetAll(form: BuilderForm, k: string)
    ensures GetAll(PreviewPairs(form), k) == PreviewValues(form, k)
  {
    var withTopics := ScalarPairs(form) + TopicPairs(form.topics);
    var withLimit := SetParam(withTopics, "limit", IntToString(ClampLimit(form.limit)));
    GetAllConcat(ScalarPairs(form), TopicPairs(form.topics), k);
    ScalarPairsGetAll(form, k);
    TopicPairsGetAll(form.topics, k);
    SetGetAll(withTopics, "limit", IntToString(ClampLimit(form.limit)), k);
    SetGetAll(withLimit, "sort", SortName(form.sort), k);
  }

  /** A facet list as the articles route reads a single select value. */
  function Single(value: string): Option<seq<string>> {
    if value != "" then Some([value]) else None
  }

  /** A parameter written at most once reads back as a one-element list. */
  lemma GivenListParam(ps: seq<Pair>, k: string, value: string)
    requires GetAll(ps, k) == Given(value)
    ensures ListParam(ps, k) == Single(value)
  {
    if value != "" {
      assert [value][..0] == [];
      assert NonEmpty([value]) == [value];
    }
  }

  /** What the articles route makes of the preview request: the form's
      query, each chosen facet as a one-element list, the non-empty topics,
      the clamped limit, page 1 and the form's sort. */
  lemma PreviewRequest(form: BuilderForm)
    ensures var args := ArgsFromRequest(PreviewPairs(form));
      && args.limit == Some(ClampLimit(form.limit))
      && args.page == Some(1)
      && args.sort == Some(form.sort)
      && args.filters.query == (if form.query != "" then Some(form.query) else None)
      && args.filters.sports == Single(form.sport)
      && args.filters.organisationTypes == Single(form.organisation_type)
      && args.filters.countries == Single(form.country)
      && args.filters.contentTypes == Single(form.content_type)
      && args.filters.languages == Single(form.language)
      && args.filters.topics == Relisted(Some(form.topics))
      && args.filters.statuses.None?
  {
    var ps := PreviewPairs(form);
    PreviewGetAll(form, "limit");
    PreviewGetAll(form, "sort");
    PreviewGetAll(form, "page");
    PreviewGetAll(form, "query");
    PreviewGetAll(form, "topics");
    NumberOfIntToString(ClampLimit(form.limit));
    ParseSortName(form.sort);
    PreviewGetAll(form, "sport");
    GivenListParam(ps, "sport", form.sport);
    PreviewGetAll(form, "organisation_type");
    GivenListParam(ps, "organisation_type", form.organisation_type);
    PreviewGetAll(form, "country");
    GivenListParam(ps, "country", form.country);
    PreviewGetAll(form, "content_type");
    GivenListParam(ps, "content_type", form.content_type);
    PreviewGetAll(form, "language");
    GivenListParam(ps, "language", form.language);
  }

  // ---------------------------------------------------------------- embed

  function EmbedTitle(form: BuilderForm): (r: string)
    ensures r != ""
  {
    if form.title != "" then form.title else DEFAULT_TITLE
  }

  /** The `embedParams` memo: a copy of the preview parameters with the
      title set and the description set when non-empty. */
  function EmbedPairs(form: BuilderForm): seq<Pair> {
    var withTitle := SetParam(PreviewPairs(form), "title", EmbedTitle(form));
    if form.description != "" then SetParam(withTitle, "description", form.description) else withTitle
  }

  method BuildEmbed(form: BuilderForm) returns (pairs: seq<Pair>)
    ensures pairs == EmbedPairs(form)
  {
    var preview := BuildPreview(form);
    var search := new SearchParams(preview);
    search.Set("title", EmbedTitle(form));
    if form.description != "" {
      search.Set("description", form.description);
    }
    pairs := search.pairs;
  }

  /** The embed parameters are the preview parameters plus a title that is
      never empty and the description when there is one. */
  lemma EmbedGetAll(form: BuilderForm, k: string)
    ensures GetAll(EmbedPairs(form), k) ==
      if k == "title" then [EmbedTitle(form)]
      else if k == "description" then Given(form.description)
      else PreviewValues(form, k)
  {
    var withTitle := SetParam(PreviewPairs(form), "title", EmbedTitle(form));
    PreviewGetAll(form, k);
    SetGetAll(PreviewPairs(form), "title", EmbedTitle(form), k);
    if form.description != "" {
      SetGetAll(withTitle, "description", form.description, k);
    }
  }

  /** `siteUrl.replace(/\/$/, "")`: drops one trailing slash, if any. */
  function EmbedBase(siteUrl: string): (r: string)
    ensures IsPrefix(r, siteUrl) && |siteUrl| - 1 <= |r|
  {
    if |siteUrl| > 0 && siteUrl[|siteUrl| - 1] == '/' then siteUrl[..|siteUrl| - 1] else siteUrl
  }

  /** Exactly one trailing slash is removed, and a base without one is kept. */
  lemma EmbedBaseMeaning(base: string)
    ensures EmbedBase(base + "/") == base
    ensures base == [] || base[|base| - 1] != '/' ==> EmbedBase(base) == base
  {
    assert (base + "/")[..|base|] == base;
  }

  /** `embedUrl`, with the query string kept as its list of parameters. */
  datatype EmbedLink = EmbedLink(path: string, query: seq<Pair>)

  function EmbedUrl(siteUrl: string, form: BuilderForm): EmbedLink {
    EmbedLink(EmbedBase(siteUrl) + "/embed/custom", EmbedPairs(form))
  }

  /** A site URL written with or without its trailing slash gives the same link. */
  lemma EmbedUrlSlash(base: string, form: BuilderForm)
    requires base == [] || base[|base| - 1] != '/'
    ensures EmbedUrl(base + "/", form) == EmbedUrl(base, form)
    ensures EmbedUrl(base, form).path == base + "/embed/custom"
  {
    EmbedBaseMeaning(base);
  }

  // ---------------------------------------------------------------- state

  /** The builder's `form` state. */
  class BuilderState {
    var form: BuilderForm

    constructor ()
      ensures form == DefaultForm
    {
      form := DefaultForm;
    }

    /** `updateField(key, value)` */
    method UpdateField(f: Field)
      modifies this
      ensures form == Updated(old(form), f)
    {
      form := Updated(form, f);
    }

    /** `toggleTopic(topic)` */
    method ToggleTopic(topic: string)
      modifies this
      ensures form == old(form).(topics := TopicSet.Toggled(old(form).topics, topic))
      ensures TopicSet.Distinct(form.topics)
    {
      var next := TopicSet.ToggleTopic(form.topics, topic);
      TopicSet.ToggledMembers(form.topics, topic);
      form := form.(topics := next);
    }

    /** The limit input's `onChange`. */
    method ChangeLimit(value: string)
      modifies this
      ensures form == Updated(old(form), LimitValue(LimitInput(value)))
      ensures 1 <= form.limit <= MAX_LIMIT
    {
      UpdateField(LimitValue(LimitInput(value)));
    }

    /** The reset button: `setForm(defaultForm)`. */
    method Reset()
      modifies this
      ensures form == DefaultForm
    {
      form := DefaultForm;
    }
  }
}
