/** The data mapping of `scripts/seed-supabase.ts`: source slugs, one source
    record per distinct source name, article rows that point at their
    source, and widget rows. Reading the JSON files and the upserts are
    outside the model; the slug-to-id table the store answers with is a
    parameter. */
module Seed {
  import opened Wrappers
  import opened Text
  import opened ArticleTypes
  import opened LocalImages
  import opened ArticlesService

  // ---------------------------------------------------------------- slugs

  /** `.replace(/(^-|-$)+/g, "")` on a collapsed string: one leading and one
      trailing dash go. */
  function StripDashes(t: string): string {
    var u := if t != [] && t[0] == '-' then t[1..] else t;
    if u != [] && u[|u| - 1] == '-' then u[..|u| - 1] else u
  }

  /** `toSlug(value)`: the normalised name without dashes at its ends. */
  function ToSlug(value: string): string {
    StripDashes(Normalize(value))
  }

  predicate NoEdgeDash(s: string) {
    s == [] || (s[0] != '-' && s[|s| - 1] != '-')
  }

  lemma CleanSlice(s: string, i: nat, j: nat)
    requires Clean(s) && i <= j <= |s|
    ensures Clean(s[i..j])
  {
    assert forall k :: 0 <= k < j - i ==> s[i..j][k] == s[i + k];
  }

  /** Dropping a leading dash keeps a clean string clean and leaves it
      starting with a letter or digit: dashes never come two in a row. */
  lemma DropLeadingDash(t: string)
    requires Clean(t)
    ensures var u := if t != [] && t[0] == '-' then t[1..] else t;
      Clean(u) && (u != [] ==> u[0] != '-')
  {
    if t != [] && t[0] == '-' {
      CleanSlice(t, 1, |t|);
      if |t| > 1 { assert t[1..][0] == t[1]; }
    }
  }

  /** The same for a trailing dash, on a string not starting with one. */
  lemma DropTrailingDash(u: string)
    requires Clean(u) && (u != [] ==> u[0] != '-')
    ensures NoEdgeDash(StripDashes(u)) && Clean(StripDashes(u))
  {
    if u != [] && u[|u| - 1] == '-' {
      var v := u[..|u| - 1];
      CleanSlice(u, 0, |u| - 1);
      if v != [] { assert v[|v| - 1] == u[|u| - 2] && v[0] == u[0]; }
      assert StripDashes(u) == v;
    }
  }

  /** A slug holds only `[a-z0-9]` and single dashes, and starts and ends
      with a letter or digit. */
  lemma ToSlugShape(value: string)
    ensures Clean(ToSlug(value)) && NoEdgeDash(ToSlug(value))
  {
    var t := Normalize(value);
    NormalizeIsClean(value);
    DropLeadingDash(t);
    var u := if t != [] && t[0] == '-' then t[1..] else t;
    DropTrailingDash(u);
    assert StripDashes(t) == StripDashes(u) by {
      assert u == [] || u[0] != '-';
    }
  }

  /** Slugging a slug changes nothing. */
  lemma ToSlugIdempotent(value: string)
    ensures ToSlug(ToSlug(value)) == ToSlug(value)
  {
    var s := ToSlug(value);
    ToSlugShape(value);
    LowerClean(s);
    CollapseClean(s);
  }

  // ---------------------------------------------------------------- sources

  /** The distinct source names, in order of first appearance (the key
      order of the `sourcesMap` the script fills). */
  function SourceNames(articles: seq<Article>): seq<string> {
    if articles == [] then []
    else
      var names := SourceNames(articles[..|articles| - 1]);
      var name := articles[|articles| - 1].source_name;
      if name in names then names else names + [name]
  }

  /** The first article bearing a source name. */
  function FirstBySource(articles: seq<Article>, name: string): (r: Option<Article>)
    ensures r.Some? ==> r.value.source_name == name
  {
    if articles == [] then None
    else
      var last := articles[|articles| - 1];
      match FirstBySource(articles[..|articles| - 1], name)
      case Some(a) => Some(a)
      case None => if last.source_name == name then Some(last) else None
  }

  /** Every article's source name is listed, and nothing else is. */
  lemma {:induction false} SourceNamesMembers(articles: seq<Article>)
    ensures forall n :: n in SourceNames(articles) <==> exists a :: a in articles && a.source_name == n
  {
    if articles != [] {
      var init := articles[..|articles| - 1];
      SourceNamesMembers(init);
      assert articles == init + [articles[|articles| - 1]];
    }
  }

  /** No source name is listed twice. */
  lemma {:induction false} SourceNamesDistinct(articles: seq<Article>)
    ensures forall i, j :: 0 <= i < j < |SourceNames(articles)| ==> SourceNames(articles)[i] != SourceNames(articles)[j]
  {
    if articles != [] {
      SourceNamesDistinct(articles[..|articles| - 1]);
    }
  }

  /** `FirstBySource` finds the earliest article with the name, and finds
      one whenever some article has the name. */
  lemma {:induction false} FirstBySourceMeaning(articles: seq<Article>, name: string)
    ensures FirstBySource(articles, name).None? <==> forall a :: a in articles ==> a.source_name != name
    ensures FirstBySource(articles, name).Some? ==> exists i :: (0 <= i < |articles|
      && articles[i] == FirstBySource(articles, name).value
      && forall j :: 0 <= j < i ==> articles[j].source_name != name)
  {
    if articles != [] {
      var init := articles[..|articles| - 1];
      FirstBySourceMeaning(init, name);
      assert articles == init + [articles[|articles| - 1]];
      if FirstBySource(init, name).Some? {
        var i :| 0 <= i < |init| && init[i] == FirstBySource(init, name).value
          && forall j :: 0 <= j < i ==> init[j].source_name != name;
        assert articles[i] == init[i];
      }
    }
  }

  /** A row of the `sources` payload. */
  datatype SourceRow = SourceRow(
    slug: string,
    name: string,
    organisation_type: string,
    sport: string,
    country: string,
    language_primary: string,
    website_url: string,
    is_fake: bool)

  /** The source record built from a name and its first article. */
  function SourceOf(name: string, article: Article): SourceRow {
    SourceRow(ToSlug(name), name, article.organisation_type, article.sport,
      article.country, article.language, article.source_url, true)
  }

  /** `names` and `firsts` are the keys, in insertion order, and the
      entries of the script's `sourcesMap` after the articles `s`. */
  ghost predicate Tracks(s: seq<Article>, names: seq<string>, firsts: map<string, Article>) {
    && names == SourceNames(s)
    && (forall n :: n in firsts <==> n in names)
    && (forall n :: n in firsts ==> FirstBySource(s, n) == Some(firsts[n]))
  }

  /** A name not yet listed has no first article yet. */
  lemma Unlisted(s: seq<Article>, name: string)
    requires name !in SourceNames(s)
    ensures FirstBySource(s, name).None?
  {
    SourceNamesMembers(s);
    FirstBySourceMeaning(s, name);
  }

  /** One step of the `forEach`: `set` only when `has` says no. */
  lemma TracksStep(s: seq<Article>, a: Article, names: seq<string>, firsts: map<string, Article>)
    requires Tracks(s, names, firsts)
    ensures a.source_name in firsts ==> Tracks(s + [a], names, firsts)
    ensures a.source_name !in firsts ==>
      Tracks(s + [a], names + [a.source_name], firsts[a.source_name := a])
  {
    var t := s + [a];
    assert t[..|t| - 1] == s && t[|t| - 1] == a;
    if a.source_name !in firsts {
      Unlisted(s, a.source_name);
    }
  }

  /** The `forEach` over the articles that fills `sourcesMap`, keeping the
      first article of each source name. */
  method CollectSources(articles: seq<Article>) returns (names: seq<string>, firsts: map<string, Article>)
    ensures Tracks(articles, names, firsts)
  {
    names, firsts := [], map[];
    var i := 0;
    while i < |articles|
      invariant 0 <= i <= |articles|
      invariant Tracks(articles[..i], names, firsts)
    {
      var article := articles[i];
      assert articles[..i + 1] == articles[..i] + [article];
      TracksStep(articles[..i], article, names, firsts);
      if article.source_name !in firsts {
        firsts := firsts[article.source_name := article];
        names := names + [article.source_name];
      }
      i := i + 1;
    }
    assert articles[..i] == articles;
  }

  /** The rows built from the tracked names and first articles are one per
      distinct name, each from the name's first article. */
  lemma RowsOfTracked(articles: seq<Article>, names: seq<string>, firsts: map<string, Article>,
                      payload: seq<SourceRow>)
    requires Tracks(articles, names, firsts)
    requires |payload| == |names|
    requires forall j :: 0 <= j < |names| ==> names[j] in firsts && payload[j] == SourceOf(names[j], firsts[names[j]])
    ensures forall i :: 0 <= i < |payload| ==>
      var name := SourceNames(articles)[i];
      FirstBySource(articles, name).Some? && payload[i] == SourceOf(name, FirstBySource(articles, name).value)
    ensures forall i, j :: 0 <= i < j < |payload| ==> payload[i].name != payload[j].name
  {
    SourceNamesDistinct(articles);
    forall i, j | 0 <= i < j < |payload| ensures payload[i].name != payload[j].name {
      assert payload[i].name == names[i] && payload[j].name == names[j];
    }
  }

  /** The source payload: the `map` over the entries of `sourcesMap`. One
      record per distinct source name, built from its first article. */
  method BuildSources(articles: seq<Article>) returns (payload: seq<SourceRow>)
    ensures |payload| == |SourceNames(articles)|
    ensures forall i :: 0 <= i < |payload| ==>
      var name := SourceNames(articles)[i];
      FirstBySource(articles, name).Some? && payload[i] == SourceOf(name, FirstBySource(articles, name).value)
    ensures forall i, j :: 0 <= i < j < |payload| ==> payload[i].name != payload[j].name
  {
    var names, firsts := CollectSources(articles);
    assert forall j :: 0 <= j < |names| ==> names[j] in firsts by {
      forall j | 0 <= j < |names| ensures names[j] in firsts { assert names[j] in names; }
    }
    payload := seq(|names|, j requires 0 <= j < |names| => SourceOf(names[j], firsts[names[j]]));
    RowsOfTracked(articles, names, firsts, payload);
  }

  // ---------------------------------------------------------------- articles

  /** A row of the `articles` payload: every field of the article, the id of
      its source and the fake-data flag. */
  datatype ArticleRow = ArticleRow(article: Article, source_id: string, is_fake: bool)

  /** The store knows a (non-empty) source id for this slug. */
  predicate HasSource(ids: map<string, string>, slug: string) {
    slug in ids && ids[slug] != ""
  }

  function MissingSource(a: Article): string {
    "Missing source for " + a.source_name
  }

  /** The `map` callback over one article. */
  function ArticlePayload(a: Article, ids: map<string, string>): (r: Result<ArticleRow>)
    ensures r.Success? <==> HasSource(ids, ToSlug(a.source_name))
    ensures r.Failure? ==> r.message == MissingSource(a)
    ensures r.Success? ==> r.value == ArticleRow(a, ids[ToSlug(a.source_name)], true)
  {
    var slug := ToSlug(a.source_name);
    if slug in ids && ids[slug] != "" then Success(ArticleRow(a, ids[slug], true))
    else Failure(MissingSource(a))
  }

  /** `articles.map(...)`: every row, or the error of the first article
      without a source. */
  function ArticlePayloads(articles: seq<Article>, ids: map<string, string>): (r: Result<seq<ArticleRow>>)
    ensures r.Success? <==> forall a :: a in articles ==> HasSource(ids, ToSlug(a.source_name))
    ensures r.Success? ==> |r.value| == |articles|
    ensures r.Success? ==> forall i :: 0 <= i < |articles| ==> r.value[i].article == articles[i]
    ensures r.Failure? ==> exists i :: (0 <= i < |articles|
      && !HasSource(ids, ToSlug(articles[i].source_name))
      && r.message == MissingSource(articles[i])
      && forall j :: 0 <= j < i ==> HasSource(ids, ToSlug(articles[j].source_name)))
  {
    if articles == [] then Success([])
    else match ArticlePayload(articles[0], ids)
      case Failure(m) => Failure(m)
      case Success(row) =>
        match ArticlePayloads(articles[1..], ids)
        case Failure(m) =>
          assert forall a :: a in articles[1..] ==> a in articles;
          Failure(m)
        case Success(rows) => Success([row] + rows)
  }

  /** When the store answers with an id for the slug of every source the
      script upserted, no article is missing its source. */
  lemma SeededSourcesSuffice(articles: seq<Article>, ids: map<string, string>)
    requires forall n :: n in SourceNames(articles) ==> HasSource(ids, ToSlug(n))
    ensures ArticlePayloads(articles, ids).Success?
  {
    SourceNamesMembers(articles);
  }

  // ---------------------------------------------------------------- widgets

  /** A row of the `widgets` payload. */
  datatype WidgetInsert = WidgetInsert(
    slug: string,
    name: string,
    description: Option<string>,
    filters: WidgetFilters,
    limit: int,
    sort: string,
    owner_id: Option<string>,
    is_public: bool,
    allowed_domains: seq<string>,
    is_fake: bool)

  function WidgetPayload(w: WidgetConfig): (r: WidgetInsert)
    ensures r.allowed_domains == w.allowed_domains.GetOr([])
    ensures r.owner_id.None? && r.is_public && r.is_fake
  {
    WidgetInsert(w.slug, w.name, w.description, w.filters, w.limit, SortName(w.sort),
      None, true, w.allowed_domains.GetOr([]), true)
  }

  /** The row the store keeps for an inserted widget. */
  function Stored(p: WidgetInsert): WidgetRow {
    WidgetRow(p.slug, p.name, p.description, p.limit, Some(p.sort), Some(p.filters), Some(p.allowed_domains))
  }

  /** A seeded widget reads back as the configuration it came from, except
      that missing allowed domains come back as an empty list. */
  lemma SeededWidgetReadsBack(w: WidgetConfig)
    ensures RowToConfig(Stored(WidgetPayload(w))) == w.(allowed_domains := Some(w.allowed_domains.GetOr([])))
  {
    ParseSortName(w.sort);
  }
}
