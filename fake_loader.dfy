/** `lib/data/fakeLoader.ts`: the load-once caches of the bundled data, the
    slug lookup and the widget article selection. Reading and parsing the
    JSON files is outside the model: each load takes the file's parsed
    content as a parameter. */
module FakeLoader {
  import opened Wrappers
  import opened JsArray
  import opened ArticleTypes
  import opened Filtering

  /** A day in milliseconds; the day window counts whole days back from `now`. */
  const DAY_MS: int := 86400000

  /** The two module-level caches. */
  class DataLoader {
    var articlesCache: Option<seq<Article>>
    var widgetsCache: Option<seq<WidgetConfig>>

    constructor()
      ensures articlesCache == None && widgetsCache == None
    {
      articlesCache := None;
      widgetsCache := None;
    }

    /** `loadFakeArticles`: reads the file only while the cache is empty. */
    method LoadFakeArticles(file: seq<Article>) returns (items: seq<Article>)
      modifies this
      ensures items == (if old(articlesCache).Some? then old(articlesCache).value else file)
      ensures articlesCache == Some(items)
      ensures widgetsCache == old(widgetsCache)
    {
      if articlesCache.None? {
        articlesCache := Some(file);
      }
      items := articlesCache.value;
    }

    /** `loadFakeWidgets`: reads the file only while the cache is empty. */
    method LoadFakeWidgets(file: seq<WidgetConfig>) returns (widgets: seq<WidgetConfig>)
      modifies this
      ensures widgets == (if old(widgetsCache).Some? then old(widgetsCache).value else file)
      ensures widgetsCache == Some(widgets)
      ensures articlesCache == old(articlesCache)
    {
      if widgetsCache.None? {
        widgetsCache := Some(file);
      }
      widgets := widgetsCache.value;
    }
  }

  /** Once loaded, the articles stay the same whatever a later file holds. */
  method LoadTwice(loader: DataLoader, first: seq<Article>, later: seq<Article>)
    returns (a: seq<Article>, b: seq<Article>)
    modifies loader
    ensures a == b
  {
    a := loader.LoadFakeArticles(first);
    b := loader.LoadFakeArticles(later);
  }

  /** `widgets.find(w => w.slug === slug)`: the first widget with that slug. */
  function FindWidget(widgets: seq<WidgetConfig>, slug: string): (r: Option<WidgetConfig>)
    ensures r.None? <==> forall w :: w in widgets ==> w.slug != slug
    ensures r.Some? ==> r.value.slug == slug
    ensures r.Some? ==>
      (exists i :: 0 <= i < |widgets| && widgets[i] == r.value
        && forall j :: 0 <= j < i ==> widgets[j].slug != slug)
  {
    if widgets == [] then None
    else if widgets[0].slug == slug then Some(widgets[0])
    else
      var r := FindWidget(widgets[1..], slug);
      assert forall w :: w in widgets ==> w == widgets[0] || w in widgets[1..];
      if r.Some? then
        var i :| 0 <= i < |widgets[1..]| && widgets[1..][i] == r.value
          && r.value.slug == slug && forall j :: 0 <= j < i ==> widgets[1..][j].slug != slug;
        assert widgets[i + 1] == r.value;
        r
      else r
  }

  /** `findWidgetBySlug` */
  method FindWidgetBySlug(loader: DataLoader, file: seq<WidgetConfig>, slug: string)
    returns (r: Option<WidgetConfig>)
    modifies loader
    ensures loader.widgetsCache.Some? && r == FindWidget(loader.widgetsCache.value, slug)
    ensures loader.widgetsCache == (if old(loader.widgetsCache).Some? then old(loader.widgetsCache) else Some(file))
    ensures loader.articlesCache == old(loader.articlesCache)
  {
    var widgets := loader.LoadFakeWidgets(file);
    r := FindWidget(widgets, slug);
  }

  /** `withinWindow`: a falsy number of days imposes nothing, otherwise the
      article is at most that many days old, the boundary included. */
  predicate WithinWindow(a: Article, days: Option<int>, now: int) {
    days.None? || days.value == 0 || a.published_at >= now - days.value * DAY_MS
  }

  /** The filters `selectWidgetArticles` hands to `applyFilters`: the widget's
      facets, no text query, and only published articles. */
  function WidgetFacets(w: WidgetConfig): ArticleFilters {
    ArticleFilters(None, w.filters.sport, w.filters.organisation_type, w.filters.country,
      w.filters.content_type, w.filters.language, w.filters.topics, Some([PUBLISHED]))
  }

  function InWindow(items: seq<Article>, days: Option<int>, now: int): seq<Article> {
    Filter(items, a => WithinWindow(a, days, now))
  }

  predicate Truthy(days: Option<int>) {
    days.Some? && days.value != 0
  }

  /** The articles the widget draws from before sorting: the primary window,
      or the fallback window once when the primary one is empty. */
  function ScopedArticles(articles: seq<Article>, w: WidgetConfig, windowDays: Option<int>,
                          fallbackDays: Option<int>, now: int): seq<Article>
  {
    var filtered := ApplyFilters(articles, WidgetFacets(w));
    var scoped := InWindow(filtered, windowDays, now);
    if scoped == [] && Truthy(fallbackDays) then InWindow(filtered, fallbackDays, now) else scoped
  }

  /** `selectWidgetArticles`: the scoped articles sorted by the widget's
      order and cut to `widget.limit` (which is not capped at 50). */
  method SelectWidgetArticles(loader: DataLoader, file: seq<Article>, widget: WidgetConfig,
                              windowDays: Option<int>, fallbackDays: Option<int>, now: int)
    returns (r: seq<Article>, ghost sorted: seq<Article>)
    modifies loader
    ensures loader.articlesCache.Some?
    ensures loader.articlesCache == (if old(loader.articlesCache).Some? then old(loader.articlesCache) else Some(file))
    ensures loader.widgetsCache == old(loader.widgetsCache)
    ensures multiset(sorted)
      == multiset(ScopedArticles(loader.articlesCache.value, widget, windowDays, fallbackDays, now))
    ensures Sorted(widget.sort, sorted)
    ensures r == Slice(sorted, 0, widget.limit)
  {
    var articles := loader.LoadFakeArticles(file);
    var filtered := ApplyFilters(articles, WidgetFacets(widget));
    var scoped := InWindow(filtered, windowDays, now);
    if |scoped| == 0 && Truthy(fallbackDays) {
      scoped := InWindow(filtered, fallbackDays, now);
    }
    var s := SortItems(scoped, widget.sort);
    sorted := s;
    r := Slice(s, 0, widget.limit);
  }

  // ---------------------------------------------------------------- properties

  /** Every selected article comes from the bundle, is published and passes
      each non-empty facet list of the widget. */
  lemma ScopedArticlesMatch(articles: seq<Article>, w: WidgetConfig, windowDays: Option<int>,
                            fallbackDays: Option<int>, now: int, a: Article)
    requires a in ScopedArticles(articles, w, windowDays, fallbackDays, now)
    ensures a in articles && a.status == PUBLISHED
    ensures FacetAllows(w.filters.sport, a.sport)
      && FacetAllows(w.filters.organisation_type, a.organisation_type)
      && FacetAllows(w.filters.country, a.country)
      && FacetAllows(w.filters.content_type, a.content_type)
      && FacetAllows(w.filters.language, a.language)
      && TopicsAllow(w.filters.topics, a.topics)
  {
    assert Matches(a, WidgetFacets(w));
  }

  /** Without a (truthy) primary window every matching article is kept. */
  lemma NoWindowKeepsAll(articles: seq<Article>, w: WidgetConfig, windowDays: Option<int>,
                         fallbackDays: Option<int>, now: int)
    requires !Truthy(windowDays)
    ensures ScopedArticles(articles, w, windowDays, fallbackDays, now)
      == ApplyFilters(articles, WidgetFacets(w))
  {
    var filtered := ApplyFilters(articles, WidgetFacets(w));
    FilterAll(filtered, a => WithinWindow(a, windowDays, now));
    if filtered == [] {
      FilterAll(filtered, a => WithinWindow(a, fallbackDays, now));
    }
  }

  /** When the primary window holds an article, only the primary window is
      used, and every result is at most `windowDays` days old. */
  lemma PrimaryWindowPreferred(articles: seq<Article>, w: WidgetConfig, windowDays: Option<int>,
                               fallbackDays: Option<int>, now: int)
    requires InWindow(ApplyFilters(articles, WidgetFacets(w)), windowDays, now) != []
    ensures ScopedArticles(articles, w, windowDays, fallbackDays, now)
      == InWindow(ApplyFilters(articles, WidgetFacets(w)), windowDays, now)
    ensures Truthy(windowDays) ==>
      forall a :: a in ScopedArticles(articles, w, windowDays, fallbackDays, now)
        ==> a.published_at >= now - windowDays.value * DAY_MS
  {
  }

  /** The fallback window is used only for an empty primary window and a
      truthy `fallbackDays`; in that case every result is at most
      `fallbackDays` days old. */
  lemma FallbackOnlyWhenEmpty(articles: seq<Article>, w: WidgetConfig, windowDays: Option<int>,
                              fallbackDays: Option<int>, now: int)
    ensures var filtered := ApplyFilters(articles, WidgetFacets(w));
      var scoped := ScopedArticles(articles, w, windowDays, fallbackDays, now);
      && (scoped != InWindow(filtered, windowDays, now) ==>
            InWindow(filtered, windowDays, now) == [] && Truthy(fallbackDays))
      && (InWindow(filtered, windowDays, now) == [] && Truthy(fallbackDays) ==>
            forall a :: a in scoped ==> a.published_at >= now - fallbackDays.value * DAY_MS)
  {
  }

  /** The cut keeps the first `limit` sorted articles (all of them when there
      are fewer). */
  lemma WidgetCut(sorted: seq<Article>, limit: int)
    requires limit >= 0
    ensures |Slice(sorted, 0, limit)| == Min(limit, |sorted|)
    ensures Slice(sorted, 0, limit) == sorted[..Min(limit, |sorted|)]
  {
  }
}
