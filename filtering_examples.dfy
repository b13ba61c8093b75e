/** The dataset and the expectations of `tests/filtering.test.ts`, stated as
    lemmas about the filter, sort, paginate and query-string models. */
module FilteringExamples {
  import opened Wrappers
  import opened Text
  import opened ArticleTypes
  import opened Params
  import opened Filtering
  import opened JsArray

  /** `makeArticle` with the test's defaults and overrides. */
  function MakeArticle(id: string, title: string, sport: string, language: string,
                       topics: seq<string>, weight: real, publishedAt: int): Article
  {
    Article(id, "World Athletics", "IF", sport, "FRA", language, "news", title,
      "Résumé test", publishedAt, "https://example.com", "https://images.unsplash.com/photo-1",
      topics, weight, "published")
  }

  // 2024-08-01, 2024-09-01 and 2024-07-01 at midnight UTC, in milliseconds.
  function A(): Article {
    MakeArticle("a", "Intégrité financière", "Athletics", "FR", ["intégrité", "gouvernance"], 0.3, 1722470400000)
  }
  function B(): Article {
    MakeArticle("b", "Résultats mondiaux", "Cycling", "EN", ["athlètes"], 0.9, 1725148800000)
  }
  function C(): Article {
    MakeArticle("c", "Calendrier volleyball", "Volleyball", "ES", ["calendrier"], 0.7, 1719792000000)
  }
  function Dataset(): seq<Article> { [A(), B(), C()] }

  /** "filters by multiple criteria" */
  lemma MultipleCriteria()
    ensures ApplyFilters(Dataset(), NoFilters.(sports := Some(["Athletics"]),
      languages := Some(["FR"]), topics := Some(["intégrité"]))) == [A()]
  {
    var f := NoFilters.(sports := Some(["Athletics"]), languages := Some(["FR"]), topics := Some(["intégrité"]));
    assert Matches(A(), f) by { assert "intégrité" in A().topics; }
    assert !Matches(B(), f) by { assert B().sport != "Athletics"; }
    assert !Matches(C(), f) by { assert C().sport != "Athletics"; }
    assert Dataset()[1..][1..][1..] == [];
  }

  lemma LacksV(value: string)
    requires 'v' !in value && 'V' !in value
    ensures !TextIncludes(value, "volley")
  {
    assert Lower("volley")[0] == 'v';
    forall i | 0 <= i < |value| ensures Lower(value)[i] != 'v' {
      assert value[i] != 'v' && value[i] != 'V';
    }
    FirstCharAbsent(Lower(value), Lower("volley"));
  }

  /** An article built by `MakeArticle` whose title and sport lack a `v` is
      not found by "volley": the other searched fields are the defaults. */
  lemma VolleyMissesMade(id: string, title: string, sport: string, language: string,
                         topics: seq<string>, weight: real, publishedAt: int)
    requires 'v' !in title && 'V' !in title && 'v' !in sport && 'V' !in sport
    ensures !QueryAllows(Some("volley"), MakeArticle(id, title, sport, language, topics, weight, publishedAt))
  {
    LacksV(title);
    LacksV(sport);
    LacksV("Résumé test");
    LacksV("World Athletics");
    LacksV("FRA");
  }

  lemma VolleyMissesA()
    ensures !QueryAllows(Some("volley"), A())
  {
    var title, sport := "Intégrité financière", "Athletics";
    assert 'v' !in title && 'V' !in title && 'v' !in sport && 'V' !in sport;
    VolleyMissesMade("a", title, sport, "FR", ["intégrité", "gouvernance"], 0.3, 1722470400000);
  }

  lemma VolleyMissesB()
    ensures !QueryAllows(Some("volley"), B())
  {
    var title, sport := "Résultats mondiaux", "Cycling";
    assert 'v' !in title && 'V' !in title && 'v' !in sport && 'V' !in sport;
    VolleyMissesMade("b", title, sport, "EN", ["athlètes"], 0.9, 1725148800000);
  }

  lemma VolleyFindsC()
    ensures QueryAllows(Some("volley"), C())
  {
    var t := Lower("Calendrier volleyball");
    assert Lower("volley") == "volley";
    assert t[11..][..6] == "volley";
    assert IsPrefix("volley", t[11..]);
  }

  /** "supports partial text search" */
  lemma PartialTextSearch()
    ensures ApplyFilters(Dataset(), NoFilters.(query := Some("volley"))) == [C()]
  {
    VolleyMissesA();
    VolleyMissesB();
    VolleyFindsC();
    assert Dataset()[1..][1..][1..] == [];
  }

  /** "sorts by official weight when requested": every ordering the sort may
      produce puts `b` first and `a` last. */
  lemma OfficialWeightOrder(sorted: seq<Article>)
    requires multiset(sorted) == multiset(Dataset())
    requires Sorted(OfficialDesc, sorted)
    ensures |sorted| == 3 && sorted[0] == B() && sorted[2] == A()
  {
    assert |sorted| == |multiset(sorted)| == 3;
    assert sorted[0] in multiset(Dataset()) && sorted[2] in multiset(Dataset());
    assert B() in multiset(sorted) && A() in multiset(sorted);
    assert sorted[0] in Dataset() && sorted[2] in Dataset();
    assert B() in sorted && A() in sorted;
    var j :| 0 <= j < 3 && sorted[j] == B();
    assert j == 0 || InOrder(OfficialDesc, sorted[0], sorted[j]);
    var i :| 0 <= i < 3 && sorted[i] == A();
    assert i == 2 || InOrder(OfficialDesc, sorted[i], sorted[2]);
  }

  /** "paginates and reports metadata" */
  lemma SecondPageOfOne()
    ensures var r := Paginate(Dataset(), 2, 1);
      r.items == [B()] && r.page == 2 && r.total == 3 && r.hasMore
  {
  }

  function CappedArgs(): QueryStringArgs {
    QueryStringArgs(
      NoFilters.(sports := Some(["Athletics"]), topics := Some(["intégrité", "calendrier"])),
      Some(200), None, Some(OfficialDesc))
  }

  lemma NoEmptyValues(vs: seq<string>)
    requires |vs| <= 2 && "" !in vs
    ensures NonEmpty(vs) == vs
  {
    if vs != [] {
      assert vs[..|vs| - 1] == [] || vs[..|vs| - 1][..0] == [];
    }
  }

  /** "builds query strings and caps limit at 50": `sport=Athletics` ... */
  lemma CappedSport()
    ensures GetAll(QueryPairs(CappedArgs()), "sport") == ["Athletics"]
  {
    QueryPairsGetAll(CappedArgs(), "sport");
    NoEmptyValues(["Athletics"]);
  }

  /** ... two `topics` pairs ... */
  lemma CappedTopics()
    ensures |GetAll(QueryPairs(CappedArgs()), "topics")| == 2
  {
    QueryPairsGetAll(CappedArgs(), "topics");
    NoEmptyValues(["intégrité", "calendrier"]);
  }

  /** A non-zero limit is written once, capped at `MAX_LIMIT`. */
  lemma LimitWritten(args: QueryStringArgs)
    requires args.limit.Some? && args.limit.value != 0
    ensures GetAll(QueryPairs(args), "limit") == [IntToString(Min(args.limit.value, MAX_LIMIT))]
  {
    QueryPairsGetAll(args, "limit");
  }

  lemma Fifty()
    ensures IntToString(Min(200, MAX_LIMIT)) == "50"
  {
    assert NatToString(5) == "5";
  }

  /** ... and `limit=50` for a limit of 200. */
  lemma CappedLimit()
    ensures GetAll(QueryPairs(CappedArgs()), "limit") == ["50"]
  {
    LimitWritten(CappedArgs());
    Fifty();
  }
}
