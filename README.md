# Olympic News Hub — article query engine in Dafny

This project models the article query engine of Olympic News Hub, a Next.js
application that aggregates news from the Olympic movement. It also models the
small decision and string helpers around the engine. The model covers:

- filtering, sorting and paginating articles;
- the query-string serialiser and parser for the listing's filters;
- the orchestrator, which queries either the bundled articles or the
  Supabase store;
- widget article selection, with a day window and a fallback window;
- request parsing in `GET /api/articles`;
- the pagination control;
- the plan and trial logic of user profiles;
- the route guard;
- the sport image lookup;
- the seed script's slugs and payloads;
- the parameter builders, topic toggles and form state of the three client
  components (the widget builder, the listing client and the filter bar).

There is one Dafny module per source file. A few modules are shared:

- `Wrappers`: `Option` and `Result`.
- `Text`: ASCII lowercase, substring, trim, split and join, and rendering
  and parsing of decimal numbers.
- `Params`: `URLSearchParams`, as an ordered list of key/value pairs, plus a
  class whose methods mutate that list.
- `JsArray`: `slice`, `filter` and subsequences.
- `ArticleTypes`: the datatypes of `types/articles.ts`.
- `TopicSet`: the JavaScript `Set` of strings behind topic toggles.

Code that mutates state is modelled imperatively:

- `sortItems` is an insertion sort on an array copy.
- `buildQueryString`, the widget builder's parameters and `updateParams`
  call `set`, `append` and `delete` on a `SearchParams` object.
- The loader caches are fields of a `DataLoader` object.
- The profile table is a class with a map field.
- The seed script's `sourcesMap` is filled by a loop.
- The form states are classes whose handlers reassign their fields.

Each of those methods is proved against a specification function, and the
properties are proved about that function. Dates are integer millisecond
timestamps. The Supabase store, the clock and the environment are
parameters.

## Model

| member | source | states |
|---|---|---|
| Text.Lower | lib/filtering.ts:7 | `toLowerCase` keeps the length and lowercases every character in place |
| Text.LowerIdempotent | lib/filtering.ts:7 | lowercasing a lowercased string changes nothing |
| Text.LowerConcat | lib/localImages.ts:14 | lowercasing distributes over concatenation |
| Text.FirstCharAbsent | lib/filtering.ts:7 | a string that lacks the needle's first character does not include the needle |
| Text.MissingFirstLetter | lib/filtering.ts:6-7 | if no character of the value lowercases to the query's first lowercased character, `textIncludes` is false |
| Text.TrimStart | middleware.ts:32 | the result is no longer than the input and does not start with whitespace |
| Text.TrimEnd | middleware.ts:32 | the result is no longer than the input and does not end with whitespace |
| Text.TrimNoSpace | middleware.ts:32 | `trim` leaves a string without whitespace unchanged |
| Text.Trim | middleware.ts:32 | `trim`: both ends stripped of whitespace; stated by TrimStart, TrimEnd and TrimNoSpace |
| Text.IndexOf | middleware.ts:31 | gives the first position of the separator, or nothing exactly when the separator is absent |
| Text.Split | middleware.ts:31 | `split` gives at least one piece, and no piece holds the separator |
| Text.SplitJoin | middleware.ts:31 | joining the pieces of `split` with the separator gives the string back |
| Text.NatToString | lib/filtering.ts:137 | `String(n)` of a natural number is a non-empty string of digits |
| Text.NumberOr | lib/filtering.ts:160-161 | `Number(s) \|\| d` is never 0 unless the default is |
| Text.ParseNumber | app/api/articles/route.ts:14-16 | `Number(s)` for the decimal strings the model reads; its meaning is stated by NumberOfNatToString, NumberOfNegative and NumberOfIntToString |
| Text.ParseNatToString | lib/filtering.ts:137 | reading back the digits of `String(n)` gives `n` |
| Text.TrimDigits | app/api/articles/route.ts:14 | trimming a digit string changes nothing |
| Text.NumberOfNatToString | app/api/articles/route.ts:14-16 | `Number(String(n))` is `n` for natural numbers |
| Text.NumberOfNegative | app/api/articles/route.ts:14-16 | `Number("-" + digits)` is the negated value of the digits |
| Text.NumberOfIntToString | lib/filtering.ts:136-142 | `Number(String(i))` is `i` for every integer, so a rendered page or limit parses back |
| Params.GetAll | app/api/articles/route.ts:7 | `getAll(key)`: the values of the pairs with that key, in order; stated by GetAllConcat and GetAllEmpty |
| Params.Get | app/api/articles/route.ts:14 | `get(key)`: the first value of the key, or nothing when it has none |
| Params.Deleted | components/ArticlesClient.tsx:80 | `delete(key)` on a pair list; stated by DeleteGetAll |
| Params.SetParam | lib/filtering.ts:116 | `set(key, value)` on a pair list; stated by SetFirstGetAll and SetGetAll |
| Params.GetAllConcat | lib/filtering.ts:150 | `getAll` over concatenated pair lists is the concatenation of the two `getAll`s |
| Params.GetAllEmpty | components/ArticlesClient.tsx:31-37 | `getAll(k)` is empty exactly when no pair has key `k` |
| Params.DeleteGetAll | components/ArticlesClient.tsx:80 | `delete(k)` removes every value of `k` and leaves every other key's values as they were |
| Params.AppendGetAll | components/ArticlesClient.tsx:82 | `append(k, v)` adds `v` after the existing values of `k` and touches no other key |
| Params.SetFirstGetAll | lib/filtering.ts:116 | `set(k, v)` on a present key leaves `[v]` as its only value, and other keys keep theirs |
| Params.SetGetAll | lib/filtering.ts:116 | after `set(k, v)`, `getAll(k)` is `[v]` whether or not `k` was present, and other keys keep their values |
| Params.SearchParams.constructor | components/ArticlesClient.tsx:78 | `new URLSearchParams(paramsString)` holds the given pairs |
| Params.SearchParams.Set | components/ArticlesClient.tsx:84 | the pairs become the `set` of the old pairs |
| Params.SearchParams.Append | components/ArticlesClient.tsx:82 | one pair is added at the end |
| Params.SearchParams.Delete | components/ArticlesClient.tsx:80 | every pair with the key is removed |
| ArticleTypes.ParseSort | app/api/articles/route.ts:17 | the parsed option's name is the string itself, or the option is `date_desc` |
| ArticleTypes.ParseSortName | lib/filtering.ts:132-159 | parsing the name of an option gives the option back |
| JsArray.SliceBound | lib/filtering.ts:95 | a `slice` bound is clamped into `[0, length]` |
| JsArray.Slice | lib/filtering.ts:95 | `slice(a, b)` has length `max(b' - a', 0)` for the clamped bounds, and element `k` is `s[a' + k]` |
| JsArray.SubsequenceMembers | lib/filtering.ts:10 | every member of a subsequence is a member of the sequence |
| JsArray.SubsequencePrepend | lib/filtering.ts:10 | a subsequence stays one when an element is put in front of the sequence |
| JsArray.SubsequenceDropHead | lib/filtering.ts:10 | dropping the head of a subsequence leaves a subsequence |
| JsArray.SubsequenceTransitive | lib/articlesService.ts:36-40 | a subsequence of a subsequence is a subsequence, so the cutoff keeps the input order |
| JsArray.Filter | lib/filtering.ts:10 | `Array.filter` gives a subsequence holding exactly the members that pass, each as often as in the input |
| JsArray.FilterAll | lib/data/fakeLoader.ts:47-63 | filtering with a test that every element passes changes nothing |
| JsArray.FilterConcat | lib/data/fakeLoader.ts:63 | filtering distributes over concatenation |
| JsArray.FilterIdempotent | lib/data/fakeLoader.ts:63-66 | filtering twice with the same test is filtering once |
| Filtering.TextIncludes | lib/filtering.ts:6-7 | `textIncludes`: the lowercased value contains the lowercased query; stated by QueryIgnoresCase and Text.MissingFirstLetter |
| Filtering.QueryAllows | lib/filtering.ts:11-23 | an empty or absent query admits every article, otherwise one of title, summary, source, sport or country must include it |
| Filtering.Matches | lib/filtering.ts:10-60 | the whole `applyFilters` test: the query and every facet, topic and status constraint; stated by ApplyFilters |
| Filtering.ApplyFilters | lib/filtering.ts:9-61 | the result is a subsequence of the items in their order, and an article is kept exactly when it is an item that meets the query and every facet, topic and status constraint, as often as it occurs among the items |
| Filtering.ApplyNoFilters | lib/filtering.ts:9-61 | with no constraint every item is returned, in order |
| Filtering.TopicsAllowOverlap | lib/filtering.ts:48-53 | a non-empty topics list admits an article exactly when the two topic sets intersect |
| Filtering.QueryIgnoresCase | lib/filtering.ts:6-23 | the text search does not depend on the query's case |
| Filtering.InOrder | lib/filtering.ts:63-84 | the comparator of `sortItems` as an order: date ascending, date descending, or weight descending then date descending; stated by InOrderTotal, InOrderTransitive and SortedMeaning |
| Filtering.InOrderTotal | lib/filtering.ts:63-84 | any two articles are ordered one way or the other by each sort |
| Filtering.InOrderTransitive | lib/filtering.ts:63-84 | each sort's order is transitive |
| Filtering.Swap | lib/filtering.ts:64-81 | exchanges two neighbouring elements of the copy, so its contents are a permutation of the old ones |
| Filtering.Insert | lib/filtering.ts:64-81 | moves element `i` into a sorted prefix, so the prefix up to `i` is sorted, the contents are a permutation, and the rest is untouched |
| Filtering.SortInPlace | lib/filtering.ts:64-81 | the array ends sorted by the chosen order and is a permutation of its old contents |
| Filtering.SortItems | lib/filtering.ts:63-84 | the result is a permutation of the input, sorted by the option; the input sequence itself is a value and is not changed |
| Filtering.SortedMeaning | lib/filtering.ts:66-83 | in a sorted result `date_asc` has non-decreasing dates, `date_desc` non-increasing dates, and `official_desc` non-increasing weights with the later date first among equal weights |
| Filtering.Paginate | lib/filtering.ts:86-104 | page and perPage are clamped to at least 1, total is the input length, and `hasMore` holds exactly when `page * perPage` is below the length |
| Filtering.PaginateItems | lib/filtering.ts:93-95 | the items are the window starting at `(page - 1) * perPage`: `min(perPage, remaining)` items, each equal to the item at that offset |
| Filtering.PageOfIndex | lib/filtering.ts:86-104 | item `i` appears on page `i / perPage + 1` at position `i % perPage` |
| Filtering.DivisionParts | lib/filtering.ts:93 | quotient and remainder recompose the index, with the remainder below perPage |
| Filtering.PagePastEnd | lib/filtering.ts:93-102 | a page starting past the end is empty and has no more |
| Filtering.NonEmpty | lib/filtering.ts:121-150 | `filter(Boolean)` keeps exactly the non-empty values |
| Filtering.AppendEach | lib/filtering.ts:119-123 | the `forEach` of `append` adds one pair per non-empty value, in order, after the existing pairs |
| Filtering.QueryPairs | lib/filtering.ts:112-145 | the pairs `buildQueryString` writes; stated key by key by QueryPairsGetAll and read back by QueryStringRoundTrip |
| Filtering.BuildQueryString | lib/filtering.ts:112-145 | the pairs the method builds with `set` and `append` are those of `QueryPairs` |
| Filtering.ListParam | lib/filtering.ts:150 | the list read back for a key is absent or non-empty, and never holds an empty value |
| Filtering.FiltersFromParams | lib/filtering.ts:149-175 | the parsed sort and page are always present, the page is never 0, a present limit is never 0, no statuses are read, the query is the first `query` value, and topics hold no empty value |
| Filtering.ListPairsGetAll | lib/filtering.ts:119-123 | a list's pairs give its non-empty values under its key and nothing under any other key |
| Filtering.NonEmptyIdempotent | lib/filtering.ts:150 | dropping empty values twice is dropping them once |
| Filtering.AppendListGetAll | lib/filtering.ts:119-130 | appending a list's pairs adds its non-empty values under its key only |
| Filtering.FacetStepGetAll | lib/filtering.ts:115-130 | after the query and list steps, each key holds exactly its query or facet values |
| Filtering.SortStepGetAll | lib/filtering.ts:132-134 | after the sort step, `sort` holds the option's name and no other key changes |
| Filtering.PageStepGetAll | lib/filtering.ts:136-138 | after the page step, `page` holds the page only when it is above 1 |
| Filtering.QueryPairsGetAll | lib/filtering.ts:112-145 | for every key, the query string holds the query, facet values, sort name, page above 1 and limit capped at 50, and nothing else |
| Filtering.ListParamRoundTrip | lib/filtering.ts:119-150 | a facet list written and read back is the list without empty values, or absent when nothing is left |
| Filtering.QueryStringRoundTrip | lib/filtering.ts:112-175 | `filtersFromParams(buildQueryString(args))` gives the arguments back, up to empty values dropped, statuses dropped, the limit capped at 50 and the defaults for page and sort |
| Filtering.FiltersRoundTrip | lib/filtering.ts:115-158 | the filters part of the round trip |
| Filtering.LimitRoundTrip | lib/filtering.ts:140-160 | the limit part of the round trip: a non-zero limit comes back capped at 50 |
| Filtering.PageRoundTrip | lib/filtering.ts:136-161 | the page part of the round trip: a page above 1 comes back, and anything else comes back as 1 |
| Filtering.SortRoundTrip | lib/filtering.ts:132-159 | the sort part of the round trip: the sort comes back, defaulting to `date_desc` |
| FilteringExamples.MultipleCriteria | tests/filtering.test.ts:54-62 | sport Athletics, language FR and topic "intégrité" keep only article "a" |
| FilteringExamples.LacksV | lib/filtering.ts:6-7 | a text without `v` or `V` does not include "volley" |
| FilteringExamples.VolleyMissesMade | tests/filtering.test.ts:64-68 | an article whose title and sport lack `v` does not match "volley" |
| FilteringExamples.VolleyMissesA | tests/filtering.test.ts:64-68 | article "a" does not match "volley" |
| FilteringExamples.VolleyMissesB | tests/filtering.test.ts:64-68 | article "b" does not match "volley" |
| FilteringExamples.VolleyFindsC | tests/filtering.test.ts:64-68 | "Calendrier volleyball" matches "volley" |
| FilteringExamples.PartialTextSearch | tests/filtering.test.ts:64-68 | searching "volley" keeps only article "c" |
| FilteringExamples.OfficialWeightOrder | tests/filtering.test.ts:70-74 | sorting the fixture by official weight puts "b" first and "a" last |
| FilteringExamples.SecondPageOfOne | tests/filtering.test.ts:76-81 | page 2 of size 1 holds "b", with total 3 and more to come |
| FilteringExamples.NoEmptyValues | tests/filtering.test.ts:83-93 | a short list without empty values is kept whole |
| FilteringExamples.CappedSport | tests/filtering.test.ts:83-93 | the query string carries `sport=Athletics` |
| FilteringExamples.CappedTopics | tests/filtering.test.ts:83-93 | the query string carries both topics |
| FilteringExamples.LimitWritten | lib/filtering.ts:140-142 | a non-zero limit is written as `min(limit, 50)` |
| FilteringExamples.Fifty | tests/filtering.test.ts:92 | `String(Math.min(200, 50))` is "50" |
| FilteringExamples.CappedLimit | tests/filtering.test.ts:83-93 | a limit of 200 is written as `limit=50` |
| ArticlesService.PageSize | lib/articlesService.ts:30-47 | the page size is at most 50, defaults to 12, and is `min(limit, 50)` when a limit is given |
| ArticlesService.LocalFilters | lib/articlesService.ts:34-37 | the caller's filters with statuses defaulted to published; stated by LocalStatuses |
| ArticlesService.LocalMatches | lib/articlesService.ts:32-40 | the local matches are a subsequence of the articles: those that meet the filters, with statuses defaulted to published, and are published at or after the cutoff |
| ArticlesService.LocalStatuses | lib/articlesService.ts:32-35 | without caller statuses only published articles are returned; with them, exactly the caller's statuses apply |
| ArticlesService.StripPercent | lib/articlesService.ts:81 | the stripped query holds no `%` |
| ArticlesService.BuildRemoteQuery | lib/articlesService.ts:45-98 | the query built clause by clause is the plan `RemotePlan` |
| ArticlesService.LikeMatch | lib/articlesService.ts:80-85 | SQL `ILIKE` matching: `%` any run, `_` any character, others equal ignoring case (no `\` escape, no `*` alias); stated by LikeAnything, LikeLiteralPrefix, LikeLeadingPercent, LikeContains and UnderscoreIsWildcard |
| ArticlesService.LikeAnything | lib/articlesService.ts:82-85 | `%` alone matches any text |
| ArticlesService.LikeLiteralPrefix | lib/articlesService.ts:82-85 | a pattern of literal characters matches a text beginning with them, ignoring case |
| ArticlesService.LikeLeadingPercent | lib/articlesService.ts:82-85 | a leading `%` lets the pattern start anywhere |
| ArticlesService.LikeContains | lib/articlesService.ts:80-86 | `%w%` for a `%`- and `_`-free word matches exactly the texts that include the word, ignoring case |
| ArticlesService.UnderscoreIsWildcard | lib/articlesService.ts:81-85 | in the store's pattern `_` matches any one character |
| ArticlesService.UnderscoreStrip | lib/articlesService.ts:81 | stripping `%` keeps `_` |
| ArticlesService.UnderscoreLike | lib/articlesService.ts:80-86 | the query "a_c" matches "abc" remotely |
| ArticlesService.UnderscoreNotIncluded | lib/filtering.ts:6-7 | the query "a_c" does not match "abc" locally |
| ArticlesService.SatisfiesAllConcat | lib/articlesService.ts:52-86 | satisfying a concatenation of clauses is satisfying both parts |
| ArticlesService.InClauseMeaning | lib/articlesService.ts:60-64 | an `in` clause is emitted only for a non-empty list, and it is the facet's membership test |
| ArticlesService.IlikeFour | lib/articlesService.ts:83-85 | the `or` of four `ilike`s holds exactly when one of the four columns matches |
| ArticlesService.LikeFour | lib/articlesService.ts:80-86 | for a literal query (no `%`, `_`, `*`, `\`, `,`, `(`, `)` or `"`), the four `ilike`s amount to a case-insensitive search of title, summary, source name and sport |
| ArticlesService.SearchClauseMeaning | lib/articlesService.ts:80-86 | for a plain query (no `_`, `*`, `\`, `,`, `(`, `)` or `"`), the search clause admits exactly the articles whose four searched fields include the `%`-stripped query |
| ArticlesService.FacetClausesMeaning | lib/articlesService.ts:60-70 | the five `in` clauses hold exactly when every facet admits the article |
| ArticlesService.RemotePlan | lib/articlesService.ts:45-98 | the plan `fetchArticlesFromSupabase` sends: clauses, orders and row range; stated by BuildRemoteQuery, RemotePlanMeaning, RemoteOrderAgrees and RangeSize |
| ArticlesService.RemotePlanMeaning | lib/articlesService.ts:52-86 | for a plain query (no `_`, `*`, `\`, `,`, `(`, `)` or `"`), the plan's clauses select exactly the published articles that meet the facets, the topic overlap, the cutoff and the four-field search |
| ArticlesService.RemoteMatchImpliesLocal | lib/articlesService.ts:52-86 | when the caller gives no statuses and the query is plain and holds no `%`, an article the store selects is one the local path also keeps |
| ArticlesService.CountryOnlyLocal | lib/filtering.ts:12-18 | an article whose only mention of the query is its country matches locally |
| ArticlesService.LacksJ | lib/articlesService.ts:83-85 | a text without `j` or `J` does not include "japan" |
| ArticlesService.CountryOnlyNoHit | lib/articlesService.ts:83-85 | that article's four searched fields miss the query |
| ArticlesService.CountryOnlyRemote | lib/articlesService.ts:80-86 | that article is not selected by the store |
| ArticlesService.CountryOnlyMatch | lib/articlesService.ts:83-85 | the local and remote searches disagree on that article |
| ArticlesService.RemoteOrderAgrees | lib/articlesService.ts:88-96 | the order the store applies is the local `sortItems` order for every option |
| ArticlesService.RemoteOutcome | lib/articlesService.ts:100-110 | a store error fails with the store's message and never becomes an empty page; otherwise the page is at least 1 and perPage is the page size |
| ArticlesService.RangeSize | lib/articlesService.ts:47-50 | the requested range holds exactly `limit` rows, starting at `(page - 1) * limit` |
| ArticlesService.RemoteAgreesWithPaginate | lib/articlesService.ts:104-110 | a store that answers with the range and the exact count gives the same page as `paginate`, including `hasMore` |
| ArticlesService.NonPositiveLimitDiverges | lib/articlesService.ts:47-110 | for a limit of at most 0 the store is asked for a reversed range, its page reports that limit as `perPage` and, on page 1 with any rows counted, `hasMore`, while `paginate` uses a page size of 1; so no store answer equals the local page |
| ArticlesService.QueryArticles | lib/articlesService.ts:25-43 | configured, the answer is the store's for the plan; otherwise the cache is loaded once and the answer paginates a sorted permutation of the local matches |
| ArticlesService.RowToConfig | lib/articlesService.ts:132-140 | a widget row as a configuration, with sort defaulted to `date_desc` and filters to `{}` |
| ArticlesService.FetchWidget | lib/articlesService.ts:113-141 | no widget when unconfigured or missing, the store's message on error, and otherwise the row's slug, name, description, limit and allowed domains, its sort read as an option or `date_desc` when missing, and its filters or `{}` when missing |
| FakeLoader.DataLoader.constructor | lib/data/fakeLoader.ts:7-8 | both caches start empty |
| FakeLoader.DataLoader.LoadFakeArticles | lib/data/fakeLoader.ts:18-23 | the first load fills the cache from the file, and every later load returns the cache |
| FakeLoader.DataLoader.LoadFakeWidgets | lib/data/fakeLoader.ts:25-30 | the same for widgets |
| FakeLoader.LoadTwice | lib/data/fakeLoader.ts:18-23 | two loads return the same articles even if the file changed in between |
| FakeLoader.FindWidget | lib/data/fakeLoader.ts:34 | `find` gives the first widget with the slug, or nothing exactly when no widget has it |
| FakeLoader.FindWidgetBySlug | lib/data/fakeLoader.ts:32-35 | the lookup runs over the cached widgets |
| FakeLoader.SelectWidgetArticles | lib/data/fakeLoader.ts:37-71 | the result is the first `widget.limit` articles of a sorted permutation of the scoped articles |
| FakeLoader.WithinWindow | lib/data/fakeLoader.ts:46-51 | no window or a zero window admits everything, otherwise an article published at or after `days` days before now |
| FakeLoader.ScopedArticles | lib/data/fakeLoader.ts:53-67 | the widget's facets and published status, then the primary window, or the fallback window when the primary one is empty; stated by ScopedArticlesMatch, NoWindowKeepsAll, PrimaryWindowPreferred and FallbackOnlyWhenEmpty |
| FakeLoader.ScopedArticlesMatch | lib/data/fakeLoader.ts:53-61 | every selected article is published and meets every widget facet |
| FakeLoader.NoWindowKeepsAll | lib/data/fakeLoader.ts:46-47 | an absent or zero window imposes no time restriction |
| FakeLoader.PrimaryWindowPreferred | lib/data/fakeLoader.ts:63-67 | when the primary window finds articles, the result comes from it alone, at or after `now - days` |
| FakeLoader.FallbackOnlyWhenEmpty | lib/data/fakeLoader.ts:63-67 | the fallback is used only when the primary window is empty and the fallback is non-zero, and then the articles lie within it |
| FakeLoader.WidgetCut | lib/data/fakeLoader.ts:70 | `slice(0, limit)` keeps `min(limit, length)` articles from the front |
| ArticlesRoute.ArgsFromRequest | app/api/articles/route.ts:13-30 | the arguments carry the parsed filters, page and sort, and the limit is `min(limit or 12, 50)` |
| ArticlesRoute.RouteLimit | app/api/articles/route.ts:14-15 | a missing, zero or non-numeric limit becomes 12, any other is capped at 50, and the result is never 0 |
| ArticlesRoute.RouteDefaults | app/api/articles/route.ts:16-17 | a missing, zero or non-numeric page becomes 1, and a missing sort becomes `date_desc` |
| ArticlesRoute.NonEmptyIsFilter | app/api/articles/route.ts:7 | dropping empty values is `filter(Boolean)` |
| ArticlesRoute.ToListMeaning | app/api/articles/route.ts:6-9 | `toList` is absent exactly when the key has no non-empty value, and otherwise lists those values in order |
| ArticlesRoute.Respond | app/api/articles/route.ts:33-36 | status 500 with `{message}` exactly on failure, and 200 with the page otherwise |
| ArticlesRoute.HandleGet | app/api/articles/route.ts:11-37 | the response is the parsed request answered by `queryArticles` |
| ArticlesRoute.CappedRequestLimit | tests/api.articles.test.ts:32-43 | `limit=999` is forwarded as 50 |
| ArticlesRoute.NegativeRequestLimit | app/api/articles/route.ts:14-15 | `limit=-5` is forwarded as -5: `Number(...) \|\| 12` keeps a negative number and the cap leaves it |
| ArticlesRoute.CappedRequestTopics | tests/api.articles.test.ts:32-43 | repeated topics are forwarded in order |
| ArticlesRoute.OfficialSortRequest | tests/api.articles.test.ts:45-56 | `sort=official_desc` and `sport=Athletics` become the sort and the sports list |
| PaginationControl.CeilDiv | components/Pagination.tsx:11 | `ceil(total / perPage)` is the least count of pages covering the total |
| PaginationControl.TotalPages | components/Pagination.tsx:11 | at least one page; for a positive page size, enough pages to cover the total with no page to spare; for a negative page size, exactly one page |
| PaginationControl.Clamp | components/Pagination.tsx:14 | the target is clamped into `[1, totalPages]` |
| PaginationControl.ChangePage | components/Pagination.tsx:13-18 | the callback fires only with a clamped target different from the current page |
| PaginationControl.PreviousClick | components/Pagination.tsx:13-29 | for every page: disabled only on page 1, where a click does nothing; otherwise a click moves back one page from a page up to one past the end, to the last page from a page further out, and to page 1 from a page below 1 |
| PaginationControl.NextClick | components/Pagination.tsx:13-37 | for every page: disabled only on the last page, where a click does nothing; a click moves forward one page before the last page, and from a page past the end it is enabled and moves back to the last page |
| PaginationControl.NextDisabledIffNoMore | components/Pagination.tsx:11-37 | fed with the paginator's own page, total and page size, for any requested page: up to the last page, "next" is disabled exactly when `paginate` reports no more items; past the end, `paginate` reports none but "next" is enabled and leads back to the last page |
| Profile.HasActivePlan | lib/profile.ts:50-55 | `hasActivePlan`: a present, active profile whose expiry is absent or strictly later than now; its behaviour over time is stated by ActivePlanEarlier and ExpiryDecides |
| Profile.ActivePlanEarlier | lib/profile.ts:50-55 | a plan active now was active earlier, and one inactive earlier stays inactive |
| Profile.ExpiryDecides | lib/profile.ts:52-54 | an active profile without expiry is active; with one, it is active exactly when the expiry is strictly later than now |
| Profile.Selected | lib/profile.ts:14-18 | the record the lookup returns keeps id, e-mail, plan, expiry and activity, and lacks the other five columns |
| Profile.SelectedKeepsPlan | lib/profile.ts:15-55 | the selected columns grant access exactly when the stored row does |
| Profile.Trial | lib/profile.ts:25-44 | the trial has the user's id and e-mail, the `trial` plan and an expiry 30 days from now |
| Profile.TrialLasts | lib/profile.ts:24-44 | a new trial is active until exactly 30 days after its creation |
| Profile.ProfileTable.constructor | lib/profile.ts:13-18 | the table holds the given rows |
| Profile.ProfileTable.EnsureProfile | lib/profile.ts:8-48 | no id gives null and no write, a select error is rethrown, an existing row is returned with only its five selected columns, and a missing row yields a trial that is inserted when the insert succeeds |
| Profile.FirstVisit | lib/profile.ts:24-44 | a first visit yields an active plan, both in the result and in the stored row |
| Middleware.Protected | middleware.ts:7-11 | a path starting with a protected prefix; stated by ProtectedMeaning |
| Middleware.ProtectedMeaning | middleware.ts:7-11 | a path is protected exactly when it starts with `/widgets` or `/admin` |
| Middleware.Normalized | middleware.ts:32 | each admin entry is trimmed and lowercased |
| Middleware.AdminEmails | middleware.ts:30-33 | the comma-separated entries of `ADMIN_EMAILS`, trimmed, lowercased, empty ones dropped; stated by Normalized and IsAdminMeaning |
| Middleware.IsAdmin | middleware.ts:34-35 | the lowercased session e-mail is listed; stated by IsAdminMeaning |
| Middleware.IsAdminMeaning | middleware.ts:30-35 | a user is an admin exactly when their non-empty e-mail equals some entry of `ADMIN_EMAILS`, ignoring surrounding blanks and case; a user without e-mail never is |
| Middleware.Decide | middleware.ts:9-43 | the request passes exactly when the path is unprotected, or there is a session and the path is not `/admin` or the user is an admin |
| Middleware.Guard | middleware.ts:9-43 | the decision built by cloning and editing the URL is `Decide` |
| Middleware.UnprotectedPasses | middleware.ts:11-14 | a path outside `/widgets` and `/admin` passes whatever the session |
| Middleware.SignInRedirect | middleware.ts:22-27 | without a session, a protected path redirects to `/auth` with `redirectTo` set to the path and every other parameter kept |
| Middleware.AdminGate | middleware.ts:29-39 | on `/admin`, an admin passes and anyone else is redirected to `/` |
| Middleware.WidgetsNeedOnlySession | middleware.ts:29-42 | on `/widgets`, any session passes |
| Middleware.WidgetsNotAdmin | middleware.ts:29 | a `/widgets` path never takes the admin branch |
| LocalImages.SkipRun | lib/localImages.ts:14 | skipping a run of other characters leaves a text that starts with a key character |
| LocalImages.Collapse | lib/localImages.ts:14 | the replacement starts with `-` exactly when the text starts with a non-key character |
| LocalImages.CollapseIsClean | lib/localImages.ts:14 | the replacement holds only `a-z`, `0-9` and `-`, with no two `-` in a row |
| LocalImages.Normalize | lib/localImages.ts:14 | `normalize`: lowercase, then each run of other characters replaced by one `-`; stated by NormalizeIsClean, NormalizeIdempotent and NormalizeIgnoresCase |
| LocalImages.NormalizeIsClean | lib/localImages.ts:14 | `normalize` output holds only `a-z`, `0-9` and `-`, with no two `-` in a row |
| LocalImages.SkipRunKeepsKeyChars | lib/localImages.ts:14 | skipping a run loses no key character |
| LocalImages.CollapseKeepsKeyChars | lib/localImages.ts:14 | the replacement keeps every key character, in order |
| LocalImages.CollapseClean | lib/localImages.ts:14 | the replacement leaves a clean text unchanged |
| LocalImages.LowerClean | lib/localImages.ts:14 | lowercasing leaves a clean text unchanged |
| LocalImages.NormalizeIdempotent | lib/localImages.ts:14 | normalising twice is normalising once |
| LocalImages.NormalizeIgnoresCase | lib/localImages.ts:14 | texts equal up to case normalise alike |
| LocalImages.NormalizeLetters | lib/localImages.ts:14 | a word of letters normalises to its lowercase |
| LocalImages.GetLocalImageForSport | lib/localImages.ts:16-19 | the image is always a value of the map: the key's own image when the key is in the map, and the default otherwise |
| LocalImages.ImageIgnoresCase | lib/localImages.ts:14-18 | the image does not depend on the sport's case |
| LocalImages.OptionImage | lib/localImages.ts:1-19 | a one-word sport whose lowercase is a key gets that key's image, which is not the default |
| LocalImages.ImageOf | lib/localImages.ts:16-18 | a sport that normalises to a key gets that key's image |
| LocalImages.CollapsePrefix | lib/localImages.ts:14 | a prefix of key characters passes through the replacement unchanged |
| LocalImages.TwoWords | lib/localImages.ts:14 | two words separated by a space become joined by one `-` |
| LocalImages.TableTennisLower | lib/localImages.ts:14 | "Table Tennis" lowercases to "table tennis" |
| LocalImages.TableTennisKey | lib/localImages.ts:14 | "Table Tennis" normalises to `table-tennis` |
| LocalImages.TableTennisImage | lib/localImages.ts:6-19 | "Table Tennis" gets `table-tennis.svg` |
| LocalImages.SportOptionImages | lib/constants.ts:1-11 | every sport option gets its own image, never the default |
| LocalImages.PropertyRead | lib/localImages.ts:18 | reading a property of the object literal finds an own entry exactly when the key is in the map |
| LocalImages.ImageAsWritten | lib/localImages.ts:16-19 | the lookup as written, when it finds an own entry, gives that entry's image |
| LocalImages.ConstructorIsNoImage | lib/localImages.ts:18 | the lookup as written gives the inherited `constructor` function, not an image, for the sport "Constructor" |
| LocalImages.ConstructorKey | lib/localImages.ts:14 | any casing of "constructor" normalises to `constructor` |
| LocalImages.ConstructorRead | lib/localImages.ts:18 | the key `constructor` reads the inherited property |
| LocalImages.ConstructorSpelling | lib/localImages.ts:14 | "Constructor" lowercases to "constructor" |
| Seed.CleanSlice | scripts/seed-supabase.ts:35 | a slice of a clean text is clean |
| Seed.DropLeadingDash | scripts/seed-supabase.ts:35 | removing a leading `-` leaves a clean text that does not start with `-` |
| Seed.DropTrailingDash | scripts/seed-supabase.ts:35 | removing a trailing `-` as well leaves a clean text with no `-` at either end |
| Seed.ToSlug | scripts/seed-supabase.ts:31-35 | `toSlug`: `normalize`, then dashes at either end removed; stated by ToSlugShape and ToSlugIdempotent |
| Seed.ToSlugShape | scripts/seed-supabase.ts:31-35 | a slug holds only `a-z`, `0-9` and `-`, has no `--`, and neither starts nor ends with `-` |
| Seed.ToSlugIdempotent | scripts/seed-supabase.ts:31-35 | a slug is its own slug |
| Seed.FirstBySource | scripts/seed-supabase.ts:41-46 | the article found for a source bears that source's name |
| Seed.SourceNamesMembers | scripts/seed-supabase.ts:41-46 | the source names are exactly the names some article bears |
| Seed.SourceNamesDistinct | scripts/seed-supabase.ts:41-46 | no source name is listed twice |
| Seed.FirstBySourceMeaning | scripts/seed-supabase.ts:41-46 | the article kept for a name is the first to bear it, and none is kept exactly when no article bears it |
| Seed.Unlisted | scripts/seed-supabase.ts:43 | a name not yet in the map has no article before it |
| Seed.TracksStep | scripts/seed-supabase.ts:42-45 | one step of the `forEach` keeps the map equal to the first article per name, in insertion order |
| Seed.CollectSources | scripts/seed-supabase.ts:41-46 | the loop ends with one entry per distinct name, holding the first article bearing it, in the order names first appear |
| Seed.RowsOfTracked | scripts/seed-supabase.ts:48-59 | rows built from a complete map describe each name's first article and repeat no name |
| Seed.BuildSources | scripts/seed-supabase.ts:41-59 | one source row per distinct source name, with fields from the first article bearing it, and no name twice |
| Seed.ArticlePayload | scripts/seed-supabase.ts:74-99 | an article with a stored source becomes its row with that source id; otherwise it fails with "Missing source for <name>" |
| Seed.ArticlePayloads | scripts/seed-supabase.ts:74-99 | the payload succeeds exactly when every article's source is stored, keeping the articles in order; otherwise it fails at the first article without one |
| Seed.SeededSourcesSuffice | scripts/seed-supabase.ts:61-79 | when every seeded source's slug has an id, no article fails |
| Seed.WidgetPayload | scripts/seed-supabase.ts:103-114 | allowed domains default to `[]`, the owner is null, and the widget is public and fake |
| Seed.SeededWidgetReadsBack | scripts/seed-supabase.ts:103-114 | a seeded widget read back by `fetchWidgetFromSupabase` is the original, with missing allowed domains as `[]` |
| TopicSet.Dedup | components/FiltersBar.tsx:54 | `new Set(list)` holds the same members, without duplicates |
| TopicSet.DedupDistinct | components/WidgetBuilderClient.tsx:120 | a list without duplicates goes through a `Set` unchanged |
| TopicSet.Remove | components/FiltersBar.tsx:56 | `delete` keeps every other member, in order |
| TopicSet.RemoveDistinct | components/FiltersBar.tsx:56 | deleting from a list without duplicates leaves none |
| TopicSet.RemoveAbsent | components/FiltersBar.tsx:56 | deleting an absent value changes nothing |
| TopicSet.RemoveConcat | components/FiltersBar.tsx:56 | deleting distributes over concatenation |
| TopicSet.StringSet.constructor | components/FiltersBar.tsx:54 | the set holds the list's first occurrences, in order |
| TopicSet.StringSet.Add | components/FiltersBar.tsx:58 | `add` appends an absent value and ignores a present one |
| TopicSet.StringSet.Delete | components/FiltersBar.tsx:56 | `delete` removes the value |
| TopicSet.ToggleTopic | components/FiltersBar.tsx:52-62 | the method that builds a `Set`, deletes or adds, and reads it back yields `Toggled` |
| TopicSet.ToggledMembers | components/FiltersBar.tsx:52-62 | a toggle flips the topic's membership, keeps every other topic's, and leaves no duplicate |
| TopicSet.ToggledOrder | components/WidgetBuilderClient.tsx:118-128 | on a list without duplicates, an absent topic goes to the end and a present one is removed with the rest in order |
| TopicSet.ToggleTwice | components/FiltersBar.tsx:52-62 | toggling twice restores every membership, and restores the very list when the topic was absent |
| WidgetBuilder.Read | components/WidgetBuilderClient.tsx:111-116 | reading a field by name gives a field of that name |
| WidgetBuilder.FieldsDetermineForm | components/WidgetBuilderClient.tsx:111-116 | two forms with the same fields are equal |
| WidgetBuilder.UpdateFieldOnly | components/WidgetBuilderClient.tsx:111-116 | `updateField` sets the named field and leaves every other field |
| WidgetBuilder.ClampLimit | components/WidgetBuilderClient.tsx:68 | the preview limit is clamped into `[1, 50]` |
| WidgetBuilder.LimitInput | components/WidgetBuilderClient.tsx:296-298 | the limit input always yields a value in `[1, 50]` |
| WidgetBuilder.LimitInputMeaning | components/WidgetBuilderClient.tsx:296-298 | a non-numeric or non-positive input gives 1, and any other is capped at 50 |
| WidgetBuilder.LimitInputRoundTrip | components/WidgetBuilderClient.tsx:295-298 | typing a valid limit gives it back |
| WidgetBuilder.TopicPairs | components/WidgetBuilderClient.tsx:65-67 | one `topics` pair per selected topic, in selection order |
| WidgetBuilder.SetScalars | components/WidgetBuilderClient.tsx:58-64 | the `set` calls on a fresh `URLSearchParams` give the scalar pairs |
| WidgetBuilder.AppendTopics | components/WidgetBuilderClient.tsx:65-67 | the `forEach` of `append` adds the topic pairs after the existing ones |
| WidgetBuilder.BuildPreview | components/WidgetBuilderClient.tsx:57-71 | the method builds the preview pairs |
| WidgetBuilder.SetIfPresentGetAll | components/WidgetBuilderClient.tsx:59-64 | a scalar is written only when non-empty, and no other key changes |
| WidgetBuilder.ScalarPairsGetAll | components/WidgetBuilderClient.tsx:59-64 | query and each facet are present exactly when non-empty |
| WidgetBuilder.TopicPairsGetAll | components/WidgetBuilderClient.tsx:65-67 | the topic pairs give the topics under `topics` and nothing under other keys |
| WidgetBuilder.PreviewGetAll | components/WidgetBuilderClient.tsx:57-71 | for every key, the preview holds the non-empty scalars, the topics, the clamped limit and the sort, always present |
| WidgetBuilder.GivenListParam | app/api/articles/route.ts:6-9 | a key with at most one non-empty value reads back as that one-element list or as absent |
| WidgetBuilder.PreviewRequest | components/WidgetBuilderClient.tsx:57-89 | the preview request reaches the route as page 1, the form's sort, the clamped limit, the non-empty query and the form's facets and topics |
| WidgetBuilder.EmbedTitle | components/WidgetBuilderClient.tsx:75 | the embed title is never empty |
| WidgetBuilder.BuildEmbed | components/WidgetBuilderClient.tsx:73-78 | the method builds the embed pairs |
| WidgetBuilder.EmbedGetAll | components/WidgetBuilderClient.tsx:73-78 | the embed holds the preview's values, a title (defaulted when empty) and a description only when non-empty |
| WidgetBuilder.EmbedBase | components/WidgetBuilderClient.tsx:80 | the base is a prefix of the site URL, at most one character shorter |
| WidgetBuilder.EmbedBaseMeaning | components/WidgetBuilderClient.tsx:80 | one trailing `/` is removed, and a URL without one is kept |
| WidgetBuilder.EmbedUrlSlash | components/WidgetBuilderClient.tsx:80 | a site URL with or without its trailing `/` gives the same embed URL, whose path is the base plus `/embed/custom` |
| WidgetBuilder.BuilderState.constructor | components/WidgetBuilderClient.tsx:36-51 | the form starts as the default form |
| WidgetBuilder.BuilderState.UpdateField | components/WidgetBuilderClient.tsx:111-116 | the form becomes the updated form |
| WidgetBuilder.BuilderState.ToggleTopic | components/WidgetBuilderClient.tsx:118-128 | the topics become their toggle and hold no duplicate |
| WidgetBuilder.BuilderState.ChangeLimit | components/WidgetBuilderClient.tsx:296-298 | the limit becomes the clamped input, always in `[1, 50]` |
| WidgetBuilder.BuilderState.Reset | components/WidgetBuilderClient.tsx:304 | the form returns to the default form |
| FiltersBar.Read | components/FiltersBar.tsx:45-50 | reading a field by key gives a field of that key |
| FiltersBar.FieldsDetermineState | components/FiltersBar.tsx:45-50 | two states with the same fields are equal |
| FiltersBar.UpdateFieldOnly | components/FiltersBar.tsx:45-50 | `updateField` sets the named field and leaves every other field |
| FiltersBar.SelectValue | components/FiltersBar.tsx:95 | the empty option gives undefined, and any other option gives its value |
| FiltersBar.SelectDisplayed | components/FiltersBar.tsx:95 | choosing the displayed option again gives the field back, unless the field held an empty string |
| FiltersBar.ToggleMembership | components/FiltersBar.tsx:52-62 | a toggle flips the topic's membership, keeps the others', leaves no duplicate, and a second toggle restores the memberships |
| FiltersBar.ToggleOrder | components/FiltersBar.tsx:52-62 | on a list without duplicates an absent topic goes to the end, and a present one is removed with the rest in order |
| FiltersBar.FiltersBarState.constructor | components/FiltersBar.tsx:33-35 | the form starts from the initial state and sort |
| FiltersBar.FiltersBarState.ReceiveInitialState | components/FiltersBar.tsx:37-39 | a new `initialState` replaces the filters and keeps the pending sort choice |
| FiltersBar.FiltersBarState.ReceiveSort | components/FiltersBar.tsx:41-43 | the sort value is replaced only when the `sort` prop differs from the one last seen, and the filters are kept |
| FiltersBar.PendingSortSurvivesPageChange | components/FiltersBar.tsx:37-43 | a sort chosen but not applied survives new filters that come with an unchanged `sort` prop |
| FiltersBar.FiltersBarState.UpdateField | components/FiltersBar.tsx:45-50 | the state becomes the updated state and the sort is kept |
| FiltersBar.FacetInput | components/FiltersBar.tsx:95 | the field a facet select writes has that select's key |
| FiltersBar.FiltersBarState.ChooseOption | components/FiltersBar.tsx:95 | the state becomes `updateField(key, value \|\| undefined)`: a chosen option becomes that facet's value, the empty option clears it, and no other field or the sort changes |
| FiltersBar.FiltersBarState.ToggleTopic | components/FiltersBar.tsx:52-62 | the topics become their toggle |
| FiltersBar.FiltersBarState.ChooseSort | components/FiltersBar.tsx:203 | only the sort changes |
| FiltersBar.FiltersBarState.HandleReset | components/FiltersBar.tsx:69-73 | every filter is cleared, the sort becomes `date_desc`, and `onReset` is called once |
| FiltersBar.FiltersBarState.HandleSubmit | components/FiltersBar.tsx:64-67 | `onApply` receives the current state and sort, and the form is unchanged |
| ArticlesClient.CurrentFilters | components/ArticlesClient.tsx:28-39 | each scalar is absent exactly when its key is missing and is otherwise the key's first value; topics are every `topics` value |
| ArticlesClient.CurrentSort | components/ArticlesClient.tsx:41 | a missing sort is `date_desc`, and a present one is parsed from the first value |
| ArticlesClient.LookupSnoc | components/ArticlesClient.tsx:79 | a later entry for a key overrides earlier ones |
| ArticlesClient.ApplyEntryGetAll | components/ArticlesClient.tsx:80-85 | one entry replaces all values of its key with its non-empty array elements or its truthy scalar, and touches no other key |
| ArticlesClient.ApplyEntriesGetAll | components/ArticlesClient.tsx:79-86 | after all entries, a mentioned key holds its last entry's values and every other key keeps its values |
| ArticlesClient.UpdatedParamsGetAll | components/ArticlesClient.tsx:78-87 | as above, and `page` is always removed |
| ArticlesClient.UpdateParams | components/ArticlesClient.tsx:77-90 | the loop of `delete`, `append` and `set` on a copy yields `UpdatedParams` |
| ArticlesClient.Serialize | components/ArticlesClient.tsx:88 | the query string is empty exactly when there is no parameter |
| ArticlesClient.AddressMeaning | components/ArticlesClient.tsx:88-89 | the address is the bare pathname exactly when no parameter is left, and otherwise the pathname, `?` and the query |
| ArticlesClient.TrimmedQuery | components/ArticlesClient.tsx:94 | the query is trimmed and dropped when blank |
| ArticlesClient.HandleApplyFilters | components/ArticlesClient.tsx:92-104 | the address shown is the one `updateParams` builds from the form's entries |
| ArticlesClient.TopicsEntryValues | components/ArticlesClient.tsx:100 | the topics entry contributes the non-empty topics |
| ArticlesClient.ApplyFiltersLookup | components/ArticlesClient.tsx:93-103 | the entry for each key is the form's value for it |
| ArticlesClient.ApplyFiltersQuery | components/ArticlesClient.tsx:92-104 | after apply, the query is the trimmed query, the sort is the chosen sort, the limit is the current perPage, and the page is gone |
| ArticlesClient.ApplyFiltersFacets | components/ArticlesClient.tsx:95-100 | after apply, each facet holds the form's value when it is truthy, and topics hold the non-empty topics |
| ArticlesClient.ApplyFiltersRequest | components/ArticlesClient.tsx:92-104 | for any non-zero `perPage` (a negative one included), the next request starts at page 1 with the chosen sort, the perPage capped at 50 and the trimmed query |
| ArticlesClient.ApplyFiltersKeepsOthers | components/ArticlesClient.tsx:78-86 | keys the form does not mention are kept |
| ArticlesClient.HandlePageChange | components/ArticlesClient.tsx:110-114 | the address is the pathname with the page set in the current parameters |
| ArticlesClient.PageChangeOnlyPage | components/ArticlesClient.tsx:111-112 | only `page` changes, and every other parameter is kept |
| ArticlesClient.SameRequestButPage | app/api/articles/route.ts:13-30 | two query strings that agree on every key but `page` give the same request apart from the page |
| ArticlesClient.PageChangeRequest | components/ArticlesClient.tsx:110-114 | a page change requests the same articles at the new page |
| ArticlesClient.FetchGate.constructor | components/ArticlesClient.tsx:43-48 | the gate starts uninitialised with the server's parameters |
| ArticlesClient.FetchGate.Run | components/ArticlesClient.tsx:43-48 | a run skips the fetch exactly when it is the first run on the server's parameters, and that run sets the flag |
| ArticlesClient.RunEffects | components/ArticlesClient.tsx:43-75 | over any series of runs, a run skips the fetch exactly when it is the first run on the server's parameters, wherever it comes; so at most one run is skipped, every run on other parameters fetches, and the gate ends initialised exactly when such a run happened |

## Left out

- Unicode case mapping: `toLowerCase` is modelled as ASCII lowercasing, so accented capitals are not folded.
- Percent-encoding of `URLSearchParams` (section 5 of the WHATWG URL Standard, application/x-www-form-urlencoded): parameters are lists of key/value pairs, and `Serialize` joins `key=value` pairs with `&` without encoding them. The copy `new URLSearchParams(params.toString())` is modelled as copying the pairs.
- `Number(...)`: after trimming surrounding whitespace, the empty string reads as 0, and decimal digits with an optional leading `-` or `+` are parsed. Anything else (decimals, exponents, hex, `Infinity`) is treated as NaN.
- Dates: timestamps are integer milliseconds, and a day is 86 400 000 ms. The local-calendar `setDate`, daylight saving and date-string parsing (including an invalid `plan_expires_at`) are not modelled. The clock is a parameter (`now`).
- `official_weight` is a `real`, because it is only compared. The percentage display is not modelled.
- Supabase: the store is a parameter. The article query is a plan of clauses, orders and a row range, and the store is a function from that plan to a response. The widget row, the profile select and insert results, and the seed's stored source ids are also parameters. The service-client singleton, the seed upserts and scripts/purge-fake.ts are not part of this model.
- Reading JSON files: the article and widget lists that `loadFakeArticles`, `loadFakeWidgets` and the seed script read are parameters.
- The environment (`isSupabaseConfigured`, `ADMIN_EMAILS`, `siteUrl`) is passed as plain values.
- React runtime: rendering, hooks, `fetch` with `AbortController`, the loading and error state, the clipboard and `setTimeout` are not modelled. The router is represented by the address it is asked to show.
- ArticlesClient `handleReset` (components/ArticlesClient.tsx:106-108) only replaces the address with the bare pathname, which `AddressMeaning` covers for an empty parameter list. It is not modelled as its own member.
- PaginationControl.TotalPages: requires `perPage != 0`. With `perPage` 0 the source computes `Infinity` pages, or `NaN` for no items, which is not modelled. Neither path can report 0: the route never forwards a limit of 0 (`ArticlesRoute.RouteLimit`), and `paginate` raises the page size to at least 1.
- Profile.ProfileTable.EnsureProfile: the five columns an existing row is returned without are modelled as absent (`None`), which does not tell `null` from `undefined`. A stored trial row takes the unselected columns from the returned trial, not from the table's own defaults. An insert error is ignored, as in the source, by leaving the table unchanged.
- ArticleTypes.ParseSort: the sort cast `as SortOption` is modelled as a parse, and an unknown sort string becomes `date_desc` as soon as it is read. `sortItems` (lib/filtering.ts:63-84) and the store's order mapping (lib/articlesService.ts:88-96) also order an unknown string as `date_desc`, so the listing's order is the same. The string itself is not kept, though: `buildQueryString` (lib/filtering.ts:132-134) and "apply" in the listing (components/ArticlesClient.tsx:101) write an unknown sort back as it is. From `?sort=foo`, "apply" leaves `sort=foo` in the address, where the model (`ArticlesClient.ApplyFiltersQuery`) writes `sort=date_desc`.
- JavaScript sort stability: sorting is specified as a permutation ordered by the comparator, so the order of ties is not fixed.
- `sortItems`, `queryArticles`, `selectWidgetArticles` and the route return their sorted list as a ghost output, to tie the result to the permutation.
- Middleware.Decide: the guard is modelled for every path, but `config.matcher` (middleware.ts:45-47) runs it only on `/widgets`, `/admin` and the paths below them. A path such as `/administrator` starts with `/admin`, so `Decide` treats it as protected, yet the matcher never runs the guard on it and it passes.
- The admin-email parsing duplicated in app/admin/page.tsx and app/api/admin/profiles/route.ts is not part of this model. It is the same as middleware.ts:30-33, which is modelled.
- The widget HTTP route app/api/widget/[slug]/route.ts is not part of this model. Widget behaviour is taken from lib/data/fakeLoader.ts and the widget mapping of lib/articlesService.ts.
- ArticlesService.RemoteAgreesWithPaginate: stated for page sizes of at least 1. The route forwards a negative limit (`?limit=-5`), and then the paths disagree, as `ArticlesService.NonPositiveLimitDiverges` shows.
- ArticlesService.RemotePlanMeaning, ArticlesService.SearchClauseMeaning and ArticlesService.LikeFour: stated only for plain queries (`ArticlesService.PlainSearch`), without `_`, `*`, `\`, `,`, `(`, `)` or `"`. ArticlesService.RemoteMatchImpliesLocal also excludes `%`, which the store strips and the local search keeps. In SQL `ILIKE`, `_` matches any single character, so the store may return articles that the local search would not. The Underscore lemmas show such a case.
- ArticlesService.LikeMatch: the query is pasted unescaped into PostgREST's `or(...)` filter string (lib/articlesService.ts:80-85), and this is not modelled beyond `%` and `_`. PostgREST reads `*` as `%`, and `ILIKE` reads `\` as its escape character; both widen or change what the store matches. A `,`, `(`, `)` or `"` breaks up the `or` list, so the store may answer a malformed-filter error, which the route turns into a 500, while the local path searches normally. The store is a parameter, so the model promises nothing about such queries.

Observed differences, each proved: between the two query paths, in the widget selection, and in the pagination control:

- The local search also matches `country`, but the store's search does not (`ArticlesService.CountryOnlyMatch`).
- The store ignores the caller's statuses and always selects published articles (`ArticlesService.RemotePlanMeaning`).
- The widget cut uses `widget.limit` without the cap of 50 (`FakeLoader.SelectWidgetArticles`).
- An absent widget window means no window (`FakeLoader.NoWindowKeepsAll`).
- A negative limit: the route's `Number(...) || 12` replaces only 0 and NaN, so `?limit=-5` is forwarded as -5 (`ArticlesRoute.NegativeRequestLimit`). The model follows the code. The store path then asks for a reversed range and reports `perPage` -5, while the local path uses a page size of 1 (`ArticlesService.NonPositiveLimitDiverges`). The pagination control shows one page for a negative page size (`PaginationControl.TotalPages`).
- A page past the end (`?page=99`): `paginate` returns no items and no more to come, yet the control's "next" button stays enabled, because it is disabled only on the last page, and a click moves back to the last page. "Previous" likewise jumps to the last page from two or more pages past the end (`PaginationControl.NextDisabledIffNoMore`, `PaginationControl.NextClick`, `PaginationControl.PreviousClick`).

## Findings

| source | as written | input that shows it | evidently intended | confidence | as-written member | corrected member |
|---|---|---|---|---|---|---|
| lib/localImages.ts:18 | `SPORT_IMAGE_MAP[key] ?? SPORT_IMAGE_MAP.default` reads a property of a plain object literal, so inherited `Object.prototype` members are found too | sport "Constructor": it normalises to `constructor`, which reads the inherited `Object` constructor function. That value is not nullish, so `??` returns a function, not an image path | an unknown key, including one named like an inherited property, gives the default image | high, not executed | LocalImages.ConstructorIsNoImage | LocalImages.GetLocalImageForSport |
