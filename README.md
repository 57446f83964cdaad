# TV schedules: a Dafny model of the client logic

This project models the logic of a TV-show browsing web application and proves properties of
it. The application is built on the OMDb metadata service and a Supabase backend. The model
covers these parts:

- **The OMDb client** (`omdb_api.dfy`, module `OmdbApi`).
  - `getApiKey` with its process-wide key cache and its chain of fallbacks.
  - The retrying fetch primitive `fetchWithRetry`.
  - The metadata calls built on it: `searchShows`, `getShowDetails`, `getShowsByCategory`,
    `getSeasonDetails` and `getEpisodeDetails`.
  - `getLatestShows`, with its list of search terms and its fallback to a fixed list of
    popular shows.

  The provider's answers are a script of replies: the k-th HTTP request receives the k-th
  reply. Every operation reports how many replies it used and which requests it sent, in
  order. The cache is a field of the class `OmdbClient`. The two loops of `getLatestShows`
  and the loop of `fetchWithRetry` are methods with loop invariants. Each is proved equal to
  a function that specifies it.
- **The latest-shows panel** (`latest_shows.dfy`). It covers:
  - the eight time filters: this month, the five months before it, this year and last year;
  - the pager over those filters, a class whose index field `navigateFilter` updates;
  - the default filter;
  - the query key and the `enabled` guard.
- **The watch-history page** (`watch_history.dfy`). The `reduce` that groups the user's rows by
  show is a method that updates a map and a key-order list. It is proved to build one group
  per show, holding that show's rows in order. The page also derives a list of ids and a list
  of titles from the grouping.
- **The recommendations panel** (`recommended_shows.dfy`). It covers:
  - keyword extraction;
  - the choice of search term (the random shuffle is an arbitrary permutation);
  - removal of the shows already watched;
  - truncation to five results.
- **The home page** (`index_page.dfy`): the retry-delay formula, the rotation of the featured
  show, and the deduplicated list of watched ids.
- **The show card** (`show_card.dfy`): the rating text, its colour band, the star fill and the
  poster source.
- **The sign-up page** (`signup.dfy`): the mapping from an authentication error to a message,
  and the toast the submit handler shows.
- **The `get-omdb-key` edge function** (`get_omdb_key.dfy`): its response to a preflight
  request and to a key request.

Shared helpers:

- `text.dfy`: decimal rendering of integers, `padStart`, UTF-16 length, `split(/\s+/)` and
  `join`.
- `seqs.dfy`: `[...new Set(xs)]`.
- `uri.dfy`: `encodeURIComponent`.
- `wrappers.dfy`: `Option` and `Result`.

## Model

| member | source | states |
|---|---|---|
| OmdbApi.AttemptOutcome | src/utils/api.ts:74-82 | an attempt succeeds exactly when the response is ok, its body parses and it has no `Error` field; a non-ok status fails with that status; an `Error` field fails with its text |
| OmdbApi.ResolveKey | src/utils/api.ts:11-67 | the key is never empty; the invoke is always made, and the direct POST is made only when the invoke reports an error; any key a source delivers is the one returned, otherwise 'e48b38b2' |
| OmdbApi.OmdbClient.constructor | src/utils/api.ts:5 | the cache starts empty |
| OmdbApi.OmdbClient.GetApiKey | src/utils/api.ts:8-67 | with a cached key, returns it and makes no call; otherwise returns the result of the fallback chain; either way the cache then holds the returned non-empty key |
| OmdbApi.ResolveTwice | src/utils/api.ts:8-9 | a second `getApiKey` returns the same key as the first and makes no call |
| OmdbApi.Retry | src/utils/api.ts:70-89 | at most `retries` attempts; `undefined` exactly when no attempt is allowed; data only from the first successful attempt, with every earlier attempt failed; an error only after every attempt failed, and it is the last attempt's error |
| OmdbApi.RetrySucceedsAt | src/utils/api.ts:71-82 | when attempt i is the first success, its data is returned after i+1 attempts |
| OmdbApi.RetryFailsThroughout | src/utils/api.ts:83-85 | when every attempt fails, all of them are made and the last error is rethrown |
| OmdbApi.BackoffAt | src/utils/api.ts:86 | the wait after failed attempt i is delay·2^i |
| OmdbApi.BackoffStrictlyIncreasing | src/utils/api.ts:86 | with a positive base delay, each wait is longer than the one before |
| OmdbApi.FetchWithRetry | src/utils/api.ts:70-89 | the loop's outcome and attempt count are those of `Retry`, and it sleeps the backoff waits after every failed attempt but the last |
| OmdbApi.RetryOffline | src/utils/api.ts:70-89 | with the provider unreachable, every attempt is made and the network error is rethrown |
| OmdbApi.DetailsRun | src/utils/api.ts:133-142 | one details request for the id; the outcome and the replies used are those of the retried fetch with three attempts; never `undefined`; the data carries no `Error` |
| OmdbApi.EpisodeRun | src/utils/api.ts:156-165 | one episode request; the outcome and the replies used are those of the retried fetch with three attempts; never `undefined` |
| OmdbApi.CategoryRun | src/utils/api.ts:144-154 | one series search; fails exactly when the retried fetch throws, with the error it rethrew; otherwise the `Search` list, or [] when absent; uses exactly the replies the three-attempt fetch consumed |
| OmdbApi.SeasonRun | src/utils/api.ts:167-177 | one season request; fails exactly when the retried fetch throws, with the error it rethrew; otherwise the `Episodes` list, or [] when absent; uses exactly the replies the three-attempt fetch consumed |
| OmdbApi.TextSearchRun | src/utils/api.ts:110-121 | one series search; [] on any failure; the branch on `data.Error` never changes the result; uses exactly the replies the three-attempt fetch consumed |
| OmdbApi.SearchShowsRun | src/utils/api.ts:91-131 | a query that is not id-shaped gets only the text search; an id-shaped query gets a details lookup first; a successful lookup returns just that show with no further request and only the lookup's replies used; a failed one is followed by the text search on the replies left, whose result is returned |
| OmdbApi.SearchUrlParameters | src/utils/api.ts:111 | the term sits in the `s` parameter alone: its encoding holds no `&`, `=` or `#` |
| OmdbApi.SearchUrlVerbatim | src/utils/api.ts:111 | a term of unreserved characters appears in the URL as it is |
| OmdbApi.CategoryFirstAttempt | src/utils/api.ts:144-149 | a first reply that succeeds settles the call with one reply and one request |
| OmdbApi.FailureStyles | src/utils/api.ts:91-177 | with the provider unreachable, the category and season calls rethrow the network error, while `searchShows` yields [] |
| OmdbApi.LatestTerms | src/utils/api.ts:184-207 | 4 or 6 terms: the date term (`y:YEAR/MM` with the month padded, `y:YEAR`, or the current year), then the three fixed terms, then the two extra ones exactly when the year is empty or the current year |
| OmdbApi.BuildSearchTerms | src/utils/api.ts:184-207 | the pushes build exactly `LatestTerms` |
| OmdbApi.SearchTermsRun | src/utils/api.ts:209-225 | the terms are requested in order, each with at most two attempts, stopping at the first hit; with no hit, every term is requested |
| OmdbApi.SearchTermsFirstHit | src/utils/api.ts:209-225 | the loop yields nothing exactly when every term misses; otherwise the `Search` list of the first term that hits, every earlier term having missed |
| OmdbApi.TrySearchTerms | src/utils/api.ts:209-225 | the loop with its early return yields exactly `SearchTermsRun` |
| OmdbApi.FallbackRun | src/utils/api.ts:229-246 | one details request per popular id, in order; the entries are those built from the lookups that returned details, in id order, failed lookups contributing nothing; every entry is a series |
| OmdbApi.FoundAppend | src/utils/api.ts:232-246 | the entries of consecutive lookups are those of the first lookups followed by those of the rest |
| OmdbApi.FoundSkipsFailure | src/utils/api.ts:234-245 | a failed lookup contributes nothing and the entries around it keep their order |
| OmdbApi.FoundMembers | src/utils/api.ts:234-242 | an entry is exactly the series entry built from the details (title, year, id, poster) of some lookup that succeeded |
| OmdbApi.FoundAllData | src/utils/api.ts:234-242 | when every lookup succeeds there is one entry per lookup, in order |
| OmdbApi.LookupsFirstTry | src/utils/api.ts:70-89 | replies that all succeed at once give each lookup one reply and its body |
| OmdbApi.FallbackAllFound | src/utils/api.ts:229-246 | when every popular id's lookup succeeds, the list has one entry per id, built from that id's details, in id order |
| OmdbApi.FetchFallbackShows | src/utils/api.ts:232-246 | the loop that skips failed lookups yields exactly `FallbackRun` |
| OmdbApi.LatestShowsFromTerms | src/utils/api.ts:209-248 | a hit is returned as it is; otherwise the fallback runs on the replies the terms left |
| OmdbApi.SearchTermsOffline | src/utils/api.ts:209-225 | with the provider unreachable, no term yields anything and each uses its two attempts |
| OmdbApi.FallbackOffline | src/utils/api.ts:233-246 | with the provider unreachable, the fallback list is empty and each id uses three attempts |
| OmdbApi.LatestShowsOffline | src/utils/api.ts:179-248 | with the provider unreachable, the result is [] rather than an error, after every term search and every popular-id lookup, in that order |
| OmdbApi.LatestShowsFallback | src/utils/api.ts:227-248 | with no term hit, the result is the entries of the successful popular-id lookups in id order (at most five, all series), after the requests for all terms and then for each popular id |
| OmdbApi.LatestShowsHit | src/utils/api.ts:209-225 | a hit is the non-empty `Search` list of the first term whose fetch yields one, every earlier term having missed, returned after the requests for the terms up to it and no other |
| OmdbApi.OmdbClient.GetShowDetails | src/utils/api.ts:133-142 | resolves the key, keeping a cached one and otherwise storing the key the fallback chain resolves, and then behaves as `DetailsRun` |
| OmdbApi.OmdbClient.GetEpisodeDetails | src/utils/api.ts:156-165 | resolves the key, keeping a cached one and otherwise storing the key the fallback chain resolves, and then behaves as `EpisodeRun` |
| OmdbApi.OmdbClient.GetShowsByCategory | src/utils/api.ts:144-154 | resolves the key, keeping a cached one and otherwise storing the key the fallback chain resolves, and then behaves as `CategoryRun` |
| OmdbApi.OmdbClient.GetSeasonDetails | src/utils/api.ts:167-177 | resolves the key, keeping a cached one and otherwise storing the key the fallback chain resolves, and then behaves as `SeasonRun` |
| OmdbApi.OmdbClient.SearchShows | src/utils/api.ts:91-131 | resolves the key, keeping a cached one and otherwise storing the key the fallback chain resolves, and then behaves as `SearchShowsRun` |
| OmdbApi.OmdbClient.GetLatestShows | src/utils/api.ts:179-258 | resolves the key, keeping a cached one and otherwise storing the key the fallback chain resolves, and then behaves as the term loop followed by the fallback loop |
| Uri.EncodeComponent | src/utils/api.ts:111 | the output holds only unreserved characters and '%'; a string of unreserved characters is unchanged |
| Text.PadStart | src/utils/api.ts:189 | a string already `width` long is unchanged; a shorter one is prefixed with the pad character up to `width` UTF-16 units |
| Text.SplitOnSpaces | src/components/RecommendedShows.tsx:21 | at least one piece, and no piece holds white space |
| Text.SplitKeepsCharacters | src/components/RecommendedShows.tsx:21 | the pieces together hold exactly the input's non-white-space characters, in order |
| Text.SplitSinglePiece | src/components/RecommendedShows.tsx:21 | there is a single piece exactly when the input holds no white space |
| Text.SplitEmptyPieces | src/components/RecommendedShows.tsx:21 | the first piece is empty exactly for an empty input or leading white space, the last exactly for an empty input or trailing white space, and no piece between is empty |
| Text.SplitJoinRoundTrip | src/components/RecommendedShows.tsx:21-30 | splitting words joined by single spaces gives the words back when none is empty or holds white space |
| Seqs.Dedup | src/pages/Index.tsx:50 | no duplicates, exactly the elements of the input, and no longer than it |
| Seqs.DedupKeepsFirstOccurrenceOrder | src/pages/Index.tsx:50 | the elements are listed in the order of their first occurrence |
| LatestShows.TimeFilters | src/components/LatestShows.tsx:36-72 | eight filters: the six months from the current one back, then the current year, then the previous year |
| LatestShows.GenerateTimeFilters | src/components/LatestShows.tsx:28-74 | the loop with its year wrap builds exactly `TimeFilters` |
| LatestShows.MonthsBackIsCalendarMonth | src/components/LatestShows.tsx:44-51 | the month is in 1..12 and is exactly i calendar months before the current one; the year steps back exactly when the subtraction reaches zero or below |
| LatestShows.MonthFiltersConsecutive | src/components/LatestShows.tsx:44-58 | consecutive month filters are consecutive calendar months, going back |
| LatestShows.FilterKeysDistinct | src/components/LatestShows.tsx:36-83 | the eight filters give eight different query keys |
| LatestShows.PaddedMonth | src/utils/api.ts:189 | a month number padded to two places is two digits that read back as the month |
| LatestShows.MonthFilterTerms | src/components/LatestShows.tsx:84 | a month filter's first term is `y:YYYY/MM` for its month; the two extra terms come exactly when that month lies in the current year |
| LatestShows.YearFilterTerms | src/components/LatestShows.tsx:60-72 | the current-year filter searches `y:<year>` with the extra terms; the previous-year filter does so without them |
| LatestShows.NoFiltersYet | src/components/LatestShows.tsx:80-85 | before the filters exist, the query is off and its key is for the whole current year |
| LatestShows.Step | src/components/LatestShows.tsx:90-96 | "prev" moves back one unless at the first filter, "next" forward one unless at the last; the index stays in range |
| LatestShows.StepsUndo | src/components/LatestShows.tsx:90-96 | a step back undoes a step forward that moved, and the other way round |
| LatestShows.ForwardReaches | src/components/LatestShows.tsx:94 | k steps forward from the first filter reach filter k, stopping at the last |
| LatestShows.FilterPager.constructor | src/components/LatestShows.tsx:23-24 | no filters, index 0 |
| LatestShows.FilterPager.Load | src/components/LatestShows.tsx:27-78 | the filters become `TimeFilters` and the index stays valid |
| LatestShows.FilterPager.Navigate | src/components/LatestShows.tsx:90-96 | the index takes one `Step` and stays valid |
| LatestShows.FilterPager.Current | src/components/LatestShows.tsx:80 | once loaded, the filter at the index |
| WatchHistory.EpisodesOf | src/pages/WatchHistory.tsx:60 | a show's rows are rows of that show, and no more than the input |
| WatchHistory.GroupByShow | src/pages/WatchHistory.tsx:52-62 | the keys are the distinct show ids in order of first appearance; each group has its show's id, exactly that show's rows in order, and the title of its first row |
| WatchHistory.GroupStep | src/pages/WatchHistory.tsx:53-61 | one step of the `reduce` keeps the grouping correct for the rows seen so far |
| WatchHistory.RowInItsGroup | src/pages/WatchHistory.tsx:60 | every row is in its own show's group and in no other |
| WatchHistory.EpisodesOfNonEmpty | src/pages/WatchHistory.tsx:53-60 | a show has a non-empty group exactly when some row is for it |
| WatchHistory.GroupsCoverAllRows | src/pages/WatchHistory.tsx:52-62 | the groups together hold as many rows as the input |
| WatchHistory.GroupsNewestFirst | src/pages/WatchHistory.tsx:39-61 | with rows ordered newest first, every group is newest first |
| WatchHistory.GroupingLists | src/pages/WatchHistory.tsx:88-111 | the ids handed on are distinct and exactly the group keys, and each title is that of the show's first row |
| WatchHistory.NoRowsNoGroups | src/pages/WatchHistory.tsx:52 | no rows, or no data, give no groups |
| RecommendedShows.FilterKeywords | src/components/RecommendedShows.tsx:22-23 | every word kept passes both filters and is one of the input words |
| RecommendedShows.FilterKeywordsMembers | src/components/RecommendedShows.tsx:22-23 | a word is kept exactly when it is an input word that passes both filters |
| RecommendedShows.FilterKeywordsAppend | src/components/RecommendedShows.tsx:22-23 | filtering distributes over concatenation, so word order is kept |
| RecommendedShows.WordsMembers | src/components/RecommendedShows.tsx:21 | a word is produced exactly when it is a piece of some title |
| RecommendedShows.WordsAppend | src/components/RecommendedShows.tsx:21 | the words of more titles are those of the first titles followed by those of the rest |
| RecommendedShows.KeywordsExactly | src/components/RecommendedShows.tsx:20-23 | a keyword is exactly a white-space separated piece of some title that is longer than three units and is not a stop word, whatever its case |
| RecommendedShows.KeywordsAppend | src/components/RecommendedShows.tsx:20-23 | the keywords keep the order of the titles |
| RecommendedShows.KeywordShape | src/components/RecommendedShows.tsx:20-23 | a keyword is never empty and holds no white space |
| RecommendedShows.ShortStopWordsRedundant | src/components/RecommendedShows.tsx:22-23 | "the" and "and" are already dropped by the length filter; only "season" and "show" are removed by the stop list |
| RecommendedShows.ShuffledKeywords | src/components/RecommendedShows.tsx:27-28 | a shuffle of the keyword set has no duplicates, and every element is a keyword |
| RecommendedShows.KeywordTerm | src/components/RecommendedShows.tsx:26-30 | with more than two keywords, the term is one to three distinct keywords joined by single spaces; splitting the term gives them back |
| RecommendedShows.FallbackTerm | src/components/RecommendedShows.tsx:34 | otherwise the term is the first input if it is non-empty, else "popular shows"; it is never empty |
| RecommendedShows.Unwatched | src/components/RecommendedShows.tsx:58-60 | every result kept is a search result whose id is not watched |
| RecommendedShows.UnwatchedMembers | src/components/RecommendedShows.tsx:58-60 | a result is kept exactly when its id is not watched |
| RecommendedShows.UnwatchedAppend | src/components/RecommendedShows.tsx:58-60 | the filter keeps the order of the results |
| RecommendedShows.RecommendBounds | src/components/RecommendedShows.tsx:58-63 | at most five, none watched, the first unwatched results in result order, and all of them when fewer than five |
| RecommendedShows.RecommendationsAsWritten | src/components/RecommendedShows.tsx:38-63 | no request when the watched list is empty; otherwise the first five unwatched results of `searchShows` on the term derived from the watched list; at most five, none watched |
| RecommendedShows.FewWatchedIdsRecommendNothing | src/components/RecommendedShows.tsx:34-63 | with one or two watched ids, the term is the first id; its details lookup finds that very show, and nothing is recommended |
| RecommendedShows.Recommendations | src/components/RecommendedShows.tsx:38-63 | no request without watched ids; otherwise the first five results of `searchShows` on the term derived from the titles that are not among the ids |
| RecommendedShows.SingleTitleSearchesByTitle | src/components/RecommendedShows.tsx:34-63 | with the correction, one watched title gives a text search for that title and recommends an unwatched result whenever there is one |
| RecommendedShows.RecommendationsOnIds | src/components/RecommendedShows.tsx:38-63 | the corrected panel agrees with the written one when it is given the ids as titles |
| IndexPage.RetryDelay | src/pages/Index.tsx:26 | between 1 and 30 seconds; 1 second for attempts up to the first |
| IndexPage.RetryDelayShape | src/pages/Index.tsx:26 | 2^attempt seconds for attempts 2 to 4, doubling each time; the 30-second cap from attempt 5 on |
| IndexPage.RetryDelayMonotone | src/pages/Index.tsx:26 | the delay never shrinks as attempts go on |
| IndexPage.NextShowIndex | src/pages/Index.tsx:31 | stays below the number of featured shows; moves to the next one and wraps after the last |
| IndexPage.IndexAfterTicks | src/pages/Index.tsx:30-32 | after k ticks from the start the index is k mod 3 |
| IndexPage.RotationVisitsAll | src/pages/Index.tsx:15-32 | any three consecutive ticks show each featured show exactly once |
| IndexPage.FeaturedQueryKey | src/pages/Index.tsx:23-24 | the query of the featured show at an index is keyed by "show" and that show's id, which is id-shaped |
| IndexPage.WatchedShowIds | src/pages/Index.tsx:48-51 | with data, the ids are distinct and exactly those of the rows; without data, the list is unchanged |
| IndexPage.WatchedShowIdsOrder | src/pages/Index.tsx:50 | the ids are in the order of their first rows |
| IndexPage.SameIdsAsHistory | src/pages/Index.tsx:50 | given the same row sequence, the home page and the history page hand on the same ids in the same order |
| IndexPage.SameIdSetAsHistory | src/pages/Index.tsx:43-50 | the home query (src/pages/Index.tsx:43-46) has no order and the history query orders newest first (src/pages/WatchHistory.tsx:34-39), so with the same rows in any order the two pages hand on the same set of ids |
| ShowCard.DisplayRatingCases | src/components/ShowCard.tsx:19-20 | the dash shows exactly for "N/A", "0.0" or a rating that is itself a dash; any other rating shows unchanged |
| ShowCard.ColorBands | src/components/ShowCard.tsx:24-28 | green from 8, yellow from 6 below 8, orange above 0 below 6, gray for the rest and for NaN; the bands are exclusive and exhaustive |
| ShowCard.ColorMonotone | src/components/ShowCard.tsx:24-28 | a higher rating never gets a lower band |
| ShowCard.StarFilled | src/components/ShowCard.tsx:53 | the star is filled exactly when the band is not gray |
| ShowCard.RatingOf | src/components/ShowCard.tsx:19-54 | a missing or zero rating shows a gray dash with an empty star; any other rating shows as given, in the band of its parsed value; the fill and the band agree |
| ShowCard.PosterSrc | src/components/ShowCard.tsx:41 | "N/A" becomes the placeholder URL; any other image is used as it is |
| Signup.ErrorMessageAsWritten | src/pages/Signup.tsx:19-38 | throws exactly for an API error whose message does not parse to an object; for one that parses, the user-exists code wins whatever the status, then 422 and 400 get their fixed messages, then the body's message, else the error's own; any other auth error gives its own message |
| Signup.FailureToastAsWritten | src/pages/Signup.tsx:51-63 | a non-auth failure shows "Failed to create account"; no toast at all exactly when the message parse throws |
| Signup.PlainTextMessageShowsNothing | src/pages/Signup.tsx:22 | an API error with a plain-text message leaves the user without any message |
| Signup.ErrorMessage | src/pages/Signup.tsx:19-38 | total: a parsed body is handled as in the written version; an unparsable message falls through to the status cases, then to the error's own message |
| Signup.ErrorMessageAgrees | src/pages/Signup.tsx:19-38 | wherever the written version returns, the corrected one returns the same |
| Signup.FailureToast | src/pages/Signup.tsx:51-63 | every failure gets a destructive "Error" toast, with the written one's text wherever that shows one |
| Signup.PlainTextMessageReported | src/pages/Signup.tsx:28-32 | with the correction, a plain-text message is reported by its status |
| GetOmdbKey.SelectKey | supabase/functions/get-omdb-key/index.ts:21 | never empty; the environment value when it is non-empty, else 'e48b38b2' |
| GetOmdbKey.Handle | supabase/functions/get-omdb-key/index.ts:10-64 | a preflight gets 204, a null body and the CORS headers; every other request gets the CORS headers plus the JSON content type |
| GetOmdbKey.AlwaysCors | supabase/functions/get-omdb-key/index.ts:12-62 | every response carries the three CORS headers |
| GetOmdbKey.KeyAlwaysServed | supabase/functions/get-omdb-key/index.ts:19-63 | the "not configured" answer is never sent; a key request gets 200 with the selected key and source "edge-function", unless the lookup throws, which gives 500 with its message |
| GetOmdbKey.DirectPostDelivers | src/utils/api.ts:22-40 | when the client falls back to the direct POST and it reaches this handler, the client ends up with the key this function selects |

## Left out

- I/O is not executed. The provider, the Supabase invoke and table queries, `fetch`, `response.json()`, `Deno.env` and the authentication calls are parameters: reply scripts, backend answers and data values.
- Toasts, `console` logging, rendering and navigation are left out.
- Timing is left out: `setTimeout`, `setInterval` and the waits of `fetchWithRetry` appear only as delay values.
- react-query is left out: caching, `staleTime`, the execution of retries, `retry: 2`/`retry: 3` and `onError`. Only the keys, the guards and the delay formula are modelled.
- Concurrency is left out, including concurrent `getApiKey` calls before the cache is filled. The backend answers once per process in the model.
- The clock (`new Date()`) is a parameter: the current year and month.
- The locale month names in the filter headings are kept abstract (`Label.MonthName`).
- The timestamps in the edge function's bodies are left out, and so is the stack in its error body.
- The shuffle `sort(() => 0.5 - Math.random())` is modelled as an arbitrary rearrangement, not as a distribution.
- `parseFloat` on the rating is a parameter. The one value constrained is that "0.0" reads as zero.
- `JSON.parse` of an error message is part of the error value: not JSON, `null`, or an object with `code` and `message` (strings; "" when absent or falsy).
- The Authorization header of the direct POST interpolates a Promise. It is not modelled: the model assumes the direct POST reaches the edge function's handler. A platform that rejects the malformed header answers with an error instead, and the client then uses its own fallback key.
- `encodeURIComponent` throws on a lone surrogate, which a Dafny string cannot hold. So the model leaves out that `searchShows` turns this error into [] while the details, category, season and episode calls rethrow it.
- `toLowerCase` is modelled as ASCII folding. That is exact for the stop-word comparison, since no other character lowercases to a letter of a stop word.
- `Object.keys` lists integer-like keys first in JavaScript. The model keeps insertion order, which is what the shows' `tt…` ids get.
- Numbers are unbounded integers and exact reals: `2 ** attempt * 1000` is never rounded, and the filter index never overflows.
- The success path of sign-up (its toast and navigation) and the page-level loading flags are left out.
- OmdbApi.SearchShowsRun: the catch-all that turns an exception of the key lookup into [] is not modelled, because `getApiKey` never throws.

## Findings

| source | as written | input that shows it | evidently intended | confidence | as-written member | corrected member |
|---|---|---|---|---|---|---|
| src/components/RecommendedShows.tsx:18-38 | search terms are derived from `watchedShows`, which both callers fill with show ids (src/pages/Index.tsx:108, src/pages/WatchHistory.tsx:111), not titles | watched = ["tt0903747"], details lookup succeeds: the term is the id, the lookup returns that show, and the watched filter removes it, so there are no recommendations | derive the term from the watched titles (computed but unused at src/pages/WatchHistory.tsx:88) and filter by the ids | not executed; high for one or two watched shows | RecommendedShows.FewWatchedIdsRecommendNothing | RecommendedShows.SingleTitleSearchesByTitle |
| src/pages/Signup.tsx:22 | `JSON.parse(error.message)` on an `AuthApiError`, whose message is ordinarily plain text | ApiError("User already registered", 422, not JSON): `getErrorMessage` throws inside the catch block, so no toast appears and the handler rejects | read the code from the error itself, or parse defensively and fall through to the status cases | not executed; medium (depends on the auth library's message format) | Signup.PlainTextMessageShowsNothing | Signup.PlainTextMessageReported |
