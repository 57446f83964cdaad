/** The OMDb client: key resolution with its process-wide cache, the retrying fetch primitive,
    the metadata calls built on it, and the latest-shows fallback chain.

    Nothing here talks to a network. The provider's answers are a script `replies`: the k-th
    HTTP request the client issues receives `replies[k]`, and a request past the end of the
    script is rejected as by a failed `fetch`. Every operation returns how many replies it used
    and which requests it sent, so that what it asked for, and in which order, can be stated. */
module OmdbApi {
  import opened Wrappers
  import Text
  import Uri

  const BASE_URL := "https://www.omdbapi.com/"
  const FALLBACK_KEY := "e48b38b2"
  const DEFAULT_RETRIES: nat := 3
  const DEFAULT_DELAY: nat := 1000
  const LATEST_RETRIES: nat := 2
  const POPULAR_SHOW_IDS: seq<string> := ["tt4574334", "tt5834204", "tt7660850", "tt0804484", "tt10986410"]

  // ---------------------------------------------------------------- payloads and replies

  /** A JSON object from the provider, cut down to the fields the client reads. A string field
      that is missing (or empty, hence falsy in JavaScript) is "". */
  datatype Body = Body(
    error: string,                 // `Error`
    search: Option<seq<Body>>,     // `Search`
    episodes: Option<seq<Body>>,   // `Episodes`
    title: string,                 // `Title`
    year: string,                  // `Year`
    imdbId: string,                // `imdbID`
    kind: string,                  // `Type`
    poster: string)                // `Poster`

  /** What one HTTP request yields: `fetch` rejects, or a response arrives whose body may or may
      not be JSON. */
  datatype Reply =
    | FetchRejected
    | Response(ok: bool, status: int, json: Option<Body>)

  datatype Error =
    | NetworkFailure                 // the rejection of `fetch`
    | HttpStatus(status: int)        // `HTTP error! status: …`
    | MalformedJson                  // `response.json()` rejects
    | ProviderError(message: string) // the body's `Error` field
    | ReadOfUndefined                // a field read on `undefined`

  /** One attempt of `fetchWithRetry`: a non-ok status or an `Error` field is a failure. */
  function AttemptOutcome(reply: Reply): (o: Result<Body, Error>)
    ensures o.Success? <==> reply.Response? && reply.ok && reply.json.Some? && reply.json.value.error == ""
    ensures o.Success? ==> o.value == reply.json.value
    ensures reply.Response? && !reply.ok ==> o == Failure(HttpStatus(reply.status))
    ensures reply.Response? && reply.ok && reply.json.Some? && reply.json.value.error != "" ==>
              o == Failure(ProviderError(reply.json.value.error))
  {
    match reply
    case FetchRejected => Failure(NetworkFailure)
    case Response(ok, status, json) =>
      if !ok then Failure(HttpStatus(status))
      else if json.None? then Failure(MalformedJson)
      else if json.value.error != "" then Failure(ProviderError(json.value.error))
      else Success(json.value)
  }

  function ReplyAt(replies: seq<Reply>, k: nat): Reply {
    if k < |replies| then replies[k] else FetchRejected
  }

  /** The replies left once `n` have been used. */
  function Drop(replies: seq<Reply>, n: nat): (rest: seq<Reply>)
    ensures |rest| == if n <= |replies| then |replies| - n else 0
  {
    if n <= |replies| then replies[n..] else []
  }

  /** The k-th reply after `n` have been used is the (n + k)-th of the script. */
  lemma DropAt(replies: seq<Reply>, n: nat, k: nat)
    ensures ReplyAt(Drop(replies, n), k) == ReplyAt(replies, n + k)
  {
  }

  lemma DropDrop(replies: seq<Reply>, a: nat, b: nat)
    ensures Drop(Drop(replies, a), b) == Drop(replies, a + b)
  {
    if a + b <= |replies| {
      assert replies[a..][b..] == replies[a + b..];
    }
  }

  // ---------------------------------------------------------------- requests

  datatype Request =
    | SearchSeries(apiKey: string, term: string)
    | ShowDetails(apiKey: string, id: string)
    | SeasonEpisodes(apiKey: string, id: string, season: string)
    | EpisodeDetails(apiKey: string, id: string, season: string, episode: string)

  /** The URL each request is sent to. The key is inserted as it is; every other value goes
      through `encodeURIComponent`. */
  function Url(req: Request): string {
    var prefix := BASE_URL + "?apikey=" + req.apiKey;
    match req
    case SearchSeries(_, term) => prefix + "&s=" + Uri.EncodeComponent(term) + "&type=series"
    case ShowDetails(_, id) => prefix + "&i=" + Uri.EncodeComponent(id) + "&plot=full"
    case SeasonEpisodes(_, id, season) =>
      prefix + "&i=" + Uri.EncodeComponent(id) + "&Season=" + Uri.EncodeComponent(season)
    case EpisodeDetails(_, id, season, episode) =>
      prefix + "&i=" + Uri.EncodeComponent(id) + "&Season=" + Uri.EncodeComponent(season)
      + "&Episode=" + Uri.EncodeComponent(episode)
  }

  /** A search URL carries the term in its `s` parameter alone: the encoded term holds no `&`,
      `=` or `#`, so it can neither end that parameter nor add another. */
  lemma SearchUrlParameters(key: string, term: string)
    ensures var e := Uri.EncodeComponent(term);
            Url(SearchSeries(key, term)) == BASE_URL + "?apikey=" + key + "&s=" + e + "&type=series"
            && forall i :: 0 <= i < |e| ==> e[i] != '&' && e[i] != '=' && e[i] != '#'
  {
  }

  /** A term made of unreserved characters appears in the search URL as it is. */
  lemma SearchUrlVerbatim(key: string, term: string)
    requires forall i :: 0 <= i < |term| ==> Uri.IsUnreserved(term[i])
    ensures Url(SearchSeries(key, term)) == BASE_URL + "?apikey=" + key + "&s=" + term + "&type=series"
  {
  }

  /** An operation's result together with the number of replies it used and the requests it
      sent, in order. */
  datatype Run<T> = Run(value: T, used: nat, sent: seq<Request>)

  /** `r` run after `used` replies were spent on the requests `sent`. */
  function Then<T>(used: nat, sent: seq<Request>, r: Run<T>): Run<T> {
    Run(r.value, used + r.used, sent + r.sent)
  }

  /** Like `Then`, for list results that are appended to the shows already collected. */
  function Prepend<T>(items: seq<T>, used: nat, sent: seq<Request>, r: Run<seq<T>>): Run<seq<T>> {
    Run(items + r.value, used + r.used, sent + r.sent)
  }

  lemma PrependPrepend<T>(a: seq<T>, u: nat, s: seq<Request>, b: seq<T>, v: nat, t: seq<Request>, r: Run<seq<T>>)
    ensures Prepend(a, u, s, Prepend(b, v, t, r)) == Prepend(a + b, u + v, s + t, r)
  {
    assert a + (b + r.value) == (a + b) + r.value;
    assert s + (t + r.sent) == (s + t) + r.sent;
  }

  // ---------------------------------------------------------------- key resolution

  /** What `supabase.functions.invoke('get-omdb-key')` yields: it throws, reports an error, or
      returns data whose `OMDB_API_KEY` is `key` ("" when the data or the field is missing). */
  datatype InvokeReply = InvokeThrows | InvokeError | InvokeData(key: string)

  /** What the direct POST to the edge function yields: `fetch` or `json()` rejects, or a
      response with its `ok` flag and the `OMDB_API_KEY` of its body ("" when missing). */
  datatype DirectReply = DirectThrows | DirectResponse(ok: bool, key: string)

  /** How the key backend answers in this process. The cache is filled by the first resolution,
      so the backend is consulted at most once and one answer of each kind is enough. */
  datatype KeyBackend = KeyBackend(invoke: InvokeReply, direct: DirectReply)

  datatype KeyCall = InvokeEdgeFunction | PostEdgeFunction

  datatype KeyResolution = KeyResolution(key: string, calls: seq<KeyCall>)

  /** Whether one of the two sources hands over the key `k`. */
  predicate Delivers(backend: KeyBackend, k: string) {
    k != "" &&
    (backend.invoke == InvokeData(k) ||
     (backend.invoke == InvokeError && backend.direct == DirectResponse(true, k)))
  }

  /** The fallback chain behind an empty cache: the invoke, then (only when the invoke reports
      an error) the direct POST, then the hard-coded key. */
  function ResolveKey(backend: KeyBackend): (r: KeyResolution)
    ensures r.key != ""
    ensures r.calls == if backend.invoke == InvokeError then [InvokeEdgeFunction, PostEdgeFunction]
                       else [InvokeEdgeFunction]
    ensures Delivers(backend, r.key) || r.key == FALLBACK_KEY
    ensures forall k :: Delivers(backend, k) ==> r.key == k
  {
    match backend.invoke
    case InvokeThrows => KeyResolution(FALLBACK_KEY, [InvokeEdgeFunction])
    case InvokeData(k) => KeyResolution(if k != "" then k else FALLBACK_KEY, [InvokeEdgeFunction])
    case InvokeError =>
      var k := if backend.direct.DirectResponse? && backend.direct.ok && backend.direct.key != ""
               then backend.direct.key else FALLBACK_KEY;
      KeyResolution(k, [InvokeEdgeFunction, PostEdgeFunction])
  }

  // ---------------------------------------------------------------- fetchWithRetry

  predicate Fails(replies: seq<Reply>, k: nat) {
    AttemptOutcome(ReplyAt(replies, k)).Failure?
  }

  /** The first attempt in `[from, limit)` that succeeds. */
  function FirstSuccess(replies: seq<Reply>, from: nat, limit: nat): (r: Option<nat>)
    ensures r.Some? ==> from <= r.value < limit && !Fails(replies, r.value)
    ensures r.Some? ==> forall k :: from <= k < r.value ==> Fails(replies, k)
    ensures r.None? ==> forall k :: from <= k < limit ==> Fails(replies, k)
    decreases limit - from
  {
    if from >= limit then None
    else if !Fails(replies, from) then Some(from)
    else FirstSuccess(replies, from + 1, limit)
  }

  /** What `fetchWithRetry` resolves to: the data, `undefined` (when no attempt is allowed at
      all), or the error it rethrows. */
  datatype Fetched = Data(body: Body) | Undefined | Threw(error: Error)

  datatype Fetch = Fetch(outcome: Fetched, attempts: nat)

  /** The outcome of `fetchWithRetry` with `retries` attempts allowed. */
  function Retry(replies: seq<Reply>, retries: nat): (r: Fetch)
    ensures r.attempts <= retries
    ensures r.outcome.Undefined? <==> retries == 0
    ensures r.outcome.Data? ==>
              1 <= r.attempts && AttemptOutcome(ReplyAt(replies, r.attempts - 1)) == Success(r.outcome.body)
              && forall k :: 0 <= k < r.attempts - 1 ==> Fails(replies, k)
    ensures r.outcome.Threw? ==>
              r.attempts == retries && (forall k :: 0 <= k < retries ==> Fails(replies, k))
              && AttemptOutcome(ReplyAt(replies, retries - 1)) == Failure(r.outcome.error)
    ensures r.outcome.Data? ==> r.outcome.body.error == ""
  {
    if retries == 0 then Fetch(Undefined, 0)
    else match FirstSuccess(replies, 0, retries)
      case Some(j) => Fetch(Data(AttemptOutcome(ReplyAt(replies, j)).value), j + 1)
      case None =>
        assert Fails(replies, retries - 1);
        Fetch(Threw(AttemptOutcome(ReplyAt(replies, retries - 1)).error), retries)
  }

  lemma RetrySucceedsAt(replies: seq<Reply>, retries: nat, i: nat)
    requires i < retries && !Fails(replies, i)
    requires forall k :: 0 <= k < i ==> Fails(replies, k)
    ensures Retry(replies, retries) == Fetch(Data(AttemptOutcome(ReplyAt(replies, i)).value), i + 1)
  {
  }

  lemma RetryFailsThroughout(replies: seq<Reply>, retries: nat)
    requires retries > 0
    requires forall k :: 0 <= k < retries ==> Fails(replies, k)
    ensures Retry(replies, retries) == Fetch(Threw(AttemptOutcome(ReplyAt(replies, retries - 1)).error), retries)
  {
  }

  function Pow2(n: nat): (p: nat)
    ensures p >= 1
  {
    if n == 0 then 1 else 2 * Pow2(n - 1)
  }

  lemma {:induction false} Pow2Increasing(i: nat, j: nat)
    requires i < j
    ensures Pow2(i) < Pow2(j)
    decreases j
  {
    if i < j - 1 {
      Pow2Increasing(i, j - 1);
    }
  }

  /** The waits slept after the first `n` failed attempts: `delay * 2^i` after attempt `i`. */
  function Backoff(delay: nat, n: nat): (waits: seq<nat>)
    ensures |waits| == n
  {
    if n == 0 then [] else Backoff(delay, n - 1) + [delay * Pow2(n - 1)]
  }

  lemma {:induction false} BackoffAt(delay: nat, n: nat, i: nat)
    requires i < n
    ensures Backoff(delay, n)[i] == delay * Pow2(i)
  {
    if i < n - 1 {
      BackoffAt(delay, n - 1, i);
    }
  }

  /** With a positive base delay every wait is longer than the one before. */
  lemma BackoffStrictlyIncreasing(delay: nat, n: nat)
    requires delay > 0
    ensures forall i, j :: 0 <= i < j < n ==> Backoff(delay, n)[i] < Backoff(delay, n)[j]
  {
    forall i, j | 0 <= i < j < n ensures Backoff(delay, n)[i] < Backoff(delay, n)[j] {
      BackoffAt(delay, n, i);
      BackoffAt(delay, n, j);
      Pow2Increasing(i, j);
      MultiplyStrict(delay, Pow2(i), Pow2(j));
    }
  }

  lemma MultiplyStrict(d: nat, a: nat, b: nat)
    requires d > 0 && a < b
    ensures d * a < d * b
  {
  }

  /** `fetchWithRetry(url, retries, delay)`: at most `retries` attempts; the data of the first
      attempt that is ok and carries no `Error`; otherwise the last attempt's error; a wait of
      `delay * 2^i` after each failed attempt `i` but the last. */
  method FetchWithRetry(replies: seq<Reply>, retries: nat, delay: nat)
    returns (result: Fetched, used: nat, waits: seq<nat>)
    ensures Fetch(result, used) == Retry(replies, retries)
    ensures waits == Backoff(delay, if used == 0 then 0 else used - 1)
  {
    result, used, waits := Undefined, 0, [];
    var i := 0;
    while i < retries
      invariant 0 <= i <= retries && used == i
      invariant retries > 0 ==> i < retries
      invariant forall k :: 0 <= k < i ==> Fails(replies, k)
      invariant waits == Backoff(delay, i)
    {
      var outcome := AttemptOutcome(ReplyAt(replies, i));
      used := used + 1;
      if outcome.Success? {
        RetrySucceedsAt(replies, retries, i);
        result := Data(outcome.value);
        return;
      }
      if i == retries - 1 {
        RetryFailsThroughout(replies, retries);
        result := Threw(outcome.error);
        return;
      }
      waits := waits + [delay * Pow2(i)];
      i := i + 1;
    }
  }

  // ---------------------------------------------------------------- metadata calls

  /** Whether a query has the IMDb id shape `^tt\d+$`. */
  predicate IsImdbId(query: string) {
    |query| >= 3 && query[..2] == "tt" && Text.AllDigits(query[2..])
  }

  /** `data.Search || []`. */
  function SearchList(body: Body): seq<Body> {
    if body.search.Some? then body.search.value else []
  }

  /** `data.Episodes || []`. */
  function EpisodeList(body: Body): seq<Body> {
    if body.episodes.Some? then body.episodes.value else []
  }

  /** `getShowDetails(id)`: the details, or the error rethrown. */
  function DetailsRun(key: string, id: string, replies: seq<Reply>): (r: Run<Fetched>)
    ensures !r.value.Undefined? && r.used <= DEFAULT_RETRIES
    ensures r.sent == [ShowDetails(key, id)]
    ensures r.value == Retry(replies, DEFAULT_RETRIES).outcome && r.used == Retry(replies, DEFAULT_RETRIES).attempts
    ensures r.value.Data? ==> r.value.body.error == ""
  {
    var f := Retry(replies, DEFAULT_RETRIES);
    Run(f.outcome, f.attempts, [ShowDetails(key, id)])
  }

  /** `getEpisodeDetails(id, season, episode)`: the episode, or the error rethrown. */
  function EpisodeRun(key: string, id: string, season: string, episode: string, replies: seq<Reply>)
    : (r: Run<Fetched>)
    ensures !r.value.Undefined? && r.used <= DEFAULT_RETRIES
    ensures r.sent == [EpisodeDetails(key, id, season, episode)]
    ensures r.value == Retry(replies, DEFAULT_RETRIES).outcome && r.used == Retry(replies, DEFAULT_RETRIES).attempts
  {
    var f := Retry(replies, DEFAULT_RETRIES);
    Run(f.outcome, f.attempts, [EpisodeDetails(key, id, season, episode)])
  }

  /** `getShowsByCategory(term)`: `Search`, `[]` when absent, or the error rethrown. */
  function CategoryRun(key: string, term: string, replies: seq<Reply>): (r: Run<Result<seq<Body>, Error>>)
    ensures r.sent == [SearchSeries(key, term)] && 1 <= r.used <= DEFAULT_RETRIES
    ensures r.value.Failure? <==> Retry(replies, DEFAULT_RETRIES).outcome.Threw?
    ensures r.value.Success? ==> r.value.value == SearchList(Retry(replies, DEFAULT_RETRIES).outcome.body)
    ensures r.value.Failure? ==> r.value.error == Retry(replies, DEFAULT_RETRIES).outcome.error
    ensures r.used == Retry(replies, DEFAULT_RETRIES).attempts
  {
    var f := Retry(replies, DEFAULT_RETRIES);
    var value := match f.outcome
      case Data(body) => Success(SearchList(body))
      case Threw(e) => Failure(e)
      case Undefined => Failure(ReadOfUndefined);
    Run(value, f.attempts, [SearchSeries(key, term)])
  }

  /** `getSeasonDetails(id, season)`: `Episodes`, `[]` when absent, or the error rethrown. */
  function SeasonRun(key: string, id: string, season: string, replies: seq<Reply>)
    : (r: Run<Result<seq<Body>, Error>>)
    ensures r.sent == [SeasonEpisodes(key, id, season)] && 1 <= r.used <= DEFAULT_RETRIES
    ensures r.value.Failure? <==> Retry(replies, DEFAULT_RETRIES).outcome.Threw?
    ensures r.value.Success? ==> r.value.value == EpisodeList(Retry(replies, DEFAULT_RETRIES).outcome.body)
    ensures r.value.Failure? ==> r.value.error == Retry(replies, DEFAULT_RETRIES).outcome.error
    ensures r.used == Retry(replies, DEFAULT_RETRIES).attempts
  {
    var f := Retry(replies, DEFAULT_RETRIES);
    var value := match f.outcome
      case Data(body) => Success(EpisodeList(body))
      case Threw(e) => Failure(e)
      case Undefined => Failure(ReadOfUndefined);
    Run(value, f.attempts, [SeasonEpisodes(key, id, season)])
  }

  /** The text search at the end of `searchShows`; every failure becomes `[]`. The branch on
      `data.Error` is kept, and the contract shows that it is never taken. */
  function TextSearchRun(key: string, query: string, replies: seq<Reply>): (r: Run<seq<Body>>)
    ensures r.sent == [SearchSeries(key, query)]
    ensures r.value == match Retry(replies, DEFAULT_RETRIES).outcome
                       case Data(body) => SearchList(body)
                       case _ => []
    ensures r.used == Retry(replies, DEFAULT_RETRIES).attempts
  {
    var f := Retry(replies, DEFAULT_RETRIES);
    var shows := match f.outcome
      case Data(body) => if body.error != "" then [] else SearchList(body)
      case _ => [];
    Run(shows, f.attempts, [SearchSeries(key, query)])
  }

  /** `searchShows(query)`: the id shortcut first when the query looks like an IMDb id, then
      the text search; it never throws. */
  function SearchShowsRun(key: string, query: string, replies: seq<Reply>): (r: Run<seq<Body>>)
    ensures !IsImdbId(query) ==> r == TextSearchRun(key, query, replies)
    ensures IsImdbId(query) ==> |r.sent| >= 1 && r.sent[0] == ShowDetails(key, query)
    ensures IsImdbId(query) && DetailsRun(key, query, replies).value.Data? ==>
              r.value == [DetailsRun(key, query, replies).value.body] && r.sent == [ShowDetails(key, query)]
              && r.used == DetailsRun(key, query, replies).used
    ensures IsImdbId(query) && !DetailsRun(key, query, replies).value.Data? ==>
              var d := DetailsRun(key, query, replies);
              var t := TextSearchRun(key, query, Drop(replies, d.used));
              r.sent == [ShowDetails(key, query), SearchSeries(key, query)]
              && r.value == t.value && r.used == d.used + t.used
  {
    if IsImdbId(query) then
      var d := DetailsRun(key, query, replies);
      if d.value.Data? then Run([d.value.body], d.used, d.sent)
      else Then(d.used, d.sent, TextSearchRun(key, query, Drop(replies, d.used)))
    else TextSearchRun(key, query, replies)
  }

  // ---------------------------------------------------------------- getLatestShows

  /** The search terms `getLatestShows(year, month)` tries, in order. */
  function LatestTerms(year: string, month: string, currentYear: int): (terms: seq<string>)
    ensures |terms| == 4 || |terms| == 6
    ensures terms[0] == if year != "" && month != "" then "y:" + year + "/" + Text.PadStart(month, 2, '0')
                        else if year != "" then "y:" + year
                        else "y:" + Text.IntToString(currentYear)
    ensures terms[1..4] == ["new shows", "popular series", "trending"]
    ensures |terms| == 6 <==> year == "" || year == Text.IntToString(currentYear)
    ensures |terms| == 6 ==> terms[4..] == ["latest series", "new release"]
  {
    var first := if year != "" && month != "" then "y:" + year + "/" + Text.PadStart(month, 2, '0')
                 else if year != "" then "y:" + year
                 else "y:" + Text.IntToString(currentYear);
    var extra := if year == Text.IntToString(currentYear) || year == "" then ["latest series", "new release"] else [];
    [first] + ["new shows", "popular series", "trending"] + extra
  }

  /** The list a term yields in `getLatestShows`: only a non-empty `Search` counts. */
  function Hit(outcome: Fetched): Option<seq<Body>> {
    if outcome.Data? && outcome.body.search.Some? && |outcome.body.search.value| > 0
    then Some(outcome.body.search.value) else None
  }

  /** The term loop of `getLatestShows`: each term with two attempts, stopping at the first
      non-empty result. */
  function SearchTermsRun(key: string, terms: seq<string>, replies: seq<Reply>): (r: Run<Option<seq<Body>>>)
    ensures |r.sent| <= |terms|
    ensures forall i :: 0 <= i < |r.sent| ==> r.sent[i] == SearchSeries(key, terms[i])
    ensures r.value.None? ==> |r.sent| == |terms|
    ensures r.value.Some? ==> |r.sent| >= 1 && |r.value.value| > 0
    ensures r.used <= LATEST_RETRIES * |r.sent|
    decreases |terms|
  {
    if terms == [] then Run(None, 0, [])
    else
      var f := Retry(replies, LATEST_RETRIES);
      var hit := Hit(f.outcome);
      if hit.Some? then Run(hit, f.attempts, [SearchSeries(key, terms[0])])
      else Then(f.attempts, [SearchSeries(key, terms[0])], SearchTermsRun(key, terms[1..], Drop(replies, f.attempts)))
  }

  /** The outcome of each term's fetch when the terms are tried in order, each fetch starting
      on the replies the ones before it left. */
  function TermOutcomes(terms: seq<string>, replies: seq<Reply>): (o: seq<Fetched>)
    ensures |o| == |terms|
    decreases |terms|
  {
    if terms == [] then []
    else
      var f := Retry(replies, LATEST_RETRIES);
      [f.outcome] + TermOutcomes(terms[1..], Drop(replies, f.attempts))
  }

  /** `value` is what a loop over the outcomes `o` returns when it stops at the first hit,
      having looked at `n` of them: nothing exactly when no outcome hits; otherwise the hit of
      outcome `n - 1`, every outcome before it missing. */
  predicate FirstHitAt(value: Option<seq<Body>>, n: nat, o: seq<Fetched>) {
    (value.None? <==> forall i :: 0 <= i < |o| ==> Hit(o[i]).None?)
    && (value.Some? ==> 1 <= n <= |o| && value == Hit(o[n - 1]) && forall i :: 0 <= i < n - 1 ==> Hit(o[i]).None?)
  }

  /** The term loop yields nothing exactly when every term misses; otherwise it yields the
      non-empty `Search` list of the first term that hits, after requesting the terms up to it. */
  lemma {:induction false} SearchTermsFirstHit(key: string, terms: seq<string>, replies: seq<Reply>)
    ensures var r := SearchTermsRun(key, terms, replies);
            FirstHitAt(r.value, |r.sent|, TermOutcomes(terms, replies))
    decreases |terms|
  {
    if terms != [] {
      var f := Retry(replies, LATEST_RETRIES);
      var r := SearchTermsRun(key, terms, replies);
      var o' := TermOutcomes(terms[1..], Drop(replies, f.attempts));
      assert TermOutcomes(terms, replies) == [f.outcome] + o';
      SearchTermsUnfold(key, terms, replies);
      if Hit(f.outcome).None? {
        var rest := SearchTermsRun(key, terms[1..], Drop(replies, f.attempts));
        SearchTermsFirstHit(key, terms[1..], Drop(replies, f.attempts));
        assert r.value == rest.value && |r.sent| == 1 + |rest.sent|;
        FirstHitShift(rest.value, |rest.sent|, f.outcome, o');
      } else {
        FirstHitHere(f.outcome, o');
      }
    }
  }

  /** A first outcome that misses shifts the first hit by one. */
  lemma FirstHitShift(value: Option<seq<Body>>, n: nat, first: Fetched, o: seq<Fetched>)
    requires Hit(first).None? && FirstHitAt(value, n, o)
    ensures FirstHitAt(value, n + 1, [first] + o)
  {
    var o2 := [first] + o;
    forall i | 0 < i < |o2| ensures o2[i] == o[i - 1] {
    }
    assert o2[0] == first;
    if value.None? {
      forall i | 0 <= i < |o2| ensures Hit(o2[i]).None? {
        if i > 0 {
          assert Hit(o[i - 1]).None?;
        }
      }
    } else {
      assert o2[n] == o[n - 1];
      forall i | 0 <= i < n ensures Hit(o2[i]).None? {
        if i > 0 {
          assert Hit(o[i - 1]).None?;
        }
      }
      assert Hit(o[n - 1]).Some?;
    }
  }

  /** A first outcome that hits is the first hit. */
  lemma FirstHitHere(first: Fetched, o: seq<Fetched>)
    requires Hit(first).Some?
    ensures FirstHitAt(Hit(first), 1, [first] + o)
  {
    assert ([first] + o)[0] == first;
  }

  /** How the term loop starts: the first term's fetch either hits or hands the rest of the
      terms the replies it left. */
  lemma SearchTermsUnfold(key: string, terms: seq<string>, replies: seq<Reply>)
    requires terms != []
    ensures var f := Retry(replies, LATEST_RETRIES);
            Hit(f.outcome).Some? ==>
              SearchTermsRun(key, terms, replies) == Run(Hit(f.outcome), f.attempts, [SearchSeries(key, terms[0])])
              && terms[..0] == []
    ensures var f := Retry(replies, LATEST_RETRIES);
            Hit(f.outcome).None? ==>
              SearchTermsRun(key, terms, replies)
              == Then(f.attempts, [SearchSeries(key, terms[0])], SearchTermsRun(key, terms[1..], Drop(replies, f.attempts)))
  {
  }

  /** The entry `getLatestShows` builds from a show's details. */
  function FallbackItem(details: Body): (item: Body)
    ensures item.kind == "series"
    ensures item.title == details.title && item.year == details.year
    ensures item.imdbId == details.imdbId && item.poster == details.poster
  {
    Body("", None, None, details.title, details.year, details.imdbId, "series", details.poster)
  }

  /** The fallback loop of `getLatestShows`: the details of every id, in order, leaving out
      those whose lookup fails. */
  function FallbackRun(key: string, ids: seq<string>, replies: seq<Reply>): (r: Run<seq<Body>>)
    ensures r.value == Found(Lookups(ids, replies))
    ensures |r.value| <= |ids|
    ensures forall i :: 0 <= i < |r.value| ==> r.value[i].kind == "series"
    ensures |r.sent| == |ids| && forall i :: 0 <= i < |ids| ==> r.sent[i] == ShowDetails(key, ids[i])
    decreases |ids|
  {
    if ids == [] then Run([], 0, [])
    else
      var d := DetailsRun(key, ids[0], replies);
      var item := if d.value.Data? then [FallbackItem(d.value.body)] else [];
      Prepend(item, d.used, d.sent, FallbackRun(key, ids[1..], Drop(replies, d.used)))
  }

  /** The outcome of the details lookup of each id, in order; each lookup starts on the replies
      the lookups before it left. */
  function Lookups(ids: seq<string>, replies: seq<Reply>): (o: seq<Fetched>)
    ensures |o| == |ids|
    decreases |ids|
  {
    if ids == [] then []
    else
      var f := Retry(replies, DEFAULT_RETRIES);
      [f.outcome] + Lookups(ids[1..], Drop(replies, f.attempts))
  }

  /** The entries built from the lookups that returned details, in lookup order. */
  function Found(lookups: seq<Fetched>): (shows: seq<Body>)
    ensures |shows| <= |lookups|
  {
    if lookups == [] then []
    else (if lookups[0].Data? then [FallbackItem(lookups[0].body)] else []) + Found(lookups[1..])
  }

  lemma {:induction false} FoundAppend(a: seq<Fetched>, b: seq<Fetched>)
    ensures Found(a + b) == Found(a) + Found(b)
  {
    if a == [] {
      assert a + b == b;
    } else {
      assert (a + b)[0] == a[0] && (a + b)[1..] == a[1..] + b;
      FoundAppend(a[1..], b);
    }
  }

  /** A lookup that fails contributes no entry, and the entries around it keep their order. */
  lemma FoundSkipsFailure(a: seq<Fetched>, failed: Fetched, b: seq<Fetched>)
    requires !failed.Data?
    ensures Found(a + [failed] + b) == Found(a) + Found(b)
  {
    var single := [failed];
    FoundAppend(a + single, b);
    FoundAppend(a, single);
    assert single[1..] == [];
    assert Found(single) == [];
    assert Found(a) + [] == Found(a);
  }

  /** An entry is built exactly from the details of some lookup that succeeded. */
  lemma {:induction false} FoundMembers(lookups: seq<Fetched>, show: Body)
    ensures show in Found(lookups) <==>
            exists i :: 0 <= i < |lookups| && lookups[i].Data? && show == FallbackItem(lookups[i].body)
  {
    if lookups != [] {
      FoundMembers(lookups[1..], show);
      if exists i :: 0 <= i < |lookups[1..]| && lookups[1..][i].Data? && show == FallbackItem(lookups[1..][i].body) {
        var i :| 0 <= i < |lookups[1..]| && lookups[1..][i].Data? && show == FallbackItem(lookups[1..][i].body);
        assert lookups[i + 1] == lookups[1..][i];
      }
      if exists i :: 0 <= i < |lookups| && lookups[i].Data? && show == FallbackItem(lookups[i].body) {
        var i :| 0 <= i < |lookups| && lookups[i].Data? && show == FallbackItem(lookups[i].body);
        if i > 0 {
          assert lookups[1..][i - 1] == lookups[i];
        }
      }
    }
  }

  /** When every lookup succeeds there is one entry per id, in id order. */
  lemma {:induction false} FoundAllData(lookups: seq<Fetched>)
    requires forall i :: 0 <= i < |lookups| ==> lookups[i].Data?
    ensures |Found(lookups)| == |lookups|
    ensures forall i :: 0 <= i < |lookups| ==> Found(lookups)[i] == FallbackItem(lookups[i].body)
  {
    if lookups != [] {
      FoundAllData(lookups[1..]);
    }
  }

  /** Replies that all succeed at the first attempt: each lookup takes one reply and yields its
      body. */
  lemma {:induction false} LookupsFirstTry(ids: seq<string>, replies: seq<Reply>)
    requires |ids| <= |replies|
    requires forall k :: 0 <= k < |ids| ==> AttemptOutcome(replies[k]).Success?
    ensures forall i :: 0 <= i < |ids| ==> Lookups(ids, replies)[i] == Data(AttemptOutcome(replies[i]).value)
    decreases |ids|
  {
    if ids != [] {
      assert ReplyAt(replies, 0) == replies[0];
      RetrySucceedsAt(replies, DEFAULT_RETRIES, 0);
      var rest := Drop(replies, 1);
      forall k | 0 <= k < |ids[1..]| ensures AttemptOutcome(rest[k]).Success? {
        assert rest[k] == replies[k + 1];
      }
      LookupsFirstTry(ids[1..], rest);
      forall i | 0 < i < |ids| ensures Lookups(ids, replies)[i] == Data(AttemptOutcome(replies[i]).value) {
        assert rest[i - 1] == replies[i];
      }
    }
  }

  /** When every popular id's lookup succeeds, the fallback list has one entry per id, built
      from that id's details, in id order. */
  lemma FallbackAllFound(key: string, ids: seq<string>, replies: seq<Reply>)
    requires |ids| <= |replies|
    requires forall k :: 0 <= k < |ids| ==> AttemptOutcome(replies[k]).Success?
    ensures |FallbackRun(key, ids, replies).value| == |ids|
    ensures forall i :: 0 <= i < |ids| ==>
              FallbackRun(key, ids, replies).value[i] == FallbackItem(AttemptOutcome(replies[i]).value)
  {
    LookupsFirstTry(ids, replies);
    FoundAllData(Lookups(ids, replies));
  }

  /** `getLatestShows(year, month)`: the first non-empty term result, or else the fallback list. */
  function LatestShowsRun(key: string, year: string, month: string, currentYear: int, replies: seq<Reply>)
    : (r: Run<seq<Body>>)
  {
    var s := SearchTermsRun(key, LatestTerms(year, month, currentYear), replies);
    if s.value.Some? then Run(s.value.value, s.used, s.sent)
    else Then(s.used, s.sent, FallbackRun(key, POPULAR_SHOW_IDS, Drop(replies, s.used)))
  }

  lemma ThenThen<T>(a: nat, s: seq<Request>, b: nat, t: seq<Request>, r: Run<T>)
    ensures Then(a, s, Then(b, t, r)) == Then(a + b, s + t, r)
  {
    assert s + (t + r.sent) == (s + t) + r.sent;
  }

  /** One step of the term loop: after the fetch for term `i`, either the loop's result is
      known or the loop invariant holds for `i + 1`. */
  lemma SearchTermsStep(key: string, terms: seq<string>, replies: seq<Reply>, i: nat, used: nat,
                        sent: seq<Request>, data: Fetched, attempts: nat, used': nat, sent': seq<Request>)
    requires i < |terms|
    requires SearchTermsRun(key, terms, replies) == Then(used, sent, SearchTermsRun(key, terms[i..], Drop(replies, used)))
    requires Fetch(data, attempts) == Retry(Drop(replies, used), LATEST_RETRIES)
    requires used' == used + attempts && sent' == sent + [SearchSeries(key, terms[i])]
    ensures Hit(data).Some? ==> SearchTermsRun(key, terms, replies) == Run(Hit(data), used', sent')
    ensures Hit(data).None? ==>
              SearchTermsRun(key, terms, replies) == Then(used', sent', SearchTermsRun(key, terms[i + 1..], Drop(replies, used')))
  {
    assert terms[i..][1..] == terms[i + 1..];
    DropDrop(replies, used, attempts);
    var rest := SearchTermsRun(key, terms[i + 1..], Drop(replies, used + attempts));
    if Hit(data).None? {
      ThenThen(used, sent, attempts, [SearchSeries(key, terms[i])], rest);
    }
  }

  /** One step of the fallback loop: with the details lookup for id `j` done and its item
      added, the loop invariant holds for `j + 1`. */
  lemma FallbackStep(key: string, ids: seq<string>, replies: seq<Reply>, j: nat, shows: seq<Body>,
                     used: nat, sent: seq<Request>, details: Fetched, attempts: nat, request: seq<Request>,
                     shows': seq<Body>, used': nat, sent': seq<Request>)
    requires j < |ids|
    requires FallbackRun(key, ids, replies) == Prepend(shows, used, sent, FallbackRun(key, ids[j..], Drop(replies, used)))
    requires Run(details, attempts, request) == DetailsRun(key, ids[j], Drop(replies, used))
    requires shows' == shows + if details.Data? then [FallbackItem(details.body)] else []
    requires used' == used + attempts && sent' == sent + request
    ensures FallbackRun(key, ids, replies) == Prepend(shows', used', sent', FallbackRun(key, ids[j + 1..], Drop(replies, used')))
  {
    assert ids[j..][1..] == ids[j + 1..];
    DropDrop(replies, used, attempts);
    var item := if details.Data? then [FallbackItem(details.body)] else [];
    var rest := FallbackRun(key, ids[j + 1..], Drop(replies, used + attempts));
    assert FallbackRun(key, ids[j..], Drop(replies, used)) == Prepend(item, attempts, request, rest);
    PrependPrepend(shows, used, sent, item, attempts, request, rest);
  }

  lemma PrependNothing<T>(r: Run<seq<T>>)
    ensures Prepend([], 0, [], r) == r
  {
    assert [] + r.value == r.value && [] + r.sent == r.sent;
  }

  /** The `searchTerms` list `getLatestShows` builds up. */
  method BuildSearchTerms(year: string, month: string, currentYear: int) returns (searchTerms: seq<string>)
    ensures searchTerms == LatestTerms(year, month, currentYear)
  {
    if year != "" && month != "" {
      searchTerms := ["y:" + year + "/" + Text.PadStart(month, 2, '0')];
    } else if year != "" {
      searchTerms := ["y:" + year];
    } else {
      searchTerms := ["y:" + Text.IntToString(currentYear)];
    }
    searchTerms := searchTerms + ["new shows", "popular series", "trending"];
    if year == Text.IntToString(currentYear) || year == "" {
      searchTerms := searchTerms + ["latest series", "new release"];
    }
  }

  /** How `getLatestShows` continues once the term loop has run. */
  lemma LatestShowsFromTerms(key: string, year: string, month: string, currentYear: int, replies: seq<Reply>,
                             hit: Option<seq<Body>>, used: nat, sent: seq<Request>)
    requires Run(hit, used, sent) == SearchTermsRun(key, LatestTerms(year, month, currentYear), replies)
    ensures hit.Some? ==> LatestShowsRun(key, year, month, currentYear, replies) == Run(hit.value, used, sent)
    ensures hit.None? ==>
              LatestShowsRun(key, year, month, currentYear, replies)
              == Then(used, sent, FallbackRun(key, POPULAR_SHOW_IDS, Drop(replies, used)))
  {
  }

  /** The term loop of `getLatestShows`. */
  method TrySearchTerms(key: string, terms: seq<string>, replies: seq<Reply>)
    returns (hit: Option<seq<Body>>, used: nat, sent: seq<Request>)
    ensures Run(hit, used, sent) == SearchTermsRun(key, terms, replies)
  {
    used, sent := 0, [];
    var i := 0;
    while i < |terms|
      invariant 0 <= i <= |terms|
      invariant SearchTermsRun(key, terms, replies) == Then(used, sent, SearchTermsRun(key, terms[i..], Drop(replies, used)))
    {
      var data, attempts, waits := FetchWithRetry(Drop(replies, used), LATEST_RETRIES, DEFAULT_DELAY);
      ghost var used0, sent0 := used, sent;
      used, sent := used + attempts, sent + [SearchSeries(key, terms[i])];
      SearchTermsStep(key, terms, replies, i, used0, sent0, data, attempts, used, sent);
      if data.Data? && data.body.search.Some? && |data.body.search.value| > 0 {
        assert Hit(data) == Some(data.body.search.value);
        return Some(data.body.search.value), used, sent;
      }
      assert Hit(data).None?;
      i := i + 1;
    }
    assert terms[i..] == [];
    assert [] + sent == sent;
    hit := None;
  }

  /** The fallback loop of `getLatestShows`: `getShowDetails` for every popular id, with the
      key the client has already cached. */
  method FetchFallbackShows(key: string, ids: seq<string>, replies: seq<Reply>)
    returns (shows: seq<Body>, used: nat, sent: seq<Request>)
    ensures Run(shows, used, sent) == FallbackRun(key, ids, replies)
  {
    shows, used, sent := [], 0, [];
    assert ids[0..] == ids && Drop(replies, 0) == replies;
    PrependNothing(FallbackRun(key, ids, replies));
    var j := 0;
    while j < |ids|
      invariant 0 <= j <= |ids|
      invariant FallbackRun(key, ids, replies) == Prepend(shows, used, sent, FallbackRun(key, ids[j..], Drop(replies, used)))
    {
      var details, attempts, waits := FetchWithRetry(Drop(replies, used), DEFAULT_RETRIES, DEFAULT_DELAY);
      var request := [ShowDetails(key, ids[j])];
      var found := if details.Data? then [FallbackItem(details.body)] else [];
      ghost var shows0, used0, sent0 := shows, used, sent;
      shows, used, sent := shows + found, used + attempts, sent + request;
      FallbackStep(key, ids, replies, j, shows0, used0, sent0, details, attempts, request, shows, used, sent);
      j := j + 1;
    }
    assert ids[j..] == [];
    assert shows + [] == shows && sent + [] == sent;
  }

  // ---------------------------------------------------------------- an unreachable provider

  /** With no provider reachable every attempt is rejected: all `retries` are spent and the
      network error is rethrown. */
  lemma RetryOffline(retries: nat)
    requires retries > 0
    ensures Retry([], retries) == Fetch(Threw(NetworkFailure), retries)
  {
    assert AttemptOutcome(ReplyAt([], retries - 1)) == Failure(NetworkFailure);
  }

  lemma {:induction false} SearchTermsOffline(key: string, terms: seq<string>)
    ensures SearchTermsRun(key, terms, []) == Run(None, LATEST_RETRIES * |terms|, SearchTermsRun(key, terms, []).sent)
    decreases |terms|
  {
    if terms != [] {
      RetryOffline(LATEST_RETRIES);
      assert Drop([], LATEST_RETRIES) == [];
      SearchTermsOffline(key, terms[1..]);
    }
  }

  lemma {:induction false} FallbackOffline(key: string, ids: seq<string>)
    ensures FallbackRun(key, ids, []).value == [] && FallbackRun(key, ids, []).used == DEFAULT_RETRIES * |ids|
    decreases |ids|
  {
    if ids != [] {
      RetryOffline(DEFAULT_RETRIES);
      assert Drop([], DEFAULT_RETRIES) == [];
      FallbackOffline(key, ids[1..]);
    }
  }

  /** `getLatestShows` with the provider unreachable: every term is tried with its two
      attempts, then every popular id with its three, and the result is the empty list rather
      than an error. */
  lemma LatestShowsOffline(key: string, year: string, month: string, currentYear: int)
    ensures var r := LatestShowsRun(key, year, month, currentYear, []);
            var terms := LatestTerms(year, month, currentYear);
            r.value == [] && r.used == LATEST_RETRIES * |terms| + DEFAULT_RETRIES * |POPULAR_SHOW_IDS|
            && |r.sent| == |terms| + |POPULAR_SHOW_IDS|
            && (forall i :: 0 <= i < |terms| ==> r.sent[i] == SearchSeries(key, terms[i]))
            && (forall i :: 0 <= i < |POPULAR_SHOW_IDS| ==> r.sent[|terms| + i] == ShowDetails(key, POPULAR_SHOW_IDS[i]))
  {
    var terms := LatestTerms(year, month, currentYear);
    SearchTermsOffline(key, terms);
    var s := SearchTermsRun(key, terms, []);
    assert Drop([], s.used) == [];
    FallbackOffline(key, POPULAR_SHOW_IDS);
  }

  /** What `getLatestShows` returns when no search term yields anything: the details of the
      popular ids, in their order, each marked as a series, at most five of them, after the
      requests for every term. */
  lemma LatestShowsFallback(key: string, year: string, month: string, currentYear: int, replies: seq<Reply>)
    requires SearchTermsRun(key, LatestTerms(year, month, currentYear), replies).value.None?
    ensures var r := LatestShowsRun(key, year, month, currentYear, replies);
            var terms := LatestTerms(year, month, currentYear);
            |r.value| <= |POPULAR_SHOW_IDS| == 5
            && (forall i :: 0 <= i < |r.value| ==> r.value[i].kind == "series")
            && |r.sent| == |terms| + |POPULAR_SHOW_IDS|
            && (forall i :: 0 <= i < |terms| ==> r.sent[i] == SearchSeries(key, terms[i]))
            && (forall i :: 0 <= i < |POPULAR_SHOW_IDS| ==> r.sent[|terms| + i] == ShowDetails(key, POPULAR_SHOW_IDS[i]))
    ensures var s := SearchTermsRun(key, LatestTerms(year, month, currentYear), replies);
            LatestShowsRun(key, year, month, currentYear, replies).value
            == Found(Lookups(POPULAR_SHOW_IDS, Drop(replies, s.used)))
  {
    var terms := LatestTerms(year, month, currentYear);
    var s := SearchTermsRun(key, terms, replies);
    FallbackAfterTerms(key, terms, replies);
    assert LatestShowsRun(key, year, month, currentYear, replies)
        == Then(s.used, s.sent, FallbackRun(key, POPULAR_SHOW_IDS, Drop(replies, s.used)));
  }

  lemma FallbackAfterTerms(key: string, terms: seq<string>, replies: seq<Reply>)
    requires SearchTermsRun(key, terms, replies).value.None?
    ensures var s := SearchTermsRun(key, terms, replies);
            var r := Then(s.used, s.sent, FallbackRun(key, POPULAR_SHOW_IDS, Drop(replies, s.used)));
            |r.value| <= |POPULAR_SHOW_IDS|
            && (forall i :: 0 <= i < |r.value| ==> r.value[i].kind == "series")
            && |r.sent| == |terms| + |POPULAR_SHOW_IDS|
            && (forall i :: 0 <= i < |terms| ==> r.sent[i] == SearchSeries(key, terms[i]))
            && (forall i :: 0 <= i < |POPULAR_SHOW_IDS| ==> r.sent[|terms| + i] == ShowDetails(key, POPULAR_SHOW_IDS[i]))
  {
    var s := SearchTermsRun(key, terms, replies);
    var f := FallbackRun(key, POPULAR_SHOW_IDS, Drop(replies, s.used));
    SentAfter(s.sent, f.sent, terms, POPULAR_SHOW_IDS, key);
  }

  /** The requests of the terms, then those of the ids. */
  lemma SentAfter(a: seq<Request>, b: seq<Request>, terms: seq<string>, ids: seq<string>, key: string)
    requires |a| == |terms| && forall i :: 0 <= i < |terms| ==> a[i] == SearchSeries(key, terms[i])
    requires |b| == |ids| && forall i :: 0 <= i < |ids| ==> b[i] == ShowDetails(key, ids[i])
    ensures |a + b| == |terms| + |ids|
    ensures forall i :: 0 <= i < |terms| ==> (a + b)[i] == SearchSeries(key, terms[i])
    ensures forall i :: 0 <= i < |ids| ==> (a + b)[|terms| + i] == ShowDetails(key, ids[i])
  {
  }

  /** What `getLatestShows` returns when some term yields a non-empty list: that list, after
      the requests for the terms up to and including that one and no other. */
  lemma LatestShowsHit(key: string, year: string, month: string, currentYear: int, replies: seq<Reply>)
    requires SearchTermsRun(key, LatestTerms(year, month, currentYear), replies).value.Some?
    ensures var r := LatestShowsRun(key, year, month, currentYear, replies);
            var terms := LatestTerms(year, month, currentYear);
            |r.value| > 0 && 1 <= |r.sent| <= |terms|
            && (forall i :: 0 <= i < |r.sent| ==> r.sent[i] == SearchSeries(key, terms[i]))
    ensures var r := LatestShowsRun(key, year, month, currentYear, replies);
            FirstHitAt(Some(r.value), |r.sent|, TermOutcomes(LatestTerms(year, month, currentYear), replies))
  {
    SearchTermsFirstHit(key, LatestTerms(year, month, currentYear), replies);
  }

  /** The two failure styles: with the provider unreachable `getShowsByCategory` and
      `getSeasonDetails` rethrow the network error, while `searchShows` yields `[]`. */
  lemma FailureStyles(key: string, id: string, season: string, query: string)
    ensures CategoryRun(key, query, []).value == Failure(NetworkFailure)
    ensures SeasonRun(key, id, season, []).value == Failure(NetworkFailure)
    ensures SearchShowsRun(key, query, []).value == []
  {
    RetryOffline(DEFAULT_RETRIES);
    if IsImdbId(query) {
      assert Drop([], DEFAULT_RETRIES) == [];
    }
  }

  /** A first attempt that succeeds settles a call with that one reply. */
  lemma CategoryFirstAttempt(key: string, term: string, body: Body, rest: seq<Reply>)
    requires body.error == ""
    ensures CategoryRun(key, term, [Response(true, 200, Some(body))] + rest)
            == Run(Success(SearchList(body)), 1, [SearchSeries(key, term)])
  {
    var replies := [Response(true, 200, Some(body))] + rest;
    assert ReplyAt(replies, 0) == Response(true, 200, Some(body));
    assert FirstSuccess(replies, 0, DEFAULT_RETRIES) == Some(0);
  }

  // ---------------------------------------------------------------- the client

  /** The client, holding the module-level `API_KEY` cache. */
  class OmdbClient {
    var apiKey: Option<string>
    const backend: KeyBackend

    constructor (backend: KeyBackend)
      ensures this.backend == backend && apiKey == None
    {
      this.backend := backend;
      apiKey := None;
    }

    /** `if (API_KEY)`: a cached key that is not empty. */
    predicate HasKey()
      reads this
    {
      apiKey.Some? && apiKey.value != ""
    }

    /** `getApiKey()`: the cached key without any call, or else the fallback chain, whose
        result is stored. It never throws. */
    method GetApiKey() returns (key: string, calls: seq<KeyCall>)
      modifies this`apiKey
      ensures apiKey == Some(key) && key != ""
      ensures old(HasKey()) ==> key == old(apiKey.value) && calls == []
      ensures !old(HasKey()) ==> KeyResolution(key, calls) == ResolveKey(backend)
    {
      if apiKey.Some? && apiKey.value != "" {
        return apiKey.value, [];
      }
      calls := [InvokeEdgeFunction];
      match backend.invoke {
        case InvokeThrows =>
          key := FALLBACK_KEY;
        case InvokeError =>
          calls := calls + [PostEdgeFunction];
          if backend.direct.DirectResponse? && backend.direct.ok && backend.direct.key != "" {
            key := backend.direct.key;
          } else {
            key := FALLBACK_KEY;
          }
        case InvokeData(k) =>
          if k == "" {
            key := FALLBACK_KEY;
          } else {
            key := k;
          }
      }
      apiKey := Some(key);
    }

    /** `getShowDetails(id)`. */
    method GetShowDetails(id: string, replies: seq<Reply>) returns (details: Fetched, used: nat, sent: seq<Request>)
      modifies this`apiKey
      ensures HasKey() && (old(HasKey()) ==> apiKey == old(apiKey))
      ensures !old(HasKey()) ==> apiKey == Some(ResolveKey(backend).key)
      ensures Run(details, used, sent) == DetailsRun(apiKey.value, id, replies)
    {
      var key, _ := GetApiKey();
      var waits;
      details, used, waits := FetchWithRetry(replies, DEFAULT_RETRIES, DEFAULT_DELAY);
      sent := [ShowDetails(key, id)];
    }

    /** `getEpisodeDetails(id, season, episode)`. */
    method GetEpisodeDetails(id: string, season: string, episode: string, replies: seq<Reply>)
      returns (details: Fetched, used: nat, sent: seq<Request>)
      modifies this`apiKey
      ensures HasKey() && (old(HasKey()) ==> apiKey == old(apiKey))
      ensures !old(HasKey()) ==> apiKey == Some(ResolveKey(backend).key)
      ensures Run(details, used, sent) == EpisodeRun(apiKey.value, id, season, episode, replies)
    {
      var key, _ := GetApiKey();
      var waits;
      details, used, waits := FetchWithRetry(replies, DEFAULT_RETRIES, DEFAULT_DELAY);
      sent := [EpisodeDetails(key, id, season, episode)];
    }

    /** `getShowsByCategory(term)`. */
    method GetShowsByCategory(term: string, replies: seq<Reply>)
      returns (shows: Result<seq<Body>, Error>, used: nat, sent: seq<Request>)
      modifies this`apiKey
      ensures HasKey() && (old(HasKey()) ==> apiKey == old(apiKey))
      ensures !old(HasKey()) ==> apiKey == Some(ResolveKey(backend).key)
      ensures Run(shows, used, sent) == CategoryRun(apiKey.value, term, replies)
    {
      var key, _ := GetApiKey();
      var data, waits;
      data, used, waits := FetchWithRetry(replies, DEFAULT_RETRIES, DEFAULT_DELAY);
      sent := [SearchSeries(key, term)];
      match data {
        case Data(body) => shows := Success(SearchList(body));
        case Threw(e) => shows := Failure(e);
        case Undefined => shows := Failure(ReadOfUndefined);
      }
    }

    /** `getSeasonDetails(id, season)`. */
    method GetSeasonDetails(id: string, season: string, replies: seq<Reply>)
      returns (episodes: Result<seq<Body>, Error>, used: nat, sent: seq<Request>)
      modifies this`apiKey
      ensures HasKey() && (old(HasKey()) ==> apiKey == old(apiKey))
      ensures !old(HasKey()) ==> apiKey == Some(ResolveKey(backend).key)
      ensures Run(episodes, used, sent) == SeasonRun(apiKey.value, id, season, replies)
    {
      var key, _ := GetApiKey();
      var data, waits;
      data, used, waits := FetchWithRetry(replies, DEFAULT_RETRIES, DEFAULT_DELAY);
      sent := [SeasonEpisodes(key, id, season)];
      match data {
        case Data(body) => episodes := Success(EpisodeList(body));
        case Threw(e) => episodes := Failure(e);
        case Undefined => episodes := Failure(ReadOfUndefined);
      }
    }

    /** `searchShows(query)`. */
    method SearchShows(query: string, replies: seq<Reply>) returns (shows: seq<Body>, used: nat, sent: seq<Request>)
      modifies this`apiKey
      ensures HasKey() && (old(HasKey()) ==> apiKey == old(apiKey))
      ensures !old(HasKey()) ==> apiKey == Some(ResolveKey(backend).key)
      ensures Run(shows, used, sent) == SearchShowsRun(apiKey.value, query, replies)
    {
      var isImdbId := IsImdbId(query);
      var key, _ := GetApiKey();
      used, sent := 0, [];
      if isImdbId {
        var show;
        show, used, sent := GetShowDetails(query, replies);
        if show.Data? {
          return [show.body], used, sent;
        }
      }
      var data, attempts, waits := FetchWithRetry(Drop(replies, used), DEFAULT_RETRIES, DEFAULT_DELAY);
      used, sent := used + attempts, sent + [SearchSeries(key, query)];
      if data.Data? {
        if data.body.error != "" {
          shows := [];
        } else {
          shows := SearchList(data.body);
        }
      } else {
        shows := [];
      }
    }

    /** `getLatestShows(year, month)`, with the current year as a parameter. */
    method GetLatestShows(year: string, month: string, currentYear: int, replies: seq<Reply>)
      returns (shows: seq<Body>, used: nat, sent: seq<Request>)
      modifies this`apiKey
      ensures HasKey() && (old(HasKey()) ==> apiKey == old(apiKey))
      ensures !old(HasKey()) ==> apiKey == Some(ResolveKey(backend).key)
      ensures Run(shows, used, sent) == LatestShowsRun(apiKey.value, year, month, currentYear, replies)
    {
      var key, _ := GetApiKey();
      var searchTerms := BuildSearchTerms(year, month, currentYear);
      var hit;
      hit, used, sent := TrySearchTerms(key, searchTerms, replies);
      LatestShowsFromTerms(key, year, month, currentYear, replies, hit, used, sent);
      if hit.Some? {
        return hit.value, used, sent;
      }
      var fallbackShows, more, requests := FetchFallbackShows(key, POPULAR_SHOW_IDS, Drop(replies, used));
      ghost var used0, sent0 := used, sent;
      shows, used, sent := fallbackShows, used + more, sent + requests;
      assert Run(shows, used, sent) == Then(used0, sent0, Run(fallbackShows, more, requests));
    }
  }

  /** The key is resolved once per process: a second `getApiKey` returns the same key without
      any call. */
  method ResolveTwice(backend: KeyBackend) returns (first: string, second: string, secondCalls: seq<KeyCall>)
    ensures first == second == ResolveKey(backend).key
    ensures secondCalls == []
  {
    var client := new OmdbClient(backend);
    var firstCalls;
    first, firstCalls := client.GetApiKey();
    second, secondCalls := client.GetApiKey();
  }
}
