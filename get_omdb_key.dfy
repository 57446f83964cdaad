/** The `get-omdb-key` edge function: a CORS preflight answer, or the provider key taken from
    the environment with a hard-coded fallback. The environment lookup is a parameter; the
    timestamps of the bodies are left out. */
module GetOmdbKey {
  import opened Wrappers
  import OmdbApi

  const FALLBACK_KEY := "e48b38b2"
  const SOURCE := "edge-function"

  type Header = (string, string)

  const CORS_HEADERS: seq<Header> := [
    ("Access-Control-Allow-Origin", "*"),
    ("Access-Control-Allow-Headers", "authorization, x-client-info, apikey, content-type"),
    ("Access-Control-Allow-Methods", "POST, GET, OPTIONS")
  ]
  const JSON_HEADERS: seq<Header> := CORS_HEADERS + [("Content-Type", "application/json")]

  /** `Deno.env.get('OMDB_API_KEY')`: it throws (with a message), or yields the value, `None`
      when the variable is unset. */
  datatype EnvLookup = EnvThrows(message: string) | EnvValue(value: Option<string>)

  /** The JSON bodies the handler sends. */
  datatype Body =
    | NullBody
    | KeyBody(key: string, source: string)
    | NotConfiguredBody(error: string, errorDetails: string)
    | ExceptionBody(error: string)

  datatype Response = Response(status: int, headers: seq<Header>, body: Body)

  /** `Deno.env.get('OMDB_API_KEY') || 'e48b38b2'`. */
  function SelectKey(value: Option<string>): (key: string)
    ensures key != ""
    ensures value.Some? && value.value != "" ==> key == value.value
    ensures value.None? || value.value == "" ==> key == FALLBACK_KEY
  {
    if value.Some? && value.value != "" then value.value else FALLBACK_KEY
  }

  /** The request handler. */
  function Handle(requestMethod: string, env: EnvLookup): (r: Response)
    ensures requestMethod == "OPTIONS" ==> r == Response(204, CORS_HEADERS, NullBody)
    ensures requestMethod != "OPTIONS" ==> r.headers == JSON_HEADERS
  {
    if requestMethod == "OPTIONS" then Response(204, CORS_HEADERS, NullBody)
    else
      match env
      case EnvThrows(message) => Response(500, JSON_HEADERS, ExceptionBody(message))
      case EnvValue(value) =>
        var key := SelectKey(value);
        if key == "" then
          Response(500, JSON_HEADERS, NotConfiguredBody("API key not configured",
                                                        "The OMDB_API_KEY environment variable is not set"))
        else Response(200, JSON_HEADERS, KeyBody(key, SOURCE))
  }

  predicate HasCorsHeaders(headers: seq<Header>) {
    forall k :: 0 <= k < |CORS_HEADERS| ==> CORS_HEADERS[k] in headers
  }

  /** Every response carries the CORS headers. */
  lemma AlwaysCors(requestMethod: string, env: EnvLookup)
    ensures HasCorsHeaders(Handle(requestMethod, env).headers)
  {
    forall k | 0 <= k < |CORS_HEADERS| ensures CORS_HEADERS[k] in Handle(requestMethod, env).headers {
      assert JSON_HEADERS[k] == CORS_HEADERS[k];
    }
  }

  /** The "not configured" answer is never sent: the fallback makes the key non-empty. A
      request that is not a preflight gets the key unless the environment lookup throws. */
  lemma KeyAlwaysServed(requestMethod: string, env: EnvLookup)
    requires requestMethod != "OPTIONS"
    ensures !Handle(requestMethod, env).body.NotConfiguredBody?
    ensures env.EnvValue? ==> Handle(requestMethod, env) == Response(200, JSON_HEADERS, KeyBody(SelectKey(env.value), SOURCE))
    ensures env.EnvThrows? ==> Handle(requestMethod, env) == Response(500, JSON_HEADERS, ExceptionBody(env.message))
  {
  }

  /** The client's direct POST to this function, when it is the source consulted and it reaches
      this handler, receives the environment key or the fallback. The client sends it with a
      malformed `Authorization` header; a platform that rejects that header before the handler
      runs answers with an error instead, and the client then falls back to its own copy of the
      fallback key. */
  lemma DirectPostDelivers(value: Option<string>, invoke: OmdbApi.InvokeReply)
    requires invoke == OmdbApi.InvokeError
    ensures var r := Handle("POST", EnvValue(value));
            OmdbApi.ResolveKey(OmdbApi.KeyBackend(invoke, OmdbApi.DirectResponse(r.status == 200, r.body.key))).key
            == SelectKey(value)
  {
  }
}
