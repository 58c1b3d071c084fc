/**
 * Choice of the backend base URL (src/config/api.js). Environment variables
 * and the page's host name are parameters; an unset variable is the empty
 * string, which is falsy in the source's `||` and `if` tests just like an
 * absent one.
 */
module ApiConfig {

  datatype Env = Env(apiBaseUrl: string, railwayApiUrl: string, environment: string, hostname: string)

  const LocalBackend: string := "http://localhost:8000"
  const DefaultBackend: string := "https://your-backend-app.up.railway.app"

  /** `REACT_APP_ENVIRONMENT || 'development'`. */
  function Environment(e: Env): (r: string)
    ensures r != ""
    ensures e.environment != "" ==> r == e.environment
    ensures e.environment == "" ==> r == "development"
  {
    if e.environment != "" then e.environment else "development"
  }

  predicate IsLocalHost(hostname: string) {
    hostname == "localhost" || hostname == "127.0.0.1"
  }

  /** The base URL: explicit setting, then the production Railway URL, then the local backend, then the default. */
  function ApiBaseUrl(e: Env): (url: string)
    ensures url != ""
    ensures e.apiBaseUrl != "" ==> url == e.apiBaseUrl
    ensures url in {e.apiBaseUrl, e.railwayApiUrl, LocalBackend, DefaultBackend}
  {
    if e.apiBaseUrl != "" then e.apiBaseUrl
    else if e.railwayApiUrl != "" && Environment(e) == "production" then e.railwayApiUrl
    else if IsLocalHost(e.hostname) then LocalBackend
    else DefaultBackend
  }

  /** The four rules in priority order, as an independent description of the choice. */
  datatype Rule = Explicit | Railway | Local | Fallback

  const Rules: seq<Rule> := [Explicit, Railway, Local, Fallback]

  predicate Applies(r: Rule, e: Env) {
    match r
    case Explicit => e.apiBaseUrl != ""
    case Railway => e.railwayApiUrl != "" && Environment(e) == "production"
    case Local => IsLocalHost(e.hostname)
    case Fallback => true
  }

  function UrlOf(r: Rule, e: Env): string {
    match r
    case Explicit => e.apiBaseUrl
    case Railway => e.railwayApiUrl
    case Local => LocalBackend
    case Fallback => DefaultBackend
  }

  /** The chosen URL is the one of the first rule, in priority order, that applies. */
  lemma BaseUrlIsFirstApplicableRule(e: Env)
    ensures exists k :: (0 <= k < |Rules| && Applies(Rules[k], e) && ApiBaseUrl(e) == UrlOf(Rules[k], e)
                         && forall j :: 0 <= j < k ==> !Applies(Rules[j], e))
  {
    if Applies(Explicit, e) {
      assert Rules[0] == Explicit;
    } else if Applies(Railway, e) {
      assert Rules[1] == Railway;
    } else if Applies(Local, e) {
      assert Rules[2] == Local;
    } else {
      assert Rules[3] == Fallback;
    }
  }

  /** The Railway URL is chosen only in production and only when no explicit URL is set. */
  lemma RailwayOnlyInProduction(e: Env)
    requires e.railwayApiUrl !in {e.apiBaseUrl, LocalBackend, DefaultBackend}
    ensures ApiBaseUrl(e) == e.railwayApiUrl <==> e.apiBaseUrl == "" && e.railwayApiUrl != "" && Environment(e) == "production"
  {
  }

  /** The exported `apiConfig` object. */
  datatype Config = Config(baseUrl: string, timeoutMs: nat, contentType: string)

  function MakeConfig(e: Env): (c: Config)
    ensures c.baseUrl == ApiBaseUrl(e) && c.baseUrl != ""
    ensures c.timeoutMs == 30000 && c.contentType == "application/json"
  {
    Config(ApiBaseUrl(e), 30000, "application/json")
  }
}
