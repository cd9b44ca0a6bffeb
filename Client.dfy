/** The `Client` entry point: resolves the API key and the base URL once, at
    construction. Environment lookups are passed in as optional strings. */
module Client {
  import opened Wrappers
  import opened JsValues
  import opened Exceptions
  import opened Transport
  import Messages

  const DefaultBaseUrl: string := "https://server.plexisms.com"
  const MissingKeyMessage: string :=
    "API Key is required. Pass it to the constructor or set PLEXISMS_API_KEY environment variable."

  /** What a constructed client holds: the token for the `Authorization`
      header and the normalised base URL. Neither changes afterwards. */
  datatype Config = Config(token: string, baseUrl: string)

  /** JavaScript truthiness of a string that may be `undefined`. */
  predicate Present(o: Option<string>) {
    Truthy(FromOption(o))
  }

  /** `a || b` on strings that may be `undefined`. */
  function OrElse(a: Option<string>, b: Option<string>): (r: Option<string>)
    ensures Present(r) <==> Present(a) || Present(b)
    ensures Present(a) ==> r == a
    ensures !Present(a) ==> r == b
  {
    if Present(a) then a else b
  }

  /** `OrElse` is JavaScript's `||` on the values the two arguments read as. */
  lemma OrElseIsOr(a: Option<string>, b: Option<string>)
    ensures FromOption(OrElse(a, b)) == Or(FromOption(a), FromOption(b))
  {
  }

  /** `s.replace(/\/$/, "")`: drops one trailing slash, if there is one. */
  function StripTrailingSlash(s: string): (r: string)
    ensures s == r || s == r + "/"
    ensures s == r + "/" <==> |s| > 0 && s[|s| - 1] == '/'
  {
    if |s| > 0 && s[|s| - 1] == '/' then s[..|s| - 1] else s
  }

  /** `new Client(apiKey, baseUrl)` with `PLEXISMS_API_KEY` and
      `PLEXISMS_BASE_URL` read as `envApiKey` and `envBaseUrl`. */
  function New(apiKey: Option<string>, baseUrl: Option<string>,
               envApiKey: Option<string>, envBaseUrl: Option<string>): (r: Result<Config, Error>)
    // construction fails, with an AuthenticationError, exactly when neither key is a non-empty string
    ensures r.Failure? <==> !Present(apiKey) && !Present(envApiKey)
    ensures r.Failure? ==> r.error == AuthenticationError(MissingKeyMessage)
    // otherwise the explicit key wins over the environment, and the token is never empty
    ensures r.Success? ==> r.value.token != ""
    ensures r.Success? && Present(apiKey) ==> r.value.token == apiKey.value
    ensures r.Success? && !Present(apiKey) ==> r.value.token == envApiKey.value
  {
    var token := OrElse(apiKey, envApiKey);
    if !Present(token) then
      Failure(AuthenticationError(MissingKeyMessage))
    else
      var chosen := OrElse(OrElse(baseUrl, envBaseUrl), Some(DefaultBaseUrl));
      Success(Config(token.value, StripTrailingSlash(chosen.value)))
  }

  /** The base URL is the explicit one, else the environment's, else the
      default, with one trailing slash removed. */
  lemma BaseUrlResolution(apiKey: Option<string>, baseUrl: Option<string>,
                          envApiKey: Option<string>, envBaseUrl: Option<string>)
    requires Present(apiKey) || Present(envApiKey)
    ensures var url := New(apiKey, baseUrl, envApiKey, envBaseUrl).value.baseUrl;
      && (Present(baseUrl) ==> url == StripTrailingSlash(baseUrl.value))
      && (!Present(baseUrl) && Present(envBaseUrl) ==> url == StripTrailingSlash(envBaseUrl.value))
      && (!Present(baseUrl) && !Present(envBaseUrl) ==> url == DefaultBaseUrl)
  {
  }

  /** A host written with or without its trailing slash configures the same
      base URL, and one without a trailing slash is kept as it is. */
  lemma TrailingSlashIrrelevant(host: string)
    requires |host| == 0 || host[|host| - 1] != '/'
    ensures StripTrailingSlash(host + "/") == host
    ensures StripTrailingSlash(host) == host
  {
  }

  /** At most one slash is removed: a doubled trailing slash keeps one. */
  lemma StripsAtMostOneSlash(s: string)
    ensures |s| - 1 <= |StripTrailingSlash(s)| <= |s|
    ensures StripTrailingSlash(s + "//") == s + "/"
  {
  }

  // ---------------------------------------------------------------------
  // End-to-end: a facade request sent through a stub transport.

  /** A successful send hands back the server's payload untouched. */
  lemma SendReturnsPayloadUnchanged(transport: HttpRequest -> Outcome, options: Messages.SendSmsOptions, payload: JsValue)
    requires transport(Messages.Create(options)) == Completed(payload)
    ensures Request(transport, Messages.Create(options)) == Success(payload)
  {
  }

  /** A 402 whose body says `{"error": "no funds"}` reaches the caller as a
      BalanceError reading "Insufficient funds: no funds". */
  lemma SendWithoutFunds(transport: HttpRequest -> Outcome, options: Messages.SendSmsOptions, transportMessage: string)
    requires transport(Messages.Create(options)) ==
      Failed(AxiosFailure(transportMessage, Some(HttpResponse(402, JsObject(map["error" := JsString("no funds")])))))
    ensures Request(transport, Messages.Create(options)) == Failure(BalanceError("Insufficient funds: no funds"))
  {
    var f := transport(Messages.Create(options)).failure;
    assert Get(BodyOf(f), "error") == JsString("no funds");
    assert ExtractedMessage(f) == JsString("no funds");
    InsufficientFundsRule(f);
    assert Display(JsString("no funds")) == "no funds";
    assert "Insufficient funds: " + "no funds" == "Insufficient funds: no funds";
  }

  /** Every failed call surfaces as exactly one error, and it is a PlexismsError. */
  lemma FailuresAreClassified(transport: HttpRequest -> Outcome, req: HttpRequest)
    requires transport(req).Failed?
    ensures Request(transport, req).Failure?
    ensures InstanceOf(Request(transport, req).error, PlexismsErrorClass)
  {
  }
}
