/** The standalone variant of the service: a bare `http` server whose
    configuration comes from the environment and whose listener opens after a
    configurable delay. Environment variables are inputs, `None` when unset. */
module StandaloneServer {
  import opened Wrappers
  import opened Decimal
  import opened JsNumber

  const DefaultAppVersion: string := "unknown"
  const DefaultStartupDelay: string := "45"

  const JsonType: string := "application/json"
  const TextType: string := "text/plain"
  const NotFoundText: string := "Not Found\n"
  const GreetingPrefix: string := "Hello from App Version: "

  datatype Body =
    | HealthJson(status: string, version: string, message: string)
    | Text(text: string)

  datatype Response = Response(code: int, contentType: string, body: Body)

  /** `process.env.NAME || fallback`: the empty string is falsy, so an
      empty variable falls back exactly like an unset one. */
  function EnvOr(value: Option<string>, fallback: string): (r: string)
    ensures value.Some? && value.value != "" ==> r == value.value
    ensures value.None? || value.value == "" ==> r == fallback
  {
    match value
    case Some(v) => if v != "" then v else fallback
    case None => fallback
  }

  /** `APP_VERSION`: never empty, and the placeholder exactly when the
      variable is unset, empty, or itself says "unknown". */
  function AppVersion(env: Option<string>): (v: string)
    ensures v != ""
    ensures env.Some? && env.value != "" ==> v == env.value
    ensures v == DefaultAppVersion <==>
      env.None? || env.value == "" || env.value == DefaultAppVersion
  {
    EnvOr(env, DefaultAppVersion)
  }

  /** The default delay text parses to 45. */
  lemma DefaultDelayParses()
    ensures ParseInt(DefaultStartupDelay) == Some(45)
  {
    assert TrimStart("45") == "45";
    assert DropSign("45") == "45";
    assert DigitPrefixLength("45") == 2;
    assert FromDigits("45") == 45;
  }

  /** `STARTUP_DELAY_SECONDS`: the variable, or "45" when it is unset or
      empty, read with `parseInt(…, 10)`; `None` is NaN. */
  function StartupDelaySeconds(env: Option<string>): (r: Option<int>)
    ensures env.None? || env.value == "" ==> r == Some(45)
    ensures env.Some? && env.value != "" ==> r == ParseInt(env.value)
  {
    DefaultDelayParses();
    ParseInt(EnvOr(env, DefaultStartupDelay))
  }

  /** The timer delay `STARTUP_DELAY_SECONDS * 1000`; NaN stays NaN. */
  function TimerDelayMs(seconds: Option<int>): (r: Option<int>)
    ensures r.Some? <==> seconds.Some?
    ensures r.Some? ==> r.value % 1000 == 0 && r.value / 1000 == seconds.value
  {
    match seconds
    case Some(s) => Some(s * 1000)
    case None => None
  }

  /** With the variable unset or empty the listener opens after 45 seconds. */
  lemma DefaultTimerDelay(env: Option<string>)
    requires env.None? || env.value == ""
    ensures TimerDelayMs(StartupDelaySeconds(env)) == Some(45000)
  {
  }

  /** A variable holding a decimal numeral, possibly with a unit suffix such
      as "30s", delays the listener by that many whole seconds. */
  lemma {:induction false} ConfiguredTimerDelay(n: nat, suffix: string)
    requires suffix == [] || !IsDigit(suffix[0])
    ensures TimerDelayMs(StartupDelaySeconds(Some(ToDigits(n) + suffix))) == Some(n * 1000)
  {
    ParseIntOfRendering(n, suffix);
  }

  /** The request handler: exact string comparison on the URL and the HTTP method. */
  function Route(url: string, verb: string, appVersion: string): (r: Response)
    ensures r.code == 200 <==> verb == "GET" && (url == "/health" || url == "/")
    ensures r.code == 404 <==> !(verb == "GET" && (url == "/health" || url == "/"))
    ensures r.contentType == JsonType <==> verb == "GET" && url == "/health"
    ensures r.contentType == JsonType ==>
      r.body == HealthJson("OK", appVersion, "App version " + appVersion + " is healthy.")
    ensures verb == "GET" && url == "/" ==>
      r.contentType == TextType && r.body == Text(GreetingPrefix + appVersion + "\n")
    ensures r.code == 404 ==> r.contentType == TextType && r.body == Text(NotFoundText)
  {
    if url == "/health" && verb == "GET" then
      Response(200, JsonType, HealthJson("OK", appVersion, "App version " + appVersion + " is healthy."))
    else if url == "/" && verb == "GET" then
      Response(200, TextType, Text(GreetingPrefix + appVersion + "\n"))
    else
      Response(404, TextType, Text(NotFoundText))
  }

  /** A query string defeats the exact comparison: "/health?x=1" is not found. */
  lemma QueryStringNotFound(url: string, verb: string, appVersion: string)
    requires exists i :: 0 <= i < |url| && url[i] == '?'
    ensures Route(url, verb, appVersion) == Response(404, TextType, Text(NotFoundText))
  {
  }

  /** Only GET is served; HEAD, POST and the rest are not found on every URL. */
  lemma NonGetNotFound(url: string, verb: string, appVersion: string)
    requires verb != "GET"
    ensures Route(url, verb, appVersion).code == 404
  {
  }

  /** The greeting can be read back: stripping its fixed prefix and the
      trailing newline yields the configured version. */
  lemma GreetingCarriesVersion(appVersion: string)
    ensures var r := Route("/", "GET", appVersion);
      && r.body.Text?
      && |r.body.text| == |GreetingPrefix| + |appVersion| + 1
      && r.body.text[|GreetingPrefix|..|r.body.text| - 1] == appVersion
  {
  }
}
