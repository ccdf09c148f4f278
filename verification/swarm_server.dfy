/** The swarm variant of the service: an Express application whose listener
    opens only after a fixed 60-second delay and whose `/health` probe
    additionally fails for the first 60 seconds after process start. Time
    enters as the uptime `Date.now() - APP_START_TIME` in milliseconds;
    everything the handlers read from the host is an input. */
module SwarmServer {
  import opened Wrappers
  import opened Decimal
  import opened JsMath
  import JsNumber
  import Container

  /** `STARTUP_GRACE_PERIOD_MS`: the health gate. */
  const GracePeriodMs: nat := 60000
  /** The delay of the timer that opens the listener: the same constant. */
  const ListenDelayMs: nat := GracePeriodMs
  const UnknownVersion: string := "unknown"

  /** What a handler reads from the host on each request: the `version` of
      `package.json` (`None` when it cannot be read or parsed), the
      control-group listing, the host name, and the formatted current time. */
  datatype Host = Host(
    packageVersion: Option<string>,
    cgroup: Option<string>,
    hostname: Option<string>,
    isoTime: string)

  /** The decision made by the `/health` handler. */
  datatype HealthReport = HealthReport(
    code: int,
    status: string,
    uptimeSecs: nat,
    readyInSecs: Option<nat>)

  /** JSON bodies, one shape per endpoint; `readyIn` is absent when healthy. */
  datatype Body =
    | HealthBody(status: string, uptime: string, readyIn: Option<string>)
    | ReadyBody(status: string)
    | StatusBody(version: string, container: string, uptime: string, timestamp: string)
    | RootBody(message: string, endpoints: seq<(string, string)>)

  datatype Response = Response(code: int, body: Body)

  datatype Probe = StatusProbe | HealthProbe | ReadyProbe | RootProbe

  /** The template `${n}s`: a seconds count rendered in decimal with an "s"
      suffix; reading it back with parseInt recovers the count. */
  function SecondsText(secs: nat): (t: string)
    ensures |t| >= 2 && t[|t| - 1] == 's'
    ensures IsCanonical(t[..|t| - 1]) && FromDigits(t[..|t| - 1]) == secs
    ensures JsNumber.ParseInt(t) == Some(secs as int)
  {
    JsNumber.ParseIntOfRendering(secs, "s");
    FromToDigits(secs);
    var t := ToDigits(secs) + "s";
    assert t[..|t| - 1] == ToDigits(secs);
    t
  }

  /** `getAppVersion`: the packaged version, or "unknown" when the package
      description cannot be read. */
  function AppVersion(packageVersion: Option<string>): (v: string)
    ensures packageVersion.Some? ==> v == packageVersion.value
    ensures packageVersion.None? ==> v == UnknownVersion
  {
    packageVersion.GetOr(UnknownVersion)
  }

  /** The `/health` decision at a given uptime. */
  function Health(uptimeMs: nat): (r: HealthReport)
    ensures r.code == 503 <==> uptimeMs < GracePeriodMs
    ensures r.code == 200 <==> uptimeMs >= GracePeriodMs
    ensures r.status == "initializing" <==> uptimeMs < GracePeriodMs
    ensures r.status == "ok" <==> uptimeMs >= GracePeriodMs
    ensures IsRoundedSeconds(uptimeMs, r.uptimeSecs)
    ensures r.readyInSecs.Some? <==> uptimeMs < GracePeriodMs
    ensures r.readyInSecs.Some? ==>
      && IsRoundedSeconds(GracePeriodMs - uptimeMs, r.readyInSecs.value)
      && r.readyInSecs.value <= GracePeriodMs / MillisPerSecond
  {
    var uptimeSecs := RoundToSeconds(uptimeMs) as nat;
    if uptimeMs < GracePeriodMs then
      var readyIn := RoundToSeconds(GracePeriodMs - uptimeMs) as nat;
      HealthReport(503, "initializing", uptimeSecs, Some(readyIn))
    else
      HealthReport(200, "ok", uptimeSecs, None)
  }

  /** The JSON body of a `/health` report: the numbers are rendered with the
      seconds template and can be read back from it. */
  function HealthJson(h: HealthReport): (b: Body)
    ensures b.HealthBody? && b.status == h.status
    ensures JsNumber.ParseInt(b.uptime) == Some(h.uptimeSecs as int)
    ensures b.readyIn.Some? <==> h.readyInSecs.Some?
    ensures b.readyIn.Some? ==> JsNumber.ParseInt(b.readyIn.value) == Some(h.readyInSecs.value as int)
    ensures b.uptime == SecondsText(h.uptimeSecs)
    ensures b.readyIn.Some? ==> b.readyIn.value == SecondsText(h.readyInSecs.value)
  {
    var readyIn := match h.readyInSecs
      case Some(secs) => Some(SecondsText(secs))
      case None => None;
    HealthBody(h.status, SecondsText(h.uptimeSecs), readyIn)
  }

  /** The endpoints advertised by `/`. */
  const RootEndpoints: seq<(string, string)> := [
    ("status", "/status - Returns version, container ID, and timestamp"),
    ("health", "/health - Basic health check"),
    ("ready", "/ready - Readiness probe")
  ]

  /** One request to one of the four routes, served at the given uptime. */
  function Respond(probe: Probe, uptimeMs: nat, host: Host): (r: Response)
    ensures r.code == 200 || r.code == 503
    ensures r.code == 503 <==> probe == HealthProbe && uptimeMs < GracePeriodMs
    ensures probe == HealthProbe ==> r.body == HealthJson(Health(uptimeMs))
    ensures probe == ReadyProbe ==> r.body == ReadyBody("ready")
    ensures probe == RootProbe ==> r.body == RootBody("Server is running", RootEndpoints)
    ensures probe == StatusProbe ==>
      && r.body.StatusBody?
      && r.body.version == AppVersion(host.packageVersion)
      && r.body.container == Container.ContainerId(host.cgroup, host.hostname)
      && r.body.timestamp == host.isoTime
      && r.body.uptime == SecondsText(RoundToSeconds(uptimeMs) as nat)
      && JsNumber.ParseInt(r.body.uptime) == Some(RoundToSeconds(uptimeMs))
  {
    match probe
    case StatusProbe =>
      Response(200, StatusBody(
        AppVersion(host.packageVersion),
        Container.ContainerId(host.cgroup, host.hostname),
        SecondsText(RoundToSeconds(uptimeMs) as nat),
        host.isoTime))
    case HealthProbe =>
      var h := Health(uptimeMs);
      Response(h.code, HealthJson(h))
    case ReadyProbe =>
      Response(200, ReadyBody("ready"))
    case RootProbe =>
      Response(200, RootBody("Server is running", RootEndpoints))
  }

  /** The boundary is inclusive on the healthy side. */
  lemma HealthyAtGraceBoundary()
    ensures Health(GracePeriodMs).code == 200 && Health(GracePeriodMs).status == "ok"
    ensures Health(GracePeriodMs - 1).code == 503
  {
  }

  /** Once healthy, always healthy. */
  lemma HealthMonotone(u: nat, u': nat)
    requires u <= u'
    ensures Health(u).code == 200 ==> Health(u').code == 200
  {
  }

  /** While initializing, the two reported second counts add up to the
      grace period, except at an uptime of a whole second plus exactly half a
      second, where both round up and the sum exceeds it by one. */
  lemma HealthSecondsSum(u: nat)
    requires u < GracePeriodMs
    ensures Health(u).readyInSecs.Some?
    ensures var h := Health(u);
      h.uptimeSecs + h.readyInSecs.value ==
        GracePeriodMs / MillisPerSecond + (if u % MillisPerSecond == 500 then 1 else 0)
  {
  }

  /** Rounding lets the 503 body claim a full grace period of uptime: at
      59 500 ms the report is still initializing but says 60 seconds. */
  lemma InitializingAtRoundedGrace()
    ensures Health(59500).code == 503
    ensures Health(59500).uptimeSecs == GracePeriodMs / MillisPerSecond
    ensures Health(59500).readyInSecs == Some(1)
  {
  }

  /** The status and health endpoints report uptime with the same formula. */
  lemma UptimeFieldsAgree(uptimeMs: nat, host: Host)
    ensures Respond(StatusProbe, uptimeMs, host).body.uptime ==
            Respond(HealthProbe, uptimeMs, host).body.uptime
  {
  }

  /** The readiness probe ignores the uptime altogether. */
  lemma ReadyIgnoresUptime(u: nat, u': nat, host: Host, host': Host)
    ensures Respond(ReadyProbe, u, host) == Respond(ReadyProbe, u', host')
  {
  }

  /** The listener is open once the startup timer has fired. The timer is
      taken to fire no earlier than its delay. */
  predicate Listening(startMs: nat, nowMs: nat) {
    nowMs >= startMs + ListenDelayMs
  }

  /** Because the listener is armed with the grace period itself, every
      request that can reach the server finds every probe at 200, and the
      `/health` 503 branch is never observed from outside. */
  lemma ServedRequestsAreOk(probe: Probe, startMs: nat, nowMs: nat, host: Host)
    requires Listening(startMs, nowMs)
    ensures Respond(probe, nowMs - startMs, host).code == 200
    ensures probe == HealthProbe ==>
      Respond(probe, nowMs - startMs, host).body.status == "ok"
  {
  }
}
