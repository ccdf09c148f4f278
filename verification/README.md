# Boot-delay probes: a verified model

The repository holds two Node.js variants of a service that simulates a slow-booting
container so that an orchestrator can rehearse health checks and rolling updates.

- **swarm** (`swarm/server.js`) is an Express application. It exposes `/status`, `/health`,
  `/ready` and `/`. It opens its listener only after a 60-second timer. Its `/health` probe
  also answers 503 `initializing` for the first 60 000 ms of uptime.
- **standalone** (`standalone/app/server.js`) is a bare `http` server. It reads
  `APP_VERSION` and `STARTUP_DELAY_SECONDS` from the environment and opens its listener
  after `STARTUP_DELAY_SECONDS * 1000` ms. It answers `GET /health`, `GET /` and 404.

The model keeps the pure decisions inside that timer and HTTP glue:

- the health gate and its seconds arithmetic (`Math.round(ms / 1000)`);
- the probe responses of the swarm variant;
- the container-id extraction with the regular expression `/[0-9a-f]{64}/`;
- the environment defaulting of the standalone variant;
- ECMAScript `parseInt(s, 10)` (section 19.2.5 of ECMA-262);
- the standalone request router.

Time enters as an uptime in milliseconds (a `nat`). Whatever a handler reads from the host
is an input: the package version, the control-group listing, the host name and the
formatted clock. Each is an `Option` wherever the source recovers from a failure.

Modules, one per concept:

| file | module | what it holds |
|---|---|---|
| `wrappers.dfy` | `Wrappers` | `Option`, used for unset variables, failed reads, regex misses and NaN |
| `decimal.dfy` | `Decimal` | decimal numerals: rendering of a `nat` and value of a digit string |
| `js_math.dfy` | `JsMath` | `Math.round(ms / 1000)` on integer milliseconds |
| `js_number.dfy` | `JsNumber` | `parseInt(s, 10)`, with NaN as `None` |
| `container.dfy` | `Container` | leftmost 64-hex-digit run, 12-character short id, fallbacks |
| `swarm_server.dfy` | `SwarmServer` | health gate, the four swarm endpoints, listener timing |
| `standalone_server.dfy` | `StandaloneServer` | environment defaults, timer delay, router |

Rounding. `Math.round(ms / 1000)` is written `(ms + 500) / 1000`. Dafny's division by a
positive divisor rounds down, so this is round-half-up for every integer.
`JsMath.IsRoundedSeconds` gives the independent characterisation: `s` is the result
exactly when `1000 s - 500 <= ms < 1000 s + 500`. The floating-point quotient agrees with
this while `ms` stays well below 2^53. Half-way values such as 2.5 are exact doubles. Any
other quotient lies at least 0.001 away from a half-way value.

Behaviours of the code worth knowing, each proved about the model:

- `ready_in` is `Math.round((60000 - uptime) / 1000)`. While initializing, the uptime
  seconds plus `ready_in` is therefore 60, or 61 when the uptime is a whole number of
  seconds plus exactly 500 ms (`SwarmServer.HealthSecondsSum`). A body can also read
  `uptime: "60s"` while still 503, at uptimes 59 500 to 59 999 ms
  (`SwarmServer.InitializingAtRoundedGrace`).
- The swarm grace period is the constant 60 000 ms. The standalone delay is read from
  the environment, but the standalone health probe has no gate: it always answers 200.
- The standalone health body says `"OK"`; the swarm one says `"ok"`.
- The swarm `/` returns a fixed description of the endpoints.
- The swarm listener is armed with the grace period itself, so a request can only arrive
  at an uptime of at least 60 000 ms. The 503 branch of `/health` is therefore never
  observed from outside (`SwarmServer.ServedRequestsAreOk`).

## Model

| member | source | states |
|---|---|---|
| SwarmServer.Health | swarm/server.js:69-84 | 503 with `initializing` exactly when uptime < 60000 ms, 200 with `ok` exactly when uptime >= 60000 ms. The uptime seconds are the round-half-up of ms/1000. `ready_in` is present only while initializing; it is the rounding of (60000 - uptime)/1000 and at most 60 |
| SwarmServer.HealthyAtGraceBoundary | swarm/server.js:72 | the boundary is inclusive on the healthy side: 60000 ms gives 200 `ok`, 59999 ms gives 503 |
| SwarmServer.HealthMonotone | swarm/server.js:71-72 | once `/health` answers 200 it answers 200 at every later uptime |
| SwarmServer.HealthSecondsSum | swarm/server.js:76-77 | while initializing, uptime seconds plus `ready_in` is 60, or 61 exactly when uptime mod 1000 is 500 |
| SwarmServer.InitializingAtRoundedGrace | swarm/server.js:72-77 | at 59500 ms the probe still answers 503, yet reports an uptime of 60 s and `ready_in` of 1 s |
| SwarmServer.HealthJson | swarm/server.js:74-82 | the JSON body copies the status; `uptime` and `ready_in` are the `${n}s` texts of the report's numbers, and parsing them gives those numbers back; `ready_in` is present exactly when the report has one |
| SwarmServer.SecondsText | swarm/server.js:59 | the `${n}s` template is the canonical decimal numeral of `n` (no leading zero) followed by `s`, and parseInt reads `n` back from it |
| SwarmServer.AppVersion | swarm/server.js:41-49 | the packaged version when it can be read, `unknown` otherwise |
| SwarmServer.Respond | swarm/server.js:55-102 | only `/health` below 60000 ms answers 503; everything else answers 200. `/ready` is `{status:'ready'}`; `/` is the fixed message with the three advertised endpoints. `/status` carries the version, the container id, the clock text and the rounded uptime as `${n}s` |
| SwarmServer.UptimeFieldsAgree | swarm/server.js:59-82 | `/status` and `/health` render uptime with the same formula and suffix |
| SwarmServer.ReadyIgnoresUptime | swarm/server.js:87-90 | `/ready` gives the same response at every uptime and on every host |
| SwarmServer.ServedRequestsAreOk | swarm/server.js:105-134 | the listener opens after the same 60000 ms, so every probe served once it is open answers 200, and `/health` says `ok` |
| JsMath.RoundToSeconds | swarm/server.js:59 | the result `s` satisfies 1000 s - 500 <= ms < 1000 s + 500 (round half up), and is non-negative for non-negative ms |
| JsMath.RoundedSecondsUnique | swarm/server.js:76 | that window determines the seconds value uniquely |
| JsMath.RoundToSecondsMonotone | swarm/server.js:59 | a later uptime never reports fewer seconds |
| Decimal.ToDigits | swarm/server.js:59 | rendering a number gives at least one digit, only digits, and no leading zero |
| Container.FirstHexRunFrom | swarm/server.js:23 | the position found starts a run of 64 characters from `[0-9a-f]`, and no earlier position does; `None` means no position does |
| Container.ShortIdFromCgroup | swarm/server.js:22-26 | `None` exactly when the text has no 64-character lower-hex run. Otherwise the id is the first 12 characters of the leftmost run, so it has length 12 and is all lower-case hex |
| Container.ContainerId | swarm/server.js:19-38 | a readable listing with a match yields the short id of its leftmost run, 12 lower-case hex characters. Otherwise the host name is used, and `unknown-container` when that fails too |
| Container.LeftmostMatchWins | swarm/server.js:23-25 | for a full id after text with no run, ending in a non-hex character, the short id is that id's first 12 characters, whatever follows it |
| JsNumber.WhiteSpacePrefixLength | standalone/app/server.js:4 | the count of leading white-space characters: all of them are white space and the next one is not |
| JsNumber.DigitPrefixLength | standalone/app/server.js:4 | the length of the leading digit run: all of them are digits and the next character is not |
| JsNumber.ParseInt | standalone/app/server.js:4 | NaN exactly when the first character after leading white space and an optional sign is not a digit; a negative result only after a leading `-`, and never a positive one after it |
| JsNumber.ParseIntOfNumeral | standalone/app/server.js:4 | white space, an optional sign, digits, then a non-digit parse to the signed value of the digits |
| JsNumber.ParseIntWithoutDigits | standalone/app/server.js:4 | white space and an optional sign followed by no digit parse to NaN |
| JsNumber.LeadingWhiteSpaceIgnored | standalone/app/server.js:4 | prefixing white space never changes the result |
| JsNumber.ParseIntOfRendering | standalone/app/server.js:4 | parsing the decimal rendering of `n`, with any non-digit suffix, gives `n` |
| JsNumber.ParseIntOfNegatedRendering | standalone/app/server.js:4 | parsing `-` followed by the rendering of `n` gives `-n` |
| JsNumber.SuffixIgnoredExample | standalone/app/server.js:4 | `"30s"` parses to 30 |
| JsNumber.HexPrefixExample | standalone/app/server.js:4 | with radix 10, `"0x1F"` parses to 0 |
| JsNumber.NaNExamples | standalone/app/server.js:4 | `""`, `" abc"` and `"+-1"` are NaN |
| StandaloneServer.EnvOr | standalone/app/server.js:3-4 | the falsy-fallback operator: unset and empty both give the fallback, any other value is used verbatim |
| StandaloneServer.AppVersion | standalone/app/server.js:3 | never empty. It is the variable's value when that is non-empty, and `unknown` exactly when the variable is unset, empty or says `unknown` |
| StandaloneServer.DefaultDelayParses | standalone/app/server.js:4 | the default text `"45"` parses to 45 |
| StandaloneServer.StartupDelaySeconds | standalone/app/server.js:4 | 45 when the variable is unset or empty, otherwise parseInt of its value |
| StandaloneServer.TimerDelayMs | standalone/app/server.js:43 | NaN stays NaN; otherwise a whole number of seconds in milliseconds, 1000 times the input |
| StandaloneServer.DefaultTimerDelay | standalone/app/server.js:43 | with the variable unset or empty the listener waits 45000 ms |
| StandaloneServer.ConfiguredTimerDelay | standalone/app/server.js:43 | a variable holding the numeral of `n`, with any unit suffix, gives a delay of `n * 1000` ms |
| StandaloneServer.Route | standalone/app/server.js:15-29 | 200 exactly for `GET /health` and `GET /`, 404 for every other pair. `/health` is JSON `{status:"OK", version, message}`; `/` is the text greeting; everything else is text `Not Found\n` |
| StandaloneServer.QueryStringNotFound | standalone/app/server.js:16-28 | a URL containing `?` is not found, because matching is exact |
| StandaloneServer.NonGetNotFound | standalone/app/server.js:16-28 | any method other than GET is not found, on every URL |
| StandaloneServer.GreetingCarriesVersion | standalone/app/server.js:23-25 | stripping the greeting's fixed prefix and trailing newline yields exactly the configured version |

## Left out

- HTTP transport, Express and `http` listeners, logging middleware and all `console` output: I/O over libraries that are not part of this model.
- Express route matching for the swarm service. This covers case-insensitive paths, trailing slashes, query-string stripping, HEAD handled as GET, and the default 404 page. Its input is a `Probe`, one per registered route.
- `fs.readFileSync` of `package.json` and `/proc/self/cgroup`, and `os.hostname`: they are `Option` inputs.
- SwarmServer.AppVersion: a `package.json` that parses but has no `version` field, which yields `undefined` in the source, is not modelled.
- `Date.now()` and `toISOString()`: uptime is a `nat` parameter and the clock text is a string parameter. An uptime made negative by a clock stepping back is not modelled.
- SwarmServer.ServedRequestsAreOk: assumes the startup timer never fires before its delay; Node's timer scheduling is not modelled.
- StandaloneServer.TimerDelayMs: Node turning a NaN, negative or over-large delay into 1 ms belongs to the timer runtime and is not modelled.
- JsNumber.ParseInt: `-0` is identified with 0, and numerals beyond 2^53 are exact here while JavaScript rounds them to the nearest double.
- JsNumber.ParseIntOfNumeral: `-0` is identified with 0, and numerals beyond 2^53 are exact here while JavaScript rounds them to the nearest double.
- JsNumber.ParseIntOfRendering: `-0` is identified with 0, and numerals beyond 2^53 are exact here while JavaScript rounds them to the nearest double.
- JsNumber.ParseIntOfNegatedRendering: `-0` is identified with 0, and numerals beyond 2^53 are exact here while JavaScript rounds them to the nearest double.
- `JSON.stringify` and `res.json` serialisation, including string escaping: bodies are structured records.
- `PORT` defaulting and the listen call: binding is transport.
- Signal handlers, `server.close`, the 10 s forced exit and `process.exit`. These are asynchronous and signal-driven. The swarm shutdown has no re-entry guard, and the standalone handlers exit at once. No drain state machine exists in the code to model.
- The `server.on('error')` fatal exit: process control.
