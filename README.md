# forwardarr, modelled in Dafny

forwardarr keeps qBittorrent's listening port equal to the port that a Gluetun
VPN container has forwarded. Gluetun writes that port into a file. forwardarr
reads the file at start-up, whenever the file is written or created, and on a
periodic timer. It asks qBittorrent's Web API for its current port and sets the
new one when the two differ.

The project models these parts of the program:

- **Retry** (`cmd/forwardarr/retry.go`): the exponential back-off schedule and the attempt count derived from it. Durations are Go `time.Duration`, a signed 64-bit count of nanoseconds, so the doubling is proved not to overflow.
- **Startup** (`cmd/forwardarr/main.go`):
  - the defaults for the start-up retry settings;
  - the log-level switch;
  - the loop that logs in to qBittorrent until the start-up timeout runs out.
- **Config** (`internal/config/config.go`): loading the configuration from an environment, modelled as a `map<string, string>`, and parsing the comma-separated webhook event list.
- **Qbit** (`internal/qbit/client.go`): the Web API client. It is a class with an `authenticated` flag standing for the session cookie. It talks to a scripted server: each request is recorded and answered by the next scripted reply, and a used-up script means a transport error. `Login`, `GetPort`, `SetPort` and `Ping` follow the code's branches, including the re-login on 403 and the recursive retry after it.
- **Watcher** (`internal/sync/watcher.go`, `internal/sync/metrics.go`):
  - reading and validating the port file;
  - the sync step;
  - the event loop, with the four Prometheus metrics as integer fields.

  The file system notifications, the error channel and the ticker become a finite trace of triggers, serviced one at a time. Each trigger carries the file's state at that moment and the clock reading.
- **Webhook** (`internal/webhook/client.go`): the port-change payload and the single POST that delivers it. Only a 2xx status counts as success.
- **Text**: the functions of Go's `strings` and `strconv` that the program relies on: `TrimSpace`, `TrimRight` with one character, `Split` with one character, `Itoa`/`%d` and `Atoi`.

Each stateful operation follows the same pattern:

- A pure function of the old state is the specification. Examples: `Qbit.GetPortSpec`, `Watcher.Sync`, `Watcher.Run` and `Startup.Connect`.
- A class method (`Qbit.Client.GetPort`, `Watcher.Watcher.SyncPort`, `Watcher.Watcher.Start`) or a loop method (`Startup.CreateQbitClientWithRetry`, `Retry.CalculateMaxAttempts`, `Config.ParseEvents`) is proved to compute exactly that function.
- The properties the program promises are lemmas about those functions.

Some points where the model follows the code:

- Re-authentication has no bound. On a 403, `GetPort` and `SetPort` log in again and call themselves again, as often as the server answers 403 and then accepts the login (`Qbit.GetPortAfterReauths` holds for any number of 403 replies). Nothing retries them from outside: the watcher calls each of them once per sync.
- `Ping` logs in again on a 403 but does not ask for the version again.
- A failed sync after a file event is counted twice in `forwardarr_sync_errors` when the write failed. `syncPort` counts it once and the event handler counts it again (`Watcher.ErrorCounting`). A failed periodic sync is only logged.
- When the file's port already equals qBittorrent's, `syncPort` changes neither `lastPort` nor the metrics. So after a restart in which the ports already agree, `lastPort` and the current-port gauge stay 0 (`Watcher.SyncInSync`).
- White space is Go's `unicode.IsSpace`: the Latin-1 spaces plus the other Unicode White_Space characters, not just the ASCII ones.
- `strconv.Atoi` accepts an optional sign and decimal digits within the signed 64-bit range. So a port file may write the port with a leading '+' or with leading zeros (`Watcher.ReadPortAcceptsPlus`, `Watcher.ReadPortAcceptsZeros`).
- `time.Duration(seconds) * time.Second` wraps around modulo 2^64 (`Config.WrapDuration`).
- A 200 preferences reply whose JSON object lacks `listen_port` decodes to port 0 in Go. In the model that is a reply whose `listenPort` is `Some(0)`.

Some files of the source tree show a later version of the program than `internal/sync/watcher.go` and `internal/webhook/client.go`:

- `internal/sync/watcher_test.go:118` and `internal/sync/watcher_test.go:358-361` build a `Watcher` with a `webhookClient` field, which `internal/sync/watcher.go:17-23` does not have.
- `cmd/forwardarr/main.go:46-51,60` calls a four-argument `webhook.NewClient` and `sync.NewWatcher`. `internal/webhook/client.go:30` and `internal/sync/watcher.go:25` take two and three arguments.
- The test server of `internal/sync/watcher_test.go:84-93` reads the new port from a `json` form field, while `SetPort` sends it as `listen_port` (`internal/qbit/client.go:104-105`).

The model follows `internal/sync/watcher.go`, `internal/webhook/client.go` and `internal/qbit/client.go`. It has no webhook hook in the watcher, and `SetPort` posts `listen_port`.

## Model

| member | source | states |
|---|---|---|
| Retry.ExponentialBackoffDelay | cmd/forwardarr/retry.go:5-25 | the doubling loop returns exactly the closed-form schedule `BackoffDelay` and never overflows a 64-bit duration |
| Retry.BackoffDelay | cmd/forwardarr/retry.go:5-25 | specification of `exponentialBackoffDelay` in closed form |
| Retry.BackoffZeroIffInvalid | cmd/forwardarr/retry.go:6-8 | the delay is 0 exactly for an attempt below 1, a base or a budget that is not positive; otherwise it is positive |
| Retry.BackoffWithinBudget | cmd/forwardarr/retry.go:12-23 | the delay never exceeds the remaining budget |
| Retry.BackoffUncapped | cmd/forwardarr/retry.go:10-24 | when no doubling step before the last passes half the budget and the final delay fits in it, the delay is base * 2^(attempt-1) |
| Retry.BackoffHalfCap | cmd/forwardarr/retry.go:15-17 | once a doubling step exceeds half the budget the whole budget is returned |
| Retry.BackoffShortIsUncapped | cmd/forwardarr/retry.go:12-24 | a delay shorter than the budget is the uncapped one, hence at least the base |
| Retry.BackoffExamples | cmd/forwardarr/retry_test.go:8-91 | 5s, 10s, 20s, 40s within a minute; the two caps; 0 for the invalid inputs |
| Retry.Doubled | cmd/forwardarr/retry.go:18 | doubling a positive base never makes it smaller |
| Retry.DoubledMonotone | cmd/forwardarr/retry.go:11-19 | more doublings give a larger delay |
| Retry.MaxAttemptsFrom | cmd/forwardarr/retry.go:32-41 | replaying the schedule from an attempt never lowers the count |
| Retry.MaxAttempts | cmd/forwardarr/retry.go:27-42 | the count is at least 1 |
| Retry.CalculateMaxAttempts | cmd/forwardarr/retry.go:27-42 | the loop returns `MaxAttempts`, replaying the schedule against the shrinking budget |
| Retry.MaxAttemptsFromBound | cmd/forwardarr/retry.go:34-41 | every counted sleep is at least the base and all of them fit in the budget |
| Retry.BoundStep | cmd/forwardarr/retry.go:39-40 | one more sleep of at least the base still fits in the budget it was cut from |
| Retry.MaxAttemptsBound | cmd/forwardarr/retry.go:27-42 | 1 <= attempts and (attempts - 1) * base < timeout |
| Retry.MaxAttemptsExamples | cmd/forwardarr/retry_test.go:93-148 | 5 attempts in 120s, 1 in 3s, 2 in 15s at 10s, 4 in 45s, 1 for invalid input |
| Startup.NormalizeStartupSettings | cmd/forwardarr/main.go:186-198 | both results are positive; a positive setting is kept; otherwise 5s and 120s |
| Startup.NormalizeIdempotent | cmd/forwardarr/main.go:186-198 | normalizing normalized settings changes nothing |
| Startup.NormalizedMaxAttempts | cmd/forwardarr/main.go:24-25 | the announced attempt count for the normalized settings is at least 1 and its base delays fit in the timeout |
| Startup.LogLevelRoundTrip | cmd/forwardarr/main.go:109-122 | each of "debug", "info", "warn", "error" selects its level |
| Startup.LogLevelDefault | cmd/forwardarr/main.go:120-121 | any other string, including other capitalizations, selects info |
| Startup.LogLevel | cmd/forwardarr/main.go:110-122 | specification of the level switch in `setupLogging` |
| Startup.Severity | cmd/forwardarr/main.go:110-122 | specification of the slog severities the four levels stand for |
| Startup.LevelsOrdered | cmd/forwardarr/main.go:110-126 | debug enables everything, error only errors, and the levels are totally ordered |
| Startup.CreateQbitClientWithRetry | cmd/forwardarr/main.go:131-184 | the loop returns a fresh logged-in client exactly when `ConnectSpec` connects, and otherwise the attempt count and the last error of `ConnectSpec` |
| Startup.Connect | cmd/forwardarr/main.go:137-181 | specification of the retry loop of `createQbitClientWithRetry`, from one attempt and clock reading on |
| Startup.AfterAttempt | cmd/forwardarr/main.go:145-180 | specification of what the loop does after one login attempt: stop on success, otherwise give up or sleep the capped back-off and go on |
| Startup.ConnectSpec | cmd/forwardarr/main.go:131-184 | specification of `createQbitClientWithRetry`: the loop from attempt 1 with the deadline start + timeout |
| Startup.NewClientAttempt | cmd/forwardarr/main.go:145 | each attempt is one login request, answered by the next reply, and succeeds exactly on an accepting reply |
| Startup.Logins | cmd/forwardarr/main.go:137-145 | n attempts send n login requests |
| Startup.ConnectSendsLogins | cmd/forwardarr/main.go:137-181 | the loop sends nothing but logins, one per attempt |
| Startup.LoginsConcat | cmd/forwardarr/main.go:137-181 | the logins of consecutive attempts add up |
| Startup.NoTimeNoAttempt | cmd/forwardarr/main.go:133-137 | with no time before the deadline no attempt is made and nothing is sent |
| Startup.FirstAcceptConnects | cmd/forwardarr/main.go:145-152 | a server that accepts the first login yields a logged-in client at attempt 1 |
| Startup.ConnectedIsAuthenticated | cmd/forwardarr/main.go:146-151 | a connected client is authenticated, and a server that refuses every login makes the loop give up |
| Startup.ConnectRefusedAttempts | cmd/forwardarr/main.go:137-181 | against a refusing server with instant attempts, the attempts made match the schedule replay from any point |
| Startup.MaxAttemptsIsExact | cmd/forwardarr/main.go:24-25 | with instant attempts against a refusing server, the loop makes exactly `calculateMaxAttempts` attempts |
| Config.GetEnv | internal/config/config.go:62-67 | a set, non-empty variable wins; otherwise the default |
| Config.Getenv | internal/config/config.go:63 | specification of `os.Getenv`: an unset variable reads as "" |
| Config.GetDurationEnv | internal/config/config.go:69-76 | an unset, empty or non-integer variable gives the default; an integer n gives n seconds, wrapped to 64 bits |
| Config.WrapDuration | internal/config/config.go:72 | the 64-bit wrap-around of the multiplication: equal modulo 2^64, unchanged when in range |
| Config.GetDurationEnvSeconds | internal/config/config.go:71-72 | an integer n whose n seconds fit in 64 bits gives exactly n seconds |
| Config.KeepTrimmedElements | internal/config/config.go:54-58 | every kept event is non-empty and trimmed |
| Config.KeepTrimmed | internal/config/config.go:54-58 | specification of the loop body of `parseEvents`: trim each piece and keep the non-empty ones, in order |
| Config.KeepTrimmedAppend | internal/config/config.go:54-58 | filtering distributes over concatenation |
| Config.KeepTrimmedSnoc | internal/config/config.go:54-58 | one more loop step appends the trimmed part when it is non-empty |
| Config.Events | internal/config/config.go:48-60 | "" gives ["port_changed"]; every event is non-empty and trimmed |
| Config.ParseEvents | internal/config/config.go:48-60 | the loop returns exactly `Events` |
| Config.EventsOfOneName | internal/config/config.go:52-58 | a single trimmed name without commas is parsed as itself |
| Config.DefaultEventsAreDefault | internal/config/config.go:29 | the default event list is ["port_changed"] |
| Config.KeepTrimmedOfSpace | internal/config/config.go:54-58 | pieces of white space only are all dropped |
| Config.EventsOfSeparatorsOnly | internal/config/config.go:48-60 | every non-empty setting made only of commas and white space has no events, not the default |
| Config.Load | internal/config/config.go:27-46 | the webhook is enabled exactly when `WEBHOOK_URL` is set; the events are those of `WEBHOOK_EVENTS` |
| Config.LoadFields | internal/config/config.go:27-46 | each string field is its variable when that is set and not empty, otherwise its default; each duration field is n seconds, wrapped to 64 bits, when its variable is a decimal integer n, otherwise its default |
| Config.LoadDefaults | internal/config/config.go:27-46 | an empty environment gives all defaults |
| Config.LoadCustomValues | internal/config/config_test.go:9-142 | the string variables of the test override their defaults |
| Config.LoadCustomDurations | internal/config/config_test.go:9-142 | "120" and "30" give 120s and 30s |
| Config.LoadInvalidInterval | internal/config/config_test.go:185-230 | a non-integer interval falls back to 5 minutes |
| Qbit.Exchange | internal/qbit/client.go:53 | a round trip records the request and consumes one scripted reply |
| Qbit.LoginRequest | internal/qbit/client.go:49-53 | specification of the login request: a form POST of username and password to /api/v2/auth/login |
| Qbit.PreferencesRequest | internal/qbit/client.go:73 | specification of the GET of /api/v2/app/preferences |
| Qbit.SetPreferencesRequest | internal/qbit/client.go:104-107 | specification of the form POST of `listen_port` to /api/v2/app/setPreferences |
| Qbit.VersionRequest | internal/qbit/client.go:135 | specification of the GET of /api/v2/app/version |
| Qbit.LoginSpec | internal/qbit/client.go:48-70 | a login never consumes more replies than the script has |
| Qbit.GetPortSpec | internal/qbit/client.go:72-101 | the recursion consumes the script, so it ends |
| Qbit.SetPortSpec | internal/qbit/client.go:103-132 | the recursion consumes the script, so it ends |
| Qbit.PingSpec | internal/qbit/client.go:134-154 | specification of `Ping`: one version request; on 403 the result of a fresh login; success only on 200 |
| Qbit.NewClientSpec | internal/qbit/client.go:26-46 | specification of `NewClient`: an unauthenticated session over the server, then one login, whose failure becomes `InitialLoginFailed` |
| Qbit.AcceptsLogin | internal/qbit/client.go:64 | specification of the login check: status 200 and body "Ok." |
| Qbit.NewSettings | internal/qbit/client.go:32-35 | the base URL loses every trailing slash, user and password are kept |
| Qbit.NewClient | internal/qbit/client.go:26-46 | returns a fresh client exactly when the initial login succeeds, wrapping the login's error otherwise |
| Qbit.Client.constructor | internal/qbit/client.go:32-39 | a new client is not yet logged in |
| Qbit.Client.Send | internal/qbit/client.go:53 | one exchange with the server |
| Qbit.Client.Login | internal/qbit/client.go:48-70 | computes `LoginSpec` |
| Qbit.Client.GetPort | internal/qbit/client.go:72-101 | computes `GetPortSpec`, recursing after a successful re-login |
| Qbit.Client.SetPort | internal/qbit/client.go:103-132 | computes `SetPortSpec`, recursing after a successful re-login |
| Qbit.Client.Ping | internal/qbit/client.go:134-154 | computes `PingSpec` |
| Qbit.LoginAcceptedIff | internal/qbit/client.go:63-66 | login succeeds exactly on status 200 with body "Ok."; one request is sent |
| Qbit.GetPortWithoutForbidden | internal/qbit/client.go:72-101 | without a 403, one request is sent and a 200 reply yields its decoded port; other cases are errors |
| Qbit.SetPortWithoutForbidden | internal/qbit/client.go:103-132 | without a 403, one request is sent and only 200 succeeds |
| Qbit.PingWithoutForbidden | internal/qbit/client.go:134-154 | without a 403, one request is sent and only 200 succeeds |
| Qbit.PingForbiddenIsLogin | internal/qbit/client.go:145-147 | after a 403 the result is that of one login, and the version is not asked again |
| Qbit.GetPortReauthRejected | internal/qbit/client.go:83-87 | a rejected re-login ends `GetPort` with that error and no second preferences request |
| Qbit.SetPortReauthRejected | internal/qbit/client.go:117-121 | a rejected re-login ends `SetPort` with that error and no second post |
| Qbit.Reauths | internal/qbit/client.go:83-89 | builds the script of one re-authentication round per given 403 reply: the 403, then an accepted login |
| Qbit.GetPortAfterReauths | internal/qbit/client.go:83-89 | after any number of 403 replies, with any bodies, each followed by an accepted login, a 200 reply yields its port, with one refused request and one login per round |
| Qbit.SetPortAfterReauths | internal/qbit/client.go:117-123 | after any number of 403 replies, with any bodies, each followed by an accepted login, a 200 reply is success |
| Qbit.GetPortReauthOnce | internal/qbit/client_test.go:115-150 | one 403 then success: the port, with the preferences asked twice |
| Qbit.GetPortSendsOnly | internal/qbit/client.go:72-101 | `GetPort` keeps the earlier requests and adds only preference reads and logins |
| Qbit.SetPortSendsOnly | internal/qbit/client.go:103-132 | `SetPort` keeps the earlier requests and adds only logins and posts of this port |
| Qbit.SetPreferencesCarriesPort | internal/qbit/client.go:104-107 | the `listen_port` field parses back to the port |
| Qbit.NewSettingsTrimsSlashes | internal/qbit/client.go:33 | any number of trailing slashes is removed, and nothing else |
| Webhook.NewClient | internal/webhook/client.go:30-38 | keeps the URL and the timeout |
| Webhook.Message | internal/webhook/client.go:47 | specification of the message text "Port changed from <old> to <new>" |
| Webhook.PortChangePayload | internal/webhook/client.go:42-48 | specification of the payload `SendPortChange` builds |
| Webhook.IsSuccess | internal/webhook/client.go:83 | specification of the 2xx test |
| Webhook.Send | internal/webhook/client.go:54-89 | specification of `send`: no request when it cannot be built, otherwise one JSON POST, a success exactly on 2xx |
| Webhook.SendPortChange | internal/webhook/client.go:41-51 | specification of `SendPortChange`: `send` of the port-change payload |
| Webhook.SendPortChangeOutcome | internal/webhook/client.go:41-89 | success exactly on 2xx; at most one POST, to the URL, with the JSON content type and the Forwardarr user agent, carrying the event name, both ports, the timestamp and the message |
| Webhook.StatusExamples | internal/webhook/client_test.go:111-166 | 200, 201, 202 and 204 succeed; 400, 401, 403, 404 and 500 fail |
| Webhook.SplitPortsWords | internal/webhook/client.go:47 | the part of the message after its prefix splits into the two numbers around "to" |
| Webhook.MessageRoundTrip | internal/webhook/client.go:47 | the message names both ports: parsing it back gives them |
| Watcher.ReadPortFromFile | internal/sync/watcher.go:127-144 | every port read lies in [1, 65535] |
| Watcher.ReadPortIff | internal/sync/watcher.go:127-144 | a file yields port p exactly when its trimmed text is an optional '+' and decimal digits, leading zeros allowed, whose value p lies in [1, 65535] |
| Watcher.PortText | internal/sync/watcher.go:133-141 | the text of a valid port, stated without `Atoi`: an optional '+', then decimal digits whose value lies in [1, 65535] |
| Watcher.ReadPortPadded | internal/sync/watcher.go:133-143 | trimmed port text with any white space around it reads as that port |
| Watcher.ReadPortAcceptsPlus | internal/sync/watcher.go:133-137 | a valid port written with a leading '+', with any white space around it, reads back as itself |
| Watcher.ReadPortAcceptsZeros | internal/sync/watcher.go:133-137 | a valid port written with any number of leading zeros, with any white space around it, reads back as itself |
| Watcher.ReadPortRoundTrip | internal/sync/watcher_test.go:214-232 | a valid port with any surrounding white space reads back as itself |
| Watcher.ReadPortRejectsOutOfRange | internal/sync/watcher.go:139-141 | integers outside [1, 65535] ("0", "-1", "65536", "99999") are refused as out of range |
| Watcher.ReadPortRejectsNonNumeric | internal/sync/watcher.go:134-137 | blank files and text that does not start like a number are refused as invalid values |
| Watcher.Sync | internal/sync/watcher.go:96-125 | specification of `syncPort` |
| Watcher.Reconcile | internal/sync/watcher.go:102-124 | specification of `syncPort` once the file gave a port: compare with qBittorrent's port and write it on a mismatch |
| Watcher.Record | internal/sync/watcher.go:109-119 | specification of what a write changes: on success lastPort, the gauge, the sync count and the timestamp; on failure the error count |
| Watcher.ReconcileEffects | internal/sync/watcher.go:102-124 | the qBittorrent half of a sync counts a write failure as an error, counts a successful write as a sync, and keeps the invariant |
| Watcher.SyncPreservesValid | internal/sync/watcher.go:96-125 | a sync keeps lastPort equal to the gauge and 0 or a valid port |
| Watcher.SyncReadFailure | internal/sync/watcher.go:97-100 | an unreadable or invalid file fails the sync before any request, changing nothing |
| Watcher.SyncGetFailure | internal/sync/watcher.go:102-105 | when the current port cannot be read the sync fails without writing and without touching lastPort or metrics |
| Watcher.SyncInSync | internal/sync/watcher.go:109-122 | equal ports: success, nothing written, lastPort and metrics unchanged |
| Watcher.SyncMismatch | internal/sync/watcher.go:109-119 | a mismatch is written; on success lastPort and the gauge are the file's port, one more sync and the timestamp is now; on failure only one more error |
| Watcher.SyncConverges | internal/sync/watcher.go:96-125 | after a successful sync qBittorrent already had the file's port or the last request sent posted it |
| Watcher.SetPortLastRequest | internal/qbit/client.go:103-132 | a successful `SetPort` ends with the post of its port |
| Watcher.SyncCounters | internal/sync/watcher.go:109-119 | the error count rises by one exactly on a failed write; the sync count exactly on a successful one |
| Watcher.FirstClosure | internal/sync/watcher.go:68-84 | locates the first closed channel of a trace, if any |
| Watcher.Relevant | internal/sync/watcher.go:73 | specification of the event filter: the port file, with the Write or Create bit set |
| Watcher.Service | internal/sync/watcher.go:72-91 | specification of one `select` case other than a closed channel |
| Watcher.Run | internal/sync/watcher.go:66-93 | specification of the `for`/`select` loop over a trace of triggers |
| Watcher.StartSpec | internal/sync/watcher.go:48-94 | specification of `Start`: the initial sync, then the loop |
| Watcher.RunStopsIffClosed | internal/sync/watcher.go:66-93 | the loop stops exactly when a channel closes, with that channel's error; sync failures never stop it |
| Watcher.ServicePreservesValid | internal/sync/watcher.go:66-93 | each serviced trigger keeps the invariant |
| Watcher.RunPreservesValid | internal/sync/watcher.go:62-93 | the invariant holds throughout the run |
| Watcher.ServiceCounters | internal/sync/metrics.go:36-42 | servicing a trigger never lowers a counter |
| Watcher.RunCountersMonotone | internal/sync/metrics.go:36-42 | the sync and error counters only increase over a run |
| Watcher.IgnoredTriggers | internal/sync/watcher.go:49-91 | irrelevant events, watcher errors and ticks without a ticker change nothing |
| Watcher.FilterExamples | internal/sync/watcher.go:73 | chmod, remove and rename of the port file and writes to other files are ignored; write and create are handled |
| Watcher.ErrorCounting | internal/sync/watcher.go:73-119 | a failed event sync adds one error plus one more for a failed write; a failed periodic sync adds only the latter |
| Watcher.RunConcat | internal/sync/watcher.go:66-93 | triggers are serviced in order, one at a time: running two traces one after the other is running their concatenation |
| Watcher.Watcher.constructor | internal/sync/watcher.go:25-46 | a new watcher has written no port and all metrics are zero |
| Watcher.Watcher.SyncPort | internal/sync/watcher.go:96-125 | computes `Sync` on the watcher and its client |
| Watcher.Watcher.ReconcilePort | internal/sync/watcher.go:102-124 | computes `Reconcile` once the file gave a port |
| Watcher.Watcher.Handle | internal/sync/watcher.go:67-92 | computes `Service` for one trigger |
| Watcher.Watcher.Start | internal/sync/watcher.go:48-94 | computes `StartSpec`: the initial sync, then the loop over the trace |
| Text.IsSpace | internal/sync/watcher.go:133 | specification of `unicode.IsSpace`, which `strings.TrimSpace` uses |
| Text.TrimLeft | internal/sync/watcher.go:133 | removes exactly the leading white space |
| Text.TrimRight | internal/sync/watcher.go:133 | removes exactly the trailing white space |
| Text.TrimSpace | internal/sync/watcher.go:133 | the result is trimmed and no longer than the input |
| Text.TrimLeftSkipsSpace | internal/config/config.go:55 | leading white space before a string is dropped |
| Text.TrimRightSkipsSpace | internal/config/config.go:55 | trailing white space after a string is dropped |
| Text.TrimSpaceOfSpace | internal/config/config.go:55 | white space alone trims to the empty string |
| Text.TrimSpacePadded | internal/config/config.go:55 | a trimmed string with white space around it trims to itself |
| Text.TrimRightChar | internal/qbit/client.go:33 | exactly the trailing run of the character is removed |
| Text.Split | internal/config/config.go:52 | at least one piece, none containing the separator |
| Text.SplitWithoutSeparator | internal/config/config.go:52 | a text without the separator is a single piece |
| Text.SplitConcat | internal/config/config.go:52 | splitting a separator-free piece, the separator and a rest gives that piece followed by the pieces of the rest |
| Text.SplitOfSpace | internal/config/config.go:52 | text of separators and white space splits into pieces of white space only |
| Text.JoinSplit | internal/config/config.go:52 | joining the pieces rebuilds the text |
| Text.DigitChar | internal/qbit/client.go:105 | the character of a digit denotes it |
| Text.NatToDigits | internal/qbit/client.go:105 | canonical decimal digits that denote the number |
| Text.FormatInt | internal/qbit/client.go:105 | non-empty, with a minus sign exactly for negatives |
| Text.Atoi | internal/sync/watcher.go:134 | a parsed value is 64-bit and the text starts with a sign or digit; `AtoiDigits` states the value |
| Text.AtoiDigits | internal/sync/watcher.go:134 | a parsed value is the value of the digits after an optional '+' or '-' and at least one digit; digits alone are read whenever they fit in 64 bits |
| Text.AtoiPositive | internal/sync/watcher.go:134 | a positive value is parsed exactly from its digits after an optional '+', never after a '-' |
| Text.Zeros | internal/sync/watcher.go:134 | n zero digits |
| Text.LeadingZerosValue | internal/sync/watcher.go:134 | leading zeros do not change the value of a string of digits |
| Text.AtoiFormatInt | internal/qbit/client.go:105 | `Atoi(Itoa(n)) == n` for every 64-bit n |
| Text.FormatIntChars | internal/webhook/client.go:47 | the decimal form holds only digits and '-' |
| Text.FormatIntIsTrimmed | internal/sync/watcher.go:133 | the decimal form has no surrounding white space |

## Left out

- The file system watcher, its channels and the ticker are replaced by a finite trace of triggers. Concurrency, the `select`'s choice among ready channels and the goroutines of `main` are not modelled.
- The failures of `fsnotify.NewWatcher` and of watching the directory in `NewWatcher`, and the closing of the watcher, are left out, because they need the operating system. The constructor models a watcher that was created.
- HTTP, cookies and JSON are replaced by the scripted server. Three failures that cannot happen or cannot be observed without a real network are left out: the failure of `cookiejar.New`, the failure of `json.Marshal` of the webhook payload, and the failure of closing a response body.
- `Webhook.SendPortChange`: the HTTP request context, the client timeout and the UTC conversion of the timestamp are left out. A timeout is one of the transport failures.
- The Prometheus metrics are integers, not `float64`, and the timestamp is the clock reading the caller passes in.
- Clocks, `time.Sleep` and `time.Now` are parameters. A sleep is modelled as lasting exactly as long as asked, so oversleeping is not captured.
- `Startup.CreateQbitClientWithRetry`: the `maxAttempts` argument is only logged, and the model ignores it as the code does.
- `Startup.MaxAttemptsIsExact`: states the attempt count only for instant attempts. With slower attempts the loop may make fewer attempts than announced.
- Logging (`slog`), signal handling, `os.Exit`, the HTTP server of `internal/server` and `pkg/version` are not modelled: they do not take part in keeping the port in sync.
- `setupLogging` is modelled only as the choice of level. The JSON handler it installs is left out.
- The webhook notification on a successful port change is left out. The watcher in `internal/sync/watcher.go` does not have it, although the later files mentioned above do.
- Strings are sequences of Unicode characters. The UTF-8 decoding of the port file, including invalid bytes, is left out.
- `Webhook.MessageRoundTrip`: proved for every pair of ports. No lemma checks the literal text of one concrete message.
