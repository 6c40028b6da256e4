/**
 * Environment-variable configuration (internal/config/config.go). The process
 * environment is a map; Go's `os.Getenv` reads an unset variable as "".
 */
module Config {
  import opened Outcomes
  import Text
  import Retry

  type Env = map<string, string>

  datatype Config = Config(
    gluetunPortFile: string,
    qbitAddr: string,
    qbitUser: string,
    qbitPass: string,
    startupRetryDelay: Retry.Duration,
    startupTimeout: Retry.Duration,
    syncInterval: Retry.Duration,
    metricsPort: string,
    logLevel: string,
    webhookURL: string,
    webhookEnabled: bool,
    webhookTimeout: Retry.Duration,
    webhookTemplate: string,
    webhookEvents: seq<string>)

  const DefaultEvent: string := "port_changed"

  /** `os.Getenv`. */
  function Getenv(env: Env, key: string): string {
    if key in env then env[key] else ""
  }

  /** `getEnv`: the variable's value when it is set and non-empty, otherwise the default. */
  function GetEnv(env: Env, key: string, defaultValue: string): (r: string)
    ensures key in env && env[key] != "" ==> r == env[key]
    ensures key !in env || env[key] == "" ==> r == defaultValue
    ensures defaultValue != "" ==> r != ""
  {
    var value := Getenv(env, key);
    if value != "" then value else defaultValue
  }

  /** Go's signed 64-bit wrap-around, as `time.Duration` multiplication overflows. */
  function WrapDuration(x: int): (r: Retry.Duration)
    ensures Retry.MinDuration <= x <= Retry.MaxDuration ==> r == x
    ensures (r - x) % 0x1_0000_0000_0000_0000 == 0
  {
    var m := (x - Retry.MinDuration) % 0x1_0000_0000_0000_0000;
    assert Retry.MinDuration <= x <= Retry.MaxDuration ==> m == x - Retry.MinDuration;
    m + Retry.MinDuration
  }

  /**
   * `getDurationEnv`: a set, non-empty value that `strconv.Atoi` accepts is a number
   * of seconds (`time.Duration(n) * time.Second`, which wraps on overflow); an unset,
   * empty or non-integer value gives the default.
   */
  function GetDurationEnv(env: Env, key: string, defaultValue: Retry.Duration): (r: Retry.Duration)
    ensures key !in env || env[key] == "" || Text.Atoi(env[key]).None? ==> r == defaultValue
    ensures key in env && env[key] != "" && Text.Atoi(env[key]).Some? ==>
              r == WrapDuration(Text.Atoi(env[key]).value * Retry.Second)
  {
    var value := Getenv(env, key);
    if value != "" then
      match Text.Atoi(value)
      case Some(seconds) => WrapDuration(seconds * Retry.Second)
      case None => defaultValue
    else defaultValue
  }

  /** A number of seconds that fits a Duration is converted exactly. */
  lemma GetDurationEnvSeconds(env: Env, key: string, defaultValue: Retry.Duration, n: int)
    requires key in env && Text.Atoi(env[key]) == Some(n)
    requires Retry.MinDuration <= n * Retry.Second <= Retry.MaxDuration
    ensures GetDurationEnv(env, key, defaultValue) == n * Retry.Second
  {
  }

  /** Applies `trim` to each piece and keeps the non-empty results, in order. */
  function KeepTrimmed(trim: string -> string, parts: seq<string>): seq<string>
  {
    if parts == [] then []
    else
      var t := trim(parts[0]);
      (if t != "" then [t] else []) + KeepTrimmed(trim, parts[1..])
  }

  /** Every kept piece is non-empty and, when `trim` only yields trimmed text, trimmed. */
  lemma {:induction false} KeepTrimmedElements(trim: string -> string, parts: seq<string>)
    requires forall s :: Text.IsTrimmed(trim(s))
    ensures forall i :: 0 <= i < |KeepTrimmed(trim, parts)| ==>
      KeepTrimmed(trim, parts)[i] != "" && Text.IsTrimmed(KeepTrimmed(trim, parts)[i])
  {
    if parts != [] {
      var r := KeepTrimmed(trim, parts);
      var rest := KeepTrimmed(trim, parts[1..]);
      var t := trim(parts[0]);
      KeepTrimmedElements(trim, parts[1..]);
      assert r == (if t != "" then [t] else []) + rest;
      forall i | 0 <= i < |r|
        ensures r[i] != "" && Text.IsTrimmed(r[i])
      {
        if t == "" {
          assert r[i] == rest[i];
        } else if i > 0 {
          assert r[i] == rest[i - 1];
        } else {
          assert r[0] == t;
        }
      }
    }
  }

  /** Filtering piecewise preserves the input order: it distributes over concatenation. */
  lemma {:induction false} KeepTrimmedAppend(trim: string -> string, a: seq<string>, b: seq<string>)
    ensures KeepTrimmed(trim, a + b) == KeepTrimmed(trim, a) + KeepTrimmed(trim, b)
  {
    if a == [] {
      assert a + b == b;
    } else {
      assert (a + b)[1..] == a[1..] + b;
      KeepTrimmedAppend(trim, a[1..], b);
    }
  }

  /** Extending the input by one piece extends the result by that piece, trimmed, unless it trims to "". */
  lemma KeepTrimmedSnoc(trim: string -> string, parts: seq<string>, k: nat)
    requires k < |parts|
    ensures KeepTrimmed(trim, parts[..k + 1]) ==
      KeepTrimmed(trim, parts[..k]) + (if trim(parts[k]) != "" then [trim(parts[k])] else [])
  {
    assert parts[..k + 1] == parts[..k] + [parts[k]];
    KeepTrimmedAppend(trim, parts[..k], [parts[k]]);
  }

  /** The events `parseEvents` yields: the default event for "", else the trimmed, non-empty comma-separated pieces. */
  function Events(events: string): (r: seq<string>)
    ensures events == "" ==> r == [DefaultEvent]
    ensures forall i :: 0 <= i < |r| ==> r[i] != "" && Text.IsTrimmed(r[i])
  {
    if events == "" then [DefaultEvent]
    else KeepTrimmedElements(Text.TrimSpace, Text.Split(events, ',')); KeepTrimmed(Text.TrimSpace, Text.Split(events, ','))
  }

  /** `parseEvents`: splits on commas and appends every non-empty trimmed piece. */
  method ParseEvents(events: string) returns (result: seq<string>)
    ensures result == Events(events)
  {
    if events == "" {
      return [DefaultEvent];
    }
    var parts := Text.Split(events, ',');
    result := [];
    for k := 0 to |parts|
      invariant result == KeepTrimmed(Text.TrimSpace, parts[..k])
    {
      var trimmed := Text.TrimSpace(parts[k]);
      KeepTrimmedSnoc(Text.TrimSpace, parts, k);
      if trimmed != "" {
        result := result + [trimmed];
      }
    }
    assert parts[..|parts|] == parts;
  }

  /** A single trimmed event name passes through unchanged. */
  lemma EventsOfOneName(name: string)
    requires name != "" && ',' !in name && Text.IsTrimmed(name)
    ensures Events(name) == [name]
  {
    Text.SplitWithoutSeparator(name, ',');
    assert Text.TrimSpace(name) == name by {
      Text.TrimSpacePadded("", name, "");
      assert "" + name + "" == name;
    }
    assert [name][1..] == [];
    assert KeepTrimmed(Text.TrimSpace, [name]) == [name] + KeepTrimmed(Text.TrimSpace, []);
  }

  /** The default event name is a single trimmed name. */
  lemma DefaultEventsAreDefault()
    ensures Events(DefaultEvent) == [DefaultEvent]
  {
    assert ',' !in DefaultEvent;
    assert Text.IsTrimmed(DefaultEvent);
    EventsOfOneName(DefaultEvent);
  }

  /** Pieces made only of white space leave nothing behind. */
  lemma {:induction false} KeepTrimmedOfSpace(parts: seq<string>)
    requires forall i :: 0 <= i < |parts| ==> Text.AllSpace(parts[i])
    ensures KeepTrimmed(Text.TrimSpace, parts) == []
  {
    if parts != [] {
      Text.TrimSpaceOfSpace(parts[0]);
      KeepTrimmedOfSpace(parts[1..]);
    }
  }

  /** A non-empty setting made only of commas and white space yields no events at all, not the default. */
  lemma EventsOfSeparatorsOnly(events: string)
    requires events != "" && forall i :: 0 <= i < |events| ==> events[i] == ',' || Text.IsSpace(events[i])
    ensures Events(events) == []
  {
    Text.SplitOfSpace(events, ',');
    KeepTrimmedOfSpace(Text.Split(events, ','));
  }

  /** `Load`. */
  function Load(env: Env): (c: Config)
    ensures c.webhookEnabled <==> Getenv(env, "WEBHOOK_URL") != ""
    ensures c.webhookURL == Getenv(env, "WEBHOOK_URL")
    ensures c.webhookEvents == Events(GetEnv(env, "WEBHOOK_EVENTS", DefaultEvent))
  {
    var webhookURL := GetEnv(env, "WEBHOOK_URL", "");
    var webhookEvents := GetEnv(env, "WEBHOOK_EVENTS", DefaultEvent);
    Config(
      gluetunPortFile := GetEnv(env, "GLUETUN_PORT_FILE", "/tmp/gluetun/forwarded_port"),
      qbitAddr := GetEnv(env, "TORRENT_CLIENT_URL", "http://localhost:8080"),
      qbitUser := GetEnv(env, "TORRENT_CLIENT_USER", "admin"),
      qbitPass := GetEnv(env, "TORRENT_CLIENT_PASSWORD", "adminadmin"),
      startupRetryDelay := GetDurationEnv(env, "STARTUP_RETRY_DELAY", 5 * Retry.Second),
      startupTimeout := GetDurationEnv(env, "STARTUP_TIMEOUT", 120 * Retry.Second),
      syncInterval := GetDurationEnv(env, "SYNC_INTERVAL", 300 * Retry.Second),
      metricsPort := GetEnv(env, "METRICS_PORT", "9090"),
      logLevel := GetEnv(env, "LOG_LEVEL", "info"),
      webhookURL := webhookURL,
      webhookEnabled := webhookURL != "",
      webhookTimeout := GetDurationEnv(env, "WEBHOOK_TIMEOUT", 10 * Retry.Second),
      webhookTemplate := GetEnv(env, "WEBHOOK_TEMPLATE", "json"),
      webhookEvents := Events(webhookEvents))
  }

  /** What `getEnv` promises: the variable when it is set and not empty, otherwise the default. */
  predicate FromEnv(env: Env, key: string, defaultValue: string, value: string) {
    if key in env && env[key] != "" then value == env[key] else value == defaultValue
  }

  /**
   * What `getDurationEnv` promises: n seconds, wrapped to 64 bits, when the variable
   * is set to a decimal integer n, otherwise the default.
   */
  predicate DurationFromEnv(env: Env, key: string, defaultValue: int, value: int) {
    if key in env && env[key] != "" && Text.Atoi(env[key]).Some? then
      value == WrapDuration(Text.Atoi(env[key]).value * Retry.Second)
    else value == defaultValue
  }

  /** Which variable feeds which field, and with which default. */
  lemma LoadFields(env: Env)
    ensures var c := Load(env);
      && FromEnv(env, "GLUETUN_PORT_FILE", "/tmp/gluetun/forwarded_port", c.gluetunPortFile)
      && FromEnv(env, "TORRENT_CLIENT_URL", "http://localhost:8080", c.qbitAddr)
      && FromEnv(env, "TORRENT_CLIENT_USER", "admin", c.qbitUser)
      && FromEnv(env, "TORRENT_CLIENT_PASSWORD", "adminadmin", c.qbitPass)
      && DurationFromEnv(env, "STARTUP_RETRY_DELAY", 5 * Retry.Second, c.startupRetryDelay)
      && DurationFromEnv(env, "STARTUP_TIMEOUT", 120 * Retry.Second, c.startupTimeout)
      && DurationFromEnv(env, "SYNC_INTERVAL", 300 * Retry.Second, c.syncInterval)
      && FromEnv(env, "METRICS_PORT", "9090", c.metricsPort)
      && FromEnv(env, "LOG_LEVEL", "info", c.logLevel)
      && FromEnv(env, "WEBHOOK_URL", "", c.webhookURL)
      && DurationFromEnv(env, "WEBHOOK_TIMEOUT", 10 * Retry.Second, c.webhookTimeout)
      && FromEnv(env, "WEBHOOK_TEMPLATE", "json", c.webhookTemplate)
  {
  }

  /** With nothing set (or everything set to ""), every field takes its documented default. */
  lemma LoadDefaults(env: Env)
    requires forall key :: key in env ==> env[key] == ""
    ensures Load(env) == Config(
      "/tmp/gluetun/forwarded_port", "http://localhost:8080", "admin", "adminadmin",
      5 * Retry.Second, 120 * Retry.Second, 300 * Retry.Second, "9090", "info",
      "", false, 10 * Retry.Second, "json", ["port_changed"])
  {
    LoadFields(env);
    var c := Load(env);
    assert c.gluetunPortFile == "/tmp/gluetun/forwarded_port";
    assert c.qbitAddr == "http://localhost:8080";
    assert c.qbitUser == "admin";
    assert c.qbitPass == "adminadmin";
    assert c.startupRetryDelay == 5 * Retry.Second;
    assert c.startupTimeout == 120 * Retry.Second;
    assert c.syncInterval == 300 * Retry.Second;
    assert c.metricsPort == "9090";
    assert c.logLevel == "info";
    assert c.webhookURL == "";
    assert c.webhookTimeout == 10 * Retry.Second;
    assert c.webhookTemplate == "json";
    DefaultEventsAreDefault();
    assert c.webhookEvents == [DefaultEvent];
  }

  /** The "custom values" case of config_test.go: overrides are taken verbatim. */
  lemma LoadCustomValues(env: Env)
    requires "GLUETUN_PORT_FILE" in env && env["GLUETUN_PORT_FILE"] == "/custom/path/port"
    requires "TORRENT_CLIENT_URL" in env && env["TORRENT_CLIENT_URL"] == "http://custom:9090"
    requires "TORRENT_CLIENT_USER" in env && env["TORRENT_CLIENT_USER"] == "testuser"
    requires "TORRENT_CLIENT_PASSWORD" in env && env["TORRENT_CLIENT_PASSWORD"] == "testpass"
    requires "METRICS_PORT" in env && env["METRICS_PORT"] == "8080"
    requires "LOG_LEVEL" in env && env["LOG_LEVEL"] == "debug"
    requires "WEBHOOK_URL" in env && env["WEBHOOK_URL"] == "http://example.com/webhook"
    ensures Load(env).gluetunPortFile == "/custom/path/port"
    ensures Load(env).qbitAddr == "http://custom:9090"
    ensures Load(env).qbitUser == "testuser"
    ensures Load(env).qbitPass == "testpass"
    ensures Load(env).metricsPort == "8080"
    ensures Load(env).logLevel == "debug"
    ensures Load(env).webhookURL == "http://example.com/webhook"
    ensures Load(env).webhookEnabled
  {
    LoadFields(env);
  }

  /** The "custom values" case of config_test.go: numbers of seconds are converted to durations. */
  lemma LoadCustomDurations(env: Env)
    requires "SYNC_INTERVAL" in env && env["SYNC_INTERVAL"] == "120"
    requires "WEBHOOK_TIMEOUT" in env && env["WEBHOOK_TIMEOUT"] == "30"
    ensures Load(env).syncInterval == 120 * Retry.Second
    ensures Load(env).webhookTimeout == 30 * Retry.Second
  {
    assert Text.Atoi("120") == Some(120) by { Text.AtoiFormatInt(120); assert Text.FormatInt(120) == "120"; }
    assert Text.Atoi("30") == Some(30) by { Text.AtoiFormatInt(30); assert Text.FormatInt(30) == "30"; }
    LoadFields(env);
    GetDurationEnvSeconds(env, "SYNC_INTERVAL", 300 * Retry.Second, 120);
    GetDurationEnvSeconds(env, "WEBHOOK_TIMEOUT", 10 * Retry.Second, 30);
  }

  /** The "invalid sync interval" case: a non-integer value falls back to five minutes. */
  lemma LoadInvalidInterval(env: Env)
    requires "SYNC_INTERVAL" in env && env["SYNC_INTERVAL"] == "invalid"
    ensures Load(env).syncInterval == 300 * Retry.Second
  {
    LoadFields(env);
    assert !Text.IsDigit("invalid"[0]);
  }
}
