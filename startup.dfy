/**
 * The start-up helpers of cmd/forwardarr/main.go: the defaults for the start-up
 * retry settings, the log-level switch, and the loop that keeps trying to log in
 * to qBittorrent until the start-up timeout runs out.
 *
 * The wall clock becomes numbers: `start` is the clock reading when the loop
 * begins, `latency(n)` the time attempt `n` takes, and a sleep lasts exactly as
 * long as asked. qBittorrent is the scripted server of the Qbit module, shared
 * by all attempts.
 */
module Startup {
  import opened Outcomes
  import Retry
  import Config
  import Qbit

  // ---------------------------------------------------------------------------
  // normalizeStartupSettings
  // ---------------------------------------------------------------------------

  const DefaultRetryDelay: Retry.Duration := 5 * Retry.Second
  const DefaultStartupTimeout: Retry.Duration := 120 * Retry.Second

  /** `normalizeStartupSettings`: a delay or timeout that is not positive falls back to its default. */
  function NormalizeStartupSettings(cfg: Config.Config): (r: (Retry.Duration, Retry.Duration))
    ensures r.0 > 0 && r.1 > 0
    ensures cfg.startupRetryDelay > 0 ==> r.0 == cfg.startupRetryDelay
    ensures cfg.startupTimeout > 0 ==> r.1 == cfg.startupTimeout
    ensures cfg.startupRetryDelay <= 0 ==> r.0 == DefaultRetryDelay
    ensures cfg.startupTimeout <= 0 ==> r.1 == DefaultStartupTimeout
  {
    var retryDelay := if cfg.startupRetryDelay <= 0 then DefaultRetryDelay else cfg.startupRetryDelay;
    var timeout := if cfg.startupTimeout <= 0 then DefaultStartupTimeout else cfg.startupTimeout;
    (retryDelay, timeout)
  }

  /** Normalizing settings that are already normalized changes nothing. */
  lemma NormalizeIdempotent(cfg: Config.Config)
    ensures var (d, t) := NormalizeStartupSettings(cfg);
      NormalizeStartupSettings(cfg.(startupRetryDelay := d, startupTimeout := t)) == (d, t)
  {
  }

  /** With the normalized settings the advertised attempt count is that of the schedule over the whole timeout. */
  lemma NormalizedMaxAttempts(cfg: Config.Config)
    ensures var (d, t) := NormalizeStartupSettings(cfg);
      1 <= Retry.MaxAttempts(d, t) && (Retry.MaxAttempts(d, t) - 1) * d < t
  {
    var (d, t) := NormalizeStartupSettings(cfg);
    Retry.MaxAttemptsBound(d, t);
  }

  // ---------------------------------------------------------------------------
  // setupLogging
  // ---------------------------------------------------------------------------

  /** slog's levels. */
  datatype Level = LevelDebug | LevelInfo | LevelWarn | LevelError

  /** slog's numeric severities. */
  function Severity(l: Level): int {
    match l
    case LevelDebug => -4
    case LevelInfo => 0
    case LevelWarn => 4
    case LevelError => 8
  }

  /** The name the configuration uses for each level. */
  function LevelName(l: Level): string {
    match l
    case LevelDebug => "debug"
    case LevelInfo => "info"
    case LevelWarn => "warn"
    case LevelError => "error"
  }

  /** The switch of `setupLogging`: the four lower-case names; anything else means info. */
  function LogLevel(level: string): (l: Level)
  {
    if level == "debug" then LevelDebug
    else if level == "info" then LevelInfo
    else if level == "warn" then LevelWarn
    else if level == "error" then LevelError
    else LevelInfo
  }

  /** Whether a handler at `threshold` writes a record at `l`. */
  predicate Enabled(threshold: Level, l: Level) {
    Severity(l) >= Severity(threshold)
  }

  /** Each level's name selects that level. */
  lemma LogLevelRoundTrip(l: Level)
    ensures LogLevel(LevelName(l)) == l
  {
  }

  /** A name that is none of the four, in any other spelling ("DEBUG", "", "trace"), gives the info level. */
  lemma LogLevelDefault(level: string)
    requires forall l: Level :: level != LevelName(l)
    ensures LogLevel(level) == LevelInfo
  {
    assert level != LevelName(LevelDebug) && level != LevelName(LevelWarn) && level != LevelName(LevelError);
  }

  /** Debug writes everything, error only errors, and the levels form a chain. */
  lemma LevelsOrdered(a: Level, b: Level)
    ensures Enabled(LevelDebug, b) && Enabled(b, LevelError)
    ensures Enabled(LevelError, b) <==> b == LevelError
    ensures Enabled(a, b) || Enabled(b, a)
    ensures Enabled(a, b) && Enabled(b, a) ==> a == b
  {
  }

  // ---------------------------------------------------------------------------
  // createQbitClientWithRetry
  // ---------------------------------------------------------------------------

  /** How the start-up loop ended: with a logged-in session at some attempt, or having given up. */
  datatype Connection =
    | Connected(session: Qbit.Session, attempt: nat)
    | GaveUp(attempts: nat, lastErr: Option<Qbit.Error>)

  /** The start-up loop gave up: the attempts made, the timeout, and the last login error. */
  datatype StartupError = ConnectFailed(attempts: nat, timeout: Retry.Duration, lastErr: Option<Qbit.Error>)

  /** The credentials the loop connects with. */
  function Credentials(cfg: Config.Config): Qbit.Settings {
    Qbit.NewSettings(cfg.qbitAddr, cfg.qbitUser, cfg.qbitPass)
  }

  /**
   * The loop from clock reading `now`, after `attempt` attempts: while the deadline is
   * ahead, try `NewClient`, then go on as `AfterAttempt` says.
   */
  function Connect(cfg: Config.Config, retryDelay: int, deadline: int, latency: nat -> nat,
                   attempt: nat, now: int, server: Qbit.Remote, lastErr: Option<Qbit.Error>): (out: (Connection, Qbit.Remote))
    decreases if now < deadline then deadline - now else 0, 1
  {
    if now >= deadline then (GaveUp(attempt, lastErr), server)
    else AfterAttempt(cfg, retryDelay, deadline, latency, attempt + 1, now,
                      Qbit.NewClientSpec(cfg.qbitAddr, cfg.qbitUser, cfg.qbitPass, server))
  }

  /**
   * Attempt `a`, begun at `now` before the deadline, gave `result`: keep the client, or
   * sleep the back-off for the time left and go round again, unless no time is left or
   * the back-off is zero.
   */
  function AfterAttempt(cfg: Config.Config, retryDelay: int, deadline: int, latency: nat -> nat,
                        a: nat, now: int, result: (Outcome<Qbit.Error>, Qbit.Session)): (out: (Connection, Qbit.Remote))
    requires now < deadline
    decreases deadline - now, 0
  {
    if result.0.Pass? then (Connected(result.1, a), result.1.remote)
    else
      var t := now + latency(a);
      var remaining := if deadline - t > 0 then deadline - t else 0;
      var sleep := if remaining > 0 then Retry.BackoffDelay(a, retryDelay, remaining) else 0;
      if remaining <= 0 || sleep <= 0 then (GaveUp(a, Some(result.0.error)), result.1.remote)
      else
        Retry.BackoffWithinBudget(a, retryDelay, remaining);
        Connect(cfg, retryDelay, deadline, latency, a, t + sleep, result.1.remote, Some(result.0.error))
  }

  /** The whole loop, begun at `start` with no attempt made and no error seen. */
  function ConnectSpec(cfg: Config.Config, retryDelay: int, timeout: int, latency: nat -> nat,
                       start: int, server: Qbit.Remote): (out: (Connection, Qbit.Remote))
  {
    Connect(cfg, retryDelay, start + timeout, latency, 0, start, server, None)
  }

  /** `createQbitClientWithRetry`. `maxAttempts` is only logged. */
  method CreateQbitClientWithRetry(cfg: Config.Config, retryDelay: Retry.Duration, startupTimeout: Retry.Duration,
                                   maxAttempts: int, server: Qbit.Remote, start: int, latency: nat -> nat)
    returns (r: Result<Qbit.Client, StartupError>, after: Qbit.Remote)
    ensures var (conn, remote) := ConnectSpec(cfg, retryDelay, startupTimeout, latency, start, server);
      && after == remote
      && (r.Ok? <==> conn.Connected?)
      && (r.Ok? ==> fresh(r.value) && r.value.Config() == Credentials(cfg) && r.value.State() == conn.session)
      && (r.Err? ==> r.error == ConnectFailed(conn.attempts, startupTimeout, conn.lastErr))
  {
    var deadline := start + startupTimeout;
    var now := start;
    var attempt: nat := 0;
    var lastErr: Option<Qbit.Error> := None;
    after := server;
    while now < deadline
      invariant start <= now
      invariant Connect(cfg, retryDelay, deadline, latency, attempt, now, after, lastErr)
             == ConnectSpec(cfg, retryDelay, startupTimeout, latency, start, server)
      decreases deadline - now
    {
      ghost var result := Qbit.NewClientSpec(cfg.qbitAddr, cfg.qbitUser, cfg.qbitPass, after);
      assert Connect(cfg, retryDelay, deadline, latency, attempt, now, after, lastErr)
          == AfterAttempt(cfg, retryDelay, deadline, latency, attempt + 1, now, result);
      attempt := attempt + 1;
      var client, remote := Qbit.NewClient(cfg.qbitAddr, cfg.qbitUser, cfg.qbitPass, after);
      after := remote;
      if client.Ok? {
        return Ok(client.value), after;
      }
      lastErr := Some(client.error);
      var t := now + latency(attempt);
      var remaining: Retry.Duration := if deadline - t > 0 then deadline - t else 0;
      var sleep: Retry.Duration := 0;
      if remaining > 0 {
        sleep := Retry.ExponentialBackoffDelay(attempt, retryDelay, remaining);
      }
      if remaining <= 0 || sleep <= 0 {
        break;
      }
      Retry.BackoffWithinBudget(attempt, retryDelay, remaining);
      now := t + sleep;
    }
    return Err(ConnectFailed(attempt, startupTimeout, lastErr)), after;
  }

  // ---------------------------------------------------------------------------
  // Properties
  // ---------------------------------------------------------------------------

  /** Each attempt is one login request with the configured credentials, answered by the next reply. */
  lemma NewClientAttempt(cfg: Config.Config, server: Qbit.Remote)
    ensures var (outcome, s) := Qbit.NewClientSpec(cfg.qbitAddr, cfg.qbitUser, cfg.qbitPass, server);
      && s.remote.received == server.received + [Qbit.LoginRequest(Credentials(cfg))]
      && s.remote.script == (if server.script == [] then [] else server.script[1..])
      && (outcome.Pass? <==> server.script != [] && Qbit.AcceptsLogin(server.script[0]))
      && (outcome.Pass? ==> s.authenticated)
  {
  }

  /** `n` login requests. */
  function Logins(cfg: Config.Config, n: nat): (r: seq<Qbit.Request>)
    ensures |r| == n
  {
    if n == 0 then [] else Logins(cfg, n - 1) + [Qbit.LoginRequest(Credentials(cfg))]
  }

  /** The number of attempts the loop made. */
  function AttemptsMade(conn: Connection): nat {
    if conn.Connected? then conn.attempt else conn.attempts
  }

  /** The loop sends nothing but logins, one per attempt. */
  lemma {:induction false} ConnectSendsLogins(cfg: Config.Config, retryDelay: int, deadline: int, latency: nat -> nat,
                                              attempt: nat, now: int, server: Qbit.Remote, lastErr: Option<Qbit.Error>)
    ensures var (conn, remote) := Connect(cfg, retryDelay, deadline, latency, attempt, now, server, lastErr);
      AttemptsMade(conn) >= attempt
      && remote.received == server.received + Logins(cfg, AttemptsMade(conn) - attempt)
    decreases if now < deadline then deadline - now else 0
  {
    if now < deadline {
      var a := attempt + 1;
      NewClientAttempt(cfg, server);
      var (outcome, s) := Qbit.NewClientSpec(cfg.qbitAddr, cfg.qbitUser, cfg.qbitPass, server);
      assert Connect(cfg, retryDelay, deadline, latency, attempt, now, server, lastErr)
          == AfterAttempt(cfg, retryDelay, deadline, latency, a, now, (outcome, s));
      assert Logins(cfg, 1) == [Qbit.LoginRequest(Credentials(cfg))];
      if outcome.Fail? {
        var t := now + latency(a);
        var remaining := if deadline - t > 0 then deadline - t else 0;
        var sleep := if remaining > 0 then Retry.BackoffDelay(a, retryDelay, remaining) else 0;
        if remaining > 0 && sleep > 0 {
          Retry.BackoffWithinBudget(a, retryDelay, remaining);
          ConnectSendsLogins(cfg, retryDelay, deadline, latency, a, t + sleep, s.remote, Some(outcome.error));
          var (conn, remote) := Connect(cfg, retryDelay, deadline, latency, a, t + sleep, s.remote, Some(outcome.error));
          LoginsConcat(cfg, 1, AttemptsMade(conn) - a);
        }
      }
    }
  }

  lemma {:induction false} LoginsConcat(cfg: Config.Config, m: nat, n: nat)
    ensures Logins(cfg, m) + Logins(cfg, n) == Logins(cfg, m + n)
  {
    if n > 0 {
      LoginsConcat(cfg, m, n - 1);
    }
  }

  /** A loop given no time makes no attempt and sends nothing. */
  lemma NoTimeNoAttempt(cfg: Config.Config, retryDelay: int, timeout: int, latency: nat -> nat, start: int, server: Qbit.Remote)
    requires timeout <= 0
    ensures ConnectSpec(cfg, retryDelay, timeout, latency, start, server) == (GaveUp(0, None), server)
  {
  }

  /** A server that accepts the first login gives a logged-in client at the first attempt. */
  lemma FirstAcceptConnects(cfg: Config.Config, retryDelay: int, timeout: int, latency: nat -> nat, start: int, server: Qbit.Remote)
    requires timeout > 0 && server.script != [] && Qbit.AcceptsLogin(server.script[0])
    ensures ConnectSpec(cfg, retryDelay, timeout, latency, start, server)
         == (Connected(Qbit.Session(true, Qbit.Remote(server.script[1..], server.received + [Qbit.LoginRequest(Credentials(cfg))])), 1),
             Qbit.Remote(server.script[1..], server.received + [Qbit.LoginRequest(Credentials(cfg))]))
  {
    NewClientAttempt(cfg, server);
    assert ConnectSpec(cfg, retryDelay, timeout, latency, start, server)
        == AfterAttempt(cfg, retryDelay, start + timeout, latency, 1, start,
                        Qbit.NewClientSpec(cfg.qbitAddr, cfg.qbitUser, cfg.qbitPass, server));
  }

  /** A server that turns down every login. */
  predicate Refuses(server: Qbit.Remote) {
    forall i :: 0 <= i < |server.script| ==> !Qbit.AcceptsLogin(server.script[i])
  }

  /** A connected loop holds a logged-in session. */
  lemma {:induction false} ConnectedIsAuthenticated(cfg: Config.Config, retryDelay: int, deadline: int, latency: nat -> nat,
                                                    attempt: nat, now: int, server: Qbit.Remote, lastErr: Option<Qbit.Error>)
    ensures var (conn, _) := Connect(cfg, retryDelay, deadline, latency, attempt, now, server, lastErr);
      conn.Connected? ==> conn.session.authenticated
    ensures Refuses(server) ==> Connect(cfg, retryDelay, deadline, latency, attempt, now, server, lastErr).0.GaveUp?
    decreases if now < deadline then deadline - now else 0
  {
    if now < deadline {
      var a := attempt + 1;
      NewClientAttempt(cfg, server);
      var (outcome, s) := Qbit.NewClientSpec(cfg.qbitAddr, cfg.qbitUser, cfg.qbitPass, server);
      assert Connect(cfg, retryDelay, deadline, latency, attempt, now, server, lastErr)
          == AfterAttempt(cfg, retryDelay, deadline, latency, a, now, (outcome, s));
      if outcome.Fail? {
        var t := now + latency(a);
        var remaining := if deadline - t > 0 then deadline - t else 0;
        var sleep := if remaining > 0 then Retry.BackoffDelay(a, retryDelay, remaining) else 0;
        if remaining > 0 && sleep > 0 {
          Retry.BackoffWithinBudget(a, retryDelay, remaining);
          assert Refuses(server) ==> Refuses(s.remote) by {
            if Refuses(server) && server.script != [] {
              assert forall i :: 0 <= i < |s.remote.script| ==> s.remote.script[i] == server.script[i + 1];
            }
          }
          ConnectedIsAuthenticated(cfg, retryDelay, deadline, latency, a, t + sleep, s.remote, Some(outcome.error));
        }
      }
    }
  }

  /**
   * With instant attempts and a server that refuses every login, the loop makes
   * exactly the number of attempts `calculateMaxAttempts` announces.
   */
  lemma {:induction false} ConnectRefusedAttempts(cfg: Config.Config, retryDelay: int, deadline: int,
                                                  attempt: nat, now: int, server: Qbit.Remote, lastErr: Option<Qbit.Error>)
    requires now < deadline && Refuses(server)
    ensures Connect(cfg, retryDelay, deadline, _ => 0, attempt, now, server, lastErr).0.GaveUp?
    ensures Connect(cfg, retryDelay, deadline, _ => 0, attempt, now, server, lastErr).0.attempts
         == Retry.MaxAttemptsFrom(attempt + 1, retryDelay, deadline - now)
    decreases deadline - now
  {
    var a := attempt + 1;
    NewClientAttempt(cfg, server);
    var (outcome, s) := Qbit.NewClientSpec(cfg.qbitAddr, cfg.qbitUser, cfg.qbitPass, server);
    assert Connect(cfg, retryDelay, deadline, _ => 0, attempt, now, server, lastErr)
        == AfterAttempt(cfg, retryDelay, deadline, _ => 0, a, now, (outcome, s));
    assert outcome.Fail? by {
      if server.script != [] {
        assert !Qbit.AcceptsLogin(server.script[0]);
      }
    }
    var remaining := deadline - now;
    var sleep := Retry.BackoffDelay(a, retryDelay, remaining);
    Retry.BackoffWithinBudget(a, retryDelay, remaining);
    if sleep > 0 && sleep < remaining {
      assert Refuses(s.remote) by {
        if server.script != [] {
          assert forall i :: 0 <= i < |s.remote.script| ==> s.remote.script[i] == server.script[i + 1];
        }
      }
      ConnectRefusedAttempts(cfg, retryDelay, deadline, a, now + sleep, s.remote, Some(outcome.error));
    } else if sleep > 0 {
      assert Connect(cfg, retryDelay, deadline, _ => 0, a, now + sleep, s.remote, Some(outcome.error)).0 == GaveUp(a, Some(outcome.error));
    }
  }

  /** The announced attempt count is exact for instant attempts against a server that refuses every login. */
  lemma MaxAttemptsIsExact(cfg: Config.Config, retryDelay: int, timeout: int, start: int, server: Qbit.Remote)
    requires timeout > 0 && Refuses(server)
    ensures ConnectSpec(cfg, retryDelay, timeout, _ => 0, start, server).0.GaveUp?
    ensures ConnectSpec(cfg, retryDelay, timeout, _ => 0, start, server).0.attempts == Retry.MaxAttempts(retryDelay, timeout)
  {
    ConnectRefusedAttempts(cfg, retryDelay, start + timeout, 0, start, server, None);
    if retryDelay <= 0 {
      assert Retry.BackoffDelay(1, retryDelay, timeout) == 0;
    }
  }
}
