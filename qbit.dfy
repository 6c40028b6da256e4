/**
 * The qBittorrent Web API client of internal/qbit/client.go.
 *
 * The HTTP transport, the cookie jar and the JSON decoder are replaced by a
 * scripted server: every request the client issues is recorded and answered by
 * the next reply of a finite script, and a server whose script is used up no
 * longer answers (a transport error). A reply carries its status code, its body
 * and what decoding that body as the preferences JSON object yields. The session
 * cookie is an `authenticated` flag: a successful login sets it, a 403 shows that
 * the server no longer accepts it.
 */
module Qbit {
  import opened Outcomes
  import Text

  // ---------------------------------------------------------------------------
  // Requests, replies and the scripted server
  // ---------------------------------------------------------------------------

  /** A request as it goes on the wire: a GET of a URL, or a form POST to a URL. */
  datatype Request = Get(url: string) | PostForm(url: string, form: map<string, string>)

  /**
   * What the server does with one request: no answer (`TransportError`), or a
   * reply whose body, read as the preferences object, decodes to `listenPort`
   * (None when the body is not such an object).
   */
  datatype Reply = TransportError | Reply(status: int, body: string, listenPort: Option<int>)

  /** The server: the replies it still has to give, and every request it has received. */
  datatype Remote = Remote(script: seq<Reply>, received: seq<Request>)

  /** One round trip: the request is recorded; the next scripted reply answers it. */
  function Exchange(r: Remote, req: Request): (out: (Reply, Remote))
    ensures out.1.received == r.received + [req]
    ensures r.script == [] ==> out.0 == TransportError && out.1.script == []
    ensures r.script != [] ==> out.0 == r.script[0] && out.1.script == r.script[1..]
  {
    if r.script == [] then (TransportError, Remote([], r.received + [req]))
    else (r.script[0], Remote(r.script[1..], r.received + [req]))
  }

  const StatusOK: int := 200
  const StatusForbidden: int := 403

  const LoginPath: string := "/api/v2/auth/login"
  const PreferencesPath: string := "/api/v2/app/preferences"
  const SetPreferencesPath: string := "/api/v2/app/setPreferences"
  const VersionPath: string := "/api/v2/app/version"

  /** What went wrong, with the cause a wrapped Go error carries. */
  datatype Error =
    | LoginRequestFailed                       // the login request got no answer
    | LoginRejected(status: int, body: string) // a refused login, with its status and body
    | GetPreferencesFailed                     // the preferences request got no answer
    | SetPreferencesFailed                     // the preferences update got no answer
    | PingFailed                               // the version request got no answer
    | ReauthFailed(cause: Error)               // the login after a 403 failed, for this reason
    | UnexpectedStatus(status: int)            // a status other than 200 or 403 from `GetPort` or `Ping`
    | UnexpectedStatusBody(status: int, body: string) // a status other than 200 or 403 from `SetPort`, with the body
    | DecodeFailed                             // the preferences body was not JSON
    | InitialLoginFailed(cause: Error)         // the login made by the constructor failed

  /** The client's fixed settings. */
  datatype Settings = Settings(baseURL: string, user: string, pass: string)

  /** The client's changing state: whether it holds a session, and the server it talks to. */
  datatype Session = Session(authenticated: bool, remote: Remote)

  function LoginRequest(c: Settings): Request {
    PostForm(c.baseURL + LoginPath, map["username" := c.user, "password" := c.pass])
  }

  function PreferencesRequest(c: Settings): Request {
    Get(c.baseURL + PreferencesPath)
  }

  function SetPreferencesRequest(c: Settings, port: int): Request {
    PostForm(c.baseURL + SetPreferencesPath, map["listen_port" := Text.FormatInt(port)])
  }

  function VersionRequest(c: Settings): Request {
    Get(c.baseURL + VersionPath)
  }

  /** The reply that accepts a login: status 200 and the body "Ok." exactly. */
  predicate AcceptsLogin(reply: Reply) {
    reply.Reply? && reply.status == StatusOK && reply.body == "Ok."
  }

  // ---------------------------------------------------------------------------
  // The operations, as functions of the session
  // ---------------------------------------------------------------------------

  /** `Login`: one login POST; success sets the session, failure leaves it as it was. */
  function LoginSpec(c: Settings, s: Session): (out: (Outcome<Error>, Session))
    ensures |out.1.remote.script| <= |s.remote.script|
  {
    var (reply, remote) := Exchange(s.remote, LoginRequest(c));
    if reply.TransportError? then (Fail(LoginRequestFailed), Session(s.authenticated, remote))
    else if !AcceptsLogin(reply) then (Fail(LoginRejected(reply.status, reply.body)), Session(s.authenticated, remote))
    else (Pass, Session(true, remote))
  }

  /** `GetPort`: reads the preferences; on 403 logs in again and starts over. */
  function GetPortSpec(c: Settings, s: Session): (out: (Result<int, Error>, Session))
    ensures |out.1.remote.script| <= |s.remote.script|
    decreases |s.remote.script|
  {
    var (reply, remote) := Exchange(s.remote, PreferencesRequest(c));
    if reply.TransportError? then (Err(GetPreferencesFailed), Session(s.authenticated, remote))
    else if reply.status == StatusForbidden then
      var (login, s') := LoginSpec(c, Session(false, remote));
      if login.Fail? then (Err(ReauthFailed(login.error)), s')
      else GetPortSpec(c, s')
    else if reply.status != StatusOK then (Err(UnexpectedStatus(reply.status)), Session(s.authenticated, remote))
    else if reply.listenPort.None? then (Err(DecodeFailed), Session(s.authenticated, remote))
    else (Ok(reply.listenPort.value), Session(s.authenticated, remote))
  }

  /** `SetPort`: posts the new listening port; on 403 logs in again and starts over. */
  function SetPortSpec(c: Settings, port: int, s: Session): (out: (Outcome<Error>, Session))
    ensures |out.1.remote.script| <= |s.remote.script|
    decreases |s.remote.script|
  {
    var (reply, remote) := Exchange(s.remote, SetPreferencesRequest(c, port));
    if reply.TransportError? then (Fail(SetPreferencesFailed), Session(s.authenticated, remote))
    else if reply.status == StatusForbidden then
      var (login, s') := LoginSpec(c, Session(false, remote));
      if login.Fail? then (Fail(ReauthFailed(login.error)), s')
      else SetPortSpec(c, port, s')
    else if reply.status != StatusOK then (Fail(UnexpectedStatusBody(reply.status, reply.body)), Session(s.authenticated, remote))
    else (Pass, Session(s.authenticated, remote))
  }

  /** `Ping`: asks for the version; on 403 the result is that of a fresh login. */
  function PingSpec(c: Settings, s: Session): (out: (Outcome<Error>, Session))
  {
    var (reply, remote) := Exchange(s.remote, VersionRequest(c));
    if reply.TransportError? then (Fail(PingFailed), Session(s.authenticated, remote))
    else if reply.status == StatusForbidden then LoginSpec(c, Session(false, remote))
    else if reply.status != StatusOK then (Fail(UnexpectedStatus(reply.status)), Session(s.authenticated, remote))
    else (Pass, Session(s.authenticated, remote))
  }

  /** The settings `NewClient` stores: the base URL without its trailing slashes. */
  function NewSettings(baseURL: string, user: string, pass: string): (c: Settings)
    ensures c.baseURL == Text.TrimRightChar(baseURL, '/') && c.user == user && c.pass == pass
  {
    Settings(Text.TrimRightChar(baseURL, '/'), user, pass)
  }

  // ---------------------------------------------------------------------------
  // The client object
  // ---------------------------------------------------------------------------

  class Client {
    const baseURL: string
    const user: string
    const pass: string
    var authenticated: bool
    var remote: Remote

    function Config(): Settings {
      Settings(baseURL, user, pass)
    }

    function State(): Session
      reads this
    {
      Session(authenticated, remote)
    }

    /** A client without a session, before any request. */
    constructor (settings: Settings, server: Remote)
      ensures Config() == settings && State() == Session(false, server)
    {
      baseURL := settings.baseURL;
      user := settings.user;
      pass := settings.pass;
      authenticated := false;
      remote := server;
    }

    /** Sends one request and waits for its reply. */
    method Send(req: Request) returns (reply: Reply)
      modifies this
      ensures (reply, remote) == Exchange(old(remote), req)
      ensures authenticated == old(authenticated)
    {
      var out := Exchange(remote, req);
      reply := out.0;
      remote := out.1;
    }

    method Login() returns (err: Outcome<Error>)
      modifies this
      ensures (err, State()) == LoginSpec(Config(), old(State()))
    {
      var reply := Send(LoginRequest(Config()));
      if reply.TransportError? {
        return Fail(LoginRequestFailed);
      }
      if reply.status != StatusOK || reply.body != "Ok." {
        return Fail(LoginRejected(reply.status, reply.body));
      }
      authenticated := true;
      return Pass;
    }

    method GetPort() returns (r: Result<int, Error>)
      modifies this
      ensures (r, State()) == GetPortSpec(Config(), old(State()))
      decreases |remote.script|
    {
      var reply := Send(PreferencesRequest(Config()));
      if reply.TransportError? {
        return Err(GetPreferencesFailed);
      }
      if reply.status == StatusForbidden {
        authenticated := false;
        var err := Login();
        if err.Fail? {
          return Err(ReauthFailed(err.error));
        }
        r := GetPort();
        return;
      }
      if reply.status != StatusOK {
        return Err(UnexpectedStatus(reply.status));
      }
      if reply.listenPort.None? {
        return Err(DecodeFailed);
      }
      return Ok(reply.listenPort.value);
    }

    method SetPort(port: int) returns (err: Outcome<Error>)
      modifies this
      ensures (err, State()) == SetPortSpec(Config(), port, old(State()))
      decreases |remote.script|
    {
      var reply := Send(SetPreferencesRequest(Config(), port));
      if reply.TransportError? {
        return Fail(SetPreferencesFailed);
      }
      if reply.status == StatusForbidden {
        authenticated := false;
        var loginErr := Login();
        if loginErr.Fail? {
          return Fail(ReauthFailed(loginErr.error));
        }
        err := SetPort(port);
        return;
      }
      if reply.status != StatusOK {
        return Fail(UnexpectedStatusBody(reply.status, reply.body));
      }
      return Pass;
    }

    method Ping() returns (err: Outcome<Error>)
      modifies this
      ensures (err, State()) == PingSpec(Config(), old(State()))
    {
      var reply := Send(VersionRequest(Config()));
      if reply.TransportError? {
        return Fail(PingFailed);
      }
      if reply.status == StatusForbidden {
        authenticated := false;
        err := Login();
        return;
      }
      if reply.status != StatusOK {
        return Fail(UnexpectedStatus(reply.status));
      }
      return Pass;
    }
  }

  /** What `NewClient` returns, as a function of its arguments and the server. */
  function NewClientSpec(baseURL: string, user: string, pass: string, server: Remote): (out: (Outcome<Error>, Session))
  {
    var (login, s) := LoginSpec(NewSettings(baseURL, user, pass), Session(false, server));
    (if login.Fail? then Fail(InitialLoginFailed(login.error)) else Pass, s)
  }

  /** `NewClient`: trims the base URL, then logs in; a failed login yields no client. */
  method NewClient(baseURL: string, user: string, pass: string, server: Remote) returns (r: Result<Client, Error>, after: Remote)
    ensures var (outcome, s) := NewClientSpec(baseURL, user, pass, server);
      && after == s.remote
      && (outcome.Fail? <==> r.Err?)
      && (r.Err? ==> r.error == outcome.error)
      && (r.Ok? ==> fresh(r.value) && r.value.Config() == NewSettings(baseURL, user, pass) && r.value.State() == s)
  {
    var client := new Client(NewSettings(baseURL, user, pass), server);
    var err := client.Login();
    after := client.remote;
    if err.Fail? {
      return Err(InitialLoginFailed(err.error)), after;
    }
    return Ok(client), after;
  }

  // ---------------------------------------------------------------------------
  // Properties
  // ---------------------------------------------------------------------------

  /** `Login` succeeds exactly on a 200 "Ok." reply; it sends one request and never retries. */
  lemma LoginAcceptedIff(c: Settings, s: Session)
    ensures var (err, s') := LoginSpec(c, s);
      && (err == Pass <==> s.remote.script != [] && AcceptsLogin(s.remote.script[0]))
      && s'.remote.received == s.remote.received + [LoginRequest(c)]
      && s'.authenticated == (err == Pass || s.authenticated)
  {
  }

  /** Without a 403, `GetPort` sends one request and returns the decoded port of a 200 reply, else an error. */
  lemma GetPortWithoutForbidden(c: Settings, s: Session)
    requires s.remote.script == [] || s.remote.script[0].TransportError? || s.remote.script[0].status != StatusForbidden
    ensures var (r, s') := GetPortSpec(c, s);
      && (r.Ok? <==> s.remote.script != [] && s.remote.script[0].Reply?
                     && s.remote.script[0].status == StatusOK && s.remote.script[0].listenPort.Some?)
      && (r.Ok? ==> r.value == s.remote.script[0].listenPort.value)
      && s'.remote.received == s.remote.received + [PreferencesRequest(c)]
      && s'.authenticated == s.authenticated
  {
  }

  /** Without a 403, `SetPort` sends one request and succeeds exactly on a 200 reply. */
  lemma SetPortWithoutForbidden(c: Settings, port: int, s: Session)
    requires s.remote.script == [] || s.remote.script[0].TransportError? || s.remote.script[0].status != StatusForbidden
    ensures var (err, s') := SetPortSpec(c, port, s);
      && (err == Pass <==> s.remote.script != [] && s.remote.script[0].Reply? && s.remote.script[0].status == StatusOK)
      && s'.remote.received == s.remote.received + [SetPreferencesRequest(c, port)]
      && s'.authenticated == s.authenticated
  {
  }

  /** Without a 403, `Ping` sends one request and succeeds exactly on a 200 reply. */
  lemma PingWithoutForbidden(c: Settings, s: Session)
    requires s.remote.script == [] || s.remote.script[0].TransportError? || s.remote.script[0].status != StatusForbidden
    ensures var (err, s') := PingSpec(c, s);
      && (err == Pass <==> s.remote.script != [] && s.remote.script[0].Reply? && s.remote.script[0].status == StatusOK)
      && s'.remote.received == s.remote.received + [VersionRequest(c)]
  {
  }

  /** On 403, `Ping` does not ask for the version again: its result is that of one login. */
  lemma PingForbiddenIsLogin(c: Settings, s: Session)
    requires s.remote.script != [] && s.remote.script[0].Reply? && s.remote.script[0].status == StatusForbidden
    ensures PingSpec(c, s) ==
      LoginSpec(c, Session(false, Remote(s.remote.script[1..], s.remote.received + [VersionRequest(c)])))
    ensures PingSpec(c, s).1.remote.received == s.remote.received + [VersionRequest(c), LoginRequest(c)]
  {
  }

  /** On 403, a rejected re-login ends `GetPort` with that login's error, and the preferences are not asked again. */
  lemma GetPortReauthRejected(c: Settings, s: Session)
    requires |s.remote.script| >= 2 && s.remote.script[0].Reply? && s.remote.script[0].status == StatusForbidden
    requires !AcceptsLogin(s.remote.script[1])
    ensures var (r, s') := GetPortSpec(c, s);
      && r.Err? && r.error.ReauthFailed?
      && s'.remote.received == s.remote.received + [PreferencesRequest(c), LoginRequest(c)]
      && !s'.authenticated
  {
  }

  /** On 403, a rejected re-login ends `SetPort` with that login's error, and the port is not posted again. */
  lemma SetPortReauthRejected(c: Settings, port: int, s: Session)
    requires |s.remote.script| >= 2 && s.remote.script[0].Reply? && s.remote.script[0].status == StatusForbidden
    requires !AcceptsLogin(s.remote.script[1])
    ensures var (err, s') := SetPortSpec(c, port, s);
      && err.Fail? && err.error.ReauthFailed?
      && s'.remote.received == s.remote.received + [SetPreferencesRequest(c, port), LoginRequest(c)]
      && !s'.authenticated
  {
  }

  const ForbiddenReply: Reply := Reply(StatusForbidden, "Forbidden", None)
  const LoginOkReply: Reply := Reply(StatusOK, "Ok.", None)

  /** Replies that all refuse the request with a 403, whatever their bodies. */
  predicate AllForbidden(refusals: seq<Reply>) {
    forall i :: 0 <= i < |refusals| ==> refusals[i].Reply? && refusals[i].status == StatusForbidden
  }

  /** The script of one re-authentication round per refusal: the 403, then an accepted login. */
  function Reauths(refusals: seq<Reply>): (script: seq<Reply>)
    ensures |script| == 2 * |refusals|
  {
    if refusals == [] then [] else [refusals[0], LoginOkReply] + Reauths(refusals[1..])
  }

  /** The requests of `k` such rounds: the refused request, then a login. */
  function ReauthRequests(c: Settings, k: nat, refused: Request): seq<Request> {
    if k == 0 then [] else [refused, LoginRequest(c)] + ReauthRequests(c, k - 1, refused)
  }

  /**
   * Re-authentication is transparent and unbounded: after any number of 403s, with
   * any bodies, each followed by a successful login, a 200 reply yields its port,
   * and exactly one preferences request per 403 was re-issued.
   */
  lemma {:induction false} GetPortAfterReauths(c: Settings, s: Session, refusals: seq<Reply>, body: string, port: int, rest: seq<Reply>)
    requires AllForbidden(refusals)
    requires s.remote.script == Reauths(refusals) + [Reply(StatusOK, body, Some(port))] + rest
    ensures GetPortSpec(c, s) == (Ok(port), Session(s.authenticated || refusals != [],
      Remote(rest, s.remote.received + ReauthRequests(c, |refusals|, PreferencesRequest(c)) + [PreferencesRequest(c)])))
    decreases |refusals|
  {
    var script := s.remote.script;
    var req := PreferencesRequest(c);
    var k := |refusals|;
    if k == 0 {
      assert script[0] == Reply(StatusOK, body, Some(port)) && script[1..] == rest;
      assert s.remote.received + ReauthRequests(c, 0, req) == s.remote.received;
    } else {
      var tail := Reauths(refusals[1..]) + [Reply(StatusOK, body, Some(port))] + rest;
      assert script == [refusals[0], LoginOkReply] + tail;
      assert script[0] == refusals[0] && script[1..][0] == LoginOkReply && script[1..][1..] == tail;
      var s' := Session(true, Remote(tail, s.remote.received + [req, LoginRequest(c)]));
      assert s.remote.received + [req] + [LoginRequest(c)] == s.remote.received + [req, LoginRequest(c)];
      assert LoginSpec(c, Session(false, Remote(script[1..], s.remote.received + [req]))) == (Pass, s');
      GetPortAfterReauths(c, s', refusals[1..], body, port, rest);
      assert s.remote.received + [req, LoginRequest(c)] + ReauthRequests(c, k - 1, req)
          == s.remote.received + ReauthRequests(c, k, req);
    }
  }

  /** The same for `SetPort`: after any number of refused-then-renewed rounds, a 200 reply is success. */
  lemma {:induction false} SetPortAfterReauths(c: Settings, port: int, s: Session, refusals: seq<Reply>, ok: Reply, rest: seq<Reply>)
    requires AllForbidden(refusals) && ok.Reply? && ok.status == StatusOK
    requires s.remote.script == Reauths(refusals) + [ok] + rest
    ensures SetPortSpec(c, port, s) == (Pass, Session(s.authenticated || refusals != [],
      Remote(rest, s.remote.received + ReauthRequests(c, |refusals|, SetPreferencesRequest(c, port)) + [SetPreferencesRequest(c, port)])))
    decreases |refusals|
  {
    var script := s.remote.script;
    var req := SetPreferencesRequest(c, port);
    var k := |refusals|;
    if k == 0 {
      assert script[0] == ok && script[1..] == rest;
      assert s.remote.received + ReauthRequests(c, 0, req) == s.remote.received;
    } else {
      var tail := Reauths(refusals[1..]) + [ok] + rest;
      assert script == [refusals[0], LoginOkReply] + tail;
      assert script[0] == refusals[0] && script[1..][0] == LoginOkReply && script[1..][1..] == tail;
      var s' := Session(true, Remote(tail, s.remote.received + [req, LoginRequest(c)]));
      assert s.remote.received + [req] + [LoginRequest(c)] == s.remote.received + [req, LoginRequest(c)];
      assert LoginSpec(c, Session(false, Remote(script[1..], s.remote.received + [req]))) == (Pass, s');
      SetPortAfterReauths(c, port, s', refusals[1..], ok, rest);
      assert s.remote.received + [req, LoginRequest(c)] + ReauthRequests(c, k - 1, req)
          == s.remote.received + ReauthRequests(c, k, req);
    }
  }

  /** One 403 then success: the caller sees the port, and the preferences were requested exactly twice. */
  lemma GetPortReauthOnce(c: Settings, s: Session, port: int)
    requires s.remote.script == [ForbiddenReply, LoginOkReply, Reply(StatusOK, "", Some(port))]
    ensures GetPortSpec(c, s).0 == Ok(port)
    ensures GetPortSpec(c, s).1.remote.received ==
      s.remote.received + [PreferencesRequest(c), LoginRequest(c), PreferencesRequest(c)]
  {
    assert s.remote.script == Reauths([ForbiddenReply]) + [Reply(StatusOK, "", Some(port))] + [];
    GetPortAfterReauths(c, s, [ForbiddenReply], "", port, []);
    assert ReauthRequests(c, 1, PreferencesRequest(c)) == [PreferencesRequest(c), LoginRequest(c)];
  }

  /** Every request `GetPort` sends is a preferences request or a login. */
  lemma {:induction false} GetPortSendsOnly(c: Settings, s: Session)
    ensures var s' := GetPortSpec(c, s).1;
      && |s.remote.received| < |s'.remote.received|
      && s'.remote.received[..|s.remote.received|] == s.remote.received
      && forall i :: |s.remote.received| <= i < |s'.remote.received| ==>
           s'.remote.received[i] in {PreferencesRequest(c), LoginRequest(c)}
    decreases |s.remote.script|
  {
    var (reply, remote) := Exchange(s.remote, PreferencesRequest(c));
    if reply.Reply? && reply.status == StatusForbidden {
      var (login, s1) := LoginSpec(c, Session(false, remote));
      if login.Pass? {
        GetPortSendsOnly(c, s1);
        var s' := GetPortSpec(c, s1).1;
        assert s'.remote.received[..|s1.remote.received|] == s1.remote.received;
        assert s1.remote.received == s.remote.received + [PreferencesRequest(c), LoginRequest(c)];
        forall i | |s.remote.received| <= i < |s'.remote.received|
          ensures s'.remote.received[i] in {PreferencesRequest(c), LoginRequest(c)}
        {
          if i < |s1.remote.received| {
            assert s'.remote.received[i] == s1.remote.received[i];
          }
        }
        assert s'.remote.received[..|s.remote.received|] == s1.remote.received[..|s.remote.received|];
      }
    }
  }

  /** Every request `SetPort(port)` sends is a login or a post of `listen_port` as the decimal form of `port`. */
  lemma {:induction false} SetPortSendsOnly(c: Settings, port: int, s: Session)
    ensures var s' := SetPortSpec(c, port, s).1;
      && |s.remote.received| < |s'.remote.received|
      && s'.remote.received[..|s.remote.received|] == s.remote.received
      && forall i :: |s.remote.received| <= i < |s'.remote.received| ==>
           s'.remote.received[i] in {SetPreferencesRequest(c, port), LoginRequest(c)}
    decreases |s.remote.script|
  {
    var (reply, remote) := Exchange(s.remote, SetPreferencesRequest(c, port));
    if reply.Reply? && reply.status == StatusForbidden {
      var (login, s1) := LoginSpec(c, Session(false, remote));
      if login.Pass? {
        SetPortSendsOnly(c, port, s1);
        var s' := SetPortSpec(c, port, s1).1;
        assert s'.remote.received[..|s1.remote.received|] == s1.remote.received;
        assert s1.remote.received == s.remote.received + [SetPreferencesRequest(c, port), LoginRequest(c)];
        forall i | |s.remote.received| <= i < |s'.remote.received|
          ensures s'.remote.received[i] in {SetPreferencesRequest(c, port), LoginRequest(c)}
        {
          if i < |s1.remote.received| {
            assert s'.remote.received[i] == s1.remote.received[i];
          }
        }
        assert s'.remote.received[..|s.remote.received|] == s1.remote.received[..|s.remote.received|];
      }
    }
  }

  /** The `listen_port` field reads back, with `strconv.Atoi`, as the port that was set. */
  lemma SetPreferencesCarriesPort(c: Settings, port: int)
    requires Text.MinInt64 <= port <= Text.MaxInt64
    ensures var req := SetPreferencesRequest(c, port);
      req.url == c.baseURL + SetPreferencesPath
      && "listen_port" in req.form && Text.Atoi(req.form["listen_port"]) == Some(port)
  {
    Text.AtoiFormatInt(port);
  }

  /** A base URL is stored with every trailing slash removed, and one without a trailing slash is kept as it is. */
  lemma NewSettingsTrimsSlashes(baseURL: string, slashes: nat, user: string, pass: string)
    requires baseURL == [] || baseURL[|baseURL| - 1] != '/'
    ensures NewSettings(baseURL + seq(slashes, _ => '/'), user, pass).baseURL == baseURL
  {
    var u := baseURL + seq(slashes, _ => '/');
    var t := Text.TrimRightChar(u, '/');
    assert u[..|baseURL|] == baseURL;
    if |t| > |baseURL| {
      assert u[|t| - 1] == '/';
    }
  }
}
