/**
 * The reconciliation engine of internal/sync/watcher.go: read the forwarded port
 * from the VPN's port file, compare it with qBittorrent's listening port, and
 * write it when they differ; do so at start-up, on every write to the port file
 * and on every tick of the periodic timer.
 *
 * The file system watcher, its channels and the `select` become a sequence of
 * triggers serviced one at a time. Each sync reads the file as it is at that
 * moment, so a trigger carries the file's state and the clock reading. The four
 * Prometheus metrics of internal/sync/metrics.go are integer fields of the
 * engine; the last-sync timestamp is the clock reading of the last successful
 * update.
 */
module Watcher {
  import opened Outcomes
  import Text
  import Retry
  import Qbit

  // ---------------------------------------------------------------------------
  // readPortFromFile
  // ---------------------------------------------------------------------------

  const MinPort: int := 1
  const MaxPort: int := 65535

  /** What reading the port file gives: an error, or its contents. */
  datatype FileRead = Unreadable | Contents(text: string)

  datatype PortError =
    | ReadFileFailed                // the file could not be read
    | InvalidPortValue(text: string) // the trimmed text is not an integer
    | PortOutOfRange(port: int)     // an integer outside [1, 65535]

  /** `readPortFromFile`: the trimmed contents as a decimal integer in [1, 65535]. */
  function ReadPortFromFile(f: FileRead): (r: Result<int, PortError>)
    ensures r.Ok? ==> MinPort <= r.value <= MaxPort
  {
    match f
    case Unreadable => Err(ReadFileFailed)
    case Contents(text) =>
      var portStr := Text.TrimSpace(text);
      match Text.Atoi(portStr)
      case None => Err(InvalidPortValue(portStr))
      case Some(port) =>
        if port < MinPort || port > MaxPort then Err(PortOutOfRange(port)) else Ok(port)
  }

  /**
   * The text of a valid port as `strconv.Atoi` reads it: an optional '+', then
   * decimal digits (leading zeros allowed) whose value is in [1, 65535].
   */
  predicate PortText(t: string, p: int) {
    var digits := if t != [] && t[0] == '+' then t[1..] else t;
    digits != [] && Text.AllDigits(digits) && p == Text.DigitsValue(digits) && MinPort <= p <= MaxPort
  }

  /** The file yields port `p` exactly when its trimmed text is the text of `p`. */
  lemma ReadPortIff(text: string, p: int)
    ensures ReadPortFromFile(Contents(text)) == Ok(p) <==> PortText(Text.TrimSpace(text), p)
  {
    if p >= 1 {
      Text.AtoiPositive(Text.TrimSpace(text), p);
    }
  }

  /** Trimmed port text with white space around it reads as that port. */
  lemma ReadPortPadded(pre: string, t: string, post: string, p: int)
    requires Text.AllSpace(pre) && Text.AllSpace(post) && Text.IsTrimmed(t) && PortText(t, p)
    ensures ReadPortFromFile(Contents(pre + t + post)) == Ok(p)
  {
    Text.TrimSpacePadded(pre, t, post);
    ReadPortIff(pre + t + post, p);
  }

  /** A valid port written with a leading '+', and white space around it, reads back as itself. */
  lemma ReadPortAcceptsPlus(pre: string, port: int, post: string)
    requires Text.AllSpace(pre) && Text.AllSpace(post) && MinPort <= port <= MaxPort
    ensures ReadPortFromFile(Contents(pre + "+" + Text.FormatInt(port) + post)) == Ok(port)
  {
    var digits := Text.FormatInt(port);
    var t := "+" + digits;
    Text.FormatIntIsTrimmed(port);
    assert t[|t| - 1] == digits[|digits| - 1];
    assert t[1..] == digits;
    assert PortText(t, port);
    assert pre + "+" + digits + post == pre + t + post;
    ReadPortPadded(pre, t, post, port);
  }

  /** A valid port written with any number of leading zeros, and white space around it, reads back as itself. */
  lemma ReadPortAcceptsZeros(pre: string, zeros: nat, port: int, post: string)
    requires Text.AllSpace(pre) && Text.AllSpace(post) && MinPort <= port <= MaxPort
    ensures ReadPortFromFile(Contents(pre + Text.Zeros(zeros) + Text.FormatInt(port) + post)) == Ok(port)
  {
    var digits := Text.FormatInt(port);
    var t := Text.Zeros(zeros) + digits;
    Text.FormatIntIsTrimmed(port);
    Text.LeadingZerosValue(zeros, digits);
    assert t[|t| - 1] == digits[|digits| - 1];
    assert t[0] == if zeros > 0 then '0' else digits[0];
    assert PortText(t, port);
    assert pre + Text.Zeros(zeros) + digits + post == pre + t + post;
    ReadPortPadded(pre, t, post, port);
  }

  /** A valid port written in decimal, with any white space around it (a trailing newline, say), reads back as itself. */
  lemma ReadPortRoundTrip(pre: string, port: int, post: string)
    requires Text.AllSpace(pre) && Text.AllSpace(post) && MinPort <= port <= MaxPort
    ensures ReadPortFromFile(Contents(pre + Text.FormatInt(port) + post)) == Ok(port)
  {
    var digits := Text.FormatInt(port);
    Text.FormatIntIsTrimmed(port);
    Text.TrimSpacePadded(pre, digits, post);
    Text.AtoiFormatInt(port);
    assert Text.Atoi(Text.TrimSpace(pre + digits + post)) == Some(port);
  }

  /** An integer outside [1, 65535] ("0", "-1", "65536", "99999") is refused as out of range. */
  lemma ReadPortRejectsOutOfRange(n: int)
    requires Text.MinInt64 <= n <= Text.MaxInt64 && (n < MinPort || n > MaxPort)
    ensures ReadPortFromFile(Contents(Text.FormatInt(n))) == Err(PortOutOfRange(n))
  {
    var s := Text.FormatInt(n);
    Text.FormatIntIsTrimmed(n);
    Text.TrimSpacePadded("", s, "");
    assert "" + s + "" == s;
    Text.AtoiFormatInt(n);
  }

  /** A file holding only white space, or text that is not a number, is refused as an invalid value. */
  lemma ReadPortRejectsNonNumeric(pre: string, word: string, post: string)
    requires Text.AllSpace(pre) && Text.AllSpace(post) && Text.IsTrimmed(word)
    requires word == [] || !(Text.IsDigit(word[0]) || word[0] == '+' || word[0] == '-')
    ensures ReadPortFromFile(Contents(pre + word + post)) == Err(InvalidPortValue(word))
  {
    Text.TrimSpacePadded(pre, word, post);
  }

  // ---------------------------------------------------------------------------
  // The engine state and syncPort
  // ---------------------------------------------------------------------------

  /** forwardarr_current_port, forwardarr_sync_total, forwardarr_sync_errors, forwardarr_last_sync_timestamp. */
  datatype Metrics = Metrics(currentPort: int, syncTotal: nat, syncErrors: nat, lastSyncTimestamp: int)

  /** The watcher's fixed settings. */
  datatype Settings = Settings(portFile: string, client: Qbit.Settings, syncInterval: Retry.Duration)

  /** Everything a sync reads and writes: the last port written, the metrics, the qBittorrent session. */
  datatype Engine = Engine(lastPort: int, metrics: Metrics, session: Qbit.Session)

  datatype SyncError =
    | ReadPortFailed(portError: PortError)     // the port file gave no port
    | GetPortFailed(cause: Qbit.Error)     // qBittorrent's current port could not be read
    | SetPortFailed(cause: Qbit.Error)     // the new port could not be written

  const NoMetrics: Metrics := Metrics(0, 0, 0, 0)

  /** `syncPort` at clock reading `now`, with the port file in state `file`. */
  function Sync(w: Settings, file: FileRead, now: int, e: Engine): (out: (Outcome<SyncError>, Engine))
  {
    match ReadPortFromFile(file)
    case Err(cause) => (Fail(ReadPortFailed(cause)), e)
    case Ok(filePort) => Reconcile(w, filePort, now, e, Qbit.GetPortSpec(w.client, e.session))
  }

  /** The rest of a sync once the file gave `filePort` and asking qBittorrent for its port gave `got`. */
  function Reconcile(w: Settings, filePort: int, now: int, e: Engine, got: (Result<int, Qbit.Error>, Qbit.Session)): (out: (Outcome<SyncError>, Engine))
  {
    if got.0.Err? then (Fail(GetPortFailed(got.0.error)), e.(session := got.1))
    else if filePort == got.0.value then (Pass, e.(session := got.1))
    else Record(filePort, now, e, Qbit.SetPortSpec(w.client, filePort, got.1))
  }

  /** The end of a sync that wrote `filePort`, the write having given `written`. */
  function Record(filePort: int, now: int, e: Engine, written: (Outcome<Qbit.Error>, Qbit.Session)): (out: (Outcome<SyncError>, Engine))
  {
    if written.0.Fail? then
      (Fail(SetPortFailed(written.0.error)), Engine(e.lastPort, e.metrics.(syncErrors := e.metrics.syncErrors + 1), written.1))
    else
      (Pass, Engine(filePort, Metrics(filePort, e.metrics.syncTotal + 1, e.metrics.syncErrors, now), written.1))
  }

  /** Whether the sync gets as far as writing: the file gave a port and qBittorrent reported a different one. */
  predicate Writes(w: Settings, file: FileRead, e: Engine) {
    && ReadPortFromFile(file).Ok?
    && Qbit.GetPortSpec(w.client, e.session).0.Ok?
    && Qbit.GetPortSpec(w.client, e.session).0.value != ReadPortFromFile(file).value
  }

  /** The engine's invariant: the gauge shows the last port written, which is 0 (none yet) or a valid port. */
  predicate Valid(e: Engine) {
    e.lastPort == e.metrics.currentPort && (e.lastPort == 0 || MinPort <= e.lastPort <= MaxPort)
  }

  lemma SyncPreservesValid(w: Settings, file: FileRead, now: int, e: Engine)
    requires Valid(e)
    ensures Valid(Sync(w, file, now, e).1)
  {
    match ReadPortFromFile(file)
    case Err(_) =>
    case Ok(p) =>
      var got := Qbit.GetPortSpec(w.client, e.session);
      assert Sync(w, file, now, e) == Reconcile(w, p, now, e, got);
      ReconcileEffects(w, p, now, e, got);
  }

  /** What the qBittorrent half of a sync does to the engine, whatever reading the port gave. */
  lemma ReconcileEffects(w: Settings, filePort: int, now: int, e: Engine, got: (Result<int, Qbit.Error>, Qbit.Session))
    ensures var (err, e') := Reconcile(w, filePort, now, e, got);
      && e'.metrics.syncErrors == e.metrics.syncErrors + (if err.Fail? && err.error.SetPortFailed? then 1 else 0)
      && e'.metrics.syncTotal == e.metrics.syncTotal + (if got.0.Ok? && got.0.value != filePort && err == Pass then 1 else 0)
      && (MinPort <= filePort <= MaxPort && Valid(e) ==> Valid(e'))
  {
    if got.0.Ok? && got.0.value != filePort {
      var written := Qbit.SetPortSpec(w.client, filePort, got.1);
      assert Reconcile(w, filePort, now, e, got) == Record(filePort, now, e, written);
    }
  }

  /** A file that cannot be read or parsed ends the sync before any request: nothing changes. */
  lemma SyncReadFailure(w: Settings, file: FileRead, now: int, e: Engine)
    requires ReadPortFromFile(file).Err?
    ensures Sync(w, file, now, e) == (Fail(ReadPortFailed(ReadPortFromFile(file).error)), e)
  {
  }

  /**
   * When qBittorrent's port cannot be read, the sync fails without writing: the last
   * port and the metrics are unchanged, and only preference reads and logins were sent.
   */
  lemma SyncGetFailure(w: Settings, file: FileRead, now: int, e: Engine)
    requires ReadPortFromFile(file).Ok? && Qbit.GetPortSpec(w.client, e.session).0.Err?
    ensures var (err, e') := Sync(w, file, now, e);
      && err == Fail(GetPortFailed(Qbit.GetPortSpec(w.client, e.session).0.error))
      && e'.lastPort == e.lastPort && e'.metrics == e.metrics
      && forall i :: |e.session.remote.received| <= i < |e'.session.remote.received| ==>
           e'.session.remote.received[i] in {Qbit.PreferencesRequest(w.client), Qbit.LoginRequest(w.client)}
  {
    Qbit.GetPortSendsOnly(w.client, e.session);
  }

  /** Ports already in sync: success, no write, and the last port and the metrics are unchanged. */
  lemma SyncInSync(w: Settings, file: FileRead, now: int, e: Engine)
    requires ReadPortFromFile(file).Ok? && Qbit.GetPortSpec(w.client, e.session).0 == Ok(ReadPortFromFile(file).value)
    ensures var (err, e') := Sync(w, file, now, e);
      && err == Pass && e'.lastPort == e.lastPort && e'.metrics == e.metrics
      && forall i :: |e.session.remote.received| <= i < |e'.session.remote.received| ==>
           e'.session.remote.received[i] in {Qbit.PreferencesRequest(w.client), Qbit.LoginRequest(w.client)}
  {
    Qbit.GetPortSendsOnly(w.client, e.session);
  }

  /**
   * A mismatch is written: on success the last port and the gauge become the file's
   * port, the sync count goes up by one and the timestamp is `now`; on failure only
   * the error count goes up, by one.
   */
  lemma SyncMismatch(w: Settings, file: FileRead, now: int, e: Engine)
    requires ReadPortFromFile(file).Ok? && Qbit.GetPortSpec(w.client, e.session).0.Ok?
    requires Qbit.GetPortSpec(w.client, e.session).0.value != ReadPortFromFile(file).value
    ensures var p := ReadPortFromFile(file).value;
      var s1 := Qbit.GetPortSpec(w.client, e.session).1;
      var (written, s2) := Qbit.SetPortSpec(w.client, p, s1);
      var (err, e') := Sync(w, file, now, e);
      && e'.session == s2
      && (written == Pass ==>
            err == Pass && e'.lastPort == p
            && e'.metrics == Metrics(p, e.metrics.syncTotal + 1, e.metrics.syncErrors, now))
      && (written.Fail? ==>
            err == Fail(SetPortFailed(written.error)) && e'.lastPort == e.lastPort
            && e'.metrics == e.metrics.(syncErrors := e.metrics.syncErrors + 1))
  {
  }

  /**
   * A successful sync leaves qBittorrent on the file's port: either it already reported
   * that port, or the last request sent posted it.
   */
  lemma SyncConverges(w: Settings, file: FileRead, now: int, e: Engine)
    requires Sync(w, file, now, e).0 == Pass
    ensures ReadPortFromFile(file).Ok?
    ensures var p := ReadPortFromFile(file).value;
      var received := Sync(w, file, now, e).1.session.remote.received;
      Qbit.GetPortSpec(w.client, e.session).0 == Ok(p)
      || (received != [] && received[|received| - 1] == Qbit.SetPreferencesRequest(w.client, p))
  {
    var p := ReadPortFromFile(file).value;
    var got := Qbit.GetPortSpec(w.client, e.session);
    assert Sync(w, file, now, e) == Reconcile(w, p, now, e, got);
    if got.0 != Ok(p) {
      var written := Qbit.SetPortSpec(w.client, p, got.1);
      assert Reconcile(w, p, now, e, got) == Record(p, now, e, written);
      assert written.0 == Pass;
      SetPortLastRequest(w.client, p, got.1);
    }
  }

  /** When `SetPort` succeeds, the last request it sent is the post of the port. */
  lemma {:induction false} SetPortLastRequest(c: Qbit.Settings, port: int, s: Qbit.Session)
    requires Qbit.SetPortSpec(c, port, s).0 == Pass
    ensures var received := Qbit.SetPortSpec(c, port, s).1.remote.received;
      received != [] && received[|received| - 1] == Qbit.SetPreferencesRequest(c, port)
    decreases |s.remote.script|
  {
    var (reply, remote) := Qbit.Exchange(s.remote, Qbit.SetPreferencesRequest(c, port));
    if reply.Reply? && reply.status == Qbit.StatusForbidden {
      var (login, s1) := Qbit.LoginSpec(c, Qbit.Session(false, remote));
      SetPortLastRequest(c, port, s1);
    }
  }

  // ---------------------------------------------------------------------------
  // Start: the trigger loop
  // ---------------------------------------------------------------------------

  /** fsnotify's operation bits. */
  const OpCreate: bv32 := 1
  const OpWrite: bv32 := 2
  const OpRemove: bv32 := 4
  const OpRename: bv32 := 8
  const OpChmod: bv32 := 16

  /** One thing the loop can be woken by. */
  datatype Trigger =
    | FileEvent(name: string, op: bv32, file: FileRead, now: int) // from the watcher's Events channel
    | WatchError                                                  // from the watcher's Errors channel
    | Tick(file: FileRead, now: int)                              // from the periodic ticker
    | EventsClosed                                                // the Events channel was closed
    | ErrorsClosed                                                // the Errors channel was closed

  predicate IsClosure(t: Trigger) {
    t.EventsClosed? || t.ErrorsClosed?
  }

  datatype StopReason = WatcherChannelClosed | WatcherErrorChannelClosed

  /** How a run over a finite trace ends: stopped with an error, or still waiting for the next trigger. */
  datatype RunEnd = Stopped(reason: StopReason) | Waiting

  /** An event syncs only when it names the port file and carries the Write or the Create bit. */
  predicate Relevant(w: Settings, name: string, op: bv32) {
    name == w.portFile && (op & OpWrite == OpWrite || op & OpCreate == OpCreate)
  }

  /**
   * One trigger that does not stop the loop. A failed event-driven sync is counted as
   * an error once more; a failed periodic sync is only logged. Without a positive sync
   * interval there is no ticker, so a tick cannot happen and changes nothing.
   */
  function Service(w: Settings, t: Trigger, e: Engine): (e': Engine)
    requires !IsClosure(t)
  {
    match t
    case FileEvent(name, op, file, now) =>
      if !Relevant(w, name, op) then e
      else
        var (err, e1) := Sync(w, file, now, e);
        if err.Fail? then e1.(metrics := e1.metrics.(syncErrors := e1.metrics.syncErrors + 1)) else e1
    case WatchError => e
    case Tick(file, now) => if w.syncInterval > 0 then Sync(w, file, now, e).1 else e
  }

  /** The loop over a trace of triggers, from engine state `e`. */
  function Run(w: Settings, triggers: seq<Trigger>, e: Engine): (out: (RunEnd, Engine))
    decreases |triggers|
  {
    if triggers == [] then (Waiting, e)
    else
      match triggers[0]
      case EventsClosed => (Stopped(WatcherChannelClosed), e)
      case ErrorsClosed => (Stopped(WatcherErrorChannelClosed), e)
      case _ => Run(w, triggers[1..], Service(w, triggers[0], e))
  }

  /** `Start`: one sync at start-up (its failure is only logged), then the loop. */
  function StartSpec(w: Settings, file: FileRead, now: int, triggers: seq<Trigger>, e: Engine): (out: (RunEnd, Engine))
  {
    Run(w, triggers, Sync(w, file, now, e).1)
  }

  /** The index of the first closure in the trace, if any. */
  function FirstClosure(triggers: seq<Trigger>): (r: Option<nat>)
    ensures r.Some? ==>
      r.value < |triggers| && IsClosure(triggers[r.value])
      && forall j :: 0 <= j < r.value ==> !IsClosure(triggers[j])
    ensures r.None? ==> forall j :: 0 <= j < |triggers| ==> !IsClosure(triggers[j])
  {
    if triggers == [] then None
    else if IsClosure(triggers[0]) then Some(0)
    else match FirstClosure(triggers[1..])
      case None => None
      case Some(k) => Some(k + 1)
  }

  /**
   * The loop stops exactly when a channel closes, and then with that channel's error;
   * sync failures never stop it.
   */
  lemma {:induction false} RunStopsIffClosed(w: Settings, triggers: seq<Trigger>, e: Engine)
    ensures Run(w, triggers, e).0.Stopped? <==> FirstClosure(triggers).Some?
    ensures FirstClosure(triggers).Some? ==>
      Run(w, triggers, e).0 == Stopped(if triggers[FirstClosure(triggers).value].EventsClosed?
                                       then WatcherChannelClosed else WatcherErrorChannelClosed)
    decreases |triggers|
  {
    if triggers != [] && !IsClosure(triggers[0]) {
      RunStopsIffClosed(w, triggers[1..], Service(w, triggers[0], e));
    }
  }

  /** Servicing keeps the invariant. */
  lemma ServicePreservesValid(w: Settings, t: Trigger, e: Engine)
    requires !IsClosure(t) && Valid(e)
    ensures Valid(Service(w, t, e))
  {
    match t
    case FileEvent(name, op, file, now) => SyncPreservesValid(w, file, now, e);
    case WatchError =>
    case Tick(file, now) => SyncPreservesValid(w, file, now, e);
  }

  /** The whole run keeps the invariant. */
  lemma {:induction false} RunPreservesValid(w: Settings, triggers: seq<Trigger>, e: Engine)
    requires Valid(e)
    ensures Valid(Run(w, triggers, e).1)
    decreases |triggers|
  {
    if triggers != [] && !IsClosure(triggers[0]) {
      ServicePreservesValid(w, triggers[0], e);
      RunPreservesValid(w, triggers[1..], Service(w, triggers[0], e));
    }
  }

  /** The counters only go up. */
  predicate CountersGrew(before: Metrics, after: Metrics) {
    before.syncTotal <= after.syncTotal && before.syncErrors <= after.syncErrors
  }

  /** A sync adds one to the sync count exactly when it wrote, and one to the error count exactly when the write failed. */
  lemma SyncCounters(w: Settings, file: FileRead, now: int, e: Engine)
    ensures var (err, e') := Sync(w, file, now, e);
      && e'.metrics.syncErrors == e.metrics.syncErrors + (if err.Fail? && err.error.SetPortFailed? then 1 else 0)
      && e'.metrics.syncTotal == e.metrics.syncTotal + (if Writes(w, file, e) && err == Pass then 1 else 0)
  {
    match ReadPortFromFile(file)
    case Err(_) =>
    case Ok(p) =>
      var got := Qbit.GetPortSpec(w.client, e.session);
      assert Sync(w, file, now, e) == Reconcile(w, p, now, e, got);
      ReconcileEffects(w, p, now, e, got);
  }

  lemma ServiceCounters(w: Settings, t: Trigger, e: Engine)
    requires !IsClosure(t)
    ensures CountersGrew(e.metrics, Service(w, t, e).metrics)
  {
    match t
    case FileEvent(name, op, file, now) => SyncCounters(w, file, now, e);
    case WatchError =>
    case Tick(file, now) => SyncCounters(w, file, now, e);
  }

  lemma {:induction false} RunCountersMonotone(w: Settings, triggers: seq<Trigger>, e: Engine)
    ensures CountersGrew(e.metrics, Run(w, triggers, e).1.metrics)
    decreases |triggers|
  {
    if triggers != [] && !IsClosure(triggers[0]) {
      ServiceCounters(w, triggers[0], e);
      RunCountersMonotone(w, triggers[1..], Service(w, triggers[0], e));
    }
  }

  /** Irrelevant events, watcher errors and ticks without a ticker change nothing and send nothing. */
  lemma IgnoredTriggers(w: Settings, t: Trigger, e: Engine)
    requires (t.FileEvent? && !Relevant(w, t.name, t.op)) || t.WatchError? || (t.Tick? && w.syncInterval <= 0)
    ensures Service(w, t, e) == e
  {
  }

  /** A chmod or a removal of the port file, or a write to another file, triggers nothing. */
  lemma FilterExamples(w: Settings, f: FileRead, now: int, e: Engine)
    ensures Service(w, FileEvent(w.portFile, OpChmod, f, now), e) == e
    ensures Service(w, FileEvent(w.portFile, OpRemove, f, now), e) == e
    ensures Service(w, FileEvent(w.portFile, OpRename, f, now), e) == e
    ensures Relevant(w, w.portFile, OpWrite) && Relevant(w, w.portFile, OpCreate)
    ensures Relevant(w, w.portFile, OpWrite | OpChmod)
    ensures Service(w, FileEvent(w.portFile + "x", OpWrite, f, now), e) == e
  {
    assert w.portFile + "x" != w.portFile by {
      assert |w.portFile + "x"| == |w.portFile| + 1;
    }
  }

  /**
   * Error counting: a failed event-driven sync adds one error, plus the one `syncPort`
   * itself adds when the write failed; so a failed write after a file event counts twice,
   * and one after a tick once.
   */
  lemma ErrorCounting(w: Settings, t: Trigger, e: Engine)
    requires (t.FileEvent? && Relevant(w, t.name, t.op)) || (t.Tick? && w.syncInterval > 0)
    ensures var (err, _) := Sync(w, t.file, t.now, e);
      var extra := (if err.Fail? && t.FileEvent? then 1 else 0) + (if err.Fail? && err.error.SetPortFailed? then 1 else 0);
      Service(w, t, e).metrics.syncErrors == e.metrics.syncErrors + extra
  {
    SyncCounters(w, t.file, t.now, e);
  }

  /** Running two traces one after the other is running their concatenation: triggers are serviced in order, one at a time. */
  lemma {:induction false} RunConcat(w: Settings, a: seq<Trigger>, b: seq<Trigger>, e: Engine)
    ensures Run(w, a + b, e) == (if Run(w, a, e).0.Stopped? then Run(w, a, e) else Run(w, b, Run(w, a, e).1))
    decreases |a|
  {
    if a == [] {
      assert a + b == b;
    } else {
      assert (a + b)[0] == a[0] && (a + b)[1..] == a[1..] + b;
      if !IsClosure(a[0]) {
        RunConcat(w, a[1..], b, Service(w, a[0], e));
      }
    }
  }

  // ---------------------------------------------------------------------------
  // The watcher object
  // ---------------------------------------------------------------------------

  class Watcher {
    const portFile: string
    const client: Qbit.Client
    const syncInterval: Retry.Duration
    var lastPort: int
    var metrics: Metrics

    function Config(): Settings {
      Settings(portFile, client.Config(), syncInterval)
    }

    function State(): Engine
      reads this, client
    {
      Engine(lastPort, metrics, client.State())
    }

    /** `NewWatcher`, once the directory watch is in place: no port written yet. */
    constructor (portFile: string, client: Qbit.Client, syncInterval: Retry.Duration)
      ensures this.portFile == portFile && this.client == client && this.syncInterval == syncInterval
      ensures lastPort == 0 && metrics == NoMetrics
    {
      this.portFile := portFile;
      this.client := client;
      this.syncInterval := syncInterval;
      lastPort := 0;
      metrics := NoMetrics;
    }

    method SyncPort(file: FileRead, now: int) returns (err: Outcome<SyncError>)
      modifies this, client
      ensures (err, State()) == Sync(Config(), file, now, old(State()))
    {
      var read := ReadPortFromFile(file);
      if read.Err? {
        return Fail(ReadPortFailed(read.error));
      }
      err := ReconcilePort(read.value, now);
    }

    /** The part of `syncPort` after the file gave `filePort`. */
    method ReconcilePort(filePort: int, now: int) returns (err: Outcome<SyncError>)
      modifies this, client
      ensures (err, State()) == Reconcile(Config(), filePort, now, old(State()), Qbit.GetPortSpec(Config().client, old(State()).session))
    {
      var current := client.GetPort();
      if current.Err? {
        return Fail(GetPortFailed(current.error));
      }
      if filePort != current.value {
        var outcome := client.SetPort(filePort);
        if outcome.Fail? {
          metrics := metrics.(syncErrors := metrics.syncErrors + 1);
          return Fail(SetPortFailed(outcome.error));
        }
        lastPort := filePort;
        metrics := Metrics(filePort, metrics.syncTotal + 1, metrics.syncErrors, now);
      }
      return Pass;
    }

    /** One pass of the `select` for a trigger that does not stop the loop. */
    method Handle(t: Trigger)
      requires !IsClosure(t)
      modifies this, client
      ensures State() == Service(Config(), t, old(State()))
    {
      match t
      case FileEvent(name, op, f, now) =>
        if Relevant(Config(), name, op) {
          var err := SyncPort(f, now);
          if err.Fail? {
            metrics := metrics.(syncErrors := metrics.syncErrors + 1);
          }
        }
      case WatchError =>
      case Tick(f, now) =>
        if syncInterval > 0 {
          var _ := SyncPort(f, now);
        }
    }

    method Start(file: FileRead, now: int, triggers: seq<Trigger>) returns (end: RunEnd)
      modifies this, client
      ensures (end, State()) == StartSpec(Config(), file, now, triggers, old(State()))
    {
      var initial := SyncPort(file, now);
      ghost var start := State();
      var i := 0;
      while i < |triggers|
        invariant 0 <= i <= |triggers|
        invariant Run(Config(), triggers[i..], State()) == Run(Config(), triggers, start)
        decreases |triggers| - i
      {
        var t := triggers[i];
        if t.EventsClosed? {
          return Stopped(WatcherChannelClosed);
        } else if t.ErrorsClosed? {
          return Stopped(WatcherErrorChannelClosed);
        }
        Handle(t);
        assert triggers[i..] == [t] + triggers[i + 1..];
        i := i + 1;
      }
      return Waiting;
    }
  }
}
