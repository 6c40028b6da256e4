/**
 * The webhook notifier of internal/webhook/client.go: the port-change payload
 * and the single POST that delivers it. The HTTP client, the JSON encoding and
 * the request context are replaced by what the delivery came to: the request
 * could not be built, the transport failed (a timeout is such a failure), or
 * the receiver answered with a status code. The timestamp is the clock reading
 * the caller passes in.
 */
module Webhook {
  import opened Outcomes
  import Text
  import Retry

  datatype Client = Client(url: string, timeout: Retry.Duration)

  /** `Payload`: what the receiver gets, as the JSON object's fields. */
  datatype Payload = Payload(event: string, timestamp: int, oldPort: int, newPort: int, message: string)

  /** The one request `send` makes: a JSON POST of the payload to the client's URL. */
  datatype Post = Post(url: string, contentType: string, userAgent: string, payload: Payload)

  /** How the delivery went. */
  datatype Delivery = RequestInvalid | TransportFailed | Status(code: int)

  datatype Error =
    | CreateRequestFailed   // the request could not be built from the URL
    | SendFailed            // no answer: a transport error or a timeout
    | NonSuccessStatus(code: int) // an answer outside 2xx, with its status

  const PortChangedEvent: string := "port_changed"
  const MessagePrefix: string := "Port changed from "
  const MessageInfix: string := " to "

  /** `NewClient`: keeps the URL and the timeout as given. */
  function NewClient(url: string, timeout: Retry.Duration): (c: Client)
    ensures c.url == url && c.timeout == timeout
  {
    Client(url, timeout)
  }

  /** `fmt.Sprintf("Port changed from %d to %d", oldPort, newPort)`. */
  function Message(oldPort: int, newPort: int): string {
    MessagePrefix + Text.FormatInt(oldPort) + MessageInfix + Text.FormatInt(newPort)
  }

  /** The payload `SendPortChange` builds at time `now`. */
  function PortChangePayload(oldPort: int, newPort: int, now: int): Payload {
    Payload(PortChangedEvent, now, oldPort, newPort, Message(oldPort, newPort))
  }

  /** A 2xx status code. */
  predicate IsSuccess(code: int) {
    200 <= code < 300
  }

  /** `send`: the request it makes (none when it cannot be built) and its outcome. */
  function Send(c: Client, payload: Payload, delivery: Delivery): (out: (Outcome<Error>, seq<Post>))
  {
    if delivery.RequestInvalid? then (Fail(CreateRequestFailed), [])
    else
      var post := Post(c.url, "application/json", "Forwardarr-Webhook/1.0", payload);
      if delivery.TransportFailed? then (Fail(SendFailed), [post])
      else if !IsSuccess(delivery.code) then (Fail(NonSuccessStatus(delivery.code)), [post])
      else (Pass, [post])
  }

  /** `SendPortChange`. */
  function SendPortChange(c: Client, oldPort: int, newPort: int, now: int, delivery: Delivery): (out: (Outcome<Error>, seq<Post>))
  {
    Send(c, PortChangePayload(oldPort, newPort, now), delivery)
  }

  // ---------------------------------------------------------------------------
  // Properties
  // ---------------------------------------------------------------------------

  /**
   * Delivery succeeds exactly on a 2xx answer; at most one request is made, to the
   * client's URL, and it carries the payload with the event name, both ports, the
   * timestamp and the message that `MessageRoundTrip` reads back.
   */
  lemma SendPortChangeOutcome(c: Client, oldPort: int, newPort: int, now: int, delivery: Delivery)
    ensures var (err, posts) := SendPortChange(c, oldPort, newPort, now, delivery);
      && (err == Pass <==> delivery.Status? && 200 <= delivery.code < 300)
      && (delivery.Status? && !IsSuccess(delivery.code) ==> err == Fail(NonSuccessStatus(delivery.code)))
      && (delivery.TransportFailed? ==> err == Fail(SendFailed))
      && |posts| == (if delivery.RequestInvalid? then 0 else 1)
      && forall i :: 0 <= i < |posts| ==>
           && posts[i].url == c.url
           && posts[i].contentType == "application/json"
           && posts[i].userAgent == "Forwardarr-Webhook/1.0"
           && posts[i].payload.event == "port_changed"
           && posts[i].payload.oldPort == oldPort
           && posts[i].payload.newPort == newPort
           && posts[i].payload.timestamp == now
           && posts[i].payload.message == Message(oldPort, newPort)
  {
  }

  /** The status codes of client_test.go: 200, 201, 202 and 204 succeed; 400, 401, 403, 404 and 500 fail. */
  lemma StatusExamples(c: Client, p: Payload)
    ensures Send(c, p, Status(200)).0 == Pass && Send(c, p, Status(201)).0 == Pass
    ensures Send(c, p, Status(202)).0 == Pass && Send(c, p, Status(204)).0 == Pass
    ensures Send(c, p, Status(400)).0.Fail? && Send(c, p, Status(401)).0.Fail?
    ensures Send(c, p, Status(403)).0.Fail? && Send(c, p, Status(404)).0.Fail?
    ensures Send(c, p, Status(500)).0.Fail?
  {
  }

  /**
   * Reads a message back: strips the fixed prefix, then takes the two numbers
   * around " to ", the way a receiver would parse it.
   */
  function ParseMessage(m: string): (r: Option<(int, int)>)
  {
    if |m| < |MessagePrefix| || m[..|MessagePrefix|] != MessagePrefix then None
    else
      var words := Text.Split(m[|MessagePrefix|..], ' ');
      if |words| != 3 || words[1] != "to" then None
      else
        match (Text.Atoi(words[0]), Text.Atoi(words[2]))
        case (Some(o), Some(n)) => Some((o, n))
        case _ => None
  }

  /** The part after the prefix splits on spaces into the two numbers around "to". */
  lemma SplitPortsWords(o: string, n: string)
    requires ' ' !in o && ' ' !in n
    ensures Text.Split(o + MessageInfix + n, ' ') == [o, "to", n]
  {
    assert o + MessageInfix + n == o + [' '] + ("to" + [' '] + n);
    Text.SplitConcat(o, "to" + [' '] + n, ' ');
    Text.SplitConcat("to", n, ' ');
    Text.SplitWithoutSeparator(n, ' ');
  }

  /** The message names both ports in decimal: reading it back gives the ports it was made from. */
  lemma MessageRoundTrip(oldPort: int, newPort: int)
    requires Text.MinInt64 <= oldPort <= Text.MaxInt64 && Text.MinInt64 <= newPort <= Text.MaxInt64
    ensures ParseMessage(Message(oldPort, newPort)) == Some((oldPort, newPort))
  {
    var o := Text.FormatInt(oldPort);
    var n := Text.FormatInt(newPort);
    var m := Message(oldPort, newPort);
    assert m[..|MessagePrefix|] == MessagePrefix && m[|MessagePrefix|..] == o + MessageInfix + n by {
      assert m == MessagePrefix + (o + MessageInfix + n);
    }
    Text.FormatIntChars(oldPort, ' ');
    Text.FormatIntChars(newPort, ' ');
    SplitPortsWords(o, n);
    Text.AtoiFormatInt(oldPort);
    Text.AtoiFormatInt(newPort);
  }
}
