/** The transport: encodes the payload, posts it once, and classifies the outcome. */
module Transport {
  import opened Wrappers
  import opened Decimal
  import opened Configuration
  import opened PayloadBuilder

  /** The push endpoint's path, appended to the configured address. */
  const PushPath := "/loki/api/v1/push"

  /** The target URL: the address used verbatim, followed by the push path. */
  function PushUrl(address: string): (u: string)
    ensures |u| == |address| + |PushPath|
    ensures u[..|address|] == address && u[|address|..] == PushPath
  {
    address + PushPath
  }

  /** The one HTTP request a call sends. */
  datatype Request = Request(verb: string, url: string, contentType: string, body: string)

  function PostRequest(address: string, body: string): Request {
    Request("POST", PushUrl(address), "application/json", body)
  }

  /**
    What the HTTP machinery reports for a request: it could not be built,
    it could not be completed, or the backend answered with a status code.
   */
  datatype Exchange =
    | RequestRejected(reason: string)
    | NetworkFailed(reason: string)
    | Responded(status: nat)

  /** The failures `send` returns, in the order they are checked. */
  datatype SendError =
    | PayloadFailed(reason: string)
    | RequestFailed(reason: string)
    | TransportFailed(reason: string)
    | StatusRejected(status: nat, body: string)

  /** Statuses the backend uses to accept a push: OK and No Content. */
  predicate IsSuccessStatus(status: nat) {
    status == 200 || status == 204
  }

  const PayloadContext := "makePayload error: "
  const MarshalContext := "can't marshal json to loki: "
  const RequestContext := "create post request to loki: "
  const TransportContext := "send post request to loki: "
  const StatusPrefix := "loki response: "
  const BodySeparator := "\t request was: "

  /** `t` begins with `p`. */
  predicate StartsWith(t: string, p: string) {
    |p| <= |t| && t[..|p|] == p
  }

  /** `t` finishes with `p`. */
  predicate EndsWith(t: string, p: string) {
    |p| <= |t| && t[|t| - |p|..] == p
  }

  /**
    The error's text as the Go `Error()` method renders it: each stage's
    context, then the wrapped error (`reason`), or for a rejection the code
    and the body that was sent.
   */
  function ErrorText(e: SendError): (r: string)
    ensures e.PayloadFailed? ==>
      StartsWith(r, PayloadContext + MarshalContext) && EndsWith(r, e.reason)
      && |r| == |PayloadContext| + |MarshalContext| + |e.reason|
    ensures e.RequestFailed? ==>
      StartsWith(r, RequestContext) && EndsWith(r, e.reason) && |r| == |RequestContext| + |e.reason|
    ensures e.TransportFailed? ==>
      StartsWith(r, TransportContext) && EndsWith(r, e.reason) && |r| == |TransportContext| + |e.reason|
    ensures e.StatusRejected? ==>
      StartsWith(r, StatusPrefix + FromNat(e.status) + BodySeparator) && EndsWith(r, e.body)
  {
    match e
    case PayloadFailed(reason) => PayloadContext + (MarshalContext + reason)
    case RequestFailed(reason) => RequestContext + reason
    case TransportFailed(reason) => TransportContext + reason
    case StatusRejected(status, body) => StatusPrefix + FromNat(status) + BodySeparator + body
  }

  /** What one send did: the requests it handed to the HTTP client, and its result. */
  datatype Delivery = Delivery(sent: seq<Request>, result: Result<(), SendError>)

  /**
    Delivers one record. `marshal` stands for JSON encoding (an error string
    on failure); `exchange` stands for building and performing the HTTP
    request. `sent` records every request handed to `exchange`, the HTTP
    client: at most one, since there is no retry.
   */
  function Send(config: Config, line: string, callLabels: Option<Labels>, now: nat,
                marshal: Payload -> Result<string, string>, exchange: Request -> Exchange): (d: Delivery)
    ensures |d.sent| <= 1
    ensures var encoded := marshal(BuildPayload(config, line, callLabels, now));
      && (encoded.Err? ==> d.sent == [] && d.result == Err(PayloadFailed(encoded.error)))
      && (encoded.Ok? ==>
            var request := PostRequest(config.address, encoded.value);
            var reply := exchange(request);
            && d.sent == [request]
            && (reply.RequestRejected? ==> d.result == Err(RequestFailed(reply.reason)))
            && (reply.NetworkFailed? ==> d.result == Err(TransportFailed(reply.reason)))
            && (reply.Responded? && IsSuccessStatus(reply.status) ==> d.result == Ok(()))
            && (reply.Responded? && !IsSuccessStatus(reply.status) ==>
                  d.result == Err(StatusRejected(reply.status, encoded.value))))
  {
    match marshal(BuildPayload(config, line, callLabels, now))
    case Err(e) => Delivery([], Err(PayloadFailed(e)))
    case Ok(body) =>
      var request := PostRequest(config.address, body);
      var result :=
        match exchange(request)
        case RequestRejected(e) => Err(RequestFailed(e))
        case NetworkFailed(e) => Err(TransportFailed(e))
        case Responded(status) =>
          if !IsSuccessStatus(status) then Err(StatusRejected(status, body)) else Ok(());
      Delivery([request], result)
  }

  /** A send succeeds exactly when the payload encodes and the backend answers 200 or 204. */
  lemma SendSucceedsIff(config: Config, line: string, callLabels: Option<Labels>, now: nat,
                        marshal: Payload -> Result<string, string>, exchange: Request -> Exchange)
    ensures Send(config, line, callLabels, now, marshal, exchange).result.Ok? <==>
      var encoded := marshal(BuildPayload(config, line, callLabels, now));
      && encoded.Ok?
      && exchange(PostRequest(config.address, encoded.value)).Responded?
      && IsSuccessStatus(exchange(PostRequest(config.address, encoded.value)).status)
  {
  }

  /**
    Reads a status-rejection text back: the prefix, the decimal code, the
    separator and then the body that was sent.
   */
  function ParseStatusReport(t: string): Option<(nat, string)> {
    if |t| < |StatusPrefix| || t[..|StatusPrefix|] != StatusPrefix then None
    else
      var rest := t[|StatusPrefix|..];
      var n := LeadingDigits(rest);
      var tail := rest[n..];
      if n == 0 || |tail| < |BodySeparator| || tail[..|BodySeparator|] != BodySeparator then None
      else Some((ToNat(rest[..n]), tail[|BodySeparator|..]))
  }

  /** The parser takes a prefix, a digit run, the separator and a body apart again. */
  lemma ParseComposedReport(d: string, body: string)
    requires IsCanonical(d)
    ensures ParseStatusReport(StatusPrefix + d + BodySeparator + body) == Some((ToNat(d), body))
  {
    var t := StatusPrefix + d + BodySeparator + body;
    assert t == StatusPrefix + (d + (BodySeparator + body));
    var rest := t[|StatusPrefix|..];
    assert rest == d + (BodySeparator + body);
    assert t[..|StatusPrefix|] == StatusPrefix;
    LeadingDigitsOfConcat(d, BodySeparator + body);
    assert rest[..|d|] == d;
    var tail := rest[|d|..];
    assert tail == BodySeparator + body;
    assert tail[..|BodySeparator|] == BodySeparator;
    assert tail[|BodySeparator|..] == body;
  }

  /** A rejection's text names the status code and carries the whole body, recoverably. */
  lemma StatusReportRoundTrip(status: nat, body: string)
    ensures ParseStatusReport(ErrorText(StatusRejected(status, body))) == Some((status, body))
  {
    ParseComposedReport(FromNat(status), body);
    ToNatFromNat(status);
  }

  /** Only a status rejection reads as one: the other failures' texts never parse. */
  lemma OnlyStatusRejectionsParse(e: SendError)
    requires !e.StatusRejected?
    ensures ParseStatusReport(ErrorText(e)) == None
  {
    var t := ErrorText(e);
    assert t[0] != StatusPrefix[0] by {
      match e
      case PayloadFailed(reason) =>
        assert t[0] == 'm';
      case RequestFailed(reason) => assert t[0] == 'c';
      case TransportFailed(reason) => assert t[0] == 's';
    }
    assert t[..|StatusPrefix|] != StatusPrefix by {
      assert t[..|StatusPrefix|][0] == t[0];
    }
  }
}
