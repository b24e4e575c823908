/**
 * `sendRequest`: one HTTP exchange with the processor, sorted into a
 * transport failure, a non-200 status, or a 200 whose body is decoded.
 * The HTTP client itself is a parameter: a function from the request to
 * what the client reported.
 */
module Transport {
  import opened Wrappers
  import opened Platform
  import opened ServiceResults

  datatype Verb = Get | Post

  datatype HttpRequest = HttpRequest(verb: Verb, url: string, fields: map<string, Value>)

  /**
   * What `HttpClient` reported: no response (`false`) together with its
   * error list of code/message pairs, or a body with its status code.
   */
  datatype Exchange =
    | NoResponse(clientErrors: seq<(string, string)>)
    | Response(status: int, body: string)

  /** The HTTP client: every request gets some exchange. */
  type Network = HttpRequest -> Exchange

  /**
   * The result `sendRequest` is evidently meant to give. The data is set
   * only when the decoded body is truthy (a non-empty array); otherwise
   * the result keeps its initial empty data, so a 200 whose body does not
   * decode is still a success.
   */
  function Sent(exchange: Exchange, codec: Codec, msgs: Messages): (o: Outcome<map<string, Value>>)
    ensures o.psData == None && o.operation == None
    ensures o.IsSuccess() <==> exchange.Response? && exchange.status == 200
    ensures exchange.NoResponse? ==> o == Failed([msgs.queryError], NoData)
    ensures exchange.Response? && exchange.status != 200 ==>
              o == Failed([msgs.httpStatus(exchange.status), codec.encode(exchange.body)], NoData)
    ensures exchange.Response? && exchange.status == 200 ==>
              o.data == codec.decode(exchange.body).GetOr(map[])
  {
    match exchange
    case NoResponse(_) => Failed([msgs.queryError], NoData)
    case Response(status, body) =>
      if status != 200 then
        Failed([msgs.httpStatus(status), codec.encode(body)], NoData)
      else
        var decoded := codec.decode(body);
        if decoded.Some? && decoded.value != map[] then Started(decoded.value) else Started(NoData)
  }

  /**
   * `sendRequest` as written. A transport failure builds its error from
   * `Localization\Loc`, which does not resolve in the handler's namespace,
   * so PHP raises "class not found"; a non-200 status passes the body, a
   * string, to `encode(array $data)`, so PHP raises a TypeError. Only a 200
   * returns a result.
   */
  function SentAsWritten(exchange: Exchange, codec: Codec, msgs: Messages): (c: Completion<map<string, Value>>)
    ensures c.Raised? <==> !(exchange.Response? && exchange.status == 200)
    ensures c.Returned? ==> c.outcome == Sent(exchange, codec, msgs)
  {
    match exchange
    case NoResponse(_) => Raised("Error: Class 'Sale\\Handlers\\PaySystem\\Localization\\Loc' not found")
    case Response(status, body) =>
      if status != 200 then Raised("TypeError: encode(): Argument #1 ($data) must be of type array, string given")
      else Returned(Sent(exchange, codec, msgs))
  }

  /** The entries `code=message` of the debug line that lists the client's errors. */
  method ClientErrorEntries(clientErrors: seq<(string, string)>) returns (entries: seq<string>)
    ensures |entries| == |clientErrors|
    ensures forall i :: 0 <= i < |clientErrors| ==>
              entries[i] == clientErrors[i].0 + "=" + clientErrors[i].1
  {
    entries := [];
    var i := 0;
    while i < |clientErrors|
      invariant 0 <= i <= |clientErrors|
      invariant |entries| == i
      invariant forall j :: 0 <= j < i ==> entries[j] == clientErrors[j].0 + "=" + clientErrors[j].1
    {
      var (code, message) := clientErrors[i];
      entries := entries + [code + "=" + message];
      i := i + 1;
    }
  }

  /** Sends `request` once and records the outcome in a new result. */
  method SendRequest(net: Network, request: HttpRequest, codec: Codec, msgs: Messages)
    returns (result: ServiceResult<map<string, Value>>)
    ensures fresh(result)
    ensures result.Snapshot() == Sent(net(request), codec, msgs)
  {
    result := new ServiceResult(NoData);
    var exchange := net(request);
    if exchange.NoResponse? {
      if exchange.clientErrors != [] {
        // the entries only feed the debug log
        var entries := ClientErrorEntries(exchange.clientErrors);
      }
      result.AddError(msgs.queryError);
      return;
    }
    if exchange.status != 200 {
      result.AddErrors([msgs.httpStatus(exchange.status), codec.encode(exchange.body)]);
      return;
    }
    var decoded := codec.decode(exchange.body);
    if decoded.Some? && decoded.value != map[] {
      result.SetData(decoded.value);
    }
  }
}
