/** The `Pushwoosh` API client: one `createMessage` request per pending
    batch, a single retry on a transient server error, the checks on the
    decoded response and the translation of the returned message ids; and
    the pending batch that calls it. */
module Client {
  import opened Values
  import opened Errors
  import opened Message

  /** The id the API returns for a message sent to fewer than 10 unique
      devices, where it assigns none. */
  const NoCode := "CODE_NOT_AVAILABLE"

  const Endpoint := "https://cp.pushwoosh.com/json/1.3/createMessage"

  const JsonHeaders: map<string, string> :=
    map["Accept" := "application/json", "Content-Type" := "application/json"]

  /** The message of the exception raised when no response was obtained. */
  const FailedToCreate := "Failed to create message(s)"

  /** The fields of a decoded response body that the client looks at.
      `unknownDevices` is `Null` when `response.UnknownDevices` is absent
      or null, which is when `isset` is false. */
  datatype ApiResponse = ApiResponse(
    statusCode: Option<int>,
    statusMessage: Option<string>,
    unknownDevices: Value,
    messages: Option<seq<string>>)

  /** What one call of the transport's `send` does: return a response, or throw. */
  datatype Attempt = Delivered(response: ApiResponse) | Failed(error: TransportError)

  /** The HTTP request `createMessage` sends: the method, the endpoint, the
      JSON headers and the messages of the pending batch it serialises. */
  datatype Request = Request(verb: string, uri: string, headers: map<string, string>,
                             notifications: seq<PushwooshMessage>)

  function RequestFor(messages: seq<PushwooshMessage>): Request {
    Request("POST", Endpoint, JsonHeaders, messages)
  }

  // ----- The id translation -----

  /** The `array_map` over `response.Messages`: the sentinel becomes null,
      every other id passes through, position by position. */
  function MapIdentifiers(ids: seq<string>): (r: seq<Option<string>>)
    ensures |r| == |ids|
    ensures forall i :: 0 <= i < |ids| ==> (r[i].None? <==> ids[i] == NoCode)
    ensures forall i :: 0 <= i < |ids| && r[i].Some? ==> r[i].value == ids[i]
  {
    if ids == [] then []
    else [if ids[0] != NoCode then Some(ids[0]) else None] + MapIdentifiers(ids[1..])
  }

  /** The inverse translation: null back to the sentinel. */
  function RestoreIdentifiers(ids: seq<Option<string>>): (r: seq<string>)
    ensures |r| == |ids|
  {
    if ids == [] then []
    else [ids[0].GetOr(NoCode)] + RestoreIdentifiers(ids[1..])
  }

  /** No information is lost: the API's list is recovered from the result. */
  lemma {:induction false} IdentifiersRoundTrip(ids: seq<string>)
    ensures RestoreIdentifiers(MapIdentifiers(ids)) == ids
  {
    if ids != [] {
      IdentifiersRoundTrip(ids[1..]);
      assert MapIdentifiers(ids)[1..] == MapIdentifiers(ids[1..]);
    }
  }

  /** Every result list without a literal sentinel id is the translation of
      exactly one API list. */
  lemma {:induction false} IdentifiersRoundTripBack(r: seq<Option<string>>)
    requires forall i :: 0 <= i < |r| ==> r[i] != Some(NoCode)
    ensures MapIdentifiers(RestoreIdentifiers(r)) == r
  {
    if r != [] {
      IdentifiersRoundTripBack(r[1..]);
      assert RestoreIdentifiers(r)[1..] == RestoreIdentifiers(r[1..]);
    }
  }

  // ----- The response checks -----

  /** A missing status code is not an error; a present one must be 200. */
  predicate StatusOk(resp: ApiResponse) {
    resp.statusCode.None? || resp.statusCode.value == 200
  }

  predicate Accepted(resp: ApiResponse) {
    StatusOk(resp) && resp.unknownDevices == Null
  }

  /** What `createMessage` makes of a response: the status check first, then
      the unknown devices, then the ids of the created messages (none when
      the response lists none). An absent `status_message` reaches the
      exception as null, which PHP turns into "". */
  function Interpret(resp: ApiResponse): (r: Result<seq<Option<string>>>)
    ensures !StatusOk(resp) ==> r == Failure(ApiError(resp.statusMessage.GetOr("")))
    ensures StatusOk(resp) && resp.unknownDevices != Null ==> r == Failure(UnknownDevice(resp.unknownDevices))
    ensures r.Success? <==> Accepted(resp)
    ensures r.Success? && resp.messages.None? ==> r.value == []
    ensures r.Success? && resp.messages.Some? ==>
      && |r.value| == |resp.messages.value|
      && forall i :: 0 <= i < |r.value| ==>
           r.value[i] == (if resp.messages.value[i] == NoCode then None else Some(resp.messages.value[i]))
  {
    if !StatusOk(resp) then Failure(ApiError(resp.statusMessage.GetOr("")))
    else if resp.unknownDevices != Null then Failure(UnknownDevice(resp.unknownDevices))
    else if resp.messages.Some? then Success(MapIdentifiers(resp.messages.value))
    else Success([])
  }

  // ----- The transport and the retry -----

  /** `tryAgainIfCausedByPushwooshServerError`: a second send only for a
      server error; if that also throws, the inner `catch` rebinds `$e`, so
      the exception wraps the second error. */
  function Retry(e: TransportError, second: Attempt): (r: Result<ApiResponse>)
    ensures r.Success? <==> CausedByPushwooshServerError(e) && second.Delivered?
    ensures r.Success? ==> r.value == second.response
    ensures r.Failure? ==>
      r.error == CommFailure(FailedToCreate, if CausedByPushwooshServerError(e) then second.error else e)
  {
    if CausedByPushwooshServerError(e) then
      match second
      case Delivered(resp) => Success(resp)
      case Failed(e2) => Failure(CommFailure(FailedToCreate, e2))
    else
      Failure(CommFailure(FailedToCreate, e))
  }

  /** How many requests one `createMessage` sends, given its first attempt. */
  function SendCount(first: Attempt): (n: nat)
    ensures 1 <= n <= 2
    ensures n == 2 <==> first.Failed? && CausedByPushwooshServerError(first.error)
  {
    if first.Failed? && CausedByPushwooshServerError(first.error) then 2 else 1
  }

  /** The response `createMessage` goes on with, or the failure that ends it. */
  function Deliver(first: Attempt, second: Attempt): (r: Result<ApiResponse>)
    ensures r.Success? <==> first.Delivered? || (SendCount(first) == 2 && second.Delivered?)
    ensures r.Success? ==> r.value == (if first.Delivered? then first.response else second.response)
  {
    match first
    case Delivered(resp) => Success(resp)
    case Failed(e) => Retry(e, second)
  }

  /** The whole of `createMessage` for the given first and (possible) second
      reply of the transport. */
  function CreateMessageResult(first: Attempt, second: Attempt): (r: Result<seq<Option<string>>>)
    ensures r.Success? <==> Deliver(first, second).Success? && Accepted(Deliver(first, second).value)
    ensures (r.Failure? && r.error.CommFailure?) <==> Deliver(first, second).Failure?
    ensures r.Failure? && r.error.CommFailure? ==>
      r.error == CommFailure(FailedToCreate, if SendCount(first) == 2 then second.error else first.error)
  {
    match Deliver(first, second)
    case Failure(e) => Failure(e)
    case Success(resp) => Interpret(resp)
  }

  /** A response with a bad status fails with the API's message even when it
      also lists unknown devices: the status is checked first. */
  lemma StatusCheckedFirst(first: Attempt, second: Attempt)
    requires Deliver(first, second).Success? && !StatusOk(Deliver(first, second).value)
    ensures CreateMessageResult(first, second)
         == Failure(ApiError(Deliver(first, second).value.statusMessage.GetOr("")))
  {
  }

  /** A transient error followed by a good reply is as good as a good first reply. */
  lemma RetryRecovers(e: TransportError, reply: ApiResponse)
    requires CausedByPushwooshServerError(e)
    ensures CreateMessageResult(Failed(e), Delivered(reply)) == CreateMessageResult(Delivered(reply), Failed(e))
    ensures CreateMessageResult(Failed(e), Delivered(reply)) == Interpret(reply)
  {
  }

  // ----- The objects -----

  /** A transport whose replies are fixed in advance: the n-th request it is
      given gets `script(n)`. It records every request. */
  class HttpClient {
    const script: nat -> Attempt
    var log: seq<Request>

    constructor (script: nat -> Attempt)
      ensures this.script == script && log == []
    {
      this.script := script;
      log := [];
    }

    method Send(request: Request) returns (a: Attempt)
      modifies this
      ensures log == old(log) + [request]
      ensures a == script(|old(log)|)
    {
      a := script(|log|);
      log := log + [request];
    }
  }

  class Pushwoosh {
    const application: string
    const client: HttpClient
    const token: string
    /** How often `createMessage` has been called (what a test's mock counts). */
    ghost var createMessageCalls: nat

    constructor (client: HttpClient, application: string, token: string)
      ensures this.client == client && this.application == application && this.token == token
      ensures createMessageCalls == 0
    {
      this.application := application;
      this.client := client;
      this.token := token;
      createMessageCalls := 0;
    }

    function GetApiToken(): string {
      token
    }

    function GetApplicationCode(): string {
      application
    }

    /** Sends the batch once, retries once on a transient server error, then
        checks the response; `wasSent` is called only when both checks pass. */
    method CreateMessage(message: PushwooshPendingMessage) returns (ids: Result<seq<Option<string>>>)
      modifies this, client, message
      ensures createMessageCalls == old(createMessageCalls) + 1
      ensures var first := client.script(|old(client.log)|);
        && ids == CreateMessageResult(first, client.script(|old(client.log)| + 1))
        && client.log == old(client.log) + seq(SendCount(first), _ => RequestFor(old(message.messages)))
      ensures message.messages == old(message.messages)
      ensures message.sentCalls == old(message.sentCalls) + (if ids.Success? then 1 else 0)
    {
      createMessageCalls := createMessageCalls + 1;
      var request := RequestFor(message.messages);
      var response: ApiResponse;
      var first := client.Send(request);
      if first.Failed? {
        var retried := TryAgainIfCausedByPushwooshServerError(request, first.error);
        assert client.log == old(client.log) + seq(SendCount(first), _ => request);
        if retried.Failure? {
          return Failure(retried.error);
        }
        response := retried.value;
      } else {
        response := first.response;
      }
      if response.statusCode.Some? && response.statusCode.value != 200 {
        return Failure(ApiError(response.statusMessage.GetOr("")));
      }
      if response.unknownDevices != Null {
        return Failure(UnknownDevice(response.unknownDevices));
      }
      message.WasSent();
      if response.messages.Some? {
        ids := Success(MapIdentifiers(response.messages.value));
      } else {
        ids := Success([]);
      }
    }

    /** `send`: a new pending batch holding just this message; no request is made. */
    method Send(message: PushwooshMessage) returns (pending: PushwooshPendingMessage)
      ensures fresh(pending)
      ensures pending.pushwoosh == this && pending.messages == [message] && pending.sentCalls == 0
    {
      pending := new PushwooshPendingMessage(this);
      pending.Queue(message);
    }

    method TryAgainIfCausedByPushwooshServerError(request: Request, e: TransportError) returns (r: Result<ApiResponse>)
      modifies client
      ensures r == Retry(e, client.script(|old(client.log)|))
      ensures client.log == old(client.log) + (if CausedByPushwooshServerError(e) then [request] else [])
    {
      if CausedByPushwooshServerError(e) {
        var second := client.Send(request);
        if second.Delivered? {
          return Success(second.response);
        }
        r := Failure(CommFailure(FailedToCreate, second.error));
      } else {
        r := Failure(CommFailure(FailedToCreate, e));
      }
    }
  }

  /** The pending batch, reduced to what its callers rely on: the queued
      messages in order, how often `wasSent` was called, and a flush that
      stands for its destructor. */
  class PushwooshPendingMessage {
    const pushwoosh: Pushwoosh
    var messages: seq<PushwooshMessage>
    var sentCalls: nat

    constructor (pushwoosh: Pushwoosh)
      ensures this.pushwoosh == pushwoosh && messages == [] && sentCalls == 0
    {
      this.pushwoosh := pushwoosh;
      messages := [];
      sentCalls := 0;
    }

    method Queue(message: PushwooshMessage)
      modifies this
      ensures messages == old(messages) + [message] && sentCalls == old(sentCalls)
    {
      messages := messages + [message];
    }

    method WasSent()
      modifies this
      ensures sentCalls == old(sentCalls) + 1 && messages == old(messages)
    {
      sentCalls := sentCalls + 1;
    }

    /** An empty batch makes no call; any other calls `createMessage` once. */
    method Flush() returns (ids: Option<Result<seq<Option<string>>>>)
      modifies this, pushwoosh, pushwoosh.client
      ensures old(messages) == [] ==> ids == None && unchanged(this, pushwoosh, pushwoosh.client)
      ensures old(messages) != [] ==>
        var n := |old(pushwoosh.client.log)|;
        && pushwoosh.createMessageCalls == old(pushwoosh.createMessageCalls) + 1
        && ids == Some(CreateMessageResult(pushwoosh.client.script(n), pushwoosh.client.script(n + 1)))
        && pushwoosh.client.log
           == old(pushwoosh.client.log) + seq(SendCount(pushwoosh.client.script(n)), _ => RequestFor(old(messages)))
        && sentCalls == old(sentCalls) + (if ids.value.Success? then 1 else 0)
        && messages == old(messages)
    {
      if messages == [] {
        return None;
      }
      var r := pushwoosh.CreateMessage(this);
      ids := Some(r);
    }
  }
}
