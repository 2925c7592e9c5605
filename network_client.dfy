/** HttpKtorNetworkClient: the generic request/response cycle shared by every
    feature client. The two abstract members a feature client implements,
    sendRequestByType and getResponseBodyByRequestType, are parameters here;
    a trace of hook calls records which of them ran, with which request. */
module NetworkClient {
  import opened Outcomes
  import opened DataModels
  import opened CoreUtils

  /** What the core reads of an io.ktor HttpResponse: the status value; the
      content is only ever read by the body decoder. */
  datatype HttpResponse = HttpResponse(status: int, content: string)

  /** io.ktor.http.isSuccess on a status value. */
  predicate IsSuccess(status: int)
  {
    200 <= status <= 299
  }

  /** A call of one of the two abstract members. */
  datatype Hook<+Req> =
    | SendRequest(request: Req)                // sendRequestByType(request)
    | DecodeBody(request: Req, status: int)    // getResponseBodyByRequestType(request, response)

  /** The hooks a call ran, in order, and how the call ended. */
  datatype Traced<+Req, +T> = Traced(hooks: seq<Hook<Req>>, outcome: Outcome<T>)

  /** The requests handed to sendRequestByType, in order. */
  function Sends<Req>(hooks: seq<Hook<Req>>): (r: seq<Req>)
    ensures |r| <= |hooks|
  {
    if hooks == [] then []
    else (if hooks[0].SendRequest? then [hooks[0].request] else []) + Sends(hooks[1..])
  }

  /** mapToResponse: a success status has its body decoded, and a decode
      that throws SerializationException or IOException leaves the body
      null; any other status keeps a null body without decoding. Other
      throwables and cancellation leave mapToResponse. */
  function MapToResponse<Req, B>(request: Req, response: HttpResponse,
                                 decode: (Req, HttpResponse) -> Outcome<B>): (x: Traced<Req, Response<B>>)
    ensures IsSuccess(response.status) ==> x.hooks == [DecodeBody(request, response.status)]
    ensures !IsSuccess(response.status) ==> x.hooks == []
    ensures x.outcome.Returned? ==> x.outcome.value.resultCode == StatusCode(response.status)
    ensures x.outcome.Returned? && x.outcome.value.body.Some? ==>
      IsSuccess(response.status) && decode(request, response) == Returned(x.outcome.value.body.value)
  {
    var status := StatusCode(response.status);
    if IsSuccess(response.status) then
      Traced([DecodeBody(request, response.status)],
             match decode(request, response)
             case Returned(body) => Returned(Response(status, Some(body)))
             case Cancelled => Cancelled
             case Threw(SerializationException(_)) => Returned(Response(status, None))
             case Threw(IOException(_)) => Returned(Response(status, None))
             case Threw(e) => Threw(e))
    else
      Traced([], Returned(Response(status, None)))
  }

  /** getResponse: without internet the envelope carries -1 and nothing is
      sent; otherwise the request is sent once and mapped inside runSafely,
      whose captured failures fall back to the default envelope. */
  function GetResponse<Req, B>(reachable: bool, request: Req,
                               send: Req -> Outcome<HttpResponse>,
                               decode: (Req, HttpResponse) -> Outcome<B>): (x: Traced<Req, Response<B>>)
    ensures Sends(x.hooks) == if reachable then [request] else []
    ensures |x.hooks| <= 2
    ensures forall k :: 0 <= k < |x.hooks| ==> x.hooks[k].request == request
    ensures !x.outcome.Threw?
    ensures x.outcome.Returned? && x.outcome.value.body.Some? ==>
      && reachable && send(request).Returned?
      && x.outcome.value.resultCode == StatusCode(send(request).value.status)
      && IsSuccess(send(request).value.status)
      && decode(request, send(request).value) == Returned(x.outcome.value.body.value)
  {
    if !reachable then
      Traced([], Returned(Response(StatusCode(NO_CONNECTION_CODE), None)))
    else
      var block: Traced<Req, Response<B>> :=
        match send(request)
        case Returned(response) =>
          var mapped := MapToResponse(request, response, decode);
          Traced([SendRequest(request)] + mapped.hooks, mapped.outcome)
        case Cancelled => Traced([SendRequest(request)], Cancelled)
        case Threw(e) => Traced([SendRequest(request)], Threw(e));
      Traced(block.hooks,
             match RunSafely(block.outcome)
             case Returned(caught) => Returned(GetOrNull(caught).GetOr(DefaultResponse()))
             case Cancelled => Cancelled
             case Threw(e) => Threw(e))
  }

  lemma NoInternet<Req, B>(request: Req, send: Req -> Outcome<HttpResponse>,
                                   decode: (Req, HttpResponse) -> Outcome<B>)
    ensures GetResponse(false, request, send, decode)
         == Traced([], Returned(Response(StatusCode(-1), None)))
  {
  }

  lemma DecodedBody<Req, B>(request: Req, send: Req -> Outcome<HttpResponse>,
                                    decode: (Req, HttpResponse) -> Outcome<B>,
                                    response: HttpResponse, body: B)
    requires send(request) == Returned(response) && IsSuccess(response.status)
    requires decode(request, response) == Returned(body)
    ensures GetResponse(true, request, send, decode)
         == Traced([SendRequest(request), DecodeBody(request, response.status)],
                   Returned(Response(StatusCode(response.status), Some(body))))
  {
  }

  lemma UndecodableBody<Req, B>(request: Req, send: Req -> Outcome<HttpResponse>,
                                        decode: (Req, HttpResponse) -> Outcome<B>,
                                        response: HttpResponse, e: Throwable)
    requires send(request) == Returned(response) && IsSuccess(response.status)
    requires decode(request, response) == Threw(e)
    requires e.SerializationException? || e.IOException?
    ensures GetResponse(true, request, send, decode)
         == Traced([SendRequest(request), DecodeBody(request, response.status)],
                   Returned(Response(StatusCode(response.status), None)))
  {
  }

  /** A status outside 2xx keeps its code, and the decoder never runs. */
  lemma NonSuccessStatus<Req, B>(request: Req, send: Req -> Outcome<HttpResponse>,
                                         decode: (Req, HttpResponse) -> Outcome<B>,
                                         response: HttpResponse)
    requires send(request) == Returned(response) && !IsSuccess(response.status)
    ensures GetResponse(true, request, send, decode)
         == Traced([SendRequest(request)], Returned(Response(StatusCode(response.status), None)))
  {
  }

  /** A send that throws, or a decode that throws anything but
      SerializationException or IOException, ends in the default envelope. */
  lemma OtherFailure<Req, B>(request: Req, send: Req -> Outcome<HttpResponse>,
                                     decode: (Req, HttpResponse) -> Outcome<B>)
    requires
      || send(request).Threw?
      || (&& send(request).Returned? && IsSuccess(send(request).value.status)
          && decode(request, send(request).value).Threw?
          && decode(request, send(request).value).error.OtherThrowable?)
    ensures GetResponse(true, request, send, decode).outcome == Returned(DefaultResponse())
  {
  }

  /** getResponse is cancelled exactly when the connection is up and one of
      the hooks it ran was cancelled. */
  lemma Cancellation<Req, B>(reachable: bool, request: Req, send: Req -> Outcome<HttpResponse>,
                             decode: (Req, HttpResponse) -> Outcome<B>)
    ensures GetResponse(reachable, request, send, decode).outcome.Cancelled? <==>
      && reachable
      && (|| send(request).Cancelled?
          || (&& send(request).Returned? && IsSuccess(send(request).value.status)
              && decode(request, send(request).value).Cancelled?))
  {
  }
}
