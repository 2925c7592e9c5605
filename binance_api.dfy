/** BinanceApi: the Binance feature client. Binds the two request variants to
    GET endpoints and decodes each answer into the response variant its
    request asks for. Transport and JSON decoding stay abstract, as fields of
    a Network value. */
module BinanceApi {
  import opened Outcomes
  import opened Domain
  import opened DataModels
  import opened NetworkClient

  const ALL_PRICES_PATH: string := "/api/v3/ticker/price"
  const TICKER_24H_PATH: string := "/api/v3/ticker/24hr"
  const SYMBOL_PARAMETER: string := "symbol"

  /** BinanceRequest, with its `path` property. */
  datatype BinanceRequest = GetAllPrices | Get24hTicker(symbol: string) {
    function Path(): (p: string)
      ensures GetAllPrices? <==> p == ALL_PRICES_PATH
      ensures Get24hTicker? <==> p == TICKER_24H_PATH
    {
      match this
      case GetAllPrices => ALL_PRICES_PATH
      case Get24hTicker(_) => TICKER_24H_PATH
    }
  }

  /** BinanceResponse. */
  datatype BinanceResponse = Prices(prices: seq<CoinShortModel>) | Ticker24h(ticker: CoinModel)

  /** A GET as the Ktor url builder leaves it: the encoded path and the query
      parameters in the order they were appended. */
  datatype HttpGet = HttpGet(encodedPath: string, parameters: seq<(string, string)>)

  /** Everything outside the core: whether the internet is reachable, the
      Ktor transport, and the JSON decoders behind `httpResponse.body()`. */
  datatype Network = Network(
    reachable: bool,
    transport: HttpGet -> Outcome<HttpResponse>,
    decodePrices: HttpResponse -> Outcome<seq<CoinShortModel>>,
    decodeTicker: HttpResponse -> Outcome<CoinModel>)

  /** The GET that sendRequestByType issues for a request. */
  function RequestUrl(request: BinanceRequest): (g: HttpGet)
    ensures g.encodedPath == request.Path()
    ensures request.GetAllPrices? ==> g.parameters == []
    ensures request.Get24hTicker? ==> g.parameters == [(SYMBOL_PARAMETER, request.symbol)]
  {
    match request
    case GetAllPrices => HttpGet(ALL_PRICES_PATH, [])
    case Get24hTicker(symbol) => HttpGet(TICKER_24H_PATH, [(SYMBOL_PARAMETER, symbol)])
  }

  /** Reads a GET back as the request that issues it, if any does. */
  function RequestOfUrl(g: HttpGet): (r: Option<BinanceRequest>)
    ensures r.Some? ==> RequestUrl(r.value) == g
  {
    if g.encodedPath == ALL_PRICES_PATH && g.parameters == [] then
      Some(GetAllPrices)
    else if g.encodedPath == TICKER_24H_PATH && |g.parameters| == 1
            && g.parameters[0].0 == SYMBOL_PARAMETER then
      Some(Get24hTicker(g.parameters[0].1))
    else
      None
  }

  lemma RequestUrlRoundTrip(request: BinanceRequest)
    ensures RequestOfUrl(RequestUrl(request)) == Some(request)
  {
  }

  /** Different requests never share a GET. */
  lemma RequestUrlInjective(a: BinanceRequest, b: BinanceRequest)
    requires RequestUrl(a) == RequestUrl(b)
    ensures a == b
  {
  }

  /** sendRequestByType: the transport is asked for the request's own path,
      with the symbol parameter for a ticker and no parameter otherwise. */
  function SendRequestByType(net: Network, request: BinanceRequest): (o: Outcome<HttpResponse>)
    ensures o == net.transport(HttpGet(request.Path(),
                                       if request.Get24hTicker? then [(SYMBOL_PARAMETER, request.symbol)] else []))
  {
    net.transport(RequestUrl(request))
  }

  /** The response variant a request is answered by. */
  predicate Answers(request: BinanceRequest, response: BinanceResponse)
  {
    match request
    case GetAllPrices => response.Prices?
    case Get24hTicker(_) => response.Ticker24h?
  }

  /** getResponseBodyByRequestType: decodes the list for GetAllPrices and the
      ticker record for Get24hTicker; a decoder's cancellation or throwable
      passes through unchanged. */
  function GetResponseBodyByRequestType(net: Network, request: BinanceRequest,
                                        response: HttpResponse): (x: Outcome<BinanceResponse>)
    ensures x.Returned? ==> Answers(request, x.value)
    ensures request.GetAllPrices? ==>
      match net.decodePrices(response)
      case Returned(items) => x == Returned(Prices(items))
      case Cancelled => x == Cancelled
      case Threw(e) => x == Threw(e)
    ensures request.Get24hTicker? ==>
      match net.decodeTicker(response)
      case Returned(ticker) => x == Returned(Ticker24h(ticker))
      case Cancelled => x == Cancelled
      case Threw(e) => x == Threw(e)
  {
    match request
    case GetAllPrices =>
      (match net.decodePrices(response)
       case Returned(items) => Returned(Prices(items))
       case Cancelled => Cancelled
       case Threw(e) => Threw(e))
    case Get24hTicker(_) =>
      (match net.decodeTicker(response)
       case Returned(ticker) => Returned(Ticker24h(ticker))
       case Cancelled => Cancelled
       case Threw(e) => Threw(e))
  }

  /** getResponse, inherited from HttpKtorNetworkClient, with BinanceApi's
      two members plugged in. */
  function GetResponse(net: Network, request: BinanceRequest): (x: Traced<BinanceRequest, Response<BinanceResponse>>)
    ensures x.outcome.Returned? && x.outcome.value.body.Some? ==>
      Answers(request, x.outcome.value.body.value)
  {
    NetworkClient.GetResponse(net.reachable, request,
                              r => SendRequestByType(net, r),
                              (r, h) => GetResponseBodyByRequestType(net, r, h))
  }
}
