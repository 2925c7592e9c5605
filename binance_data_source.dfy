/** BinanceRemoteDataSourceImpl: each operation makes one getResponse call
    through the Binance client and emits one domain Result built from the
    envelope: the expected body variant is a success, anything else an error
    classified from the envelope's result code. The repository above it
    passes these flows through unchanged. */
module BinanceDataSource {
  import opened Outcomes
  import opened Domain
  import opened DataModels
  import opened NetworkClient
  import BinanceApi

  /** One collection of an operation's cold flow: the client hooks it caused
      and what it emitted, or how it ended instead. */
  datatype Fetch<+T> = Fetch(hooks: seq<Hook<BinanceApi.BinanceRequest>>,
                             emitted: Outcome<seq<Result<T, ErrorType>>>)

  /** The `when (val body = resp.body)` of getAllPrices. */
  function PricesResult(r: Response<BinanceApi.BinanceResponse>): (res: Result<seq<CoinShortModel>, ErrorType>)
    ensures res.Success? <==> r.body.Some? && r.body.value.Prices?
    ensures res.Success? ==> res.data == r.body.value.prices
    ensures res.Error? ==> res.error == MapToErrorType(r.resultCode)
  {
    match r.body
    case Some(Prices(items)) => Success(items)
    case _ => Error(MapToErrorType(r.resultCode))
  }

  /** The `when (val body = resp.body)` of get24hTicker. */
  function TickerResult(r: Response<BinanceApi.BinanceResponse>): (res: Result<CoinModel, ErrorType>)
    ensures res.Success? <==> r.body.Some? && r.body.value.Ticker24h?
    ensures res.Success? ==> res.data == r.body.value.ticker
    ensures res.Error? ==> res.error == MapToErrorType(r.resultCode)
  {
    match r.body
    case Some(Ticker24h(ticker)) => Success(ticker)
    case _ => Error(MapToErrorType(r.resultCode))
  }

  /** getAllPrices: one GetAllPrices request, at most one send, and exactly
      one emission unless the call is cancelled. */
  function GetAllPrices(net: BinanceApi.Network): (f: Fetch<seq<CoinShortModel>>)
    ensures Sends(f.hooks) == if net.reachable then [BinanceApi.GetAllPrices] else []
    ensures forall k :: 0 <= k < |f.hooks| ==> f.hooks[k].request == BinanceApi.GetAllPrices
    ensures f.emitted.Returned? ==> |f.emitted.value| == 1
    ensures !f.emitted.Threw?
  {
    var resp := BinanceApi.GetResponse(net, BinanceApi.GetAllPrices);
    Fetch(resp.hooks,
          match resp.outcome
          case Returned(r) => Returned([PricesResult(r)])
          case Cancelled => Cancelled
          case Threw(e) => Threw(e))
  }

  /** get24hTicker(symbol): one Get24hTicker request for that same symbol, at
      most one send, and exactly one emission unless cancelled. */
  function Get24hTicker(net: BinanceApi.Network, symbol: string): (f: Fetch<CoinModel>)
    ensures Sends(f.hooks) == if net.reachable then [BinanceApi.Get24hTicker(symbol)] else []
    ensures forall k :: 0 <= k < |f.hooks| ==> f.hooks[k].request == BinanceApi.Get24hTicker(symbol)
    ensures f.emitted.Returned? ==> |f.emitted.value| == 1
    ensures !f.emitted.Threw?
  {
    var resp := BinanceApi.GetResponse(net, BinanceApi.Get24hTicker(symbol));
    Fetch(resp.hooks,
          match resp.outcome
          case Returned(r) => Returned([TickerResult(r)])
          case Cancelled => Cancelled
          case Threw(e) => Threw(e))
  }

  /** Without internet nothing is sent and the one emission is
      Error(NoConnection). */
  lemma PricesWithoutInternet(net: BinanceApi.Network)
    requires !net.reachable
    ensures GetAllPrices(net) == Fetch([], Returned([Error(NoConnection)]))
  {
  }

  /** The prices are a success exactly when the price list was decoded from
      a 2xx answer to the all-prices GET, and then they are that list. */
  lemma PricesSuccessIff(net: BinanceApi.Network, items: seq<CoinShortModel>)
    ensures GetAllPrices(net).emitted == Returned([Success(items)]) <==>
      && net.reachable
      && var sent := net.transport(BinanceApi.RequestUrl(BinanceApi.GetAllPrices));
      && sent.Returned? && IsSuccess(sent.value.status)
      && net.decodePrices(sent.value) == Returned(items)
  {
  }

  /** The ticker is a success exactly when a ticker record was decoded from a
      2xx answer to the GET for that symbol, and then it is that record. */
  lemma TickerSuccessIff(net: BinanceApi.Network, symbol: string, ticker: CoinModel)
    ensures Get24hTicker(net, symbol).emitted == Returned([Success(ticker)]) <==>
      && net.reachable
      && var sent := net.transport(BinanceApi.RequestUrl(BinanceApi.Get24hTicker(symbol)));
      && sent.Returned? && IsSuccess(sent.value.status)
      && net.decodeTicker(sent.value) == Returned(ticker)
  {
  }

  /** A 4xx answer surfaces as Error(NoConnection), the same error as a lost
      connection. */
  lemma ClientErrorSurfacesAsNoConnection(net: BinanceApi.Network, response: HttpResponse)
    requires net.reachable
    requires net.transport(BinanceApi.RequestUrl(BinanceApi.GetAllPrices)) == Returned(response)
    requires 400 <= response.status <= 499
    ensures GetAllPrices(net).emitted == Returned([Error(NoConnection)])
  {
  }

  /** A 2xx answer whose body does not decode surfaces as
      Error(UnknownError). */
  lemma UndecodableTickerSurfacesAsUnknown(net: BinanceApi.Network, symbol: string,
                                           response: HttpResponse, e: Throwable)
    requires net.reachable
    requires net.transport(BinanceApi.RequestUrl(BinanceApi.Get24hTicker(symbol))) == Returned(response)
    requires IsSuccess(response.status)
    requires net.decodeTicker(response) == Threw(e)
    ensures Get24hTicker(net, symbol).emitted == Returned([Error(UnknownError)])
  {
  }
}
