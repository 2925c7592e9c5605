/** The feature end to end: the view model launches a fetch, the data source
    answers it through the Binance client, and the view model applies the
    one result its flow emits. */
module BinancePipeline {
  import opened Outcomes
  import opened Domain
  import opened NetworkClient
  import BinanceApi
  import BinanceDataSource
  import opened BinancePresentation

  /** Creating the view model, then completing the prices fetch it starts. */
  method LoadPricesOnCreation(net: BinanceApi.Network) returns (s: State)
    ensures !s.isLoadingPrices && !s.isLoadingTicker && !s.isTickerDialogVisible
    ensures s.selectedSymbol.None? && s.ticker.None?
    ensures !net.reachable ==> s.prices == [] && s.error == Some(NoConnection)
    ensures
      var sent := net.transport(BinanceApi.RequestUrl(BinanceApi.GetAllPrices));
      net.reachable && sent.Returned? && IsSuccess(sent.value.status)
        && net.decodePrices(sent.value).Returned? ==>
      s.prices == net.decodePrices(sent.value).value && s.error.None?
  {
    var vm := new BinanceViewModel();
    var fetch := BinanceDataSource.GetAllPrices(net);
    vm.CompletePrices(Collected(fetch.emitted));
    s := vm.state;
    var sent := net.transport(BinanceApi.RequestUrl(BinanceApi.GetAllPrices));
    if net.reachable && sent.Returned? && IsSuccess(sent.value.status)
       && net.decodePrices(sent.value).Returned? {
      BinanceDataSource.PricesSuccessIff(net, net.decodePrices(sent.value).value);
    }
    if fetch.emitted.Returned? {
      PricesCompletedWithOneResult(PricesStarted(DefaultState()), fetch.emitted.value[0]);
      assert fetch.emitted.value == [fetch.emitted.value[0]];
    }
  }

  /** Selecting a symbol, then completing the ticker fetch it launches: the
      ticker is shown exactly when a record was decoded from a 2xx answer to
      the GET for that symbol, and is that record. */
  method SelectSymbolAndFetchTicker(net: BinanceApi.Network, symbol: string) returns (s: State)
    ensures s.selectedSymbol == Some(symbol) && s.isTickerDialogVisible
    ensures !s.isLoadingTicker && s.isLoadingPrices
    ensures
      var sent := net.transport(BinanceApi.RequestUrl(BinanceApi.Get24hTicker(symbol)));
      s.ticker.Some? <==>
        net.reachable && sent.Returned? && IsSuccess(sent.value.status)
        && net.decodeTicker(sent.value).Returned?
    ensures
      var sent := net.transport(BinanceApi.RequestUrl(BinanceApi.Get24hTicker(symbol)));
      s.ticker.Some? ==> net.decodeTicker(sent.value) == Returned(s.ticker.value)
    ensures !net.reachable ==> s.error == Some(NoConnection)
  {
    var vm := new BinanceViewModel();
    var launched := vm.Accept(SelectSymbol(symbol));
    var fetch := BinanceDataSource.Get24hTicker(net, launched.value.symbol);
    var before := vm.state;
    vm.CompleteTicker(launched.value.symbol, Collected(fetch.emitted));
    s := vm.state;
    var sent := net.transport(BinanceApi.RequestUrl(BinanceApi.Get24hTicker(symbol)));
    if fetch.emitted.Returned? {
      var r := fetch.emitted.value[0];
      assert fetch.emitted.value == [r];
      TickerCompletedWithOneResult(before, r);
      if r.Success? {
        BinanceDataSource.TickerSuccessIff(net, symbol, r.data);
      }
    }
    if net.reachable && sent.Returned? && IsSuccess(sent.value.status)
       && net.decodeTicker(sent.value).Returned? {
      BinanceDataSource.TickerSuccessIff(net, symbol, net.decodeTicker(sent.value).value);
    }
  }
}
