/** Domain models: the error taxonomy, the domain Result, and the two coin
    records the Binance feature decodes. */
module Domain {

  /** ErrorType: the closed set of errors the UI can show. */
  datatype ErrorType = NoConnection | ServerError | UnknownError

  /** Result<T, E>: `Success(data)` or `Error(error)`. */
  datatype Result<+T, +E> = Success(data: T) | Error(error: E)

  /** CoinShortModel: one entry of the all-prices list. */
  datatype CoinShortModel = CoinShortModel(symbol: string, price: string)

  /** CoinModel: a 24-hour ticker record. Kotlin `Long` and `Int` fields are
      kept as `int`: the core never computes with them. */
  datatype CoinModel = CoinModel(
    askPrice: string,
    askQty: string,
    bidPrice: string,
    bidQty: string,
    closeTime: int,
    count: int,
    firstId: int,
    highPrice: string,
    lastId: int,
    lastPrice: string,
    lastQty: string,
    lowPrice: string,
    openPrice: string,
    openTime: int,
    prevClosePrice: string,
    priceChange: string,
    priceChangePercent: string,
    quoteVolume: string,
    symbol: string,
    volume: string,
    weightedAvgPrice: string)
}
