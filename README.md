# KtorSample core in Dafny

A model of the request/response pipeline of the KtorSample Android app, a
demo client for two Binance REST endpoints. The pipeline has these layers:

- the generic network client (`HttpKtorNetworkClient.getResponse` and
  `mapToResponse`). It checks connectivity, sends the request once inside
  `runSafely`, and builds a `Response{resultCode, body?}` envelope.
- the classification of a status code into an `ErrorType`.
- the Binance client (`BinanceApi`). It maps each request variant to a GET
  and decodes the answer into the matching response variant.
- the remote data source. It turns one envelope into one domain `Result`.
- the `BinanceViewModel` state machine with its seven-field `State` and five
  intents.
- the text shown for each error type.

Modules, one per source file:

| module | file | models |
|---|---|---|
| `Outcomes` | outcomes.dfy | Kotlin nullables, how a call ends (`Returned`, `Cancelled`, `Threw`), `kotlin.Result` |
| `Domain` | domain.dfy | `ErrorType`, `Result<T, E>`, `CoinShortModel`, `CoinModel` |
| `DataModels` | data_models.dfy | `NetworkParams`, `StatusCode.mapToErrorType`, `Response` |
| `CoreUtils` | run_safely.dfy | `runSafely` |
| `NetworkClient` | network_client.dfy | `HttpKtorNetworkClient` |
| `BinanceApi` | binance_api.dfy | `BinanceRequest`, `BinanceResponse`, `BinanceApi` |
| `BinanceDataSource` | binance_data_source.dfy | `BinanceRemoteDataSourceImpl` |
| `BinancePresentation` | binance_view_model.dfy | `BinanceViewModel` (pure transitions and the class) |
| `BinancePipeline` | binance_pipeline.dfy | view model, data source and client run end to end |
| `ErrorToUi` | error_to_ui.dfy | `ErrorType.toUiText` |

How the model is built:

- A thrown exception is a value. `Outcome<T>` is `Returned(v)`,
  `Cancelled` (a `CancellationException`) or `Threw(e)`.
- The client's two abstract members are function parameters:
  `sendRequestByType` and `getResponseBodyByRequestType`.
- The client returns a trace of the hook calls it made. So "the request is
  sent once" and "the decoder is not called" are statements about the
  returned value.
- The world outside the core is one `Network` value: internet reachability,
  the Ktor transport and the two JSON decoders.
- The view model is a class with one mutable `state` field. Each fetch is two
  events. The start step runs inside `Accept` and returns the job it
  launched. The completion step (`CompletePrices`, `CompleteTicker`) applies
  each emitted `Result` in order, as `collect` does. Then it clears the
  loading flag, as `onCompletion` does.
- The caller applies completions one at a time, in any order. Ghost counters
  of the jobs still running make sure a completion only follows a start.

The model keeps three behaviours of the code that a reader may not expect:

- Every status in 400..499 is classified as `NoConnection`: StatusCode.kt:16
  sends the range from `BAD_REQUEST_CODE` (400, NetworkParams.kt:10) to 499
  to the `NO_CONNECTION` branch. `ClientErrorsClassifiedAsNoConnection` and
  `ClientErrorSurfacesAsNoConnection` state this.
- A ticker completion is applied even when another symbol has been selected
  since it started (`StaleTickerCompletionIsShown`).
- When two price loads overlap, the first completion clears the loading flag
  while the second is still running. An earlier failure can stay shown after
  a later success (`FailedThenSucceededPriceLoads`).

## Model

| member | source | states |
|---|---|---|
| `DataModels.MapToErrorType` | app/src/main/java/com/sample/ktorsample/core/data/models/StatusCode.kt:13-21 | total; `NoConnection` iff the code is -1 or in 400..499, `ServerError` iff in 500..599, `UnknownError` iff neither |
| `DataModels.NoConnectionCodeClassified` | app/src/main/java/com/sample/ktorsample/core/data/models/StatusCode.kt:15 | the code -1 (`NO_CONNECTION_CODE`) is `NoConnection` |
| `DataModels.ClientErrorsClassifiedAsNoConnection` | app/src/main/java/com/sample/ktorsample/core/data/models/StatusCode.kt:16 | every code in 400..499 is `NoConnection` |
| `DataModels.ServerErrorsClassified` | app/src/main/java/com/sample/ktorsample/core/data/models/StatusCode.kt:17 | every code in 500..599 is `ServerError` |
| `DataModels.OtherCodesClassifiedAsUnknown` | app/src/main/java/com/sample/ktorsample/core/data/models/StatusCode.kt:19 | every code other than -1 and outside 400..599 is `UnknownError` |
| `DataModels.DefaultResponse` | app/src/main/java/com/sample/ktorsample/core/data/models/Response.kt:8-11 | the default envelope has code 0 and no body |
| `DataModels.DefaultResponseClassifiedAsUnknown` | app/src/main/java/com/sample/ktorsample/core/data/models/Response.kt:9 | the default envelope's code 0 is `UnknownError` |
| `CoreUtils.RunSafely` | app/src/main/java/com/sample/ktorsample/core/utils/RunSafely.kt:40-48 | a returned value becomes success of that value; cancellation is rethrown and only then is the result cancelled; any other throwable becomes failure holding that throwable; runSafely itself never throws anything else |
| `CoreUtils.RunSafelyThenGetOrThrow` | app/src/main/java/com/sample/ktorsample/core/utils/RunSafely.kt:41-47 | nothing is lost: rethrowing the captured failure reproduces the block's own outcome |
| `NetworkClient.MapToResponse` | app/src/main/java/com/sample/ktorsample/core/data/HttpKtorNetworkClient.kt:73-99 | the decoder runs once for a 2xx status and never otherwise; a returned envelope carries the HTTP status; a body is present only for 2xx and is exactly what the decoder returned |
| `NetworkClient.GetResponse` | app/src/main/java/com/sample/ktorsample/core/data/HttpKtorNetworkClient.kt:51-64 | the request is sent exactly once with connectivity and never without; every hook gets the same request; getResponse never throws anything but cancellation; a body is present only with connectivity and a 2xx code equal to the transport's status, and it is the decoder's result for that response |
| `NetworkClient.NoInternet` | app/src/main/java/com/sample/ktorsample/core/data/HttpKtorNetworkClient.kt:52-62 | without internet the envelope is code -1 and no body, and no hook runs |
| `NetworkClient.DecodedBody` | app/src/main/java/com/sample/ktorsample/core/data/HttpKtorNetworkClient.kt:77-82 | a 2xx status with a successful decode gives code = status and body = the decoded value |
| `NetworkClient.UndecodableBody` | app/src/main/java/com/sample/ktorsample/core/data/HttpKtorNetworkClient.kt:83-93 | a 2xx status whose decode throws SerializationException or IOException gives code = status and no body |
| `NetworkClient.NonSuccessStatus` | app/src/main/java/com/sample/ktorsample/core/data/HttpKtorNetworkClient.kt:94-98 | a non-2xx status gives code = status and no body, and the decoder is not called |
| `NetworkClient.OtherFailure` | app/src/main/java/com/sample/ktorsample/core/data/HttpKtorNetworkClient.kt:53-60 | a send that throws, or a decode that throws any other throwable, gives the default envelope |
| `NetworkClient.Cancellation` | app/src/main/java/com/sample/ktorsample/core/data/HttpKtorNetworkClient.kt:53-57 | getResponse is cancelled iff there is connectivity and the send, or the decode of a 2xx answer, was cancelled |
| `BinanceApi.BinanceRequest.Path` | app/src/main/java/com/sample/ktorsample/feature/data/network/impl/models/BinanceRequest.kt:17-31 | `GetAllPrices` has the path /api/v3/ticker/price and `Get24hTicker` the path /api/v3/ticker/24hr, each iff it is that variant, so the two paths differ |
| `BinanceApi.SendRequestByType` | app/src/main/java/com/sample/ktorsample/feature/binance/data/network/impl/BinanceApi.kt:37-49 | the transport is called once, with a GET for the request's own path, the parameter symbol = s for `Get24hTicker(s)` and no parameter for `GetAllPrices`; its outcome is returned unchanged |
| `BinanceApi.RequestUrl` | app/src/main/java/com/sample/ktorsample/feature/binance/data/network/impl/BinanceApi.kt:37-49 | the GET that sendRequestByType hands to the transport: `GetAllPrices` has the path /api/v3/ticker/price and no parameters; `Get24hTicker(s)` has /api/v3/ticker/24hr and exactly the parameter symbol = s |
| `BinanceApi.RequestOfUrl` | app/src/main/java/com/sample/ktorsample/feature/data/network/impl/models/BinanceRequest.kt:12-32 | reads a GET back as a request; whatever it returns is issued as exactly that GET |
| `BinanceApi.RequestUrlRoundTrip` | app/src/main/java/com/sample/ktorsample/feature/data/network/impl/models/BinanceRequest.kt:22-31 | every request variant is read back from its own GET |
| `BinanceApi.RequestUrlInjective` | app/src/main/java/com/sample/ktorsample/feature/binance/data/network/impl/BinanceApi.kt:37-49 | two different requests never produce the same GET |
| `BinanceApi.GetResponseBodyByRequestType` | app/src/main/java/com/sample/ktorsample/feature/binance/data/network/impl/BinanceApi.kt:54-68 | a `GetAllPrices` body is always `Prices(list)` and a `Get24hTicker` body always `Ticker24h(record)`; the variants never cross; a decoder's cancellation or throwable passes through unchanged |
| `BinanceApi.GetResponse` | app/src/main/java/com/sample/ktorsample/feature/binance/data/network/impl/BinanceApi.kt:29-32 | with BinanceApi's two members plugged in, an envelope's body is always the variant its request asks for |
| `BinanceDataSource.PricesResult` | app/src/main/java/com/sample/ktorsample/feature/data/network/impl/BinanceRemoteDataSourceImpl.kt:32-35 | `Success(v)` iff the body is `Prices(v)`; otherwise `Error(mapToErrorType(resultCode))` |
| `BinanceDataSource.TickerResult` | app/src/main/java/com/sample/ktorsample/feature/data/network/impl/BinanceRemoteDataSourceImpl.kt:42-45 | `Success(v)` iff the body is `Ticker24h(v)`; otherwise `Error(mapToErrorType(resultCode))` |
| `BinanceDataSource.GetAllPrices` | app/src/main/java/com/sample/ktorsample/feature/data/network/impl/BinanceRemoteDataSourceImpl.kt:28-36 | the only request is `GetAllPrices`, and it is sent once with connectivity and never without; exactly one result is emitted unless cancelled; nothing is thrown but cancellation |
| `BinanceDataSource.Get24hTicker` | app/src/main/java/com/sample/ktorsample/feature/data/network/impl/BinanceRemoteDataSourceImpl.kt:38-46 | the only request is `Get24hTicker` for the same symbol, sent once with connectivity and never without; exactly one result unless cancelled; nothing is thrown but cancellation |
| `BinanceDataSource.PricesWithoutInternet` | app/src/main/java/com/sample/ktorsample/feature/data/network/impl/BinanceRemoteDataSourceImpl.kt:29-34 | without internet nothing is sent and the one emission is `Error(NoConnection)` |
| `BinanceDataSource.PricesSuccessIff` | app/src/main/java/com/sample/ktorsample/feature/data/network/impl/BinanceRemoteDataSourceImpl.kt:33 | the one emission is `Success(v)` iff the price-list GET got a 2xx answer that decoded to v |
| `BinanceDataSource.TickerSuccessIff` | app/src/main/java/com/sample/ktorsample/feature/data/network/impl/BinanceRemoteDataSourceImpl.kt:43 | the one emission is `Success(v)` iff the ticker GET for that symbol got a 2xx answer that decoded to v |
| `BinanceDataSource.ClientErrorSurfacesAsNoConnection` | app/src/main/java/com/sample/ktorsample/feature/data/network/impl/BinanceRemoteDataSourceImpl.kt:34 | a 4xx answer to the prices GET is emitted as `Error(NoConnection)` |
| `BinanceDataSource.UndecodableTickerSurfacesAsUnknown` | app/src/main/java/com/sample/ktorsample/feature/data/network/impl/BinanceRemoteDataSourceImpl.kt:44 | a 2xx ticker answer whose decode throws is emitted as `Error(UnknownError)` |
| `BinancePresentation.DefaultState` | app/src/main/java/com/sample/ktorsample/feature/presentation/BinanceViewModel.kt:23-31 | the default `State`: both loading flags false, no prices, no selected symbol, no ticker, no error, dialog hidden; it satisfies the state invariant |
| `BinancePresentation.PricesStarted` | app/src/main/java/com/sample/ktorsample/feature/presentation/BinanceViewModel.kt:61 | starting a prices load sets the loading flag and clears the error; nothing else changes |
| `BinancePresentation.SymbolSelected` | app/src/main/java/com/sample/ktorsample/feature/presentation/BinanceViewModel.kt:75-82 | selecting s sets the symbol to s, clears the ticker and the error and shows the dialog; nothing else changes |
| `BinancePresentation.TickerRefreshed` | app/src/main/java/com/sample/ktorsample/feature/presentation/BinanceViewModel.kt:86-88 | with no selected symbol nothing changes and no fetch starts; otherwise a fetch for the selected symbol starts, the ticker loads and the error is cleared; nothing else changes |
| `BinancePresentation.Accepted` | app/src/main/java/com/sample/ktorsample/feature/presentation/BinanceViewModel.kt:50-58 | each intent goes to its own handler: `LoadAllPrices` gives `PricesStarted` and is the only intent that launches the prices job; `SelectSymbol(s)` gives `SymbolSelected(s)` then `TickerRefreshed` and always launches the job for s; `RefreshTicker` gives `TickerRefreshed`; `ClearError` and `DismissTickerDialog` launch nothing and only clear the error or hide the dialog; a ticker job is for the symbol selected when it starts; the state invariant is kept |
| `BinancePresentation.PricesCompleted` | app/src/main/java/com/sample/ktorsample/feature/presentation/BinanceViewModel.kt:62-71 | after the prices flow ends the prices flag is cleared; only the prices flag, the prices and the error can have changed |
| `BinancePresentation.TickerCompleted` | app/src/main/java/com/sample/ktorsample/feature/presentation/BinanceViewModel.kt:89-98 | after the ticker flow ends the ticker flag is cleared; only the ticker flag, the ticker and the error can have changed |
| `BinancePresentation.WithPricesResult` | app/src/main/java/com/sample/ktorsample/feature/presentation/BinanceViewModel.kt:65-70 | `Success` sets the prices and keeps the error; `Error` sets the error and keeps the old prices; nothing else changes |
| `BinancePresentation.WithTickerResult` | app/src/main/java/com/sample/ktorsample/feature/presentation/BinanceViewModel.kt:92-97 | `Success` sets the ticker and keeps the error; `Error` sets the error and keeps the ticker; nothing else changes |
| `BinancePresentation.ApplyPricesResults` | app/src/main/java/com/sample/ktorsample/feature/presentation/BinanceViewModel.kt:63-70 | collecting a prices flow changes only the prices and the error; each ends as it was or as one emission set it; without `Error` emissions the error is kept |
| `BinancePresentation.ApplyTickerResults` | app/src/main/java/com/sample/ktorsample/feature/presentation/BinanceViewModel.kt:90-97 | collecting a ticker flow changes only the ticker and the error; each ends as it was or as one emission set it; without `Error` emissions the error is kept |
| `BinancePresentation.CompletionsKeepConsistent` | app/src/main/java/com/sample/ktorsample/feature/presentation/BinanceViewModel.kt:60-99 | a completion keeps the state invariant: a visible dialog, a loading ticker or a shown ticker each imply a selected symbol |
| `BinancePresentation.PricesCompletedWithOneResult` | app/src/main/java/com/sample/ktorsample/feature/presentation/BinanceViewModel.kt:63-70 | a prices fetch that emits one result applies it and then clears the loading flag |
| `BinancePresentation.TickerCompletedWithOneResult` | app/src/main/java/com/sample/ktorsample/feature/presentation/BinanceViewModel.kt:90-97 | a ticker fetch that emits one result applies it and then clears the loading flag |
| `BinancePresentation.PricesFlowDependsOnPricesAndError` | app/src/main/java/com/sample/ktorsample/feature/presentation/BinanceViewModel.kt:65-70 | the prices (and error) a prices flow leaves depend only on the prices (and error) it started from |
| `BinancePresentation.TickerFlowDependsOnTickerAndError` | app/src/main/java/com/sample/ktorsample/feature/presentation/BinanceViewModel.kt:92-97 | the ticker (and error) a ticker flow leaves depend only on the ticker (and error) it started from |
| `BinancePresentation.CompletionsCommute` | app/src/main/java/com/sample/ktorsample/feature/presentation/BinanceViewModel.kt:60-99 | a prices completion and a ticker completion reach the same state in either order, unless both emitted an error |
| `BinancePresentation.StaleTickerCompletionIsShown` | app/src/main/java/com/sample/ktorsample/feature/presentation/BinanceViewModel.kt:74-98 | select a, then b: the ticker fetched for a, if it completes last, is shown while b is selected |
| `BinancePresentation.FailedThenSucceededPriceLoads` | app/src/main/java/com/sample/ktorsample/feature/presentation/BinanceViewModel.kt:60-72 | sequential loads, failure then success: the success is shown with no error; overlapping loads: the first completion clears the flag early and the failure stays shown after the success |
| `BinancePresentation.BinanceViewModel.constructor` | app/src/main/java/com/sample/ktorsample/feature/presentation/BinanceViewModel.kt:23-48 | the default `State` (flags false, no prices, no symbol, ticker or error, dialog hidden), then the start of the initial prices load |
| `BinancePresentation.BinanceViewModel.Accept` | app/src/main/java/com/sample/ktorsample/feature/presentation/BinanceViewModel.kt:50-58 | the new state and the launched job are those of `Accepted`; `ClearError` and `DismissTickerDialog` change only their one field; the invariant is kept |
| `BinancePresentation.BinanceViewModel.LoadAllPrices` | app/src/main/java/com/sample/ktorsample/feature/presentation/BinanceViewModel.kt:60-61 | the state becomes `PricesStarted` of the old one and the prices job is launched |
| `BinancePresentation.BinanceViewModel.SelectSymbol` | app/src/main/java/com/sample/ktorsample/feature/presentation/BinanceViewModel.kt:74-84 | the state becomes `SymbolSelected` then `TickerRefreshed`, and the ticker job for that symbol is launched |
| `BinancePresentation.BinanceViewModel.RefreshTicker` | app/src/main/java/com/sample/ktorsample/feature/presentation/BinanceViewModel.kt:86-88 | the state and the launched job are those of `TickerRefreshed` |
| `BinancePresentation.BinanceViewModel.CompletePrices` | app/src/main/java/com/sample/ktorsample/feature/presentation/BinanceViewModel.kt:62-71 | every emission is applied in order, then the prices flag is cleared; the invariant is kept |
| `BinancePresentation.BinanceViewModel.CompleteTicker` | app/src/main/java/com/sample/ktorsample/feature/presentation/BinanceViewModel.kt:89-98 | every emission is applied in order, then the ticker flag is cleared; the invariant is kept |
| `BinancePipeline.LoadPricesOnCreation` | app/src/main/java/com/sample/ktorsample/feature/presentation/BinanceViewModel.kt:44-71 | after the initial load completes, the list decoded from a 2xx answer is shown with no error; without internet there are no prices and the error is `NoConnection` |
| `BinancePipeline.SelectSymbolAndFetchTicker` | app/src/main/java/com/sample/ktorsample/feature/presentation/BinanceViewModel.kt:74-98 | after selecting s and completing its fetch, the dialog is open, the ticker no longer loads, and a ticker is shown iff a record was decoded from a 2xx answer to the GET for s (and it is that record); without internet the error is `NoConnection` |
| `ErrorToUi.ToUiText` | app/src/main/java/com/sample/ktorsample/core/presentation/utils/ErrorToUi.kt:5-9 | each error type has its own fixed text: "Нет подключения к интернету", "Ошибка сервера", "Неизвестная ошибка" |
| `ErrorToUi.ErrorTypeOfUiText` | app/src/main/java/com/sample/ktorsample/core/presentation/utils/ErrorToUi.kt:5-9 | reads a text back as an error type; whatever it returns is shown as exactly that text |
| `ErrorToUi.UiTextRoundTrip` | app/src/main/java/com/sample/ktorsample/core/presentation/utils/ErrorToUi.kt:5-9 | every error type is read back from its own text |
| `ErrorToUi.ToUiTextInjective` | app/src/main/java/com/sample/ktorsample/core/presentation/utils/ErrorToUi.kt:5-9 | the three error types are shown with three different texts |

## Left out

- Compose UI (screens, dialogs, rows, loading and error views): rendering only. BinanceScreen.kt keeps a private copy of `toUiText` that is not modelled.
- Hilt/DI modules, `HttpClientFactory`, `SampleApp` and the Gradle files: configuration with no logic.
- The Ktor transport, the JSON decoding of `httpResponse.body()` and `isInternetReachable`: library calls, given as the fields of a `Network` value. `isSuccess()` is taken as 200..299. Of an `HttpResponse` only the status and the raw content are kept.
- Timber logging: it never affects control flow.
- `BinanceRepositoryImpl`: it returns the data source's flows unchanged, so the data source functions stand for it.
- Coroutines, `Flow`, `MutableStateFlow.update` and `viewModelScope`: each fetch is a start event and a completion event, applied one at a time. Interleaving inside one `update`, and true parallel threads, are not modelled.
- A flow cancelled before it emits is collected as no emissions. Its `onCompletion` still clears the flag.
- BinancePresentation.BinanceViewModel.constructor: the `init` block's `launch` is modelled as running the prices start step at once. This is what the main dispatcher does when the view model is created on the main thread.
- Status codes are unbounded integers. Kotlin `Int` wraps at 32 bits, but the core never does arithmetic on a code.
- `Response`'s `var` fields are never reassigned in the core, so the envelope is a value.
- Throwables are told apart only as SerializationException, IOException and any other. `CancellationException` is the `Cancelled` outcome.
- `runSafely` evaluates its block once. The model gives the block as the outcome of that one evaluation, so a retry cannot be expressed.
