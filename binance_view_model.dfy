/** BinanceViewModel: the screen state and the intents that change it.
    Every fetch is two events: a start step, run inside Accept, that returns
    the job it launches, and a completion step that applies what the job's
    flow emitted (collect) and then clears the loading flag (onCompletion).
    Completions may be applied in any order. */
module BinancePresentation {
  import opened Outcomes
  import opened Domain

  /** BinanceViewModel.State */
  datatype State = State(
    isLoadingPrices: bool,
    isLoadingTicker: bool,
    prices: seq<CoinShortModel>,
    selectedSymbol: Option<string>,
    ticker: Option<CoinModel>,
    error: Option<ErrorType>,
    isTickerDialogVisible: bool)

  /** `State()`: the constructor's defaults. */
  function DefaultState(): (s: State)
    ensures !s.isLoadingPrices && !s.isLoadingTicker && s.prices == []
    ensures s.selectedSymbol.None? && s.ticker.None? && s.error.None?
    ensures !s.isTickerDialogVisible
    ensures Consistent(s)
  {
    State(false, false, [], None, None, None, false)
  }

  /** BinanceViewModel.Intent */
  datatype Intent =
    | LoadAllPrices
    | SelectSymbol(symbol: string)
    | RefreshTicker
    | ClearError
    | DismissTickerDialog

  /** A coroutine launched by a start step: the prices fetch, or the ticker
      fetch for the symbol read when it was launched. */
  datatype Job = PricesJob | TickerJob(symbol: string)

  /** A start step's new state and the job it launched, if any. */
  datatype Step = Step(state: State, launched: Option<Job>)

  /** The facts about a state that every reachable state keeps. */
  predicate Consistent(s: State)
  {
    && (s.isTickerDialogVisible ==> s.selectedSymbol.Some?)
    && (s.isLoadingTicker ==> s.selectedSymbol.Some?)
    && (s.ticker.Some? ==> s.selectedSymbol.Some?)
  }

  /** The first update of loadAllPrices. */
  function PricesStarted(s: State): (t: State)
    ensures t.isLoadingPrices && t.error.None?
    ensures t.(isLoadingPrices := s.isLoadingPrices, error := s.error) == s
  {
    s.(isLoadingPrices := true, error := None)
  }

  /** The update of selectSymbol, before it refreshes the ticker. */
  function SymbolSelected(s: State, symbol: string): (t: State)
    ensures t.selectedSymbol == Some(symbol) && t.ticker.None? && t.error.None?
    ensures t.isTickerDialogVisible
    ensures t.(selectedSymbol := s.selectedSymbol, ticker := s.ticker, error := s.error,
               isTickerDialogVisible := s.isTickerDialogVisible) == s
  {
    s.(selectedSymbol := Some(symbol), ticker := None, error := None, isTickerDialogVisible := true)
  }

  /** refreshTicker: nothing without a selected symbol; otherwise the ticker
      is loading, the error is cleared and a fetch for that symbol starts. */
  function TickerRefreshed(s: State): (r: Step)
    ensures s.selectedSymbol.None? ==> r == Step(s, None)
    ensures s.selectedSymbol.Some? ==>
      && r.launched == Some(TickerJob(s.selectedSymbol.value))
      && r.state.isLoadingTicker && r.state.error.None?
      && r.state.(isLoadingTicker := s.isLoadingTicker, error := s.error) == s
  {
    match s.selectedSymbol
    case None => Step(s, None)
    case Some(symbol) => Step(s.(isLoadingTicker := true, error := None), Some(TickerJob(symbol)))
  }

  /** accept: only LoadAllPrices launches the prices job; a ticker job is
      launched for the symbol selected at that moment, and SelectSymbol
      always launches one for its own symbol. */
  function Accepted(s: State, intent: Intent): (r: Step)
    ensures r.launched == Some(PricesJob) <==> intent == LoadAllPrices
    ensures r.launched.Some? && r.launched.value.TickerJob? ==>
      r.state.selectedSymbol == Some(r.launched.value.symbol) && r.state.isLoadingTicker
    ensures intent.SelectSymbol? ==> r.launched == Some(TickerJob(intent.symbol))
    ensures intent == LoadAllPrices ==> r.state == PricesStarted(s)
    ensures intent.SelectSymbol? ==> r == TickerRefreshed(SymbolSelected(s, intent.symbol))
    ensures intent == RefreshTicker ==> r == TickerRefreshed(s)
    ensures intent == ClearError ==>
      r.launched.None? && r.state.error.None? && r.state.(error := s.error) == s
    ensures intent == DismissTickerDialog ==>
      && r.launched.None? && !r.state.isTickerDialogVisible
      && r.state.(isTickerDialogVisible := s.isTickerDialogVisible) == s
    ensures Consistent(s) ==> Consistent(r.state)
  {
    match intent
    case LoadAllPrices => Step(PricesStarted(s), Some(PricesJob))
    case SelectSymbol(symbol) => TickerRefreshed(SymbolSelected(s, symbol))
    case RefreshTicker => TickerRefreshed(s)
    case ClearError => Step(s.(error := None), None)
    case DismissTickerDialog => Step(s.(isTickerDialogVisible := false), None)
  }

  /** The collect handler of the prices fetch. */
  function WithPricesResult(s: State, r: Result<seq<CoinShortModel>, ErrorType>): (t: State)
    ensures r.Success? ==> t.prices == r.data && t.error == s.error
    ensures r.Error? ==> t.error == Some(r.error) && t.prices == s.prices
    ensures t.(prices := s.prices, error := s.error) == s
  {
    match r
    case Success(items) => s.(prices := items)
    case Error(e) => s.(error := Some(e))
  }

  /** The collect handler of the ticker fetch. */
  function WithTickerResult(s: State, r: Result<CoinModel, ErrorType>): (t: State)
    ensures r.Success? ==> t.ticker == Some(r.data) && t.error == s.error
    ensures r.Error? ==> t.error == Some(r.error) && t.ticker == s.ticker
    ensures t.(ticker := s.ticker, error := s.error) == s
  {
    match r
    case Success(ticker) => s.(ticker := Some(ticker))
    case Error(e) => s.(error := Some(e))
  }

  predicate NoErrors<T>(rs: seq<Result<T, ErrorType>>)
  {
    forall k :: 0 <= k < |rs| ==> rs[k].Success?
  }

  /** Every emission of a prices flow, in order. Only the prices and the
      error can change, and each ends as it was or as one emission set it. */
  function ApplyPricesResults(s: State, rs: seq<Result<seq<CoinShortModel>, ErrorType>>): (t: State)
    ensures t.(prices := s.prices, error := s.error) == s
    ensures t.prices == s.prices || exists k :: 0 <= k < |rs| && rs[k] == Success(t.prices)
    ensures t.error == s.error || exists k :: 0 <= k < |rs| && rs[k].Error? && Some(rs[k].error) == t.error
    ensures NoErrors(rs) ==> t.error == s.error
    decreases |rs|
  {
    if rs == [] then s
    else WithPricesResult(ApplyPricesResults(s, rs[..|rs| - 1]), rs[|rs| - 1])
  }

  /** Every emission of a ticker flow, in order. Only the ticker and the
      error can change, and each ends as it was or as one emission set it. */
  function ApplyTickerResults(s: State, rs: seq<Result<CoinModel, ErrorType>>): (t: State)
    ensures t.(ticker := s.ticker, error := s.error) == s
    ensures t.ticker == s.ticker || exists k :: 0 <= k < |rs| && rs[k].Success? && Some(rs[k].data) == t.ticker
    ensures t.error == s.error || exists k :: 0 <= k < |rs| && rs[k].Error? && Some(rs[k].error) == t.error
    ensures NoErrors(rs) ==> t.error == s.error
    decreases |rs|
  {
    if rs == [] then s
    else WithTickerResult(ApplyTickerResults(s, rs[..|rs| - 1]), rs[|rs| - 1])
  }

  /** The completion of a prices fetch: collect, then onCompletion. */
  function PricesCompleted(s: State, emitted: seq<Result<seq<CoinShortModel>, ErrorType>>): (t: State)
    ensures !t.isLoadingPrices
    ensures t.(isLoadingPrices := s.isLoadingPrices, prices := s.prices, error := s.error) == s
  {
    ApplyPricesResults(s, emitted).(isLoadingPrices := false)
  }

  /** The completion of a ticker fetch: collect, then onCompletion. */
  function TickerCompleted(s: State, emitted: seq<Result<CoinModel, ErrorType>>): (t: State)
    ensures !t.isLoadingTicker
    ensures t.(isLoadingTicker := s.isLoadingTicker, ticker := s.ticker, error := s.error) == s
  {
    ApplyTickerResults(s, emitted).(isLoadingTicker := false)
  }

  /** What a fetch's flow emitted, as the view model collects it: nothing
      when the flow was cancelled. */
  function Collected<T>(emitted: Outcome<seq<Result<T, ErrorType>>>): seq<Result<T, ErrorType>>
  {
    if emitted.Returned? then emitted.value else []
  }

  /** A completion keeps the facts every reachable state has; a ticker
      completion needs a selected symbol, which its start step had. */
  lemma CompletionsKeepConsistent(s: State, ep: seq<Result<seq<CoinShortModel>, ErrorType>>,
                                  et: seq<Result<CoinModel, ErrorType>>)
    requires Consistent(s)
    ensures Consistent(PricesCompleted(s, ep))
    ensures s.selectedSymbol.Some? ==> Consistent(TickerCompleted(s, et))
  {
  }

  /** A prices flow that emits one result: it is applied, then the flag is
      cleared. */
  lemma PricesCompletedWithOneResult(s: State, r: Result<seq<CoinShortModel>, ErrorType>)
    ensures PricesCompleted(s, [r]) == WithPricesResult(s, r).(isLoadingPrices := false)
  {
  }

  /** A ticker flow that emits one result: it is applied, then the flag is
      cleared. */
  lemma TickerCompletedWithOneResult(s: State, r: Result<CoinModel, ErrorType>)
    ensures TickerCompleted(s, [r]) == WithTickerResult(s, r).(isLoadingTicker := false)
  {
  }

  /** The prices and the error a prices flow leaves depend only on the
      prices and the error it started from. */
  lemma {:induction false} PricesFlowDependsOnPricesAndError(s: State, s': State,
                                                            rs: seq<Result<seq<CoinShortModel>, ErrorType>>)
    requires s'.prices == s.prices
    ensures ApplyPricesResults(s', rs).prices == ApplyPricesResults(s, rs).prices
    ensures s'.error == s.error ==> ApplyPricesResults(s', rs).error == ApplyPricesResults(s, rs).error
    decreases |rs|
  {
    if rs != [] {
      PricesFlowDependsOnPricesAndError(s, s', rs[..|rs| - 1]);
    }
  }

  /** The ticker and the error a ticker flow leaves depend only on the
      ticker and the error it started from. */
  lemma {:induction false} TickerFlowDependsOnTickerAndError(s: State, s': State,
                                                            rs: seq<Result<CoinModel, ErrorType>>)
    requires s'.ticker == s.ticker
    ensures ApplyTickerResults(s', rs).ticker == ApplyTickerResults(s, rs).ticker
    ensures s'.error == s.error ==> ApplyTickerResults(s', rs).error == ApplyTickerResults(s, rs).error
    decreases |rs|
  {
    if rs != [] {
      TickerFlowDependsOnTickerAndError(s, s', rs[..|rs| - 1]);
    }
  }

  /** A prices completion and a ticker completion lead to the same state in
      either order, unless both flows emitted an error (then the error
      applied last is the one shown). */
  lemma {:induction false} CompletionsCommute(s: State, ep: seq<Result<seq<CoinShortModel>, ErrorType>>,
                                              et: seq<Result<CoinModel, ErrorType>>)
    requires NoErrors(ep) || NoErrors(et)
    ensures PricesCompleted(TickerCompleted(s, et), ep) == TickerCompleted(PricesCompleted(s, ep), et)
  {
    var a := TickerCompleted(s, et);
    var b := PricesCompleted(s, ep);
    PricesFlowDependsOnPricesAndError(s, a, ep);
    TickerFlowDependsOnTickerAndError(s, b, et);
    if NoErrors(et) {
      assert a.error == s.error;
    } else {
      assert b.error == s.error;
    }
  }

  /** A completion is applied whatever has been selected since its start:
      after selecting a, then b, the ticker fetched for a, completing last,
      is shown while b is selected. */
  lemma StaleTickerCompletionIsShown(s: State, a: string, b: string, forA: CoinModel, forB: CoinModel)
    ensures
      var first := Accepted(s, SelectSymbol(a));
      var second := Accepted(first.state, SelectSymbol(b));
      var shown := TickerCompleted(TickerCompleted(second.state, [Success(forB)]), [Success(forA)]);
      && first.launched == Some(TickerJob(a))
      && second.launched == Some(TickerJob(b))
      && shown.selectedSymbol == Some(b)
      && shown.ticker == Some(forA)
      && !shown.isLoadingTicker
  {
  }

  /** Two prices loads. Started and completed one after the other, a failure
      then a success leave the success and no error. Started together, the
      first completion clears the loading flag while the second fetch is
      still running, and the failure stays shown after the success. */
  lemma FailedThenSucceededPriceLoads(s: State, e: ErrorType, items: seq<CoinShortModel>)
    ensures
      var first := PricesCompleted(Accepted(s, LoadAllPrices).state, [Error(e)]);
      var second := PricesCompleted(Accepted(first, LoadAllPrices).state, [Success(items)]);
      second.prices == items && second.error.None? && !second.isLoadingPrices
    ensures
      var started := Accepted(Accepted(s, LoadAllPrices).state, LoadAllPrices).state;
      var failed := PricesCompleted(started, [Error(e)]);
      var succeeded := PricesCompleted(failed, [Success(items)]);
      && !failed.isLoadingPrices
      && succeeded.prices == items && succeeded.error == Some(e) && !succeeded.isLoadingPrices
  {
  }

  /** The view model: `_state` is the one field the source updates. The
      ghost fields count the fetch jobs started and not yet completed, so
      that a completion can only be applied to a job that was launched. */
  class BinanceViewModel {
    var state: State
    ghost var pricesInFlight: nat
    ghost var tickersInFlight: multiset<string>

    ghost predicate Valid()
      reads this
    {
      && Consistent(state)
      && (pricesInFlight == 0 ==> !state.isLoadingPrices)
      && (tickersInFlight == multiset{} ==> !state.isLoadingTicker)
      && (tickersInFlight != multiset{} ==> state.selectedSymbol.Some?)
    }

    /** The default state, then the start of the prices fetch that `init`
        launches. */
    constructor ()
      ensures Valid()
      ensures state == PricesStarted(DefaultState())
      ensures pricesInFlight == 1 && tickersInFlight == multiset{}
    {
      state := DefaultState();
      pricesInFlight := 0;
      tickersInFlight := multiset{};
      new;
      var _ := LoadAllPrices();
    }

    /** accept */
    method Accept(intent: Intent) returns (launched: Option<Job>)
      requires Valid()
      modifies this
      ensures Valid()
      ensures Step(state, launched) == Accepted(old(state), intent)
      ensures pricesInFlight == old(pricesInFlight) + (if launched == Some(PricesJob) then 1 else 0)
      ensures tickersInFlight == old(tickersInFlight) +
        (if launched.Some? && launched.value.TickerJob? then multiset{launched.value.symbol} else multiset{})
    {
      match intent
      case LoadAllPrices =>
        var job := LoadAllPrices();
        launched := Some(job);
      case SelectSymbol(symbol) =>
        launched := SelectSymbol(symbol);
      case RefreshTicker =>
        launched := RefreshTicker();
      case ClearError =>
        state := state.(error := None);
        launched := None;
      case DismissTickerDialog =>
        state := state.(isTickerDialogVisible := false);
        launched := None;
    }

    /** loadAllPrices, start step. */
    method LoadAllPrices() returns (job: Job)
      requires Valid()
      modifies this
      ensures Valid()
      ensures state == PricesStarted(old(state)) && job == PricesJob
      ensures pricesInFlight == old(pricesInFlight) + 1 && tickersInFlight == old(tickersInFlight)
    {
      state := state.(isLoadingPrices := true, error := None);
      pricesInFlight := pricesInFlight + 1;
      job := PricesJob;
    }

    /** selectSymbol */
    method SelectSymbol(symbol: string) returns (launched: Option<Job>)
      requires Valid()
      modifies this
      ensures Valid()
      ensures Step(state, launched) == TickerRefreshed(SymbolSelected(old(state), symbol))
      ensures launched == Some(TickerJob(symbol))
      ensures pricesInFlight == old(pricesInFlight)
      ensures tickersInFlight == old(tickersInFlight) + multiset{symbol}
    {
      state := state.(selectedSymbol := Some(symbol), ticker := None, error := None,
                      isTickerDialogVisible := true);
      launched := RefreshTicker();
    }

    /** refreshTicker, start step. */
    method RefreshTicker() returns (launched: Option<Job>)
      requires Valid()
      modifies this
      ensures Valid()
      ensures Step(state, launched) == TickerRefreshed(old(state))
      ensures pricesInFlight == old(pricesInFlight)
      ensures tickersInFlight == old(tickersInFlight) +
        (if launched.Some? then multiset{old(state).selectedSymbol.value} else multiset{})
    {
      match state.selectedSymbol
      case None =>
        launched := None;
      case Some(symbol) =>
        state := state.(isLoadingTicker := true, error := None);
        tickersInFlight := tickersInFlight + multiset{symbol};
        launched := Some(TickerJob(symbol));
    }

    /** loadAllPrices, completion step: each emission is collected in
        order, then onCompletion clears the loading flag. */
    method CompletePrices(emitted: seq<Result<seq<CoinShortModel>, ErrorType>>)
      requires Valid() && pricesInFlight > 0
      modifies this
      ensures Valid()
      ensures state == PricesCompleted(old(state), emitted)
      ensures pricesInFlight == old(pricesInFlight) - 1 && tickersInFlight == old(tickersInFlight)
    {
      var i := 0;
      while i < |emitted|
        invariant 0 <= i <= |emitted|
        invariant state == ApplyPricesResults(old(state), emitted[..i])
        invariant pricesInFlight == old(pricesInFlight) && tickersInFlight == old(tickersInFlight)
      {
        assert emitted[..i + 1][..i] == emitted[..i];
        match emitted[i] {
          case Success(items) => state := state.(prices := items);
          case Error(e) => state := state.(error := Some(e));
        }
        i := i + 1;
      }
      assert emitted[..i] == emitted;
      state := state.(isLoadingPrices := false);
      pricesInFlight := pricesInFlight - 1;
    }

    /** refreshTicker, completion step for the job launched for `symbol`:
        each emission is collected in order, then onCompletion clears the
        loading flag. */
    method CompleteTicker(symbol: string, emitted: seq<Result<CoinModel, ErrorType>>)
      requires Valid() && symbol in tickersInFlight
      modifies this
      ensures Valid()
      ensures state == TickerCompleted(old(state), emitted)
      ensures pricesInFlight == old(pricesInFlight)
      ensures tickersInFlight == old(tickersInFlight) - multiset{symbol}
    {
      var i := 0;
      while i < |emitted|
        invariant 0 <= i <= |emitted|
        invariant state == ApplyTickerResults(old(state), emitted[..i])
        invariant pricesInFlight == old(pricesInFlight) && tickersInFlight == old(tickersInFlight)
      {
        assert emitted[..i + 1][..i] == emitted[..i];
        match emitted[i] {
          case Success(ticker) => state := state.(ticker := Some(ticker));
          case Error(e) => state := state.(error := Some(e));
        }
        i := i + 1;
      }
      assert emitted[..i] == emitted;
      state := state.(isLoadingTicker := false);
      tickersInFlight := tickersInFlight - multiset{symbol};
    }
  }
}
