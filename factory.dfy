/** src/fetchers/factory.py: the data-type → fetcher-class registry and its default contents. */
module Factory {
  import opened Wrappers
  import opened Models
  import opened Channel
  import opened Fetchers

  /** A fetcher class as a registry value: the three of src/fetchers, or one registered from elsewhere. */
  datatype FetcherClass = StockClass | DerivClass | OptionChainClass | OtherClass(name: string)

  /** The arguments `create_fetcher` passes after `queue, config, auth, client`. */
  datatype FetcherArgs =
    | CandleArgs(symbol: string, timeframe: int)
    | ChainArgs(symbol: string, timeframe: int, maturity: Option<string>,
                underlyingAssetType: Option<string>, displayName: Option<string>)

  /**
   * The dispatch of `FetcherRegistry.create_fetcher`: ValueError for an unregistered type;
   * an O_CHAIN subscription also passes maturity, underlying asset type and display name,
   * every other type only symbol and timeframe.
   */
  function Dispatch(fetchers: map<DataType, FetcherClass>, sub: SubscriptionConfig): (r: Result<(FetcherClass, FetcherArgs)>)
    ensures r.Err? <==> sub.dataType !in fetchers
    ensures r.Err? ==> r.error.ValueError?
    ensures r.Ok? ==> r.value.0 == fetchers[sub.dataType] && r.value.1.symbol == sub.symbol
                      && r.value.1.timeframe == sub.timeframe
    ensures r.Ok? ==> (r.value.1.ChainArgs? <==> sub.dataType == OChain)
    ensures r.Ok? && r.value.1.ChainArgs? ==>
      r.value.1.maturity == sub.maturity && r.value.1.underlyingAssetType == sub.underlyingAssetType
      && r.value.1.displayName == sub.displayName
  {
    if sub.dataType !in fetchers then Err(ValueError("No fetcher registered for " + DataTypeValue(sub.dataType)))
    else if sub.dataType == OChain then
      Ok((fetchers[sub.dataType], ChainArgs(sub.symbol, sub.timeframe, sub.maturity, sub.underlyingAssetType, sub.displayName)))
    else Ok((fetchers[sub.dataType], CandleArgs(sub.symbol, sub.timeframe)))
  }

  /** A constructed fetcher: one of the modelled classes, or a call to a class from elsewhere. */
  datatype Created = CandleF(candle: CandleFetcher) | ChainF(chain: OptionChainFetcher) | OtherF(cls: string, args: FetcherArgs)

  /** `FetcherRegistry` */
  class FetcherRegistry {
    var fetchers: map<DataType, FetcherClass>

    constructor()
      ensures fetchers == map[]
    {
      fetchers := map[];
    }

    /** `register`: adds the entry, replacing any earlier class for the type. */
    method Register(dataType: DataType, cls: FetcherClass)
      modifies this
      ensures fetchers == old(fetchers)[dataType := cls]
    {
      fetchers := fetchers[dataType := cls];
    }

    /**
     * `create_fetcher`: calls the registered class with the dispatched arguments. A class
     * given the wrong number of positional arguments raises TypeError (the candle fetchers
     * take two after the client, the option-chain fetcher at least four).
     */
    method CreateFetcher(queue: Queue, sub: SubscriptionConfig) returns (r: Result<Created>)
      ensures var d := Dispatch(fetchers, sub);
        (d.Err? ==> r == Err(d.error))
        && (d.Ok? ==>
              match d.value
              case (StockClass, CandleArgs(sym, tf)) =>
                r.Ok? && r.value.CandleF? && fresh(r.value.candle) && r.value.candle.market == Stock
                && r.value.candle.symbol == sym && r.value.candle.timeframe == tf
                && r.value.candle.processor.queue == queue && r.value.candle.processor.lastProcessedTime.None?
              case (DerivClass, CandleArgs(sym, tf)) =>
                r.Ok? && r.value.CandleF? && fresh(r.value.candle) && r.value.candle.market == Derivatives
                && r.value.candle.symbol == sym && r.value.candle.timeframe == tf
                && r.value.candle.processor.queue == queue && r.value.candle.processor.lastProcessedTime.None?
              case (OptionChainClass, ChainArgs(sym, tf, mat, und, disp)) =>
                r.Ok? && r.value.ChainF? && fresh(r.value.chain) && r.value.chain.queue == queue
                && r.value.chain.symbol == sym && r.value.chain.timeframe == tf && r.value.chain.maturity == mat
                && r.value.chain.underlyingAssetType == und && r.value.chain.displayName == disp
                && r.value.chain.lastFetchMinute.None?
              case (OtherClass(name), args) => r == Ok(OtherF(name, args))
              case _ => r.Err? && r.error.TypeError?)
    {
      var d := Dispatch(fetchers, sub);
      if d.Err? {
        return Err(d.error);
      }
      match d.value
      case (StockClass, CandleArgs(sym, tf)) =>
        var f := new CandleFetcher(queue, sym, tf, Stock);
        r := Ok(CandleF(f));
      case (DerivClass, CandleArgs(sym, tf)) =>
        var f := new CandleFetcher(queue, sym, tf, Derivatives);
        r := Ok(CandleF(f));
      case (OptionChainClass, ChainArgs(sym, tf, mat, und, disp)) =>
        var f := new OptionChainFetcher(queue, sym, tf, mat, und, disp);
        r := Ok(ChainF(f));
      case (OtherClass(name), args) =>
        r := Ok(OtherF(name, args));
      case _ =>
        r := Err(TypeError("wrong number of positional arguments"));
    }
  }

  /** The classes `FetcherFactory` registers on construction. */
  const DefaultFetchers: map<DataType, FetcherClass> :=
    map[SCandle := StockClass, DCandle := DerivClass, OChain := OptionChainClass]

  /** With the defaults every data type is served, each by the fetcher of its own kind. */
  lemma DefaultsServeEveryType(sub: SubscriptionConfig)
    ensures Dispatch(DefaultFetchers, sub).Ok?
    ensures var c := Dispatch(DefaultFetchers, sub).value.0;
      (sub.dataType == SCandle ==> c == StockClass) && (sub.dataType == DCandle ==> c == DerivClass)
      && (sub.dataType == OChain ==> c == OptionChainClass)
  {
  }

  /** `FetcherFactory`: a registry filled with the defaults. */
  class FetcherFactory {
    const registry: FetcherRegistry

    constructor()
      ensures fresh(registry) && registry.fetchers == DefaultFetchers
    {
      registry := new FetcherRegistry();
      new;
      registry.Register(SCandle, StockClass);
      registry.Register(DCandle, DerivClass);
      registry.Register(OChain, OptionChainClass);
    }

    /** `create_fetcher`: the registry's. */
    method CreateFetcher(queue: Queue, sub: SubscriptionConfig) returns (r: Result<Created>)
      ensures var d := Dispatch(registry.fetchers, sub);
        (d.Err? ==> r == Err(d.error)) && (d.Ok? && d.value.0.OtherClass? ==> r == Ok(OtherF(d.value.0.name, d.value.1)))
        && (d.Ok? && !d.value.0.OtherClass? ==> r.Ok? == ((d.value.0 == OptionChainClass) == d.value.1.ChainArgs?))
    {
      r := registry.CreateFetcher(queue, sub);
    }

    /** `register_fetcher`: replaces the class for one type, leaving the others. */
    method RegisterFetcher(dataType: DataType, cls: FetcherClass)
      modifies registry
      ensures registry.fetchers == old(registry.fetchers)[dataType := cls]
    {
      registry.Register(dataType, cls);
    }
  }
}
