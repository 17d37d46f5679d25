/**
 * The records that travel through the pipeline (src/models/dataclasses.py, src/models/enums.py,
 * src/consts.py) and the Python values they are serialised to.
 *
 * `to_dict` produces a Python dict; here a dict is an association list with its keys in
 * insertion order, so key order is part of the model.
 */
module Models {
  import opened Wrappers
  import opened Text
  import opened Clock

  // ----------------------------------------------------------------------------------
  // Enumerations and constants
  // ----------------------------------------------------------------------------------

  datatype DataType = SCandle | DCandle | OChain

  /** `DataType.value` */
  function DataTypeValue(t: DataType): string
  {
    match t
    case SCandle => "s_candle"
    case DCandle => "d_candle"
    case OChain => "o_chain"
  }

  datatype MarketType = Stock | Derivatives

  /** Minute bars a complete derivatives session produces (src/consts.py:12). */
  const ExpectedCandlesPerDay: int := 411

  // ----------------------------------------------------------------------------------
  // Python values
  // ----------------------------------------------------------------------------------

  /** The Python values that cross the queues and reach the database driver. */
  datatype Value =
    | VNone
    | VBool(b: bool)
    | VInt(i: int)
    | VReal(r: real)
    | VStr(s: string)
    | VList(items: seq<Value>)
    | VDict(entries: seq<(string, Value)>)
    | VTime(t: DateTime)

  /** A Python dict: entries in insertion order. */
  type Dict = seq<(string, Value)>

  function Keys(d: Dict): (ks: seq<string>)
    ensures |ks| == |d| && forall i | 0 <= i < |d| :: ks[i] == d[i].0
  {
    seq(|d|, i requires 0 <= i < |d| => d[i].0)
  }

  predicate UniqueKeys(d: Dict)
  {
    forall i, j | 0 <= i < j < |d| :: d[i].0 != d[j].0
  }

  /** `d.get(k)`: the entry under `k`, or None. */
  function Get(d: Dict, k: string): Option<Value>
    decreases |d|
  {
    if |d| == 0 then None
    else if d[0].0 == k then Some(d[0].1)
    else Get(d[1..], k)
  }

  lemma {:induction false} GetNone(d: Dict, k: string)
    ensures Get(d, k).None? <==> forall i | 0 <= i < |d| :: d[i].0 != k
    decreases |d|
  {
    if |d| > 0 {
      GetNone(d[1..], k);
      if d[0].0 != k {
        forall i | 1 <= i < |d| ensures d[i].0 == d[1..][i - 1].0 { }
      }
    }
  }

  lemma {:induction false} GetAt(d: Dict, i: int)
    requires UniqueKeys(d) && 0 <= i < |d|
    ensures Get(d, d[i].0) == Some(d[i].1)
    decreases i
  {
    if i > 0 {
      GetAt(d[1..], i - 1);
    }
  }

  /** Python truthiness. */
  predicate Truthy(v: Value)
  {
    match v
    case VNone => false
    case VBool(b) => b
    case VInt(i) => i != 0
    case VReal(r) => r != 0.0
    case VStr(s) => |s| > 0
    case VList(items) => |items| > 0
    case VDict(entries) => |entries| > 0
    case VTime(_) => true
  }

  // ----------------------------------------------------------------------------------
  // CandleData
  // ----------------------------------------------------------------------------------

  /** A price as the fetchers build it: `int(...)` for stocks, `float(...)` for derivatives. */
  datatype Num = IntNum(i: int) | RealNum(r: real)

  function NumValue(n: Num): Value
  {
    match n
    case IntNum(i) => VInt(i)
    case RealNum(r) => VReal(r)
  }

  datatype CandleData = CandleData(symbol: string, timestamp: DateTime, timeframe: int,
                                   open: Num, high: Num, low: Num, close: Num,
                                   volume: int, dataType: string)

  const CandleKeys: seq<string> :=
    ["symbol", "timestamp", "timeframe", "open", "high", "low", "close", "volume", "type"]

  /** `f"{timeframe}m"` */
  function TimeframeText(tf: int): string
  {
    IntToString(tf) + "m"
  }

  /** `f"{data_type}_candle"` */
  function CandleTypeText(dataType: string): string
  {
    dataType + "_candle"
  }

  /** `CandleData.to_dict` */
  function CandleToDict(c: CandleData): (d: Dict)
    ensures |d| == |CandleKeys|
  {
    [("symbol", VStr(c.symbol)),
     ("timestamp", VStr(IsoFormat(c.timestamp))),
     ("timeframe", VStr(TimeframeText(c.timeframe))),
     ("open", NumValue(c.open)),
     ("high", NumValue(c.high)),
     ("low", NumValue(c.low)),
     ("close", NumValue(c.close)),
     ("volume", VInt(c.volume)),
     ("type", VStr(CandleTypeText(c.dataType)))]
  }

  function AsStr(v: Option<Value>): Option<string>
  {
    match v
    case Some(VStr(s)) => Some(s)
    case _ => None
  }

  /** `s` with the suffix `suffix` removed, when it has it. */
  function StripSuffix(s: string, suffix: string): Option<string>
  {
    if |suffix| <= |s| && s[|s| - |suffix|..] == suffix then Some(s[..|s| - |suffix|]) else None
  }

  /** The number of a `"<n>m"` timeframe text. */
  function TimeframeOf(s: string): Option<int>
  {
    match StripSuffix(s, "m")
    case None => None
    case Some(digits) => ParseInt(digits)
  }

  function NaiveIso(s: string): Option<DateTime>
  {
    match FromIsoFormat(s)
    case Some(Naive(t)) => Some(t)
    case _ => None
  }

  function NumAtKey(d: Dict, k: string): Option<Num>
  {
    match Get(d, k)
    case Some(VInt(i)) => Some(IntNum(i))
    case Some(VReal(r)) => Some(RealNum(r))
    case _ => None
  }

  function IntAtKey(d: Dict, k: string): Option<int>
  {
    match Get(d, k)
    case Some(VInt(i)) => Some(i)
    case _ => None
  }

  /** Reads a serialised candle back: the inverse that `CandleToDict` is checked against. */
  function CandleFromDict(d: Dict): Option<CandleData>
  {
    var sym := AsStr(Get(d, "symbol"));
    var ts := AsStr(Get(d, "timestamp"));
    var tf := AsStr(Get(d, "timeframe"));
    var ty := AsStr(Get(d, "type"));
    if sym.None? || ts.None? || tf.None? || ty.None? then None
    else
      var t, n, dt := NaiveIso(ts.value), TimeframeOf(tf.value), StripSuffix(ty.value, "_candle");
      var o, h, l, c := NumAtKey(d, "open"), NumAtKey(d, "high"), NumAtKey(d, "low"), NumAtKey(d, "close");
      var v := IntAtKey(d, "volume");
      if t.None? || n.None? || dt.None? || o.None? || h.None? || l.None? || c.None? || v.None? then None
      else Some(CandleData(sym.value, t.value, n.value, o.value, h.value, l.value, c.value, v.value, dt.value))
  }

  /** The serialised candle has exactly the dataclass keys, in declaration order. */
  lemma CandleDictKeys(c: CandleData)
    ensures UniqueKeys(CandleToDict(c))
    ensures Keys(CandleToDict(c)) == CandleKeys
  {
    var d := CandleToDict(c);
    assert Keys(d) == CandleKeys by {
      assert d[0].0 == "symbol" && d[1].0 == "timestamp" && d[2].0 == "timeframe";
      assert d[3].0 == "open" && d[4].0 == "high" && d[5].0 == "low";
      assert d[6].0 == "close" && d[7].0 == "volume" && d[8].0 == "type";
    }
    CandleKeysDistinct();
    UniqueFromKeys(d);
  }

  predicate Distinct(ks: seq<string>)
  {
    forall i, j | 0 <= i < j < |ks| :: ks[i] != ks[j]
  }

  lemma CandleKeysDistinct()
    ensures Distinct(CandleKeys)
  {
  }

  lemma UniqueFromKeys(d: Dict)
    requires Distinct(Keys(d))
    ensures UniqueKeys(d)
  {
    forall i, j | 0 <= i < j < |d|
      ensures d[i].0 != d[j].0
    {
      assert Keys(d)[i] == d[i].0 && Keys(d)[j] == d[j].0;
    }
  }

  lemma CandleGets(c: CandleData)
    ensures var d := CandleToDict(c);
      Get(d, "symbol") == Some(VStr(c.symbol))
      && Get(d, "timestamp") == Some(VStr(IsoFormat(c.timestamp)))
      && Get(d, "timeframe") == Some(VStr(TimeframeText(c.timeframe)))
      && Get(d, "open") == Some(NumValue(c.open)) && Get(d, "high") == Some(NumValue(c.high))
      && Get(d, "low") == Some(NumValue(c.low)) && Get(d, "close") == Some(NumValue(c.close))
      && Get(d, "volume") == Some(VInt(c.volume))
      && Get(d, "type") == Some(VStr(CandleTypeText(c.dataType)))
  {
    var d := CandleToDict(c);
    CandleDictKeys(c);
    GetAt(d, 0); GetAt(d, 1); GetAt(d, 2); GetAt(d, 3); GetAt(d, 4);
    GetAt(d, 5); GetAt(d, 6); GetAt(d, 7); GetAt(d, 8);
  }

  lemma TimeframeOfText(tf: int)
    ensures TimeframeOf(TimeframeText(tf)) == Some(tf)
  {
    var s := TimeframeText(tf);
    assert s[|s| - 1..] == "m";
    assert s[..|s| - 1] == IntToString(tf);
    ParseIntOfIntToString(tf);
  }

  lemma CandleTypeOfText(dataType: string)
    ensures StripSuffix(CandleTypeText(dataType), "_candle") == Some(dataType)
  {
    var s := CandleTypeText(dataType);
    assert s[|s| - 7..] == "_candle";
    assert s[..|s| - 7] == dataType;
  }

  lemma NaiveIsoOfIsoFormat(t: DateTime)
    requires IsoRange(t)
    ensures NaiveIso(IsoFormat(t)) == Some(t)
  {
    FromIsoFormatOfIsoFormat(t);
  }

  lemma NumAtKeyOf(d: Dict, k: string, n: Num)
    requires Get(d, k) == Some(NumValue(n))
    ensures NumAtKey(d, k) == Some(n)
  {
  }

  /** `CandleFromDict` on any dict whose entries hold the serialised fields of `c`. */
  lemma CandleFromGets(d: Dict, c: CandleData)
    requires AsStr(Get(d, "symbol")) == Some(c.symbol)
    requires AsStr(Get(d, "timestamp")) == Some(IsoFormat(c.timestamp))
    requires AsStr(Get(d, "timeframe")) == Some(TimeframeText(c.timeframe))
    requires AsStr(Get(d, "type")) == Some(CandleTypeText(c.dataType))
    requires NaiveIso(IsoFormat(c.timestamp)) == Some(c.timestamp)
    requires TimeframeOf(TimeframeText(c.timeframe)) == Some(c.timeframe)
    requires StripSuffix(CandleTypeText(c.dataType), "_candle") == Some(c.dataType)
    requires NumAtKey(d, "open") == Some(c.open) && NumAtKey(d, "high") == Some(c.high)
    requires NumAtKey(d, "low") == Some(c.low) && NumAtKey(d, "close") == Some(c.close)
    requires IntAtKey(d, "volume") == Some(c.volume)
    ensures CandleFromDict(d) == Some(c)
  {
  }

  /**
   * Every field survives serialisation: the ISO timestamp parses back, "<n>m" gives the
   * timeframe back and "<t>_candle" the data type.
   */
  lemma CandleToDictRoundTrip(c: CandleData)
    requires IsoRange(c.timestamp)
    ensures CandleFromDict(CandleToDict(c)) == Some(c)
  {
    var d := CandleToDict(c);
    CandleGets(c);
    NaiveIsoOfIsoFormat(c.timestamp);
    TimeframeOfText(c.timeframe);
    CandleTypeOfText(c.dataType);
    NumAtKeyOf(d, "open", c.open);
    NumAtKeyOf(d, "high", c.high);
    NumAtKeyOf(d, "low", c.low);
    NumAtKeyOf(d, "close", c.close);
    CandleFromGets(d, c);
  }

  /** The serialised type always names a candle, which is what the batch writer selects on. */
  lemma CandleTypeNamesCandle(dataType: string)
    ensures Contains(CandleTypeText(dataType), "candle")
  {
    var s := CandleTypeText(dataType);
    assert OccursAt(s, "candle", |dataType| + 1);
  }

  // ----------------------------------------------------------------------------------
  // OptionData
  // ----------------------------------------------------------------------------------

  datatype OptionData = OptionData(symbol: string, atmClass: string, strikePrice: real, price: real,
                                   iv: real, delta: real, gamma: real, vega: real, theta: real,
                                   rho: real, volume: int, openInterest: int)

  /** The dataclass fields, in declaration order. */
  const OptionFields: seq<string> :=
    ["symbol", "atm_class", "strike_price", "price", "iv", "delta", "gamma", "vega", "theta",
     "rho", "volume", "open_interest"]

  /** `OptionData.to_dict`, i.e. the instance `__dict__`. */
  function OptionToDict(o: OptionData): (d: Dict)
    ensures |d| == |OptionFields|
  {
    [("symbol", VStr(o.symbol)), ("atm_class", VStr(o.atmClass)),
     ("strike_price", VReal(o.strikePrice)), ("price", VReal(o.price)), ("iv", VReal(o.iv)),
     ("delta", VReal(o.delta)), ("gamma", VReal(o.gamma)), ("vega", VReal(o.vega)),
     ("theta", VReal(o.theta)), ("rho", VReal(o.rho)), ("volume", VInt(o.volume)),
     ("open_interest", VInt(o.openInterest))]
  }

  function RealAt(d: Dict, k: string): Option<real>
  {
    match Get(d, k)
    case Some(VReal(r)) => Some(r)
    case Some(VInt(i)) => Some(i as real)
    case _ => None
  }

  function IntAt(d: Dict, k: string): Option<int>
  {
    match Get(d, k)
    case Some(VInt(i)) => Some(i)
    case _ => None
  }

  /** Every field of the dict holds a value of the kind the dataclass declares. */
  predicate OptionKinds(d: Dict)
  {
    AsStr(Get(d, "symbol")).Some? && AsStr(Get(d, "atm_class")).Some?
    && RealAt(d, "strike_price").Some? && RealAt(d, "price").Some? && RealAt(d, "iv").Some?
    && RealAt(d, "delta").Some? && RealAt(d, "gamma").Some? && RealAt(d, "vega").Some?
    && RealAt(d, "theta").Some? && RealAt(d, "rho").Some?
    && IntAt(d, "volume").Some? && IntAt(d, "open_interest").Some?
  }

  /**
   * `OptionData(**d)`: every key must name a field and every field must be given, else
   * TypeError.
   */
  function OptionFromDict(d: Dict): (r: Result<OptionData>)
    ensures r.Ok? ==> forall i | 0 <= i < |d| :: d[i].0 in OptionFields
    ensures r.Ok? ==> forall f | f in OptionFields :: f in Keys(d)
    ensures r.Err? ==> r.error.TypeError?
  {
    if exists i | 0 <= i < |d| :: d[i].0 !in OptionFields then Err(TypeError("unexpected keyword argument"))
    else if exists f | f in OptionFields :: f !in Keys(d) then Err(TypeError("missing required argument"))
    else
      var sym, atm := AsStr(Get(d, "symbol")), AsStr(Get(d, "atm_class"));
      var strike, price, iv := RealAt(d, "strike_price"), RealAt(d, "price"), RealAt(d, "iv");
      var delta, gamma, vega := RealAt(d, "delta"), RealAt(d, "gamma"), RealAt(d, "vega");
      var theta, rho := RealAt(d, "theta"), RealAt(d, "rho");
      var vol, oi := IntAt(d, "volume"), IntAt(d, "open_interest");
      if sym.Some? && atm.Some? && strike.Some? && price.Some? && iv.Some? && delta.Some?
         && gamma.Some? && vega.Some? && theta.Some? && rho.Some? && vol.Some? && oi.Some?
      then
        Ok(OptionData(sym.value, atm.value, strike.value, price.value, iv.value, delta.value,
                      gamma.value, vega.value, theta.value, rho.value, vol.value, oi.value))
      else Err(TypeError("field of an unexpected kind"))
  }

  /**
   * With exactly the dataclass fields present, `OptionData(**d)` succeeds exactly when every
   * field holds a value of its declared kind, and the option then carries those values.
   */
  lemma OptionFromDictExact(d: Dict)
    ensures var r := OptionFromDict(d);
      ((forall i | 0 <= i < |d| :: d[i].0 in OptionFields) && (forall f | f in OptionFields :: f in Keys(d)) ==>
        (r.Ok? <==> OptionKinds(d)))
      && (r.Ok? ==>
        AsStr(Get(d, "symbol")) == Some(r.value.symbol) && AsStr(Get(d, "atm_class")) == Some(r.value.atmClass)
        && RealAt(d, "strike_price") == Some(r.value.strikePrice) && RealAt(d, "price") == Some(r.value.price)
        && RealAt(d, "iv") == Some(r.value.iv) && RealAt(d, "delta") == Some(r.value.delta)
        && RealAt(d, "gamma") == Some(r.value.gamma) && RealAt(d, "vega") == Some(r.value.vega)
        && RealAt(d, "theta") == Some(r.value.theta) && RealAt(d, "rho") == Some(r.value.rho)
        && IntAt(d, "volume") == Some(r.value.volume) && IntAt(d, "open_interest") == Some(r.value.openInterest))
  {
  }

  /** The instance dict has exactly the dataclass fields, in declaration order. */
  lemma OptionDictKeys(o: OptionData)
    ensures UniqueKeys(OptionToDict(o))
    ensures Keys(OptionToDict(o)) == OptionFields
  {
  }

  lemma OptionGets(o: OptionData)
    ensures var d := OptionToDict(o);
      AsStr(Get(d, "symbol")) == Some(o.symbol) && AsStr(Get(d, "atm_class")) == Some(o.atmClass)
      && RealAt(d, "strike_price") == Some(o.strikePrice) && RealAt(d, "price") == Some(o.price)
      && RealAt(d, "iv") == Some(o.iv) && RealAt(d, "delta") == Some(o.delta)
      && RealAt(d, "gamma") == Some(o.gamma) && RealAt(d, "vega") == Some(o.vega)
      && RealAt(d, "theta") == Some(o.theta) && RealAt(d, "rho") == Some(o.rho)
      && IntAt(d, "volume") == Some(o.volume) && IntAt(d, "open_interest") == Some(o.openInterest)
  {
    var d := OptionToDict(o);
    OptionDictKeys(o);
    GetAt(d, 0); GetAt(d, 1); GetAt(d, 2); GetAt(d, 3); GetAt(d, 4); GetAt(d, 5);
    GetAt(d, 6); GetAt(d, 7); GetAt(d, 8); GetAt(d, 9); GetAt(d, 10); GetAt(d, 11);
  }

  /** `OptionData(**o.to_dict()) == o`: the round trip the option-chain consumer relies on. */
  lemma OptionRoundTrip(o: OptionData)
    ensures OptionFromDict(OptionToDict(o)) == Ok(o)
  {
    var d := OptionToDict(o);
    OptionDictKeys(o);
    assert forall i | 0 <= i < |d| :: d[i].0 == Keys(d)[i];
    OptionGets(o);
  }

  // ----------------------------------------------------------------------------------
  // OptionChainData
  // ----------------------------------------------------------------------------------

  datatype OptionChainData = OptionChainData(timestamp: Moment, underlyingSymbol: string,
                                             underlyingPrice: real, calls: seq<OptionData>,
                                             puts: seq<OptionData>, dataType: string)

  /** The default of `OptionChainData.data_type`. */
  const OptionChainType: string := "option_chain"

  function OptionsToValues(os: seq<OptionData>): (vs: seq<Value>)
    ensures |vs| == |os| && forall i | 0 <= i < |os| :: vs[i] == VDict(OptionToDict(os[i]))
  {
    seq(|os|, i requires 0 <= i < |os| => VDict(OptionToDict(os[i])))
  }

  /** `OptionChainData.to_dict` */
  function ChainToDict(ch: OptionChainData): (d: Dict)
    ensures |d| == 6
  {
    [("timestamp", VStr(IsoFormatMoment(ch.timestamp))),
     ("underlying_symbol", VStr(ch.underlyingSymbol)),
     ("underlying_price", VReal(ch.underlyingPrice)),
     ("calls", VList(OptionsToValues(ch.calls))),
     ("puts", VList(OptionsToValues(ch.puts))),
     ("type", VStr(ch.dataType))]
  }

  /** `[OptionData(**c) for c in items]` */
  function OptionsFromValues(items: seq<Value>): (r: Result<seq<OptionData>>)
    ensures r.Ok? ==> |r.value| == |items|
    decreases |items|
  {
    if |items| == 0 then Ok([])
    else
      var first := match items[0]
        case VDict(e) => OptionFromDict(e)
        case _ => Err(TypeError("argument after ** must be a mapping"));
      match first
      case Err(e) => Err(e)
      case Ok(o) =>
        match OptionsFromValues(items[1..])
        case Err(e) => Err(e)
        case Ok(rest) => Ok([o] + rest)
  }

  lemma {:induction false} OptionsRoundTrip(os: seq<OptionData>)
    ensures OptionsFromValues(OptionsToValues(os)) == Ok(os)
    decreases |os|
  {
    if |os| > 0 {
      OptionRoundTrip(os[0]);
      assert OptionsToValues(os)[1..] == OptionsToValues(os[1..]);
      OptionsRoundTrip(os[1..]);
      assert os == [os[0]] + os[1..];
    }
  }

  /**
   * The rebuild in `DataProcessor._process_option_chain`: calls, puts, then the timestamp
   * through `fromisoformat`; `data[...]` on a missing key is a KeyError, and `data_type` is
   * left at its default.
   */
  function ChainFromDict(d: Dict): Result<OptionChainData>
  {
    match Get(d, "calls")
    case None => Err(KeyError("calls"))
    case Some(callsV) =>
      var calls := if callsV.VList? then OptionsFromValues(callsV.items) else Err(TypeError("calls is not a list"));
      if calls.Err? then Err(calls.error)
      else match Get(d, "puts")
        case None => Err(KeyError("puts"))
        case Some(putsV) =>
          var puts := if putsV.VList? then OptionsFromValues(putsV.items) else Err(TypeError("puts is not a list"));
          if puts.Err? then Err(puts.error)
          else match Get(d, "timestamp")
            case None => Err(KeyError("timestamp"))
            case Some(VStr(s)) =>
              (match FromIsoFormat(s)
               case None => Err(ValueError("Invalid isoformat string"))
               case Some(ts) => ChainFields(d, ts, calls.value, puts.value))
            case Some(_) => Err(TypeError("fromisoformat: argument must be str"))
  }

  /** The last two keyword arguments: `data["underlying_symbol"]`, then `data["underlying_price"]`. */
  function ChainFields(d: Dict, ts: Moment, calls: seq<OptionData>, puts: seq<OptionData>): Result<OptionChainData>
  {
    var sym := Get(d, "underlying_symbol");
    var price := Get(d, "underlying_price");
    if sym.None? then Err(KeyError("underlying_symbol"))
    else if price.None? then Err(KeyError("underlying_price"))
    else if !sym.value.VStr? || !price.value.VReal? then Err(TypeError("field of an unexpected kind"))
    else Ok(OptionChainData(ts, sym.value.s, price.value.r, calls, puts, OptionChainType))
  }

  lemma ChainDictKeys(ch: OptionChainData)
    ensures UniqueKeys(ChainToDict(ch))
    ensures Keys(ChainToDict(ch)) == ChainKeys
  {
    var d := ChainToDict(ch);
    assert Keys(d) == ChainKeys by {
      KeysSix(d);
    }
    ChainKeysDistinct();
    UniqueFromKeys(d);
  }

  /** The keys of a serialised chain, in declaration order. */
  const ChainKeys: seq<string> := ["timestamp", "underlying_symbol", "underlying_price", "calls", "puts", "type"]

  lemma KeysSix(d: Dict)
    requires |d| == 6
    ensures Keys(d) == [d[0].0, d[1].0, d[2].0, d[3].0, d[4].0, d[5].0]
  {
  }

  lemma ChainKeysDistinct()
    ensures Distinct(ChainKeys)
  {
  }

  lemma ChainGets(ch: OptionChainData)
    ensures var d := ChainToDict(ch);
      Get(d, "timestamp") == Some(VStr(IsoFormatMoment(ch.timestamp)))
      && Get(d, "underlying_symbol") == Some(VStr(ch.underlyingSymbol))
      && Get(d, "underlying_price") == Some(VReal(ch.underlyingPrice))
      && Get(d, "calls") == Some(VList(OptionsToValues(ch.calls)))
      && Get(d, "puts") == Some(VList(OptionsToValues(ch.puts)))
      && Get(d, "type") == Some(VStr(ch.dataType))
  {
    var d := ChainToDict(ch);
    ChainDictKeys(ch);
    GetAt(d, 0); GetAt(d, 1); GetAt(d, 2); GetAt(d, 3); GetAt(d, 4); GetAt(d, 5);
  }

  /** A serialised chain is rebuilt into the same chain, calls and puts in the same order. */
  lemma ChainRoundTrip(ch: OptionChainData)
    requires ch.timestamp.Naive? && IsoRange(ch.timestamp.local)
    requires ch.dataType == OptionChainType
    ensures ChainFromDict(ChainToDict(ch)) == Ok(ch)
  {
    var d := ChainToDict(ch);
    ChainGets(ch);
    OptionsRoundTrip(ch.calls);
    OptionsRoundTrip(ch.puts);
    FromIsoFormatOfIsoFormat(ch.timestamp.local);
    ChainFromParts(d, OptionsToValues(ch.calls), OptionsToValues(ch.puts), IsoFormatMoment(ch.timestamp),
                   ch.timestamp, ch.calls, ch.puts);
    assert ChainFields(d, ch.timestamp, ch.calls, ch.puts) == Ok(ch);
  }

  /** A dict whose lists and timestamp rebuild is rebuilt from its last two fields. */
  lemma ChainFromParts(d: Dict, callsV: seq<Value>, putsV: seq<Value>, s: string, ts: Moment,
                       calls: seq<OptionData>, puts: seq<OptionData>)
    requires Get(d, "calls") == Some(VList(callsV)) && OptionsFromValues(callsV) == Ok(calls)
    requires Get(d, "puts") == Some(VList(putsV)) && OptionsFromValues(putsV) == Ok(puts)
    requires Get(d, "timestamp") == Some(VStr(s)) && FromIsoFormat(s) == Some(ts)
    ensures ChainFromDict(d) == ChainFields(d, ts, calls, puts)
  {
  }

  // ----------------------------------------------------------------------------------
  // SubscriptionConfig
  // ----------------------------------------------------------------------------------

  datatype SubscriptionConfig = SubscriptionConfig(dataType: DataType, symbol: string, timeframe: int,
                                                   displayName: Option<string>, maturity: Option<string>,
                                                   underlyingAssetType: Option<string>)

  /** `SubscriptionConfig(data_type, symbol)` with every default taken. */
  function DefaultSubscription(dataType: DataType, symbol: string): (c: SubscriptionConfig)
    ensures c.dataType == dataType && c.symbol == symbol
    ensures c.timeframe == 1 && c.displayName.None? && c.maturity.None? && c.underlyingAssetType.None?
  {
    SubscriptionConfig(dataType, symbol, 1, None, None, None)
  }

  // ----------------------------------------------------------------------------------
  // Vendor records
  // ----------------------------------------------------------------------------------

  /** One record of a vendor reply (an `output1` / `output2` item); every field arrives as text. */
  type Bar = map<string, string>

  /** `b.get(k)` */
  function Field(b: Bar, k: string): Option<string>
  {
    if k in b then Some(b[k]) else None
  }

  /** `b.get(k, default)` on a text field. */
  function TextField(b: Bar, k: string, default: string): string
  {
    if k in b then b[k] else default
  }

  /** `int(b.get(k, 0))`: a missing field reads as 0, a malformed one raises ValueError. */
  function IntField(b: Bar, k: string): Result<int>
  {
    if k !in b then Ok(0)
    else match ParseInt(b[k])
      case None => Err(ValueError("invalid literal for int()"))
      case Some(i) => Ok(i)
  }

  /** `float(b.get(k, 0))`: a missing field reads as 0.0, a malformed one raises ValueError. */
  function RealField(b: Bar, k: string): Result<real>
  {
    if k !in b then Ok(0.0)
    else match ParseReal(b[k])
      case None => Err(ValueError("could not convert string to float"))
      case Some(r) => Ok(r)
  }

  /**
   * A vendor JSON reply: `rt_cd` and the two output lists, each absent (None) or present.
   * The HTTP layer either raised (`raise_for_status`, a transport error) or produced one.
   */
  datatype Response = Response(rtCd: Option<string>, output1: Option<seq<Bar>>, output2: Option<seq<Bar>>)

  datatype Reply = HttpFailure(msg: string) | Json(body: Response)
}
