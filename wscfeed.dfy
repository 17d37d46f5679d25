/**
 * The WebSocket feed of wsc/feed.py: the four message handlers (their subscription request
 * and their parsing of `^`/`|`-separated frames into queue items), the handler registry and
 * the factory that fills it. The socket, the task manager and the display processor are not
 * part of this model.
 */
module WscFeed {
  import opened Wrappers
  import opened Text
  import opened Models
  import opened Channel

  /** `DataType` of wsc/feed.py. */
  datatype WsDataType = SQuote | SPrice | FQuote | FPrice

  /** The four handler classes. */
  datatype HandlerClass = StockQuoteHandler | StockPriceHandler | FuturesQuoteHandler | FuturesPriceHandler

  /** The transaction ids of the configuration, one per handler class. */
  datatype WsConfig = WsConfig(quoteTrId: string, priceTrId: string, futuresQuoteTrId: string, futuresPriceTrId: string)

  /** The `tr_id` a handler takes from the configuration in its constructor. */
  function TrIdOf(cls: HandlerClass, config: WsConfig): string
  {
    match cls
    case StockQuoteHandler => config.quoteTrId
    case StockPriceHandler => config.priceTrId
    case FuturesQuoteHandler => config.futuresQuoteTrId
    case FuturesPriceHandler => config.futuresPriceTrId
  }

  // ----------------------------------------------------------------------------------
  // Splitting frames
  // ----------------------------------------------------------------------------------

  /** A piece without the separator splits to itself. */
  lemma {:induction false} SplitNone(a: string, sep: char)
    requires sep !in a
    ensures Split(a, sep) == [a]
    decreases |a|
  {
    if |a| > 0 {
      SplitNone(a[1..], sep);
      assert [a[0]] + a[1..] == a;
    }
  }

  /** A piece without the separator, then the separator, splits off as the first piece. */
  lemma {:induction false} SplitPrefix(a: string, b: string, sep: char)
    requires sep !in a
    ensures Split(a + [sep] + b, sep) == [a] + Split(b, sep)
    decreases |a|
  {
    var s := a + [sep] + b;
    if |a| == 0 {
      assert s[1..] == b;
    } else {
      assert s[1..] == a[1..] + [sep] + b;
      SplitPrefix(a[1..], b, sep);
      assert [a[0]] + a[1..] == a;
    }
  }

  /** Splitting undoes joining when no piece holds the separator. */
  lemma {:induction false} SplitJoin(parts: seq<string>, sep: char)
    requires |parts| >= 1 && forall k | 0 <= k < |parts| :: sep !in parts[k]
    ensures Split(Join(parts, [sep]), sep) == parts
    decreases |parts|
  {
    if |parts| == 1 {
      SplitNone(parts[0], sep);
    } else {
      SplitJoin(parts[1..], sep);
      SplitPrefix(parts[0], Join(parts[1..], [sep]), sep);
    }
  }

  /**
   * `prefix_parts[-1] if len(prefix_parts) >= 4 else "UNKNOWN"` on the `|`-pieces of the first
   * `^`-piece of a frame.
   */
  function CodeOf(head: string): string
  {
    var prefix := Split(head, '|');
    if |prefix| >= 4 then prefix[|prefix| - 1] else "UNKNOWN"
  }

  /** A header of four or more `|`-fields yields its last field; a shorter one yields "UNKNOWN". */
  lemma CodeOfHeader(fields: seq<string>)
    requires |fields| >= 1 && forall k | 0 <= k < |fields| :: '|' !in fields[k]
    ensures CodeOf(Join(fields, "|")) == if |fields| >= 4 then fields[|fields| - 1] else "UNKNOWN"
  {
    var head := Join(fields, "|");
    assert "|" == ['|'];
    SplitJoin(fields, '|');
    CodeOfPieces(head, fields);
  }

  /** `CodeOf` reads only the `|`-pieces of the header. */
  lemma CodeOfPieces(head: string, fields: seq<string>)
    requires Split(head, '|') == fields
    ensures CodeOf(head) == if |fields| >= 4 then fields[|fields| - 1] else "UNKNOWN"
  {
  }

  /** A handler looks at a frame only if it is not JSON, starts with '0' and mentions its `tr_id`. */
  predicate Accepts(msg: string, trId: string)
  {
    !StartsWith(msg, "{") && StartsWith(msg, "0") && Contains(msg, trId)
  }

  /** `int(s) if s else 0`: a field that is not an integer literal raises ValueError. */
  function IntOrZero(s: string): (r: Result<int>)
    ensures s == "" ==> r == Ok(0)
    ensures s != "" ==> (r.Ok? <==> ParseInt(s).Some?) && (r.Ok? ==> ParseInt(s) == Some(r.value))
  {
    if s == "" then Ok(0)
    else match ParseInt(s)
      case None => Err(ValueError("invalid literal for int()"))
      case Some(i) => Ok(i)
  }

  /** `float(s) if s else 0.0`: a field that is not a decimal literal raises ValueError. */
  function RealOrZero(s: string): (r: Result<real>)
    ensures s == "" ==> r == Ok(0.0)
    ensures s != "" ==> (r.Ok? <==> ParseReal(s).Some?) && (r.Ok? ==> ParseReal(s) == Some(r.value))
  {
    if s == "" then Ok(0.0)
    else match ParseReal(s)
      case None => Err(ValueError("could not convert string to float"))
      case Some(x) => Ok(x)
  }

  // ----------------------------------------------------------------------------------
  // Parsed frames
  // ----------------------------------------------------------------------------------

  /** The queue items the handlers build; `Num` prices are `int` for stocks, `float` for futures. */
  datatype Tick =
    | StockPrice(code: string, price: int)
    | StockQuote(code: string, askPrice1: Num, bidPrice1: Num, askQty1: int, bidQty1: int,
                 askPrice2: Num, bidPrice2: Num, currentPrice: Num, change: Num, volume: int)
    | FuturesQuote(code: string, time: string, askPrice1: Num, askPrice2: Num, askPrice3: real,
                   bidPrice1: Num, bidPrice2: Num, bidPrice3: real, askQty1: int, askQty2: int,
                   bidQty1: int, bidQty2: int, currentPrice: Num)
    | FuturesPrice(code: string, time: string, currentPrice: Num, change: Num, changeRate: real, volume: int)

  /** The dict put on the queue, keys in the order the handler writes them. */
  function TickToDict(t: Tick): (d: Dict)
    ensures |d| > 1 && d[0].0 == "type" && d[1].0 == "code" && d[1].1 == VStr(t.code)
  {
    match t
    case StockPrice(code, price) =>
      [("type", VStr("s_price")), ("code", VStr(code)), ("price", VInt(price))]
    case StockQuote(code, a1, b1, aq1, bq1, a2, b2, cur, chg, vol) =>
      [("type", VStr("s_quote")), ("code", VStr(code)), ("ask_price_1", NumValue(a1)), ("bid_price_1", NumValue(b1)),
       ("ask_qty_1", VInt(aq1)), ("bid_qty_1", VInt(bq1)), ("ask_price_2", NumValue(a2)), ("bid_price_2", NumValue(b2)),
       ("current_price", NumValue(cur)), ("change", NumValue(chg)), ("volume", VInt(vol))]
    case FuturesQuote(code, time, a1, a2, a3, b1, b2, b3, aq1, aq2, bq1, bq2, cur) =>
      [("type", VStr("f_quote")), ("code", VStr(code)), ("time", VStr(time)), ("ask_price_1", NumValue(a1)),
       ("ask_price_2", NumValue(a2)), ("ask_price_3", VReal(a3)), ("bid_price_1", NumValue(b1)),
       ("bid_price_2", NumValue(b2)), ("bid_price_3", VReal(b3)), ("ask_qty_1", VInt(aq1)), ("ask_qty_2", VInt(aq2)),
       ("bid_qty_1", VInt(bq1)), ("bid_qty_2", VInt(bq2)), ("current_price", NumValue(cur))]
    case FuturesPrice(code, time, cur, chg, rate, vol) =>
      [("type", VStr("f_price")), ("code", VStr(code)), ("time", VStr(time)), ("current_price", NumValue(cur)),
       ("change", NumValue(chg)), ("change_rate", VReal(rate)), ("volume", VInt(vol))]
  }

  /** `StockPriceHandler.handle_message`: no arity test; the price is field 2 when it exists. */
  function ParseStockPrice(msg: string, trId: string): (r: Result<Option<Tick>>)
    ensures !Accepts(msg, trId) ==> r == Ok(None)
    ensures r.Ok? && r.value.Some? ==>
      var parts := Split(msg, '^');
      r.value.value.StockPrice? && r.value.value.code == CodeOf(parts[0])
      && (|parts| <= 2 ==> r.value.value.price == 0)
      && (|parts| > 2 ==> Ok(r.value.value.price) == IntOrZero(parts[2]))
    ensures Accepts(msg, trId) ==> r.Ok? == (|Split(msg, '^')| <= 2 || IntOrZero(Split(msg, '^')[2]).Ok?)
    ensures Accepts(msg, trId) && r.Ok? ==> r.value.Some?
  {
    if !Accepts(msg, trId) then Ok(None)
    else
      var parts := Split(msg, '^');
      var price :- if |parts| > 2 then IntOrZero(parts[2]) else Ok(0);
      Ok(Some(StockPrice(CodeOf(parts[0]), price)))
  }

  /** `StockQuoteHandler.handle_message`: at least 15 fields, integers from fixed positions. */
  function ParseStockQuote(msg: string, trId: string): (r: Result<Option<Tick>>)
    ensures !Accepts(msg, trId) || |Split(msg, '^')| < 15 ==> r == Ok(None)
    ensures r.Ok? && r.value.Some? ==>
      var p := Split(msg, '^');
      var t := r.value.value;
      |p| >= 15 && t.StockQuote? && t.code == CodeOf(p[0])
      && Ok(t.askPrice1) == IntNumOrZero(p[3]) && Ok(t.bidPrice1) == IntNumOrZero(p[4])
      && Ok(t.askQty1) == IntOrZero(p[5]) && Ok(t.bidQty1) == IntOrZero(p[6])
      && Ok(t.askPrice2) == IntNumOrZero(p[7]) && Ok(t.bidPrice2) == IntNumOrZero(p[8])
      && Ok(t.currentPrice) == IntNumOrZero(p[12]) && Ok(t.change) == IntNumOrZero(p[13])
      && Ok(t.volume) == IntOrZero(p[14])
    ensures Accepts(msg, trId) && |Split(msg, '^')| >= 15 ==>
      (r.Ok? <==> StockQuoteFieldsParse(Split(msg, '^'))) && (r.Ok? ==> r.value.Some?)
    ensures r.Err? ==> r.error.ValueError?
  {
    if !Accepts(msg, trId) then Ok(None)
    else
      var p := Split(msg, '^');
      if |p| < 15 then Ok(None)
      else
        var a1 :- IntNumOrZero(p[3]);
        var b1 :- IntNumOrZero(p[4]);
        var aq1 :- IntOrZero(p[5]);
        var bq1 :- IntOrZero(p[6]);
        var a2 :- IntNumOrZero(p[7]);
        var b2 :- IntNumOrZero(p[8]);
        var cur :- IntNumOrZero(p[12]);
        var chg :- IntNumOrZero(p[13]);
        var vol :- IntOrZero(p[14]);
        Ok(Some(StockQuote(CodeOf(p[0]), a1, b1, aq1, bq1, a2, b2, cur, chg, vol)))
  }

  function IntNumOrZero(s: string): Result<Num>
  {
    var i :- IntOrZero(s);
    Ok(IntNum(i))
  }

  function RealNumOrZero(s: string): Result<Num>
  {
    var x :- RealOrZero(s);
    Ok(RealNum(x))
  }

  /** Every field the stock quote handler converts reads as an integer (or is empty). */
  predicate StockQuoteFieldsParse(p: seq<string>)
    requires |p| >= 15
  {
    IntOrZero(p[3]).Ok? && IntOrZero(p[4]).Ok? && IntOrZero(p[5]).Ok? && IntOrZero(p[6]).Ok?
    && IntOrZero(p[7]).Ok? && IntOrZero(p[8]).Ok? && IntOrZero(p[12]).Ok? && IntOrZero(p[13]).Ok?
    && IntOrZero(p[14]).Ok?
  }

  /** Every field the futures quote handler converts reads as a number (or is empty). */
  predicate FuturesQuoteFieldsParse(p: seq<string>)
    requires |p| >= 22
  {
    RealOrZero(p[2]).Ok? && RealOrZero(p[3]).Ok? && RealOrZero(p[4]).Ok?
    && RealOrZero(p[7]).Ok? && RealOrZero(p[8]).Ok? && RealOrZero(p[9]).Ok?
    && IntOrZero(p[12]).Ok? && IntOrZero(p[13]).Ok? && IntOrZero(p[17]).Ok? && IntOrZero(p[18]).Ok?
  }

  /** Every field the futures price handler converts reads as a number (or is empty). */
  predicate FuturesPriceFieldsParse(p: seq<string>)
    requires |p| >= 6
  {
    RealOrZero(p[5]).Ok? && RealOrZero(p[2]).Ok? && RealOrZero(p[4]).Ok? && IntOrZero(p[3]).Ok?
  }

  /**
   * `FuturesQuoteHandler.handle_message`: at least 22 fields; the current price is read from
   * the same field as the first ask price.
   */
  function ParseFuturesQuote(msg: string, trId: string): (r: Result<Option<Tick>>)
    ensures !Accepts(msg, trId) || |Split(msg, '^')| < 22 ==> r == Ok(None)
    ensures r.Ok? && r.value.Some? ==>
      var p := Split(msg, '^');
      var t := r.value.value;
      |p| >= 22 && t.FuturesQuote? && t.code == CodeOf(p[0]) && t.time == p[1]
      && Ok(t.askPrice1) == RealNumOrZero(p[2]) && t.currentPrice == t.askPrice1
      && Ok(t.askPrice2) == RealNumOrZero(p[3]) && Ok(t.askPrice3) == RealOrZero(p[4])
      && Ok(t.bidPrice1) == RealNumOrZero(p[7]) && Ok(t.bidPrice2) == RealNumOrZero(p[8])
      && Ok(t.bidPrice3) == RealOrZero(p[9])
      && Ok(t.askQty1) == IntOrZero(p[12]) && Ok(t.askQty2) == IntOrZero(p[13])
      && Ok(t.bidQty1) == IntOrZero(p[17]) && Ok(t.bidQty2) == IntOrZero(p[18])
    ensures Accepts(msg, trId) && |Split(msg, '^')| >= 22 ==>
      (r.Ok? <==> FuturesQuoteFieldsParse(Split(msg, '^'))) && (r.Ok? ==> r.value.Some?)
    ensures r.Err? ==> r.error.ValueError?
  {
    if !Accepts(msg, trId) then Ok(None)
    else
      var p := Split(msg, '^');
      if |p| < 22 then Ok(None)
      else
        var a1 :- RealNumOrZero(p[2]);
        var a2 :- RealNumOrZero(p[3]);
        var a3 :- RealOrZero(p[4]);
        var b1 :- RealNumOrZero(p[7]);
        var b2 :- RealNumOrZero(p[8]);
        var b3 :- RealOrZero(p[9]);
        var aq1 :- IntOrZero(p[12]);
        var aq2 :- IntOrZero(p[13]);
        var bq1 :- IntOrZero(p[17]);
        var bq2 :- IntOrZero(p[18]);
        // `current_price` parses field 2 a second time, which gives the first ask price again.
        Ok(Some(FuturesQuote(CodeOf(p[0]), p[1], a1, a2, a3, b1, b2, b3, aq1, aq2, bq1, bq2, a1)))
  }

  /**
   * `FuturesPriceHandler.handle_message`: at least 6 fields; price from field 5, change from
   * field 2, change rate from field 4 and volume from field 3.
   */
  function ParseFuturesPrice(msg: string, trId: string): (r: Result<Option<Tick>>)
    ensures !Accepts(msg, trId) || |Split(msg, '^')| < 6 ==> r == Ok(None)
    ensures r.Ok? && r.value.Some? ==>
      var p := Split(msg, '^');
      var t := r.value.value;
      |p| >= 6 && t.FuturesPrice? && t.code == CodeOf(p[0]) && t.time == p[1]
      && Ok(t.currentPrice) == RealNumOrZero(p[5]) && Ok(t.change) == RealNumOrZero(p[2])
      && Ok(t.changeRate) == RealOrZero(p[4]) && Ok(t.volume) == IntOrZero(p[3])
    ensures Accepts(msg, trId) && |Split(msg, '^')| >= 6 ==>
      (r.Ok? <==> FuturesPriceFieldsParse(Split(msg, '^'))) && (r.Ok? ==> r.value.Some?)
    ensures r.Err? ==> r.error.ValueError?
  {
    if !Accepts(msg, trId) then Ok(None)
    else
      var p := Split(msg, '^');
      if |p| < 6 then Ok(None)
      else
        var cur :- RealNumOrZero(p[5]);
        var chg :- RealNumOrZero(p[2]);
        var rate :- RealOrZero(p[4]);
        var vol :- IntOrZero(p[3]);
        Ok(Some(FuturesPrice(CodeOf(p[0]), p[1], cur, chg, rate, vol)))
  }

  /** The parser of a handler class. */
  function Parse(cls: HandlerClass, msg: string, trId: string): Result<Option<Tick>>
  {
    match cls
    case StockQuoteHandler => ParseStockQuote(msg, trId)
    case StockPriceHandler => ParseStockPrice(msg, trId)
    case FuturesQuoteHandler => ParseFuturesQuote(msg, trId)
    case FuturesPriceHandler => ParseFuturesPrice(msg, trId)
  }

  /** Every handler ignores JSON frames, frames not starting with '0' and frames of another `tr_id`. */
  lemma ParseIgnores(cls: HandlerClass, msg: string, trId: string)
    requires !Accepts(msg, trId)
    ensures Parse(cls, msg, trId) == Ok(None)
  {
  }

  /**
   * A frame assembled from `^`-free fields, with a header of four `|`-fields, parses back to
   * those fields: the code is the header's last field and the price is field 2.
   */
  lemma StockPriceOfFields(header: seq<string>, fields: seq<string>, trId: string, price: int)
    requires |header| == 4 && forall k | 0 <= k < 4 :: '|' !in header[k] && '^' !in header[k]
    requires |fields| >= 2 && forall k | 0 <= k < |fields| :: '^' !in fields[k]
    requires fields[1] == IntToString(price)
    requires Accepts(Join([Join(header, "|")] + fields, "^"), trId)
    ensures ParseStockPrice(Join([Join(header, "|")] + fields, "^"), trId) == Ok(Some(StockPrice(header[3], price)))
  {
    var head := Join(header, "|");
    var all := [head] + fields;
    assert '^' !in head by {
      JoinFree(header, "|", '^');
    }
    assert forall k | 0 <= k < |all| :: '^' !in all[k] by {
      forall k | 0 <= k < |all| ensures '^' !in all[k] {
        if k > 0 {
          assert all[k] == fields[k - 1];
        }
      }
    }
    SplitJoin(all, '^');
    CodeOfHeader(header);
    ParseIntOfIntToString(price);
  }

  /** Joining pieces free of `c` with a separator free of `c` leaves `c` out. */
  lemma {:induction false} JoinFree(parts: seq<string>, sep: string, c: char)
    requires c !in sep && forall k | 0 <= k < |parts| :: c !in parts[k]
    ensures c !in Join(parts, sep)
    decreases |parts|
  {
    if |parts| > 1 {
      JoinFree(parts[1..], sep, c);
    }
  }

  // ----------------------------------------------------------------------------------
  // Handlers, registry and factory
  // ----------------------------------------------------------------------------------

  /** `get_request`: the subscription request every handler sends. */
  function SubscriptionRequest(approvalKey: string, trId: string, trKey: string): (v: Value)
    ensures v.VDict? && Get(v.entries, "header") == Some(VDict([("approval_key", VStr(approvalKey)),
                                                               ("custtype", VStr("P")), ("tr_type", VStr("1"))]))
    ensures Get(v.entries, "body") == Some(VDict([("input", VDict([("tr_id", VStr(trId)), ("tr_key", VStr(trKey))]))]))
  {
    VDict([("header", VDict([("approval_key", VStr(approvalKey)), ("custtype", VStr("P")), ("tr_type", VStr("1"))])),
           ("body", VDict([("input", VDict([("tr_id", VStr(trId)), ("tr_key", VStr(trKey))]))]))])
  }

  /** One of the four handlers: its class, its `tr_id`, its symbol and the queue it feeds. */
  class Handler {
    const cls: HandlerClass
    const queue: Queue
    const trId: string
    const symbol: string

    /** `Handler(queue, config, symbol)`: the `tr_id` is the configuration's for the class. */
    constructor(cls: HandlerClass, queue: Queue, config: WsConfig, symbol: string)
      ensures this.cls == cls && this.queue == queue && trId == TrIdOf(cls, config) && this.symbol == symbol
    {
      this.cls := cls;
      this.queue := queue;
      this.trId := TrIdOf(cls, config);
      this.symbol := symbol;
    }

    /** `get_request(key)`: `tr_id` is the handler's and `tr_key` its symbol. */
    function GetRequest(approvalKey: string): Value
    {
      SubscriptionRequest(approvalKey, trId, symbol)
    }

    /**
     * `handle_message`: a frame the handler parses is put on the queue as its dict; an ignored
     * or too short frame leaves the queue alone, and a bad number raises before the put.
     */
    method HandleMessage(msg: string) returns (r: Result<Option<Tick>>)
      modifies queue
      ensures r == Parse(cls, msg, trId)
      ensures r.Ok? && r.value.Some? ==> queue.items == old(queue.items) + [TickToDict(r.value.value)]
      ensures !(r.Ok? && r.value.Some?) ==> queue.items == old(queue.items)
    {
      r := Parse(cls, msg, trId);
      if r.Ok? && r.value.Some? {
        queue.Put(TickToDict(r.value.value));
      }
    }
  }

  /** `HandlerRegistry` */
  class HandlerRegistry {
    var handlers: map<WsDataType, HandlerClass>

    constructor()
      ensures handlers == map[]
    {
      handlers := map[];
    }

    /** `register`: adds the class, replacing any earlier one for the type. */
    method Register(dataType: WsDataType, cls: HandlerClass)
      modifies this
      ensures handlers == old(handlers)[dataType := cls]
    {
      handlers := handlers[dataType := cls];
    }

    /**
     * `create_handler`: ValueError for an unregistered type, else a new handler of the
     * registered class for the subscription's symbol.
     */
    method CreateHandler(queue: Queue, config: WsConfig, dataType: WsDataType, symbol: string)
      returns (r: Result<Handler>)
      ensures r.Err? <==> dataType !in handlers
      ensures r.Err? ==> r.error.ValueError?
      ensures r.Ok? ==> fresh(r.value) && r.value.cls == handlers[dataType] && r.value.queue == queue
                        && r.value.symbol == symbol && r.value.trId == TrIdOf(handlers[dataType], config)
    {
      if dataType !in handlers {
        return Err(ValueError("No handler registered"));
      }
      var h := new Handler(handlers[dataType], queue, config, symbol);
      r := Ok(h);
    }
  }

  /** The classes `HandlerFactory` registers on construction. */
  const DefaultHandlers: map<WsDataType, HandlerClass> :=
    map[SQuote := StockQuoteHandler, SPrice := StockPriceHandler, FQuote := FuturesQuoteHandler,
        FPrice := FuturesPriceHandler]

  /** With the defaults every data type has a handler, and distinct types get distinct classes. */
  lemma DefaultsServeEveryType(t: WsDataType, u: WsDataType)
    ensures t in DefaultHandlers
    ensures t != u ==> DefaultHandlers[t] != DefaultHandlers[u]
  {
  }

  /** `HandlerFactory`: a registry filled with the four handlers. */
  class HandlerFactory {
    const registry: HandlerRegistry

    constructor()
      ensures fresh(registry) && registry.handlers == DefaultHandlers
    {
      registry := new HandlerRegistry();
      new;
      registry.Register(SQuote, StockQuoteHandler);
      registry.Register(SPrice, StockPriceHandler);
      registry.Register(FQuote, FuturesQuoteHandler);
      registry.Register(FPrice, FuturesPriceHandler);
    }

    /** `create_handler`: the registry's. */
    method CreateHandler(queue: Queue, config: WsConfig, dataType: WsDataType, symbol: string)
      returns (r: Result<Handler>)
      ensures r.Err? <==> dataType !in registry.handlers
      ensures r.Err? ==> r.error.ValueError?
      ensures r.Ok? ==> fresh(r.value) && r.value.cls == registry.handlers[dataType] && r.value.queue == queue
                        && r.value.symbol == symbol && r.value.trId == TrIdOf(registry.handlers[dataType], config)
    {
      r := registry.CreateHandler(queue, config, dataType, symbol);
    }

    /** `register_handler`: replaces the class for one type, leaving the others. */
    method RegisterHandler(dataType: WsDataType, cls: HandlerClass)
      modifies registry
      ensures registry.handlers == old(registry.handlers)[dataType := cls]
    {
      registry.Register(dataType, cls);
    }
  }
}
