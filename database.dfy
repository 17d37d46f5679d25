/**
 * The database writer (`DataWriter` in `src/database/data_writer.py`): the queue
 * `save_candle_data` feeds, the routing of a batch of candle records to per-future tables
 * and the stock table, the memo that creates each dynamic table once, the parameter rows
 * of the bulk candle upsert, and the per-metric upserts of the option matrices. The
 * database itself is the log of the calls made on it.
 */
module Database {
  import opened Wrappers
  import opened Text
  import opened Clock
  import opened Models

  /** An `INSERT INTO table (columns) VALUES (placeholders) ON CONFLICT ... DO UPDATE SET updates`. */
  datatype Upsert = Upsert(table: string, columns: seq<string>, placeholders: seq<string>, updates: seq<string>)

  /** A call on the database: `create_dynamic_table`, `execute_query`, or `executemany` of the candle upsert. */
  datatype DbCall =
    | CreateTable(kind: string, symbol: string)
    | Execute(statement: Upsert, args: seq<Value>)
    | ExecuteMany(table: string, rows: seq<seq<Value>>)

  const FuturesKind: string := "futures"
  const MatricesKind: string := "option_matrices"
  const StocksTable: string := "stocks_1m"

  /** `symbol[:3]` */
  function Prefix3(s: string): (r: string)
    ensures |r| == (if |s| < 3 then |s| else 3) && StartsWith(s, r)
  {
    if |s| <= 3 then s else s[..3]
  }

  /**
   * The memo key, which is also the table's name: `futures_` and the symbol's first three
   * characters lower-cased for a future, `option_matrices_` and the whole symbol lower-cased
   * for the matrices.
   */
  function TableKey(kind: string, symbol: string): string
  {
    if kind == FuturesKind then FuturesKind + "_" + Lower(Prefix3(symbol))
    else kind + "_" + Lower(symbol)
  }

  // ----------------------------------------------------------------------------------
  // The table-creation memo
  // ----------------------------------------------------------------------------------

  /** The keys of the tables the calls created. */
  function CreatedKeys(calls: seq<DbCall>): set<string>
    decreases |calls|
  {
    if |calls| == 0 then {}
    else
      var c := calls[|calls| - 1];
      CreatedKeys(calls[..|calls| - 1]) + (if c.CreateTable? then {TableKey(c.kind, c.symbol)} else {})
  }

  /** No two creations answer for the same key. */
  predicate CreatesOnce(calls: seq<DbCall>)
  {
    forall i, j | 0 <= i < j < |calls| && calls[i].CreateTable? && calls[j].CreateTable? ::
      TableKey(calls[i].kind, calls[i].symbol) != TableKey(calls[j].kind, calls[j].symbol)
  }

  lemma {:induction false} CreatedKeysHas(calls: seq<DbCall>, i: int)
    requires 0 <= i < |calls| && calls[i].CreateTable?
    ensures TableKey(calls[i].kind, calls[i].symbol) in CreatedKeys(calls)
    decreases |calls|
  {
    if i < |calls| - 1 {
      CreatedKeysHas(calls[..|calls| - 1], i);
      assert calls[..|calls| - 1][i] == calls[i];
    }
  }

  /** Appending a call keeps every key created once, provided a creation's key is new. */
  lemma AppendCall(calls: seq<DbCall>, c: DbCall)
    requires CreatesOnce(calls)
    requires c.CreateTable? ==> TableKey(c.kind, c.symbol) !in CreatedKeys(calls)
    ensures CreatesOnce(calls + [c])
    ensures CreatedKeys(calls + [c]) == CreatedKeys(calls) + (if c.CreateTable? then {TableKey(c.kind, c.symbol)} else {})
  {
    var cs := calls + [c];
    assert cs[..|cs| - 1] == calls;
    forall i, j | 0 <= i < j < |cs| && cs[i].CreateTable? && cs[j].CreateTable?
      ensures TableKey(cs[i].kind, cs[i].symbol) != TableKey(cs[j].kind, cs[j].symbol)
    {
      if j == |cs| - 1 {
        CreatedKeysHas(calls, i);
      }
    }
  }

  // ----------------------------------------------------------------------------------
  // Routing a batch
  // ----------------------------------------------------------------------------------

  /**
   * `"candle" in data.get("type", "")`: a missing type is "", a string is searched for the
   * substring, a list for the element, a dict for the key; `in` on any other value raises.
   */
  function IsCandleItem(d: Dict): (r: Result<bool>)
    ensures Get(d, "type").None? ==> r == Ok(false)
    ensures r.Err? <==> Get(d, "type").Some? && !(Get(d, "type").value.VStr? || Get(d, "type").value.VList? || Get(d, "type").value.VDict?)
    ensures r.Err? ==> r.error.TypeError?
  {
    match Get(d, "type")
    case None => Ok(false)
    case Some(VStr(s)) => Ok(Contains(s, "candle"))
    case Some(VList(items)) => Ok(VStr("candle") in items)
    case Some(VDict(entries)) => Ok("candle" in Keys(entries))
    case Some(_) => Err(TypeError("argument of type is not iterable"))
  }

  /** `data["symbol"]`, used as a string. */
  function SymbolOf(d: Dict): (r: Result<string>)
    ensures Get(d, "symbol").None? ==> r == Err(KeyError("symbol"))
    ensures r.Ok? ==> Get(d, "symbol") == Some(VStr(r.value))
  {
    match Get(d, "symbol")
    case None => Err(KeyError("symbol"))
    case Some(VStr(s)) => Ok(s)
    case Some(_) => Err(AttributeError("startswith"))
  }

  /** Futures codes start with "1". */
  predicate IsFutures(symbol: string)
  {
    StartsWith(symbol, "1")
  }

  /** `futures_by_symbol` (its symbols in first-seen order, and their items) and `stocks_data`. */
  datatype Routing = Routing(order: seq<string>, futures: map<string, seq<Dict>>, stocks: seq<Dict>)

  /** The grouping loop of `_write_batch`, up to the first item that raises. */
  function Route(batch: seq<Dict>): (r: Result<Routing>)
    ensures r.Ok? ==> forall s | s in r.value.order :: s in r.value.futures
    decreases |batch|
  {
    if |batch| == 0 then Ok(Routing([], map[], []))
    else
      var r :- Route(batch[..|batch| - 1]);
      Place(r, batch[|batch| - 1])
  }

  /** One pass of the grouping loop. */
  function Place(r: Routing, d: Dict): (r': Result<Routing>)
    ensures r'.Ok? && (forall s | s in r.order :: s in r.futures) ==> forall s | s in r'.value.order :: s in r'.value.futures
  {
    var isCandle :- IsCandleItem(d);
    if !isCandle then Ok(r)
    else
      var symbol :- SymbolOf(d);
      if IsFutures(symbol) then
        if symbol in r.futures then Ok(r.(futures := r.futures[symbol := r.futures[symbol] + [d]]))
        else Ok(r.(order := r.order + [symbol], futures := r.futures[symbol := [d]]))
      else Ok(r.(stocks := r.stocks + [d]))
  }

  /** A candle item of `symbol`. */
  predicate CandleOf(d: Dict, symbol: string)
  {
    IsCandleItem(d) == Ok(true) && SymbolOf(d) == Ok(symbol)
  }

  /** The candle items of `batch` under `symbol`, in order. */
  function ItemsOf(batch: seq<Dict>, symbol: string): seq<Dict>
    decreases |batch|
  {
    if |batch| == 0 then []
    else ItemsOf(batch[..|batch| - 1], symbol) + (if CandleOf(batch[|batch| - 1], symbol) then [batch[|batch| - 1]] else [])
  }

  /** A candle item whose symbol is not a futures code. */
  predicate StockItem(d: Dict)
  {
    IsCandleItem(d) == Ok(true) && SymbolOf(d).Ok? && !IsFutures(SymbolOf(d).value)
  }

  /** The stock candle items of `batch`, in order. */
  function StockItems(batch: seq<Dict>): seq<Dict>
    decreases |batch|
  {
    if |batch| == 0 then []
    else StockItems(batch[..|batch| - 1]) + (if StockItem(batch[|batch| - 1]) then [batch[|batch| - 1]] else [])
  }

  /**
   * The grouping is the filter it should be: the stock list is the stock candle items in
   * order; every futures symbol with an item has a group holding exactly its items in
   * order, listed once in first-seen order; no other symbol has a group.
   */
  ghost predicate WellRouted(batch: seq<Dict>, r: Routing)
  {
    r.stocks == StockItems(batch) && Listed(r) && GroupsHold(batch, r) && NoneMissing(batch, r)
  }

  /** Every group's symbol is listed once, and every listed symbol has a group. */
  ghost predicate Listed(r: Routing)
  {
    (forall s :: s in r.futures <==> s in r.order)
    && (forall i, j | 0 <= i < j < |r.order| :: r.order[i] != r.order[j])
  }

  /** Each group is a futures symbol's candle items, in order, and is not empty. */
  ghost predicate GroupsHold(batch: seq<Dict>, r: Routing)
  {
    forall s | s in r.futures :: IsFutures(s) && r.futures[s] == ItemsOf(batch, s) && |r.futures[s]| > 0
  }

  /** A futures symbol without a group has no candle item. */
  ghost predicate NoneMissing(batch: seq<Dict>, r: Routing)
  {
    forall s | IsFutures(s) && s !in r.futures :: ItemsOf(batch, s) == []
  }

  lemma {:induction false} RouteSpec(batch: seq<Dict>)
    requires Route(batch).Ok?
    ensures WellRouted(batch, Route(batch).value)
    decreases |batch|
  {
    if |batch| > 0 {
      var init := batch[..|batch| - 1];
      RouteSpec(init);
      PlaceSpec(batch, Route(init).value);
    }
  }

  lemma PlaceSpec(batch: seq<Dict>, r: Routing)
    requires |batch| > 0 && WellRouted(batch[..|batch| - 1], r)
    requires Place(r, batch[|batch| - 1]).Ok?
    ensures WellRouted(batch, Place(r, batch[|batch| - 1]).value)
  {
    var d := batch[|batch| - 1];
    if IsCandleItem(d) == Ok(true) {
      if IsFutures(SymbolOf(d).value) {
        PlaceFuture(batch, r);
      } else {
        PlaceStock(batch, r);
      }
    } else {
      PlaceSkip(batch, r);
    }
  }

  lemma PlaceSkip(batch: seq<Dict>, r: Routing)
    requires |batch| > 0 && WellRouted(batch[..|batch| - 1], r)
    requires IsCandleItem(batch[|batch| - 1]) == Ok(false)
    ensures WellRouted(batch, r)
  {
    var init := batch[..|batch| - 1];
    assert StockItems(batch) == StockItems(init);
    assert forall s :: ItemsOf(batch, s) == ItemsOf(init, s);
  }

  lemma PlaceStock(batch: seq<Dict>, r: Routing)
    requires |batch| > 0 && WellRouted(batch[..|batch| - 1], r)
    requires StockItem(batch[|batch| - 1])
    ensures WellRouted(batch, r.(stocks := r.stocks + [batch[|batch| - 1]]))
  {
    var init := batch[..|batch| - 1];
    var symbol := SymbolOf(batch[|batch| - 1]).value;
    assert forall s | IsFutures(s) :: ItemsOf(batch, s) == ItemsOf(init, s);
  }

  lemma PlaceFuture(batch: seq<Dict>, r: Routing)
    requires |batch| > 0 && WellRouted(batch[..|batch| - 1], r)
    requires IsCandleItem(batch[|batch| - 1]) == Ok(true) && SymbolOf(batch[|batch| - 1]).Ok?
    requires IsFutures(SymbolOf(batch[|batch| - 1]).value)
    ensures Place(r, batch[|batch| - 1]).Ok? && WellRouted(batch, Place(r, batch[|batch| - 1]).value)
  {
    var init := batch[..|batch| - 1];
    var d := batch[|batch| - 1];
    var symbol := SymbolOf(d).value;
    var r' := Place(r, d).value;
    assert StockItems(batch) == StockItems(init);
    assert CandleOf(d, symbol);
    assert Listed(r');
    assert GroupsHold(batch, r') by {
      forall s | s in r'.futures
        ensures IsFutures(s) && r'.futures[s] == ItemsOf(batch, s) && |r'.futures[s]| > 0
      {
        ItemsOfLast(batch, s);
        if s == symbol && symbol !in r.futures {
          assert ItemsOf(init, symbol) == [];
        }
      }
    }
    assert NoneMissing(batch, r') by {
      forall s | IsFutures(s) && s !in r'.futures
        ensures ItemsOf(batch, s) == []
      {
        ItemsOfLast(batch, s);
      }
    }
  }

  /** The items of a symbol grow by the last record exactly when it is a candle of that symbol. */
  lemma ItemsOfLast(batch: seq<Dict>, s: string)
    requires |batch| > 0
    ensures ItemsOf(batch, s) == ItemsOf(batch[..|batch| - 1], s)
      + (if CandleOf(batch[|batch| - 1], s) then [batch[|batch| - 1]] else [])
  {
  }

  lemma RouteStep(batch: seq<Dict>, i: int)
    requires 0 <= i < |batch| && Route(batch[..i]).Ok?
    ensures Route(batch[..i + 1]) == Place(Route(batch[..i]).value, batch[i])
  {
    assert batch[..i + 1][..i] == batch[..i];
  }

  /** Once a prefix raises, the whole grouping raises the same exception. */
  lemma {:induction false} RoutePrefixErr(batch: seq<Dict>, k: int)
    requires 0 <= k <= |batch| && Route(batch[..k]).Err?
    ensures Route(batch) == Route(batch[..k])
    decreases |batch| - k
  {
    if k < |batch| {
      assert batch[..k + 1][..k] == batch[..k];
      RoutePrefixErr(batch, k + 1);
    } else {
      assert batch[..k] == batch;
    }
  }

  // ----------------------------------------------------------------------------------
  // The bulk candle upsert
  // ----------------------------------------------------------------------------------

  /** `d[k]` */
  function Field(d: Dict, k: string): (r: Result<Value>)
    ensures r.Ok? <==> Get(d, k).Some?
    ensures r.Ok? ==> Get(d, k) == Some(r.value)
  {
    match Get(d, k)
    case None => Err(KeyError(k))
    case Some(v) => Ok(v)
  }

  /** `TimeService.to_kst_naive(datetime.fromisoformat(s))` */
  function ParseKst(s: string): (r: Result<DateTime>)
    ensures r.Ok? <==> FromIsoFormat(s).Some?
    ensures r.Ok? ==> r.value == ToKstNaive(FromIsoFormat(s).value)
  {
    match FromIsoFormat(s)
    case None => Err(ValueError("Invalid isoformat string"))
    case Some(m) => Ok(ToKstNaive(m))
  }

  /** The timestamp parameter: a string is parsed and taken to naive KST; any other value is passed as it is. */
  function TimestampParam(v: Value): Result<Value>
  {
    if v.VStr? then
      var dt :- ParseKst(v.s);
      Ok(VTime(dt))
    else Ok(v)
  }

  /** The parameter tuple of one candle: timestamp, symbol, open, high, low, close, volume. */
  function CandleRow(d: Dict): (r: Result<seq<Value>>)
    ensures r.Ok? ==> |r.value| == 7
  {
    var ts :- Field(d, "timestamp");
    var t :- TimestampParam(ts);
    var symbol :- Field(d, "symbol");
    var open :- Field(d, "open");
    var high :- Field(d, "high");
    var low :- Field(d, "low");
    var close :- Field(d, "close");
    var volume :- Field(d, "volume");
    Ok([t, symbol, open, high, low, close, volume])
  }

  /** `params_list`: the rows of the candles in order, or the first exception. */
  function CandleRows(ds: seq<Dict>): (r: Result<seq<seq<Value>>>)
    decreases |ds|
  {
    if |ds| == 0 then Ok([])
    else
      var rows :- CandleRows(ds[..|ds| - 1]);
      var row :- CandleRow(ds[|ds| - 1]);
      Ok(rows + [row])
  }

  /** The rows are the candles' rows one for one, and exist exactly when every candle has one. */
  lemma {:induction false} CandleRowsSpec(ds: seq<Dict>)
    ensures CandleRows(ds).Ok? <==> forall i | 0 <= i < |ds| :: CandleRow(ds[i]).Ok?
    ensures CandleRows(ds).Ok? ==>
      |CandleRows(ds).value| == |ds| && forall i | 0 <= i < |ds| :: CandleRows(ds).value[i] == CandleRow(ds[i]).value
    decreases |ds|
  {
    if |ds| > 0 {
      var init := ds[..|ds| - 1];
      CandleRowsSpec(init);
      assert forall i | 0 <= i < |init| :: init[i] == ds[i];
    }
  }

  lemma {:induction false} CandleRowsPrefixErr(ds: seq<Dict>, k: int)
    requires 0 <= k <= |ds| && CandleRows(ds[..k]).Err?
    ensures CandleRows(ds) == CandleRows(ds[..k])
    decreases |ds| - k
  {
    if k < |ds| {
      assert ds[..k + 1][..k] == ds[..k];
      CandleRowsPrefixErr(ds, k + 1);
    } else {
      assert ds[..k] == ds;
    }
  }

  /**
   * A record made by `CandleData.to_dict` is a candle item of its own symbol, and the writer
   * stores it with its own timestamp, symbol, prices and volume.
   */
  lemma CandleRowOfCandle(c: CandleData)
    requires IsoRange(c.timestamp)
    ensures CandleOf(CandleToDict(c), c.symbol)
    ensures CandleRow(CandleToDict(c)) ==
      Ok([VTime(c.timestamp), VStr(c.symbol), NumValue(c.open), NumValue(c.high),
          NumValue(c.low), NumValue(c.close), VInt(c.volume)])
  {
    CandleGets(c);
    CandleTypeNamesCandle(c.dataType);
    TimestampParamOfIsoFormat(c.timestamp);
  }

  /** A naive timestamp written by `isoformat` is read back by the writer as the same moment. */
  lemma TimestampParamOfIsoFormat(dt: DateTime)
    requires IsoRange(dt)
    ensures TimestampParam(VStr(IsoFormat(dt))) == Ok(VTime(dt))
  {
    FromIsoFormatOfIsoFormat(dt);
  }

  // ----------------------------------------------------------------------------------
  // What a batch writes
  // ----------------------------------------------------------------------------------

  /** The calls made, the memo afterwards, and the exception that stopped the writes, if any. */
  datatype Effect = Effect(calls: seq<DbCall>, created: set<string>, error: Option<Error>)

  /** `_bulk_insert_candles(table, candles)` after `e`: nothing for no candles, else one `executemany`. */
  function Insert(e: Effect, table: string, candles: seq<Dict>): (r: Effect)
    ensures r.created == e.created
  {
    if |candles| == 0 then e
    else match CandleRows(candles)
      case Err(err) => e.(error := Some(err))
      case Ok(rows) => e.(calls := e.calls + [ExecuteMany(table, rows)])
  }

  /** The futures half of `_write_batch`: per symbol in first-seen order, its table once, then its candles. */
  function FlushFutures(created: set<string>, order: seq<string>, futures: map<string, seq<Dict>>): Effect
    requires forall s | s in order :: s in futures
    decreases |order|
  {
    if |order| == 0 then Effect([], created, None)
    else
      var e := FlushFutures(created, order[..|order| - 1], futures);
      if e.error.Some? then e
      else FlushOne(e, order[|order| - 1], futures[order[|order| - 1]])
  }

  /** One pass of the futures loop: create the symbol's table unless its key is memoised, then insert. */
  function FlushOne(e: Effect, symbol: string, candles: seq<Dict>): Effect
  {
    var key := TableKey(FuturesKind, symbol);
    var creates := if key in e.created then [] else [CreateTable(FuturesKind, symbol)];
    Insert(Effect(e.calls + creates, e.created + {key}, None), key, candles)
  }

  lemma FlushStep(created: set<string>, order: seq<string>, futures: map<string, seq<Dict>>, j: int)
    requires forall s | s in order :: s in futures
    requires 0 <= j < |order| && FlushFutures(created, order[..j], futures).error.None?
    ensures FlushFutures(created, order[..j + 1], futures)
      == FlushOne(FlushFutures(created, order[..j], futures), order[j], futures[order[j]])
  {
    assert order[..j + 1][..j] == order[..j];
  }

  /** A pass of the futures loop after earlier calls: the same pass with those calls in front. */
  lemma FlushOnePrefix(p: seq<DbCall>, e: Effect, symbol: string, candles: seq<Dict>)
    ensures var key := TableKey(FuturesKind, symbol);
      var creates := if key in e.created then [] else [CreateTable(FuturesKind, symbol)];
      var r := FlushOne(e, symbol, candles);
      Insert(Effect(p + e.calls + creates, e.created + {key}, None), key, candles) == r.(calls := p + r.calls)
  {
    var key := TableKey(FuturesKind, symbol);
    var creates := if key in e.created then [] else [CreateTable(FuturesKind, symbol)];
    AppendAssoc(p, e.calls, creates);
    InsertPrefix(p, Effect(e.calls + creates, e.created + {key}, None), key, candles);
  }

  lemma {:induction false} FlushPrefixErr(created: set<string>, order: seq<string>, futures: map<string, seq<Dict>>, k: int)
    requires forall s | s in order :: s in futures
    requires 0 <= k <= |order| && FlushFutures(created, order[..k], futures).error.Some?
    ensures FlushFutures(created, order, futures) == FlushFutures(created, order[..k], futures)
    decreases |order| - k
  {
    if k < |order| {
      assert order[..k + 1][..k] == order[..k];
      FlushPrefixErr(created, order, futures, k + 1);
    } else {
      assert order[..k] == order;
    }
  }

  /** `_write_batch(batch)` with the memo `created`. */
  function WriteBatchEffect(created: set<string>, batch: seq<Dict>): Effect
  {
    match Route(batch)
    case Err(err) => Effect([], created, Some(err))
    case Ok(r) =>
      var e := FlushFutures(created, r.order, r.futures);
      if e.error.Some? then e else Insert(e, StocksTable, r.stocks)
  }

  /** The tables the `executemany` calls of `calls` write, in order. */
  function Written(calls: seq<DbCall>): seq<string>
    decreases |calls|
  {
    if |calls| == 0 then []
    else Written(calls[..|calls| - 1]) + (if calls[|calls| - 1].ExecuteMany? then [calls[|calls| - 1].table] else [])
  }

  lemma WrittenAppend(a: seq<DbCall>, b: seq<DbCall>)
    ensures Written(a + b) == Written(a) + Written(b)
    decreases |b|
  {
    if |b| > 0 {
      assert (a + b)[..|a + b| - 1] == a + b[..|b| - 1];
      WrittenAppend(a, b[..|b| - 1]);
    } else {
      assert a + b == a;
    }
  }

  /** The futures tables of the symbols, in order. */
  function FuturesTables(order: seq<string>): (ts: seq<string>)
    ensures |ts| == |order| && forall i | 0 <= i < |order| :: ts[i] == TableKey(FuturesKind, order[i])
    decreases |order|
  {
    if |order| == 0 then []
    else FuturesTables(order[..|order| - 1]) + [TableKey(FuturesKind, order[|order| - 1])]
  }

  /**
   * A batch that raises nothing writes one `executemany` per futures symbol, to
   * `futures_<first three characters>` in first-seen order, then one to `stocks_1m` when
   * the batch held a stock candle.
   */
  lemma WriteBatchTables(created: set<string>, batch: seq<Dict>)
    requires WriteBatchEffect(created, batch).error.None?
    ensures Route(batch).Ok?
    ensures var r := Route(batch).value;
      Written(WriteBatchEffect(created, batch).calls)
      == FuturesTables(r.order) + (if |StockItems(batch)| > 0 then [StocksTable] else [])
  {
    var r := Route(batch).value;
    RouteSpec(batch);
    FlushTables(created, r.order, r.futures);
    var e := FlushFutures(created, r.order, r.futures);
    if |r.stocks| > 0 {
      var rows := CandleRows(r.stocks).value;
      WrittenAppend(e.calls, [ExecuteMany(StocksTable, rows)]);
      assert Written([ExecuteMany(StocksTable, rows)]) == [StocksTable];
    }
  }

  lemma {:induction false} FlushTables(created: set<string>, order: seq<string>, futures: map<string, seq<Dict>>)
    requires forall s | s in order :: s in futures && |futures[s]| > 0
    requires FlushFutures(created, order, futures).error.None?
    ensures Written(FlushFutures(created, order, futures).calls) == FuturesTables(order)
    decreases |order|
  {
    if |order| > 0 {
      var init := order[..|order| - 1];
      var s := order[|order| - 1];
      FlushTables(created, init, futures);
      WrittenFlushOne(FlushFutures(created, init, futures), s, futures[s]);
    }
  }

  /** A pass of the futures loop that raises nothing writes its symbol's table once. */
  lemma WrittenFlushOne(e: Effect, symbol: string, candles: seq<Dict>)
    requires |candles| > 0 && FlushOne(e, symbol, candles).error.None?
    ensures Written(FlushOne(e, symbol, candles).calls) == Written(e.calls) + [TableKey(FuturesKind, symbol)]
  {
    var key := TableKey(FuturesKind, symbol);
    var creates := if key in e.created then [] else [CreateTable(FuturesKind, symbol)];
    var rows := CandleRows(candles).value;
    var tail := creates + [ExecuteMany(key, rows)];
    WrittenAppend(e.calls, tail);
    assert Written(tail) == [key] by {
      assert tail[..|tail| - 1] == creates;
      assert Written(creates) == [] by {
        if |creates| == 1 {
          assert creates[..0] == [];
        }
      }
    }
    assert e.calls + creates + [ExecuteMany(key, rows)] == e.calls + tail;
  }

  // ----------------------------------------------------------------------------------
  // Option matrices
  // ----------------------------------------------------------------------------------

  const Metrics: seq<string> := ["iv", "delta", "gamma", "vega", "theta", "rho", "price", "volume", "open_interest"]
  const Sides: seq<string> := ["c", "p"]
  /** The strike levels, deepest in the money first, then at the money, then out of the money. */
  const Strikes: seq<string> := ItmStrikes + ["atm"] + OtmStrikes
  const ItmStrikes: seq<string> := ["itm10", "itm9", "itm8", "itm7", "itm6", "itm5", "itm4", "itm3", "itm2", "itm1"]
  const OtmStrikes: seq<string> := ["otm1", "otm2", "otm3", "otm4", "otm5", "otm6", "otm7", "otm8", "otm9", "otm10"]
  const Header: seq<string> := ["timestamp", "underlying_symbol", "metric_type"]

  /** `metric_values.get(option_type, {})`, which must be a dict for `.get(strike_level)`. */
  function SideDict(mv: Value, side: string): Result<Dict>
  {
    if !mv.VDict? then Err(AttributeError("get"))
    else match Get(mv.entries, side).GetOr(VDict([]))
      case VDict(entries) => Ok(entries)
      case _ => Err(AttributeError("get"))
  }

  /** A strike of `inner` holds a value other than None. */
  predicate Present(inner: Dict, strike: string)
  {
    Get(inner, strike).Some? && !Get(inner, strike).value.VNone?
  }

  /** The column `<side>_<strike>` and its value. */
  function Cell(inner: Dict, side: string, strike: string): (string, Value)
    requires Present(inner, strike)
  {
    (side + "_" + strike, Get(inner, strike).value)
  }

  /** The `(column, value)` pairs of one side, strike by strike, for the values that are present. */
  function SidePairs(inner: Dict, side: string, ks: seq<string>): (r: seq<(string, Value)>)
    ensures |r| <= |ks|
    decreases |ks|
  {
    if |ks| == 0 then []
    else
      var k := ks[|ks| - 1];
      SidePairs(inner, side, ks[..|ks| - 1]) + (if Present(inner, k) then [Cell(inner, side, k)] else [])
  }

  /** The pairs of the sides in turn; the first side that is not a dict raises. */
  function SidesPairs(mv: Value, sides: seq<string>): Result<seq<(string, Value)>>
    decreases |sides|
  {
    if |sides| == 0 then Ok([])
    else
      var pairs :- SidesPairs(mv, sides[..|sides| - 1]);
      var inner :- SideDict(mv, sides[|sides| - 1]);
      Ok(pairs + SidePairs(inner, sides[|sides| - 1], Strikes))
  }

  /** `$1`, `$2`, ..., `$k` */
  function PlaceholderList(k: nat): (r: seq<string>)
    ensures |r| == k && forall i | 0 <= i < k :: r[i] == Placeholder(i + 1)
  {
    if k == 0 then [] else PlaceholderList(k - 1) + [Placeholder(k)]
  }

  /** `[f"{col} = EXCLUDED.{col}" for col in cols]` */
  function UpdateSet(cols: seq<string>): (r: seq<string>)
    ensures |r| == |cols| && forall i | 0 <= i < |cols| :: r[i] == cols[i] + " = EXCLUDED." + cols[i]
    decreases |cols|
  {
    if |cols| == 0 then []
    else UpdateSet(cols[..|cols| - 1]) + [cols[|cols| - 1] + " = EXCLUDED." + cols[|cols| - 1]]
  }

  function Firsts(pairs: seq<(string, Value)>): (r: seq<string>)
    ensures |r| == |pairs| && forall i | 0 <= i < |pairs| :: r[i] == pairs[i].0
    decreases |pairs|
  {
    if |pairs| == 0 then [] else Firsts(pairs[..|pairs| - 1]) + [pairs[|pairs| - 1].0]
  }

  function Seconds(pairs: seq<(string, Value)>): (r: seq<Value>)
    ensures |r| == |pairs| && forall i | 0 <= i < |pairs| :: r[i] == pairs[i].1
    decreases |pairs|
  {
    if |pairs| == 0 then [] else Seconds(pairs[..|pairs| - 1]) + [pairs[|pairs| - 1].1]
  }

  /** The upsert of one metric's row: the header columns, then one column per present value. */
  function MatrixCall(table: string, ts: Value, u: string, metric: string, pairs: seq<(string, Value)>): DbCall
  {
    var columns := Header + Firsts(pairs);
    var values := [ts, VStr(u), VStr(metric)] + Seconds(pairs);
    Execute(Upsert(table, columns, PlaceholderList(|values|), UpdateSet(columns[3..])), values)
  }

  /** One pass of the metric loop: a missing or empty metric is skipped, as is a row with no value column. */
  function MetricCall(table: string, ts: Value, u: string, data: Dict, metric: string): (r: Result<Option<DbCall>>)
    ensures r.Ok? && r.value.Some? ==> r.value.value.Execute? && |r.value.value.statement.columns| > |Header|
  {
    var mv := Get(data, metric).GetOr(VDict([]));
    if !Truthy(mv) then Ok(None)
    else
      var pairs :- SidesPairs(mv, Sides);
      if |pairs| == 0 then Ok(None) else Ok(Some(MatrixCall(table, ts, u, metric, pairs)))
  }

  /** The calls of the metric loop, and the exception that ended it. */
  datatype Emitted = Emitted(calls: seq<DbCall>, error: Option<Error>)

  function MatrixCalls(table: string, ts: Value, u: string, data: Dict, metrics: seq<string>): (r: Emitted)
    ensures |r.calls| <= |metrics| && forall c | c in r.calls :: c.Execute?
    decreases |metrics|
  {
    if |metrics| == 0 then Emitted([], None)
    else
      var e := MatrixCalls(table, ts, u, data, metrics[..|metrics| - 1]);
      if e.error.Some? then e
      else match MetricCall(table, ts, u, data, metrics[|metrics| - 1])
        case Err(err) => Emitted(e.calls, Some(err))
        case Ok(None) => e
        case Ok(Some(c)) => Emitted(e.calls + [c], None)
  }

  lemma {:induction false} MatrixCallsPrefixErr(table: string, ts: Value, u: string, data: Dict, metrics: seq<string>, k: int)
    requires 0 <= k <= |metrics| && MatrixCalls(table, ts, u, data, metrics[..k]).error.Some?
    ensures MatrixCalls(table, ts, u, data, metrics) == MatrixCalls(table, ts, u, data, metrics[..k])
    decreases |metrics| - k
  {
    if k < |metrics| {
      assert metrics[..k + 1][..k] == metrics[..k];
      MatrixCallsPrefixErr(table, ts, u, data, metrics, k + 1);
    } else {
      assert metrics[..k] == metrics;
    }
  }

  /** The timestamp (as naive KST) and the underlying symbol, in the order they are read. */
  function MatrixHead(data: Dict): Result<(Value, string)>
  {
    var tv :- Field(data, "timestamp");
    if !tv.VStr? then Err(TypeError("fromisoformat: argument must be str"))
    else
      var dt :- ParseKst(tv.s);
      var uv :- Field(data, "underlying_symbol");
      if !uv.VStr? then Err(AttributeError("lower")) else Ok((VTime(dt), uv.s))
  }

  /**
   * A row's statement lines up: as many columns as placeholders as values, the header
   * first, the values column by column, the conflict clause updating exactly the columns
   * after the header, and the VALUES list numbering its placeholders `$1..$k` in order.
   */
  lemma MatrixCallShape(table: string, ts: Value, u: string, metric: string, pairs: seq<(string, Value)>)
    ensures var c := MatrixCall(table, ts, u, metric, pairs);
      var st := c.statement;
      |st.columns| == |st.placeholders| == |c.args| == |Header| + |pairs|
      && st.columns[..3] == Header && c.args[..3] == [ts, VStr(u), VStr(metric)]
      && (forall i | 0 <= i < |pairs| :: st.columns[3 + i] == pairs[i].0 && c.args[3 + i] == pairs[i].1)
      && st.updates == UpdateSet(st.columns[3..])
      && Placeholders(Join(st.placeholders, ", ")) == Iota(|c.args|)
  {
    var k := |Header| + |pairs|;
    var run := seq(k, i requires 0 <= i < k => Placeholder(1 + i));
    assert PlaceholderList(k) == run;
    PlaceholdersOfRun(1, k);
    PlaceholdersJoin(PlaceholderList(k), ", ");
  }

  /**
   * The value columns of a side are `<side>_<strike>` for exactly the strikes whose value is
   * present, each once, carrying that value.
   */
  lemma SidePairsSpec(inner: Dict, side: string, ks: seq<string>)
    requires Distinct(ks)
    ensures var r := SidePairs(inner, side, ks);
      Distinct(Firsts(r))
      && (forall i | 0 <= i < |ks| && Present(inner, ks[i]) :: Cell(inner, side, ks[i]) in r)
      && (forall p | p in r :: exists i | 0 <= i < |ks| :: Present(inner, ks[i]) && p == Cell(inner, side, ks[i]))
  {
    SidePairsMembers(inner, side, ks);
    SidePairsDistinct(inner, side, ks);
  }

  lemma {:induction false} SidePairsMembers(inner: Dict, side: string, ks: seq<string>)
    ensures forall i | 0 <= i < |ks| && Present(inner, ks[i]) :: Cell(inner, side, ks[i]) in SidePairs(inner, side, ks)
    ensures forall p | p in SidePairs(inner, side, ks) ::
      exists i | 0 <= i < |ks| :: Present(inner, ks[i]) && p == Cell(inner, side, ks[i])
    decreases |ks|
  {
    if |ks| > 0 {
      var init := ks[..|ks| - 1];
      SidePairsMembers(inner, side, init);
      var r0 := SidePairs(inner, side, init);
      var r := SidePairs(inner, side, ks);
      forall i | 0 <= i < |ks| && Present(inner, ks[i])
        ensures Cell(inner, side, ks[i]) in r
      {
        if i < |ks| - 1 {
          assert init[i] == ks[i];
        }
      }
      forall p | p in r
        ensures exists i | 0 <= i < |ks| :: Present(inner, ks[i]) && p == Cell(inner, side, ks[i])
      {
        if p in r0 {
          assert exists i | 0 <= i < |init| :: Present(inner, init[i]) && p == Cell(inner, side, init[i]);
          var i :| 0 <= i < |init| && Present(inner, init[i]) && p == Cell(inner, side, init[i]);
          assert ks[i] == init[i];
        } else {
          assert Present(inner, ks[|ks| - 1]) && p == Cell(inner, side, ks[|ks| - 1]);
        }
      }
    }
  }

  lemma {:induction false} SidePairsDistinct(inner: Dict, side: string, ks: seq<string>)
    requires Distinct(ks)
    ensures Distinct(Firsts(SidePairs(inner, side, ks)))
    decreases |ks|
  {
    if |ks| > 0 {
      var init := ks[..|ks| - 1];
      var k := ks[|ks| - 1];
      assert Distinct(init);
      SidePairsDistinct(inner, side, init);
      SidePairsMembers(inner, side, init);
      var r0 := SidePairs(inner, side, init);
      if Present(inner, k) {
        forall j | 0 <= j < |r0| ensures r0[j].0 != side + "_" + k {
          assert r0[j] in r0;
          var i :| 0 <= i < |init| && Present(inner, init[i]) && r0[j] == Cell(inner, side, init[i]);
          assert init[i] != k;
          SuffixDiffers(side + "_", init[i], k);
        }
      }
    }
  }

  lemma SuffixDiffers(p: string, a: string, b: string)
    requires a != b
    ensures p + a != p + b
  {
    assert (p + a)[|p|..] == a;
    assert (p + b)[|p|..] == b;
  }

  /** No strike level is listed twice. */
  lemma StrikesDistinct()
    ensures Distinct(Strikes)
  {
    assert Distinct(ItmStrikes);
    assert Distinct(OtmStrikes);
    assert forall x | x in ItmStrikes :: x[0] == 'i';
    assert forall y | y in OtmStrikes :: y[0] == 'o';
    DistinctConcat(ItmStrikes, ["atm"]);
    DistinctConcat(ItmStrikes + ["atm"], OtmStrikes);
  }

  lemma DistinctConcat(a: seq<string>, b: seq<string>)
    requires Distinct(a) && Distinct(b)
    requires forall x, y | x in a && y in b :: x != y
    ensures Distinct(a + b)
  {
    forall i, j | 0 <= i < j < |a + b| ensures (a + b)[i] != (a + b)[j] {
      if i < |a| && j >= |a| {
        assert a[i] in a && b[j - |a|] in b;
      }
    }
  }

  /** The grouping loop of `_write_batch`, filling the symbol order, the futures groups and the stock list. */
  method GroupBatch(batch: seq<Dict>) returns (r: Result<Routing>)
    ensures r == Route(batch)
  {
    var order: seq<string> := [];
    var futures: map<string, seq<Dict>> := map[];
    var stocks: seq<Dict> := [];
    var i := 0;
    while i < |batch|
      invariant 0 <= i <= |batch|
      invariant Route(batch[..i]) == Ok(Routing(order, futures, stocks))
    {
      var data := batch[i];
      RouteStep(batch, i);
      var isCandle := IsCandleItem(data);
      if isCandle.Err? {
        RoutePrefixErr(batch, i + 1);
        return Err(isCandle.error);
      }
      if isCandle.value {
        var symbol := SymbolOf(data);
        if symbol.Err? {
          RoutePrefixErr(batch, i + 1);
          return Err(symbol.error);
        }
        if IsFutures(symbol.value) {
          if symbol.value in futures {
            futures := futures[symbol.value := futures[symbol.value] + [data]];
          } else {
            order := order + [symbol.value];
            futures := futures[symbol.value := [data]];
          }
        } else {
          stocks := stocks + [data];
        }
      }
      i := i + 1;
    }
    assert batch[..i] == batch;
    r := Ok(Routing(order, futures, stocks));
  }

  // ----------------------------------------------------------------------------------
  // DataWriter
  // ----------------------------------------------------------------------------------

  class DataWriter {
    /** `batch_queue`: the records waiting for the batch writer. */
    var batchQueue: seq<Dict>
    /** `created_tables` */
    var createdTables: set<string>
    /** The calls made on the database so far. */
    var calls: seq<DbCall>

    /** The memo holds exactly the keys created so far, and no key was created twice. */
    predicate Valid()
      reads this
    {
      createdTables == CreatedKeys(calls) && CreatesOnce(calls)
    }

    constructor()
      ensures Valid() && batchQueue == [] && createdTables == {} && calls == []
    {
      batchQueue := [];
      createdTables := {};
      calls := [];
    }

    /** `save_candle_data`: the record joins the queue. */
    method SaveCandleData(candle: Dict)
      modifies this
      ensures batchQueue == old(batchQueue) + [candle]
      ensures createdTables == old(createdTables) && calls == old(calls)
    {
      batchQueue := batchQueue + [candle];
    }

    /** The memo test before `create_dynamic_table(kind, symbol)`. */
    method EnsureTable(kind: string, symbol: string)
      requires Valid()
      modifies this
      ensures Valid() && batchQueue == old(batchQueue)
      ensures var key := TableKey(kind, symbol);
        createdTables == old(createdTables) + {key}
        && calls == old(calls) + (if key in old(createdTables) then [] else [CreateTable(kind, symbol)])
    {
      var key := TableKey(kind, symbol);
      if key !in createdTables {
        AppendCall(calls, CreateTable(kind, symbol));
        calls := calls + [CreateTable(kind, symbol)];
        createdTables := createdTables + {key};
      }
    }

    /** A statement that creates no table. */
    method Emit(c: DbCall)
      requires Valid() && !c.CreateTable?
      modifies this
      ensures Valid() && batchQueue == old(batchQueue) && createdTables == old(createdTables)
      ensures calls == old(calls) + [c]
    {
      AppendCall(calls, c);
      calls := calls + [c];
    }

    /**
     * `_bulk_insert_candles(table, candles)`: nothing for no candles; otherwise the rows are
     * built candle by candle and sent in one `executemany`, unless building one raises.
     */
    method BulkInsertCandles(table: string, candles: seq<Dict>) returns (err: Option<Error>)
      requires Valid()
      modifies this
      ensures Valid() && batchQueue == old(batchQueue)
      ensures var e := Insert(Effect(old(calls), old(createdTables), None), table, candles);
        calls == e.calls && createdTables == e.created && err == e.error
    {
      if |candles| == 0 {
        return None;
      }
      var paramsList: seq<seq<Value>> := [];
      var i := 0;
      while i < |candles|
        invariant 0 <= i <= |candles|
        invariant CandleRows(candles[..i]) == Ok(paramsList)
      {
        assert candles[..i + 1][..i] == candles[..i];
        var params := CandleRow(candles[i]);
        if params.Err? {
          CandleRowsPrefixErr(candles, i + 1);
          return Some(params.error);
        }
        paramsList := paramsList + [params.value];
        i := i + 1;
      }
      assert candles[..i] == candles;
      Emit(ExecuteMany(table, paramsList));
      err := None;
    }

    /**
     * `_write_batch`: the candle items are grouped (futures per symbol, stocks together);
     * each futures group gets its table (once per key) and its bulk insert, then the stocks.
     */
    method WriteBatch(batch: seq<Dict>) returns (err: Option<Error>)
      requires Valid()
      modifies this
      ensures Valid() && batchQueue == old(batchQueue)
      ensures var e := WriteBatchEffect(old(createdTables), batch);
        calls == old(calls) + e.calls && createdTables == e.created && err == e.error
    {
      var routed := GroupBatch(batch);
      if routed.Err? {
        return Some(routed.error);
      }
      var r := routed.value;
      err := WriteFutures(r.order, r.futures);
      if err.Some? {
        return;
      }
      ghost var e := FlushFutures(old(createdTables), r.order, r.futures);
      err := BulkInsertCandles(StocksTable, r.stocks);
      InsertPrefix(old(calls), e, StocksTable, r.stocks);
    }

    /** The futures loop of `_write_batch`: per symbol, its table once, then its bulk insert. */
    method WriteFutures(order: seq<string>, futures: map<string, seq<Dict>>) returns (err: Option<Error>)
      requires Valid() && forall s | s in order :: s in futures
      modifies this
      ensures Valid() && batchQueue == old(batchQueue)
      ensures var e := FlushFutures(old(createdTables), order, futures);
        calls == old(calls) + e.calls && createdTables == e.created && err == e.error
    {
      ghost var created0 := createdTables;
      ghost var calls0 := calls;
      var j := 0;
      while j < |order|
        invariant 0 <= j <= |order|
        invariant Valid() && batchQueue == old(batchQueue)
        invariant var e := FlushFutures(created0, order[..j], futures);
          e.error.None? && calls == calls0 + e.calls && createdTables == e.created
      {
        var symbol := order[j];
        ghost var prev := FlushFutures(created0, order[..j], futures);
        FlushStep(created0, order, futures, j);
        FlushOnePrefix(calls0, prev, symbol, futures[symbol]);
        EnsureTable(FuturesKind, symbol);
        var e := BulkInsertCandles(TableKey(FuturesKind, symbol), futures[symbol]);
        if e.Some? {
          FlushPrefixErr(created0, order, futures, j + 1);
          return e;
        }
        j := j + 1;
      }
      assert order[..j] == order;
      err := None;
    }

    /**
     * `save_option_matrices`: the timestamp is parsed and taken to naive KST, the matrix table
     * of the underlying is created once, and each metric in the fixed order that has at least
     * one present value gets one upsert.
     */
    method SaveOptionMatrices(data: Dict) returns (err: Option<Error>)
      requires Valid()
      modifies this
      ensures Valid() && batchQueue == old(batchQueue)
      ensures MatrixHead(data).Err? ==>
        err == Some(MatrixHead(data).error) && calls == old(calls) && createdTables == old(createdTables)
      ensures MatrixHead(data).Ok? ==>
        var u := MatrixHead(data).value.1;
        var table := TableKey(MatricesKind, u);
        var m := MatrixCalls(table, MatrixHead(data).value.0, u, data, Metrics);
        createdTables == old(createdTables) + {table}
        && calls == old(calls) + (if table in old(createdTables) then [] else [CreateTable(MatricesKind, u)]) + m.calls
        && err == m.error
    {
      var head := MatrixHead(data);
      if head.Err? {
        return Some(head.error);
      }
      var ts := head.value.0;
      var u := head.value.1;
      var table := TableKey(MatricesKind, u);
      EnsureTable(MatricesKind, u);
      var statements, e := MetricStatements(table, ts, u, data, Metrics);
      ExecuteAll(statements);
      err := e;
    }

    /** The statements of the metric loop, executed in order. */
    method ExecuteAll(statements: seq<DbCall>)
      requires Valid() && forall c | c in statements :: c.Execute?
      modifies this
      ensures Valid() && batchQueue == old(batchQueue) && createdTables == old(createdTables)
      ensures calls == old(calls) + statements
    {
      AppendExecutes(calls, statements);
      calls := calls + statements;
    }
  }

  /**
   * The metric loop of `save_option_matrices`: one upsert per metric with a value column, in
   * order, up to the first metric whose values raise.
   */
  method MetricStatements(table: string, ts: Value, u: string, data: Dict, metrics: seq<string>)
    returns (statements: seq<DbCall>, err: Option<Error>)
    ensures Emitted(statements, err) == MatrixCalls(table, ts, u, data, metrics)
  {
    statements := [];
    var k := 0;
    while k < |metrics|
      invariant 0 <= k <= |metrics|
      invariant MatrixCalls(table, ts, u, data, metrics[..k]) == Emitted(statements, None)
    {
      var metric := metrics[k];
      var row := MetricRow(table, ts, u, data, metric);
      MetricsAdvance(table, ts, u, data, metrics, k, statements);
      if row.Err? {
        return statements, Some(row.error);
      }
      if row.value.Some? {
        statements := statements + [row.value.value];
      }
      k := k + 1;
    }
    assert metrics[..k] == metrics;
    err := None;
  }

  /** One pass of the metric loop, in terms of the whole loop. */
  lemma MetricsAdvance(table: string, ts: Value, u: string, data: Dict, metrics: seq<string>, k: int, statements: seq<DbCall>)
    requires 0 <= k < |metrics| && MatrixCalls(table, ts, u, data, metrics[..k]) == Emitted(statements, None)
    ensures var row := MetricCall(table, ts, u, data, metrics[k]);
      (row.Err? ==> MatrixCalls(table, ts, u, data, metrics) == Emitted(statements, Some(row.error)))
      && (row.Ok? && row.value.None? ==> MatrixCalls(table, ts, u, data, metrics[..k + 1]) == Emitted(statements, None))
      && (row.Ok? && row.value.Some? ==>
            MatrixCalls(table, ts, u, data, metrics[..k + 1]) == Emitted(statements + [row.value.value], None))
  {
    MatrixCallsStep(table, ts, u, data, metrics, k);
    if MetricCall(table, ts, u, data, metrics[k]).Err? {
      MatrixCallsPrefixErr(table, ts, u, data, metrics, k + 1);
    }
  }

  /** Statements that create no table leave the memo as it is. */
  lemma {:induction false} AppendExecutes(calls: seq<DbCall>, more: seq<DbCall>)
    requires CreatesOnce(calls) && forall c | c in more :: c.Execute?
    ensures CreatesOnce(calls + more) && CreatedKeys(calls + more) == CreatedKeys(calls)
    decreases |more|
  {
    if |more| > 0 {
      var init := more[..|more| - 1];
      assert forall c | c in init :: c in more;
      AppendExecutes(calls, init);
      assert more[|more| - 1] in more;
      AppendCall(calls + init, more[|more| - 1]);
      AppendAssoc(calls, init, [more[|more| - 1]]);
      assert init + [more[|more| - 1]] == more;
    } else {
      assert calls + more == calls;
    }
  }

  /**
   * The body of the metric loop: columns, values and placeholders grow side by side and
   * strike by strike under a running placeholder number.
   */
  method MetricRow(table: string, ts: Value, u: string, data: Dict, metric: string) returns (r: Result<Option<DbCall>>)
    ensures r == MetricCall(table, ts, u, data, metric)
  {
    var mv := Get(data, metric).GetOr(VDict([]));
    if !Truthy(mv) {
      return Ok(None);
    }
    var columns := Header;
    var values := [ts, VStr(u), VStr(metric)];
    var placeholders := ["$1", "$2", "$3"];
    var placeholderIdx := 4;
    PlaceholdersHead();
    ghost var pairs: seq<(string, Value)> := [];
    var s := 0;
    while s < |Sides|
      invariant 0 <= s <= |Sides|
      invariant SidesPairs(mv, Sides[..s]) == Ok(pairs)
      invariant columns == Header + Firsts(pairs) && values == [ts, VStr(u), VStr(metric)] + Seconds(pairs)
      invariant placeholders == PlaceholderList(|values|) && placeholderIdx == |values| + 1
    {
      var side := Sides[s];
      SidesPairsStep(mv, Sides, s);
      var inner := SideDict(mv, side);
      if inner.Err? {
        return Err(inner.error);
      }
      columns, values, placeholders, placeholderIdx :=
        AppendSide(inner.value, side, Strikes, pairs, [ts, VStr(u), VStr(metric)], columns, values, placeholders, placeholderIdx);
      pairs := pairs + SidePairs(inner.value, side, Strikes);
      s := s + 1;
    }
    assert Sides[..s] == Sides;
    if |columns| > 3 {
      r := Ok(Some(Execute(Upsert(table, columns, placeholders, UpdateSet(columns[3..])), values)));
    } else {
      r := Ok(None);
    }
  }

  /** The strike loop of one side: a column, a value and the next placeholder for each strike whose value is present. */
  method AppendSide(inner: Dict, side: string, strikes: seq<string>, ghost pairs: seq<(string, Value)>, ghost head: seq<Value>,
                    columns: seq<string>, values: seq<Value>, placeholders: seq<string>, placeholderIdx: int)
    returns (columns': seq<string>, values': seq<Value>, placeholders': seq<string>, placeholderIdx': int)
    requires columns == Header + Firsts(pairs) && values == head + Seconds(pairs)
    requires placeholders == PlaceholderList(|values|) && placeholderIdx == |values| + 1
    ensures var all := pairs + SidePairs(inner, side, strikes);
      columns' == Header + Firsts(all) && values' == head + Seconds(all)
      && placeholders' == PlaceholderList(|values'|) && placeholderIdx' == |values'| + 1
  {
    columns', values', placeholders', placeholderIdx' := columns, values, placeholders, placeholderIdx;
    ghost var sidePairs: seq<(string, Value)> := [];
    assert pairs + sidePairs == pairs;
    var t := 0;
    while t < |strikes|
      invariant 0 <= t <= |strikes|
      invariant sidePairs == SidePairs(inner, side, strikes[..t])
      invariant columns' == Header + Firsts(pairs + sidePairs)
      invariant values' == head + Seconds(pairs + sidePairs)
      invariant placeholders' == PlaceholderList(|values'|) && placeholderIdx' == |values'| + 1
    {
      var strike := strikes[t];
      SidePairsStep(inner, side, strikes, t);
      var value := Get(inner, strike);
      if value.Some? && !value.value.VNone? {
        ghost var p := Cell(inner, side, strike);
        GrowRow(pairs, sidePairs, p, head);
        PlaceholderListNext(|values'|);
        columns' := columns' + [side + "_" + strike];
        values' := values' + [value.value];
        placeholders' := placeholders' + [Placeholder(placeholderIdx')];
        placeholderIdx' := placeholderIdx' + 1;
        sidePairs := sidePairs + [p];
      }
      t := t + 1;
    }
    assert strikes[..t] == strikes;
  }

  lemma PlaceholdersHead()
    ensures ["$1", "$2", "$3"] == PlaceholderList(3)
  {
    assert DigitChar(1) == '1' && DigitChar(2) == '2' && DigitChar(3) == '3';
    assert Placeholder(1) == "$1" && Placeholder(2) == "$2" && Placeholder(3) == "$3";
    var r := PlaceholderList(3);
    assert r[0] == "$1" && r[1] == "$2" && r[2] == "$3";
  }

  lemma PlaceholderListNext(n: nat)
    ensures PlaceholderList(n + 1) == PlaceholderList(n) + [Placeholder(n + 1)]
  {
  }

  /** One more value column: the names and the values each grow by one. */
  lemma GrowRow(pairs: seq<(string, Value)>, sidePairs: seq<(string, Value)>, p: (string, Value), head: seq<Value>)
    ensures Header + Firsts(pairs + (sidePairs + [p])) == Header + Firsts(pairs + sidePairs) + [p.0]
    ensures head + Seconds(pairs + (sidePairs + [p])) == head + Seconds(pairs + sidePairs) + [p.1]
  {
    AppendAssoc(pairs, sidePairs, [p]);
  }

  lemma SidePairsStep(inner: Dict, side: string, ks: seq<string>, t: int)
    requires 0 <= t < |ks|
    ensures Present(inner, ks[t]) ==> SidePairs(inner, side, ks[..t + 1]) == SidePairs(inner, side, ks[..t]) + [Cell(inner, side, ks[t])]
    ensures !Present(inner, ks[t]) ==> SidePairs(inner, side, ks[..t + 1]) == SidePairs(inner, side, ks[..t])
  {
    assert ks[..t + 1][..t] == ks[..t];
    if !Present(inner, ks[t]) {
      assert SidePairs(inner, side, ks[..t]) + [] == SidePairs(inner, side, ks[..t]);
    }
  }

  lemma SidesPairsStep(mv: Value, sides: seq<string>, s: int)
    requires 0 <= s < |sides|
    ensures SidesPairs(mv, sides[..s + 1]) ==
      (var pairs :- SidesPairs(mv, sides[..s]);
       var inner :- SideDict(mv, sides[s]);
       Ok(pairs + SidePairs(inner, sides[s], Strikes)))
  {
    assert sides[..s + 1][..s] == sides[..s];
  }

  lemma MatrixCallsStep(table: string, ts: Value, u: string, data: Dict, metrics: seq<string>, k: int)
    requires 0 <= k < |metrics| && MatrixCalls(table, ts, u, data, metrics[..k]).error.None?
    ensures var e := MatrixCalls(table, ts, u, data, metrics[..k]);
      MatrixCalls(table, ts, u, data, metrics[..k + 1]) ==
        match MetricCall(table, ts, u, data, metrics[k])
        case Err(err) => Emitted(e.calls, Some(err))
        case Ok(None) => e
        case Ok(Some(c)) => Emitted(e.calls + [c], None)
  {
    assert metrics[..k + 1][..k] == metrics[..k];
  }

  lemma AppendAssoc<T>(a: seq<T>, b: seq<T>, c: seq<T>)
    ensures a + b + c == a + (b + c)
  {
  }

  /** An insert after earlier calls is the same insert with those calls in front. */
  lemma InsertPrefix(p: seq<DbCall>, e: Effect, table: string, candles: seq<Dict>)
    ensures var r := Insert(e, table, candles);
      Insert(e.(calls := p + e.calls), table, candles) == r.(calls := p + r.calls)
  {
    if |candles| > 0 && CandleRows(candles).Ok? {
      assert p + e.calls + [ExecuteMany(table, CandleRows(candles).value)]
        == p + (e.calls + [ExecuteMany(table, CandleRows(candles).value)]);
    }
  }
}
