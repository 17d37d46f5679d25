/**
 * src/processing/processors.py: the per-fetcher candle gate that drops repeated minutes
 * and enqueues serialised candles, and the consumer that routes queue items into the
 * option matrices.
 */
module Processors {
  import opened Wrappers
  import opened Text
  import opened Models
  import opened Channel
  import opened Matrix
  import opened Clock

  /** Python truthiness of an optional string: present and non-empty. */
  predicate Given(s: Option<string>)
  {
    s.Some? && |s.value| > 0
  }

  /** Python truthiness of an optional vendor record: present and non-empty. */
  predicate GivenBar(b: Option<Bar>)
  {
    b.Some? && |b.value| > 0
  }

  /**
   * The conversion a fetcher hands the gate (`process_func`): a record becomes a candle,
   * nothing (`None`), or raises.
   */
  type Convert = Bar -> Result<Option<CandleData>>

  /** What one `process_candle_data` call decides: the new cursor, and `{}`, a record or an exception. */
  datatype Decision = Decision(cursor: Option<string>, out: Result<Dict>)
  {
    /** The call put a record on the queue. */
    predicate Emits()
    {
      out.Ok? && |out.value| > 0
    }
  }

  /**
   * `CandleProcessor.process_candle_data`: a missing time or record is ignored; a time not
   * strictly after the cursor (string order) is a repeat; otherwise the cursor moves to the
   * time before the record is converted, and a converted candle is emitted.
   */
  function CandleDecision(cursor: Option<string>, currentTime: Option<string>, completed: Option<Bar>,
                          convert: Convert): (r: Decision)
    ensures !Given(currentTime) || !GivenBar(completed) ==> r == Decision(cursor, Ok([]))
    ensures Given(cursor) && Given(currentTime) && !Less(cursor.value, currentTime.value) ==>
              r == Decision(cursor, Ok([]))
    ensures r.cursor != cursor ==> r.cursor == currentTime && Given(currentTime)
    ensures Given(cursor) && r.cursor != cursor ==> Less(cursor.value, r.cursor.value)
    ensures r.Emits() ==> r.cursor == currentTime && r.cursor != cursor
    ensures r.Emits() <==>
              Given(currentTime) && GivenBar(completed) && (!Given(cursor) || Less(cursor.value, currentTime.value))
              && convert(completed.value).Ok? && convert(completed.value).value.Some?
    ensures r.Emits() ==> r.out.value == CandleToDict(convert(completed.value).value.value)
    ensures Given(currentTime) && GivenBar(completed) && (!Given(cursor) || Less(cursor.value, currentTime.value)) ==>
              r.cursor == currentTime
              && (convert(completed.value).Err? ==> r.out == Err(convert(completed.value).error))
              && (convert(completed.value) == Ok(None) ==> r.out == Ok([]))
  {
    if !Given(currentTime) || !GivenBar(completed) then Decision(cursor, Ok([]))
    else if Given(cursor) && !Less(cursor.value, currentTime.value) then Decision(cursor, Ok([]))
    else
      var converted := convert(completed.value);
      if converted.Err? then Decision(currentTime, Err(converted.error))
      else if converted.value.None? then Decision(currentTime, Ok([]))
      else
        LessIrreflexive(currentTime.value);
        CandleDictNonEmpty(converted.value.value);
        Decision(currentTime, Ok(CandleToDict(converted.value.value)))
  }

  lemma CandleDictNonEmpty(c: CandleData)
    ensures |CandleToDict(c)| > 0
  {
  }

  /** One call of the gate: the time and the record a fetcher passes in. */
  datatype CandleCall = CandleCall(currentTime: Option<string>, completed: Option<Bar>)

  /** The cursor after a sequence of calls. */
  function CursorAfter(cursor: Option<string>, calls: seq<CandleCall>, convert: Convert): Option<string>
    decreases |calls|
  {
    if |calls| == 0 then cursor
    else CursorAfter(CandleDecision(cursor, calls[0].currentTime, calls[0].completed, convert).cursor,
                     calls[1..], convert)
  }

  /** The times of the calls, in order, that put a record on the queue. */
  function EmittedTimes(cursor: Option<string>, calls: seq<CandleCall>, convert: Convert): seq<string>
    decreases |calls|
  {
    if |calls| == 0 then []
    else
      var d := CandleDecision(cursor, calls[0].currentTime, calls[0].completed, convert);
      (if d.Emits() then [calls[0].currentTime.value] else []) + EmittedTimes(d.cursor, calls[1..], convert)
  }

  /** Strictly increasing in string order. */
  predicate Increasing(e: seq<string>)
  {
    forall i, j | 0 <= i < j < |e| :: Less(e[i], e[j])
  }

  /** Every time lies after the cursor, when there is one. */
  predicate AllAfter(cursor: Option<string>, e: seq<string>)
  {
    Given(cursor) ==> forall i | 0 <= i < |e| :: Less(cursor.value, e[i])
  }

  /** No time is the empty text. */
  predicate AllGiven(e: seq<string>)
  {
    forall i | 0 <= i < |e| :: |e[i]| > 0
  }

  /** Putting a time in front of later ones keeps them increasing. */
  lemma ConsIncreasing(t: string, rest: seq<string>)
    requires |t| > 0 && Increasing(rest) && AllAfter(Some(t), rest) && AllGiven(rest)
    ensures Increasing([t] + rest) && AllGiven([t] + rest)
  {
    var e := [t] + rest;
    forall i, j | 0 <= i < j < |e|
      ensures Less(e[i], e[j])
    {
      if i > 0 {
        assert e[i] == rest[i - 1] && e[j] == rest[j - 1];
      } else {
        assert e[j] == rest[j - 1];
      }
    }
  }

  /** Times after a later cursor are after an earlier one too. */
  lemma AllAfterEarlier(c: Option<string>, d: Option<string>, e: seq<string>)
    requires Given(c) && Given(d) && Less(c.value, d.value) && AllAfter(d, e)
    ensures AllAfter(c, e)
  {
    forall i | 0 <= i < |e|
      ensures Less(c.value, e[i])
    {
      LessTransitive(c.value, d.value, e[i]);
    }
  }

  /**
   * Over any sequence of calls the emitted times increase strictly and lie after the
   * starting cursor, so replaying the same minute, however often, enqueues it at most once.
   */
  lemma {:induction false} EmittedTimesIncrease(cursor: Option<string>, calls: seq<CandleCall>, convert: Convert)
    ensures var e := EmittedTimes(cursor, calls, convert);
      Increasing(e) && AllAfter(cursor, e) && AllGiven(e)
    decreases |calls|
  {
    if |calls| > 0 {
      var d := CandleDecision(cursor, calls[0].currentTime, calls[0].completed, convert);
      var rest := EmittedTimes(d.cursor, calls[1..], convert);
      var e := EmittedTimes(cursor, calls, convert);
      EmittedTimesIncrease(d.cursor, calls[1..], convert);
      if d.Emits() {
        var t := calls[0].currentTime.value;
        assert e == [t] + rest;
        ConsIncreasing(t, rest);
        if Given(cursor) {
          AllAfterEarlier(cursor, d.cursor, rest);
          assert AllAfter(cursor, e) by {
            forall i | 0 <= i < |e|
              ensures Less(cursor.value, e[i])
            {
              if i > 0 { assert e[i] == rest[i - 1]; }
            }
          }
        }
      } else {
        assert e == rest;
        if Given(cursor) && d.cursor != cursor {
          AllAfterEarlier(cursor, d.cursor, rest);
        }
      }
    }
  }

  /** The cursor never moves backwards over a run of calls. */
  lemma {:induction false} CursorNeverDecreases(cursor: Option<string>, calls: seq<CandleCall>, convert: Convert)
    requires Given(cursor)
    ensures var c := CursorAfter(cursor, calls, convert); Given(c) && LessEq(cursor.value, c.value)
    decreases |calls|
  {
    if |calls| > 0 {
      var d := CandleDecision(cursor, calls[0].currentTime, calls[0].completed, convert);
      CursorNeverDecreases(d.cursor, calls[1..], convert);
      var c := CursorAfter(cursor, calls, convert);
      if d.cursor != cursor && c != d.cursor {
        LessTransitive(cursor.value, d.cursor.value, c.value);
      }
    }
  }

  /** `CandleProcessor`: a symbol's cursor and the queue it feeds. */
  class CandleProcessor {
    const symbol: string
    const timeframe: int
    const queue: Queue
    var lastProcessedTime: Option<string>

    constructor(symbol: string, timeframe: int, queue: Queue)
      ensures this.symbol == symbol && this.timeframe == timeframe && this.queue == queue
      ensures lastProcessedTime.None?
    {
      this.symbol := symbol;
      this.timeframe := timeframe;
      this.queue := queue;
      lastProcessedTime := None;
    }

    /**
     * `process_candle_data`: the cursor becomes the decision's cursor, and exactly the
     * emitted record is appended to the queue and returned.
     */
    method ProcessCandleData(currentTime: Option<string>, completed: Option<Bar>, convert: Convert)
      returns (r: Result<Dict>)
      modifies this, queue
      ensures var d := CandleDecision(old(lastProcessedTime), currentTime, completed, convert);
        lastProcessedTime == d.cursor && r == d.out
        && queue.items == old(queue.items) + (if d.Emits() then [d.out.value] else [])
    {
      if !Given(currentTime) || !GivenBar(completed) {
        return Ok([]);
      }
      if Given(lastProcessedTime) && !Less(lastProcessedTime.value, currentTime.value) {
        return Ok([]);
      }
      lastProcessedTime := currentTime;
      var converted := convert(completed.value);
      if converted.Err? {
        return Err(converted.error);
      }
      if converted.value.None? {
        return Ok([]);
      }
      var candleData := CandleToDict(converted.value.value);
      queue.Put(candleData);
      r := Ok(candleData);
    }
  }

  // ----------------------------------------------------------------------------------
  // DataProcessor
  // ----------------------------------------------------------------------------------

  /** The metrics `DataProcessor` keeps a matrix for. */
  const DefaultMetrics: seq<string> := ["iv", "delta", "gamma", "theta", "vega", "price", "volume", "open_interest"]

  /** The strikes per side each matrix row holds. */
  const DefaultStrikes: nat := 10

  /** `data.get("type") == "option_chain"` */
  predicate IsChainItem(d: Dict)
  {
    Get(d, "type") == Some(VStr(OptionChainType))
  }

  /**
   * The matrices after one queue item: an option-chain item that rebuilds is fed to the
   * matrix processor; one that fails to rebuild, and every other item, changes nothing.
   */
  function Consume(mats: map<string, seq<Row>>, metrics: seq<string>, n: nat, d: Dict): (r: map<string, seq<Row>>)
    ensures r.Keys == mats.Keys
    ensures !IsChainItem(d) || ChainFromDict(d).Err? ==> r == mats
  {
    if !IsChainItem(d) then mats
    else match ChainFromDict(d)
      case Ok(ch) => Updated(mats, metrics, n, ch)
      case Err(_) => mats
  }

  /** The matrices after the items, consumed in queue order. */
  function ConsumeAll(mats: map<string, seq<Row>>, metrics: seq<string>, n: nat, items: seq<Dict>): (r: map<string, seq<Row>>)
    ensures r.Keys == mats.Keys
    decreases |items|
  {
    if |items| == 0 then mats else ConsumeAll(Consume(mats, metrics, n, items[0]), metrics, n, items[1..])
  }

  /** A chain serialised by `to_dict` reaches the matrices as the chain itself. */
  lemma ConsumeSerialisedChain(mats: map<string, seq<Row>>, metrics: seq<string>, n: nat, ch: OptionChainData)
    requires ch.timestamp.Naive? && IsoRange(ch.timestamp.local)
    requires ch.dataType == OptionChainType
    ensures Consume(mats, metrics, n, ChainToDict(ch)) == Updated(mats, metrics, n, ch)
  {
    ChainGets(ch);
    ChainRoundTrip(ch);
  }

  /** Items that are not option chains, such as candles, leave the matrices alone. */
  lemma {:induction false} ConsumeAllSkipsOthers(mats: map<string, seq<Row>>, metrics: seq<string>, n: nat, items: seq<Dict>)
    requires forall i | 0 <= i < |items| :: !IsChainItem(items[i])
    ensures ConsumeAll(mats, metrics, n, items) == mats
    decreases |items|
  {
    if |items| > 0 {
      ConsumeAllSkipsOthers(mats, metrics, n, items[1..]);
    }
  }

  /** Every matrix of `before` is still there in `after`, with its rows as a prefix. */
  predicate Appended(before: map<string, seq<Row>>, after: map<string, seq<Row>>)
  {
    forall m | m in before :: m in after && before[m] <= after[m]
  }

  /** One consumed item only appends rows. */
  lemma ConsumeAppends(mats: map<string, seq<Row>>, metrics: seq<string>, n: nat, d: Dict)
    ensures Appended(mats, Consume(mats, metrics, n, d))
  {
    var next := Consume(mats, metrics, n, d);
    if next != mats {
      var ch := ChainFromDict(d).value;
      assert next == Updated(mats, metrics, n, ch);
      if HasClass(ch.calls, "ATM") && HasClass(ch.puts, "ATM") {
        forall m | m in mats
          ensures m in next && mats[m] <= next[m]
        {
          UpdateAppends(mats, metrics, n, ch, m);
        }
      } else {
        UpdateNeedsAtm(mats, metrics, n, ch);
      }
    }
  }

  lemma AppendedTransitive(a: map<string, seq<Row>>, b: map<string, seq<Row>>, c: map<string, seq<Row>>)
    requires Appended(a, b) && Appended(b, c)
    ensures Appended(a, c)
  {
    forall m | m in a
      ensures m in c && a[m] <= c[m]
    {
      assert b[m] <= c[m];
    }
  }

  /** Matrix rows are only ever appended: each matrix before is a prefix of the one after. */
  lemma {:induction false} ConsumeAllAppends(mats: map<string, seq<Row>>, metrics: seq<string>, n: nat, items: seq<Dict>)
    ensures Appended(mats, ConsumeAll(mats, metrics, n, items))
    decreases |items|
  {
    if |items| == 0 {
      assert Appended(mats, mats);
    } else {
      var next := Consume(mats, metrics, n, items[0]);
      ConsumeAppends(mats, metrics, n, items[0]);
      ConsumeAllAppends(next, metrics, n, items[1..]);
      AppendedTransitive(mats, next, ConsumeAll(next, metrics, n, items[1..]));
    }
  }

  /** `DataProcessor`: the consumer of the queue and owner of the option matrices. */
  class DataProcessor {
    const queue: Queue
    const matrixProcessor: OptionMatrixProcessor
    var processedCount: nat

    constructor(queue: Queue)
      ensures this.queue == queue && processedCount == 0 && fresh(matrixProcessor)
      ensures matrixProcessor.Valid()
      ensures matrixProcessor.metrics == DefaultMetrics && matrixProcessor.numStrikes == DefaultStrikes
      ensures forall m | m in matrixProcessor.matrices :: matrixProcessor.matrices[m] == []
    {
      this.queue := queue;
      processedCount := 0;
      matrixProcessor := new OptionMatrixProcessor(DefaultMetrics, DefaultStrikes);
    }

    /** `_process_option_chain`: a chain that fails to rebuild is logged and dropped. */
    method ProcessOptionChain(data: Dict)
      requires matrixProcessor.Valid()
      modifies matrixProcessor
      ensures matrixProcessor.Valid()
      ensures matrixProcessor.matrices ==
                match ChainFromDict(data)
                case Ok(ch) => Updated(old(matrixProcessor.matrices), matrixProcessor.metrics, matrixProcessor.numStrikes, ch)
                case Err(_) => old(matrixProcessor.matrices)
    {
      var chain := ChainFromDict(data);
      if chain.Ok? {
        matrixProcessor.Update(chain.value);
      }
    }

    /**
     * `process_data` until the queue runs dry: every item is counted, and the option-chain
     * items reach the matrices in queue order.
     */
    method ProcessData()
      requires matrixProcessor.Valid()
      modifies this, queue, matrixProcessor
      ensures queue.items == [] && processedCount == old(processedCount) + |old(queue.items)|
      ensures matrixProcessor.Valid()
      ensures matrixProcessor.matrices ==
                ConsumeAll(old(matrixProcessor.matrices), matrixProcessor.metrics, matrixProcessor.numStrikes, old(queue.items))
    {
      while |queue.items| > 0
        invariant matrixProcessor.Valid()
        invariant processedCount + |queue.items| == old(processedCount) + |old(queue.items)|
        invariant ConsumeAll(matrixProcessor.matrices, matrixProcessor.metrics, matrixProcessor.numStrikes, queue.items)
                  == ConsumeAll(old(matrixProcessor.matrices), matrixProcessor.metrics, matrixProcessor.numStrikes, old(queue.items))
        decreases |queue.items|
      {
        var data := queue.Get();
        if IsChainItem(data) {
          ProcessOptionChain(data);
        }
        processedCount := processedCount + 1;
      }
    }

    /** The `processed_count` property. */
    function ProcessedCount(): nat
      reads this
    {
      processedCount
    }
  }
}
