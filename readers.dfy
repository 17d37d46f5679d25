/**
 * The read side of the database: src/read/candles_reader.py, signals_reader.py,
 * option_matrices_reader.py and base.py. Each reader builds a SQL text and its positional
 * arguments; the texts are what the model checks, the database is not modelled, and the
 * rows it would return are parameters.
 *
 * The table names are spliced into the text unquoted, so the `$k` placeholders of a query
 * are those of the table name (none for an ordinary name) followed by `$1`..`$n` for the
 * `n` arguments.
 */
module Readers {
  import opened Wrappers
  import opened Text
  import opened Clock

  /** A positional query argument: a text, or a timestamp already moved to KST wall time. */
  datatype Arg = TextArg(s: string) | TimeArg(t: DateTime)

  /** A SQL text and the arguments bound to its `$1`, `$2`, ... */
  datatype Query = Query(text: string, args: seq<Arg>)

  /** The timestamp arguments of the optional `start` and `end` bounds, in that order. */
  function BoundArgs(start: Option<Moment>, end: Option<Moment>): (r: seq<Arg>)
    ensures |r| == (if start.Some? then 1 else 0) + (if end.Some? then 1 else 0)
    ensures start.Some? ==> r[0] == TimeArg(ToKstNaive(start.value))
    ensures end.Some? ==> r[|r| - 1] == TimeArg(ToKstNaive(end.value))
  {
    (if start.Some? then [TimeArg(ToKstNaive(start.value))] else [])
    + (if end.Some? then [TimeArg(ToKstNaive(end.value))] else [])
  }

  const OrderAsc: string := "ORDER BY timestamp ASC"
  const LimitWord: string := "LIMIT "

  /** The closing parts of a range query, as `parts.append` adds them: the order, then any LIMIT. */
  function TailParts(limit: Option<int>): (r: seq<string>)
    ensures |r| > 0 && r[0] == OrderAsc
    ensures |r| == (if limit.Some? then 2 else 1)
    ensures limit.Some? ==> r[1] == LimitWord + IntToString(limit.value)
    ensures PlaceholdersOfParts(r) == []
  {
    assert PlaceholdersOfParts([OrderAsc]) == [] by {
      OrderAscPlain();
    }
    if limit.Some? then
      var lim := LimitWord + IntToString(limit.value);
      assert PlaceholdersOfParts([OrderAsc, lim]) == [] by {
        LimitPartPlain(limit.value);
      }
      [OrderAsc, lim]
    else [OrderAsc]
  }

  lemma OrderAscPlain()
    ensures PlaceholdersOfParts([OrderAsc]) == []
  {
    NoPlaceholders(OrderAsc);
    assert PlaceholdersOfParts([OrderAsc]) == Placeholders(OrderAsc) + PlaceholdersOfParts([]);
  }

  lemma LimitPartPlain(limit: int)
    ensures PlaceholdersOfParts([OrderAsc, LimitWord + IntToString(limit)]) == []
  {
    var lim := LimitWord + IntToString(limit);
    IntToStringNoDollar(limit);
    assert '$' !in LimitWord;
    NoPlaceholders(lim);
    OrderAscPlain();
    assert PlaceholdersOfParts([lim]) == Placeholders(lim) + PlaceholdersOfParts([]);
    assert [OrderAsc, lim][1..] == [lim];
  }

  /** The tail every range query ends with. */
  function OrderTail(limit: Option<int>): string
  {
    Join(TailParts(limit), " ")
  }

  /** The tail reads `ORDER BY timestamp ASC`, with ` LIMIT n` only when a limit is given. */
  lemma OrderTailText(limit: Option<int>)
    ensures OrderTail(limit) == if limit.Some? then OrderAsc + " " + LimitWord + IntToString(limit.value) else OrderAsc
  {
    var r := TailParts(limit);
    if limit.Some? {
      var lim := LimitWord + IntToString(limit.value);
      assert r == [OrderAsc, lim];
      JoinPair(OrderAsc, lim, " ");
      AppendAssoc(OrderAsc + " ", LimitWord, IntToString(limit.value));
    } else {
      assert r == [OrderAsc];
    }
  }

  lemma JoinPair(a: string, b: string, sep: string)
    ensures Join([a, b], sep) == a + sep + b
  {
    assert [a, b][1..] == [b];
  }

  lemma JoinTriple(a: string, b: string, c: string, sep: string)
    ensures Join([a, b, c], sep) == a + sep + b + sep + c
  {
    assert [a, b, c][1..] == [b, c];
    JoinPair(b, c, sep);
  }

  /** The placeholders of a list of parts, one part off the front. */
  lemma PartsCons(a: string, rest: seq<string>)
    ensures PlaceholdersOfParts([a] + rest) == Placeholders(a) + PlaceholdersOfParts(rest)
  {
    assert ([a] + rest)[1..] == rest;
  }

  lemma StartsWithTrans(s: string, t: string, u: string)
    requires StartsWith(s, t) && StartsWith(t, u)
    ensures StartsWith(s, u)
  {
    assert s[..|u|] == t[..|u|];
  }

  lemma AppendAssoc(a: string, b: string, c: string)
    ensures a + (b + c) == a + b + c
  {
  }

  const AtOrAfter: string := "AND timestamp >= "
  const AtOrBefore: string := "AND timestamp <= "

  /** The `start` / `end` clauses of a range reader, numbered on from `idx`. */
  function BoundClauses(idx: nat, start: Option<Moment>, end: Option<Moment>): (r: seq<string>)
    ensures |r| == |BoundArgs(start, end)|
  {
    (if start.Some? then [AtOrAfter + Placeholder(idx)] else [])
    + (if end.Some? then [AtOrBefore + Placeholder(idx + |BoundArgs(start, None)|)] else [])
  }

  /** Each bound clause holds exactly the next placeholder. */
  lemma BoundClausesPlaceholders(idx: nat, start: Option<Moment>, end: Option<Moment>)
    ensures PlaceholdersOfParts(BoundClauses(idx, start, end)) == Numbered(idx, |BoundArgs(start, end)|)
  {
    if start.Some? && end.Some? {
      var after, before := AtOrAfter + Placeholder(idx), AtOrBefore + Placeholder(idx + 1);
      assert BoundClauses(idx, start, end) == [after] + [before];
      ClausePlaceholders(AtOrAfter, idx);
      ClausePlaceholders(AtOrBefore, idx + 1);
      PlaceholdersOfPartsAppend([after], [before]);
      assert Numbered(idx, 1) + Numbered(idx + 1, 1) == Numbered(idx, 2);
    } else if start.Some? {
      assert BoundClauses(idx, start, end) == [AtOrAfter + Placeholder(idx)];
      ClausePlaceholders(AtOrAfter, idx);
    } else if end.Some? {
      assert BoundClauses(idx, start, end) == [AtOrBefore + Placeholder(idx)];
      ClausePlaceholders(AtOrBefore, idx);
    } else {
      assert BoundClauses(idx, start, end) == [];
    }
  }

  /** A clause of `$`-free text and one placeholder. */
  lemma ClausePlaceholders(text: string, k: nat)
    requires '$' !in text
    ensures PlaceholdersOfParts([text + Placeholder(k)]) == Numbered(k, 1)
  {
    PlaceholdersOfClause(text, k);
    PartsCons(text + Placeholder(k), []);
  }

  /**
   * The `start` / `end` clauses of every range reader: each present bound adds a clause
   * with the next placeholder and its argument, and the counter moves past it.
   */
  method AppendBounds(parts: seq<string>, args: seq<Arg>, idx: nat, start: Option<Moment>, end: Option<Moment>)
    returns (parts': seq<string>, args': seq<Arg>, idx': nat)
    requires idx == |args| + 1
    ensures args' == args + BoundArgs(start, end) && idx' == |args'| + 1
    ensures parts' == parts + BoundClauses(idx, start, end)
  {
    parts', args', idx' := parts, args, idx;
    if start.Some? {
      parts' := parts' + [AtOrAfter + Placeholder(idx')];
      args' := args' + [TimeArg(ToKstNaive(start.value))];
      idx' := idx' + 1;
    }
    if end.Some? {
      parts' := parts' + [AtOrBefore + Placeholder(idx')];
      args' := args' + [TimeArg(ToKstNaive(end.value))];
      idx' := idx' + 1;
    }
  }

  /** A range query's placeholders: those of the head, then those of the bound clauses, and none in the tail. */
  lemma RangeQueryPlaceholders(head: seq<string>, bounds: seq<string>, parts: seq<string>, tail: seq<string>,
                               pre: seq<nat>, n: nat, m: nat)
    requires |head| > 0 && |tail| > 0 && parts == head + bounds && m == n + |bounds|
    requires PlaceholdersOfParts(head) == pre + Iota(n)
    requires PlaceholdersOfParts(bounds) == Numbered(n + 1, |bounds|)
    requires PlaceholdersOfParts(tail) == []
    ensures Placeholders(Join(parts + tail, " ")) == pre + Iota(m)
  {
    var run := Numbered(n + 1, |bounds|);
    assert parts + tail == head + bounds + tail;
    calc {
      Placeholders(Join(head + bounds + tail, " "));
      { PlaceholdersJoin(head + bounds + tail, " "); }
      PlaceholdersOfParts(head + bounds + tail);
      { PlaceholdersOfPartsAppend(head + bounds, tail); }
      PlaceholdersOfParts(head + bounds) + [];
      { EmptyTail(PlaceholdersOfParts(head + bounds)); }
      PlaceholdersOfParts(head + bounds);
      { PlaceholdersOfPartsAppend(head, bounds); }
      (pre + Iota(n)) + run;
      { NatAssoc(pre, Iota(n), run); }
      pre + (Iota(n) + run);
      { IotaExtend(n, |bounds|); }
      pre + Iota(n + |bounds|);
    }
  }

  /**
   * The part every `fetch_range` shares: the bound clauses are appended to the head, then
   * the order and any LIMIT, and the parts are joined with spaces.
   */
  method RangeQuery(head: seq<string>, args: seq<Arg>, start: Option<Moment>, end: Option<Moment>,
                    limit: Option<int>, ghost pre: seq<nat>) returns (q: Query)
    requires |head| > 0 && PlaceholdersOfParts(head) == pre + Iota(|args|)
    ensures q.args == args + BoundArgs(start, end)
    ensures Placeholders(q.text) == pre + Iota(|q.args|)
    ensures StartsWith(q.text, Join(head, " ")) && EndsWith(q.text, OrderTail(limit))
  {
    var parts, args', idx := AppendBounds(head, args, |args| + 1, start, end);
    var tail := TailParts(limit);
    q := Query(Join(parts + tail, " "), args');
    ghost var bounds := BoundClauses(|args| + 1, start, end);
    assert Placeholders(q.text) == pre + Iota(|q.args|) by {
      BoundClausesPlaceholders(|args| + 1, start, end);
      RangeQueryPlaceholders(head, bounds, parts, tail, pre, |args|, |args'|);
    }
    assert StartsWith(q.text, Join(head, " ")) && EndsWith(q.text, OrderTail(limit)) by {
      RangeQueryEnds(head, bounds, parts, tail);
    }
  }

  /** A range query opens with its head and closes with its tail. */
  lemma RangeQueryEnds(head: seq<string>, bounds: seq<string>, parts: seq<string>, tail: seq<string>)
    requires |head| > 0 && |tail| > 0 && parts == head + bounds
    ensures StartsWith(Join(parts + tail, " "), Join(head, " ")) && EndsWith(Join(parts + tail, " "), Join(tail, " "))
  {
    JoinEnds(head, bounds, tail, " ");
  }

  lemma EmptyTail(a: seq<nat>)
    ensures a + [] == a
  {
  }

  lemma NatAssoc(a: seq<nat>, b: seq<nat>, c: seq<nat>)
    ensures (a + b) + c == a + (b + c)
  {
  }

  /**
   * A text made of a `$`-free prefix, the table, and a tail with exactly `$1`: its
   * placeholders are the table's then `1`, and it ends with the text after the `$1`.
   */
  lemma LatestShape(prefix: string, table: string, before: string, after: string)
    requires '$' !in prefix && '$' !in before && '$' !in after
    requires |before| > 0 && !IsDigit(before[0])
    requires |after| == 0 || !IsDigit(after[0])
    ensures var text := prefix + table + (before + Placeholder(1) + after);
      Placeholders(text) == Placeholders(table) + [1] && EndsWith(text, after)
  {
    var clause := before + Placeholder(1);
    var tail := clause + after;
    var text := prefix + table + tail;
    assert tail[0] == before[0];
    calc {
      Placeholders(text);
      { assert text == prefix + (table + tail); PlaceholdersSkip(prefix, table + tail); }
      Placeholders(table + tail);
      { PlaceholdersConcat(table, tail); }
      Placeholders(table) + Placeholders(tail);
      { PlaceholdersConcat(clause, after); NoPlaceholders(after); PlaceholdersOfClause(before, 1); }
      Placeholders(table) + ([1] + []);
    }
    assert text[|text| - |after|..] == after;
  }

  const WhereSymbolIs: string := "WHERE symbol = "
  const WhereSymbol: string := WhereSymbolIs + "$1"

  lemma PlaceholderOne()
    ensures Placeholder(1) == "$1"
  {
  }

  /** The placeholders of a two-part head: a `$`-free text before the table, then `WHERE symbol = $1`. */
  lemma HeadPlaceholders(prefix: string, table: string)
    requires '$' !in prefix
    ensures PlaceholdersOfParts([prefix + table, WhereSymbol]) == Placeholders(table) + Iota(1)
  {
    PlaceholdersSkip(prefix, table);
    PlaceholderOne();
    PlaceholdersOfClause(WhereSymbolIs, 1);
    assert PlaceholdersOfParts([WhereSymbol]) == Placeholders(WhereSymbol) + PlaceholdersOfParts([]);
    assert [prefix + table, WhereSymbol][1..] == [WhereSymbol];
  }

  // ----------------------------------------------------------------------------------
  // CandlesReader
  // ----------------------------------------------------------------------------------

  const CandleColumns: string := "SELECT timestamp, symbol, "
  const CandlePrices: string := "open, high, low, close, volume"
  const FromWord: string := " FROM "
  const FromKw: string := "FROM "
  const CandleSelect: string := CandleColumns + CandlePrices + FromWord

  lemma CandleColumnsPlain() ensures '$' !in CandleColumns {}
  lemma CandlePricesPlain() ensures '$' !in CandlePrices {}
  lemma FromWordPlain() ensures '$' !in FromWord {}
  lemma FromKwPlain() ensures '$' !in FromKw {}

  lemma CandleSelectPlain()
    ensures '$' !in CandleSelect
  {
    CandleColumnsPlain();
    CandlePricesPlain();
    FromWordPlain();
  }

  /**
   * `CandlesReader.fetch_range`: the symbol is always `$1`, the bounds take the next
   * numbers in order, the rows come in ascending time and a LIMIT appears only when given.
   */
  method CandlesFetchRange(table: string, symbol: string, start: Option<Moment>, end: Option<Moment>,
                           limit: Option<int>) returns (q: Query)
    ensures q.args == [TextArg(symbol)] + BoundArgs(start, end)
    ensures Placeholders(q.text) == Placeholders(table) + Iota(|q.args|)
    ensures StartsWith(q.text, CandleSelect + table + " " + WhereSymbol)
    ensures EndsWith(q.text, OrderTail(limit))
  {
    var head := [CandleSelect + table, WhereSymbol];
    assert PlaceholdersOfParts(head) == Placeholders(table) + Iota(1) by {
      CandleSelectPlain();
      HeadPlaceholders(CandleSelect, table);
    }
    q := RangeQuery(head, [TextArg(symbol)], start, end, limit, Placeholders(table));
    JoinPair(CandleSelect + table, WhereSymbol, " ");
  }

  const Indent: string := "\n            "
  const Dedent: string := "\n        "
  const DescOne: string := "ORDER BY timestamp DESC"
  const LimitOne: string := "LIMIT 1"

  /** The fixed text `fetch_latest` sends before the table name. */
  const LatestSelect: string := Indent + CandleColumns + CandlePrices + Indent + FromKw
  /** ... between the table name and the placeholder. */
  const LatestWhere: string := Indent + WhereSymbolIs
  /** ... after the placeholder, up to the window. */
  const LatestOrder: string := Indent + DescOne + Indent + LimitWord

  lemma IndentPlain() ensures '$' !in Indent && '$' !in Dedent && !IsDigit(Indent[0]) {}
  lemma DescPlain() ensures '$' !in DescOne && '$' !in LimitWord && '$' !in LimitOne {}
  lemma WhereSymbolIsPlain() ensures '$' !in WhereSymbolIs {}

  /** `CandlesReader.fetch_latest`'s SQL: the newest `window` rows, newest first. */
  function LatestCandlesText(table: string, window: int): (text: string)
    ensures Placeholders(text) == Placeholders(table) + [1]
    ensures EndsWith(text, LatestOrder + IntToString(window) + Dedent)
  {
    LatestCandlesPlain(window);
    LatestShape(LatestSelect, table, LatestWhere, LatestOrder + IntToString(window) + Dedent);
    LatestSelect + table + (LatestWhere + Placeholder(1) + (LatestOrder + IntToString(window) + Dedent))
  }

  lemma LatestCandlesPlain(window: int)
    ensures '$' !in LatestSelect && '$' !in LatestWhere && '$' !in LatestOrder + IntToString(window) + Dedent
    ensures |LatestWhere| > 0 && !IsDigit(LatestWhere[0]) && !IsDigit((LatestOrder + IntToString(window) + Dedent)[0])
  {
    IndentPlain();
    DescPlain();
    WhereSymbolIsPlain();
    CandleColumnsPlain();
    CandlePricesPlain();
    FromKwPlain();
    IntToStringNoDollar(window);
  }

  /**
   * `CandlesReader.fetch_latest`: one argument, the symbol as `$1`; the rows the database
   * returns newest first are handed back reversed, oldest first.
   */
  method CandlesFetchLatest<R>(table: string, symbol: string, window: int, fetched: seq<R>)
    returns (q: Query, rows: seq<R>)
    ensures q == Query(LatestCandlesText(table, window), [TextArg(symbol)])
    ensures |rows| == |fetched| && forall i | 0 <= i < |rows| :: rows[i] == fetched[|fetched| - 1 - i]
  {
    q := Query(LatestCandlesText(table, window), [TextArg(symbol)]);
    rows := seq(|fetched|, i requires 0 <= i < |fetched| => fetched[|fetched| - 1 - i]);
  }

  // ----------------------------------------------------------------------------------
  // SignalsReader
  // ----------------------------------------------------------------------------------

  /** The default `table_name` of `SignalsReader`. */
  const DefaultSignalTable: string := "dolpha1_signal"

  const SignalHead: string := "SELECT timestamp, symbol, close, "
  const SignalKinds: string := "monitor_signal, trade_signal, "
  const SignalBands: string := "reason, ub, lb, atr, move_open, "
  const SignalFeatures: string := "sigma_open, vwap, min_from_open"
  const SignalColumns: string := SignalHead + SignalKinds + SignalBands + SignalFeatures

  lemma SignalHeadPlain() ensures '$' !in SignalHead {}
  lemma SignalKindsPlain() ensures '$' !in SignalKinds {}
  lemma SignalBandsPlain() ensures '$' !in SignalBands {}
  lemma SignalFeaturesPlain() ensures '$' !in SignalFeatures {}

  lemma SignalColumnsPlain()
    ensures '$' !in SignalColumns
  {
    SignalHeadPlain();
    SignalKindsPlain();
    SignalBandsPlain();
    SignalFeaturesPlain();
  }

  /** `SignalsReader.fetch_range`: as for candles, over the signal table's columns. */
  method SignalsFetchRange(table: string, symbol: string, start: Option<Moment>, end: Option<Moment>,
                           limit: Option<int>) returns (q: Query)
    ensures q.args == [TextArg(symbol)] + BoundArgs(start, end)
    ensures Placeholders(q.text) == Placeholders(table) + Iota(|q.args|)
    ensures StartsWith(q.text, SignalColumns + " " + FromKw + table + " " + WhereSymbol)
    ensures EndsWith(q.text, OrderTail(limit))
  {
    var head := [SignalColumns, FromKw + table, WhereSymbol];
    assert PlaceholdersOfParts(head) == Placeholders(table) + Iota(1) by {
      SignalColumnsPlain();
      NoPlaceholders(SignalColumns);
      FromKwPlain();
      HeadPlaceholders(FromKw, table);
      PartsCons(SignalColumns, [FromKw + table, WhereSymbol]);
    }
    q := RangeQuery(head, [TextArg(symbol)], start, end, limit, Placeholders(table));
    assert Join(head, " ") == SignalColumns + " " + FromKw + table + " " + WhereSymbol by {
      JoinTriple(SignalColumns, FromKw + table, WhereSymbol, " ");
      AppendAssoc(SignalColumns + " ", FromKw, table);
    }
  }

  const LatestSignalSelect: string := Indent + "SELECT * FROM "
  const LatestSignalOrder: string := Indent + DescOne + Indent + LimitOne + Dedent

  lemma SelectAllPlain() ensures '$' !in "SELECT * FROM " {}

  /** `SignalsReader.latest`: the single newest row of the symbol. */
  function SignalsLatest(table: string, symbol: string): (q: Query)
    ensures q.args == [TextArg(symbol)]
    ensures Placeholders(q.text) == Placeholders(table) + [1]
    ensures EndsWith(q.text, LatestSignalOrder)
  {
    LatestSignalPlain();
    LatestShape(LatestSignalSelect, table, LatestWhere, LatestSignalOrder);
    Query(LatestSignalSelect + table + (LatestWhere + Placeholder(1) + LatestSignalOrder), [TextArg(symbol)])
  }

  lemma LatestSignalPlain()
    ensures '$' !in LatestSignalSelect && '$' !in LatestWhere && '$' !in LatestSignalOrder
    ensures |LatestWhere| > 0 && !IsDigit(LatestWhere[0]) && !IsDigit(LatestSignalOrder[0])
  {
    IndentPlain();
    DescPlain();
    WhereSymbolIsPlain();
    SelectAllPlain();
  }

  // ----------------------------------------------------------------------------------
  // OptionMatricesReader
  // ----------------------------------------------------------------------------------

  const MatrixPrefix: string := "option_matrices_"

  /** `OptionMatricesReader._table` */
  function MatrixTable(underlying: string): (t: string)
    ensures t == MatrixPrefix + Lower(underlying)
    ensures Lower(t) == t
  {
    LowerIdempotent(underlying);
    var t := MatrixPrefix + Lower(underlying);
    assert Lower(t) == Lower(MatrixPrefix) + Lower(Lower(underlying));
    t
  }

  /** The metric arguments: every metric when the list is given and non-empty, else none. */
  function MetricArgs(metrics: Option<seq<string>>): (r: seq<Arg>)
    ensures metrics.None? || |metrics.value| == 0 ==> r == []
    ensures metrics.Some? ==> |r| == |metrics.value| && forall i | 0 <= i < |r| :: r[i] == TextArg(metrics.value[i])
  {
    if metrics.None? then [] else seq(|metrics.value|, i requires 0 <= i < |metrics.value| => TextArg(metrics.value[i]))
  }

  const Comma: string := ", "

  /** `", ".join([f"${i}" for i in range(idx, idx + len(metrics))])` */
  function PlaceholderRun(idx: nat, m: nat): (r: string)
    ensures Placeholders(r) == Numbered(idx, m)
  {
    var run := seq(m, i requires 0 <= i < m => Placeholder(idx + i));
    PlaceholdersJoin(run, Comma);
    PlaceholdersOfRun(idx, m);
    Join(run, Comma)
  }

  const SelectAll: string := "SELECT * FROM "
  const WhereTrue: string := "WHERE 1=1"
  const MetricIn: string := "AND metric_type IN ("
  const Close: string := ")"

  lemma MatrixTextsPlain()
    ensures '$' !in SelectAll + MatrixPrefix && '$' !in WhereTrue && '$' !in MetricIn && '$' !in Close
    ensures !IsDigit(Close[0])
  {
    SelectAllPlain();
  }

  /** The IN clause over `m` metric placeholders from `$1`. */
  lemma MetricClausePlaceholders(m: nat)
    ensures PlaceholdersOfParts([MetricIn + PlaceholderRun(1, m) + Close]) == Iota(m)
  {
    var run := PlaceholderRun(1, m);
    MatrixTextsPlain();
    assert MetricIn + run + Close == MetricIn + (run + Close);
    PlaceholdersSkip(MetricIn, run + Close);
    PlaceholdersConcat(run, Close);
    NoPlaceholders(Close);
    var clause := MetricIn + run + Close;
    assert PlaceholdersOfParts([clause]) == Placeholders(clause) + PlaceholdersOfParts([]);
  }

  /** Appending the IN clause to a head that has no argument placeholders yet. */
  lemma AppendClause(head: seq<string>, clause: string, pre: seq<nat>, m: nat)
    requires |head| > 0 && PlaceholdersOfParts(head) == pre + Iota(0)
    requires PlaceholdersOfParts([clause]) == Iota(m)
    ensures PlaceholdersOfParts(head + [clause]) == pre + Iota(m)
    ensures StartsWith(Join(head + [clause], " "), Join(head, " "))
  {
    PlaceholdersOfPartsAppend(head, [clause]);
    assert pre + Iota(0) == pre;
    JoinEnds(head, [], [clause], " ");
    assert head + [] + [clause] == head + [clause];
  }

  /** The fixed head of `fetch_metrics`: only the table name's own placeholders. */
  lemma MatrixHeadPlaceholders(underlying: string)
    ensures PlaceholdersOfParts([SelectAll + MatrixTable(underlying), WhereTrue]) == Placeholders(Lower(underlying)) + Iota(0)
  {
    MatrixTextsPlain();
    assert SelectAll + MatrixTable(underlying) == (SelectAll + MatrixPrefix) + Lower(underlying);
    PlaceholdersSkip(SelectAll + MatrixPrefix, Lower(underlying));
    NoPlaceholders(WhereTrue);
    assert PlaceholdersOfParts([WhereTrue]) == Placeholders(WhereTrue) + PlaceholdersOfParts([]);
    assert [SelectAll + MatrixTable(underlying), WhereTrue][1..] == [WhereTrue];
  }

  /**
   * `OptionMatricesReader.fetch_metrics`: the metrics, when given, take `$1`..`$m` in an IN
   * clause, the bounds continue from `$m+1`, and the rows come in ascending time.
   */
  method FetchMetrics(underlying: string, metrics: Option<seq<string>>, start: Option<Moment>,
                      end: Option<Moment>, limit: Option<int>) returns (q: Query)
    ensures q.args == MetricArgs(metrics) + BoundArgs(start, end)
    ensures Placeholders(q.text) == Placeholders(Lower(underlying)) + Iota(|q.args|)
    ensures StartsWith(q.text, SelectAll + MatrixTable(underlying) + " " + WhereTrue)
    ensures EndsWith(q.text, OrderTail(limit))
  {
    var table := MatrixTable(underlying);
    var head := [SelectAll + table, WhereTrue];
    ghost var first := Join(head, " ");
    ghost var pre := Placeholders(Lower(underlying));
    var args: seq<Arg> := [];
    assert PlaceholdersOfParts(head) == pre + Iota(0) && first == SelectAll + table + " " + WhereTrue by {
      MatrixHeadPlaceholders(underlying);
      JoinPair(SelectAll + table, WhereTrue, " ");
    }
    if metrics.Some? && |metrics.value| > 0 {
      var clause := MetricIn + PlaceholderRun(1, |metrics.value|) + Close;
      MetricClausePlaceholders(|metrics.value|);
      AppendClause(head, clause, pre, |metrics.value|);
      head := head + [clause];
      args := MetricArgs(metrics);
    }
    q := RangeQuery(head, args, start, end, limit, pre);
    StartsWithTrans(q.text, Join(head, " "), first);
  }

  // ----------------------------------------------------------------------------------
  // BaseReader.list_tables
  // ----------------------------------------------------------------------------------

  const TablesSelect: string := "SELECT tablename FROM pg_catalog.pg_tables"
  const LikeClauseIs: string := " WHERE tablename ILIKE "
  const LikeClause: string := LikeClauseIs + "$1"
  const ByName: string := " ORDER BY tablename"

  lemma TablesSelectPlain() ensures '$' !in TablesSelect {}
  lemma LikeClauseIsPlain() ensures '$' !in LikeClauseIs {}
  lemma ByNamePlain() ensures '$' !in ByName && !IsDigit(ByName[0]) {}

  lemma TablesTextsPlain()
    ensures '$' !in TablesSelect && '$' !in LikeClauseIs && '$' !in ByName && !IsDigit(ByName[0])
  {
    TablesSelectPlain();
    LikeClauseIsPlain();
    ByNamePlain();
  }

  /** `list_tables`' SQL: a name filter only for a non-empty pattern, always ordered by name. */
  function ListTablesQuery(like: Option<string>): (q: Query)
    ensures like.Some? && |like.value| > 0 ==>
              q.args == [TextArg(like.value)] && Placeholders(q.text) == [1] && StartsWith(q.text, TablesSelect + LikeClause)
    ensures like.None? || |like.value| == 0 ==> q.args == [] && Placeholders(q.text) == [] && q.text == TablesSelect + ByName
    ensures EndsWith(q.text, ByName)
  {
    if like.Some? && |like.value| > 0 then
      FilteredTablesText();
      Query(TablesSelect + LikeClause + ByName, [TextArg(like.value)])
    else
      AllTablesText();
      Query(TablesSelect + ByName, [])
  }

  lemma FilteredTablesText()
    ensures var text := TablesSelect + LikeClause + ByName;
      Placeholders(text) == [1] && StartsWith(text, TablesSelect + LikeClause) && EndsWith(text, ByName)
  {
    var text := TablesSelect + LikeClause + ByName;
    TablesTextsPlain();
    assert Placeholders(text) == [1] by {
      PlaceholderOne();
      assert text == (TablesSelect + LikeClauseIs) + Placeholder(1) + ByName;
      PlaceholdersOfClause(TablesSelect + LikeClauseIs, 1);
      PlaceholdersConcat(TablesSelect + LikeClauseIs + Placeholder(1), ByName);
      NoPlaceholders(ByName);
    }
    assert text[|text| - |ByName|..] == ByName;
  }

  lemma AllTablesText()
    ensures Placeholders(TablesSelect + ByName) == [] && EndsWith(TablesSelect + ByName, ByName)
  {
    TablesTextsPlain();
    NoPlaceholders(TablesSelect + ByName);
    var text := TablesSelect + ByName;
    assert text[|text| - |ByName|..] == ByName;
  }

  /** `[r["tablename"] for r in rows]`: a row without the column is a KeyError. */
  function TableNames(rows: seq<map<string, string>>): (r: Result<seq<string>>)
    ensures r.Ok? <==> forall i | 0 <= i < |rows| :: "tablename" in rows[i]
    ensures r.Ok? ==> |r.value| == |rows| && forall i | 0 <= i < |rows| :: r.value[i] == rows[i]["tablename"]
    decreases |rows|
  {
    if |rows| == 0 then Ok([])
    else if "tablename" !in rows[0] then Err(KeyError("tablename"))
    else
      var rest := TableNames(rows[1..]);
      if rest.Err? then
        assert exists i | 0 <= i < |rows| - 1 :: "tablename" !in rows[1..][i];
        rest
      else
        Ok([rows[0]["tablename"]] + rest.value)
  }
}
