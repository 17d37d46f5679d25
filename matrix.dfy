/**
 * src/processing/matrix_processor.py: one matrix per option metric, a row per option-chain
 * snapshot and a column per moneyness slot (`C_ITM10` … `C_ATM` … `C_OTM10`, then the same
 * for puts), and the latest-row view the rest of the program reads.
 *
 * A pandas row is a `Row`: the slots holding a number; a slot that is absent is NaN.
 */
module Matrix {
  import opened Wrappers
  import opened Text
  import opened Models

  type Row = map<string, real>

  function Min(a: int, b: int): int
  {
    if a <= b then a else b
  }

  // ----------------------------------------------------------------------------------
  // Ordering by strike
  // ----------------------------------------------------------------------------------

  /** `a` must come before `b`: a smaller strike ascending, a larger one descending. */
  predicate Precedes(a: OptionData, b: OptionData, descending: bool)
  {
    if descending then a.strikePrice > b.strikePrice else a.strikePrice < b.strikePrice
  }

  predicate Ordered(s: seq<OptionData>, descending: bool)
  {
    forall i, j | 0 <= i < j < |s| :: !Precedes(s[j], s[i], descending)
  }

  /** Puts `x` before the first element that does not have to precede it. */
  function Insert(x: OptionData, s: seq<OptionData>, descending: bool): (r: seq<OptionData>)
    ensures multiset(r) == multiset(s) + multiset{x}
  {
    if |s| > 0 && Precedes(s[0], x, descending) then
      assert s == [s[0]] + s[1..];
      [s[0]] + Insert(x, s[1..], descending)
    else [x] + s
  }

  /**
   * `sorted(options, key=lambda o: o.strike_price, reverse=descending)`: each element is
   * inserted ahead of the equal strikes that follow it, so ties keep their order.
   */
  function SortByStrike(s: seq<OptionData>, descending: bool): (r: seq<OptionData>)
    ensures multiset(r) == multiset(s)
  {
    if |s| == 0 then []
    else
      assert s == [s[0]] + s[1..];
      Insert(s[0], SortByStrike(s[1..], descending), descending)
  }

  lemma {:induction false} InsertOrdered(x: OptionData, s: seq<OptionData>, descending: bool)
    requires Ordered(s, descending)
    ensures Ordered(Insert(x, s, descending), descending)
    decreases |s|
  {
    var r := Insert(x, s, descending);
    if |s| > 0 && Precedes(s[0], x, descending) {
      var r' := Insert(x, s[1..], descending);
      InsertOrdered(x, s[1..], descending);
      assert r == [s[0]] + r';
      forall y | y in r'
        ensures !Precedes(y, s[0], descending)
      {
        InInsert(x, s[1..], descending, y);
        if y != x {
          FollowsHead(s, y, descending);
        }
      }
      ConsOrdered(s[0], r', descending);
    }
  }

  lemma InInsert(x: OptionData, s: seq<OptionData>, descending: bool, y: OptionData)
    requires y in Insert(x, s, descending)
    ensures y == x || y in s
  {
    assert y in multiset(Insert(x, s, descending));
    assert y in multiset(s) + multiset{x};
  }

  /** Every element after the head of an ordered list may follow the head. */
  lemma FollowsHead(s: seq<OptionData>, y: OptionData, descending: bool)
    requires |s| > 0 && Ordered(s, descending) && y in s[1..]
    ensures !Precedes(y, s[0], descending)
  {
    var k :| 0 <= k < |s[1..]| && s[1..][k] == y;
    assert s[k + 1] == y;
  }

  /** An ordered list stays ordered with a head that every element may follow. */
  lemma ConsOrdered(x: OptionData, s: seq<OptionData>, descending: bool)
    requires Ordered(s, descending)
    requires forall y | y in s :: !Precedes(y, x, descending)
    ensures Ordered([x] + s, descending)
  {
    var r := [x] + s;
    forall i, j | 0 <= i < j < |r|
      ensures !Precedes(r[j], r[i], descending)
    {
      assert r[j] == s[j - 1];
      if i > 0 {
        assert r[i] == s[i - 1];
      }
    }
  }

  /** The result of the sort is ordered by strike, ascending or descending. */
  lemma {:induction false} SortByStrikeOrdered(s: seq<OptionData>, descending: bool)
    ensures Ordered(SortByStrike(s, descending), descending)
    decreases |s|
  {
    if |s| > 0 {
      SortByStrikeOrdered(s[1..], descending);
      InsertOrdered(s[0], SortByStrike(s[1..], descending), descending);
    }
  }

  /** `[o for o in options if o.atm_class == cls]` */
  function OfClass(s: seq<OptionData>, cls: string): (r: seq<OptionData>)
    ensures forall o | o in r :: o.atmClass == cls && o in s
    ensures forall o | o in s && o.atmClass == cls :: o in r
  {
    if |s| == 0 then []
    else (if s[0].atmClass == cls then [s[0]] else []) + OfClass(s[1..], cls)
  }

  lemma {:induction false} OfClassOrdered(s: seq<OptionData>, cls: string, descending: bool)
    requires Ordered(s, descending)
    ensures Ordered(OfClass(s, cls), descending)
    decreases |s|
  {
    if |s| > 0 {
      var rest := OfClass(s[1..], cls);
      assert Ordered(s[1..], descending);
      OfClassOrdered(s[1..], cls, descending);
      if s[0].atmClass == cls {
        assert OfClass(s, cls) == [s[0]] + rest;
        forall y | y in rest
          ensures !Precedes(y, s[0], descending)
        {
          FollowsHead(s, y, descending);
        }
        ConsOrdered(s[0], rest, descending);
      } else {
        assert OfClass(s, cls) == rest;
      }
    }
  }

  /** Some quote of the list is in the class. */
  predicate HasClass(s: seq<OptionData>, cls: string)
  {
    exists o | o in s :: o.atmClass == cls
  }

  /**
   * The quote an `_ATM` slot takes, the first ATM quote after sorting by ascending strike, is an
   * ATM quote of the snapshot with the lowest strike among them.
   */
  lemma AtmQuote(options: seq<OptionData>)
    requires HasClass(options, "ATM")
    ensures var atm := OfClass(SortByStrike(options, false), "ATM");
      |atm| > 0 && atm[0] in options && atm[0].atmClass == "ATM"
      && forall o | o in options && o.atmClass == "ATM" :: atm[0].strikePrice <= o.strikePrice
  {
    var sorted := SortByStrike(options, false);
    var atm := OfClass(sorted, "ATM");
    var w :| w in options && w.atmClass == "ATM";
    InSorted(options, w);
    assert w in atm;
    assert atm[0] in sorted;
    FromSorted(options, atm[0]);
    SortByStrikeOrdered(options, false);
    OfClassOrdered(sorted, "ATM", false);
    FirstLeast(atm);
    forall o | o in options && o.atmClass == "ATM"
      ensures atm[0].strikePrice <= o.strikePrice
    {
      InSorted(options, o);
      assert o in atm;
    }
  }

  lemma FromSorted(options: seq<OptionData>, o: OptionData)
    requires o in SortByStrike(options, false)
    ensures o in options
  {
    assert o in multiset(SortByStrike(options, false));
    assert o in multiset(options);
  }

  /** The head of an ascending list has the lowest strike. */
  lemma FirstLeast(s: seq<OptionData>)
    requires |s| > 0 && Ordered(s, false)
    ensures forall o | o in s :: s[0].strikePrice <= o.strikePrice
  {
    forall o | o in s
      ensures s[0].strikePrice <= o.strikePrice
    {
      var k :| 0 <= k < |s| && s[k] == o;
      if k > 0 {
        assert !Precedes(s[k], s[0], false);
      }
    }
  }

  lemma InSorted(options: seq<OptionData>, o: OptionData)
    requires o in options
    ensures o in SortByStrike(options, false)
  {
    assert o in multiset(options);
    assert o in multiset(SortByStrike(options, false));
  }

  // ----------------------------------------------------------------------------------
  // Slots and rows
  // ----------------------------------------------------------------------------------

  /** `f"{side}_{name}"` */
  function Col(side: string, name: string): string
  {
    side + "_" + name
  }

  /** `f"{side}_ITM{k}"`, `f"{side}_OTM{k}"` */
  function Ranked(side: string, kind: string, k: int): string
  {
    Col(side, kind + IntToString(k))
  }

  /** The `(column, quote)` writes for ranks 1..n of an ordered list. */
  function RankWrites(list: seq<OptionData>, side: string, kind: string, n: nat): (r: seq<(string, OptionData)>)
    ensures |r| == Min(n, |list|)
    ensures forall i | 0 <= i < |r| :: r[i] == (Ranked(side, kind, i + 1), list[i])
  {
    seq(Min(n, |list|), i requires 0 <= i < Min(n, |list|) => (Ranked(side, kind, i + 1), list[i]))
  }

  /** The ITM quotes of one side, ranked: by strike, descending for calls and ascending for puts. */
  function Itm(options: seq<OptionData>, side: string): seq<OptionData>
  {
    SortByStrike(OfClass(options, "ITM"), side == "C")
  }

  /** The OTM quotes of one side, ranked like the ITM ones. */
  function Otm(options: seq<OptionData>, side: string): seq<OptionData>
  {
    SortByStrike(OfClass(options, "OTM"), side == "C")
  }

  /**
   * The writes `_fill_row_by_atm_class` makes for one side of a strike-sorted list, in order:
   * the ATM slot, then ITM ranks 1..n, then OTM ranks 1..n; nothing without an ATM quote.
   */
  function SideWrites(options: seq<OptionData>, side: string, n: nat): seq<(string, OptionData)>
  {
    var atm := OfClass(options, "ATM");
    if |atm| == 0 then []
    else [(Col(side, "ATM"), atm[0])] + RankWrites(Itm(options, side), side, "ITM", n)
         + RankWrites(Otm(options, side), side, "OTM", n)
  }

  /** `getattr(option, metric, None)`: a numeric field by its name, None for any other name. */
  function MetricValue(o: OptionData, metric: string): Option<real>
  {
    if metric == "strike_price" then Some(o.strikePrice)
    else if metric == "price" then Some(o.price)
    else if metric == "iv" then Some(o.iv)
    else if metric == "delta" then Some(o.delta)
    else if metric == "gamma" then Some(o.gamma)
    else if metric == "vega" then Some(o.vega)
    else if metric == "theta" then Some(o.theta)
    else if metric == "rho" then Some(o.rho)
    else if metric == "volume" then Some(o.volume as real)
    else if metric == "open_interest" then Some(o.openInterest as real)
    else None
  }

  /** A slot of a row: its number, or None for NaN. */
  function Cell(row: Row, col: string): Option<real>
  {
    if col in row then Some(row[col]) else None
  }

  /** `series[col] = value`, None becoming NaN. */
  function SetCell(row: Row, col: string, v: Option<real>): (r: Row)
    ensures Cell(r, col) == v
    ensures forall c | c != col :: Cell(r, c) == Cell(row, c)
  {
    if v.Some? then row[col := v.value] else row - {col}
  }

  /** `new_rows[metric][col] = getattr(option, metric, None)` for every metric's row. */
  function WriteSlot(rows: map<string, Row>, col: string, o: OptionData): (r: map<string, Row>)
    ensures r.Keys == rows.Keys
  {
    map m | m in rows :: SetCell(rows[m], col, MetricValue(o, m))
  }

  /** A sequence of slot writes, in order. */
  function WriteSlots(rows: map<string, Row>, writes: seq<(string, OptionData)>): (r: map<string, Row>)
    ensures r.Keys == rows.Keys
    decreases |writes|
  {
    if |writes| == 0 then rows else WriteSlots(WriteSlot(rows, writes[0].0, writes[0].1), writes[1..])
  }

  /** Writing two runs of slots is writing their concatenation. */
  lemma {:induction false} WriteSlotsConcat(rows: map<string, Row>, a: seq<(string, OptionData)>, b: seq<(string, OptionData)>)
    ensures WriteSlots(rows, a + b) == WriteSlots(WriteSlots(rows, a), b)
    decreases |a|
  {
    if |a| == 0 {
      assert a + b == b;
    } else {
      assert (a + b)[0] == a[0];
      assert (a + b)[1..] == a[1..] + b;
      WriteSlotsConcat(WriteSlot(rows, a[0].0, a[0].1), a[1..], b);
    }
  }

  lemma {:induction false} WriteSlotsAppend(rows: map<string, Row>, writes: seq<(string, OptionData)>, w: (string, OptionData))
    ensures WriteSlots(rows, writes + [w]) == WriteSlot(WriteSlots(rows, writes), w.0, w.1)
    decreases |writes|
  {
    if |writes| > 0 {
      assert (writes + [w])[1..] == writes[1..] + [w];
      WriteSlotsAppend(WriteSlot(rows, writes[0].0, writes[0].1), writes[1..], w);
    } else {
      assert [w][1..] == [];
    }
  }

  /** The quote of the last write to `col`, if any. */
  function LastWrite(writes: seq<(string, OptionData)>, col: string): Option<OptionData>
    decreases |writes|
  {
    if |writes| == 0 then None
    else
      var later := LastWrite(writes[1..], col);
      if later.Some? then later else if writes[0].0 == col then Some(writes[0].1) else None
  }

  /** After a run of writes, a slot holds the metric of the quote written to it last, if any. */
  lemma {:induction false} WriteSlotsCell(rows: map<string, Row>, writes: seq<(string, OptionData)>, m: string, col: string)
    requires m in rows
    ensures m in WriteSlots(rows, writes)
    ensures Cell(WriteSlots(rows, writes)[m], col) ==
              match LastWrite(writes, col)
              case Some(o) => MetricValue(o, m)
              case None => Cell(rows[m], col)
    decreases |writes|
  {
    if |writes| > 0 {
      WriteSlotsCell(WriteSlot(rows, writes[0].0, writes[0].1), writes[1..], m, col);
    }
  }

  lemma {:induction false} LastWriteAt(writes: seq<(string, OptionData)>, col: string, i: int)
    requires 0 <= i < |writes| && writes[i].0 == col
    requires forall j | i < j < |writes| :: writes[j].0 != col
    ensures LastWrite(writes, col) == Some(writes[i].1)
    decreases |writes|
  {
    if i > 0 {
      LastWriteAt(writes[1..], col, i - 1);
    } else {
      LastWriteNone(writes[1..], col);
    }
  }

  lemma {:induction false} LastWriteNone(writes: seq<(string, OptionData)>, col: string)
    requires forall j | 0 <= j < |writes| :: writes[j].0 != col
    ensures LastWrite(writes, col) == None
    decreases |writes|
  {
    if |writes| > 0 {
      LastWriteNone(writes[1..], col);
    }
  }

  // ----------------------------------------------------------------------------------
  // Column names
  // ----------------------------------------------------------------------------------

  lemma IntToStringInjective(a: int, b: int)
    requires IntToString(a) == IntToString(b)
    ensures a == b
  {
    ParseIntOfIntToString(a);
    ParseIntOfIntToString(b);
  }

  lemma ColParts(side: string, name: string)
    ensures |Col(side, name)| == |side| + 1 + |name|
    ensures Col(side, name)[..|side|] == side && Col(side, name)[|side| + 1..] == name
  {
  }

  /** Two ranked names of the same side are equal only for the same kind's first letter and rank. */
  lemma RankedDistinct(side: string, kind1: string, k1: int, kind2: string, k2: int)
    requires |kind1| == |kind2| == 3
    requires Ranked(side, kind1, k1) == Ranked(side, kind2, k2)
    ensures kind1 == kind2 && k1 == k2
  {
    var a := Ranked(side, kind1, k1);
    ColParts(side, kind1 + IntToString(k1));
    ColParts(side, kind2 + IntToString(k2));
    assert a[|side| + 1..] == kind1 + IntToString(k1) == kind2 + IntToString(k2);
    assert kind1 == (kind1 + IntToString(k1))[..3];
    assert kind2 == (kind2 + IntToString(k2))[..3];
    assert IntToString(k1) == (kind1 + IntToString(k1))[3..];
    assert IntToString(k2) == (kind2 + IntToString(k2))[3..];
    IntToStringInjective(k1, k2);
  }

  lemma RankedDiffer(side: string, kind1: string, k1: int, kind2: string, k2: int)
    requires |kind1| == |kind2| == 3 && (kind1 != kind2 || k1 != k2)
    ensures Ranked(side, kind1, k1) != Ranked(side, kind2, k2)
  {
    if Ranked(side, kind1, k1) == Ranked(side, kind2, k2) {
      RankedDistinct(side, kind1, k1, kind2, k2);
    }
  }

  /** Within a side, no ITM slot is an OTM slot. */
  lemma ItmNotOtm(side: string, k1: int, k2: int)
    ensures Ranked(side, "ITM", k1) != Ranked(side, "OTM", k2)
  {
    assert Ranked(side, "ITM", k1)[|side| + 1] == 'I';
    assert Ranked(side, "OTM", k2)[|side| + 1] == 'O';
  }

  /** A slot of one side is never a slot of the other. */
  lemma SidesDistinct(side1: string, name1: string, side2: string, name2: string)
    requires |side1| == |side2| == 1 && side1 != side2
    ensures Col(side1, name1) != Col(side2, name2)
  {
    assert Col(side1, name1)[0] == side1[0];
    assert Col(side2, name2)[0] == side2[0];
  }

  /** Within a side, the ATM slot is no ranked slot. */
  lemma AtmNotRanked(side: string, kind: string, k: int)
    requires |kind| == 3 && kind[0] != 'A'
    ensures Col(side, "ATM") != Ranked(side, kind, k)
  {
    assert Col(side, "ATM")[|side| + 1] == 'A';
    assert Ranked(side, kind, k)[|side| + 1] == kind[0];
  }

  /** Ranked writes name every slot once: rank `k` of the list for `1 <= k <= min(n, len)`, nothing else. */
  lemma RankWritesLookup(list: seq<OptionData>, side: string, kind: string, n: nat, kind2: string, k: int)
    requires |kind| == |kind2| == 3
    ensures LastWrite(RankWrites(list, side, kind, n), Ranked(side, kind2, k)) ==
              if kind2 == kind && 1 <= k <= Min(n, |list|) then Some(list[k - 1]) else None
  {
    var w := RankWrites(list, side, kind, n);
    var col := Ranked(side, kind2, k);
    forall j | 0 <= j < |w| && w[j].0 == col
      ensures kind2 == kind && j == k - 1
    {
      RankedDistinct(side, kind, j + 1, kind2, k);
    }
    if kind2 == kind && 1 <= k <= Min(n, |list|) {
      LastWriteAt(w, col, k - 1);
    } else {
      LastWriteNone(w, col);
    }
  }

  lemma AtmNotInRankWrites(list: seq<OptionData>, side: string, kind: string, n: nat)
    requires |kind| == 3 && kind[0] != 'A'
    ensures LastWrite(RankWrites(list, side, kind, n), Col(side, "ATM")) == None
  {
    var w := RankWrites(list, side, kind, n);
    forall j | 0 <= j < |w|
      ensures w[j].0 != Col(side, "ATM")
    {
      AtmNotRanked(side, kind, j + 1);
    }
    LastWriteNone(w, Col(side, "ATM"));
  }

  lemma LastWriteConcat(a: seq<(string, OptionData)>, b: seq<(string, OptionData)>, col: string)
    ensures LastWrite(a + b, col) == if LastWrite(b, col).Some? then LastWrite(b, col) else LastWrite(a, col)
    decreases |a|
  {
    if |a| > 0 {
      assert (a + b)[1..] == a[1..] + b;
      LastWriteConcat(a[1..], b, col);
    } else {
      assert a + b == b;
    }
  }

  lemma RankWritesPrefix(list: seq<OptionData>, side: string, kind: string, n: nat, col: string)
    requires |side| == 1 && |col| > 0 && col[0] != side[0]
    ensures LastWrite(RankWrites(list, side, kind, n), col) == None
  {
    var w := RankWrites(list, side, kind, n);
    forall j | 0 <= j < |w|
      ensures w[j].0 != col
    {
      assert w[j].0[0] == side[0];
    }
    LastWriteNone(w, col);
  }

  /** Every slot a side writes starts with the side's letter. */
  lemma SideWritesPrefix(options: seq<OptionData>, side: string, n: nat, col: string)
    requires |side| == 1 && |col| > 0 && col[0] != side[0]
    ensures LastWrite(SideWrites(options, side, n), col) == None
  {
    var atm := OfClass(options, "ATM");
    if |atm| > 0 {
      var a := [(Col(side, "ATM"), atm[0])];
      var ri := RankWrites(Itm(options, side), side, "ITM", n);
      var ro := RankWrites(Otm(options, side), side, "OTM", n);
      assert SideWrites(options, side, n) == a + ri + ro;
      RankWritesPrefix(Itm(options, side), side, "ITM", n, col);
      RankWritesPrefix(Otm(options, side), side, "OTM", n, col);
      assert a[0].0[0] == side[0];
      LastWriteConcat(a + ri, ro, col);
      LastWriteConcat(a, ri, col);
      LastWriteNone(a, col);
    }
  }

  /**
   * One side's writes: its ATM slot gets the first ATM quote, rank `k` of a kind the k-th
   * quote of that kind's ranking for `1 <= k <= min(n, count)`, and no other rank anything.
   */
  lemma SideWritesLookup(options: seq<OptionData>, side: string, n: nat, kind: string, k: int)
    requires |OfClass(options, "ATM")| > 0
    requires kind == "ITM" || kind == "OTM"
    ensures var w := SideWrites(options, side, n);
      var list := if kind == "ITM" then Itm(options, side) else Otm(options, side);
      LastWrite(w, Col(side, "ATM")) == Some(OfClass(options, "ATM")[0])
      && LastWrite(w, Ranked(side, kind, k)) == if 1 <= k <= Min(n, |list|) then Some(list[k - 1]) else None
  {
    var atm := [(Col(side, "ATM"), OfClass(options, "ATM")[0])];
    var ri := RankWrites(Itm(options, side), side, "ITM", n);
    var ro := RankWrites(Otm(options, side), side, "OTM", n);
    assert SideWrites(options, side, n) == atm + ri + ro;
    LastWriteConcat(atm + ri, ro, Col(side, "ATM"));
    LastWriteConcat(atm, ri, Col(side, "ATM"));
    AtmNotInRankWrites(Itm(options, side), side, "ITM", n);
    AtmNotInRankWrites(Otm(options, side), side, "OTM", n);
    var col := Ranked(side, kind, k);
    LastWriteConcat(atm + ri, ro, col);
    LastWriteConcat(atm, ri, col);
    RankWritesLookup(Itm(options, side), side, "ITM", n, kind, k);
    RankWritesLookup(Otm(options, side), side, "OTM", n, kind, k);
    AtmNotRanked(side, kind, k);
  }

  /** `{metric: pd.Series(dtype=float) for metric in metrics}`: an empty row per metric. */
  function EmptyRows(metrics: seq<string>): (r: map<string, Row>)
    ensures r.Keys == set m | m in metrics
  {
    map m | m in metrics :: map[]
  }

  /** The row per metric that `update` builds: the call side's writes, then the put side's. */
  function NewRows(metrics: seq<string>, n: nat, chain: OptionChainData): (r: map<string, Row>)
    ensures r.Keys == set m | m in metrics
  {
    WriteSlots(WriteSlots(EmptyRows(metrics), SideWrites(SortByStrike(chain.calls, false), "C", n)),
               SideWrites(SortByStrike(chain.puts, false), "P", n))
  }

  /** Sorting keeps the quotes, so a class is present after the sort exactly when it was before. */
  lemma InSortedClass(options: seq<OptionData>, cls: string)
    ensures HasClass(options, cls) <==> |OfClass(SortByStrike(options, false), cls)| > 0
  {
    var sorted := SortByStrike(options, false);
    var r := OfClass(sorted, cls);
    if |r| > 0 {
      var o := r[0];
      assert o in sorted;
      assert o in multiset(sorted);
      assert o in options;
    }
    if HasClass(options, cls) {
      var w :| w in options && w.atmClass == cls;
      assert w in multiset(options);
      assert w in multiset(sorted);
    }
  }

  /**
   * The row `update` appends for a metric: on each side the ATM slot holds the metric of the
   * lowest-strike ATM quote, rank `k` of ITM or OTM the metric of the k-th quote of its ranking
   * for `1 <= k <= min(n, count)`, and every rank beyond is NaN, never zero.
   */
  lemma NewRowCells(metrics: seq<string>, n: nat, chain: OptionChainData, m: string, side: string, kind: string, k: int)
    requires m in metrics
    requires side == "C" || side == "P"
    requires kind == "ITM" || kind == "OTM"
    requires HasClass(chain.calls, "ATM") && HasClass(chain.puts, "ATM")
    ensures var options := SortByStrike(if side == "C" then chain.calls else chain.puts, false);
      var row := NewRows(metrics, n, chain)[m];
      var list := if kind == "ITM" then Itm(options, side) else Otm(options, side);
      |OfClass(options, "ATM")| > 0
      && Cell(row, Col(side, "ATM")) == MetricValue(OfClass(options, "ATM")[0], m)
      && Cell(row, Ranked(side, kind, k)) == if 1 <= k <= Min(n, |list|) then MetricValue(list[k - 1], m) else None
  {
    var options := SortByStrike(if side == "C" then chain.calls else chain.puts, false);
    InSortedClass(chain.calls, "ATM");
    InSortedClass(chain.puts, "ATM");
    SideWritesLookup(options, side, n, kind, k);
    NewRowCell(metrics, n, chain, m, side, Col(side, "ATM"));
    NewRowCell(metrics, n, chain, m, side, Ranked(side, kind, k));
  }

  /** A slot of one side is decided by that side's writes alone, and is NaN if none wrote it. */
  lemma NewRowCell(metrics: seq<string>, n: nat, chain: OptionChainData, m: string, side: string, col: string)
    requires m in metrics
    requires side == "C" || side == "P"
    requires |col| > 0 && col[0] == side[0]
    ensures var options := SortByStrike(if side == "C" then chain.calls else chain.puts, false);
      Cell(NewRows(metrics, n, chain)[m], col) ==
        match LastWrite(SideWrites(options, side, n), col)
        case Some(o) => MetricValue(o, m)
        case None => None
  {
    var calls := SortByStrike(chain.calls, false);
    var puts := SortByStrike(chain.puts, false);
    var e := EmptyRows(metrics);
    var wc := SideWrites(calls, "C", n);
    var wp := SideWrites(puts, "P", n);
    var mid := WriteSlots(e, wc);
    assert NewRows(metrics, n, chain) == WriteSlots(mid, wp);
    WriteSlotsCell(e, wc, m, col);
    WriteSlotsCell(mid, wp, m, col);
    if side == "C" {
      SideWritesPrefix(puts, "P", n, col);
    } else {
      SideWritesPrefix(calls, "C", n, col);
    }
  }

  // ----------------------------------------------------------------------------------
  // Appending rows
  // ----------------------------------------------------------------------------------

  function Last<T>(s: seq<T>): T
    requires |s| > 0
  {
    s[|s| - 1]
  }

  /** `for metric in metrics: matrices[metric] = concat([matrices[metric], new_rows[metric]])` */
  function AppendRows(mats: map<string, seq<Row>>, metrics: seq<string>, rows: map<string, Row>): (r: map<string, seq<Row>>)
    ensures r.Keys == mats.Keys
    decreases |metrics|
  {
    if |metrics| == 0 then mats
    else
      var m := metrics[0];
      AppendRows(if m in mats && m in rows then mats[m := mats[m] + [rows[m]]] else mats, metrics[1..], rows)
  }

  /**
   * Appending keeps every earlier row, leaves metrics outside the list alone, ends each listed
   * metric with its new row, and adds exactly one row when the list names each metric once.
   */
  lemma {:induction false} AppendRowsSpec(mats: map<string, seq<Row>>, metrics: seq<string>, rows: map<string, Row>, m: string)
    requires m in mats
    ensures var r := AppendRows(mats, metrics, rows);
      |mats[m]| <= |r[m]| && r[m][..|mats[m]|] == mats[m]
      && (m !in metrics || m !in rows ==> r[m] == mats[m])
      && (m in metrics && m in rows ==> |r[m]| > |mats[m]| && Last(r[m]) == rows[m])
      && (m in metrics && m in rows && (forall i, j | 0 <= i < j < |metrics| :: metrics[i] != metrics[j]) ==>
            r[m] == mats[m] + [rows[m]])
    decreases |metrics|
  {
    if |metrics| > 0 {
      var m0 := metrics[0];
      var next := if m0 in mats && m0 in rows then mats[m0 := mats[m0] + [rows[m0]]] else mats;
      AppendRowsSpec(next, metrics[1..], rows, m);
      var r := AppendRows(mats, metrics, rows);
      assert next[m][..|mats[m]|] == mats[m];
      assert r[m][..|next[m]|][..|mats[m]|] == r[m][..|mats[m]|];
      if m in metrics && m !in metrics[1..] {
        assert m == m0;
      }
      if m in metrics && m in rows && (forall i, j | 0 <= i < j < |metrics| :: metrics[i] != metrics[j]) {
        if m == m0 {
          assert m !in metrics[1..];
        }
      }
    }
  }

  /** `update`'s effect on the matrices, as a function of the snapshot. */
  function Updated(mats: map<string, seq<Row>>, metrics: seq<string>, n: nat, chain: OptionChainData): (r: map<string, seq<Row>>)
    ensures r.Keys == mats.Keys
  {
    if |chain.calls| == 0 && |chain.puts| == 0 then mats
    else if |OfClass(SortByStrike(chain.calls, false), "ATM")| == 0
         || |OfClass(SortByStrike(chain.puts, false), "ATM")| == 0 then mats
    else AppendRows(mats, metrics, NewRows(metrics, n, chain))
  }

  /** A snapshot without an ATM quote on either side changes no matrix. */
  lemma UpdateNeedsAtm(mats: map<string, seq<Row>>, metrics: seq<string>, n: nat, chain: OptionChainData)
    requires !HasClass(chain.calls, "ATM") || !HasClass(chain.puts, "ATM")
    ensures Updated(mats, metrics, n, chain) == mats
  {
    InSortedClass(chain.calls, "ATM");
    InSortedClass(chain.puts, "ATM");
  }

  /**
   * A snapshot with an ATM quote on both sides appends its row to every listed metric, one
   * row each when the list names each metric once, and keeps every earlier row; a metric
   * outside the list is left alone.
   */
  lemma UpdateAppends(mats: map<string, seq<Row>>, metrics: seq<string>, n: nat, chain: OptionChainData, m: string)
    requires m in mats
    requires HasClass(chain.calls, "ATM") && HasClass(chain.puts, "ATM")
    ensures var r := Updated(mats, metrics, n, chain);
      var row := NewRows(metrics, n, chain);
      (m in metrics ==>
         |r[m]| > |mats[m]| && r[m][..|mats[m]|] == mats[m] && Last(r[m]) == row[m]
         && ((forall i, j | 0 <= i < j < |metrics| :: metrics[i] != metrics[j]) ==> r[m] == mats[m] + [row[m]]))
      && (m !in metrics ==> r[m] == mats[m])
  {
    InSortedClass(chain.calls, "ATM");
    InSortedClass(chain.puts, "ATM");
    var row := NewRows(metrics, n, chain);
    var w :| w in chain.calls && w.atmClass == "ATM";
    assert |chain.calls| > 0;
    assert Updated(mats, metrics, n, chain) == AppendRows(mats, metrics, row);
    AppendRowsSpec(mats, metrics, row, m);
  }



  // ----------------------------------------------------------------------------------
  // Columns
  // ----------------------------------------------------------------------------------

  /** One side's columns: ITM n down to ITM 1, ATM, OTM 1 up to OTM n. */
  function SideColumns(side: string, n: nat): (r: seq<string>)
    ensures |r| == 2 * n + 1
  {
    seq(n, i requires 0 <= i < n => Ranked(side, "ITM", n - i)) + [Col(side, "ATM")]
    + seq(n, i requires 0 <= i < n => Ranked(side, "OTM", i + 1))
  }

  /** The columns of the sides in order. */
  function ColumnsOf(sides: seq<string>, n: nat): seq<string>
    decreases |sides|
  {
    if |sides| == 0 then [] else ColumnsOf(sides[..|sides| - 1], n) + SideColumns(sides[|sides| - 1], n)
  }

  /** `_generate_columns`: calls, then puts. */
  function Columns(n: nat): seq<string>
  {
    ColumnsOf(["C", "P"], n)
  }

  lemma SideColumnsDistinct(side: string, n: nat)
    ensures var cols := SideColumns(side, n);
      forall i, j | 0 <= i < j < |cols| :: cols[i] != cols[j]
  {
    var cols := SideColumns(side, n);
    forall i, j | 0 <= i < j < |cols|
      ensures cols[i] != cols[j]
    {
      SideColumnPair(side, n, i, j);
    }
  }

  /** The column at each position of a side. */
  lemma SideColumnAt(side: string, n: nat, i: nat)
    requires i < 2 * n + 1
    ensures SideColumns(side, n)[i]
              == if i < n then Ranked(side, "ITM", n - i) else if i == n then Col(side, "ATM") else Ranked(side, "OTM", i - n)
  {
  }

  lemma SideColumnPair(side: string, n: nat, i: nat, j: nat)
    requires i < j < 2 * n + 1
    ensures SideColumns(side, n)[i] != SideColumns(side, n)[j]
  {
    var cols := SideColumns(side, n);
    if j < n {
      assert cols[i] != cols[j] by {
        SideColumnAt(side, n, i);
        SideColumnAt(side, n, j);
        RankedDiffer(side, "ITM", n - i, "ITM", n - j);
      }
    } else if i < n && j == n {
      assert cols[i] != cols[j] by {
        SideColumnAt(side, n, i);
        SideColumnAt(side, n, j);
        AtmNotRanked(side, "ITM", n - i);
      }
    } else if i < n {
      assert cols[i] != cols[j] by {
        SideColumnAt(side, n, i);
        SideColumnAt(side, n, j);
        ItmNotOtm(side, n - i, j - n);
      }
    } else if i == n {
      assert cols[i] != cols[j] by {
        SideColumnAt(side, n, i);
        SideColumnAt(side, n, j);
        AtmNotRanked(side, "OTM", j - n);
      }
    } else {
      assert cols[i] != cols[j] by {
        SideColumnAt(side, n, i);
        SideColumnAt(side, n, j);
        RankedDiffer(side, "OTM", i - n, "OTM", j - n);
      }
    }
  }

  /** Every column of a one-letter side starts with that letter. */
  lemma SideColumnsLead(side: string, n: nat)
    requires |side| == 1
    ensures var cols := SideColumns(side, n);
      forall i | 0 <= i < |cols| :: |cols[i]| > 1 && cols[i][0] == side[0]
  {
    var cols := SideColumns(side, n);
    forall i | 0 <= i < |cols|
      ensures |cols[i]| > 1 && cols[i][0] == side[0]
    {
      if i < n {
        assert cols[i] == Col(side, "ITM" + IntToString(n - i));
      } else if i == n {
        assert cols[i] == Col(side, "ATM");
      } else {
        assert cols[i] == Col(side, "OTM" + IntToString(i - n));
      }
    }
  }

  lemma ColumnsSplit(n: nat)
    ensures Columns(n) == SideColumns("C", n) + SideColumns("P", n)
  {
    assert ["C", "P"][..1] == ["C"];
    assert ["C"][..0] == [];
  }

  /** The column list has 2(2n+1) names, all distinct. */
  lemma ColumnsDistinct(n: nat)
    ensures |Columns(n)| == 2 * (2 * n + 1)
    ensures forall i, j | 0 <= i < j < |Columns(n)| :: Columns(n)[i] != Columns(n)[j]
  {
    ColumnsSplit(n);
    var c := SideColumns("C", n);
    var p := SideColumns("P", n);
    var cols := c + p;
    SideColumnsDistinct("C", n);
    SideColumnsDistinct("P", n);
    SideColumnsLead("C", n);
    SideColumnsLead("P", n);
    forall i, j | 0 <= i < j < |cols|
      ensures cols[i] != cols[j]
    {
      if i < |c| <= j {
        assert cols[i] == c[i] && cols[j] == p[j - |c|];
        assert c[i][0] == 'C' && p[j - |c|][0] == 'P';
      } else if |c| <= i {
        assert cols[i] == p[i - |c|] && cols[j] == p[j - |c|];
      } else {
        assert cols[i] == c[i] && cols[j] == c[j];
      }
    }
  }

  /** The column list names every slot `update` can write, so appending a row adds no column. */
  lemma ColumnsCover(n: nat, side: string, kind: string, k: int)
    requires side == "C" || side == "P"
    requires kind == "ITM" || kind == "OTM"
    requires 1 <= k <= n
    ensures Ranked(side, kind, k) in Columns(n) && Col(side, "ATM") in Columns(n)
  {
    ColumnsSplit(n);
    var sc := SideColumns(side, n);
    if kind == "ITM" {
      assert sc[n - k] == Ranked(side, kind, k);
    } else {
      assert sc[n + k] == Ranked(side, kind, k);
    }
    assert sc[n] == Col(side, "ATM");
    assert Ranked(side, kind, k) in sc && Col(side, "ATM") in sc;
  }

  lemma ColumnsOfStep(sides: seq<string>, s: int, n: nat)
    requires 0 <= s < |sides|
    ensures ColumnsOf(sides[..s + 1], n) == ColumnsOf(sides[..s], n) + SideColumns(sides[s], n)
  {
    assert sides[..s + 1][..s] == sides[..s];
  }

  /** The ITM half of one side: ranks n down to 1. */
  method GenerateItm(side: string, n: nat) returns (cols: seq<string>)
    ensures cols == seq(n, j requires 0 <= j < n => Ranked(side, "ITM", n - j))
  {
    ghost var itm := seq(n, j requires 0 <= j < n => Ranked(side, "ITM", n - j));
    cols := [];
    for i := n downto 0
      invariant cols == itm[..n - i]
    {
      assert itm[..n - i] == itm[..n - i - 1] + [Ranked(side, "ITM", i + 1)] by {
        assert itm[n - i - 1] == Ranked(side, "ITM", i + 1);
      }
      cols := cols + [Ranked(side, "ITM", i + 1)];
    }
    assert itm[..n] == itm;
  }

  /** The OTM half of one side: ranks 1 up to n. */
  method GenerateOtm(side: string, n: nat) returns (cols: seq<string>)
    ensures cols == seq(n, j requires 0 <= j < n => Ranked(side, "OTM", j + 1))
  {
    ghost var otm := seq(n, j requires 0 <= j < n => Ranked(side, "OTM", j + 1));
    cols := [];
    for i := 1 to n + 1
      invariant cols == otm[..i - 1]
    {
      assert otm[..i] == otm[..i - 1] + [Ranked(side, "OTM", i)] by {
        assert otm[i - 1] == Ranked(side, "OTM", i);
      }
      cols := cols + [Ranked(side, "OTM", i)];
    }
    assert otm[..n] == otm;
  }

  /** One pass of `_generate_columns`' outer loop: ITM n down to 1, ATM, OTM 1 up to n. */
  method GenerateSideColumns(side: string, n: nat) returns (cols: seq<string>)
    ensures cols == SideColumns(side, n)
  {
    var itm := GenerateItm(side, n);
    var otm := GenerateOtm(side, n);
    cols := itm + [Col(side, "ATM")] + otm;
  }

  /** `_generate_columns` */
  method GenerateColumns(n: nat) returns (cols: seq<string>)
    ensures cols == Columns(n)
  {
    cols := [];
    var sides := ["C", "P"];
    for s := 0 to |sides|
      invariant cols == ColumnsOf(sides[..s], n)
    {
      var sideCols := GenerateSideColumns(sides[s], n);
      cols := cols + sideCols;
      ColumnsOfStep(sides, s, n);
    }
    assert sides[..2] == sides;
  }

  // ----------------------------------------------------------------------------------
  // The latest-row view
  // ----------------------------------------------------------------------------------

  /** `{"c": {...}, "p": {...}}` for one metric. */
  datatype Sides = Sides(c: map<string, real>, p: map<string, real>)

  /** The side of the view for the columns with `prefix`: each present slot under its lower-cased name. */
  function SideView(row: Row, cols: seq<string>, prefix: string): map<string, real>
    decreases |cols|
  {
    if |cols| == 0 then map[]
    else
      var last := cols[|cols| - 1];
      var init := SideView(row, cols[..|cols| - 1], prefix);
      if last in row && StartsWith(last, prefix) then init[Lower(last[|prefix|..]) := row[last]] else init
  }

  /** The view of a row over the columns, in column order. */
  function View(row: Row, cols: seq<string>): Sides
  {
    Sides(SideView(row, cols, "C_"), SideView(row, cols, "P_"))
  }

  /** A present slot of the side's prefix, under the name the view gives it. */
  predicate Shows(row: Row, cols: seq<string>, prefix: string, key: string)
  {
    exists col | col in cols :: col in row && StartsWith(col, prefix) && Lower(col[|prefix|..]) == key
  }

  /**
   * A side of the view shows a name exactly when some present column with the side's prefix
   * lowers to it, and then with that column's value; a NaN slot is never shown.
   */
  lemma {:induction false} SideViewSpec(row: Row, cols: seq<string>, prefix: string)
    ensures var v := SideView(row, cols, prefix);
      (forall key :: key in v <==> Shows(row, cols, prefix, key))
      && (forall key | key in v :: exists col | col in cols && col in row && StartsWith(col, prefix) ::
            Lower(col[|prefix|..]) == key && v[key] == row[col])
    decreases |cols|
  {
    if |cols| > 0 {
      var init := cols[..|cols| - 1];
      var last := cols[|cols| - 1];
      SideViewSpec(row, init, prefix);
      var v := SideView(row, cols, prefix);
      var u := SideView(row, init, prefix);
      var hit := last in row && StartsWith(last, prefix);
      assert forall key :: key in u <==> Shows(row, init, prefix, key);
      assert forall key | key in u :: exists col | col in init && col in row && StartsWith(col, prefix) ::
               Lower(col[|prefix|..]) == key && u[key] == row[col];
      forall key
        ensures key in v <==> Shows(row, cols, prefix, key)
      {
        if Shows(row, cols, prefix, key) {
          var col :| col in cols && col in row && StartsWith(col, prefix) && Lower(col[|prefix|..]) == key;
          if col != last {
            assert col in init;
            assert Shows(row, init, prefix, key);
          }
        }
        if key in v {
          if !(hit && key == Lower(last[|prefix|..])) {
            assert key in u;
            assert Shows(row, init, prefix, key);
            var col :| col in init && col in row && StartsWith(col, prefix) && Lower(col[|prefix|..]) == key;
            assert col in cols;
          }
        }
      }
      forall key | key in v
        ensures exists col | col in cols && col in row && StartsWith(col, prefix) ::
                  Lower(col[|prefix|..]) == key && v[key] == row[col]
      {
        if hit && key == Lower(last[|prefix|..]) {
          assert v[key] == row[last];
        } else {
          assert key in u && v[key] == u[key];
          var col :| col in init && col in row && StartsWith(col, prefix) && Lower(col[|prefix|..]) == key && u[key] == row[col];
          assert col in cols;
        }
      }
    }
  }

  /** `get_current_matrices`: `{}` with no rows at all, otherwise the view of each metric's latest row. */
  function CurrentView(mats: map<string, seq<Row>>, cols: seq<string>): map<string, Sides>
  {
    if forall m | m in mats :: |mats[m]| == 0 then map[]
    else map m | m in mats && |mats[m]| > 0 :: View(Last(mats[m]), cols)
  }

  /** The views of the non-empty matrices whose metric is not in `keys`. */
  function ViewsOutside(mats: map<string, seq<Row>>, cols: seq<string>, keys: set<string>): map<string, Sides>
  {
    map m | m in mats.Keys - keys && |mats[m]| > 0 :: View(Last(mats[m]), cols)
  }

  /** Taking one more metric out of `keys` adds its view, when its matrix has rows. */
  lemma ViewsStep(mats: map<string, seq<Row>>, cols: seq<string>, keys: set<string>, metric: string)
    requires metric in keys && keys <= mats.Keys
    ensures ViewsOutside(mats, cols, keys - {metric})
              == if |mats[metric]| > 0 then ViewsOutside(mats, cols, keys)[metric := View(Last(mats[metric]), cols)]
                 else ViewsOutside(mats, cols, keys)
  {
  }

  /** Two matrix sets with the same metrics, the same empty ones and the same latest rows look the same. */
  lemma SameLatestSameView(a: map<string, seq<Row>>, b: map<string, seq<Row>>, cols: seq<string>)
    requires a.Keys == b.Keys
    requires forall m | m in a :: (|a[m]| > 0 <==> |b[m]| > 0) && (|a[m]| > 0 ==> Last(a[m]) == Last(b[m]))
    ensures CurrentView(a, cols) == CurrentView(b, cols)
  {
  }

  /** Feeding the same snapshot twice leaves the current view as the first feed left it. */
  lemma ReplayKeepsView(mats: map<string, seq<Row>>, metrics: seq<string>, n: nat, chain: OptionChainData, cols: seq<string>)
    ensures var once := Updated(mats, metrics, n, chain);
      CurrentView(Updated(once, metrics, n, chain), cols) == CurrentView(once, cols)
  {
    var once := Updated(mats, metrics, n, chain);
    var twice := Updated(once, metrics, n, chain);
    if HasClass(chain.calls, "ATM") && HasClass(chain.puts, "ATM") {
      forall m | m in once
        ensures (|twice[m]| > 0 <==> |once[m]| > 0) && (|twice[m]| > 0 ==> Last(twice[m]) == Last(once[m]))
      {
        UpdateAppends(mats, metrics, n, chain, m);
        UpdateAppends(once, metrics, n, chain, m);
      }
      SameLatestSameView(twice, once, cols);
    } else {
      UpdateNeedsAtm(once, metrics, n, chain);
    }
  }

  // ----------------------------------------------------------------------------------
  // OptionMatrixProcessor
  // ----------------------------------------------------------------------------------

  /** `OptionMatrixProcessor`: a matrix per metric over a fixed column list. */
  class OptionMatrixProcessor {
    const metrics: seq<string>
    const numStrikes: nat
    const columns: seq<string>
    var matrices: map<string, seq<Row>>

    /** Exactly the configured metrics have a matrix, over the generated columns. */
    ghost predicate Valid()
      reads this
    {
      columns == Columns(numStrikes) && matrices.Keys == set m | m in metrics
    }

    /** `__init__` / `_create_matrices`: an empty matrix per metric. */
    constructor(metrics: seq<string>, numStrikes: nat)
      ensures Valid() && this.metrics == metrics && this.numStrikes == numStrikes
      ensures forall m | m in matrices :: matrices[m] == []
    {
      this.metrics := metrics;
      this.numStrikes := numStrikes;
      var cols := GenerateColumns(numStrikes);
      columns := cols;
      matrices := map m | m in metrics :: [];
    }

    /** The inner loop: `new_rows[metric][col] = getattr(option, metric, None)` for each metric. */
    method WriteMetrics(rows: map<string, Row>, col: string, o: OptionData) returns (out: map<string, Row>)
      requires rows.Keys == set m | m in metrics
      ensures out == WriteSlot(rows, col, o)
    {
      out := rows;
      for i := 0 to |metrics|
        invariant out.Keys == rows.Keys
        invariant forall m | m in rows ::
          out[m] == if m in metrics[..i] then SetCell(rows[m], col, MetricValue(o, m)) else rows[m]
      {
        var metric := metrics[i];
        out := out[metric := SetCell(out[metric], col, MetricValue(o, metric))];
        assert metrics[..i + 1] == metrics[..i] + [metric];
      }
      assert metrics[..|metrics|] == metrics;
    }

    /** One ranked loop of `_fill_row_by_atm_class`: the first `num_strikes` quotes into ranks 1, 2, ... */
    method WriteRanks(rows: map<string, Row>, list: seq<OptionData>, side: string, kind: string)
      returns (out: map<string, Row>)
      requires rows.Keys == set m | m in metrics
      ensures out == WriteSlots(rows, RankWrites(list, side, kind, numStrikes))
    {
      ghost var writes := RankWrites(list, side, kind, numStrikes);
      out := rows;
      for i := 0 to Min(numStrikes, |list|)
        invariant out == WriteSlots(rows, writes[..i])
      {
        WriteSlotsAppend(rows, writes[..i], writes[i]);
        assert writes[..i + 1] == writes[..i] + [writes[i]];
        out := WriteMetrics(out, Ranked(side, kind, i + 1), list[i]);
      }
      assert writes[..|writes|] == writes;
    }

    /** `_fill_row_by_atm_class`: one side's writes into the new rows. */
    method FillRowByAtmClass(newRows: map<string, Row>, options: seq<OptionData>, side: string)
      returns (rows: map<string, Row>)
      requires newRows.Keys == set m | m in metrics
      ensures rows == WriteSlots(newRows, SideWrites(options, side, numStrikes))
    {
      var atmOptions := OfClass(options, "ATM");
      if |atmOptions| == 0 {
        return newRows;
      }
      var atmOption := atmOptions[0];
      ghost var atm := [(Col(side, "ATM"), atmOption)];
      rows := WriteMetrics(newRows, Col(side, "ATM"), atmOption);
      assert rows == WriteSlots(newRows, atm);
      var itmOptions := SortByStrike(OfClass(options, "ITM"), side == "C");
      var otmOptions := SortByStrike(OfClass(options, "OTM"), side == "C");
      ghost var ri := RankWrites(itmOptions, side, "ITM", numStrikes);
      ghost var ro := RankWrites(otmOptions, side, "OTM", numStrikes);
      rows := WriteRanks(rows, itmOptions, side, "ITM");
      WriteSlotsConcat(newRows, atm, ri);
      rows := WriteRanks(rows, otmOptions, side, "OTM");
      WriteSlotsConcat(newRows, atm + ri, ro);
      assert SideWrites(options, side, numStrikes) == atm + ri + ro;
    }

    /**
     * `update`: nothing for an empty snapshot or one without ATM quotes on both sides;
     * otherwise a new row per metric, filled from both sides, appended to its matrix.
     */
    method Update(chain: OptionChainData)
      requires Valid()
      modifies this
      ensures Valid() && matrices == Updated(old(matrices), metrics, numStrikes, chain)
    {
      if |chain.calls| == 0 && |chain.puts| == 0 {
        return;
      }
      var sortedCalls := SortByStrike(chain.calls, false);
      var sortedPuts := SortByStrike(chain.puts, false);
      var atmCalls := OfClass(sortedCalls, "ATM");
      var atmPuts := OfClass(sortedPuts, "ATM");
      if |atmCalls| == 0 || |atmPuts| == 0 {
        return;
      }
      var newRows := EmptyRows(metrics);
      newRows := FillRowByAtmClass(newRows, sortedCalls, "C");
      newRows := FillRowByAtmClass(newRows, sortedPuts, "P");
      assert newRows == NewRows(metrics, numStrikes, chain);
      AppendNewRows(newRows);
    }

    /** The loop at the end of `update`: each metric's matrix gets the metric's new row. */
    method AppendNewRows(newRows: map<string, Row>)
      requires Valid() && newRows.Keys == set m | m in metrics
      modifies this
      ensures Valid() && matrices == AppendRows(old(matrices), metrics, newRows)
    {
      for i := 0 to |metrics|
        invariant matrices.Keys == old(matrices).Keys
        invariant AppendRows(matrices, metrics[i..], newRows) == AppendRows(old(matrices), metrics, newRows)
      {
        var metric := metrics[i];
        assert metrics[i..][1..] == metrics[i + 1..];
        matrices := matrices[metric := matrices[metric] + [newRows[metric]]];
      }
    }

    /** The inner loop of `get_current_matrices`: the latest row split into its call and put sides. */
    method ViewOfRow(latestRow: Row) returns (sides: Sides)
      ensures sides == View(latestRow, columns)
    {
      sides := Sides(map[], map[]);
      for j := 0 to |columns|
        invariant sides == View(latestRow, columns[..j])
      {
        var col := columns[j];
        assert columns[..j + 1][..j] == columns[..j];
        if StartsWith(col, "C_") {
          assert !StartsWith(col, "P_");
        }
        if col in latestRow {
          if StartsWith(col, "C_") {
            sides := sides.(c := sides.c[Lower(col[2..]) := latestRow[col]]);
          } else if StartsWith(col, "P_") {
            sides := sides.(p := sides.p[Lower(col[2..]) := latestRow[col]]);
          }
        }
      }
      assert columns[..|columns|] == columns;
    }

    /** `get_current_matrices` */
    method GetCurrentMatrices() returns (r: map<string, Sides>)
      requires Valid()
      ensures r == CurrentView(matrices, columns)
    {
      if forall m | m in matrices :: |matrices[m]| == 0 {
        return map[];
      }
      r := map[];
      var keys := matrices.Keys;
      while keys != {}
        invariant keys <= matrices.Keys
        invariant r == ViewsOutside(matrices, columns, keys)
        decreases keys
      {
        var metric :| metric in keys;
        ViewsStep(matrices, columns, keys, metric);
        keys := keys - {metric};
        if |matrices[metric]| == 0 {
          continue;
        }
        var sides := ViewOfRow(matrices[metric][|matrices[metric]| - 1]);
        r := r[metric := sides];
      }
      assert matrices.Keys - {} == matrices.Keys;
    }
  }
}
