/**
 * The request-body sanitiser of the trading client (`TradingAPI._sanitize_body`) and the
 * `None` filter its `get` applies to query parameters. The HTTP half of the client is not
 * part of this model.
 */
module TradingClient {
  import opened Wrappers
  import opened Models

  /** `json.dumps` succeeds on a value iff no datetime is nested anywhere inside it. */
  predicate JsonSafe(v: Value)
    decreases v
  {
    match v
    case VTime(_) => false
    case VList(items) => forall i | 0 <= i < |items| :: JsonSafe(items[i])
    case VDict(entries) => forall i | 0 <= i < |entries| :: JsonSafe(entries[i].1)
    case _ => true
  }

  /**
   * `json.loads(json.dumps(v, ensure_ascii=False))`: the serialisable values come back equal
   * (lists stay lists, string-keyed dicts stay dicts in order); a datetime anywhere inside
   * raises TypeError.
   */
  function JsonCopy(v: Value): (r: Result<Value>)
    ensures r.Ok? <==> JsonSafe(v)
    ensures r.Ok? ==> r.value == v
    ensures r.Err? ==> r.error.TypeError?
  {
    if JsonSafe(v) then Ok(v) else Err(TypeError("Object of type datetime is not JSON serializable"))
  }

  /** The entries of `d` whose value is not `None`, in order. */
  function DropNone(d: Dict): (r: Dict)
    decreases |d|
  {
    if |d| == 0 then []
    else DropNone(d[..|d| - 1]) + (if d[|d| - 1].1.VNone? then [] else [d[|d| - 1]])
  }

  /**
   * Dropping `None` keeps exactly the other entries, in their order: the result is a
   * subsequence of the input, holds no `None`, and misses no other entry.
   */
  lemma {:induction false} DropNoneSpec(d: Dict)
    ensures |DropNone(d)| <= |d|
    ensures forall e | e in DropNone(d) :: e in d && !e.1.VNone?
    ensures forall e | e in d && !e.1.VNone? :: e in DropNone(d)
    ensures Keys(DropNone(d)) == KeysOfDropped(d)
    decreases |d|
  {
    if |d| > 0 {
      var init := d[..|d| - 1];
      DropNoneSpec(init);
      forall e | e in d && !e.1.VNone?
        ensures e in DropNone(d)
      {
        if e != d[|d| - 1] {
          var j :| 0 <= j < |d| && d[j] == e;
          assert init[j] == e;
        }
      }
      KeysAppend(DropNone(init), if d[|d| - 1].1.VNone? then [] else [d[|d| - 1]]);
    }
  }

  /** The keys of the entries of `d` whose value is not `None`, in order. */
  function KeysOfDropped(d: Dict): seq<string>
    decreases |d|
  {
    if |d| == 0 then []
    else KeysOfDropped(d[..|d| - 1]) + (if d[|d| - 1].1.VNone? then [] else [d[|d| - 1].0])
  }

  lemma KeysAppend(a: Dict, b: Dict)
    ensures Keys(a + b) == Keys(a) + Keys(b)
  {
  }

  /** Distinct keys stay distinct once `None` entries are dropped. */
  lemma {:induction false} DropNoneUnique(d: Dict)
    requires UniqueKeys(d)
    ensures UniqueKeys(DropNone(d))
    decreases |d|
  {
    if |d| > 0 {
      var init := d[..|d| - 1];
      assert UniqueKeys(init) by {
        forall i, j | 0 <= i < j < |init| ensures init[i].0 != init[j].0 {
          assert init[i] == d[i] && init[j] == d[j];
        }
      }
      DropNoneUnique(init);
      DropNoneSpec(init);
      var r := DropNone(d);
      var last := d[|d| - 1];
      if !last.1.VNone? {
        forall i | 0 <= i < |r| - 1 ensures r[i].0 != last.0 {
          assert r[i] in DropNone(init);
          var j :| 0 <= j < |init| && init[j] == r[i];
          assert d[j] == r[i];
        }
      }
    }
  }

  /** A Python dict: no key twice. */
  predicate WellFormed(v: Value)
  {
    v.VDict? ==> UniqueKeys(v.entries)
  }

  /**
   * `TradingAPI._sanitize_body`: a body that is not a dict raises ValueError; otherwise the
   * entries are visited in order, `None` values are skipped, `str`/`int`/`float`/`bool` values
   * are kept as they are, and every other value is replaced by its JSON round-trip copy.
   */
  method SanitizeBody(body: Value) returns (r: Result<Dict>)
    requires WellFormed(body)
    ensures !body.VDict? ==> r == Err(ValueError("Request body must be a dictionary"))
    ensures body.VDict? ==>
      (r.Ok? <==> forall i | 0 <= i < |body.entries| :: JsonSafe(body.entries[i].1))
    ensures body.VDict? && r.Err? ==> r.error.TypeError?
    ensures r.Ok? ==> r.value == DropNone(body.entries) && UniqueKeys(r.value)
  {
    if !body.VDict? {
      return Err(ValueError("Request body must be a dictionary"));
    }
    var entries := body.entries;
    var sanitized: Dict := [];
    var i := 0;
    while i < |entries|
      invariant 0 <= i <= |entries|
      invariant sanitized == DropNone(entries[..i])
      invariant forall j | 0 <= j < i :: JsonSafe(entries[j].1)
    {
      var (key, value) := entries[i];
      assert entries[..i + 1][..i] == entries[..i];
      if value.VNone? {
      } else if value.VStr? || value.VInt? || value.VReal? || value.VBool? {
        sanitized := sanitized + [(key, value)];
      } else {
        var copy := JsonCopy(value);
        if copy.Err? {
          return Err(copy.error);
        }
        sanitized := sanitized + [(key, copy.value)];
      }
      i := i + 1;
    }
    assert entries[..i] == entries;
    DropNoneUnique(entries);
    r := Ok(sanitized);
  }

  /** `{k: v for k, v in params.items() if v is not None}` in `TradingAPI.get`. */
  function SafeParams(params: Dict): (r: Dict)
    ensures r == DropNone(params)
    ensures forall e | e in r :: !e.1.VNone?
  {
    DropNoneSpec(params);
    DropNoneComprehension(params)
  }

  /** The comprehension, written front to back as Python evaluates it. */
  function DropNoneComprehension(params: Dict): (r: Dict)
    ensures r == DropNone(params)
    decreases |params|
  {
    if |params| == 0 then []
    else
      var rest := DropNoneComprehension(params[1..]);
      DropNoneCons(params);
      (if params[0].1.VNone? then [] else [params[0]]) + rest
  }

  /** `DropNone` read from the front. */
  lemma {:induction false} DropNoneCons(d: Dict)
    requires |d| > 0
    ensures DropNone(d) == (if d[0].1.VNone? then [] else [d[0]]) + DropNone(d[1..])
    decreases |d|
  {
    if |d| > 1 {
      var init := d[..|d| - 1];
      DropNoneCons(init);
      assert init[1..] == d[1..][..|d[1..]| - 1];
      assert init[0] == d[0];
      assert d[1..][|d[1..]| - 1] == d[|d| - 1];
    } else {
      assert d[..0] == [];
      assert d[1..] == [];
    }
  }
}
