/**
 * The cash-order request body of the WebSocket client's trader (`KISTrader.place_order`).
 * The access token, headers and the POST itself are external; the model yields the body
 * that would be sent, or the exception raised before any request.
 */
module WscOrder {
  import opened Wrappers
  import opened Text
  import opened Models

  const LimitOrder: string := "01"
  const OrderKeys: seq<string> := ["CANO", "ACNT_PRDT_CD", "PDNO", "ORD_DVSN", "ORD_QTY", "ORD_UNPR"]

  lemma OrderKeysDistinct()
    ensures Distinct(OrderKeys)
  {
  }

  /** `account_no.split('-')`: `[0]` is the account, `[1]` the product code. */
  function AccountParts(accountNo: string): seq<string>
  {
    Split(accountNo, '-')
  }

  /** An account number with one dash is the two parts it is split into, joined by that dash. */
  lemma AccountRoundTrip(accountNo: string)
    requires Occurrences(accountNo, '-') == 1
    ensures var p := AccountParts(accountNo);
      |p| == 2 && p[0] + "-" + p[1] == accountNo && '-' !in p[0] && '-' !in p[1]
  {
    SplitShape(accountNo, '-');
    JoinSplit(accountNo, '-');
    var p := AccountParts(accountNo);
    assert p[1..] == [p[1]];
  }

  /**
   * `KISTrader.place_order`: the body holds the account parts, the stock code, the order
   * type, the quantity as text and a unit price of "0"; a limit order ("01") replaces the price
   * with the `price` keyword argument and raises ValueError when it is missing. An account
   * number without a dash raises IndexError while the body is built.
   */
  method PlaceOrder(accountNo: string, stockCode: string, orderType: string, quantity: int, price: Option<int>)
    returns (r: Result<Dict>)
    ensures r.Err? <==> |AccountParts(accountNo)| < 2 || (orderType == LimitOrder && price.None?)
    ensures |AccountParts(accountNo)| < 2 ==> r == Err(IndexError)
    ensures |AccountParts(accountNo)| >= 2 && orderType == LimitOrder && price.None? ==>
      r == Err(ValueError("Limit order requires 'price'."))
    ensures r.Ok? ==>
      var body := r.value;
      var parts := AccountParts(accountNo);
      Keys(body) == OrderKeys && UniqueKeys(body)
      && Get(body, "CANO") == Some(VStr(parts[0]))
      && Get(body, "ACNT_PRDT_CD") == Some(VStr(parts[1]))
      && Get(body, "PDNO") == Some(VStr(stockCode))
      && Get(body, "ORD_DVSN") == Some(VStr(orderType))
      && Get(body, "ORD_QTY") == Some(VStr(IntToString(quantity)))
      && Get(body, "ORD_UNPR") == Some(VStr(if orderType == LimitOrder then IntToString(price.value) else "0"))
  {
    var parts := AccountParts(accountNo);
    if |parts| < 2 {
      return Err(IndexError);
    }
    var body: Dict := [("CANO", VStr(parts[0])), ("ACNT_PRDT_CD", VStr(parts[1])), ("PDNO", VStr(stockCode)),
                       ("ORD_DVSN", VStr(orderType)), ("ORD_QTY", VStr(IntToString(quantity))), ("ORD_UNPR", VStr("0"))];
    if orderType == LimitOrder {
      if price.None? {
        return Err(ValueError("Limit order requires 'price'."));
      }
      body := body[5 := ("ORD_UNPR", VStr(IntToString(price.value)))];
    }
    assert Keys(body) == OrderKeys;
    OrderKeysDistinct();
    UniqueFromKeys(body);
    GetAt(body, 0);
    GetAt(body, 1);
    GetAt(body, 2);
    GetAt(body, 3);
    GetAt(body, 4);
    GetAt(body, 5);
    r := Ok(body);
  }
}
