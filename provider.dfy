/** The calls both receivers make into the quote provider, recorded as a
    trace, and the tick subscription rule they share. */
module Provider {
  /** At most this many products may be subscribed for ticks. */
  const MaxTickProducts := 50

  /** What a receiver asks of the provider, or waits for, in order. */
  datatype Action =
    | LoginCall
    | EnterMonitorCall
    | LeaveMonitorCall
    | RetryPause
    | RequestTicksCall(no: string)
    | GetStockCall(no: string)
    | RequestKLineCall(no: string)
    | RequestKLineByDateCall(no: string, start: int, end: int)

  /** The RequestTicks calls for the configured products: none at all when
      more than 50 are configured, otherwise one per product in order. */
  function TickRequests(products: seq<string>): seq<Action>
  {
    if |products| > MaxTickProducts then []
    else seq(|products|, i requires 0 <= i < |products| => RequestTicksCall(products[i]))
  }

  /** Tick subscriptions never exceed the provider's 50, and a product is
      subscribed exactly when it is configured and the list is short enough. */
  lemma TickRequestsBounded(products: seq<string>, no: string)
    ensures |TickRequests(products)| <= MaxTickProducts
    ensures RequestTicksCall(no) in TickRequests(products) <==> |products| <= MaxTickProducts && no in products
  {
    var r := TickRequests(products);
    if RequestTicksCall(no) in r {
      var i :| 0 <= i < |r| && r[i] == RequestTicksCall(no);
      assert products[i] == no;
    }
    if |products| <= MaxTickProducts && no in products {
      var i :| 0 <= i < |products| && products[i] == no;
      assert r[i] == RequestTicksCall(no);
    }
  }
}
