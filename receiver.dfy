/** The blocking receiver of skcom/receiver.py: the `ready`/`done`/`stopping`
    flags set by the connection callback and by `stop()`, the phases of
    `start()` (login and monitor, waiting for the connection, subscriptions,
    the daily-candle cache and the one-shot flush), and the tick and candle
    callbacks.

    Provider calls become entries of an action trace, provider results are
    parameters, the clock is given in milliseconds, the cache directory is a
    map from (day number, security id) to a file, and the day is a number. */
module Receiver {
  import opened Py
  import opened Ticks
  import opened Kline
  import opened Provider

  /** `OnConnection` kinds: ready, normal disconnect, abnormal disconnect. */
  const KindReady := 3003
  const KindClosed := 3002
  const KindLost := 3021
  /** The candle buffer is flushed once more than 0.15 s have passed since the last row. */
  const QuietMillis := 150

  /** A connection kind after which the receiver is done. */
  predicate Ends(kind: int)
  {
    kind == KindClosed || kind == KindLost
  }

  /** The connection fields of the receiver: `ready`, `done`, `stopping`,
      whether the quote component `skq` exists, and the provider actions. */
  datatype Link = Link(ready: bool, done: bool, stopping: bool, quote: bool, actions: seq<Action>)

  /** `OnConnection`: 3003 sets `ready`; 3002 and 3021 set `done`. */
  function ConnectionStep(l: Link, kind: int): Link
  {
    if kind == KindReady then l.(ready := true)
    else if Ends(kind) then l.(done := true)
    else l
  }

  /** `stop()`: with a quote component, mark stopping and leave the monitor
      (the disconnect callback then sets `done`); without one, be done at once. */
  function StopStep(l: Link): Link
  {
    if l.quote then l.(stopping := true, actions := l.actions + [LeaveMonitorCall])
    else l.(done := true)
  }

  /** `ctrl_c`: stop unless done or already stopping. */
  function CtrlCStep(l: Link): Link
  {
    if !l.done && !l.stopping then StopStep(l) else l
  }

  /** A second Ctrl+C changes nothing, and the first leaves the monitor at most
      once, exactly when the quote component exists. */
  lemma CtrlCOnce(l: Link)
    ensures CtrlCStep(CtrlCStep(l)) == CtrlCStep(l)
    ensures !l.done && !l.stopping ==>
      (CtrlCStep(l).done || CtrlCStep(l).stopping)
      && multiset(CtrlCStep(l).actions)[LeaveMonitorCall]
         == multiset(l.actions)[LeaveMonitorCall] + (if l.quote then 1 else 0)
  {
  }

  /** A pump batch holds a disconnect (3002 or 3021). */
  predicate Disconnects(batch: seq<int>)
  {
    exists i :: 0 <= i < |batch| && Ends(batch[i])
  }

  /** One `PumpWaitingMessages()`: every queued connection callback of the
      batch is handled before the wait loop looks at the flags again. */
  function Pump(l: Link, batch: seq<int>): (r: Link)
    ensures r.ready <==> l.ready || KindReady in batch
    ensures r.done <==> l.done || Disconnects(batch)
    ensures r.stopping == l.stopping && r.quote == l.quote && r.actions == l.actions
    decreases |batch|
  {
    if batch == [] then l
    else
      assert batch == [batch[0]] + batch[1..];
      assert Disconnects(batch) <==> Ends(batch[0]) || Disconnects(batch[1..]) by {
        if Disconnects(batch[1..]) {
          var i :| 0 <= i < |batch[1..]| && Ends(batch[1..][i]);
          assert Ends(batch[i + 1]);
        }
        if Disconnects(batch) && !Ends(batch[0]) {
          var i :| 0 <= i < |batch| && Ends(batch[i]);
          assert Ends(batch[1..][i - 1]);
        }
      }
      Pump(ConnectionStep(l, batch[0]), batch[1..])
  }

  /** The flags after the wait loop of `start()` (receiver.py:163-166) has
      pumped the batches `batches`: it stops after the first batch that makes
      the receiver ready or done. */
  function Settle(l: Link, batches: seq<seq<int>>): Link
    decreases |batches|
  {
    if l.ready || l.done || batches == [] then l
    else Settle(Pump(l, batches[0]), batches[1..])
  }

  /** A batch that neither readies nor ends the connection. */
  predicate Quiet(batch: seq<int>)
  {
    KindReady !in batch && !Disconnects(batch)
  }

  /** The first batch that is not quiet, or -1. */
  function Decisive(batches: seq<seq<int>>): (k: int)
    ensures -1 <= k < |batches|
    ensures k >= 0 ==> !Quiet(batches[k])
    ensures forall j :: 0 <= j < |batches| && (k < 0 || j < k) ==> Quiet(batches[j])
    decreases |batches|
  {
    if batches == [] then -1
    else if !Quiet(batches[0]) then 0
    else
      var k := Decisive(batches[1..]);
      if k < 0 then -1 else k + 1
  }

  /** The wait is decided by the first batch holding a 3003 or a disconnect,
      and by what that whole batch holds: `ready` exactly when it holds a 3003,
      `done` exactly when it holds a disconnect. A 3003 followed by a 3021 in
      the same batch leaves the receiver done, so `start()` returns. */
  lemma {:induction false} WaitDecidedByBatch(l: Link, batches: seq<seq<int>>)
    requires !l.ready && !l.done
    ensures var k := Decisive(batches);
      var r := Settle(l, batches);
      && (k < 0 ==> r == l)
      && (k >= 0 ==> r.ready == (KindReady in batches[k]) && r.done == Disconnects(batches[k])
                     && r.stopping == l.stopping && r.quote == l.quote && r.actions == l.actions)
    decreases |batches|
  {
    if batches != [] && Quiet(batches[0]) {
      var p := Pump(l, batches[0]);
      assert p == l;
      WaitDecidedByBatch(l, batches[1..]);
    }
  }

  /** The candle requests of `start()` for the products without a cache file. */
  function KlineActions(nos: seq<string>): seq<Action>
  {
    seq(|nos|, i requires 0 <= i < |nos| => RequestKLineCall(nos[i]))
  }

  /** The first clock reading more than 0.15 s after the last candle row, or -1. */
  function StaleAt(readings: seq<int>, mtime: int): (k: int)
    ensures -1 <= k < |readings|
    ensures k >= 0 ==> readings[k] - mtime > QuietMillis
    ensures forall j :: 0 <= j < |readings| && (k < 0 || j < k) ==> readings[j] - mtime <= QuietMillis
    decreases |readings|
  {
    if readings == [] then -1
    else if readings[0] - mtime > QuietMillis then 0
    else
      var k := StaleAt(readings[1..], mtime);
      if k < 0 then -1 else k + 1
  }

  lemma StaleAtFirst(readings: seq<int>, mtime: int, i: int)
    requires 0 <= i <= |readings|
    requires forall j :: 0 <= j < i ==> readings[j] - mtime <= QuietMillis
    requires i < |readings| ==> readings[i] - mtime > QuietMillis
    ensures StaleAt(readings, mtime) == if i == |readings| then -1 else i
  {
  }

  /** receiver.py tests the buffer before its first pump, while the last-row
      time is still 0, so any real clock reading flushes at once, before a
      candle row can arrive: a product resolved upstream is written to the
      cache and handed to the hook with no rows. */
  lemma FlushesBeforeFirstRow(readings: seq<int>, day: int, cache: Cache, no: string,
                              resolve: string -> Option<(string, string)>, limit: int)
    requires |readings| > 0 && readings[0] > QuietMillis
    requires (day, no) !in cache && resolve(no).Some? && (day, resolve(no).value.0) !in cache
    ensures StaleAt(readings, 0) == 0
    ensures var (id, name) := resolve(no).value;
      var loaded := LoadBuffer([], day, cache, [no], resolve);
      && loaded == Some([(id, Series(id, name, []))])
      && var r := FlushCached(cache, day, loaded.value, limit);
      && r.0 == cache[(day, id) := Stored(Series(id, name, []))]
      && r.1 == [Series(id, name, [])]
  {
    var (id, name) := resolve(no).value;
    LoadSingle(day, cache, no, resolve);
    FlushSingle(cache, day, id, Series(id, name, []), limit);
  }

  class QuoteReceiver {
    var ready: bool
    var done: bool
    var stopping: bool
    /** Whether the quote component `skq` has been created. */
    var quote: bool
    var actions: seq<Action>
    /** `config['products']`. */
    var products: seq<string>
    var ticksHook: bool
    var ticksIncludeHistory: bool
    var ticksTotal: map<string, int>
    /** The records handed to the tick hook so far. */
    var ticks: seq<Tick>
    var klineHook: bool
    var klineDaysLimit: int
    /** `daily_kline`: None once flushed. */
    var dailyKline: Option<Buffer>
    /** Time of the last candle row, in milliseconds. */
    var klineLastMtime: int
    /** The series handed to the candle hook so far. */
    var klines: seq<Series>
    /** The cache directory. */
    var cache: Cache

    function Conn(): Link
      reads this
    {
      Link(ready, done, stopping, quote, actions)
    }

    constructor (products: seq<string>, cache: Cache)
      ensures Conn() == Link(false, false, false, false, [])
      ensures this.products == products && this.cache == cache
      ensures ticksTotal == map[] && ticks == [] && klines == []
      ensures !ticksHook && !ticksIncludeHistory && !klineHook && klineDaysLimit == 20
      ensures dailyKline == Some([]) && klineLastMtime == 0
    {
      ready, done, stopping, quote, actions := false, false, false, false, [];
      this.products, this.cache := products, cache;
      ticksHook, ticksIncludeHistory, ticksTotal, ticks := false, false, map[], [];
      klineHook, klineDaysLimit, dailyKline, klineLastMtime, klines := false, 20, Some([]), 0, [];
    }

    /** `hook` is false where Python passes `None`, which clears the hook. */
    method SetKlineHook(hook: bool, daysLimit: int)
      modifies this`klineHook, this`klineDaysLimit
      ensures klineHook == hook && klineDaysLimit == daysLimit
    {
      klineDaysLimit := daysLimit;
      klineHook := hook;
    }

    /** `hook` is false where Python passes `None`, which clears the hook. */
    method SetTicksHook(hook: bool, includeHistory: bool)
      modifies this`ticksHook, this`ticksIncludeHistory
      ensures ticksHook == hook && ticksIncludeHistory == includeHistory
    {
      ticksHook := hook;
      ticksIncludeHistory := includeHistory;
    }

    method Stop()
      modifies this`stopping, this`done, this`actions
      ensures Conn() == StopStep(old(Conn()))
    {
      if quote {
        stopping := true;
        actions := actions + [LeaveMonitorCall];
      } else {
        done := true;
      }
    }

    method CtrlC()
      modifies this`stopping, this`done, this`actions
      ensures Conn() == CtrlCStep(old(Conn()))
    {
      if !done && !stopping {
        Stop();
      }
    }

    method OnConnection(kind: int, code: int)
      modifies this`ready, this`done
      ensures Conn() == ConnectionStep(old(Conn()), kind)
    {
      if kind == KindReady {
        ready := true;
      }
      if kind == KindClosed {
        done := true;
      }
      if kind == KindLost {
        done := true;
      }
    }

    /** The login and EnterMonitor phase of `start()`. Nothing happens without
        a hook; only login code 0 is accepted (2003, "already logged in", ends
        `start()` here). `proceed` says whether `start()` goes on. */
    method Connect(loginCode: int, enterCode: int) returns (proceed: bool)
      modifies this`quote, this`actions
      ensures proceed <==> (ticksHook || klineHook) && loginCode == 0 && enterCode == 0
      ensures !ticksHook && !klineHook ==> quote == old(quote) && actions == old(actions)
      ensures (ticksHook || klineHook) && loginCode != 0 ==>
        quote == old(quote) && actions == old(actions) + [LoginCall]
      ensures (ticksHook || klineHook) && loginCode == 0 ==>
        quote && actions == old(actions) + [LoginCall, EnterMonitorCall]
    {
      if !ticksHook && !klineHook {
        return false;
      }
      actions := actions + [LoginCall];
      if loginCode != 0 {
        return false;
      }
      quote := true;
      actions := actions + [EnterMonitorCall];
      proceed := enterCode == 0;
    }

    /** One `PumpWaitingMessages()`: the batch's connection callbacks are
        handled in order. */
    method PumpMessages(batch: seq<int>)
      modifies this`ready, this`done
      ensures Conn() == Pump(old(Conn()), batch)
    {
      var i := 0;
      while i < |batch|
        invariant 0 <= i <= |batch|
        invariant Pump(Conn(), batch[i..]) == Pump(old(Conn()), batch)
        invariant actions == old(actions) && stopping == old(stopping) && quote == old(quote)
      {
        assert batch[i..][1..] == batch[i + 1..];
        OnConnection(batch[i], 0);
        i := i + 1;
      }
    }

    /** The wait loop of `start()`: pump a batch, then look at the flags,
        until the receiver is ready or done; `start()` goes on only when it is
        ready and not done. */
    method WaitReady(batches: seq<seq<int>>) returns (proceed: bool)
      modifies this`ready, this`done
      ensures Conn() == Settle(old(Conn()), batches)
      ensures proceed <==> ready && !done
    {
      var i := 0;
      while !ready && !done && i < |batches|
        invariant 0 <= i <= |batches|
        invariant Settle(Conn(), batches[i..]) == Settle(old(Conn()), batches)
      {
        assert batches[i..][1..] == batches[i + 1..];
        PumpMessages(batches[i]);
        i := i + 1;
      }
      proceed := ready && !done;
    }

    /** The tick subscriptions of `start()`, made only with a tick hook. */
    method RequestTicks()
      modifies this`actions
      ensures actions == old(actions) + (if ticksHook then TickRequests(products) else [])
    {
      if !ticksHook || |products| > MaxTickProducts {
        return;
      }
      var i := 0;
      while i < |products|
        invariant 0 <= i <= |products|
        invariant actions == old(actions) + TickRequests(products[..i])
      {
        assert TickRequests(products[..i + 1]) == TickRequests(products[..i]) + [RequestTicksCall(products[i])];
        actions := actions + [RequestTicksCall(products[i])];
        i := i + 1;
      }
      assert products[..i] == products;
    }

    /** The buffer loading of `start()` on day `day`: a readable cache file is
        used as it is, otherwise the product is resolved (`resolve` is
        GetStockByNo, None for a non-zero code). A failed resolution ends
        `start()`: `proceed` is false, and the buffer keeps the entries of
        the products before the failing one, each written as it was loaded. */
    method LoadKline(day: int, resolve: string -> Option<(string, string)>) returns (proceed: bool)
      requires dailyKline.Some?
      modifies this`dailyKline
      ensures proceed <==> LoadBuffer(old(dailyKline).value, day, cache, products, resolve).Some?
      ensures proceed <==> FirstUnloadable(day, cache, products, resolve, 0) < 0
      ensures proceed ==> dailyKline == LoadBuffer(old(dailyKline).value, day, cache, products, resolve)
      ensures !proceed ==>
        var k := FirstUnloadable(day, cache, products, resolve, 0);
        0 <= k < |products| && dailyKline == LoadBuffer(old(dailyKline).value, day, cache, products[..k], resolve)
    {
      var d := dailyKline.value;
      var i := 0;
      while i < |products|
        invariant 0 <= i <= |products|
        invariant LoadBuffer(old(dailyKline).value, day, cache, products[..i], resolve) == Some(d)
      {
        LoadBufferNext(old(dailyKline).value, day, cache, products, resolve, i);
        var no := products[i];
        if (day, no) in cache && cache[(day, no)].Stored? {
          d := Put(d, no, cache[(day, no)].series);
        } else {
          var r := resolve(no);
          if r.None? {
            LoadStopsAt(old(dailyKline).value, day, cache, products, resolve, i);
            dailyKline := Some(d);
            return false;
          }
          d := Put(d, r.value.0, Series(r.value.0, r.value.1, []));
        }
        i := i + 1;
      }
      assert products[..i] == products;
      LoadCompletes(old(dailyKline).value, day, cache, products, resolve);
      dailyKline := Some(d);
      proceed := true;
    }

    /** The candle requests of `start()`: products with a cache file for the
        day, readable or not, are not requested. */
    method RequestKline(day: int)
      modifies this`actions
      ensures actions == old(actions) + KlineActions(KlineRequests(day, cache, products))
    {
      var i := 0;
      while i < |products|
        invariant 0 <= i <= |products|
        invariant actions == old(actions) + KlineActions(KlineRequests(day, cache, products[..i]))
      {
        assert products[..i + 1][..i] == products[..i];
        if (day, products[i]) !in cache {
          assert KlineActions(KlineRequests(day, cache, products[..i + 1]))
              == KlineActions(KlineRequests(day, cache, products[..i])) + [RequestKLineCall(products[i])];
          actions := actions + [RequestKLineCall(products[i])];
        }
        i := i + 1;
      }
      assert products[..i] == products;
    }

    /** The polling loop of `start()` over the clock readings of its polls,
        flushing on day `day`. It returns the index of the poll that flushed,
        or -1. The buffer is only ever filled when a candle hook is set. */
    method WatchKline(readings: seq<int>, day: int) returns (flushedAt: int)
      requires klineHook || dailyKline.None? || dailyKline.value == []
      modifies this`cache, this`klines, this`dailyKline
      ensures var k := StaleAt(readings, klineLastMtime);
        if done || old(dailyKline).None? || k < 0 then
          flushedAt == -1 && cache == old(cache) && klines == old(klines) && dailyKline == old(dailyKline)
        else
          var r := FlushCached(old(cache), day, old(dailyKline).value, klineDaysLimit);
          flushedAt == k && cache == r.0 && klines == old(klines) + r.1 && dailyKline == None
    {
      if done || dailyKline.None? {
        return -1;
      }
      var i := 0;
      while i < |readings| && readings[i] - klineLastMtime <= QuietMillis
        invariant 0 <= i <= |readings|
        invariant forall j :: 0 <= j < i ==> readings[j] - klineLastMtime <= QuietMillis
      {
        i := i + 1;
      }
      StaleAtFirst(readings, klineLastMtime, i);
      if i == |readings| {
        return -1;
      }
      FlushBuffer(day);
      flushedAt := i;
    }

    /** The flush: each buffered series, in buffer order, is written to the
        cache newest first unless its file exists, cut to `quotes[0:limit]`
        and handed to the hook; then the buffer is dropped. */
    method FlushBuffer(day: int)
      requires dailyKline.Some?
      requires klineHook || dailyKline.value == []
      modifies this`cache, this`klines, this`dailyKline
      ensures var r := FlushCached(old(cache), day, old(dailyKline).value, klineDaysLimit);
        cache == r.0 && klines == old(klines) + r.1 && dailyKline == None
    {
      var d := dailyKline.value;
      var i := 0;
      while i < |d|
        invariant 0 <= i <= |d|
        invariant var r := FlushCached(old(cache), day, d[..i], klineDaysLimit);
          cache == r.0 && klines == old(klines) + r.1
      {
        assert d[..i + 1][..i] == d[..i];
        var (id, s) := d[i];
        ghost var before := cache;
        var kept := s;
        if (day, id) !in cache {
          kept := s.(quotes := Reverse(s.quotes));
          cache := cache[(day, id) := Stored(kept)];
        }
        var cut := kept.(quotes := KeepFirst(kept.quotes, klineDaysLimit));
        assert (cache, cut) == FlushOne(before, day, id, s, klineDaysLimit);
        klines := klines + [cut];
        i := i + 1;
      }
      assert d[..i] == d;
      dailyKline := None;
    }

    /** `OnNotifyTicks`; `stock` is GetStockByIndex's answer, None for a
        non-zero code. `ok` is false where Python raises: no tick hook. */
    method OnNotifyTicks(stock: Option<Stock>, hms: int, millis: int,
                         bid: int, ask: int, close: int, qty: int) returns (ok: bool)
      modifies this`ticksTotal, this`ticks
      ensures !LiveKept(hms) || stock.None? ==> ok && ticksTotal == old(ticksTotal) && ticks == old(ticks)
      ensures LiveKept(hms) && stock.Some? ==>
        var no := stock.value.no;
        && ticksTotal == Accumulate(old(ticksTotal), no, qty)
        && ok == ticksHook
        && ticks == old(ticks)
           + (if ticksHook
              then [MakeTick(stock.value, hms, millis, bid, ask, close, qty, Total(old(ticksTotal), no) + qty)]
              else [])
    {
      if hms < SessionOpen || (AuctionStart <= hms < AuctionEnd) {
        return true;
      }
      if stock.None? {
        return true;
      }
      var s := stock.value;
      var total := ticksTotal;
      if s.no !in total {
        total := total[s.no := qty];
      } else {
        total := total[s.no := total[s.no] + qty];
      }
      assert total == Accumulate(ticksTotal, s.no, qty);
      ticksTotal := total;
      var vol := total[s.no];
      ok := ticksHook;
      if ticksHook {
        ticks := ticks + [MakeTick(s, hms, millis, bid, ask, close, qty, vol)];
      }
    }

    /** `OnNotifyHistoryTicks`: ticks outside 09:00:00 to 13:25:00 are
        dropped; every other tick counts towards the running volume, and is
        handed to the hook only when history was asked for. */
    method OnNotifyHistoryTicks(stock: Option<Stock>, hms: int, millis: int,
                                bid: int, ask: int, close: int, qty: int) returns (ok: bool)
      modifies this`ticksTotal, this`ticks
      ensures !HistoryKept(hms) || stock.None? ==> ok && ticksTotal == old(ticksTotal) && ticks == old(ticks)
      ensures HistoryKept(hms) && stock.Some? ==>
        var no := stock.value.no;
        && ticksTotal == Accumulate(old(ticksTotal), no, qty)
        && ok == (!ticksIncludeHistory || ticksHook)
        && ticks == old(ticks)
           + (if ticksIncludeHistory && ticksHook
              then [MakeTick(stock.value, hms, millis, bid, ask, close, qty, Total(old(ticksTotal), no) + qty)]
              else [])
    {
      if hms < SessionOpen || hms >= AuctionStart {
        return true;
      }
      if stock.None? {
        return true;
      }
      var s := stock.value;
      var total := ticksTotal;
      if s.no !in total {
        total := total[s.no := qty];
      } else {
        total := total[s.no := total[s.no] + qty];
      }
      assert total == Accumulate(ticksTotal, s.no, qty);
      ticksTotal := total;
      var vol := total[s.no];
      ok := true;
      if ticksIncludeHistory {
        ok := ticksHook;
        if ticksHook {
          ticks := ticks + [MakeTick(s, hms, millis, bid, ask, close, qty, vol)];
        }
      }
    }

    /** `OnNotifyKLineData` at time `now`; `ok` is false where Python raises:
        the buffer is gone, the security is not in it, or the row is malformed.
        The last-row time moves in every case. */
    method OnNotifyKLineData(no: string, data: string, now: int) returns (ok: bool)
      modifies this`dailyKline, this`klineLastMtime
      ensures klineLastMtime == now
      ensures ok <==> old(dailyKline).Some? && no in Keys(old(dailyKline).value) && ParseRow(data).Some?
      ensures ok ==> dailyKline == Some(AppendQuote(old(dailyKline).value, no, ParseRow(data).value))
      ensures !ok ==> dailyKline == old(dailyKline)
    {
      klineLastMtime := now;
      if dailyKline.None? || Get(dailyKline.value, no).None? {
        return false;
      }
      var q := ParseRow(data);
      if q.None? {
        return false;
      }
      dailyKline := Some(AppendQuote(dailyKline.value, no, q.value));
      ok := true;
    }
  }
}
