/** Tick normalisation shared by both receivers: the trading-session filters,
    the packed `HHMMSS` time rendered as `hh:mm:ss.mmm`, price scaling and the
    locally kept running volume per security. */
module Ticks {
  import opened Py

  /** What the provider returns when a security is resolved by its index. */
  datatype Stock = Stock(no: string, name: string, decimals: int)

  /** The record handed to the tick hook; `vol` is the locally accumulated total. */
  datatype Tick = Tick(id: string, name: string, time: string,
                       bid: real, ask: real, close: real, qty: int, vol: int)

  /** First time of the regular session, 09:00:00. */
  const SessionOpen := 90000
  /** The pre-close auction runs from 13:25:00 up to 13:30:00. */
  const AuctionStart := 132500
  const AuctionEnd := 133000

  /** Live-tick filter of both receivers: before the open and inside the auction are dropped. */
  predicate LiveKept(hms: int)
  {
    !(hms < SessionOpen || (AuctionStart <= hms < AuctionEnd))
  }

  /** History-tick filter of receiver.py: before the open and from the auction on are dropped. */
  predicate HistoryKept(hms: int)
  {
    !(hms < SessionOpen || hms >= AuctionStart)
  }

  /** Every history tick receiver.py keeps would also pass the live filter,
      and the two filters differ exactly on ticks from 13:30:00 on. */
  lemma HistoryWindowWithinLive(hms: int)
    ensures HistoryKept(hms) ==> LiveKept(hms)
    ensures LiveKept(hms) && !HistoryKept(hms) <==> hms >= AuctionEnd
  {
  }

  // ---------------------------------------------------------------- time string

  /** `'%02d:%02d:%02d.%03d' % (hh, mm, ss, nTimemillis // 1000)` for the packed
      `HHMMSS` value. Python divides with `/` (a float) and `%d` truncates, which
      for the non-negative times that pass the filters is integer division. */
  function TimeString(hms: int, millis: int): string
    requires hms >= 0
  {
    Clock(hms) + "." + FormatD(millis / 1000, 3)
  }

  /** Two-digit fields of a clock value below 100 print as exactly two digits. */
  lemma TwoDigits(n: nat)
    requires n < 100
    ensures |FormatD(n, 2)| == 2 && AllDigits(FormatD(n, 2)) && ParseInt(FormatD(n, 2)) == Some(n)
  {
    NatStrLength(n, 2);
    FormatDValue(n, 2);
    ParseDigits(FormatD(n, 2));
  }

  lemma ThreeDigits(n: nat)
    requires n < 1000
    ensures |FormatD(n, 3)| == 3 && AllDigits(FormatD(n, 3)) && ParseInt(FormatD(n, 3)) == Some(n)
  {
    NatStrLength(n, 3);
    FormatDValue(n, 3);
    ParseDigits(FormatD(n, 3));
  }

  lemma DigitsHaveNoColon(s: string)
    requires AllDigits(s)
    ensures ':' !in s
  {
    forall i | 0 <= i < |s| ensures s[i] != ':' {
      assert IsDigit(s[i]);
    }
  }

  /** Three digit fields joined by `:` split back into those fields. */
  lemma ClockFieldsSplit(h: string, m: string, s: string)
    requires AllDigits(h) && AllDigits(m) && AllDigits(s)
    ensures Split(h + ":" + m + ":" + s, ":") == [h, m, s]
  {
    assert [h, m, s][1..] == [m, s] && [m, s][1..] == [s];
    assert Join([m, s], ":") == m + ":" + s;
    assert Join([h, m, s], ":") == h + ":" + m + ":" + s;
    DigitsHaveNoColon(h);
    DigitsHaveNoColon(m);
    DigitsHaveNoColon(s);
    SplitJoin([h, m, s], ":");
  }

  /** The packed value is hour * 10000 + minute * 100 + second. */
  lemma HmsDecompose(hms: int)
    requires hms >= 0
    ensures (hms / 10000) * 10000 + (hms / 100 % 100) * 100 + hms % 100 == hms
  {
    assert hms / 100 == (hms / 100 / 100) * 100 + hms / 100 % 100;
    assert hms / 100 / 100 == hms / 10000;
  }

  /** `hh:mm:ss`, the clock part of the time string. */
  function Clock(hms: int): string
    requires hms >= 0
  {
    FormatD(hms / 10000, 2) + ":" + FormatD(hms / 100 % 100, 2) + ":" + FormatD(hms % 100, 2)
  }

  /** The clock part splits on `:` into the hour, minute and second. */
  lemma ClockFields(hms: int)
    requires 0 <= hms < 1000000
    ensures |Clock(hms)| == 8
    ensures var f := Split(Clock(hms), ":");
      && |f| == 3
      && ParseInt(f[0]) == Some(hms / 10000)
      && ParseInt(f[1]) == Some(hms / 100 % 100)
      && ParseInt(f[2]) == Some(hms % 100)
  {
    TwoDigits(hms / 10000);
    TwoDigits(hms / 100 % 100);
    TwoDigits(hms % 100);
    ClockFieldsSplit(FormatD(hms / 10000, 2), FormatD(hms / 100 % 100, 2), FormatD(hms % 100, 2));
  }

  /** The time string is the clock, a dot and three millisecond digits. */
  lemma TimeStringParts(hms: int, millis: int)
    requires 0 <= hms < 1000000 && 0 <= millis < 1000000
    ensures var r := TimeString(hms, millis);
      && |r| == 12 && r[8] == '.' && r[..8] == Clock(hms)
      && r[9..] == FormatD(millis / 1000, 3)
  {
    var c, m := Clock(hms), FormatD(millis / 1000, 3);
    assert |c| == 8 by { ClockFields(hms); }
    assert |m| == 3 by { ThreeDigits(millis / 1000); }
    DotJoin(c, m);
  }

  lemma DotJoin(c: string, m: string)
    ensures var r := c + "." + m;
      |r| == |c| + 1 + |m| && r[|c|] == '.' && r[..|c|] == c && r[|c| + 1..] == m
  {
  }

  /** The time string is `hh:mm:ss.mmm`: twelve characters whose first eight
      split on `:` into three two-digit fields that read back as the hour,
      minute and second packed in `hms`, and whose last three read back as
      `millis // 1000`. So no information of a valid tick time is lost. */
  lemma TimeStringFields(hms: int, millis: int)
    requires 0 <= hms < 1000000 && 0 <= millis < 1000000
    ensures var r := TimeString(hms, millis);
      && |r| == 12 && r[8] == '.'
      && var f := Split(r[..8], ":");
      && |f| == 3
      && ParseInt(f[0]) == Some(hms / 10000)
      && ParseInt(f[1]) == Some(hms / 100 % 100)
      && ParseInt(f[2]) == Some(hms % 100)
      && ParseInt(r[9..]) == Some(millis / 1000)
      && (hms / 10000) * 10000 + (hms / 100 % 100) * 100 + hms % 100 == hms
  {
    TimeStringParts(hms, millis);
    ClockFields(hms);
    ThreeDigits(millis / 1000);
    HmsDecompose(hms);
  }

  // ---------------------------------------------------------------- prices

  /** `math.pow(10, d)` as an exact real. */
  function Pow10Real(d: int): (r: real)
    ensures r > 0.0
    decreases if d < 0 then -d else d
  {
    if d == 0 then 1.0 else if d > 0 then 10.0 * Pow10Real(d - 1) else Pow10Real(d + 1) / 10.0
  }

  /** A provider price `raw` with `decimals` implied decimal places. */
  function Scale(raw: int, decimals: int): real
  {
    raw as real / Pow10Real(decimals)
  }

  // ---------------------------------------------------------------- running volume

  /** The running volume of `id`, zero when the security has not traded yet. */
  function Total(total: map<string, int>, id: string): int
  {
    if id in total then total[id] else 0
  }

  /** `ticks_total[id]` created as `qty` or grown by `qty`; no other entry moves. */
  function Accumulate(total: map<string, int>, id: string, qty: int): (r: map<string, int>)
    ensures r.Keys == total.Keys + {id}
    ensures r[id] == Total(total, id) + qty
    ensures forall k :: k in total && k != id ==> r[k] == total[k]
  {
    if id !in total then total[id := qty] else total[id := total[id] + qty]
  }

  /** The totals after a run of accepted ticks, each given as (id, qty). */
  function AccumulateAll(total: map<string, int>, ticks: seq<(string, int)>): map<string, int>
    decreases |ticks|
  {
    if ticks == [] then total
    else AccumulateAll(Accumulate(total, ticks[0].0, ticks[0].1), ticks[1..])
  }

  /** The sum of the quantities of `id` in a run of ticks. */
  function SumFor(ticks: seq<(string, int)>, id: string): int
    decreases |ticks|
  {
    if ticks == [] then 0
    else (if ticks[0].0 == id then ticks[0].1 else 0) + SumFor(ticks[1..], id)
  }

  /** The running volume of a security is its starting total plus the sum of
      the quantities of its accepted ticks, however they interleave with
      ticks of other securities. */
  lemma {:induction false} TotalIsSum(total: map<string, int>, ticks: seq<(string, int)>, id: string)
    ensures Total(AccumulateAll(total, ticks), id) == Total(total, id) + SumFor(ticks, id)
    decreases |ticks|
  {
    if ticks != [] {
      TotalIsSum(Accumulate(total, ticks[0].0, ticks[0].1), ticks[1..], id);
    }
  }

  /** The hook record for an accepted tick whose updated running volume is `vol`. */
  function MakeTick(stock: Stock, hms: int, millis: int, bid: int, ask: int, close: int,
                    qty: int, vol: int): Tick
    requires hms >= 0
  {
    Tick(stock.no, stock.name, TimeString(hms, millis), Scale(bid, stock.decimals),
         Scale(ask, stock.decimals), Scale(close, stock.decimals), qty, vol)
  }
}
