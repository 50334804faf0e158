/** The daily-candle buffer: parsing a provider row, the per-security series
    kept in an insertion-ordered dict, the two receivers' truncations at flush
    time, receiver.py's day cache, and asyncrecv.py's request date window. */
module Kline {
  import opened Py

  /** One daily candle as stored in the buffer and in the cache file. */
  datatype Quote = Quote(date: string, open: real, high: real, low: real, close: real, volume: int)

  /** A security's buffered candles, `{'id', 'name', 'quotes'}` in the source. */
  datatype Series = Series(id: string, name: string, quotes: seq<Quote>)

  /** The buffer maps a security id to its series, in insertion order. */
  type Buffer = Dict<string, Series>

  /** The column separator of a provider row. */
  const RowSep := ", "

  // ---------------------------------------------------------------- rows

  /** `float(s)` for a plain decimal: optional sign, digits, optional fraction. */
  function ParseFloat(s: string): Option<real>
  {
    var neg := |s| > 0 && s[0] == '-';
    var body := if |s| > 0 && (s[0] == '-' || s[0] == '+') then s[1..] else s;
    var k := Find(body, ".");
    var whole := if k < 0 then body else body[..k];
    var frac := if k < 0 then "" else body[k + 1..];
    if AllDigits(whole) && AllDigits(frac) && |whole| + |frac| > 0 then
      var v := DigitsValue(whole) as real + DigitsValue(frac) as real / Pow10(|frac|) as real;
      Some(if neg then -v else v)
    else None
  }

  /** The row's date column with every `/` turned into `-`. */
  function RowDate(data: string): (date: string)
    ensures '/' !in date
  {
    var d := ReplaceAll(Split(data, RowSep)[0], '/', '-');
    assert forall i :: 0 <= i < |d| ==> d[i] != '/';
    d
  }

  /** The candle of a row `"YYYY/MM/DD, o, h, l, c, v"`, or None where Python
      raises (fewer than six columns, or a column that is not a number). */
  function ParseRow(data: string): (r: Option<Quote>)
    ensures r.Some? ==> r.value.date == RowDate(data)
  {
    var cols := Split(data, RowSep);
    if |cols| < 6 then None
    else
      match (ParseFloat(cols[1]), ParseFloat(cols[2]), ParseFloat(cols[3]), ParseFloat(cols[4]), ParseInt(cols[5]))
      case (Some(o), Some(h), Some(l), Some(c), Some(v)) => Some(Quote(RowDate(data), o, h, l, c, v))
      case _ => None
  }

  /** A row written as its six columns joined by `", "` parses back into those
      columns, the date with `/` replaced by `-`. */
  lemma RowRoundTrip(date: string, o: string, h: string, l: string, c: string, v: string)
    requires forall col :: col in [date, o, h, l, c, v] ==> ',' !in col
    requires ParseFloat(o).Some? && ParseFloat(h).Some? && ParseFloat(l).Some?
    requires ParseFloat(c).Some? && ParseInt(v).Some?
    ensures ParseRow(Join([date, o, h, l, c, v], RowSep))
         == Some(Quote(ReplaceAll(date, '/', '-'), ParseFloat(o).value, ParseFloat(h).value,
                       ParseFloat(l).value, ParseFloat(c).value, ParseInt(v).value))
  {
    var cols := [date, o, h, l, c, v];
    forall i | 0 <= i < |cols| ensures RowSep[0] !in cols[i] {
      assert cols[i] in cols;
    }
    SplitJoin(cols, RowSep);
  }

  /** The buffer after a row for `id` is appended at the end of its series. */
  function AppendQuote(d: Buffer, id: string, q: Quote): (r: Buffer)
    requires id in Keys(d)
    ensures Keys(r) == Keys(d)
    ensures DistinctKeys(d) ==> DistinctKeys(r)
    ensures Get(r, id).Some? && Get(r, id).value.quotes == Get(d, id).value.quotes + [q]
    ensures Get(r, id).value.id == Get(d, id).value.id && Get(r, id).value.name == Get(d, id).value.name
    ensures forall k :: k != id ==> Get(r, k) == Get(d, k)
  {
    var s := Get(d, id).value;
    var r := Put(d, id, s.(quotes := s.quotes + [q]));
    assert DistinctKeys(d) ==> DistinctKeys(r) by {
      if DistinctKeys(d) {
        PutDistinct(d, id, s.(quotes := s.quotes + [q]));
      }
    }
    assert forall k :: k != id ==> Get(r, k) == Get(d, k) by {
      forall k | k != id ensures Get(r, k) == Get(d, k) {
        PutOther(d, id, s.(quotes := s.quotes + [q]), k);
      }
    }
    r
  }

  /** A candle row as `OnNotifyKLineData` receives it: the security, the row
      text, and the clock reading at the callback. */
  datatype KlineRow = KlineRow(no: string, data: string, time: int)

  /** What one `OnNotifyKLineData` does to the buffer (None once it has been
      flushed): a row for a buffered security that parses is appended to its
      series, and any other row leaves the buffer as it is. */
  function AbsorbRow(b: Option<Buffer>, row: KlineRow): Option<Buffer>
  {
    if b.Some? && row.no in Keys(b.value) && ParseRow(row.data).Some?
    then Some(AppendQuote(b.value, row.no, ParseRow(row.data).value))
    else b
  }

  /** The buffer after the callbacks of `rows`, in arrival order. */
  function Absorb(b: Option<Buffer>, rows: seq<KlineRow>): (r: Option<Buffer>)
    ensures r.Some? <==> b.Some?
    decreases |rows|
  {
    if rows == [] then b else Absorb(AbsorbRow(b, rows[0]), rows[1..])
  }

  /** The candles of the rows for security `no` that parse, in arrival order. */
  function RowsFor(rows: seq<KlineRow>, no: string): seq<Quote>
    decreases |rows|
  {
    if rows == [] then []
    else (if rows[0].no == no && ParseRow(rows[0].data).Some? then [ParseRow(rows[0].data).value] else [])
         + RowsFor(rows[1..], no)
  }

  /** Absorbing two runs of rows is absorbing the first, then the second. */
  lemma {:induction false} AbsorbConcat(b: Option<Buffer>, r1: seq<KlineRow>, r2: seq<KlineRow>)
    ensures Absorb(b, r1 + r2) == Absorb(Absorb(b, r1), r2)
    decreases |r1|
  {
    if r1 == [] {
      assert r1 + r2 == r2;
    } else {
      assert (r1 + r2)[0] == r1[0] && (r1 + r2)[1..] == r1[1..] + r2;
      AbsorbConcat(AbsorbRow(b, r1[0]), r1[1..], r2);
    }
  }

  /** Every row for a buffered security that parses lands at the end of that
      security's series, in arrival order; no key is added or dropped, and
      ids and names stay. */
  lemma {:induction false} AbsorbAppends(d: Buffer, rows: seq<KlineRow>)
    ensures Absorb(Some(d), rows).Some?
    ensures Keys(Absorb(Some(d), rows).value) == Keys(d)
    ensures forall no :: no in Keys(d) ==>
      && Get(Absorb(Some(d), rows).value, no).value.quotes == Get(d, no).value.quotes + RowsFor(rows, no)
      && Get(Absorb(Some(d), rows).value, no).value.id == Get(d, no).value.id
      && Get(Absorb(Some(d), rows).value, no).value.name == Get(d, no).value.name
    decreases |rows|
  {
    if rows != [] {
      var d1 := AbsorbRow(Some(d), rows[0]).value;
      AbsorbAppends(d1, rows[1..]);
      forall no | no in Keys(d)
        ensures Get(d1, no).value.quotes
             == Get(d, no).value.quotes
                + (if rows[0].no == no && ParseRow(rows[0].data).Some? then [ParseRow(rows[0].data).value] else [])
        ensures Get(d1, no).value.id == Get(d, no).value.id && Get(d1, no).value.name == Get(d, no).value.name
      {
      }
    }
  }

  // ---------------------------------------------------------------- asyncrecv.py flush

  /** `quotes[-limit:]`: what asyncrecv.py keeps of a series at flush time. */
  function KeepLast(quotes: seq<Quote>, limit: int): seq<Quote>
  {
    Slice(quotes, -limit, |quotes|)
  }

  /** With a non-negative limit, asyncrecv.py keeps the newest `limit` rows
      (all rows when there are fewer), and a limit of 0 keeps everything. */
  lemma KeepLastRows(quotes: seq<Quote>, limit: int)
    requires limit >= 0
    ensures limit == 0 ==> KeepLast(quotes, limit) == quotes
    ensures limit > 0 && limit <= |quotes| ==> KeepLast(quotes, limit) == quotes[|quotes| - limit..]
    ensures limit > |quotes| ==> KeepLast(quotes, limit) == quotes
  {
    SliceTail(quotes, limit);
  }

  /** The series asyncrecv.py hands to the candle hook, in buffer order. */
  function FlushLast(d: Buffer, limit: int): (out: seq<Series>)
  {
    seq(|d|, i requires 0 <= i < |d| => d[i].1.(quotes := KeepLast(d[i].1.quotes, limit)))
  }

  // ---------------------------------------------------------------- receiver.py flush and cache

  /** `quotes[0:limit]`: what receiver.py keeps of a series at flush time. */
  function KeepFirst(quotes: seq<Quote>, limit: int): seq<Quote>
  {
    Slice(quotes, 0, limit)
  }

  /** With a non-negative limit, receiver.py keeps the first `limit` rows
      (all rows when there are fewer), so a limit of 0 keeps none. */
  lemma KeepFirstRows(quotes: seq<Quote>, limit: int)
    requires limit >= 0
    ensures limit == 0 ==> KeepFirst(quotes, limit) == []
    ensures limit <= |quotes| ==> KeepFirst(quotes, limit) == quotes[..limit]
    ensures limit > |quotes| ==> KeepFirst(quotes, limit) == quotes
  {
    SliceHead(quotes, limit);
  }

  /** A day cache file: its series, or a file that is not valid JSON or not UTF-8. */
  datatype CacheFile = Stored(series: Series) | Unreadable

  /** The cache directory: one file per (day number, security id). */
  type Cache = map<(int, string), CacheFile>

  /** What the flush does with one buffered series: on the first flush of the
      day the rows are reversed to newest first and written to the cache;
      the hook receives the (possibly reversed) series cut to `quotes[0:limit]`. */
  function FlushOne(cache: Cache, day: int, id: string, s: Series, limit: int): (r: (Cache, Series))
  {
    var key := (day, id);
    var kept := if key in cache then s else s.(quotes := Reverse(s.quotes));
    var cache' := if key in cache then cache else cache[key := Stored(kept)];
    (cache', kept.(quotes := KeepFirst(kept.quotes, limit)))
  }

  /** The cache and the delivered series after receiver.py flushes the
      buffer `d`, entry by entry in buffer order. */
  function FlushCached(cache: Cache, day: int, d: Buffer, limit: int): (r: (Cache, seq<Series>))
    ensures |r.1| == |d|
    decreases |d|
  {
    if d == [] then (cache, [])
    else
      var prev := FlushCached(cache, day, d[..|d| - 1], limit);
      var last := FlushOne(prev.0, day, d[|d| - 1].0, d[|d| - 1].1, limit);
      (last.0, prev.1 + [last.1])
  }

  /** The flush never overwrites a cache file, and afterwards every buffered
      security has one for that day; files of other days and ids are untouched. */
  lemma {:induction false} FlushCachedFiles(cache: Cache, day: int, d: Buffer, limit: int)
    ensures var c := FlushCached(cache, day, d, limit).0;
      && (forall key :: key in cache ==> key in c && c[key] == cache[key])
      && (forall i :: 0 <= i < |d| ==> (day, d[i].0) in c)
      && (forall key :: key in c && key !in cache ==> key.0 == day && key.1 in Keys(d))
    decreases |d|
  {
    if d != [] {
      var init, id := d[..|d| - 1], d[|d| - 1].0;
      FlushCachedFiles(cache, day, init, limit);
      var prev := FlushCached(cache, day, init, limit).0;
      var c := FlushCached(cache, day, d, limit).0;
      FlushOneFiles(prev, day, id, d[|d| - 1].1, limit);
      assert c == FlushOne(prev, day, id, d[|d| - 1].1, limit).0;
      forall i | 0 <= i < |d| ensures (day, d[i].0) in c {
        if i < |init| {
          assert d[i] == init[i];
        }
      }
      forall key | key in c && key !in cache ensures key.0 == day && key.1 in Keys(d) {
        if key in prev {
          assert key.1 in Keys(init);
          var j :| 0 <= j < |init| && Keys(init)[j] == key.1;
          assert Keys(d)[j] == d[j].0 == init[j].0;
        } else {
          assert Keys(d)[|d| - 1] == id;
        }
      }
    }
  }

  /** Flushing one series keeps every cache file and adds at most the day's
      file for its id. */
  lemma FlushOneFiles(cache: Cache, day: int, id: string, s: Series, limit: int)
    ensures var c := FlushOne(cache, day, id, s, limit).0;
      && (forall key :: key in cache ==> key in c && c[key] == cache[key])
      && (day, id) in c
      && (forall key :: key in c && key !in cache ==> key == (day, id))
  {
  }

  /** Every delivered series holds at most `limit` rows: exactly
      `min(limit, rows)` of them, and none when the limit is 0. */
  lemma {:induction false} FlushCachedLengths(cache: Cache, day: int, d: Buffer, limit: int)
    requires limit >= 0
    ensures var out := FlushCached(cache, day, d, limit).1;
      forall i :: 0 <= i < |d| ==>
        |out[i].quotes| == (if limit < |d[i].1.quotes| then limit else |d[i].1.quotes|)
    decreases |d|
  {
    if d != [] {
      FlushCachedLengths(cache, day, d[..|d| - 1], limit);
      var prev := FlushCached(cache, day, d[..|d| - 1], limit);
      var s := d[|d| - 1].1;
      var quotes := if (day, d[|d| - 1].0) in prev.0 then s.quotes else Reverse(s.quotes);
      KeepFirstRows(quotes, limit);
    }
  }

  /** Loading the buffer for one configured product on a `start`: a readable
      cache file for the day is used as it is; otherwise the security is
      resolved through the provider (`resolve`), and a failed resolution makes
      `start` return (None). An unreadable file does not stop the resolution. */
  function LoadOne(d: Buffer, day: int, cache: Cache, no: string,
                   resolve: string -> Option<(string, string)>): Option<Buffer>
  {
    if (day, no) in cache && cache[(day, no)].Stored? then Some(Put(d, no, cache[(day, no)].series))
    else match resolve(no)
      case None => None
      case Some((id, name)) => Some(Put(d, id, Series(id, name, [])))
  }

  /** The buffer after loading every configured product in order. */
  function LoadBuffer(d: Buffer, day: int, cache: Cache, products: seq<string>,
                      resolve: string -> Option<(string, string)>): Option<Buffer>
    decreases |products|
  {
    if products == [] then Some(d)
    else match LoadBuffer(d, day, cache, products[..|products| - 1], resolve)
      case None => None
      case Some(d') => LoadOne(d', day, cache, products[|products| - 1], resolve)
  }

  /** A product the load cannot take: it has no readable cache file for the
      day, and it does not resolve. */
  predicate Unloadable(day: int, cache: Cache, no: string, resolve: string -> Option<(string, string)>)
  {
    !((day, no) in cache && cache[(day, no)].Stored?) && resolve(no).None?
  }

  /** The first unloadable product from `i` on, or -1. */
  function FirstUnloadable(day: int, cache: Cache, products: seq<string>,
                           resolve: string -> Option<(string, string)>, i: int): (k: int)
    requires 0 <= i <= |products|
    ensures k == -1 || i <= k < |products|
    ensures k >= 0 ==> Unloadable(day, cache, products[k], resolve)
    ensures forall j :: i <= j < |products| && (k < 0 || j < k) ==> !Unloadable(day, cache, products[j], resolve)
    decreases |products| - i
  {
    if i == |products| then -1
    else if Unloadable(day, cache, products[i], resolve) then i
    else FirstUnloadable(day, cache, products, resolve, i + 1)
  }

  /** No configured product is unloadable. */
  predicate AllLoadable(day: int, cache: Cache, products: seq<string>, resolve: string -> Option<(string, string)>)
  {
    forall j :: 0 <= j < |products| ==> !Unloadable(day, cache, products[j], resolve)
  }

  /** Loading the first `i + 1` products is loading product `i` onto the
      load of the first `i`. */
  lemma LoadBufferNext(d: Buffer, day: int, cache: Cache, products: seq<string>,
                       resolve: string -> Option<(string, string)>, i: int)
    requires 0 <= i < |products|
    ensures LoadBuffer(d, day, cache, products[..i + 1], resolve)
         == match LoadBuffer(d, day, cache, products[..i], resolve)
            case None => None
            case Some(d') => LoadOne(d', day, cache, products[i], resolve)
  {
    assert products[..i + 1][..i] == products[..i];
  }

  /** The first `i + 1` products are loadable exactly when the first `i` are
      and product `i` is. */
  lemma AllLoadableNext(day: int, cache: Cache, products: seq<string>,
                        resolve: string -> Option<(string, string)>, i: int)
    requires 0 <= i < |products|
    ensures AllLoadable(day, cache, products[..i + 1], resolve)
        <==> AllLoadable(day, cache, products[..i], resolve) && !Unloadable(day, cache, products[i], resolve)
  {
    assert forall j :: 0 <= j < i ==> products[..i + 1][j] == products[..i][j];
  }

  /** The first unloadable product is the first one that is not loadable. */
  lemma FirstUnloadableAt(day: int, cache: Cache, products: seq<string>,
                          resolve: string -> Option<(string, string)>, i: int)
    requires 0 <= i <= |products|
    requires AllLoadable(day, cache, products[..i], resolve)
    requires i < |products| ==> Unloadable(day, cache, products[i], resolve)
    ensures FirstUnloadable(day, cache, products, resolve, 0) == if i == |products| then -1 else i
  {
    assert forall j :: 0 <= j < i ==> products[..i][j] == products[j];
  }

  /** The load succeeds exactly when no product is unloadable. */
  lemma {:induction false} LoadSucceedsIff(d: Buffer, day: int, cache: Cache, products: seq<string>,
                                           resolve: string -> Option<(string, string)>)
    ensures LoadBuffer(d, day, cache, products, resolve).Some? <==> AllLoadable(day, cache, products, resolve)
    decreases |products|
  {
    if products != [] {
      var n := |products| - 1;
      assert products[..n + 1] == products;
      LoadBufferNext(d, day, cache, products, resolve, n);
      LoadSucceedsIff(d, day, cache, products[..n], resolve);
      AllLoadableNext(day, cache, products, resolve, n);
    }
  }

  /** A load that reaches an unloadable product fails, and that product is
      the first unloadable one. */
  lemma LoadStopsAt(d: Buffer, day: int, cache: Cache, products: seq<string>,
                    resolve: string -> Option<(string, string)>, i: int)
    requires 0 <= i < |products|
    requires LoadBuffer(d, day, cache, products[..i], resolve).Some?
    requires Unloadable(day, cache, products[i], resolve)
    ensures LoadBuffer(d, day, cache, products, resolve).None?
    ensures FirstUnloadable(day, cache, products, resolve, 0) == i
  {
    LoadSucceedsIff(d, day, cache, products[..i], resolve);
    FirstUnloadableAt(day, cache, products, resolve, i);
    LoadSucceedsIff(d, day, cache, products, resolve);
  }

  /** A load that completes meets no unloadable product. */
  lemma LoadCompletes(d: Buffer, day: int, cache: Cache, products: seq<string>,
                      resolve: string -> Option<(string, string)>)
    requires LoadBuffer(d, day, cache, products, resolve).Some?
    ensures FirstUnloadable(day, cache, products, resolve, 0) == -1
  {
    LoadSucceedsIff(d, day, cache, products, resolve);
    assert products[..|products|] == products;
    FirstUnloadableAt(day, cache, products, resolve, |products|);
  }

  /** The products whose candles receiver.py requests upstream, in order. */
  function KlineRequests(day: int, cache: Cache, products: seq<string>): seq<string>
    decreases |products|
  {
    if products == [] then []
    else
      var prev := KlineRequests(day, cache, products[..|products| - 1]);
      var no := products[|products| - 1];
      if (day, no) in cache then prev else prev + [no]
  }

  /** A product is requested upstream exactly when it has no cache file for
      the day, readable or not. */
  lemma {:induction false} RequestedIffNoCacheFile(day: int, cache: Cache, products: seq<string>, no: string)
    ensures no in KlineRequests(day, cache, products) <==> no in products && (day, no) !in cache
    decreases |products|
  {
    if products != [] {
      var init := products[..|products| - 1];
      RequestedIffNoCacheFile(day, cache, init, no);
      assert products == init + [products[|products| - 1]];
    }
  }

  lemma FlushSingle(cache: Cache, day: int, id: string, s: Series, limit: int)
    ensures FlushCached(cache, day, [(id, s)], limit)
         == (FlushOne(cache, day, id, s, limit).0, [FlushOne(cache, day, id, s, limit).1])
  {
    assert [(id, s)][..0] == [];
    assert FlushCached(cache, day, [(id, s)][..0], limit) == (cache, []);
    var last := FlushOne(cache, day, id, s, limit);
    assert [] + [last.1] == [last.1];
  }

  lemma LoadSingle(day: int, cache: Cache, no: string, resolve: string -> Option<(string, string)>)
    ensures LoadBuffer([], day, cache, [no], resolve) == LoadOne([], day, cache, no, resolve)
    ensures KlineRequests(day, cache, [no]) == if (day, no) in cache then [] else [no]
  {
    assert [no][..0] == [];
    assert LoadBuffer([], day, cache, [no][..0], resolve) == Some([]);
    assert KlineRequests(day, cache, [no][..0]) == [];
  }

  /** The cache round trip: after a first run flushes a freshly fetched
      series, a second run on the same day loads it from the cache, requests
      nothing upstream, rewrites nothing, and hands the hook the very same
      rows in the same order. */
  lemma CacheRoundTrip(cache: Cache, day: int, s: Series, limit: int,
                       resolve: string -> Option<(string, string)>)
    requires (day, s.id) !in cache
    ensures var first := FlushCached(cache, day, [(s.id, s)], limit);
      && KlineRequests(day, first.0, [s.id]) == []
      && var loaded := LoadBuffer([], day, first.0, [s.id], resolve);
      && loaded.Some?
      && FlushCached(first.0, day, loaded.value, limit) == first
  {
    var kept := s.(quotes := Reverse(s.quotes));
    FlushSingle(cache, day, s.id, s, limit);
    var first := FlushCached(cache, day, [(s.id, s)], limit);
    assert first.0 == cache[(day, s.id) := Stored(kept)];
    LoadSingle(day, first.0, s.id, resolve);
    assert LoadBuffer([], day, first.0, [s.id], resolve) == Some([(s.id, kept)]);
    FlushSingle(first.0, day, s.id, kept, limit);
  }

  // ---------------------------------------------------------------- asyncrecv.py request window

  /** Days back to the last day of the request: yesterday before 15:00, today from 15:00. */
  function EndOffset(hour: int, minute: int): nat
  {
    if hour * 100 + minute < 1500 then 1 else 0
  }

  /** The `(start, end)` day numbers of asyncrecv.py's candle request on day
      `today` at `hour:minute`: the start goes back a further `limit + 14` days
      to cover weekends and holidays. */
  function RequestWindow(today: int, hour: int, minute: int, limit: int): (w: (int, int))
    requires 0 <= minute < 60
    ensures hour < 15 ==> w.1 == today - 1
    ensures hour >= 15 ==> w.1 == today
    ensures w.1 - w.0 == limit + 14
  {
    var endOffset := EndOffset(hour, minute);
    var startOffset := endOffset + limit + 14;
    (today - startOffset, today - endOffset)
  }
}
