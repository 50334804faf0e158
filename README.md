# skcom receivers, config encryption and the sample bot, in Dafny

skcom connects to a broker's quote provider (a COM component), logs in, enters the
quote monitor, subscribes ticks and daily candles for the configured products, and
hands them to user hooks. This project models the logic of that system that can
be stated exactly once the provider's answers and the clock are given as
parameters:

- **asyncrecv.dfy** (`AsyncRecv`): the asynchronous receiver of `skcom/asyncrecv.py`.
  It covers the lifecycle state machine (login, monitor, retry budget, stop, Ctrl+C)
  and the root loop that re-runs a connection round while the state is IDLE or
  RETRY. It also covers the tick callbacks and running volume, name resolution and
  candle requests with their date window, and the one-shot candle flush. The class
  `AsyncQuoteReceiver` keeps the source's fields. Each method is proved equal to a
  step function on a `Cycle` value, and the lemmas about the budget, the traces
  and the flush are proved over those functions.
- **receiver.dfy** (`Receiver`): the blocking receiver of `skcom/receiver.py`. It
  covers the `ready`/`done`/`stopping` flags, the phases of `start()`, the day
  cache of candles (a map from (day, id) to a file), the flush that reverses new
  series and writes them to the cache, and the tick and candle callbacks.
- **sandbox.dfy** (`Sandbox`): the prototype receiver of
  `skcom/sandbox/asyncrecv.py`. Its rounds and its root loop are proved to be the
  receiver's rounds and loop without STOP_DONE.
- **ticks.dfy** (`Ticks`): the live and history session filters, the
  `hh:mm:ss.mmm` time string, price scaling, and the per-security running volume.
- **kline.dfy** (`Kline`): parsing a candle row, the insertion-ordered candle
  buffer, the two opposite truncations, the day cache, and the request window.
- **provider.dfy** (`Provider`): the provider calls, recorded as a trace, and the
  50-product tick subscription rule.
- **crypto.dfy** (`Crypto`) and **utf8.dfy** (`Utf8`): the config encryption of
  `skcom/crypto.py`. It covers the salted, truncated hash, the `L<n>:<plain>:`
  framing, the `-` and `+` padding, the `P01:` policy tag, and decryption. UTF-8
  is modelled concretely. SHA-256 and AES-CBC are parameters, with the
  guarantees of the library stated in `Crypto.Sound`. Decrypting an encrypted
  text is proved to give the text back.
- **bot.dfy** (`Bot`): the notification bot of `skcom/samples/bot.py`. It covers
  step lookup over sorted levels, the stable sort, the moving-average and volume
  levels, shaking detection, and the notice interval ladder 10, 30, 60, 90, and
  so on. The class `StockBot` updates the per-security dictionaries. Validity of
  the bot's state is preserved by every tick and every candle set.
- **py.dfy** (`Py`): the Python built-ins the source depends on. These are
  slices with negative bounds, `str.find`, `split`, `replace`, `str(int)`,
  `int(str)`, `'%0Nd'`, `list.reverse` and the insertion-ordered `dict`.

Provider calls become entries of an action trace (`Provider.Action`). A provider
result becomes a parameter. The clock is given in milliseconds and the date as a
day number. An asyncio event becomes a boolean field.

Some behaviour of the code is easy to misread, and the model states it as the
code has it:

- The asynchronous receiver stops on the fourth consecutive failure, when the
  retry count reaches 4 (4 > `RETRY_LIMIT` 3), after three pauses
  (`AsyncRecv.FailuresSpendBudget`, `Sandbox.FourFailuresStop`). For login
  failures this needs the corrected `retry()` of the Findings table. For
  EnterMonitor failures it holds for the code as written too
  (`AsyncRecv.AsWrittenAfterGoodLogins`).
- Any existing cache file for the day suppresses the upstream candle request,
  even a file that fails to load (`Kline.RequestedIffNoCacheFile`).
- The `retry()` that `OnConnection` starts on a non-zero code is never
  awaited, so it does nothing (`AsyncRecv.AsyncQuoteReceiver.OnConnection`).
- `stop()` in MONITOR skips LeaveMonitor and defers nothing
  (`AsyncRecv.AsyncQuoteReceiver.Stop`).
- receiver.py tests the buffer before its first pump, while the last-row time is
  still 0, so it flushes before any candle row arrives. A product resolved upstream
  is cached and delivered with no rows (`Receiver.FlushesBeforeFirstRow`).
- A failed resolution in receiver.py keeps the entries already loaded for the
  products before it (`Receiver.QuoteReceiver.LoadKline`).
- A Ctrl+C in the pause after login ends the root loop in STOP_DONE, although
  the monitor thread still calls EnterMonitor (`AsyncRecv.CtrlCDuringPause`).

## Model

| member | source | states |
|---|---|---|
| Py.Bound | skcom/asyncrecv.py:384 | a slice bound counts from the end when negative and is clamped into `0..n` |
| Py.Slice | skcom/receiver.py:289 | a slice is never longer than the list it cuts |
| Py.SliceHead | skcom/receiver.py:289 | `s[0:n]` keeps the first `min(n, len(s))` elements |
| Py.SliceTail | skcom/asyncrecv.py:384 | `s[-n:]` keeps the last `min(n, len(s))` elements, and `s[-0:]` keeps all of them |
| Py.Find | skcom/crypto.py:74 | `find` returns -1 or an index where the pattern occurs, and no occurrence lies before it |
| Py.FindFirst | skcom/crypto.py:74 | when nothing before index `n` is `x` and `s[n]` is `x`, `find` returns `n` |
| Py.Split | skcom/receiver.py:502 | `split` gives at least one part, and joining the parts with the separator gives the string back |
| Py.SplitJoin | skcom/receiver.py:502 | splitting a joined list gives the parts back when the separator's first element occurs in no part |
| Py.ReplaceAll | skcom/receiver.py:503 | `replace` keeps the length and swaps exactly the replaced characters |
| Py.NatStr | skcom/crypto.py:50 | `str(n)` of a natural is a non-empty run of digits |
| Py.ParseDigits | skcom/crypto.py:75 | `int()` of a non-empty run of digits is the value of those digits |
| Py.NatStrValue | skcom/crypto.py:50 | the digits of `str(n)` have value `n` |
| Py.ParseStr | skcom/crypto.py:75 | `int(str(n)) == n` for every integer |
| Py.PadLeft | skcom/asyncrecv.py:516 | padding reaches the width, keeps the text at the end and fills the front with the pad character |
| Py.FormatDValue | skcom/asyncrecv.py:516 | a `%0Nd` field of a natural is digits whose value is the number, with length max(N, digits) |
| Py.NatStrLength | skcom/asyncrecv.py:516 | a number below 10^w prints in at most w digits |
| Py.LeadingZeros | skcom/asyncrecv.py:516 | leading zeros do not change the value of a digit string |
| Py.ZerosValue | skcom/asyncrecv.py:516 | a string of zeros is digits of value 0 |
| Py.Reverse | skcom/receiver.py:277 | reversing keeps the length, and element `i` of the result is element `len-1-i` of the original |
| Py.ReverseReverse | skcom/receiver.py:277 | reversing twice restores the list |
| Py.Keys | skcom/asyncrecv.py:336-340 | the keys of a dict are its items' keys, in insertion order |
| Py.Get | skcom/asyncrecv.py:347 | a lookup fails exactly when the key is absent |
| Py.Put | skcom/asyncrecv.py:336-340 | after `d[k] = v`, `d[k]` is `v`; an existing key keeps its place and a new key goes last |
| Py.PutOther | skcom/asyncrecv.py:336-340 | `d[k] = v` leaves every other key's value as it was |
| Py.PutDistinct | skcom/asyncrecv.py:336-340 | assignment keeps the keys distinct |
| Ticks.HistoryWindowWithinLive | skcom/receiver.py:397-398 | every history tick kept would also pass the live filter; the filters differ exactly from 13:30:00 on |
| Ticks.TwoDigits | skcom/receiver.py:477 | `%02d` of a field below 100 is two digits that read back as the field |
| Ticks.ThreeDigits | skcom/receiver.py:477 | `%03d` of a value below 1000 is three digits that read back as the value |
| Ticks.ClockFieldsSplit | skcom/receiver.py:477 | three digit fields joined by `:` split back into those fields |
| Ticks.HmsDecompose | skcom/receiver.py:472-476 | hour, minute and second recompose the packed `HHMMSS` value |
| Ticks.ClockFields | skcom/receiver.py:472-477 | `hh:mm:ss` has 8 characters and splits into fields that read back as hour, minute and second |
| Ticks.TimeStringParts | skcom/receiver.py:477 | the time string is 12 characters: the clock, a dot and the millisecond field |
| Ticks.TimeStringFields | skcom/receiver.py:472-477 | the time string keeps the hour, minute, second and `millis // 1000` of every valid tick time |
| Ticks.Pow10Real | skcom/receiver.py:480 | the price divisor `10 ** decimals` is positive |
| Ticks.Accumulate | skcom/receiver.py:466-469 | the total of `id` becomes old + qty (qty when absent); the key set gains `id`; no other total moves |
| Ticks.TotalIsSum | skcom/receiver.py:466-469 | after any run of ticks, a security's total is its start plus the sum of its own quantities |
| Kline.RowDate | skcom/receiver.py:502-503 | the stored date contains no `/` |
| Kline.ParseRow | skcom/receiver.py:502-516 | a parsed row's date is the first column with `/` turned into `-` |
| Kline.RowRoundTrip | skcom/receiver.py:502-516 | a row of six columns joined by `", "` parses into those columns |
| Kline.AppendQuote | skcom/receiver.py:517-518 | the row goes at the end of that security's quotes; the keys, their order and every other series stay as they were |
| Kline.KeepLastRows | skcom/asyncrecv.py:384 | asyncrecv.py keeps the newest `limit` rows, or all rows when `limit` is 0 or exceeds them |
| Kline.KeepFirstRows | skcom/receiver.py:289 | receiver.py keeps the first `limit` rows, and none when `limit` is 0 |
| Kline.FlushCached | skcom/receiver.py:272-292 | the flush hands the hook one series per buffered security |
| Kline.FlushCachedFiles | skcom/receiver.py:272-285 | the flush never overwrites a cache file; afterwards every buffered security has its file for the day; it adds no other file |
| Kline.FlushOneFiles | skcom/receiver.py:273-285 | one series keeps every file and adds at most that day's file for its id |
| Kline.FlushCachedLengths | skcom/receiver.py:289 | every delivered series holds exactly `min(limit, rows)` rows |
| Kline.AbsorbConcat | skcom/asyncrecv.py:544-568 | absorbing two runs of rows is absorbing the first, then the second |
| Kline.AbsorbAppends | skcom/asyncrecv.py:544-568 | absorbing rows keeps the keys, ids and names, and appends to each series its own parsed rows in arrival order |
| Kline.FirstUnloadable | skcom/receiver.py:211-233 | the first product with neither a readable cache file nor a resolution, or -1; every product before it is loadable |
| Kline.LoadSucceedsIff | skcom/receiver.py:211-238 | the load succeeds exactly when every product has a readable cache file or resolves |
| Kline.LoadStopsAt | skcom/receiver.py:230-233 | a product with no readable cache file that fails to resolve ends the whole load, and it is the first unloadable product |
| Kline.LoadCompletes | skcom/receiver.py:211-238 | a load that completes meets no unloadable product |
| Kline.RequestedIffNoCacheFile | skcom/receiver.py:242-252 | a product is requested upstream exactly when it is configured and has no cache file for the day, readable or not |
| Kline.CacheRoundTrip | skcom/receiver.py:211-292 | after a first run writes a fetched series, a second run that day requests nothing, rewrites nothing and delivers the same rows |
| Kline.RequestWindow | skcom/asyncrecv.py:313-320 | the window ends yesterday before 15:00 and today from 15:00, and spans `limit + 14` days |
| Provider.TickRequestsBounded | skcom/asyncrecv.py:291-304 | at most 50 subscriptions; a product is subscribed exactly when configured and at most 50 are configured |
| AsyncRecv.CtrlCIdempotent | skcom/asyncrecv.py:131-135 | a second Ctrl+C changes nothing; the first stops, and it issues LeaveMonitor exactly when the monitor was ready |
| AsyncRecv.AlreadyLoggedInIsSuccess | skcom/asyncrecv.py:194-201 | login code 2003 behaves as 0 and reaches LOGIN_DONE; any other failing code ends in RETRY or STOP |
| AsyncRecv.RoundActions | skcom/asyncrecv.py:188-226 | a round logs in, calls EnterMonitor after a good login, and pauses only for a retry within budget; a failed round counts one retry and ends; a round interrupted by Ctrl+C adds no pause and no LeaveMonitor. Login failures end their round only with the corrected `retry()` (see Findings) |
| AsyncRecv.FailedRoundCounts | skcom/asyncrecv.py:247-257 | a failed round counts one retry, pauses only within budget, and never leaves the monitor |
| AsyncRecv.FailuresSpendBudget | skcom/asyncrecv.py:247-257 | with the corrected `retry()` (see Findings), consecutive failures from count `n` retry until the count passes 3; from 0 that is three pauses and STOP_DONE at count 4 |
| AsyncRecv.AsWrittenAfterGoodLogins | skcom/asyncrecv.py:157-257 | while every login is accepted, the loop with the source's `retry()` runs exactly as the corrected one, so the budget holds as written for EnterMonitor failures |
| AsyncRecv.RunNeverLeaves | skcom/asyncrecv.py:157-257 | the root loop by itself never calls LeaveMonitor |
| AsyncRecv.CtrlCDuringPause | skcom/asyncrecv.py:172-239 | a Ctrl+C in the pause after login still lets the thread call EnterMonitor, but the round ends in STOP with no LeaveMonitor and no retry, and the root loop ends in STOP_DONE |
| AsyncRecv.LoginFailureStalls | skcom/asyncrecv.py:247-257 | with `retry()` as written, a failed login within budget leaves RETRY with the event unset, so the round never ends |
| AsyncRecv.LoginFailureRetries | skcom/asyncrecv.py:247-257 | with the event set on retry, every failed login ends its round in RETRY (STOP over budget) |
| AsyncRecv.ResolveKeys | skcom/asyncrecv.py:324-340 | resolution keeps every key and gives each resolved product's id an empty series under its resolved name; every new key comes from a resolved product |
| AsyncRecv.RequestedIffBuffered | skcom/asyncrecv.py:344-364 | a candle request is issued exactly for configured, buffered products, over the one window |
| AsyncRecv.QuietAt | skcom/asyncrecv.py:367-375 | the flush poll is quiet, its reading at least 0.15 s after the last row delivered up to it, and no earlier poll is quiet |
| AsyncRecv.PollingFlushes | skcom/asyncrecv.py:367-394 | the polling flushes exactly at the first quiet poll, with every row delivered up to that poll absorbed and the last-row time that of the last of them; with no quiet poll every row is absorbed and nothing flushes |
| AsyncRecv.FlushHoldsRows | skcom/asyncrecv.py:376-385 | at the flush the buffer has the loaded keys, and each series holds its earlier rows followed by its own rows from every poll up to then, in arrival order |
| AsyncRecv.FlushesBeforeFirstRow | skcom/asyncrecv.py:96 | the last-row time starts at 0, so when no row arrives during the first sleep the first poll flushes the buffer as it stands |
| AsyncRecv.AsyncQuoteReceiver.constructor | skcom/asyncrecv.py:54-96 | IDLE, count 0, no hooks, limit 20, an empty buffer, last-row time 0 |
| AsyncRecv.AsyncQuoteReceiver.SetKlineHook | skcom/asyncrecv.py:117-120 | sets or, for `None`, clears the candle hook, and sets its day limit |
| AsyncRecv.AsyncQuoteReceiver.SetTicksHook | skcom/asyncrecv.py:122-125 | sets or, for `None`, clears the tick hook, and sets whether history is included |
| AsyncRecv.AsyncQuoteReceiver.ChangeState | skcom/asyncrecv.py:276-287 | the state becomes the given state |
| AsyncRecv.AsyncQuoteReceiver.Stop | skcom/asyncrecv.py:259-274 | LeaveMonitor only from MONITOR_DONE, the event set, state STOP |
| AsyncRecv.AsyncQuoteReceiver.Retry | skcom/asyncrecv.py:247-257 | count + 1; over 3 it stops, otherwise it pauses, becomes RETRY and sets the event (the corrected `retry()`, see Findings) |
| AsyncRecv.AsyncQuoteReceiver.CtrlC | skcom/asyncrecv.py:131-135 | stops unless already STOP or STOP_DONE |
| AsyncRecv.AsyncQuoteReceiver.ConnectLogin | skcom/asyncrecv.py:194-201 | codes 0 and 2003 give LOGIN_DONE; any other gives LOGIN_FAILED, then a retry |
| AsyncRecv.AsyncQuoteReceiver.ConnectMonitor | skcom/asyncrecv.py:207-217 | EnterMonitor in MONITOR; a failure sets the event and retries |
| AsyncRecv.AsyncQuoteReceiver.OnConnection | skcom/asyncrecv.py:449-477 | kind 3003 gives MONITOR_DONE, count 0 and the event set; nothing else changes |
| AsyncRecv.AsyncQuoteReceiver.RootTask | skcom/asyncrecv.py:157-168 | the loop runs rounds while IDLE or RETRY, turns RETRY into IDLE, and ends in STOP_DONE; rounds follow the corrected `retry()` (see Findings) |
| AsyncRecv.AsyncQuoteReceiver.Request | skcom/asyncrecv.py:228-243 | subscribes only from MONITOR_DONE, then requests ticks and candles; the buffer the names filled takes the rows delivered during the polls, and the first quiet poll flushes it |
| AsyncRecv.AsyncQuoteReceiver.RequestTicks | skcom/asyncrecv.py:289-304 | one RequestTicks per product in order, none when more than 50 |
| AsyncRecv.AsyncQuoteReceiver.RequestKline | skcom/asyncrecv.py:306-365 | name lookups fill the buffer, then buffered products are requested over the window |
| AsyncRecv.AsyncQuoteReceiver.LoadNames | skcom/asyncrecv.py:324-341 | one lookup per product; each product that resolves gets an empty series |
| AsyncRecv.AsyncQuoteReceiver.RequestCandles | skcom/asyncrecv.py:344-365 | a candle request per product that is a buffer key |
| AsyncRecv.AsyncQuoteReceiver.HandleKline | skcom/asyncrecv.py:367-394 | no flush in RETRY or STOP; otherwise each poll's rows are absorbed before its quiet test, and at the first quiet poll each series' last `limit` rows go to the hook when one is set, and the buffer is dropped; a buffer already dropped raises |
| AsyncRecv.AsyncQuoteReceiver.OnNotifyTicks | skcom/asyncrecv.py:479-529 | filtered or unresolved ticks change nothing; otherwise the total grows by qty and the hook gets the new total |
| AsyncRecv.AsyncQuoteReceiver.OnNotifyHistoryTicks | skcom/asyncrecv.py:531-542 | without history nothing changes; with it, a kept tick of a resolved security adds its quantity to the total, and the hook gets the entry with the new total |
| AsyncRecv.AsyncQuoteReceiver.PumpKlineRows | skcom/asyncrecv.py:172-179 | the rows one pump delivers are handled in arrival order: the buffer absorbs them and the last-row time becomes the last row's |
| AsyncRecv.AsyncQuoteReceiver.OnNotifyKLineData | skcom/asyncrecv.py:544-568 | the last-row time moves; the row is appended exactly when the buffer holds the security and the row parses |
| Receiver.CtrlCOnce | skcom/receiver.py:85-92 | a second Ctrl+C changes nothing; the first leaves the monitor once, exactly when the quote component exists |
| Receiver.Pump | skcom/receiver.py:166 | after one pump batch, `ready` is set exactly when it was set or the batch holds a 3003, and `done` exactly when it was set or the batch holds a disconnect |
| Receiver.Decisive | skcom/receiver.py:163-166 | the index of the first batch holding a 3003 or a disconnect; every batch before it holds neither |
| Receiver.WaitDecidedByBatch | skcom/receiver.py:162-169 | the wait is decided by the first batch holding a 3003 or a disconnect, as a whole: ready exactly when it holds a 3003, done exactly when it holds a disconnect, so 3003 and 3021 in one batch end `start()` |
| Receiver.StaleAt | skcom/receiver.py:263-265 | the flush happens at the first poll more than 0.15 s after the last row |
| Receiver.FlushesBeforeFirstRow | skcom/receiver.py:263-265 | the last-row time is still 0 at the first test, so the first reading flushes: a product resolved upstream is cached and handed to the hook with no rows |
| Receiver.QuoteReceiver.constructor | skcom/receiver.py:33-63 | flags down, no hooks, limit 20, an empty buffer, last-row time 0 |
| Receiver.QuoteReceiver.SetKlineHook | skcom/receiver.py:94-99 | sets or, for `None`, clears the candle hook, and sets its day limit |
| Receiver.QuoteReceiver.SetTicksHook | skcom/receiver.py:101-106 | sets or, for `None`, clears the tick hook, and sets whether history is included |
| Receiver.QuoteReceiver.Stop | skcom/receiver.py:302-312 | with the quote component, stopping and LeaveMonitor; without it, done |
| Receiver.QuoteReceiver.CtrlC | skcom/receiver.py:85-92 | stops unless done or stopping |
| Receiver.QuoteReceiver.OnConnection | skcom/receiver.py:338-362 | 3003 sets ready; 3002 and 3021 set done |
| Receiver.QuoteReceiver.Connect | skcom/receiver.py:129-160 | without hooks nothing; only login code 0 goes on to EnterMonitor; `start` goes on exactly when both codes are 0 |
| Receiver.QuoteReceiver.WaitReady | skcom/receiver.py:162-169 | batches are pumped until ready or done; `start` goes on exactly when ready and not done |
| Receiver.QuoteReceiver.PumpMessages | skcom/receiver.py:166 | the callbacks of one batch are handled in order |
| Receiver.QuoteReceiver.RequestTicks | skcom/receiver.py:176-191 | one RequestTicks per product with a tick hook, none when more than 50 |
| Receiver.QuoteReceiver.LoadKline | skcom/receiver.py:211-238 | a readable cache file is used, otherwise the product is resolved; `start` goes on exactly when no product is unloadable, and otherwise ends with the buffer holding the entries of the products before the first unloadable one |
| Receiver.QuoteReceiver.RequestKline | skcom/receiver.py:242-258 | a candle request exactly for each product without a cache file |
| Receiver.QuoteReceiver.WatchKline | skcom/receiver.py:261-294 | nothing when done or already flushed; otherwise the flush happens at the first stale poll |
| Receiver.QuoteReceiver.FlushBuffer | skcom/receiver.py:272-292 | new series reversed and written, existing files kept, each cut to `quotes[0:limit]` and delivered, the buffer dropped |
| Receiver.QuoteReceiver.OnNotifyTicks | skcom/receiver.py:438-490 | filtered or unresolved ticks change nothing; otherwise the total grows, and the hook must exist and gets the new total |
| Receiver.QuoteReceiver.OnNotifyHistoryTicks | skcom/receiver.py:384-436 | ticks between 09:00:00 and 13:25:00 always count; they reach the hook only with history |
| Receiver.QuoteReceiver.OnNotifyKLineData | skcom/receiver.py:492-518 | the last-row time moves; the row is appended exactly when the buffer holds the security and the row parses |
| Sandbox.MonitorStepsAgree | skcom/sandbox/asyncrecv.py:139-149 | the prototype's monitor thread has the receiver's effect, because its `retry()` sets the event |
| Sandbox.RoundsAgree | skcom/sandbox/asyncrecv.py:122-156 | a prototype round is a receiver round with the event set on retry |
| Sandbox.RunsAgree | skcom/sandbox/asyncrecv.py:104-114 | the prototype's loop runs the receiver's rounds and only lacks STOP_DONE |
| Sandbox.EndedInStop | skcom/sandbox/asyncrecv.py:104-114 | when the prototype's loop ends, the state is STOP |
| Sandbox.FourFailuresStop | skcom/sandbox/asyncrecv.py:177-187 | four failures from a fresh start stop the prototype at count 4 after three pauses, with no LeaveMonitor |
| Sandbox.DebugRetryLeavesFromMonitor | skcom/sandbox/asyncrecv.py:189-210 | `debug_retry` leaves the monitor even in MONITOR, where `stop()` does not, and ends the round |
| Sandbox.SandboxReceiver.constructor | skcom/sandbox/asyncrecv.py:65-66 | IDLE, count 0 |
| Sandbox.SandboxReceiver.Stop | skcom/sandbox/asyncrecv.py:196-210 | LeaveMonitor only from MONITOR_DONE, then STOP and the event set |
| Sandbox.SandboxReceiver.Retry | skcom/sandbox/asyncrecv.py:177-187 | count + 1; over 3 it stops, otherwise RETRY with the event set |
| Sandbox.SandboxReceiver.CtrlC | skcom/sandbox/asyncrecv.py:79-83 | stops unless STOP or STOP_DONE |
| Sandbox.SandboxReceiver.DebugRetry | skcom/sandbox/asyncrecv.py:189-194 | LeaveMonitor, RETRY, the event set |
| Sandbox.SandboxReceiver.ConnectLogin | skcom/sandbox/asyncrecv.py:122-134 | codes 0 and 2003 give LOGIN_DONE; any other gives LOGIN_FAILED, then a retry |
| Sandbox.SandboxReceiver.ConnectMonitor | skcom/sandbox/asyncrecv.py:139-149 | EnterMonitor in MONITOR; a failure retries |
| Sandbox.SandboxReceiver.OnConnection | skcom/sandbox/asyncrecv.py:219-244 | 3003 gives MONITOR_DONE, count 0, the event set; 3002 only sets the event |
| Sandbox.SandboxReceiver.OnNotifyTicks | skcom/sandbox/asyncrecv.py:246-252 | every live tick forces `debug_retry` |
| Sandbox.SandboxReceiver.Request | skcom/sandbox/asyncrecv.py:158-170 | the fixed product is subscribed exactly when the state is MONITOR_DONE |
| Sandbox.SandboxReceiver.RootTask | skcom/sandbox/asyncrecv.py:104-114 | the loop runs rounds while IDLE or RETRY and ends in STOP |
| Utf8.EncodeChar | skcom/crypto.py:51 | a character encodes to 1 to 4 bytes, one byte exactly for ASCII, continuation bytes after the first |
| Utf8.Encode | skcom/crypto.py:51 | the encoding is at least as long as the text and empty exactly for the empty text |
| Utf8.DecodeFirst | skcom/crypto.py:72 | a decoded character takes 1 to 4 bytes, one exactly for an ASCII lead byte |
| Utf8.EncodeAppend | skcom/crypto.py:51 | encoding a concatenation concatenates the encodings |
| Utf8.DecodeFirstEncodeChar | skcom/crypto.py:72 | an encoded character is read back whole, whatever follows it |
| Utf8.DecodeAppend | skcom/crypto.py:72 | decoding an encoded text followed by bytes gives the text followed by those bytes' decoding |
| Utf8.DecodeEncode | skcom/crypto.py:51-72 | `s.encode('utf-8').decode('utf-8') == s` |
| Utf8.Repeat | skcom/crypto.py:54 | `b'x' * n` is `n` copies of `x` |
| Utf8.EncodeRepeat | skcom/crypto.py:54-57 | an ASCII character repeated encodes to its byte repeated |
| Crypto.SaltIndex | skcom/crypto.py:34 | the salt index is the input's last byte modulo 16, always one of the 16 salts |
| Crypto.HashString | skcom/crypto.py:9-36 | the hash fails exactly for the empty string, where `raw[-1]` raises |
| Crypto.HashTruncates | skcom/crypto.py:36 | shorter hashes are prefixes of longer ones, and a 32-byte digest gives `min(length, 32)` bytes |
| Crypto.GetCipher | skcom/crypto.py:38-44 | the key is the password's hash and the IV the fixed string's 16-byte hash; it fails exactly for an empty password |
| Crypto.CipherSizes | skcom/crypto.py:42-44 | the key has 32 bytes and the IV one block |
| Crypto.FramedShape | skcom/crypto.py:50-57 | the payload, then fewer than 16 `-`, then `+` up to max(1 MiB, aligned length), block-aligned |
| Crypto.FramedIsText | skcom/crypto.py:50-57 | the framed bytes are the UTF-8 form of the payload and its padding characters |
| Crypto.Unframe | skcom/crypto.py:74-77 | the plaintext read back is no longer than the payload |
| Crypto.UnframeFrame | skcom/crypto.py:50-77 | the framing reads back exactly for any plaintext, `:`, `-` and `+` included, whatever padding follows |
| Crypto.EncryptText | skcom/crypto.py:46-60 | the ciphertext starts with `P01:`; encryption fails exactly for an empty password |
| Crypto.DecryptText | skcom/crypto.py:62-78 | an unknown policy is rejected exactly when the first 4 bytes are not `P01:`; an empty password fails after that check |
| Crypto.UnframeDecoded | skcom/crypto.py:72-77 | the framed bytes decode, and the decoded text unframes to the plaintext |
| Crypto.DecryptEncrypt | skcom/crypto.py:46-78 | `decrypt_text(encrypt_text(p, pw), pw) == p` for every plaintext and non-empty password |
| Bot.Step | skcom/samples/bot.py:48-53 | the step is in -1..len-1; every level up to it is at most the value, and the next one is above it |
| Bot.StepUnique | skcom/samples/bot.py:48-53 | those two facts determine the step |
| Bot.StepSorted | skcom/samples/bot.py:42-53 | on sorted levels, a level is at or below the step exactly when its value is at most the price |
| Bot.StepMonotone | skcom/samples/bot.py:42-53 | on sorted levels, a higher value never stands on a lower step |
| Bot.StepLoop | skcom/samples/bot.py:48-53 | the counting loop computes the step |
| Bot.Insert | skcom/samples/bot.py:162 | insertion adds one element |
| Bot.InsertCount | skcom/samples/bot.py:162 | insertion adds exactly that element |
| Bot.InsertSorted | skcom/samples/bot.py:162 | insertion into a sorted list keeps it sorted |
| Bot.InsertStable | skcom/samples/bot.py:162 | insertion places an element after the equal ones already present |
| Bot.NoneBelowHead | skcom/samples/bot.py:162 | a sorted list starting above `v` has no element of value `v` |
| Bot.WithValueAppend | skcom/samples/bot.py:162 | the elements of one value in `s + [x]` are those of `s`, then `x` if it has that value |
| Bot.SortByValue | skcom/samples/bot.py:162 | the sort keeps the length |
| Bot.SortByValueSpec | skcom/samples/bot.py:162 | the sort is ordered by value, a permutation, and stable |
| Bot.AvgShortWindow | skcom/samples/bot.py:142 | with fewer quotes than the window and a positive sum, the average is below the mean of the quotes present |
| Bot.MaxOf | skcom/samples/bot.py:168 | the maximum is one of the values and no value exceeds it |
| Bot.Closes | skcom/samples/bot.py:140 | the closes of the quotes, in order |
| Bot.Volumes | skcom/samples/bot.py:166 | the volumes of the quotes, in order |
| Bot.ClockMinutesOf | skcom/samples/bot.py:32-40 | fields that read as hour, minute and second give that time's minutes |
| Bot.ClockOfTick | skcom/samples/bot.py:74 | the clock part of a tick's time reads back as its minutes |
| Bot.SubMinutesOf | skcom/samples/bot.py:32-40 | `sub_minutes` of readable clocks is the difference of their minutes |
| Bot.NextInterval | skcom/samples/bot.py:109-113 | the interval always grows, and from a rung of the ladder 10, 30, 60, … it moves to the next rung up, with no rung between |
| Bot.Settle | skcom/samples/bot.py:95-122 | the log is kept; the interval stays or climbs one rung; an unreadable time leaves step, interval and notice alone |
| Bot.ShakingLogged | skcom/samples/bot.py:79-93 | a change is logged exactly when it is shaking, else the log is cleared and the interval reset to 10; no change, no effect |
| Bot.QuietCrossingsNotified | skcom/samples/bot.py:96-105 | with fewer than three changes logged, each change is notified at once, up exactly when the step rose, naming the average crossed |
| Bot.ShakingDamped | skcom/samples/bot.py:106-119 | while shaking, a notice comes exactly when the logged minutes reach the interval, which then climbs |
| Bot.AlternatingAppend | skcom/samples/bot.py:83-90 | logging a shaking change keeps the log alternating |
| Bot.MoveKeepsShape | skcom/samples/bot.py:79-122 | the log keeps alternating and the interval stays on 10, 30, 60, ... |
| Bot.MoveLandsOnStep | skcom/samples/bot.py:122 | once the time is read, the remembered step is the new step |
| Bot.ChangeStep | skcom/samples/bot.py:79-122 | the branches of the average half of a tick compute the specified move |
| Bot.VolumeNoticeOnChange | skcom/samples/bot.py:124-129 | a volume notice comes exactly when the volume step changes, and the stored step is then the volume's step |
| Bot.TickKeepsValid | skcom/samples/bot.py:68-129 | every tick keeps the bot's per-security state valid |
| Bot.TickFollowsSteps | skcom/samples/bot.py:78-126 | a handled tick leaves the security on its close's and its volume's step, and other securities untouched |
| Bot.KlineStarts | skcom/samples/bot.py:145-184 | candles give sorted levels that permute the averages and the volumes, no volume step, an empty log, interval 10, the latest close's step |
| Bot.KlineLeavesOthers | skcom/samples/bot.py:154-184 | candles leave every other security as it was |
| Bot.EmptyKlineHalfStored | skcom/samples/bot.py:145-168 | candles without quotes store only the averages and report failure; a later tick of that new security stops at the missing key and changes nothing |
| Bot.KlineKeepsValid | skcom/samples/bot.py:133-184 | candles keep the bot's state valid |
| Bot.StockBot.constructor | skcom/samples/bot.py:17-26 | empty dictionaries, a valid state |
| Bot.StockBot.GetAvglineStep | skcom/samples/bot.py:42-53 | the loop's result is the close's step over the averages |
| Bot.StockBot.GetVolumeStep | skcom/samples/bot.py:55-66 | the loop's result is the volume's step over the volume levels |
| Bot.StockBot.OnReceiveKline | skcom/samples/bot.py:133-184 | the new state is the specified one, and it stays valid |
| Bot.StockBot.ResetSecurity | skcom/samples/bot.py:166-184 | sorted volume levels, volume step -1, an empty log, interval 10, the latest close's step |
| Bot.StockBot.MoveAvgline | skcom/samples/bot.py:78-122 | the average half of a tick updates step, log, interval and notices as specified |
| Bot.StockBot.OnReceiveTicks | skcom/samples/bot.py:68-129 | the new state is the specified one, and it stays valid |

## Left out

- The COM provider, `pythoncom.PumpWaitingMessages`, the pump loop, asyncio `gather`, sleeps and threads are left out. Provider answers are parameters, the provider calls are a trace, and each event is a boolean.
- Concurrency is left out. Callbacks run one at a time, in an order given as a script or as batches of connection kinds. A round's Ctrl+C can only arrive in the pause after login, and the pump is taken to poll at least once after it.
- In asyncrecv.py, `monitor_event` is None until the first `request()`, so a Ctrl+C before that raises AttributeError. The model starts with the event cleared.
- The `inc` parameter of `retry()` is always true in the source, so it is not modelled.
- `fix_encoding` (the cp950 re-decoding of names) is left out, because it is a foreign codec. Names are passed through unchanged.
- Logging, printing, `handle_sk_error` and the answer to `OnReplyMessage` (an `input()` prompt) are left out. None of them changes the modelled state.
- JSON files and directories are left out. The cache is a map from (day, id) to a stored series or an unreadable file.
- Wall-clock time and `strftime` are left out. The clock is in milliseconds, the day is a number, and the request window is a pair of day numbers.
- Floats are exact reals. This covers prices divided by `10 ** decimals`, averages, and `sub_minutes`, so rounding is not modelled.
- Ticks.Scale is exact division. The source's `nBid / ppow` is a float, and the model does not capture its rounding.
- Kline.ParseFloat accepts only a plain decimal with an optional sign and fraction. Python's `float()` also accepts exponents, `inf`, `nan` and spaces.
- Py.ParseInt accepts only an optional sign and decimal digits. Python's `int()` also accepts spaces and `_`.
- Bot.ClockMinutes parses seconds with the same integer parser. The source's `float(ss)` also accepts a fraction.
- SHA-256 and AES-CBC are function parameters. What the model relies on is stated in `Crypto.Sound`.
- The Best5 hook and callback (`set_best5_hook`, `OnNotifyBest5LONG`) are left out. They only forward values.
- `StockBot`'s inheritance from the receiver and its hook registration are left out. The bot's handlers are modelled on their own.
- `bot.py` imports `AsyncQuoteReceiver` from `skcom.receiver`, which defines no such class. The bot's logic is modelled as if the import worked.
- The bot reads `quotes[0]` as the latest candle. That matches receiver.py, which reverses the series to newest first. It does not match asyncrecv.py, which keeps the oldest first.
- In receiver.py, `gui_mode` only skips message pumping and the flush loop. The model covers the command-line mode.
- In receiver.py, `stop()` issues LeaveMonitor whenever the quote component exists. The `done` flag then comes from the 3002 callback, which WaitReady handles.
- The flush loops of the two receivers read the clock once per poll. In receiver.py a reading is an element of the `readings` list. In asyncrecv.py a poll is a `Poll`: the rows the pump delivers during the half-second sleep, then the reading.
- Receiver.QuoteReceiver.WatchKline does not model rows the pump delivers between its polls. With the last-row time at 0, the first real reading already flushes (`Receiver.FlushesBeforeFirstRow`).
- AsyncRecv.Round: a Ctrl+C in the last half second of the pause can reach the thread before the pump polls, so the thread sets MONITOR and the round runs on as an uninterrupted one. That race is not modelled.
- AsyncRecv.Round: after a Ctrl+C round, the thread's own later state changes (MONITOR, or MONITOR_FAILED and a retry) race with the loop's exit. The model records only the EnterMonitor call.
- AsyncRecv.AsyncQuoteReceiver.HandleKline reads the state once, not at every poll. So a stop that arrives during the polling is not modelled.
- Receiver.QuoteReceiver.WatchKline requires a candle hook or an empty buffer. The source calls the hook unconditionally, but fills the buffer only when a hook is set.
- Receiver.QuoteReceiver.WaitReady does not model the `done` flag that the Ctrl+C path sets while the loop waits. That Ctrl+C is a separate CtrlC call.

## Findings

| source | as written | input that shows it | evidently intended | confidence | as-written member | corrected member |
|---|---|---|---|---|---|---|
| skcom/asyncrecv.py:247-257 | `retry()` changes the state to RETRY but never sets `monitor_event` | a login that returns a code other than 0 or 2003 while `retry_count` < 3: `request()` waits on the event forever, so `gather` never returns and the login is never retried | set the event after entering RETRY, as the prototype's `retry()` does at skcom/sandbox/asyncrecv.py:186-187 | not executed | AsyncRecv.LoginFailureStalls | AsyncRecv.LoginFailureRetries |
