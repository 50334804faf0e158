/** The asynchronous receiver of skcom/asyncrecv.py: its lifecycle state
    machine (login, monitor, retry budget, stop), the root loop that re-runs a
    connection round while the receiver is idle or retrying, the tick
    callbacks, and the one-shot daily-candle flush.

    Provider calls become entries of an action trace, provider results are
    parameters, the clock is given in milliseconds and the asyncio event the
    subscription step waits on is a boolean field. */
module AsyncRecv {
  import opened Py
  import opened Ticks
  import opened Kline
  import opened Provider

  /** `ReceiverState`; MISSING_CONN is declared by the source but never entered. */
  datatype State = Idle | Login | LoginDone | LoginFailed | Monitor | MonitorDone
                 | MonitorFailed | MissingConn | Retry | Stop | StopDone

  /** `RETRY_LIMIT`: the retry count may reach this value and still retry. */
  const RetryLimit := 3
  /** `SKCenterLib_Login` answers 2003 when the account is already logged in. */
  const AlreadyLoggedIn := 2003
  /** `OnConnection` kind meaning the quote connection is ready. */
  const KindReady := 3003
  /** The candle buffer is flushed once no row has arrived for 0.15 s. */
  const QuietMillis := 150

  /** The lifecycle fields of the receiver: `state`, `retry_count`, whether
      `monitor_event` is set, and the provider actions issued so far. */
  datatype Cycle = Cycle(state: State, retryCount: int, event: bool, actions: seq<Action>)

  /** A login result the receiver accepts. */
  predicate LoginOk(code: int)
  {
    code == 0 || code == AlreadyLoggedIn
  }

  // ---------------------------------------------------------------- steps

  /** `stop()`: LeaveMonitor is issued only from MONITOR_DONE (never while
      EnterMonitor is still pending in MONITOR); the event is always set. */
  function StopStep(c: Cycle): Cycle
  {
    var acts := if c.state == MonitorDone then c.actions + [LeaveMonitorCall] else c.actions;
    Cycle(Stop, c.retryCount, true, acts)
  }

  /** `retry()` with the monitor event signalled after the state becomes
      RETRY, so that the waiting subscription step returns and the round ends.
      Over the limit the receiver stops instead. */
  function RetryStep(c: Cycle): Cycle
  {
    var n := c.retryCount + 1;
    if n > RetryLimit then StopStep(c.(retryCount := n))
    else Cycle(Retry, n, true, c.actions + [RetryPause])
  }

  /** `retry()` as skcom/asyncrecv.py writes it: the event is left alone. */
  function RetryAsWritten(c: Cycle): Cycle
  {
    var n := c.retryCount + 1;
    if n > RetryLimit then StopStep(c.(retryCount := n))
    else Cycle(Retry, n, c.event, c.actions + [RetryPause])
  }

  /** The login half of `connect()`. */
  function LoginStep(c: Cycle, code: int): Cycle
  {
    var c1 := c.(state := Login, actions := c.actions + [LoginCall]);
    if LoginOk(code) then c1.(state := LoginDone) else RetryStep(c1.(state := LoginFailed))
  }

  /** The login half of `connect()` with the source's `retry()`. */
  function LoginAsWritten(c: Cycle, code: int): Cycle
  {
    var c1 := c.(state := Login, actions := c.actions + [LoginCall]);
    if LoginOk(code) then c1.(state := LoginDone) else RetryAsWritten(c1.(state := LoginFailed))
  }

  /** The monitor thread started by `connect()`: a failed EnterMonitor signals
      the event before retrying; a successful one waits in MONITOR. */
  function MonitorStep(c: Cycle, code: int): Cycle
  {
    var c1 := c.(state := Monitor, actions := c.actions + [EnterMonitorCall]);
    if code == 0 then c1 else RetryStep(c1.(state := MonitorFailed, event := true))
  }

  /** `ctrl_c`: stop unless already stopping or stopped. */
  function CtrlCStep(c: Cycle): Cycle
  {
    if c.state == Stop || c.state == StopDone then c else StopStep(c)
  }

  /** `OnConnection`: kind 3003 marks the monitor ready, restores the retry
      budget and releases the subscription step. The `retry()` the source
      starts on a non-zero code is never awaited, so it does nothing. */
  function ConnectionStep(c: Cycle, kind: int): Cycle
  {
    if kind == KindReady then c.(state := MonitorDone, retryCount := 0, event := true) else c
  }

  /** Ctrl+C never issues LeaveMonitor twice: a second Ctrl+C changes nothing,
      and the first issues it exactly when the monitor was ready. */
  lemma CtrlCIdempotent(c: Cycle)
    ensures CtrlCStep(CtrlCStep(c)) == CtrlCStep(c)
    ensures c.state != Stop && c.state != StopDone ==>
      CtrlCStep(c).state == Stop && CtrlCStep(c).event
      && multiset(CtrlCStep(c).actions)[LeaveMonitorCall]
         == multiset(c.actions)[LeaveMonitorCall] + (if c.state == MonitorDone then 1 else 0)
  {
  }

  /** Login code 2003 ("already logged in") behaves exactly like 0. */
  lemma AlreadyLoggedInIsSuccess(c: Cycle)
    ensures LoginStep(c, AlreadyLoggedIn) == LoginStep(c, 0)
    ensures LoginStep(c, 0).state == LoginDone
    ensures forall code :: !LoginOk(code) ==> LoginStep(c, code).state in {Retry, Stop}
  {
  }

  // ---------------------------------------------------------------- root loop

  /** What the provider does in one connection round: the login result,
      whether Ctrl+C arrives during the pause after login, and the
      EnterMonitor result. */
  datatype Attempt = Attempt(login: int, ctrlC: bool, enter: int)

  /** An attempt that ends in a retry (or a stop when the budget is spent):
      a refused login, or an EnterMonitor that fails after a pause nobody
      interrupted. */
  predicate Fails(a: Attempt)
  {
    !LoginOk(a.login) || (!a.ctrlC && a.enter != 0)
  }

  /** A Ctrl+C during the pause after login: `stop()` sets STOP and the
      event, the pump sees STOP at its next poll and returns, the
      subscription step wakes and returns, and `connect()` only logs
      "cancelled" before it starts the monitor thread, which calls
      EnterMonitor. */
  function Interrupted(c: Cycle): Cycle
  {
    var s := CtrlCStep(c);
    s.(actions := s.actions + [EnterMonitorCall])
  }

  /** One round of `root_task`: RETRY becomes IDLE, `request()` installs a
      fresh event, and `connect()` runs. */
  function Round(c: Cycle, a: Attempt): Cycle
  {
    var c0 := c.(state := Idle, event := false);
    var c1 := LoginStep(c0, a.login);
    if !LoginOk(a.login) then c1
    else if a.ctrlC then Interrupted(c1)
    else MonitorStep(c1, a.enter)
  }

  /** The same round with the source's `retry()`. */
  function RoundAsWritten(c: Cycle, a: Attempt): Cycle
  {
    var c0 := c.(state := Idle, event := false);
    var c1 := LoginAsWritten(c0, a.login);
    if !LoginOk(a.login) then c1
    else if a.ctrlC then Interrupted(c1)
    else MonitorStep(c1, a.enter)
  }

  /** `asyncio.gather` of the pump, the subscription step and `connect()`
      returns only once the event is set (so the subscription step returns)
      and the state is RETRY or STOP (so the pump returns). */
  predicate RoundEnds(c: Cycle)
  {
    c.event && (c.state == Retry || c.state == Stop)
  }

  /** How the root loop stands after a script of rounds: it has ended in
      STOP_DONE, a round is still running (streaming, or waiting for an event
      nobody sets), or the loop would go on but the script is exhausted. */
  datatype Outcome = Ended | Running | ScriptEnd

  /** `root_task`'s loop: it re-runs rounds while the state is IDLE or RETRY. */
  function Run(c: Cycle, script: seq<Attempt>): (Cycle, Outcome)
    decreases |script|
  {
    if c.state != Idle && c.state != Retry then (c.(state := StopDone), Ended)
    else if script == [] then (c, ScriptEnd)
    else
      var c' := Round(c, script[0]);
      if RoundEnds(c') then Run(c', script[1..]) else (c', Running)
  }

  /** `root_task`'s loop with the source's `retry()`. */
  function RunAsWritten(c: Cycle, script: seq<Attempt>): (Cycle, Outcome)
    decreases |script|
  {
    if c.state != Idle && c.state != Retry then (c.(state := StopDone), Ended)
    else if script == [] then (c, ScriptEnd)
    else
      var c' := RoundAsWritten(c, script[0]);
      if RoundEnds(c') then RunAsWritten(c', script[1..]) else (c', Running)
  }

  /** While every login is accepted the source's `retry()` makes no
      difference: its monitor thread signals the event itself before it
      retries, so everything proved about `Run` for such scripts (the retry
      budget on EnterMonitor failures among it) holds for the loop as
      written. */
  lemma {:induction false} AsWrittenAfterGoodLogins(c: Cycle, script: seq<Attempt>)
    requires forall i :: 0 <= i < |script| ==> LoginOk(script[i].login)
    ensures RunAsWritten(c, script) == Run(c, script)
    decreases |script|
  {
    if (c.state == Idle || c.state == Retry) && script != [] {
      assert RoundAsWritten(c, script[0]) == Round(c, script[0]);
      AsWrittenAfterGoodLogins(Round(c, script[0]), script[1..]);
    }
  }

  /** A pause when the retry that follows a failure stays within the budget. */
  function PauseIf(b: bool): seq<Action>
  {
    if b then [RetryPause] else []
  }

  /** The provider actions of one round: a login, an EnterMonitor when the
      login succeeds, and a pause when a failure is retried. A round never
      issues LeaveMonitor, even when Ctrl+C arrives during its pause. */
  lemma RoundActions(c: Cycle, a: Attempt)
    ensures Round(c, a).actions
         == c.actions + [LoginCall]
            + (if LoginOk(a.login) then [EnterMonitorCall] else [])
            + (if Fails(a) then PauseIf(c.retryCount + 1 <= RetryLimit) else [])
    ensures Fails(a) ==> Round(c, a).retryCount == c.retryCount + 1 && RoundEnds(Round(c, a))
    ensures Fails(a) ==> Round(c, a).state == if c.retryCount + 1 > RetryLimit then Stop else Retry
  {
    var c0 := c.(state := Idle, event := false);
    var c1 := LoginStep(c0, a.login);
    if LoginOk(a.login) {
      assert c1.actions == c.actions + [LoginCall];
      assert c1.retryCount == c.retryCount;
    }
  }

  /** The retry budget: from a count `n` within the limit, consecutive failed
      rounds retry until the count exceeds RETRY_LIMIT, and the round that
      takes it there stops the receiver. From 0 that is three retries (three
      pauses) and a stop on the fourth failure, at count 4. */
  lemma {:induction false} FailuresSpendBudget(c: Cycle, script: seq<Attempt>)
    requires c.state == Idle || c.state == Retry
    requires 0 <= c.retryCount <= RetryLimit
    requires |script| <= RetryLimit + 1 - c.retryCount
    requires forall i :: 0 <= i < |script| ==> Fails(script[i])
    ensures var r := Run(c, script);
      && r.0.retryCount == c.retryCount + |script|
      && (|script| == RetryLimit + 1 - c.retryCount ==> r.1 == Ended && r.0.state == StopDone)
      && (0 < |script| < RetryLimit + 1 - c.retryCount ==> r.1 == ScriptEnd && r.0.state == Retry)
      && multiset(r.0.actions)[RetryPause]
         == multiset(c.actions)[RetryPause] + (if c.retryCount + |script| > RetryLimit then |script| - 1 else |script|)
      && multiset(r.0.actions)[LeaveMonitorCall] == multiset(c.actions)[LeaveMonitorCall]
    decreases |script|
  {
    if script != [] {
      var a := script[0];
      assert Fails(a);
      var c' := Round(c, a);
      FailedRoundCounts(c, a);
      if c.retryCount + 1 > RetryLimit {
        assert |script| == 1 && script[1..] == [];
      } else {
        FailuresSpendBudget(c', script[1..]);
      }
    }
  }

  /** A failed round counts one retry, pauses when the count stays within
      the budget, and issues no LeaveMonitor. */
  lemma FailedRoundCounts(c: Cycle, a: Attempt)
    requires Fails(a)
    ensures var c' := Round(c, a);
      && c'.retryCount == c.retryCount + 1 && RoundEnds(c')
      && c'.state == (if c.retryCount + 1 > RetryLimit then Stop else Retry)
      && multiset(c'.actions)[RetryPause]
         == multiset(c.actions)[RetryPause] + (if c.retryCount + 1 <= RetryLimit then 1 else 0)
      && multiset(c'.actions)[LeaveMonitorCall] == multiset(c.actions)[LeaveMonitorCall]
  {
    RoundActions(c, a);
  }

  /** `b` extends the trace `a` without a LeaveMonitor call. */
  predicate GrowsWithoutLeave(a: seq<Action>, b: seq<Action>)
  {
    |a| <= |b| && b[..|a|] == a && LeaveMonitorCall !in b[|a|..]
  }

  lemma GrowsTrans(a: seq<Action>, b: seq<Action>, c: seq<Action>)
    requires GrowsWithoutLeave(a, b) && GrowsWithoutLeave(b, c)
    ensures GrowsWithoutLeave(a, c)
  {
    assert c[|a|..] == b[|a|..] + c[|b|..];
  }

  /** The root loop alone never issues LeaveMonitor: only a Ctrl+C while the
      monitor is ready does, so `stop()` on a retry path is always safe. */
  lemma {:induction false} RunNeverLeaves(c: Cycle, script: seq<Attempt>)
    ensures GrowsWithoutLeave(c.actions, Run(c, script).0.actions)
    decreases |script|
  {
    if (c.state == Idle || c.state == Retry) && script != [] {
      var c' := Round(c, script[0]);
      RoundActions(c, script[0]);
      assert GrowsWithoutLeave(c.actions, c'.actions);
      if RoundEnds(c') {
        RunNeverLeaves(c', script[1..]);
        GrowsTrans(c.actions, c'.actions, Run(c', script[1..]).0.actions);
      }
    } else {
      assert Run(c, script).0.actions[|c.actions|..] == [];
    }
  }

  /** A Ctrl+C during the pause after login does not cancel the monitor
      thread: EnterMonitor is still called. But the round ends in STOP
      without a LeaveMonitor or a retry, and the root loop ends in STOP_DONE
      whatever the rest of the script holds. */
  lemma CtrlCDuringPause(c: Cycle, a: Attempt, rest: seq<Attempt>)
    requires c.state == Idle || c.state == Retry
    requires LoginOk(a.login) && a.ctrlC
    ensures var r := Round(c, a);
      && r.state == Stop && r.event && RoundEnds(r) && r.retryCount == c.retryCount
      && r.actions == c.actions + [LoginCall, EnterMonitorCall]
      && Run(c, [a] + rest) == (r.(state := StopDone), Ended)
  {
    assert ([a] + rest)[0] == a;
  }

  /** With the source's `retry()` a failed login within the budget leaves the
      round waiting forever: the state is RETRY but the event the
      subscription step waits on is never set, so the login is not retried. */
  lemma LoginFailureStalls(c: Cycle, a: Attempt)
    requires c.retryCount < RetryLimit && !LoginOk(a.login)
    ensures RoundAsWritten(c, a).state == Retry && !RoundEnds(RoundAsWritten(c, a))
  {
  }

  /** With the event signalled on retry every failed login ends its round, and
      the run goes on to the next login attempt. */
  lemma LoginFailureRetries(c: Cycle, a: Attempt)
    requires c.retryCount >= 0 && !LoginOk(a.login)
    ensures RoundEnds(Round(c, a))
    ensures Round(c, a).state == (if c.retryCount < RetryLimit then Retry else Stop)
    ensures Round(c, a).actions[|c.actions|] == LoginCall
  {
  }

  // ---------------------------------------------------------------- requests

  /** The buffer after `request_kline` resolves every product: each resolved
      security gets a fresh empty series under the id the provider returns. */
  function Resolve(d: Buffer, products: seq<string>,
                   resolve: string -> Option<(string, string)>): (r: Buffer)
    decreases |products|
  {
    if products == [] then d
    else
      var d' := Resolve(d, products[..|products| - 1], resolve);
      match resolve(products[|products| - 1])
      case None => d'
      case Some((id, name)) => Put(d', id, Series(id, name, []))
  }

  /** Resolution keeps every existing key, adds the id of every product that
      resolves, adds nothing else, and every entry it writes starts empty. */
  lemma {:induction false} ResolveKeys(d: Buffer, products: seq<string>,
                                       resolve: string -> Option<(string, string)>)
    ensures var r := Resolve(d, products, resolve);
      && (forall k :: k in Keys(d) ==> k in Keys(r))
      && (forall i :: 0 <= i < |products| && resolve(products[i]).Some? ==> resolve(products[i]).value.0 in Keys(r))
      && (forall k :: k in Keys(r) ==> Get(r, k) == Get(d, k) || Get(r, k).value.quotes == [])
      && (forall k :: k in Keys(r) && k !in Keys(d) ==>
            exists i :: 0 <= i < |products| && resolve(products[i]) == Some((k, Get(r, k).value.name)))
    decreases |products|
  {
    if products != [] {
      var init := products[..|products| - 1];
      var no := products[|products| - 1];
      ResolveKeys(d, init, resolve);
      var d' := Resolve(d, init, resolve);
      var r := Resolve(d, products, resolve);
      if resolve(no).Some? {
        forall k | k != resolve(no).value.0 ensures Get(r, k) == Get(d', k) {
          PutOther(d', resolve(no).value.0, Series(resolve(no).value.0, resolve(no).value.1, []), k);
        }
      }
      forall i | 0 <= i < |products| && resolve(products[i]).Some?
        ensures resolve(products[i]).value.0 in Keys(r)
      {
        if i < |products| - 1 {
          assert products[i] == init[i];
        }
      }
      forall k | k in Keys(r) && k !in Keys(d)
        ensures exists i :: 0 <= i < |products| && resolve(products[i]) == Some((k, Get(r, k).value.name))
      {
        if resolve(no).Some? && resolve(no).value.0 == k {
          assert resolve(products[|products| - 1]) == Some((k, Get(r, k).value.name));
        } else {
          var i :| 0 <= i < |init| && resolve(init[i]) == Some((k, Get(d', k).value.name));
          assert products[i] == init[i];
        }
      }
    }
  }

  /** The GetStockByNoLONG calls of `request_kline`, one per product. */
  function StockLookups(products: seq<string>): seq<Action>
  {
    seq(|products|, i requires 0 <= i < |products| => GetStockCall(products[i]))
  }

  /** The candle requests of `request_kline`: a product is requested only
      when its number is a key of the buffer. */
  function KlineCalls(d: Buffer, products: seq<string>, start: int, end: int): seq<Action>
    decreases |products|
  {
    if products == [] then []
    else
      var prev := KlineCalls(d, products[..|products| - 1], start, end);
      var no := products[|products| - 1];
      if no in Keys(d) then prev + [RequestKLineByDateCall(no, start, end)] else prev
  }

  /** A product is requested exactly when it is configured and buffered, and
      always over the same window. */
  lemma {:induction false} RequestedIffBuffered(d: Buffer, products: seq<string>, start: int, end: int,
                                                no: string, s: int, e: int)
    ensures RequestKLineByDateCall(no, s, e) in KlineCalls(d, products, start, end)
        <==> no in products && no in Keys(d) && s == start && e == end
    decreases |products|
  {
    if products != [] {
      var init := products[..|products| - 1];
      RequestedIffBuffered(d, init, start, end, no, s, e);
      assert products == init + [products[|products| - 1]];
    }
  }

  // ---------------------------------------------------------------- candle flush

  /** One poll of `handle_kline`: the candle rows the pump delivers during its
      half-second sleep, then the clock reading taken after it. */
  datatype Poll = Poll(rows: seq<KlineRow>, now: int)

  /** The last-row time after the callbacks of `rows`: each callback sets it. */
  function LastRowTime(mtime: int, rows: seq<KlineRow>): int
  {
    if rows == [] then mtime else rows[|rows| - 1].time
  }

  /** All rows delivered during `polls`, in arrival order. */
  function Rows(polls: seq<Poll>): seq<KlineRow>
    decreases |polls|
  {
    if polls == [] then [] else polls[0].rows + Rows(polls[1..])
  }

  /** Poll `j` is quiet: its reading is at least 0.15 s after the last row
      delivered up to then, or after `mtime` when none was. */
  predicate QuietPoll(mtime: int, polls: seq<Poll>, j: int)
    requires 0 <= j < |polls|
  {
    polls[j].now - LastRowTime(mtime, Rows(polls[..j + 1])) >= QuietMillis
  }

  /** The first quiet poll from `i` on, or -1. */
  function QuietFrom(mtime: int, polls: seq<Poll>, i: int): (k: int)
    requires 0 <= i <= |polls|
    ensures k == -1 || i <= k < |polls|
    ensures k >= 0 ==> QuietPoll(mtime, polls, k)
    ensures forall j :: i <= j < |polls| && (k < 0 || j < k) ==> !QuietPoll(mtime, polls, j)
    decreases |polls| - i
  {
    if i == |polls| then -1
    else if QuietPoll(mtime, polls, i) then i
    else QuietFrom(mtime, polls, i + 1)
  }

  /** The poll at which `handle_kline` flushes, or -1 when none is quiet. */
  function QuietAt(mtime: int, polls: seq<Poll>): (k: int)
    ensures -1 <= k < |polls|
    ensures k >= 0 ==> QuietPoll(mtime, polls, k)
    ensures forall j :: 0 <= j < |polls| && (k < 0 || j < k) ==> !QuietPoll(mtime, polls, j)
  {
    QuietFrom(mtime, polls, 0)
  }

  /** The polling as `handle_kline` runs it, poll after poll: whether a poll
      flushed, and the buffer and last-row time at that point (after every
      poll when none flushed). */
  function Polling(b: Option<Buffer>, mtime: int, polls: seq<Poll>): (bool, Option<Buffer>, int)
    decreases |polls|
  {
    if polls == [] then (false, b, mtime)
    else
      var b1, m1 := Absorb(b, polls[0].rows), LastRowTime(mtime, polls[0].rows);
      if polls[0].now - m1 >= QuietMillis then (true, b1, m1) else Polling(b1, m1, polls[1..])
  }

  /** The rows of the first `n` polls are those of the first poll, then those
      of the next `n - 1`. */
  lemma RowsPrefix(polls: seq<Poll>, n: int)
    requires 1 <= n <= |polls|
    ensures Rows(polls[..n]) == polls[0].rows + Rows(polls[1..][..n - 1])
  {
    assert polls[..n][1..] == polls[1..][..n - 1];
  }

  /** The last-row time over two runs of rows. */
  lemma LastRowTimeConcat(mtime: int, r1: seq<KlineRow>, r2: seq<KlineRow>)
    ensures LastRowTime(mtime, r1 + r2) == LastRowTime(LastRowTime(mtime, r1), r2)
  {
    if r2 == [] {
      assert r1 + r2 == r1;
    }
  }

  /** Whether a later poll is quiet does not change when the first poll's
      rows are taken as already absorbed. */
  lemma QuietShift(mtime: int, polls: seq<Poll>, j: int)
    requires 1 <= j < |polls|
    ensures QuietPoll(mtime, polls, j) == QuietPoll(LastRowTime(mtime, polls[0].rows), polls[1..], j - 1)
  {
    RowsPrefix(polls, j + 1);
    LastRowTimeConcat(mtime, polls[0].rows, Rows(polls[1..][..j]));
  }

  /** `handle_kline` flushes at the first quiet poll, with every row the pump
      delivered up to that poll in the buffer; when no poll is quiet, every
      row is absorbed and nothing is flushed. */
  lemma {:induction false} PollingFlushes(b: Option<Buffer>, mtime: int, polls: seq<Poll>)
    ensures var k := QuietAt(mtime, polls);
      var upto := Rows(if k < 0 then polls else polls[..k + 1]);
      Polling(b, mtime, polls) == (k >= 0, Absorb(b, upto), LastRowTime(mtime, upto))
    decreases |polls|
  {
    if polls != [] {
      var p := polls[0];
      var b1, m1 := Absorb(b, p.rows), LastRowTime(mtime, p.rows);
      RowsPrefix(polls, 1);
      assert Rows(polls[1..][..0]) == [];
      assert p.rows + [] == p.rows;
      var k := QuietAt(mtime, polls);
      if !QuietPoll(mtime, polls, 0) {
        PollingFlushes(b1, m1, polls[1..]);
        var k' := QuietAt(m1, polls[1..]);
        forall j | 1 <= j < |polls|
          ensures QuietPoll(mtime, polls, j) == QuietPoll(m1, polls[1..], j - 1)
        {
          QuietShift(mtime, polls, j);
        }
        if k' < 0 {
          assert forall j :: 0 <= j < |polls| ==> !QuietPoll(mtime, polls, j);
        } else {
          assert QuietPoll(mtime, polls, k' + 1);
          assert forall j :: 0 <= j <= k' ==> !QuietPoll(mtime, polls, j);
        }
        assert k == (if k' < 0 then -1 else k' + 1);
        var rest := Rows(if k' < 0 then polls[1..] else polls[1..][..k' + 1]);
        if k < 0 {
          assert Rows(polls) == p.rows + rest;
        } else {
          RowsPrefix(polls, k + 1);
        }
        AbsorbConcat(b, p.rows, rest);
        LastRowTimeConcat(mtime, p.rows, rest);
      }
    }
  }

  /** What the hook is handed: at the flushing poll every buffered security's
      series holds, after what it had, its rows from every poll up to then,
      in arrival order. */
  lemma FlushHoldsRows(d: Buffer, mtime: int, polls: seq<Poll>)
    requires QuietAt(mtime, polls) >= 0
    ensures var r := Polling(Some(d), mtime, polls);
      var upto := Rows(polls[..QuietAt(mtime, polls) + 1]);
      && r.0 && r.1.Some? && Keys(r.1.value) == Keys(d)
      && forall no :: no in Keys(d) ==>
           Get(r.1.value, no).value.quotes == Get(d, no).value.quotes + RowsFor(upto, no)
  {
    PollingFlushes(Some(d), mtime, polls);
    AbsorbAppends(d, Rows(polls[..QuietAt(mtime, polls) + 1]));
  }

  /** The last-row time starts at 0, so when no row arrives during the first
      half-second sleep the first poll flushes the buffer as it stands. */
  lemma FlushesBeforeFirstRow(b: Option<Buffer>, polls: seq<Poll>)
    requires |polls| > 0 && polls[0].rows == [] && polls[0].now >= QuietMillis
    ensures Polling(b, 0, polls) == (true, b, 0)
  {
  }

  /** What `handle_kline` comes to: the buffer was flushed; the loop was not
      entered because the receiver is retrying or stopping; the readings ran
      out before a quiet period; or the buffer was already gone and the
      iteration raised. */
  datatype FlushOutcome = Flushed | Cancelled | Pending | Raised

  // ---------------------------------------------------------------- the receiver

  class AsyncQuoteReceiver {
    var state: State
    var retryCount: int
    var monitorEvent: bool
    var actions: seq<Action>
    /** `config['products']`. */
    var products: seq<string>
    var ticksHook: bool
    var ticksIncludeHistory: bool
    var ticksTotal: map<string, int>
    /** The records handed to the tick hook so far. */
    var ticks: seq<Tick>
    var klineHook: bool
    var klineDaysLimit: int
    /** `daily_kline`: None once flushed. */
    var dailyKline: Option<Buffer>
    /** Time of the last candle row, in milliseconds. */
    var klineLastMtime: int
    /** The series handed to the candle hook so far. */
    var klines: seq<Series>

    function Life(): Cycle
      reads this
    {
      Cycle(state, retryCount, monitorEvent, actions)
    }

    constructor (products: seq<string>)
      ensures Life() == Cycle(Idle, 0, false, [])
      ensures this.products == products && ticksTotal == map[] && ticks == [] && klines == []
      ensures !ticksHook && !ticksIncludeHistory && !klineHook && klineDaysLimit == 20
      ensures dailyKline == Some([]) && klineLastMtime == 0
    {
      state, retryCount, monitorEvent, actions := Idle, 0, false, [];
      this.products := products;
      ticksHook, ticksIncludeHistory, ticksTotal, ticks := false, false, map[], [];
      klineHook, klineDaysLimit, dailyKline, klineLastMtime, klines := false, 20, Some([]), 0, [];
    }

    /** `hook` is false where Python passes `None`, which clears the hook. */
    method SetKlineHook(hook: bool, daysLimit: int)
      modifies this`klineHook, this`klineDaysLimit
      ensures klineHook == hook && klineDaysLimit == daysLimit
    {
      klineDaysLimit := daysLimit;
      klineHook := hook;
    }

    /** `hook` is false where Python passes `None`, which clears the hook. */
    method SetTicksHook(hook: bool, includeHistory: bool)
      modifies this`ticksHook, this`ticksIncludeHistory
      ensures ticksHook == hook && ticksIncludeHistory == includeHistory
    {
      ticksHook := hook;
      ticksIncludeHistory := includeHistory;
    }

    /** `change_state`: re-entering the current state only logs a warning. */
    method ChangeState(s: State)
      modifies this`state
      ensures state == s
    {
      if state != s {
        state := s;
      }
    }

    method Stop()
      modifies this`state, this`monitorEvent, this`actions
      ensures Life() == StopStep(old(Life()))
    {
      if state == MonitorDone {
        actions := actions + [LeaveMonitorCall];
      }
      monitorEvent := true;
      ChangeState(State.Stop);
    }

    method Retry()
      modifies this`state, this`retryCount, this`monitorEvent, this`actions
      ensures Life() == RetryStep(old(Life()))
    {
      retryCount := retryCount + 1;
      if retryCount > RetryLimit {
        Stop();
      } else {
        actions := actions + [RetryPause];
        ChangeState(State.Retry);
        monitorEvent := true;
      }
    }

    method CtrlC()
      modifies this`state, this`monitorEvent, this`actions
      ensures Life() == CtrlCStep(old(Life()))
    {
      if state != State.Stop && state != State.StopDone {
        Stop();
      }
    }

    /** The login half of `connect()`; `proceed` says whether the monitor
        thread is started. */
    method ConnectLogin(code: int) returns (proceed: bool)
      modifies this`state, this`retryCount, this`monitorEvent, this`actions
      ensures proceed == LoginOk(code)
      ensures Life() == LoginStep(old(Life()), code)
    {
      ChangeState(Login);
      actions := actions + [LoginCall];
      proceed := code == 0 || code == AlreadyLoggedIn;
      if !proceed {
        ChangeState(LoginFailed);
        Retry();
        return;
      }
      ChangeState(LoginDone);
    }

    /** The monitor thread of `connect()`. */
    method ConnectMonitor(code: int)
      modifies this`state, this`retryCount, this`monitorEvent, this`actions
      ensures Life() == MonitorStep(old(Life()), code)
    {
      ChangeState(Monitor);
      actions := actions + [EnterMonitorCall];
      if code != 0 {
        ChangeState(MonitorFailed);
        monitorEvent := true;
        Retry();
      }
    }

    method OnConnection(kind: int, code: int)
      modifies this`state, this`retryCount, this`monitorEvent
      ensures Life() == ConnectionStep(old(Life()), kind)
    {
      if kind == KindReady {
        ChangeState(MonitorDone);
        retryCount := 0;
        monitorEvent := true;
      }
    }

    /** `root_task` over a script of provider behaviour, one attempt per round. */
    method RootTask(script: seq<Attempt>) returns (outcome: Outcome)
      modifies this`state, this`retryCount, this`monitorEvent, this`actions
      ensures (Life(), outcome) == Run(old(Life()), script)
    {
      var i := 0;
      while state == Idle || state == State.Retry
        invariant 0 <= i <= |script|
        invariant Run(Life(), script[i..]) == Run(old(Life()), script)
        decreases |script| - i
      {
        if i == |script| {
          return ScriptEnd;
        }
        ghost var before := Life();
        if state == State.Retry {
          ChangeState(Idle);
        }
        monitorEvent := false;
        assert Life() == before.(state := Idle, event := false);
        var proceed := ConnectLogin(script[i].login);
        if proceed {
          if script[i].ctrlC {
            // the pump returns on STOP; `connect()` still starts the thread
            CtrlC();
            actions := actions + [EnterMonitorCall];
          } else {
            ConnectMonitor(script[i].enter);
          }
        }
        assert Life() == Round(before, script[i]);
        if !(monitorEvent && (state == State.Retry || state == State.Stop)) {
          return Running;
        }
        assert script[i..][1..] == script[i + 1..];
        i := i + 1;
      }
      ChangeState(State.StopDone);
      outcome := Ended;
    }

    /** `request()` once the monitor event is set: it subscribes only when
        the monitor is ready, then requests ticks and candles and waits for
        the candle flush. */
    method Request(today: int, hour: int, minute: int,
                   resolve: string -> Option<(string, string)>, polls: seq<Poll>)
      returns (subscribed: bool, outcome: FlushOutcome)
      requires dailyKline.Some? && 0 <= minute < 60
      modifies this`actions, this`dailyKline, this`klineLastMtime, this`klines
      ensures subscribed <==> old(state) == MonitorDone
      ensures !subscribed ==>
        && actions == old(actions) && dailyKline == old(dailyKline)
        && klineLastMtime == old(klineLastMtime) && klines == old(klines)
      ensures subscribed ==>
        var w := RequestWindow(today, hour, minute, klineDaysLimit);
        var d := Resolve(old(dailyKline).value, products, resolve);
        var r := Polling(Some(d), old(klineLastMtime), polls);
        && actions == old(actions) + TickRequests(products) + StockLookups(products)
                      + KlineCalls(d, products, w.0, w.1)
        && r.1.Some? && klineLastMtime == r.2
        && (!r.0 ==> outcome == Pending && dailyKline == r.1)
        && (r.0 ==>
              outcome == Flushed && dailyKline == None
              && klines == old(klines) + (if klineHook then FlushLast(r.1.value, klineDaysLimit) else []))
    {
      if state != MonitorDone {
        return false, Cancelled;
      }
      subscribed := true;
      RequestTicks();
      RequestKline(today, hour, minute, resolve);
      PollingFlushes(Some(dailyKline.value), klineLastMtime, polls);
      outcome := HandleKline(polls);
    }

    /** `request_ticks`. */
    method RequestTicks()
      modifies this`actions
      ensures actions == old(actions) + TickRequests(products)
    {
      if |products| > MaxTickProducts {
        return;
      }
      var i := 0;
      while i < |products|
        invariant 0 <= i <= |products|
        invariant actions == old(actions) + TickRequests(products[..i])
      {
        assert TickRequests(products[..i + 1]) == TickRequests(products[..i]) + [RequestTicksCall(products[i])];
        actions := actions + [RequestTicksCall(products[i])];
        i := i + 1;
      }
      assert products[..i] == products;
    }

    /** `request_kline` on day `today` at `hour:minute`; `resolve` is
        GetStockByNoLONG, None for a non-zero code. Products that do not
        resolve are skipped, and so are their candle requests. */
    method RequestKline(today: int, hour: int, minute: int,
                        resolve: string -> Option<(string, string)>)
      requires dailyKline.Some? && 0 <= minute < 60
      modifies this`actions, this`dailyKline
      ensures dailyKline == Some(Resolve(old(dailyKline).value, products, resolve))
      ensures var w := RequestWindow(today, hour, minute, klineDaysLimit);
        actions == old(actions) + StockLookups(products) + KlineCalls(dailyKline.value, products, w.0, w.1)
    {
      var w := RequestWindow(today, hour, minute, klineDaysLimit);
      LoadNames(resolve);
      RequestCandles(w.0, w.1);
    }

    /** The first loop of `request_kline`: name lookups fill the buffer. */
    method LoadNames(resolve: string -> Option<(string, string)>)
      requires dailyKline.Some?
      modifies this`actions, this`dailyKline
      ensures dailyKline == Some(Resolve(old(dailyKline).value, products, resolve))
      ensures actions == old(actions) + StockLookups(products)
    {
      var d := dailyKline.value;
      var i := 0;
      while i < |products|
        invariant 0 <= i <= |products|
        invariant d == Resolve(old(dailyKline).value, products[..i], resolve)
        invariant actions == old(actions) + StockLookups(products[..i])
      {
        assert products[..i + 1][..i] == products[..i];
        assert StockLookups(products[..i + 1]) == StockLookups(products[..i]) + [GetStockCall(products[i])];
        actions := actions + [GetStockCall(products[i])];
        match resolve(products[i]) {
          case None =>
          case Some((id, name)) =>
            d := Put(d, id, Series(id, name, []));
        }
        i := i + 1;
      }
      assert products[..i] == products;
      dailyKline := Some(d);
    }

    /** The second loop of `request_kline`: a candle request per buffered product. */
    method RequestCandles(start: int, end: int)
      requires dailyKline.Some?
      modifies this`actions
      ensures actions == old(actions) + KlineCalls(dailyKline.value, products, start, end)
    {
      var d := dailyKline.value;
      var i := 0;
      while i < |products|
        invariant 0 <= i <= |products|
        invariant actions == old(actions) + KlineCalls(d, products[..i], start, end)
      {
        assert products[..i + 1][..i] == products[..i];
        if products[i] in Keys(d) {
          actions := actions + [RequestKLineByDateCall(products[i], start, end)];
        }
        i := i + 1;
      }
      assert products[..i] == products;
    }

    /** `handle_kline` over its polls: in each half-second sleep the pump
        delivers that poll's candle rows, then the clock is read. */
    method HandleKline(polls: seq<Poll>) returns (outcome: FlushOutcome)
      modifies this`dailyKline, this`klineLastMtime, this`klines
      ensures old(state) == State.Retry || old(state) == State.Stop ==>
        && outcome == Cancelled && dailyKline == old(dailyKline)
        && klineLastMtime == old(klineLastMtime) && klines == old(klines)
      ensures old(state) != State.Retry && old(state) != State.Stop ==>
        var r := Polling(old(dailyKline), old(klineLastMtime), polls);
        && klineLastMtime == r.2
        && (!r.0 ==> outcome == Pending && dailyKline == r.1 && klines == old(klines))
        && (r.0 && r.1.None? ==> outcome == Raised && dailyKline == None && klines == old(klines))
        && (r.0 && r.1.Some? ==>
              outcome == Flushed && dailyKline == None
              && klines == old(klines) + (if klineHook then FlushLast(r.1.value, klineDaysLimit) else []))
    {
      if state == State.Retry || state == State.Stop {
        return Cancelled;
      }
      var i := 0;
      while i < |polls|
        invariant 0 <= i <= |polls|
        invariant Polling(dailyKline, klineLastMtime, polls[i..]) == Polling(old(dailyKline), old(klineLastMtime), polls)
        invariant klines == old(klines)
      {
        assert polls[i..][0] == polls[i] && polls[i..][1..] == polls[i + 1..];
        PumpKlineRows(polls[i].rows);
        if polls[i].now - klineLastMtime >= QuietMillis {
          if dailyKline.None? {
            return Raised;
          }
          if klineHook {
            klines := klines + FlushLast(dailyKline.value, klineDaysLimit);
          }
          dailyKline := None;
          return Flushed;
        }
        i := i + 1;
      }
      outcome := Pending;
    }

    /** The candle callbacks the pump delivers during one sleep, in order. */
    method PumpKlineRows(rows: seq<KlineRow>)
      modifies this`dailyKline, this`klineLastMtime
      ensures dailyKline == Absorb(old(dailyKline), rows)
      ensures klineLastMtime == LastRowTime(old(klineLastMtime), rows)
    {
      var j := 0;
      while j < |rows|
        invariant 0 <= j <= |rows|
        invariant Absorb(dailyKline, rows[j..]) == Absorb(old(dailyKline), rows)
        invariant LastRowTime(klineLastMtime, rows[j..]) == LastRowTime(old(klineLastMtime), rows)
      {
        assert rows[j..][0] == rows[j] && rows[j..][1..] == rows[j + 1..];
        var _ := OnNotifyKLineData(rows[j].no, rows[j].data, rows[j].time);
        j := j + 1;
      }
    }

    /** `OnNotifyTicksLONG`; `stock` is GetStockByIndexLONG's answer, None for
        a non-zero code. */
    method OnNotifyTicks(stock: Option<Stock>, hms: int, millis: int,
                         bid: int, ask: int, close: int, qty: int)
      modifies this`ticksTotal, this`ticks
      ensures !LiveKept(hms) || stock.None? ==> ticksTotal == old(ticksTotal) && ticks == old(ticks)
      ensures LiveKept(hms) && stock.Some? ==>
        var no := stock.value.no;
        && ticksTotal == Accumulate(old(ticksTotal), no, qty)
        && ticks == old(ticks)
           + (if ticksHook
              then [MakeTick(stock.value, hms, millis, bid, ask, close, qty, Total(old(ticksTotal), no) + qty)]
              else [])
    {
      if hms < SessionOpen || (AuctionStart <= hms < AuctionEnd) {
        return;
      }
      if stock.None? {
        return;
      }
      var s := stock.value;
      if s.no !in ticksTotal {
        ticksTotal := ticksTotal[s.no := qty];
      } else {
        ticksTotal := ticksTotal[s.no := ticksTotal[s.no] + qty];
      }
      var vol := ticksTotal[s.no];
      assert vol == Total(old(ticksTotal), s.no) + qty;
      if ticksHook {
        ticks := ticks + [MakeTick(s, hms, millis, bid, ask, close, qty, vol)];
      }
    }

    /** `OnNotifyHistoryTicksLONG`: handled as a live tick only when history
        was asked for, otherwise ignored. */
    method OnNotifyHistoryTicks(stock: Option<Stock>, hms: int, millis: int,
                                bid: int, ask: int, close: int, qty: int)
      modifies this`ticksTotal, this`ticks
      ensures !ticksIncludeHistory ==> ticksTotal == old(ticksTotal) && ticks == old(ticks)
      ensures ticksIncludeHistory && LiveKept(hms) && stock.Some? ==>
        var no := stock.value.no;
        && ticksTotal == Accumulate(old(ticksTotal), no, qty)
        && ticks == old(ticks)
           + (if ticksHook
              then [MakeTick(stock.value, hms, millis, bid, ask, close, qty, Total(old(ticksTotal), no) + qty)]
              else [])
      ensures ticksIncludeHistory && (!LiveKept(hms) || stock.None?) ==>
        ticksTotal == old(ticksTotal) && ticks == old(ticks)
    {
      if ticksIncludeHistory {
        OnNotifyTicks(stock, hms, millis, bid, ask, close, qty);
      }
    }

    /** `OnNotifyKLineData` at time `now`; `ok` is false where Python raises:
        the buffer is gone, the security is not in it, or the row is malformed.
        The last-row time moves in every case. */
    method OnNotifyKLineData(no: string, data: string, now: int) returns (ok: bool)
      modifies this`dailyKline, this`klineLastMtime
      ensures klineLastMtime == now
      ensures ok <==> old(dailyKline).Some? && no in Keys(old(dailyKline).value) && ParseRow(data).Some?
      ensures ok ==> dailyKline == Some(AppendQuote(old(dailyKline).value, no, ParseRow(data).value))
      ensures !ok ==> dailyKline == old(dailyKline)
    {
      klineLastMtime := now;
      if dailyKline.None? || Get(dailyKline.value, no).None? {
        return false;
      }
      var q := ParseRow(data);
      if q.None? {
        return false;
      }
      dailyKline := Some(AppendQuote(dailyKline.value, no, q.value));
      ok := true;
    }
  }
}
