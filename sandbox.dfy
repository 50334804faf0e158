/** The prototype receiver of skcom/sandbox/asyncrecv.py. It has the same
    lifecycle as skcom/asyncrecv.py but assigns `state` directly, signals the
    event from `retry()` itself, lets a normal disconnect (3002) release the
    subscription step, subscribes one fixed product, and on every live tick
    forces a retry through `debug_retry`. */
module Sandbox {
  import opened Provider
  import opened AsyncRecv

  /** The product the prototype subscribes to. */
  const FixedProduct := "5530"
  /** `OnConnection` kind of a normal disconnect. */
  const KindClosed := 3002

  /** The monitor thread: unlike skcom/asyncrecv.py it does not signal the
      event itself before `retry()`, which signals it in every branch. */
  function ProtoMonitorStep(c: Cycle, code: int): Cycle
  {
    var c1 := c.(state := Monitor, actions := c.actions + [EnterMonitorCall]);
    if code == 0 then c1 else RetryStep(c1.(state := MonitorFailed))
  }

  /** `OnConnection`: 3003 as in skcom/asyncrecv.py; 3002 only releases the
      subscription step and leaves the state as it is. */
  function ProtoConnectionStep(c: Cycle, kind: int): Cycle
  {
    if kind == KindReady then c.(state := MonitorDone, retryCount := 0, event := true)
    else if kind == KindClosed then c.(event := true)
    else c
  }

  /** `debug_retry`: LeaveMonitor from whatever state, then RETRY with the
      event signalled; the retry count is not touched. */
  function DebugRetryStep(c: Cycle): Cycle
  {
    Cycle(Retry, c.retryCount, true, c.actions + [LeaveMonitorCall])
  }

  /** One round of the prototype's `root_task`. */
  function ProtoRound(c: Cycle, a: Attempt): Cycle
  {
    var c0 := c.(state := Idle, event := false);
    var c1 := LoginStep(c0, a.login);
    if !LoginOk(a.login) then c1
    else if a.ctrlC then Interrupted(c1)
    else ProtoMonitorStep(c1, a.enter)
  }

  /** The prototype's root loop; it ends in STOP, with no STOP_DONE. */
  function ProtoRun(c: Cycle, script: seq<Attempt>): (Cycle, Outcome)
    decreases |script|
  {
    if c.state != Idle && c.state != Retry then (c, Ended)
    else if script == [] then (c, ScriptEnd)
    else
      var c' := ProtoRound(c, script[0]);
      if RoundEnds(c') then ProtoRun(c', script[1..]) else (c', Running)
  }

  /** The prototype's monitor thread has the same effect as the receiver's. */
  lemma MonitorStepsAgree(c: Cycle, code: int)
    ensures ProtoMonitorStep(c, code) == AsyncRecv.MonitorStep(c, code)
  {
  }

  /** A round of the prototype is a round of the receiver with the event
      signalled on retry, including after a failed login. */
  lemma RoundsAgree(c: Cycle, a: Attempt)
    ensures ProtoRound(c, a) == AsyncRecv.Round(c, a)
  {
    var c1 := LoginStep(c.(state := Idle, event := false), a.login);
    if LoginOk(a.login) && !a.ctrlC {
      MonitorStepsAgree(c1, a.enter);
    }
  }

  /** The prototype's root loop runs exactly the rounds of the receiver's and
      differs only in never entering STOP_DONE; so the retry budget holds
      for it too: four failures in a row from count 0 stop it in STOP. */
  lemma {:induction false} RunsAgree(c: Cycle, script: seq<Attempt>)
    ensures var r := ProtoRun(c, script);
      AsyncRecv.Run(c, script) == (if r.1 == Ended then r.0.(state := StopDone) else r.0, r.1)
    decreases |script|
  {
    if (c.state == Idle || c.state == Retry) && script != [] {
      RoundsAgree(c, script[0]);
      if RoundEnds(ProtoRound(c, script[0])) {
        RunsAgree(ProtoRound(c, script[0]), script[1..]);
      }
    }
  }

  /** Started in IDLE or RETRY, the prototype's loop only ends after a round
      that stopped it: its last state is STOP. */
  lemma {:induction false} EndedInStop(c: Cycle, script: seq<Attempt>)
    requires c.state == Idle || c.state == Retry
    ensures var r := ProtoRun(c, script); r.1 == Ended ==> r.0.state == Stop
    decreases |script|
  {
    if script != [] {
      var c' := ProtoRound(c, script[0]);
      if RoundEnds(c') && c'.state == Retry {
        EndedInStop(c', script[1..]);
      }
    }
  }

  /** From a fresh start, four failed rounds stop the prototype in STOP after
      three pauses, without any LeaveMonitor. */
  lemma FourFailuresStop(script: seq<Attempt>)
    requires |script| == RetryLimit + 1
    requires forall i :: 0 <= i < |script| ==> Fails(script[i])
    ensures var r := ProtoRun(Cycle(Idle, 0, false, []), script);
      && r.1 == Ended && r.0.state == Stop && r.0.retryCount == RetryLimit + 1
      && multiset(r.0.actions)[RetryPause] == RetryLimit
      && LeaveMonitorCall !in r.0.actions
  {
    var c := Cycle(Idle, 0, false, []);
    RunsAgree(c, script);
    FailuresSpendBudget(c, script);
    EndedInStop(c, script);
    var r := ProtoRun(c, script);
    var q := AsyncRecv.Run(c, script);
    assert q.1 == Ended;
    assert r.0.actions == q.0.actions && r.0.retryCount == q.0.retryCount;
    assert multiset(r.0.actions)[LeaveMonitorCall] == 0;
  }

  /** Unlike `stop()`, `debug_retry` leaves the monitor even while
      EnterMonitor is still pending in MONITOR. */
  lemma DebugRetryLeavesFromMonitor(c: Cycle)
    requires c.state == Monitor
    ensures multiset(DebugRetryStep(c).actions)[LeaveMonitorCall] == multiset(c.actions)[LeaveMonitorCall] + 1
    ensures multiset(StopStep(c).actions)[LeaveMonitorCall] == multiset(c.actions)[LeaveMonitorCall]
    ensures RoundEnds(DebugRetryStep(c))
  {
  }

  class SandboxReceiver {
    var state: State
    var retryCount: int
    /** Whether `connect_result_event` is set. */
    var event: bool
    var actions: seq<Action>

    function Life(): Cycle
      reads this
    {
      Cycle(state, retryCount, event, actions)
    }

    constructor ()
      ensures Life() == Cycle(Idle, 0, false, [])
    {
      state, retryCount, event, actions := Idle, 0, false, [];
    }

    method Stop()
      modifies this`state, this`event, this`actions
      ensures Life() == StopStep(old(Life()))
    {
      if state == MonitorDone {
        actions := actions + [LeaveMonitorCall];
      }
      state := State.Stop;
      event := true;
    }

    method Retry()
      modifies this`state, this`retryCount, this`event, this`actions
      ensures Life() == RetryStep(old(Life()))
    {
      retryCount := retryCount + 1;
      if retryCount > RetryLimit {
        Stop();
      } else {
        actions := actions + [RetryPause];
        state := State.Retry;
        event := true;
      }
    }

    method CtrlC()
      modifies this`state, this`event, this`actions
      ensures Life() == CtrlCStep(old(Life()))
    {
      if state != State.Stop && state != StopDone {
        Stop();
      }
    }

    method DebugRetry()
      modifies this`state, this`event, this`actions
      ensures Life() == DebugRetryStep(old(Life()))
    {
      actions := actions + [LeaveMonitorCall];
      state := State.Retry;
      event := true;
    }

    /** The login half of `connect()`. */
    method ConnectLogin(code: int) returns (proceed: bool)
      modifies this`state, this`retryCount, this`event, this`actions
      ensures proceed == LoginOk(code)
      ensures Life() == LoginStep(old(Life()), code)
    {
      state := Login;
      actions := actions + [LoginCall];
      proceed := code == 0 || code == AlreadyLoggedIn;
      if !proceed {
        state := LoginFailed;
        Retry();
        return;
      }
      state := LoginDone;
    }

    /** The monitor thread of `connect()`. */
    method ConnectMonitor(code: int)
      modifies this`state, this`retryCount, this`event, this`actions
      ensures Life() == ProtoMonitorStep(old(Life()), code)
    {
      state := Monitor;
      actions := actions + [EnterMonitorCall];
      if code != 0 {
        state := MonitorFailed;
        Retry();
      }
    }

    method OnConnection(kind: int, code: int)
      modifies this`state, this`retryCount, this`event
      ensures Life() == ProtoConnectionStep(old(Life()), kind)
    {
      if kind == KindReady {
        state := MonitorDone;
        retryCount := 0;
        event := true;
      }
      if kind == KindClosed {
        event := true;
      }
    }

    /** `OnNotifyTicks`: the tick is only printed, then a retry is forced. */
    method OnNotifyTicks()
      modifies this`state, this`event, this`actions
      ensures Life() == DebugRetryStep(old(Life()))
    {
      DebugRetry();
    }

    /** `request()` once the event is set: the fixed product is subscribed
        only when the monitor is ready. */
    method Request() returns (subscribed: bool)
      modifies this`actions
      ensures subscribed <==> state == MonitorDone
      ensures actions == old(actions) + (if subscribed then [RequestTicksCall(FixedProduct)] else [])
    {
      subscribed := state == MonitorDone;
      if subscribed {
        actions := actions + [RequestTicksCall(FixedProduct)];
      }
    }

    /** The prototype's `root_task` over a script of provider behaviour. */
    method RootTask(script: seq<Attempt>) returns (outcome: Outcome)
      modifies this`state, this`retryCount, this`event, this`actions
      ensures (Life(), outcome) == ProtoRun(old(Life()), script)
    {
      var i := 0;
      while state == Idle || state == State.Retry
        invariant 0 <= i <= |script|
        invariant ProtoRun(Life(), script[i..]) == ProtoRun(old(Life()), script)
        decreases |script| - i
      {
        if i == |script| {
          return ScriptEnd;
        }
        ghost var before := Life();
        state := Idle;
        event := false;
        var proceed := ConnectLogin(script[i].login);
        if proceed {
          if script[i].ctrlC {
            // the pump returns on STOP; `connect()` still starts the thread
            CtrlC();
            actions := actions + [EnterMonitorCall];
          } else {
            ConnectMonitor(script[i].enter);
          }
        }
        assert Life() == ProtoRound(before, script[i]);
        if !(event && (state == State.Retry || state == State.Stop)) {
          return Running;
        }
        assert script[i..][1..] == script[i + 1..];
        i := i + 1;
      }
      outcome := Ended;
    }
  }
}
