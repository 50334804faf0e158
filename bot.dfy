/** The sample notification bot of skcom/samples/bot.py. From a security's
    daily candles it derives six moving-average levels and three volume
    levels, each list sorted by value; on every tick it finds the step the
    close and the accumulated volume stand on, notices step changes, and
    damps notices while the close keeps crossing one average back and forth
    ("shaking"), with a notice interval that grows 10, 30, 60, 90 ... minutes. */
module Bot {
  import opened Py
  import opened Ticks
  import opened Kline

  /** A level: its value and a label (days of an average, or a name). */
  type Level<L> = (real, L)

  // ---------------------------------------------------------------- steps

  /** The step `x` stands on: the index of the last level of the leading run
      whose values are all at most `x`, or -1 when `x` is below the first. */
  function Step<L>(levels: seq<Level<L>>, x: real): (r: int)
    ensures -1 <= r < |levels|
    ensures forall i :: 0 <= i <= r ==> levels[i].0 <= x
    ensures r + 1 < |levels| ==> x < levels[r + 1].0
  {
    if levels == [] || x < levels[0].0 then -1
    else 1 + Step(levels[1..], x)
  }

  /** The two facts of `Step`'s contract pin its result down: no other index
      has them. */
  lemma {:induction false} StepUnique<L>(levels: seq<Level<L>>, x: real, k: int)
    requires -1 <= k < |levels|
    requires forall i :: 0 <= i <= k ==> levels[i].0 <= x
    requires k + 1 < |levels| ==> x < levels[k + 1].0
    ensures k == Step(levels, x)
    decreases |levels|
  {
    if k >= 0 {
      assert levels[0].0 <= x;
      forall i | 0 <= i <= k - 1 ensures levels[1..][i].0 <= x {
        assert levels[1..][i] == levels[i + 1];
      }
      StepUnique(levels[1..], x, k - 1);
    }
  }

  predicate SortedByValue<L>(s: seq<Level<L>>)
  {
    forall i, j :: 0 <= i < j < |s| ==> s[i].0 <= s[j].0
  }

  /** On sorted levels the step counts the levels at most `x`: a level is at
      or below the step exactly when its value is at most `x`. */
  lemma StepSorted<L>(levels: seq<Level<L>>, x: real)
    requires SortedByValue(levels)
    ensures forall i :: 0 <= i < |levels| ==> (i <= Step(levels, x) <==> levels[i].0 <= x)
  {
    var r := Step(levels, x);
    forall i | 0 <= i < |levels| && r < i
      ensures x < levels[i].0
    {
      assert levels[r + 1].0 <= levels[i].0;
    }
  }

  /** On sorted levels a higher price or volume never stands on a lower step. */
  lemma StepMonotone<L>(levels: seq<Level<L>>, x: real, y: real)
    requires SortedByValue(levels) && x <= y
    ensures Step(levels, x) <= Step(levels, y)
  {
    StepSorted(levels, x);
    StepSorted(levels, y);
    var r := Step(levels, x);
    if r >= 0 {
      assert levels[r].0 <= y;
    }
  }

  /** `get_avgline_step` / `get_volume_step`: walk the levels and stop at
      the first one above `x`. */
  method StepLoop<L>(levels: seq<Level<L>>, x: real) returns (step: int)
    ensures step == Step(levels, x)
  {
    step := -1;
    var i := 0;
    while i < |levels|
      invariant 0 <= i <= |levels| && step == i - 1
      invariant Step(levels, x) == i + Step(levels[i..], x)
    {
      if x < levels[i].0 {
        return;
      }
      assert levels[i..][1..] == levels[i + 1..];
      step := step + 1;
      i := i + 1;
    }
  }

  // ---------------------------------------------------------------- sorting

  /** Places `x` after every level of `t` whose value is at most its own. */
  function Insert<L>(t: seq<Level<L>>, x: Level<L>): (r: seq<Level<L>>)
    ensures |r| == |t| + 1
  {
    if t == [] then [x]
    else if t[0].0 <= x.0 then [t[0]] + Insert(t[1..], x)
    else [x] + t
  }

  /** `list.sort(key=itemgetter(0))`: a stable sort by value. */
  function SortByValue<L>(s: seq<Level<L>>): (r: seq<Level<L>>)
    ensures |r| == |s|
  {
    if s == [] then [] else Insert(SortByValue(s[..|s| - 1]), s[|s| - 1])
  }

  /** The levels of `s` with value `v`, in order. */
  function WithValue<L>(s: seq<Level<L>>, v: real): seq<Level<L>>
  {
    if s == [] then []
    else (if s[0].0 == v then [s[0]] else []) + WithValue(s[1..], v)
  }

  lemma {:induction false} WithValueAppend<L>(s: seq<Level<L>>, x: Level<L>, v: real)
    ensures WithValue(s + [x], v) == WithValue(s, v) + (if x.0 == v then [x] else [])
    decreases |s|
  {
    if s == [] {
      assert [x][1..] == [];
    } else {
      assert (s + [x])[0] == s[0];
      assert (s + [x])[1..] == s[1..] + [x];
      WithValueAppend(s[1..], x, v);
      var h := if s[0].0 == v then [s[0]] else [];
      var e := if x.0 == v then [x] else [];
      assert WithValue(s + [x], v) == h + (WithValue(s[1..], v) + e);
      assert h + (WithValue(s[1..], v) + e) == (h + WithValue(s[1..], v)) + e;
    }
  }

  /** A sorted list whose first value exceeds `v` has no level of value `v`. */
  lemma {:induction false} NoneBelowHead<L>(t: seq<Level<L>>, v: real)
    requires SortedByValue(t) && t != [] && v < t[0].0
    ensures WithValue(t, v) == []
    decreases |t|
  {
    if |t| > 1 {
      NoneBelowHead(t[1..], v);
    }
  }

  /** Insertion adds exactly `x`. */
  lemma {:induction false} InsertCount<L>(t: seq<Level<L>>, x: Level<L>)
    ensures multiset(Insert(t, x)) == multiset(t) + multiset{x}
    decreases |t|
  {
    if t != [] && t[0].0 <= x.0 {
      InsertCount(t[1..], x);
      assert t == [t[0]] + t[1..];
    }
  }

  /** Insertion into a sorted list keeps it sorted. */
  lemma {:induction false} InsertSorted<L>(t: seq<Level<L>>, x: Level<L>)
    requires SortedByValue(t)
    ensures SortedByValue(Insert(t, x))
    decreases |t|
  {
    if t != [] && t[0].0 <= x.0 {
      var rest := Insert(t[1..], x);
      InsertSorted(t[1..], x);
      InsertCount(t[1..], x);
      forall j | 0 <= j < |rest| ensures t[0].0 <= rest[j].0 {
        assert rest[j] in multiset(t[1..]) + multiset{x};
      }
    }
  }

  /** Insertion puts `x` after the levels of its value already present. */
  lemma {:induction false} InsertStable<L>(t: seq<Level<L>>, x: Level<L>, v: real)
    requires SortedByValue(t)
    ensures WithValue(Insert(t, x), v) == WithValue(t, v) + (if x.0 == v then [x] else [])
    decreases |t|
  {
    if t == [] {
      assert [x][1..] == [];
    } else if t[0].0 <= x.0 {
      InsertStable(t[1..], x, v);
      assert ([t[0]] + Insert(t[1..], x))[1..] == Insert(t[1..], x);
    } else {
      assert ([x] + t)[1..] == t;
      if x.0 == v {
        NoneBelowHead(t, v);
      }
    }
  }

  /** The sort's result is ordered by value, holds the same levels, and keeps
      levels of equal value in their original order. */
  lemma {:induction false} SortByValueSpec<L>(s: seq<Level<L>>)
    ensures SortedByValue(SortByValue(s))
    ensures multiset(SortByValue(s)) == multiset(s)
    ensures forall v :: WithValue(SortByValue(s), v) == WithValue(s, v)
    decreases |s|
  {
    if s != [] {
      var init, last := s[..|s| - 1], s[|s| - 1];
      SortByValueSpec(init);
      InsertSorted(SortByValue(init), last);
      InsertCount(SortByValue(init), last);
      assert s == init + [last];
      forall v ensures WithValue(SortByValue(s), v) == WithValue(s, v) {
        InsertStable(SortByValue(init), last, v);
        WithValueAppend(init, last, v);
      }
    }
  }

  // ---------------------------------------------------------------- candles to levels

  function Sum(xs: seq<real>): real
  {
    if xs == [] then 0.0 else xs[0] + Sum(xs[1..])
  }

  /** `reduce(fsum, map(f, quotes[0:n]), 0) / n`: the sum of the first `n`
      values divided by `n`, even when there are fewer than `n`. */
  function Avg(xs: seq<real>, n: nat): real
    requires n > 0
  {
    Sum(Slice(xs, 0, n)) / (n as real)
  }

  /** With fewer values than its window and a positive sum, an average is
      below the mean of the values it has. */
  lemma AvgShortWindow(xs: seq<real>, n: nat)
    requires 0 < |xs| < n && Sum(xs) > 0.0
    ensures Avg(xs, n) < Sum(xs) / (|xs| as real)
  {
    SliceHead(xs, n);
    var m, k, total := |xs| as real, n as real, Sum(xs);
    assert total / k < total / m by {
      assert total * m < total * k;
    }
  }

  function MaxOf(xs: seq<real>): (r: real)
    requires xs != []
    ensures r in xs && forall i :: 0 <= i < |xs| ==> xs[i] <= r
  {
    if |xs| == 1 then xs[0]
    else var m := MaxOf(xs[1..]); if xs[0] < m then m else xs[0]
  }

  function Closes(qs: seq<Quote>): (r: seq<real>)
    ensures |r| == |qs| && forall i :: 0 <= i < |qs| ==> r[i] == qs[i].close
  {
    if qs == [] then [] else [qs[0].close] + Closes(qs[1..])
  }

  function Volumes(qs: seq<Quote>): (r: seq<real>)
    ensures |r| == |qs| && forall i :: 0 <= i < |qs| ==> r[i] == qs[i].volume as real
  {
    if qs == [] then [] else [qs[0].volume as real] + Volumes(qs[1..])
  }

  /** The six moving-average levels, labelled with their days, before sorting. */
  function AvgLevels(qs: seq<Quote>): seq<Level<int>>
  {
    var c := Closes(qs);
    [(Avg(c, 5), 5), (Avg(c, 10), 10), (Avg(c, 20), 20),
     (Avg(c, 60), 60), (Avg(c, 120), 120), (Avg(c, 240), 240)]
  }

  /** The three volume levels before sorting: the 60- and 20-day average
      volume and the largest volume of the first 20 days. */
  function VolumeLevels(qs: seq<Quote>): seq<Level<string>>
    requires qs != []
  {
    var v := Volumes(qs);
    [(Avg(v, 60), "季均量"), (Avg(v, 20), "月均量"), (MaxOf(Slice(v, 0, 20)), "月最大量")]
  }

  // ---------------------------------------------------------------- shaking

  /** A shaking record: the tick time and the step change (+1 or -1). */
  type Footprint = (string, int)

  /** The per-security state that follows the average steps. */
  datatype Watch = Watch(curr: int, log: seq<Footprint>, threshold: int)

  /** What the bot reports; the source logs these lines. */
  datatype Notice =
    | Crossed(id: string, up: bool, days: int)        // a step change, notified at once
    | Shaking(id: string, days: int, minutes: real)   // a crossing while shaking
    | VolumeBreak(id: string, name: string)           // a new volume step

  /** The minutes of a clock string `hh:mm:ss`; `None` where the split or
      the `int()`/`float()` conversions raise. */
  function ClockMinutes(t: string): Option<real>
  {
    var f := Split(t, ":");
    if |f| != 3 then None
    else match (ParseInt(f[0]), ParseInt(f[1]), ParseInt(f[2]))
      case (Some(h), Some(m), Some(s)) => Some((h * 60 + m) as real + (s as real) / 60.0)
      case _ => None
  }

  /** `sub_minutes(t1, t2)`: minutes from `t1` to `t2`. */
  function SubMinutes(t1: string, t2: string): Option<real>
  {
    match (ClockMinutes(t1), ClockMinutes(t2))
    case (Some(m1), Some(m2)) => Some(m2 - m1)
    case _ => None
  }

  /** The minutes since midnight of a packed `HHMMSS` time. */
  function HmsMinutes(hms: int): real
  {
    ((hms / 10000) * 60 + hms / 100 % 100) as real + ((hms % 100) as real) / 60.0
  }

  /** Three fields that parse as the hour, minute and second of a packed
      time give that time's minutes. */
  lemma ClockMinutesOf(c: string, hms: int)
    requires |Split(c, ":")| == 3
    requires ParseInt(Split(c, ":")[0]) == Some(hms / 10000)
    requires ParseInt(Split(c, ":")[1]) == Some(hms / 100 % 100)
    requires ParseInt(Split(c, ":")[2]) == Some(hms % 100)
    ensures ClockMinutes(c) == Some(HmsMinutes(hms))
  {
  }

  /** The clock part of a tick time string reads back as its minutes. */
  lemma ClockOfTick(hms: int, ms: int)
    requires 0 <= hms < 1000000 && 0 <= ms < 1000000
    ensures ClockMinutes(Slice(TimeString(hms, ms), 0, 8)) == Some(HmsMinutes(hms))
  {
    var r := TimeString(hms, ms);
    TimeStringFields(hms, ms);
    SliceHead(r, 8);
    ClockMinutesOf(r[..8], hms);
  }

  /** `sub_minutes` of two clocks that read back is the difference of their minutes. */
  lemma SubMinutesOf(t1: string, t2: string, m1: real, m2: real)
    requires ClockMinutes(t1) == Some(m1) && ClockMinutes(t2) == Some(m2)
    ensures SubMinutes(t1, t2) == Some(m2 - m1)
  {
  }

  /** The first notice interval, and the one a broken shaking resets to. */
  const FirstInterval := 10

  /** Intervals only take the values 10, 30, 60, 90, ... */
  predicate OnLadder(th: int)
  {
    th == FirstInterval || (th >= 30 && th % 30 == 0)
  }

  /** 10 becomes 30; any other interval grows by 30. From a rung of the
      ladder that is the next rung up: no interval lies strictly between. */
  function NextInterval(th: int): (r: int)
    ensures r > th
    ensures OnLadder(th) ==> OnLadder(r) && forall t :: th < t < r ==> !OnLadder(t)
  {
    if th == FirstInterval then 30
    else
      forall t | th < t < th + 30 && OnLadder(th)
        ensures !OnLadder(t)
      {
        var q := th / 30;
        assert th == 30 * q;
        assert 30 * q < t < 30 * (q + 1);
        assert t / 30 == q;
      }
      th + 30
  }

  /** A step change counts as shaking when it is one step and the log is
      empty or its last change went the other way. */
  predicate IsShaking(log: seq<Footprint>, vector: int)
  {
    (vector == 1 || vector == -1) && (log == [] || log[|log| - 1].1 + vector == 0)
  }

  /** The log holds one-step changes of alternating direction. */
  predicate Alternating(log: seq<Footprint>)
  {
    && (forall i :: 0 <= i < |log| ==> log[i].1 == 1 || log[i].1 == -1)
    && (forall i :: 0 < i < |log| ==> log[i].1 == -log[i - 1].1)
  }

  /** The outcome of a close for one security's average steps. */
  datatype Move = Move(watch: Watch, notice: Option<Notice>, timeOk: bool)

  /** The average half of `on_receive_ticks` for a close that stands on
      `astep`; `timeOk` is false where `sub_minutes` raises, after the log
      was already updated and before the step is remembered. */
  function AvglineMove(id: string, levels: seq<Level<int>>, w: Watch, astep: int, time: string): Move
    requires -1 <= w.curr < |levels| && -1 <= astep < |levels|
  {
    if astep == w.curr then Move(w, None, true)
    else
      var vector := astep - w.curr;
      var shaking := IsShaking(w.log, vector);
      var log := if shaking then w.log + [(time, vector)] else [];
      var th := if shaking then w.threshold else FirstInterval;
      var days := if astep > w.curr then levels[astep].1 else levels[astep + 1].1;
      Settle(id, w.curr, astep, log, th, days)
  }

  /** The notice half of a step change, once the log and the interval are
      updated: a crossing notice while fewer than three changes are logged,
      otherwise a shaking notice when the logged span reaches the interval. */
  function Settle(id: string, curr: int, astep: int, log: seq<Footprint>, th: int, days: int): (m: Move)
    ensures m.watch.log == log
    ensures m.watch.threshold == th || m.watch.threshold == NextInterval(th)
    ensures m.timeOk ==> m.watch.curr == astep
    ensures !m.timeOk ==> m.watch.curr == curr && m.notice.None? && m.watch.threshold == th
  {
    if |log| < 3 then Move(Watch(astep, log, th), Some(Crossed(id, astep > curr, days)), true)
    else match SubMinutes(log[0].0, log[|log| - 1].0)
      case None => Move(Watch(curr, log, th), None, false)
      case Some(m) =>
        if m >= th as real then Move(Watch(astep, log, NextInterval(th)), Some(Shaking(id, days, m)), true)
        else Move(Watch(astep, log, th), None, true)
  }

  /** A change is logged exactly when it is shaking; otherwise the log is
      cleared and the interval reset to 10. An unchanged step changes nothing. */
  lemma ShakingLogged(id: string, levels: seq<Level<int>>, w: Watch, astep: int, time: string)
    requires -1 <= w.curr < |levels| && -1 <= astep < |levels|
    ensures var m := AvglineMove(id, levels, w, astep, time);
      && (astep == w.curr ==> m == Move(w, None, true))
      && (astep != w.curr && IsShaking(w.log, astep - w.curr) ==>
            m.watch.log == w.log + [(time, astep - w.curr)])
      && (astep != w.curr && !IsShaking(w.log, astep - w.curr) ==>
            m.watch.log == [] && m.watch.threshold == FirstInterval)
  {
  }

  /** While fewer than three crossings are logged every change is notified
      at once, upward exactly when the step rose, naming the average crossed. */
  lemma QuietCrossingsNotified(id: string, levels: seq<Level<int>>, w: Watch, astep: int, time: string)
    requires -1 <= w.curr < |levels| && -1 <= astep < |levels| && astep != w.curr
    requires !IsShaking(w.log, astep - w.curr) || |w.log| < 2
    ensures var m := AvglineMove(id, levels, w, astep, time);
      && m.timeOk && m.watch.curr == astep
      && m.notice == Some(Crossed(id, astep > w.curr,
                                  if astep > w.curr then levels[astep].1 else levels[astep + 1].1))
  {
  }

  /** While shaking, a notice is sent only once the minutes since the first
      logged crossing reach the interval, and then the interval climbs the
      ladder; below it the crossing is silent. */
  lemma ShakingDamped(id: string, levels: seq<Level<int>>, w: Watch, astep: int, time: string)
    requires -1 <= w.curr < |levels| && -1 <= astep < |levels| && astep != w.curr
    requires IsShaking(w.log, astep - w.curr) && |w.log| >= 2
    ensures var m := AvglineMove(id, levels, w, astep, time);
      var log := w.log + [(time, astep - w.curr)];
      match SubMinutes(log[0].0, time)
      case None => !m.timeOk && m.watch.curr == w.curr && m.notice.None?
      case Some(passed) =>
        && m.timeOk && m.watch.curr == astep
        && (passed >= w.threshold as real <==> m.notice.Some?)
        && m.watch.threshold == (if passed >= w.threshold as real then NextInterval(w.threshold) else w.threshold)
  {
    var log := w.log + [(time, astep - w.curr)];
    assert log[|log| - 1].0 == time;
  }

  /** Logging a shaking change keeps the log alternating. */
  lemma AlternatingAppend(log: seq<Footprint>, time: string, vector: int)
    requires Alternating(log) && IsShaking(log, vector)
    ensures Alternating(log + [(time, vector)])
  {
    var l := log + [(time, vector)];
    assert forall i :: 0 <= i < |log| ==> l[i] == log[i];
  }

  /** The log keeps alternating and the interval stays on its ladder. */
  lemma MoveKeepsShape(id: string, levels: seq<Level<int>>, w: Watch, astep: int, time: string)
    requires -1 <= w.curr < |levels| && -1 <= astep < |levels|
    requires Alternating(w.log) && OnLadder(w.threshold)
    ensures var m := AvglineMove(id, levels, w, astep, time);
      && Alternating(m.watch.log) && OnLadder(m.watch.threshold)
      && -1 <= m.watch.curr < |levels|
  {
    if astep != w.curr {
      var vector := astep - w.curr;
      var shaking := IsShaking(w.log, vector);
      if shaking {
        AlternatingAppend(w.log, time, vector);
      }
      var log := if shaking then w.log + [(time, vector)] else [];
      var th := if shaking then w.threshold else FirstInterval;
      assert Alternating(log) && OnLadder(th) && OnLadder(NextInterval(th));
    }
  }

  /** The volume half of `on_receive_ticks`: the new step, and the name of
      its level (the last level for step -1, as Python indexes) when it
      differs from the stored step. */
  function VolumeMove(id: string, levels: seq<Level<string>>, curr: int, volume: int): (int, seq<Notice>)
    requires |levels| > 0
  {
    var vstep := Step(levels, volume as real);
    if vstep == curr then (curr, [])
    else (vstep, [VolumeBreak(id, PyIndex(levels, vstep).1)])
  }

  /** A volume notice is issued exactly when the volume step changes, and
      the stored step is then the volume's step. */
  lemma VolumeNoticeOnChange(id: string, levels: seq<Level<string>>, curr: int, volume: int)
    requires |levels| > 0
    ensures var r := VolumeMove(id, levels, curr, volume);
      var vstep := Step(levels, volume as real);
      && r.0 == vstep
      && (vstep == curr <==> r.1 == [])
      && (vstep >= 0 ==> r.1 == [] || r.1 == [VolumeBreak(id, levels[vstep].1)])
  {
  }

  // ---------------------------------------------------------------- the bot's state

  /** The bot's dictionaries, keyed by security id, and the notices so far. */
  datatype BotState = BotState(
    avglineSteps: map<string, seq<Level<int>>>,
    avglineCurr: map<string, int>,
    volumeSteps: map<string, seq<Level<string>>>,
    volumeCurr: map<string, int>,
    shakingLog: map<string, seq<Footprint>>,
    freqThreshold: map<string, int>,
    notices: seq<Notice>)

  /** Every entry `on_receive_ticks` reads for the security is present, and
      its step indexes its levels. */
  predicate Tracked(b: BotState, id: string)
  {
    && id in b.avglineSteps && id in b.avglineCurr && id in b.volumeSteps
    && id in b.volumeCurr && id in b.shakingLog && id in b.freqThreshold
    && -1 <= b.avglineCurr[id] < |b.avglineSteps[id]| && |b.volumeSteps[id]| > 0
  }

  /** The shape `on_receive_kline` gives a security: six sorted averages,
      three sorted volume levels, a volume step in range, an alternating log
      and an interval on the ladder. */
  predicate Shaped(b: BotState, id: string)
    requires Tracked(b, id)
  {
    && |b.avglineSteps[id]| == 6 && SortedByValue(b.avglineSteps[id])
    && |b.volumeSteps[id]| == 3 && SortedByValue(b.volumeSteps[id])
    && -1 <= b.volumeCurr[id] < 3
    && Alternating(b.shakingLog[id]) && OnLadder(b.freqThreshold[id])
  }

  /** Every security with a current step is tracked and shaped. */
  predicate Valid(b: BotState)
  {
    forall id :: id in b.avglineCurr ==> Tracked(b, id) && Shaped(b, id)
  }

  function WatchOf(b: BotState, id: string): Watch
    requires Tracked(b, id)
  {
    Watch(b.avglineCurr[id], b.shakingLog[id], b.freqThreshold[id])
  }

  function Listed(n: Option<Notice>): seq<Notice>
  {
    if n.Some? then [n.value] else []
  }

  /** The state after the average half of a tick. */
  function Remember(b: BotState, id: string, m: Move): BotState
  {
    b.(avglineCurr := b.avglineCurr[id := m.watch.curr],
       shakingLog := b.shakingLog[id := m.watch.log],
       freqThreshold := b.freqThreshold[id := m.watch.threshold],
       notices := b.notices + Listed(m.notice))
  }

  /** How a tick was handled. */
  datatype TickOutcome =
    | NoKline          // no daily candles received yet: the tick is ignored
    | UnknownSecurity  // a dictionary lookup raises `KeyError`
    | BadTime          // `sub_minutes` raises on the tick time
    | Handled

  /** `vs[i]` for `-|vs| <= i < |vs|`, negative indices counting from the end. */
  function PyIndex<T>(vs: seq<T>, i: int): T
    requires -|vs| <= i < |vs|
  {
    if i < 0 then vs[|vs| + i] else vs[i]
  }

  /** `on_receive_ticks`. */
  function OnTick(b: BotState, t: Tick): (BotState, TickOutcome)
    requires Valid(b)
  {
    if b.avglineSteps == map[] then (b, NoKline)
    else if t.id !in b.avglineCurr then (b, UnknownSecurity)
    else
      var id := t.id;
      assert Tracked(b, id);
      var levels := b.avglineSteps[id];
      var m := AvglineMove(id, levels, WatchOf(b, id), Step(levels, t.close), Slice(t.time, 0, 8));
      var b1 := Remember(b, id, m);
      if !m.timeOk then (b1, BadTime)
      else
        var v := VolumeMove(id, b.volumeSteps[id], b.volumeCurr[id], t.vol);
        (b1.(volumeCurr := b1.volumeCurr[id := v.0], notices := b1.notices + v.1), Handled)
  }

  /** Every tick keeps the bot's state valid. */
  lemma TickKeepsValid(b: BotState, t: Tick)
    requires Valid(b)
    ensures Valid(OnTick(b, t).0)
  {
    if b.avglineSteps != map[] && t.id in b.avglineCurr {
      var id := t.id;
      assert Tracked(b, id) && Shaped(b, id);
      var levels := b.avglineSteps[id];
      var m := AvglineMove(id, levels, WatchOf(b, id), Step(levels, t.close), Slice(t.time, 0, 8));
      MoveKeepsShape(id, levels, WatchOf(b, id), Step(levels, t.close), Slice(t.time, 0, 8));
      RememberKeepsValid(b, id, m);
      if m.timeOk {
        var b1 := Remember(b, id, m);
        var v := VolumeMove(id, b.volumeSteps[id], b.volumeCurr[id], t.vol);
        assert b1.volumeSteps[id] == b.volumeSteps[id];
        VolumeKeepsValid(b1, id, v.0, v.1);
      }
    }
  }

  lemma RememberKeepsValid(b: BotState, id: string, m: Move)
    requires Valid(b) && id in b.avglineCurr
    requires -1 <= m.watch.curr < |b.avglineSteps[id]|
    requires Alternating(m.watch.log) && OnLadder(m.watch.threshold)
    ensures Valid(Remember(b, id, m))
  {
    var r := Remember(b, id, m);
    forall other | other in r.avglineCurr ensures Tracked(r, other) && Shaped(r, other) {
      assert Tracked(b, other) && Shaped(b, other);
    }
  }

  lemma VolumeKeepsValid(b: BotState, id: string, v: int, ns: seq<Notice>)
    requires Valid(b) && id in b.avglineCurr && -1 <= v < |b.volumeSteps[id]|
    ensures Valid(b.(volumeCurr := b.volumeCurr[id := v], notices := b.notices + ns))
  {
    var r := b.(volumeCurr := b.volumeCurr[id := v], notices := b.notices + ns);
    forall other | other in r.avglineCurr ensures Tracked(r, other) && Shaped(r, other) {
      assert Tracked(b, other) && Shaped(b, other);
    }
  }

  /** A handled tick leaves the security on the step of its close and on the
      step of its volume; the levels and every other security stay as they were. */
  lemma TickFollowsSteps(b: BotState, t: Tick, other: string)
    requires Valid(b) && OnTick(b, t).1 == Handled && other != t.id
    ensures var r := OnTick(b, t).0;
      && r.avglineCurr[t.id] == Step(b.avglineSteps[t.id], t.close)
      && r.volumeCurr[t.id] == Step(b.volumeSteps[t.id], t.vol as real)
      && r.avglineSteps == b.avglineSteps && r.volumeSteps == b.volumeSteps
      && (other in b.avglineCurr ==>
            && r.avglineCurr[other] == b.avglineCurr[other]
            && r.volumeCurr[other] == b.volumeCurr[other]
            && r.shakingLog[other] == b.shakingLog[other]
            && r.freqThreshold[other] == b.freqThreshold[other])
  {
    var id := t.id;
    assert Tracked(b, id);
    var levels := b.avglineSteps[id];
    var astep := Step(levels, t.close);
    MoveLandsOnStep(id, levels, WatchOf(b, id), astep, Slice(t.time, 0, 8));
  }

  /** A move whose time could be read leaves the watch on the new step. */
  lemma MoveLandsOnStep(id: string, levels: seq<Level<int>>, w: Watch, astep: int, time: string)
    requires -1 <= w.curr < |levels| && -1 <= astep < |levels|
    ensures var m := AvglineMove(id, levels, w, astep, time);
      m.timeOk ==> m.watch.curr == astep
  {
  }

  /** `on_receive_kline`; false where `max()` of no volumes raises, after the
      average levels were already stored. */
  function OnKline(b: BotState, k: Series): (BotState, bool)
  {
    var id := k.id;
    var levels := SortByValue(AvgLevels(k.quotes));
    var b1 := b.(avglineSteps := b.avglineSteps[id := levels]);
    if k.quotes == [] then (b1, false)
    else
      (b1.(volumeSteps := b1.volumeSteps[id := SortByValue(VolumeLevels(k.quotes))],
           volumeCurr := b1.volumeCurr[id := -1],
           shakingLog := b1.shakingLog[id := []],
           freqThreshold := b1.freqThreshold[id := FirstInterval],
           avglineCurr := b1.avglineCurr[id := Step(levels, k.quotes[0].close)]), true)
  }

  /** Candles reset a security: sorted levels holding the averages and the
      volume levels, no volume step, an empty log, the first interval, and
      the step of the first (latest) close. No notice is issued. */
  lemma KlineStarts(b: BotState, k: Series)
    requires k.quotes != []
    ensures var r := OnKline(b, k);
      var id := k.id;
      && r.1
      && SortedByValue(r.0.avglineSteps[id]) && multiset(r.0.avglineSteps[id]) == multiset(AvgLevels(k.quotes))
      && SortedByValue(r.0.volumeSteps[id]) && multiset(r.0.volumeSteps[id]) == multiset(VolumeLevels(k.quotes))
      && r.0.volumeCurr[id] == -1 && r.0.shakingLog[id] == [] && r.0.freqThreshold[id] == FirstInterval
      && r.0.avglineCurr[id] == Step(r.0.avglineSteps[id], k.quotes[0].close)
      && r.0.notices == b.notices
  {
    SortByValueSpec(AvgLevels(k.quotes));
    SortByValueSpec(VolumeLevels(k.quotes));
  }

  /** Candles leave every other security as it was. */
  lemma KlineLeavesOthers(b: BotState, k: Series, other: string)
    requires other != k.id
    ensures var r := OnKline(b, k).0;
      && (other in r.avglineSteps <==> other in b.avglineSteps)
      && (other in b.avglineSteps ==> r.avglineSteps[other] == b.avglineSteps[other])
      && (other in r.avglineCurr <==> other in b.avglineCurr)
      && (other in b.avglineCurr ==> r.avglineCurr[other] == b.avglineCurr[other])
  {
  }

  /** Candles without quotes store only the average levels, so later ticks
      of a security never seen before raise `KeyError`. */
  lemma EmptyKlineHalfStored(b: BotState, k: Series, t: Tick)
    requires Valid(b) && k.quotes == [] && k.id !in b.avglineCurr && t.id == k.id
    ensures var r := OnKline(b, k);
      && !r.1 && Valid(r.0) && k.id in r.0.avglineSteps
      && OnTick(r.0, t) == (r.0, UnknownSecurity)
  {
    var r := OnKline(b, k);
    forall other | other in r.0.avglineCurr ensures Tracked(r.0, other) && Shaped(r.0, other) {
      assert Tracked(b, other) && Shaped(b, other);
    }
  }

  /** Candles keep the bot's state valid. */
  lemma KlineKeepsValid(b: BotState, k: Series)
    requires Valid(b)
    ensures Valid(OnKline(b, k).0)
  {
    var id := k.id;
    var levels := SortByValue(AvgLevels(k.quotes));
    SortByValueSpec(AvgLevels(k.quotes));
    assert |levels| == 6 by {
      assert |multiset(levels)| == |multiset(AvgLevels(k.quotes))|;
    }
    if k.quotes != [] {
      SortByValueSpec(VolumeLevels(k.quotes));
      var vols := SortByValue(VolumeLevels(k.quotes));
      assert |vols| == 3 by {
        assert |multiset(vols)| == |multiset(VolumeLevels(k.quotes))|;
      }
    }
    var r := OnKline(b, k).0;
    forall other | other in r.avglineCurr ensures Tracked(r, other) && Shaped(r, other) {
      if other != id {
        assert Tracked(b, other) && Shaped(b, other);
      } else if k.quotes == [] {
        assert Tracked(b, other) && Shaped(b, other);
      }
    }
  }

  // ---------------------------------------------------------------- the bot

  /** The statements of `on_receive_ticks` between reading a security's
      current step, log and interval and storing them back. */
  method ChangeStep(id: string, levels: seq<Level<int>>, curr: int, log0: seq<Footprint>, th0: int,
                    astep: int, time: string) returns (m: Move)
    requires -1 <= curr < |levels| && -1 <= astep < |levels|
    ensures m == AvglineMove(id, levels, Watch(curr, log0, th0), astep, time)
  {
    if astep == curr {
      return Move(Watch(curr, log0, th0), None, true);
    }
    var log, th := log0, th0;
    var vector := astep - curr;
    var shaking := false;
    if vector == 1 || vector == -1 {
      shaking := true;
      if log != [] && log[|log| - 1].1 + vector != 0 {
        shaking := false;
      }
    }
    if shaking {
      log := log + [(time, vector)];
    } else {
      log, th := [], FirstInterval;
    }
    var days := if astep > curr then levels[astep].1 else levels[astep + 1].1;
    if |log| < 3 {
      return Move(Watch(astep, log, th), Some(Crossed(id, astep > curr, days)), true);
    }
    var passed := SubMinutes(log[0].0, log[|log| - 1].0);
    if passed.None? {
      return Move(Watch(curr, log, th), None, false);
    }
    if passed.value >= th as real {
      m := Move(Watch(astep, log, NextInterval(th)), Some(Shaking(id, days, passed.value)), true);
    } else {
      m := Move(Watch(astep, log, th), None, true);
    }
  }

  class StockBot {
    var avglineSteps: map<string, seq<Level<int>>>
    var avglineCurr: map<string, int>
    var volumeSteps: map<string, seq<Level<string>>>
    var volumeCurr: map<string, int>
    var shakingLog: map<string, seq<Footprint>>
    var freqThreshold: map<string, int>
    var notices: seq<Notice>

    function State(): BotState
      reads this
    {
      BotState(avglineSteps, avglineCurr, volumeSteps, volumeCurr, shakingLog, freqThreshold, notices)
    }

    constructor ()
      ensures State() == BotState(map[], map[], map[], map[], map[], map[], [])
      ensures Valid(State())
    {
      avglineSteps, avglineCurr := map[], map[];
      volumeSteps, volumeCurr := map[], map[];
      shakingLog, freqThreshold := map[], map[];
      notices := [];
    }

    method GetAvglineStep(id: string, close: real) returns (step: int)
      requires id in avglineSteps
      ensures step == Step(avglineSteps[id], close)
    {
      step := StepLoop(avglineSteps[id], close);
    }

    method GetVolumeStep(id: string, volume: real) returns (step: int)
      requires id in volumeSteps
      ensures step == Step(volumeSteps[id], volume)
    {
      step := StepLoop(volumeSteps[id], volume);
    }

    method OnReceiveKline(k: Series) returns (ok: bool)
      requires Valid(State())
      modifies this
      ensures (State(), ok) == OnKline(old(State()), k)
      ensures Valid(State())
    {
      ghost var r := OnKline(State(), k);
      KlineKeepsValid(State(), k);
      var id := k.id;
      var levels := SortByValue(AvgLevels(k.quotes));
      avglineSteps := avglineSteps[id := levels];
      if k.quotes == [] {
        assert State() == r.0;
        return false;
      }
      ResetSecurity(id, k.quotes);
      assert State() == r.0;
      ok := true;
    }

    /** The volume levels and the per-security entries `on_receive_kline`
        stores once the quotes have a maximum volume. */
    method ResetSecurity(id: string, quotes: seq<Quote>)
      requires id in avglineSteps && quotes != []
      modifies this`volumeSteps, this`volumeCurr, this`shakingLog, this`freqThreshold, this`avglineCurr
      ensures volumeSteps == old(volumeSteps)[id := SortByValue(VolumeLevels(quotes))]
      ensures volumeCurr == old(volumeCurr)[id := -1]
      ensures shakingLog == old(shakingLog)[id := []]
      ensures freqThreshold == old(freqThreshold)[id := FirstInterval]
      ensures avglineCurr == old(avglineCurr)[id := Step(avglineSteps[id], quotes[0].close)]
    {
      volumeSteps := volumeSteps[id := SortByValue(VolumeLevels(quotes))];
      volumeCurr := volumeCurr[id := -1];
      shakingLog := shakingLog[id := []];
      freqThreshold := freqThreshold[id := FirstInterval];
      var step := GetAvglineStep(id, quotes[0].close);
      avglineCurr := avglineCurr[id := step];
    }

    /** The average half of `on_receive_ticks` (the step change, the shaking
        log, the notice and the remembered step) for a close on `astep`. */
    method MoveAvgline(id: string, astep: int, time: string) returns (timeOk: bool)
      requires Tracked(State(), id) && -1 <= astep < |avglineSteps[id]|
      modifies this`avglineCurr, this`shakingLog, this`freqThreshold, this`notices
      ensures var m := AvglineMove(id, avglineSteps[id], old(WatchOf(State(), id)), astep, time);
        State() == Remember(old(State()), id, m) && timeOk == m.timeOk
    {
      var m := ChangeStep(id, avglineSteps[id], avglineCurr[id], shakingLog[id], freqThreshold[id], astep, time);
      avglineCurr := avglineCurr[id := m.watch.curr];
      shakingLog := shakingLog[id := m.watch.log];
      freqThreshold := freqThreshold[id := m.watch.threshold];
      notices := notices + Listed(m.notice);
      timeOk := m.timeOk;
    }

    method OnReceiveTicks(t: Tick) returns (outcome: TickOutcome)
      requires Valid(State())
      modifies this
      ensures (State(), outcome) == OnTick(old(State()), t)
      ensures Valid(State())
    {
      TickKeepsValid(State(), t);
      if avglineSteps == map[] {
        return NoKline;
      }
      var id := t.id;
      if id !in avglineSteps || id !in avglineCurr {
        return UnknownSecurity;
      }
      assert Tracked(State(), id);
      var astep := GetAvglineStep(id, t.close);
      var timeOk := MoveAvgline(id, astep, Slice(t.time, 0, 8));
      if !timeOk {
        return BadTime;
      }
      var vstep := GetVolumeStep(id, t.vol as real);
      if vstep != volumeCurr[id] {
        volumeCurr := volumeCurr[id := vstep];
        notices := notices + [VolumeBreak(id, PyIndex(volumeSteps[id], vstep).1)];
      } else {
        assert volumeCurr == volumeCurr[id := vstep];
        assert notices == notices + [];
      }
      outcome := Handled;
    }
  }
}
