/** Timers: one pass over the timer list, the poll timeout, and the firing times of one timer over
    every run of the loop. `C` is what identifies a callback. */
module Timers {
  datatype Timeout<C> = Timeout(deadline: nat, interval: nat, callback: C, recurring: bool)

  const IDLE_POLL_MS := 1000

  predicate Due<C>(t: Timeout<C>, now: nat) {
    now >= t.deadline
  }

  /** The timers that one pass at time `now` fires, in list order. */
  function Fired<C>(ts: seq<Timeout<C>>, now: nat): seq<Timeout<C>> {
    if ts == [] then []
    else (if Due(ts[0], now) then [ts[0]] else []) + Fired(ts[1..], now)
  }

  /** The list that one pass leaves: fired one-shots are gone, fired recurring timers restart. */
  function After<C>(ts: seq<Timeout<C>>, now: nat): seq<Timeout<C>> {
    if ts == [] then [] else AfterOne(ts[0], now) + After(ts[1..], now)
  }

  function AfterOne<C>(t: Timeout<C>, now: nat): seq<Timeout<C>> {
    if !Due(t, now) then [t]
    else if t.recurring then [t.(deadline := now + t.interval)]
    else []
  }

  function Earliest<C>(ts: seq<Timeout<C>>): (d: nat)
    requires ts != []
    ensures forall t :: t in ts ==> d <= t.deadline
    ensures exists t :: t in ts && d == t.deadline
  {
    if |ts| == 1 then ts[0].deadline
    else
      var rest := Earliest(ts[1..]);
      assert exists t :: t in ts[1..] && rest == t.deadline;
      if ts[0].deadline < rest then ts[0].deadline else rest
  }

  /** How long the loop lets `poll` wait. */
  function Wait<C>(ts: seq<Timeout<C>>, now: nat): nat {
    if ts == [] then IDLE_POLL_MS
    else if Earliest(ts) <= now then 0
    else if Earliest(ts) - now < IDLE_POLL_MS then Earliest(ts) - now
    else IDLE_POLL_MS
  }

  lemma PassCons<C>(t: Timeout<C>, rest: seq<Timeout<C>>, now: nat)
    ensures Fired([t] + rest, now) == (if Due(t, now) then [t] else []) + Fired(rest, now)
    ensures After([t] + rest, now) == AfterOne(t, now) + After(rest, now)
  {
    assert ([t] + rest)[1..] == rest;
  }

  lemma {:induction false} PassAppend<C>(a: seq<Timeout<C>>, b: seq<Timeout<C>>, now: nat)
    ensures Fired(a + b, now) == Fired(a, now) + Fired(b, now)
    ensures After(a + b, now) == After(a, now) + After(b, now)
  {
    if a == [] {
      assert a + b == b;
    } else {
      var t, rest := a[0], a[1..];
      PassAppend(rest, b, now);
      assert a + b == [t] + (rest + b);
      PassCons(t, rest + b, now);
      Regroup(if Due(t, now) then [t] else [], Fired(rest, now), Fired(b, now));
      Regroup(AfterOne(t, now), After(rest, now), After(b, now));
    }
  }

  lemma Regroup<T>(a: seq<T>, b: seq<T>, c: seq<T>)
    ensures a + (b + c) == a + b + c
  {
  }

  /** One more timer: the pass so far is `done`, the timers still to be looked at start at `i`. */
  lemma PassOneMore<C>(was: seq<Timeout<C>>, seen: nat, ts: seq<Timeout<C>>, i: nat, now: nat)
    requires seen <= |was| && i < |ts|
    requires ts[i..] == was[seen..] && ts[..i] == After(was[..seen], now)
    ensures seen < |was| && ts[i] == was[seen]
    ensures Fired(was[..seen + 1], now) == Fired(was[..seen], now) + (if Due(ts[i], now) then [ts[i]] else [])
    ensures After(was[..seen + 1], now) == ts[..i] + AfterOne(ts[i], now)
    ensures ts[i + 1..] == was[seen + 1..]
  {
    var t := ts[i];
    assert t == ts[i..][0] == was[seen];
    assert was[..seen + 1] == was[..seen] + [t];
    PassAppend(was[..seen], [t], now);
    PassCons(t, [], now);
    assert [t] + [] == [t];
    assert ts[i + 1..] == ts[i..][1..] && was[seen + 1..] == was[seen..][1..];
  }

  // ----- One pass -------------------------------------------------------------------------------

  lemma {:induction false} PassFiresTheDue<C>(ts: seq<Timeout<C>>, now: nat)
    ensures forall t :: t in Fired(ts, now) <==> t in ts && Due(t, now)
  {
    if ts != [] {
      PassFiresTheDue(ts[1..], now);
      assert ts == [ts[0]] + ts[1..];
    }
  }

  /** How many timers are due. */
  function DueCount<C>(ts: seq<Timeout<C>>, now: nat): nat {
    if ts == [] then 0 else (if Due(ts[0], now) then 1 else 0) + DueCount(ts[1..], now)
  }

  /** They fire in list order, each once: the due timer at position `i` is fired after exactly the due
      timers before it. */
  lemma {:induction false} PassFiresInOrder<C>(ts: seq<Timeout<C>>, now: nat)
    ensures |Fired(ts, now)| == DueCount(ts, now)
    ensures forall i :: 0 <= i < |ts| && Due(ts[i], now) ==>
      DueCount(ts[..i], now) < |Fired(ts, now)| && Fired(ts, now)[DueCount(ts[..i], now)] == ts[i]
  {
    if ts != [] {
      PassFiresInOrder(ts[1..], now);
      forall i | 0 < i < |ts| ensures ts[..i][1..] == ts[1..][..i - 1] {}
    }
  }

  ghost predicate NoneDue<C>(ts: seq<Timeout<C>>, now: nat) {
    forall t :: t in ts ==> !Due(t, now)
  }

  /** A pass leaves no timer due exactly when it restarted none with interval 0. */
  lemma {:induction false} PassLeavesNoneDueIff<C>(ts: seq<Timeout<C>>, now: nat)
    ensures NoneDue(After(ts, now), now)
       <==> (forall t :: t in ts && Due(t, now) && t.recurring ==> t.interval > 0)
  {
    if ts != [] {
      var t := ts[0];
      PassLeavesNoneDueIff(ts[1..], now);
      assert ts == [t] + ts[1..];
      assert After(ts, now) == AfterOne(t, now) + After(ts[1..], now);
      if Due(t, now) && t.recurring {
        assert t.(deadline := now + t.interval) in After(ts, now);
      }
    }
  }

  /** The wait lies in 0..1000, never passes the earliest deadline, and is cut short only for one. */
  lemma WaitIsTight<C>(ts: seq<Timeout<C>>, now: nat)
    ensures 0 <= Wait(ts, now) <= IDLE_POLL_MS
    ensures forall t :: t in ts ==> now + Wait(ts, now) <= t.deadline || (Due(t, now) && Wait(ts, now) == 0)
    ensures Wait(ts, now) < IDLE_POLL_MS <==> exists t :: t in ts && t.deadline < now + IDLE_POLL_MS
    ensures Wait(ts, now) < IDLE_POLL_MS ==> exists t :: t in ts && Due(t, now + Wait(ts, now))
  {
  }

  // ----- Runs of the loop -----------------------------------------------------------------------

  /** One turn of the loop: `poll` and its handlers take `delay` and register the timers `added`. */
  datatype Lap<C> = Lap(delay: nat, added: seq<Timeout<C>>)

  datatype Firing<C> = Firing(time: nat, timer: Timeout<C>)

  function Stamp<C>(ts: seq<Timeout<C>>, now: nat): (r: seq<Firing<C>>)
    ensures |r| == |ts| && forall i :: 0 <= i < |ts| ==> r[i] == Firing(now, ts[i])
  {
    if ts == [] then [] else [Firing(now, ts[0])] + Stamp(ts[1..], now)
  }

  /** All firings of a run that starts at time `now`, in order. */
  function Firings<C>(ts: seq<Timeout<C>>, now: nat, laps: seq<Lap<C>>): seq<Firing<C>>
    decreases laps
  {
    if laps == [] then []
    else
      var all := ts + laps[0].added;
      var later := now + laps[0].delay;
      Stamp(Fired(all, later), later) + Firings(After(all, later), later, laps[1..])
  }

  function EndTime<C>(now: nat, laps: seq<Lap<C>>): nat
    decreases laps
  {
    if laps == [] then now else EndTime(now + laps[0].delay, laps[1..])
  }

  /** `poll` returns within the timeout it was given, handlers take no time, and every timer is
      registered with a deadline that has not passed. */
  ghost predicate Punctual<C>(ts: seq<Timeout<C>>, now: nat, laps: seq<Lap<C>>)
    decreases laps
  {
    laps == [] ||
    (var all := ts + laps[0].added;
     var later := now + laps[0].delay;
     && laps[0].delay <= Wait(ts, now)
     && (forall t :: t in laps[0].added ==> later <= t.deadline)
     && (forall t :: t in all && t.recurring ==> t.interval > 0)
     && Punctual(After(all, later), later, laps[1..]))
  }

  ghost predicate Ahead<C>(ts: seq<Timeout<C>>, now: nat) {
    forall t :: t in ts ==> now <= t.deadline
  }

  /** At every turn of the run, the time at which the loop looks at its timers is not past a deadline. */
  ghost predicate NeverPast<C>(ts: seq<Timeout<C>>, now: nat, laps: seq<Lap<C>>)
    decreases laps
  {
    laps == [] ||
    (var all := ts + laps[0].added;
     var later := now + laps[0].delay;
     Ahead(all, later) && NeverPast(After(all, later), later, laps[1..]))
  }

  /** Every pending deadline that the run reaches is met. */
  ghost predicate AllMet<C>(ts: seq<Timeout<C>>, log: seq<Firing<C>>, end: nat) {
    forall t :: t in ts && t.deadline <= end ==> Firing(t.deadline, t) in log
  }

  /** A fired recurring timer fires again one interval later, if the run gets there. */
  predicate FiresAgain<C(==)>(f: Firing<C>, log: seq<Firing<C>>, end: nat) {
    f in log && f.timer.recurring && f.time + f.timer.interval <= end ==>
      Firing(f.time + f.timer.interval, f.timer.(deadline := f.time + f.timer.interval)) in log
  }

  ghost predicate Recurs<C(!new)>(log: seq<Firing<C>>, end: nat) {
    forall f: Firing<C> :: FiresAgain(f, log, end)
  }

  /** Without delays the loop never steps past a deadline. Every timer that fires does so at its deadline,
      and every deadline that the run reaches is met: of the timers at the start, of those registered on
      the way, and of recurring timers after each firing. */
  lemma {:induction false} NoDrift<C(!new)>(ts: seq<Timeout<C>>, now: nat, laps: seq<Lap<C>>)
    requires Punctual(ts, now, laps) && Ahead(ts, now) && (laps == [] ==> NoneDue(ts, now))
    ensures NeverPast(ts, now, laps)
    ensures forall f :: f in Firings(ts, now, laps) ==> f.time == f.timer.deadline
    ensures AllMet(ts, Firings(ts, now, laps), EndTime(now, laps))
    ensures forall lap :: lap in laps ==> AllMet(lap.added, Firings(ts, now, laps), EndTime(now, laps))
    ensures Recurs(Firings(ts, now, laps), EndTime(now, laps))
    decreases laps
  {
    if laps != [] {
      var all := ts + laps[0].added;
      var later := now + laps[0].delay;
      OnTimeAfterLap(ts, now, laps);
      NoDrift(After(all, later), later, laps[1..]);
      MetNowOrLater(all, later, Firings(After(all, later), later, laps[1..]), EndTime(now, laps));
    }
  }

  /** A pass at the earliest deadline, followed by firings that meet what the pass leaves. */
  lemma MetNowOrLater<C(!new)>(all: seq<Timeout<C>>, later: nat, rest: seq<Firing<C>>, end: nat)
    requires Ahead(all, later) && AllMet(After(all, later), rest, end) && Recurs(rest, end)
    ensures var log := Stamp(Fired(all, later), later) + rest;
      && AllMet(all, log, end) && Recurs(log, end)
      && (forall f :: f in log && f !in rest ==> f.time == f.timer.deadline)
  {
    PassLog(all, later);
    AfterHas(all, later);
    RecursNowOrLater(all, later, Stamp(Fired(all, later), later), rest, end);
  }

  lemma RecursNowOrLater<C(!new)>(all: seq<Timeout<C>>, later: nat, now: seq<Firing<C>>, rest: seq<Firing<C>>, end: nat)
    requires AllMet(After(all, later), rest, end) && Recurs(rest, end)
    requires forall f :: f in now ==> f.timer in all && Due(f.timer, later) && f.time == later
    ensures Recurs(now + rest, end)
  {
    AfterHas(all, later);
    forall f: Firing<C> ensures FiresAgain(f, now + rest, end) {
      assert FiresAgain(f, rest, end);
    }
  }

  /** What one pass adds to the log. */
  lemma PassLog<C>(all: seq<Timeout<C>>, later: nat)
    ensures var log := Stamp(Fired(all, later), later);
      && (forall f :: f in log ==> f.timer in all && Due(f.timer, later) && f.time == later)
      && (forall t :: t in all && Due(t, later) ==> Firing(later, t) in log)
  {
    PassFiresTheDue(all, later);
    StampHas(Fired(all, later), later);
  }

  lemma {:induction false} StampHas<C>(ts: seq<Timeout<C>>, now: nat)
    ensures forall t :: t in ts ==> Firing(now, t) in Stamp(ts, now)
    ensures forall f :: f in Stamp(ts, now) ==> f.timer in ts && f.time == now
  {
    if ts != [] {
      StampHas(ts[1..], now);
    }
  }

  lemma {:induction false} AfterHas<C>(ts: seq<Timeout<C>>, now: nat)
    ensures forall t :: t in ts && !Due(t, now) ==> t in After(ts, now)
    ensures forall t :: t in ts && Due(t, now) && t.recurring ==> t.(deadline := now + t.interval) in After(ts, now)
  {
    if ts != [] {
      AfterHas(ts[1..], now);
      assert ts == [ts[0]] + ts[1..];
    }
  }

  // ----- One timer among the others -------------------------------------------------------------

  /** The timers with a given callback. */
  function Pick<C(==)>(ts: seq<Timeout<C>>, cb: C): seq<Timeout<C>> {
    if ts == [] then []
    else (if ts[0].callback == cb then [ts[0]] else []) + Pick(ts[1..], cb)
  }

  function Times<C(==)>(log: seq<Firing<C>>, cb: C): seq<nat> {
    if log == [] then []
    else (if log[0].timer.callback == cb then [log[0].time] else []) + Times(log[1..], cb)
  }

  lemma PickCons<C>(t: Timeout<C>, rest: seq<Timeout<C>>, cb: C)
    ensures Pick([t] + rest, cb) == (if t.callback == cb then [t] else []) + Pick(rest, cb)
  {
    assert ([t] + rest)[1..] == rest;
  }

  lemma {:induction false} PickAppend<C>(a: seq<Timeout<C>>, b: seq<Timeout<C>>, cb: C)
    ensures Pick(a + b, cb) == Pick(a, cb) + Pick(b, cb)
  {
    if a == [] {
      assert a + b == b;
    } else {
      PickAppend(a[1..], b, cb);
      assert a + b == [a[0]] + (a[1..] + b);
      PickCons(a[0], a[1..] + b, cb);
      Regroup(if a[0].callback == cb then [a[0]] else [], Pick(a[1..], cb), Pick(b, cb));
    }
  }

  lemma TimesCons<C>(f: Firing<C>, rest: seq<Firing<C>>, cb: C)
    ensures Times([f] + rest, cb) == (if f.timer.callback == cb then [f.time] else []) + Times(rest, cb)
  {
    assert ([f] + rest)[1..] == rest;
  }

  lemma {:induction false} TimesAppend<C>(a: seq<Firing<C>>, b: seq<Firing<C>>, cb: C)
    ensures Times(a + b, cb) == Times(a, cb) + Times(b, cb)
  {
    if a == [] {
      assert a + b == b;
    } else {
      TimesAppend(a[1..], b, cb);
      assert a + b == [a[0]] + (a[1..] + b);
      TimesCons(a[0], a[1..] + b, cb);
      Regroup(if a[0].timer.callback == cb then [a[0].time] else [], Times(a[1..], cb), Times(b, cb));
    }
  }

  /** A pass treats each callback's timers on their own. */
  lemma {:induction false} PassPicks<C>(ts: seq<Timeout<C>>, now: nat, cb: C)
    ensures Pick(After(ts, now), cb) == After(Pick(ts, cb), now)
    ensures |Times(Stamp(Fired(ts, now), now), cb)| == |Fired(Pick(ts, cb), now)|
    ensures forall x :: x in Times(Stamp(Fired(ts, now), now), cb) ==> x == now
  {
    if ts != [] {
      PassPicks(ts[1..], now, cb);
      assert ts == [ts[0]] + ts[1..];
      PickStep(ts[0], ts[1..], now, cb);
    }
  }

  lemma PickStep<C>(t: Timeout<C>, rest: seq<Timeout<C>>, now: nat, cb: C)
    ensures var mine := if t.callback == cb then [t] else [];
      var fires := if Due(t, now) && t.callback == cb then [now] else [];
      && Pick(After([t] + rest, now), cb) == After(mine, now) + Pick(After(rest, now), cb)
      && After(Pick([t] + rest, cb), now) == After(mine, now) + After(Pick(rest, cb), now)
      && |Fired(Pick([t] + rest, cb), now)| == |fires| + |Fired(Pick(rest, cb), now)|
      && Times(Stamp(Fired([t] + rest, now), now), cb) == fires + Times(Stamp(Fired(rest, now), now), cb)
  {
    PickOne(t, now, cb);
    PassCons(t, rest, now);
    PickCons(t, rest, cb);
    PickAppend(AfterOne(t, now), After(rest, now), cb);
    PassAppend(if t.callback == cb then [t] else [], Pick(rest, cb), now);
    var one := if Due(t, now) then [t] else [];
    StampAppend(one, Fired(rest, now), now);
    TimesAppend(Stamp(one, now), Stamp(Fired(rest, now), now), cb);
  }

  /** The case of a single timer. */
  lemma PickOne<C>(t: Timeout<C>, now: nat, cb: C)
    ensures var mine := if t.callback == cb then [t] else [];
      var one := if Due(t, now) then [t] else [];
      && Pick(AfterOne(t, now), cb) == After(mine, now)
      && Times(Stamp(one, now), cb) == (if Due(t, now) && t.callback == cb then [now] else [])
      && |Fired(mine, now)| == (if Due(t, now) && t.callback == cb then 1 else 0)
  {
    assert [t][1..] == [];
    var stamped := Stamp([t], now);
    assert stamped == [Firing(now, t)] && stamped[1..] == [];
    var after := AfterOne(t, now);
    if after != [] {
      assert after[1..] == [];
    }
  }

  lemma StampAppend<C>(a: seq<Timeout<C>>, b: seq<Timeout<C>>, now: nat)
    ensures Stamp(a + b, now) == Stamp(a, now) + Stamp(b, now)
  {
  }

  /** No later registration reuses the callback. */
  predicate Untouched<C(==)>(laps: seq<Lap<C>>, cb: C) {
    forall lap :: lap in laps ==> Pick(lap.added, cb) == []
  }

  /** One turn of the loop, seen by the only timer with callback `cb`. */
  lemma LapForOne<C>(ts: seq<Timeout<C>>, now: nat, laps: seq<Lap<C>>, cb: C, t: Timeout<C>)
    requires laps != [] && Untouched(laps, cb)
    requires Pick(ts, cb) == [t]
    ensures var later := now + laps[0].delay;
      var next := After(ts + laps[0].added, later);
      && Untouched(laps[1..], cb)
      && Pick(next, cb) == AfterOne(t, later)
      && Times(Firings(ts, now, laps), cb)
         == (if Due(t, later) then [later] else []) + Times(Firings(next, later, laps[1..]), cb)
  {
    var later := now + laps[0].delay;
    var all := ts + laps[0].added;
    PickAppend(ts, laps[0].added, cb);
    assert laps[0] in laps;
    assert Pick(all, cb) == [t];
    PassPicks(all, later, cb);
    assert [t][1..] == [];
    var here := Times(Stamp(Fired(all, later), later), cb);
    assert |here| == |Fired([t], later)| == if Due(t, later) then 1 else 0;
    assert here == (if Due(t, later) then [later] else []) by {
      if Due(t, later) {
        assert here[0] in here;
      }
    }
    assert After([t], later) == AfterOne(t, later);
    TimesAppend(Stamp(Fired(all, later), later), Firings(After(all, later), later, laps[1..]), cb);
  }

  /** The k-th time is at least `k` intervals after `first`. */
  ghost predicate Spaced(times: seq<nat>, first: nat, interval: nat) {
    forall k :: 0 <= k < |times| ==> times[k] >= first + k * interval
  }

  ghost predicate Exact(times: seq<nat>, first: nat, interval: nat) {
    forall k :: 0 <= k < |times| ==> times[k] == first + k * interval
  }

  lemma OneMore(time: nat, rest: seq<nat>, first: nat, interval: nat)
    requires time >= first
    ensures Spaced(rest, time + interval, interval) ==> Spaced([time] + rest, first, interval)
    ensures time == first && Exact(rest, time + interval, interval) ==> Exact([time] + rest, first, interval)
  {
    var all := [time] + rest;
    forall k | 0 <= k < |all|
      ensures Spaced(rest, time + interval, interval) ==> all[k] >= first + k * interval
      ensures time == first && Exact(rest, time + interval, interval) ==> all[k] == first + k * interval
    {
      if k > 0 {
        assert all[k] == rest[k - 1];
        assert time + interval + (k - 1) * interval == time + k * interval;
      }
    }
  }

  /** Whatever the delays: the k-th firing of a recurring timer comes no earlier than `k` intervals
      after its first deadline. */
  lemma {:induction false} RecurringNeverEarly<C>(ts: seq<Timeout<C>>, now: nat, laps: seq<Lap<C>>,
                                                  t: Timeout<C>)
    requires Pick(ts, t.callback) == [t] && t.recurring && Untouched(laps, t.callback)
    ensures Spaced(Times(Firings(ts, now, laps), t.callback), t.deadline, t.interval)
    decreases laps
  {
    if laps != [] {
      var later := now + laps[0].delay;
      var next := After(ts + laps[0].added, later);
      LapForOne(ts, now, laps, t.callback, t);
      var t' := if Due(t, later) then t.(deadline := later + t.interval) else t;
      RecurringNeverEarly(next, later, laps[1..], t');
      if Due(t, later) {
        OneMore(later, Times(Firings(next, later, laps[1..]), t.callback), t.deadline, t.interval);
      }
    }
  }

  /** Hence the number of firings by the end of the run is bounded by the time that has passed: a
      timer set at `start` fires at most (end - start) / interval times. */
  lemma FiringsAreBounded<C>(ts: seq<Timeout<C>>, now: nat, laps: seq<Lap<C>>, t: Timeout<C>, start: nat)
    requires Pick(ts, t.callback) == [t] && t.recurring && Untouched(laps, t.callback)
    requires t.deadline == start + t.interval
    ensures var count := |Times(Firings(ts, now, laps), t.callback)|;
      count > 0 ==> start + count * t.interval <= EndTime(now, laps)
  {
    RecurringNeverEarly(ts, now, laps, t);
    TimesEnd(ts, now, laps, t.callback);
    SpacedCount(Times(Firings(ts, now, laps), t.callback), start, t.interval, EndTime(now, laps));
  }

  lemma SpacedCount(times: seq<nat>, start: nat, interval: nat, end: nat)
    requires Spaced(times, start + interval, interval)
    requires forall x :: x in times ==> x <= end
    ensures times != [] ==> start + |times| * interval <= end
  {
    if times != [] {
      var last := |times| - 1;
      assert times[last] in times;
      assert interval + last * interval == |times| * interval;
    }
  }

  lemma TimesEnd<C>(ts: seq<Timeout<C>>, now: nat, laps: seq<Lap<C>>, cb: C)
    ensures forall x :: x in Times(Firings(ts, now, laps), cb) ==> x <= EndTime(now, laps)
  {
    FiringsEnd(ts, now, laps);
    TimesAreFirings(Firings(ts, now, laps), cb);
  }

  lemma {:induction false} FiringsEnd<C>(ts: seq<Timeout<C>>, now: nat, laps: seq<Lap<C>>)
    ensures forall f :: f in Firings(ts, now, laps) ==> f.time <= EndTime(now, laps)
    decreases laps
  {
    if laps != [] {
      var later := now + laps[0].delay;
      FiringsEnd(After(ts + laps[0].added, later), later, laps[1..]);
      EndTimeGrows(later, laps[1..]);
    }
  }

  lemma {:induction false} TimesAreFirings<C>(log: seq<Firing<C>>, cb: C)
    ensures forall x :: x in Times(log, cb) ==> exists f :: f in log && f.time == x
  {
    if log != [] {
      TimesAreFirings(log[1..], cb);
      assert log[0] in log;
      assert forall f :: f in log[1..] ==> f in log;
    }
  }

  lemma {:induction false} EndTimeGrows<C>(now: nat, laps: seq<Lap<C>>)
    ensures now <= EndTime(now, laps)
    decreases laps
  {
    if laps != [] {
      EndTimeGrows(now + laps[0].delay, laps[1..]);
    }
  }

  /** A one-shot timer fires at most once, and not before its deadline. */
  lemma {:induction false} OneShotFiresOnce<C>(ts: seq<Timeout<C>>, now: nat, laps: seq<Lap<C>>,
                                               t: Timeout<C>)
    requires Pick(ts, t.callback) == [t] && !t.recurring && Untouched(laps, t.callback)
    ensures var times := Times(Firings(ts, now, laps), t.callback);
      |times| <= 1 && (times != [] ==> times[0] >= t.deadline)
    ensures Times(Firings(ts, now, laps), t.callback) == [] <==> laps == [] || EndTime(now, laps) < t.deadline
    decreases laps
  {
    if laps != [] {
      var later := now + laps[0].delay;
      var next := After(ts + laps[0].added, later);
      LapForOne(ts, now, laps, t.callback, t);
      EndTimeGrows(later, laps[1..]);
      if Due(t, later) {
        assert Pick(next, t.callback) == [];
        GoneIsSilent(next, later, laps[1..], t.callback);
      } else {
        assert Pick(next, t.callback) == [t];
        OneShotFiresOnce(next, later, laps[1..], t);
      }
    }
  }

  lemma {:induction false} GoneIsSilent<C>(ts: seq<Timeout<C>>, now: nat, laps: seq<Lap<C>>, cb: C)
    requires Pick(ts, cb) == [] && Untouched(laps, cb)
    ensures Times(Firings(ts, now, laps), cb) == []
    decreases laps
  {
    if laps != [] {
      var later := now + laps[0].delay;
      var all := ts + laps[0].added;
      PickAppend(ts, laps[0].added, cb);
      assert laps[0] in laps;
      PassPicks(all, later, cb);
      GoneIsSilent(After(all, later), later, laps[1..], cb);
      TimesAppend(Stamp(Fired(all, later), later), Firings(After(all, later), later, laps[1..]), cb);
    }
  }

  /** The number of times a timer set to fire from `first` on at every interval is due by `end`. */
  ghost predicate CountsTo(count: nat, first: nat, interval: nat, end: nat) {
    end < first + count * interval && (count > 0 ==> first + (count - 1) * interval <= end)
  }

  /** Without delays a recurring timer fires exactly at its first deadline and every interval after, as
      long as the run lasts: no firing is missing at the end. */
  lemma {:induction false} RecurringIsPunctual<C>(ts: seq<Timeout<C>>, now: nat, laps: seq<Lap<C>>,
                                                  t: Timeout<C>)
    requires Pick(ts, t.callback) == [t] && t.recurring && Untouched(laps, t.callback)
    requires Punctual(ts, now, laps) && Ahead(ts, now) && (laps == [] ==> NoneDue(ts, now))
    ensures ExactTo(Times(Firings(ts, now, laps), t.callback), t, EndTime(now, laps))
    decreases laps
  {
    if laps == [] {
      PickIsMember(ts, t.callback);
      assert t in Pick(ts, t.callback);
    } else {
      var later := now + laps[0].delay;
      var next := After(ts + laps[0].added, later);
      var t' := PunctualLap(ts, now, laps, t);
      RecurringIsPunctual(next, later, laps[1..], t');
      if Due(t, later) {
        EndTimeGrows(later, laps[1..]);
        OneMoreExact(t, later, Times(Firings(next, later, laps[1..]), t.callback), EndTime(now, laps));
      }
    }
  }

  /** One punctual turn, seen by one recurring timer. */
  lemma PunctualLap<C>(ts: seq<Timeout<C>>, now: nat, laps: seq<Lap<C>>, t: Timeout<C>) returns (t': Timeout<C>)
    requires Pick(ts, t.callback) == [t] && t.recurring && Untouched(laps, t.callback)
    requires laps != [] && Punctual(ts, now, laps) && Ahead(ts, now)
    ensures var later := now + laps[0].delay;
      var next := After(ts + laps[0].added, later);
      && later <= t.deadline
      && t' == (if Due(t, later) then t.(deadline := later + t.interval) else t)
      && Pick(next, t.callback) == [t'] && Untouched(laps[1..], t.callback)
      && Punctual(next, later, laps[1..]) && Ahead(next, later) && NoneDue(next, later)
      && Times(Firings(ts, now, laps), t.callback)
         == (if Due(t, later) then [later] else []) + Times(Firings(next, later, laps[1..]), t.callback)
  {
    var later := now + laps[0].delay;
    LapForOne(ts, now, laps, t.callback, t);
    OnTimeAfterLap(ts, now, laps);
    OnTimeForOne(ts, now, laps, t);
    t' := if Due(t, later) then t.(deadline := later + t.interval) else t;
  }

  /** The times are exactly those up to `end` at which a timer set to `t` is due. */
  ghost predicate ExactTo<C>(times: seq<nat>, t: Timeout<C>, end: nat) {
    Exact(times, t.deadline, t.interval) && CountsTo(|times|, t.deadline, t.interval, end)
  }

  lemma OneMoreExact<C>(t: Timeout<C>, time: nat, rest: seq<nat>, end: nat)
    requires ExactTo(rest, t.(deadline := time + t.interval), end) && t.deadline == time <= end
    ensures ExactTo([time] + rest, t, end)
  {
    OneMore(time, rest, time, t.interval);
    OneMoreCount(|rest|, time, t.interval, end);
  }

  lemma OneMoreCount(count: nat, first: nat, interval: nat, end: nat)
    requires CountsTo(count, first + interval, interval, end) && first <= end
    ensures CountsTo(count + 1, first, interval, end)
  {
    assert (count + 1) * interval == count * interval + interval;
    if count > 0 {
      assert (count - 1) * interval + interval == count * interval;
    }
  }

  lemma OnTimeForOne<C>(ts: seq<Timeout<C>>, now: nat, laps: seq<Lap<C>>, t: Timeout<C>)
    requires laps != [] && Punctual(ts, now, laps) && Ahead(ts, now)
    requires Pick(ts, t.callback) == [t]
    ensures now + laps[0].delay <= t.deadline
  {
    OnTimeAfterLap(ts, now, laps);
    PickIsMember(ts, t.callback);
    assert t in ts;
  }

  /** A punctual turn reaches no deadline before it looks at the timers, and leaves none behind. */
  lemma OnTimeAfterLap<C>(ts: seq<Timeout<C>>, now: nat, laps: seq<Lap<C>>)
    requires laps != [] && Punctual(ts, now, laps) && Ahead(ts, now)
    ensures var later := now + laps[0].delay;
      && Ahead(ts + laps[0].added, later)
      && Ahead(After(ts + laps[0].added, later), later) && NoneDue(After(ts + laps[0].added, later), later)
      && Punctual(After(ts + laps[0].added, later), later, laps[1..])
  {
    var later := now + laps[0].delay;
    WaitIsTight(ts, now);
    forall t | t in ts + laps[0].added ensures later <= t.deadline {
      if t in ts {
        assert now + Wait(ts, now) <= t.deadline || Wait(ts, now) == 0;
      }
    }
    PassLeavesNoneDueIff(ts + laps[0].added, later);
    assert NoneDue(After(ts + laps[0].added, later), later);
  }

  lemma {:induction false} PickIsMember<C>(ts: seq<Timeout<C>>, cb: C)
    ensures forall t :: t in Pick(ts, cb) ==> t in ts
  {
    if ts != [] {
      PickIsMember(ts[1..], cb);
    }
  }
}
