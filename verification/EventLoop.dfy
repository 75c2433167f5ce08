/** The event loop: it owns the connections, by file descriptor, and the timer list. */
module EventLoops {
  import opened Wrappers
  import opened Stratum
  import opened Connections
  import opened Timers

  /** The two callbacks the proxy registers. */
  datatype Callback = AcceptWorker | Reconnect

  datatype Net = Net(conns: map<int, Conn>, timers: seq<Timeout<Callback>>)

  function OfferTo(conns: map<int, Conn>, fd: int, m: Msg, w: WriteResult): map<int, Conn> {
    if fd in conns then conns[fd := Offer(conns[fd], m, w)] else conns
  }

  function MarkClosing(conns: map<int, Conn>, fd: int): map<int, Conn> {
    if fd in conns then conns[fd := conns[fd].(shouldClose := true)] else conns
  }

  function Cleaned(conns: map<int, Conn>): map<int, Conn> {
    map fd | fd in conns && !conns[fd].shouldClose :: conns[fd]
  }

  /** Sending by descriptor and marking touch one connection; the message goes out on that one. */
  lemma OneConnection(conns: map<int, Conn>, fd: int, m: Msg, w: WriteResult, x: int)
    ensures x in OfferTo(conns, fd, m, w) <==> x in conns
    ensures x in MarkClosing(conns, fd) <==> x in conns
    ensures x in conns && x != fd ==> OfferTo(conns, fd, m, w)[x] == MarkClosing(conns, fd)[x] == conns[x]
    ensures fd in conns && conns[fd].CanSend() ==> OfferTo(conns, fd, m, w)[fd].sent == conns[fd].sent + [m]
    ensures fd in conns ==> MarkClosing(conns, fd)[fd].shouldClose && MarkClosing(conns, fd)[fd].sent == conns[fd].sent
  {
  }

  /** Only the connections marked for closing go, of pools and workers alike. */
  lemma CleanupIs(conns: map<int, Conn>, fd: int)
    ensures fd in Cleaned(conns) <==> fd in conns && !conns[fd].shouldClose
    ensures fd in Cleaned(conns) ==> Cleaned(conns)[fd] == conns[fd]
  {
  }

  function WithTimer(net: Net, now: nat, interval: nat, cb: Callback, recurring: bool): Net {
    net.(timers := net.timers + [Timeout(now + interval, interval, cb, recurring)])
  }

  /** The list has one new timer at its end: due from one interval after `now` on. */
  ghost predicate Added(before: seq<Timeout<Callback>>, after: seq<Timeout<Callback>>, now: nat, interval: nat,
                        cb: Callback, recurring: bool)
  {
    && |after| == |before| + 1 && after[..|before|] == before
    && var t := after[|before|];
    && (forall x: nat :: Due(t, x) <==> x >= now + interval)
    && t.interval == interval && t.callback == cb && t.recurring == recurring
  }

  /** A timer set at `now` is added, and the connections stay. */
  lemma TimerIsAdded(net: Net, now: nat, interval: nat, cb: Callback, recurring: bool)
    ensures var after := WithTimer(net, now, interval, cb, recurring);
      after.conns == net.conns && Added(net.timers, after.timers, now, interval, cb, recurring)
  {
  }

  /** A recurring timer set at `start`, whatever the delays after that: its k-th firing is no earlier than
      `k + 1` intervals after `start`. */
  lemma SetTimerNeverEarly(net: Net, start: nat, interval: nat, cb: Callback, laps: seq<Lap<Callback>>)
    requires Pick(net.timers, cb) == [] && Untouched(laps, cb)
    ensures var times := Times(Firings(WithTimer(net, start, interval, cb, true).timers, start, laps), cb);
      && (forall k :: 0 <= k < |times| ==> times[k] >= start + interval + k * interval)
      && (times != [] ==> start + |times| * interval <= EndTime(start, laps))
  {
    var ts := WithTimer(net, start, interval, cb, true).timers;
    var t := NewTimerIsPicked(net, start, interval, cb, true);
    RecurringNeverEarly(ts, start, laps, t);
    FiringsAreBounded(ts, start, laps, t, start);
  }

  lemma NewTimerIsPicked(net: Net, start: nat, interval: nat, cb: Callback, recurring: bool)
    returns (t: Timeout<Callback>)
    requires Pick(net.timers, cb) == []
    ensures Pick(WithTimer(net, start, interval, cb, recurring).timers, cb) == [t]
    ensures t == Timeout(start + interval, interval, cb, recurring)
  {
    t := Timeout(start + interval, interval, cb, recurring);
    PickAppend(net.timers, [t], cb);
    assert [t][1..] == [];
  }

  /** Without delays it fires exactly one interval after `start` and every interval after that, as long as
      the run lasts. */
  lemma SetTimerPunctual(net: Net, start: nat, interval: nat, cb: Callback, laps: seq<Lap<Callback>>)
    requires Pick(net.timers, cb) == [] && Untouched(laps, cb) && laps != []
    requires var ts := WithTimer(net, start, interval, cb, true).timers;
      Punctual(ts, start, laps) && Ahead(ts, start)
    ensures var times := Times(Firings(WithTimer(net, start, interval, cb, true).timers, start, laps), cb);
      && (forall k :: 0 <= k < |times| ==> times[k] == start + interval + k * interval)
      && EndTime(start, laps) < start + interval + |times| * interval
  {
    var t := NewTimerIsPicked(net, start, interval, cb, true);
    RecurringIsPunctual(WithTimer(net, start, interval, cb, true).timers, start, laps, t);
  }

  class EventLoop {
    var connections: map<int, Connection>
    var timeouts: seq<Timeout<Callback>>

    /** No connection is stored under two descriptors. */
    ghost predicate Valid()
      reads this
    {
      forall a, b :: a in connections && b in connections && a != b ==> connections[a] != connections[b]
    }

    ghost function Objects(): set<object>
      reads this
    {
      set fd | fd in connections :: connections[fd]
    }

    ghost function View(): Net
      reads this, Objects()
    {
      Net(map fd | fd in connections :: connections[fd].View(), timeouts)
    }

    constructor ()
      ensures Valid() && View() == Net(map[], []) && fresh(Objects())
    {
      connections := map[];
      timeouts := [];
    }

    method AddConnection(fd: int, c: Connection)
      requires Valid() && c !in Objects()
      modifies this`connections
      ensures Valid() && Objects() <= old(Objects()) + {c}
      ensures connections == old(connections)[fd := c]
      ensures View() == old(View()).(conns := old(View()).conns[fd := c.View()])
    {
      connections := connections[fd := c];
    }

    /** `send_line` on the connection with this descriptor, if there is one. */
    method SendTo(fd: int, m: Msg, w: WriteResult) returns (ok: bool)
      requires Valid()
      modifies Objects()
      ensures Valid() && connections == old(connections) && timeouts == old(timeouts)
      ensures View() == old(View()).(conns := OfferTo(old(View()).conns, fd, m, w))
    {
      ok := false;
      if fd in connections {
        ok := connections[fd].SendLine(m, w);
        OthersUnchanged(fd);
      }
    }

    /** One connection changed. */
    twostate lemma OthersUnchanged(fd: int)
      requires Valid() && connections == old(connections) && timeouts == old(timeouts) && fd in connections
      requires forall x :: x in connections && x != fd ==> connections[x].View() == old(connections[x].View())
      ensures View() == old(View()).(conns := old(View()).conns[fd := connections[fd].View()])
    {
      SameMap(View().conns, old(View()).conns[fd := connections[fd].View()]);
    }

    method MarkForClosing(fd: int)
      requires Valid()
      modifies Objects()
      ensures Valid() && connections == old(connections) && timeouts == old(timeouts)
      ensures View() == old(View()).(conns := MarkClosing(old(View()).conns, fd))
    {
      if fd in connections {
        connections[fd].shouldClose := true;
        OthersUnchanged(fd);
      }
    }

    /** A handshake step on one connection; `told` is the state its callback hears about. */
    method ContinueHandshake(fd: int, attachOk: bool, r: SslResult) returns (told: Option<ConnState>)
      requires Valid() && fd in connections
      modifies Objects()
      ensures Valid() && connections == old(connections) && timeouts == old(timeouts)
      ensures var h := HandshakeStep(old(View()).conns[fd], attachOk, r);
        View() == old(View()).(conns := old(View()).conns[fd := h.conn]) && told == h.told
    {
      var done;
      done, told := connections[fd].PerformTlsHandshake(attachOk, r);
      OthersUnchanged(fd);
    }

    method CleanupClosed()
      requires Valid()
      modifies this`connections
      ensures Valid() && Objects() <= old(Objects())
      ensures forall fd :: fd in connections <==> fd in old(connections) && !old(connections)[fd].shouldClose
      ensures forall fd :: fd in connections ==> connections[fd] == old(connections)[fd]
      ensures View() == old(View()).(conns := Cleaned(old(View()).conns))
    {
      var was := connections;
      var todo := connections.Keys;
      while todo != {}
        invariant todo <= was.Keys
        invariant forall x :: x in connections <==> x in was && (x in todo || !was[x].shouldClose)
        invariant forall x :: x in connections ==> connections[x] == was[x]
        decreases |todo|
      {
        HasMember(todo);
        var fd :| fd in todo;
        if connections[fd].shouldClose {
          connections := connections - {fd};
        }
        todo := todo - {fd};
      }
      forall fd | fd in was
        ensures was[fd].View() == old(View()).conns[fd]
        ensures fd in View().conns <==> fd in Cleaned(old(View()).conns)
      {
      }
      SameMap(View().conns, Cleaned(old(View()).conns));
    }

    method SetTimeout(now: nat, interval: nat, cb: Callback, recurring: bool)
      modifies this`timeouts
      ensures connections == old(connections) && Added(old(timeouts), timeouts, now, interval, cb, recurring)
      ensures View() == WithTimer(old(View()), now, interval, cb, recurring)
    {
      timeouts := timeouts + [Timeout(now + interval, interval, cb, recurring)];
    }

    /** How long to wait for the next timer. */
    method PollTimeout(now: nat) returns (ms: nat)
      ensures ms == Wait(timeouts, now)
    {
      ms := IDLE_POLL_MS;
      if timeouts != [] {
        var next := timeouts[0].deadline;
        for i := 0 to |timeouts|
          invariant forall j :: 0 <= j < i ==> next <= timeouts[j].deadline
          invariant exists t :: t in timeouts && t.deadline == next
        {
          if timeouts[i].deadline < next {
            next := timeouts[i].deadline;
          }
        }
        assert next == Earliest(timeouts);
        if next > now {
          if next - now < ms {
            ms := next - now;
          }
        } else {
          ms := 0;
        }
      }
    }

    /** One pass over the timers. The callbacks run in the order of `fired`; neither callback of the
        proxy registers a timer, so the list changes only here. */
    method CheckTimeouts(now: nat) returns (fired: seq<Timeout<Callback>>)
      modifies this`timeouts
      ensures fired == Fired(old(timeouts), now)
      ensures timeouts == After(old(timeouts), now)
    {
      fired := [];
      ghost var was := timeouts;
      ghost var seen := 0;
      var i := 0;
      while i < |timeouts|
        invariant 0 <= i <= |timeouts| && 0 <= seen <= |was|
        invariant fired == Fired(was[..seen], now)
        invariant timeouts[..i] == After(was[..seen], now)
        invariant timeouts[i..] == was[seen..]
        decreases |timeouts| - i
      {
        var t := timeouts[i];
        PassOneMore(was, seen, timeouts, i, now);
        if now >= t.deadline {
          fired := fired + [t];
          if t.recurring {
            timeouts := timeouts[i := t.(deadline := now + t.interval)];
            i := i + 1;
          } else {
            timeouts := timeouts[..i] + timeouts[i + 1..];
          }
        } else {
          i := i + 1;
        }
        seen := seen + 1;
      }
      assert timeouts == timeouts[..i];
      assert was == was[..seen];
    }
  }
}
