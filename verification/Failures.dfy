/** What a failed or successful pool connection changes, in numbers, and how often a failing pool is tried
    again. */
module Failures {
  import opened Json
  import opened Stratum
  import opened Connections
  import opened Timers
  import opened EventLoops
  import opened Pools
  import opened Workers
  import opened Proxies

  // ----- One state change -----------------------------------------------------------------------

  /** A failure clears the four flags and keeps job, ids and pending shares. It sets one one-shot timer 5000
      milliseconds ahead, or after five retries none, trying the next pool at once. */
  lemma FailureOutcome(cfg: seq<PoolConfig>, p: Pool, net: Net, env: Env)
    requires p.index < |cfg|
    ensures var o := GoDown(cfg, p, net, env);
      && !o.pool.connected && !o.pool.authenticated && !o.pool.subscribed && !o.pool.hasJob
      && o.pool.job == p.job && o.pool.nextId == p.nextId && o.pool.shares == p.shares && o.log == [PoolFailed]
      && (p.attempts < 5 ==>
            && Added(net.timers, o.net.timers, env.now, 5000, Reconnect, false) && o.net.conns == net.conns
            && o.pool.attempts == p.attempts + 1 && o.pool.index == p.index && o.pool.name == p.name
            && o.pool.hasConn == p.hasConn && o.pool.fd == p.fd)
      && (p.attempts >= 5 ==> o.net.timers == net.timers && o.pool.attempts == 0)
  {
    if p.attempts >= 5 {
      TryConnectSelectsFirst(cfg, Down(p).(attempts := 0), net, NextIndex(p.index, |cfg|), env);
    }
  }

  /** A pool that goes up has no failed attempts, and nothing else changes. */
  predicate WentUpFrom(p: Pool, net: Net, o: Out) {
    && o.pool == p.(connected := true, authenticated := true, attempts := 0)
    && o.net == net && o.log == [PoolAuthenticated]
  }

  /** Error and disconnection fail the pool, the authenticated state puts it up, connecting is no news, and
      only the connected state logs in. */
  lemma StateOutcome(cfg: seq<PoolConfig>, p: Pool, net: Net, s: ConnState, env: Env)
    requires p.index < |cfg|
    ensures var o := OnPoolState(cfg, p, net, s, env);
      && (s == ConnState.Error || s == Disconnected ==> o == GoDown(cfg, p, net, env))
      && (s == ConnState.Authenticated ==> WentUpFrom(p, net, o))
      && (s == Connecting ==> o == Out(p, net, []))
      && (s == Connected <==> o.log == [LoginIssued(p.nextId)])
  {
    FailureOutcome(cfg, p, net, env);
  }

  /** An answer with a status and no job, read while not logged in. */
  lemma StatusOutcome(cfg: seq<PoolConfig>, p: Pool, net: Net, id: int, result: Value, error: Value, env: Env)
    requires p.index < |cfg| && !p.authenticated && result.Has("status") && !result.Has("job")
    ensures var o := HandleResponse(cfg, p, net, id, result, error, env);
      && (result.fields["status"] == Str("OK") ==> WentUpFrom(p, net, o))
      && (result.fields["status"].Str? && result.fields["status"].s != "OK" ==> o == GoDown(cfg, p, net, env))
      && (!result.fields["status"].Str? ==> o == Out(p, net, []))
  {
  }

  // ----- Timers over runs -----------------------------------------------------------------------

  /** The start sets one timer, the recurring accept timer 100 milliseconds ahead, and begins with the first
      pool, ids from 1 and no worker. */
  lemma StartOutcome(cfg: Config, poolJob: Job, workerJob: Job, env: Env)
    requires cfg.pools != []
    ensures var s := Started(cfg, poolJob, workerJob, env);
      && Added([], s.net.timers, env.now, 100, AcceptWorker, true)
      && s.pool.nextId == 1 && s.pool.shares == map[] && s.pool.attempts == 0 && s.pool.job == poolJob
      && !s.pool.connected && !s.pool.authenticated && !s.pool.subscribed && !s.pool.hasJob
      && s.workers.entries == map[] && !s.workers.hasJob && s.workers.job == workerJob && s.workers.nextNonce == 0
      && (0 in env.connect ==> s.pool.index == 0 && s.pool.hasConn && s.pool.fd == env.connect[0]
                               && s.net.conns == map[env.connect[0] := NewConn(PoolSide)])
      && ((forall i: nat :: i < |cfg.pools| ==> i !in env.connect) ==> s.net.conns == map[] && !s.pool.hasConn)
  {
    TryConnectSelectsFirst(cfg.pools, NewPool(cfg.pools, poolJob), Net(map[], []), 0, env);
  }

  /** A hangup marks its connection and tells neither manager; a cleanup drops the marked connections and tells
      neither manager. */
  lemma HangupOutcome(cfg: Config, s: Sys, fd: int)
    requires InRange(cfg, s) && fd in s.net.conns
    ensures var t := Step(cfg, s, Hangup(fd));
      && t.log == [] && t.sys.pool == s.pool && t.sys.workers == s.workers && t.sys.net.timers == s.net.timers
      && t.sys.net.conns == s.net.conns[fd := s.net.conns[fd].(shouldClose := true)]
    ensures var u := Step(cfg, s, Cleanup);
      && u.log == [] && u.sys.pool == s.pool && u.sys.workers == s.workers && u.sys.net.timers == s.net.timers
      && (forall x :: x in u.sys.net.conns <==> x in s.net.conns && !s.net.conns[x].shouldClose)
      && (forall x :: x in u.sys.net.conns ==> u.sys.net.conns[x] == s.net.conns[x])
  {
  }

  /** A reconnect timer is gone when it has fired; the others stay in order, and the current pool, or the
      first after it that can be connected, is tried. */
  lemma ReconnectOutcome(cfg: Config, s: Sys, i: nat, env: Env)
    requires InRange(cfg, s) && i < |s.net.timers|
    ensures var t := Step(cfg, s, ReconnectDue(i, env));
      && |t.sys.net.timers| == |s.net.timers| - 1 && t.log == [] && t.sys.workers == s.workers
      && (forall k :: 0 <= k < i ==> t.sys.net.timers[k] == s.net.timers[k])
      && (forall k :: i <= k < |s.net.timers| - 1 ==> t.sys.net.timers[k] == s.net.timers[k + 1])
      && (s.pool.index in env.connect ==>
            && t.sys.pool.index == s.pool.index && t.sys.pool.hasConn && t.sys.pool.fd == env.connect[s.pool.index]
            && t.sys.net.conns == s.net.conns[env.connect[s.pool.index] := NewConn(PoolSide)])
  {
    var net := s.net.(timers := s.net.timers[..i] + s.net.timers[i + 1..]);
    TryConnectSelectsFirst(cfg.pools, s.pool, net, s.pool.index, env);
  }

  /** The timers stay, or a retry is added 5000 milliseconds ahead. */
  ghost predicate TimersGrow(before: seq<Timeout<Callback>>, after: seq<Timeout<Callback>>, now: nat) {
    after == before || Added(before, after, now, 5000, Reconnect, false)
  }

  lemma MessageTimers(cfg: seq<PoolConfig>, p: Pool, net: Net, line: string, env: Env)
    requires p.index < |cfg|
    ensures TimersGrow(net.timers, OnPoolMessage(cfg, p, net, line, env).net.timers, env.now)
  {
    var f := MessageEffect(cfg, p, net, line, env);
    FailureOutcome(cfg, p, net, env);
  }

  lemma PoolLineTimers(cfg: Config, s: Sys, fd: int, line: string, env: Env)
    requires InRange(cfg, s)
    ensures TimersGrow(s.net.timers, Step(cfg, s, PoolLine(fd, line, env)).sys.net.timers, env.now)
  {
    MessageTimers(cfg.pools, s.pool, s.net, line, env);
    PassJobTimers(OnPoolMessage(cfg.pools, s.pool, s.net, line, env), s.workers, env);
  }

  lemma PassJobTimers(o: Out, w: State, env: Env)
    ensures PassJob(o, w, env).sys.net.timers == o.net.timers
  {
  }

  lemma HandshakeTimers(cfg: Config, s: Sys, fd: int, attachOk: bool, r: SslResult, env: Env)
    requires InRange(cfg, s)
    ensures TimersGrow(s.net.timers, OnHandshake(cfg, s, fd, attachOk, r, env).sys.net.timers, env.now)
  {
    if fd in s.net.conns {
      var h := HandshakeStep(s.net.conns[fd], attachOk, r);
      FailureOutcome(cfg.pools, s.pool, s.net.(conns := s.net.conns[fd := h.conn]), env);
    }
  }

  /** A handshake that fails, before five retries, sets the timer. */
  lemma FailedHandshakeSetsRetry(cfg: Config, s: Sys, fd: int, attachOk: bool, r: SslResult, env: Env)
    requires InRange(cfg, s) && fd in s.net.conns && s.net.conns[fd].HandshakePending()
    requires s.net.conns[fd].state != ConnState.Error && s.pool.attempts < 5
    requires r == SslFailed || (!attachOk && !s.net.conns[fd].attached)
    ensures var t := Step(cfg, s, HandshakeTick(fd, attachOk, r, env));
      t.log == [PoolFailed] && Added(s.net.timers, t.sys.net.timers, env.now, 5000, Reconnect, false)
  {
    var h := HandshakeStep(s.net.conns[fd], attachOk, r);
    FailureOutcome(cfg.pools, s.pool, s.net.(conns := s.net.conns[fd := h.conn]), env);
  }

  // ----- How often a reconnect can happen -------------------------------------------------------

  predicate Early(t: Timeout<Callback>, limit: nat) {
    t.callback == Reconnect && t.deadline < limit
  }

  /** How many reconnect timers are due before a time. */
  function EarlyCount(ts: seq<Timeout<Callback>>, limit: nat): nat {
    if ts == [] then 0 else (if Early(ts[0], limit) then 1 else 0) + EarlyCount(ts[1..], limit)
  }

  lemma {:induction false} EarlyAppend(a: seq<Timeout<Callback>>, b: seq<Timeout<Callback>>, limit: nat)
    ensures EarlyCount(a + b, limit) == EarlyCount(a, limit) + EarlyCount(b, limit)
  {
    if a == [] {
      assert a + b == b;
    } else {
      assert (a + b)[1..] == a[1..] + b;
      EarlyAppend(a[1..], b, limit);
    }
  }

  lemma EarlyWithout(ts: seq<Timeout<Callback>>, i: nat, limit: nat)
    requires i < |ts|
    ensures EarlyCount(ts[..i] + ts[i + 1..], limit) + (if Early(ts[i], limit) then 1 else 0) == EarlyCount(ts, limit)
  {
    EarlyAppend(ts[..i], ts[i + 1..], limit);
    EarlyAppend(ts[..i], ts[i..], limit);
    assert ts[..i] + ts[i..] == ts;
    assert ts[i..][1..] == ts[i + 1..];
  }

  lemma GrowthIsNotEarly(before: seq<Timeout<Callback>>, after: seq<Timeout<Callback>>, now: nat, limit: nat)
    requires TimersGrow(before, after, now) && limit <= now + 5000
    ensures EarlyCount(after, limit) == EarlyCount(before, limit)
  {
    if after != before {
      var t := after[|before|];
      assert after == before + [t];
      EarlyAppend(before, [t], limit);
      assert Due(t, t.deadline) && t.deadline >= now + 5000;
      assert [t][1..] == [];
    }
  }

  /** The reconnects that happen before a time. */
  function Reconnects(events: seq<Event>, limit: nat): nat {
    if events == [] then 0 else Retried(events[0], limit) + Reconnects(events[1..], limit)
  }

  function Retried(e: Event, limit: nat): nat {
    if e.ReconnectDue? && e.env.now < limit then 1 else 0
  }

  /** No event is earlier than `start`; hangups and cleanups read no clock. */
  predicate NotBefore(e: Event, start: nat) {
    match e
    case Accepted(_, env) => env.now >= start
    case WorkerLine(_, _, env) => env.now >= start
    case PoolLine(_, _, env) => env.now >= start
    case HandshakeTick(_, _, _, env) => env.now >= start
    case ReconnectDue(_, env) => env.now >= start
    case _ => true
  }

  lemma EventBudget(cfg: Config, s: Sys, e: Event, start: nat)
    requires InRange(cfg, s) && Enabled(s, e) && NotBefore(e, start)
    ensures EarlyCount(Step(cfg, s, e).sys.net.timers, start + 5000) + Retried(e, start + 5000)
         <= EarlyCount(s.net.timers, start + 5000)
  {
    match e
    case PoolLine(fd, line, env) =>
      PoolLineTimers(cfg, s, fd, line, env);
      GrowthIsNotEarly(s.net.timers, Step(cfg, s, e).sys.net.timers, env.now, start + 5000);
    case HandshakeTick(fd, attachOk, r, env) =>
      HandshakeTimers(cfg, s, fd, attachOk, r, env);
      GrowthIsNotEarly(s.net.timers, Step(cfg, s, e).sys.net.timers, env.now, start + 5000);
    case ReconnectDue(i, env) =>
      ReconnectTimers(cfg, s, i, env);
      EarlyWithout(s.net.timers, i, start + 5000);
    case _ => QuietTimers(cfg, s, e);
  }

  lemma ReconnectTimers(cfg: Config, s: Sys, i: nat, env: Env)
    requires InRange(cfg, s) && i < |s.net.timers|
    ensures Step(cfg, s, ReconnectDue(i, env)).sys.net.timers == s.net.timers[..i] + s.net.timers[i + 1..]
  {
    var net := s.net.(timers := s.net.timers[..i] + s.net.timers[i + 1..]);
    TryConnectSelectsFirst(cfg.pools, s.pool, net, s.pool.index, env);
  }

  lemma QuietTimers(cfg: Config, s: Sys, e: Event)
    requires InRange(cfg, s) && !e.PoolLine? && !e.HandshakeTick? && !e.ReconnectDue?
    ensures Step(cfg, s, e).sys.net.timers == s.net.timers
  {
  }

  /** Retries are delayed: in the five seconds from `start` on, whatever fails in that time, a reconnect can
      only come from a timer that was pending at the start. */
  lemma {:induction false} RetriesAreDelayed(cfg: Config, s: Sys, events: seq<Event>, start: nat)
    requires InRange(cfg, s) && Guarded(cfg, s, events, (x, e) => Enabled(x, e) && NotBefore(e, start))
    ensures Reconnects(events, start + 5000) <= EarlyCount(s.net.timers, start + 5000)
    decreases events
  {
    if events != [] {
      var t := FirstBudget(cfg, s, events, start);
      RetriesAreDelayed(cfg, t, events[1..], start);
    }
  }

  lemma FirstBudget(cfg: Config, s: Sys, events: seq<Event>, start: nat) returns (t: Sys)
    requires InRange(cfg, s) && events != []
    requires Guarded(cfg, s, events, (x, e) => Enabled(x, e) && NotBefore(e, start))
    ensures InRange(cfg, t) && Guarded(cfg, t, events[1..], (x, e) => Enabled(x, e) && NotBefore(e, start))
    ensures EarlyCount(t.net.timers, start + 5000) + Retried(events[0], start + 5000)
         <= EarlyCount(s.net.timers, start + 5000)
  {
    t := Step(cfg, s, events[0]).sys;
    EventBudget(cfg, s, events[0], start);
  }

  /** In particular a failure at `now` with no other retry pending: no reconnect before `now + 5000`. */
  lemma NoRetryBefore(cfg: Config, s: Sys, events: seq<Event>, now: nat)
    requires InRange(cfg, s) && EarlyCount(s.net.timers, now + 5000) == 0
    requires Guarded(cfg, s, events, (x, e) => Enabled(x, e) && NotBefore(e, now))
    ensures forall i :: 0 <= i < |events| && events[i].ReconnectDue? ==> events[i].env.now >= now + 5000
  {
    RetriesAreDelayed(cfg, s, events, now);
    NoneReconnects(events, now + 5000);
  }

  lemma {:induction false} NoneReconnects(events: seq<Event>, limit: nat)
    requires Reconnects(events, limit) == 0
    ensures forall i :: 0 <= i < |events| && events[i].ReconnectDue? ==> events[i].env.now >= limit
  {
    if events != [] {
      NoneReconnects(events[1..], limit);
      forall i | 0 < i < |events| && events[i].ReconnectDue? ensures events[i].env.now >= limit {
        assert events[i] == events[1..][i - 1];
      }
    }
  }
}
