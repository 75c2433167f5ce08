/** The whole proxy: the two managers, wired together over one event loop, as a system that takes one
    event at a time. */
module Proxies {
  import opened Wrappers
  import opened Stratum
  import opened Connections
  import opened Timers
  import opened EventLoops
  import opened Pools
  import opened Workers

  const ACCEPT_INTERVAL_MS := 100

  datatype Config = Config(pools: seq<PoolConfig>, whitelist: seq<string>)

  datatype Sys = Sys(net: Net, pool: Pool, workers: State)

  datatype Event =
    | Accepted(fd: int, env: Env)
    | WorkerLine(fd: int, line: string, env: Env)
    | PoolLine(fd: int, line: string, env: Env)
    | HandshakeTick(fd: int, attachOk: bool, result: SslResult, env: Env)
    | ReconnectDue(i: nat, env: Env)
    | Hangup(fd: int)
    | Cleanup

  datatype Stepped = Stepped(sys: Sys, log: seq<Entry>)

  predicate InRange(cfg: Config, s: Sys) {
    s.pool.index < |cfg.pools|
  }

  // ----- One event ------------------------------------------------------------------------------

  /** The job that a pool message made the pool side pass on; it is always the last thing reported. */
  function JobIn(log: seq<Entry>): Option<Job> {
    if log != [] && log[|log| - 1].JobAdopted? then Some(log[|log| - 1].job) else None
  }

  /** The job callback: the worker side broadcasts what the pool side adopted. */
  function PassJob(o: Out, w: State, env: Env): Stepped {
    match JobIn(o.log)
    case None => Stepped(Sys(o.net, o.pool, w), o.log)
    case Some(job) =>
      var b := SendJob(w, o.net.conns, job, env);
      Stepped(Sys(o.net.(conns := b.conns), o.pool, b.workers), o.log)
  }

  /** The share callback: the pool side forwards what the worker side read. */
  function PassShare(s: Sys, h: Handled, env: Env): Stepped {
    var net := s.net.(conns := h.conns);
    match h.share
    case None => Stepped(Sys(net, s.pool, h.workers), [])
    case Some(share) =>
      var o := SubmitShare(s.pool, net, share, env);
      Stepped(Sys(o.net, o.pool, h.workers), o.log)
  }

  function OnHandshake(cfg: Config, s: Sys, fd: int, attachOk: bool, r: SslResult, env: Env): (t: Stepped)
    requires InRange(cfg, s)
    ensures InRange(cfg, t.sys)
  {
    if fd !in s.net.conns then Stepped(s, [])
    else
      var h := HandshakeStep(s.net.conns[fd], attachOk, r);
      var net := s.net.(conns := s.net.conns[fd := h.conn]);
      match h.told
      case None => Stepped(s.(net := net), [])
      case Some(state) =>
        var o := OnPoolState(cfg.pools, s.pool, net, state, env);
        Stepped(Sys(o.net, o.pool, s.workers), o.log)
  }

  function Step(cfg: Config, s: Sys, e: Event): (t: Stepped)
    requires InRange(cfg, s)
    ensures InRange(cfg, t.sys)
  {
    match e
    case Accepted(fd, env) =>
      var a := Accept(s.workers, s.net.conns, fd, env);
      Stepped(Sys(s.net.(conns := a.conns), s.pool, a.workers), [])
    case WorkerLine(fd, line, env) =>
      PassShare(s, OnWorkerMessage(cfg.whitelist, s.workers, s.net.conns, fd, line, env), env)
    case PoolLine(fd, line, env) =>
      PassJob(OnPoolMessage(cfg.pools, s.pool, s.net, line, env), s.workers, env)
    case HandshakeTick(fd, attachOk, r, env) => OnHandshake(cfg, s, fd, attachOk, r, env)
    case ReconnectDue(i, env) =>
      var net := if i < |s.net.timers| then s.net.(timers := s.net.timers[..i] + s.net.timers[i + 1..]) else s.net;
      var a := TryConnect(cfg.pools, s.pool, net, s.pool.index, env);
      Stepped(Sys(a.net, a.pool, s.workers), [])
    case Hangup(fd) => Stepped(s.(net := s.net.(conns := MarkClosing(s.net.conns, fd))), [])
    case Cleanup => Stepped(s.(net := s.net.(conns := Cleaned(s.net.conns))), [])
  }

  // ----- Runs -----------------------------------------------------------------------------------

  /** Both managers constructed and started; the two job records start uninitialised. */
  function Started(cfg: Config, poolJob: Job, workerJob: Job, env: Env): (s: Sys)
    requires cfg.pools != []
    ensures InRange(cfg, s)
  {
    var a := TryConnect(cfg.pools, NewPool(cfg.pools, poolJob), Net(map[], []), 0, env);
    Sys(WithTimer(a.net, env.now, ACCEPT_INTERVAL_MS, AcceptWorker, true), a.pool,
        State(map[], workerJob, false, 0))
  }

  function Run(cfg: Config, s: Sys, events: seq<Event>): (t: Stepped)
    requires InRange(cfg, s)
    ensures InRange(cfg, t.sys)
    decreases events
  {
    if events == [] then Stepped(s, [])
    else
      var first := Step(cfg, s, events[0]);
      var rest := Run(cfg, first.sys, events[1..]);
      Stepped(rest.sys, first.log + rest.log)
  }

  /** A new descriptor is not in use. */
  predicate FreshFds(s: Sys, env: Env) {
    forall i :: i in env.connect ==> env.connect[i] >= 0 && env.connect[i] !in s.net.conns
  }

  /** What the operating system, OpenSSL and the event loop guarantee: new descriptors are fresh, lines
      are delivered only by connections that can be read, timers fire when they are due, and a TLS
      handshake that failed stays failed. */
  predicate Enabled(s: Sys, e: Event) {
    match e
    case Accepted(fd, _) => fd >= 0 && fd !in s.net.conns
    case WorkerLine(fd, _, _) => fd in s.net.conns && s.net.conns[fd].kind == WorkerSide
    case PoolLine(fd, _, env) =>
      FreshFds(s, env) && fd in s.net.conns && s.net.conns[fd].kind == PoolSide && s.net.conns[fd].tlsComplete
    case HandshakeTick(fd, attachOk, r, env) =>
      && FreshFds(s, env) && fd in s.net.conns && s.net.conns[fd].HandshakePending()
      && (s.net.conns[fd].state.Error? ==> (!attachOk && !s.net.conns[fd].attached) || r == SslFailed)
    case ReconnectDue(i, env) =>
      && FreshFds(s, env) && i < |s.net.timers|
      && s.net.timers[i].callback == Reconnect && Due(s.net.timers[i], env.now)
    case Hangup(fd) => fd in s.net.conns
    case Cleanup => true
  }

  /** Every event of a run is allowed in the state in which it happens. */
  ghost predicate Guarded(cfg: Config, s: Sys, events: seq<Event>, G: Guard)
    requires InRange(cfg, s)
    decreases events
  {
    events == [] || (G(s, events[0]) && Guarded(cfg, Step(cfg, s, events[0]).sys, events[1..], G))
  }

  type Guard = (Sys, Event) -> bool

  ghost predicate Possible(cfg: Config, s: Sys, events: seq<Event>)
    requires InRange(cfg, s)
  {
    Guarded(cfg, s, events, Enabled)
  }

  /** A message that brings a job opens no connection and sends nothing by itself. */
  lemma JobKeepsNet(cfg: seq<PoolConfig>, p: Pool, net: Net, line: string, env: Env)
    requires p.index < |cfg|
    ensures var o := OnPoolMessage(cfg, p, net, line, env);
      JobIn(o.log).Some? ==> o.net == net && o.pool.hasJob && o.pool.job == JobIn(o.log).value
  {
    var f := MessageEffect(cfg, p, net, line, env);
  }

  // ----- Induction over runs --------------------------------------------------------------------

  /** A claim about a state and everything reported so far. */
  type Claim = (Sys, seq<Entry>) -> bool

  ghost predicate Keeps(cfg: Config, P: Claim, s: Sys, e: Event, log: seq<Entry>)
    requires InRange(cfg, s)
  {
    var t := Step(cfg, s, e);
    P(t.sys, log + t.log)
  }

  /** The first event of a run of allowed events, without what the event does. */
  lemma FirstEvent(cfg: Config, G: Guard, P: Claim, s: Sys, events: seq<Event>, log: seq<Entry>) returns (t: Stepped)
    requires InRange(cfg, s) && events != [] && Guarded(cfg, s, events, G)
    requires Keeps(cfg, P, s, events[0], log)
    ensures InRange(cfg, t.sys) && P(t.sys, log + t.log) && Guarded(cfg, t.sys, events[1..], G)
    ensures var rest := Run(cfg, t.sys, events[1..]); Run(cfg, s, events) == Stepped(rest.sys, t.log + rest.log)
  {
    t := Step(cfg, s, events[0]);
  }

  /** What every allowed event keeps holds after every run of allowed events. */
  lemma {:induction false} RunKeeps(cfg: Config, G: Guard, P: Claim, s: Sys, events: seq<Event>, log: seq<Entry>)
    requires InRange(cfg, s) && P(s, log) && Guarded(cfg, s, events, G)
    requires forall x, e, l :: InRange(cfg, x) && P(x, l) && G(x, e) ==> Keeps(cfg, P, x, e, l)
    ensures var t := Run(cfg, s, events); P(t.sys, log + t.log)
    decreases events
  {
    if events == [] {
      assert log + [] == log;
    } else {
      assert Keeps(cfg, P, s, events[0], log);
      var t := FirstEvent(cfg, G, P, s, events, log);
      RunKeeps(cfg, G, P, t.sys, events[1..], log + t.log);
      var rest := Run(cfg, t.sys, events[1..]);
      assert log + t.log + rest.log == log + (t.log + rest.log);
    }
  }

  /** A guard that does not look at the state. */
  lemma {:induction false} GuardedByEvents(cfg: Config, s: Sys, events: seq<Event>, G: Guard)
    requires InRange(cfg, s)
    requires forall x, e :: e in events ==> G(x, e)
    ensures Guarded(cfg, s, events, G)
    decreases events
  {
    if events != [] {
      assert events[0] in events;
      assert forall e :: e in events[1..] ==> e in events;
      GuardedByEvents(cfg, Step(cfg, s, events[0]).sys, events[1..], G);
    }
  }

  /** A claim about a state and the events still to come. */
  type Forecast = (Sys, seq<Event>) -> bool

  ghost predicate KeepsForecast(cfg: Config, F: Forecast, s: Sys, events: seq<Event>)
    requires InRange(cfg, s) && events != []
  {
    F(Step(cfg, s, events[0]).sys, events[1..])
  }

  lemma {:induction false} RunKeepsForecast(cfg: Config, F: Forecast, s: Sys, events: seq<Event>)
    requires InRange(cfg, s) && F(s, events)
    requires forall x, rest :: InRange(cfg, x) && rest != [] && F(x, rest) ==> KeepsForecast(cfg, F, x, rest)
    ensures F(Run(cfg, s, events).sys, [])
    decreases events
  {
    if events != [] {
      assert KeepsForecast(cfg, F, s, events);
      RunKeepsForecast(cfg, F, Step(cfg, s, events[0]).sys, events[1..]);
    }
  }

  // ----- The object -----------------------------------------------------------------------------

  class GPUProxy {
    const config: Config
    const loop: EventLoop
    const pool: PoolManager
    const workers: WorkerManager

    ghost predicate Valid()
      reads this, loop, pool
    {
      && pool.loop == loop && workers.loop == loop
      && pool.pools == config.pools && workers.whitelist == config.whitelist
      && pool.Valid()
    }

    ghost function View(): Sys
      reads this, loop, pool, workers, loop.Objects()
    {
      Sys(loop.View(), pool.View(), workers.View())
    }

    /** Creates the managers and starts them. */
    constructor (config: Config, poolJob: Job, workerJob: Job, env: Env)
      requires config.pools != []
      ensures Valid() && this.config == config
      ensures View() == Started(config, poolJob, workerJob, env)
    {
      var l := new EventLoop();
      var p := new PoolManager(l, config.pools, poolJob);
      var w := new WorkerManager(l, config.whitelist, workerJob);
      this.config, loop, pool, workers := config, l, p, w;
      new;
      pool.Start(env);
      loop.SetTimeout(env.now, ACCEPT_INTERVAL_MS, AcceptWorker, true);
    }

    method OnAccepted(fd: int, env: Env)
      requires Valid() && workers.ReadyAreLive()
      modifies workers, loop, loop.Objects()
      ensures Valid()
      ensures View() == Step(config, old(View()), Accepted(fd, env)).sys
    {
      workers.AcceptWorker(fd, env);
    }

    /** This is the step for the event WorkerLine. */
    method OnWorkerLine(fd: int, line: string, env: Env) returns (log: seq<Entry>)
      requires Valid() && workers.ReadyAreLive()
      requires fd in loop.connections && loop.connections[fd].kind == WorkerSide
      modifies workers, pool, loop.Objects()
      ensures Valid()
      ensures Stepped(View(), log)
           == PassShare(old(View()), OnWorkerMessage(config.whitelist, old(View()).workers,
                                                     old(View()).net.conns, fd, line, env), env)
    {
      log := [];
      var share := workers.OnMessage(fd, line, env);
      if share.Some? {
        log := pool.Submit(share.value, env);
      }
    }

    /** Ready workers stay connected while the connections do. */
    twostate lemma StillLive()
      requires workers.loop == loop && old(workers.ReadyAreLive()) && loop.View() == old(loop.View())
      requires workers.workers == old(workers.workers)
      ensures workers.ReadyAreLive()
    {
      forall x | x in workers.workers && workers.workers[x].Ready()
        ensures x in loop.connections && loop.connections[x].kind == WorkerSide
      {
        assert x in old(loop.View()).conns && old(loop.View()).conns[x].kind == WorkerSide;
        assert x in loop.View().conns;
      }
    }

    /** This is the step for the event PoolLine; which pool connection delivered the line makes no
        difference. */
    method OnPoolLine(fd: int, line: string, env: Env) returns (log: seq<Entry>)
      requires Valid() && workers.ReadyAreLive()
      modifies workers, pool, loop, loop.Objects()
      ensures Valid()
      ensures Stepped(View(), log)
           == PassJob(OnPoolMessage(config.pools, old(View()).pool, old(View()).net, line, env),
                      old(View()).workers, env)
    {
      JobKeepsNet(config.pools, pool.View(), loop.View(), line, env);
      log := pool.OnMessage(line, env);
      if JobIn(log).Some? {
        StillLive();
      }
      OnJobReported(log, env);
    }

    /** The job callback: it runs when the last thing reported is a job. */
    method OnJobReported(log: seq<Entry>, env: Env)
      requires Valid() && (JobIn(log).Some? ==> workers.ReadyAreLive())
      modifies workers, loop.Objects()
      ensures Valid()
      ensures Stepped(View(), log) == PassJob(Out(old(View()).pool, old(View()).net, log), old(View()).workers, env)
    {
      if log != [] && log[|log| - 1].JobAdopted? {
        workers.BroadcastJob(log[|log| - 1].job, env);
      }
    }

    /** This is the step for the event HandshakeTick. */
    method OnHandshakeReady(fd: int, attachOk: bool, r: SslResult, env: Env) returns (log: seq<Entry>)
      requires Valid() && fd in loop.connections
      modifies pool, loop, loop.Objects()
      ensures Valid()
      ensures Stepped(View(), log) == OnHandshake(config, old(View()), fd, attachOk, r, env)
    {
      log := [];
      var told := loop.ContinueHandshake(fd, attachOk, r);
      if told.Some? {
        log := pool.OnState(told.value, env);
      }
    }

    method OnCleanup()
      requires Valid()
      modifies loop
      ensures Valid()
      ensures View() == Step(config, old(View()), Cleanup).sys
    {
      loop.CleanupClosed();
    }

    method OnHangup(fd: int)
      requires Valid()
      modifies loop.Objects()
      ensures Valid()
      ensures View() == Step(config, old(View()), Hangup(fd)).sys
    {
      loop.MarkForClosing(fd);
    }

    /** A reconnect timer fires: its callback connects to the current pool, and the timer goes. */
    method OnReconnectDue(i: nat, env: Env)
      requires Valid() && i < |loop.timeouts|
      modifies pool, loop
      ensures Valid()
      ensures View() == Step(config, old(View()), ReconnectDue(i, env)).sys
    {
      loop.timeouts := loop.timeouts[..i] + loop.timeouts[i + 1..];
      assert loop.View() == old(loop.View()).(timers := loop.timeouts);
      pool.TryConnectPool(pool.currentPoolIndex, env);
    }
  }
}
