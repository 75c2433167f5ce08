/** Worker records hold pointers to connections that the event loop owns. When every ready record still has
    its connection, sending to it is safe; only the cleanup can end that. */
module Lifetimes {
  import opened Stratum
  import opened Connections
  import opened EventLoops
  import opened Pools
  import opened Workers
  import opened Proxies
  import opened WorkerRuns

  /** Every ready record has a live connection. */
  ghost predicate ReadyLive(s: Sys) {
    forall fd :: fd in s.workers.entries && s.workers.entries[fd].Ready() ==> IsWorker(s.net.conns, fd)
  }

  /** A cleanup would close the connection of no ready worker. */
  ghost predicate ClosesNoReady(s: Sys) {
    forall fd :: fd in s.workers.entries && s.workers.entries[fd].Ready() && IsWorker(s.net.conns, fd) ==>
      !s.net.conns[fd].shouldClose
  }

  /** All worker connections of `a` are in `b`. */
  ghost predicate NoneLost(a: map<int, Conn>, b: map<int, Conn>) {
    forall fd :: IsWorker(a, fd) ==> IsWorker(b, fd)
  }

  lemma BroadcastLosesNone(entries: map<int, Worker>, conns: map<int, Conn>, job: Job, env: Env)
    ensures NoneLost(conns, Broadcast(entries, conns, job, env))
  {
  }

  lemma ConnectLosesNone(cfg: seq<PoolConfig>, p: Pool, net: Net, i: nat, env: Env)
    requires i < |cfg|
    requires forall k :: k in env.connect ==> env.connect[k] !in net.conns
    ensures NoneLost(net.conns, TryConnect(cfg, p, net, i, env).net.conns)
  {
    TryConnectSelectsFirst(cfg, p, net, i, env);
  }

  lemma GoDownLosesNone(cfg: seq<PoolConfig>, p: Pool, net: Net, env: Env)
    requires p.index < |cfg|
    requires forall k :: k in env.connect ==> env.connect[k] !in net.conns
    ensures NoneLost(net.conns, GoDown(cfg, p, net, env).net.conns)
  {
    if p.attempts >= MAX_RECONNECT_ATTEMPTS {
      ConnectLosesNone(cfg, Down(p).(attempts := 0), net, NextIndex(p.index, |cfg|), env);
    }
  }

  /** Records that are ready now were ready before or have a connection. */
  lemma StaysLive(s: Sys, t: Sys)
    requires ReadyLive(s) && NoneLost(s.net.conns, t.net.conns)
    requires forall fd :: fd in t.workers.entries && t.workers.entries[fd].Ready() ==>
      (fd in s.workers.entries && s.workers.entries[fd].Ready()) || IsWorker(t.net.conns, fd)
    ensures ReadyLive(t)
  {
  }

  lemma AcceptedStaysLive(cfg: Config, s: Sys, fd: int, env: Env)
    requires InRange(cfg, s) && ReadyLive(s)
    ensures ReadyLive(Step(cfg, s, Accepted(fd, env)).sys)
  {
    var entries := s.workers.entries[fd := Worker("", false, false, HexDigits(s.workers.nextNonce, 8))];
    var conns := s.net.conns[fd := NewConn(WorkerSide)];
    BroadcastLosesNone(entries, conns, s.workers.job, env);
    assert NoneLost(s.net.conns, conns);
    StaysLive(s, Step(cfg, s, Accepted(fd, env)).sys);
  }

  lemma SubscribeLosesNone(w: State, conns: map<int, Conn>, fd: int, req: Request, env: Env)
    requires fd in w.entries
    ensures var b := HandleSubscribe(w, conns, fd, req, env);
      NoneLost(conns, b.conns) && OthersKept(w, b.workers, fd)
  {
    var told := OfferTo(conns, fd, SubscribeReply(req.id, fd), WriteOn(env, fd));
    BroadcastLosesNone(w.entries[fd := w.entries[fd].(subscribed := true)], told, w.job, env);
    assert NoneLost(conns, told);
  }

  lemma AuthorizeLosesNone(whitelist: seq<string>, w: State, conns: map<int, Conn>, fd: int, req: Request, env: Env)
    requires fd in w.entries
    ensures var b := HandleAuthorize(whitelist, w, conns, fd, req, env);
      NoneLost(conns, b.conns) && OthersKept(w, b.workers, fd)
  {
  }

  lemma LoginLosesNone(whitelist: seq<string>, w: State, conns: map<int, Conn>, fd: int, req: Request, env: Env)
    requires fd in w.entries
    ensures var b := HandleLogin(whitelist, w, conns, fd, req, env);
      NoneLost(conns, b.conns) && OthersKept(w, b.workers, fd)
  {
  }

  /** Only the record of `fd` is new. */
  ghost predicate OthersKept(w: State, v: State, fd: int) {
    forall x :: x in v.entries && x != fd ==> x in w.entries && v.entries[x] == w.entries[x]
  }

  /** One line from a worker: no connection is lost, and only its own record can become ready. */
  lemma LineLosesNone(whitelist: seq<string>, w: State, conns: map<int, Conn>, fd: int, line: string, env: Env)
    ensures var h := OnWorkerMessage(whitelist, w, conns, fd, line, env);
      NoneLost(conns, h.conns) && OthersKept(w, h.workers, fd)
  {
    var req := ParseRequest(line);
    if fd in w.entries {
      match req.verb
      case Subscribe => SubscribeLosesNone(w, conns, fd, req, env);
      case Authorize => AuthorizeLosesNone(whitelist, w, conns, fd, req, env);
      case Login => LoginLosesNone(whitelist, w, conns, fd, req, env);
      case _ =>
    }
  }

  lemma WorkerLineStaysLive(cfg: Config, s: Sys, fd: int, line: string, env: Env)
    requires InRange(cfg, s) && ReadyLive(s) && IsWorker(s.net.conns, fd)
    ensures ReadyLive(Step(cfg, s, WorkerLine(fd, line, env)).sys)
  {
    var h := OnWorkerMessage(cfg.whitelist, s.workers, s.net.conns, fd, line, env);
    LineLosesNone(cfg.whitelist, s.workers, s.net.conns, fd, line, env);
    ShareLosesNone(s, h, env);
    StaysLive(s, PassShare(s, h, env).sys);
  }

  lemma ShareLosesNone(s: Sys, h: Handled, env: Env)
    requires NoneLost(s.net.conns, h.conns)
    ensures var t := PassShare(s, h, env).sys; t.workers == h.workers && NoneLost(s.net.conns, t.net.conns)
  {
  }

  lemma PoolLineStaysLive(cfg: Config, s: Sys, fd: int, line: string, env: Env)
    requires InRange(cfg, s) && ReadyLive(s) && FreshFds(s, env)
    ensures ReadyLive(Step(cfg, s, PoolLine(fd, line, env)).sys)
  {
    var o := OnPoolMessage(cfg.pools, s.pool, s.net, line, env);
    var f := MessageEffect(cfg.pools, s.pool, s.net, line, env);
    EffectLosesNone(cfg.pools, s.pool, s.net, f, env);
    JobLosesNone(s.net.conns, o, s.workers, env);
    StaysLive(s, PassJob(o, s.workers, env).sys);
  }

  lemma EffectLosesNone(cfg: seq<PoolConfig>, p: Pool, net: Net, f: Effect, env: Env)
    requires p.index < |cfg|
    requires forall k :: k in env.connect ==> env.connect[k] !in net.conns
    ensures NoneLost(net.conns, Apply(cfg, p, net, f, env).net.conns)
  {
    if f.WentDown? {
      GoDownLosesNone(cfg, p, net, env);
    }
  }

  lemma JobLosesNone(conns: map<int, Conn>, o: Out, w: State, env: Env)
    requires NoneLost(conns, o.net.conns)
    ensures var t := PassJob(o, w, env).sys; t.workers.entries == w.entries && NoneLost(conns, t.net.conns)
  {
    if JobIn(o.log).Some? {
      BroadcastLosesNone(w.entries, o.net.conns, JobIn(o.log).value, env);
    }
  }

  lemma HandshakeStaysLive(cfg: Config, s: Sys, fd: int, attachOk: bool, r: SslResult, env: Env)
    requires InRange(cfg, s) && ReadyLive(s) && FreshFds(s, env)
    ensures ReadyLive(OnHandshake(cfg, s, fd, attachOk, r, env).sys)
  {
    if fd in s.net.conns {
      var h := HandshakeStep(s.net.conns[fd], attachOk, r);
      var net := s.net.(conns := s.net.conns[fd := h.conn]);
      assert NoneLost(s.net.conns, net.conns);
      GoDownLosesNone(cfg.pools, s.pool, net, env);
      StaysLive(s, OnHandshake(cfg, s, fd, attachOk, r, env).sys);
    }
  }

  lemma CleanupStaysLiveIff(cfg: Config, s: Sys)
    requires InRange(cfg, s) && ReadyLive(s)
    ensures ReadyLive(Step(cfg, s, Cleanup).sys) <==> ClosesNoReady(s)
  {
    var t := Step(cfg, s, Cleanup).sys;
    forall fd ensures IsWorker(t.net.conns, fd) <==> IsWorker(s.net.conns, fd) && !s.net.conns[fd].shouldClose {}
    if ReadyLive(t) {
      forall fd | fd in s.workers.entries && s.workers.entries[fd].Ready() ensures !s.net.conns[fd].shouldClose {
        assert IsWorker(t.net.conns, fd);
      }
    }
  }

  lemma ReconnectStaysLive(cfg: Config, s: Sys, i: nat, env: Env)
    requires InRange(cfg, s) && ReadyLive(s) && FreshFds(s, env) && i < |s.net.timers|
    ensures ReadyLive(Step(cfg, s, ReconnectDue(i, env)).sys)
  {
    var net := s.net.(timers := s.net.timers[..i] + s.net.timers[i + 1..]);
    ConnectLosesNone(cfg.pools, s.pool, net, s.pool.index, env);
    StaysLive(s, Step(cfg, s, ReconnectDue(i, env)).sys);
  }

  /** A possible event leaves every ready record its connection, unless it is the cleanup of a ready
      worker. */
  lemma ReadyStaysLiveIff(cfg: Config, s: Sys, e: Event)
    requires InRange(cfg, s) && Enabled(s, e) && ReadyLive(s)
    ensures ReadyLive(Step(cfg, s, e).sys) <==> (e.Cleanup? ==> ClosesNoReady(s))
  {
    match e
    case Accepted(fd, env) => AcceptedStaysLive(cfg, s, fd, env);
    case WorkerLine(fd, line, env) => WorkerLineStaysLive(cfg, s, fd, line, env);
    case PoolLine(fd, line, env) => PoolLineStaysLive(cfg, s, fd, line, env);
    case HandshakeTick(fd, attachOk, r, env) => HandshakeStaysLive(cfg, s, fd, attachOk, r, env);
    case ReconnectDue(i, env) => ReconnectStaysLive(cfg, s, i, env);
    case Hangup(_) => StaysLive(s, Step(cfg, s, e).sys);
    case Cleanup => CleanupStaysLiveIff(cfg, s);
  }

  /** Over every run whose cleanups close no ready worker, all ready records keep their connections. */
  lemma ReadyAlwaysLive(cfg: Config, s: Sys, events: seq<Event>)
    requires InRange(cfg, s) && ReadyLive(s)
    requires Guarded(cfg, s, events, (x, e) => Enabled(x, e) && (e.Cleanup? ==> ClosesNoReady(x)))
    ensures ReadyLive(Run(cfg, s, events).sys)
  {
    var G: Guard := (x: Sys, e: Event) => Enabled(x, e) && (e.Cleanup? ==> ClosesNoReady(x));
    var P: Claim := (x: Sys, l: seq<Entry>) => ReadyLive(x);
    forall x, e, l | InRange(cfg, x) && P(x, l) && G(x, e) ensures Keeps(cfg, P, x, e, l) {
      ReadyStaysLiveIff(cfg, x, e);
    }
    RunKeeps(cfg, G, P, s, events, []);
  }

  /** In the object's terms: this is what the methods that may send a job ask for. */
  lemma LiveIsPrecondition(g: GPUProxy)
    requires g.Valid()
    ensures g.workers.ReadyAreLive() <==> ReadyLive(g.View())
  {
    forall fd ensures IsWorker(g.View().net.conns, fd)
      <==> fd in g.loop.connections && g.loop.connections[fd].kind == WorkerSide {}
  }
}
