/** On every pool connection whose TLS handshake completes, the first line offered to the socket is a
    login: for every interleaving of handshakes, retries, failed logins, coexisting connections and
    share submissions. */
module LoginFirst {
  import opened Wrappers
  import opened Stratum
  import opened Connections
  import opened EventLoops
  import opened Pools
  import opened Workers
  import opened Proxies

  /** One connection. An unfinished handshake has offered nothing; a finished one started with a login,
      if anything was offered, and the connection the pool side sends to did offer it. */
  predicate Orderly(c: Conn, current: bool) {
    match c.kind
    case WorkerSide => c.state == Connected
    case PoolSide =>
      && c.state in {Connecting, Connected, ConnState.Error}
      && (c.tlsComplete <==> c.state == Connected)
      && (c.state == Connecting ==> c.sent == [])
      && (c.tlsComplete ==> c.sent == [] || c.sent[0].LoginMsg?)
      && (c.tlsComplete && current ==> c.sent != [])
  }

  predicate AllOrderly(conns: map<int, Conn>, target: int) {
    forall fd :: fd in conns ==> fd >= 0 && Orderly(conns[fd], fd == target)
  }

  predicate LoginsFirst(s: Sys) {
    AllOrderly(s.net.conns, TargetFd(s.pool))
  }

  // ----- Single operations ----------------------------------------------------------------------

  lemma OfferKeepsOrder(conns: map<int, Conn>, target: int, fd: int, m: Msg, w: WriteResult)
    requires AllOrderly(conns, target)
    requires fd in conns && conns[fd].kind == PoolSide ==> fd == target
    ensures AllOrderly(OfferTo(conns, fd, m, w), target)
  {
  }

  /** The handshake of one connection has just completed; everything else is orderly. */
  lemma FirstLoginKeepsOrder(conns: map<int, Conn>, target: int, fd: int, m: Msg, w: WriteResult)
    requires fd in conns && fd >= 0 && conns[fd].kind == PoolSide && conns[fd].tlsComplete
    requires conns[fd].state == Connected && conns[fd].sent == [] && m.LoginMsg?
    requires forall x :: x in conns && x != fd ==> x >= 0 && Orderly(conns[x], x == target)
    ensures AllOrderly(OfferTo(conns, target, m, w), target)
  {
  }

  lemma ConnectKeepsOrder(cfg: seq<PoolConfig>, p: Pool, net: Net, i: nat, env: Env)
    requires AllOrderly(net.conns, TargetFd(p))
    requires forall k :: k in env.connect ==> env.connect[k] >= 0 && env.connect[k] !in net.conns
    requires i < |cfg|
    ensures var a := TryConnect(cfg, p, net, i, env); AllOrderly(a.net.conns, TargetFd(a.pool))
  {
    TryConnectSelectsFirst(cfg, p, net, i, env);
  }

  lemma GoDownKeepsOrder(cfg: seq<PoolConfig>, p: Pool, net: Net, env: Env)
    requires p.index < |cfg| && AllOrderly(net.conns, TargetFd(p))
    requires forall k :: k in env.connect ==> env.connect[k] >= 0 && env.connect[k] !in net.conns
    ensures var o := GoDown(cfg, p, net, env); AllOrderly(o.net.conns, TargetFd(o.pool))
  {
    if p.attempts >= MAX_RECONNECT_ATTEMPTS {
      ConnectKeepsOrder(cfg, Down(p).(attempts := 0), net, NextIndex(p.index, |cfg|), env);
    }
  }

  lemma BroadcastKeepsOrder(entries: map<int, Worker>, conns: map<int, Conn>, job: Job, env: Env, target: int)
    requires AllOrderly(conns, target)
    ensures AllOrderly(Broadcast(entries, conns, job, env), target)
  {
    var all := Broadcast(entries, conns, job, env);
    forall fd | fd in all ensures fd >= 0 && Orderly(all[fd], fd == target) {
      assert Orderly(conns[fd], fd == target);
    }
  }

  lemma AgainKeepsOrder(w: State, conns: map<int, Conn>, env: Env, target: int)
    requires AllOrderly(conns, target)
    ensures AllOrderly(SendJobAgain(w, conns, env).conns, target)
  {
    BroadcastKeepsOrder(w.entries, conns, w.job, env, target);
  }

  lemma WorkerLineKeepsOrder(whitelist: seq<string>, w: State, conns: map<int, Conn>, fd: int, line: string,
                             env: Env, target: int)
    requires AllOrderly(conns, target) && fd in conns && conns[fd].kind == WorkerSide
    ensures AllOrderly(OnWorkerMessage(whitelist, w, conns, fd, line, env).conns, target)
  {
    var req := ParseRequest(line);
    if fd in w.entries {
      match req.verb
      case Subscribe =>
        OfferKeepsOrder(conns, target, fd, SubscribeReply(req.id, fd), WriteOn(env, fd));
        AgainKeepsOrder(w.(entries := w.entries[fd := w.entries[fd].(subscribed := true)]),
                        OfferTo(conns, fd, SubscribeReply(req.id, fd), WriteOn(env, fd)), env, target);
      case Authorize => AuthorizeKeepsOrder(whitelist, w, conns, fd, req, env, target);
      case Login =>
        OfferKeepsOrder(conns, target, fd, LoginReply(req.id, fd, if w.hasJob then Some(w.job) else None),
                        WriteOn(env, fd));
      case _ => OfferKeepsOrder(conns, target, fd, SubmitAck(req.id), WriteOn(env, fd));
    }
  }

  lemma AuthorizeKeepsOrder(whitelist: seq<string>, w: State, conns: map<int, Conn>, fd: int, req: Request,
                            env: Env, target: int)
    requires AllOrderly(conns, target) && fd in conns && conns[fd].kind == WorkerSide && fd in w.entries
    ensures AllOrderly(HandleAuthorize(whitelist, w, conns, fd, req, env).conns, target)
  {
    var id := AuthorizeId(req.params);
    if id.Some? {
      OfferKeepsOrder(conns, target, fd, AuthorizeReply(req.id, Allowed(whitelist, id.value)), WriteOn(env, fd));
    }
  }

  // ----- Events ---------------------------------------------------------------------------------

  lemma AcceptedKeepsOrder(cfg: Config, s: Sys, fd: int, env: Env)
    requires InRange(cfg, s) && LoginsFirst(s) && Enabled(s, Accepted(fd, env))
    ensures LoginsFirst(Step(cfg, s, Accepted(fd, env)).sys)
  {
    var w := s.workers.(entries := s.workers.entries[fd := Worker("", false, false, HexDigits(s.workers.nextNonce, 8))],
                        nextNonce := (s.workers.nextNonce + 1) % NONCE_COUNT);
    AgainKeepsOrder(w, s.net.conns[fd := NewConn(WorkerSide)], env, TargetFd(s.pool));
  }

  lemma WorkerEventKeepsOrder(cfg: Config, s: Sys, fd: int, line: string, env: Env)
    requires InRange(cfg, s) && LoginsFirst(s) && Enabled(s, WorkerLine(fd, line, env))
    ensures LoginsFirst(Step(cfg, s, WorkerLine(fd, line, env)).sys)
  {
    var target := TargetFd(s.pool);
    WorkerLineKeepsOrder(cfg.whitelist, s.workers, s.net.conns, fd, line, env, target);
    var h := OnWorkerMessage(cfg.whitelist, s.workers, s.net.conns, fd, line, env);
    if h.share.Some? {
      var sh := h.share.value;
      OfferKeepsOrder(h.conns, target, target,
                      SubmitMsg(s.pool.nextId, sh.worker, sh.jobId, sh.nonce, sh.result), WriteOn(env, target));
    }
  }

  lemma MessageKeepsOrder(cfg: Config, s: Sys, line: string, env: Env)
    requires InRange(cfg, s) && LoginsFirst(s) && FreshFds(s, env)
    ensures var o := OnPoolMessage(cfg.pools, s.pool, s.net, line, env); AllOrderly(o.net.conns, TargetFd(o.pool))
  {
    var f := MessageEffect(cfg.pools, s.pool, s.net, line, env);
    EffectKeepsOrder(cfg.pools, s.pool, s.net, f, env);
  }

  lemma EffectKeepsOrder(cfg: seq<PoolConfig>, p: Pool, net: Net, f: Effect, env: Env)
    requires p.index < |cfg| && AllOrderly(net.conns, TargetFd(p))
    requires forall k :: k in env.connect ==> env.connect[k] >= 0 && env.connect[k] !in net.conns
    ensures var o := Apply(cfg, p, net, f, env); AllOrderly(o.net.conns, TargetFd(o.pool))
  {
    if f.WentDown? {
      GoDownKeepsOrder(cfg, p, net, env);
    } else {
      EffectKeepsNet(cfg, p, net, f, env);
    }
  }

  lemma EffectKeepsNet(cfg: seq<PoolConfig>, p: Pool, net: Net, f: Effect, env: Env)
    requires p.index < |cfg| && !f.WentDown?
    ensures var o := Apply(cfg, p, net, f, env); o.net == net && TargetFd(o.pool) == TargetFd(p)
  {
  }

  lemma PassJobKeepsOrder(o: Out, w: State, env: Env)
    requires AllOrderly(o.net.conns, TargetFd(o.pool))
    ensures LoginsFirst(PassJob(o, w, env).sys)
  {
    if JobIn(o.log).Some? {
      BroadcastKeepsOrder(w.entries, o.net.conns, JobIn(o.log).value, env, TargetFd(o.pool));
    }
  }

  lemma PoolEventKeepsOrder(cfg: Config, s: Sys, fd: int, line: string, env: Env)
    requires InRange(cfg, s) && LoginsFirst(s) && Enabled(s, PoolLine(fd, line, env))
    ensures LoginsFirst(Step(cfg, s, PoolLine(fd, line, env)).sys)
  {
    MessageKeepsOrder(cfg, s, line, env);
    PassJobKeepsOrder(OnPoolMessage(cfg.pools, s.pool, s.net, line, env), s.workers, env);
  }

  lemma HandshakeKeepsOrder(cfg: Config, s: Sys, fd: int, attachOk: bool, r: SslResult, env: Env)
    requires InRange(cfg, s) && LoginsFirst(s) && Enabled(s, HandshakeTick(fd, attachOk, r, env))
    ensures LoginsFirst(Step(cfg, s, HandshakeTick(fd, attachOk, r, env)).sys)
  {
    var c := s.net.conns[fd];
    var h := HandshakeStep(c, attachOk, r);
    var net := s.net.(conns := s.net.conns[fd := h.conn]);
    var target := TargetFd(s.pool);
    assert Orderly(c, fd == target);
    if h.told == Some(Connected) {
      var pool := cfg.pools[s.pool.index];
      FirstLoginKeepsOrder(net.conns, target, fd, LoginMsg(pool.wallet, pool.password, s.pool.nextId),
                           WriteOn(env, target));
    } else {
      assert Orderly(h.conn, fd == target);
      assert AllOrderly(net.conns, target);
      GoDownKeepsOrder(cfg.pools, s.pool, net, env);
    }
  }

  lemma EventKeepsOrder(cfg: Config, s: Sys, e: Event)
    requires InRange(cfg, s) && LoginsFirst(s) && Enabled(s, e)
    ensures LoginsFirst(Step(cfg, s, e).sys)
  {
    match e
    case Accepted(fd, env) => AcceptedKeepsOrder(cfg, s, fd, env);
    case WorkerLine(fd, line, env) => WorkerEventKeepsOrder(cfg, s, fd, line, env);
    case PoolLine(fd, line, env) => PoolEventKeepsOrder(cfg, s, fd, line, env);
    case HandshakeTick(fd, attachOk, r, env) => HandshakeKeepsOrder(cfg, s, fd, attachOk, r, env);
    case ReconnectDue(i, env) =>
      var net := s.net.(timers := s.net.timers[..i] + s.net.timers[i + 1..]);
      ConnectKeepsOrder(cfg.pools, s.pool, net, s.pool.index, env);
    case Hangup(fd) =>
    case Cleanup =>
  }

  /** The whole-run theorem. */
  lemma LoginIsAlwaysFirst(cfg: Config, s: Sys, events: seq<Event>)
    requires InRange(cfg, s) && LoginsFirst(s) && Possible(cfg, s, events)
    ensures LoginsFirst(Run(cfg, s, events).sys)
  {
    var P: Claim := (x: Sys, l: seq<Entry>) => LoginsFirst(x);
    forall x, e, l | InRange(cfg, x) && P(x, l) && Enabled(x, e) ensures Keeps(cfg, P, x, e, l) {
      EventKeepsOrder(cfg, x, e);
    }
    RunKeeps(cfg, Enabled, P, s, events, []);
  }

  /** What the guarantee that a failed handshake stays failed is for: a handshake that completes keeps
      the order exactly when its connection has offered nothing yet, or a login first. A connection in
      the error state counts as connected, so a share may have been offered on it. */
  lemma CompletionKeepsOrderIff(cfg: Config, s: Sys, fd: int, env: Env)
    requires InRange(cfg, s) && LoginsFirst(s) && fd in s.net.conns && s.net.conns[fd].HandshakePending()
    ensures LoginsFirst(Step(cfg, s, HandshakeTick(fd, true, SslDone, env)).sys)
       <==> (s.net.conns[fd].sent == [] || s.net.conns[fd].sent[0].LoginMsg?)
  {
    var c := s.net.conns[fd];
    var h := HandshakeStep(c, true, SslDone);
    var target := TargetFd(s.pool);
    assert Orderly(c, fd == target);
    assert h.told == Some(Connected) && h.conn.sent == c.sent;
    var pool := cfg.pools[s.pool.index];
    var m := LoginMsg(pool.wallet, pool.password, s.pool.nextId);
    var conns := s.net.conns[fd := h.conn];
    if c.sent == [] {
      FirstLoginKeepsOrder(conns, target, fd, m, WriteOn(env, target));
    } else if c.sent[0].LoginMsg? {
      assert AllOrderly(conns, target);
      OfferKeepsOrder(conns, target, target, m, WriteOn(env, target));
    } else {
      var after := OfferTo(conns, target, m, WriteOn(env, target));
      assert after[fd].sent[0] == c.sent[0];
      assert !Orderly(after[fd], fd == target);
    }
  }

  lemma StartIsOrderly(cfg: Config, poolJob: Job, workerJob: Job, env: Env)
    requires cfg.pools != []
    requires forall i :: i in env.connect ==> env.connect[i] >= 0
    ensures LoginsFirst(Started(cfg, poolJob, workerJob, env))
  {
    ConnectKeepsOrder(cfg.pools, NewPool(cfg.pools, poolJob), Net(map[], []), 0, env);
  }
}
