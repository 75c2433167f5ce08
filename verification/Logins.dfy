/** The logins on the wire: whose credentials they carry, and under which id, over every run. */
module Logins {
  import opened Wrappers
  import opened Stratum
  import opened Connections
  import opened EventLoops
  import opened Pools
  import opened Workers
  import opened Proxies
  import opened LoginFirst

  // ----- Logins on the wire ---------------------------------------------------------------------

  /** The wallet and the password are those of one configured pool. */
  predicate HasCredentials(pools: seq<PoolConfig>, wallet: string, password: string) {
    exists i :: 0 <= i < |pools| && wallet == pools[i].wallet && password == pools[i].password
  }

  /** A login on the wire carries the credentials of one pool, and was reported when its id was handed
      out. */
  predicate LoggedIfLogin(pools: seq<PoolConfig>, m: Msg, log: seq<Entry>) {
    m.LoginMsg? ==> LoginIssued(m.id) in log && HasCredentials(pools, m.wallet, m.password)
  }

  ghost predicate AllLogged(pools: seq<PoolConfig>, conns: map<int, Conn>, log: seq<Entry>) {
    forall fd, i :: fd in conns && 0 <= i < |conns[fd].sent| ==> LoggedIfLogin(pools, conns[fd].sent[i], log)
  }

  /** What is offered on a connection of `b` was offered on it in `a`, or is no login. */
  ghost predicate NoNewLogin(a: map<int, Conn>, b: map<int, Conn>) {
    forall fd, i :: fd in b && 0 <= i < |b[fd].sent| ==>
      !b[fd].sent[i].LoginMsg? || (fd in a && i < |a[fd].sent| && b[fd].sent[i] == a[fd].sent[i])
  }

  lemma LoggedStays(pools: seq<PoolConfig>, a: map<int, Conn>, b: map<int, Conn>, log: seq<Entry>, more: seq<Entry>)
    requires AllLogged(pools, a, log) && NoNewLogin(a, b)
    ensures AllLogged(pools, b, log + more)
  {
    forall fd, i | fd in b && 0 <= i < |b[fd].sent| ensures LoggedIfLogin(pools, b[fd].sent[i], log + more) {
      if b[fd].sent[i].LoginMsg? {
        assert LoggedIfLogin(pools, a[fd].sent[i], log);
      }
    }
  }

  lemma NoNewLoginTwice(a: map<int, Conn>, b: map<int, Conn>, c: map<int, Conn>)
    requires NoNewLogin(a, b) && NoNewLogin(b, c)
    ensures NoNewLogin(a, c)
  {
  }

  lemma OfferIsNoLogin(conns: map<int, Conn>, fd: int, m: Msg, w: WriteResult)
    requires !m.LoginMsg?
    ensures NoNewLogin(conns, OfferTo(conns, fd, m, w))
  {
  }

  lemma BroadcastIsNoLogin(entries: map<int, Worker>, conns: map<int, Conn>, job: Job, env: Env)
    ensures NoNewLogin(conns, Broadcast(entries, conns, job, env))
  {
  }

  lemma AgainIsNoLogin(w: State, conns: map<int, Conn>, env: Env)
    ensures NoNewLogin(conns, SendJobAgain(w, conns, env).conns)
  {
    BroadcastIsNoLogin(w.entries, conns, w.job, env);
  }

  lemma ConnectIsNoLogin(cfg: seq<PoolConfig>, p: Pool, net: Net, i: nat, env: Env)
    requires i < |cfg|
    ensures NoNewLogin(net.conns, TryConnect(cfg, p, net, i, env).net.conns)
  {
    TryConnectSelectsFirst(cfg, p, net, i, env);
  }

  lemma GoDownIsNoLogin(cfg: seq<PoolConfig>, p: Pool, net: Net, env: Env)
    requires p.index < |cfg|
    ensures NoNewLogin(net.conns, GoDown(cfg, p, net, env).net.conns)
  {
    if p.attempts >= MAX_RECONNECT_ATTEMPTS {
      ConnectIsNoLogin(cfg, Down(p).(attempts := 0), net, NextIndex(p.index, |cfg|), env);
    }
  }

  lemma EffectIsNoLogin(cfg: seq<PoolConfig>, p: Pool, net: Net, f: Effect, env: Env)
    requires p.index < |cfg|
    ensures NoNewLogin(net.conns, Apply(cfg, p, net, f, env).net.conns)
  {
    if f.WentDown? {
      GoDownIsNoLogin(cfg, p, net, env);
    }
  }

  lemma WorkerLineIsNoLogin(whitelist: seq<string>, w: State, conns: map<int, Conn>, fd: int, line: string, env: Env)
    ensures NoNewLogin(conns, OnWorkerMessage(whitelist, w, conns, fd, line, env).conns)
  {
    var req := ParseRequest(line);
    if fd in w.entries {
      match req.verb
      case Subscribe => SubscribeIsNoLogin(w, conns, fd, req, env);
      case Authorize => AuthorizeIsNoLogin(whitelist, w, conns, fd, req, env);
      case Login => LoginIsNoLogin(whitelist, w, conns, fd, req, env);
      case _ => OfferIsNoLogin(conns, fd, SubmitAck(req.id), WriteOn(env, fd));
    }
  }

  lemma SubscribeIsNoLogin(w: State, conns: map<int, Conn>, fd: int, req: Request, env: Env)
    requires fd in w.entries
    ensures NoNewLogin(conns, HandleSubscribe(w, conns, fd, req, env).conns)
  {
    var told := OfferTo(conns, fd, SubscribeReply(req.id, fd), WriteOn(env, fd));
    OfferIsNoLogin(conns, fd, SubscribeReply(req.id, fd), WriteOn(env, fd));
    AgainIsNoLogin(w.(entries := w.entries[fd := w.entries[fd].(subscribed := true)]), told, env);
    NoNewLoginTwice(conns, told, HandleSubscribe(w, conns, fd, req, env).conns);
  }

  lemma AuthorizeIsNoLogin(whitelist: seq<string>, w: State, conns: map<int, Conn>, fd: int, req: Request, env: Env)
    requires fd in w.entries
    ensures NoNewLogin(conns, HandleAuthorize(whitelist, w, conns, fd, req, env).conns)
  {
    var id := AuthorizeId(req.params);
    if id.Some? {
      OfferIsNoLogin(conns, fd, AuthorizeReply(req.id, Allowed(whitelist, id.value)), WriteOn(env, fd));
    }
  }

  lemma LoginIsNoLogin(whitelist: seq<string>, w: State, conns: map<int, Conn>, fd: int, req: Request, env: Env)
    requires fd in w.entries
    ensures NoNewLogin(conns, HandleLogin(whitelist, w, conns, fd, req, env).conns)
  {
    if LoginId(req.params).Some? {
      OfferIsNoLogin(conns, fd, LoginReply(req.id, fd, if w.hasJob then Some(w.job) else None), WriteOn(env, fd));
    }
  }

  // ----- Every event keeps the logins reported --------------------------------------------------

  lemma AcceptedKeepsLogged(cfg: Config, s: Sys, fd: int, env: Env, log: seq<Entry>)
    requires InRange(cfg, s) && AllLogged(cfg.pools, s.net.conns, log)
    ensures var t := Step(cfg, s, Accepted(fd, env)); AllLogged(cfg.pools, t.sys.net.conns, log + t.log)
  {
    var w := s.workers.(entries := s.workers.entries[fd := Worker("", false, false, HexDigits(s.workers.nextNonce, 8))],
                        nextNonce := (s.workers.nextNonce + 1) % NONCE_COUNT);
    var conns := s.net.conns[fd := NewConn(WorkerSide)];
    AgainIsNoLogin(w, conns, env);
    assert NoNewLogin(s.net.conns, conns);
    NoNewLoginTwice(s.net.conns, conns, SendJobAgain(w, conns, env).conns);
    LoggedStays(cfg.pools, s.net.conns, SendJobAgain(w, conns, env).conns, log, []);
  }

  lemma WorkerEventKeepsLogged(cfg: Config, s: Sys, fd: int, line: string, env: Env, log: seq<Entry>)
    requires InRange(cfg, s) && AllLogged(cfg.pools, s.net.conns, log)
    ensures var t := Step(cfg, s, WorkerLine(fd, line, env)); AllLogged(cfg.pools, t.sys.net.conns, log + t.log)
  {
    var h := OnWorkerMessage(cfg.whitelist, s.workers, s.net.conns, fd, line, env);
    WorkerLineIsNoLogin(cfg.whitelist, s.workers, s.net.conns, fd, line, env);
    ShareKeepsLogged(cfg, s, h, env, log);
  }

  lemma ShareKeepsLogged(cfg: Config, s: Sys, h: Handled, env: Env, log: seq<Entry>)
    requires AllLogged(cfg.pools, s.net.conns, log) && NoNewLogin(s.net.conns, h.conns)
    ensures var t := PassShare(s, h, env); AllLogged(cfg.pools, t.sys.net.conns, log + t.log)
  {
    var t := PassShare(s, h, env);
    if h.share.Some? {
      var sh := h.share.value;
      var target := TargetFd(s.pool);
      OfferIsNoLogin(h.conns, target, SubmitMsg(s.pool.nextId, sh.worker, sh.jobId, sh.nonce, sh.result),
                     WriteOn(env, target));
      NoNewLoginTwice(s.net.conns, h.conns, t.sys.net.conns);
    }
    LoggedStays(cfg.pools, s.net.conns, t.sys.net.conns, log, t.log);
  }

  lemma PoolEventKeepsLogged(cfg: Config, s: Sys, fd: int, line: string, env: Env, log: seq<Entry>)
    requires InRange(cfg, s) && AllLogged(cfg.pools, s.net.conns, log)
    ensures var t := Step(cfg, s, PoolLine(fd, line, env)); AllLogged(cfg.pools, t.sys.net.conns, log + t.log)
  {
    var o := OnPoolMessage(cfg.pools, s.pool, s.net, line, env);
    var f := MessageEffect(cfg.pools, s.pool, s.net, line, env);
    EffectIsNoLogin(cfg.pools, s.pool, s.net, f, env);
    JobKeepsLogged(cfg, s.net.conns, o, s.workers, env, log);
  }

  lemma JobKeepsLogged(cfg: Config, conns: map<int, Conn>, o: Out, w: State, env: Env, log: seq<Entry>)
    requires AllLogged(cfg.pools, conns, log) && NoNewLogin(conns, o.net.conns)
    ensures var t := PassJob(o, w, env); AllLogged(cfg.pools, t.sys.net.conns, log + t.log)
  {
    var t := PassJob(o, w, env);
    if JobIn(o.log).Some? {
      BroadcastIsNoLogin(w.entries, o.net.conns, JobIn(o.log).value, env);
      NoNewLoginTwice(conns, o.net.conns, t.sys.net.conns);
    }
    LoggedStays(cfg.pools, conns, t.sys.net.conns, log, t.log);
  }

  lemma HandshakeKeepsLogged(cfg: Config, s: Sys, fd: int, attachOk: bool, r: SslResult, env: Env, log: seq<Entry>)
    requires InRange(cfg, s) && AllLogged(cfg.pools, s.net.conns, log)
    ensures var t := OnHandshake(cfg, s, fd, attachOk, r, env); AllLogged(cfg.pools, t.sys.net.conns, log + t.log)
  {
    var t := OnHandshake(cfg, s, fd, attachOk, r, env);
    if fd in s.net.conns {
      var h := HandshakeStep(s.net.conns[fd], attachOk, r);
      var net := s.net.(conns := s.net.conns[fd := h.conn]);
      assert NoNewLogin(s.net.conns, net.conns);
      LoggedStays(cfg.pools, s.net.conns, net.conns, log, []);
      assert log + [] == log;
      if h.told == Some(Connected) {
        LoginKeepsLogged(cfg, s.pool, net, env, log);
      } else {
        GoDownIsNoLogin(cfg.pools, s.pool, net, env);
        LoggedStays(cfg.pools, net.conns, t.sys.net.conns, log, t.log);
      }
    } else {
      LoggedStays(cfg.pools, s.net.conns, s.net.conns, log, []);
    }
  }

  lemma LoginKeepsLogged(cfg: Config, p: Pool, net: Net, env: Env, log: seq<Entry>)
    requires p.index < |cfg.pools| && AllLogged(cfg.pools, net.conns, log)
    ensures var o := SendLogin(cfg.pools, p, net, env); AllLogged(cfg.pools, o.net.conns, log + o.log)
  {
    var all := log + [LoginIssued(p.nextId)];
    assert all[|log|] == LoginIssued(p.nextId);
    assert HasCredentials(cfg.pools, cfg.pools[p.index].wallet, cfg.pools[p.index].password);
    LoggedStays(cfg.pools, net.conns, net.conns, log, [LoginIssued(p.nextId)]);
  }

  lemma QuietEventKeepsLogged(cfg: Config, s: Sys, e: Event, log: seq<Entry>)
    requires InRange(cfg, s) && AllLogged(cfg.pools, s.net.conns, log)
    requires e.ReconnectDue? || e.Hangup? || e.Cleanup?
    ensures var t := Step(cfg, s, e); AllLogged(cfg.pools, t.sys.net.conns, log + t.log)
  {
    var t := Step(cfg, s, e);
    if e.ReconnectDue? {
      var net := if e.i < |s.net.timers| then s.net.(timers := s.net.timers[..e.i] + s.net.timers[e.i + 1..])
                 else s.net;
      ConnectIsNoLogin(cfg.pools, s.pool, net, s.pool.index, e.env);
    }
    LoggedStays(cfg.pools, s.net.conns, t.sys.net.conns, log, t.log);
  }

  lemma EventKeepsLogged(cfg: Config, s: Sys, e: Event, log: seq<Entry>)
    requires InRange(cfg, s) && AllLogged(cfg.pools, s.net.conns, log)
    ensures var t := Step(cfg, s, e); AllLogged(cfg.pools, t.sys.net.conns, log + t.log)
  {
    match e
    case Accepted(fd, env) => AcceptedKeepsLogged(cfg, s, fd, env, log);
    case WorkerLine(fd, line, env) => WorkerEventKeepsLogged(cfg, s, fd, line, env, log);
    case PoolLine(fd, line, env) => PoolEventKeepsLogged(cfg, s, fd, line, env, log);
    case HandshakeTick(fd, attachOk, r, env) => HandshakeKeepsLogged(cfg, s, fd, attachOk, r, env, log);
    case _ => QuietEventKeepsLogged(cfg, s, e, log);
  }

  // ----- Over runs ------------------------------------------------------------------------------

  /** In every state that a run from a start with correct logins reaches, every login offered on any
      connection carries the wallet and the password of one configured pool, under an id that was handed
      out for a login. */
  lemma LoginsCarryCredentials(cfg: Config, s: Sys, events: seq<Event>, log: seq<Entry>)
    requires InRange(cfg, s) && AllLogged(cfg.pools, s.net.conns, log)
    ensures var t := Run(cfg, s, events); AllLogged(cfg.pools, t.sys.net.conns, log + t.log)
  {
    var P: Claim := (x: Sys, l: seq<Entry>) => AllLogged(cfg.pools, x.net.conns, l);
    forall x, e, l | InRange(cfg, x) && P(x, l) ensures Keeps(cfg, P, x, e, l) {
      EventKeepsLogged(cfg, x, e, l);
    }
    GuardedByEvents(cfg, s, events, (x, e) => true);
    RunKeeps(cfg, (x, e) => true, P, s, events, log);
  }

  lemma StartHasNoLogin(cfg: Config, poolJob: Job, workerJob: Job, env: Env)
    requires cfg.pools != []
    ensures AllLogged(cfg.pools, Started(cfg, poolJob, workerJob, env).net.conns, [])
  {
    TryConnectSelectsFirst(cfg.pools, NewPool(cfg.pools, poolJob), Net(map[], []), 0, env);
  }

  /** A handshake that completes on the current connection offers the login of the current pool under the
      next id as that connection's last line, which also is its first. */
  lemma CompletionOffersLogin(cfg: Config, s: Sys, fd: int, attachOk: bool, env: Env)
    requires InRange(cfg, s) && LoginsFirst(s) && fd == TargetFd(s.pool)
    requires Enabled(s, HandshakeTick(fd, attachOk, SslDone, env)) && (attachOk || s.net.conns[fd].attached)
    ensures var t := Step(cfg, s, HandshakeTick(fd, attachOk, SslDone, env));
      && fd in t.sys.net.conns
      && |t.sys.net.conns[fd].sent| == 1
      && var m := t.sys.net.conns[fd].sent[0];
      && m.LoginMsg?
      && m.wallet == cfg.pools[s.pool.index].wallet
      && m.password == cfg.pools[s.pool.index].password
      && m.id == s.pool.nextId
      && t.sys.pool.nextId == s.pool.nextId + 1 && t.log == [LoginIssued(m.id)]
  {
    assert Orderly(s.net.conns[fd], true);
  }
}
