/** What holds of the worker side over every run of the proxy: the whitelist, the extra nonces, and
    the job that each ready worker was last sent. */
module WorkerRuns {
  import opened Wrappers
  import opened Json
  import opened Stratum
  import opened Connections
  import opened EventLoops
  import opened Pools
  import opened Workers
  import opened Proxies

  // ----- The job a connection was last sent -----------------------------------------------------

  function CarriedJob(m: Msg): Option<Job> {
    match m
    case JobMsg(job) => Some(job)
    case LoginReply(_, _, given) => given
    case _ => None
  }

  function LastJob(sent: seq<Msg>): Option<Job> {
    if sent == [] then None
    else
      var m := sent[|sent| - 1];
      if CarriedJob(m).Some? then CarriedJob(m) else LastJob(sent[..|sent| - 1])
  }

  lemma LastJobAppend(sent: seq<Msg>, m: Msg)
    ensures LastJob(sent + [m]) == if CarriedJob(m).Some? then CarriedJob(m) else LastJob(sent)
  {
    assert (sent + [m])[..|sent|] == sent;
  }

  lemma OfferJob(c: Conn, m: Msg, w: WriteResult)
    ensures LastJob(Offer(c, m, w).sent)
         == if c.CanSend() && CarriedJob(m).Some? then CarriedJob(m) else LastJob(c.sent)
  {
    LastJobAppend(c.sent, m);
  }

  // ----- Connections of workers -----------------------------------------------------------------

  predicate IsWorker(conns: map<int, Conn>, fd: int) {
    fd in conns && conns[fd].kind == WorkerSide
  }

  /** Every worker connection of `b` is one of `a`: still connected, still marked for closing if it was,
      and last sent the same job. */
  ghost predicate Kept(a: map<int, Conn>, b: map<int, Conn>) {
    forall fd :: IsWorker(b, fd) ==>
      && IsWorker(a, fd)
      && b[fd].state == a[fd].state
      && (a[fd].shouldClose ==> b[fd].shouldClose)
      && LastJob(b[fd].sent) == LastJob(a[fd].sent)
  }

  lemma OfferKept(conns: map<int, Conn>, fd: int, m: Msg, w: WriteResult)
    requires CarriedJob(m).None?
    ensures Kept(conns, OfferTo(conns, fd, m, w))
  {
    if fd in conns {
      OfferJob(conns[fd], m, w);
    }
  }

  lemma TryConnectKept(cfg: seq<PoolConfig>, p: Pool, net: Net, i: nat, env: Env)
    requires i < |cfg|
    ensures Kept(net.conns, TryConnect(cfg, p, net, i, env).net.conns)
  {
    TryConnectSelectsFirst(cfg, p, net, i, env);
  }

  lemma GoDownKept(cfg: seq<PoolConfig>, p: Pool, net: Net, env: Env)
    requires p.index < |cfg|
    ensures Kept(net.conns, GoDown(cfg, p, net, env).net.conns)
  {
    if p.attempts >= MAX_RECONNECT_ATTEMPTS {
      TryConnectKept(cfg, Down(p).(attempts := 0), net, NextIndex(p.index, |cfg|), env);
    }
  }

  lemma PoolMessageKept(cfg: seq<PoolConfig>, p: Pool, net: Net, line: string, env: Env)
    requires p.index < |cfg|
    ensures Kept(net.conns, OnPoolMessage(cfg, p, net, line, env).net.conns)
  {
    var f := MessageEffect(cfg, p, net, line, env);
    GoDownKept(cfg, p, net, env);
  }

  lemma HandshakeKept(cfg: Config, s: Sys, fd: int, attachOk: bool, r: SslResult, env: Env)
    requires InRange(cfg, s)
    ensures Kept(s.net.conns, OnHandshake(cfg, s, fd, attachOk, r, env).sys.net.conns)
  {
    if fd in s.net.conns {
      var h := HandshakeStep(s.net.conns[fd], attachOk, r);
      var net := s.net.(conns := s.net.conns[fd := h.conn]);
      var pool := cfg.pools[s.pool.index];
      var target := TargetFd(s.pool);
      assert Kept(s.net.conns, net.conns);
      OfferKept(net.conns, target, LoginMsg(pool.wallet, pool.password, s.pool.nextId), WriteOn(env, target));
      GoDownKept(cfg.pools, s.pool, net, env);
    }
  }

  lemma SubmitKept(p: Pool, net: Net, share: Share, env: Env)
    ensures Kept(net.conns, SubmitShare(p, net, share, env).net.conns)
  {
    OfferKept(net.conns, TargetFd(p), SubmitMsg(p.nextId, share.worker, share.jobId, share.nonce, share.result),
              WriteOn(env, TargetFd(p)));
  }

  // ----- The whitelist --------------------------------------------------------------------------

  /** The record behind a worker connection: if it is authorized, there is no whitelist, or it names a
      worker of the whitelist, or the connection is marked for closing. */
  predicate Vetted(whitelist: seq<string>, w: Worker, c: Conn) {
    c.state == Connected && (w.authorized ==> whitelist == [] || w.workerId in whitelist || c.shouldClose)
  }

  ghost predicate AllVetted(whitelist: seq<string>, entries: map<int, Worker>, conns: map<int, Conn>) {
    forall fd :: IsWorker(conns, fd) ==> fd in entries && Vetted(whitelist, entries[fd], conns[fd])
  }

  lemma KeptKeepsVetted(whitelist: seq<string>, entries: map<int, Worker>, a: map<int, Conn>, b: map<int, Conn>)
    requires AllVetted(whitelist, entries, a) && Kept(a, b)
    ensures AllVetted(whitelist, entries, b)
  {
    forall fd | IsWorker(b, fd) ensures fd in entries && Vetted(whitelist, entries[fd], b[fd]) {
      assert IsWorker(a, fd);
    }
  }

  lemma BroadcastKeepsVetted(whitelist: seq<string>, entries: map<int, Worker>, conns: map<int, Conn>, job: Job,
                             env: Env)
    requires AllVetted(whitelist, entries, conns)
    ensures AllVetted(whitelist, entries, Broadcast(entries, conns, job, env))
  {
    var all := Broadcast(entries, conns, job, env);
    forall fd | IsWorker(all, fd) ensures fd in entries && Vetted(whitelist, entries[fd], all[fd]) {
      assert IsWorker(conns, fd);
    }
  }

  // ----- Ready workers hold the current job -----------------------------------------------------

  /** Every ready worker outside the gap was last sent the current job. */
  ghost predicate AllServed(w: State, conns: map<int, Conn>, gap: set<int>) {
    w.hasJob ==>
      forall fd :: IsWorker(conns, fd) && fd in w.entries && w.entries[fd].Ready() && fd !in gap ==>
        LastJob(conns[fd].sent) == Some(w.job)
  }

  lemma KeptKeepsServed(w: State, a: map<int, Conn>, b: map<int, Conn>, gap: set<int>)
    requires AllServed(w, a, gap) && Kept(a, b)
    ensures AllServed(w, b, gap)
  {
    forall fd | IsWorker(b, fd) ensures IsWorker(a, fd) {}
  }

  /** A broadcast serves every ready worker and so closes the gap. */
  lemma BroadcastServes(whitelist: seq<string>, w: State, conns: map<int, Conn>, job: Job, env: Env)
    requires AllVetted(whitelist, w.entries, conns)
    ensures var b := SendJob(w, conns, job, env); AllServed(b.workers, b.conns, {})
  {
    var b := SendJob(w, conns, job, env);
    forall fd | IsWorker(b.conns, fd) && w.entries[fd].Ready()
      ensures LastJob(b.conns[fd].sent) == Some(job)
    {
      assert IsWorker(conns, fd);
      assert Receives(w.entries, conns, fd);
      OfferJob(conns[fd], JobMsg(job), WriteOn(env, fd));
    }
  }

  ghost predicate Good(cfg: Config, w: State, conns: map<int, Conn>, gap: set<int>) {
    AllVetted(cfg.whitelist, w.entries, conns) && AllServed(w, conns, gap)
  }

  lemma SendJobGood(cfg: Config, w: State, conns: map<int, Conn>, job: Job, env: Env)
    requires AllVetted(cfg.whitelist, w.entries, conns)
    ensures var b := SendJob(w, conns, job, env); Good(cfg, b.workers, b.conns, {})
  {
    BroadcastKeepsVetted(cfg.whitelist, w.entries, conns, job, env);
    BroadcastServes(cfg.whitelist, w, conns, job, env);
  }

  lemma SendJobAgainGood(cfg: Config, w: State, conns: map<int, Conn>, env: Env, gap: set<int>)
    requires AllVetted(cfg.whitelist, w.entries, conns)
    ensures var b := SendJobAgain(w, conns, env); Good(cfg, b.workers, b.conns, if w.hasJob then {} else gap)
  {
    if w.hasJob {
      SendJobGood(cfg, w, conns, w.job, env);
    }
  }

  /** The workers made ready by `authorize` since the last broadcast: no job was sent to them then. A
      login sends the job, and a broadcast reaches every ready worker. */
  function GapAfter(cfg: Config, s: Sys, e: Event, gap: set<int>): set<int>
    requires InRange(cfg, s)
  {
    match e
    case Accepted(fd, _) => if s.workers.hasJob then {} else gap - {fd}
    case WorkerLine(fd, line, _) => if fd in s.workers.entries then GapAfterLine(s.workers, fd, line, gap) else gap
    case PoolLine(fd, line, env) =>
      if JobIn(OnPoolMessage(cfg.pools, s.pool, s.net, line, env).log).Some? then {} else gap
    case _ => gap
  }

  function GapAfterLine(w: State, fd: int, line: string, gap: set<int>): set<int>
    requires fd in w.entries
  {
    var req := ParseRequest(line);
    match req.verb
    case Subscribe => if w.hasJob then {} else gap
    case Authorize => if w.entries[fd].Ready() then gap else gap + {fd}
    case Login => if LoginId(req.params).Some? then gap - {fd} else gap
    case _ => gap
  }

  lemma AcceptedGood(cfg: Config, s: Sys, fd: int, env: Env, gap: set<int>)
    requires InRange(cfg, s) && Good(cfg, s.workers, s.net.conns, gap)
    ensures var t := Step(cfg, s, Accepted(fd, env)).sys;
      Good(cfg, t.workers, t.net.conns, GapAfter(cfg, s, Accepted(fd, env), gap))
  {
    var w := s.workers.(entries := s.workers.entries[fd := Worker("", false, false, HexDigits(s.workers.nextNonce, 8))],
                        nextNonce := (s.workers.nextNonce + 1) % NONCE_COUNT);
    var conns := s.net.conns[fd := NewConn(WorkerSide)];
    forall x | IsWorker(conns, x) ensures x in w.entries && Vetted(cfg.whitelist, w.entries[x], conns[x]) {
      if x != fd {
        assert IsWorker(s.net.conns, x);
      }
    }
    SendJobAgainGood(cfg, w, conns, env, gap - {fd});
  }

  lemma SubscribeGood(cfg: Config, w: State, conns: map<int, Conn>, fd: int, req: Request, env: Env, gap: set<int>)
    requires Good(cfg, w, conns, gap) && IsWorker(conns, fd) && fd in w.entries
    ensures var b := HandleSubscribe(w, conns, fd, req, env);
      Good(cfg, b.workers, b.conns, if w.hasJob then {} else gap)
  {
    var told := OfferTo(conns, fd, SubscribeReply(req.id, fd), WriteOn(env, fd));
    OfferKept(conns, fd, SubscribeReply(req.id, fd), WriteOn(env, fd));
    KeptKeepsVetted(cfg.whitelist, w.entries, conns, told);
    var w' := w.(entries := w.entries[fd := w.entries[fd].(subscribed := true)]);
    assert AllVetted(cfg.whitelist, w'.entries, told);
    SendJobAgainGood(cfg, w', told, env, gap);
  }

  lemma AuthorizeGood(cfg: Config, w: State, conns: map<int, Conn>, fd: int, req: Request, env: Env, gap: set<int>)
    requires Good(cfg, w, conns, gap) && IsWorker(conns, fd) && fd in w.entries
    ensures var b := HandleAuthorize(cfg.whitelist, w, conns, fd, req, env);
      Good(cfg, b.workers, b.conns, if w.entries[fd].Ready() then gap else gap + {fd})
  {
    var id := AuthorizeId(req.params);
    if id.Some? {
      var allowed := Allowed(cfg.whitelist, id.value);
      var m := AuthorizeReply(req.id, allowed);
      var told := OfferTo(conns, fd, m, WriteOn(env, fd));
      OfferKept(conns, fd, m, WriteOn(env, fd));
      KeptKeepsVetted(cfg.whitelist, w.entries, conns, told);
      KeptKeepsServed(w, conns, told, gap);
    }
  }

  lemma LoginGood(cfg: Config, w: State, conns: map<int, Conn>, fd: int, req: Request, env: Env, gap: set<int>)
    requires Good(cfg, w, conns, gap) && IsWorker(conns, fd) && fd in w.entries
    ensures var b := HandleLogin(cfg.whitelist, w, conns, fd, req, env);
      Good(cfg, b.workers, b.conns, if LoginId(req.params).Some? then gap - {fd} else gap)
  {
    var id := LoginId(req.params);
    if id.Some? {
      var m := LoginReply(req.id, fd, if w.hasJob then Some(w.job) else None);
      OfferJob(conns[fd], m, WriteOn(env, fd));
      assert Vetted(cfg.whitelist, w.entries[fd], conns[fd]);
    }
  }

  lemma WorkerLineGood(cfg: Config, s: Sys, fd: int, line: string, env: Env, gap: set<int>)
    requires InRange(cfg, s) && Good(cfg, s.workers, s.net.conns, gap) && IsWorker(s.net.conns, fd)
    ensures var h := OnWorkerMessage(cfg.whitelist, s.workers, s.net.conns, fd, line, env);
      Good(cfg, h.workers, h.conns, GapAfter(cfg, s, WorkerLine(fd, line, env), gap))
  {
    var req := ParseRequest(line);
    assert fd in s.workers.entries;
    match req.verb
    case Subscribe => SubscribeGood(cfg, s.workers, s.net.conns, fd, req, env, gap);
    case Authorize => AuthorizeGood(cfg, s.workers, s.net.conns, fd, req, env, gap);
    case Login => LoginGood(cfg, s.workers, s.net.conns, fd, req, env, gap);
    case _ => SubmitGood(cfg, s.workers, s.net.conns, fd, req, env, gap);
  }

  lemma SubmitGood(cfg: Config, w: State, conns: map<int, Conn>, fd: int, req: Request, env: Env, gap: set<int>)
    requires Good(cfg, w, conns, gap)
    ensures var h := HandleSubmit(w, conns, fd, req, env); Good(cfg, h.workers, h.conns, gap)
  {
    OfferKept(conns, fd, SubmitAck(req.id), WriteOn(env, fd));
    KeptGood(cfg, w, conns, OfferTo(conns, fd, SubmitAck(req.id), WriteOn(env, fd)), gap);
  }

  lemma KeptGood(cfg: Config, w: State, a: map<int, Conn>, b: map<int, Conn>, gap: set<int>)
    requires Good(cfg, w, a, gap) && Kept(a, b)
    ensures Good(cfg, w, b, gap)
  {
    KeptKeepsVetted(cfg.whitelist, w.entries, a, b);
    KeptKeepsServed(w, a, b, gap);
  }

  lemma WorkerEventGood(cfg: Config, s: Sys, fd: int, line: string, env: Env, gap: set<int>)
    requires InRange(cfg, s) && Good(cfg, s.workers, s.net.conns, gap) && IsWorker(s.net.conns, fd)
    ensures var t := Step(cfg, s, WorkerLine(fd, line, env)).sys;
      Good(cfg, t.workers, t.net.conns, GapAfter(cfg, s, WorkerLine(fd, line, env), gap))
  {
    WorkerLineGood(cfg, s, fd, line, env, gap);
    var h := OnWorkerMessage(cfg.whitelist, s.workers, s.net.conns, fd, line, env);
    if h.share.Some? {
      var net := s.net.(conns := h.conns);
      SubmitKept(s.pool, net, h.share.value, env);
      KeptGood(cfg, h.workers, h.conns, SubmitShare(s.pool, net, h.share.value, env).net.conns,
               GapAfter(cfg, s, WorkerLine(fd, line, env), gap));
    }
  }

  lemma PoolEventGood(cfg: Config, s: Sys, fd: int, line: string, env: Env, gap: set<int>)
    requires InRange(cfg, s) && Good(cfg, s.workers, s.net.conns, gap)
    ensures var t := Step(cfg, s, PoolLine(fd, line, env)).sys;
      Good(cfg, t.workers, t.net.conns, GapAfter(cfg, s, PoolLine(fd, line, env), gap))
  {
    var o := OnPoolMessage(cfg.pools, s.pool, s.net, line, env);
    PoolMessageKept(cfg.pools, s.pool, s.net, line, env);
    KeptGood(cfg, s.workers, s.net.conns, o.net.conns, gap);
    if JobIn(o.log).Some? {
      SendJobGood(cfg, s.workers, o.net.conns, JobIn(o.log).value, env);
    }
  }

  lemma EventGood(cfg: Config, s: Sys, e: Event, gap: set<int>)
    requires InRange(cfg, s) && Good(cfg, s.workers, s.net.conns, gap) && Enabled(s, e)
    ensures var t := Step(cfg, s, e).sys; Good(cfg, t.workers, t.net.conns, GapAfter(cfg, s, e, gap))
  {
    match e
    case Accepted(fd, env) => AcceptedGood(cfg, s, fd, env, gap);
    case WorkerLine(fd, line, env) => WorkerEventGood(cfg, s, fd, line, env, gap);
    case PoolLine(fd, line, env) => PoolEventGood(cfg, s, fd, line, env, gap);
    case HandshakeTick(fd, attachOk, r, env) =>
      HandshakeKept(cfg, s, fd, attachOk, r, env);
      KeptGood(cfg, s.workers, s.net.conns, OnHandshake(cfg, s, fd, attachOk, r, env).sys.net.conns, gap);
    case _ => QuietEventGood(cfg, s, e, gap);
  }

  lemma QuietEventKept(cfg: Config, s: Sys, e: Event)
    requires InRange(cfg, s) && (e.ReconnectDue? || e.Hangup? || e.Cleanup?)
    ensures var t := Step(cfg, s, e).sys; t.workers == s.workers && Kept(s.net.conns, t.net.conns)
  {
    if e.ReconnectDue? {
      var net := if e.i < |s.net.timers| then s.net.(timers := s.net.timers[..e.i] + s.net.timers[e.i + 1..])
                 else s.net;
      TryConnectKept(cfg.pools, s.pool, net, s.pool.index, e.env);
    }
  }

  lemma QuietEventGood(cfg: Config, s: Sys, e: Event, gap: set<int>)
    requires InRange(cfg, s) && Good(cfg, s.workers, s.net.conns, gap)
    requires e.ReconnectDue? || e.Hangup? || e.Cleanup?
    ensures var t := Step(cfg, s, e).sys; t.workers == s.workers && Good(cfg, t.workers, t.net.conns, gap)
  {
    QuietEventKept(cfg, s, e);
    KeptGood(cfg, s.workers, s.net.conns, Step(cfg, s, e).sys.net.conns, gap);
  }

  // ----- Whole runs -----------------------------------------------------------------------------

  function GapAfterRun(cfg: Config, s: Sys, events: seq<Event>, gap: set<int>): set<int>
    requires InRange(cfg, s)
    decreases events
  {
    if events == [] then gap
    else GapAfterRun(cfg, Step(cfg, s, events[0]).sys, events[1..], GapAfter(cfg, s, events[0], gap))
  }

  /** Over every run: each worker connection has a record, an authorized record names a whitelisted
      worker or its connection is marked for closing, and once a job is known every ready worker outside
      the gap was last sent the current one. */
  lemma {:induction false} WorkersAlwaysGood(cfg: Config, s: Sys, events: seq<Event>, gap: set<int>)
    requires InRange(cfg, s) && Possible(cfg, s, events) && Good(cfg, s.workers, s.net.conns, gap)
    ensures var t := Run(cfg, s, events).sys;
      Good(cfg, t.workers, t.net.conns, GapAfterRun(cfg, s, events, gap))
    decreases events
  {
    if events != [] {
      var t, next := FirstEventGood(cfg, s, events, gap);
      WorkersAlwaysGood(cfg, t, events[1..], next);
    }
  }

  lemma FirstEventGood(cfg: Config, s: Sys, events: seq<Event>, gap: set<int>) returns (t: Sys, next: set<int>)
    requires events != []
    requires InRange(cfg, s) && Possible(cfg, s, events) && Good(cfg, s.workers, s.net.conns, gap)
    ensures InRange(cfg, t) && Possible(cfg, t, events[1..]) && Good(cfg, t.workers, t.net.conns, next)
    ensures Run(cfg, s, events).sys == Run(cfg, t, events[1..]).sys
    ensures GapAfterRun(cfg, s, events, gap) == GapAfterRun(cfg, t, events[1..], next)
  {
    t := Step(cfg, s, events[0]).sys;
    next := GapAfter(cfg, s, events[0], gap);
    EventGood(cfg, s, events[0], gap);
  }

  lemma StartIsGood(cfg: Config, poolJob: Job, workerJob: Job, env: Env)
    requires cfg.pools != []
    ensures var s := Started(cfg, poolJob, workerJob, env); Good(cfg, s.workers, s.net.conns, {})
  {
    TryConnectKept(cfg.pools, NewPool(cfg.pools, poolJob), Net(map[], []), 0, env);
  }

  /** With a whitelist, after a cleanup every authorized worker that is still connected is on it. */
  lemma CleanupLeavesWhitelisted(cfg: Config, s: Sys, gap: set<int>)
    requires InRange(cfg, s) && Good(cfg, s.workers, s.net.conns, gap) && cfg.whitelist != []
    ensures var t := Step(cfg, s, Cleanup).sys;
      forall fd :: IsWorker(t.net.conns, fd) && t.workers.entries[fd].authorized ==>
        t.workers.entries[fd].workerId in cfg.whitelist
  {
    QuietEventGood(cfg, s, Cleanup, gap);
    var t := Step(cfg, s, Cleanup).sys;
    forall fd | IsWorker(t.net.conns, fd) && t.workers.entries[fd].authorized
      ensures t.workers.entries[fd].workerId in cfg.whitelist
    {
      assert IsWorker(s.net.conns, fd) && !s.net.conns[fd].shouldClose;
    }
  }

  /** An accepted connection starts unauthorized, unsubscribed and without any line, whatever record its
      descriptor had before. */
  lemma AcceptStartsFresh(cfg: Config, s: Sys, fd: int, env: Env)
    requires InRange(cfg, s)
    ensures var t := Step(cfg, s, Accepted(fd, env)).sys;
      && fd in t.workers.entries && t.workers.entries[fd].workerId == ""
      && !t.workers.entries[fd].authorized && !t.workers.entries[fd].subscribed
      && IsWorker(t.net.conns, fd) && t.net.conns[fd] == NewConn(WorkerSide)
  {
  }

  // ----- Extra nonces ---------------------------------------------------------------------------

  lemma HexCharValue(d: nat)
    requires d < 16
    ensures HexDigit(HexChar(d)) == Some(d)
  {
  }

  function Pow16(k: nat): nat {
    if k == 0 then 1 else 16 * Pow16(k - 1)
  }

  /** The digits of a number decode to it, when they suffice. */
  lemma {:induction false} HexRoundTrip(n: nat, k: nat)
    requires n < Pow16(k)
    ensures HexValue(HexDigits(n, k)) == n
  {
    if k > 0 {
      HexRoundTrip(n / 16, k - 1);
      HexCharValue(n % 16);
      assert HexDigits(n, k)[..k - 1] == HexDigits(n / 16, k - 1);
    }
  }

  /** As the source prints them: padded, in lower case. */
  lemma {:induction false} LowerCase(n: nat, k: nat)
    ensures forall i :: 0 <= i < k ==> HexDigits(n, k)[i] in "0123456789abcdef"
  {
    if k > 0 {
      LowerCase(n / 16, k - 1);
      LowerDigit(n % 16);
    }
  }

  lemma LowerDigit(d: nat)
    requires d < 16
    ensures HexChar(d) == "0123456789abcdef"[d] && HexChar(d) in "0123456789abcdef"
  {
  }

  lemma EightDigits(n: nat)
    requires n < NONCE_COUNT
    ensures HexValue(HexDigits(n, 8)) == n
  {
    assert Pow16(2) == 0x100;
    assert Pow16(4) == 0x1_0000;
    assert Pow16(6) == 0x100_0000;
    assert Pow16(8) == 0x1_0000_0000;
    HexRoundTrip(n, 8);
  }

  /** Two workers get the same nonce exactly when their positions in the order of acceptance differ by a
      multiple of 2^32. */
  lemma NonceCollidesIff(m: nat, n: nat)
    ensures Nonce(m) == Nonce(n) <==> m % NONCE_COUNT == n % NONCE_COUNT
  {
    EightDigits(m % NONCE_COUNT);
    EightDigits(n % NONCE_COUNT);
  }

  function Accepts(events: seq<Event>): nat {
    if events == [] then 0 else (if events[0].Accepted? then 1 else 0) + Accepts(events[1..])
  }

  /** This record's nonce has eight digits and counts to less than `n`. */
  predicate NonceBelow(w: State, fd: int, n: nat) {
    fd in w.entries ==> |w.entries[fd].extraNonce2| == 8 && HexValue(w.entries[fd].extraNonce2) < n
  }

  predicate NoncesApart(w: State, a: int, b: int) {
    a in w.entries && b in w.entries && a != b ==>
      HexValue(w.entries[a].extraNonce2) != HexValue(w.entries[b].extraNonce2)
  }

  /** After `n` accepted workers: the counter, and the nonces handed out, all different. */
  ghost predicate NoncesOk(w: State, n: nat) {
    && w.nextNonce == n % NONCE_COUNT
    && (forall fd :: NonceBelow(w, fd, n))
    && (forall a, b :: NoncesApart(w, a, b))
  }

  /** The records keep their nonces. */
  ghost predicate SameNonces(a: State, b: State) {
    && a.nextNonce == b.nextNonce && a.entries.Keys == b.entries.Keys
    && forall fd :: fd in a.entries ==> a.entries[fd].extraNonce2 == b.entries[fd].extraNonce2
  }

  lemma SameNoncesOk(v: State, w: State, n: nat)
    requires NoncesOk(v, n) && SameNonces(v, w)
    ensures NoncesOk(w, n)
  {
    forall fd ensures NonceBelow(w, fd, n) {
      assert NonceBelow(v, fd, n);
    }
    forall a, b ensures NoncesApart(w, a, b) {
      assert NoncesApart(v, a, b);
    }
  }

  lemma OthersKeepNonces(cfg: Config, s: Sys, e: Event)
    requires InRange(cfg, s) && !e.Accepted?
    ensures SameNonces(s.workers, Step(cfg, s, e).sys.workers)
  {
    match e
    case WorkerLine(fd, line, env) =>
      LineKeepsNonces(cfg.whitelist, s.workers, s.net.conns, fd, line, env);
    case _ =>
  }

  lemma LineKeepsNonces(whitelist: seq<string>, w: State, conns: map<int, Conn>, fd: int, line: string, env: Env)
    ensures SameNonces(w, OnWorkerMessage(whitelist, w, conns, fd, line, env).workers)
  {
    if fd in w.entries {
      var req := ParseRequest(line);
      match req.verb
      case Subscribe => SubscribeKeepsNonces(w, conns, fd, req, env);
      case Authorize => AuthorizeKeepsNonces(whitelist, w, conns, fd, req, env);
      case Login => LoginKeepsNonces(whitelist, w, conns, fd, req, env);
      case _ =>
    }
  }

  lemma SubscribeKeepsNonces(w: State, conns: map<int, Conn>, fd: int, req: Request, env: Env)
    requires fd in w.entries
    ensures SameNonces(w, HandleSubscribe(w, conns, fd, req, env).workers)
  {
    RecordKeepsNonces(w, HandleSubscribe(w, conns, fd, req, env).workers, fd);
  }

  lemma AuthorizeKeepsNonces(whitelist: seq<string>, w: State, conns: map<int, Conn>, fd: int, req: Request,
                             env: Env)
    requires fd in w.entries
    ensures SameNonces(w, HandleAuthorize(whitelist, w, conns, fd, req, env).workers)
  {
    RecordKeepsNonces(w, HandleAuthorize(whitelist, w, conns, fd, req, env).workers, fd);
  }

  lemma LoginKeepsNonces(whitelist: seq<string>, w: State, conns: map<int, Conn>, fd: int, req: Request, env: Env)
    requires fd in w.entries
    ensures SameNonces(w, HandleLogin(whitelist, w, conns, fd, req, env).workers)
  {
    RecordKeepsNonces(w, HandleLogin(whitelist, w, conns, fd, req, env).workers, fd);
  }

  lemma RecordKeepsNonces(a: State, b: State, fd: int)
    requires fd in a.entries && fd in b.entries && a.nextNonce == b.nextNonce
    requires b.entries == a.entries[fd := b.entries[fd]]
    requires b.entries[fd].extraNonce2 == a.entries[fd].extraNonce2
    ensures SameNonces(a, b)
  {
    assert b.entries.Keys == a.entries.Keys + {fd};
  }

  lemma AcceptedRecord(cfg: Config, s: Sys, fd: int, env: Env)
    requires InRange(cfg, s)
    ensures var w := Step(cfg, s, Accepted(fd, env)).sys.workers;
      && w.entries == s.workers.entries[fd := Worker("", false, false, HexDigits(s.workers.nextNonce, 8))]
      && w.nextNonce == (s.workers.nextNonce + 1) % NONCE_COUNT
  {
  }

  lemma NewNonceOk(w: State, t: State, fd: int, n: nat, m: nat)
    requires NoncesOk(w, n) && m == n + 1
    requires fd in t.entries && t.entries == w.entries[fd := t.entries[fd]]
    requires |t.entries[fd].extraNonce2| == 8 && HexValue(t.entries[fd].extraNonce2) == n
    requires t.nextNonce == m % NONCE_COUNT
    ensures NoncesOk(t, m)
  {
    forall x ensures NonceBelow(t, x, m) {
      assert NonceBelow(w, x, n);
    }
    forall a, b ensures NoncesApart(t, a, b) {
      assert NoncesApart(w, a, b) && NonceBelow(w, a, n) && NonceBelow(w, b, n);
    }
  }

  lemma CountedNonce(w: State, t: State, fd: int, n: nat)
    requires w.nextNonce == n % NONCE_COUNT && n < NONCE_COUNT
    requires t.entries == w.entries[fd := Worker("", false, false, HexDigits(w.nextNonce, 8))]
    requires t.nextNonce == (w.nextNonce + 1) % NONCE_COUNT
    ensures t.entries == w.entries[fd := t.entries[fd]]
    ensures |t.entries[fd].extraNonce2| == 8 && HexValue(t.entries[fd].extraNonce2) == n
    ensures t.nextNonce == (n + 1) % NONCE_COUNT
  {
    assert w.nextNonce == n;
    EightDigits(w.nextNonce);
    assert t.entries[fd] == Worker("", false, false, HexDigits(w.nextNonce, 8));
  }

  lemma EventKeepsNonces(cfg: Config, s: Sys, e: Event, n: nat)
    requires InRange(cfg, s) && NoncesOk(s.workers, n) && (e.Accepted? ==> n < NONCE_COUNT)
    ensures NoncesOk(Step(cfg, s, e).sys.workers, if e.Accepted? then n + 1 else n)
  {
    var t := RecordsAfter(cfg, s, e);
    if e.Accepted? {
      CountedNonce(s.workers, t, e.fd, n);
      NewNonceOk(s.workers, t, e.fd, n, n + 1);
    } else {
      SameNoncesOk(s.workers, t, n);
    }
  }

  lemma RecordsAfter(cfg: Config, s: Sys, e: Event) returns (t: State)
    requires InRange(cfg, s)
    ensures t == Step(cfg, s, e).sys.workers
    ensures var w := s.workers;
      if e.Accepted?
      then t.entries == w.entries[e.fd := Worker("", false, false, HexDigits(w.nextNonce, 8))]
        && t.nextNonce == (w.nextNonce + 1) % NONCE_COUNT
      else SameNonces(w, t)
  {
    t := Step(cfg, s, e).sys.workers;
    if e.Accepted? {
      AcceptedRecord(cfg, s, e.fd, e.env);
    } else {
      OthersKeepNonces(cfg, s, e);
    }
  }

  /** In every state reached with at most 2^32 accepted workers, all records have different nonces of
      eight digits each, descriptors reused or not. */
  lemma NoncesAreUnique(cfg: Config, s: Sys, events: seq<Event>, all: nat)
    requires InRange(cfg, s) && OnTrack(s.workers, events, all) && all <= NONCE_COUNT
    ensures OnTrack(Run(cfg, s, events).sys.workers, [], all)
  {
    var F: Forecast := (x: Sys, rest: seq<Event>) => OnTrack(x.workers, rest, all);
    forall x, rest | InRange(cfg, x) && rest != [] && F(x, rest) ensures KeepsForecast(cfg, F, x, rest) {
      ForecastStep(cfg, x, rest, all);
    }
    RunKeepsForecast(cfg, F, s, events);
  }

  /** `all` workers will have been accepted at the end. */
  ghost predicate OnTrack(w: State, rest: seq<Event>, all: nat) {
    Accepts(rest) <= all && NoncesOk(w, all - Accepts(rest))
  }

  /** At the start the track is set for the workers to come, and at the end all of them are in. */
  lemma TrackEnds(w: State, workerJob: Job, all: nat, events: seq<Event>)
    ensures OnTrack(w, [], all) <==> NoncesOk(w, all)
    ensures all == Accepts(events) ==> OnTrack(State(map[], workerJob, false, 0), events, all)
  {
  }

  lemma ForecastStep(cfg: Config, x: Sys, rest: seq<Event>, all: nat)
    requires InRange(cfg, x) && rest != [] && OnTrack(x.workers, rest, all) && all <= NONCE_COUNT
    ensures OnTrack(Step(cfg, x, rest[0]).sys.workers, rest[1..], all)
  {
    EventKeepsNonces(cfg, x, rest[0], all - Accepts(rest));
  }

  lemma NoncesDiffer(w: State, n: nat)
    requires NoncesOk(w, n)
    ensures forall a, b :: a in w.entries && b in w.entries && a != b ==>
      w.entries[a].extraNonce2 != w.entries[b].extraNonce2
  {
    forall a, b | a in w.entries && b in w.entries && a != b
      ensures w.entries[a].extraNonce2 != w.entries[b].extraNonce2
    {
      assert NoncesApart(w, a, b);
    }
  }
}
