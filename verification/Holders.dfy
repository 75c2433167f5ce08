/** Which workers hold the current job, exactly, and what that says of workers made ready by
    `authorize`. */
module Holders {
  import opened Wrappers
  import opened Stratum
  import opened Connections
  import opened EventLoops
  import opened Pools
  import opened Workers
  import opened Proxies
  import opened WorkerRuns

  // ----- The connections that were sent the current job -----------------------------------------

  /** The workers that were sent a login reply since the current job arrived; refused ones get it too. */
  function RepliedAfter(cfg: Config, s: Sys, e: Event, replied: set<int>): set<int>
    requires InRange(cfg, s)
  {
    match e
    case Accepted(fd, _) => replied - {fd}
    case WorkerLine(fd, line, _) =>
      if s.workers.hasJob && fd in s.workers.entries && LogsIn(line) then replied + {fd} else replied
    case PoolLine(fd, line, env) =>
      if JobIn(OnPoolMessage(cfg.pools, s.pool, s.net, line, env).log).Some? then {} else replied
    case _ => replied
  }

  predicate LogsIn(line: string) {
    var req := ParseRequest(line);
    req.verb == Login && LoginId(req.params).Some?
  }

  /** The worker is ready and a broadcast found it so, or it was sent a login reply since the job arrived. */
  predicate Reached(w: Worker, fd: int, gap: set<int>, replied: set<int>) {
    (w.Ready() && fd !in gap) || fd in replied
  }

  /** Once a job is known, the connections last sent the current job are exactly the reached ones. */
  ghost predicate HeldIff(w: State, conns: map<int, Conn>, gap: set<int>, replied: set<int>) {
    w.hasJob ==>
      forall fd :: IsWorker(conns, fd) && fd in w.entries ==>
        (LastJob(conns[fd].sent) == Some(w.job) <==> Reached(w.entries[fd], fd, gap, replied))
  }

  /** The event is possible, and a job that arrives is not one that a worker was last sent already. */
  ghost predicate BringsNewJobs(cfg: Config, s: Sys, e: Event) {
    Enabled(s, e) && InRange(cfg, s) &&
    (e.PoolLine? ==>
       var job := JobIn(OnPoolMessage(cfg.pools, s.pool, s.net, e.line, e.env).log);
       job.Some? ==> forall fd :: IsWorker(s.net.conns, fd) ==> LastJob(s.net.conns[fd].sent) != job)
  }

  // ----- One event ------------------------------------------------------------------------------

  lemma KeptHolds(w: State, a: map<int, Conn>, b: map<int, Conn>, gap: set<int>, replied: set<int>)
    requires HeldIff(w, a, gap, replied) && Kept(a, b)
    ensures HeldIff(w, b, gap, replied)
  {
    forall fd | IsWorker(b, fd) ensures IsWorker(a, fd) {}
  }

  /** A broadcast reaches every ready worker; the others hold its job only from a login reply. */
  lemma BroadcastHolds(whitelist: seq<string>, w: State, conns: map<int, Conn>, job: Job, env: Env, replied: set<int>)
    requires AllVetted(whitelist, w.entries, conns)
    requires forall fd :: IsWorker(conns, fd) && !w.entries[fd].Ready() ==>
      (LastJob(conns[fd].sent) == Some(job) <==> fd in replied)
    ensures var b := SendJob(w, conns, job, env); HeldIff(b.workers, b.conns, {}, replied)
  {
    BroadcastServes(whitelist, w, conns, job, env);
    var b := SendJob(w, conns, job, env);
    forall fd | IsWorker(b.conns, fd) && !w.entries[fd].Ready()
      ensures IsWorker(conns, fd) && b.conns[fd] == conns[fd] {}
  }

  lemma AgainHolds(whitelist: seq<string>, w: State, conns: map<int, Conn>, env: Env, gap: set<int>, replied: set<int>)
    requires AllVetted(whitelist, w.entries, conns)
    requires w.hasJob ==>
      forall fd :: IsWorker(conns, fd) && !w.entries[fd].Ready() ==>
        (LastJob(conns[fd].sent) == Some(w.job) <==> fd in replied)
    ensures var b := SendJobAgain(w, conns, env);
      HeldIff(b.workers, b.conns, if w.hasJob then {} else gap, replied)
  {
    if w.hasJob {
      BroadcastHolds(whitelist, w, conns, w.job, env, replied);
    }
  }

  lemma AcceptedHolds(cfg: Config, s: Sys, fd: int, env: Env, gap: set<int>, replied: set<int>)
    requires InRange(cfg, s) && AllVetted(cfg.whitelist, s.workers.entries, s.net.conns)
    requires HeldIff(s.workers, s.net.conns, gap, replied)
    ensures var t := Step(cfg, s, Accepted(fd, env)).sys;
      HeldIff(t.workers, t.net.conns, GapAfter(cfg, s, Accepted(fd, env), gap), replied - {fd})
  {
    var w := s.workers.(entries := s.workers.entries[fd := Worker("", false, false, HexDigits(s.workers.nextNonce, 8))],
                        nextNonce := (s.workers.nextNonce + 1) % NONCE_COUNT);
    var conns := s.net.conns[fd := NewConn(WorkerSide)];
    forall x | IsWorker(conns, x) && x != fd ensures IsWorker(s.net.conns, x) && conns[x] == s.net.conns[x] {}
    AgainHolds(cfg.whitelist, w, conns, env, gap - {fd}, replied - {fd});
  }

  lemma SubscribeHolds(cfg: Config, w: State, conns: map<int, Conn>, fd: int, req: Request, env: Env, gap: set<int>,
                       replied: set<int>)
    requires AllVetted(cfg.whitelist, w.entries, conns) && HeldIff(w, conns, gap, replied)
    requires IsWorker(conns, fd) && fd in w.entries
    ensures var b := HandleSubscribe(w, conns, fd, req, env);
      HeldIff(b.workers, b.conns, if w.hasJob then {} else gap, replied)
  {
    var told := OfferTo(conns, fd, SubscribeReply(req.id, fd), WriteOn(env, fd));
    OfferKept(conns, fd, SubscribeReply(req.id, fd), WriteOn(env, fd));
    KeptKeepsVetted(cfg.whitelist, w.entries, conns, told);
    KeptHolds(w, conns, told, gap, replied);
    var w' := w.(entries := w.entries[fd := w.entries[fd].(subscribed := true)]);
    AgainHolds(cfg.whitelist, w', told, env, gap, replied);
  }

  /** The record of `fd` changed, and the connections kept their jobs. */
  lemma RecordHolds(w: State, v: State, a: map<int, Conn>, b: map<int, Conn>, fd: int, gap: set<int>, gap': set<int>,
                    replied: set<int>)
    requires HeldIff(w, a, gap, replied) && Kept(a, b)
    requires fd in w.entries && fd in v.entries && v == w.(entries := w.entries[fd := v.entries[fd]])
    requires forall x :: x != fd ==> (x in gap <==> x in gap')
    requires Reached(w.entries[fd], fd, gap, replied) <==> Reached(v.entries[fd], fd, gap', replied)
    ensures HeldIff(v, b, gap', replied)
  {
    KeptHolds(w, a, b, gap, replied);
  }

  lemma AuthorizeHolds(cfg: Config, w: State, conns: map<int, Conn>, fd: int, req: Request, env: Env, gap: set<int>,
                       replied: set<int>)
    requires HeldIff(w, conns, gap, replied) && fd in w.entries
    ensures var b := HandleAuthorize(cfg.whitelist, w, conns, fd, req, env);
      HeldIff(b.workers, b.conns, if w.entries[fd].Ready() then gap else gap + {fd}, replied)
  {
    var b := HandleAuthorize(cfg.whitelist, w, conns, fd, req, env);
    var gap' := if w.entries[fd].Ready() then gap else gap + {fd};
    var id := AuthorizeId(req.params);
    if id.Some? {
      OfferKept(conns, fd, AuthorizeReply(req.id, Allowed(cfg.whitelist, id.value)), WriteOn(env, fd));
    }
    assert Kept(conns, b.conns);
    RecordHolds(w, b.workers, conns, b.conns, fd, gap, gap', replied);
  }

  lemma LoginHolds(cfg: Config, w: State, conns: map<int, Conn>, fd: int, req: Request, env: Env, gap: set<int>,
                   replied: set<int>)
    requires AllVetted(cfg.whitelist, w.entries, conns) && HeldIff(w, conns, gap, replied)
    requires IsWorker(conns, fd) && fd in w.entries && LoginId(req.params).Some?
    ensures var b := HandleLogin(cfg.whitelist, w, conns, fd, req, env);
      HeldIff(b.workers, b.conns, gap - {fd}, if w.hasJob then replied + {fd} else replied)
  {
    var m := LoginReply(req.id, fd, if w.hasJob then Some(w.job) else None);
    var b := HandleLogin(cfg.whitelist, w, conns, fd, req, env);
    OfferJob(conns[fd], m, WriteOn(env, fd));
    assert Vetted(cfg.whitelist, w.entries[fd], conns[fd]);
    forall x | IsWorker(b.conns, x) && x != fd
      ensures IsWorker(conns, x) && b.conns[x] == conns[x] && b.workers.entries.Keys == w.entries.Keys {}
  }

  lemma LineHolds(cfg: Config, s: Sys, fd: int, line: string, env: Env, gap: set<int>, replied: set<int>)
    requires InRange(cfg, s) && AllVetted(cfg.whitelist, s.workers.entries, s.net.conns)
    requires HeldIff(s.workers, s.net.conns, gap, replied) && IsWorker(s.net.conns, fd)
    ensures var h := OnWorkerMessage(cfg.whitelist, s.workers, s.net.conns, fd, line, env);
      var e := WorkerLine(fd, line, env);
      HeldIff(h.workers, h.conns, GapAfter(cfg, s, e, gap), RepliedAfter(cfg, s, e, replied))
  {
    var req := ParseRequest(line);
    assert fd in s.workers.entries;
    match req.verb
    case Subscribe => SubscribeHolds(cfg, s.workers, s.net.conns, fd, req, env, gap, replied);
    case Authorize => AuthorizeHolds(cfg, s.workers, s.net.conns, fd, req, env, gap, replied);
    case Login =>
      if LoginId(req.params).Some? {
        LoginHolds(cfg, s.workers, s.net.conns, fd, req, env, gap, replied);
      }
    case _ => SubmitHolds(s.workers, s.net.conns, fd, req, env, gap, replied);
  }

  lemma SubmitHolds(w: State, conns: map<int, Conn>, fd: int, req: Request, env: Env, gap: set<int>, replied: set<int>)
    requires HeldIff(w, conns, gap, replied)
    ensures var h := HandleSubmit(w, conns, fd, req, env); HeldIff(h.workers, h.conns, gap, replied)
  {
    OfferKept(conns, fd, SubmitAck(req.id), WriteOn(env, fd));
    KeptHolds(w, conns, OfferTo(conns, fd, SubmitAck(req.id), WriteOn(env, fd)), gap, replied);
  }

  lemma WorkerEventHolds(cfg: Config, s: Sys, fd: int, line: string, env: Env, gap: set<int>, replied: set<int>)
    requires InRange(cfg, s) && AllVetted(cfg.whitelist, s.workers.entries, s.net.conns)
    requires HeldIff(s.workers, s.net.conns, gap, replied) && IsWorker(s.net.conns, fd)
    ensures var e := WorkerLine(fd, line, env);
      var t := Step(cfg, s, e).sys;
      HeldIff(t.workers, t.net.conns, GapAfter(cfg, s, e, gap), RepliedAfter(cfg, s, e, replied))
  {
    var e := WorkerLine(fd, line, env);
    LineHolds(cfg, s, fd, line, env, gap, replied);
    var h := OnWorkerMessage(cfg.whitelist, s.workers, s.net.conns, fd, line, env);
    if h.share.Some? {
      var net := s.net.(conns := h.conns);
      SubmitKept(s.pool, net, h.share.value, env);
      KeptHolds(h.workers, h.conns, SubmitShare(s.pool, net, h.share.value, env).net.conns,
                GapAfter(cfg, s, e, gap), RepliedAfter(cfg, s, e, replied));
    }
  }

  lemma PoolEventHolds(cfg: Config, s: Sys, fd: int, line: string, env: Env, gap: set<int>, replied: set<int>)
    requires InRange(cfg, s) && AllVetted(cfg.whitelist, s.workers.entries, s.net.conns)
    requires HeldIff(s.workers, s.net.conns, gap, replied) && BringsNewJobs(cfg, s, PoolLine(fd, line, env))
    ensures var e := PoolLine(fd, line, env);
      var t := Step(cfg, s, e).sys;
      HeldIff(t.workers, t.net.conns, GapAfter(cfg, s, e, gap), RepliedAfter(cfg, s, e, replied))
  {
    var o := OnPoolMessage(cfg.pools, s.pool, s.net, line, env);
    PoolMessageKept(cfg.pools, s.pool, s.net, line, env);
    if JobIn(o.log).Some? {
      NewJobHolds(cfg.whitelist, s.workers, s.net.conns, o.net.conns, JobIn(o.log).value, env);
    } else {
      KeptHolds(s.workers, s.net.conns, o.net.conns, gap, replied);
    }
  }

  lemma NewJobHolds(whitelist: seq<string>, w: State, a: map<int, Conn>, b: map<int, Conn>, job: Job, env: Env)
    requires AllVetted(whitelist, w.entries, a) && Kept(a, b)
    requires forall fd :: IsWorker(a, fd) ==> LastJob(a[fd].sent) != Some(job)
    ensures var t := SendJob(w, b, job, env); HeldIff(t.workers, t.conns, {}, {})
  {
    KeptKeepsVetted(whitelist, w.entries, a, b);
    forall fd | IsWorker(b, fd) ensures LastJob(b[fd].sent) != Some(job) {
      assert IsWorker(a, fd);
    }
    BroadcastHolds(whitelist, w, b, job, env, {});
  }

  lemma EventHolds(cfg: Config, s: Sys, e: Event, gap: set<int>, replied: set<int>)
    requires InRange(cfg, s) && AllVetted(cfg.whitelist, s.workers.entries, s.net.conns)
    requires HeldIff(s.workers, s.net.conns, gap, replied) && BringsNewJobs(cfg, s, e)
    ensures var t := Step(cfg, s, e).sys;
      HeldIff(t.workers, t.net.conns, GapAfter(cfg, s, e, gap), RepliedAfter(cfg, s, e, replied))
  {
    match e
    case Accepted(fd, env) => AcceptedHolds(cfg, s, fd, env, gap, replied);
    case WorkerLine(fd, line, env) => WorkerEventHolds(cfg, s, fd, line, env, gap, replied);
    case PoolLine(fd, line, env) => PoolEventHolds(cfg, s, fd, line, env, gap, replied);
    case HandshakeTick(fd, attachOk, r, env) =>
      HandshakeKept(cfg, s, fd, attachOk, r, env);
      KeptHolds(s.workers, s.net.conns, OnHandshake(cfg, s, fd, attachOk, r, env).sys.net.conns, gap, replied);
    case _ =>
      QuietEventKept(cfg, s, e);
      KeptHolds(s.workers, s.net.conns, Step(cfg, s, e).sys.net.conns, gap, replied);
  }

  // ----- Whole runs -----------------------------------------------------------------------------

  function RepliedAfterRun(cfg: Config, s: Sys, events: seq<Event>, replied: set<int>): set<int>
    requires InRange(cfg, s)
    decreases events
  {
    if events == [] then replied
    else RepliedAfterRun(cfg, Step(cfg, s, events[0]).sys, events[1..], RepliedAfter(cfg, s, events[0], replied))
  }

  /** Over every run in which arriving jobs are new: the workers that were last sent the current job are
      exactly those that a broadcast found ready and those sent a login reply since it arrived. */
  lemma {:induction false} HoldersExact(cfg: Config, s: Sys, events: seq<Event>, gap: set<int>, replied: set<int>)
    requires InRange(cfg, s) && Guarded(cfg, s, events, (x, e) => BringsNewJobs(cfg, x, e))
    requires Good(cfg, s.workers, s.net.conns, gap) && HeldIff(s.workers, s.net.conns, gap, replied)
    ensures var t := Run(cfg, s, events).sys;
      HeldIff(t.workers, t.net.conns, GapAfterRun(cfg, s, events, gap), RepliedAfterRun(cfg, s, events, replied))
    decreases events
  {
    if events != [] {
      var t, gap', replied' := FirstEventHolds(cfg, s, events, gap, replied);
      HoldersExact(cfg, t, events[1..], gap', replied');
    }
  }

  lemma FirstEventHolds(cfg: Config, s: Sys, events: seq<Event>, gap: set<int>, replied: set<int>)
    returns (t: Sys, gap': set<int>, replied': set<int>)
    requires InRange(cfg, s) && events != [] && Guarded(cfg, s, events, (x, e) => BringsNewJobs(cfg, x, e))
    requires Good(cfg, s.workers, s.net.conns, gap) && HeldIff(s.workers, s.net.conns, gap, replied)
    ensures InRange(cfg, t) && Guarded(cfg, t, events[1..], (x, e) => BringsNewJobs(cfg, x, e))
    ensures Good(cfg, t.workers, t.net.conns, gap') && HeldIff(t.workers, t.net.conns, gap', replied')
    ensures Run(cfg, s, events).sys == Run(cfg, t, events[1..]).sys
    ensures GapAfterRun(cfg, s, events, gap) == GapAfterRun(cfg, t, events[1..], gap')
    ensures RepliedAfterRun(cfg, s, events, replied) == RepliedAfterRun(cfg, t, events[1..], replied')
  {
    t := Step(cfg, s, events[0]).sys;
    gap' := GapAfter(cfg, s, events[0], gap);
    replied' := RepliedAfter(cfg, s, events[0], replied);
    EventGood(cfg, s, events[0], gap);
    EventHolds(cfg, s, events[0], gap, replied);
  }

  /** From the start of the proxy. */
  lemma HoldersFromStart(cfg: Config, poolJob: Job, workerJob: Job, env: Env, events: seq<Event>)
    requires cfg.pools != []
    requires Guarded(cfg, Started(cfg, poolJob, workerJob, env), events, (x, e) => BringsNewJobs(cfg, x, e))
    ensures var s := Started(cfg, poolJob, workerJob, env);
      var t := Run(cfg, s, events).sys;
      HeldIff(t.workers, t.net.conns, GapAfterRun(cfg, s, events, {}), RepliedAfterRun(cfg, s, events, {}))
  {
    StartIsGood(cfg, poolJob, workerJob, env);
    HoldersExact(cfg, Started(cfg, poolJob, workerJob, env), events, {}, {});
  }

  /** Authorizing sends no job: in a state of such a run, a worker that is ready after it was last sent the
      current job exactly when a broadcast had found it ready before, or it was sent a login reply since
      the job arrived. */
  lemma AuthorizeGapIff(cfg: Config, w: State, conns: map<int, Conn>, fd: int, req: Request, env: Env, gap: set<int>,
                        replied: set<int>)
    requires HeldIff(w, conns, gap, replied) && IsWorker(conns, fd) && fd in w.entries && w.hasJob
    ensures var b := HandleAuthorize(cfg.whitelist, w, conns, fd, req, env);
      && b.workers.job == w.job && IsWorker(b.conns, fd)
      && (LastJob(b.conns[fd].sent) == Some(w.job) <==> Reached(w.entries[fd], fd, gap, replied))
  {
    var id := AuthorizeId(req.params);
    if id.Some? {
      OfferJob(conns[fd], AuthorizeReply(req.id, Allowed(cfg.whitelist, id.value)), WriteOn(env, fd));
    }
  }
}
