/** Two runs from the start of the proxy that reach states the other theorems leave room for: a ready
    worker without a job, and a pool connection on which a share is offered first. */
module Reachable {
  import opened Wrappers
  import opened Json
  import opened Stratum
  import opened Connections
  import opened Timers
  import opened EventLoops
  import opened Pools
  import opened Workers
  import opened Proxies
  import opened LoginFirst
  import opened WorkerRuns
  import opened Exchange

  // ----- Runs piece by piece --------------------------------------------------------------------

  /** Possible events lead from one state to another. */
  ghost predicate Leads(cfg: Config, s: Sys, events: seq<Event>, t: Sys) {
    InRange(cfg, s) && Possible(cfg, s, events) && Run(cfg, s, events).sys == t
  }

  lemma {:induction false} LeadsOn(cfg: Config, s: Sys, a: seq<Event>, t: Sys, b: seq<Event>, u: Sys)
    requires Leads(cfg, s, a, t) && Leads(cfg, t, b, u)
    ensures Leads(cfg, s, a + b, u)
    decreases a
  {
    if a == [] {
      assert a + b == b;
    } else {
      var x := FirstOfBoth(cfg, s, a, t, b, u);
      LeadsOn(cfg, x, a[1..], t, b, u);
    }
  }

  lemma FirstOfBoth(cfg: Config, s: Sys, a: seq<Event>, t: Sys, b: seq<Event>, u: Sys) returns (x: Sys)
    requires Leads(cfg, s, a, t) && a != []
    ensures Leads(cfg, x, a[1..], t)
    ensures Leads(cfg, x, a[1..] + b, u) ==> Leads(cfg, s, a + b, u)
  {
    x := Step(cfg, s, a[0]).sys;
    assert (a + b)[1..] == a[1..] + b;
  }

  lemma OneStep(cfg: Config, s: Sys, e: Event) returns (t: Sys)
    requires InRange(cfg, s) && Enabled(s, e)
    ensures t == Step(cfg, s, e).sys && Leads(cfg, s, [e], t)
  {
    t := Step(cfg, s, e).sys;
    assert [e][1..] == [];
    assert Guarded(cfg, t, [], Enabled);
  }

  /** An event in which no connection to a pool can be created and no write fails. */
  function Quiet(now: nat): Env {
    Env(now, map[], {}, 0)
  }

  /** A pool for which a connection can be created. */
  function Connects(now: nat, fd: int): Env {
    Env(now, map[0 := fd], {}, 0)
  }

  // ----- The first pool connection --------------------------------------------------------------

  /** A connection to the first pool has completed its handshake and is not logged in. */
  predicate Connected1(cfg: Config, s: Sys, a: int) {
    && InRange(cfg, s) && s.net.conns.Keys == {a} && a >= 0
    && s.net.conns[a].kind == PoolSide && s.net.conns[a].tlsComplete
    && s.pool.index == 0 && s.pool.attempts == 0 && !s.pool.authenticated
    && s.net.timers == [Timeout(ACCEPT_INTERVAL_MS, ACCEPT_INTERVAL_MS, AcceptWorker, true)]
    && s.workers.entries == map[] && !s.workers.hasJob
  }

  lemma HandshakeCompletes(cfg: Config, poolJob: Job, workerJob: Job, a: int) returns (events: seq<Event>, t: Sys)
    requires cfg.pools != [] && a >= 0
    ensures Leads(cfg, Started(cfg, poolJob, workerJob, Connects(0, a)), events, t) && Connected1(cfg, t, a)
  {
    var s := Started(cfg, poolJob, workerJob, Connects(0, a));
    var e := HandshakeTick(a, true, SslDone, Quiet(0));
    assert s.net.conns == map[a := NewConn(PoolSide)];
    t := OneStep(cfg, s, e);
    events := [e];
  }

  // ----- A ready worker without a job -----------------------------------------------------------

  /** A request without id and parameters. */
  function BareRequest(name: string): Doc {
    DObj([Member("", "method", "", DStr(name))])
  }

  lemma BareRequestReads(name: string)
    requires Clean(name)
    ensures ParseRequest(Print(BareRequest(name))) == Request(0, MethodNamed(name), Null)
  {
    var ms := BareRequest(name).members;
    NamesAreClean();
    ConstantsAreClean();
    forall m | m in ms ensures PrintableMember(m) {}
    PrintedDocParses(BareRequest(name));
    NoMember(ms, "id");
    NoMember(ms, "params");
    MemberAt(ms, 0);
  }

  /** Subscribed, then authorized: the worker is ready, and no job was sent to it. */
  lemma ReadyWithoutJob(cfg: Config, s: Sys, fd: int) returns (events: seq<Event>, t: Sys)
    requires InRange(cfg, s) && cfg.whitelist == [] && s.workers.hasJob && fd >= 0 && fd !in s.net.conns
    ensures Leads(cfg, s, events, t)
    ensures Unserved(t.workers, t.net.conns, fd, true, true)
  {
    var e1 := Accepted(fd, Quiet(0));
    AcceptStartsFresh(cfg, s, fd, Quiet(0));
    var s1 := OneStep(cfg, s, e1);
    var e2, s2 := SubscribesBare(cfg, s1, fd, "mining.subscribe");
    LeadsOn(cfg, s, [e1], s1, [e2], s2);
    var e3;
    e3, t := AuthorizesBare(cfg, s2, fd, "mining.authorize");
    LeadsOn(cfg, s, [e1] + [e2], s2, [e3], t);
    events := [e1] + [e2] + [e3];
  }

  /** The worker is subscribed or authorized as given, and was sent no job. */
  predicate Unserved(w: State, conns: map<int, Conn>, fd: int, subscribed: bool, authorized: bool) {
    && w.hasJob && IsWorker(conns, fd) && fd in w.entries
    && w.entries[fd].subscribed == subscribed && w.entries[fd].authorized == authorized
    && LastJob(conns[fd].sent) == None
  }

  lemma SubscribesBare(cfg: Config, s: Sys, fd: int, name: string) returns (e: Event, t: Sys)
    requires name == "mining.subscribe" && InRange(cfg, s) && Unserved(s.workers, s.net.conns, fd, false, false)
    ensures Leads(cfg, s, [e], t) && Unserved(t.workers, t.net.conns, fd, true, false)
  {
    e := WorkerLine(fd, Print(BareRequest(name)), Quiet(0));
    BareRequestReads(name);
    SubscribeSendsNoJob(s.workers, s.net.conns, fd);
    t := OneStep(cfg, s, e);
  }

  lemma SubscribeSendsNoJob(w: State, conns: map<int, Conn>, fd: int)
    requires Unserved(w, conns, fd, false, false)
    ensures var b := HandleSubscribe(w, conns, fd, Request(0, Subscribe, Null), Quiet(0));
      Unserved(b.workers, b.conns, fd, true, false)
  {
    OfferJob(conns[fd], SubscribeReply(0, fd), WroteAll);
  }

  lemma AuthorizesBare(cfg: Config, s: Sys, fd: int, name: string) returns (e: Event, t: Sys)
    requires name == "mining.authorize" && InRange(cfg, s) && Unserved(s.workers, s.net.conns, fd, true, false)
    requires cfg.whitelist == []
    ensures Leads(cfg, s, [e], t) && Unserved(t.workers, t.net.conns, fd, true, true)
  {
    e := WorkerLine(fd, Print(BareRequest(name)), Quiet(0));
    BareRequestReads(name);
    AuthorizeSendsNoJob(cfg.whitelist, s.workers, s.net.conns, fd);
    t := OneStep(cfg, s, e);
  }

  lemma AuthorizeSendsNoJob(whitelist: seq<string>, w: State, conns: map<int, Conn>, fd: int)
    requires whitelist == [] && Unserved(w, conns, fd, true, false)
    ensures var b := HandleAuthorize(whitelist, w, conns, fd, Request(0, Authorize, Null), Quiet(0));
      Unserved(b.workers, b.conns, fd, true, true)
  {
    OfferJob(conns[fd], AuthorizeReply(0, true), WroteAll);
  }

  lemma JobArrives(cfg: Config, s: Sys, a: int, job: Job) returns (e: Event, t: Sys)
    requires Connected1(cfg, s, a) && CleanJob(job)
    ensures Leads(cfg, s, [e], t) && InRange(cfg, t) && t.workers.hasJob && t.net.conns.Keys == {a}
  {
    e := PoolLine(a, Text(JobMsg(job)), Quiet(0));
    JobNoticeRoundTrip(cfg.pools, s.pool, s.net, job, Quiet(0));
    t := OneStep(cfg, s, e);
  }

  /** From the start, whatever the jobs and the pools, five events make a worker ready that was never sent
      the job that has arrived. */
  lemma GapIsReachable(cfg: Config, poolJob: Job, workerJob: Job, job: Job, a: int, fd: int)
    returns (events: seq<Event>, t: Sys)
    requires cfg.pools != [] && cfg.whitelist == [] && CleanJob(job) && a >= 0 && fd >= 0 && a != fd
    ensures Leads(cfg, Started(cfg, poolJob, workerJob, Connects(0, a)), events, t)
    ensures Unserved(t.workers, t.net.conns, fd, true, true)
  {
    var s := Started(cfg, poolJob, workerJob, Connects(0, a));
    var first, s1 := HandshakeCompletes(cfg, poolJob, workerJob, a);
    var e, s2 := JobArrives(cfg, s1, a, job);
    LeadsOn(cfg, s, first, s1, [e], s2);
    var more;
    more, t := ReadyWithoutJob(cfg, s2, fd);
    LeadsOn(cfg, s, first + [e], s2, more, t);
    events := first + [e] + more;
  }

  // ----- A share offered before any login -------------------------------------------------------

  function Refusal(status: string): Doc {
    DObj([Member("", "id", "", DNum(1)),
          Member("", "result", "", DObj([Member("", "status", "", DStr(status))]))])
  }

  lemma RefusalReads(status: string)
    requires Clean(status)
    ensures var v := Parse(Print(Refusal(status)));
      && v.Some? && !v.value.Has("method") && !v.value.Has("error")
      && v.value.Has("id") && v.value.fields["id"] == Num(1)
      && v.value.Has("result") && v.value.fields["result"] == Obj(map["status" := Str(status)])
  {
    var ms := Refusal(status).members;
    var rs := ms[1].value.members;
    NamesAreClean();
    forall m | m in rs ensures PrintableMember(m) {}
    assert Printable(ms[1].value);
    forall m | m in ms ensures PrintableMember(m) {}
    PrintedDocParses(Refusal(status));
    NoMember(ms, "method");
    NoMember(ms, "error");
    MemberAt(ms, 0);
    MemberAt(ms, 1);
    assert rs[1..] == [];
    assert FieldsOf(rs, map[]) == FieldsOf(rs[1..], map[]["status" := Str(status)]) == map["status" := Str(status)];
  }

  /** A refused login leaves its connection open and waits for the reconnect timer. */
  predicate Waiting(cfg: Config, s: Sys, a: int) {
    && InRange(cfg, s) && a in s.net.conns && a >= 0
    && s.net.conns[a].kind == PoolSide && s.net.conns[a].tlsComplete
    && s.pool.index == 0 && s.pool.attempts == 1 && !s.pool.authenticated
    && |s.net.timers| == 2 && s.net.timers[1] == Timeout(RECONNECT_DELAY_MS, RECONNECT_DELAY_MS, Reconnect, false)
    && !s.workers.hasJob
  }

  lemma LoginRefused(cfg: Config, s: Sys, a: int, status: string) returns (e: Event, t: Sys)
    requires Clean(status) && status != "OK" && Connected1(cfg, s, a)
    ensures Leads(cfg, s, [e], t) && Waiting(cfg, t, a) && t.net.conns == s.net.conns && t.workers == s.workers
  {
    e := PoolLine(a, Print(Refusal(status)), Quiet(0));
    RefusalGoesDown(cfg.pools, s.pool, s.net, status);
    t := OneStep(cfg, s, e);
  }

  lemma RefusalGoesDown(cfg: seq<PoolConfig>, p: Pool, net: Net, status: string)
    requires Clean(status) && status != "OK" && p.index < |cfg| && !p.authenticated && p.attempts == 0
    ensures OnPoolMessage(cfg, p, net, Print(Refusal(status)), Quiet(0))
         == Out(Down(p).(attempts := 1), WithTimer(net, 0, RECONNECT_DELAY_MS, Reconnect, false), [PoolFailed])
  {
    RefusalReads(status);
    RefusalHandled(cfg, p, net, AsInt(Num(1)).value, status);
  }

  lemma RefusalHandled(cfg: seq<PoolConfig>, p: Pool, net: Net, id: int, status: string)
    requires status != "OK" && p.index < |cfg| && !p.authenticated && p.attempts == 0
    ensures HandleResponse(cfg, p, net, id, Obj(map["status" := Str(status)]), Null, Quiet(0))
         == Out(Down(p).(attempts := 1), WithTimer(net, 0, RECONNECT_DELAY_MS, Reconnect, false), [PoolFailed])
  {
    var result := Obj(map["status" := Str(status)]);
    assert result.Has("status") && result.fields["status"] == Str(status);
  }

  /** A worker connection, not ready. */
  predicate Idle(s: Sys, c: int) {
    IsWorker(s.net.conns, c) && s.workers.entries.Keys == {c} && !s.workers.entries[c].Ready()
  }

  lemma WorkerComes(cfg: Config, s: Sys, a: int, c: int) returns (e: Event, t: Sys)
    requires Waiting(cfg, s, a) && s.net.conns.Keys == {a} && s.workers.entries == map[] && c >= 0 && c != a
    ensures Leads(cfg, s, [e], t) && Waiting(cfg, t, a) && t.net.conns.Keys == {a, c} && Idle(t, c)
  {
    e := Accepted(c, Quiet(0));
    t := OneStep(cfg, s, e);
  }

  /** The first connection is still open, and the pool side now sends on a second one. */
  predicate Coexisting(cfg: Config, s: Sys, a: int, b: int) {
    && InRange(cfg, s) && a in s.net.conns && s.net.conns[a].kind == PoolSide && s.net.conns[a].tlsComplete
    && b in s.net.conns && s.net.conns[b].HandshakePending() && s.net.conns[b].sent == []
    && !s.pool.authenticated && s.pool.hasConn && s.pool.fd == b
  }

  lemma Reconnects(cfg: Config, s: Sys, a: int, b: int, c: int) returns (e: Event, t: Sys)
    requires Waiting(cfg, s, a) && s.net.conns.Keys == {a, c} && Idle(s, c) && b >= 0 && b !in {a, c}
    ensures Leads(cfg, s, [e], t) && Coexisting(cfg, t, a, b) && Idle(t, c)
    ensures t.net.conns[b].state == Connecting && t.pool.attempts == 1
  {
    e := ReconnectDue(1, Connects(RECONNECT_DELAY_MS, b));
    t := OneStep(cfg, s, e);
  }

  lemma HandshakeFails(cfg: Config, s: Sys, a: int, b: int, c: int) returns (e: Event, t: Sys)
    requires Coexisting(cfg, s, a, b) && Idle(s, c) && a != b
    requires s.net.conns[b].state == Connecting && s.pool.attempts == 1
    ensures Leads(cfg, s, [e], t) && Coexisting(cfg, t, a, b) && Idle(t, c)
    ensures t.net.conns[b].state == ConnState.Error
  {
    e := HandshakeTick(b, true, SslFailed, Quiet(0));
    FailureIsTold(cfg, s, b);
    t := OneStep(cfg, s, e);
  }

  lemma FailureIsTold(cfg: Config, s: Sys, b: int)
    requires InRange(cfg, s) && b in s.net.conns && s.net.conns[b].HandshakePending()
    requires s.net.conns[b].state == Connecting && s.pool.attempts == 1
    ensures var c := s.net.conns[b];
      var failed := c.(attached := true, wantRead := false, wantWrite := false, shouldClose := true,
                       state := ConnState.Error);
      var net := s.net.(conns := s.net.conns[b := failed]);
      OnHandshake(cfg, s, b, true, SslFailed, Quiet(0))
        == Stepped(Sys(WithTimer(net, 0, RECONNECT_DELAY_MS, Reconnect, false), Down(s.pool).(attempts := 2),
                       s.workers), [PoolFailed])
  {
  }

  /** Logged in with a job over one connection, while the other one, in the error state, is current. */
  predicate Misled(cfg: Config, s: Sys, b: int) {
    && InRange(cfg, s) && b in s.net.conns && s.net.conns[b].HandshakePending() && s.net.conns[b].sent == []
    && s.net.conns[b].state == ConnState.Error && s.pool.hasConn && s.pool.fd == b
    && s.pool.connected && s.pool.hasJob
  }

  lemma LoginAnswered(cfg: Config, s: Sys, a: int, b: int, c: int, job: Job) returns (e: Event, t: Sys)
    requires Coexisting(cfg, s, a, b) && Idle(s, c) && CleanJob(job)
    requires s.net.conns[b].state == ConnState.Error
    ensures Leads(cfg, s, [e], t) && Misled(cfg, t, b) && Idle(t, c)
  {
    e := PoolLine(a, Text(LoginReply(1, 0, Some(job))), Quiet(0));
    ReplyIsAdopted(cfg, s, c, job);
    t := OneStep(cfg, s, e);
  }

  lemma ReplyIsAdopted(cfg: Config, s: Sys, c: int, job: Job)
    requires InRange(cfg, s) && !s.pool.authenticated && CleanJob(job) && Idle(s, c)
    ensures var o := OnPoolMessage(cfg.pools, s.pool, s.net, Text(LoginReply(1, 0, Some(job))), Quiet(0));
      var got := WithFields(s.pool.job, job);
      && o.pool == LoggedIn(s.pool).(job := got, hasJob := true, attempts := 0)
      && PassJob(o, s.workers, Quiet(0)).sys == Sys(s.net, o.pool, s.workers.(job := got, hasJob := true))
  {
    LoginReplyRoundTrip(cfg.pools, s.pool, s.net, 1, 0, Some(job), Quiet(0));
    BroadcastSkips(s.workers.entries, s.net.conns, c, WithFields(s.pool.job, job));
  }

  lemma BroadcastSkips(entries: map<int, Worker>, conns: map<int, Conn>, c: int, job: Job)
    requires entries.Keys == {c} && !entries[c].Ready()
    ensures Broadcast(entries, conns, job, Quiet(0)) == conns
  {
    SameMap(Broadcast(entries, conns, job, Quiet(0)), conns);
  }

  lemma ShareGoesOut(cfg: Config, s: Sys, b: int, c: int, share: Share) returns (e: Event, t: Sys)
    requires Misled(cfg, s, b) && Idle(s, c)
    requires CleanMsg(SubmitMsg(1, share.worker, share.jobId, share.nonce, share.result))
    ensures Leads(cfg, s, [e], t) && b in t.net.conns && t.net.conns[b].HandshakePending()
    ensures t.net.conns[b].sent
         == [SubmitMsg(s.pool.nextId, share.worker, share.jobId, share.nonce, share.result)]
  {
    e := WorkerLine(c, Text(SubmitMsg(1, share.worker, share.jobId, share.nonce, share.result)), Quiet(0));
    ShareRoundTrip(cfg.whitelist, s.workers, s.net.conns, c, 1, share, Quiet(0));
    t := OneStep(cfg, s, e);
  }

  /** From the start, whatever the pools: seven possible events lead to a pool connection whose handshake
      has failed and on which a share is the first line offered. Only because a failed handshake stays
      failed is the login first wherever one completes. */
  lemma ShareBeforeLogin(cfg: Config, poolJob: Job, workerJob: Job, job: Job, share: Share, a: int, b: int, c: int)
    returns (events: seq<Event>, t: Sys)
    requires cfg.pools != [] && CleanJob(job)
    requires CleanMsg(SubmitMsg(1, share.worker, share.jobId, share.nonce, share.result))
    requires a >= 0 && b >= 0 && c >= 0 && a != b && a != c && b != c
    ensures Leads(cfg, Started(cfg, poolJob, workerJob, Connects(0, a)), events, t) && InRange(cfg, t)
    ensures b in t.net.conns && t.net.conns[b].HandshakePending()
    ensures t.net.conns[b].sent != [] && t.net.conns[b].sent[0].SubmitMsg?
    ensures !LoginsFirst(Step(cfg, t, HandshakeTick(b, true, SslDone, Quiet(0))).sys)
  {
    var s := Started(cfg, poolJob, workerJob, Connects(0, a));
    var u;
    events, u := FailureCoexists(cfg, poolJob, workerJob, a, b, c);
    var e1, u1 := LoginAnswered(cfg, u, a, b, c, job);
    LeadsOn(cfg, s, events, u, [e1], u1);
    var e2;
    e2, t := ShareGoesOut(cfg, u1, b, c, share);
    LeadsOn(cfg, s, events + [e1], u1, [e2], t);
    events := events + [e1] + [e2];
    StartIsOrderly(cfg, poolJob, workerJob, Connects(0, a));
    LoginIsAlwaysFirst(cfg, s, events);
    CompletionKeepsOrderIff(cfg, t, b, Quiet(0));
  }

  lemma FailureCoexists(cfg: Config, poolJob: Job, workerJob: Job, a: int, b: int, c: int)
    returns (events: seq<Event>, t: Sys)
    requires cfg.pools != [] && a >= 0 && b >= 0 && c >= 0 && a != b && a != c && b != c
    ensures Leads(cfg, Started(cfg, poolJob, workerJob, Connects(0, a)), events, t)
    ensures Coexisting(cfg, t, a, b) && Idle(t, c)
    ensures t.net.conns[b].state == ConnState.Error
  {
    var s := Started(cfg, poolJob, workerJob, Connects(0, a));
    var s1, s2, s3, s4;
    var e;
    events, s1 := HandshakeCompletes(cfg, poolJob, workerJob, a);
    e, s2 := LoginRefused(cfg, s1, a, "no");
    LeadsOn(cfg, s, events, s1, [e], s2);
    events := events + [e];
    e, s3 := WorkerComes(cfg, s2, a, c);
    LeadsOn(cfg, s, events, s2, [e], s3);
    events := events + [e];
    e, s4 := Reconnects(cfg, s3, a, b, c);
    LeadsOn(cfg, s, events, s3, [e], s4);
    events := events + [e];
    e, t := HandshakeFails(cfg, s4, a, b, c);
    LeadsOn(cfg, s, events, s4, [e], t);
    events := events + [e];
  }
}
