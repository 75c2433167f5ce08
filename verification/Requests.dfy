/** What one line does, told from the line itself: requests of workers, with positional parameters too, and
    positional job notices of pools. */
module Requests {
  import opened Wrappers
  import opened Json
  import opened Stratum
  import opened Connections
  import opened EventLoops
  import opened Pools
  import opened Workers
  import opened Proxies
  import opened WorkerRuns
  import opened Exchange

  // ----- Requests with positional parameters ----------------------------------------------------

  function Positional(id: int, name: string, params: seq<Doc>): Doc {
    DObj([Member("", "id", "", DNum(id)), Member("", "method", "", DStr(name)), Member("", "params", "", DArr(params))])
  }

  predicate PrintableAll(ds: seq<Doc>) {
    forall d :: d in ds ==> Printable(d)
  }

  lemma PositionalReads(id: int, name: string, params: seq<Doc>)
    requires Int32(id) && Clean(name) && PrintableAll(params)
    ensures Parse(Print(Positional(id, name, params))).Some?
    ensures Parse(Print(Positional(id, name, params))).value.Has("method")
    ensures ParseRequest(Print(Positional(id, name, params))) == Request(id, MethodNamed(name), Arr(ValuesOf(params)))
  {
    var ms := Positional(id, name, params).members;
    NamesAreClean();
    ConstantsAreClean();
    assert Printable(DArr(params));
    forall m | m in ms ensures PrintableMember(m) {}
    PrintedDocParses(Positional(id, name, params));
    RequestReads(ms, 0, 1, 2, id, name);
    MemberAt(ms, 1);
  }

  lemma {:induction false} ValueAt(ds: seq<Doc>, i: nat)
    requires i < |ds|
    ensures ValuesOf(ds)[i] == ValueOf(ds[i])
  {
    if i > 0 {
      ValueAt(ds[1..], i - 1);
    }
  }

  lemma ValuesAre(ds: seq<Doc>)
    ensures forall i :: 0 <= i < |ds| ==> ValuesOf(ds)[i] == ValueOf(ds[i])
  {
    forall i | 0 <= i < |ds| ensures ValuesOf(ds)[i] == ValueOf(ds[i]) {
      ValueAt(ds, i);
    }
  }

  // ----- The effect on one worker ---------------------------------------------------------------

  /** The worker is renamed; only a worker on the whitelist gains flags, and no flag is ever lost. */
  predicate Judged(before: Worker, after: Worker, worker: string, allowed: bool, logsIn: bool) {
    && after.workerId == worker && after.extraNonce2 == before.extraNonce2
    && (after.authorized <==> before.authorized || allowed)
    && (after.subscribed <==> before.subscribed || (allowed && logsIn))
  }

  /** One message goes out, and the connection closes if the write fails or the worker is refused. */
  predicate Told(before: Conn, after: Conn, m: Msg, broken: bool, refused: bool) {
    && after.sent == before.sent + [m]
    && (after.shouldClose <==> before.shouldClose || broken || refused)
    && after == before.(sent := after.sent, shouldClose := after.shouldClose)
  }

  /** Nothing else changes. */
  ghost predicate OthersStay(w: State, conns: map<int, Conn>, v: State, after: map<int, Conn>, fd: int) {
    && v.job == w.job && v.hasJob == w.hasJob && v.nextNonce == w.nextNonce
    && v.entries.Keys == w.entries.Keys && after.Keys == conns.Keys
    && (forall x :: x in w.entries && x != fd ==> v.entries[x] == w.entries[x])
    && (forall x :: x in conns && x != fd ==> after[x] == conns[x])
  }

  predicate HasConn(w: State, conns: map<int, Conn>, fd: int) {
    fd in w.entries && IsWorker(conns, fd) && conns[fd].state == Connected
  }

  /** The worker id that an authorize request gives: its first parameter, or nothing. */
  predicate AuthorizesAs(params: Value, worker: string) {
    if params.Arr? && params.items != [] then params.items[0] == Str(worker) else worker == ""
  }

  /** An id that is not on a whitelist gets no flag, and its connection closes; the reply says which. */
  lemma AuthorizeOutcome(whitelist: seq<string>, w: State, conns: map<int, Conn>, fd: int, req: Request, env: Env,
                         worker: string)
    requires HasConn(w, conns, fd) && AuthorizesAs(req.params, worker)
    ensures var b := HandleAuthorize(whitelist, w, conns, fd, req, env);
      var allowed := whitelist == [] || worker in whitelist;
      && OthersStay(w, conns, b.workers, b.conns, fd)
      && Judged(w.entries[fd], b.workers.entries[fd], worker, allowed, false)
      && Told(conns[fd], b.conns[fd], AuthorizeReply(req.id, allowed), fd in env.broken, !allowed)
  {
    var allowed := whitelist == [] || worker in whitelist;
    var named := w.(entries := w.entries[fd := w.entries[fd].(workerId := worker)]);
    assert HandleAuthorize(whitelist, w, conns, fd, req, env)
        == AuthorizeVerdict(named, OfferTo(conns, fd, AuthorizeReply(req.id, allowed), WriteOn(env, fd)), fd, allowed);
    var m := AuthorizeReply(req.id, allowed);
    ReplyIsTold(conns, fd, m, env);
    VerdictsOutcome(w, conns, OfferTo(conns, fd, m, WriteOn(env, fd)), fd, m, fd in env.broken, worker, allowed);
  }

  /** Each of the two request kinds that name a worker does nothing at all if the name is no string. */
  lemma MistypedNameIsIgnored(whitelist: seq<string>, w: State, conns: map<int, Conn>, fd: int, req: Request, env: Env)
    requires fd in w.entries
    ensures req.params.Arr? && req.params.items != [] && !req.params.items[0].Str? ==>
      HandleAuthorize(whitelist, w, conns, fd, req, env) == Sent(w, conns)
    ensures req.params.Has("login") && !req.params.fields["login"].Str? ==>
      HandleLogin(whitelist, w, conns, fd, req, env) == Sent(w, conns)
  {
  }

  predicate LogsInAs(params: Value, worker: string) {
    if params.Obj? && "login" in params.fields then params.fields["login"] == Str(worker) else worker == ""
  }

  /** A login that names an id outside a whitelist gets the job, but no flag, and its connection closes. */
  lemma LoginOutcome(whitelist: seq<string>, w: State, conns: map<int, Conn>, fd: int, req: Request, env: Env,
                     worker: string)
    requires HasConn(w, conns, fd) && LogsInAs(req.params, worker)
    ensures var b := HandleLogin(whitelist, w, conns, fd, req, env);
      var allowed := whitelist == [] || worker in whitelist;
      && OthersStay(w, conns, b.workers, b.conns, fd)
      && Judged(w.entries[fd], b.workers.entries[fd], worker, allowed, true)
      && Told(conns[fd], b.conns[fd], LoginReply(req.id, fd, if w.hasJob then Some(w.job) else None),
              fd in env.broken, !allowed)
  {
    var m := LoginReply(req.id, fd, if w.hasJob then Some(w.job) else None);
    var named := w.(entries := w.entries[fd := w.entries[fd].(workerId := worker)]);
    var allowed := whitelist == [] || worker in whitelist;
    assert HandleLogin(whitelist, w, conns, fd, req, env)
        == LoginVerdict(named, OfferTo(conns, fd, m, WriteOn(env, fd)), fd, allowed);
    ReplyIsTold(conns, fd, m, env);
    VerdictsOutcome(w, conns, OfferTo(conns, fd, m, WriteOn(env, fd)), fd, m, fd in env.broken, worker, allowed);
  }

  /** The verdict after the reply `m` was offered. */
  lemma VerdictsOutcome(w: State, conns: map<int, Conn>, told: map<int, Conn>, fd: int, m: Msg, broken: bool,
                        worker: string, allowed: bool)
    requires fd in w.entries && fd in conns && told.Keys == conns.Keys && Told(conns[fd], told[fd], m, broken, false)
    requires forall x :: x in conns && x != fd ==> told[x] == conns[x]
    ensures var named := w.(entries := w.entries[fd := w.entries[fd].(workerId := worker)]);
      var a, l := AuthorizeVerdict(named, told, fd, allowed), LoginVerdict(named, told, fd, allowed);
      && OthersStay(w, conns, a.workers, a.conns, fd) && OthersStay(w, conns, l.workers, l.conns, fd)
      && Judged(w.entries[fd], a.workers.entries[fd], worker, allowed, false)
      && Judged(w.entries[fd], l.workers.entries[fd], worker, allowed, true)
      && Told(conns[fd], a.conns[fd], m, broken, !allowed) && Told(conns[fd], l.conns[fd], m, broken, !allowed)
  {
  }

  lemma ReplyIsTold(conns: map<int, Conn>, fd: int, m: Msg, env: Env)
    requires IsWorker(conns, fd) && conns[fd].state == Connected
    ensures var told := OfferTo(conns, fd, m, WriteOn(env, fd));
      && told.Keys == conns.Keys && Told(conns[fd], told[fd], m, fd in env.broken, false)
      && (forall x :: x in conns && x != fd ==> told[x] == conns[x])
  {
  }

  /** A `mining.authorize` line: its first parameter names the worker. */
  lemma AuthorizeLine(whitelist: seq<string>, w: State, conns: map<int, Conn>, fd: int, id: int, worker: string,
                      more: seq<Doc>, env: Env, name: string)
    requires HasConn(w, conns, fd) && Int32(id) && Clean(worker) && PrintableAll(more) && name == "mining.authorize"
    ensures var h := OnWorkerMessage(whitelist, w, conns, fd, Print(Positional(id, name, [DStr(worker)] + more)), env);
      var allowed := whitelist == [] || worker in whitelist;
      && h.share == None && OthersStay(w, conns, h.workers, h.conns, fd)
      && Judged(w.entries[fd], h.workers.entries[fd], worker, allowed, false)
      && Told(conns[fd], h.conns[fd], AuthorizeReply(id, allowed), fd in env.broken, !allowed)
  {
    var params := [DStr(worker)] + more;
    PositionalReads(id, name, params);
    ValueAt(params, 0);
    AuthorizeOutcome(whitelist, w, conns, fd, Request(id, Authorize, Arr(ValuesOf(params))), env, worker);
  }

  /** A login line of a clean wallet. */
  lemma LoginLine(whitelist: seq<string>, w: State, conns: map<int, Conn>, fd: int, id: int, wallet: string,
                  password: string, env: Env)
    requires HasConn(w, conns, fd) && Int32(id) && Clean(wallet) && Clean(password)
    ensures var h := OnWorkerMessage(whitelist, w, conns, fd, Text(LoginMsg(wallet, password, id)), env);
      var allowed := whitelist == [] || wallet in whitelist;
      && h.share == None && OthersStay(w, conns, h.workers, h.conns, fd)
      && Judged(w.entries[fd], h.workers.entries[fd], wallet, allowed, true)
      && Told(conns[fd], h.conns[fd], LoginReply(id, fd, if w.hasJob then Some(w.job) else None),
              fd in env.broken, !allowed)
  {
    LoginLineReads(wallet, password, id);
    LoginOutcome(whitelist, w, conns, fd, ParseRequest(Text(LoginMsg(wallet, password, id))), env, wallet);
  }

  // ----- Broadcasts -----------------------------------------------------------------------------

  /** A broadcast sends the job once to each subscribed and authorized worker, and touches nothing else. */
  lemma BroadcastOutcome(w: State, conns: map<int, Conn>, job: Job, env: Env, fd: int)
    requires fd in conns
    ensures var b := SendJob(w, conns, job, env);
      && b.workers == w.(job := job, hasJob := true) && b.conns.Keys == conns.Keys
      && (HasConn(w, conns, fd) && w.entries[fd].subscribed && w.entries[fd].authorized ==>
            Told(conns[fd], b.conns[fd], JobMsg(job), fd in env.broken, false))
      && (!(fd in w.entries && w.entries[fd].subscribed && w.entries[fd].authorized && IsWorker(conns, fd)) ==>
            b.conns[fd] == conns[fd])
  {
  }

  /** Subscribing answers, sets the flag, and then broadcasts a known job. */
  lemma SubscribeOutcome(w: State, conns: map<int, Conn>, fd: int, req: Request, env: Env)
    requires HasConn(w, conns, fd)
    ensures var b := HandleSubscribe(w, conns, fd, req, env);
      var ready := w.hasJob && w.entries[fd].authorized;
      && b.workers == w.(entries := w.entries[fd := w.entries[fd].(subscribed := true)])
      && fd in b.conns
      && b.conns[fd].sent == conns[fd].sent + [SubscribeReply(req.id, fd)] + (if ready then [JobMsg(w.job)] else [])
  {
  }

  /** An accepted connection gets a record with the next nonce, and a known job is broadcast to the others. */
  lemma AcceptOutcome(w: State, conns: map<int, Conn>, fd: int, env: Env, x: int)
    ensures var b := Accept(w, conns, fd, env);
      && b.workers == w.(entries := w.entries[fd := Worker(workerId := "", subscribed := false, authorized := false,
                                                           extraNonce2 := HexDigits(w.nextNonce, 8))],
                         nextNonce := (w.nextNonce + 1) % 0x1_0000_0000)
      && b.conns.Keys == conns.Keys + {fd} && b.conns[fd] == NewConn(WorkerSide)
      && (x != fd && HasConn(w, conns, x) && w.hasJob && w.entries[x].subscribed && w.entries[x].authorized ==>
            Told(conns[x], b.conns[x], JobMsg(w.job), x in env.broken, false))
      && (x != fd && x in conns && !w.hasJob ==> b.conns[x] == conns[x])
  {
  }

  /** A descriptor without a record, and any other method, change nothing. */
  lemma OtherRequestsAreIgnored(whitelist: seq<string>, w: State, conns: map<int, Conn>, fd: int, line: string,
                                env: Env)
    requires fd !in w.entries || ParseRequest(line).verb in {Notify, SetDifficulty, JobNotice, Unknown}
    ensures OnWorkerMessage(whitelist, w, conns, fd, line, env) == Handled(w, conns, None)
  {
  }

  // ----- Shares ---------------------------------------------------------------------------------

  /** A `mining.submit` line: the first four parameters are the share. */
  lemma SubmitLine(whitelist: seq<string>, w: State, conns: map<int, Conn>, fd: int, id: int, worker: string,
                   jobId: string, nonce: string, result: string, more: seq<Doc>, env: Env, name: string)
    requires HasConn(w, conns, fd) && Int32(id) && PrintableAll(more) && name == "mining.submit"
    requires Clean(worker) && Clean(jobId) && Clean(nonce) && Clean(result)
    ensures var params := [DStr(worker), DStr(jobId), DStr(nonce), DStr(result)] + more;
      var h := OnWorkerMessage(whitelist, w, conns, fd, Print(Positional(id, name, params)), env);
      && h.workers == w && h.conns.Keys == conns.Keys
      && h.share == Some(Share(worker := worker, jobId := jobId, nonce := nonce, result := result))
      && Told(conns[fd], h.conns[fd], SubmitAck(id), fd in env.broken, false)
  {
    var params := [DStr(worker), DStr(jobId), DStr(nonce), DStr(result)] + more;
    PositionalReads(id, name, params);
    ValuesAre(params);
    ShareIsPositional(Request(id, Submit, Arr(ValuesOf(params))), worker, jobId, nonce, result);
  }

  lemma ShareIsPositional(req: Request, worker: string, jobId: string, nonce: string, result: string)
    requires req.params.Arr? && |req.params.items| >= 4
    requires req.params.items[..4] == [Str(worker), Str(jobId), Str(nonce), Str(result)]
    ensures ReadShare(req) == Some(Share(worker := worker, jobId := jobId, nonce := nonce, result := result))
  {
    var p := req.params.items;
    assert p[0] == p[..4][0] && p[1] == p[..4][1] && p[2] == p[..4][2] && p[3] == p[..4][3];
  }

  /** A share without enough parameters is forwarded with empty fields; a missing field is empty; a field
      that is no string stops the handler before the acknowledgement. */
  lemma OddShares(req: Request)
    ensures req.params.Arr? && |req.params.items| < 4 ==> ReadShare(req) == Some(Share("", "", "", ""))
    ensures req.params == Null ==> ReadShare(req) == Some(Share("", "", "", ""))
    ensures req.params.Obj? && req.verb == Submit ==> ReadShare(req) == Some(Share("", "", "", ""))
    ensures req.params.Arr? && |req.params.items| >= 4 && (exists i :: 0 <= i < 4 && !req.params.items[i].Str?) ==>
      ReadShare(req) == None
    ensures req.params.Obj? && req.verb == MoneroSubmit ==>
      var f := req.params.fields;
      var r := ReadShare(req);
      && (r == None <==> || ("id" in f && !f["id"].Str?) || ("job_id" in f && !f["job_id"].Str?)
                         || ("nonce" in f && !f["nonce"].Str?) || ("result" in f && !f["result"].Str?))
      && (r.Some? ==>
            && r.value.worker == (if "id" in f then f["id"].s else "")
            && r.value.jobId == (if "job_id" in f then f["job_id"].s else "")
            && r.value.nonce == (if "nonce" in f then f["nonce"].s else "")
            && r.value.result == (if "result" in f then f["result"].s else ""))
  {
  }

  /** A share line from a worker, while the pool side has a job: the same four fields go to the current pool
      connection under the next id, and that id is remembered for the worker named in the line. */
  lemma ShareIsForwarded(cfg: Config, s: Sys, fd: int, id: int, sh: Share, env: Env)
    requires InRange(cfg, s) && HasConn(s.workers, s.net.conns, fd)
    requires CleanMsg(SubmitMsg(id, sh.worker, sh.jobId, sh.nonce, sh.result))
    requires s.pool.connected && s.pool.hasJob
    requires s.pool.hasConn && s.pool.fd in s.net.conns && s.pool.fd != fd && s.net.conns[s.pool.fd].CanSend()
    ensures var n, target := s.pool.nextId, s.pool.fd;
      var t := Step(cfg, s, WorkerLine(fd, Text(SubmitMsg(id, sh.worker, sh.jobId, sh.nonce, sh.result)), env));
      && t.log == [ShareIssued(id := n, worker := sh.worker)]
      && t.sys.pool == s.pool.(nextId := n + 1, shares := s.pool.shares[n := sh.worker])
      && t.sys.workers == s.workers
      && fd in t.sys.net.conns && target in t.sys.net.conns
      && Told(s.net.conns[fd], t.sys.net.conns[fd], SubmitAck(id), fd in env.broken, false)
      && t.sys.net.conns[target].sent == s.net.conns[target].sent
         + [SubmitMsg(id := n, worker := sh.worker, jobId := sh.jobId, nonce := sh.nonce, result := sh.result)]
  {
    ShareRoundTrip(cfg.whitelist, s.workers, s.net.conns, fd, id, sh, env);
  }

  /** Without a job or a login the share is acknowledged, and dropped. */
  lemma ShareIsDropped(cfg: Config, s: Sys, fd: int, id: int, sh: Share, env: Env)
    requires InRange(cfg, s) && HasConn(s.workers, s.net.conns, fd)
    requires CleanMsg(SubmitMsg(id, sh.worker, sh.jobId, sh.nonce, sh.result))
    requires !s.pool.connected || !s.pool.hasJob
    ensures var t := Step(cfg, s, WorkerLine(fd, Text(SubmitMsg(id, sh.worker, sh.jobId, sh.nonce, sh.result)), env));
      && t.log == [] && t.sys.pool == s.pool && t.sys.workers == s.workers
      && OthersStay(s.workers, s.net.conns, t.sys.workers, t.sys.net.conns, fd)
      && Told(s.net.conns[fd], t.sys.net.conns[fd], SubmitAck(id), fd in env.broken, false)
  {
    ShareRoundTrip(cfg.whitelist, s.workers, s.net.conns, fd, id, sh, env);
  }

  // ----- Positional job notices -----------------------------------------------------------------

  /** The parameters of a `mining.notify`: four texts, then possibly the height and the clean flag. */
  function NotifyParams(job: Job, height: bool, clean: bool, more: seq<Doc>): seq<Doc> {
    [DStr(job.jobId), DStr(job.blob), DStr(job.target), DStr(job.difficulty)]
    + (if height || clean then [DNum(job.height)] else [])
    + (if clean then [DBool(job.cleanJobs)] + more else [])
  }

  lemma NotifyValues(job: Job, height: bool, clean: bool, more: seq<Doc>)
    requires 0 <= job.height < 0x1_0000_0000_0000_0000
    ensures JobFromNotify(Arr(ValuesOf(NotifyParams(job, height, clean, more))))
         == Some(Job(jobId := job.jobId, blob := job.blob, target := job.target, difficulty := job.difficulty,
                     height := if height || clean then job.height else 0,
                     cleanJobs := if clean then job.cleanJobs else false))
  {
    var ds := NotifyParams(job, height, clean, more);
    ValuesAre(ds);
  }

  /** A `mining.notify` line is adopted and passed on, whatever the login state; missing parts are zero. */
  lemma NotifyLine(cfg: seq<PoolConfig>, p: Pool, net: Net, id: int, job: Job, height: bool, clean: bool,
                   more: seq<Doc>, env: Env, name: string)
    requires p.index < |cfg| && Int32(id) && CleanJob(job) && Clean(job.difficulty) && PrintableAll(more)
    requires name == "mining.notify"
    ensures var got := Job(jobId := job.jobId, blob := job.blob, target := job.target, difficulty := job.difficulty,
                           height := if height || clean then job.height else 0,
                           cleanJobs := if clean then job.cleanJobs else false);
      OnPoolMessage(cfg, p, net, Print(Positional(id, name, NotifyParams(job, height, clean, more))), env)
        == Out(p.(job := got, hasJob := true), net, [JobAdopted(got)])
  {
    var ds := NotifyParams(job, height, clean, more);
    PositionalReads(id, name, ds);
    NotifyValues(job, height, clean, more);
  }

  /** Fewer than four parameters make a job of empty texts; a parameter of the wrong type changes nothing. */
  lemma OddNotices(params: Value)
    ensures !params.Arr? || |params.items| < 4 ==>
      JobFromNotify(params) == Some(Job(jobId := "", blob := "", target := "", difficulty := "", height := 0,
                                        cleanJobs := false))
    ensures params.Arr? && |params.items| >= 4 ==>
      (JobFromNotify(params) == None <==>
        || (exists i :: 0 <= i < 4 && !params.items[i].Str?)
        || (|params.items| >= 5 && !params.items[4].Num?)
        || (|params.items| >= 6 && !params.items[5].Bool?))
  {
    if params.Arr? && |params.items| >= 4 {
      var p := params.items;
      assert (forall i :: 0 <= i < 4 ==> p[i].Str?) <==> p[0].Str? && p[1].Str? && p[2].Str? && p[3].Str?;
    }
  }

  /** A line that does not parse, a notice of any other kind, and a job notice without its two fields change
      nothing. */
  lemma OtherNoticesAreIgnored(cfg: seq<PoolConfig>, p: Pool, net: Net, line: string, env: Env)
    requires p.index < |cfg|
    requires || Parse(line) == None
             || (Parse(line).value.Has("method") && ParseRequest(line).verb !in {Notify, JobNotice})
             || (Parse(line).value.Has("method") && ParseRequest(line).verb == JobNotice
                 && !(ParseRequest(line).params.Has("job_id") && ParseRequest(line).params.Has("blob")))
    ensures OnPoolMessage(cfg, p, net, line, env) == Out(p, net, [])
  {
  }
}
