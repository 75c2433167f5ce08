/** Two proxies in a chain: the lines one proxy prints, read by the other. Text fields are printed
    without escaping, so the theorems ask for fields that need none (RFC 8259, section 7). */
module Exchange {
  import opened Wrappers
  import opened Json
  import opened Stratum
  import opened Framing
  import opened Connections
  import opened EventLoops
  import opened Pools
  import opened Workers

  // ----- Jobs, downstream -----------------------------------------------------------------------

  /** `old` with the four fields that a job message carries. */
  function WithFields(before: Job, job: Job): Job {
    before.(jobId := job.jobId, blob := job.blob, target := job.target, height := job.height)
  }

  lemma AssignCarried(before: Job, v: Value, job: Job, heightOptional: bool)
    requires CarriesJob(v, job) && 0 <= job.height < 0x1_0000_0000_0000_0000
    ensures AssignJob(before, v.fields, heightOptional) == Assigned(WithFields(before, job), true)
  {
  }

  /** The job notice printed for a worker, read on the pool side: the same four fields are adopted and
      passed on. */
  lemma JobNoticeRoundTrip(cfg: seq<PoolConfig>, p: Pool, net: Net, job: Job, env: Env)
    requires p.index < |cfg| && CleanJob(job)
    ensures var got := WithFields(p.job, job);
      OnPoolMessage(cfg, p, net, Text(JobMsg(job)), env) == Out(p.(job := got, hasJob := true), net, [JobAdopted(got)])
  {
    JobNoticeHasMethod(job);
    JobLineReads(job);
    var req := ParseRequest(Text(JobMsg(job)));
    NoticeAdopts(p, net, req, job);
  }

  lemma JobNoticeHasMethod(job: Job)
    requires CleanJob(job)
    ensures Parse(Text(JobMsg(job))).Some? && Parse(Text(JobMsg(job))).value.Has("method")
  {
    CleanMsgReads(JobMsg(job));
    MemberAt(Layout(JobMsg(job)).members, 1);
  }

  lemma NoticeAdopts(p: Pool, net: Net, req: Request, job: Job)
    requires req.verb == JobNotice && CarriesJob(req.params, job) && 0 <= job.height < 0x1_0000_0000_0000_0000
    ensures var got := WithFields(p.job, job);
      HandleNotification(p, net, req) == Out(p.(job := got, hasJob := true), net, [JobAdopted(got)])
  {
    AssignCarried(p.job, req.params, job, false);
  }

  // ----- Shares, upstream -----------------------------------------------------------------------

  /** The share printed for the pool, read on the worker side: acknowledged under its id, and the same
      four fields go to the share callback. */
  lemma ShareRoundTrip(whitelist: seq<string>, w: State, conns: map<int, Conn>, fd: int, id: int, s: Share, env: Env)
    requires fd in w.entries
    requires CleanMsg(SubmitMsg(id, s.worker, s.jobId, s.nonce, s.result))
    ensures OnWorkerMessage(whitelist, w, conns, fd, Text(SubmitMsg(id, s.worker, s.jobId, s.nonce, s.result)), env)
         == Handled(w, OfferTo(conns, fd, SubmitAck(id), WriteOn(env, fd)), Some(s))
  {
    SubmitLineReads(id, s.worker, s.jobId, s.nonce, s.result);
    ShareIsRead(ParseRequest(Text(SubmitMsg(id, s.worker, s.jobId, s.nonce, s.result))), s);
  }

  lemma ShareIsRead(req: Request, s: Share)
    requires req.verb == MoneroSubmit && CarriesShare(req.params, s.worker, s.jobId, s.nonce, s.result)
    ensures ReadShare(req) == Some(s)
  {
  }

  /** The acknowledgement is no answer for the pool side: its result is not an object, so the pending
      entry stays and nothing is passed on. */
  lemma AcknowledgementIsIgnored(cfg: seq<PoolConfig>, p: Pool, net: Net, id: int, env: Env)
    requires p.index < |cfg| && Int32(id)
    ensures OnPoolMessage(cfg, p, net, Text(SubmitAck(id)), env) == Out(p, net, [])
  {
    SubmitAckReads(id);
    BooleanIsIgnored(cfg, p, net, id, Null, env);
  }

  lemma BooleanIsIgnored(cfg: seq<PoolConfig>, p: Pool, net: Net, id: int, error: Value, env: Env)
    requires p.index < |cfg|
    ensures HandleResponse(cfg, p, net, id, Bool(true), error, env) == Out(p, net, [])
  {
  }

  // ----- Logins ---------------------------------------------------------------------------------

  /** The login printed for the pool, read on the worker side, logs in the wallet under the same id. */
  lemma LoginRoundTrip(whitelist: seq<string>, w: State, conns: map<int, Conn>, fd: int, wallet: string,
                       password: string, id: int, env: Env)
    requires fd in w.entries && Clean(wallet) && Clean(password) && Int32(id)
    ensures var h := OnWorkerMessage(whitelist, w, conns, fd, Text(LoginMsg(wallet, password, id)), env);
      var reply := LoginReply(id, fd, if w.hasJob then Some(w.job) else None);
      var told := OfferTo(conns, fd, reply, WriteOn(env, fd));
      var named := w.entries[fd].(workerId := wallet);
      h == if whitelist == [] || wallet in whitelist
           then Handled(w.(entries := w.entries[fd := named.(subscribed := true, authorized := true)]), told, None)
           else Handled(w.(entries := w.entries[fd := named]), MarkClosing(told, fd), None)
  {
    LoginLineReads(wallet, password, id);
    var req := ParseRequest(Text(LoginMsg(wallet, password, id)));
    LoginIsRead(req.params, wallet);
  }

  lemma LoginIsRead(params: Value, wallet: string)
    requires CarriesLogin(params, wallet)
    ensures LoginId(params) == Some(wallet)
  {
  }

  /** The login reply, read while not logged in: with a job it logs in and adopts that job; without one
      it logs in and adopts nothing. */
  lemma LoginReplyRoundTrip(cfg: seq<PoolConfig>, p: Pool, net: Net, id: int, fd: int, given: Option<Job>, env: Env)
    requires p.index < |cfg| && !p.authenticated && CleanMsg(LoginReply(id, fd, given))
    ensures OnPoolMessage(cfg, p, net, Text(LoginReply(id, fd, given)), env)
         == match given {
              case None => GoUp(p, net)
              case Some(job) =>
                var got := WithFields(p.job, job);
                Out(LoggedIn(p).(job := got, hasJob := true, attempts := 0), net,
                    [PoolAuthenticated, JobAdopted(got)])
            }
  {
    LoginReplyReads(id, fd, given);
    var v := Parse(Text(LoginReply(id, fd, given))).value;
    ReplyIsHandled(cfg, p, net, id, v.fields["result"], given, env);
  }

  lemma ReplyIsHandled(cfg: seq<PoolConfig>, p: Pool, net: Net, id: int, result: Value, given: Option<Job>, env: Env)
    requires p.index < |cfg| && !p.authenticated && CarriesReply(result, given)
    requires given.Some? ==> 0 <= given.value.height < 0x1_0000_0000_0000_0000
    ensures HandleResponse(cfg, p, net, id, result, Null, env)
         == match given {
              case None => GoUp(p, net)
              case Some(job) =>
                var got := WithFields(p.job, job);
                Out(LoggedIn(p).(job := got, hasJob := true, attempts := 0), net,
                    [PoolAuthenticated, JobAdopted(got)])
            }
  {
    if given.Some? {
      AssignCarried(p.job, result.fields["job"], given.value, true);
    }
  }

  /** A proxy that logs in to another one holding a clean job ends up logged in with that job. */
  lemma ChainedLogin(cfg: seq<PoolConfig>, p: Pool, net: Net, wallet: string, password: string, id: int,
                     whitelist: seq<string>, w: State, conns: map<int, Conn>, fd: int, env: Env, env': Env)
    requires p.index < |cfg| && !p.authenticated && Clean(wallet) && Clean(password) && Int32(id)
    requires fd in w.entries && fd in conns && conns[fd].CanSend() && Int32(fd)
    requires w.hasJob && CleanJob(w.job)
    ensures var upstream := OnWorkerMessage(whitelist, w, conns, fd, Text(LoginMsg(wallet, password, id)), env);
      var sent := upstream.conns[fd].sent;
      && |sent| == |conns[fd].sent| + 1
      && !sent[|sent| - 1].SubscribeReply?
      && var downstream := OnPoolMessage(cfg, p, net, Text(sent[|sent| - 1]), env');
      && downstream.pool.authenticated && downstream.pool.connected && downstream.pool.hasJob
      && downstream.pool.job == WithFields(p.job, w.job)
  {
    LoginRoundTrip(whitelist, w, conns, fd, wallet, password, id, env);
    LoginReplyRoundTrip(cfg, p, net, id, fd, Some(w.job), env');
  }

  // ----- The whole wire -------------------------------------------------------------------------

  predicate AllClean(ms: seq<Msg>) {
    forall i :: 0 <= i < |ms| ==> CleanMsg(ms[i])
  }

  function Texts(ms: seq<Msg>): (ls: seq<string>)
    requires AllClean(ms)
    ensures |ls| == |ms| && forall i :: 0 <= i < |ms| ==> CleanMsg(ms[i]) && ls[i] == Text(ms[i])
  {
    if ms == [] then [] else [Text(ms[0])] + Texts(ms[1..])
  }

  lemma TextIsALine(m: Msg)
    requires CleanMsg(m)
    ensures OneLine(Text(m)) && NoFinalReturn(Text(m))
  {
    CleanMsgReads(m);
  }

  lemma TextsAreLines(ms: seq<Msg>)
    requires AllClean(ms)
    ensures forall l :: l in Texts(ms) ==> OneLine(l) && NoFinalReturn(l)
  {
    forall l | l in Texts(ms) ensures OneLine(l) && NoFinalReturn(l) {
      var i :| 0 <= i < |Texts(ms)| && l == Texts(ms)[i];
      TextIsALine(ms[i]);
    }
  }

  /** A received line reads as the layout of the message. */
  ghost predicate ReadsAs(line: string, m: Msg)
    requires CleanMsg(m)
  {
    Parse(line) == Some(ValueOf(Layout(m)))
  }

  /** Any clean messages, sent in full and cut into reads of any size, arrive as the same lines in the
      same order, leave nothing in the buffer, and each reads as its own layout. */
  lemma WireRoundTrip(ms: seq<Msg>, chunks: seq<string>)
    requires AllClean(ms) && Concat(chunks) == Stream(Texts(ms))
    ensures ReadAll("", chunks) == Received(Texts(ms), "")
    ensures forall i :: 0 <= i < |ms| ==> CleanMsg(ms[i]) && ReadsAs(Texts(ms)[i], ms[i])
  {
    TextsAreLines(ms);
    FramingRoundTrip(Texts(ms), chunks);
    forall i | 0 <= i < |ms| ensures ReadsAs(Texts(ms)[i], ms[i]) {
      CleanMsgReads(ms[i]);
    }
  }
}
