/** Both managers keep a copy of the current job. They agree after every event, unless a job message
    stops half way through its fields. */
module Mirror {
  import opened Wrappers
  import opened Json
  import opened Stratum
  import opened Connections
  import opened EventLoops
  import opened Pools
  import opened Workers
  import opened Proxies

  /** Once a job has arrived the two copies are equal, and the worker side knows a job whenever the pool
      side does. */
  predicate Mirrored(s: Sys) {
    (s.workers.hasJob ==> s.pool.job == s.workers.job) && (s.pool.hasJob ==> s.workers.hasJob)
  }

  // ----- Which lines carry a job, and whether its fields are well typed -------------------------

  datatype Carried = Carried(fields: map<string, Value>, heightOptional: bool)

  /** The job object that a line makes the pool side read field by field. */
  function CarriedBy(authenticated: bool, line: string): (c: Option<Carried>)
    ensures c.Some? ==> "job_id" in c.value.fields && "blob" in c.value.fields
  {
    match Parse(line)
    case None => None
    case Some(j) =>
      if j.Has("method") then
        var req := RequestOf(j);
        if req.verb == JobNotice && req.params.Has("job_id") && req.params.Has("blob")
        then Some(Carried(req.params.fields, false)) else None
      else if j.Has("id") && AsInt(j.fields["id"]).None? then None
      else if !authenticated && j.Has("result") && j.fields["result"].Has("job")
              && j.fields["result"].fields["job"].Has("job_id") && j.fields["result"].fields["job"].Has("blob")
      then Some(Carried(j.fields["result"].fields["job"].fields, true))
      else None
  }

  predicate WellTyped(c: Carried) {
    var f := c.fields;
    && "job_id" in f && f["job_id"].Str? && "blob" in f && f["blob"].Str?
    && "target" in f && f["target"].Str?
    && (if "height" in f then f["height"].Num? else c.heightOptional)
  }

  /** The assignment of the fields runs to its end exactly when all of them are well typed. */
  lemma AssignDoneIff(job: Job, c: Carried)
    requires "job_id" in c.fields && "blob" in c.fields
    ensures AssignJob(job, c.fields, c.heightOptional).done <==> WellTyped(c)
  {
  }

  /** The fields that are read before the first ill typed one include one that differs from the job. */
  predicate Differs(job: Job, f: map<string, Value>)
    requires "job_id" in f && "blob" in f
  {
    || (f["job_id"].Str? && f["job_id"].s != job.jobId)
    || (f["job_id"].Str? && f["blob"].Str? && f["blob"].s != job.blob)
    || (f["job_id"].Str? && f["blob"].Str? && "target" in f && f["target"].Str? && f["target"].s != job.target)
  }

  /** A job message that stops half way, and not before a field that changes. */
  predicate Tears(p: Pool, line: string) {
    var c := CarriedBy(p.authenticated, line);
    c.Some? && !WellTyped(c.value) && Differs(p.job, c.value.fields)
  }

  /** An assignment that stops changes the job exactly when one of the fields before the stop differs. */
  lemma StoppedChangesIff(job: Job, c: Carried)
    requires "job_id" in c.fields && "blob" in c.fields && !WellTyped(c)
    ensures AssignJob(job, c.fields, c.heightOptional).job != job <==> Differs(job, c.fields)
  {
  }

  lemma MessageCarries(cfg: seq<PoolConfig>, p: Pool, net: Net, line: string, env: Env)
    requires p.index < |cfg|
    ensures var o := OnPoolMessage(cfg, p, net, line, env);
      var c := CarriedBy(p.authenticated, line);
      match JobIn(o.log) {
        case Some(job) => o.pool.job == job && o.pool.hasJob
        case None =>
          && (o.pool.hasJob ==> p.hasJob)
          && o.pool.job == if c.Some? && !WellTyped(c.value)
                           then AssignJob(p.job, c.value.fields, c.value.heightOptional).job else p.job
      }
  {
    var o := OnPoolMessage(cfg, p, net, line, env);
    var parsed := Parse(line);
    if parsed.Some? {
      var j := parsed.value;
      if j.Has("method") {
        NotificationCarries(p, net, line, j);
      } else if !(j.Has("id") && AsInt(j.fields["id"]).None?) {
        var id := if j.Has("id") then AsInt(j.fields["id"]).value else env.unsetId;
        ResponseCarries(cfg, p, net, id, if j.Has("result") then j.fields["result"] else Null,
                        if j.Has("error") then j.fields["error"] else Null, env);
      }
    }
  }

  lemma NotificationCarries(p: Pool, net: Net, line: string, j: Value)
    requires Parse(line) == Some(j) && j.Has("method")
    ensures var o := HandleNotification(p, net, ParseRequest(line));
      var c := CarriedBy(p.authenticated, line);
      match JobIn(o.log) {
        case Some(job) => o.pool.job == job && o.pool.hasJob
        case None =>
          && o.pool.hasJob == p.hasJob
          && o.pool.job == if c.Some? && !WellTyped(c.value)
                           then AssignJob(p.job, c.value.fields, c.value.heightOptional).job else p.job
      }
  {
    NoticeCarries(p, net, ParseRequest(line));
  }

  lemma NoticeCarries(p: Pool, net: Net, req: Request)
    ensures var o := HandleNotification(p, net, req);
      var params := if req.params.Obj? then req.params.fields else map[];
      match JobIn(o.log) {
        case Some(job) => o.pool.job == job && o.pool.hasJob
        case None =>
          && o.pool.hasJob == p.hasJob
          && o.pool.job == if req.verb == JobNotice && req.params.Has("job_id") && req.params.Has("blob")
                              && !WellTyped(Carried(params, false))
                           then AssignJob(p.job, params, false).job else p.job
      }
  {
    if req.verb == JobNotice && req.params.Has("job_id") && req.params.Has("blob") {
      AssignDoneIff(p.job, Carried(req.params.fields, false));
    }
  }

  lemma ResponseCarries(cfg: seq<PoolConfig>, p: Pool, net: Net, id: int, result: Value, error: Value, env: Env)
    requires p.index < |cfg|
    ensures var o := HandleResponse(cfg, p, net, id, result, error, env);
      var given := if result.Has("job") then result.fields["job"] else Null;
      var c := Carried(if given.Obj? then given.fields else map[], true);
      match JobIn(o.log) {
        case Some(job) => o.pool.job == job && o.pool.hasJob
        case None =>
          && (o.pool.hasJob ==> p.hasJob)
          && o.pool.job == if !p.authenticated && given.Has("job_id") && given.Has("blob") && !WellTyped(c)
                           then AssignJob(p.job, c.fields, true).job else p.job
      }
  {
    if !p.authenticated && result.Has("job") {
      LoginCarries(p, net, id, result.fields["job"], error);
    } else {
      TryConnectKeepsJob(cfg, p, net, env);
    }
  }

  lemma LoginCarries(p: Pool, net: Net, id: int, given: Value, error: Value)
    ensures var o := LoginAnswer(p, net, id, given, error);
      var c := Carried(if given.Obj? then given.fields else map[], true);
      match JobIn(o.log) {
        case Some(job) => o.pool.job == job && o.pool.hasJob
        case None =>
          && o.pool.hasJob == p.hasJob
          && o.pool.job == if given.Has("job_id") && given.Has("blob") && !WellTyped(c)
                           then AssignJob(p.job, c.fields, true).job else p.job
      }
  {
    if given.Has("job_id") && given.Has("blob") {
      AssignDoneIff(p.job, Carried(given.fields, true));
    }
  }

  lemma TryConnectKeepsJob(cfg: seq<PoolConfig>, p: Pool, net: Net, env: Env)
    requires p.index < |cfg|
    ensures var o := GoDown(cfg, p, net, env); o.pool.job == p.job && !o.pool.hasJob && o.log == [PoolFailed]
  {
    if p.attempts >= MAX_RECONNECT_ATTEMPTS {
      TryConnectSelectsFirst(cfg, Down(p).(attempts := 0), net, NextIndex(p.index, |cfg|), env);
    }
  }

  // ----- One event ------------------------------------------------------------------------------

  /** A pool message keeps the copies equal exactly when it does not stop half way after changing a
      field. */
  lemma PoolLineMirrorsIff(cfg: Config, s: Sys, fd: int, line: string, env: Env)
    requires InRange(cfg, s) && Mirrored(s)
    ensures Mirrored(Step(cfg, s, PoolLine(fd, line, env)).sys) <==> !(s.workers.hasJob && Tears(s.pool, line))
  {
    MessageMirrorsIff(cfg.pools, s.pool, s.net, s.workers, line, env);
  }

  lemma MessageMirrorsIff(cfg: seq<PoolConfig>, p: Pool, net: Net, w: State, line: string, env: Env)
    requires p.index < |cfg| && Mirrored(Sys(net, p, w))
    ensures Mirrored(PassJob(OnPoolMessage(cfg, p, net, line, env), w, env).sys) <==> !(w.hasJob && Tears(p, line))
  {
    MessageCarries(cfg, p, net, line, env);
    PassJobCopies(OnPoolMessage(cfg, p, net, line, env), w, env);
    var c := CarriedBy(p.authenticated, line);
    if c.Some? && !WellTyped(c.value) {
      StoppedChangesIff(p.job, c.value);
    }
  }

  lemma PassJobCopies(o: Out, w: State, env: Env)
    ensures var t := PassJob(o, w, env).sys;
      && t.pool == o.pool
      && t.workers == if JobIn(o.log).Some? then w.(job := JobIn(o.log).value, hasJob := true) else w
  {
  }

  lemma OtherEventsMirror(cfg: Config, s: Sys, e: Event)
    requires InRange(cfg, s) && Mirrored(s) && !e.PoolLine?
    ensures Mirrored(Step(cfg, s, e).sys)
  {
    match e
    case HandshakeTick(fd, attachOk, r, env) => HandshakeMirrors(cfg, s, fd, attachOk, r, env);
    case ReconnectDue(i, env) => ReconnectMirrors(cfg, s, i, env);
    case WorkerLine(fd, line, env) => WorkerLineMirrors(cfg, s, fd, line, env);
    case _ =>
  }

  lemma WorkerLineMirrors(cfg: Config, s: Sys, fd: int, line: string, env: Env)
    requires InRange(cfg, s) && Mirrored(s)
    ensures Mirrored(Step(cfg, s, WorkerLine(fd, line, env)).sys)
  {
    LineKeepsJob(cfg.whitelist, s.workers, s.net.conns, fd, line, env);
  }

  lemma LineKeepsJob(whitelist: seq<string>, w: State, conns: map<int, Conn>, fd: int, line: string, env: Env)
    ensures var h := OnWorkerMessage(whitelist, w, conns, fd, line, env);
      h.workers.job == w.job && h.workers.hasJob == w.hasJob
  {
  }

  lemma HandshakeMirrors(cfg: Config, s: Sys, fd: int, attachOk: bool, r: SslResult, env: Env)
    requires InRange(cfg, s) && Mirrored(s)
    ensures Mirrored(OnHandshake(cfg, s, fd, attachOk, r, env).sys)
  {
    if fd in s.net.conns {
      var h := HandshakeStep(s.net.conns[fd], attachOk, r);
      TryConnectKeepsJob(cfg.pools, s.pool, s.net.(conns := s.net.conns[fd := h.conn]), env);
    }
  }

  lemma ReconnectMirrors(cfg: Config, s: Sys, i: nat, env: Env)
    requires InRange(cfg, s) && Mirrored(s)
    ensures Mirrored(Step(cfg, s, ReconnectDue(i, env)).sys)
  {
    var net := if i < |s.net.timers| then s.net.(timers := s.net.timers[..i] + s.net.timers[i + 1..]) else s.net;
    TryConnectSelectsFirst(cfg.pools, s.pool, net, s.pool.index, env);
  }

  // ----- Runs -----------------------------------------------------------------------------------

  /** Whatever the login state, every job the line carries has well typed fields. */
  predicate WellFormed(line: string) {
    forall b: bool :: CarriedBy(b, line).Some? ==> WellTyped(CarriedBy(b, line).value)
  }

  /** With well-formed job messages the copies agree after every event, across errors and reconnects. */
  lemma AlwaysMirrored(cfg: Config, s: Sys, events: seq<Event>)
    requires InRange(cfg, s) && Mirrored(s)
    requires forall e :: e in events && e.PoolLine? ==> WellFormed(e.line)
    ensures Mirrored(Run(cfg, s, events).sys)
  {
    var G: Guard := (x: Sys, e: Event) => e.PoolLine? ==> WellFormed(e.line);
    var P: Claim := (x: Sys, l: seq<Entry>) => Mirrored(x);
    GuardedByEvents(cfg, s, events, G);
    forall x, e, l | InRange(cfg, x) && P(x, l) && G(x, e) ensures Keeps(cfg, P, x, e, l) {
      if e.PoolLine? {
        PoolLineMirrorsIff(cfg, x, e.fd, e.line, e.env);
      } else {
        OtherEventsMirror(cfg, x, e);
      }
    }
    RunKeeps(cfg, G, P, s, events, []);
  }

  lemma StartIsMirrored(cfg: Config, poolJob: Job, workerJob: Job, env: Env)
    requires cfg.pools != []
    ensures Mirrored(Started(cfg, poolJob, workerJob, env))
  {
    TryConnectSelectsFirst(cfg.pools, NewPool(cfg.pools, poolJob), Net(map[], []), 0, env);
  }

  /** A job notice whose blob is a number. */
  function TornNotice(jobId: string): Doc {
    DObj([Member("", "method", "", DStr("job")),
          Member("", "params", "", DObj([Member("", "job_id", "", DStr(jobId)),
                                         Member("", "blob", "", DNum(5))]))])
  }

  /** Such lines exist: the new job id is stored, the rest is not, and the worker side is not told. */
  lemma TornNoticeTears(p: Pool, jobId: string)
    requires Clean(jobId) && jobId != p.job.jobId
    ensures Tears(p, Print(TornNotice(jobId)))
  {
    TornNoticeReads(jobId);
    TornParamsRead(jobId);
  }

  lemma TornNoticeReads(jobId: string)
    requires Clean(jobId)
    ensures var j := Parse(Print(TornNotice(jobId)));
      && j.Some? && j.value.Has("method")
      && RequestOf(j.value) == Request(0, JobNotice, ValueOf(TornNotice(jobId).members[1].value))
  {
    var ms := TornNotice(jobId).members;
    TornNoticeIsPrintable(jobId);
    PrintedDocParses(TornNotice(jobId));
    NoMember(ms, "id");
    MemberAt(ms, 0);
    MemberAt(ms, 1);
    RequestRead(ValueOf(DObj(ms)), 0, "job");
    MethodNames();
  }

  lemma TornParamsRead(jobId: string)
    ensures var v := ValueOf(TornNotice(jobId).members[1].value);
      && v.Has("job_id") && v.fields["job_id"] == Str(jobId) && v.Has("blob") && v.fields["blob"] == Num(5)
  {
    var ps := TornNotice(jobId).members[1].value.members;
    MemberAt(ps, 0);
    MemberAt(ps, 1);
  }

  lemma TornNoticeIsPrintable(jobId: string)
    requires Clean(jobId)
    ensures Printable(TornNotice(jobId))
  {
    NamesAreClean();
    ConstantsAreClean();
    var params := TornNotice(jobId).members[1].value;
    forall m | m in params.members ensures PrintableMember(m) {}
    assert Printable(params);
    forall m | m in TornNotice(jobId).members ensures PrintableMember(m) {}
  }
}
