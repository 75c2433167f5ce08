/** The pool side of the proxy: connecting, failover, login, job intake and share routing. The
    functions say what each operation does to the values of the fields; class PoolManager is the
    imperative form. */
module Pools {
  import opened Wrappers
  import opened Json
  import opened Stratum
  import opened Connections
  import opened EventLoops

  const MAX_RECONNECT_ATTEMPTS := 5
  const RECONNECT_DELAY_MS := 5000

  datatype PoolConfig = PoolConfig(name: string, host: string, port: int, wallet: string, password: string)

  /** What the outside world answers during one event: the time, the descriptor of the connection
      that can be created for a pool (no entry: it cannot), the descriptors whose write fails, and
      the value that an answer without an id leaves in the uninitialised id field. */
  datatype Env = Env(now: nat, connect: map<nat, int>, broken: set<int>, unsetId: int)

  function WriteOn(env: Env, fd: int): WriteResult {
    if fd in env.broken then WriteFailed else WroteAll
  }

  datatype Pool = Pool(index: nat, name: string, hasConn: bool, fd: int,
                       connected: bool, authenticated: bool, subscribed: bool,
                       job: Job, hasJob: bool,
                       shares: map<int, string>, nextId: int, attempts: int)

  /** What an operation reports: ids handed out, share answers passed on, state changes, jobs passed
      to the job callback. */
  datatype Entry =
    | LoginIssued(id: int)
    | ShareIssued(id: int, worker: string)
    | AnswerRouted(id: int, worker: string, accepted: bool, error: string)
    | PoolFailed
    | PoolAuthenticated
    | JobAdopted(job: Job)

  datatype Out = Out(pool: Pool, net: Net, log: seq<Entry>)

  // ----- Connecting and failover ----------------------------------------------------------------

  datatype Attempt = Attempt(pool: Pool, net: Net)

  function TryConnect(cfg: seq<PoolConfig>, p: Pool, net: Net, i: nat, env: Env): (a: Attempt)
    ensures p.index < |cfg| ==> a.pool.index < |cfg|
    decreases |cfg| - i
  {
    if i >= |cfg| then Attempt(p, net)
    else
      var q := p.(index := i, name := cfg[i].name);
      if i !in env.connect then TryConnect(cfg, q, net, i + 1, env)
      else
        var fd := env.connect[i];
        Attempt(q.(fd := fd, hasConn := true), net.(conns := net.conns[fd := NewConn(PoolSide)]))
  }

  function TargetFd(p: Pool): int {
    if p.hasConn then p.fd else -1
  }

  function SendLogin(cfg: seq<PoolConfig>, p: Pool, net: Net, env: Env): (o: Out)
    requires p.index < |cfg|
    ensures o.pool.index < |cfg|
  {
    var m := LoginMsg(cfg[p.index].wallet, cfg[p.index].password, p.nextId);
    var fd := TargetFd(p);
    Out(p.(nextId := p.nextId + 1),
        net.(conns := OfferTo(net.conns, fd, m, WriteOn(env, fd))),
        [LoginIssued(p.nextId)])
  }

  function OnPoolState(cfg: seq<PoolConfig>, p: Pool, net: Net, s: ConnState, env: Env): (o: Out)
    requires p.index < |cfg|
    ensures o.pool.index < |cfg|
  {
    match s
    case Connected => SendLogin(cfg, p, net, env)
    case Authenticated => GoUp(p, net)
    case Connecting => Out(p, net, [])
    case _ => GoDown(cfg, p, net, env)
  }

  function GoUp(p: Pool, net: Net): Out {
    Out(p.(authenticated := true, connected := true, attempts := 0), net, [PoolAuthenticated])
  }

  function Down(p: Pool): Pool {
    p.(connected := false, authenticated := false, subscribed := false, hasJob := false)
  }

  function NextIndex(i: nat, n: nat): (k: nat)
    requires n > 0
    ensures k < n
  {
    (i + 1) % n
  }

  /** The pool failed: retry it after a delay, or move to the next one after five retries. */
  function GoDown(cfg: seq<PoolConfig>, p: Pool, net: Net, env: Env): (o: Out)
    requires p.index < |cfg|
    ensures o.pool.index < |cfg|
  {
    if p.attempts < MAX_RECONNECT_ATTEMPTS then
      Out(Down(p).(attempts := p.attempts + 1),
          WithTimer(net, env.now, RECONNECT_DELAY_MS, Reconnect, false), [PoolFailed])
    else
      var a := TryConnect(cfg, Down(p).(attempts := 0), net, NextIndex(p.index, |cfg|), env);
      Out(a.pool, a.net, [PoolFailed])
  }

  // ----- Messages from the pool -----------------------------------------------------------------

  /** Field by field assignment of a job; `done` is false when a conversion threw on the way. */
  datatype Assigned = Assigned(job: Job, done: bool)

  function AssignJob(job: Job, f: map<string, Value>, heightOptional: bool): Assigned
    requires "job_id" in f && "blob" in f
  {
    if !f["job_id"].Str? then Assigned(job, false)
    else
      var j1 := job.(jobId := f["job_id"].s);
      if !f["blob"].Str? then Assigned(j1, false)
      else
        var j2 := j1.(blob := f["blob"].s);
        if "target" !in f || !f["target"].Str? then Assigned(j2, false)
        else
          var j3 := j2.(target := f["target"].s);
          if "height" !in f then Assigned(j3, heightOptional)
          else if !f["height"].Num? then Assigned(j3, false)
          else Assigned(j3.(height := AsUint64(f["height"]).value), true)
  }

  function HandleResponse(cfg: seq<PoolConfig>, p: Pool, net: Net, id: int, result: Value, error: Value,
                          env: Env): (o: Out)
    requires p.index < |cfg|
    ensures o.pool.index < |cfg|
  {
    if !result.Obj? || result.fields == map[] then Out(p, net, [])
    else if !p.authenticated && result.Has("job") then LoginAnswer(p, net, id, result.fields["job"], error)
    else if !p.authenticated && result.Has("status") then LoginStatus(cfg, p, net, result.fields["status"], env)
    else if p.authenticated then RouteAnswer(p, net, id, error)
    else Out(p, net, [])
  }

  /** A login answer with a job. One without the two job fields is treated as a share answer, and a
      conversion error on the way leaves the fields assigned so far. */
  function LoginAnswer(p: Pool, net: Net, id: int, given: Value, error: Value): Out {
    var up := LoggedIn(p);
    if given.Has("job_id") && given.Has("blob")
    then AdoptAssigned(up, net, AssignJob(p.job, given.fields, true))
    else RouteAnswer(up, net, id, error)
  }

  function LoggedIn(p: Pool): Pool {
    p.(authenticated := true, connected := true, subscribed := true)
  }

  function AdoptAssigned(p: Pool, net: Net, a: Assigned): Out {
    if a.done
    then Out(p.(job := a.job, hasJob := true, attempts := 0, authenticated := true, connected := true), net,
             [PoolAuthenticated, JobAdopted(a.job)])
    else Out(p.(job := a.job), net, [])
  }

  function LoginStatus(cfg: seq<PoolConfig>, p: Pool, net: Net, status: Value, env: Env): (o: Out)
    requires p.index < |cfg|
    ensures o.pool.index < |cfg|
  {
    match AsString(status)
    case None => Out(p, net, [])
    case Some(text) => if text == "OK" then GoUp(p, net) else GoDown(cfg, p, net, env)
  }

  predicate IsEmptyValue(v: Value) {
    v.Null? || (v.Arr? && v.items == []) || (v.Obj? && v.fields == map[])
  }

  /** What the worker is told: an error that is missing or empty means accepted. */
  function Verdict(id: int, worker: string, error: Value): Entry {
    AnswerRouted(id, worker, IsEmptyValue(error), if error.Str? then error.s else "")
  }

  /** The answer to a share goes to the worker that submitted it, and the id is forgotten. */
  function RouteAnswer(p: Pool, net: Net, id: int, error: Value): Out {
    if id !in p.shares then Out(p, net, [])
    else
      Out(p.(shares := p.shares - {id}), net, [Verdict(id, p.shares[id], error)])
  }

  function HandleNotification(p: Pool, net: Net, req: Request): Out {
    if req.verb == Notify then
      match JobFromNotify(req.params)
      case None => Out(p, net, [])
      case Some(job) => Out(p.(job := job, hasJob := true), net, [JobAdopted(job)])
    else if req.verb == JobNotice && req.params.Has("job_id") && req.params.Has("blob") then
      var a := AssignJob(p.job, req.params.fields, false);
      if a.done then Out(p.(job := a.job, hasJob := true), net, [JobAdopted(a.job)])
      else Out(p.(job := a.job), net, [])
    else Out(p, net, [])
  }

  function OnPoolMessage(cfg: seq<PoolConfig>, p: Pool, net: Net, line: string, env: Env): (o: Out)
    requires p.index < |cfg|
    ensures o.pool.index < |cfg|
  {
    match Parse(line)
    case None => Out(p, net, [])
    case Some(j) =>
      if j.Has("method") then HandleNotification(p, net, ParseRequest(line))
      else
        match if j.Has("id") then AsInt(j.fields["id"]) else Some(env.unsetId)
        case None => Out(p, net, [])
        case Some(id) =>
          HandleResponse(cfg, p, net, id, if j.Has("result") then j.fields["result"] else Null,
                         if j.Has("error") then j.fields["error"] else Null, env)
  }

  // ----- What one message can do ----------------------------------------------------------------

  /** The ways a pool message ends. `login` says that it is taken as the answer to the login. */
  datatype Effect =
    | Nothing
    | WentUp
    | WentDown
    | Answered(login: bool, id: int, error: Value)
    | Torn(login: bool, job: Job)
    | Adopted(login: bool, job: Job)

  function Apply(cfg: seq<PoolConfig>, p: Pool, net: Net, f: Effect, env: Env): Out
    requires p.index < |cfg|
  {
    match f
    case Nothing => Out(p, net, [])
    case WentUp => GoUp(p, net)
    case WentDown => GoDown(cfg, p, net, env)
    case Answered(login, id, error) => RouteAnswer(if login then LoggedIn(p) else p, net, id, error)
    case Torn(login, job) => Out((if login then LoggedIn(p) else p).(job := job), net, [])
    case Adopted(login, job) =>
      if login then AdoptAssigned(LoggedIn(p), net, Assigned(job, true))
      else Out(p.(job := job, hasJob := true), net, [JobAdopted(job)])
  }

  /** Only a pool that is not logged in takes a message as a login answer, goes up or goes down. */
  predicate Applies(p: Pool, f: Effect) {
    match f
    case Nothing => true
    case WentUp => !p.authenticated
    case WentDown => !p.authenticated
    case Answered(login, _, _) => login == !p.authenticated
    case Torn(login, _) => login ==> !p.authenticated
    case Adopted(login, _) => login ==> !p.authenticated
  }

  /** Every message has one of these effects. */
  lemma MessageEffect(cfg: seq<PoolConfig>, p: Pool, net: Net, line: string, env: Env) returns (f: Effect)
    requires p.index < |cfg|
    ensures Applies(p, f) && OnPoolMessage(cfg, p, net, line, env) == Apply(cfg, p, net, f, env)
  {
    f := Nothing;
    var parsed := Parse(line);
    if parsed.Some? {
      var j := parsed.value;
      if j.Has("method") {
        f := NotificationEffect(cfg, p, net, ParseRequest(line), env);
      } else {
        var id := if j.Has("id") then AsInt(j.fields["id"]) else Some(env.unsetId);
        if id.Some? {
          f := ResponseEffect(cfg, p, net, id.value, if j.Has("result") then j.fields["result"] else Null,
                              if j.Has("error") then j.fields["error"] else Null, env);
        }
      }
    }
  }

  lemma NotificationEffect(cfg: seq<PoolConfig>, p: Pool, net: Net, req: Request, env: Env) returns (f: Effect)
    requires p.index < |cfg|
    ensures Applies(p, f) && HandleNotification(p, net, req) == Apply(cfg, p, net, f, env)
  {
    f := Nothing;
    if req.verb == Notify {
      var job := JobFromNotify(req.params);
      if job.Some? {
        f := Adopted(false, job.value);
      }
    } else if req.verb == JobNotice && req.params.Has("job_id") && req.params.Has("blob") {
      var a := AssignJob(p.job, req.params.fields, false);
      f := if a.done then Adopted(false, a.job) else Torn(false, a.job);
    }
  }

  lemma ResponseEffect(cfg: seq<PoolConfig>, p: Pool, net: Net, id: int, result: Value, error: Value, env: Env)
    returns (f: Effect)
    requires p.index < |cfg|
    ensures Applies(p, f) && HandleResponse(cfg, p, net, id, result, error, env) == Apply(cfg, p, net, f, env)
  {
    f := Nothing;
    if result.Obj? && result.fields != map[] {
      if !p.authenticated && result.Has("job") {
        var given := result.fields["job"];
        if given.Has("job_id") && given.Has("blob") {
          var a := AssignJob(p.job, given.fields, true);
          f := if a.done then Adopted(true, a.job) else Torn(true, a.job);
        } else {
          f := Answered(true, id, error);
        }
      } else if !p.authenticated && result.Has("status") {
        var status := AsString(result.fields["status"]);
        if status.Some? {
          f := if status.value == "OK" then WentUp else WentDown;
        }
      } else if p.authenticated {
        f := Answered(false, id, error);
      }
    }
  }

  // ----- Which answers reach a worker -----------------------------------------------------------

  /** The id that the answer handler works with. */
  function AnswerId(j: Value, env: Env): Option<int> {
    if j.Has("id") then AsInt(j.fields["id"]) else Some(env.unsetId)
  }

  predicate FullJob(v: Value) {
    v.Has("job_id") && v.Has("blob")
  }

  /** The line answers a pending share: it has no method, its id is pending, its result is an object with
      members, and it cannot be taken for the answer to a login. */
  predicate Delivers(p: Pool, line: string, env: Env) {
    var parsed := Parse(line);
    && parsed.Some? && !parsed.value.Has("method")
    && AnswerId(parsed.value, env).Some? && AnswerId(parsed.value, env).value in p.shares
    && parsed.value.Has("result") && IsFilled(parsed.value.fields["result"])
    && (p.authenticated
        || (parsed.value.fields["result"].Has("job") && !FullJob(parsed.value.fields["result"].fields["job"])))
  }

  predicate IsFilled(v: Value) {
    v.Obj? && v.fields != map[]
  }

  predicate HasAnswer(log: seq<Entry>) {
    exists i :: 0 <= i < |log| && log[i].AnswerRouted?
  }

  /** The worker is told that its share was accepted exactly when the error is null or empty, with the text
      of the error if it is a string. */
  predicate Tells(e: Entry, id: int, worker: string, error: Value) {
    && e.AnswerRouted? && e.id == id && e.worker == worker
    && (e.accepted <==> error == Null || error == Arr([]) || error == Obj(map[]))
    && (error.Str? ==> e.error == error.s)
    && (!error.Str? ==> e.error == "")
  }

  /** An answer is passed on exactly when `delivers`. Then it is all that is reported, to the worker of the
      pending share, which is forgotten; otherwise all pending shares stay. */
  predicate PassesOn(p: Pool, id: int, error: Value, delivers: bool, o: Out) {
    && (HasAnswer(o.log) <==> delivers)
    && (if delivers
        then && id in p.shares && |o.log| == 1 && Tells(o.log[0], id, p.shares[id], error)
             && o.pool.shares == p.shares - {id}
        else o.pool.shares == p.shares)
  }

  /** A line passes an answer on exactly when it delivers one; a missing error counts as null. */
  lemma AnswerPassedIff(cfg: seq<PoolConfig>, p: Pool, net: Net, line: string, env: Env)
    requires p.index < |cfg|
    ensures var o := OnPoolMessage(cfg, p, net, line, env);
      var j := if Parse(line).Some? then Parse(line).value else Null;
      var id := AnswerId(j, env);
      PassesOn(p, if id.Some? then id.value else 0, if j.Has("error") then j.fields["error"] else Null,
               Delivers(p, line, env), o)
  {
    var parsed := Parse(line);
    if parsed.Some? {
      var j := parsed.value;
      var error := if j.Has("error") then j.fields["error"] else Null;
      if j.Has("method") {
        NotificationPassesNone(p, net, ParseRequest(line));
      } else if AnswerId(j, env).Some? {
        ResponsePassesIff(cfg, p, net, AnswerId(j, env).value, if j.Has("result") then j.fields["result"] else Null,
                          error, env);
      }
    }
  }

  lemma NotificationPassesNone(p: Pool, net: Net, req: Request)
    ensures var o := HandleNotification(p, net, req); !HasAnswer(o.log) && o.pool.shares == p.shares
  {
  }

  lemma ResponsePassesIff(cfg: seq<PoolConfig>, p: Pool, net: Net, id: int, result: Value, error: Value, env: Env)
    requires p.index < |cfg|
    ensures PassesOn(p, id, error,
                     id in p.shares && IsFilled(result)
                     && (p.authenticated || (result.Has("job") && !FullJob(result.fields["job"]))),
                     HandleResponse(cfg, p, net, id, result, error, env))
  {
    if IsFilled(result) {
      if !p.authenticated && result.Has("job") {
        LoginAnswerPassesIff(p, net, id, result.fields["job"], error);
      } else if !p.authenticated && result.Has("status") {
        StatusPassesNone(cfg, p, net, id, result.fields["status"], error, env);
      } else {
        RoutePassesIff(p, p, net, id, error);
      }
    }
  }

  lemma RoutePassesIff(p: Pool, q: Pool, net: Net, id: int, error: Value)
    requires q.shares == p.shares
    ensures PassesOn(p, id, error, id in p.shares, RouteAnswer(q, net, id, error))
  {
    if id in p.shares {
      assert RouteAnswer(q, net, id, error).log[0].AnswerRouted?;
    }
  }

  lemma LoginAnswerPassesIff(p: Pool, net: Net, id: int, given: Value, error: Value)
    ensures PassesOn(p, id, error, id in p.shares && !FullJob(given), LoginAnswer(p, net, id, given, error))
  {
    RoutePassesIff(p, LoggedIn(p), net, id, error);
  }

  lemma StatusPassesNone(cfg: seq<PoolConfig>, p: Pool, net: Net, id: int, status: Value, error: Value, env: Env)
    requires p.index < |cfg|
    ensures PassesOn(p, id, error, false, LoginStatus(cfg, p, net, status, env))
  {
    GoDownKeepsShares(cfg, p, net, env);
  }

  lemma GoDownKeepsShares(cfg: seq<PoolConfig>, p: Pool, net: Net, env: Env)
    requires p.index < |cfg|
    ensures var o := GoDown(cfg, p, net, env); o.pool.shares == p.shares && o.log == [PoolFailed]
  {
    if p.attempts >= MAX_RECONNECT_ATTEMPTS {
      TryConnectSelectsFirst(cfg, Down(p).(attempts := 0), net, NextIndex(p.index, |cfg|), env);
    }
  }

  // ----- Shares from workers --------------------------------------------------------------------

  datatype Share = Share(worker: string, jobId: string, nonce: string, result: string)

  function SubmitShare(p: Pool, net: Net, s: Share, env: Env): Out {
    if !p.connected || !p.hasJob then Out(p, net, [])
    else
      var fd := TargetFd(p);
      var m := SubmitMsg(p.nextId, s.worker, s.jobId, s.nonce, s.result);
      Out(p.(nextId := p.nextId + 1, shares := p.shares[p.nextId := s.worker]),
          net.(conns := OfferTo(net.conns, fd, m, WriteOn(env, fd))),
          [ShareIssued(p.nextId, s.worker)])
  }

  /** The state after construction. The fields of the job start uninitialised. */
  function NewPool(cfg: seq<PoolConfig>, job: Job): Pool {
    Pool(0, if cfg == [] then "" else cfg[0].name, false, -1, false, false, false, job, false, map[], 1, 0)
  }

  // ----- Selecting a pool -----------------------------------------------------------------------

  /** Connecting picks the first pool at or after `i` whose connection can be created, and stores that
      one connection. When there is none it stops at the last pool: no connection, no timer. */
  lemma {:induction false} TryConnectSelectsFirst(cfg: seq<PoolConfig>, p: Pool, net: Net, i: nat, env: Env)
    requires i < |cfg|
    ensures var a := TryConnect(cfg, p, net, i, env);
      var k := a.pool.index;
      && i <= k < |cfg| && a.pool.name == cfg[k].name
      && (forall j :: i <= j < k ==> j !in env.connect)
      && (k in env.connect ==>
            && a.pool == p.(index := k, name := cfg[k].name, fd := env.connect[k], hasConn := true)
            && a.net == net.(conns := net.conns[env.connect[k] := NewConn(PoolSide)]))
      && (k !in env.connect ==>
            k == |cfg| - 1 && a.pool == p.(index := k, name := cfg[k].name) && a.net == net)
    decreases |cfg| - i
  {
    if i !in env.connect && i + 1 < |cfg| {
      TryConnectSelectsFirst(cfg, p.(index := i, name := cfg[i].name), net, i + 1, env);
    }
  }

  // ----- The object -----------------------------------------------------------------------------

  class PoolManager {
    const pools: seq<PoolConfig>
    const loop: EventLoop
    var currentPoolIndex: nat
    var currentPool: string
    var hasConn: bool
    var poolFd: int
    var connected: bool
    var authenticated: bool
    var subscribed: bool
    var currentJob: Job
    var hasJob: bool
    var shareToWorker: map<int, string>
    var nextId: int
    var reconnectAttempts: int

    ghost function View(): Pool
      reads this
    {
      Pool(currentPoolIndex, currentPool, hasConn, poolFd, connected, authenticated, subscribed,
           currentJob, hasJob, shareToWorker, nextId, reconnectAttempts)
    }

    ghost predicate Valid()
      reads this, loop
    {
      loop.Valid() && currentPoolIndex < |pools|
    }

    constructor (loop: EventLoop, pools: seq<PoolConfig>, job: Job)
      ensures this.loop == loop && this.pools == pools && View() == NewPool(pools, job)
    {
      this.loop, this.pools := loop, pools;
      currentPoolIndex, currentPool := 0, if pools == [] then "" else pools[0].name;
      hasConn, poolFd := false, -1;
      connected, authenticated, subscribed := false, false, false;
      currentJob, hasJob := job, false;
      shareToWorker, nextId, reconnectAttempts := map[], 1, 0;
    }

    method Start(env: Env)
      requires loop.Valid()
      modifies this, loop`connections
      ensures loop.Valid() && loop.timeouts == old(loop.timeouts) && fresh(loop.Objects() - old(loop.Objects()))
      ensures Attempt(View(), loop.View()) == TryConnect(pools, old(View()), old(loop.View()), 0, env)
    {
      if pools == [] {
        return;
      }
      TryConnectPool(0, env);
    }

    method TryConnectPool(i: nat, env: Env)
      requires loop.Valid()
      modifies this`currentPoolIndex, this`currentPool, this`poolFd, this`hasConn, loop`connections
      ensures loop.Valid() && fresh(loop.Objects() - old(loop.Objects()))
      ensures Attempt(View(), loop.View()) == TryConnect(pools, old(View()), old(loop.View()), i, env)
      decreases |pools| - i
    {
      if i >= |pools| {
        return;
      }
      ghost var p0, n0 := View(), loop.View();
      currentPoolIndex := i;
      currentPool := pools[i].name;
      assert View() == p0.(index := i, name := pools[i].name) && loop.View() == n0;
      if i !in env.connect {
        TryConnectPool(i + 1, env);
      } else {
        OpenConnection(env.connect[i]);
      }
    }

    method OpenConnection(fd: int)
      requires loop.Valid()
      modifies this`poolFd, this`hasConn, loop`connections
      ensures loop.Valid() && fresh(loop.Objects() - old(loop.Objects()))
      ensures View() == old(View()).(fd := fd, hasConn := true)
      ensures loop.View() == old(loop.View()).(conns := old(loop.View()).conns[fd := NewConn(PoolSide)])
    {
      var conn := new Connection(PoolSide);
      poolFd := fd;
      hasConn := true;
      loop.AddConnection(fd, conn);
    }

    method SendLoginLine(env: Env) returns (log: seq<Entry>)
      requires Valid()
      modifies this`nextId, loop.Objects()
      ensures Valid() && loop.connections == old(loop.connections)
      ensures Out(View(), loop.View(), log) == SendLogin(pools, old(View()), old(loop.View()), env)
    {
      var pool := pools[currentPoolIndex];
      var id := nextId;
      nextId := nextId + 1;
      var fd := if hasConn then poolFd else -1;
      var sent := loop.SendTo(fd, LoginMsg(pool.wallet, pool.password, id), WriteOn(env, fd));
      log := [LoginIssued(id)];
    }

    method OnState(s: ConnState, env: Env) returns (log: seq<Entry>)
      requires Valid()
      modifies this, loop, loop.Objects()
      ensures Valid() && fresh(loop.Objects() - old(loop.Objects()))
      ensures Out(View(), loop.View(), log) == OnPoolState(pools, old(View()), old(loop.View()), s, env)
    {
      match s {
        case Connected =>
          log := SendLoginLine(env);
        case Authenticated =>
          log := OnUp();
        case Connecting =>
          log := [];
        case _ =>
          log := OnDown(env);
      }
    }

    method OnDown(env: Env) returns (log: seq<Entry>)
      requires Valid()
      modifies this, loop
      ensures Valid() && fresh(loop.Objects() - old(loop.Objects()))
      ensures Out(View(), loop.View(), log) == GoDown(pools, old(View()), old(loop.View()), env)
    {
      ghost var p0, n0 := View(), loop.View();
      connected, authenticated, subscribed, hasJob := false, false, false, false;
      assert View() == Down(p0) && loop.View() == n0;
      if reconnectAttempts < MAX_RECONNECT_ATTEMPTS {
        RetryLater(env);
      } else {
        MoveToNextPool(env);
      }
      log := [PoolFailed];
    }

    method RetryLater(env: Env)
      requires Valid()
      modifies this`reconnectAttempts, loop`timeouts
      ensures Valid() && loop.connections == old(loop.connections)
      ensures View() == old(View()).(attempts := old(reconnectAttempts) + 1)
      ensures loop.View() == WithTimer(old(loop.View()), env.now, RECONNECT_DELAY_MS, Reconnect, false)
    {
      reconnectAttempts := reconnectAttempts + 1;
      loop.SetTimeout(env.now, RECONNECT_DELAY_MS, Reconnect, false);
    }

    method MoveToNextPool(env: Env)
      requires Valid()
      modifies this`currentPoolIndex, this`currentPool, this`poolFd, this`hasConn, this`reconnectAttempts,
               loop`connections
      ensures Valid() && fresh(loop.Objects() - old(loop.Objects()))
      ensures Attempt(View(), loop.View())
           == TryConnect(pools, old(View()).(attempts := 0), old(loop.View()),
                         NextIndex(old(currentPoolIndex), |pools|), env)
    {
      ghost var p0, n0 := View(), loop.View();
      reconnectAttempts := 0;
      var i := NextIndex(currentPoolIndex, |pools|);
      assert View() == p0.(attempts := 0) && loop.View() == n0;
      TryConnectSelectsFirst(pools, View(), n0, i, env);
      TryConnectPool(i, env);
    }

    method OnMessage(line: string, env: Env) returns (log: seq<Entry>)
      requires Valid()
      modifies this, loop
      ensures Valid() && fresh(loop.Objects() - old(loop.Objects()))
      ensures Out(View(), loop.View(), log) == OnPoolMessage(pools, old(View()), old(loop.View()), line, env)
    {
      log := [];
      var parsed := Parse(line);
      if parsed.Some? {
        var j := parsed.value;
        if j.Has("method") {
          log := OnNotification(ParseRequest(line), loop.View());
        } else {
          var id := if j.Has("id") then AsInt(j.fields["id"]) else Some(env.unsetId);
          if id.Some? {
            log := OnResponse(id.value, if j.Has("result") then j.fields["result"] else Null,
                              if j.Has("error") then j.fields["error"] else Null, env);
          }
        }
      }
    }

    method OnResponse(id: int, result: Value, error: Value, env: Env) returns (log: seq<Entry>)
      requires Valid()
      modifies this, loop
      ensures Valid() && fresh(loop.Objects() - old(loop.Objects()))
      ensures Out(View(), loop.View(), log)
           == HandleResponse(pools, old(View()), old(loop.View()), id, result, error, env)
    {
      log := [];
      if !result.Obj? || result.fields == map[] {
        return;
      }
      if !authenticated && result.Has("job") {
        log := OnLoginJob(id, result.fields["job"], error, loop.View());
      } else if !authenticated && result.Has("status") {
        log := OnStatus(result.fields["status"], env);
      } else if authenticated {
        log := PassAnswer(id, error, loop.View());
      }
    }

    method OnLoginJob(id: int, given: Value, error: Value, ghost net: Net) returns (log: seq<Entry>)
      modifies this`authenticated, this`connected, this`subscribed, this`currentJob, this`hasJob,
               this`reconnectAttempts, this`shareToWorker
      ensures Out(View(), net, log) == LoginAnswer(old(View()), net, id, given, error)
    {
      ghost var p0 := View();
      authenticated, connected, subscribed := true, true, true;
      assert View() == p0.(authenticated := true, connected := true, subscribed := true);
      if given.Has("job_id") && given.Has("blob") {
        log := AdoptLoginJob(given.fields, net);
      } else {
        log := PassAnswer(id, error, net);
      }
    }

    method OnStatus(status: Value, env: Env) returns (log: seq<Entry>)
      requires Valid()
      modifies this, loop
      ensures Valid() && fresh(loop.Objects() - old(loop.Objects()))
      ensures Out(View(), loop.View(), log) == LoginStatus(pools, old(View()), old(loop.View()), status, env)
    {
      log := [];
      var text := AsString(status);
      if text.Some? {
        if text.value == "OK" {
          log := OnUp();
        } else {
          log := OnDown(env);
        }
      }
    }

    method OnUp() returns (log: seq<Entry>)
      modifies this`authenticated, this`connected, this`reconnectAttempts
      ensures View() == old(View()).(authenticated := true, connected := true, attempts := 0)
      ensures log == [PoolAuthenticated]
    {
      authenticated, connected, reconnectAttempts := true, true, 0;
      log := [PoolAuthenticated];
    }

    method AdoptLoginJob(given: map<string, Value>, ghost net: Net) returns (log: seq<Entry>)
      requires "job_id" in given && "blob" in given
      modifies this`currentJob, this`hasJob, this`authenticated, this`connected, this`reconnectAttempts
      ensures Out(View(), net, log)
           == AdoptAssigned(old(View()), net, AssignJob(old(currentJob), given, true))
    {
      var a := AssignJob(currentJob, given, true);
      currentJob := a.job;
      log := [];
      if a.done {
        hasJob := true;
        log := OnUp();
        log := log + [JobAdopted(currentJob)];
      }
    }

    method PassAnswer(id: int, error: Value, ghost net: Net) returns (log: seq<Entry>)
      modifies this`shareToWorker
      ensures Out(View(), net, log) == RouteAnswer(old(View()), net, id, error)
    {
      log := [];
      if id in shareToWorker {
        log := [AnswerRouted(id, shareToWorker[id], IsEmptyValue(error), if error.Str? then error.s else "")];
        shareToWorker := shareToWorker - {id};
      }
    }

    method OnNotification(req: Request, ghost net: Net) returns (log: seq<Entry>)
      modifies this`currentJob, this`hasJob
      ensures Out(View(), net, log) == HandleNotification(old(View()), net, req)
    {
      log := [];
      if req.verb == Notify {
        var job := JobFromNotify(req.params);
        if job.Some? {
          currentJob, hasJob := job.value, true;
          log := [JobAdopted(currentJob)];
        }
      } else if req.verb == JobNotice {
        if req.params.Has("job_id") && req.params.Has("blob") {
          var a := AssignJob(currentJob, req.params.fields, false);
          currentJob := a.job;
          if a.done {
            hasJob := true;
            log := [JobAdopted(currentJob)];
          }
        }
      }
    }

    method Submit(s: Share, env: Env) returns (log: seq<Entry>)
      requires loop.Valid()
      modifies this`nextId, this`shareToWorker, loop.Objects()
      ensures loop.Valid() && loop.connections == old(loop.connections)
      ensures Out(View(), loop.View(), log) == SubmitShare(old(View()), old(loop.View()), s, env)
    {
      if !connected || !hasJob {
        return [];
      }
      var id := nextId;
      nextId := nextId + 1;
      shareToWorker := shareToWorker[id := s.worker];
      var fd := if hasConn then poolFd else -1;
      var sent := loop.SendTo(fd, SubmitMsg(id, s.worker, s.jobId, s.nonce, s.result), WriteOn(env, fd));
      log := [ShareIssued(id, s.worker)];
    }
  }
}
