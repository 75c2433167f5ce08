/** The worker side of the proxy: worker records, the whitelist, extra nonces and job broadcast. The
    functions say what each operation does to the values of the fields; class WorkerManager is the
    imperative form. */
module Workers {
  import opened Wrappers
  import opened Json
  import opened Stratum
  import opened Connections
  import opened EventLoops
  import opened Pools

  // ----- Extra nonces ---------------------------------------------------------------------------

  const NONCE_COUNT := 0x1_0000_0000

  function HexChar(d: nat): char
    requires d < 16
  {
    if d < 10 then ('0' as int + d) as char else ('a' as int + d - 10) as char
  }

  /** The last `k` hexadecimal digits of a number, padded with zeros. */
  function HexDigits(n: nat, k: nat): (s: string)
    ensures |s| == k
  {
    if k == 0 then "" else HexDigits(n / 16, k - 1) + [HexChar(n % 16)]
  }

  function HexValue(s: string): nat {
    if s == "" then 0
    else HexValue(s[..|s| - 1]) * 16 + (match HexDigit(s[|s| - 1]) case Some(d) => d case None => 0)
  }

  /** The nonce of the n-th accepted worker: its 32-bit counter in eight digits. */
  function Nonce(n: nat): string {
    HexDigits(n % NONCE_COUNT, 8)
  }

  // ----- State ----------------------------------------------------------------------------------

  datatype Worker = Worker(workerId: string, subscribed: bool, authorized: bool, extraNonce2: string) {
    predicate Ready() {
      subscribed && authorized
    }
  }

  datatype State = State(entries: map<int, Worker>, job: Job, hasJob: bool, nextNonce: nat)

  datatype Sent = Sent(workers: State, conns: map<int, Conn>)

  datatype Handled = Handled(workers: State, conns: map<int, Conn>, share: Option<Share>)

  predicate Allowed(whitelist: seq<string>, id: string) {
    whitelist == [] || id in whitelist
  }

  /** The record of this descriptor is ready and its connection is still that worker's. */
  predicate Receives(entries: map<int, Worker>, conns: map<int, Conn>, fd: int) {
    fd in entries && entries[fd].Ready() && fd in conns && conns[fd].kind == WorkerSide
  }

  function Broadcast(entries: map<int, Worker>, conns: map<int, Conn>, job: Job, env: Env): map<int, Conn> {
    map fd | fd in conns ::
      if Receives(entries, conns, fd) then Offer(conns[fd], JobMsg(job), WriteOn(env, fd)) else conns[fd]
  }

  function SendJob(w: State, conns: map<int, Conn>, job: Job, env: Env): Sent {
    Sent(w.(job := job, hasJob := true), Broadcast(w.entries, conns, job, env))
  }

  function SendJobAgain(w: State, conns: map<int, Conn>, env: Env): Sent {
    if w.hasJob then SendJob(w, conns, w.job, env) else Sent(w, conns)
  }

  function Accept(w: State, conns: map<int, Conn>, fd: int, env: Env): Sent {
    SendJobAgain(w.(entries := w.entries[fd := Worker("", false, false, HexDigits(w.nextNonce, 8))],
                    nextNonce := (w.nextNonce + 1) % NONCE_COUNT),
                 conns[fd := NewConn(WorkerSide)], env)
  }

  function HandleSubscribe(w: State, conns: map<int, Conn>, fd: int, req: Request, env: Env): Sent
    requires fd in w.entries
  {
    SendJobAgain(w.(entries := w.entries[fd := w.entries[fd].(subscribed := true)]),
                 OfferTo(conns, fd, SubscribeReply(req.id, fd), WriteOn(env, fd)), env)
  }

  /** The worker id of an authorize request; None when it has the wrong type. */
  function AuthorizeId(params: Value): Option<string> {
    if params.Arr? && params.items != [] then AsString(params.items[0]) else Some("")
  }

  function HandleAuthorize(whitelist: seq<string>, w: State, conns: map<int, Conn>, fd: int, req: Request,
                           env: Env): Sent
    requires fd in w.entries
  {
    match AuthorizeId(req.params)
    case None => Sent(w, conns)
    case Some(id) =>
      var allowed := Allowed(whitelist, id);
      AuthorizeVerdict(w.(entries := w.entries[fd := w.entries[fd].(workerId := id)]),
                       OfferTo(conns, fd, AuthorizeReply(req.id, allowed), WriteOn(env, fd)), fd, allowed)
  }

  /** A refused worker is closed; what it was allowed before stays. */
  function AuthorizeVerdict(w: State, conns: map<int, Conn>, fd: int, allowed: bool): Sent
    requires fd in w.entries
  {
    if allowed then Sent(w.(entries := w.entries[fd := w.entries[fd].(authorized := true)]), conns)
    else Sent(w, MarkClosing(conns, fd))
  }

  function LoginId(params: Value): Option<string> {
    if params.Has("login") then AsString(params.fields["login"]) else Some("")
  }

  /** The reply carries the job even for a worker that is refused. */
  function HandleLogin(whitelist: seq<string>, w: State, conns: map<int, Conn>, fd: int, req: Request,
                       env: Env): Sent
    requires fd in w.entries
  {
    match LoginId(req.params)
    case None => Sent(w, conns)
    case Some(id) =>
      var reply := LoginReply(req.id, fd, if w.hasJob then Some(w.job) else None);
      LoginVerdict(w.(entries := w.entries[fd := w.entries[fd].(workerId := id)]),
                   OfferTo(conns, fd, reply, WriteOn(env, fd)), fd, Allowed(whitelist, id))
  }

  /** A login counts as subscribe and authorize; a refused worker is closed. */
  function LoginVerdict(w: State, conns: map<int, Conn>, fd: int, allowed: bool): Sent
    requires fd in w.entries
  {
    if allowed
    then Sent(w.(entries := w.entries[fd := w.entries[fd].(subscribed := true, authorized := true)]), conns)
    else Sent(w, MarkClosing(conns, fd))
  }

  function FieldOr(f: map<string, Value>, key: string): Option<string> {
    if key in f then AsString(f[key]) else Some("")
  }

  /** The four fields of a share; None when one has the wrong type. */
  function ReadShare(req: Request): Option<Share> {
    if req.verb == MoneroSubmit && req.params.Obj? then
      var f := req.params.fields;
      match (FieldOr(f, "id"), FieldOr(f, "job_id"), FieldOr(f, "nonce"), FieldOr(f, "result"))
      case (Some(worker), Some(jobId), Some(nonce), Some(result)) => Some(Share(worker, jobId, nonce, result))
      case _ => None
    else if req.params.Arr? && |req.params.items| >= 4 then
      var p := req.params.items;
      match (AsString(p[0]), AsString(p[1]), AsString(p[2]), AsString(p[3]))
      case (Some(worker), Some(jobId), Some(nonce), Some(result)) => Some(Share(worker, jobId, nonce, result))
      case _ => None
    else Some(Share("", "", "", ""))
  }

  /** The share is acknowledged at once and then handed to the share callback. */
  function HandleSubmit(w: State, conns: map<int, Conn>, fd: int, req: Request, env: Env): Handled {
    match ReadShare(req)
    case None => Handled(w, conns, None)
    case Some(share) => Handled(w, OfferTo(conns, fd, SubmitAck(req.id), WriteOn(env, fd)), Some(share))
  }

  function NoShare(s: Sent): Handled {
    Handled(s.workers, s.conns, None)
  }

  function OnWorkerMessage(whitelist: seq<string>, w: State, conns: map<int, Conn>, fd: int, line: string,
                           env: Env): Handled
  {
    var req := ParseRequest(line);
    if fd !in w.entries then Handled(w, conns, None)
    else
      match req.verb
      case Subscribe => NoShare(HandleSubscribe(w, conns, fd, req, env))
      case Authorize => NoShare(HandleAuthorize(whitelist, w, conns, fd, req, env))
      case Login => NoShare(HandleLogin(whitelist, w, conns, fd, req, env))
      case Submit => HandleSubmit(w, conns, fd, req, env)
      case MoneroSubmit => HandleSubmit(w, conns, fd, req, env)
      case _ => Handled(w, conns, None)
  }

  // ----- The broadcast, worker by worker --------------------------------------------------------

  /** The connections after a broadcast that has not reached the workers in `todo` yet. */
  function BroadcastExcept(entries: map<int, Worker>, conns: map<int, Conn>, job: Job, env: Env,
                           todo: set<int>): map<int, Conn>
  {
    map fd | fd in conns ::
      if fd !in todo && Receives(entries, conns, fd)
      then Offer(conns[fd], JobMsg(job), WriteOn(env, fd)) else conns[fd]
  }

  lemma BroadcastStarts(entries: map<int, Worker>, conns: map<int, Conn>, job: Job, env: Env)
    ensures BroadcastExcept(entries, conns, job, env, entries.Keys) == conns
  {
    SameMap(BroadcastExcept(entries, conns, job, env, entries.Keys), conns);
  }

  lemma BroadcastEnds(entries: map<int, Worker>, conns: map<int, Conn>, job: Job, env: Env)
    ensures BroadcastExcept(entries, conns, job, env, {}) == Broadcast(entries, conns, job, env)
  {
    SameMap(BroadcastExcept(entries, conns, job, env, {}), Broadcast(entries, conns, job, env));
  }

  lemma BroadcastStep(entries: map<int, Worker>, conns: map<int, Conn>, job: Job, env: Env,
                      todo: set<int>, fd: int)
    requires fd in todo
    ensures var was := BroadcastExcept(entries, conns, job, env, todo);
      BroadcastExcept(entries, conns, job, env, todo - {fd})
        == if Receives(entries, conns, fd) then OfferTo(was, fd, JobMsg(job), WriteOn(env, fd)) else was
  {
    var was := BroadcastExcept(entries, conns, job, env, todo);
    SameMap(BroadcastExcept(entries, conns, job, env, todo - {fd}),
            if Receives(entries, conns, fd) then OfferTo(was, fd, JobMsg(job), WriteOn(env, fd)) else was);
  }

  // ----- The object -----------------------------------------------------------------------------

  class WorkerManager {
    const whitelist: seq<string>
    const loop: EventLoop
    var workers: map<int, Worker>
    var currentJob: Job
    var hasJob: bool
    var nextExtraNonce2: nat

    ghost function View(): State
      reads this
    {
      State(workers, currentJob, hasJob, nextExtraNonce2)
    }

    /** Every ready record points at a connection that still exists. */
    ghost predicate ReadyAreLive()
      reads this, loop
    {
      forall fd :: fd in workers && workers[fd].Ready() ==>
        fd in loop.connections && loop.connections[fd].kind == WorkerSide
    }

    constructor (loop: EventLoop, whitelist: seq<string>, job: Job)
      ensures this.loop == loop && this.whitelist == whitelist
      ensures View() == State(map[], job, false, 0)
    {
      this.loop, this.whitelist := loop, whitelist;
      workers, currentJob, hasJob, nextExtraNonce2 := map[], job, false, 0;
    }

    method IsWorkerAllowed(id: string) returns (allowed: bool)
      ensures allowed <==> whitelist == [] || exists i :: 0 <= i < |whitelist| && whitelist[i] == id
      ensures allowed <==> Allowed(whitelist, id)
    {
      if whitelist == [] {
        return true;
      }
      for i := 0 to |whitelist|
        invariant id !in whitelist[..i]
      {
        if whitelist[i] == id {
          return true;
        }
      }
      return false;
    }

    /** Sends a job to every ready worker, in any order. */
    method BroadcastJob(job: Job, env: Env)
      requires loop.Valid() && ReadyAreLive()
      modifies this`currentJob, this`hasJob, loop.Objects()
      ensures loop.Valid() && loop.connections == old(loop.connections) && loop.timeouts == old(loop.timeouts)
      ensures Sent(View(), loop.View().conns) == SendJob(old(View()), old(loop.View()).conns, job, env)
    {
      currentJob := job;
      hasJob := true;
      assert loop.View() == old(loop.View());
      SendToReady(job, env);
    }

    method SendToReady(job: Job, env: Env)
      requires loop.Valid() && ReadyAreLive()
      modifies loop.Objects()
      ensures loop.Valid() && loop.connections == old(loop.connections) && loop.timeouts == old(loop.timeouts)
      ensures loop.View().conns == Broadcast(workers, old(loop.View()).conns, job, env)
    {
      ghost var was := loop.View().conns;
      var todo := workers.Keys;
      BroadcastStarts(workers, was, job, env);
      while todo != {}
        invariant todo <= workers.Keys && loop.Valid()
        invariant loop.connections == old(loop.connections) && loop.timeouts == old(loop.timeouts)
        invariant loop.View().conns == BroadcastExcept(workers, was, job, env, todo)
        decreases |todo|
      {
        HasMember(todo);
        var fd :| fd in todo;
        SendJobTo(fd, job, env, was, todo);
        todo := todo - {fd};
      }
      BroadcastEnds(workers, was, job, env);
    }

    /** One worker's turn in a broadcast. */
    method SendJobTo(fd: int, job: Job, env: Env, ghost was: map<int, Conn>, ghost todo: set<int>)
      requires loop.Valid() && ReadyAreLive() && fd in workers && fd in todo
      requires loop.View().conns == BroadcastExcept(workers, was, job, env, todo)
      modifies loop.Objects()
      ensures loop.Valid() && loop.connections == old(loop.connections) && loop.timeouts == old(loop.timeouts)
      ensures loop.View().conns == BroadcastExcept(workers, was, job, env, todo - {fd})
    {
      BroadcastStep(workers, was, job, env, todo, fd);
      if workers[fd].subscribed && workers[fd].authorized {
        assert fd in loop.View().conns && loop.View().conns[fd].kind == WorkerSide;
        var sent := loop.SendTo(fd, JobMsg(job), WriteOn(env, fd));
      }
    }

    /** A known job is broadcast once more. */
    method BroadcastAgain(env: Env)
      requires loop.Valid() && ReadyAreLive()
      modifies this`currentJob, this`hasJob, loop.Objects()
      ensures loop.Valid() && loop.connections == old(loop.connections) && loop.timeouts == old(loop.timeouts)
      ensures Sent(View(), loop.View().conns) == SendJobAgain(old(View()), old(loop.View()).conns, env)
    {
      if hasJob {
        BroadcastJob(currentJob, env);
      }
    }

    /** A new connection was accepted under this descriptor. */
    method AcceptWorker(fd: int, env: Env)
      requires loop.Valid() && ReadyAreLive()
      modifies this, loop`connections, loop.Objects()
      ensures loop.Valid() && fresh(loop.Objects() - old(loop.Objects()))
      ensures loop.timeouts == old(loop.timeouts)
      ensures Sent(View(), loop.View().conns) == Accept(old(View()), old(loop.View()).conns, fd, env)
    {
      var conn := new Connection(WorkerSide);
      loop.AddConnection(fd, conn);
      var nonce := HexDigits(nextExtraNonce2, 8);
      nextExtraNonce2 := (nextExtraNonce2 + 1) % NONCE_COUNT;
      workers := workers[fd := Worker("", false, false, nonce)];
      assert loop.View().conns == old(loop.View()).conns[fd := NewConn(WorkerSide)];
      BroadcastAgain(env);
    }

    method Subscribed(fd: int, req: Request, env: Env)
      requires loop.Valid() && fd in workers && fd in loop.connections
      requires loop.connections[fd].kind == WorkerSide && ReadyAreLive()
      modifies this`workers, this`currentJob, this`hasJob, loop.Objects()
      ensures loop.Valid() && loop.connections == old(loop.connections) && loop.timeouts == old(loop.timeouts)
      ensures Sent(View(), loop.View().conns) == HandleSubscribe(old(View()), old(loop.View()).conns, fd, req, env)
    {
      var sent := loop.SendTo(fd, SubscribeReply(req.id, fd), WriteOn(env, fd));
      workers := workers[fd := workers[fd].(subscribed := true)];
      BroadcastAgain(env);
    }

    method Authorized(fd: int, req: Request, env: Env)
      requires loop.Valid() && fd in workers && fd in loop.connections
      modifies this`workers, loop.Objects()
      ensures loop.Valid() && loop.connections == old(loop.connections) && loop.timeouts == old(loop.timeouts)
      ensures Sent(View(), loop.View().conns)
           == HandleAuthorize(whitelist, old(View()), old(loop.View()).conns, fd, req, env)
    {
      var id := AuthorizeId(req.params);
      if id.None? {
        return;
      }
      Rename(fd, id.value);
      var allowed := IsWorkerAllowed(id.value);
      var sent := loop.SendTo(fd, AuthorizeReply(req.id, allowed), WriteOn(env, fd));
      AuthorizedVerdict(fd, allowed);
    }

    method Rename(fd: int, id: string)
      requires fd in workers
      modifies this`workers
      ensures View() == old(View()).(entries := old(workers)[fd := old(workers)[fd].(workerId := id)])
      ensures loop.View() == old(loop.View())
    {
      workers := workers[fd := workers[fd].(workerId := id)];
    }

    method AuthorizedVerdict(fd: int, allowed: bool)
      requires loop.Valid() && fd in workers
      modifies this`workers, loop.Objects()
      ensures loop.Valid() && loop.connections == old(loop.connections) && loop.timeouts == old(loop.timeouts)
      ensures Sent(View(), loop.View().conns)
           == AuthorizeVerdict(old(View()), old(loop.View()).conns, fd, allowed)
    {
      if allowed {
        workers := workers[fd := workers[fd].(authorized := true)];
      } else {
        loop.MarkForClosing(fd);
      }
    }

    method LoggedIn(fd: int, req: Request, env: Env)
      requires loop.Valid() && fd in workers && fd in loop.connections
      modifies this`workers, loop.Objects()
      ensures loop.Valid() && loop.connections == old(loop.connections) && loop.timeouts == old(loop.timeouts)
      ensures Sent(View(), loop.View().conns)
           == HandleLogin(whitelist, old(View()), old(loop.View()).conns, fd, req, env)
    {
      var id := LoginId(req.params);
      if id.None? {
        return;
      }
      Rename(fd, id.value);
      var allowed := IsWorkerAllowed(id.value);
      var reply := LoginReply(req.id, fd, if hasJob then Some(currentJob) else None);
      var sent := loop.SendTo(fd, reply, WriteOn(env, fd));
      LoggedInVerdict(fd, allowed);
    }

    method LoggedInVerdict(fd: int, allowed: bool)
      requires loop.Valid() && fd in workers
      modifies this`workers, loop.Objects()
      ensures loop.Valid() && loop.connections == old(loop.connections) && loop.timeouts == old(loop.timeouts)
      ensures Sent(View(), loop.View().conns)
           == LoginVerdict(old(View()), old(loop.View()).conns, fd, allowed)
    {
      if allowed {
        workers := workers[fd := workers[fd].(subscribed := true, authorized := true)];
      } else {
        loop.MarkForClosing(fd);
      }
    }

    method Submitted(fd: int, req: Request, env: Env) returns (share: Option<Share>)
      requires loop.Valid()
      modifies loop.Objects()
      ensures loop.Valid() && loop.connections == old(loop.connections) && loop.timeouts == old(loop.timeouts)
      ensures Handled(View(), loop.View().conns, share)
           == HandleSubmit(old(View()), old(loop.View()).conns, fd, req, env)
    {
      share := ReadShare(req);
      if share.Some? {
        var sent := loop.SendTo(fd, SubmitAck(req.id), WriteOn(env, fd));
      }
    }

    /** One line from a worker; the share it submits, if any, goes to the share callback. */
    method OnMessage(fd: int, line: string, env: Env) returns (share: Option<Share>)
      requires loop.Valid() && fd in loop.connections && loop.connections[fd].kind == WorkerSide
      requires ReadyAreLive()
      modifies this`workers, this`currentJob, this`hasJob, loop.Objects()
      ensures loop.Valid() && loop.connections == old(loop.connections) && loop.timeouts == old(loop.timeouts)
      ensures Handled(View(), loop.View().conns, share)
           == OnWorkerMessage(whitelist, old(View()), old(loop.View()).conns, fd, line, env)
    {
      share := None;
      var req := ParseRequest(line);
      if fd !in workers {
        return;
      }
      match req.verb {
        case Subscribe => Subscribed(fd, req, env);
        case Authorize => Authorized(fd, req, env);
        case Login => LoggedIn(fd, req, env);
        case Submit => share := Submitted(fd, req, env);
        case MoneroSubmit => share := Submitted(fd, req, env);
        case _ =>
      }
    }
  }
}
